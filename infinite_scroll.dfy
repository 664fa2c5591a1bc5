/** The infinite-scroll hook (src/hooks/useInfiniteScroll.ts): a fetching
    flag, the one intersection observer the hook holds, the ref callback
    that binds the observer to the last list element, and the observer's
    callback that starts a load.

    The ref callback and the observer callback are closures: each sees the
    `hasMore` and `isFetching` of the render that created it. Here those
    captured values are explicit: the ref callback receives them as
    arguments, and each observer keeps the ones it was created with. */
module InfiniteScroll {
  import opened Wrappers

  /** A rendered element; only its identity matters. */
  type NodeId = nat

  /** `new IntersectionObserver(callback)` together with what its callback
      captured, and the element it observes (`None`: it observes nothing). */
  class Observer {
    const target: Option<NodeId>
    const hasMore: bool
    const isFetching: bool
    var connected: bool

    constructor (target: Option<NodeId>, hasMore: bool, isFetching: bool)
      ensures this.target == target && this.hasMore == hasMore && this.isFetching == isFetching
      ensures connected
    {
      this.target := target;
      this.hasMore := hasMore;
      this.isFetching := isFetching;
      connected := true;
    }

    method Disconnect()
      modifies this
      ensures !connected
    {
      connected := false;
    }

    /** The callback's test on `entries[0]`. */
    predicate StartsLoad(isIntersecting: bool)
      reads this
      ensures StartsLoad(isIntersecting) ==> isIntersecting && hasMore && !isFetching
      ensures target.None? ==> !StartsLoad(isIntersecting)
    {
      target.Some? && isIntersecting && hasMore && !isFetching
    }
  }

  class Hook {
    var isFetching: bool
    /** `observer.current` */
    var observer: Observer?
    /** Loads started whose promise has not settled yet; bookkeeping for
        the proofs, not state the hook keeps. */
    ghost var inFlight: nat
    /** Every observer the hook has created. */
    ghost var created: set<Observer>

    /** At most one observer is live, and it is the one the hook holds;
        none was created by a callback that saw a fetch in progress. */
    ghost predicate Valid()
      reads this, created
    {
      (observer != null ==> observer in created && observer.connected)
      && (forall o :: o in created && o.connected ==> o == observer)
      && (forall o :: o in created ==> !o.isFetching)
    }

    constructor ()
      ensures Valid()
      ensures !isFetching && observer == null && inFlight == 0 && created == {}
    {
      isFetching := false;
      observer := null;
      inFlight := 0;
      created := {};
    }

    /** `lastElementRef(node)` as created in a render that saw `hasMore` and
        `fetchingAtRender`. While fetching it does nothing; otherwise it
        disconnects the held observer and holds a new one on `node`. */
    method LastElementRef(node: Option<NodeId>, hasMore: bool, fetchingAtRender: bool)
      requires Valid()
      modifies this, observer
      ensures Valid()
      ensures isFetching == old(isFetching) && inFlight == old(inFlight)
      ensures fetchingAtRender ==> observer == old(observer) && created == old(created)
      ensures !fetchingAtRender ==>
                fresh(observer) && observer.target == node && observer.hasMore == hasMore
                && created == old(created) + {observer}
                && (old(observer) != null ==> !old(observer).connected)
    {
      if fetchingAtRender {
        return;
      }
      if observer != null {
        observer.Disconnect();
      }
      var o := new Observer(node, hasMore, fetchingAtRender);
      observer := o;
      created := created + {o};
    }

    /** The held observer reports its first entry. A load starts, and the
        flag is raised, only when that entry intersects and the observer's
        captured `hasMore` is true and captured `isFetching` false. */
    method Intersect(isIntersecting: bool) returns (loadStarted: bool)
      requires Valid()
      modifies this
      ensures Valid()
      ensures observer == old(observer) && created == old(created)
      ensures loadStarted <==> observer != null && observer.StartsLoad(isIntersecting)
      ensures loadStarted ==> isFetching && inFlight == old(inFlight) + 1
      ensures !loadStarted ==> isFetching == old(isFetching) && inFlight == old(inFlight)
    {
      loadStarted := observer != null && observer.StartsLoad(isIntersecting);
      if loadStarted {
        isFetching := true;
        inFlight := inFlight + 1;
      }
    }

    /** The `finally` of a load: whether it succeeded or failed, the flag drops. */
    method Settle()
      requires Valid() && inFlight > 0
      modifies this
      ensures Valid()
      ensures !isFetching && inFlight == old(inFlight) - 1
      ensures observer == old(observer) && created == old(created)
    {
      isFetching := false;
      inFlight := inFlight - 1;
    }

    /** The setter the hook hands back to its caller. */
    method SetIsFetching(fetching: bool)
      requires Valid()
      modifies this
      ensures Valid()
      ensures isFetching == fetching && inFlight == old(inFlight)
      ensures observer == old(observer) && created == old(created)
    {
      isFetching := fetching;
    }
  }

  /** The sequence React runs when a load starts: the flag changes, so the
      ref callback is replaced; React calls the old one with no element
      (it still sees no fetch, so it holds an observer on nothing) and the
      new one with the element (it sees the fetch and returns early). A
      second intersection then starts nothing; after the load settles and
      the next rebind, a new intersection starts the next load. */
  method ScrollSession(last: NodeId) returns (first: bool, during: bool, next: bool)
    ensures first && !during && next
  {
    var hook := new Hook();
    hook.LastElementRef(Some(last), true, false);
    first := hook.Intersect(true);
    hook.LastElementRef(None, true, false);
    hook.LastElementRef(Some(last), true, true);
    during := hook.Intersect(true);
    hook.Settle();
    hook.LastElementRef(None, true, true);
    hook.LastElementRef(Some(last), true, false);
    next := hook.Intersect(true);
  }

  /** The guard lives in the closure, not in the hook's state: an observer
      keeps the `isFetching` it was created with, so if a second intersection
      reached it before the rebind it would start a second load while the
      first is in flight. The React order played out in `ScrollSession`
      always rebinds first, so this does not arise there. */
  method StaleObserver(last: NodeId) returns (first: bool, second: bool, fetching: bool)
    ensures first && second && fetching
  {
    var hook := new Hook();
    hook.LastElementRef(Some(last), true, false);
    first := hook.Intersect(true);
    second := hook.Intersect(true);
    fetching := hook.isFetching;
  }

  /** Once `hasMore` is false when the element is bound, no intersection loads. */
  method NoMore(last: NodeId) returns (loadStarted: bool)
    ensures !loadStarted
  {
    var hook := new Hook();
    hook.LastElementRef(Some(last), false, false);
    loadStarted := hook.Intersect(true);
  }
}
