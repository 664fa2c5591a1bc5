/** The flip-and-adjust rule that both like handlers apply: the feed's
    `handleLike` to an item of its list and the card's `handleLike` to its
    own local state. */
module Likes {

  /** Whether the viewer likes an article and the count shown beside it. */
  datatype LikeState = LikeState(liked: bool, count: int)

  /** Flip the flag; take one like off when it was set, add one otherwise. */
  function Toggle(s: LikeState): (t: LikeState)
    ensures t.liked == !s.liked
    ensures t.count == if s.liked then s.count - 1 else s.count + 1
  {
    LikeState(!s.liked, if s.liked then s.count - 1 else s.count + 1)
  }

  /** A count that could have come from a server: never negative, and at
      least one when the viewer is among the likers. */
  predicate Plausible(s: LikeState) {
    s.count >= 0 && (s.liked ==> s.count >= 1)
  }

  lemma ToggleTwice(s: LikeState)
    ensures Toggle(Toggle(s)) == s
  {
  }

  lemma TogglePlausible(s: LikeState)
    requires Plausible(s)
    ensures Plausible(Toggle(s))
  {
  }
}
