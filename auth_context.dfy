/** The session provider (src/contexts/AuthContext.tsx): whether the viewer
    is signed in, their profile, whether the start-up check is still
    running, and the stored token behind them. Every API call is made
    through `Api.ApiService`; the server's replies are parameters. */
module AuthContext {
  import opened Wrappers
  import opened Api

  /** The provider's three state variables and the local storage they rely on. */
  datatype Session = Session(isAuthenticated: bool, user: Option<UserResponse>, loading: bool, storage: Storage)

  /** The provider's invariant: signed in exactly when a profile is held. */
  predicate Consistent(s: Session) {
    s.isAuthenticated <==> s.user.Some?
  }

  /** A signed-in session always has a token entry in storage behind it. */
  predicate Backed(s: Session) {
    s.isAuthenticated ==> AccessTokenKey in s.storage
  }

  predicate Good(s: Session) {
    Consistent(s) && Backed(s)
  }

  /** The state on mount: signed out, no profile, the start-up check pending. */
  function Initial(storage: Storage): (s: Session)
    ensures !s.isAuthenticated && s.user == None && s.loading && s.storage == storage
    ensures Good(s)
  {
    Session(false, None, true, storage)
  }

  /** `checkAuth`, run once on mount. With a usable token it fetches the
      profile: on success the viewer is signed in; on failure the token is
      dropped. Either way, and also without a token, loading ends. */
  function CheckAuthNext(s: Session, profile: Response<UserResponse>): (t: Session)
    ensures !t.loading
    ensures !HasToken(s.storage) ==> t == s.(loading := false)
    ensures HasToken(s.storage) && CurrentUserResult(profile).Success? ==>
              t.isAuthenticated && t.user == Some(profile.body) && t.storage == s.storage
    ensures HasToken(s.storage) && CurrentUserResult(profile).Failure? ==>
              !t.isAuthenticated && t.user == None && t.storage == StoreAfterLogout(s.storage)
    ensures Good(s) ==> Good(t)
  {
    if !HasToken(s.storage) then s.(loading := false)
    else match CurrentUserResult(profile)
      case Success(u) => s.(user := Some(u), isAuthenticated := true, loading := false)
      case Failure(_) => Session(false, None, false, s.storage - {AccessTokenKey})
  }

  /** What `login` returns: both the token exchange and the profile fetch succeeded. */
  predicate LoginSucceeds(tokenReply: Response<TokenResponse>, profile: Response<UserResponse>) {
    LoginResult(tokenReply).Success? && CurrentUserResult(profile).Success?
  }

  /** `login`: on success the viewer is signed in with the fetched profile.
      On any failure the flags and profile stay as they were, but a token
      obtained before a failed profile fetch stays stored. */
  function LoginNext(s: Session, tokenReply: Response<TokenResponse>, profile: Response<UserResponse>): (t: Session)
    ensures t.storage == StoreAfterLogin(s.storage, tokenReply)
    ensures LoginSucceeds(tokenReply, profile) ==> t.isAuthenticated && t.user == Some(profile.body)
    ensures !LoginSucceeds(tokenReply, profile) ==> t.isAuthenticated == s.isAuthenticated && t.user == s.user
    ensures t.loading == s.loading
    ensures Good(s) ==> Good(t)
  {
    var stored := StoreAfterLogin(s.storage, tokenReply);
    if LoginSucceeds(tokenReply, profile) then
      Session(true, Some(profile.body), s.loading, stored)
    else
      s.(storage := stored)
  }

  predicate GoogleLoginSucceeds(tokenReply: Response<TokenResponse>, profile: Response<UserResponse>) {
    GoogleLoginResult(tokenReply).Success? && CurrentUserResult(profile).Success?
  }

  /** `loginWithGoogle`: as `login`, with the Google token exchange. */
  function GoogleLoginNext(s: Session, tokenReply: Response<TokenResponse>, profile: Response<UserResponse>): (t: Session)
    ensures t.storage == StoreAfterGoogleLogin(s.storage, tokenReply)
    ensures GoogleLoginSucceeds(tokenReply, profile) ==> t.isAuthenticated && t.user == Some(profile.body)
    ensures !GoogleLoginSucceeds(tokenReply, profile) ==> t.isAuthenticated == s.isAuthenticated && t.user == s.user
    ensures t.loading == s.loading
    ensures Good(s) ==> Good(t)
  {
    var stored := StoreAfterGoogleLogin(s.storage, tokenReply);
    if GoogleLoginSucceeds(tokenReply, profile) then
      Session(true, Some(profile.body), s.loading, stored)
    else
      s.(storage := stored)
  }

  /** `logout`: the token is removed and the viewer is signed out. */
  function LogoutNext(s: Session): (t: Session)
    ensures !t.isAuthenticated && t.user == None && !HasToken(t.storage)
    ensures t.storage == StoreAfterLogout(s.storage) && t.loading == s.loading
    ensures Good(t)
  {
    Session(false, None, s.loading, StoreAfterLogout(s.storage))
  }

  /** Everything the provider can be asked to do, with the server's replies. */
  datatype Event =
    | CheckAuth(profile: Response<UserResponse>)
    | Login(tokenReply: Response<TokenResponse>, profile: Response<UserResponse>)
    | GoogleLogin(tokenReply: Response<TokenResponse>, profile: Response<UserResponse>)
    | Register(reply: Response<UserResponse>)
    | Logout

  /** `register` leaves the session alone, whatever the reply. */
  function Step(s: Session, e: Event): Session {
    match e
    case CheckAuth(p) => CheckAuthNext(s, p)
    case Login(t, p) => LoginNext(s, t, p)
    case GoogleLogin(t, p) => GoogleLoginNext(s, t, p)
    case Register(_) => s
    case Logout => LogoutNext(s)
  }

  function Run(s: Session, es: seq<Event>): Session
    decreases |es|
  {
    if es == [] then s else Run(Step(s, es[0]), es[1..])
  }

  /** Every state reachable from mount, by any sequence of whole operations
      with any replies, is signed in exactly when it holds a profile, and then
      holds a token entry. Operations are taken one after another; their
      awaits are not interleaved. */
  lemma {:induction false} RunKeepsInvariant(s: Session, es: seq<Event>)
    requires Good(s)
    ensures Good(Run(s, es))
    decreases |es|
  {
    if es != [] {
      RunKeepsInvariant(Step(s, es[0]), es[1..]);
    }
  }

  /** After the start-up check and after any later events, loading is over. */
  lemma {:induction false} LoadingEndsAfterCheck(s: Session, profile: Response<UserResponse>, es: seq<Event>)
    ensures !Run(s, [CheckAuth(profile)] + es).loading
    decreases |es|
  {
    var t := CheckAuthNext(s, profile);
    assert ([CheckAuth(profile)] + es)[1..] == es;
    LoadingStaysOff(t, es);
  }

  lemma {:induction false} LoadingStaysOff(s: Session, es: seq<Event>)
    requires !s.loading
    ensures !Run(s, es).loading
    decreases |es|
  {
    if es != [] {
      LoadingStaysOff(Step(s, es[0]), es[1..]);
    }
  }

  /** The provider object. Its fields are the React state; the token lives
      in the local storage shared with the API client. */
  class AuthProvider {
    var isAuthenticated: bool
    var user: Option<UserResponse>
    var loading: bool
    const api: ApiService

    function State(): Session
      reads this, api.storage
    {
      Session(isAuthenticated, user, loading, api.storage.items)
    }

    ghost predicate Valid()
      reads this, api.storage
    {
      Good(State())
    }

    constructor (api: ApiService)
      ensures this.api == api
      ensures State() == Initial(api.storage.items)
      ensures Valid()
    {
      this.api := api;
      isAuthenticated := false;
      user := None;
      loading := true;
    }

    method CheckAuth(profile: Response<UserResponse>)
      requires Valid()
      modifies this, api.storage
      ensures Valid()
      ensures State() == CheckAuthNext(old(State()), profile)
    {
      var isAuth := api.IsAuthenticated();
      if isAuth {
        var sent, r := api.GetCurrentUser(profile);
        if r.Success? {
          user := Some(r.value);
          isAuthenticated := true;
        } else {
          api.storage.RemoveItem(AccessTokenKey);
          isAuthenticated := false;
          user := None;
        }
      }
      loading := false;
    }

    method Login(email: string, password: string, tokenReply: Response<TokenResponse>, profile: Response<UserResponse>)
      returns (ok: bool)
      requires Valid()
      modifies this, api.storage
      ensures Valid()
      ensures ok == LoginSucceeds(tokenReply, profile)
      ensures State() == LoginNext(old(State()), tokenReply, profile)
    {
      var sent, t := api.Login(email, password, tokenReply);
      if t.Failure? {
        return false;
      }
      var sentMe, u := api.GetCurrentUser(profile);
      if u.Failure? {
        return false;
      }
      isAuthenticated := true;
      user := Some(u.value);
      ok := true;
    }

    method LoginWithGoogle(token: string, tokenReply: Response<TokenResponse>, profile: Response<UserResponse>)
      returns (ok: bool)
      requires Valid()
      modifies this, api.storage
      ensures Valid()
      ensures ok == GoogleLoginSucceeds(tokenReply, profile)
      ensures State() == GoogleLoginNext(old(State()), tokenReply, profile)
    {
      var sent, t := api.LoginWithGoogle(token, tokenReply);
      if t.Failure? {
        return false;
      }
      var sentMe, u := api.GetCurrentUser(profile);
      if u.Failure? {
        return false;
      }
      isAuthenticated := true;
      user := Some(u.value);
      ok := true;
    }

    /** `register` reports the outcome and changes no state. */
    method Register(email: string, password: string, reply: Response<UserResponse>)
      returns (ok: bool)
      requires Valid()
      ensures ok == RegisterResult(reply).Success?
    {
      var sent, r := api.Register(email, password, reply);
      ok := r.Success?;
    }

    method Logout()
      requires Valid()
      modifies this, api.storage
      ensures Valid()
      ensures State() == LogoutNext(old(State()))
    {
      api.Logout();
      isAuthenticated := false;
      user := None;
    }
  }
}
