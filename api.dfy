/** The request and session-token logic of the client's `ApiService`
    (src/lib/api.ts): which headers a request carries, how the query strings
    of the feed and search endpoints are assembled, how a server reply is
    turned into a value or an error, and what each call does to the
    `access_token` entry of the browser's local storage.

    The network is not modelled: every call takes the reply the server gave
    as a parameter (`Response`), already parsed from JSON where the source
    calls `response.json()`. */
module Api {
  import opened Wrappers
  import opened Text

  // ---------------------------------------------------------------------
  // Local storage and the access token
  // ---------------------------------------------------------------------

  /** The browser's local storage: string keys to string values. */
  type Storage = map<string, string>

  const AccessTokenKey: string := "access_token"

  /** `localStorage.getItem(key)`; `None` plays the part of `null`. */
  function GetItem(store: Storage, key: string): (v: Option<string>)
    ensures v.Some? <==> key in store
    ensures v.Some? ==> v.value == store[key]
  {
    if key in store then Some(store[key]) else None
  }

  /** The stored token is truthy in JavaScript: `getItem` gives neither
      `null` nor the empty string. */
  predicate HasToken(store: Storage)
    ensures HasToken(store) <==>
              GetItem(store, AccessTokenKey).Some? && GetItem(store, AccessTokenKey).value != ""
  {
    AccessTokenKey in store && store[AccessTokenKey] != ""
  }

  // ---------------------------------------------------------------------
  // Headers
  // ---------------------------------------------------------------------

  datatype Header = Header(name: string, value: string)

  const AuthorizationName: string := "Authorization"
  const NgrokHeader := Header("ngrok-skip-browser-warning", "true")
  const JsonContentType := Header("Content-Type", "application/json")

  /** The value of the first header called `name`, if any. */
  function HeaderValue(hs: seq<Header>, name: string): Option<string>
    decreases |hs|
  {
    if hs == [] then None
    else if hs[0].name == name then Some(hs[0].value)
    else HeaderValue(hs[1..], name)
  }

  /** `getAuthHeaders()`: a bearer token when one is stored, then the ngrok header. */
  function AuthHeaders(store: Storage): (hs: seq<Header>)
    ensures HeaderValue(hs, AuthorizationName) ==
              if HasToken(store) then Some("Bearer " + store[AccessTokenKey]) else None
    ensures HeaderValue(hs, NgrokHeader.name) == Some("true")
  {
    (if HasToken(store) then [Header(AuthorizationName, "Bearer " + store[AccessTokenKey])] else [])
    + [NgrokHeader]
  }

  /** `getHeaders()`: the header set of the unauthenticated endpoints. */
  function PlainHeaders(): (hs: seq<Header>)
    ensures HeaderValue(hs, AuthorizationName) == None
    ensures HeaderValue(hs, NgrokHeader.name) == Some("true")
  {
    [NgrokHeader]
  }

  // ---------------------------------------------------------------------
  // Requests
  // ---------------------------------------------------------------------

  /** One key/value pair of a query string, form or JSON object, in order. */
  datatype Param = Param(key: string, value: string)

  datatype Body = NoBody | FormData(fields: seq<Param>) | JsonObject(fields: seq<Param>)

  /** What `fetch` is asked to send: the path below the base URL, the query
      parameters in order, the headers in order and the body. */
  datatype Request = Request(verb: string, path: string, query: seq<Param>, headers: seq<Header>, body: Body)

  function Keys(ps: seq<Param>): (ks: seq<string>)
    ensures |ks| == |ps|
    ensures forall i :: 0 <= i < |ps| ==> ks[i] == ps[i].key
  {
    seq(|ps|, i requires 0 <= i < |ps| => ps[i].key)
  }

  /** `URLSearchParams.get(key)`: the value of the first pair called `key`. */
  function QueryValue(ps: seq<Param>, key: string): Option<string>
    decreases |ps|
  {
    if ps == [] then None
    else if ps[0].key == key then Some(ps[0].value)
    else QueryValue(ps[1..], key)
  }

  /** The pair at index `i` is the first one called `key`. */
  lemma {:induction false} QueryValueAt(ps: seq<Param>, i: nat, key: string)
    requires i < |ps| && ps[i].key == key
    requires forall j :: 0 <= j < i ==> ps[j].key != key
    ensures QueryValue(ps, key) == Some(ps[i].value)
    decreases i
  {
    if i > 0 {
      QueryValueAt(ps[1..], i - 1, key);
    }
  }

  lemma {:induction false} QueryValueAbsent(ps: seq<Param>, key: string)
    requires forall j :: 0 <= j < |ps| ==> ps[j].key != key
    ensures QueryValue(ps, key) == None
    decreases |ps|
  {
    if ps != [] {
      QueryValueAbsent(ps[1..], key);
    }
  }

  /** How a server reads a number back out of a query string. */
  function QueryInt(ps: seq<Param>, key: string): Option<int> {
    match QueryValue(ps, key)
    case None => None
    case Some(v) => ParseInt(v)
  }

  function QueryBool(ps: seq<Param>, key: string): Option<bool> {
    match QueryValue(ps, key)
    case None => None
    case Some(v) => ParseBool(v)
  }

  const DefaultTrending: bool := false
  const DefaultTopN: int := 10
  const DefaultDays: int := 7
  const DefaultSkip: int := 0
  const DefaultLimit: int := 10

  /** The query of `getRecommendations(trending, topN, days, skip)`. */
  function RecommendationsQuery(trending: bool, topN: int, days: int, skip: int): (q: seq<Param>)
    ensures Keys(q) == ["top_n", "trending", "days", "skip"]
    ensures QueryInt(q, "top_n") == Some(topN)
    ensures QueryBool(q, "trending") == Some(trending)
    ensures QueryInt(q, "days") == Some(days)
    ensures QueryInt(q, "skip") == Some(skip)
  {
    var q := [ Param("top_n", IntToString(topN)),
               Param("trending", BoolToString(trending)),
               Param("days", IntToString(days)),
               Param("skip", IntToString(skip)) ];
    assert "top_n"[0] != "trending"[1] && "days"[0] != "skip"[0];
    QueryValueAt(q, 0, "top_n");
    QueryValueAt(q, 1, "trending");
    QueryValueAt(q, 2, "days");
    QueryValueAt(q, 3, "skip");
    ParseIntToString(topN);
    ParseIntToString(days);
    ParseIntToString(skip);
    q
  }

  /** The search argument of `getArticles` is sent only when it is truthy. */
  predicate SearchSent(search: Option<string>) {
    search.Some? && search.value != ""
  }

  /** The query of `getArticles(search, skip, limit)`. */
  function ArticlesQuery(search: Option<string>, skip: int, limit: int): (q: seq<Param>)
    ensures Keys(q) == ["skip", "limit"] + (if SearchSent(search) then ["search"] else [])
    ensures QueryInt(q, "skip") == Some(skip)
    ensures QueryInt(q, "limit") == Some(limit)
    ensures QueryValue(q, "search") == if SearchSent(search) then search else None
  {
    var q := [Param("skip", IntToString(skip)), Param("limit", IntToString(limit))]
             + (if SearchSent(search) then [Param("search", search.value)] else []);
    assert "skip"[0] != "limit"[0] && "skip"[0] != "search"[1] && "limit"[0] != "search"[0];
    QueryValueAt(q, 0, "skip");
    QueryValueAt(q, 1, "limit");
    if SearchSent(search) then QueryValueAt(q, 2, "search"); ParseIntToString(skip); ParseIntToString(limit); q
    else QueryValueAbsent(q, "search"); ParseIntToString(skip); ParseIntToString(limit); q
  }

  function RegisterRequest(email: string, password: string): (r: Request)
    ensures r.path == "/register" && r.verb == "POST"
    ensures HeaderValue(r.headers, AuthorizationName) == None
    ensures r.body == JsonObject([Param("email", email), Param("password", password)])
  {
    Request("POST", "/register", [], [JsonContentType] + PlainHeaders(),
            JsonObject([Param("email", email), Param("password", password)]))
  }

  function LoginRequest(username: string, password: string): (r: Request)
    ensures r.path == "/token" && r.verb == "POST"
    ensures HeaderValue(r.headers, AuthorizationName) == None
    ensures r.body == FormData([Param("username", username), Param("password", password)])
  {
    Request("POST", "/token", [], PlainHeaders(),
            FormData([Param("username", username), Param("password", password)]))
  }

  function GoogleLoginRequest(token: string): (r: Request)
    ensures r.path == "/auth/google" && r.verb == "POST"
    ensures HeaderValue(r.headers, AuthorizationName) == None
    ensures r.body == JsonObject([Param("token", token)])
  {
    Request("POST", "/auth/google", [], [JsonContentType] + PlainHeaders(),
            JsonObject([Param("token", token)]))
  }

  /** The requests that need a session carry the stored token, if any. */
  predicate SignedWith(r: Request, store: Storage) {
    HeaderValue(r.headers, AuthorizationName) ==
      if HasToken(store) then Some("Bearer " + store[AccessTokenKey]) else None
  }

  function CurrentUserRequest(store: Storage): (r: Request)
    ensures r.path == "/auth/me" && r.verb == "GET" && r.query == []
    ensures SignedWith(r, store)
  {
    Request("GET", "/auth/me", [], AuthHeaders(store), NoBody)
  }

  function RecommendationsRequest(store: Storage, trending: bool, topN: int, days: int, skip: int): (r: Request)
    ensures r.path == "/recommendations" && r.verb == "GET"
    ensures r.query == RecommendationsQuery(trending, topN, days, skip)
    ensures SignedWith(r, store)
  {
    Request("GET", "/recommendations", RecommendationsQuery(trending, topN, days, skip), AuthHeaders(store), NoBody)
  }

  function ArticlesRequest(store: Storage, search: Option<string>, skip: int, limit: int): (r: Request)
    ensures r.path == "/articles" && r.verb == "GET"
    ensures r.query == ArticlesQuery(search, skip, limit)
    ensures SignedWith(r, store)
  {
    Request("GET", "/articles", ArticlesQuery(search, skip, limit), AuthHeaders(store), NoBody)
  }

  /** With every argument left out, the feed asks for ten trending-off
      articles of the last seven days from the start. */
  lemma DefaultRecommendationsQuery()
    ensures RecommendationsQuery(DefaultTrending, DefaultTopN, DefaultDays, DefaultSkip)
         == [Param("top_n", "10"), Param("trending", "false"), Param("days", "7"), Param("skip", "0")]
  {
    assert DigitChar(0) == '0' && DigitChar(1) == '1' && DigitChar(7) == '7';
    assert NatToString(10) == NatToString(1) + [DigitChar(0)] == "10";
    assert IntToString(10) == "10" && IntToString(7) == "7" && IntToString(0) == "0";
  }

  /** With no search and the default paging, the search asks for the first
      ten articles. */
  lemma ArticlesDefaults()
    ensures ArticlesQuery(None, DefaultSkip, DefaultLimit) == [Param("skip", "0"), Param("limit", "10")]
  {
    assert DigitChar(0) == '0' && DigitChar(1) == '1';
    assert NatToString(10) == NatToString(1) + [DigitChar(0)] == "10";
    assert IntToString(10) == "10" && IntToString(0) == "0";
  }

  // ---------------------------------------------------------------------
  // Replies
  // ---------------------------------------------------------------------

  datatype TokenResponse = TokenResponse(accessToken: string, tokenType: string)

  datatype UserResponse = UserResponse(
    id: string, email: string, name: Option<string>, picture: Option<string>, authProvider: Option<string>)

  datatype Article = Article(
    id: string, title: string, description: Option<string>, image: Option<string>,
    source: Option<string>, publishedAt: Option<string>, url: Option<string>,
    tags: Option<seq<string>>, likeCount: Option<int>)

  datatype ArticlePage = ArticlePage(results: seq<Article>, skip: int, limit: int, count: int)

  /** A server reply: the status code, the `content-type` header (`None` when
      absent), the body as text, and the body as parsed JSON. */
  datatype Response<T> = Response(status: int, contentType: Option<string>, text: string, body: T) {
    /** `response.ok` */
    predicate Ok() {
      200 <= status <= 299
    }
  }

  /** A thrown `Error` and its message. */
  datatype ApiError = ApiError(message: string)

  /** `contentType?.includes("application/json")`, with a missing header falsy. */
  predicate IsJson(contentType: Option<string>)
    ensures IsJson(contentType) <==>
              contentType.Some? && exists i: nat :: OccursAt(contentType.value, "application/json", i)
  {
    contentType.Some? && Contains(contentType.value, "application/json")
  }

  /** How a template literal prints the content type: `null` when absent. */
  function ContentTypeText(contentType: Option<string>): string {
    if contentType.Some? then contentType.value else "null"
  }

  const ExcerptLength: nat := 200

  function UnexpectedContentHead(contentType: Option<string>): string {
    "Expected JSON but got " + ContentTypeText(contentType) + ": "
  }

  /** The error for a 2xx reply that is not JSON: the content type, then at
      most the first 200 characters of the body. */
  function UnexpectedContent(contentType: Option<string>, text: string): (e: ApiError)
    ensures StartsWith(e.message, UnexpectedContentHead(contentType))
    ensures var excerpt := e.message[|UnexpectedContentHead(contentType)|..];
              |excerpt| <= ExcerptLength && StartsWith(text, excerpt)
              && (|text| <= ExcerptLength ==> excerpt == text)
  {
    var head := UnexpectedContentHead(contentType);
    var e := ApiError(head + Take(text, ExcerptLength));
    assert e.message[|head|..] == Take(text, ExcerptLength);
    e
  }

  /** The error for a non-2xx reply: what failed, the status, then the whole body. */
  function HttpFailure(what: string, status: int, text: string): (e: ApiError)
    ensures StartsWith(e.message, what + ": ")
    ensures var n := |what| + 2 + |IntToString(status)|;
              n + 3 + |text| == |e.message|
              && ParseInt(e.message[|what| + 2..n]) == Some(status)
              && e.message[n..n + 3] == " - " && e.message[n + 3..] == text
  {
    var head, digits, tail := what + ": ", IntToString(status), " - " + text;
    var m := head + (digits + tail);
    assert m == what + ": " + IntToString(status) + " - " + text;
    assert m[|head|..] == digits + tail;
    assert m[|head|..|head| + |digits|] == digits;
    assert m[|head| + |digits|..] == tail;
    ParseIntToString(status);
    ApiError(m)
  }

  /** The checks `login` and `getCurrentUser` make before parsing a reply. */
  function ReadJson<T>(resp: Response<T>, what: string): (r: Result<T, ApiError>)
    ensures r.Success? <==> resp.Ok() && IsJson(resp.contentType)
    ensures r.Success? ==> r.value == resp.body
    ensures !resp.Ok() ==> r == Failure(HttpFailure(what, resp.status, resp.text))
    ensures resp.Ok() && !IsJson(resp.contentType) ==> r == Failure(UnexpectedContent(resp.contentType, resp.text))
  {
    if !resp.Ok() then Failure(HttpFailure(what, resp.status, resp.text))
    else if !IsJson(resp.contentType) then Failure(UnexpectedContent(resp.contentType, resp.text))
    else Success(resp.body)
  }

  /** The check of every other call: only the status matters. */
  function ReadOk<T>(resp: Response<T>, failure: string): (r: Result<T, ApiError>)
    ensures r.Success? <==> resp.Ok()
    ensures r.Success? ==> r.value == resp.body
    ensures r.Failure? ==> r.error.message == failure
  {
    if resp.Ok() then Success(resp.body) else Failure(ApiError(failure))
  }

  /** A JSON reply with a charset parameter is accepted; an HTML page is not. */
  lemma ContentTypeExamples()
    ensures IsJson(Some("application/json; charset=utf-8"))
    ensures !IsJson(Some("text/html"))
    ensures !IsJson(None)
  {
    assert OccursAt("application/json; charset=utf-8", "application/json", 0);
  }

  // ---------------------------------------------------------------------
  // The calls and what they do to the stored token
  // ---------------------------------------------------------------------

  function LoginResult(resp: Response<TokenResponse>): (r: Result<TokenResponse, ApiError>)
    ensures r.Success? <==> resp.Ok() && IsJson(resp.contentType)
  {
    ReadJson(resp, "Login failed")
  }

  /** `login` stores the returned token when, and only when, it returns it. */
  function StoreAfterLogin(store: Storage, resp: Response<TokenResponse>): (s: Storage)
    ensures LoginResult(resp).Failure? ==> s == store
    ensures LoginResult(resp).Success? ==>
              GetItem(s, AccessTokenKey) == Some(resp.body.accessToken)
              && (HasToken(s) <==> resp.body.accessToken != "")
    ensures forall k :: k != AccessTokenKey ==> GetItem(s, k) == GetItem(store, k)
  {
    if LoginResult(resp).Success? then store[AccessTokenKey := resp.body.accessToken] else store
  }

  /** `loginWithGoogle` checks only the status before parsing. */
  function GoogleLoginResult(resp: Response<TokenResponse>): (r: Result<TokenResponse, ApiError>)
    ensures r.Success? <==> resp.Ok()
  {
    ReadOk(resp, "Google authentication failed")
  }

  function StoreAfterGoogleLogin(store: Storage, resp: Response<TokenResponse>): (s: Storage)
    ensures !resp.Ok() ==> s == store
    ensures resp.Ok() ==> GetItem(s, AccessTokenKey) == Some(resp.body.accessToken)
    ensures forall k :: k != AccessTokenKey ==> GetItem(s, k) == GetItem(store, k)
  {
    if GoogleLoginResult(resp).Success? then store[AccessTokenKey := resp.body.accessToken] else store
  }

  function CurrentUserResult(resp: Response<UserResponse>): (r: Result<UserResponse, ApiError>)
    ensures r.Success? <==> resp.Ok() && IsJson(resp.contentType)
  {
    ReadJson(resp, "Failed to fetch current user")
  }

  function RegisterResult(resp: Response<UserResponse>): (r: Result<UserResponse, ApiError>)
    ensures r.Success? <==> resp.Ok()
  {
    ReadOk(resp, "Registration failed")
  }

  /** `logout` removes the token and nothing else. */
  function StoreAfterLogout(store: Storage): (s: Storage)
    ensures GetItem(s, AccessTokenKey) == None && !HasToken(s)
    ensures forall k :: k != AccessTokenKey ==> GetItem(s, k) == GetItem(store, k)
  {
    store - {AccessTokenKey}
  }

  function RecommendationsResult(resp: Response<seq<Article>>): (r: Result<seq<Article>, ApiError>)
    ensures r.Success? <==> resp.Ok()
  {
    ReadOk(resp, "Failed to fetch recommendations")
  }

  function ArticlesResult(resp: Response<ArticlePage>): (r: Result<ArticlePage, ApiError>)
    ensures r.Success? <==> resp.Ok()
  {
    ReadOk(resp, "Failed to fetch articles")
  }

  // ---------------------------------------------------------------------
  // The objects
  // ---------------------------------------------------------------------

  /** The browser's `localStorage`, shared by the API client and the session provider. */
  class LocalStorage {
    var items: Storage

    constructor (items: Storage)
      ensures this.items == items
    {
      this.items := items;
    }

    method SetItem(key: string, value: string)
      modifies this
      ensures items == old(items)[key := value]
    {
      items := items[key := value];
    }

    method RemoveItem(key: string)
      modifies this
      ensures items == old(items) - {key}
    {
      items := items - {key};
    }
  }

  /** `ApiService`: each call returns the request it sent and what it made
      of the server's reply, and updates the stored token as the source does. */
  class ApiService {
    const storage: LocalStorage

    constructor (storage: LocalStorage)
      ensures this.storage == storage
    {
      this.storage := storage;
    }

    /** `isAuthenticated()`: exactly when `getAuthHeaders()` adds a bearer token. */
    function IsAuthenticated(): (r: bool)
      reads storage
      ensures r <==> HeaderValue(AuthHeaders(storage.items), AuthorizationName).Some?
    {
      HasToken(storage.items)
    }

    method Register(email: string, password: string, reply: Response<UserResponse>)
      returns (sent: Request, r: Result<UserResponse, ApiError>)
      ensures sent == RegisterRequest(email, password)
      ensures r == RegisterResult(reply)
    {
      sent := RegisterRequest(email, password);
      r := RegisterResult(reply);
    }

    method Login(username: string, password: string, reply: Response<TokenResponse>)
      returns (sent: Request, r: Result<TokenResponse, ApiError>)
      modifies storage
      ensures sent == LoginRequest(username, password)
      ensures r == LoginResult(reply)
      ensures storage.items == StoreAfterLogin(old(storage.items), reply)
    {
      sent := LoginRequest(username, password);
      r := LoginResult(reply);
      if r.Success? {
        storage.SetItem(AccessTokenKey, r.value.accessToken);
      }
    }

    method LoginWithGoogle(token: string, reply: Response<TokenResponse>)
      returns (sent: Request, r: Result<TokenResponse, ApiError>)
      modifies storage
      ensures sent == GoogleLoginRequest(token)
      ensures r == GoogleLoginResult(reply)
      ensures storage.items == StoreAfterGoogleLogin(old(storage.items), reply)
    {
      sent := GoogleLoginRequest(token);
      r := GoogleLoginResult(reply);
      if r.Success? {
        storage.SetItem(AccessTokenKey, r.value.accessToken);
      }
    }

    method GetCurrentUser(reply: Response<UserResponse>)
      returns (sent: Request, r: Result<UserResponse, ApiError>)
      ensures sent == CurrentUserRequest(storage.items)
      ensures r == CurrentUserResult(reply)
    {
      sent := CurrentUserRequest(storage.items);
      r := CurrentUserResult(reply);
    }

    method Logout()
      modifies storage
      ensures storage.items == StoreAfterLogout(old(storage.items))
    {
      storage.RemoveItem(AccessTokenKey);
    }

    method GetRecommendations(trending: bool, topN: int, days: int, skip: int, reply: Response<seq<Article>>)
      returns (sent: Request, r: Result<seq<Article>, ApiError>)
      ensures sent == RecommendationsRequest(storage.items, trending, topN, days, skip)
      ensures r == RecommendationsResult(reply)
    {
      sent := RecommendationsRequest(storage.items, trending, topN, days, skip);
      r := RecommendationsResult(reply);
    }

    method GetArticles(search: Option<string>, skip: int, limit: int, reply: Response<ArticlePage>)
      returns (sent: Request, r: Result<ArticlePage, ApiError>)
      ensures sent == ArticlesRequest(storage.items, search, skip, limit)
      ensures r == ArticlesResult(reply)
    {
      sent := ArticlesRequest(storage.items, search, skip, limit);
      r := ArticlesResult(reply);
    }
  }
}
