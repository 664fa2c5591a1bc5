# news-app-next: a verified model of the client's session, feed and navigation logic

This project models the deterministic logic of the news client in Dafny:

- **Api** (`api.dfy`): the `ApiService` of `src/lib/api.ts`. It covers the
  headers each request carries, the query strings of the recommendations and
  article-search endpoints, and how a reply becomes a value or an error. That
  includes the rule that a 2xx reply that is not JSON is an error whose
  message quotes at most 200 characters of the body. It also covers what
  `login`, `loginWithGoogle` and `logout` do to the `access_token` entry in
  local storage. `LocalStorage` and `ApiService` are classes; the logic
  behind their methods is pure functions with their own contracts.
- **AuthContext** (`auth_context.dfy`): the `AuthProvider` state
  (`isAuthenticated`, `user`, `loading`) as a class whose methods are proved
  against pure step functions on a `Session` value. The invariant
  "signed in exactly when a profile is held, and then a token entry is
  stored" holds on mount and after any sequence of whole operations, one
  after another, with any server replies.
- **Likes**, **NewsFeed**, **NewsCard** (`likes.dfy`, `news_feed.dfy`,
  `news_card.dfy`): the flip-and-adjust like rule shared by the feed's list
  handlers and a card's local state. Also the feed's `map` over its list,
  the hard-coded initial list, and the card's `formatTimeAgo`, tag badges
  and like counter.
- **InfiniteScroll** (`infinite_scroll.dfy`): the `useInfiniteScroll` hook
  as a class holding the fetching flag and the one live intersection
  observer. The ref callback and the observer callback use the values they
  captured when they were created, as the source's closures do.
- **Search** (`search_context.dfy`): the two independent fields of
  `SearchProvider` and `clearSearch`.
- **Sidebar** (`sidebar.dfy`): the four navigation routes and `isActive`.
- **Text**, **Wrappers** (`text.dfy`, `wrappers.dfy`): JavaScript's integer and
  boolean `toString`, `startsWith`, `includes` and `substring(0, n)`, with
  the decimal round trip proved; `Option` and `Result`.

Server replies, the clock and the browser's intersection events are
parameters. A reply is `Response(status, contentType, text, body)`, where
`body` is the parsed JSON. `response.ok` is a status from 200 to 299.

The feed renders a fixed list of six articles. Its refresh only waits on a
timer, "Load More Articles" has no handler, and likes and bookmarks are
toggled locally with no request sent.

## Model

| member | source | states |
|---|---|---|
| `Api.GetItem` | src/lib/api.ts:58 | `localStorage.getItem` yields the stored value exactly when the key is present, `null` otherwise |
| `Api.AuthHeaders` | src/lib/api.ts:57-63 | `Authorization` is `"Bearer " + token` exactly when a non-empty token is stored and is absent otherwise; the ngrok header is always `"true"` |
| `Api.PlainHeaders` | src/lib/api.ts:65-69 | the unauthenticated header set never has `Authorization` and always has the ngrok header |
| `Api.HasToken` | src/lib/api.ts:58-60 | a token counts exactly when `getItem("access_token")` gives neither `null` nor the empty string, the truthiness test at lines 60 and 308 |
| `Api.ApiService.IsAuthenticated` | src/lib/api.ts:307-309 | `isAuthenticated()` is true exactly when `getAuthHeaders()` would add `Authorization` |
| `Api.RecommendationsQuery` | src/lib/api.ts:241-246 | the keys are `top_n`, `trending`, `days`, `skip` in that order, and each value reads back as the number or boolean passed in |
| `Api.DefaultRecommendationsQuery` | src/lib/api.ts:235-246 | with the default arguments the query is `top_n=10`, `trending=false`, `days=7`, `skip=0` |
| `Api.ArticlesDefaults` | src/lib/api.ts:277-294 | with no search and the default `skip = 0`, `limit = 10`, the query is `skip=0`, `limit=10` and nothing else |
| `Api.ArticlesQuery` | src/lib/api.ts:287-294 | `skip` then `limit`, each reading back as passed in; `search` comes last, and exactly when the search string is non-empty |
| `Api.RegisterRequest` | src/lib/api.ts:72-79 | `POST /register` with a JSON body of email and password and no `Authorization` header |
| `Api.LoginRequest` | src/lib/api.ts:89-99 | `POST /token` with a form of username and password and no `Authorization` header |
| `Api.GoogleLoginRequest` | src/lib/api.ts:131-138 | `POST /auth/google` with the identity token in a JSON body and no `Authorization` header |
| `Api.CurrentUserRequest` | src/lib/api.ts:153-155 | `GET /auth/me` signed with the stored token when there is one |
| `Api.RecommendationsRequest` | src/lib/api.ts:241-250 | `GET /recommendations` with the recommendations query, signed with the stored token when there is one |
| `Api.ArticlesRequest` | src/lib/api.ts:287-298 | `GET /articles` with the search query, signed with the stored token when there is one |
| `Api.IsJson` | src/lib/api.ts:113 | the content-type test holds exactly when the header is present and `application/json` occurs in it at some position |
| `Api.HttpFailure` | src/lib/api.ts:104-109 | the non-2xx message starts with what failed and `: `, then the status as a decimal that reads back as the status, then ` - ` and the whole body |
| `Api.UnexpectedContent` | src/lib/api.ts:112-122 | the not-JSON message names the content type (`null` when absent), then quotes a prefix of the body of at most 200 characters, all of it when the body is that short |
| `Api.ReadJson` | src/lib/api.ts:104-123 | a reply is accepted exactly when it is 2xx and its content type contains `application/json`; a non-2xx reply gives the status-and-body error, a 2xx non-JSON one the content-type error |
| `Api.ReadOk` | src/lib/api.ts:81-85 | the calls without a content-type check accept exactly the 2xx replies and otherwise fail with their fixed message |
| `Api.ContentTypeExamples` | src/lib/api.ts:113 | `application/json; charset=utf-8` passes the content-type test; `text/html` and a missing header do not |
| `Api.LoginResult` | src/lib/api.ts:104-127 | `login` returns the token reply exactly when the reply is 2xx and JSON |
| `Api.StoreAfterLogin` | src/lib/api.ts:125-126 | a failed login leaves storage as it was; a successful one stores `access_token`, which then counts as a session exactly when it is non-empty; no other key changes |
| `Api.GoogleLoginResult` | src/lib/api.ts:140-146 | `loginWithGoogle` returns the token reply exactly when the reply is 2xx, with no content-type check |
| `Api.StoreAfterGoogleLogin` | src/lib/api.ts:144-145 | a non-2xx reply leaves storage as it was; a 2xx reply stores `access_token`; no other key changes |
| `Api.CurrentUserResult` | src/lib/api.ts:160-182 | `getCurrentUser` returns the profile exactly when the reply is 2xx and JSON |
| `Api.RegisterResult` | src/lib/api.ts:81-85 | `register` returns the created user exactly when the reply is 2xx |
| `Api.LocalStorage.SetItem` | src/lib/api.ts:126 | `setItem` stores the value under the key and changes no other key |
| `Api.LocalStorage.RemoveItem` | src/lib/api.ts:186 | `removeItem` deletes the key and keeps every other key |
| `Api.StoreAfterLogout` | src/lib/api.ts:185-187 | after `logout` there is no token and no session; every other key is kept |
| `Api.RecommendationsResult` | src/lib/api.ts:252-256 | the feed page is returned exactly when the reply is 2xx |
| `Api.ArticlesResult` | src/lib/api.ts:300-304 | the search page is returned exactly when the reply is 2xx |
| `Api.ApiService.Register` | src/lib/api.ts:71-86 | sends the register request and returns `RegisterResult`; storage is not touched |
| `Api.ApiService.Login` | src/lib/api.ts:88-128 | sends the login request, returns `LoginResult` and leaves storage as `StoreAfterLogin` |
| `Api.ApiService.LoginWithGoogle` | src/lib/api.ts:130-147 | sends the Google request, returns `GoogleLoginResult` and leaves storage as `StoreAfterGoogleLogin` |
| `Api.ApiService.GetCurrentUser` | src/lib/api.ts:149-183 | sends `/auth/me` signed with the current storage and returns `CurrentUserResult` |
| `Api.ApiService.Logout` | src/lib/api.ts:185-187 | storage becomes `StoreAfterLogout` of what it was |
| `Api.ApiService.GetRecommendations` | src/lib/api.ts:235-257 | sends the recommendations request for the current storage and returns `RecommendationsResult` |
| `Api.ApiService.GetArticles` | src/lib/api.ts:277-305 | sends the articles request for the current storage and returns `ArticlesResult` |
| `Text.IntToString` | src/lib/api.ts:242-245 | a number's `toString()` is non-empty, starts with `-` exactly for negatives, and is all digits otherwise |
| `Text.ParseIntToString` | src/lib/api.ts:242-245 | reading a number's `toString()` back as a decimal gives the number |
| `Text.IntToStringInjective` | src/lib/api.ts:242-245 | two numbers with the same `toString()` are equal |
| `Text.BoolToString` | src/lib/api.ts:243 | a boolean's `toString()` reads back as that boolean |
| `Text.Contains` | src/lib/api.ts:113 | `includes` holds exactly when some position starts an occurrence |
| `Text.Take` | src/lib/api.ts:118-121 | `substring(0, n)` is a prefix of at most `n` characters, and the whole string when it is that short |
| `AuthContext.Initial` | src/contexts/AuthContext.tsx:28-30 | on mount the viewer is signed out with no profile and loading is true, and the invariant holds |
| `AuthContext.CheckAuthNext` | src/contexts/AuthContext.tsx:35-50 | loading ends whatever happens; without a token nothing else changes; with one, a good profile signs the viewer in and a failed fetch removes the token and leaves the viewer signed out; the invariant is kept |
| `AuthContext.LoginNext` | src/contexts/AuthContext.tsx:55-75 | success of both calls signs the viewer in with the fetched profile; any failure keeps the flag and profile; storage is `StoreAfterLogin`, so a token from an exchange whose profile fetch failed stays; the invariant is kept |
| `AuthContext.GoogleLoginNext` | src/contexts/AuthContext.tsx:77-96 | the same as `login` with the Google exchange and its storage effect |
| `AuthContext.LogoutNext` | src/contexts/AuthContext.tsx:119-122 | the token is removed and the viewer is signed out with no profile; the invariant holds |
| `AuthContext.RunKeepsInvariant` | src/contexts/AuthContext.tsx:28-122 | after any sequence of whole start-up checks, logins, Google logins, registrations and logouts, taken one after another, the viewer is signed in exactly when a profile is held, and then a token entry is stored |
| `AuthContext.LoadingEndsAfterCheck` | src/contexts/AuthContext.tsx:35-52 | once the start-up check has run, loading is false after any later events |
| `AuthContext.LoadingStaysOff` | src/contexts/AuthContext.tsx:30 | no operation sets loading back to true |
| `AuthContext.AuthProvider.constructor` | src/contexts/AuthContext.tsx:27-30 | the provider starts in the `Initial` state |
| `AuthContext.AuthProvider.CheckAuth` | src/contexts/AuthContext.tsx:33-53 | the new state is `CheckAuthNext` of the old one; the invariant is kept |
| `AuthContext.AuthProvider.Login` | src/contexts/AuthContext.tsx:55-75 | returns true exactly when both calls succeed; the new state is `LoginNext` of the old one |
| `AuthContext.AuthProvider.LoginWithGoogle` | src/contexts/AuthContext.tsx:77-96 | returns true exactly when both calls succeed; the new state is `GoogleLoginNext` of the old one |
| `AuthContext.AuthProvider.Register` | src/contexts/AuthContext.tsx:98-117 | returns whether registration succeeded and modifies nothing, so neither the flags, the profile nor the token change |
| `AuthContext.AuthProvider.Logout` | src/contexts/AuthContext.tsx:119-127 | the new state is `LogoutNext` of the old one |
| `Likes.Toggle` | src/components/news/NewsFeed.tsx:102-103 | the like flag flips; the count goes down by one if it was liked and up by one otherwise |
| `Likes.ToggleTwice` | src/components/news/NewsCard.tsx:33-37 | toggling twice gives back the starting like state |
| `Likes.TogglePlausible` | src/components/news/NewsFeed.tsx:101-103 | a non-negative count that is at least one when liked stays so after a toggle |
| `NewsFeed.ToggleLiked` | src/components/news/NewsFeed.tsx:100-104 | the matching item gets the toggled like state and keeps every other field |
| `NewsFeed.ToggleBookmarked` | src/components/news/NewsFeed.tsx:112 | only `isBookmarked` flips |
| `NewsFeed.HandleLike` | src/components/news/NewsFeed.tsx:97-107 | the list keeps its length and order; items with the id are toggled, all others are unchanged |
| `NewsFeed.HandleBookmark` | src/components/news/NewsFeed.tsx:109-115 | the list keeps its length and order; items with the id have their bookmark flipped, all others are unchanged |
| `NewsFeed.HandleLikeTwice` | src/components/news/NewsFeed.tsx:98-106 | liking the same id twice restores the original list |
| `NewsFeed.HandleLikeUnknownId` | src/components/news/NewsFeed.tsx:98-106 | an id no item carries leaves the list unchanged |
| `NewsFeed.HandleBookmarkKeepsLikes` | src/components/news/NewsFeed.tsx:110-114 | a bookmark never changes any item's like flag or count |
| `NewsFeed.HandleLikePlausible` | src/components/news/NewsFeed.tsx:101-103 | if every count is non-negative and at least one where liked, this still holds after a like |
| `NewsFeed.CardProps` | src/components/news/NewsFeed.tsx:174-180 | a card seeded from a feed item starts with that item's like state |
| `NewsFeed.CardAndFeedAgree` | src/components/news/NewsFeed.tsx:97-107 | with distinct ids, a card showing its item's like state and the feed's list toggle to the same state, and no other item changes |
| `NewsFeed.MockNews` | src/components/news/NewsFeed.tsx:8-86 | the six initial articles with their ids, texts, sources, dates, tags, like counts and flags |
| `NewsFeed.MockNewsWellFormed` | src/components/news/NewsFeed.tsx:8-86 | the initial list has six items with distinct ids and plausible counts |
| `NewsCard.InitialLikes` | src/components/news/NewsCard.tsx:29-31 | local state starts from the props, with not liked and a count of 0 when they are missing |
| `NewsCard.LocalState.constructor` | src/components/news/NewsCard.tsx:29-31 | liked, bookmarked and the count are seeded from the props with defaults false, false and 0 |
| `NewsCard.LocalState.HandleLike` | src/components/news/NewsCard.tsx:33-37 | the local like state is toggled, the bookmark is untouched, and `onLike` is called with the article id when it exists |
| `NewsCard.LocalState.HandleBookmark` | src/components/news/NewsCard.tsx:39-42 | only the bookmark flips, and `onBookmark` is called with the article id when it exists |
| `NewsCard.FormatTimeAgo` | src/components/news/NewsCard.tsx:44-53 | "Just now" exactly when less than an hour has passed, future dates included; under a day, `<h>h ago` with h the whole hours elapsed (1 to 23); otherwise `<n>d ago` with n the whole days elapsed, at least 1 |
| `NewsCard.VisibleTags` | src/components/news/NewsCard.tsx:74 | the badges are the first three tags, or all of them when there are fewer, in order |
| `NewsCard.LikeCountLabel` | src/components/news/NewsCard.tsx:129 | the count is shown exactly when it is positive, and then reads back as the count |
| `InfiniteScroll.Observer.constructor` | src/hooks/useInfiniteScroll.ts:28-41 | a new observer keeps the element it observes and the `hasMore` and `isFetching` its callback captured |
| `InfiniteScroll.Observer.Disconnect` | src/hooks/useInfiniteScroll.ts:26 | a disconnected observer is no longer live |
| `InfiniteScroll.Observer.StartsLoad` | src/hooks/useInfiniteScroll.ts:30 | the callback starts a load only for an intersecting entry, with `hasMore` captured true and `isFetching` captured false, and never for an observer on nothing |
| `InfiniteScroll.Hook.constructor` | src/hooks/useInfiniteScroll.ts:20-21 | not fetching, no observer held, none created |
| `InfiniteScroll.Hook.LastElementRef` | src/hooks/useInfiniteScroll.ts:23-46 | a callback that saw a fetch changes nothing; otherwise the held observer is disconnected and a new one on the node (nothing when the node is null) is held, so at most one observer is live |
| `InfiniteScroll.Hook.Intersect` | src/hooks/useInfiniteScroll.ts:29-35 | a load starts and the flag is raised exactly when the held observer observes a node, the entry intersects, its captured `hasMore` is true and its captured `isFetching` false; otherwise nothing changes |
| `InfiniteScroll.Hook.Settle` | src/hooks/useInfiniteScroll.ts:32-34 | when a load settles, by success or failure, the flag drops |
| `InfiniteScroll.Hook.SetIsFetching` | src/hooks/useInfiniteScroll.ts:48-52 | the returned setter changes only the flag |
| `InfiniteScroll.ScrollSession` | src/hooks/useInfiniteScroll.ts:23-46 | with the rebinding that follows each change of the flag, the first intersection starts a load, one during that load starts nothing, and the next one after it settles starts the next load |
| `InfiniteScroll.StaleObserver` | src/hooks/useInfiniteScroll.ts:28-33 | the guard is in the closure: an observer created before a load still carries `isFetching` false, so a second intersection reaching it before a rebind would start a second load (the React order in `ScrollSession` always rebinds first) |
| `InfiniteScroll.NoMore` | src/hooks/useInfiniteScroll.ts:30 | with `hasMore` false when the element is bound, an intersection starts no load |
| `Search.SearchProvider.constructor` | src/contexts/SearchContext.tsx:18-19 | the query starts empty and the flag false |
| `Search.SearchProvider.SetSearchQuery` | src/contexts/SearchContext.tsx:18 | sets the query and leaves the flag alone |
| `Search.SearchProvider.SetIsSearching` | src/contexts/SearchContext.tsx:19 | sets the flag and leaves the query alone |
| `Search.SearchProvider.ClearSearch` | src/contexts/SearchContext.tsx:21-24 | from any state, the query is empty and the flag false |
| `Search.ClearSearchTwice` | src/contexts/SearchContext.tsx:21-24 | clearing twice ends where clearing once did |
| `Search.FlagIndependentOfQuery` | src/contexts/SearchContext.tsx:18-24 | setting the query "rust" leaves the flag false, and after a clear the flag can be set while the query stays empty |
| `Sidebar.NavigationItems` | src/components/layout/Sidebar.tsx:14-19 | the four routes in order: "/", "/popular", "/bookmarks", "/settings" |
| `Sidebar.IsActive` | src/components/layout/Sidebar.tsx:36-41 | a route is active only on a path it prefixes, and the root exactly on "/" |
| `Sidebar.RootActiveOnlyAtRoot` | src/components/layout/Sidebar.tsx:37-38 | the "/" item is active exactly on the path "/" |
| `Sidebar.OwnPathActive` | src/components/layout/Sidebar.tsx:36-41 | every item is active on its own url |
| `Sidebar.PrefixNotSegment` | src/components/layout/Sidebar.tsx:40 | the test is a plain prefix test: "/popularity" activates "/popular" and "/settings/profile" activates "/settings", while "/" is not active on "/popular" |
| `Sidebar.AtMostOneActive` | src/components/layout/Sidebar.tsx:14-19 | for any path, no two of the four items are active together |

## Left out

- Networking: every `fetch`, the base URL from the environment, `response.json()` parsing and all console output. A reply is a parameter, and its `body` is the JSON already parsed. A reply whose body does not parse would make `response.json()` throw; this is not modelled. It matters mainly for `loginWithGoogle`, `register` and the feed calls, which do not check the content type.
- Api.StoreAfterLogin: the JSON body is assumed to hold `access_token` as a string. A reply without that field would store the text "undefined"; this is not modelled.
- `likeArticle`, `unlikeArticle`, `getLikes` and `getUserTags` (src/lib/api.ts:189-233, 259-275): each is one signed request whose non-2xx reply throws a fixed message. Nothing in the modelled components calls them; the error rule they share is `Api.ReadOk`.
- URL serialisation: a query is modelled as its ordered list of key/value pairs. The percent-encoding `URLSearchParams` applies when the list is written into the URL is not modelled.
- Text.Take and Api.UnexpectedContent: the excerpt counts Unicode scalar values, while `substring(0, 200)` counts UTF-16 code units. A body with characters outside the Basic Multilingual Plane (emoji, say) therefore gets a longer excerpt here than in the source: 150 emoji are quoted whole here and cut to 100 by the source. A cut between the two halves of a surrogate pair leaves a lone surrogate, which a Dafny `char` cannot represent.
- AuthContext.RunKeepsInvariant: operations are modelled as whole, serialised steps. In the source the async operations can interleave at every `await` (src/contexts/AuthContext.tsx:39, 57-58, 79-80). For example, a start-up profile fetch for an old token may resolve after a later login and logout. It would then sign the viewer in with no token stored. A failing fetch could also remove a token that a newer login had just stored. The invariant is proved only for serialised operations.
- Text.IntToString: models `toString()` of integral numbers only. Fractional numbers, and magnitudes of 10^21 and above (which JavaScript prints in exponent notation), are outside the model.
- NewsCard.FormatTimeAgo: the clock and `Date` parsing are outside the model; the time is given as integer milliseconds. An invalid date (NaN, printed as "NaNd ago") is floating-point behaviour and is not modelled. The floating-point quotient matches the integer floor for any difference below about 285,000 years.
- Toast notifications in `AuthProvider`: they are display-only side effects with no state consequence.
- `handleShare`, `handleRefresh` and the mount effect in `NewsFeed` (src/components/news/NewsFeed.tsx:117-142): these are the browser share and clipboard APIs and timer-only placeholders that change no data. The `loading` and `refreshing` flags only drive skeletons and a spinner.
- The "Load More Articles" button (src/components/news/NewsFeed.tsx:186-194) has no handler, so there is nothing to model.
- Intersection geometry (`threshold`, `rootMargin`) and React's scheduling of re-renders and ref callbacks. An intersection is an event with an "is intersecting" input. Which ref callback React calls, and with which captured values, is given by the caller. `InfiniteScroll.ScrollSession` plays out the order React uses.
- The authentication forms, Google sign-in button, protected route, header, layout and static pages: these are rendering, third-party script loading and one-line form guards.
