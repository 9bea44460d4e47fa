/** lib/api.ts: the access-token store (a module-level cache in front of
    the browser's localStorage), the request every call sends, the error a
    failed response raises, the authentication calls with their effect on
    the token, and the fixed path/query of every endpoint.

    The network is a parameter: `server` maps the request that would be
    sent to the outcome the promise settles with. */
module Api {
  import opened Wrappers
  import opened Text
  import opened Types

  const AccessTokenKey := "accessToken"
  const RefreshTokenKey := "refreshToken"
  const DefaultBaseUrl := "http://localhost:8080"
  const GenericErrorMessage := "요청 처리 중 오류가 발생했습니다."
  const JsonContentType := "application/json"

  /** `NEXT_PUBLIC_API_URL || "http://localhost:8080"`. */
  function BaseUrl(env: Option<string>): (url: string)
    ensures Truthy(env) ==> url == env.value
    ensures !Truthy(env) ==> url == DefaultBaseUrl
    ensures url != ""
  {
    if Truthy(env) then env.value else DefaultBaseUrl
  }

  /** `localStorage.getItem(key)`: null for a missing key. */
  function Lookup(storage: map<string, string>, key: string): (v: Option<string>)
    ensures v.Some? <==> key in storage
    ensures v.Some? ==> v.value == storage[key]
  {
    if key in storage then Some(storage[key]) else None
  }

  // ----- the token store -----

  /** The whole state the token functions work on: the in-memory token,
      the key/value store, and whether a `window` exists (false during
      server-side rendering, where the store is never touched). */
  datatype Session = Session(memory: Option<string>, storage: map<string, string>, hasWindow: bool)

  /** The keys of `a` other than `except` are those of `b`, with the same
      values. */
  ghost predicate SameOtherKeys(a: map<string, string>, b: map<string, string>, except: set<string>) {
    (forall k :: k !in except ==> (k in a <==> k in b)) &&
    (forall k :: k !in except && k in a && k in b ==> a[k] == b[k])
  }

  /** `setAccessToken(token)`. */
  function AfterSet(s: Session, token: Option<string>): (r: Session)
    ensures r.memory == token && r.hasWindow == s.hasWindow
    ensures !s.hasWindow ==> r.storage == s.storage
    ensures s.hasWindow ==> (AccessTokenKey in r.storage <==> Truthy(token))
    ensures s.hasWindow && Truthy(token) ==> r.storage[AccessTokenKey] == token.value
    ensures SameOtherKeys(r.storage, s.storage, {AccessTokenKey})
  {
    Session(
      token,
      if !s.hasWindow then s.storage
      else if Truthy(token) then s.storage[AccessTokenKey := token.value]
      else s.storage - {AccessTokenKey},
      s.hasWindow)
  }

  /** What `getAccessToken()` returns. */
  function ReadToken(s: Session): (token: Option<string>)
    ensures Truthy(s.memory) ==> token == s.memory
    ensures !Truthy(s.memory) && s.hasWindow ==> token == Lookup(s.storage, AccessTokenKey)
    ensures !Truthy(s.memory) && !s.hasWindow ==> token == s.memory
  {
    if Truthy(s.memory) then s.memory
    else if s.hasWindow then Lookup(s.storage, AccessTokenKey)
    else s.memory
  }

  /** The state after `getAccessToken()`: a falsy in-memory token is
      replaced by the stored one; the store itself is only read. */
  function AfterRead(s: Session): (r: Session)
    ensures r.storage == s.storage && r.hasWindow == s.hasWindow
    ensures r.memory == ReadToken(s)
    ensures Truthy(s.memory) ==> r == s
  {
    Session(ReadToken(s), s.storage, s.hasWindow)
  }

  /** `authApi.logout()`. */
  function AfterLogout(s: Session): (r: Session)
    ensures r.memory == None && r.hasWindow == s.hasWindow
    ensures s.hasWindow ==> AccessTokenKey !in r.storage && RefreshTokenKey !in r.storage
    ensures s.hasWindow ==> SameOtherKeys(r.storage, s.storage, {AccessTokenKey, RefreshTokenKey})
    ensures !s.hasWindow ==> r.storage == s.storage
  {
    var cleared := AfterSet(s, None);
    if s.hasWindow then cleared.(storage := cleared.storage - {RefreshTokenKey}) else cleared
  }

  /** A non-empty token that was just set is what the next read returns,
      and the read changes nothing. */
  lemma SetThenRead(s: Session, token: string)
    requires token != ""
    ensures ReadToken(AfterSet(s, Some(token))) == Some(token)
    ensures AfterRead(AfterSet(s, Some(token))) == AfterSet(s, Some(token))
  {
  }

  /** In a browser the token outlives the in-memory cache (a page reload
      starts from a null cache): a non-empty token is read back from the
      store, a cleared one reads as null. */
  lemma TokenSurvivesReload(s: Session, token: Option<string>)
    requires s.hasWindow
    ensures ReadToken(Session(None, AfterSet(s, token).storage, true)) ==
            (if Truthy(token) then token else None)
  {
  }

  /** After logging out, the token reads as null, in a browser and out of
      one, even after a reload. */
  lemma LogoutThenRead(s: Session)
    ensures ReadToken(AfterLogout(s)) == None
    ensures AfterLogout(s).hasWindow ==> ReadToken(Session(None, AfterLogout(s).storage, true)) == None
  {
  }

  /** Reading twice is reading once: the second read returns the same
      token and leaves the state as the first left it. */
  lemma ReadIsStable(s: Session)
    ensures ReadToken(AfterRead(s)) == ReadToken(s)
    ensures AfterRead(AfterRead(s)) == AfterRead(s)
  {
  }

  // ----- requests and responses -----

  datatype HttpMethod = GET | POST | PUT | DELETE

  /** A series create/update body. */
  datatype SeriesRequest = SeriesRequest(title: string, description: Option<string>, thumbnail: Option<string>)

  /** What `JSON.stringify` is applied to. The profile update is a partial
      user record, kept as its string-valued fields. */
  datatype Payload =
    | LoginPayload(login: LoginRequest)
    | RegisterPayload(register: RegisterRequest)
    | RefreshPayload(refreshToken: string)
    | PostPayload(post: PostRequest)
    | ProfilePayload(profile: map<string, string>)
    | CommentPayload(comment: CommentRequest)
    | SeriesPayload(series: SeriesRequest)

  /** The `RequestInit` a caller passes; `fetch` defaults to GET. */
  datatype Options = Options(verb: HttpMethod := GET, headers: map<string, string> := map[], body: Option<Payload> := None)

  datatype Request = Request(url: string, verb: HttpMethod, headers: map<string, string>, body: Option<Payload>, includeCredentials: bool)

  /** The headers `fetchApi` sends: JSON content type, then the caller's
      headers over it, then the bearer token over both when there is one. */
  function RequestHeaders(callerHeaders: map<string, string>, token: Option<string>): (h: map<string, string>)
    ensures Truthy(token) ==> "Authorization" in h && h["Authorization"] == "Bearer " + token.value
    ensures !Truthy(token) ==> ("Authorization" in h <==> "Authorization" in callerHeaders)
    ensures !Truthy(token) && "Authorization" in h ==> h["Authorization"] == callerHeaders["Authorization"]
    ensures "Content-Type" in h
    ensures h["Content-Type"] == if "Content-Type" in callerHeaders then callerHeaders["Content-Type"] else JsonContentType
    ensures SameOtherKeys(h, callerHeaders, {"Authorization", "Content-Type"})
  {
    var merged := map["Content-Type" := JsonContentType] + callerHeaders;
    if Truthy(token) then merged["Authorization" := "Bearer " + token.value] else merged
  }

  /** The request `fetchApi(endpoint, options)` hands to `fetch` when the
      token read yields `token`. */
  function MakeRequest(baseUrl: string, endpoint: string, options: Options, token: Option<string>): (r: Request)
    ensures r.url == baseUrl + endpoint && endpoint <= r.url[|baseUrl|..]
    ensures r.verb == options.verb && r.body == options.body && r.includeCredentials
    ensures r.headers == RequestHeaders(options.headers, token)
  {
    Request(baseUrl + endpoint, options.verb, RequestHeaders(options.headers, token), options.body, true)
  }

  /** The body of a non-ok response: JSON with or without a `message`, or
      not JSON at all. */
  datatype ErrorBody = Parsed(message: Option<string>) | Unparsable

  /** How the promise of a call settles: an ok response with its decoded
      body, a non-ok response, or a rejection (the network failed, or an
      ok body was not JSON). */
  datatype Outcome<T> = Ok(data: T) | NotOk(status: nat, errorBody: ErrorBody) | Rejected(message: string)

  /** A thrown value as a `catch` sees it: an `Error` and its message, or
      anything else. */
  datatype Thrown = ErrorObject(message: string) | OtherValue

  /** `error.message || \`HTTP ${response.status}\``, where an unparsable
      body stands for the generic message. */
  function ErrorMessage(status: nat, body: ErrorBody): (m: string)
    ensures m != ""
    ensures body.Parsed? && Truthy(body.message) ==> m == body.message.value
    ensures body.Parsed? && !Truthy(body.message) ==> m == "HTTP " + NatToDecimal(status)
    ensures body.Unparsable? ==> m == GenericErrorMessage
  {
    var message := if body.Unparsable? then Some(GenericErrorMessage) else body.message;
    if Truthy(message) then message.value else "HTTP " + NatToDecimal(status)
  }

  /** Without a server message, the error names the status, so different
      statuses give different messages. */
  lemma StatusMessagesDiffer(a: nat, b: nat)
    requires ErrorMessage(a, Parsed(None)) == ErrorMessage(b, Parsed(None))
    ensures a == b
  {
    var prefix := "HTTP ";
    assert NatToDecimal(a) == ErrorMessage(a, Parsed(None))[|prefix|..];
    assert NatToDecimal(b) == ErrorMessage(b, Parsed(None))[|prefix|..];
    NatToDecimalInjective(a, b);
  }

  /** What `fetchApi` resolves to or throws. */
  function Settle<T>(outcome: Outcome<T>): (r: Result<T, Thrown>)
    ensures r.Success? <==> outcome.Ok?
    ensures r.Success? ==> r.value == outcome.data
    ensures r.Failure? ==> r.error.ErrorObject?
    ensures outcome.NotOk? ==> r.error.message != ""
    ensures outcome.Rejected? ==> r.error.message == outcome.message
  {
    match outcome
    case Ok(data) => Success(data)
    case NotOk(status, body) => Failure(ErrorObject(ErrorMessage(status, body)))
    case Rejected(message) => Failure(ErrorObject(message))
  }

  /** `err instanceof Error ? err.message : fallback`. */
  function CaughtMessage(thrown: Thrown, fallback: string): (m: string)
    ensures thrown.ErrorObject? ==> m == thrown.message
    ensures thrown.OtherValue? ==> m == fallback
  {
    if thrown.ErrorObject? then thrown.message else fallback
  }

  /** Every failure of a call is an `Error`, so a page's fallback message
      never replaces it; a non-ok response always leaves a non-empty
      message. */
  lemma ApiFailuresKeepTheirMessage<T>(outcome: Outcome<T>, fallback: string)
    requires Settle(outcome).Failure?
    ensures CaughtMessage(Settle(outcome).error, fallback) == Settle(outcome).error.message
    ensures outcome.NotOk? ==> CaughtMessage(Settle(outcome).error, fallback) != ""
  {
  }

  /** The token stored by `login` and `register`: the response's access
      token when the call succeeded and the token is non-empty. */
  function AfterAuth(s: Session, result: Result<ApiResponse<JwtResponse>, Thrown>): (r: Session)
    ensures result.Success? && result.value.data.accessToken != "" ==>
              r == AfterSet(s, Some(result.value.data.accessToken))
    ensures !(result.Success? && result.value.data.accessToken != "") ==> r == s
  {
    if result.Success? && result.value.data.accessToken != "" then AfterSet(s, Some(result.value.data.accessToken))
    else s
  }

  /** After a successful login or registration that issued a token, that
      token is the one every later request carries. */
  lemma AuthTokenIsUsed(s: Session, response: ApiResponse<JwtResponse>)
    requires response.data.accessToken != ""
    ensures ReadToken(AfterAuth(AfterRead(s), Success(response))) == Some(response.data.accessToken)
    ensures var h := RequestHeaders(map[], ReadToken(AfterAuth(AfterRead(s), Success(response))));
            h["Authorization"] == "Bearer " + response.data.accessToken
  {
  }

  // ----- endpoints -----

  datatype Period = Day | Week | Month | Year

  function PeriodName(p: Period): string {
    match p
    case Day => "day"
    case Week => "week"
    case Month => "month"
    case Year => "year"
  }

  /** One call of `postApi`, `userApi`, `commentApi` or `seriesApi`, with
      the same defaults: page 0, size 20, and the weekly trending period. */
  datatype ApiCall =
    | GetPosts(page: nat := 0, size: nat := 20)
    | GetTrendingPosts(period: Period := Week, page: nat := 0, size: nat := 20)
    | GetPost(id: nat)
    | GetPostBySlug(slug: string)
    | SearchPosts(keyword: string, page: nat := 0, size: nat := 20)
    | GetPostsByTag(tagName: string, page: nat := 0, size: nat := 20)
    | CreatePost(post: PostRequest)
    | UpdatePost(id: nat, post: PostRequest)
    | DeletePost(id: nat)
    | LikePost(id: nat)
    | UnlikePost(id: nat)
    | GetUser(username: string)
    | GetUserPosts(username: string, page: nat := 0, size: nat := 20)
    | GetMyProfile
    | UpdateMyProfile(profile: map<string, string>)
    | Follow(username: string)
    | Unfollow(username: string)
    | GetComments(postId: nat)
    | CreateComment(postId: nat, comment: CommentRequest)
    | UpdateComment(commentId: nat, comment: CommentRequest)
    | DeleteComment(commentId: nat)
    | LikeComment(commentId: nat)
    | GetSeries(id: nat)
    | GetUserSeries(username: string)
    | CreateSeries(series: SeriesRequest)
    | UpdateSeries(id: nat, series: SeriesRequest)
    | DeleteSeries(id: nat)

  datatype Endpoint = Endpoint(path: string, options: Options)

  /** `page=${page}&size=${size}`. */
  function PageQuery(page: nat, size: nat): (q: string)
    ensures StartsWith(q, "page=")
  {
    "page=" + (NatToDecimal(page) + ("&size=" + NatToDecimal(size)))
  }

  /** The query is exactly two parameters: one `&` and two `=`, since the
      numerals hold neither. */
  lemma PageQuerySeparators(page: nat, size: nat)
    ensures var q := PageQuery(page, size); multiset(q)['&'] == 1 && multiset(q)['='] == 2
  {
    NoSeparatorsInNumerals(page);
    NoSeparatorsInNumerals(size);
  }

  lemma NoSeparatorsInNumerals(n: nat)
    ensures '&' !in NatToDecimal(n) && '=' !in NatToDecimal(n)
  {
    var d := NatToDecimal(n);
    assert forall i :: 0 <= i < |d| ==> IsDigit(d[i]);
  }

  /** Every endpoint lives under `/api/`. */
  function ApiPath(rest: string): (path: string)
    ensures "/api/" <= path && path[|"/api/"|..] == rest
  {
    "/api/" + rest
  }

  /** The path and options each call passes to `fetchApi`. Search keywords
      and tag names go through `encode` (encodeURIComponent); slugs,
      usernames and ids are inserted as they are. */
  function Route(call: ApiCall, encode: string -> string): (e: Endpoint)
    ensures "/api/" <= e.path
    ensures e.options.headers == map[]
    ensures e.options.verb == GET ==> e.options.body.None?
    ensures e.options.body.Some? ==> e.options.verb == POST || e.options.verb == PUT
  {
    match call
    case GetPosts(page, size) => Endpoint(ApiPath("posts?" + PageQuery(page, size)), Options())
    case GetTrendingPosts(period, page, size) =>
      Endpoint(ApiPath("posts/trending?period=" + (PeriodName(period) + ("&" + PageQuery(page, size)))), Options())
    case GetPost(id) => Endpoint(ApiPath("posts/" + NatToDecimal(id)), Options())
    case GetPostBySlug(slug) => Endpoint(ApiPath("posts/slug/" + slug), Options())
    case SearchPosts(keyword, page, size) =>
      Endpoint(ApiPath("posts/search?keyword=" + (encode(keyword) + ("&" + PageQuery(page, size)))), Options())
    case GetPostsByTag(tagName, page, size) =>
      Endpoint(ApiPath("posts/tag/" + (encode(tagName) + ("?" + PageQuery(page, size)))), Options())
    case CreatePost(post) => Endpoint(ApiPath("posts"), Options(POST, body := Some(PostPayload(post))))
    case UpdatePost(id, post) => Endpoint(ApiPath("posts/" + NatToDecimal(id)), Options(PUT, body := Some(PostPayload(post))))
    case DeletePost(id) => Endpoint(ApiPath("posts/" + NatToDecimal(id)), Options(DELETE))
    case LikePost(id) => Endpoint(ApiPath("posts/" + (NatToDecimal(id) + "/like")), Options(POST))
    case UnlikePost(id) => Endpoint(ApiPath("posts/" + (NatToDecimal(id) + "/like")), Options(DELETE))
    case GetUser(username) => Endpoint(ApiPath("users/" + username), Options())
    case GetUserPosts(username, page, size) =>
      Endpoint(ApiPath("users/" + (username + ("/posts?" + PageQuery(page, size)))), Options())
    case GetMyProfile => Endpoint(ApiPath("users/me"), Options())
    case UpdateMyProfile(profile) => Endpoint(ApiPath("users/me"), Options(PUT, body := Some(ProfilePayload(profile))))
    case Follow(username) => Endpoint(ApiPath("users/" + (username + "/follow")), Options(POST))
    case Unfollow(username) => Endpoint(ApiPath("users/" + (username + "/follow")), Options(DELETE))
    case GetComments(postId) => Endpoint(ApiPath("comments/post/" + NatToDecimal(postId)), Options())
    case CreateComment(postId, comment) =>
      Endpoint(ApiPath("comments/post/" + NatToDecimal(postId)), Options(POST, body := Some(CommentPayload(comment))))
    case UpdateComment(commentId, comment) =>
      Endpoint(ApiPath("comments/" + NatToDecimal(commentId)), Options(PUT, body := Some(CommentPayload(comment))))
    case DeleteComment(commentId) => Endpoint(ApiPath("comments/" + NatToDecimal(commentId)), Options(DELETE))
    case LikeComment(commentId) => Endpoint(ApiPath("comments/" + (NatToDecimal(commentId) + "/like")), Options(POST))
    case GetSeries(id) => Endpoint(ApiPath("series/" + NatToDecimal(id)), Options())
    case GetUserSeries(username) => Endpoint(ApiPath("series/user/" + username), Options())
    case CreateSeries(series) => Endpoint(ApiPath("series"), Options(POST, body := Some(SeriesPayload(series))))
    case UpdateSeries(id, series) => Endpoint(ApiPath("series/" + NatToDecimal(id)), Options(PUT, body := Some(SeriesPayload(series))))
    case DeleteSeries(id) => Endpoint(ApiPath("series/" + NatToDecimal(id)), Options(DELETE))
  }

  /** The default page query. */
  lemma DefaultPageQuery()
    ensures PageQuery(0, 20) == "page=0&size=20"
  {
  }

  /** The paged calls made with their defaults: page 0, size 20 and, for
      trending posts, the weekly period. */
  lemma PagedDefaults(encode: string -> string, keyword: string, tagName: string, username: string)
    ensures Route(GetPosts(), encode).path == ApiPath("posts?" + "page=0&size=20")
    ensures Route(GetTrendingPosts(), encode).path == ApiPath("posts/trending?period=" + ("week" + ("&" + "page=0&size=20")))
    ensures Route(SearchPosts(keyword), encode).path == ApiPath("posts/search?keyword=" + (encode(keyword) + ("&" + "page=0&size=20")))
    ensures Route(GetPostsByTag(tagName), encode).path == ApiPath("posts/tag/" + (encode(tagName) + ("?" + "page=0&size=20")))
    ensures Route(GetUserPosts(username), encode).path == ApiPath("users/" + (username + ("/posts?" + "page=0&size=20")))
  {
    DefaultPageQuery();
  }

  /** The page query is read back unambiguously: equal queries have equal
      page and size. */
  lemma {:induction false} PageQueryInjective(p1: nat, s1: nat, p2: nat, s2: nat)
    requires PageQuery(p1, s1) == PageQuery(p2, s2)
    ensures p1 == p2 && s1 == s2
  {
    var t1, t2 := "&size=" + NatToDecimal(s1), "&size=" + NatToDecimal(s2);
    assert NatToDecimal(p1) + t1 == PageQuery(p1, s1)[5..];
    assert NatToDecimal(p2) + t2 == PageQuery(p2, s2)[5..];
    NatToDecimalFollowedBy(p1, p2, t1, t2);
    assert NatToDecimal(s1) == t1[6..];
    assert NatToDecimal(s2) == t2[6..];
    NatToDecimalInjective(s1, s2);
  }

  /** The post list path determines the page and size asked for. */
  lemma PostPagesDiffer(p1: nat, s1: nat, p2: nat, s2: nat, encode: string -> string)
    requires Route(GetPosts(p1, s1), encode).path == Route(GetPosts(p2, s2), encode).path
    ensures p1 == p2 && s1 == s2
  {
    var q1, q2 := PageQuery(p1, s1), PageQuery(p2, s2);
    assert Route(GetPosts(p1, s1), encode).path == "/api/" + ("posts?" + q1);
    assert Route(GetPosts(p2, s2), encode).path == "/api/" + ("posts?" + q2);
    CancelPrefix("/api/", "posts?" + q1, "posts?" + q2);
    CancelPrefix("posts?", q1, q2);
    PageQueryInjective(p1, s1, p2, s2);
  }

  /** A like and the unlike of the same post hit the same path; likes of
      different posts hit different paths. */
  lemma LikePathsDistinguishPosts(a: nat, b: nat, encode: string -> string)
    ensures Route(LikePost(a), encode).path == Route(UnlikePost(a), encode).path
    ensures Route(LikePost(a), encode).options.verb != Route(UnlikePost(a), encode).options.verb
    ensures Route(LikePost(a), encode).path == Route(LikePost(b), encode).path ==> a == b
  {
    var prefix := "/api/posts/";
    var pa, pb := Route(LikePost(a), encode).path, Route(LikePost(b), encode).path;
    if pa == pb {
      assert NatToDecimal(a) + "/like" == pa[|prefix|..];
      assert NatToDecimal(b) + "/like" == pb[|prefix|..];
      NatToDecimalFollowedBy(a, b, "/like", "/like");
    }
  }

  /** Only the search keyword and the tag name are encoded: every other
      call's endpoint does not depend on the encoder. */
  lemma OnlyKeywordAndTagAreEncoded(call: ApiCall, e1: string -> string, e2: string -> string)
    requires !call.SearchPosts? && !call.GetPostsByTag?
    ensures Route(call, e1) == Route(call, e2)
  {
  }

  /** The keyword reaches the path through the encoder: two encoders that
      disagree on it give different paths. */
  lemma SearchKeywordIsEncoded(keyword: string, page: nat, size: nat, e1: string -> string, e2: string -> string)
    requires Route(SearchPosts(keyword, page, size), e1).path == Route(SearchPosts(keyword, page, size), e2).path
    ensures e1(keyword) == e2(keyword)
  {
    var suffix := "&" + PageQuery(page, size);
    CancelPrefix("/api/", "posts/search?keyword=" + (e1(keyword) + suffix), "posts/search?keyword=" + (e2(keyword) + suffix));
    CancelPrefix("posts/search?keyword=", e1(keyword) + suffix, e2(keyword) + suffix);
    CancelSuffix(e1(keyword), e2(keyword), suffix);
  }

  /** The tag name reaches the path through the encoder: two encoders that
      disagree on it give different paths. */
  lemma TagNameIsEncoded(tagName: string, page: nat, size: nat, e1: string -> string, e2: string -> string)
    requires Route(GetPostsByTag(tagName, page, size), e1).path == Route(GetPostsByTag(tagName, page, size), e2).path
    ensures e1(tagName) == e2(tagName)
  {
    var suffix := "?" + PageQuery(page, size);
    CancelPrefix("/api/", "posts/tag/" + (e1(tagName) + suffix), "posts/tag/" + (e2(tagName) + suffix));
    CancelPrefix("posts/tag/", e1(tagName) + suffix, e2(tagName) + suffix);
    CancelSuffix(e1(tagName), e2(tagName), suffix);
  }

  /** Usernames go into the path unencoded: the profile path ends with the
      username itself, so different users have different paths. */
  lemma UsernamesAreVerbatim(u: string, v: string, encode: string -> string)
    ensures Route(GetUser(u), encode).path[|"/api/users/"|..] == u
    ensures Route(GetUser(u), encode).path == Route(GetUser(v), encode).path ==> u == v
  {
  }

  /** The same page of two users' post lists is fetched from different
      paths: the username goes in verbatim. */
  lemma UserPostPathsDiffer(u: string, v: string, page: nat, size: nat, encode: string -> string)
    requires Route(GetUserPosts(u, page, size), encode).path == Route(GetUserPosts(v, page, size), encode).path
    ensures u == v
  {
    var suffix := "/posts?" + PageQuery(page, size);
    assert Route(GetUserPosts(u, page, size), encode).path == "/api/" + ("users/" + (u + suffix));
    assert Route(GetUserPosts(v, page, size), encode).path == "/api/" + ("users/" + (v + suffix));
    CancelPrefix("/api/", "users/" + (u + suffix), "users/" + (v + suffix));
    CancelPrefix("users/", u + suffix, v + suffix);
    CancelSuffix(u, v, suffix);
  }

  // ----- the client -----

  /** The module state of lib/api.ts in one object: the base URL fixed at
      load, whether a browser window exists, the cached token and the
      browser's key/value store. */
  class ApiClient {
    const baseUrl: string
    const hasWindow: bool
    var accessToken: Option<string>
    var storage: map<string, string>

    /** Module load: no cached token; the store is whatever the browser
        already holds. */
    constructor (env: Option<string>, hasWindow: bool, storage: map<string, string>)
      ensures baseUrl == BaseUrl(env) && this.hasWindow == hasWindow
      ensures accessToken == None && this.storage == storage
    {
      baseUrl := BaseUrl(env);
      this.hasWindow := hasWindow;
      accessToken := None;
      this.storage := storage;
    }

    function State(): Session
      reads this
    {
      Session(accessToken, storage, hasWindow)
    }

    method SetAccessToken(token: Option<string>)
      modifies this
      ensures State() == AfterSet(old(State()), token)
    {
      accessToken := token;
      if hasWindow {
        if token.Some? && token.value != "" {
          storage := storage[AccessTokenKey := token.value];
        } else {
          storage := storage - {AccessTokenKey};
        }
      }
    }

    method GetAccessToken() returns (token: Option<string>)
      modifies this
      ensures token == ReadToken(old(State()))
      ensures State() == AfterRead(old(State()))
    {
      if accessToken.Some? && accessToken.value != "" {
        return accessToken;
      }
      if hasWindow {
        accessToken := Lookup(storage, AccessTokenKey);
      }
      token := accessToken;
    }

    /** `fetchApi(endpoint, options)`: reads the token, sends the request
        and settles with the decoded body or a thrown `Error`. */
    method FetchApi<T>(endpoint: string, options: Options, server: Request -> Outcome<T>)
      returns (request: Request, result: Result<T, Thrown>)
      modifies this
      ensures request == MakeRequest(baseUrl, endpoint, options, ReadToken(old(State())))
      ensures result == Settle(server(request))
      ensures State() == AfterRead(old(State()))
    {
      var token := GetAccessToken();
      request := MakeRequest(baseUrl, endpoint, options, token);
      result := Settle(server(request));
    }

    method Login(data: LoginRequest, server: Request -> Outcome<ApiResponse<JwtResponse>>)
      returns (request: Request, result: Result<ApiResponse<JwtResponse>, Thrown>)
      modifies this
      ensures request == MakeRequest(baseUrl, "/api/auth/login", Options(POST, body := Some(LoginPayload(data))), ReadToken(old(State())))
      ensures result == Settle(server(request))
      ensures State() == AfterAuth(AfterRead(old(State())), result)
    {
      request, result := FetchApi("/api/auth/login", Options(POST, body := Some(LoginPayload(data))), server);
      if result.Success? && result.value.data.accessToken != "" {
        SetAccessToken(Some(result.value.data.accessToken));
      }
    }

    method Register(data: RegisterRequest, server: Request -> Outcome<ApiResponse<JwtResponse>>)
      returns (request: Request, result: Result<ApiResponse<JwtResponse>, Thrown>)
      modifies this
      ensures request == MakeRequest(baseUrl, "/api/auth/register", Options(POST, body := Some(RegisterPayload(data))), ReadToken(old(State())))
      ensures result == Settle(server(request))
      ensures State() == AfterAuth(AfterRead(old(State())), result)
    {
      request, result := FetchApi("/api/auth/register", Options(POST, body := Some(RegisterPayload(data))), server);
      if result.Success? && result.value.data.accessToken != "" {
        SetAccessToken(Some(result.value.data.accessToken));
      }
    }

    /** `refresh` returns the new tokens without storing either. */
    method Refresh(refreshToken: string, server: Request -> Outcome<ApiResponse<JwtResponse>>)
      returns (request: Request, result: Result<ApiResponse<JwtResponse>, Thrown>)
      modifies this
      ensures request == MakeRequest(baseUrl, "/api/auth/refresh", Options(POST, body := Some(RefreshPayload(refreshToken))), ReadToken(old(State())))
      ensures result == Settle(server(request))
      ensures State() == AfterRead(old(State()))
    {
      request, result := FetchApi("/api/auth/refresh", Options(POST, body := Some(RefreshPayload(refreshToken))), server);
    }

    method Logout()
      modifies this
      ensures State() == AfterLogout(old(State()))
    {
      SetAccessToken(None);
      if hasWindow {
        storage := storage - {RefreshTokenKey};
      }
    }

    /** Any endpoint function of `postApi`, `userApi`, `commentApi` or
        `seriesApi`. */
    method Call<T>(call: ApiCall, encode: string -> string, server: Request -> Outcome<T>)
      returns (request: Request, result: Result<T, Thrown>)
      modifies this
      ensures request == MakeRequest(baseUrl, Route(call, encode).path, Route(call, encode).options, ReadToken(old(State())))
      ensures result == Settle(server(request))
      ensures State() == AfterRead(old(State()))
    {
      var endpoint := Route(call, encode);
      request, result := FetchApi(endpoint.path, endpoint.options, server);
    }
  }
}
