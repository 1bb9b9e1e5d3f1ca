/**
  The authenticated request wrapper `fetchWithTokenRefresh` and its sibling
  `fetchWithProgress`, with the module state they drive: the progress
  record, the session store, the requests handed to the transport and the
  navigations to the login page.

  The transport is scripted: every call to `fetch` takes the next outcome
  of a queue (one queue for the requests the caller asked for, one for the
  calls to the refresh endpoint). Each outcome says how many times the
  100 ms progress interval fired while the call was awaited. The 500 ms
  reset timer of every `finally` block is a pending reset that
  `FireResets` applies later.

  `Exec` and `Track` are the pure specifications of the two wrappers over
  a `World` value; the methods of `Client` are proved equal to them, and
  the lemmas below state what the wrappers promise.
 */
module Fetch {
  import opened Common
  import opened Progress
  import Storage

  /** A header set; only the entries a request carries matter here. */
  type Headers = map<string, string>

  const AuthorizationHeader: string := "Authorization"
  const ContentTypeHeader: string := "Content-Type"
  const JsonContentType: string := "application/json"
  const RefreshPath: string := "/api/refresh-token"
  const LoginPrefix: string := "/auth/login?returnUrl="
  const UnauthenticatedMessage: string := "Unauthenticated"
  /** The `ReferenceError` message of reading `window` where no browser runs the code. */
  const WindowUndefined: string := "window is not defined"
  const Unauthorized: nat := 401
  /** A refresh happens only while `retryCount < MaxRetries`. */
  const MaxRetries: int := 1

  /** What was handed to `fetch`. */
  datatype Request = Request(url: string, verb: string, headers: Headers)

  /** The JSON body of a response as far as `errorData.message` reads it. */
  datatype Body =
    | Message(text: string)      // a body with a string `message`
    | NoMessage                  // a JSON body without that `message`
    | Unparsable(error: string)  // `response.clone().json()` rejects

  datatype Response = Response(status: nat, ok: bool, body: Body)

  /** One scripted call of `fetch` for the caller's URL. */
  datatype Outcome =
    | Raised(ticks: nat, error: string)
    | Replied(ticks: nat, response: Response)

  /** One scripted call of the refresh endpoint (its JSON body included). */
  datatype RefreshOutcome =
    | Refreshed(ticks: nat, token: string)
    | RefreshRejected(ticks: nat, status: nat)
    | RefreshRaised(ticks: nat, error: string)

  /** What the wrappers throw. */
  datatype Failure =
    | Rethrown(error: string)  // an exception of the transport or of body parsing, unchanged
    | StatusFailure(status: nat)
    | RefreshFailure

  /** The message of the `Error` thrown. */
  function ErrorMessage(f: Failure): string {
    match f
    case Rethrown(e) => e
    case StatusFailure(s) => "Request failed with status " + NatToString(s)
    case RefreshFailure => "Failed to refresh token."
  }

  /**
    The fixed surroundings: whether a browser runs the code, `PUBLIC_API_URL`,
    `window.location.pathname + window.location.search`, and
    `encodeURIComponent`.
   */
  datatype Env = Env(browser: bool, apiBase: string, location: string, encode: string -> string)

  /** Everything the wrappers read or change. */
  datatype World = World(
    items: map<string, string>,     // localStorage, behind the session store
    progress: ProgressState,        // progressStore
    pendingResets: nat,             // 500 ms reset timers not yet fired
    requests: seq<Request>,         // every call of fetch, in order
    navigations: seq<string>,       // every goto
    replies: seq<Outcome>,          // scripted answers to the caller's requests
    refreshes: seq<RefreshOutcome>) // scripted answers of the refresh endpoint

  function Bearer(token: string): string { "Bearer " + token }

  /** `if (token)`: a non-null, non-empty token. */
  predicate Truthy(token: Option<string>) { token.Some? && token.value != "" }

  /** ASCII lower case, as header names are compared. */
  function LowerAscii(c: char): char {
    if 'A' <= c <= 'Z' then (c as int + 32) as char else c
  }

  function Lower(s: string): (r: string)
    ensures |r| == |s| && forall i :: 0 <= i < |s| ==> r[i] == LowerAscii(s[i])
  {
    seq(|s|, i requires 0 <= i < |s| => LowerAscii(s[i]))
  }

  /** Header names are case-insensitive. */
  predicate SameName(a: string, b: string) { Lower(a) == Lower(b) }

  /**
    `headers.set(name, value)`: every header whose name matches `name` in any
    case gives way to the one entry `name: value`; all other headers stay.
   */
  function SetHeader(h: Headers, name: string, value: string): (r: Headers)
    ensures name in r && r[name] == value
    ensures forall k :: k in r && SameName(k, name) ==> k == name
    ensures forall k :: !SameName(k, name) ==> (k in r <==> k in h)
    ensures forall k :: k in r && !SameName(k, name) ==> r[k] == h[k]
  {
    (map k | k in h && !SameName(k, name) :: h[k])[name := value]
  }

  /** Setting the same header twice is setting it once. */
  lemma SetHeaderTwice(h: Headers, name: string, value: string)
    ensures SetHeader(SetHeader(h, name, value), name, value) == SetHeader(h, name, value)
  {
    var once := SetHeader(h, name, value);
    var twice := SetHeader(once, name, value);
    assert forall k :: k in twice <==> k in once;
  }

  /**
    `new Headers(options.headers)` with the bearer header set when the token
    is truthy: then `Authorization` holds `Bearer <token>` and no header of
    another case spelling survives, the rest kept; a falsy token (none, or
    the empty string) leaves the headers as they are.
   */
  function Authorize(headers: Headers, token: Option<string>): (r: Headers)
    ensures Truthy(token) ==> AuthorizationHeader in r && r[AuthorizationHeader] == "Bearer " + token.value
    ensures Truthy(token) ==> forall k :: k in r && SameName(k, AuthorizationHeader) ==> k == AuthorizationHeader
    ensures Truthy(token) ==> forall k :: k in headers && !SameName(k, AuthorizationHeader) ==> k in r && r[k] == headers[k]
    ensures !Truthy(token) ==> r == headers
  {
    if Truthy(token) then SetHeader(headers, AuthorizationHeader, Bearer(token.value)) else headers
  }

  /**
    The refresh call: a POST to `<apiBase>/api/refresh-token` with exactly
    the JSON content type and the old token as bearer; a missing token is
    written into the template as `null`.
   */
  function RefreshRequest(env: Env, token: Option<string>): (r: Request)
    ensures r.url == env.apiBase + "/api/refresh-token" && r.verb == "POST"
    ensures r.headers.Keys == {"Content-Type", "Authorization"}
    ensures r.headers["Content-Type"] == "application/json"
    ensures r.headers["Authorization"] == "Bearer " + (if token.Some? then token.value else "null")
  {
    Request(env.apiBase + RefreshPath, "POST",
            map[ContentTypeHeader := JsonContentType,
                AuthorizationHeader := Bearer(if token.Some? then token.value else "null")])
  }

  /** The login route carrying the current location. */
  function LoginRedirect(env: Env): string {
    LoginPrefix + env.encode(env.location)
  }

  /** The one failure signature that starts the refresh-and-retry cycle. */
  predicate Refreshable(reply: Outcome, retryCount: int) {
    && reply.Replied?
    && !reply.response.ok
    && reply.response.status == Unauthorized
    && reply.response.body == Message(UnauthenticatedMessage)
    && retryCount < MaxRetries
  }

  /** The error of a non-ok response that is not refreshed. */
  function Rejection(response: Response): Failure {
    if response.status == Unauthorized && response.body.Unparsable? then Rethrown(response.body.error)
    else StatusFailure(response.status)
  }

  /** The result of one attempt that does not refresh. */
  function Unrefreshed(reply: Outcome): Result<Response, Failure> {
    if reply.Raised? then Err(Rethrown(reply.error))
    else if reply.response.ok then Ok(reply.response)
    else Err(Rejection(reply.response))
  }

  /** The script answers every call a wrapper started with `retryCount` can make. */
  predicate Scripted(w: World, retryCount: int) {
    |w.replies| >= Max(1, 2 - retryCount) && |w.refreshes| >= Max(0, 1 - retryCount)
  }

  /** The world once every pending 500 ms reset timer has fired. */
  function Fired(w: World): World {
    if w.pendingResets == 0 then w else w.(progress := Reset(w.progress), pendingResets := 0)
  }

  /** The `finally` block: the interval is cleared and a reset is scheduled. */
  function Settle(w: World): World {
    w.(pendingResets := w.pendingResets + 1)
  }

  /** One attempt: progress starts, the request goes out and the next reply arrives. */
  function Attempted(w: World, url: string, verb: string, sent: Headers): World
    requires |w.replies| >= 1
  {
    w.(progress := Ticks(Start(w.progress), w.replies[0].ticks),
       requests := w.requests + [Request(url, verb, sent)],
       replies := w.replies[1..])
  }

  /** The refresh call goes out and the next refresh answer arrives. */
  function RefreshAnswered(env: Env, w: World, token: Option<string>): World
    requires |w.refreshes| >= 1
  {
    w.(progress := Ticks(w.progress, w.refreshes[0].ticks),
       requests := w.requests + [RefreshRequest(env, token)],
       refreshes := w.refreshes[1..])
  }

  /** The refreshed token is saved before the retry. */
  function Retried(env: Env, w: World, newToken: string): World {
    w.(items := Storage.WithToken(env.browser, w.items, newToken))
  }

  /** `fetchWithTokenRefresh(url, options, retryCount)` on a world. */
  function Exec(env: Env, w: World, url: string, verb: string, headers: Headers, retryCount: int)
    : (r: (Result<Response, Failure>, World))
    requires Scripted(w, retryCount)
    ensures r.0.Ok? ==> r.0.value.ok
    ensures |r.1.requests| > |w.requests| && r.1.requests[..|w.requests|] == w.requests
    ensures |r.1.replies| < |w.replies| && |r.1.refreshes| <= |w.refreshes|
    ensures retryCount >= MaxRetries ==> r.1.refreshes == w.refreshes
    ensures r.1.pendingResets > w.pendingResets
    decreases 1 - retryCount, 1
  {
    var token := Storage.TokenIn(env.browser, w.items);
    var sent := Authorize(headers, token);
    var reply := w.replies[0];
    var w1 := Attempted(w, url, verb, sent);
    if !Refreshable(reply, retryCount) then
      if reply.Replied? && reply.response.ok then
        (Ok(reply.response), Settle(w1.(progress := Complete(w1.progress))))
      else
        (Unrefreshed(reply), Settle(w1))
    else
      var cycle := RefreshCycle(env, w1, url, verb, sent, token, retryCount);
      (cycle.0, Settle(cycle.1))
  }

  /**
    The refresh sub-protocol of a frame whose request met the failure
    signature: `sent` are the headers that request carried and `token` the
    token it read.
   */
  function RefreshCycle(env: Env, w: World, url: string, verb: string, sent: Headers, token: Option<string>, retryCount: int)
    : (r: (Result<Response, Failure>, World))
    requires retryCount < MaxRetries && |w.refreshes| >= 1 - retryCount && Scripted(w, retryCount + 1)
    ensures r.0.Ok? ==> r.0.value.ok
    ensures |r.1.requests| >= |w.requests| + 1
    ensures r.1.requests[..|w.requests| + 1] == w.requests + [RefreshRequest(env, token)]
    ensures |r.1.replies| <= |w.replies| && |r.1.refreshes| < |w.refreshes|
    ensures retryCount + 1 >= MaxRetries ==> r.1.refreshes == w.refreshes[1..]
    ensures r.1.pendingResets >= w.pendingResets
    ensures !env.browser ==> r.1.navigations == w.navigations
    decreases 1 - retryCount, 0
  {
    var answer := w.refreshes[0];
    var w2 := RefreshAnswered(env, w, token);
    match answer
    case RefreshRaised(_, e) =>
      (Err(Rethrown(e)), w2)
    case RefreshRejected(_, _) =>
      if env.browser then
        (Err(RefreshFailure),
         w2.(items := Storage.WithoutUserData(env.browser, w2.items),
             navigations := w2.navigations + [LoginRedirect(env)]))
      else
        // `clearUserData` does nothing; reading `window.location` throws
        (Err(Rethrown(WindowUndefined)), w2)
    case Refreshed(_, newToken) =>
      Exec(env, Retried(env, w2, newToken), url, verb, SetHeader(sent, AuthorizationHeader, Bearer(newToken)), retryCount + 1)
  }

  /** `fetchWithProgress(url, options)` on a world: no credentials, no refresh. */
  function Track(w: World, url: string, verb: string, headers: Headers): (r: (Result<Response, Failure>, World))
    requires |w.replies| >= 1
    ensures r.0.Ok? ==> r.0.value.ok
    ensures r.1.replies == w.replies[1..]
    ensures r.1.pendingResets == w.pendingResets + 1
  {
    var reply := w.replies[0];
    var w1 := Attempted(w, url, verb, headers);
    if reply.Raised? then (Err(Rethrown(reply.error)), Settle(w1))
    else if reply.response.ok then (Ok(reply.response), Settle(w1.(progress := Complete(w1.progress))))
    else (Err(StatusFailure(reply.response.status)), Settle(w1))
  }

  // ---------------------------------------------------------------------
  // What the authenticated wrapper promises
  // ---------------------------------------------------------------------

  /**
    The first request carries `Authorization: Bearer <token>` exactly when
    the stored token is truthy; otherwise the caller's headers go out as
    they are. Whatever happens later, the logs only grow.
   */
  lemma FirstRequestCarriesToken(env: Env, w: World, url: string, verb: string, headers: Headers, retryCount: int)
    requires Scripted(w, retryCount)
    ensures var w' := Exec(env, w, url, verb, headers, retryCount).1;
            var token := Storage.TokenIn(env.browser, w.items);
            && |w'.requests| > |w.requests|
            && w'.requests[..|w.requests|] == w.requests
            && w'.requests[|w.requests|] == Request(url, verb, Authorize(headers, token))
            && (Truthy(token) ==> w'.requests[|w.requests|].headers[AuthorizationHeader] == Bearer(token.value))
            && (Truthy(token) ==> forall k :: k in w'.requests[|w.requests|].headers && SameName(k, AuthorizationHeader)
                                           ==> k == AuthorizationHeader)
            && (!Truthy(token) ==> w'.requests[|w.requests|].headers == headers)
  {
  }

  /**
    A refresh request goes out exactly when the first reply is a non-ok 401
    whose body message is `"Unauthenticated"` and `retryCount < 1`. No call
    makes more than `1 - retryCount` of them: at most one from the top level,
    none once `retryCount` is 1.
   */
  lemma {:induction false} RefreshOnlyOnSignature(env: Env, w: World, url: string, verb: string, headers: Headers, retryCount: int)
    requires Scripted(w, retryCount)
    ensures var w' := Exec(env, w, url, verb, headers, retryCount).1;
            && |w'.refreshes| <= |w.refreshes|
            && (|w'.refreshes| < |w.refreshes| <==> Refreshable(w.replies[0], retryCount))
            && |w.refreshes| - |w'.refreshes| <= Max(0, MaxRetries - retryCount)
            && (retryCount >= MaxRetries ==> w'.refreshes == w.refreshes)
    decreases 1 - retryCount
  {
    var token := Storage.TokenIn(env.browser, w.items);
    var sent := Authorize(headers, token);
    var reply := w.replies[0];
    var w1 := Attempted(w, url, verb, sent);
    if Refreshable(reply, retryCount) && w1.refreshes[0].Refreshed? {
      var answer := w1.refreshes[0];
      var w2 := RefreshAnswered(env, w1, token);
      var w3 := Retried(env, w2, answer.token);
      RefreshOnlyOnSignature(env, w3, url, verb, SetHeader(sent, AuthorizationHeader, Bearer(answer.token)), retryCount + 1);
    }
  }

  /** The refresh call is a POST to the refresh endpoint bearing the old token. */
  lemma RefreshRequestShape(env: Env, w: World, url: string, verb: string, headers: Headers, retryCount: int)
    requires Scripted(w, retryCount)
    requires Refreshable(w.replies[0], retryCount)
    ensures var w' := Exec(env, w, url, verb, headers, retryCount).1;
            var token := Storage.TokenIn(env.browser, w.items);
            && |w'.requests| >= |w.requests| + 2
            && w'.requests[|w.requests| + 1] == RefreshRequest(env, token)
            && w'.requests[|w.requests| + 1].url == env.apiBase + "/api/refresh-token"
            && w'.requests[|w.requests| + 1].verb == "POST"
            && w'.requests[|w.requests| + 1].headers[ContentTypeHeader] == "application/json"
            && (token.Some? ==> w'.requests[|w.requests| + 1].headers[AuthorizationHeader] == Bearer(token.value))
  {
  }

  /**
    An attempt that is not refreshed makes one request and settles with the
    reply: an ok response is returned as it is with progress at 100, a
    transport exception is rethrown unchanged, any other reply throws
    "Request failed with status <status>" (a 401 whose body does not parse
    rethrows the parse error). The store, the navigations and the refresh
    script are untouched.
   */
  lemma NoRefreshAttempt(env: Env, w: World, url: string, verb: string, headers: Headers, retryCount: int)
    requires Scripted(w, retryCount)
    requires !Refreshable(w.replies[0], retryCount)
    ensures var (r, w') := Exec(env, w, url, verb, headers, retryCount);
            var reply := w.replies[0];
            && r == Unrefreshed(reply)
            && (reply.Replied? && reply.response.ok ==> r == Ok(reply.response) && w'.progress == ProgressState(true, Completed))
            && (reply.Raised? ==> r == Err(Rethrown(reply.error)))
            && (reply.Replied? && !reply.response.ok && !reply.response.body.Unparsable? ==>
                  r == Err(StatusFailure(reply.response.status))
                  && ErrorMessage(r.error) == "Request failed with status " + NatToString(reply.response.status))
            && w'.requests == w.requests + [Request(url, verb, Authorize(headers, Storage.TokenIn(env.browser, w.items)))]
            && w'.items == w.items
            && w'.navigations == w.navigations
            && w'.refreshes == w.refreshes
            && w'.replies == w.replies[1..]
            && w'.pendingResets == w.pendingResets + 1
  {
    TicksBounded(Start(w.progress), w.replies[0].ticks);
  }

  /** An ok first response never throws and never refreshes. */
  lemma OkNeverRefreshes(env: Env, w: World, url: string, verb: string, headers: Headers, retryCount: int)
    requires Scripted(w, retryCount)
    requires w.replies[0].Replied? && w.replies[0].response.ok
    ensures var (r, w') := Exec(env, w, url, verb, headers, retryCount);
            && r == Ok(w.replies[0].response)
            && w'.progress == ProgressState(true, Completed)
            && w'.refreshes == w.refreshes
            && |w'.requests| == |w.requests| + 1
  {
    NoRefreshAttempt(env, w, url, verb, headers, retryCount);
  }

  /**
    A second 401 "Unauthenticated" on the retry is not refreshed again: it
    throws the status error.
   */
  lemma RetriedUnauthenticatedFails(env: Env, w: World, url: string, verb: string, headers: Headers)
    requires Scripted(w, MaxRetries)
    requires w.replies[0] == Replied(w.replies[0].ticks, Response(Unauthorized, false, Message(UnauthenticatedMessage)))
    ensures var (r, w') := Exec(env, w, url, verb, headers, MaxRetries);
            r == Err(StatusFailure(Unauthorized)) && w'.refreshes == w.refreshes
  {
    NoRefreshAttempt(env, w, url, verb, headers, MaxRetries);
  }

  /** The same header set always reads back the bearer header written last. */
  lemma RetryHeaders(browser: bool, items: map<string, string>, sent: Headers, newToken: string)
    ensures Authorize(SetHeader(sent, AuthorizationHeader, Bearer(newToken)),
                      Storage.TokenIn(browser, Storage.WithToken(browser, items, newToken)))
         == SetHeader(sent, AuthorizationHeader, Bearer(newToken))
  {
    var token := Storage.TokenIn(browser, Storage.WithToken(browser, items, newToken));
    if Truthy(token) {
      assert token.value == newToken;
      SetHeaderTwice(sent, AuthorizationHeader, Bearer(newToken));
    }
  }

  /**
    Refresh success from the top level: the new token is saved, and the
    original URL is issued again bearing `Bearer <newToken>`; the first
    request, whose headers the caller's options keep, bore the old token.
    The retry settles by its own reply and refreshes nothing more.
   */
  lemma RefreshThenRetry(env: Env, w: World, url: string, verb: string, headers: Headers)
    requires Scripted(w, 0)
    requires Refreshable(w.replies[0], 0)
    requires w.refreshes[0].Refreshed?
    ensures var (r, w') := Exec(env, w, url, verb, headers, 0);
            var oldToken := Storage.TokenIn(env.browser, w.items);
            var newToken := w.refreshes[0].token;
            var first := Authorize(headers, oldToken);
            && w'.items == Storage.WithToken(env.browser, w.items, newToken)
            && Storage.TokenIn(env.browser, w'.items) == (if env.browser then Some(newToken) else None)
            && |w'.requests| == |w.requests| + 3
            && w'.requests[|w.requests|] == Request(url, verb, first)
            && w'.requests[|w.requests| + 1] == RefreshRequest(env, oldToken)
            && w'.requests[|w.requests| + 2] == Request(url, verb, SetHeader(first, AuthorizationHeader, Bearer(newToken)))
            && w'.requests[|w.requests| + 2].headers[AuthorizationHeader] == Bearer(newToken)
            && r == Unrefreshed(w.replies[1])
            && w'.refreshes == w.refreshes[1..]
            && w'.replies == w.replies[2..]
            && w'.navigations == w.navigations
            && w'.pendingResets == w.pendingResets + 2
  {
    var token := Storage.TokenIn(env.browser, w.items);
    var sent := Authorize(headers, token);
    var reply := w.replies[0];
    var w1 := Attempted(w, url, verb, sent);
    var answer := w1.refreshes[0];
    var w2 := RefreshAnswered(env, w1, token);
    var w3 := Retried(env, w2, answer.token);
    var retryHeaders := SetHeader(sent, AuthorizationHeader, Bearer(answer.token));
    assert w3.replies[0] == w.replies[1];
    NoRefreshAttempt(env, w3, url, verb, retryHeaders, 1);
    RetryHeaders(env.browser, w2.items, sent, answer.token);
  }

  /**
    Refresh failure in a browser: the store is cleared, one navigation to
    the login page with the encoded current location is recorded, and
    "Failed to refresh token." is thrown. Where no browser runs the code,
    reading `window.location` throws first: that `ReferenceError` is
    rethrown and nothing is navigated. A refresh call that throws is
    rethrown and tears nothing down.
   */
  lemma RefreshFailureTearsDown(env: Env, w: World, url: string, verb: string, headers: Headers, retryCount: int)
    requires Scripted(w, retryCount)
    requires Refreshable(w.replies[0], retryCount)
    requires !w.refreshes[0].Refreshed?
    ensures var (r, w') := Exec(env, w, url, verb, headers, retryCount);
            && |w'.requests| == |w.requests| + 2
            && w'.refreshes == w.refreshes[1..]
            && w'.pendingResets == w.pendingResets + 1
            && (w.refreshes[0].RefreshRejected? && env.browser ==>
                  && r == Err(RefreshFailure)
                  && ErrorMessage(r.error) == "Failed to refresh token."
                  && w'.items == Storage.WithoutUserData(env.browser, w.items)
                  && Storage.TokenIn(env.browser, w'.items) == None
                  && w'.navigations == w.navigations + ["/auth/login?returnUrl=" + env.encode(env.location)])
            && (w.refreshes[0].RefreshRejected? && !env.browser ==>
                  && r == Err(Rethrown("window is not defined"))
                  && w'.items == w.items
                  && w'.navigations == w.navigations)
            && (w.refreshes[0].RefreshRaised? ==>
                  && r == Err(Rethrown(w.refreshes[0].error))
                  && w'.items == w.items
                  && w'.navigations == w.navigations)
  {
  }

  /**
    Navigation happens exactly when the call throws the refresh failure,
    and then once, after the store was cleared; where no browser runs the
    code it never happens.
   */
  lemma {:induction false} NavigatesOnlyOnRefreshFailure(env: Env, w: World, url: string, verb: string, headers: Headers, retryCount: int)
    requires Scripted(w, retryCount)
    ensures var (r, w') := Exec(env, w, url, verb, headers, retryCount);
            && (w'.navigations != w.navigations <==> r == Err(RefreshFailure))
            && (r == Err(RefreshFailure) ==>
                  w'.navigations == w.navigations + [LoginRedirect(env)]
                  && Storage.TokenIn(env.browser, w'.items) == None)
            && (r != Err(RefreshFailure) ==> w'.navigations == w.navigations)
            && (!env.browser ==> w'.navigations == w.navigations)
    decreases 1 - retryCount
  {
    var token := Storage.TokenIn(env.browser, w.items);
    var sent := Authorize(headers, token);
    var reply := w.replies[0];
    var w1 := Attempted(w, url, verb, sent);
    if Refreshable(reply, retryCount) && w1.refreshes[0].Refreshed? {
      var answer := w1.refreshes[0];
      var w2 := RefreshAnswered(env, w1, token);
      var w3 := Retried(env, w2, answer.token);
      NavigatesOnlyOnRefreshFailure(env, w3, url, verb, SetHeader(sent, AuthorizationHeader, Bearer(answer.token)), retryCount + 1);
    }
  }

  /**
    When the call settles, progress is at 100 if it succeeded and still
    loading at no more than 90 if it failed; every frame scheduled one reset
    (one per request to the caller's URL), so on every exit path, once the
    timers fire, the record is back to `{isLoading: false, progress: 0}`.
   */
  lemma {:induction false} SettledProgress(env: Env, w: World, url: string, verb: string, headers: Headers, retryCount: int)
    requires Scripted(w, retryCount)
    ensures var (r, w') := Exec(env, w, url, verb, headers, retryCount);
            && (r.Ok? ==> w'.progress == ProgressState(true, Completed))
            && (r.Err? ==> w'.progress.isLoading && 0 <= w'.progress.progress <= TickCap)
            && |w'.replies| < |w.replies|
            && w'.pendingResets == w.pendingResets + (|w.replies| - |w'.replies|)
            && Fired(w').progress == Idle
    decreases 1 - retryCount
  {
    var token := Storage.TokenIn(env.browser, w.items);
    var sent := Authorize(headers, token);
    var reply := w.replies[0];
    var w1 := Attempted(w, url, verb, sent);
    StartedThenTicked(w.progress, reply.ticks, 0);
    if Refreshable(reply, retryCount) {
      var answer := w1.refreshes[0];
      StartedThenTicked(w.progress, reply.ticks, answer.ticks);
      var w2 := RefreshAnswered(env, w1, token);
      if answer.Refreshed? {
        var w3 := Retried(env, w2, answer.token);
        SettledProgress(env, w3, url, verb, SetHeader(sent, AuthorizationHeader, Bearer(answer.token)), retryCount + 1);
      }
    }
  }

  // ---------------------------------------------------------------------
  // What the plain wrapper promises
  // ---------------------------------------------------------------------

  /**
    `fetchWithProgress` sends the caller's headers as they are, never calls
    the refresh endpoint, never touches the store or navigates, and throws
    the status error for every non-ok reply, a 401 included.
   */
  lemma TrackNeverRefreshes(w: World, url: string, verb: string, headers: Headers)
    requires |w.replies| >= 1
    ensures var (r, w') := Track(w, url, verb, headers);
            var reply := w.replies[0];
            && w'.requests == w.requests + [Request(url, verb, headers)]
            && w'.refreshes == w.refreshes
            && w'.items == w.items
            && w'.navigations == w.navigations
            && w'.pendingResets == w.pendingResets + 1
            && (reply.Raised? ==> r == Err(Rethrown(reply.error)))
            && (reply.Replied? && reply.response.ok ==> r == Ok(reply.response) && w'.progress == ProgressState(true, Completed))
            && (reply.Replied? && !reply.response.ok ==> r == Err(StatusFailure(reply.response.status)))
            && (r.Err? ==> w'.progress.isLoading && 0 <= w'.progress.progress <= TickCap)
            && Fired(w').progress == Idle
  {
    StartedThenTicked(w.progress, w.replies[0].ticks, 0);
  }

  /** The caller's `options` object: the wrapper reassigns its `headers`. */
  class RequestInit {
    var verb: string
    var headers: Headers

    constructor (verb: string, headers: Headers)
      ensures this.verb == verb && this.headers == headers
    {
      this.verb := verb;
      this.headers := headers;
    }
  }

  /** The module state of the request wrappers and the collaborators they call. */
  class Client {
    const store: Storage.StorageService
    const apiBase: string
    const location: string
    const encode: string -> string
    var progress: ProgressState
    var pendingResets: nat
    var requests: seq<Request>
    var navigations: seq<string>
    var replies: seq<Outcome>
    var refreshes: seq<RefreshOutcome>

    constructor (store: Storage.StorageService, apiBase: string, location: string, encode: string -> string,
                 replies: seq<Outcome>, refreshes: seq<RefreshOutcome>)
      ensures this.store == store && this.apiBase == apiBase && this.location == location && this.encode == encode
      ensures progress == Idle && pendingResets == 0 && requests == [] && navigations == []
      ensures this.replies == replies && this.refreshes == refreshes
    {
      this.store := store;
      this.apiBase := apiBase;
      this.location := location;
      this.encode := encode;
      progress := Idle;
      pendingResets := 0;
      requests := [];
      navigations := [];
      this.replies := replies;
      this.refreshes := refreshes;
    }

    function Surroundings(): Env {
      Env(store.browser, apiBase, location, encode)
    }

    function State(): World
      reads this, store
    {
      World(store.items, progress, pendingResets, requests, navigations, replies, refreshes)
    }

    /** `n` firings of the progress interval. */
    method Elapse(n: nat)
      modifies this`progress
      ensures progress == Ticks(old(progress), n)
    {
      var i := 0;
      while i < n
        invariant 0 <= i <= n
        invariant Ticks(progress, n - i) == Ticks(old(progress), n)
      {
        progress := Tick(progress);
        i := i + 1;
      }
    }

    /** The pending 500 ms timers fire, each resetting the progress record. */
    method FireResets()
      modifies this`progress, this`pendingResets
      ensures pendingResets == 0
      ensures progress == if old(pendingResets) == 0 then old(progress) else Idle
      ensures State() == Fired(old(State()))
    {
      while pendingResets > 0
        invariant progress == if pendingResets == old(pendingResets) then old(progress) else Idle
      {
        progress := Reset(progress);
        pendingResets := pendingResets - 1;
      }
    }

    /**
      `fetchWithTokenRefresh(url, options, retryCount)`. The caller's
      `options.headers` is replaced by the authorized copy; the retry runs
      on a fresh copy of the options.
     */
    method FetchWithTokenRefresh(url: string, options: RequestInit, retryCount: int := 0)
      returns (r: Result<Response, Failure>)
      requires Scripted(State(), retryCount)
      modifies this, store, options
      ensures (r, State()) == Exec(Surroundings(), old(State()), url, old(options.verb), old(options.headers), retryCount)
      ensures options.verb == old(options.verb)
      ensures options.headers == Authorize(old(options.headers), Storage.TokenIn(store.browser, old(store.items)))
      decreases 1 - retryCount, 2
    {
      ghost var env := Surroundings();
      ghost var w0 := State();
      ghost var spec := Exec(env, w0, url, options.verb, options.headers, retryCount);
      progress := Start(progress);
      var token := store.GetToken();
      var headers := Authorize(options.headers, token);
      options.headers := headers;
      var reply := replies[0];
      replies := replies[1..];
      requests := requests + [Request(url, options.verb, headers)];
      Elapse(reply.ticks);
      ghost var w1 := State();
      assert w1 == Attempted(w0, url, options.verb, headers);
      if reply.Raised? {
        r := Err(Rethrown(reply.error));
        assert spec == (r, Settle(w1));
      } else if reply.response.ok {
        progress := Complete(progress);
        r := Ok(reply.response);
        assert spec == (r, Settle(State()));
      } else if Refreshable(reply, retryCount) {
        r := RefreshAndRetry(url, options.verb, headers, token, retryCount);
        assert spec == (r, Settle(State()));
      } else {
        r := Err(Rejection(reply.response));
        assert spec == (r, Settle(w1));
      }
      ghost var settled := State();
      assert spec == (r, Settle(settled));
      pendingResets := pendingResets + 1;
      assert State() == Settle(settled);
    }

    /**
      The refresh-and-retry cycle: a POST to the refresh endpoint; on success
      the new token is saved and the request is issued again on a copy of the
      options bearing it, on rejection the session is torn down and the login
      page is visited. The `finally` block is that of the frame that started
      the cycle.
     */
    method RefreshAndRetry(url: string, verb: string, sent: Headers, token: Option<string>, retryCount: int)
      returns (r: Result<Response, Failure>)
      requires retryCount < MaxRetries && |refreshes| >= 1 - retryCount && Scripted(State(), retryCount + 1)
      modifies this, store
      ensures (r, State()) == RefreshCycle(Surroundings(), old(State()), url, verb, sent, token, retryCount)
      decreases 1 - retryCount, 1
    {
      ghost var env := Surroundings();
      ghost var w1 := State();
      ghost var spec := RefreshCycle(env, w1, url, verb, sent, token, retryCount);
      var answer := refreshes[0];
      refreshes := refreshes[1..];
      requests := requests + [RefreshRequest(Surroundings(), token)];
      Elapse(answer.ticks);
      ghost var w2 := State();
      assert w2 == RefreshAnswered(env, w1, token);
      match answer {
        case RefreshRaised(_, e) =>
          r := Err(Rethrown(e));
          assert spec == (r, w2);
        case RefreshRejected(_, _) =>
          store.ClearUserData();
          if store.browser {
            navigations := navigations + [LoginRedirect(Surroundings())];
            r := Err(RefreshFailure);
            assert State() == w2.(items := Storage.WithoutUserData(env.browser, w2.items),
                                  navigations := w2.navigations + [LoginRedirect(env)]);
            assert spec == (r, State());
          } else {
            r := Err(Rethrown(WindowUndefined));
            assert State() == w2;
            assert spec == (r, w2);
          }
        case Refreshed(_, newToken) =>
          r := Retry(url, verb, sent, newToken, retryCount);
      }
    }

    /**
      The retry after a successful refresh: the new token is saved and the
      request is issued again on a fresh copy of the options whose
      `Authorization` header bears it.
     */
    method Retry(url: string, verb: string, sent: Headers, newToken: string, retryCount: int)
      returns (r: Result<Response, Failure>)
      requires retryCount < MaxRetries && Scripted(State(), retryCount + 1)
      modifies this, store
      ensures (r, State()) == Exec(Surroundings(), Retried(Surroundings(), old(State()), newToken),
                                   url, verb, SetHeader(sent, AuthorizationHeader, Bearer(newToken)), retryCount + 1)
      decreases 1 - retryCount, 0
    {
      store.SetToken(newToken);
      var retryHeaders := SetHeader(sent, AuthorizationHeader, Bearer(newToken));
      var newOptions := new RequestInit(verb, retryHeaders);
      r := FetchWithTokenRefresh(url, newOptions, retryCount + 1);
    }

    /** `fetchWithProgress(url, options)`: the options are passed through untouched. */
    method FetchWithProgress(url: string, options: RequestInit) returns (r: Result<Response, Failure>)
      requires |replies| >= 1
      modifies this
      ensures (r, State()) == Track(old(State()), url, options.verb, options.headers)
    {
      progress := Start(progress);
      var reply := replies[0];
      replies := replies[1..];
      requests := requests + [Request(url, options.verb, options.headers)];
      Elapse(reply.ticks);
      if reply.Raised? {
        r := Err(Rethrown(reply.error));
      } else if reply.response.ok {
        progress := Complete(progress);
        r := Ok(reply.response);
      } else {
        r := Err(StatusFailure(reply.response.status));
      }
      pendingResets := pendingResets + 1;
    }
  }
}
