# sv-dracinviewer request and page helpers, in Dafny

This project models the client-side services of the sv-dracinviewer
SvelteKit front end:

- **`fetchWithTokenRefresh`**: the authenticated request wrapper. It adds
  the bearer token from the session store. On a 401 whose JSON message is
  `"Unauthenticated"` it calls the refresh endpoint once. On success it saves
  the new token and retries the request. On failure it clears the session and
  sends the user to the login page with the current location.
- **`fetchWithProgress`**: the plain wrapper. It only drives the progress bar.
- **`progressStore`**: the shared progress record `{isLoading, progress}`.
  The wrappers start it, tick it by 10 up to 90 while a call is in flight,
  set it to 100 on success, and reset it 500 ms after the call settles.
- **`StorageService`**: the session store over `localStorage`. It holds the
  user profile (JSON) and the bearer token under two fixed keys, with browser
  guards.
- **The page helpers of `functionService`**: `getFirstError`,
  `setPaginationData`, `capitalizeFirst`, and the query-string rewriting of
  `updateUrlParams`, `goToPage` and `nextPage`.

## Organisation

Files:

- `common.dfy`: `Option`, `Result`, and decimal rendering of numbers.
- `progress.dfy`: the progress record and its transforms (start, tick,
  complete, reset).
- `storage.dfy`: the storage functions over a key/value map, and the
  `StorageService` class whose methods are proved against them.
- `fetch.dfy`:
  - `Exec` (with its refresh sub-protocol `RefreshCycle`) and `Track` are
    pure specifications of the two wrappers over a `World` value.
  - The class `Client` holds the module state. Its methods
    `FetchWithTokenRefresh`, `RefreshAndRetry`, `Retry` and `FetchWithProgress` are
    proved to produce exactly what those specifications produce.
  - The lemmas state what the wrappers promise.
- `urlencoding.dfy`: the application/x-www-form-urlencoded format of the
  WHATWG URL Standard, which `new URL(...)` reads a query with (the parser,
  section 5.1) and `url.toString()` writes it with (the serializer, section
  5.2), over UTF-8. The parser is proved to read back every serialized
  query.
- `functions.dfy`: the page helpers. URLSearchParams `set` and `delete`
  follow section 6.2 of the WHATWG URL Standard. The class `Browser` carries
  the string `window.location.href`, the way the URL parser splits an href
  into origin, path, query and fragment, and the navigations.

The network is scripted. Each call of `fetch` takes the next outcome from a
queue: one queue for the caller's URL, one for the refresh endpoint. An
outcome says how many times the 100 ms interval fired while it was awaited.
Each 500 ms reset timer is counted as pending, and `Client.FireResets`
fires the pending ones.

Where the code behaves differently from what a reader might expect, the
model follows the code:

- The caller's `options.headers` is replaced by the authorized header set
  (fetchWithTokenRefresh.js line 133). Only the retry works on a copy.
- The refresh request carries `Bearer null` when no token is stored. A
  stored empty token is not sent with the first request, because `if (token)`
  is false for it, but it is sent as `Bearer ` to the refresh endpoint.
- A transport error or a body-parse error is rethrown unchanged, not wrapped.
  A 401 whose body does not parse as JSON therefore rethrows the parse error.
- `clearToken` has no browser guard. Outside a browser it throws, because
  `localStorage` is not defined there.
- For the same reason, a refresh failure outside a browser clears nothing
  and never reaches `goto`: reading `window.location` (line 189) throws a
  `ReferenceError`, which the `catch` block rethrows.
- A refresh answer without a `token` field stores and sends the string
  `"undefined"`. That is the case `Refreshed(ticks, "undefined")`.
- `nextPage` heads for `current_page - 1`.
- `setPaginationData` ignores the `pagination` it is given. When
  `result.data` is missing it throws.

## Model

| member | source | states |
|---|---|---|
| Progress.Start | src/lib/services/fetchWithTokenRefresh.js:123-123 | a request start: loading, progress 0 |
| Progress.Tick | src/lib/services/fetchWithTokenRefresh.js:138-144 | one interval firing keeps `isLoading`, adds at most 10, changes progress exactly when it is below 90, and keeps the record in range |
| Progress.Complete | src/lib/services/fetchWithTokenRefresh.js:153-153 | an ok response puts progress at 100 and keeps `isLoading` |
| Progress.Reset | src/lib/services/fetchWithTokenRefresh.js:206-208 | the delayed reset returns any record to `{isLoading: false, progress: 0}` |
| Progress.TicksFromStart | src/lib/services/fetchWithTokenRefresh.js:123-145 | after a start, `n` interval firings give exactly `{isLoading: true, progress: min(10 n, 90)}` |
| Progress.TicksAtCap | src/lib/services/fetchWithTokenRefresh.js:137-145 | at or above 90 a firing changes nothing, however many fire (which is why the interval may stop itself there) |
| Progress.TicksBounded | src/lib/services/fetchWithTokenRefresh.js:137-145 | firings never lower progress, never touch `isLoading`, never reach 100 from below, and keep progress within 0..100 |
| Progress.TicksAdd | src/lib/services/fetchWithTokenRefresh.js:137-145 | firings in two stretches (one per await) compose into one stretch |
| Progress.StartedThenTicked | src/lib/services/fetchWithTokenRefresh.js:123-145 | after a start, under any split of firings, the record is loading with progress in 0..90 |
| Storage.TokenIn | src/lib/services/storageService.js:65-68 | `getToken`: null outside a browser; in a browser a value exactly when the token key is stored, and then that value |
| Storage.UserDataIn | src/lib/services/storageService.js:11-20 | `getUserData`: null outside a browser or for an absent or empty entry; otherwise what parsing the entry gives (null when it throws) |
| Storage.FieldIn | src/lib/services/storageService.js:27-33 | `get(key)`: a value exactly when the profile exists and its property is truthy; the value is that property's `String` form |
| Storage.WithToken | src/lib/services/storageService.js:74-77 | `setToken`: in a browser only the token entry changes, to the value given; outside one nothing changes |
| Storage.WithUserData | src/lib/services/storageService.js:39-46 | `setUserData`: in a browser only the profile entry changes, to the serialized text, and only when serializing succeeds |
| Storage.WithoutUserData | src/lib/services/storageService.js:51-55 | `clearUserData`: in a browser exactly the profile and token entries go and every other entry stays; outside one nothing changes |
| Storage.SetTokenThenGet | src/lib/services/storageService.js:65-77 | in a browser the token read after `setToken(t)` is `t`, and the profile entry is as before |
| Storage.SetUserDataThenGet | src/lib/services/storageService.js:11-46 | a profile whose serialization parses back is read back unchanged, and the token is untouched |
| Storage.ClearedReadsNothing | src/lib/services/storageService.js:51-55 | after `clearUserData()` in a browser, the token, the profile and every profile field read as null |
| Storage.StorageService.SetUserData | src/lib/services/storageService.js:39-46 | stores the serialized profile in a browser; a throwing serializer or no browser leaves storage unchanged; the token is never touched |
| Storage.StorageService.ClearUserData | src/lib/services/storageService.js:51-55 | in a browser removes both keys, so no token can be read; outside a browser changes nothing |
| Storage.StorageService.ClearToken | src/lib/services/storageService.js:57-59 | removes only the token key; throws exactly when not in a browser, and then changes nothing |
| Storage.StorageService.SetToken | src/lib/services/storageService.js:74-77 | in a browser the token reads back as the value set; the profile read is unchanged; outside a browser nothing changes |
| Fetch.SetHeader | src/lib/services/fetchWithTokenRefresh.js:129-131 | `headers.set(name, value)`: the one entry of that name holds the value, every header of the same name in another case is gone, all other headers stay |
| Fetch.SetHeaderTwice | src/lib/services/fetchWithTokenRefresh.js:180-183 | setting the same header value twice, as the retry does, is setting it once |
| Fetch.Authorize | src/lib/services/fetchWithTokenRefresh.js:129-132 | with a truthy token `Authorization` holds `Bearer <token>`, no other-case spelling of it survives and every other header is kept; with a falsy token (none or `""`) the headers are left as they are |
| Fetch.RefreshRequest | src/lib/services/fetchWithTokenRefresh.js:164-171 | the refresh call is a POST to `<PUBLIC_API_URL>/api/refresh-token` with exactly the headers `Content-Type: application/json` and `Authorization: Bearer <token>`, `Bearer null` when no token is stored |
| Fetch.Exec | src/lib/services/fetchWithTokenRefresh.js:121-210 | the wrapper succeeds only with an ok response; every call appends at least one request to the log and leaves the earlier entries as they were, consumes at least one reply and schedules at least one reset; at `retryCount = 1` it consumes no refresh answer |
| Fetch.RefreshCycle | src/lib/services/fetchWithTokenRefresh.js:161-193 | the refresh sub-protocol appends the refresh request to the log first, leaving the earlier entries as they were; it consumes at least one refresh answer, and exactly one when started at `retryCount = 0`; it succeeds only with an ok response; outside a browser it never navigates |
| Fetch.Track | src/lib/services/fetchWithTokenRefresh.js:212-248 | `fetchWithProgress` succeeds only with an ok response, consumes exactly one reply and schedules exactly one reset |
| Fetch.FirstRequestCarriesToken | src/lib/services/fetchWithTokenRefresh.js:126-149 | the first request goes to the caller's URL with `Authorization: Bearer <token>` exactly when the stored token is truthy (replacing any caller header of that name in another case), and with the caller's headers as they are otherwise; the request log only grows |
| Fetch.RefreshOnlyOnSignature | src/lib/services/fetchWithTokenRefresh.js:159-185 | the refresh endpoint is called exactly when the first reply is a non-ok 401 with message `"Unauthenticated"` and `retryCount < 1`; one call makes at most `1 - retryCount` refreshes, so none once it is 1 |
| Fetch.RefreshRequestShape | src/lib/services/fetchWithTokenRefresh.js:164-171 | the refresh request is a POST to `<PUBLIC_API_URL>/api/refresh-token` with JSON content type and the old token as bearer |
| Fetch.NoRefreshAttempt | src/lib/services/fetchWithTokenRefresh.js:149-209 | an attempt that is not refreshed makes one request. Ok: the response, progress at 100. Transport error: rethrown unchanged. Other non-ok: "Request failed with status N" (a 401 with an unparsable body rethrows the parse error). Store, navigations and refreshes untouched; one reset scheduled |
| Fetch.OkNeverRefreshes | src/lib/services/fetchWithTokenRefresh.js:152-156 | an ok first response is returned with progress at 100, no refresh and a single request |
| Fetch.RetriedUnauthenticatedFails | src/lib/services/fetchWithTokenRefresh.js:159-197 | at `retryCount = 1` a 401 "Unauthenticated" is not refreshed again but throws the status error |
| Fetch.RefreshThenRetry | src/lib/services/fetchWithTokenRefresh.js:173-185 | on refresh success the new token is stored and the caller's URL is requested again, as the third request of the call, with `Bearer <newToken>`; the call settles with the retry's reply; two resets are scheduled |
| Fetch.RefreshFailureTearsDown | src/lib/services/fetchWithTokenRefresh.js:186-201 | on refresh rejection in a browser the session is cleared, one navigation to `/auth/login?returnUrl=<encoded location>` is made and "Failed to refresh token." is thrown; outside a browser the `ReferenceError` of reading `window.location` is rethrown and nothing is cleared or navigated; a throwing refresh call is rethrown and tears nothing down |
| Fetch.NavigatesOnlyOnRefreshFailure | src/lib/services/fetchWithTokenRefresh.js:186-192 | the call navigates exactly when it throws the refresh failure, then exactly once, with no token left; outside a browser it never navigates |
| Fetch.SettledProgress | src/lib/services/fetchWithTokenRefresh.js:123-209 | when the call settles, progress is 100 on success and loading at no more than 90 on failure; a reset is pending for every request to the caller's URL, so on every exit path the record is idle once the pending timers have fired |
| Fetch.TrackNeverRefreshes | src/lib/services/fetchWithTokenRefresh.js:212-248 | `fetchWithProgress` sends the caller's headers unchanged, never refreshes, reads or writes no session, never navigates, throws the status error for every non-ok reply (401 included), and settles progress as above, idle once its timer has fired |
| Fetch.Client.Elapse | src/lib/services/fetchWithTokenRefresh.js:137-145 | `n` firings of the interval leave the record as `Ticks(old, n)` |
| Fetch.Client.FireResets | src/lib/services/fetchWithTokenRefresh.js:205-208 | the pending reset timers all fire, leaving the world `Fired` describes: the record is idle if any was pending |
| Fetch.Client.FetchWithTokenRefresh | src/lib/services/fetchWithTokenRefresh.js:121-210 | returns and leaves exactly the state `Exec` gives; the caller's `options.headers` becomes the authorized set and its method is kept |
| Fetch.Client.RefreshAndRetry | src/lib/services/fetchWithTokenRefresh.js:161-193 | the refresh sub-protocol produces what `RefreshCycle` gives, with the retry issued on a fresh copy of the options and, outside a browser, a rejected refresh rethrowing the `ReferenceError` of line 189 |
| Fetch.Client.Retry | src/lib/services/fetchWithTokenRefresh.js:173-185 | the new token is saved and the request issued again on a fresh copy of the options bearing it: the result and state are exactly those `Exec` gives for the retry |
| Fetch.Client.FetchWithProgress | src/lib/services/fetchWithTokenRefresh.js:212-248 | returns and leaves exactly the state `Track` gives |
| Functions.GetFirstError | src/lib/services/functionService.js:4-13 | null exactly for a missing object or one without properties; otherwise the value of its first property |
| Functions.SetPaginationData | src/lib/services/functionService.js:16-25 | throws exactly when `result.data` is missing; otherwise an object with exactly the keys `current_page, last_page, per_page, total`, in that order, each the value of that property of `result.data` |
| Functions.CapitalizeFirst | src/lib/services/functionService.js:59-62 | `""` for a missing or empty string; otherwise the same length, the first character upper-cased (no longer a lower-case letter), the rest unchanged |
| Functions.CapitalizeFirstIdempotent | src/lib/services/functionService.js:59-62 | capitalising an already capitalised string changes nothing |
| Functions.DeleteParam | src/lib/services/functionService.js:37 | `searchParams.delete(name)` removes every pair with that name and keeps all other pairs in order |
| Functions.ReplaceFirst | src/lib/services/functionService.js:29-35 | when the name is present, `set` keeps its first position, gives it the value and drops later duplicates; other pairs keep their order |
| Functions.SetParam | src/lib/services/functionService.js:29-35 | after `set(name, value)` exactly one pair has the name, holding the value; other pairs keep their order; an absent name is appended, a present one keeps its first position |
| Functions.OtherNamesKept | src/lib/services/functionService.js:29-37 | `set` and `delete` of one name leave the count and value of every other name, and the pairs outside any name set containing it, as they were |
| Functions.DeleteAbsent | src/lib/services/functionService.js:37 | deleting an absent name changes nothing |
| Functions.SetPresent | src/lib/services/functionService.js:29-35 | setting the value a name already holds, once, changes nothing |
| Functions.RewriteParams | src/lib/services/functionService.js:29-38 | the four rewriting steps keep every pair of a parameter they do not manage, in order |
| Functions.RewriteParamsSpec | src/lib/services/functionService.js:29-38 | after the rewrite there is exactly one `per_page`, one `page` (1 when reset), one `sort_order`; `search` holds a non-empty term once or is absent for an empty one; every other parameter is kept, in order |
| Functions.RewriteParamsIdempotent | src/lib/services/functionService.js:29-38 | rewriting an already rewritten query with the same arguments changes nothing |
| UrlEncoding.Utf8 | src/lib/services/functionService.js:40-40 | the UTF-8 encoding of a code point that `url.toString()` percent-encodes: one byte exactly for ASCII, otherwise two to four bytes of 0x80 or more |
| UrlEncoding.LeadingUtf8 | src/lib/services/functionService.js:28-40 | the decoder reads one encoded code point back, with its length, whatever bytes follow |
| UrlEncoding.Utf8RoundTrip | src/lib/services/functionService.js:28-40 | UTF-8 decoding gives back every encoded string |
| UrlEncoding.HexDigit | src/lib/services/functionService.js:40-40 | the serializer's upper-case hexadecimal digit is a kept character and the parser reads it back as its value |
| UrlEncoding.EncodeComponent | src/lib/services/functionService.js:40-40 | a serialized name or value holds only `+`, `%` and the kept characters, so never `=` or `&` |
| UrlEncoding.Pair | src/lib/services/functionService.js:40-40 | a serialized pair holds exactly one `=` and no `&` |
| UrlEncoding.Query | src/lib/services/functionService.js:40-40 | the serialized query has one `=` per pair and one `&` between neighbouring pairs |
| UrlEncoding.QueryKeepsPairCount | src/lib/services/functionService.js:40-41 | queries with different numbers of pairs never serialize to the same string |
| UrlEncoding.Split | src/lib/services/functionService.js:28-28 | the parser cuts the query into one piece more than it holds `&` signs |
| UrlEncoding.ParseQuery | src/lib/services/functionService.js:28-28 | `new URL(...)` reads at most one pair per `&`-separated piece of the query |
| UrlEncoding.DecodeByte | src/lib/services/functionService.js:28-40 | the percent-decoder reads every serialized byte (`+`, a kept character or `%XX`) back as that byte, whatever follows |
| UrlEncoding.DecodeEncodedBytes | src/lib/services/functionService.js:28-40 | percent-decoding undoes percent-encoding on every byte string |
| UrlEncoding.ComponentRoundTrip | src/lib/services/functionService.js:28-40 | decoding a serialized name or value gives the string back |
| UrlEncoding.ParsePairRoundTrip | src/lib/services/functionService.js:28-40 | a serialized pair is never empty and is read back as the same name and value |
| UrlEncoding.ParseQueryRoundTrip | src/lib/services/functionService.js:28-40 | the parser reads back exactly the pairs the serializer wrote, in order, duplicates and empty names or values included |
| Functions.Href | src/lib/services/functionService.js:40-40 | `url.toString()` starts with origin and path, ends with the fragment, and has `?` after the path exactly where a query follows: with no query it is origin, path and fragment alone |
| Functions.HrefRoundTrip | src/lib/services/functionService.js:28-40 | parsing a serialized URL gives it back, parameters included, when the parser splits the href where it was joined |
| Functions.UpdatedUrl | src/lib/services/functionService.js:28-38 | the rebuilt URL keeps origin, path, fragment and every unmanaged parameter |
| Functions.ReapplyNavigatesNowhere | src/lib/services/functionService.js:40-43 | from the href `updateUrlParams` produced, calling it again with the same arguments does not navigate, given a URL parser that splits that href into origin, path, query and fragment where it was joined |
| Functions.Browser.Goto | src/lib/services/functionService.js:42 | the page records a replacing, non-scrolling navigation to the target string, and the href becomes it |
| Functions.Browser.UpdateUrlParams | src/lib/services/functionService.js:27-44 | the current href is parsed and rewritten; the page navigates, replacing without scrolling, to the serialized result exactly when that string differs from the current href string; otherwise nothing changes |
| Functions.Browser.GoToPage | src/lib/services/functionService.js:46-52 | `updateUrlParams` with the page never reset and the default sort order `ASC` |
| Functions.Browser.NextPage | src/lib/services/functionService.js:54-56 | heads for page `current_page - 1` through `goToPage` |

## Left out

- The browser's `fetch`, `Headers`, `Response` and JSON body reading are
  replaced by scripted outcomes. A refresh answer whose body fails to parse
  is a `RefreshRaised` outcome.
- Fetch.Authorize: header names are matched without regard to case when the
  bearer header is set, as `Headers.set` does. `new Headers(...)` also
  combines two caller headers whose names differ only in case into one entry.
  That combination is not modelled: the other caller headers keep the keys
  they were given.
- Only the `method` and `headers` of the request options are modelled. Other
  options are passed through by the source and play no part in its logic.
- Timer interleaving: interval firings are counted per awaited call, and the
  500 ms resets are fired after the call settles. The model does not capture
  the outer frame's reset firing while a retry started at line 185 is still
  in flight. That can happen because that line returns the retry's promise
  without awaiting it, so the outer `finally` runs at once.
- Fetch.SettledProgress: the values it states at settle time after a
  refresh and retry (progress 100 on success, loading at no more than 90 on
  failure) assume that the resets fire only after the call settles. In the
  source the outer frame's reset is scheduled as soon as line 185 returns,
  so a retry slower than 500 ms finds the record reset to idle; the retry's
  interval then ticks with `isLoading` false, and a successful retry
  settles at `{isLoading: false, progress: 100}`. The lemma's last clause,
  idle once every reset has fired, holds either way.
- Concurrency between several requests sharing `progressStore` is left out.
- The subscription mechanics of Svelte stores are left out. Only the
  published value is modelled.
- `goto` and `encodeURIComponent` are an appended log entry and a function
  parameter. `window.location.pathname + window.location.search` is a fixed
  string.
- Console logging is left out (`console.log`, `console.error`).
- `localStorage` is a map from strings to strings. `JSON.parse` and
  `JSON.stringify` are function parameters, with `None` meaning "threw".
  Numbers in a parsed profile are integers (`Field.Number`), so a
  fractional number, whose `String` form reads `"1.5"`, and `NaN`, which is
  falsy, are not modelled.
- Functions.Browser.UpdateUrlParams: the part of the URL parser that splits
  an href into origin, path, query string and fragment is a parameter
  (`locate`), not a definition. The query string is then read with the
  application/x-www-form-urlencoded parser, which is defined, and the
  serializer is defined too, so the navigation decision compares a real
  serialized string with the current href string. Scheme and host
  normalization are not modelled: origin, path and fragment are written as
  the parser gave them.
- UrlEncoding.Utf8Decode: a byte that starts no well-formed UTF-8 sequence
  becomes one U+FFFD. The WHATWG Encoding Standard's decoder replaces a
  maximal ill-formed subpart (such as a truncated three-byte sequence) by a
  single U+FFFD, so on ill-formed input the count of U+FFFD can differ.
  Well-formed input, which is all the round trip needs, decodes the same.
- Functions.CapitalizeFirst: upper-cases ASCII letters only. JavaScript's
  full Unicode case mapping, including characters that expand, is not
  modelled.
- Functions.GetFirstError: inputs that are truthy but not objects (a
  non-empty string, a number) are not modelled. Every falsy input is `None`.
- Functions.Browser.UpdateUrlParams: the search term is a string, with a
  null or undefined term taken as `""` (both are falsy). Page numbers and
  page sizes are integers, so `NaN` and fractional numbers are not modelled.
  Their text is plain decimal (`Common.NatToString`), which is what
  `String` writes below 10^21; from 10^21 on `String` switches to exponent
  form (`"1e+21"`), which is not modelled.
- Functions.Browser.NextPage: takes `pagination.current_page` as an
  integer. A missing pagination object, which throws, is not modelled.
- Fetch.Client.FetchWithTokenRefresh: a throw in lines 126-133, which run
  before the `try` (a storage access error in `getToken`, or a caller header
  that `new Headers` rejects), is not modelled: `getToken` and `Headers` are
  total here. In the source such a throw skips the `finally`, so no reset
  is scheduled and progress stays at `{isLoading: true, progress: 0}`.
- Fetch.Client.FetchWithTokenRefresh: requires the script to hold enough
  outcomes for every call the wrapper can make. That is at most two requests
  and one refresh from `retryCount = 0`.
- `debounce` of functionService.js is not part of this model. It is a timer
  wrapper with no logic of its own.
- Lines 1-99 of fetchWithTokenRefresh.js are commented-out code. They, the build configuration and
  `src/routes/+page.server.js` are not part of this model.
