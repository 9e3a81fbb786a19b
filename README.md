# Marketplace client utilities, modelled in Dafny

This project models the three self-contained utility modules of a React social
marketplace front end and proves what they promise:

- `marketplaceApi` (src/utils/marketplaceApi.js) is the HTTP client of the marketplace. It
  keeps the closure state `BASE` and `onAuthFail` and reads and writes the `token` and
  `refreshToken` entries of `localStorage`. Its `request` function builds the URL and the
  headers and then runs a retry loop:
  - abort and network errors are retried with exponential backoff (200 ms, 400 ms, …);
  - a first 401 triggers one token refresh through `/api/auth/refresh`;
  - other errors are normalised into `ApiError`s.

  The marketplace endpoints (`getListings` … `getListingChats`) build a path and the
  options of one `request` call. `createListing` and `updateListing` also fill a FormData.
- `jwt` (src/utils/jwt.js) reads the payload of a JWS compact serialization (section 7.1 of
  RFC 7515) without checking the signature. It maps the base64url alphabet (section 5 of
  RFC 4648) to the standard one (section 4) and decodes the bytes through `%hh` escapes
  and `decodeURIComponent`. `getJwtRole` returns the `role` claim.
- `media` (src/utils/media.js) resolves a stored media path into an absolute URL on the API
  host; `defaultAvatar` is the placeholder avatar's URL.

Modules:

- `Strings` holds prefix and substring tests, ASCII lower-casing, `join`, decimal digits
  and powers of two.
- `Json` holds parsed JSON values, JavaScript truthiness, `v?.key` and `String(v)`.
- `Media` models `mediaUrl` and `defaultAvatar`.
- `Jwt` models `split`, the alphabet mapping, the `%hh` escaping and its inverse,
  `decodeJwt` and `getJwtRole`.
- `RequestLoop` gives one `request` call as a function of what the network answers.
  - Each `fetch` of the call's URL is answered by the next element of a scripted sequence.
  - The refresh endpoint's answer is one more input.
  - `Step` is one iteration of the `while` loop:
    - it counts the attempt;
    - it handles the answer in `Handle`, which dispatches to `Catch` (the `catch` block),
      `RefreshOn401` (the first-401 branch) and `Settle` (the other responses).
  - `Run` iterates `Step` until the call returns or throws, or no attempt is left. `Request`
    is `Run` from the initial state.
  - The loop state also records what the call did: the headers of every fetch, every
    backoff sleep, every refresh attempt and every call of `onAuthFail`.
- `RequestProperties` proves the guarantees of one call for every script of answers,
  through an invariant kept by every iteration.
- `RequestScenarios` proves what one iteration does for each kind of answer, plus one
  worked call.
- `Endpoints` holds the endpoint paths and options, and the FormData of `createListing`
  and `updateListing` as the list of appended entries. `fd.getAll(name)` is `GetAll`.
- `MarketplaceApi` is the client object, a class:
  - its fields are `base`, `onAuthFail`, `storage` and a count of `onAuthFail()` calls;
  - `SetBaseUrl`, `SetOnAuthFail` and `AttemptRefresh` update those fields;
  - `Request` assembles the URL and the headers and runs the loop in `RetryLoop`;
  - `Attempt` is the `try` block, `Unauthorized` its 401 branch, and `HandleError` the
    `catch` block;
  - `Request` is proved to produce the outcome, the fetches, the sleeps and the new storage
    that `RequestLoop.Request` specifies.

These functions are definitions, stated by the lemmas about them, and carry no
contract of their own:

- `Strings`: `StartsWith`, `OccursAt`, `Contains`, `Join`, `DecimalDigit` and `DecimalValue`.
- `Json`:
  - `Truthy` and `TruthyOpt` (JavaScript truthiness);
  - `Field` (`v?.key`);
  - `Display` (`String(v)`).
- `Media.MediaUrl`.
- `Jwt`:
  - `Count`, `UrlToStandard`, `StandardToUrl`, `HexDigit` and `HexValue`;
  - `DecodeUriComponent` and `DecodePayloadSegment`.
- `RequestLoop`:
  - `Run`, `Request` and `Start`;
  - `StoredToken` (`getToken()` when truthy) and `HasRefreshToken` (`getRefreshToken()` is
    truthy);
  - `IsOk` (`res.ok`);
  - `Retryable`, `IsNetworkError`, `ErrorPayload` and `Exhausted`;
  - `AuthorizationValue` and `RefreshUrl`;
  - `CarriesMessage`: `payload?.message` is truthy for the non-ok body;
  - `Scripted`: the scripted answers cover every fetch the call may make.
- `RequestProperties.ResolvesWith`: what a 2xx response resolves to.
- `Endpoints`:
  - the value tests `TruthyValue`, `Nullish`, `IsArray`, `IsObject`, `HasKey` and
    `UniqueKeys`;
  - the coercion `Text`;
  - `Elements`: the elements `forEach` visits;
  - the FormData builders `Appends`, `Optional`, `IfTruthy`, `FilesOf`, `FileParts`,
    `CreateListingEntries`, `UpdateEntry` and `UpdateEntries`;
  - `Collected`: what `getAll(name)` collects from one guarded `append`;
  - `IsTextField` and `TextField`: the text fields of `createListing`'s form and `form[key]`;
  - `WithDefaults`: the defaults `retries = 2`, `expectJson = true` of `request`'s options;
  - the paths `ListingPath` and the query object `SearchParams`;
  - the endpoint functions `GetListings`, `GetListing`, `DeleteListing`,
    `UploadListingImage`, `SearchListings`, `ContactSeller` and `GetListingChats`.
- `MarketplaceApi.CallOf`: the `RequestLoop.Call` that one `request` call reads.

The browser's primitives are parameters of the model:

- `fetch` is the scripted answers, and `attemptRefresh`'s fetch is a `RefreshReply`.
- `JSON.parse` and `res.json()` are a `parse` oracle.
- `atob` is an `atob` oracle.
- The UTF-8 half of `decodeURIComponent` is a `utf8` oracle.
- `JSON.stringify` in the forms is a `stringify` oracle.
- `new URLSearchParams(params).toString()` is an `encode` oracle.
- `import.meta.env.VITE_API_BASE` is an optional setting.

## Model

| member | source | states |
|---|---|---|
| Strings.Lower | src/utils/marketplaceApi.js:152 | the modelled `toLowerCase()` keeps the length and lowers each character on its own (the Unicode cases where this differs are under "## Left out") |
| Strings.LowerChar | src/utils/marketplaceApi.js:152 | an upper-case ASCII letter becomes its own lower-case letter (code point + 32), and every other character is kept |
| Strings.LowerLacks | src/utils/marketplaceApi.js:152 | a lower-case letter absent from a string in both cases is absent from its lower-cased form |
| Strings.MissingCharNotContained | src/utils/marketplaceApi.js:152 | a string lacking one of a word's characters does not contain the word |
| Strings.NatToString | src/utils/marketplaceApi.js:135 | the status in "Request failed: <status>" is a non-empty run of decimal digits |
| Strings.NatToStringValue | src/utils/marketplaceApi.js:135 | those digits spell the number in decimal, with no leading zero |
| Strings.Pow2 | src/utils/marketplaceApi.js:155 | `Math.pow(2, k)` is at least 1 |
| Media.ApiBase | src/utils/media.js:2 | `VITE_API_BASE || "http://localhost:8080"` never yields an empty base |
| Media.MediaUrlCases | src/utils/media.js:4-8 | a missing or empty path gives ""; a path starting with "http" is returned unchanged; otherwise the result is the API base followed by the path |
| Media.MediaUrlEndsWithPath | src/utils/media.js:6-7 | every non-empty path is a suffix of its URL |
| Media.MediaUrlIdempotent | src/utils/media.js:4-8 | when the API base starts with "http", resolving a resolved URL again changes nothing |
| Media.DefaultApiBaseIsHttp | src/utils/media.js:2 | the default base starts with "http", so the idempotence above holds for it |
| Media.RelativeBaseNotIdempotent | src/utils/media.js:7 | with a relative base the resolver is not idempotent: "/a" resolves to "/api/a" and then to "/api/api/a" |
| Media.DefaultAvatar | src/utils/media.js:10-11 | `defaultAvatar` has the API base as prefix and is `mediaUrl("/media/avatars/default.png")` |
| Jwt.Split | src/utils/jwt.js:7 | `split` always yields at least one piece |
| Jwt.SplitLength | src/utils/jwt.js:7-8 | `split(".")` yields one piece more than there are dots, so three pieces means exactly two dots |
| Jwt.SplitPiecesFree | src/utils/jwt.js:7 | no piece contains the separator |
| Jwt.JoinSplit | src/utils/jwt.js:7 | joining the pieces with the separator gives the token back |
| Jwt.SplitJoin | src/utils/jwt.js:7 | splitting the join of separator-free pieces gives the pieces back |
| Jwt.ReplaceAll | src/utils/jwt.js:10 | a global one-character `replace` keeps the length and replaces exactly the occurrences of the pattern |
| Jwt.ToStandardAlphabet | src/utils/jwt.js:10 | the payload segment keeps its length; each `-` becomes `+`, each `_` becomes `/`, and every other character is kept |
| Jwt.ToUrlAlphabet | src/utils/jwt.js:10 | the inverse mapping keeps the length and maps each character back on its own |
| Jwt.AlphabetRoundTrip | src/utils/jwt.js:10 | for a base64url segment, the inverse mapping gives the segment back |
| Jwt.ToHex | src/utils/jwt.js:14 | `n.toString(16)` has at least one digit |
| Jwt.PadStart2 | src/utils/jwt.js:14 | `padStart(2, "0")` leaves a string of two or more characters unchanged, and otherwise puts zeros before it up to two characters |
| Jwt.Escape | src/utils/jwt.js:14 | every byte's escape is three characters long |
| Jwt.PaddedHexOfByte | src/utils/jwt.js:14 | for a byte, `toString(16).padStart(2, "0")` is its two lower-case hex digits |
| Jwt.EscapeIsPaddedHex | src/utils/jwt.js:14 | the mapped string `"%" + hex` is the byte's three-character escape |
| Jwt.PercentEncode | src/utils/jwt.js:12-15 | the escaped string is three times as long as the binary string |
| Jwt.PercentEncodeAt | src/utils/jwt.js:12-15 | byte i occupies exactly characters 3i to 3i+2 of the escaped string, as its escape |
| Jwt.Unescape | src/utils/jwt.js:11-16 | a string that decodes is three characters per byte |
| Jwt.UnescapePercentEncode | src/utils/jwt.js:11-16 | percent-decoding the escaped string gives the bytes back exactly |
| Jwt.UnescapeEscape | src/utils/jwt.js:11-16 | decoding reads a leading escape as its byte and goes on with the rest |
| Jwt.DecodeJwt | src/utils/jwt.js:4-20 | a missing or empty token gives null, and a payload is returned only for a token with exactly two dots; any other failure also gives null, since the result is an Option |
| Jwt.DecodeJwtRejectsShape | src/utils/jwt.js:7-8 | a token that does not split into three segments gives null, whatever the decoders do |
| Jwt.DecodeJwtReadsOnlyPayload | src/utils/jwt.js:7-17 | a token of three dot-free segments decodes to what its middle segment decodes to; the `%hh` detour is exactly UTF-8 decoding, and header and signature are never read |
| Jwt.GetJwtRole | src/utils/jwt.js:23-26 | the result is the `role` claim exactly when the payload decodes to an object whose `role` is truthy, and null otherwise |
| RequestLoop.RequestUrl | src/utils/marketplaceApi.js:77 | a path starting with "http" is used as is; otherwise the URL is the base, one "/", and the path without its leading slash |
| RequestLoop.RequestUrlFrames | src/utils/marketplaceApi.js:77 | for a relative path, the base is a prefix of the URL and the path a suffix |
| RequestLoop.InitialHeaders | src/utils/marketplaceApi.js:80-83 | Content-Type is present iff the body is not a FormData or the caller gives one, and is "application/json" unless the caller overrides it; Authorization is present iff a token is stored or the caller gives one, and is "Bearer <token>" unless overridden; the caller's headers win; no other key is added |
| RequestLoop.Reauthorized | src/utils/marketplaceApi.js:108-115 | after a refresh only Authorization changes, to the new bearer value, and it is always present |
| RequestLoop.AttemptRefresh | src/utils/marketplaceApi.js:50-73 | the refresh endpoint is fetched iff a refresh token is stored; a failed refresh leaves the storage unchanged; a successful one adds only the key "token" and keeps the value of every key other than "token" and "refreshToken" |
| RequestLoop.AttemptRefreshSucceedsIff | src/utils/marketplaceApi.js:50-73 | the refresh succeeds exactly when a refresh token is stored and the endpoint answers 2xx with a JSON body whose `token` is truthy; then "token" holds that token, and "refreshToken" holds the reply's `refreshToken` when truthy and its old value otherwise |
| RequestLoop.NonOkError | src/utils/marketplaceApi.js:125-136 | a non-ok response raises an ApiError carrying the response's status |
| RequestLoop.NonOkMessage | src/utils/marketplaceApi.js:127-135 | the error's message is the body's truthy "message" when the body is a JSON object carrying one; otherwise (a text body, an unparsable body, no truthy "message") it is "Request failed: " followed by the status in decimal |
| RequestLoop.AuthRequiredNotRetryable | src/utils/marketplaceApi.js:121 | "Authentification requise" is not an error the catch block retries |
| RequestLoop.NoWNotNetwork | src/utils/marketplaceApi.js:152 | a message without the letter w in either case never reads as a network error |
| RequestLoop.RunNext | src/utils/marketplaceApi.js:89-165 | an iteration that continues hands the loop on to the next iteration with the new state |
| RequestLoop.RunDone | src/utils/marketplaceApi.js:89-165 | an iteration that returns or throws ends the call with that outcome |
| RequestLoop.Backoff | src/utils/marketplaceApi.js:155 | every backoff sleep lasts at least 200 ms |
| RequestLoop.Catch | src/utils/marketplaceApi.js:147-164 | the catch block never changes `attempt` |
| RequestLoop.RefreshOn401 | src/utils/marketplaceApi.js:103-123 | the first-401 branch never changes `attempt`, including when it continues after a refresh |
| RequestLoop.Settle | src/utils/marketplaceApi.js:125-146 | handling any other response never changes `attempt` |
| RequestLoop.Handle | src/utils/marketplaceApi.js:94-164 | the loop body after `attempt += 1` never changes `attempt` again |
| RequestLoop.Step | src/utils/marketplaceApi.js:89-165 | every iteration increments `attempt` exactly once |
| RequestLoop.RunExhausted | src/utils/marketplaceApi.js:89-168 | once `attempt > retries` the loop exits and the call throws "Request failed after retries", or the last error's message |
| RequestProperties.RequestGuarantees | src/utils/marketplaceApi.js:76-169 | see the list after this table |
| RequestProperties.RunInv | src/utils/marketplaceApi.js:85-165 | the invariant (counted attempts, refresh bookkeeping, headers of every fetch, storage after a refresh, backoff schedule) holds when the call ends |
| RequestProperties.StepInv | src/utils/marketplaceApi.js:89-165 | every iteration keeps the invariant |
| RequestProperties.HandleInv | src/utils/marketplaceApi.js:94-164 | handling any fetch answer, after the attempt is counted, restores the invariant |
| RequestProperties.CountAttemptMid | src/utils/marketplaceApi.js:89-100 | counting the attempt and sending the current headers keeps the attempt count equal to the number of fetches |
| RequestProperties.CatchInv | src/utils/marketplaceApi.js:147-164 | the catch block keeps the invariant, whatever error reaches it |
| RequestProperties.CatchShape | src/utils/marketplaceApi.js:147-164 | the catch block changes only `lastErr`, plus one sleep after the current attempt when it retries |
| RequestProperties.ScheduleAppend | src/utils/marketplaceApi.js:153-156 | a sleep after the current attempt extends the increasing schedule of earlier sleeps |
| RequestProperties.RefreshOn401Inv | src/utils/marketplaceApi.js:103-123 | the first-401 branch keeps the invariant |
| RequestProperties.RefreshOkInv | src/utils/marketplaceApi.js:106-117 | a successful refresh keeps the invariant: the headers from then on carry the new Authorization |
| RequestProperties.RefreshFailInv | src/utils/marketplaceApi.js:118-122 | a failed refresh keeps the invariant and counts one `onAuthFail()` call when it is a function |
| RequestProperties.SettleInv | src/utils/marketplaceApi.js:125-146 | any other response keeps the invariant |
| RequestProperties.HandleRefreshFailure | src/utils/marketplaceApi.js:118-122 | a refresh that fails while an answer is handled ends the call there, with "Authentification requise" |
| RequestProperties.RunRefreshFailureEnds | src/utils/marketplaceApi.js:118-122 | a failed refresh is the last thing the call does: it throws "Authentification requise" with no further fetch |
| RequestProperties.RunReturnedFromOk | src/utils/marketplaceApi.js:138-146 | the call resolves only on a 2xx answer to the last fetch, and with what it carried: the response itself when no JSON is expected, its parsed body when labelled JSON, its text otherwise |
| RequestProperties.HandleReturned | src/utils/marketplaceApi.js:94-164 | one iteration resolves the call only on a 2xx answer, with what that answer carried |
| RequestProperties.RunFetches | src/utils/marketplaceApi.js:85-90 | while an attempt is left, the loop makes at least one more fetch |
| RequestScenarios.RefreshOnLastAttemptExhausts | src/utils/marketplaceApi.js:89-168 | a refresh that succeeds on the last permitted attempt leaves the loop through `continue` without fetching again, and the call throws the exhaustion error |
| RequestScenarios.RefreshThenResend | src/utils/marketplaceApi.js:103-117 | with attempts left, a successful refresh continues with the stored new token in Authorization and nothing else changed |
| RequestScenarios.RefreshFailureThrows | src/utils/marketplaceApi.js:118-122 | a failed refresh throws "Authentification requise" with status 401 whatever attempts remain, calls `onAuthFail` once when it is a function, and leaves the storage unchanged |
| RequestScenarios.NonOkSurfaces | src/utils/marketplaceApi.js:125-160 | a non-2xx answer other than a first 401 is thrown at once as an ApiError with its status, unless its message mentions "network" |
| RequestScenarios.NonOkNetworkRetried | src/utils/marketplaceApi.js:125-156 | a non-2xx answer other than a first 401 whose message mentions "network" in any case is retried, with attempts left, after a `Backoff` sleep, as the last error |
| RequestScenarios.NetworkInAnyCase | src/utils/marketplaceApi.js:152 | the network test ignores case: an ApiError saying "Network down" is a network error |
| RequestScenarios.SecondUnauthorizedSurfaces | src/utils/marketplaceApi.js:103-135 | a second 401 is not refreshed again and, unless its message mentions "network", surfaces as an ApiError with status 401 (otherwise `NonOkNetworkRetried` applies) |
| RequestScenarios.RetryableErrorBacksOff | src/utils/marketplaceApi.js:151-156 | an abort or network error with attempts left is recorded and retried after 200·2^(attempt−1) ms |
| RequestScenarios.LastAttemptErrorWrapped | src/utils/marketplaceApi.js:159-163 | on the last attempt an error that is not an ApiError is wrapped in one with its message (or "Network error") and status null |
| RequestScenarios.OkResolves | src/utils/marketplaceApi.js:138-146 | a 2xx answer is returned raw when no JSON is expected, parsed when labelled JSON, and as text otherwise |
| RequestScenarios.TwoFailuresThenText | src/utils/marketplaceApi.js:89-165 | a network failure and an abort, then a text answer: the call returns the text after sleeping 200 and 400 ms, and sent the same headers three times |
| Endpoints.Part | src/utils/marketplaceApi.js:187 | `append` stores a file exactly when given a file |
| Endpoints.GetAll | src/utils/marketplaceApi.js:186-195 | `fd.getAll(name)` never has more values than the FormData has entries |
| Endpoints.GetAllConcat | src/utils/marketplaceApi.js:186-195 | `getAll` on appended entries is `getAll` on the earlier ones followed by `getAll` on the later ones |
| Endpoints.Get | src/utils/marketplaceApi.js:206 | a missing key reads as `undefined` |
| Endpoints.AppendEach | src/utils/marketplaceApi.js:194 | the `forEach` loop appends exactly those entries after the existing ones |
| Endpoints.AppendIf | src/utils/marketplaceApi.js:187-192 | a guarded `append` adds the entry exactly when its guard holds |
| Endpoints.GetAllOptional | src/utils/marketplaceApi.js:187-192 | `getAll` of a guarded append collects its value under its name exactly when the guard holds |
| Endpoints.GetAllGroups | src/utils/marketplaceApi.js:186-195 | `getAll` on the seven groups of `createListing` entries is the concatenation of `getAll` on each group |
| Endpoints.GetAllAppends | src/utils/marketplaceApi.js:194 | `getAll` of the files name gives one value per element, and no other name gets any |
| Endpoints.CreateListingForm | src/utils/marketplaceApi.js:186-195 | the FormData of `createListing`, built one `append` at a time, holds the entries of the field-by-field description in order |
| Endpoints.CreateListingGetAll | src/utils/marketplaceApi.js:186-195 | `getAll` on that FormData collects each field's contribution in order |
| Endpoints.CreateListingTextField | src/utils/marketplaceApi.js:187-191 | title, description, currency and category are sent once each, as given, exactly when truthy |
| Endpoints.TextFieldCollected | src/utils/marketplaceApi.js:187-192 | of the six optional fields, the name of a text field collects that field alone, exactly when it is truthy |
| Endpoints.CreateListingPrice | src/utils/marketplaceApi.js:189 | the price is sent as `String(price)` unless it is null or undefined, so a price of 0 is sent |
| Endpoints.CreateListingMetadata | src/utils/marketplaceApi.js:192 | the metadata is sent as its JSON text exactly when truthy |
| Endpoints.CreateListingFiles | src/utils/marketplaceApi.js:193-195 | "files" receives one value per element of a files array, and nothing otherwise |
| Endpoints.CreateListingOtherNames | src/utils/marketplaceApi.js:186-195 | `createListing` appends under no other name |
| Endpoints.GetAllFilesOf | src/utils/marketplaceApi.js:193-195 | the files array contributes only to "files" |
| Endpoints.UpdateListingForm | src/utils/marketplaceApi.js:207-211 | the `Object.entries(updates).forEach` loop appends exactly each entry's contribution, entry after entry |
| Endpoints.UpdateListingGetAll | src/utils/marketplaceApi.js:208-211 | when the updates have distinct keys, `getAll(key)` on the whole FormData is exactly what that key's own entry appends; no other entry contributes |
| Endpoints.GetAllUpdateEntry | src/utils/marketplaceApi.js:209-210 | an entry appends only under its own key, so `getAll` of any other name gets nothing from it |
| Endpoints.GetLast | src/utils/marketplaceApi.js:208 | reading a key reads the last entry when it has that key, and the earlier entries otherwise |
| Endpoints.ListingsPath | src/utils/marketplaceApi.js:176-177 | "?qs" is appended only when the query string is non-empty |
| Endpoints.CreateListing | src/utils/marketplaceApi.js:184-202 | `createListing` POSTs that FormData to the listings path with the default options |
| Endpoints.UpdateListing | src/utils/marketplaceApi.js:204-215 | `updateListing` PUTs a FormData when `updates.files` is truthy and the updates object as JSON otherwise |
| Endpoints.Assign | src/utils/marketplaceApi.js:228 | assigning a key keeps every existing key in its place |
| Endpoints.GetAssign | src/utils/marketplaceApi.js:228 | after `obj[key] = v`, the key reads v and every other key is unchanged |
| Endpoints.Spread | src/utils/marketplaceApi.js:228 | a spread keeps the target's keys in their places |
| Endpoints.GetSpread | src/utils/marketplaceApi.js:228 | after `{ ...target, ...source }` a key has the source's value when the source has it, and the target's otherwise |
| Endpoints.SearchParamsContent | src/utils/marketplaceApi.js:227-229 | the search parameters put "q" first, hold the query unless the options carry their own "q", and hold the options' values for every other key |
| Endpoints.EndpointUrl | src/utils/marketplaceApi.js:77 | every endpoint path is relative, so the fetched URL is the base followed by the path |
| Endpoints.EndpointPaths | src/utils/marketplaceApi.js:175-240 | `ListingsRoot`, `ListingPath` and the paths of `getListings`, `getListing`, `deleteListing`, `uploadListingImage`, `searchListings`, `contactSeller` and `getListingChats` start with "/api/marketplace/"; `CreateListing` and `UpdateListing` ensure their paths are `ListingsRoot` and `ListingPath`, so theirs do too |
| MarketplaceApi.HandleError | src/utils/marketplaceApi.js:147-164 | the catch block computes what `RequestLoop.Catch` specifies: continue after one sleep, or end with the rethrown or wrapped error |
| MarketplaceApi.MarketplaceApi.constructor | src/utils/marketplaceApi.js:35-36 | `BASE` starts as the default base and `onAuthFail` as null |
| MarketplaceApi.MarketplaceApi.SetBaseUrl | src/utils/marketplaceApi.js:38-40 | `setBaseUrl` replaces `BASE` and changes nothing else |
| MarketplaceApi.MarketplaceApi.SetOnAuthFail | src/utils/marketplaceApi.js:42-44 | `setOnAuthFail` replaces the callback and changes nothing else |
| MarketplaceApi.MarketplaceApi.AttemptRefresh | src/utils/marketplaceApi.js:50-73 | the method returns and stores what `RequestLoop.AttemptRefresh` specifies, and fetches `${BASE}/api/auth/refresh` exactly when a refresh token is stored |
| MarketplaceApi.MarketplaceApi.Unauthorized | src/utils/marketplaceApi.js:103-123 | the first-401 branch does what `RequestLoop.RefreshOn401` specifies, including the `onAuthFail()` call |
| MarketplaceApi.MarketplaceApi.Attempt | src/utils/marketplaceApi.js:94-164 | one pass of the loop body, after `attempt += 1`, does what `RequestLoop.Handle` specifies |
| MarketplaceApi.MarketplaceApi.RetryLoop | src/utils/marketplaceApi.js:85-168 | the `while` loop ends with the outcome, fetches, sleeps, storage and `onAuthFail()` calls of `RequestLoop.Run` |
| MarketplaceApi.MarketplaceApi.Request | src/utils/marketplaceApi.js:76-169 | `request` fetches the assembled URL and ends as `RequestLoop.Request` specifies, from the headers built from the storage it started with |
| MarketplaceApi.MarketplaceApi.Send | src/utils/marketplaceApi.js:175-240 | an endpoint's call is `request` of its path and options |

`RequestProperties.RequestGuarantees` states these guarantees of one `request` call, for
every script of answers:

- it fetches the URL at most `retries + 1` times, counting the fetch that follows a
  refresh, and at least once when `retries >= 0`;
- with negative `retries` it makes no fetch and throws "Request failed after retries";
- it tries the refresh at most once, and fetches the refresh endpoint at most once;
- it calls `onAuthFail` exactly when the refresh failed and the callback is a function;
- a failed refresh ends the call with "Authentification requise" (401);
- every fetch carries the initial headers, except that the fetches after a successful
  refresh carry the new Authorization value;
- the storage changes only through a successful refresh, and then holds exactly what
  `RequestLoop.AttemptRefresh` stored, starting from the initial storage;
- each backoff sleep follows a distinct attempt that leaves another to make, comes in
  increasing order, and lasts `Backoff` of its attempt;
- the call resolves only on a 2xx answer to its last fetch: with the response itself when
  no JSON is expected, with the parsed body when the response is labelled JSON, and with
  the body's text otherwise.

## Left out

- The timeout is left out: `AbortController`, `setTimeout` and `clearTimeout` are not
  modelled. An abort is one of the scripted answers (an `AbortError` rejection).
- `sleep` is recorded as a `Sleep` entry with its delay; nothing waits.
- `fetch`, `res.json()`, `res.text()`, `JSON.parse`, `JSON.stringify`, `atob`, the UTF-8
  decoding of `decodeURIComponent` and `URLSearchParams` are not modelled. They appear as
  inputs or oracle parameters. A failure of `res.text()` is not modelled either.
- The request body is not serialised for the wire. Line 98 only hands the body to `fetch`;
  the model keeps it as `Body` in the options.
- The `raw` field of `ApiError` is not modelled, because nothing in the core reads it.
- Header names are case-sensitive map keys; the Fetch `Headers` normalisation of
  names is not modelled.
- `console.warn` in `attemptRefresh` is not modelled.
- A failed `res.json()` on a 2xx answer is always a SyntaxError carrying the `parse`
  oracle's message. It is retried only when that message mentions "network". In the source,
  a body-stream TypeError at line 141 is retried through `err instanceof TypeError` (line
  152) whatever its message; that failure is not modelled.
- `onAuthFail()` is assumed to return normally. If it throws, its error skips the
  `throw` of line 121 and reaches the catch block, which may retry it, rethrow it or wrap
  it. The guarantee that a failed refresh ends the call with "Authentification requise"
  holds only for a callback that returns.
- Interleaving between the `await`s of one `request` is not modelled. `BASE`,
  `onAuthFail` and `localStorage` are read once and changed only by the call itself. In
  the source, `setBaseUrl`, `setOnAuthFail` or another call's refresh may run in between.
  The model does not capture what such concurrent updates do to a call in progress.
- What `onAuthFail()` itself does (for instance a redirect) is out of reach: the model
  counts its calls.
- `Object.entries` order is the order of the `Entries` sequence given; the JavaScript
  rule that puts integer-like keys first is not modelled.
- JSON numbers are kept as the text `String(n)` gives; no arithmetic is done on them.
- Strings.Lower: lower-cases ASCII letters only, because Unicode case mapping is not
  modelled. This loses two things. JavaScript maps U+212A KELVIN SIGN to "k", so a message
  spelling "NETWOR" followed by U+212A is a network error, and retried, in the source but
  not in the model. And U+0130 lower-cases to two code units, so the source's
  `toLowerCase()` does not always keep the length, as the model's does.
- MarketplaceApi.MarketplaceApi.Request: requires that the scripted answers cover every
  fetch the call may make (`retries < |script|`). This is a condition on the model's
  input, not on the caller.
- MarketplaceApi.MarketplaceApi.Send: requires the same of the endpoint's call.
- RequestLoop.Backoff: its own contract states only the 200 ms minimum. The exact delay
  `200 * 2^(attempt-1)` is stated by `RequestScenarios.RetryableErrorBacksOff`.
- `Jwt.DecodeUriComponent` applies only to strings made wholly of `%hh` escapes, which
  are the only strings `decodeJwt` passes it. `%`-decoding is modelled and UTF-8 decoding
  is an oracle.
- The React pages and components, the chat modules, `src/utils/api.js`, the one-off
  codemods and the build configuration are not part of this model.
