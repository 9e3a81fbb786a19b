/**
 * One call of `marketplaceApi.request`, as a function of what the network answers.
 *
 * Every `fetch` of the call's URL is answered by the next element of a scripted
 * sequence (`Call.script`); the refresh endpoint's answer is `Call.refresh`; `res.json()`
 * and `JSON.parse` are the `parse` oracle. `Run` follows the source's `while` loop
 * iteration by iteration (`Step`), through its `try` block and its `catch` block (`Catch`),
 * and records what the loop does to the world: the headers of every fetch, every backoff
 * sleep, every refresh attempt and every call of `onAuthFail`.
 */
module RequestLoop {
  import opened Strings
  import opened Json
  import opened Wrappers

  type Headers = map<string, string>

  /** `localStorage`, restricted to the keys the client reads and writes ("token", "refreshToken"). */
  type Storage = map<string, string>

  // ---------------------------------------------------------------------------
  // URL and headers

  /** The URL `request` fetches for `path` against the base URL `base`. */
  function RequestUrl(base: string, path: string): (url: string)
    ensures StartsWith(path, "http") ==> url == path
    ensures !StartsWith(path, "http") ==>
      url == base + "/" + (if StartsWith(path, "/") then path[1..] else path)
  {
    if StartsWith(path, "http") then path
    else base + (if StartsWith(path, "/") then "" else "/") + path
  }

  /** A relative path keeps its place at the end of the URL, after the base. */
  lemma RequestUrlFrames(base: string, path: string)
    requires !StartsWith(path, "http")
    ensures var url := RequestUrl(base, path);
      |url| >= |base| + |path| && url[..|base|] == base && url[|url| - |path|..] == path
  {
    var url := RequestUrl(base, path);
    var mid := if StartsWith(path, "/") then "" else "/";
    assert url == base + mid + path;
    assert url[|url| - |path|..] == path;
  }

  /** `getToken()` when it is truthy: a stored, non-empty "token". */
  function StoredToken(storage: Storage): Option<string>
  {
    if "token" in storage && storage["token"] != "" then Some(storage["token"]) else None
  }

  /** `getRefreshToken()` is truthy. */
  predicate HasRefreshToken(storage: Storage) {
    "refreshToken" in storage && storage["refreshToken"] != ""
  }

  /**
   * `baseHeaders`: JSON content type unless the body is a FormData, the bearer token when
   * one is stored, and the caller's headers over both.
   */
  function InitialHeaders(storage: Storage, isForm: bool, caller: Headers): (h: Headers)
    ensures "Content-Type" in h <==> !isForm || "Content-Type" in caller
    ensures "Authorization" in h <==> StoredToken(storage).Some? || "Authorization" in caller
    ensures forall k :: k in caller ==> k in h && h[k] == caller[k]
    ensures forall k :: k in h && k !in caller ==> k == "Content-Type" || k == "Authorization"
    ensures !isForm && "Content-Type" !in caller ==> h["Content-Type"] == "application/json"
    ensures StoredToken(storage).Some? && "Authorization" !in caller ==>
      h["Authorization"] == "Bearer " + StoredToken(storage).value
  {
    var contentType: Headers := if isForm then map[] else map["Content-Type" := "application/json"];
    var auth: Headers := if StoredToken(storage).Some? then map["Authorization" := "Bearer " + StoredToken(storage).value] else map[];
    contentType + auth + caller
  }

  /**
   * `newAuth.Authorization` after a refresh. When no truthy token is stored the property
   * is `undefined`, which the Fetch `Headers` conversion sends as the text "undefined".
   */
  function AuthorizationValue(storage: Storage): string {
    if StoredToken(storage).Some? then "Bearer " + StoredToken(storage).value else "undefined"
  }

  /** `baseHeaders.Authorization = newAuth.Authorization`: nothing but Authorization changes. */
  function Reauthorized(h: Headers, storage: Storage): (h': Headers)
    ensures h'.Keys == h.Keys + {"Authorization"}
    ensures h'["Authorization"] == AuthorizationValue(storage)
    ensures forall k :: k in h && k != "Authorization" ==> h'[k] == h[k]
  {
    h["Authorization" := AuthorizationValue(storage)]
  }

  // ---------------------------------------------------------------------------
  // Token refresh

  /** `res.ok` */
  predicate IsOk(status: nat) {
    200 <= status < 300
  }

  /** A response: status, `content-type` header (empty when absent) and body text. */
  datatype Response = Response(status: nat, contentType: string, body: string)

  /** What the refresh endpoint does: its fetch rejects, or it answers. */
  datatype RefreshReply = RefreshRejected | RefreshAnswered(response: Response)

  /** Result of `attemptRefresh`: its boolean, the storage after it, and whether it fetched. */
  datatype Refresh = Refresh(ok: bool, storage: Storage, fetched: bool)

  /** `${BASE}/api/auth/refresh` */
  function RefreshUrl(base: string): string {
    base + "/api/auth/refresh"
  }

  /** `attemptRefresh()` as a function of the stored tokens and the endpoint's reply. */
  function AttemptRefresh(storage: Storage, reply: RefreshReply, parse: string -> JsonParse): (r: Refresh)
    ensures r.fetched <==> HasRefreshToken(storage)
    ensures !r.ok ==> r.storage == storage
    ensures r.ok ==> r.fetched && r.storage.Keys == storage.Keys + {"token"}
    ensures r.ok ==> forall k :: k in storage && k != "token" && k != "refreshToken" ==> r.storage[k] == storage[k]
  {
    if !HasRefreshToken(storage) then Refresh(false, storage, false)
    else
      match reply
      case RefreshRejected => Refresh(false, storage, true)
      case RefreshAnswered(res) =>
        if !IsOk(res.status) then Refresh(false, storage, true)
        else
          match parse(res.body)
          case Unparsable(_) => Refresh(false, storage, true)
          case Parsed(data) =>
            // `data.token` on a null body throws a TypeError, which is caught: false.
            var token := Field(data, "token");
            if !TruthyOpt(token) then Refresh(false, storage, true)
            else
              var withToken := storage["token" := Display(token.value)];
              var refreshToken := Field(data, "refreshToken");
              var withBoth := if TruthyOpt(refreshToken)
                              then withToken["refreshToken" := Display(refreshToken.value)]
                              else withToken;
              Refresh(true, withBoth, true)
  }

  /**
   * The refresh succeeds exactly when a refresh token is stored and the endpoint returns a
   * truthy token. It then stores that token, and replaces the refresh token only with a
   * truthy one from the reply.
   */
  lemma AttemptRefreshSucceedsIff(storage: Storage, reply: RefreshReply, parse: string -> JsonParse)
    ensures AttemptRefresh(storage, reply, parse).ok <==>
      HasRefreshToken(storage) && reply.RefreshAnswered? && IsOk(reply.response.status)
      && parse(reply.response.body).Parsed?
      && TruthyOpt(Field(parse(reply.response.body).value, "token"))
    ensures AttemptRefresh(storage, reply, parse).ok ==>
      var data := parse(reply.response.body).value;
      var stored := AttemptRefresh(storage, reply, parse).storage;
      && stored["token"] == Display(Field(data, "token").value)
      && stored["refreshToken"] == if TruthyOpt(Field(data, "refreshToken"))
                                   then Display(Field(data, "refreshToken").value)
                                   else storage["refreshToken"]
  {}

  // ---------------------------------------------------------------------------
  // Errors and outcomes

  /** The `name` of a thrown error, with `instanceof ApiError` / `instanceof TypeError` folded in. */
  datatype ErrorName = AbortError | TypeError | SyntaxError | ApiError

  /** A thrown error: name, message and, for an ApiError, its `status` (None is `null`). */
  datatype Error = Error(name: ErrorName, message: string, status: Option<nat>)

  /** What one `fetch` of the call's URL does. */
  datatype FetchOutcome = Responded(response: Response) | Rejected(error: Error)

  /** What `request` resolves to. */
  datatype Payload = RawResponse(response: Response) | JsonPayload(value: Json) | TextPayload(text: string)

  /** The call resolves to a value or rejects with an error. */
  datatype Outcome = Returned(payload: Payload) | Threw(error: Error)

  /** `new ApiError("Authentification requise", { status: 401 })` */
  const AuthRequired: Error := Error(ApiError, "Authentification requise", Some(401))

  /** `isNetwork`: a TypeError, or a message that mentions "network" in any case. */
  predicate IsNetworkError(e: Error) {
    e.name == TypeError || Contains(Lower(e.message), "network")
  }

  /** The error the catch block retries (while attempts remain). */
  predicate Retryable(e: Error) {
    e.name == AbortError || IsNetworkError(e)
  }

  /** `payload` of the non-ok branch: the JSON body, the text body, or null when `res.json()` throws. */
  function ErrorPayload(res: Response, parse: string -> JsonParse): Option<Json> {
    if Contains(res.contentType, "application/json") then
      match parse(res.body)
      case Parsed(v) => Some(v)
      case Unparsable(_) => None
    else Some(JString(res.body))
  }

  /** `new ApiError(payload?.message || \`Request failed: ${res.status}\`, { status: res.status })` */
  function NonOkError(res: Response, parse: string -> JsonParse): (e: Error)
    ensures e.name == ApiError && e.status == Some(res.status)
  {
    var payload := ErrorPayload(res, parse);
    var message := if payload.Some? then Field(payload.value, "message") else None;
    if TruthyOpt(message) then Error(ApiError, Display(message.value), Some(res.status))
    else Error(ApiError, "Request failed: " + NatToString(res.status), Some(res.status))
  }

  /** The non-ok response's body supplies the error message: a JSON object with a truthy "message". */
  predicate CarriesMessage(res: Response, parse: string -> JsonParse) {
    && Contains(res.contentType, "application/json") && parse(res.body).Parsed?
    && parse(res.body).value.JObject? && "message" in parse(res.body).value.fields
    && Truthy(parse(res.body).value.fields["message"])
  }

  /**
   * The message of the non-ok error: the body's own "message" when it carries one, and
   * otherwise "Request failed: " followed by the status in decimal. A text body, a body
   * `res.json()` cannot parse and a JSON body without a truthy "message" all take the
   * second form.
   */
  lemma NonOkMessage(res: Response, parse: string -> JsonParse)
    ensures CarriesMessage(res, parse) ==>
      NonOkError(res, parse).message == Display(parse(res.body).value.fields["message"])
    ensures !CarriesMessage(res, parse) ==>
      var m := NonOkError(res, parse).message;
      var prefix := "Request failed: ";
      && |m| > |prefix| && m[..|prefix|] == prefix
      && DecimalValue(m[|prefix|..]) == res.status
  {
    var prefix := "Request failed: ";
    if !CarriesMessage(res, parse) {
      var digits := NatToString(res.status);
      assert NonOkError(res, parse).message == prefix + digits;
      assert (prefix + digits)[|prefix|..] == digits;
      NatToStringValue(res.status);
    }
  }

  /** A message without the letter w, in either case, never reads as a network error. */
  lemma NoWNotNetwork(m: string)
    requires 'w' !in m && 'W' !in m
    ensures !Contains(Lower(m), "network")
  {
    LowerLacks(m, 'w');
    MissingCharNotContained(Lower(m), "network", 'w');
  }

  /** The error a failed refresh throws is not one the catch block retries. */
  lemma AuthRequiredNotRetryable()
    ensures !Retryable(AuthRequired)
  {
    var m := AuthRequired.message;
    assert forall i | 0 <= i < |m| :: m[i] != 'w' && m[i] != 'W';
    NoWNotNetwork(m);
  }

  /** `200 * Math.pow(2, attempt - 1)` milliseconds. */
  function Backoff(attempt: nat): (ms: nat)
    requires attempt >= 1
    ensures ms >= 200
  {
    200 * Pow2(attempt - 1)
  }

  /** `new ApiError(lastErr?.message || "Request failed after retries", { raw: lastErr })` */
  function Exhausted(lastErr: Option<Error>): Error {
    Error(ApiError, if lastErr.Some? && lastErr.value.message != "" then lastErr.value.message
                    else "Request failed after retries", None)
  }

  // ---------------------------------------------------------------------------
  // The loop

  /** Everything one call reads: configuration, options and the network's answers. */
  datatype Call = Call(
    url: string,
    retries: int,
    expectJson: bool,
    authFailIsFunction: bool,
    script: seq<FetchOutcome>,
    refresh: RefreshReply,
    parse: string -> JsonParse)

  /** The script answers every fetch the loop can make (at most `retries + 1`). */
  predicate Scripted(c: Call) {
    c.retries < |c.script|
  }

  datatype Sleep = Sleep(afterAttempt: nat, ms: nat)

  datatype RefreshAttempt = RefreshAttempt(atAttempt: nat, ok: bool)

  /**
   * The loop's variables (`attempt`, `lastErr`, `shouldRefreshOn401`, `baseHeaders`),
   * `localStorage`, and the record of what the call has done so far.
   */
  datatype Loop = Loop(
    attempt: int,
    lastErr: Option<Error>,
    shouldRefreshOn401: bool,
    headers: Headers,
    storage: Storage,
    sentHeaders: seq<Headers>,
    sleeps: seq<Sleep>,
    refreshes: seq<RefreshAttempt>,
    refreshFetches: nat,
    authFailCalls: nat)

  /** The state before the first iteration. */
  function Start(headers: Headers, storage: Storage): Loop {
    Loop(0, None, true, headers, storage, [], [], [], 0, 0)
  }

  datatype StepResult = Done(outcome: Outcome, state: Loop) | Next(state: Loop)

  /** The catch block, entered with `attempt` already counted. */
  function Catch(c: Call, s: Loop, e: Error): (r: StepResult)
    requires s.attempt >= 1
    ensures r.state.attempt == s.attempt
  {
    var s1 := s.(lastErr := Some(e));
    if Retryable(e) && s.attempt <= c.retries then
      Next(s1.(sleeps := s1.sleeps + [Sleep(s.attempt, Backoff(s.attempt))]))
    else if e.name == ApiError then Done(Threw(e), s1)
    else Done(Threw(Error(ApiError, if e.message != "" then e.message else "Network error", None)), s1)
  }

  /** A first 401: `attemptRefresh()`, then `continue` with the new Authorization, or fail the call. */
  function RefreshOn401(c: Call, s: Loop): (r: StepResult)
    requires s.attempt >= 1
    ensures r.state.attempt == s.attempt
  {
    var refresh := AttemptRefresh(s.storage, c.refresh, c.parse);
    var s1 := s.(shouldRefreshOn401 := false, storage := refresh.storage,
                 refreshes := s.refreshes + [RefreshAttempt(s.attempt, refresh.ok)],
                 refreshFetches := s.refreshFetches + (if refresh.fetched then 1 else 0));
    if refresh.ok then Next(s1.(headers := Reauthorized(s1.headers, refresh.storage)))
    else
      var s2 := s1.(authFailCalls := s1.authFailCalls + (if c.authFailIsFunction then 1 else 0));
      Catch(c, s2, AuthRequired)
  }

  /** Any other response: the non-ok branch, or the success branch. */
  function Settle(c: Call, s: Loop, res: Response): (r: StepResult)
    requires s.attempt >= 1
    ensures r.state.attempt == s.attempt
  {
    if !IsOk(res.status) then Catch(c, s, NonOkError(res, c.parse))
    else if !c.expectJson then Done(Returned(RawResponse(res)), s)
    else if Contains(res.contentType, "application/json") then
      match c.parse(res.body)
      case Parsed(v) => Done(Returned(JsonPayload(v)), s)
      case Unparsable(m) => Catch(c, s, Error(SyntaxError, m, None))
    else Done(Returned(TextPayload(res.body)), s)
  }

  /** The body of the `while` loop once the attempt is counted and the fetch has answered. */
  function Handle(c: Call, s: Loop, answer: FetchOutcome): (r: StepResult)
    requires s.attempt >= 1
    ensures r.state.attempt == s.attempt
  {
    match answer
    case Rejected(e) => Catch(c, s, e)
    case Responded(res) =>
      if res.status == 401 && s.shouldRefreshOn401 then RefreshOn401(c, s)
      else Settle(c, s, res)
  }

  /** One iteration of the `while` loop: count the attempt, fetch, and handle the answer. */
  function Step(c: Call, s: Loop): (r: StepResult)
    requires Scripted(c) && 0 <= s.attempt <= c.retries
    ensures r.state.attempt == s.attempt + 1
  {
    Handle(c, s.(attempt := s.attempt + 1, sentHeaders := s.sentHeaders + [s.headers]), c.script[s.attempt])
  }

  datatype Final = Final(outcome: Outcome, state: Loop)

  /** The loop from state `s` to the end of the call. */
  function Run(c: Call, s: Loop): Final
    requires Scripted(c) && 0 <= s.attempt
    decreases c.retries + 1 - s.attempt
  {
    if s.attempt <= c.retries then
      match Step(c, s)
      case Done(o, s') => Final(o, s')
      case Next(s') => Run(c, s')
    else Final(Threw(Exhausted(s.lastErr)), s)
  }

  /** The whole call. */
  function Request(c: Call, headers: Headers, storage: Storage): Final
    requires Scripted(c)
  {
    Run(c, Start(headers, storage))
  }

  /** An iteration that `continue`s leaves the rest of the call to the next state. */
  lemma RunNext(c: Call, s: Loop, s': Loop)
    requires Scripted(c) && 0 <= s.attempt <= c.retries && Step(c, s) == Next(s')
    ensures Run(c, s) == Run(c, s')
  {
  }

  /** An iteration that returns or throws ends the call. */
  lemma RunDone(c: Call, s: Loop, o: Outcome, s': Loop)
    requires Scripted(c) && 0 <= s.attempt <= c.retries && Step(c, s) == Done(o, s')
    ensures Run(c, s) == Final(o, s')
  {
  }

  /** Past the last attempt the loop exits and the call throws the exhaustion error. */
  lemma RunExhausted(c: Call, s: Loop)
    requires Scripted(c) && 0 <= s.attempt && c.retries < s.attempt
    ensures Run(c, s) == Final(Threw(Exhausted(s.lastErr)), s)
  {
  }
}
