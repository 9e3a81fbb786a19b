/**
 * The `marketplaceApi` object: the closure state `BASE` and `onAuthFail`, the
 * `localStorage` it reads and writes, and the operations that change them. `Request`
 * is the source's `while` loop, its body split into `Attempt` (the `try` block, with the
 * 401 branch in `Unauthorized`) and `HandleError` (the `catch` block); its contract ties
 * the result and the new state to `RequestLoop.Request`, about which `RequestProperties`
 * and `RequestScenarios` prove what the call promises.
 */
module MarketplaceApi {
  import opened Wrappers
  import opened Json
  import opened RequestLoop
  import opened Endpoints
  import Media

  /** What `onAuthFail` holds: `null`, a value that is not a function, or a callback. */
  datatype AuthFailHandler = NoHandler | NotAFunction | Callback

  /** The `Call` one `request(path, options)` makes, with the network's answers. */
  function CallOf(url: string, options: Options, handler: AuthFailHandler, script: seq<FetchOutcome>,
                  reply: RefreshReply, parse: string -> JsonParse): Call
  {
    Call(url, options.retries, options.expectJson, handler == Callback, script, reply, parse)
  }

  /**
   * The `catch` block of `request` for the error `err` thrown in state `s`: wait and
   * retry an abort or network error while attempts remain, rethrow an ApiError, and wrap
   * any other error in one.
   */
  method HandleError(ghost c: Call, ghost s: Loop, err: Error, attempt: int, retries: int, sleeps: seq<Sleep>)
    returns (ended: Option<Outcome>, sleeps': seq<Sleep>)
    requires attempt == s.attempt >= 1 && retries == c.retries && sleeps == s.sleeps
    ensures ended.None? ==> Catch(c, s, err) == Next(s.(lastErr := Some(err), sleeps := sleeps'))
    ensures ended.Some? ==> Catch(c, s, err) == Done(ended.value, s.(lastErr := Some(err))) && sleeps' == sleeps
  {
    if Retryable(err) && attempt <= retries {
      return None, sleeps + [Sleep(attempt, Backoff(attempt))];
    }
    if err.name == ApiError {
      return Some(Threw(err)), sleeps;
    }
    return Some(Threw(Error(ApiError, if err.message != "" then err.message else "Network error", None))), sleeps;
  }

  class MarketplaceApi {
    /** `BASE` */
    var base: string
    /** `onAuthFail` */
    var onAuthFail: AuthFailHandler
    /** `localStorage` ("token" and "refreshToken"). */
    var storage: Storage
    /** How many times `onAuthFail()` has been invoked. */
    var authFailCalls: nat

    /** The object as the module creates it: `DEFAULT_BASE` from the build setting, no callback. */
    constructor(setting: Option<string>, initialStorage: Storage)
      ensures base == Media.ApiBase(setting) && onAuthFail == NoHandler
      ensures storage == initialStorage && authFailCalls == 0
    {
      base := Media.ApiBase(setting);
      onAuthFail := NoHandler;
      storage := initialStorage;
      authFailCalls := 0;
    }

    /** `setBaseUrl(url)` */
    method SetBaseUrl(url: string)
      modifies this
      ensures base == url
      ensures onAuthFail == old(onAuthFail) && storage == old(storage) && authFailCalls == old(authFailCalls)
    {
      base := url;
    }

    /** `setOnAuthFail(cb)` */
    method SetOnAuthFail(cb: AuthFailHandler)
      modifies this
      ensures onAuthFail == cb
      ensures base == old(base) && storage == old(storage) && authFailCalls == old(authFailCalls)
    {
      onAuthFail := cb;
    }

    /**
     * `attemptRefresh()`: POST the stored refresh token to `${BASE}/api/auth/refresh`
     * (answered by `reply`) and store the tokens it returns. `fetched` is the URL it
     * fetched, if any.
     */
    method AttemptRefresh(reply: RefreshReply, parse: string -> JsonParse) returns (ok: bool, fetched: Option<string>)
      modifies this`storage
      ensures var r := RequestLoop.AttemptRefresh(old(storage), reply, parse);
        ok == r.ok && storage == r.storage
        && fetched == (if r.fetched then Some(RefreshUrl(base)) else None)
    {
      if !HasRefreshToken(storage) {
        return false, None;
      }
      fetched := Some(RefreshUrl(base));
      match reply
      case RefreshRejected =>
        return false, fetched;
      case RefreshAnswered(res) =>
        if !IsOk(res.status) {
          return false, fetched;
        }
        match parse(res.body)
        case Unparsable(_) =>
          return false, fetched;
        case Parsed(data) =>
          var token := Field(data, "token");
          if !TruthyOpt(token) {
            return false, fetched;
          }
          storage := storage["token" := Display(token.value)];
          var refreshToken := Field(data, "refreshToken");
          if TruthyOpt(refreshToken) {
            storage := storage["refreshToken" := Display(refreshToken.value)];
          }
          return true, fetched;
    }

    /**
     * A first 401: `shouldRefreshOn401 = false`, `attemptRefresh()`, then either the new
     * `Authorization` header (`refreshed`, the loop continues) or `onAuthFail()` when it
     * is a function, before "Authentification requise" is thrown.
     */
    method Unauthorized(ghost c: Call, ghost s: Loop, reply: RefreshReply, parse: string -> JsonParse,
                        headers: Headers)
      returns (refreshed: bool, headers': Headers, ghost s': Loop)
      requires s.attempt >= 1 && reply == c.refresh && parse == c.parse
      requires c.authFailIsFunction == (onAuthFail == Callback) && headers == s.headers && storage == s.storage
      modifies this`storage, this`authFailCalls
      ensures s'.attempt == s.attempt && s'.lastErr == s.lastErr && s'.sentHeaders == s.sentHeaders
      ensures refreshed ==> RefreshOn401(c, s) == Next(s')
      ensures !refreshed ==> RefreshOn401(c, s) == Catch(c, s', AuthRequired)
      ensures s'.sleeps == s.sleeps && !s'.shouldRefreshOn401 && s'.headers == headers' && s'.storage == storage
      ensures s'.authFailCalls >= s.authFailCalls && authFailCalls - old(authFailCalls) == s'.authFailCalls - s.authFailCalls
    {
      AuthRequiredNotRetryable();
      ghost var r := RequestLoop.AttemptRefresh(storage, reply, parse);
      var fetched;
      refreshed, fetched := AttemptRefresh(reply, parse);
      s' := s.(shouldRefreshOn401 := false, storage := storage,
               refreshes := s.refreshes + [RefreshAttempt(s.attempt, refreshed)],
               refreshFetches := s.refreshFetches + (if r.fetched then 1 else 0));
      headers' := headers;
      if refreshed {
        headers' := headers["Authorization" := AuthorizationValue(storage)];
        s' := s'.(headers := headers');
        return;
      }
      if onAuthFail == Callback {
        authFailCalls := authFailCalls + 1;
      }
      s' := s'.(authFailCalls := s.authFailCalls + (if c.authFailIsFunction then 1 else 0));
    }

    /**
     * One pass of `request`'s loop body after `attempt++`, for the fetch answer `answer`:
     * the `try` block, then the `catch` block for whatever it throws. `ended` is `None`
     * for a `continue`, or the outcome the call ends with. `s` is the loop state on entry
     * and `s'` the state on exit.
     */
    method Attempt(ghost c: Call, ghost s: Loop, answer: FetchOutcome, attempt: int, retries: int,
                   expectJson: bool, reply: RefreshReply, parse: string -> JsonParse,
                   lastErr: Option<Error>, shouldRefreshOn401: bool, headers: Headers, sleeps: seq<Sleep>)
      returns (ended: Option<Outcome>, lastErr': Option<Error>, shouldRefreshOn401': bool,
               headers': Headers, sleeps': seq<Sleep>, ghost s': Loop)
      requires attempt == s.attempt >= 1 && retries == c.retries && expectJson == c.expectJson
      requires reply == c.refresh && parse == c.parse && c.authFailIsFunction == (onAuthFail == Callback)
      requires lastErr == s.lastErr && shouldRefreshOn401 == s.shouldRefreshOn401 && headers == s.headers
      requires sleeps == s.sleeps && storage == s.storage
      modifies this`storage, this`authFailCalls
      ensures Handle(c, s, answer) == if ended.None? then Next(s') else Done(ended.value, s')
      ensures s'.attempt == attempt && s'.sentHeaders == s.sentHeaders && s'.lastErr == lastErr'
      ensures s'.shouldRefreshOn401 == shouldRefreshOn401' && s'.headers == headers'
      ensures s'.sleeps == sleeps' && s'.storage == storage
      ensures s'.authFailCalls >= s.authFailCalls && authFailCalls - old(authFailCalls) == s'.authFailCalls - s.authFailCalls
    {
      lastErr', shouldRefreshOn401', headers', sleeps' := lastErr, shouldRefreshOn401, headers, sleeps;
      // The `try` block: it returns, `continue`s after a refresh, or throws `err`,
      // leaving the state `thrown` to the `catch` block.
      var err: Error;
      ghost var thrown: Loop;
      match answer {
      case Rejected(e) =>
        err := e;
        thrown := s;
      case Responded(res) =>
        if res.status == 401 && shouldRefreshOn401 {
          var refreshed;
          refreshed, headers', thrown := Unauthorized(c, s, reply, parse, headers);
          shouldRefreshOn401' := false;
          if refreshed {
            return None, lastErr', shouldRefreshOn401', headers', sleeps', thrown;
          }
          err := AuthRequired;
        } else {
          thrown := s;
          if !IsOk(res.status) {
            err := NonOkError(res, parse);
          } else if !expectJson {
            return Some(Returned(RawResponse(res))), lastErr', shouldRefreshOn401', headers', sleeps', s;
          } else if Strings.Contains(res.contentType, "application/json") {
            match parse(res.body) {
            case Parsed(v) =>
              return Some(Returned(JsonPayload(v))), lastErr', shouldRefreshOn401', headers', sleeps', s;
            case Unparsable(m) =>
              err := Error(SyntaxError, m, None);
            }
          } else {
            return Some(Returned(TextPayload(res.body))), lastErr', shouldRefreshOn401', headers', sleeps', s;
          }
        }
      }
      assert Handle(c, s, answer) == Catch(c, thrown, err);

      // The `catch` block.
      ended, sleeps' := HandleError(c, thrown, err, attempt, retries, sleeps);
      lastErr' := Some(err);
      s' := thrown.(lastErr := lastErr', sleeps := sleeps');
    }

    /**
     * `request(path, options)`. Every fetch of the URL is answered by the next element of
     * `script`, the refresh endpoint by `reply`; `sent` holds the headers of each fetch and
     * `sleeps` each backoff wait, in order.
     */
    method Request(path: string, options: Options, script: seq<FetchOutcome>, reply: RefreshReply,
                   parse: string -> JsonParse)
      returns (outcome: Outcome, url: string, sent: seq<Headers>, sleeps: seq<Sleep>)
      requires options.retries < |script|
      modifies this`storage, this`authFailCalls
      ensures url == RequestUrl(base, path)
      ensures var c := CallOf(url, options, onAuthFail, script, reply, parse);
        var f := RequestLoop.Request(c, InitialHeaders(old(storage), options.body.FormBody?, options.headers), old(storage));
        && outcome == f.outcome && sent == f.state.sentHeaders && sleeps == f.state.sleeps
        && storage == f.state.storage && authFailCalls == old(authFailCalls) + f.state.authFailCalls
    {
      url := RequestUrl(base, path);
      var headers := InitialHeaders(storage, options.body.FormBody?, options.headers);
      ghost var c := CallOf(url, options, onAuthFail, script, reply, parse);
      outcome, sent, sleeps := RetryLoop(c, Start(headers, storage), script, options.retries, options.expectJson,
                                         reply, parse, headers);
    }

    /**
     * The `while` loop of `request`, from the headers it starts with: count the attempt,
     * fetch, and handle the answer, until an iteration returns or throws or no attempt is left.
     */
    method RetryLoop(ghost c: Call, ghost start: Loop, script: seq<FetchOutcome>, retries: int, expectJson: bool,
                     reply: RefreshReply, parse: string -> JsonParse, headers: Headers)
      returns (outcome: Outcome, sent: seq<Headers>, sleeps: seq<Sleep>)
      requires Scripted(c) && c.script == script && c.retries == retries && c.expectJson == expectJson
      requires c.refresh == reply && c.parse == parse && c.authFailIsFunction == (onAuthFail == Callback)
      requires start == Start(headers, storage)
      modifies this`storage, this`authFailCalls
      ensures var f := Run(c, start);
        && outcome == f.outcome && sent == f.state.sentHeaders && sleeps == f.state.sleeps
        && storage == f.state.storage && authFailCalls == old(authFailCalls) + f.state.authFailCalls
    {
      ghost var calls0 := authFailCalls;
      var attempt := 0;
      var lastErr: Option<Error> := None;
      var shouldRefreshOn401 := true;
      var headers := headers;
      sent := [];
      sleeps := [];
      ghost var cur := start;

      while attempt <= retries
        invariant 0 <= attempt == cur.attempt && authFailCalls == calls0 + cur.authFailCalls
        invariant lastErr == cur.lastErr && shouldRefreshOn401 == cur.shouldRefreshOn401
        invariant headers == cur.headers && storage == cur.storage && sent == cur.sentHeaders && sleeps == cur.sleeps
        invariant Run(c, cur) == Run(c, start)
        decreases retries + 1 - attempt
      {
        ghost var prev := cur;
        attempt := attempt + 1;
        sent := sent + [headers];
        ghost var counted := prev.(attempt := attempt, sentHeaders := sent);
        var ended;
        ghost var next;
        ended, lastErr, shouldRefreshOn401, headers, sleeps, next :=
          Attempt(c, counted, script[attempt - 1], attempt, retries, expectJson, reply, parse,
                  lastErr, shouldRefreshOn401, headers, sleeps);
        if ended.None? {
          RunNext(c, prev, next);
          cur := next;
          continue;
        }
        RunDone(c, prev, ended.value, next);
        return ended.value, sent, sleeps;
      }
      RunExhausted(c, cur);
      outcome := Threw(Exhausted(lastErr));
    }

    /** Issue an endpoint's request. */
    method Send(call: ApiCall, script: seq<FetchOutcome>, reply: RefreshReply, parse: string -> JsonParse)
      returns (outcome: Outcome, url: string, sent: seq<Headers>, sleeps: seq<Sleep>)
      requires call.options.retries < |script|
      modifies this`storage, this`authFailCalls
      ensures url == RequestUrl(base, call.path)
      ensures var c := CallOf(url, call.options, onAuthFail, script, reply, parse);
        var f := RequestLoop.Request(c, InitialHeaders(old(storage), call.options.body.FormBody?, call.options.headers), old(storage));
        && outcome == f.outcome && sent == f.state.sentHeaders && sleeps == f.state.sleeps
        && storage == f.state.storage && authFailCalls == old(authFailCalls) + f.state.authFailCalls
    {
      outcome, url, sent, sleeps := Request(call.path, call.options, script, reply, parse);
    }
  }
}
