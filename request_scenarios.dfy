/**
 * Single iterations and short runs of `request`, from any state of the loop: which answers
 * are retried, which surface, and what a refresh on the last permitted attempt does.
 */
module RequestScenarios {
  import opened Strings
  import opened Json
  import opened Wrappers
  import opened RequestLoop

  /**
   * A refresh that succeeds on the last permitted attempt leaves the loop through
   * `continue` without fetching again: the call throws the "exhausted" error, built from
   * whatever error an earlier attempt left behind.
   */
  lemma RefreshOnLastAttemptExhausts(c: Call, s: Loop, res: Response)
    requires Scripted(c) && 0 <= s.attempt == c.retries
    requires c.script[s.attempt] == Responded(res) && res.status == 401 && s.shouldRefreshOn401
    requires AttemptRefresh(s.storage, c.refresh, c.parse).ok
    ensures Run(c, s).outcome == Threw(Exhausted(s.lastErr))
    ensures Run(c, s).state.attempt == c.retries + 1 && |Run(c, s).state.sentHeaders| == |s.sentHeaders| + 1
  {
    var s1 := s.(attempt := s.attempt + 1, sentHeaders := s.sentHeaders + [s.headers]);
    assert Step(c, s) == RefreshOn401(c, s1);
    var s2 := Step(c, s).state;
    assert Step(c, s).Next?;
    assert Run(c, s) == Run(c, s2);
  }

  /** With attempts left, a successful refresh is followed by a fetch with the new Authorization. */
  lemma RefreshThenResend(c: Call, s: Loop, res: Response)
    requires Scripted(c) && 0 <= s.attempt < c.retries
    requires c.script[s.attempt] == Responded(res) && res.status == 401 && s.shouldRefreshOn401
    requires AttemptRefresh(s.storage, c.refresh, c.parse).ok
    ensures var s' := Step(c, s).state;
      && Step(c, s).Next? && s'.attempt == s.attempt + 1 && !s'.shouldRefreshOn401
      && s'.storage == AttemptRefresh(s.storage, c.refresh, c.parse).storage
      && s'.headers == Reauthorized(s.headers, s'.storage)
      && s'.lastErr == s.lastErr && s'.sleeps == s.sleeps
  {
    var s1 := s.(attempt := s.attempt + 1, sentHeaders := s.sentHeaders + [s.headers]);
    assert Step(c, s) == RefreshOn401(c, s1);
  }

  /**
   * A failed refresh calls `onAuthFail` (when it is a function) and ends the call with
   * "Authentification requise", whatever attempts remain.
   */
  lemma RefreshFailureThrows(c: Call, s: Loop, res: Response)
    requires Scripted(c) && 0 <= s.attempt <= c.retries
    requires c.script[s.attempt] == Responded(res) && res.status == 401 && s.shouldRefreshOn401
    requires !AttemptRefresh(s.storage, c.refresh, c.parse).ok
    ensures Step(c, s).Done? && Step(c, s).outcome == Threw(AuthRequired)
    ensures Step(c, s).state.authFailCalls == s.authFailCalls + (if c.authFailIsFunction then 1 else 0)
    ensures Step(c, s).state.storage == s.storage
  {
    var s1 := s.(attempt := s.attempt + 1, sentHeaders := s.sentHeaders + [s.headers]);
    assert Step(c, s) == RefreshOn401(c, s1);
    AuthRequiredNotRetryable();
  }

  /**
   * A non-2xx answer other than a first 401 surfaces at once as an ApiError with the
   * response's status, unless its message mentions "network".
   */
  lemma NonOkSurfaces(c: Call, s: Loop, res: Response)
    requires Scripted(c) && 0 <= s.attempt <= c.retries
    requires c.script[s.attempt] == Responded(res) && !IsOk(res.status)
    requires !(res.status == 401 && s.shouldRefreshOn401)
    requires !Contains(Lower(NonOkError(res, c.parse).message), "network")
    ensures Step(c, s).Done? && Step(c, s).outcome.Threw?
    ensures var e := Step(c, s).outcome.error;
      e == NonOkError(res, c.parse) && e.name == ApiError && e.status == Some(res.status)
  {
    var s1 := s.(attempt := s.attempt + 1, sentHeaders := s.sentHeaders + [s.headers]);
    assert Step(c, s) == Settle(c, s1, res);
  }

  /**
   * A non-2xx answer other than a first 401 whose error message mentions "network", in any
   * case, is retried like a network failure while attempts remain.
   */
  lemma NonOkNetworkRetried(c: Call, s: Loop, res: Response)
    requires Scripted(c) && 0 <= s.attempt < c.retries
    requires c.script[s.attempt] == Responded(res) && !IsOk(res.status)
    requires !(res.status == 401 && s.shouldRefreshOn401)
    requires Contains(Lower(NonOkError(res, c.parse).message), "network")
    ensures Step(c, s).Next?
    ensures var s' := Step(c, s).state;
      && s'.attempt == s.attempt + 1 && s'.lastErr == Some(NonOkError(res, c.parse))
      && s'.sleeps == s.sleeps + [Sleep(s.attempt + 1, Backoff(s.attempt + 1))]
      && s'.headers == s.headers && s'.storage == s.storage
  {
    var s1 := s.(attempt := s.attempt + 1, sentHeaders := s.sentHeaders + [s.headers]);
    assert Step(c, s) == Settle(c, s1, res);
  }

  /** The network test ignores case: an ApiError saying "Network down" counts as a network error. */
  lemma NetworkInAnyCase()
    ensures IsNetworkError(Error(ApiError, "Network down", None))
  {
    assert OccursAt(Lower("Network down"), "network", 0) by {
      assert Lower("Network down")[..7] == "network";
    }
  }

  /**
   * A second 401 in the same call is not refreshed again: without "network" in its
   * message, it surfaces with status 401.
   */
  lemma SecondUnauthorizedSurfaces(c: Call, s: Loop, res: Response)
    requires Scripted(c) && 0 <= s.attempt <= c.retries
    requires c.script[s.attempt] == Responded(res) && res.status == 401 && !s.shouldRefreshOn401
    requires !Contains(Lower(NonOkError(res, c.parse).message), "network")
    ensures Step(c, s).Done? && Step(c, s).outcome == Threw(NonOkError(res, c.parse))
    ensures Step(c, s).outcome.error.status == Some(401)
    ensures Step(c, s).state.refreshes == s.refreshes
  {
    NonOkSurfaces(c, s, res);
  }

  /** An abort or network error with attempts left is retried after `200 * 2^(attempt - 1)` ms. */
  lemma RetryableErrorBacksOff(c: Call, s: Loop, e: Error)
    requires Scripted(c) && 0 <= s.attempt < c.retries
    requires c.script[s.attempt] == Rejected(e) && Retryable(e)
    ensures Step(c, s).Next?
    ensures var s' := Step(c, s).state;
      && s'.attempt == s.attempt + 1 && s'.lastErr == Some(e)
      && s'.sleeps == s.sleeps + [Sleep(s.attempt + 1, 200 * Pow2(s.attempt))]
      && s'.headers == s.headers && s'.storage == s.storage
  {
    var s1 := s.(attempt := s.attempt + 1, sentHeaders := s.sentHeaders + [s.headers]);
    assert Step(c, s) == Catch(c, s1, e);
  }

  /**
   * On the last permitted attempt an error that is not an ApiError is wrapped: an ApiError
   * with its message (or "Network error") and status `null`.
   */
  lemma LastAttemptErrorWrapped(c: Call, s: Loop, e: Error)
    requires Scripted(c) && 0 <= s.attempt == c.retries
    requires c.script[s.attempt] == Rejected(e) && e.name != ApiError
    ensures Run(c, s).outcome == Threw(Error(ApiError, if e.message != "" then e.message else "Network error", None))
    ensures Run(c, s).state.lastErr == Some(e)
  {
    var s1 := s.(attempt := s.attempt + 1, sentHeaders := s.sentHeaders + [s.headers]);
    assert Step(c, s) == Catch(c, s1, e);
  }

  /** A 2xx answer to a call that wants JSON is returned parsed when labelled JSON, as text otherwise. */
  lemma OkResolves(c: Call, s: Loop, res: Response)
    requires Scripted(c) && 0 <= s.attempt <= c.retries
    requires c.script[s.attempt] == Responded(res) && IsOk(res.status)
    ensures !c.expectJson ==> Run(c, s).outcome == Returned(RawResponse(res))
    ensures c.expectJson && !Contains(res.contentType, "application/json") ==>
      Run(c, s).outcome == Returned(TextPayload(res.body))
    ensures c.expectJson && Contains(res.contentType, "application/json") && c.parse(res.body).Parsed? ==>
      Run(c, s).outcome == Returned(JsonPayload(c.parse(res.body).value))
  {
    var s1 := s.(attempt := s.attempt + 1, sentHeaders := s.sentHeaders + [s.headers]);
    assert Step(c, s) == Settle(c, s1, res);
  }

  /** A network failure and then an abort, then a text answer: the call returns it after sleeping 200 and 400 ms. */
  lemma TwoFailuresThenText(h0: Headers, st0: Storage, parse: string -> JsonParse)
    ensures var ok := Response(200, "text/plain", "pong");
      var c := Call("http://localhost:8080/api/ping", 2, true, false,
                    [Rejected(Error(TypeError, "Failed to fetch", None)),
                     Rejected(Error(AbortError, "The user aborted a request.", None)),
                     Responded(ok)],
                    RefreshRejected, parse);
      var f := Request(c, h0, st0);
      && f.outcome == Returned(TextPayload("pong"))
      && f.state.sleeps == [Sleep(1, 200), Sleep(2, 400)]
      && f.state.sentHeaders == [h0, h0, h0]
  {
    var ok := Response(200, "text/plain", "pong");
    var e1 := Error(TypeError, "Failed to fetch", None);
    var e2 := Error(AbortError, "The user aborted a request.", None);
    var c := Call("http://localhost:8080/api/ping", 2, true, false,
                  [Rejected(e1), Rejected(e2), Responded(ok)], RefreshRejected, parse);
    var s0 := Start(h0, st0);
    RetryableErrorBacksOff(c, s0, e1);
    var s1 := Step(c, s0).state;
    RetryableErrorBacksOff(c, s1, e2);
    var s2 := Step(c, s1).state;
    OkResolves(c, s2, ok);
    RunNext(c, s0, s1);
    RunNext(c, s1, s2);
  }
}
