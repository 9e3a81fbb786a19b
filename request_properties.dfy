/**
 * What one `request` call promises, proved about `RequestLoop.Run` for every script of
 * network answers: how many fetches it makes, that it refreshes the token at most once,
 * when it calls `onAuthFail`, which headers each fetch carries, and its backoff schedule.
 */
module RequestProperties {
  import opened Strings
  import opened Json
  import opened Wrappers
  import opened RequestLoop
  import opened RequestScenarios

  predicate RefreshedOk(s: Loop) {
    |s.refreshes| == 1 && s.refreshes[0].ok
  }

  predicate RefreshFailed(s: Loop) {
    |s.refreshes| == 1 && !s.refreshes[0].ok
  }

  /** The headers the fetch of attempt `a` carries (attempts count from 1). */
  function HeadersOfAttempt(h0: Headers, s: Loop, a: nat): Headers {
    if RefreshedOk(s) && a > s.refreshes[0].atAttempt then Reauthorized(h0, s.storage) else h0
  }

  /** A sleep follows a counted attempt that still leaves one to make, and lasts `Backoff` of it. */
  predicate ValidSleep(c: Call, z: Sleep) {
    1 <= z.afterAttempt && z.afterAttempt <= c.retries && z.ms == Backoff(z.afterAttempt)
  }

  /** Every attempt made one fetch, and no more than `retries + 1` attempts were made. */
  predicate Counted(c: Call, s: Loop) {
    && 0 <= s.attempt == |s.sentHeaders|
    && (c.retries < 0 ==> s.attempt == 0)
    && (c.retries >= 0 ==> s.attempt <= c.retries + 1)
  }

  /** At most one refresh, `shouldRefreshOn401` tracks it, and `onAuthFail` ran iff it failed. */
  predicate RefreshBookkeeping(c: Call, s: Loop) {
    && (s.shouldRefreshOn401 <==> s.refreshes == [])
    && |s.refreshes| <= 1
    && s.refreshFetches <= |s.refreshes|
    && (s.refreshes != [] ==> 1 <= s.refreshes[0].atAttempt <= s.attempt)
    && s.authFailCalls == (if c.authFailIsFunction && RefreshFailed(s) then 1 else 0)
  }

  /** Headers and storage are the initial ones, but for what a successful refresh replaced. */
  predicate HeadersFollow(h0: Headers, st0: Storage, s: Loop) {
    && (!RefreshedOk(s) ==> s.headers == h0 && s.storage == st0)
    && (RefreshedOk(s) ==> s.headers == Reauthorized(h0, s.storage))
    && (forall i :: 0 <= i < |s.sentHeaders| ==> s.sentHeaders[i] == HeadersOfAttempt(h0, s, i + 1))
  }

  /** After a successful refresh the storage is what that refresh left, from the initial storage. */
  predicate StorageFollows(c: Call, st0: Storage, s: Loop) {
    RefreshedOk(s) ==> s.storage == AttemptRefresh(st0, c.refresh, c.parse).storage
  }

  /** The sleeps so far, all after attempts up to `bound`, in increasing order. */
  predicate Schedule(c: Call, sleeps: seq<Sleep>, bound: int) {
    && (forall i :: 0 <= i < |sleeps| ==> ValidSleep(c, sleeps[i]) && sleeps[i].afterAttempt <= bound)
    && (forall i, j :: 0 <= i < j < |sleeps| ==> sleeps[i].afterAttempt < sleeps[j].afterAttempt)
  }

  /** What holds of the loop's state at the top of every iteration and at the end of the call. */
  predicate Inv(c: Call, h0: Headers, st0: Storage, s: Loop) {
    && Counted(c, s) && RefreshBookkeeping(c, s) && HeadersFollow(h0, st0, s) && StorageFollows(c, st0, s)
    && Schedule(c, s.sleeps, s.attempt)
  }

  /** Inside an iteration, once the attempt is counted and its fetch made. */
  predicate Mid(c: Call, h0: Headers, st0: Storage, s: Loop) {
    && s.attempt >= 1 && Counted(c, s) && RefreshBookkeeping(c, s) && HeadersFollow(h0, st0, s)
    && StorageFollows(c, st0, s) && Schedule(c, s.sleeps, s.attempt - 1)
  }

  lemma StartInv(c: Call, h0: Headers, st0: Storage)
    ensures Inv(c, h0, st0, Start(h0, st0))
  {}

  /** What the catch block does to the state: it records the error and, when it retries, the sleep. */
  lemma CatchShape(c: Call, s: Loop, e: Error)
    requires s.attempt >= 1
    ensures var st := Catch(c, s, e).state;
      || st == s.(lastErr := Some(e))
      || (s.attempt <= c.retries && st == s.(lastErr := Some(e), sleeps := s.sleeps + [Sleep(s.attempt, Backoff(s.attempt))]))
  {
  }

  /** Leaving an iteration with the error recorded, and possibly one backoff sleep, restores the invariant. */
  lemma MidToInv(c: Call, h0: Headers, st0: Storage, s: Loop, st: Loop)
    requires Mid(c, h0, st0, s)
    requires || st == s.(lastErr := st.lastErr)
             || (s.attempt <= c.retries
                 && st == s.(lastErr := st.lastErr, sleeps := s.sleeps + [Sleep(s.attempt, Backoff(s.attempt))]))
    ensures Inv(c, h0, st0, st)
  {
    HeadersFollowFrame(h0, st0, s, st);
    if st.sleeps != s.sleeps {
      ScheduleAppend(c, s.sleeps, s.attempt);
    }
  }

  /** The headers invariant depends only on the headers, the storage, the refreshes and the fetches. */
  lemma HeadersFollowFrame(h0: Headers, st0: Storage, s: Loop, st: Loop)
    requires HeadersFollow(h0, st0, s)
    requires st.headers == s.headers && st.storage == s.storage && st.refreshes == s.refreshes
    requires st.sentHeaders == s.sentHeaders
    ensures HeadersFollow(h0, st0, st)
  {
    forall i | 0 <= i < |st.sentHeaders|
      ensures st.sentHeaders[i] == HeadersOfAttempt(h0, st, i + 1)
    {
      assert HeadersOfAttempt(h0, st, i + 1) == HeadersOfAttempt(h0, s, i + 1);
    }
  }

  /** The sleep after attempt `a` extends the schedule of the earlier ones. */
  lemma ScheduleAppend(c: Call, sleeps: seq<Sleep>, a: int)
    requires Schedule(c, sleeps, a - 1) && 1 <= a <= c.retries
    ensures Schedule(c, sleeps + [Sleep(a, Backoff(a))], a)
  {
    var z := Sleep(a, Backoff(a));
    assert ValidSleep(c, z);
    var t := sleeps + [z];
    assert forall i :: 0 <= i < |sleeps| ==> t[i] == sleeps[i];
  }

  /** The catch block keeps the invariant, whatever error reaches it. */
  lemma CatchInv(c: Call, h0: Headers, st0: Storage, s: Loop, e: Error)
    requires Mid(c, h0, st0, s)
    ensures Inv(c, h0, st0, Catch(c, s, e).state)
  {
    CatchShape(c, s, e);
    MidToInv(c, h0, st0, s, Catch(c, s, e).state);
  }

  /** A successful refresh, from a state where none was tried, leads to the invariant. */
  lemma RefreshedInv(c: Call, h0: Headers, st0: Storage, s: Loop, st: Loop, newStorage: Storage, fetched: bool)
    requires Mid(c, h0, st0, s) && s.shouldRefreshOn401
    requires newStorage == AttemptRefresh(s.storage, c.refresh, c.parse).storage
    requires st == s.(shouldRefreshOn401 := false, storage := newStorage,
                      refreshes := [RefreshAttempt(s.attempt, true)],
                      refreshFetches := s.refreshFetches + (if fetched then 1 else 0),
                      headers := Reauthorized(s.headers, newStorage))
    ensures Inv(c, h0, st0, st)
  {
    forall i | 0 <= i < |st.sentHeaders|
      ensures st.sentHeaders[i] == HeadersOfAttempt(h0, st, i + 1)
    {
      assert s.sentHeaders[i] == HeadersOfAttempt(h0, s, i + 1);
    }
  }

  /** A failed refresh, from a state where none was tried, keeps the in-iteration invariant. */
  lemma RefreshFailedMid(c: Call, h0: Headers, st0: Storage, s: Loop, st: Loop, fetched: bool)
    requires Mid(c, h0, st0, s) && s.shouldRefreshOn401
    requires st == s.(shouldRefreshOn401 := false,
                      refreshes := [RefreshAttempt(s.attempt, false)],
                      refreshFetches := s.refreshFetches + (if fetched then 1 else 0),
                      authFailCalls := s.authFailCalls + (if c.authFailIsFunction then 1 else 0))
    ensures Mid(c, h0, st0, st)
  {
    forall i | 0 <= i < |st.sentHeaders|
      ensures st.sentHeaders[i] == HeadersOfAttempt(h0, st, i + 1)
    {
      assert s.sentHeaders[i] == HeadersOfAttempt(h0, s, i + 1);
    }
  }

  /** The first-401 branch keeps the invariant when the refresh succeeds. */
  lemma RefreshOkInv(c: Call, h0: Headers, st0: Storage, s: Loop)
    requires Mid(c, h0, st0, s) && s.shouldRefreshOn401 && AttemptRefresh(s.storage, c.refresh, c.parse).ok
    ensures Inv(c, h0, st0, RefreshOn401(c, s).state)
  {
    var refresh := AttemptRefresh(s.storage, c.refresh, c.parse);
    assert s.refreshes + [RefreshAttempt(s.attempt, true)] == [RefreshAttempt(s.attempt, true)];
    RefreshedInv(c, h0, st0, s, RefreshOn401(c, s).state, refresh.storage, refresh.fetched);
  }

  /** The first-401 branch keeps the invariant when the refresh fails. */
  lemma RefreshFailInv(c: Call, h0: Headers, st0: Storage, s: Loop)
    requires Mid(c, h0, st0, s) && s.shouldRefreshOn401 && !AttemptRefresh(s.storage, c.refresh, c.parse).ok
    ensures Inv(c, h0, st0, RefreshOn401(c, s).state)
  {
    AuthRequiredNotRetryable();
    var refresh := AttemptRefresh(s.storage, c.refresh, c.parse);
    assert s.refreshes + [RefreshAttempt(s.attempt, false)] == [RefreshAttempt(s.attempt, false)];
    var s2 := s.(shouldRefreshOn401 := false, refreshes := [RefreshAttempt(s.attempt, false)],
                 refreshFetches := s.refreshFetches + (if refresh.fetched then 1 else 0),
                 authFailCalls := s.authFailCalls + (if c.authFailIsFunction then 1 else 0));
    assert RefreshOn401(c, s) == Catch(c, s2, AuthRequired);
    RefreshFailedMid(c, h0, st0, s, s2, refresh.fetched);
    CatchInv(c, h0, st0, s2, AuthRequired);
  }

  /** The first-401 branch keeps the invariant. */
  lemma RefreshOn401Inv(c: Call, h0: Headers, st0: Storage, s: Loop)
    requires Mid(c, h0, st0, s) && s.shouldRefreshOn401
    ensures Inv(c, h0, st0, RefreshOn401(c, s).state)
  {
    if AttemptRefresh(s.storage, c.refresh, c.parse).ok {
      RefreshOkInv(c, h0, st0, s);
    } else {
      RefreshFailInv(c, h0, st0, s);
    }
  }

  /** Every other response keeps the invariant. */
  lemma SettleInv(c: Call, h0: Headers, st0: Storage, s: Loop, res: Response)
    requires Mid(c, h0, st0, s)
    ensures Inv(c, h0, st0, Settle(c, s, res).state)
  {
    if !IsOk(res.status) {
      CatchInv(c, h0, st0, s, NonOkError(res, c.parse));
    } else if c.expectJson && Contains(res.contentType, "application/json") {
      match c.parse(res.body)
      case Parsed(v) =>
      case Unparsable(m) =>
        CatchInv(c, h0, st0, s, Error(SyntaxError, m, None));
    }
  }

  /** Counting the attempt and recording its fetch leads from the invariant to `Mid`. */
  lemma CountAttemptMid(c: Call, h0: Headers, st0: Storage, s: Loop)
    requires Scripted(c) && 0 <= s.attempt <= c.retries && Inv(c, h0, st0, s)
    ensures Mid(c, h0, st0, s.(attempt := s.attempt + 1, sentHeaders := s.sentHeaders + [s.headers]))
  {
    var s1 := s.(attempt := s.attempt + 1, sentHeaders := s.sentHeaders + [s.headers]);
    forall i | 0 <= i < |s1.sentHeaders|
      ensures s1.sentHeaders[i] == HeadersOfAttempt(h0, s1, i + 1)
    {
      if i < |s.sentHeaders| {
        assert s1.sentHeaders[i] == s.sentHeaders[i];
      }
    }
  }

  /** Handling any answer keeps the invariant. */
  lemma HandleInv(c: Call, h0: Headers, st0: Storage, s: Loop, answer: FetchOutcome)
    requires Mid(c, h0, st0, s)
    ensures Inv(c, h0, st0, Handle(c, s, answer).state)
  {
    match answer
    case Rejected(e) =>
      CatchInv(c, h0, st0, s, e);
    case Responded(res) =>
      if res.status == 401 && s.shouldRefreshOn401 {
        RefreshOn401Inv(c, h0, st0, s);
      } else {
        SettleInv(c, h0, st0, s, res);
      }
  }

  /** One iteration keeps the invariant. */
  lemma StepInv(c: Call, h0: Headers, st0: Storage, s: Loop)
    requires Scripted(c) && 0 <= s.attempt <= c.retries && Inv(c, h0, st0, s)
    ensures Inv(c, h0, st0, Step(c, s).state)
  {
    var s1 := s.(attempt := s.attempt + 1, sentHeaders := s.sentHeaders + [s.headers]);
    assert Step(c, s) == Handle(c, s1, c.script[s.attempt]);
    CountAttemptMid(c, h0, st0, s);
    HandleInv(c, h0, st0, s1, c.script[s.attempt]);
  }

  /** The invariant holds at the end of the call. */
  lemma {:induction false} RunInv(c: Call, h0: Headers, st0: Storage, s: Loop)
    requires Scripted(c) && Inv(c, h0, st0, s)
    ensures Inv(c, h0, st0, Run(c, s).state)
    decreases c.retries + 1 - s.attempt
  {
    if s.attempt <= c.retries {
      StepInv(c, h0, st0, s);
      match Step(c, s)
      case Done(o, s') =>
      case Next(s') =>
        RunInv(c, h0, st0, s');
    }
  }

  /** A refresh that fails while handling an answer ends the call there, with "Authentification requise". */
  lemma HandleRefreshFailure(c: Call, s: Loop, answer: FetchOutcome)
    requires s.attempt >= 1 && !RefreshFailed(s) && (s.shouldRefreshOn401 <==> s.refreshes == [])
    ensures var r := Handle(c, s, answer);
      RefreshFailed(r.state) ==> r == Done(Threw(AuthRequired), r.state) && r.state.refreshes[0].atAttempt == s.attempt
  {
    match answer
    case Rejected(e) =>
      CatchShape(c, s, e);
    case Responded(res) =>
      if res.status == 401 && s.shouldRefreshOn401 {
        var refresh := AttemptRefresh(s.storage, c.refresh, c.parse);
        if !refresh.ok {
          AuthRequiredNotRetryable();
          var s2 := s.(shouldRefreshOn401 := false, storage := refresh.storage,
                       refreshes := [RefreshAttempt(s.attempt, false)],
                       refreshFetches := s.refreshFetches + (if refresh.fetched then 1 else 0),
                       authFailCalls := s.authFailCalls + (if c.authFailIsFunction then 1 else 0));
          assert s.refreshes + [RefreshAttempt(s.attempt, false)] == [RefreshAttempt(s.attempt, false)];
          assert RefreshOn401(c, s) == Catch(c, s2, AuthRequired);
        }
      } else if !IsOk(res.status) {
        CatchShape(c, s, NonOkError(res, c.parse));
      } else if c.expectJson && Contains(res.contentType, "application/json") && c.parse(res.body).Unparsable? {
        CatchShape(c, s, Error(SyntaxError, c.parse(res.body).message, None));
      }
  }

  /** A failed refresh ends the call at once, with "Authentification requise" (status 401). */
  lemma {:induction false} RunRefreshFailureEnds(c: Call, h0: Headers, st0: Storage, s: Loop)
    requires Scripted(c) && Inv(c, h0, st0, s) && !RefreshFailed(s)
    ensures var f := Run(c, s);
      RefreshFailed(f.state) ==>
        f.outcome == Threw(AuthRequired) && f.state.refreshes[0].atAttempt == f.state.attempt
    decreases c.retries + 1 - s.attempt
  {
    if s.attempt <= c.retries {
      var s1 := s.(attempt := s.attempt + 1, sentHeaders := s.sentHeaders + [s.headers]);
      assert Step(c, s) == Handle(c, s1, c.script[s.attempt]);
      HandleRefreshFailure(c, s1, c.script[s.attempt]);
      StepInv(c, h0, st0, s);
      match Step(c, s)
      case Done(o, s') =>
      case Next(s') =>
        RunRefreshFailureEnds(c, h0, st0, s');
    }
  }

  /**
   * What the call resolves to for the 2xx response `res`: the response itself when no JSON
   * is expected, the parsed body when it is labelled JSON, and the body's text otherwise.
   */
  predicate ResolvesWith(c: Call, res: Response, p: Payload) {
    && (!c.expectJson ==> p == RawResponse(res))
    && (c.expectJson && Contains(res.contentType, "application/json") ==>
          c.parse(res.body).Parsed? && p == JsonPayload(c.parse(res.body).value))
    && (c.expectJson && !Contains(res.contentType, "application/json") ==> p == TextPayload(res.body))
  }

  /** The call resolves only with what a 2xx response carried, and only on the fetch it came from. */
  lemma {:induction false} RunReturnedFromOk(c: Call, s: Loop)
    requires Scripted(c) && 0 <= s.attempt
    ensures var f := Run(c, s);
      f.outcome.Returned? ==>
        1 <= f.state.attempt <= |c.script| && c.script[f.state.attempt - 1].Responded?
        && IsOk(c.script[f.state.attempt - 1].response.status)
        && ResolvesWith(c, c.script[f.state.attempt - 1].response, f.outcome.payload)
    decreases c.retries + 1 - s.attempt
  {
    if s.attempt <= c.retries {
      var s1 := s.(attempt := s.attempt + 1, sentHeaders := s.sentHeaders + [s.headers]);
      assert Step(c, s) == Handle(c, s1, c.script[s.attempt]);
      HandleReturned(c, s1, c.script[s.attempt]);
      var r := Step(c, s);
      if r.Next? {
        RunNext(c, s, r.state);
        RunReturnedFromOk(c, r.state);
      } else {
        RunDone(c, s, r.outcome, r.state);
      }
    }
  }

  /** An iteration resolves the call only on a 2xx answer, with what that answer carried. */
  lemma HandleReturned(c: Call, s: Loop, answer: FetchOutcome)
    requires s.attempt >= 1
    ensures var r := Handle(c, s, answer);
      r.Done? && r.outcome.Returned? ==>
        answer.Responded? && IsOk(answer.response.status) && ResolvesWith(c, answer.response, r.outcome.payload)
  {
    match answer
    case Rejected(e) =>
    case Responded(res) =>
  }

  /**
   * The guarantees of one `request` call, for every script of network answers:
   * - it fetches the URL at most `retries + 1` times (once at least when `retries >= 0`),
   *   counting the fetch that follows a refresh;
   * - it tries the refresh at most once, and the refresh endpoint is fetched at most once;
   * - `onAuthFail` is called exactly when the refresh fails and is a function, and a failed
   *   refresh ends the call with "Authentification requise" (401) and no further fetch;
   * - every fetch carries the initial headers, except that the fetches after a successful
   *   refresh carry the new Authorization value and nothing else changed;
   * - the storage changes only through a successful refresh, and then holds what that
   *   refresh stored;
   * - each backoff sleep follows a distinct attempt that leaves another to make, in order,
   *   and lasts `200 * 2^(attempt - 1)` ms;
   * - the call resolves only with what a 2xx response carried: the response, its parsed
   *   JSON body, or its text, as `ResolvesWith` says.
   */
  lemma RequestGuarantees(c: Call, h0: Headers, st0: Storage)
    requires Scripted(c)
    ensures var f := Request(c, h0, st0); var s := f.state;
      && |s.sentHeaders| == s.attempt
      && (c.retries >= 0 ==> 1 <= s.attempt <= c.retries + 1)
      && (c.retries < 0 ==> s.attempt == 0 && f.outcome == Threw(Exhausted(None)))
      && |s.refreshes| <= 1 && s.refreshFetches <= 1
      && s.authFailCalls == (if c.authFailIsFunction && RefreshFailed(s) then 1 else 0)
      && (RefreshFailed(s) ==> f.outcome == Threw(AuthRequired) && s.refreshes[0].atAttempt == s.attempt)
      && (forall i :: 0 <= i < |s.sentHeaders| ==> s.sentHeaders[i] == HeadersOfAttempt(h0, s, i + 1))
      && (!RefreshedOk(s) ==> s.storage == st0)
      && (RefreshedOk(s) ==> s.storage == AttemptRefresh(st0, c.refresh, c.parse).storage)
      && (forall i :: 0 <= i < |s.sleeps| ==> ValidSleep(c, s.sleeps[i]))
      && (forall i, j :: 0 <= i < j < |s.sleeps| ==> s.sleeps[i].afterAttempt < s.sleeps[j].afterAttempt)
      && (f.outcome.Returned? ==> c.script[s.attempt - 1].Responded?
                                  && IsOk(c.script[s.attempt - 1].response.status)
                                  && ResolvesWith(c, c.script[s.attempt - 1].response, f.outcome.payload))
  {
    var s0 := Start(h0, st0);
    StartInv(c, h0, st0);
    RunInv(c, h0, st0, s0);
    RunRefreshFailureEnds(c, h0, st0, s0);
    RunReturnedFromOk(c, s0);
    if c.retries >= 0 {
      RunFetches(c, s0);
    }
  }

  /** From a state that still has an attempt to make, the loop makes at least one more fetch. */
  lemma {:induction false} RunFetches(c: Call, s: Loop)
    requires Scripted(c) && 0 <= s.attempt <= c.retries
    ensures Run(c, s).state.attempt > s.attempt
    decreases c.retries + 1 - s.attempt
  {
    match Step(c, s)
    case Done(o, s') =>
    case Next(s') =>
      if s'.attempt <= c.retries {
        RunFetches(c, s');
      }
  }
}
