/** Requests to the NCBI E-utilities: the client-side rate limit (at least
    `min_request_interval` seconds between request stamps) and the retry
    loop with exponential back-off. The clock and the HTTP exchange are
    parameters: `now` is what `time.time()` reads on entry, sleeps advance
    the clock by exactly their duration, and `send(attempt, t)` is the
    outcome of the request sent at time `t`. */
module NcbiRequests {
  import opened Common

  /** The outcome of one GET: a body with a 2xx status, an HTTP error
      status, or a timeout / network failure. */
  datatype Outcome = Success(body: string) | Status(code: int) | NetworkFailure

  /** Why the request failed: a client error that is not retried, all
      attempts used up, or (as written) the exhausted loop reading a
      response that no attempt ever received. */
  datatype Failure = ClientError(code: int) | RetriesExhausted | UnboundResponse

  /** 429 and server errors are retried; other error statuses are not. */
  predicate Retryable(code: int) {
    code == 429 || code >= 500
  }

  function Pow2(k: nat): (r: real)
    ensures r >= 1.0
  {
    if k == 0 then 1.0 else 2.0 * Pow2(k - 1)
  }

  /** The time `_rate_limit` records: `now`, or the end of the wait that
      makes it `minInterval` after the previous stamp. */
  function NextStamp(now: real, last: real, minInterval: real): (t: real)
    ensures t >= now && t - last >= minInterval
  {
    if now - last < minInterval then last + minInterval else now
  }

  /** The attempts from `attempt` on: their send times, the outcome, the
      clock after the last one (including its back-off) and the last stamp.
      `responded` records whether an earlier attempt received a response. */
  datatype Trace = Trace(result: Result<string, Failure>, stamps: seq<real>, clock: real, last: real)

  /** `_ncbi_request_with_retry` as written. */
  function AttemptsAsWritten(attempt: nat, maxRetries: int, clock: real, last: real, minInterval: real,
                             send: (nat, real) -> Outcome, responded: bool): (tr: Trace)
    decreases maxRetries - attempt
  {
    if attempt >= maxRetries then
      Trace(Err(if responded then RetriesExhausted else UnboundResponse), [], clock, last)
    else
      var t := NextStamp(clock, last, minInterval);
      match send(attempt, t)
      case Success(body) => Trace(Ok(body), [t], t, t)
      case Status(code) =>
        if Retryable(code) then
          Prepend(t, AttemptsAsWritten(attempt + 1, maxRetries, t + Pow2(attempt), t, minInterval, send, true))
        else Trace(Err(ClientError(code)), [t], t, t)
      case NetworkFailure =>
        Prepend(t, AttemptsAsWritten(attempt + 1, maxRetries, t + Pow2(attempt), t, minInterval, send, responded))
  }

  function Prepend(t: real, tr: Trace): Trace {
    tr.(stamps := [t] + tr.stamps)
  }

  /** The retry loop as evidently intended: running out of attempts is
      reported as such whether or not an attempt received a response. */
  function Attempts(maxRetries: int, clock: real, last: real, minInterval: real, send: (nat, real) -> Outcome): (tr: Trace)
    ensures tr.result != Err(UnboundResponse)
  {
    var tr := AttemptsAsWritten(0, maxRetries, clock, last, minInterval, send, false);
    if tr.result == Err(UnboundResponse) then tr.(result := Err(RetriesExhausted)) else tr
  }

  /** Every attempt of the as-written loop failing on the network leaves
      `response` unbound when the loop gives up. */
  lemma {:induction false} NetworkFailuresLeaveResponseUnbound(
    attempt: nat, maxRetries: int, clock: real, last: real, minInterval: real, send: (nat, real) -> Outcome)
    requires forall k: nat, t: real :: send(k, t) == NetworkFailure
    ensures AttemptsAsWritten(attempt, maxRetries, clock, last, minInterval, send, false).result == Err(UnboundResponse)
    decreases maxRetries - attempt
  {
    if attempt < maxRetries {
      var t := NextStamp(clock, last, minInterval);
      NetworkFailuresLeaveResponseUnbound(attempt + 1, maxRetries, t + Pow2(attempt), t, minInterval, send);
    }
  }

  /** The corrected loop reports the same situation as exhausted retries. */
  lemma {:induction false} NetworkFailuresExhaustRetries(maxRetries: int, clock: real, last: real, minInterval: real, send: (nat, real) -> Outcome)
    requires forall k: nat, t: real :: send(k, t) == NetworkFailure
    ensures Attempts(maxRetries, clock, last, minInterval, send).result == Err(RetriesExhausted)
  {
    NetworkFailuresLeaveResponseUnbound(0, maxRetries, clock, last, minInterval, send);
  }

  /** At most `maxRetries` requests are sent, and one at least when
      `maxRetries` is positive; a success or a client error ends the loop,
      so the loop only gives up after using every attempt. */
  lemma {:induction false} AttemptCount(attempt: nat, maxRetries: int, clock: real, last: real, minInterval: real,
                                        send: (nat, real) -> Outcome, responded: bool)
    ensures var tr := AttemptsAsWritten(attempt, maxRetries, clock, last, minInterval, send, responded);
      && (attempt < maxRetries ==> 1 <= |tr.stamps| <= maxRetries - attempt)
      && (attempt >= maxRetries ==> tr.stamps == [])
      && (tr.result == Err(RetriesExhausted) || tr.result == Err(UnboundResponse) ==>
            |tr.stamps| == if attempt < maxRetries then maxRetries - attempt else 0)
    decreases maxRetries - attempt
  {
    if attempt < maxRetries {
      var t := NextStamp(clock, last, minInterval);
      AttemptCount(attempt + 1, maxRetries, t + Pow2(attempt), t, minInterval, send, true);
      AttemptCount(attempt + 1, maxRetries, t + Pow2(attempt), t, minInterval, send, responded);
    }
  }

  /** Consecutive stamps, the first of attempt `attempt`, are at least the
      back-off of the earlier attempt and the rate-limit interval apart. */
  predicate BackedOff(stamps: seq<real>, attempt: nat, minInterval: real) {
    forall i :: 0 <= i < |stamps| - 1 ==>
      stamps[i + 1] - stamps[i] >= Pow2(attempt + i) && stamps[i + 1] - stamps[i] >= minInterval
  }

  /** Consecutive requests are at least the back-off of the earlier attempt
      apart, and never closer than the rate limit; the first waits for the
      rate limit after the previous stamp. */
  lemma {:induction false} AttemptSpacing(attempt: nat, maxRetries: int, clock: real, last: real, minInterval: real,
                                          send: (nat, real) -> Outcome, responded: bool)
    ensures var tr := AttemptsAsWritten(attempt, maxRetries, clock, last, minInterval, send, responded);
      && (|tr.stamps| > 0 ==> tr.stamps[0] >= clock && tr.stamps[0] - last >= minInterval)
      && BackedOff(tr.stamps, attempt, minInterval)
    decreases maxRetries - attempt
  {
    if attempt < maxRetries {
      var t := NextStamp(clock, last, minInterval);
      var tr := AttemptsAsWritten(attempt, maxRetries, clock, last, minInterval, send, responded);
      match send(attempt, t)
      case Success(_) =>
      case Status(code) =>
        if Retryable(code) {
          SpacingStep(attempt, maxRetries, t, minInterval, send, true);
          assert tr.stamps == [t] + AttemptsAsWritten(attempt + 1, maxRetries, t + Pow2(attempt), t, minInterval, send, true).stamps;
        }
      case NetworkFailure =>
        SpacingStep(attempt, maxRetries, t, minInterval, send, responded);
        assert tr.stamps == [t] + AttemptsAsWritten(attempt + 1, maxRetries, t + Pow2(attempt), t, minInterval, send, responded).stamps;
    }
  }

  /** One retried attempt at time `t` followed by the rest. */
  lemma {:induction false} SpacingStep(attempt: nat, maxRetries: int, t: real, minInterval: real,
                                       send: (nat, real) -> Outcome, responded: bool)
    requires attempt < maxRetries
    ensures var rest := AttemptsAsWritten(attempt + 1, maxRetries, t + Pow2(attempt), t, minInterval, send, responded);
      BackedOff([t] + rest.stamps, attempt, minInterval)
    decreases maxRetries - attempt, 0
  {
    AttemptSpacing(attempt + 1, maxRetries, t + Pow2(attempt), t, minInterval, send, responded);
    var rest := AttemptsAsWritten(attempt + 1, maxRetries, t + Pow2(attempt), t, minInterval, send, responded);
    ConsSpacing(t, rest.stamps, attempt, minInterval);
  }

  /** Stamps spaced from attempt `attempt + 1` on, after a first stamp `t`
      one back-off and one rate-limit interval earlier, are spaced from
      attempt `attempt` on. */
  lemma ConsSpacing(t: real, stamps: seq<real>, attempt: nat, minInterval: real)
    requires stamps != [] ==> stamps[0] >= t + Pow2(attempt) && stamps[0] - t >= minInterval
    requires BackedOff(stamps, attempt + 1, minInterval)
    ensures BackedOff([t] + stamps, attempt, minInterval)
  {
    var s := [t] + stamps;
    forall i | 0 <= i < |s| - 1
      ensures s[i + 1] - s[i] >= Pow2(attempt + i) && s[i + 1] - s[i] >= minInterval
    {
      if i > 0 {
        var j := i - 1;
        assert s[i + 1] == stamps[j + 1] && s[i] == stamps[j];
        assert attempt + 1 + j == attempt + i;
      }
    }
  }

  /** A success carries the body of the last request, which succeeded; a
      client error reports the status of the last request, which is not
      retried. `attempt` numbers the first request of the trace. */
  predicate ReportsLast(tr: Trace, attempt: nat, send: (nat, real) -> Outcome) {
    var n := |tr.stamps|;
    && (tr.result.Ok? ==> (n > 0 && send(attempt + n - 1, tr.stamps[n - 1]) == Success(tr.result.value)))
    && (tr.result.Err? && tr.result.error.ClientError? ==>
          (n > 0 && !Retryable(tr.result.error.code)
           && send(attempt + n - 1, tr.stamps[n - 1]) == Status(tr.result.error.code)))
  }

  /** What the loop returns is what its last request answered. */
  lemma {:induction false} AttemptResult(attempt: nat, maxRetries: int, clock: real, last: real, minInterval: real,
                                         send: (nat, real) -> Outcome, responded: bool)
    ensures ReportsLast(AttemptsAsWritten(attempt, maxRetries, clock, last, minInterval, send, responded), attempt, send)
    decreases maxRetries - attempt
  {
    if attempt < maxRetries {
      var t := NextStamp(clock, last, minInterval);
      match send(attempt, t)
      case Success(_) =>
      case Status(code) =>
        if Retryable(code) {
          AttemptResult(attempt + 1, maxRetries, t + Pow2(attempt), t, minInterval, send, true);
          ReportsPrepend(t, AttemptsAsWritten(attempt + 1, maxRetries, t + Pow2(attempt), t, minInterval, send, true),
                         attempt, send);
        }
      case NetworkFailure =>
        AttemptResult(attempt + 1, maxRetries, t + Pow2(attempt), t, minInterval, send, responded);
        ReportsPrepend(t, AttemptsAsWritten(attempt + 1, maxRetries, t + Pow2(attempt), t, minInterval, send, responded),
                       attempt, send);
    }
  }

  /** An earlier failed request in front of a trace does not change what
      its last request answered. */
  lemma ReportsPrepend(t: real, rest: Trace, attempt: nat, send: (nat, real) -> Outcome)
    requires ReportsLast(rest, attempt + 1, send)
    ensures ReportsLast(Prepend(t, rest), attempt, send)
  {
    var m := |rest.stamps|;
    if m > 0 {
      assert ([t] + rest.stamps)[m] == rest.stamps[m - 1];
      assert attempt + (m + 1) - 1 == attempt + 1 + m - 1;
    }
  }

  /** What the retry loop returns: the trace it holds when it has stopped,
      otherwise the stamps it has sent followed by the attempts still to
      come. */
  function Unfinished(done: bool, r: Result<string, Failure>, stamps: seq<real>, attempt: nat, maxRetries: int,
                      clock: real, last: real, minInterval: real, send: (nat, real) -> Outcome, responded: bool): Trace
  {
    if done then Trace(r, stamps, clock, last)
    else
      var rest := AttemptsAsWritten(attempt, maxRetries, clock, last, minInterval, send, responded);
      rest.(stamps := stamps + rest.stamps)
  }

  /** The client's rate-limit state. */
  class NcbiRequester {
    var lastRequestTime: real
    const minRequestInterval: real

    /** 110 ms between requests keeps under NCBI's ten requests a second. */
    constructor()
      ensures lastRequestTime == 0.0 && minRequestInterval == 0.11
    {
      lastRequestTime := 0.0;
      minRequestInterval := 0.11;
    }

    /** `_rate_limit`: waits until `min_request_interval` has passed since
        the last stamp and records the time it goes on at. */
    method RateLimit(now: real) returns (stamp: real)
      modifies this
      ensures stamp == NextStamp(now, old(lastRequestTime), minRequestInterval)
      ensures lastRequestTime == stamp
    {
      var elapsed := now - lastRequestTime;
      if elapsed < minRequestInterval {
        var sleepTime := minRequestInterval - elapsed;
        stamp := now + sleepTime;
      } else {
        stamp := now;
      }
      lastRequestTime := stamp;
    }

    /** `_ncbi_request_with_retry` with exhaustion reported as such: the
        attempts, their stamps and the clock when it returns are those of
        `Attempts`. */
    method RequestWithRetry(maxRetries: int, now: real, send: (nat, real) -> Outcome)
      returns (r: Result<string, Failure>, stamps: seq<real>, clock: real)
      modifies this
      ensures var tr := Attempts(maxRetries, now, old(lastRequestTime), minRequestInterval, send);
        r == tr.result && stamps == tr.stamps && clock == tr.clock && lastRequestTime == tr.last
    {
      ghost var last0 := lastRequestTime;
      ghost var whole := AttemptsAsWritten(0, maxRetries, now, last0, minRequestInterval, send, false);
      stamps := [];
      clock := now;
      var responded := false;
      var attempt: nat := 0;
      var done := false;
      r := Err(RetriesExhausted);
      while attempt < maxRetries && !done
        invariant Unfinished(done, r, stamps, attempt, maxRetries, clock, lastRequestTime, minRequestInterval, send, responded) == whole
        decreases maxRetries - attempt, if done then 0 else 1
      {
        done, r, stamps, attempt, clock, responded := Attempt(attempt, maxRetries, clock, stamps, responded, send);
      }
      if !done {
        r := Err(if responded then RetriesExhausted else UnboundResponse);
      }
      if r == Err(UnboundResponse) {
        r := Err(RetriesExhausted);
      }
    }

    /** One pass of the retry loop: a request sent at the rate-limited
        stamp; a success or a status that is not retried ends the loop, any
        other outcome backs off `2 ** attempt` seconds. */
    method Attempt(attempt: nat, maxRetries: int, clock: real, stamps: seq<real>, responded: bool,
                   send: (nat, real) -> Outcome)
      returns (done: bool, r: Result<string, Failure>, stamps': seq<real>, attempt': nat, clock': real, responded': bool)
      requires attempt < maxRetries
      modifies this
      ensures attempt' == if done then attempt else attempt + 1
      ensures Unfinished(done, r, stamps', attempt', maxRetries, clock', lastRequestTime, minRequestInterval, send, responded')
           == Unfinished(false, r, stamps, attempt, maxRetries, clock, old(lastRequestTime), minRequestInterval, send, responded)
    {
      var t := RateLimit(clock);
      stamps' := stamps + [t];
      attempt', responded' := attempt, responded;
      r := Err(RetriesExhausted);
      var outcome := send(attempt, t);
      match outcome {
        case Success(body) =>
          r := Ok(body);
          clock' := t;
          done := true;
        case Status(code) =>
          if Retryable(code) {
            clock' := t + Pow2(attempt);
            responded' := true;
            attempt' := attempt + 1;
            done := false;
          } else {
            r := Err(ClientError(code));
            clock' := t;
            done := true;
          }
        case NetworkFailure =>
          clock' := t + Pow2(attempt);
          attempt' := attempt + 1;
          done := false;
      }
    }
  }
}
