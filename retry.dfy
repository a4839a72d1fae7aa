/** The retry loop shared by the HTTP request issuer and the two page fetchers:
    at most `retry_count` attempts, an optional pacing delay drawn from
    `delay_range` before every attempt, an exponential backoff of 2**a seconds
    after a failed attempt a that is not the last one, and an immediate return
    on the first success.

    The operation is abstract: `op(a)` is what attempt a yields. The sleeps are
    not performed; they are returned as a log with one record per attempt. */
module Retry {
  import opened Values

  /** What one attempt produced: a payload, or the exception it raised. */
  datatype Attempt<T> = Success(payload: T) | Failure(cause: Exception)

  /** How the loop ended. */
  datatype Outcome<T> =
    | Succeeded(payload: T, attempts: nat)
    | Exhausted(lastCause: Exception, attempts: nat)
      /** retry_count <= 0: the loop body never runs and the caller falls through */
    | NoAttempt

  /** `delay_range`, the bounds random.uniform draws the pacing delay from. */
  datatype Range = Range(lo: real, hi: real)

  /** The sleeps around one attempt: the pacing delay before it, if the loop
      paces, and the backoff after it, if another attempt follows. */
  datatype AttemptLog = AttemptLog(pacing: Option<real>, backoff: Option<nat>)

  datatype Execution<T> = Execution(outcome: Outcome<T>, log: seq<AttemptLog>)

  function Pow2(n: nat): (p: nat)
    ensures p >= 1
  {
    if n == 0 then 1 else 2 * Pow2(n - 1)
  }

  /** random.uniform(lo, hi) computes lo + (hi - lo) * u for a draw u of random(). */
  function Uniform(r: Range, u: real): real
  {
    r.lo + (r.hi - r.lo) * u
  }

  lemma UniformWithin(r: Range, u: real)
    requires r.lo <= r.hi && 0.0 <= u <= 1.0
    ensures r.lo <= Uniform(r, u) <= r.hi
  {
    var d := r.hi - r.lo;
    assert 0.0 <= d * u;
    assert d * (1.0 - u) >= 0.0;
    assert d * u <= d;
  }

  /** The pacing delay before attempt a: none when the loop does not pace. */
  function PacingAt(pace: Option<Range>, draws: nat -> real, a: nat): Option<real>
  {
    if pace.Some? then Some(Uniform(pace.value, draws(a))) else None
  }

  /** The loop from attempt a on, when n attempts are allowed in all. */
  function RetriedFrom<T>(a: nat, n: nat, pace: Option<Range>, draws: nat -> real, op: nat -> Attempt<T>): Execution<T>
    requires a < n
    decreases n - a
  {
    var pacing := PacingAt(pace, draws, a);
    match op(a)
    case Success(p) => Execution(Succeeded(p, a + 1), [AttemptLog(pacing, None)])
    case Failure(c) =>
      if a + 1 == n then Execution(Exhausted(c, n), [AttemptLog(pacing, None)])
      else
        var rest := RetriedFrom(a + 1, n, pace, draws, op);
        Execution(rest.outcome, [AttemptLog(pacing, Some(Pow2(a)))] + rest.log)
  }

  /** The whole loop, `for attempt in range(retry_count)`. */
  function Retried<T>(retryCount: int, pace: Option<Range>, draws: nat -> real, op: nat -> Attempt<T>): Execution<T>
  {
    if retryCount <= 0 then Execution(NoAttempt, []) else RetriedFrom(0, retryCount, pace, draws, op)
  }

  /** Everything the loop from attempt a does: attempts a, a+1, ... in order; all
      but the last failed; a backoff of 2**j after attempt j exactly when another
      attempt follows; the pacing draw before each attempt; and the outcome. */
  lemma {:induction false} RetriedFromShape<T>(a: nat, n: nat, pace: Option<Range>, draws: nat -> real, op: nat -> Attempt<T>)
    requires a < n
    ensures var e := RetriedFrom(a, n, pace, draws, op);
      && 1 <= |e.log| <= n - a
      && (forall j :: 0 <= j < |e.log| ==> e.log[j].pacing == PacingAt(pace, draws, a + j))
      && (forall j :: 0 <= j < |e.log| ==> e.log[j].backoff == (if j + 1 < |e.log| then Some(Pow2(a + j)) else None))
      && (forall j :: a <= j < a + |e.log| - 1 ==> op(j).Failure?)
      && match e.outcome
         case Succeeded(p, k) => k == a + |e.log| && op(k - 1) == Success(p)
         case Exhausted(c, k) => k == n == a + |e.log| && op(n - 1) == Failure(c)
         case NoAttempt => false
    decreases n - a
  {
    var e := RetriedFrom(a, n, pace, draws, op);
    if op(a).Failure? && a + 1 < n {
      RetriedFromShape(a + 1, n, pace, draws, op);
      var rest := RetriedFrom(a + 1, n, pace, draws, op);
      assert e.log == [AttemptLog(PacingAt(pace, draws, a), Some(Pow2(a)))] + rest.log;
      forall j | 0 <= j < |e.log|
        ensures e.log[j].pacing == PacingAt(pace, draws, a + j)
        ensures e.log[j].backoff == if j + 1 < |e.log| then Some(Pow2(a + j)) else None
      {
        if j > 0 { assert e.log[j] == rest.log[j - 1]; }
      }
    }
  }

  /** At most retry_count attempts, and the outcome counts them. */
  lemma AttemptsBounded<T>(retryCount: int, pace: Option<Range>, draws: nat -> real, op: nat -> Attempt<T>)
    ensures var e := Retried(retryCount, pace, draws, op);
      && |e.log| <= (if retryCount <= 0 then 0 else retryCount)
      && (e.outcome.NoAttempt? <==> retryCount <= 0)
      && (!e.outcome.NoAttempt? ==> e.outcome.attempts == |e.log|)
  {
    if retryCount > 0 {
      RetriedFromShape(0, retryCount, pace, draws, op);
    }
  }

  /** The loop returns at the first success: every earlier attempt failed and no
      attempt follows it. */
  lemma StopsAtFirstSuccess<T>(retryCount: int, pace: Option<Range>, draws: nat -> real, op: nat -> Attempt<T>)
    ensures var e := Retried(retryCount, pace, draws, op);
      e.outcome.Succeeded? ==>
        && |e.log| == e.outcome.attempts
        && op(e.outcome.attempts - 1) == Success(e.outcome.payload)
        && forall j :: 0 <= j < e.outcome.attempts - 1 ==> op(j).Failure?
  {
    if retryCount > 0 {
      RetriedFromShape(0, retryCount, pace, draws, op);
    }
  }

  /** The loop is exhausted exactly when all retry_count attempts fail, and then it
      reports the last failure. */
  lemma ExhaustedIffAllFail<T>(retryCount: int, pace: Option<Range>, draws: nat -> real, op: nat -> Attempt<T>)
    ensures var e := Retried(retryCount, pace, draws, op);
      && (e.outcome.Exhausted? <==> retryCount > 0 && forall j :: 0 <= j < retryCount ==> op(j).Failure?)
      && (e.outcome.Exhausted? ==>
            |e.log| == e.outcome.attempts == retryCount && op(retryCount - 1) == Failure(e.outcome.lastCause))
  {
    if retryCount > 0 {
      RetriedFromShape(0, retryCount, pace, draws, op);
      var e := Retried(retryCount, pace, draws, op);
      if e.outcome.Succeeded? {
        assert op(e.outcome.attempts - 1).Success?;
      }
    }
  }

  /** A backoff of exactly 2**j seconds follows attempt j when another attempt
      follows it, and none follows the final attempt. */
  lemma BackoffSchedule<T>(retryCount: int, pace: Option<Range>, draws: nat -> real, op: nat -> Attempt<T>)
    ensures var e := Retried(retryCount, pace, draws, op);
      forall j :: 0 <= j < |e.log| ==> e.log[j].backoff == (if j + 1 < |e.log| then Some(Pow2(j)) else None)
  {
    if retryCount > 0 {
      RetriedFromShape(0, retryCount, pace, draws, op);
      var e := Retried(retryCount, pace, draws, op);
      forall j | 0 <= j < |e.log|
        ensures e.log[j].backoff == (if j + 1 < |e.log| then Some(Pow2(j)) else None)
      {
        assert 0 + j == j;
      }
    }
  }

  /** When the loop paces, a delay within delay_range precedes every attempt,
      the first one included; when it does not, no attempt is paced. */
  lemma PacingBeforeEveryAttempt<T>(retryCount: int, pace: Option<Range>, draws: nat -> real, op: nat -> Attempt<T>)
    requires pace.Some? ==> pace.value.lo <= pace.value.hi
    requires forall a :: 0.0 <= draws(a) < 1.0
    ensures var e := Retried(retryCount, pace, draws, op);
      forall j :: 0 <= j < |e.log| ==>
        if pace.Some? then
          e.log[j].pacing.Some? && pace.value.lo <= e.log[j].pacing.value <= pace.value.hi
        else e.log[j].pacing.None?
  {
    if retryCount > 0 {
      RetriedFromShape(0, retryCount, pace, draws, op);
      var e := Retried(retryCount, pace, draws, op);
      forall j | 0 <= j < |e.log| && pace.Some?
        ensures pace.value.lo <= e.log[j].pacing.value <= pace.value.hi
      {
        UniformWithin(pace.value, draws(j));
      }
    }
  }

  /** A failed attempt that is not the last one backs off and hands over to the
      next attempt. */
  lemma RetriedFromFailure<T>(a: nat, n: nat, pace: Option<Range>, draws: nat -> real, op: nat -> Attempt<T>)
    requires a + 1 < n && op(a).Failure?
    ensures var rest := RetriedFrom(a + 1, n, pace, draws, op);
      RetriedFrom(a, n, pace, draws, op) ==
        Execution(rest.outcome, [AttemptLog(PacingAt(pace, draws, a), Some(Pow2(a)))] + rest.log)
  {
  }

  /** The retry loop as the source writes it. */
  method Execute<T>(retryCount: int, pace: Option<Range>, draws: nat -> real, op: nat -> Attempt<T>)
    returns (e: Execution<T>)
    ensures e == Retried(retryCount, pace, draws, op)
  {
    if retryCount <= 0 {
      return Execution(NoAttempt, []);
    }
    var log: seq<AttemptLog> := [];
    var attempt: nat := 0;
    while attempt < retryCount
      invariant attempt < retryCount
      invariant var rest := RetriedFrom(attempt, retryCount, pace, draws, op);
        Retried(retryCount, pace, draws, op) == Execution(rest.outcome, log + rest.log)
      decreases retryCount - attempt
    {
      var pacing := PacingAt(pace, draws, attempt);
      match op(attempt) {
        case Success(p) =>
          return Execution(Succeeded(p, attempt + 1), log + [AttemptLog(pacing, None)]);
        case Failure(c) =>
          if attempt + 1 < retryCount {
            RetriedFromFailure(attempt, retryCount, pace, draws, op);
            var entry := AttemptLog(pacing, Some(Pow2(attempt)));
            var rest := RetriedFrom(attempt + 1, retryCount, pace, draws, op);
            assert log + ([entry] + rest.log) == (log + [entry]) + rest.log;
            log := log + [entry];
          } else {
            return Execution(Exhausted(c, retryCount), log + [AttemptLog(pacing, None)]);
          }
      }
      attempt := attempt + 1;
    }
  }

  /** Three attempts allowed; the operation fails twice and then succeeds: three
      attempts are made, with backoffs of 1 and 2 seconds between them. */
  lemma FailTwiceThenSucceed<T>(pace: Option<Range>, draws: nat -> real, op: nat -> Attempt<T>, p: T)
    requires op(0).Failure? && op(1).Failure? && op(2) == Success(p)
    ensures var e := Retried(3, pace, draws, op);
      && e.outcome == Succeeded(p, 3)
      && |e.log| == 3
      && e.log[0].backoff == Some(1) && e.log[1].backoff == Some(2) && e.log[2].backoff == None
  {
    var e := Retried(3, pace, draws, op);
    assert Pow2(1) == 2;
    assert e.log == [AttemptLog(PacingAt(pace, draws, 0), Some(1))] + ([AttemptLog(PacingAt(pace, draws, 1), Some(2))] + [AttemptLog(PacingAt(pace, draws, 2), None)]);
  }
}
