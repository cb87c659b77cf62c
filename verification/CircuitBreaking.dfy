/** The circuit breaker that requests to one endpoint share. */
module CircuitBreaking {
  import opened Wrappers

  datatype CircuitState = Closed | Open | HalfOpen

  /** Times are in nanoseconds. */
  datatype Breaker = Breaker(
    state: CircuitState, consecutiveFailures: nat, threshold: nat, lastFailure: Option<int>, timeoutSecs: nat)

  const NANOS_PER_SECOND: nat := 1_000_000_000

  datatype BreakerStep = Ask | Success | Failure

  function NewBreaker(threshold: nat, timeoutSecs: nat): Breaker {
    Breaker(Closed, 0, threshold, None, timeoutSecs)
  }

  predicate TimedOut(b: Breaker, now: int)
    requires b.lastFailure.Some?
  {
    now - b.lastFailure.value > b.timeoutSecs * NANOS_PER_SECOND
  }

  predicate Admits(b: Breaker, now: int) {
    b.state.Open? ==> b.lastFailure.Some? && TimedOut(b, now)
  }

  function Exec(b: Breaker, step: BreakerStep, now: int): Breaker {
    match step
    case Ask => if b.state.Open? && Admits(b, now) then b.(state := HalfOpen) else b
    case Success => b.(consecutiveFailures := 0, state := Closed)
    case Failure =>
      var counted := b.(consecutiveFailures := b.consecutiveFailures + 1, lastFailure := Some(now));
      if counted.consecutiveFailures >= b.threshold then counted.(state := Open) else counted
  }

  class CircuitBreaker {
    var state: CircuitState
    var consecutiveFailures: nat
    const threshold: nat
    var lastFailure: Option<int>
    const timeoutSecs: nat

    function View(): Breaker
      reads this
    {
      Breaker(state, consecutiveFailures, threshold, lastFailure, timeoutSecs)
    }

    constructor (threshold: nat, timeoutSecs: nat)
      ensures View() == NewBreaker(threshold, timeoutSecs)
    {
      this.threshold, this.timeoutSecs := threshold, timeoutSecs;
      state, consecutiveFailures, lastFailure := Closed, 0, None;
    }

    method CanExecute(now: int) returns (admitted: bool)
      modifies this
      ensures admitted == Admits(old(View()), now) && View() == Exec(old(View()), Ask, now)
    {
      match state
      case Closed => return true;
      case Open =>
        if lastFailure.None? { return false; }
        if now - lastFailure.value > timeoutSecs * 1_000_000_000 {
          state := HalfOpen;
          return true;
        }
        return false;
      case HalfOpen => return true;
    }

    method RecordSuccess(now: int)
      modifies this
      ensures View() == Exec(old(View()), Success, now)
    {
      consecutiveFailures := 0;
      state := Closed;
    }

    method RecordFailure(now: int)
      modifies this
      ensures View() == Exec(old(View()), Failure, now)
    {
      consecutiveFailures := consecutiveFailures + 1;
      lastFailure := Some(now);
      if consecutiveFailures >= threshold { state := Open; }
    }
  }

  // ---- any interleaving of requests ----

  /** What reached one breaker, from however many requests, in the order of its lock. */
  type BreakerLog = seq<(BreakerStep, int)>

  function Replay(start: Breaker, log: BreakerLog): Breaker {
    if log == [] then start
    else Exec(Replay(start, log[..|log| - 1]), log[|log| - 1].0, log[|log| - 1].1)
  }

  /** Failures since the last success. */
  function FailureRun(log: BreakerLog): nat {
    if log == [] then 0
    else
      match log[|log| - 1].0
      case Ask => FailureRun(log[..|log| - 1])
      case Success => 0
      case Failure => FailureRun(log[..|log| - 1]) + 1
  }

  function LastFailure(log: BreakerLog): Option<int> {
    if log == [] then None
    else if log[|log| - 1].0.Failure? then Some(log[|log| - 1].1)
    else LastFailure(log[..|log| - 1])
  }

  ghost predicate InTime(log: BreakerLog, now: int) {
    && (forall i, j | 0 <= i < j < |log| :: log[i].1 <= log[j].1)
    && (forall i | 0 <= i < |log| :: log[i].1 <= now)
  }

  /** The counter is the run of failures; the breaker is closed exactly while that run
      is below the threshold; once half open, the last failure has timed out for good. */
  lemma {:induction false} BreakerCountsTheFailureRun(threshold: nat, timeoutSecs: nat, log: BreakerLog, now: int)
    requires InTime(log, now)
    ensures var b := Replay(NewBreaker(threshold, timeoutSecs), log);
      && b.threshold == threshold && b.timeoutSecs == timeoutSecs
      && b.consecutiveFailures == FailureRun(log)
      && b.lastFailure == LastFailure(log)
      && (b.state.Closed? <==> FailureRun(log) < Max(threshold, 1))
      && (FailureRun(log) > 0 ==> b.lastFailure.Some?)
      && (b.state.HalfOpen? ==> b.lastFailure.Some? && TimedOut(b, now))
  {
    if log != [] {
      var before, last := log[..|log| - 1], log[|log| - 1];
      BreakerCountsTheFailureRun(threshold, timeoutSecs, before, last.1);
    }
  }

  /** A request is refused exactly when the failure run has reached the threshold and
      the last failure is at most the timeout old, whoever asked in between. */
  lemma {:induction false} RefusedExactlyWhileFailuresAreRecent(threshold: nat, timeoutSecs: nat, log: BreakerLog,
        now: int)
    requires InTime(log, now)
    ensures !Admits(Replay(NewBreaker(threshold, timeoutSecs), log), now) <==>
      && FailureRun(log) >= Max(threshold, 1)
      && LastFailure(log).Some? && now - LastFailure(log).value <= timeoutSecs * 1_000_000_000
  {
    BreakerCountsTheFailureRun(threshold, timeoutSecs, log, now);
  }
}
