/** The same requests on real breaker objects, as a retry loop. */
module ConnectionPool {
  import opened Wrappers
  import opened Results
  import opened CircuitBreaking
  import opened Backoff
  import opened Connections

  /** What requests share: the breakers and the clock; and what one request did. */
  class Pool {
    const breakers: map<BreakerId, CircuitBreaker>
    var now: int
    var moment: nat
    var events: seq<Event>

    ghost predicate Valid() {
      forall i, j | i in breakers && j in breakers && i != j :: breakers[i] != breakers[j]
    }

    ghost function View(): Shared
      reads this, breakers.Values
    {
      Shared(map id | id in breakers :: breakers[id].View(), now, moment, events)
    }

    constructor (breakers: map<BreakerId, CircuitBreaker>, now: int)
      requires forall i, j | i in breakers && j in breakers && i != j :: breakers[i] != breakers[j]
      ensures Valid() && this.breakers == breakers && this.now == now && moment == 0 && events == []
    {
      this.breakers, this.now, moment, events := breakers, now, 0, [];
    }

    method TouchBreaker(id: BreakerId, step: BreakerStep, mine: bool) returns (admitted: bool)
      requires Valid()
      modifies this`events, breakers.Values
      ensures View() == Touch(old(View()), id, step, mine)
      ensures step.Ask? ==> admitted == (id in breakers ==> Admits(old(breakers[id].View()), now))
    {
      admitted := true;
      if id !in breakers { return; }
      var breaker := breakers[id];
      match step {
        case Ask => admitted := breaker.CanExecute(now);
        case Success => breaker.RecordSuccess(now);
        case Failure => breaker.RecordFailure(now);
      }
      events := events + [Touched(id, step, now, mine)];
    }

    method LetOther(other: OtherStep)
      requires Valid()
      modifies this`events, this`now, breakers.Values
      ensures View() == Other(old(View()), other)
    {
      now := now + other.elapsed;
      assert View() == old(View()).(now := now);
      var _ := TouchBreaker(other.breaker, other.step, false);
    }

    method LetOthers(others: seq<OtherStep>)
      requires Valid()
      modifies this`events, this`now, breakers.Values
      ensures View() == Others(old(View()), others)
    {
      ghost var before := View();
      for i := 0 to |others|
        invariant View() == Others(before, others[..i])
      {
        assert others[..i + 1][..i] == others[..i];
        LetOther(others[i]);
      }
      assert others[..|others|] == others;
    }

    method Note(e: Event)
      modifies this`events
      ensures View() == Log(old(View()), e)
    {
      events := events + [e];
      assert View().breakers == old(View()).breakers;
    }

    method Wait(world: World)
      requires Valid()
      modifies this`events, this`now, this`moment, breakers.Values
      ensures View() == Pause(old(View()), world)
    {
      LetOthers(world(moment).others);
      now := now + world(moment).elapsed;
      moment := moment + 1;
    }

    method RecordOutcome(world: World, id: BreakerId, step: BreakerStep)
      requires Valid()
      modifies this, breakers.Values
      ensures View() == Record(old(View()), world, id, step)
    {
      Wait(world);
      var _ := TouchBreaker(id, step, true);
    }

    method Send(world: World, id: BreakerId, body: string) returns (reply: Reply)
      requires Valid()
      modifies this, breakers.Values
      ensures reply == world(old(moment)).reply
      ensures View() == Pause(Log(old(View()), Sent(id, body, old(moment))), world)
    {
      reply := world(moment).reply;
      Note(Sent(id, body, moment));
      Wait(world);
    }

    method SleepMs(world: World, ms: nat)
      requires Valid()
      modifies this, breakers.Values
      ensures View() == Sleep(old(View()), world, ms)
    {
      Note(Slept(ms));
      Wait(world);
    }
  }

  method Attempt(pool: Pool, m: Manager, body: string, world: World, attempt: nat) returns (next: Next)
    requires pool.Valid()
    modifies pool, pool.breakers.Values
    ensures (pool.View(), next) == AttemptOnce(m, body, world, old(pool.View()), attempt)
  {
    var reply := pool.Send(world, m.breaker, body);
    match reply
    case SendFailed(error) =>
      pool.RecordOutcome(world, m.breaker, Failure);
      return Retry(ApiError(error), BackoffMs(m.retryDelayMs, attempt));
    case BodyFailed(error) =>
      return Return(Err(ApiError(error)));
    case Answer(status, statusText, retryAfterSecs, text) =>
      if status == 429 {
        pool.RecordOutcome(world, m.breaker, Failure);
        var pause;
        match retryAfterSecs {
          case Some(secs) => pause := RetryAfterMs(secs);
          case None => pause := RateLimitBackoffMs(m.retryDelayMs, attempt);
        }
        return Retry(RateLimited(text), pause);
      } else if status < 200 || status >= 300 {
        pool.RecordOutcome(world, m.breaker, Failure);
        return FallBack(ApiError("HTTP " + statusText + ": " + text));
      }
      var parsed := m.provider.parse(text);
      pool.RecordOutcome(world, m.breaker, if parsed.Ok? then Success else Failure);
      return Return(parsed);
  }

  /** The retry loop and the fallback chain, over shared breaker objects. */
  method Generate(pool: Pool, m: Manager, request: string, world: World) returns (r: Result<string, ModelError>)
    requires pool.Valid()
    modifies pool, pool.breakers.Values
    ensures (pool.View(), r) == Generated(m, request, world, old(pool.View()))
    decreases m, 2
  {
    pool.Wait(world);
    var admitted := pool.TouchBreaker(m.breaker, Ask, true);
    if !admitted {
      r := FallBackOr(pool, m, request, world, CircuitOpen("Circuit breaker is open"));
      return;
    }
    var built := m.provider.build(request);
    if built.Err? { return Err(built.error); }
    r := AttemptAll(pool, m, request, built.value, world);
  }

  method AttemptAll(pool: Pool, m: Manager, request: string, body: string, world: World)
    returns (r: Result<string, ModelError>)
    requires pool.Valid()
    modifies pool, pool.breakers.Values
    ensures (pool.View(), r) == Attempted(m, request, body, world, old(pool.View()), 0)
    decreases m, 1
  {
    ghost var goal := Attempted(m, request, body, world, pool.View(), 0);
    var attempt := 0;
    var lastError: Option<ModelError> := None;
    while attempt <= m.maxRetries
      invariant attempt <= m.maxRetries + 1
      invariant attempt <= m.maxRetries ==> Attempted(m, request, body, world, pool.View(), attempt) == goal
      invariant attempt > m.maxRetries ==> lastError.Some?
      invariant attempt > m.maxRetries ==> OrElse(m, request, world, pool.View(), lastError.value) == goal
    {
      var next := Attempt(pool, m, body, world, attempt);
      match next {
        case Return(result) => return result;
        case FallBack(error) =>
          r := FallBackOr(pool, m, request, world, error);
          return;
        case Retry(error, pause) =>
          lastError := Some(error);
          if attempt < m.maxRetries { pool.SleepMs(world, pause); }
          attempt := attempt + 1;
      }
    }
    r := FallBackOr(pool, m, request, world, lastError.value);
  }

  method FallBackOr(pool: Pool, m: Manager, request: string, world: World, error: ModelError)
    returns (r: Result<string, ModelError>)
    requires pool.Valid()
    modifies pool, pool.breakers.Values
    ensures (pool.View(), r) == OrElse(m, request, world, old(pool.View()), error)
    decreases m, 0
  {
    if m.fallback.None? { return Err(error); }
    r := Generate(pool, m.fallback.value, request, world);
  }
}
