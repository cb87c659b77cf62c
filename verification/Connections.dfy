/** A request that retries, records what happened on a shared breaker, and falls back
    along a chain of managers. */
module Connections {
  import opened Wrappers
  import opened Results
  import opened CircuitBreaking
  import opened Backoff

  type BreakerId = nat

  datatype ModelError =
    | ApiError(message: string)
    | InvalidResponse(message: string)
    | RateLimited(body: string)
    | CircuitOpen(message: string)

  datatype Provider = Provider(
    build: string -> Result<string, ModelError>,
    parse: string -> Result<string, ModelError>)

  /** Managers made from one another share a breaker. */
  datatype Manager = Manager(
    breaker: BreakerId, provider: Provider, maxRetries: nat, retryDelayMs: nat, fallback: Option<Manager>)

  datatype Reply =
    | SendFailed(error: string)
    | BodyFailed(error: string)
    | Answer(status: nat, statusText: string, retryAfterSecs: Option<nat>, body: string)

  datatype OtherStep = OtherStep(elapsed: nat, breaker: BreakerId, step: BreakerStep)

  /** What happens while this request waits: time passes, other requests use the
      breakers; if it waits for the server, the reply. */
  datatype Moment = Moment(others: seq<OtherStep>, elapsed: nat, reply: Reply)

  type World = nat -> Moment

  datatype Event =
    | Touched(breaker: BreakerId, step: BreakerStep, at: int, mine: bool)
    | Sent(breaker: BreakerId, body: string, moment: nat)
    | Slept(ms: nat)

  datatype Shared = Shared(breakers: map<BreakerId, Breaker>, now: int, moment: nat, events: seq<Event>)

  function Touch(st: Shared, id: BreakerId, step: BreakerStep, mine: bool): Shared {
    if id in st.breakers
    then st.(breakers := st.breakers[id := Exec(st.breakers[id], step, st.now)],
             events := st.events + [Touched(id, step, st.now, mine)])
    else st
  }

  function Others(st: Shared, others: seq<OtherStep>): Shared {
    if others == [] then st else Other(Others(st, others[..|others| - 1]), others[|others| - 1])
  }

  function Other(st: Shared, other: OtherStep): Shared {
    Touch(st.(now := st.now + other.elapsed), other.breaker, other.step, false)
  }

  function Pause(st: Shared, world: World): Shared {
    var others := Others(st, world(st.moment).others);
    others.(now := others.now + world(st.moment).elapsed, moment := st.moment + 1)
  }

  function Log(st: Shared, e: Event): Shared { st.(events := st.events + [e]) }

  function Record(st: Shared, world: World, id: BreakerId, step: BreakerStep): Shared {
    Touch(Pause(st, world), id, step, true)
  }

  function Sleep(st: Shared, world: World, ms: nat): Shared { Pause(Log(st, Slept(ms)), world) }

  predicate IsSuccess(status: nat) { 200 <= status < 300 }

  /** 429s wait as long as the server says, or longer than for other failures. */
  function RateLimitPause(m: Manager, retryAfterSecs: Option<nat>, attempt: nat): nat {
    if retryAfterSecs.Some? then RetryAfterMs(retryAfterSecs.value) else RateLimitBackoffMs(m.retryDelayMs, attempt)
  }

  // ---- a request ----

  /** What one attempt leads to: another one after a pause, the fallback, or an end. */
  datatype Next =
    | Retry(error: ModelError, pause: nat)
    | FallBack(error: ModelError)
    | Return(result: Result<string, ModelError>)

  function Waited(m: Manager, body: string, world: World, st: Shared): Shared {
    Pause(Log(st, Sent(m.breaker, body, st.moment)), world)
  }

  /** One attempt: what it puts on record, and what is next. */
  function AttemptOnce(m: Manager, body: string, world: World, st: Shared, attempt: nat): (Shared, Next) {
    var sent := Waited(m, body, world, st);
    match world(st.moment).reply
    case SendFailed(error) =>
      (Record(sent, world, m.breaker, Failure), Retry(ApiError(error), BackoffMs(m.retryDelayMs, attempt)))
    case BodyFailed(error) => (sent, Return(Err(ApiError(error))))
    case Answer(status, statusText, retryAfterSecs, text) =>
      if status == 429 then
        (Record(sent, world, m.breaker, Failure), Retry(RateLimited(text), RateLimitPause(m, retryAfterSecs, attempt)))
      else if !IsSuccess(status) then
        (Record(sent, world, m.breaker, Failure), FallBack(ApiError("HTTP " + statusText + ": " + text)))
      else
        var parsed := m.provider.parse(text);
        (Record(sent, world, m.breaker, if parsed.Ok? then Success else Failure), Return(parsed))
  }

  function Generated(m: Manager, request: string, world: World, st: Shared): (Shared, Result<string, ModelError>)
    decreases m, 2, 0
  {
    var waited := Pause(st, world);
    var asked := Touch(waited, m.breaker, Ask, true);
    if m.breaker in waited.breakers && !Admits(waited.breakers[m.breaker], waited.now) then
      OrElse(m, request, world, asked, CircuitOpen("Circuit breaker is open"))
    else
      match m.provider.build(request)
      case Err(e) => (asked, Err(e))
      case Ok(body) => Attempted(m, request, body, world, asked, 0)
  }

  function OrElse(m: Manager, request: string, world: World, st: Shared, error: ModelError)
    : (Shared, Result<string, ModelError>)
    decreases m, 0, 0
  {
    if m.fallback.Some? then Generated(m.fallback.value, request, world, st) else (st, Err(error))
  }

  /** Attempt number `attempt`, and whatever follows from it. */
  function Attempted(m: Manager, request: string, body: string, world: World, st: Shared, attempt: nat)
    : (Shared, Result<string, ModelError>)
    requires attempt <= m.maxRetries
    decreases m, 1, m.maxRetries - attempt
  {
    var (after, next) := AttemptOnce(m, body, world, st, attempt);
    match next
    case Return(r) => (after, r)
    case FallBack(error) => OrElse(m, request, world, after, error)
    case Retry(error, pause) =>
      if attempt < m.maxRetries then Attempted(m, request, body, world, Sleep(after, world, pause), attempt + 1)
      else OrElse(m, request, world, after, error)
  }
}
