/** What every request keeps to, whatever servers answer and other requests do meanwhile.

    First what a stretch of a request costs, then how requests conclude, then the shared
    breakers: each is where the whole log of steps, of all requests, has brought it. */
module ConnectionTheorems {
  import opened Wrappers
  import opened Results
  import opened CircuitBreaking
  import opened Backoff
  import opened Connections

  // ---- counting ----

  function Sends(events: seq<Event>): nat {
    if events == [] then 0 else Sends(events[..|events| - 1]) + if events[|events| - 1].Sent? then 1 else 0
  }

  function Sleeps(events: seq<Event>): nat {
    if events == [] then 0 else Sleeps(events[..|events| - 1]) + if events[|events| - 1].Slept? then 1 else 0
  }

  predicate IsRecord(e: Event) { e.Touched? && e.mine && !e.step.Ask? }

  /** Outcomes that this request put on record. */
  function Records(events: seq<Event>): nat {
    if events == [] then 0 else Records(events[..|events| - 1]) + if IsRecord(events[|events| - 1]) then 1 else 0
  }

  predicate IsRead(e: Event, world: World) { e.Sent? && !world(e.moment).reply.BodyFailed? }

  /** Sends whose outcome could be told: all but those with an unreadable body. */
  function Told(events: seq<Event>, world: World): nat {
    if events == [] then 0
    else Told(events[..|events| - 1], world) + if IsRead(events[|events| - 1], world) then 1 else 0
  }

  /** What reached one breaker, from this request and from others. */
  function LogFor(events: seq<Event>, id: BreakerId): BreakerLog {
    if events == [] then []
    else
      var last := events[|events| - 1];
      LogFor(events[..|events| - 1], id) + if last.Touched? && last.breaker == id then [(last.step, last.at)] else []
  }

  // ---- budgets ----

  function SendBudget(m: Manager): nat {
    m.maxRetries + 1 + if m.fallback.Some? then SendBudget(m.fallback.value) else 0
  }

  function SleepBudget(m: Manager): nat {
    m.maxRetries + if m.fallback.Some? then SleepBudget(m.fallback.value) else 0
  }

  function LongestSleep(m: Manager): nat {
    Max(LongestPause(m.retryDelayMs), if m.fallback.Some? then LongestSleep(m.fallback.value) else 0)
  }

  predicate Known(m: Manager, ids: set<BreakerId>) {
    m.breaker in ids && (m.fallback.Some? ==> Known(m.fallback.value, ids))
  }

  // ---- what a stretch of a request costs ----

  /** `owed` is how many sends are not on record yet. */
  datatype Cost = Cost(sends: nat, sleeps: nat, owed: int, longest: nat)

  function Plus(a: Cost, b: Cost): Cost {
    Cost(a.sends + b.sends, a.sleeps + b.sleeps, a.owed + b.owed, Max(a.longest, b.longest))
  }

  predicate InBudget(first: Cost, second: Cost, whole: Cost) {
    && first.sends + second.sends <= whole.sends && first.sleeps + second.sleeps <= whole.sleeps
    && first.owed + second.owed == whole.owed && first.longest <= whole.longest && second.longest <= whole.longest
  }

  const NOTHING := Cost(0, 0, 0, 0)

  function Whole(m: Manager): Cost { Cost(SendBudget(m), SleepBudget(m), 0, LongestSleep(m)) }

  function Rest(m: Manager): Cost { if m.fallback.Some? then Whole(m.fallback.value) else NOTHING }

  /** What may still be spent once an attempt has failed. */
  function AfterAttempt(m: Manager, attempt: nat): Cost
    requires attempt <= m.maxRetries
  {
    Cost(m.maxRetries - attempt + Rest(m).sends, m.maxRetries - attempt + Rest(m).sleeps, 0, LongestSleep(m))
  }

  const ONE_ATTEMPT := Cost(1, 0, 0, 0)

  ghost predicate Extends(a: Shared, b: Shared) {
    |a.events| <= |b.events| && b.events[..|a.events|] == a.events && a.breakers.Keys == b.breakers.Keys
  }

  ghost predicate Went(world: World, a: Shared, b: Shared, c: Cost) {
    && Extends(a, b)
    && Sends(b.events) <= Sends(a.events) + c.sends
    && Sleeps(b.events) <= Sleeps(a.events) + c.sleeps
    && Told(b.events, world) - Told(a.events, world) == Records(b.events) - Records(a.events) + c.owed
    && (forall i | |a.events| <= i < |b.events| && b.events[i].Slept? :: b.events[i].ms <= c.longest)
  }

  /** No success of this request's own went on record from position `from` on. */
  ghost predicate Quiet(events: seq<Event>, from: nat) {
    forall i | from <= i < |events| :: !(IsRecord(events[i]) && events[i].step.Success?)
  }

  lemma WentOn(world: World, a: Shared, b: Shared, c: Shared, first: Cost, second: Cost)
    requires Went(world, a, b, first) && Went(world, b, c, second)
    ensures Went(world, a, c, Plus(first, second))
    ensures Quiet(b.events, |a.events|) && Quiet(c.events, |b.events|) ==> Quiet(c.events, |a.events|)
  {
    assert c.events[..|a.events|] == c.events[..|b.events|][..|a.events|];
    forall i | |a.events| <= i < |b.events| ensures c.events[i] == b.events[i] {
      assert c.events[..|b.events|][i] == b.events[i];
    }
  }

  lemma Within(world: World, a: Shared, b: Shared, c: Cost, more: Cost)
    requires Went(world, a, b, c)
    requires c.sends <= more.sends && c.sleeps <= more.sleeps && c.owed == more.owed && c.longest <= more.longest
    ensures Went(world, a, b, more)
  {
  }

  // ---- single steps ----

  lemma OneEvent(world: World, a: Shared, b: Shared, e: Event)
    requires b.events == a.events + [e] && a.breakers.Keys == b.breakers.Keys
    ensures Went(world, a, b, Cost(if e.Sent? then 1 else 0, if e.Slept? then 1 else 0,
                                   (if IsRead(e, world) then 1 else 0) - (if IsRecord(e) then 1 else 0),
                                   if e.Slept? then e.ms else 0))
    ensures Quiet(b.events, |a.events|) <==> !(IsRecord(e) && e.step.Success?)
  {
    assert b.events[..|b.events| - 1] == a.events;
    assert b.events[|a.events|] == e;
  }

  lemma {:induction false} OthersWent(world: World, st: Shared, others: seq<OtherStep>)
    ensures Went(world, st, Others(st, others), NOTHING) && Quiet(Others(st, others).events, |st.events|)
  {
    if others != [] {
      var before, last := Others(st, others[..|others| - 1]), others[|others| - 1];
      OthersWent(world, st, others[..|others| - 1]);
      OtherWent(world, before, last);
      WentOn(world, st, before, Other(before, last), NOTHING, NOTHING);
    }
  }

  lemma OtherWent(world: World, st: Shared, other: OtherStep)
    ensures Went(world, st, Other(st, other), NOTHING) && Quiet(Other(st, other).events, |st.events|)
  {
    if other.breaker in st.breakers {
      OneEvent(world, st, Other(st, other), Touched(other.breaker, other.step, st.now + other.elapsed, false));
    }
  }

  lemma PauseWent(world: World, st: Shared)
    ensures Went(world, st, Pause(st, world), NOTHING) && Quiet(Pause(st, world).events, |st.events|)
  {
    OthersWent(world, st, world(st.moment).others);
  }

  predicate IsOwn(e: Event, id: BreakerId, step: BreakerStep) {
    e.Touched? && e.mine && e.breaker == id && e.step == step
  }

  /** The last event is this request's own step on a breaker, its first of note since `a`. */
  ghost predicate EndsWith(a: Shared, b: Shared, id: BreakerId, step: BreakerStep) {
    && |b.events| > |a.events|
    && IsOwn(b.events[|b.events| - 1], id, step)
    && Quiet(b.events[..|b.events| - 1], |a.events|)
  }

  lemma RecordWent(world: World, st: Shared, id: BreakerId, step: BreakerStep)
    requires id in st.breakers
    ensures var after := Record(st, world, id, step);
      Went(world, st, after, RecordCost(step)) && EndsWith(st, after, id, step)
  {
    RecordCosts(world, st, id, step);
    PauseWent(world, st);
    var waited := Pause(st, world);
    TouchEnds(st, waited, Record(st, world, id, step), Touched(id, step, waited.now, true));
  }

  function RecordCost(step: BreakerStep): Cost { Cost(0, 0, if step.Ask? then 0 else -1, 0) }

  lemma RecordCosts(world: World, st: Shared, id: BreakerId, step: BreakerStep)
    requires id in st.breakers
    ensures Went(world, st, Record(st, world, id, step), RecordCost(step))
  {
    var waited, after := Pause(st, world), Record(st, world, id, step);
    PauseWent(world, st);
    OneTouch(world, waited, after, Touched(id, step, waited.now, true));
    WentOn(world, st, waited, after, NOTHING, RecordCost(step));
  }

  lemma OneTouch(world: World, a: Shared, b: Shared, e: Event)
    requires b.events == a.events + [e] && a.breakers.Keys == b.breakers.Keys && e.Touched? && e.mine
    ensures Went(world, a, b, RecordCost(e.step))
  {
    OneEvent(world, a, b, e);
  }

  lemma TouchEnds(a: Shared, b: Shared, c: Shared, e: Event)
    requires Extends(a, b) && Quiet(b.events, |a.events|)
    requires e.Touched? && e.mine && c.events == b.events + [e]
    ensures EndsWith(a, c, e.breaker, e.step)
  {
    assert c.events[..|c.events| - 1] == b.events;
  }

  lemma NotSuccessIsQuiet(events: seq<Event>, from: nat)
    requires |events| > 0 && Quiet(events[..|events| - 1], from)
    requires !(IsRecord(events[|events| - 1]) && events[|events| - 1].step.Success?)
    ensures Quiet(events, from)
  {
    forall i | from <= i < |events| ensures !(IsRecord(events[i]) && events[i].step.Success?) {
      if i < |events| - 1 { assert events[..|events| - 1][i] == events[i]; }
    }
  }

  lemma SendWent(m: Manager, body: string, world: World, st: Shared)
    ensures var sent := Waited(m, body, world, st);
      && Went(world, st, sent, Cost(1, 0, if world(st.moment).reply.BodyFailed? then 0 else 1, 0))
      && Quiet(sent.events, |st.events|)
  {
    var e := Sent(m.breaker, body, st.moment);
    var logged := Log(st, e);
    OneEvent(world, st, logged, e);
    PauseWent(world, logged);
    WentOn(world, st, logged, Pause(logged, world), Cost(1, 0, if IsRead(e, world) then 1 else 0, 0), NOTHING);
  }

  lemma SendIsFirst(m: Manager, body: string, world: World, st: Shared)
    ensures var sent := Waited(m, body, world, st);
      |st.events| < |sent.events| && sent.events[|st.events|] == Sent(m.breaker, body, st.moment)
  {
    var logged := Log(st, Sent(m.breaker, body, st.moment));
    PauseWent(world, logged);
    FirstEvent(st, logged, Pause(logged, world), Sent(m.breaker, body, st.moment));
  }

  lemma FirstEvent(a: Shared, b: Shared, c: Shared, e: Event)
    requires b.events == a.events + [e] && Extends(b, c)
    ensures |a.events| < |c.events| && c.events[|a.events|] == e
  {
    assert c.events[..|b.events|][|a.events|] == e;
  }

  lemma SleepWent(world: World, st: Shared, ms: nat)
    ensures Went(world, st, Sleep(st, world, ms), Cost(0, 1, 0, ms)) && Quiet(Sleep(st, world, ms).events, |st.events|)
  {
    var logged := Log(st, Slept(ms));
    OneEvent(world, st, logged, Slept(ms));
    PauseWent(world, logged);
    WentOn(world, st, logged, Sleep(st, world, ms), Cost(0, 1, 0, ms), NOTHING);
  }

  lemma AttemptWent(m: Manager, body: string, world: World, st: Shared, step: BreakerStep)
    requires m.breaker in st.breakers && !step.Ask? && !world(st.moment).reply.BodyFailed?
    ensures var after := Record(Waited(m, body, world, st), world, m.breaker, step);
      Went(world, st, after, ONE_ATTEMPT) && EndsWith(st, after, m.breaker, step)
  {
    var sent := Waited(m, body, world, st);
    SendWent(m, body, world, st);
    RecordWent(world, sent, m.breaker, step);
    RecordPays(world, st, sent, Record(sent, world, m.breaker, step), m.breaker, step);
  }

  lemma RecordPays(world: World, a: Shared, b: Shared, c: Shared, id: BreakerId, step: BreakerStep)
    requires Went(world, a, b, Cost(1, 0, 1, 0)) && Quiet(b.events, |a.events|)
    requires Went(world, b, c, Cost(0, 0, -1, 0)) && EndsWith(b, c, id, step)
    ensures Went(world, a, c, ONE_ATTEMPT) && EndsWith(a, c, id, step)
  {
    WentOn(world, a, b, c, Cost(1, 0, 1, 0), Cost(0, 0, -1, 0));
    var init := c.events[..|c.events| - 1];
    assert init[..|b.events|] == c.events[..|b.events|];
    QuietOn(b.events, init, |a.events|);
  }

  lemma QuietOn(events: seq<Event>, more: seq<Event>, from: nat)
    requires |events| <= |more| && more[..|events|] == events
    requires Quiet(events, from) && Quiet(more, |events|)
    ensures Quiet(more, from)
  {
    forall i | from <= i < |events| ensures more[i] == events[i] {
      assert more[..|events|][i] == events[i];
    }
  }

  lemma FailureWent(m: Manager, body: string, world: World, st: Shared)
    requires m.breaker in st.breakers && !world(st.moment).reply.BodyFailed?
    ensures var after := Record(Waited(m, body, world, st), world, m.breaker, Failure);
      Went(world, st, after, ONE_ATTEMPT) && Quiet(after.events, |st.events|)
  {
    AttemptWent(m, body, world, st, Failure);
    NotSuccessIsQuiet(Record(Waited(m, body, world, st), world, m.breaker, Failure).events, |st.events|);
  }

  // ---- conclusions ----

  ghost predicate GoodAnswer(m: Manager, request: string, world: World, e: Event, response: string) {
    && e.Sent? && e.breaker == m.breaker && m.provider.build(request) == Ok(e.body)
    && var reply := world(e.moment).reply;
      reply.Answer? && IsSuccess(reply.status) && m.provider.parse(reply.body) == Ok(response)
  }

  /** Some manager of the chain sent its request after position `from`, got this
      response, and its breaker is the one touched last. */
  ghost predicate AnsweredBy(m: Manager, request: string, world: World, events: seq<Event>, from: nat, response: string)
    requires |events| > 0 && events[|events| - 1].Touched?
  {
    || (&& events[|events| - 1].breaker == m.breaker
        && exists i | from <= i < |events| :: GoodAnswer(m, request, world, events[i], response))
    || (m.fallback.Some? && AnsweredBy(m.fallback.value, request, world, events, from, response))
  }

  ghost predicate Concluded(m: Manager, request: string, world: World, from: nat, after: Shared,
                            r: Result<string, ModelError>)
  {
    var events := after.events;
    match r
    case Err(_) => Quiet(events, from)
    case Ok(response) =>
      && |events| > from && Quiet(events[..|events| - 1], from)
      && IsRecord(events[|events| - 1]) && events[|events| - 1].step.Success?
      && AnsweredBy(m, request, world, events, from, response)
  }

  lemma {:induction false} AnsweredByEarlier(m: Manager, request: string, world: World, events: seq<Event>,
        from: nat, earlier: nat, response: string)
    requires |events| > 0 && events[|events| - 1].Touched? && earlier <= from
    requires AnsweredBy(m, request, world, events, from, response)
    ensures AnsweredBy(m, request, world, events, earlier, response)
  {
    if m.fallback.Some? && AnsweredBy(m.fallback.value, request, world, events, from, response) {
      AnsweredByEarlier(m.fallback.value, request, world, events, from, earlier, response);
    }
  }

  /** A quiet beginning does not change how a request concludes. */
  lemma ConcludedEarlier(m: Manager, request: string, world: World, a: Shared, b: Shared, after: Shared,
        r: Result<string, ModelError>)
    requires Extends(a, b) && Extends(b, after) && Quiet(b.events, |a.events|)
    requires Concluded(m, request, world, |b.events|, after, r)
    ensures Concluded(m, request, world, |a.events|, after, r)
  {
    var events := after.events;
    if r.Ok? {
      var init := events[..|events| - 1];
      assert init[..|b.events|] == events[..|b.events|];
      QuietOn(b.events, init, |a.events|);
      AnsweredByEarlier(m, request, world, events, |b.events|, |a.events|, r.value);
    } else {
      QuietOn(b.events, events, |a.events|);
    }
  }

  lemma {:induction false} GeneratedWent(m: Manager, request: string, world: World, st: Shared)
    requires Known(m, st.breakers.Keys)
    ensures var (after, r) := Generated(m, request, world, st);
      Went(world, st, after, Whole(m)) && Concluded(m, request, world, |st.events|, after, r)
    decreases m, 2, 0
  {
    var asked := Record(st, world, m.breaker, Ask);
    RecordWent(world, st, m.breaker, Ask);
    NotSuccessIsQuiet(asked.events, |st.events|);
    PauseWent(world, st);
    var waited := Pause(st, world);
    var (after, r) := Generated(m, request, world, st);
    if !Admits(waited.breakers[m.breaker], waited.now) {
      OrElseWent(m, request, world, asked, CircuitOpen("Circuit breaker is open"));
      assert InBudget(NOTHING, Rest(m), Whole(m));
      Joined(m, request, world, st, asked, after, r, NOTHING, Rest(m), Whole(m));
    } else if m.provider.build(request).Ok? {
      AttemptedWent(m, request, m.provider.build(request).value, world, asked, 0);
      assert InBudget(NOTHING, Plus(ONE_ATTEMPT, AfterAttempt(m, 0)), Whole(m));
      Joined(m, request, world, st, asked, after, r, NOTHING, Plus(ONE_ATTEMPT, AfterAttempt(m, 0)), Whole(m));
    } else {
      Within(world, st, asked, Cost(0, 0, 0, 0), Whole(m));
    }
  }

  /** First one stretch, quietly, then the other, within a budget for both. */
  lemma Joined(m: Manager, request: string, world: World, a: Shared, b: Shared, after: Shared,
        r: Result<string, ModelError>, first: Cost, second: Cost, whole: Cost)
    requires Went(world, a, b, first) && Went(world, b, after, second)
    requires Quiet(b.events, |a.events|) && Concluded(m, request, world, |b.events|, after, r)
    requires InBudget(first, second, whole)
    ensures Went(world, a, after, whole) && Concluded(m, request, world, |a.events|, after, r)
  {
    WentOn(world, a, b, after, first, second);
    Within(world, a, after, Plus(first, second), whole);
    ConcludedEarlier(m, request, world, a, b, after, r);
  }

  lemma {:induction false} OrElseWent(m: Manager, request: string, world: World, st: Shared, error: ModelError)
    requires Known(m, st.breakers.Keys)
    ensures var (after, r) := OrElse(m, request, world, st, error);
      Went(world, st, after, Rest(m)) && Concluded(m, request, world, |st.events|, after, r)
    decreases m, 0, 0
  {
    if m.fallback.Some? { GeneratedWent(m.fallback.value, request, world, st); }
  }

  /** One attempt is one send, told at most once; only an answer puts a success on record. */
  lemma AttemptOnceWent(m: Manager, request: string, body: string, world: World, st: Shared, attempt: nat)
    requires m.breaker in st.breakers && m.provider.build(request) == Ok(body)
    ensures var (after, next) := AttemptOnce(m, body, world, st, attempt);
      && Went(world, st, after, ONE_ATTEMPT)
      && (if next.Return? then Concluded(m, request, world, |st.events|, after, next.result)
          else Quiet(after.events, |st.events|))
      && (next.Retry? ==> next.pause <= LongestPause(m.retryDelayMs))
  {
    var reply := world(st.moment).reply;
    PausesAreBounded(m.retryDelayMs, attempt);
    if reply.BodyFailed? {
      SendWent(m, body, world, st);
    } else if reply.Answer? && IsSuccess(reply.status) && m.provider.parse(reply.body).Ok? {
      SuccessWent(m, request, body, world, st, m.provider.parse(reply.body).value);
    } else {
      FailureWent(m, body, world, st);
    }
  }

  lemma {:induction false} AttemptedWent(m: Manager, request: string, body: string, world: World, st: Shared,
        attempt: nat)
    requires Known(m, st.breakers.Keys) && attempt <= m.maxRetries && m.provider.build(request) == Ok(body)
    ensures var (after, r) := Attempted(m, request, body, world, st, attempt);
      && Went(world, st, after, Plus(ONE_ATTEMPT, AfterAttempt(m, attempt)))
      && Concluded(m, request, world, |st.events|, after, r)
    decreases m, 1, m.maxRetries - attempt
  {
    var budget := Plus(ONE_ATTEMPT, AfterAttempt(m, attempt));
    var (after, r) := Attempted(m, request, body, world, st, attempt);
    var (once, next) := AttemptOnce(m, body, world, st, attempt);
    AttemptOnceWent(m, request, body, world, st, attempt);
    match next
    case Return(_) =>
      Within(world, st, after, ONE_ATTEMPT, budget);
    case FallBack(error) =>
      OrElseWent(m, request, world, once, error);
      Joined(m, request, world, st, once, after, r, ONE_ATTEMPT, Rest(m), budget);
    case Retry(error, pause) =>
      if attempt < m.maxRetries {
        RetryWent(m, request, body, world, once, attempt, pause);
        Joined(m, request, world, st, once, after, r, ONE_ATTEMPT, AfterAttempt(m, attempt), budget);
      } else {
        OrElseWent(m, request, world, once, error);
        Joined(m, request, world, st, once, after, r, ONE_ATTEMPT, Rest(m), budget);
      }
  }

  lemma SuccessWent(m: Manager, request: string, body: string, world: World, st: Shared, response: string)
    requires m.breaker in st.breakers && GoodAnswer(m, request, world, Sent(m.breaker, body, st.moment), response)
    ensures var after := Record(Waited(m, body, world, st), world, m.breaker, Success);
      Went(world, st, after, ONE_ATTEMPT) && Concluded(m, request, world, |st.events|, after, Ok(response))
  {
    var sent := Waited(m, body, world, st);
    var after := Record(sent, world, m.breaker, Success);
    AttemptWent(m, body, world, st, Success);
    SendIsFirst(m, body, world, st);
    SendWent(m, body, world, st);
    RecordWent(world, sent, m.breaker, Success);
    assert after.events[..|sent.events|][|st.events|] == Sent(m.breaker, body, st.moment);
    assert GoodAnswer(m, request, world, after.events[|st.events|], response);
  }

  /** A pause, and then the next attempt. */
  lemma {:induction false} RetryWent(m: Manager, request: string, body: string, world: World, st: Shared,
        attempt: nat, pause: nat)
    requires Known(m, st.breakers.Keys) && attempt < m.maxRetries && m.provider.build(request) == Ok(body)
    requires pause <= LongestPause(m.retryDelayMs)
    ensures var (after, r) := Attempted(m, request, body, world, Sleep(st, world, pause), attempt + 1);
      Went(world, st, after, AfterAttempt(m, attempt)) && Concluded(m, request, world, |st.events|, after, r)
    decreases m, 1, m.maxRetries - attempt, 0
  {
    var slept := Sleep(st, world, pause);
    SleepWent(world, st, pause);
    AttemptedWent(m, request, body, world, slept, attempt + 1);
    var (after, r) := Attempted(m, request, body, world, slept, attempt + 1);
    NextAttemptInBudget(m, attempt, pause);
    Joined(m, request, world, st, slept, after, r,
           Cost(0, 1, 0, pause), Plus(ONE_ATTEMPT, AfterAttempt(m, attempt + 1)), AfterAttempt(m, attempt));
  }

  lemma NextAttemptInBudget(m: Manager, attempt: nat, pause: nat)
    requires attempt < m.maxRetries && pause <= LongestPause(m.retryDelayMs)
    ensures InBudget(Cost(0, 1, 0, pause), Plus(ONE_ATTEMPT, AfterAttempt(m, attempt + 1)), AfterAttempt(m, attempt))
  {
  }

  // ---- the guarantees ----

  /** After a failed send, or a 429, that is not the last attempt, the request sleeps before it
      tries again: as long as the server says, a minute at most, or as its own backoff has it. */
  lemma {:induction false} RetriesSleepExactly(m: Manager, request: string, body: string, world: World, st: Shared,
        attempt: nat)
    requires Known(m, st.breakers.Keys) && attempt < m.maxRetries && m.provider.build(request) == Ok(body)
    requires var reply := world(st.moment).reply; reply.SendFailed? || (reply.Answer? && reply.status == 429)
    ensures var once := AttemptOnce(m, body, world, st, attempt).0.events;
      var events := Attempted(m, request, body, world, st, attempt).0.events;
      && |events| > |once| && events[..|once|] == once && events[|once|].Slept?
      && events[|once|].ms
         == match world(st.moment).reply
            case Answer(_, _, Some(secs), _) => if secs >= 60 then 60_000 else secs * 1000
            case Answer(_, _, None, _) => RateLimitBackoffMs(m.retryDelayMs, attempt)
            case _ => BackoffMs(m.retryDelayMs, attempt)
  {
    var (once, next) := AttemptOnce(m, body, world, st, attempt);
    AttemptOnceWent(m, request, body, world, st, attempt);
    SleepGoesFirst(m, request, body, world, once, attempt + 1, next.pause);
  }

  lemma {:induction false} SleepGoesFirst(m: Manager, request: string, body: string, world: World, st: Shared,
        attempt: nat, ms: nat)
    requires Known(m, st.breakers.Keys) && attempt <= m.maxRetries && m.provider.build(request) == Ok(body)
    ensures var events := Attempted(m, request, body, world, Sleep(st, world, ms), attempt).0.events;
      |events| > |st.events| && events[..|st.events|] == st.events && events[|st.events|] == Slept(ms)
  {
    var slept := Sleep(st, world, ms);
    var logged := Log(st, Slept(ms));
    PauseWent(world, logged);
    AttemptedWent(m, request, body, world, slept, attempt);
    var events := Attempted(m, request, body, world, slept, attempt).0.events;
    assert events[..|slept.events|] == slept.events && slept.events[..|logged.events|] == logged.events;
    assert events[..|logged.events|] == events[..|slept.events|][..|logged.events|];
    assert events[..|st.events|] == events[..|logged.events|][..|st.events|];
    assert events[|st.events|] == events[..|logged.events|][|st.events|];
  }

  /** Any other answer is not tried again: outside 200 to 299 it goes to the fallback. */
  lemma OtherAnswersAreNotRetried(m: Manager, body: string, world: World, st: Shared, attempt: nat)
    requires var reply := world(st.moment).reply; reply.Answer? && reply.status != 429
    ensures var next, reply := AttemptOnce(m, body, world, st, attempt).1, world(st.moment).reply;
      if 200 <= reply.status <= 299 then next == Return(m.provider.parse(reply.body))
      else next == FallBack(ApiError("HTTP " + reply.statusText + ": " + reply.body))
  {
  }

  /** A request ends after at most one more send than retries for each manager of the
      chain, and never pauses after a manager's last attempt or for longer than the
      longest pause; every send whose outcome could be told is on record, once. */
  lemma {:induction false} GenerateIsBounded(m: Manager, request: string, world: World, st: Shared)
    requires Known(m, st.breakers.Keys)
    ensures var after := Generated(m, request, world, st).0;
      && |st.events| <= |after.events| && after.events[..|st.events|] == st.events
      && Sends(after.events) - Sends(st.events) <= SendBudget(m)
      && Sleeps(after.events) - Sleeps(st.events) <= SleepBudget(m)
      && (forall i | |st.events| <= i < |after.events| && after.events[i].Slept? ::
        after.events[i].ms <= LongestSleep(m))
      && Told(after.events, world) - Told(st.events, world) == Records(after.events) - Records(st.events)
  {
    GeneratedWent(m, request, world, st);
  }

  /** An answer comes from a manager of the chain whose breaker was just told of the
      success; without an answer, no success went on record. */
  lemma {:induction false} AnswersAreOnRecord(m: Manager, request: string, world: World, st: Shared)
    requires Known(m, st.breakers.Keys)
    ensures var (after, r) := Generated(m, request, world, st);
      && (r.Ok? ==>
            && |after.events| > |st.events|
            && IsRecord(after.events[|after.events| - 1]) && after.events[|after.events| - 1].step.Success?
            && AnsweredBy(m, request, world, after.events, |st.events|, r.value)
            && Quiet(after.events[..|after.events| - 1], |st.events|))
      && (r.Err? ==> Quiet(after.events, |st.events|))
  {
    GeneratedWent(m, request, world, st);
  }

  // ---- the shared breakers ----

  /** Each breaker's threshold and timeout. */
  type Settings = map<BreakerId, (nat, nat)>

  /** Every breaker is where the whole log of steps has brought it. */
  ghost predicate Consistent(settings: Settings, st: Shared) {
    settings.Keys == st.breakers.Keys && forall id | id in settings :: BreakerOk(settings, st, id)
  }

  ghost predicate BreakerOk(settings: Settings, st: Shared, id: BreakerId)
    requires id in settings && id in st.breakers
  {
    && st.breakers[id] == Replay(NewBreaker(settings[id].0, settings[id].1), LogFor(st.events, id))
    && InTime(LogFor(st.events, id), st.now)
  }

  lemma {:induction false} LogGrows(events: seq<Event>, e: Event, id: BreakerId)
    ensures LogFor(events + [e], id)
      == LogFor(events, id) + if e.Touched? && e.breaker == id then [(e.step, e.at)] else []
  {
    assert (events + [e])[..|events + [e]| - 1] == events;
  }

  lemma {:induction false} ReplayGrows(start: Breaker, log: BreakerLog, step: BreakerStep, now: int)
    requires InTime(log, now)
    ensures InTime(log + [(step, now)], now)
    ensures Replay(start, log + [(step, now)]) == Exec(Replay(start, log), step, now)
  {
    assert (log + [(step, now)])[..|log + [(step, now)]| - 1] == log;
  }

  lemma TouchConsistent(settings: Settings, st: Shared, id: BreakerId, step: BreakerStep, mine: bool, after: Shared)
    requires Consistent(settings, st) && after == Touch(st, id, step, mine)
    ensures Consistent(settings, after)
  {
    if id in st.breakers {
      forall other | other in settings ensures BreakerOk(settings, after, other) {
        assert BreakerOk(settings, st, other);
        TouchKeepsBreaker(settings, st, id, step, mine, other);
      }
    }
  }

  lemma TouchKeepsBreaker(settings: Settings, st: Shared, id: BreakerId, step: BreakerStep, mine: bool,
        other: BreakerId)
    requires id in st.breakers && other in settings && other in st.breakers && BreakerOk(settings, st, other)
    ensures BreakerOk(settings, Touch(st, id, step, mine), other)
  {
    LogGrows(st.events, Touched(id, step, st.now, mine), other);
    if other == id {
      ReplayGrows(NewBreaker(settings[id].0, settings[id].1), LogFor(st.events, id), step, st.now);
    } else {
      assert LogFor(st.events, other) + [] == LogFor(st.events, other);
    }
  }

  lemma LogConsistent(settings: Settings, st: Shared, e: Event)
    requires Consistent(settings, st) && !e.Touched?
    ensures Consistent(settings, Log(st, e))
  {
    forall id | id in settings ensures BreakerOk(settings, Log(st, e), id) {
      assert BreakerOk(settings, st, id);
      LogGrows(st.events, e, id);
      assert LogFor(st.events, id) + [] == LogFor(st.events, id);
    }
  }

  lemma LaterConsistent(settings: Settings, st: Shared, elapsed: nat, moment: nat)
    requires Consistent(settings, st)
    ensures Consistent(settings, st.(now := st.now + elapsed, moment := moment))
  {
    forall id | id in settings ensures BreakerOk(settings, st.(now := st.now + elapsed, moment := moment), id) {
      assert BreakerOk(settings, st, id);
      BreakerOkLater(settings, st, st.(now := st.now + elapsed, moment := moment), id);
    }
  }

  lemma BreakerOkLater(settings: Settings, st: Shared, later: Shared, id: BreakerId)
    requires id in settings && id in st.breakers && BreakerOk(settings, st, id)
    requires later.breakers == st.breakers && later.events == st.events && later.now >= st.now
    ensures BreakerOk(settings, later, id)
  {
  }

  lemma OtherConsistent(settings: Settings, st: Shared, other: OtherStep)
    requires Consistent(settings, st)
    ensures Consistent(settings, Other(st, other))
  {
    LaterConsistent(settings, st, other.elapsed, st.moment);
    TouchConsistent(settings, st.(now := st.now + other.elapsed), other.breaker, other.step, false, Other(st, other));
  }

  lemma {:induction false} OthersConsistent(settings: Settings, st: Shared, others: seq<OtherStep>)
    requires Consistent(settings, st)
    ensures Consistent(settings, Others(st, others))
  {
    if others != [] {
      OthersConsistent(settings, st, others[..|others| - 1]);
      OtherConsistent(settings, Others(st, others[..|others| - 1]), others[|others| - 1]);
    }
  }

  lemma PauseConsistent(settings: Settings, st: Shared, world: World)
    requires Consistent(settings, st)
    ensures Consistent(settings, Pause(st, world))
  {
    OthersConsistent(settings, st, world(st.moment).others);
    LaterConsistent(settings, Others(st, world(st.moment).others), world(st.moment).elapsed, st.moment + 1);
  }

  lemma RecordConsistent(settings: Settings, st: Shared, world: World, id: BreakerId, step: BreakerStep)
    requires Consistent(settings, st)
    ensures Consistent(settings, Record(st, world, id, step))
  {
    PauseConsistent(settings, st, world);
    TouchConsistent(settings, Pause(st, world), id, step, true, Record(st, world, id, step));
  }

  /** A request, with whatever others do meanwhile, leaves the breakers in accord with
      the whole log. */
  lemma {:induction false} GeneratedConsistent(settings: Settings, m: Manager, request: string, world: World,
        st: Shared)
    requires Consistent(settings, st)
    ensures Consistent(settings, Generated(m, request, world, st).0)
    decreases m, 2, 0
  {
    var asked := Record(st, world, m.breaker, Ask);
    RecordConsistent(settings, st, world, m.breaker, Ask);
    OrElseConsistent(settings, m, request, world, asked, CircuitOpen("Circuit breaker is open"));
    if m.provider.build(request).Ok? {
      AttemptedConsistent(settings, m, request, m.provider.build(request).value, world, asked, 0);
    }
  }

  lemma {:induction false} OrElseConsistent(settings: Settings, m: Manager, request: string, world: World, st: Shared,
        error: ModelError)
    requires Consistent(settings, st)
    ensures Consistent(settings, OrElse(m, request, world, st, error).0)
    decreases m, 0, 0
  {
    if m.fallback.Some? { GeneratedConsistent(settings, m.fallback.value, request, world, st); }
  }

  /** An attempt has put nothing on record, or one outcome. */
  predicate AttemptEnds(m: Manager, body: string, world: World, st: Shared, after: Shared) {
    var sent := Waited(m, body, world, st);
    || after == sent
    || after == Record(sent, world, m.breaker, Failure)
    || after == Record(sent, world, m.breaker, Success)
  }

  lemma AttemptOnceEnds(m: Manager, body: string, world: World, st: Shared, attempt: nat)
    ensures AttemptEnds(m, body, world, st, AttemptOnce(m, body, world, st, attempt).0)
  {
  }

  lemma AttemptConsistent(settings: Settings, m: Manager, body: string, world: World, st: Shared, after: Shared)
    requires Consistent(settings, st) && AttemptEnds(m, body, world, st, after)
    ensures Consistent(settings, after)
  {
    var sent := Waited(m, body, world, st);
    LogConsistent(settings, st, Sent(m.breaker, body, st.moment));
    PauseConsistent(settings, Log(st, Sent(m.breaker, body, st.moment)), world);
    if after == Record(sent, world, m.breaker, Failure) {
      RecordConsistent(settings, sent, world, m.breaker, Failure);
    } else if after == Record(sent, world, m.breaker, Success) {
      RecordConsistent(settings, sent, world, m.breaker, Success);
    }
  }

  lemma {:induction false} AttemptedConsistent(settings: Settings, m: Manager, request: string, body: string,
        world: World, st: Shared, attempt: nat)
    requires Consistent(settings, st) && attempt <= m.maxRetries
    ensures Consistent(settings, Attempted(m, request, body, world, st, attempt).0)
    decreases m, 1, m.maxRetries - attempt
  {
    var (after, next) := AttemptOnce(m, body, world, st, attempt);
    AttemptOnceEnds(m, body, world, st, attempt);
    AttemptConsistent(settings, m, body, world, st, after);
    match next
    case Return(_) =>
    case FallBack(error) => OrElseConsistent(settings, m, request, world, after, error);
    case Retry(error, pause) =>
      if attempt < m.maxRetries {
        LogConsistent(settings, after, Slept(pause));
        PauseConsistent(settings, Log(after, Slept(pause)), world);
        AttemptedConsistent(settings, m, request, body, world, Sleep(after, world, pause), attempt + 1);
      } else {
        OrElseConsistent(settings, m, request, world, after, error);
      }
  }

  /** Requests may share breakers in any interleaving: at any moment one is turned away
      exactly when all requests together have failed often enough in a row and the last
      failure is recent. */
  lemma {:induction false} SharedBreakersCountEveryRequest(settings: Settings, st: Shared, id: BreakerId,
        log: BreakerLog)
    requires Consistent(settings, st) && id in settings && log == LogFor(st.events, id)
    ensures !Admits(st.breakers[id], st.now) <==>
      && FailureRun(log) >= Max(settings[id].0, 1)
      && LastFailure(log).Some? && st.now - LastFailure(log).value <= settings[id].1 * NANOS_PER_SECOND
  {
    assert BreakerOk(settings, st, id);
    RefusedExactlyWhileFailuresAreRecent(settings[id].0, settings[id].1, log, st.now);
  }
}
