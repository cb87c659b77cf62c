/** When a request goes on to the fallback manager. */
module Fallbacks {
  import opened Wrappers
  import opened Results
  import opened CircuitBreaking
  import opened Connections
  import opened ConnectionTheorems

  // ---- the condition ----

  /** The reply lets the manager try again: no answer at all, or a 429. */
  predicate Retryable(reply: Reply) {
    reply.SendFailed? || (reply.Answer? && reply.status == 429)
  }

  /** The reply ends the attempts at once: any other status that is not a success. */
  predicate Rejected(reply: Reply) {
    reply.Answer? && reply.status != 429 && !IsSuccess(reply.status)
  }

  /** The replies that `count` attempts would get, the first of them sent at this moment:
      an attempt waits three times, for its reply, for the breaker, and for its pause. */
  function Replies(world: World, moment: nat, count: nat): seq<Reply>
    decreases count
  {
    if count == 0 then [] else [world(moment).reply] + Replies(world, moment + 3, count - 1)
  }

  lemma {:induction false} RepliesAre(world: World, moment: nat, count: nat)
    ensures |Replies(world, moment, count)| == count
    ensures forall k | 0 <= k < count :: Replies(world, moment, count)[k] == world(moment + 3 * k).reply
    decreases count
  {
    if count > 0 { RepliesAre(world, moment + 3, count - 1); }
  }

  predicate RejectedAt(replies: seq<Reply>, k: nat) {
    k < |replies| && (forall j | 0 <= j < k :: Retryable(replies[j])) && Rejected(replies[k])
  }

  predicate Exhausted(replies: seq<Reply>) {
    forall j | 0 <= j < |replies| :: Retryable(replies[j])
  }

  /** The manager is not told to go ahead. */
  predicate TurnedAway(m: Manager, world: World, st: Shared) {
    var waited := Pause(st, world);
    m.breaker in waited.breakers && !Admits(waited.breakers[m.breaker], waited.now)
  }

  /** Its breaker refuses; or the request can be built and some attempt is rejected; or it
      can be built and every attempt asks for another one. */
  ghost predicate FallsBack(m: Manager, request: string, world: World, st: Shared) {
    var replies := Replies(world, st.moment + 1, m.maxRetries + 1);
    || TurnedAway(m, world, st)
    || (m.provider.build(request).Ok? && exists k :: RejectedAt(replies, k))
    || (m.provider.build(request).Ok? && Exhausted(replies))
  }

  // ---- the manager on its own, and then ----

  function Alone(m: Manager): Manager { m.(fallback := None) }

  /** Attempts with these replies end without an answer or a final error. */
  predicate GivesUp(replies: seq<Reply>) {
    replies == [] || Rejected(replies[0]) || (Retryable(replies[0]) && GivesUp(replies[1..]))
  }

  lemma {:induction false} GivesUpExactly(replies: seq<Reply>)
    ensures GivesUp(replies) <==> (exists k :: RejectedAt(replies, k)) || Exhausted(replies)
  {
    if replies != [] {
      if Retryable(replies[0]) {
        GivesUpExactly(replies[1..]);
        FirstRetryable(replies);
      } else {
        assert Rejected(replies[0]) <==> RejectedAt(replies, 0);
      }
    }
  }

  /** After a first reply that allows another attempt, the others decide. */
  lemma FirstRetryable(replies: seq<Reply>)
    requires replies != [] && Retryable(replies[0])
    ensures (exists k :: RejectedAt(replies[1..], k)) <==> (exists k :: RejectedAt(replies, k))
    ensures Exhausted(replies[1..]) <==> Exhausted(replies)
  {
    var rest := replies[1..];
    assert forall j | 0 < j < |replies| :: replies[j] == rest[j - 1];
    if k: nat :| RejectedAt(rest, k) {
      assert RejectedAt(replies, k + 1);
    }
    if k: nat :| RejectedAt(replies, k) {
      assert RejectedAt(rest, k - 1);
    }
  }

  lemma PauseMoves(st: Shared, world: World)
    ensures Pause(st, world).moment == st.moment + 1
  {
    OthersStay(st, world(st.moment).others);
  }

  lemma {:induction false} OthersStay(st: Shared, others: seq<OtherStep>)
    ensures Others(st, others).moment == st.moment
  {
    if others != [] { OthersStay(st, others[..|others| - 1]); }
  }

  lemma WaitedMoves(m: Manager, body: string, world: World, st: Shared)
    ensures Waited(m, body, world, st).moment == st.moment + 1
  {
    PauseMoves(Log(st, Sent(m.breaker, body, st.moment)), world);
  }

  /** From one attempt to the next, three moments pass. */
  lemma AttemptMoves(m: Manager, body: string, world: World, st: Shared, attempt: nat)
    ensures var (after, next) := AttemptOnce(m, body, world, st, attempt);
      next.Retry? ==> Sleep(after, world, next.pause).moment == st.moment + 3
  {
    var sent := Waited(m, body, world, st);
    WaitedMoves(m, body, world, st);
    PauseMoves(sent, world);
    var (after, next) := AttemptOnce(m, body, world, st, attempt);
    if next.Retry? { PauseMoves(Log(after, Slept(next.pause)), world); }
  }

  lemma NextOfReply(m: Manager, body: string, world: World, st: Shared, attempt: nat)
    ensures var next := AttemptOnce(m, body, world, st, attempt).1;
      && (next.Retry? <==> Retryable(world(st.moment).reply))
      && (next.FallBack? <==> Rejected(world(st.moment).reply))
    ensures AttemptOnce(Alone(m), body, world, st, attempt) == AttemptOnce(m, body, world, st, attempt)
  {
  }

  /** What the fallback makes of a manager that has given up in state `st`. */
  function Onward(m: Manager, request: string, world: World, st: Shared): (Shared, Result<string, ModelError>)
    requires m.fallback.Some?
  {
    Generated(m.fallback.value, request, world, st)
  }

  /** What a manager does, given what it does on its own and whether it gives up. */
  predicate Splits(m: Manager, request: string, world: World, gaveUp: bool,
                   whole: (Shared, Result<string, ModelError>), alone: (Shared, Result<string, ModelError>))
    requires m.fallback.Some?
  {
    whole == if gaveUp then Onward(m, request, world, alone.0) else alone
  }

  lemma {:induction false} AttemptThenEnd(m: Manager, request: string, body: string, world: World, st: Shared,
        attempt: nat)
    requires m.fallback.Some? && attempt <= m.maxRetries
    requires attempt == m.maxRetries || !AttemptOnce(m, body, world, st, attempt).1.Retry?
    ensures Splits(m, request, world, !AttemptOnce(m, body, world, st, attempt).1.Return?,
                   Attempted(m, request, body, world, st, attempt),
                   Attempted(Alone(m), request, body, world, st, attempt))
  {
    NextOfReply(m, body, world, st, attempt);
  }

  lemma AttemptThenRetry(m: Manager, request: string, body: string, world: World, st: Shared, attempt: nat,
        after: Shared, next: Next)
    requires m.fallback.Some? && attempt < m.maxRetries
    requires AttemptOnce(m, body, world, st, attempt) == (after, next) && next.Retry?
    ensures Attempted(m, request, body, world, st, attempt)
         == Attempted(m, request, body, world, Sleep(after, world, next.pause), attempt + 1)
    ensures Attempted(Alone(m), request, body, world, st, attempt)
         == Attempted(Alone(m), request, body, world, Sleep(after, world, next.pause), attempt + 1)
  {
    NextOfReply(m, body, world, st, attempt);
  }

  lemma {:induction false} EndSplits(m: Manager, request: string, body: string, world: World, st: Shared, attempt: nat,
        replies: seq<Reply>, gaveUp: bool)
    requires m.fallback.Some? && attempt <= m.maxRetries
    requires attempt == m.maxRetries || !AttemptOnce(m, body, world, st, attempt).1.Retry?
    requires replies == Replies(world, st.moment, m.maxRetries - attempt + 1) && (gaveUp <==> GivesUp(replies))
    ensures Splits(m, request, world, gaveUp,
                   Attempted(m, request, body, world, st, attempt),
                   Attempted(Alone(m), request, body, world, st, attempt))
  {
    NextOfReply(m, body, world, st, attempt);
    RepliesOne(world, st.moment, m.maxRetries - attempt);
    AttemptThenEnd(m, request, body, world, st, attempt);
  }

  lemma {:induction false} AttemptsThenFallback(m: Manager, request: string, body: string, world: World, st: Shared,
        attempt: nat, replies: seq<Reply>, gaveUp: bool, whole: (Shared, Result<string, ModelError>),
        alone: (Shared, Result<string, ModelError>))
    requires m.fallback.Some? && attempt <= m.maxRetries
    requires replies == Replies(world, st.moment, m.maxRetries - attempt + 1) && (gaveUp <==> GivesUp(replies))
    requires whole == Attempted(m, request, body, world, st, attempt)
    requires alone == Attempted(Alone(m), request, body, world, st, attempt)
    ensures Splits(m, request, world, gaveUp, whole, alone)
    decreases m.maxRetries - attempt
  {
    var (after, next) := AttemptOnce(m, body, world, st, attempt);
    if next.Retry? && attempt < m.maxRetries {
      var slept := Sleep(after, world, next.pause);
      AttemptMoves(m, body, world, st, attempt);
      RetriesGiveUp(m, body, world, st, attempt, replies);
      AttemptThenRetry(m, request, body, world, st, attempt, after, next);
      AttemptsThenFallback(m, request, body, world, slept, attempt + 1, replies[1..], gaveUp, whole, alone);
    } else {
      EndSplits(m, request, body, world, st, attempt, replies, gaveUp);
    }
  }

  lemma {:induction false} RetriesGiveUp(m: Manager, body: string, world: World, st: Shared, attempt: nat,
        replies: seq<Reply>)
    requires attempt < m.maxRetries && AttemptOnce(m, body, world, st, attempt).1.Retry?
    requires replies == Replies(world, st.moment, m.maxRetries - attempt + 1)
    ensures replies != [] && replies[1..] == Replies(world, st.moment + 3, m.maxRetries - attempt)
    ensures GivesUp(replies) <==> GivesUp(replies[1..])
  {
    NextOfReply(m, body, world, st, attempt);
    RepliesOne(world, st.moment, m.maxRetries - attempt);
  }

  lemma RepliesOne(world: World, moment: nat, count: nat)
    ensures var replies := Replies(world, moment, count + 1);
      && |replies| == count + 1 && replies[0] == world(moment).reply
      && replies[1..] == Replies(world, moment + 3, count)
      && (GivesUp(replies) <==>
            Rejected(replies[0]) || (Retryable(replies[0]) && (count == 0 || GivesUp(replies[1..]))))
  {
    RepliesAre(world, moment, count + 1);
    assert Replies(world, moment, count + 1)[1..] == Replies(world, moment + 3, count);
  }

  /** A manager with a fallback does exactly what it does without one, and then, exactly
      when `FallsBack` says so, leaves the request to the fallback. */
  lemma {:induction false} FallbackTakesOver(m: Manager, request: string, world: World, st: Shared)
    requires m.fallback.Some?
    ensures var alone := Generated(Alone(m), request, world, st);
      Generated(m, request, world, st)
        == if FallsBack(m, request, world, st) then Onward(m, request, world, alone.0) else alone
  {
    var asked := Record(st, world, m.breaker, Ask);
    PauseMoves(st, world);
    if !TurnedAway(m, world, st) && m.provider.build(request).Ok? {
      var replies := Replies(world, st.moment + 1, m.maxRetries + 1);
      var body := m.provider.build(request).value;
      AttemptsThenFallback(m, request, body, world, asked, 0, replies, GivesUp(replies),
                           Attempted(m, request, body, world, asked, 0),
                           Attempted(Alone(m), request, body, world, asked, 0));
      GivesUpExactly(replies);
    }
  }

  // ---- the same, seen from the log ----

  predicate IsAsk(e: Event) { e.Touched? && e.mine && e.step.Ask? }

  /** How often this request asked a breaker to go ahead: once for each manager it was left to. */
  function Asks(events: seq<Event>): nat {
    if events == [] then 0 else Asks(events[..|events| - 1]) + if IsAsk(events[|events| - 1]) then 1 else 0
  }

  lemma {:induction false} AsksOne(events: seq<Event>, e: Event)
    ensures Asks(events + [e]) == Asks(events) + if IsAsk(e) then 1 else 0
    ensures Sends(events + [e]) == Sends(events) + if e.Sent? then 1 else 0
  {
    assert (events + [e])[..|events + [e]| - 1] == events;
  }

  /** Neither an ask of this request's own nor a send happened between the two states. */
  predicate NoneBetween(a: Shared, b: Shared) {
    Asks(b.events) == Asks(a.events) && Sends(b.events) == Sends(a.events) && b.breakers.Keys == a.breakers.Keys
  }

  lemma {:induction false} OthersDoNotCount(st: Shared, others: seq<OtherStep>)
    ensures NoneBetween(st, Others(st, others))
  {
    if others != [] {
      var before, last := Others(st, others[..|others| - 1]), others[|others| - 1];
      OthersDoNotCount(st, others[..|others| - 1]);
      AsksOne(before.events, Touched(last.breaker, last.step, before.now + last.elapsed, false));
    }
  }

  lemma PauseDoesNotCount(st: Shared, world: World)
    ensures NoneBetween(st, Pause(st, world))
  {
    OthersDoNotCount(st, world(st.moment).others);
  }

  lemma AskCounts(m: Manager, world: World, st: Shared)
    requires m.breaker in st.breakers
    ensures var asked := Record(st, world, m.breaker, Ask);
      && Asks(asked.events) == Asks(st.events) + 1 && Sends(asked.events) == Sends(st.events)
      && asked.breakers.Keys == st.breakers.Keys
  {
    var waited := Pause(st, world);
    PauseDoesNotCount(st, world);
    AsksOne(waited.events, Touched(m.breaker, Ask, waited.now, true));
  }

  lemma RecordDoesNotCount(world: World, st: Shared, id: BreakerId, step: BreakerStep)
    requires !step.Ask?
    ensures NoneBetween(st, Record(st, world, id, step))
  {
    var waited := Pause(st, world);
    PauseDoesNotCount(st, world);
    AsksOne(waited.events, Touched(id, step, waited.now, true));
  }

  lemma SendCounts(m: Manager, body: string, world: World, st: Shared)
    ensures var sent := Waited(m, body, world, st);
      && Asks(sent.events) == Asks(st.events) && Sends(sent.events) == Sends(st.events) + 1
      && sent.breakers.Keys == st.breakers.Keys
  {
    var e := Sent(m.breaker, body, st.moment);
    AsksOne(st.events, e);
    PauseDoesNotCount(Log(st, e), world);
  }

  lemma AttemptCounts(m: Manager, body: string, world: World, st: Shared, after: Shared)
    requires AttemptEnds(m, body, world, st, after)
    ensures Asks(after.events) == Asks(st.events) && Sends(after.events) == Sends(st.events) + 1
    ensures after.breakers.Keys == st.breakers.Keys
  {
    var sent := Waited(m, body, world, st);
    SendCounts(m, body, world, st);
    if after == Record(sent, world, m.breaker, Failure) {
      RecordDoesNotCount(world, sent, m.breaker, Failure);
    } else if after == Record(sent, world, m.breaker, Success) {
      RecordDoesNotCount(world, sent, m.breaker, Success);
    }
  }

  lemma SleepDoesNotCount(world: World, st: Shared, ms: nat)
    ensures NoneBetween(st, Sleep(st, world, ms))
  {
    AsksOne(st.events, Slept(ms));
    PauseDoesNotCount(Log(st, Slept(ms)), world);
  }

  /** Without a fallback, attempts ask nobody. */
  lemma {:induction false} AttemptsDoNotAsk(m: Manager, request: string, body: string, world: World, st: Shared,
        attempt: nat)
    requires m.fallback.None? && attempt <= m.maxRetries
    ensures var after := Attempted(m, request, body, world, st, attempt).0;
      Asks(after.events) == Asks(st.events) && after.breakers.Keys == st.breakers.Keys
    decreases m.maxRetries - attempt
  {
    var (once, next) := AttemptOnce(m, body, world, st, attempt);
    AttemptOnceEnds(m, body, world, st, attempt);
    AttemptCounts(m, body, world, st, once);
    if next.Retry? && attempt < m.maxRetries {
      SleepDoesNotCount(world, once, next.pause);
      AttemptsDoNotAsk(m, request, body, world, Sleep(once, world, next.pause), attempt + 1);
    }
  }

  lemma {:induction false} AloneAsksOnce(m: Manager, request: string, world: World, st: Shared)
    requires m.fallback.None? && m.breaker in st.breakers
    ensures var after := Generated(m, request, world, st).0;
      Asks(after.events) == Asks(st.events) + 1 && after.breakers.Keys == st.breakers.Keys
  {
    var asked := Record(st, world, m.breaker, Ask);
    AskCounts(m, world, st);
    PauseDoesNotCount(st, world);
    if !TurnedAway(m, world, st) && m.provider.build(request).Ok? {
      AttemptsDoNotAsk(m, request, m.provider.build(request).value, world, asked, 0);
    }
  }

  lemma {:induction false} EveryManagerAsks(m: Manager, request: string, world: World, st: Shared)
    requires Known(m, st.breakers.Keys)
    ensures Asks(Generated(m, request, world, st).0.events) > Asks(st.events)
    decreases m
  {
    AloneAsksOnce(Alone(m), request, world, st);
    if m.fallback.Some? {
      FallbackTakesOver(m, request, world, st);
      if FallsBack(m, request, world, st) {
        EveryManagerAsks(m.fallback.value, request, world, Generated(Alone(m), request, world, st).0);
      }
    } else {
      assert Alone(m) == m;
    }
  }

  /** A second breaker is asked, so the fallback is consulted, exactly in those three cases. */
  lemma {:induction false} FallbackConsultedExactly(m: Manager, request: string, world: World, st: Shared)
    requires m.fallback.Some? && Known(m, st.breakers.Keys)
    ensures var after := Generated(m, request, world, st).0;
      Asks(after.events) >= Asks(st.events) + 2 <==> FallsBack(m, request, world, st)
  {
    AloneAsksOnce(Alone(m), request, world, st);
    FallbackTakesOver(m, request, world, st);
    if FallsBack(m, request, world, st) {
      EveryManagerAsks(m.fallback.value, request, world, Generated(Alone(m), request, world, st).0);
    }
  }

  // ---- where the code and its promise part ----

  lemma {:induction false} AttemptsFollow(m: Manager, request: string, world: World, st: Shared)
    requires !TurnedAway(m, world, st) && m.provider.build(request).Ok?
    ensures Generated(m, request, world, st)
      == Attempted(m, request, m.provider.build(request).value, world, Record(st, world, m.breaker, Ask), 0)
  {
  }

  lemma {:induction false} OneAttempt(m: Manager, request: string, body: string, world: World, st: Shared)
    requires m.fallback.None? && !Retryable(world(st.moment).reply)
    ensures Attempted(m, request, body, world, st, 0).0 == AttemptOnce(m, body, world, st, 0).0
  {
    NextOfReply(m, body, world, st, 0);
  }

  /** A manager on its own sends once if the first reply does not let it try again. */
  lemma {:induction false} AloneSendsOnce(m: Manager, request: string, world: World, st: Shared)
    requires m.fallback.None? && m.breaker in st.breakers && !TurnedAway(m, world, st)
    requires m.provider.build(request).Ok? && !Retryable(world(st.moment + 1).reply)
    ensures Sends(Generated(m, request, world, st).0.events) == Sends(st.events) + 1
  {
    var asked, body := Record(st, world, m.breaker, Ask), m.provider.build(request).value;
    PauseMoves(st, world);
    AskCounts(m, world, st);
    AttemptsFollow(m, request, world, st);
    OneAttempt(m, request, body, world, asked);
    AttemptOnceEnds(m, body, world, asked, 0);
    AttemptCounts(m, body, world, asked, AttemptOnce(m, body, world, asked, 0).0);
  }

  /** A server error ends the attempts: the fallback takes over after one send, however
      many retries are left. */
  lemma {:induction false} ServerErrorSkipsRetries(m: Manager, request: string, world: World, st: Shared)
    requires m.fallback.Some? && m.maxRetries > 0 && m.breaker in st.breakers && !TurnedAway(m, world, st)
    requires m.provider.build(request).Ok?
    requires world(st.moment + 1).reply.Answer? && world(st.moment + 1).reply.status == 500
    ensures FallsBack(m, request, world, st)
    ensures Sends(Generated(Alone(m), request, world, st).0.events) == Sends(st.events) + 1
  {
    AloneSendsOnce(Alone(m), request, world, st);
    assert RejectedAt(Replies(world, st.moment + 1, m.maxRetries + 1), 0);
  }

  /** A successful status with a body that cannot be parsed, or cannot be read, is final:
      the fallback is never consulted. */
  lemma {:induction false} UnreadableAnswerIsFinal(m: Manager, request: string, world: World, st: Shared)
    requires m.fallback.Some? && m.breaker in st.breakers && !TurnedAway(m, world, st)
    requires m.provider.build(request).Ok?
    requires var reply := world(st.moment + 1).reply;
      reply.BodyFailed? || (reply.Answer? && reply.status == 200 && m.provider.parse(reply.body).Err?)
    ensures !FallsBack(m, request, world, st)
    ensures var (after, r) := Generated(m, request, world, st);
      r.Err? && Sends(after.events) == Sends(st.events) + 1
  {
    var replies := Replies(world, st.moment + 1, m.maxRetries + 1);
    assert !Retryable(replies[0]) && !Rejected(replies[0]);
    assert !FallsBack(m, request, world, st);
    FallbackTakesOver(m, request, world, st);
    AloneSendsOnce(Alone(m), request, world, st);
    PauseMoves(st, world);
  }
}
