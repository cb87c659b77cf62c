/** What every ReAct run keeps, whatever the model and the tools do. */
module ReactTheorems {
  import opened Messages
  import opened Hitl
  import opened Cycle
  import opened React
  import opened Wrappers

  /** Replies carry no tool results; every provider's parser guarantees it. */
  ghost predicate CleanReplies(world: World) {
    forall t :: world(t).reply.Received? ==> NoResults(world(t).reply.content)
  }

  ghost predicate PairedEvents(events: seq<Event>) {
    forall i | 0 <= i < |events| && events[i].Sent? :: WellPaired(events[i].buffer)
  }

  ghost predicate PairedRun(r: RunResult) {
    PairedEvents(r.events) && (r.outcome.Interrupted? ==> WellPaired(r.outcome.interrupt.history))
  }

  lemma PairedAfter(r: RunResult, step: seq<Event>, rest: RunResult)
    requires r == RunResult(rest.outcome, step + rest.events, rest.turns + 1)
    requires PairedEvents(step) && PairedRun(rest)
    ensures PairedRun(r)
  {
  }

  /** Every buffer sent to the model, and the snapshot of an interrupted run, is well paired. */
  lemma {:induction false} RunKeepsPairing(cfg: RunConfig, buffer: seq<Message>, iteration: nat, called: bool,
        turn: nat, approval: ApprovalId)
    requires WellPaired(buffer) && CleanReplies(cfg.world)
    ensures PairedRun(Run(cfg, buffer, iteration, called, turn, approval))
    decreases cfg.maxIterations - iteration, 1
  {
    if iteration < cfg.maxIterations && cfg.world(turn).reply.Received? && cfg.world(turn).reply.passesGuardrail {
      var action := ActionOf(cfg.world(turn).reply.content);
      if action.ToolCalls? && FirstIntercepted(cfg, action.calls).None? {
        ToolsKeepPairing(cfg, buffer, iteration, called, turn, approval);
      } else if action.Done? && !called {
        NudgeKeepsPairing(cfg, buffer, iteration, turn, approval);
      }
    }
  }

  lemma {:induction false} ToolsKeepPairing(cfg: RunConfig, buffer: seq<Message>, iteration: nat, called: bool,
        turn: nat, approval: ApprovalId)
    requires WellPaired(buffer) && CleanReplies(cfg.world)
    requires iteration < cfg.maxIterations && cfg.world(turn).reply.Received? && cfg.world(turn).reply.passesGuardrail
    requires var action := ActionOf(cfg.world(turn).reply.content);
      action.ToolCalls? && FirstIntercepted(cfg, action.calls).None?
    ensures PairedRun(Run(cfg, buffer, iteration, called, turn, approval))
    decreases cfg.maxIterations - iteration, 0
  {
    var content := cfg.world(turn).reply.content;
    var more := ToolExchange(content, cfg.world(turn).results);
    ToolExchangeWellPaired(content, cfg.world(turn).results);
    WellPairedAppend(buffer, more);
    var calledNow := called || CallsRequired(cfg, Calls(content));
    RunKeepsPairing(cfg, buffer + more, iteration + 1, calledNow, turn + 1, approval);
    RunAfterTools(cfg, buffer, iteration, called, turn, approval);
    PairedAfter(Run(cfg, buffer, iteration, called, turn, approval), [Sent(buffer), Executed(turn, Calls(content))],
                Run(cfg, buffer + more, iteration + 1, calledNow, turn + 1, approval));
  }

  lemma {:induction false} NudgeKeepsPairing(cfg: RunConfig, buffer: seq<Message>, iteration: nat, turn: nat,
        approval: ApprovalId)
    requires WellPaired(buffer) && CleanReplies(cfg.world)
    requires iteration < cfg.maxIterations && cfg.world(turn).reply.Received? && cfg.world(turn).reply.passesGuardrail
    requires ActionOf(cfg.world(turn).reply.content).Done?
    ensures PairedRun(Run(cfg, buffer, iteration, false, turn, approval))
    decreases cfg.maxIterations - iteration, 0
  {
    var content := cfg.world(turn).reply.content;
    var more := [Message(Assistant, content), TextMessage(User, cfg.nudge)];
    NudgeWellPaired(content, cfg.nudge);
    WellPairedAppend(buffer, more);
    RunKeepsPairing(cfg, buffer + more, iteration + 1, false, turn + 1, approval);
    RunAfterNudge(cfg, buffer, iteration, turn, approval);
    PairedAfter(Run(cfg, buffer, iteration, false, turn, approval), [Sent(buffer)],
                Run(cfg, buffer + more, iteration + 1, false, turn + 1, approval));
  }

  lemma {:induction false} NudgeWellPaired(content: seq<ContentBlock>, nudge: string)
    requires NoResults(content) && Calls(content) == []
    ensures WellPaired([Message(Assistant, content), TextMessage(User, nudge)])
  {
    TextHasNoCalls([Text(nudge)]);
  }

  lemma RunFromKeepsPairing(cfg: RunConfig, rendered: Option<string>, messages: seq<Message>, turn: nat,
        approval: ApprovalId)
    requires WellPaired(messages) && CleanReplies(cfg.world)
    ensures PairedRun(RunFrom(cfg, rendered, messages, turn, approval))
  {
    PreparedWellPaired(rendered, messages, Prepared(rendered, messages));
    RunKeepsPairing(cfg, Prepared(rendered, messages), 0, cfg.RequiredTools() == {}, turn, approval);
  }

  // ---- what runs without approval ----

  /** Batches ran in the order of their replies, in full, and none of their calls needed approval. */
  ghost predicate FreeBatches(cfg: RunConfig, events: seq<Event>, first: nat, last: nat) {
    && (forall i | 0 <= i < |events| && events[i].Executed? ::
          && first <= events[i].turn < last
          && cfg.world(events[i].turn).reply.Received?
          && events[i].calls == Calls(cfg.world(events[i].turn).reply.content)
          && forall c | 0 <= c < |events[i].calls| :: !cfg.Intercepts(events[i].calls[c].name))
    && (forall i, j | 0 <= i < j < |events| && events[i].Executed? && events[j].Executed? ::
          events[i].turn < events[j].turn)
  }

  /** The batch that stopped the run, and did not run: the approver is asked about the
      first of its calls that needs approval. */
  ghost predicate StoppedBatch(cfg: RunConfig, interrupt: HitlInterrupt, approval: ApprovalId, turn: nat) {
    && interrupt.approval == approval
    && cfg.world(turn).reply.Received?
    && interrupt.pending == Calls(cfg.world(turn).reply.content)
    && interrupt.asked < |interrupt.pending| && cfg.Intercepts(interrupt.pending[interrupt.asked].name)
    && (forall i | 0 <= i < interrupt.asked :: !cfg.Intercepts(interrupt.pending[i].name))
    && interrupt.checkpoint == IsCheckpointTool(interrupt.pending[interrupt.asked].name)
    && interrupt.activeTools == cfg.activeTools
  }

  /** The batches of a run that starts at reply `turn`. */
  ghost predicate BatchesOfRun(cfg: RunConfig, r: RunResult, turn: nat, approval: ApprovalId) {
    if r.outcome.Interrupted?
    then r.turns > 0 && FreeBatches(cfg, r.events, turn, turn + r.turns - 1)
         && StoppedBatch(cfg, r.outcome.interrupt, approval, turn + r.turns - 1)
    else FreeBatches(cfg, r.events, turn, turn + r.turns)
  }

  lemma BatchesAfterSend(cfg: RunConfig, r: RunResult, rest: RunResult, buffer: seq<Message>, turn: nat,
        approval: ApprovalId)
    requires r == RunResult(rest.outcome, [Sent(buffer)] + rest.events, rest.turns + 1)
    requires BatchesOfRun(cfg, rest, turn + 1, approval)
    ensures BatchesOfRun(cfg, r, turn, approval)
  {
    assert forall i | 0 < i < |r.events| :: r.events[i] == rest.events[i - 1];
  }

  lemma {:induction false} BatchesAfterTools(cfg: RunConfig, r: RunResult, rest: RunResult, buffer: seq<Message>,
        turn: nat, approval: ApprovalId)
    requires cfg.world(turn).reply.Received?
    requires var calls := Calls(cfg.world(turn).reply.content);
      && FirstIntercepted(cfg, calls).None?
      && r == RunResult(rest.outcome, [Sent(buffer), Executed(turn, calls)] + rest.events, rest.turns + 1)
    requires BatchesOfRun(cfg, rest, turn + 1, approval)
    ensures BatchesOfRun(cfg, r, turn, approval)
  {
    assert forall i | 1 < i < |r.events| :: r.events[i] == rest.events[i - 2];
    assert forall i | 0 <= i < |rest.events| && rest.events[i].Executed? :: rest.events[i].turn > turn;
  }

  lemma {:induction false} BatchesOfStoppedReply(cfg: RunConfig, buffer: seq<Message>, iteration: nat, called: bool,
        turn: nat, approval: ApprovalId)
    requires iteration < cfg.maxIterations && cfg.world(turn).reply.Received? && cfg.world(turn).reply.passesGuardrail
    requires ActionOf(cfg.world(turn).reply.content).ToolCalls?
    requires FirstIntercepted(cfg, Calls(cfg.world(turn).reply.content)).Some?
    ensures BatchesOfRun(cfg, Run(cfg, buffer, iteration, called, turn, approval), turn, approval)
  {
    var calls := Calls(cfg.world(turn).reply.content);
    var at := FirstIntercepted(cfg, calls).value;
    var r := RunResult(Interrupted(InterruptFor(cfg, calls, at, buffer, approval)), [Sent(buffer)], 1);
    assert Run(cfg, buffer, iteration, called, turn, approval) == r;
  }

  lemma {:induction false} RunExecutesOnlyFreeBatches(cfg: RunConfig, buffer: seq<Message>, iteration: nat,
        called: bool, turn: nat, approval: ApprovalId)
    ensures BatchesOfRun(cfg, Run(cfg, buffer, iteration, called, turn, approval), turn, approval)
    decreases cfg.maxIterations - iteration, 1
  {
    if iteration < cfg.maxIterations && cfg.world(turn).reply.Received? && cfg.world(turn).reply.passesGuardrail {
      match ActionOf(cfg.world(turn).reply.content)
      case ToolCalls(calls) =>
        if FirstIntercepted(cfg, calls).Some? {
          BatchesOfStoppedReply(cfg, buffer, iteration, called, turn, approval);
        } else {
          BatchesWhenRunGoesOn(cfg, buffer, iteration, called, turn, approval);
        }
      case Done(_) => if !called { BatchesWhenRunGoesOn(cfg, buffer, iteration, called, turn, approval); }
      case Error =>
    }
  }

  lemma {:induction false} BatchesWhenRunGoesOn(cfg: RunConfig, buffer: seq<Message>, iteration: nat, called: bool,
        turn: nat, approval: ApprovalId)
    requires iteration < cfg.maxIterations && cfg.world(turn).reply.Received? && cfg.world(turn).reply.passesGuardrail
    requires var action := ActionOf(cfg.world(turn).reply.content);
      (action.ToolCalls? && FirstIntercepted(cfg, action.calls).None?) || (action.Done? && !called)
    ensures BatchesOfRun(cfg, Run(cfg, buffer, iteration, called, turn, approval), turn, approval)
    decreases cfg.maxIterations - iteration, 0
  {
    var content := cfg.world(turn).reply.content;
    var r := Run(cfg, buffer, iteration, called, turn, approval);
    if ActionOf(content).ToolCalls? {
      var next := buffer + ToolExchange(content, cfg.world(turn).results);
      var called' := called || CallsRequired(cfg, Calls(content));
      RunExecutesOnlyFreeBatches(cfg, next, iteration + 1, called', turn + 1, approval);
      RunAfterTools(cfg, buffer, iteration, called, turn, approval);
      BatchesAfterTools(cfg, r, Run(cfg, next, iteration + 1, called', turn + 1, approval), buffer, turn, approval);
    } else {
      var next := buffer + [Message(Assistant, content), TextMessage(User, cfg.nudge)];
      RunExecutesOnlyFreeBatches(cfg, next, iteration + 1, false, turn + 1, approval);
      RunAfterNudge(cfg, buffer, iteration, turn, approval);
      BatchesAfterSend(cfg, r, Run(cfg, next, iteration + 1, false, turn + 1, approval), buffer, turn, approval);
    }
  }

  lemma RunFromExecutesOnlyFreeBatches(cfg: RunConfig, rendered: Option<string>, messages: seq<Message>, turn: nat,
        approval: ApprovalId)
    ensures BatchesOfRun(cfg, RunFrom(cfg, rendered, messages, turn, approval), turn, approval)
  {
    RunExecutesOnlyFreeBatches(cfg, Prepared(rendered, messages), 0, cfg.RequiredTools() == {}, turn, approval);
  }

  /** A run asks the model at most once per iteration left. */
  lemma {:induction false} RunLength(cfg: RunConfig, buffer: seq<Message>, iteration: nat, called: bool, turn: nat,
        approval: ApprovalId)
    ensures Run(cfg, buffer, iteration, called, turn, approval).turns
      <= if iteration < cfg.maxIterations then cfg.maxIterations - iteration else 0
    decreases cfg.maxIterations - iteration
  {
    if iteration < cfg.maxIterations && cfg.world(turn).reply.Received? && cfg.world(turn).reply.passesGuardrail {
      var content := cfg.world(turn).reply.content;
      match ActionOf(content)
      case ToolCalls(calls) =>
        RunLength(cfg, buffer + ToolExchange(content, cfg.world(turn).results), iteration + 1,
                  called || CallsRequired(cfg, calls), turn + 1, approval);
      case Done(_) =>
        RunLength(cfg, buffer + [Message(Assistant, content), TextMessage(User, cfg.nudge)], iteration + 1,
                  called, turn + 1, approval);
      case Error =>
    }
  }

  // ---- mandatory tools ----

  lemma {:induction false} RunWithoutMandatoryCallNeverFinishes(cfg: RunConfig, buffer: seq<Message>,
        iteration: nat, turn: nat, approval: ApprovalId)
    ensures !Run(cfg, buffer, iteration, false, turn, approval).outcome.Finished?
    decreases cfg.maxIterations - iteration
  {
    if iteration < cfg.maxIterations && cfg.world(turn).reply.Received? && cfg.world(turn).reply.passesGuardrail {
      var content := cfg.world(turn).reply.content;
      match ActionOf(content)
      case ToolCalls(calls) =>
        if FirstIntercepted(cfg, calls).None? {
          if CallsRequired(cfg, calls) { MandatoryCallsAreStopped(cfg, calls); }
          var next := buffer + ToolExchange(content, cfg.world(turn).results);
          RunWithoutMandatoryCallNeverFinishes(cfg, next, iteration + 1, turn + 1, approval);
        }
      case Done(_) =>
        RunWithoutMandatoryCallNeverFinishes(cfg, buffer + [Message(Assistant, content), TextMessage(User, cfg.nudge)],
                                             iteration + 1, turn + 1, approval);
      case Error =>
    }
  }

  lemma {:induction false} MandatoryCallsAreStopped(cfg: RunConfig, calls: seq<ToolCall>)
    requires CallsRequired(cfg, calls)
    ensures FirstIntercepted(cfg, calls).Some?
  {
    var i :| 0 <= i < |calls| && calls[i].name in cfg.RequiredTools();
    RequiredToolsAreIntercepted(cfg.hook.value, calls[i].name);
  }

  /** A fresh run of a skill with mandatory tools never returns an answer: it is
      interrupted for approval, or it fails within `maxIterations` replies. */
  lemma FreshRunWithMandatoryToolsNeverFinishes(cfg: RunConfig, rendered: Option<string>, messages: seq<Message>,
        turn: nat, approval: ApprovalId)
    requires cfg.RequiredTools() != {}
    ensures var r := RunFrom(cfg, rendered, messages, turn, approval);
      && (r.outcome.Interrupted? || r.outcome.Failure?)
      && r.turns <= cfg.maxIterations
  {
    var buffer := Prepared(rendered, messages);
    RunWithoutMandatoryCallNeverFinishes(cfg, buffer, 0, turn, approval);
    RunLength(cfg, buffer, 0, false, turn, approval);
  }

  // ---- where a run ends, by the replies alone ----

  predicate Usable(cfg: RunConfig, t: nat) {
    cfg.world(t).reply.Received? && cfg.world(t).reply.passesGuardrail
  }

  /** Reply t stops a run for approval: one of its calls needs it. */
  predicate Stops(cfg: RunConfig, t: nat) {
    Usable(cfg, t) && exists c | 0 <= c < |Calls(cfg.world(t).reply.content)| ::
      cfg.Intercepts(Calls(cfg.world(t).reply.content)[c].name)
  }

  /** Reply t ends a run with an answer. */
  predicate Answers(cfg: RunConfig, t: nat) {
    Usable(cfg, t) && ActionOf(cfg.world(t).reply.content).Done? && cfg.RequiredTools() == {}
  }

  /** After reply t a run goes on: a batch of free calls, or a text while a mandatory tool is due. */
  predicate GoesOn(cfg: RunConfig, t: nat) {
    && Usable(cfg, t) && !Stops(cfg, t)
    && (ActionOf(cfg.world(t).reply.content).ToolCalls?
        || (ActionOf(cfg.world(t).reply.content).Done? && cfg.RequiredTools() != {}))
  }

  predicate GoesOnUntil(cfg: RunConfig, turn: nat, t: nat) {
    forall k: nat | turn <= k < t :: GoesOn(cfg, k)
  }

  /** Some reply that a run comes to stops it for approval. */
  predicate ComesToAStop(cfg: RunConfig, turn: nat) {
    exists t: nat | turn <= t < turn + cfg.maxIterations :: Stops(cfg, t) && GoesOnUntil(cfg, turn, t)
  }

  predicate ComesToAnAnswer(cfg: RunConfig, turn: nat) {
    exists t: nat | turn <= t < turn + cfg.maxIterations :: Answers(cfg, t) && GoesOnUntil(cfg, turn, t)
  }

  /** A run that starts at reply `turn`, with `left` iterations, ends at the first reply
      after which it does not go on, or when the iterations are used up. */
  ghost predicate EndsWithItsLastReply(cfg: RunConfig, r: RunResult, turn: nat, left: nat) {
    && r.turns <= left
    && (r.turns < left ==> r.turns > 0 && !GoesOn(cfg, turn + r.turns - 1))
    && (r.turns > 0 ==> GoesOnUntil(cfg, turn, turn + r.turns - 1))
    && (r.outcome.Interrupted? <==> r.turns > 0 && Stops(cfg, turn + r.turns - 1))
    && (r.outcome.Finished? <==> r.turns > 0 && Answers(cfg, turn + r.turns - 1))
  }

  lemma EndsAfter(cfg: RunConfig, r: RunResult, rest: RunResult, turn: nat, left: nat)
    requires r.outcome == rest.outcome && r.turns == rest.turns + 1 && left > 0
    requires GoesOn(cfg, turn) && EndsWithItsLastReply(cfg, rest, turn + 1, left - 1)
    ensures EndsWithItsLastReply(cfg, r, turn, left)
  {
    if rest.turns == 0 { assert !Stops(cfg, turn) && !Answers(cfg, turn); }
    forall k: nat | turn <= k < turn + rest.turns ensures GoesOn(cfg, k) {
      if k > turn { assert GoesOnUntil(cfg, turn + 1, turn + rest.turns); }
    }
  }

  lemma {:induction false} RunEndsWithItsLastReply(cfg: RunConfig, buffer: seq<Message>, iteration: nat,
        turn: nat, approval: ApprovalId)
    requires iteration <= cfg.maxIterations
    ensures var r := Run(cfg, buffer, iteration, cfg.RequiredTools() == {}, turn, approval);
      EndsWithItsLastReply(cfg, r, turn, cfg.maxIterations - iteration)
    decreases cfg.maxIterations - iteration, 1
  {
    if iteration < cfg.maxIterations && GoesOn(cfg, turn) {
      if ActionOf(cfg.world(turn).reply.content).ToolCalls? {
        RunGoesOnAfterTools(cfg, buffer, iteration, turn, approval);
      } else {
        RunGoesOnAfterNudge(cfg, buffer, iteration, turn, approval);
      }
    }
  }

  lemma {:induction false} RunGoesOnAfterTools(cfg: RunConfig, buffer: seq<Message>, iteration: nat, turn: nat,
        approval: ApprovalId)
    requires iteration < cfg.maxIterations && GoesOn(cfg, turn)
    requires ActionOf(cfg.world(turn).reply.content).ToolCalls?
    ensures var r := Run(cfg, buffer, iteration, cfg.RequiredTools() == {}, turn, approval);
      EndsWithItsLastReply(cfg, r, turn, cfg.maxIterations - iteration)
    decreases cfg.maxIterations - iteration, 0
  {
    var content, free := cfg.world(turn).reply.content, cfg.RequiredTools() == {};
    var next := buffer + ToolExchange(content, cfg.world(turn).results);
    if CallsRequired(cfg, Calls(content)) { MandatoryCallsAreStopped(cfg, Calls(content)); }
    RunAfterTools(cfg, buffer, iteration, free, turn, approval);
    RunEndsWithItsLastReply(cfg, next, iteration + 1, turn + 1, approval);
    EndsAfter(cfg, Run(cfg, buffer, iteration, free, turn, approval),
              Run(cfg, next, iteration + 1, free, turn + 1, approval), turn, cfg.maxIterations - iteration);
  }

  lemma {:induction false} RunGoesOnAfterNudge(cfg: RunConfig, buffer: seq<Message>, iteration: nat, turn: nat,
        approval: ApprovalId)
    requires iteration < cfg.maxIterations && GoesOn(cfg, turn)
    requires ActionOf(cfg.world(turn).reply.content).Done?
    ensures var r := Run(cfg, buffer, iteration, cfg.RequiredTools() == {}, turn, approval);
      EndsWithItsLastReply(cfg, r, turn, cfg.maxIterations - iteration)
    decreases cfg.maxIterations - iteration, 0
  {
    var content := cfg.world(turn).reply.content;
    var next := buffer + [Message(Assistant, content), TextMessage(User, cfg.nudge)];
    RunAfterNudge(cfg, buffer, iteration, turn, approval);
    RunEndsWithItsLastReply(cfg, next, iteration + 1, turn + 1, approval);
    EndsAfter(cfg, Run(cfg, buffer, iteration, false, turn, approval),
              Run(cfg, next, iteration + 1, false, turn + 1, approval), turn, cfg.maxIterations - iteration);
  }

  /** A run is interrupted, or answers, exactly when it comes to a reply that does that:
      received, past the guardrail, and after replies that only let it go on. */
  lemma RunEndsExactly(cfg: RunConfig, rendered: Option<string>, messages: seq<Message>, turn: nat,
        approval: ApprovalId)
    ensures var r := RunFrom(cfg, rendered, messages, turn, approval);
      && EndsWithItsLastReply(cfg, r, turn, cfg.maxIterations)
      && (r.outcome.Interrupted? <==> ComesToAStop(cfg, turn))
      && (r.outcome.Finished? <==> ComesToAnAnswer(cfg, turn))
  {
    var r := RunFrom(cfg, rendered, messages, turn, approval);
    RunEndsWithItsLastReply(cfg, Prepared(rendered, messages), 0, turn, approval);
    if r.turns > 0 {
      var last := turn + r.turns - 1;
      if Stops(cfg, last) { assert ComesToAStop(cfg, turn); }
      if Answers(cfg, last) { assert ComesToAnAnswer(cfg, turn); }
    }
    forall t: nat | turn <= t < turn + cfg.maxIterations && !GoesOn(cfg, t) && GoesOnUntil(cfg, turn, t)
      ensures r.turns > 0 && t == turn + r.turns - 1
    {
    }
  }
}
