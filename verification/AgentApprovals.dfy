/** What becomes of an approval, command by command, and whose gates a run carries. */
module AgentApprovals {
  import opened Json
  import opened Messages
  import opened Hitl
  import opened Cycle
  import opened React
  import opened ReactTheorems
  import opened Routing
  import opened AgentSteps
  import opened AgentRuns
  import opened Wrappers

  // ---- which calls a decision runs ----

  /** The suspension that an approved execution goes back to. */
  ghost predicate GoesBackTo(log: seq<AgentEvent>, k: nat, i: nat)
    requires k < |log| && log[k].ExecutedApproved?
  {
    && i + 1 < k && log[i].Suspended? && log[i].session == log[k].session && log[i].approval == log[k].approval
    && AsksAbout(log[i].hook, log[i].calls, log[i].asked) && !AtCheckpoint(log[i])
    && ResumesWith(log[k - 1], log[k].session, log[k].approval) && !log[k - 1].decision.Rejected?
    && log[k].calls == ToExecute(log[i].calls, log[k - 1].decision)
  }

  /** The positions of a stopped batch of n calls that a decision lets run. */
  function PositionsRun(n: nat, decision: ApprovalDecision): seq<nat> {
    match decision
    case Approved => seq(n, (c: nat) => c)
    case Modified(_) => if n == 0 then [] else [0]
    case Rejected(_) => []
  }

  /** A call as a decision lets it run. */
  function Decided(call: ToolCall, decision: ApprovalDecision): ToolCall {
    if decision.Modified? then ToolCall(call.id, call.name, decision.newArgs) else call
  }

  lemma ApprovedExecutionGoesBack(cfg: AgentConfig, st: AgentState, k: nat)
    requires CleanReplies(cfg.world) && Reachable(cfg, st) && k < |st.log| && st.log[k].ExecutedApproved?
    ensures exists i :: GoesBackTo(st.log, k, i)
  {
    ReachableSafe(cfg, st);
    var log := st.log;
    assert EventOk(cfg, log, k);
    var i :| 0 <= i < k - 1 && log[i].Suspended? && log[i].session == log[k].session
             && log[i].approval == log[k].approval && !AtCheckpoint(log[i])
             && log[k].calls == ToExecute(log[i].calls, log[k - 1].decision);
    assert EventOk(cfg, log, i);
    assert GoesBackTo(log, k, i);
  }

  /** What runs are the calls at the decided positions, and the call that the approver was
      asked about is among them exactly when the whole batch was approved or that call
      comes first in it. */
  lemma ModifiedRunsTheAskedCallExactly(cfg: AgentConfig, st: AgentState, k: nat)
    requires CleanReplies(cfg.world) && Reachable(cfg, st) && k < |st.log| && st.log[k].ExecutedApproved?
    ensures exists i :: GoesBackTo(st.log, k, i)
    ensures forall i: nat | GoesBackTo(st.log, k, i) ::
      var decision, calls := st.log[k - 1].decision, st.log[i].calls;
      var at := PositionsRun(|calls|, decision);
      && |st.log[k].calls| == |at|
      && (forall n | 0 <= n < |at| :: st.log[k].calls[n] == Decided(calls[at[n]], decision))
      && (st.log[i].asked in at <==> decision.Approved? || st.log[i].asked == 0)
  {
    ApprovedExecutionGoesBack(cfg, st, k);
    forall i: nat | GoesBackTo(st.log, k, i) && st.log[k - 1].decision.Approved?
      ensures st.log[i].asked in PositionsRun(|st.log[i].calls|, st.log[k - 1].decision)
    {
      assert PositionsRun(|st.log[i].calls|, st.log[k - 1].decision)[st.log[i].asked] == st.log[i].asked;
    }
  }

  /** A plain approval runs the whole batch: the call that was asked about is the only one
      in it that needs approval exactly when no later one does. */
  lemma OnlyTheAskedCallRunsExactly(cfg: AgentConfig, st: AgentState, k: nat, i: nat)
    requires CleanReplies(cfg.world) && Reachable(cfg, st) && k < |st.log| && st.log[k].ExecutedApproved?
    requires GoesBackTo(st.log, k, i) && st.log[k - 1].decision.Approved?
    ensures var calls, asked, hook := st.log[k].calls, st.log[i].asked, st.log[i].hook;
      && asked < |calls| && Needs(hook, calls[asked]) && !IsCheckpointTool(calls[asked].name)
      && ((forall c | 0 <= c < |calls| && Needs(hook, calls[c]) :: c == asked)
          <==> (forall c | asked < c < |calls| :: !Needs(hook, calls[c])))
  {
    var calls, hook := st.log[i].calls, st.log[i].hook;
    assert st.log[k].calls == calls;
    forall c | 0 <= c < st.log[i].asked ensures !Needs(hook, calls[c]) {
      assert !hook.value.Intercepts(calls[c].name);
    }
  }

  predicate Needs(hook: Option<Hook>, call: ToolCall) {
    hook.Some? && hook.value.Intercepts(call.name)
  }

  lemma {:induction false} StoppedAtOnce(run: RunConfig, rendered: Option<string>, messages: seq<Message>, turn: nat,
        approval: ApprovalId, calls: seq<ToolCall>, at: nat)
    requires run.maxIterations > 0 && run.world(turn).reply.Received? && run.world(turn).reply.passesGuardrail
    requires calls == Calls(run.world(turn).reply.content) && FirstIntercepted(run, calls) == Some(at)
    ensures var buffer := Prepared(rendered, messages);
      RunFrom(run, rendered, messages, turn, approval)
        == RunResult(Interrupted(InterruptFor(run, calls, at, buffer, approval)), [Sent(buffer)], 1)
  {
  }

  lemma AnsweredAtOnce(run: RunConfig, rendered: Option<string>, messages: seq<Message>, turn: nat,
        approval: ApprovalId)
    requires run.maxIterations > 0 && run.world(turn).reply.Received? && run.world(turn).reply.passesGuardrail
    requires ActionOf(run.world(turn).reply.content).Done? && run.RequiredTools() == {}
    ensures RunFrom(run, rendered, messages, turn, approval)
      == RunResult(Finished(ActionOf(run.world(turn).reply.content).answer), [Sent(Prepared(rendered, messages))], 1)
  {
  }

  predicate NothingExecuted(e: AgentEvent) {
    !e.ExecutedApproved? && !(e.Ran? && e.event.Executed?)
  }

  function Created(cfg: AgentConfig, user: UserId, sid: SessionId): AgentState {
    Step(cfg, NewAgent(cfg), Create(user, sid, None))
  }

  /** Routing picks no skill, or one that was loaded at first. */
  predicate RoutesWell(cfg: AgentConfig, request: Request) {
    request.routed.Some? ==> cfg.skills.Some? && request.routed.value in cfg.skills.value
  }

  /** The session of an invocation that stopped for approval. */
  function StoppedSession(cfg: AgentConfig, session: Session, request: Request, interrupt: HitlInterrupt): Session {
    var skill := SkillFor(cfg, session, request);
    Opened(cfg, session).(skill := skill, interrupted := Some(StoredInterrupt(interrupt, skill)),
                          status := InterruptedSession)
  }

  predicate FirstReplyStops(run: RunConfig, turn: nat, calls: seq<ToolCall>, at: nat) {
    && run.maxIterations > 0 && Usable(run, turn)
    && calls == Calls(run.world(turn).reply.content) && FirstIntercepted(run, calls) == Some(at)
  }

  lemma InvocationStopsAtOnce(cfg: AgentConfig, st: AgentState, user: UserId, sid: SessionId, request: Request,
        calls: seq<ToolCall>, at: nat)
    requires Owned(st, user, sid) && !RoutedInVain(cfg, st, st.sessions[sid], request)
    requires FirstReplyStops(InvokedRun(cfg, st, sid, request), st.nextTurn, calls, at)
    ensures var (after, output) := InvokeStep(cfg, st, user, sid, request);
      var run := InvokedRun(cfg, st, sid, request);
      var buffer := Prepared(cfg.preamble, InvokedMessages(cfg, st, user, sid, request));
      && output == AwaitingApproval(st.nextApproval)
      && after.nextTurn == st.nextTurn + 1 && after.nextApproval == st.nextApproval + 1 && after.loaded == st.loaded
      && after.sessions == st.sessions[sid := StoppedSession(cfg, st.sessions[sid], request,
                                                InterruptFor(run, calls, at, buffer, st.nextApproval))]
      && after.log == st.log + [Ran(sid, run.hook, Sent(buffer)),
                                Suspended(sid, st.nextApproval, run.hook, st.nextTurn, buffer, calls, at)]
  {
    var run, messages := InvokedRun(cfg, st, sid, request), InvokedMessages(cfg, st, user, sid, request);
    StoppedAtOnce(run, cfg.preamble, messages, st.nextTurn, st.nextApproval, calls, at);
    var r := InvokedResult(cfg, st, user, sid, request);
    AfterRunAdds(BoundState(cfg, st, user, sid, request, []), sid, run.hook, SkillFor(cfg, st.sessions[sid], request),
                 r, []);
    assert Tagged(sid, run.hook, r.events) == [Ran(sid, run.hook, r.events[0])];
  }

  /** The state after a session was created and its first invocation stopped. */
  lemma FirstInvocationStops(cfg: AgentConfig, user: UserId, sid: SessionId, request: Request, calls: seq<ToolCall>,
        at: nat)
    requires FirstReplyStops(cfg.RunConfigFor(request.routed, false, request.activeTools), 0, calls, at)
    requires !IsCheckpointTool(calls[at].name) && RoutesWell(cfg, request)
    ensures var (st, output) := InvokeStep(cfg, Created(cfg, user, sid), user, sid, request);
      && output == AwaitingApproval(0) && st.nextTurn == 1 && st.nextApproval == 1 && Owned(st, user, sid)
      && st.loaded == NewAgent(cfg).loaded
      && var session := st.sessions[sid];
      && session.skill == request.routed && session.openingContext.None? && session.interrupted.Some?
      && session.interrupted.value.PendingToolCall? && session.interrupted.value.history.Current?
      && session.interrupted.value.approval == 0 && session.interrupted.value.skill == request.routed
      && session.interrupted.value.pending == Current(calls)
    ensures var log := InvokeStep(cfg, Created(cfg, user, sid), user, sid, request).0.log;
      forall e | e in log :: NothingExecuted(e)
  {
    InvocationStopsAtOnce(cfg, Created(cfg, user, sid), user, sid, request, calls, at);
  }

  lemma {:induction false} SecondIsIntercepted(run: RunConfig, a: ToolCall, b: ToolCall)
    requires !run.Intercepts(a.name) && run.Intercepts(b.name)
    ensures FirstIntercepted(run, [a, b]) == Some(1)
  {
    assert [a, b][1..] == [b];
  }

  /** What a decision lets through runs at once, before the model is asked again. */
  lemma DecidedCallsRun(cfg: AgentConfig, st: AgentState, user: UserId, sid: SessionId, approval: ApprovalId,
        pending: seq<ToolCall>, decision: ApprovalDecision)
    requires ResumableBy(st, user, sid, approval) && st.sessions[sid].interrupted.value.PendingToolCall?
    requires st.sessions[sid].interrupted.value.pending == Current(pending)
    requires pending != [] && !decision.Rejected?
    ensures st.log + [Resumed(sid, approval, decision), ExecutedApproved(sid, approval, ToExecute(pending, decision))]
      <= ResumeStep(cfg, st, user, sid, approval, decision).0.log
  {
    ResumeExecutes(cfg, st, user, sid, approval, decision);
    var resumed := Resumed(sid, approval, decision);
    var executed := ExecutedApproved(sid, approval, ToExecute(pending, decision));
    assert st.log + [resumed, executed] == st.log + [resumed] + [executed];
  }

  /** With two calls of which only the second needs approval, changed arguments meant for
      the second go to the first; the second never runs. */
  lemma ModifiedRunsAnotherCall(cfg: AgentConfig, user: UserId, sid: SessionId, request: Request, a: ToolCall,
        b: ToolCall,
        newArgs: Json)
    requires cfg.maxIterations > 0 && cfg.world(0).reply.Received? && cfg.world(0).reply.passesGuardrail
    requires cfg.policy.Some? && Calls(cfg.world(0).reply.content) == [a, b]
    requires !Hook(cfg.policy.value, request.routed, false).Intercepts(a.name)
    requires Hook(cfg.policy.value, request.routed, false).Intercepts(b.name) && !IsCheckpointTool(b.name)
    requires RoutesWell(cfg, request)
    ensures var stopped := InvokeStep(cfg, Created(cfg, user, sid), user, sid, request).0;
      var resumed := ResumeStep(cfg, stopped, user, sid, 0, Modified(newArgs)).0;
      stopped.log + [Resumed(sid, 0, Modified(newArgs)), ExecutedApproved(sid, 0, [ToolCall(a.id, a.name, newArgs)])]
        <= resumed.log
  {
    SecondIsIntercepted(cfg.RunConfigFor(request.routed, false, request.activeTools), a, b);
    FirstInvocationStops(cfg, user, sid, request, [a, b], 1);
    var stopped := InvokeStep(cfg, Created(cfg, user, sid), user, sid, request).0;
    DecidedCallsRun(cfg, stopped, user, sid, 0, [a, b], Modified(newArgs));
  }

  /** With a call that needs approval before a checkpoint, approving the first runs both:
      nobody is asked about the checkpoint. */
  lemma ApprovalRunsACheckpointToo(cfg: AgentConfig, user: UserId, sid: SessionId, request: Request, a: ToolCall,
        b: ToolCall)
    requires cfg.maxIterations > 0 && cfg.world(0).reply.Received? && cfg.world(0).reply.passesGuardrail
    requires cfg.policy.Some? && Calls(cfg.world(0).reply.content) == [a, b] && RoutesWell(cfg, request)
    requires Hook(cfg.policy.value, request.routed, false).Intercepts(a.name) && !IsCheckpointTool(a.name)
    requires IsCheckpointTool(b.name)
    ensures var stopped := InvokeStep(cfg, Created(cfg, user, sid), user, sid, request).0;
      stopped.log + [Resumed(sid, 0, Approved), ExecutedApproved(sid, 0, [a, b])]
        <= ResumeStep(cfg, stopped, user, sid, 0, Approved).0.log
  {
    FirstInvocationStops(cfg, user, sid, request, [a, b], 0);
    var stopped := InvokeStep(cfg, Created(cfg, user, sid), user, sid, request).0;
    DecidedCallsRun(cfg, stopped, user, sid, 0, [a, b], Approved);
  }

  /** A batch that stops at a checkpoint is dropped: whatever is decided, none of its calls
      ever runs. */
  lemma CheckpointsDropTheirBatch(cfg: AgentConfig, st: AgentState, i: nat, k: nat)
    requires CleanReplies(cfg.world) && Reachable(cfg, st) && i < |st.log| && AtCheckpoint(st.log[i]) && k < |st.log|
    ensures st.log[k].ExecutedApproved? ==> st.log[k].approval != st.log[i].approval
    ensures st.log[k].Ran? && st.log[k].event.Executed? ==> st.log[k].event.turn != st.log[i].turn
  {
    if st.log[k].ExecutedApproved? && st.log[k].approval == st.log[i].approval {
      ApprovedExecutionGoesBack(cfg, st, k);
      var j: nat :| GoesBackTo(st.log, k, j);
      EachApprovalIsUsedAtMostOnce(cfg, st, Min(i, j), Max(i, j));
    }
    if st.log[k].Ran? && st.log[k].event.Executed? { StoppedBatchesNeverRunFreely(cfg, st, i, k); }
  }

  /** A suspended session that its owner can resume with this approval. */
  predicate ResumableBy(st: AgentState, user: UserId, sid: SessionId, approval: ApprovalId) {
    && Owned(st, user, sid) && st.sessions[sid].interrupted.Some?
    && st.sessions[sid].interrupted.value.approval == approval && Resumable(st.sessions[sid].interrupted.value)
  }

  function Reopened(st: AgentState, sid: SessionId, decision: ApprovalDecision): AgentState
    requires sid in st.sessions && st.sessions[sid].interrupted.Some?
  {
    var approval := st.sessions[sid].interrupted.value.approval;
    st.(sessions := st.sessions[sid := st.sessions[sid].(interrupted := None, status := ActiveSession)],
        log := st.log + [Resumed(sid, approval, decision)])
  }

  lemma ResumedStepIs(cfg: AgentConfig, st: AgentState, user: UserId, sid: SessionId, approval: ApprovalId,
        decision: ApprovalDecision)
    requires ResumableBy(st, user, sid, approval) && !st.sessions[sid].interrupted.value.PendingPhaseGate?
    ensures var state := st.sessions[sid].interrupted.value;
      var (executed, run, messages) := ResumedRun(cfg, Reopened(st, sid, decision), sid, state, decision);
      ResumeStep(cfg, st, user, sid, approval, decision)
        == AfterRun(executed, sid, run.hook, state.skill,
                    RunFrom(run, cfg.preamble, messages, executed.nextTurn, st.nextApproval), [])
  {
  }

  /** What a run adds to the log, and whether it ends suspended. */
  lemma AfterRunAdds(st: AgentState, sid: SessionId, hook: Option<Hook>, skill: Option<string>, r: RunResult,
        reply: seq<Message>)
    requires sid in st.sessions && (r.outcome.Interrupted? ==> r.turns > 0)
    ensures var (after, output) := AfterRun(st, sid, hook, skill, r, reply);
      && (output.AwaitingApproval? <==> r.outcome.Interrupted?)
      && after.log == st.log + Tagged(sid, hook, r.events) + Suspensions(sid, hook, st.nextTurn + r.turns, r)
  {
    assert st.log + Tagged(sid, hook, r.events) + [] == st.log + Tagged(sid, hook, r.events);
  }

  /** The suspension, if a run ends in one at the last reply before `turn`. */
  function Suspensions(sid: SessionId, hook: Option<Hook>, turn: nat, r: RunResult): seq<AgentEvent>
    requires r.outcome.Interrupted? ==> turn > 0
  {
    if r.outcome.Interrupted? then
      var interrupt := r.outcome.interrupt;
      [Suspended(sid, interrupt.approval, hook, turn - 1, interrupt.history, interrupt.pending, interrupt.asked)]
    else []
  }

  /** Resuming runs what the decision lets through, before anything else. */
  lemma ResumeExecutes(cfg: AgentConfig, st: AgentState, user: UserId, sid: SessionId, approval: ApprovalId,
        decision: ApprovalDecision)
    requires ResumableBy(st, user, sid, approval) && !st.sessions[sid].interrupted.value.PendingPhaseGate?
    ensures var calls := ToExecute(PendingCalls(st.sessions[sid].interrupted.value), decision);
      st.log + [Resumed(sid, approval, decision)] + Executions(sid, approval, calls)
        <= ResumeStep(cfg, st, user, sid, approval, decision).0.log
  {
    var state := st.sessions[sid].interrupted.value;
    var (executed, run, messages) := ResumedRun(cfg, Reopened(st, sid, decision), sid, state, decision);
    ResumedStepIs(cfg, st, user, sid, approval, decision);
    AfterRunAdds(executed, sid, run.hook, state.skill,
                 RunFrom(run, cfg.preamble, messages, executed.nextTurn, st.nextApproval), []);
    var before := st.log + [Resumed(sid, approval, decision)];
    assert before + [] == before;
  }

  function Executions(sid: SessionId, approval: ApprovalId, calls: seq<ToolCall>): seq<AgentEvent> {
    if calls == [] then [] else [ExecutedApproved(sid, approval, calls)]
  }

  // ---- whose gates a run carries ----

  predicate CarriesHook(e: AgentEvent, sid: SessionId, hook: Option<Hook>) {
    && e.session == sid
    && match e
       case Ran(_, h, _) => h == hook
       case Suspended(_, _, h, _, _, _, _) => h == hook
       case _ => true
  }

  predicate SuspendedUnder(session: Session, skill: Option<string>) {
    && session.interrupted.Some? && !session.interrupted.value.PendingPhaseGate?
    && session.interrupted.value.skill == skill
  }

  lemma RunCarriesHook(st: AgentState, sid: SessionId, hook: Option<Hook>, skill: Option<string>, r: RunResult,
        reply: seq<Message>)
    requires sid in st.sessions && (r.outcome.Interrupted? ==> r.turns > 0)
    ensures var (after, output) := AfterRun(st, sid, hook, skill, r, reply);
      && st.log <= after.log && (forall e | e in after.log[|st.log|..] :: CarriesHook(e, sid, hook))
      && after.sessions[sid].skill == st.sessions[sid].skill
      && (output.AwaitingApproval? ==> SuspendedUnder(after.sessions[sid], skill))
  {
    AfterRunAdds(st, sid, hook, skill, r, reply);
    var after := AfterRun(st, sid, hook, skill, r, reply).0;
    var suspended := Suspensions(sid, hook, st.nextTurn + r.turns, r);
    assert after.log[|st.log|..] == Tagged(sid, hook, r.events) + suspended;
  }

  /** A resumed run acts under the gates that its suspension was raised under, whatever
      skill the session was bound to since, and whichever skills were reloaded. */
  lemma ResumptionsCarryTheStoredSkill(cfg: AgentConfig, st: AgentState, user: UserId, sid: SessionId,
        approval: ApprovalId, decision: ApprovalDecision)
    requires CleanReplies(cfg.world) && Reachable(cfg, st)
    requires ResumableBy(st, user, sid, approval) && !st.sessions[sid].interrupted.value.PendingPhaseGate?
    ensures var (after, output) := ResumeStep(cfg, st, user, sid, approval, decision);
      var skill := st.sessions[sid].interrupted.value.skill;
      && (exists j | 0 <= j < |st.log| :: SuspendedAs(st.log[j], sid, approval, skill))
      && st.log <= after.log
      && (forall e | e in after.log[|st.log|..] :: CarriesHook(e, sid, cfg.HookFor(skill, true)))
      && (output.AwaitingApproval? ==> SuspendedUnder(after.sessions[sid], skill))
  {
    var state := st.sessions[sid].interrupted.value;
    ReachableSafe(cfg, st);
    assert InterruptOk(st.log, sid, state);
    var j :| 0 <= j < |st.log| && RaisedBy(st.log[j], sid, state);
    assert SuspendedAs(st.log[j], sid, approval, state.skill);
    ResumptionCarriesHook(cfg, st, user, sid, approval, decision);
  }

  predicate SuspendedAs(e: AgentEvent, sid: SessionId, approval: ApprovalId, skill: Option<string>) {
    e.Suspended? && e.session == sid && e.approval == approval && e.hook.Some? && e.hook.value.skill == skill
  }

  lemma ResumptionCarriesHook(cfg: AgentConfig, st: AgentState, user: UserId, sid: SessionId, approval: ApprovalId,
        decision: ApprovalDecision)
    requires ResumableBy(st, user, sid, approval) && !st.sessions[sid].interrupted.value.PendingPhaseGate?
    ensures var (after, output) := ResumeStep(cfg, st, user, sid, approval, decision);
      var skill := st.sessions[sid].interrupted.value.skill;
      && st.log <= after.log && after.sessions[sid].skill == st.sessions[sid].skill
      && (forall e | e in after.log[|st.log|..] :: CarriesHook(e, sid, cfg.HookFor(skill, true)))
      && (output.AwaitingApproval? ==> SuspendedUnder(after.sessions[sid], skill))
  {
    var state := st.sessions[sid].interrupted.value;
    var (executed, run, messages) := ResumedRun(cfg, Reopened(st, sid, decision), sid, state, decision);
    var r := RunFrom(run, cfg.preamble, messages, executed.nextTurn, executed.nextApproval);
    ResumedStepIs(cfg, st, user, sid, approval, decision);
    RunCarriesHook(executed, sid, run.hook, state.skill, r, []);
    ResumedLog(cfg, Reopened(st, sid, decision), sid, state, decision);
    NewEventsCarryHook(st.log, [Resumed(sid, approval, decision)]
      + Executions(sid, approval, ToExecute(PendingCalls(state), decision)), executed.log,
      AfterRun(executed, sid, run.hook, state.skill, r, []).0.log, sid, run.hook);
  }

  lemma ResumedLog(cfg: AgentConfig, st: AgentState, sid: SessionId, state: InterruptedState,
        decision: ApprovalDecision)
    requires Resumable(state) && !state.PendingPhaseGate?
    ensures var calls := ToExecute(PendingCalls(state), decision);
      ResumedRun(cfg, st, sid, state, decision).0.log == st.log + Executions(sid, state.approval, calls)
  {
    assert st.log + [] == st.log;
  }

  lemma NewEventsCarryHook(before: seq<AgentEvent>, first: seq<AgentEvent>, middle: seq<AgentEvent>,
        after: seq<AgentEvent>, sid: SessionId, hook: Option<Hook>)
    requires middle == before + first && middle <= after
    requires forall e | e in first :: CarriesHook(e, sid, hook)
    requires forall e | e in after[|middle|..] :: CarriesHook(e, sid, hook)
    ensures before <= after && forall e | e in after[|before|..] :: CarriesHook(e, sid, hook)
  {
    assert after[|before|..] == first + after[|middle|..];
  }

  /** The command binds another skill to the session, or deletes it. */
  predicate Rebinds(cfg: AgentConfig, st: AgentState, sid: SessionId, command: Command)
    requires sid in st.sessions
  {
    match command
    case Delete(s) => s == sid
    case Resume(user, s, approval, decision) =>
      && s == sid && ResumableBy(st, user, sid, approval) && !decision.Rejected?
      && var state := st.sessions[sid].interrupted.value;
         state.PendingPhaseGate? && cfg.skills.Some? && state.transition.nextSkill in st.loaded
    case AdvancePhase(user, s, output) =>
      && s == sid && Owned(st, user, sid) && !PhaseIsGated(cfg, st.sessions[sid])
      && var transition := ParsedTransition(output);
         transition.Some? && cfg.skills.Some? && transition.value.nextSkill in st.loaded
    case _ => false
  }

  /** Runs of its own, for this session, act under the gates of the skill. */
  predicate ActsUnder(cfg: AgentConfig, e: AgentEvent, sid: SessionId, skill: Option<string>) {
    e.session == sid ==>
      match e
      case Ran(_, hook, _) => InvokedUnder(cfg, hook, skill)
      case Suspended(_, _, hook, _, _, _, _) => InvokedUnder(cfg, hook, skill)
      case _ => true
  }

  /** The hook of an invocation under this skill, or of some resumption. */
  predicate InvokedUnder(cfg: AgentConfig, hook: Option<Hook>, skill: Option<string>) {
    hook == cfg.HookFor(skill, false) || (hook.Some? && hook.value.alreadySatisfied)
  }

  lemma InvocationCarriesHook(cfg: AgentConfig, st: AgentState, user: UserId, sid: SessionId, request: Request)
    requires Owned(st, user, sid)
    ensures var (after, output) := InvokeStep(cfg, st, user, sid, request);
      var skill := SkillFor(cfg, st.sessions[sid], request);
      && st.log <= after.log
      && (forall e | e in after.log[|st.log|..] :: CarriesHook(e, sid, cfg.HookFor(skill, false)))
      && sid in after.sessions
      && after.sessions[sid].skill
         == (if RoutedInVain(cfg, st, st.sessions[sid], request) then st.sessions[sid].skill else skill)
      && (output.AwaitingApproval? ==> SuspendedUnder(after.sessions[sid], skill))
  {
    if !RoutedInVain(cfg, st, st.sessions[sid], request) {
      var r := InvokedResult(cfg, st, user, sid, request);
      var turn := FinishedTurn(r, InvokedInput(cfg, st, sid, request));
      RunCarriesHook(BoundState(cfg, st, user, sid, request, turn), sid, cfg.HookFor(SkillFor(cfg, st.sessions[sid],
                     request), false), SkillFor(cfg, st.sessions[sid], request), r, turn);
    }
  }

  /** What one command does to a session that is bound to a skill. */
  ghost predicate StaysBound(cfg: AgentConfig, before: AgentState, after: AgentState, sid: SessionId,
        skill: Option<string>) {
    && sid in after.sessions && after.sessions[sid].skill == skill && before.log <= after.log
    && forall e | e in after.log[|before.log|..] :: ActsUnder(cfg, e, sid, skill)
  }

  lemma InvocationStaysBound(cfg: AgentConfig, st: AgentState, user: UserId, s: SessionId, request: Request,
        sid: SessionId)
    requires sid in st.sessions && st.sessions[sid].skill.Some?
    ensures StaysBound(cfg, st, InvokeStep(cfg, st, user, s, request).0, sid, st.sessions[sid].skill)
  {
    if Owned(st, user, s) {
      InvocationCarriesHook(cfg, st, user, s, request);
      if s != sid { InvocationKeepsOthers(cfg, st, user, s, request, sid); }
    }
  }

  lemma GateStaysBound(cfg: AgentConfig, st: AgentState, user: UserId, s: SessionId, approval: ApprovalId,
        decision: ApprovalDecision, sid: SessionId)
    requires ResumableBy(st, user, s, approval) && st.sessions[s].interrupted.value.PendingPhaseGate?
    requires sid in st.sessions && !Rebinds(cfg, st, sid, Resume(user, s, approval, decision))
    ensures StaysBound(cfg, st, ResumeStep(cfg, st, user, s, approval, decision).0, sid, st.sessions[sid].skill)
  {
    var after := ResumeStep(cfg, st, user, s, approval, decision).0;
    assert after.log[|st.log|..] == [Resumed(s, approval, decision)];
  }

  lemma ResumptionStaysBound(cfg: AgentConfig, st: AgentState, user: UserId, s: SessionId, approval: ApprovalId,
        decision: ApprovalDecision, sid: SessionId)
    requires sid in st.sessions && !Rebinds(cfg, st, sid, Resume(user, s, approval, decision))
    ensures StaysBound(cfg, st, ResumeStep(cfg, st, user, s, approval, decision).0, sid, st.sessions[sid].skill)
  {
    if ResumableBy(st, user, s, approval) {
      if st.sessions[s].interrupted.value.PendingPhaseGate? {
        GateStaysBound(cfg, st, user, s, approval, decision, sid);
      } else {
        ResumptionCarriesHook(cfg, st, user, s, approval, decision);
      }
      if s != sid { ResumptionKeepsOthers(cfg, st, user, s, approval, decision, sid); }
    }
  }

  lemma TransitionStaysBound(cfg: AgentConfig, st: AgentState, s: SessionId, transition: PhaseTransition,
        sid: SessionId)
    requires s in st.sessions && sid in st.sessions
    requires s == sid && !PhaseIsGated(cfg, st.sessions[sid]) ==>
      cfg.skills.None? || transition.nextSkill !in st.loaded
    ensures StaysBound(cfg, st, TransitionStep(cfg, st, s, transition).0, sid, st.sessions[sid].skill)
  {
    var after := TransitionStep(cfg, st, s, transition).0;
    assert after.log[|st.log|..] == if PhaseIsGated(cfg, st.sessions[s]) then [GateRaised(s, st.nextApproval)] else [];
  }

  lemma PhaseStaysBound(cfg: AgentConfig, st: AgentState, user: UserId, s: SessionId, output: string, sid: SessionId)
    requires sid in st.sessions && !Rebinds(cfg, st, sid, AdvancePhase(user, s, output))
    ensures StaysBound(cfg, st, AdvancePhaseStep(cfg, st, user, s, output).0, sid, st.sessions[sid].skill)
  {
    var parsed := ParsedTransition(output);
    if Owned(st, user, s) && parsed.Some? { TransitionStaysBound(cfg, st, s, parsed.value, sid); }
  }

  lemma CommandStaysBound(cfg: AgentConfig, st: AgentState, sid: SessionId, command: Command)
    requires sid in st.sessions && st.sessions[sid].skill.Some? && !Rebinds(cfg, st, sid, command)
    ensures StaysBound(cfg, st, Step(cfg, st, command), sid, st.sessions[sid].skill)
  {
    match command
    case Invoke(user, s, request) => InvocationStaysBound(cfg, st, user, s, request, sid);
    case Resume(user, s, approval, decision) => ResumptionStaysBound(cfg, st, user, s, approval, decision, sid);
    case AdvancePhase(user, s, output) => PhaseStaysBound(cfg, st, user, s, output, sid);
    case _ =>
  }

  lemma StaysBoundTwice(cfg: AgentConfig, a: AgentState, b: AgentState, c: AgentState, sid: SessionId,
        skill: Option<string>)
    requires StaysBound(cfg, a, b, sid, skill) && StaysBound(cfg, b, c, sid, skill)
    ensures StaysBound(cfg, a, c, sid, skill)
  {
    assert c.log[|a.log|..] == b.log[|a.log|..] + c.log[|b.log|..];
  }

  ghost predicate NeverRebinds(cfg: AgentConfig, st: AgentState, sid: SessionId, commands: seq<Command>) {
    forall i | 0 <= i < |commands| ::
      sid in After(cfg, st, commands[..i]).sessions ==> !Rebinds(cfg, After(cfg, st, commands[..i]), sid, commands[i])
  }

  /** Over any run, reloads of the skills included, a session bound to a skill stays bound
      to it, and all that its own invocations do they do under the gates of that skill,
      until a phase change that applies or the end of the session. */
  lemma {:induction false} SkillsOutliveReloads(cfg: AgentConfig, st: AgentState, sid: SessionId,
        commands: seq<Command>)
    requires sid in st.sessions && st.sessions[sid].skill.Some? && NeverRebinds(cfg, st, sid, commands)
    ensures StaysBound(cfg, st, After(cfg, st, commands), sid, st.sessions[sid].skill)
  {
    if commands != [] {
      var n := |commands| - 1;
      var init := commands[..n];
      forall i | 0 <= i < n && sid in After(cfg, st, init[..i]).sessions
        ensures !Rebinds(cfg, After(cfg, st, init[..i]), sid, init[i])
      {
        assert init[..i] == commands[..i];
      }
      SkillsOutliveReloads(cfg, st, sid, init);
      CommandStaysBound(cfg, After(cfg, st, init), sid, commands[n]);
      StaysBoundTwice(cfg, st, After(cfg, st, init), After(cfg, st, commands), sid, st.sessions[sid].skill);
    }
  }

  // ---- how long an approval can be decided ----

  predicate Keeps(st: AgentState, sid: SessionId, state: InterruptedState) {
    sid in st.sessions && st.sessions[sid].interrupted == Some(state)
  }

  /** The replies that an invocation comes to stop it for approval. */
  predicate InvocationAsks(cfg: AgentConfig, st: AgentState, user: UserId, sid: SessionId, request: Request) {
    && Owned(st, user, sid) && !RoutedInVain(cfg, st, st.sessions[sid], request)
    && ComesToAStop(InvokedRun(cfg, st, sid, request), st.nextTurn)
  }

  /** An invocation raises an approval, or answers, exactly when it comes to such a reply. */
  lemma InvocationEndsExactly(cfg: AgentConfig, st: AgentState, user: UserId, sid: SessionId, request: Request)
    ensures var output := InvokeStep(cfg, st, user, sid, request).1;
      && (output.AwaitingApproval? <==> InvocationAsks(cfg, st, user, sid, request))
      && (output.Replied? <==>
            Owned(st, user, sid) && !RoutedInVain(cfg, st, st.sessions[sid], request)
            && ComesToAnAnswer(InvokedRun(cfg, st, sid, request), st.nextTurn))
  {
    if Owned(st, user, sid) && !RoutedInVain(cfg, st, st.sessions[sid], request) {
      RunEndsExactly(InvokedRun(cfg, st, sid, request), cfg.preamble, InvokedMessages(cfg, st, user, sid, request),
                     st.nextTurn, st.nextApproval);
    }
  }

  /** The command deletes the session, decides its approval, or raises another one for it. */
  predicate Overtakes(cfg: AgentConfig, st: AgentState, sid: SessionId, command: Command)
    requires sid in st.sessions
  {
    match command
    case Delete(s) => s == sid
    case Resume(user, s, approval, _) => s == sid && ResumableBy(st, user, sid, approval)
    case Invoke(user, s, request) => s == sid && InvocationAsks(cfg, st, user, sid, request)
    case AdvancePhase(user, s, output) =>
      s == sid && Owned(st, user, sid) && ParsedTransition(output).Some? && PhaseIsGated(cfg, st.sessions[sid])
    case _ => false
  }

  lemma RunKeepsOrReplaces(st: AgentState, sid: SessionId, hook: Option<Hook>, skill: Option<string>, r: RunResult,
        reply: seq<Message>, state: InterruptedState)
    requires sid in st.sessions
      && (r.outcome.Interrupted? ==> r.turns > 0 && r.outcome.interrupt.approval != state.approval)
    ensures var (after, output) := AfterRun(st, sid, hook, skill, r, reply);
      Keeps(after, sid, state) <==> !output.AwaitingApproval? && Keeps(st, sid, state)
  {
  }

  lemma InvocationKeepsOrReplaces(cfg: AgentConfig, st: AgentState, user: UserId, sid: SessionId, request: Request,
        state: InterruptedState)
    requires Owned(st, user, sid) && Keeps(st, sid, state) && state.approval < st.nextApproval
    ensures var (after, output) := InvokeStep(cfg, st, user, sid, request);
      Keeps(after, sid, state) <==> !output.AwaitingApproval?
  {
    if !RoutedInVain(cfg, st, st.sessions[sid], request) {
      var run, r := InvokedRun(cfg, st, sid, request), InvokedResult(cfg, st, user, sid, request);
      var turn := FinishedTurn(r, InvokedInput(cfg, st, sid, request));
      RunFromExecutesOnlyFreeBatches(run, cfg.preamble, InvokedMessages(cfg, st, user, sid, request), st.nextTurn,
                                     st.nextApproval);
      RunKeepsOrReplaces(BoundState(cfg, st, user, sid, request, turn), sid, run.hook,
                         SkillFor(cfg, st.sessions[sid], request), r, turn, state);
    }
  }

  lemma ResumptionDecides(cfg: AgentConfig, st: AgentState, user: UserId, sid: SessionId, approval: ApprovalId,
        decision: ApprovalDecision, state: InterruptedState)
    requires ResumableBy(st, user, sid, approval) && Keeps(st, sid, state) && state.approval < st.nextApproval
    ensures !Keeps(ResumeStep(cfg, st, user, sid, approval, decision).0, sid, state)
  {
    if !state.PendingPhaseGate? {
      var (executed, run, messages) := ResumedRun(cfg, Reopened(st, sid, decision), sid, state, decision);
      var r := RunFrom(run, cfg.preamble, messages, executed.nextTurn, st.nextApproval);
      ResumedStepIs(cfg, st, user, sid, approval, decision);
      RunFromExecutesOnlyFreeBatches(run, cfg.preamble, messages, executed.nextTurn, st.nextApproval);
      RunKeepsOrReplaces(executed, sid, run.hook, state.skill, r, [], state);
    }
  }

  lemma InvokeOvertakesExactly(cfg: AgentConfig, st: AgentState, sid: SessionId, state: InterruptedState,
        user: UserId, s: SessionId, request: Request)
    requires Keeps(st, sid, state) && state.approval < st.nextApproval
    ensures var command := Invoke(user, s, request);
      Keeps(Step(cfg, st, command), sid, state) <==> !Overtakes(cfg, st, sid, command)
  {
    if s != sid {
      InvocationKeepsOthers(cfg, st, user, s, request, sid);
    } else if Owned(st, user, sid) {
      InvocationKeepsOrReplaces(cfg, st, user, sid, request, state);
      InvocationEndsExactly(cfg, st, user, sid, request);
    }
  }

  lemma ResumeOvertakesExactly(cfg: AgentConfig, st: AgentState, sid: SessionId, state: InterruptedState,
        user: UserId, s: SessionId, approval: ApprovalId, decision: ApprovalDecision)
    requires Keeps(st, sid, state) && state.approval < st.nextApproval
    ensures var command := Resume(user, s, approval, decision);
      Keeps(Step(cfg, st, command), sid, state) <==> !Overtakes(cfg, st, sid, command)
  {
    if s != sid {
      ResumptionKeepsOthers(cfg, st, user, s, approval, decision, sid);
    } else if ResumableBy(st, user, sid, approval) {
      ResumptionDecides(cfg, st, user, sid, approval, decision, state);
    }
  }

  lemma TransitionKeepsOrReplaces(cfg: AgentConfig, st: AgentState, sid: SessionId, state: InterruptedState,
        s: SessionId,
        transition: PhaseTransition)
    requires Keeps(st, sid, state) && state.approval < st.nextApproval && s in st.sessions
    ensures Keeps(TransitionStep(cfg, st, s, transition).0, sid, state)
      <==> !(s == sid && PhaseIsGated(cfg, st.sessions[sid]))
  {
  }

  lemma PhaseOvertakesExactly(cfg: AgentConfig, st: AgentState, sid: SessionId, state: InterruptedState,
        user: UserId, s: SessionId, output: string)
    requires Keeps(st, sid, state) && state.approval < st.nextApproval
    ensures var command := AdvancePhase(user, s, output);
      Keeps(Step(cfg, st, command), sid, state) <==> !Overtakes(cfg, st, sid, command)
  {
    var parsed := ParsedTransition(output);
    if Owned(st, user, s) && parsed.Some? { TransitionKeepsOrReplaces(cfg, st, sid, state, s, parsed.value); }
  }

  lemma RunKeepsOthers(st: AgentState, sid: SessionId, hook: Option<Hook>, skill: Option<string>, r: RunResult,
        reply: seq<Message>, other: SessionId)
    requires sid in st.sessions && other in st.sessions && other != sid
    requires r.outcome.Interrupted? ==> r.turns > 0
    ensures var after := AfterRun(st, sid, hook, skill, r, reply).0;
      other in after.sessions && after.sessions[other] == st.sessions[other]
  {
  }

  lemma InvocationKeepsOthers(cfg: AgentConfig, st: AgentState, user: UserId, sid: SessionId, request: Request,
        other: SessionId)
    requires other in st.sessions && other != sid
    ensures var after := InvokeStep(cfg, st, user, sid, request).0;
      other in after.sessions && after.sessions[other] == st.sessions[other]
  {
    if Owned(st, user, sid) && !RoutedInVain(cfg, st, st.sessions[sid], request) {
      var r := InvokedResult(cfg, st, user, sid, request);
      var turn := FinishedTurn(r, InvokedInput(cfg, st, sid, request));
      RunKeepsOthers(BoundState(cfg, st, user, sid, request, turn), sid, InvokedRun(cfg, st, sid, request).hook,
                     SkillFor(cfg, st.sessions[sid], request), r, turn, other);
    }
  }

  lemma ResumptionKeepsOthers(cfg: AgentConfig, st: AgentState, user: UserId, sid: SessionId, approval: ApprovalId,
        decision: ApprovalDecision, other: SessionId)
    requires other in st.sessions && other != sid
    ensures var after := ResumeStep(cfg, st, user, sid, approval, decision).0;
      other in after.sessions && after.sessions[other] == st.sessions[other]
  {
    if ResumableBy(st, user, sid, approval) && !st.sessions[sid].interrupted.value.PendingPhaseGate? {
      var state := st.sessions[sid].interrupted.value;
      var (executed, run, messages) := ResumedRun(cfg, Reopened(st, sid, decision), sid, state, decision);
      ResumedStepIs(cfg, st, user, sid, approval, decision);
      RunKeepsOthers(executed, sid, run.hook, state.skill,
                     RunFrom(run, cfg.preamble, messages, executed.nextTurn, executed.nextApproval), [], other);
    }
  }

  /** A raised approval survives a command, and can still be decided, exactly unless the
      command overtakes it: an invocation or a phase change that raises another approval
      for the same session drops the first one silently. */
  lemma ApprovalStaysPendingExactly(cfg: AgentConfig, st: AgentState, sid: SessionId, state: InterruptedState,
        command: Command)
    requires CleanReplies(cfg.world) && Reachable(cfg, st) && Keeps(st, sid, state)
    ensures Keeps(Step(cfg, st, command), sid, state) <==> !Overtakes(cfg, st, sid, command)
  {
    ReachableSafe(cfg, st);
    match command
    case Invoke(user, s, request) => InvokeOvertakesExactly(cfg, st, sid, state, user, s, request);
    case Resume(user, s, approval, decision) =>
      ResumeOvertakesExactly(cfg, st, sid, state, user, s, approval, decision);
    case AdvancePhase(user, s, output) => PhaseOvertakesExactly(cfg, st, sid, state, user, s, output);
    case _ =>
  }

  /** So an approval can be lost: a second invocation stops at another call, and the first
      approval is refused whatever is decided about it. */
  lemma ApprovalIsLost(cfg: AgentConfig, user: UserId, sid: SessionId, first: Request, second: Request, a: ToolCall,
        b: ToolCall, decision: ApprovalDecision)
    requires cfg.policy.Some? && cfg.maxIterations > 0 && RoutesWell(cfg, first) && RoutesWell(cfg, second)
    requires cfg.world(0).reply.Received? && cfg.world(0).reply.passesGuardrail
    requires cfg.world(1).reply.Received? && cfg.world(1).reply.passesGuardrail
    requires Calls(cfg.world(0).reply.content) == [a] && a.name in cfg.policy.value.globalToolBlocklist
    requires Calls(cfg.world(1).reply.content) == [b] && b.name in cfg.policy.value.globalToolBlocklist
    requires !IsCheckpointTool(a.name)
    ensures var (asked, once) := InvokeStep(cfg, Created(cfg, user, sid), user, sid, first);
      var (again, twice) := InvokeStep(cfg, asked, user, sid, second);
      && once == AwaitingApproval(0) && ResumableBy(asked, user, sid, 0)
      && twice == AwaitingApproval(1)
      && ResumeStep(cfg, again, user, sid, 0, decision) == (again, Refused(ApprovalMismatch))
  {
    FirstInvocationStops(cfg, user, sid, first, [a], 0);
    var asked := InvokeStep(cfg, Created(cfg, user, sid), user, sid, first).0;
    StoppedAgainRefusesOlder(cfg, asked, user, sid, second, [b], 0, 0, decision);
  }

  /** Once an invocation stopped, older approvals of the session are refused. */
  lemma StoppedAgainRefusesOlder(cfg: AgentConfig, st: AgentState, user: UserId, sid: SessionId, request: Request,
        calls: seq<ToolCall>, at: nat, older: ApprovalId, decision: ApprovalDecision)
    requires Owned(st, user, sid) && !RoutedInVain(cfg, st, st.sessions[sid], request) && older < st.nextApproval
    requires FirstReplyStops(InvokedRun(cfg, st, sid, request), st.nextTurn, calls, at)
    ensures var (after, output) := InvokeStep(cfg, st, user, sid, request);
      && output == AwaitingApproval(st.nextApproval)
      && ResumeStep(cfg, after, user, sid, older, decision) == (after, Refused(ApprovalMismatch))
  {
    InvocationStopsAtOnce(cfg, st, user, sid, request, calls, at);
    var after := InvokeStep(cfg, st, user, sid, request).0;
    assert after.sessions[sid].interrupted.Some? && after.sessions[sid].interrupted.value.approval == st.nextApproval;
    assert Owned(after, user, sid);
  }

  /** What an older release left suspended can never be resumed: whoever tries, and
      however often, is refused in the same way, and nothing changes. */
  lemma UnreadableInterruptsAreNeverResumed(cfg: AgentConfig, st: AgentState, sid: SessionId, state: InterruptedState,
        user: UserId, approval: ApprovalId, decision: ApprovalDecision)
    requires CleanReplies(cfg.world) && Reachable(cfg, st) && Keeps(st, sid, state) && !Resumable(state)
    ensures var (after, output) := ResumeStep(cfg, st, user, sid, approval, decision);
      && after == st && output.Refused?
      && (output.failure == IncompatiblePersistedInterrupt <==> Owned(st, user, sid) && approval == state.approval)
    ensures forall e | e in st.log :: !(e.Resumed? && e.approval == state.approval)
  {
    ReachableSafe(cfg, st);
    assert InterruptOk(st.log, sid, state);
  }

  // ---- from phase to phase ----

  /** The summary of the last phase opens exactly the next invocation: that one goes as if
      its input began with the summary and an empty history was cached, and it leaves no
      summary for the one after. */
  lemma SummaryOpensTheNextInvocation(cfg: AgentConfig, st: AgentState, user: UserId, sid: SessionId,
        transition: PhaseTransition, reply: string, request: Request)
    requires Owned(st, user, sid) && ApplyTransition(cfg, st, sid, transition, reply).1.Replied?
    ensures var changed := ApplyTransition(cfg, st, sid, transition, reply).0;
      var session := changed.sessions[sid];
      var plain := changed.(sessions := changed.sessions[sid := session.(openingContext := None)],
                            cached := changed.cached[(user, sid) := []]);
      var input := "Context from previous phase: " + transition.summary + "\n\n" + request.input;
      var (after, output) := InvokeStep(cfg, changed, user, sid, request);
      var (alike, same) := InvokeStep(cfg, plain, user, sid, request.(input := input, warm := true));
      && session.skill == Some(transition.nextSkill)
      && output == same && after == alike.(cached := after.cached)
      && after.sessions[sid].openingContext.None?
  {
    var changed := ApplyTransition(cfg, st, sid, transition, reply).0;
    var session := changed.sessions[sid];
    var plain := changed.(sessions := changed.sessions[sid := session.(openingContext := None)],
                          cached := changed.cached[(user, sid) := []]);
    var input := "Context from previous phase: " + transition.summary + "\n\n" + request.input;
    var alike := request.(input := input, warm := true);
    assert LookedUp(cfg, changed, user, sid, request).sessions == LookedUp(cfg, plain, user, sid, alike).sessions;
    var r := InvokedResult(cfg, changed, user, sid, request);
    assert InvokedResult(cfg, plain, user, sid, alike) == r;
    var turn := FinishedTurn(r, input);
    SettledAlike(BoundState(cfg, changed, user, sid, request, turn), BoundState(cfg, plain, user, sid, alike, turn),
                 sid, InvokedRun(cfg, changed, sid, request).hook, session.skill, r, turn);
  }

  /** What a run does to a state has nothing to do with the cache. */
  lemma SettledAlike(a: AgentState, b: AgentState, sid: SessionId, hook: Option<Hook>, skill: Option<string>,
        r: RunResult, reply: seq<Message>)
    requires a == b.(cached := a.cached) && sid in a.sessions && (r.outcome.Interrupted? ==> r.turns > 0)
    ensures var (after, output) := AfterRun(a, sid, hook, skill, r, reply);
      var (alike, same) := AfterRun(b, sid, hook, skill, r, reply);
      && output == same && after == alike.(cached := after.cached)
      && after.sessions[sid].openingContext == a.sessions[sid].openingContext
  {
  }
}
