/** The tools that a skill has to call, from an invocation to the answer that ends it.

    An invocation that is suspended goes on in the resumptions of its approvals; together
    they are a chain.  Each link is a command, with the states before and after it. */
module AgentChains {
  import opened Messages
  import opened Hitl
  import opened Cycle
  import opened React
  import opened ReactTheorems
  import opened Routing
  import opened AgentSteps
  import opened AgentRuns
  import opened AgentApprovals
  import opened Wrappers

  // ---- one command ----

  predicate HoldsMandatory(required: set<string>, calls: seq<ToolCall>) {
    exists c | 0 <= c < |calls| :: calls[c].name in required
  }

  predicate RunsMandatory(required: set<string>, e: AgentEvent) {
    match e
    case Ran(_, _, Executed(_, calls)) => HoldsMandatory(required, calls)
    case ExecutedApproved(_, _, calls) => HoldsMandatory(required, calls)
    case _ => false
  }

  /** An invocation bound to a skill with mandatory tools is never simply answered:
      it waits for approval, or it fails. */
  lemma InvocationsNeverSkipMandatoryTools(cfg: AgentConfig, st: AgentState, user: UserId, sid: SessionId,
        request: Request)
    requires cfg.policy.Some? && Owned(st, user, sid)
    requires cfg.policy.value.RequiredToolNames(SkillFor(cfg, st.sessions[sid], request)) != {}
    ensures var (after, output) := InvokeStep(cfg, st, user, sid, request);
      && !output.Replied?
      && after.sessions[sid].transcript == st.sessions[sid].transcript
      && (output.AwaitingApproval? ==>
            after.sessions[sid].interrupted.Some? && after.sessions[sid].interrupted.value.approval == output.approval)
  {
    if !RoutedInVain(cfg, st, st.sessions[sid], request) {
      FreshRunWithMandatoryToolsNeverFinishes(InvokedRun(cfg, st, sid, request), cfg.preamble,
                                              InvokedMessages(cfg, st, user, sid, request), st.nextTurn,
                                              st.nextApproval);
    }
  }

  /** Of itself, a run with the agent's hook runs no tool that the hook's skill has to call. */
  lemma FreeRunRunsNoMandatory(run: RunConfig, policy: HitlPolicy, skill: Option<string>, resumed: bool, sid: SessionId,
        rendered: Option<string>, messages: seq<Message>, turn: nat, approval: ApprovalId)
    requires run.hook == Some(Hook(policy, skill, resumed))
    ensures var r := RunFrom(run, rendered, messages, turn, approval);
      forall e | e in r.events :: !RunsMandatory(policy.RequiredToolNames(skill), Ran(sid, run.hook, e))
  {
    var r, required := RunFrom(run, rendered, messages, turn, approval), policy.RequiredToolNames(skill);
    RunFromExecutesOnlyFreeBatches(run, rendered, messages, turn, approval);
    forall i | 0 <= i < |r.events| ensures !RunsMandatory(required, Ran(sid, run.hook, r.events[i])) {
      if r.events[i].Executed? && HoldsMandatory(required, r.events[i].calls) {
        var c :| 0 <= c < |r.events[i].calls| && r.events[i].calls[c].name in required;
        RequiredToolsAreIntercepted(Hook(policy, skill, false), r.events[i].calls[c].name);
        assert run.Intercepts(r.events[i].calls[c].name);
        assert false;
      }
    }
  }

  lemma RunAddsNoMandatory(st: AgentState, sid: SessionId, run: RunConfig, policy: HitlPolicy, skill: Option<string>,
        resumed: bool, rendered: Option<string>, messages: seq<Message>, r: RunResult, reply: seq<Message>)
    requires sid in st.sessions && run.hook == Some(Hook(policy, skill, resumed))
    requires r == RunFrom(run, rendered, messages, st.nextTurn, st.nextApproval)
    ensures var after := AfterRun(st, sid, run.hook, skill, r, reply).0;
      st.log <= after.log && forall e | e in after.log[|st.log|..] :: !RunsMandatory(policy.RequiredToolNames(skill), e)
  {
    var ran, suspended := Tagged(sid, run.hook, r.events), Suspensions(sid, run.hook, st.nextTurn + r.turns, r);
    AfterRunAdds(st, sid, run.hook, skill, r, reply);
    assert AfterRun(st, sid, run.hook, skill, r, reply).0.log[|st.log|..] == ran + suspended;
    FreeRunRunsNoMandatory(run, policy, skill, resumed, sid, rendered, messages, st.nextTurn, st.nextApproval);
    TaggedRunsNoMandatory(policy.RequiredToolNames(skill), sid, run.hook, r.events);
  }

  lemma TaggedRunsNoMandatory(due: set<string>, sid: SessionId, hook: Option<Hook>, events: seq<Event>)
    requires forall e | e in events :: !RunsMandatory(due, Ran(sid, hook, e))
    ensures forall e | e in Tagged(sid, hook, events) :: !RunsMandatory(due, e)
  {
    forall i | 0 <= i < |events| ensures !RunsMandatory(due, Tagged(sid, hook, events)[i]) {
      assert events[i] in events;
    }
  }

  /** A resumed run is not held to call anything: a resumption runs a mandatory tool exactly when
      the decision lets one of the stopped batch through. */
  lemma ResumedRunRunsMandatoryExactly(cfg: AgentConfig, st: AgentState, user: UserId, sid: SessionId,
        approval: ApprovalId, decision: ApprovalDecision)
    requires cfg.policy.Some? && ResumableBy(st, user, sid, approval)
    requires !st.sessions[sid].interrupted.value.PendingPhaseGate?
    ensures var state := st.sessions[sid].interrupted.value;
      var after := ResumeStep(cfg, st, user, sid, approval, decision).0;
      var required := cfg.policy.value.RequiredToolNames(state.skill);
      st.log <= after.log
      && ((exists e | e in after.log[|st.log|..] :: RunsMandatory(required, e))
          <==> HoldsMandatory(required, ToExecute(PendingCalls(state), decision)))
  {
    var state := st.sessions[sid].interrupted.value;
    var required := cfg.policy.value.RequiredToolNames(state.skill);
    var (executed, run, messages) := ResumedRun(cfg, Reopened(st, sid, decision), sid, state, decision);
    var r := RunFrom(run, cfg.preamble, messages, executed.nextTurn, executed.nextApproval);
    ResumedStepIs(cfg, st, user, sid, approval, decision);
    RunAddsNoMandatory(executed, sid, run, cfg.policy.value, state.skill, true, cfg.preamble, messages, r, []);
    ResumedLog(cfg, Reopened(st, sid, decision), sid, state, decision);
    var calls := ToExecute(PendingCalls(state), decision);
    MandatoryAmong(required, st.log, Resumed(sid, approval, decision), Executions(sid, approval, calls),
                   executed.log, AfterRun(executed, sid, run.hook, state.skill, r, []).0.log);
    MandatoryExecutions(required, sid, approval, calls);
  }

  lemma MandatoryExecutions(required: set<string>, sid: SessionId, approval: ApprovalId, calls: seq<ToolCall>)
    ensures (exists e | e in Executions(sid, approval, calls) :: RunsMandatory(required, e))
      <==> HoldsMandatory(required, calls)
  {
    if HoldsMandatory(required, calls) {
      assert ExecutedApproved(sid, approval, calls) in Executions(sid, approval, calls);
    }
  }

  lemma MandatoryAmong(required: set<string>, before: seq<AgentEvent>, resumed: AgentEvent, executed: seq<AgentEvent>,
        middle: seq<AgentEvent>, after: seq<AgentEvent>)
    requires resumed.Resumed? && middle == before + [resumed] + executed && middle <= after
    requires forall e | e in after[|middle|..] :: !RunsMandatory(required, e)
    ensures before <= after
      && ((exists e | e in after[|before|..] :: RunsMandatory(required, e))
          <==> exists e | e in executed :: RunsMandatory(required, e))
  {
    var rest := after[|middle|..];
    assert after[|before|..] == [resumed] + executed + rest;
    if e :| e in executed && RunsMandatory(required, e) { assert e in [resumed] + executed + rest; }
  }

  /** A decision that lets no call run, and a reply that answers: the resumed run ends at once. */
  lemma DecidedThenAnswered(cfg: AgentConfig, st: AgentState, user: UserId, sid: SessionId, approval: ApprovalId,
        decision: ApprovalDecision)
    requires ResumableBy(st, user, sid, approval) && !st.sessions[sid].interrupted.value.PendingPhaseGate?
    requires ToExecute(PendingCalls(st.sessions[sid].interrupted.value), decision) == []
    requires cfg.maxIterations > 0 && cfg.world(st.nextTurn).reply.Received?
    requires cfg.world(st.nextTurn).reply.passesGuardrail && ActionOf(cfg.world(st.nextTurn).reply.content).Done?
    requires forall e | e in st.log :: NothingExecuted(e)
    ensures var (after, output) := ResumeStep(cfg, st, user, sid, approval, decision);
      output.Replied? && forall e | e in after.log :: NothingExecuted(e)
  {
    var state := st.sessions[sid].interrupted.value;
    var (executed, run, messages) := ResumedRun(cfg, Reopened(st, sid, decision), sid, state, decision);
    ResumedStepIs(cfg, st, user, sid, approval, decision);
    AnsweredAtOnce(run, cfg.preamble, messages, executed.nextTurn, executed.nextApproval);
    AfterRunAdds(executed, sid, run.hook, state.skill,
                 RunFrom(run, cfg.preamble, messages, executed.nextTurn, executed.nextApproval), []);
  }

  // ---- chains ----

  /** An invocation or a resumption, and what it leads to. */
  datatype Link = Link(before: AgentState, command: Command, after: AgentState, output: AgentOutput)

  ghost predicate IsLink(cfg: AgentConfig, link: Link) {
    match link.command
    case Invoke(user, sid, request) => (link.after, link.output) == InvokeStep(cfg, link.before, user, sid, request)
    case Resume(user, sid, approval, decision) =>
      (link.after, link.output) == ResumeStep(cfg, link.before, user, sid, approval, decision)
    case _ => false
  }

  ghost predicate LeadsTo(cfg: AgentConfig, st: AgentState, later: AgentState) {
    exists commands :: After(cfg, st, commands) == later
  }

  /** The next link decides the approval that this one raised; between the two any commands
      may come, for any session. */
  ghost predicate Follows(cfg: AgentConfig, link: Link, next: Link) {
    && (link.command.Invoke? || link.command.Resume?)
    && next.command.Resume? && next.command.session == link.command.session
    && link.output == AwaitingApproval(next.command.approval) && LeadsTo(cfg, link.after, next.before)
  }

  /** An invocation, and the resumptions of its suspensions one after the other. */
  ghost predicate IsChain(cfg: AgentConfig, chain: seq<Link>) {
    && chain != [] && chain[0].command.Invoke?
    && forall n: nat | n < |chain| :: LinksAt(cfg, chain, n)
  }

  ghost predicate LinksAt(cfg: AgentConfig, chain: seq<Link>, n: nat)
    requires n < |chain|
  {
    IsLink(cfg, chain[n]) && (n > 0 ==> Follows(cfg, chain[n - 1], chain[n]))
  }

  /** The skill of an invocation, which stays the skill of the whole chain. */
  function SkillOf(cfg: AgentConfig, link: Link): Option<string>
    requires link.command.Invoke?
  {
    var sid := link.command.session;
    if sid in link.before.sessions then SkillFor(cfg, link.before.sessions[sid], link.command.request) else None
  }

  /** The tools that a chain has to call. */
  function DueTools(cfg: AgentConfig, link: Link): set<string>
    requires cfg.policy.Some? && link.command.Invoke?
  {
    cfg.policy.value.RequiredToolNames(SkillOf(cfg, link))
  }

  /** The first reply of a link, after the calls that its decision lets through. */
  function FirstReply(cfg: AgentConfig, link: Link): nat {
    match link.command
    case Resume(user, sid, approval, decision) =>
      if ResumableBy(link.before, user, sid, approval)
         && !link.before.sessions[sid].interrupted.value.PendingPhaseGate?
      then RunStart(cfg, link.before, sid, decision) else link.before.nextTurn
    case _ => link.before.nextTurn
  }

  function RunStart(cfg: AgentConfig, st: AgentState, sid: SessionId, decision: ApprovalDecision): nat
    requires sid in st.sessions && st.sessions[sid].interrupted.Some?
    requires Resumable(st.sessions[sid].interrupted.value) && !st.sessions[sid].interrupted.value.PendingPhaseGate?
  {
    ResumedRun(cfg, Reopened(st, sid, decision), sid, st.sessions[sid].interrupted.value, decision).0.nextTurn
  }

  predicate CallsDue(cfg: AgentConfig, due: set<string>, t: nat) {
    cfg.world(t).reply.Received? && HoldsMandatory(due, Calls(cfg.world(t).reply.content))
  }

  predicate CallsDueBetween(cfg: AgentConfig, due: set<string>, first: nat, last: nat) {
    exists t: nat | first <= t < last :: CallsDue(cfg, due, t)
  }

  /** Some reply of the link calls a tool that is due. */
  predicate LinkCallsDue(cfg: AgentConfig, due: set<string>, link: Link) {
    CallsDueBetween(cfg, due, FirstReply(cfg, link), link.after.nextTurn)
  }

  /** The decision of the n-th link, if it is a resumption, was a rejection. */
  predicate RejectedAt(chain: seq<Link>, n: nat) {
    n < |chain| && chain[n].command.Resume? && chain[n].command.decision.Rejected?
  }

  /** The batch that the last event of a log suspended, a checkpoint's batch included. */
  function LastBatch(log: seq<AgentEvent>): seq<ToolCall> {
    if log != [] && log[|log| - 1].Suspended? then log[|log| - 1].calls else []
  }

  // ---- a stored interrupt stays what it is ----

  /** Under its approval, the session has this interrupt or none. */
  predicate StillThe(st: AgentState, sid: SessionId, state: InterruptedState) {
    && state.approval < st.nextApproval
    && (sid in st.sessions && st.sessions[sid].interrupted.Some?
        && st.sessions[sid].interrupted.value.approval == state.approval
        ==> st.sessions[sid].interrupted.value == state)
  }

  lemma RunLeavesIt(st: AgentState, s: SessionId, hook: Option<Hook>, skill: Option<string>, r: RunResult,
        reply: seq<Message>, sid: SessionId, state: InterruptedState)
    requires s in st.sessions && StillThe(st, sid, state)
    requires r.outcome.Interrupted? ==> r.turns > 0 && r.outcome.interrupt.approval == st.nextApproval
    ensures StillThe(AfterRun(st, s, hook, skill, r, reply).0, sid, state)
  {
  }

  lemma InvocationLeavesIt(cfg: AgentConfig, st: AgentState, user: UserId, s: SessionId, request: Request,
        sid: SessionId, state: InterruptedState)
    requires StillThe(st, sid, state)
    ensures StillThe(InvokeStep(cfg, st, user, s, request).0, sid, state)
  {
    if Owned(st, user, s) && !RoutedInVain(cfg, st, st.sessions[s], request) {
      var run, r := InvokedRun(cfg, st, s, request), InvokedResult(cfg, st, user, s, request);
      var turn := FinishedTurn(r, InvokedInput(cfg, st, s, request));
      RunFromExecutesOnlyFreeBatches(run, cfg.preamble, InvokedMessages(cfg, st, user, s, request), st.nextTurn,
                                     st.nextApproval);
      RunLeavesIt(BoundState(cfg, st, user, s, request, turn), s, run.hook, SkillFor(cfg, st.sessions[s], request), r,
                  turn, sid, state);
    }
  }

  lemma GateLeavesIt(cfg: AgentConfig, st: AgentState, user: UserId, s: SessionId, approval: ApprovalId,
        decision: ApprovalDecision, sid: SessionId, state: InterruptedState)
    requires StillThe(st, sid, state)
    requires ResumableBy(st, user, s, approval) && st.sessions[s].interrupted.value.PendingPhaseGate?
    ensures StillThe(ResumeStep(cfg, st, user, s, approval, decision).0, sid, state)
  {
  }

  lemma ResumptionLeavesIt(cfg: AgentConfig, st: AgentState, user: UserId, s: SessionId, approval: ApprovalId,
        decision: ApprovalDecision, sid: SessionId, state: InterruptedState)
    requires StillThe(st, sid, state)
    ensures StillThe(ResumeStep(cfg, st, user, s, approval, decision).0, sid, state)
  {
    if !ResumableBy(st, user, s, approval) {
    } else if st.sessions[s].interrupted.value.PendingPhaseGate? {
      GateLeavesIt(cfg, st, user, s, approval, decision, sid, state);
    } else {
      var stored := st.sessions[s].interrupted.value;
      var (executed, run, messages) := ResumedRun(cfg, Reopened(st, s, decision), s, stored, decision);
      ResumedStepIs(cfg, st, user, s, approval, decision);
      RunFromExecutesOnlyFreeBatches(run, cfg.preamble, messages, executed.nextTurn, executed.nextApproval);
      RunLeavesIt(executed, s, run.hook, stored.skill,
                  RunFrom(run, cfg.preamble, messages, executed.nextTurn, executed.nextApproval), [], sid, state);
    }
  }

  lemma TransitionLeavesIt(cfg: AgentConfig, st: AgentState, s: SessionId, transition: PhaseTransition,
        sid: SessionId, state: InterruptedState)
    requires s in st.sessions && StillThe(st, sid, state)
    ensures StillThe(TransitionStep(cfg, st, s, transition).0, sid, state)
  {
  }

  lemma PhaseLeavesIt(cfg: AgentConfig, st: AgentState, user: UserId, s: SessionId, output: string, sid: SessionId,
        state: InterruptedState)
    requires StillThe(st, sid, state)
    ensures StillThe(AdvancePhaseStep(cfg, st, user, s, output).0, sid, state)
  {
    var parsed := ParsedTransition(output);
    if Owned(st, user, s) && parsed.Some? { TransitionLeavesIt(cfg, st, s, parsed.value, sid, state); }
  }

  lemma CommandLeavesIt(cfg: AgentConfig, st: AgentState, sid: SessionId, state: InterruptedState, command: Command)
    requires StillThe(st, sid, state)
    ensures StillThe(Step(cfg, st, command), sid, state)
  {
    match command
    case Invoke(user, s, request) => InvocationLeavesIt(cfg, st, user, s, request, sid, state);
    case Resume(user, s, approval, decision) =>
      ResumptionLeavesIt(cfg, st, user, s, approval, decision, sid, state);
    case AdvancePhase(user, s, output) => PhaseLeavesIt(cfg, st, user, s, output, sid, state);
    case _ =>
  }

  lemma {:induction false} CommandsLeaveIt(cfg: AgentConfig, st: AgentState, sid: SessionId, state: InterruptedState,
        commands: seq<Command>)
    requires StillThe(st, sid, state)
    ensures StillThe(After(cfg, st, commands), sid, state)
  {
    if commands != [] {
      var init := commands[..|commands| - 1];
      CommandsLeaveIt(cfg, st, sid, state, init);
      CommandLeavesIt(cfg, After(cfg, st, init), sid, state, commands[|commands| - 1]);
    }
  }

  // ---- one link ----

  /** What is stored and logged when a link is suspended. */
  predicate SuspendedWith(after: AgentState, sid: SessionId, skill: Option<string>, approval: ApprovalId) {
    && sid in after.sessions && SuspendedUnder(after.sessions[sid], skill)
    && var state := after.sessions[sid].interrupted.value;
    && state.approval == approval < after.nextApproval && Resumable(state)
    && after.log != [] && RaisedBy(after.log[|after.log| - 1], sid, state)
  }

  ghost predicate LinkFacts(cfg: AgentConfig, due: set<string>, skill: Option<string>, sid: SessionId, first: nat,
        after: AgentState, output: AgentOutput) {
    && (output.AwaitingApproval? ==>
          && SuspendedWith(after, sid, skill, output.approval)
          && (CallsDueBetween(cfg, due, first, after.nextTurn) <==> HoldsMandatory(due, LastBatch(after.log))))
    && (output.Replied? ==> !CallsDueBetween(cfg, due, first, after.nextTurn))
  }

  /** A reply that lets a run go on calls no tool that the skill has to call. */
  lemma DueCallsStopARun(run: RunConfig, policy: HitlPolicy, skill: Option<string>, resumed: bool, t: nat)
    requires run.hook == Some(Hook(policy, skill, resumed)) && GoesOn(run, t)
    ensures !HoldsMandatory(policy.RequiredToolNames(skill), Calls(run.world(t).reply.content))
  {
    var calls := Calls(run.world(t).reply.content);
    forall c | 0 <= c < |calls| ensures calls[c].name !in policy.RequiredToolNames(skill) {
      assert !run.Intercepts(calls[c].name);
      FreeToolsAreNotRequired(policy, skill, resumed, calls[c].name);
    }
  }

  lemma FreeToolsAreNotRequired(policy: HitlPolicy, skill: Option<string>, resumed: bool, tool: string)
    requires !Hook(policy, skill, resumed).Intercepts(tool)
    ensures tool !in policy.RequiredToolNames(skill)
  {
    if tool in policy.RequiredToolNames(skill) { RequiredToolsAreIntercepted(Hook(policy, skill, false), tool); }
  }

  /** Of the replies of a run, only the last may call such a tool, and only if it stops the run. */
  lemma RunCallsDue(cfg: AgentConfig, run: RunConfig, skill: Option<string>, resumed: bool, messages: seq<Message>,
        turn: nat, approval: ApprovalId)
    requires cfg.policy.Some? && run.hook == cfg.HookFor(skill, resumed) && run.world == cfg.world
    ensures var r := RunFrom(run, cfg.preamble, messages, turn, approval);
      var due := cfg.policy.value.RequiredToolNames(skill);
      && (r.outcome.Interrupted? ==>
            (CallsDueBetween(cfg, due, turn, turn + r.turns) <==> HoldsMandatory(due, r.outcome.interrupt.pending)))
      && (r.outcome.Finished? ==> !CallsDueBetween(cfg, due, turn, turn + r.turns))
  {
    var r := RunFrom(run, cfg.preamble, messages, turn, approval);
    var due := cfg.policy.value.RequiredToolNames(skill);
    RunEndsExactly(run, cfg.preamble, messages, turn, approval);
    RunFromExecutesOnlyFreeBatches(run, cfg.preamble, messages, turn, approval);
    forall t: nat | turn <= t < turn + r.turns - 1 ensures !CallsDue(cfg, due, t) {
      DueCallsStopARun(run, cfg.policy.value, skill, resumed, t);
    }
    if r.outcome.Interrupted? && HoldsMandatory(due, r.outcome.interrupt.pending) {
      assert CallsDue(cfg, due, turn + r.turns - 1);
    }
  }

  lemma SuspensionIsStored(st: AgentState, sid: SessionId, run: RunConfig, skill: Option<string>, r: RunResult,
        reply: seq<Message>)
    requires sid in st.sessions && run.hook.Some? && run.hook.value.skill == skill
    requires r.outcome.Interrupted? && BatchesOfRun(run, r, st.nextTurn, st.nextApproval)
    ensures var (after, output) := AfterRun(st, sid, run.hook, skill, r, reply);
      output == AwaitingApproval(st.nextApproval) && SuspendedWith(after, sid, skill, st.nextApproval)
      && LastBatch(after.log) == r.outcome.interrupt.pending
  {
  }

  lemma RunLink(cfg: AgentConfig, st: AgentState, sid: SessionId, run: RunConfig, skill: Option<string>,
        resumed: bool, messages: seq<Message>, r: RunResult, reply: seq<Message>)
    requires sid in st.sessions && cfg.policy.Some? && run.hook == cfg.HookFor(skill, resumed)
    requires run.world == cfg.world && r == RunFrom(run, cfg.preamble, messages, st.nextTurn, st.nextApproval)
    ensures var (after, output) := AfterRun(st, sid, run.hook, skill, r, reply);
      LinkFacts(cfg, cfg.policy.value.RequiredToolNames(skill), skill, sid, st.nextTurn, after, output)
  {
    RunCallsDue(cfg, run, skill, resumed, messages, st.nextTurn, st.nextApproval);
    RunFromExecutesOnlyFreeBatches(run, cfg.preamble, messages, st.nextTurn, st.nextApproval);
    if r.outcome.Interrupted? { SuspensionIsStored(st, sid, run, skill, r, reply); }
  }

  lemma InvocationLink(cfg: AgentConfig, st: AgentState, user: UserId, sid: SessionId, request: Request)
    requires cfg.policy.Some? && Owned(st, user, sid)
    ensures var (after, output) := InvokeStep(cfg, st, user, sid, request);
      var skill := SkillFor(cfg, st.sessions[sid], request);
      LinkFacts(cfg, cfg.policy.value.RequiredToolNames(skill), skill, sid, st.nextTurn, after, output)
  {
    if !RoutedInVain(cfg, st, st.sessions[sid], request) {
      var r := InvokedResult(cfg, st, user, sid, request);
      var turn := FinishedTurn(r, InvokedInput(cfg, st, sid, request));
      RunLink(cfg, BoundState(cfg, st, user, sid, request, turn), sid, InvokedRun(cfg, st, sid, request),
              SkillFor(cfg, st.sessions[sid], request), false, InvokedMessages(cfg, st, user, sid, request), r, turn);
    }
  }

  lemma ResumptionLink(cfg: AgentConfig, st: AgentState, user: UserId, sid: SessionId, approval: ApprovalId,
        decision: ApprovalDecision)
    requires cfg.policy.Some? && ResumableBy(st, user, sid, approval)
    requires !st.sessions[sid].interrupted.value.PendingPhaseGate?
    ensures var (after, output) := ResumeStep(cfg, st, user, sid, approval, decision);
      var skill := st.sessions[sid].interrupted.value.skill;
      LinkFacts(cfg, cfg.policy.value.RequiredToolNames(skill), skill, sid, RunStart(cfg, st, sid, decision), after,
                output)
  {
    var state := st.sessions[sid].interrupted.value;
    var (executed, run, messages) := ResumedRun(cfg, Reopened(st, sid, decision), sid, state, decision);
    ResumedStepIs(cfg, st, user, sid, approval, decision);
    RunLink(cfg, executed, sid, run, state.skill, true, messages,
            RunFrom(run, cfg.preamble, messages, executed.nextTurn, executed.nextApproval), []);
  }

  // ---- whole chains ----

  ghost predicate LinkOk(cfg: AgentConfig, due: set<string>, skill: Option<string>, sid: SessionId, link: Link) {
    LinkFacts(cfg, due, skill, sid, FirstReply(cfg, link), link.after, link.output)
  }

  predicate Proceeds(link: Link) {
    link.output.AwaitingApproval? || link.output.Replied?
  }

  /** The interrupt that a link left is the one that the next link resumes. */
  predicate FindsTheInterrupt(skill: Option<string>, link: Link, next: Link)
    requires next.command.Resume?
  {
    var sid := next.command.session;
    && SuspendedWith(link.after, sid, skill, next.command.approval)
    && ResumableBy(next.before, next.command.user, sid, next.command.approval)
    && next.before.sessions[sid].interrupted == link.after.sessions[sid].interrupted
  }

  lemma RefusedUnlessResumable(cfg: AgentConfig, st: AgentState, user: UserId, sid: SessionId, approval: ApprovalId,
        decision: ApprovalDecision)
    requires !ResumeStep(cfg, st, user, sid, approval, decision).1.Refused?
    ensures ResumableBy(st, user, sid, approval)
  {
  }

  lemma NextLinkFindsIt(cfg: AgentConfig, skill: Option<string>, link: Link, next: Link)
    requires Follows(cfg, link, next) && IsLink(cfg, next) && Proceeds(next)
    requires SuspendedWith(link.after, next.command.session, skill, next.command.approval)
    ensures FindsTheInterrupt(skill, link, next)
  {
    var command := next.command;
    RefusedUnlessResumable(cfg, next.before, command.user, command.session, command.approval, command.decision);
    var commands :| After(cfg, link.after, commands) == next.before;
    var state := link.after.sessions[command.session].interrupted.value;
    CommandsLeaveIt(cfg, link.after, command.session, state, commands);
  }

  lemma FirstLink(cfg: AgentConfig, link: Link)
    requires cfg.policy.Some? && IsLink(cfg, link) && link.command.Invoke? && Proceeds(link)
    ensures LinkOk(cfg, DueTools(cfg, link), SkillOf(cfg, link), link.command.session, link)
  {
    InvocationLink(cfg, link.before, link.command.user, link.command.session, link.command.request);
  }

  lemma NextLink(cfg: AgentConfig, skill: Option<string>, link: Link, next: Link)
    requires cfg.policy.Some? && IsLink(cfg, next) && next.command.Resume? && FindsTheInterrupt(skill, link, next)
    ensures LinkOk(cfg, cfg.policy.value.RequiredToolNames(skill), skill, next.command.session, next)
  {
    var command := next.command;
    ResumptionLink(cfg, next.before, command.user, command.session, command.approval, command.decision);
  }

  lemma LinkAfterLink(cfg: AgentConfig, skill: Option<string>, link: Link, next: Link)
    requires cfg.policy.Some? && IsLink(cfg, next) && Follows(cfg, link, next) && Proceeds(next)
    requires LinkOk(cfg, cfg.policy.value.RequiredToolNames(skill), skill, next.command.session, link)
    ensures FindsTheInterrupt(skill, link, next)
    ensures LinkOk(cfg, cfg.policy.value.RequiredToolNames(skill), skill, next.command.session, next)
  {
    NextLinkFindsIt(cfg, skill, link, next);
    NextLink(cfg, skill, link, next);
  }

  /** Each link of a chain leaves an interrupt of the chain's skill, or answers, and the
      next link finds that very interrupt. */
  lemma {:induction false} ChainLink(cfg: AgentConfig, chain: seq<Link>, n: nat)
    requires cfg.policy.Some? && IsChain(cfg, chain) && n < |chain| && Proceeds(chain[n])
    ensures LinkOk(cfg, DueTools(cfg, chain[0]), SkillOf(cfg, chain[0]), chain[0].command.session, chain[n])
    ensures chain[n].command.Invoke? || chain[n].command.Resume?
    ensures chain[n].command.session == chain[0].command.session
    ensures n > 0 ==> chain[n].command.Resume? && FindsTheInterrupt(SkillOf(cfg, chain[0]), chain[n - 1], chain[n])
  {
    assert LinksAt(cfg, chain, n);
    if n == 0 {
      FirstLink(cfg, chain[0]);
    } else {
      ChainLink(cfg, chain, n - 1);
      LinkAfterLink(cfg, SkillOf(cfg, chain[0]), chain[n - 1], chain[n]);
    }
  }

  /** A link that is not the last one raised an approval. */
  lemma ChainProceeds(cfg: AgentConfig, chain: seq<Link>, n: nat)
    requires IsChain(cfg, chain) && chain[|chain| - 1].output.Replied? && n < |chain|
    ensures Proceeds(chain[n]) && (n < |chain| - 1 ==> chain[n].output.AwaitingApproval?)
  {
    if n < |chain| - 1 { assert LinksAt(cfg, chain, n + 1); }
  }

  /** The link was suspended at a batch that calls a tool that is due. */
  predicate SuspendsDue(due: set<string>, link: Link) {
    link.output.AwaitingApproval? && HoldsMandatory(due, LastBatch(link.after.log))
  }

  lemma LinkCallsDueExactly(cfg: AgentConfig, chain: seq<Link>, n: nat)
    requires cfg.policy.Some? && IsChain(cfg, chain) && chain[|chain| - 1].output.Replied? && n < |chain|
    ensures LinkCallsDue(cfg, DueTools(cfg, chain[0]), chain[n]) <==> SuspendsDue(DueTools(cfg, chain[0]), chain[n])
  {
    ChainProceeds(cfg, chain, n);
    ChainLink(cfg, chain, n);
  }

  /** Link n calls a tool that is due, and the next link, if any, does not reject. */
  predicate CalledAndNotRejected(cfg: AgentConfig, chain: seq<Link>, n: nat)
    requires cfg.policy.Some? && n < |chain| && chain[0].command.Invoke?
  {
    LinkCallsDue(cfg, DueTools(cfg, chain[0]), chain[n]) && !RejectedAt(chain, n + 1)
  }

  /** Link n was suspended at such a call, and the next link does not reject. */
  predicate StoppedAndNotRejected(cfg: AgentConfig, chain: seq<Link>, n: nat)
    requires cfg.policy.Some? && n < |chain| && chain[0].command.Invoke?
  {
    SuspendsDue(DueTools(cfg, chain[0]), chain[n]) && !RejectedAt(chain, n + 1)
  }

  lemma CalledWhereStopped(cfg: AgentConfig, chain: seq<Link>, n: nat)
    requires cfg.policy.Some? && IsChain(cfg, chain) && chain[|chain| - 1].output.Replied? && n < |chain|
    ensures CalledAndNotRejected(cfg, chain, n) <==> n < |chain| - 1 && StoppedAndNotRejected(cfg, chain, n)
  {
    LinkCallsDueExactly(cfg, chain, n);
  }

  /** An answer comes after a call to a mandatory tool that was not rejected exactly when
      some suspension on the way stopped a batch with such a call, a checkpoint included,
      and its resumption did not reject it.  So the answer of a chain without such a
      suspension breaks the promise that those tools are called and approved first. */
  lemma AnswersFollowMandatoryCallsExactly(cfg: AgentConfig, chain: seq<Link>)
    requires cfg.policy.Some? && IsChain(cfg, chain) && chain[|chain| - 1].output.Replied?
    ensures (exists n: nat | n < |chain| :: CalledAndNotRejected(cfg, chain, n))
      <==> (exists n: nat | n < |chain| - 1 :: StoppedAndNotRejected(cfg, chain, n))
  {
    if n: nat :| n < |chain| && CalledAndNotRejected(cfg, chain, n) {
      CalledWhereStopped(cfg, chain, n);
    }
    if n: nat :| n < |chain| - 1 && StoppedAndNotRejected(cfg, chain, n) {
      CalledWhereStopped(cfg, chain, n);
    }
  }

  /** With mandatory tools, no answer comes without a suspension. */
  lemma AnsweredChainsWereSuspended(cfg: AgentConfig, chain: seq<Link>)
    requires cfg.policy.Some? && IsChain(cfg, chain) && chain[|chain| - 1].output.Replied?
    requires DueTools(cfg, chain[0]) != {}
    ensures |chain| > 1
  {
    assert LinksAt(cfg, chain, 0);
    if |chain| == 1 {
      var command := chain[0].command;
      InvocationsNeverSkipMandatoryTools(cfg, chain[0].before, command.user, command.session, command.request);
    }
  }

  // ---- a chain that breaks the promise, and one that keeps it ----

  function LinkFrom(cfg: AgentConfig, st: AgentState, command: Command): Link {
    match command
    case Invoke(user, sid, request) =>
      var (after, output) := InvokeStep(cfg, st, user, sid, request);
      Link(st, command, after, output)
    case Resume(user, sid, approval, decision) =>
      var (after, output) := ResumeStep(cfg, st, user, sid, approval, decision);
      Link(st, command, after, output)
    case _ => Link(st, command, st, Terminal)
  }

  lemma TwoLinks(cfg: AgentConfig, first: Link, second: Link)
    requires IsLink(cfg, first) && IsLink(cfg, second) && first.command.Invoke? && second.command.Resume?
    requires second.command.session == first.command.session && second.before == first.after
    requires first.output == AwaitingApproval(second.command.approval)
    ensures IsChain(cfg, [first, second])
  {
    assert After(cfg, first.after, []) == second.before;
    assert Follows(cfg, first, second);
  }

  /** A skill's mandatory tool can be left out: the model calls another tool that needs
      approval, the approver rejects it, and the resumed run answers. */
  lemma RunThatSkipsAMandatoryTool(cfg: AgentConfig, user: UserId, sid: SessionId, request: Request, call: ToolCall,
        reason: string)
    requires cfg.policy.Some? && cfg.policy.value.RequiredToolNames(request.routed) != {}
    requires cfg.maxIterations > 0 && cfg.world(0).reply.Received? && cfg.world(0).reply.passesGuardrail
    requires Calls(cfg.world(0).reply.content) == [call]
    requires call.name in cfg.policy.value.globalToolBlocklist && !IsCheckpointTool(call.name)
    requires cfg.world(1).reply.Received? && cfg.world(1).reply.passesGuardrail
    requires ActionOf(cfg.world(1).reply.content).Done? && RoutesWell(cfg, request)
    ensures var first := LinkFrom(cfg, Created(cfg, user, sid), Invoke(user, sid, request));
      var second := LinkFrom(cfg, first.after, Resume(user, sid, 0, Rejected(reason)));
      && IsChain(cfg, [first, second]) && second.output.Replied? && DueTools(cfg, first) != {}
      && (forall n: nat | n < 2 :: !CalledAndNotRejected(cfg, [first, second], n))
      && forall e | e in second.after.log :: NothingExecuted(e)
  {
    var first := LinkFrom(cfg, Created(cfg, user, sid), Invoke(user, sid, request));
    var second := LinkFrom(cfg, first.after, Resume(user, sid, 0, Rejected(reason)));
    assert FirstIntercepted(cfg.RunConfigFor(request.routed, false, request.activeTools), [call]) == Some(0);
    FirstInvocationStops(cfg, user, sid, request, [call], 0);
    DecidedThenAnswered(cfg, first.after, user, sid, 0, Rejected(reason));
    RejectedChain(cfg, first, second);
  }

  lemma RejectedChain(cfg: AgentConfig, first: Link, second: Link)
    requires cfg.policy.Some? && IsLink(cfg, first) && IsLink(cfg, second)
    requires first.command.Invoke? && second.command.Resume? && second.command.decision.Rejected?
    requires second.command.session == first.command.session && second.before == first.after
    requires first.output == AwaitingApproval(second.command.approval) && second.output.Replied?
    ensures IsChain(cfg, [first, second]) && forall n: nat | n < 2 :: !CalledAndNotRejected(cfg, [first, second], n)
  {
    TwoLinks(cfg, first, second);
    forall n: nat | n < 2 ensures !CalledAndNotRejected(cfg, [first, second], n) {
      CalledWhereStopped(cfg, [first, second], n);
    }
  }

  /** An approved checkpoint is enough, where it is mandatory: the answer keeps the promise
      although no tool has run. */
  lemma ApprovedCheckpointIsEnough(cfg: AgentConfig, user: UserId, sid: SessionId, request: Request, call: ToolCall)
    requires cfg.policy.Some? && CHECKPOINT_TOOL in cfg.policy.value.RequiredToolNames(request.routed)
    requires cfg.maxIterations > 0 && cfg.world(0).reply.Received? && cfg.world(0).reply.passesGuardrail
    requires Calls(cfg.world(0).reply.content) == [call] && IsCheckpointTool(call.name)
    requires cfg.world(1).reply.Received? && cfg.world(1).reply.passesGuardrail
    requires ActionOf(cfg.world(1).reply.content).Done? && RoutesWell(cfg, request)
    ensures var first := LinkFrom(cfg, Created(cfg, user, sid), Invoke(user, sid, request));
      var second := LinkFrom(cfg, first.after, Resume(user, sid, 0, Approved));
      && IsChain(cfg, [first, second]) && second.output.Replied?
      && CalledAndNotRejected(cfg, [first, second], 0)
      && forall e | e in second.after.log :: NothingExecuted(e)
  {
    var first := LinkFrom(cfg, Created(cfg, user, sid), Invoke(user, sid, request));
    var second := LinkFrom(cfg, first.after, Resume(user, sid, 0, Approved));
    InvocationStopsAtCheckpoint(cfg, user, sid, request, call);
    DecidedThenAnswered(cfg, first.after, user, sid, 0, Approved);
    assert [call][0].name in DueTools(cfg, first);
    ApprovedChain(cfg, first, second);
  }

  lemma ApprovedChain(cfg: AgentConfig, first: Link, second: Link)
    requires cfg.policy.Some? && IsLink(cfg, first) && IsLink(cfg, second)
    requires first.command.Invoke? && second.command.Resume? && second.command.decision.Approved?
    requires second.command.session == first.command.session && second.before == first.after
    requires first.output == AwaitingApproval(second.command.approval) && second.output.Replied?
    requires HoldsMandatory(DueTools(cfg, first), LastBatch(first.after.log))
    ensures IsChain(cfg, [first, second]) && CalledAndNotRejected(cfg, [first, second], 0)
  {
    TwoLinks(cfg, first, second);
    CalledWhereStopped(cfg, [first, second], 0);
  }

  lemma InvocationStopsAtCheckpoint(cfg: AgentConfig, user: UserId, sid: SessionId, request: Request, call: ToolCall)
    requires cfg.policy.Some? && cfg.maxIterations > 0 && RoutesWell(cfg, request)
    requires cfg.world(0).reply.Received? && cfg.world(0).reply.passesGuardrail
    requires Calls(cfg.world(0).reply.content) == [call] && IsCheckpointTool(call.name)
    ensures var (st, output) := InvokeStep(cfg, Created(cfg, user, sid), user, sid, request);
      && output == AwaitingApproval(0) && st.nextTurn == 1 && ResumableBy(st, user, sid, 0)
      && st.sessions[sid].interrupted.value.PendingCheckpoint? && LastBatch(st.log) == [call]
      && forall e | e in st.log :: NothingExecuted(e)
  {
    assert FirstIntercepted(cfg.RunConfigFor(request.routed, false, request.activeTools), [call]) == Some(0);
    InvocationStopsAtOnce(cfg, Created(cfg, user, sid), user, sid, request, [call], 0);
    var log := InvokeStep(cfg, Created(cfg, user, sid), user, sid, request).0.log;
    SentThenSuspended(log, log[0], log[1]);
  }

  lemma SentThenSuspended(log: seq<AgentEvent>, sent: AgentEvent, suspended: AgentEvent)
    requires log == [sent, suspended] && sent.Ran? && sent.event.Sent? && suspended.Suspended?
    ensures LastBatch(log) == suspended.calls && forall e | e in log :: NothingExecuted(e)
  {
  }

  // ---- what a chain executes ----

  /** The calls of a suspended batch that a decision lets run: none after a checkpoint. */
  function LetThrough(e: AgentEvent, decision: ApprovalDecision): seq<ToolCall> {
    if !e.Suspended? || AtCheckpoint(e) then [] else ToExecute(e.calls, decision)
  }

  /** The decision of a link lets a tool run that is due, of the batch that the link
      before it was suspended at. */
  predicate LetsDueThrough(due: set<string>, link: Link, next: Link) {
    && link.after.log != [] && next.command.Resume?
    && HoldsMandatory(due, LetThrough(link.after.log[|link.after.log| - 1], next.command.decision))
  }

  /** The link runs a tool that is due. */
  ghost predicate LinkRunsDue(due: set<string>, link: Link) {
    var before, after := link.before.log, link.after.log;
    before <= after && exists e | e in after[|before|..] :: RunsMandatory(due, e)
  }

  lemma InvocationRunsNoMandatory(cfg: AgentConfig, st: AgentState, user: UserId, sid: SessionId, request: Request)
    requires cfg.policy.Some? && Owned(st, user, sid)
    ensures var after := InvokeStep(cfg, st, user, sid, request).0;
      var due := cfg.policy.value.RequiredToolNames(SkillFor(cfg, st.sessions[sid], request));
      st.log <= after.log && forall e | e in after.log[|st.log|..] :: !RunsMandatory(due, e)
  {
    if !RoutedInVain(cfg, st, st.sessions[sid], request) {
      var r := InvokedResult(cfg, st, user, sid, request);
      var turn := FinishedTurn(r, InvokedInput(cfg, st, sid, request));
      RunAddsNoMandatory(BoundState(cfg, st, user, sid, request, turn), sid, InvokedRun(cfg, st, sid, request),
                         cfg.policy.value, SkillFor(cfg, st.sessions[sid], request), false, cfg.preamble,
                         InvokedMessages(cfg, st, user, sid, request), r, turn);
    }
  }

  lemma FirstLinkRunsNoDue(cfg: AgentConfig, link: Link)
    requires cfg.policy.Some? && IsLink(cfg, link) && link.command.Invoke? && Proceeds(link)
    ensures !LinkRunsDue(DueTools(cfg, link), link)
  {
    InvocationRunsNoMandatory(cfg, link.before, link.command.user, link.command.session, link.command.request);
  }

  lemma LetThroughIs(e: AgentEvent, sid: SessionId, state: InterruptedState, decision: ApprovalDecision)
    requires RaisedBy(e, sid, state) && Resumable(state) && !state.PendingPhaseGate?
    ensures LetThrough(e, decision) == ToExecute(PendingCalls(state), decision)
  {
  }

  lemma ResumedLinkRunsDueExactly(cfg: AgentConfig, skill: Option<string>, link: Link, next: Link)
    requires cfg.policy.Some? && IsLink(cfg, next) && next.command.Resume? && FindsTheInterrupt(skill, link, next)
    ensures var due := cfg.policy.value.RequiredToolNames(skill);
      LinkRunsDue(due, next) <==> LetsDueThrough(due, link, next)
  {
    var command := next.command;
    var state := next.before.sessions[command.session].interrupted.value;
    LetThroughIs(link.after.log[|link.after.log| - 1], command.session, state, command.decision);
    ResumedRunRunsMandatoryExactly(cfg, next.before, command.user, command.session, command.approval,
                                   command.decision);
  }

  ghost predicate RunsDueAt(cfg: AgentConfig, chain: seq<Link>, n: nat)
    requires cfg.policy.Some? && n < |chain| && chain[0].command.Invoke?
  {
    LinkRunsDue(DueTools(cfg, chain[0]), chain[n])
  }

  predicate LetsDueThroughAt(cfg: AgentConfig, chain: seq<Link>, n: nat)
    requires cfg.policy.Some? && 0 < n < |chain| && chain[0].command.Invoke?
  {
    LetsDueThrough(DueTools(cfg, chain[0]), chain[n - 1], chain[n])
  }

  lemma LinkRunsDueExactly(cfg: AgentConfig, chain: seq<Link>, n: nat)
    requires cfg.policy.Some? && IsChain(cfg, chain) && chain[|chain| - 1].output.Replied? && n < |chain|
    ensures RunsDueAt(cfg, chain, n) <==> n > 0 && LetsDueThroughAt(cfg, chain, n)
  {
    ChainProceeds(cfg, chain, n);
    assert LinksAt(cfg, chain, n);
    if n == 0 {
      FirstLinkRunsNoDue(cfg, chain[0]);
    } else {
      ChainLink(cfg, chain, n);
      ResumedLinkRunsDueExactly(cfg, SkillOf(cfg, chain[0]), chain[n - 1], chain[n]);
    }
  }

  /** Over a whole chain, a mandatory tool runs exactly when some decision on the way lets
      one through of the batch that it is about. */
  lemma ChainsRunMandatoryToolsExactly(cfg: AgentConfig, chain: seq<Link>)
    requires cfg.policy.Some? && IsChain(cfg, chain) && chain[|chain| - 1].output.Replied?
    ensures (exists n: nat | n < |chain| :: RunsDueAt(cfg, chain, n))
      <==> (exists n: nat | 0 < n < |chain| :: LetsDueThroughAt(cfg, chain, n))
  {
    if n: nat :| n < |chain| && RunsDueAt(cfg, chain, n) { LinkRunsDueExactly(cfg, chain, n); }
    if n: nat :| 0 < n < |chain| && LetsDueThroughAt(cfg, chain, n) { LinkRunsDueExactly(cfg, chain, n); }
  }
}
