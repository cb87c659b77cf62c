/** The agent itself: an object whose methods take the steps of `AgentSteps`. */
module AgentObject {
  import opened Text
  import opened Messages
  import opened Hitl
  import opened React
  import opened Routing
  import opened AgentSteps
  import opened Wrappers

  method RefusalTexts(pending: seq<ToolCall>, reason: string) returns (texts: seq<string>)
    ensures texts == Refusals(pending, reason)
  {
    texts := [];
    for i := 0 to |pending|
      invariant |texts| == i && forall k | 0 <= k < i :: texts[k] == Refusals(pending, reason)[k]
    {
      texts := texts + ["Tool: " + pending[i].name + "\nResult: Rejected by approver: " + reason];
    }
  }

  method ResultTexts(results: seq<ToolCallResult>) returns (texts: seq<string>)
    ensures texts == Reports(results)
  {
    texts := [];
    for i := 0 to |results|
      invariant |texts| == i && forall k | 0 <= k < i :: texts[k] == Reports(results)[k]
    {
      var v;
      match results[i].outcome {
        case Returned(value) => v := value;
        case Failed(error) => v := "Error: " + error;
      }
      texts := texts + ["Tool: " + results[i].name + "\nResult: " + v];
    }
  }

  class Agent {
    const cfg: AgentConfig
    var sessions: map<SessionId, Session>
    var cached: Cache
    var loaded: set<string>
    var nextApproval: ApprovalId
    var nextTurn: nat
    ghost var log: seq<AgentEvent>

    constructor (cfg: AgentConfig)
      ensures this.cfg == cfg && State() == NewAgent(cfg)
    {
      this.cfg := cfg;
      sessions, cached, loaded := map[], map[], if cfg.skills.Some? then cfg.skills.value else {};
      nextApproval, nextTurn, log := 0, 0, [];
    }

    ghost function State(): AgentState
      reads this
    {
      AgentState(sessions, cached, loaded, nextApproval, nextTurn, log)
    }

    method SetInterrupted(sid: SessionId, state: Option<InterruptedState>, status: Status)
      requires sid in sessions
      modifies this`sessions
      ensures sessions == old(sessions)[sid := old(sessions)[sid].(interrupted := state, status := status)]
    {
      sessions := sessions[sid := sessions[sid].(interrupted := state)];
      sessions := sessions[sid := sessions[sid].(status := status)];
    }

    method HandleToolInterrupt(sid: SessionId, interrupt: HitlInterrupt, skill: Option<string>)
      returns (output: AgentOutput)
      requires sid in sessions
      modifies this`sessions
      ensures var stored := Some(StoredInterrupt(interrupt, skill));
        sessions == old(sessions)[sid := old(sessions)[sid].(interrupted := stored, status := InterruptedSession)]
      ensures output == AwaitingApproval(interrupt.approval)
    {
      var state;
      if interrupt.checkpoint {
        state := PendingCheckpoint(interrupt.approval, Current(interrupt.history), interrupt.activeTools, skill);
      } else {
        state := PendingToolCall(interrupt.approval, Current(interrupt.history), Current(interrupt.pending),
                                 interrupt.activeTools, skill);
      }
      SetInterrupted(sid, Some(state), InterruptedSession);
      return AwaitingApproval(interrupt.approval);
    }

    /** Settles the outcome of a run; `reply` is what an answer adds to the transcript. */
    method Settle(run: RunConfig, sid: SessionId, skill: Option<string>, outcome: StrategyOutcome, events: seq<Event>,
          turns: nat, reply: seq<Message>) returns (output: AgentOutput)
      requires sid in sessions && (outcome.Interrupted? ==> turns > 0)
      modifies this`sessions, this`nextApproval, this`nextTurn, this`log
      ensures (State(), output)
        == AfterRun(old(State()), sid, run.hook, skill, RunResult(outcome, events, turns), reply)
    {
      nextTurn := nextTurn + turns;
      log := log + seq(|events|, i requires 0 <= i < |events| => Ran(sid, run.hook, events[i]));
      match outcome {
        case Failure(error) => return Refused(Llm(error));
        case Finished(answer) =>
          sessions := sessions[sid := sessions[sid].(transcript := sessions[sid].transcript + reply)];
          return Replied(answer);
        case Interrupted(interrupt) =>
          nextApproval := nextApproval + 1;
          log := log + [Suspended(sid, interrupt.approval, run.hook, nextTurn - 1, interrupt.history, interrupt.pending,
                                  interrupt.asked)];
          output := HandleToolInterrupt(sid, interrupt, skill);
      }
    }

    /** The history of an invocation: nothing in the first one of a phase, which also
        uses up the opening; otherwise the cached one, or on a miss the stored one. */
    method LookUp(user: UserId, sid: SessionId, request: Request) returns (history: seq<Message>, input: string)
      requires sid in sessions
      modifies this`sessions, this`cached
      ensures sessions == old(sessions)[sid := Opened(cfg, old(sessions)[sid])]
      ensures cached == CacheLookedUp(cfg, old(State()), user, sid, request.warm)
      ensures history == Recalled(cfg, old(State()), user, sid, request.warm)
      ensures input == InvokedInput(cfg, old(State()), sid, request)
    {
      var opening := if cfg.skills.Some? then sessions[sid].openingContext else None;
      if opening.Some? {
        cached := cached - {(user, sid)};
        sessions := sessions[sid := sessions[sid].(openingContext := None)];
        return [], opening.value + "\n\n" + request.input;
      }
      if !request.warm || (user, sid) !in cached {
        cached := cached[(user, sid) := sessions[sid].transcript];
      }
      return cached[(user, sid)], request.input;
    }

    /** A cached history that was swept away during the run starts anew with the turn. */
    method CacheTurn(user: UserId, sid: SessionId, swept: bool, turn: seq<Message>)
      modifies this`cached
      ensures cached == CacheExtended(old(cached), (user, sid), swept, turn)
    {
      if swept { cached := cached - {(user, sid)}; }
      if turn != [] {
        cached := cached[(user, sid) := (if (user, sid) in cached then cached[(user, sid)] else []) + turn];
      }
    }

    method Invoke(user: UserId, sid: SessionId, request: Request) returns (output: AgentOutput)
      modifies this
      ensures (State(), output) == InvokeStep(cfg, old(State()), user, sid, request)
    {
      if sid !in sessions || sessions[sid].owner != user { return Refused(NotFound); }
      ghost var before := State();
      var history, input := LookUp(user, sid, request);
      var skill := sessions[sid].skill;
      if skill.None? && cfg.skills.Some? && request.routed.Some? {
        if request.routed.value !in loaded { return Refused(UnknownSkill); }
        skill := request.routed;
      }
      output := RunInvocation(before, user, sid, request, skill, history, input);
    }

    /** The loop of one run: with a hook for approvals if there is a policy, plain otherwise. */
    method Configured(skill: Option<string>, resumed: bool, activeTools: seq<string>) returns (run: RunConfig)
      ensures run == cfg.RunConfigFor(skill, resumed, activeTools)
    {
      var hook := None;
      if cfg.policy.Some? { hook := Some(Hook(cfg.policy.value, skill, resumed)); }
      return RunConfig(hook, activeTools, cfg.maxIterations, cfg.nudge, cfg.world);
    }

    /** Binds the skill, runs the strategy, stores the turn of an answer and caches it. */
    method RunInvocation(ghost before: AgentState, user: UserId, sid: SessionId, request: Request,
          skill: Option<string>, history: seq<Message>, input: string) returns (output: AgentOutput)
      requires sid in before.sessions && State() == LookedUp(cfg, before, user, sid, request)
      requires skill == SkillFor(cfg, before.sessions[sid], request)
      requires history == Recalled(cfg, before, user, sid, request.warm)
      requires input == InvokedInput(cfg, before, sid, request)
      modifies this
      ensures (State(), output) == RunStep(cfg, before, user, sid, request)
    {
      sessions := sessions[sid := sessions[sid].(skill := skill)];
      var run := Configured(skill, false, request.activeTools);
      var messages := [];
      if request.system.Some? { messages := messages + [Message(System, [Text(request.system.value)])]; }
      messages := messages + history;
      messages := messages + [Message(User, [Text(input)])];
      assert messages == AssembledMessages(request, history, input);
      var outcome, events, turns := RunHitl(run, cfg.preamble, messages, nextTurn, nextApproval);
      output := Conclude(run, user, sid, skill, request.swept, input, outcome, events, turns);
    }

    /** Settles the run of an invocation; the turn of an answer is stored first, then cached. */
    method Conclude(run: RunConfig, user: UserId, sid: SessionId, skill: Option<string>, swept: bool, input: string,
          outcome: StrategyOutcome, events: seq<Event>, turns: nat) returns (output: AgentOutput)
      requires sid in sessions && (outcome.Interrupted? ==> turns > 0)
      modifies this
      ensures var r := RunResult(outcome, events, turns);
        var turn := FinishedTurn(r, input);
        var extended := old(State()).(cached := CacheExtended(old(cached), (user, sid), swept, turn));
        (State(), output) == AfterRun(extended, sid, run.hook, skill, r, turn)
    {
      var turn := [];
      if outcome.Finished? {
        turn := [Message(User, [Text(input)]), Message(Assistant, [Text(outcome.answer)])];
      }
      output := Settle(run, sid, skill, outcome, events, turns, turn);
      CacheTurn(user, sid, swept, turn);
    }

    method Resume(user: UserId, sid: SessionId, approval: ApprovalId, decision: ApprovalDecision)
      returns (output: AgentOutput)
      modifies this
      ensures (State(), output) == ResumeStep(cfg, old(State()), user, sid, approval, decision)
    {
      if sid !in sessions || sessions[sid].owner != user { return Refused(NotFound); }
      if sessions[sid].interrupted.None? { return Refused(NotFound); }
      var state := sessions[sid].interrupted.value;
      if state.approval != approval { return Refused(ApprovalMismatch); }
      if (state.PendingToolCall? && (state.history.Legacy? || state.pending.Legacy?))
         || (state.PendingCheckpoint? && state.history.Legacy?) {
        return Refused(IncompatiblePersistedInterrupt);
      }
      SetInterrupted(sid, None, ActiveSession);
      log := log + [Resumed(sid, approval, decision)];
      match state {
        case PendingPhaseGate(_, transition) =>
          if decision.Rejected? { return Replied("Phase transition rejected: " + decision.reason); }
          output := EnterPhase(sid, transition, "Phase transition to " + transition.nextSkill + " approved.");
        case _ =>
          output := ResumeToolCalls(sid, state, decision);
      }
    }

    /** What the model is told about a decision, and the calls that ran for it. */
    method Observe(pending: seq<ToolCall>, decision: ApprovalDecision)
      returns (observation: string, executed: seq<ToolCall>)
      ensures executed == ToExecute(pending, decision)
      ensures observation == Observation(pending, decision, cfg.world(nextTurn).results)
    {
      match decision {
        case Approved =>
          if pending == [] { return "Checkpoint approved. Continue.", []; }
          executed := pending;
        case Modified(newArgs) =>
          if pending == [] { return "No tool calls to modify.", []; }
          executed := [ToolCall(pending[0].id, pending[0].name, newArgs)];
        case Rejected(reason) =>
          if pending == [] { return "Checkpoint rejected: " + reason + ". Revise and resubmit.", []; }
          var refused := RefusalTexts(pending, reason);
          return Join(refused, "\n\n"), [];
      }
      var texts := ResultTexts(cfg.world(nextTurn).results);
      observation := Join(texts, "\n\n");
    }

    /** Runs the calls that a decision lets through, and says what the model is told. */
    method Decide(sid: SessionId, approval: ApprovalId, pending: seq<ToolCall>, decision: ApprovalDecision)
      returns (observation: string)
      modifies this`nextTurn, this`log
      ensures var calls := ToExecute(pending, decision);
        State() == if calls == [] then old(State())
                   else old(State()).(nextTurn := old(nextTurn) + 1,
                                      log := old(log) + [ExecutedApproved(sid, approval, calls)])
      ensures observation == Observation(pending, decision, cfg.world(old(nextTurn)).results)
    {
      var executed;
      observation, executed := Observe(pending, decision);
      if executed != [] {
        nextTurn := nextTurn + 1;
        log := log + [ExecutedApproved(sid, approval, executed)];
      }
    }

    method ResumeToolCalls(sid: SessionId, state: InterruptedState, decision: ApprovalDecision)
      returns (output: AgentOutput)
      requires sid in sessions && Resumable(state) && !state.PendingPhaseGate?
      modifies this
      ensures (State(), output) == ResumeToolCallOrCheckpoint(cfg, old(State()), sid, state, decision)
    {
      var pending := if state.PendingToolCall? then state.pending.value else [];
      ghost var before := State();
      var observation := Decide(sid, state.approval, pending, decision);
      ghost var executed := State();
      var augmented := state.history.value;
      augmented := augmented + [Message(User, [Text(observation)])];
      var run := Configured(state.skill, true, state.activeTools);
      assert ResumedRun(cfg, before, sid, state, decision) == (executed, run, augmented);
      var outcome, events, turns := RunHitl(run, cfg.preamble, augmented, nextTurn, nextApproval);
      output := Settle(run, sid, state.skill, outcome, events, turns, []);
    }

    method ReloadSkills(found: Option<set<string>>) returns (failure: Option<AgentFailure>)
      modifies this`loaded
      ensures (State(), failure) == ReloadStep(cfg, old(State()), found)
    {
      if cfg.skills.None? { return Some(NoSkillsConfigured); }
      if found.None? { return Some(SkillsUnreadable); }
      loaded := found.value;
      return None;
    }

    method AdvancePhase(user: UserId, sid: SessionId, text: string) returns (output: AgentOutput)
      modifies this
      ensures (State(), output) == AdvancePhaseStep(cfg, old(State()), user, sid, text)
    {
      if sid !in sessions || sessions[sid].owner != user { return Refused(NotFound); }
      var parsed := ParsePhaseTransition(text);
      if parsed.None? { return Terminal; }
      output := Transition(sid, parsed.value);
    }

    method Transition(sid: SessionId, transition: PhaseTransition) returns (output: AgentOutput)
      requires sid in sessions
      modifies this
      ensures (State(), output) == TransitionStep(cfg, old(State()), sid, transition)
    {
      var skill := sessions[sid].skill;
      if cfg.policy.Some? && skill.Some? && cfg.policy.value.RequiresPhaseGate(skill.value) {
        var approval := nextApproval;
        nextApproval := nextApproval + 1;
        log := log + [GateRaised(sid, approval)];
        SetInterrupted(sid, Some(PendingPhaseGate(approval, transition)), InterruptedSession);
        return AwaitingApproval(approval);
      }
      output := EnterPhase(sid, transition, transition.deliverable);
    }

    /** `apply_phase_transition`: skill and opening context in one statement. */
    method EnterPhase(sid: SessionId, transition: PhaseTransition, reply: string) returns (output: AgentOutput)
      requires sid in sessions
      modifies this`sessions
      ensures (State(), output) == ApplyTransition(cfg, old(State()), sid, transition, reply)
    {
      if cfg.skills.None? { return Refused(NoSkillsConfigured); }
      if transition.nextSkill !in loaded { return Refused(UnknownSkill); }
      var context := "Context from previous phase: " + transition.summary;
      var session := sessions[sid].(skill := Some(transition.nextSkill), openingContext := Some(context));
      sessions := sessions[sid := session];
      return Replied(reply);
    }
  }
}
