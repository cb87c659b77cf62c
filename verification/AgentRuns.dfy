/** Safety over every history of commands to an agent, over all its sessions. */
module AgentRuns {
  import opened Messages
  import opened Hitl
  import opened React
  import opened ReactTheorems
  import opened Routing
  import opened AgentSteps
  import opened Wrappers

  /** `Inherit` is a session that an older release left suspended, in a format that can
      no longer be read. */
  datatype Command =
    | Create(user: UserId, session: SessionId, skill: Option<string>)
    | Inherit(user: UserId, session: SessionId, checkpoint: bool)
    | Invoke(user: UserId, session: SessionId, request: Request)
    | Resume(user: UserId, session: SessionId, approval: ApprovalId, decision: ApprovalDecision)
    | AdvancePhase(user: UserId, session: SessionId, output: string)
    | Forget(session: SessionId, at: nat)      // a cleanup deletes a stored message
    | Reload(found: Option<set<string>>)
    | End(session: SessionId)
    | Delete(session: SessionId)

  function Step(cfg: AgentConfig, st: AgentState, command: Command): AgentState {
    match command
    case Create(user, sid, skill) =>
      if sid in st.sessions || (skill.Some? && skill.value !in st.loaded) then st
      else st.(sessions := st.sessions[sid := Session(user, ActiveSession, [], None, skill, None)])
    case Inherit(user, sid, checkpoint) =>
      if sid in st.sessions then st
      else
        var left := LeftSuspended(user, st.nextApproval, checkpoint);
        st.(sessions := st.sessions[sid := left], nextApproval := st.nextApproval + 1)
    case Invoke(user, sid, request) => InvokeStep(cfg, st, user, sid, request).0
    case Resume(user, sid, approval, decision) => ResumeStep(cfg, st, user, sid, approval, decision).0
    case AdvancePhase(user, sid, output) => AdvancePhaseStep(cfg, st, user, sid, output).0
    case Forget(sid, at) =>
      if sid !in st.sessions || at >= |st.sessions[sid].transcript| then st
      else
        var transcript := st.sessions[sid].transcript;
        st.(sessions := st.sessions[sid := st.sessions[sid].(transcript := transcript[..at] + transcript[at + 1..])])
    case Reload(found) => ReloadStep(cfg, st, found).0
    case End(sid) =>
      if sid !in st.sessions then st
      else st.(sessions := st.sessions[sid := st.sessions[sid].(status := CompletedSession)])
    case Delete(sid) => st.(sessions := st.sessions - {sid})
  }

  function LeftSuspended(user: UserId, approval: ApprovalId, checkpoint: bool): Session {
    var state := if checkpoint then PendingCheckpoint(approval, Legacy, [], None)
                 else PendingToolCall(approval, Legacy, Legacy, [], None);
    Session(user, InterruptedSession, [], Some(state), None, None)
  }

  function After(cfg: AgentConfig, st: AgentState, commands: seq<Command>): AgentState {
    if commands == [] then st
    else Step(cfg, After(cfg, st, commands[..|commands| - 1]), commands[|commands| - 1])
  }

  function History(cfg: AgentConfig, commands: seq<Command>): AgentState {
    After(cfg, NewAgent(cfg), commands)
  }

  // ---- what every event of a log satisfies ----

  /** The reply that an event's batch of calls came in, if it has one. */
  function TurnOf(e: AgentEvent): Option<nat> {
    match e
    case Ran(_, _, Executed(turn, _)) => Some(turn)
    case Suspended(_, _, _, turn, _, _, _) => Some(turn)
    case _ => None
  }

  /** The approval that an event raises, if it raises one. */
  function Raises(e: AgentEvent): Option<ApprovalId> {
    match e
    case Suspended(_, approval, _, _, _, _, _) => Some(approval)
    case GateRaised(_, approval) => Some(approval)
    case _ => None
  }

  predicate NeedsApproval(hook: Option<Hook>, calls: seq<ToolCall>) {
    hook.Some? && exists c | 0 <= c < |calls| :: hook.value.Intercepts(calls[c].name)
  }

  /** The approver is asked about the first call of the batch that needs approval. */
  predicate AsksAbout(hook: Option<Hook>, calls: seq<ToolCall>, asked: nat) {
    && hook.Some? && asked < |calls| && hook.value.Intercepts(calls[asked].name)
    && forall c | 0 <= c < asked :: !hook.value.Intercepts(calls[c].name)
  }

  /** The hook of a run carries the agent's policy, and is there whenever one is configured. */
  predicate HookOf(cfg: AgentConfig, hook: Option<Hook>) {
    cfg.policy == if hook.Some? then Some(hook.value.policy) else None
  }

  /** The hook of a run bound to this skill. */
  predicate HookFits(cfg: AgentConfig, hook: Option<Hook>, skill: Option<string>) {
    hook == cfg.HookFor(skill, false) || hook == cfg.HookFor(skill, true)
  }

  /** The approver was asked about a checkpoint: the batch it came in is dropped. */
  predicate AtCheckpoint(e: AgentEvent) {
    e.Suspended? && e.asked < |e.calls| && IsCheckpointTool(e.calls[e.asked].name)
  }

  predicate ResumesWith(e: AgentEvent, sid: SessionId, approval: ApprovalId) {
    e.Resumed? && e.session == sid && e.approval == approval
  }

  /** What event k owes to the events before it. */
  ghost predicate EventOk(cfg: AgentConfig, log: seq<AgentEvent>, k: nat)
    requires k < |log|
  {
    var e := log[k];
    && (TurnOf(e).Some? ==> forall j | 0 <= j < k && TurnOf(log[j]).Some? :: TurnOf(log[j]).value < TurnOf(e).value)
    && (Raises(e).Some? ==> forall j | 0 <= j < k && Raises(log[j]).Some? :: Raises(log[j]).value < Raises(e).value)
    && match e
       case Ran(_, hook, Sent(buffer)) => WellPaired(buffer)
       case Ran(_, hook, Executed(_, calls)) => HookOf(cfg, hook) && !NeedsApproval(hook, calls)
       case Suspended(_, _, hook, _, history, calls, asked) =>
         WellPaired(history) && HookOf(cfg, hook) && AsksAbout(hook, calls, asked)
       case GateRaised(_, _) => true
       case Resumed(sid, approval, _) =>
         && (forall j | 0 <= j < k :: log[j].Resumed? ==> log[j].approval != approval)
         && (exists j | 0 <= j < k :: Raises(log[j]) == Some(approval) && log[j].session == sid)
       case ExecutedApproved(sid, approval, calls) =>
         && k > 0 && ResumesWith(log[k - 1], sid, approval) && !log[k - 1].decision.Rejected?
         && exists j | 0 <= j < k - 1 ::
              log[j].Suspended? && log[j].session == sid && log[j].approval == approval && !AtCheckpoint(log[j])
              && calls == ToExecute(log[j].calls, log[k - 1].decision)
  }

  ghost predicate LogOk(cfg: AgentConfig, log: seq<AgentEvent>) {
    forall k | 0 <= k < |log| :: EventOk(cfg, log, k)
  }

  ghost predicate Bounded(st: AgentState) {
    && (forall j | 0 <= j < |st.log| && TurnOf(st.log[j]).Some? :: TurnOf(st.log[j]).value < st.nextTurn)
    && (forall j | 0 <= j < |st.log| && Raises(st.log[j]).Some? :: Raises(st.log[j]).value < st.nextApproval)
  }

  /** The event that raised a stored interrupt: same batch and history, and the gates of
      the skill that is stored with it. */
  predicate RaisedBy(e: AgentEvent, sid: SessionId, state: InterruptedState) {
    && e.session == sid && Raises(e) == Some(state.approval)
    && match state
       case PendingPhaseGate(_, _) => e.GateRaised?
       case PendingToolCall(_, history, pending, _, skill) =>
         e.Suspended? && !AtCheckpoint(e) && history == Current(e.history) && pending == Current(e.calls)
         && e.hook.Some? && e.hook.value.skill == skill
       case PendingCheckpoint(_, history, _, skill) =>
         e.Suspended? && AtCheckpoint(e) && history == Current(e.history)
         && e.hook.Some? && e.hook.value.skill == skill
  }

  /** A stored interrupt has not been resumed; and if it can be read, the log has the
      event that raised it. */
  ghost predicate InterruptOk(log: seq<AgentEvent>, sid: SessionId, state: InterruptedState) {
    && (forall j | 0 <= j < |log| :: log[j].Resumed? ==> log[j].approval != state.approval)
    && (Resumable(state) ==> RaisedFor(log, sid, state))
  }

  ghost predicate RaisedFor(log: seq<AgentEvent>, sid: SessionId, state: InterruptedState)
    requires Resumable(state)
  {
    && (!state.PendingPhaseGate? ==> WellPaired(state.history.value))
    && exists j | 0 <= j < |log| :: RaisedBy(log[j], sid, state)
  }

  ghost predicate SessionsOk(st: AgentState) {
    && (forall sid | sid in st.sessions :: AllText(st.sessions[sid].transcript))
    && (forall key | key in st.cached :: AllText(st.cached[key]))
    && (forall sid | sid in st.sessions && st.sessions[sid].interrupted.Some? ::
          && st.sessions[sid].interrupted.value.approval < st.nextApproval
          && InterruptOk(st.log, sid, st.sessions[sid].interrupted.value))
    && (forall s, t | s in st.sessions && t in st.sessions && s != t
                      && st.sessions[s].interrupted.Some? && st.sessions[t].interrupted.Some? ::
          st.sessions[s].interrupted.value.approval != st.sessions[t].interrupted.value.approval)
  }

  predicate AllText(transcript: seq<Message>) {
    forall i | 0 <= i < |transcript| :: transcript[i].role in {User, Assistant} && OnlyText(transcript[i].content)
  }

  ghost predicate Safe(cfg: AgentConfig, st: AgentState) {
    LogOk(cfg, st.log) && Bounded(st) && SessionsOk(st)
  }

  // ---- growing the log ----

  lemma EventOkStays(cfg: AgentConfig, log: seq<AgentEvent>, more: seq<AgentEvent>, k: nat)
    requires k < |log|
    ensures EventOk(cfg, log + more, k) <==> EventOk(cfg, log, k)
  {
    var all := log + more;
    assert forall j | 0 <= j <= k :: all[j] == log[j];
  }

  lemma LogGrows(cfg: AgentConfig, log: seq<AgentEvent>, more: seq<AgentEvent>)
    requires LogOk(cfg, log)
    requires forall k | |log| <= k < |log| + |more| :: EventOk(cfg, log + more, k)
    ensures LogOk(cfg, log + more)
  {
    forall k | 0 <= k < |log + more| ensures EventOk(cfg, log + more, k) {
      if k < |log| { EventOkStays(cfg, log, more, k); }
    }
  }

  lemma InterruptStays(log: seq<AgentEvent>, more: seq<AgentEvent>, sid: SessionId, state: InterruptedState)
    requires InterruptOk(log, sid, state)
    requires forall j | 0 <= j < |more| :: more[j].Resumed? ==> more[j].approval != state.approval
    ensures InterruptOk(log + more, sid, state)
  {
    var all := log + more;
    forall i | 0 <= i < |all| && all[i].Resumed? ensures all[i].approval != state.approval {
      if i < |log| { assert all[i] == log[i]; } else { assert all[i] == more[i - |log|]; }
    }
    if Resumable(state) {
      var j :| 0 <= j < |log| && RaisedBy(log[j], sid, state);
      assert all[j] == log[j];
    }
  }

  ghost predicate NoResume(events: seq<AgentEvent>) {
    forall j | 0 <= j < |events| :: !events[j].Resumed?
  }

  lemma SessionsStay(st: AgentState, more: seq<AgentEvent>)
    requires SessionsOk(st) && NoResume(more)
    ensures SessionsOk(st.(log := st.log + more))
  {
    forall sid | sid in st.sessions && st.sessions[sid].interrupted.Some?
      ensures InterruptOk(st.log + more, sid, st.sessions[sid].interrupted.value)
    {
      InterruptStays(st.log, more, sid, st.sessions[sid].interrupted.value);
    }
  }

  // ---- one run inside a history ----

  lemma RunEventOk(cfg: AgentConfig, run: RunConfig, log: seq<AgentEvent>, sid: SessionId, events: seq<Event>,
        first: nat, last: nat, k: nat)
    requires HookOf(cfg, run.hook)
    requires PairedEvents(events) && FreeBatches(run, events, first, last)
    requires forall j | 0 <= j < |log| && TurnOf(log[j]).Some? :: TurnOf(log[j]).value < first
    requires |log| <= k < |log| + |events|
    ensures EventOk(cfg, log + Tagged(sid, run.hook, events), k)
  {
    var all := log + Tagged(sid, run.hook, events);
    var e := events[k - |log|];
    assert all[k] == Ran(sid, run.hook, e);
    if e.Executed? {
      forall j | 0 <= j < k && TurnOf(all[j]).Some? ensures TurnOf(all[j]).value < e.turn {
        if j < |log| { assert all[j] == log[j]; } else { assert all[j] == Ran(sid, run.hook, events[j - |log|]); }
      }
    }
  }

  lemma RunSafe(cfg: AgentConfig, run: RunConfig, st: AgentState, sid: SessionId, events: seq<Event>, turns: nat,
        last: nat)
    requires Safe(cfg, st) && HookOf(cfg, run.hook)
    requires PairedEvents(events) && FreeBatches(run, events, st.nextTurn, last) && last <= st.nextTurn + turns
    ensures var after := st.(nextTurn := st.nextTurn + turns, log := st.log + Tagged(sid, run.hook, events));
      && Safe(cfg, after)
      && forall j | 0 <= j < |after.log| && TurnOf(after.log[j]).Some? ::
        TurnOf(after.log[j]).value < Max(st.nextTurn, last)
  {
    var more := Tagged(sid, run.hook, events);
    var all := st.log + more;
    forall k | |st.log| <= k < |st.log| + |more| ensures EventOk(cfg, all, k) {
      RunEventOk(cfg, run, st.log, sid, events, st.nextTurn, last, k);
    }
    LogGrows(cfg, st.log, more);
    SessionsStay(st, more);
    forall j | 0 <= j < |all|
      ensures TurnOf(all[j]).Some?
        ==> TurnOf(all[j]).value < Max(st.nextTurn, last) && TurnOf(all[j]).value < st.nextTurn + turns
      ensures Raises(all[j]).Some? ==> Raises(all[j]).value < st.nextApproval
    {
      if j < |st.log| {
        assert all[j] == st.log[j];
      } else {
        assert all[j] == Ran(sid, run.hook, events[j - |st.log|]);
      }
    }
  }

  lemma AfterResultSafe(cfg: AgentConfig, run: RunConfig, st: AgentState, sid: SessionId, skill: Option<string>,
        r: RunResult, reply: seq<Message>)
    requires Safe(cfg, st) && sid in st.sessions && HookFits(cfg, run.hook, skill)
    requires r.outcome.Interrupted? ==> r.turns > 0 && WellPaired(r.outcome.interrupt.history)
    requires PairedEvents(r.events) && BatchesOfRun(run, r, st.nextTurn, st.nextApproval) && AllText(reply)
    ensures Safe(cfg, AfterRun(st, sid, run.hook, skill, r, reply).0)
  {
    var last := if r.outcome.Interrupted? then st.nextTurn + r.turns - 1 else st.nextTurn + r.turns;
    RunSafe(cfg, run, st, sid, r.events, r.turns, last);
    var ran := st.(nextTurn := st.nextTurn + r.turns, log := st.log + Tagged(sid, run.hook, r.events));
    OutcomeSafe(cfg, run, ran, sid, skill, r.outcome, reply, last, AfterRun(st, sid, run.hook, skill, r, reply).0);
  }

  /** What the outcome of a run does to the state that its events led to. */
  function Settled(run: RunConfig, ran: AgentState, sid: SessionId, skill: Option<string>, outcome: StrategyOutcome,
        reply: seq<Message>, turn: nat): AgentState
    requires sid in ran.sessions
  {
    var session := ran.sessions[sid];
    match outcome
    case Failure(_) => ran
    case Finished(_) =>
      ran.(sessions := ran.sessions[sid := session.(transcript := session.transcript + reply)])
    case Interrupted(interrupt) =>
      var stored := session.(interrupted := Some(StoredInterrupt(interrupt, skill)), status := InterruptedSession);
      var e := Suspended(sid, interrupt.approval, run.hook, turn, interrupt.history, interrupt.pending,
                         interrupt.asked);
      ran.(sessions := ran.sessions[sid := stored], nextApproval := ran.nextApproval + 1, log := ran.log + [e])
  }

  lemma OutcomeSafe(cfg: AgentConfig, run: RunConfig, ran: AgentState, sid: SessionId, skill: Option<string>,
        outcome: StrategyOutcome, reply: seq<Message>, last: nat, after: AgentState)
    requires Safe(cfg, ran) && sid in ran.sessions && HookFits(cfg, run.hook, skill) && AllText(reply)
    requires after == Settled(run, ran, sid, skill, outcome, reply, last)
    requires outcome.Interrupted? ==>
      && StoppedBatch(run, outcome.interrupt, ran.nextApproval, last) && WellPaired(outcome.interrupt.history)
      && last < ran.nextTurn
      && forall j | 0 <= j < |ran.log| && TurnOf(ran.log[j]).Some? :: TurnOf(ran.log[j]).value < last
    ensures Safe(cfg, after)
  {
    match outcome
    case Failure(_) =>
    case Finished(_) => TranscriptSafe(cfg, ran, sid, reply);
    case Interrupted(interrupt) => SuspendSafe(cfg, run, ran, sid, skill, interrupt, last);
  }

  /** A history goes on safely through a run, whether it answers, fails or is suspended. */
  lemma AfterRunSafe(cfg: AgentConfig, run: RunConfig, st: AgentState, sid: SessionId, skill: Option<string>,
        messages: seq<Message>, reply: seq<Message>)
    requires Safe(cfg, st) && sid in st.sessions && CleanReplies(cfg.world) && run.world == cfg.world
    requires HookFits(cfg, run.hook, skill) && WellPaired(messages) && AllText(reply)
    ensures var r := RunFrom(run, cfg.preamble, messages, st.nextTurn, st.nextApproval);
      Safe(cfg, AfterRun(st, sid, run.hook, skill, r, reply).0)
  {
    RunFromKeepsPairing(run, cfg.preamble, messages, st.nextTurn, st.nextApproval);
    RunFromExecutesOnlyFreeBatches(run, cfg.preamble, messages, st.nextTurn, st.nextApproval);
    var r := RunFrom(run, cfg.preamble, messages, st.nextTurn, st.nextApproval);
    AfterResultSafe(cfg, run, st, sid, skill, r, reply);
  }

  lemma TranscriptSafe(cfg: AgentConfig, st: AgentState, sid: SessionId, reply: seq<Message>)
    requires Safe(cfg, st) && sid in st.sessions && AllText(reply)
    ensures var session := st.sessions[sid];
      Safe(cfg, st.(sessions := st.sessions[sid := session.(transcript := session.transcript + reply)]))
  {
  }

  lemma SuspendSafe(cfg: AgentConfig, run: RunConfig, st: AgentState, sid: SessionId, skill: Option<string>,
        interrupt: HitlInterrupt, turn: nat)
    requires Safe(cfg, st) && sid in st.sessions && HookFits(cfg, run.hook, skill)
    requires StoppedBatch(run, interrupt, st.nextApproval, turn) && WellPaired(interrupt.history)
    requires turn < st.nextTurn
    requires forall j | 0 <= j < |st.log| && TurnOf(st.log[j]).Some? :: TurnOf(st.log[j]).value < turn
    ensures var state := Some(StoredInterrupt(interrupt, skill));
      var stored := st.sessions[sid].(interrupted := state, status := InterruptedSession);
      var e := Suspended(sid, interrupt.approval, run.hook, turn, interrupt.history, interrupt.pending,
                         interrupt.asked);
      Safe(cfg, st.(sessions := st.sessions[sid := stored], nextApproval := st.nextApproval + 1, log := st.log + [e]))
  {
    var e := Suspended(sid, interrupt.approval, run.hook, turn, interrupt.history, interrupt.pending, interrupt.asked);
    var all := st.log + [e];
    assert all[|st.log|] == e && forall j | 0 <= j < |st.log| :: all[j] == st.log[j];
    assert AsksAbout(run.hook, interrupt.pending, interrupt.asked);
    assert EventOk(cfg, all, |st.log|);
    LogGrows(cfg, st.log, [e]);
    SessionsStay(st, [e]);
    ResumesRaised(cfg, st.log);
    RaisedIsFresh(st, sid, StoredInterrupt(interrupt, skill), e);
  }

  /** A newly raised approval differs from every stored one and was never resumed. */
  lemma RaisedIsFresh(st: AgentState, sid: SessionId, state: InterruptedState, e: AgentEvent)
    requires Bounded(st) && SessionsOk(st) && sid in st.sessions
    requires RaisedBy(e, sid, state) && state.approval == st.nextApproval
    requires Resumable(state) && (!state.PendingPhaseGate? ==> WellPaired(state.history.value))
    requires ResumesAreRaised(st.log)
    ensures InterruptOk(st.log + [e], sid, state)
    ensures forall t | t in st.sessions && st.sessions[t].interrupted.Some? ::
      st.sessions[t].interrupted.value.approval != state.approval
  {
    var all := st.log + [e];
    assert all[|st.log|] == e;
    forall j | 0 <= j < |all| && all[j].Resumed? ensures all[j].approval != state.approval {
      assert all[j] == st.log[j];
      var i :| 0 <= i < j && Raises(st.log[i]) == Some(st.log[j].approval);
    }
  }

  ghost predicate ResumesAreRaised(log: seq<AgentEvent>) {
    forall j | 0 <= j < |log| && log[j].Resumed? :: exists i | 0 <= i < j :: Raises(log[i]) == Some(log[j].approval)
  }

  // ---- each command ----

  lemma TextBufferWellPaired(transcript: seq<Message>)
    requires AllText(transcript)
    ensures WellPaired(transcript)
  {
    forall i | 0 <= i < |transcript| ensures !IsToolTurn(transcript[i]) { TextHasNoCalls(transcript[i].content); }
  }

  lemma AssembledWellPaired(request: Request, history: seq<Message>, input: string)
    requires AllText(history)
    ensures WellPaired(AssembledMessages(request, history, input))
  {
    var system := if request.system.Some? then [TextMessage(System, request.system.value)] else [];
    if request.system.Some? { TextMessageWellPaired(System, request.system.value); }
    TextBufferWellPaired(history);
    TextMessageWellPaired(User, input);
    WellPairedAppend(system, history);
    WellPairedAppend(system + history, [TextMessage(User, input)]);
  }

  lemma CacheSafe(cfg: AgentConfig, st: AgentState, user: UserId, sid: SessionId, warm: bool, swept: bool,
        turn: seq<Message>)
    requires SessionsOk(st) && sid in st.sessions && AllText(turn)
    ensures AllText(Recalled(cfg, st, user, sid, warm))
    ensures var looked := CacheLookedUp(cfg, st, user, sid, warm);
      && (forall key | key in looked :: AllText(looked[key]))
      && var extended := CacheExtended(looked, (user, sid), swept, turn);
         forall key | key in extended :: AllText(extended[key])
  {
  }

  /** A session may be opened and bound to a skill, and the cache filled with text. */
  lemma TakenUpSafe(cfg: AgentConfig, st: AgentState, sid: SessionId, taken: Session, cached: Cache)
    requires Safe(cfg, st) && sid in st.sessions
    requires taken.transcript == st.sessions[sid].transcript && taken.interrupted == st.sessions[sid].interrupted
    requires forall key | key in cached :: AllText(cached[key])
    ensures Safe(cfg, st.(sessions := st.sessions[sid := taken], cached := cached))
  {
  }

  lemma FinishedTurnIsText(r: RunResult, input: string)
    ensures AllText(FinishedTurn(r, input))
  {
  }

  lemma InvokeSafe(cfg: AgentConfig, st: AgentState, user: UserId, sid: SessionId, request: Request)
    requires Safe(cfg, st) && CleanReplies(cfg.world)
    ensures Safe(cfg, InvokeStep(cfg, st, user, sid, request).0)
  {
    if Owned(st, user, sid) {
      if RoutedInVain(cfg, st, st.sessions[sid], request) {
        CacheSafe(cfg, st, user, sid, request.warm, request.swept, []);
        TakenUpSafe(cfg, st, sid, Opened(cfg, st.sessions[sid]), CacheLookedUp(cfg, st, user, sid, request.warm));
      } else {
        RunStepSafe(cfg, st, user, sid, request);
      }
    }
  }

  lemma BoundStateSafe(cfg: AgentConfig, st: AgentState, user: UserId, sid: SessionId, request: Request,
        turn: seq<Message>)
    requires Safe(cfg, st) && sid in st.sessions && AllText(turn)
    ensures Safe(cfg, BoundState(cfg, st, user, sid, request, turn))
  {
    CacheSafe(cfg, st, user, sid, request.warm, request.swept, turn);
    var taken := Opened(cfg, st.sessions[sid]).(skill := SkillFor(cfg, st.sessions[sid], request));
    var looked := CacheLookedUp(cfg, st, user, sid, request.warm);
    TakenUpSafe(cfg, st, sid, taken, CacheExtended(looked, (user, sid), request.swept, turn));
    assert BoundState(cfg, st, user, sid, request, turn).sessions == st.sessions[sid := taken];
  }

  lemma RunStepSafe(cfg: AgentConfig, st: AgentState, user: UserId, sid: SessionId, request: Request)
    requires Safe(cfg, st) && CleanReplies(cfg.world) && sid in st.sessions
    ensures Safe(cfg, RunStep(cfg, st, user, sid, request).0)
  {
    var input := InvokedInput(cfg, st, sid, request);
    var r := InvokedResult(cfg, st, user, sid, request);
    var turn := FinishedTurn(r, input);
    FinishedTurnIsText(r, input);
    BoundStateSafe(cfg, st, user, sid, request, turn);
    CacheSafe(cfg, st, user, sid, request.warm, request.swept, turn);
    AssembledWellPaired(request, Recalled(cfg, st, user, sid, request.warm), input);
    AfterRunSafe(cfg, InvokedRun(cfg, st, sid, request), BoundState(cfg, st, user, sid, request, turn), sid,
                 SkillFor(cfg, st.sessions[sid], request), InvokedMessages(cfg, st, user, sid, request), turn);
  }

  lemma ResumedSafe(cfg: AgentConfig, st: AgentState, sid: SessionId, decision: ApprovalDecision)
    requires Safe(cfg, st) && sid in st.sessions && st.sessions[sid].interrupted.Some?
    requires Resumable(st.sessions[sid].interrupted.value)
    ensures var state := st.sessions[sid].interrupted.value;
      var cleared := st.sessions[sid].(interrupted := None, status := ActiveSession);
      Safe(cfg, st.(sessions := st.sessions[sid := cleared], log := st.log + [Resumed(sid, state.approval, decision)]))
  {
    var state := st.sessions[sid].interrupted.value;
    var e := Resumed(sid, state.approval, decision);
    var all := st.log + [e];
    assert all[|st.log|] == e && forall j | 0 <= j < |st.log| :: all[j] == st.log[j];
    assert InterruptOk(st.log, sid, state);
    assert EventOk(cfg, all, |st.log|);
    LogGrows(cfg, st.log, [e]);
    forall t | t in st.sessions && t != sid && st.sessions[t].interrupted.Some?
      ensures InterruptOk(all, t, st.sessions[t].interrupted.value)
    {
      InterruptStays(st.log, [e], t, st.sessions[t].interrupted.value);
    }
  }

  lemma ExecutedSafe(cfg: AgentConfig, before: AgentState, st: AgentState, sid: SessionId, state: InterruptedState,
        decision: ApprovalDecision)
    requires Safe(cfg, st) && InterruptOk(before.log, sid, state) && Resumable(state)
    requires st.log == before.log + [Resumed(sid, state.approval, decision)]
    requires ToExecute(PendingCalls(state), decision) != []
    ensures var e := ExecutedApproved(sid, state.approval, ToExecute(PendingCalls(state), decision));
      Safe(cfg, st.(nextTurn := st.nextTurn + 1, log := st.log + [e]))
  {
    var e := ExecutedApproved(sid, state.approval, ToExecute(PendingCalls(state), decision));
    var all := st.log + [e];
    var n := |before.log|;
    assert all[n + 1] == e && all[n] == Resumed(sid, state.approval, decision);
    assert forall j | 0 <= j < n :: all[j] == before.log[j];
    assert EventOk(cfg, all, n + 1);
    LogGrows(cfg, st.log, [e]);
    SessionsStay(st, [e]);
  }

  lemma ResumeSafe(cfg: AgentConfig, st: AgentState, user: UserId, sid: SessionId, approval: ApprovalId,
        decision: ApprovalDecision)
    requires Safe(cfg, st) && CleanReplies(cfg.world)
    ensures Safe(cfg, ResumeStep(cfg, st, user, sid, approval, decision).0)
  {
    if Owned(st, user, sid) && st.sessions[sid].interrupted.Some?
       && st.sessions[sid].interrupted.value.approval == approval && Resumable(st.sessions[sid].interrupted.value)
    {
      var state := st.sessions[sid].interrupted.value;
      var cleared := st.sessions[sid].(interrupted := None, status := ActiveSession);
      var resumed := st.(sessions := st.sessions[sid := cleared], log := st.log + [Resumed(sid, approval, decision)]);
      assert InterruptOk(st.log, sid, state);
      ResumedSafe(cfg, st, sid, decision);
      if state.PendingPhaseGate? {
        ApplySafe(cfg, resumed, sid, state.transition, "");
      } else {
        ResumeCallsSafe(cfg, st, resumed, sid, state, decision);
      }
    }
  }

  lemma ObservationWellPaired(history: seq<Message>, text: string)
    requires WellPaired(history)
    ensures WellPaired(history + [TextMessage(User, text)])
  {
    TextMessageWellPaired(User, text);
    WellPairedAppend(history, [TextMessage(User, text)]);
  }

  lemma ResumedRunSafe(cfg: AgentConfig, before: AgentState, st: AgentState, sid: SessionId, state: InterruptedState,
        decision: ApprovalDecision)
    requires Safe(cfg, st) && InterruptOk(before.log, sid, state) && Resumable(state) && !state.PendingPhaseGate?
    requires st.log == before.log + [Resumed(sid, state.approval, decision)]
    ensures var (executed, run, messages) := ResumedRun(cfg, st, sid, state, decision);
      && Safe(cfg, executed) && executed.sessions == st.sessions && WellPaired(messages)
      && run == cfg.RunConfigFor(state.skill, true, state.activeTools)
  {
    if ToExecute(PendingCalls(state), decision) != [] { ExecutedSafe(cfg, before, st, sid, state, decision); }
    ObservationWellPaired(state.history.value,
                          Observation(PendingCalls(state), decision, cfg.world(st.nextTurn).results));
  }

  lemma ResumeCallsSafe(cfg: AgentConfig, before: AgentState, st: AgentState, sid: SessionId,
        state: InterruptedState, decision: ApprovalDecision)
    requires Safe(cfg, st) && sid in st.sessions && CleanReplies(cfg.world)
    requires InterruptOk(before.log, sid, state) && Resumable(state) && !state.PendingPhaseGate?
    requires st.log == before.log + [Resumed(sid, state.approval, decision)]
    ensures Safe(cfg, ResumeToolCallOrCheckpoint(cfg, st, sid, state, decision).0)
  {
    ResumedRunSafe(cfg, before, st, sid, state, decision);
    var (executed, run, messages) := ResumedRun(cfg, st, sid, state, decision);
    AfterRunSafe(cfg, run, executed, sid, state.skill, messages, []);
  }

  lemma AdvancePhaseSafe(cfg: AgentConfig, st: AgentState, user: UserId, sid: SessionId, output: string)
    requires Safe(cfg, st)
    ensures Safe(cfg, AdvancePhaseStep(cfg, st, user, sid, output).0)
  {
    if Owned(st, user, sid) {
      match ParsedTransition(output)
      case None =>
      case Some(transition) => TransitionSafe(cfg, st, sid, transition);
    }
  }

  lemma ApplySafe(cfg: AgentConfig, st: AgentState, sid: SessionId, transition: PhaseTransition, reply: string)
    requires Safe(cfg, st) && sid in st.sessions
    ensures Safe(cfg, ApplyTransition(cfg, st, sid, transition, reply).0)
  {
  }

  lemma TransitionSafe(cfg: AgentConfig, st: AgentState, sid: SessionId, transition: PhaseTransition)
    requires Safe(cfg, st) && sid in st.sessions
    ensures Safe(cfg, TransitionStep(cfg, st, sid, transition).0)
  {
    var session := st.sessions[sid];
    if !PhaseIsGated(cfg, session) {
      ApplySafe(cfg, st, sid, transition, transition.deliverable);
    } else {
      var state, e := PendingPhaseGate(st.nextApproval, transition), GateRaised(sid, st.nextApproval);
      var all := st.log + [e];
      assert all[|st.log|] == e && forall j | 0 <= j < |st.log| :: all[j] == st.log[j];
      assert EventOk(cfg, all, |st.log|);
      LogGrows(cfg, st.log, [e]);
      SessionsStay(st, [e]);
      ResumesRaised(cfg, st.log);
      RaisedIsFresh(st, sid, state, e);
    }
  }

  lemma ResumesRaised(cfg: AgentConfig, log: seq<AgentEvent>)
    requires LogOk(cfg, log)
    ensures ResumesAreRaised(log)
  {
    forall j | 0 <= j < |log| && log[j].Resumed?
      ensures exists i | 0 <= i < j :: Raises(log[i]) == Some(log[j].approval)
    {
      assert EventOk(cfg, log, j);
    }
  }

  lemma InheritSafe(cfg: AgentConfig, st: AgentState, user: UserId, sid: SessionId, checkpoint: bool)
    requires Safe(cfg, st)
    ensures Safe(cfg, Step(cfg, st, Inherit(user, sid, checkpoint)))
  {
    ResumesRaised(cfg, st.log);
    forall j | 0 <= j < |st.log| && st.log[j].Resumed? ensures st.log[j].approval != st.nextApproval {
      var i :| 0 <= i < j && Raises(st.log[i]) == Some(st.log[j].approval);
    }
  }

  lemma CreateSafe(cfg: AgentConfig, st: AgentState, user: UserId, sid: SessionId, skill: Option<string>)
    requires Safe(cfg, st)
    ensures Safe(cfg, Step(cfg, st, Create(user, sid, skill)))
  {
  }

  lemma ForgetSafe(cfg: AgentConfig, st: AgentState, sid: SessionId, at: nat)
    requires Safe(cfg, st)
    ensures Safe(cfg, Step(cfg, st, Forget(sid, at)))
  {
  }

  lemma EndSafe(cfg: AgentConfig, st: AgentState, sid: SessionId)
    requires Safe(cfg, st)
    ensures Safe(cfg, Step(cfg, st, End(sid))) && Safe(cfg, Step(cfg, st, Delete(sid)))
  {
  }

  lemma StepSafe(cfg: AgentConfig, st: AgentState, command: Command)
    requires Safe(cfg, st) && CleanReplies(cfg.world)
    ensures Safe(cfg, Step(cfg, st, command))
  {
    match command
    case Create(user, sid, skill) => CreateSafe(cfg, st, user, sid, skill);
    case Inherit(user, sid, checkpoint) => InheritSafe(cfg, st, user, sid, checkpoint);
    case Invoke(user, sid, request) => InvokeSafe(cfg, st, user, sid, request);
    case Resume(user, sid, approval, decision) => ResumeSafe(cfg, st, user, sid, approval, decision);
    case AdvancePhase(user, sid, output) => AdvancePhaseSafe(cfg, st, user, sid, output);
    case Forget(sid, at) => ForgetSafe(cfg, st, sid, at);
    case Reload(_) =>
    case End(sid) => EndSafe(cfg, st, sid);
    case Delete(sid) => EndSafe(cfg, st, sid);
  }

  lemma {:induction false} HistorySafe(cfg: AgentConfig, commands: seq<Command>)
    requires CleanReplies(cfg.world)
    ensures Safe(cfg, History(cfg, commands))
  {
    if commands != [] {
      HistorySafe(cfg, commands[..|commands| - 1]);
      StepSafe(cfg, History(cfg, commands[..|commands| - 1]), commands[|commands| - 1]);
    }
  }

  /** Some history of commands leads to the state. */
  ghost predicate Reachable(cfg: AgentConfig, st: AgentState) {
    exists commands :: History(cfg, commands) == st
  }

  lemma ReachableSafe(cfg: AgentConfig, st: AgentState)
    requires CleanReplies(cfg.world) && Reachable(cfg, st)
    ensures Safe(cfg, st)
  {
    var commands :| History(cfg, commands) == st;
    HistorySafe(cfg, commands);
  }

  // ---- the guarantees, over every history ----

  /** Every buffer that reaches the model, and every snapshot that is persisted, is well paired. */
  lemma EveryBufferIsWellPaired(cfg: AgentConfig, st: AgentState)
    requires CleanReplies(cfg.world) && Reachable(cfg, st)
    ensures
      && (forall k | 0 <= k < |st.log| && st.log[k].Ran? && st.log[k].event.Sent? :: WellPaired(st.log[k].event.buffer))
      && (forall sid | sid in st.sessions && st.sessions[sid].interrupted.Some? ::
            var state := st.sessions[sid].interrupted.value;
            Resumable(state) && !state.PendingPhaseGate? ==> WellPaired(state.history.value))
  {
    ReachableSafe(cfg, st);
    forall k | 0 <= k < |st.log| && st.log[k].Ran? && st.log[k].event.Sent? ensures WellPaired(st.log[k].event.buffer) {
      assert EventOk(cfg, st.log, k);
    }
  }

  /** A batch that holds a call needing approval runs only once a human approved or
      changed it, and then exactly the calls that the decision lets through. */
  lemma GatedCallsRunOnlyWhenApproved(cfg: AgentConfig, st: AgentState, k: nat)
    requires CleanReplies(cfg.world) && Reachable(cfg, st) && k < |st.log|
    ensures var log := st.log;
      && (log[k].Ran? && log[k].event.Executed? ==>
            HookOf(cfg, log[k].hook) && !NeedsApproval(log[k].hook, log[k].event.calls))
      && (log[k].ExecutedApproved? ==>
            exists i, j | 0 <= i < j < k ::
              && log[i].Suspended? && log[i].session == log[k].session && log[i].approval == log[k].approval
              && !AtCheckpoint(log[i])
              && ResumesWith(log[j], log[k].session, log[k].approval) && !log[j].decision.Rejected?
              && log[k].calls == ToExecute(log[i].calls, log[j].decision))
  {
    ReachableSafe(cfg, st);
    var log := st.log;
    assert EventOk(cfg, log, k);
    if log[k].ExecutedApproved? {
      var i :| 0 <= i < k - 1 && log[i].Suspended? && log[i].session == log[k].session
               && log[i].approval == log[k].approval && !AtCheckpoint(log[i])
               && log[k].calls == ToExecute(log[i].calls, log[k - 1].decision);
      assert ResumesWith(log[k - 1], log[k].session, log[k].approval);
    }
  }

  /** No approval is raised twice, resumed twice, or run twice. */
  lemma EachApprovalIsUsedAtMostOnce(cfg: AgentConfig, st: AgentState, i: nat, j: nat)
    requires CleanReplies(cfg.world) && Reachable(cfg, st) && i < j < |st.log|
    ensures var log := st.log;
      && (log[i].Resumed? && log[j].Resumed? ==> log[i].approval != log[j].approval)
      && (log[i].ExecutedApproved? && log[j].ExecutedApproved? ==> log[i].approval != log[j].approval)
      && (Raises(log[i]).Some? && Raises(log[j]).Some? ==> Raises(log[i]) != Raises(log[j]))
  {
    ReachableSafe(cfg, st);
    var log := st.log;
    assert EventOk(cfg, log, i) && EventOk(cfg, log, j);
    if log[i].ExecutedApproved? && log[j].ExecutedApproved? {
      assert EventOk(cfg, log, j - 1);
      assert log[i - 1].Resumed?;
    }
  }

  /** A batch that was stopped for approval never also runs as a free batch. */
  lemma StoppedBatchesNeverRunFreely(cfg: AgentConfig, st: AgentState, i: nat, j: nat)
    requires CleanReplies(cfg.world) && Reachable(cfg, st) && i < |st.log| && j < |st.log|
    requires st.log[i].Suspended? && st.log[j].Ran? && st.log[j].event.Executed?
    ensures st.log[i].turn != st.log[j].event.turn
  {
    ReachableSafe(cfg, st);
    var log := st.log;
    assert EventOk(cfg, log, i) && EventOk(cfg, log, j);
    assert TurnOf(log[i]) == Some(log[i].turn) && TurnOf(log[j]) == Some(log[j].event.turn);
  }
}
