/** The agent around the loop: invoking a session, suspending it for approval and
    resuming it, one step each, as functions over the state of all sessions. */
module AgentSteps {
  import opened Json
  import opened Text
  import opened Messages
  import opened Hitl
  import opened React
  import opened Routing
  import opened Wrappers

  type UserId = string
  type SessionId = nat

  datatype ApprovalDecision = Approved | Rejected(reason: string) | Modified(newArgs: Json)

  /** A persisted column: written in the present format, or by an older release. */
  datatype Payload<+T> = Current(value: T) | Legacy

  datatype InterruptedState =
    | PendingToolCall(approval: ApprovalId, history: Payload<seq<Message>>, pending: Payload<seq<ToolCall>>,
                      activeTools: seq<string>, skill: Option<string>)
    | PendingCheckpoint(approval: ApprovalId, history: Payload<seq<Message>>, activeTools: seq<string>,
                        skill: Option<string>)
    | PendingPhaseGate(approval: ApprovalId, transition: PhaseTransition)

  datatype Status = ActiveSession | InterruptedSession | CompletedSession

  /** `openingContext` is what a phase change leaves for the next invocation. */
  datatype Session = Session(
    owner: UserId, status: Status, transcript: seq<Message>, interrupted: Option<InterruptedState>,
    skill: Option<string>, openingContext: Option<string>)

  /** Everything that ever happened, in order: what runs did, and how approvals went. */
  datatype AgentEvent =
    | Ran(session: SessionId, hook: Option<Hook>, event: Event)
    | Suspended(session: SessionId, approval: ApprovalId, hook: Option<Hook>, turn: nat, history: seq<Message>,
                calls: seq<ToolCall>, asked: nat)
    | GateRaised(session: SessionId, approval: ApprovalId)
    | Resumed(session: SessionId, approval: ApprovalId, decision: ApprovalDecision)
    | ExecutedApproved(session: SessionId, approval: ApprovalId, calls: seq<ToolCall>)

  /** What working memory holds, by owner and session. */
  type Cache = map<(UserId, SessionId), seq<Message>>

  /** `loaded` are the skills that compile to a context now. */
  datatype AgentState = AgentState(
    sessions: map<SessionId, Session>, cached: Cache, loaded: set<string>, nextApproval: ApprovalId, nextTurn: nat,
    log: seq<AgentEvent>)

  /** `preamble` is the rendered template, if any; `nudge` the reminder to call a
      mandatory tool; `skills` those loaded at first, if skills are configured at all. */
  datatype AgentConfig = AgentConfig(
    policy: Option<HitlPolicy>, preamble: Option<string>, maxIterations: nat, nudge: string,
    skills: Option<set<string>>, world: World)
  {
    function HookFor(skill: Option<string>, resumed: bool): Option<Hook> {
      if policy.Some? then Some(Hook(policy.value, skill, resumed)) else None
    }

    function RunConfigFor(skill: Option<string>, resumed: bool, activeTools: seq<string>): RunConfig {
      RunConfig(HookFor(skill, resumed), activeTools, maxIterations, nudge, world)
    }
  }

  function NewAgent(cfg: AgentConfig): AgentState {
    AgentState(map[], map[], if cfg.skills.Some? then cfg.skills.value else {}, 0, 0, [])
  }

  datatype AgentFailure =
    | NotFound | ApprovalMismatch | IncompatiblePersistedInterrupt | NoSkillsConfigured | UnknownSkill
    | SkillsUnreadable | Llm(error: RunError)

  datatype AgentOutput =
    | Replied(text: string) | AwaitingApproval(approval: ApprovalId) | Terminal | Refused(failure: AgentFailure)

  /** What one invocation brings: the system text, whether a cached history is within its
      time to live when it is looked up, whether it is swept away during the run, the
      input, the skill that routing would pick, and the tools offered. */
  datatype Request = Request(
    system: Option<string>, warm: bool, swept: bool, input: string, routed: Option<string>, activeTools: seq<string>)

  function Owned(st: AgentState, user: UserId, sid: SessionId): bool {
    sid in st.sessions && st.sessions[sid].owner == user
  }

  /** What a phase change left behind counts only if skills are configured. */
  function Opening(cfg: AgentConfig, session: Session): Option<string> {
    if cfg.skills.Some? then session.openingContext else None
  }

  /** The opening of a phase comes before the input, in the same message. */
  function EffectiveInput(opening: Option<string>, input: string): string {
    if opening.Some? then opening.value + "\n\n" + input else input
  }

  function AssembledMessages(request: Request, history: seq<Message>, input: string): seq<Message> {
    (if request.system.Some? then [TextMessage(System, request.system.value)] else [])
    + history + [TextMessage(User, input)]
  }

  function Tagged(sid: SessionId, hook: Option<Hook>, events: seq<Event>): seq<AgentEvent> {
    seq(|events|, i requires 0 <= i < |events| => Ran(sid, hook, events[i]))
  }

  /** `handle_tool_interrupt`: a checkpoint keeps no calls to run later. */
  function StoredInterrupt(interrupt: HitlInterrupt, skill: Option<string>): InterruptedState {
    if interrupt.checkpoint
    then PendingCheckpoint(interrupt.approval, Current(interrupt.history), interrupt.activeTools, skill)
    else PendingToolCall(interrupt.approval, Current(interrupt.history), Current(interrupt.pending),
                         interrupt.activeTools, skill)
  }

  function AfterRun(st: AgentState, sid: SessionId, hook: Option<Hook>, skill: Option<string>, r: RunResult,
        reply: seq<Message>): (AgentState, AgentOutput)
    requires sid in st.sessions && (r.outcome.Interrupted? ==> r.turns > 0)
  {
    var ran := st.(nextTurn := st.nextTurn + r.turns, log := st.log + Tagged(sid, hook, r.events));
    var session := st.sessions[sid];
    match r.outcome
    case Failure(error) => (ran, Refused(Llm(error)))
    case Finished(answer) =>
      (ran.(sessions := st.sessions[sid := session.(transcript := session.transcript + reply)]), Replied(answer))
    case Interrupted(interrupt) =>
      var stored := session.(interrupted := Some(StoredInterrupt(interrupt, skill)), status := InterruptedSession);
      (ran.(sessions := st.sessions[sid := stored], nextApproval := st.nextApproval + 1,
            log := ran.log + [Suspended(sid, interrupt.approval, hook, st.nextTurn + r.turns - 1, interrupt.history,
                                        interrupt.pending, interrupt.asked)]),
       AwaitingApproval(interrupt.approval))
  }

  /** The session once its opening is used. */
  function Opened(cfg: AgentConfig, session: Session): Session {
    if Opening(cfg, session).Some? then session.(openingContext := None) else session
  }

  /** A session that is bound to a skill keeps it; any other one takes the skill that
      routing picks, if skills are configured. */
  function SkillFor(cfg: AgentConfig, session: Session, request: Request): Option<string> {
    if session.skill.Some? || cfg.skills.None? then session.skill else request.routed
  }

  /** Routing picked a skill that no longer compiles. */
  predicate RoutedInVain(cfg: AgentConfig, st: AgentState, session: Session, request: Request) {
    session.skill.None? && SkillFor(cfg, session, request).Some? && request.routed.value !in st.loaded
  }

  /** The first invocation of a phase starts from the opening alone, any other one from
      the cached history, or the stored transcript when that is missing or too old. */
  function Recalled(cfg: AgentConfig, st: AgentState, user: UserId, sid: SessionId, warm: bool): seq<Message>
    requires sid in st.sessions
  {
    if Opening(cfg, st.sessions[sid]).Some? then []
    else if warm && (user, sid) in st.cached then st.cached[(user, sid)]
    else st.sessions[sid].transcript
  }

  /** An opening evicts the cached history; otherwise the history looked up is cached. */
  function CacheLookedUp(cfg: AgentConfig, st: AgentState, user: UserId, sid: SessionId, warm: bool): Cache
    requires sid in st.sessions
  {
    if Opening(cfg, st.sessions[sid]).Some? then st.cached - {(user, sid)}
    else st.cached[(user, sid) := Recalled(cfg, st, user, sid, warm)]
  }

  /** A finished turn extends the cached history, or starts one. */
  function CacheExtended(cached: Cache, key: (UserId, SessionId), swept: bool, turn: seq<Message>): Cache {
    var left := if swept then cached - {key} else cached;
    if turn == [] then left else left[key := (if key in left then left[key] else []) + turn]
  }

  function InvokeStep(cfg: AgentConfig, st: AgentState, user: UserId, sid: SessionId, request: Request)
    : (AgentState, AgentOutput)
  {
    if !Owned(st, user, sid) then (st, Refused(NotFound))
    else if RoutedInVain(cfg, st, st.sessions[sid], request)
    then (LookedUp(cfg, st, user, sid, request), Refused(UnknownSkill))
    else RunStep(cfg, st, user, sid, request)
  }

  /** The history is looked up, and an opening used, before a skill is routed. */
  function LookedUp(cfg: AgentConfig, st: AgentState, user: UserId, sid: SessionId, request: Request): AgentState
    requires sid in st.sessions
  {
    st.(sessions := st.sessions[sid := Opened(cfg, st.sessions[sid])],
        cached := CacheLookedUp(cfg, st, user, sid, request.warm))
  }

  /** The input as the model sees it, and what comes before it. */
  function InvokedInput(cfg: AgentConfig, st: AgentState, sid: SessionId, request: Request): string
    requires sid in st.sessions
  {
    EffectiveInput(Opening(cfg, st.sessions[sid]), request.input)
  }

  function InvokedMessages(cfg: AgentConfig, st: AgentState, user: UserId, sid: SessionId, request: Request)
    : seq<Message>
    requires sid in st.sessions
  {
    AssembledMessages(request, Recalled(cfg, st, user, sid, request.warm), InvokedInput(cfg, st, sid, request))
  }

  function InvokedRun(cfg: AgentConfig, st: AgentState, sid: SessionId, request: Request): RunConfig
    requires sid in st.sessions
  {
    cfg.RunConfigFor(SkillFor(cfg, st.sessions[sid], request), false, request.activeTools)
  }

  function InvokedResult(cfg: AgentConfig, st: AgentState, user: UserId, sid: SessionId, request: Request)
    : (r: RunResult)
    requires sid in st.sessions
    ensures r.outcome.Interrupted? ==> r.turns > 0
  {
    RunFrom(InvokedRun(cfg, st, sid, request), cfg.preamble, InvokedMessages(cfg, st, user, sid, request), st.nextTurn,
            st.nextApproval)
  }

  /** The state that an invocation is settled in: the session bound to its skill, and
      the finished turn cached. */
  function BoundState(cfg: AgentConfig, st: AgentState, user: UserId, sid: SessionId, request: Request,
        turn: seq<Message>): AgentState
    requires sid in st.sessions
  {
    var looked := LookedUp(cfg, st, user, sid, request);
    var taken := looked.sessions[sid].(skill := SkillFor(cfg, st.sessions[sid], request));
    looked.(sessions := looked.sessions[sid := taken],
            cached := CacheExtended(looked.cached, (user, sid), request.swept, turn))
  }

  function RunStep(cfg: AgentConfig, st: AgentState, user: UserId, sid: SessionId, request: Request)
    : (AgentState, AgentOutput)
    requires sid in st.sessions
  {
    var r := InvokedResult(cfg, st, user, sid, request);
    var turn := FinishedTurn(r, InvokedInput(cfg, st, sid, request));
    AfterRun(BoundState(cfg, st, user, sid, request, turn), sid, InvokedRun(cfg, st, sid, request).hook,
             SkillFor(cfg, st.sessions[sid], request), r, turn)
  }

  /** The turn that an answered invocation adds to the transcript. */
  function FinishedTurn(r: RunResult, input: string): seq<Message> {
    if r.outcome.Finished? then [TextMessage(User, input), TextMessage(Assistant, r.outcome.answer)] else []
  }

  /** The calls that a decision lets run. */
  function ToExecute(pending: seq<ToolCall>, decision: ApprovalDecision): seq<ToolCall> {
    match decision
    case Approved => pending
    case Modified(args) => if pending == [] then [] else [ToolCall(pending[0].id, pending[0].name, args)]
    case Rejected(_) => []
  }

  function Reports(results: seq<ToolCallResult>): seq<string> {
    seq(|results|, i requires 0 <= i < |results| =>
      "Tool: " + results[i].name + "\nResult: "
      + match results[i].outcome case Returned(v) => v case Failed(e) => "Error: " + e)
  }

  function Refusals(pending: seq<ToolCall>, reason: string): seq<string> {
    seq(|pending|, i requires 0 <= i < |pending| =>
      "Tool: " + pending[i].name + "\nResult: Rejected by approver: " + reason)
  }

  function Observation(pending: seq<ToolCall>, decision: ApprovalDecision, results: seq<ToolCallResult>): string {
    match decision
    case Approved => if pending == [] then "Checkpoint approved. Continue." else Join(Reports(results), "\n\n")
    case Modified(_) => if pending == [] then "No tool calls to modify." else Join(Reports(results), "\n\n")
    case Rejected(reason) =>
      if pending == [] then "Checkpoint rejected: " + reason + ". Revise and resubmit."
      else Join(Refusals(pending, reason), "\n\n")
  }

  /** Both persisted columns are readable. */
  predicate Resumable(state: InterruptedState) {
    match state
    case PendingToolCall(_, history, pending, _, _) => history.Current? && pending.Current?
    case PendingCheckpoint(_, history, _, _) => history.Current?
    case PendingPhaseGate(_, _) => true
  }

  function PendingCalls(state: InterruptedState): seq<ToolCall>
    requires Resumable(state)
  {
    if state.PendingToolCall? then state.pending.value else []
  }

  function ResumeStep(cfg: AgentConfig, st: AgentState, user: UserId, sid: SessionId, approval: ApprovalId,
        decision: ApprovalDecision): (AgentState, AgentOutput)
  {
    if !Owned(st, user, sid) || st.sessions[sid].interrupted.None? then (st, Refused(NotFound))
    else
      var session := st.sessions[sid];
      var state := session.interrupted.value;
      if state.approval != approval then (st, Refused(ApprovalMismatch))
      else if !Resumable(state) then (st, Refused(IncompatiblePersistedInterrupt))
      else
        var cleared := session.(interrupted := None, status := ActiveSession);
        var resumed := st.(sessions := st.sessions[sid := cleared], log := st.log + [Resumed(sid, approval, decision)]);
        if state.PendingPhaseGate? then ResumePhaseGate(cfg, resumed, sid, state.transition, decision)
        else ResumeToolCallOrCheckpoint(cfg, resumed, sid, state, decision)
  }

  function ResumePhaseGate(cfg: AgentConfig, st: AgentState, sid: SessionId, transition: PhaseTransition,
        decision: ApprovalDecision): (AgentState, AgentOutput)
    requires sid in st.sessions
  {
    if decision.Rejected? then (st, Replied("Phase transition rejected: " + decision.reason))
    else ApplyTransition(cfg, st, sid, transition, "Phase transition to " + transition.nextSkill + " approved.")
  }

  /** Binds the next skill and leaves the summary for its first invocation. */
  function ApplyTransition(cfg: AgentConfig, st: AgentState, sid: SessionId, transition: PhaseTransition, reply: string)
    : (AgentState, AgentOutput)
    requires sid in st.sessions
  {
    if cfg.skills.None? then (st, Refused(NoSkillsConfigured))
    else if transition.nextSkill !in st.loaded then (st, Refused(UnknownSkill))
    else (st.(sessions := st.sessions[sid := InNextPhase(st.sessions[sid], transition)]), Replied(reply))
  }

  function InNextPhase(session: Session, transition: PhaseTransition): Session {
    session.(skill := Some(transition.nextSkill),
             openingContext := Some("Context from previous phase: " + transition.summary))
  }

  /** Where a resumed run starts, once the calls that the decision lets through have run. */
  function ResumedRun(cfg: AgentConfig, st: AgentState, sid: SessionId, state: InterruptedState,
        decision: ApprovalDecision): (AgentState, RunConfig, seq<Message>)
    requires Resumable(state) && !state.PendingPhaseGate?
  {
    var pending := PendingCalls(state);
    var calls := ToExecute(pending, decision);
    var executed := if calls == [] then st
                    else st.(nextTurn := st.nextTurn + 1,
                             log := st.log + [ExecutedApproved(sid, state.approval, calls)]);
    (executed, cfg.RunConfigFor(state.skill, true, state.activeTools),
     state.history.value + [TextMessage(User, Observation(pending, decision, cfg.world(st.nextTurn).results))])
  }

  function ResumeToolCallOrCheckpoint(cfg: AgentConfig, st: AgentState, sid: SessionId, state: InterruptedState,
        decision: ApprovalDecision): (AgentState, AgentOutput)
    requires sid in st.sessions && Resumable(state) && !state.PendingPhaseGate?
  {
    var (executed, run, messages) := ResumedRun(cfg, st, sid, state, decision);
    var r := RunFrom(run, cfg.preamble, messages, executed.nextTurn, executed.nextApproval);
    AfterRun(executed, sid, run.hook, state.skill, r, [])
  }

  /** `reload_skills`: what is found replaces what was loaded; sessions keep their skills. */
  function ReloadStep(cfg: AgentConfig, st: AgentState, found: Option<set<string>>)
    : (AgentState, Option<AgentFailure>)
  {
    if cfg.skills.None? then (st, Some(NoSkillsConfigured))
    else if found.None? then (st, Some(SkillsUnreadable))
    else (st.(loaded := found.value), None)
  }

  /** `advance_phase`: output without directives ends the last phase. */
  function AdvancePhaseStep(cfg: AgentConfig, st: AgentState, user: UserId, sid: SessionId, output: string)
    : (AgentState, AgentOutput)
  {
    if !Owned(st, user, sid) then (st, Refused(NotFound))
    else
      match ParsedTransition(output)
      case None => (st, Terminal)
      case Some(transition) => TransitionStep(cfg, st, sid, transition)
  }

  predicate PhaseIsGated(cfg: AgentConfig, session: Session) {
    cfg.policy.Some? && session.skill.Some? && cfg.policy.value.RequiresPhaseGate(session.skill.value)
  }

  /** A gated skill waits for approval. */
  function TransitionStep(cfg: AgentConfig, st: AgentState, sid: SessionId, transition: PhaseTransition)
    : (AgentState, AgentOutput)
    requires sid in st.sessions
  {
    var session := st.sessions[sid];
    if PhaseIsGated(cfg, session) then
      var state := PendingPhaseGate(st.nextApproval, transition);
      var gated := session.(interrupted := Some(state), status := InterruptedSession);
      (st.(sessions := st.sessions[sid := gated], nextApproval := st.nextApproval + 1,
           log := st.log + [GateRaised(sid, st.nextApproval)]),
       AwaitingApproval(st.nextApproval))
    else ApplyTransition(cfg, st, sid, transition, transition.deliverable)
  }
}
