/** What one invocation, or one resumption, shows the model and leaves behind. */
module AgentTurns {
  import opened Text
  import opened Messages
  import opened Hitl
  import opened React
  import opened ReactTheorems
  import opened ReactBuffers
  import opened Routing
  import opened AgentSteps
  import opened Wrappers

  ghost predicate Owns(st: AgentState, user: UserId, sid: SessionId) {
    sid in st.sessions && st.sessions[sid].owner == user
  }

  // ---- what an invocation starts from ----

  /** What a phase change left for this invocation. */
  function OpeningOf(cfg: AgentConfig, st: AgentState, sid: SessionId): Option<string>
    requires sid in st.sessions
  {
    if cfg.skills.Some? then st.sessions[sid].openingContext else None
  }

  /** What the user said, after the opening if there is one. */
  function Said(cfg: AgentConfig, st: AgentState, sid: SessionId, request: Request): string
    requires sid in st.sessions
  {
    match OpeningOf(cfg, st, sid)
    case Some(opening) => opening + "\n\n" + request.input
    case None => request.input
  }

  /** What was said before: nothing in a new phase, else what is cached in time, else the transcript. */
  function SaidBefore(cfg: AgentConfig, st: AgentState, user: UserId, sid: SessionId, request: Request): seq<Message>
    requires sid in st.sessions
  {
    if OpeningOf(cfg, st, sid).Some? then []
    else if request.warm && (user, sid) in st.cached then st.cached[(user, sid)]
    else st.sessions[sid].transcript
  }

  /** The system text if there is any, what was said before, and the input. */
  ghost predicate AsksTheInput(cfg: AgentConfig, st: AgentState, user: UserId, sid: SessionId, request: Request,
        messages: seq<Message>)
    requires sid in st.sessions
  {
    var before, ask := SaidBefore(cfg, st, user, sid, request), Message(User, [Text(Said(cfg, st, sid, request))]);
    match request.system
    case Some(system) => messages == [Message(System, [Text(system)])] + before + [ask]
    case None => messages == before + [ask]
  }

  /** The skill that routing picked for an unbound session is loaded. */
  ghost predicate SkillIsThere(cfg: AgentConfig, st: AgentState, sid: SessionId, request: Request)
    requires sid in st.sessions
  {
    st.sessions[sid].skill.None? && cfg.skills.Some? && request.routed.Some? ==> request.routed.value in st.loaded
  }

  /** An invocation leaves its session bound to `skill`: the one it had, else the routed one. */
  ghost predicate IsBound(cfg: AgentConfig, st: AgentState, sid: SessionId, request: Request, skill: Option<string>)
    requires sid in st.sessions
  {
    if st.sessions[sid].skill.Some? then skill == st.sessions[sid].skill
    else skill == if cfg.skills.Some? then request.routed else None
  }

  /** Event k of the log is a buffer that a run of session `sid` sent. */
  predicate SentAt(log: seq<AgentEvent>, k: nat, sid: SessionId) {
    k < |log| && log[k].Ran? && log[k].session == sid && log[k].event.Sent?
  }

  function BufferAt(log: seq<AgentEvent>, k: nat, sid: SessionId): seq<Message>
    requires SentAt(log, k, sid)
  {
    log[k].event.buffer
  }

  /** A reply is asked for at all: there is an iteration left and the tool schemas are strict. */
  ghost predicate Asks(cfg: AgentConfig, turn: nat) {
    cfg.maxIterations > 0 && !cfg.world(turn).reply.SchemaRejected?
  }

  // ---- the log of one run ----

  /** The hook of a run: the policy for this skill, if there is a policy. */
  ghost predicate HookedFor(cfg: AgentConfig, hook: Option<Hook>, skill: Option<string>, resumed: bool) {
    match cfg.policy
    case Some(policy) => hook == Some(Hook(policy, skill, resumed))
    case None => hook == None
  }

  /** From event `from` on, the log is a run of `sid` for `skill` that starts with `messages`. */
  ghost predicate LogsRun(cfg: AgentConfig, log: seq<AgentEvent>, from: nat, sid: SessionId, skill: Option<string>,
        resumed: bool, messages: seq<Message>, turn: nat) {
    && from <= |log| && (from < |log| <==> Asks(cfg, turn))
    && (from < |log| ==>
          && SentAt(log, from, sid) && HookedFor(cfg, log[from].hook, skill, resumed)
          && WithPreamble(cfg.preamble, messages, BufferAt(log, from, sid)))
  }

  lemma RunIsLogged(cfg: AgentConfig, st: AgentState, sid: SessionId, run: RunConfig, skill: Option<string>,
        resumed: bool, messages: seq<Message>, r: RunResult, reply: seq<Message>, turn: nat, approval: ApprovalId)
    requires sid in st.sessions && run.maxIterations == cfg.maxIterations && run.world == cfg.world
    requires HookedFor(cfg, run.hook, skill, resumed)
    requires r == RunFrom(run, cfg.preamble, messages, turn, approval)
    ensures var after := AfterRun(st, sid, run.hook, skill, r, reply).0;
      LogsRun(cfg, after.log, |st.log|, sid, skill, resumed, messages, turn)
  {
    RunsStartWithTheirMessages(run, cfg.preamble, messages, turn, approval);
    RunEndsOnItsLastBuffer(run, Cycle.Prepared(cfg.preamble, messages), 0, run.RequiredTools() == {}, turn, approval);
  }

  /** The first thing an accepted invocation does is to send the system text, what was said
      before and the input; the preamble is the only thing added. */
  lemma InvocationsAskTheInput(cfg: AgentConfig, st: AgentState, user: UserId, sid: SessionId, request: Request)
    returns (messages: seq<Message>)
    requires Owns(st, user, sid) && SkillIsThere(cfg, st, sid, request)
    ensures AsksTheInput(cfg, st, user, sid, request, messages)
    ensures var after := InvokeStep(cfg, st, user, sid, request).0;
      && sid in after.sessions && IsBound(cfg, st, sid, request, after.sessions[sid].skill)
      && LogsRun(cfg, after.log, |st.log|, sid, after.sessions[sid].skill, false, messages, st.nextTurn)
  {
    messages := InvokedMessages(cfg, st, user, sid, request);
    var r, said := InvokedResult(cfg, st, user, sid, request), InvokedInput(cfg, st, sid, request);
    var turn := FinishedTurn(r, said);
    RunIsLogged(cfg, BoundState(cfg, st, user, sid, request, turn), sid, InvokedRun(cfg, st, sid, request),
                SkillFor(cfg, st.sessions[sid], request), false, messages, r, turn, st.nextTurn, st.nextApproval);
  }

  // ---- what an invocation leaves behind ----

  /** The last reply that was used says `text`. */
  ghost predicate LastReplySays(cfg: AgentConfig, after: AgentState, text: string) {
    && after.nextTurn > 0 && cfg.world(after.nextTurn - 1).reply.Received?
    && IsTheAnswerOf(cfg.world(after.nextTurn - 1).reply.content, text)
  }

  /** An answered invocation stores the input and the answer, and caches them after what was
      said before, unless that was swept away or belongs to an earlier phase. */
  ghost predicate StoresTheTurn(cfg: AgentConfig, st: AgentState, user: UserId, sid: SessionId, request: Request,
        after: AgentState, text: string)
    requires sid in st.sessions
  {
    var turn := [Message(User, [Text(Said(cfg, st, sid, request))]), Message(Assistant, [Text(text)])];
    && sid in after.sessions && after.sessions[sid].transcript == st.sessions[sid].transcript + turn
    && (user, sid) in after.cached
    && after.cached[(user, sid)] == (if request.swept then [] else SaidBefore(cfg, st, user, sid, request)) + turn
  }

  /** The session waits for approval `id` with the buffer that the last reply answered, the
      calls of that reply unless it stopped at a checkpoint, its skill and the tools on offer. */
  ghost predicate WaitsWith(cfg: AgentConfig, after: AgentState, sid: SessionId, id: ApprovalId,
        skill: Option<string>, activeTools: seq<string>) {
    var last := |after.log| - 1;
    && sid in after.sessions && after.sessions[sid].status == InterruptedSession
    && last > 0 && SentAt(after.log, last - 1, sid) && after.nextTurn > 0
    && cfg.world(after.nextTurn - 1).reply.Received?
    && var calls := Calls(cfg.world(after.nextTurn - 1).reply.content);
       var history := Current(BufferAt(after.log, last - 1, sid));
       exists asked: nat | asked < |calls| ::
         && after.log[last].Suspended? && after.log[last].asked == asked
         && after.sessions[sid].interrupted
            == if calls[asked].name == "request_checkpoint"
               then Some(PendingCheckpoint(id, history, activeTools, skill))
               else Some(PendingToolCall(id, history, Current(calls), activeTools, skill))
  }

  lemma SuspendedRunWaits(cfg: AgentConfig, st: AgentState, sid: SessionId, run: RunConfig, skill: Option<string>,
        r: RunResult, reply: seq<Message>)
    requires sid in st.sessions && run.world == cfg.world && r.outcome.Interrupted?
    requires BatchesOfRun(run, r, st.nextTurn, st.nextApproval) && EndsOnItsLastBuffer(run, r, st.nextTurn)
    ensures var (after, output) := AfterRun(st, sid, run.hook, skill, r, reply);
      output == AwaitingApproval(st.nextApproval)
      && WaitsWith(cfg, after, sid, st.nextApproval, skill, run.activeTools)
  {
  }

  lemma AnsweredRunSays(cfg: AgentConfig, st: AgentState, sid: SessionId, run: RunConfig, skill: Option<string>,
        r: RunResult, reply: seq<Message>)
    requires sid in st.sessions && run.world == cfg.world && r.outcome.Finished?
    requires EndsOnItsLastBuffer(run, r, st.nextTurn)
    ensures var (after, output) := AfterRun(st, sid, run.hook, skill, r, reply);
      output == Replied(r.outcome.answer) && LastReplySays(cfg, after, r.outcome.answer)
  {
  }

  lemma RunIsSettled(cfg: AgentConfig, st: AgentState, sid: SessionId, run: RunConfig, skill: Option<string>,
        messages: seq<Message>, r: RunResult, reply: seq<Message>)
    requires sid in st.sessions && run.maxIterations == cfg.maxIterations && run.world == cfg.world
    requires r == RunFrom(run, cfg.preamble, messages, st.nextTurn, st.nextApproval)
    ensures var (after, output) := AfterRun(st, sid, run.hook, skill, r, reply);
      && st.nextTurn <= after.nextTurn <= st.nextTurn + cfg.maxIterations
      && (output.Replied? <==> r.outcome.Finished?)
      && (output.Replied? ==> output.text == r.outcome.answer && LastReplySays(cfg, after, output.text))
      && (output.AwaitingApproval? ==>
            && output.approval == st.nextApproval
            && WaitsWith(cfg, after, sid, st.nextApproval, skill, run.activeTools))
  {
    var buffer, called := Cycle.Prepared(cfg.preamble, messages), run.RequiredTools() == {};
    RunLength(run, buffer, 0, called, st.nextTurn, st.nextApproval);
    RunEndsOnItsLastBuffer(run, buffer, 0, called, st.nextTurn, st.nextApproval);
    RunFromExecutesOnlyFreeBatches(run, cfg.preamble, messages, st.nextTurn, st.nextApproval);
    match r.outcome
    case Interrupted(_) => SuspendedRunWaits(cfg, st, sid, run, skill, r, reply);
    case Finished(_) => AnsweredRunSays(cfg, st, sid, run, skill, r, reply);
    case Failure(_) =>
  }

  /** An invocation uses at most `maxIterations` replies.  Answered, it returns what the last
      of them says and stores it with the input; suspended, it keeps what it needs to go on;
      in every case but the first the transcript stays as it is. */
  lemma InvocationsStoreTheTurn(cfg: AgentConfig, st: AgentState, user: UserId, sid: SessionId, request: Request)
    requires Owns(st, user, sid) && SkillIsThere(cfg, st, sid, request)
    ensures var (after, output) := InvokeStep(cfg, st, user, sid, request);
      && st.nextTurn <= after.nextTurn <= st.nextTurn + cfg.maxIterations
      && (output.Replied? ==>
            LastReplySays(cfg, after, output.text) && StoresTheTurn(cfg, st, user, sid, request, after, output.text))
      && (output.AwaitingApproval? ==>
            && output.approval == st.nextApproval && sid in after.sessions
            && WaitsWith(cfg, after, sid, st.nextApproval, after.sessions[sid].skill, request.activeTools))
      && (!output.Replied? ==>
            sid in after.sessions && after.sessions[sid].transcript == st.sessions[sid].transcript)
  {
    var r, said := InvokedResult(cfg, st, user, sid, request), InvokedInput(cfg, st, sid, request);
    var turn := FinishedTurn(r, said);
    RunIsSettled(cfg, BoundState(cfg, st, user, sid, request, turn), sid, InvokedRun(cfg, st, sid, request),
                 SkillFor(cfg, st.sessions[sid], request), InvokedMessages(cfg, st, user, sid, request), r, turn);
  }

  // ---- what a resumption shows the model ----

  /** The session waits with `state`, whose history and calls can be read. */
  ghost predicate Waits(st: AgentState, user: UserId, sid: SessionId, state: InterruptedState,
        history: seq<Message>, pending: seq<ToolCall>) {
    && Owns(st, user, sid) && st.sessions[sid].interrupted == Some(state)
    && match state
       case PendingToolCall(_, readHistory, readPending, _, _) =>
         readHistory == Current(history) && readPending == Current(pending)
       case PendingCheckpoint(_, readHistory, _, _) => readHistory == Current(history) && pending == []
       case PendingPhaseGate(_, _) => false
  }

  /** One text for each result: the tool, and what it returned or how it failed. */
  ghost predicate TellsResults(results: seq<ToolCallResult>, texts: seq<string>) {
    && |texts| == |results|
    && forall i | 0 <= i < |results| ::
         match results[i].outcome
         case Returned(value) => texts[i] == "Tool: " + results[i].name + "\nResult: " + value
         case Failed(error) => texts[i] == "Tool: " + results[i].name + "\nResult: Error: " + error
  }

  /** One text for each refused call: the tool, and why it was refused. */
  ghost predicate TellsRefusals(pending: seq<ToolCall>, reason: string, texts: seq<string>) {
    && |texts| == |pending|
    && forall i | 0 <= i < |pending| ::
         texts[i] == "Tool: " + pending[i].name + "\nResult: Rejected by approver: " + reason
  }

  /** What the model is told about a decision on `pending`, none of them at a checkpoint. */
  ghost predicate TellsDecision(pending: seq<ToolCall>, decision: ApprovalDecision, results: seq<ToolCallResult>,
        told: string) {
    if pending == [] then
      match decision
      case Approved => told == "Checkpoint approved. Continue."
      case Modified(_) => told == "No tool calls to modify."
      case Rejected(reason) => told == "Checkpoint rejected: " + reason + ". Revise and resubmit."
    else
      exists texts: seq<string> ::
        && told == Join(texts, "\n\n")
        && if decision.Rejected? then TellsRefusals(pending, decision.reason, texts) else TellsResults(results, texts)
  }

  /** The calls that run for a decision: all that were waiting, or the first with other
      arguments, or none. */
  ghost predicate RunsFor(pending: seq<ToolCall>, decision: ApprovalDecision, calls: seq<ToolCall>) {
    match decision
    case Approved => calls == pending
    case Rejected(_) => calls == []
    case Modified(args) =>
      && |calls| == (if pending == [] then 0 else 1)
      && (pending != [] ==> calls[0].id == pending[0].id && calls[0].name == pending[0].name && calls[0].args == args)
  }

  lemma ObservationTells(pending: seq<ToolCall>, decision: ApprovalDecision, results: seq<ToolCallResult>)
    ensures TellsDecision(pending, decision, results, Observation(pending, decision, results))
  {
    if pending != [] {
      if decision.Rejected? {
        assert TellsRefusals(pending, decision.reason, Refusals(pending, decision.reason));
      } else {
        assert TellsResults(results, Reports(results));
      }
    }
  }

  /** The log goes on with the decision and the calls that ran for it. */
  ghost predicate LogsDecision(before: seq<AgentEvent>, log: seq<AgentEvent>, sid: SessionId, approval: ApprovalId,
        decision: ApprovalDecision, calls: seq<ToolCall>) {
    && |log| > |before| && log[..|before|] == before && log[|before|] == Resumed(sid, approval, decision)
    && (calls != [] ==> |log| > |before| + 1 && log[|before| + 1] == ExecutedApproved(sid, approval, calls))
  }

  /** A run that stores no turn leaves transcript and cache alone, and only adds to the log. */
  lemma RunKeepsTheRest(st: AgentState, sid: SessionId, hook: Option<Hook>, skill: Option<string>, r: RunResult)
    requires sid in st.sessions && (r.outcome.Interrupted? ==> r.turns > 0)
    ensures var after := AfterRun(st, sid, hook, skill, r, []).0;
      && sid in after.sessions && after.sessions[sid].transcript == st.sessions[sid].transcript
      && after.cached == st.cached && |after.log| >= |st.log| && after.log[..|st.log|] == st.log
  {
  }

  /** The state once the session no longer waits and the decided calls have run. */
  ghost function Decided(st: AgentState, sid: SessionId, approval: ApprovalId, decision: ApprovalDecision,
        calls: seq<ToolCall>): AgentState
    requires sid in st.sessions
  {
    var cleared := st.sessions[sid].(interrupted := None, status := ActiveSession);
    var resumed := st.(sessions := st.sessions[sid := cleared], log := st.log + [Resumed(sid, approval, decision)]);
    if calls == [] then resumed
    else resumed.(nextTurn := st.nextTurn + 1, log := resumed.log + [ExecutedApproved(sid, approval, calls)])
  }

  lemma ResumptionRuns(cfg: AgentConfig, st: AgentState, user: UserId, sid: SessionId, state: InterruptedState,
        decision: ApprovalDecision, history: seq<Message>, pending: seq<ToolCall>)
    requires Waits(st, user, sid, state, history, pending)
    ensures var calls := ToExecute(pending, decision);
      var ready := Decided(st, sid, state.approval, decision, calls);
      var run := cfg.RunConfigFor(state.skill, true, state.activeTools);
      var told := Observation(pending, decision, cfg.world(st.nextTurn).results);
      var r := RunFrom(run, cfg.preamble, history + [TextMessage(User, told)], ready.nextTurn, ready.nextApproval);
      ResumeStep(cfg, st, user, sid, state.approval, decision) == AfterRun(ready, sid, run.hook, state.skill, r, [])
  {
    assert Resumable(state) && PendingCalls(state) == pending;
  }

  /** Resuming runs the calls that the decision lets through; then the model is shown the
      stored history and one message, which tells it the decision and what came of the calls. */
  lemma ResumptionsTellTheDecision(cfg: AgentConfig, st: AgentState, user: UserId, sid: SessionId,
        state: InterruptedState, decision: ApprovalDecision, history: seq<Message>, pending: seq<ToolCall>)
    returns (told: string, calls: seq<ToolCall>)
    requires Waits(st, user, sid, state, history, pending)
    ensures RunsFor(pending, decision, calls)
    ensures TellsDecision(pending, decision, cfg.world(st.nextTurn).results, told)
    ensures var after := ResumeStep(cfg, st, user, sid, state.approval, decision).0;
      var ran := if calls == [] then 0 else 1;
      && LogsDecision(st.log, after.log, sid, state.approval, decision, calls)
      && LogsRun(cfg, after.log, |st.log| + 1 + ran, sid, state.skill, true,
                 history + [Message(User, [Text(told)])], st.nextTurn + ran)
      && sid in after.sessions && after.sessions[sid].transcript == st.sessions[sid].transcript
      && after.cached == st.cached
  {
    var results := cfg.world(st.nextTurn).results;
    told, calls := Observation(pending, decision, results), ToExecute(pending, decision);
    ObservationTells(pending, decision, results);
    ResumptionRuns(cfg, st, user, sid, state, decision, history, pending);
    var ready := Decided(st, sid, state.approval, decision, calls);
    var run, messages := cfg.RunConfigFor(state.skill, true, state.activeTools), history + [TextMessage(User, told)];
    var r := RunFrom(run, cfg.preamble, messages, ready.nextTurn, ready.nextApproval);
    RunKeepsTheRest(ready, sid, run.hook, state.skill, r);
    RunIsLogged(cfg, ready, sid, run, state.skill, true, messages, r, [], ready.nextTurn, ready.nextApproval);
    DecisionIsLogged(st, AfterRun(ready, sid, run.hook, state.skill, r, []).0, sid, state.approval, decision, calls);
  }

  lemma DecisionIsLogged(st: AgentState, after: AgentState, sid: SessionId, approval: ApprovalId,
        decision: ApprovalDecision, calls: seq<ToolCall>)
    requires sid in st.sessions
    requires var ready := Decided(st, sid, approval, decision, calls);
      |after.log| >= |ready.log| && after.log[..|ready.log|] == ready.log
    ensures LogsDecision(st.log, after.log, sid, approval, decision, calls)
    ensures |Decided(st, sid, approval, decision, calls).log| == |st.log| + 1 + if calls == [] then 0 else 1
  {
    var ready := Decided(st, sid, approval, decision, calls);
    assert ready.log[..|st.log|] == st.log && after.log[..|st.log|] == after.log[..|ready.log|][..|st.log|];
  }

  /** The preamble never comes after the last message, if that is the user's. */
  lemma LastIsShownLast(preamble: Option<string>, messages: seq<Message>, buffer: seq<Message>)
    requires messages != [] && messages[|messages| - 1].role == User && WithPreamble(preamble, messages, buffer)
    ensures buffer != [] && buffer[|buffer| - 1] == messages[|messages| - 1]
  {
    if preamble.Some? && !IsBlankText(preamble.value) {
      var at: nat :| at <= |messages| && PreambleAt(preamble.value, messages, buffer, at);
      assert messages[|messages| - 1] in messages;
    }
  }

  /** The first buffer after a resumption ends with the user message `text`. */
  ghost predicate ShowsFirst(cfg: AgentConfig, st: AgentState, user: UserId, sid: SessionId, approval: ApprovalId,
        decision: ApprovalDecision, text: string) {
    var log, first := ResumeStep(cfg, st, user, sid, approval, decision).0.log, |st.log| + 1;
    SentAt(log, first, sid) && EndsWith(BufferAt(log, first, sid), text)
  }

  predicate EndsWith(buffer: seq<Message>, text: string) {
    buffer != [] && buffer[|buffer| - 1] == Message(User, [Text(text)])
  }

  lemma CheckpointDecisionIsTold(cfg: AgentConfig, st: AgentState, user: UserId, sid: SessionId,
        state: InterruptedState, decision: ApprovalDecision, history: seq<Message>, text: string)
    requires Waits(st, user, sid, state, history, []) && Asks(cfg, st.nextTurn)
    requires TellsDecision([], decision, [], text)
    ensures ShowsFirst(cfg, st, user, sid, state.approval, decision, text)
  {
    var told, calls := ResumptionsTellTheDecision(cfg, st, user, sid, state, decision, history, []);
    var log := ResumeStep(cfg, st, user, sid, state.approval, decision).0.log;
    LastIsShownLast(cfg.preamble, history + [Message(User, [Text(told)])], BufferAt(log, |st.log| + 1, sid));
  }

  /** A rejected checkpoint and an approved one never look alike: the message that ends the
      first buffer says which it was, and a rejection gives its reason. */
  lemma CheckpointDecisionsAreTold(cfg: AgentConfig, st: AgentState, user: UserId, sid: SessionId,
        state: InterruptedState, reason: string, history: seq<Message>)
    requires Waits(st, user, sid, state, history, []) && Asks(cfg, st.nextTurn)
    ensures var approval := "Checkpoint approved. Continue.";
      var rejection := "Checkpoint rejected: " + reason + ". Revise and resubmit.";
      && ShowsFirst(cfg, st, user, sid, state.approval, Approved, approval)
      && ShowsFirst(cfg, st, user, sid, state.approval, Rejected(reason), rejection)
      && approval != rejection
  {
    var approval := "Checkpoint approved. Continue.";
    var rejection := "Checkpoint rejected: " + reason + ". Revise and resubmit.";
    CheckpointDecisionIsTold(cfg, st, user, sid, state, Approved, history, approval);
    CheckpointDecisionIsTold(cfg, st, user, sid, state, Rejected(reason), history, rejection);
    DecisionTextsDiffer(reason);
  }

  lemma DecisionTextsDiffer(reason: string)
    ensures "Checkpoint rejected: " + reason + ". Revise and resubmit." != "Checkpoint approved. Continue."
  {
    var told := "Checkpoint rejected: " + reason + ". Revise and resubmit.";
    assert told[11] == 'r' && "Checkpoint approved. Continue."[11] == 'a';
  }

  /** A resumed run is answered by what its last reply says, or waits again, for the same
      skill and with the same tools; it uses at most `maxIterations` replies. */
  lemma ResumptionsAreSettled(cfg: AgentConfig, st: AgentState, user: UserId, sid: SessionId,
        state: InterruptedState, decision: ApprovalDecision, history: seq<Message>, pending: seq<ToolCall>)
    requires Waits(st, user, sid, state, history, pending)
    ensures var (after, output) := ResumeStep(cfg, st, user, sid, state.approval, decision);
      && st.nextTurn <= after.nextTurn <= st.nextTurn + 1 + cfg.maxIterations
      && (output.Replied? ==> LastReplySays(cfg, after, output.text))
      && (output.AwaitingApproval? ==>
            && output.approval == st.nextApproval
            && WaitsWith(cfg, after, sid, st.nextApproval, state.skill, state.activeTools))
  {
    var told, calls := Observation(pending, decision, cfg.world(st.nextTurn).results), ToExecute(pending, decision);
    ResumptionRuns(cfg, st, user, sid, state, decision, history, pending);
    var ready := Decided(st, sid, state.approval, decision, calls);
    var run, messages := cfg.RunConfigFor(state.skill, true, state.activeTools), history + [TextMessage(User, told)];
    var r := RunFrom(run, cfg.preamble, messages, ready.nextTurn, ready.nextApproval);
    RunIsSettled(cfg, ready, sid, run, state.skill, messages, r, []);
  }

  // ---- what a phase gate lets through ----

  /** The skill a session is bound to, and what it opens the next invocation with. */
  function PhaseOf(st: AgentState, sid: SessionId): (Option<string>, Option<string>)
    requires sid in st.sessions
  {
    (st.sessions[sid].skill, st.sessions[sid].openingContext)
  }

  /** Rejecting a phase change keeps the phase; any other decision enters the next one, if
      its skill is there; the session waits no more in either case, and no reply is asked for. */
  lemma GateDecisionsAreApplied(cfg: AgentConfig, st: AgentState, user: UserId, sid: SessionId, approval: ApprovalId,
        transition: PhaseTransition, decision: ApprovalDecision)
    requires Owns(st, user, sid) && st.sessions[sid].interrupted == Some(PendingPhaseGate(approval, transition))
    ensures var (after, output) := ResumeStep(cfg, st, user, sid, approval, decision);
      && after.log == st.log + [Resumed(sid, approval, decision)] && after.nextTurn == st.nextTurn
      && sid in after.sessions && after.sessions[sid].interrupted == None
      && after.sessions[sid].status == ActiveSession
      && (decision.Rejected? ==>
            && PhaseOf(after, sid) == PhaseOf(st, sid)
            && output == Replied("Phase transition rejected: " + decision.reason))
      && (!decision.Rejected? && cfg.skills.Some? && transition.nextSkill in st.loaded ==>
            && PhaseOf(after, sid) == (Some(transition.nextSkill),
                                       Some("Context from previous phase: " + transition.summary))
            && output == Replied("Phase transition to " + transition.nextSkill + " approved."))
      && (!decision.Rejected? && !(cfg.skills.Some? && transition.nextSkill in st.loaded) ==>
            && PhaseOf(after, sid) == PhaseOf(st, sid)
            && output == Refused(if cfg.skills.None? then NoSkillsConfigured else UnknownSkill))
  {
  }
}
