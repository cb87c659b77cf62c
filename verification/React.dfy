/** The ReAct loop, over an arbitrary stream of model replies and tool results. */
module React {
  import opened Messages
  import opened Hitl
  import opened Cycle
  import opened Wrappers
  import opened Results

  type ApprovalId = nat

  /** What the world does in one iteration: the reply, and the results that come
      back if its calls are run. */
  datatype Turn = Turn(reply: Reply, results: seq<ToolCallResult>)

  datatype Reply =
    | SchemaRejected               // a tool schema is not strict: nothing is sent
    | ModelFailed
    | Received(content: seq<ContentBlock>, passesGuardrail: bool)

  type World = nat -> Turn

  datatype RunError = Timeout | InvalidToolSchema | ModelError | OutputFiltered | InvalidResponse

  /** `asked` is the position of the call that the approver is shown. */
  datatype HitlInterrupt = HitlInterrupt(
    approval: ApprovalId, asked: nat, checkpoint: bool, history: seq<Message>, pending: seq<ToolCall>,
    activeTools: seq<string>)

  datatype StrategyOutcome = Finished(answer: string) | Interrupted(interrupt: HitlInterrupt) | Failure(error: RunError)

  /** What a run does to the outside, in order.  `turn` names the reply that a
      batch of calls came in. */
  datatype Event =
    | Sent(buffer: seq<Message>)
    | Executed(turn: nat, calls: seq<ToolCall>)

  datatype RunResult = RunResult(outcome: StrategyOutcome, events: seq<Event>, turns: nat)

  /** The settings that stay fixed through a run.  Without a hook it is the plain loop. */
  datatype RunConfig = RunConfig(hook: Option<Hook>, activeTools: seq<string>, maxIterations: nat, nudge: string,
                                 world: World) {
    predicate Intercepts(tool: string) { hook.Some? && hook.value.Intercepts(tool) }

    function RequiredTools(): set<string> { if hook.Some? then hook.value.RequiredToolNames() else {} }
  }

  /** Position of the first call that the hook stops. */
  function FirstIntercepted(cfg: RunConfig, calls: seq<ToolCall>): (at: Option<nat>)
    ensures at.Some? ==> at.value < |calls| && cfg.Intercepts(calls[at.value].name)
    ensures at.Some? ==> forall i | 0 <= i < at.value :: !cfg.Intercepts(calls[i].name)
    ensures at.None? ==> forall i | 0 <= i < |calls| :: !cfg.Intercepts(calls[i].name)
  {
    if calls == [] then None
    else if cfg.Intercepts(calls[0].name) then Some(0)
    else
      var rest := FirstIntercepted(cfg, calls[1..]);
      assert forall i | 0 < i < |calls| :: calls[i] == calls[1..][i - 1];
      if rest.Some? then Some(rest.value + 1) else None
  }

  predicate CallsRequired(cfg: RunConfig, calls: seq<ToolCall>) {
    exists i | 0 <= i < |calls| :: calls[i].name in cfg.RequiredTools()
  }

  function InterruptFor(cfg: RunConfig, calls: seq<ToolCall>, at: nat, buffer: seq<Message>,
        approval: ApprovalId): HitlInterrupt
    requires at < |calls|
  {
    HitlInterrupt(approval, at, IsCheckpointTool(calls[at].name), buffer, calls, cfg.activeTools)
  }

  /** The rest of a run: `called` once a mandatory tool was called, `turn` the next
      reply of the stream, `approval` the next fresh approval id. */
  function Run(cfg: RunConfig, buffer: seq<Message>, iteration: nat, called: bool, turn: nat,
        approval: ApprovalId): (r: RunResult)
    ensures r.outcome.Interrupted? ==> r.turns > 0
    decreases cfg.maxIterations - iteration
  {
    if iteration >= cfg.maxIterations then RunResult(Failure(Timeout), [], 0)
    else
      match cfg.world(turn).reply
      case SchemaRejected => RunResult(Failure(InvalidToolSchema), [], 1)
      case ModelFailed => RunResult(Failure(ModelError), [Sent(buffer)], 1)
      case Received(content, passes) =>
        if !passes then RunResult(Failure(OutputFiltered), [Sent(buffer)], 1)
        else
          match ActionOf(content)
          case Error => RunResult(Failure(InvalidResponse), [Sent(buffer)], 1)
          case Done(answer) =>
            if called then RunResult(Finished(answer), [Sent(buffer)], 1)
            else
              var more := [Message(Assistant, content), TextMessage(User, cfg.nudge)];
              var rest := Run(cfg, buffer + more, iteration + 1, called, turn + 1, approval);
              RunResult(rest.outcome, [Sent(buffer)] + rest.events, rest.turns + 1)
          case ToolCalls(calls) =>
            var stopped := FirstIntercepted(cfg, calls);
            if stopped.Some? then
              RunResult(Interrupted(InterruptFor(cfg, calls, stopped.value, buffer, approval)), [Sent(buffer)], 1)
            else
              var more := ToolExchange(content, cfg.world(turn).results);
              var called' := called || CallsRequired(cfg, calls);
              var rest := Run(cfg, buffer + more, iteration + 1, called', turn + 1, approval);
              RunResult(rest.outcome, [Sent(buffer), Executed(turn, calls)] + rest.events, rest.turns + 1)
  }

  /** `run_hitl` from its first line, and `run_with_active_tools` when there is no hook. */
  function RunFrom(cfg: RunConfig, rendered: Option<string>, messages: seq<Message>, turn: nat,
        approval: ApprovalId): (r: RunResult)
    ensures r.outcome.Interrupted? ==> r.turns > 0
  {
    Run(cfg, Prepared(rendered, messages), 0, cfg.RequiredTools() == {}, turn, approval)
  }

  /** All or nothing: the position of the first call that needs approval, or the results
      of running the whole batch, as they come in. */
  method ExecuteManyHitl(cfg: RunConfig, calls: seq<ToolCall>, turn: nat)
    returns (r: Result<seq<ToolCallResult>, nat>)
    ensures var stopped := FirstIntercepted(cfg, calls);
      r == if stopped.Some? then Err(stopped.value) else Ok(cfg.world(turn).results)
  {
    for i := 0 to |calls|
      invariant forall k | 0 <= k < i :: !cfg.Intercepts(calls[k].name)
    {
      if cfg.Intercepts(calls[i].name) { return Err(i); }
    }
    return Ok(cfg.world(turn).results);
  }

  /** A run that has produced `events` and goes on as `rest` makes `whole`. */
  ghost predicate Continues(whole: RunResult, events: seq<Event>, turns: nat, rest: RunResult) {
    whole == RunResult(rest.outcome, events + rest.events, turns + rest.turns)
  }

  lemma ContinuesAfter(whole: RunResult, events: seq<Event>, turns: nat, now: RunResult, step: seq<Event>,
        rest: RunResult)
    requires Continues(whole, events, turns, now)
    requires now == RunResult(rest.outcome, step + rest.events, rest.turns + 1)
    ensures Continues(whole, events + step, turns + 1, rest)
  {
    assert events + (step + rest.events) == (events + step) + rest.events;
  }

  lemma ContinuesToEnd(whole: RunResult, events: seq<Event>, turns: nat, now: RunResult)
    requires Continues(whole, events, turns, now)
    ensures now.events == [] ==> whole == RunResult(now.outcome, events, turns + now.turns)
  {
    assert events + [] == events;
  }

  lemma RunAfterTools(cfg: RunConfig, buffer: seq<Message>, iteration: nat, called: bool, turn: nat,
        approval: ApprovalId)
    requires iteration < cfg.maxIterations && cfg.world(turn).reply.Received? && cfg.world(turn).reply.passesGuardrail
    requires ActionOf(cfg.world(turn).reply.content).ToolCalls?
    requires FirstIntercepted(cfg, Calls(cfg.world(turn).reply.content)).None?
    ensures var content := cfg.world(turn).reply.content;
      var calls := Calls(content);
      var rest := Run(cfg, buffer + ToolExchange(content, cfg.world(turn).results), iteration + 1,
                      called || CallsRequired(cfg, calls), turn + 1, approval);
      Run(cfg, buffer, iteration, called, turn, approval)
        == RunResult(rest.outcome, [Sent(buffer), Executed(turn, calls)] + rest.events, rest.turns + 1)
  {
  }

  lemma RunAfterNudge(cfg: RunConfig, buffer: seq<Message>, iteration: nat, turn: nat, approval: ApprovalId)
    requires iteration < cfg.maxIterations && cfg.world(turn).reply.Received? && cfg.world(turn).reply.passesGuardrail
    requires ActionOf(cfg.world(turn).reply.content).Done?
    ensures var content := cfg.world(turn).reply.content;
      var rest := Run(cfg, buffer + [Message(Assistant, content), TextMessage(User, cfg.nudge)], iteration + 1,
                      false, turn + 1, approval);
      Run(cfg, buffer, iteration, false, turn, approval)
        == RunResult(rest.outcome, [Sent(buffer)] + rest.events, rest.turns + 1)
  {
  }

  /** What one iteration leads to: the end of the run, or the next iteration. */
  datatype Next =
    | Stop(outcome: StrategyOutcome, events: seq<Event>)
    | Go(buffer: seq<Message>, called: bool, events: seq<Event>)

  ghost predicate Leads(cfg: RunConfig, now: RunResult, next: Next, iteration: nat, turn: nat, approval: ApprovalId) {
    match next
    case Stop(outcome, events) => now == RunResult(outcome, events, 1)
    case Go(buffer, called, events) =>
      var rest := Run(cfg, buffer, iteration + 1, called, turn + 1, approval);
      now == RunResult(rest.outcome, events + rest.events, rest.turns + 1)
  }

  /** One iteration: a model call, then whatever the reply asks for. */
  method Iterate(cfg: RunConfig, buffer: seq<Message>, iteration: nat, called: bool, turn: nat,
        approval: ApprovalId) returns (next: Next)
    requires iteration < cfg.maxIterations
    ensures Leads(cfg, Run(cfg, buffer, iteration, called, turn, approval), next, iteration, turn, approval)
  {
    var reply := cfg.world(turn).reply;
    if reply.SchemaRejected? { return Stop(Failure(InvalidToolSchema), []); }
    if reply.ModelFailed? { return Stop(Failure(ModelError), [Sent(buffer)]); }
    if !reply.passesGuardrail { return Stop(Failure(OutputFiltered), [Sent(buffer)]); }
    var action := ActionFromResponse(reply.content);
    match action
    case ToolCalls(calls) => next := DispatchCalls(cfg, buffer, iteration, called, turn, approval);
    case Done(answer) =>
      if called { return Stop(Finished(answer), [Sent(buffer)]); }
      var buf := buffer + [Message(Assistant, reply.content)];
      buf := buf + [TextMessage(User, cfg.nudge)];
      assert buf == buffer + [Message(Assistant, reply.content), TextMessage(User, cfg.nudge)];
      RunAfterNudge(cfg, buffer, iteration, turn, approval);
      return Go(buf, false, [Sent(buffer)]);
    case Error => return Stop(Failure(InvalidResponse), [Sent(buffer)]);
  }

  /** A batch of calls: all of it runs, or none of it and the run is interrupted with
      the buffer as it was before the reply. */
  method DispatchCalls(cfg: RunConfig, buffer: seq<Message>, iteration: nat, called: bool, turn: nat,
        approval: ApprovalId) returns (next: Next)
    requires iteration < cfg.maxIterations && cfg.world(turn).reply.Received? && cfg.world(turn).reply.passesGuardrail
    requires ActionOf(cfg.world(turn).reply.content).ToolCalls?
    ensures Leads(cfg, Run(cfg, buffer, iteration, called, turn, approval), next, iteration, turn, approval)
  {
    var content := cfg.world(turn).reply.content;
    var calls := Calls(content);
    var required := cfg.RequiredTools();
    var requiredToolCalled := called;
    if !requiredToolCalled {
      requiredToolCalled := exists i | 0 <= i < |calls| :: calls[i].name in required;
    }
    var buf := buffer + [Message(Assistant, content)];
    var executed := ExecuteManyHitl(cfg, calls, turn);
    if executed.Err? {
      var asked := executed.error;
      var interrupt := HitlInterrupt(approval, asked, calls[asked].name == "request_checkpoint", buffer, calls,
                                     cfg.activeTools);
      return Stop(Interrupted(interrupt), [Sent(buffer)]);
    }
    var results := ReconcileAndOrderResults(executed.value, calls);
    var blocks := ResultsToToolResultBlocks(results);
    buf := buf + [Message(Tool, blocks)];
    assert buf == buffer + ToolExchange(content, cfg.world(turn).results);
    RunAfterTools(cfg, buffer, iteration, called, turn, approval);
    return Go(buf, requiredToolCalled, [Sent(buffer), Executed(turn, calls)]);
  }

  method RunHitl(cfg: RunConfig, rendered: Option<string>, messages: seq<Message>, start: nat, approval: ApprovalId)
    returns (outcome: StrategyOutcome, events: seq<Event>, turns: nat)
    ensures RunResult(outcome, events, turns) == RunFrom(cfg, rendered, messages, start, approval)
  {
    var buf := PrepareBuffer(rendered, messages);
    var iteration := 0;
    var requiredToolCalled := cfg.RequiredTools() == {};
    events, turns := [], 0;
    ghost var whole := RunFrom(cfg, rendered, messages, start, approval);
    assert [] + whole.events == whole.events;

    var turn := start;
    while true
      invariant turn == start + turns
      invariant Continues(whole, events, turns, Run(cfg, buf, iteration, requiredToolCalled, turn, approval))
      decreases cfg.maxIterations - iteration
    {
      ghost var now := Run(cfg, buf, iteration, requiredToolCalled, turn, approval);
      if iteration >= cfg.maxIterations {
        ContinuesToEnd(whole, events, turns, now);
        return Failure(Timeout), events, turns;
      }
      var next := Iterate(cfg, buf, iteration, requiredToolCalled, turn, approval);
      if next.Stop? {
        return next.outcome, events + next.events, turns + 1;
      }
      IterationContinues(cfg, whole, events, turns, now, next, iteration, turn, approval);
      buf, requiredToolCalled, events := next.buffer, next.called, events + next.events;
      iteration, turns, turn := iteration + 1, turns + 1, turn + 1;
    }
  }

  lemma {:induction false} IterationContinues(cfg: RunConfig, whole: RunResult, events: seq<Event>, turns: nat,
        now: RunResult, next: Next, iteration: nat, turn: nat, approval: ApprovalId)
    requires Continues(whole, events, turns, now) && next.Go? && Leads(cfg, now, next, iteration, turn, approval)
    ensures Continues(whole, events + next.events, turns + 1,
                      Run(cfg, next.buffer, iteration + 1, next.called, turn + 1, approval))
  {
    ContinuesAfter(whole, events, turns, now, next.events,
                   Run(cfg, next.buffer, iteration + 1, next.called, turn + 1, approval));
  }
}
