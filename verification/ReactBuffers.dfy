/** What a run shows the model, buffer after buffer. */
module ReactBuffers {
  import opened Messages
  import opened Cycle
  import opened React
  import opened Text
  import opened Wrappers

  // ---- the answer to one call ----

  /** The result of call i got lost on the way. */
  predicate Lost(calls: seq<ToolCall>, outcomes: seq<ToolOutcome>, results: seq<ToolCallResult>, i: nat)
    requires i < |calls| == |outcomes|
  {
    ToolCallResult(calls[i].id, calls[i].name, outcomes[i]) !in results
  }

  /** Block i tells the outcome of call i: the value, the error, or that nothing came back. */
  predicate Tells(calls: seq<ToolCall>, outcomes: seq<ToolOutcome>, results: seq<ToolCallResult>,
        content: seq<ContentBlock>, i: nat)
    requires i < |calls| == |outcomes|
  {
    && i < |content| && content[i].ToolResult? && content[i].toolUseId == calls[i].id
    && (content[i].isError <==> Lost(calls, outcomes, results, i) || outcomes[i].Failed?)
    && content[i].content
       == if Lost(calls, outcomes, results, i)
          then "Execution failed: tool execution failed (no result returned)"
          else match outcomes[i] case Returned(value) => value case Failed(error) => error
  }

  predicate TellsAll(calls: seq<ToolCall>, outcomes: seq<ToolOutcome>, results: seq<ToolCallResult>,
        content: seq<ContentBlock>)
    requires |calls| == |outcomes|
  {
    |content| == |calls| && forall i: nat | i < |calls| :: Tells(calls, outcomes, results, content, i)
  }

  ghost predicate DistinctIds(calls: seq<ToolCall>) {
    forall a, b | 0 <= a < b < |calls| :: calls[a].id != calls[b].id
  }

  /** `later` is `before` and then the reply and what became of its calls. */
  ghost predicate ToldAfter(before: seq<Message>, content: seq<ContentBlock>, results: seq<ToolCallResult>,
        later: seq<Message>) {
    var n, calls := |before|, Calls(content);
    && |later| == n + 2 && later[..n] == before && later[n] == Message(Assistant, content)
    && later[n + 1].role == Tool
    && forall outcomes | |outcomes| == |calls| && DistinctIds(calls) && SomeResultsOf(calls, outcomes, results) ::
         TellsAll(calls, outcomes, results, later[n + 1].content)
  }

  lemma BlocksTellAll(calls: seq<ToolCall>, outcomes: seq<ToolOutcome>, results: seq<ToolCallResult>)
    requires |outcomes| == |calls| && DistinctIds(calls) && SomeResultsOf(calls, outcomes, results)
    ensures TellsAll(calls, outcomes, results, ResultBlocks(Reconciled(results, calls)))
  {
    forall i: nat | i < |calls| ensures Tells(calls, outcomes, results, ResultBlocks(Reconciled(results, calls)), i) {
      ReconciledAnswersEachCall(calls, outcomes, results, i);
    }
  }

  lemma ExchangeTells(before: seq<Message>, content: seq<ContentBlock>, results: seq<ToolCallResult>)
    ensures ToldAfter(before, content, results, before + ToolExchange(content, results))
  {
    var n, calls, later := |before|, Calls(content), before + ToolExchange(content, results);
    forall outcomes | |outcomes| == |calls| && DistinctIds(calls) && SomeResultsOf(calls, outcomes, results)
      ensures TellsAll(calls, outcomes, results, later[n + 1].content)
    {
      BlocksTellAll(calls, outcomes, results);
    }
  }

  // ---- from one buffer to the next ----

  /** `later` is `before`, then a text that answered too early, and the reminder. */
  predicate RemindedAfter(cfg: RunConfig, before: seq<Message>, later: seq<Message>) {
    var n := |before|;
    && |later| == n + 2 && later[..n] == before
    && later[n].role == Assistant && Calls(later[n].content) == []
    && later[n + 1] == Message(User, [Text(cfg.nudge)])
  }

  /** Event k is a batch of calls, sent for by the event before it; or a buffer, and then
      the one before it grew by what happened in between. */
  ghost predicate ShownAt(cfg: RunConfig, events: seq<Event>, k: nat)
    requires k < |events|
  {
    match events[k]
    case Executed(turn, calls) =>
      k > 0 && events[k - 1].Sent? && cfg.world(turn).reply.Received? && calls == Calls(cfg.world(turn).reply.content)
    case Sent(later) =>
      || k == 0
      || (events[k - 1].Sent? && RemindedAfter(cfg, events[k - 1].buffer, later))
      || (&& k > 1 && events[k - 1].Executed? && events[k - 2].Sent?
          && var turn := cfg.world(events[k - 1].turn);
             turn.reply.Received? && ToldAfter(events[k - 2].buffer, turn.reply.content, turn.results, later))
  }

  ghost predicate AllShown(cfg: RunConfig, events: seq<Event>) {
    forall k: nat | k < |events| :: ShownAt(cfg, events, k)
  }

  ghost predicate StartsWith(events: seq<Event>, buffer: seq<Message>) {
    events != [] ==> events[0] == Sent(buffer)
  }

  lemma {:induction false} RunStartsWithItsBuffer(cfg: RunConfig, buffer: seq<Message>, iteration: nat, called: bool,
        turn: nat, approval: ApprovalId)
    ensures StartsWith(Run(cfg, buffer, iteration, called, turn, approval).events, buffer)
  {
  }

  lemma ShownLater(cfg: RunConfig, step: seq<Event>, rest: seq<Event>, k: nat)
    requires 0 < k < |rest| && ShownAt(cfg, rest, k)
    ensures ShownAt(cfg, step + rest, |step| + k)
  {
    var all := step + rest;
    assert all[|step| + k] == rest[k] && all[|step| + k - 1] == rest[k - 1];
    if k > 1 { assert all[|step| + k - 2] == rest[k - 2]; }
  }

  lemma ShownAfterTools(cfg: RunConfig, buffer: seq<Message>, turn: nat, rest: seq<Event>)
    requires cfg.world(turn).reply.Received? && AllShown(cfg, rest)
    requires var content := cfg.world(turn).reply.content;
      StartsWith(rest, buffer + ToolExchange(content, cfg.world(turn).results))
    ensures AllShown(cfg, [Sent(buffer), Executed(turn, Calls(cfg.world(turn).reply.content))] + rest)
  {
    var content := cfg.world(turn).reply.content;
    var step := [Sent(buffer), Executed(turn, Calls(content))];
    ExchangeTells(buffer, content, cfg.world(turn).results);
    forall k: nat | k < |step + rest| ensures ShownAt(cfg, step + rest, k) {
      if k > 2 { ShownLater(cfg, step, rest, k - 2); }
    }
  }

  lemma {:induction false} ShownAfterText(cfg: RunConfig, buffer: seq<Message>, content: seq<ContentBlock>,
        rest: seq<Event>)
    requires Calls(content) == [] && AllShown(cfg, rest)
    requires StartsWith(rest, buffer + [Message(Assistant, content), TextMessage(User, cfg.nudge)])
    ensures AllShown(cfg, [Sent(buffer)] + rest)
  {
    forall k: nat | k < |[Sent(buffer)] + rest| ensures ShownAt(cfg, [Sent(buffer)] + rest, k) {
      if k > 1 { ShownLater(cfg, [Sent(buffer)], rest, k - 1); }
    }
  }

  lemma {:induction false} RunShows(cfg: RunConfig, buffer: seq<Message>, iteration: nat, called: bool, turn: nat,
        approval: ApprovalId)
    ensures AllShown(cfg, Run(cfg, buffer, iteration, called, turn, approval).events)
    decreases cfg.maxIterations - iteration, 1
  {
    if iteration < cfg.maxIterations && cfg.world(turn).reply.Received? && cfg.world(turn).reply.passesGuardrail {
      var action := ActionOf(cfg.world(turn).reply.content);
      if action.ToolCalls? && FirstIntercepted(cfg, action.calls).None? {
        RunShowsTools(cfg, buffer, iteration, called, turn, approval);
      } else if action.Done? && !called {
        RunShowsText(cfg, buffer, iteration, turn, approval);
      }
    }
  }

  lemma {:induction false} RunShowsTools(cfg: RunConfig, buffer: seq<Message>, iteration: nat, called: bool,
        turn: nat, approval: ApprovalId)
    requires iteration < cfg.maxIterations && cfg.world(turn).reply.Received? && cfg.world(turn).reply.passesGuardrail
    requires var action := ActionOf(cfg.world(turn).reply.content);
      action.ToolCalls? && FirstIntercepted(cfg, action.calls).None?
    ensures AllShown(cfg, Run(cfg, buffer, iteration, called, turn, approval).events)
    decreases cfg.maxIterations - iteration, 0
  {
    var content := cfg.world(turn).reply.content;
    var next := buffer + ToolExchange(content, cfg.world(turn).results);
    var calledNow := called || CallsRequired(cfg, Calls(content));
    RunShows(cfg, next, iteration + 1, calledNow, turn + 1, approval);
    RunAfterTools(cfg, buffer, iteration, called, turn, approval);
    RunStartsWithItsBuffer(cfg, next, iteration + 1, calledNow, turn + 1, approval);
    ShownAfterTools(cfg, buffer, turn, Run(cfg, next, iteration + 1, calledNow, turn + 1, approval).events);
  }

  lemma {:induction false} RunShowsText(cfg: RunConfig, buffer: seq<Message>, iteration: nat, turn: nat,
        approval: ApprovalId)
    requires iteration < cfg.maxIterations && cfg.world(turn).reply.Received? && cfg.world(turn).reply.passesGuardrail
    requires ActionOf(cfg.world(turn).reply.content).Done?
    ensures AllShown(cfg, Run(cfg, buffer, iteration, false, turn, approval).events)
    decreases cfg.maxIterations - iteration, 0
  {
    var content := cfg.world(turn).reply.content;
    var next := buffer + [Message(Assistant, content), TextMessage(User, cfg.nudge)];
    RunShows(cfg, next, iteration + 1, false, turn + 1, approval);
    RunAfterNudge(cfg, buffer, iteration, turn, approval);
    RunStartsWithItsBuffer(cfg, next, iteration + 1, false, turn + 1, approval);
    ShownAfterText(cfg, buffer, content, Run(cfg, next, iteration + 1, false, turn + 1, approval).events);
  }

  /** Over a whole run, each buffer is the one before it and what happened in between: the
      reply with its calls and the outcome of each call, or the text and the reminder. */
  lemma EveryOutcomeIsShown(cfg: RunConfig, rendered: Option<string>, messages: seq<Message>, turn: nat,
        approval: ApprovalId)
    ensures AllShown(cfg, RunFrom(cfg, rendered, messages, turn, approval).events)
  {
    RunShows(cfg, Prepared(rendered, messages), 0, cfg.RequiredTools() == {}, turn, approval);
  }

  // ---- the first buffer ----

  /** `buffer` is `messages`, with the preamble before the first message that is not a
      system message if there is a preamble to show. */
  ghost predicate WithPreamble(rendered: Option<string>, messages: seq<Message>, buffer: seq<Message>) {
    if rendered.None? || IsBlankText(rendered.value) then buffer == messages
    else exists at: nat | at <= |messages| :: PreambleAt(rendered.value, messages, buffer, at)
  }

  predicate IsBlankText(text: string) {
    forall c | c in text :: IsWhitespace(c)
  }

  predicate PreambleAt(preamble: string, messages: seq<Message>, buffer: seq<Message>, at: nat)
    requires at <= |messages|
  {
    && buffer == messages[..at] + [Message(User, [Text(preamble)])] + messages[at..]
    && (forall i | 0 <= i < at :: messages[i].role == System)
    && (if forall m | m in messages :: m.role == System then at == 0
        else at < |messages| && messages[at].role != System)
  }

  lemma PreparedIsWithPreamble(rendered: Option<string>, messages: seq<Message>)
    ensures WithPreamble(rendered, messages, Prepared(rendered, messages))
  {
    if rendered.Some? && !IsBlankText(rendered.value) {
      var at := FirstNonSystem(messages);
      assert forall i | 0 <= i < at :: messages[i] == messages[..at][i];
      assert PreambleAt(rendered.value, messages, Prepared(rendered, messages), at);
    }
  }

  /** A run that asks the model at all first sends its messages, with the preamble. */
  lemma RunsStartWithTheirMessages(cfg: RunConfig, rendered: Option<string>, messages: seq<Message>, turn: nat,
        approval: ApprovalId)
    ensures var events := RunFrom(cfg, rendered, messages, turn, approval).events;
      && (events != [] <==> cfg.maxIterations > 0 && !cfg.world(turn).reply.SchemaRejected?)
      && (events != [] ==> events[0].Sent? && WithPreamble(rendered, messages, events[0].buffer))
  {
    PreparedIsWithPreamble(rendered, messages);
    RunSendsItsBuffer(cfg, Prepared(rendered, messages), cfg.RequiredTools() == {}, turn, approval);
  }

  lemma {:induction false} RunSendsItsBuffer(cfg: RunConfig, buffer: seq<Message>, called: bool, turn: nat,
        approval: ApprovalId)
    ensures var events := Run(cfg, buffer, 0, called, turn, approval).events;
      && (events != [] <==> cfg.maxIterations > 0 && !cfg.world(turn).reply.SchemaRejected?)
      && (events != [] ==> events[0] == Sent(buffer))
  {
  }

  // ---- how a run ends ----

  /** `texts` are texts of the reply that say something, in order; `at` are their positions. */
  ghost predicate PickedAt(content: seq<ContentBlock>, texts: seq<string>, at: seq<nat>) {
    && |at| == |texts| && (forall i, j | 0 <= i < j < |at| :: at[i] < at[j])
    && (forall i | 0 <= i < |at| :: at[i] < |content| && content[at[i]] == Text(texts[i]) && SaysSomething(texts[i]))
  }

  ghost predicate PickedAll(content: seq<ContentBlock>, at: seq<nat>) {
    forall p: nat | p < |content| && content[p].Text? && SaysSomething(content[p].text) :: p in at
  }

  predicate SaysSomething(text: string) {
    exists c | c in text :: !IsWhitespace(c)
  }

  /** `answer` is every text of the reply that says something, in order, one to a line. */
  ghost predicate IsTheAnswerOf(content: seq<ContentBlock>, answer: string) {
    && (forall b | b in content :: !b.ToolUse?)
    && exists texts, at ::
         texts != [] && PickedAt(content, texts, at) && PickedAll(content, at) && answer == Join(texts, "\n")
  }

  /** Positions in the rest of a reply, one further on. */
  function Later(at: seq<nat>): (later: seq<nat>)
    ensures |later| == |at| && forall i | 0 <= i < |at| :: later[i] == at[i] + 1
  {
    seq(|at|, i requires 0 <= i < |at| => at[i] + 1)
  }

  lemma PickedLater(content: seq<ContentBlock>, texts: seq<string>, at: seq<nat>)
    requires content != [] && PickedAt(content[1..], texts, at)
    ensures PickedAt(content, texts, Later(at))
  {
    assert forall i | 0 <= i < |at| :: content[at[i] + 1] == content[1..][at[i]];
  }

  lemma PickedFirst(content: seq<ContentBlock>, texts: seq<string>, at: seq<nat>)
    requires content != [] && content[0].Text? && SaysSomething(content[0].text)
    requires PickedAt(content, texts, at) && forall i | 0 <= i < |at| :: at[i] > 0
    ensures PickedAt(content, [content[0].text] + texts, [0] + at)
  {
  }

  lemma PickedAllLater(content: seq<ContentBlock>, at: seq<nat>)
    requires content != [] && PickedAll(content[1..], at)
    ensures forall p: nat | 0 < p < |content| && content[p].Text? && SaysSomething(content[p].text) :: p in Later(at)
  {
    forall p: nat | 0 < p < |content| && content[p].Text? && SaysSomething(content[p].text) ensures p in Later(at) {
      assert content[1..][p - 1] == content[p] && p - 1 in at;
      var i :| 0 <= i < |at| && at[i] == p - 1;
      assert Later(at)[i] == p;
    }
  }

  lemma {:induction false} SpokenPositions(content: seq<ContentBlock>) returns (at: seq<nat>)
    ensures PickedAt(content, Spoken(content), at) && PickedAll(content, at)
  {
    if content == [] { return []; }
    var rest := SpokenPositions(content[1..]);
    var texts := Spoken(content[1..]);
    PickedLater(content, texts, rest);
    PickedAllLater(content, rest);
    at := Later(rest);
    if content[0].Text? && SaysSomething(content[0].text) {
      PickedFirst(content, texts, at);
      at := [0] + at;
    }
  }

  lemma {:induction false} NoCallsNoUses(content: seq<ContentBlock>)
    requires Calls(content) == []
    ensures forall b | b in content :: !b.ToolUse?
  {
    if content != [] { NoCallsNoUses(content[1..]); }
  }

  lemma DoneIsTheAnswer(content: seq<ContentBlock>)
    requires ActionOf(content).Done?
    ensures IsTheAnswerOf(content, ActionOf(content).answer)
  {
    NoCallsNoUses(content);
    var at := SpokenPositions(content);
    assert PickedAt(content, Spoken(content), at);
  }

  /** A run that starts at reply `turn` ends on the last buffer it sent: an interrupt keeps
      that buffer, an answer is what the reply to it says. */
  ghost predicate EndsOnItsLastBuffer(cfg: RunConfig, r: RunResult, turn: nat) {
    r.outcome.Failure?
    || (&& r.turns > 0 && r.events != [] && r.events[|r.events| - 1].Sent?
        && (r.outcome.Interrupted? ==> r.outcome.interrupt.history == r.events[|r.events| - 1].buffer)
        && (r.outcome.Finished? ==>
              && cfg.world(turn + r.turns - 1).reply.Received?
              && IsTheAnswerOf(cfg.world(turn + r.turns - 1).reply.content, r.outcome.answer)))
  }

  lemma EndsLater(cfg: RunConfig, r: RunResult, step: seq<Event>, rest: RunResult, turn: nat)
    requires r == RunResult(rest.outcome, step + rest.events, rest.turns + 1)
    requires EndsOnItsLastBuffer(cfg, rest, turn + 1)
    ensures EndsOnItsLastBuffer(cfg, r, turn)
  {
  }

  lemma {:induction false} RunEndsOnItsLastBuffer(cfg: RunConfig, buffer: seq<Message>, iteration: nat, called: bool,
        turn: nat, approval: ApprovalId)
    ensures EndsOnItsLastBuffer(cfg, Run(cfg, buffer, iteration, called, turn, approval), turn)
    decreases cfg.maxIterations - iteration
  {
    if iteration < cfg.maxIterations && cfg.world(turn).reply.Received? && cfg.world(turn).reply.passesGuardrail {
      var content, r := cfg.world(turn).reply.content, Run(cfg, buffer, iteration, called, turn, approval);
      match ActionOf(content)
      case ToolCalls(calls) =>
        if FirstIntercepted(cfg, calls).None? {
          var next := buffer + ToolExchange(content, cfg.world(turn).results);
          var calledNow := called || CallsRequired(cfg, calls);
          RunEndsOnItsLastBuffer(cfg, next, iteration + 1, calledNow, turn + 1, approval);
          EndsLater(cfg, r, [Sent(buffer), Executed(turn, calls)],
                    Run(cfg, next, iteration + 1, calledNow, turn + 1, approval), turn);
        }
      case Done(_) =>
        if called {
          DoneIsTheAnswer(content);
        } else {
          var next := buffer + [Message(Assistant, content), TextMessage(User, cfg.nudge)];
          RunEndsOnItsLastBuffer(cfg, next, iteration + 1, called, turn + 1, approval);
          EndsLater(cfg, r, [Sent(buffer)], Run(cfg, next, iteration + 1, called, turn + 1, approval), turn);
        }
      case Error =>
    }
  }
}
