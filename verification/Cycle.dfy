/** What every strategy shares: reading a reply, ordering tool results, preparing the first buffer. */
module Cycle {
  import opened Text
  import opened Messages
  import opened Wrappers

  // ---- reading a reply ----

  datatype CycleAction = ToolCalls(calls: seq<ToolCall>) | Done(answer: string) | Error

  /** The texts of a reply that say something. */
  function Spoken(content: seq<ContentBlock>): seq<string> {
    if content == [] then []
    else if content[0].Text? && !IsBlank(content[0].text) then [content[0].text] + Spoken(content[1..])
    else Spoken(content[1..])
  }

  function ActionOf(content: seq<ContentBlock>): CycleAction {
    if Calls(content) != [] then ToolCalls(Calls(content))
    else if Spoken(content) != [] then Done(Join(Spoken(content), "\n"))
    else Error
  }

  method ActionFromResponse(content: seq<ContentBlock>) returns (action: CycleAction)
    ensures action == ActionOf(content)
  {
    var calls: seq<ToolCall> := [];
    var textParts: seq<string> := [];
    for i := 0 to |content|
      invariant calls + Calls(content[i..]) == Calls(content)
      invariant textParts + Spoken(content[i..]) == Spoken(content)
    {
      assert content[i..][1..] == content[i + 1..];
      match content[i]
      case ToolUse(id, name, input) => calls := calls + [ToolCall(id, name, input)];
      case Text(text) => if !IsBlank(text) { textParts := textParts + [text]; }
      case ToolResult(_, _, _) =>
    }
    assert content[|content|..] == [];
    assert calls + [] == calls && textParts + [] == textParts;
    if calls != [] { return ToolCalls(calls); }
    if textParts != [] { return Done(Join(textParts, "\n")); }
    return Error;
  }

  // ---- results back in order ----

  const NO_RESULT := Failed("Execution failed: tool execution failed (no result returned)")

  /** The last result that carries `id`. */
  function LastResult(results: seq<ToolCallResult>, id: string): Option<ToolCallResult> {
    if results == [] then None
    else if results[|results| - 1].id == id then Some(results[|results| - 1])
    else LastResult(results[..|results| - 1], id)
  }

  /** Each call takes the result that carries its id, once; a call left without
      one is answered by an error. */
  method ReconcileAndOrderResults(results: seq<ToolCallResult>, calls: seq<ToolCall>)
    returns (ordered: seq<ToolCallResult>)
    ensures ordered == Reconciled(results, calls)
  {
    var byId: map<string, ToolCallResult> := map[];
    for i := 0 to |results|
      invariant ById(byId, results[..i])
    {
      assert results[..i + 1][..i] == results[..i];
      byId := byId[results[i].id := results[i]];
    }
    assert results[..|results|] == results;
    ordered := [];
    for i := 0 to |calls|
      invariant |ordered| == i
      invariant forall k | 0 <= k < i :: ordered[k] == Reconciled(results, calls)[k]
      invariant forall id | id in byId :: LastResult(results, id) == Some(byId[id])
      invariant forall id :: id in byId <==> LastResult(results, id).Some? && !CallsId(calls[..i], id)
    {
      var call := calls[i];
      assert calls[..i + 1] == calls[..i] + [call];
      if call.id in byId {
        ordered := ordered + [byId[call.id]];
        byId := byId - {call.id};
      } else {
        var error := Failed("Execution failed: tool execution failed (no result returned)");
        ordered := ordered + [ToolCallResult(call.id, call.name, error)];
      }
    }
  }

  ghost predicate ById(byId: map<string, ToolCallResult>, results: seq<ToolCallResult>) {
    forall id :: LastResult(results, id) == if id in byId then Some(byId[id]) else None
  }

  predicate CallsId(calls: seq<ToolCall>, id: string) {
    exists i | 0 <= i < |calls| :: calls[i].id == id
  }

  function Reconciled(results: seq<ToolCallResult>, calls: seq<ToolCall>): (ordered: seq<ToolCallResult>)
    ensures |ordered| == |calls|
  {
    seq(|calls|, i requires 0 <= i < |calls| =>
      var found := LastResult(results, calls[i].id);
      if found.Some? && !CallsId(calls[..i], calls[i].id) then found.value
      else ToolCallResult(calls[i].id, calls[i].name, NO_RESULT))
  }

  lemma {:induction false} LastResultHasId(results: seq<ToolCallResult>, id: string)
    ensures LastResult(results, id).Some?
      ==> LastResult(results, id).value.id == id && LastResult(results, id).value in results
    ensures LastResult(results, id).None? <==> forall i | 0 <= i < |results| :: results[i].id != id
  {
    if results != [] { LastResultHasId(results[..|results| - 1], id); }
  }

  /** What running the calls concurrently can return: some of their results, in any
      order; a result is lost when its task fails. */
  ghost predicate SomeResultsOf(calls: seq<ToolCall>, outcomes: seq<ToolOutcome>, results: seq<ToolCallResult>)
    requires |outcomes| == |calls|
  {
    forall r | r in results :: exists i | 0 <= i < |calls| ::
      r == ToolCallResult(calls[i].id, calls[i].name, outcomes[i])
  }

  /** However the results come back, call i is answered by its own result, or by
      an error when its result was lost. */
  lemma ReconciledAnswersEachCall(calls: seq<ToolCall>, outcomes: seq<ToolOutcome>, results: seq<ToolCallResult>,
        i: nat)
    requires |outcomes| == |calls| && SomeResultsOf(calls, outcomes, results)
    requires forall a, b | 0 <= a < b < |calls| :: calls[a].id != calls[b].id
    requires i < |calls|
    ensures var own := ToolCallResult(calls[i].id, calls[i].name, outcomes[i]);
      Reconciled(results, calls)[i]
        == if own in results then own else ToolCallResult(calls[i].id, calls[i].name, NO_RESULT)
  {
    var own := ToolCallResult(calls[i].id, calls[i].name, outcomes[i]);
    var found := LastResult(results, calls[i].id);
    LastResultHasId(results, calls[i].id);
    if found.Some? {
      var j :| 0 <= j < |calls| && found.value == ToolCallResult(calls[j].id, calls[j].name, outcomes[j]);
      assert j == i;
    }
  }

  function ResultBlocks(results: seq<ToolCallResult>): seq<ContentBlock> {
    seq(|results|, i requires 0 <= i < |results| =>
      match results[i].outcome
      case Returned(value) => ToolResult(results[i].id, value, false)
      case Failed(error) => ToolResult(results[i].id, error, true))
  }

  method ResultsToToolResultBlocks(results: seq<ToolCallResult>) returns (blocks: seq<ContentBlock>)
    ensures blocks == ResultBlocks(results)
  {
    blocks := [];
    for i := 0 to |results|
      invariant |blocks| == i && forall k | 0 <= k < i :: blocks[k] == ResultBlocks(results)[k]
    {
      var content, isError;
      match results[i].outcome {
        case Returned(value) => content, isError := value, false;
        case Failed(error) => content, isError := error, true;
      }
      blocks := blocks + [ToolResult(results[i].id, content, isError)];
    }
  }

  /** The turn that the loop pushes after running the calls of a reply. */
  function ToolExchange(content: seq<ContentBlock>, results: seq<ToolCallResult>): seq<Message> {
    [Message(Assistant, content), Message(Tool, ResultBlocks(Reconciled(results, Calls(content))))]
  }

  /** Whatever execution returned, the exchange is well paired. */
  lemma {:induction false} ToolExchangeWellPaired(content: seq<ContentBlock>, results: seq<ToolCallResult>)
    requires NoResults(content) && Calls(content) != []
    ensures WellPaired(ToolExchange(content, results))
  {
    var calls := Calls(content);
    var blocks := ResultBlocks(Reconciled(results, calls));
    forall i | 0 <= i < |blocks| ensures blocks[i].ToolResult? && blocks[i].toolUseId == calls[i].id {
      LastResultHasId(results, calls[i].id);
    }
    assert Answers(Message(Assistant, content), Message(Tool, blocks));
  }

  // ---- the first buffer ----

  predicate AllSystem(messages: seq<Message>) {
    forall i | 0 <= i < |messages| :: messages[i].role == System
  }

  /** `position` of the first message that is not a system message; 0 if there is none. */
  function FirstNonSystem(messages: seq<Message>): (position: nat)
    ensures position <= |messages|
    ensures position < |messages| && !AllSystem(messages) ==> messages[position].role != System
    ensures AllSystem(messages[..position])
    ensures AllSystem(messages) ==> position == 0
  {
    if AllSystem(messages) then 0 else LeadingSystem(messages)
  }

  function LeadingSystem(messages: seq<Message>): (n: nat)
    ensures n <= |messages|
    ensures n < |messages| ==> messages[n].role != System
    ensures forall i | 0 <= i < n :: messages[i].role == System
  {
    if messages == [] || messages[0].role != System then 0
    else
      var rest := LeadingSystem(messages[1..]);
      assert forall i | 0 < i < rest + 1 :: messages[i] == messages[1..][i - 1];
      rest + 1
  }

  /** `rendered` is the preamble, if a template is registered and renders. */
  function Prepared(rendered: Option<string>, messages: seq<Message>): seq<Message> {
    if rendered.None? || IsBlank(rendered.value) then messages
    else
      var at := FirstNonSystem(messages);
      messages[..at] + [TextMessage(User, rendered.value)] + messages[at..]
  }

  method PrepareBuffer(rendered: Option<string>, messages: seq<Message>) returns (buffer: seq<Message>)
    ensures buffer == Prepared(rendered, messages)
  {
    buffer := messages;
    if rendered.Some? && !IsBlank(rendered.value) {
      var position := 0;
      while position < |buffer| && buffer[position].role == System
        invariant position <= |buffer| && AllSystem(buffer[..position])
      {
        position := position + 1;
      }
      if position == |buffer| { position := 0; }
      assert position == FirstNonSystem(messages);
      buffer := buffer[..position] + [TextMessage(User, rendered.value)] + buffer[position..];
    }
  }

  /** The preamble never comes between a tool turn and its answer. */
  lemma PreparedWellPaired(rendered: Option<string>, messages: seq<Message>, buffer: seq<Message>)
    requires WellPaired(messages) && buffer == Prepared(rendered, messages)
    ensures WellPaired(buffer)
  {
    if rendered.Some? && !IsBlank(rendered.value) {
      var at := FirstNonSystem(messages);
      if at > 0 {
        assert messages[..at][at - 1].role == System;
      }
      WellPairedPrefix(messages, at);
      WellPairedSuffix(messages, at);
      TextMessageWellPaired(User, rendered.value);
      WellPairedAppend(messages[..at], [TextMessage(User, rendered.value)]);
      WellPairedAppend(messages[..at] + [TextMessage(User, rendered.value)], messages[at..]);
    }
  }

  /** Taking the preamble out again gives the messages back. */
  lemma PreparedKeepsMessages(rendered: Option<string>, messages: seq<Message>)
    requires rendered.Some? && !IsBlank(rendered.value)
    ensures var at := FirstNonSystem(messages);
      var buffer := Prepared(rendered, messages);
      && |buffer| == |messages| + 1 && buffer[at] == TextMessage(User, rendered.value)
      && buffer[..at] + buffer[at + 1..] == messages
  {
  }
}
