/** Conversations with a model, and what it takes for one to be well paired. */
module Messages {
  import opened Json

  datatype Role = System | User | Assistant | Tool

  datatype ContentBlock =
    | Text(text: string)
    | ToolUse(id: string, name: string, input: Json)
    | ToolResult(toolUseId: string, content: string, isError: bool)

  datatype Message = Message(role: Role, content: seq<ContentBlock>)

  datatype ToolCall = ToolCall(id: string, name: string, args: Json)

  /** The returned value, or the error, as they are displayed. */
  datatype ToolOutcome = Returned(value: string) | Failed(error: string)

  datatype ToolCallResult = ToolCallResult(id: string, name: string, outcome: ToolOutcome)

  function TextMessage(role: Role, text: string): Message {
    Message(role, [Text(text)])
  }

  /** The tool calls of an assistant turn, in order. */
  function Calls(content: seq<ContentBlock>): seq<ToolCall> {
    if content == [] then []
    else if content[0].ToolUse? then
      [ToolCall(content[0].id, content[0].name, content[0].input)] + Calls(content[1..])
    else Calls(content[1..])
  }

  predicate OnlyResults(content: seq<ContentBlock>) {
    forall i | 0 <= i < |content| :: content[i].ToolResult?
  }

  predicate NoResults(content: seq<ContentBlock>) {
    forall i | 0 <= i < |content| :: !content[i].ToolResult?
  }

  predicate OnlyText(content: seq<ContentBlock>) {
    forall i | 0 <= i < |content| :: content[i].Text?
  }

  predicate IsToolTurn(m: Message) {
    m.role == Assistant && Calls(m.content) != []
  }

  /** `reply` is the one message that answers every call of `turn`, in order. */
  predicate Answers(turn: Message, reply: Message) {
    && reply.role == Tool && OnlyResults(reply.content)
    && |reply.content| == |Calls(turn.content)|
    && forall i | 0 <= i < |reply.content| :: reply.content[i].toolUseId == Calls(turn.content)[i].id
  }

  /** Blocks only where the wire protocols allow them. */
  predicate RightBlocks(m: Message) {
    match m.role
    case Tool => OnlyResults(m.content)
    case Assistant => NoResults(m.content)
    case _ => OnlyText(m.content)
  }

  /** Every tool turn is followed at once by its answer, and nothing else is an answer. */
  predicate WellPaired(buffer: seq<Message>) {
    && (forall i | 0 <= i < |buffer| :: RightBlocks(buffer[i]))
    && (forall i | 0 <= i < |buffer| && IsToolTurn(buffer[i]) :: i + 1 < |buffer| && Answers(buffer[i], buffer[i + 1]))
    && (forall i | 0 <= i < |buffer| && buffer[i].role == Tool :: i > 0 && IsToolTurn(buffer[i - 1]))
  }

  lemma {:induction false} TextHasNoCalls(content: seq<ContentBlock>)
    requires OnlyText(content)
    ensures Calls(content) == []
  {
    if content != [] { TextHasNoCalls(content[1..]); }
  }

  /** A well-paired buffer never stops in the middle of a tool turn, so another can follow. */
  lemma WellPairedAppend(a: seq<Message>, b: seq<Message>)
    requires WellPaired(a) && WellPaired(b)
    ensures WellPaired(a + b)
  {
    var ab := a + b;
    forall i | 0 <= i < |ab| && IsToolTurn(ab[i]) ensures i + 1 < |ab| && Answers(ab[i], ab[i + 1]) {
      if i < |a| {
        assert IsToolTurn(a[i]);
      } else {
        assert IsToolTurn(b[i - |a|]);
        assert ab[i + 1] == b[i - |a| + 1];
      }
    }
    forall i | 0 <= i < |ab| && ab[i].role == Tool ensures i > 0 && IsToolTurn(ab[i - 1]) {
      if i >= |a| {
        assert b[i - |a|].role == Tool;
        assert ab[i - 1] == b[i - |a| - 1];
      }
    }
  }

  lemma TextMessageWellPaired(role: Role, text: string)
    requires role != Tool
    ensures WellPaired([TextMessage(role, text)])
  {
    TextHasNoCalls([Text(text)]);
  }

  /** A slice between two points that do not split a tool turn from its answer. */
  lemma WellPairedSuffix(a: seq<Message>, k: nat)
    requires WellPaired(a) && k <= |a| && (k < |a| ==> a[k].role != Tool)
    ensures WellPaired(a[k..])
  {
    var s := a[k..];
    forall i | 0 <= i < |s| && IsToolTurn(s[i]) ensures i + 1 < |s| && Answers(s[i], s[i + 1]) {
      assert IsToolTurn(a[k + i]);
      assert a[k + i + 1] == s[i + 1];
    }
    forall i | 0 <= i < |s| && s[i].role == Tool ensures i > 0 && IsToolTurn(s[i - 1]) {
      assert a[k + i].role == Tool;
      if i > 0 { assert a[k + i - 1] == s[i - 1]; }
    }
  }

  lemma WellPairedPrefix(a: seq<Message>, k: nat)
    requires WellPaired(a) && k <= |a| && (k < |a| ==> a[k].role != Tool)
    ensures WellPaired(a[..k])
  {
    var s := a[..k];
    forall i | 0 <= i < |s| && IsToolTurn(s[i]) ensures i + 1 < |s| && Answers(s[i], s[i + 1]) {
      assert IsToolTurn(a[i]);
      assert Answers(a[i], a[i + 1]);
    }
  }
}
