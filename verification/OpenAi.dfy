/** The OpenAI-compatible translator: a buffer becomes chat messages, a reply content blocks again. */
module OpenAi {
  import opened Json
  import opened Text
  import opened Messages
  import opened Results
  import opened Wrappers

  /** JSON text of call arguments, as serde_json writes and reads it. */
  datatype Codec = Codec(encode: Json -> string, decode: string -> Option<Json>) {
    ghost predicate RoundTrips() { forall j :: decode(encode(j)) == Some(j) }
  }

  datatype WireCall = WireCall(id: string, name: string, arguments: string)

  datatype ChatMessage = ChatMessage(
    role: string, content: Option<string>, toolCalls: Option<seq<WireCall>>, toolCallId: Option<string>)

  datatype WireError = InvalidResponse

  // ---- building ----

  function Texts(content: seq<ContentBlock>): seq<string> {
    if content == [] then []
    else if content[0].Text? then [content[0].text] + Texts(content[1..])
    else Texts(content[1..])
  }

  function WireCalls(codec: Codec, calls: seq<ToolCall>): seq<WireCall> {
    seq(|calls|, i requires 0 <= i < |calls| => WireCall(calls[i].id, calls[i].name, codec.encode(calls[i].args)))
  }

  /** One chat message for a whole user or assistant turn. */
  function TextWire(codec: Codec, role: string, content: seq<ContentBlock>): ChatMessage {
    var texts, calls := Texts(content), WireCalls(codec, Calls(content));
    ChatMessage(role,
                if texts != [] then Some(Join(texts, "\n")) else if calls == [] then Some("") else None,
                if calls == [] then None else Some(calls),
                None)
  }

  function ResultWire(block: ContentBlock): ChatMessage
    requires block.ToolResult?
  {
    var text := if block.isError then "Error: " + block.content else block.content;
    ChatMessage("tool", Some(text), None, Some(block.toolUseId))
  }

  function ResultWires(content: seq<ContentBlock>): seq<ChatMessage>
    requires OnlyResults(content)
  {
    seq(|content|, i requires 0 <= i < |content| => ResultWire(content[i]))
  }

  /** Block kinds that a message of each role may carry on this wire. */
  predicate Translatable(m: Message) {
    match m.role
    case System => true
    case Tool => OnlyResults(m.content)
    case _ => NoResults(m.content)
  }

  function RoleName(role: Role): string {
    match role case System => "system" case User => "user" case Assistant => "assistant" case Tool => "tool"
  }

  function MessageWire(codec: Codec, m: Message): seq<ChatMessage>
    requires Translatable(m)
  {
    match m.role
    case System => []
    case Tool => ResultWires(m.content)
    case _ => [TextWire(codec, RoleName(m.role), m.content)]
  }

  function Wire(codec: Codec, messages: seq<Message>): seq<ChatMessage>
    requires forall i | 0 <= i < |messages| :: Translatable(messages[i])
  {
    if messages == [] then []
    else
      assert forall i | 0 <= i < |messages| - 1 :: messages[1..][i] == messages[i + 1];
      MessageWire(codec, messages[0]) + Wire(codec, messages[1..])
  }

  lemma TranslatableAppend(messages: seq<Message>, m: Message)
    requires (forall i | 0 <= i < |messages| :: Translatable(messages[i])) && Translatable(m)
    ensures forall i | 0 <= i < |messages + [m]| :: Translatable((messages + [m])[i])
  {
  }

  lemma {:induction false} WireAppend(codec: Codec, messages: seq<Message>, m: Message)
    requires (forall i | 0 <= i < |messages| :: Translatable(messages[i])) && Translatable(m)
    ensures forall i | 0 <= i < |messages + [m]| :: Translatable((messages + [m])[i])
    ensures Wire(codec, messages + [m]) == Wire(codec, messages) + MessageWire(codec, m)
  {
    var all := messages + [m];
    TranslatableAppend(messages, m);
    if messages == [] {
      assert all == [m] && all[1..] == [];
    } else {
      assert forall i | 0 <= i < |messages| - 1 :: messages[1..][i] == messages[i + 1];
      WireAppend(codec, messages[1..], m);
      assert all[0] == messages[0] && all[1..] == messages[1..] + [m];
      Associates(MessageWire(codec, messages[0]), Wire(codec, messages[1..]), MessageWire(codec, m));
    }
  }

  function SystemWire(system: Option<string>): seq<ChatMessage> {
    if system.Some? then [ChatMessage("system", system, None, None)] else []
  }

  lemma {:induction false} CallsAppend(content: seq<ContentBlock>, block: ContentBlock)
    ensures Calls(content + [block]) ==
      Calls(content) + if block.ToolUse? then [ToolCall(block.id, block.name, block.input)] else []
    ensures Texts(content + [block]) == Texts(content) + if block.Text? then [block.text] else []
  {
    if content != [] {
      CallsAppend(content[1..], block);
      assert (content + [block])[1..] == content[1..] + [block];
    }
  }

  method BuildTextMessage(codec: Codec, role: string, content: seq<ContentBlock>)
    returns (r: Result<ChatMessage, WireError>)
    ensures r == if NoResults(content) then Ok(TextWire(codec, role, content)) else Err(InvalidResponse)
  {
    var textParts: seq<string> := [];
    var toolCalls: seq<WireCall> := [];
    for i := 0 to |content|
      invariant NoResults(content[..i])
      invariant textParts == Texts(content[..i]) && toolCalls == WireCalls(codec, Calls(content[..i]))
    {
      assert content[..i + 1] == content[..i] + [content[i]];
      CallsAppend(content[..i], content[i]);
      match content[i]
      case Text(text) => textParts := textParts + [text];
      case ToolUse(id, name, input) => toolCalls := toolCalls + [WireCall(id, name, codec.encode(input))];
      case ToolResult(_, _, _) => return Err(InvalidResponse);
    }
    assert content[..|content|] == content;
    var text := if textParts == [] && toolCalls == [] then Some("")
                else if textParts == [] then None
                else Some(Join(textParts, "\n"));
    return Ok(ChatMessage(role, text, if toolCalls == [] then None else Some(toolCalls), None));
  }

  /** A tool message becomes one chat message for each of its results. */
  method BuildResultMessages(content: seq<ContentBlock>) returns (r: Result<seq<ChatMessage>, WireError>)
    ensures r == if OnlyResults(content) then Ok(ResultWires(content)) else Err(InvalidResponse)
  {
    var messages: seq<ChatMessage> := [];
    for b := 0 to |content|
      invariant OnlyResults(content[..b]) && messages == ResultWires(content[..b])
    {
      assert content[..b + 1] == content[..b] + [content[b]];
      match content[b]
      case Text(_) => return Err(InvalidResponse);
      case ToolUse(_, _, _) => return Err(InvalidResponse);
      case ToolResult(id, content, isError) =>
        var text := if isError then "Error: " + content else content;
        messages := messages + [ChatMessage("tool", Some(text), None, Some(id))];
    }
    assert content[..|content|] == content;
    return Ok(messages);
  }

  predicate AllTranslatable(messages: seq<Message>) {
    forall i | 0 <= i < |messages| :: Translatable(messages[i])
  }

  lemma {:induction false} RequestAppend(codec: Codec, system: Option<string>, before: seq<Message>, m: Message,
        wire: seq<ChatMessage>)
    requires AllTranslatable(before) && Translatable(m) && wire == SystemWire(system) + Wire(codec, before)
    ensures AllTranslatable(before + [m])
    ensures wire + MessageWire(codec, m) == SystemWire(system) + Wire(codec, before + [m])
  {
    WireAppend(codec, before, m);
    ThreeParts(SystemWire(system), Wire(codec, before), MessageWire(codec, m));
  }

  lemma ThreeParts(a: seq<ChatMessage>, b: seq<ChatMessage>, c: seq<ChatMessage>)
    ensures a + b + c == a + (b + c)
  {
  }

  method BuildMessage(codec: Codec, m: Message) returns (r: Result<seq<ChatMessage>, WireError>)
    ensures r == if Translatable(m) then Ok(MessageWire(codec, m)) else Err(InvalidResponse)
  {
    match m.role {
      case System => return Ok([]);
      case Tool => r := BuildResultMessages(m.content);
      case User =>
        var built := BuildTextMessage(codec, "user", m.content);
        return if built.Ok? then Ok([built.value]) else Err(InvalidResponse);
      case Assistant =>
        var built := BuildTextMessage(codec, "assistant", m.content);
        return if built.Ok? then Ok([built.value]) else Err(InvalidResponse);
    }
  }

  /** The message part of a request: it fails exactly on a block its role may not carry. */
  method BuildMessages(codec: Codec, system: Option<string>, request: seq<Message>)
    returns (r: Result<seq<ChatMessage>, WireError>)
    ensures r
      == if AllTranslatable(request) then Ok(SystemWire(system) + Wire(codec, request)) else Err(InvalidResponse)
  {
    var messages: seq<ChatMessage> := [];
    if system.Some? { messages := messages + [ChatMessage("system", system, None, None)]; }
    for i := 0 to |request|
      invariant AllTranslatable(request[..i]) && messages == SystemWire(system) + Wire(codec, request[..i])
    {
      assert request[..i + 1] == request[..i] + [request[i]];
      var built := BuildMessage(codec, request[i]);
      if built.Err? {
        assert !AllTranslatable(request);
        return Err(InvalidResponse);
      }
      RequestAppend(codec, system, request[..i], request[i], messages);
      messages := messages + built.value;
    }
    assert request[..|request|] == request;
    return Ok(messages);
  }

  /** One chat message for each block: its id, and what came back, marked if it is an error. */
  ghost predicate TellsBlocks(content: seq<ContentBlock>, wire: seq<ChatMessage>) {
    && |wire| == |content|
    && forall i | 0 <= i < |content| && content[i].ToolResult? ::
         && wire[i].role == "tool" && wire[i].toolCalls == None && wire[i].toolCallId == Some(content[i].toolUseId)
         && wire[i].content == Some((if content[i].isError then "Error: " else "") + content[i].content)
  }

  lemma ResultWiresTell(content: seq<ContentBlock>)
    requires OnlyResults(content)
    ensures TellsBlocks(content, ResultWires(content))
  {
    forall i | 0 <= i < |content| ensures ("" + content[i].content) == content[i].content {}
  }

  /** What `m` adds to the wire, behind whatever was sent before it. */
  ghost predicate Adds(codec: Codec, before: seq<Message>, m: Message, wire: seq<ChatMessage>) {
    AllTranslatable(before) && AllTranslatable(before + [m]) && Wire(codec, before + [m]) == Wire(codec, before) + wire
  }

  /** On the wire, a tool message is one chat message for each of its results. */
  lemma ResultsOnTheWire(codec: Codec, before: seq<Message>, m: Message) returns (wire: seq<ChatMessage>)
    requires AllTranslatable(before) && m.role == Tool && OnlyResults(m.content)
    ensures Adds(codec, before, m, wire) && TellsBlocks(m.content, wire)
  {
    WireAppend(codec, before, m);
    ResultWiresTell(m.content);
    wire := ResultWires(m.content);
  }

  function EachText(content: seq<ContentBlock>): seq<string>
    requires OnlyText(content)
  {
    seq(|content|, i requires 0 <= i < |content| => content[i].text)
  }

  /** `sent` has the role, the calls with encoded arguments, and the texts, one to a line;
      without texts it has an empty text, or none if there are calls. */
  ghost predicate SaysTurn(codec: Codec, m: Message, sent: ChatMessage) {
    && sent.role == (if m.role == User then "user" else "assistant") && sent.toolCallId == None
    && (sent.toolCalls.None? <==> Calls(m.content) == [])
    && (sent.toolCalls.Some? ==>
          && |sent.toolCalls.value| == |Calls(m.content)|
          && forall i, call | 0 <= i < |Calls(m.content)| && call == Calls(m.content)[i] ::
               sent.toolCalls.value[i] == WireCall(call.id, call.name, codec.encode(call.args)))
    && (OnlyText(m.content) && m.content != [] ==> sent.content == Some(Join(EachText(m.content), "\n")))
    && (m.content == [] ==> sent.content == Some(""))
    && (m.content != [] && (forall b | b in m.content :: b.ToolUse?) ==> sent.content == None)
  }

  lemma {:induction false} TextsOfText(content: seq<ContentBlock>)
    requires OnlyText(content)
    ensures Texts(content) == EachText(content)
  {
    if content != [] { TextsOfText(content[1..]); }
  }

  lemma {:induction false} NoTexts(content: seq<ContentBlock>)
    requires forall b | b in content :: b.ToolUse?
    ensures Texts(content) == [] && |Calls(content)| == |content|
  {
    if content != [] {
      assert content[0] in content;
      NoTexts(content[1..]);
    }
  }

  lemma TextWireSays(codec: Codec, m: Message)
    requires m.role in {User, Assistant} && NoResults(m.content)
    ensures SaysTurn(codec, m, TextWire(codec, RoleName(m.role), m.content))
  {
    var calls := Calls(m.content);
    assert |WireCalls(codec, calls)| == |calls|;
    if OnlyText(m.content) { TextsOfText(m.content); }
    if forall b | b in m.content :: b.ToolUse? { NoTexts(m.content); }
  }

  /** A user or assistant message is one chat message. */
  lemma TurnsOnTheWireSay(codec: Codec, before: seq<Message>, m: Message) returns (sent: ChatMessage)
    requires AllTranslatable(before) && m.role in {User, Assistant} && NoResults(m.content)
    ensures Adds(codec, before, m, [sent]) && SaysTurn(codec, m, sent)
  {
    WireAppend(codec, before, m);
    TextWireSays(codec, m);
    sent := TextWire(codec, RoleName(m.role), m.content);
  }

  // ---- the wire protocol ----

  /** A list of chat messages read as turns: a message alone, or a message with
      tool calls and the answers to them. */
  datatype Exchange = Plain(message: ChatMessage) | ToolTurn(turn: ChatMessage, answers: seq<ChatMessage>) {
    /** One answer per call, ids in order, and no tool message anywhere else. */
    predicate FollowsProtocol() {
      match this
      case Plain(m) => m.role != "tool" && m.toolCalls.None?
      case ToolTurn(turn, answers) =>
        && turn.role == "assistant" && turn.toolCalls.Some? && turn.toolCalls.value != []
        && |answers| == |turn.toolCalls.value|
        && forall i | 0 <= i < |answers| ::
          answers[i].role == "tool" && answers[i].toolCallId == Some(turn.toolCalls.value[i].id)
    }

    function Flat(): seq<ChatMessage> {
      match this case Plain(m) => [m] case ToolTurn(turn, answers) => [turn] + answers
    }
  }

  function Flatten(exchanges: seq<Exchange>): seq<ChatMessage> {
    if exchanges == [] then [] else exchanges[0].Flat() + Flatten(exchanges[1..])
  }

  function LeadingAnswers(wire: seq<ChatMessage>): (n: nat)
    ensures n <= |wire|
  {
    if wire == [] || wire[0].role != "tool" then 0 else 1 + LeadingAnswers(wire[1..])
  }

  /** Grouping the wire list again, by role alone. */
  function Regroup(wire: seq<ChatMessage>): seq<Exchange>
    decreases |wire|
  {
    if wire == [] then []
    else if wire[0].toolCalls.None? then [Plain(wire[0])] + Regroup(wire[1..])
    else
      var n := LeadingAnswers(wire[1..]);
      [ToolTurn(wire[0], wire[1..n + 1])] + Regroup(wire[n + 1..])
  }

  ghost predicate AllFollowProtocol(exchanges: seq<Exchange>) {
    forall i | 0 <= i < |exchanges| :: exchanges[i].FollowsProtocol()
  }

  lemma {:induction false} LeadingAnswersStop(answers: seq<ChatMessage>, rest: seq<ChatMessage>)
    requires forall i | 0 <= i < |answers| :: answers[i].role == "tool"
    requires rest != [] ==> rest[0].role != "tool"
    ensures LeadingAnswers(answers + rest) == |answers|
  {
    if answers != [] {
      assert (answers + rest)[1..] == answers[1..] + rest;
      LeadingAnswersStop(answers[1..], rest);
    } else {
      assert answers + rest == rest;
    }
  }

  lemma {:induction false} RegroupPlain(m: ChatMessage, tail: seq<ChatMessage>)
    requires m.toolCalls.None?
    ensures Regroup([m] + tail) == [Plain(m)] + Regroup(tail)
  {
    assert ([m] + tail)[1..] == tail;
  }

  lemma {:induction false} RegroupToolTurn(turn: ChatMessage, answers: seq<ChatMessage>, tail: seq<ChatMessage>)
    requires turn.toolCalls.Some? && forall i | 0 <= i < |answers| :: answers[i].role == "tool"
    requires tail != [] ==> tail[0].role != "tool"
    ensures Regroup([turn] + answers + tail) == [ToolTurn(turn, answers)] + Regroup(tail)
  {
    var wire := [turn] + answers + tail;
    assert wire[1..] == answers + tail;
    LeadingAnswersStop(answers, tail);
    assert wire[1..|answers| + 1] == answers && wire[|answers| + 1..] == tail;
  }

  /** Grouping undoes flattening: the wire list has only one reading. */
  lemma {:induction false} RegroupFlatten(exchanges: seq<Exchange>)
    requires AllFollowProtocol(exchanges)
    ensures Regroup(Flatten(exchanges)) == exchanges
  {
    if exchanges != [] {
      var tail := Flatten(exchanges[1..]);
      RegroupFlatten(exchanges[1..]);
      FlattenStarts(exchanges[1..]);
      assert exchanges[0].FollowsProtocol();
      match exchanges[0]
      case Plain(m) => RegroupPlain(m, tail);
      case ToolTurn(turn, answers) => RegroupToolTurn(turn, answers, tail);
    }
  }

  lemma {:induction false} FlattenStarts(exchanges: seq<Exchange>)
    requires AllFollowProtocol(exchanges)
    ensures Flatten(exchanges) != [] ==> Flatten(exchanges)[0].role != "tool"
  {
  }

  // ---- well-paired buffers on the wire ----

  /** The turns of a buffer, system messages aside. */
  function Turns(codec: Codec, buffer: seq<Message>): seq<Exchange>
    requires WellPaired(buffer)
    decreases |buffer|
  {
    if buffer == [] then []
    else if IsToolTurn(buffer[0]) then
      WellPairedRest(buffer);
      [ToolTurn(TextWire(codec, "assistant", buffer[0].content), ResultWires(buffer[1].content))]
        + Turns(codec, buffer[2..])
    else
      WellPairedRest(buffer);
      (if buffer[0].role == System then [] else [Plain(TextWire(codec, RoleName(buffer[0].role), buffer[0].content))])
      + Turns(codec, buffer[1..])
  }

  lemma WellPairedRest(buffer: seq<Message>)
    requires WellPaired(buffer) && buffer != []
    ensures IsToolTurn(buffer[0]) ==> |buffer| > 1 && Answers(buffer[0], buffer[1]) && WellPaired(buffer[2..])
    ensures !IsToolTurn(buffer[0]) ==> WellPaired(buffer[1..]) && buffer[0].role != Tool
  {
    if IsToolTurn(buffer[0]) {
      var reply := buffer[1];
      assert |buffer| > 2 && buffer[2].role == Tool ==> reply.role == Assistant;
      WellPairedSuffix(buffer, 2);
    } else {
      assert |buffer| > 1 ==> buffer[1].role != Tool;
      WellPairedSuffix(buffer, 1);
    }
  }

  lemma WellPairedTranslates(buffer: seq<Message>)
    requires WellPaired(buffer)
    ensures forall i | 0 <= i < |buffer| :: Translatable(buffer[i])
  {
    forall i | 0 <= i < |buffer| ensures Translatable(buffer[i]) { assert RightBlocks(buffer[i]); }
  }

  lemma {:induction false} TurnsOnTheWire(codec: Codec, buffer: seq<Message>)
    requires WellPaired(buffer) && forall i | 0 <= i < |buffer| :: Translatable(buffer[i])
    ensures Wire(codec, buffer) == Flatten(Turns(codec, buffer))
    ensures AllFollowProtocol(Turns(codec, buffer))
    decreases |buffer|
  {
    if buffer != [] {
      WellPairedRest(buffer);
      if IsToolTurn(buffer[0]) {
        TurnsOnTheWire(codec, buffer[2..]);
        var turn, answers := TextWire(codec, "assistant", buffer[0].content), ResultWires(buffer[1].content);
        ToolTurnWire(codec, buffer);
        FlattenCons(ToolTurn(turn, answers), Turns(codec, buffer[2..]));
      } else {
        TurnsOnTheWire(codec, buffer[1..]);
        assert [] + Turns(codec, buffer[1..]) == Turns(codec, buffer[1..]);
        assert [] + Wire(codec, buffer[1..]) == Wire(codec, buffer[1..]);
        if buffer[0].role != System {
          if buffer[0].role == User { TextHasNoCalls(buffer[0].content); }
          FlattenCons(Plain(TextWire(codec, RoleName(buffer[0].role), buffer[0].content)), Turns(codec, buffer[1..]));
        }
      }
    }
  }

  lemma {:induction false} FlattenCons(first: Exchange, rest: seq<Exchange>)
    requires first.FollowsProtocol() && AllFollowProtocol(rest)
    ensures Flatten([first] + rest) == first.Flat() + Flatten(rest)
    ensures AllFollowProtocol([first] + rest)
  {
    assert ([first] + rest)[1..] == rest;
  }

  lemma {:induction false} ToolTurnWire(codec: Codec, buffer: seq<Message>)
    requires (forall i | 0 <= i < |buffer| :: Translatable(buffer[i])) && |buffer| > 1
    requires IsToolTurn(buffer[0]) && Answers(buffer[0], buffer[1])
    ensures var turn, answers := TextWire(codec, "assistant", buffer[0].content), ResultWires(buffer[1].content);
      && ToolTurn(turn, answers).FollowsProtocol()
      && Wire(codec, buffer) == [turn] + answers + Wire(codec, buffer[2..])
  {
    var turn, answers := TextWire(codec, "assistant", buffer[0].content), ResultWires(buffer[1].content);
    assert buffer[1..][1..] == buffer[2..];
    assert Wire(codec, buffer[1..]) == answers + Wire(codec, buffer[2..]);
    assert [turn] + (answers + Wire(codec, buffer[2..])) == [turn] + answers + Wire(codec, buffer[2..]);
  }

  /** A well-paired buffer always translates, its wire list follows the protocol, and
      grouping the list gives back exactly the turns of the buffer. */
  lemma {:induction false} WellPairedBuffersSurviveTheWire(codec: Codec, buffer: seq<Message>)
    requires WellPaired(buffer)
    ensures forall i | 0 <= i < |buffer| :: Translatable(buffer[i])
    ensures AllFollowProtocol(Regroup(Wire(codec, buffer)))
    ensures Flatten(Regroup(Wire(codec, buffer))) == Wire(codec, buffer)
    ensures Regroup(Wire(codec, buffer)) == Turns(codec, buffer)
  {
    WellPairedTranslates(buffer);
    TurnsOnTheWire(codec, buffer);
    RegroupFlatten(Turns(codec, buffer));
  }

  // ---- reading a reply ----

  function ReadCalls(codec: Codec, calls: seq<WireCall>): Result<seq<ContentBlock>, WireError> {
    if calls == [] then Ok([])
    else
      var input := codec.decode(calls[0].arguments);
      if input.None? then Err(InvalidResponse)
      else
        var rest := ReadCalls(codec, calls[1..]);
        if rest.Err? then rest else Ok([ToolUse(calls[0].id, calls[0].name, input.value)] + rest.value)
  }

  function ReadReply(codec: Codec, text: Option<string>, calls: seq<WireCall>): Result<seq<ContentBlock>, WireError> {
    var blocks := ReadCalls(codec, calls);
    var spoken := if text.Some? && !IsBlank(text.value) then [Text(text.value)] else [];
    if blocks.Err? then blocks
    else if spoken + blocks.value == [] then Err(InvalidResponse)
    else Ok(spoken + blocks.value)
  }

  function After(done: seq<ContentBlock>, rest: Result<seq<ContentBlock>, WireError>): Result<seq<ContentBlock>,
        WireError> {
    if rest.Err? then rest else Ok(done + rest.value)
  }

  method ParseResponse(codec: Codec, text: Option<string>, calls: seq<WireCall>)
    returns (r: Result<seq<ContentBlock>, WireError>)
    ensures r == ReadReply(codec, text, calls)
  {
    var content: seq<ContentBlock> := [];
    if text.Some? && !IsBlank(text.value) {
      content := content + [Text(text.value)];
    }
    ghost var spoken, done := content, [];
    assert spoken == if text.Some? && !IsBlank(text.value) then [Text(text.value)] else [];
    AfterNothing(codec, calls);
    for i := 0 to |calls|
      invariant content == spoken + done
      invariant ReadCalls(codec, calls) == After(done, ReadCalls(codec, calls[i..]))
    {
      AfterOne(codec, calls, i, done);
      var input := codec.decode(calls[i].arguments);
      if input.None? { return Err(InvalidResponse); }
      var block := ToolUse(calls[i].id, calls[i].name, input.value);
      content := content + [block];
      done := done + [block];
    }
    assert calls[|calls|..] == [] && done + [] == done;
    assert ReadCalls(codec, calls) == Ok(done);
    if content == [] { return Err(InvalidResponse); }
    return Ok(content);
  }

  lemma {:induction false} AfterNothing(codec: Codec, calls: seq<WireCall>)
    ensures ReadCalls(codec, calls) == After([], ReadCalls(codec, calls[0..]))
  {
    assert calls[0..] == calls;
    if ReadCalls(codec, calls).Ok? {
      assert [] + ReadCalls(codec, calls).value == ReadCalls(codec, calls).value;
    }
  }

  lemma {:induction false} AfterOne(codec: Codec, calls: seq<WireCall>, i: nat, done: seq<ContentBlock>)
    requires i < |calls|
    ensures var input := codec.decode(calls[i].arguments);
      After(done, ReadCalls(codec, calls[i..])) ==
        if input.None? then Err(InvalidResponse)
        else After(done + [ToolUse(calls[i].id, calls[i].name, input.value)], ReadCalls(codec, calls[i + 1..]))
  {
    assert calls[i..][0] == calls[i] && calls[i..][1..] == calls[i + 1..];
    var input := codec.decode(calls[i].arguments);
    var rest := ReadCalls(codec, calls[i + 1..]);
    if input.Some? && rest.Ok? {
      var block := ToolUse(calls[i].id, calls[i].name, input.value);
      assert done + ([block] + rest.value) == (done + [block]) + rest.value;
    }
  }

  lemma {:induction false} ReadCallsShape(codec: Codec, calls: seq<WireCall>)
    requires ReadCalls(codec, calls).Ok?
    ensures var blocks := ReadCalls(codec, calls).value;
      |blocks| == |calls| && forall i | 0 <= i < |blocks| :: blocks[i].ToolUse?
  {
    if calls != [] { ReadCallsShape(codec, calls[1..]); }
  }

  /** A parsed reply is not empty and never holds a tool result. */
  lemma ParsedRepliesAreClean(codec: Codec, text: Option<string>, calls: seq<WireCall>)
    requires ReadReply(codec, text, calls).Ok?
    ensures var content := ReadReply(codec, text, calls).value; content != [] && NoResults(content)
  {
    ReadCallsShape(codec, calls);
  }

  lemma {:induction false} ReadWireCalls(codec: Codec, blocks: seq<ContentBlock>)
    requires codec.RoundTrips() && forall i | 0 <= i < |blocks| :: blocks[i].ToolUse?
    ensures ReadCalls(codec, WireCalls(codec, Calls(blocks))) == Ok(blocks)
    ensures Texts(blocks) == [] && |Calls(blocks)| == |blocks|
  {
    if blocks != [] {
      ReadWireCalls(codec, blocks[1..]);
      var calls := Calls(blocks);
      assert calls[1..] == Calls(blocks[1..]);
      assert WireCalls(codec, calls)[1..] == WireCalls(codec, calls[1..]);
      assert [ToolUse(calls[0].id, calls[0].name, calls[0].args)] + blocks[1..] == blocks;
    }
  }

  /** Sending a parsed reply back and parsing it again changes nothing. */
  lemma RepliesRoundTrip(codec: Codec, text: Option<string>, calls: seq<WireCall>)
    requires codec.RoundTrips() && ReadReply(codec, text, calls).Ok?
    ensures var content := ReadReply(codec, text, calls).value;
      var sent := TextWire(codec, "assistant", content);
      ReadReply(codec, sent.content, if sent.toolCalls.Some? then sent.toolCalls.value else []) == Ok(content)
  {
    var content := ReadReply(codec, text, calls).value;
    var blocks := ReadCalls(codec, calls).value;
    ReadCallsShape(codec, calls);
    ReadWireCalls(codec, blocks);
    if text.Some? && !IsBlank(text.value) {
      assert content == [Text(text.value)] + blocks && content[1..] == blocks;
      assert Texts(content) == [text.value];
      assert Calls(content) == Calls(blocks);
    } else {
      assert content == blocks;
    }
  }

  // ---- the runner in between ----

  /** The runner takes the system messages out of a buffer and joins their texts. */
  function Conversation(buffer: seq<Message>): seq<Message> {
    if buffer == [] then []
    else (if buffer[0].role == System then [] else [buffer[0]]) + Conversation(buffer[1..])
  }

  lemma {:induction false} MoreOnTheWire(codec: Codec, m: Message, rest: seq<Message>)
    requires Translatable(m) && m.role != System
    requires forall i | 0 <= i < |rest| :: Translatable(rest[i]) && rest[i].role != System
    ensures forall i | 0 <= i < |[m] + rest| :: Translatable(([m] + rest)[i]) && ([m] + rest)[i].role != System
    ensures Wire(codec, [m] + rest) == MessageWire(codec, m) + Wire(codec, rest)
  {
    assert ([m] + rest)[1..] == rest;
  }

  /** Taking the system messages out does not change what goes over the wire. */
  lemma {:induction false} ConversationOnTheWire(codec: Codec, buffer: seq<Message>)
    requires forall i | 0 <= i < |buffer| :: Translatable(buffer[i])
    ensures forall i | 0 <= i < |Conversation(buffer)| ::
      Translatable(Conversation(buffer)[i]) && Conversation(buffer)[i].role != System
    ensures Wire(codec, Conversation(buffer)) == Wire(codec, buffer)
  {
    if buffer != [] {
      assert forall i | 0 <= i < |buffer| - 1 :: buffer[1..][i] == buffer[i + 1];
      ConversationOnTheWire(codec, buffer[1..]);
      var rest := Conversation(buffer[1..]);
      if buffer[0].role == System {
        assert Conversation(buffer) == rest && [] + Wire(codec, buffer[1..]) == Wire(codec, buffer[1..]);
      } else {
        MoreOnTheWire(codec, buffer[0], rest);
        assert Conversation(buffer) == [buffer[0]] + rest;
      }
    }
  }
}
