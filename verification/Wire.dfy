// From stored history to the messages sent to the provider
// (convert_messages in clareon-core/src/backend/openai.rs), and when the provider sees
// every tool call answered at once.

module Wire {
  import opened Types
  import T = Text

  datatype WireCall = WireCall(id: string, name: string, arguments: string)

  // `calls == []` stands for an absent tool_calls field.
  datatype WireMessage =
    | SystemMessage(text: string)
    | UserMessage(text: string)
    | ToolMessage(callId: string, text: string)
    | AssistantMessage(content: Option<string>, calls: seq<WireCall>)

  // OpenAI leaves the content of a textless assistant message out, OpenRouter sends it
  // empty.
  datatype Provider = OpenAi | OpenRouter

  // The provider, and serde_json::to_string.
  datatype Dialect = Dialect(provider: Provider, printJson: Json -> string)

  // ---------------------------------------------------------------- conversion

  predicate HasToolResults(blocks: seq<ContentBlock>) {
    exists k :: 0 <= k < |blocks| && blocks[k].ToolResult?
  }

  function ToolText(block: ContentBlock): string
    requires block.ToolResult?
  {
    var text := T.Join(block.content, "\n");
    if block.isError == Some(true) then "Error: " + text else text
  }

  // One block of a user message that carries tool results.
  function ResultWire(block: ContentBlock): seq<WireMessage> {
    match block
    case ToolResult(id, _, _) => [ToolMessage(id, ToolText(block))]
    case Text(text) => [UserMessage(text)]
    case _ => []
  }

  function ResultsWire(blocks: seq<ContentBlock>): seq<WireMessage> {
    if blocks == [] then [] else ResultsWire(blocks[..|blocks| - 1]) + ResultWire(blocks[|blocks| - 1])
  }

  function WireCalls(dialect: Dialect, calls: seq<Call>): (r: seq<WireCall>)
    ensures |r| == |calls| && forall k :: 0 <= k < |r| ==> r[k].id == calls[k].id
  {
    seq(|calls|, k requires 0 <= k < |calls| => WireCall(calls[k].id, calls[k].name, dialect.printJson(calls[k].input)))
  }

  function WireOf(dialect: Dialect, m: Message): seq<WireMessage> {
    match m.role
    case User =>
      if HasToolResults(m.content) then ResultsWire(m.content)
      else
        var text := T.Join(TextsOf(m.content), "\n");
        if text == "" then [] else [UserMessage(text)]
    case Assistant =>
      var texts := TextsOf(m.content);
      [AssistantMessage(if texts == [] && dialect.provider == OpenAi then None else Some(T.Join(texts, "\n")),
                        WireCalls(dialect, CallsOf(m.content)))]
  }

  function HistoryWire(dialect: Dialect, msgs: seq<Message>): seq<WireMessage> {
    if msgs == [] then []
    else HistoryWire(dialect, msgs[..|msgs| - 1]) + WireOf(dialect, msgs[|msgs| - 1])
  }

  function Converted(dialect: Dialect, systemPrompt: Option<string>, msgs: seq<Message>): seq<WireMessage> {
    (if systemPrompt.Some? then [SystemMessage(systemPrompt.value)] else []) + HistoryWire(dialect, msgs)
  }

  lemma {:induction false} TextsOfPush(blocks: seq<ContentBlock>, b: ContentBlock)
    ensures TextsOf(blocks + [b]) == TextsOf(blocks) + (if b.Text? then [b.text] else [])
  {
    if blocks == [] {
      assert [b][1..] == [] && [] + [b] == [b];
    } else {
      TextsOfPush(blocks[1..], b);
      FirstText(blocks);
      FirstText(blocks + [b]);
      hide TextsOf;
      assert (blocks + [b])[1..] == blocks[1..] + [b] && (blocks + [b])[0] == blocks[0];
      var head := if blocks[0].Text? then [blocks[0].text] else [];
      var last := if b.Text? then [b.text] else [];
      assert head + (TextsOf(blocks[1..]) + last) == (head + TextsOf(blocks[1..])) + last;
    }
  }

  lemma FirstText(blocks: seq<ContentBlock>)
    requires blocks != []
    ensures TextsOf(blocks) == (if blocks[0].Text? then [blocks[0].text] else []) + TextsOf(blocks[1..])
  {}

  lemma {:induction false} CallsOfPush(blocks: seq<ContentBlock>, b: ContentBlock)
    ensures CallsOf(blocks + [b]) == CallsOf(blocks) + (if b.ToolUse? then [Call(b.id, b.name, b.input)] else [])
  {
    if blocks == [] {
      assert [b][1..] == [] && [] + [b] == [b];
    } else {
      assert (blocks + [b])[1..] == blocks[1..] + [b];
      CallsOfPush(blocks[1..], b);
      var head := if blocks[0].ToolUse? then [Call(blocks[0].id, blocks[0].name, blocks[0].input)] else [];
      var last := if b.ToolUse? then [Call(b.id, b.name, b.input)] else [];
      assert CallsOf(blocks + [b]) == head + CallsOf(blocks[1..] + [b]);
      assert head + (CallsOf(blocks[1..]) + last) == (head + CallsOf(blocks[1..])) + last;
    }
  }

  method ConvertUser(dialect: Dialect, m: Message) returns (out: seq<WireMessage>)
    requires m.role == User
    ensures out == WireOf(dialect, m)
  {
    out := [];
    if exists k :: 0 <= k < |m.content| && m.content[k].ToolResult? {
      for i := 0 to |m.content|
        invariant out == ResultsWire(m.content[..i])
      {
        assert m.content[..i + 1][..i] == m.content[..i];
        var block := m.content[i];
        match block {
          case ToolResult(id, content, isError) =>
            var text := T.Join(content, "\n");
            if isError == Some(true) { text := "Error: " + text; }
            out := out + [ToolMessage(id, text)];
          case Text(text) =>
            out := out + [UserMessage(text)];
          case _ =>
        }
      }
      assert m.content[..|m.content|] == m.content;
    } else {
      var text := T.Join(TextsOf(m.content), "\n");
      if text != "" {
        out := [UserMessage(text)];
      }
    }
  }

  method ConvertAssistant(dialect: Dialect, m: Message) returns (out: seq<WireMessage>)
    requires m.role == Assistant
    ensures out == WireOf(dialect, m)
  {
    hide T.Join, TextsOf, CallsOf, WireCalls;
    var textParts, toolCalls: seq<WireCall> := [], [];
    NothingSaid(dialect);
    for i := 0 to |m.content|
      invariant textParts == TextsOf(m.content[..i])
      invariant toolCalls == WireCalls(dialect, CallsOf(m.content[..i]))
    {
      assert m.content[..i + 1] == m.content[..i] + [m.content[i]];
      BlockPush(dialect, m.content[..i], m.content[i]);
      match m.content[i] {
        case Text(text) =>
          textParts := textParts + [text];
        case ToolUse(id, name, input) =>
          toolCalls := toolCalls + [WireCall(id, name, dialect.printJson(input))];
        case _ =>
      }
    }
    assert m.content[..|m.content|] == m.content;
    var content := if textParts == [] && dialect.provider == OpenAi then None else Some(T.Join(textParts, "\n"));
    out := [AssistantMessage(content, toolCalls)];
  }

  lemma NothingSaid(dialect: Dialect)
    ensures TextsOf([]) == [] && CallsOf([]) == [] && WireCalls(dialect, []) == []
  {}

  lemma WireCallsPush(dialect: Dialect, calls: seq<Call>, c: Call)
    ensures WireCalls(dialect, calls + [c])
         == WireCalls(dialect, calls) + [WireCall(c.id, c.name, dialect.printJson(c.input))]
  {}

  // What one more block adds to an assistant message.
  lemma BlockPush(dialect: Dialect, blocks: seq<ContentBlock>, b: ContentBlock)
    ensures TextsOf(blocks + [b]) == (if b.Text? then TextsOf(blocks) + [b.text] else TextsOf(blocks))
    ensures WireCalls(dialect, CallsOf(blocks + [b]))
         == (if b.ToolUse?
             then WireCalls(dialect, CallsOf(blocks)) + [WireCall(b.id, b.name, dialect.printJson(b.input))]
             else WireCalls(dialect, CallsOf(blocks)))
  {
    hide TextsOf, CallsOf, WireCalls;
    TextsOfPush(blocks, b);
    CallsOfPush(blocks, b);
    assert TextsOf(blocks) + [] == TextsOf(blocks) && CallsOf(blocks) + [] == CallsOf(blocks);
    if b.ToolUse? { WireCallsPush(dialect, CallsOf(blocks), Call(b.id, b.name, b.input)); }
  }

  method ConvertMessages(dialect: Dialect, systemPrompt: Option<string>, msgs: seq<Message>)
    returns (result: seq<WireMessage>)
    ensures result == Converted(dialect, systemPrompt, msgs)
    ensures WellPaired(result) <==> Unanswered(msgs) == Some(multiset{})
  {
    hide WireOf, WellPaired, Unanswered;
    result := [];
    if systemPrompt.Some? {
      result := [SystemMessage(systemPrompt.value)];
    }
    ghost var head := result;
    for i := 0 to |msgs|
      invariant result == head + HistoryWire(dialect, msgs[..i])
    {
      assert msgs[..i + 1][..i] == msgs[..i];
      var more;
      if msgs[i].role == User {
        more := ConvertUser(dialect, msgs[i]);
      } else {
        more := ConvertAssistant(dialect, msgs[i]);
      }
      result := result + more;
    }
    assert msgs[..|msgs|] == msgs;
    PairedOnTheWire(dialect, systemPrompt, msgs);
  }

  // ---------------------------------------------------------------- what is sent

  // The blocks of a results message that go out.
  function Sent(blocks: seq<ContentBlock>): seq<ContentBlock> {
    if blocks == [] then []
    else
      var last := blocks[|blocks| - 1];
      Sent(blocks[..|blocks| - 1]) + (if last.ToolResult? || last.Text? then [last] else [])
  }

  // A result goes out under its call's id with its lines joined, marked in front exactly
  // if it is an error; a text goes out as it is.
  predicate GoesOut(b: ContentBlock, w: WireMessage) {
    if b.ToolResult? then
      && w.ToolMessage? && w.callId == b.toolUseId
      && (b.isError == Some(true) ==> w.text == "Error: " + T.Join(b.content, "\n"))
      && (b.isError != Some(true) ==> w.text == T.Join(b.content, "\n"))
    else b.Text? && w == UserMessage(b.text)
  }

  // A message with results: its results and texts, one message each, in order.
  lemma {:induction false} ResultsGoOut(blocks: seq<ContentBlock>)
    ensures var ws, sent := ResultsWire(blocks), Sent(blocks);
      |ws| == |sent| && forall k :: 0 <= k < |ws| ==> GoesOut(sent[k], ws[k])
  {
    hide T.Join;
    if blocks != [] { ResultsGoOut(blocks[..|blocks| - 1]); }
  }

  lemma {:induction false} AllSent(blocks: seq<ContentBlock>)
    requires forall k :: 0 <= k < |blocks| ==> blocks[k].ToolResult?
    ensures Sent(blocks) == blocks
  {
    if blocks != [] {
      AllSent(blocks[..|blocks| - 1]);
      assert blocks == blocks[..|blocks| - 1] + [blocks[|blocks| - 1]];
    }
  }

  // A message that holds results only becomes exactly its tool messages, in order.
  lemma ResultsAreToolMessages(dialect: Dialect, m: Message)
    requires m.role == User && m.content != [] && forall k :: 0 <= k < |m.content| ==> m.content[k].ToolResult?
    ensures var ws := WireOf(dialect, m);
      |ws| == |m.content| && forall k :: 0 <= k < |ws| ==> GoesOut(m.content[k], ws[k])
  {
    assert m.content[0].ToolResult?;
    AllSent(m.content);
    ResultsGoOut(m.content);
  }

  // A message without results: its texts, a line each, or nothing if that is empty.
  lemma TextIsUserMessage(dialect: Dialect, m: Message)
    requires m.role == User && forall k :: 0 <= k < |m.content| ==> !m.content[k].ToolResult?
    ensures var ws, text := WireOf(dialect, m), T.Join(TextsOf(m.content), "\n");
      (text == "" <==> ws == []) && (ws != [] ==> ws == [UserMessage(text)])
  {}

  // A reply is one message: each call under its id and name with its printed input, and
  // the texts, a line each. Without texts OpenAI leaves the content out where OpenRouter
  // sends an empty one.
  lemma ReplyIsOneMessage(dialect: Dialect, m: Message)
    requires m.role == Assistant
    ensures var ws, calls, texts := WireOf(dialect, m), CallsOf(m.content), TextsOf(m.content);
      && |ws| == 1 && ws[0].AssistantMessage? && |ws[0].calls| == |calls|
      && (forall k :: 0 <= k < |calls| ==>
            && ws[0].calls[k].id == calls[k].id && ws[0].calls[k].name == calls[k].name
            && ws[0].calls[k].arguments == dialect.printJson(calls[k].input))
      && (texts != [] ==> ws[0].content == Some(T.Join(texts, "\n")))
      && (texts == [] && dialect.provider == OpenAi ==> ws[0].content == None)
      && (texts == [] && dialect.provider == OpenRouter ==> ws[0].content == Some(""))
  {}

  // The whole request: the system prompt first if there is one, and then what each
  // message becomes, in order.
  lemma RequestIsInOrder(dialect: Dialect, systemPrompt: Option<string>, msgs: seq<Message>, m: Message)
    ensures Converted(dialect, systemPrompt, [])
         == match systemPrompt case None => [] case Some(text) => [SystemMessage(text)]
    ensures Converted(dialect, systemPrompt, msgs + [m])
         == Converted(dialect, systemPrompt, msgs) + WireOf(dialect, m)
  {
    hide WireOf;
    assert (msgs + [m])[..|msgs|] == msgs;
  }

  // No message of the history turns into a system prompt.
  lemma {:induction false} OneSystemPrompt(dialect: Dialect, systemPrompt: Option<string>, msgs: seq<Message>)
    ensures forall k :: 0 <= k < |Converted(dialect, systemPrompt, msgs)| ==>
      (Converted(dialect, systemPrompt, msgs)[k].SystemMessage? <==> k == 0 && systemPrompt.Some?)
  {
    if msgs != [] {
      var front, last := msgs[..|msgs| - 1], msgs[|msgs| - 1];
      OneSystemPrompt(dialect, systemPrompt, front);
      RequestIsInOrder(dialect, systemPrompt, front, last);
      assert msgs == front + [last];
      NoSystemPrompt(dialect, last);
    }
  }

  lemma NoSystemPrompt(dialect: Dialect, m: Message)
    ensures forall k :: 0 <= k < |WireOf(dialect, m)| ==> !WireOf(dialect, m)[k].SystemMessage?
  {
    ResultsGoOut(m.content);
  }

  // ---------------------------------------------------------------- pairing on the wire

  // Every assistant message with calls is immediately followed by exactly one tool
  // message per call, in some order, and no other tool message exists.
  predicate WellPaired(ws: seq<WireMessage>)
    decreases |ws|
  {
    if ws == [] then true
    else
      match ws[0]
      case ToolMessage(_, _) => false
      case AssistantMessage(_, calls) =>
        && ToolsFirst(ws[1..], |calls|)
        && multiset(ToolIds(ws[1..][..|calls|])) == multiset(WireCallIds(calls))
        && WellPaired(ws[1..][|calls|..])
      case _ => WellPaired(ws[1..])
  }

  // The list starts with n tool messages.
  predicate ToolsFirst(ws: seq<WireMessage>, n: nat)
    ensures ToolsFirst(ws, n) ==> n <= |ws|
  {
    n == 0 || (ws != [] && ws[0].ToolMessage? && ToolsFirst(ws[1..], n - 1))
  }

  function ToolIds(ws: seq<WireMessage>): seq<string> {
    if ws == [] then [] else (if ws[0].ToolMessage? then [ws[0].callId] else []) + ToolIds(ws[1..])
  }

  function WireCallIds(calls: seq<WireCall>): seq<string> {
    seq(|calls|, k requires 0 <= k < |calls| => calls[k].id)
  }

  // ---------------------------------------------------------------- open calls

  // The ids still to be answered, or None once something came in between.
  type Open = Option<multiset<string>>

  function WireStep(open: Open, w: WireMessage): Open {
    match open
    case None => None
    case Some(o) =>
      match w
      case ToolMessage(id, _) => if id in o then Some(o - multiset{id}) else None
      case AssistantMessage(_, calls) => if o == multiset{} then Some(multiset(WireCallIds(calls))) else None
      case _ => if o == multiset{} then open else None
  }

  function WireScan(open: Open, ws: seq<WireMessage>): Open
    decreases |ws|
  {
    if ws == [] then open else WireScan(WireStep(open, ws[0]), ws[1..])
  }

  lemma {:induction false} ScanOfBroken(ws: seq<WireMessage>)
    ensures WireScan(None, ws).None?
  {
    if ws != [] { ScanOfBroken(ws[1..]); }
  }

  lemma {:induction false} WireScanAppend(open: Open, a: seq<WireMessage>, b: seq<WireMessage>)
    ensures WireScan(open, a + b) == WireScan(WireScan(open, a), b)
    decreases |a|
  {
    if a == [] {
      assert a + b == b;
    } else {
      assert (a + b)[1..] == a[1..] + b;
      WireScanAppend(WireStep(open, a[0]), a[1..], b);
    }
  }

  // The list opens with exactly the answers to the calls o.
  predicate AnsweredFirst(o: multiset<string>, ws: seq<WireMessage>) {
    ToolsFirst(ws, |o|) && multiset(ToolIds(ws[..|o|])) == o
  }

  // With calls open, exactly their answers must come next.
  lemma {:induction false} OpenCallsAreNext(o: multiset<string>, ws: seq<WireMessage>)
    ensures WireScan(Some(o), ws) == Some(multiset{}) <==>
              AnsweredFirst(o, ws) && WireScan(Some(multiset{}), ws[|o|..]) == Some(multiset{})
    decreases |ws|
  {
    hide ToolIds, WireScan, ToolsFirst;
    if o == multiset{} {
      NothingOpen(ws);
    } else if ws != [] && ws[0].ToolMessage? && ws[0].callId in o {
      var o' := o - multiset{ws[0].callId};
      FirstAnswer(o, ws);
      OpenCallsAreNext(o', ws[1..]);
      assert |o'| == |o| - 1;
      TakeAnswer(o, ws);
    } else {
      NoFirstAnswer(o, ws);
    }
  }

  lemma NothingOpen(ws: seq<WireMessage>)
    ensures AnsweredFirst(multiset{}, ws) && ws[0..] == ws
  {
    assert ws[..0] == [];
  }

  lemma TakeAnswer(o: multiset<string>, ws: seq<WireMessage>)
    requires ws != [] && ws[0].ToolMessage? && ws[0].callId in o
    ensures WireScan(Some(o), ws) == WireScan(Some(o - multiset{ws[0].callId}), ws[1..])
    ensures forall n: nat :: n > 0 ==> (ToolsFirst(ws, n) <==> ToolsFirst(ws[1..], n - 1))
  {}

  lemma NoFirstAnswer(o: multiset<string>, ws: seq<WireMessage>)
    requires o != multiset{}
    requires ws == [] || !ws[0].ToolMessage? || ws[0].callId !in o
    ensures WireScan(Some(o), ws) != Some(multiset{}) && !AnsweredFirst(o, ws)
  {
    if ws != [] {
      ScanOfBroken(ws[1..]);
      if ws[0].ToolMessage? {
        FirstAnswer(o, ws);
      }
    }
  }

  lemma FirstAnswer(o: multiset<string>, ws: seq<WireMessage>)
    requires o != multiset{} && ws != [] && ws[0].ToolMessage?
    ensures var id := ws[0].callId;
            |o| <= |ws| ==>
              && (multiset(ToolIds(ws[..|o|])) == o
                  <==> id in o && multiset(ToolIds(ws[1..][..|o| - 1])) == o - multiset{id})
              && ws[|o|..] == ws[1..][|o| - 1..]
  {
    var id, rest, n := ws[0].callId, ws[1..], |o|;
    if n <= |ws| {
      assert ws[..n][1..] == rest[..n - 1];
      FirstToolId(ws[..n]);
      hide ToolIds;
      PrependedIds(id, ToolIds(rest[..n - 1]));
      TakeOne(id, multiset(ToolIds(rest[..n - 1])), o);
    }
  }

  lemma FirstToolId(ws: seq<WireMessage>)
    requires ws != [] && ws[0].ToolMessage?
    ensures ToolIds(ws) == [ws[0].callId] + ToolIds(ws[1..])
  {}

  lemma PrependedIds(id: string, ids: seq<string>)
    ensures multiset([id] + ids) == multiset{id} + multiset(ids)
  {}

  lemma TakeOne(id: string, ids: multiset<string>, o: multiset<string>)
    ensures multiset{id} + ids == o <==> id in o && ids == o - multiset{id}
  {
    if multiset{id} + ids == o {
      assert o - multiset{id} == ids;
    }
    if id in o && ids == o - multiset{id} {
      assert multiset{id} + (o - multiset{id}) == o;
    }
  }

  // Scanning and reading the list by groups agree.
  lemma {:induction false} ScanIsPairing(ws: seq<WireMessage>)
    ensures WellPaired(ws) <==> WireScan(Some(multiset{}), ws) == Some(multiset{})
    decreases |ws|
  {
    if ws != [] {
      match ws[0] {
        case ToolMessage(_, _) =>
          ScanOfBroken(ws[1..]);
        case AssistantMessage(_, calls) =>
          var ids := WireCallIds(calls);
          assert |multiset(ids)| == |calls|;
          OpenCallsAreNext(multiset(ids), ws[1..]);
          if |calls| < |ws| {
            ScanIsPairing(ws[1..][|calls|..]);
          }
        case _ =>
          ScanIsPairing(ws[1..]);
      }
    }
  }

  // ---------------------------------------------------------------- pairing in history

  // Reading one block of a results message against the open calls.
  function BlockStep(open: Open, b: ContentBlock): Open {
    match open
    case None => None
    case Some(o) =>
      match b
      case ToolResult(id, _, _) => if id in o then Some(o - multiset{id}) else None
      case Text(_) => if o == multiset{} then open else None
      case _ => open
  }

  function BlocksScan(open: Open, blocks: seq<ContentBlock>): Open {
    if blocks == [] then open else BlockStep(BlocksScan(open, blocks[..|blocks| - 1]), blocks[|blocks| - 1])
  }

  function MessageStep(open: Open, m: Message): Open {
    match m.role
    case Assistant =>
      if open == Some(multiset{}) then Some(multiset(CallIds(CallsOf(m.content)))) else None
    case User =>
      if HasToolResults(m.content) then BlocksScan(open, m.content)
      else if T.Join(TextsOf(m.content), "\n") == "" then open
      else if open == Some(multiset{}) then open
      else None
  }

  // The calls a history leaves unanswered; None when something else came in between.
  function Unanswered(msgs: seq<Message>): Open {
    if msgs == [] then Some(multiset{})
    else MessageStep(Unanswered(msgs[..|msgs| - 1]), msgs[|msgs| - 1])
  }

  lemma UnansweredPush(msgs: seq<Message>, m: Message)
    ensures Unanswered(msgs + [m]) == MessageStep(Unanswered(msgs), m)
  {
    assert (msgs + [m])[..|msgs|] == msgs;
  }

  lemma {:induction false} BlocksScanIsWireScan(open: Open, blocks: seq<ContentBlock>)
    ensures WireScan(open, ResultsWire(blocks)) == BlocksScan(open, blocks)
  {
    if blocks != [] {
      var front, last := blocks[..|blocks| - 1], blocks[|blocks| - 1];
      BlocksScanIsWireScan(open, front);
      WireScanAppend(open, ResultsWire(front), ResultWire(last));
      if ResultWire(last) != [] {
        assert ResultWire(last)[1..] == [];
      }
    }
  }

  lemma OneMessageScan(dialect: Dialect, open: Open, m: Message)
    ensures WireScan(open, WireOf(dialect, m)) == MessageStep(open, m)
  {
    var ws := WireOf(dialect, m);
    match m.role {
      case User =>
        if HasToolResults(m.content) {
          BlocksScanIsWireScan(open, m.content);
        } else if ws != [] {
          assert ws[1..] == [];
        }
      case Assistant =>
        assert ws[1..] == [];
        assert WireCallIds(ws[0].calls) == CallIds(CallsOf(m.content));
    }
  }

  lemma {:induction false} HistoryScan(dialect: Dialect, msgs: seq<Message>)
    ensures WireScan(Some(multiset{}), HistoryWire(dialect, msgs)) == Unanswered(msgs)
  {
    if msgs != [] {
      var front, last := msgs[..|msgs| - 1], msgs[|msgs| - 1];
      HistoryScan(dialect, front);
      WireScanAppend(Some(multiset{}), HistoryWire(dialect, front), WireOf(dialect, last));
      OneMessageScan(dialect, Unanswered(front), last);
    }
  }

  // The converted request is well paired exactly when the history answers every call at
  // once.
  lemma PairedOnTheWire(dialect: Dialect, systemPrompt: Option<string>, msgs: seq<Message>)
    ensures WellPaired(Converted(dialect, systemPrompt, msgs)) <==> Unanswered(msgs) == Some(multiset{})
  {
    HistoryScan(dialect, msgs);
    var ws := HistoryWire(dialect, msgs);
    ScanIsPairing(ws);
    if systemPrompt.Some? {
      var all := [SystemMessage(systemPrompt.value)] + ws;
      assert all[1..] == ws;
    } else {
      assert [] + ws == ws;
    }
  }

  // ---------------------------------------------------------------- answering

  lemma LastResultId(front: seq<ContentBlock>, last: ContentBlock)
    requires last.ToolResult?
    ensures ResultIds(front + [last]) == ResultIds(front) + [last.toolUseId]
  {
    ResultIdsAppend(front, [last]);
    assert [last][1..] == [];
  }

  lemma RemoveOneMore(o: multiset<string>, ids: multiset<string>, id: string)
    ensures ids + multiset{id} <= o <==> ids <= o && id in o - ids
    ensures ids + multiset{id} <= o ==> o - (ids + multiset{id}) == (o - ids) - multiset{id}
  {
    if ids <= o && id in o - ids {
      assert o[id] >= ids[id] + 1;
    }
  }

  // A results message closes the open calls exactly when its ids are those calls.
  lemma {:induction false} ResultsScan(o: multiset<string>, blocks: seq<ContentBlock>)
    requires forall k :: 0 <= k < |blocks| ==> blocks[k].ToolResult?
    ensures BlocksScan(Some(o), blocks)
         == if multiset(ResultIds(blocks)) <= o then Some(o - multiset(ResultIds(blocks))) else None
  {
    hide ResultIds;
    if blocks == [] {
      NothingAnswered(o);
    } else {
      var front, last := blocks[..|blocks| - 1], blocks[|blocks| - 1];
      ResultsScan(o, front);
      assert blocks == front + [last];
      LastResultId(front, last);
      var ids := multiset(ResultIds(front));
      PushedIds(ResultIds(front), last.toolUseId);
      RemoveOneMore(o, ids, last.toolUseId);
    }
  }

  lemma NothingAnswered(o: multiset<string>)
    ensures ResultIds([]) == [] && multiset(ResultIds([])) == multiset{}
    ensures multiset{} <= o && o - multiset{} == o
  {}

  lemma PushedIds(ids: seq<string>, id: string)
    ensures multiset(ids + [id]) == multiset(ids) + multiset{id}
  {}

  lemma {:induction false} AllResults(blocks: seq<ContentBlock>)
    requires forall k :: 0 <= k < |blocks| ==> blocks[k].ToolResult?
    ensures |ResultIds(blocks)| == |blocks|
  {
    if blocks != [] { AllResults(blocks[1..]); }
  }

  lemma AnswerCloses(o: multiset<string>, m: Message)
    requires m.role == User && m.content != []
    requires forall k :: 0 <= k < |m.content| ==> m.content[k].ToolResult?
    ensures MessageStep(Some(o), m) == Some(multiset{}) <==> multiset(ResultIds(m.content)) == o
  {
    assert m.content[0].ToolResult?;
    ResultsScan(o, m.content);
    var ids := multiset(ResultIds(m.content));
    if ids <= o && o - ids == multiset{} {
      assert o == ids + (o - ids);
    }
  }
}
