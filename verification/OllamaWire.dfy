// Ollama's wire format carries no call ids: a tool message answers the call in its place
// (convert_messages in clareon-core/src/backend/ollama.rs).

module OllamaWire {
  import opened Types
  import opened Session
  import opened Approval
  import opened Gating
  import Pairing
  import Remembering
  import Wire
  import T = Text

  datatype WireRole = System | FromUser | FromAssistant | Tool

  datatype WireCall = WireCall(name: string, arguments: Json)

  datatype WireMessage = WireMessage(role: WireRole, text: string, images: seq<string>, calls: seq<WireCall>)

  // ---------------------------------------------------------------- conversion

  function ImagesOf(blocks: seq<ContentBlock>): seq<string> {
    if blocks == [] then []
    else
      var n := |blocks| - 1;
      ImagesOf(blocks[..n]) + (if blocks[n].Image? then [blocks[n].source] else [])
  }

  function Texts(blocks: seq<ContentBlock>): seq<string> {
    if blocks == [] then []
    else
      var n := |blocks| - 1;
      Texts(blocks[..n]) + (if blocks[n].Text? then [blocks[n].text] else [])
  }

  function Calls(blocks: seq<ContentBlock>): seq<WireCall> {
    if blocks == [] then []
    else
      var n := |blocks| - 1;
      Calls(blocks[..n]) + (if blocks[n].ToolUse? then [WireCall(blocks[n].name, blocks[n].input)] else [])
  }

  function ToolTexts(blocks: seq<ContentBlock>): seq<WireMessage> {
    if blocks == [] then []
    else
      var n := |blocks| - 1;
      ToolTexts(blocks[..n])
      + (if blocks[n].ToolResult? then [WireMessage(Tool, T.Join(blocks[n].content, "\n"), [], [])] else [])
  }

  function WireOf(m: Message): seq<WireMessage> {
    var texts, images, calls := Texts(m.content), ImagesOf(m.content), Calls(m.content);
    (if texts == [] && images == [] && calls == [] then []
     else [WireMessage(if m.role == User then FromUser else FromAssistant, T.Join(texts, "\n"), images, calls)])
    + ToolTexts(m.content)
  }

  function HistoryWire(msgs: seq<Message>): seq<WireMessage> {
    if msgs == [] then [] else HistoryWire(msgs[..|msgs| - 1]) + WireOf(msgs[|msgs| - 1])
  }

  method ConvertMessage(m: Message) returns (out: seq<WireMessage>)
    ensures out == WireOf(m)
  {
    hide T.Join;
    var textParts, images: seq<string>, toolCalls: seq<WireCall>, toolResults: seq<WireMessage> := [], [], [], [];
    for i := 0 to |m.content|
      invariant textParts == Texts(m.content[..i]) && images == ImagesOf(m.content[..i])
      invariant toolCalls == Calls(m.content[..i]) && toolResults == ToolTexts(m.content[..i])
    {
      assert m.content[..i + 1][..i] == m.content[..i];
      match m.content[i] {
        case Text(text) =>
          textParts := textParts + [text];
        case Image(source) =>
          images := images + [source];
        case ToolUse(_, name, input) =>
          toolCalls := toolCalls + [WireCall(name, input)];
        case ToolResult(_, content, _) =>
          toolResults := toolResults + [WireMessage(Tool, T.Join(content, "\n"), [], [])];
      }
    }
    assert m.content[..|m.content|] == m.content;
    out := [];
    if textParts != [] || images != [] || toolCalls != [] {
      var role := if m.role == User then FromUser else FromAssistant;
      out := [WireMessage(role, T.Join(textParts, "\n"), images, toolCalls)];
    }
    out := out + toolResults;
  }

  method ConvertMessages(systemPrompt: Option<string>, msgs: seq<Message>) returns (result: seq<WireMessage>)
    ensures result
         == (if systemPrompt.Some? then [WireMessage(System, systemPrompt.value, [], [])] else []) + HistoryWire(msgs)
  {
    hide WireOf;
    result := [];
    if systemPrompt.Some? {
      result := [WireMessage(System, systemPrompt.value, [], [])];
    }
    ghost var head := result;
    for i := 0 to |msgs|
      invariant result == head + HistoryWire(msgs[..i])
    {
      assert msgs[..i + 1][..i] == msgs[..i];
      var more := ConvertMessage(msgs[i]);
      result := result + more;
    }
    assert msgs[..|msgs|] == msgs;
  }

  // A message of results becomes one tool message per result, in order, and nothing else.
  lemma {:induction false} ResultsInOrder(rs: seq<ContentBlock>)
    requires Pairing.AllResults(rs)
    ensures Texts(rs) == [] && ImagesOf(rs) == [] && Calls(rs) == [] && |ToolTexts(rs)| == |rs|
    ensures forall k :: 0 <= k < |rs| ==>
              ToolTexts(rs)[k] == WireMessage(Tool, T.Join(rs[k].content, "\n"), [], [])
  {
    hide T.Join;
    if rs != [] { ResultsInOrder(rs[..|rs| - 1]); }
  }

  lemma ResultsAreToolMessages(id: int, now: int, rs: seq<ContentBlock>)
    requires Pairing.AllResults(rs)
    ensures var ws := WireOf(ResultsMessage(id, now, rs));
      |ws| == |rs| && forall k :: 0 <= k < |ws| ==> ws[k] == WireMessage(Tool, T.Join(rs[k].content, "\n"), [], [])
  {
    hide T.Join;
    ResultsInOrder(rs);
    assert [] + ToolTexts(rs) == ToolTexts(rs);
  }

  // ---------------------------------------------------------------- what a message becomes

  function Sources(blocks: seq<ContentBlock>): seq<string> {
    if blocks == [] then [] else (if blocks[0].Image? then [blocks[0].source] else []) + Sources(blocks[1..])
  }

  function Results(blocks: seq<ContentBlock>): seq<ContentBlock> {
    if blocks == [] then [] else (if blocks[0].ToolResult? then [blocks[0]] else []) + Results(blocks[1..])
  }

  predicate SameCalls(ws: seq<WireCall>, calls: seq<Call>) {
    && |ws| == |calls|
    && forall k :: 0 <= k < |calls| ==> ws[k].name == calls[k].name && ws[k].arguments == calls[k].input
  }

  predicate ToolMessages(ws: seq<WireMessage>, results: seq<ContentBlock>) {
    && |ws| == |results|
    && forall k :: 0 <= k < |ws| ==>
         && results[k].ToolResult? && ws[k].role == Tool && ws[k].text == T.Join(results[k].content, "\n")
         && ws[k].images == [] && ws[k].calls == []
  }

  lemma FirstSources(blocks: seq<ContentBlock>)
    requires blocks != []
    ensures Sources(blocks) == (if blocks[0].Image? then [blocks[0].source] else []) + Sources(blocks[1..])
    ensures Sources([]) == []
  {}

  lemma {:induction false} SourcesPush(blocks: seq<ContentBlock>, b: ContentBlock)
    ensures Sources(blocks + [b]) == Sources(blocks) + (if b.Image? then [b.source] else [])
  {
    hide Sources;
    FirstSources(blocks + [b]);
    if blocks == [] {
      assert [b][1..] == [] && [] + [b] == [b];
    } else {
      FirstSources(blocks);
      assert (blocks + [b])[1..] == blocks[1..] + [b];
      SourcesPush(blocks[1..], b);
      var head, last := if blocks[0].Image? then [blocks[0].source] else [], if b.Image? then [b.source] else [];
      assert head + (Sources(blocks[1..]) + last) == (head + Sources(blocks[1..])) + last;
    }
  }

  lemma FirstResults(blocks: seq<ContentBlock>)
    requires blocks != []
    ensures Results(blocks) == (if blocks[0].ToolResult? then [blocks[0]] else []) + Results(blocks[1..])
    ensures Results([]) == []
  {}

  lemma {:induction false} ResultsPush(blocks: seq<ContentBlock>, b: ContentBlock)
    ensures Results(blocks + [b]) == Results(blocks) + (if b.ToolResult? then [b] else [])
  {
    hide Results;
    FirstResults(blocks + [b]);
    if blocks == [] {
      assert [b][1..] == [] && [] + [b] == [b];
    } else {
      FirstResults(blocks);
      assert (blocks + [b])[1..] == blocks[1..] + [b];
      ResultsPush(blocks[1..], b);
      var head, last := if blocks[0].ToolResult? then [blocks[0]] else [], if b.ToolResult? then [b] else [];
      assert head + (Results(blocks[1..]) + last) == (head + Results(blocks[1..])) + last;
    }
  }

  // The four lists the conversion gathers are the message's texts, images, calls and
  // results, read from the front.
  lemma {:induction false} GatheredInOrder(blocks: seq<ContentBlock>)
    ensures Texts(blocks) == TextsOf(blocks) && ImagesOf(blocks) == Sources(blocks)
    ensures SameCalls(Calls(blocks), CallsOf(blocks)) && ToolMessages(ToolTexts(blocks), Results(blocks))
  {
    hide T.Join, TextsOf, CallsOf, Sources, Results;
    if blocks == [] {
      NothingGathered();
    } else {
      var front, last := blocks[..|blocks| - 1], blocks[|blocks| - 1];
      assert blocks == front + [last];
      GatheredInOrder(front);
      Wire.TextsOfPush(front, last);
      Wire.CallsOfPush(front, last);
      SourcesPush(front, last);
      ResultsPush(front, last);
    }
  }

  lemma NothingGathered()
    ensures TextsOf([]) == [] && CallsOf([]) == [] && Sources([]) == [] && Results([]) == []
  {}

  // A message with anything but results in it goes out as one message in its own role, with
  // its texts, a line each, its images and its calls by name and input; its results follow,
  // a tool message each, in order.
  lemma MessageOnTheWire(m: Message)
    ensures var ws, results := WireOf(m), Results(m.content);
      var plain := TextsOf(m.content) == [] && Sources(m.content) == [] && CallsOf(m.content) == [];
      && (plain ==> ToolMessages(ws, results))
      && (!plain ==>
            && ws != [] && ToolMessages(ws[1..], results)
            && (ws[0].role == FromUser <==> m.role == User) && (ws[0].role == FromAssistant <==> m.role == Assistant)
            && ws[0].text == T.Join(TextsOf(m.content), "\n")
            && ws[0].images == Sources(m.content) && SameCalls(ws[0].calls, CallsOf(m.content)))
  {
    hide T.Join, TextsOf, CallsOf, Sources, Results, Texts, ImagesOf, Calls, ToolTexts, SameCalls, ToolMessages;
    GatheredInOrder(m.content);
    NoCalls(Calls(m.content), CallsOf(m.content));
    assert [] + ToolTexts(m.content) == ToolTexts(m.content);
  }

  lemma NoCalls(ws: seq<WireCall>, calls: seq<Call>)
    requires SameCalls(ws, calls)
    ensures ws == [] <==> calls == []
  {}

  // ---------------------------------------------------------------- places

  // The k-th result answers the k-th call.
  predicate InPlace(calls: seq<Call>, rs: seq<ContentBlock>) {
    |rs| == |calls| && forall k :: 0 <= k < |rs| ==> rs[k].ToolResult? && rs[k].toolUseId == calls[k].id
  }

  lemma {:induction false} ResultIdAt(rs: seq<ContentBlock>)
    requires Pairing.AllResults(rs)
    ensures |ResultIds(rs)| == |rs| && forall k :: 0 <= k < |rs| ==> ResultIds(rs)[k] == rs[k].toolUseId
  {
    if rs != [] { ResultIdAt(rs[1..]); }
  }

  lemma InPlaceIsIds(calls: seq<Call>, rs: seq<ContentBlock>)
    requires Pairing.AllResults(rs)
    ensures InPlace(calls, rs) <==> ResultIds(rs) == CallIds(calls)
  {
    ResultIdAt(rs);
    if ResultIds(rs) == CallIds(calls) {
      forall k | 0 <= k < |rs| ensures rs[k].toolUseId == calls[k].id {
        assert ResultIds(rs)[k] == CallIds(calls)[k];
      }
    }
  }

  // No blocked call comes after one that is not.
  predicate BlockedFirst(codec: Codec, deny: seq<string>, calls: seq<Call>) {
    forall i, j :: 0 <= i < j < |calls| && IsDenied(codec, deny, calls[j]) ==> IsDenied(codec, deny, calls[i])
  }

  lemma {:induction false} NoneBlocked(codec: Codec, deny: seq<string>, calls: seq<Call>)
    requires forall c :: c in calls ==> !IsDenied(codec, deny, c)
    ensures Denied(codec, deny, calls) == [] && Remaining(codec, deny, calls) == calls
  {
    hide IsDenied;
    if calls != [] {
      NoneBlocked(codec, deny, calls[1..]);
      assert calls[0] in calls;
    }
  }

  lemma BlockedHead(head: Call, d: seq<Call>, r: seq<Call>, rest: seq<Call>)
    ensures ([head] + d) + r == [head] + rest <==> d + r == rest
  {
    assert ([head] + d) + r == [head] + (d + r);
    if [head] + (d + r) == [head] + rest {
      assert d + r == ([head] + (d + r))[1..] == ([head] + rest)[1..] == rest;
    }
  }

  lemma FreeHead(head: Call, d: seq<Call>, r: seq<Call>, rest: seq<Call>)
    requires head !in d && (d == [] ==> r == rest)
    ensures d + ([head] + r) == [head] + rest <==> d == []
  {
    if d == [] {
      assert d + ([head] + r) == [head] + r;
    } else {
      assert (d + ([head] + r))[0] == d[0] && ([head] + rest)[0] == head;
    }
  }

  // Putting the blocked calls first keeps the order exactly when they came first anyway.
  lemma {:induction false} SplitKeepsOrder(codec: Codec, deny: seq<string>, calls: seq<Call>)
    ensures Denied(codec, deny, calls) + Remaining(codec, deny, calls) == calls <==> BlockedFirst(codec, deny, calls)
  {
    hide IsDenied, BlockedFirst;
    if calls == [] {
      NothingFirst(codec, deny);
    } else {
      var head, rest := calls[0], calls[1..];
      var d, r := Denied(codec, deny, rest), Remaining(codec, deny, rest);
      SplitKeepsOrder(codec, deny, rest);
      SplitOne(codec, deny, calls);
      hide Denied, Remaining;
      assert calls == [head] + rest;
      if IsDenied(codec, deny, head) {
        BlockedHead(head, d, r, rest);
        BlockedRest(codec, deny, head, rest);
        assert [] + r == r;
      } else {
        FreeSplit(codec, deny, head, rest);
      }
    }
  }

  lemma NothingFirst(codec: Codec, deny: seq<string>)
    ensures BlockedFirst(codec, deny, []) && Denied(codec, deny, []) + Remaining(codec, deny, []) == []
  {}

  lemma SplitOne(codec: Codec, deny: seq<string>, calls: seq<Call>)
    requires calls != []
    ensures Denied(codec, deny, calls)
         == (if IsDenied(codec, deny, calls[0]) then [calls[0]] else []) + Denied(codec, deny, calls[1..])
    ensures Remaining(codec, deny, calls)
         == (if IsDenied(codec, deny, calls[0]) then [] else [calls[0]]) + Remaining(codec, deny, calls[1..])
  {}

  lemma FreeSplit(codec: Codec, deny: seq<string>, head: Call, rest: seq<Call>)
    requires !IsDenied(codec, deny, head)
    ensures var d, r := Denied(codec, deny, rest), Remaining(codec, deny, rest);
      ([] + d) + ([head] + r) == [head] + rest <==> BlockedFirst(codec, deny, [head] + rest)
  {
    hide IsDenied, BlockedFirst;
    var d, r := Denied(codec, deny, rest), Remaining(codec, deny, rest);
    SplitPartitions(codec, deny, rest);
    BlockedTail(codec, deny, head, rest);
    if forall c :: c in rest ==> !IsDenied(codec, deny, c) { NoneBlocked(codec, deny, rest); }
    if d == [] {
      NothingBlockedIn(codec, deny, rest);
    } else {
      assert d[0] in d && d[0] in multiset(d) + multiset(r);
      assert d[0] in rest;
    }
    assert [] + d == d;
    FreeHead(head, d, r, rest);
  }

  lemma NothingBlockedIn(codec: Codec, deny: seq<string>, calls: seq<Call>)
    requires Denied(codec, deny, calls) == []
    ensures forall c :: c in calls ==> !IsDenied(codec, deny, c)
  {
    hide IsDenied;
    SplitPartitions(codec, deny, calls);
    forall c | c in calls ensures !IsDenied(codec, deny, c) {
      assert c in multiset(calls);
      assert c in Remaining(codec, deny, calls);
    }
  }

  lemma BlockedRest(codec: Codec, deny: seq<string>, head: Call, rest: seq<Call>)
    requires IsDenied(codec, deny, head)
    ensures BlockedFirst(codec, deny, [head] + rest) <==> BlockedFirst(codec, deny, rest)
  {
    hide IsDenied;
    var all := [head] + rest;
    if BlockedFirst(codec, deny, all) {
      forall i, j | 0 <= i < j < |rest| && IsDenied(codec, deny, rest[j]) ensures IsDenied(codec, deny, rest[i]) {
        assert all[i + 1] == rest[i] && all[j + 1] == rest[j];
      }
    }
  }

  lemma BlockedTail(codec: Codec, deny: seq<string>, head: Call, rest: seq<Call>)
    requires !IsDenied(codec, deny, head)
    ensures BlockedFirst(codec, deny, [head] + rest) <==> forall c :: c in rest ==> !IsDenied(codec, deny, c)
  {
    hide IsDenied;
    var all := [head] + rest;
    if BlockedFirst(codec, deny, all) {
      forall c | c in rest ensures !IsDenied(codec, deny, c) {
        var k :| 0 <= k < |rest| && rest[k] == c;
        assert all[0] == head && all[k + 1] == c;
      }
    }
  }

  predicate DistinctIds(calls: seq<Call>) { forall i, j :: 0 <= i < j < |calls| ==> calls[i].id != calls[j].id }

  // With distinct ids two arrangements of the same calls are equal when their ids are.
  lemma SameIdsSameCalls(calls: seq<Call>, other: seq<Call>)
    requires DistinctIds(calls) && multiset(calls) == multiset(other)
    ensures CallIds(calls) == CallIds(other) <==> calls == other
  {
    if CallIds(calls) == CallIds(other) {
      assert |calls| == |CallIds(calls)| == |CallIds(other)| == |other|;
      forall k | 0 <= k < |calls| ensures calls[k] == other[k] {
        assert CallIds(calls)[k] == CallIds(other)[k];
        assert other[k] in multiset(calls);
        var j :| 0 <= j < |calls| && calls[j] == other[k];
        assert calls[j].id == calls[k].id;
      }
    }
  }

  // After an execution in which every tool joined, each tool message answers the call in
  // its place exactly when no blocked call of the batch comes after one that was not
  // blocked.
  lemma AnswersAreInPlace(env: Env, b: Batch, results: seq<Option<ContentBlock>>)
    requires Genuine(env, b) && DistinctIds(b.calls)
    requires Answers(results, b.remaining) && Pairing.AllJoined(results)
    ensures InPlace(b.calls, Rejections(b.denied, BLOCKED) + Joined(results))
       <==> BlockedFirst(env.codec, b.cfg.alwaysDeny, b.calls)
  {
    hide IsDenied, Joined, Rejections, ResultIds, CallIds, InPlace, Denied, Remaining, BlockedFirst;
    var denied, joined := Rejections(b.denied, BLOCKED), Joined(results);
    Pairing.JoinedIds(results, b.remaining);
    Pairing.Append2(denied, joined);
    InPlaceIsIds(b.calls, denied + joined);
    ResultIdsAppend(denied, joined);
    Pairing.CallIdsAppend(b.denied, b.remaining);
    SplitPartitions(env.codec, b.cfg.alwaysDeny, b.calls);
    assert multiset(b.denied + b.remaining) == multiset(b.calls);
    SameIdsSameCalls(b.calls, b.denied + b.remaining);
    SplitKeepsOrder(env.codec, b.cfg.alwaysDeny, b.calls);
  }

  lemma SpecDenies(codec: Codec, name: string, call: Call)
    requires T.TrimEnd(name) == name != ""
    ensures IsDenied(codec, ["tool:" + name], call) <==> call.name == name
  {
    hide Parse, T.TrimEnd;
    var specs := ["tool:" + name];
    Remembering.ParseTool(codec, name);
    assert specs[1..] == [];
    assert ParseRules(codec, specs) == [ToolRule(name)];
    assert Matches(ParseRules(codec, specs)[0], call.name, call.input) <==> call.name == name;
  }

  // One call runs and the one after it is blocked: the refusal comes first and takes the
  // place of the other's answer.
  lemma BlockedAfterFree(codec: Codec, parse: JsonParser)
    ensures var calls := [Call("1", "mcp_a", JNull), Call("2", "mcp_b", JNull)];
      var b := MakeBatch(Env(codec, parse, true), Config(true, [], ["tool:mcp_b"]), calls);
      var results := [Some(ToolResult("1", ["done"], None))];
      && Answers(results, b.remaining) && Pairing.AllJoined(results)
      && Rejections(b.denied, BLOCKED) + Joined(results)
         == [ToolResult("2", [BLOCKED], Some(true)), ToolResult("1", ["done"], None)]
      && !InPlace(calls, Rejections(b.denied, BLOCKED) + Joined(results))
  {
    hide IsDenied;
    var free, blocked := Call("1", "mcp_a", JNull), Call("2", "mcp_b", JNull);
    var deny := ["tool:mcp_b"];
    assert !T.IsWhitespace('b') && T.TextEnd("mcp_b") == 5 && "mcp_b"[..5] == "mcp_b";
    SpecDenies(codec, "mcp_b", free);
    SpecDenies(codec, "mcp_b", blocked);
    assert "tool:" + "mcp_b" == "tool:mcp_b";
    var calls, none := [free, blocked], [free, blocked][2..];
    assert calls[1..] == [blocked] && [blocked][1..] == none == [];
    assert Denied(codec, deny, [blocked]) == [blocked] && Remaining(codec, deny, [blocked]) == [];
    assert Denied(codec, deny, calls) == [blocked] && Remaining(codec, deny, calls) == [free];
    var results := [Some(ToolResult("1", ["done"], None))];
    assert results[1..] == [] && Joined(results) == [results[0].value];
  }
}
