// Chunking invariance: translating and accumulating a streamed response yields the same
// blocks however the response was cut into deltas, and the same blocks as converting the
// complete response.

module Chunking {
  import opened Types
  import opened Translator
  import opened Streaming
  import A = Accumulator

  // ---------------------------------------------------------------- what was said

  function TextOf(atoms: seq<Atom>): string {
    if atoms == [] then ""
    else
      var last := atoms[|atoms| - 1];
      TextOf(atoms[..|atoms| - 1]) + (if last.TextPiece? then last.text else "")
  }

  function ArgsOf(atoms: seq<Atom>, i: nat): string {
    if atoms == [] then ""
    else
      var last := atoms[|atoms| - 1];
      ArgsOf(atoms[..|atoms| - 1], i) + (if last.CallPiece? && last.index == i then last.arguments else "")
  }

  // The id and the name come from the first piece of a call.
  function HeadOf(atoms: seq<Atom>, i: nat): (h: Option<(string, string)>)
    ensures h.Some? ==> i in Started(atoms)
    ensures i > 0 && i in Started(atoms) ==> h.Some?
  {
    if atoms == [] then None
    else
      var front, last := HeadOf(atoms[..|atoms| - 1], i), atoms[|atoms| - 1];
      if front.Some? then front
      else if last.CallPiece? && last.index == i then Some((last.id, last.name))
      else None
  }

  function Extent(atoms: seq<Atom>): (n: nat)
    ensures forall i :: i in Started(atoms) ==> i < n
    ensures n > 0 ==> n - 1 in Started(atoms)
  {
    if atoms == [] then 0
    else
      var n, last := Extent(atoms[..|atoms| - 1]), atoms[|atoms| - 1];
      match last
      case TextPiece(_) => if n == 0 then 1 else n
      case CallPiece(i, _, _, _) => if n <= i then i + 1 else n
      case _ => n
  }

  predicate CallsAboveText(atoms: seq<Atom>) {
    forall k :: 0 <= k < |atoms| && atoms[k].CallPiece? ==> atoms[k].index > 0
  }

  // The block at index i of the finished reply.
  function FinalBlock(parse: JsonParser, atoms: seq<Atom>, i: nat): ContentBlock {
    if i == 0 then Text(TextOf(atoms))
    else
      match HeadOf(atoms, i)
      case None => Text("")
      case Some((id, name)) => ToolUse(id, name, A.ParsedInput(parse, ArgsOf(atoms, i)))
  }

  function Streamed(parse: JsonParser, atoms: seq<Atom>): seq<ContentBlock> {
    seq(Extent(atoms), i requires 0 <= i => FinalBlock(parse, atoms, i))
  }

  // ---------------------------------------------------------------- per index

  // The cell of index i while the content streams in.
  function ContentCell(atoms: seq<Atom>, i: nat): A.Cell {
    if i == 0 then A.Cell(Text(TextOf(atoms)), None)
    else
      match HeadOf(atoms, i)
      case None => A.FRESH
      case Some((id, name)) =>
        var args := ArgsOf(atoms, i);
        A.Cell(ToolUse(id, name, if args == "" then JObject(map[]) else JString(args)), Some(args))
  }

  lemma TwoSteps(parse: JsonParser, evs: seq<StreamEvent>, head: seq<StreamEvent>, deltas: seq<StreamEvent>, i: nat)
    requires |head| <= 1 && |deltas| <= 1
    ensures
      var c := A.RunCell(parse, A.At(evs, i));
      var c1 := if head != [] && A.Concerns(head[0], i) then A.StepCell(parse, c, head[0]) else c;
      var c2 := if deltas != [] && A.Concerns(deltas[0], i) then A.StepCell(parse, c1, deltas[0]) else c1;
      A.RunCell(parse, A.At(evs + (head + deltas), i)) == c2
  {
    hide A.At, A.RunCell;
    assert evs + (head + deltas) == (evs + head) + deltas;
    if head != [] {
      assert head == [head[0]];
      A.AtStep(parse, evs, head[0], i);
    } else {
      assert evs + head == evs;
    }
    if deltas != [] {
      assert deltas == [deltas[0]];
      A.AtStep(parse, evs + head, deltas[0], i);
    } else {
      assert evs + head + deltas == evs + head;
    }
  }

  lemma {:induction false} ArgsNeedHead(atoms: seq<Atom>, i: nat)
    requires HeadOf(atoms, i).None?
    ensures ArgsOf(atoms, i) == ""
  {
    if atoms != [] { ArgsNeedHead(atoms[..|atoms| - 1], i); }
  }

  lemma {:induction false} TextNeedsStart(atoms: seq<Atom>)
    requires 0 !in Started(atoms)
    ensures TextOf(atoms) == ""
  {
    if atoms != [] { TextNeedsStart(atoms[..|atoms| - 1]); }
  }

  lemma NothingStreamed(parse: JsonParser, i: nat)
    ensures A.RunCell(parse, A.At(Events([]), i)) == ContentCell([], i)
  {
    assert A.At([], i) == [];
  }

  lemma {:induction false} BodyCell(parse: JsonParser, atoms: seq<Atom>, i: nat)
    requires Body(atoms) && CallsAboveText(atoms)
    ensures A.RunCell(parse, A.At(Events(atoms), i)) == ContentCell(atoms, i)
  {
    hide A.At, A.RunCell, ContentCell, Emit, Events, Started;
    if atoms == [] {
      NothingStreamed(parse, i);
    } else {
      var front, last := atoms[..|atoms| - 1], atoms[|atoms| - 1];
      assert atoms == front + [last];
      BodyCell(parse, front, i);
      EventsStep(front, last);
      BodyCellStep(parse, Events(front), front, last, i);
    }
  }

  lemma BodyCellStep(parse: JsonParser, evs: seq<StreamEvent>, front: seq<Atom>, last: Atom, i: nat)
    requires Body([last]) && CallsAboveText([last])
    requires A.RunCell(parse, A.At(evs, i)) == ContentCell(front, i)
    ensures A.RunCell(parse, A.At(evs + Emit(Started(front), last), i)) == ContentCell(front + [last], i)
  {
    hide A.At, A.RunCell;
    var started := Started(front);
    assert (front + [last])[..|front|] == front;
    assert [last][0] == last;
    match last {
      case Spent(u) =>
        TwoSteps(parse, evs, [UsageReport(u)], [], i);
        assert [UsageReport(u)] + [] == [UsageReport(u)];
        assert TextOf(front) + "" == TextOf(front) && ArgsOf(front, i) + "" == ArgsOf(front, i);
      case TextPiece(text) =>
        var head := if 0 in started then [] else [BlockStart(0, Text(""))];
        TwoSteps(parse, evs, head, [BlockDelta(0, TextDelta(text))], i);
        if 0 !in started { TextNeedsStart(front); }
        assert ArgsOf(front, i) + "" == ArgsOf(front, i);
      case CallPiece(j, id, name, args) =>
        var head := if j in started then [] else [BlockStart(j, ToolUse(id, name, JObject(map[])))];
        var deltas := if args == "" then [] else [BlockDelta(j, InputDelta(args))];
        TwoSteps(parse, evs, head, deltas, i);
        assert TextOf(front) + "" == TextOf(front);
        assert ArgsOf(front, i) + "" == ArgsOf(front, i);
        if HeadOf(front, i).None? { ArgsNeedHead(front, i); }
    }
  }

  // ---------------------------------------------------------------- the end of the stream

  lemma {:induction false} StopsCell(parse: JsonParser, evs: seq<StreamEvent>, indices: seq<nat>, i: nat)
    requires StrictlyAscending(indices)
    ensures
      var c := A.RunCell(parse, A.At(evs, i));
      A.RunCell(parse, A.At(evs + Stops(indices), i))
      == if i in indices then A.StepCell(parse, c, BlockStop(i)) else c
    decreases |indices|
  {
    hide A.At, A.RunCell;
    if indices == [] {
      assert evs + Stops(indices) == evs;
    } else {
      var front, last := indices[..|indices| - 1], indices[|indices| - 1];
      assert indices == front + [last];
      StopsCell(parse, evs, front, i);
      assert evs + Stops(indices) == (evs + Stops(front)) + [BlockStop(last)];
      A.AtStep(parse, evs + Stops(front), BlockStop(last), i);
      assert last !in front;
    }
  }

  lemma {:induction false} QuietTail(parse: JsonParser, evs: seq<StreamEvent>, tail: seq<StreamEvent>, i: nat)
    requires forall k :: 0 <= k < |tail| ==> tail[k].UsageReport? || tail[k].MessageStop?
    ensures A.RunCell(parse, A.At(evs + tail, i)) == A.RunCell(parse, A.At(evs, i))
    ensures A.Width(evs + tail) == A.Width(evs)
    decreases |tail|
  {
    hide A.At, A.RunCell, A.Width;
    if tail == [] {
      assert evs + tail == evs;
    } else {
      var front, last := tail[..|tail| - 1], tail[|tail| - 1];
      QuietTail(parse, evs, front, i);
      assert evs + tail == (evs + front) + [last];
      A.AtStep(parse, evs + front, last, i);
      A.WidthStep(evs + front, last);
    }
  }

  lemma {:induction false} BodyWidth(atoms: seq<Atom>)
    requires Body(atoms)
    ensures A.Width(Events(atoms)) == Extent(atoms)
  {
    if atoms != [] {
      var front, last := atoms[..|atoms| - 1], atoms[|atoms| - 1];
      assert atoms == front + [last];
      BodyWidth(front);
      EventsStep(front, last);
      var evs := Events(front);
      match last {
        case Spent(u) => A.WidthStep(evs, UsageReport(u));
        case TextPiece(text) =>
          PieceWidth(evs, Started(front), 0, BlockStart(0, Text("")), [BlockDelta(0, TextDelta(text))]);
        case CallPiece(i, id, name, args) =>
          PieceWidth(evs, Started(front), i, BlockStart(i, ToolUse(id, name, JObject(map[]))),
                     if args == "" then [] else [BlockDelta(i, InputDelta(args))]);
      }
    }
  }

  lemma PieceWidth(evs: seq<StreamEvent>, started: set<nat>, i: nat, start: StreamEvent, deltas: seq<StreamEvent>)
    requires start.BlockStart? && start.index == i
    requires |deltas| <= 1 && (deltas != [] ==> deltas[0].BlockDelta? && deltas[0].index == i)
    requires i in started ==> i < A.Width(evs)
    ensures A.Width(evs + ((if i in started then [] else [start]) + deltas))
         == if i < A.Width(evs) then A.Width(evs) else i + 1
  {
    hide A.Width;
    var head := if i in started then [] else [start];
    if i in started { assert evs + head == evs; } else { A.WidthStep(evs, start); }
    if deltas == [] {
      assert evs + (head + deltas) == evs + head;
    } else {
      assert deltas == [deltas[0]];
      assert evs + (head + deltas) == (evs + head) + [deltas[0]];
      A.WidthStep(evs + head, deltas[0]);
    }
  }

  lemma {:induction false} StopsWidth(evs: seq<StreamEvent>, indices: seq<nat>)
    ensures A.Width(evs + Stops(indices)) == A.Width(evs)
    decreases |indices|
  {
    hide A.Width;
    if indices == [] {
      assert evs + Stops(indices) == evs;
    } else {
      var front, last := indices[..|indices| - 1], indices[|indices| - 1];
      StopsWidth(evs, front);
      assert evs + Stops(indices) == (evs + Stops(front)) + [BlockStop(last)];
      A.WidthStep(evs + Stops(front), BlockStop(last));
    }
  }

  // ---------------------------------------------------------------- the main results

  // The accumulated blocks of a finished stream, index by index, in terms of what was
  // said alone: concatenated text, and each call's head and concatenated arguments.
  lemma StreamedBlocks(parse: JsonParser, body: seq<Atom>, finish: Atom, tail: seq<Atom>)
    requires Body(body) && CallsAboveText(body)
    requires (finish.Finish? || finish.Done?) && UsageOnly(tail)
    ensures A.Accumulate(parse, Events(body + [finish] + tail)).blocks == Streamed(parse, body)
  {
    hide A.At, A.RunCell, A.Width, Events, Ending, ContentCell, Emit, A.Accumulate, Stops;
    EventsStep(body, finish);
    var u := UsageEvents(body + [finish], tail);
    var started := Started(body);
    var indices, ending := Ascending(started), Ending(started, finish);
    var evs := Events(body);
    var quiet := ending + u;
    var all := Events(body + [finish] + tail);
    assert all == (evs + Stops(indices)) + quiet;
    A.AccumulatorRefinesCells(parse, all);
    BodyWidth(body);
    StopsWidth(evs, indices);
    QuietTail(parse, evs + Stops(indices), quiet, 0);
    var blocks := A.Accumulate(parse, all).blocks;
    forall i: nat | i < |blocks| ensures blocks[i] == FinalBlock(parse, body, i) {
      BodyCell(parse, body, i);
      StopsCell(parse, evs, indices, i);
      QuietTail(parse, evs + Stops(indices), quiet, i);
      StoppedCell(parse, body, i);
    }
  }

  lemma StoppedCell(parse: JsonParser, body: seq<Atom>, i: nat)
    ensures
      var c := ContentCell(body, i);
      (if i in Started(body) then A.StepCell(parse, c, BlockStop(i)) else c).block == FinalBlock(parse, body, i)
  {}

  // However one response is cut into deltas and its calls interleaved, the blocks are
  // the same.
  lemma ChunkingInvariance(parse: JsonParser, body: seq<Atom>, body': seq<Atom>, finish: Atom, finish': Atom,
                           tail: seq<Atom>, tail': seq<Atom>)
    requires Body(body) && CallsAboveText(body) && Body(body') && CallsAboveText(body')
    requires (finish.Finish? || finish.Done?) && (finish'.Finish? || finish'.Done?)
    requires UsageOnly(tail) && UsageOnly(tail')
    requires TextOf(body) == TextOf(body') && Extent(body) == Extent(body')
    requires forall i :: HeadOf(body, i) == HeadOf(body', i) && ArgsOf(body, i) == ArgsOf(body', i)
    ensures A.Accumulate(parse, Events(body + [finish] + tail)).blocks
         == A.Accumulate(parse, Events(body' + [finish'] + tail')).blocks
  {
    hide TextOf, HeadOf, ArgsOf, Extent, Events, A.Accumulate, Body, CallsAboveText, UsageOnly;
    StreamedBlocks(parse, body, finish, tail);
    StreamedBlocks(parse, body', finish', tail');
    forall i: nat ensures FinalBlock(parse, body, i) == FinalBlock(parse, body', i) {
      assert HeadOf(body, i) == HeadOf(body', i) && ArgsOf(body, i) == ArgsOf(body', i);
    }
    assert Streamed(parse, body) == Streamed(parse, body');
  }

  // ---------------------------------------------------------------- complete responses

  datatype ResponseCall = ResponseCall(id: string, name: string, arguments: string)
  datatype Response = Response(text: Option<string>, calls: seq<ResponseCall>)

  function CallBlocks(parse: JsonParser, calls: seq<ResponseCall>, broken: Json): seq<ContentBlock> {
    seq(|calls|, k requires 0 <= k < |calls| =>
      ToolUse(calls[k].id, calls[k].name,
              match parse(calls[k].arguments) case Some(v) => v case None => broken))
  }

  // convert_response: text if there is any, then the calls; never an empty list.
  method ConvertResponse(parse: JsonParser, r: Response) returns (blocks: seq<ContentBlock>)
    ensures blocks == Converted(parse, r) && blocks != []
    ensures r.calls == [] ==> blocks == [Text(GetOr(r.text, ""))]
  {
    blocks := [];
    if r.text.Some? && r.text.value != "" {
      blocks := [Text(r.text.value)];
    }
    ghost var text := blocks;
    for k := 0 to |r.calls|
      invariant blocks == text + CallBlocks(parse, r.calls, JObject(map[]))[..k]
    {
      var tc := r.calls[k];
      var parsed := parse(tc.arguments);
      blocks := blocks + [ToolUse(tc.id, tc.name, if parsed.Some? then parsed.value else JObject(map[]))];
    }
    if blocks == [] {
      blocks := [Text("")];
    }
  }

  function Converted(parse: JsonParser, r: Response): seq<ContentBlock> {
    var blocks := (if r.text.Some? && r.text.value != "" then [Text(r.text.value)] else [])
                  + CallBlocks(parse, r.calls, JObject(map[]));
    if blocks == [] then [Text("")] else blocks
  }

  function DropEmptyTexts(blocks: seq<ContentBlock>): seq<ContentBlock> {
    if blocks == [] then []
    else (if blocks[0] == Text("") then [] else [blocks[0]]) + DropEmptyTexts(blocks[1..])
  }

  // The stream said what the complete response says.
  ghost predicate Spells(body: seq<Atom>, r: Response) {
    && TextOf(body) == GetOr(r.text, "")
    && (forall i: nat :: 0 < i <= |r.calls| ==>
          HeadOf(body, i) == Some((r.calls[i - 1].id, r.calls[i - 1].name)))
    && (forall i: nat :: i > |r.calls| ==> HeadOf(body, i).None?)
    && (forall i: nat :: 0 < i <= |r.calls| ==> ArgsOf(body, i) == r.calls[i - 1].arguments)
  }

  lemma {:induction false} NothingToDrop(blocks: seq<ContentBlock>)
    requires forall k :: 0 <= k < |blocks| ==> !blocks[k].Text?
    ensures DropEmptyTexts(blocks) == blocks
  {
    if blocks != [] { NothingToDrop(blocks[1..]); }
  }

  lemma DropWithText(text: string, calls: seq<ContentBlock>)
    requires forall k :: 0 <= k < |calls| ==> !calls[k].Text?
    ensures DropEmptyTexts([Text(text)] + calls) == (if text == "" then [] else [Text(text)]) + calls
  {
    NothingToDrop(calls);
    assert ([Text(text)] + calls)[1..] == calls;
  }

  lemma StreamedShape(parse: JsonParser, body: seq<Atom>, r: Response)
    requires CallsAboveText(body) && Spells(body, r)
    ensures var calls := CallBlocks(parse, r.calls, A.INVALID_JSON);
            Streamed(parse, body) == if Extent(body) == 0 then [] else [Text(TextOf(body))] + calls
    ensures Extent(body) == 0 ==> r.calls == [] && TextOf(body) == ""
  {
    hide TextOf, HeadOf, ArgsOf, Extent, Started;
    var n := Extent(body);
    if |r.calls| > 0 {
      assert HeadOf(body, |r.calls|).Some?;
    }
    if n > 1 {
      assert HeadOf(body, n - 1).Some?;
    }
    if n == 0 { TextNeedsStart(body); }
    assert n > 0 ==> n == |r.calls| + 1;
  }

  // Streaming and converting agree, up to empty text, exactly when every argument string
  // parses: a broken one becomes an error object in one and an empty object in the other.
  lemma StreamingMatchesComplete(parse: JsonParser, body: seq<Atom>, r: Response)
    requires CallsAboveText(body) && Spells(body, r)
    ensures DropEmptyTexts(Streamed(parse, body)) == DropEmptyTexts(Converted(parse, r))
       <==> forall k :: 0 <= k < |r.calls| ==> parse(r.calls[k].arguments).Some?
  {
    hide Spells, Streamed, Converted, DropEmptyTexts, CallBlocks;
    StreamedDropped(parse, body, r);
    ConvertedDropped(parse, r);
    var text := TextOf(body);
    assert text == GetOr(r.text, "") by { SpelledText(body, r); }
    CallBlocksAgree(parse, r.calls, if text == "" then [] else [Text(text)]);
  }

  lemma SpelledText(body: seq<Atom>, r: Response)
    requires Spells(body, r)
    ensures TextOf(body) == GetOr(r.text, "")
  {}

  lemma StreamedDropped(parse: JsonParser, body: seq<Atom>, r: Response)
    requires CallsAboveText(body) && Spells(body, r)
    ensures DropEmptyTexts(Streamed(parse, body))
         == (if TextOf(body) == "" then [] else [Text(TextOf(body))]) + CallBlocks(parse, r.calls, A.INVALID_JSON)
  {
    hide Spells, Streamed;
    StreamedShape(parse, body, r);
    DropWithText(TextOf(body), CallBlocks(parse, r.calls, A.INVALID_JSON));
  }

  lemma ConvertedDropped(parse: JsonParser, r: Response)
    ensures var text := GetOr(r.text, "");
      DropEmptyTexts(Converted(parse, r))
        == (if text == "" then [] else [Text(text)]) + CallBlocks(parse, r.calls, JObject(map[]))
  {
    var text, calls := GetOr(r.text, ""), CallBlocks(parse, r.calls, JObject(map[]));
    NothingToDrop(calls);
    DropWithText(text, calls);
    var head := if text == "" then [] else [Text(text)];
    if head + calls == [] {
      DropWithText("", []);
      assert [Text("")] + [] == [Text("")] && [] + calls == calls;
    } else if text == "" {
      assert [] + calls == calls;
    }
  }

  lemma CallBlocksAgree(parse: JsonParser, calls: seq<ResponseCall>, head: seq<ContentBlock>)
    ensures head + CallBlocks(parse, calls, A.INVALID_JSON) == head + CallBlocks(parse, calls, JObject(map[]))
       <==> forall k :: 0 <= k < |calls| ==> parse(calls[k].arguments).Some?
  {
    var a, b := CallBlocks(parse, calls, A.INVALID_JSON), CallBlocks(parse, calls, JObject(map[]));
    assert A.INVALID_JSON != JObject(map[]) by {
      assert "error" in A.INVALID_JSON.fields;
    }
    if forall k :: 0 <= k < |calls| ==> parse(calls[k].arguments).Some? {
      assert a == b;
    }
    if head + a == head + b {
      forall k | 0 <= k < |calls| ensures parse(calls[k].arguments).Some? {
        assert (head + a)[|head| + k] == a[k] && (head + b)[|head| + k] == b[k];
      }
    }
  }
}
