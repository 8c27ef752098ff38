// The content-block accumulator of the streaming loops
// (clareon-core/src/conversation/session.rs and manager.rs): a vector of blocks and a
// map of unfinished tool inputs, updated event by event.

module Accumulator {
  import opened Types

  datatype Acc = Acc(
    blocks: seq<ContentBlock>,
    inputs: map<nat, string>,
    stop: Option<StopReason>,
    usage: Usage)

  const EMPTY := Acc([], map[], None, ZERO_USAGE)

  const INVALID_JSON := JObject(map["error" := JString("Invalid JSON")])

  function ParsedInput(parse: JsonParser, json: string): Json {
    match parse(json) case Some(v) => v case None => INVALID_JSON
  }

  // Vectors grow with empty text blocks until the index exists.
  function Pad(blocks: seq<ContentBlock>, index: nat): (r: seq<ContentBlock>)
    ensures |r| == if |blocks| <= index then index + 1 else |blocks|
    ensures forall k :: 0 <= k < |r| ==> r[k] == if k < |blocks| then blocks[k] else Text("")
    decreases index + 1 - |blocks|
  {
    if |blocks| <= index then Pad(blocks + [Text("")], index) else blocks
  }

  function Apply(parse: JsonParser, a: Acc, ev: StreamEvent): Acc {
    match ev
    case BlockStart(i, block) =>
      a.(blocks := Pad(a.blocks, i)[i := block],
         inputs := if block.ToolUse? then a.inputs[i := ""] else a.inputs)
    case BlockDelta(i, TextDelta(text)) =>
      var blocks := Pad(a.blocks, i);
      a.(blocks := if blocks[i].Text? then blocks[i := Text(blocks[i].text + text)] else blocks)
    case BlockDelta(i, InputDelta(partial)) =>
      var blocks := Pad(a.blocks, i);
      var json := (if i in a.inputs then a.inputs[i] else "") + partial;
      a.(blocks := if blocks[i].ToolUse? then blocks[i := blocks[i].(input := JString(json))] else blocks,
         inputs := a.inputs[i := json])
    case BlockStop(i) =>
      if i !in a.inputs then a
      else
        a.(inputs := a.inputs - {i},
           blocks := if i < |a.blocks| && a.blocks[i].ToolUse?
                     then a.blocks[i := a.blocks[i].(input := ParsedInput(parse, a.inputs[i]))]
                     else a.blocks)
    case MessageStop(reason) => a.(stop := Some(reason))
    case UsageReport(u) => a.(usage := u)
  }

  function ApplyAll(parse: JsonParser, a: Acc, evs: seq<StreamEvent>): Acc {
    if evs == [] then a
    else Apply(parse, ApplyAll(parse, a, evs[..|evs| - 1]), evs[|evs| - 1])
  }

  function Accumulate(parse: JsonParser, evs: seq<StreamEvent>): Acc { ApplyAll(parse, EMPTY, evs) }

  // ---------------------------------------------------------------- per-index automata

  // What one index sees: its block so far and its unfinished input.
  datatype Cell = Cell(block: ContentBlock, input: Option<string>)

  const FRESH := Cell(Text(""), None)

  predicate Concerns(ev: StreamEvent, i: nat) {
    (ev.BlockStart? || ev.BlockDelta? || ev.BlockStop?) && ev.index == i
  }

  function StepCell(parse: JsonParser, c: Cell, ev: StreamEvent): Cell {
    match ev
    case BlockStart(_, block) => Cell(block, if block.ToolUse? then Some("") else c.input)
    case BlockDelta(_, TextDelta(text)) =>
      if c.block.Text? then c.(block := Text(c.block.text + text)) else c
    case BlockDelta(_, InputDelta(partial)) =>
      var json := (if c.input.Some? then c.input.value else "") + partial;
      Cell(if c.block.ToolUse? then c.block.(input := JString(json)) else c.block, Some(json))
    case BlockStop(_) =>
      if c.input.None? then c
      else Cell(if c.block.ToolUse? then c.block.(input := ParsedInput(parse, c.input.value)) else c.block, None)
    case _ => c
  }

  function RunCell(parse: JsonParser, evs: seq<StreamEvent>): Cell {
    if evs == [] then FRESH
    else StepCell(parse, RunCell(parse, evs[..|evs| - 1]), evs[|evs| - 1])
  }

  // The events that carry index i, in order.
  function At(evs: seq<StreamEvent>, i: nat): (r: seq<StreamEvent>)
    ensures forall ev :: ev in r ==> ev in evs && Concerns(ev, i)
  {
    if evs == [] then []
    else
      var last := evs[|evs| - 1];
      At(evs[..|evs| - 1], i) + (if Concerns(last, i) then [last] else [])
  }

  predicate Grows(ev: StreamEvent) { ev.BlockStart? || ev.BlockDelta? }

  // One more than the largest index that was started or received a delta.
  function Width(evs: seq<StreamEvent>): (w: nat)
    ensures forall ev :: ev in evs && Grows(ev) ==> ev.index < w
    ensures w > 0 ==> exists ev :: ev in evs && Grows(ev) && ev.index == w - 1
  {
    if evs == [] then 0
    else
      var front, last := evs[..|evs| - 1], evs[|evs| - 1];
      assert evs == front + [last];
      var w := Width(front);
      if Grows(last) && last.index >= w then last.index + 1 else w
  }

  // The vector-and-map accumulator is a row of independent per-index automata.
  ghost predicate Refines(parse: JsonParser, a: Acc, evs: seq<StreamEvent>) {
    && |a.blocks| == Width(evs)
    && (forall i: nat :: i < |a.blocks| ==> a.blocks[i] == RunCell(parse, At(evs, i)).block)
    && (forall i: nat :: i in a.inputs <==> RunCell(parse, At(evs, i)).input.Some?)
    && (forall i: nat :: i in a.inputs ==> Some(a.inputs[i]) == RunCell(parse, At(evs, i)).input)
  }

  lemma {:induction false} AccumulatorRefinesCells(parse: JsonParser, evs: seq<StreamEvent>)
    ensures Refines(parse, Accumulate(parse, evs), evs)
  {
    if evs == [] {
      forall i: nat ensures RunCell(parse, At(evs, i)) == FRESH { assert At(evs, i) == []; }
    } else {
      var front, last := evs[..|evs| - 1], evs[|evs| - 1];
      AccumulatorRefinesCells(parse, front);
      StepRefines(parse, Accumulate(parse, front), front, last);
      assert evs == front + [last];
    }
  }

  lemma AtStep(parse: JsonParser, front: seq<StreamEvent>, last: StreamEvent, i: nat)
    ensures At(front + [last], i) == At(front, i) + (if Concerns(last, i) then [last] else [])
    ensures RunCell(parse, At(front + [last], i))
         == if Concerns(last, i) then StepCell(parse, RunCell(parse, At(front, i)), last)
            else RunCell(parse, At(front, i))
  {
    var evs := front + [last];
    assert evs[..|evs| - 1] == front;
    var r := At(evs, i);
    if Concerns(last, i) {
      assert r[..|r| - 1] == At(front, i);
    } else {
      assert r == At(front, i);
    }
  }

  // An index beyond the width has seen no start and no delta, so it is still fresh.
  lemma {:induction false} BeyondWidthIsFresh(parse: JsonParser, evs: seq<StreamEvent>, i: nat)
    requires i >= Width(evs)
    ensures RunCell(parse, At(evs, i)) == FRESH
  {
    if evs == [] {
    } else {
      var front, last := evs[..|evs| - 1], evs[|evs| - 1];
      assert evs == front + [last];
      BeyondWidthIsFresh(parse, front, i);
      AtStep(parse, front, last, i);
    }
  }

  lemma WidthStep(front: seq<StreamEvent>, last: StreamEvent)
    ensures Width(front + [last])
         == if Grows(last) && last.index >= Width(front) then last.index + 1 else Width(front)
  {
    var evs := front + [last];
    assert evs[..|evs| - 1] == front;
  }

  lemma StepRefines(parse: JsonParser, a: Acc, front: seq<StreamEvent>, last: StreamEvent)
    requires Refines(parse, a, front)
    ensures Refines(parse, Apply(parse, a, last), front + [last])
  {
    hide At, RunCell, Width;
    var b := Apply(parse, a, last);
    WidthStep(front, last);
    forall i: nat
      ensures i < |b.blocks| ==> b.blocks[i] == RunCell(parse, At(front + [last], i)).block
      ensures i in b.inputs <==> RunCell(parse, At(front + [last], i)).input.Some?
      ensures i in b.inputs ==> Some(b.inputs[i]) == RunCell(parse, At(front + [last], i)).input
    {
      AtStep(parse, front, last, i);
      if i >= Width(front) { BeyondWidthIsFresh(parse, front, i); }
    }
  }

  // Two streams in which every index sees the same events accumulate the same blocks:
  // reordering across indices changes nothing.
  lemma SameEventsPerIndex(parse: JsonParser, evs: seq<StreamEvent>, evs': seq<StreamEvent>)
    requires forall i: nat :: At(evs, i) == At(evs', i)
    ensures Accumulate(parse, evs).blocks == Accumulate(parse, evs').blocks
    ensures Accumulate(parse, evs).inputs == Accumulate(parse, evs').inputs
  {
    hide At, RunCell, Width, Accumulate;
    AccumulatorRefinesCells(parse, evs);
    AccumulatorRefinesCells(parse, evs');
    WidthFromIndices(evs, evs');
    WidthFromIndices(evs', evs);
    var a, b := Accumulate(parse, evs), Accumulate(parse, evs');
    forall i: nat
      ensures i < |a.blocks| ==> a.blocks[i] == b.blocks[i]
      ensures i in a.inputs <==> i in b.inputs
      ensures i in a.inputs ==> a.inputs[i] == b.inputs[i]
    {
      assert At(evs, i) == At(evs', i);
    }
  }

  lemma {:induction false} AtContains(evs: seq<StreamEvent>, ev: StreamEvent, i: nat)
    requires ev in evs && Concerns(ev, i)
    ensures ev in At(evs, i)
  {
    var front, last := evs[..|evs| - 1], evs[|evs| - 1];
    assert evs == front + [last];
    if ev != last { AtContains(front, ev, i); }
  }

  lemma WidthFromIndices(evs: seq<StreamEvent>, evs': seq<StreamEvent>)
    requires forall i: nat :: At(evs, i) == At(evs', i)
    ensures Width(evs) <= Width(evs')
  {
    if Width(evs) > 0 {
      var ev :| ev in evs && Grows(ev) && ev.index == Width(evs) - 1;
      AtContains(evs, ev, ev.index);
      assert At(evs, ev.index) == At(evs', ev.index);
      assert ev in evs';
    }
  }

  lemma {:induction false} EmptyStartIsFresh(parse: JsonParser, deltas: seq<StreamEvent>, i: nat)
    ensures RunCell(parse, [BlockStart(i, Text(""))] + deltas) == RunCell(parse, deltas)
  {
    var start := [BlockStart(i, Text(""))];
    if deltas == [] {
      assert start + deltas == start;
      assert start[..0] == [];
    } else {
      var front, last := deltas[..|deltas| - 1], deltas[|deltas| - 1];
      EmptyStartIsFresh(parse, front, i);
      var all := start + deltas;
      assert all[..|all| - 1] == start + front && all[|all| - 1] == last;
    }
  }

  lemma {:induction false} AtAppend(a: seq<StreamEvent>, b: seq<StreamEvent>, i: nat)
    ensures At(a + b, i) == At(a, i) + At(b, i)
    decreases |b|
  {
    if b == [] {
      assert a + b == a;
    } else {
      assert (a + b)[..|a + b| - 1] == a + b[..|b| - 1];
      AtAppend(a, b[..|b| - 1], i);
    }
  }

  lemma {:induction false} WidthAppend(a: seq<StreamEvent>, b: seq<StreamEvent>)
    ensures Width(a + b) == if Width(a) < Width(b) then Width(b) else Width(a)
    decreases |b|
  {
    hide Width;
    if b == [] {
      assert a + b == a && Width([]) == 0 by { NoWidth(); }
    } else {
      var front, last := b[..|b| - 1], b[|b| - 1];
      assert b == front + [last] && a + b == (a + front) + [last];
      WidthAppend(a, front);
      WidthStep(a + front, last);
      WidthStep(front, last);
    }
  }

  lemma NoWidth()
    ensures Width([]) == 0
  {}

  // The events of a stream in which the start of a text block is put in front of the
  // first event of its index.
  function WithTextStart(before: seq<StreamEvent>, after: seq<StreamEvent>, i: nat): seq<StreamEvent> {
    before + ([BlockStart(i, Text(""))] + after)
  }

  lemma StartedCells(parse: JsonParser, before: seq<StreamEvent>, after: seq<StreamEvent>, i: nat, j: nat)
    requires At(before, i) == []
    ensures RunCell(parse, At(WithTextStart(before, after, i), j)) == RunCell(parse, At(before + after, j))
  {
    hide RunCell;
    var start := [BlockStart(i, Text(""))];
    AtAppend(before, start + after, j);
    AtAppend(start, after, j);
    AtAppend(before, after, j);
    assert start[..0] == [] && At(start, j) == if i == j then start else [];
    if i == j {
      assert [] + (start + At(after, i)) == start + At(after, i) && [] + At(after, i) == At(after, i);
      EmptyStartIsFresh(parse, At(after, i), i);
    } else {
      assert [] + At(after, j) == At(after, j);
    }
  }

  lemma StartedWidth(before: seq<StreamEvent>, after: seq<StreamEvent>, i: nat)
    ensures Width(WithTextStart(before, after, i))
         == if i < Width(before + after) then Width(before + after) else i + 1
  {
    hide Width;
    var start := [BlockStart(i, Text(""))];
    WidthAppend(before, start + after);
    WidthAppend(start, after);
    WidthAppend(before, after);
    WidthStep([], start[0]);
    assert [] + [start[0]] == start;
    NoWidth();
  }

  // A text block whose start never comes accumulates as if it had started empty
  // (Bedrock sends no start for text): the blocks are the same exactly when a start or a
  // delta at this index or beyond it comes at all, and the unfinished inputs always are.
  lemma MissingTextStart(parse: JsonParser, before: seq<StreamEvent>, after: seq<StreamEvent>, i: nat)
    requires At(before, i) == []
    ensures var a, b := Accumulate(parse, WithTextStart(before, after, i)), Accumulate(parse, before + after);
      && (a.blocks == b.blocks <==> i < Width(before + after))
      && a.inputs == b.inputs
  {
    hide At, RunCell, Width, Accumulate, WithTextStart;
    var evs, evs' := WithTextStart(before, after, i), before + after;
    AccumulatorRefinesCells(parse, evs);
    AccumulatorRefinesCells(parse, evs');
    StartedWidth(before, after, i);
    var a, b := Accumulate(parse, evs), Accumulate(parse, evs');
    forall j: nat
      ensures j < |a.blocks| && j < |b.blocks| ==> a.blocks[j] == b.blocks[j]
      ensures j in a.inputs <==> j in b.inputs
      ensures j in a.inputs ==> a.inputs[j] == b.inputs[j]
    {
      StartedCells(parse, before, after, i, j);
    }
  }

  // ---------------------------------------------------------------- as it runs

  // The local variables of the streaming loop.
  class StreamState {
    var contentBlocks: seq<ContentBlock>
    var toolInputs: map<nat, string>
    var stopReason: Option<StopReason>
    var usage: Usage
    ghost var seen: seq<StreamEvent>

    ghost function View(): Acc reads this { Acc(contentBlocks, toolInputs, stopReason, usage) }

    ghost predicate Valid(parse: JsonParser) reads this { Refines(parse, View(), seen) }

    constructor (parse: JsonParser)
      ensures Valid(parse) && View() == EMPTY && seen == []
    {
      contentBlocks, toolInputs, stopReason, usage, seen := [], map[], None, ZERO_USAGE, [];
      new;
      AccumulatorRefinesCells(parse, []);
    }

    method PadTo(index: nat)
      modifies this`contentBlocks
      ensures contentBlocks == Pad(old(contentBlocks), index)
    {
      while |contentBlocks| <= index
        invariant Pad(contentBlocks, index) == Pad(old(contentBlocks), index)
        decreases index + 1 - |contentBlocks|
      {
        contentBlocks := contentBlocks + [Text("")];
      }
    }

    // One event of the backend stream. Afterwards every block is what its own index's
    // events make of it.
    method Handle(parse: JsonParser, event: StreamEvent)
      requires Valid(parse)
      modifies this
      ensures Valid(parse) && seen == old(seen) + [event]
      ensures View() == Apply(parse, old(View()), event)
    {
      hide Refines;
      ghost var before := View();
      match event {
        case BlockStart(index, block) =>
          PadTo(index);
          contentBlocks := contentBlocks[index := block];
          if block.ToolUse? {
            toolInputs := toolInputs[index := ""];
          }
        case BlockDelta(index, delta) =>
          PadTo(index);
          match delta {
            case TextDelta(text) =>
              if contentBlocks[index].Text? {
                contentBlocks := contentBlocks[index := Text(contentBlocks[index].text + text)];
              }
            case InputDelta(partialJson) =>
              var soFar := if index in toolInputs then toolInputs[index] else "";
              toolInputs := toolInputs[index := soFar + partialJson];
              if contentBlocks[index].ToolUse? {
                contentBlocks := contentBlocks[index := contentBlocks[index].(input := JString(toolInputs[index]))];
              }
          }
        case BlockStop(index) =>
          if index in toolInputs {
            var json := toolInputs[index];
            toolInputs := toolInputs - {index};
            if index < |contentBlocks| && contentBlocks[index].ToolUse? {
              contentBlocks := contentBlocks[index := contentBlocks[index].(input := ParsedInput(parse, json))];
            }
          }
        case MessageStop(reason) =>
          stopReason := Some(reason);
        case UsageReport(u) =>
          usage := u;
      }
      assert View() == Apply(parse, before, event);
      StepRefines(parse, before, seen, event);
      seen := seen + [event];
    }
  }
}
