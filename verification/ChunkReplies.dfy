// From the provider's chunks to the finished reply: what was sent is what is accumulated,
// the reason the provider gave decides how the turn goes on, and the last usage counts.

module ChunkReplies {
  import opened Types
  import opened Translator
  import opened Streaming
  import opened Chunking
  import opened OllamaCalls
  import A = Accumulator
  import T = Text

  // ---------------------------------------------------------------- what the chunks hold

  function AllAtoms(chunks: seq<Chunk>): seq<Atom> {
    if chunks == [] then [] else AllAtoms(chunks[..|chunks| - 1]) + Atoms(chunks[|chunks| - 1])
  }

  function AllChoices(chunks: seq<Chunk>): seq<Choice> {
    if chunks == [] then [] else AllChoices(chunks[..|chunks| - 1]) + chunks[|chunks| - 1].choices
  }

  function ContentOf(cs: seq<Choice>): string {
    if cs == [] then "" else ContentOf(cs[..|cs| - 1]) + GetOr(cs[|cs| - 1].content, "")
  }

  function PiecesOf(cs: seq<Choice>): seq<ToolChunk> {
    if cs == [] then [] else PiecesOf(cs[..|cs| - 1]) + cs[|cs| - 1].toolCalls
  }

  // The pieces of one call; OpenRouter's unnumbered ones belong to the first.
  function PiecesAt(pieces: seq<ToolChunk>, i: nat): seq<ToolChunk> {
    if pieces == [] then []
    else
      var last := pieces[|pieces| - 1];
      PiecesAt(pieces[..|pieces| - 1], i) + (if GetOr(last.index, 0) == i then [last] else [])
  }

  function Arguments(pieces: seq<ToolChunk>): string {
    if pieces == [] then ""
    else Arguments(pieces[..|pieces| - 1]) + GetOr(pieces[|pieces| - 1].arguments, "")
  }

  function LastUsage(chunks: seq<Chunk>): Usage {
    if chunks == [] then Usage(0, 0)
    else GetOr(chunks[|chunks| - 1].usage, LastUsage(chunks[..|chunks| - 1]))
  }

  // The last choice finishes and no other does.
  predicate FinishedBy(cs: seq<Choice>, f: FinishReason) {
    && cs != [] && cs[|cs| - 1].finish == Some(f)
    && forall k :: 0 <= k < |cs| - 1 ==> cs[k].finish == None
  }

  // ---------------------------------------------------------------- what a reply must be

  predicate StopsFor(stop: Option<StopReason>, f: FinishReason) {
    && (stop == Some(ToolUseStop) <==> f.ToolCalls? || f.FunctionCall?)
    && (stop == Some(MaxTokens) <==> f.Length?)
    && (stop == Some(EndTurn) <==> f.Stop? || f.ContentFilter? || f.Failure?)
  }

  // The call the pieces make: head from the first of them, arguments from all, parsed, and
  // an error object where they do not parse.
  predicate Makes(parse: JsonParser, pieces: seq<ToolChunk>, i: nat, block: ContentBlock)
    requires pieces != []
  {
    && block.ToolUse?
    && block.id == (if pieces[0].id.Some? then pieces[0].id.value else "tool_" + T.Decimal(i))
    && block.name == (if pieces[0].name.Some? then pieces[0].name.value else "")
    && (match parse(Arguments(pieces))
        case Some(input) => block.input == input
        case None => block.input == JObject(map["error" := JString("Invalid JSON")]))
  }

  ghost predicate BlocksOf(parse: JsonParser, cs: seq<Choice>, blocks: seq<ContentBlock>) {
    var pieces := PiecesOf(cs);
    && (blocks == [] <==> pieces == [] && forall k :: 0 <= k < |cs| ==> cs[k].content == None)
    && (blocks != [] ==> blocks[0] == Text(ContentOf(cs)))
    && (forall p :: p in pieces ==> GetOr(p.index, 0) + 1 < |blocks|)
    && (|blocks| > 1 ==> PiecesAt(pieces, |blocks| - 2) != [])
    && forall i: nat :: 0 < i < |blocks| ==>
         if PiecesAt(pieces, i - 1) == [] then blocks[i] == Text("")
         else Makes(parse, PiecesAt(pieces, i - 1), i, blocks[i])
  }

  // ---------------------------------------------------------------- appending

  lemma TextPush(atoms: seq<Atom>, last: Atom)
    ensures TextOf(atoms + [last]) == TextOf(atoms) + (if last.TextPiece? then last.text else "")
  {
    assert (atoms + [last])[..|atoms|] == atoms;
  }

  lemma {:induction false} TextAppend(a: seq<Atom>, b: seq<Atom>)
    ensures TextOf(a + b) == TextOf(a) + TextOf(b)
  {
    hide TextOf;
    if b == [] {
      assert a + b == a && TextOf(a) + "" == TextOf(a);
      NoText();
    } else {
      var front, last := b[..|b| - 1], b[|b| - 1];
      assert b == front + [last] && a + b == (a + front) + [last];
      TextAppend(a, front);
      TextPush(a + front, last);
      TextPush(front, last);
      var more := if last.TextPiece? then last.text else "";
      assert TextOf(a) + (TextOf(front) + more) == (TextOf(a) + TextOf(front)) + more;
    }
  }

  lemma NoText()
    ensures TextOf([]) == ""
  {}

  // What a list of atoms comes to at an index of a call.
  datatype Gist = Gist(text: string, head: Option<(string, string)>, args: string)

  function GistOf(atoms: seq<Atom>, i: nat): Gist { Gist(TextOf(atoms), HeadOf(atoms, i), ArgsOf(atoms, i)) }

  function Combined(a: Gist, b: Gist): Gist {
    Gist(a.text + b.text, if a.head.Some? then a.head else b.head, a.args + b.args)
  }

  lemma GistAppend(a: seq<Atom>, b: seq<Atom>, i: nat)
    ensures GistOf(a + b, i) == Combined(GistOf(a, i), GistOf(b, i))
  {
    TextAppend(a, b);
    HeadAppends(a, b, i);
    ArgsAppend(a, b, i);
  }

  lemma {:induction false} PiecesAppend(a: seq<ToolChunk>, b: seq<ToolChunk>, i: nat)
    ensures PiecesAt(a + b, i) == PiecesAt(a, i) + PiecesAt(b, i)
  {
    if b == [] {
      assert a + b == a;
    } else {
      assert (a + b)[..|a + b| - 1] == a + b[..|b| - 1];
      PiecesAppend(a, b[..|b| - 1], i);
    }
  }

  lemma {:induction false} ArgumentsAppend(a: seq<ToolChunk>, b: seq<ToolChunk>)
    ensures Arguments(a + b) == Arguments(a) + Arguments(b)
  {
    if b == [] {
      assert a + b == a && Arguments(a) + "" == Arguments(a);
    } else {
      assert (a + b)[..|a + b| - 1] == a + b[..|b| - 1];
      ArgumentsAppend(a, b[..|b| - 1]);
      var front, last := Arguments(b[..|b| - 1]), GetOr(b[|b| - 1].arguments, "");
      assert Arguments(a) + (front + last) == (Arguments(a) + front) + last;
    }
  }

  // The gist of pieces at the index i of their call.
  function PiecesGist(text: string, pieces: seq<ToolChunk>, i: nat): Gist
    requires i > 0
  {
    var mine := PiecesAt(pieces, i - 1);
    Gist(text,
         if mine == [] then None else Some((GetOr(mine[0].id, "tool_" + T.Decimal(i)), GetOr(mine[0].name, ""))),
         Arguments(mine))
  }

  lemma PiecesGistAppend(s: string, a: seq<ToolChunk>, t: string, b: seq<ToolChunk>, i: nat)
    requires i > 0
    ensures PiecesGist(s + t, a + b, i) == Combined(PiecesGist(s, a, i), PiecesGist(t, b, i))
  {
    PiecesAppend(a, b, i - 1);
    ArgumentsAppend(PiecesAt(a, i - 1), PiecesAt(b, i - 1));
  }

  lemma OneAtom(a: Atom, i: nat)
    ensures TextOf([a]) == if a.TextPiece? then a.text else ""
    ensures HeadOf([a], i) == if a.CallPiece? && a.index == i then Some((a.id, a.name)) else None
    ensures ArgsOf([a], i) == if a.CallPiece? && a.index == i then a.arguments else ""
  {
    var one := [a];
    assert one[..|one| - 1] == [] && one[|one| - 1] == a;
    assert TextOf([]) == "" && HeadOf([], i) == None && ArgsOf([], i) == "";
    assert a.TextPiece? ==> "" + a.text == a.text;
    assert a.CallPiece? ==> "" + a.arguments == a.arguments;
    assert "" + "" == "";
  }

  lemma OnePiece(tc: ToolChunk, i: nat)
    ensures PiecesAt([tc], i) == if GetOr(tc.index, 0) == i then [tc] else []
    ensures Arguments([tc]) == GetOr(tc.arguments, "")
    ensures Arguments([]) == ""
  {
    var one := [tc];
    assert one[..|one| - 1] == [] && one[|one| - 1] == tc;
    assert PiecesAt([], i) == [];
    assert "" + GetOr(tc.arguments, "") == GetOr(tc.arguments, "");
  }

  lemma OnePieceGist(tc: ToolChunk, i: nat)
    requires i > 0
    ensures GistOf([CallAtom(tc)], i) == PiecesGist("", [tc], i)
  {
    hide TextOf, HeadOf, ArgsOf, PiecesAt, Arguments;
    OneAtom(CallAtom(tc), i);
    OnePiece(tc, i - 1);
  }

  lemma {:induction false} CallAtomsGist(tcs: seq<ToolChunk>, i: nat)
    requires i > 0
    ensures GistOf(CallAtoms(tcs), i) == PiecesGist("", tcs, i)
  {
    hide GistOf, PiecesGist, CallAtom;
    if tcs == [] {
      NoGist(i);
    } else {
      var front, last := tcs[..|tcs| - 1], tcs[|tcs| - 1];
      CallAtomsGist(front, i);
      OnePieceGist(last, i);
      assert tcs == front + [last] && CallAtoms(tcs) == CallAtoms(front) + [CallAtom(last)];
      GistAppend(CallAtoms(front), [CallAtom(last)], i);
      PiecesGistAppend("", front, "", [last], i);
      assert "" + "" == "";
    }
  }

  lemma NoGist(i: nat)
    ensures GistOf([], i) == Gist("", None, "")
    ensures i > 0 ==> PiecesGist("", [], i) == Gist("", None, "")
    ensures CallAtoms([]) == []
  {}

  lemma SilentGist(a: Atom, i: nat)
    ensures a.Spent? || a.Finish? || a.Done? ==> GistOf([a], i) == Gist("", None, "")
    ensures a.TextPiece? ==> GistOf([a], i) == Gist(a.text, None, "")
  {
    hide TextOf, HeadOf, ArgsOf;
    OneAtom(a, i);
  }

  lemma CombinedWithNothing(g: Gist)
    ensures Combined(g, Gist("", None, "")) == g == Combined(Gist("", None, ""), g)
  {
    assert g.text + "" == g.text == "" + g.text && g.args + "" == g.args == "" + g.args;
  }

  lemma ChoiceGist(c: Choice, i: nat)
    requires i > 0
    ensures GistOf(ChoiceAtoms(c), i) == PiecesGist(GetOr(c.content, ""), c.toolCalls, i)
  {
    hide GistOf, PiecesGist, CallAtoms, Combined;
    var text := if c.content.Some? then [TextPiece(c.content.value)] else [];
    var finish := if c.finish.Some? then [Finish(StopReasonOf(c.finish.value))] else [];
    NoGist(i);
    if c.content.Some? { SilentGist(TextPiece(c.content.value), i); }
    if c.finish.Some? { SilentGist(Finish(StopReasonOf(c.finish.value)), i); }
    CallAtomsGist(c.toolCalls, i);
    GistAppend(text, CallAtoms(c.toolCalls), i);
    GistAppend(text + CallAtoms(c.toolCalls), finish, i);
    CombinedWithNothing(Combined(GistOf(text, i), PiecesGist("", c.toolCalls, i)));
    TextBeforePieces(GetOr(c.content, ""), c.toolCalls, i);
  }

  lemma TextBeforePieces(text: string, pieces: seq<ToolChunk>, i: nat)
    requires i > 0
    ensures Combined(Gist(text, None, ""), PiecesGist("", pieces, i)) == PiecesGist(text, pieces, i)
  {
    assert text + "" == text;
    assert "" + PiecesGist("", pieces, i).args == PiecesGist("", pieces, i).args;
  }

  lemma {:induction false} ChoicesGist(cs: seq<Choice>, i: nat)
    requires i > 0
    ensures GistOf(ChoicesAtoms(cs), i) == PiecesGist(ContentOf(cs), PiecesOf(cs), i)
  {
    hide GistOf, PiecesGist, ChoiceAtoms, Combined;
    if cs == [] {
      NoGist(i);
    } else {
      var front, last := cs[..|cs| - 1], cs[|cs| - 1];
      ChoicesGist(front, i);
      ChoiceGist(last, i);
      GistAppend(ChoicesAtoms(front), ChoiceAtoms(last), i);
      PiecesGistAppend(ContentOf(front), PiecesOf(front), GetOr(last.content, ""), last.toolCalls, i);
    }
  }

  lemma ChoicesPush(cs: seq<Choice>, last: Choice)
    ensures ChoicesAtoms(cs + [last]) == ChoicesAtoms(cs) + ChoiceAtoms(last)
  {
    hide ChoiceAtoms;
    assert (cs + [last])[..|cs|] == cs;
  }

  lemma {:induction false} ChoicesAppend(a: seq<Choice>, b: seq<Choice>)
    ensures ChoicesAtoms(a + b) == ChoicesAtoms(a) + ChoicesAtoms(b)
  {
    hide ChoicesAtoms, ChoiceAtoms;
    if b == [] {
      assert a + b == a;
      NothingChosen();
    } else {
      var front, last := b[..|b| - 1], b[|b| - 1];
      assert b == front + [last] && a + b == (a + front) + [last];
      ChoicesAppend(a, front);
      ChoicesPush(a + front, last);
      ChoicesPush(front, last);
    }
  }

  lemma {:induction false} ChunksGist(chunks: seq<Chunk>, i: nat)
    requires i > 0
    ensures GistOf(AllAtoms(chunks), i) == GistOf(ChoicesAtoms(AllChoices(chunks)), i)
  {
    hide GistOf, ChoicesAtoms, Combined;
    if chunks != [] {
      var front, last := chunks[..|chunks| - 1], chunks[|chunks| - 1];
      var spent := if last.usage.Some? then [Spent(last.usage.value)] else [];
      ChunksGist(front, i);
      NoGist(i);
      if last.usage.Some? { SilentGist(Spent(last.usage.value), i); }
      GistAppend(spent, ChoicesAtoms(last.choices), i);
      CombinedWithNothing(GistOf(ChoicesAtoms(last.choices), i));
      GistAppend(AllAtoms(front), Atoms(last), i);
      ChoicesAppend(AllChoices(front), last.choices);
      GistAppend(ChoicesAtoms(AllChoices(front)), ChoicesAtoms(last.choices), i);
    } else {
      NothingChosen();
    }
  }

  lemma NothingChosen()
    ensures ChoicesAtoms([]) == []
  {}

  // ---------------------------------------------------------------- where the finish is

  predicate Unfinished(cs: seq<Choice>) { forall k :: 0 <= k < |cs| ==> cs[k].finish == None }

  lemma UnfinishedChoice(c: Choice)
    requires c.finish == None
    ensures Body(ChoiceAtoms(c)) && CallsAboveText(ChoiceAtoms(c))
  {}

  lemma {:induction false} ChoicesBody(cs: seq<Choice>)
    requires Unfinished(cs)
    ensures Body(ChoicesAtoms(cs)) && CallsAboveText(ChoicesAtoms(cs))
  {
    hide ChoiceAtoms;
    if cs != [] {
      ChoicesBody(cs[..|cs| - 1]);
      UnfinishedChoice(cs[|cs| - 1]);
    }
  }

  lemma UnfinishedParts(before: seq<Choice>, after: seq<Choice>)
    requires Unfinished(before + after)
    ensures Unfinished(before) && Unfinished(after)
  {
    assert forall k :: 0 <= k < |before| ==> before[k] == (before + after)[k];
    assert forall k :: 0 <= k < |after| ==> after[k] == (before + after)[|before| + k];
  }

  lemma BodiesJoin(a: seq<Atom>, b: seq<Atom>)
    requires Body(a) && CallsAboveText(a) && Body(b) && CallsAboveText(b)
    ensures Body(a + b) && CallsAboveText(a + b)
  {}

  lemma {:induction false} ChunksBody(chunks: seq<Chunk>)
    requires Unfinished(AllChoices(chunks))
    ensures Body(AllAtoms(chunks)) && CallsAboveText(AllAtoms(chunks))
  {
    hide ChoicesAtoms, Unfinished;
    if chunks != [] {
      hide Body, CallsAboveText;
      var front, last := chunks[..|chunks| - 1], chunks[|chunks| - 1];
      UnfinishedParts(AllChoices(front), last.choices);
      ChunksBody(front);
      ChoicesBody(last.choices);
      SpentBody(last);
      BodiesJoin(if last.usage.Some? then [Spent(last.usage.value)] else [], ChoicesAtoms(last.choices));
      BodiesJoin(AllAtoms(front), Atoms(last));
    }
  }

  lemma SpentBody(chunk: Chunk)
    ensures var spent := if chunk.usage.Some? then [Spent(chunk.usage.value)] else [];
            Body(spent) && CallsAboveText(spent)
  {}

  lemma SplitChoices(cs: seq<Choice>, f: FinishReason) returns (body: seq<Atom>)
    requires FinishedBy(cs, f)
    ensures ChoicesAtoms(cs) == body + [Finish(StopReasonOf(f))]
    ensures Body(body) && CallsAboveText(body)
  {
    var front, last := cs[..|cs| - 1], cs[|cs| - 1];
    var open := ChoiceAtoms(last.(finish := None));
    assert ChoiceAtoms(last) == open + [Finish(StopReasonOf(f))];
    ChoicesBody(front);
    UnfinishedChoice(last.(finish := None));
    body := ChoicesAtoms(front) + open;
    assert ChoicesAtoms(front) + (open + [Finish(StopReasonOf(f))]) == body + [Finish(StopReasonOf(f))];
  }

  lemma FinishIsLast(before: seq<Choice>, after: seq<Choice>, f: FinishReason)
    requires FinishedBy(before + after, f) && after != []
    ensures Unfinished(before) && FinishedBy(after, f)
  {
    var all := before + after;
    assert forall k :: 0 <= k < |before| ==> before[k] == all[k];
    assert forall k :: 0 <= k < |after| ==> after[k] == all[|before| + k];
  }

  // Some content, the finish, and after it usage alone.
  lemma {:induction false} SplitChunks(chunks: seq<Chunk>, f: FinishReason) returns (body: seq<Atom>, tail: seq<Atom>)
    requires FinishedBy(AllChoices(chunks), f)
    ensures AllAtoms(chunks) == body + [Finish(StopReasonOf(f))] + tail
    ensures Body(body) && CallsAboveText(body) && UsageOnly(tail)
  {
    hide ChoicesAtoms, FinishedBy, StopReasonOf, AllChoices, AllAtoms;
    SomeChunk(chunks, f);
    var front, last := chunks[..|chunks| - 1], chunks[|chunks| - 1];
    var spent := if last.usage.Some? then [Spent(last.usage.value)] else [];
    LastChunk(chunks);
    if last.choices == [] {
      assert AllChoices(front) + [] == AllChoices(front);
      var b, t := SplitChunks(front, f);
      body, tail := b, t + spent;
      NothingChosen();
      var mark := [Finish(StopReasonOf(f))];
      assert (body + mark + t) + (spent + []) == body + mark + tail;
    } else {
      FinishIsLast(AllChoices(front), last.choices, f);
      ChunksBody(front);
      var b := SplitChoices(last.choices, f);
      body, tail := AllAtoms(front) + spent + b, [];
      var mark := [Finish(StopReasonOf(f))];
      assert AllAtoms(front) + (spent + (b + mark)) == body + mark + [];
    }
  }

  lemma SomeChunk(chunks: seq<Chunk>, f: FinishReason)
    requires FinishedBy(AllChoices(chunks), f)
    ensures chunks != []
  {}

  lemma LastChunk(chunks: seq<Chunk>)
    requires chunks != []
    ensures var front, last := chunks[..|chunks| - 1], chunks[|chunks| - 1];
      AllChoices(chunks) == AllChoices(front) + last.choices && AllAtoms(chunks) == AllAtoms(front) + Atoms(last)
  {}

  // ---------------------------------------------------------------- reason and usage

  lemma {:induction false} ApplyAppend(parse: JsonParser, a: A.Acc, x: seq<StreamEvent>, y: seq<StreamEvent>)
    ensures A.ApplyAll(parse, a, x + y) == A.ApplyAll(parse, A.ApplyAll(parse, a, x), y)
  {
    hide A.Apply;
    if y == [] {
      assert x + y == x;
    } else {
      assert (x + y)[..|x + y| - 1] == x + y[..|y| - 1];
      ApplyAppend(parse, a, x, y[..|y| - 1]);
    }
  }

  lemma ApplyOne(parse: JsonParser, a: A.Acc, ev: StreamEvent)
    ensures A.ApplyAll(parse, a, [ev]) == A.Apply(parse, a, ev)
  {
    hide A.Apply;
    assert [ev][..0] == [];
  }

  predicate Content(evs: seq<StreamEvent>) {
    forall k :: 0 <= k < |evs| ==> evs[k].BlockStart? || evs[k].BlockDelta? || evs[k].BlockStop?
  }

  lemma {:induction false} ContentTellsNothing(parse: JsonParser, a: A.Acc, evs: seq<StreamEvent>)
    requires Content(evs)
    ensures var b := A.ApplyAll(parse, a, evs); b.stop == a.stop && b.usage == a.usage
  {
    if evs != [] { ContentTellsNothing(parse, a, evs[..|evs| - 1]); }
  }

  // What one atom adds to the reason and the usage that are known.
  function StopAfter(stop: Option<StopReason>, started: set<nat>, atom: Atom): Option<StopReason> {
    match atom
    case Finish(reason) => Some(reason)
    case Done(_) => Some(if exists i :: i in started && i > 0 then ToolUseStop else EndTurn)
    case _ => stop
  }

  function UsageAfter(usage: Usage, atom: Atom): Usage {
    match atom
    case Spent(u) => u
    case Done(u) => u
    case _ => usage
  }

  lemma EmitTells(parse: JsonParser, a: A.Acc, started: set<nat>, atom: Atom)
    ensures var b := A.ApplyAll(parse, a, Emit(started, atom));
            b.stop == StopAfter(a.stop, started, atom) && b.usage == UsageAfter(a.usage, atom)
  {
    hide A.ApplyAll, Ascending;
    var stops := Stops(Ascending(started));
    match atom {
      case Spent(u) => ApplyOne(parse, a, UsageReport(u));
      case TextPiece(_) => ContentTellsNothing(parse, a, Emit(started, atom));
      case CallPiece(_, _, _, _) => ContentTellsNothing(parse, a, Emit(started, atom));
      case Finish(reason) =>
        ContentTellsNothing(parse, a, stops);
        ApplyAppend(parse, a, stops, [MessageStop(reason)]);
        ApplyOne(parse, A.ApplyAll(parse, a, stops), MessageStop(reason));
      case Done(u) =>
        var reason := if exists i :: i in started && i > 0 then ToolUseStop else EndTurn;
        ContentTellsNothing(parse, a, stops);
        ApplyAppend(parse, a, stops, [UsageReport(u)]);
        ApplyOne(parse, A.ApplyAll(parse, a, stops), UsageReport(u));
        ApplyAppend(parse, a, stops + [UsageReport(u)], [MessageStop(reason)]);
        ApplyOne(parse, A.ApplyAll(parse, a, stops + [UsageReport(u)]), MessageStop(reason));
    }
  }

  ghost function After(parse: JsonParser, atoms: seq<Atom>): A.Acc { A.Accumulate(parse, Events(atoms)) }

  lemma StepTells(parse: JsonParser, front: seq<Atom>, last: Atom)
    ensures var a, b := After(parse, front), After(parse, front + [last]);
            b.stop == StopAfter(a.stop, Started(front), last) && b.usage == UsageAfter(a.usage, last)
  {
    hide A.ApplyAll, Emit, Events, Started;
    EventsStep(front, last);
    ApplyAppend(parse, A.EMPTY, Events(front), Emit(Started(front), last));
    EmitTells(parse, After(parse, front), Started(front), last);
  }

  lemma {:induction false} MoreTells(parse: JsonParser, front: seq<Atom>, more: seq<Atom>)
    ensures UsageOnly(more) ==> After(parse, front + more).stop == After(parse, front).stop
    ensures (forall k :: 0 <= k < |more| ==> !more[k].Spent? && !more[k].Done?)
        ==> After(parse, front + more).usage == After(parse, front).usage
  {
    hide After;
    if more == [] {
      assert front + more == front;
    } else {
      var init, last := more[..|more| - 1], more[|more| - 1];
      MoreTells(parse, front, init);
      assert front + more == (front + init) + [last];
      StepTells(parse, front + init, last);
    }
  }

  lemma {:induction false} ChoicesSpendNothing(cs: seq<Choice>)
    ensures forall k :: 0 <= k < |ChoicesAtoms(cs)| ==> !ChoicesAtoms(cs)[k].Spent? && !ChoicesAtoms(cs)[k].Done?
  {
    if cs != [] { ChoicesSpendNothing(cs[..|cs| - 1]); }
  }

  lemma ChunkSpends(parse: JsonParser, before: seq<Atom>, chunk: Chunk)
    ensures After(parse, before + Atoms(chunk)).usage == GetOr(chunk.usage, After(parse, before).usage)
  {
    hide After, ChoicesAtoms;
    var spent := if chunk.usage.Some? then [Spent(chunk.usage.value)] else [];
    if chunk.usage.Some? {
      StepTells(parse, before, Spent(chunk.usage.value));
    } else {
      assert before + spent == before;
    }
    ChoicesSpendNothing(chunk.choices);
    MoreTells(parse, before + spent, ChoicesAtoms(chunk.choices));
    assert before + Atoms(chunk) == before + spent + ChoicesAtoms(chunk.choices);
  }

  lemma {:induction false} ChunksSpend(parse: JsonParser, chunks: seq<Chunk>)
    ensures After(parse, AllAtoms(chunks)).usage == LastUsage(chunks)
  {
    hide After, Atoms;
    if chunks == [] {
      NothingAccumulated(parse);
    } else {
      ChunksSpend(parse, chunks[..|chunks| - 1]);
      ChunkSpends(parse, AllAtoms(chunks[..|chunks| - 1]), chunks[|chunks| - 1]);
    }
  }

  lemma NothingAccumulated(parse: JsonParser)
    ensures After(parse, []).usage == Usage(0, 0) && After(parse, []).stop == None
  {}

  // ---------------------------------------------------------------- which blocks there are

  lemma {:induction false} PieceIsSomewhere(pieces: seq<ToolChunk>, p: ToolChunk)
    requires p in pieces
    ensures PiecesAt(pieces, GetOr(p.index, 0)) != []
  {
    var front, last := pieces[..|pieces| - 1], pieces[|pieces| - 1];
    assert pieces == front + [last];
    if p != last { PieceIsSomewhere(front, p); }
  }

  lemma {:induction false} PiecesAreFromThere(pieces: seq<ToolChunk>, i: nat)
    ensures forall p :: p in PiecesAt(pieces, i) ==> p in pieces && GetOr(p.index, 0) == i
  {
    if pieces != [] { PiecesAreFromThere(pieces[..|pieces| - 1], i); }
  }

  predicate Speaks(cs: seq<Choice>) { exists k :: 0 <= k < |cs| && cs[k].content.Some? }

  lemma SpeaksPush(cs: seq<Choice>, last: Choice)
    ensures Speaks(cs + [last]) <==> Speaks(cs) || last.content.Some?
  {
    var all := cs + [last];
    if Speaks(cs) {
      var k :| 0 <= k < |cs| && cs[k].content.Some?;
      assert all[k].content.Some?;
    }
    if last.content.Some? { assert all[|cs|].content.Some?; }
  }

  lemma {:induction false} SpeaksAppend(a: seq<Choice>, b: seq<Choice>)
    ensures Speaks(a + b) <==> Speaks(a) || Speaks(b)
  {
    hide Speaks;
    if b == [] {
      assert a + b == a;
      assert !Speaks(b) by { NobodySpeaks(); }
    } else {
      var front, last := b[..|b| - 1], b[|b| - 1];
      assert b == front + [last] && a + b == (a + front) + [last];
      SpeaksAppend(a, front);
      SpeaksPush(a + front, last);
      SpeaksPush(front, last);
    }
  }

  lemma NobodySpeaks()
    ensures !Speaks([])
  {}

  predicate TextIn(atoms: seq<Atom>) { exists k :: 0 <= k < |atoms| && atoms[k].TextPiece? }

  lemma TextInAppend(a: seq<Atom>, b: seq<Atom>)
    ensures TextIn(a + b) <==> TextIn(a) || TextIn(b)
  {
    var all := a + b;
    if TextIn(a) {
      var k :| 0 <= k < |a| && a[k].TextPiece?;
      assert all[k].TextPiece?;
    }
    if TextIn(b) {
      var k :| 0 <= k < |b| && b[k].TextPiece?;
      assert all[|a| + k].TextPiece?;
    }
  }

  lemma ChoiceSpeaks(c: Choice)
    ensures TextIn(ChoiceAtoms(c)) <==> c.content.Some?
  {
    if c.content.Some? { assert ChoiceAtoms(c)[0].TextPiece?; }
  }

  lemma {:induction false} ChoicesSpeak(cs: seq<Choice>)
    ensures TextIn(ChoicesAtoms(cs)) <==> Speaks(cs)
  {
    hide TextIn, Speaks, ChoiceAtoms;
    if cs == [] {
      NobodySpeaks();
      NothingIn();
    } else {
      var front, last := cs[..|cs| - 1], cs[|cs| - 1];
      assert cs == front + [last];
      ChoicesSpeak(front);
      ChoiceSpeaks(last);
      SpeaksPush(front, last);
      TextInAppend(ChoicesAtoms(front), ChoiceAtoms(last));
    }
  }

  lemma NothingIn()
    ensures !TextIn([])
  {}

  lemma {:induction false} ChunksSpeak(chunks: seq<Chunk>)
    ensures TextIn(AllAtoms(chunks)) <==> Speaks(AllChoices(chunks))
  {
    hide TextIn, Speaks, ChoicesAtoms;
    if chunks == [] {
      NobodySpeaks();
      NothingIn();
    } else {
      var front, last := chunks[..|chunks| - 1], chunks[|chunks| - 1];
      var spent := if last.usage.Some? then [Spent(last.usage.value)] else [];
      ChunksSpeak(front);
      ChoicesSpeak(last.choices);
      SpeaksAppend(AllChoices(front), last.choices);
      TextInAppend(spent, ChoicesAtoms(last.choices));
      TextInAppend(AllAtoms(front), Atoms(last));
      assert !TextIn(spent) by { SpentIsNoText(last); }
    }
  }

  lemma SpentIsNoText(chunk: Chunk)
    ensures !TextIn(if chunk.usage.Some? then [Spent(chunk.usage.value)] else [])
  {}

  lemma {:induction false} TextStarts(atoms: seq<Atom>)
    requires CallsAboveText(atoms)
    ensures 0 in Started(atoms) <==> TextIn(atoms)
  {
    if atoms != [] {
      var front, last := atoms[..|atoms| - 1], atoms[|atoms| - 1];
      assert atoms == front + [last];
      TextStarts(front);
      TextInAppend(front, [last]);
      assert TextIn([last]) <==> last.TextPiece? by { if last.TextPiece? { assert [last][0].TextPiece?; } }
    }
  }

  // ---------------------------------------------------------------- the main result

  // What the body says, at every index of a call, is what the chunks hold.
  lemma BodyGist(chunks: seq<Chunk>, body: seq<Atom>, mark: Atom, tail: seq<Atom>, i: nat)
    requires i > 0 && mark.Finish? && UsageOnly(tail) && AllAtoms(chunks) == body + [mark] + tail
    ensures GistOf(body, i) == PiecesGist(ContentOf(AllChoices(chunks)), PiecesOf(AllChoices(chunks)), i)
  {
    hide GistOf, PiecesGist, Combined;
    ChunksGist(chunks, i);
    ChoicesGist(AllChoices(chunks), i);
    GistAppend(body, [mark], i);
    SilentGist(mark, i);
    TailGist(tail, i);
    GistAppend(body + [mark], tail, i);
    CombinedWithNothing(GistOf(body, i));
  }

  lemma {:induction false} TailGist(tail: seq<Atom>, i: nat)
    requires UsageOnly(tail)
    ensures GistOf(tail, i) == Gist("", None, "")
  {
    hide GistOf, Combined;
    if tail == [] {
      NoGist(i);
    } else {
      var front, last := tail[..|tail| - 1], tail[|tail| - 1];
      assert tail == front + [last];
      TailGist(front, i);
      SilentGist(last, i);
      GistAppend(front, [last], i);
      CombinedWithNothing(Gist("", None, ""));
    }
  }

  lemma BodySpeaks(chunks: seq<Chunk>, body: seq<Atom>, mark: Atom, tail: seq<Atom>)
    requires mark.Finish? && UsageOnly(tail) && AllAtoms(chunks) == body + [mark] + tail
    ensures TextIn(body) <==> Speaks(AllChoices(chunks))
  {
    ChunksSpeak(chunks);
    TextInAppend(body, [mark]);
    TextInAppend(body + [mark], tail);
  }

  lemma CallBlock(parse: JsonParser, body: seq<Atom>, text: string, pieces: seq<ToolChunk>, i: nat)
    requires i > 0 && GistOf(body, i) == PiecesGist(text, pieces, i)
    ensures i in Started(body) <==> PiecesAt(pieces, i - 1) != []
    ensures if PiecesAt(pieces, i - 1) == [] then FinalBlock(parse, body, i) == Text("")
            else Makes(parse, PiecesAt(pieces, i - 1), i, FinalBlock(parse, body, i))
  {
    hide TextOf, ArgsOf, PiecesAt, Arguments;
  }

  lemma BodyBlocks(parse: JsonParser, chunks: seq<Chunk>, body: seq<Atom>, mark: Atom, tail: seq<Atom>)
    requires mark.Finish? && UsageOnly(tail) && AllAtoms(chunks) == body + [mark] + tail
    requires Body(body) && CallsAboveText(body)
    ensures BlocksOf(parse, AllChoices(chunks), Streamed(parse, body))
  {
    hide Started, GistOf, PiecesGist, AllAtoms, AllChoices, ContentOf, PiecesOf, PiecesAt, Makes, FinalBlock;
    var cs := AllChoices(chunks);
    var pieces, n := PiecesOf(cs), Extent(body);
    BodySpeaks(chunks, body, mark, tail);
    TextStarts(body);
    forall i: nat | i > 0
      ensures i in Started(body) <==> PiecesAt(pieces, i - 1) != []
      ensures if PiecesAt(pieces, i - 1) == [] then FinalBlock(parse, body, i) == Text("")
              else Makes(parse, PiecesAt(pieces, i - 1), i, FinalBlock(parse, body, i))
    {
      BodyGist(chunks, body, mark, tail, i);
      CallBlock(parse, body, ContentOf(cs), pieces, i);
    }
    BodyGist(chunks, body, mark, tail, 1);
    TextBlock(parse, body, ContentOf(cs), pieces);
    forall p | p in pieces ensures GetOr(p.index, 0) + 1 in Started(body) { PieceIsSomewhere(pieces, p); }
    if n > 1 { assert n - 1 in Started(body); }
    if n == 1 { assert 0 in Started(body); }
    if pieces != [] { assert pieces[0] in pieces; }
    if n > 1 {
      PiecesAreFromThere(pieces, n - 2);
      assert PiecesAt(pieces, n - 2)[0] in pieces;
    }
  }

  lemma TextBlock(parse: JsonParser, body: seq<Atom>, text: string, pieces: seq<ToolChunk>)
    requires GistOf(body, 1) == PiecesGist(text, pieces, 1)
    ensures FinalBlock(parse, body, 0) == Text(text)
  {
    assert GistOf(body, 1).text == TextOf(body);
  }

  // From the chunks of a finished stream: the text is their contents joined, each call is
  // what its pieces make, the reason decides whether tools run, and the last usage counts.
  lemma StreamedReply(parse: JsonParser, chunks: seq<Chunk>, f: FinishReason)
    requires FinishedBy(AllChoices(chunks), f)
    ensures var reply := A.Accumulate(parse, Events(AllAtoms(chunks)));
      && BlocksOf(parse, AllChoices(chunks), reply.blocks)
      && StopsFor(reply.stop, f)
      && reply.usage == LastUsage(chunks)
  {
    hide AllAtoms, AllChoices, FinishedBy, LastUsage, A.Accumulate, Events, BlocksOf, Streamed, UsageOnly;
    var body, tail := SplitChunks(chunks, f);
    var mark := Finish(StopReasonOf(f));
    assert StopsFor(Some(mark.reason), f);
    StreamedBlocks(parse, body, mark, tail);
    BodyBlocks(parse, chunks, body, mark, tail);
    StepTells(parse, body, mark);
    MoreTells(parse, body + [mark], tail);
    ChunksSpend(parse, chunks);
  }

  // ---------------------------------------------------------------- Ollama

  function OllamaAll(chunks: seq<OllamaChunk>): seq<Atom> {
    if chunks == [] then [] else OllamaAll(chunks[..|chunks| - 1]) + OllamaAtoms(chunks[|chunks| - 1])
  }

  function OllamaText(chunks: seq<OllamaChunk>): string {
    if chunks == [] then "" else OllamaText(chunks[..|chunks| - 1]) + chunks[|chunks| - 1].content
  }

  predicate AllUndone(chunks: seq<OllamaChunk>) { forall k :: 0 <= k < |chunks| ==> chunks[k].done == None }

  predicate DoneAtLast(chunks: seq<OllamaChunk>, u: Usage) {
    chunks != [] && AllUndone(chunks[..|chunks| - 1]) && chunks[|chunks| - 1].done == Some(u)
  }

  lemma {:induction false} UndoneIsSaid(chunks: seq<OllamaChunk>)
    requires AllUndone(chunks)
    ensures OllamaAll(chunks) == Said(chunks)
  {
    hide OllamaAtoms;
    if chunks != [] {
      UndoneIsSaid(chunks[..|chunks| - 1]);
      var last := chunks[|chunks| - 1];
      assert last.(done := None) == last;
    }
  }

  lemma DoneIsMark(chunk: OllamaChunk, u: Usage)
    requires chunk.done == Some(u)
    ensures OllamaAtoms(chunk) == OllamaAtoms(chunk.(done := None)) + [Done(u)]
  {}

  lemma AllIsSaid(chunks: seq<OllamaChunk>, u: Usage)
    requires DoneAtLast(chunks, u)
    ensures OllamaAll(chunks) == Said(chunks) + [Done(u)]
  {
    hide OllamaAtoms;
    var front, last := chunks[..|chunks| - 1], chunks[|chunks| - 1];
    UndoneIsSaid(front);
    DoneIsMark(last, u);
    assert Said(front) + (OllamaAtoms(last.(done := None)) + [Done(u)]) == Said(chunks) + [Done(u)];
  }

  lemma {:induction false} CallsSayNothing(calls: seq<OllamaCall>, n: nat)
    requires n <= |calls|
    ensures TextOf(OllamaCallAtoms(calls)[..n]) == ""
    ensures forall k :: 0 <= k < n ==> !OllamaCallAtoms(calls)[k].TextPiece?
  {
    if n > 0 {
      CallsSayNothing(calls, n - 1);
      assert OllamaCallAtoms(calls)[..n] == OllamaCallAtoms(calls)[..n - 1] + [OllamaCallAtoms(calls)[n - 1]];
      TextPush(OllamaCallAtoms(calls)[..n - 1], OllamaCallAtoms(calls)[n - 1]);
    } else {
      NoText();
    }
  }

  lemma OllamaChunkText(chunk: OllamaChunk)
    requires chunk.done == None
    ensures TextOf(OllamaAtoms(chunk)) == chunk.content
    ensures TextIn(OllamaAtoms(chunk)) <==> chunk.content != ""
  {
    hide TextOf, TextIn;
    var text := if chunk.content != "" then [TextPiece(chunk.content)] else [];
    var calls := OllamaCallAtoms(chunk.calls);
    NoText();
    NothingIn();
    if chunk.content != "" {
      OneAtom(TextPiece(chunk.content), 0);
      assert TextIn(text) by { assert text[0].TextPiece?; JustText(text); }
    }
    CallsSayNothing(chunk.calls, |calls|);
    assert calls[..|calls|] == calls;
    TextAppend(text, calls);
    TextInAppend(text, calls);
    forall k | 0 <= k < |calls| ensures !calls[k].TextPiece? { assert calls[k] == OllamaCallAtoms(chunk.calls)[k]; }
    NoTextIn(calls);
    assert OllamaAtoms(chunk) == text + calls && TextOf(text) + "" == TextOf(text);
  }

  lemma JustText(atoms: seq<Atom>)
    requires atoms != [] && atoms[0].TextPiece?
    ensures TextIn(atoms)
  {}

  lemma NoTextIn(atoms: seq<Atom>)
    requires forall k :: 0 <= k < |atoms| ==> !atoms[k].TextPiece?
    ensures !TextIn(atoms)
  {}

  lemma {:induction false} SaidText(chunks: seq<OllamaChunk>)
    ensures TextOf(Said(chunks)) == OllamaText(chunks)
    ensures TextIn(Said(chunks)) <==> OllamaText(chunks) != ""
  {
    hide TextOf, TextIn, OllamaAtoms;
    if chunks == [] {
      NoText();
      NothingIn();
    } else {
      var front, last := chunks[..|chunks| - 1], chunks[|chunks| - 1].(done := None);
      SaidText(front);
      OllamaChunkText(last);
      TextAppend(Said(front), OllamaAtoms(last));
      TextInAppend(Said(front), OllamaAtoms(last));
    }
  }

  predicate Numbered(atoms: seq<Atom>) {
    forall k :: 0 <= k < |atoms| && atoms[k].CallPiece? ==>
      atoms[k].index > 0 && atoms[k].id == "call_" + T.Decimal(atoms[k].index - 1)
  }

  lemma {:induction false} SaidIsNumbered(chunks: seq<OllamaChunk>)
    ensures Numbered(Said(chunks))
  {
    if chunks != [] {
      SaidIsNumbered(chunks[..|chunks| - 1]);
      ChunkIsNumbered(chunks[|chunks| - 1].(done := None));
    }
  }

  lemma ChunkIsNumbered(chunk: OllamaChunk)
    ensures Numbered(OllamaAtoms(chunk))
  {}

  lemma {:induction false} NumberedHeads(atoms: seq<Atom>, i: nat)
    requires Numbered(atoms)
    ensures HeadOf(atoms, i).Some? ==> i > 0 && HeadOf(atoms, i).value.0 == "call_" + T.Decimal(i - 1)
  {
    hide Started;
    if atoms != [] { NumberedHeads(atoms[..|atoms| - 1], i); }
  }

  predicate IsCallNumber(block: ContentBlock, k: nat) { block.ToolUse? && block.id == "call_" + T.Decimal(k) }

  // The blocks of an Ollama reply: the text in front, then one call for each number, under
  // the number as its id.
  predicate OllamaBlocks(chunks: seq<OllamaChunk>, blocks: seq<ContentBlock>) {
    && (blocks == [] <==> OllamaText(chunks) == "" && forall k :: 0 <= k < |chunks| ==> chunks[k].calls == [])
    && (blocks != [] ==> blocks[0] == Text(OllamaText(chunks)) && |blocks| == Longest(chunks) + 1)
    && forall i: nat :: 0 < i < |blocks| ==> IsCallNumber(blocks[i], i - 1)
  }

  lemma NumberedBlock(parse: JsonParser, body: seq<Atom>, i: nat)
    requires Numbered(body) && i > 0 && i in Started(body)
    ensures IsCallNumber(FinalBlock(parse, body, i), i - 1)
  {
    hide TextOf, ArgsOf;
    NumberedHeads(body, i);
  }

  lemma FirstBlock(parse: JsonParser, body: seq<Atom>)
    ensures FinalBlock(parse, body, 0) == Text(TextOf(body))
  {}

  lemma SaidBlocks(parse: JsonParser, chunks: seq<OllamaChunk>)
    ensures OllamaBlocks(chunks, Streamed(parse, Said(chunks)))
  {
    hide Said, Started, FinalBlock, TextOf, TextIn, Numbered, IsCallNumber, Longest, Total;
    var body := Said(chunks);
    var n := Extent(body);
    SaidStarts(chunks);
    SaidText(chunks);
    TextStarts(body);
    SaidIsNumbered(chunks);
    LongestIsTotal(chunks);
    LongestIsNone(chunks);
    FirstBlock(parse, body);
    if Longest(chunks) > 0 { assert Longest(chunks) in Started(body); }
    if n > 0 { assert n - 1 in Started(body); }
    forall i: nat | 0 < i < n ensures IsCallNumber(FinalBlock(parse, body, i), i - 1) {
      assert i in Started(body);
      NumberedBlock(parse, body, i);
    }
  }

  lemma {:induction false} LongestIsNone(chunks: seq<OllamaChunk>)
    ensures Longest(chunks) == 0 <==> forall k :: 0 <= k < |chunks| ==> chunks[k].calls == []
  {
    if chunks != [] { LongestIsNone(chunks[..|chunks| - 1]); }
  }

  // The same for Ollama: the done mark brings the usage, and the tools run exactly when
  // some chunk carried a call.
  lemma StreamedOllamaReply(parse: JsonParser, chunks: seq<OllamaChunk>, u: Usage)
    requires DoneAtLast(chunks, u)
    ensures var reply := A.Accumulate(parse, Events(OllamaAll(chunks)));
      && OllamaBlocks(chunks, reply.blocks)
      && (reply.stop == Some(ToolUseStop) <==> exists k :: 0 <= k < |chunks| && chunks[k].calls != [])
      && (reply.stop == Some(EndTurn) <==> forall k :: 0 <= k < |chunks| ==> chunks[k].calls == [])
      && reply.usage == u
  {
    hide OllamaAll, Said, DoneAtLast, A.Accumulate, Events, Started, OllamaBlocks, Streamed, Longest;
    AllIsSaid(chunks, u);
    SaidStarts(chunks);
    SaidBlocks(parse, chunks);
    StreamedBlocks(parse, Said(chunks), Done(u), []);
    assert Said(chunks) + [Done(u)] + [] == Said(chunks) + [Done(u)];
    StepTells(parse, Said(chunks), Done(u));
    LongestIsNone(chunks);
    if Longest(chunks) > 0 { assert 1 in Started(Said(chunks)); }
  }

  // ---------------------------------------------------------------- as it runs

  lemma AllAtomsPush(chunks: seq<Chunk>, i: nat)
    requires i < |chunks|
    ensures AllAtoms(chunks[..i + 1]) == AllAtoms(chunks[..i]) + Atoms(chunks[i])
  {
    assert chunks[..i + 1][..i] == chunks[..i];
  }

  lemma OllamaAllPush(chunks: seq<OllamaChunk>, i: nat)
    requires i < |chunks|
    ensures OllamaAll(chunks[..i + 1]) == OllamaAll(chunks[..i]) + OllamaAtoms(chunks[i])
  {
    assert chunks[..i + 1][..i] == chunks[..i];
  }

  lemma AccumulateOne(parse: JsonParser, evs: seq<StreamEvent>, ev: StreamEvent)
    ensures A.Accumulate(parse, evs + [ev]) == A.Apply(parse, A.Accumulate(parse, evs), ev)
  {
    hide A.Apply;
    assert (evs + [ev])[..|evs|] == evs;
  }

  lemma NothingYet(parse: JsonParser)
    ensures Events([]) == [] && A.Accumulate(parse, []) == A.EMPTY
  {}

  // The streaming loop's body: one event after the other into the accumulator.
  method Feed(parse: JsonParser, state: A.StreamState, events: seq<StreamEvent>, ghost before: seq<StreamEvent>)
    requires state.Valid(parse) && state.View() == A.Accumulate(parse, before)
    modifies state
    ensures state.Valid(parse) && state.View() == A.Accumulate(parse, before + events)
  {
    hide A.Accumulate, A.Apply, A.Refines;
    assert before + events[..0] == before;
    for j := 0 to |events|
      invariant state.Valid(parse) && state.View() == A.Accumulate(parse, before + events[..j])
    {
      state.Handle(parse, events[j]);
      AccumulateOne(parse, before + events[..j], events[j]);
      assert before + events[..j] + [events[j]] == before + events[..j + 1];
    }
    assert events[..|events|] == events;
  }

  // A provider's stream through the translator's closure into the loop's accumulator.
  method Receive(parse: JsonParser, chunks: seq<Chunk>)
    returns (blocks: seq<ContentBlock>, stop: Option<StopReason>, usage: Usage)
    ensures forall f :: FinishedBy(AllChoices(chunks), f) ==>
      BlocksOf(parse, AllChoices(chunks), blocks) && StopsFor(stop, f) && usage == LastUsage(chunks)
  {
    hide A.Accumulate, A.Refines, Events, AllAtoms, Atoms, BlocksOf, FinishedBy, StopsFor, AllChoices, LastUsage;
    var closure := new Closure();
    var state := new A.StreamState(parse);
    NothingYet(parse);
    assert AllAtoms(chunks[..0]) == [] by { NoChunks(); }
    for i := 0 to |chunks|
      invariant fresh(closure) && fresh(state) && closure.Valid() && state.Valid(parse)
      invariant closure.consumed == AllAtoms(chunks[..i])
      invariant state.View() == A.Accumulate(parse, Events(closure.consumed))
    {
      ghost var before := Events(closure.consumed);
      var events := closure.OnChunk(chunks[i]);
      Feed(parse, state, events, before);
      AllAtomsPush(chunks, i);
    }
    assert chunks[..|chunks|] == chunks;
    blocks, stop, usage := state.contentBlocks, state.stopReason, state.usage;
    forall f | FinishedBy(AllChoices(chunks), f)
      ensures BlocksOf(parse, AllChoices(chunks), blocks) && StopsFor(stop, f) && usage == LastUsage(chunks)
    {
      StreamedReply(parse, chunks, f);
    }
  }

  // The same for Ollama.
  method ReceiveOllama(parse: JsonParser, chunks: seq<OllamaChunk>)
    returns (blocks: seq<ContentBlock>, stop: Option<StopReason>, usage: Usage)
    ensures forall u :: DoneAtLast(chunks, u) ==>
      && OllamaBlocks(chunks, blocks) && usage == u
      && stop == Some(if exists k :: 0 <= k < |chunks| && chunks[k].calls != [] then ToolUseStop else EndTurn)
  {
    hide A.Accumulate, A.Refines, Events, OllamaAll, OllamaAtoms, OllamaBlocks, DoneAtLast;
    var closure := new Closure();
    var state := new A.StreamState(parse);
    NothingYet(parse);
    assert OllamaAll(chunks[..0]) == [] by { NoChunks(); }
    for i := 0 to |chunks|
      invariant fresh(closure) && fresh(state) && closure.Valid() && state.Valid(parse)
      invariant closure.consumed == OllamaAll(chunks[..i])
      invariant state.View() == A.Accumulate(parse, Events(closure.consumed))
    {
      ghost var before := Events(closure.consumed);
      var events := closure.OnOllamaChunk(chunks[i]);
      Feed(parse, state, events, before);
      OllamaAllPush(chunks, i);
    }
    assert chunks[..|chunks|] == chunks;
    blocks, stop, usage := state.contentBlocks, state.stopReason, state.usage;
    forall u | DoneAtLast(chunks, u)
      ensures OllamaBlocks(chunks, blocks) && usage == u
      ensures stop == Some(if exists k :: 0 <= k < |chunks| && chunks[k].calls != [] then ToolUseStop else EndTurn)
    {
      StreamedOllamaReply(parse, chunks, u);
    }
  }

  lemma NoChunks()
    ensures AllAtoms([]) == [] && OllamaAll([]) == []
  {}
}
