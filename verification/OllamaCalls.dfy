// Ollama numbers the calls of every chunk from zero: which tool calls of a streamed reply
// survive.

module OllamaCalls {
  import opened Types
  import opened Translator
  import opened Streaming
  import opened Chunking
  import A = Accumulator

  // What the chunks say before the stream is done.
  function Said(chunks: seq<OllamaChunk>): seq<Atom> {
    if chunks == [] then []
    else Said(chunks[..|chunks| - 1]) + OllamaAtoms(chunks[|chunks| - 1].(done := None))
  }

  function Longest(chunks: seq<OllamaChunk>): nat {
    if chunks == [] then 0
    else
      var n, last := Longest(chunks[..|chunks| - 1]), |chunks[|chunks| - 1].calls|;
      if n < last then last else n
  }

  function Total(chunks: seq<OllamaChunk>): nat {
    if chunks == [] then 0 else Total(chunks[..|chunks| - 1]) + |chunks[|chunks| - 1].calls|
  }

  predicate AtMostOneCarries(chunks: seq<OllamaChunk>) {
    forall i, j :: 0 <= i < j < |chunks| ==> chunks[i].calls == [] || chunks[j].calls == []
  }

  lemma {:induction false} StartedAppend(a: seq<Atom>, b: seq<Atom>)
    ensures Started(a + b) == Started(a) + Started(b)
  {
    if b == [] {
      assert a + b == a;
    } else {
      assert (a + b)[..|a + b| - 1] == a + b[..|b| - 1];
      StartedAppend(a, b[..|b| - 1]);
    }
  }

  lemma {:induction false} CallsStart(calls: seq<OllamaCall>, n: nat)
    requires n <= |calls|
    ensures forall i: nat :: i in Started(OllamaCallAtoms(calls)[..n]) <==> 0 < i <= n
  {
    if n > 0 {
      CallsStart(calls, n - 1);
      assert OllamaCallAtoms(calls)[..n][..n - 1] == OllamaCallAtoms(calls)[..n - 1];
    }
  }

  lemma ChunkStarts(chunk: OllamaChunk)
    requires chunk.done.None?
    ensures forall i: nat :: i > 0 ==> (i in Started(OllamaAtoms(chunk)) <==> i <= |chunk.calls|)
    ensures Body(OllamaAtoms(chunk)) && CallsAboveText(OllamaAtoms(chunk))
  {
    var text := if chunk.content != "" then [TextPiece(chunk.content)] else [];
    var calls := OllamaCallAtoms(chunk.calls);
    assert OllamaAtoms(chunk) == text + calls;
    StartedAppend(text, calls);
    CallsStart(chunk.calls, |calls|);
    assert calls[..|calls|] == calls;
  }

  lemma {:induction false} SaidStarts(chunks: seq<OllamaChunk>)
    ensures forall i: nat :: i > 0 ==> (i in Started(Said(chunks)) <==> i <= Longest(chunks))
    ensures Body(Said(chunks)) && CallsAboveText(Said(chunks))
  {
    if chunks != [] {
      var n := |chunks| - 1;
      var last := chunks[n].(done := None);
      SaidStarts(chunks[..n]);
      ChunkStarts(last);
      StartedAppend(Said(chunks[..n]), OllamaAtoms(last));
    }
  }

  lemma {:induction false} CallsCount(blocks: seq<ContentBlock>)
    requires forall k :: 0 <= k < |blocks| ==> blocks[k].ToolUse?
    ensures |CallsOf(blocks)| == |blocks|
    ensures forall k :: 0 <= k < |blocks| ==> CallsOf(blocks)[k] == Call(blocks[k].id, blocks[k].name, blocks[k].input)
  {
    if blocks != [] { CallsCount(blocks[1..]); }
  }

  predicate Becomes(block: ContentBlock, call: Call) { block == ToolUse(call.id, call.name, call.input) }

  // A reply keeps as many calls as its longest chunk has, one for each number used.
  lemma CallsKept(parse: JsonParser, chunks: seq<OllamaChunk>)
    ensures var calls := CallsOf(Streamed(parse, Said(chunks)));
      && |calls| == Longest(chunks)
      && forall k :: 0 <= k < |calls| ==> Becomes(FinalBlock(parse, Said(chunks), k + 1), calls[k])
  {
    hide Said, Started, FinalBlock;
    var atoms, n := Said(chunks), Longest(chunks);
    SaidStarts(chunks);
    var blocks := Streamed(parse, atoms);
    var extent := Extent(atoms);
    assert extent == n + 1 || (n == 0 && extent == 0) by {
      if n > 0 { assert n in Started(atoms); }
      if extent > 1 { assert extent - 1 in Started(atoms); }
    }
    if extent > 0 {
      var calls := blocks[1..];
      forall k | 0 <= k < |calls| ensures calls[k].ToolUse? {
        assert k + 1 in Started(atoms);
        IsCall(parse, atoms, k + 1);
      }
      CallsCount(calls);
      IsText(parse, atoms);
    }
  }

  lemma IsCall(parse: JsonParser, atoms: seq<Atom>, i: nat)
    requires i > 0 && i in Started(atoms)
    ensures FinalBlock(parse, atoms, i).ToolUse?
  {}

  lemma IsText(parse: JsonParser, atoms: seq<Atom>)
    ensures FinalBlock(parse, atoms, 0).Text?
  {}

  lemma {:induction false} LongestIsTotal(chunks: seq<OllamaChunk>)
    ensures Longest(chunks) <= Total(chunks)
    ensures Total(chunks) == 0 <==> forall k :: 0 <= k < |chunks| ==> chunks[k].calls == []
    ensures Longest(chunks) == Total(chunks) <==> AtMostOneCarries(chunks)
  {
    if chunks != [] {
      var n := |chunks| - 1;
      var front, last := chunks[..n], chunks[n];
      LongestIsTotal(front);
      assert AtMostOneCarries(chunks) <==>
        AtMostOneCarries(front) && (last.calls == [] || forall k :: 0 <= k < n ==> front[k].calls == []) by {
        if AtMostOneCarries(chunks) {
          forall i, j | 0 <= i < j < n ensures front[i].calls == [] || front[j].calls == [] {
            assert chunks[i].calls == [] || chunks[j].calls == [];
          }
          forall k | 0 <= k < n ensures last.calls == [] || front[k].calls == [] {
            assert chunks[k].calls == [] || chunks[n].calls == [];
          }
        }
      }
      assert Total(front) == 0 ==> Longest(front) == 0;
    }
  }

  // ---------------------------------------------------------------- which calls

  // What a list of calls asks for, in order: names and parsed arguments.
  function Requests(parse: JsonParser, calls: seq<OllamaCall>): (r: seq<(string, Json)>)
    ensures |r| == |calls|
  {
    seq(|calls|, k requires 0 <= k < |calls| => (calls[k].name, A.ParsedInput(parse, calls[k].arguments)))
  }

  function Asked(parse: JsonParser, chunks: seq<OllamaChunk>): (r: seq<(string, Json)>)
    ensures |r| == Total(chunks)
  {
    if chunks == [] then []
    else Asked(parse, chunks[..|chunks| - 1]) + Requests(parse, chunks[|chunks| - 1].calls)
  }

  function Heard(calls: seq<Call>): (r: seq<(string, Json)>)
    ensures |r| == |calls|
  {
    seq(|calls|, k requires 0 <= k < |calls| => (calls[k].name, calls[k].input))
  }

  function Carried(chunks: seq<OllamaChunk>): (r: seq<OllamaCall>)
    ensures |r| == Total(chunks)
  {
    if chunks == [] then [] else Carried(chunks[..|chunks| - 1]) + chunks[|chunks| - 1].calls
  }

  lemma {:induction false} AskedIsCarried(parse: JsonParser, chunks: seq<OllamaChunk>)
    ensures Asked(parse, chunks) == Requests(parse, Carried(chunks))
  {
    if chunks != [] { AskedIsCarried(parse, chunks[..|chunks| - 1]); }
  }

  lemma {:induction false} HeadAppends(a: seq<Atom>, b: seq<Atom>, i: nat)
    ensures HeadOf(a + b, i) == if HeadOf(a, i).Some? then HeadOf(a, i) else HeadOf(b, i)
  {
    hide Started;
    if b == [] {
      assert a + b == a;
    } else {
      assert (a + b)[..|a + b| - 1] == a + b[..|b| - 1];
      HeadAppends(a, b[..|b| - 1], i);
    }
  }

  lemma ArgsPush(atoms: seq<Atom>, last: Atom, i: nat)
    ensures ArgsOf(atoms + [last], i)
         == ArgsOf(atoms, i) + (if last.CallPiece? && last.index == i then last.arguments else "")
  {
    assert (atoms + [last])[..|atoms|] == atoms;
  }

  lemma {:induction false} ArgsAppend(a: seq<Atom>, b: seq<Atom>, i: nat)
    ensures ArgsOf(a + b, i) == ArgsOf(a, i) + ArgsOf(b, i)
  {
    if b == [] {
      assert a + b == a;
      assert ArgsOf(a, i) + "" == ArgsOf(a, i);
    } else {
      var front, last := b[..|b| - 1], b[|b| - 1];
      assert b == front + [last] && a + b == (a + front) + [last];
      ArgsAppend(a, front, i);
      ArgsPush(a + front, last, i);
      ArgsPush(front, last, i);
    }
  }

  lemma WhatIsSaidAppends(a: seq<Atom>, b: seq<Atom>, i: nat)
    ensures HeadOf(a + b, i) == if HeadOf(a, i).Some? then HeadOf(a, i) else HeadOf(b, i)
    ensures ArgsOf(a + b, i) == ArgsOf(a, i) + ArgsOf(b, i)
  {
    HeadAppends(a, b, i);
    ArgsAppend(a, b, i);
  }

  // What an index hears of the calls it numbers.
  predicate HearsOf(atoms: seq<Atom>, calls: seq<OllamaCall>, i: nat) {
    if 0 < i <= |calls| then
      && HeadOf(atoms, i).Some? && HeadOf(atoms, i).value.1 == calls[i - 1].name
      && ArgsOf(atoms, i) == calls[i - 1].arguments
    else HeadOf(atoms, i).None? && ArgsOf(atoms, i) == ""
  }

  lemma {:induction false} CallsAreHeard(calls: seq<OllamaCall>, n: nat, i: nat)
    requires n <= |calls|
    ensures HearsOf(OllamaCallAtoms(calls)[..n], calls[..n], i)
  {
    if n > 0 {
      CallsAreHeard(calls, n - 1, i);
      assert OllamaCallAtoms(calls)[..n][..n - 1] == OllamaCallAtoms(calls)[..n - 1];
      assert calls[..n][..n - 1] == calls[..n - 1];
    }
  }

  lemma ChunkIsHeard(chunk: OllamaChunk, i: nat)
    requires chunk.done.None?
    ensures HearsOf(OllamaAtoms(chunk), chunk.calls, i)
  {
    var text := if chunk.content != "" then [TextPiece(chunk.content)] else [];
    var calls := OllamaCallAtoms(chunk.calls);
    assert OllamaAtoms(chunk) == text + calls;
    WhatIsSaidAppends(text, calls, i);
    CallsAreHeard(chunk.calls, |calls|, i);
    assert calls[..|calls|] == calls && chunk.calls[..|calls|] == chunk.calls;
  }

  lemma HeardTogether(a: seq<Atom>, b: seq<Atom>, before: seq<OllamaCall>, after: seq<OllamaCall>, i: nat)
    requires HearsOf(a, before, i) && HearsOf(b, after, i) && (before == [] || after == [])
    ensures HearsOf(a + b, before + after, i)
  {
    hide HeadOf, ArgsOf;
    WhatIsSaidAppends(a, b, i);
    assert before == [] ==> before + after == after;
    assert after == [] ==> before + after == before;
    assert "" + ArgsOf(b, i) == ArgsOf(b, i) && ArgsOf(a, i) + "" == ArgsOf(a, i);
  }

  // With one chunk carrying, every index hears of one call.
  lemma {:induction false} SaidIsHeard(chunks: seq<OllamaChunk>, i: nat)
    requires AtMostOneCarries(chunks)
    ensures HearsOf(Said(chunks), Carried(chunks), i)
  {
    hide HearsOf, HeadOf, ArgsOf, OllamaAtoms;
    if chunks == [] {
      NothingHeard(i);
    } else {
      var front, last := chunks[..|chunks| - 1], chunks[|chunks| - 1];
      SaidIsHeard(front, i);
      ChunkIsHeard(last.(done := None), i);
      if last.calls != [] {
        forall k | 0 <= k < |front| ensures front[k].calls == [] { assert chunks[k] == front[k]; }
        LongestIsTotal(front);
      }
      HeardTogether(Said(front), OllamaAtoms(last.(done := None)), Carried(front), last.calls, i);
    }
  }

  lemma NothingHeard(i: nat)
    ensures HearsOf([], [], i)
  {}

  lemma KeptIsAsked(parse: JsonParser, chunks: seq<OllamaChunk>)
    requires AtMostOneCarries(chunks)
    ensures Heard(CallsOf(Streamed(parse, Said(chunks)))) == Asked(parse, chunks)
  {
    hide Said, Streamed, CallsOf, Longest, Total, Carried, HeadOf, ArgsOf;
    CallsKept(parse, chunks);
    LongestIsTotal(chunks);
    AskedIsCarried(parse, chunks);
    var calls := CallsOf(Streamed(parse, Said(chunks)));
    forall k | 0 <= k < |calls|
      ensures (calls[k].name, calls[k].input) == Requests(parse, Carried(chunks))[k]
    {
      SaidIsHeard(chunks, k + 1);
      assert Becomes(FinalBlock(parse, Said(chunks), k + 1), calls[k]);
    }
  }

  // The calls of a finished Ollama reply are the ones the model made, by name and
  // arguments and in order, exactly when at most one chunk carries calls.
  lemma AllCallsSurvive(parse: JsonParser, chunks: seq<OllamaChunk>, usage: Usage)
    ensures Heard(CallsOf(A.Accumulate(parse, Events(Said(chunks) + [Done(usage)])).blocks)) == Asked(parse, chunks)
       <==> AtMostOneCarries(chunks)
  {
    hide Said, Events, A.Accumulate, Streamed, CallsOf, Longest, Total;
    SaidStarts(chunks);
    StreamedBlocks(parse, Said(chunks), Done(usage), []);
    assert Said(chunks) + [Done(usage)] + [] == Said(chunks) + [Done(usage)];
    CallsKept(parse, chunks);
    LongestIsTotal(chunks);
    if AtMostOneCarries(chunks) { KeptIsAsked(parse, chunks); }
  }

  function Carrying(tool: string): OllamaChunk { OllamaChunk("", [OllamaCall(tool, "{}")], None) }

  // Two chunks with one call each: both calls get the first number, and one is lost.
  lemma SecondChunkLosesACall(parse: JsonParser, usage: Usage)
    ensures var chunks := [Carrying("list"), Carrying("run")];
      && |Asked(parse, chunks)| == 2
      && |CallsOf(Streamed(parse, Said(chunks)))| == 1
      && Heard(CallsOf(A.Accumulate(parse, Events(Said(chunks) + [Done(usage)])).blocks)) != Asked(parse, chunks)
  {
    hide Events, A.Accumulate, Streamed, CallsOf, Said;
    var first, second := Carrying("list"), Carrying("run");
    var chunks := [first, second];
    assert chunks[..1] == [first] && [first][..0] == [];
    assert chunks[0].calls != [] && chunks[1].calls != [];
    assert Total([first]) == 1 && Longest([first]) == 1;
    CallsKept(parse, chunks);
    AllCallsSurvive(parse, chunks, usage);
  }
}
