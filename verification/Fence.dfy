// Splitting a message's text into text and code blocks (parse_content_blocks in
// clareon/src/message_list_model.rs).

module Fence {
  import opened Types
  import T = Text

  const FENCE := "```"

  datatype Block = TextBlock(content: string) | CodeBlock(language: string, content: string)

  // A stretch of the input: plain text, or a fenced block with everything around it.
  datatype Piece =
    | Plain(raw: string)
    | Fenced(header: string, lineEnd: bool, content: string, closed: bool, newline: bool)

  function Head(p: Piece): string
    requires p.Fenced?
  {
    p.header + (if p.lineEnd then "\n" else "")
  }

  function Tail(p: Piece): string
    requires p.Fenced?
  {
    p.content + ((if p.closed then FENCE else "") + (if p.newline then "\n" else ""))
  }

  function Raw(p: Piece): string {
    match p
    case Plain(raw) => raw
    case Fenced(_, _, _, _, _) => FENCE + (Head(p) + Tail(p))
  }

  function BlockOf(p: Piece): Block {
    match p
    case Plain(raw) => TextBlock(raw)
    case Fenced(header, _, content, _, _) => CodeBlock(T.Trim(header), content)
  }

  predicate FenceFree(s: string) { T.Find(s, FENCE).None? }

  predicate EndsInBacktick(s: string) { s != "" && s[|s| - 1] == '`' }

  // ---------------------------------------------------------------- splitting

  datatype Cut = Cut(piece: Piece, rest: string)

  // Where the first line ends: at a newline, or at the end.
  function LineEnd(s: string): (k: nat)
    ensures k <= |s| && (k < |s| ==> s[k] == '\n')
  {
    match T.Find(s, "\n")
    case Some(k) => assert s[k..k + 1] == "\n"; k
    case None => |s|
  }

  function AfterLine(s: string): string { if LineEnd(s) < |s| then s[LineEnd(s) + 1..] else "" }

  // The content up to the closing fence or the end, and one newline after it.
  function CutBody(header: string, lineEnd: bool, body: string): (r: Cut)
    ensures |r.rest| <= |body| && r.piece.Fenced? && r.piece.header == header && r.piece.lineEnd == lineEnd
  {
    match T.Find(body, FENCE)
    case None => Cut(Fenced(header, lineEnd, body, false, false), "")
    case Some(c) =>
      var after := body[c + 3..];
      var newline := after != "" && after[0] == '\n';
      Cut(Fenced(header, lineEnd, body[..c], true, newline), if newline then after[1..] else after)
  }

  // What follows an opening fence: the header line and the rest.
  function CutFence(s: string): (r: Cut)
    ensures |r.rest| <= |s| && r.piece.Fenced?
  {
    CutBody(s[..LineEnd(s)], LineEnd(s) < |s|, AfterLine(s))
  }

  function Split(s: string): seq<Piece>
    decreases |s|
  {
    match T.Find(s, FENCE)
    case None => if s == "" then [] else [Plain(s)]
    case Some(k) =>
      var cut := CutFence(s[k + 3..]);
      (if k > 0 then [Plain(s[..k])] else []) + [cut.piece] + Split(cut.rest)
  }

  function Blocks(ps: seq<Piece>): (bs: seq<Block>)
    ensures |bs| == |ps| && forall k :: 0 <= k < |ps| ==> bs[k] == BlockOf(ps[k])
  {
    seq(|ps|, k requires 0 <= k < |ps| => BlockOf(ps[k]))
  }

  function Parsed(text: string): seq<Block> {
    if text == "" then [TextBlock("")] else Blocks(Split(text))
  }

  // One fenced block, from behind its opening fence.
  method ReadFence(text: string) returns (block: Block, remaining: string)
    ensures block == BlockOf(CutFence(text).piece) && remaining == CutFence(text).rest
  {
    hide T.Trim, T.Find, LineEnd;
    var langEnd := LineEnd(text);
    var language := T.Trim(text[..langEnd]);
    remaining := if langEnd < |text| then text[langEnd + 1..] else "";
    var close := T.Find(remaining, FENCE);
    if close.Some? {
      assert T.OccursAt(remaining, FENCE, close.value);
      block := CodeBlock(language, remaining[..close.value]);
      remaining := remaining[close.value + 3..];
      if remaining != "" && remaining[0] == '\n' {
        remaining := remaining[1..];
      }
    } else {
      block := CodeBlock(language, remaining);
      remaining := "";
    }
  }

  method ParseContentBlocks(text: string) returns (blocks: seq<Block>)
    ensures blocks == Parsed(text)
  {
    hide T.Find, CutFence, BlockOf, Split;
    blocks := [];
    var remaining := text;
    ghost var done: seq<Piece> := [];
    while T.Find(remaining, FENCE).Some?
      invariant Split(text) == done + Split(remaining) && blocks == Blocks(done)
      decreases |remaining|
    {
      var fenceStart := T.Find(remaining, FENCE).value;
      ghost var pieces := SplitAtFence(remaining);
      if fenceStart > 0 {
        blocks := blocks + [TextBlock(remaining[..fenceStart])];
      }
      var code;
      code, remaining := ReadFence(remaining[fenceStart + 3..]);
      blocks := blocks + [code];
      done := done + pieces;
    }
    SplitAtEnd(remaining);
    if remaining != "" {
      blocks := blocks + [TextBlock(remaining)];
    }
    assert blocks == Blocks(Split(text));
    SplitOfSomething(text);
    if blocks == [] {
      blocks := [TextBlock(text)];
    }
  }

  lemma SplitAtFence(s: string) returns (pieces: seq<Piece>)
    requires T.Find(s, FENCE).Some?
    ensures var k := T.Find(s, FENCE).value;
      var cut := CutFence(s[k + 3..]);
      && Split(s) == pieces + Split(cut.rest)
      && Blocks(pieces) == (if k > 0 then [TextBlock(s[..k])] else []) + [BlockOf(cut.piece)]
  {
    hide T.Find, CutFence;
    var k := T.Find(s, FENCE).value;
    pieces := (if k > 0 then [Plain(s[..k])] else []) + [CutFence(s[k + 3..]).piece];
  }

  lemma SplitAtEnd(s: string)
    requires T.Find(s, FENCE).None?
    ensures Split(s) == if s == "" then [] else [Plain(s)]
    ensures Blocks(Split(s)) == if s == "" then [] else [TextBlock(s)]
  {}

  lemma SplitOfSomething(s: string)
    ensures Split(s) == [] <==> s == ""
  {}

  // ---------------------------------------------------------------- nothing is lost

  function Concat(ps: seq<Piece>): string {
    if ps == [] then "" else Raw(ps[0]) + Concat(ps[1..])
  }

  lemma HeaderKeepsAll(s: string)
    ensures s == Head(CutFence(s).piece) + AfterLine(s)
  {
    hide LineEnd;
    var k := LineEnd(s);
    if k < |s| {
      assert s == s[..k] + "\n" + s[k + 1..];
    } else {
      assert s[..k] + "" == s && s + "" == s;
    }
  }

  lemma Regroup(a: string, b: string, c: string, d: string)
    ensures a + (b + (c + d)) == (a + (b + c)) + d
  {
    assert b + (c + d) == (b + c) + d;
  }

  lemma BodyKeepsAll(header: string, lineEnd: bool, body: string)
    ensures body == Tail(CutBody(header, lineEnd, body).piece) + CutBody(header, lineEnd, body).rest
  {
    hide T.Find;
    var found := T.Find(body, FENCE);
    if found.None? {
      assert body + ("" + "") == body && body + "" == body;
    } else {
      FoundParts(body, found.value);
      var after := body[found.value + 3..];
      if after != "" && after[0] == '\n' {
        Regroup(body[..found.value], FENCE, "\n", after[1..]);
      } else {
        Regroup(body[..found.value], FENCE, "", after);
      }
    }
  }

  // What a found fence and a newline behind it leave of a string.
  lemma FoundParts(body: string, c: nat)
    requires T.OccursAt(body, FENCE, c)
    ensures var after := body[c + 3..];
      && body == body[..c] + (FENCE + after)
      && (after != "" && after[0] == '\n' ==> after == "\n" + after[1..])
      && after == "" + after
  {}

  lemma CutFenceKeepsAll(s: string)
    ensures FENCE + s == Raw(CutFence(s).piece) + CutFence(s).rest
  {
    hide CutBody, Head, Tail, AfterLine, LineEnd;
    var Cut(piece, rest) := CutFence(s);
    HeaderKeepsAll(s);
    BodyKeepsAll(s[..LineEnd(s)], LineEnd(s) < |s|, AfterLine(s));
    assert s == Head(piece) + (Tail(piece) + rest);
    assert s == (Head(piece) + Tail(piece)) + rest;
  }

  // The pieces, put together again, are the input.
  lemma {:induction false} NothingIsLost(s: string)
    ensures Concat(Split(s)) == s
    decreases |s|
  {
    hide T.Find, CutFence;
    match T.Find(s, FENCE) {
      case None =>
        if s != "" { assert [Plain(s)][1..] == []; }
      case Some(k) =>
        var cut := CutFence(s[k + 3..]);
        NothingIsLost(cut.rest);
        CutFenceKeepsAll(s[k + 3..]);
        assert s[k..] == FENCE + s[k + 3..];
        assert s == s[..k] + s[k..];
        var tail := [cut.piece] + Split(cut.rest);
        assert tail[1..] == Split(cut.rest);
        if k > 0 {
          assert Split(s) == [Plain(s[..k])] + tail;
          assert Split(s)[1..] == tail;
        } else {
          assert Split(s) == tail;
        }
    }
  }

  // ---------------------------------------------------------------- the shape of pieces

  predicate NewlineFree(s: string) { forall k :: 0 <= k < |s| ==> s[k] != '\n' }

  // A piece followed by `next`.
  predicate PieceOk(p: Piece, next: seq<Piece>) {
    match p
    case Plain(raw) =>
      raw != "" && FenceFree(raw) && (next != [] ==> next[0].Fenced? && !EndsInBacktick(raw))
    case Fenced(header, _, content, closed, newline) =>
      NewlineFree(header) && FenceFree(content)
      && (if closed then !EndsInBacktick(content) else next == [] && !newline)
  }

  predicate WellCut(ps: seq<Piece>) {
    ps == [] || (PieceOk(ps[0], ps[1..]) && WellCut(ps[1..]))
  }

  lemma PrefixIsFree(s: string, pat: string, k: nat)
    requires pat != "" && T.Find(s, pat) == Some(k)
    ensures T.Find(s[..k], pat).None?
    ensures pat == FENCE ==> !EndsInBacktick(s[..k])
  {
    forall j: nat ensures !T.OccursAt(s[..k], pat, j) {
      if j + |pat| <= k {
        assert s[j..j + |pat|] == s[..k][j..j + |pat|];
        assert !T.OccursAt(s, pat, j);
      }
    }
    if pat == FENCE && k > 0 {
      assert !T.OccursAt(s, pat, k - 1);
      assert s[k..k + 3] == FENCE;
      assert s[k - 1..k + 2] == [s[k - 1]] + s[k..k + 2];
      assert s[k..k + 2] == s[k..k + 3][..2];
    }
  }

  lemma CutIsOk(s: string)
    ensures PieceOk(CutFence(s).piece, [])
    ensures !CutFence(s).piece.closed ==> CutFence(s).rest == ""
  {
    hide T.Find, LineEnd;
    FirstLineIsFree(s);
    var body := AfterLine(s);
    var found := T.Find(body, FENCE);
    if found.Some? { PrefixIsFree(body, FENCE, found.value); }
  }

  lemma FirstLineIsFree(s: string)
    ensures NewlineFree(s[..LineEnd(s)])
  {
    hide T.Find;
    match T.Find(s, "\n") {
      case Some(k) =>
        PrefixIsFree(s, "\n", k);
        NoNewline(s[..k]);
      case None =>
        NoNewline(s);
        assert s[..|s|] == s;
    }
  }

  lemma NoNewline(s: string)
    requires T.Find(s, "\n").None?
    ensures NewlineFree(s)
  {
    forall k: nat | k < |s| ensures s[k] != '\n' {
      assert !T.OccursAt(s, "\n", k);
      assert s[k..k + 1] == [s[k]];
    }
  }

  // Text and code contents hold no fence, no two texts meet, a text or code before a
  // fence does not end in a backtick, and only the last block can be unclosed.
  lemma {:induction false} SplitIsWellCut(s: string)
    ensures WellCut(Split(s))
    decreases |s|
  {
    hide T.Find, CutFence, PieceOk;
    match T.Find(s, FENCE) {
      case None =>
        PlainIsOk(s, []);
        if s != "" { assert [Plain(s)][1..] == []; }
      case Some(k) =>
        var cut := CutFence(s[k + 3..]);
        SplitIsWellCut(cut.rest);
        CutIsOk(s[k + 3..]);
        var tail := [cut.piece] + Split(cut.rest);
        assert tail[1..] == Split(cut.rest);
        SplitOfSomething(cut.rest);
        FencedIsOk(cut.piece, Split(cut.rest));
        assert WellCut(tail);
        if k > 0 {
          PrefixIsFree(s, FENCE, k);
          PlainIsOk(s[..k], tail);
          assert Split(s) == [Plain(s[..k])] + tail;
          assert Split(s)[1..] == tail;
        } else {
          assert Split(s) == tail;
        }
    }
  }

  lemma PlainIsOk(s: string, next: seq<Piece>)
    ensures s != "" && FenceFree(s) && (next != [] ==> next[0].Fenced? && !EndsInBacktick(s))
        ==> PieceOk(Plain(s), next)
  {}

  lemma FencedIsOk(p: Piece, next: seq<Piece>)
    requires p.Fenced? && PieceOk(p, []) && (!p.closed ==> next == [])
    ensures PieceOk(p, next)
  {}

  // ---------------------------------------------------------------- printing

  function PrintBlock(b: Block): string {
    match b
    case TextBlock(content) => content
    case CodeBlock(language, content) => FENCE + (language + ("\n" + (content + (FENCE + "\n"))))
  }

  function Print(bs: seq<Block>): string {
    if bs == [] then "" else PrintBlock(bs[0]) + Print(bs[1..])
  }

  // A block that survives printing, followed by `next`.
  predicate BlockOk(b: Block, next: seq<Block>) {
    match b
    case TextBlock(t) => t != "" && FenceFree(t) && (next != [] ==> next[0].CodeBlock? && !EndsInBacktick(t))
    case CodeBlock(l, c) => T.Trimmed(l) && NewlineFree(l) && FenceFree(c) && !EndsInBacktick(c)
  }

  predicate AllOk(bs: seq<Block>) { bs == [] || (BlockOk(bs[0], bs[1..]) && AllOk(bs[1..])) }

  predicate Canonical(bs: seq<Block>) { bs == [TextBlock("")] || (bs != [] && AllOk(bs)) }

  lemma FenceAfter(c: string, rest: string)
    requires FenceFree(c) && !EndsInBacktick(c)
    ensures T.Find(c + (FENCE + rest), FENCE) == Some(|c|)
  {
    var s := c + (FENCE + rest);
    assert s[|c|..|c| + 3] == FENCE;
    forall j: nat | j < |c| ensures !T.OccursAt(s, FENCE, j) {
      if j + 3 <= |c| {
        assert s[j..j + 3] == c[j..j + 3];
        assert !T.OccursAt(c, FENCE, j);
      } else {
        assert s[j..j + 3][|c| - 1 - j] == c[|c| - 1] != '`';
        assert FENCE[|c| - 1 - j] == '`';
      }
    }
    T.FindIs(s, FENCE, |c|);
  }

  lemma NewlineAfter(l: string, rest: string)
    requires NewlineFree(l)
    ensures T.Find(l + ("\n" + rest), "\n") == Some(|l|)
  {
    var s := l + ("\n" + rest);
    assert s[|l|..|l| + 1] == "\n";
    forall j: nat | j < |l| ensures !T.OccursAt(s, "\n", j) {
      assert s[j..j + 1] == [l[j]];
    }
    T.FindIs(s, "\n", |l|);
  }

  lemma CutPrinted(l: string, c: string, rest: string)
    requires NewlineFree(l) && FenceFree(c) && !EndsInBacktick(c)
    ensures CutFence(l + ("\n" + (c + (FENCE + ("\n" + rest))))) == Cut(Fenced(l, true, c, true, true), rest)
  {
    hide T.Find;
    var body := c + (FENCE + ("\n" + rest));
    var s := l + ("\n" + body);
    NewlineAfter(l, body);
    FenceAfter(c, "\n" + rest);
    assert s[..|l|] == l && s[|l| + 1..] == body;
    assert body[..|c|] == c && body[|c| + 3..] == "\n" + rest;
  }

  lemma SplitPrintedCode(l: string, c: string, rest: string)
    requires NewlineFree(l) && FenceFree(c) && !EndsInBacktick(c)
    ensures Split(PrintBlock(CodeBlock(l, c)) + rest) == [Fenced(l, true, c, true, true)] + Split(rest)
  {
    hide T.Find, CutFence;
    var inner := l + ("\n" + (c + (FENCE + ("\n" + rest))));
    var s := PrintBlock(CodeBlock(l, c)) + rest;
    assert s == FENCE + inner by { PrintedCode(l, c, rest); }
    FenceAtStart(inner);
    CutPrinted(l, c, rest);
    assert s[0 + 3..] == inner;
  }

  lemma PrintedCode(l: string, c: string, rest: string)
    ensures PrintBlock(CodeBlock(l, c)) + rest == FENCE + (l + ("\n" + (c + (FENCE + ("\n" + rest)))))
  {
    var a := FENCE + "\n";
    assert a + rest == FENCE + ("\n" + rest);
    assert (c + a) + rest == c + (a + rest);
    assert ("\n" + (c + a)) + rest == "\n" + ((c + a) + rest);
    assert (l + ("\n" + (c + a))) + rest == l + (("\n" + (c + a)) + rest);
  }

  lemma FenceAtStart(s: string)
    ensures T.Find(FENCE + s, FENCE) == Some(0)
  {
    assert (FENCE + s)[0..3] == FENCE;
    T.FindIs(FENCE + s, FENCE, 0);
  }

  lemma SplitPrintedText(t: string, rest: string)
    requires t != "" && FenceFree(t)
    requires rest == "" || (FENCE <= rest && !EndsInBacktick(t))
    ensures Split(t + rest) == [Plain(t)] + Split(rest)
  {
    hide T.Find, CutFence;
    if rest == "" {
      assert t + rest == t;
      SplitAtEnd(t);
      NoFenceInNothing();
      SplitAtEnd("");
    } else {
      var inner := rest[3..];
      assert rest == FENCE + inner;
      FenceAtStart(inner);
      FenceAfter(t, inner);
      assert (t + rest)[..|t|] == t && (t + rest)[|t| + 3..] == inner && rest[0 + 3..] == inner;
    }
  }

  lemma NoFenceInNothing()
    ensures T.Find("", FENCE).None?
  {}

  // Printing canonical blocks and splitting the print gives the blocks back.
  lemma {:induction false} SplitOfPrint(bs: seq<Block>)
    requires AllOk(bs)
    ensures Blocks(Split(Print(bs))) == bs
  {
    hide Split, T.Trim;
    if bs == [] {
      SplitOfSomething("");
    } else {
      var rest := Print(bs[1..]);
      SplitOfPrint(bs[1..]);
      match bs[0] {
        case TextBlock(t) =>
          if bs[1..] != [] { PrintStartsWithFence(bs[1..]); }
          SplitPrintedText(t, rest);
        case CodeBlock(l, c) =>
          SplitPrintedCode(l, c, rest);
          T.TrimmedIsFixed(l);
      }
    }
  }

  lemma PrintStartsWithFence(bs: seq<Block>)
    requires bs != [] && bs[0].CodeBlock?
    ensures FENCE <= Print(bs)
  {}

  lemma TrimIsPart(s: string)
    requires NewlineFree(s)
    ensures NewlineFree(T.Trim(s)) && T.Trimmed(T.Trim(s))
  {
    hide T.IsWhitespace, T.Blanks, T.TextEnd;
    T.TrimmedIsFixed(s);
  }

  // Well cut pieces make canonical blocks, but for an unclosed last block.
  lemma {:induction false} WellCutIsOk(ps: seq<Piece>)
    requires WellCut(ps)
    requires ps != [] && ps[|ps| - 1].Fenced? ==> !EndsInBacktick(ps[|ps| - 1].content)
    ensures AllOk(Blocks(ps))
  {
    hide T.Trim, T.Trimmed, T.Find;
    if ps != [] {
      assert Blocks(ps)[1..] == Blocks(ps[1..]);
      WellCutIsOk(ps[1..]);
      if ps[0].Fenced? { TrimIsPart(ps[0].header); }
    }
  }

  lemma {:induction false} LastPieceIsOk(ps: seq<Piece>)
    requires WellCut(ps) && ps != []
    ensures PieceOk(ps[|ps| - 1], [])
  {
    hide PieceOk;
    if |ps| == 1 {
      assert ps[1..] == [];
    } else {
      LastPieceIsOk(ps[1..]);
    }
  }

  lemma {:induction false} AllOkLast(bs: seq<Block>)
    requires AllOk(bs) && bs != []
    ensures bs[|bs| - 1].CodeBlock? ==> !EndsInBacktick(bs[|bs| - 1].content)
  {
    if |bs| > 1 { AllOkLast(bs[1..]); }
  }

  lemma {:induction false} ConcatLast(ps: seq<Piece>)
    requires ps != [] && Raw(ps[|ps| - 1]) != ""
    ensures Concat(ps) != "" && Concat(ps)[|Concat(ps)| - 1] == Raw(ps[|ps| - 1])[|Raw(ps[|ps| - 1])| - 1]
  {
    hide Raw;
    if |ps| == 1 {
      assert Concat(ps) == Raw(ps[0]) + Concat([]);
    } else {
      ConcatLast(ps[1..]);
    }
  }

  lemma PrintedCodeEnds(l: string, c: string)
    ensures var s := PrintBlock(CodeBlock(l, c)); s != "" && s[|s| - 1] == '\n'
  {
    var a := FENCE + "\n";
    var b := c + a;
    assert a[|a| - 1] == '\n' && b[|b| - 1] == a[|a| - 1];
    var d := "\n" + b;
    assert d[|d| - 1] == b[|b| - 1];
    var e := l + d;
    assert e[|e| - 1] == d[|d| - 1];
    assert (FENCE + e)[|FENCE + e| - 1] == e[|e| - 1];
  }

  lemma {:induction false} PrintLast(bs: seq<Block>)
    requires bs != [] && bs[|bs| - 1].CodeBlock?
    ensures Print(bs) != "" && Print(bs)[|Print(bs)| - 1] == '\n'
  {
    hide PrintBlock;
    if |bs| == 1 {
      PrintedCodeEnds(bs[0].language, bs[0].content);
      assert Print(bs) == PrintBlock(bs[0]) + "";
    } else {
      PrintLast(bs[1..]);
    }
  }

  // The blocks of a text are canonical unless it ends in a code block that was never
  // closed and ends in a backtick.
  lemma ParsedIsCanonical(text: string)
    ensures var bs := Parsed(text);
      && bs != []
      && (Canonical(bs) <==> !(bs[|bs| - 1].CodeBlock? && EndsInBacktick(bs[|bs| - 1].content)))
  {
    hide Split, T.Find, T.Trim, T.Trimmed;
    SplitOfSomething(text);
    if text != "" {
      var ps := Split(text);
      SplitIsWellCut(text);
      if ps[|ps| - 1].Fenced? && EndsInBacktick(ps[|ps| - 1].content) {
        if AllOk(Blocks(ps)) { AllOkLast(Blocks(ps)); }
      } else {
        WellCutIsOk(ps);
      }
    }
  }

  // The parser inverts the printer exactly on canonical blocks.
  lemma ParserInvertsPrinter(bs: seq<Block>)
    ensures Parsed(Print(bs)) == bs <==> Canonical(bs)
  {
    hide Split, T.Find, T.Trim, T.Trimmed, FenceFree, Print, WellCut, AllOk;
    if bs == [TextBlock("")] {
      PrintNothing();
    } else if Canonical(bs) {
      SplitOfPrint(bs);
      SplitOfSomething(Print(bs));
    } else if Parsed(Print(bs)) == bs {
      var text := Print(bs);
      ParsedIsCanonical(text);
      SplitIsWellCut(text);
      NothingIsLost(text);
      PrintLast(bs);
      UnclosedEnds(Split(text));
    }
  }

  lemma PrintNothing()
    ensures Print([TextBlock("")]) == ""
  {
    assert [TextBlock("")][1..] == [] && Print([]) == "";
  }

  // An unclosed code block that ends in a backtick is how its text ends.
  lemma UnclosedEnds(ps: seq<Piece>)
    requires WellCut(ps) && ps != [] && ps[|ps| - 1].Fenced? && EndsInBacktick(ps[|ps| - 1].content)
    ensures Concat(ps) != "" && Concat(ps)[|Concat(ps)| - 1] == '`'
  {
    hide WellCut, Concat, FenceFree, NewlineFree;
    LastPieceIsOk(ps);
    var p := ps[|ps| - 1];
    assert !p.closed;
    UnclosedRaw(p);
    ConcatLast(ps);
  }

  lemma UnclosedRaw(p: Piece)
    requires p.Fenced? && !p.closed && !p.newline && EndsInBacktick(p.content)
    ensures Raw(p) != "" && Raw(p)[|Raw(p)| - 1] == '`'
  {
    assert Tail(p) == p.content;
    var a := Head(p) + Tail(p);
    assert a[|a| - 1] == p.content[|p.content| - 1];
    assert (FENCE + a)[|FENCE + a| - 1] == a[|a| - 1];
  }

  // Printing what was parsed and parsing again changes nothing, but for that one shape.
  lemma PrintedTextParsesTheSame(text: string)
    ensures var bs := Parsed(text);
      && bs != []
      && (Parsed(Print(bs)) == bs <==> !(bs[|bs| - 1].CodeBlock? && EndsInBacktick(bs[|bs| - 1].content)))
  {
    ParsedIsCanonical(text);
    ParserInvertsPrinter(Parsed(text));
  }

  // A code block that was never closed and ends in a backtick: its print closes it one
  // character early.
  lemma UnclosedBacktickIsCut()
    ensures Parsed("```\n`") == [CodeBlock("", "`")]
    ensures Parsed(Print([CodeBlock("", "`")])) != [CodeBlock("", "`")]
  {
    hide T.Trim;
    var text := "```\n`";
    FenceAtStart("\n`");
    assert text == FENCE + "\n`" && text[3..] == "\n`";
    T.FindIs("\n`", "\n", 0);
    assert AfterLine("\n`") == "`" && "\n`"[..0] == "";
    assert T.Find("`", FENCE).None?;
    T.TrimmedIsFixed("");
    assert CutFence("\n`") == Cut(Fenced("", true, "`", false, false), "");
    assert Split("") == [] && Split(text) == [CutFence("\n`").piece];
    var bs := [CodeBlock("", "`")];
    assert EndsInBacktick(bs[0].content) && bs[1..] == [];
    ParserInvertsPrinter(bs);
  }
}
