// Path components, the lexical normaliser and the coverage order of path rules
// (clareon-core/src/tools/approval.rs, Unix path syntax).

module Paths {
  datatype Component = RootDir | CurDir | ParentDir | Normal(name: string)

  // ---------------------------------------------------------------- components

  // The pieces between slashes; "a//b" has an empty one in the middle.
  function Segments(path: string): (segs: seq<string>)
    ensures |segs| > 0
  {
    if path == "" then [""]
    else
      var rest := Segments(path[1..]);
      if path[0] == '/' then [""] + rest
      else [[path[0]] + rest[0]] + rest[1..]
  }

  // Path::components: repeated slashes vanish, "." only counts in front.
  function Components(path: string): seq<Component> {
    if path != "" && path[0] == '/' then [RootDir] + ComponentsOf(Segments(path), false)
    else ComponentsOf(Segments(path), true)
  }

  function ComponentsOf(segs: seq<string>, first: bool): seq<Component> {
    if segs == [] then []
    else
      (if segs[0] == "" then []
       else if segs[0] == "." then (if first then [CurDir] else [])
       else if segs[0] == ".." then [ParentDir]
       else [Normal(segs[0])])
      + ComponentsOf(segs[1..], false)
  }

  // ---------------------------------------------------------------- normaliser

  // PathBuf::pop: nothing happens at "" and at "/".
  function Pop(stack: seq<Component>): seq<Component> {
    if stack == [] || stack[|stack| - 1] == RootDir then stack else stack[..|stack| - 1]
  }

  function Push(stack: seq<Component>, c: Component): seq<Component> {
    match c
    case CurDir => stack
    case ParentDir => Pop(stack)
    case RootDir => [RootDir]
    case Normal(_) => stack + [c]
  }

  function NormalizeFrom(stack: seq<Component>, cs: seq<Component>): seq<Component>
    decreases |cs|
  {
    if cs == [] then stack else NormalizeFrom(Push(stack, cs[0]), cs[1..])
  }

  function Normalize(cs: seq<Component>): seq<Component> { NormalizeFrom([], cs) }

  // normalize_path as the source runs it: a loop pushing onto and popping off `out`.
  method NormalizePath(path: string) returns (out: seq<Component>)
    ensures out == Normalize(Components(path))
    ensures Resolved(out)
  {
    var cs := Components(path);
    out := [];
    for i := 0 to |cs|
      invariant NormalizeFrom(out, cs[i..]) == Normalize(cs)
    {
      match cs[i]
      case CurDir =>
      case ParentDir =>
        if out != [] && out[|out| - 1] != RootDir {
          out := out[..|out| - 1];
        }
      case RootDir =>
        out := [RootDir];
      case Normal(_) =>
        out := out + [cs[i]];
      assert cs[i..][1..] == cs[i + 1..];
    }
    NormalizeResolves([], cs);
  }

  // No "." and no ".." is left, and a root can only be in front.
  predicate Resolved(cs: seq<Component>) {
    forall k :: 0 <= k < |cs| ==> cs[k].Normal? || (cs[k].RootDir? && k == 0)
  }

  lemma {:induction false} NormalizeResolves(stack: seq<Component>, cs: seq<Component>)
    requires Resolved(stack)
    ensures Resolved(NormalizeFrom(stack, cs))
    decreases |cs|
  {
    if cs != [] {
      NormalizeResolves(Push(stack, cs[0]), cs[1..]);
    }
  }

  lemma {:induction false} NormalizeAppend(stack: seq<Component>, p: seq<Component>, q: seq<Component>)
    ensures NormalizeFrom(stack, p + q) == NormalizeFrom(NormalizeFrom(stack, p), q)
    decreases |p|
  {
    if p == [] {
      assert p + q == q;
    } else {
      assert (p + q)[1..] == p[1..] + q;
      NormalizeAppend(Push(stack, p[0]), p[1..], q);
    }
  }

  lemma {:induction false} ResolvedIsFixedFrom(stack: seq<Component>, cs: seq<Component>)
    requires Resolved(stack + cs)
    ensures NormalizeFrom(stack, cs) == stack + cs
    decreases |cs|
  {
    if cs != [] {
      assert (stack + cs)[|stack|] == cs[0];
      assert Push(stack, cs[0]) == stack + [cs[0]];
      assert stack + [cs[0]] + cs[1..] == stack + cs;
      ResolvedIsFixedFrom(stack + [cs[0]], cs[1..]);
    } else {
      assert stack + cs == stack;
    }
  }

  // The normaliser is idempotent, and a path may be normalised in pieces.
  lemma NormalizeIdempotent(p: seq<Component>)
    ensures Normalize(Normalize(p)) == Normalize(p)
    ensures Resolved(Normalize(p))
  {
    NormalizeResolves([], p);
    assert [] + Normalize(p) == Normalize(p);
    ResolvedIsFixedFrom([], Normalize(p));
  }

  lemma NormalizeInPieces(p: seq<Component>, q: seq<Component>)
    ensures Normalize(p + q) == Normalize(Normalize(p) + q)
  {
    NormalizeAppend([], p, q);
    NormalizeAppend([], Normalize(p), q);
    NormalizeIdempotent(p);
  }

  // ---------------------------------------------------------------- relative paths

  // What a relative path does to any directory: climb so many levels, then descend.
  datatype Move = Move(ups: nat, downs: seq<Component>)

  predicate Relative(cs: seq<Component>) { RootDir !in cs }

  function Net(cs: seq<Component>): (m: Move)
    requires Relative(cs)
    ensures Resolved(m.downs) && Relative(m.downs)
  {
    if cs == [] then Move(0, [])
    else
      Further(Net(cs[..|cs| - 1]), cs[|cs| - 1])
  }

  // One more component behind a move.
  function Further(m: Move, c: Component): (r: Move)
    requires c != RootDir
    ensures Resolved(m.downs) && Relative(m.downs) ==> Resolved(r.downs) && Relative(r.downs)
  {
    match c
    case CurDir => m
    case ParentDir => if m.downs == [] then Move(m.ups + 1, []) else Move(m.ups, m.downs[..|m.downs| - 1])
    case Normal(_) => Move(m.ups, m.downs + [c])
  }

  function Climb(stack: seq<Component>, ups: nat): seq<Component> {
    if ups == 0 then stack else Climb(Pop(stack), ups - 1)
  }

  lemma {:induction false} ClimbOnce(stack: seq<Component>, ups: nat)
    ensures Climb(stack, ups + 1) == Pop(Climb(stack, ups))
  {
    if ups > 0 { ClimbOnce(Pop(stack), ups - 1); }
  }

  lemma FurtherIsPush(stack: seq<Component>, m: Move, c: Component)
    requires c != RootDir && Relative(m.downs)
    ensures Push(Climb(stack, m.ups) + m.downs, c) == Climb(stack, Further(m, c).ups) + Further(m, c).downs
  {
    hide Climb;
    var at := Climb(stack, m.ups) + m.downs;
    match c {
      case CurDir =>
      case ParentDir =>
        if m.downs == [] {
          ClimbOnce(stack, m.ups);
          assert at == Climb(stack, m.ups) && Pop(at) + [] == Pop(at);
        } else {
          assert at[|at| - 1] == m.downs[|m.downs| - 1];
          assert at[|at| - 1] in m.downs;
          assert Pop(at) == Climb(stack, m.ups) + m.downs[..|m.downs| - 1];
        }
      case Normal(_) =>
        assert at + [c] == Climb(stack, m.ups) + (m.downs + [c]);
    }
  }

  lemma PushOne(stack: seq<Component>, c: Component)
    ensures NormalizeFrom(stack, [c]) == Push(stack, c)
  {
    assert [c][1..] == [];
  }

  lemma StayPut(stack: seq<Component>)
    ensures NormalizeFrom(stack, []) == stack == Climb(stack, 0) + []
  {}

  // Following a relative path is climbing and descending by its net move, whatever
  // detours the path makes.
  lemma {:induction false} NormalizeIsNetMove(stack: seq<Component>, q: seq<Component>)
    requires Relative(q)
    ensures NormalizeFrom(stack, q) == Climb(stack, Net(q).ups) + Net(q).downs
    decreases |q|
  {
    hide NormalizeFrom, Climb, Push, Further, Resolved;
    if q == [] {
      StayPut(stack);
    } else {
      var front, last := q[..|q| - 1], q[|q| - 1];
      assert q == front + [last];
      NormalizeIsNetMove(stack, front);
      NormalizeAppend(stack, front, [last]);
      PushOne(NormalizeFrom(stack, front), last);
      FurtherIsPush(stack, Net(front), last);
    }
  }

  // ---------------------------------------------------------------- coverage

  // path_covers on components: does `allowed` cover `requested`?
  predicate Covers(requested: seq<Component>, allowed: seq<Component>) {
    Normalize(allowed) <= Normalize(requested)
  }

  predicate PathCovers(requested: string, allowed: string) {
    Covers(Components(requested), Components(allowed))
  }

  lemma CoversIsPreorder(a: seq<Component>, b: seq<Component>, c: seq<Component>)
    ensures Covers(a, a)
    ensures Covers(a, b) && Covers(b, c) ==> Covers(a, c)
    ensures Covers(a, b) && Covers(b, a) ==> Normalize(a) == Normalize(b)
  {}

  lemma {:induction false} ClimbIsPrefix(stack: seq<Component>, ups: nat)
    requires Resolved(stack)
    ensures Climb(stack, ups) <= stack
    ensures ups > 0 ==> Climb(stack, ups) <= Pop(stack)
    ensures |Climb(stack, ups)| + ups >= |stack|
    decreases ups
  {
    if ups > 0 { ClimbIsPrefix(Pop(stack), ups - 1); }
  }

  lemma PrefixOfExtension<T>(b: seq<T>, kept: seq<T>, downs: seq<T>)
    requires kept <= b
    ensures b <= kept + downs <==> b[|kept|..] <= downs
  {
    var k := |kept|;
    assert b == kept + b[k..];
    if b <= kept + downs {
      assert b[k..] == (kept + downs)[..|b|][k..] == downs[..|b| - k];
    }
    if b[k..] <= downs {
      assert (kept + downs)[..|b|] == kept + downs[..|b| - k];
    }
  }

  // A path below `base` is covered exactly when its net move re-enters the part of
  // base it left: never climbing above base is enough, and a path that climbs must
  // come back down through the same directories.
  lemma CoveredBelow(base: seq<Component>, suffix: seq<Component>)
    requires Relative(suffix)
    ensures
      var b := Normalize(base);
      var kept := Climb(b, Net(suffix).ups);
      && kept <= b
      && (Covers(base + suffix, base) <==> b[|kept|..] <= Net(suffix).downs)
      && (Net(suffix).ups == 0 ==> Covers(base + suffix, base))
  {
    hide NormalizeFrom, Net, Resolved;
    var b, m := Normalize(base), Net(suffix);
    NormalizeIdempotent(base);
    NormalizeAppend([], base, suffix);
    NormalizeIsNetMove(b, suffix);
    ClimbIsPrefix(b, m.ups);
    PrefixOfExtension(b, Climb(b, m.ups), m.downs);
  }

  // A suffix that climbs out of base, names on its way down what it left, and stays there
  // is covered.
  lemma ClimbingBackIsCovered(base: seq<Component>, ups: nat, rest: seq<Component>)
    requires Relative(rest) && Net(rest).ups == 0
    ensures var b := Normalize(base);
      var kept := Climb(b, ups);
      && kept <= b && Relative(b[|kept|..])
      && Covers(base + (Climbing(ups) + b[|kept|..] + rest), base)
  {
    hide NormalizeFrom, Resolved, Net, Climb;
    var b := Normalize(base);
    NormalizeIdempotent(base);
    WhatWasLeft(b, ups);
    var kept := Climb(b, ups);
    var left := b[|kept|..];
    assert kept + left == b;
    NormalizeAppend([], base, Climbing(ups) + left + rest);
    NormalizeAppend(b, Climbing(ups) + left, rest);
    NormalizeAppend(b, Climbing(ups), left);
    ClimbingClimbs(b, ups);
    ResolvedIsFixedFrom(kept, left);
    NormalizeIsNetMove(b, rest);
    NoClimb(b);
  }

  lemma NoClimb(b: seq<Component>)
    ensures Climb(b, 0) == b
  {}

  lemma WhatWasLeft(b: seq<Component>, ups: nat)
    requires Resolved(b)
    ensures Climb(b, ups) <= b && Relative(b[|Climb(b, ups)|..])
  {
    hide Climb;
    ClimbIsPrefix(b, ups);
    if [RootDir] <= b { RootStays(b, ups); }
    var k := |Climb(b, ups)|;
    assert forall j :: 0 <= j < |b| - k ==> b[k..][j] == b[j + k];
  }

  lemma {:induction false} RootStays(stack: seq<Component>, ups: nat)
    requires [RootDir] <= stack
    ensures [RootDir] <= Climb(stack, ups)
    decreases ups
  {
    if ups > 0 { RootStays(Pop(stack), ups - 1); }
  }

  // As many ".." as one likes.
  function Climbing(ups: nat): seq<Component> { seq(ups, _ => ParentDir) }

  lemma {:induction false} ClimbingClimbs(stack: seq<Component>, ups: nat)
    ensures NormalizeFrom(stack, Climbing(ups)) == Climb(stack, ups)
  {
    if ups > 0 {
      assert Climbing(ups)[1..] == Climbing(ups - 1);
      ClimbingClimbs(Pop(stack), ups - 1);
    }
  }

  // ---------------------------------------------------------------- what a rule grants

  // An absolute path: a root, and nothing but names and dots behind it.
  predicate Absolute(cs: seq<Component>) { cs != [] && cs[0] == RootDir && Relative(cs[1..]) }

  lemma NormalizeAbsolute(cwd: seq<Component>, cs: seq<Component>)
    requires Absolute(cs)
    ensures NormalizeFrom(cwd, cs) == Normalize(cs)
    ensures Normalize(cs) != [] && Normalize(cs)[0] == RootDir
  {
    assert NormalizeFrom(cwd, cs) == NormalizeFrom([RootDir], cs[1..]);
    NormalizeIsNetMove([RootDir], cs[1..]);
    ClimbFromRoot(Net(cs[1..]).ups);
  }

  lemma {:induction false} ClimbFromRoot(ups: nat)
    ensures Climb([RootDir], ups) == [RootDir] && Climb([], ups) == []
  {
    if ups > 0 { ClimbFromRoot(ups - 1); }
  }

  lemma NormalizeRelative(cs: seq<Component>)
    requires Relative(cs)
    ensures Normalize(cs) == Net(cs).downs && Relative(Normalize(cs))
  {
    NormalizeIsNetMove([], cs);
    ClimbFromRoot(Net(cs).ups);
    assert [] + Net(cs).downs == Net(cs).downs;
  }

  lemma RelativeGrants(requested: seq<Component>, allowed: seq<Component>)
    requires Absolute(requested) && Relative(allowed)
    ensures Covers(requested, allowed) <==> Normalize(allowed) == []
  {
    NormalizeAbsolute([], requested);
    NormalizeRelative(allowed);
    if Normalize(allowed) != [] { assert Normalize(allowed)[0] in Normalize(allowed); }
  }

  predicate Directory(cwd: seq<Component>) { Absolute(cwd) && Resolved(cwd) }

  // What a reader takes a rule to grant: the paths below the rule's own, wherever the two
  // are read from.
  ghost predicate LiesBelow(requested: seq<Component>, allowed: seq<Component>) {
    forall cwd :: Directory(cwd) ==> NormalizeFrom(cwd, allowed) <= NormalizeFrom(cwd, requested)
  }

  lemma {:induction false} ClimbTakes(stack: seq<Component>, ups: nat)
    requires Directory(stack) && ups < |stack|
    ensures Climb(stack, ups) == stack[..|stack| - ups]
  {
    if ups > 0 {
      assert stack[|stack| - 1] in stack[1..];
      ClimbTakes(stack[..|stack| - 1], ups - 1);
      assert stack[..|stack| - 1][..|stack| - ups] == stack[..|stack| - ups];
    } else {
      assert stack[..|stack|] == stack;
    }
  }

  lemma {:induction false} ClimbMore(stack: seq<Component>, ups: nat, more: nat)
    requires Resolved(stack)
    ensures Climb(stack, ups + more) <= Climb(stack, ups)
    decreases more
  {
    if more > 0 {
      ClimbOnce(stack, ups + more - 1);
      ClimbMore(stack, ups, more - 1);
      ClimbIsPrefix(stack, ups + more - 1);
    }
  }

  function FreshName(cs: seq<Component>): (name: string)
    ensures name != "" && forall c :: c in cs && c.Normal? ==> |c.name| < |name|
  {
    if cs == [] then "x"
    else
      var name := FreshName(cs[1..]);
      if cs[0].Normal? then name + cs[0].name else name
  }

  // A directory deep down, by a name that neither path uses.
  function Deep(name: string, depth: nat): (cwd: seq<Component>)
    ensures Directory(cwd) && |cwd| == depth + 1
    ensures forall k :: 1 <= k <= depth ==> cwd[k] == Normal(name)
  {
    var names := seq(depth, _ => Normal(name));
    assert ([RootDir] + names)[1..] == names;
    [RootDir] + names
  }

  // One move stays below another, seen from a directory.
  predicate MovesBelow(cwd: seq<Component>, r: Move, a: Move) {
    Climb(cwd, a.ups) + a.downs <= Climb(cwd, r.ups) + r.downs
  }

  // The rule climbs as far as the path and its names come first, or it only climbs, and
  // further.
  predicate Reaches(r: Move, a: Move) { (a.ups == r.ups && a.downs <= r.downs) || (a.ups > r.ups && a.downs == []) }

  lemma ReachesEverywhere(cwd: seq<Component>, r: Move, a: Move)
    requires Directory(cwd) && Reaches(r, a)
    ensures MovesBelow(cwd, r, a)
  {
    if a.ups == r.ups {
      PrefixUnder(Climb(cwd, a.ups), a.downs, r.downs);
    } else {
      ClimbMore(cwd, r.ups, a.ups - r.ups);
      assert Climb(cwd, a.ups) + [] == Climb(cwd, a.ups);
    }
  }

  lemma PrefixUnder<T>(front: seq<T>, a: seq<T>, r: seq<T>)
    ensures front + a <= front + r <==> a <= r
  {
    if front + a <= front + r {
      assert a == (front + a)[|front|..] && r[..|a|] == (front + r)[..|front + a|][|front|..];
    }
  }

  // Seen from deep enough, among names neither path uses, nothing else does.
  lemma ReachesOnly(cwd: seq<Component>, name: string, r: Move, a: Move)
    requires Directory(cwd) && |cwd| > a.ups + r.ups + 1 && forall k :: 1 <= k < |cwd| ==> cwd[k] == Normal(name)
    requires Normal(name) !in a.downs && Normal(name) !in r.downs && !Reaches(r, a)
    ensures !MovesBelow(cwd, r, a)
  {
    ClimbTakes(cwd, a.ups);
    ClimbTakes(cwd, r.ups);
    var left, right := cwd[..|cwd| - a.ups] + a.downs, cwd[..|cwd| - r.ups] + r.downs;
    if a.ups == r.ups {
      PrefixUnder(cwd[..|cwd| - a.ups], a.downs, r.downs);
    } else if a.ups < r.ups {
      var k := |cwd| - r.ups;
      assert left[k] == Normal(name) && (k < |right| ==> right[k] == r.downs[0]);
    } else {
      var k := |cwd| - a.ups;
      assert left[k] == a.downs[0] && right[k] == Normal(name);
    }
  }

  // A relative path is below a relative rule from everywhere exactly when its move is.
  lemma RelativeLiesBelow(requested: seq<Component>, allowed: seq<Component>)
    requires Relative(requested) && Relative(allowed)
    ensures LiesBelow(requested, allowed) <==> Reaches(Net(requested), Net(allowed))
  {
    hide NormalizeFrom, Net, Reaches, MovesBelow, Directory;
    var r, a := Net(requested), Net(allowed);
    forall cwd
      ensures NormalizeFrom(cwd, allowed) <= NormalizeFrom(cwd, requested) <==> MovesBelow(cwd, r, a)
    {
      FollowsMoves(cwd, requested, allowed);
    }
    if Reaches(r, a) {
      forall cwd | Directory(cwd) ensures MovesBelow(cwd, r, a) { ReachesEverywhere(cwd, r, a); }
    } else {
      var name := FreshName(a.downs + r.downs);
      var cwd := Deep(name, a.ups + r.ups + 1);
      NotUsed(name, a.downs, r.downs);
      ReachesOnly(cwd, name, r, a);
    }
  }

  lemma NotUsed(name: string, a: seq<Component>, r: seq<Component>)
    requires forall c :: c in a + r && c.Normal? ==> |c.name| < |name|
    ensures Normal(name) !in a && Normal(name) !in r
  {
    assert Normal(name).name == name;
    assert forall c :: c in a || c in r ==> c in a + r;
  }

  lemma FollowsMoves(cwd: seq<Component>, requested: seq<Component>, allowed: seq<Component>)
    requires Relative(requested) && Relative(allowed)
    ensures NormalizeFrom(cwd, allowed) <= NormalizeFrom(cwd, requested)
       <==> MovesBelow(cwd, Net(requested), Net(allowed))
  {
    NormalizeIsNetMove(cwd, requested);
    NormalizeIsNetMove(cwd, allowed);
  }

  // Whether coverage is lying below, for the four ways two paths can be anchored: always
  // for two absolute paths; for two relative ones if both climb as far or the rule only
  // climbs, and further; otherwise only where both say no.
  predicate Agrees(requested: seq<Component>, allowed: seq<Component>)
    requires Absolute(requested) || Relative(requested)
    requires Absolute(allowed) || Relative(allowed)
  {
    if Absolute(requested) then Absolute(allowed) || Normalize(allowed) != []
    else if Absolute(allowed) then Normalize(allowed) != [RootDir]
    else
      var r, a := Net(requested), Net(allowed);
      a.ups == r.ups || (a.ups > r.ups && a.downs == []) || !(a.downs <= r.downs)
  }

  lemma CoverageIsLyingBelow(requested: seq<Component>, allowed: seq<Component>)
    requires Absolute(requested) || Relative(requested)
    requires Absolute(allowed) || Relative(allowed)
    ensures (Covers(requested, allowed) <==> LiesBelow(requested, allowed)) <==> Agrees(requested, allowed)
  {
    hide LiesBelow, NormalizeFrom, Net, Reaches;
    if Relative(requested) && Relative(allowed) {
      RelativeLiesBelow(requested, allowed);
      NormalizeRelative(requested);
      NormalizeRelative(allowed);
      ReachesCovers(Net(requested), Net(allowed));
    } else if Absolute(requested) && Absolute(allowed) {
      AbsoluteLiesBelow(requested, allowed);
    } else if Absolute(requested) {
      RelativeGrants(requested, allowed);
      NothingAbsoluteBelow(requested, allowed);
    } else {
      NormalizeAbsolute([], allowed);
      NormalizeRelative(requested);
      BelowAbsolute(requested, allowed);
    }
  }

  lemma ReachesCovers(r: Move, a: Move)
    ensures (a.downs <= r.downs <==> Reaches(r, a))
       <==> a.ups == r.ups || (a.ups > r.ups && a.downs == []) || !(a.downs <= r.downs)
  {}

  lemma AbsoluteLiesBelow(requested: seq<Component>, allowed: seq<Component>)
    requires Absolute(requested) && Absolute(allowed)
    ensures LiesBelow(requested, allowed) <==> Covers(requested, allowed)
  {
    hide NormalizeFrom;
    forall cwd
      ensures NormalizeFrom(cwd, requested) == Normalize(requested)
      ensures NormalizeFrom(cwd, allowed) == Normalize(allowed)
    {
      NormalizeAbsolute(cwd, requested);
      NormalizeAbsolute(cwd, allowed);
    }
    assert Directory([RootDir]);
  }

  // Seen from deep enough no relative rule reaches an absolute path.
  lemma NothingAbsoluteBelow(requested: seq<Component>, allowed: seq<Component>)
    requires Absolute(requested) && Relative(allowed)
    ensures !LiesBelow(requested, allowed)
  {
    hide NormalizeFrom, Net;
    var cwd := Deep("x", Net(allowed).ups + |Normalize(requested)|);
    NormalizeAbsolute(cwd, requested);
    NormalizeIsNetMove(cwd, allowed);
    ClimbTakes(cwd, Net(allowed).ups);
  }

  // A relative path is below "/" and below no other absolute rule.
  lemma BelowAbsolute(requested: seq<Component>, allowed: seq<Component>)
    requires Relative(requested) && Absolute(allowed)
    ensures LiesBelow(requested, allowed) <==> Normalize(allowed) == [RootDir]
  {
    hide NormalizeFrom, Net, Resolved;
    var a, r := Normalize(allowed), Net(requested);
    forall cwd | Directory(cwd)
      ensures NormalizeFrom(cwd, allowed) == a && [RootDir] <= a
      ensures NormalizeFrom(cwd, requested) == Climb(cwd, r.ups) + r.downs
      ensures [RootDir] <= Climb(cwd, r.ups)
    {
      NormalizeAbsolute(cwd, allowed);
      NormalizeIsNetMove(cwd, requested);
      RootStays(cwd, r.ups);
    }
    if a != [RootDir] {
      var name := FreshName(a);
      var cwd := Deep(name, r.ups + 1);
      ClimbTakes(cwd, r.ups);
      assert (Climb(cwd, r.ups) + r.downs)[1] == Normal(name);
      assert |a| > 1 ==> a[1] in a;
      assert Normal(name).name == name;
      NormalizeAbsolute(cwd, allowed);
    }
  }

  // Every path is anchored in one of the two ways.
  lemma ComponentsAnchored(path: string)
    ensures Absolute(Components(path)) || Relative(Components(path))
    ensures Absolute(Components(path)) <==> path != "" && path[0] == '/'
  {
    RelativeSegments(Segments(path), path == "" || path[0] != '/');
    var behind := ComponentsOf(Segments(path), false);
    assert ([RootDir] + behind)[1..] == behind;
  }

  // A relative rule covers an absolute path exactly when nothing of the rule is left
  // after normalising, and then it covers every one: "." and ".." grant everything.
  lemma RelativeRuleGrants(requested: string, allowed: string)
    requires requested != "" && requested[0] == '/' && (allowed == "" || allowed[0] != '/')
    ensures PathCovers(requested, allowed) <==> Normalize(Components(allowed)) == []
  {
    ComponentsAnchored(requested);
    ComponentsAnchored(allowed);
    RelativeGrants(Components(requested), Components(allowed));
  }

  // The rule "." grants every path, though no absolute one lies below it from everywhere.
  lemma DotGrantsEverything(requested: string)
    ensures PathCovers(requested, ".")
    ensures requested != "" && requested[0] == '/' ==> !LiesBelow(Components(requested), Components("."))
  {
    hide LiesBelow;
    SingleSegment(".");
    assert ["."][1..] == [];
    assert Components(".") == [CurDir];
    assert NormalizeFrom([], [CurDir]) == [];
    ComponentsAnchored(requested);
    if Absolute(Components(requested)) { NothingAbsoluteBelow(Components(requested), [CurDir]); }
  }

  // ---------------------------------------------------------------- strings

  lemma {:induction false} SegmentsAppend(a: string, b: string)
    ensures Segments(a + "/" + b) == Segments(a) + Segments(b)
  {
    if a == "" {
      assert a + "/" + b == "/" + b;
      assert ("/" + b)[1..] == b;
    } else {
      assert (a + "/" + b)[1..] == a[1..] + "/" + b;
      SegmentsAppend(a[1..], b);
    }
  }

  lemma {:induction false} ComponentsAppend(s: seq<string>, t: seq<string>, first: bool)
    requires s != []
    ensures ComponentsOf(s + t, first) == ComponentsOf(s, first) + ComponentsOf(t, false)
  {
    assert (s + t)[1..] == s[1..] + t;
    if |s| == 1 {
      assert s[1..] + t == t;
      assert ComponentsOf(s[1..], false) == [];
    } else {
      ComponentsAppend(s[1..], t, false);
    }
  }

  // Joining a path below a non-empty base appends its components.
  lemma JoinedComponents(base: string, suffix: string)
    requires base != ""
    ensures Components(base + "/" + suffix) == Components(base) + ComponentsOf(Segments(suffix), false)
    ensures Relative(ComponentsOf(Segments(suffix), false))
  {
    SegmentsAppend(base, suffix);
    ComponentsAppend(Segments(base), Segments(suffix), base[0] != '/');
    RelativeSegments(Segments(suffix), false);
  }

  lemma {:induction false} RelativeSegments(segs: seq<string>, first: bool)
    ensures Relative(ComponentsOf(segs, first))
  {
    if segs != [] { RelativeSegments(segs[1..], false); }
  }

  // base/suffix is covered by base whenever no part of the suffix climbs above base.
  lemma JoinedIsCovered(base: string, suffix: string)
    requires base != ""
    requires RelativeSuffix(suffix).ups == 0
    ensures PathCovers(base + "/" + suffix, base)
  {
    JoinedComponents(base, suffix);
    CoveredBelow(Components(base), ComponentsOf(Segments(suffix), false));
  }

  function RelativeSuffix(suffix: string): Move {
    RelativeSegments(Segments(suffix), false);
    Net(ComponentsOf(Segments(suffix), false))
  }

  // ---------------------------------------------------------------- trailing text

  function LastSegment(path: string): string {
    var segs := Segments(path);
    segs[|segs| - 1]
  }

  // What one more leading character does to the segments of a path, and to the segments
  // of the path with more text at its end.
  lemma ConsSegments(c: char, rest: seq<string>, glued: seq<string>, b: string)
    requires rest != [] && glued == rest[..|rest| - 1] + [rest[|rest| - 1] + b]
    ensures var segs := Cons(c, rest);
      segs != [] && Cons(c, glued) == segs[..|segs| - 1] + [segs[|segs| - 1] + b]
  {
    if c == '/' {
      assert ([""] + rest)[..|rest|] == [""] + rest[..|rest| - 1];
    } else if |rest| == 1 {
      assert glued == [rest[0] + b];
      assert [c] + (rest[0] + b) == [c] + rest[0] + b;
    } else {
      assert glued[0] == rest[0] && glued[1..] == rest[1..|rest| - 1] + [rest[|rest| - 1] + b];
      var segs := [[c] + rest[0]] + rest[1..];
      assert segs[..|segs| - 1] == [[c] + rest[0]] + rest[1..|rest| - 1];
    }
  }

  function Cons(c: char, rest: seq<string>): seq<string>
    requires rest != []
  {
    if c == '/' then [""] + rest else [[c] + rest[0]] + rest[1..]
  }

  lemma SegmentsCons(s: string)
    requires s != ""
    ensures Segments(s) == Cons(s[0], Segments(s[1..]))
  {}

  lemma {:induction false} SegmentsGlue(a: string, b: string)
    requires '/' !in b
    ensures var segs := Segments(a);
            Segments(a + b) == segs[..|segs| - 1] + [segs[|segs| - 1] + b]
  {
    if a == "" {
      assert a + b == b;
      SingleSegment(b);
      assert "" + b == b;
    } else {
      hide Segments, Cons;
      assert (a + b)[1..] == a[1..] + b && (a + b)[0] == a[0];
      SegmentsGlue(a[1..], b);
      SegmentsCons(a);
      SegmentsCons(a + b);
      ConsSegments(a[0], Segments(a[1..]), Segments(a[1..] + b), b);
    }
  }

  lemma {:induction false} SingleSegment(b: string)
    requires '/' !in b
    ensures Segments(b) == [b]
  {
    if b != "" {
      SingleSegment(b[1..]);
      assert [b[0]] + b[1..] == b;
    }
  }

  function SegmentComponent(seg: string): Component {
    if seg == "" || seg == "." then CurDir else if seg == ".." then ParentDir else Normal(seg)
  }

  // One more segment is one more step of the normaliser.
  lemma PushSegment(stack: seq<Component>, front: seq<string>, last: string, first: bool)
    ensures NormalizeFrom(stack, ComponentsOf(front + [last], first))
         == Push(NormalizeFrom(stack, ComponentsOf(front, first)), SegmentComponent(last))
  {
    if front == [] {
      assert front + [last] == [last];
      OneComponent(stack, last, first);
    } else {
      ComponentsAppend(front, [last], first);
      NormalizeAppend(stack, ComponentsOf(front, first), ComponentsOf([last], false));
      OneComponent(NormalizeFrom(stack, ComponentsOf(front, first)), last, false);
    }
  }

  lemma OneComponent(stack: seq<Component>, seg: string, first: bool)
    ensures NormalizeFrom(stack, ComponentsOf([seg], first)) == Push(stack, SegmentComponent(seg))
  {
    var cs := ComponentsOf([seg], first);
    if cs != [] {
      assert cs == [SegmentComponent(seg)];
      assert NormalizeFrom(stack, cs) == Push(stack, cs[0]);
    }
  }

  // What a path normalises to, by its last segment.
  lemma NormalizeByLastSegment(path: string, tail: string) returns (stack: seq<Component>)
    requires path != "" && '/' !in tail
    ensures
      && Normalize(Components(path)) == Push(stack, SegmentComponent(LastSegment(path)))
      && Normalize(Components(path + tail)) == Push(stack, SegmentComponent(LastSegment(path) + tail))
  {
    var segs := Segments(path);
    var front, last := segs[..|segs| - 1], segs[|segs| - 1];
    assert segs == front + [last];
    SegmentsGlue(path, tail);
    assert (path + tail)[0] == path[0];
    var base: seq<Component> := if path[0] == '/' then [RootDir] else [];
    var first := path[0] != '/';
    NormalizeBase(base, segs, first);
    NormalizeBase(base, front + [last + tail], first);
    assert Components(path) == base + ComponentsOf(segs, first);
    assert Components(path + tail) == base + ComponentsOf(front + [last + tail], first);
    PushSegment(base, front, last, first);
    PushSegment(base, front, last + tail, first);
    stack := NormalizeFrom(base, ComponentsOf(front, first));
  }

  lemma NormalizeBase(base: seq<Component>, segs: seq<string>, first: bool)
    requires base == [] || base == [RootDir]
    ensures Normalize(base + ComponentsOf(segs, first)) == NormalizeFrom(base, ComponentsOf(segs, first))
  {
    NormalizeAppend([], base, ComponentsOf(segs, first));
    if base != [] {
      assert base[1..] == [];
      assert NormalizeFrom([], base) == NormalizeFrom([RootDir], []);
    } else {
      assert NormalizeFrom([], base) == [];
    }
  }

  // A path with more text glued to its end is below the path itself exactly when the last
  // segment named no directory of its own, unless the two make a ".." out of one that
  // has somewhere to climb to.
  lemma GluedIsCovered(path: string, tail: string)
    requires path != "" && tail != "" && '/' !in tail
    ensures PathCovers(path + tail, path) <==>
      && LastSegment(path) in ["", ".", ".."]
      && (LastSegment(path) + tail == ".." ==> Normalize(Components(path)) in [[], [RootDir]])
  {
    hide Components, NormalizeFrom, Segments, SegmentComponent, Push;
    var stack := NormalizeByLastSegment(path, tail);
    var last := LastSegment(path);
    NormalizeIdempotent(Components(path));
    LongerSegment(last, tail);
    GluedStacks(stack, last, tail);
  }

  lemma LongerSegment(last: string, tail: string)
    requires tail != ""
    ensures last + tail != last && last + tail != ""
    ensures last + tail == "." ==> last == ""
    ensures last + tail == ".." ==> last in ["", "."]
  {
    assert |last + tail| == |last| + |tail|;
    assert |last| > 0 ==> (last + tail)[0] == last[0];
    assert |last| == 1 ==> last == [last[0]];
  }

  lemma GluedStacks(stack: seq<Component>, last: string, tail: string)
    requires last + tail != last && last + tail != ""
    requires last + tail == "." ==> last == ""
    requires last + tail == ".." ==> last in ["", "."]
    requires Resolved(Push(stack, SegmentComponent(last)))
    ensures Push(stack, SegmentComponent(last)) <= Push(stack, SegmentComponent(last + tail))
       <==> && last in ["", ".", ".."]
            && (last + tail == ".." ==> Push(stack, SegmentComponent(last)) in [[], [RootDir]])
  {
    if last + tail == ".." {
      PopIsShorter(stack);
    } else if last + tail == "." {
    } else {
      var longer := stack + [Normal(last + tail)];
      assert longer[|stack|] == Normal(last + tail);
      assert Pop(stack) <= stack <= longer;
      if last !in ["", ".", ".."] { assert (stack + [Normal(last)])[|stack|] == Normal(last); }
    }
  }

  lemma PopIsShorter(stack: seq<Component>)
    requires Resolved(stack)
    ensures stack <= Pop(stack) <==> stack in [[], [RootDir]]
  {
    if stack != [] && stack[|stack| - 1] == RootDir { assert stack == [RootDir]; }
  }
}
