// Names of MCP tools (clareon-core/src/mcp/names.rs) and their registration
// (register_tools in clareon-core/src/mcp/manager.rs).

module Names {
  import opened Types
  import T = Text

  // ---------------------------------------------------------------- segments

  predicate IsNameChar(c: char) { 'a' <= c <= 'z' || 'A' <= c <= 'Z' || '0' <= c <= '9' || c == '_' }

  function Masked(raw: string): (s: string)
    ensures |s| == |raw|
    ensures forall k :: 0 <= k < |raw| ==> s[k] == if IsNameChar(raw[k]) then raw[k] else '_'
  {
    seq(|raw|, k requires 0 <= k < |raw| => if IsNameChar(raw[k]) then raw[k] else '_')
  }

  // str::split('_').
  function SplitUnderscores(s: string): (parts: seq<string>)
    ensures parts != [] && forall p :: p in parts ==> '_' !in p
    ensures forall p, c :: p in parts && c in p ==> c in s
    decreases |s|
  {
    match T.Find(s, "_")
    case None =>
      assert '_' !in s by { NoUnderscore(s); }
      [s]
    case Some(k) =>
      UnderscoreAt(s, k);
      [s[..k]] + SplitUnderscores(s[k + 1..])
  }

  lemma NoUnderscore(s: string)
    requires T.Find(s, "_").None?
    ensures '_' !in s
  {
    forall k: nat | k < |s| ensures s[k] != '_' {
      assert !T.OccursAt(s, "_", k);
      assert s[k..k + 1] == [s[k]];
    }
  }

  lemma UnderscoreAt(s: string, k: nat)
    requires T.Find(s, "_") == Some(k)
    ensures k < |s| && s[k] == '_' && '_' !in s[..k]
  {
    assert s[k..k + 1] == "_";
    forall j: nat | j < k ensures s[j] != '_' {
      assert !T.OccursAt(s, "_", j);
      assert s[j..j + 1] == [s[j]];
    }
  }

  function Sanitized(raw: string): string {
    var collapsed := T.Join(T.NonEmpty(SplitUnderscores(Masked(raw))), "_");
    if collapsed == "" then "x" else collapsed
  }

  method SanitizeSegment(raw: string) returns (r: string)
    ensures r == Sanitized(raw)
  {
    hide T.Join, T.NonEmpty, SplitUnderscores;
    var out := "";
    for i := 0 to |raw|
      invariant out == Masked(raw)[..i]
    {
      if IsNameChar(raw[i]) {
        out := out + [raw[i]];
      } else {
        out := out + ['_'];
      }
    }
    assert out == Masked(raw);
    var collapsed := T.Join(T.NonEmpty(SplitUnderscores(out)), "_");
    return if collapsed == "" then "x" else collapsed;
  }

  // Letters, digits and single inner underscores.
  predicate Clean(s: string) {
    && s != "" && s[0] != '_' && s[|s| - 1] != '_'
    && (forall k :: 0 <= k < |s| ==> IsNameChar(s[k]))
    && (forall k :: 0 < k < |s| ==> !(s[k - 1] == '_' && s[k] == '_'))
  }

  predicate Solid(p: string) {
    p != "" && '_' !in p && forall k :: 0 <= k < |p| ==> IsNameChar(p[k])
  }

  lemma {:induction false} JoinIsClean(parts: seq<string>)
    requires parts != [] && forall p :: p in parts ==> Solid(p)
    ensures Clean(T.Join(parts, "_"))
  {
    assert parts[0] in parts;
    if |parts| > 1 {
      JoinIsClean(parts[1..]);
      CleanAppend(parts[0], T.Join(parts[1..], "_"));
    }
  }

  lemma CleanAppend(p: string, s: string)
    requires Solid(p) && Clean(s)
    ensures Clean(p + "_" + s)
  {
    var r := p + "_" + s;
    forall k | 0 <= k < |r| ensures IsNameChar(r[k]) {
      if k > |p| { assert r[k] == s[k - |p| - 1]; }
    }
    forall k | 0 < k < |r| ensures !(r[k - 1] == '_' && r[k] == '_') {
      if k < |p| {
        assert r[k] == p[k];
      } else if k == |p| {
        assert r[k - 1] == p[k - 1];
      } else if k == |p| + 1 {
        assert r[k] == s[0];
      } else {
        assert r[k - 1] == s[k - |p| - 2] && r[k] == s[k - |p| - 1];
      }
    }
  }

  lemma {:induction false} NonEmptyParts(parts: seq<string>)
    ensures forall p :: p in T.NonEmpty(parts) <==> p in parts && p != ""
  {
    if parts != [] { NonEmptyParts(parts[1..]); }
  }

  lemma {:induction false} JoinNothing(parts: seq<string>)
    requires forall p :: p in parts ==> p != ""
    ensures T.Join(parts, "_") == "" <==> parts == []
  {
    if parts != [] { assert parts[0] in parts; }
  }

  // Joining what was split is the string itself.
  lemma {:induction false} JoinOfSplit(s: string)
    ensures T.Join(SplitUnderscores(s), "_") == s
    decreases |s|
  {
    hide T.Find;
    match T.Find(s, "_") {
      case None =>
      case Some(k) =>
        UnderscoreAt(s, k);
        var rest := s[k + 1..];
        JoinOfSplit(rest);
        assert SplitUnderscores(s)[1..] == SplitUnderscores(rest);
        assert s == s[..k] + "_" + rest;
    }
  }

  lemma {:induction false} CleanSplits(s: string)
    requires Clean(s) || s == ""
    ensures s != "" ==> forall p :: p in SplitUnderscores(s) ==> p != ""
    decreases |s|
  {
    hide T.Find;
    match T.Find(s, "_") {
      case None =>
      case Some(k) =>
        UnderscoreAt(s, k);
        var rest := s[k + 1..];
        if s != "" {
          assert k > 0 && k + 1 < |s|;
          assert s[k + 1] != '_' by { assert !(s[k + 1 - 1] == '_' && s[k + 1] == '_'); }
          RestIsClean(s, k);
          CleanSplits(rest);
        }
    }
  }

  lemma RestIsClean(s: string, k: nat)
    requires Clean(s) && 0 < k && k + 1 < |s| && s[k + 1] != '_'
    ensures Clean(s[k + 1..])
  {
    var rest := s[k + 1..];
    forall j | 0 < j < |rest| ensures !(rest[j - 1] == '_' && rest[j] == '_') {
      assert rest[j - 1] == s[k + 1 + j - 1] && rest[j] == s[k + 1 + j];
      assert !(s[k + 1 + j - 1] == '_' && s[k + 1 + j] == '_');
    }
  }

  lemma {:induction false} NonEmptyIsAll(parts: seq<string>)
    requires forall p :: p in parts ==> p != ""
    ensures T.NonEmpty(parts) == parts
  {
    if parts != [] {
      assert parts[0] in parts;
      assert forall p :: p in parts[1..] ==> p in parts;
      NonEmptyIsAll(parts[1..]);
    }
  }

  // Sanitizing yields a clean segment and leaves exactly the clean ones alone.
  lemma SanitizedIsClean(raw: string)
    ensures Clean(Sanitized(raw))
    ensures Sanitized(raw) == raw <==> Clean(raw)
  {
    hide T.Join, T.NonEmpty, SplitUnderscores;
    var masked := Masked(raw);
    var parts := SplitUnderscores(masked);
    var solid := T.NonEmpty(parts);
    NonEmptyParts(parts);
    forall p | p in solid ensures Solid(p) {
      forall k | 0 <= k < |p| ensures IsNameChar(p[k]) {
        assert p[k] in p && p[k] in masked;
      }
    }
    JoinNothing(solid);
    if solid != [] { JoinIsClean(solid); }
    if Clean(raw) {
      assert masked == raw;
      CleanSplits(raw);
      NonEmptyIsAll(parts);
      JoinOfSplit(raw);
    }
  }

  // ---------------------------------------------------------------- in one pass

  predicate IsLetterOrDigit(c: char) { 'a' <= c <= 'z' || 'A' <= c <= 'Z' || '0' <= c <= '9' }

  // What one pass over the characters builds: letters and digits are kept, and whatever
  // lies between two of them is one underscore.
  datatype Pass = Pass(out: string, gap: bool)

  function OnePass(raw: string): Pass {
    if raw == "" then Pass("", true)
    else
      var p, c := OnePass(raw[..|raw| - 1]), raw[|raw| - 1];
      if !IsLetterOrDigit(c) then Pass(p.out, true)
      else Pass(p.out + (if p.gap && p.out != "" then "_" else "") + [c], false)
  }

  lemma FirstSegment(s: string, k: nat)
    requires T.Find(s, "_") == Some(k)
    ensures k < |s| && s[k] == '_' && '_' !in s[..k]
    ensures SplitUnderscores(s) == [s[..k]] + SplitUnderscores(s[k + 1..])
  {
    hide T.Find;
    UnderscoreAt(s, k);
  }

  // One more character: an underscore opens a segment, anything else extends the last.
  predicate Pushed(parts: seq<string>, c: char, after: seq<string>) {
    && parts != []
    && after == if c == '_' then parts + [""] else parts[..|parts| - 1] + [parts[|parts| - 1] + [c]]
  }

  lemma PushedBehind(first: string, parts: seq<string>, c: char, after: seq<string>)
    requires Pushed(parts, c, after)
    ensures Pushed([first] + parts, c, [first] + after)
  {
    var all := [first] + parts;
    assert all[|all| - 1] == parts[|parts| - 1] && all[..|all| - 1] == [first] + parts[..|parts| - 1];
    assert [first] + (parts + [""]) == all + [""];
  }

  lemma {:induction false} SplitPush(s: string, c: char)
    ensures Pushed(SplitUnderscores(s), c, SplitUnderscores(s + [c]))
    decreases |s|
  {
    hide T.Find, SplitUnderscores, Pushed;
    match T.Find(s, "_") {
      case None => SplitLast(s, c);
      case Some(k) =>
        FirstSegment(s, k);
        FoundBefore(s, c, k);
        FirstSegment(s + [c], k);
        assert (s + [c])[..k] == s[..k] && (s + [c])[k + 1..] == s[k + 1..] + [c];
        SplitPush(s[k + 1..], c);
        PushedBehind(s[..k], SplitUnderscores(s[k + 1..]), c, SplitUnderscores(s[k + 1..] + [c]));
    }
  }

  lemma FoundBefore(s: string, c: char, k: nat)
    requires k < |s| && s[k] == '_' && '_' !in s[..k]
    ensures T.Find(s + [c], "_") == Some(k)
  {
    var more := s + [c];
    assert more[k..k + 1] == "_";
    forall j: nat | j < k ensures !T.OccursAt(more, "_", j) {
      assert more[j..j + 1] == [s[..k][j]];
    }
    T.FindIs(more, "_", k);
  }

  lemma SplitLast(s: string, c: char)
    requires T.Find(s, "_").None?
    ensures Pushed(SplitUnderscores(s), c, SplitUnderscores(s + [c]))
  {
    NoUnderscore(s);
    var more := s + [c];
    if c == '_' {
      assert more[..|s|] == s && more[|s| + 1..] == "";
      assert more[|s|..|s| + 1] == "_";
      forall j: nat | j < |s| ensures !T.OccursAt(more, "_", j) { assert more[j..j + 1] == [s[j]]; }
      T.FindIs(more, "_", |s|);
      NoneInEmpty();
    } else {
      forall j: nat ensures !T.OccursAt(more, "_", j) {
        if j < |more| { assert more[j..j + 1] == [more[j]]; }
      }
    }
  }

  lemma NoneInEmpty()
    ensures SplitUnderscores("") == [""]
  {
    assert !T.OccursAt("", "_", 0);
  }

  lemma {:induction false} NonEmptyPush(parts: seq<string>, p: string)
    ensures T.NonEmpty(parts + [p]) == T.NonEmpty(parts) + (if p == "" then [] else [p])
  {
    if parts == [] {
      assert [p][1..] == [] && [] + [p] == [p];
    } else {
      assert (parts + [p])[1..] == parts[1..] + [p];
      NonEmptyPush(parts[1..], p);
    }
  }

  lemma {:induction false} JoinPush(parts: seq<string>, p: string)
    ensures T.Join(parts + [p], "_") == T.Join(parts, "_") + (if parts == [] then "" else "_") + p
  {
    if parts == [] {
      assert [] + [p] == [p] && "" + p == p;
    } else {
      assert (parts + [p])[1..] == parts[1..] + [p];
      JoinPush(parts[1..], p);
      if |parts| == 1 {
        assert parts[1..] == [] && "" + p == p;
      }
    }
  }

  // The words split off so far, joined, are what the pass has built, and the last word is
  // empty exactly in a gap.
  predicate Agrees(parts: seq<string>, p: Pass) {
    && parts != []
    && T.Join(T.NonEmpty(parts), "_") == p.out
    && (p.gap <==> parts[|parts| - 1] == "")
    && (p.out == "" <==> T.NonEmpty(parts) == [])
  }

  lemma LetterAgrees(front: seq<string>, w: string, p: Pass, c: char)
    requires Agrees(front + [w], p)
    ensures Agrees(front + [w + [c]], Pass(p.out + (if p.gap && p.out != "" then "_" else "") + [c], false))
  {
    NonEmptyPush(front, w);
    NonEmptyPush(front, w + [c]);
    JoinPush(T.NonEmpty(front), w);
    JoinPush(T.NonEmpty(front), w + [c]);
    hide T.Join, T.NonEmpty;
    var words := T.NonEmpty(front);
    var sep := if words == [] then "" else "_";
    assert words + [] == words;
    assert T.Join(words, "_") + sep + (w + [c]) == (T.Join(words, "_") + sep + w) + [c];
    if w == "" {
      assert w + [c] == [c];
      assert (T.Join(words, "_") + sep) + [c] == T.Join(words, "_") + sep + [c];
    } else {
      assert p.out + "" == p.out;
    }
  }

  lemma GapAgrees(parts: seq<string>, p: Pass)
    requires Agrees(parts, p)
    ensures Agrees(parts + [""], Pass(p.out, true))
  {
    NonEmptyPush(parts, "");
    assert T.NonEmpty(parts) + [] == T.NonEmpty(parts);
  }

  lemma {:induction false} PassAgrees(raw: string)
    ensures Agrees(SplitUnderscores(Masked(raw)), OnePass(raw))
  {
    hide T.Join, T.NonEmpty, SplitUnderscores, Agrees, T.Find;
    if raw == "" {
      NothingPassed();
    } else {
      var front, c := raw[..|raw| - 1], raw[|raw| - 1];
      var m := if IsNameChar(c) then c else '_';
      PassAgrees(front);
      var parts := SplitUnderscores(Masked(front));
      assert Masked(raw) == Masked(front) + [m];
      SplitPush(Masked(front), m);
      if IsLetterOrDigit(c) {
        assert parts == parts[..|parts| - 1] + [parts[|parts| - 1]];
        LetterAgrees(parts[..|parts| - 1], parts[|parts| - 1], OnePass(front), c);
      } else {
        GapAgrees(parts, OnePass(front));
      }
    }
  }

  lemma NothingPassed()
    ensures Agrees(SplitUnderscores(Masked("")), OnePass(""))
  {
    assert Masked("") == "";
    NoneInEmpty();
    assert [""][1..] == [];
  }

  // Masking, splitting, filtering and joining come to that one pass.
  lemma SanitizedInOnePass(raw: string)
    ensures Sanitized(raw) == if OnePass(raw).out == "" then "x" else OnePass(raw).out
  {
    PassAgrees(raw);
  }

  function PrefixedToolName(serverId: string, toolName: string): (name: string)
    ensures "mcp_" <= name
  {
    var name := "mcp_" + (Sanitized(serverId) + "_" + Sanitized(toolName));
    assert name[..4] == "mcp_";
    name
  }

  // ---------------------------------------------------------------- unique names

  function Suffixed(base: string, n: nat): (s: string)
    ensures s != base && |s| > |base| && base <= s
  {
    base + ("_" + T.Decimal(n))
  }

  lemma SuffixedInjective(base: string, m: nat, n: nat)
    requires Suffixed(base, m) == Suffixed(base, n)
    ensures m == n
  {
    assert T.Decimal(m) == Suffixed(base, m)[|base| + 1..];
    assert T.Decimal(n) == Suffixed(base, n)[|base| + 1..];
    T.DecimalInjective(m, n);
  }

  // The names tried before n.
  function Tried(base: string, n: nat): set<string>
    requires n >= 2
  {
    if n == 2 then {base} else Tried(base, n - 1) + {Suffixed(base, n - 1)}
  }

  lemma {:induction false} NotTried(base: string, n: nat, m: nat)
    requires 2 <= n <= m
    ensures Suffixed(base, m) !in Tried(base, n)
  {
    hide Suffixed;
    if n > 2 {
      NotTried(base, n - 1, m);
      if Suffixed(base, n - 1) == Suffixed(base, m) { SuffixedInjective(base, n - 1, m); }
    }
  }

  lemma {:induction false} TriedCount(base: string, n: nat)
    requires n >= 2
    ensures |Tried(base, n)| == n - 1
  {
    hide Suffixed;
    if n > 2 {
      TriedCount(base, n - 1);
      NotTried(base, n - 1, n - 1);
    }
  }

  // Pigeonhole: taken names run out before |used| + 2.
  lemma TriedFits(base: string, used: set<string>, n: nat)
    requires n >= 2 && Tried(base, n) <= used
    ensures n <= |used| + 1
  {
    TriedCount(base, n);
    SubsetSize(Tried(base, n), used);
  }

  lemma SubsetSize<A>(a: set<A>, b: set<A>)
    requires a <= b
    ensures |a| <= |b|
  {
    assert b == a + (b - a);
  }

  // The least free suffix from n on.
  function FirstFree(base: string, used: set<string>, n: nat): (r: nat)
    requires n >= 2 && Tried(base, n) <= used
    ensures n <= r <= |used| + 1
    ensures Suffixed(base, r) !in used
    ensures forall k: nat :: n <= k < r ==> Suffixed(base, k) in used
    decreases |used| + 2 - n
  {
    TriedFits(base, used, n);
    if Suffixed(base, n) !in used then n
    else
      FirstFree(base, used, n + 1)
  }

  function Unique(base: string, used: set<string>): (name: string)
    ensures name !in used && base <= name
  {
    if base !in used then base
    else
        Suffixed(base, FirstFree(base, used, 2))
  }

  // The name is the base with the number n, and every smaller number from 2 on is taken.
  predicate LeastFree(base: string, used: set<string>, name: string, n: nat) {
    n >= 2 && name == Suffixed(base, n) && name !in used && forall k: nat :: 2 <= k < n ==> Suffixed(base, k) in used
  }

  // The name is free, is the base or the base with the least free number from 2 on, and
  // the counter never passes |used| + 1: no overflow of its 32 bits for fewer names than
  // that.
  method UniqueName(base: string, used: set<string>) returns (name: string, used': set<string>)
    ensures name == Unique(base, used) && used' == used + {name}
    ensures base !in used ==> name == base
    ensures base in used ==> exists n: nat :: n <= |used| + 1 && LeastFree(base, used, name, n)
  {
    if base !in used { return base, used + {base}; }
    var n := 2;
    while Suffixed(base, n) in used
      invariant n >= 2 && Tried(base, n) <= used
      invariant FirstFree(base, used, 2) == FirstFree(base, used, n)
      invariant forall k: nat :: 2 <= k < n ==> Suffixed(base, k) in used
      decreases |used| + 2 - n
    {
      TriedFits(base, used, n);
      n := n + 1;
    }
    TriedFits(base, used, n);
    name := Suffixed(base, n);
    used' := used + {name};
    assert LeastFree(base, used, name, n);
  }

  // ---------------------------------------------------------------- registration

  datatype Tool = Builtin(name: string) | Remote(server: string, tool: string) | ListResources | ReadResource

  const LIST_RESOURCES := "mcp_list_resources"
  const READ_RESOURCE := "mcp_read_resource"

  // A connected server; `live` is None while it is not.
  datatype Live = Live(tools: seq<string>, resources: seq<string>)
  datatype Server = Server(id: string, live: Option<Live>)

  class ToolRegistry {
    var tools: map<string, Tool>

    constructor (builtins: seq<string>)
      ensures tools == WithBuiltins(builtins)
    {
      tools := WithBuiltins(builtins);
    }

    method Register(name: string, tool: Tool)
      modifies this
      ensures tools == old(tools)[name := tool]
    {
      tools := tools[name := tool];
    }
  }

  function WithBuiltins(names: seq<string>): (m: map<string, Tool>)
    ensures m.Keys == set n | n in names
  {
    map n | n in names :: Builtin(n)
  }

  // The tools of the connected servers, in the order they are visited.
  function RemoteTools(servers: seq<Server>): seq<(string, string)> {
    if servers == [] then []
    else
      RemoteTools(servers[..|servers| - 1])
      + (match servers[|servers| - 1].live
         case None => []
         case Some(live) => OfServer(servers[|servers| - 1].id, live.tools))
  }

  function OfServer(id: string, tools: seq<string>): (r: seq<(string, string)>)
    ensures |r| == |tools| && forall k :: 0 <= k < |tools| ==> r[k] == (id, tools[k])
  {
    seq(|tools|, k requires 0 <= k < |tools| => (id, tools[k]))
  }

  predicate HasResources(servers: seq<Server>) {
    exists k :: 0 <= k < |servers| && servers[k].live.Some? && servers[k].live.value.resources != []
  }

  // Names for a list of tools, each unique among the reserved and the earlier ones.
  function Allocated(tools: seq<(string, string)>, reserved: set<string>): (names: seq<string>)
    ensures |names| == |tools|
  {
    if tools == [] then []
    else
      var front, last := tools[..|tools| - 1], tools[|tools| - 1];
      var names := Allocated(front, reserved);
      names + [Unique(PrefixedToolName(last.0, last.1), reserved + set n | n in names)]
  }

  predicate Distinct(names: seq<string>) { forall i, j :: 0 <= i < j < |names| ==> names[i] != names[j] }

  lemma DistinctPush(names: seq<string>, name: string)
    ensures Distinct(names + [name]) <==> Distinct(names) && name !in names
  {
    var all := names + [name];
    if Distinct(all) {
      forall i, j | 0 <= i < j < |names| ensures names[i] != names[j] { assert all[i] != all[j]; }
      forall i | 0 <= i < |names| ensures names[i] != name { assert all[i] != all[|names|]; }
    }
  }

  lemma {:induction false} AllocatedIsFresh(tools: seq<(string, string)>, reserved: set<string>)
    ensures Distinct(Allocated(tools, reserved))
    ensures forall n :: n in Allocated(tools, reserved) ==> "mcp_" <= n && n !in reserved
  {
    hide Unique, PrefixedToolName, Distinct;
    if tools == [] {
      assert Distinct([]) by { NoneDistinct(); }
    } else {
      var front, last := tools[..|tools| - 1], tools[|tools| - 1];
      AllocatedIsFresh(front, reserved);
      var names := Allocated(front, reserved);
      var base, used := PrefixedToolName(last.0, last.1), reserved + set n | n in names;
      var name := Unique(base, used);
      PrefixOfPrefix("mcp_", base, name);
      DistinctPush(names, name);
      assert Allocated(tools, reserved) == names + [name];
    }
  }

  lemma NoneDistinct()
    ensures Distinct([])
  {}

  lemma PrefixOfPrefix(a: string, b: string, c: string)
    requires a <= b && b <= c
    ensures a <= c
  {}

  const RESERVED := {LIST_RESOURCES, READ_RESOURCE}

  // The registry after the given tools were added under the given names.
  function Added(m: map<string, Tool>, names: seq<string>, tools: seq<(string, string)>): map<string, Tool>
    requires |names| == |tools|
    decreases |names|
  {
    if names == [] then m
    else
      var n := |names| - 1;
      Added(m, names[..n], tools[..n])[names[n] := Remote(tools[n].0, tools[n].1)]
  }

  method RegisterServer(registry: ToolRegistry, id: string, tools: seq<string>, used: set<string>,
                        ghost before: seq<(string, string)>, ghost base: map<string, Tool>)
    returns (used': set<string>)
    requires used == RESERVED + set n | n in Allocated(before, RESERVED)
    requires registry.tools == Added(base, Allocated(before, RESERVED), before)
    modifies registry
    ensures var all := before + OfServer(id, tools);
      && used' == RESERVED + (set n | n in Allocated(all, RESERVED))
      && registry.tools == Added(base, Allocated(all, RESERVED), all)
  {
    hide Unique, PrefixedToolName, Allocated, Added;
    used' := used;
    ghost var all := before;
    for k := 0 to |tools|
      invariant all == before + OfServer(id, tools)[..k]
      invariant used' == RESERVED + set n | n in Allocated(all, RESERVED)
      invariant registry.tools == Added(base, Allocated(all, RESERVED), all)
    {
      var name;
      ghost var tool := (id, tools[k]);
      name, used' := UniqueName(PrefixedToolName(id, tools[k]), used');
      registry.Register(name, Remote(id, tools[k]));
      AllocateOne(all, tool);
      AddOne(base, Allocated(all, RESERVED), all, name, tool);
      assert before + OfServer(id, tools)[..k] + [tool] == before + OfServer(id, tools)[..k + 1];
      all := all + [tool];
    }
    assert OfServer(id, tools)[..|tools|] == OfServer(id, tools);
  }

  lemma AllocateOne(tools: seq<(string, string)>, tool: (string, string))
    ensures var names := Allocated(tools, RESERVED);
      Allocated(tools + [tool], RESERVED)
        == names + [Unique(PrefixedToolName(tool.0, tool.1), RESERVED + set n | n in names)]
  {
    hide Unique, PrefixedToolName;
    assert (tools + [tool])[..|tools|] == tools;
  }

  lemma AddOne(m: map<string, Tool>, names: seq<string>, tools: seq<(string, string)>, name: string,
               tool: (string, string))
    requires |names| == |tools|
    ensures Added(m, names + [name], tools + [tool]) == Added(m, names, tools)[name := Remote(tool.0, tool.1)]
  {
    assert (names + [name])[..|names|] == names && (tools + [tool])[..|tools|] == tools;
  }

  // The registry after register_tools: the tools under their allocated names, and the
  // two resource tools if any connected server has resources.
  function Registered(m: map<string, Tool>, servers: seq<Server>): map<string, Tool> {
    var tools := RemoteTools(servers);
    var all := Added(m, Allocated(tools, RESERVED), tools);
    if HasResources(servers) then all[LIST_RESOURCES := ListResources][READ_RESOURCE := ReadResource] else all
  }

  // The servers are visited in whatever order the map of entries yields.
  method RegisterTools(registry: ToolRegistry, servers: seq<Server>)
    modifies registry
    ensures registry.tools == Registered(old(registry.tools), servers)
  {
    hide Allocated, Added;
    var usedNames := RESERVED;
    var hasResources := false;
    NothingAllocated(registry.tools);
    for i := 0 to |servers|
      invariant usedNames == RESERVED + set n | n in Allocated(RemoteTools(servers[..i]), RESERVED)
      invariant registry.tools
             == Added(old(registry.tools), Allocated(RemoteTools(servers[..i]), RESERVED), RemoteTools(servers[..i]))
      invariant hasResources == HasResources(servers[..i])
    {
      assert servers[..i + 1][..i] == servers[..i];
      assert HasResources(servers[..i + 1])
        <==> HasResources(servers[..i]) || (servers[i].live.Some? && servers[i].live.value.resources != [])
      by { OneMoreServer(servers, i); }
      if servers[i].live.Some? {
        var live := servers[i].live.value;
        if live.resources != [] { hasResources := true; }
        usedNames := RegisterServer(registry, servers[i].id, live.tools, usedNames,
                                    RemoteTools(servers[..i]), old(registry.tools));
      } else {
        assert RemoteTools(servers[..i + 1]) == RemoteTools(servers[..i]);
      }
    }
    assert servers[..|servers|] == servers;
    if hasResources {
      registry.Register(LIST_RESOURCES, ListResources);
      registry.Register(READ_RESOURCE, ReadResource);
    }
  }

  lemma NothingAllocated(m: map<string, Tool>)
    ensures RemoteTools([]) == [] && Allocated([], RESERVED) == [] && Added(m, [], []) == m
  {}

  lemma OneMoreServer(servers: seq<Server>, i: nat)
    requires i < |servers|
    ensures HasResources(servers[..i + 1])
       <==> HasResources(servers[..i]) || (servers[i].live.Some? && servers[i].live.value.resources != [])
  {
    var more := servers[..i + 1];
    if servers[i].live.Some? && servers[i].live.value.resources != [] { assert more[i] == servers[i]; }
    if HasResources(servers[..i]) {
      var k :| 0 <= k < i && servers[k].live.Some? && servers[k].live.value.resources != [];
      assert more[k] == servers[k];
    }
    if HasResources(more) {
      var k :| 0 <= k <= i && more[k].live.Some? && more[k].live.value.resources != [];
      if k < i { assert servers[..i][k] == more[k]; }
    }
  }

  lemma {:induction false} AddedKeys(m: map<string, Tool>, names: seq<string>, tools: seq<(string, string)>)
    requires |names| == |tools|
    ensures Added(m, names, tools).Keys == m.Keys + (set n | n in names)
    decreases |names|
  {
    if names != [] {
      var n := |names| - 1;
      AddedKeys(m, names[..n], tools[..n]);
      assert names == names[..n] + [names[n]];
    }
  }

  predicate FoundAs(r: map<string, Tool>, name: string, tool: (string, string)) {
    name in r && r[name] == Remote(tool.0, tool.1)
  }

  // r is m and the tools under their names, each apart.
  predicate Exact(m: map<string, Tool>, names: seq<string>, tools: seq<(string, string)>, r: map<string, Tool>)
    requires |names| == |tools|
  {
    && |r| == |m| + |names|
    && (forall k :: k in m ==> k in r && r[k] == m[k])
    && (forall i :: 0 <= i < |names| ==> FoundAs(r, names[i], tools[i]))
  }

  lemma ExactPush(m: map<string, Tool>, names: seq<string>, tools: seq<(string, string)>, r: map<string, Tool>,
                  name: string, tool: (string, string))
    requires |names| == |tools| && Exact(m, names, tools, r) && name !in r
    ensures Exact(m, names + [name], tools + [tool], r[name := Remote(tool.0, tool.1)])
  {
    var r' := r[name := Remote(tool.0, tool.1)];
    MapSize(r, name, Remote(tool.0, tool.1));
    forall i | 0 <= i < |names| + 1 ensures FoundAs(r', (names + [name])[i], (tools + [tool])[i]) {
      if i < |names| { assert FoundAs(r, names[i], tools[i]); }
    }
  }

  lemma AddedExactly(m: map<string, Tool>, names: seq<string>, tools: seq<(string, string)>,
                     name: string, tool: (string, string))
    requires |names| == |tools| && Exact(m, names, tools, Added(m, names, tools))
    requires name !in m && name !in names
    ensures Exact(m, names + [name], tools + [tool], Added(m, names + [name], tools + [tool]))
  {
    hide Added, Exact;
    AddedKeys(m, names, tools);
    AddOne(m, names, tools, name, tool);
    ExactPush(m, names, tools, Added(m, names, tools), name, tool);
  }

  lemma {:induction false} AddedIsExact(m: map<string, Tool>, names: seq<string>, tools: seq<(string, string)>)
    requires |names| == |tools| && Distinct(names)
    requires forall n :: n in names ==> n !in m
    ensures Exact(m, names, tools, Added(m, names, tools))
    decreases |names|
  {
    hide Distinct, Exact, Added;
    if names == [] {
      NothingAdded(m);
    } else {
      var n := |names| - 1;
      var front, rest := names[..n], tools[..n];
      assert names == front + [names[n]] && tools == rest + [tools[n]];
      DistinctPush(front, names[n]);
      AddedIsExact(m, front, rest);
      AddedExactly(m, front, rest, names[n], tools[n]);
    }
  }

  lemma NothingAdded(m: map<string, Tool>)
    ensures Exact(m, [], [], Added(m, [], []))
  {}

  lemma MapSize(m: map<string, Tool>, k: string, v: Tool)
    requires k !in m
    ensures |m[k := v]| == |m| + 1
  {
    assert m[k := v].Keys == m.Keys + {k};
    assert |m[k := v]| == |m[k := v].Keys| && |m| == |m.Keys|;
  }

  // The tools that are registered: those of the connected servers and no others.
  lemma {:induction false} RemoteToolsAre(servers: seq<Server>, tool: (string, string))
    ensures tool in RemoteTools(servers) <==> exists k :: 0 <= k < |servers| && Offers(servers[k], tool)
  {
    if servers != [] {
      var front, last := servers[..|servers| - 1], servers[|servers| - 1];
      assert servers == front + [last];
      RemoteToolsAre(front, tool);
      OneServerOffers(last, tool);
      if tool in RemoteTools(front) {
        var k :| 0 <= k < |front| && Offers(front[k], tool);
        assert Offers(servers[k], tool);
      }
    }
  }

  predicate Offers(server: Server, tool: (string, string)) {
    server.live.Some? && server.id == tool.0 && tool.1 in server.live.value.tools
  }

  lemma OneServerOffers(server: Server, tool: (string, string))
    ensures Offers(server, tool) <==> server.live.Some? && tool in OfServer(server.id, server.live.value.tools)
  {
    if Offers(server, tool) {
      var k :| 0 <= k < |server.live.value.tools| && server.live.value.tools[k] == tool.1;
      assert OfServer(server.id, server.live.value.tools)[k] == tool;
    }
  }

  // Named after the server and the tool, with a number behind where that was taken.
  ghost predicate NamedAfter(name: string, tool: (string, string)) {
    var base := "mcp_" + Sanitized(tool.0) + "_" + Sanitized(tool.1);
    name == base || exists n: nat :: n >= 2 && name == base + "_" + T.Decimal(n)
  }

  lemma UniqueIsNamedAfter(tool: (string, string), used: set<string>)
    ensures NamedAfter(Unique(PrefixedToolName(tool.0, tool.1), used), tool)
  {
    var base := "mcp_" + Sanitized(tool.0) + "_" + Sanitized(tool.1);
    assert PrefixedToolName(tool.0, tool.1) == base;
    if base in used {
      var n := FirstFree(base, used, 2);
      assert Suffixed(base, n) == base + "_" + T.Decimal(n);
    }
  }

  lemma {:induction false} AllocatedAreNamedAfter(tools: seq<(string, string)>, reserved: set<string>, k: nat)
    requires k < |tools|
    ensures NamedAfter(Allocated(tools, reserved)[k], tools[k])
  {
    hide Unique, PrefixedToolName, NamedAfter;
    var front, last := tools[..|tools| - 1], tools[|tools| - 1];
    if k < |front| {
      AllocatedAreNamedAfter(front, reserved, k);
    } else {
      UniqueIsNamedAfter(last, reserved + set n | n in Allocated(front, reserved));
    }
  }

  // Nothing is overwritten: every built-in and every remote tool is found under its own
  // name, remote names are distinct, carry the prefix and avoid the reserved ones, and
  // the registry holds exactly the sum of its parts.
  lemma RegistrationLosesNothing(m: map<string, Tool>, servers: seq<Server>)
    requires forall k :: k in m ==> !("mcp_" <= k)
    ensures var tools := RemoteTools(servers);
      var names, r := Allocated(tools, RESERVED), Registered(m, servers);
      && Distinct(names)
      && (forall n :: n in names ==> "mcp_" <= n && n !in RESERVED)
      && (forall i :: 0 <= i < |names| ==> NamedAfter(names[i], tools[i]))
      && (forall k :: k in m ==> k in r && r[k] == m[k])
      && (HasResources(servers) ==>
            && "mcp_list_resources" in r && r["mcp_list_resources"] == ListResources
            && "mcp_read_resource" in r && r["mcp_read_resource"] == ReadResource)
      && (!HasResources(servers) ==> "mcp_list_resources" !in r && "mcp_read_resource" !in r)
      && (forall i :: 0 <= i < |names| ==> FoundAs(r, names[i], tools[i]))
      && |r| == |m| + |tools| + (if HasResources(servers) then 2 else 0)
  {
    hide Allocated, Added, HasResources, RemoteTools, Distinct, FoundAs, NamedAfter;
    var tools := RemoteTools(servers);
    var names := Allocated(tools, RESERVED);
    AllocatedIsFresh(tools, RESERVED);
    forall i | 0 <= i < |names| ensures NamedAfter(names[i], tools[i]) { AllocatedAreNamedAfter(tools, RESERVED, i); }
    AddedIsExact(m, names, tools);
    AddedKeys(m, names, tools);
    ReservedNames();
    ResourcesPush(m, names, tools, Added(m, names, tools));
  }

  lemma ReservedNames()
    ensures "mcp_" <= LIST_RESOURCES && "mcp_" <= READ_RESOURCE && LIST_RESOURCES != READ_RESOURCE
  {
    assert LIST_RESOURCES[4] != READ_RESOURCE[4];
  }

  // The two resource tools push nothing out.
  lemma ResourcesPush(m: map<string, Tool>, names: seq<string>, tools: seq<(string, string)>, r: map<string, Tool>)
    requires |names| == |tools| && Exact(m, names, tools, r)
    requires LIST_RESOURCES !in r && READ_RESOURCE !in r && LIST_RESOURCES != READ_RESOURCE
    requires forall n :: n in names ==> n !in RESERVED
    ensures var r' := r[LIST_RESOURCES := ListResources][READ_RESOURCE := ReadResource];
      && |r'| == |r| + 2
      && (forall k :: k in m ==> k in r' && r'[k] == m[k])
      && (forall i :: 0 <= i < |names| ==> FoundAs(r', names[i], tools[i]))
  {
    MapSize(r, LIST_RESOURCES, ListResources);
    MapSize(r[LIST_RESOURCES := ListResources], READ_RESOURCE, ReadResource);
    forall i | 0 <= i < |names|
      ensures FoundAs(r[LIST_RESOURCES := ListResources][READ_RESOURCE := ReadResource], names[i], tools[i])
    {
      assert FoundAs(r, names[i], tools[i]);
      StillFound(r, names[i], tools[i]);
    }
  }

  lemma StillFound(r: map<string, Tool>, name: string, tool: (string, string))
    requires FoundAs(r, name, tool) && name !in RESERVED
    ensures FoundAs(r[LIST_RESOURCES := ListResources][READ_RESOURCE := ReadResource], name, tool)
  {}

  const BUILTINS := ["read_file", "write_file", "list_directory"]

  lemma BuiltinKeys()
    ensures WithBuiltins(BUILTINS).Keys == {"read_file", "write_file", "list_directory"}
    ensures |WithBuiltins(BUILTINS)| == 3
    ensures forall k :: k in WithBuiltins(BUILTINS) ==> !("mcp_" <= k)
  {
    var m := WithBuiltins(BUILTINS);
    assert m.Keys == {"read_file", "write_file", "list_directory"};
    assert "read_file"[0] != "write_file"[0] && "read_file"[0] != "list_directory"[0]
      && "write_file"[0] != "list_directory"[0];
    assert |m| == |m.Keys|;
    forall k | k in m ensures !("mcp_" <= k) {
      assert k[0] != 'm';
    }
  }

  // The registry as it is set up: the built-in tools, then the remote ones.
  lemma StartupLosesNothing(servers: seq<Server>)
    ensures var r := Registered(WithBuiltins(BUILTINS), servers);
      && |r| == 3 + |RemoteTools(servers)| + (if HasResources(servers) then 2 else 0)
      && forall n :: n in BUILTINS ==> n in r && r[n] == Builtin(n)
  {
    hide Registered, RemoteTools, HasResources;
    BuiltinKeys();
    RegistrationLosesNothing(WithBuiltins(BUILTINS), servers);
  }
}
