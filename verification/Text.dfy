// The string operations of Rust's standard library that the rules, the fence parser
// and the tool names are written with.

module Text {
  import opened Types

  // char::is_whitespace: the Unicode White_Space property.
  predicate IsWhitespace(c: char) {
    var n := c as int;
    || 9 <= n <= 13 || n == 32 || n == 0x85 || n == 0xA0 || n == 0x1680
    || 0x2000 <= n <= 0x200A || n == 0x2028 || n == 0x2029 || n == 0x202F
    || n == 0x205F || n == 0x3000
  }

  predicate HasWhitespace(s: string) { exists k :: 0 <= k < |s| && IsWhitespace(s[k]) }

  // How many blanks s starts with.
  function Blanks(s: string): (n: nat)
    ensures n <= |s|
    ensures n < |s| ==> !IsWhitespace(s[n])
    ensures forall k :: 0 <= k < n ==> IsWhitespace(s[k])
  {
    if s != "" && IsWhitespace(s[0]) then 1 + Blanks(s[1..]) else 0
  }

  // Where the blanks s ends with begin.
  function TextEnd(s: string): (n: nat)
    ensures n <= |s|
    ensures n > 0 ==> !IsWhitespace(s[n - 1])
    ensures forall k :: n <= k < |s| ==> IsWhitespace(s[k])
  {
    if s != "" && IsWhitespace(s[|s| - 1]) then TextEnd(s[..|s| - 1]) else |s|
  }

  function TrimStart(s: string): string { s[Blanks(s)..] }

  function TrimEnd(s: string): string { s[..TextEnd(s)] }

  function Trim(s: string): string { TrimStart(TrimEnd(s)) }

  predicate Trimmed(s: string) {
    s == "" || (!IsWhitespace(s[0]) && !IsWhitespace(s[|s| - 1]))
  }

  lemma TrimmedIsFixed(s: string)
    ensures Trim(s) == s <==> Trimmed(s)
    ensures Trimmed(Trim(s))
  {
    hide IsWhitespace, Blanks, TextEnd;
    var e := TextEnd(s);
    var b := Blanks(s[..e]);
    assert b < e ==> s[..e][b] == s[b];
  }

  // The first place where pat occurs (str::find).
  predicate OccursAt(s: string, pat: string, k: nat) {
    k + |pat| <= |s| && s[k..k + |pat|] == pat
  }

  function FindFrom(s: string, pat: string, k: nat): (r: Option<nat>)
    requires k <= |s|
    ensures r.Some? ==> k <= r.value && OccursAt(s, pat, r.value)
    ensures r.Some? ==> forall j: nat :: k <= j < r.value ==> !OccursAt(s, pat, j)
    ensures r.None? ==> forall j: nat :: k <= j ==> !OccursAt(s, pat, j)
    decreases |s| - k
  {
    if OccursAt(s, pat, k) then Some(k)
    else if k == |s| then None
    else FindFrom(s, pat, k + 1)
  }

  function Find(s: string, pat: string): (r: Option<nat>)
    ensures r.Some? ==> OccursAt(s, pat, r.value)
    ensures r.Some? ==> forall j: nat :: j < r.value ==> !OccursAt(s, pat, j)
    ensures r.None? ==> forall j: nat :: !OccursAt(s, pat, j)
  {
    FindFrom(s, pat, 0)
  }

  lemma FindIs(s: string, pat: string, k: nat)
    requires OccursAt(s, pat, k) && forall j: nat :: j < k ==> !OccursAt(s, pat, j)
    ensures Find(s, pat) == Some(k)
  {
    assert Find(s, pat).Some?;
  }

  function Join(parts: seq<string>, sep: string): string {
    if parts == [] then ""
    else if |parts| == 1 then parts[0]
    else parts[0] + sep + Join(parts[1..], sep)
  }

  function TokenLength(s: string): (n: nat)
    ensures n <= |s|
    ensures forall k :: 0 <= k < n ==> !IsWhitespace(s[k])
    ensures n < |s| ==> IsWhitespace(s[n])
  {
    if s == "" || IsWhitespace(s[0]) then 0 else 1 + TokenLength(s[1..])
  }

  // str::split_whitespace.
  function SplitWhitespace(s: string): (tokens: seq<string>)
    decreases |s|
  {
    var t := TrimStart(s);
    if t == "" then []
    else
      var n := TokenLength(t);
      assert n > 0;
      [t[..n]] + SplitWhitespace(t[n..])
  }

  function NonEmpty(parts: seq<string>): seq<string> {
    if parts == [] then []
    else (if parts[0] == "" then [] else [parts[0]]) + NonEmpty(parts[1..])
  }

  lemma TrimStartOfSpaced(s: string)
    ensures TrimStart(" " + s) == TrimStart(s)
  {
    hide IsWhitespace, Blanks;
    SpaceIsWhitespace();
    var n := Blanks(s);
    assert forall k :: 0 <= k < |s| ==> (" " + s)[k + 1] == s[k];
    BlanksIs(" " + s, n + 1);
    assert (" " + s)[n + 1..] == s[n..];
  }

  // A token followed by a separator is split off whole.
  lemma SplitFirstToken(x: string, s: string)
    requires x != "" && !HasWhitespace(x)
    requires s == "" || IsWhitespace(s[0])
    ensures SplitWhitespace(x + s) == [x] + SplitWhitespace(s)
  {
    hide IsWhitespace, Blanks, TokenLength;
    assert forall k :: 0 <= k < |x| ==> (x + s)[k] == x[k];
    assert s != "" ==> (x + s)[|x|] == s[0];
    BlanksIs(x + s, 0);
    var n := TokenLength(x + s);
    assert n == |x|;
    assert (x + s)[..n] == x && (x + s)[n..] == s;
  }

  lemma SplitOfSpaced(s: string)
    ensures SplitWhitespace(" " + s) == SplitWhitespace(s)
  {
    TrimStartOfSpaced(s);
  }

  // Splitting what was joined with single spaces loses exactly the empty parts.
  lemma {:induction false} SplitOfJoin(parts: seq<string>)
    requires forall k :: 0 <= k < |parts| ==> !HasWhitespace(parts[k])
    ensures SplitWhitespace(Join(parts, " ")) == NonEmpty(parts)
  {
    hide IsWhitespace, SplitWhitespace, HasWhitespace;
    if parts == [] {
      SplitOfBlank("");
    } else if |parts| == 1 {
      assert parts[1..] == [];
      assert parts[0] + "" == parts[0];
      SplitOfBlank("");
      if parts[0] != "" { SplitFirstToken(parts[0], ""); }
    } else {
      var rest := Join(parts[1..], " ");
      SplitOfJoin(parts[1..]);
      SplitOfSpaced(rest);
      assert Join(parts, " ") == parts[0] + (" " + rest);
      if parts[0] == "" {
        assert Join(parts, " ") == " " + rest;
      } else {
        SpaceIsWhitespace();
        SplitFirstToken(parts[0], " " + rest);
      }
    }
  }

  lemma SpaceIsWhitespace()
    ensures IsWhitespace(' ')
  {}

  lemma SplitOfBlank(s: string)
    requires forall k :: 0 <= k < |s| ==> IsWhitespace(s[k])
    ensures SplitWhitespace(s) == []
  {
    hide IsWhitespace, Blanks;
    BlanksIs(s, |s|);
  }

  lemma {:induction false} SplitOfTrimEnd(s: string)
    ensures SplitWhitespace(TrimEnd(s)) == SplitWhitespace(s)
    decreases |s|
  {
    hide IsWhitespace, TrimStart, TrimEnd, TokenLength;
    var t := TrimStart(s);
    TrimStartThenEnd(s);
    TrimEndOfEmpty();
    if t != "" {
      TrimEndKeepsToken(s);
      SplitOfTrimEnd(t[TokenLength(t)..]);
    }
  }

  // The blanks at the start are determined by where the text begins.
  lemma BlanksIs(s: string, n: nat)
    requires n <= |s|
    requires n < |s| ==> !IsWhitespace(s[n])
    requires forall k :: 0 <= k < n ==> IsWhitespace(s[k])
    ensures Blanks(s) == n
  {
    hide IsWhitespace, Blanks;
  }

  lemma TextEndIs(s: string, n: nat)
    requires n <= |s|
    requires n > 0 ==> !IsWhitespace(s[n - 1])
    requires forall k :: n <= k < |s| ==> IsWhitespace(s[k])
    ensures TextEnd(s) == n
  {
    hide IsWhitespace, TextEnd;
  }

  lemma TrimStartThenEnd(s: string)
    ensures TrimStart(TrimEnd(s)) == TrimEnd(TrimStart(s))
  {
    hide IsWhitespace, Blanks, TextEnd;
    var b, e := Blanks(s), TextEnd(s);
    if b < e {
      BlanksIs(s[..e], b);
      TextEndIs(s[b..], e - b);
      assert s[..e][b..] == s[b..][..e - b];
    } else {
      BlanksIs(s[..e], e);
      TextEndIs(s[b..], 0);
    }
  }

  lemma TrimEndOfEmpty()
    ensures TrimEnd("") == ""
  {}

  // Trimming the end of a non-blank string leaves its first token alone.
  lemma TrimEndKeepsToken(s: string)
    requires TrimStart(s) != ""
    ensures var t, u := TrimStart(s), TrimEnd(TrimStart(s));
            var n := TokenLength(t);
            && |t| <= |s| && n > 0 && u != "" && TrimStart(u) == u && TokenLength(u) == n
            && u[..n] == t[..n] && u[n..] == TrimEnd(t[n..])
  {
    hide IsWhitespace, TokenLength, TextEnd, Blanks;
    var t := TrimStart(s);
    var n, e := TokenLength(t), TextEnd(t);
    assert t[0] == s[Blanks(s)];
    assert e < |t| ==> IsWhitespace(t[e]);
    assert 0 < n <= e;
    TextEndIs(t[n..], e - n);
    assert t[..e][n..] == t[n..][..e - n];
    assert TokenLength(t[..e]) == n;
    BlanksIs(t[..e], 0);
  }

  // Trimming the end of a string that starts with a non-blank prefix.
  lemma TrimEndOfConcat(p: string, q: string)
    requires p != "" && !IsWhitespace(p[|p| - 1])
    ensures TrimEnd(p + q) == p + TrimEnd(q)
  {
    hide IsWhitespace, TextEnd;
    var e := TextEnd(q);
    assert forall k :: 0 <= k < |q| ==> (p + q)[|p| + k] == q[k];
    TextEndIs(p + q, |p| + e);
    assert (p + q)[..|p| + e] == p + q[..e];
  }

  // ---------------------------------------------------------------- decimal numbers

  function Digit(d: nat): (c: char)
    requires d < 10
    ensures '0' <= c <= '9'
  {
    '0' + d as char
  }

  function Decimal(n: nat): (s: string)
    ensures s != "" && (|s| == 1 <==> n < 10)
    ensures forall k :: 0 <= k < |s| ==> '0' <= s[k] <= '9'
  {
    if n < 10 then [Digit(n)] else Decimal(n / 10) + [Digit(n % 10)]
  }

  lemma {:induction false} DecimalInjective(m: nat, n: nat)
    requires Decimal(m) == Decimal(n)
    ensures m == n
    decreases m
  {
    var s := Decimal(m);
    if m < 10 || n < 10 {
      assert s[0] == Digit(m) == Digit(n);
    } else {
      assert s[..|s| - 1] == Decimal(m / 10) == Decimal(n / 10);
      assert s[|s| - 1] == Digit(m % 10) == Digit(n % 10);
      DecimalInjective(m / 10, n / 10);
    }
  }
}
