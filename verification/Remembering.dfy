// When a remembered decision takes effect: a rule is written to a spec string, read
// back, and matched against later calls.

module Remembering {
  import opened Types
  import opened Approval
  import T = Text
  import Paths

  // ---------------------------------------------------------------- reading specs back

  lemma TrimPrefixed(prefix: string, body: string)
    requires T.Trimmed(prefix) && prefix != ""
    ensures T.Trim(prefix + body) == prefix + T.TrimEnd(body)
  {
    hide T.IsWhitespace, T.Blanks, T.TextEnd;
    T.TrimEndOfConcat(prefix, body);
    var s := prefix + T.TrimEnd(body);
    assert s[0] == prefix[0];
    T.BlanksIs(s, 0);
  }

  lemma KindsAreTrimmed()
    ensures T.Trimmed("path:") && T.Trimmed("tool:") && T.Trimmed("exec:")
  {}

  lemma ParseTool(codec: Codec, name: string)
    ensures Parse(codec, "tool:" + name)
         == if T.TrimEnd(name) == "" then None else Some(ToolRule(T.TrimEnd(name)))
  {
    hide T.IsWhitespace, T.TextEnd;
    KindsAreTrimmed();
    TrimPrefixed("tool:", name);
    var s := "tool:" + T.TrimEnd(name);
    assert s[5..] == T.TrimEnd(name);
    assert s[0] == 't';
  }

  lemma ParsePath(codec: Codec, tool: string, path: string)
    requires ':' !in tool
    ensures Parse(codec, "path:" + tool + ":" + path)
         == if tool == "" || T.TrimEnd(path) == "" then None else Some(PathRule(tool, T.TrimEnd(path)))
  {
    hide T.IsWhitespace, T.TextEnd, T.TrimEnd, T.Find, T.Trim;
    KindsAreTrimmed();
    var body := tool + ":" + path;
    assert "path:" + tool + ":" + path == "path:" + body;
    TrimPrefixed("path:", body);
    ColonIsNotBlank();
    T.TrimEndOfConcat(tool + ":", path);
    assert body == (tool + ":") + path;
    var rest := tool + ":" + T.TrimEnd(path);
    var s := "path:" + rest;
    assert s[5..] == rest && s[0] == 'p';
    FirstColon(tool, T.TrimEnd(path));
  }

  lemma FirstColon(tool: string, path: string)
    requires ':' !in tool
    ensures var rest := tool + ":" + path;
            T.Find(rest, ":") == Some(|tool|) && rest[..|tool|] == tool && rest[|tool| + 1..] == path
  {
    var rest := tool + ":" + path;
    assert rest[|tool|..|tool| + 1] == ":";
    forall j: nat | j < |tool| ensures !T.OccursAt(rest, ":", j) {
      assert rest[j..j + 1][0] == tool[j];
    }
    T.FindIs(rest, ":", |tool|);
  }

  lemma ColonIsNotBlank()
    ensures !T.IsWhitespace(':')
  {}

  // ---------------------------------------------------------------- argv text

  // The first non-empty word opens a bracket, so the text is read as JSON.
  predicate Bracketed(argv: seq<string>) {
    T.NonEmpty(argv) != [] && "[" <= T.NonEmpty(argv)[0]
  }

  lemma HeadOfSplit(s: string)
    requires T.TrimStart(s) != ""
    ensures T.SplitWhitespace(s) != [] && T.SplitWhitespace(s)[0] != ""
    ensures T.SplitWhitespace(s)[0][0] == T.TrimStart(s)[0]
  {
    hide T.IsWhitespace, T.Blanks, T.TokenLength;
    var t := T.TrimStart(s);
    assert t[0] == s[T.Blanks(s)];
    assert T.TokenLength(t) > 0;
  }

  predicate Worded(argv: seq<string>) {
    forall k :: 0 <= k < |argv| ==> !T.HasWhitespace(argv[k])
  }

  // How an argv without blanks reads back.
  function Reread(codec: Codec, argv: seq<string>): Option<seq<string>> {
    if Bracketed(argv) then
      var parts := codec.decode(T.Trim(T.Join(argv, " ")));
      if parts == Some([]) then None else parts
    else if T.NonEmpty(argv) == [] then None
    else Some(T.NonEmpty(argv))
  }

  lemma ParseWords(codec: Codec, argv: seq<string>)
    requires Worded(argv)
    ensures ParseExecArgv(codec, T.TrimEnd(T.Join(argv, " "))) == Reread(codec, argv)
  {
    hide T.IsWhitespace, T.SplitWhitespace, T.Blanks, T.TextEnd;
    var j := T.Join(argv, " ");
    var e := T.TrimEnd(j);
    T.SplitOfJoin(argv);
    T.SplitOfTrimEnd(j);
    TrimEndTwice(j);
    var rest := T.Trim(e);
    assert rest == T.TrimStart(e) == T.Trim(j);
    if rest == "" {
      TrimEmptySplit(e);
    } else {
      HeadOfSplit(e);
      SplitOfTrimStart(e);
    }
  }

  lemma TrimEndTwice(s: string)
    ensures T.TrimEnd(T.TrimEnd(s)) == T.TrimEnd(s)
  {
    hide T.IsWhitespace, T.TextEnd;
    T.TextEndIs(s[..T.TextEnd(s)], T.TextEnd(s));
  }

  lemma TrimEmptySplit(s: string)
    requires T.TrimStart(s) == ""
    ensures T.SplitWhitespace(s) == []
  {}

  lemma SplitOfTrimStart(s: string)
    ensures T.SplitWhitespace(T.TrimStart(s)) == T.SplitWhitespace(s)
  {
    hide T.IsWhitespace, T.Blanks, T.TokenLength;
    T.BlanksIs(T.TrimStart(s), 0) by {
      if T.TrimStart(s) != "" { assert T.TrimStart(s)[0] == s[T.Blanks(s)]; }
    }
  }

  lemma EncodedIsTrimmed(codec: Codec, argv: seq<string>)
    requires Faithful(codec)
    ensures var text := codec.encode(argv);
            && codec.decode(text) == Some(argv) && "[" <= text
            && T.TrimEnd(text) == text && T.Trim(text) == text
  {
    hide T.IsWhitespace, T.Blanks, T.TextEnd;
    var text := codec.encode(argv);
    assert codec.decode(text) == Some(argv);
    assert text[0] == '[' && text[|text| - 1] == ']';
    BracketsAreNotBlank();
    T.TextEndIs(text, |text|);
    T.BlanksIs(text, 0);
  }

  lemma ParseEncoded(codec: Codec, argv: seq<string>)
    requires Faithful(codec) && argv != []
    ensures Parse(codec, "exec:" + codec.encode(argv)) == Some(ExecRule(argv))
  {
    hide T.IsWhitespace, T.TrimEnd, T.Trim, T.SplitWhitespace, Faithful;
    var text := codec.encode(argv);
    EncodedIsTrimmed(codec, argv);
    KindsAreTrimmed();
    TrimPrefixed("exec:", text);
    var s := "exec:" + text;
    assert s[5..] == text && s[0] == 'e';
    assert ParseExecArgv(codec, text) == Some(argv);
  }

  lemma BracketsAreNotBlank()
    ensures !T.IsWhitespace('[') && !T.IsWhitespace(']')
  {}

  lemma ParseExecWords(codec: Codec, argv: seq<string>)
    requires Worded(argv)
    ensures Parse(codec, "exec:" + T.Join(argv, " "))
         == match Reread(codec, argv) case None => None case Some(words) => Some(ExecRule(words))
  {
    hide T.IsWhitespace, T.TextEnd, ParseExecArgv, T.Join;
    ParseWords(codec, argv);
    KindsAreTrimmed();
    var body := T.TrimEnd(T.Join(argv, " "));
    TrimPrefixed("exec:", T.Join(argv, " "));
    var s := "exec:" + body;
    assert s[5..] == body && s[0] == 'e';
  }

  // ---------------------------------------------------------------- round trip

  // When writing a rule and reading it back yields the same rule.
  predicate Writable(codec: Codec, rule: Rule) {
    match rule
    case ToolRule(name) => name != "" && T.TrimEnd(name) == name
    case PathRule(tool, path) =>
      tool != "" && ':' !in tool && path != "" && T.TrimEnd(path) == path
    case ExecRule(argv) =>
      && argv != []
      && (!Worded(argv)
          || (if Bracketed(argv) then codec.decode(T.Trim(T.Join(argv, " "))) == Some(argv)
              else "" !in argv))
  }

  lemma {:induction false} NonEmptyIsAll(argv: seq<string>)
    ensures T.NonEmpty(argv) == argv <==> "" !in argv
    ensures |T.NonEmpty(argv)| <= |argv|
    ensures T.NonEmpty(argv) == [] <==> forall k :: 0 <= k < |argv| ==> argv[k] == ""
  {
    if argv != [] {
      NonEmptyIsAll(argv[1..]);
      assert argv == [argv[0]] + argv[1..];
      if argv[0] == "" {
        assert |T.NonEmpty(argv)| < |argv|;
      }
      assert forall k :: 0 <= k < |argv| - 1 ==> argv[1..][k] == argv[k + 1];
    }
  }

  // A path rule whose tool holds a colon is split at the wrong place.
  lemma ColonSplitsEarly(codec: Codec, tool: string, path: string)
    requires ':' in tool
    ensures Parse(codec, "path:" + tool + ":" + path) != Some(PathRule(tool, path))
  {
    hide T.IsWhitespace, T.TextEnd, T.Blanks, T.Find;
    var s := T.Trim("path:" + tool + ":" + path);
    if s != "" && "path:" <= s {
      var rest := s[5..];
      var k := T.Find(rest, ":");
      if k.Some? {
        forall j: nat | j < k.value ensures rest[j] != ':' {
          assert !T.OccursAt(rest, ":", j);
          assert rest[j..j + 1] == [rest[j]];
        }
        assert ':' !in rest[..k.value];
      }
    }
  }

  lemma RoundTrip(codec: Codec, rule: Rule)
    requires Faithful(codec)
    ensures Parse(codec, ToSpec(codec, rule)) == Some(rule) <==> Writable(codec, rule)
  {
    hide T.IsWhitespace, T.TextEnd, Parse, T.Trim, T.SplitWhitespace, T.Join, T.HasWhitespace, Faithful;
    match rule {
      case ToolRule(name) =>
        ParseTool(codec, name);
      case PathRule(tool, path) =>
        if ':' in tool {
          ColonSplitsEarly(codec, tool, path);
        } else {
          ParsePath(codec, tool, path);
        }
      case ExecRule(argv) =>
        if Worded(argv) {
          ParseExecWords(codec, argv);
          NonEmptyIsAll(argv);
        } else {
          ParseEncoded(codec, argv);
        }
    }
  }

  // ---------------------------------------------------------------- taking effect

  // The spec a call would be remembered under matches this call.
  predicate TakesEffect(codec: Codec, call: Call, source: Call) {
    match FromInvocation(source.name, source.input)
    case None => false
    case Some(rule) =>
      var read := Parse(codec, ToSpec(codec, rule));
      read.Some? && Matches(read.value, call.name, call.input)
  }

  // What a caller can look at before offering "always": only a scopeable call has a rule;
  // names and paths must survive losing their trailing blanks, an argv must survive
  // losing its empty words.
  predicate Rememberable(codec: Codec, call: Call) {
    match FromInvocation(call.name, call.input)
    case None => false
    case Some(ToolRule(name)) => T.TrimEnd(name) == name
    case Some(PathRule(tool, path)) =>
      var kept := T.TrimEnd(path);
      kept == path || (kept != "" && Paths.LastSegment(kept) in ["", ".", ".."])
    case Some(ExecRule(argv)) =>
      || !Worded(argv)
      || (if Bracketed(argv) then
            var read := codec.decode(T.Trim(T.Join(argv, " ")));
            read.Some? && read.value != [] && read.value <= argv
          else argv[0] != "" && EmptiesTrail(argv))
  }

  predicate EmptiesTrail(argv: seq<string>) {
    forall i, j :: 0 <= i < j < |argv| && argv[i] == "" ==> argv[j] == ""
  }

  // The case of a first element that stays.
  lemma PrefixOfRest(x: string, rest: seq<string>)
    ensures [x] + T.NonEmpty(rest) <= [x] + rest <==> T.NonEmpty(rest) <= rest
    ensures x != "" ==> (EmptiesTrail([x] + rest) <==> EmptiesTrail(rest))
  {
    hide T.NonEmpty;
    var n, argv := T.NonEmpty(rest), [x] + rest;
    if [x] + n <= argv {
      assert argv[..1 + |n|][1..] == n;
      assert argv[1..][..|n|] == argv[..1 + |n|][1..];
    }
    if n <= rest { assert argv[..1 + |n|] == [x] + n; }
    if EmptiesTrail(argv) {
      forall i, j | 0 <= i < j < |rest| && rest[i] == "" ensures rest[j] == "" {
        assert argv[i + 1] == "" && argv[j + 1] == rest[j];
      }
    }
  }

  // The case of an empty first element: nothing may follow it.
  lemma PrefixOfEmpty(rest: seq<string>)
    ensures T.NonEmpty(rest) <= [""] + rest <==> T.NonEmpty(rest) == []
    ensures EmptiesTrail([""] + rest) <==> T.NonEmpty(rest) == []
  {
    hide T.NonEmpty;
    NonEmptyHasNoEmpty(rest);
    NonEmptyIsAll(rest);
    var argv := [""] + rest;
    if T.NonEmpty(rest) != [] {
      assert T.NonEmpty(rest)[0] != argv[0];
      var k :| 0 <= k < |rest| && rest[k] != "";
      assert argv[0] == "" && argv[k + 1] != "";
    }
  }

  lemma {:induction false} NonEmptyIsPrefix(argv: seq<string>)
    ensures T.NonEmpty(argv) <= argv <==> EmptiesTrail(argv)
  {
    hide EmptiesTrail;
    if argv == [] {
      NothingTrails();
    } else {
      var rest := argv[1..];
      NonEmptyIsPrefix(rest);
      assert argv == [argv[0]] + rest;
      if argv[0] == "" {
        PrefixOfEmpty(rest);
        assert [] + T.NonEmpty(rest) == T.NonEmpty(rest);
      } else {
        PrefixOfRest(argv[0], rest);
      }
    }
  }

  lemma NothingTrails()
    ensures EmptiesTrail([])
  {}

  lemma {:induction false} NonEmptyHasNoEmpty(argv: seq<string>)
    ensures "" !in T.NonEmpty(argv)
  {
    if argv != [] { NonEmptyHasNoEmpty(argv[1..]); }
  }

  lemma BlankTail(path: string)
    requires T.TrimEnd(path) != path && T.TrimEnd(path) != ""
    ensures Paths.PathCovers(path, T.TrimEnd(path)) <==> Paths.LastSegment(T.TrimEnd(path)) in ["", ".", ".."]
  {
    hide T.IsWhitespace, T.TextEnd, Paths.PathCovers, Paths.LastSegment;
    var e := T.TextEnd(path);
    var tail := path[e..];
    assert path == path[..e] + tail;
    assert forall k :: 0 <= k < |tail| ==> T.IsWhitespace(tail[k]);
    SlashAndDotAreNotBlank();
    var last := Paths.LastSegment(path[..e]);
    assert (last + tail)[|last + tail| - 1] == tail[|tail| - 1];
    Paths.GluedIsCovered(path[..e], tail);
  }

  lemma SlashAndDotAreNotBlank()
    ensures !T.IsWhitespace('/') && !T.IsWhitespace('.')
  {}

  lemma ScopedNamesHaveNoColon(name: string)
    requires IsPathScoped(name)
    ensures name != "" && ':' !in name
  {}

  // A remembered call is covered by its own remembered spec exactly when it is
  // rememberable.
  lemma RememberedTakesEffect(codec: Codec, call: Call)
    requires Faithful(codec)
    ensures TakesEffect(codec, call, call) <==> Rememberable(codec, call)
  {
    hide T.IsWhitespace, T.TextEnd, Parse, T.Trim, T.SplitWhitespace, T.Join, T.HasWhitespace, Faithful;
    hide Paths.LastSegment, ExtractExecArgv, IsPathScoped, IsExecScoped, Paths.PathCovers;
    match FromInvocation(call.name, call.input) {
      case None =>
      case Some(ToolRule(name)) =>
        ParseTool(codec, name);
        McpNamesSurvive(name);
      case Some(PathRule(tool, path)) =>
        ScopedNamesHaveNoColon(tool);
        ParsePath(codec, tool, path);
        if T.TrimEnd(path) == path {
          assert Paths.PathCovers(path, path) by { ReflexiveCover(path); }
        } else if T.TrimEnd(path) != "" {
          BlankTail(path);
        }
      case Some(ExecRule(argv)) =>
        if Worded(argv) {
          ParseExecWords(codec, argv);
          NonEmptyIsPrefix(argv);
          NonEmptyIsAll(argv);
        } else {
          ParseEncoded(codec, argv);
        }
    }
  }

  lemma ReflexiveCover(path: string)
    ensures Paths.PathCovers(path, path)
  {}

  lemma McpNamesSurvive(name: string)
    requires IsMcpTool(name)
    ensures T.TrimEnd(name) != ""
  {
    hide T.TextEnd;
    assert name[0] == 'm' && !T.IsWhitespace('m');
  }

  const NOTES := JObject(map["path" := JString("notes ")])

  // A path that ends in a blank: the stored rule names another path, and the call it was
  // made for is asked about again.
  lemma TrailingBlankIsLost(codec: Codec)
    requires Faithful(codec)
    ensures var call, rule := Call("1", "read_file", NOTES), PathRule("read_file", "notes ");
      && FromInvocation(call.name, call.input) == Some(rule)
      && Parse(codec, ToSpec(codec, rule)) == Some(PathRule("read_file", "notes"))
      && !TakesEffect(codec, call, call)
  {
    hide Parse, Paths.LastSegment, T.IsWhitespace, T.TextEnd, FromInvocation, TakesEffect;
    ReadingNotes();
    ParsePath(codec, "read_file", "notes ");
    RememberedTakesEffect(codec, Call("1", "read_file", NOTES));
  }

  lemma ReadingNotes()
    ensures FromInvocation("read_file", NOTES) == Some(PathRule("read_file", "notes "))
    ensures T.TrimEnd("notes ") == "notes" && Paths.LastSegment("notes") == "notes"
  {
    assert "read_file"[0] != 'm' && PATH_SCOPED_TOOLS[0] == "read_file";
    assert Field(NOTES, "path") == Some(JString("notes "));
    assert T.IsWhitespace(' ') && !T.IsWhitespace('s');
    T.TextEndIs("notes ", 5);
    Paths.SingleSegment("notes");
  }

  const BRACKET := JObject(map["argv" := JArray([JString("[x")])])

  // A program whose name opens a bracket: written without blanks, it is read back as
  // JSON, and where it is none the rule is gone.
  lemma BracketIsLost(codec: Codec)
    requires Faithful(codec) && codec.decode("[x").None?
    ensures var call, rule := Call("1", "exec", BRACKET), ExecRule(["[x"]);
      && FromInvocation(call.name, call.input) == Some(rule)
      && Parse(codec, ToSpec(codec, rule)) == None
      && !TakesEffect(codec, call, call)
  {
    hide Parse, T.IsWhitespace, T.TextEnd, T.SplitWhitespace, T.Trim, FromInvocation;
    RunningBracket();
    var argv := ["[x"];
    PlainCharacters();
    assert Worded(argv) && T.Join(argv, " ") == "[x";
    assert argv[1..] == [] && T.NonEmpty(argv) == ["[x"];
    T.TrimmedIsFixed("[x");
    ParseExecWords(codec, argv);
  }

  lemma RunningBracket()
    ensures FromInvocation("exec", BRACKET) == Some(ExecRule(["[x"]))
  {
    assert "exec"[0] != 'm' && EXEC_SCOPED_TOOLS[0] == "exec";
    assert Field(BRACKET, "argv") == Some(JArray([JString("[x")]));
    StringsOne(JString("[x"));
  }

  lemma PlainCharacters()
    ensures !T.IsWhitespace('[') && !T.IsWhitespace('x')
  {}

  // ---------------------------------------------------------------- the lists

  predicate SpecMatches(codec: Codec, spec: string, call: Call) {
    var read := Parse(codec, spec);
    read.Some? && Matches(read.value, call.name, call.input)
  }

  lemma MatchesAppend(a: seq<Rule>, b: seq<Rule>, call: Call)
    ensures MatchesAny(a + b, call.name, call.input)
       <==> MatchesAny(a, call.name, call.input) || MatchesAny(b, call.name, call.input)
  {
    hide Matches;
    var all := a + b;
    assert forall k :: 0 <= k < |a| ==> all[k] == a[k];
    assert forall k :: 0 <= k < |b| ==> all[k + |a|] == b[k];
    if k :| 0 <= k < |all| && Matches(all[k], call.name, call.input) {
      assert k >= |a| ==> all[k] == b[k - |a|];
    }
    if k :| 0 <= k < |b| && Matches(b[k], call.name, call.input) {
      assert Matches(all[k + |a|], call.name, call.input);
    }
  }

  lemma OneSpec(codec: Codec, spec: string, call: Call)
    ensures MatchesAny(match Parse(codec, spec) case None => [] case Some(r) => [r], call.name, call.input)
       <==> SpecMatches(codec, spec, call)
  {
    hide Parse, Matches;
    if Parse(codec, spec).Some? {
      var rules := [Parse(codec, spec).value];
      assert rules[0] == Parse(codec, spec).value;
    }
  }

  lemma {:induction false} RulesMatch(codec: Codec, specs: seq<string>, call: Call)
    ensures MatchesAny(ParseRules(codec, specs), call.name, call.input)
       <==> exists s :: s in specs && SpecMatches(codec, s, call)
  {
    hide Parse, MatchesAny, SpecMatches;
    if specs == [] {
      NoRules(call);
    } else {
      RulesMatch(codec, specs[1..], call);
      OneSpec(codec, specs[0], call);
      var head := match Parse(codec, specs[0]) case None => [] case Some(r) => [r];
      MatchesAppend(head, ParseRules(codec, specs[1..]), call);
      assert forall s :: s in specs <==> s == specs[0] || s in specs[1..];
    }
  }

  lemma NoRules(call: Call)
    ensures !MatchesAny([], call.name, call.input)
  {}

  lemma {:induction false} SpecsCover(codec: Codec, calls: seq<Call>, call: Call)
    ensures (exists s :: s in SpecsOf(codec, calls) && SpecMatches(codec, s, call))
       <==> exists c :: c in calls && TakesEffect(codec, call, c)
  {
    hide Parse, Matches, FromInvocation, ToSpec;
    if calls != [] {
      SpecsCover(codec, calls[1..], call);
      assert forall c :: c in calls <==> c == calls[0] || c in calls[1..];
      var rule := FromInvocation(calls[0].name, calls[0].input);
      if rule.Some? {
        var spec := ToSpec(codec, rule.value);
        assert forall s :: s in SpecsOf(codec, calls) <==> s == spec || s in SpecsOf(codec, calls[1..]);
        assert SpecMatches(codec, spec, call) <==> TakesEffect(codec, call, calls[0]);
      }
    }
  }

  // Exactly the calls a list covered before, plus those covered by a remembered call of
  // the batch, are covered afterwards.
  lemma RememberExtends(codec: Codec, list: seq<string>, calls: seq<Call>, call: Call)
    ensures IsDenied(codec, AddSpecs(SpecsOf(codec, calls), list), call)
       <==> IsDenied(codec, list, call) || exists c :: c in calls && TakesEffect(codec, call, c)
  {
    hide Parse, Matches, TakesEffect;
    var list' := AddSpecs(SpecsOf(codec, calls), list);
    RulesMatch(codec, list', call);
    RulesMatch(codec, list, call);
    SpecsCover(codec, calls, call);
  }

  // After "always deny" each rememberable call of the batch is denied; after "always
  // allow" it no longer prompts; and a call nothing covered before, of a batch in which
  // nothing takes effect on it, is exactly as it was.
  lemma DecisionsAreRemembered(codec: Codec, cfg: Config, calls: seq<Call>, call: Call)
    requires Faithful(codec) && call in calls
    ensures Rememberable(codec, call) ==>
              && IsDenied(codec, Remember(codec, cfg, calls, false).alwaysDeny, call)
              && !NeedsApproval(codec, Remember(codec, cfg, calls, true), [call])
    ensures (forall c :: c in calls ==> !TakesEffect(codec, call, c)) ==>
              && (IsDenied(codec, Remember(codec, cfg, calls, false).alwaysDeny, call)
                  <==> IsDenied(codec, cfg.alwaysDeny, call))
              && (NeedsApproval(codec, Remember(codec, cfg, calls, true), [call])
                  <==> NeedsApproval(codec, cfg, [call]))
  {
    hide Parse, Matches, TakesEffect, Rememberable, ParseRules, SpecsOf, AddSpecs;
    RememberedTakesEffect(codec, call);
    RememberExtends(codec, cfg.alwaysDeny, calls, call);
    RememberExtends(codec, cfg.alwaysAllow, calls, call);
    assert [call][0] == call;
  }
}
