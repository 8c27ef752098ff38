// What a remembered call grants to, or forbids, another call; and when a batch prompts.

module Grants {
  import opened Types
  import opened Approval
  import opened Remembering
  import T = Text
  import Paths

  // ---------------------------------------------------------------- the argv of a call

  predicate SameStrings(items: seq<Json>, argv: seq<string>) {
    |items| == |argv| && forall k :: 0 <= k < |argv| ==> items[k] == JString(argv[k])
  }

  // The argv a call spells: its "argv" list as it stands, or its command with its "args",
  // or a lone command cut at its blanks; empty words only in a list given as such.
  predicate Spelled(input: Json, argv: seq<string>) {
    && argv != []
    && match Field(input, "argv")
       case Some(JArray(items)) => SameStrings(items, argv)
       case _ =>
         && "" !in argv
         && Field(input, "command").Some? && Field(input, "command").value.JString?
         && var command := Field(input, "command").value.s;
            match Field(input, "args")
            case Some(JArray(items)) => argv[0] == command && SameStrings(items, argv[1..])
            case Some(_) => argv == [command]
            case None => argv == if T.HasWhitespace(command) then T.SplitWhitespace(command) else [command]
  }

  lemma {:induction false} StringsAre(items: seq<Json>, argv: seq<string>)
    ensures Strings(items) == Some(argv) <==> SameStrings(items, argv)
  {
    if items != [] && argv != [] {
      StringsAre(items[1..], argv[1..]);
      assert argv == [argv[0]] + argv[1..];
      assert forall k :: 0 < k < |argv| ==> argv[k] == argv[1..][k - 1];
      if |items| == |argv| { assert forall k :: 0 < k < |items| ==> items[k] == items[1..][k - 1]; }
      if SameStrings(items, argv) {
        assert items[0] == JString(argv[0]);
        assert SameStrings(items[1..], argv[1..]);
      }
    }
  }

  lemma CommandIsSpelled(input: Json, argv: seq<string>)
    requires !(Field(input, "argv").Some? && Field(input, "argv").value.JArray?)
    requires !(Field(input, "args").Some? && Field(input, "args").value.JArray?)
    ensures ExtractExecArgv(input) == Some(argv) <==> Spelled(input, argv)
  {
    hide T.HasWhitespace, T.SplitWhitespace, Strings, SameStrings;
    if StringField(input, "command").Some? {
      var command := StringField(input, "command").value;
      assert [command] + [] == [command] && T.SplitWhitespace(command) + [] == T.SplitWhitespace(command);
    }
  }

  lemma ArgvIsSpelled(input: Json, argv: seq<string>)
    ensures ExtractExecArgv(input) == Some(argv) <==> Spelled(input, argv)
  {
    hide T.HasWhitespace, T.SplitWhitespace, Strings, SameStrings;
    match Field(input, "argv") {
      case Some(JArray(items)) => StringsAre(items, argv);
      case _ =>
        match Field(input, "args") {
          case Some(JArray(items)) =>
            if argv != [] {
              StringsAre(items, argv[1..]);
              assert argv == [argv[0]] + argv[1..];
              if Strings(items).Some? && StringField(input, "command").Some? {
                var whole := [StringField(input, "command").value] + Strings(items).value;
                assert whole[1..] == Strings(items).value;
              }
            }
          case _ => CommandIsSpelled(input, argv);
        }
    }
  }

  // ---------------------------------------------------------------- grants

  function PathOf(call: Call): Option<string> {
    if call.input.JObject? && "path" in call.input.fields && call.input.fields["path"].JString?
    then Some(call.input.fields["path"].s) else None
  }

  function Lookup(path: string): seq<Paths.Component> { Paths.Normalize(Paths.Components(path)) }

  // An MCP tool: the tool of the name that is read back, with any arguments.
  predicate GrantsTool(source: Call, call: Call) {
    "mcp_" <= source.name && call.name == T.TrimEnd(source.name)
  }

  // A file tool: the same tool, at the path that is read back and below it.
  predicate GrantsPath(source: Call, call: Call) {
    && source.name in ["read_file", "write_file", "list_directory"]
    && call.name == source.name
    && PathOf(source).Some? && PathOf(call).Some?
    && var kept := T.TrimEnd(PathOf(source).value);
       kept != "" && Lookup(kept) <= Lookup(PathOf(call).value)
  }

  // A command: either exec tool, where the words that are read back begin the command.
  ghost predicate GrantsArgv(codec: Codec, source: Call, call: Call) {
    && source.name in ["exec", "run_command"]
    && call.name in ["exec", "run_command"]
    && exists from, to, words :: Spelled(source.input, from) && Spelled(call.input, to)
         && ReadBack(codec, from) == Some(words) && words <= to
  }

  // An argv with a blank in it is stored as JSON, any other as its words.
  function ReadBack(codec: Codec, argv: seq<string>): Option<seq<string>> {
    if exists k :: 0 <= k < |argv| && T.HasWhitespace(argv[k]) then Some(argv) else Reread(codec, argv)
  }

  ghost predicate Grants(codec: Codec, source: Call, call: Call) {
    GrantsTool(source, call) || GrantsPath(source, call) || GrantsArgv(codec, source, call)
  }

  lemma Kinds(name: string)
    ensures IsMcpTool(name) <==> "mcp_" <= name
    ensures IsPathScoped(name) <==> name in ["read_file", "write_file", "list_directory"]
    ensures IsExecScoped(name) <==> name in ["exec", "run_command"]
    ensures (if "mcp_" <= name then 1 else 0) + (if IsPathScoped(name) then 1 else 0)
            + (if IsExecScoped(name) then 1 else 0) <= 1
  {
    assert "read_file"[0] == 'r' && "write_file"[0] == 'w' && "list_directory"[0] == 'l';
    assert "exec"[0] == 'e' && "run_command"[0] == 'r';
    assert "run_command"[1] == 'u' && "read_file"[1] == 'e';
  }

  lemma BlankPathIsNone()
    ensures T.TrimEnd("") == ""
  {}

  lemma ToolGrants(codec: Codec, source: Call, call: Call)
    requires IsMcpTool(source.name)
    ensures TakesEffect(codec, call, source) <==> call.name == T.TrimEnd(source.name)
  {
    hide T.IsWhitespace, T.TextEnd, Parse;
    ParseTool(codec, source.name);
    McpNamesSurvive(source.name);
  }

  lemma PathGrants(codec: Codec, source: Call, call: Call)
    requires IsPathScoped(source.name) && !IsMcpTool(source.name)
    ensures TakesEffect(codec, call, source) <==> GrantsPath(source, call)
  {
    hide T.IsWhitespace, T.TrimEnd, Parse, Paths.Normalize, Paths.Components, IsPathScoped, IsMcpTool;
    Kinds(source.name);
    BlankPathIsNone();
    assert StringField(source.input, "path") == PathOf(source) && StringField(call.input, "path") == PathOf(call);
    if PathOf(source).Some? && PathOf(source).value != "" {
      ScopedNamesHaveNoColon(source.name);
      ParsePath(codec, source.name, PathOf(source).value);
    }
  }

  lemma WordsAreReadBack(codec: Codec, argv: seq<string>)
    requires Faithful(codec) && argv != []
    ensures Parse(codec, ToSpec(codec, ExecRule(argv)))
         == match ReadBack(codec, argv) case None => None case Some(words) => Some(ExecRule(words))
  {
    hide T.IsWhitespace, T.TextEnd, Parse, Reread, T.Join, T.HasWhitespace, Faithful;
    if Worded(argv) { ParseExecWords(codec, argv); } else { ParseEncoded(codec, argv); }
  }

  lemma ArgvGrants(codec: Codec, source: Call, call: Call)
    requires Faithful(codec) && IsExecScoped(source.name) && !IsPathScoped(source.name) && !IsMcpTool(source.name)
    ensures TakesEffect(codec, call, source) <==> GrantsArgv(codec, source, call)
  {
    hide ExtractExecArgv, Spelled, ReadBack, Parse, ToSpec, Faithful, IsExecScoped, IsPathScoped, IsMcpTool;
    Kinds(source.name);
    Kinds(call.name);
    var given, asked := ExtractExecArgv(source.input), ExtractExecArgv(call.input);
    forall argv ensures (given == Some(argv) <==> Spelled(source.input, argv))
                ensures (asked == Some(argv) <==> Spelled(call.input, argv)) {
      ArgvIsSpelled(source.input, argv);
      ArgvIsSpelled(call.input, argv);
    }
    if given.Some? { WordsAreReadBack(codec, given.value); }
  }

  // A remembered call covers another call exactly where it is the MCP tool that is read
  // back, the same file tool at or below the path, or a command begun by its words.
  lemma RememberedGrants(codec: Codec, source: Call, call: Call)
    requires Faithful(codec)
    ensures TakesEffect(codec, call, source) <==> Grants(codec, source, call)
  {
    hide TakesEffect, GrantsPath, GrantsArgv, Faithful, T.TrimEnd, IsPathScoped, IsExecScoped;
    Kinds(source.name);
    if IsMcpTool(source.name) {
      ToolGrants(codec, source, call);
      OneKind(codec, source, call);
    } else if IsPathScoped(source.name) {
      PathGrants(codec, source, call);
      OneKind(codec, source, call);
    } else if IsExecScoped(source.name) {
      ArgvGrants(codec, source, call);
      OneKind(codec, source, call);
    } else {
      NoRule(codec, source, call);
      OneKind(codec, source, call);
    }
  }

  lemma OneKind(codec: Codec, source: Call, call: Call)
    ensures GrantsPath(source, call) ==> IsPathScoped(source.name)
    ensures GrantsArgv(codec, source, call) ==> IsExecScoped(source.name)
  {}

  lemma NoRule(codec: Codec, source: Call, call: Call)
    requires !IsMcpTool(source.name) && !IsPathScoped(source.name) && !IsExecScoped(source.name)
    ensures !TakesEffect(codec, call, source)
  {}

  // ---------------------------------------------------------------- other tools

  predicate Covered(codec: Codec, specs: seq<string>, call: Call) {
    exists s :: s in specs && SpecMatches(codec, s, call)
  }

  // Remembering a batch covers exactly what was covered before and what one of its calls
  // grants.
  lemma RememberedCovers(codec: Codec, list: seq<string>, calls: seq<Call>, call: Call)
    requires Faithful(codec)
    ensures Covered(codec, AddSpecs(SpecsOf(codec, calls), list), call)
       <==> Covered(codec, list, call) || exists c :: c in calls && Grants(codec, c, call)
  {
    hide SpecMatches, TakesEffect, Grants, Faithful, ParseRules, SpecsOf, AddSpecs, MatchesAny;
    RulesMatch(codec, list, call);
    RulesMatch(codec, AddSpecs(SpecsOf(codec, calls), list), call);
    RememberExtends(codec, list, calls, call);
    forall c ensures TakesEffect(codec, call, c) <==> Grants(codec, c, call) { RememberedGrants(codec, c, call); }
  }

  predicate IsFileTool(name: string) { name in ["read_file", "write_file", "list_directory"] }

  // "Always" on calls of file tools changes nothing for the calls of other tools: these
  // prompt, and are denied, as they did before.
  lemma OtherToolsPromptAsBefore(codec: Codec, cfg: Config, calls: seq<Call>, others: seq<Call>, allow: bool)
    requires Faithful(codec)
    requires forall c :: c in calls ==> IsFileTool(c.name)
    requires forall c, d :: c in calls && d in others ==> c.name != d.name
    ensures NeedsApproval(codec, Remember(codec, cfg, calls, allow), others) <==> NeedsApproval(codec, cfg, others)
    ensures Denied(codec, Remember(codec, cfg, calls, allow).alwaysDeny, others)
         == Denied(codec, cfg.alwaysDeny, others)
  {
    hide IsDenied, Grants, Faithful, SpecsOf, AddSpecs, TakesEffect;
    var cfg' := Remember(codec, cfg, calls, allow);
    forall d | d in others
      ensures IsDenied(codec, cfg'.alwaysDeny, d) <==> IsDenied(codec, cfg.alwaysDeny, d)
      ensures IsAllowed(codec, cfg'.alwaysAllow, d) <==> IsAllowed(codec, cfg.alwaysAllow, d)
    {
      AllowedIsDenied(codec, cfg, d);
      AllowedIsDenied(codec, cfg', d);
      RememberExtends(codec, cfg.alwaysDeny, calls, d);
      RememberExtends(codec, cfg.alwaysAllow, calls, d);
      forall c | c in calls ensures !TakesEffect(codec, d, c) {
        RememberedGrants(codec, c, d);
        NothingForOthers(codec, c, d);
      }
    }
    SameDenied(codec, cfg'.alwaysDeny, cfg.alwaysDeny, others);
  }

  lemma AllowedIsDenied(codec: Codec, cfg: Config, d: Call)
    ensures IsAllowed(codec, cfg.alwaysAllow, d) <==> IsDenied(codec, cfg.alwaysAllow, d)
  {}

  lemma NothingForOthers(codec: Codec, source: Call, call: Call)
    requires IsFileTool(source.name) && source.name != call.name
    ensures !Grants(codec, source, call)
  {
    Kinds(source.name);
  }

  lemma {:induction false} SameDenied(codec: Codec, a: seq<string>, b: seq<string>, calls: seq<Call>)
    requires forall c :: c in calls ==> (IsDenied(codec, a, c) <==> IsDenied(codec, b, c))
    ensures Denied(codec, a, calls) == Denied(codec, b, calls)
  {
    hide IsDenied;
    if calls != [] { SameDenied(codec, a, b, calls[1..]); }
  }

  // ---------------------------------------------------------------- who is asked

  // The user is asked about a batch exactly when some call of it is covered by no stored
  // denial and by no stored permission, and nothing executes by itself. A denial wins.
  lemma AskedExactlyFor(codec: Codec, cfg: Config, calls: seq<Call>)
    ensures NeedsApproval(codec, cfg, calls)
       <==> !cfg.autoExecute
            && exists c :: c in calls && !Covered(codec, cfg.alwaysDeny, c) && !Covered(codec, cfg.alwaysAllow, c)
  {
    hide SpecMatches, ParseRules, MatchesAny, Covered;
    forall c ensures IsDenied(codec, cfg.alwaysDeny, c) <==> Covered(codec, cfg.alwaysDeny, c)
             ensures IsAllowed(codec, cfg.alwaysAllow, c) <==> Covered(codec, cfg.alwaysAllow, c) {
      CoveredMatches(codec, cfg.alwaysDeny, c);
      CoveredMatches(codec, cfg.alwaysAllow, c);
    }
    if c :| c in calls && !Covered(codec, cfg.alwaysDeny, c) && !Covered(codec, cfg.alwaysAllow, c) {
      var k :| 0 <= k < |calls| && calls[k] == c;
    }
  }

  lemma CoveredMatches(codec: Codec, specs: seq<string>, call: Call)
    ensures MatchesAny(ParseRules(codec, specs), call.name, call.input) <==> Covered(codec, specs, call)
  {
    RulesMatch(codec, specs, call);
  }

  // A bare name is a rule for an MCP tool and for nothing else.
  lemma BareNames(codec: Codec, name: string, call: Call)
    requires T.Trimmed(name) && !("path:" <= name) && !("tool:" <= name) && !("exec:" <= name)
    ensures SpecMatches(codec, name, call) <==> "mcp_" <= name && call.name == name
  {
    hide T.Trim, T.IsWhitespace, ParseExecArgv;
    T.TrimmedIsFixed(name);
  }
}
