// The rule language behind "always allow" and "always deny"
// (clareon-core/src/tools/approval.rs) and the lists a decision is remembered in
// (persist_policy_rules in clareon-core/src/conversation/session.rs).

module Approval {
  import opened Types
  import T = Text
  import Paths

  const PATH_SCOPED_TOOLS := ["read_file", "write_file", "list_directory"]
  const EXEC_SCOPED_TOOLS := ["exec", "run_command"]

  // serde_json restricted to arrays of strings. decode is None when the text is not
  // JSON or holds something other than strings.
  datatype Codec = Codec(encode: seq<string> -> string, decode: string -> Option<seq<string>>)

  ghost predicate Faithful(codec: Codec) {
    forall xs :: codec.decode(codec.encode(xs)) == Some(xs)
                 && "[" <= codec.encode(xs) && EndsWithBracket(codec.encode(xs))
  }

  predicate EndsWithBracket(s: string) { s != "" && s[|s| - 1] == ']' }

  datatype Rule =
    | PathRule(tool: string, path: string)
    | ToolRule(name: string)
    | ExecRule(argvPrefix: seq<string>)

  datatype Config = Config(autoExecute: bool, alwaysAllow: seq<string>, alwaysDeny: seq<string>)

  predicate IsMcpTool(name: string) { "mcp_" <= name }
  predicate IsPathScoped(name: string) { name in PATH_SCOPED_TOOLS }
  predicate IsExecScoped(name: string) { name in EXEC_SCOPED_TOOLS }

  // ---------------------------------------------------------------- spec strings

  function ToSpec(codec: Codec, rule: Rule): string {
    match rule
    case PathRule(tool, path) => "path:" + tool + ":" + path
    case ToolRule(name) => "tool:" + name
    case ExecRule(prefix) => "exec:" + FormatExecArgv(codec, prefix)
  }

  function FormatExecArgv(codec: Codec, argv: seq<string>): string {
    if exists k :: 0 <= k < |argv| && T.HasWhitespace(argv[k]) then codec.encode(argv)
    else T.Join(argv, " ")
  }

  function Parse(codec: Codec, spec: string): Option<Rule> {
    var s := T.Trim(spec);
    if s == "" then None
    else if "path:" <= s then
      var rest := s[5..];
      match T.Find(rest, ":")
      case None => None
      case Some(k) =>
        if k == 0 || k + 1 == |rest| then None else Some(PathRule(rest[..k], rest[k + 1..]))
    else if "tool:" <= s then
      if s[5..] == "" then None else Some(ToolRule(s[5..]))
    else if "exec:" <= s then
      match ParseExecArgv(codec, s[5..])
      case None => None
      case Some(argv) => if argv == [] then None else Some(ExecRule(argv))
    else if IsMcpTool(s) then Some(ToolRule(s))
    else None
  }

  function ParseExecArgv(codec: Codec, text: string): Option<seq<string>> {
    var rest := T.Trim(text);
    if rest == "" then None
    else
      var parts := if rest[0] == '[' then codec.decode(rest) else Some(T.SplitWhitespace(rest));
      if parts == Some([]) then None else parts
  }

  function ParseRules(codec: Codec, specs: seq<string>): seq<Rule> {
    if specs == [] then []
    else
      (match Parse(codec, specs[0]) case None => [] case Some(r) => [r]) + ParseRules(codec, specs[1..])
  }

  // ---------------------------------------------------------------- invocations

  function Field(input: Json, key: string): Option<Json> {
    if input.JObject? && key in input.fields then Some(input.fields[key]) else None
  }

  function StringField(input: Json, key: string): Option<string> {
    match Field(input, key)
    case Some(JString(s)) => Some(s)
    case _ => None
  }

  function Strings(items: seq<Json>): (r: Option<seq<string>>)
    ensures r.Some? ==> |r.value| == |items|
  {
    if items == [] then Some([])
    else
      match (items[0], Strings(items[1..]))
      case (JString(s), Some(rest)) => Some([s] + rest)
      case _ => None
  }

  function ExtractExecArgv(input: Json): (r: Option<seq<string>>)
    ensures r.Some? ==> r.value != []
  {
    match Field(input, "argv")
    case Some(JArray(items)) => if Strings(items) == Some([]) then None else Strings(items)
    case _ =>
      match StringField(input, "command")
      case None => None
      case Some(command) =>
        var args := Field(input, "args");
        var head := if T.HasWhitespace(command) && args.None? then T.SplitWhitespace(command) else [command];
        match (if args.Some? && args.value.JArray? then Strings(args.value.items) else Some([]))
        case None => None
        case Some(tail) => if head + tail == [] || "" in head + tail then None else Some(head + tail)
  }

  lemma {:induction false} StringsAppend(a: seq<Json>, b: seq<Json>)
    ensures Strings(a + b) == if Strings(a).Some? && Strings(b).Some?
                              then Some(Strings(a).value + Strings(b).value) else None
  {
    if a == [] {
      assert a + b == b;
      assert Strings(b).Some? ==> [] + Strings(b).value == Strings(b).value;
    } else {
      assert (a + b)[1..] == a[1..] + b;
      StringsAppend(a[1..], b);
      if a[0].JString? && Strings(a[1..]).Some? && Strings(b).Some? {
        var s, x, y := a[0].s, Strings(a[1..]).value, Strings(b).value;
        assert [s] + x + y == [s] + (x + y);
      }
    }
  }

  lemma StringsOne(item: Json)
    ensures Strings([item]) == if item.JString? then Some([item.s]) else None
  {
    assert [item][1..] == [];
    assert Strings([]) == Some([]);
    assert item.JString? ==> [item.s] + [] == [item.s];
  }

  lemma StringsPush(items: seq<Json>, i: nat)
    requires i < |items| && Strings(items[..i]).Some?
    ensures !items[i].JString? ==> Strings(items).None?
    ensures items[i].JString? ==> Strings(items[..i + 1]) == Some(Strings(items[..i]).value + [items[i].s])
  {
    assert items == items[..i] + items[i..];
    assert Strings(items[i..]).Some? ==> items[i].JString?;
    StringsAppend(items[..i], items[i..]);
    assert items[..i + 1] == items[..i] + [items[i]];
    StringsOne(items[i]);
    StringsAppend(items[..i], [items[i]]);
  }

  // The loop that pushes the arguments: the first one that is no string ends it.
  method PushArguments(head: seq<string>, items: seq<Json>) returns (argv: Option<seq<string>>)
    ensures argv == if Strings(items).None? then None else Some(head + Strings(items).value)
  {
    var out := head;
    for i := 0 to |items|
      invariant Strings(items[..i]).Some? && out == head + Strings(items[..i]).value
    {
      StringsPush(items, i);
      if !items[i].JString? { return None; }
      out := out + [items[i].s];
    }
    assert items[..|items|] == items;
    return Some(out);
  }

  // extract_exec_argv as the source runs it.
  method ExtractArgv(input: Json) returns (r: Option<seq<string>>)
    ensures r == ExtractExecArgv(input)
  {
    hide T.HasWhitespace, T.SplitWhitespace;
    var given := Field(input, "argv");
    if given.Some? && given.value.JArray? {
      var parts := Strings(given.value.items);
      return if parts == Some([]) then None else parts;
    }
    var command := StringField(input, "command");
    if command.None? { return None; }
    var args := Field(input, "args");
    var argv := if T.HasWhitespace(command.value) && args.None?
                then T.SplitWhitespace(command.value) else [command.value];
    if args.Some? && args.value.JArray? {
      var pushed := PushArguments(argv, args.value.items);
      if pushed.None? { return None; }
      argv := pushed.value;
    } else {
      assert argv + [] == argv;
    }
    return if argv == [] || "" in argv then None else Some(argv);
  }

  function FromInvocation(name: string, input: Json): Option<Rule> {
    if IsMcpTool(name) then Some(ToolRule(name))
    else if IsPathScoped(name) then
      match StringField(input, "path")
      case None => None
      case Some(path) => if path == "" then None else Some(PathRule(name, path))
    else if IsExecScoped(name) then
      match ExtractExecArgv(input)
      case None => None
      case Some(argv) => Some(ExecRule(argv))
    else None
  }

  predicate Matches(rule: Rule, name: string, input: Json) {
    match rule
    case PathRule(tool, path) =>
      && tool == name && StringField(input, "path").Some?
      && Paths.PathCovers(StringField(input, "path").value, path)
    case ToolRule(allowed) => allowed == name
    case ExecRule(prefix) =>
      IsExecScoped(name) && ExtractExecArgv(input).Some? && prefix <= ExtractExecArgv(input).value
  }

  predicate MatchesAny(rules: seq<Rule>, name: string, input: Json) {
    exists k :: 0 <= k < |rules| && Matches(rules[k], name, input)
  }

  predicate IsDenied(codec: Codec, deny: seq<string>, call: Call) {
    MatchesAny(ParseRules(codec, deny), call.name, call.input)
  }

  predicate IsAllowed(codec: Codec, allow: seq<string>, call: Call) {
    MatchesAny(ParseRules(codec, allow), call.name, call.input)
  }

  // tools_need_approval: some call is neither denied, nor auto-executed, nor allowed.
  predicate NeedsApproval(codec: Codec, cfg: Config, calls: seq<Call>) {
    exists k :: 0 <= k < |calls|
      && !IsDenied(codec, cfg.alwaysDeny, calls[k])
      && !cfg.autoExecute && !IsAllowed(codec, cfg.alwaysAllow, calls[k])
  }

  // ---------------------------------------------------------------- remembering

  function AddSpecs(specs: seq<string>, list: seq<string>): (r: seq<string>)
    ensures list <= r
    ensures forall s :: s in r <==> s in list || s in specs
    ensures (forall i, j :: 0 <= i < j < |list| ==> list[i] != list[j])
        ==> (forall i, j :: 0 <= i < j < |r| ==> r[i] != r[j])
    decreases |specs|
  {
    if specs == [] then list
    else AddSpecs(specs[1..], if specs[0] in list then list else list + [specs[0]])
  }

  function SpecsOf(codec: Codec, calls: seq<Call>): (specs: seq<string>)
    ensures forall c :: c in calls && FromInvocation(c.name, c.input).Some?
                    ==> ToSpec(codec, FromInvocation(c.name, c.input).value) in specs
  {
    if calls == [] then []
    else
      (match FromInvocation(calls[0].name, calls[0].input)
       case None => [] case Some(rule) => [ToSpec(codec, rule)])
      + SpecsOf(codec, calls[1..])
  }

  // persist_policy_rules on the value of the configuration.
  function Remember(codec: Codec, cfg: Config, calls: seq<Call>, allow: bool): Config {
    var specs := SpecsOf(codec, calls);
    if allow then cfg.(alwaysAllow := AddSpecs(specs, cfg.alwaysAllow))
    else cfg.(alwaysDeny := AddSpecs(specs, cfg.alwaysDeny))
  }

  // persist_policy_rules as it runs, on the live configuration.
  class LiveConfig {
    var tools: Config

    constructor (cfg: Config)
      ensures tools == cfg
    {
      tools := cfg;
    }

    method PersistPolicyRules(codec: Codec, pending: seq<Call>, allow: bool)
      modifies this
      ensures tools == Remember(codec, old(tools), pending, allow)
    {
      var specs := SpecsOf(codec, pending);
      if specs == [] { return; }
      var list := if allow then tools.alwaysAllow else tools.alwaysDeny;
      for i := 0 to |specs|
        invariant AddSpecs(specs[i..], list)
               == AddSpecs(specs, if allow then tools.alwaysAllow else tools.alwaysDeny)
        invariant tools == old(tools)
      {
        assert specs[i..][1..] == specs[i + 1..];
        if specs[i] !in list {
          list := list + [specs[i]];
        }
      }
      tools := if allow then tools.(alwaysAllow := list) else tools.(alwaysDeny := list);
    }
  }

  // ---------------------------------------------------------------- split_denied

  function Denied(codec: Codec, deny: seq<string>, calls: seq<Call>): seq<Call> {
    if calls == [] then []
    else (if IsDenied(codec, deny, calls[0]) then [calls[0]] else []) + Denied(codec, deny, calls[1..])
  }

  function Remaining(codec: Codec, deny: seq<string>, calls: seq<Call>): seq<Call> {
    if calls == [] then []
    else (if IsDenied(codec, deny, calls[0]) then [] else [calls[0]]) + Remaining(codec, deny, calls[1..])
  }

  lemma {:induction false} SplitPush(codec: Codec, deny: seq<string>, calls: seq<Call>, c: Call)
    ensures Denied(codec, deny, calls + [c])
         == Denied(codec, deny, calls) + (if IsDenied(codec, deny, c) then [c] else [])
    ensures Remaining(codec, deny, calls + [c])
         == Remaining(codec, deny, calls) + (if IsDenied(codec, deny, c) then [] else [c])
  {
    hide IsDenied;
    if calls == [] {
      assert [] + [c] == [c] && [c][1..] == [];
    } else {
      assert (calls + [c])[1..] == calls[1..] + [c];
      SplitPush(codec, deny, calls[1..], c);
    }
  }

  method SplitDenied(codec: Codec, deny: seq<string>, pending: seq<Call>)
    returns (denied: seq<Call>, remaining: seq<Call>)
    ensures denied == Denied(codec, deny, pending) && remaining == Remaining(codec, deny, pending)
    ensures multiset(denied) + multiset(remaining) == multiset(pending)
    ensures forall c :: c in denied ==> IsDenied(codec, deny, c)
    ensures forall c :: c in remaining ==> !IsDenied(codec, deny, c)
  {
    hide IsDenied;
    denied, remaining := [], [];
    for i := 0 to |pending|
      invariant denied == Denied(codec, deny, pending[..i]) && remaining == Remaining(codec, deny, pending[..i])
    {
      hide Denied, Remaining;
      assert pending[..i + 1] == pending[..i] + [pending[i]];
      SplitPush(codec, deny, pending[..i], pending[i]);
      if IsDenied(codec, deny, pending[i]) {
        denied := denied + [pending[i]];
      } else {
        remaining := remaining + [pending[i]];
      }
    }
    assert pending[..|pending|] == pending;
    SplitPartitions(codec, deny, pending);
  }

  // The split is a partition of the batch along the deny list, duplicates included.
  lemma {:induction false} SplitPartitions(codec: Codec, deny: seq<string>, calls: seq<Call>)
    ensures multiset(Denied(codec, deny, calls)) + multiset(Remaining(codec, deny, calls)) == multiset(calls)
    ensures forall c :: c in Denied(codec, deny, calls) ==> IsDenied(codec, deny, c)
    ensures forall c :: c in Remaining(codec, deny, calls) ==> !IsDenied(codec, deny, c)
  {
    hide IsDenied;
    if calls != [] {
      SplitPartitions(codec, deny, calls[1..]);
      assert calls == [calls[0]] + calls[1..];
    }
  }
}
