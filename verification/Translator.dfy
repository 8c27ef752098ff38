// The streaming translators (clareon-core/src/backend/openai.rs, openrouter.rs and
// ollama.rs): provider chunks in, stream events out, with the set of started block
// indices as the only state.

module Translator {
  import opened Types
  import T = Text

  // ---------------------------------------------------------------- provider chunks

  datatype FinishReason = Stop | ToolCalls | Length | ContentFilter | FunctionCall | Failure

  // OpenAI always numbers its tool calls; OpenRouter may leave the number out.
  datatype ToolChunk = ToolChunk(
    index: Option<nat>, id: Option<string>, name: Option<string>, arguments: Option<string>)

  datatype Choice = Choice(content: Option<string>, toolCalls: seq<ToolChunk>, finish: Option<FinishReason>)

  datatype Chunk = Chunk(usage: Option<Usage>, choices: seq<Choice>)

  // A chunk of Ollama's stream: its tool calls are complete.
  datatype OllamaCall = OllamaCall(name: string, arguments: string)
  datatype OllamaChunk = OllamaChunk(content: string, calls: seq<OllamaCall>, done: Option<Usage>)

  function StopReasonOf(f: FinishReason): StopReason {
    match f
    case Stop => EndTurn
    case ToolCalls => ToolUseStop
    case Length => MaxTokens
    case ContentFilter => EndTurn
    case FunctionCall => ToolUseStop
    case Failure => EndTurn
  }

  // ---------------------------------------------------------------- atoms

  // What one chunk consists of, in the order the translators look at it. `CallPiece`
  // carries the block index (tool index plus one).
  datatype Atom =
    | Spent(usage: Usage)
    | TextPiece(text: string)
    | CallPiece(index: nat, id: string, name: string, arguments: string)
    | Finish(reason: StopReason)
    | Done(usage: Usage)

  function GetOr<X>(o: Option<X>, default: X): X { if o.Some? then o.value else default }

  function CallAtom(tc: ToolChunk): Atom {
    var i := GetOr(tc.index, 0) + 1;
    CallPiece(i, GetOr(tc.id, "tool_" + T.Decimal(i)), GetOr(tc.name, ""), GetOr(tc.arguments, ""))
  }

  function CallAtoms(tcs: seq<ToolChunk>): seq<Atom> {
    seq(|tcs|, k requires 0 <= k < |tcs| => CallAtom(tcs[k]))
  }

  function ChoiceAtoms(c: Choice): seq<Atom> {
    (if c.content.Some? then [TextPiece(c.content.value)] else [])
    + CallAtoms(c.toolCalls)
    + (if c.finish.Some? then [Finish(StopReasonOf(c.finish.value))] else [])
  }

  function ChoicesAtoms(cs: seq<Choice>): seq<Atom> {
    if cs == [] then [] else ChoicesAtoms(cs[..|cs| - 1]) + ChoiceAtoms(cs[|cs| - 1])
  }

  function Atoms(chunk: Chunk): seq<Atom> {
    (if chunk.usage.Some? then [Spent(chunk.usage.value)] else []) + ChoicesAtoms(chunk.choices)
  }

  function OllamaCallAtoms(calls: seq<OllamaCall>): seq<Atom> {
    seq(|calls|, k requires 0 <= k < |calls| =>
      CallPiece(k + 1, "call_" + T.Decimal(k), calls[k].name, calls[k].arguments))
  }

  function OllamaAtoms(chunk: OllamaChunk): seq<Atom> {
    (if chunk.content != "" then [TextPiece(chunk.content)] else [])
    + OllamaCallAtoms(chunk.calls)
    + (if chunk.done.Some? then [Done(chunk.done.value)] else [])
  }

  // ---------------------------------------------------------------- events

  ghost predicate StrictlyAscending(s: seq<nat>) { forall i, j :: 0 <= i < j < |s| ==> s[i] < s[j] }

  predicate IsMax(m: nat, s: set<nat>) { m in s && forall x :: x in s ==> x <= m }

  lemma HasMax(s: set<nat>)
    requires s != {}
    ensures exists m :: IsMax(m, s)
  {
    var m :| m in s;
    var rest := s - {m};
    assert forall x :: x in s ==> x == m || x in rest;
    if rest == {} {
      assert IsMax(m, s);
    } else {
      HasMax(rest);
      var m' :| IsMax(m', rest);
      assert IsMax(if m < m' then m' else m, s);
    }
  }

  ghost function Max(s: set<nat>): (m: nat)
    requires s != {}
    ensures IsMax(m, s)
  {
    HasMax(s);
    var m :| IsMax(m, s);
    m
  }

  ghost function Ascending(s: set<nat>): (r: seq<nat>)
    ensures StrictlyAscending(r)
    ensures forall x :: x in r <==> x in s
    decreases |s|
  {
    if s == {} then [] else Ascending(s - {Max(s)}) + [Max(s)]
  }

  lemma AscendingStep(s: set<nat>, m: nat, r: seq<nat>)
    requires IsMax(m, s)
    ensures Ascending(s) + r == Ascending(s - {m}) + ([m] + r)
  {
    assert Max(s) == m;
  }

  method SortedIndices(s: set<nat>) returns (r: seq<nat>)
    ensures r == Ascending(s)
  {
    var rest := s;
    r := [];
    while rest != {}
      invariant Ascending(rest) + r == Ascending(s)
      decreases |rest|
    {
      HasMax(rest);
      var m: nat :| m in rest && IsMax(m, rest);
      AscendingStep(rest, m, r);
      r := [m] + r;
      rest := rest - {m};
    }
    assert [] + r == r;
  }

  function Stops(indices: seq<nat>): seq<StreamEvent> {
    seq(|indices|, k requires 0 <= k < |indices| => BlockStop(indices[k]))
  }

  // The indices a list of atoms has started.
  function Started(atoms: seq<Atom>): set<nat> {
    if atoms == [] then {}
    else
      var last := atoms[|atoms| - 1];
      Started(atoms[..|atoms| - 1])
      + (match last case TextPiece(_) => {0} case CallPiece(i, _, _, _) => {i} case _ => {})
  }

  ghost function Emit(started: set<nat>, atom: Atom): seq<StreamEvent> {
    match atom
    case Spent(u) => [UsageReport(u)]
    case TextPiece(text) =>
      (if 0 in started then [] else [BlockStart(0, Text(""))]) + [BlockDelta(0, TextDelta(text))]
    case CallPiece(i, id, name, args) =>
      (if i in started then [] else [BlockStart(i, ToolUse(id, name, JObject(map[])))])
      + (if args == "" then [] else [BlockDelta(i, InputDelta(args))])
    case Finish(reason) => Stops(Ascending(started)) + [MessageStop(reason)]
    case Done(u) =>
      Stops(Ascending(started)) + [UsageReport(u)]
      + [MessageStop(if exists i :: i in started && i > 0 then ToolUseStop else EndTurn)]
  }

  ghost function Events(atoms: seq<Atom>): seq<StreamEvent> {
    if atoms == [] then []
    else
      var front := atoms[..|atoms| - 1];
      Events(front) + Emit(Started(front), atoms[|atoms| - 1])
  }

  lemma EventsStep(front: seq<Atom>, last: Atom)
    ensures Events(front + [last]) == Events(front) + Emit(Started(front), last)
    ensures Started(front + [last]) == Started(front)
      + (match last case TextPiece(_) => {0} case CallPiece(i, _, _, _) => {i} case _ => {})
  {
    assert (front + [last])[..|front|] == front;
  }

  // ---------------------------------------------------------------- as it runs

  // The closure behind the mapped stream of OpenAI, of OpenRouter and of Ollama.
  class Closure {
    var started: set<nat>
    ghost var consumed: seq<Atom>

    ghost predicate Valid() reads this { started == Started(consumed) }

    constructor ()
      ensures Valid() && consumed == []
    {
      started, consumed := {}, [];
    }

    method Step(atom: Atom) returns (events: seq<StreamEvent>)
      requires Valid()
      modifies this
      ensures Valid() && consumed == old(consumed) + [atom]
      ensures Events(consumed) == Events(old(consumed)) + events
    {
      EventsStep(consumed, atom);
      events := [];
      match atom {
        case Spent(u) =>
          events := [UsageReport(u)];
        case TextPiece(text) =>
          if 0 !in started {
            started := started + {0};
            events := [BlockStart(0, Text(""))];
          }
          events := events + [BlockDelta(0, TextDelta(text))];
        case CallPiece(index, id, name, args) =>
          if index !in started {
            started := started + {index};
            events := [BlockStart(index, ToolUse(id, name, JObject(map[])))];
          }
          if args != "" {
            events := events + [BlockDelta(index, InputDelta(args))];
          }
        case Finish(reason) =>
          var indices := SortedIndices(started);
          events := Stops(indices) + [MessageStop(reason)];
        case Done(u) =>
          var indices := SortedIndices(started);
          var anyToolCalls := exists i :: i in started && i > 0;
          events := Stops(indices) + [UsageReport(u)] + [MessageStop(if anyToolCalls then ToolUseStop else EndTurn)];
      }
      consumed := consumed + [atom];
    }

    method OnAtoms(atoms: seq<Atom>) returns (events: seq<StreamEvent>)
      requires Valid()
      modifies this
      ensures Valid() && consumed == old(consumed) + atoms
      ensures Events(consumed) == Events(old(consumed)) + events
    {
      hide Events, Started;
      events := [];
      assert consumed + [] == consumed;
      for i := 0 to |atoms|
        invariant Valid() && consumed == old(consumed) + atoms[..i]
        invariant Events(consumed) == Events(old(consumed)) + events
      {
        var more := Step(atoms[i]);
        events := events + more;
        assert atoms[..i + 1] == atoms[..i] + [atoms[i]];
        assert old(consumed) + atoms[..i] + [atoms[i]] == old(consumed) + atoms[..i + 1];
      }
      assert atoms[..|atoms|] == atoms;
    }

    method OnChunk(chunk: Chunk) returns (events: seq<StreamEvent>)
      requires Valid()
      modifies this
      ensures Valid() && consumed == old(consumed) + Atoms(chunk)
      ensures Events(consumed) == Events(old(consumed)) + events
    {
      hide Events, Started, ChoiceAtoms;
      events := [];
      if chunk.usage.Some? {
        events := Step(Spent(chunk.usage.value));
      }
      ghost var head := if chunk.usage.Some? then [Spent(chunk.usage.value)] else [];
      assert chunk.choices[..0] == [];
      for i := 0 to |chunk.choices|
        invariant Valid() && consumed == old(consumed) + (head + ChoicesAtoms(chunk.choices[..i]))
        invariant Events(consumed) == Events(old(consumed)) + events
      {
        var more := OnAtoms(ChoiceAtoms(chunk.choices[i]));
        events := events + more;
        assert chunk.choices[..i + 1][..i] == chunk.choices[..i];
        assert head + ChoicesAtoms(chunk.choices[..i]) + ChoiceAtoms(chunk.choices[i])
            == head + ChoicesAtoms(chunk.choices[..i + 1]);
      }
      assert chunk.choices[..|chunk.choices|] == chunk.choices;
    }

    method OnOllamaChunk(chunk: OllamaChunk) returns (events: seq<StreamEvent>)
      requires Valid()
      modifies this
      ensures Valid() && consumed == old(consumed) + OllamaAtoms(chunk)
      ensures Events(consumed) == Events(old(consumed)) + events
    {
      hide Events, Started;
      events := OnAtoms(OllamaAtoms(chunk));
    }
  }
}
