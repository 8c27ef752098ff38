// What the translators promise the accumulator, and what translating and accumulating
// together make of a response however it was cut into chunks.

module Streaming {
  import opened Types
  import opened Translator

  // ---------------------------------------------------------------- grammar

  predicate StartAt(evs: seq<StreamEvent>, p: int, i: int) {
    0 <= p < |evs| && evs[p].BlockStart? && evs[p].index == i
  }

  predicate DeltaAt(evs: seq<StreamEvent>, p: int, i: int) {
    0 <= p < |evs| && evs[p].BlockDelta? && evs[p].index == i
  }

  predicate StopAt(evs: seq<StreamEvent>, p: int, i: int) {
    0 <= p < |evs| && evs[p].BlockStop? && evs[p].index == i
  }

  // Content only: starts are unique, deltas follow their start, nothing stops.
  ghost predicate Open(evs: seq<StreamEvent>, started: set<nat>) {
    && (forall p :: 0 <= p < |evs| ==> evs[p].BlockStart? || evs[p].BlockDelta? || evs[p].UsageReport?)
    && (forall p, q, i :: StartAt(evs, p, i) && StartAt(evs, q, i) ==> p == q)
    && (forall p, i :: DeltaAt(evs, p, i) ==> exists q :: q < p && StartAt(evs, q, i))
    && (forall i :: i in started <==> exists q :: StartAt(evs, q, i))
  }

  // Each index has exactly one start before all its deltas and exactly one stop after
  // them; stops ascend; the message ends once, after every stop.
  ghost predicate Grammatical(evs: seq<StreamEvent>) {
    && (forall p, q, i :: StartAt(evs, p, i) && StartAt(evs, q, i) ==> p == q)
    && (forall p, q, i :: StopAt(evs, p, i) && StopAt(evs, q, i) ==> p == q)
    && (forall p, i :: DeltaAt(evs, p, i) ==> exists q :: q < p && StartAt(evs, q, i))
    && (forall p, i :: StartAt(evs, p, i) ==> exists q :: p < q && StopAt(evs, q, i))
    && (forall p, i :: StopAt(evs, p, i) ==> exists q :: q < p && StartAt(evs, q, i))
    && (forall p, q, i, j :: DeltaAt(evs, p, i) && StopAt(evs, q, j) ==> p < q)
    && (forall p, q, i, j :: StopAt(evs, p, i) && StopAt(evs, q, j) && p < q ==> i < j)
    && (exists m :: 0 <= m < |evs| && evs[m].MessageStop?
          && (forall p :: 0 <= p < |evs| && evs[p].MessageStop? ==> p == m)
          && (forall p, i :: StopAt(evs, p, i) ==> p < m))
  }

  predicate Body(atoms: seq<Atom>) {
    forall k :: 0 <= k < |atoms| ==> !atoms[k].Finish? && !atoms[k].Done?
  }

  predicate UsageOnly(atoms: seq<Atom>) { forall k :: 0 <= k < |atoms| ==> atoms[k].Spent? }

  lemma {:induction false} BodyIsOpen(atoms: seq<Atom>)
    requires Body(atoms)
    ensures Open(Events(atoms), Started(atoms))
  {
    if atoms != [] {
      var front, last := atoms[..|atoms| - 1], atoms[|atoms| - 1];
      assert atoms == front + [last];
      BodyIsOpen(front);
      EventsStep(front, last);
      match last {
        case Spent(u) => StayOpen(Events(front), Started(front), UsageReport(u));
          assert Started(atoms) == Started(front);
        case TextPiece(text) =>
          OpenPiece(Events(front), Started(front), 0, BlockStart(0, Text("")), [BlockDelta(0, TextDelta(text))]);
        case CallPiece(i, id, name, args) =>
          OpenPiece(Events(front), Started(front), i, BlockStart(i, ToolUse(id, name, JObject(map[]))),
                    if args == "" then [] else [BlockDelta(i, InputDelta(args))]);
      }
    }
  }

  lemma StayOpen(evs: seq<StreamEvent>, started: set<nat>, ev: StreamEvent)
    requires Open(evs, started)
    requires ev.UsageReport? || (ev.BlockDelta? && ev.index in started)
    ensures Open(evs + [ev], started)
  {
    var all := evs + [ev];
    assert forall p, i :: StartAt(all, p, i) <==> StartAt(evs, p, i);
    forall p, i | DeltaAt(all, p, i) ensures exists q :: q < p && StartAt(all, q, i) {
      if p < |evs| {
        assert DeltaAt(evs, p, i);
        var q :| q < p && StartAt(evs, q, i);
        assert StartAt(all, q, i);
      } else {
        var q :| StartAt(evs, q, i);
        assert StartAt(all, q, i);
      }
    }
    forall i ensures i in started <==> exists q :: StartAt(all, q, i) {
      if i in started {
        var q :| StartAt(evs, q, i);
        assert StartAt(all, q, i);
      }
    }
  }

  lemma OpenStart(evs: seq<StreamEvent>, started: set<nat>, ev: StreamEvent)
    requires Open(evs, started) && ev.BlockStart? && ev.index !in started
    ensures Open(evs + [ev], started + {ev.index})
  {
    var all := evs + [ev];
    assert forall p, i :: StartAt(all, p, i) <==> StartAt(evs, p, i) || (p == |evs| && i == ev.index);
    forall p, i | DeltaAt(all, p, i) ensures exists q :: q < p && StartAt(all, q, i) {
      assert DeltaAt(evs, p, i);
      var q :| q < p && StartAt(evs, q, i);
      assert StartAt(all, q, i);
    }
    forall i ensures i in started + {ev.index} <==> exists q :: StartAt(all, q, i) {
      if i in started {
        var q :| StartAt(evs, q, i);
        assert StartAt(all, q, i);
      } else if i == ev.index {
        assert StartAt(all, |evs|, i);
      }
    }
  }

  lemma OpenPiece(evs: seq<StreamEvent>, started: set<nat>, i: nat, start: StreamEvent, deltas: seq<StreamEvent>)
    requires Open(evs, started)
    requires start.BlockStart? && start.index == i
    requires |deltas| <= 1 && (deltas != [] ==> deltas[0].BlockDelta? && deltas[0].index == i)
    ensures Open(evs + ((if i in started then [] else [start]) + deltas), started + {i})
  {
    hide Open;
    var head := if i in started then [] else [start];
    if i in started {
      assert started + {i} == started && evs + head == evs;
    } else {
      OpenStart(evs, started, start);
    }
    if deltas == [] {
      assert head + deltas == head;
    } else {
      StayOpen(evs + head, started + {i}, deltas[0]);
      assert evs + head + [deltas[0]] == evs + (head + deltas);
    }
  }

  lemma {:induction false} UsageEvents(atoms: seq<Atom>, tail: seq<Atom>) returns (u: seq<StreamEvent>)
    requires UsageOnly(tail)
    ensures Events(atoms + tail) == Events(atoms) + u
    ensures forall k :: 0 <= k < |u| ==> u[k].UsageReport?
    decreases |tail|
  {
    hide Events, Started, Emit;
    if tail == [] {
      assert atoms + tail == atoms;
      u := [];
      assert Events(atoms) + u == Events(atoms);
    } else {
      var front, last := tail[..|tail| - 1], tail[|tail| - 1];
      var u0 := UsageEvents(atoms, front);
      var before := Events(atoms);
      assert atoms + tail == (atoms + front) + [last];
      EventsStep(atoms + front, last);
      SpentEmits(Started(atoms + front), last);
      u := u0 + [UsageReport(last.usage)];
      assert (before + u0) + [UsageReport(last.usage)] == before + u;
    }
  }

  lemma SpentEmits(started: set<nat>, atom: Atom)
    requires atom.Spent?
    ensures Emit(started, atom) == [UsageReport(atom.usage)]
  {}

  lemma OpenIsContent(evs: seq<StreamEvent>, started: set<nat>)
    requires Open(evs, started)
    ensures forall p :: 0 <= p < |evs| ==> evs[p].BlockStart? || evs[p].BlockDelta? || evs[p].UsageReport?
  {}

  // What a finish emits after the stops.
  ghost function Ending(started: set<nat>, finish: Atom): (r: seq<StreamEvent>)
    requires finish.Finish? || finish.Done?
    ensures 1 <= |r| <= 2 && r[|r| - 1].MessageStop? && (|r| == 2 ==> r[0].UsageReport?)
    ensures Emit(started, finish) == Stops(Ascending(started)) + r
  {
    if finish.Finish? then [MessageStop(finish.reason)]
    else
      [UsageReport(finish.usage),
       MessageStop(if exists i :: i in started && i > 0 then ToolUseStop else EndTurn)]
  }

  // The grammar of every well-ended provider stream: some content, one finish, and at
  // most usage reports after it.
  lemma TranslatedIsGrammatical(body: seq<Atom>, finish: Atom, tail: seq<Atom>)
    requires Body(body) && (finish.Finish? || finish.Done?) && UsageOnly(tail)
    ensures Grammatical(Events(body + [finish] + tail))
  {
    hide Open, Grammatical, Events, Started, StrictlyAscending, Emit, Ending, Closed, Stops;
    BodyIsOpen(body);
    EventsStep(body, finish);
    var u := UsageEvents(body + [finish], tail);
    var evs, started := Events(body), Started(body);
    var ending := Ending(started, finish);
    OpenIsContent(evs, started);
    ClosedLayout(evs, Ascending(started), ending, u);
    var all := evs + Stops(Ascending(started)) + ending + u;
    CloseGrammar(all, evs, started, Ascending(started), |evs| + |Ascending(started)| + |ending| - 1);
    assert evs + (Stops(Ascending(started)) + ending) + u == all;
  }

  // The layout of a closed stream: the content as it was, then the stops, then the end.
  ghost predicate Closed(all: seq<StreamEvent>, evs: seq<StreamEvent>, indices: seq<nat>, m: int) {
    && |evs| + |indices| <= m < |all| && all[m].MessageStop?
    && (forall p :: 0 <= p < |all| && all[p].MessageStop? ==> p == m)
    && (forall p, i :: StartAt(all, p, i) <==> StartAt(evs, p, i))
    && (forall p, i :: DeltaAt(all, p, i) <==> DeltaAt(evs, p, i))
    && (forall p, i :: StopAt(all, p, i) ==> |evs| <= p < |evs| + |indices| && indices[p - |evs|] == i)
    && (forall k :: 0 <= k < |indices| ==> StopAt(all, |evs| + k, indices[k]))
  }

  lemma ClosedLayout(evs: seq<StreamEvent>, indices: seq<nat>, ending: seq<StreamEvent>, tail: seq<StreamEvent>)
    requires forall p :: 0 <= p < |evs| ==> evs[p].BlockStart? || evs[p].BlockDelta? || evs[p].UsageReport?
    requires 1 <= |ending| <= 2 && ending[|ending| - 1].MessageStop?
    requires |ending| == 2 ==> ending[0].UsageReport?
    requires forall k :: 0 <= k < |tail| ==> tail[k].UsageReport?
    ensures Closed(evs + Stops(indices) + ending + tail, evs, indices, |evs| + |indices| + |ending| - 1)
  {
    var all := evs + Stops(indices) + ending + tail;
    var n, s := |evs|, |indices|;
    assert forall p :: 0 <= p < n ==> all[p] == evs[p];
    assert forall p :: n <= p < n + s ==> all[p] == BlockStop(indices[p - n]);
    assert forall p :: n + s <= p < n + s + |ending| ==> all[p] == ending[p - n - s];
    assert forall p :: n + s + |ending| <= p < |all| ==> all[p].UsageReport?;
  }

  lemma CloseGrammar(all: seq<StreamEvent>, evs: seq<StreamEvent>, started: set<nat>, indices: seq<nat>, m: int)
    requires Open(evs, started) && Closed(all, evs, indices, m)
    requires StrictlyAscending(indices) && forall x :: x in indices <==> x in started
    ensures Grammatical(all)
  {
    hide StartAt, DeltaAt, StopAt;
    var n := |evs|;
    assert forall p, i :: DeltaAt(evs, p, i) ==> p < n by { PositionsBelow(evs); }
    forall p, i | StartAt(all, p, i) ensures exists q :: p < q && StopAt(all, q, i) {
      PositionsBelow(evs);
      assert StartAt(evs, p, i);
      assert i in started;
      var k :| 0 <= k < |indices| && indices[k] == i;
      assert StopAt(all, n + k, indices[k]);
    }
    forall p, i | StopAt(all, p, i) ensures exists q :: q < p && StartAt(all, q, i) {
      PositionsBelow(evs);
      assert indices[p - n] in started;
      var q :| StartAt(evs, q, i);
      assert StartAt(all, q, i);
    }
  }

  lemma PositionsBelow(evs: seq<StreamEvent>)
    ensures forall p, i :: DeltaAt(evs, p, i) ==> 0 <= p < |evs|
    ensures forall p, i :: StartAt(evs, p, i) ==> 0 <= p < |evs| && i >= 0
  {}
}
