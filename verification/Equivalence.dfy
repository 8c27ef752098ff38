// The other direction: whatever the storage-reading loop does, the session alone can do.

module Equivalence {
  import opened Types
  import opened Session
  import opened Approval
  import opened Reference
  import opened Refinement
  import A = Accumulator

  // Steps the session takes on its own before the next answer of the environment.
  function Lag(pc: Pc): nat {
    match pc
    case Ready => 2
    case Entered => 1
    case Gate(_, _) => 3
    case Streaming(_, _, w) => WaitLag(w)
    case Executing(_, _, _, w) => WaitLag(w)
    case _ => 0
  }

  function WaitLag(w: Wait): nat {
    match w case Subscribing => 2 case Borrowing(_) => 1 case Woken(_) => 1 case Selecting(_) => 0
  }

  // One of those steps: nothing the other loop could see, and one step less to go.
  lemma Settles(env: Env, s: State, pc: Pc) returns (turn: Turn)
    requires Alone(env, s, pc) && Lag(pc) > 0
    ensures Move(env, s, pc, Go) == Some(turn)
    ensures PointOf(turn.pc) == PointOf(pc) && !Visible(turn.effect) && Lag(turn.pc) < Lag(pc)
  {
    hide Permissive, InStep, MoveReplied, MoveExecuting, Rejections, Meaningful, TextContent, A.Apply;
    if pc.Executing? { ExecutingSettles(s, pc.iter, pc.batch, pc.started, pc.wait); }
    turn := Move(env, s, pc, Go).value;
  }

  lemma ExecutingSettles(s: State, i: nat, b: Batch, started: bool, w: Wait)
    requires !s.cancel && WaitLag(w) > 0
    ensures var turn := MoveExecuting(s, i, b, started, w, Go);
      turn.Some? && turn.value.effect.Nothing? && turn.value.pc.Executing?
      && turn.value.pc == Executing(i, b, started, turn.value.pc.wait) && WaitLag(turn.value.pc.wait) < WaitLag(w)
  {}

  // Once settled, the session takes the other loop's stride, answer for answer; only a
  // failing read has no counterpart, the cache cannot fail.
  ghost predicate Matches(env: Env, s: State, pc: Pc, c: Choice, move: Option<Turn>)
    requires PointOf(pc).Some?
  {
    var stride := StrideFrom(env, s.stored, s.nextId, PointOf(pc).value, c);
    stride.Some? && !(pc.Reading? && c == Fail) ==>
      move.Some? && PointOf(move.value.pc) == Some(stride.value.at)
      && (if Visible(move.value.effect) then move.value.effect else Nothing) == stride.value.effect
  }

  lemma RunMatches(env: Env, s: State, pc: Pc, c: Choice)
    requires Alone(env, s, pc) && Lag(pc) == 0 && PhaseOf(pc) == InLoop && Ordered(s.stored)
    ensures Matches(env, s, pc, c, MoveRun(s, pc, c))
  {
    hide Ordered, GetMessages, Permissive;
    ReadsInsertionOrder(s.stored);
  }

  lemma ReplyMatches(env: Env, s: State, pc: Pc, c: Choice)
    requires Alone(env, s, pc) && Lag(pc) == 0 && PhaseOf(pc) == InReply
    ensures Matches(env, s, pc, c, MoveReply(env, s, pc, c))
  {
    hide MoveReplied, Meaningful, CallsOf, A.Apply, Permissive, InStep;
    match pc {
      case Replied(i, acc) =>
        if c == Go { RepliedMatches(env, s, i, acc); }
      case _ =>
    }
  }

  lemma RepliedMatches(env: Env, s: State, i: nat, acc: A.Acc)
    requires Permissive(env, s.cfg)
    ensures Matches(env, s, Replied(i, acc), Go, MoveReplied(env, s, i, acc))
  {
    hide CallsOf, MakeBatch, NeedsApproval, Permissive, Rejections;
    PermissiveBatch(env, s.cfg, CallsOf(acc.blocks));
  }

  lemma ToolsMatches(env: Env, s: State, pc: Pc, c: Choice)
    requires Alone(env, s, pc) && Lag(pc) == 0 && PhaseOf(pc) == InTools
    ensures Matches(env, s, pc, c, MoveTools(s, pc, c))
  {
    hide MoveExecuting, Permissive, InStep, Joined, Answers, Matches;
    match pc {
      case Executing(i, b, started, w) => ExecutingMatches(env, s, i, b, started, w, c);
      case _ => StoringMatches(env, s, pc, c);
    }
  }

  lemma StoringMatches(env: Env, s: State, pc: Pc, c: Choice)
    requires Plain(pc) && Lag(pc) == 0 && PhaseOf(pc) == InTools && !pc.Executing?
    ensures Matches(env, s, pc, c, MoveTools(s, pc, c))
  {
    hide MoveExecuting, CallsOf, GetMessages, Rejections, Answers, A.Apply, AssistantMessage;
  }

  lemma ExecutingMatches(env: Env, s: State, i: nat, b: Batch, started: bool, w: Wait, c: Choice)
    requires Whole(b) && w.Selecting?
    ensures Matches(env, s, Executing(i, b, started, w), c, MoveExecuting(s, i, b, started, w, c))
  {
    hide Joined, Answers;
    assert Rejections([], BLOCKED) == [];
    assert c.Results? ==> [] + Joined(c.results) == Joined(c.results);
  }

  lemma MovesMatch(env: Env, s: State, pc: Pc, c: Choice)
    requires Alone(env, s, pc) && Lag(pc) == 0 && Ordered(s.stored)
    ensures Matches(env, s, pc, c, Move(env, s, pc, c))
  {
    hide MoveRun, MoveReply, MovePrompt, MoveTools, MoveCommand, Matches, Ordered, Permissive;
    match PhaseOf(pc) {
      case InLoop => RunMatches(env, s, pc, c);
      case InReply => ReplyMatches(env, s, pc, c);
      case InTools => ToolsMatches(env, s, pc, c);
      case _ => assert false;
    }
  }

  // ---------------------------------------------------------------- runs

  lemma Stay(env: Env, s: State, t: nat, c: Choice, turn: Turn)
    requires t in s.tasks && Alone(env, s, s.tasks[t]) && Move(env, s, s.tasks[t], c) == Some(turn) && Ordered(s.stored)
    ensures Next(env, s, Step(t, c)) == Some(Advance(s, t, turn))
    ensures var s' := Next(env, s, Step(t, c)).value; t in s'.tasks && Alone(env, s', s'.tasks[t])
  {
    hide Move, Alone, Ordered;
    StepSimulates(env, s, t, c);
  }

  lemma SoloNone(env: Env, t: nat, s: State)
    ensures SoloRun(env, t, [s], [])
  {}

  lemma SoloPush(env: Env, t: nat, states: seq<State>, choices: seq<Choice>, c: Choice, s: State)
    requires SoloRun(env, t, states, choices) && Next(env, states[|choices|], Step(t, c)) == Some(s)
    ensures SoloRun(env, t, states + [s], choices + [c])
  {
    hide Next;
    var states', choices' := states + [s], choices + [c];
    forall k | 0 <= k < |choices'| ensures Next(env, states'[k], Step(t, choices'[k])) == Some(states'[k + 1]) {
      if k < |choices| { assert Next(env, states[k], Step(t, choices[k])) == Some(states[k + 1]); }
    }
  }

  // The end of a solo run stands for a state of the other loop.
  ghost predicate EndsAt(env: Env, t: nat, states: seq<State>, choices: seq<Choice>, m: LoopState) {
    && |states| == |choices| + 1 && SoloRun(env, t, states, choices)
    && (var s := states[|choices|];
        t in s.tasks && Alone(env, s, s.tasks[t]) && PointOf(s.tasks[t]).Some? && LoopOf(s, t) == m)
  }

  // One move, seen from the other loop.
  lemma MoveSeen(s: State, t: nat, turn: Turn)
    requires t in s.tasks && PointOf(s.tasks[t]).Some? && PointOf(turn.pc).Some?
    ensures var s', e := Advance(s, t, turn), turn.effect;
      LoopOf(s', t) == Stepped(LoopOf(s, t), Stride(PointOf(turn.pc).value, if Visible(e) then e else Nothing))
  {
    hide RequestsMade, ToolsRun, PointOf, Told;
    LogsAfter(s.log, t, turn.effect);
    assert RequestsMade(s.log, t) + [] == RequestsMade(s.log, t);
    assert ToolsRun(s.log, t) + [] == ToolsRun(s.log, t);
  }

  lemma {:induction false} Settle(env: Env, t: nat, states: seq<State>, choices: seq<Choice>, m: LoopState)
    returns (states': seq<State>, choices': seq<Choice>)
    requires EndsAt(env, t, states, choices, m) && Ordered(m.stored)
    ensures EndsAt(env, t, states', choices', m) && states <= states'
    ensures Lag(states'[|choices'|].tasks[t]) == 0
    decreases Lag(states[|choices|].tasks[t])
  {
    hide Next, Move, Alone, Ordered, SoloRun, RequestsMade, ToolsRun, PointOf;
    var s := states[|choices|];
    var pc := s.tasks[t];
    if Lag(pc) == 0 {
      states', choices' := states, choices;
    } else {
      var turn := Settles(env, s, pc);
      Stay(env, s, t, Go, turn);
      var s' := Advance(s, t, turn);
      MoveSeen(s, t, turn);
      SoloPush(env, t, states, choices, Go, s');
      assert LoopOf(s', t) == m;
      assert s'.tasks[t] == turn.pc;
      states', choices' := Settle(env, t, states + [s'], choices + [Go], m);
    }
  }

  // One stride of the other loop, matched.
  lemma StrideIsMatched(env: Env, t: nat, states: seq<State>, choices: seq<Choice>, m: LoopState, c: Choice)
    returns (states': seq<State>, choices': seq<Choice>)
    requires EndsAt(env, t, states, choices, m) && Ordered(m.stored)
    requires Forward(env, m, c).Some? && !(m.at.Fetching? && c == Fail)
    ensures EndsAt(env, t, states', choices', Forward(env, m, c).value) && states <= states'
  {
    hide Next, Move, Alone, Ordered, SoloRun, RequestsMade, ToolsRun, PointOf, StrideFrom;
    states', choices' := Settle(env, t, states, choices, m);
    var s := states'[|choices'|];
    var pc := s.tasks[t];
    MovesMatch(env, s, pc, c);
    FetchingIsReading(pc);
    var turn := Move(env, s, pc, c).value;
    Stay(env, s, t, c, turn);
    var s' := Advance(s, t, turn);
    MoveSeen(s, t, turn);
    SoloPush(env, t, states', choices', c, s');
    states', choices' := states' + [s'], choices' + [c];
  }

  lemma FetchingIsReading(pc: Pc)
    ensures pc.Reading? ==> PointOf(pc).Some? && PointOf(pc).value.Fetching?
  {}

  // No read of the history fails along the way.
  ghost predicate ReadsSucceed(env: Env, m: LoopState, chosen: seq<Choice>) {
    forall k :: 0 <= k < |chosen| && chosen[k] == Fail && Drive(env, m, chosen[..k]).Some? ==>
      !Drive(env, m, chosen[..k]).value.at.Fetching?
  }

  lemma {:induction false} DrivePrefix(env: Env, m: LoopState, chosen: seq<Choice>, k: nat)
    requires k <= |chosen| && Drive(env, m, chosen).Some?
    ensures Drive(env, m, chosen[..k]).Some?
    ensures Drive(env, m, chosen[..k]).value.stored <= Drive(env, m, chosen).value.stored
    decreases |chosen| - k
  {
    hide StrideFrom;
    if k == |chosen| {
      assert chosen[..k] == chosen;
    } else {
      DrivePrefix(env, m, chosen, k + 1);
      assert chosen[..k + 1][..k] == chosen[..k];
    }
  }

  // Any run of the storage-reading loop whose reads succeed and whose stamps never
  // decrease is a solo run of the session: same requests, same executions, same stored
  // history, same outcome.
  lemma {:induction false} ReferenceIsMatched(env: Env, s: State, t: nat, chosen: seq<Choice>)
    returns (states: seq<State>, choices: seq<Choice>)
    requires t in s.tasks && Alone(env, s, s.tasks[t]) && PointOf(s.tasks[t]).Some?
    requires Drive(env, LoopOf(s, t), chosen).Some? && ReadsSucceed(env, LoopOf(s, t), chosen)
    requires Ordered(Drive(env, LoopOf(s, t), chosen).value.stored)
    ensures EndsAt(env, t, states, choices, Drive(env, LoopOf(s, t), chosen).value)
    ensures states[0] == s
    decreases |chosen|
  {
    hide Next, Move, Alone, SoloRun, RequestsMade, ToolsRun, PointOf, StrideFrom, Ordered, Forward;
    if chosen == [] {
      states, choices := [s], [];
      SoloNone(env, t, s);
    } else {
      var n := |chosen| - 1;
      var m := LoopOf(s, t);
      DrivePrefix(env, m, chosen, n);
      OrderedPrefix(Drive(env, m, chosen[..n]).value.stored, Drive(env, m, chosen).value.stored);
      ReadsOfPrefix(env, m, chosen, n);
      var before, steps := ReferenceIsMatched(env, s, t, chosen[..n]);
      states, choices := StrideIsMatched(env, t, before, steps, Drive(env, m, chosen[..n]).value, chosen[n]);
    }
  }

  lemma ReadsOfPrefix(env: Env, m: LoopState, chosen: seq<Choice>, n: nat)
    requires n <= |chosen| && ReadsSucceed(env, m, chosen)
    ensures ReadsSucceed(env, m, chosen[..n])
  {
    hide Drive;
    forall k | 0 <= k < n && chosen[..n][k] == Fail && Drive(env, m, chosen[..n][..k]).Some?
      ensures !Drive(env, m, chosen[..n][..k]).value.at.Fetching?
    {
      assert chosen[..n][..k] == chosen[..k];
    }
  }
}
