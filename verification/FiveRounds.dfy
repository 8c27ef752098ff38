// The limit on rounds is reached: a model that asks for a tool in every reply gets five
// requests, and the sixth round fails the run.

module FiveRounds {
  import opened Types
  import opened Session
  import opened Approval
  import opened Cancellation
  import opened Windows
  import A = Accumulator

  // A reachable state, the flag down, whose only task stands at pc and has sent n requests.
  ghost predicate Counted(env: Env, s: State, pc: Pc, n: nat) { Calm(env, s, pc) && RequestsBy(s.log, 0) == n }

  lemma CountAfter(log: seq<Obs>, e: Effect)
    ensures RequestsBy(log + Told(0, e), 0) == RequestsBy(log, 0) + (if e.SendRequest? then 1 else 0)
  {
    var told := Told(0, e);
    if told == [] {
      assert log + told == log;
    } else {
      assert told == [told[0]];
      assert (log + told)[..|log|] == log;
    }
  }

  lemma Go2(env: Env, s: State, pc: Pc, c: Choice, turn: Turn, n: nat) returns (s': State)
    requires Counted(env, s, pc, n) && Move(env, s, pc, c) == Some(turn)
    requires !turn.effect.ApplyDecision? && !turn.effect.RaiseCancel?
    ensures s' == Advance(s, 0, turn)
    ensures Counted(env, s', turn.pc, if turn.effect.SendRequest? then n + 1 else n)
  {
    hide Move, Calm, RequestsBy, Told;
    s' := Go1(env, s, pc, c, turn);
    CountAfter(s.log, turn.effect);
  }

  lemma AskMoves(env: Env, s: State, n: nat, msgs: seq<Message>)
    ensures !s.cancel && n < 5 ==> Move(env, s, LoopTop(n), Go) == Some(Turn(Reading(n + 1), Nothing))
    ensures Move(env, s, Reading(n), Go) == Some(Turn(Requesting(n, s.cached), Nothing))
    ensures Move(env, s, Requesting(n, msgs), Go) == Some(Turn(Responding(n), SendRequest(msgs)))
    ensures Move(env, s, Responding(n), Go) == Some(Turn(Streaming(n, A.EMPTY, Subscribing), Nothing))
  {}

  lemma AskRound(env: Env, s: State, n: nat) returns (s': State)
    requires Counted(env, s, LoopTop(n), n) && n < 5
    ensures Counted(env, s', Streaming(n + 1, A.EMPTY, Subscribing), n + 1)
  {
    hide Counted, Move, Advance;
    IsCalm(env, s, LoopTop(n), n);
    var i := n + 1;
    AskMoves(env, s, n, []);
    s' := Go2(env, s, LoopTop(n), Go, Turn(Reading(i), Nothing), n);
    var msgs := s'.cached;
    AskMoves(env, s', i, msgs);
    s' := Go2(env, s', Reading(i), Go, Turn(Requesting(i, msgs), Nothing), n);
    AskMoves(env, s', i, msgs);
    s' := Go2(env, s', Requesting(i, msgs), Go, Turn(Responding(i), SendRequest(msgs)), n);
    AskMoves(env, s', i, msgs);
    s' := Go2(env, s', Responding(i), Go, Turn(Streaming(i, A.EMPTY, Subscribing), Nothing), i);
  }

  lemma IsCalm(env: Env, s: State, pc: Pc, n: nat)
    requires Counted(env, s, pc, n)
    ensures !s.cancel && s.cfg == FREE
  {}

  // The reply in which the model makes its call.
  const REPLY := A.Acc([ToolUse(CALL.id, CALL.name, CALL.input)], map[0 := ""], Some(ToolUseStop), ZERO_USAGE)

  const START := BlockStart(0, ToolUse(CALL.id, CALL.name, CALL.input))
  const STOP := MessageStop(ToolUseStop)

  lemma ReplyIs(env: Env)
    ensures A.Apply(env.parse, A.Apply(env.parse, A.EMPTY, START), STOP) == REPLY
    ensures CallsOf(REPLY.blocks) == [CALL]
  {
    assert REPLY.blocks[1..] == [];
    assert A.Apply(env.parse, A.EMPTY, START).blocks == REPLY.blocks;
  }

  // Subscribing and looking at the lowered flag, then an answer of the backend.
  lemma Hear(env: Env, s: State, i: nat, acc: A.Acc, c: Choice, pc: Pc, n: nat) returns (s': State)
    requires Counted(env, s, Streaming(i, acc, Subscribing), n)
    requires (c.Event? && pc == Streaming(i, A.Apply(env.parse, acc, c.ev), Subscribing))
             || (c == StreamEnd && pc == SavingReply(i, acc))
    ensures Counted(env, s', pc, n)
  {
    hide Counted, A.Apply, MoveRun, MovePrompt, MoveTools, MoveCommand;
    var v := s.version;
    s' := Go2(env, s, Streaming(i, acc, Subscribing), Go, Turn(Streaming(i, acc, Borrowing(v)), Nothing), n);
    IsCalm(env, s', Streaming(i, acc, Borrowing(v)), n);
    s' := Go2(env, s', Streaming(i, acc, Borrowing(v)), Go, Turn(Streaming(i, acc, Selecting(v)), Nothing), n);
    s' := Go2(env, s', Streaming(i, acc, Selecting(v)), c, Turn(pc, Nothing), n);
  }

  lemma HearReply(env: Env, s: State, i: nat, n: nat) returns (s': State)
    requires Counted(env, s, Streaming(i, A.EMPTY, Subscribing), n)
    ensures Counted(env, s', SavingReply(i, REPLY), n)
  {
    hide Counted, A.Apply;
    var acc := A.Apply(env.parse, A.EMPTY, START);
    ReplyIs(env);
    s' := Hear(env, s, i, A.EMPTY, Event(START), Streaming(i, acc, Subscribing), n);
    s' := Hear(env, s', i, acc, Event(STOP), Streaming(i, REPLY, Subscribing), n);
    s' := Hear(env, s', i, REPLY, StreamEnd, SavingReply(i, REPLY), n);
  }

  // A message is stored and pushed into the cache.
  lemma Keep(env: Env, s: State, pc: Pc, m: Message, r: Resume, n: nat) returns (s': State)
    requires Counted(env, s, pc, n)
    requires Move(env, s, pc, Row(s.nextId, 0)) == Some(Turn(Pushing(m, r), Insert(m)))
    ensures Counted(env, s', Resumed(r), n)
  {
    hide Counted, Move;
    s' := Go2(env, s, pc, Row(s.nextId, 0), Turn(Pushing(m, r), Insert(m)), n);
    PushedMove(env, s', m, r);
    s' := Go2(env, s', Pushing(m, r), Go, Turn(Resumed(r), Cache(m)), n);
  }

  lemma PushedMove(env: Env, s: State, m: Message, r: Resume)
    ensures Move(env, s, Pushing(m, r), Go) == Some(Turn(Resumed(r), Cache(m)))
  {}

  lemma SaveMove(env: Env, s: State, i: nat)
    ensures var m := AssistantMessage(s.nextId, 0, REPLY);
      Move(env, s, SavingReply(i, REPLY), Row(s.nextId, 0)) == Some(Turn(Pushing(m, AfterReply(i, REPLY)), Insert(m)))
  {
    hide TextContent;
  }

  lemma AnswerMove(env: Env, s: State, i: nat, rs: seq<ContentBlock>)
    ensures var m := ResultsMessage(s.nextId, 0, rs);
      Move(env, s, Answering(i, rs, Loop), Row(s.nextId, 0)) == Some(Turn(Pushing(m, NextRound(i)), Insert(m)))
  {}

  lemma GateMove(env: Env, s: State, i: nat)
    requires env.hasExecutor && s.cfg == FREE
    ensures var b := MakeBatch(env, FREE, [CALL]);
      Move(env, s, Replied(i, REPLY), Go) == Some(Turn(Gate(i, b), ReadPolicy(b, false)))
  {
    hide NeedsApproval, CallsOf, MakeBatch;
    ReplyIs(env);
    FreeBatch(env);
    BatchConfig(env, FREE, [CALL]);
  }

  // The tool runs and answers.
  lemma RunRound(env: Env, s: State, i: nat, b: Batch, n: nat) returns (s': State, rs: seq<ContentBlock>)
    requires Counted(env, s, Gate(i, b), n) && b.remaining == [CALL]
    ensures Counted(env, s', Answering(i, rs, Loop), n)
  {
    hide Counted, MoveRun, MoveReply, MovePrompt, MoveCommand, Rejections, Joined;
    IsCalm(env, s, Gate(i, b), n);
    var v := s.version;
    s' := Go2(env, s, Gate(i, b), Go, Turn(Executing(i, b, false, Subscribing), Nothing), n);
    s' := Go2(env, s', Executing(i, b, false, Subscribing), Go, Turn(Executing(i, b, false, Borrowing(v)), Nothing), n);
    s', rs := FinishRound(env, s', i, b, v, n);
  }

  lemma FinishRound(env: Env, s: State, i: nat, b: Batch, v: nat, n: nat) returns (s': State, rs: seq<ContentBlock>)
    requires Counted(env, s, Executing(i, b, false, Borrowing(v)), n) && b.remaining == [CALL]
    ensures Counted(env, s', Answering(i, rs, Loop), n)
  {
    hide Counted, MoveRun, MoveReply, MovePrompt, MoveCommand, Rejections, Joined;
    IsCalm(env, s, Executing(i, b, false, Borrowing(v)), n);
    var w := Selecting(v);
    s' := Go2(env, s, Executing(i, b, false, Borrowing(v)), Go, Turn(Executing(i, b, false, w), Nothing), n);
    s' := Go2(env, s', Executing(i, b, false, w), Go, Turn(Executing(i, b, true, w), StartTools([CALL])), n);
    var results := [Some(ToolResult(CALL.id, ["done"], None))];
    rs := Rejections(b.denied, BLOCKED) + Joined(results);
    s' := Go2(env, s', Executing(i, b, true, w), Results(results), Turn(Answering(i, rs, Loop), Nothing), n);
  }

  // One round, from the top of the loop to the top of the loop.
  lemma Round(env: Env, s: State, n: nat) returns (s': State)
    requires Counted(env, s, LoopTop(n), n) && n < 5 && env.hasExecutor
    ensures Counted(env, s', LoopTop(n + 1), n + 1)
  {
    hide Counted, Move, MakeBatch;
    var i := n + 1;
    s' := AskRound(env, s, n);
    s' := HearReply(env, s', i, i);
    SaveMove(env, s', i);
    s' := Keep(env, s', SavingReply(i, REPLY), AssistantMessage(s'.nextId, 0, REPLY), AfterReply(i, REPLY), i);
    IsCalm(env, s', Replied(i, REPLY), i);
    var b := MakeBatch(env, FREE, [CALL]);
    GateMove(env, s', i);
    FreeBatch(env);
    s' := Go2(env, s', Replied(i, REPLY), Go, Turn(Gate(i, b), ReadPolicy(b, false)), i);
    var rs;
    s', rs := RunRound(env, s', i, b, i);
    AnswerMove(env, s', i, rs);
    s' := Keep(env, s', Answering(i, rs, Loop), ResultsMessage(s'.nextId, 0, rs), NextRound(i), i);
  }

  lemma {:induction false} Rounds(env: Env, n: nat) returns (s: State)
    requires n <= 5 && env.hasExecutor
    ensures Counted(env, s, LoopTop(n), n)
  {
    hide Counted;
    if n == 0 {
      s := FirstRound(env);
    } else {
      s := Rounds(env, n - 1);
      s := Round(env, s, n - 1);
    }
  }

  lemma FirstRound(env: Env) returns (s: State)
    ensures Counted(env, s, LoopTop(0), 0)
  {
    hide Reachable, RequestsBy, Move, Told;
    var before := Entering(env);
    EnterMoves(env, before);
    s := Go0(env, before, Entered, Go, Turn(LoopTop(0), ClearCancel));
    CountAfter(before.log, ClearCancel);
    NothingAsked();
  }

  lemma EnterMoves(env: Env, s: State)
    ensures Move(env, s, Entered, Go) == Some(Turn(LoopTop(0), ClearCancel))
  {}

  lemma NothingAsked()
    ensures RequestsBy([Enter(0)], 0) == 0
  {
    assert [Enter(0)][..0] == [];
  }

  // Five requests are sent, and the run fails at its next look at the top of the loop.
  lemma FifthRequestIsTheLast(codec: Codec, parse: JsonParser) returns (s: State)
    ensures var env := Allowing(codec, parse);
      && Reachable(env, s) && 0 in s.tasks && RequestsBy(s.log, 0) == 5
      && Next(env, s, Step(0, Go)).Some? && Next(env, s, Step(0, Go)).value.tasks[0] == Closing(Failed)
  {
    hide Reachable, RequestsBy;
    s := Rounds(Allowing(codec, parse), 5);
  }
}
