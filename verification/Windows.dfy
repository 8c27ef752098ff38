// Executions that end where a reader would not expect one to: two in which a stop does
// less than it should, one whose next request the provider cannot accept, and two after
// which the cache is not the stored history.

module Windows {
  import opened Types
  import opened Session
  import opened Approval
  import Pairing
  import opened Runs
  import A = Accumulator
  import W = Wire

  const FREE := Config(true, [], [])

  const CALL := Call("call_1", "run", JNull)

  function Allowing(codec: Codec, parse: JsonParser): Env { Env(codec, parse, true) }

  const FRESH_SESSION :=
    State(map[], false, false, 0, None, 0, map[], [], FREE, 0, [], [], [])

  lemma StartIsReachable(env: Env)
    ensures Reachable(env, FRESH_SESSION)
  {
    assert Execution(env, [FRESH_SESSION], []);
  }

  // A reachable state whose only task stands at pc.
  ghost predicate Alone(env: Env, s: State, pc: Pc) {
    Reachable(env, s) && s.tasks == map[0 := pc] && s.cfg == FREE && s.nextId <= 0
  }

  lemma Go0(env: Env, s: State, pc: Pc, c: Choice, turn: Turn) returns (s': State)
    requires Alone(env, s, pc) && Move(env, s, pc, c) == Some(turn)
    requires !turn.effect.ApplyDecision? && !turn.effect.Insert?
    ensures s' == Advance(s, 0, turn) && Alone(env, s', turn.pc)
  {
    hide Move, Reachable;
    s' := Advance(s, 0, turn);
    ReachNext(env, s, Step(0, c), s');
  }

  lemma Entering(env: Env) returns (s: State)
    ensures Alone(env, s, Entered) && !s.cancel && s.cached == [] && s.log == [Enter(0)]
  {
    hide Reachable;
    StartIsReachable(env);
    var s1 := FRESH_SESSION.(tasks := map[0 := Ready]);
    ReachNext(env, FRESH_SESSION, Spawn(0, Ready), s1);
    s := Go0(env, s1, Ready, Go, Turn(Entered, RaiseFlag));
  }

  lemma Asking(env: Env) returns (s: State)
    ensures Alone(env, s, Streaming(1, A.EMPTY, Subscribing)) && !s.cancel && s.cached == []
  {
    hide Reachable;
    s := Entering(env);
    s := Go0(env, s, Entered, Go, Turn(LoopTop(0), ClearCancel));
    s := Go0(env, s, LoopTop(0), Go, Turn(Reading(1), Nothing));
    var msgs := s.cached;
    s := Go0(env, s, Reading(1), Go, Turn(Requesting(1, msgs), Nothing));
    s := Go0(env, s, Requesting(1, msgs), Go, Turn(Responding(1), SendRequest(msgs)));
    s := Go0(env, s, Responding(1), Go, Turn(Streaming(1, A.EMPTY, Subscribing), Nothing));
  }

  // Subscribing and looking at the lowered flag, then one event.
  lemma Receiving(env: Env, s: State, acc: A.Acc, ev: StreamEvent) returns (s': State)
    requires Alone(env, s, Streaming(1, acc, Subscribing)) && !s.cancel
    ensures Alone(env, s', Streaming(1, A.Apply(env.parse, acc, ev), Subscribing)) && !s'.cancel
    ensures s'.cached == s.cached
  {
    hide Reachable, A.Apply;
    var v := s.version;
    s' := Go0(env, s, Streaming(1, acc, Subscribing), Go, Turn(Streaming(1, acc, Borrowing(v)), Nothing));
    s' := Go0(env, s', Streaming(1, acc, Borrowing(v)), Go, Turn(Streaming(1, acc, Selecting(v)), Nothing));
    s' := Go0(env, s', Streaming(1, acc, Selecting(v)), Event(ev),
              Turn(Streaming(1, A.Apply(env.parse, acc, ev), Subscribing), Nothing));
  }

  lemma Ending(env: Env, s: State, acc: A.Acc) returns (s': State)
    requires Alone(env, s, Streaming(1, acc, Subscribing)) && !s.cancel
    ensures Alone(env, s', SavingReply(1, acc)) && !s'.cancel && s'.cached == s.cached
  {
    hide Reachable;
    var v := s.version;
    s' := Go0(env, s, Streaming(1, acc, Subscribing), Go, Turn(Streaming(1, acc, Borrowing(v)), Nothing));
    s' := Go0(env, s', Streaming(1, acc, Borrowing(v)), Go, Turn(Streaming(1, acc, Selecting(v)), Nothing));
    s' := Go0(env, s', Streaming(1, acc, Selecting(v)), StreamEnd, Turn(SavingReply(1, acc), Nothing));
  }

  // A reachable state, the flag down, whose only task stands at pc.
  ghost predicate Calm(env: Env, s: State, pc: Pc) {
    Reachable(env, s) && s.tasks == map[0 := pc] && s.cfg == FREE && !s.cancel
  }

  lemma Go1(env: Env, s: State, pc: Pc, c: Choice, turn: Turn) returns (s': State)
    requires Calm(env, s, pc) && Move(env, s, pc, c) == Some(turn)
    requires !turn.effect.ApplyDecision? && !turn.effect.RaiseCancel?
    ensures s' == Advance(s, 0, turn) && Calm(env, s', turn.pc)
    ensures !turn.effect.ClearCancel? ==> s'.version == s.version
  {
    hide Move, Reachable;
    s' := Advance(s, 0, turn);
    ReachNext(env, s, Step(0, c), s');
  }

  lemma Storing(env: Env, s: State, acc: A.Acc) returns (s': State)
    requires Alone(env, s, SavingReply(1, acc)) && !s.cancel
    ensures Calm(env, s', Replied(1, acc)) && s'.cached == s.cached + [AssistantMessage(0, 0, acc)]
  {
    hide Reachable;
    var m := AssistantMessage(0, 0, acc);
    s' := Go1(env, s, SavingReply(1, acc), Row(0, 0), Turn(Pushing(m, AfterReply(1, acc)), Insert(m)));
    s' := Go1(env, s', Pushing(m, AfterReply(1, acc)), Go, Turn(Replied(1, acc), Cache(m)));
  }

  lemma FreeBatch(env: Env)
    ensures var b := MakeBatch(env, FREE, [CALL]);
      b.remaining == [CALL] && b.denied == [] && !NeedsApproval(env.codec, FREE, [CALL])
  {
    var deny: seq<string> := [];
    assert ParseRules(env.codec, deny) == [];
    assert !IsDenied(env.codec, deny, CALL);
    hide IsDenied, IsAllowed;
    var none := [CALL][1..];
    assert none == [];
    assert Remaining(env.codec, deny, none) == [] && Denied(env.codec, deny, none) == [];
    assert Remaining(env.codec, deny, [CALL]) == [CALL] + [];
    assert Denied(env.codec, deny, [CALL]) == [];
    assert FREE.alwaysDeny == deny;
  }

  lemma Gating(env: Env, s: State, acc: A.Acc) returns (s': State, b: Batch)
    requires Calm(env, s, Replied(1, acc))
    requires env.hasExecutor && acc.stop == Some(ToolUseStop) && CallsOf(acc.blocks) == [CALL]
    ensures Calm(env, s', Gate(1, b)) && b.remaining == [CALL] && s'.cached == s.cached
  {
    hide Reachable, NeedsApproval, CallsOf, MakeBatch;
    b := MakeBatch(env, FREE, [CALL]);
    FreeBatch(env);
    BatchConfig(env, FREE, [CALL]);
    s' := Go1(env, s, Replied(1, acc), Go, Turn(Gate(1, b), ReadPolicy(b, false)));
  }

  // From the gate to the select in which the tools are about to start.
  lemma AboutToRun(env: Env, s: State, b: Batch) returns (s': State)
    requires Calm(env, s, Gate(1, b))
    ensures Calm(env, s', Executing(1, b, false, Selecting(s'.version))) && s'.cached == s.cached
  {
    hide Reachable, Rejections;
    var v := s.version;
    s' := Go1(env, s, Gate(1, b), Go, Turn(Executing(1, b, false, Subscribing), Nothing));
    s' := Go1(env, s', Executing(1, b, false, Subscribing), Go, Turn(Executing(1, b, false, Borrowing(v)), Nothing));
    s' := Go1(env, s', Executing(1, b, false, Borrowing(v)), Go, Turn(Executing(1, b, false, Selecting(v)), Nothing));
  }

  lemma BatchConfig(env: Env, cfg: Config, calls: seq<Call>)
    ensures MakeBatch(env, cfg, calls).cfg == cfg
  {}

  // The model has answered with one call, and its reply ends.
  lemma Calling(env: Env) returns (s: State, acc: A.Acc)
    requires env.hasExecutor
    ensures Alone(env, s, Streaming(1, acc, Subscribing)) && !s.cancel && s.cached == []
    ensures acc.stop == Some(ToolUseStop) && CallsOf(acc.blocks) == [CALL]
  {
    hide Reachable;
    s := Asking(env);
    var start, stop := BlockStart(0, ToolUse(CALL.id, CALL.name, CALL.input)), MessageStop(ToolUseStop);
    s := Receiving(env, s, A.EMPTY, start);
    var acc1 := A.Apply(env.parse, A.EMPTY, start);
    s := Receiving(env, s, acc1, stop);
    acc := A.Apply(env.parse, acc1, stop);
    hide Alone;
    assert acc.blocks == [ToolUse(CALL.id, CALL.name, CALL.input)];
    assert acc.blocks[1..] == [] && CallsOf(acc.blocks) == [CALL];
  }

  // A stop between the last look at the flag and the first poll of the tools does not
  // keep them from starting: here they start with the flag up.
  lemma ToolsCanStartUnderStop(codec: Codec, parse: JsonParser) returns (s: State)
    ensures var env := Allowing(codec, parse);
      && Reachable(env, s) && s.cancel
      && Next(env, s, Step(0, Go)).Some?
      && Next(env, s, Step(0, Go)).value.log == s.log + [ToolsStarted(0, [CALL])]
  {
    hide Reachable, Alone, Next;
    var env := Allowing(codec, parse);
    var acc;
    s, acc := Calling(env);
    s := ToolsUnderStop(env, s, acc);
  }

  lemma ToolsUnderStop(env: Env, before: State, acc: A.Acc) returns (s: State)
    requires Alone(env, before, Streaming(1, acc, Subscribing)) && !before.cancel
    requires env.hasExecutor && acc.stop == Some(ToolUseStop) && CallsOf(acc.blocks) == [CALL]
    ensures Reachable(env, s) && s.cancel
    ensures Next(env, s, Step(0, Go)).Some?
    ensures Next(env, s, Step(0, Go)).value.log == s.log + [ToolsStarted(0, [CALL])]
  {
    hide Reachable, CallsOf;
    s := Ending(env, before, acc);
    s := Storing(env, s, acc);
    var b;
    s, b := Gating(env, s, acc);
    s := AboutToRun(env, s, b);
    s := StopNow(env, s, Executing(1, b, false, Selecting(s.version)));
  }

  // Another task stops the generation.
  lemma StopNow(env: Env, s: State, pc: Pc) returns (s': State)
    requires Reachable(env, s) && s.tasks == map[0 := pc]
    ensures Reachable(env, s') && s'.cancel && 0 in s'.tasks && s'.tasks[0] == pc
    ensures s'.version == s.version + 1
  {
    hide Reachable;
    var s1 := s.(tasks := s.tasks[1 := Cancelling]);
    ReachNext(env, s, Spawn(1, Cancelling), s1);
    s' := Advance(s1, 1, Turn(CancellingPrompt, RaiseCancel));
    ReachNext(env, s1, Step(1, Go), s');
  }

  // A stop between winning the generating flag and the reset is forgotten: the run goes
  // on with the flag down.
  lemma StopCanBeLost(env: Env) returns (s: State)
    ensures Reachable(env, s) && s.cancel && 0 in s.tasks && s.tasks[0] == Entered
    ensures Next(env, s, Step(0, Go)).Some? && !Next(env, s, Step(0, Go)).value.cancel
  {
    hide Reachable;
    s := Entering(env);
    s := StopNow(env, s, Entered);
  }

  // ---------------------------------------------------------------- an unpaired request

  // The tools start, and fail as a whole.
  lemma Failing(env: Env, s: State, b: Batch, error: string) returns (s': State)
    requires Calm(env, s, Executing(1, b, false, Selecting(s.version)))
    ensures Calm(env, s', Erring(1, error)) && s'.cached == s.cached
  {
    hide Reachable;
    var w := Selecting(s.version);
    s' := Go1(env, s, Executing(1, b, false, w), Go, Turn(Executing(1, b, true, w), StartTools(b.remaining)));
    s' := Go1(env, s', Executing(1, b, true, w), ToolsFail(error), Turn(Erring(1, error), Nothing));
  }

  // The error is stored and cached as text, and the next round reads the history.
  lemma AskingAgain(env: Env, s: State, error: string) returns (s': State)
    requires Calm(env, s, Erring(1, error))
    ensures Calm(env, s', Requesting(2, s'.cached)) && s'.cached == s.cached + [ToolErrorMessage(s.nextId, 0, error)]
  {
    hide Reachable, Calm;
    var m := ToolErrorMessage(s.nextId, 0, error);
    ErrorMove(env, s, error);
    s' := Go1(env, s, Erring(1, error), Row(s.nextId, 0), Turn(Pushing(m, NextRound(1)), Insert(m)));
    s' := NextAsk(env, s', m);
  }

  lemma ErrorMove(env: Env, s: State, error: string)
    ensures var m := ToolErrorMessage(s.nextId, 0, error);
      Move(env, s, Erring(1, error), Row(s.nextId, 0)) == Some(Turn(Pushing(m, NextRound(1)), Insert(m)))
  {}

  lemma NextAsk(env: Env, s: State, m: Message) returns (s': State)
    requires Calm(env, s, Pushing(m, NextRound(1)))
    ensures Calm(env, s', Requesting(2, s'.cached)) && s'.cached == s.cached + [m]
  {
    hide Reachable, MoveTools, MoveReply, MovePrompt, MoveCommand;
    PushMove(env, s, m);
    s' := Go1(env, s, Pushing(m, NextRound(1)), Go, Turn(LoopTop(1), Cache(m)));
    s' := Go1(env, s', LoopTop(1), Go, Turn(Reading(2), Nothing));
    s' := Go1(env, s', Reading(2), Go, Turn(Requesting(2, s'.cached), Nothing));
  }

  lemma PushMove(env: Env, s: State, m: Message)
    ensures Move(env, s, Pushing(m, NextRound(1)), Go) == Some(Turn(LoopTop(1), Cache(m)))
  {}

  lemma CallThenError(acc: A.Acc, id: int, now: int, error: string)
    requires CallsOf(acc.blocks) == [CALL]
    ensures W.Unanswered([AssistantMessage(0, 0, acc), ToolErrorMessage(id, now, error)]) == None
  {
    hide CallsOf;
    var call, fault := AssistantMessage(0, 0, acc), ToolErrorMessage(id, now, error);
    assert [call, fault][..1] == [call] && [call][..0] == [];
    assert W.Unanswered([call]) == Some(multiset(CallIds([CALL])));
    assert |multiset(CallIds([CALL]))| == 1;
    Pairing.ErrorStep(multiset(CallIds([CALL])), id, now, error);
  }

  // A call, an execution that fails, and the same run goes on to ask with a text where
  // the call's answer should be.
  lemma RequestCanBeUnpaired(codec: Codec, parse: JsonParser, dialect: W.Dialect, systemPrompt: Option<string>)
    returns (s: State)
    ensures var env := Allowing(codec, parse);
      && Reachable(env, s) && Next(env, s, Step(0, Go)).Some?
      && Next(env, s, Step(0, Go)).value.log == s.log + [Request(0, s.cached)]
      && !W.WellPaired(W.Converted(dialect, systemPrompt, s.cached))
  {
    hide Reachable, CallsOf, W.Unanswered, W.WellPaired, W.Converted;
    var env := Allowing(codec, parse);
    var acc, b;
    s, acc := Calling(env);
    s := Ending(env, s, acc);
    s := Storing(env, s, acc);
    s, b := Gating(env, s, acc);
    s := AboutToRun(env, s, b);
    s := Failing(env, s, b, "lost");
    var id := s.nextId;
    s := AskingAgain(env, s, "lost");
    CallThenError(acc, id, 0, "lost");
    assert [] + [AssistantMessage(0, 0, acc)] + [ToolErrorMessage(id, 0, "lost")]
        == [AssistantMessage(0, 0, acc), ToolErrorMessage(id, 0, "lost")];
    W.PairedOnTheWire(dialect, systemPrompt, s.cached);
  }

  // ---------------------------------------------------------------- cache and storage

  // A user's message on its way into the cache.
  lemma Writing(env: Env, s: State, t: nat, content: seq<ContentBlock>, id: int) returns (s': State)
    requires Reachable(env, s) && t !in s.tasks && s.nextId <= id
    ensures var m := UserMessage(id, 0, content);
      Reachable(env, s') && s'.tasks == s.tasks[t := Pushing(m, AfterAppend)]
      && s'.stored == s.stored + [m] && s'.cached == s.cached && s'.nextId == id + 1 && s'.log == s.log
  {
    hide Reachable, TextContent;
    var m := UserMessage(id, 0, content);
    var s1 := s.(tasks := s.tasks[t := Pc.Appending(content)]);
    ReachNext(env, s, Spawn(t, Pc.Appending(content)), s1);
    s' := Advance(s1, t, Turn(Pushing(m, AfterAppend), Insert(m)));
    assert s.log + [] == s.log;
    assert s'.tasks == s.tasks[t := Pushing(m, AfterAppend)];
    ReachNext(env, s1, Step(t, Row(id, 0)), s');
  }

  // The writer gets to the cache.
  lemma Caching(env: Env, s: State, t: nat, m: Message) returns (s': State)
    requires Reachable(env, s) && t in s.tasks && s.tasks[t] == Pushing(m, AfterAppend)
    ensures Reachable(env, s') && s'.tasks == s.tasks[t := Appended]
    ensures s'.stored == s.stored && s'.cached == s.cached + [m] && s'.log == s.log
  {
    hide Reachable;
    s' := Advance(s, t, Turn(Appended, Cache(m)));
    assert s.log + [] == s.log;
    ReachNext(env, s, Step(t, Go), s');
  }

  // The writer is told of an error instead.
  lemma Tearing(env: Env, s: State, t: nat, m: Message) returns (s': State)
    requires Reachable(env, s) && t in s.tasks && s.tasks[t] == Pushing(m, AfterAppend)
    ensures Reachable(env, s') && s'.tasks == s.tasks[t := Appended]
    ensures s'.stored == s.stored && s'.cached == s.cached && s'.log == s.log + [Torn(t, m.id)]
  {
    hide Reachable;
    s' := Advance(s, t, Turn(Appended, Tear(m)));
    ReachNext(env, s, Step(t, Fail), s');
  }

  // The insert is committed and the statement after it fails: the message is stored, its
  // writer is gone with an error, and the cache never hears of it.
  lemma TornWriteIsNotCached(env: Env, content: seq<ContentBlock>) returns (s: State)
    ensures Reachable(env, s) && s.tasks == map[0 := Appended]
    ensures s.stored == [UserMessage(0, 0, content)] && s.cached == [] && s.log == [Torn(0, 0)]
  {
    hide Reachable, TextContent;
    StartIsReachable(env);
    var s1 := Writing(env, FRESH_SESSION, 0, content, 0);
    var m := UserMessage(0, 0, content);
    s := Tearing(env, s1, 0, m);
    assert map[0 := Pushing(m, AfterAppend)][0 := Appended] == map[0 := Appended];
  }

  // Two writers: the one that stored first is the second to get to the cache.
  lemma WritersCanCross(env: Env, first: seq<ContentBlock>, second: seq<ContentBlock>) returns (s: State)
    ensures Reachable(env, s) && s.tasks == map[0 := Appended, 1 := Appended] && s.log == []
    ensures var m, n := UserMessage(0, 0, first), UserMessage(1, 0, second);
      s.stored == [m, n] && s.cached == [n, m] != s.stored
  {
    hide Reachable, TextContent;
    StartIsReachable(env);
    var m, n := UserMessage(0, 0, first), UserMessage(1, 0, second);
    s := Writing(env, FRESH_SESSION, 0, first, 0);
    s := Writing(env, s, 1, second, 1);
    s := Caching(env, s, 1, n);
    s := Caching(env, s, 0, m);
    assert s.tasks == map[0 := Appended, 1 := Appended];
    assert [n, m][0] != [m, n][0];
  }
}
