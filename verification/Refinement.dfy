// The cached session refines the loop that reads its history back from storage: run
// alone, with execution allowed outright and no stop, it makes the same requests, runs
// the same tools and leaves the same history.

module Refinement {
  import opened Types
  import opened Session
  import opened Approval
  import opened Reference
  import A = Accumulator

  // ---------------------------------------------------------------- the correspondence

  // Where the storage-reading loop stands when the session's task stands at pc.
  function PointOf(pc: Pc): Option<Point> {
    match pc
    case Ready => Some(Top(0))
    case Entered => Some(Top(0))
    case LoopTop(i) => Some(Top(i))
    case Reading(i) => Some(Fetching(i))
    case Requesting(i, msgs) => Some(Asking(i, msgs))
    case Responding(i) => Some(Awaiting(i))
    case Streaming(i, acc, _) => Some(Receiving(i, acc))
    case SavingReply(i, acc) => Some(Saving(i, acc))
    case Replied(i, acc) => Some(Saved(i, acc))
    case Gate(i, b) => Some(Calling(i, b.calls, false))
    case Executing(i, b, started, _) => Some(Calling(i, b.calls, started))
    case Erring(i, error) => Some(Failing(i, error))
    case Answering(i, rs, after) => if after == Loop then Some(Recording(i, rs)) else None
    case Pushing(_, r) =>
      (match r
       case AfterReply(i, acc) => Some(Updating(i, Some(acc)))
       case NextRound(i) => Some(Updating(i, None))
       case _ => None)
    case Ending(i) => Some(Finishing(i))
    case Closing(o) => if o == Stopped then None else Some(Finished(o))
    case Done(o) => if o == Stopped then None else Some(Finished(o))
    case _ => None
  }

  // A task on the storage-reading loop's paths: no prompt, nothing denied, no stop.
  predicate Plain(pc: Pc) {
    && PointOf(pc).Some?
    && (pc.Gate? || pc.Executing? ==> Whole(pc.batch))
  }

  predicate Whole(b: Batch) { b.denied == [] && b.remaining == b.calls }

  // Settings under which no call is denied and none needs asking.
  predicate Permissive(env: Env, cfg: Config) {
    cfg.autoExecute && ParseRules(env.codec, cfg.alwaysDeny) == []
  }

  lemma {:induction false} PermissiveSplit(env: Env, deny: seq<string>, calls: seq<Call>)
    requires ParseRules(env.codec, deny) == []
    ensures Denied(env.codec, deny, calls) == [] && Remaining(env.codec, deny, calls) == calls
  {
    if calls != [] {
      PermissiveSplit(env, deny, calls[1..]);
      assert !IsDenied(env.codec, deny, calls[0]);
    }
  }

  lemma PermissiveBatch(env: Env, cfg: Config, calls: seq<Call>)
    requires Permissive(env, cfg)
    ensures MakeBatch(env, cfg, calls) == Batch(cfg, calls, [], calls)
    ensures !NeedsApproval(env.codec, cfg, calls)
  {
    hide IsDenied, IsAllowed, Denied, Remaining;
    PermissiveSplit(env, cfg.alwaysDeny, calls);
  }

  predicate Visible(e: Effect) { e.SendRequest? || e.StartTools? || e.Insert? }

  // The cache holds the stored history, but for the message its writer is carrying or, at
  // a failed end, has left behind with a torn write.
  predicate InStep(s: State, pc: Pc) {
    if pc.Pushing? then s.stored == s.cached + [pc.msg]
    else if EndsInError(pc) then s.cached <= s.stored && |s.stored| <= |s.cached| + 1
    else s.stored == s.cached
  }

  ghost predicate Alone(env: Env, s: State, pc: Pc) {
    && Plain(pc) && Permissive(env, s.cfg) && InStep(s, pc)
    && (pc.Ready? ==> !s.generating)
    && (pc.Ready? || pc.Entered? || !s.cancel)
  }

  // One move is invisible to the storage-reading loop or one of its strides, with the
  // same answer from the environment.
  ghost predicate Follows(env: Env, s: State, pc: Pc, c: Choice, turn: Turn)
    requires PointOf(pc).Some?
  {
    && Plain(turn.pc)
    && ((PointOf(turn.pc) == PointOf(pc) && !Visible(turn.effect))
        || StrideFrom(env, s.stored, s.nextId, PointOf(pc).value, c)
             == Some(Stride(PointOf(turn.pc).value, if Visible(turn.effect) then turn.effect else Nothing)))
  }

  lemma RunFollows(env: Env, s: State, pc: Pc, c: Choice, turn: Turn)
    requires MoveRun(s, pc, c) == Some(turn) && Alone(env, s, pc) && Ordered(s.stored)
    ensures Follows(env, s, pc, c, turn)
  {
    hide Ordered, GetMessages, Permissive;
    ReadsInsertionOrder(s.stored);
  }

  lemma ReplyFollows(env: Env, s: State, pc: Pc, c: Choice, turn: Turn)
    requires MoveReply(env, s, pc, c) == Some(turn) && Alone(env, s, pc)
    ensures Follows(env, s, pc, c, turn)
  {
    hide MoveReplied, Meaningful, CallsOf, A.Apply, Permissive;
    match pc {
      case Replied(i, acc) => RepliedFollows(env, s, i, acc, turn);
      case _ =>
    }
  }

  lemma RepliedFollows(env: Env, s: State, i: nat, acc: A.Acc, turn: Turn)
    requires MoveReplied(env, s, i, acc) == Some(turn) && Permissive(env, s.cfg)
    ensures Follows(env, s, Replied(i, acc), Go, turn)
  {
    hide CallsOf, MakeBatch, NeedsApproval, Permissive, Rejections;
    PermissiveBatch(env, s.cfg, CallsOf(acc.blocks));
  }

  lemma ToolsFollows(env: Env, s: State, pc: Pc, c: Choice, turn: Turn)
    requires MoveTools(s, pc, c) == Some(turn) && Alone(env, s, pc)
    ensures Follows(env, s, pc, c, turn)
  {
    hide MoveExecuting, Follows, Permissive, InStep;
    match pc {
      case Executing(i, b, started, w) => ExecutingFollows(env, s, i, b, started, w, c, turn);
      case _ => StoringFollows(env, s, pc, c, turn);
    }
  }

  lemma StoringFollows(env: Env, s: State, pc: Pc, c: Choice, turn: Turn)
    requires MoveTools(s, pc, c) == Some(turn) && Plain(pc) && !s.cancel && !pc.Executing?
    ensures Follows(env, s, pc, c, turn)
  {
    hide MoveExecuting, CallsOf, GetMessages, Rejections, Answers, A.Apply, AssistantMessage;
  }

  lemma ExecutingFollows(env: Env, s: State, i: nat, b: Batch, started: bool, w: Wait, c: Choice, turn: Turn)
    requires MoveExecuting(s, i, b, started, w, c) == Some(turn) && Whole(b) && !s.cancel
    ensures Follows(env, s, Executing(i, b, started, w), c, turn)
  {
    hide Joined, Answers;
    assert Rejections([], BLOCKED) == [];
    assert c.Results? ==> [] + Joined(c.results) == Joined(c.results);
  }

  lemma MovesFollow(env: Env, s: State, pc: Pc, c: Choice, turn: Turn)
    requires Move(env, s, pc, c) == Some(turn) && Alone(env, s, pc) && Ordered(s.stored)
    ensures Follows(env, s, pc, c, turn)
  {
    hide MoveRun, MoveReply, MovePrompt, MoveTools, MoveCommand, Follows, Ordered, Permissive;
    match PhaseOf(pc) {
      case InLoop => RunFollows(env, s, pc, c, turn);
      case InReply => ReplyFollows(env, s, pc, c, turn);
      case InTools => ToolsFollows(env, s, pc, c, turn);
      case _ => assert false;
    }
  }

  // ---------------------------------------------------------------- the session alone

  predicate EndsInError(pc: Pc) { (pc.Closing? || pc.Done?) && pc.outcome == Failed }

  // What a move does to the conditions of the correspondence.
  ghost predicate StaysAlone(s: State, pc: Pc, turn: Turn) {
    var e := turn.effect;
    && !e.ApplyDecision? && !e.RaiseCancel?
    && !turn.pc.Ready?
    && (turn.pc.Entered? || !s.cancel || e.ClearCancel?)
    && (match e
        case Insert(m) => !pc.Pushing? && !EndsInError(pc) && turn.pc.Pushing? && turn.pc.msg == m
        case Cache(m) => pc.Pushing? && pc.msg == m && !turn.pc.Pushing?
        case Tear(m) => pc.Pushing? && pc.msg == m && turn.pc == Closing(Failed)
        case _ => !pc.Pushing? && !turn.pc.Pushing? && (EndsInError(pc) ==> EndsInError(turn.pc)))
  }

  lemma MovesStayAlone(env: Env, s: State, pc: Pc, c: Choice, turn: Turn)
    requires Move(env, s, pc, c) == Some(turn) && Alone(env, s, pc)
    ensures StaysAlone(s, pc, turn)
  {
    hide MoveReplied, MoveExecuting, MovePrompt, MoveCommand, Permissive, InStep, Alone, A.Apply;
    hide Meaningful, TextContent, Rejections;
    AloneStands(env, s, pc);
    if pc.Replied? {
      RepliedStaysAlone(env, s, pc.iter, pc.acc, turn);
    } else if pc.Executing? {
      ExecutingStaysAlone(s, pc.iter, pc.batch, pc.started, pc.wait, c, turn);
    }
  }

  // Where a task alone can stand.
  lemma AloneStands(env: Env, s: State, pc: Pc)
    requires Alone(env, s, pc)
    ensures PhaseOf(pc) != InPrompt && PhaseOf(pc) != InCommand
    ensures (pc.Ready? ==> !s.generating) && (pc.Ready? || pc.Entered? || !s.cancel)
    ensures pc.Pushing? ==> pc.resume.AfterReply? || pc.resume.NextRound?
    ensures pc.Closing? || pc.Done? ==> pc.outcome != Stopped
  {
    hide Permissive, InStep;
  }

  lemma RepliedStaysAlone(env: Env, s: State, i: nat, acc: A.Acc, turn: Turn)
    requires MoveReplied(env, s, i, acc) == Some(turn) && !s.cancel
    ensures StaysAlone(s, Replied(i, acc), turn)
  {
    hide MakeBatch, NeedsApproval, CallsOf, Rejections;
  }

  lemma ExecutingStaysAlone(s: State, i: nat, b: Batch, started: bool, w: Wait, c: Choice, turn: Turn)
    requires MoveExecuting(s, i, b, started, w, c) == Some(turn) && !s.cancel
    ensures StaysAlone(s, Executing(i, b, started, w), turn)
  {
    hide Rejections, Joined, Answers;
  }

  lemma AloneKeeps(env: Env, s: State, t: nat, turn: Turn)
    requires t in s.tasks && Alone(env, s, s.tasks[t]) && Plain(turn.pc) && StaysAlone(s, s.tasks[t], turn)
    ensures Alone(env, Advance(s, t, turn), turn.pc)
  {
    hide Plain, Permissive;
  }

  // ---------------------------------------------------------------- simulation

  function RequestsMade(log: seq<Obs>, t: nat): seq<seq<Message>> {
    if log == [] then []
    else
      var o := log[|log| - 1];
      RequestsMade(log[..|log| - 1], t) + (if o.Request? && o.task == t then [o.msgs] else [])
  }

  function ToolsRun(log: seq<Obs>, t: nat): seq<seq<Call>> {
    if log == [] then []
    else
      var o := log[|log| - 1];
      ToolsRun(log[..|log| - 1], t) + (if o.ToolsStarted? && o.task == t then [o.calls] else [])
  }

  function LoopOf(s: State, t: nat): LoopState
    requires t in s.tasks && PointOf(s.tasks[t]).Some?
  {
    LoopState(PointOf(s.tasks[t]).value, s.stored, s.nextId, RequestsMade(s.log, t), ToolsRun(s.log, t))
  }

  lemma LogsAfter(log: seq<Obs>, t: nat, e: Effect)
    ensures RequestsMade(log + Told(t, e), t) == RequestsMade(log, t) + (if e.SendRequest? then [e.msgs] else [])
    ensures ToolsRun(log + Told(t, e), t) == ToolsRun(log, t) + (if e.StartTools? then [e.calls] else [])
  {
    var told := Told(t, e);
    if told == [] {
      assert log + told == log;
    } else {
      assert told == [told[0]];
      assert (log + told)[..|log|] == log;
    }
  }

  // One step of the task: the storage-reading loop takes the same step or none.
  lemma StepSimulates(env: Env, s: State, t: nat, c: Choice)
    requires t in s.tasks && Alone(env, s, s.tasks[t]) && Ordered(s.stored)
    requires Next(env, s, Step(t, c)).Some?
    ensures var s' := Next(env, s, Step(t, c)).value;
      && t in s'.tasks && Alone(env, s', s'.tasks[t])
      && (LoopOf(s', t) == LoopOf(s, t) || Forward(env, LoopOf(s, t), c) == Some(LoopOf(s', t)))
  {
    hide Move, Alone, RequestsMade, ToolsRun, StrideFrom, PointOf, Ordered, StaysAlone;
    var pc := s.tasks[t];
    var turn := Move(env, s, pc, c).value;
    MovesFollow(env, s, pc, c, turn);
    MovesStayAlone(env, s, pc, c, turn);
    AloneKeeps(env, s, t, turn);
    LogsAfter(s.log, t, turn.effect);
    AloneIsPlain(env, s, pc);
    SameOrStride(env, s, t, c, turn);
  }

  lemma AloneIsPlain(env: Env, s: State, pc: Pc)
    requires Alone(env, s, pc)
    ensures PointOf(pc).Some?
  {}

  lemma SameOrStride(env: Env, s: State, t: nat, c: Choice, turn: Turn)
    requires t in s.tasks && PointOf(s.tasks[t]).Some? && Follows(env, s, s.tasks[t], c, turn)
    ensures var s' := Advance(s, t, turn);
      LoopOf(s', t) == LoopOf(s, t) || Forward(env, LoopOf(s, t), c) == Some(LoopOf(s', t))
  {
    hide RequestsMade, ToolsRun, StrideFrom, PointOf, Told;
    LogsAfter(s.log, t, turn.effect);
    assert RequestsMade(s.log, t) + [] == RequestsMade(s.log, t);
    assert ToolsRun(s.log, t) + [] == ToolsRun(s.log, t);
  }

  // The steps of one task alone, from a state on.
  ghost predicate SoloRun(env: Env, t: nat, states: seq<State>, choices: seq<Choice>) {
    && |states| == |choices| + 1
    && forall k :: 0 <= k < |choices| ==> Next(env, states[k], Step(t, choices[k])) == Some(states[k + 1])
  }

  // A selection from a list, in order.
  predicate Selection(some: seq<Choice>, all: seq<Choice>)
    decreases |all|
  {
    if all == [] then some == []
    else
      || Selection(some, all[..|all| - 1])
      || (some != [] && some[|some| - 1] == all[|all| - 1] && Selection(some[..|some| - 1], all[..|all| - 1]))
  }

  lemma OrderedPrefix(a: seq<Message>, b: seq<Message>)
    requires a <= b && Ordered(b)
    ensures Ordered(a)
  {
    forall i, j | 0 <= i < j < |a| ensures a[i].createdAt <= a[j].createdAt {
      assert b[i].createdAt <= b[j].createdAt;
    }
  }

  lemma StoredGrows(env: Env, s: State, a: Action)
    requires Next(env, s, a).Some?
    ensures s.stored <= Next(env, s, a).value.stored
  {
    hide Move;
  }

  lemma {:induction false} SoloRunStored(env: Env, t: nat, states: seq<State>, choices: seq<Choice>, k: nat)
    requires SoloRun(env, t, states, choices) && k <= |choices|
    ensures states[k].stored <= states[|choices|].stored
    decreases |choices| - k
  {
    hide Next;
    if k < |choices| {
      assert Next(env, states[k], Step(t, choices[k])) == Some(states[k + 1]);
      StoredGrows(env, states[k], Step(t, choices[k]));
      SoloRunStored(env, t, states, choices, k + 1);
    }
  }

  // A whole solo run of the session is a run of the storage-reading loop on a selection
  // of the same answers: same requests, same executions, same stored history, same
  // outcome. The stamps must not decrease in insertion order.
  lemma {:induction false} SessionRefinesReference(env: Env, t: nat, states: seq<State>, choices: seq<Choice>)
    returns (chosen: seq<Choice>)
    requires SoloRun(env, t, states, choices)
    requires t in states[0].tasks && states[0].tasks[t].Ready? && !states[0].generating
    requires states[0].cached == states[0].stored && Permissive(env, states[0].cfg)
    requires Ordered(states[|choices|].stored)
    ensures Selection(chosen, choices)
    ensures var last := states[|choices|];
      && t in last.tasks && Alone(env, last, last.tasks[t]) && PointOf(last.tasks[t]).Some?
      && Drive(env, LoopOf(states[0], t), chosen) == Some(LoopOf(last, t))
    decreases |choices|
  {
    hide Next, RequestsMade, ToolsRun, Ordered, Forward, Permissive;
    var n := |choices|;
    if n == 0 {
      chosen := [];
    } else {
      assert choices == choices[..n - 1] + [choices[n - 1]];
      SoloRunStored(env, t, states, choices, n - 1);
      OrderedPrefix(states[n - 1].stored, states[n].stored);
      var before := SessionRefinesReference(env, t, states[..n], choices[..n - 1]);
      StepSimulates(env, states[n - 1], t, choices[n - 1]);
      AloneIsPlain(env, states[n], states[n].tasks[t]);
      if LoopOf(states[n], t) == LoopOf(states[n - 1], t) {
        chosen := before;
      } else {
        chosen := before + [choices[n - 1]];
        assert chosen[..|chosen| - 1] == before;
      }
    }
  }
}
