// Which tool calls ever reach the executor.

module Gating {
  import opened Types
  import opened Session
  import opened Approval
  import A = Accumulator

  // What the log says about one task's current batch: the batch whose policy was read
  // last, the decision taken on it, and whether its tools were started.
  datatype View = View(batch: Option<Batch>, decision: Option<Decision>, started: bool)

  function See(v: View, o: Obs, t: nat): View {
    match o
    case PolicyRead(u, b) => if u == t then View(Some(b), None, false) else v
    case Decided(u, _, d) => if u == t then v.(decision := Some(d)) else v
    case ToolsStarted(u, _) => if u == t then v.(started := true) else v
    case _ => v
  }

  function ViewOf(log: seq<Obs>, t: nat): View {
    if log == [] then View(None, None, false) else See(ViewOf(log[..|log| - 1], t), log[|log| - 1], t)
  }

  // The call passes the batch's own settings, or the user let the batch through; and in
  // either case the deny list does not match it.
  predicate Permitted(env: Env, v: View, c: Call)
    requires v.batch.Some?
  {
    var cfg := v.batch.value.cfg;
    && !IsDenied(env.codec, cfg.alwaysDeny, c)
    && (cfg.autoExecute || IsAllowed(env.codec, cfg.alwaysAllow, c)
        || v.decision == Some(AllowOnce) || v.decision == Some(AlwaysAllow))
  }

  // Starting these calls is right, seen from the task's view: they are the calls of the
  // batch that the deny list left, each is permitted, and none was started before.
  ghost predicate MayStart(env: Env, v: View, calls: seq<Call>) {
    && v.batch.Some? && !v.started
    && calls == Remaining(env.codec, v.batch.value.cfg.alwaysDeny, v.batch.value.calls)
    && forall c :: c in calls ==> Permitted(env, v, c)
  }

  ghost predicate Gated(env: Env, log: seq<Obs>) {
    forall k :: 0 <= k < |log| && log[k].ToolsStarted? ==>
      MayStart(env, ViewOf(log[..k], log[k].task), log[k].calls)
  }

  // ---------------------------------------------------------------- the invariant

  predicate Genuine(env: Env, b: Batch) { b == MakeBatch(env, b.cfg, b.calls) }

  lemma MadeIsGenuine(env: Env, cfg: Config, calls: seq<Call>)
    ensures var b := MakeBatch(env, cfg, calls); Genuine(env, b) && b.cfg == cfg && b.calls == calls
  {}

  predicate Cleared(env: Env, v: View, b: Batch) {
    !NeedsApproval(env.codec, b.cfg, b.remaining)
    || v.decision == Some(AllowOnce) || v.decision == Some(AlwaysAllow)
  }

  // A task holding a batch agrees with its view.
  predicate Holds(env: Env, v: View, pc: Pc) {
    match pc
    case Announcing(_, b) => v == View(Some(b), None, false) && Genuine(env, b)
    case Prompting(_, b, _, _) => v == View(Some(b), None, false) && Genuine(env, b)
    case Resolved(_, b, _, _) => v == View(Some(b), None, false) && Genuine(env, b)
    case Applying(_, b, d) => v == View(Some(b), Some(d), false) && Genuine(env, b)
    case Gate(_, b) => v.batch == Some(b) && !v.started && Genuine(env, b) && Cleared(env, v, b)
    case Executing(_, b, started, _) =>
      v.batch == Some(b) && v.started == started && Genuine(env, b) && Cleared(env, v, b)
    case _ => true
  }

  function After(v: View, t: nat, e: Effect): View {
    if Told(t, e) == [] then v else See(v, Told(t, e)[0], t)
  }

  // A move keeps a task in agreement with its view, and starts only what it holds.
  predicate Guarded(env: Env, v: View, t: nat, turn: Turn) {
    && Holds(env, After(v, t, turn.effect), turn.pc)
    && (turn.effect.StartTools? ==>
          && v.batch.Some? && !v.started && Genuine(env, v.batch.value)
          && Cleared(env, v, v.batch.value) && turn.effect.calls == v.batch.value.remaining)
  }

  lemma RunIsGuarded(env: Env, v: View, t: nat, s: State, pc: Pc, c: Choice, turn: Turn)
    requires Holds(env, v, pc) && MoveRun(s, pc, c) == Some(turn)
    ensures Guarded(env, v, t, turn)
  {
    hide Genuine, Cleared;
  }

  lemma ReplyIsGuarded(env: Env, v: View, t: nat, s: State, pc: Pc, c: Choice, turn: Turn)
    requires Holds(env, v, pc) && MoveReply(env, s, pc, c) == Some(turn)
    ensures Guarded(env, v, t, turn)
  {
    hide MoveReplied, Meaningful, A.Apply, Genuine, Cleared;
    match pc {
      case Replied(i, acc) => RepliedIsGuarded(env, v, t, s, i, acc, turn);
      case _ =>
    }
  }

  lemma RepliedIsGuarded(env: Env, v: View, t: nat, s: State, i: nat, acc: A.Acc, turn: Turn)
    requires MoveReplied(env, s, i, acc) == Some(turn)
    ensures Guarded(env, v, t, turn)
  {
    hide MakeBatch, NeedsApproval, CallsOf, Rejections, Genuine;
    MadeIsGenuine(env, s.cfg, CallsOf(acc.blocks));
  }

  lemma PromptIsGuarded(env: Env, v: View, t: nat, s: State, pc: Pc, c: Choice, turn: Turn)
    requires Holds(env, v, pc) && MovePrompt(env, s, pc, c) == Some(turn)
    ensures Guarded(env, v, t, turn)
  {
    hide Remember, Rejections, NeedsApproval, Genuine;
  }

  lemma ToolsIsGuarded(env: Env, v: View, t: nat, s: State, pc: Pc, c: Choice, turn: Turn)
    requires Holds(env, v, pc) && MoveTools(s, pc, c) == Some(turn)
    ensures Guarded(env, v, t, turn)
  {
    hide Rejections, Joined, Answers, NeedsApproval, Genuine;
  }

  lemma CommandIsGuarded(env: Env, v: View, t: nat, s: State, pc: Pc, c: Choice, turn: Turn)
    requires Holds(env, v, pc) && MoveCommand(s, pc, c) == Some(turn)
    ensures Guarded(env, v, t, turn)
  {
    hide Genuine, Cleared;
  }

  lemma MovesAreGuarded(env: Env, v: View, t: nat, s: State, pc: Pc, c: Choice, turn: Turn)
    requires Holds(env, v, pc) && Move(env, s, pc, c) == Some(turn)
    ensures Guarded(env, v, t, turn)
  {
    hide MoveRun, MoveReply, MovePrompt, MoveTools, MoveCommand, Guarded, Holds;
    match PhaseOf(pc) {
      case InLoop => RunIsGuarded(env, v, t, s, pc, c, turn);
      case InReply => ReplyIsGuarded(env, v, t, s, pc, c, turn);
      case InPrompt => PromptIsGuarded(env, v, t, s, pc, c, turn);
      case InTools => ToolsIsGuarded(env, v, t, s, pc, c, turn);
      case InCommand => CommandIsGuarded(env, v, t, s, pc, c, turn);
    }
  }

  ghost predicate GateInv(env: Env, s: State) {
    && Gated(env, s.log)
    && forall t :: t in s.tasks ==> Holds(env, ViewOf(s.log, t), s.tasks[t])
  }

  lemma ViewAfter(log: seq<Obs>, t: nat, e: Effect)
    ensures ViewOf(log + Told(t, e), t) == After(ViewOf(log, t), t, e)
    ensures forall u :: u != t ==> ViewOf(log + Told(t, e), u) == ViewOf(log, u)
  {
    var told := Told(t, e);
    if told == [] {
      assert log + told == log;
    } else {
      assert told == [told[0]];
      assert (log + told)[..|log|] == log;
    }
  }

  // Clearance of a batch is permission for each of its calls.
  lemma ClearedIsPermitted(env: Env, v: View)
    requires v.batch.Some? && Genuine(env, v.batch.value) && Cleared(env, v, v.batch.value)
    ensures forall c :: c in v.batch.value.remaining ==> Permitted(env, v, c)
  {
    hide IsDenied, IsAllowed;
    var b := v.batch.value;
    SplitPartitions(env.codec, b.cfg.alwaysDeny, b.calls);
    forall c | c in b.remaining
      ensures Permitted(env, v, c)
    {
      var k :| 0 <= k < |b.remaining| && b.remaining[k] == c;
    }
  }

  lemma GatedPush(env: Env, log: seq<Obs>, o: Obs)
    requires Gated(env, log)
    requires o.ToolsStarted? ==> MayStart(env, ViewOf(log, o.task), o.calls)
    ensures Gated(env, log + [o])
  {
    hide MayStart, ViewOf;
    var log' := log + [o];
    forall k | 0 <= k < |log'| && log'[k].ToolsStarted?
      ensures MayStart(env, ViewOf(log'[..k], log'[k].task), log'[k].calls)
    {
      assert log'[..k] == log[..k];
      if k == |log| { assert log[..k] == log; }
    }
  }

  lemma GateStep(env: Env, s: State, a: Action, s': State)
    requires GateInv(env, s) && Next(env, s, a) == Some(s')
    ensures GateInv(env, s')
  {
    hide Move, Holds, Gated, ViewOf, Guarded;
    match a {
      case Spawn(t, pc) => FreshHolds(env, ViewOf(s.log, t), pc);
      case Configure(_) =>
      case Step(t, c) =>
        var turn := Move(env, s, s.tasks[t], c).value;
        MovesAreGuarded(env, ViewOf(s.log, t), t, s, s.tasks[t], c, turn);
        GuardedKeeps(env, s, t, turn);
    }
  }

  lemma FreshHolds(env: Env, v: View, pc: Pc)
    requires Fresh(pc)
    ensures Holds(env, v, pc)
  {}

  lemma GuardedKeeps(env: Env, s: State, t: nat, turn: Turn)
    requires GateInv(env, s) && t in s.tasks && Guarded(env, ViewOf(s.log, t), t, turn)
    ensures GateInv(env, Advance(s, t, turn))
  {
    hide Holds, Gated, ViewOf, Genuine, Cleared, Permitted;
    var told := Told(t, turn.effect);
    ViewAfter(s.log, t, turn.effect);
    if told == [] {
      assert s.log + told == s.log;
    } else {
      assert told == [told[0]];
      if told[0].ToolsStarted? {
        StartIsRight(env, ViewOf(s.log, t), turn.effect.calls);
      }
      GatedPush(env, s.log, told[0]);
    }
  }

  lemma StartIsRight(env: Env, v: View, calls: seq<Call>)
    requires v.batch.Some? && !v.started && Genuine(env, v.batch.value)
    requires Cleared(env, v, v.batch.value) && calls == v.batch.value.remaining
    ensures MayStart(env, v, calls)
  {
    ClearedIsPermitted(env, v);
  }
}
