// Stopping a generation: the cancel flag, its channel, and how much a cancelled run can
// still do.

module Cancellation {
  import opened Types
  import opened Session
  import opened Approval
  import opened Exclusion

  // ---------------------------------------------------------------- the channel

  function WaitOf(pc: Pc): Option<Wait> {
    match pc
    case Streaming(_, _, w) => Some(w)
    case Prompting(_, _, _, w) => Some(w)
    case Executing(_, _, _, w) => Some(w)
    case _ => None
  }

  // A receiver never claims to have seen a version that was not sent, and one inside the
  // select that has seen the latest version saw the flag down.
  predicate Watching(s: State, w: Wait) {
    match w
    case Subscribing => true
    case Selecting(seen) => seen <= s.version && (seen == s.version ==> !s.cancel)
    case _ => w.seen <= s.version
  }

  ghost predicate Watchful(s: State) {
    forall t :: t in s.tasks && WaitOf(s.tasks[t]).Some? ==> Watching(s, WaitOf(s.tasks[t]).value)
  }

  // ---------------------------------------------------------------- what is still to begin

  // Backend requests and tool executions this pc may begin although the flag is up.
  function CanBegin(pc: Pc): (n: nat)
    ensures n <= 1
  {
    if pc.Reading? || pc.Requesting? || (pc.Executing? && !pc.started && pc.wait.Selecting?) then 1 else 0
  }

  function Begins(e: Effect): nat { if e.SendRequest? || e.StartTools? then 1 else 0 }

  // How many requests and executions began since the flag went up.
  datatype Tally = Tally(up: bool, begun: nat)

  function Count(tally: Tally, o: Obs): Tally {
    match o
    case CancelSet => if tally.up then tally else Tally(true, 0)
    case Reset(_) => Tally(false, 0)
    case Request(_, _) => tally.(begun := tally.begun + 1)
    case ToolsStarted(_, _) => tally.(begun := tally.begun + 1)
    case _ => tally
  }

  function SinceCancel(log: seq<Obs>): Tally {
    if log == [] then Tally(false, 0) else Count(SinceCancel(log[..|log| - 1]), log[|log| - 1])
  }

  ghost predicate Spare(s: State) {
    var tally := SinceCancel(s.log);
    && tally.up == s.cancel
    && (s.cancel ==> tally.begun <= 1)
    && (s.cancel ==> forall t :: t in s.tasks ==> tally.begun + CanBegin(s.tasks[t]) <= 1)
  }

  // ---------------------------------------------------------------- what is still to do

  // How many steps a task past its reset still takes, at most, once the flag is up.
  function StepsLeft(pc: Pc): nat {
    match pc
    case Closing(_) => 0
    case LoopTop(_) => 1
    case Ending(_) => 1
    case Pushing(_, r) =>
      (match r
       case Leaving(_) => 1
       case NextRound(_) => 2
       case AfterReply(_, _) => 11
       case AfterAppend => 0)
    case SavingPartial(_, _) => 2
    case Answering(_, _, _) => 3
    case Erring(_, _) => 3
    case Gate(_, _) => 4
    case Executing(_, _, started, w) =>
      (match w
       case Subscribing => 5
       case Borrowing(_) => 4
       case Woken(_) => 4
       case Selecting(_) => if started then 5 else 6)
    case Applying(_, _, _) => 5
    case Resolved(_, _, _, _) => 6
    case Prompting(_, _, _, w) =>
      (match w case Subscribing => 8 case Borrowing(_) => 7 case Woken(_) => 7 case Selecting(_) => 8)
    case Announcing(_, _) => 9
    case Replied(_, _) => 10
    case SavingReply(_, _) => 12
    case Streaming(_, _, w) =>
      (match w case Subscribing => 4 case Borrowing(_) => 3 case Woken(_) => 3 case Selecting(_) => 13)
    case Responding(_) => 5
    case Requesting(_, _) => 6
    case Reading(_) => 7
    case _ => 0
  }

  predicate PastReset(pc: Pc) { InRun(pc) && !pc.Entered? }

  // ---------------------------------------------------------------- rounds

  // Requests a task has sent by the time it stands at this pc, at most.
  function Sent(pc: Pc): int {
    match pc
    case LoopTop(i) => i
    case Reading(i) => i - 1
    case Requesting(i, _) => i - 1
    case Responding(i) => i
    case Streaming(i, _, _) => i
    case SavingPartial(i, _) => i
    case SavingReply(i, _) => i
    case Replied(i, _) => i
    case Announcing(i, _) => i
    case Prompting(i, _, _, _) => i
    case Resolved(i, _, _, _) => i
    case Applying(i, _, _) => i
    case Gate(i, _) => i
    case Executing(i, _, _, _) => i
    case Erring(i, _) => i
    case Answering(i, _, _) => i
    case Pushing(_, r) =>
      (match r
       case AfterReply(i, _) => i
       case NextRound(i) => i
       case Leaving(_) => MAX_TOOL_ITERATIONS
       case AfterAppend => 0)
    case Ending(i) => i
    case Closing(_) => MAX_TOOL_ITERATIONS
    case Done(_) => MAX_TOOL_ITERATIONS
    case _ => 0
  }

  predicate RoundOk(pc: Pc) {
    Sent(pc) <= MAX_TOOL_ITERATIONS && (pc.Reading? || pc.Requesting? ==> Sent(pc) < MAX_TOOL_ITERATIONS)
  }

  function Own(o: Obs, t: nat): nat { if o.Request? && o.task == t then 1 else 0 }

  function RequestsBy(log: seq<Obs>, t: nat): nat {
    if log == [] then 0 else RequestsBy(log[..|log| - 1], t) + Own(log[|log| - 1], t)
  }

  ghost predicate Rationed(s: State) {
    forall t :: if t in s.tasks then RequestsBy(s.log, t) <= Sent(s.tasks[t]) && RoundOk(s.tasks[t])
                else RequestsBy(s.log, t) == 0
  }

  // ---------------------------------------------------------------- one move

  // The waiting receiver, the flag's writers, what may still begin, progress, and rounds.
  predicate Attentive(s: State, pc: Pc, turn: Turn) {
    (WaitOf(pc).Some? ==> Watching(s, WaitOf(pc).value)) && WaitOf(turn.pc).Some? ==>
      Watching(s, WaitOf(turn.pc).value) && !turn.effect.ClearCancel? && !turn.effect.RaiseCancel?
  }

  predicate Frugal(s: State, pc: Pc, turn: Turn) {
    && (turn.effect.ClearCancel? ==> pc.Entered?)
    && (turn.effect.ClearCancel? || turn.effect.RaiseCancel? ==> CanBegin(turn.pc) == 0)
    && (s.cancel ==> CanBegin(turn.pc) + Begins(turn.effect) <= CanBegin(pc))
    && (Begins(turn.effect) == 1 ==> InRun(pc))
  }

  predicate Progressing(s: State, pc: Pc, turn: Turn) {
    PastReset(pc) ==>
      if turn.effect.LowerFlag? then turn.pc.Done?
      else PastReset(turn.pc) && (s.cancel ==> StepsLeft(turn.pc) < StepsLeft(pc))
  }

  predicate Rounds(pc: Pc, turn: Turn) {
    RoundOk(pc) ==>
      RoundOk(turn.pc) && Sent(turn.pc) >= Sent(pc) + (if turn.effect.SendRequest? then 1 else 0)
  }

  // What a move may do, seen from the cancel flag.
  predicate Orderly(s: State, pc: Pc, turn: Turn) {
    Attentive(s, pc, turn) && Frugal(s, pc, turn) && Progressing(s, pc, turn) && Rounds(pc, turn)
  }

  lemma RunIsAttentive(s: State, pc: Pc, c: Choice, turn: Turn)
    requires MoveRun(s, pc, c) == Some(turn)
    ensures Attentive(s, pc, turn)
  {}

  lemma RunIsFrugal(s: State, pc: Pc, c: Choice, turn: Turn)
    requires MoveRun(s, pc, c) == Some(turn)
    ensures Frugal(s, pc, turn)
  {}

  lemma RunIsProgressing(s: State, pc: Pc, c: Choice, turn: Turn)
    requires MoveRun(s, pc, c) == Some(turn)
    ensures Progressing(s, pc, turn)
  {}

  lemma RunIsRounds(s: State, pc: Pc, c: Choice, turn: Turn)
    requires MoveRun(s, pc, c) == Some(turn)
    ensures Rounds(pc, turn)
  {}

  lemma ReplyIsAttentive(env: Env, s: State, pc: Pc, c: Choice, turn: Turn)
    requires MoveReply(env, s, pc, c) == Some(turn)
    ensures Attentive(s, pc, turn)
  {
    hide MakeBatch, NeedsApproval, CallsOf, Rejections, Meaningful, AssistantMessage;
  }

  lemma ReplyIsFrugal(env: Env, s: State, pc: Pc, c: Choice, turn: Turn)
    requires MoveReply(env, s, pc, c) == Some(turn)
    ensures Frugal(s, pc, turn)
  {
    hide MakeBatch, NeedsApproval, CallsOf, Rejections, Meaningful, AssistantMessage;
  }

  lemma ReplyIsProgressing(env: Env, s: State, pc: Pc, c: Choice, turn: Turn)
    requires MoveReply(env, s, pc, c) == Some(turn)
    ensures Progressing(s, pc, turn)
  {
    hide MakeBatch, NeedsApproval, CallsOf, Rejections, Meaningful, AssistantMessage;
  }

  lemma ReplyIsRounds(env: Env, s: State, pc: Pc, c: Choice, turn: Turn)
    requires MoveReply(env, s, pc, c) == Some(turn)
    ensures Rounds(pc, turn)
  {
    hide MakeBatch, NeedsApproval, CallsOf, Rejections, Meaningful, AssistantMessage;
  }

  lemma PromptIsAttentive(env: Env, s: State, pc: Pc, c: Choice, turn: Turn)
    requires MovePrompt(env, s, pc, c) == Some(turn)
    ensures Attentive(s, pc, turn)
  {
    hide Remember, Rejections;
  }

  lemma PromptIsFrugal(env: Env, s: State, pc: Pc, c: Choice, turn: Turn)
    requires MovePrompt(env, s, pc, c) == Some(turn)
    ensures Frugal(s, pc, turn)
  {
    hide Remember, Rejections;
  }

  lemma PromptIsProgressing(env: Env, s: State, pc: Pc, c: Choice, turn: Turn)
    requires MovePrompt(env, s, pc, c) == Some(turn)
    ensures Progressing(s, pc, turn)
  {
    hide Remember, Rejections;
  }

  lemma PromptIsRounds(env: Env, s: State, pc: Pc, c: Choice, turn: Turn)
    requires MovePrompt(env, s, pc, c) == Some(turn)
    ensures Rounds(pc, turn)
  {
    hide Remember, Rejections;
  }

  lemma ToolsIsAttentive(s: State, pc: Pc, c: Choice, turn: Turn)
    requires MoveTools(s, pc, c) == Some(turn)
    ensures Attentive(s, pc, turn)
  {
    hide Rejections, Joined, Answers;
  }

  lemma ToolsIsFrugal(s: State, pc: Pc, c: Choice, turn: Turn)
    requires MoveTools(s, pc, c) == Some(turn)
    ensures Frugal(s, pc, turn)
  {
    hide Rejections, Joined, Answers;
  }

  lemma ToolsIsProgressing(s: State, pc: Pc, c: Choice, turn: Turn)
    requires MoveTools(s, pc, c) == Some(turn)
    ensures Progressing(s, pc, turn)
  {
    hide MoveExecuting, Progressing, Rejections;
    match pc {
      case Executing(i, b, started, w) => ExecutingIsProgressing(s, i, b, started, w, c, turn);
      case _ => StoringIsProgressing(s, pc, c, turn);
    }
  }

  lemma StoringIsProgressing(s: State, pc: Pc, c: Choice, turn: Turn)
    requires MoveTools(s, pc, c) == Some(turn) && !pc.Executing?
    ensures Progressing(s, pc, turn)
  {
    hide MoveExecuting, Rejections;
  }

  lemma ExecutingIsProgressing(s: State, i: nat, b: Batch, started: bool, w: Wait, c: Choice, turn: Turn)
    requires MoveExecuting(s, i, b, started, w, c) == Some(turn)
    ensures Progressing(s, Executing(i, b, started, w), turn)
  {
    hide Rejections, Joined, Answers;
  }

  lemma ToolsIsRounds(s: State, pc: Pc, c: Choice, turn: Turn)
    requires MoveTools(s, pc, c) == Some(turn)
    ensures Rounds(pc, turn)
  {
    hide Rejections, Joined, Answers;
  }

  lemma CommandIsAttentive(s: State, pc: Pc, c: Choice, turn: Turn)
    requires MoveCommand(s, pc, c) == Some(turn)
    ensures Attentive(s, pc, turn)
  {}

  lemma CommandIsFrugal(s: State, pc: Pc, c: Choice, turn: Turn)
    requires MoveCommand(s, pc, c) == Some(turn)
    ensures Frugal(s, pc, turn)
  {}

  lemma CommandIsProgressing(s: State, pc: Pc, c: Choice, turn: Turn)
    requires MoveCommand(s, pc, c) == Some(turn)
    ensures Progressing(s, pc, turn)
  {}

  lemma CommandIsRounds(s: State, pc: Pc, c: Choice, turn: Turn)
    requires MoveCommand(s, pc, c) == Some(turn)
    ensures Rounds(pc, turn)
  {}

  lemma MovesAreOrderly(env: Env, s: State, pc: Pc, c: Choice, turn: Turn)
    requires Move(env, s, pc, c) == Some(turn)
    ensures Orderly(s, pc, turn)
  {
    hide MoveRun, MoveReply, MovePrompt, MoveTools, MoveCommand, Attentive, Frugal, Progressing, Rounds;
    match PhaseOf(pc) {
      case InLoop =>
        RunIsAttentive(s, pc, c, turn);
        RunIsFrugal(s, pc, c, turn);
        RunIsProgressing(s, pc, c, turn);
        RunIsRounds(s, pc, c, turn);
      case InReply =>
        ReplyIsAttentive(env, s, pc, c, turn);
        ReplyIsFrugal(env, s, pc, c, turn);
        ReplyIsProgressing(env, s, pc, c, turn);
        ReplyIsRounds(env, s, pc, c, turn);
      case InPrompt =>
        PromptIsAttentive(env, s, pc, c, turn);
        PromptIsFrugal(env, s, pc, c, turn);
        PromptIsProgressing(env, s, pc, c, turn);
        PromptIsRounds(env, s, pc, c, turn);
      case InTools =>
        ToolsIsAttentive(s, pc, c, turn);
        ToolsIsFrugal(s, pc, c, turn);
        ToolsIsProgressing(s, pc, c, turn);
        ToolsIsRounds(s, pc, c, turn);
      case InCommand =>
        CommandIsAttentive(s, pc, c, turn);
        CommandIsFrugal(s, pc, c, turn);
        CommandIsProgressing(s, pc, c, turn);
        CommandIsRounds(s, pc, c, turn);
    }
  }

  // ---------------------------------------------------------------- the invariants

  lemma LogStep(log: seq<Obs>, told: seq<Obs>)
    requires |told| <= 1
    ensures SinceCancel(log + told) == if told == [] then SinceCancel(log) else Count(SinceCancel(log), told[0])
    ensures forall t :: RequestsBy(log + told, t) == RequestsBy(log, t) + (if told == [] then 0 else Own(told[0], t))
  {
    if told == [] {
      assert log + told == log;
    } else {
      assert told == [told[0]];
      assert (log + told)[..|log|] == log;
    }
  }

  // What a step does to the cancel channel.
  lemma FlagAfter(s: State, t: nat, turn: Turn)
    ensures var s' := Advance(s, t, turn);
      && s'.tasks == s.tasks[t := turn.pc]
      && s'.cancel == (if turn.effect.RaiseCancel? then true else if turn.effect.ClearCancel? then false else s.cancel)
      && s'.version == s.version + (if turn.effect.RaiseCancel? || turn.effect.ClearCancel? then 1 else 0)
  {}

  lemma WatchfulStep(s: State, t: nat, turn: Turn)
    requires Watchful(s) && t in s.tasks && Orderly(s, s.tasks[t], turn)
    ensures Watchful(Advance(s, t, turn))
  {
    hide WaitOf, Frugal, Progressing, Rounds, Advance;
    var s' := Advance(s, t, turn);
    FlagAfter(s, t, turn);
    forall u | u in s'.tasks && WaitOf(s'.tasks[u]).Some?
      ensures Watching(s', WaitOf(s'.tasks[u]).value)
    {
      if u != t { assert Watching(s, WaitOf(s.tasks[u]).value); }
    }
  }

  // How one effect changes the flag and the tally.
  lemma TallyStep(s: State, t: nat, turn: Turn)
    ensures var s' := Advance(s, t, turn);
      SinceCancel(s'.log) ==
           if turn.effect.RaiseCancel? then (if SinceCancel(s.log).up then SinceCancel(s.log) else Tally(true, 0))
           else if turn.effect.ClearCancel? then Tally(false, 0)
           else SinceCancel(s.log).(begun := SinceCancel(s.log).begun + Begins(turn.effect))
  {
    hide SinceCancel, RequestsBy;
    LogStep(s.log, Told(t, turn.effect));
  }

  lemma SpareStep(s: State, t: nat, turn: Turn)
    requires Spare(s) && Exclusive(s) && t in s.tasks && Orderly(s, s.tasks[t], turn)
    ensures Spare(Advance(s, t, turn))
  {
    var s' := Advance(s, t, turn);
    hide Attentive, Progressing, Rounds, InRun, CanBegin, SinceCancel, Advance, Begins;
    TallyStep(s, t, turn);
    AtMostOneCanBegin(s, t);
    FlagAfter(s, t, turn);
  }

  lemma AtMostOneCanBegin(s: State, t: nat)
    requires Exclusive(s) && t in s.tasks
    ensures InRun(s.tasks[t]) ==> forall u :: u in s.tasks && u != t ==> CanBegin(s.tasks[u]) == 0
  {
    forall u | InRun(s.tasks[t]) && u in s.tasks && u != t
      ensures CanBegin(s.tasks[u]) == 0
    {
      OutsideCannotBegin(s.tasks[u]);
    }
  }

  lemma OutsideCannotBegin(pc: Pc)
    ensures !InRun(pc) ==> CanBegin(pc) == 0
  {}

  lemma RationedStep(s: State, t: nat, turn: Turn)
    requires Rationed(s) && t in s.tasks && Orderly(s, s.tasks[t], turn)
    ensures Rationed(Advance(s, t, turn))
  {
    hide Attentive, Frugal, Progressing, Sent, RoundOk, RequestsBy;
    var s' := Advance(s, t, turn);
    LogStep(s.log, Told(t, turn.effect));
    forall u
      ensures RequestsBy(s'.log, u) == RequestsBy(s.log, u) + (if turn.effect.SendRequest? && u == t then 1 else 0)
    {}
    FlagAfter(s, t, turn);
    hide Advance;
  }

  lemma CancellationStep(env: Env, s: State, a: Action, s': State)
    requires Watchful(s) && Spare(s) && Rationed(s) && Exclusive(s)
    requires Next(env, s, a) == Some(s')
    ensures Watchful(s') && Spare(s') && Rationed(s')
  {
    hide Move, Orderly, Advance, Watchful, Spare, Rationed, Exclusive;
    match a {
      case Spawn(t, pc) => SpawnKeeps(s, t, pc);
      case Configure(cfg) => ConfigureKeeps(s, cfg);
      case Step(t, c) =>
        var turn := Move(env, s, s.tasks[t], c).value;
        MovesAreOrderly(env, s, s.tasks[t], c, turn);
        WatchfulStep(s, t, turn);
        SpareStep(s, t, turn);
        RationedStep(s, t, turn);
    }
  }

  lemma SpawnKeeps(s: State, t: nat, pc: Pc)
    requires Watchful(s) && Spare(s) && Rationed(s) && t !in s.tasks && Fresh(pc)
    ensures var s' := s.(tasks := s.tasks[t := pc]); Watchful(s') && Spare(s') && Rationed(s')
  {
    assert WaitOf(pc).None? && CanBegin(pc) == 0 && Sent(pc) == 0 && RoundOk(pc);
    hide Sent, RoundOk, CanBegin, WaitOf, SinceCancel, RequestsBy;
  }

  lemma ConfigureKeeps(s: State, cfg: Config)
    requires Watchful(s) && Spare(s) && Rationed(s)
    ensures var s' := s.(cfg := cfg); Watchful(s') && Spare(s') && Rationed(s')
  {}
}
