// The other half of pairing: after a step that is not clean, no later request of the
// session is ever well paired again. Together with PairedRuns this says exactly which
// requests are.

module UnpairedRuns {
  import opened Types
  import opened Session
  import opened Approval
  import opened Exclusion
  import opened Gating
  import opened Pairing
  import opened PairedRuns
  import opened Runs
  import A = Accumulator
  import W = Wire

  // ---------------------------------------------------------------- what is past repair

  // Nothing the task at pc still does can close the history: it is broken, or open with
  // no answers to what is open on their way.
  predicate Ruined(env: Env, u: W.Open, pc: Pc) {
    match pc
    case Requesting(_, msgs) => u != CLOSED && W.Unanswered(msgs) != CLOSED
    case Replied(_, acc) => u.None? || (u != CLOSED && !Runnable(env, acc))
    case Answering(_, rs, _) => u.None? || (u != CLOSED && AllResults(rs) && u != Some(multiset(ResultIds(rs))))
    case Pushing(m, r) =>
      u != CLOSED && W.MessageStep(u, m) != CLOSED && (r.AfterReply? ==> W.MessageStep(u, m).None?)
    case _ => if HoldsBatch(pc) then u.None? else u != CLOSED
  }

  // A move of a ruined task keeps it ruined, asks for nothing paired, and ends the run on
  // an open history.
  predicate KeepsRuin(env: Env, u: W.Open, turn: Turn) {
    && (InRun(turn.pc) ==> Ruined(env, OpenAfter(u, turn.effect), turn.pc))
    && (turn.effect.SendRequest? ==> W.Unanswered(turn.effect.msgs) != CLOSED)
    && (turn.effect.LowerFlag? ==> u != CLOSED)
  }

  lemma RunKeepsRuin(env: Env, s: State, pc: Pc, c: Choice, turn: Turn)
    requires MoveRun(s, pc, c) == Some(turn)
    requires InRun(pc) ==> Ruined(env, W.Unanswered(s.cached), pc)
    requires !s.generating ==> W.Unanswered(s.cached) != CLOSED
    ensures KeepsRuin(env, W.Unanswered(s.cached), turn)
  {
    hide W.Unanswered, W.MessageStep, Runnable;
  }

  // An assistant message behind an open history.
  lemma ReplyBreaks(u: W.Open, m: Message)
    requires u != CLOSED && m.role == Assistant
    ensures W.MessageStep(u, m) == None
  {}

  lemma ReplyKeepsRuin(env: Env, s: State, pc: Pc, c: Choice, turn: Turn)
    requires MoveReply(env, s, pc, c) == Some(turn) && Ruined(env, W.Unanswered(s.cached), pc)
    ensures KeepsRuin(env, W.Unanswered(s.cached), turn)
  {
    hide W.Unanswered, W.MessageStep, MakeBatch, NeedsApproval, CallsOf, Rejections, Meaningful, TextContent, A.Apply;
    if turn.pc.Pushing? && W.Unanswered(s.cached) != CLOSED { ReplyBreaks(W.Unanswered(s.cached), turn.pc.msg); }
  }

  lemma PromptKeepsRuin(env: Env, s: State, pc: Pc, c: Choice, turn: Turn)
    requires MovePrompt(env, s, pc, c) == Some(turn) && Ruined(env, W.Unanswered(s.cached), pc)
    ensures KeepsRuin(env, W.Unanswered(s.cached), turn)
  {
    hide W.Unanswered, W.MessageStep, Remember, Rejections;
  }

  // Results that do not answer what is open, and an error in their place.
  lemma AnswerKeepsOpen(u: W.Open, id: int, now: int, rs: seq<ContentBlock>)
    requires u.None? || (u != CLOSED && AllResults(rs) && u != Some(multiset(ResultIds(rs))))
    ensures W.MessageStep(u, ResultsMessage(id, now, rs)) != CLOSED
  {
    var m := ResultsMessage(id, now, rs);
    if u.None? {
      BrokenStep(m);
    } else if rs == [] {
      AppendStep(u, m);
    } else {
      ResultsClose(u.value, id, now, rs);
    }
  }

  lemma BrokenStep(m: Message)
    ensures W.MessageStep(None, m) == None
  {
    BrokenBlocks(m.content);
  }

  lemma ErrorBreaks(u: W.Open, id: int, now: int, error: string)
    requires u != CLOSED
    ensures W.MessageStep(u, ToolErrorMessage(id, now, error)) == None
  {
    if u.None? {
      BrokenStep(ToolErrorMessage(id, now, error));
    } else {
      ErrorStep(u.value, id, now, error);
    }
  }

  lemma ToolsKeepsRuin(env: Env, s: State, pc: Pc, c: Choice, turn: Turn)
    requires MoveTools(s, pc, c) == Some(turn) && Ruined(env, W.Unanswered(s.cached), pc)
    ensures KeepsRuin(env, W.Unanswered(s.cached), turn)
  {
    hide W.Unanswered, W.MessageStep, Rejections, Joined, Answers, Runnable, ResultIds, AllResults;
    match pc {
      case Answering(_, rs, _) =>
        if c.Row? { AnswerKeepsOpen(W.Unanswered(s.cached), c.id, c.now, rs); }
      case Erring(_, error) =>
        if c.Row? { ErrorBreaks(W.Unanswered(s.cached), c.id, c.now, error); }
      case _ =>
    }
  }

  lemma MovesKeepRuin(env: Env, s: State, pc: Pc, c: Choice, turn: Turn)
    requires Move(env, s, pc, c) == Some(turn)
    requires InRun(pc) ==> Ruined(env, W.Unanswered(s.cached), pc)
    requires !s.generating ==> W.Unanswered(s.cached) != CLOSED
    ensures KeepsRuin(env, W.Unanswered(s.cached), turn)
  {
    hide MoveRun, MoveReply, MovePrompt, MoveTools, MoveCommand, Ruined, KeepsRuin, W.Unanswered;
    match PhaseOf(pc) {
      case InLoop => RunKeepsRuin(env, s, pc, c, turn);
      case InReply => ReplyKeepsRuin(env, s, pc, c, turn);
      case InPrompt => PromptKeepsRuin(env, s, pc, c, turn);
      case InTools =>
        if InRun(pc) { ToolsKeepsRuin(env, s, pc, c, turn); } else { OutsideRuinsNothing(env, s, pc, c, turn); }
      case InCommand => OutsideRuinsNothing(env, s, pc, c, turn);
    }
  }

  lemma OutsideRuinsNothing(env: Env, s: State, pc: Pc, c: Choice, turn: Turn)
    requires Move(env, s, pc, c) == Some(turn) && !InRun(pc) && PhaseOf(pc) != InLoop
    ensures KeepsRuin(env, W.Unanswered(s.cached), turn)
  {
    hide W.Unanswered, W.MessageStep, MoveRun, MoveReply, MovePrompt, MoveExecuting, Ruined, TextContent;
  }

  // ---------------------------------------------------------------- how a run is ruined

  lemma UncleanStop(env: Env, u: W.Open, i: nat, b: Batch)
    requires Awaits(env, u, b) && b.denied != []
    ensures KeepsRuin(env, u, Turn(Answering(i, Rejections(b.remaining, STOPPED), Close), Nothing))
  {
    hide Rejections, ResultIds, Genuine, CallIds, AllResults;
    StoppedBatch(env, b);
    SomeOpen(b.calls);
  }

  lemma UncleanResults(env: Env, u: W.Open, i: nat, b: Batch, results: seq<Option<ContentBlock>>)
    requires Awaits(env, u, b) && Answers(results, b.remaining) && !AllJoined(results)
    ensures KeepsRuin(env, u, Turn(Answering(i, Rejections(b.denied, BLOCKED) + Joined(results), Loop), Nothing))
  {
    hide Rejections, ResultIds, Genuine, CallIds, AllResults, Joined, Answers, AllJoined;
    ExecutedBatch(env, b, results);
    SomeOpen(b.calls);
  }

  // A cached reply whose calls nobody will run.
  lemma UncleanReply(env: Env, m: Message, r: Resume, effect: Effect)
    requires m.role == Assistant && !r.AfterAppend? && effect == Cache(m)
    requires if r.AfterReply? then m.content == r.acc.blocks && !Runnable(env, r.acc) else CallsOf(m.content) != []
    ensures KeepsRuin(env, CLOSED, Turn(Resumed(r), effect))
  {
    hide W.MessageStep, OpenFor, CallsOf;
    ReplyOpens(m);
    SomeOpen(CallsOf(m.content));
  }

  lemma UncleanTools(env: Env, s: State, pc: Pc, c: Choice, turn: Turn)
    requires MoveTools(s, pc, c) == Some(turn) && Expects(env, W.Unanswered(s.cached), pc)
    requires !Clean(env, s, pc, c) && InRun(pc)
    ensures KeepsRuin(env, W.Unanswered(s.cached), turn)
  {
    hide W.Unanswered, W.MessageStep, Rejections, Joined, Answers, ResultIds, AllResults, Genuine, AllJoined;
    hide Shows, Owed, Runnable, CallsOf;
    var u := W.Unanswered(s.cached);
    match pc {
      case Gate(i, b) => UncleanStop(env, u, i, b);
      case Executing(i, b, _, w) =>
        SomeOpen(b.calls);
        if b.denied != [] { UncleanStop(env, u, i, b); }
        if c.Results? && Answers(c.results, b.remaining) && !AllJoined(c.results) {
          UncleanResults(env, u, i, b, c.results);
        }
      case Pushing(m, r) => if m.role == Assistant { UncleanReply(env, m, r, turn.effect); }
      case _ =>
    }
  }

  // A step that is not clean, taken inside a run that was, ruins it.
  lemma UncleanRuins(env: Env, s: State, pc: Pc, c: Choice, turn: Turn)
    requires Move(env, s, pc, c) == Some(turn) && Expects(env, W.Unanswered(s.cached), pc)
    requires !Clean(env, s, pc, c) && InRun(pc)
    ensures KeepsRuin(env, W.Unanswered(s.cached), turn) && !turn.effect.LowerFlag?
  {
    hide MoveRun, MoveReply, MovePrompt, MoveTools, MoveCommand, Expects, KeepsRuin, Clean;
    hide W.Unanswered, Owed, Shows, W.HasToolResults;
    UncleanIsLocal(env, s, pc, c, turn);
    UncleanTools(env, s, pc, c, turn);
  }

  lemma UncleanIsLocal(env: Env, s: State, pc: Pc, c: Choice, turn: Turn)
    requires Move(env, s, pc, c) == Some(turn) && !Clean(env, s, pc, c)
    ensures PhaseOf(pc) == InTools && !turn.effect.LowerFlag?
  {
    hide MoveRun, MoveReply, MovePrompt, MoveCommand, Rejections, Joined, Answers, CallsOf;
    hide Owed, Shows, W.HasToolResults;
  }

  // ---------------------------------------------------------------- states

  ghost predicate Spoiled(env: Env, s: State) {
    && (forall t :: t in s.tasks && InRun(s.tasks[t]) ==> Ruined(env, W.Unanswered(s.cached), s.tasks[t]))
    && (!s.generating ==> W.Unanswered(s.cached) != CLOSED)
  }

  // The messages a user appends carry no tool results.
  predicate PlainTask(pc: Pc) {
    match pc
    case Appending(content) => !W.HasToolResults(content)
    case Pushing(m, AfterAppend) => m.role == User && !W.HasToolResults(m.content)
    case _ => true
  }

  predicate PlainAction(a: Action) { a.Spawn? ==> PlainTask(a.pc) }

  ghost predicate Plain(s: State) { forall t :: t in s.tasks ==> PlainTask(s.tasks[t]) }

  lemma MovesStayPlain(env: Env, s: State, pc: Pc, c: Choice, turn: Turn)
    requires Move(env, s, pc, c) == Some(turn) && PlainTask(pc)
    ensures PlainTask(turn.pc)
  {
    hide MoveRun, MovePrompt, MoveReplied, MoveExecuting;
    hide A.Apply, TextContent, Meaningful, Rejections, W.HasToolResults;
    if PhaseOf(pc) == InLoop || PhaseOf(pc) == InPrompt || pc.Executing? {
      PlainLoops(env, s, pc, c, turn);
    } else if pc.Replied? {
      PlainReply(env, s, pc, c, turn);
    }
  }

  lemma PlainLoops(env: Env, s: State, pc: Pc, c: Choice, turn: Turn)
    requires Move(env, s, pc, c) == Some(turn)
    requires PhaseOf(pc) == InLoop || PhaseOf(pc) == InPrompt || pc.Executing?
    ensures PlainTask(turn.pc)
  {
    hide MoveReply, MoveCommand, Remember, Rejections, Joined, Answers, W.HasToolResults;
  }

  lemma PlainReply(env: Env, s: State, pc: Pc, c: Choice, turn: Turn)
    requires Move(env, s, pc, c) == Some(turn) && pc.Replied?
    ensures PlainTask(turn.pc)
  {
    hide MakeBatch, NeedsApproval, CallsOf, Rejections, W.HasToolResults;
  }

  lemma PlainStep(env: Env, s: State, a: Action, s': State)
    requires Plain(s) && PlainAction(a) && Next(env, s, a) == Some(s')
    ensures Plain(s')
  {
    hide Move, PlainTask;
    if a.Step? { MovesStayPlain(env, s, s.tasks[a.task], a.choice, Move(env, s, s.tasks[a.task], a.choice).value); }
  }

  // A broken history ruins any task that has not read an unbroken one.
  lemma BrokenRuins(env: Env, pc: Pc)
    requires InRun(pc) && (pc.Requesting? ==> W.Unanswered(pc.msgs) != CLOSED)
    ensures Ruined(env, None, pc)
  {
    hide W.Unanswered, W.MessageStep, Runnable;
    if pc.Pushing? { BrokenStep(pc.msg); }
  }

  // A task outside the run changes what is open only by a user's message.
  lemma PushFromOutside(env: Env, s: State, pc: Pc, c: Choice, turn: Turn)
    requires Move(env, s, pc, c) == Some(turn) && PlainTask(pc) && !InRun(pc)
    ensures var u, u' := W.Unanswered(s.cached), OpenAfter(W.Unanswered(s.cached), turn.effect);
      u' == if turn.effect.Cache? && u != CLOSED && Shows(turn.effect.msg) then None else u
    ensures turn.effect.Cache? ==> pc.Pushing? && pc.resume.AfterAppend? && turn.effect.msg == pc.msg
  {
    hide Move, W.Unanswered, W.MessageStep, W.HasToolResults, Shows;
    if turn.effect.Cache? {
      CachesWhatItCarries(env, s, pc, c, turn);
      AppendStep(W.Unanswered(s.cached), pc.msg);
    }
  }

  lemma MoverSpoils(env: Env, s: State, t: nat, turn: Turn, u: W.Open)
    requires t in s.tasks && Exclusive(s) && Disciplined(s, s.tasks[t], turn)
    requires u == OpenAfter(W.Unanswered(s.cached), turn.effect)
    requires InRun(turn.pc) ==> Ruined(env, u, turn.pc)
    requires !InRun(s.tasks[t]) ==>
      forall v :: v in s.tasks && v != t && InRun(s.tasks[v]) ==> Ruined(env, u, s.tasks[v])
    requires !Advance(s, t, turn).generating ==> u != CLOSED
    ensures Spoiled(env, Advance(s, t, turn))
  {
    hide W.Unanswered, Ruined, InRun, W.MessageStep;
    OpenStep(s, t, turn);
  }

  // A spoiled session stays spoiled, whatever its tasks do.
  lemma SpoiledStep(env: Env, s: State, a: Action, s': State)
    requires Spoiled(env, s) && Exclusive(s) && Plain(s) && Next(env, s, a) == Some(s')
    ensures Spoiled(env, s')
  {
    hide Move, W.Unanswered, Ruined, InRun, PlainTask, W.MessageStep, Shows;
    match a {
      case Spawn(t, pc) => FreshIsOutside(pc);
      case Configure(_) =>
      case Step(t, c) =>
        var turn, u := Move(env, s, s.tasks[t], c).value, W.Unanswered(s.cached);
        MovesAreDisciplined(env, s, s.tasks[t], c, turn);
        MovesKeepRuin(env, s, s.tasks[t], c, turn);
        if !InRun(s.tasks[t]) {
          PushFromOutside(env, s, s.tasks[t], c, turn);
          forall v | v in s.tasks && v != t && InRun(s.tasks[v])
            ensures Ruined(env, OpenAfter(u, turn.effect), s.tasks[v])
          {
            RuinedRead(env, u, s.tasks[v]);
            BrokenRuins(env, s.tasks[v]);
          }
        }
        MoverSpoils(env, s, t, turn, OpenAfter(u, turn.effect));
    }
  }

  lemma RuinedRead(env: Env, u: W.Open, pc: Pc)
    requires Ruined(env, u, pc)
    ensures pc.Requesting? ==> W.Unanswered(pc.msgs) != CLOSED
  {}

  // The first step that is not clean spoils a session that was paired.
  lemma UncleanSpoils(env: Env, s: State, a: Action, s': State)
    requires PairInv(env, s) && Exclusive(s) && Plain(s) && Next(env, s, a) == Some(s')
    requires !CleanAction(env, s, a)
    ensures Spoiled(env, s')
  {
    hide Move, Expects, Clean, W.Unanswered, Ruined, InRun, PlainTask, W.MessageStep, Shows, Owed;
    var t, c := a.task, a.choice;
    var turn, u := Move(env, s, s.tasks[t], c).value, W.Unanswered(s.cached);
    MovesAreDisciplined(env, s, s.tasks[t], c, turn);
    if InRun(s.tasks[t]) {
      UncleanRuins(env, s, s.tasks[t], c, turn);
      MoverSpoils(env, s, t, turn, OpenAfter(u, turn.effect));
    } else {
      UncleanPush(env, s, s.tasks[t], c, turn);
      forall v | v in s.tasks && v != t && InRun(s.tasks[v])
        ensures Ruined(env, None, s.tasks[v])
      {
        ExpectedRead(env, u, s.tasks[v]);
        BrokenRuins(env, s.tasks[v]);
      }
      MoverSpoils(env, s, t, turn, None);
    }
  }

  lemma ExpectedRead(env: Env, u: W.Open, pc: Pc)
    requires Expects(env, u, pc) && u != CLOSED
    ensures !pc.Requesting?
  {}

  // Text pushed while answers are owed breaks the history.
  lemma UncleanPush(env: Env, s: State, pc: Pc, c: Choice, turn: Turn)
    requires PairInv(env, s) && Exclusive(s)
    requires Move(env, s, pc, c) == Some(turn) && PlainTask(pc) && !InRun(pc) && !Clean(env, s, pc, c)
    ensures W.Unanswered(s.cached) != CLOSED && OpenAfter(W.Unanswered(s.cached), turn.effect) == None
    ensures !InRun(turn.pc)
  {
    hide W.Unanswered, W.MessageStep, Shows, Owed, W.HasToolResults, Expects;
    OwedIsOpen(env, s);
    AppendStep(W.Unanswered(s.cached), pc.msg);
  }

  // ---------------------------------------------------------------- executions

  ghost predicate PlainExecution(env: Env, states: seq<State>, actions: seq<Action>) {
    Execution(env, states, actions) && forall n :: 0 <= n < |actions| ==> PlainAction(actions[n])
  }

  ghost predicate AllClean(env: Env, states: seq<State>, actions: seq<Action>, i: nat, j: nat)
    requires i <= j <= |actions| && |states| == |actions| + 1
  {
    forall n :: i <= n < j ==> CleanAction(env, states[n], actions[n])
  }

  lemma {:induction false} StaysPlain(env: Env, states: seq<State>, actions: seq<Action>, k: nat)
    requires PlainExecution(env, states, actions) && k <= |actions|
    ensures Plain(states[k])
  {
    hide Next, PlainTask;
    if k > 0 {
      StaysPlain(env, states, actions, k - 1);
      PlainStep(env, states[k - 1], actions[k - 1], states[k]);
    }
  }

  lemma {:induction false} StaysSpoiled(env: Env, states: seq<State>, actions: seq<Action>, k: nat, n: nat)
    requires PlainExecution(env, states, actions) && k <= n <= |actions| && Spoiled(env, states[k])
    ensures Spoiled(env, states[n])
    decreases n
  {
    hide Next, Safe, Spoiled, PlainAction, Init;
    if k < n {
      StaysSpoiled(env, states, actions, k, n - 1);
      StaysPlain(env, states, actions, n - 1);
      ExecutionIsSafe(env, states, actions, n - 1);
      SafeIsExclusive(env, states[n - 1]);
      SpoiledStep(env, states[n - 1], actions[n - 1], states[n]);
    }
  }

  // From a closed history a session is paired while all its steps are clean, and spoiled
  // from the first that is not.
  lemma {:induction false} PairedOrSpoiled(env: Env, states: seq<State>, actions: seq<Action>, k: nat)
    requires PlainExecution(env, states, actions) && k <= |actions|
    requires W.Unanswered(states[0].cached) == CLOSED
    ensures if AllClean(env, states, actions, 0, k) then PairInv(env, states[k]) else Spoiled(env, states[k])
  {
    hide Next, Safe, Spoiled, PairInv, PlainAction, Init, CleanAction;
    if k == 0 {
      InitIsPaired(env, states[0]);
    } else {
      var s, a := states[k - 1], actions[k - 1];
      PairedOrSpoiled(env, states, actions, k - 1);
      StaysPlain(env, states, actions, k - 1);
      ExecutionIsSafe(env, states, actions, k - 1);
      SafeIsExclusive(env, s);
      if !AllClean(env, states, actions, 0, k - 1) {
        SpoiledStep(env, s, a, states[k]);
      } else if CleanAction(env, s, a) {
        PairStep(env, s, a, states[k]);
      } else {
        UncleanSpoils(env, s, a, states[k]);
      }
    }
  }

  lemma QuietIsClosed(env: Env, s: State)
    requires !s.generating
    ensures PairInv(env, s) ==> W.Unanswered(s.cached) == CLOSED
    ensures Spoiled(env, s) ==> W.Unanswered(s.cached) != CLOSED
  {}

  // Between runs, a session that started from a closed history has a closed one exactly
  // when every step so far was clean.
  lemma ClosedIffClean(env: Env, states: seq<State>, actions: seq<Action>, k: nat)
    requires PlainExecution(env, states, actions) && k <= |actions| && !states[k].generating
    requires W.Unanswered(states[0].cached) == CLOSED
    ensures W.Unanswered(states[k].cached) == CLOSED <==> AllClean(env, states, actions, 0, k)
  {
    hide Next, Spoiled, PairInv, PlainAction, Init, CleanAction, W.Unanswered;
    PairedOrSpoiled(env, states, actions, k);
    QuietIsClosed(env, states[k]);
  }

  // A run, or several, that began on a closed history ends on a closed one exactly when
  // each of its steps was clean.
  lemma RunClosesIffClean(env: Env, states: seq<State>, actions: seq<Action>, i: nat, j: nat)
    requires PlainExecution(env, states, actions) && i <= j <= |actions|
    requires !states[i].generating && !states[j].generating && W.Unanswered(states[i].cached) == CLOSED
    ensures W.Unanswered(states[j].cached) == CLOSED <==> AllClean(env, states, actions, i, j)
  {
    hide Next, Spoiled, PairInv, PlainAction, CleanAction, W.Unanswered;
    if W.Unanswered(states[0].cached) != CLOSED {
      SpoiledFromStart(env, states[0]);
      StaysSpoiled(env, states, actions, 0, i);
      QuietIsClosed(env, states[i]);
    } else {
      ClosedIffClean(env, states, actions, i);
      ClosedIffClean(env, states, actions, j);
    }
  }

  lemma SpoiledFromStart(env: Env, s: State)
    requires Init(s) && W.Unanswered(s.cached) != CLOSED
    ensures Spoiled(env, s)
  {}

  // ---------------------------------------------------------------- requests

  // The step is the one that sends this request.
  predicate Asks(s: State, s': State, t: nat, msgs: seq<Message>) { s'.log == s.log + [Request(t, msgs)] }

  lemma AskingTask(env: Env, s: State, a: Action, s': State, t: nat, msgs: seq<Message>)
    requires Next(env, s, a) == Some(s') && Asks(s, s', t, msgs)
    ensures a == Step(t, Go) && t in s.tasks && s.tasks[t].Requesting? && s.tasks[t].msgs == msgs
  {
    hide Move;
    var told := [Request(t, msgs)];
    assert s'.log[|s.log|..] == told;
    assert a.Step?;
    var turn := Move(env, s, s.tasks[a.task], a.choice).value;
    assert (s.log + Told(a.task, turn.effect))[|s.log|..] == Told(a.task, turn.effect);
    assert told[0] == Told(a.task, turn.effect)[0];
    SendingMoves(env, s, s.tasks[a.task], a.choice, turn);
  }

  lemma SendingMoves(env: Env, s: State, pc: Pc, c: Choice, turn: Turn)
    requires Move(env, s, pc, c) == Some(turn) && turn.effect.SendRequest?
    ensures c == Go && pc.Requesting? && pc.msgs == turn.effect.msgs
  {
    hide MoveReplied, Decide, A.Apply, TextContent, Meaningful, Rejections, Joined, Answers;
    if pc.Replied? && c == Go { RepliedEffect(env, s, pc.iter, pc.acc); }
    if pc.Applying? { DecideEffect(env, s, pc.iter, pc.batch, pc.decision); }
  }

  lemma AskingIsKnown(env: Env, s: State, t: nat)
    requires t in s.tasks && s.tasks[t].Requesting?
    ensures PairInv(env, s) ==> W.Unanswered(s.tasks[t].msgs) == CLOSED
    ensures Spoiled(env, s) ==> W.Unanswered(s.tasks[t].msgs) != CLOSED
  {
    hide W.Unanswered;
  }

  // A request is well paired on the wire if and only if every step of the session before
  // it was clean.
  lemma PairedIffClean(env: Env, states: seq<State>, actions: seq<Action>, n: nat, t: nat, msgs: seq<Message>,
                       dialect: W.Dialect, systemPrompt: Option<string>)
    requires PlainExecution(env, states, actions) && n < |actions|
    requires W.Unanswered(states[0].cached) == CLOSED
    requires Asks(states[n], states[n + 1], t, msgs)
    ensures W.WellPaired(W.Converted(dialect, systemPrompt, msgs)) <==> AllClean(env, states, actions, 0, n)
  {
    hide Next, Spoiled, PairInv, PlainAction, Init, CleanAction, Asks, W.Unanswered, W.WellPaired, W.Converted;
    AskingTask(env, states[n], actions[n], states[n + 1], t, msgs);
    PairedOrSpoiled(env, states, actions, n);
    AskingIsKnown(env, states[n], t);
    W.PairedOnTheWire(dialect, systemPrompt, msgs);
  }

  // The task's next messages depend on something it read or was given earlier.
  predicate Pivotal(pc: Pc) { pc.Requesting? || Owing(pc) || pc.Replied? || (pc.Pushing? && !pc.resume.AfterAppend?) }

  // A history once open with nothing on its way to close it: no later request is well
  // paired, however many runs follow.
  lemma OpenNeverRecovers(env: Env, states: seq<State>, actions: seq<Action>, k: nat, n: nat, t: nat,
                          msgs: seq<Message>, dialect: W.Dialect, systemPrompt: Option<string>)
    requires PlainExecution(env, states, actions) && k <= n < |actions|
    requires W.Unanswered(states[k].cached) != CLOSED
    requires forall v :: v in states[k].tasks ==> !Pivotal(states[k].tasks[v])
    requires Asks(states[n], states[n + 1], t, msgs)
    ensures !W.WellPaired(W.Converted(dialect, systemPrompt, msgs))
  {
    hide Next, PlainAction, Init, Asks, W.Unanswered, W.WellPaired, W.Converted;
    AskingTask(env, states[n], actions[n], states[n + 1], t, msgs);
    StaysSpoiled(env, states, actions, k, n);
    AskingIsKnown(env, states[n], t);
    W.PairedOnTheWire(dialect, systemPrompt, msgs);
  }
}
