// Runs that only ever send well paired requests.

module PairedRuns {
  import opened Types
  import opened Session
  import opened Approval
  import opened Exclusion
  import opened Gating
  import opened Pairing
  import Consistency
  import A = Accumulator
  import T = Text
  import W = Wire

  // The task has calls in the history, or is about to answer calls, whose answers are not
  // there yet.
  predicate Owing(pc: Pc) {
    match pc
    case Replied(_, acc) => CallsOf(acc.blocks) != []
    case Pushing(m, r) => !r.AfterAppend? && m.role == User
    case _ => HoldsBatch(pc) || pc.Erring? || pc.Answering?
  }

  predicate HoldsBatch(pc: Pc) {
    pc.Announcing? || pc.Prompting? || pc.Resolved? || pc.Applying? || pc.Gate? || pc.Executing?
  }

  predicate Owed(s: State) { exists t :: t in s.tasks && Owing(s.tasks[t]) }

  // A user message that converts to something.
  predicate Shows(m: Message) { T.Join(TextsOf(m.content), "\n") != "" }

  // The steps that leave no call unanswered. The others: caching a stopped or finished
  // reply whose calls nobody will run, a stop after the gate while the deny list had
  // blocked something, a tool error, a tool task that does not join, results whose write
  // fails or is torn, and a user's text pushed between calls and their answers.
  predicate Clean(env: Env, s: State, pc: Pc, c: Choice) {
    match pc
    case Gate(_, b) => s.cancel ==> b.denied == []
    case Executing(_, b, _, w) =>
      && !c.ToolsFail?
      && (c.Results? ==> AllJoined(c.results))
      && (c == Go && (w.Borrowing? || w.Woken?) && s.cancel ==> b.denied == [])
    case Answering(_, _, _) => c != Fail
    case Pushing(m, AfterAppend) => c == Go ==> !W.HasToolResults(m.content) && (Shows(m) ==> !Owed(s))
    case Pushing(_, AfterReply(_, acc)) => c == Go ==> Runnable(env, acc)
    case Pushing(m, _) => if m.role == User then c != Fail else c == Go ==> CallsOf(m.content) == []
    case _ => true
  }

  predicate Runnable(env: Env, acc: A.Acc) {
    CallsOf(acc.blocks) == [] || (acc.stop == Some(ToolUseStop) && env.hasExecutor)
  }

  // The history leaves exactly the calls of a batch open, and there are some.
  predicate Awaits(env: Env, u: W.Open, b: Batch) { u == OpenFor(b.calls) && b.calls != [] && Genuine(env, b) }

  // What the history leaves open while a task of the run stands at pc.
  predicate Expects(env: Env, u: W.Open, pc: Pc) {
    match pc
    case Replied(_, acc) => u == OpenFor(CallsOf(acc.blocks)) && Runnable(env, acc)
    case Announcing(_, b) => Awaits(env, u, b)
    case Prompting(_, b, _, _) => Awaits(env, u, b)
    case Resolved(_, b, _, _) => Awaits(env, u, b)
    case Applying(_, b, _) => Awaits(env, u, b)
    case Gate(_, b) => Awaits(env, u, b)
    case Executing(_, b, _, _) => Awaits(env, u, b)
    case Erring(_, _) => false
    case Answering(_, rs, _) => AllResults(rs) && u == Some(multiset(ResultIds(rs))) && u != CLOSED
    case Requesting(_, msgs) => u == CLOSED && W.Unanswered(msgs) == CLOSED
    case Pushing(m, r) =>
      if r.AfterAppend? then m.role == User
      else if m.role == User then !r.AfterReply? && u != CLOSED && W.MessageStep(u, m) == CLOSED
      else u == CLOSED && (r.AfterReply? ==> m.content == r.acc.blocks)
    case _ => InRun(pc) ==> u == CLOSED
  }

  function OpenAfter(u: W.Open, e: Effect): W.Open { if e.Cache? then W.MessageStep(u, e.msg) else u }

  // A clean move keeps what is expected, and what it sends is paired.
  predicate KeepsPairs(env: Env, u: W.Open, turn: Turn) {
    && Expects(env, OpenAfter(u, turn.effect), turn.pc)
    && (turn.effect.SendRequest? ==> W.Unanswered(turn.effect.msgs) == CLOSED)
    && (turn.effect.LowerFlag? ==> u == CLOSED)
  }

  lemma RunKeepsPairs(env: Env, s: State, pc: Pc, c: Choice, turn: Turn)
    requires MoveRun(s, pc, c) == Some(turn)
    requires Expects(env, W.Unanswered(s.cached), pc) && (!s.generating ==> W.Unanswered(s.cached) == CLOSED)
    ensures KeepsPairs(env, W.Unanswered(s.cached), turn)
  {
    hide W.Unanswered, W.MessageStep, Genuine, Runnable, CallsOf;
  }

  lemma ReplyKeepsPairs(env: Env, s: State, pc: Pc, c: Choice, turn: Turn)
    requires MoveReply(env, s, pc, c) == Some(turn)
    requires Expects(env, W.Unanswered(s.cached), pc)
    ensures KeepsPairs(env, W.Unanswered(s.cached), turn)
  {
    hide W.Unanswered, MoveReplied, Meaningful, CallsOf, W.HasToolResults, W.BlocksScan, TextContent, A.Apply;
    match pc {
      case Replied(i, acc) => RepliedKeepsPairs(env, s, i, acc, turn);
      case _ =>
    }
  }

  lemma RepliedKeepsPairs(env: Env, s: State, i: nat, acc: A.Acc, turn: Turn)
    requires MoveReplied(env, s, i, acc) == Some(turn)
    requires Expects(env, W.Unanswered(s.cached), Replied(i, acc))
    ensures KeepsPairs(env, W.Unanswered(s.cached), turn)
  {
    hide W.Unanswered, CallsOf, NeedsApproval, MakeBatch, Genuine, Rejections, KeepsPairs, CallIds;
    var u, calls := W.Unanswered(s.cached), CallsOf(acc.blocks);
    var b := MakeBatch(env, s.cfg, calls);
    MadeIsGenuine(env, s.cfg, calls);
    if calls == [] {
      NoCalls();
      EndKeepsPairs(env, i);
    } else {
      BatchKeepsPairs(env, u, i, b);
    }
  }

  lemma EndKeepsPairs(env: Env, i: nat)
    ensures KeepsPairs(env, CLOSED, Turn(Session.Ending(i), Nothing))
  {}

  // The three ways on from a batch.
  lemma BatchKeepsPairs(env: Env, u: W.Open, i: nat, b: Batch)
    requires Awaits(env, u, b)
    ensures KeepsPairs(env, u, Turn(Announcing(i, b), ReadPolicy(b, true)))
    ensures KeepsPairs(env, u, Turn(Gate(i, b), ReadPolicy(b, false)))
    ensures b.remaining == [] ==>
      KeepsPairs(env, u, Turn(Answering(i, Rejections(b.denied, BLOCKED), Loop), ReadPolicy(b, false)))
  {
    hide Genuine, Rejections, CallIds, ResultIds, AllResults, W.MessageStep;
    RejectedBatchIsAnswered(env, b, BLOCKED, BLOCKED);
    SomeOpen(b.calls);
    if b.remaining == [] { OnlyDenied(b); }
  }

  lemma NoCalls()
    ensures OpenFor([]) == CLOSED
  {
    assert CallIds([]) == [];
  }

  lemma SomeOpen(calls: seq<Call>)
    requires calls != []
    ensures OpenFor(calls) != CLOSED
  {
    assert |multiset(CallIds(calls))| == |calls|;
  }

  lemma OnlyDenied(b: Batch)
    requires b.remaining == []
    ensures Rejections(b.denied, BLOCKED) + Rejections(b.remaining, BLOCKED) == Rejections(b.denied, BLOCKED)
  {}

  lemma PromptKeepsPairs(env: Env, s: State, pc: Pc, c: Choice, turn: Turn)
    requires MovePrompt(env, s, pc, c) == Some(turn)
    requires Expects(env, W.Unanswered(s.cached), pc)
    ensures KeepsPairs(env, W.Unanswered(s.cached), turn)
  {
    hide W.Unanswered, Decide, Genuine, CallIds, AllResults, W.MessageStep;
    match pc {
      case Applying(i, b, d) => DecideKeepsPairs(env, s, i, b, d);
      case _ =>
    }
  }

  lemma DecideKeepsPairs(env: Env, s: State, i: nat, b: Batch, d: Decision)
    requires Awaits(env, W.Unanswered(s.cached), b)
    ensures KeepsPairs(env, W.Unanswered(s.cached), Decide(env, s, i, b, d))
  {
    hide W.Unanswered, Remember, Rejections, ResultIds, Genuine, CallIds, AllResults, W.MessageStep;
    RejectedBatchIsAnswered(env, b, BLOCKED, BLOCKED);
    RejectedBatchIsAnswered(env, b, BLOCKED, DENIED);
    RejectedBatchIsAnswered(env, b, BLOCKED, STOPPED);
    SomeOpen(b.calls);
  }

  lemma ExecutingKeepsPairs(env: Env, s: State, i: nat, b: Batch, started: bool, w: Wait, c: Choice, turn: Turn)
    requires MoveExecuting(s, i, b, started, w, c) == Some(turn) && Clean(env, s, Executing(i, b, started, w), c)
    requires Expects(env, W.Unanswered(s.cached), Executing(i, b, started, w))
    ensures KeepsPairs(env, W.Unanswered(s.cached), turn)
  {
    hide W.Unanswered, Rejections, ResultIds, Genuine, CallIds, AllResults, Joined, Answers, KeepsPairs;
    var u := W.Unanswered(s.cached);
    assert Awaits(env, u, b);
    SomeOpen(b.calls);
    BatchStays(env, u, i, b, turn);
    StoppedBatch(env, b);
    if c.Results? && Answers(c.results, b.remaining) {
      ExecutedBatch(env, b, c.results);
    }
    AnswersStay(env, u, i, turn);
  }

  // Still executing the same batch.
  lemma BatchStays(env: Env, u: W.Open, i: nat, b: Batch, turn: Turn)
    requires Awaits(env, u, b)
    ensures turn.pc.Executing? && turn.pc.batch == b && (turn.effect.Nothing? || turn.effect.StartTools?)
        ==> KeepsPairs(env, u, turn)
  {
    hide Genuine, CallIds, W.MessageStep;
  }

  // Holding the answers to exactly what is open.
  lemma AnswersStay(env: Env, u: W.Open, i: nat, turn: Turn)
    requires turn.pc.Answering? ==>
      && AllResults(turn.pc.results) && u == Some(multiset(ResultIds(turn.pc.results))) && u != CLOSED
    ensures turn.pc.Answering? && turn.effect.Nothing? ==> KeepsPairs(env, u, turn)
  {
    hide ResultIds, AllResults, W.MessageStep;
  }

  lemma AnsweringKeepsPairs(env: Env, s: State, i: nat, rs: seq<ContentBlock>, after: After, c: Choice, turn: Turn)
    requires MoveTools(s, Answering(i, rs, after), c) == Some(turn) && Clean(env, s, Answering(i, rs, after), c)
    requires Expects(env, W.Unanswered(s.cached), Answering(i, rs, after))
    ensures KeepsPairs(env, W.Unanswered(s.cached), turn)
  {
    hide W.Unanswered, W.MessageStep, MoveExecuting, Genuine, Rejections, CallsOf, AllResults, ResultIds, CallIds;
    if c.Row? {
      ResultsCloseAll(W.Unanswered(s.cached), c.id, c.now, rs);
    }
    NoResults();
  }

  lemma NoResults()
    ensures Some(multiset(ResultIds([]))) == CLOSED
  {}

  lemma ToolsKeepsPairs(env: Env, s: State, pc: Pc, c: Choice, turn: Turn)
    requires MoveTools(s, pc, c) == Some(turn) && Clean(env, s, pc, c)
    requires Expects(env, W.Unanswered(s.cached), pc)
    ensures KeepsPairs(env, W.Unanswered(s.cached), turn)
  {
    hide W.Unanswered, MoveExecuting, KeepsPairs, Expects, Clean;
    match pc {
      case Gate(i, b) => GateKeepsPairs(env, s, i, b, c, turn);
      case Executing(i, b, started, w) => ExecutingKeepsPairs(env, s, i, b, started, w, c, turn);
      case Answering(i, rs, after) => AnsweringKeepsPairs(env, s, i, rs, after, c, turn);
      case _ => PushingKeepsPairs(env, s, pc, c, turn);
    }
  }

  lemma GateKeepsPairs(env: Env, s: State, i: nat, b: Batch, c: Choice, turn: Turn)
    requires MoveTools(s, Gate(i, b), c) == Some(turn) && Clean(env, s, Gate(i, b), c)
    requires Expects(env, W.Unanswered(s.cached), Gate(i, b))
    ensures KeepsPairs(env, W.Unanswered(s.cached), turn)
  {
    hide W.Unanswered, Rejections, Genuine, CallIds, ResultIds, AllResults, MoveExecuting, W.MessageStep;
    StoppedBatch(env, b);
  }

  lemma PushingKeepsPairs(env: Env, s: State, pc: Pc, c: Choice, turn: Turn)
    requires MoveTools(s, pc, c) == Some(turn) && !pc.Gate? && !pc.Executing? && !pc.Answering?
    requires Expects(env, W.Unanswered(s.cached), pc) && Clean(env, s, pc, c)
    ensures KeepsPairs(env, W.Unanswered(s.cached), turn)
  {
    hide W.Unanswered, W.MessageStep, Genuine, CallIds, ResultIds, AllResults, MoveExecuting;
    hide CallsOf, Owed, Shows, OpenFor;
    if pc.Pushing? && pc.msg.role == Assistant {
      ReplyOpens(pc.msg);
      NoCalls();
    }
  }

  // A cached reply leaves its calls open.
  lemma ReplyOpens(m: Message)
    requires m.role == Assistant
    ensures W.MessageStep(CLOSED, m) == OpenFor(CallsOf(m.content))
  {}

  lemma ResultsCloseAll(u: W.Open, id: int, now: int, rs: seq<ContentBlock>)
    requires AllResults(rs) && u == Some(multiset(ResultIds(rs)))
    ensures W.MessageStep(u, ResultsMessage(id, now, rs)) == CLOSED
  {
    if rs == [] { assert ResultIds(rs) == []; }
    ResultsClose(u.value, id, now, rs);
  }

  lemma CommandKeepsPairs(env: Env, s: State, pc: Pc, c: Choice, turn: Turn)
    requires MoveCommand(s, pc, c) == Some(turn)
    ensures KeepsPairs(env, W.Unanswered(s.cached), turn)
  {
    hide W.Unanswered;
  }

  lemma CleanMovesKeepPairs(env: Env, s: State, pc: Pc, c: Choice, turn: Turn)
    requires Move(env, s, pc, c) == Some(turn) && Clean(env, s, pc, c)
    requires Expects(env, W.Unanswered(s.cached), pc) && (!s.generating ==> W.Unanswered(s.cached) == CLOSED)
    ensures KeepsPairs(env, W.Unanswered(s.cached), turn)
  {
    hide MoveRun, MoveReply, MovePrompt, MoveTools, MoveCommand, Expects, KeepsPairs, Clean, W.Unanswered;
    match PhaseOf(pc) {
      case InLoop => RunKeepsPairs(env, s, pc, c, turn);
      case InReply => ReplyKeepsPairs(env, s, pc, c, turn);
      case InPrompt => PromptKeepsPairs(env, s, pc, c, turn);
      case InTools => ToolsKeepsPairs(env, s, pc, c, turn);
      case InCommand => CommandKeepsPairs(env, s, pc, c, turn);
    }
  }

  // ---------------------------------------------------------------- states

  ghost predicate PairInv(env: Env, s: State) {
    && (forall t :: t in s.tasks ==> Expects(env, W.Unanswered(s.cached), s.tasks[t]))
    && (!s.generating ==> W.Unanswered(s.cached) == CLOSED)
    && (forall k :: 0 <= k < |s.log| && s.log[k].Request? ==> W.Unanswered(s.log[k].msgs) == CLOSED)
  }

  ghost predicate CleanAction(env: Env, s: State, a: Action) {
    a.Step? && a.task in s.tasks ==> Clean(env, s, s.tasks[a.task], a.choice)
  }

  // Outside the run a task expects nothing of the history.
  lemma OutsideExpects(env: Env, u: W.Open, v: W.Open, pc: Pc)
    requires !InRun(pc) && Expects(env, u, pc)
    ensures Expects(env, v, pc)
  {}

  lemma FreshExpects(env: Env, u: W.Open, pc: Pc)
    requires Fresh(pc)
    ensures Expects(env, u, pc)
  {}

  // Inside a run, answers are owed exactly while the history is open.
  lemma OwingIsOpen(env: Env, u: W.Open, pc: Pc)
    requires InRun(pc) && Expects(env, u, pc)
    ensures Owing(pc) <==> u != CLOSED
  {
    hide W.Unanswered, W.MessageStep, Genuine, Runnable, CallIds, ResultIds, AllResults;
    if pc.Replied? {
      NoCalls();
      if CallsOf(pc.acc.blocks) != [] { SomeOpen(CallsOf(pc.acc.blocks)); }
    } else if HoldsBatch(pc) {
      SomeOpen(pc.batch.calls);
    }
  }

  // Nothing is owed exactly when nothing is open.
  lemma OwedIsOpen(env: Env, s: State)
    requires PairInv(env, s) && Exclusive(s)
    ensures Owed(s) <==> W.Unanswered(s.cached) != CLOSED
  {
    hide W.Unanswered, Expects, InRun, Owing;
    if s.generating {
      var t :| t in s.tasks && InRun(s.tasks[t]);
      OwingIsOpen(env, W.Unanswered(s.cached), s.tasks[t]);
    }
    forall t | t in s.tasks && Owing(s.tasks[t]) ensures InRun(s.tasks[t]) { OwingIsInRun(s.tasks[t]); }
  }

  lemma OwingIsInRun(pc: Pc)
    requires Owing(pc)
    ensures InRun(pc)
  {}

  // A user message without results: harmless where nothing is open or it shows nothing,
  // and otherwise between a call and its answer for good.
  lemma AppendStep(u: W.Open, m: Message)
    requires m.role == User && !W.HasToolResults(m.content)
    ensures W.MessageStep(u, m) == if u != CLOSED && Shows(m) then None else u
  {}

  // What the history leaves open after a step.
  lemma OpenStep(s: State, t: nat, turn: Turn)
    ensures W.Unanswered(Advance(s, t, turn).cached) == OpenAfter(W.Unanswered(s.cached), turn.effect)
  {
    hide W.Unanswered, W.MessageStep;
    if turn.effect.Cache? { W.UnansweredPush(s.cached, turn.effect.msg); }
  }

  lemma PairStep(env: Env, s: State, a: Action, s': State)
    requires PairInv(env, s) && Exclusive(s) && Next(env, s, a) == Some(s') && CleanAction(env, s, a)
    ensures PairInv(env, s')
  {
    hide Move, Expects, Exclusive, W.Unanswered, Clean, KeepsPairs;
    match a {
      case Spawn(t, pc) => FreshExpects(env, W.Unanswered(s.cached), pc);
      case Configure(_) =>
      case Step(t, c) =>
        var turn := Move(env, s, s.tasks[t], c).value;
        CleanMovesKeepPairs(env, s, s.tasks[t], c, turn);
        MovesAreDisciplined(env, s, s.tasks[t], c, turn);
        if turn.effect.Cache? { CachesWhatItCarries(env, s, s.tasks[t], c, turn); }
        MoverKeepsPairs(env, s, t, c, turn);
    }
  }

  predicate Caching(s: State, pc: Pc, turn: Turn) {
    pc.Pushing? && turn == Turn(Resumed(pc.resume), Cache(pc.msg))
  }

  lemma CachesWhatItCarries(env: Env, s: State, pc: Pc, c: Choice, turn: Turn)
    requires Move(env, s, pc, c) == Some(turn) && turn.effect.Cache?
    ensures c == Go && Caching(s, pc, turn)
  {
    hide Move;
    Consistency.MovesAreFiling(env, s, pc, c, turn);
    PushingGoes(env, s, pc, c, turn);
  }

  lemma PushingGoes(env: Env, s: State, pc: Pc, c: Choice, turn: Turn)
    requires pc.Pushing? && Move(env, s, pc, c) == Some(turn) && turn.effect.Cache?
    ensures c == Go && Caching(s, pc, turn)
  {}

  lemma MoverKeepsPairs(env: Env, s: State, t: nat, c: Choice, turn: Turn)
    requires PairInv(env, s) && Exclusive(s) && t in s.tasks
    requires KeepsPairs(env, W.Unanswered(s.cached), turn) && Disciplined(s, s.tasks[t], turn)
    requires turn.effect.Cache? ==> Caching(s, s.tasks[t], turn) && Clean(env, s, s.tasks[t], Go)
    ensures PairInv(env, Advance(s, t, turn))
  {
    hide Expects, W.Unanswered, InRun, Clean, W.MessageStep;
    var s', u, u' := Advance(s, t, turn), W.Unanswered(s.cached), OpenAfter(W.Unanswered(s.cached), turn.effect);
    OpenStep(s, t, turn);
    AppendOrOwn(env, s, t, turn);
    forall v | v in s'.tasks
      ensures Expects(env, u', s'.tasks[v])
    {
      if v != t && u' != u { OutsideExpects(env, u, u', s.tasks[v]); }
    }
  }

  // A push either changes nothing of what is open or is the running task's own.
  lemma AppendOrOwn(env: Env, s: State, t: nat, turn: Turn)
    requires PairInv(env, s) && Exclusive(s) && t in s.tasks
    requires turn.effect.Cache? ==> Caching(s, s.tasks[t], turn) && Clean(env, s, s.tasks[t], Go)
    ensures var u := W.Unanswered(s.cached);
      OpenAfter(u, turn.effect) == u || (turn.effect.Cache? && InRun(s.tasks[t]))
  {
    hide W.Unanswered, W.MessageStep, W.HasToolResults;
    if turn.effect.Cache? {
      var pc := s.tasks[t];
      assert Expects(env, W.Unanswered(s.cached), pc);
      if pc.resume.AfterAppend? {
        OwedIsOpen(env, s);
        AppendStep(W.Unanswered(s.cached), pc.msg);
      }
    }
  }
}
