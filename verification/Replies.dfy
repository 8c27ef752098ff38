// Where the calls of a batch come from: the reply last put into the cache, split by the
// settings of that moment.

module Replies {
  import opened Types
  import opened Session
  import opened Approval
  import opened Exclusion
  import opened Gating
  import PairedRuns
  import A = Accumulator

  // The content of the last assistant message.
  function LastReply(msgs: seq<Message>): Option<seq<ContentBlock>> {
    if msgs == [] then None
    else
      var last := msgs[|msgs| - 1];
      if last.role == Assistant then Some(last.content) else LastReply(msgs[..|msgs| - 1])
  }

  lemma LastReplyPush(msgs: seq<Message>, m: Message)
    ensures LastReply(msgs + [m]) == if m.role == Assistant then Some(m.content) else LastReply(msgs)
  {
    assert (msgs + [m])[..|msgs|] == msgs;
  }

  // A writer carries the reply it goes on with, or a user's message.
  predicate Brings(pc: Pc) {
    match pc
    case Pushing(m, AfterReply(_, acc)) => m.role == Assistant && m.content == acc.blocks
    case Pushing(m, AfterAppend) => m.role == User
    case _ => true
  }

  ghost predicate RepliesInv(s: State) {
    forall t :: t in s.tasks ==>
      Brings(s.tasks[t]) && (s.tasks[t].Replied? ==> LastReply(s.cached) == Some(s.tasks[t].acc.blocks))
  }

  // A task comes to Replied only by caching the reply.
  predicate Arrives(turn: Turn) {
    turn.pc.Replied? ==>
      turn.effect.Cache? && turn.effect.msg.role == Assistant && turn.effect.msg.content == turn.pc.acc.blocks
  }

  lemma MovesBring(env: Env, s: State, pc: Pc, c: Choice, turn: Turn)
    requires Move(env, s, pc, c) == Some(turn) && Brings(pc)
    ensures Brings(turn.pc) && Arrives(turn)
  {
    hide MoveRun, MovePrompt, MoveReplied, MoveExecuting, MoveWait, A.Apply, TextContent, Meaningful, Rejections;
    match PhaseOf(pc) {
      case InLoop => RunBrings(s, pc, c, turn);
      case InReply => if pc.Replied? { RepliedBrings(env, s, pc.iter, pc.acc, c, turn); }
      case InPrompt => PromptBrings(env, s, pc, c, turn);
      case InTools => if pc.Executing? { ExecutingBrings(s, pc, c, turn); }
      case InCommand =>
    }
  }

  lemma RunBrings(s: State, pc: Pc, c: Choice, turn: Turn)
    requires MoveRun(s, pc, c) == Some(turn)
    ensures Brings(turn.pc) && !turn.pc.Replied?
  {}

  lemma PromptBrings(env: Env, s: State, pc: Pc, c: Choice, turn: Turn)
    requires MovePrompt(env, s, pc, c) == Some(turn)
    ensures Brings(turn.pc) && !turn.pc.Replied?
  {
    hide Rejections;
  }

  lemma ExecutingBrings(s: State, pc: Pc, c: Choice, turn: Turn)
    requires pc.Executing? && MoveTools(s, pc, c) == Some(turn)
    ensures Brings(turn.pc) && !turn.pc.Replied?
  {
    hide Rejections, Joined, Answers;
  }

  lemma RepliedBrings(env: Env, s: State, i: nat, acc: A.Acc, c: Choice, turn: Turn)
    requires MoveReply(env, s, Replied(i, acc), c) == Some(turn)
    ensures Brings(turn.pc) && !turn.pc.Replied?
  {
    hide MakeBatch, CallsOf, Rejections;
  }

  lemma FreshBrings(pc: Pc)
    requires Fresh(pc)
    ensures Brings(pc) && !pc.Replied?
  {}

  // What one step does to the last reply: only a task in the run pushes one.
  lemma ReplyAfter(env: Env, s: State, t: nat, c: Choice, turn: Turn)
    requires t in s.tasks && Move(env, s, s.tasks[t], c) == Some(turn) && Brings(s.tasks[t])
    ensures var s' := Advance(s, t, turn);
      && (!InRun(s.tasks[t]) ==> LastReply(s'.cached) == LastReply(s.cached))
      && (turn.pc.Replied? ==> LastReply(s'.cached) == Some(turn.pc.acc.blocks))
  {
    hide Move, LastReply;
    MovesBring(env, s, s.tasks[t], c, turn);
    if turn.effect.Cache? {
      PairedRuns.CachesWhatItCarries(env, s, s.tasks[t], c, turn);
      LastReplyPush(s.cached, turn.effect.msg);
    }
  }

  lemma RepliesStep(env: Env, s: State, a: Action, s': State)
    requires RepliesInv(s) && Exclusive(s) && Next(env, s, a) == Some(s')
    ensures RepliesInv(s')
  {
    hide Move, Brings, LastReply, InRun;
    match a {
      case Spawn(t, pc) => FreshBrings(pc);
      case Configure(_) =>
      case Step(t, c) =>
        var turn := Move(env, s, s.tasks[t], c).value;
        MovesBring(env, s, s.tasks[t], c, turn);
        ReplyAfter(env, s, t, c, turn);
        forall v | v in s.tasks && v != t && s.tasks[v].Replied?
          ensures LastReply(s'.cached) == LastReply(s.cached)
        {
          RepliedInRun(s.tasks[v]);
        }
    }
  }

  lemma RepliedInRun(pc: Pc)
    requires pc.Replied?
    ensures InRun(pc)
  {}

  // ---------------------------------------------------------------- reading the policy

  // The batch was split off the last reply by the live settings.
  ghost predicate Live(env: Env, s: State, b: Batch) {
    && b == MakeBatch(env, s.cfg, b.calls)
    && LastReply(s.cached).Some? && b.calls == CallsOf(LastReply(s.cached).value)
  }

  lemma ReadingMoves(env: Env, s: State, pc: Pc, c: Choice, turn: Turn)
    requires Move(env, s, pc, c) == Some(turn) && turn.effect.ReadPolicy?
    ensures pc.Replied? && turn.effect.batch == MakeBatch(env, s.cfg, CallsOf(pc.acc.blocks))
  {
    hide MoveRun, MakeBatch, NeedsApproval, CallsOf, Rejections, Joined, Answers, Decide;
    hide A.Apply, Meaningful, TextContent;
    if pc.Applying? {
      DecideEffect(env, s, pc.iter, pc.batch, pc.decision);
    } else if PhaseOf(pc) == InLoop {
      RunReadsNothing(s, pc, c);
    }
  }

  lemma RunReadsNothing(s: State, pc: Pc, c: Choice)
    ensures MoveRun(s, pc, c).Some? ==> !MoveRun(s, pc, c).value.effect.ReadPolicy?
  {}

  // Whenever a policy is read, it is the live one, and the calls are those of the reply
  // just cached.
  lemma PolicyIsLive(env: Env, s: State, a: Action, s': State, t: nat, b: Batch)
    requires RepliesInv(s) && Next(env, s, a) == Some(s') && s'.log == s.log + [PolicyRead(t, b)]
    ensures Live(env, s, b)
  {
    hide Move, LastReply, CallsOf, MakeBatch;
    var told := [PolicyRead(t, b)];
    assert s'.log[|s.log|..] == told;
    var turn := Move(env, s, s.tasks[a.task], a.choice).value;
    assert (s.log + Told(a.task, turn.effect))[|s.log|..] == Told(a.task, turn.effect);
    assert told[0] == Told(a.task, turn.effect)[0];
    ReadingMoves(env, s, s.tasks[a.task], a.choice, turn);
    MadeIsGenuine(env, s.cfg, CallsOf(s.tasks[a.task].acc.blocks));
  }

  // The batch in a task's view was read, by that task, at one entry of the log.
  lemma {:induction false} ViewStory(log: seq<Obs>, t: nat) returns (m: nat)
    requires ViewOf(log, t).batch.Some?
    ensures m < |log| && log[m] == PolicyRead(t, ViewOf(log, t).batch.value)
    ensures forall n :: m < n < |log| ==> !(log[n].PolicyRead? && log[n].task == t)
  {
    var last, front := |log| - 1, log[..|log| - 1];
    if log[last].PolicyRead? && log[last].task == t {
      m := last;
    } else {
      m := ViewStory(front, t);
    }
  }

  // Every entry of the log was written by one step of the execution.
  lemma {:induction false} WhoWrote(env: Env, states: seq<State>, actions: seq<Action>, k: nat, m: nat) returns (n: nat)
    requires Execution(env, states, actions) && k <= |actions| && m < |states[k].log|
    ensures n < k && |states[n].log| == m && states[n + 1].log == states[n].log + [states[k].log[m]]
    ensures states[n].log == states[k].log[..m]
  {
    hide Init, Move;
    if k == 0 {
      NothingWritten(states[0]);
    } else {
      var s, a := states[k - 1], actions[k - 1];
      assert Next(env, s, a) == Some(states[k]);
      OneEntry(env, s, a, states[k]);
      if m < |s.log| {
        n := WhoWrote(env, states, actions, k - 1, m);
        assert states[k].log[..m] == s.log[..m];
      } else {
        n := k - 1;
        assert states[k].log[..m] == s.log;
      }
    }
  }

  lemma NothingWritten(s: State)
    requires Init(s)
    ensures s.log == []
  {}

  lemma OneEntry(env: Env, s: State, a: Action, s': State)
    requires Next(env, s, a) == Some(s')
    ensures s'.log == s.log || s'.log == s.log + [s'.log[|s'.log| - 1]]
    ensures s.log <= s'.log
  {
    hide Move;
    if a.Step? {
      var turn := Move(env, s, s.tasks[a.task], a.choice).value;
      var told := Told(a.task, turn.effect);
      if told == [] { assert s.log + told == s.log; } else { assert told == [told[0]]; }
    }
  }
}
