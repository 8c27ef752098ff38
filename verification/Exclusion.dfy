// At most one generation at a time, and the flag that says so.

module Exclusion {
  import opened Types
  import opened Session
  import opened Approval
  import A = Accumulator

  // The task is between winning the flag and clearing it.
  predicate InRun(pc: Pc) {
    if pc.Pushing? then !pc.resume.AfterAppend?
    else
      !(pc.Ready? || pc.Lost? || pc.Done? || pc.Appending? || pc.Appended? || pc.Submitting?
        || pc.Sending? || pc.Submitted? || pc.Cancelling? || pc.CancellingPrompt? || pc.CancelSent?)
  }

  // A task enters the run only by finding the flag clear, and the flag is cleared only
  // by the task that leaves.
  predicate Disciplined(s: State, pc: Pc, turn: Turn) {
    match turn.effect
    case RaiseFlag => !s.generating && !InRun(pc) && InRun(turn.pc)
    case LowerFlag => InRun(pc) && !InRun(turn.pc)
    case _ => InRun(turn.pc) <==> InRun(pc)
  }

  // What the two branching steps can do to the session.
  lemma RepliedEffect(env: Env, s: State, i: nat, acc: A.Acc)
    ensures var turn := MoveReplied(env, s, i, acc);
      turn.Some? ==> turn.value.effect.Nothing? || turn.value.effect.ReadPolicy?
  {
    hide MakeBatch, NeedsApproval, CallsOf, Rejections;
  }

  lemma DecideEffect(env: Env, s: State, i: nat, b: Batch, d: Decision)
    ensures Decide(env, s, i, b, d).effect.ApplyDecision?
  {
    hide Remember, Rejections;
  }

  lemma RunIsDisciplined(s: State, pc: Pc, c: Choice, turn: Turn)
    requires MoveRun(s, pc, c) == Some(turn)
    ensures Disciplined(s, pc, turn)
  {}

  lemma ReplyIsDisciplined(env: Env, s: State, pc: Pc, c: Choice, turn: Turn)
    requires MoveReply(env, s, pc, c) == Some(turn)
    ensures Disciplined(s, pc, turn)
  {
    hide MakeBatch, NeedsApproval, CallsOf, Rejections, Meaningful, AssistantMessage;
  }

  lemma PromptIsDisciplined(env: Env, s: State, pc: Pc, c: Choice, turn: Turn)
    requires MovePrompt(env, s, pc, c) == Some(turn)
    ensures Disciplined(s, pc, turn)
  {
    hide Remember, Rejections;
  }

  lemma ToolsIsDisciplined(s: State, pc: Pc, c: Choice, turn: Turn)
    requires MoveTools(s, pc, c) == Some(turn)
    ensures Disciplined(s, pc, turn)
  {
    hide Rejections, Joined, Answers;
  }

  lemma CommandIsDisciplined(s: State, pc: Pc, c: Choice, turn: Turn)
    requires MoveCommand(s, pc, c) == Some(turn)
    ensures Disciplined(s, pc, turn)
  {}

  lemma MovesAreDisciplined(env: Env, s: State, pc: Pc, c: Choice, turn: Turn)
    requires Move(env, s, pc, c) == Some(turn)
    ensures Disciplined(s, pc, turn)
  {
    hide MoveRun, MoveReply, MovePrompt, MoveTools, MoveCommand, Disciplined;
    match PhaseOf(pc) {
      case InLoop => RunIsDisciplined(s, pc, c, turn);
      case InReply => ReplyIsDisciplined(env, s, pc, c, turn);
      case InPrompt => PromptIsDisciplined(env, s, pc, c, turn);
      case InTools => ToolsIsDisciplined(s, pc, c, turn);
      case InCommand => CommandIsDisciplined(s, pc, c, turn);
    }
  }

  ghost predicate Exclusive(s: State) {
    && (forall t, u :: t in s.tasks && u in s.tasks && InRun(s.tasks[t]) && InRun(s.tasks[u]) ==> t == u)
    && (s.generating <==> exists t :: t in s.tasks && InRun(s.tasks[t]))
  }

  lemma ExclusiveStep(env: Env, s: State, a: Action, s': State)
    requires Exclusive(s) && Next(env, s, a) == Some(s')
    ensures Exclusive(s')
  {
    hide Move, InRun;
    match a {
      case Spawn(t, pc) =>
        FreshIsOutside(pc);
        if s.generating {
          var u :| u in s.tasks && InRun(s.tasks[u]);
          assert InRun(s'.tasks[u]);
        }
      case Configure(_) =>
      case Step(t, c) =>
        var turn := Move(env, s, s.tasks[t], c).value;
        MovesAreDisciplined(env, s, s.tasks[t], c, turn);
        MoverExclusive(s, t, turn);
    }
  }

  lemma FreshIsOutside(pc: Pc)
    requires Fresh(pc)
    ensures !InRun(pc)
  {}

  lemma MoverExclusive(s: State, t: nat, turn: Turn)
    requires Exclusive(s) && t in s.tasks && Disciplined(s, s.tasks[t], turn)
    ensures Exclusive(Advance(s, t, turn))
  {
    hide InRun;
    var s' := Advance(s, t, turn);
    if s'.generating && !InRun(s'.tasks[t]) {
      var u :| u in s.tasks && InRun(s.tasks[u]);
      assert InRun(s'.tasks[u]);
    }
    if u :| u in s'.tasks && InRun(s'.tasks[u]) {
      assert u != t ==> InRun(s.tasks[u]);
    }
  }
}
