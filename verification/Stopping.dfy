// A run ends as stopped only if it was: by the flag, or by an answer that cancels.

module Stopping {
  import opened Types
  import opened Session
  import opened Approval
  import opened Exclusion
  import opened Cancellation
  import A = Accumulator

  // Since its reset: the flag was raised, or this task's prompt was decided as cancelled.
  function WasStopped(log: seq<Obs>, t: nat): bool {
    if log == [] then false
    else
      match log[|log| - 1]
      case CancelSet => true
      case Decided(u, _, d) => (u == t && d == Decision.Cancelled) || WasStopped(log[..|log| - 1], t)
      case Reset(u) => u != t && WasStopped(log[..|log| - 1], t)
      case _ => WasStopped(log[..|log| - 1], t)
  }

  // On the way out of a stopped run, or out of it.
  predicate Ceasing(pc: Pc) {
    match pc
    case SavingPartial(_, _) => true
    case Applying(_, _, d) => d == Decision.Cancelled
    case Answering(_, _, after) => after == Close
    case Pushing(_, r) => r == Leaving(Stopped)
    case Closing(o) => o == Stopped
    case Done(o) => o == Stopped
    case _ => false
  }

  ghost predicate StopInv(s: State) {
    forall t :: t in s.tasks && (Ceasing(s.tasks[t]) || (PastReset(s.tasks[t]) && s.cancel)) ==> WasStopped(s.log, t)
  }

  // A task turns to leave as stopped only where it sees the flag up or its prompt cancelled.
  predicate Turns(s: State, pc: Pc, turn: Turn) {
    && (Ceasing(turn.pc) ==>
          || Ceasing(pc) || (s.cancel && PastReset(pc))
          || (turn.effect.ClosePrompt? && turn.effect.decision == Decision.Cancelled))
    && (PastReset(turn.pc) ==> PastReset(pc) || turn.effect.ClearCancel?)
    && (turn.effect.ClearCancel? ==> pc.Entered? && !Ceasing(turn.pc))
  }

  lemma RunTurns(s: State, pc: Pc, c: Choice, turn: Turn)
    requires MoveRun(s, pc, c) == Some(turn)
    ensures Turns(s, pc, turn)
  {}

  lemma ReplyTurns(env: Env, s: State, pc: Pc, c: Choice, turn: Turn)
    requires MoveReply(env, s, pc, c) == Some(turn)
    ensures Turns(s, pc, turn)
  {
    hide MakeBatch, NeedsApproval, CallsOf, Rejections, Meaningful, AssistantMessage, A.Apply;
  }

  lemma PromptTurns(env: Env, s: State, pc: Pc, c: Choice, turn: Turn)
    requires MovePrompt(env, s, pc, c) == Some(turn)
    ensures Turns(s, pc, turn)
  {
    hide Remember, Rejections;
  }

  lemma ExecutingTurns(s: State, i: nat, b: Batch, started: bool, w: Wait, c: Choice, turn: Turn)
    requires MoveExecuting(s, i, b, started, w, c) == Some(turn)
    ensures Turns(s, Executing(i, b, started, w), turn)
  {
    hide Rejections, Joined, Answers;
  }

  lemma ToolsTurn(s: State, pc: Pc, c: Choice, turn: Turn)
    requires MoveTools(s, pc, c) == Some(turn)
    ensures Turns(s, pc, turn)
  {
    hide Rejections, Joined, Answers, MoveExecuting;
    if pc.Executing? {
      ExecutingTurns(s, pc.iter, pc.batch, pc.started, pc.wait, c, turn);
    }
  }

  lemma CommandTurns(s: State, pc: Pc, c: Choice, turn: Turn)
    requires MoveCommand(s, pc, c) == Some(turn)
    ensures Turns(s, pc, turn)
  {}

  lemma MovesTurn(env: Env, s: State, pc: Pc, c: Choice, turn: Turn)
    requires Move(env, s, pc, c) == Some(turn)
    ensures Turns(s, pc, turn)
  {
    hide MoveRun, MoveReply, MovePrompt, MoveTools, MoveCommand, Turns;
    match PhaseOf(pc) {
      case InLoop => RunTurns(s, pc, c, turn);
      case InReply => ReplyTurns(env, s, pc, c, turn);
      case InPrompt => PromptTurns(env, s, pc, c, turn);
      case InTools => ToolsTurn(s, pc, c, turn);
      case InCommand => CommandTurns(s, pc, c, turn);
    }
  }

  lemma StoppedAfter(log: seq<Obs>, u: nat, e: Effect, t: nat)
    ensures WasStopped(log, t) && !(e.ClearCancel? && u == t) ==> WasStopped(log + Told(u, e), t)
    ensures e.RaiseCancel? ==> WasStopped(log + Told(u, e), t)
    ensures e.ClosePrompt? && e.decision == Decision.Cancelled ==> WasStopped(log + Told(u, e), u)
  {
    var told := Told(u, e);
    if told == [] {
      assert log + told == log;
    } else {
      assert (log + told)[..|log + told| - 1] == log;
    }
  }

  lemma StopStep(env: Env, s: State, a: Action, s': State)
    requires StopInv(s) && Next(env, s, a) == Some(s')
    ensures StopInv(s')
  {
    hide Move, WasStopped, Told;
    match a {
      case Spawn(t, pc) =>
      case Configure(_) =>
      case Step(u, c) =>
        var turn := Move(env, s, s.tasks[u], c).value;
        MovesTurn(env, s, s.tasks[u], c, turn);
        EnteredIsBefore(s.tasks[u]);
        hide Ceasing, PastReset;
        assert s'.log == s.log + Told(u, turn.effect);
        forall t | t in s'.tasks && (Ceasing(s'.tasks[t]) || (PastReset(s'.tasks[t]) && s'.cancel))
          ensures WasStopped(s'.log, t)
        {
          StoppedAfter(s.log, u, turn.effect, t);
          if t != u {
            assert s'.tasks[t] == s.tasks[t];
          } else {
            assert s'.tasks[t] == turn.pc;
          }
        }
    }
  }

  lemma EnteredIsBefore(pc: Pc)
    ensures pc.Entered? ==> !Ceasing(pc) && !PastReset(pc)
  {}

  lemma {:induction false} StopInvHolds(env: Env, states: seq<State>, actions: seq<Action>, k: nat)
    requires Execution(env, states, actions) && k <= |actions|
    ensures StopInv(states[k])
    decreases k
  {
    hide Next, StopInv;
    if k == 0 {
      NobodyStopped(states[0]);
    } else {
      StopInvHolds(env, states, actions, k - 1);
      assert Next(env, states[k - 1], actions[k - 1]) == Some(states[k]);
      StopStep(env, states[k - 1], actions[k - 1], states[k]);
    }
  }

  lemma NobodyStopped(s: State)
    requires Init(s)
    ensures StopInv(s)
  {}

  // Something that stops the task, and no reset of its own since.
  predicate StopAt(log: seq<Obs>, t: nat, q: nat)
    requires q < |log|
  {
    && (log[q] == CancelSet || (log[q].Decided? && log[q].task == t && log[q].decision == Decision.Cancelled))
    && Reset(t) !in log[q..]
  }

  lemma {:induction false} StopIsThere(log: seq<Obs>, t: nat) returns (q: nat)
    requires WasStopped(log, t)
    ensures q < |log| && StopAt(log, t, q)
  {
    var n := |log| - 1;
    var last := log[n];
    if last == CancelSet || (last.Decided? && last.task == t && last.decision == Decision.Cancelled) {
      q := n;
      assert log[n..] == [last];
    } else {
      q := StopIsThere(log[..n], t);
      assert log[q..] == log[..n][q..] + [last];
    }
  }

  // Whatever the interleaving, a run that ended as stopped was stopped: after its own
  // reset the flag was raised, or its prompt was decided as cancelled.
  lemma StoppedOnlyByAStop(env: Env, states: seq<State>, actions: seq<Action>, k: nat, t: nat)
    requires Execution(env, states, actions) && k <= |actions|
    requires t in states[k].tasks && states[k].tasks[t] == Done(Stopped)
    ensures exists q: nat :: q < |states[k].log| && StopAt(states[k].log, t, q)
  {
    hide Next, Init, WasStopped;
    StopInvHolds(env, states, actions, k);
    var q := StopIsThere(states[k].log, t);
  }

  // ---------------------------------------------------------------- the other outcomes

  // On the way to this end, or there.
  predicate Leads(pc: Pc, o: Outcome) {
    match pc
    case Ending(_) => o == Completed
    case Pushing(_, r) => r == Leaving(o)
    case Closing(p) => p == o
    case Done(p) => p == o
    case _ => false
  }

  // What makes a run fail: something it asked for failed, five rounds were made and the
  // stop is down, or there is nobody to run the tools. What completes it: a reply that does
  // not stop for tools or names none.
  predicate Causes(env: Env, s: State, pc: Pc, c: Choice, o: Outcome) {
    match o
    case Failed => c == Fail || (pc.LoopTop? && pc.iter >= 5 && !s.cancel) || (pc.Replied? && !env.hasExecutor)
    case Completed => pc.Replied? && (pc.acc.stop != Some(ToolUseStop) || CallsOf(pc.acc.blocks) == [])
    case Stopped => true
  }

  predicate LedThere(env: Env, s: State, pc: Pc, c: Choice, turn: Turn, o: Outcome) {
    Leads(turn.pc, o) ==> Leads(pc, o) || Causes(env, s, pc, c, o)
  }

  lemma RunLeads(env: Env, s: State, pc: Pc, c: Choice, turn: Turn, o: Outcome)
    requires MoveRun(s, pc, c) == Some(turn)
    ensures LedThere(env, s, pc, c, turn, o)
  {}

  lemma ReplyLeads(env: Env, s: State, pc: Pc, c: Choice, turn: Turn, o: Outcome)
    requires MoveReply(env, s, pc, c) == Some(turn)
    ensures LedThere(env, s, pc, c, turn, o)
  {
    hide MakeBatch, NeedsApproval, CallsOf, Rejections, Meaningful, AssistantMessage, A.Apply;
  }

  lemma PromptLeads(env: Env, s: State, pc: Pc, c: Choice, turn: Turn, o: Outcome)
    requires MovePrompt(env, s, pc, c) == Some(turn)
    ensures LedThere(env, s, pc, c, turn, o)
  {
    hide Remember, Rejections;
  }

  lemma ExecutingLeads(env: Env, s: State, pc: Pc, c: Choice, turn: Turn, o: Outcome)
    requires pc.Executing? && MoveExecuting(s, pc.iter, pc.batch, pc.started, pc.wait, c) == Some(turn)
    ensures LedThere(env, s, pc, c, turn, o)
  {
    hide Rejections, Joined, Answers;
  }

  lemma ToolsLead(env: Env, s: State, pc: Pc, c: Choice, turn: Turn, o: Outcome)
    requires MoveTools(s, pc, c) == Some(turn)
    ensures LedThere(env, s, pc, c, turn, o)
  {
    hide Rejections, Joined, Answers, MoveExecuting;
    if pc.Executing? { ExecutingLeads(env, s, pc, c, turn, o); }
  }

  lemma CommandLeads(env: Env, s: State, pc: Pc, c: Choice, turn: Turn, o: Outcome)
    requires MoveCommand(s, pc, c) == Some(turn)
    ensures LedThere(env, s, pc, c, turn, o)
  {}

  lemma MovesLead(env: Env, s: State, pc: Pc, c: Choice, turn: Turn, o: Outcome)
    requires Move(env, s, pc, c) == Some(turn)
    ensures LedThere(env, s, pc, c, turn, o)
  {
    hide MoveRun, MoveReply, MovePrompt, MoveTools, MoveCommand, LedThere;
    match PhaseOf(pc) {
      case InLoop => RunLeads(env, s, pc, c, turn, o);
      case InReply => ReplyLeads(env, s, pc, c, turn, o);
      case InPrompt => PromptLeads(env, s, pc, c, turn, o);
      case InTools => ToolsLead(env, s, pc, c, turn, o);
      case InCommand => CommandLeads(env, s, pc, c, turn, o);
    }
  }

  // The task's own step from this state was the cause.
  predicate CausedBy(env: Env, s: State, a: Action, t: nat, o: Outcome) {
    a.Step? && a.task == t && t in s.tasks && Causes(env, s, s.tasks[t], a.choice, o)
  }

  lemma LeadingStep(env: Env, s: State, a: Action, s': State, t: nat, o: Outcome)
    requires Next(env, s, a) == Some(s') && t in s'.tasks && Leads(s'.tasks[t], o)
    ensures CausedBy(env, s, a, t, o) || (t in s.tasks && Leads(s.tasks[t], o))
  {
    hide Move, Leads, Causes;
    if a.Step? && a.task == t {
      MovesLead(env, s, s.tasks[t], a.choice, Move(env, s, s.tasks[t], a.choice).value, o);
    } else if a.Spawn? && a.task == t {
      FreshLeadsNowhere(a.pc, o);
    }
  }

  lemma FreshLeadsNowhere(pc: Pc, o: Outcome)
    ensures Fresh(pc) ==> !Leads(pc, o)
  {}

  lemma {:induction false} CauseIsThere(env: Env, states: seq<State>, actions: seq<Action>, k: nat, t: nat, o: Outcome)
    returns (j: nat)
    requires Execution(env, states, actions) && k <= |actions|
    requires t in states[k].tasks && Leads(states[k].tasks[t], o)
    ensures j < k && CausedBy(env, states[j], actions[j], t, o)
  {
    hide Next, Leads, CausedBy;
    NobodyYet(states[0]);
    if k == 0 {
      assert false;
    } else {
      assert Next(env, states[k - 1], actions[k - 1]) == Some(states[k]);
      LeadingStep(env, states[k - 1], actions[k - 1], states[k], t, o);
      if CausedBy(env, states[k - 1], actions[k - 1], t, o) {
        j := k - 1;
      } else {
        j := CauseIsThere(env, states, actions, k - 1, t, o);
      }
    }
  }

  lemma NobodyYet(s: State)
    requires Init(s)
    ensures s.tasks == map[]
  {}

  // Whatever the interleaving: a run failed because a step of its own was met by a failure,
  // found five rounds made and no stop, or found no executor; it completed because of a
  // reply with no tools to run.
  lemma EveryEndHasItsCause(env: Env, states: seq<State>, actions: seq<Action>, k: nat, t: nat, o: Outcome)
    requires Execution(env, states, actions) && k <= |actions|
    requires t in states[k].tasks && states[k].tasks[t] == Done(o)
    ensures exists j: nat :: j < k && CausedBy(env, states[j], actions[j], t, o)
  {
    hide Next, Init, Causes;
    var j := CauseIsThere(env, states, actions, k, t, o);
  }
}
