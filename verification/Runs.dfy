// What holds in every reachable state and over every execution of a session.

module Runs {
  import opened Types
  import opened Session
  import opened Approval
  import opened Exclusion
  import opened Cancellation
  import opened Gating
  import opened Prompts
  import opened Consistency
  import PairedRuns
  import Replies
  import A = Accumulator
  import W = Wire

  ghost predicate Safe(env: Env, s: State) {
    && Exclusive(s) && Watchful(s) && Spare(s) && Rationed(s)
    && GateInv(env, s) && PromptInv(s) && Filed(s) && Replies.RepliesInv(s)
  }

  lemma InitIsSafe(env: Env, s: State)
    requires Init(s)
    ensures Safe(env, s)
  {
    hide Filed;
    InitFiled(s);
    assert Prompts.PromptInv(s);
  }

  lemma StepIsSafe(env: Env, s: State, a: Action, s': State)
    requires Safe(env, s) && Next(env, s, a) == Some(s')
    ensures Safe(env, s')
  {
    hide Next, Exclusive, Watchful, Spare, Rationed, GateInv, PromptInv, Filed, Replies.RepliesInv;
    ExclusiveStep(env, s, a, s');
    CancellationStep(env, s, a, s');
    GateStep(env, s, a, s');
    PromptStep(env, s, a, s');
    FiledStep(env, s, a, s');
    Replies.RepliesStep(env, s, a, s');
  }

  lemma {:induction false} ExecutionIsSafe(env: Env, states: seq<State>, actions: seq<Action>, k: nat)
    requires Execution(env, states, actions) && k <= |actions|
    ensures Safe(env, states[k])
  {
    hide Next, Safe, Init;
    if k == 0 {
      InitIsSafe(env, states[0]);
    } else {
      ExecutionIsSafe(env, states, actions, k - 1);
      StepIsSafe(env, states[k - 1], actions[k - 1], states[k]);
    }
  }

  lemma ReachableIsSafe(env: Env, s: State)
    requires Reachable(env, s)
    ensures Safe(env, s)
  {
    hide Safe, Next, Init;
    var states, actions :| Execution(env, states, actions) && states[|actions|] == s;
    ExecutionIsSafe(env, states, actions, |actions|);
  }

  lemma ReachNext(env: Env, s: State, a: Action, s': State)
    requires Reachable(env, s) && Next(env, s, a) == Some(s')
    ensures Reachable(env, s')
  {
    hide Next, Init;
    var states, actions :| Execution(env, states, actions) && states[|actions|] == s;
    var states', actions' := states + [s'], actions + [a];
    forall k | 0 <= k < |actions'| ensures Next(env, states'[k], actions'[k]) == Some(states'[k + 1]) {
      if k < |actions| { assert Next(env, states[k], actions[k]) == Some(states[k + 1]); }
    }
    assert Execution(env, states', actions') && states'[|actions'|] == s';
  }

  // ---------------------------------------------------------------- exclusion

  // At most one task is inside a run, the flag is up exactly while one is, and only that
  // task ever takes it down: a task that lost the race stays out and clears nothing.
  lemma OneGenerationAtATime(env: Env, s: State, a: Action, s': State)
    requires Reachable(env, s) && Next(env, s, a) == Some(s')
    ensures forall t, u :: t in s.tasks && u in s.tasks && InRun(s.tasks[t]) && InRun(s.tasks[u]) ==> t == u
    ensures s.generating <==> exists t :: t in s.tasks && InRun(s.tasks[t])
    ensures s.generating && !s'.generating ==>
              a.Step? && InRun(s.tasks[a.task]) && s'.tasks[a.task].Done?
    ensures a.Step? && s.tasks[a.task].Ready? ==>
              s'.tasks[a.task] == (if s.generating then Lost else Entered) && s'.generating
  {
    hide Move, InRun, Next;
    ReachableIsSafe(env, s);
    match a {
      case Step(t, c) => FlagMoves(env, s, t, c, s');
      case _ => IdleActions(env, s, a, s');
    }
  }

  lemma IdleActions(env: Env, s: State, a: Action, s': State)
    requires !a.Step? && Next(env, s, a) == Some(s')
    ensures s'.generating == s.generating && s'.cancel == s.cancel && s'.log == s.log
    ensures forall t :: t in s.tasks ==> t in s'.tasks && s'.tasks[t] == s.tasks[t]
  {
    hide Move;
  }

  lemma FlagMoves(env: Env, s: State, t: nat, c: Choice, s': State)
    requires Next(env, s, Step(t, c)) == Some(s')
    ensures
      && t in s.tasks && t in s'.tasks
      && (s.generating && !s'.generating ==> InRun(s.tasks[t]) && s'.tasks[t].Done?)
      && (s.tasks[t].Ready? ==> s'.tasks[t] == (if s.generating then Lost else Entered) && s'.generating)
  {
    hide Move, InRun;
    var turn := Move(env, s, s.tasks[t], c).value;
    MovesAreDisciplined(env, s, s.tasks[t], c, turn);
    LoweringEnds(env, s, s.tasks[t], c, turn);
  }

  lemma LoweringEnds(env: Env, s: State, pc: Pc, c: Choice, turn: Turn)
    requires Move(env, s, pc, c) == Some(turn)
    ensures turn.effect.LowerFlag? ==> turn.pc.Done?
    ensures pc.Ready? ==>
      turn == if s.generating then Turn(Lost, Nothing) else Turn(Entered, RaiseFlag)
  {
    hide MoveReplied, Decide, A.Apply, TextContent, Rejections, Meaningful, Joined, Answers;
    if pc.Replied? && c == Go { RepliedEffect(env, s, pc.iter, pc.acc); }
    if pc.Applying? { DecideEffect(env, s, pc.iter, pc.batch, pc.decision); }
  }

  // A task that is done, or that lost, takes no further step.
  lemma NoStepAfterEnd(env: Env, s: State, t: nat, c: Choice)
    requires t in s.tasks && (s.tasks[t].Done? || s.tasks[t].Lost?)
    ensures Next(env, s, Step(t, c)) == None
  {}

  // ---------------------------------------------------------------- rounds

  // No task ever makes more than five backend requests.
  lemma AtMostFiveRequests(env: Env, s: State, t: nat)
    requires Reachable(env, s)
    ensures RequestsBy(s.log, t) <= 5
  {
    hide GateInv, PromptInv, Filed, Exclusive, Watchful, Spare, Reachable;
    ReachableIsSafe(env, s);
  }

  // ---------------------------------------------------------------- cancellation

  // The flag goes down only where a new run resets it: a stop raised between a task's
  // swap of the generating flag and its reset is lost, and no other is.
  lemma FlagFallsOnlyAtReset(env: Env, s: State, a: Action, s': State)
    requires s.cancel && Next(env, s, a) == Some(s')
    ensures !s'.cancel <==> a.Step? && s.tasks[a.task].Entered?
  {
    hide Move;
    match a {
      case Step(t, c) => ResetMoves(env, s, s.tasks[t], c, Move(env, s, s.tasks[t], c).value);
      case _ =>
    }
  }

  lemma ResetMoves(env: Env, s: State, pc: Pc, c: Choice, turn: Turn)
    requires Move(env, s, pc, c) == Some(turn)
    ensures turn.effect.ClearCancel? <==> pc.Entered?
  {
    hide MakeBatch, NeedsApproval, CallsOf, Rejections, Meaningful, AssistantMessage, Remember, Joined, Answers;
  }

  // A task waiting inside the select while the flag is up can always be woken, and, once
  // woken, leaves the wait on the stop branch at its next look.
  lemma NoLostWakeup(env: Env, s: State, t: nat)
    requires Reachable(env, s) && s.cancel
    requires t in s.tasks && WaitOf(s.tasks[t]).Some?
    ensures var w := WaitOf(s.tasks[t]).value;
      match w
      case Selecting(seen) => seen < s.version && MoveWait(s, w, Wake) == Keep(Woken(s.version))
      case Subscribing => MoveWait(s, w, Go) == Keep(Borrowing(s.version))
      case _ => MoveWait(s, w, Go) == Stop
  {
    hide GateInv, PromptInv, Filed, Exclusive, Spare, Rationed, Reachable;
    ReachableIsSafe(env, s);
    assert Watching(s, WaitOf(s.tasks[t]).value);
  }

  // While the flag is up at most one more thing begins, a request or a tool execution.
  lemma AtMostOneMoreBegins(env: Env, s: State)
    requires Reachable(env, s) && s.cancel
    ensures SinceCancel(s.log).up && SinceCancel(s.log).begun <= 1
  {
    hide GateInv, PromptInv, Filed, Exclusive, Watchful, Rationed, Reachable;
    ReachableIsSafe(env, s);
  }

  predicate CanStart(env: Env, s: State, t: nat, c: Choice) {
    && t in s.tasks && Move(env, s, s.tasks[t], c).Some?
    && Move(env, s, s.tasks[t], c).value.effect.StartTools?
  }

  // The tools have not been polled yet, and the flag went up after the task last looked.
  predicate InWindow(s: State, pc: Pc) {
    pc.Executing? && !pc.started && pc.wait.Selecting? && pc.wait.seen < s.version
  }

  // Under a raised flag tools can start exactly where it went up after the task last
  // looked.
  lemma StartsOnlyInWindow(env: Env, s: State, t: nat)
    requires Reachable(env, s) && s.cancel && t in s.tasks
    ensures (exists c :: CanStart(env, s, t, c)) <==> InWindow(s, s.tasks[t])
  {
    hide Reachable, Move;
    if InWindow(s, s.tasks[t]) {
      WindowStarts(env, s, s.tasks[t]);
      assert CanStart(env, s, t, Go);
    } else if c :| CanStart(env, s, t, c) {
      StartingMoves(env, s, s.tasks[t], c, Move(env, s, s.tasks[t], c).value);
      NoLostWakeup(env, s, t);
    }
  }

  lemma WindowStarts(env: Env, s: State, pc: Pc)
    requires InWindow(s, pc)
    ensures Move(env, s, pc, Go)
         == Some(Turn(Executing(pc.iter, pc.batch, true, pc.wait), StartTools(pc.batch.remaining)))
  {}

  lemma StartingMoves(env: Env, s: State, pc: Pc, c: Choice, turn: Turn)
    requires Move(env, s, pc, c) == Some(turn) && turn.effect.StartTools?
    ensures pc.Executing? && !pc.started && pc.wait.Selecting?
  {
    hide MakeBatch, NeedsApproval, CallsOf, Rejections, Meaningful, AssistantMessage, Remember, Joined, Answers;
  }

  function OwnSteps(actions: seq<Action>, t: nat): nat {
    if actions == [] then 0
    else
      var last := actions[|actions| - 1];
      OwnSteps(actions[..|actions| - 1], t) + (if last.Step? && last.task == t then 1 else 0)
  }

  function Rank(pc: Pc): (n: nat)
    ensures n <= 14
  {
    if PastReset(pc) then StepsLeft(pc) + 1 else 0
  }

  // Still stopping, or stopped.
  predicate Stopping(s: State, t: nat) {
    t in s.tasks && (s.tasks[t].Done? || (PastReset(s.tasks[t]) && s.cancel))
  }

  lemma StoppingStep(env: Env, s: State, a: Action, s': State, t: nat)
    requires Exclusive(s) && Next(env, s, a) == Some(s') && Stopping(s, t)
    ensures Stopping(s', t)
    ensures Rank(s'.tasks[t]) + (if a.Step? && a.task == t then 1 else 0) <= Rank(s.tasks[t])
  {
    hide Move, Exclusive, StepsLeft, Attentive, Frugal, Rounds;
    match a {
      case Step(u, c) =>
        if u == t {
          if s.tasks[t].Done? { NoStepAfterEnd(env, s, t, c); }
          var turn := Move(env, s, s.tasks[t], c).value;
          MovesAreOrderly(env, s, s.tasks[t], c, turn);
          ResetMoves(env, s, s.tasks[t], c, turn);
        } else if PastReset(s.tasks[t]) {
          ResetMoves(env, s, s.tasks[u], c, Move(env, s, s.tasks[u], c).value);
          assert !s.tasks[u].Entered? by { OneInRun(s, u, t); }
        }
      case _ =>
    }
  }

  // Once the flag is up, a run past its reset takes at most 14 more steps of its own,
  // whatever the others do, and the flag stays up until it is done.
  lemma {:induction false} StopsSoon(env: Env, states: seq<State>, actions: seq<Action>, i: nat, j: nat, t: nat)
    requires Execution(env, states, actions) && i <= j <= |actions|
    requires t in states[i].tasks && PastReset(states[i].tasks[t]) && states[i].cancel
    ensures Stopping(states[j], t)
    ensures OwnSteps(actions[i..j], t) + Rank(states[j].tasks[t]) <= Rank(states[i].tasks[t]) <= 14
    decreases j
  {
    hide Next, Rank, PastReset, Safe;
    if i == j {
      StoppingAtStart(states[i], t);
    } else {
      StopsSoon(env, states, actions, i, j - 1, t);
      ExecutionIsSafe(env, states, actions, j - 1);
      SafeIsExclusive(env, states[j - 1]);
      StoppingStep(env, states[j - 1], actions[j - 1], states[j], t);
      assert actions[i..j][..j - 1 - i] == actions[i..j - 1];
    }
  }

  lemma StoppingAtStart(s: State, t: nat)
    requires t in s.tasks && PastReset(s.tasks[t]) && s.cancel
    ensures Stopping(s, t)
  {}

  lemma SafeIsExclusive(env: Env, s: State)
    requires Safe(env, s)
    ensures Exclusive(s)
  {}

  // ---------------------------------------------------------------- the gate

  // Every execution ever started was of a batch nobody had started before, of calls the
  // deny list read for that batch does not match, each one auto-executed, allowed by a
  // rule, or let through by the user. The batch was read at one step of the same task:
  // its settings are the live ones of that moment, its calls those of the reply just put
  // into the cache, and the task has read none since.
  lemma NothingRunsUnpermitted(env: Env, states: seq<State>, actions: seq<Action>, k: nat) returns (n: nat)
    requires Execution(env, states, actions)
    requires k < |states[|actions|].log| && states[|actions|].log[k].ToolsStarted?
    ensures var log := states[|actions|].log;
      var view := ViewOf(log[..k], log[k].task);
      && MayStart(env, view, log[k].calls)
      && n < |actions| && |states[n].log| < k
      && log[|states[n].log|] == PolicyRead(log[k].task, view.batch.value)
      && Replies.Live(env, states[n], view.batch.value)
      && forall m :: |states[n].log| < m < k ==> !(log[m].PolicyRead? && log[m].task == log[k].task)
  {
    hide Next, Init, ViewOf, Permitted, Replies.Live, Replies.RepliesInv, Safe;
    var log := states[|actions|].log;
    var t, last := log[k].task, |actions|;
    ExecutionIsSafe(env, states, actions, last);
    StartedIsPermitted(env, states[last], k);
    var m := Replies.ViewStory(log[..k], t);
    n := Replies.WhoWrote(env, states, actions, last, m);
    ExecutionIsSafe(env, states, actions, n);
    SafeReplies(env, states[n]);
    Replies.PolicyIsLive(env, states[n], actions[n], states[n + 1], t, ViewOf(log[..k], t).batch.value);
  }

  lemma StartedIsPermitted(env: Env, s: State, k: nat)
    requires Safe(env, s) && k < |s.log| && s.log[k].ToolsStarted?
    ensures MayStart(env, ViewOf(s.log[..k], s.log[k].task), s.log[k].calls)
  {
    hide MayStart, ViewOf, PromptInv, Filed, Exclusive, Spare, Rationed, Watchful, Replies.RepliesInv;
  }

  lemma SafeReplies(env: Env, s: State)
    requires Safe(env, s)
    ensures Replies.RepliesInv(s)
  {}

  // ---------------------------------------------------------------- prompts

  lemma {:induction false} BrokenStays(log: seq<Obs>, k: nat, ch: nat)
    requires k <= |log| && ChannelOf(log[..k], ch).Broken?
    ensures ChannelOf(log, ch).Broken?
  {
    if k < |log| {
      assert log[..|log| - 1][..k] == log[..k];
      BrokenStays(log[..|log| - 1], k, ch);
    } else {
      assert log[..k] == log;
    }
  }

  lemma ChannelsNeverBreak(env: Env, s: State, k: nat, ch: nat)
    requires Reachable(env, s) && k <= |s.log|
    ensures !ChannelOf(s.log[..k], ch).Broken?
  {
    hide GateInv, Filed, Exclusive, Spare, Rationed, Watchful, Reachable, ChannelOf;
    ReachableIsSafe(env, s);
    ChannelKnown(s, ch);
    if ChannelOf(s.log[..k], ch).Broken? { BrokenStays(s.log, k, ch); }
  }

  // Where a channel's stage comes from.
  lemma {:induction false} ChannelStory(log: seq<Obs>, ch: nat) returns (i: int, j: int)
    ensures var c := ChannelOf(log, ch);
      && (c.Open? || c.Answered? || c.Closed? ==> 0 <= i < |log| && log[i] == PromptOpened(c.owner, ch))
      && (c.Answered? ==> i < j < |log| && log[j] == Taken(ch, c.decision))
  {
    i, j := -1, -1;
    if log != [] {
      var last, front := |log| - 1, log[..|log| - 1];
      i, j := ChannelStory(front, ch);
      match log[last] {
        case PromptOpened(t, c) => if c == ch && ChannelOf(front, ch).Unopened? { i := last; }
        case Taken(c, d) => if c == ch && ChannelOf(front, ch).Open? { j := last; }
        case _ =>
      }
    }
  }

  // Every decision settles a prompt the same task had opened. Unless it is a
  // cancellation it is the answer taken while that prompt was open: nothing submitted
  // before the prompt opened, or for another prompt, can decide it.
  lemma DecisionsAreAnswers(env: Env, s: State, k: nat) returns (i: int, j: int)
    requires Reachable(env, s) && k < |s.log| && s.log[k].Decided?
    ensures var Decided(t, ch, d) := s.log[k];
      && 0 <= i < k && s.log[i] == PromptOpened(t, ch)
      && (d != Cancelled ==> i < j < k && s.log[j] == Taken(ch, d))
  {
    hide Reachable, ChannelOf;
    var Decided(t, ch, d) := s.log[k];
    ChannelsNeverBreak(env, s, k + 1, ch);
    i, j := ChannelStory(s.log[..k], ch);
    assert s.log[..k + 1] == s.log[..k] + [s.log[k]];
    ChannelAfter(s.log[..k], [s.log[k]], ch);
  }

  lemma {:induction false} ClosedStays(log: seq<Obs>, k: nat, ch: nat)
    requires k <= |log| && ChannelOf(log[..k], ch).Closed?
    ensures ChannelOf(log, ch).Closed? || ChannelOf(log, ch).Broken?
  {
    if k < |log| {
      assert log[..|log| - 1][..k] == log[..k];
      ClosedStays(log[..|log| - 1], k, ch);
    } else {
      assert log[..k] == log;
    }
  }

  // No prompt is decided twice.
  lemma DecidedOnce(env: Env, s: State, i: nat, j: nat)
    requires Reachable(env, s) && i < j < |s.log| && s.log[i].Decided? && s.log[j].Decided?
    ensures s.log[i].chan != s.log[j].chan
  {
    hide Reachable, ChannelOf;
    var ch := s.log[i].chan;
    ChannelsNeverBreak(env, s, i + 1, ch);
    ChannelsNeverBreak(env, s, j + 1, ch);
    assert s.log[..i + 1] == s.log[..i] + [s.log[i]];
    assert s.log[..j + 1] == s.log[..j] + [s.log[j]];
    ChannelAfter(s.log[..i], [s.log[i]], ch);
    ChannelAfter(s.log[..j], [s.log[j]], ch);
    assert s.log[..j][..i + 1] == s.log[..i + 1];
    ClosedStays(s.log[..j], i + 1, ch);
  }

  // ---------------------------------------------------------------- cache and storage

  lemma NothingTorn(log: seq<Obs>)
    ensures TornIds(log) == {} <==> forall o :: o in log ==> !o.Torn?
  {
    if o :| o in log && o.Torn? { assert o.id in TornIds(log); }
  }

  // Stored ids are, without overlap, the cached ones, those of writers on their way, and
  // those whose write was torn; with no writer the two histories are the same messages if
  // and only if no write ever was.
  lemma CacheAndStorageAgree(env: Env, s: State)
    requires Reachable(env, s)
    ensures Distinct(s.stored) && Distinct(s.cached)
    ensures Ids(s.stored) == Ids(s.cached) + CarriedIds(s) + TornIds(s.log)
    ensures Ids(s.cached) !! CarriedIds(s) !! TornIds(s.log)
    ensures (forall t :: t in s.tasks ==> !s.tasks[t].Pushing?) ==>
      (multiset(s.cached) == multiset(s.stored) <==> forall o :: o in s.log ==> !o.Torn?)
  {
    hide GateInv, PromptInv, Exclusive, Spare, Rationed, Watchful, Reachable, Ids, CarriedIds;
    ReachableIsSafe(env, s);
    StoredIsCachedPlusCarried(s);
    NothingTorn(s.log);
    hide TornIds;
    if forall t :: t in s.tasks ==> !s.tasks[t].Pushing? { QuietMeansEqual(s); }
  }

  // ---------------------------------------------------------------- pairing

  lemma {:induction false} CleanExecutionIsPaired(env: Env, states: seq<State>, actions: seq<Action>, k: nat)
    requires Execution(env, states, actions) && k <= |actions|
    requires W.Unanswered(states[0].cached) == Some(multiset{})
    requires forall n :: 0 <= n < k ==> PairedRuns.CleanAction(env, states[n], actions[n])
    ensures PairedRuns.PairInv(env, states[k])
  {
    hide Next, PairedRuns.CleanAction, PairedRuns.PairInv, Safe, Init;
    if k == 0 {
      InitIsPaired(env, states[0]);
    } else {
      CleanExecutionIsPaired(env, states, actions, k - 1);
      ExecutionIsSafe(env, states, actions, k - 1);
      SafeIsExclusive(env, states[k - 1]);
      PairedRuns.PairStep(env, states[k - 1], actions[k - 1], states[k]);
    }
  }

  lemma InitIsPaired(env: Env, s: State)
    requires Init(s) && W.Unanswered(s.cached) == Some(multiset{})
    ensures PairedRuns.PairInv(env, s)
  {}

  // Over clean actions from a paired history, every request the provider ever sees has
  // each assistant tool call answered at once by exactly its tool messages.
  lemma CleanRequestsArePaired(env: Env, states: seq<State>, actions: seq<Action>, k: nat, n: nat,
                               dialect: W.Dialect, systemPrompt: Option<string>)
    requires Execution(env, states, actions) && k <= |actions|
    requires W.Unanswered(states[0].cached) == Some(multiset{})
    requires forall n :: 0 <= n < k ==> PairedRuns.CleanAction(env, states[n], actions[n])
    requires n < |states[k].log| && states[k].log[n].Request?
    ensures W.WellPaired(W.Converted(dialect, systemPrompt, states[k].log[n].msgs))
  {
    hide Next, Init, PairedRuns.CleanAction, W.Unanswered, W.WellPaired, W.Converted;
    CleanExecutionIsPaired(env, states, actions, k);
    W.PairedOnTheWire(dialect, systemPrompt, states[k].log[n].msgs);
  }
}
