// Which calls of a reply are blocked, asked about or run, and what is shown as pending
// while the user is asked.

module Asking {
  import opened Types
  import opened Session
  import opened Approval
  import opened Exclusion
  import opened Grants
  import Outcomes
  import Remembering
  import Runs
  import A = Accumulator

  // ---------------------------------------------------------------- the way of a batch

  predicate AllBlocked(env: Env, cfg: Config, calls: seq<Call>) {
    forall c :: c in calls ==> Covered(env.codec, cfg.alwaysDeny, c)
  }

  // Nothing runs by itself, and some call is neither blocked nor allowed.
  predicate UserDecides(env: Env, cfg: Config, calls: seq<Call>) {
    && !cfg.autoExecute
    && exists c :: c in calls && !Covered(env.codec, cfg.alwaysDeny, c) && !Covered(env.codec, cfg.alwaysAllow, c)
  }

  lemma CoveredIsDenied(codec: Codec, deny: seq<string>, c: Call)
    ensures Covered(codec, deny, c) <==> IsDenied(codec, deny, c)
  {
    hide Remembering.SpecMatches, ParseRules, MatchesAny, Covered;
    CoveredMatches(codec, deny, c);
  }

  lemma {:induction false} RemainingAre(codec: Codec, deny: seq<string>, calls: seq<Call>)
    ensures forall c :: c in Remaining(codec, deny, calls) <==> c in calls && !Covered(codec, deny, c)
    ensures Remaining(codec, deny, calls) == [] ==> Denied(codec, deny, calls) == calls
  {
    hide IsDenied, Covered;
    if calls != [] {
      RemainingAre(codec, deny, calls[1..]);
      CoveredIsDenied(codec, deny, calls[0]);
      assert calls == [calls[0]] + calls[1..];
    }
  }

  // Without a call, or without the model having stopped for tools, the turn ends there; and
  // with nobody to run them it fails.
  lemma NothingToRun(env: Env, s: State, i: nat, acc: A.Acc)
    ensures Move(env, s, Replied(i, acc), Go) == To(Ending(i))
       <==> acc.stop != Some(ToolUseStop) || forall k :: 0 <= k < |acc.blocks| ==> !acc.blocks[k].ToolUse?
    ensures Move(env, s, Replied(i, acc), Go) == To(Closing(Failed))
       <==> !env.hasExecutor && acc.stop == Some(ToolUseStop)
            && exists k :: 0 <= k < |acc.blocks| && acc.blocks[k].ToolUse?
  {
    hide CallsOf, NeedsApproval, Rejections, MakeBatch;
    SomeCall(acc.blocks);
  }

  lemma {:induction false} SomeCall(blocks: seq<ContentBlock>)
    ensures CallsOf(blocks) == [] <==> forall k :: 0 <= k < |blocks| ==> !blocks[k].ToolUse?
  {
    if blocks != [] { SomeCall(blocks[1..]); }
  }

  // A reply that asks for tools is answered at once when all its calls are blocked, held
  // for the user when one of them needs it, and goes on to run otherwise; the settings are
  // those of this moment, and what is put before the user is what is not blocked.
  lemma BatchGoesItsWay(env: Env, s: State, t: nat, i: nat, acc: A.Acc)
    requires env.hasExecutor && acc.stop == Some(ToolUseStop) && CallsOf(acc.blocks) != []
    ensures var calls, cfg, move := CallsOf(acc.blocks), s.cfg, Move(env, s, Replied(i, acc), Go);
      && move.Some? && move.value.effect.ReadPolicy?
      && move.value.effect.batch.cfg == cfg && move.value.effect.batch.calls == calls
      && (AllBlocked(env, cfg, calls) ==>
            && move.value.pc.Answering? && move.value.pc.after == Loop
            && Outcomes.Refused(move.value.pc.results, calls, "Blocked by always-deny policy"))
      && (!AllBlocked(env, cfg, calls) && UserDecides(env, cfg, calls) ==>
            && move.value.pc.Announcing?
            && Advance(s, t, move.value).pending == move.value.effect.batch.remaining
            && forall c :: c in Advance(s, t, move.value).pending <==>
                 c in calls && !Covered(env.codec, cfg.alwaysDeny, c))
      && (!AllBlocked(env, cfg, calls) && !UserDecides(env, cfg, calls) ==>
            move.value.pc == Gate(i, move.value.effect.batch))
  {
    hide CallsOf, Covered, NeedsApproval, Rejections, Remaining, Denied, Told;
    var calls := CallsOf(acc.blocks);
    var remaining := Remaining(env.codec, s.cfg.alwaysDeny, calls);
    RemainingAre(env.codec, s.cfg.alwaysDeny, calls);
    AskedExactlyFor(env.codec, s.cfg, remaining);
    if remaining != [] { assert remaining[0] in remaining; }
    SameUser(env, s.cfg, calls, remaining);
  }

  lemma SameUser(env: Env, cfg: Config, calls: seq<Call>, remaining: seq<Call>)
    requires forall c :: c in remaining <==> c in calls && !Covered(env.codec, cfg.alwaysDeny, c)
    ensures UserDecides(env, cfg, calls) <==> UserDecides(env, cfg, remaining)
  {
    hide Covered;
  }

  // ---------------------------------------------------------------- what is remembered

  lemma OnlyDecisionsChangeSettings(env: Env, s: State, pc: Pc, c: Choice, turn: Turn)
    requires Move(env, s, pc, c) == Some(turn)
    ensures pc.Applying? <==> turn.effect.ApplyDecision?
    ensures pc.Applying? ==> turn == Decide(env, s, pc.iter, pc.batch, pc.decision)
  {
    hide MoveRun, MoveReply, MoveTools, MoveCommand, Decide;
    match PhaseOf(pc) {
      case InLoop => RunSettings(s, pc, c, turn);
      case InReply => ReplySettings(env, s, pc, c, turn);
      case InPrompt => DecideSettings(env, s, pc);
      case InTools => ToolsSettings(s, pc, c, turn);
      case InCommand => CommandSettings(s, pc, c, turn);
    }
  }

  lemma DecideSettings(env: Env, s: State, pc: Pc)
    ensures pc.Applying? ==> Decide(env, s, pc.iter, pc.batch, pc.decision).effect.ApplyDecision?
  {
    hide Remember, Rejections;
  }

  lemma RunSettings(s: State, pc: Pc, c: Choice, turn: Turn)
    requires MoveRun(s, pc, c) == Some(turn)
    ensures !turn.effect.ApplyDecision?
  {}

  lemma ReplySettings(env: Env, s: State, pc: Pc, c: Choice, turn: Turn)
    requires MoveReply(env, s, pc, c) == Some(turn)
    ensures !turn.effect.ApplyDecision?
  {
    hide MakeBatch, NeedsApproval, CallsOf, Rejections, Meaningful, AssistantMessage, A.Apply;
  }

  lemma ToolsSettings(s: State, pc: Pc, c: Choice, turn: Turn)
    requires MoveTools(s, pc, c) == Some(turn)
    ensures !turn.effect.ApplyDecision?
  {
    hide Rejections, Joined, Answers;
  }

  lemma CommandSettings(s: State, pc: Pc, c: Choice, turn: Turn)
    requires MoveCommand(s, pc, c) == Some(turn)
    ensures !turn.effect.ApplyDecision?
  {}

  // The live settings change where the user sets them, and where a decision is applied:
  // always-allow and always-deny remember the calls that were asked about, on their own
  // list and at once, and no other decision changes anything.
  lemma SettingsAreLive(env: Env, s: State, a: Action, s': State)
    requires Next(env, s, a) == Some(s')
    ensures a.Configure? ==> s'.cfg == a.cfg
    ensures s'.cfg != s.cfg ==>
      a.Configure? || (a.Step? && a.task in s.tasks && s.tasks[a.task].Applying?
                       && s.tasks[a.task].decision in [AlwaysAllow, AlwaysDeny])
    ensures a.Step? && a.task in s.tasks && s.tasks[a.task].Applying? ==>
      var b, d := s.tasks[a.task].batch, s.tasks[a.task].decision;
      && (d == AlwaysAllow ==> s'.cfg == Remember(env.codec, s.cfg, b.remaining, true))
      && (d == AlwaysDeny ==> s'.cfg == Remember(env.codec, s.cfg, b.remaining, false))
  {
    hide Move, Remember, Told;
    if a.Step? {
      var turn := Move(env, s, s.tasks[a.task], a.choice).value;
      OnlyDecisionsChangeSettings(env, s, s.tasks[a.task], a.choice, turn);
    }
  }

  // So the next reply's policy has it: after always-deny a rememberable call of the batch
  // is blocked, after always-allow nobody asks about it.
  lemma RememberedAtOnce(env: Env, s: State, a: Action, s': State, call: Call)
    requires Next(env, s, a) == Some(s') && Faithful(env.codec) && a.Step?
    requires a.task in s.tasks && s.tasks[a.task].Applying? && call in s.tasks[a.task].batch.remaining
    requires Remembering.Rememberable(env.codec, call)
    ensures s.tasks[a.task].decision == AlwaysDeny ==> Covered(env.codec, s'.cfg.alwaysDeny, call)
    ensures s.tasks[a.task].decision == AlwaysAllow ==> !NeedsApproval(env.codec, s'.cfg, [call])
  {
    hide Next, Remember, Remembering.Rememberable, IsDenied, NeedsApproval, Covered, Faithful;
    SettingsAreLive(env, s, a, s');
    Remembering.DecisionsAreRemembered(env.codec, s.cfg, s.tasks[a.task].batch.remaining, call);
    CoveredIsDenied(env.codec, s'.cfg.alwaysDeny, call);
  }

  // ---------------------------------------------------------------- what is pending

  // Between the announcement of a batch and the application of what was decided on it.
  predicate Deciding(pc: Pc) { pc.Announcing? || pc.Prompting? || pc.Resolved? || pc.Applying? }

  // The pending calls are those of the batch the user is asked about, and none otherwise.
  ghost predicate PendingInv(s: State) {
    && (forall t :: t in s.tasks && Deciding(s.tasks[t]) ==> s.pending == s.tasks[t].batch.remaining)
    && ((forall t :: t in s.tasks ==> !Deciding(s.tasks[t])) ==> s.pending == [])
  }

  predicate Asks(e: Effect) { e.ReadPolicy? && e.ask }

  predicate KeepsPending(pc: Pc, turn: Turn) {
    if Deciding(pc) then
      if Deciding(turn.pc) then turn.pc.batch == pc.batch && !Asks(turn.effect) && !turn.effect.ApplyDecision?
      else turn.effect.ApplyDecision?
    else if Deciding(turn.pc) then Asks(turn.effect) && turn.pc.batch == turn.effect.batch
    else !Asks(turn.effect) && !turn.effect.ApplyDecision?
  }

  lemma ReplyPends(env: Env, s: State, pc: Pc, c: Choice, turn: Turn)
    requires MoveReply(env, s, pc, c) == Some(turn)
    ensures KeepsPending(pc, turn)
  {
    hide MakeBatch, NeedsApproval, CallsOf, Rejections, Meaningful, AssistantMessage, A.Apply;
  }

  lemma PromptPends(env: Env, s: State, pc: Pc, c: Choice, turn: Turn)
    requires MovePrompt(env, s, pc, c) == Some(turn)
    ensures KeepsPending(pc, turn)
  {
    hide Remember, Rejections;
  }

  lemma ToolsPend(s: State, pc: Pc, c: Choice, turn: Turn)
    requires MoveTools(s, pc, c) == Some(turn) && PhaseOf(pc) == InTools
    ensures KeepsPending(pc, turn)
  {
    hide Rejections, Joined, Answers;
  }

  lemma OthersPend(s: State, pc: Pc, c: Choice, turn: Turn)
    requires PhaseOf(pc) == InLoop || PhaseOf(pc) == InCommand
    requires MoveRun(s, pc, c) == Some(turn) || MoveCommand(s, pc, c) == Some(turn)
    ensures KeepsPending(pc, turn)
  {}

  lemma MovesKeepPending(env: Env, s: State, pc: Pc, c: Choice, turn: Turn)
    requires Move(env, s, pc, c) == Some(turn)
    ensures KeepsPending(pc, turn)
  {
    hide MoveRun, MoveReply, MovePrompt, MoveTools, MoveCommand, KeepsPending;
    match PhaseOf(pc) {
      case InLoop => OthersPend(s, pc, c, turn);
      case InReply => ReplyPends(env, s, pc, c, turn);
      case InPrompt => PromptPends(env, s, pc, c, turn);
      case InTools => ToolsPend(s, pc, c, turn);
      case InCommand => OthersPend(s, pc, c, turn);
    }
  }

  lemma DecidingIsInRun(pc: Pc)
    ensures Deciding(pc) ==> InRun(pc)
    ensures Fresh(pc) ==> !Deciding(pc)
  {}

  lemma PendingStep(env: Env, s: State, a: Action, s': State)
    requires PendingInv(s) && Exclusive(s) && Exclusive(s') && Next(env, s, a) == Some(s')
    ensures PendingInv(s')
  {
    hide Move, InRun;
    forall pc: Pc ensures (Deciding(pc) ==> InRun(pc)) && (Fresh(pc) ==> !Deciding(pc)) { DecidingIsInRun(pc); }
    hide Deciding;
    match a {
      case Spawn(t, pc) => assert forall u :: u in s.tasks ==> s'.tasks[u] == s.tasks[u];
      case Configure(cfg) =>
      case Step(t, c) =>
        var turn := Move(env, s, s.tasks[t], c).value;
        MovesKeepPending(env, s, s.tasks[t], c, turn);
        StepPending(s, t, turn);
    }
  }

  lemma StepPending(s: State, t: nat, turn: Turn)
    requires PendingInv(s) && t in s.tasks && KeepsPending(s.tasks[t], turn)
    requires Exclusive(s) && Exclusive(Advance(s, t, turn))
    ensures PendingInv(Advance(s, t, turn))
  {
    hide InRun, Told;
    var s' := Advance(s, t, turn);
    forall pc: Pc ensures Deciding(pc) ==> InRun(pc) { DecidingIsInRun(pc); }
    hide Deciding;
    assert s'.tasks[t] == turn.pc;
    assert forall u :: u in s.tasks && u != t ==> s'.tasks[u] == s.tasks[u];
    if Deciding(s.tasks[t]) {
      assert forall u :: u in s.tasks && u != t ==> !Deciding(s.tasks[u]);
    } else if Deciding(turn.pc) {
      assert forall u :: u in s.tasks && u != t ==> !Deciding(s'.tasks[u]);
    }
  }

  // At every point of every execution: while the user is asked, what is pending is what the
  // deny list left of that reply's calls; at any other time nothing is.
  lemma {:induction false} PendingIsAskedAbout(env: Env, states: seq<State>, actions: seq<Action>, k: nat)
    requires Execution(env, states, actions) && k <= |actions|
    ensures PendingInv(states[k])
    decreases k
  {
    hide Next, PendingInv, Exclusive;
    if k == 0 {
      NothingPending(states[0]);
    } else {
      PendingIsAskedAbout(env, states, actions, k - 1);
      Exclusives(env, states, actions, k - 1);
      Exclusives(env, states, actions, k);
      assert Next(env, states[k - 1], actions[k - 1]) == Some(states[k]);
      PendingStep(env, states[k - 1], actions[k - 1], states[k]);
    }
  }

  lemma NothingPending(s: State)
    requires Init(s)
    ensures PendingInv(s)
  {}

  lemma Exclusives(env: Env, states: seq<State>, actions: seq<Action>, k: nat)
    requires Execution(env, states, actions) && k <= |actions|
    ensures Exclusive(states[k])
  {
    hide Next, Init, Exclusive;
    Runs.ExecutionIsSafe(env, states, actions, k);
  }
}
