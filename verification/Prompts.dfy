// The approval prompt: every prompt is opened once, answered at most once while it is
// open, and decided once.

module Prompts {
  import opened Types
  import opened Session
  import opened Approval
  import opened Exclusion

  // The life of one prompt's channel, as the log tells it.
  datatype Channel =
    | Unopened
    | Open(owner: nat)
    | Answered(owner: nat, decision: Decision)
    | Closed(owner: nat, decision: Decision)
    | Broken

  // A prompt opens once; only an open prompt can be answered; the task that opened it
  // closes it, with the answer it got or, answered or not, as cancelled.
  function Follow(c: Channel, o: Obs, ch: nat): Channel {
    match o
    case PromptOpened(t, ch') => if ch' != ch then c else if c.Unopened? then Open(t) else Broken
    case Taken(ch', d) => if ch' != ch then c else if c.Open? then Answered(c.owner, d) else Broken
    case Decided(t, ch', d) =>
      if ch' != ch then c
      else if c.Open? && c.owner == t && d == Cancelled then Closed(t, d)
      else if c.Answered? && c.owner == t && (d == c.decision || d == Cancelled) then Closed(t, d)
      else Broken
    case _ => c
  }

  function ChannelOf(log: seq<Obs>, ch: nat): Channel {
    if log == [] then Unopened else Follow(ChannelOf(log[..|log| - 1], ch), log[|log| - 1], ch)
  }

  lemma ChannelAfter(log: seq<Obs>, told: seq<Obs>, ch: nat)
    requires |told| <= 1
    ensures ChannelOf(log + told, ch)
         == if told == [] then ChannelOf(log, ch) else Follow(ChannelOf(log, ch), told[0], ch)
  {
    if told == [] {
      assert log + told == log;
    } else {
      assert told == [told[0]];
      assert (log + told)[..|log|] == log;
    }
  }

  // ---------------------------------------------------------------- one move

  function ChanOf(pc: Pc): nat { if pc.Prompting? || pc.Resolved? || pc.Sending? then pc.chan else 0 }

  function DecisionOf(pc: Pc): Decision { if pc.Resolved? || pc.Sending? then pc.decision else Deny }

  predicate AtPrompt(pc: Pc, ch: nat) { (pc.Prompting? || pc.Resolved?) && ChanOf(pc) == ch }

  // How a move treats prompts.
  predicate Polite(s: State, pc: Pc, turn: Turn) {
    match turn.effect
    case OpenPrompt(ch) => pc.Announcing? && ch == s.prompts && turn.pc.Prompting? && ChanOf(turn.pc) == ch
    case ClosePrompt(ch, d) => pc.Resolved? && ChanOf(pc) == ch && DecisionOf(pc) == d && turn.pc.Applying?
    case TakeSlot(ch, d, deliver) =>
      && s.slot == Some(ch) && !InRun(pc) && !pc.Sending?
      && turn.pc == (if deliver then CancelSent else Sending(ch, d))
    case Deliver(ch, d) => pc == Sending(ch, d) && turn.pc.Submitted?
    case _ =>
      && (turn.effect.ClearCancel? ==> pc.Entered?)
      && !turn.pc.Sending? && !pc.Sending? && !pc.Resolved?
      && (turn.pc.Prompting? || turn.pc.Resolved? ==> pc.Prompting? && ChanOf(pc) == ChanOf(turn.pc))
      && (pc.Prompting? ==> AtPrompt(turn.pc, ChanOf(pc)))
      && (turn.pc.Resolved? ==> Heard(s, ChanOf(turn.pc), DecisionOf(turn.pc)))
  }

  // A prompt ends with the answer that was sent, or because the flag is up.
  predicate Heard(s: State, ch: nat, d: Decision) {
    (ch in s.sent && d == s.sent[ch]) || (d == Cancelled && s.cancel)
  }

  lemma RunIsPolite(s: State, pc: Pc, c: Choice, turn: Turn)
    requires MoveRun(s, pc, c) == Some(turn)
    ensures Polite(s, pc, turn)
  {}

  lemma ReplyIsPolite(env: Env, s: State, pc: Pc, c: Choice, turn: Turn)
    requires MoveReply(env, s, pc, c) == Some(turn)
    ensures Polite(s, pc, turn)
  {
    hide MakeBatch, NeedsApproval, CallsOf, Rejections, Meaningful, AssistantMessage;
  }

  lemma PromptIsPolite(env: Env, s: State, pc: Pc, c: Choice, turn: Turn)
    requires MovePrompt(env, s, pc, c) == Some(turn)
    ensures Polite(s, pc, turn)
  {
    hide Remember, Rejections;
  }

  lemma ToolsIsPolite(s: State, pc: Pc, c: Choice, turn: Turn)
    requires MoveTools(s, pc, c) == Some(turn)
    ensures Polite(s, pc, turn)
  {
    hide Rejections, Joined, Answers;
  }

  lemma CommandIsPolite(s: State, pc: Pc, c: Choice, turn: Turn)
    requires MoveCommand(s, pc, c) == Some(turn)
    ensures Polite(s, pc, turn)
  {}

  lemma MovesArePolite(env: Env, s: State, pc: Pc, c: Choice, turn: Turn)
    requires Move(env, s, pc, c) == Some(turn)
    ensures Polite(s, pc, turn)
  {
    hide MoveRun, MoveReply, MovePrompt, MoveTools, MoveCommand, Polite;
    match PhaseOf(pc) {
      case InLoop => RunIsPolite(s, pc, c, turn);
      case InReply => ReplyIsPolite(env, s, pc, c, turn);
      case InPrompt => PromptIsPolite(env, s, pc, c, turn);
      case InTools => ToolsIsPolite(s, pc, c, turn);
      case InCommand => CommandIsPolite(s, pc, c, turn);
    }
  }

  // ---------------------------------------------------------------- the invariant

  // What a channel's stage says about the session.
  predicate ChannelOk(s: State, ch: nat, c: Channel) {
    && !c.Broken?
    && (c.Unopened? <==> s.prompts <= ch)
    && (c.Open? <==> s.slot == Some(ch))
    && (c.Open? ==> c.owner in s.tasks && AtPrompt(s.tasks[c.owner], ch))
    && (ch in s.sent ==> c.Closed? || (c.Answered? && c.decision == s.sent[ch]))
  }

  // What a task at a prompt, or carrying an answer, knows about the channel.
  predicate TaskOk(s: State, t: nat, pc: Pc, c: Channel) {
    && (pc.Prompting? ==> (c.Open? || c.Answered?) && c.owner == t)
    && (pc.Resolved? ==>
          || (c.Open? && c.owner == t && DecisionOf(pc) == Cancelled && s.cancel)
          || (c.Answered? && c.owner == t
              && (DecisionOf(pc) == c.decision || (DecisionOf(pc) == Cancelled && s.cancel))))
    && (pc.Sending? ==> c.Closed? || (c.Answered? && c.decision == DecisionOf(pc)))
  }

  ghost predicate PromptInv(s: State) {
    && (forall ch: nat :: ChannelOk(s, ch, ChannelOf(s.log, ch)))
    && (forall t :: t in s.tasks ==> TaskOk(s, t, s.tasks[t], ChannelOf(s.log, ChanOf(s.tasks[t]))))
  }

  predicate Talks(e: Effect) { e.OpenPrompt? || e.ClosePrompt? || e.TakeSlot? || e.Deliver? }

  lemma QuietTold(t: nat, e: Effect, c: Channel, ch: nat)
    requires !Talks(e)
    ensures Told(t, e) == [] || Follow(c, Told(t, e)[0], ch) == c
  {}

  // One channel across a step.
  lemma ChannelKeeps(s: State, t: nat, turn: Turn, ch: nat)
    requires PromptInv(s) && Exclusive(s) && t in s.tasks && Polite(s, s.tasks[t], turn)
    ensures var s' := Advance(s, t, turn); ChannelOk(s', ch, ChannelOf(s'.log, ch))
  {
    hide ChannelOf, Exclusive, PromptInv, InRun, Heard;
    var pc, c := s.tasks[t], ChannelOf(s.log, ch);
    ChannelAfter(s.log, Told(t, turn.effect), ch);
    ChannelKnown(s, ch);
    if !Talks(turn.effect) {
      QuietTold(t, turn.effect, c, ch);
      hide Told, Follow;
    } else {
      TaskKnown(s, t);
      OpenIsOwn(s, t, ch);
    }
  }

  // While a task in the run acts, no other task's prompt is open.
  lemma OpenIsOwn(s: State, t: nat, ch: nat)
    requires PromptInv(s) && Exclusive(s) && t in s.tasks
    ensures s.slot == Some(ch) && InRun(s.tasks[t]) ==> AtPrompt(s.tasks[t], ch)
    ensures s.tasks[t].Announcing? || s.tasks[t].Resolved? ==> InRun(s.tasks[t])
  {
    hide ChannelOf, Exclusive, PromptInv;
    ChannelKnown(s, ch);
    var c := ChannelOf(s.log, ch);
    if c.Open? { OneInRun(s, t, c.owner); }
  }

  lemma ChannelKnown(s: State, ch: nat)
    requires PromptInv(s)
    ensures ChannelOk(s, ch, ChannelOf(s.log, ch))
  {}

  lemma TaskKnown(s: State, t: nat)
    requires PromptInv(s) && t in s.tasks
    ensures TaskOk(s, t, s.tasks[t], ChannelOf(s.log, ChanOf(s.tasks[t])))
  {}

  lemma OneInRun(s: State, t: nat, u: nat)
    requires Exclusive(s) && t in s.tasks && u in s.tasks && InRun(s.tasks[u])
    ensures InRun(s.tasks[t]) ==> u == t
  {}

  // One task across a step.
  lemma TaskKeeps(s: State, t: nat, turn: Turn, u: nat)
    requires PromptInv(s) && Exclusive(s) && t in s.tasks && Polite(s, s.tasks[t], turn)
    requires u in s.tasks
    ensures var s' := Advance(s, t, turn);
      TaskOk(s', u, s'.tasks[u], ChannelOf(s'.log, ChanOf(s'.tasks[u])))
  {
    hide ChannelOf, Exclusive, PromptInv;
    var s' := Advance(s, t, turn);
    var pc, ch := s.tasks[t], ChanOf(s'.tasks[u]);
    ChannelAfter(s.log, Told(t, turn.effect), ch);
    ChannelKnown(s, ch);
    TaskKnown(s, t);
    TaskKnown(s, u);
    assert InRun(pc) && InRun(s.tasks[u]) ==> t == u by {
      if InRun(s.tasks[u]) { OneInRun(s, t, u); }
    }
  }

  lemma PromptStep(env: Env, s: State, a: Action, s': State)
    requires PromptInv(s) && Exclusive(s) && Next(env, s, a) == Some(s')
    ensures PromptInv(s')
  {
    hide Move, ChannelOf, TaskOk, Polite, Exclusive;
    match a {
      case Spawn(t, pc) =>
        FreshTask(s', t, pc, ChannelOf(s'.log, ChanOf(pc)));
        SpawnPrompt(s, t, pc);
      case Configure(cfg) => ConfigurePrompt(s, cfg);
      case Step(t, c) =>
        var turn := Move(env, s, s.tasks[t], c).value;
        MovesArePolite(env, s, s.tasks[t], c, turn);
        hide ChannelOk, Next, Advance;
        forall ch: nat
          ensures ChannelOk(Advance(s, t, turn), ch, ChannelOf(Advance(s, t, turn).log, ch))
        { ChannelKeeps(s, t, turn, ch); }
        SameTasks(s, t, turn);
        forall u | u in s.tasks
          ensures TaskOk(Advance(s, t, turn), u, Advance(s, t, turn).tasks[u],
                         ChannelOf(Advance(s, t, turn).log, ChanOf(Advance(s, t, turn).tasks[u])))
        { TaskKeeps(s, t, turn, u); }
        Stepped(env, s, t, c, turn);
    }
  }

  lemma SameTasks(s: State, t: nat, turn: Turn)
    requires t in s.tasks
    ensures Advance(s, t, turn).tasks.Keys == s.tasks.Keys
  {}

  lemma Stepped(env: Env, s: State, t: nat, c: Choice, turn: Turn)
    requires t in s.tasks && Move(env, s, s.tasks[t], c) == Some(turn)
    ensures Next(env, s, Step(t, c)) == Some(Advance(s, t, turn))
  {}

  lemma FreshTask(s: State, t: nat, pc: Pc, c: Channel)
    requires Fresh(pc)
    ensures TaskOk(s, t, pc, c)
  {}

  lemma SpawnPrompt(s: State, t: nat, pc: Pc)
    requires PromptInv(s) && t !in s.tasks && Fresh(pc)
    ensures PromptInv(s.(tasks := s.tasks[t := pc]))
  {
    hide ChannelOf;
    var s' := s.(tasks := s.tasks[t := pc]);
    forall ch: nat ensures ChannelOk(s', ch, ChannelOf(s'.log, ch)) { ChannelKnown(s, ch); }
    forall u | u in s'.tasks
      ensures TaskOk(s', u, s'.tasks[u], ChannelOf(s'.log, ChanOf(s'.tasks[u])))
    {
      if u == t { FreshTask(s', t, pc, ChannelOf(s'.log, ChanOf(pc))); } else { TaskKnown(s, u); }
    }
  }

  lemma ConfigurePrompt(s: State, cfg: Config)
    requires PromptInv(s)
    ensures PromptInv(s.(cfg := cfg))
  {
    hide ChannelOf;
    var s' := s.(cfg := cfg);
    forall ch: nat ensures ChannelOk(s', ch, ChannelOf(s'.log, ch)) { ChannelKnown(s, ch); }
    forall u | u in s'.tasks
      ensures TaskOk(s', u, s'.tasks[u], ChannelOf(s'.log, ChanOf(s'.tasks[u])))
    { TaskKnown(s, u); }
  }
}
