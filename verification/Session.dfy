// The conversation session (clareon-core/src/conversation/session.rs) as a step system.
// One step is what a task does between two points where another task can run: an await,
// a yield, or an access to an atomic or to the cancel channel. The backend, the tool
// executor, the clock and the success of each of a write's two statements are choices of
// the environment.

module Session {
  import opened Types
  import opened Approval
  import A = Accumulator
  import T = Text

  const MAX_TOOL_ITERATIONS := 5

  datatype Env = Env(codec: Codec, parse: JsonParser, hasExecutor: bool)

  datatype Decision = AllowOnce | AlwaysAllow | AlwaysDeny | Deny | Cancelled

  // The tool calls of one reply, split by the deny list read for them.
  datatype Batch = Batch(cfg: Config, calls: seq<Call>, denied: seq<Call>, remaining: seq<Call>)

  // Where a task stands in wait_if_cancelled (or in the cancel branch of
  // wait_for_approval): about to subscribe, about to look at the flag, inside the
  // select, or woken by a change. `seen` is the channel version the receiver has seen.
  datatype Wait = Subscribing | Borrowing(seen: nat) | Selecting(seen: nat) | Woken(seen: nat)

  datatype Outcome = Completed | Stopped | Failed

  // What follows once results are stored.
  datatype After = Loop | Close

  // Where a task goes once its stored message is in the cache. Storing takes two
  // statements, and between them the message is in the database and nowhere else.
  datatype Resume = AfterReply(iter: nat, acc: A.Acc) | NextRound(iter: nat) | Leaving(outcome: Outcome) | AfterAppend

  datatype Pc =
    // a generation task
    | Ready
    | Lost
    | Entered
    | LoopTop(iter: nat)
    | Reading(iter: nat)
    | Requesting(iter: nat, msgs: seq<Message>)
    | Responding(iter: nat)
    | Streaming(iter: nat, acc: A.Acc, wait: Wait)
    | SavingPartial(iter: nat, acc: A.Acc)
    | SavingReply(iter: nat, acc: A.Acc)
    | Replied(iter: nat, acc: A.Acc)
    | Announcing(iter: nat, batch: Batch)
    | Prompting(iter: nat, batch: Batch, chan: nat, wait: Wait)
    | Resolved(iter: nat, batch: Batch, chan: nat, decision: Decision)
    | Applying(iter: nat, batch: Batch, decision: Decision)
    | Gate(iter: nat, batch: Batch)
    | Executing(iter: nat, batch: Batch, started: bool, wait: Wait)
    | Erring(iter: nat, error: string)
    | Answering(iter: nat, results: seq<ContentBlock>, after: After)
    | Pushing(msg: Message, resume: Resume)
    | Ending(iter: nat)
    | Closing(outcome: Outcome)
    | Done(outcome: Outcome)
    // append_user_message, submit_tool_approval, cancel
    | Appending(content: seq<ContentBlock>)
    | Appended
    | Submitting(choice: Decision)
    | Sending(chan: nat, decision: Decision)
    | Submitted
    | Cancelling
    | CancellingPrompt
    | CancelSent

  // What the environment decides for a step.
  datatype Choice =
    | Go
    | Fail
    | Busy
    | Row(id: int, now: int)
    | Event(ev: StreamEvent)
    | StreamEnd
    | Wake
    | Delivered
    | Results(results: seq<Option<ContentBlock>>)
    | ToolsFail(error: string)

  // What an observer of the session sees.
  datatype Obs =
    | Enter(task: nat)
    | Reset(task: nat)
    | CancelSet
    | Request(task: nat, msgs: seq<Message>)
    | PolicyRead(task: nat, batch: Batch)
    | PromptOpened(task: nat, chan: nat)
    | Taken(chan: nat, decision: Decision)
    | Decided(task: nat, chan: nat, decision: Decision)
    | ToolsStarted(task: nat, calls: seq<Call>)
    | Torn(task: nat, id: int)
    | Leave(task: nat)

  datatype State = State(
    tasks: map<nat, Pc>,
    generating: bool,
    cancel: bool,
    version: nat,
    slot: Option<nat>,
    prompts: nat,
    sent: map<nat, Decision>,
    pending: seq<Call>,
    cfg: Config,
    nextId: int,
    stored: seq<Message>,
    cached: seq<Message>,
    log: seq<Obs>)

  // ---------------------------------------------------------------- messages

  function TextContent(blocks: seq<ContentBlock>): Option<string> {
    if TextsOf(blocks) == [] then None else Some(T.Join(TextsOf(blocks), "\n"))
  }

  function AssistantMessage(id: int, now: int, acc: A.Acc): Message {
    Message(id, now, Assistant, TextContent(acc.blocks), acc.blocks,
            Some(acc.usage.inputTokens), Some(acc.usage.outputTokens))
  }

  function UserMessage(id: int, now: int, content: seq<ContentBlock>): Message {
    Message(id, now, User, TextContent(content), content, None, None)
  }

  function ResultsMessage(id: int, now: int, results: seq<ContentBlock>): Message {
    Message(id, now, User, None, results, None, None)
  }

  function ToolErrorMessage(id: int, now: int, error: string): Message {
    Message(id, now, User, Some("Tool execution error: " + error),
            [Text("Tool execution failed with error: " + error)], None, None)
  }

  predicate Meaningful(blocks: seq<ContentBlock>) {
    exists k :: 0 <= k < |blocks| && (blocks[k].Text? ==> T.Trim(blocks[k].text) != "")
  }

  function Rejections(calls: seq<Call>, reason: string): (r: seq<ContentBlock>)
    ensures |r| == |calls| && ResultIds(r) == CallIds(calls)
    ensures forall k :: 0 <= k < |r| ==> r[k] == ToolResult(calls[k].id, [reason], Some(true))
  {
    if calls == [] then []
    else
      var r := [ToolResult(calls[0].id, [reason], Some(true))] + Rejections(calls[1..], reason);
      assert r[1..] == Rejections(calls[1..], reason);
      assert CallIds(calls) == [calls[0].id] + CallIds(calls[1..]);
      r
  }

  // The results of the executor tasks that joined, in order.
  function Joined(results: seq<Option<ContentBlock>>): seq<ContentBlock> {
    if results == [] then []
    else (match results[0] case None => [] case Some(b) => [b]) + Joined(results[1..])
  }

  // execute_multiple answers the calls it was given, in order; a task that does not
  // join leaves a hole.
  predicate Answers(results: seq<Option<ContentBlock>>, calls: seq<Call>) {
    && |results| == |calls|
    && forall k :: 0 <= k < |results| && results[k].Some? ==>
         results[k].value.ToolResult? && results[k].value.toolUseId == calls[k].id
  }

  const BLOCKED := "Blocked by always-deny policy"
  const DENIED := "User denied tool execution"
  const STOPPED := "Generation stopped by user"

  function MakeBatch(env: Env, cfg: Config, calls: seq<Call>): Batch {
    Batch(cfg, calls, Denied(env.codec, cfg.alwaysDeny, calls), Remaining(env.codec, cfg.alwaysDeny, calls))
  }

  // ---------------------------------------------------------------- steps

  // What a step does to the session besides moving its own task.
  datatype Effect =
    | Nothing
    | RaiseFlag
    | LowerFlag
    | ClearCancel
    | RaiseCancel
    | SendRequest(msgs: seq<Message>)
    | ReadPolicy(batch: Batch, ask: bool)
    | OpenPrompt(chan: nat)
    | ClosePrompt(chan: nat, decision: Decision)
    | ApplyDecision(cfg: Config)
    | StartTools(calls: seq<Call>)
    | Insert(msg: Message)
    | Cache(msg: Message)
    | Tear(msg: Message)
    | TakeSlot(chan: nat, decision: Decision, deliver: bool)
    | Deliver(chan: nat, decision: Decision)

  datatype Turn = Turn(pc: Pc, effect: Effect)

  function To(pc: Pc): Option<Turn> { Some(Turn(pc, Nothing)) }

  // Storage assigns row ids in increasing order; other conversations may take some.
  function Store(s: State, m: Message, resume: Resume): Option<Turn> {
    if m.id < s.nextId then None else Some(Turn(Pushing(m, resume), Insert(m)))
  }

  function Resumed(r: Resume): Pc {
    match r
    case AfterReply(i, acc) => Replied(i, acc)
    case NextRound(i) => LoopTop(i)
    case Leaving(o) => Closing(o)
    case AfterAppend => Appended
  }

  // Where it goes when the second statement of the write fails: the row stays, but the
  // caller is told of an error and the message never gets to the cache.
  function Abandoned(r: Resume): Pc { if r.AfterAppend? then Appended else Closing(Failed) }

  // The cancel channel as one waiting receiver sees it: the next phase, or None once the
  // flag was seen raised.
  datatype Waited = Keep(wait: Wait) | Stop | Stuck

  function MoveWait(s: State, w: Wait, c: Choice): Waited {
    match (w, c)
    case (Subscribing, Go) => Keep(Borrowing(s.version))
    case (Borrowing(seen), Go) => if s.cancel then Stop else Keep(Selecting(seen))
    case (Selecting(seen), Wake) => if seen != s.version then Keep(Woken(s.version)) else Stuck
    case (Woken(seen), Go) => if s.cancel then Stop else Keep(Selecting(seen))
    case _ => Stuck
  }

  // Entering and leaving a run, and the part of the loop around one request.
  function MoveRun(s: State, pc: Pc, c: Choice): Option<Turn> {
    match pc
    case Ready =>
      if c != Go then None else if s.generating then To(Lost) else Some(Turn(Entered, RaiseFlag))
    case Entered => if c != Go then None else Some(Turn(LoopTop(0), ClearCancel))
    case LoopTop(i) =>
      if c != Go then None
      else if s.cancel then To(Closing(Stopped))
      else if i + 1 > MAX_TOOL_ITERATIONS then To(Closing(Failed))
      else To(Reading(i + 1))
    case Reading(i) => if c != Go then None else To(Requesting(i, s.cached))
    case Requesting(i, msgs) => if c != Go then None else Some(Turn(Responding(i), SendRequest(msgs)))
    case Responding(i) =>
      if c == Go then To(Streaming(i, A.EMPTY, Subscribing)) else if c == Fail then To(Closing(Failed)) else None
    case Ending(i) =>
      if c == Go then To(Closing(Completed)) else if c == Fail then To(Closing(Failed)) else None
    case Closing(o) => if c != Go then None else Some(Turn(Done(o), LowerFlag))
    case _ => None
  }

  // Receiving a reply, event by event.
  function MoveStream(env: Env, s: State, i: nat, acc: A.Acc, w: Wait, c: Choice): Option<Turn> {
    if w.Selecting? && c.Event? then To(Streaming(i, A.Apply(env.parse, acc, c.ev), Subscribing))
    else if w.Selecting? && c == StreamEnd then To(SavingReply(i, acc))
    else if w.Selecting? && c == Fail then To(Closing(Failed))
    else
      match MoveWait(s, w, c)
      case Keep(w') => To(Streaming(i, acc, w'))
      case Stop => To(SavingPartial(i, acc))
      case Stuck => None
  }

  // Storing a reply, whole or partial, and deciding what it asks for.
  function MoveReply(env: Env, s: State, pc: Pc, c: Choice): Option<Turn> {
    match pc
    case Streaming(i, acc, w) => MoveStream(env, s, i, acc, w, c)
    case SavingPartial(i, acc) =>
      if !Meaningful(acc.blocks) then (if c == Go then To(Closing(Stopped)) else None)
      else if c == Fail then To(Closing(Failed))
      else if c.Row? then Store(s, AssistantMessage(c.id, c.now, acc), Leaving(Stopped))
      else None
    case SavingReply(i, acc) =>
      if c == Fail then To(Closing(Failed))
      else if c.Row? then Store(s, AssistantMessage(c.id, c.now, acc), AfterReply(i, acc))
      else None
    case Replied(i, acc) => if c == Go then MoveReplied(env, s, i, acc) else None
    case _ => None
  }

  function MoveReplied(env: Env, s: State, i: nat, acc: A.Acc): Option<Turn> {
    var calls := CallsOf(acc.blocks);
    if acc.stop != Some(ToolUseStop) || calls == [] then To(Ending(i))
    else if !env.hasExecutor then To(Closing(Failed))
    else
      var b := MakeBatch(env, s.cfg, calls);
      if b.remaining == [] then
        Some(Turn(Answering(i, Rejections(b.denied, BLOCKED), Loop), ReadPolicy(b, false)))
      else if NeedsApproval(env.codec, b.cfg, b.remaining) then
        Some(Turn(Announcing(i, b), ReadPolicy(b, true)))
      else Some(Turn(Gate(i, b), ReadPolicy(b, false)))
  }

  // Asking the user.
  function MovePrompt(env: Env, s: State, pc: Pc, c: Choice): Option<Turn> {
    match pc
    case Announcing(i, b) =>
      if c != Go then None else Some(Turn(Prompting(i, b, s.prompts, Subscribing), OpenPrompt(s.prompts)))
    case Prompting(i, b, ch, w) =>
      if c == Delivered then
        if ch in s.sent && (w.Subscribing? || w.Selecting?) then To(Resolved(i, b, ch, s.sent[ch])) else None
      else (
        match MoveWait(s, w, c)
        case Keep(w') => To(Prompting(i, b, ch, w'))
        case Stop => To(Resolved(i, b, ch, Cancelled))
        case Stuck => None)
    case Resolved(i, b, ch, d) => if c != Go then None else Some(Turn(Applying(i, b, d), ClosePrompt(ch, d)))
    case Applying(i, b, d) => if c != Go then None else Some(Decide(env, s, i, b, d))
    case _ => None
  }

  function Decide(env: Env, s: State, i: nat, b: Batch, d: Decision): Turn {
    match d
    case AllowOnce => Turn(Gate(i, b), ApplyDecision(s.cfg))
    case AlwaysAllow => Turn(Gate(i, b), ApplyDecision(Remember(env.codec, s.cfg, b.remaining, true)))
    case AlwaysDeny =>
      Turn(Answering(i, Rejections(b.denied, BLOCKED) + Rejections(b.remaining, BLOCKED), Loop),
           ApplyDecision(Remember(env.codec, s.cfg, b.remaining, false)))
    case Deny =>
      Turn(Answering(i, Rejections(b.denied, BLOCKED) + Rejections(b.remaining, DENIED), Loop), ApplyDecision(s.cfg))
    case Cancelled =>
      Turn(Answering(i, Rejections(b.denied, BLOCKED) + Rejections(b.remaining, STOPPED), Close), ApplyDecision(s.cfg))
  }

  // Running the tools.
  function MoveExecuting(s: State, i: nat, b: Batch, started: bool, w: Wait, c: Choice): Option<Turn> {
    if w.Selecting? && !started && c == Go then Some(Turn(Executing(i, b, true, w), StartTools(b.remaining)))
    else if w.Selecting? && started && c.Results? then
      if Answers(c.results, b.remaining) then
        To(Answering(i, Rejections(b.denied, BLOCKED) + Joined(c.results), Loop))
      else None
    else if w.Selecting? && started && c.ToolsFail? then To(Erring(i, c.error))
    else
      match MoveWait(s, w, c)
      case Keep(w') => To(Executing(i, b, started, w'))
      case Stop => To(Answering(i, Rejections(b.remaining, STOPPED), Close))
      case Stuck => None
  }

  // Storing what came of the tools, and pushing what was stored into the cache.
  function MoveTools(s: State, pc: Pc, c: Choice): Option<Turn> {
    match pc
    case Gate(i, b) =>
      if c != Go then None
      else if s.cancel then To(Answering(i, Rejections(b.remaining, STOPPED), Close))
      else To(Executing(i, b, false, Subscribing))
    case Executing(i, b, started, w) => MoveExecuting(s, i, b, started, w, c)
    case Erring(i, error) =>
      if c.Row? then Store(s, ToolErrorMessage(c.id, c.now, error), NextRound(i))
      else if c == Fail then To(Closing(Failed))
      else None
    case Answering(i, rs, after) =>
      if rs == [] && after == Close then (if c == Go then To(Closing(Stopped)) else None)
      else if c.Row? then
        Store(s, ResultsMessage(c.id, c.now, rs), if after == Loop then NextRound(i) else Leaving(Stopped))
      else if c == Fail then To(Closing(Failed))
      else None
    case Pushing(m, resume) =>
      if c == Go then Some(Turn(Resumed(resume), Cache(m)))
      else if c == Fail then Some(Turn(Abandoned(resume), Tear(m)))
      else None
    case _ => None
  }

  // The commands that run beside a generation.
  function MoveCommand(s: State, pc: Pc, c: Choice): Option<Turn> {
    match pc
    case Appending(content) =>
      if c.Row? then Store(s, UserMessage(c.id, c.now, content), AfterAppend)
      else if c == Fail then To(Appended)
      else None
    case Submitting(d) =>
      if c != Go then None
      else if s.slot.None? then To(Submitted)
      else Some(Turn(Sending(s.slot.value, d), TakeSlot(s.slot.value, d, false)))
    case Sending(ch, d) => if c != Go then None else Some(Turn(Submitted, Deliver(ch, d)))
    case Cancelling => if c != Go then None else Some(Turn(CancellingPrompt, RaiseCancel))
    case CancellingPrompt =>
      if c == Busy then To(CancelSent)
      else if c != Go then None
      else if s.slot.None? then To(CancelSent)
      else Some(Turn(CancelSent, TakeSlot(s.slot.value, Cancelled, true)))
    case _ => None
  }

  datatype Phase = InLoop | InReply | InPrompt | InTools | InCommand

  function PhaseOf(pc: Pc): Phase {
    if pc.Streaming? || pc.SavingPartial? || pc.SavingReply? || pc.Replied? then InReply
    else if pc.Announcing? || pc.Prompting? || pc.Resolved? || pc.Applying? then InPrompt
    else if pc.Gate? || pc.Executing? || pc.Erring? || pc.Answering? || pc.Pushing? then InTools
    else if pc.Appending? || pc.Submitting? || pc.Sending? || pc.Cancelling? || pc.CancellingPrompt? then InCommand
    else InLoop
  }

  function Move(env: Env, s: State, pc: Pc, c: Choice): Option<Turn> {
    match PhaseOf(pc)
    case InLoop => MoveRun(s, pc, c)
    case InReply => MoveReply(env, s, pc, c)
    case InPrompt => MovePrompt(env, s, pc, c)
    case InTools => MoveTools(s, pc, c)
    case InCommand => MoveCommand(s, pc, c)
  }

  // What observers are told.
  function Told(t: nat, e: Effect): seq<Obs> {
    match e
    case RaiseFlag => [Enter(t)]
    case LowerFlag => [Leave(t)]
    case ClearCancel => [Reset(t)]
    case RaiseCancel => [CancelSet]
    case SendRequest(msgs) => [Request(t, msgs)]
    case ReadPolicy(b, _) => [PolicyRead(t, b)]
    case OpenPrompt(ch) => [PromptOpened(t, ch)]
    case ClosePrompt(ch, d) => [Decided(t, ch, d)]
    case StartTools(calls) => [ToolsStarted(t, calls)]
    case Tear(m) => [Torn(t, m.id)]
    case TakeSlot(ch, d, _) => [Taken(ch, d)]
    case _ => []
  }

  // The state after a step: field by field, who writes it.
  function Advance(s: State, t: nat, turn: Turn): State {
    var e := turn.effect;
    State(
      tasks := s.tasks[t := turn.pc],
      generating := if e.RaiseFlag? then true else if e.LowerFlag? then false else s.generating,
      cancel := if e.RaiseCancel? then true else if e.ClearCancel? then false else s.cancel,
      version := if e.RaiseCancel? || e.ClearCancel? then s.version + 1 else s.version,
      slot := if e.OpenPrompt? then Some(e.chan) else if e.ClosePrompt? || e.TakeSlot? then None else s.slot,
      prompts := if e.OpenPrompt? then s.prompts + 1 else s.prompts,
      sent := if e.Deliver? || (e.TakeSlot? && e.deliver) then s.sent[e.chan := e.decision] else s.sent,
      pending := if e.ReadPolicy? && e.ask then e.batch.remaining else if e.ApplyDecision? then [] else s.pending,
      cfg := if e.ApplyDecision? then e.cfg else s.cfg,
      nextId := if e.Insert? then e.msg.id + 1 else s.nextId,
      stored := if e.Insert? then s.stored + [e.msg] else s.stored,
      cached := if e.Cache? then s.cached + [e.msg] else s.cached,
      log := s.log + Told(t, e))
  }

  // A new task of any kind may appear, settings may change, and any task may step.
  datatype Action = Spawn(task: nat, pc: Pc) | Configure(cfg: Config) | Step(task: nat, choice: Choice)

  predicate Fresh(pc: Pc) {
    pc.Ready? || pc.Appending? || pc.Submitting? || pc.Cancelling?
  }

  function Next(env: Env, s: State, a: Action): Option<State> {
    match a
    case Spawn(t, pc) => if t in s.tasks || !Fresh(pc) then None else Some(s.(tasks := s.tasks[t := pc]))
    case Configure(cfg) => Some(s.(cfg := cfg))
    case Step(t, c) =>
      if t !in s.tasks then None
      else
        match Move(env, s, s.tasks[t], c)
        case None => None
        case Some(turn) => Some(Advance(s, t, turn))
  }

  predicate Distinct(msgs: seq<Message>) {
    forall i, j :: 0 <= i < j < |msgs| ==> msgs[i].id != msgs[j].id
  }

  // A session as new_with_messages makes it.
  ghost predicate Init(s: State) {
    && s.tasks == map[] && !s.generating && !s.cancel
    && s.slot == None && s.sent == map[] && s.prompts == 0 && s.pending == [] && s.log == []
    && s.cached == s.stored && Distinct(s.stored)
    && (forall m :: m in s.stored ==> m.id < s.nextId)
  }

  // ---------------------------------------------------------------- executions

  // A finite execution: the states it passes through and the actions between them.
  ghost predicate Execution(env: Env, states: seq<State>, actions: seq<Action>) {
    && |states| == |actions| + 1
    && Init(states[0])
    && forall k :: 0 <= k < |actions| ==> Next(env, states[k], actions[k]) == Some(states[k + 1])
  }

  ghost predicate Reachable(env: Env, s: State) {
    exists states, actions :: Execution(env, states, actions) && states[|actions|] == s
  }
}
