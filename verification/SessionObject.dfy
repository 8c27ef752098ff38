// ConversationSession (clareon-core/src/conversation/session.rs) as an object: the fields
// its methods update, and beside them the state of the step system they are the shared
// part of. Between calls that state is a reachable one, so whatever holds of every
// reachable state holds of the object, and its methods rely on it.

module SessionObject {
  import opened Types
  import opened Session
  import opened Approval
  import opened Exclusion
  import opened Outcomes
  import Consistency
  import Prompts
  import Runs

  // The part of the step system's state that the session object holds.
  datatype Shared = Shared(
    messages: seq<Message>, generating: bool, cancelled: bool, cancelVersion: nat,
    approval: Option<nat>, prompts: nat, sent: map<nat, Decision>, pendingTools: seq<Call>,
    history: seq<Message>, nextRow: int)

  function SharedOf(s: State): Shared {
    Shared(s.cached, s.generating, s.cancel, s.version, s.slot, s.prompts, s.sent, s.pending, s.stored, s.nextId)
  }

  // ---------------------------------------------------------------- steps of one task

  lemma OneStep(env: Env, s: State, t: nat, c: Choice, turn: Turn)
    requires t in s.tasks && Move(env, s, s.tasks[t], c) == Some(turn)
    ensures Steps(env, s, t, [c]) == Some(Advance(s, t, turn))
  {
    hide Move, Steps;
    FirstStep(env, s, t, c, [], turn);
    NoSteps(env, Advance(s, t, turn), t);
    assert [c] + [] == [c];
  }

  // Two steps: the second is taken where the first one left the task.
  lemma TwoSteps(env: Env, s: State, t: nat, c: Choice, turn: Turn, c': Choice, turn': Turn)
    requires t in s.tasks && Move(env, s, s.tasks[t], c) == Some(turn)
    requires Move(env, Advance(s, t, turn), turn.pc, c') == Some(turn')
    ensures Steps(env, s, t, [c, c']) == Some(Advance(Advance(s, t, turn), t, turn'))
  {
    hide Move, Steps;
    FirstStep(env, s, t, c, [c'], turn);
    OneStep(env, Advance(s, t, turn), t, c', turn');
    assert [c] + [c'] == [c, c'];
  }

  lemma {:induction false} StepsReach(env: Env, s: State, t: nat, choices: seq<Choice>, s': State)
    requires Reachable(env, s) && Steps(env, s, t, choices) == Some(s')
    ensures Reachable(env, s')
    decreases |choices|
  {
    hide Reachable, Next;
    if choices != [] {
      var s1 := Next(env, s, Step(t, choices[0])).value;
      Runs.ReachNext(env, s, Step(t, choices[0]), s1);
      StepsReach(env, s1, t, choices[1..], s');
    }
  }

  // A call is a task of its own: it appears, and takes these steps.
  ghost predicate Called(env: Env, s: State, t: nat, pc: Pc, choices: seq<Choice>, s': State) {
    t !in s.tasks && Fresh(pc) && Steps(env, s.(tasks := s.tasks[t := pc]), t, choices) == Some(s')
  }

  lemma CallReaches(env: Env, s: State, t: nat, pc: Pc, choices: seq<Choice>, s': State)
    requires Reachable(env, s) && Called(env, s, t, pc, choices, s')
    ensures Reachable(env, s')
  {
    hide Reachable, Steps;
    var s1 := s.(tasks := s.tasks[t := pc]);
    Runs.ReachNext(env, s, Spawn(t, pc), s1);
    StepsReach(env, s1, t, choices, s');
  }

  ghost function NewTask(tasks: map<nat, Pc>): (t: nat)
    ensures t !in tasks
  {
    Above(tasks.Keys)
  }

  ghost function Above(ts: set<nat>): (t: nat)
    ensures forall u :: u in ts ==> u < t
  {
    if ts == {} then 0
    else
      var u :| u in ts;
      var t := Above(ts - {u});
      assert forall v :: v in ts ==> v == u || v in ts - {u};
      if u < t then t else u + 1
  }

  // ---------------------------------------------------------------- what a session knows

  // What holds between calls: an open prompt is unanswered, ids are distinct, the cache
  // holds stored messages only, and the flag says whether a task is in the run.
  ghost predicate Sound(s: Shared, running: bool) {
    && (s.approval.Some? ==> s.approval.value < s.prompts && s.approval.value !in s.sent)
    && Distinct(s.history) && (forall m :: m in s.history ==> m.id < s.nextRow)
    && Distinct(s.messages) && (forall m :: m in s.messages ==> m in s.history)
    && s.generating == running
  }

  ghost predicate Running(s: State) { exists t :: t in s.tasks && InRun(s.tasks[t]) }

  lemma ReachableIsSound(env: Env, s: State)
    requires Reachable(env, s)
    ensures Sound(SharedOf(s), Running(s))
    ensures forall t, u :: t in s.tasks && u in s.tasks && InRun(s.tasks[t]) && InRun(s.tasks[u]) ==> t == u
  {
    hide Reachable, Runs.Safe, Prompts.PromptInv, InRun;
    Runs.ReachableIsSafe(env, s);
    SafeParts(env, s);
    if s.slot.Some? { Prompts.ChannelKnown(s, s.slot.value); }
  }

  lemma SafeParts(env: Env, s: State)
    requires Runs.Safe(env, s)
    ensures Exclusive(s) && Prompts.PromptInv(s) && Consistency.Filed(s)
  {}

  // A prompt about to open has a channel nobody has ever used, and the slot is empty.
  lemma NextChannelIsNew(env: Env, s: State, t: nat)
    requires Reachable(env, s) && t in s.tasks && s.tasks[t].Announcing?
    ensures Prompts.ChannelOf(s.log, s.prompts).Unopened? && s.prompts !in s.sent && s.slot.None?
  {
    hide Reachable, Runs.Safe, Prompts.PromptInv, Exclusive, Prompts.ChannelOf;
    Runs.ReachableIsSafe(env, s);
    SafeParts(env, s);
    Prompts.ChannelKnown(s, s.prompts);
    if s.slot.Some? { Prompts.OpenIsOwn(s, t, s.slot.value); }
  }

  // A decided prompt is the only one that can still be in the slot.
  lemma SlotIsOwn(env: Env, s: State, t: nat)
    requires Reachable(env, s) && t in s.tasks && s.tasks[t].Resolved?
    ensures s.slot.Some? ==> s.slot.value == s.tasks[t].chan
  {
    hide Reachable, Runs.Safe, Prompts.PromptInv, Exclusive;
    Runs.ReachableIsSafe(env, s);
    SafeParts(env, s);
    if s.slot.Some? { Prompts.OpenIsOwn(s, t, s.slot.value); }
  }

  // ---------------------------------------------------------------- the methods' steps

  lemma CancelMoves(env: Env, s: State, ch: nat)
    ensures Move(env, s, Cancelling, Go) == Some(Turn(CancellingPrompt, RaiseCancel))
    ensures Move(env, s, CancellingPrompt, Busy) == Some(Turn(CancelSent, Nothing))
    ensures s.slot.None? ==> Move(env, s, CancellingPrompt, Go) == Some(Turn(CancelSent, Nothing))
    ensures s.slot == Some(ch) ==>
      Move(env, s, CancellingPrompt, Go) == Some(Turn(CancelSent, TakeSlot(ch, Decision.Cancelled, true)))
  {}

  lemma CancelSteps(env: Env, s: State, t: nat, lockFree: bool) returns (s': State)
    requires t in s.tasks && s.tasks[t] == Cancelling
    ensures Steps(env, s, t, [Go, if lockFree then Go else Busy]) == Some(s')
    ensures SharedOf(s') ==
      SharedOf(s).(cancelled := true, cancelVersion := s.version + 1,
                   approval := if lockFree then None else s.slot,
                   sent := if lockFree && s.slot.Some? then s.sent[s.slot.value := Decision.Cancelled] else s.sent)
  {
    hide Move, Steps, Told;
    var raise := Turn(CancellingPrompt, RaiseCancel);
    var ch := if s.slot.Some? then s.slot.value else 0;
    var effect := if lockFree && s.slot.Some? then TakeSlot(ch, Decision.Cancelled, true) else Nothing;
    var turn := Turn(CancelSent, effect);
    CancelMoves(env, s, ch);
    CancelMoves(env, Advance(s, t, raise), ch);
    TwoSteps(env, s, t, Go, raise, if lockFree then Go else Busy, turn);
    s' := Advance(Advance(s, t, raise), t, turn);
  }

  lemma SubmitMoves(env: Env, s: State, ch: nat, decision: Decision)
    ensures s.slot.None? ==> Move(env, s, Submitting(decision), Go) == Some(Turn(Submitted, Nothing))
    ensures s.slot == Some(ch) ==>
      Move(env, s, Submitting(decision), Go) == Some(Turn(Sending(ch, decision), TakeSlot(ch, decision, false)))
    ensures Move(env, s, Sending(ch, decision), Go) == Some(Turn(Submitted, Deliver(ch, decision)))
  {}

  lemma SubmitSteps(env: Env, s: State, t: nat, decision: Decision) returns (s': State)
    requires t in s.tasks && s.tasks[t] == Submitting(decision)
    ensures Steps(env, s, t, if s.slot.None? then [Go] else [Go, Go]) == Some(s')
    ensures SharedOf(s') == if s.slot.None? then SharedOf(s)
                            else SharedOf(s).(approval := None, sent := s.sent[s.slot.value := decision])
  {
    hide Move, Steps, Told;
    if s.slot.None? {
      SubmitMoves(env, s, 0, decision);
      OneStep(env, s, t, Go, Turn(Submitted, Nothing));
      s' := Advance(s, t, Turn(Submitted, Nothing));
    } else {
      var ch := s.slot.value;
      var take := Turn(Sending(ch, decision), TakeSlot(ch, decision, false));
      var deliver := Turn(Submitted, Deliver(ch, decision));
      SubmitMoves(env, s, ch, decision);
      SubmitMoves(env, Advance(s, t, take), ch, decision);
      TwoSteps(env, s, t, Go, take, Go, deliver);
      s' := Advance(Advance(s, t, take), t, deliver);
    }
  }

  // Storing a message and pushing it into the cache.
  lemma StoreSteps(env: Env, s: State, t: nat, c: Choice, m: Message, resume: Resume) returns (s': State)
    requires t in s.tasks && Move(env, s, s.tasks[t], c) == Some(Turn(Pushing(m, resume), Insert(m)))
    ensures Steps(env, s, t, [c, Go]) == Some(s')
    ensures SharedOf(s') == SharedOf(s).(messages := s.cached + [m], history := s.stored + [m], nextRow := m.id + 1)
  {
    hide Move, Steps, Told;
    var store, push := Turn(Pushing(m, resume), Insert(m)), Turn(Resumed(resume), Cache(m));
    PushMove(env, Advance(s, t, store), m, resume);
    TwoSteps(env, s, t, c, store, Go, push);
    s' := Advance(Advance(s, t, store), t, push);
  }

  // The row is in, and the second statement of the write fails.
  lemma TornSteps(env: Env, s: State, t: nat, c: Choice, m: Message, resume: Resume) returns (s': State)
    requires t in s.tasks && Move(env, s, s.tasks[t], c) == Some(Turn(Pushing(m, resume), Insert(m)))
    ensures Steps(env, s, t, [c, Fail]) == Some(s')
    ensures SharedOf(s') == SharedOf(s).(history := s.stored + [m], nextRow := m.id + 1)
  {
    hide Move, Steps, Told;
    var store, tear := Turn(Pushing(m, resume), Insert(m)), Turn(Abandoned(resume), Tear(m));
    TearMove(env, Advance(s, t, store), m, resume);
    TwoSteps(env, s, t, c, store, Fail, tear);
    s' := Advance(Advance(s, t, store), t, tear);
  }

  lemma TearMove(env: Env, s: State, m: Message, resume: Resume)
    ensures Move(env, s, Pushing(m, resume), Fail) == Some(Turn(Abandoned(resume), Tear(m)))
  {}

  // What became of a write: the row that was inserted, if any, and whether the caller was
  // told of success.
  datatype Write = Whole(row: int) | Refused | TornAt(row: int)

  // The choices of the environment such a write stands for.
  function WriteChoices(w: Write, now: int): seq<Choice> {
    match w
    case Whole(row) => [Row(row, now), Go]
    case Refused => [Fail]
    case TornAt(row) => [Row(row, now), Fail]
  }

  predicate NewRow(w: Write, nextRow: int) { w.Refused? || nextRow <= w.row }

  lemma WriteSteps(env: Env, s: State, t: nat, w: Write, now: int, m: Message, resume: Resume, failed: Pc)
    returns (s': State)
    requires t in s.tasks && NewRow(w, s.nextId)
    requires w.Refused? ==> Move(env, s, s.tasks[t], Fail) == Some(Turn(failed, Nothing))
    requires !w.Refused? ==>
      Move(env, s, s.tasks[t], Row(w.row, now)) == Some(Turn(Pushing(m, resume), Insert(m))) && m.id == w.row
    ensures Steps(env, s, t, WriteChoices(w, now)) == Some(s')
    ensures SharedOf(s') == match w
                            case Refused => SharedOf(s)
                            case TornAt(row) => SharedOf(s).(history := s.stored + [m], nextRow := row + 1)
                            case Whole(row) =>
                              SharedOf(s).(messages := s.cached + [m], history := s.stored + [m], nextRow := row + 1)
  {
    hide Move, Steps;
    match w {
      case Refused =>
        OneStep(env, s, t, Fail, Turn(failed, Nothing));
        s' := Advance(s, t, Turn(failed, Nothing));
      case TornAt(row) => s' := TornSteps(env, s, t, Row(row, now), m, resume);
      case Whole(row) => s' := StoreSteps(env, s, t, Row(row, now), m, resume);
    }
  }

  lemma BeginMoves(env: Env, s: State)
    ensures Move(env, s, Ready, Go) == Some(if s.generating then Turn(Lost, Nothing) else Turn(Entered, RaiseFlag))
    ensures Move(env, s, Entered, Go) == Some(Turn(LoopTop(0), ClearCancel))
  {}

  lemma BeginSteps(env: Env, s: State, t: nat) returns (s': State)
    requires t in s.tasks && s.tasks[t] == Ready
    ensures Steps(env, s, t, if s.generating then [Go] else [Go, Go]) == Some(s')
    ensures SharedOf(s') == if s.generating then SharedOf(s)
                            else SharedOf(s).(generating := true, cancelled := false, cancelVersion := s.version + 1)
    ensures t in s'.tasks && s'.tasks[t] == if s.generating then Lost else LoopTop(0)
  {
    hide Move, Steps, Told;
    BeginMoves(env, s);
    if s.generating {
      OneStep(env, s, t, Go, Turn(Lost, Nothing));
      s' := Advance(s, t, Turn(Lost, Nothing));
    } else {
      var enter, reset := Turn(Entered, RaiseFlag), Turn(LoopTop(0), ClearCancel);
      BeginMoves(env, Advance(s, t, enter));
      TwoSteps(env, s, t, Go, enter, Go, reset);
      s' := Advance(Advance(s, t, enter), t, reset);
    }
  }

  lemma AppendMoves(env: Env, s: State, content: seq<ContentBlock>, id: int, now: int)
    ensures Move(env, s, Appending(content), Fail) == Some(Turn(Appended, Nothing))
    ensures s.nextId <= id ==>
      var m := Session.UserMessage(id, now, content);
      Move(env, s, Appending(content), Row(id, now)) == Some(Turn(Pushing(m, AfterAppend), Insert(m)))
  {
    hide TextContent;
  }

  lemma AnswerMoves(env: Env, s: State, i: nat, rs: seq<ContentBlock>, after: After, id: int, now: int)
    ensures rs == [] && after == Close ==>
      Move(env, s, Answering(i, rs, after), Go) == Some(Turn(Closing(Stopped), Nothing))
    ensures !(rs == [] && after == Close) ==>
      Move(env, s, Answering(i, rs, after), Fail) == Some(Turn(Closing(Failed), Nothing))
    ensures s.nextId <= id && !(rs == [] && after == Close) ==>
      var m, resume := ResultsMessage(id, now, rs), (if after == Loop then NextRound(i) else Leaving(Stopped));
      Move(env, s, Answering(i, rs, after), Row(id, now)) == Some(Turn(Pushing(m, resume), Insert(m)))
  {}

  // All the ways storing results can go.
  lemma AnswerSteps(env: Env, s: State, t: nat, write: Write, now: int, m: Message) returns (s': State)
    requires t in s.tasks && s.tasks[t].Answering? && NewRow(write, s.nextId)
    requires m == ResultsMessage(if write.Refused? then 0 else write.row, now, s.tasks[t].results)
    ensures var nothing := s.tasks[t].results == [] && s.tasks[t].after == Close;
      && Steps(env, s, t, if nothing then [Go] else WriteChoices(write, now)) == Some(s')
      && SharedOf(s') ==
         if nothing || write.Refused? then SharedOf(s)
         else SharedOf(s).(history := s.stored + [m], nextRow := write.row + 1,
                           messages := if write.Whole? then s.cached + [m] else s.cached)
  {
    hide Steps, Move, WriteChoices, Told;
    var Answering(i, results, after) := s.tasks[t];
    AnswerMoves(env, s, i, results, after, m.id, now);
    if results == [] && after == Close {
      var turn := Turn(Closing(Stopped), Nothing);
      OneStep(env, s, t, Go, turn);
      s' := Advance(s, t, turn);
    } else {
      var resume := if after == Loop then NextRound(i) else Leaving(Stopped);
      s' := WriteSteps(env, s, t, write, now, m, resume, Closing(Failed));
    }
  }

  lemma PromptMoves(env: Env, s: State, i: nat, b: Batch, ch: nat, d: Decision)
    ensures Move(env, s, Announcing(i, b), Go)
         == Some(Turn(Prompting(i, b, s.prompts, Subscribing), Session.OpenPrompt(s.prompts)))
    ensures Move(env, s, Resolved(i, b, ch, d), Go) == Some(Turn(Applying(i, b, d), Session.ClosePrompt(ch, d)))
  {}

  // ---------------------------------------------------------------- the object

  class ConversationSession {
    var messages: seq<Message>
    var generating: bool
    var cancelled: bool
    var cancelVersion: nat
    var approval: Option<nat>
    var prompts: nat
    var sent: map<nat, Decision>
    var pendingTools: seq<Call>
    var history: seq<Message>
    var nextRow: int
    ghost const env: Env
    ghost var model: State

    ghost function View(): Shared reads this {
      Shared(messages, generating, cancelled, cancelVersion, approval, prompts, sent, pendingTools, history, nextRow)
    }

    ghost predicate Valid() reads this { Reachable(env, model) && View() == SharedOf(model) }

    // A session over a loaded history starts the step system in an initial state.
    constructor (ghost env: Env, ghost cfg: Config, loaded: seq<Message>, firstRow: int)
      requires Distinct(loaded) && forall m :: m in loaded ==> m.id < firstRow
      ensures Valid() && this.env == env
      ensures Init(model) && model.cfg == cfg && model.stored == loaded
      ensures Sound(View(), false)
    {
      messages, history, nextRow := loaded, loaded, firstRow;
      generating, cancelled, cancelVersion := false, false, 0;
      approval, prompts, sent, pendingTools := None, 0, map[], [];
      this.env := env;
      model := State(map[], false, false, 0, None, 0, map[], [], cfg, firstRow, loaded, loaded, []);
      new;
      assert Execution(env, [model], []);
    }

    // What every method may rely on, and keeps.
    lemma ValidIsSound()
      requires Valid()
      ensures Sound(View(), Running(model))
    {
      ReachableIsSound(env, model);
    }

    // cancel: raise the flag, then, unless the slot's lock is taken, answer an open
    // prompt. An answer that was sent before stays.
    method Cancel(lockFree: bool) returns (ghost t: nat)
      requires Valid()
      modifies this`cancelled, this`cancelVersion, this`approval, this`sent, this`model
      ensures Valid() && Called(env, old(model), t, Cancelling, [Go, if lockFree then Go else Busy], model)
      ensures cancelled && cancelVersion == old(cancelVersion) + 1
      ensures forall ch :: ch in old(sent) ==> ch in sent && sent[ch] == old(sent)[ch]
      ensures forall ch :: ch in sent && ch !in old(sent) ==>
        old(approval) == Some(ch) && sent[ch] == Decision.Cancelled
      ensures lockFree ==> approval.None? && (old(approval).Some? ==> old(approval).value in sent)
      ensures !lockFree ==> approval == old(approval) && sent == old(sent)
    {
      hide Reachable, Steps;
      ValidIsSound();
      t := NewTask(model.tasks);
      ghost var s' := CancelSteps(env, model.(tasks := model.tasks[t := Cancelling]), t, lockFree);
      CallReaches(env, model, t, Cancelling, [Go, if lockFree then Go else Busy], s');
      model := s';
      cancelled, cancelVersion := true, cancelVersion + 1;
      if lockFree && approval.Some? {
        sent := sent[approval.value := Decision.Cancelled];
        approval := None;
      }
    }

    // submit_tool_approval: takes the open prompt, if any, and answers it; no earlier
    // answer is touched.
    method SubmitToolApproval(decision: Decision) returns (ghost t: nat)
      requires Valid()
      modifies this`approval, this`sent, this`model
      ensures Valid()
      ensures Called(env, old(model), t, Submitting(decision), if old(approval).None? then [Go] else [Go, Go], model)
      ensures approval.None?
      ensures forall ch :: ch in old(sent) ==> ch in sent && sent[ch] == old(sent)[ch]
      ensures forall ch :: ch in sent && ch !in old(sent) <==> old(approval) == Some(ch)
      ensures old(approval).Some? ==> sent[old(approval).value] == decision
    {
      hide Reachable, Steps;
      ValidIsSound();
      t := NewTask(model.tasks);
      ghost var s' := SubmitSteps(env, model.(tasks := model.tasks[t := Submitting(decision)]), t, decision);
      CallReaches(env, model, t, Submitting(decision), if approval.None? then [Go] else [Go, Go], s');
      model := s';
      if approval.Some? {
        sent := sent[approval.value := decision];
        approval := None;
      }
    }

    // append_user_message_with_content: stored first, then pushed into the cache under the
    // row's id, which is new to both. An error leaves the cache alone, and storage too
    // unless it came after the insert.
    method AppendUserMessage(content: seq<ContentBlock>, write: Write, now: int)
      returns (stored: Option<Message>, ghost t: nat)
      requires Valid() && NewRow(write, nextRow)
      modifies this`messages, this`history, this`nextRow, this`model
      ensures Valid() && Called(env, old(model), t, Appending(content), WriteChoices(write, now), model)
      ensures stored.Some? <==> write.Whole?
      ensures messages == old(messages) + (if stored.Some? then [stored.value] else [])
      ensures write.Refused? ==> View() == old(View())
      ensures !write.Refused? ==>
        && history == old(history) + [Session.UserMessage(write.row, now, content)]
        && forall m :: m in old(history) ==> m.id != write.row
      ensures stored.Some? ==> stored.value == Session.UserMessage(write.row, now, content)
    {
      hide Reachable, Steps, Move;
      ValidIsSound();
      t := NewTask(model.tasks);
      ghost var s := model.(tasks := model.tasks[t := Appending(content)]);
      var m := Session.UserMessage(if write.Refused? then 0 else write.row, now, content);
      AppendMoves(env, s, content, m.id, now);
      ghost var s' := WriteSteps(env, s, t, write, now, m, AfterAppend, Appended);
      CallReaches(env, model, t, Appending(content), WriteChoices(write, now), s');
      model := s';
      stored := None;
      if !write.Refused? { history, nextRow := history + [m], write.row + 1; }
      if write.Whole? {
        messages := messages + [m];
        stored := Some(m);
      }
    }

    // The head of send_message_stream: swap the flag, and reset only as its winner. The
    // winner is alone in the run.
    method BeginGeneration() returns (won: bool, ghost t: nat)
      requires Valid()
      modifies this`generating, this`cancelled, this`cancelVersion, this`model
      ensures Valid() && Called(env, old(model), t, Ready, if won then [Go, Go] else [Go], model)
      ensures won <==> !Running(old(model))
      ensures generating && forall u :: u in model.tasks && won && InRun(model.tasks[u]) ==> u == t
      ensures t in model.tasks && (won <==> InRun(model.tasks[t]))
      ensures cancelled == (!won && old(cancelled))
    {
      hide Reachable, Steps;
      ValidIsSound();
      t := NewTask(model.tasks);
      ghost var s' := BeginSteps(env, model.(tasks := model.tasks[t := Ready]), t);
      CallReaches(env, model, t, Ready, if generating then [Go] else [Go, Go], s');
      ReachableIsSound(env, s');
      model := s';
      won := !generating;
      generating := true;
      if won { cancelled, cancelVersion := false, cancelVersion + 1; }
    }

    // wait_for_approval, before the select: a channel nobody has used before, in a slot
    // that was empty.
    method OpenPrompt(ghost t: nat) returns (chan: nat)
      requires Valid() && t in model.tasks && model.tasks[t].Announcing?
      modifies this`approval, this`prompts, this`model
      ensures Valid() && Steps(env, old(model), t, [Go]) == Some(model)
      ensures old(approval).None? && approval == Some(chan)
      ensures Prompts.ChannelOf(old(model).log, chan).Unopened? && chan !in sent
    {
      hide Reachable, Steps, Move, Prompts.ChannelOf;
      NextChannelIsNew(env, model, t);
      ghost var Announcing(i, b) := model.tasks[t];
      ghost var turn := Turn(Prompting(i, b, prompts, Subscribing), Session.OpenPrompt(prompts));
      PromptMoves(env, model, i, b, 0, Deny);
      OneStep(env, model, t, Go, turn);
      StepsReach(env, model, t, [Go], Advance(model, t, turn));
      model := Advance(model, t, turn);
      chan := prompts;
      approval, prompts := Some(chan), prompts + 1;
    }

    // wait_for_approval, after the select: what is cleared is this prompt's own channel
    // or nothing, never another prompt.
    method ClosePrompt(ghost t: nat)
      requires Valid() && t in model.tasks && model.tasks[t].Resolved?
      modifies this`approval, this`model
      ensures Valid() && Steps(env, old(model), t, [Go]) == Some(model)
      ensures approval.None? && (old(approval).Some? ==> old(approval).value == old(model).tasks[t].chan)
    {
      hide Reachable, Steps, Move;
      SlotIsOwn(env, model, t);
      ghost var Resolved(i, b, ch, d) := model.tasks[t];
      ghost var turn := Turn(Applying(i, b, d), Session.ClosePrompt(ch, d));
      PromptMoves(env, model, i, b, ch, d);
      OneStep(env, model, t, Go, turn);
      StepsReach(env, model, t, [Go], Advance(model, t, turn));
      model := Advance(model, t, turn);
      approval := None;
    }

    // store_tool_results and its copies on the other paths: an empty list is not stored
    // where the run stops. The run goes on, or stops, only with the results in the cache.
    method StoreToolResults(write: Write, now: int, results: seq<ContentBlock>, after: After, ghost t: nat)
      returns (ok: bool)
      requires Valid() && t in model.tasks && model.tasks[t].Answering?
      requires model.tasks[t].results == results && model.tasks[t].after == after
      requires NewRow(write, nextRow)
      modifies this`messages, this`history, this`nextRow, this`model
      ensures Valid()
      ensures var nothing := results == [] && after == Close;
        && Steps(env, old(model), t, if nothing then [Go] else WriteChoices(write, now)) == Some(model)
        && ok == (nothing || write.Whole?)
        && (nothing || write.Refused? ==> View() == old(View()))
        && (!nothing && !write.Refused? ==>
              && history == old(history) + [ResultsMessage(write.row, now, results)]
              && (forall m :: m in old(history) ==> m.id != write.row)
              && messages == old(messages) + (if ok then [ResultsMessage(write.row, now, results)] else []))
    {
      hide Reachable, Steps, WriteChoices;
      ValidIsSound();
      var m := ResultsMessage(if write.Refused? then 0 else write.row, now, results);
      ghost var s' := AnswerSteps(env, model, t, write, now, m);
      StepsReach(env, model, t, if results == [] && after == Close then [Go] else WriteChoices(write, now), s');
      model := s';
      if results == [] && after == Close { return true; }
      if !write.Refused? { history, nextRow := history + [m], write.row + 1; }
      if write.Whole? { messages := messages + [m]; }
      return write.Whole?;
    }
  }

  // An answer stands: a stop right after it comes too late for the prompt.
  method AnswerThenStop(session: ConversationSession, decision: Decision)
    requires session.Valid() && session.approval.Some?
    modifies session
    ensures session.Valid() && session.cancelled
    ensures session.sent == old(session.sent)[old(session.approval).value := decision]
  {
    var _ := session.SubmitToolApproval(decision);
    var _ := session.Cancel(true);
  }
}
