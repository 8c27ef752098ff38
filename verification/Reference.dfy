// ConversationManager::send_message_stream (clareon-core/src/conversation/manager.rs):
// the same loop without a cache. It reads the history back from storage in every round.

module Reference {
  import opened Types
  import opened Session
  import A = Accumulator

  // ---------------------------------------------------------------- get_messages

  predicate Ordered(msgs: seq<Message>) {
    forall i, j :: 0 <= i < j < |msgs| ==> msgs[i].createdAt <= msgs[j].createdAt
  }

  function InsertByTime(sorted: seq<Message>, m: Message): seq<Message> {
    if sorted == [] || sorted[|sorted| - 1].createdAt <= m.createdAt then sorted + [m]
    else InsertByTime(sorted[..|sorted| - 1], m) + [sorted[|sorted| - 1]]
  }

  // ORDER BY created_at ASC, rows of one second in insertion order.
  function GetMessages(stored: seq<Message>): seq<Message> {
    if stored == [] then []
    else InsertByTime(GetMessages(stored[..|stored| - 1]), stored[|stored| - 1])
  }

  lemma {:induction false} InsertContents(sorted: seq<Message>, m: Message)
    ensures multiset(InsertByTime(sorted, m)) == multiset(sorted) + multiset{m}
  {
    if sorted != [] {
      var front, last := sorted[..|sorted| - 1], sorted[|sorted| - 1];
      assert sorted == front + [last];
      InsertContents(front, m);
    }
  }

  predicate AtMost(msgs: seq<Message>, time: int) { forall k :: 0 <= k < |msgs| ==> msgs[k].createdAt <= time }

  lemma OrderedPush(msgs: seq<Message>, m: Message)
    ensures Ordered(msgs + [m]) <==> Ordered(msgs) && AtMost(msgs, m.createdAt)
  {
    if Ordered(msgs + [m]) {
      forall k | 0 <= k < |msgs| ensures msgs[k].createdAt <= m.createdAt {
        assert (msgs + [m])[k].createdAt <= (msgs + [m])[|msgs|].createdAt;
      }
      forall i, j | 0 <= i < j < |msgs| ensures msgs[i].createdAt <= msgs[j].createdAt {
        assert (msgs + [m])[i].createdAt <= (msgs + [m])[j].createdAt;
      }
    }
  }

  lemma {:induction false} InsertOrdered(sorted: seq<Message>, m: Message, time: int)
    requires Ordered(sorted)
    ensures Ordered(InsertByTime(sorted, m))
    ensures AtMost(sorted, time) && m.createdAt <= time ==> AtMost(InsertByTime(sorted, m), time)
  {
    hide Ordered;
    if sorted == [] {
      OrderedPush(sorted, m);
    } else {
      var front, last := sorted[..|sorted| - 1], sorted[|sorted| - 1];
      assert sorted == front + [last];
      OrderedPush(front, last);
      if last.createdAt <= m.createdAt {
        OrderedPush(sorted, m);
      } else {
        InsertOrdered(front, m, time);
        InsertOrdered(front, m, last.createdAt);
        OrderedPush(InsertByTime(front, m), last);
      }
    }
  }

  function OfTime(msgs: seq<Message>, time: int): seq<Message> {
    if msgs == [] then []
    else
      var n := |msgs| - 1;
      OfTime(msgs[..n], time) + (if msgs[n].createdAt == time then [msgs[n]] else [])
  }

  lemma OfTimePush(msgs: seq<Message>, m: Message, time: int)
    ensures OfTime(msgs + [m], time) == OfTime(msgs, time) + (if m.createdAt == time then [m] else [])
  {
    assert (msgs + [m])[..|msgs|] == msgs;
  }

  lemma {:induction false} NoneOfTime(msgs: seq<Message>, time: int)
    requires forall m :: m in msgs ==> m.createdAt != time
    ensures OfTime(msgs, time) == []
  {
    if msgs != [] { NoneOfTime(msgs[..|msgs| - 1], time); }
  }

  lemma {:induction false} InsertStable(sorted: seq<Message>, m: Message, time: int)
    requires Ordered(sorted)
    ensures OfTime(InsertByTime(sorted, m), time) == OfTime(sorted + [m], time)
  {
    hide OfTime;
    var n := |sorted| - 1;
    if sorted == [] || sorted[n].createdAt <= m.createdAt {
    } else {
      var front, last := sorted[..n], sorted[n];
      assert sorted == front + [last];
      InsertStable(front, m, time);
      OfTimePush(InsertByTime(front, m), last, time);
      OfTimePush(front, m, time);
      OfTimePush(front, last, time);
      OfTimePush(sorted, m, time);
      // The two have different times, so at most one of them is picked.
      var o := OfTime(front, time);
      assert o + [] == o && (o + [m]) + [] == o + [m] && (o + [last]) + [] == o + [last];
    }
  }

  // What a read returns: the stored messages, by time, and in insertion order within one
  // second.
  lemma {:induction false} GetMessagesIsStableSort(stored: seq<Message>, time: int)
    ensures multiset(GetMessages(stored)) == multiset(stored)
    ensures Ordered(GetMessages(stored))
    ensures OfTime(GetMessages(stored), time) == OfTime(stored, time)
  {
    hide Ordered, OfTime, InsertByTime;
    if stored == [] {
      EmptyIsSorted(time);
    } else {
      var front, last := stored[..|stored| - 1], stored[|stored| - 1];
      GetMessagesIsStableSort(front, time);
      InsertOrdered(GetMessages(front), last, 0);
      InsertContents(GetMessages(front), last);
      InsertStable(GetMessages(front), last, time);
      OfTimePush(GetMessages(front), last, time);
      OfTimePush(front, last, time);
      assert stored == front + [last];
    }
  }

  lemma EmptyIsSorted(time: int)
    ensures Ordered([]) && OfTime(GetMessages([]), time) == OfTime([], time)
  {}

  // A read returns the insertion order exactly when the stamps never decrease in it.
  lemma {:induction false} ReadsInsertionOrder(stored: seq<Message>)
    ensures GetMessages(stored) == stored <==> Ordered(stored)
  {
    GetMessagesIsStableSort(stored, 0);
    if Ordered(stored) { OrderedIsFixed(stored); }
  }

  lemma {:induction false} OrderedIsFixed(stored: seq<Message>)
    requires Ordered(stored)
    ensures GetMessages(stored) == stored
  {
    hide Ordered;
    if stored != [] {
      var front, last := stored[..|stored| - 1], stored[|stored| - 1];
      assert stored == front + [last];
      OrderedPush(front, last);
      OrderedIsFixed(front);
    }
  }

  // A clock set back one second between two messages: the read swaps them.
  lemma ClockSetBack(first: Message, second: Message)
    requires second.createdAt == first.createdAt - 1
    ensures GetMessages([first, second]) == [second, first] != [first, second]
  {
    assert [first, second][..1] == [first] && [first][..0] == [];
    assert GetMessages([first]) == [first] && [first, second][0] == first;
    assert InsertByTime([first], second) == InsertByTime([], second) + [first] == [second] + [first];
    assert [second, first][0] == second;
  }

  // ---------------------------------------------------------------- the loop

  datatype Point =
    | Top(iter: nat)
    | Fetching(iter: nat)
    | Asking(iter: nat, msgs: seq<Message>)
    | Awaiting(iter: nat)
    | Receiving(iter: nat, acc: A.Acc)
    | Saving(iter: nat, acc: A.Acc)
    | Updating(iter: nat, reply: Option<A.Acc>)
    | Saved(iter: nat, acc: A.Acc)
    | Calling(iter: nat, calls: seq<Call>, started: bool)
    | Failing(iter: nat, error: string)
    | Recording(iter: nat, results: seq<ContentBlock>)
    | Finishing(iter: nat)
    | Finished(outcome: Outcome)

  datatype LoopState = LoopState(
    at: Point,
    stored: seq<Message>,
    nextId: int,
    requests: seq<seq<Message>>,
    executions: seq<seq<Call>>)

  // Where the loop goes once the second statement of a write has succeeded too.
  function Updated(iter: nat, reply: Option<A.Acc>): Point {
    if reply.Some? then Saved(iter, reply.value) else Top(iter)
  }

  datatype Stride = Stride(at: Point, effect: Effect)

  function Onto(p: Point): Option<Stride> { Some(Stride(p, Nothing)) }

  function Add(nextId: int, m: Message, p: Point): Option<Stride> {
    if m.id < nextId then None else Some(Stride(p, Insert(m)))
  }

  function StrideFrom(env: Env, stored: seq<Message>, nextId: int, p: Point, c: Choice): Option<Stride> {
    match p
    case Top(i) =>
      if c != Go then None
      else if i + 1 > MAX_TOOL_ITERATIONS then Onto(Finished(Failed)) else Onto(Fetching(i + 1))
    case Fetching(i) =>
      if c == Go then Onto(Asking(i, GetMessages(stored)))
      else if c == Fail then Onto(Finished(Failed))
      else None
    case Asking(i, msgs) => if c != Go then None else Some(Stride(Awaiting(i), SendRequest(msgs)))
    case Awaiting(i) =>
      if c == Go then Onto(Receiving(i, A.EMPTY)) else if c == Fail then Onto(Finished(Failed)) else None
    case Receiving(i, acc) =>
      if c.Event? then Onto(Receiving(i, A.Apply(env.parse, acc, c.ev)))
      else if c == StreamEnd then Onto(Saving(i, acc))
      else if c == Fail then Onto(Finished(Failed))
      else None
    case Saving(i, acc) =>
      if c.Row? then Add(nextId, AssistantMessage(c.id, c.now, acc), Updating(i, Some(acc)))
      else if c == Fail then Onto(Finished(Failed))
      else None
    case Updating(i, reply) =>
      if c == Go then Onto(Updated(i, reply)) else if c == Fail then Onto(Finished(Failed)) else None
    case Saved(i, acc) =>
      if c != Go then None
      else
        var calls := CallsOf(acc.blocks);
        if acc.stop != Some(ToolUseStop) || calls == [] then Onto(Finishing(i))
        else if !env.hasExecutor then Onto(Finished(Failed))
        else Onto(Calling(i, calls, false))
    case Calling(i, calls, started) =>
      if !started then (if c == Go then Some(Stride(Calling(i, calls, true), StartTools(calls))) else None)
      else if c.Results? && Answers(c.results, calls) then Onto(Recording(i, Joined(c.results)))
      else if c.ToolsFail? then Onto(Failing(i, c.error))
      else None
    case Failing(i, error) =>
      if c.Row? then Add(nextId, ToolErrorMessage(c.id, c.now, error), Updating(i, None))
      else if c == Fail then Onto(Finished(Failed))
      else None
    case Recording(i, rs) =>
      if c.Row? then Add(nextId, ResultsMessage(c.id, c.now, rs), Updating(i, None))
      else if c == Fail then Onto(Finished(Failed))
      else None
    case Finishing(i) =>
      if c == Go then Onto(Finished(Completed)) else if c == Fail then Onto(Finished(Failed)) else None
    case Finished(_) => None
  }

  function Stepped(m: LoopState, st: Stride): LoopState {
    var e := st.effect;
    LoopState(
      at := st.at,
      stored := if e.Insert? then m.stored + [e.msg] else m.stored,
      nextId := if e.Insert? then e.msg.id + 1 else m.nextId,
      requests := if e.SendRequest? then m.requests + [e.msgs] else m.requests,
      executions := if e.StartTools? then m.executions + [e.calls] else m.executions)
  }

  function Forward(env: Env, m: LoopState, c: Choice): Option<LoopState> {
    match StrideFrom(env, m.stored, m.nextId, m.at, c)
    case None => None
    case Some(st) => Some(Stepped(m, st))
  }

  // The loop fed with a list of answers from its environment.
  function Drive(env: Env, m: LoopState, choices: seq<Choice>): Option<LoopState> {
    if choices == [] then Some(m)
    else
      match Drive(env, m, choices[..|choices| - 1])
      case None => None
      case Some(m') => Forward(env, m', choices[|choices| - 1])
  }
}
