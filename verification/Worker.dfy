// The worker's streaming task (run_streaming_task in clareon/src/service/worker.rs): from
// the session's updates to the responses the message list lives on.

module Worker {
  import opened Types
  import opened MessageList

  datatype ToolStatus = NoStatus | PendingApproval(toolsJson: string) | OtherStatus

  datatype Update = Update(event: StreamEvent, status: ToolStatus, cancelled: bool)

  datatype Item = Ok(update: Update) | Err(error: string)

  // What the task finds when its stream is over.
  datatype Ending = Ending(
    messages: seq<MessageData>, sessionCancelled: bool, startedAt: int)

  predicate StoredEnding(e: Ending) { forall d :: d in e.messages ==> Stored(d) }

  function TextDeltaOf(u: Update): Option<string> {
    if u.event.BlockDelta? && u.event.delta.TextDelta? then Some(u.event.delta.text) else None
  }

  function ApprovalOf(u: Update): seq<Response> {
    match u.status
    case NoStatus => []
    case PendingApproval(json) => [ToolApprovalRequired(json)]
    case OtherStatus => [ToolApprovalRequired("[]")]
  }

  predicate IsReply(d: MessageData, startedAt: int) { d.role == "assistant" && d.createdAt >= startedAt }

  predicate IsLastReply(messages: seq<MessageData>, p: nat, startedAt: int)
    requires p < |messages|
  {
    IsReply(messages[p], startedAt) && forall q :: p < q < |messages| ==> !IsReply(messages[q], startedAt)
  }

  // The last assistant message the run can have made.
  function LastReply(messages: seq<MessageData>, startedAt: int): (r: Option<MessageData>)
    ensures r.Some? ==> exists p :: 0 <= p < |messages| && IsLastReply(messages, p, startedAt) && messages[p] == r.value
    ensures r.None? ==> forall q :: 0 <= q < |messages| ==> !IsReply(messages[q], startedAt)
  {
    if messages == [] then None
    else
      var last := messages[|messages| - 1];
      if last.role == "assistant" && last.createdAt >= startedAt then
        assert IsLastReply(messages, |messages| - 1, startedAt);
        Some(last)
      else
        var r := LastReply(messages[..|messages| - 1], startedAt);
        assert r.Some? ==> exists p :: 0 <= p < |messages| - 1 && IsLastReply(messages, p, startedAt)
                                       && messages[p] == r.value by {
          if r.Some? {
            var front := messages[..|messages| - 1];
            var p: nat :| p < |front| && IsLastReply(front, p, startedAt) && front[p] == r.value;
            assert IsLastReply(messages, p, startedAt);
          }
        }
        r
  }

  function EndResponses(cancelled: bool, e: Ending): seq<Response> {
    if cancelled || e.sessionCancelled then [StreamingStopped(LastReply(e.messages, e.startedAt))]
    else if e.messages != [] then [StreamingComplete(e.messages[|e.messages| - 1])]
    else []
  }

  function UpdateResponses(u: Update, accumulated: string): seq<Response> {
    ApprovalOf(u)
    + (match TextDeltaOf(u) case None => [] case Some(d) => [StreamingChunk(d, accumulated + d)])
  }

  function TextAfter(u: Update, accumulated: string): string {
    match TextDeltaOf(u) case None => accumulated case Some(d) => accumulated + d
  }

  function ItemResponses(items: seq<Item>, accumulated: string, cancelled: bool, e: Ending): seq<Response>
    decreases |items|
  {
    if items == [] then EndResponses(cancelled, e)
    else
      match items[0]
      case Err(error) => [StreamingError(error, accumulated)]
      case Ok(u) =>
        UpdateResponses(u, accumulated)
        + ItemResponses(items[1..], TextAfter(u, accumulated), cancelled || u.cancelled, e)
  }

  // The whole task; None for the items stands for a stream that could not be opened.
  function RunResponses(items: Option<seq<Item>>, startError: string, e: Ending): seq<Response> {
    [StreamingStarted]
    + (match items case None => [SendMessageError(startError)] case Some(xs) => ItemResponses(xs, "", false, e))
  }

  method RunStreamingTask(items: Option<seq<Item>>, startError: string, e: Ending) returns (sent: seq<Response>)
    ensures sent == RunResponses(items, startError, e)
  {
    hide ItemResponses, UpdateResponses, EndResponses, LastReply;
    sent := [StreamingStarted];
    if items.None? { return sent + [SendMessageError(startError)]; }
    var accumulated, cancelled := "", false;
    ghost var whole := RunResponses(items, startError, e);
    for i := 0 to |items.value|
      invariant whole == sent + ItemResponses(items.value[i..], accumulated, cancelled, e)
    {
      FirstItem(items.value[i..], accumulated, cancelled, e);
      assert items.value[i..][1..] == items.value[i + 1..];
      match items.value[i] {
        case Err(error) =>
          return sent + [StreamingError(error, accumulated)];
        case Ok(update) =>
          if update.cancelled { cancelled := true; }
          sent := sent + ApprovalOf(update);
          var delta := TextDeltaOf(update);
          OneUpdate(update, accumulated);
          if delta.Some? {
            accumulated := accumulated + delta.value;
            sent := sent + [StreamingChunk(delta.value, accumulated)];
          }
      }
    }
    NoItems(items.value[|items.value|..], accumulated, cancelled, e);
    sent := sent + EndResponses(cancelled, e);
  }

  lemma FirstItem(items: seq<Item>, accumulated: string, cancelled: bool, e: Ending)
    requires items != []
    ensures ItemResponses(items, accumulated, cancelled, e)
         == match items[0]
            case Err(error) => [StreamingError(error, accumulated)]
            case Ok(u) =>
              UpdateResponses(u, accumulated)
              + ItemResponses(items[1..], TextAfter(u, accumulated), cancelled || u.cancelled, e)
  {}

  lemma OneUpdate(u: Update, accumulated: string)
    ensures UpdateResponses(u, accumulated)
         == if TextDeltaOf(u).None? then ApprovalOf(u)
            else ApprovalOf(u) + [StreamingChunk(TextDeltaOf(u).value, accumulated + TextDeltaOf(u).value)]
  {}

  lemma NoItems(items: seq<Item>, accumulated: string, cancelled: bool, e: Ending)
    requires items == []
    ensures ItemResponses(items, accumulated, cancelled, e) == EndResponses(cancelled, e)
  {}

  // ---------------------------------------------------------------- the protocol

  function FollowAll(ph: Phase, rs: seq<Response>): Option<Phase>
    decreases |rs|
  {
    if rs == [] then Some(ph)
    else
      match Follow(ph, rs[0])
      case None => None
      case Some(ph') => FollowAll(ph', rs[1..])
  }

  lemma {:induction false} FollowAppend(ph: Phase, a: seq<Response>, b: seq<Response>)
    ensures FollowAll(ph, a + b)
         == match FollowAll(ph, a) case None => None case Some(ph') => FollowAll(ph', b)
    decreases |a|
  {
    hide Follow;
    if a == [] {
      assert a + b == b;
    } else {
      assert (a + b)[1..] == a[1..] + b;
      if Follow(ph, a[0]).Some? { FollowAppend(Follow(ph, a[0]).value, a[1..], b); }
    }
  }

  lemma FollowOne(ph: Phase, r: Response)
    ensures FollowAll(ph, [r]) == Follow(ph, r)
  {
    assert [r][1..] == [];
  }

  lemma UpdateFollows(u: Update, accumulated: string)
    ensures FollowAll(Running(accumulated), UpdateResponses(u, accumulated)) == Some(Running(TextAfter(u, accumulated)))
  {
    var approval := ApprovalOf(u);
    assert approval != [] ==> approval[1..] == [];
    match TextDeltaOf(u) {
      case None => assert approval + [] == approval;
      case Some(d) =>
        FollowAppend(Running(accumulated), approval, [StreamingChunk(d, accumulated + d)]);
        FollowOne(Running(accumulated), StreamingChunk(d, accumulated + d));
    }
  }

  // The text of a run and where it leaves the protocol: nowhere exactly when it ended
  // without an error or a stop and found no message at all.
  predicate Hangs(items: seq<Item>, cancelled: bool, e: Ending) {
    if items == [] then !cancelled && !e.sessionCancelled && e.messages == []
    else items[0].Ok? && Hangs(items[1..], cancelled || items[0].update.cancelled, e)
  }

  lemma {:induction false} ItemsFollow(items: seq<Item>, accumulated: string, cancelled: bool, e: Ending)
    requires StoredEnding(e)
    ensures var ph := FollowAll(Running(accumulated), ItemResponses(items, accumulated, cancelled, e));
      ph.Some? && (ph.value.Running? <==> Hangs(items, cancelled, e))
    decreases |items|
  {
    hide UpdateResponses, TextAfter, LastReply;
    if items == [] {
      var rs := EndResponses(cancelled, e);
      if rs != [] { FollowOne(Running(accumulated), rs[0]); assert rs == [rs[0]]; }
    } else {
      match items[0] {
        case Err(error) => FollowOne(Running(accumulated), StreamingError(error, accumulated));
        case Ok(u) =>
          UpdateFollows(u, accumulated);
          ItemsFollow(items[1..], TextAfter(u, accumulated), cancelled || u.cancelled, e);
          FollowAppend(Running(accumulated), UpdateResponses(u, accumulated),
                       ItemResponses(items[1..], TextAfter(u, accumulated), cancelled || u.cancelled, e));
      }
    }
  }

  // A streaming task obeys the protocol of the message list and, unless it hangs, brings
  // it back between runs.
  lemma RunFollows(items: Option<seq<Item>>, startError: string, e: Ending)
    requires StoredEnding(e)
    ensures var ph := FollowAll(Idle, RunResponses(items, startError, e));
      ph.Some? && (ph.value == Idle <==> items.None? || !Hangs(items.value, false, e))
  {
    var rest := match items case None => [SendMessageError(startError)]
                            case Some(xs) => ItemResponses(xs, "", false, e);
    assert ([StreamingStarted] + rest)[1..] == rest;
    match items {
      case None => FollowOne(Running(""), SendMessageError(startError));
      case Some(xs) => ItemsFollow(xs, "", false, e);
    }
  }

  // Following the protocol the list never panics and always equals a full recompute.
  lemma {:induction false} ProtocolKeepsList(m: Model, ph: Phase, rs: seq<Response>, clock: nat -> int)
    requires Consistent(m, ph) && FollowAll(ph, rs).Some?
    ensures HandleAll(m, rs, clock).Some?
    ensures Consistent(HandleAll(m, rs, clock).value, FollowAll(ph, rs).value)
    decreases |rs|
  {
    hide Consistent, Handle, Follow;
    if rs != [] {
      ResponseKeeps(m, ph, rs[0], clock(|rs|));
      ProtocolKeepsList(Handle(m, rs[0], clock(|rs|)).value, Follow(ph, rs[0]).value, rs[1..], clock);
    }
  }

  // ---------------------------------------------------------------- a conversation's life

  // What can happen to a list between runs, and the runs themselves.
  datatype Episode =
    | Load(messages: seq<MessageData>)
    | Send(message: MessageData)
    | Reject(error: string)
    | Run(items: Option<seq<Item>>, startError: string, ending: Ending)

  predicate Proper(ep: Episode) {
    match ep
    case Load(ds) => forall d :: d in ds ==> Stored(d)
    case Send(d) => Stored(d)
    case Reject(_) => true
    case Run(items, _, e) => StoredEnding(e) && (items.Some? ==> !Hangs(items.value, false, e))
  }

  function ResponsesOf(ep: Episode): seq<Response> {
    match ep
    case Load(ds) => [MessagesLoaded(ds)]
    case Send(d) => [MessageSent(d)]
    case Reject(error) => [SendMessageError(error)]
    case Run(items, startError, e) => RunResponses(items, startError, e)
  }

  function Life(eps: seq<Episode>): seq<Response> {
    if eps == [] then [] else Life(eps[..|eps| - 1]) + ResponsesOf(eps[|eps| - 1])
  }

  lemma {:induction false} LifeFollows(eps: seq<Episode>)
    requires forall ep :: ep in eps ==> Proper(ep)
    ensures FollowAll(Idle, Life(eps)) == Some(Idle)
  {
    hide RunResponses, Hangs, StoredEnding;
    if eps != [] {
      var front, last := eps[..|eps| - 1], eps[|eps| - 1];
      LifeFollows(front);
      assert last in eps;
      FollowAppend(Idle, Life(front), ResponsesOf(last));
      match last {
        case Load(ds) => FollowOne(Idle, MessagesLoaded(ds));
        case Send(d) => FollowOne(Idle, MessageSent(d));
        case Reject(error) => FollowOne(Idle, SendMessageError(error));
        case Run(items, startError, e) => RunFollows(items, startError, e);
      }
    }
  }

  // Any number of loads, sends, rejections and whole runs, from a fresh list: at every
  // point of the responses the list is consistent with where the protocol stands, and
  // between runs its totals and marks are those of a full recompute.
  lemma ListEqualsRecompute(eps: seq<Episode>, k: nat, clock: nat -> int)
    requires forall ep :: ep in eps ==> Proper(ep)
    requires k <= |Life(eps)|
    ensures FollowAll(Idle, Life(eps)[..k]).Some? && HandleAll(EMPTY_MODEL, Life(eps)[..k], clock).Some?
    ensures Consistent(HandleAll(EMPTY_MODEL, Life(eps)[..k], clock).value, FollowAll(Idle, Life(eps)[..k]).value)
  {
    hide Life, Follow, Handle;
    LifeFollows(eps);
    assert Life(eps) == Life(eps)[..k] + Life(eps)[k..];
    FollowAppend(Idle, Life(eps)[..k], Life(eps)[k..]);
    assert Consistent(EMPTY_MODEL, Idle);
    ProtocolKeepsList(EMPTY_MODEL, Idle, Life(eps)[..k], clock);
  }
}
