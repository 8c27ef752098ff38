// What the message list shows at any point of a conversation's life: exactly the messages
// and errors it was told of, each run adding what its items and its ending come to.

module Shown {
  import opened Types
  import opened MessageList
  import opened Worker

  // ---------------------------------------------------------------- along any responses

  function HearsAll(es: seq<Entry>, rs: seq<Response>, clock: nat -> int): seq<Entry>
    decreases |rs|
  {
    if rs == [] then es else HearsAll(Hears(es, rs[0], clock(|rs|)), rs[1..], clock)
  }

  lemma {:induction false} ProtocolShows(m: Model, ph: Phase, es: seq<Entry>, rs: seq<Response>, clock: nat -> int)
    requires Consistent(m, ph) && Displays(m, ph, es) && FollowAll(ph, rs).Some?
    ensures HandleAll(m, rs, clock).Some?
    ensures Displays(HandleAll(m, rs, clock).value, FollowAll(ph, rs).value, HearsAll(es, rs, clock))
    decreases |rs|
  {
    hide Consistent, Displays, Handle, Follow, Hears;
    if rs != [] {
      var r, now := rs[0], clock(|rs|);
      ResponseKeeps(m, ph, r, now);
      ResponseShows(m, ph, es, r, now);
      ProtocolShows(Handle(m, r, now).value, Follow(ph, r).value, Hears(es, r, now), rs[1..], clock);
    }
  }

  // From a fresh list, at every point of any life: the rows are the messages and errors
  // of the responses so far, field by field and in order, the totals their tokens.
  lemma ListShowsWhatItWasTold(eps: seq<Episode>, k: nat, clock: nat -> int)
    requires forall ep :: ep in eps ==> Proper(ep)
    requires k <= |Life(eps)|
    ensures var rs := Life(eps)[..k];
      && FollowAll(Idle, rs).Some? && HandleAll(EMPTY_MODEL, rs, clock).Some?
      && Displays(HandleAll(EMPTY_MODEL, rs, clock).value, FollowAll(Idle, rs).value, HearsAll([], rs, clock))
  {
    hide Life, Consistent, HandleAll, FollowAll, HearsAll;
    ListEqualsRecompute(eps, k, clock);
    assert Consistent(EMPTY_MODEL, Idle) by { NothingYet(); }
    ProtocolShows(EMPTY_MODEL, Idle, [], Life(eps)[..k], clock);
  }

  lemma NothingYet()
    ensures Consistent(EMPTY_MODEL, Idle)
  {}

  // ---------------------------------------------------------------- what a run comes to

  // The position of the first error, or the end.
  function FirstError(items: seq<Item>): (j: nat)
    ensures j <= |items|
    ensures forall k :: 0 <= k < j ==> items[k].Ok?
    ensures j < |items| ==> items[j].Err?
  {
    if items == [] || items[0].Err? then 0 else 1 + FirstError(items[1..])
  }

  function SaidBy(items: seq<Item>): string {
    if items == [] then ""
    else
      var last := items[|items| - 1];
      SaidBy(items[..|items| - 1])
      + (if last.Ok? && TextDeltaOf(last.update).Some? then TextDeltaOf(last.update).value else "")
  }

  predicate CancelledBy(items: seq<Item>) { exists k :: 0 <= k < |items| && items[k].Ok? && items[k].update.cancelled }

  // A broken run shows its error with the text so far, a stopped one the reply it left if
  // it left any, a finished one the last message.
  function Added(items: Option<seq<Item>>, startError: string, e: Ending, now: int): seq<Entry> {
    match items
    case None => [Failed(startError, now, None)]
    case Some(xs) =>
      var j := FirstError(xs);
      if j < |xs| then [Failed(xs[j].error, now, Some(SaidBy(xs[..j])))]
      else if CancelledBy(xs) || e.sessionCancelled then
        (match LastReply(e.messages, e.startedAt) case None => [] case Some(d) => [Told(d)])
      else if e.messages == [] then []
      else [Told(e.messages[|e.messages| - 1])]
  }

  lemma SaidPush(items: seq<Item>, last: Item)
    ensures SaidBy(items + [last])
         == SaidBy(items)
            + (if last.Ok? && TextDeltaOf(last.update).Some? then TextDeltaOf(last.update).value else "")
  {
    assert (items + [last])[..|items|] == items;
  }

  lemma {:induction false} FirstErrorAfter(done: seq<Item>, items: seq<Item>)
    requires forall k :: 0 <= k < |done| ==> done[k].Ok?
    ensures FirstError(done + items) == |done| + FirstError(items)
  {
    if done == [] {
      assert done + items == items;
    } else {
      assert (done + items)[1..] == done[1..] + items;
      FirstErrorAfter(done[1..], items);
    }
  }

  function Shift(clock: nat -> int, later: nat): nat -> int { (n: nat) => clock(n + later) }

  lemma {:induction false} HearsAppend(es: seq<Entry>, a: seq<Response>, b: seq<Response>, clock: nat -> int)
    ensures HearsAll(es, a + b, clock) == HearsAll(HearsAll(es, a, Shift(clock, |b|)), b, clock)
    decreases |a|
  {
    hide Hears;
    if a == [] {
      assert a + b == b;
    } else {
      assert (a + b)[1..] == a[1..] + b;
      HearsAppend(Hears(es, a[0], clock(|a| + |b|)), a[1..], b, clock);
    }
  }

  // Approvals and chunks tell the list of no message.
  lemma UpdateTellsNothing(es: seq<Entry>, u: Update, accumulated: string, clock: nat -> int)
    ensures HearsAll(es, UpdateResponses(u, accumulated), clock) == es
  {
    var approval := ApprovalOf(u);
    assert approval != [] ==> approval[1..] == [];
    match TextDeltaOf(u) {
      case None => assert approval + [] == approval;
      case Some(d) =>
        var chunk := [StreamingChunk(d, accumulated + d)];
        assert chunk[1..] == [];
        HearsAppend(es, approval, chunk, clock);
    }
  }

  lemma HearsOne(es: seq<Entry>, r: Response, clock: nat -> int)
    ensures HearsAll(es, [r], clock) == Hears(es, r, clock(1))
  {
    assert [r][1..] == [];
  }

  // The rest of a run, from the items that are done on.
  lemma {:induction false} RestIsHeard(es: seq<Entry>, done: seq<Item>, items: seq<Item>, e: Ending, clock: nat -> int)
    requires forall k :: 0 <= k < |done| ==> done[k].Ok?
    ensures HearsAll(es, ItemResponses(items, SaidBy(done), CancelledBy(done), e), clock)
         == es + Added(Some(done + items), "", e, clock(1))
    decreases |items|
  {
    hide HearsAll, UpdateResponses, LastReply, SaidBy, FirstError, EndResponses;
    FirstErrorAfter(done, items);
    FirstIs(items);
    if items == [] {
      assert done + items == done;
      EndIsHeard(es, CancelledBy(done), e, clock);
    } else if items[0].Err? {
      HearsOne(es, StreamingError(items[0].error, SaidBy(done)), clock);
      assert (done + items)[..|done|] == done;
    } else {
      var u, more := items[0].update, done + [items[0]];
      SaidPush(done, items[0]);
      assert SaidBy(done) + "" == SaidBy(done);
      CancelledPush(done, items[0]);
      assert more + items[1..] == done + items;
      RestIsHeard(es, more, items[1..], e, clock);
      var rest := ItemResponses(items[1..], SaidBy(more), CancelledBy(more), e);
      HearsAppend(es, UpdateResponses(u, SaidBy(done)), rest, clock);
      UpdateTellsNothing(es, u, SaidBy(done), Shift(clock, |rest|));
    }
  }

  lemma FirstIs(items: seq<Item>)
    ensures items == [] || items[0].Err? ==> FirstError(items) == 0
  {}

  lemma CancelledPush(done: seq<Item>, last: Item)
    requires last.Ok?
    ensures CancelledBy(done + [last]) <==> CancelledBy(done) || last.update.cancelled
  {
    var all := done + [last];
    if CancelledBy(done) {
      var k :| 0 <= k < |done| && done[k].Ok? && done[k].update.cancelled;
      assert all[k] == done[k];
    }
    if last.update.cancelled { assert all[|done|].update.cancelled; }
  }

  lemma EndIsHeard(es: seq<Entry>, cancelled: bool, e: Ending, clock: nat -> int)
    ensures HearsAll(es, EndResponses(cancelled, e), clock)
         == es + (if cancelled || e.sessionCancelled then
                    (match LastReply(e.messages, e.startedAt) case None => [] case Some(d) => [Told(d)])
                  else if e.messages == [] then []
                  else [Told(e.messages[|e.messages| - 1])])
  {
    hide LastReply;
    assert es + [] == es;
    var rs := EndResponses(cancelled, e);
    if rs != [] { HearsOne(es, rs[0], clock); }
  }

  lemma RunIsHeard(es: seq<Entry>, items: Option<seq<Item>>, startError: string, e: Ending, clock: nat -> int)
    ensures HearsAll(es, RunResponses(items, startError, e), clock) == es + Added(items, startError, e, clock(1))
  {
    hide ItemResponses, FirstError, LastReply, SaidBy;
    var rest := match items case None => [SendMessageError(startError)]
                            case Some(xs) => ItemResponses(xs, "", false, e);
    assert ([StreamingStarted] + rest)[1..] == rest;
    match items {
      case None => HearsOne(es, SendMessageError(startError), clock);
      case Some(xs) =>
        assert [] + xs == xs;
        NobodyYet();
        RestIsHeard(es, [], xs, e, clock);
    }
  }

  lemma NobodyYet()
    ensures SaidBy([]) == "" && !CancelledBy([])
  {}

  // ---------------------------------------------------------------- a whole life

  // What a life comes to, episode by episode; the clock is read at each episode's end.
  function Chronicle(eps: seq<Episode>, clock: nat -> int): seq<Entry> {
    if eps == [] then []
    else
      var last := eps[|eps| - 1];
      var before := Chronicle(eps[..|eps| - 1], Shift(clock, |ResponsesOf(last)|));
      match last
      case Load(ds) => AllTold(ds)
      case Send(d) => before + [Told(d)]
      case Reject(error) => before + [Failed(error, clock(1), None)]
      case Run(items, startError, e) => before + Added(items, startError, e, clock(1))
  }

  lemma {:induction false} LifeIsHeard(eps: seq<Episode>, clock: nat -> int)
    ensures HearsAll([], Life(eps), clock) == Chronicle(eps, clock)
  {
    hide HearsAll, RunResponses, Added;
    if eps == [] {
      NothingHeard(clock);
    } else {
      var front, last := eps[..|eps| - 1], eps[|eps| - 1];
      var more := Shift(clock, |ResponsesOf(last)|);
      LifeIsHeard(front, more);
      HearsAppend([], Life(front), ResponsesOf(last), clock);
      match last {
        case Load(ds) => HearsOne(Chronicle(front, more), MessagesLoaded(ds), clock);
        case Send(d) => HearsOne(Chronicle(front, more), MessageSent(d), clock);
        case Reject(error) => HearsOne(Chronicle(front, more), SendMessageError(error), clock);
        case Run(items, startError, e) => RunIsHeard(Chronicle(front, more), items, startError, e, clock);
      }
    }
  }

  lemma NothingHeard(clock: nat -> int)
    ensures HearsAll([], [], clock) == []
  {}

  // Between runs the list shows the messages last loaded, those sent since, and for every
  // run its reply, what a stop left of it, or its error: nothing twice, nothing lost.
  lemma LifeIsShown(eps: seq<Episode>, clock: nat -> int)
    requires forall ep :: ep in eps ==> Proper(ep)
    ensures HandleAll(EMPTY_MODEL, Life(eps), clock).Some?
    ensures Displays(HandleAll(EMPTY_MODEL, Life(eps), clock).value, Idle, Chronicle(eps, clock))
  {
    hide Life, Consistent, HandleAll, FollowAll, HearsAll, Chronicle, Displays;
    LifeFollows(eps);
    assert Life(eps)[..|Life(eps)|] == Life(eps);
    ListShowsWhatItWasTold(eps, |Life(eps)|, clock);
    LifeIsHeard(eps, clock);
  }

  // ---------------------------------------------------------------- the prompt

  // The prompt that stands after the responses: the last one raised and not taken back by
  // the start or an end of a run, or the one there was.
  function Prompt(first: string, rs: seq<Response>): string {
    if rs == [] then first
    else
      match rs[|rs| - 1]
      case ToolApprovalRequired(json) => if json == "[]" then "" else json
      case MessagesLoaded(_) => Prompt(first, rs[..|rs| - 1])
      case MessageSent(_) => Prompt(first, rs[..|rs| - 1])
      case StreamingChunk(_, _) => Prompt(first, rs[..|rs| - 1])
      case _ => ""
  }

  lemma {:induction false} PromptAfterFirst(first: string, rs: seq<Response>)
    requires rs != []
    ensures Prompt(first, rs) == Prompt(Prompt(first, rs[..1]), rs[1..])
  {
    if |rs| > 1 {
      var front := rs[..|rs| - 1];
      PromptAfterFirst(first, front);
      assert front[..1] == rs[..1] && rs[1..][..|rs| - 2] == front[1..];
    } else {
      assert rs[..1] == rs;
    }
  }

  lemma {:induction false} PromptIsTheLast(m: Model, rs: seq<Response>, clock: nat -> int)
    ensures HandleAll(m, rs, clock).Some? ==>
      HandleAll(m, rs, clock).value.pendingApproval == Prompt(m.pendingApproval, rs)
    decreases |rs|
  {
    hide Handle;
    if rs != [] {
      var next := Handle(m, rs[0], clock(|rs|));
      FirstPrompt(m, rs, clock(|rs|));
      PromptAfterFirst(m.pendingApproval, rs);
      if next.Some? { PromptIsTheLast(next.value, rs[1..], clock); }
    }
  }

  lemma FirstPrompt(m: Model, rs: seq<Response>, now: int)
    requires rs != []
    ensures Handle(m, rs[0], now).Some? ==>
      Handle(m, rs[0], now).value.pendingApproval == Prompt(m.pendingApproval, rs[..1])
  {
    assert rs[..1][..0] == [];
  }

  // The approval that stands after these items of a run: the last status among them, if it
  // asks for one.
  function Standing(items: seq<Item>): string {
    if items == [] then ""
    else
      var front, last := items[..|items| - 1], items[|items| - 1];
      if last.Err? || last.update.status.NoStatus? then Standing(front)
      else if last.update.status.PendingApproval? && last.update.status.toolsJson != "[]"
      then last.update.status.toolsJson
      else ""
  }

  // What a run has sent for the items that are done.
  function SentFor(done: seq<Item>): seq<Response> {
    if done == [] then []
    else
      var front, last := done[..|done| - 1], done[|done| - 1];
      SentFor(front) + (if last.Ok? then UpdateResponses(last.update, SaidBy(front)) else [])
  }

  predicate AllOk(items: seq<Item>) { forall k :: 0 <= k < |items| ==> items[k].Ok? }

  lemma PromptPush(first: string, rs: seq<Response>, r: Response)
    ensures Prompt(first, rs + [r])
         == match r
            case ToolApprovalRequired(json) => if json == "[]" then "" else json
            case MessagesLoaded(_) => Prompt(first, rs)
            case MessageSent(_) => Prompt(first, rs)
            case StreamingChunk(_, _) => Prompt(first, rs)
            case _ => ""
  {
    assert (rs + [r])[..|rs|] == rs;
  }

  lemma PromptAfterUpdate(first: string, rs: seq<Response>, u: Update, accumulated: string)
    ensures Prompt(first, rs + UpdateResponses(u, accumulated))
         == match u.status
            case NoStatus => Prompt(first, rs)
            case PendingApproval(json) => if json == "[]" then "" else json
            case OtherStatus => ""
  {
    hide Prompt;
    var approval, delta := ApprovalOf(u), TextDeltaOf(u);
    if approval == [] {
      assert rs + approval == rs;
    } else {
      assert approval == [approval[0]];
      PromptPush(first, rs, approval[0]);
    }
    if delta.Some? {
      var chunk := StreamingChunk(delta.value, accumulated + delta.value);
      assert rs + UpdateResponses(u, accumulated) == (rs + approval) + [chunk];
      PromptPush(first, rs + approval, chunk);
    } else {
      assert rs + UpdateResponses(u, accumulated) == rs + approval;
    }
  }

  lemma {:induction false} PromptOfSent(first: string, done: seq<Item>)
    requires AllOk(done)
    ensures Prompt(first, [StreamingStarted] + SentFor(done)) == Standing(done)
  {
    hide UpdateResponses, Prompt;
    if done == [] {
      PromptPush(first, [], StreamingStarted);
      assert [StreamingStarted] + [] == [] + [StreamingStarted];
    } else {
      var front, last := done[..|done| - 1], done[|done| - 1];
      PromptOfSent(first, front);
      PromptAfterUpdate(first, [StreamingStarted] + SentFor(front), last.update, SaidBy(front));
      assert [StreamingStarted] + (SentFor(front) + UpdateResponses(last.update, SaidBy(front)))
          == ([StreamingStarted] + SentFor(front)) + UpdateResponses(last.update, SaidBy(front));
    }
  }

  // One more item that is done.
  lemma DonePush(front: seq<Item>, last: Item)
    requires last.Ok?
    ensures SentFor(front + [last]) == SentFor(front) + UpdateResponses(last.update, SaidBy(front))
    ensures SaidBy(front + [last]) == TextAfter(last.update, SaidBy(front))
    ensures CancelledBy(front + [last]) <==> CancelledBy(front) || last.update.cancelled
  {
    hide UpdateResponses, CancelledBy;
    assert (front + [last])[..|front|] == front;
    SaidPush(front, last);
    assert SaidBy(front) + "" == SaidBy(front);
    CancelledPush(front, last);
  }

  lemma {:induction false} SentInFront(done: seq<Item>, items: seq<Item>, e: Ending)
    requires AllOk(done)
    ensures ItemResponses(done + items, "", false, e)
         == SentFor(done) + ItemResponses(items, SaidBy(done), CancelledBy(done), e)
  {
    hide UpdateResponses, ItemResponses, EndResponses, SentFor, SaidBy, CancelledBy, TextAfter;
    if done == [] {
      assert done + items == items;
      NobodyYet();
      assert [] + ItemResponses(items, "", false, e) == ItemResponses(items, "", false, e);
      assert SentFor([]) == [] by { NothingSent(); }
    } else {
      var front, last := done[..|done| - 1], done[|done| - 1];
      SentInFront(front, [last] + items, e);
      assert front + ([last] + items) == done + items && done == front + [last];
      assert ([last] + items)[1..] == items;
      FirstItem([last] + items, SaidBy(front), CancelledBy(front), e);
      DonePush(front, last);
      var sent, rest := UpdateResponses(last.update, SaidBy(front)),
                        ItemResponses(items, SaidBy(done), CancelledBy(done), e);
      assert SentFor(front) + (sent + rest) == (SentFor(front) + sent) + rest;
    }
  }

  lemma NothingSent()
    ensures SentFor([]) == []
  {}

  // In a run, after any number of items before its first error: what it has sent by then
  // leaves the approval of the last status standing, and none once that status is another.
  lemma PromptInRun(first: string, items: seq<Item>, k: nat, startError: string, e: Ending)
    requires k <= FirstError(items)
    ensures var sent := [StreamingStarted] + SentFor(items[..k]);
      sent <= RunResponses(Some(items), startError, e) && Prompt(first, sent) == Standing(items[..k])
  {
    hide Prompt, Standing, SentFor, ItemResponses, FirstError;
    FirstErrorIs(items);
    PromptOfSent(first, items[..k]);
    SentInFront(items[..k], items[k..], e);
    assert items[..k] + items[k..] == items;
    var rest := ItemResponses(items[k..], SaidBy(items[..k]), CancelledBy(items[..k]), e);
    assert RunResponses(Some(items), startError, e) == ([StreamingStarted] + SentFor(items[..k])) + rest;
  }

  lemma FirstErrorIs(items: seq<Item>)
    ensures FirstError(items) <= |items| && forall k :: 0 <= k < FirstError(items) ==> items[k].Ok?
  {}
}
