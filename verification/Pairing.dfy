// Tool calls and their answers over whole runs: which paths through a turn answer every
// call at once, and that runs made of those paths only ever send well paired requests.

module Pairing {
  import opened Types
  import opened Session
  import opened Approval
  import opened Exclusion
  import opened Gating
  import T = Text
  import W = Wire

  const CLOSED: W.Open := Some(multiset{})

  function OpenFor(calls: seq<Call>): W.Open { Some(multiset(CallIds(calls))) }

  predicate AllResults(blocks: seq<ContentBlock>) { forall k :: 0 <= k < |blocks| ==> blocks[k].ToolResult? }

  predicate AllJoined(results: seq<Option<ContentBlock>>) { forall k :: 0 <= k < |results| ==> results[k].Some? }

  // ---------------------------------------------------------------- ids of answers

  lemma CallIdsAppend(a: seq<Call>, b: seq<Call>)
    ensures CallIds(a + b) == CallIds(a) + CallIds(b)
  {}

  // The denied and the remaining calls carry, together, the ids of the batch.
  lemma {:induction false} PartitionIds(env: Env, deny: seq<string>, calls: seq<Call>)
    ensures multiset(CallIds(Denied(env.codec, deny, calls))) + multiset(CallIds(Remaining(env.codec, deny, calls)))
         == multiset(CallIds(calls))
  {
    hide IsDenied;
    if calls != [] {
      var head, rest := [calls[0]], calls[1..];
      PartitionIds(env, deny, rest);
      assert calls == head + rest;
      CallIdsAppend(head, rest);
      CallIdsAppend(head, Denied(env.codec, deny, rest));
      CallIdsAppend(head, Remaining(env.codec, deny, rest));
      var none: seq<Call> := [];
      assert none + Denied(env.codec, deny, rest) == Denied(env.codec, deny, rest);
      assert none + Remaining(env.codec, deny, rest) == Remaining(env.codec, deny, rest);
    }
  }

  lemma {:induction false} JoinedIds(results: seq<Option<ContentBlock>>, calls: seq<Call>)
    requires Answers(results, calls)
    ensures AllResults(Joined(results))
    ensures |ResultIds(Joined(results))| == |Joined(results)| <= |calls|
    ensures AllJoined(results) ==> ResultIds(Joined(results)) == CallIds(calls)
    ensures |Joined(results)| == |calls| ==> AllJoined(results)
  {
    if results != [] {
      JoinedIds(results[1..], calls[1..]);
      assert CallIds(calls) == [calls[0].id] + CallIds(calls[1..]);
      assert AllJoined(results) ==> AllJoined(results[1..]);
      match results[0] {
        case None =>
          var none: seq<ContentBlock> := [];
          assert none + Joined(results[1..]) == Joined(results[1..]);
        case Some(b) =>
          assert results[0].value.toolUseId == calls[0].id;
          var rest := Joined(results[1..]);
          assert Joined(results) == [b] + rest && ([b] + rest)[1..] == rest;
      }
    }
  }

  // ---------------------------------------------------------------- the paths of a turn

  lemma Append2(a: seq<ContentBlock>, b: seq<ContentBlock>)
    requires AllResults(a) && AllResults(b)
    ensures AllResults(a + b) && multiset(ResultIds(a + b)) == multiset(ResultIds(a)) + multiset(ResultIds(b))
  {
    ResultIdsAppend(a, b);
  }

  // Deny, always-deny and a prompt that was cancelled answer the whole batch.
  lemma RejectedBatchIsAnswered(env: Env, b: Batch, why: string, reason: string)
    requires Genuine(env, b)
    ensures var rs := Rejections(b.denied, why) + Rejections(b.remaining, reason);
      AllResults(rs) && Some(multiset(ResultIds(rs))) == OpenFor(b.calls)
  {
    Append2(Rejections(b.denied, why), Rejections(b.remaining, reason));
    PartitionIds(env, b.cfg.alwaysDeny, b.calls);
  }

  // Execution answers the whole batch exactly when every tool task joined.
  lemma ExecutedBatch(env: Env, b: Batch, results: seq<Option<ContentBlock>>)
    requires Genuine(env, b) && Answers(results, b.remaining)
    ensures var rs := Rejections(b.denied, BLOCKED) + Joined(results);
      AllResults(rs) && (Some(multiset(ResultIds(rs))) == OpenFor(b.calls) <==> AllJoined(results))
  {
    hide IsDenied, Joined;
    var denied, joined := Rejections(b.denied, BLOCKED), Joined(results);
    JoinedIds(results, b.remaining);
    Append2(denied, joined);
    PartitionIds(env, b.cfg.alwaysDeny, b.calls);
    var ids := multiset(CallIds(b.denied));
    assert |ids + multiset(ResultIds(joined))| == |b.denied| + |joined|;
    assert |ids + multiset(CallIds(b.remaining))| == |b.denied| + |b.remaining|;
  }

  // A stop between the gate and the end of the tools answers the whole batch exactly
  // when the deny list had blocked nothing.
  lemma StoppedBatch(env: Env, b: Batch)
    requires Genuine(env, b)
    ensures var rs := Rejections(b.remaining, STOPPED);
      AllResults(rs) && (Some(multiset(ResultIds(rs))) == OpenFor(b.calls) <==> b.denied == [])
  {
    hide IsDenied, Denied, Remaining, Rejections, ResultIds, CallIds;
    PartitionIds(env, b.cfg.alwaysDeny, b.calls);
    var denied, remaining := multiset(CallIds(b.denied)), multiset(CallIds(b.remaining));
    assert |denied + remaining| == |b.denied| + |b.remaining|;
    assert |denied| == |b.denied|;
    assert b.denied == [] ==> denied + remaining == remaining;
  }

  // A results message closes a batch exactly when it has its ids.
  lemma ResultsClose(o: multiset<string>, id: int, now: int, rs: seq<ContentBlock>)
    requires AllResults(rs) && (rs != [] || o == multiset{})
    ensures W.MessageStep(Some(o), ResultsMessage(id, now, rs)) == CLOSED <==> multiset(ResultIds(rs)) == o
  {
    if rs == [] {
      assert T.Join(TextsOf(rs), "\n") == "";
    } else {
      W.AnswerCloses(o, ResultsMessage(id, now, rs));
    }
  }

  // The text that is stored for a failed execution comes between the calls and any answer.
  lemma ErrorStep(o: multiset<string>, id: int, now: int, error: string)
    requires o != multiset{}
    ensures W.MessageStep(Some(o), ToolErrorMessage(id, now, error)) == None
  {
    var m := ToolErrorMessage(id, now, error);
    var text := "Tool execution failed with error: " + error;
    assert m.content[1..] == [] && TextsOf(m.content) == [text];
    JoinOne(text);
    assert text[0] == 'T';
  }

  lemma JoinOne(text: string)
    ensures T.Join([text], "\n") == text
  {}

  // Once broken, a history stays broken.
  lemma {:induction false} BrokenForever(before: seq<Message>, after: seq<Message>)
    requires W.Unanswered(before).None?
    ensures W.Unanswered(before + after).None?
  {
    if after == [] {
      assert before + after == before;
    } else {
      var front, m := after[..|after| - 1], after[|after| - 1];
      BrokenForever(before, front);
      assert before + after == (before + front) + [m];
      W.UnansweredPush(before + front, m);
      if m.role == User { BrokenBlocks(m.content); }
    }
  }

  lemma {:induction false} BrokenBlocks(blocks: seq<ContentBlock>)
    ensures W.BlocksScan(None, blocks).None?
  {
    if blocks != [] { BrokenBlocks(blocks[..|blocks| - 1]); }
  }

  // After a failed execution the batch is never answered, whatever is stored later.
  lemma ErrorNeverCloses(before: seq<Message>, id: int, now: int, error: string, after: seq<Message>)
    requires W.Unanswered(before) != CLOSED
    ensures W.Unanswered(before + [ToolErrorMessage(id, now, error)] + after) == None
  {
    hide W.Unanswered;
    var m := ToolErrorMessage(id, now, error);
    W.UnansweredPush(before, m);
    if W.Unanswered(before).None? {
      BrokenForever(before, [m]);
    } else {
      ErrorStep(W.Unanswered(before).value, id, now, error);
    }
    BrokenForever(before + [m], after);
  }
}
