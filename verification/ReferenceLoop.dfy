// The storage-reading loop as it runs: nested loops over a mutable history, fed with the
// answers of the backend, the executor and the storage.

module ReferenceLoop {
  import opened Types
  import opened Session
  import opened Reference
  import A = Accumulator

  // Feeding one more answer is taking one more stride.
  lemma DriveOn(env: Env, start: LoopState, answers: seq<Choice>, k: nat)
    requires k < |answers| && Drive(env, start, answers[..k]).Some?
    ensures Drive(env, start, answers[..k + 1]) == Forward(env, Drive(env, start, answers[..k]).value, answers[k])
  {
    assert answers[..k + 1][..k] == answers[..k];
  }

  // The answers ran out, the loop ended, or the next answer is not one that can come
  // here.
  predicate Over(env: Env, m: LoopState, answers: seq<Choice>, k: nat) {
    k <= |answers| && (k == |answers| || m.at.Finished? || Forward(env, m, answers[k]).None?)
  }

  predicate AllEvents(cs: seq<Choice>) { forall k :: 0 <= k < |cs| ==> cs[k].Event? }

  function EventsOf(cs: seq<Choice>): (evs: seq<StreamEvent>)
    requires AllEvents(cs)
    ensures |evs| == |cs| && forall k :: 0 <= k < |cs| ==> evs[k] == cs[k].ev
  {
    seq(|cs|, k requires 0 <= k < |cs| => cs[k].ev)
  }

  lemma NothingReceived(parse: JsonParser, cs: seq<Choice>)
    requires cs == []
    ensures AllEvents(cs) && A.Accumulate(parse, EventsOf(cs)) == A.EMPTY
  {}

  lemma OneReceived(parse: JsonParser, cs: seq<Choice>, c: Choice)
    requires AllEvents(cs) && c.Event?
    ensures AllEvents(cs + [c])
    ensures A.Accumulate(parse, EventsOf(cs + [c])) == A.Apply(parse, A.Accumulate(parse, EventsOf(cs)), c.ev)
  {
    hide A.Apply;
    var evs := EventsOf(cs + [c]);
    assert evs == EventsOf(cs) + [c.ev];
    assert evs[..|evs| - 1] == EventsOf(cs);
  }

  class ConversationManager {
    var stored: seq<Message>
    var nextId: int
    var requests: seq<seq<Message>>
    var executions: seq<seq<Call>>
    var used: nat

    ghost function View(at: Point): LoopState reads this { LoopState(at, stored, nextId, requests, executions) }

    constructor (history: seq<Message>, firstId: int)
      ensures View(Top(0)) == LoopState(Top(0), history, firstId, [], []) && used == 0
    {
      stored, nextId, requests, executions, used := history, firstId, [], [], 0;
    }

    ghost predicate At(env: Env, start: LoopState, answers: seq<Choice>, at: Point)
      reads this
    {
      used <= |answers| && Drive(env, start, answers[..used]) == Some(View(at))
    }

    // Consume the answer just looked at.
    method Take(env: Env, ghost start: LoopState, answers: seq<Choice>, at: Point, ghost st: Stride)
      requires At(env, start, answers, at) && used < |answers|
      requires StrideFrom(env, stored, nextId, at, answers[used]) == Some(st) && st.effect == Nothing
      modifies this`used
      ensures used == old(used) + 1 && At(env, start, answers, st.at)
    {
      hide Drive, StrideFrom;
      DriveOn(env, start, answers, used);
      used := used + 1;
    }

    method Insert(env: Env, ghost start: LoopState, answers: seq<Choice>, at: Point, m: Message, ghost next: Point)
      requires At(env, start, answers, at) && used < |answers|
      requires StrideFrom(env, stored, nextId, at, answers[used]) == Some(Stride(next, Effect.Insert(m)))
      modifies this`used, this`stored, this`nextId
      ensures used == old(used) + 1 && At(env, start, answers, next) && stored == old(stored) + [m]
    {
      hide Drive, StrideFrom;
      DriveOn(env, start, answers, used);
      stored, nextId, used := stored + [m], m.id + 1, used + 1;
    }

    // Receiving a reply: the inner loop over the backend's events. A finished reply is the
    // accumulation of exactly the events consumed.
    method Receive(env: Env, ghost start: LoopState, answers: seq<Choice>, iteration: nat)
      returns (at: Point)
      requires At(env, start, answers, Receiving(iteration, A.EMPTY))
      modifies this`used
      ensures old(used) <= used && At(env, start, answers, at)
      ensures (at.Saving? && at.iter == iteration) || Over(env, View(at), answers, used)
      ensures at.Saving? ==>
        && old(used) < used && answers[used - 1] == StreamEnd && AllEvents(answers[old(used)..used - 1])
        && at.acc == A.Accumulate(env.parse, EventsOf(answers[old(used)..used - 1]))
    {
      hide A.Apply, Drive, A.Accumulate;
      var acc := A.EMPTY;
      at := Receiving(iteration, acc);
      ghost var first := used;
      NothingReceived(env.parse, answers[first..first]);
      while used < |answers| && answers[used].Event?
        invariant first <= used <= |answers| && at == Receiving(iteration, acc)
        invariant At(env, start, answers, at)
        invariant AllEvents(answers[first..used]) && acc == A.Accumulate(env.parse, EventsOf(answers[first..used]))
        decreases |answers| - used
      {
        ghost var k := used;
        var next := A.Apply(env.parse, acc, answers[used].ev);
        OneReceived(env.parse, answers[first..k], answers[k]);
        assert answers[first..k + 1] == answers[first..k] + [answers[k]];
        Take(env, start, answers, at, Stride(Receiving(iteration, next), Nothing));
        acc := next;
        at := Receiving(iteration, acc);
      }
      if used == |answers| { return; }
      if answers[used] == StreamEnd {
        Take(env, start, answers, at, Stride(Saving(iteration, acc), Nothing));
        at := Saving(iteration, acc);
      } else if answers[used] == Fail {
        Take(env, start, answers, at, Stride(Finished(Failed), Nothing));
        at := Finished(Failed);
      }
    }

    // The head of a round: the limit, the history, the request.
    method Ask(env: Env, ghost start: LoopState, answers: seq<Choice>, iteration: nat) returns (at: Point)
      requires At(env, start, answers, Top(iteration))
      modifies this`used, this`requests
      ensures old(used) <= used && At(env, start, answers, at)
      ensures at == Receiving(iteration + 1, A.EMPTY) || Over(env, View(at), answers, used)
      ensures at.Receiving? ==> iteration < MAX_TOOL_ITERATIONS
    {
      hide Drive;
      at := Top(iteration);
      if used == |answers| || answers[used] != Go { return; }
      if iteration + 1 > MAX_TOOL_ITERATIONS {
        Take(env, start, answers, at, Stride(Finished(Failed), Nothing));
        return Finished(Failed);
      }
      Take(env, start, answers, at, Stride(Fetching(iteration + 1), Nothing));
      at := Fetching(iteration + 1);
      if used == |answers| || (answers[used] != Go && answers[used] != Fail) { return; }
      if answers[used] == Fail {
        Take(env, start, answers, at, Stride(Finished(Failed), Nothing));
        return Finished(Failed);
      }
      var messages := GetMessages(stored);
      Take(env, start, answers, at, Stride(Asking(iteration + 1, messages), Nothing));
      at := Asking(iteration + 1, messages);
      if used == |answers| || answers[used] != Go { return; }
      DriveOn(env, start, answers, used);
      requests, used := requests + [messages], used + 1;
      at := Awaiting(iteration + 1);
      if used == |answers| || (answers[used] != Go && answers[used] != Fail) { return; }
      if answers[used] == Fail {
        Take(env, start, answers, at, Stride(Finished(Failed), Nothing));
        return Finished(Failed);
      }
      Take(env, start, answers, at, Stride(Receiving(iteration + 1, A.EMPTY), Nothing));
      at := Receiving(iteration + 1, A.EMPTY);
    }

    // One storage write: the row, then the conversation's time. An error of the second
    // leaves the row where it is.
    method Record(env: Env, ghost start: LoopState, answers: seq<Choice>, from: Point, m: Message,
                  iteration: nat, reply: Option<A.Acc>)
      returns (at: Point)
      requires At(env, start, answers, from) && used < |answers| && answers[used].Row?
      requires StrideFrom(env, stored, nextId, from, answers[used]) == Add(nextId, m, Updating(iteration, reply))
      modifies this`used, this`stored, this`nextId
      ensures old(used) <= used && At(env, start, answers, at)
      ensures at == Updated(iteration, reply) || Over(env, View(at), answers, used)
      ensures stored == if used == old(used) then old(stored) else old(stored) + [m]
    {
      hide Drive, StrideFrom;
      if m.id < nextId { return from; }
      Insert(env, start, answers, from, m, Updating(iteration, reply));
      at := Updating(iteration, reply);
      if used == |answers| { return; }
      UpdatingStride(env, stored, nextId, iteration, reply, answers[used]);
      if answers[used] == Go {
        Take(env, start, answers, at, Stride(Updated(iteration, reply), Nothing));
        at := Updated(iteration, reply);
      } else if answers[used] == Fail {
        Take(env, start, answers, at, Stride(Finished(Failed), Nothing));
        at := Finished(Failed);
      }
    }

    // After a stored reply: its tools, and what came of them.
    method RunTools(env: Env, ghost start: LoopState, answers: seq<Choice>, iteration: nat, calls: seq<Call>)
      returns (at: Point)
      requires At(env, start, answers, Calling(iteration, calls, false))
      modifies this`used, this`stored, this`nextId, this`executions
      ensures old(used) <= used && At(env, start, answers, at)
      ensures at == Top(iteration) || Over(env, View(at), answers, used)
    {
      hide Drive, Answers, Joined;
      at := Calling(iteration, calls, false);
      if used == |answers| || answers[used] != Go { return; }
      DriveOn(env, start, answers, used);
      executions, used := executions + [calls], used + 1;
      at := Calling(iteration, calls, true);
      if used == |answers| { return; }
      if answers[used].ToolsFail? {
        var error := answers[used].error;
        Take(env, start, answers, at, Stride(Failing(iteration, error), Nothing));
        at := RecordOutcome(env, start, answers, iteration, Failing(iteration, error));
      } else if answers[used].Results? && Answers(answers[used].results, calls) {
        var results := Joined(answers[used].results);
        Take(env, start, answers, at, Stride(Recording(iteration, results), Nothing));
        at := RecordOutcome(env, start, answers, iteration, Recording(iteration, results));
      }
    }

    // What came of the tools, or the error they ended in, is stored.
    method RecordOutcome(env: Env, ghost start: LoopState, answers: seq<Choice>, iteration: nat, from: Point)
      returns (at: Point)
      requires (from.Failing? || from.Recording?) && from.iter == iteration
      requires At(env, start, answers, from)
      modifies this`used, this`stored, this`nextId
      ensures old(used) <= used && At(env, start, answers, at)
      ensures at == Top(iteration) || Over(env, View(at), answers, used)
    {
      hide Drive;
      at := from;
      if used == |answers| { return; }
      var c := answers[used];
      if c.Row? {
        var m := if from.Failing? then ToolErrorMessage(c.id, c.now, from.error)
                 else ResultsMessage(c.id, c.now, from.results);
        at := Record(env, start, answers, from, m, iteration, None);
      } else if c == Fail {
        Take(env, start, answers, at, Stride(Finished(Failed), Nothing));
        at := Finished(Failed);
      }
    }

    // What follows a stored reply.
    method AfterReply(env: Env, ghost start: LoopState, answers: seq<Choice>, iteration: nat, acc: A.Acc)
      returns (at: Point)
      requires At(env, start, answers, Saved(iteration, acc))
      modifies this`used, this`stored, this`nextId, this`executions
      ensures old(used) <= used && At(env, start, answers, at)
      ensures at == Top(iteration) || Over(env, View(at), answers, used)
    {
      hide Drive, CallsOf;
      at := Saved(iteration, acc);
      if used == |answers| || answers[used] != Go { return; }
      var calls := CallsOf(acc.blocks);
      if acc.stop == Some(ToolUseStop) && calls != [] {
        if !env.hasExecutor {
          Take(env, start, answers, at, Stride(Finished(Failed), Nothing));
          return Finished(Failed);
        }
        Take(env, start, answers, at, Stride(Calling(iteration, calls, false), Nothing));
        at := RunTools(env, start, answers, iteration, calls);
      } else {
        Take(env, start, answers, at, Stride(Finishing(iteration), Nothing));
        at := Finishing(iteration);
        if used < |answers| && answers[used] == Go {
          Take(env, start, answers, at, Stride(Finished(Completed), Nothing));
          at := Finished(Completed);
        } else if used < |answers| && answers[used] == Fail {
          Take(env, start, answers, at, Stride(Finished(Failed), Nothing));
          at := Finished(Failed);
        }
      }
    }

    // The whole loop is the step machine: it consumes the answers one by one until they
    // run out, do not fit, or the loop is finished.
    method SendMessageStream(env: Env, answers: seq<Choice>) returns (at: Point)
      modifies this
      ensures used <= |answers|
      ensures Drive(env, LoopState(Top(0), old(stored), old(nextId), [], []), answers[..used]) == Some(View(at))
      ensures Over(env, View(at), answers, used)
    {
      hide Drive, StrideFrom;
      ghost var start := LoopState(Top(0), stored, nextId, [], []);
      requests, executions, used := [], [], 0;
      assert answers[..0] == [];
      NoAnswersYet(env, start);
      var iteration := 0;
      while true
        invariant At(env, start, answers, Top(iteration))
        invariant iteration <= MAX_TOOL_ITERATIONS
        decreases MAX_TOOL_ITERATIONS - iteration
      {
        at := Ask(env, start, answers, iteration);
        if at != Receiving(iteration + 1, A.EMPTY) { return; }
        at := Receive(env, start, answers, iteration + 1);
        if !at.Saving? || at.iter != iteration + 1 { return; }
        var acc := at.acc;
        at := SaveReply(env, start, answers, iteration + 1, acc);
        if at != Saved(iteration + 1, acc) { return; }
        at := AfterReply(env, start, answers, iteration + 1, acc);
        if at != Top(iteration + 1) { return; }
        iteration := iteration + 1;
      }
    }

    method SaveReply(env: Env, ghost start: LoopState, answers: seq<Choice>, iteration: nat, acc: A.Acc)
      returns (at: Point)
      requires At(env, start, answers, Saving(iteration, acc))
      modifies this`used, this`stored, this`nextId
      ensures old(used) <= used && At(env, start, answers, at)
      ensures at == Saved(iteration, acc) || Over(env, View(at), answers, used)
    {
      hide Drive;
      at := Saving(iteration, acc);
      if used == |answers| { return; }
      if answers[used].Row? {
        at := Record(env, start, answers, at,
                     AssistantMessage(answers[used].id, answers[used].now, acc), iteration, Some(acc));
      } else if answers[used] == Fail {
        Take(env, start, answers, at, Stride(Finished(Failed), Nothing));
        at := Finished(Failed);
      }
    }
  }

  lemma UpdatingStride(env: Env, stored: seq<Message>, nextId: int, iteration: nat, reply: Option<A.Acc>, c: Choice)
    ensures StrideFrom(env, stored, nextId, Updating(iteration, reply), c)
         == if c == Go then Some(Stride(Updated(iteration, reply), Nothing))
            else if c == Fail then Some(Stride(Finished(Failed), Nothing))
            else None
  {}

  lemma NoAnswersYet(env: Env, start: LoopState)
    ensures Drive(env, start, []) == Some(start)
  {}
}
