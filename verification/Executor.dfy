// The tool executor (clareon-core/src/tools/executor.rs): one task per call, awaited in
// order; a call whose task does not join is left out.

module Executor {
  import opened Types
  import opened Session
  import Pairing

  // How the run of one call ends. A crash is a task that panics or is aborted.
  datatype Outcome = Ran(success: bool, output: string) | Refused(error: string) | Crashed

  // The registry's answer for a name is part of the choice: None is an unknown tool.
  function ToolUse(call: Call, outcome: Option<Outcome>): Option<ContentBlock> {
    match outcome
    case None => Some(ToolResult(call.id, ["Error: Unknown tool '" + call.name + "'"], Some(true)))
    case Some(Ran(success, output)) => Some(ToolResult(call.id, [output], if success then None else Some(true)))
    case Some(Refused(error)) => Some(ToolResult(call.id, ["Error: " + error], Some(true)))
    case Some(Crashed) => None
  }

  // The call did not end well: no such tool, an error, or a run that says so itself.
  predicate Failed(outcome: Option<Outcome>) {
    outcome == None || outcome.value.Refused? || (outcome.value.Ran? && !outcome.value.success)
  }

  // The block answers the call and tells how it ended: marked as an error exactly when it
  // failed, with the run's own output, or what went wrong.
  predicate Reports(block: ContentBlock, call: Call, outcome: Option<Outcome>) {
    && block.ToolResult? && block.toolUseId == call.id
    && (block.isError == Some(true) <==> Failed(outcome)) && (block.isError == None <==> !Failed(outcome))
    && |block.content| == 1
    && (match outcome
        case Some(Ran(_, output)) => block.content[0] == output
        case Some(Refused(error)) => block.content[0] == "Error: " + error
        case None => block.content[0] == "Error: Unknown tool '" + call.name + "'"
        case _ => true)
  }

  function Tasks(calls: seq<Call>, outcomes: seq<Option<Outcome>>): (tasks: seq<Option<ContentBlock>>)
    requires |outcomes| == |calls|
    ensures Answers(tasks, calls)
    ensures Pairing.AllJoined(tasks) <==> forall k :: 0 <= k < |calls| ==> outcomes[k] != Some(Crashed)
    ensures forall k :: 0 <= k < |calls| ==>
      if outcomes[k] == Some(Crashed) then tasks[k] == None
      else tasks[k].Some? && Reports(tasks[k].value, calls[k], outcomes[k])
  {
    seq(|calls|, k requires 0 <= k < |calls| => ToolUse(calls[k], outcomes[k]))
  }

  lemma {:induction false} JoinedPush(tasks: seq<Option<ContentBlock>>, t: Option<ContentBlock>)
    ensures Joined(tasks + [t]) == Joined(tasks) + (match t case None => [] case Some(b) => [b])
  {
    if tasks == [] {
      assert [] + [t] == [t] && [t][1..] == [];
    } else {
      FirstJoined(tasks);
      FirstJoined(tasks + [t]);
      JoinedPush(tasks[1..], t);
      assert (tasks + [t])[1..] == tasks[1..] + [t] && (tasks + [t])[0] == tasks[0];
    }
  }

  lemma FirstJoined(tasks: seq<Option<ContentBlock>>)
    requires tasks != []
    ensures Joined(tasks) == (match tasks[0] case None => [] case Some(b) => [b]) + Joined(tasks[1..])
  {}

  lemma {:induction false} AllOfThem(tasks: seq<Option<ContentBlock>>)
    requires Pairing.AllJoined(tasks)
    ensures |Joined(tasks)| == |tasks| && forall k :: 0 <= k < |tasks| ==> Joined(tasks)[k] == tasks[k].value
  {
    if tasks != [] {
      AllOfThem(tasks[1..]);
      FirstJoined(tasks);
    }
  }

  // execute_multiple's two loops. The results have one block per call in call order
  // exactly when no task crashed, and then each tells how its call ended; otherwise the
  // crashed calls go unanswered.
  method ExecuteMultiple(calls: seq<Call>, outcomes: seq<Option<Outcome>>) returns (results: seq<ContentBlock>)
    requires |outcomes| == |calls|
    ensures results == Joined(Tasks(calls, outcomes)) && Pairing.AllResults(results)
    ensures ResultIds(results) == CallIds(calls) <==> forall k :: 0 <= k < |calls| ==> outcomes[k] != Some(Crashed)
    ensures (forall k :: 0 <= k < |calls| ==> outcomes[k] != Some(Crashed)) ==>
      |results| == |calls| && forall k :: 0 <= k < |calls| ==> Reports(results[k], calls[k], outcomes[k])
  {
    hide Joined, ToolUse, ResultIds, Reports;
    var tasks: seq<Option<ContentBlock>> := [];
    for k := 0 to |calls|
      invariant tasks == Tasks(calls, outcomes)[..k]
    {
      tasks := tasks + [ToolUse(calls[k], outcomes[k])];
    }
    assert tasks == Tasks(calls, outcomes);
    results := [];
    NoneJoined();
    for k := 0 to |tasks|
      invariant results == Joined(tasks[..k])
    {
      assert tasks[..k + 1] == tasks[..k] + [tasks[k]];
      JoinedPush(tasks[..k], tasks[k]);
      if tasks[k].Some? {
        results := results + [tasks[k].value];
      }
    }
    assert tasks[..|tasks|] == tasks;
    Pairing.JoinedIds(tasks, calls);
    if Pairing.AllJoined(tasks) { AllOfThem(tasks); }
  }

  lemma NoneJoined()
    ensures Joined([]) == []
  {}
}
