// What a decision leads to, whatever the other tasks do: a refusal is told to every call
// and nothing is executed; an allowed batch is executed once or stopped. And when a
// stopped reply is kept.

module Outcomes {
  import opened Types
  import opened Session
  import opened Approval
  import opened Gating
  import Runs
  import A = Accumulator
  import T = Text

  // A task's own steps, one after the other.
  function Steps(env: Env, s: State, t: nat, choices: seq<Choice>): Option<State>
    decreases |choices|
  {
    if choices == [] then Some(s)
    else
      match Next(env, s, Step(t, choices[0]))
      case None => None
      case Some(s') => Steps(env, s', t, choices[1..])
  }

  lemma FirstStep(env: Env, s: State, t: nat, c: Choice, rest: seq<Choice>, turn: Turn)
    requires t in s.tasks && Move(env, s, s.tasks[t], c) == Some(turn)
    ensures Steps(env, s, t, [c] + rest) == Steps(env, Advance(s, t, turn), t, rest)
    ensures Advance(s, t, turn).tasks[t] == turn.pc
  {
    hide Move;
    assert ([c] + rest)[1..] == rest;
  }

  predicate Refuses(d: Decision) { d == Deny || d == AlwaysDeny || d == Decision.Cancelled }

  function ReasonFor(d: Decision): string
    requires Refuses(d)
  {
    match d case Deny => DENIED case AlwaysDeny => BLOCKED case Cancelled => STOPPED
  }

  // One error result with this reason for each of the calls, in order.
  predicate Refused(blocks: seq<ContentBlock>, calls: seq<Call>, reason: string) {
    && |blocks| == |calls|
    && forall k :: 0 <= k < |calls| ==> blocks[k] == ToolResult(calls[k].id, [reason], Some(true))
  }

  predicate Allows(d: Decision) { d == AllowOnce || d == AlwaysAllow }

  function Refusals(b: Batch, d: Decision): seq<ContentBlock>
    requires Refuses(d)
  {
    Rejections(b.denied, BLOCKED) + Rejections(b.remaining, ReasonFor(d))
  }

  // Each call of the batch is told in its turn, the blocked ones first, why it was not run.
  predicate TellsAll(content: seq<ContentBlock>, b: Batch, d: Decision)
    requires Refuses(d)
  {
    && |content| == |b.denied| + |b.remaining|
    && Refused(content[..|b.denied|], b.denied, "Blocked by always-deny policy")
    && Refused(content[|b.denied|..], b.remaining,
               match d
               case Deny => "User denied tool execution"
               case AlwaysDeny => "Blocked by always-deny policy"
               case Cancelled => "Generation stopped by user")
  }

  predicate TellsStopped(content: seq<ContentBlock>, calls: seq<Call>) {
    Refused(content, calls, "Generation stopped by user")
  }

  lemma RefusalsTellAll(b: Batch, d: Decision)
    requires Refuses(d)
    ensures TellsAll(Refusals(b, d), b, d)
  {
    hide Rejections;
    var denied, rest := Rejections(b.denied, BLOCKED), Rejections(b.remaining, ReasonFor(d));
    assert (denied + rest)[..|b.denied|] == denied && (denied + rest)[|b.denied|..] == rest;
  }

  // ---------------------------------------------------------------- what a task did

  // What one task has done over a stretch of an execution, whatever others did meanwhile:
  // the executions it started, the messages it cached, the decisions it applied with the
  // settings before and after, and whether it has sent a request or left the run.
  datatype Deeds = Deeds(
    starts: seq<seq<Call>>, cached: seq<Message>, applied: seq<(Config, Config)>, asked: bool, left: bool)

  const NO_DEEDS := Deeds([], [], [], false, false)

  function Do(did: Deeds, cfg: Config, e: Effect): Deeds {
    match e
    case StartTools(calls) => did.(starts := did.starts + [calls])
    case Cache(m) => did.(cached := did.cached + [m])
    case ApplyDecision(cfg') => did.(applied := did.applied + [(cfg, cfg')])
    case SendRequest(_) => did.(asked := true)
    case LowerFlag => did.(left := true)
    case _ => did
  }

  function DoneBy(env: Env, did: Deeds, s: State, a: Action, t: nat): Deeds {
    if a.Step? && a.task == t && t in s.tasks && Move(env, s, s.tasks[t], a.choice).Some?
    then Do(did, s.cfg, Move(env, s, s.tasks[t], a.choice).value.effect) else did
  }

  function Did(env: Env, states: seq<State>, actions: seq<Action>, t: nat, i: nat, j: nat): Deeds
    requires i <= j <= |actions| && |states| == |actions| + 1
    decreases j
  {
    if i == j then NO_DEEDS
    else DoneBy(env, Did(env, states, actions, t, i, j - 1), states[j - 1], actions[j - 1], t)
  }

  // ---------------------------------------------------------------- carrying out a decision

  function Memory(env: Env, b: Batch, d: Decision, cfg: Config): Config {
    match d
    case AlwaysAllow => Remember(env.codec, cfg, b.remaining, true)
    case AlwaysDeny => Remember(env.codec, cfg, b.remaining, false)
    case _ => cfg
  }

  // The settings were changed once, and as the decision says.
  predicate Applied(env: Env, b: Batch, d: Decision, applied: seq<(Config, Config)>) {
    |applied| == 1 && applied[0].1 == Memory(env, b, d, applied[0].0)
  }

  // The answers of an execution in which every task is accounted for, or what is stored
  // in their place when it fails as a whole.
  ghost predicate Ran(b: Batch, content: seq<ContentBlock>) {
    || (exists results, refused ::
          && Answers(results, b.remaining) && Refused(refused, b.denied, "Blocked by always-deny policy")
          && content == refused + Joined(results))
    || (exists error: string :: content == Broke(error))
  }

  function Broke(error: string): seq<ContentBlock> { [Text("Tool execution failed with error: " + error)] }

  // What may be stored for a batch once it was decided on: the refusals; the answers of
  // the one execution; or, when the run stops, that it was stopped.
  ghost predicate Says(b: Batch, d: Decision, starts: seq<seq<Call>>, content: seq<ContentBlock>, last: bool) {
    if Refuses(d) then starts == [] && content == Refusals(b, d) && (last <==> d == Decision.Cancelled)
    else if last then (starts == [] || starts == [b.remaining]) && content == Rejections(b.remaining, STOPPED)
    else starts == [b.remaining] && Ran(b, content)
  }

  // Where a task can be between a decision and its next request, and what it has done.
  ghost predicate CarriesOut(env: Env, b: Batch, d: Decision, pc: Pc, did: Deeds) {
    if pc.Applying? then pc.batch == b && pc.decision == d && did == NO_DEEDS
    else
      && Applied(env, b, d, did.applied)
      && match pc
         case Gate(_, b') => b' == b && Allows(d) && did.starts == [] && did.cached == []
         case Executing(_, b', started, _) =>
           b' == b && Allows(d) && did.starts == (if started then [b.remaining] else []) && did.cached == []
         case Erring(_, _) => Allows(d) && did.starts == [b.remaining] && did.cached == []
         case Answering(_, rs, after) => Says(b, d, did.starts, rs, after == Close) && did.cached == []
         case Pushing(m, r) =>
           && (r.NextRound? || r.Leaving?) && m.role == User
           && Says(b, d, did.starts, m.content, r.Leaving?) && did.cached == []
         case Closing(_) => Ended(b, d, did)
         case _ => (pc.LoopTop? || pc.Reading? || pc.Requesting?) && Recorded(b, d, did, false)
  }

  // One message is in the cache that says it.
  ghost predicate Recorded(b: Batch, d: Decision, did: Deeds, last: bool) {
    |did.cached| == 1 && did.cached[0].role == User && Says(b, d, did.starts, did.cached[0].content, last)
  }

  // At the end of the run nothing more than this has happened.
  ghost predicate Ended(b: Batch, d: Decision, did: Deeds) {
    && (did.starts == [] || (Allows(d) && did.starts == [b.remaining]))
    && (did.cached == [] || Recorded(b, d, did, false) || Recorded(b, d, did, true))
  }

  predicate Parting(e: Effect) { e.SendRequest? || e.LowerFlag? }

  // One step of the task itself.
  ghost predicate GoesOn(env: Env, b: Batch, d: Decision, did: Deeds, cfg: Config, turn: Turn) {
    !Parting(turn.effect) ==> CarriesOut(env, b, d, turn.pc, Do(did, cfg, turn.effect))
  }

  lemma DecideGoesOn(env: Env, s: State, i: nat, b: Batch, d: Decision)
    ensures GoesOn(env, b, d, NO_DEEDS, s.cfg, Decide(env, s, i, b, d))
  {
    hide Remember, Rejections;
  }

  lemma RunGoesOn(env: Env, b: Batch, d: Decision, did: Deeds, s: State, pc: Pc, c: Choice, turn: Turn)
    requires MoveRun(s, pc, c) == Some(turn) && CarriesOut(env, b, d, pc, did)
    ensures GoesOn(env, b, d, did, s.cfg, turn)
  {
    hide Applied, Says, Allows;
    SaysStarts(b, d, did.starts, if did.cached != [] then did.cached[0].content else []);
  }

  lemma SaysStarts(b: Batch, d: Decision, starts: seq<seq<Call>>, content: seq<ContentBlock>)
    ensures Says(b, d, starts, content, false) || Says(b, d, starts, content, true) ==>
      starts == [] || (Allows(d) && starts == [b.remaining])
  {}

  lemma ExecutingGoesOn(env: Env, b: Batch, d: Decision, did: Deeds, s: State, i: nat, b': Batch, started: bool,
                        w: Wait, c: Choice, turn: Turn)
    requires MoveExecuting(s, i, b', started, w, c) == Some(turn)
    requires CarriesOut(env, b, d, Executing(i, b', started, w), did)
    ensures GoesOn(env, b, d, did, s.cfg, turn)
  {
    hide Applied, Rejections, Joined, Answers, Ran;
    assert did.starts == [] ==> did.starts + [b.remaining] == [b.remaining];
    if c.Results? && Answers(c.results, b.remaining) {
      RunsOut(b, c.results);
    }
  }

  lemma RunsOut(b: Batch, results: seq<Option<ContentBlock>>)
    requires Answers(results, b.remaining)
    ensures Ran(b, Rejections(b.denied, BLOCKED) + Joined(results))
  {
    hide Rejections, Joined, Answers;
    assert Refused(Rejections(b.denied, BLOCKED), b.denied, "Blocked by always-deny policy");
  }

  lemma ToolsGoesOn(env: Env, b: Batch, d: Decision, did: Deeds, s: State, pc: Pc, c: Choice, turn: Turn)
    requires MoveTools(s, pc, c) == Some(turn) && CarriesOut(env, b, d, pc, did)
    ensures GoesOn(env, b, d, did, s.cfg, turn)
  {
    hide MoveExecuting, CarriesOut, GoesOn;
    if pc.Executing? {
      ExecutingGoesOn(env, b, d, did, s, pc.iter, pc.batch, pc.started, pc.wait, c, turn);
    } else if pc.Erring? {
      ErringGoesOn(env, b, d, did, s, pc, c, turn);
    } else if pc.Answering? {
      AnsweringGoesOn(env, b, d, did, s, pc, c, turn);
    } else if pc.Pushing? {
      PushingGoesOn(env, b, d, did, s, pc, c, turn);
    } else {
      GateGoesOn(env, b, d, did, s, pc, c, turn);
    }
  }

  lemma GateGoesOn(env: Env, b: Batch, d: Decision, did: Deeds, s: State, pc: Pc, c: Choice, turn: Turn)
    requires pc.Gate? && MoveTools(s, pc, c) == Some(turn) && CarriesOut(env, b, d, pc, did)
    ensures GoesOn(env, b, d, did, s.cfg, turn)
  {
    hide Applied, Rejections;
  }

  lemma AnsweringGoesOn(env: Env, b: Batch, d: Decision, did: Deeds, s: State, pc: Pc, c: Choice, turn: Turn)
    requires pc.Answering? && MoveTools(s, pc, c) == Some(turn) && CarriesOut(env, b, d, pc, did)
    ensures GoesOn(env, b, d, did, s.cfg, turn)
  {
    hide Applied, Says, Allows;
    SaysStarts(b, d, did.starts, pc.results);
  }

  lemma PushingGoesOn(env: Env, b: Batch, d: Decision, did: Deeds, s: State, pc: Pc, c: Choice, turn: Turn)
    requires pc.Pushing? && MoveTools(s, pc, c) == Some(turn) && CarriesOut(env, b, d, pc, did)
    ensures GoesOn(env, b, d, did, s.cfg, turn)
  {
    hide Applied, Says, Allows;
    SaysStarts(b, d, did.starts, pc.msg.content);
    assert did.cached + [pc.msg] == [pc.msg];
  }

  lemma ErringGoesOn(env: Env, b: Batch, d: Decision, did: Deeds, s: State, pc: Pc, c: Choice, turn: Turn)
    requires pc.Erring? && MoveTools(s, pc, c) == Some(turn) && CarriesOut(env, b, d, pc, did)
    ensures GoesOn(env, b, d, did, s.cfg, turn)
  {
    hide Applied, Rejections, Joined, Answers;
    assert ToolErrorMessage(0, 0, pc.error).content == Broke(pc.error);
  }

  lemma MovesGoOn(env: Env, b: Batch, d: Decision, did: Deeds, s: State, pc: Pc, c: Choice, turn: Turn)
    requires Move(env, s, pc, c) == Some(turn) && CarriesOut(env, b, d, pc, did)
    ensures GoesOn(env, b, d, did, s.cfg, turn)
  {
    hide MoveRun, MoveReply, MovePrompt, MoveTools, MoveCommand, CarriesOut, GoesOn;
    NowhereElse(env, b, d, pc, did);
    if pc.Applying? {
      ApplyingMove(env, b, d, s, pc, c, did, turn);
      DecideGoesOn(env, s, pc.iter, b, d);
    } else if PhaseOf(pc) == InTools {
      ToolsGoesOn(env, b, d, did, s, pc, c, turn);
    } else {
      RunGoesOn(env, b, d, did, s, pc, c, turn);
    }
  }

  lemma NowhereElse(env: Env, b: Batch, d: Decision, pc: Pc, did: Deeds)
    requires CarriesOut(env, b, d, pc, did)
    ensures pc.Applying? || PhaseOf(pc) == InTools || PhaseOf(pc) == InLoop
  {
    hide Says, Applied;
  }

  lemma ApplyingMove(env: Env, b: Batch, d: Decision, s: State, pc: Pc, c: Choice, did: Deeds, turn: Turn)
    requires pc.Applying? && Move(env, s, pc, c) == Some(turn) && CarriesOut(env, b, d, pc, did)
    ensures did == NO_DEEDS && turn == Decide(env, s, pc.iter, b, d)
  {
    hide Decide;
  }

  // ---------------------------------------------------------------- over executions

  lemma OthersLeaveAlone(env: Env, s: State, a: Action, s': State, t: nat, did: Deeds)
    requires Next(env, s, a) == Some(s') && t in s.tasks && !(a.Step? && a.task == t)
    ensures t in s'.tasks && s'.tasks[t] == s.tasks[t] && DoneBy(env, did, s, a, t) == did
  {
    hide Move;
  }

  lemma OwnStep(env: Env, s: State, c: Choice, s': State, t: nat, did: Deeds)
    requires Next(env, s, Step(t, c)) == Some(s')
    ensures t in s.tasks && Move(env, s, s.tasks[t], c).Some?
    ensures var turn := Move(env, s, s.tasks[t], c).value;
      t in s'.tasks && s'.tasks[t] == turn.pc && DoneBy(env, did, s, Step(t, c), t) == Do(did, s.cfg, turn.effect)
  {
    hide Move, Do;
  }

  lemma PartingShows(did: Deeds, cfg: Config, e: Effect)
    ensures Parting(e) ==> Do(did, cfg, e).asked || Do(did, cfg, e).left
    ensures did.asked || did.left ==> Do(did, cfg, e).asked || Do(did, cfg, e).left
  {}

  // Until the task asks again or leaves, it does nothing but carry its decision out,
  // whatever the other tasks do in between.
  lemma {:induction false} DecisionIsCarriedOut(env: Env, states: seq<State>, actions: seq<Action>, t: nat,
                                                i: nat, j: nat)
    requires Execution(env, states, actions) && i <= j <= |actions|
    requires t in states[i].tasks && states[i].tasks[t].Applying?
    requires var did := Did(env, states, actions, t, i, j); !did.asked && !did.left
    ensures t in states[j].tasks
    ensures CarriesOut(env, states[i].tasks[t].batch, states[i].tasks[t].decision, states[j].tasks[t],
                       Did(env, states, actions, t, i, j))
    decreases j
  {
    hide Next, Init, CarriesOut, DoneBy, Do;
    var b, d := states[i].tasks[t].batch, states[i].tasks[t].decision;
    if i == j {
      StartsWithNothing(env, b, d, states[i].tasks[t]);
    } else {
      var s, a, did := states[j - 1], actions[j - 1], Did(env, states, actions, t, i, j - 1);
      assert Next(env, s, a) == Some(states[j]);
      StillThere(env, s, a, t, did);
      DecisionIsCarriedOut(env, states, actions, t, i, j - 1);
      if a.Step? && a.task == t {
        OwnStep(env, s, a.choice, states[j], t, did);
        var turn := Move(env, s, s.tasks[t], a.choice).value;
        PartingShows(did, s.cfg, turn.effect);
        MovesGoOn(env, b, d, did, s, s.tasks[t], a.choice, turn);
      } else {
        OthersLeaveAlone(env, s, a, states[j], t, did);
      }
    }
  }

  lemma StillThere(env: Env, s: State, a: Action, t: nat, did: Deeds)
    ensures did.asked || did.left ==> DoneBy(env, did, s, a, t).asked || DoneBy(env, did, s, a, t).left
  {
    hide Move;
  }

  lemma StartsWithNothing(env: Env, b: Batch, d: Decision, pc: Pc)
    requires pc.Applying? && pc.batch == b && pc.decision == d
    ensures CarriesOut(env, b, d, pc, NO_DEEDS)
  {}

  // The task has got through to its next round.
  predicate BackAtTop(pc: Pc) { pc.LoopTop? || pc.Reading? || pc.Requesting? }

  // A prompt was decided, and since then the task has neither asked again nor left.
  ghost predicate StillDeciding(env: Env, states: seq<State>, actions: seq<Action>, t: nat, i: nat, j: nat) {
    && Execution(env, states, actions) && i <= j <= |actions|
    && t in states[i].tasks && states[i].tasks[t].Applying?
    && !Did(env, states, actions, t, i, j).asked && !Did(env, states, actions, t, i, j).left
  }

  lemma DecidedView(env: Env, states: seq<State>, actions: seq<Action>, t: nat, i: nat)
    requires Execution(env, states, actions) && i <= |actions|
    requires t in states[i].tasks && states[i].tasks[t].Applying?
    ensures var pc := states[i].tasks[t];
      ViewOf(states[i].log, t) == View(Some(pc.batch), Some(pc.decision), false) && Genuine(env, pc.batch)
  {
    hide Next, Init, ViewOf, Runs.Safe, Genuine;
    Runs.ExecutionIsSafe(env, states, actions, i);
    AppliedView(env, states[i], t);
  }

  lemma AppliedView(env: Env, s: State, t: nat)
    requires Runs.Safe(env, s) && t in s.tasks && s.tasks[t].Applying?
    ensures ViewOf(s.log, t) == View(Some(s.tasks[t].batch), Some(s.tasks[t].decision), false)
    ensures Genuine(env, s.tasks[t].batch)
  {
    hide Genuine, ViewOf;
    assert GateInv(env, s);
  }

  // After a refusal, up to its next request or its end, a task starts no tools and caches
  // at most one message, which tells each call of the batch in turn that it was blocked,
  // denied or stopped. It gets to a next round only with that message in the cache, and
  // after a stop not at all. Always-deny is remembered.
  lemma RefusalIsStored(env: Env, states: seq<State>, actions: seq<Action>, t: nat, i: nat, j: nat)
    requires StillDeciding(env, states, actions, t, i, j) && Refuses(states[i].tasks[t].decision)
    ensures t in states[j].tasks
    ensures var b, d, pc := states[i].tasks[t].batch, states[i].tasks[t].decision, states[j].tasks[t];
      var did := Did(env, states, actions, t, i, j);
      && ViewOf(states[i].log, t) == View(Some(b), Some(d), false)
      && did.starts == [] && |did.cached| <= 1
      && (forall m :: m in did.cached ==> m.role == User && TellsAll(m.content, b, d))
      && (BackAtTop(pc) ==> |did.cached| == 1 && d != Decision.Cancelled)
      && (!pc.Applying? ==> Applied(env, b, d, did.applied))
  {
    hide Next, Init, CarriesOut, Did, TellsAll, ViewOf, Applied;
    var b, d := states[i].tasks[t].batch, states[i].tasks[t].decision;
    DecidedView(env, states, actions, t, i);
    DecisionIsCarriedOut(env, states, actions, t, i, j);
    RefusedDeeds(env, b, d, states[j].tasks[t], Did(env, states, actions, t, i, j));
  }

  lemma RefusedDeeds(env: Env, b: Batch, d: Decision, pc: Pc, did: Deeds)
    requires CarriesOut(env, b, d, pc, did) && Refuses(d)
    ensures did.starts == [] && |did.cached| <= 1
    ensures forall m :: m in did.cached ==> m.role == User && TellsAll(m.content, b, d)
    ensures BackAtTop(pc) ==> |did.cached| == 1 && d != Decision.Cancelled
    ensures !pc.Applying? ==> Applied(env, b, d, did.applied)
  {
    hide Refusals, TellsAll, Applied;
    RefusalsTellAll(b, d);
  }

  // After an allowance, up to its next request or its end, a task starts tools at most
  // once, on exactly the calls the deny list left, and caches at most one message: what
  // became of them, or, at a stop, that they were stopped. It gets to a next round only
  // with the execution started and its outcome in the cache. Always-allow is remembered.
  lemma AllowedBatchRuns(env: Env, states: seq<State>, actions: seq<Action>, t: nat, i: nat, j: nat)
    requires StillDeciding(env, states, actions, t, i, j) && Allows(states[i].tasks[t].decision)
    ensures t in states[j].tasks
    ensures var b, d, pc := states[i].tasks[t].batch, states[i].tasks[t].decision, states[j].tasks[t];
      var did := Did(env, states, actions, t, i, j);
      && ViewOf(states[i].log, t) == View(Some(b), Some(d), false)
      && (did.starts == [] || did.starts == [b.remaining]) && |did.cached| <= 1
      && (forall m :: m in did.cached ==>
            && m.role == User
            && (TellsStopped(m.content, b.remaining) || (did.starts == [b.remaining] && Ran(b, m.content))))
      && (BackAtTop(pc) ==> did.starts == [b.remaining] && |did.cached| == 1 && Ran(b, did.cached[0].content))
      && (!pc.Applying? ==> Applied(env, b, d, did.applied))
  {
    hide Next, Init, CarriesOut, Did, Ran, ViewOf, Applied, Rejections;
    var b, d := states[i].tasks[t].batch, states[i].tasks[t].decision;
    DecidedView(env, states, actions, t, i);
    DecisionIsCarriedOut(env, states, actions, t, i, j);
    AllowedDeeds(env, b, d, states[j].tasks[t], Did(env, states, actions, t, i, j));
  }

  lemma AllowedDeeds(env: Env, b: Batch, d: Decision, pc: Pc, did: Deeds)
    requires CarriesOut(env, b, d, pc, did) && Allows(d)
    ensures (did.starts == [] || did.starts == [b.remaining]) && |did.cached| <= 1
    ensures forall m :: m in did.cached ==>
      && m.role == User
      && (TellsStopped(m.content, b.remaining) || (did.starts == [b.remaining] && Ran(b, m.content)))
    ensures BackAtTop(pc) ==> did.starts == [b.remaining] && |did.cached| == 1 && Ran(b, did.cached[0].content)
    ensures !pc.Applying? ==> Applied(env, b, d, did.applied)
  {
    hide Rejections, Applied, Ran;
  }

  lemma PushMove(env: Env, s: State, m: Message, resume: Resume)
    ensures Move(env, s, Pushing(m, resume), Go) == Some(Turn(Resumed(resume), Cache(m)))
  {}

  lemma NoSteps(env: Env, s: State, t: nat)
    ensures Steps(env, s, t, []) == Some(s)
  {}

  // ---------------------------------------------------------------- stopped replies

  // A block someone could see: anything but blank text.
  predicate Visible(b: ContentBlock) { b.Text? ==> exists k :: 0 <= k < |b.text| && !T.IsWhitespace(b.text[k]) }

  lemma TrimLeavesNothing(s: string)
    ensures T.Trim(s) == "" <==> forall k :: 0 <= k < |s| ==> T.IsWhitespace(s[k])
  {
    hide T.IsWhitespace, T.Blanks, T.TextEnd;
    var e := T.TextEnd(s);
    var b := T.Blanks(s[..e]);
    if b < e { assert s[..e][b] == s[b]; }
    assert forall k :: 0 <= k < b ==> s[..e][k] == s[k];
    assert e > 0 ==> !T.IsWhitespace(s[..e][e - 1]);
  }

  lemma MeaningfulIsVisible(blocks: seq<ContentBlock>)
    ensures Meaningful(blocks) <==> exists k :: 0 <= k < |blocks| && Visible(blocks[k])
  {
    hide T.Trim, T.IsWhitespace;
    forall k | 0 <= k < |blocks| ensures Visible(blocks[k]) <==> (blocks[k].Text? ==> T.Trim(blocks[k].text) != "") {
      if blocks[k].Text? { TrimLeavesNothing(blocks[k].text); }
    }
  }

  lemma PartialMoves(env: Env, s: State, i: nat, acc: A.Acc, id: int, now: int)
    ensures Meaningful(acc.blocks) && s.nextId <= id ==>
      Move(env, s, SavingPartial(i, acc), Row(id, now))
        == Some(Turn(Pushing(AssistantMessage(id, now, acc), Leaving(Stopped)), Insert(AssistantMessage(id, now, acc))))
    ensures !Meaningful(acc.blocks) ==>
      Move(env, s, SavingPartial(i, acc), Go) == Some(Turn(Closing(Stopped), Nothing))
    ensures Meaningful(acc.blocks) ==> Move(env, s, SavingPartial(i, acc), Go) == None
    ensures !Meaningful(acc.blocks) ==> Move(env, s, SavingPartial(i, acc), Row(id, now)) == None
  {
    hide Meaningful, TextContent;
  }

  // A stopped reply is kept, stored and cached once, exactly when some block of it could
  // be seen; otherwise the run ends and both histories are as they were.
  lemma StoppedReply(env: Env, s: State, t: nat, i: nat, acc: A.Acc, id: int, now: int)
    requires t in s.tasks && s.tasks[t] == SavingPartial(i, acc) && s.nextId <= id
    ensures (exists k :: 0 <= k < |acc.blocks| && Visible(acc.blocks[k])) ==>
      var s' := Steps(env, s, t, [Row(id, now), Go]);
      && Steps(env, s, t, [Go]) == None && s'.Some?
      && s'.value.stored == s.stored + [AssistantMessage(id, now, acc)]
      && s'.value.cached == s.cached + [AssistantMessage(id, now, acc)]
      && t in s'.value.tasks && s'.value.tasks[t] == Closing(Stopped)
    ensures !(exists k :: 0 <= k < |acc.blocks| && Visible(acc.blocks[k])) ==>
      var s' := Steps(env, s, t, [Go]);
      && Steps(env, s, t, [Row(id, now)]) == None && s'.Some?
      && s'.value.stored == s.stored && s'.value.cached == s.cached
      && t in s'.value.tasks && s'.value.tasks[t] == Closing(Stopped)
  {
    hide Move, Steps, Meaningful, AssistantMessage, Visible, Told;
    MeaningfulIsVisible(acc.blocks);
    PartialMoves(env, s, i, acc, id, now);
    if Meaningful(acc.blocks) {
      var m := AssistantMessage(id, now, acc);
      var t1, t2 := Turn(Pushing(m, Leaving(Stopped)), Insert(m)), Turn(Closing(Stopped), Cache(m));
      var s1 := Advance(s, t, t1);
      PushMove(env, s1, m, Leaving(Stopped));
      FirstStep(env, s, t, Row(id, now), [Go], t1);
      FirstStep(env, s1, t, Go, [], t2);
      NoSteps(env, Advance(s1, t, t2), t);
      NoStep(env, s, t, Go);
      assert [Row(id, now)] + [Go] == [Row(id, now), Go] && [Go] + [] == [Go];
    } else {
      FirstStep(env, s, t, Go, [], Turn(Closing(Stopped), Nothing));
      NoSteps(env, Advance(s, t, Turn(Closing(Stopped), Nothing)), t);
      NoStep(env, s, t, Row(id, now));
      assert [Go] + [] == [Go];
    }
  }

  // A stream that sees the stop is such a reply, with everything it had received.
  lemma StoppedStream(env: Env, s: State, t: nat, i: nat, acc: A.Acc, w: Wait, id: int, now: int)
    requires t in s.tasks && s.tasks[t] == Streaming(i, acc, w) && (w.Borrowing? || w.Woken?)
    requires s.cancel && s.nextId <= id
    ensures (exists k :: 0 <= k < |acc.blocks| && Visible(acc.blocks[k])) ==>
      var s' := Steps(env, s, t, [Go, Row(id, now), Go]);
      && s'.Some? && |s'.value.stored| == |s.stored| + 1 && t in s'.value.tasks
      && var m := s'.value.stored[|s.stored|];
         && m.id == id && m.createdAt == now && m.role == Assistant && m.content == acc.blocks
         && m.inputTokens == Some(acc.usage.inputTokens) && m.outputTokens == Some(acc.usage.outputTokens)
         && s'.value.stored == s.stored + [m] && s'.value.cached == s.cached + [m]
         && s'.value.tasks[t] == Closing(Stopped)
    ensures !(exists k :: 0 <= k < |acc.blocks| && Visible(acc.blocks[k])) ==>
      var s' := Steps(env, s, t, [Go, Go]);
      && s'.Some? && s'.value.stored == s.stored && s'.value.cached == s.cached
      && t in s'.value.tasks && s'.value.tasks[t] == Closing(Stopped)
  {
    hide Move, Steps, Visible, Told, TextContent;
    var turn := Turn(SavingPartial(i, acc), Nothing);
    StreamSeesStop(env, s, i, acc, w);
    var s1 := Advance(s, t, turn);
    FirstStep(env, s, t, Go, [Row(id, now), Go], turn);
    FirstStep(env, s, t, Go, [Go], turn);
    assert [Go] + [Row(id, now), Go] == [Go, Row(id, now), Go] && [Go] + [Go] == [Go, Go];
    StoppedReply(env, s1, t, i, acc, id, now);
  }

  lemma StreamSeesStop(env: Env, s: State, i: nat, acc: A.Acc, w: Wait)
    requires (w.Borrowing? || w.Woken?) && s.cancel
    ensures Move(env, s, Streaming(i, acc, w), Go) == Some(Turn(SavingPartial(i, acc), Nothing))
  {}

  lemma NoStep(env: Env, s: State, t: nat, c: Choice)
    requires t in s.tasks && Move(env, s, s.tasks[t], c) == None
    ensures Steps(env, s, t, [c]) == None
  {
    hide Move;
  }
}
