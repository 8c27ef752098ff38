// ConversationManager::get_or_create_session (clareon-core/src/conversation/manager.rs):
// callers race through a read lock, a write lock and a second look.

module Manager {
  import opened Types

  type ConvId = string

  // Where a caller stands. Sessions are told apart by a serial number.
  datatype Pc =
    | Looking(id: ConvId)
    | WantingWrite(id: ConvId)
    | LookingAgain(id: ConvId)
    | LoadingConversation(id: ConvId)
    | LoadingMessages(id: ConvId)
    | Inserting(id: ConvId, session: nat)
    | Got(id: ConvId, session: nat)
    | Failed(id: ConvId)

  datatype State = State(
    tasks: map<nat, Pc>,
    sessions: map<ConvId, nat>,
    writer: Option<nat>,
    created: nat)

  datatype Choice = Go | Fail

  datatype Action = Call(task: nat, id: ConvId) | Step(task: nat, choice: Choice)

  // The write lock is held from the second look to the end of the call.
  predicate Holds(pc: Pc) {
    pc.LookingAgain? || pc.LoadingConversation? || pc.LoadingMessages? || pc.Inserting?
  }

  function Put(s: State, t: nat, pc: Pc): State { s.(tasks := s.tasks[t := pc]) }

  function Move(s: State, t: nat, pc: Pc, c: Choice): Option<State> {
    match pc
    case Looking(id) =>
      if s.writer.Some? || c != Go then None
      else if id in s.sessions then Some(Put(s, t, Got(id, s.sessions[id])))
      else Some(Put(s, t, WantingWrite(id)))
    case WantingWrite(id) =>
      if s.writer.Some? || c != Go then None else Some(Put(s, t, LookingAgain(id)).(writer := Some(t)))
    case LookingAgain(id) =>
      if c != Go then None
      else if id in s.sessions then Some(Put(s, t, Got(id, s.sessions[id])).(writer := None))
      else Some(Put(s, t, LoadingConversation(id)))
    case LoadingConversation(id) =>
      if c == Fail then Some(Put(s, t, Failed(id)).(writer := None)) else Some(Put(s, t, LoadingMessages(id)))
    case LoadingMessages(id) =>
      if c == Fail then Some(Put(s, t, Failed(id)).(writer := None))
      else Some(Put(s, t, Inserting(id, s.created)).(created := s.created + 1))
    case Inserting(id, x) =>
      if c != Go then None
      else Some(Put(s, t, Got(id, x)).(sessions := s.sessions[id := x], writer := None))
    case _ => None
  }

  function Next(s: State, a: Action): Option<State> {
    match a
    case Call(t, id) => if t in s.tasks then None else Some(Put(s, t, Looking(id)))
    case Step(t, c) => if t !in s.tasks then None else Move(s, t, s.tasks[t], c)
  }

  const INITIAL := State(map[], map[], None, 0)

  ghost predicate Execution(states: seq<State>, actions: seq<Action>) {
    && |states| == |actions| + 1 && states[0] == INITIAL
    && forall k :: 0 <= k < |actions| ==> Next(states[k], actions[k]) == Some(states[k + 1])
  }

  // ---------------------------------------------------------------- the invariant

  predicate TaskOk(s: State, t: nat, pc: Pc) {
    && (Holds(pc) <==> s.writer == Some(t))
    && (pc.LoadingConversation? || pc.LoadingMessages? || pc.Inserting? ==> pc.id !in s.sessions)
    && (pc.Inserting? ==> pc.session < s.created && pc.session !in s.sessions.Values)
    && (pc.Got? ==> pc.id in s.sessions && s.sessions[pc.id] == pc.session)
  }

  ghost predicate Inv(s: State) {
    && (forall t :: t in s.tasks ==> TaskOk(s, t, s.tasks[t]))
    && (s.writer.Some? ==> s.writer.value in s.tasks)
    && (forall id :: id in s.sessions ==> s.sessions[id] < s.created)
    && (forall id, id' :: id in s.sessions && id' in s.sessions && s.sessions[id] == s.sessions[id'] ==> id == id')
  }

  lemma StepKeeps(s: State, a: Action)
    requires Inv(s) && Next(s, a).Some?
    ensures Inv(Next(s, a).value)
    ensures forall id :: id in s.sessions ==>
              id in Next(s, a).value.sessions && Next(s, a).value.sessions[id] == s.sessions[id]
  {
    var s' := Next(s, a).value;
    if a.Step? {
      assert TaskOk(s, a.task, s.tasks[a.task]);
    }
    forall t | t in s'.tasks
      ensures TaskOk(s', t, s'.tasks[t])
    {
      if t != a.task { assert TaskOk(s, t, s.tasks[t]); }
    }
  }

  lemma {:induction false} ExecutionKeeps(states: seq<State>, actions: seq<Action>, i: nat, j: nat)
    requires Execution(states, actions) && i <= j <= |actions|
    ensures Inv(states[j])
    ensures forall id :: id in states[i].sessions ==>
              id in states[j].sessions && states[j].sessions[id] == states[i].sessions[id]
    decreases j
  {
    hide Inv, Next;
    if j == 0 {
      InitialInv();
    } else {
      ExecutionKeeps(states, actions, if i < j then i else i - 1, j - 1);
      assert Next(states[j - 1], actions[j - 1]) == Some(states[j]);
      StepKeeps(states[j - 1], actions[j - 1]);
    }
  }

  lemma InitialInv()
    ensures Inv(INITIAL)
  {}

  // However the callers interleave and whenever they ask, all that get a session for one
  // conversation get the same one, and two conversations never share one.
  lemma OneSessionPerConversation(states: seq<State>, actions: seq<Action>, i: nat, j: nat, t: nat, u: nat)
    requires Execution(states, actions) && i <= j <= |actions|
    requires t in states[i].tasks && states[i].tasks[t].Got?
    requires u in states[j].tasks && states[j].tasks[u].Got?
    ensures states[i].tasks[t].session == states[j].tasks[u].session
       <==> states[i].tasks[t].id == states[j].tasks[u].id
  {
    hide Next;
    ExecutionKeeps(states, actions, i, i);
    ExecutionKeeps(states, actions, i, j);
    assert TaskOk(states[i], t, states[i].tasks[t]);
    assert TaskOk(states[j], u, states[j].tasks[u]);
  }
}
