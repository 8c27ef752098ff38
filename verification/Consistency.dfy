// The cache of a session and the stored history of its conversation.

module Consistency {
  import opened Types
  import opened Session
  import opened Approval

  // ---------------------------------------------------------------- one move

  // A message is inserted, carried by its writer, and pushed into the cache, or given up
  // there when its write turns out torn.
  predicate Filing(s: State, pc: Pc, turn: Turn) {
    match turn.effect
    case Insert(m) => s.nextId <= m.id && !pc.Pushing? && Carries(turn.pc, m)
    case Cache(m) => Carries(pc, m) && !turn.pc.Pushing?
    case Tear(m) => Carries(pc, m) && !turn.pc.Pushing?
    case _ => !pc.Pushing? && !turn.pc.Pushing?
  }

  predicate Carries(pc: Pc, m: Message) { pc.Pushing? && pc.msg == m }

  lemma RunIsFiling(s: State, pc: Pc, c: Choice, turn: Turn)
    requires MoveRun(s, pc, c) == Some(turn)
    ensures Filing(s, pc, turn)
  {}

  lemma ReplyIsFiling(env: Env, s: State, pc: Pc, c: Choice, turn: Turn)
    requires MoveReply(env, s, pc, c) == Some(turn)
    ensures Filing(s, pc, turn)
  {
    hide MakeBatch, NeedsApproval, CallsOf, Rejections, Meaningful;
  }

  lemma PromptIsFiling(env: Env, s: State, pc: Pc, c: Choice, turn: Turn)
    requires MovePrompt(env, s, pc, c) == Some(turn)
    ensures Filing(s, pc, turn)
  {
    hide Remember, Rejections;
  }

  lemma ToolsIsFiling(s: State, pc: Pc, c: Choice, turn: Turn)
    requires MoveTools(s, pc, c) == Some(turn)
    ensures Filing(s, pc, turn)
  {
    hide Rejections, Joined, Answers;
  }

  lemma CommandIsFiling(s: State, pc: Pc, c: Choice, turn: Turn)
    requires MoveCommand(s, pc, c) == Some(turn)
    ensures Filing(s, pc, turn)
  {}

  lemma MovesAreFiling(env: Env, s: State, pc: Pc, c: Choice, turn: Turn)
    requires Move(env, s, pc, c) == Some(turn)
    ensures Filing(s, pc, turn)
  {
    hide MoveRun, MoveReply, MovePrompt, MoveTools, MoveCommand, Filing;
    match PhaseOf(pc) {
      case InLoop => RunIsFiling(s, pc, c, turn);
      case InReply => ReplyIsFiling(env, s, pc, c, turn);
      case InPrompt => PromptIsFiling(env, s, pc, c, turn);
      case InTools => ToolsIsFiling(s, pc, c, turn);
      case InCommand => CommandIsFiling(s, pc, c, turn);
    }
  }

  // ---------------------------------------------------------------- the invariant

  predicate InFlight(s: State, t: nat, m: Message) { t in s.tasks && Carries(s.tasks[t], m) }

  // The ids of the messages whose write was torn: stored, and reported as an error.
  function TornIds(log: seq<Obs>): set<int> { set o | o in log && o.Torn? :: o.id }

  lemma TornAfter(log: seq<Obs>, t: nat, e: Effect)
    ensures TornIds(log + Told(t, e)) == TornIds(log) + (if e.Tear? then {e.msg.id} else {})
  {
    var told := Told(t, e);
    assert forall o :: o in log + told <==> o in log || o in told;
    if e.Tear? {
      assert told == [Torn(t, e.msg.id)] && told[0] in log + told;
    } else {
      assert forall o :: o in told ==> !o.Torn?;
    }
    forall i | i in TornIds(log) ensures i in TornIds(log + told) {
      var o :| o in log && o.Torn? && o.id == i;
      assert o in log + told;
    }
  }

  // Stored messages have distinct ids; the cache has each at most once; and a stored
  // message is cached, carried by exactly one writer, or torn, and only one of the three.
  ghost predicate Filed(s: State) {
    OncePerId(s) && OnTheWay(s) && TornApart(s) && Accounted(s)
  }

  ghost predicate OncePerId(s: State) {
    && Distinct(s.stored) && (forall m :: m in s.stored ==> m.id < s.nextId)
    && Distinct(s.cached) && (forall m :: m in s.cached ==> m in s.stored)
  }

  ghost predicate OnTheWay(s: State) {
    && (forall t, m :: InFlight(s, t, m) ==> m in s.stored && m !in s.cached && m.id !in TornIds(s.log))
    && (forall t, u, m :: InFlight(s, t, m) && InFlight(s, u, m) ==> t == u)
  }

  ghost predicate TornApart(s: State) {
    && (forall m :: m in s.cached ==> m.id !in TornIds(s.log))
    && (forall i :: i in TornIds(s.log) ==> exists m :: m in s.stored && m.id == i)
  }

  ghost predicate Accounted(s: State) {
    forall m :: m in s.stored && m !in s.cached && m.id !in TornIds(s.log) ==> exists t :: InFlight(s, t, m)
  }

  lemma DistinctPush(msgs: seq<Message>, m: Message)
    requires Distinct(msgs) && forall n :: n in msgs ==> n.id != m.id
    ensures Distinct(msgs + [m])
  {}

  // In a list of distinct ids, two messages with one id are one message.
  lemma OnePerId(msgs: seq<Message>, m: Message, n: Message)
    requires Distinct(msgs) && m in msgs && n in msgs && m.id == n.id
    ensures m == n
  {}

  // The step of a writer that has just stored its message.
  ghost predicate Inserts(s: State, t: nat, m: Message, s': State) {
    && s'.stored == s.stored + [m] && s'.cached == s.cached && m.id == s'.nextId - 1 && s.nextId <= m.id
    && TornIds(s'.log) == TornIds(s.log)
    && forall u, n :: InFlight(s', u, n) <==> InFlight(s, u, n) || (u == t && n == m)
  }

  lemma InsertingStep(s: State, t: nat, turn: Turn)
    requires t in s.tasks && Filing(s, s.tasks[t], turn) && turn.effect.Insert?
    ensures Inserts(s, t, turn.effect.msg, Advance(s, t, turn))
  {
    hide TornIds;
    TornAfter(s.log, t, turn.effect);
  }

  lemma NewMessage(s: State, m: Message)
    requires OncePerId(s) && TornApart(s) && s.nextId <= m.id
    ensures m !in s.stored && m !in s.cached && m.id !in TornIds(s.log)
  {
    hide TornIds;
  }

  lemma InsertKeeps(s: State, t: nat, turn: Turn)
    requires Filed(s) && t in s.tasks && Filing(s, s.tasks[t], turn) && turn.effect.Insert?
    ensures Filed(Advance(s, t, turn))
  {
    hide TornIds, InFlight, Inserts, OncePerId, OnTheWay, TornApart, Accounted, Filing, Advance;
    var s', m := Advance(s, t, turn), turn.effect.msg;
    InsertingStep(s, t, turn);
    NewMessage(s, m) by { assert s.nextId <= m.id by { InsertedId(s, t, m, s'); } }
    InsertKeepsIds(s, t, m, s');
    InsertKeepsWriters(s, t, m, s');
    InsertKeepsAccount(s, t, m, s');
  }

  lemma InsertedId(s: State, t: nat, m: Message, s': State)
    requires Inserts(s, t, m, s')
    ensures s.nextId <= m.id
  {}

  lemma InsertKeepsIds(s: State, t: nat, m: Message, s': State)
    requires Inserts(s, t, m, s') && OncePerId(s) && TornApart(s)
    ensures OncePerId(s') && TornApart(s')
  {
    hide TornIds, InFlight;
    DistinctPush(s.stored, m);
    assert forall n :: n in s.stored ==> n in s'.stored;
  }

  lemma InsertKeepsWriters(s: State, t: nat, m: Message, s': State)
    requires Inserts(s, t, m, s') && OnTheWay(s)
    requires m !in s.stored && m !in s.cached && m.id !in TornIds(s.log)
    ensures OnTheWay(s')
  {
    hide TornIds, InFlight;
  }

  lemma InsertKeepsAccount(s: State, t: nat, m: Message, s': State)
    requires Inserts(s, t, m, s') && Accounted(s)
    ensures Accounted(s')
  {
    hide TornIds, InFlight;
    forall n | n in s'.stored && n !in s'.cached && n.id !in TornIds(s'.log)
      ensures exists u :: InFlight(s', u, n)
    {
      if n == m {
        assert InFlight(s', t, m);
      } else {
        var u :| InFlight(s, u, n);
        assert InFlight(s', u, n);
      }
    }
  }

  // A writer leaves its message behind, in the cache or torn.
  lemma LetGo(s: State, t: nat, turn: Turn)
    requires Filed(s) && t in s.tasks && Filing(s, s.tasks[t], turn) && (turn.effect.Cache? || turn.effect.Tear?)
    ensures InFlight(s, t, turn.effect.msg) && forall n :: InFlight(s, t, n) ==> n == turn.effect.msg
    ensures forall n :: n in s.stored && n.id == turn.effect.msg.id ==> n == turn.effect.msg
    ensures forall u, n :: InFlight(Advance(s, t, turn), u, n) <==> u != t && InFlight(s, u, n)
    ensures forall u, n :: u != t && InFlight(s, u, n) ==> n != turn.effect.msg
  {
    hide TornIds;
    var s', m := Advance(s, t, turn), turn.effect.msg;
    assert InFlight(s, t, m);
    forall n | n in s.stored && n.id == m.id ensures n == m { OnePerId(s.stored, m, n); }
    forall u, n ensures InFlight(s', u, n) <==> u != t && InFlight(s, u, n) {}
  }

  // The step of a writer that leaves its message in the cache, or torn.
  ghost predicate Leaves(s: State, t: nat, m: Message, s': State) {
    && s'.stored == s.stored && s'.nextId == s.nextId
    && (|| (s'.cached == s.cached + [m] && TornIds(s'.log) == TornIds(s.log))
        || (s'.cached == s.cached && TornIds(s'.log) == TornIds(s.log) + {m.id}))
    && InFlight(s, t, m)
    && (forall n :: n in s.stored && n.id == m.id ==> n == m)
    && (forall u, n :: InFlight(s', u, n) <==> u != t && InFlight(s, u, n))
    && (forall u, n :: u != t && InFlight(s, u, n) ==> n != m)
    && (forall n :: InFlight(s, t, n) ==> n == m)
  }

  lemma LeaveKeeps(s: State, t: nat, turn: Turn)
    requires Filed(s) && t in s.tasks && Filing(s, s.tasks[t], turn) && (turn.effect.Cache? || turn.effect.Tear?)
    ensures Filed(Advance(s, t, turn))
  {
    hide TornIds, InFlight, OncePerId, OnTheWay, TornApart, Accounted, Filing;
    var s', m := Advance(s, t, turn), turn.effect.msg;
    LetGo(s, t, turn);
    TornAfter(s.log, t, turn.effect);
    assert Leaves(s, t, m, s');
    LeaveKeepsIds(s, t, m, s');
    LeaveKeepsWriters(s, t, m, s');
    LeaveKeepsAccount(s, t, m, s');
  }

  lemma LeaveKeepsIds(s: State, t: nat, m: Message, s': State)
    requires Leaves(s, t, m, s') && OncePerId(s) && TornApart(s) && OnTheWay(s)
    ensures OncePerId(s') && TornApart(s')
  {
    hide TornIds, InFlight;
    assert m in s.stored && m !in s.cached && m.id !in TornIds(s.log);
    forall n | n in s.cached ensures n.id != m.id {}
    if s'.cached != s.cached { DistinctPush(s.cached, m); }
  }

  lemma LeaveKeepsWriters(s: State, t: nat, m: Message, s': State)
    requires Leaves(s, t, m, s') && OnTheWay(s)
    ensures OnTheWay(s')
  {
    hide TornIds, InFlight;
  }

  lemma LeaveKeepsAccount(s: State, t: nat, m: Message, s': State)
    requires Leaves(s, t, m, s') && Accounted(s)
    ensures Accounted(s')
  {
    hide TornIds, InFlight;
    forall n | n in s'.stored && n !in s'.cached && n.id !in TornIds(s'.log)
      ensures exists u :: InFlight(s', u, n)
    {
      if s'.cached != s.cached { assert m in s'.cached; }
      var u :| InFlight(s, u, n);
      assert InFlight(s', u, n);
    }
  }

  lemma OtherKeeps(s: State, s': State, t: nat, pc: Pc)
    requires Filed(s) && !pc.Pushing? && (t in s.tasks ==> !s.tasks[t].Pushing?)
    requires s'.tasks == s.tasks[t := pc] && TornIds(s'.log) == TornIds(s.log)
    requires s'.stored == s.stored && s'.cached == s.cached && s'.nextId == s.nextId
    ensures Filed(s')
  {
    hide TornIds;
    SameFlight(s, s');
  }

  // With the same writers on their way the condition is the same.
  lemma SameFlight(s: State, s': State)
    requires Filed(s) && s'.stored == s.stored && s'.cached == s.cached && s'.nextId == s.nextId
    requires TornIds(s'.log) == TornIds(s.log)
    requires forall u, n :: InFlight(s', u, n) <==> InFlight(s, u, n)
    ensures Filed(s')
  {
    hide TornIds, InFlight;
    forall n | n in s'.stored && n !in s'.cached && n.id !in TornIds(s'.log)
      ensures exists u :: InFlight(s', u, n)
    {
      var u :| InFlight(s, u, n);
      assert InFlight(s', u, n);
    }
  }

  lemma FiledStep(env: Env, s: State, a: Action, s': State)
    requires Filed(s) && Next(env, s, a) == Some(s')
    ensures Filed(s')
  {
    hide Move, Filed, TornIds;
    match a {
      case Spawn(t, pc) => OtherKeeps(s, s', t, pc);
      case Configure(cfg) => ConfigureFiled(s, cfg);
      case Step(t, c) =>
        var turn := Move(env, s, s.tasks[t], c).value;
        MovesAreFiling(env, s, s.tasks[t], c, turn);
        match turn.effect {
          case Insert(_) => InsertKeeps(s, t, turn);
          case Cache(_) => LeaveKeeps(s, t, turn);
          case Tear(_) => LeaveKeeps(s, t, turn);
          case _ =>
            TornAfter(s.log, t, turn.effect);
            OtherKeeps(s, s', t, turn.pc);
        }
    }
  }

  lemma ConfigureFiled(s: State, cfg: Config)
    requires Filed(s)
    ensures Filed(s.(cfg := cfg))
  {
    SameFlight(s, s.(cfg := cfg));
  }

  lemma InitFiled(s: State)
    requires Init(s)
    ensures Filed(s)
  {}

  // ---------------------------------------------------------------- agreement

  function Ids(msgs: seq<Message>): set<int> { set m | m in msgs :: m.id }

  function CarriedIds(s: State): set<int> {
    set t | t in s.tasks && s.tasks[t].Pushing? :: s.tasks[t].msg.id
  }

  // Stored ids are the cached ids, those of the writers on their way, and the torn ones,
  // without overlap.
  lemma StoredIsCachedPlusCarried(s: State)
    requires Filed(s)
    ensures Ids(s.stored) == Ids(s.cached) + CarriedIds(s) + TornIds(s.log)
    ensures Ids(s.cached) !! CarriedIds(s) !! TornIds(s.log)
  {
    hide TornIds;
    forall i | i in Ids(s.stored) ensures i in Ids(s.cached) + CarriedIds(s) + TornIds(s.log) {
      var m :| m in s.stored && m.id == i;
      if m !in s.cached && i !in TornIds(s.log) {
        var t :| InFlight(s, t, m);
        assert s.tasks[t].msg.id in CarriedIds(s);
      }
    }
    forall i | i in CarriedIds(s)
      ensures i in Ids(s.stored) && i !in Ids(s.cached) && i !in TornIds(s.log)
    {
      var t :| t in s.tasks && s.tasks[t].Pushing? && s.tasks[t].msg.id == i;
      var m := s.tasks[t].msg;
      assert InFlight(s, t, m);
      if i in Ids(s.cached) {
        var n :| n in s.cached && n.id == i;
        OnePerId(s.stored, m, n);
      }
    }
    forall i | i in TornIds(s.log) ensures i in Ids(s.stored) && i !in Ids(s.cached) {
      var m :| m in s.stored && m.id == i;
    }
  }

  lemma {:induction false} DistinctCounts(msgs: seq<Message>, m: Message)
    requires Distinct(msgs)
    ensures multiset(msgs)[m] == if m in msgs then 1 else 0
  {
    if msgs != [] {
      assert msgs == msgs[..|msgs| - 1] + [msgs[|msgs| - 1]];
      DistinctCounts(msgs[..|msgs| - 1], m);
    }
  }

  // Lists of distinct ids with the same members are equal as multisets.
  lemma SameMembers(a: seq<Message>, b: seq<Message>)
    requires Distinct(a) && Distinct(b) && forall m :: m in a <==> m in b
    ensures multiset(a) == multiset(b)
  {
    forall m ensures multiset(a)[m] == multiset(b)[m] {
      DistinctCounts(a, m);
      DistinctCounts(b, m);
    }
  }

  // With no writer on its way the cache is the stored history, message for message, if
  // and only if no write was torn.
  lemma QuietMeansEqual(s: State)
    requires Filed(s) && forall t :: t in s.tasks ==> !s.tasks[t].Pushing?
    ensures multiset(s.cached) == multiset(s.stored) <==> TornIds(s.log) == {}
  {
    hide TornIds;
    assert forall t, m :: !InFlight(s, t, m);
    var torn := TornIds(s.log);
    if torn == {} {
      forall m | m in s.stored ensures m in s.cached { assert m.id !in torn; }
      SameMembers(s.cached, s.stored);
    } else {
      var i := Member(torn);
      var m :| m in s.stored && m.id == i;
      assert m in multiset(s.stored) && m !in multiset(s.cached);
    }
  }

  lemma Member<T>(members: set<T>) returns (x: T)
    requires members != {}
    ensures x in members
  {
    x :| x in members;
  }
}
