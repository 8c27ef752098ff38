// When the cache is the stored history in its order: writers insert in the order of their
// ids, but each pushes into the cache when it gets to it.

module CacheOrder {
  import opened Types
  import opened Session
  import opened Consistency
  import Runs

  // The stored messages that are cached, in stored order.
  function Kept(stored: seq<Message>, cached: seq<Message>): (r: seq<Message>)
    ensures forall m :: m in r <==> m in stored && m in cached
  {
    if stored == [] then []
    else
      var front, last := stored[..|stored| - 1], stored[|stored| - 1];
      assert stored == front + [last];
      Kept(front, cached) + (if last in cached then [last] else [])
  }

  predicate InOrder(s: State) { s.cached == Kept(s.stored, s.cached) }

  // A push that comes after the push of a message stored later.
  predicate Late(s: State, a: Action) {
    && a.Step? && a.task in s.tasks && s.tasks[a.task].Pushing? && a.choice == Go
    && exists n :: n in s.cached && s.tasks[a.task].msg.id < n.id
  }

  lemma {:induction false} KeptAppend(a: seq<Message>, b: seq<Message>, cached: seq<Message>)
    ensures Kept(a + b, cached) == Kept(a, cached) + Kept(b, cached)
    decreases |b|
  {
    if b == [] {
      assert a + b == a;
    } else {
      assert (a + b)[..|a + b| - 1] == a + b[..|b| - 1];
      KeptAppend(a, b[..|b| - 1], cached);
    }
  }

  lemma {:induction false} KeptOthers(msgs: seq<Message>, cached: seq<Message>, m: Message)
    requires m !in msgs
    ensures Kept(msgs, cached + [m]) == Kept(msgs, cached)
  {
    if msgs != [] { KeptOthers(msgs[..|msgs| - 1], cached, m); }
  }

  lemma {:induction false} KeptAll(stored: seq<Message>, cached: seq<Message>)
    requires forall m :: m in stored ==> m in cached
    ensures Kept(stored, cached) == stored
  {
    if stored != [] {
      var front, last := stored[..|stored| - 1], stored[|stored| - 1];
      KeptAll(front, cached);
      assert stored == front + [last];
      KeptAppend(front, [last], cached);
      KeptOne(last, cached);
      hide Kept;
    }
  }

  lemma KeptOne(m: Message, cached: seq<Message>)
    ensures Kept([m], cached) == if m in cached then [m] else []
  {
    assert [m][..0] == [];
  }

  // One more cached message keeps the order exactly when nothing stored after it is
  // cached yet.
  lemma OrderPush(a: seq<Message>, m: Message, b: seq<Message>, cached: seq<Message>)
    requires m !in a && m !in b && m !in cached
    requires forall n :: n in cached ==> n in a + [m] + b
    ensures Kept(a + [m] + b, cached + [m]) == cached + [m]
       <==> Kept(a + [m] + b, cached) == cached && forall n :: n in cached ==> n !in b
  {
    hide Kept;
    KeptAppend(a + [m], b, cached);
    KeptAppend(a, [m], cached);
    KeptAppend(a + [m], b, cached + [m]);
    KeptAppend(a, [m], cached + [m]);
    KeptOthers(a, cached, m);
    KeptOthers(b, cached, m);
    KeptOne(m, cached);
    KeptOne(m, cached + [m]);
    Interleaved(Kept(a, cached), m, Kept(b, cached), cached);
    assert Kept(b, cached) == [] <==> forall n :: n in cached ==> n !in b by {
      if Kept(b, cached) != [] { assert Kept(b, cached)[0] in Kept(b, cached); }
    }
  }

  lemma Interleaved(a: seq<Message>, m: Message, b: seq<Message>, cached: seq<Message>)
    requires m !in b && m !in cached && forall n :: n in b ==> n in cached
    ensures (a + [m]) + b == cached + [m] <==> (a + []) + b == cached && b == []
  {
    assert (a + []) + b == a + b;
    assert (cached + [m])[|cached|] == m;
    if b != [] {
      var all, last := (a + [m]) + b, b[|b| - 1];
      assert last in b && all[|all| - 1] == last;
    } else {
      assert (a + [m]) + b == a + [m];
      assert a == (a + [m])[..|a|] && cached == (cached + [m])[..|cached|];
    }
  }

  // ---------------------------------------------------------------- runs

  predicate AscendFrom(msgs: seq<Message>, base: nat) {
    base <= |msgs| && forall i, j :: 0 <= i < j < |msgs| && base <= j ==> msgs[i].id < msgs[j].id
  }

  // What was inserted since the session began stands in the order of its ids, and only
  // such messages are on their way.
  ghost predicate Inserted(s: State, base: nat) {
    && base <= |s.stored| && AscendFrom(s.stored, base)
    && forall t, m :: InFlight(s, t, m) ==> m in s.stored[base..]
  }

  lemma InsertAscends(s: State, base: nat, m: Message)
    requires AscendFrom(s.stored, base) && forall n :: n in s.stored ==> n.id < m.id
    ensures AscendFrom(s.stored + [m], base)
    ensures forall n :: n in s.stored[base..] || n == m ==> n in (s.stored + [m])[base..]
  {
    var all := s.stored + [m];
    assert all[base..] == s.stored[base..] + [m];
  }

  lemma InsertedStep(env: Env, s: State, a: Action, s': State, base: nat)
    requires Inserted(s, base) && Filed(s) && Next(env, s, a) == Some(s')
    ensures Inserted(s', base)
  {
    hide Move, AscendFrom, TornIds;
    match a {
      case Spawn(t, pc) => forall u, m | InFlight(s', u, m) ensures InFlight(s, u, m) {}
      case Configure(_) => forall u, m | InFlight(s', u, m) ensures InFlight(s, u, m) {}
      case Step(t, c) =>
        var turn := Move(env, s, s.tasks[t], c).value;
        MovesAreFiling(env, s, s.tasks[t], c, turn);
        if turn.effect.Insert? { InsertAscends(s, base, turn.effect.msg); }
        forall u, m | InFlight(s', u, m)
          ensures m in s'.stored[base..]
        {
          if u != t { assert InFlight(s, u, m); }
        }
    }
  }

  // Where a message inserted since stands among the stored ones.
  lemma PlaceOf(stored: seq<Message>, base: nat, m: Message) returns (i: nat)
    requires AscendFrom(stored, base) && m in stored[base..]
    ensures i < |stored| && stored == stored[..i] + [m] + stored[i + 1..]
    ensures forall n :: n in stored[..i] ==> n.id < m.id
    ensures forall n :: n in stored[i + 1..] ==> m.id < n.id
  {
    var k :| 0 <= k < |stored| - base && stored[base..][k] == m;
    i := base + k;
    assert stored[i] == m;
  }

  // One step: the order is kept exactly by a push that is not late.
  lemma OrderStep(env: Env, s: State, a: Action, s': State, base: nat)
    requires Inserted(s, base) && Filed(s) && Next(env, s, a) == Some(s')
    ensures InOrder(s') <==> InOrder(s) && !Late(s, a)
  {
    hide Move, Kept, Inserted, Filed;
    if a.Step? {
      var pc := s.tasks[a.task];
      var turn := Move(env, s, pc, a.choice).value;
      PushingMoves(env, s, pc, a.choice, turn);
      if turn.effect.Cache? {
        var m := pc.msg;
        WriterKnown(s, base, a.task);
        var i := PlaceOf(s.stored, base, m);
        CachedAreStored(s);
        assert forall n :: n in s.stored <==> n in s.stored[..i] || n == m || n in s.stored[i + 1..];
        OrderPush(s.stored[..i], m, s.stored[i + 1..], s.cached);
      } else if turn.effect.Insert? {
        InsertOrder(s, turn.effect.msg);
      }
    }
  }

  lemma WriterKnown(s: State, base: nat, t: nat)
    requires Inserted(s, base) && Filed(s) && t in s.tasks && s.tasks[t].Pushing?
    ensures AscendFrom(s.stored, base) && s.tasks[t].msg in s.stored[base..] && s.tasks[t].msg !in s.cached
  {
    hide AscendFrom, TornIds;
    assert InFlight(s, t, s.tasks[t].msg);
  }

  lemma CachedAreStored(s: State)
    requires Filed(s)
    ensures forall m :: m in s.cached ==> m in s.stored && m.id < s.nextId
  {
    hide TornIds;
  }

  lemma InsertOrder(s: State, m: Message)
    requires Filed(s) && s.nextId <= m.id
    ensures Kept(s.stored + [m], s.cached) == Kept(s.stored, s.cached)
  {
    hide Kept, Filed;
    CachedAreStored(s);
    KeptAppend(s.stored, [m], s.cached);
    KeptOne(m, s.cached);
    assert Kept(s.stored, s.cached) + [] == Kept(s.stored, s.cached);
  }

  lemma PushingMoves(env: Env, s: State, pc: Pc, c: Choice, turn: Turn)
    requires Move(env, s, pc, c) == Some(turn)
    ensures turn.effect.Cache? <==> pc.Pushing? && c == Go
    ensures turn.effect.Cache? ==> turn.effect.msg == pc.msg
    ensures turn.effect.Insert? ==> s.nextId <= turn.effect.msg.id
  {
    hide Move;
    MovesAreFiling(env, s, pc, c, turn);
    if pc.Pushing? { PushMoves(env, s, pc, c, turn); }
  }

  lemma PushMoves(env: Env, s: State, pc: Pc, c: Choice, turn: Turn)
    requires pc.Pushing? && Move(env, s, pc, c) == Some(turn)
    ensures turn.effect == if c == Go then Cache(pc.msg) else Tear(pc.msg)
  {}

  lemma {:induction false} StaysInserted(env: Env, states: seq<State>, actions: seq<Action>, k: nat)
    requires Execution(env, states, actions) && k <= |actions|
    ensures Inserted(states[k], |states[0].stored|) && Filed(states[k])
  {
    hide Next, Filed, AscendFrom, Runs.Safe;
    Runs.ExecutionIsSafe(env, states, actions, k);
    FiledWhenSafe(env, states[k]);
    if k == 0 {
      NothingInserted(states[0]);
    } else {
      StaysInserted(env, states, actions, k - 1);
      InsertedStep(env, states[k - 1], actions[k - 1], states[k], |states[0].stored|);
    }
  }

  lemma FiledWhenSafe(env: Env, s: State)
    requires Runs.Safe(env, s)
    ensures Filed(s)
  {}

  lemma NothingInserted(s: State)
    requires Init(s)
    ensures Inserted(s, |s.stored|)
  {}

  // Over every execution the cache holds its messages in their stored order exactly when
  // no push was late.
  lemma {:induction false} InOrderIffNoneLate(env: Env, states: seq<State>, actions: seq<Action>, k: nat)
    requires Execution(env, states, actions) && k <= |actions|
    ensures InOrder(states[k]) <==> forall n :: 0 <= n < k ==> !Late(states[n], actions[n])
  {
    hide Next, InOrder, Late, Inserted, Filed;
    if k == 0 {
      StartsInOrder(states[0]);
    } else {
      InOrderIffNoneLate(env, states, actions, k - 1);
      StaysInserted(env, states, actions, k - 1);
      OrderStep(env, states[k - 1], actions[k - 1], states[k], |states[0].stored|);
    }
  }

  lemma StartsInOrder(s: State)
    requires Init(s)
    ensures InOrder(s)
  {
    KeptAll(s.stored, s.cached);
  }

  // With no writer on its way the cache is the stored history, in its order, if and only
  // if no write was torn and no push was late.
  lemma CacheIsStorageInOrder(env: Env, states: seq<State>, actions: seq<Action>, k: nat)
    requires Execution(env, states, actions) && k <= |actions|
    requires forall t :: t in states[k].tasks ==> !states[k].tasks[t].Pushing?
    ensures states[k].cached == states[k].stored <==>
      && (forall o :: o in states[k].log ==> !o.Torn?)
      && (forall n :: 0 <= n < k ==> !Late(states[n], actions[n]))
  {
    hide Next, Init, Late, Kept, Runs.Safe;
    var s := states[k];
    InOrderIffNoneLate(env, states, actions, k);
    Runs.ExecutionIsSafe(env, states, actions, k);
    FiledWhenSafe(env, s);
    QuietMeansEqual(s);
    Runs.NothingTorn(s.log);
    KeptWhenSame(s.stored, s.cached);
  }

  lemma KeptWhenSame(stored: seq<Message>, cached: seq<Message>)
    ensures multiset(cached) == multiset(stored) ==> Kept(stored, cached) == stored
  {
    if multiset(cached) == multiset(stored) {
      forall m | m in stored ensures m in cached { assert m in multiset(cached); }
      KeptAll(stored, cached);
    }
  }
}
