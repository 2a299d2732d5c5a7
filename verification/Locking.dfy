/**
Who waits for whom. Workspace rows are locked in id order, then a memory, then its outbox row;
Reindex alone goes back from an outbox row to another memory.
*/
module Locking {
  import opened Wrappers
  import opened Memories
  import opened Commits
  import opened Qdrant
  import opened Protocol
  import opened Safety
  import opened Paths

  ghost predicate Waits(s: State, t: Tid, u: Tid) {
    && t in s.txs && u in s.txs && t != u
    && var need := Needs(s.db, s.txs[t], NoPick); need.Some? && Holds(s.txs[u], need.value)
  }

  ghost predicate Blocked(s: State, t: Tid) {
    exists u :: Waits(s, t, u)
  }

  /** All Reindex runs in progress visit memories along one common order. */
  ghost predicate Ordered(s: State, order: Id -> nat) {
    forall t, i, j | t in s.txs && s.txs[t].Reindexing? && 0 <= i < j < |s.txs[t].r.items| ::
      order(s.txs[t].r.items[i].0) < order(s.txs[t].r.items[j].0)
  }

  ghost predicate OneReindex(s: State) {
    forall t, u | t in s.txs && u in s.txs && s.txs[t].Reindexing? && s.txs[u].Reindexing? :: t == u
  }

  // ---- an outbox row is never contended ----

  lemma OutboxHolderHasMemory(tx: Tx)
    ensures Jobs(tx) <= Rows(tx)
  {
  }

  lemma OutboxAskerHasMemory(db: Db, h: History, index: Index, lost: set<Id>, tx: Tx)
    requires TxOk(db, h, index, lost, tx)
    ensures var need := Needs(db, tx, NoPick); need.Some? && need.value.OutboxRow? ==> need.value.id in Rows(tx)
  {
  }

  lemma NeverWaitsForOutbox(s: State, t: Tid, u: Tid)
    requires LocksOk(s) && TxsOk(s) && Waits(s, t, u)
    ensures !Needs(s.db, s.txs[t], NoPick).value.OutboxRow?
  {
    assert TxOk(s.db, s.history, s.index, s.lost, s.txs[t]);
    OutboxAskerHasMemory(s.db, s.history, s.index, s.lost, s.txs[t]);
    OutboxHolderHasMemory(s.txs[u]);
    assert Exclusive(s.txs[t], s.txs[u]);
  }

  // ---- every wait climbs ----

  ghost predicate Below(a: Lock, b: Lock, order: Id -> nat) {
    match (a, b)
    case (Scope(v), Scope(w)) => v < w
    case (Scope(_), MemoryRow(_)) => true
    case (MemoryRow(m), MemoryRow(n)) => order(m) < order(n)
    case _ => false
  }

  // What a transaction that is waiting waits for.
  ghost function Wanted(s: State, t: Tid): Lock
    requires Blocked(s, t)
  {
    Needs(s.db, s.txs[t], NoPick).value
  }

  lemma ScopeHolderAsksHigher(db: Db, h: History, index: Index, lost: set<Id>, tx: Tx, ws: Id, order: Id -> nat)
    requires TxOk(db, h, index, lost, tx) && Holds(tx, Scope(ws))
    ensures var need := Needs(db, tx, NoPick);
            need.Some? && !need.value.OutboxRow? ==> Below(Scope(ws), need.value, order)
  {
  }

  // Only Reindex asks for a memory while it holds one.
  lemma RowHolderAsksHigher(db: Db, h: History, index: Index, lost: set<Id>, tx: Tx, id: Id, order: Id -> nat)
    requires TxOk(db, h, index, lost, tx) && Holds(tx, MemoryRow(id))
    requires tx.Reindexing? ==>
             forall i, j | 0 <= i < j < |tx.r.items| :: order(tx.r.items[i].0) < order(tx.r.items[j].0)
    ensures var need := Needs(db, tx, NoPick);
            need.Some? && !need.value.OutboxRow? ==> Below(MemoryRow(id), need.value, order)
  {
  }

  lemma WaitClimbs(s: State, order: Id -> nat, t: Tid, u: Tid)
    requires LocksOk(s) && TxsOk(s) && Ordered(s, order) && Waits(s, t, u) && Blocked(s, u)
    ensures Blocked(s, t) && Below(Wanted(s, t), Wanted(s, u), order)
  {
    var v :| Waits(s, u, v);
    NeverWaitsForOutbox(s, t, u);
    NeverWaitsForOutbox(s, u, v);
    assert TxOk(s.db, s.history, s.index, s.lost, s.txs[u]);
    match Wanted(s, t)
    case Scope(ws) => ScopeHolderAsksHigher(s.db, s.history, s.index, s.lost, s.txs[u], ws, order);
    case MemoryRow(id) => RowHolderAsksHigher(s.db, s.history, s.index, s.lost, s.txs[u], id, order);
  }

  ghost predicate WaitPath(s: State, path: seq<Tid>) {
    |path| >= 2 && forall i | 0 <= i < |path| - 1 :: Waits(s, path[i], path[i + 1])
  }

  lemma {:induction false} PathClimbs(s: State, order: Id -> nat, path: seq<Tid>)
    requires LocksOk(s) && TxsOk(s) && Ordered(s, order) && WaitPath(s, path) && Blocked(s, path[|path| - 1])
    ensures Blocked(s, path[0]) && Below(Wanted(s, path[0]), Wanted(s, path[|path| - 1]), order)
  {
    assert Waits(s, path[0], path[1]);
    if |path| == 2 {
      WaitClimbs(s, order, path[0], path[1]);
    } else {
      var rest := path[1..];
      forall i | 0 <= i < |rest| - 1 ensures Waits(s, rest[i], rest[i + 1]) {
        assert Waits(s, path[i + 1], path[i + 2]);
      }
      PathClimbs(s, order, rest);
      WaitClimbs(s, order, path[0], path[1]);
    }
  }

  /** The waits-for graph has no cycle. */
  lemma NoCycle(s: State, order: Id -> nat, path: seq<Tid>)
    requires LocksOk(s) && TxsOk(s) && Ordered(s, order) && WaitPath(s, path)
    ensures path[0] != path[|path| - 1]
  {
    if path[0] == path[|path| - 1] {
      assert Waits(s, path[0], path[1]);
      PathClimbs(s, order, path);
    }
  }

  // ---- somebody can always go on ----

  ghost function Above(s: State, order: Id -> nat, t: Tid): set<Tid>
    requires Blocked(s, t)
  {
    set u | u in s.txs && Blocked(s, u) && Below(Wanted(s, t), Wanted(s, u), order)
  }

  lemma Runnable(s: State, order: Id -> nat, t: Tid) returns (v: Tid)
    requires Inv(s) && Ordered(s, order) && t in s.txs
    ensures v in s.txs && !Blocked(s, v)
    decreases if Blocked(s, t) then 1 else 0, if Blocked(s, t) then Above(s, order, t) else {}
  {
    if !Blocked(s, t) { return t; }
    var u :| Waits(s, t, u);
    if !Blocked(s, u) { return u; }
    WaitClimbs(s, order, t, u);
    assert u in Above(s, order, t) && u !in Above(s, order, u);
    assert Above(s, order, u) <= Above(s, order, t);
    v := Runnable(s, order, u);
  }

  lemma Enumerated(db: Db, ids: set<Id>) returns (items: seq<(Id, nat)>)
    requires ids <= db.memories.Keys
    ensures Distinct(items)
    ensures forall i | 0 <= i < |items| :: items[i].0 in ids && items[i].1 == db.memories[items[i].0].rev
    ensures forall id | id in ids :: Listed(items, id)
  {
    if ids == {} { return []; }
    var id :| id in ids;
    var rest := Enumerated(db, ids - {id});
    items := [(id, db.memories[id].rev)] + rest;
    forall other | other in ids ensures Listed(items, other) {
      if other == id {
        assert items[0].0 == id;
      } else {
        assert Listed(rest, other);
        var i :| 0 <= i < |rest| && rest[i].0 == other;
        assert items[i + 1].0 == other;
      }
    }
  }

  function Live(db: Db, scope: Option<Id>): set<Id> {
    set id | id in db.memories && InScope(db.memories[id], scope)
  }

  lemma UnblockedMoves(s: State, t: Tid) returns (action: Action)
    requires Inv(s) && t in s.txs && !Blocked(s, t)
    ensures Enabled(s, action)
    ensures action == Call(t, true, true) || (action.Exec? && action.t == t)
  {
    var tx := s.txs[t];
    if tx.Leased? { return Call(t, true, true); }
    var need := Needs(s.db, tx, NoPick);
    forall u | u in s.txs && u != t && need.Some? ensures !Holds(s.txs[u], need.value) {
      assert !Waits(s, t, u);
    }
    if tx.Reindexing? && tx.r.stage.Begun? {
      var items := Enumerated(s.db, Live(s.db, tx.r.scope));
      assert Snapshot(s.db, tx.r.scope, items);
      action := Exec(t, Listing(items));
    } else {
      action := Exec(t, NoPick);
    }
  }

  // ---- one Reindex at a time is always ordered ----

  ghost function Position(items: seq<(Id, nat)>, id: Id): nat {
    if Listed(items, id) then (var i :| 0 <= i < |items| && items[i].0 == id; i) else 0
  }

  lemma OneReindexOrdered(s: State) returns (order: Id -> nat)
    requires Inv(s) && OneReindex(s)
    ensures Ordered(s, order)
  {
    if t :| t in s.txs && s.txs[t].Reindexing? {
      var items := s.txs[t].r.items;
      order := id => Position(items, id);
      assert TxOk(s.db, s.history, s.index, s.lost, s.txs[t]);
      forall i | 0 <= i < |items| ensures order(items[i].0) == i {
        assert Listed(items, items[i].0);
        var j := Position(items, items[i].0);
        assert items[j].0 == items[i].0;
      }
    } else {
      order := id => 0;
    }
  }

  /**
  Deadlock freedom: in every reachable state in which the Reindex runs in progress, if there are
  several, visit memories along one common order, no transactions wait for each other in a circle,
  and if any transaction is in progress one of them can take a step.
  */
  lemma DeadlockFree(states: seq<State>, actions: seq<Action>, n: nat, order: Id -> nat) returns (action: Action)
    requires Run(states, actions) && n < |states|
    requires Ordered(states[n], order) && states[n].txs != map[]
    ensures !Deadlocked(states[n])
    ensures Enabled(states[n], action) && (action.Exec? || action.Call?)
  {
    var s := states[n];
    RunKeeps(states, actions, n);
    OrderedIsFree(s, order);
    var t :| t in s.txs;
    var v := Runnable(s, order, t);
    action := UnblockedMoves(s, v);
  }

  ghost predicate Deadlocked(s: State) {
    exists path :: WaitPath(s, path) && path[0] == path[|path| - 1]
  }

  lemma OrderedIsFree(s: State, order: Id -> nat)
    requires LocksOk(s) && TxsOk(s) && Ordered(s, order)
    ensures !Deadlocked(s)
  {
    forall path | WaitPath(s, path) ensures path[0] != path[|path| - 1] { NoCycle(s, order, path); }
  }

  /** One Reindex at a time is always ordered, so with at most one there is never a deadlock. */
  lemma OneReindexIsFree(states: seq<State>, actions: seq<Action>, n: nat) returns (action: Action)
    requires Run(states, actions) && n < |states|
    requires OneReindex(states[n]) && states[n].txs != map[]
    ensures !Deadlocked(states[n])
    ensures Enabled(states[n], action) && (action.Exec? || action.Call?)
  {
    RunKeeps(states, actions, n);
    var order := OneReindexOrdered(states[n]);
    action := DeadlockFree(states, actions, n, order);
  }

  // ---- several Reindex runs ----

  ghost predicate TwoLive(db: Db) {
    exists a, b :: a in Live(db, None) && b in Live(db, None) && a != b
  }

  /**
  From a quiet state any number of full Reindex runs, with nothing beside them, can reach a deadlock
  exactly if there are two live memories. Two runs are then enough, because the order of their
  unsorted listings is not fixed.
  */
  lemma ReindexesDeadlockIffTwoLive(s: State)
    requires Inv(s) && s.txs == map[]
    ensures (exists stuck :: Reaches(s, stuck, FullReindexes) && Deadlocked(stuck)) <==> TwoLive(s.db)
  {
    if TwoLive(s.db) {
      var a, b :| a in Live(s.db, None) && b in Live(s.db, None) && a != b;
      var stuck := TwoReindexesCanDeadlock(s, a, b);
      var path := [0, 1, 0];
      assert Waits(stuck, path[0], path[1]) && Waits(stuck, path[1], path[2]);
      assert WaitPath(stuck, path) && path[0] == path[|path| - 1];
    } else {
      forall stuck | Reaches(s, stuck, FullReindexes) ensures !Deadlocked(stuck) {
        FewLiveAreFree(s, stuck);
      }
    }
  }

  // ---- fewer than two live memories ----

  // Only full Reindex runs are open, and their listings hold at most one memory.
  ghost predicate SmallReindexes(s: State, live: set<Id>) {
    && Live(s.db, None) == live
    && forall t | t in s.txs :: s.txs[t].Reindexing? && s.txs[t].r.scope.None? && |s.txs[t].r.items| <= 1
  }

  lemma TwoListed(db: Db, items: seq<(Id, nat)>)
    requires Snapshot(db, None, items) && |items| >= 2
    ensures TwoLive(db)
  {
    assert items[0].0 in Live(db, None) && items[1].0 in Live(db, None);
  }

  lemma ReindexKeepsSmall(s: State, action: Action, live: set<Id>)
    requires SmallReindexes(s, live) && !TwoLive(s.db)
    requires Enabled(s, action) && Permits(FullReindexes, action)
    ensures SmallReindexes(Step(s, action), live) && !TwoLive(Step(s, action).db)
  {
    var s' := Step(s, action);
    if action.Exec? {
      var r := s.txs[action.t].r;
      if r.stage.Begun? && |action.pick.items| >= 2 { TwoListed(s.db, action.pick.items); }
    }
    assert Live(s'.db, None) == live;
  }

  lemma {:induction false} PathKeepsSmall(states: seq<State>, actions: seq<Action>, n: nat)
    requires |states| == |actions| + 1 && n < |states| && states[0].txs == map[]
    requires Leads(states, actions, states[0], states[|actions|], FullReindexes) && !TwoLive(states[0].db)
    ensures SmallReindexes(states[n], Live(states[0].db, None)) && !TwoLive(states[n].db)
  {
    if n > 0 {
      PathKeepsSmall(states, actions, n - 1);
      assert StepsAt(states, actions, n - 1);
      ReindexKeepsSmall(states[n - 1], actions[n - 1], Live(states[0].db, None));
    }
  }

  lemma FewLiveAreFree(s: State, stuck: State)
    requires Inv(s) && s.txs == map[] && Reaches(s, stuck, FullReindexes) && !TwoLive(s.db)
    ensures !Deadlocked(stuck)
  {
    var states, actions :| Leads(states, actions, s, stuck, FullReindexes);
    PathKeepsSmall(states, actions, |actions|);
    ReachedKeeps(s, stuck, FullReindexes);
    OrderedIsFree(stuck, id => 0);
  }

  // ---- two live memories ----

  ghost function Reindexer(stage: Stage, items: seq<(Id, nat)>, done: nat, now: Time): Tx {
    Reindexing(ReindexTx(stage, None, items, done, now))
  }

  // The tables of `s` with exactly two transactions, 0 and 1, in progress.
  ghost function Beside(s: State, tx0: Tx, tx1: Tx): State {
    s.(txs := map[0 := tx0, 1 := tx1])
  }

  /**
  Each of two Reindex runs lists the two memories in its own order and writes its first; then each waits
  for the other.
  */
  lemma TwoReindexesCanDeadlock(s: State, a: Id, b: Id) returns (stuck: State)
    requires s.txs == map[] && a in Live(s.db, None) && b in Live(s.db, None) && a != b
    ensures Reaches(s, stuck, FullReindexes) && Waits(stuck, 0, 1) && Waits(stuck, 1, 0)
  {
    var rest := Enumerated(s.db, Live(s.db, None) - {a, b});
    var la := [(a, s.db.memories[a].rev), (b, s.db.memories[b].rev)] + rest;
    var lb := [(b, s.db.memories[b].rev), (a, s.db.memories[a].rev)] + rest;
    BothFirst(s.db, a, b, rest);
    BothFirst(s.db, b, a, rest);
    assert la[0].0 == a && la[1].0 == b && lb[0].0 == b && lb[1].0 == a;
    var z, now := Reindexer(Begun, [], 0, s.clock), s.clock;
    BothBegin(s);
    BothList(s, z, la, lb);
    BothWrite(s, la, lb, now);
    stuck := Beside(s, Reindexer(Looked, la, 1, now), Reindexer(Looked, lb, 1, now));
    BesideStuck(s, la, lb, now);
  }

  lemma BothBegin(s: State)
    requires s.txs == map[]
    ensures var z := Reindexer(Begun, [], 0, s.clock); Reaches(s, Beside(s, z, z), FullReindexes)
  {
    var z := Reindexer(Begun, [], 0, s.clock);
    var one := s.(txs := map[0 := z]);
    assert map[0 := z][1 := z] == map[0 := z, 1 := z];
    Stays(s, FullReindexes);
    Further(s, s, Begin(0, z), one, FullReindexes);
    Further(s, one, Begin(1, z), Beside(s, z, z), FullReindexes);
  }

  lemma BothList(s: State, z: Tx, a: seq<(Id, nat)>, b: seq<(Id, nat)>)
    requires z == Reindexer(Begun, [], 0, s.clock) && Snapshot(s.db, None, a) && Snapshot(s.db, None, b)
    requires Reaches(s, Beside(s, z, z), FullReindexes)
    ensures Reaches(s, Beside(s, Reindexer(Looked, a, 0, s.clock), Reindexer(Looked, b, 0, s.clock)), FullReindexes)
  {
    FirstGoes(s, z, Reindexer(Looked, a, 0, s.clock), z, Listing(a));
    SecondGoes(s, Reindexer(Looked, a, 0, s.clock), z, Reindexer(Looked, b, 0, s.clock), Listing(b));
  }

  lemma BothWrite(s: State, a: seq<(Id, nat)>, b: seq<(Id, nat)>, now: Time)
    requires |a| > 1 && |b| > 1 && a[0].0 != b[0].0
    requires Reaches(s, Beside(s, Reindexer(Looked, a, 0, now), Reindexer(Looked, b, 0, now)), FullReindexes)
    ensures Reaches(s, Beside(s, Reindexer(Looked, a, 1, now), Reindexer(Looked, b, 1, now)), FullReindexes)
  {
    var idle, busy := Reindexer(Looked, b, 0, now), Reindexer(Looked, a, 1, now);
    assert Rows(idle) == {} && Jobs(idle) == {} && Rows(busy) == {a[0].0} && Jobs(busy) == {a[0].0};
    FirstGoes(s, Reindexer(Looked, a, 0, now), Reindexer(Written, a, 0, now), idle, NoPick);
    FirstGoes(s, Reindexer(Written, a, 0, now), busy, idle, NoPick);
    SecondGoes(s, busy, idle, Reindexer(Written, b, 0, now), NoPick);
    SecondGoes(s, busy, Reindexer(Written, b, 0, now), Reindexer(Looked, b, 1, now), NoPick);
  }

  lemma FirstGoes(s: State, tx: Tx, tx': Tx, other: Tx, pick: Pick)
    requires Reaches(s, Beside(s, tx, other), FullReindexes)
    requires tx.Reindexing? && PickOk(s.db, tx, pick) && AdvanceReindex(tx.r, pick) == Next(tx')
    requires var need := Needs(s.db, tx, pick); need.Some? ==> !Holds(other, need.value)
    ensures Reaches(s, Beside(s, tx', other), FullReindexes)
  {
    assert Beside(s, tx, other).txs[0 := tx'] == Beside(s, tx', other).txs;
    Further(s, Beside(s, tx, other), Exec(0, pick), Beside(s, tx', other), FullReindexes);
  }

  lemma SecondGoes(s: State, other: Tx, tx: Tx, tx': Tx, pick: Pick)
    requires Reaches(s, Beside(s, other, tx), FullReindexes)
    requires tx.Reindexing? && PickOk(s.db, tx, pick) && AdvanceReindex(tx.r, pick) == Next(tx')
    requires var need := Needs(s.db, tx, pick); need.Some? ==> !Holds(other, need.value)
    ensures Reaches(s, Beside(s, other, tx'), FullReindexes)
  {
    assert Beside(s, other, tx).txs[1 := tx'] == Beside(s, other, tx').txs;
    Further(s, Beside(s, other, tx), Exec(1, pick), Beside(s, other, tx'), FullReindexes);
  }

  lemma BesideStuck(s: State, a: seq<(Id, nat)>, b: seq<(Id, nat)>, now: Time)
    requires |a| > 1 && |b| > 1 && a[1].0 == b[0].0 && b[1].0 == a[0].0
    ensures var stuck := Beside(s, Reindexer(Looked, a, 1, now), Reindexer(Looked, b, 1, now));
            Waits(stuck, 0, 1) && Waits(stuck, 1, 0)
  {
    assert a[0].0 in Rows(Reindexer(Looked, a, 1, now));
    assert b[0].0 in Rows(Reindexer(Looked, b, 1, now));
  }

  lemma BothFirst(db: Db, a: Id, b: Id, rest: seq<(Id, nat)>)
    requires a != b && {a, b} <= Live(db, None)
    requires Distinct(rest)
    requires forall i | 0 <= i < |rest| ::
               rest[i].0 in Live(db, None) - {a, b} && rest[i].1 == db.memories[rest[i].0].rev
    requires forall id | id in Live(db, None) - {a, b} :: Listed(rest, id)
    ensures Snapshot(db, None, [(a, db.memories[a].rev), (b, db.memories[b].rev)] + rest)
  {
    var items := [(a, db.memories[a].rev), (b, db.memories[b].rev)] + rest;
    forall id | id in db.memories && InScope(db.memories[id], None) ensures Listed(items, id) {
      if id == a {
        assert items[0].0 == a;
      } else if id == b {
        assert items[1].0 == b;
      } else {
        assert id in Live(db, None) - {a, b};
        var i :| 0 <= i < |rest| && rest[i].0 == id;
        assert items[i + 2].0 == id;
      }
    }
  }
}
