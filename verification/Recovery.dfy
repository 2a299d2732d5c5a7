/** How a full Reindex repairs a damaged index while other transactions go on. */
module Recovery {
  import opened Wrappers
  import opened Memories
  import opened Commits
  import opened Qdrant
  import opened Protocol
  import opened Safety
  import opened Guarantees

  // Outside `except` no damage is hidden: a damaged memory is queued, and no worker is about to settle it.
  ghost predicate Mended(s: State, except: set<Id>) {
    && QueuedOrSound(s.db, s.lost, except)
    && forall t | t in s.txs :: SettlesSound(s.txs[t], s.lost, except)
  }

  ghost predicate QueuedOrSound(db: Db, lost: set<Id>, except: set<Id>) {
    forall id | id in db.memories && id !in except :: id in db.outbox || id !in lost
  }

  ghost predicate SettlesSound(tx: Tx, lost: set<Id>, except: set<Id>) {
    tx.Applied? && tx.ok ==> tx.w.id in except || tx.w.id !in lost
  }

  lemma EffectMends(db: Db, h: History, index: Index, lost: set<Id>, clock: Time, tx: Tx, pick: Pick, except: set<Id>)
    requires Consistent(db, h) && TxOk(db, h, index, lost, tx)
    requires !tx.Leased? && PickOk(db, tx, pick) && Advance(db, clock, tx, pick).End?
    requires QueuedOrSound(db, lost, except) && SettlesSound(tx, lost, except)
    ensures QueuedOrSound(Install(db, Advance(db, clock, tx, pick).effect, Start(tx)), lost, except)
  {
    StatementEnd(db, h, index, lost, clock, tx, pick);
    match Advance(db, clock, tx, pick).effect
    case Nothing =>
    case Version(id, row, event) =>
    case Renew(items) =>
    case Finish(id, event) => assert tx.w.id == id;
    case Postpone(id) =>
  }

  lemma ExecMends(s: State, t: Tid, pick: Pick, except: set<Id>)
    requires Consistent(s.db, s.history) && TxsOk(s) && CanExec(s, t, pick) && Mended(s, except)
    ensures Mended(ExecStep(s, t, pick), except)
  {
    var tx := s.txs[t];
    assert TxOk(s.db, s.history, s.index, s.lost, tx);
    if Advance(s.db, s.clock, tx, pick).End? {
      EffectMends(s.db, s.history, s.index, s.lost, s.clock, tx, pick, except);
    } else {
      NotYetApplied(s.db, s.clock, tx, pick);
    }
  }

  lemma NotYetApplied(db: Db, clock: Time, tx: Tx, pick: Pick)
    requires !tx.Leased? && PickOk(db, tx, pick) && Advance(db, clock, tx, pick).Next?
    ensures !Advance(db, clock, tx, pick).tx.Applied?
  {
  }

  lemma StepMends(s: State, action: Action, except: set<Id>)
    requires Consistent(s.db, s.history) && TxsOk(s)
    requires Enabled(s, action) && !action.Damage? && Mended(s, except)
    ensures Mended(Step(s, action), except)
  {
    if action.Exec? { ExecMends(s, action.t, action.pick, except); }
  }

  ghost predicate Calm(actions: seq<Action>, i: nat, j: nat) {
    forall k | i <= k < j && k < |actions| :: !actions[k].Damage?
  }

  lemma {:induction false} RunMends(states: seq<State>, actions: seq<Action>, i: nat, j: nat, except: set<Id>)
    requires Run(states, actions) && i <= j < |states|
    requires Calm(actions, i, j) && Mended(states[i], except)
    ensures Mended(states[j], except)
  {
    if i < j {
      RunMends(states, actions, i, j - 1, except);
      RunKeeps(states, actions, j - 1);
      assert StepsAt(states, actions, j - 1);
      StepMends(states[j - 1], actions[j - 1], except);
    }
  }

  lemma KnownMended(states: seq<State>, actions: seq<Action>, n: nat)
    requires Run(states, actions) && n < |states|
    ensures Mended(states[n], states[n].db.memories.Keys)
  {
    RunKeeps(states, actions, n);
    var s := states[n];
    forall t | t in s.txs && s.txs[t].Applied? ensures s.txs[t].w.id in s.db.memories {
      assert TxOk(s.db, s.history, s.index, s.lost, s.txs[t]);
    }
  }

  // ---- one Reindex, from its listing to its commit ----

  // A full Reindex that has made its listing.
  ghost predicate Holding(s: State, t: Tid, items: seq<(Id, nat)>) {
    && t in s.txs && s.txs[t].Reindexing? && !s.txs[t].r.stage.Begun?
    && s.txs[t].r.scope.None? && s.txs[t].r.items == items
  }

  /** Transaction `t` is a full Reindex that lists at step `i`, stays open, and commits at step `j`. */
  ghost predicate Reindexes(states: seq<State>, actions: seq<Action>, t: Tid, items: seq<(Id, nat)>, i: nat, j: nat)
    requires |states| == |actions| + 1
  {
    && i < j < |actions|
    && actions[i] == Exec(t, Listing(items))
    && Holding(states[i + 1], t, items)
    && (forall k | i < k <= j :: t in states[k].txs)
    && actions[j].Exec? && actions[j].t == t && t !in states[j + 1].txs
  }

  lemma StaysHolding(s: State, action: Action, t: Tid, items: seq<(Id, nat)>)
    requires TxsOk(s) && Enabled(s, action) && Holding(s, t, items) && t in Step(s, action).txs
    ensures Holding(Step(s, action), t, items)
  {
    assert TxOk(s.db, s.history, s.index, s.lost, s.txs[t]);
  }

  lemma {:induction false} HoldsUntilCommit(
      states: seq<State>, actions: seq<Action>, t: Tid, items: seq<(Id, nat)>, i: nat, j: nat, k: nat)
    requires Run(states, actions) && Reindexes(states, actions, t, items, i, j) && i < k <= j
    ensures Holding(states[k], t, items)
  {
    if i + 1 < k {
      HoldsUntilCommit(states, actions, t, items, i, j, k - 1);
      RunKeeps(states, actions, k - 1);
      assert StepsAt(states, actions, k - 1);
      StaysHolding(states[k - 1], actions[k - 1], t, items);
    }
  }

  lemma LastRound(db: Db, r: ReindexTx)
    requires ReindexOk(db, r) && !r.stage.Begun? && AdvanceReindex(r, NoPick).End?
    ensures AdvanceReindex(r, NoPick) == End(Renew(r.items))
    ensures Rows(Reindexing(r)) == ListedIds(r.items)
  {
  }

  lemma CommitRenews(s: State, action: Action, t: Tid, items: seq<(Id, nat)>)
    requires TxsOk(s) && Enabled(s, action) && Holding(s, t, items)
    requires action.Exec? && action.t == t && t !in Step(s, action).txs
    ensures Step(s, action).db == RequeueAll(s.db, items, s.txs[t].r.now)
    ensures Step(s, action).txs == s.txs - {t} && Rows(s.txs[t]) == ListedIds(items)
  {
    assert TxOk(s.db, s.history, s.index, s.lost, s.txs[t]);
    LastRound(s.db, s.txs[t].r);
  }

  lemma ListedAtStart(states: seq<State>, actions: seq<Action>, t: Tid, items: seq<(Id, nat)>, i: nat, j: nat, id: Id)
    requires Run(states, actions) && Reindexes(states, actions, t, items, i, j)
    requires id in states[i].db.memories && !states[i].db.memories[id].deleted
    ensures id in ListedIds(items)
  {
    assert StepsAt(states, actions, i);
    assert Listed(items, id);
  }

  lemma StaysDeleted(states: seq<State>, actions: seq<Action>, i: nat, j: nat, id: Id)
    requires Run(states, actions) && i <= j < |states|
    requires id in states[i].db.memories && states[i].db.memories[id].deleted
    ensures id in states[j].db.memories && states[j].db.memories[id].deleted
  {
    ForgottenForever(states, actions, i, j, id);
    assert Stamp(states[j].db.memories[id]).deleted == Stamp(states[i].db.memories[id]).deleted;
  }

  lemma LiveWasListed(states: seq<State>, actions: seq<Action>, t: Tid, items: seq<(Id, nat)>, i: nat, j: nat, id: Id)
    requires Run(states, actions) && Reindexes(states, actions, t, items, i, j) && id in states[i].db.memories
    requires id in states[j + 1].db.memories && !states[j + 1].db.memories[id].deleted
    ensures id in ListedIds(items)
  {
    if states[i].db.memories[id].deleted {
      StaysDeleted(states, actions, i, j + 1, id);
    } else {
      ListedAtStart(states, actions, t, items, i, j, id);
    }
  }

  ghost function Gone(db: Db): set<Id> {
    set id | id in db.memories && db.memories[id].deleted
  }

  // After the commit only deleted memories may still have a damaged point that nobody will repair.
  lemma CommitMends(states: seq<State>, actions: seq<Action>, t: Tid, items: seq<(Id, nat)>, i: nat, j: nat)
    requires Run(states, actions) && Reindexes(states, actions, t, items, i, j)
    requires Calm(actions, i, j + 1)
    ensures Mended(states[j + 1], Gone(states[j + 1].db))
  {
    var known, s, s' := states[i].db.memories.Keys, states[j], states[j + 1];
    KnownMended(states, actions, i);
    RunMends(states, actions, i, j + 1, known);
    HoldsUntilCommit(states, actions, t, items, i, j, j);
    CommitAt(states, actions, t, items, i, j);
    forall id | id in s'.db.memories && id !in Gone(s'.db) ensures id in s'.db.outbox || id !in s'.lost {
      if id in known { LiveWasListed(states, actions, t, items, i, j, id); }
    }
    forall u | u in s'.txs ensures SettlesSound(s'.txs[u], s'.lost, Gone(s'.db)) {
      assert SettlesSound(s'.txs[u], s'.lost, known);
      if s'.txs[u].Applied? && s'.txs[u].w.id in known && s'.txs[u].w.id !in Gone(s'.db) {
        LiveWasListed(states, actions, t, items, i, j, s'.txs[u].w.id);
      }
    }
  }

  // No worker is about to settle one of the ids.
  ghost predicate NoneSettles(s: State, ids: set<Id>) {
    forall u | u in s.txs && s.txs[u].Applied? :: s.txs[u].w.id in s.db.memories && s.txs[u].w.id !in ids
  }

  lemma CommitAt(states: seq<State>, actions: seq<Action>, t: Tid, items: seq<(Id, nat)>, i: nat, j: nat)
    requires Run(states, actions) && Reindexes(states, actions, t, items, i, j) && Holding(states[j], t, items)
    ensures states[j + 1].db == RequeueAll(states[j].db, items, states[j].txs[t].r.now)
    ensures NoneSettles(states[j + 1], ListedIds(items))
  {
    var s, s' := states[j], states[j + 1];
    RunKeeps(states, actions, j);
    assert StepsAt(states, actions, j);
    CommitRenews(s, actions[j], t, items);
    forall u | u in s'.txs && s'.txs[u].Applied?
      ensures s'.txs[u].w.id in s'.db.memories && s'.txs[u].w.id !in ListedIds(items)
    {
      assert u in s.txs && s.txs[u] == s'.txs[u];
      assert Exclusive(s.txs[t], s.txs[u]) && TxOk(s.db, s.history, s.index, s.lost, s.txs[u]);
      assert s'.txs[u].w.id in Rows(s.txs[u]);
    }
  }

  /**
  Recovery in interleaved runs: whatever was done to the index before, and whatever runs beside it,
  once a full Reindex has listed at step `i` and committed at step `j`, every live memory is queued
  or agrees with the index, and this stays so for as long as nothing else damages the index.
  */
  lemma ReindexRecovers(
      states: seq<State>, actions: seq<Action>, t: Tid, items: seq<(Id, nat)>, i: nat, j: nat, n: nat, id: Id)
    requires Run(states, actions) && Reindexes(states, actions, t, items, i, j) && j < n < |states|
    requires Calm(actions, i, n)
    requires id in states[n].db.memories && !states[n].db.memories[id].deleted
    ensures id in states[n].db.outbox || Agrees(states[n].index, id, states[n].db.memories[id])
  {
    CommitMends(states, actions, t, items, i, j);
    var gone := Gone(states[j + 1].db);
    RunMends(states, actions, j + 1, n, gone);
    RunKeeps(states, actions, n);
    if id in gone { StaysDeleted(states, actions, j + 1, n, id); }
  }
}
