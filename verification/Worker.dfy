/** What the drain of the index queue achieves. */
module Worker {
  import opened Wrappers
  import opened Memories
  import opened Commits
  import opened Qdrant
  import opened Protocol
  import opened Safety
  import opened Guarantees
  import opened Store

  // ---- retry delays ----

  // A job after failures at the given instants, the last one last.
  function Failures(job: Job, times: seq<Time>): Job {
    if times == [] then job else Backoff(Failures(job, times[..|times| - 1]), times[|times| - 1])
  }

  lemma {:induction false} PowerGrows(m: nat, n: nat)
    requires m <= n
    ensures Power2(m) <= Power2(n)
  {
    if m < n { PowerGrows(m, n - 1); }
  }

  lemma {:induction false} CapInvisible(k: nat)
    ensures Min(300 * SECOND, SECOND * Power2(Min(k, 9))) == Min(300 * SECOND, SECOND * Power2(k))
  {
    assert Power2(9) == 512 by { assert Power2(5) == 32; assert Power2(7) == 128; }
    if k > 9 { PowerGrows(9, k); }
  }

  /** The k-th consecutive failure delays by exactly min(300, 2^k) seconds: the cap on the exponent never shows. */
  lemma {:induction false} KthFailureDelay(job: Job, times: seq<Time>)
    requires job.attempts == 0 && times != []
    ensures Failures(job, times).attempts == |times|
    ensures Failures(job, times).next == times[|times| - 1] + Min(300 * SECOND, SECOND * Power2(|times|))
    ensures Failures(job, times).event == job.event && Failures(job, times).rev == job.rev
         && Failures(job, times).created == job.created
  {
    var k := |times|;
    CapInvisible(k);
    if k > 1 { KthFailureDelay(job, times[..k - 1]); }
  }

  // ---- a drain in which everything succeeds ----

  function AlwaysSucceeds(): Id -> Verdict {
    id => Succeeds
  }

  ghost predicate AllDue(db: Db, now: Time) {
    forall id | id in db.outbox :: db.outbox[id].next <= now
  }

  lemma AllDueIds(db: Db, now: Time)
    requires db.outbox.Keys <= db.memories.Keys && AllDue(db, now)
    ensures DueIds(db, now) == db.outbox.Keys
  {
  }

  /** Every attempted memory ends up indexed, its status with it, and nothing else changes. */
  lemma DrainedRows(db: Db, h: History, ids: set<Id>, now: Time)
    requires Consistent(db, h) && ids <= db.outbox.Keys
    ensures var db' := TriedAll(db, ids, now, AlwaysSucceeds());
            && db'.outbox == db.outbox - ids
            && SameVersions(db, db')
            && Consistent(db', h)
            && (forall id | id in ids && !db'.memories[id].deleted :: db'.memories[id].indexed == db'.memories[id].rev)
  {
    DrainedVersions(db, ids, now);
    SameVersionsKeep(db, h, TriedAll(db, ids, now, AlwaysSucceeds()), db.memories.Keys, {});
  }

  lemma DrainedVersions(db: Db, ids: set<Id>, now: Time)
    requires TablesOk(db) && ids <= db.outbox.Keys
    ensures var db' := TriedAll(db, ids, now, AlwaysSucceeds());
            && db'.outbox == db.outbox - ids
            && SameVersions(db, db')
            && (forall id | id in db'.memories :: RowOk(db', id))
            && (forall id | id !in db.memories :: SameRow(db, db', id))
            && (forall id | id in ids && !db'.memories[id].deleted :: db'.memories[id].indexed == db'.memories[id].rev)
  {
    var db' := TriedAll(db, ids, now, AlwaysSucceeds());
    forall id | id in db.memories
      ensures RowOk(db', id) && Stamp(db'.memories[id]) == Stamp(db.memories[id])
      ensures id in ids && !db'.memories[id].deleted ==> db'.memories[id].indexed == db'.memories[id].rev
    {
      DrainedRow(db, ids, now, id);
    }
  }

  lemma DrainedRow(db: Db, ids: set<Id>, now: Time, id: Id)
    requires TablesOk(db) && ids <= db.outbox.Keys && id in db.memories
    ensures var db' := TriedAll(db, ids, now, AlwaysSucceeds());
            && RowOk(db', id) && Stamp(db'.memories[id]) == Stamp(db.memories[id])
            && (id in ids && !db'.memories[id].deleted ==> db'.memories[id].indexed == db'.memories[id].rev)
  {
    assert RowOk(db, id);
  }

  lemma DrainedPoints(db: Db, index: Index, ids: set<Id>)
    requires ids <= db.memories.Keys
    ensures var index' := TouchedAll(index, db, ids, AlwaysSucceeds());
            && (forall id | id in ids :: Agrees(index', id, db.memories[id]))
            && (forall id | id !in ids :: (id in index' <==> id in index) && (id in index ==> index'[id] == index[id]))
  {
  }

  // ---- the drain of an undamaged store ----

  lemma DrainFromConverged(db: Db, h: History, index: Index, now: Time)
    requires Consistent(db, h) && Converged(db, index, {}) && index.Keys <= db.memories.Keys && AllDue(db, now)
    ensures var db', index' := TriedAll(db, DueIds(db, now), now, AlwaysSucceeds()),
                               TouchedAll(index, db, DueIds(db, now), AlwaysSucceeds());
            && db'.outbox == map[]
            && index' == Projection(db.memories)
            && SameVersions(db, db')
            && Consistent(db', h)
  {
    AllDueIds(db, now);
    DrainedRows(db, h, db.outbox.Keys, now);
    DrainedTruth(db, index);
  }

  lemma DrainedTruth(db: Db, index: Index)
    requires db.outbox.Keys <= db.memories.Keys && Converged(db, index, {}) && index.Keys <= db.memories.Keys
    ensures TouchedAll(index, db, db.outbox.Keys, AlwaysSucceeds()) == Projection(db.memories)
  {
    DrainedPoints(db, index, db.outbox.Keys);
    var index' := TouchedAll(index, db, db.outbox.Keys, AlwaysSucceeds());
    forall id | id in db.memories ensures Agrees(index', id, db.memories[id]) {
      if id !in db.outbox { assert Agrees(index, id, db.memories[id]); }
    }
    forall id | id in index' ensures id in db.memories {}
  }

  /**
  In every state that a run without outside damage reaches: if all jobs are due and all applies
  succeed, a drain empties the queue, leaves the index equal to the projection of the live memories
  and every live memory reported as indexed, and changes no version.
  */
  lemma DrainReachesTruth(states: seq<State>, actions: seq<Action>, n: nat, now: Time)
    requires Run(states, actions) && n < |states| && AllDue(states[n].db, now)
    requires forall i | 0 <= i < n :: !actions[i].Damage?
    ensures var db := states[n].db;
            var db', index' := TriedAll(db, DueIds(db, now), now, AlwaysSucceeds()),
                               TouchedAll(states[n].index, db, DueIds(db, now), AlwaysSucceeds());
            && db'.outbox == map[]
            && index' == Projection(db.memories)
            && (forall id | id in db'.memories && !db'.memories[id].deleted ::
                  db'.memories[id].indexed == db'.memories[id].rev)
            && SameVersions(db, db')
  {
    RunKeeps(states, actions, n);
    UndamagedLosesNothing(states, actions, n);
    var s := states[n];
    forall id | id in s.index ensures id in s.db.memories { assert Genuine(s.history, s.index[id]); }
    DrainFromConverged(s.db, s.history, s.index, now);
    var db' := TriedAll(s.db, DueIds(s.db, now), now, AlwaysSucceeds());
    forall id | id in db'.memories && !db'.memories[id].deleted
      ensures db'.memories[id].indexed == db'.memories[id].rev
    {
      assert RowOk(db', id);
    }
  }

  // ---- rebuilding ----

  /**
  Rebuilding after the index was lost or damaged in any way, with any jobs put off for any time: a
  full Reindex makes every live memory due at once, and a successful drain then indexes it as it is.
  The queue is empty afterwards if no deleted memory's job was put off further. Points of deleted
  memories are left as they were, except that due deletions are carried out.
  */
  lemma RebuildRestores(db: Db, h: History, index: Index, items: seq<(Id, nat)>, queued: Time, now: Time)
    requires Consistent(db, h) && Snapshot(db, None, items) && queued <= now
    ensures var mid := RequeueAll(db, items, queued);
            var db', index' := TriedAll(mid, DueIds(mid, now), now, AlwaysSucceeds()),
                               TouchedAll(index, mid, DueIds(mid, now), AlwaysSucceeds());
            && Consistent(db', h) && SameVersions(db, db')
            && (forall id | id in db.memories && !db.memories[id].deleted ::
                  && id !in db'.outbox
                  && Agrees(index', id, db'.memories[id])
                  && db'.memories[id].indexed == db'.memories[id].rev)
            && (forall id :: id in db'.outbox <==>
                  id in db.outbox && db.memories[id].deleted && db.outbox[id].next > now)
            && (forall id | id !in db.memories || db.memories[id].deleted ::
                  if id in db.outbox && db.outbox[id].next <= now then id !in index'
                  else (id in index' <==> id in index) && (id in index ==> index'[id] == index[id]))
  {
    var mid := RequeueAll(db, items, queued);
    RequeueEvolves(db, h, items, queued, {});
    RebuiltQueue(db, items, queued, now);
    DrainedRows(mid, h, DueIds(mid, now), now);
    DrainedPoints(mid, index, DueIds(mid, now));
    RequeuedVersions(db, items, queued);
    var db', index' := TriedAll(mid, DueIds(mid, now), now, AlwaysSucceeds()),
                       TouchedAll(index, mid, DueIds(mid, now), AlwaysSucceeds());
    SameVersionsChain(db, mid, db');
    forall id | id in db.memories && !db.memories[id].deleted
      ensures id !in db'.outbox && Agrees(index', id, db'.memories[id])
      ensures db'.memories[id].indexed == db'.memories[id].rev
    {
      SameVersionAgrees(mid, db', index', id);
      assert Stamp(db'.memories[id]).deleted == Stamp(db.memories[id]).deleted;
    }
  }

  lemma SameVersionsChain(a: Db, b: Db, c: Db)
    requires SameVersions(a, b) && SameVersions(b, c)
    ensures SameVersions(a, c)
    ensures forall id | id in a.memories ::
              a.memories[id].deleted == b.memories[id].deleted == c.memories[id].deleted
  {
    forall id | id in a.memories
      ensures Stamp(c.memories[id]) == Stamp(a.memories[id])
      ensures a.memories[id].deleted == b.memories[id].deleted == c.memories[id].deleted
    {
      assert Stamp(c.memories[id]) == Stamp(b.memories[id]) == Stamp(a.memories[id]);
    }
  }

  lemma SameVersionAgrees(db: Db, db': Db, index: Index, id: Id)
    requires SameVersions(db, db') && id in db.memories
    ensures Agrees(index, id, db.memories[id]) <==> Agrees(index, id, db'.memories[id])
  {
    assert Stamp(db'.memories[id]) == Stamp(db.memories[id]);
    assert PointOf(id, db'.memories[id]) == PointOf(id, db.memories[id]);
  }

  lemma RequeuedVersions(db: Db, items: seq<(Id, nat)>, now: Time)
    ensures SameVersions(db, RequeueAll(db, items, now))
  {
  }

  // Every live memory is due; a deleted one keeps its job, if it has one.
  lemma RebuiltQueue(db: Db, items: seq<(Id, nat)>, queued: Time, now: Time)
    requires Snapshot(db, None, items) && queued <= now && db.outbox.Keys <= db.memories.Keys
    ensures var mid := RequeueAll(db, items, queued);
            && (forall id | id in db.memories && !db.memories[id].deleted :: id in DueIds(mid, now))
            && (forall id | id in db.memories && db.memories[id].deleted ::
                  && (id in mid.outbox <==> id in db.outbox)
                  && (id in DueIds(mid, now) <==> id in db.outbox && db.outbox[id].next <= now))
            && mid.outbox.Keys <= db.memories.Keys
  {
    forall id ensures id in ListedIds(items) <==> id in db.memories && !db.memories[id].deleted {
      if id in db.memories && !db.memories[id].deleted {
        assert InScope(db.memories[id], None);
        assert Listed(items, id);
      }
    }
    forall id ensures Listed(items, id) <==> id in ListedIds(items) {}
  }
}
