/** What every step of every interleaving keeps. */
module Safety {
  import opened Wrappers
  import opened Memories
  import opened Commits
  import opened Qdrant
  import opened Protocol

  // ---- what a transaction may rely on between its statements ----

  ghost predicate CreateOk(db: Db, c: CreateTx) {
    && (!c.stage.Begun? ==> c.ws in db.workspaces && !c.stage.HalfScoped?)
    && (c.stage.Looked? || c.stage.Counted? || c.stage.RowHeld() ==> KeyFree(db, c.ws, c.input.key))
    && (c.stage.Counted? || c.stage.RowHeld() ==> (c.input.kind.Profile() ==> Count(db, c.ws) < MAX_PROFILE))
    && (c.stage.RowHeld() ==> c.id !in db.memories)
  }

  ghost predicate ReplayOk(db: Db, p: ReplayTx) {
    && p.ws in db.workspaces
    && HasKey(db, p.ws, p.input.key, p.holder)
    && db.memories[p.holder] == p.seen
  }

  ghost predicate ReadAt(h: History, id: Id, row: Row) {
    id in h && 1 <= row.rev <= |h[id]| && h[id][row.rev - 1] == Stamp(row)
  }

  ghost predicate UpdateOk(db: Db, h: History, u: UpdateTx) {
    && (!u.stage.Begun? ==> u.ws in db.workspaces && !u.stage.HalfScoped?)
    && (u.stage.Looked? || u.stage.Counted? || u.stage.RowHeld() ==>
          && ReadAt(h, u.id, u.seen)
          && u.seen.ws == u.ws && !u.seen.deleted
          && u.seen.rev == u.input.expected)
    && (u.stage.Counted? || u.stage.RowHeld() ==>
          (u.seen.kind == Memory && u.input.kind.Profile() ==> Count(db, u.ws) < MAX_PROFILE))
    && (u.stage.RowHeld() ==> u.id in db.memories && db.memories[u.id] == u.seen)
  }

  ghost predicate MoveOk(db: Db, m: MoveTx) {
    && m.expected > 0 && m.source != m.target
    && (m.stage.HalfScoped? ==> Low(m.source, m.target) in db.workspaces)
    && (!m.stage.Begun? && !m.stage.HalfScoped? ==> m.source in db.workspaces && m.target in db.workspaces)
    && (m.stage.Looked? || m.stage.Counted? || m.stage.RowHeld() ==>
          Matches(db, m.source, m.id) && db.memories[m.id] == m.seen)
    && (m.stage.Counted? || m.stage.RowHeld() ==> (m.seen.kind.Profile() ==> Count(db, m.target) < MAX_PROFILE))
    && (m.stage.RowHeld() ==> m.seen.rev == m.expected)
  }

  ghost predicate ForgetOk(db: Db, f: ForgetTx) {
    && (f.stage.Begun? || f.stage.RowHeld())
    && (f.stage.RowHeld() ==> Matches(db, f.ws, f.id) && db.memories[f.id] == f.seen)
  }

  // The revisions in `items` may be stale, and the memories may have been deleted since.
  ghost predicate ReindexOk(db: Db, r: ReindexTx) {
    && (r.stage.Begun? || r.stage.Looked? || r.stage.Written?)
    && (r.stage.Begun? ==> r.items == [])
    && Distinct(r.items)
    && r.done <= |r.items|
    && (r.stage.Written? ==> r.done < |r.items|)
    && (forall i | 0 <= i < |r.items| ::
          r.items[i].0 in db.memories && r.items[i].1 <= db.memories[r.items[i].0].rev)
  }

  ghost predicate WorkOk(db: Db, w: WorkTx) {
    w.id in db.memories && db.memories[w.id] == w.seen
  }

  ghost predicate JobOk(db: Db, w: WorkTx, job: Job) {
    w.id in db.outbox && db.outbox[w.id] == job
  }

  ghost predicate TxOk(db: Db, h: History, index: Index, lost: set<Id>, tx: Tx) {
    match tx
    case Creating(c) => CreateOk(db, c)
    case Replaying(p) => ReplayOk(db, p)
    case Updating(u) => UpdateOk(db, h, u)
    case Moving(m) => MoveOk(db, m)
    case Forgetting(f) => ForgetOk(db, f)
    case Reindexing(r) => ReindexOk(db, r)
    case Claiming(_) => true
    case Claimed(w) => WorkOk(db, w)
    case Leased(w, job) => WorkOk(db, w) && JobOk(db, w, job)
    case Applied(w, job, ok) =>
      && WorkOk(db, w)
      && JobOk(db, w, job)
      && (ok ==> w.id in lost || Agrees(index, w.id, w.seen))
  }

  // ---- the invariant ----

  /** Every memory is queued, damaged from outside, or faithfully indexed. */
  ghost predicate Converged(db: Db, index: Index, lost: set<Id>) {
    forall id | id in db.memories :: id in db.outbox || id in lost || Agrees(index, id, db.memories[id])
  }

  /** A point was computed from a committed live version of its memory. */
  ghost predicate Genuine(h: History, p: Point) {
    && p.id in h && 1 <= p.rev <= |h[p.id]|
    && !h[p.id][p.rev - 1].deleted
    && p == PointOf(p.id, h[p.id][p.rev - 1])
  }

  ghost predicate PointsOk(s: State) {
    && (forall p | p in s.sent :: Genuine(s.history, p))
    && (forall id | id in s.index && id !in s.lost :: s.index[id].id == id && s.index[id] in s.sent)
  }

  ghost predicate LocksOk(s: State) {
    forall t, u | t in s.txs && u in s.txs && t != u :: Exclusive(s.txs[t], s.txs[u])
  }

  ghost predicate TxsOk(s: State) {
    forall t | t in s.txs :: TxOk(s.db, s.history, s.index, s.lost, s.txs[t])
  }

  ghost predicate Inv(s: State) {
    && Consistent(s.db, s.history)
    && Converged(s.db, s.index, s.lost)
    && PointsOk(s)
    && LocksOk(s)
    && TxsOk(s)
  }

  // ---- other transactions are not disturbed by a commit ----

  lemma Undisturbed(
      db: Db, h: History, db': Db, h': History, index: Index, lost: set<Id>, rows: set<Id>, scopes: set<Id>, u: Tx)
    requires Evolves(db, h, db', h', rows, scopes)
    requires Rows(u) !! rows && Scopes(u) !! scopes
    requires TxOk(db, h, index, lost, u)
    ensures TxOk(db', h', index, lost, u)
  {
    forall id | id in Rows(u) ensures SameRow(db, db', id) {}
    match u
    case Creating(c) =>
      if c.stage.Looked? || c.stage.Counted? || c.stage.RowHeld() {
        assert c.ws !in scopes;
        assert KeyFree(db', c.ws, c.input.key);
        assert Count(db', c.ws) <= Count(db, c.ws);
      }
    case Updating(x) =>
      if x.stage.Looked? || x.stage.Counted? || x.stage.RowHeld() {
        assert x.ws !in scopes;
        assert Count(db', x.ws) <= Count(db, x.ws);
        assert h[x.id] <= h'[x.id];
      }
    case Moving(m) =>
      if m.stage.Counted? || m.stage.RowHeld() {
        assert m.target !in scopes;
        assert Count(db', m.target) <= Count(db, m.target);
      }
    case Reindexing(r) =>
    case _ =>
  }

  // ---- statements ----

  ghost predicate Obtains(db: Db, tx: Tx, pick: Pick, tx': Tx) {
    var need := Needs(db, tx, pick);
    && Scopes(tx') <= Scopes(tx) + (if need.Some? && need.value.Scope? then {need.value.ws} else {})
    && Rows(tx') <= Rows(tx) + (if need.Some? && need.value.MemoryRow? then {need.value.id} else {})
    && Jobs(tx') <= Jobs(tx) + (if need.Some? && need.value.OutboxRow? then {need.value.id} else {})
  }

  ghost predicate Committable(db: Db, tx: Tx, effect: Effect) {
    && (effect.Nothing? || effect.Version?)
    && (effect.Version? ==>
          Rows(tx) == {effect.id} && VersionOk(db, effect.id, effect.row, effect.event, Scopes(tx)))
  }

  lemma CreateNext(db: Db, c: CreateTx)
    requires CreateOk(db, c) && AdvanceCreate(db, c).Next?
    ensures var tx := AdvanceCreate(db, c).tx;
            Obtains(db, Creating(c), NoPick, tx)
    ensures var tx := AdvanceCreate(db, c).tx;
            (tx.Creating? && CreateOk(db, tx.c)) || (tx.Replaying? && ReplayOk(db, tx.p))
  {
    match c.stage
    case Scoped =>
    case _ =>
  }

  lemma CreateEnd(db: Db, c: CreateTx)
    requires CreateOk(db, c) && AdvanceCreate(db, c).End?
    ensures Committable(db, Creating(c), AdvanceCreate(db, c).effect)
  {
  }

  lemma SeenVersion(db: Db, h: History, id: Id, seen: Row)
    requires HistoryOk(db, h) && ReadAt(h, id, seen)
    ensures id in db.memories
    ensures db.memories[id].rev == seen.rev ==> Stamp(db.memories[id]) == Stamp(seen)
  {
    assert VersionsOk(db.memories[id], h[id]);
  }

  lemma UpdateNext(db: Db, h: History, u: UpdateTx)
    requires Consistent(db, h) && UpdateOk(db, h, u) && AdvanceUpdate(db, u).Next?
    ensures var tx := AdvanceUpdate(db, u).tx;
            Obtains(db, Updating(u), NoPick, tx) && tx.Updating? && UpdateOk(db, h, tx.u)
  {
    UpdateObtains(db, u);
    match u.stage
    case Scoped => UpdateLooks(db, h, u);
    case Counted => SeenVersion(db, h, u.id, u.seen);
    case _ =>
  }

  lemma UpdateObtains(db: Db, u: UpdateTx)
    requires AdvanceUpdate(db, u).Next?
    ensures AdvanceUpdate(db, u).tx.Updating? && Obtains(db, Updating(u), NoPick, AdvanceUpdate(db, u).tx)
  {
  }

  lemma UpdateLooks(db: Db, h: History, u: UpdateTx)
    requires HistoryOk(db, h) && UpdateOk(db, h, u) && u.stage.Scoped? && AdvanceUpdate(db, u).Next?
    ensures AdvanceUpdate(db, u).tx.Updating? && UpdateOk(db, h, AdvanceUpdate(db, u).tx.u)
  {
    assert VersionsOk(db.memories[u.id], h[u.id]);
  }

  lemma UpdateEnd(db: Db, h: History, u: UpdateTx)
    requires UpdateOk(db, h, u) && AdvanceUpdate(db, u).End?
    ensures Committable(db, Updating(u), AdvanceUpdate(db, u).effect)
  {
  }

  lemma MoveNext(db: Db, m: MoveTx)
    requires MoveOk(db, m) && AdvanceMove(db, m).Next?
    ensures var tx := AdvanceMove(db, m).tx;
            Obtains(db, Moving(m), NoPick, tx) && tx.Moving? && MoveOk(db, tx.m)
  {
  }

  lemma MoveEnd(db: Db, m: MoveTx)
    requires MoveOk(db, m) && AdvanceMove(db, m).End?
    ensures Committable(db, Moving(m), AdvanceMove(db, m).effect)
  {
  }

  lemma ForgetNext(db: Db, h: History, f: ForgetTx)
    requires Consistent(db, h) && ForgetOk(db, f)
    ensures match AdvanceForget(db, f)
            case Next(tx) => Obtains(db, Forgetting(f), NoPick, tx) && tx.Forgetting? && ForgetOk(db, tx.f)
            case End(effect) => Committable(db, Forgetting(f), effect)
  {
    if f.id in db.memories { assert RowOk(db, f.id); }
  }

  lemma ReindexNext(db: Db, r: ReindexTx, pick: Pick)
    requires ReindexOk(db, r) && PickOk(db, Reindexing(r), pick)
    ensures match AdvanceReindex(r, pick)
            case Next(tx) => Obtains(db, Reindexing(r), pick, tx) && tx.Reindexing? && ReindexOk(db, tx.r)
            case End(effect) =>
              && (effect.Nothing? || effect.Renew?)
              && (effect.Renew? ==> effect.items == r.items && Rows(Reindexing(r)) == ListedIds(r.items))
  {
  }

  lemma WorkNext(db: Db, h: History, index: Index, lost: set<Id>, clock: Time, tx: Tx, pick: Pick)
    requires tx.Claiming? || tx.Claimed?
    requires PickOk(db, tx, pick) && Advance(db, clock, tx, pick).Next?
    requires TxOk(db, h, index, lost, tx)
    ensures var tx' := Advance(db, clock, tx, pick).tx;
            Obtains(db, tx, pick, tx') && TxOk(db, h, index, lost, tx')
  {
  }

  /** The next statement of a transaction keeps what it relies on and takes at most the lock it asked for. */
  lemma StatementNext(db: Db, h: History, index: Index, lost: set<Id>, clock: Time, tx: Tx, pick: Pick)
    requires Consistent(db, h) && TxOk(db, h, index, lost, tx)
    requires !tx.Leased? && PickOk(db, tx, pick) && Advance(db, clock, tx, pick).Next?
    ensures var tx' := Advance(db, clock, tx, pick).tx;
            Obtains(db, tx, pick, tx') && TxOk(db, h, index, lost, tx')
  {
    match tx
    case Creating(c) => CreateNext(db, c);
    case Updating(u) => UpdateNext(db, h, u);
    case Moving(m) => MoveNext(db, m);
    case Forgetting(f) => ForgetNext(db, h, f);
    case Reindexing(r) => ReindexNext(db, r, pick);
    case Replaying(_) =>
    case Applied(_, _, _) =>
    case Claiming(_) => WorkNext(db, h, index, lost, clock, tx, pick);
    case Claimed(_) => WorkNext(db, h, index, lost, clock, tx, pick);
  }

  /** A transaction only ends in writes that its locks and checks justify. */
  lemma StatementEnd(db: Db, h: History, index: Index, lost: set<Id>, clock: Time, tx: Tx, pick: Pick)
    requires Consistent(db, h) && TxOk(db, h, index, lost, tx)
    requires !tx.Leased? && PickOk(db, tx, pick) && Advance(db, clock, tx, pick).End?
    ensures var effect := Advance(db, clock, tx, pick).effect;
            match effect
            case Nothing => true
            case Version(id, row, event) => Rows(tx) == {id} && VersionOk(db, id, row, event, Scopes(tx))
            case Renew(items) => tx.Reindexing? && items == tx.r.items && Rows(tx) == ListedIds(items)
            case Finish(id, event) => tx.Applied? && tx.ok && id == tx.w.id && event == tx.job.event
            case Postpone(id) => tx.Applied? && id == tx.w.id
  {
    match tx
    case Creating(c) => CreateEnd(db, c);
    case Updating(u) => UpdateEnd(db, h, u);
    case Moving(m) => MoveEnd(db, m);
    case Forgetting(f) => ForgetNext(db, h, f);
    case Reindexing(r) => ReindexNext(db, r, pick);
    case _ =>
  }

  lemma EffectEvolves(db: Db, h: History, index: Index, lost: set<Id>, clock: Time, tx: Tx, pick: Pick)
    requires Consistent(db, h) && TxOk(db, h, index, lost, tx)
    requires !tx.Leased? && PickOk(db, tx, pick) && Advance(db, clock, tx, pick).End?
    ensures var effect := Advance(db, clock, tx, pick).effect;
            var db', h' := Install(db, effect, Start(tx)), Recorded(h, effect);
            Consistent(db', h') && Evolves(db, h, db', h', Rows(tx), Scopes(tx))
  {
    StatementEnd(db, h, index, lost, clock, tx, pick);
    var effect, now := Advance(db, clock, tx, pick).effect, Start(tx);
    match effect
    case Nothing =>
    case Version(id, row, event) =>
      PutConsistent(db, h, id, row, event, now, Scopes(tx));
      PutEvolves(db, h, id, row, event, now, Scopes(tx));
    case Renew(items) => RequeueEvolves(db, h, items, now, Scopes(tx));
    case Finish(id, event) => SettleEvolves(db, h, id, Scopes(tx));
    case Postpone(id) => RetryEvolves(db, h, id, now, Scopes(tx));
  }

  lemma SettledConverges(db: Db, h: History, index: Index, lost: set<Id>, tx: Tx)
    requires TxOk(db, h, index, lost, tx) && Converged(db, index, lost) && tx.Applied? && tx.ok
    ensures Converged(Settle(db, tx.w.id, tx.job.event), index, lost)
  {
    var db' := Settle(db, tx.w.id, tx.job.event);
    forall id | id in db'.memories ensures id in db'.outbox || id in lost || Agrees(index, id, db'.memories[id]) {
      assert PointOf(id, db'.memories[id]) == PointOf(id, db.memories[id]);
    }
  }

  lemma RenewedConverges(db: Db, index: Index, lost: set<Id>, items: seq<(Id, nat)>, now: Time)
    requires Converged(db, index, lost)
    ensures Converged(RequeueAll(db, items, now), index, lost)
  {
    var db' := RequeueAll(db, items, now);
    forall id | id in db'.memories && id !in db'.outbox && id !in lost ensures Agrees(index, id, db'.memories[id]) {
      assert Listed(items, id) ==> id in ListedIds(items);
    }
  }

  /** What is committed is queued, except by the worker, which has just brought the index up to date. */
  lemma EffectConverges(db: Db, h: History, index: Index, lost: set<Id>, clock: Time, tx: Tx, pick: Pick)
    requires Consistent(db, h) && TxOk(db, h, index, lost, tx) && Converged(db, index, lost)
    requires !tx.Leased? && PickOk(db, tx, pick) && Advance(db, clock, tx, pick).End?
    ensures Converged(Install(db, Advance(db, clock, tx, pick).effect, Start(tx)), index, lost)
  {
    StatementEnd(db, h, index, lost, clock, tx, pick);
    var effect, now := Advance(db, clock, tx, pick).effect, Start(tx);
    match effect
    case Nothing =>
    case Version(id, row, event) => PutFrame(db, id, row, event, now);
    case Renew(items) => RenewedConverges(db, index, lost, items, now);
    case Finish(id, event) => SettledConverges(db, h, index, lost, tx);
    case Postpone(id) =>
  }

  // ---- steps ----

  lemma GenuineStays(h: History, h': History, p: Point)
    requires Genuine(h, p)
    requires forall id | id in h :: id in h' && h[id] <= h'[id]
    ensures Genuine(h', p)
  {
    assert h[p.id] <= h'[p.id];
  }

  lemma ObtainsExclusive(db: Db, tx: Tx, pick: Pick, tx': Tx, other: Tx)
    requires Obtains(db, tx, pick, tx') && Exclusive(tx, other)
    requires var need := Needs(db, tx, pick); need.Some? ==> !Holds(other, need.value)
    ensures Exclusive(tx', other)
  {
  }

  lemma Replaced(s: State, t: Tid, tx: Tx)
    requires Inv(s) && t in s.txs && TxOk(s.db, s.history, s.index, s.lost, tx)
    requires forall u | u in s.txs && u != t :: Exclusive(tx, s.txs[u])
    ensures Inv(s.(txs := s.txs[t := tx]))
  {
    var s' := s.(txs := s.txs[t := tx]);
    assert LocksOk(s') by {
      forall u, v | u in s'.txs && v in s'.txs && u != v ensures Exclusive(s'.txs[u], s'.txs[v]) {
        if u != t && v != t { assert Exclusive(s.txs[u], s.txs[v]); }
      }
    }
    assert TxsOk(s') by {
      forall u | u in s'.txs ensures TxOk(s'.db, s'.history, s'.index, s'.lost, s'.txs[u]) {
        if u != t { assert TxOk(s.db, s.history, s.index, s.lost, s.txs[u]); }
      }
    }
  }

  lemma ExecNextKeeps(s: State, t: Tid, pick: Pick)
    requires Inv(s) && CanExec(s, t, pick) && Advance(s.db, s.clock, s.txs[t], pick).Next?
    ensures Inv(ExecStep(s, t, pick))
  {
    var tx := s.txs[t];
    var tx' := Advance(s.db, s.clock, tx, pick).tx;
    assert TxOk(s.db, s.history, s.index, s.lost, tx);
    StatementNext(s.db, s.history, s.index, s.lost, s.clock, tx, pick);
    forall u | u in s.txs && u != t ensures Exclusive(tx', s.txs[u]) {
      assert Exclusive(tx, s.txs[u]);
      ObtainsExclusive(s.db, tx, pick, tx', s.txs[u]);
    }
    Replaced(s, t, tx');
  }

  lemma ExecEndKeeps(s: State, t: Tid, pick: Pick)
    requires Inv(s) && CanExec(s, t, pick) && Advance(s.db, s.clock, s.txs[t], pick).End?
    ensures Inv(ExecStep(s, t, pick))
  {
    var tx := s.txs[t];
    var s' := ExecStep(s, t, pick);
    assert TxOk(s.db, s.history, s.index, s.lost, tx);
    EffectEvolves(s.db, s.history, s.index, s.lost, s.clock, tx, pick);
    EffectConverges(s.db, s.history, s.index, s.lost, s.clock, tx, pick);
    forall p | p in s.sent ensures Genuine(s'.history, p) { GenuineStays(s.history, s'.history, p); }
    forall u | u in s'.txs ensures TxOk(s'.db, s'.history, s'.index, s'.lost, s'.txs[u]) {
      assert Exclusive(tx, s.txs[u]);
      assert TxOk(s.db, s.history, s.index, s.lost, s.txs[u]);
      Undisturbed(s.db, s.history, s'.db, s'.history, s.index, s.lost, Rows(tx), Scopes(tx), s.txs[u]);
    }
  }

  lemma ApplyConverges(db: Db, index: Index, lost: set<Id>, id: Id)
    requires Converged(db, index, lost) && id in db.memories
    ensures Converged(db, Apply(index, id, db.memories[id]), lost - {id})
    ensures Agrees(Apply(index, id, db.memories[id]), id, db.memories[id])
  {
    var index' := Apply(index, id, db.memories[id]);
    forall other | other in db.memories
      ensures other in db.outbox || other in lost - {id} || Agrees(index', other, db.memories[other])
    {
      if other != id { assert other in db.outbox || other in lost || Agrees(index, other, db.memories[other]); }
    }
  }

  lemma SentGenuine(db: Db, h: History, id: Id)
    requires HistoryOk(db, h) && id in db.memories && !db.memories[id].deleted
    ensures Genuine(h, PointOf(id, db.memories[id]))
  {
    var row := db.memories[id];
    assert VersionsOk(row, h[id]);
    assert PointOf(id, row) == PointOf(id, Stamp(row));
  }

  lemma CallConverges(s: State, t: Tid, took: bool, ok: bool)
    requires Inv(s) && t in s.txs && s.txs[t].Leased? && (ok ==> took)
    ensures var s' := CallStep(s, t, took, ok);
            && Converged(s'.db, s'.index, s'.lost)
            && TxOk(s'.db, s'.history, s'.index, s'.lost, s'.txs[t])
  {
    assert TxOk(s.db, s.history, s.index, s.lost, s.txs[t]);
    ApplyConverges(s.db, s.index, s.lost, s.txs[t].w.id);
  }

  lemma CallPoints(s: State, t: Tid, took: bool, ok: bool)
    requires HistoryOk(s.db, s.history) && PointsOk(s) && t in s.txs && s.txs[t].Leased? && (ok ==> took)
    requires WorkOk(s.db, s.txs[t].w)
    ensures PointsOk(CallStep(s, t, took, ok))
  {
    var id, row := s.txs[t].w.id, s.txs[t].w.seen;
    if !row.deleted { SentGenuine(s.db, s.history, id); }
  }

  lemma IndexUndisturbed(db: Db, h: History, index: Index, lost: set<Id>, index': Index, lost': set<Id>, id: Id, tx: Tx)
    requires TxOk(db, h, index, lost, tx) && id !in Rows(tx)
    requires forall other | other != id :: other in lost ==> other in lost'
    requires forall other | other != id ::
               (other in index <==> other in index') && (other in index ==> index[other] == index'[other])
    ensures TxOk(db, h, index', lost', tx)
  {
    match tx
    case Applied(w, _, _) => assert w.id != id;
    case _ =>
  }

  // The memory under the callback is locked, so no other worker relies on its point.
  lemma CallUndisturbed(s: State, t: Tid, took: bool, ok: bool, u: Tid)
    requires t in s.txs && s.txs[t].Leased? && u in s.txs && u != t
    requires Exclusive(s.txs[t], s.txs[u]) && TxOk(s.db, s.history, s.index, s.lost, s.txs[u])
    ensures var s' := CallStep(s, t, took, ok); TxOk(s'.db, s'.history, s'.index, s'.lost, s'.txs[u])
  {
    var s' := CallStep(s, t, took, ok);
    IndexUndisturbed(s.db, s.history, s.index, s.lost, s'.index, s'.lost, s.txs[t].w.id, s.txs[u]);
  }

  lemma CallKeeps(s: State, t: Tid, took: bool, ok: bool)
    requires Inv(s) && t in s.txs && s.txs[t].Leased? && (ok ==> took)
    ensures Inv(CallStep(s, t, took, ok))
  {
    var s' := CallStep(s, t, took, ok);
    assert TxOk(s.db, s.history, s.index, s.lost, s.txs[t]);
    CallConverges(s, t, took, ok);
    CallPoints(s, t, took, ok);
    CallLocks(s, t, took, ok);
    forall u | u in s'.txs ensures TxOk(s'.db, s'.history, s'.index, s'.lost, s'.txs[u]) {
      if u != t {
        assert Exclusive(s.txs[t], s.txs[u]) && TxOk(s.db, s.history, s.index, s.lost, s.txs[u]);
        CallUndisturbed(s, t, took, ok, u);
      }
    }
  }

  lemma CallLocks(s: State, t: Tid, took: bool, ok: bool)
    requires LocksOk(s) && t in s.txs && s.txs[t].Leased?
    ensures LocksOk(CallStep(s, t, took, ok))
  {
    var s' := CallStep(s, t, took, ok);
    assert Scopes(s'.txs[t]) == Scopes(s.txs[t]);
    assert Rows(s'.txs[t]) == Rows(s.txs[t]) && Jobs(s'.txs[t]) == Jobs(s.txs[t]);
    forall u, v | u in s'.txs && v in s'.txs && u != v ensures Exclusive(s'.txs[u], s'.txs[v]) {
      assert Exclusive(s.txs[u], s.txs[v]);
    }
  }

  lemma DamageKeeps(s: State, id: Id, index: Index)
    requires Inv(s) && index - {id} == s.index - {id}
    ensures Inv(s.(index := index, lost := s.lost + {id}))
  {
    var s' := s.(index := index, lost := s.lost + {id});
    forall other | other != id
      ensures other in index <==> other in s.index
      ensures other in index ==> index[other] == s.index[other]
    {
      assert other in index <==> other in index - {id};
      assert other in s.index <==> other in s.index - {id};
      if other in index { assert index[other] == (index - {id})[other] == (s.index - {id})[other]; }
    }
    forall u | u in s'.txs ensures TxOk(s'.db, s'.history, s'.index, s'.lost, s'.txs[u]) {
      assert TxOk(s.db, s.history, s.index, s.lost, s.txs[u]);
    }
  }

  lemma AddWorkspaceKeeps(s: State, ws: Id)
    requires Inv(s)
    ensures Inv(s.(db := s.db.(workspaces := s.db.workspaces + {ws})))
  {
    var db' := s.db.(workspaces := s.db.workspaces + {ws});
    SameVersionsWider(s.db, s.history, db');
    forall u | u in s.txs ensures TxOk(db', s.history, s.index, s.lost, s.txs[u]) {
      assert TxOk(s.db, s.history, s.index, s.lost, s.txs[u]);
      Undisturbed(s.db, s.history, db', s.history, s.index, s.lost, {}, {}, s.txs[u]);
    }
  }

  lemma SameVersionsWider(db: Db, h: History, db': Db)
    requires Consistent(db, h)
    requires db.workspaces <= db'.workspaces && db'.memories == db.memories && db'.outbox == db.outbox
    ensures Consistent(db', h) && Evolves(db, h, db', h, {}, {})
  {
    forall ws: Id ensures Count(db', ws) == Count(db, ws) <= MAX_PROFILE {
      assert ProfileIds(db', ws) == ProfileIds(db, ws);
      assert Count(db, ws) <= MAX_PROFILE;
    }
    forall ws, key, id ensures HasKey(db', ws, key, id) <==> HasKey(db, ws, key, id) {}
    forall id | id in db'.memories ensures RowOk(db', id) { assert RowOk(db, id); }
  }

  lemma BeginKeeps(s: State, t: Tid, tx: Tx)
    requires Inv(s) && t !in s.txs && Fresh(tx)
    ensures Inv(s.(txs := s.txs[t := tx]))
  {
    assert Scopes(tx) == {} && Rows(tx) == {} && Jobs(tx) == {};
    assert TxOk(s.db, s.history, s.index, s.lost, tx);
  }

  lemma StepKeeps(s: State, action: Action)
    requires Inv(s) && Enabled(s, action)
    ensures Inv(Step(s, action))
  {
    match action
    case Begin(t, tx) => BeginKeeps(s, t, tx);
    case Exec(t, pick) =>
      if Advance(s.db, s.clock, s.txs[t], pick).Next? { ExecNextKeeps(s, t, pick); } else { ExecEndKeeps(s, t, pick); }
    case Call(t, took, ok) => CallKeeps(s, t, took, ok);
    case Rollback(t) =>
    case Tick(to) =>
    case AddWorkspace(ws) => AddWorkspaceKeeps(s, ws);
    case Damage(id, index) => DamageKeeps(s, id, index);
  }

  lemma {:induction false} PathKeeps(states: seq<State>, actions: seq<Action>, n: nat)
    requires Path(states, actions) && n < |states| && Inv(states[0])
    ensures Inv(states[n])
  {
    if n > 0 {
      PathKeeps(states, actions, n - 1);
      assert StepsAt(states, actions, n - 1);
      StepKeeps(states[n - 1], actions[n - 1]);
    }
  }

  lemma RunKeeps(states: seq<State>, actions: seq<Action>, n: nat)
    requires Run(states, actions) && n < |states|
    ensures Inv(states[n])
  {
    forall ws: Id ensures Count(EMPTY.db, ws) == 0 { assert ProfileIds(EMPTY.db, ws) == {}; }
    PathKeeps(states, actions, n);
  }

  // What the invariant says about one memory.
  lemma RowAt(states: seq<State>, actions: seq<Action>, n: nat, id: Id)
    requires Run(states, actions) && n < |states|
    ensures id in states[n].db.memories <==> id in states[n].history
    ensures id in states[n].db.memories ==> VersionsOk(states[n].db.memories[id], states[n].history[id])
  {
    RunKeeps(states, actions, n);
  }

  lemma PointAt(states: seq<State>, actions: seq<Action>, n: nat, p: Point)
    requires Run(states, actions) && n < |states| && p in states[n].sent
    ensures Genuine(states[n].history, p)
  {
    RunKeeps(states, actions, n);
  }
}
