/** What the invariant means to callers, over whole runs. */
module Guarantees {
  import opened Wrappers
  import opened Memories
  import opened Effects
  import opened Commits
  import opened Qdrant
  import opened Protocol
  import opened Safety

  // ---- versions are never rewritten ----

  ghost predicate Extends(h: History, h': History) {
    forall id | id in h :: id in h' && h[id] <= h'[id]
  }

  lemma StepExtends(s: State, action: Action)
    requires Inv(s) && Enabled(s, action)
    ensures Extends(s.history, Step(s, action).history)
  {
    if action.Exec? {
      var outcome := Advance(s.db, s.clock, s.txs[action.t], action.pick);
      if outcome.End? { RecordedExtends(s.history, outcome.effect); }
    }
  }

  lemma RecordedExtends(h: History, effect: Effect)
    ensures Extends(h, Recorded(h, effect))
  {
  }

  lemma OneExtends(states: seq<State>, actions: seq<Action>, n: nat)
    requires Run(states, actions) && n < |actions|
    ensures Extends(states[n].history, states[n + 1].history)
  {
    RunKeeps(states, actions, n);
    assert StepsAt(states, actions, n);
    StepExtends(states[n], actions[n]);
  }

  lemma ExtendsFurther(a: History, b: History, c: History)
    requires Extends(a, b) && Extends(b, c)
    ensures Extends(a, c)
  {
    forall id | id in a ensures id in c && a[id] <= c[id] {
      assert a[id] <= b[id] <= c[id];
    }
  }

  lemma {:induction false} RunExtends(states: seq<State>, actions: seq<Action>, i: nat, j: nat)
    requires Run(states, actions) && i <= j < |states|
    ensures Extends(states[i].history, states[j].history)
  {
    if i < j {
      RunExtends(states, actions, i, j - 1);
      OneExtends(states, actions, j - 1);
      ExtendsFurther(states[i].history, states[j - 1].history, states[j].history);
    }
  }

  /** A memory and a revision fix the workspace, kind, tags, text, key and deletion, throughout the run. */
  lemma RevisionDeterminesVersion(states: seq<State>, actions: seq<Action>, i: nat, j: nat, id: Id)
    requires Run(states, actions) && i <= j < |states|
    requires id in states[i].db.memories && id in states[j].db.memories
    requires states[i].db.memories[id].rev == states[j].db.memories[id].rev
    ensures var a, b := states[i].db.memories[id], states[j].db.memories[id];
            a.ws == b.ws && a.kind == b.kind && a.body == b.body && a.key == b.key && a.deleted == b.deleted
  {
    RowAt(states, actions, i, id);
    RowAt(states, actions, j, id);
    RunExtends(states, actions, i, j);
    assert Stamp(states[i].db.memories[id]) == Stamp(states[j].db.memories[id]);
    assert states[i].history[id] <= states[j].history[id];
  }

  lemma RevisionsGrow(states: seq<State>, actions: seq<Action>, i: nat, j: nat, id: Id)
    requires Run(states, actions) && i <= j < |states| && id in states[i].db.memories
    ensures id in states[j].db.memories && states[i].db.memories[id].rev <= states[j].db.memories[id].rev
  {
    RowAt(states, actions, i, id);
    RowAt(states, actions, j, id);
    RunExtends(states, actions, i, j);
  }

  // ---- no lost updates ----

  // The memory that the next statement of a transaction commits a new version of.
  function Writes(tx: Tx): Option<Id> {
    match tx
    case Creating(c) => if c.stage.Queued? then Some(c.id) else None
    case Updating(u) => if u.stage.Queued? then Some(u.id) else None
    case Moving(m) => if m.stage.Queued? then Some(m.id) else None
    case Forgetting(f) => if f.stage.Queued? then Some(f.id) else None
    case _ => None
  }

  function Target(s: State, action: Action): Option<Id> {
    if action.Exec? && action.t in s.txs then Writes(s.txs[action.t]) else None
  }

  lemma WritesVersions(db: Db, clock: Time, tx: Tx, pick: Pick)
    requires PickOk(db, tx, pick)
    ensures var outcome := Advance(db, clock, tx, pick);
            && (Writes(tx).Some? <==> outcome.End? && outcome.effect.Version?)
            && (Writes(tx).Some? ==> outcome.effect.id == Writes(tx).value)
  {
  }

  function CommitsTo(states: seq<State>, actions: seq<Action>, id: Id, n: nat): nat
    requires n <= |actions| && |states| == |actions| + 1
  {
    if n == 0 then 0
    else CommitsTo(states, actions, id, n - 1) + if Target(states[n - 1], actions[n - 1]) == Some(id) then 1 else 0
  }

  lemma StepCounts(s: State, action: Action, id: Id)
    requires Inv(s) && Enabled(s, action)
    ensures |Versions(Step(s, action).history, id)|
         == |Versions(s.history, id)| + if Target(s, action) == Some(id) then 1 else 0
  {
    if action.Exec? { WritesVersions(s.db, s.clock, s.txs[action.t], action.pick); }
  }

  lemma {:induction false} VersionsAreCommits(states: seq<State>, actions: seq<Action>, id: Id, n: nat)
    requires Run(states, actions) && n < |states|
    ensures |Versions(states[n].history, id)| == CommitsTo(states, actions, id, n)
  {
    if n > 0 {
      VersionsAreCommits(states, actions, id, n - 1);
      RunKeeps(states, actions, n - 1);
      assert StepsAt(states, actions, n - 1);
      StepCounts(states[n - 1], actions[n - 1], id);
    }
  }

  /** A revision counts the committed creation, updates, moves and forgets of its memory. */
  lemma {:induction false} RevisionCountsCommits(states: seq<State>, actions: seq<Action>, id: Id, n: nat)
    requires Run(states, actions) && n < |states|
    ensures id in states[n].db.memories <==> CommitsTo(states, actions, id, n) > 0
    ensures id in states[n].db.memories ==> states[n].db.memories[id].rev == CommitsTo(states, actions, id, n)
  {
    RowAt(states, actions, n, id);
    VersionsAreCommits(states, actions, id, n);
  }

  // The memory and expected revision of a step that commits a guarded write.
  function Guard(s: State, action: Action): Option<(Id, int)> {
    if !action.Exec? || action.t !in s.txs then None
    else match s.txs[action.t]
         case Updating(u) => if u.stage.Queued? then Some((u.id, u.input.expected)) else None
         case Moving(m) => if m.stage.Queued? then Some((m.id, m.expected)) else None
         case _ => None
  }

  lemma GuardedWrite(s: State, action: Action)
    requires Inv(s) && Enabled(s, action) && Guard(s, action).Some?
    ensures var (id, expected), s' := Guard(s, action).value, Step(s, action);
            && id in s.db.memories && s.db.memories[id].rev == expected && !s.db.memories[id].deleted
            && id in s'.db.memories && s'.db.memories[id].rev == expected + 1 && !s'.db.memories[id].deleted
  {
    GuardedStep(s, action);
    GuardedRow(s.db, s.history, s.index, s.lost, s.txs[action.t]);
  }

  // What the last statement of a guarded write commits.
  function GuardedVersion(tx: Tx): (Id, int, Row, Row)
    requires (tx.Updating? && tx.u.stage.Queued?) || (tx.Moving? && tx.m.stage.Queued?)
  {
    if tx.Updating? then (tx.u.id, tx.u.input.expected, tx.u.seen, Edited(tx.u.seen, tx.u.input))
    else (tx.m.id, tx.m.expected, tx.m.seen, Moved(tx.m.seen, tx.m.target))
  }

  lemma GuardedStep(s: State, action: Action)
    requires Enabled(s, action) && Guard(s, action).Some?
    ensures var (id, expected, seen, row) := GuardedVersion(s.txs[action.t]);
            && Guard(s, action) == Some((id, expected))
            && Step(s, action).db == Put(s.db, id, row, Upsert, Start(s.txs[action.t]))
  {
  }

  lemma GuardedRow(db: Db, h: History, index: Index, lost: set<Id>, tx: Tx)
    requires TxOk(db, h, index, lost, tx)
    requires (tx.Updating? && tx.u.stage.Queued?) || (tx.Moving? && tx.m.stage.Queued?)
    ensures var (id, expected, seen, row) := GuardedVersion(tx);
            && id in db.memories && db.memories[id] == seen
            && seen.rev == expected && !seen.deleted && row.rev == expected + 1 && !row.deleted
  {
  }

  /** A guarded write that commits found the expected revision on a live memory and leaves the next one. */
  lemma GuardedCommit(states: seq<State>, actions: seq<Action>, n: nat)
    requires Run(states, actions) && n < |actions| && Guard(states[n], actions[n]).Some?
    ensures var (id, expected) := Guard(states[n], actions[n]).value;
            var before, after := states[n].db.memories, states[n + 1].db.memories;
            && id in before && before[id].rev == expected && !before[id].deleted
            && id in after && after[id].rev == expected + 1 && !after[id].deleted
  {
    RunKeeps(states, actions, n);
    assert StepsAt(states, actions, n);
    GuardedWrite(states[n], actions[n]);
  }

  /** Of all writes guarded by one revision of a memory at most one commits, and none revives a deleted memory. */
  lemma OneWinnerPerRevision(states: seq<State>, actions: seq<Action>, i: nat, j: nat)
    requires Run(states, actions) && i < j < |actions|
    requires Guard(states[i], actions[i]).Some?
    ensures Guard(states[i], actions[i]) != Guard(states[j], actions[j])
  {
    if Guard(states[i], actions[i]) == Guard(states[j], actions[j]) {
      var (id, expected) := Guard(states[i], actions[i]).value;
      GuardedCommit(states, actions, i);
      GuardedCommit(states, actions, j);
      RevisionsGrow(states, actions, i + 1, j, id);
    }
  }

  /** Deletion is final: no later step touches any authored field of a deleted memory. */
  lemma ForgottenForever(states: seq<State>, actions: seq<Action>, i: nat, j: nat, id: Id)
    requires Run(states, actions) && i <= j < |states|
    requires id in states[i].db.memories && states[i].db.memories[id].deleted
    ensures id in states[j].db.memories && Stamp(states[j].db.memories[id]) == Stamp(states[i].db.memories[id])
  {
    RowAt(states, actions, i, id);
    RowAt(states, actions, j, id);
    RunExtends(states, actions, i, j);
    RevisionsGrow(states, actions, i, j, id);
    var row := states[i].db.memories[id];
    assert states[j].history[id][row.rev - 1] == states[i].history[id][row.rev - 1] == Stamp(row);
    assert Stamp(row).deleted;
  }

  // ---- idempotency keys ----

  /** At most one memory holds an idempotency key in a workspace, deleted memories included. */
  lemma OneHolderPerKey(states: seq<State>, actions: seq<Action>, n: nat, ws: Id, key: Option<string>, a: Id, b: Id)
    requires Run(states, actions) && n < |states|
    requires a in states[n].db.memories && b in states[n].db.memories && key.Some?
    requires states[n].db.memories[a].ws == ws && states[n].db.memories[a].key == key
    requires states[n].db.memories[b].ws == ws && states[n].db.memories[b].key == key
    ensures a == b
  {
    RunKeeps(states, actions, n);
    assert HasKey(states[n].db, ws, key, a) && HasKey(states[n].db, ws, key, b);
  }

  /** A forgotten memory keeps its key, so that every later create with the key meets a deleted holder. */
  lemma ForgottenKeyStaysTaken(
      states: seq<State>, actions: seq<Action>, i: nat, j: nat, ws: Id, key: Option<string>, id: Id)
    requires Run(states, actions) && i <= j < |states|
    requires id in states[i].db.memories && key.Some?
    requires states[i].db.memories[id].ws == ws && states[i].db.memories[id].key == key
    requires states[i].db.memories[id].deleted
    ensures KeyHolder(states[j].db, ws, key) == Some(id) && states[j].db.memories[id].deleted
  {
    ForgottenForever(states, actions, i, j, id);
    var before, after := states[i].db.memories[id], states[j].db.memories[id];
    assert Stamp(after).ws == Stamp(before).ws && Stamp(after).key == Stamp(before).key;
    assert Stamp(after).deleted == Stamp(before).deleted;
    assert HasKey(states[j].db, ws, key, id);
    RunKeeps(states, actions, j);
  }

  /**
  From the moment before its insert until it commits, a create finds its key free in the committed
  tables, so the insert cannot collide on the key; once it is done its id is free there too.
  */
  lemma CreateNeedsFreeKey(states: seq<State>, actions: seq<Action>, n: nat)
    requires Run(states, actions) && n < |actions| && actions[n].Exec? && actions[n].t in states[n].txs
    requires var tx := states[n].txs[actions[n].t]; tx.Creating? && (tx.c.stage.Counted? || tx.c.stage.RowHeld())
    ensures var c := states[n].txs[actions[n].t].c;
            && KeyFree(states[n].db, c.ws, c.input.key)
            && (c.stage.RowHeld() ==> c.id !in states[n].db.memories)
  {
    RunKeeps(states, actions, n);
    assert TxOk(states[n].db, states[n].history, states[n].index, states[n].lost, states[n].txs[actions[n].t]);
  }

  /** A move frees its key in the source and brings none to the target. */
  lemma MoveFreesKey(states: seq<State>, actions: seq<Action>, n: nat, ws: Id, key: Option<string>)
    requires Run(states, actions) && n < |actions| && actions[n].Exec? && actions[n].t in states[n].txs
    requires var tx := states[n].txs[actions[n].t]; tx.Moving? && tx.m.stage.Queued?
    ensures var m := states[n].txs[actions[n].t].m;
            && !HasKey(states[n + 1].db, ws, key, m.id)
            && (HasKey(states[n].db, ws, key, m.id) ==> ws == m.source && KeyFree(states[n + 1].db, ws, key))
  {
    RunKeeps(states, actions, n);
    var s, m := states[n], states[n].txs[actions[n].t].m;
    assert TxOk(s.db, s.history, s.index, s.lost, s.txs[actions[n].t]);
    MovedKey(s.db, m.id, m.seen, m.target, m.now, ws, key);
    MoveCommits(states, actions, n);
  }

  lemma MoveCommits(states: seq<State>, actions: seq<Action>, n: nat)
    requires Run(states, actions) && n < |actions| && actions[n].Exec? && actions[n].t in states[n].txs
    requires var tx := states[n].txs[actions[n].t]; tx.Moving? && tx.m.stage.Queued?
    ensures var m := states[n].txs[actions[n].t].m;
            states[n + 1].db == Put(states[n].db, m.id, Moved(m.seen, m.target), Upsert, m.now)
  {
    assert StepsAt(states, actions, n);
  }

  lemma MovedKey(db: Db, id: Id, row: Row, target: Id, now: Time, ws: Id, key: Option<string>)
    requires KeysUnique(db) && id in db.memories && db.memories[id] == row
    ensures var db' := Put(db, id, Moved(row, target), Upsert, now);
            && !HasKey(db', ws, key, id)
            && (HasKey(db, ws, key, id) ==> ws == row.ws && KeyFree(db', ws, key))
  {
    var db' := Put(db, id, Moved(row, target), Upsert, now);
    forall other | other != id && HasKey(db', ws, key, other) ensures HasKey(db, ws, key, other) {}
  }

  // ---- the development profile ----

  /** The profile query is LIMIT 100, and no reachable workspace has more to return. */
  lemma ProfileNeverCut(states: seq<State>, actions: seq<Action>, n: nat, ws: Id)
    requires Run(states, actions) && n < |states|
    ensures |set id | id in LiveIds(states[n].db, ws) && states[n].db.memories[id].kind in {Stack, Practice}| <= 100
  {
    RunKeeps(states, actions, n);
    ProfileIsLive(states[n].db, ws);
    assert Count(states[n].db, ws) <= MAX_PROFILE;
  }

  // ---- indexing ----

  lemma {:induction false} UndamagedLosesNothing(states: seq<State>, actions: seq<Action>, n: nat)
    requires Run(states, actions) && n < |states|
    requires forall i | 0 <= i < n :: !actions[i].Damage?
    ensures states[n].lost == {}
  {
    if n > 0 {
      UndamagedLosesNothing(states, actions, n - 1);
      assert StepsAt(states, actions, n - 1);
    }
  }

  /** Without outside damage a memory that is not queued agrees with the index, and no other point exists. */
  lemma IndexConverges(states: seq<State>, actions: seq<Action>, n: nat, id: Id)
    requires Run(states, actions) && n < |states|
    requires forall i | 0 <= i < n :: !actions[i].Damage?
    ensures var s := states[n];
            && (id in s.db.memories && id !in s.db.outbox && s.db.memories[id].deleted ==> id !in s.index)
            && (id in s.db.memories && id !in s.db.outbox && !s.db.memories[id].deleted ==>
                  id in s.index && s.index[id] == PointOf(id, s.db.memories[id]))
            && (id !in s.db.memories ==> id !in s.index)
  {
    RunKeeps(states, actions, n);
    UndamagedLosesNothing(states, actions, n);
    var s := states[n];
    if id in s.index { assert Genuine(s.history, s.index[id]); }
  }

  /** The reported status is coherent: a live memory is `indexed` exactly when it has no job. */
  lemma StatusCoherent(states: seq<State>, actions: seq<Action>, n: nat, id: Id)
    requires Run(states, actions) && n < |states| && id in states[n].db.memories
    ensures var db := states[n].db;
            && (db.memories[id].indexed == 0 || db.memories[id].indexed == db.memories[id].rev)
            && (!db.memories[id].deleted ==> (db.memories[id].indexed == db.memories[id].rev <==> id !in db.outbox))
  {
    RunKeeps(states, actions, n);
    assert RowOk(states[n].db, id);
  }

  // ---- committed transactions act as if they ran alone ----

  // The whole transaction, run alone on the given tables; Reindex is missing because its list of
  // revisions may be older than the tables.
  ghost function Alone(db: Db, tx: Tx): (Db, Result)
    requires Reply(tx).Some?
  {
    match tx
    case Creating(c) => Remember(db, c.ws, c.input, c.id, c.now)
    case Replaying(p) => Remember(db, p.ws, p.input, p.id, p.now)
    case Updating(u) => Remember(db, u.ws, u.input, 0, u.now)
    case Moving(m) => Move(db, m.source, m.target, m.id, m.expected, m.now)
    case Forgetting(f) => (Forget(db, f.ws, f.id, f.now), Done(f.id, Forgotten(f.seen)))
  }

  lemma CommitIsAlone(db: Db, h: History, index: Index, lost: set<Id>, clock: Time, tx: Tx)
    requires Consistent(db, h) && TxOk(db, h, index, lost, tx)
    requires Reply(tx).Some? && TargetKnown(tx)
    ensures Alone(db, tx) == (Install(db, Advance(db, clock, tx, NoPick).effect, Start(tx)), Reply(tx).value)
  {
    match tx
    case Creating(c) =>
    case Replaying(p) => assert KeyHolder(db, p.ws, p.input.key) == Some(p.holder);
    case Updating(u) =>
    case Moving(m) =>
    case Forgetting(f) =>
  }

  // The answer with which a step commits.
  function Answer(s: State, action: Action): Option<Result> {
    if action.Exec? && action.t in s.txs then Reply(s.txs[action.t]) else None
  }

  /**
  Every create, update, move or forget that commits equals the whole transaction run alone at its
  commit, in its answer and in the tables it leaves. So does a create whose key was taken, whether
  it replays the holder of the key or conflicts with it.
  */
  lemma CommitsAreAtomic(states: seq<State>, actions: seq<Action>, n: nat)
    requires Run(states, actions) && n < |actions|
    requires Answer(states[n], actions[n]).Some?
    ensures Alone(states[n].db, states[n].txs[actions[n].t]) == (states[n + 1].db, Answer(states[n], actions[n]).value)
    ensures Target(states[n], actions[n]).Some? ==>
      var result := Answer(states[n], actions[n]).value;
      && result.Done? && Some(result.id) == Target(states[n], actions[n])
      && result.id in states[n + 1].db.memories && states[n + 1].db.memories[result.id] == result.row
  {
    var s, t := states[n], actions[n].t;
    assert StepsAt(states, actions, n);
    AnswerIsAlone(states, actions, n);
    AnswerCommits(s, actions[n]);
    if Target(s, actions[n]).Some? { WrittenIsDone(s.txs[t]); }
  }

  lemma AnswerIsAlone(states: seq<State>, actions: seq<Action>, n: nat)
    requires Run(states, actions) && n < |actions|
    requires Answer(states[n], actions[n]).Some?
    ensures var s, tx := states[n], states[n].txs[actions[n].t];
            Alone(s.db, tx) == (Install(s.db, Advance(s.db, s.clock, tx, NoPick).effect, Start(tx)), Reply(tx).value)
  {
    var s, t := states[n], actions[n].t;
    RunKeeps(states, actions, n);
    TargetsKnown(states, actions, n, t);
    assert TxOk(s.db, s.history, s.index, s.lost, s.txs[t]);
    CommitIsAlone(s.db, s.history, s.index, s.lost, s.clock, s.txs[t]);
  }

  lemma AnswerCommits(s: State, action: Action)
    requires Enabled(s, action) && Answer(s, action).Some?
    ensures var tx := s.txs[action.t];
            Step(s, action).db == Install(s.db, Advance(s.db, s.clock, tx, NoPick).effect, Start(tx))
  {
  }

  lemma WrittenIsDone(tx: Tx)
    requires Writes(tx).Some?
    ensures Reply(tx).Some? && Reply(tx).value.Done? && Some(Reply(tx).value.id) == Writes(tx)
    ensures forall db, clock ::
              var effect := Advance(db, clock, tx, NoPick).effect;
              effect.Version? && effect.id == Reply(tx).value.id && effect.row == Reply(tx).value.row
  {
  }

  // What the commit of a transaction leaves behind, said of the tables before and after.
  ghost predicate Leaves(db: Db, db': Db, tx: Tx) {
    match tx
    case Creating(c) => Added(db, db', c.ws, c.id, c.input, c.now)
    case Replaying(p) =>
      && db' == db
      && Reply(tx) in {Some(Conflict), Some(Done(p.holder, p.seen))}
      && (Reply(tx) == Some(Done(p.holder, p.seen)) <==> Replays(db, p.ws, p.holder, p.seen, p.input))
    case Updating(u) => Changed(db, db', u.ws, u.id, u.input, u.now)
    case Moving(m) => Relocated(db, db', m.source, m.target, m.id, m.expected, m.now)
    case Forgetting(f) => Erased(db, db', f.ws, f.id, f.now)
    case _ => false
  }

  /**
  What every answering commit of a run leaves in the tables, in terms of the request: a create its
  content under its key, an update its content and kind in the same workspace, a move the memory in
  the target, a forget a blank. The answer is the row as it is then stored.
  */
  lemma CommitsLeave(states: seq<State>, actions: seq<Action>, n: nat)
    requires Run(states, actions) && n < |actions| && Answer(states[n], actions[n]).Some?
    ensures Leaves(states[n].db, states[n + 1].db, states[n].txs[actions[n].t])
    ensures var r := Answer(states[n], actions[n]).value;
            r.Done? ==> r.id in states[n + 1].db.memories && states[n + 1].db.memories[r.id] == r.row
  {
    CommitsAreAtomic(states, actions, n);
    RunKeeps(states, actions, n);
    TargetsKnown(states, actions, n, actions[n].t);
    assert StepsAt(states, actions, n);
    var s := states[n];
    AloneLeaves(s.db, s.history, s.index, s.lost, s.txs[actions[n].t]);
  }

  lemma AloneLeaves(db: Db, h: History, index: Index, lost: set<Id>, tx: Tx)
    requires Consistent(db, h) && TxOk(db, h, index, lost, tx) && Reply(tx).Some? && TargetKnown(tx)
    requires Alone(db, tx).1 == Reply(tx).value
    ensures var (db', r) := Alone(db, tx);
            Leaves(db, db', tx) && (r.Done? ==> r.id in db'.memories && db'.memories[r.id] == r.row)
  {
    match tx
    case Creating(c) => CreateEffect(db, c.ws, c.input, c.id, c.now);
    case Replaying(p) => CreateEffect(db, p.ws, p.input, p.id, p.now);
    case Updating(u) => UpdateEffect(db, u.ws, u.id, u.input, u.now);
    case Moving(m) => MoveEffect(db, m.source, m.target, m.id, m.expected, m.now);
    case Forgetting(f) => ForgetEffect(db, f.ws, f.id, f.now);
  }

  // A create that commits with a memory: the workspace, the key and the memory's id.
  function Created(s: State, action: Action): Option<(Id, Option<string>, Id)> {
    if !action.Exec? || action.t !in s.txs then None
    else
      var tx := s.txs[action.t];
      match Reply(tx)
      case Some(Done(id, _)) =>
        if tx.Creating? then Some((tx.c.ws, tx.c.input.key, id))
        else if tx.Replaying? then Some((tx.p.ws, tx.p.input.key, id))
        else None
      case _ => None
  }

  lemma CreatedHasKey(states: seq<State>, actions: seq<Action>, n: nat)
    requires Run(states, actions) && n < |actions| && Created(states[n], actions[n]).Some?
    ensures var (ws, key, id) := Created(states[n], actions[n]).value;
            && (key.Some? ==> HasKey(states[n + 1].db, ws, key, id))
            && (HasKey(states[n].db, ws, key, id) || (KeyFree(states[n].db, ws, key) && id !in states[n].db.memories))
  {
    RunKeeps(states, actions, n);
    assert StepsAt(states, actions, n);
    var s := states[n];
    assert TxOk(s.db, s.history, s.index, s.lost, s.txs[actions[n].t]);
  }

  /**
  Idempotent creates: after one create under a key has answered with a memory, a later successful
  create under that key and workspace answers with the same memory exactly if that memory still has
  the key there, that is, if it has not been moved away in between.
  */
  lemma CreatesAgree(states: seq<State>, actions: seq<Action>, i: nat, j: nat)
    requires Run(states, actions) && i < j < |actions|
    requires Created(states[i], actions[i]).Some? && Created(states[j], actions[j]).Some?
    requires var c, d := Created(states[i], actions[i]).value, Created(states[j], actions[j]).value;
             c.1.Some? && c.0 == d.0 && c.1 == d.1
    ensures var c, d := Created(states[i], actions[i]).value, Created(states[j], actions[j]).value;
            d.2 == c.2 <==> HasKey(states[j].db, c.0, c.1, c.2)
  {
    CreatedHasKey(states, actions, i);
    CreatedHasKey(states, actions, j);
    var c, d := Created(states[i], actions[i]).value, Created(states[j], actions[j]).value;
    RevisionsGrow(states, actions, i + 1, j, c.2);
    if HasKey(states[j].db, c.0, c.1, c.2) && HasKey(states[j].db, c.0, c.1, d.2) {
      OneHolderPerKey(states, actions, j, c.0, c.1, c.2, d.2);
    }
  }

  /** No answer escapes the results above: what they count is every successful create, update, move and forget. */
  lemma EveryAnswerCounts(s: State, action: Action)
    requires Enabled(s, action) && Answer(s, action).Some? && Answer(s, action).value.Done?
    ensures var tx, id := s.txs[action.t], Answer(s, action).value.id;
            && (tx.Creating? ==> Created(s, action) == Some((tx.c.ws, tx.c.input.key, id)))
            && (tx.Replaying? ==> Created(s, action) == Some((tx.p.ws, tx.p.input.key, id)))
            && (tx.Updating? ==> Guard(s, action) == Some((id, tx.u.input.expected)))
            && (tx.Moving? ==> Guard(s, action) == Some((id, tx.m.expected)))
            && (!tx.Replaying? ==> Target(s, action) == Some(id))
  {
  }

  predicate TargetKnown(tx: Tx) {
    && (tx.Creating? ==> tx.c.input.target.None?)
    && (tx.Replaying? ==> tx.p.input.target.None?)
    && (tx.Updating? ==> tx.u.input.target == Some(tx.u.id))
  }

  lemma StepKeepsTargets(s: State, action: Action, t: Tid)
    requires Enabled(s, action) && (t in s.txs ==> TargetKnown(s.txs[t]))
    ensures t in Step(s, action).txs ==> TargetKnown(Step(s, action).txs[t])
  {
  }

  // The target of the input never changes after the beginning.
  lemma {:induction false} TargetsKnown(states: seq<State>, actions: seq<Action>, n: nat, t: Tid)
    requires Run(states, actions) && n < |states| && t in states[n].txs
    ensures TargetKnown(states[n].txs[t])
  {
    if n > 0 {
      assert StepsAt(states, actions, n - 1);
      if t in states[n - 1].txs { TargetsKnown(states, actions, n - 1, t); }
      StepKeepsTargets(states[n - 1], actions[n - 1], t);
    }
  }
}
