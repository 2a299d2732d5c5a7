/**
Concurrent transactions on the memory store, one SQL statement at a time.

PostgreSQL at READ COMMITTED: a statement reads committed data, a row lock is held until its
transaction ends, and a transaction's own writes become visible all at once when it commits. A
transaction may be rolled back between any two statements; that is also how a commit that is lost
after a successful index call appears. The index call takes effect, if it does, while the memory's
row lock is held.
*/
module Protocol {
  import opened Wrappers
  import opened Memories
  import opened Commits
  import opened Qdrant

  type Tid = nat

  datatype Lock = Scope(ws: Id) | MemoryRow(id: Id) | OutboxRow(id: Id)

  datatype Stage = Begun | HalfScoped | Scoped | Looked | Counted | Written | Queued {
    predicate RowHeld() { Written? || Queued? }
  }

  // Transactions in progress. `seen` is the row as last read, meaningful once it has been read;
  // `now` is the start of the transaction, which is what now() means in its statements.
  datatype CreateTx = CreateTx(stage: Stage, ws: Id, input: Input, id: Id, now: Time)
  // A create whose idempotency key is taken; it has locked and read the holder of the key.
  datatype ReplayTx = ReplayTx(ws: Id, input: Input, id: Id, holder: Id, seen: Row, now: Time)
  datatype UpdateTx = UpdateTx(stage: Stage, ws: Id, input: Input, id: Id, seen: Row, now: Time)
  datatype MoveTx = MoveTx(stage: Stage, source: Id, target: Id, id: Id, expected: int, seen: Row, now: Time)
  datatype ForgetTx = ForgetTx(stage: Stage, ws: Id, id: Id, seen: Row, now: Time)
  datatype ReindexTx = ReindexTx(stage: Stage, scope: Option<Id>, items: seq<(Id, nat)>, done: nat, now: Time)
  datatype WorkTx = WorkTx(id: Id, seen: Row, now: Time)

  datatype Tx =
    | Creating(c: CreateTx)
    | Replaying(p: ReplayTx)
    | Updating(u: UpdateTx)
    | Moving(m: MoveTx)
    | Forgetting(f: ForgetTx)
    | Reindexing(r: ReindexTx)
    | Claiming(start: Time)          // ProcessOne, from here on
    | Claimed(w: WorkTx)
    | Leased(w: WorkTx, job: Job)
    | Applied(w: WorkTx, job: Job, ok: bool)

  datatype State = State(
    db: Db,
    history: History,
    index: Index,
    sent: set<Point>,    // every point ever sent to the index
    lost: set<Id>,       // ids whose point was damaged from outside since it was last applied
    txs: map<Tid, Tx>,
    clock: Time)

  // What a commit does to the tables.
  datatype Effect =
    | Nothing
    | Version(id: Id, row: Row, event: Event)
    | Renew(items: seq<(Id, nat)>)
    | Finish(id: Id, event: Event)
    | Postpone(id: Id)

  datatype Outcome = Next(tx: Tx) | End(effect: Effect)

  // What a statement may return that the tables do not determine.
  datatype Pick = NoPick | Candidate(id: Id) | Listing(items: seq<(Id, nat)>)

  datatype Action =
    | Begin(t: Tid, tx: Tx)
    | Exec(t: Tid, pick: Pick)
    | Call(t: Tid, took: bool, ok: bool)
    | Rollback(t: Tid)
    | Tick(to: Time)
    | AddWorkspace(ws: Id)
    | Damage(id: Id, index: Index)

  // ---- locks ----

  function Low(a: Id, b: Id): Id { if a < b then a else b }
  function High(a: Id, b: Id): Id { if a < b then b else a }

  function Scopes(tx: Tx): set<Id> {
    match tx
    case Creating(c) => if c.stage.Begun? then {} else {c.ws}
    case Replaying(p) => {p.ws}
    case Updating(u) => if u.stage.Begun? then {} else {u.ws}
    case Moving(m) =>
      if m.stage.Begun? then {}
      else if m.stage.HalfScoped? then {Low(m.source, m.target)}
      else {m.source, m.target}
    case _ => {}
  }

  function Rows(tx: Tx): set<Id> {
    match tx
    case Creating(c) => if c.stage.RowHeld() then {c.id} else {}
    case Replaying(p) => {p.holder}
    case Updating(u) => if u.stage.RowHeld() then {u.id} else {}
    case Moving(m) => if m.stage.Looked? || m.stage.Counted? || m.stage.RowHeld() then {m.id} else {}
    case Forgetting(f) => if f.stage.RowHeld() then {f.id} else {}
    case Reindexing(r) =>
      set i | 0 <= i < |r.items| && (i < r.done || (i == r.done && r.stage.Written?)) :: r.items[i].0
    case Claiming(_) => {}
    case Claimed(w) => {w.id}
    case Leased(w, _) => {w.id}
    case Applied(w, _, _) => {w.id}
  }

  function Jobs(tx: Tx): set<Id> {
    match tx
    case Creating(c) => if c.stage.Queued? then {c.id} else {}
    case Updating(u) => if u.stage.Queued? then {u.id} else {}
    case Moving(m) => if m.stage.Queued? then {m.id} else {}
    case Forgetting(f) => if f.stage.Queued? then {f.id} else {}
    case Reindexing(r) => set i | 0 <= i < |r.items| && i < r.done :: r.items[i].0
    case Leased(w, _) => {w.id}
    case Applied(w, _, _) => {w.id}
    case _ => {}
  }

  predicate Holds(tx: Tx, lock: Lock) {
    match lock
    case Scope(ws) => ws in Scopes(tx)
    case MemoryRow(id) => id in Rows(tx)
    case OutboxRow(id) => id in Jobs(tx)
  }

  predicate Exclusive(a: Tx, b: Tx) {
    Scopes(a) !! Scopes(b) && Rows(a) !! Rows(b) && Jobs(a) !! Jobs(b)
  }

  // ---- statements ----

  predicate Matches(db: Db, ws: Id, id: Id) {
    id in db.memories && db.memories[id].ws == ws && !db.memories[id].deleted
  }

  predicate MatchesRevision(db: Db, ws: Id, id: Id, rev: int) {
    id in db.memories && db.memories[id].ws == ws && db.memories[id].rev == rev
  }

  /** The lock that the next statement of `tx` must obtain before it can return. */
  ghost function Needs(db: Db, tx: Tx, pick: Pick): Option<Lock> {
    match tx
    case Creating(c) => CreateNeeds(db, c)
    case Updating(u) => UpdateNeeds(db, u)
    case Moving(m) => MoveNeeds(db, m)
    case Forgetting(f) =>
      if f.stage.Begun? && Matches(db, f.ws, f.id) then Some(MemoryRow(f.id))
      else if f.stage.Written? then Some(OutboxRow(f.id))
      else None
    case Reindexing(r) =>
      if r.stage.Looked? && r.done < |r.items| then Some(MemoryRow(r.items[r.done].0))
      else if r.stage.Written? && r.done < |r.items| then Some(OutboxRow(r.items[r.done].0))
      else None
    case Claiming(_) => if pick.Candidate? then Some(MemoryRow(pick.id)) else None
    case Claimed(w) => Some(OutboxRow(w.id))
    case _ => None
  }

  ghost function CreateNeeds(db: Db, c: CreateTx): Option<Lock> {
    match c.stage
    case Begun => if c.ws in db.workspaces then Some(Scope(c.ws)) else None
    case Scoped => (
      match KeyHolder(db, c.ws, c.input.key)
      case Some(holder) => Some(MemoryRow(holder))
      case None => None)
    case Counted => if c.id in db.memories then None else Some(MemoryRow(c.id))
    case Written => Some(OutboxRow(c.id))
    case _ => None
  }

  ghost function UpdateNeeds(db: Db, u: UpdateTx): Option<Lock> {
    match u.stage
    case Begun => if u.ws in db.workspaces then Some(Scope(u.ws)) else None
    case Counted => if MatchesRevision(db, u.ws, u.id, u.input.expected) then Some(MemoryRow(u.id)) else None
    case Written => Some(OutboxRow(u.id))
    case _ => None
  }

  ghost function MoveNeeds(db: Db, m: MoveTx): Option<Lock> {
    match m.stage
    case Begun => if Low(m.source, m.target) in db.workspaces then Some(Scope(Low(m.source, m.target))) else None
    case HalfScoped =>
      if High(m.source, m.target) in db.workspaces then Some(Scope(High(m.source, m.target))) else None
    case Scoped => if Matches(db, m.source, m.id) then Some(MemoryRow(m.id)) else None
    case Written => Some(OutboxRow(m.id))
    case _ => None
  }

  /** SKIP LOCKED may return any due memory or none; its view of the outbox may be stale. */
  ghost predicate PickOk(db: Db, tx: Tx, pick: Pick) {
    match tx
    case Reindexing(r) =>
      if r.stage.Begun? then pick.Listing? && Snapshot(db, r.scope, pick.items) else pick.NoPick?
    case Claiming(_) => pick.NoPick? || (pick.Candidate? && pick.id in db.memories)
    case _ => pick.NoPick?
  }

  ghost function AdvanceCreate(db: Db, c: CreateTx): Outcome {
    match c.stage
    case Begun => if c.ws in db.workspaces then Next(Creating(c.(stage := Scoped))) else End(Nothing)
    case Scoped => (
      match KeyHolder(db, c.ws, c.input.key)
      case Some(holder) => Next(Replaying(ReplayTx(c.ws, c.input, c.id, holder, db.memories[holder], c.now)))
      case None => Next(Creating(c.(stage := Looked))))
    case Looked =>
      if c.input.kind.Profile() && Count(db, c.ws) >= MAX_PROFILE then End(Nothing)
      else Next(Creating(c.(stage := Counted)))
    case Counted => if c.id in db.memories then End(Nothing) else Next(Creating(c.(stage := Written)))
    case Written => Next(Creating(c.(stage := Queued)))
    case Queued => End(Version(c.id, NewRow(c.ws, c.input), Upsert))
    case HalfScoped => End(Nothing)
  }

  ghost function AdvanceUpdate(db: Db, u: UpdateTx): Outcome {
    match u.stage
    case Begun => if u.ws in db.workspaces then Next(Updating(u.(stage := Scoped))) else End(Nothing)
    case Scoped =>
      if !Matches(db, u.ws, u.id) then End(Nothing)
      else if u.input.expected <= 0 || db.memories[u.id].rev != u.input.expected then End(Nothing)
      else Next(Updating(u.(stage := Looked, seen := db.memories[u.id])))
    case Looked =>
      if u.seen.kind == Memory && u.input.kind.Profile() && Count(db, u.ws) >= MAX_PROFILE then End(Nothing)
      else Next(Updating(u.(stage := Counted)))
    case Counted =>
      // UPDATE ... WHERE workspace_id AND id AND revision: deleted is not tested here.
      if MatchesRevision(db, u.ws, u.id, u.input.expected)
      then Next(Updating(u.(stage := Written, seen := db.memories[u.id]))) else End(Nothing)
    case Written => Next(Updating(u.(stage := Queued)))
    case Queued => End(Version(u.id, Edited(u.seen, u.input), Upsert))
    case HalfScoped => End(Nothing)
  }

  ghost function AdvanceMove(db: Db, m: MoveTx): Outcome {
    match m.stage
    case Begun =>
      if Low(m.source, m.target) in db.workspaces then Next(Moving(m.(stage := HalfScoped))) else End(Nothing)
    case HalfScoped =>
      if High(m.source, m.target) in db.workspaces then Next(Moving(m.(stage := Scoped))) else End(Nothing)
    case Scoped =>
      if Matches(db, m.source, m.id)
      then Next(Moving(m.(stage := Looked, seen := db.memories[m.id]))) else End(Nothing)
    case Looked =>
      if m.seen.kind.Profile() && Count(db, m.target) >= MAX_PROFILE then End(Nothing)
      else Next(Moving(m.(stage := Counted)))
    case Counted =>
      if Matches(db, m.source, m.id) && db.memories[m.id].rev == m.expected
      then Next(Moving(m.(stage := Written))) else End(Nothing)
    case Written => Next(Moving(m.(stage := Queued)))
    case Queued => End(Version(m.id, Moved(m.seen, m.target), Upsert))
  }

  ghost function AdvanceForget(db: Db, f: ForgetTx): Outcome {
    match f.stage
    case Begun =>
      if Matches(db, f.ws, f.id)
      then Next(Forgetting(f.(stage := Written, seen := db.memories[f.id]))) else End(Nothing)
    case Written => Next(Forgetting(f.(stage := Queued)))
    case Queued => End(Version(f.id, Forgotten(f.seen), Delete))
    case _ => End(Nothing)
  }

  ghost function AdvanceReindex(r: ReindexTx, pick: Pick): Outcome {
    match r.stage
    case Begun => if pick.Listing? then Next(Reindexing(r.(stage := Looked, items := pick.items))) else End(Nothing)
    case Looked => if r.done < |r.items| then Next(Reindexing(r.(stage := Written))) else End(Renew(r.items))
    case Written => Next(Reindexing(r.(stage := Looked, done := r.done + 1)))
    case _ => End(Nothing)
  }

  ghost function Advance(db: Db, clock: Time, tx: Tx, pick: Pick): Outcome
    requires PickOk(db, tx, pick)
  {
    match tx
    case Creating(c) => AdvanceCreate(db, c)
    case Replaying(_) => End(Nothing)
    case Updating(u) => AdvanceUpdate(db, u)
    case Moving(m) => AdvanceMove(db, m)
    case Forgetting(f) => AdvanceForget(db, f)
    case Reindexing(r) => AdvanceReindex(r, pick)
    case Claiming(now) =>
      if pick.NoPick? then End(Nothing) else Next(Claimed(WorkTx(pick.id, db.memories[pick.id], now)))
    case Claimed(w) =>
      if w.id !in db.outbox || db.outbox[w.id].next > clock then End(Nothing) else Next(Leased(w, db.outbox[w.id]))
    case Leased(_, _) => Next(tx)
    case Applied(w, job, ok) => End(if ok then Finish(w.id, job.event) else Postpone(w.id))
  }

  // The start of a transaction that may still write.
  function Start(tx: Tx): Time {
    match tx
    case Creating(c) => c.now
    case Replaying(p) => p.now
    case Updating(u) => u.now
    case Moving(m) => m.now
    case Forgetting(f) => f.now
    case Reindexing(r) => r.now
    case Claiming(now) => now
    case Claimed(w) => w.now
    case Leased(w, _) => w.now
    case Applied(w, _, _) => w.now
  }

  ghost function Install(db: Db, effect: Effect, now: Time): Db {
    match effect
    case Nothing => db
    case Version(id, row, event) => Put(db, id, row, event, now)
    case Renew(items) => RequeueAll(db, items, now)
    case Finish(id, event) => Settle(db, id, event)
    case Postpone(id) => Retry(db, id, now)
  }

  function Recorded(h: History, effect: Effect): History {
    if effect.Version? then Record(h, effect.id, effect.row) else h
  }

  /** What a transaction answers its caller with when its last statement has committed. */
  function Reply(tx: Tx): Option<Result> {
    match tx
    case Creating(c) => if c.stage.Queued? then Some(Done(c.id, NewRow(c.ws, c.input))) else None
    case Replaying(p) =>
      if p.seen.deleted || p.seen.body != p.input.body || p.seen.kind != p.input.kind then Some(Conflict)
      else Some(Done(p.holder, p.seen))
    case Updating(u) => if u.stage.Queued? then Some(Done(u.id, Edited(u.seen, u.input))) else None
    case Moving(m) => if m.stage.Queued? then Some(Done(m.id, Moved(m.seen, m.target))) else None
    case Forgetting(f) => if f.stage.Queued? then Some(Done(f.id, Forgotten(f.seen))) else None
    case _ => None
  }

  // ---- steps ----

  predicate Fresh(tx: Tx) {
    match tx
    case Creating(c) => c.stage.Begun? && c.input.target.None?
    case Updating(u) => u.stage.Begun? && u.input.target == Some(u.id)
    case Moving(m) => m.stage.Begun? && m.expected > 0 && m.source != m.target
    case Forgetting(f) => f.stage.Begun?
    case Reindexing(r) => r.stage.Begun? && r.items == [] && r.done == 0
    case Claiming(_) => true
    case _ => false
  }

  predicate Free(s: State, t: Tid, lock: Lock) {
    forall u | u in s.txs && u != t :: !Holds(s.txs[u], lock)
  }

  ghost predicate CanExec(s: State, t: Tid, pick: Pick) {
    && t in s.txs
    && !s.txs[t].Leased?
    && PickOk(s.db, s.txs[t], pick)
    && (var need := Needs(s.db, s.txs[t], pick); need.Some? ==> Free(s, t, need.value))
  }

  ghost predicate Enabled(s: State, action: Action) {
    match action
    case Begin(t, tx) => t !in s.txs && Fresh(tx) && Start(tx) == s.clock
    case Exec(t, pick) => CanExec(s, t, pick)
    case Call(t, took, ok) => t in s.txs && s.txs[t].Leased? && (ok ==> took)
    case Rollback(t) => t in s.txs
    case Tick(to) => s.clock <= to
    case AddWorkspace(ws) => true
    case Damage(id, index) => index - {id} == s.index - {id}
  }

  ghost function ExecStep(s: State, t: Tid, pick: Pick): State
    requires CanExec(s, t, pick)
  {
    match Advance(s.db, s.clock, s.txs[t], pick)
    case Next(tx) => s.(txs := s.txs[t := tx])
    case End(effect) =>
      s.(db := Install(s.db, effect, Start(s.txs[t])), history := Recorded(s.history, effect), txs := s.txs - {t})
  }

  // The callback of ProcessOne: the index may take the point without the worker learning of it.
  function CallStep(s: State, t: Tid, took: bool, ok: bool): State
    requires t in s.txs && s.txs[t].Leased?
  {
    var Leased(w, job) := s.txs[t];
    var sent := if w.seen.deleted then s.sent else s.sent + {PointOf(w.id, w.seen)};
    var s' := s.(txs := s.txs[t := Applied(w, job, ok)], sent := sent);
    if took then s'.(index := Apply(s.index, w.id, w.seen), lost := s.lost - {w.id}) else s'
  }

  ghost function Step(s: State, action: Action): State
    requires Enabled(s, action)
  {
    match action
    case Begin(t, tx) => s.(txs := s.txs[t := tx])
    case Exec(t, pick) => ExecStep(s, t, pick)
    case Call(t, took, ok) => CallStep(s, t, took, ok)
    case Rollback(t) => s.(txs := s.txs - {t})
    case Tick(to) => s.(clock := to)
    case AddWorkspace(ws) => s.(db := s.db.(workspaces := s.db.workspaces + {ws}))
    case Damage(id, index) => s.(index := index, lost := s.lost + {id})
  }

  const EMPTY := State(Db({}, map[], map[]), map[], map[], {}, {}, map[], 0)

  ghost predicate StepsAt(states: seq<State>, actions: seq<Action>, i: nat)
    requires |states| == |actions| + 1 && i < |actions|
  {
    Enabled(states[i], actions[i]) && states[i + 1] == Step(states[i], actions[i])
  }

  ghost predicate Path(states: seq<State>, actions: seq<Action>) {
    && |states| == |actions| + 1
    && forall i | 0 <= i < |actions| :: StepsAt(states, actions, i)
  }

  ghost predicate Run(states: seq<State>, actions: seq<Action>) {
    Path(states, actions) && states[0] == EMPTY
  }
}
