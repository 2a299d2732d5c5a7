/**
The two tables behind the memory store, `memories` and `outbox`, and what one committed
transaction of each kind does to them.

Ids are canonical UUIDs. Written in lower case they have a fixed length, so the text order that
Move sorts by is the order of the 128-bit numbers, and an id is modelled as that number.
*/
module Memories {
  import opened Wrappers

  type Id = nat
  type Time = nat

  // Instants are microseconds, as in PostgreSQL.
  const SECOND: nat := 1_000_000
  const MAX_PROFILE: nat := 100

  datatype Kind = Memory | Stack | Practice {
    predicate Profile() { this != Memory }
  }

  datatype Body = Body(title: string, content: string, tags: seq<string>, source: string)

  // `indexed` is the column indexed_revision, `key` the idempotency key.
  datatype Row = Row(kind: Kind, ws: Id, body: Body, rev: nat, indexed: nat, key: Option<string>, deleted: bool)

  datatype Event = Upsert | Delete

  // A row of the outbox; `next` is next_attempt.
  datatype Job = Job(event: Event, rev: nat, attempts: nat, next: Time, created: Time)

  datatype Db = Db(workspaces: set<Id>, memories: map<Id, Row>, outbox: map<Id, Job>)

  // A validated RememberInput. `target` is None when the request carries no memory id.
  datatype Input = Input(target: Option<Id>, kind: Kind, body: Body, expected: int, key: Option<string>)

  datatype Result = Done(id: Id, row: Row) | NotFound | Conflict | Invalid | Failed

  const EMPTY_BODY := Body("", "", [], "")

  // ---- queries ----

  predicate InProfile(row: Row, ws: Id) {
    row.ws == ws && !row.deleted && row.kind.Profile()
  }

  function ProfileIds(db: Db, ws: Id): set<Id> {
    set id | id in db.memories && InProfile(db.memories[id], ws)
  }

  function Count(db: Db, ws: Id): nat {
    |ProfileIds(db, ws)|
  }

  predicate HasKey(db: Db, ws: Id, key: Option<string>, id: Id) {
    key.Some? && id in db.memories && db.memories[id].ws == ws && db.memories[id].key == key
  }

  ghost predicate KeyFree(db: Db, ws: Id, key: Option<string>) {
    forall id :: !HasKey(db, ws, key, id)
  }

  ghost function KeyHolder(db: Db, ws: Id, key: Option<string>): (r: Option<Id>)
    ensures r.None? <==> KeyFree(db, ws, key)
    ensures r.Some? ==> HasKey(db, ws, key, r.value)
  {
    if KeyFree(db, ws, key) then None
    else
      var id :| HasKey(db, ws, key, id);
      Some(id)
  }

  // ---- rows that the statements write ----

  function NewRow(ws: Id, input: Input): Row {
    Row(input.kind, ws, input.body, 1, 0, input.key, false)
  }

  function Edited(row: Row, input: Input): Row {
    row.(kind := input.kind, body := input.body, rev := row.rev + 1, indexed := 0)
  }

  function Moved(row: Row, target: Id): Row {
    row.(ws := target, key := None, rev := row.rev + 1, indexed := 0)
  }

  function Forgotten(row: Row): Row {
    row.(body := EMPTY_BODY, deleted := true, rev := row.rev + 1, indexed := 0)
  }

  // ---- writes ----

  // outboxTx: insert, or reset everything of the existing job except its creation time.
  function Queue(db: Db, id: Id, event: Event, rev: nat, now: Time): Db {
    var created := if id in db.outbox then db.outbox[id].created else now;
    db.(outbox := db.outbox[id := Job(event, rev, 0, now, created)])
  }

  // A new version of a memory together with its outbox job.
  function Put(db: Db, id: Id, row: Row, event: Event, now: Time): Db {
    Queue(db.(memories := db.memories[id := row]), id, event, row.rev, now)
  }

  // One round of the Reindex loop. `rev` is the revision the unlocked read saw.
  function Requeue(db: Db, id: Id, rev: nat, now: Time): Db
    requires id in db.memories
  {
    Queue(db.(memories := db.memories[id := db.memories[id].(indexed := 0)]), id, Upsert, rev, now)
  }

  // What the whole loop amounts to when no memory is listed twice.
  ghost function RequeueAll(db: Db, items: seq<(Id, nat)>, now: Time): Db {
    Db(db.workspaces,
       map id | id in db.memories :: if Listed(items, id) then db.memories[id].(indexed := 0) else db.memories[id],
       map id | id in db.outbox.Keys + ListedIds(items) ::
         if Listed(items, id)
         then Job(Upsert, ListedRev(items, id), 0, now, if id in db.outbox then db.outbox[id].created else now)
         else db.outbox[id])
  }

  ghost function ListedIds(items: seq<(Id, nat)>): set<Id> {
    set i | 0 <= i < |items| :: items[i].0
  }

  ghost function ListedRev(items: seq<(Id, nat)>, id: Id): nat
    requires Listed(items, id)
  {
    var i :| 0 <= i < |items| && items[i].0 == id;
    items[i].1
  }

  function Power2(n: nat): nat {
    if n == 0 then 1 else 2 * Power2(n - 1)
  }

  function Min(a: int, b: int): int {
    if a < b then a else b
  }

  // Doubles from two seconds with every failed attempt, with the exponent held at 9, up to five minutes.
  function Delay(attempts: nat): nat {
    Min(300 * SECOND, SECOND * Power2(Min(attempts + 1, 9)))
  }

  // ProcessOne after a failed callback.
  function Retry(db: Db, id: Id, now: Time): Db {
    if id !in db.outbox then db
    else
      var job := db.outbox[id];
      db.(outbox := db.outbox[id := job.(attempts := job.attempts + 1, next := now + Delay(job.attempts))])
  }

  // ProcessOne after a successful callback, for a job whose event was read under the lock.
  function Settle(db: Db, id: Id, event: Event): Db {
    var memories :=
      if event == Delete || id !in db.memories then db.memories
      else db.memories[id := db.memories[id].(indexed := db.memories[id].rev)];
    db.(memories := memories, outbox := db.outbox - {id})
  }

  // ---- whole transactions, taken as if nothing ran beside them ----

  ghost function Create(db: Db, ws: Id, input: Input, newId: Id, now: Time): (Db, Result) {
    match KeyHolder(db, ws, input.key)
    case Some(id) =>
      var row := db.memories[id];
      (db, if row.deleted || row.body != input.body || row.kind != input.kind then Conflict else Done(id, row))
    case None =>
      if input.kind.Profile() && Count(db, ws) >= MAX_PROFILE then (db, Invalid)
      else if newId in db.memories then (db, Failed)
      else (Put(db, newId, NewRow(ws, input), Upsert, now), Done(newId, NewRow(ws, input)))
  }

  ghost function Update(db: Db, ws: Id, id: Id, input: Input, now: Time): (Db, Result) {
    if id !in db.memories || db.memories[id].ws != ws || db.memories[id].deleted then (db, NotFound)
    else
      var row := db.memories[id];
      if input.expected <= 0 || row.rev != input.expected then (db, Conflict)
      else if row.kind == Memory && input.kind.Profile() && Count(db, ws) >= MAX_PROFILE then (db, Invalid)
      else (Put(db, id, Edited(row, input), Upsert, now), Done(id, Edited(row, input)))
  }

  ghost function Remember(db: Db, ws: Id, input: Input, newId: Id, now: Time): (Db, Result) {
    if ws !in db.workspaces then (db, NotFound)
    else match input.target
         case None => Create(db, ws, input, newId, now)
         case Some(id) => Update(db, ws, id, input, now)
  }

  ghost function Move(db: Db, source: Id, target: Id, id: Id, expected: int, now: Time): (Db, Result) {
    if expected <= 0 || source == target then (db, Invalid)
    else if source !in db.workspaces || target !in db.workspaces then (db, NotFound)
    else if id !in db.memories || db.memories[id].ws != source || db.memories[id].deleted then (db, Conflict)
    else
      var row := db.memories[id];
      if row.kind.Profile() && Count(db, target) >= MAX_PROFILE then (db, Invalid)
      else if row.rev != expected then (db, Conflict)
      else (Put(db, id, Moved(row, target), Upsert, now), Done(id, Moved(row, target)))
  }

  ghost function Forget(db: Db, ws: Id, id: Id, now: Time): Db {
    if id !in db.memories || db.memories[id].ws != ws || db.memories[id].deleted then db
    else Put(db, id, Forgotten(db.memories[id]), Delete, now)
  }

  // A listing of live memories with their revisions, in no particular order.
  ghost predicate Snapshot(db: Db, scope: Option<Id>, items: seq<(Id, nat)>) {
    && Distinct(items)
    && (forall i | 0 <= i < |items| ::
          items[i].0 in db.memories && InScope(db.memories[items[i].0], scope) &&
              items[i].1 == db.memories[items[i].0].rev)
    && (forall id | id in db.memories && InScope(db.memories[id], scope) :: Listed(items, id))
  }

  predicate InScope(row: Row, scope: Option<Id>) {
    !row.deleted && (scope.Some? ==> row.ws == scope.value)
  }

  ghost predicate Listed(items: seq<(Id, nat)>, id: Id) {
    exists i :: 0 <= i < |items| && items[i].0 == id
  }

  ghost predicate Distinct(items: seq<(Id, nat)>) {
    forall i, j | 0 <= i < j < |items| :: items[i].0 != items[j].0
  }

  // ---- the table invariant ----

  ghost predicate RowOk(db: Db, id: Id)
    requires id in db.memories
  {
    var row := db.memories[id];
    && row.ws in db.workspaces
    && row.rev >= 1
    && (row.indexed == 0 || row.indexed == row.rev)
    && (id in db.outbox ==>
          && row.indexed == 0
          && db.outbox[id].rev <= row.rev
          && (db.outbox[id].event == Delete ==> row.deleted))
    && (id !in db.outbox && !row.deleted ==> row.indexed == row.rev)
  }

  ghost predicate KeysUnique(db: Db) {
    forall ws, key, a, b | HasKey(db, ws, key, a) && HasKey(db, ws, key, b) :: a == b
  }

  ghost predicate WithinCap(db: Db) {
    forall ws: Id :: Count(db, ws) <= MAX_PROFILE
  }

  ghost predicate TablesOk(db: Db) {
    && db.outbox.Keys <= db.memories.Keys
    && (forall id | id in db.memories :: RowOk(db, id))
    && KeysUnique(db)
    && WithinCap(db)
  }

  // ---- the Reindex loop, one round at a time ----

  lemma RequeueNone(db: Db, now: Time)
    ensures RequeueAll(db, [], now) == db
  {
    assert ListedIds([]) == {};
  }

  lemma RequeueNext(db: Db, items: seq<(Id, nat)>, n: nat, now: Time)
    requires n < |items| && Distinct(items) && items[n].0 in db.memories
    ensures RequeueAll(db, items[..n + 1], now) == Requeue(RequeueAll(db, items[..n], now), items[n].0, items[n].1, now)
  {
    var less := items[..n];
    assert items[..n + 1] == less + [items[n]];
    assert !Listed(less, items[n].0);
    RequeueSnoc(db, less, items[n], now);
  }

  lemma RequeueSnoc(db: Db, items: seq<(Id, nat)>, item: (Id, nat), now: Time)
    requires Distinct(items + [item]) && !Listed(items, item.0) && item.0 in db.memories
    ensures RequeueAll(db, items + [item], now) == Requeue(RequeueAll(db, items, now), item.0, item.1, now)
  {
    var more := RequeueAll(db, items + [item], now);
    var after := Requeue(RequeueAll(db, items, now), item.0, item.1, now);
    RequeuedRowsSnoc(db, items, item, now);
    assert more.outbox.Keys == after.outbox.Keys by { ListedIdsSnoc(items, item); }
    forall id | id in more.outbox ensures more.outbox[id] == after.outbox[id] {
      RequeuedJobSnoc(db, items, item, now, id);
    }
  }

  lemma RequeuedRowsSnoc(db: Db, items: seq<(Id, nat)>, item: (Id, nat), now: Time)
    requires item.0 in db.memories
    ensures RequeueAll(db, items + [item], now).memories
         == Requeue(RequeueAll(db, items, now), item.0, item.1, now).memories
  {
    forall id { ListedSnoc(items, item, id); }
  }

  lemma RequeuedJobSnoc(db: Db, items: seq<(Id, nat)>, item: (Id, nat), now: Time, id: Id)
    requires Distinct(items + [item]) && !Listed(items, item.0) && item.0 in db.memories
    requires id in RequeueAll(db, items + [item], now).outbox
    ensures var after := Requeue(RequeueAll(db, items, now), item.0, item.1, now);
            id in after.outbox && after.outbox[id] == RequeueAll(db, items + [item], now).outbox[id]
  {
    ListedSnoc(items, item, id);
    ListedIdsSnoc(items, item);
    assert forall other :: other in ListedIds(items) <==> Listed(items, other);
    if Listed(items + [item], id) { ListedRevSnoc(items, item, id); }
  }

  lemma ListedIdsSnoc(items: seq<(Id, nat)>, item: (Id, nat))
    ensures ListedIds(items + [item]) == ListedIds(items) + {item.0}
  {
    forall id ensures id in ListedIds(items + [item]) <==> id in ListedIds(items) + {item.0} {
      ListedSnoc(items, item, id);
      assert id in ListedIds(items + [item]) <==> Listed(items + [item], id);
      assert id in ListedIds(items) <==> Listed(items, id);
    }
  }

  lemma ListedRevSnoc(items: seq<(Id, nat)>, item: (Id, nat), id: Id)
    requires Distinct(items + [item]) && Listed(items + [item], id)
    ensures Listed(items, id) ==> ListedRev(items + [item], id) == ListedRev(items, id)
    ensures id == item.0 ==> ListedRev(items + [item], id) == item.1
  {
    var more := items + [item];
    var i :| 0 <= i < |more| && more[i].0 == id && more[i].1 == ListedRev(more, id);
    if Listed(items, id) {
      var j :| 0 <= j < |items| && items[j].0 == id && items[j].1 == ListedRev(items, id);
      assert more[j].0 == id;
      assert i == j;
    }
    if id == item.0 {
      assert more[|items|].0 == id;
      assert i == |items|;
    }
  }

  lemma ListedSnoc(items: seq<(Id, nat)>, item: (Id, nat), id: Id)
    ensures Listed(items + [item], id) <==> Listed(items, id) || id == item.0
  {
    var more := items + [item];
    if Listed(items, id) {
      var i :| 0 <= i < |items| && items[i].0 == id;
      assert more[i].0 == id;
    }
    assert more[|items|] == item;
  }
}
