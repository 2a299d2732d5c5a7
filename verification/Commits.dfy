/**
What a commit may change. The history records every committed version of every memory: the
version at revision r of memory id is history[id][r - 1].
*/
module Commits {
  import opened Wrappers
  import opened Sets
  import opened Memories

  type History = map<Id, seq<Row>>

  // A version is a row without its indexing progress.
  function Stamp(row: Row): Row {
    row.(indexed := 0)
  }

  function Versions(h: History, id: Id): seq<Row> {
    if id in h then h[id] else []
  }

  function Record(h: History, id: Id, row: Row): History {
    h[id := Versions(h, id) + [Stamp(row)]]
  }

  ghost predicate VersionsOk(row: Row, versions: seq<Row>) {
    && |versions| == row.rev >= 1
    && versions[row.rev - 1] == Stamp(row)
    && (forall r | 0 <= r < |versions| :: versions[r].rev == r + 1)
    && (forall r | 0 <= r < |versions| - 1 :: !versions[r].deleted)
  }

  ghost predicate HistoryOk(db: Db, h: History) {
    && h.Keys == db.memories.Keys
    && forall id | id in db.memories :: VersionsOk(db.memories[id], h[id])
  }

  /** `rows` are the memories and `scopes` the workspaces that the committing transaction has locked. */
  ghost predicate Evolves(db: Db, h: History, db': Db, h': History, rows: set<Id>, scopes: set<Id>) {
    && db.workspaces <= db'.workspaces
    && db.memories.Keys <= db'.memories.Keys
    && (forall id | id in db.memories :: db.memories[id].rev <= db'.memories[id].rev)
    && (forall id | id !in rows :: SameRow(db, db', id))
    && (forall id | id in h :: id in h' && h[id] <= h'[id])
    && (forall ws | ws !in scopes :: Count(db', ws) <= Count(db, ws))
    && (forall ws, key | ws !in scopes && KeyFree(db, ws, key) :: KeyFree(db', ws, key))
  }

  ghost predicate SameRow(db: Db, db': Db, id: Id) {
    && (id in db.memories <==> id in db'.memories)
    && (id in db.memories ==> db'.memories[id] == db.memories[id])
    && (id in db.outbox <==> id in db'.outbox)
    && (id in db.outbox ==> db'.outbox[id] == db.outbox[id])
  }

  /** When a new version of memory `id` may be committed by a transaction holding `scopes`. */
  ghost predicate VersionOk(db: Db, id: Id, row: Row, event: Event, scopes: set<Id>) {
    && row.indexed == 0
    && row.ws in db.workspaces
    && row.rev == (if id in db.memories then db.memories[id].rev + 1 else 1)
    && (id in db.memories ==> !db.memories[id].deleted)
    && (event == Delete ==> row.deleted)
    && (row.key.Some? ==> HasKey(db, row.ws, row.key, id) || (row.ws in scopes && KeyFree(db, row.ws, row.key)))
    && (InProfile(row, row.ws) ==>
          || (id in db.memories && InProfile(db.memories[id], row.ws))
          || (row.ws in scopes && Count(db, row.ws) < MAX_PROFILE))
  }

  ghost predicate Consistent(db: Db, h: History) {
    TablesOk(db) && HistoryOk(db, h)
  }

  // ---- a new version ----

  lemma PutProfile(db: Db, id: Id, row: Row, event: Event, now: Time, ws: Id)
    ensures var db' := Put(db, id, row, event, now);
            ProfileIds(db', ws) == if InProfile(row, ws) then ProfileIds(db, ws) + {id} else ProfileIds(db, ws) - {id}
  {
  }

  lemma PutCounts(db: Db, id: Id, row: Row, event: Event, now: Time, scopes: set<Id>, ws: Id)
    requires WithinCap(db) && VersionOk(db, id, row, event, scopes)
    ensures Count(Put(db, id, row, event, now), ws) <= MAX_PROFILE
    ensures ws !in scopes ==> Count(Put(db, id, row, event, now), ws) <= Count(db, ws)
  {
    PutProfile(db, id, row, event, now, ws);
    assert Count(db, ws) <= MAX_PROFILE;
    if InProfile(row, ws) && id in ProfileIds(db, ws) {
      assert ProfileIds(db, ws) + {id} == ProfileIds(db, ws);
    } else if !InProfile(row, ws) {
      SubsetSize(ProfileIds(db, ws) - {id}, ProfileIds(db, ws));
    }
  }

  lemma PutKeyTaken(
      db: Db, id: Id, row: Row, event: Event, now: Time, scopes: set<Id>, ws: Id, key: Option<string>, other: Id)
    requires KeysUnique(db) && VersionOk(db, id, row, event, scopes)
    requires other != id && HasKey(Put(db, id, row, event, now), ws, key, id)
    ensures !HasKey(Put(db, id, row, event, now), ws, key, other)
  {
    assert HasKey(Put(db, id, row, event, now), ws, key, other) <==> HasKey(db, ws, key, other);
  }

  lemma PutKeys(db: Db, id: Id, row: Row, event: Event, now: Time, scopes: set<Id>)
    requires KeysUnique(db) && VersionOk(db, id, row, event, scopes)
    ensures KeysUnique(Put(db, id, row, event, now))
    ensures forall ws, key | ws !in scopes && KeyFree(db, ws, key) :: KeyFree(Put(db, id, row, event, now), ws, key)
  {
    var db' := Put(db, id, row, event, now);
    forall ws, key, other | other != id ensures HasKey(db', ws, key, other) <==> HasKey(db, ws, key, other) {}
    forall ws, key, a, b | HasKey(db', ws, key, a) && HasKey(db', ws, key, b) ensures a == b {
      if a == id && b != id { PutKeyTaken(db, id, row, event, now, scopes, ws, key, b); }
      if b == id && a != id { PutKeyTaken(db, id, row, event, now, scopes, ws, key, a); }
    }
    forall ws, key | ws !in scopes && KeyFree(db, ws, key) ensures KeyFree(db', ws, key) {
      assert !HasKey(db, ws, key, id);
    }
  }

  lemma PutHistory(db: Db, h: History, id: Id, row: Row, event: Event, now: Time, scopes: set<Id>)
    requires HistoryOk(db, h) && VersionOk(db, id, row, event, scopes)
    ensures HistoryOk(Put(db, id, row, event, now), Record(h, id, row))
    ensures forall other | other in h :: other in Record(h, id, row) && h[other] <= Record(h, id, row)[other]
  {
    var db' := Put(db, id, row, event, now);
    var h' := Record(h, id, row);
    assert VersionsOk(db'.memories[id], h'[id]) by {
      if id in db.memories { assert VersionsOk(db.memories[id], h[id]); }
    }
  }

  lemma PutRows(db: Db, id: Id, row: Row, event: Event, now: Time, scopes: set<Id>)
    requires TablesOk(db) && VersionOk(db, id, row, event, scopes)
    ensures var db' := Put(db, id, row, event, now);
            && db'.outbox.Keys <= db'.memories.Keys
            && forall other | other in db'.memories :: RowOk(db', other)
  {
    var db' := Put(db, id, row, event, now);
    forall other | other in db'.memories ensures RowOk(db', other) {
      if other != id { assert RowOk(db, other); }
    }
  }

  lemma PutConsistent(db: Db, h: History, id: Id, row: Row, event: Event, now: Time, scopes: set<Id>)
    requires Consistent(db, h) && VersionOk(db, id, row, event, scopes)
    ensures Consistent(Put(db, id, row, event, now), Record(h, id, row))
  {
    PutRows(db, id, row, event, now, scopes);
    PutKeys(db, id, row, event, now, scopes);
    PutCap(db, id, row, event, now, scopes);
    PutHistory(db, h, id, row, event, now, scopes);
  }

  lemma PutFrame(db: Db, id: Id, row: Row, event: Event, now: Time)
    ensures forall other | other != id :: SameRow(db, Put(db, id, row, event, now), other)
  {
  }

  lemma PutEvolves(db: Db, h: History, id: Id, row: Row, event: Event, now: Time, scopes: set<Id>)
    requires Consistent(db, h) && VersionOk(db, id, row, event, scopes)
    ensures Evolves(db, h, Put(db, id, row, event, now), Record(h, id, row), {id}, scopes)
  {
    PutFrame(db, id, row, event, now);
    PutKeys(db, id, row, event, now, scopes);
    PutCap(db, id, row, event, now, scopes);
    PutHistory(db, h, id, row, event, now, scopes);
  }

  lemma PutCap(db: Db, id: Id, row: Row, event: Event, now: Time, scopes: set<Id>)
    requires WithinCap(db) && VersionOk(db, id, row, event, scopes)
    ensures WithinCap(Put(db, id, row, event, now))
    ensures forall ws | ws !in scopes :: Count(Put(db, id, row, event, now), ws) <= Count(db, ws)
  {
    forall ws: Id
      ensures Count(Put(db, id, row, event, now), ws) <= MAX_PROFILE
      ensures ws !in scopes ==> Count(Put(db, id, row, event, now), ws) <= Count(db, ws)
    {
      PutCounts(db, id, row, event, now, scopes, ws);
    }
  }

  // ---- writes that change no version ----

  ghost predicate SameVersions(db: Db, db': Db) {
    && db'.workspaces == db.workspaces
    && db'.memories.Keys == db.memories.Keys
    && forall id | id in db.memories :: Stamp(db'.memories[id]) == Stamp(db.memories[id])
  }

  lemma SameProfiles(db: Db, db': Db)
    requires SameVersions(db, db')
    ensures forall ws: Id :: Count(db', ws) == Count(db, ws)
    ensures forall ws, key, id :: HasKey(db', ws, key, id) <==> HasKey(db, ws, key, id)
  {
    forall id | id in db.memories
      ensures db'.memories[id] == db.memories[id].(indexed := db'.memories[id].indexed)
    {
      assert Stamp(db'.memories[id]) == Stamp(db.memories[id]);
    }
    forall ws: Id ensures Count(db', ws) == Count(db, ws) {
      assert ProfileIds(db', ws) == ProfileIds(db, ws);
    }
  }

  lemma SameHistory(db: Db, h: History, db': Db)
    requires HistoryOk(db, h) && SameVersions(db, db')
    ensures HistoryOk(db', h)
  {
    forall id | id in db'.memories ensures VersionsOk(db'.memories[id], h[id]) {
      assert VersionsOk(db.memories[id], h[id]);
      assert Stamp(db'.memories[id]) == Stamp(db.memories[id]);
    }
  }

  lemma SameEvolves(db: Db, h: History, db': Db, rows: set<Id>, scopes: set<Id>)
    requires SameVersions(db, db') && forall id | id !in rows :: SameRow(db, db', id)
    ensures Evolves(db, h, db', h, rows, scopes)
    ensures forall ws: Id :: Count(db', ws) == Count(db, ws)
    ensures forall ws, key, id :: HasKey(db', ws, key, id) <==> HasKey(db, ws, key, id)
  {
    SameProfiles(db, db');
    forall id | id in db.memories ensures db'.memories[id].rev == db.memories[id].rev {
      assert Stamp(db'.memories[id]) == Stamp(db.memories[id]);
    }
  }

  lemma SameVersionsKeep(db: Db, h: History, db': Db, rows: set<Id>, scopes: set<Id>)
    requires Consistent(db, h) && SameVersions(db, db')
    requires forall id | id !in rows :: SameRow(db, db', id)
    requires db'.outbox.Keys <= db'.memories.Keys
    requires forall id | id in db.memories && id in rows :: RowOk(db', id)
    ensures Consistent(db', h) && Evolves(db, h, db', h, rows, scopes)
  {
    SameEvolves(db, h, db', rows, scopes);
    forall ws: Id ensures Count(db', ws) <= MAX_PROFILE { assert Count(db, ws) <= MAX_PROFILE; }
    forall id | id in db'.memories ensures RowOk(db', id) { assert RowOk(db, id); }
    SameHistory(db, h, db');
  }

  lemma RequeuedRowOk(db: Db, items: seq<(Id, nat)>, now: Time, id: Id)
    requires TablesOk(db) && id in db.memories && Listed(items, id)
    requires forall i | 0 <= i < |items| :: items[i].0 in db.memories && items[i].1 <= db.memories[items[i].0].rev
    ensures id in RequeueAll(db, items, now).memories && RowOk(RequeueAll(db, items, now), id)
  {
    assert RowOk(db, id);
    var i :| 0 <= i < |items| && items[i].0 == id && items[i].1 == ListedRev(items, id);
    assert id in ListedIds(items);
  }

  lemma RequeueEvolves(db: Db, h: History, items: seq<(Id, nat)>, now: Time, scopes: set<Id>)
    requires Consistent(db, h)
    requires forall i | 0 <= i < |items| :: items[i].0 in db.memories && items[i].1 <= db.memories[items[i].0].rev
    ensures var db' := RequeueAll(db, items, now);
            Consistent(db', h) && Evolves(db, h, db', h, ListedIds(items), scopes)
  {
    var db' := RequeueAll(db, items, now);
    RequeuedSame(db, items, now);
    forall id | id in db.memories && id in ListedIds(items) ensures RowOk(db', id) {
      assert Listed(items, id);
      RequeuedRowOk(db, items, now, id);
    }
    SameVersionsKeep(db, h, db', ListedIds(items), scopes);
  }

  lemma RequeuedSame(db: Db, items: seq<(Id, nat)>, now: Time)
    requires db.outbox.Keys <= db.memories.Keys && forall i | 0 <= i < |items| :: items[i].0 in db.memories
    ensures var db' := RequeueAll(db, items, now);
            && SameVersions(db, db') && db'.outbox.Keys <= db'.memories.Keys
            && forall id | id !in ListedIds(items) :: SameRow(db, db', id)
  {
    assert forall id :: id in ListedIds(items) <==> Listed(items, id);
  }

  lemma RetryEvolves(db: Db, h: History, id: Id, now: Time, scopes: set<Id>)
    requires Consistent(db, h)
    ensures var db' := Retry(db, id, now);
            Consistent(db', h) && Evolves(db, h, db', h, {id}, scopes)
  {
    var db' := Retry(db, id, now);
    if id in db.memories { assert RowOk(db, id); }
    SameVersionsKeep(db, h, db', {id}, scopes);
  }

  lemma SettledRowOk(db: Db, id: Id)
    requires TablesOk(db) && id in db.outbox
    ensures var db' := Settle(db, id, db.outbox[id].event);
            && id in db'.memories && RowOk(db', id) && SameVersions(db, db')
            && db'.outbox.Keys <= db'.memories.Keys
            && forall other | other != id :: SameRow(db, db', other)
  {
    assert RowOk(db, id);
  }

  lemma SettleEvolves(db: Db, h: History, id: Id, scopes: set<Id>)
    requires Consistent(db, h) && id in db.outbox
    ensures var db' := Settle(db, id, db.outbox[id].event);
            Consistent(db', h) && Evolves(db, h, db', h, {id}, scopes)
  {
    var db' := Settle(db, id, db.outbox[id].event);
    SettledRowOk(db, id);
    SameVersionsKeep(db, h, db', {id}, scopes);
  }
}
