/** What the committed writes on memories leave behind, said of the tables before and after. */
module Effects {
  import opened Wrappers
  import opened Memories

  // Everything but the memory and its job is as before.
  ghost predicate OthersSame(db: Db, db': Db, id: Id) {
    && db'.workspaces == db.workspaces
    && db'.memories.Keys == db.memories.Keys + {id}
    && db'.outbox.Keys == db.outbox.Keys + {id}
    && (forall other | other in db.memories && other != id :: db'.memories[other] == db.memories[other])
    && (forall other | other in db.outbox && other != id :: db'.outbox[other] == db.outbox[other])
  }

  // The memory waits to be indexed, and its job is due at once.
  ghost predicate Pending(db: Db, id: Id, event: Event, now: Time) {
    && id in db.memories && db.memories[id].indexed == 0
    && id in db.outbox && db.outbox[id].event == event && db.outbox[id].rev == db.memories[id].rev
    && db.outbox[id].attempts == 0 && db.outbox[id].next == now
  }

  function LiveIds(db: Db, ws: Id): set<Id> {
    set id | id in db.memories && db.memories[id].ws == ws && !db.memories[id].deleted
  }

  // ---- the four writes ----

  /** A new live memory with the content, kind and key that were asked for, at revision 1. */
  ghost predicate Added(db: Db, db': Db, ws: Id, id: Id, input: Input, now: Time) {
    && id !in db.memories && OthersSame(db, db', id) && Pending(db', id, Upsert, now)
    && (var row := db'.memories[id];
        && row.body.title == input.body.title && row.body.content == input.body.content
        && row.body.tags == input.body.tags && row.body.source == input.body.source
        && row.kind == input.kind && row.key == input.key
        && row.ws == ws && row.rev == 1 && !row.deleted)
    && LiveIds(db', ws) == LiveIds(db, ws) + {id}
  }

  /** The memory has the content and kind that were asked for, at the next revision; workspace and key stay. */
  ghost predicate Changed(db: Db, db': Db, ws: Id, id: Id, input: Input, now: Time) {
    && id in db.memories && OthersSame(db, db', id) && Pending(db', id, Upsert, now)
    && (var before, row := db.memories[id], db'.memories[id];
        && row.body.title == input.body.title && row.body.content == input.body.content
        && row.body.tags == input.body.tags && row.body.source == input.body.source
        && row.kind == input.kind
        && row.ws == before.ws == ws && row.key == before.key
        && row.rev == before.rev + 1 && before.rev == input.expected
        && !row.deleted && !before.deleted)
    && LiveIds(db', ws) == LiveIds(db, ws)
  }

  /** The memory has left the source for the target, without its key and otherwise as it was, at the next revision. */
  ghost predicate Relocated(db: Db, db': Db, source: Id, target: Id, id: Id, expected: int, now: Time) {
    && id in db.memories && OthersSame(db, db', id) && Pending(db', id, Upsert, now)
    && (var before, row := db.memories[id], db'.memories[id];
        && before.ws == source && row.ws == target
        && row.body == before.body && row.kind == before.kind
        && row.key == None
        && row.rev == before.rev + 1 && before.rev == expected
        && !row.deleted && !before.deleted)
    && LiveIds(db', source) == LiveIds(db, source) - {id}
    && LiveIds(db', target) == LiveIds(db, target) + {id}
  }

  /** The memory is deleted and blank, at the next revision; workspace, kind and key stay. */
  ghost predicate Erased(db: Db, db': Db, ws: Id, id: Id, now: Time) {
    && id in db.memories && OthersSame(db, db', id) && Pending(db', id, Delete, now)
    && (var before, row := db.memories[id], db'.memories[id];
        && row.body.title == "" && row.body.content == "" && row.body.tags == [] && row.body.source == ""
        && row.kind == before.kind && row.ws == before.ws == ws && row.key == before.key
        && row.rev == before.rev + 1
        && row.deleted && !before.deleted)
    && LiveIds(db', ws) == LiveIds(db, ws) - {id}
  }

  /** The memory asked for is there, with the content and kind asked for. */
  ghost predicate Replays(db: Db, ws: Id, id: Id, row: Row, input: Input) {
    && id in LiveIds(db, ws) && row == db.memories[id]
    && input.key.Some? && row.key == input.key
    && row.body.title == input.body.title && row.body.content == input.body.content
    && row.body.tags == input.body.tags && row.body.source == input.body.source
    && row.kind == input.kind
  }

  // ---- when each write happens ----

  lemma ProfileIsLive(db: Db, ws: Id)
    ensures ProfileIds(db, ws) == set id | id in LiveIds(db, ws) && db.memories[id].kind in {Stack, Practice}
  {
  }

  ghost predicate RoomFor(db: Db, ws: Id) {
    |set id | id in LiveIds(db, ws) && db.memories[id].kind in {Stack, Practice}| < 100
  }

  /**
  A create under a taken key replays the holder if that is live and equal to what was asked for, and
  conflicts otherwise. Under a free key it adds a memory, unless the profile is full or the id is taken.
  */
  lemma CreateEffect(db: Db, ws: Id, input: Input, newId: Id, now: Time)
    requires KeysUnique(db)
    ensures var (db', r) := Create(db, ws, input, newId, now);
            && (KeyFree(db, ws, input.key) ==>
                  if input.kind != Memory && !RoomFor(db, ws) then r.Invalid? && db' == db
                  else if newId in db.memories then r.Failed? && db' == db
                  else
                    && r.Done? && r.id == newId && r.row == db'.memories[newId]
                    && Added(db, db', ws, newId, input, now))
            && (!KeyFree(db, ws, input.key) ==>
                  && db' == db
                  && (r.Done? || r.Conflict?)
                  && (r.Done? <==> exists id :: id in LiveIds(db, ws) && Replays(db, ws, id, db.memories[id], input))
                  && (r.Done? ==> Replays(db, ws, r.id, r.row, input)))
  {
    ProfileIsLive(db, ws);
    var db' := Create(db, ws, input, newId, now).0;
    if KeyFree(db, ws, input.key) {
      if newId !in db.memories { assert forall id :: id in LiveIds(db', ws) ==> id in LiveIds(db, ws) + {newId}; }
    } else {
      var holder := KeyHolder(db, ws, input.key).value;
      forall id | id in LiveIds(db, ws) && Replays(db, ws, id, db.memories[id], input) ensures id == holder {
        assert HasKey(db, ws, input.key, id);
      }
    }
  }

  /** An update succeeds exactly on a live memory at the expected revision, and not from outside into a full profile. */
  lemma UpdateEffect(db: Db, ws: Id, id: Id, input: Input, now: Time)
    ensures var (db', r) := Update(db, ws, id, input, now);
            && (r.NotFound? <==> id !in LiveIds(db, ws))
            && (r.Conflict? <==>
                  id in LiveIds(db, ws) && (input.expected <= 0 || db.memories[id].rev != input.expected))
            && (r.Invalid? <==>
                  && id in LiveIds(db, ws) && input.expected > 0 && db.memories[id].rev == input.expected
                  && db.memories[id].kind == Memory && input.kind != Memory && !RoomFor(db, ws))
            && (r.Done? || r.NotFound? || r.Conflict? || r.Invalid?)
            && (r.Done? ==> r.id == id && Changed(db, db', ws, id, input, now) && r.row == db'.memories[id])
            && (!r.Done? ==> db' == db)
  {
    ProfileIsLive(db, ws);
  }

  /**
  A move succeeds exactly between two different workspaces, on a live memory of the source at the
  expected revision, and not into a full profile.
  */
  lemma MoveEffect(db: Db, source: Id, target: Id, id: Id, expected: int, now: Time)
    ensures var (db', r) := Move(db, source, target, id, expected, now);
            && (r.Done? <==>
                  && expected > 0 && source != target && {source, target} <= db.workspaces
                  && id in LiveIds(db, source) && db.memories[id].rev == expected
                  && (db.memories[id].kind != Memory ==> RoomFor(db, target)))
            && (r.NotFound? <==> expected > 0 && source != target && !({source, target} <= db.workspaces))
            && (expected > 0 && source != target && {source, target} <= db.workspaces ==>
                  (r.Conflict? <==>
                    || id !in LiveIds(db, source)
                    || (db.memories[id].rev != expected && (db.memories[id].kind != Memory ==> RoomFor(db, target)))))
            && (expected <= 0 || source == target ==> r.Invalid?)
            && (r.Done? || r.NotFound? || r.Conflict? || r.Invalid?)
            && (r.Done? ==>
                  r.id == id && Relocated(db, db', source, target, id, expected, now) && r.row == db'.memories[id])
            && (!r.Done? ==> db' == db)
  {
    ProfileIsLive(db, target);
  }

  /** Forgetting erases a live memory of the workspace and does nothing to any other. */
  lemma ForgetEffect(db: Db, ws: Id, id: Id, now: Time)
    ensures var db' := Forget(db, ws, id, now);
            && (id in LiveIds(db, ws) ==> Erased(db, db', ws, id, now))
            && (id !in LiveIds(db, ws) ==> db' == db)
  {
  }
}
