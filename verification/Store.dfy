/** The store's own operations on its tables and on the search index, each as one transaction. */
module Store {
  import opened Wrappers
  import opened Memories
  import opened Effects
  import opened Commits
  import opened Qdrant

  // How a call to the index ends: it reports success, or fails, with or without having taken effect.
  datatype Verdict = Succeeds | Fails(took: bool) {
    predicate Took() { Succeeds? || took }
  }

  // ---- ProcessOne and the worker's drain, on values ----

  predicate Due(db: Db, now: Time, id: Id) {
    id in db.outbox && id in db.memories && db.outbox[id].next <= now
  }

  // ORDER BY next_attempt, created_at
  predicate Before(a: Job, b: Job) {
    a.next < b.next || (a.next == b.next && a.created <= b.created)
  }

  predicate FirstDue(db: Db, now: Time, id: Id) {
    && Due(db, now, id)
    && forall other | other in db.outbox && Due(db, now, other) :: Before(db.outbox[id], db.outbox[other])
  }

  ghost function DueIds(db: Db, now: Time): set<Id> {
    set id | id in db.outbox && Due(db, now, id)
  }

  function Tried(db: Db, id: Id, now: Time, verdict: Verdict): Db
    requires id in db.outbox
  {
    if verdict.Succeeds? then Settle(db, id, db.outbox[id].event) else Retry(db, id, now)
  }

  function Touched(index: Index, db: Db, id: Id, verdict: Verdict): Index
    requires id in db.memories
  {
    if verdict.Took() then Apply(index, id, db.memories[id]) else index
  }

  /** The tables after each job in `ids` has been attempted once. */
  ghost function TriedAll(db: Db, ids: set<Id>, now: Time, verdicts: Id -> Verdict): Db {
    Db(db.workspaces,
       map id | id in db.memories ::
         if id in ids && id in db.outbox && verdicts(id).Succeeds? && db.outbox[id].event == Upsert
         then db.memories[id].(indexed := db.memories[id].rev)
         else db.memories[id],
       map id | id in db.outbox && !(id in ids && verdicts(id).Succeeds?) ::
         if id in ids then Backoff(db.outbox[id], now) else db.outbox[id])
  }

  function Backoff(job: Job, now: Time): Job {
    job.(attempts := job.attempts + 1, next := now + Delay(job.attempts))
  }

  /** The index after each job in `ids` has been attempted once. */
  ghost function TouchedAll(index: Index, db: Db, ids: set<Id>, verdicts: Id -> Verdict): Index {
    map id | id in index.Keys + db.memories.Keys && HasPoint(index, db, ids, verdicts, id) ::
      if id in ids && id in db.memories && verdicts(id).Took() then PointOf(id, db.memories[id]) else index[id]
  }

  ghost predicate HasPoint(index: Index, db: Db, ids: set<Id>, verdicts: Id -> Verdict, id: Id) {
    if id in ids && id in db.memories && verdicts(id).Took() then !db.memories[id].deleted else id in index
  }

  lemma TriedNone(db: Db, index: Index, now: Time, verdicts: Id -> Verdict)
    ensures TriedAll(db, {}, now, verdicts) == db && TouchedAll(index, db, {}, verdicts) == index
  {
    assert TriedAll(db, {}, now, verdicts).memories == db.memories;
    assert TriedAll(db, {}, now, verdicts).outbox == db.outbox;
    assert TouchedAll(index, db, {}, verdicts) == index;
  }

  lemma TriedMore(db: Db, ids: set<Id>, id: Id, now: Time, verdicts: Id -> Verdict)
    requires id in db.outbox && id in db.memories && id !in ids
    ensures TriedAll(db, ids + {id}, now, verdicts) == Tried(TriedAll(db, ids, now, verdicts), id, now, verdicts(id))
  {
    var more := TriedAll(db, ids + {id}, now, verdicts);
    var once := Tried(TriedAll(db, ids, now, verdicts), id, now, verdicts(id));
    assert more.memories == once.memories;
    assert more.outbox == once.outbox;
  }

  lemma TouchedMore(index: Index, db: Db, ids: set<Id>, id: Id, now: Time, verdicts: Id -> Verdict)
    requires id in db.outbox && id in db.memories && id !in ids
    ensures TouchedAll(index, db, ids + {id}, verdicts)
         == Touched(TouchedAll(index, db, ids, verdicts), TriedAll(db, ids, now, verdicts), id, verdicts(id))
  {
    var row := TriedAll(db, ids, now, verdicts).memories[id];
    assert row == db.memories[id];
  }

  lemma FirstDueExists(db: Db, ids: set<Id>) returns (id: Id)
    requires ids != {} && ids <= db.outbox.Keys
    ensures id in ids && forall other | other in ids :: Before(db.outbox[id], db.outbox[other])
  {
    id :| id in ids;
    if ids != {id} {
      var best := FirstDueExists(db, ids - {id});
      if !Before(db.outbox[id], db.outbox[best]) { id := best; }
    }
  }

  lemma QueuedTable(before: map<Id, Job>, after: map<Id, Job>, id: Id, event: Event, rev: nat, now: Time)
    requires after.Keys == before.Keys + {id}
    requires after[id] == Job(event, rev, 0, now, if id in before then before[id].created else now)
    requires forall other | other in before && other != id :: after[other] == before[other]
    ensures after == before[id := after[id]]
  {
  }

  /** By next attempt and, where that is equal, by creation; nothing twice. */
  ghost predicate SortedByAttempt(db: Db, log: seq<Id>) {
    && (forall i | 0 <= i < |log| :: log[i] in db.outbox)
    && (forall i, j | 0 <= i < j < |log| ::
          && log[i] != log[j]
          && db.outbox[log[i]].next <= db.outbox[log[j]].next
          && (db.outbox[log[i]].next == db.outbox[log[j]].next ==>
                db.outbox[log[i]].created <= db.outbox[log[j]].created))
  }

  /**
  What one attempt leaves behind. The index has the memory as it is, unless the call failed without
  effect. A successful attempt ends the job and, for a live memory, records its revision as indexed; a
  failed one counts and changes nothing else of the job but when it is next due.
  */
  ghost predicate TriedOnce(db: Db, db': Db, index: Index, index': Index, id: Id, verdict: Verdict)
    requires id in db.memories && id in db.outbox
  {
    && (if verdict == Fails(false) then index' == index else Agrees(index', id, db.memories[id]))
    && (forall other | other != id :: other in index' <==> other in index)
    && (forall other | other != id && other in index :: index'[other] == index[other])
    && db'.memories.Keys == db.memories.Keys
    && (forall other | other in db.memories && other != id :: db'.memories[other] == db.memories[other])
    && (forall other | other != id :: other in db'.outbox <==> other in db.outbox)
    && (forall other | other in db.outbox && other != id :: db'.outbox[other] == db.outbox[other])
    && (if verdict.Succeeds? then
          && id !in db'.outbox
          && db'.memories[id] == db.memories[id].(indexed := db'.memories[id].indexed)
          && (db.outbox[id].event == Upsert ==> db'.memories[id].indexed == db.memories[id].rev)
        else
          && db'.memories[id] == db.memories[id]
          && id in db'.outbox
          && (var a, b := db.outbox[id], db'.outbox[id];
              b.event == a.event && b.rev == a.rev && b.created == a.created && b.attempts == a.attempts + 1))
  }

  lemma TriedEffect(db: Db, index: Index, id: Id, now: Time, verdict: Verdict)
    requires id in db.memories && id in db.outbox
    ensures TriedOnce(db, Tried(db, id, now, verdict), index, Touched(index, db, id, verdict), id, verdict)
  {
  }

  class Store {
    var workspaces: set<Id>
    var memories: map<Id, Row>
    var outbox: map<Id, Job>
    var index: Index
    ghost var history: History

    ghost function Tables(): Db
      reads this
    {
      Db(workspaces, memories, outbox)
    }

    ghost predicate Valid()
      reads this
    {
      Consistent(Tables(), history)
    }

    constructor ()
      ensures Valid() && Tables() == Db({}, map[], map[]) && index == map[] && history == map[]
    {
      workspaces, memories, outbox, index, history := {}, map[], map[], map[], map[];
      new;
      forall ws: Id ensures Count(Tables(), ws) == 0 { assert ProfileIds(Tables(), ws) == {}; }
    }

    /** A new or reset job, due at once; the creation time of an existing job and all other jobs stay. */
    method OutboxTx(id: Id, event: Event, rev: nat, now: Time)
      modifies this`outbox
      ensures outbox.Keys == old(outbox.Keys) + {id}
      ensures outbox[id].event == event && outbox[id].rev == rev
      ensures outbox[id].attempts == 0 && outbox[id].next == now
      ensures outbox[id].created == if id in old(outbox) then old(outbox[id].created) else now
      ensures forall other | other in old(outbox) && other != id :: outbox[other] == old(outbox[other])
    {
      var created := now;
      if id in outbox { created := outbox[id].created; }
      outbox := outbox[id := Job(event, rev, 0, now, created)];
    }

    method CountProfile(ws: Id) returns (n: nat)
      ensures n == Count(Tables(), ws)
    {
      n := |set id | id in memories && InProfile(memories[id], ws)|;
      assert ProfileIds(Tables(), ws) == set id | id in memories && InProfile(memories[id], ws);
    }

    /** Commits the version that the caller's checks allow. */
    method Write(id: Id, row: Row, event: Event, now: Time, ghost scopes: set<Id>)
      requires Valid() && VersionOk(Tables(), id, row, event, scopes)
      modifies this`memories, this`outbox, this`history
      ensures Valid()
      ensures Tables() == Put(old(Tables()), id, row, event, now)
      ensures history == Record(old(history), id, row)
    {
      PutConsistent(Tables(), history, id, row, event, now, scopes);
      history := Record(history, id, row);
      WriteTables(id, row, event, now);
    }

    method WriteTables(id: Id, row: Row, event: Event, now: Time)
      modifies this`memories, this`outbox
      ensures Tables() == Put(old(Tables()), id, row, event, now)
    {
      ghost var before := outbox;
      memories := memories[id := row];
      OutboxTx(id, event, row.rev, now);
      QueuedTable(before, outbox, id, event, row.rev, now);
    }

    /** A request without an id creates, one with an id updates the revision it expects. */
    method Remember(ws: Id, input: Input, newId: Id, now: Time) returns (r: Result)
      requires Valid()
      modifies this`memories, this`outbox, this`history
      ensures Valid()
      ensures (Tables(), r) == Memories.Remember(old(Tables()), ws, input, newId, now)
      ensures r.Done? && Tables() != old(Tables()) ==>
        if input.target.None? then Added(old(Tables()), Tables(), ws, r.id, input, now)
        else r.id == input.target.value && Changed(old(Tables()), Tables(), ws, r.id, input, now)
      ensures r.Done? ==> r.id in memories && r.row == memories[r.id]
      ensures !r.Done? ==> Tables() == old(Tables())
      ensures history == if Tables() == old(Tables()) then old(history) else Record(old(history), r.id, r.row)
    {
      if ws !in workspaces { return NotFound; }
      match input.target {
        case None => r := Create(ws, input, newId, now);
        case Some(id) => r := Update(ws, id, input, now);
      }
    }

    method Create(ws: Id, input: Input, newId: Id, now: Time) returns (r: Result)
      requires Valid() && ws in workspaces
      modifies this`memories, this`outbox, this`history
      ensures Valid()
      ensures (Tables(), r) == Memories.Create(old(Tables()), ws, input, newId, now)
      ensures r.Done? ==>
        if Tables() == old(Tables()) then Replays(Tables(), ws, r.id, r.row, input)
        else r.id == newId && Added(old(Tables()), Tables(), ws, newId, input, now) && r.row == memories[newId]
      ensures !r.Done? ==> Tables() == old(Tables())
      ensures history == if Tables() == old(Tables()) then old(history) else Record(old(history), r.id, r.row)
    {
      CreateEffect(Tables(), ws, input, newId, now);
      if input.key.Some? {
        if id :| id in memories && memories[id].ws == ws && memories[id].key == input.key {
          assert HasKey(Tables(), ws, input.key, id);
          var row := memories[id];
          if row.deleted || row.body != input.body || row.kind != input.kind { return Conflict; }
          return Done(id, row);
        }
      }
      assert KeyFree(Tables(), ws, input.key) by {
        forall id ensures !HasKey(Tables(), ws, input.key, id) {}
      }
      if input.kind.Profile() {
        var n := CountProfile(ws);
        if n >= MAX_PROFILE { return Invalid; }
      }
      if newId in memories { return Failed; }
      var row := NewRow(ws, input);
      Write(newId, row, Upsert, now, {ws});
      return Done(newId, row);
    }

    method Update(ws: Id, id: Id, input: Input, now: Time) returns (r: Result)
      requires Valid()
      modifies this`memories, this`outbox, this`history
      ensures Valid()
      ensures (Tables(), r) == Memories.Update(old(Tables()), ws, id, input, now)
      ensures r.Done? ==>
        r.id == id && Changed(old(Tables()), Tables(), ws, id, input, now) && r.row == memories[id]
      ensures !r.Done? ==> Tables() == old(Tables())
      ensures history == if Tables() == old(Tables()) then old(history) else Record(old(history), r.id, r.row)
    {
      UpdateEffect(Tables(), ws, id, input, now);
      if id !in memories || memories[id].ws != ws || memories[id].deleted { return NotFound; }
      var row := memories[id];
      assert RowOk(Tables(), id);
      if input.expected <= 0 || row.rev != input.expected { return Conflict; }
      if row.kind == Memory && input.kind.Profile() {
        var n := CountProfile(ws);
        if n >= MAX_PROFILE { return Invalid; }
      }
      Write(id, Edited(row, input), Upsert, now, {ws});
      return Done(id, Edited(row, input));
    }

    /** Changes only the workspace, and drops the idempotency key. */
    method Move(source: Id, target: Id, id: Id, expected: int, now: Time) returns (r: Result)
      requires Valid()
      modifies this`memories, this`outbox, this`history
      ensures Valid()
      ensures (Tables(), r) == Memories.Move(old(Tables()), source, target, id, expected, now)
      ensures r.Done? ==>
        && r.id == id && r.row == memories[id]
        && Relocated(old(Tables()), Tables(), source, target, id, expected, now)
      ensures !r.Done? ==> Tables() == old(Tables())
      ensures history == if Tables() == old(Tables()) then old(history) else Record(old(history), id, r.row)
    {
      MoveEffect(Tables(), source, target, id, expected, now);
      if expected <= 0 || source == target { return Invalid; }
      if source !in workspaces || target !in workspaces { return NotFound; }
      if id !in memories || memories[id].ws != source || memories[id].deleted { return Conflict; }
      var row := memories[id];
      if row.kind.Profile() {
        var n := CountProfile(target);
        if n >= MAX_PROFILE { return Invalid; }
      }
      if row.rev != expected { return Conflict; }
      Write(id, Moved(row, target), Upsert, now, {source, target});
      return Done(id, Moved(row, target));
    }

    /** Blanks the memory; a memory that is absent or already deleted is left as it is. */
    method Forget(ws: Id, id: Id, now: Time)
      requires Valid()
      modifies this`memories, this`outbox, this`history
      ensures Valid()
      ensures Tables() == Memories.Forget(old(Tables()), ws, id, now)
      ensures if id in old(LiveIds(Tables(), ws)) then Erased(old(Tables()), Tables(), ws, id, now)
              else Tables() == old(Tables())
      ensures history == if Tables() == old(Tables()) then old(history) else Record(old(history), id, memories[id])
    {
      ForgetEffect(Tables(), ws, id, now);
      if id !in memories || memories[id].ws != ws || memories[id].deleted { return; }
      assert RowOk(Tables(), id);
      Write(id, Forgotten(memories[id]), Delete, now, {});
    }

    /** Queues every listed memory again, one row after another. */
    method Reindex(items: seq<(Id, nat)>, ghost scope: Option<Id>, now: Time)
      requires Valid() && Snapshot(Tables(), scope, items)
      modifies this`memories, this`outbox
      ensures Valid()
      ensures Tables() == RequeueAll(old(Tables()), items, now)
    {
      ghost var before := Tables();
      RequeueNone(before, now);
      for n := 0 to |items|
        invariant Tables() == RequeueAll(before, items[..n], now)
      {
        var id, rev := items[n].0, items[n].1;
        assert id in before.memories;
        RequeueNext(before, items, n, now);
        ghost var jobs := outbox;
        memories := memories[id := memories[id].(indexed := 0)];
        OutboxTx(id, Upsert, rev, now);
        QueuedTable(jobs, outbox, id, Upsert, rev, now);
      }
      assert items[..|items|] == items;
      RequeueEvolves(before, history, items, now, {});
    }

    /** ORDER BY next_attempt, created_at LIMIT 1 among the due jobs. */
    method NextDue(now: Time) returns (found: bool, id: Id)
      ensures found <==> DueIds(Tables(), now) != {}
      ensures found ==> FirstDue(Tables(), now, id)
      ensures found ==> id in outbox && outbox[id].next <= now
      ensures found ==> forall other | other in outbox && other in memories && outbox[other].next <= now ::
                outbox[id].next < outbox[other].next
                || (outbox[id].next == outbox[other].next && outbox[id].created <= outbox[other].created)
    {
      if next :| next in outbox && FirstDue(Db(workspaces, memories, outbox), now, next) {
        assert next in DueIds(Tables(), now);
        return true, next;
      }
      if DueIds(Tables(), now) != {} {
        var first := FirstDueExists(Tables(), DueIds(Tables(), now));
        assert FirstDue(Tables(), now, first);
      }
      return false, 0;
    }

    // The callback: it may fail after it has taken effect.
    method Call(id: Id, verdict: Verdict)
      requires id in memories
      modifies this`index
      ensures index == Touched(old(index), Tables(), id, verdict)
    {
      if verdict.Took() { index := Apply(index, id, memories[id]); }
    }

    // What is written after the callback.
    method Settled(id: Id, now: Time, verdict: Verdict)
      requires id in outbox && id in memories
      modifies this`memories, this`outbox
      ensures Tables() == Tried(old(Tables()), id, now, verdict)
    {
      var row, job := memories[id], outbox[id];
      if verdict.Fails? {
        outbox := outbox[id := job.(attempts := job.attempts + 1, next := now + Delay(job.attempts))];
      } else if job.event == Delete {
        outbox := outbox - {id};
      } else {
        memories := memories[id := row.(indexed := row.rev)];
        outbox := outbox - {id};
      }
    }

    /** Brings the memory of a job to the index, as the memory is now. */
    method Attempt(id: Id, now: Time, verdict: Verdict)
      requires Valid() && id in outbox && id in memories
      modifies this`memories, this`outbox, this`index
      ensures Valid()
      ensures Tables() == Tried(old(Tables()), id, now, verdict)
      ensures index == Touched(old(index), old(Tables()), id, verdict)
      ensures TriedOnce(old(Tables()), Tables(), old(index), index, id, verdict)
    {
      TriedConsistent(Tables(), history, id, now, verdict);
      AttemptJob(id, now, verdict);
    }

    method AttemptJob(id: Id, now: Time, verdict: Verdict)
      requires id in outbox && id in memories
      modifies this`memories, this`outbox, this`index
      ensures Tables() == Tried(old(Tables()), id, now, verdict)
      ensures index == Touched(old(index), old(Tables()), id, verdict)
      ensures TriedOnce(old(Tables()), Tables(), old(index), index, id, verdict)
    {
      TriedEffect(Tables(), index, id, now, verdict);
      Call(id, verdict);
      Settled(id, now, verdict);
    }

    /** Attempts the first due job, if there is one. */
    method ProcessOne(now: Time, verdicts: Id -> Verdict) returns (worked: bool, id: Id)
      requires Valid()
      modifies this`memories, this`outbox, this`index
      ensures Valid()
      ensures worked <==> DueIds(old(Tables()), now) != {}
      ensures worked ==>
        && FirstDue(old(Tables()), now, id)
        && Tables() == Tried(old(Tables()), id, now, verdicts(id))
        && index == Touched(old(index), old(Tables()), id, verdicts(id))
      ensures !worked ==> Tables() == old(Tables()) && index == old(index)
    {
      worked, id := NextDue(now);
      if worked { assert Due(Tables(), now, id); Attempt(id, now, verdicts(id)); }
    }

    /** The worker's drain at one instant. `log` lists the attempted jobs in the order of the attempts. */
    method Drain(now: Time, verdicts: Id -> Verdict) returns (log: seq<Id>)
      requires Valid()
      modifies this`memories, this`outbox, this`index
      ensures Valid()
      ensures InOrder(old(Tables()), now, log) && Elements(log) == DueIds(old(Tables()), now)
      ensures Tables() == TriedAll(old(Tables()), DueIds(old(Tables()), now), now, verdicts)
      ensures index == TouchedAll(old(index), old(Tables()), DueIds(old(Tables()), now), verdicts)
      ensures DueIds(Tables(), now) == {}
      ensures SortedByAttempt(old(Tables()), log)
    {
      ghost var before, points := Tables(), index;
      log := [];
      TriedNone(before, points, now, verdicts);
      assert Elements([]) == {};
      var worked := true;
      while worked
        invariant Valid()
        invariant InOrder(before, now, log)
        invariant Drained(before, points, now, verdicts, log, Tables(), index)
        invariant !worked ==> DueIds(Tables(), now) == {}
        decreases worked, DueIds(before, now) - Elements(log)
      {
        var id;
        ghost var current, pointsNow := Tables(), index;
        worked, id := ProcessOne(now, verdicts);
        if worked {
          DrainMore(before, points, now, verdicts, log, current, pointsNow, id);
          log := log + [id];
        }
      }
      StillDue(before, Elements(log), now, verdicts);
      assert Elements(log) == DueIds(before, now);
      InOrderSorts(before, now, log);
    }
  }

  lemma InOrderSorts(db: Db, now: Time, log: seq<Id>)
    requires InOrder(db, now, log)
    ensures SortedByAttempt(db, log)
  {
  }

  /** `db` and `index` are `before` and `points` after the attempts in `log`. */
  ghost predicate Drained(
      before: Db, points: Index, now: Time, verdicts: Id -> Verdict, log: seq<Id>, db: Db, index: Index) {
    && Elements(log) <= DueIds(before, now)
    && db == TriedAll(before, Elements(log), now, verdicts)
    && index == TouchedAll(points, before, Elements(log), verdicts)
  }

  lemma DrainMore(
      before: Db, points: Index, now: Time, verdicts: Id -> Verdict, log: seq<Id>, db: Db, index: Index, id: Id)
    requires InOrder(before, now, log) && Drained(before, points, now, verdicts, log, db, index)
    requires FirstDue(db, now, id)
    ensures id in DueIds(before, now) - Elements(log) && Elements(log + [id]) == Elements(log) + {id}
    ensures InOrder(before, now, log + [id])
    ensures Drained(before, points, now, verdicts, log + [id],
                    Tried(db, id, now, verdicts(id)), Touched(index, db, id, verdicts(id)))
  {
    LogMore(before, log, id, now, verdicts);
    TriedMore(before, Elements(log), id, now, verdicts);
    TouchedMore(points, before, Elements(log), id, now, verdicts);
  }

  ghost function Elements(log: seq<Id>): set<Id> {
    set id | id in log
  }

  /** The attempts name due jobs, none twice, by next_attempt and creation, before all due jobs not yet named. */
  ghost predicate InOrder(db: Db, now: Time, log: seq<Id>) {
    && (forall i | 0 <= i < |log| :: log[i] in db.outbox && Due(db, now, log[i]))
    && (forall i, j | 0 <= i < j < |log| :: log[i] != log[j] && Before(db.outbox[log[i]], db.outbox[log[j]]))
    && (forall i, other | 0 <= i < |log| && other in DueIds(db, now) - Elements(log) ::
          Before(db.outbox[log[i]], db.outbox[other]))
  }

  lemma LogMore(db: Db, log: seq<Id>, id: Id, now: Time, verdicts: Id -> Verdict)
    requires InOrder(db, now, log) && Elements(log) <= DueIds(db, now)
    requires FirstDue(TriedAll(db, Elements(log), now, verdicts), now, id)
    ensures id in DueIds(db, now) - Elements(log)
    ensures InOrder(db, now, log + [id]) && Elements(log + [id]) == Elements(log) + {id}
  {
    var after := TriedAll(db, Elements(log), now, verdicts);
    StillDue(db, Elements(log), now, verdicts);
    assert id in DueIds(after, now);
    assert Elements(log + [id]) == Elements(log) + {id};
    forall other | other in DueIds(db, now) - Elements(log)
      ensures Before(db.outbox[id], db.outbox[other])
    {
      assert other in DueIds(after, now);
      assert after.outbox[other] == db.outbox[other] && after.outbox[id] == db.outbox[id];
    }
    OrderSnoc(db, now, log, id);
  }

  lemma OrderSnoc(db: Db, now: Time, log: seq<Id>, id: Id)
    requires InOrder(db, now, log) && id in DueIds(db, now) - Elements(log)
    requires forall other | other in DueIds(db, now) - Elements(log) :: Before(db.outbox[id], db.outbox[other])
    ensures InOrder(db, now, log + [id])
  {
    var more := log + [id];
    forall i, j | 0 <= i < j < |more| ensures more[i] != more[j] && Before(db.outbox[more[i]], db.outbox[more[j]]) {
      if j == |log| { assert more[i] in Elements(log); }
    }
    forall i, other | 0 <= i < |more| && other in DueIds(db, now) - Elements(more)
      ensures Before(db.outbox[more[i]], db.outbox[other])
    {
      InMore(log, id, other);
      assert other in DueIds(db, now) - Elements(log);
    }
  }

  lemma InMore(log: seq<Id>, id: Id, other: Id)
    ensures other in Elements(log + [id]) <==> other in Elements(log) || other == id
  {
  }

  lemma TriedConsistent(db: Db, h: History, id: Id, now: Time, verdict: Verdict)
    requires Consistent(db, h) && id in db.outbox
    ensures id in db.memories && Consistent(Tried(db, id, now, verdict), h)
  {
    SettleEvolves(db, h, id, {});
    RetryEvolves(db, h, id, now, {});
  }

  lemma DelayPositive(attempts: nat)
    ensures Delay(attempts) > 0
  {
    PowerPositive(Min(attempts + 1, 9));
  }

  lemma {:induction false} PowerPositive(n: nat)
    ensures Power2(n) > 0
  {
    if n > 0 { PowerPositive(n - 1); }
  }

  /** An attempt takes its job out of the due set, and no other job enters or leaves it. */
  lemma StillDue(db: Db, ids: set<Id>, now: Time, verdicts: Id -> Verdict)
    requires ids <= DueIds(db, now)
    ensures DueIds(TriedAll(db, ids, now, verdicts), now) == DueIds(db, now) - ids
    ensures forall id | id in db.outbox && id !in ids :: TriedAll(db, ids, now, verdicts).outbox[id] == db.outbox[id]
  {
    var after := TriedAll(db, ids, now, verdicts);
    forall id ensures id in DueIds(after, now) <==> id in DueIds(db, now) - ids {
      if id in ids { DelayPositive(db.outbox[id].attempts); }
    }
  }
}
