/** What the interleaved store can always still do. */
module Progress {
  import opened Wrappers
  import opened Memories
  import opened Commits
  import opened Qdrant
  import opened Protocol
  import opened Safety
  import opened Guarantees
  import opened Paths
  import opened Search

  // `s` with exactly one transaction, 0, in progress.
  ghost function Only(s: State, tx: Tx): State {
    s.(txs := map[0 := tx])
  }

  lemma Starts(s: State, tx: Tx)
    requires s.txs == map[] && Fresh(tx) && Start(tx) == s.clock
    ensures Reaches(s, Only(s, tx), Undamaged)
  {
    Stays(s, Undamaged);
    Further(s, s, Begin(0, tx), Only(s, tx), Undamaged);
  }

  lemma Goes(s: State, tx: Tx, pick: Pick, tx': Tx)
    requires Reaches(s, Only(s, tx), Undamaged)
    requires !tx.Leased? && PickOk(s.db, tx, pick) && Advance(s.db, s.clock, tx, pick) == Next(tx')
    ensures Reaches(s, Only(s, tx'), Undamaged)
  {
    assert Only(s, tx).txs[0 := tx'] == Only(s, tx').txs;
    Further(s, Only(s, tx), Exec(0, pick), Only(s, tx'), Undamaged);
  }

  lemma Ends(s: State, now: State, tx: Tx, effect: Effect)
    requires Reaches(s, now, Undamaged) && now.txs == map[0 := tx]
    requires !tx.Leased? && PickOk(now.db, tx, NoPick) && Advance(now.db, now.clock, tx, NoPick) == End(effect)
    ensures Reaches(s, Committed(now, tx, effect), Undamaged)
  {
    assert now.txs - {0} == map[];
    Further(s, now, Exec(0, NoPick), Committed(now, tx, effect), Undamaged);
  }

  ghost function Committed(now: State, tx: Tx, effect: Effect): State {
    now.(db := Install(now.db, effect, Start(tx)), history := Recorded(now.history, effect), txs := map[])
  }

  // ---- a create that may succeed does ----

  /** From a quiet state every create that succeeds with a new memory when run alone is also a run of its statements. */
  lemma CreateCanBeDone(s: State, ws: Id, input: Input, id: Id)
    requires s.txs == map[] && input.target.None? && id !in s.db.memories
    requires ws in s.db.workspaces && KeyFree(s.db, ws, input.key)
    requires input.kind.Profile() ==> Count(s.db, ws) < MAX_PROFILE
    ensures var row := NewRow(ws, input);
            Reaches(s, s.(db := Put(s.db, id, row, Upsert, s.clock), history := Record(s.history, id, row)), Undamaged)
  {
    var begun := CreateTx(Begun, ws, input, id, s.clock);
    var queued := begun.(stage := Queued);
    Starts(s, Creating(begun));
    CreateAdvances(s, begun, Scoped);
    CreateAdvances(s, begun.(stage := Scoped), Looked);
    CreateAdvances(s, begun.(stage := Looked), Counted);
    CreateAdvances(s, begun.(stage := Counted), Written);
    CreateAdvances(s, begun.(stage := Written), Queued);
    Ends(s, Only(s, Creating(queued)), Creating(queued), Version(id, NewRow(ws, input), Upsert));
  }

  lemma CreateAdvances(s: State, c: CreateTx, stage: Stage)
    requires Reaches(s, Only(s, Creating(c)), Undamaged)
    requires AdvanceCreate(s.db, c) == Next(Creating(c.(stage := stage)))
    ensures Reaches(s, Only(s, Creating(c.(stage := stage))), Undamaged)
  {
    Goes(s, Creating(c), NoPick, Creating(c.(stage := stage)));
  }

  // ---- a due job can be done ----

  // A worker brought the index up to date with one memory and settled its job.
  ghost predicate Indexed(s: State, id: Id, s': State) {
    && id in s.db.outbox && id in s.db.memories
    && s'.db == Settle(s.db, id, s.db.outbox[id].event)
    && s'.index == Apply(s.index, id, s.db.memories[id])
    && s'.txs == map[] && s'.clock == s.clock && s'.lost == s.lost - {id}
  }

  /** From every quiet reachable state with a due job one worker can index its memory and take it off the queue. */
  lemma DueJobCanBeDone(s: State, id: Id) returns (s': State)
    requires Inv(s) && s.txs == map[] && id in s.db.outbox && s.db.outbox[id].next <= s.clock
    ensures Reaches(s, s', Undamaged) && Indexed(s, id, s')
  {
    s' := LeasedJobIsDone(s, id);
  }

  lemma LeasedJobIsDone(s: State, id: Id) returns (s': State)
    requires s.txs == map[] && id in s.db.memories && id in s.db.outbox && s.db.outbox[id].next <= s.clock
    ensures Reaches(s, s', Undamaged) && Indexed(s, id, s')
  {
    var w, job := WorkTx(id, s.db.memories[id], s.clock), s.db.outbox[id];
    Leases(s, id);
    var applied := CallStep(Only(s, Leased(w, job)), 0, true, true);
    Further(s, Only(s, Leased(w, job)), Call(0, true, true), applied, Undamaged);
    assert applied.txs == map[0 := Applied(w, job, true)];
    Ends(s, applied, Applied(w, job, true), Finish(id, job.event));
    s' := Committed(applied, Applied(w, job, true), Finish(id, job.event));
  }

  lemma Leases(s: State, id: Id)
    requires s.txs == map[] && id in s.db.memories && id in s.db.outbox && s.db.outbox[id].next <= s.clock
    ensures Reaches(s, Only(s, Leased(WorkTx(id, s.db.memories[id], s.clock), s.db.outbox[id])), Undamaged)
  {
    var w, job := WorkTx(id, s.db.memories[id], s.clock), s.db.outbox[id];
    Starts(s, Claiming(s.clock));
    Goes(s, Claiming(s.clock), Candidate(id), Claimed(w));
    Goes(s, Claimed(w), NoPick, Leased(w, job));
  }

  ghost predicate AllDue(s: State) {
    forall id | id in s.db.outbox :: s.db.outbox[id].next <= s.clock
  }

  lemma OneJobLess(s: State, id: Id, s': State)
    requires Indexed(s, id, s') && AllDue(s)
    ensures s'.db.outbox.Keys == s.db.outbox.Keys - {id} && AllDue(s')
    ensures s'.lost <= s.lost && SameVersions(s.db, s'.db)
  {
  }

  lemma {:induction false} DueJobsCanBeDone(s: State) returns (s': State)
    requires Inv(s) && s.txs == map[] && AllDue(s)
    ensures Reaches(s, s', Undamaged)
    ensures s'.txs == map[] && s'.db.outbox == map[] && s'.lost <= s.lost && SameVersions(s.db, s'.db)
    decreases |s.db.outbox.Keys|
  {
    if s.db.outbox == map[] {
      Stays(s, Undamaged);
      return s;
    }
    var less := SomeJobCanBeDone(s);
    s' := DueJobsCanBeDone(less);
    Chain(s, less, s', Undamaged);
  }

  lemma SomeJobCanBeDone(s: State) returns (s': State)
    requires Inv(s) && s.txs == map[] && AllDue(s) && s.db.outbox != map[]
    ensures Reaches(s, s', Undamaged) && Inv(s') && s'.txs == map[] && AllDue(s')
    ensures |s'.db.outbox.Keys| < |s.db.outbox.Keys| && s'.lost <= s.lost && SameVersions(s.db, s'.db)
  {
    var id :| id in s.db.outbox;
    s' := DueJobCanBeDone(s, id);
    ReachedKeeps(s, s', Undamaged);
    OneJobLess(s, id, s');
  }

  // ---- from any state ----

  /** All open transactions may be lost, as when every process is killed. */
  lemma {:induction false} Crashes(s: State)
    ensures Reaches(s, s.(txs := map[]), Undamaged)
    decreases |s.txs.Keys|
  {
    Stays(s, Undamaged);
    if s.txs != map[] {
      var t :| t in s.txs;
      var less := s.(txs := s.txs - {t});
      assert less.txs.Keys == s.txs.Keys - {t};
      Further(s, s, Rollback(t), less, Undamaged);
      Crashes(less);
      Chain(s, less, s.(txs := map[]), Undamaged);
    }
  }

  lemma {:induction false} LatestAttempt(outbox: map<Id, Job>) returns (latest: Time)
    ensures forall id | id in outbox :: outbox[id].next <= latest
    decreases |outbox.Keys|
  {
    if outbox == map[] { return 0; }
    var id :| id in outbox;
    var rest := outbox - {id};
    assert rest.Keys == outbox.Keys - {id};
    latest := LatestAttempt(rest);
    forall other | other in outbox && other != id ensures outbox[other].next <= latest { assert other in rest; }
    if latest < outbox[id].next { latest := outbox[id].next; }
  }

  lemma SettledIsProjection(s: State)
    requires Inv(s) && s.lost == {} && s.db.outbox == map[]
    ensures s.index == Projection(s.db.memories)
  {
    forall id | id in s.db.memories ensures Agrees(s.index, id, s.db.memories[id]) {}
    forall id | id in s.index ensures id in s.db.memories { assert Genuine(s.history, s.index[id]); }
  }

  /**
  The queue can always be worked off: from every state of an undamaged run, whatever is in progress
  and however far the retries are put off, a crash of everything, some time and one worker lead to a
  state with an empty queue. There no version has changed, the index is the projection of the live
  memories, and Rehydrate keeps every hit.
  */
  lemma QueueCanBeEmptied(states: seq<State>, actions: seq<Action>, n: nat) returns (s': State)
    requires Run(states, actions) && n < |states|
    requires forall i | 0 <= i < n :: !actions[i].Damage?
    ensures Reaches(states[n], s', Undamaged) && s'.db.outbox == map[] && SameVersions(states[n].db, s'.db)
    ensures s'.index == Projection(s'.db.memories)
    ensures forall ws, hits :: DropsNothing(s', ws, hits)
  {
    var s := states[n];
    RunKeeps(states, actions, n);
    UndamagedLosesNothing(states, actions, n);
    Crashes(s);
    var quiet := s.(txs := map[]);
    var latest := LatestAttempt(s.db.outbox);
    var due := quiet.(clock := if latest < s.clock then s.clock else latest);
    Further(s, quiet, Tick(due.clock), due, Undamaged);
    ReachedKeeps(s, due, Undamaged);
    s' := DueJobsCanBeDone(due);
    Chain(s, due, s', Undamaged);
    ReachedKeeps(s, s', Undamaged);
    SettledIsProjection(s');
    forall ws, hits ensures DropsNothing(s', ws, hits) { SettledDropsNothing(s', ws, hits); }
  }

  // ---- a state with two live memories ----

  /** The condition under which Reindex runs can deadlock does arise. */
  lemma TwoLiveIsReachable() returns (s: State, a: Id, b: Id)
    ensures Reaches(EMPTY, s, Undamaged) && s.txs == map[] && a != b
    ensures a in s.db.memories && !s.db.memories[a].deleted && b in s.db.memories && !s.db.memories[b].deleted
  {
    var input := Input(None, Memory, Body("title", "content", [], ""), 0, None);
    var open := EMPTY.(db := EMPTY.db.(workspaces := {0}));
    Stays(EMPTY, Undamaged);
    assert EMPTY.db.workspaces + {0} == {0};
    Further(EMPTY, EMPTY, AddWorkspace(0), open, Undamaged);
    a, b := 1, 2;
    CreateCanBeDone(open, 0, input, a);
    var row := NewRow(0, input);
    var one := open.(db := Put(open.db, a, row, Upsert, open.clock), history := Record(open.history, a, row));
    Chain(EMPTY, open, one, Undamaged);
    CreateCanBeDone(one, 0, input, b);
    s := one.(db := Put(one.db, b, row, Upsert, one.clock), history := Record(one.history, b, row));
    Chain(EMPTY, one, s, Undamaged);
  }
}
