/** The stored evaluations with their consent state, and the owner's policy for each workspace. */
module Feedback {
  import opened Wrappers
  import opened Sets
  import opened Export

  type Id = nat
  type Time = nat

  const DAY: nat := 24 * 3600 * 1_000_000
  const MAX_ACTIVE: nat := 500

  datatype Status = Unreviewed | AgentGenerated | Reviewed | Withdrawn

  datatype Key = Key(ws: Id, id: Id)

  datatype Evaluation = Evaluation(
    hash: string, actor: string, payload: Option<Payload>, status: Status, review: Option<Review>,
    granted: Option<Time>, expires: Time)

  // Only workspaces whose owner ever set the policy have an entry.
  datatype Tables = Tables(rows: map<Key, Evaluation>, policies: map<Id, bool>)

  datatype Proposal = Proposal(hash: string, actor: string, payload: Payload, days: int)

  datatype Reply = Stored(row: Evaluation) | Refused(error: Error)

  function Policy(db: Tables, ws: Id): bool {
    ws in db.policies && db.policies[ws]
  }

  // payload IS NOT NULL AND expires_at > now()
  predicate Active(row: Evaluation, now: Time) {
    row.payload.Some? && row.expires > now
  }

  function ActiveKeys(db: Tables, ws: Id, now: Time): set<Key> {
    set key | key in db.rows && key.ws == ws && Active(db.rows[key], now)
  }

  function Wiped(row: Evaluation): Evaluation {
    row.(status := Withdrawn, payload := None, review := None)
  }

  // now() + make_interval(days); a row is only inserted with 1 to 365 days.
  function Expiry(now: Time, days: int): Time {
    if days < 0 then now else now + days * DAY
  }

  function Inserted(proposal: Proposal, auto: bool, now: Time): Evaluation {
    Evaluation(proposal.hash, proposal.actor, Some(proposal.payload),
               if auto then AgentGenerated else Unreviewed, None,
               if auto then Some(now) else None, Expiry(now, proposal.days))
  }

  predicate WellFormed(proposal: Proposal) {
    |proposal.hash| == 64 && 1 <= proposal.days <= 365
  }

  function Retried(row: Evaluation, proposal: Proposal, clock: Time): Reply {
    if row.hash != proposal.hash || row.actor != proposal.actor then Refused(Conflict)
    else if !Active(row, clock) then Refused(NotFound)
    else Stored(row)
  }

  // SaveDecisionEvaluation: `now` is the start of the transaction, `clock` the process clock.
  function Save(db: Tables, key: Key, proposal: Proposal, now: Time, clock: Time): (Tables, Reply) {
    if !WellFormed(proposal) then (db, Refused(Invalid))
    else if key in db.rows then (db, Retried(db.rows[key], proposal, clock))
    else if |ActiveKeys(db, key.ws, now)| >= MAX_ACTIVE then (db, Refused(Conflict))
    else
      var row := Inserted(proposal, Policy(db, key.ws), now);
      (db.(rows := db.rows[key := row]), Stored(row))
  }

  predicate Reviewable(db: Tables, key: Key, now: Time) {
    key in db.rows && db.rows[key].status == Unreviewed && Active(db.rows[key], now)
  }

  function ReviewedRow(row: Evaluation, review: Review, now: Time): Evaluation {
    row.(status := Reviewed, review := Some(review), granted := Some(now))
  }

  function ReviewEvaluation(db: Tables, key: Key, review: Review, now: Time): Tables {
    if Reviewable(db, key, now) then db.(rows := db.rows[key := ReviewedRow(db.rows[key], review, now)]) else db
  }

  function Withdraw(db: Tables, key: Key): Tables {
    if key in db.rows then db.(rows := db.rows[key := Wiped(db.rows[key])]) else db
  }

  function Purge(db: Tables, now: Time): Tables {
    db.(rows := map key | key in db.rows ::
      if db.rows[key].expires <= now && db.rows[key].payload.Some? then Wiped(db.rows[key]) else db.rows[key])
  }

  function SetPolicy(db: Tables, ws: Id, enabled: bool): Tables {
    var rows := map key | key in db.rows ::
      if !enabled && key.ws == ws && db.rows[key].status == AgentGenerated then Wiped(db.rows[key]) else db.rows[key];
    Tables(rows, db.policies[ws := enabled])
  }

  // ---- the three eligibility tests ----

  predicate ReadyForExport(row: Evaluation, now: Time) {
    (row.status == Reviewed || row.status == AgentGenerated) && row.expires > now
  }

  // evaluationArchive returns a conflict when this fails.
  predicate Archivable(row: Evaluation, now: Time) {
    && !((row.status != Reviewed && row.status != AgentGenerated) || row.granted.None? || !(row.expires > now))
    && (row.status != AgentGenerated ==>
          row.review.Some? && row.review.value.sharedTraining && row.review.value.sensitiveReviewed)
  }

  // permissionFor(row).Withdrawn
  predicate PermissionWithdrawn(row: Evaluation, now: Time) {
    (row.status != Reviewed && row.status != AgentGenerated) || !(row.expires > now)
  }

  // ---- invariants ----

  ghost predicate RowOk(row: Evaluation) {
    && (row.status == Withdrawn <==> row.payload.None?)
    && (row.status == Reviewed || row.status == AgentGenerated ==> row.granted.Some?)
    && (row.status == Unreviewed ==> row.granted.None?)
    && (row.review.Some? <==> row.status == Reviewed)
  }

  /** What the handlers see to before they store a snapshot or a review; the store itself takes any content. */
  ghost predicate ContentOk(row: Evaluation) {
    row.payload.Some? ==>
      && Aligned(row.payload.value)
      && (row.review.Some? ==> ReviewOk(row.payload.value, row.review.value))
  }

  ghost predicate ContentsOk(db: Tables) {
    forall key | key in db.rows :: ContentOk(db.rows[key])
  }

  // What the review handler checks against the stored snapshot before it writes.
  ghost predicate ReviewOk(payload: Payload, review: Review) {
    && review.sharedTraining && review.sensitiveReviewed
    && OneLabelEach(RequestIds(payload.request), review.judgements)
  }

  ghost predicate TablesOk(db: Tables, clock: Time) {
    && (forall key | key in db.rows :: RowOk(db.rows[key]))
    && (forall key | key in db.rows && db.rows[key].status == AgentGenerated :: Policy(db, key.ws))
    && (forall ws: Id :: |ActiveKeys(db, ws, clock)| <= MAX_ACTIVE)
  }

  /** What time and other calls may do to a row: consent is only given once and only ever taken away after. */
  ghost predicate Later(a: Evaluation, b: Evaluation) {
    && b.hash == a.hash && b.actor == a.actor && b.expires == a.expires
    && (b.payload == a.payload || b.payload.None?)
    && (a.status == Withdrawn ==> b == a)
    && (a.status == AgentGenerated ==> b == a || b.status == Withdrawn)
    && (a.status == Reviewed ==> b == a || b.status == Withdrawn)
    && (a.granted.Some? ==> b.granted == a.granted)
  }

  lemma LaterTransitive(a: Evaluation, b: Evaluation, c: Evaluation)
    requires RowOk(a) && RowOk(b) && Later(a, b) && Later(b, c)
    ensures Later(a, c)
  {
  }

  ghost predicate AllLater(db: Tables, db': Tables) {
    forall key | key in db.rows :: key in db'.rows && Later(db.rows[key], db'.rows[key])
  }

  // ---- what each call leaves behind ----

  ghost predicate OthersSame(db: Tables, db': Tables, keys: set<Key>) {
    && db'.rows.Keys == db.rows.Keys + keys
    && forall other | other in db.rows && other !in keys :: db'.rows[other] == db.rows[other]
  }

  // Fingerprint, submitter, expiry and grant time are as before.
  predicate SameRegistration(a: Evaluation, b: Evaluation) {
    b.hash == a.hash && b.actor == a.actor && b.expires == a.expires && b.granted == a.granted
  }

  /** Withdrawn without raw content; what the registry shows stays. */
  predicate Wipes(a: Evaluation, b: Evaluation) {
    b.status == Withdrawn && b.payload.None? && b.review.None? && SameRegistration(a, b)
  }

  /** A new row with the submitted snapshot, unreviewed or, under the owner's policy, granted at once. */
  ghost predicate Stores(db: Tables, db': Tables, key: Key, proposal: Proposal, now: Time) {
    && key !in db.rows && OthersSame(db, db', {key}) && db'.policies == db.policies
    && (var row := db'.rows[key];
        && row.hash == proposal.hash && row.actor == proposal.actor
        && row.payload == Some(proposal.payload) && row.review.None?
        && row.expires == now + proposal.days * 24 * 60 * 60 * 1_000_000
        && (if key.ws in db.policies && db.policies[key.ws]
            then row.status == AgentGenerated && row.granted == Some(now)
            else row.status == Unreviewed && row.granted.None?))
  }

  /** A retry that is answered: the stored row of the same request and submitter, still with its content. */
  predicate Repeats(db: Tables, key: Key, proposal: Proposal, clock: Time) {
    && key in db.rows
    && db.rows[key].hash == proposal.hash && db.rows[key].actor == proposal.actor
    && db.rows[key].payload.Some? && clock < db.rows[key].expires
  }

  /** The row carries the review and is granted now; its snapshot stays. */
  ghost predicate Approves(db: Tables, db': Tables, key: Key, review: Review, now: Time) {
    && key in db.rows && OthersSame(db, db', {key}) && db'.policies == db.policies
    && (var a, b := db.rows[key], db'.rows[key];
        && a.status == Unreviewed && a.payload.Some? && now < a.expires
        && b.status == Reviewed && b.review == Some(review) && b.granted == Some(now)
        && b.payload == a.payload && b.hash == a.hash && b.actor == a.actor && b.expires == a.expires)
  }

  ghost predicate Withdraws(db: Tables, db': Tables, key: Key) {
    && OthersSame(db, db', if key in db.rows then {key} else {}) && db'.policies == db.policies
    && (key in db.rows ==> Wipes(db.rows[key], db'.rows[key]))
  }

  ghost predicate Purges(db: Tables, db': Tables, now: Time) {
    && db'.rows.Keys == db.rows.Keys && db'.policies == db.policies
    && forall key | key in db.rows ::
         if db.rows[key].expires <= now && db.rows[key].payload.Some? then Wipes(db.rows[key], db'.rows[key])
         else db'.rows[key] == db.rows[key]
  }

  ghost predicate Switches(db: Tables, db': Tables, ws: Id, enabled: bool) {
    && ws in db'.policies && db'.policies[ws] == enabled
    && db'.policies.Keys == db.policies.Keys + {ws}
    && (forall other | other in db.policies && other != ws :: db'.policies[other] == db.policies[other])
    && db'.rows.Keys == db.rows.Keys
    && forall key | key in db.rows ::
         if key.ws == ws && db.rows[key].status == AgentGenerated && !enabled then Wipes(db.rows[key], db'.rows[key])
         else db'.rows[key] == db.rows[key]
  }

  lemma SaveEffect(db: Tables, key: Key, proposal: Proposal, now: Time, clock: Time)
    ensures var (db', r) := Save(db, key, proposal, now, clock);
            var valid := |proposal.hash| == 64 && 1 <= proposal.days <= 365;
            && (r.Stored? <==>
                  && valid
                  && (Repeats(db, key, proposal, clock) || (key !in db.rows && |ActiveKeys(db, key.ws, now)| < 500)))
            && (r.Stored? && key in db.rows ==> db' == db && r.row == db.rows[key])
            && (r.Stored? && key !in db.rows ==> Stores(db, db', key, proposal, now) && r.row == db'.rows[key])
            && (r.Refused? ==> db' == db)
            && (r == Refused(Invalid) <==> !valid)
            && (r == Refused(NotFound) <==>
                  && valid && key in db.rows && !Repeats(db, key, proposal, clock)
                  && db.rows[key].hash == proposal.hash && db.rows[key].actor == proposal.actor)
            && r != Refused(Unavailable)
  {
  }

  lemma ReviewEffect(db: Tables, key: Key, review: Review, now: Time)
    ensures var db' := ReviewEvaluation(db, key, review, now);
            && (Reviewable(db, key, now) ==> Approves(db, db', key, review, now))
            && (!Reviewable(db, key, now) ==> db' == db)
            && (Reviewable(db, key, now) <==>
                  && key in db.rows && db.rows[key].status == Unreviewed
                  && db.rows[key].payload.Some? && now < db.rows[key].expires)
  {
  }

  lemma WithdrawEffect(db: Tables, key: Key)
    ensures Withdraws(db, Withdraw(db, key), key)
  {
  }

  lemma PurgeEffect(db: Tables, now: Time)
    ensures Purges(db, Purge(db, now), now)
  {
  }

  lemma PolicyEffect(db: Tables, ws: Id, enabled: bool)
    ensures Switches(db, SetPolicy(db, ws, enabled), ws, enabled)
  {
  }

  // ---- what each call keeps ----

  lemma FewerActive(db: Tables, now: Time, db': Tables, clock: Time, ws: Id)
    requires now <= clock && ActiveKeys(db', ws, clock) <= ActiveKeys(db, ws, now)
    ensures |ActiveKeys(db', ws, clock)| <= |ActiveKeys(db, ws, now)|
  {
    SubsetSize(ActiveKeys(db', ws, clock), ActiveKeys(db, ws, now));
  }

  lemma TimePasses(db: Tables, clock: Time, later: Time)
    requires TablesOk(db, clock) && clock <= later
    ensures TablesOk(db, later)
  {
    forall ws: Id ensures |ActiveKeys(db, ws, later)| <= MAX_ACTIVE {
      FewerActive(db, clock, db, later, ws);
      assert |ActiveKeys(db, ws, clock)| <= MAX_ACTIVE;
    }
  }

  // Rows may only be wiped or approved, and the policy may only be switched with its candidates wiped.
  lemma RewriteKeeps(db: Tables, db': Tables, clock: Time)
    requires TablesOk(db, clock) && db'.rows.Keys == db.rows.Keys
    requires forall key | key in db.rows :: RowOk(db'.rows[key]) && Later(db.rows[key], db'.rows[key])
    requires forall key | key in db.rows && db'.rows[key].status == AgentGenerated :: Policy(db', key.ws)
    ensures TablesOk(db', clock) && AllLater(db, db')
  {
    forall ws: Id ensures |ActiveKeys(db', ws, clock)| <= MAX_ACTIVE {
      FewerLater(db, db', ws, clock);
      assert |ActiveKeys(db, ws, clock)| <= MAX_ACTIVE;
    }
  }

  lemma FewerLater(db: Tables, db': Tables, ws: Id, now: Time)
    requires db'.rows.Keys == db.rows.Keys && AllLater(db, db')
    ensures |ActiveKeys(db', ws, now)| <= |ActiveKeys(db, ws, now)|
  {
    assert ActiveKeys(db', ws, now) <= ActiveKeys(db, ws, now);
    FewerActive(db, now, db', now, ws);
  }

  lemma ReviewKeeps(db: Tables, key: Key, review: Review, clock: Time)
    requires TablesOk(db, clock)
    ensures TablesOk(ReviewEvaluation(db, key, review, clock), clock)
    ensures AllLater(db, ReviewEvaluation(db, key, review, clock))
    ensures ContentsOk(db) && (Reviewable(db, key, clock) ==> ReviewOk(db.rows[key].payload.value, review)) ==>
              ContentsOk(ReviewEvaluation(db, key, review, clock))
  {
    var db' := ReviewEvaluation(db, key, review, clock);
    forall other | other in db.rows ensures RowOk(db'.rows[other]) && Later(db.rows[other], db'.rows[other]) {
      assert RowOk(db.rows[other]);
    }
    RewriteKeeps(db, db', clock);
  }

  lemma WithdrawKeeps(db: Tables, key: Key, clock: Time)
    requires TablesOk(db, clock)
    ensures TablesOk(Withdraw(db, key), clock) && AllLater(db, Withdraw(db, key))
    ensures ContentsOk(db) ==> ContentsOk(Withdraw(db, key))
  {
    var db' := Withdraw(db, key);
    forall other | other in db.rows ensures RowOk(db'.rows[other]) && Later(db.rows[other], db'.rows[other]) {
      assert RowOk(db.rows[other]);
    }
    RewriteKeeps(db, db', clock);
  }

  lemma PurgeKeeps(db: Tables, clock: Time)
    requires TablesOk(db, clock)
    ensures TablesOk(Purge(db, clock), clock) && AllLater(db, Purge(db, clock))
    ensures ContentsOk(db) ==> ContentsOk(Purge(db, clock))
    ensures forall key | key in db.rows && db.rows[key].expires <= clock :: Purge(db, clock).rows[key].payload.None?
  {
    var db' := Purge(db, clock);
    forall other | other in db.rows ensures RowOk(db'.rows[other]) && Later(db.rows[other], db'.rows[other]) {
      assert RowOk(db.rows[other]);
    }
    RewriteKeeps(db, db', clock);
  }

  lemma PolicyKeeps(db: Tables, ws: Id, enabled: bool, clock: Time)
    requires TablesOk(db, clock)
    ensures TablesOk(SetPolicy(db, ws, enabled), clock) && AllLater(db, SetPolicy(db, ws, enabled))
    ensures ContentsOk(db) ==> ContentsOk(SetPolicy(db, ws, enabled))
  {
    var db' := SetPolicy(db, ws, enabled);
    forall other | other in db.rows ensures RowOk(db'.rows[other]) && Later(db.rows[other], db'.rows[other]) {
      assert RowOk(db.rows[other]);
    }
    RewriteKeeps(db, db', clock);
  }

  /** Inserting under the quota that was counted at `now`, the start of the transaction, is safe at any later time. */
  lemma InsertKeeps(db: Tables, key: Key, row: Evaluation, now: Time, clock: Time)
    requires TablesOk(db, clock) && key !in db.rows && now <= clock
    requires RowOk(row) && (row.status == AgentGenerated ==> Policy(db, key.ws))
    requires |ActiveKeys(db, key.ws, now)| < MAX_ACTIVE
    ensures var db' := db.(rows := db.rows[key := row]);
            && TablesOk(db', clock) && AllLater(db, db')
            && (ContentsOk(db) && ContentOk(row) ==> ContentsOk(db'))
  {
    var db' := db.(rows := db.rows[key := row]);
    forall ws: Id ensures |ActiveKeys(db', ws, clock)| <= MAX_ACTIVE {
      assert |ActiveKeys(db, ws, clock)| <= MAX_ACTIVE;
      OneMoreActive(db, key, row, now, clock, ws);
    }
  }

  lemma OneMoreActive(db: Tables, key: Key, row: Evaluation, now: Time, clock: Time, ws: Id)
    requires key !in db.rows && now <= clock
    ensures var db' := db.(rows := db.rows[key := row]);
            |ActiveKeys(db', ws, clock)| <=
              if ws == key.ws then |ActiveKeys(db, ws, now)| + 1 else |ActiveKeys(db, ws, clock)|
  {
    var db' := db.(rows := db.rows[key := row]);
    if ws == key.ws {
      assert ActiveKeys(db', ws, clock) <= ActiveKeys(db, ws, now) + {key};
      SubsetSize(ActiveKeys(db', ws, clock), ActiveKeys(db, ws, now) + {key});
    } else {
      assert ActiveKeys(db', ws, clock) == ActiveKeys(db, ws, clock);
    }
  }

  class EvaluationStore {
    var rows: map<Key, Evaluation>
    var policies: map<Id, bool>

    ghost function Db(): Tables
      reads this
    {
      Tables(rows, policies)
    }

    constructor ()
      ensures Db() == Tables(map[], map[])
    {
      rows, policies := map[], map[];
    }

    /** Answers a retry with the stored row, and otherwise inserts under the quota and the owner's policy. */
    method SaveDecisionEvaluation(key: Key, proposal: Proposal, now: Time, clock: Time) returns (r: Reply)
      requires now <= clock && TablesOk(Db(), clock)
      modifies this`rows
      ensures (Db(), r) == Save(old(Db()), key, proposal, now, clock)
      ensures r.Stored? && key in old(rows) ==>
        Db() == old(Db()) && r.row == rows[key] && Repeats(Db(), key, proposal, clock)
      ensures r.Stored? && key !in old(rows) ==> Stores(old(Db()), Db(), key, proposal, now) && r.row == rows[key]
      ensures r.Refused? ==> Db() == old(Db())
      ensures TablesOk(Db(), clock) && AllLater(old(Db()), Db())
      ensures old(ContentsOk(Db())) && Aligned(proposal.payload) ==> ContentsOk(Db())
    {
      SaveEffect(Db(), key, proposal, now, clock);
      if !WellFormed(proposal) { return Refused(Invalid); }
      if key in rows {
        var row := rows[key];
        if row.hash != proposal.hash || row.actor != proposal.actor { return Refused(Conflict); }
        if row.payload.None? || row.expires <= clock { return Refused(NotFound); }
        return Stored(row);
      }
      var count := |set k | k in rows && k.ws == key.ws && Active(rows[k], now)|;
      assert ActiveKeys(Db(), key.ws, now) == set k | k in rows && k.ws == key.ws && Active(rows[k], now);
      if count >= MAX_ACTIVE { return Refused(Conflict); }
      var auto := key.ws in policies && policies[key.ws];
      var row := Inserted(proposal, auto, now);
      InsertKeeps(Db(), key, row, now, clock);
      rows := rows[key := row];
      return Stored(row);
    }

    /** Approves one unreviewed, unexpired row; every other row is refused. */
    method ReviewDecisionEvaluation(key: Key, review: Review, now: Time) returns (ok: bool)
      requires TablesOk(Db(), now)
      modifies this`rows
      ensures Db() == ReviewEvaluation(old(Db()), key, review, now)
      ensures ok <==> Reviewable(old(Db()), key, now)
      ensures if ok then Approves(old(Db()), Db(), key, review, now) else Db() == old(Db())
      ensures TablesOk(Db(), now) && AllLater(old(Db()), Db())
      ensures old(ContentsOk(Db())) && (ok ==> ReviewOk(old(rows[key].payload.value), review)) ==> ContentsOk(Db())
    {
      ReviewKeeps(Db(), key, review, now);
      ReviewEffect(Db(), key, review, now);
      if key !in rows || rows[key].status != Unreviewed || rows[key].payload.None? || rows[key].expires <= now {
        return false;
      }
      rows := rows[key := rows[key].(status := Reviewed, review := Some(review), granted := Some(now))];
      return true;
    }

    method WithdrawDecisionEvaluation(key: Key, ghost now: Time) returns (found: bool)
      requires TablesOk(Db(), now)
      modifies this`rows
      ensures Db() == Withdraw(old(Db()), key)
      ensures found <==> key in old(rows)
      ensures Withdraws(old(Db()), Db(), key)
      ensures found ==> rows[key].status == Withdrawn && rows[key].payload.None? && rows[key].review.None?
      ensures TablesOk(Db(), now) && AllLater(old(Db()), Db())
    {
      WithdrawKeeps(Db(), key, now);
      WithdrawEffect(Db(), key);
      if key !in rows { return false; }
      rows := rows[key := Wiped(rows[key])];
      return true;
    }

    method PurgeDecisionEvaluations(now: Time)
      requires TablesOk(Db(), now)
      modifies this`rows
      ensures Db() == Purge(old(Db()), now)
      ensures Purges(old(Db()), Db(), now)
      ensures TablesOk(Db(), now) && AllLater(old(Db()), Db())
      ensures forall key | key in rows && rows[key].expires <= now :: rows[key].payload.None?
    {
      PurgeKeeps(Db(), now);
      PurgeEffect(Db(), now);
      rows := map key | key in rows ::
        if rows[key].expires <= now && rows[key].payload.Some? then Wiped(rows[key]) else rows[key];
    }

    /** Switching the policy off withdraws the workspace's automatic candidates with it. */
    method SetDecisionTrainingPolicy(ws: Id, enabled: bool, ghost now: Time)
      requires TablesOk(Db(), now)
      modifies this
      ensures Db() == SetPolicy(old(Db()), ws, enabled)
      ensures Switches(old(Db()), Db(), ws, enabled)
      ensures TablesOk(Db(), now) && AllLater(old(Db()), Db())
    {
      PolicyKeeps(Db(), ws, enabled, now);
      PolicyEffect(Db(), ws, enabled);
      policies := policies[ws := enabled];
      if !enabled {
        rows := map key | key in rows ::
          if key.ws == ws && rows[key].status == AgentGenerated then Wiped(rows[key]) else rows[key];
      }
    }
  }
}
