/**
Concurrent evaluation calls. SaveDecisionEvaluation and SetDecisionTrainingPolicy hold the
workspace's advisory lock until they end; reviews, withdrawals and purges are single statements
that take no such lock. All share one clock.
*/
module Consent {
  import opened Wrappers
  import opened Export
  import opened Feedback

  type Tid = nat

  datatype Stage = Waiting | Locked | Absent | Counted | Decided

  datatype SaveTx = SaveTx(stage: Stage, key: Key, proposal: Proposal, auto: bool, now: Time)

  datatype Tx =
    | Saving(v: SaveTx)
    | Switching(held: bool, ws: Id, enabled: bool)
    | Reviewing(key: Key, payload: Payload, review: Review)  // the handler has read the row it will approve

  datatype State = State(db: Tables, txs: map<Tid, Tx>, clock: Time)

  datatype Action =
    | Begin(t: Tid, tx: Tx)
    | Exec(t: Tid)
    | Rollback(t: Tid)
    | Precheck(key: Key, hash: string, actor: string)
    | Withdrawal(key: Key)
    | Purging
    | Tick(to: Time)

  // ---- steps ----

  predicate HoldsLock(tx: Tx, ws: Id) {
    match tx
    case Saving(v) => !v.stage.Waiting? && v.key.ws == ws
    case Switching(held, own, _) => held && own == ws
    case Reviewing(_, _, _) => false
  }

  predicate Free(s: State, t: Tid, ws: Id) {
    forall u | u in s.txs && u != t :: !HoldsLock(s.txs[u], ws)
  }

  predicate Readable(db: Tables, key: Key, clock: Time) {
    key in db.rows && Active(db.rows[key], clock)
  }

  ghost predicate Fresh(s: State, tx: Tx) {
    match tx
    case Saving(v) => v.stage.Waiting? && v.now == s.clock && WellFormed(v.proposal) && Aligned(v.proposal.payload)
    case Switching(held, _, _) => !held
    case Reviewing(key, payload, review) =>
      Readable(s.db, key, s.clock) && s.db.rows[key].payload == Some(payload) && ReviewOk(payload, review)
  }

  ghost predicate Enabled(s: State, action: Action) {
    match action
    case Begin(t, tx) => t !in s.txs && Fresh(s, tx)
    case Exec(t) =>
      && t in s.txs
      && (s.txs[t].Saving? && s.txs[t].v.stage.Waiting? ==> Free(s, t, s.txs[t].v.key.ws))
      && (s.txs[t].Switching? && !s.txs[t].held ==> Free(s, t, s.txs[t].ws))
    case Rollback(t) => t in s.txs
    case Tick(to) => s.clock <= to
    case _ => true
  }

  function SaveStep(s: State, t: Tid, v: SaveTx): State {
    var ended := s.(txs := s.txs - {t});
    match v.stage
    case Waiting => s.(txs := s.txs[t := Saving(v.(stage := Locked))])
    case Locked => if v.key in s.db.rows then ended else s.(txs := s.txs[t := Saving(v.(stage := Absent))])
    case Absent =>
      if |ActiveKeys(s.db, v.key.ws, v.now)| >= MAX_ACTIVE then ended
      else s.(txs := s.txs[t := Saving(v.(stage := Counted))])
    case Counted => s.(txs := s.txs[t := Saving(v.(stage := Decided, auto := Policy(s.db, v.key.ws)))])
    case Decided => ended.(db := s.db.(rows := s.db.rows[v.key := Inserted(v.proposal, v.auto, v.now)]))
  }

  function Step(s: State, action: Action): State
    requires action.Exec? ==> action.t in s.txs
  {
    match action
    case Begin(t, tx) => s.(txs := s.txs[t := tx])
    case Exec(t) => (
      match s.txs[t]
      case Saving(v) => SaveStep(s, t, v)
      case Switching(held, ws, enabled) =>
        if held then s.(db := SetPolicy(s.db, ws, enabled), txs := s.txs - {t})
        else s.(txs := s.txs[t := Switching(true, ws, enabled)])
      case Reviewing(key, _, review) =>
        s.(db := ReviewEvaluation(s.db, key, review, s.clock), txs := s.txs - {t}))
    case Rollback(t) => s.(txs := s.txs - {t})
    case Precheck(_, _, _) => s
    case Withdrawal(key) => s.(db := Withdraw(s.db, key))
    case Purging => s.(db := Purge(s.db, s.clock))
    case Tick(to) => s.(clock := to)
  }

  // ---- the invariant ----

  ghost predicate SaveOk(db: Tables, clock: Time, v: SaveTx) {
    && v.now <= clock && WellFormed(v.proposal) && Aligned(v.proposal.payload)
    && (v.stage.Absent? || v.stage.Counted? || v.stage.Decided? ==> v.key !in db.rows)
    && (v.stage.Counted? || v.stage.Decided? ==> |ActiveKeys(db, v.key.ws, v.now)| < MAX_ACTIVE)
    && (v.stage.Decided? ==> v.auto == Policy(db, v.key.ws))
  }

  ghost predicate TxOk(db: Tables, clock: Time, tx: Tx) {
    match tx
    case Saving(v) => SaveOk(db, clock, v)
    case Switching(_, _, _) => true
    case Reviewing(key, payload, review) =>
      && ReviewOk(payload, review)
      && key in db.rows && (db.rows[key].payload == Some(payload) || db.rows[key].payload.None?)
  }

  ghost predicate LocksOk(s: State) {
    forall t: Tid, u: Tid, ws: Id | t in s.txs && u in s.txs && t != u ::
      !(HoldsLock(s.txs[t], ws) && HoldsLock(s.txs[u], ws))
  }

  ghost predicate Inv(s: State) {
    && TablesOk(s.db, s.clock)
    && ContentsOk(s.db)
    && LocksOk(s)
    && forall t | t in s.txs :: TxOk(s.db, s.clock, s.txs[t])
  }

  // What a transaction holding the lock of another workspace, or none, may do to the tables.
  ghost predicate Elsewhere(db: Tables, db': Tables, ws: Id) {
    && (forall key: Key | key.ws == ws :: key in db'.rows <==> key in db.rows)
    && (forall now: Time :: |ActiveKeys(db', ws, now)| <= |ActiveKeys(db, ws, now)|)
    && Policy(db', ws) == Policy(db, ws)
  }

  lemma Undisturbed(db: Tables, db': Tables, clock: Time, tx: Tx)
    requires TxOk(db, clock, tx) && AllLater(db, db')
    requires tx.Saving? && !tx.v.stage.Waiting? ==> Elsewhere(db, db', tx.v.key.ws)
    ensures TxOk(db', clock, tx)
  {
    if tx.Saving? && !tx.v.stage.Waiting? {
      assert |ActiveKeys(db', tx.v.key.ws, tx.v.now)| <= |ActiveKeys(db, tx.v.key.ws, tx.v.now)|;
    }
  }

  lemma RewriteElsewhere(db: Tables, db': Tables, ws: Id)
    requires db'.rows.Keys == db.rows.Keys && AllLater(db, db') && Policy(db', ws) == Policy(db, ws)
    ensures Elsewhere(db, db', ws)
  {
    forall now: Time { FewerLater(db, db', ws, now); }
  }

  lemma InsertElsewhere(db: Tables, key: Key, row: Evaluation, ws: Id)
    requires key.ws != ws
    ensures Elsewhere(db, db.(rows := db.rows[key := row]), ws)
  {
    var db' := db.(rows := db.rows[key := row]);
    forall now: Time ensures |ActiveKeys(db', ws, now)| <= |ActiveKeys(db, ws, now)| {
      assert ActiveKeys(db', ws, now) == ActiveKeys(db, ws, now);
    }
  }

  lemma InsertStep(s: State, t: Tid)
    requires Inv(s) && t in s.txs && s.txs[t].Saving? && s.txs[t].v.stage.Decided?
    ensures Inv(Step(s, Exec(t))) && AllLater(s.db, Step(s, Exec(t)).db)
  {
    var s', v := Step(s, Exec(t)), s.txs[t].v;
    assert TxOk(s.db, s.clock, s.txs[t]);
    InsertKeeps(s.db, v.key, Inserted(v.proposal, v.auto, v.now), v.now, s.clock);
    forall u | u in s'.txs ensures TxOk(s'.db, s'.clock, s'.txs[u]) {
      assert TxOk(s.db, s.clock, s.txs[u]);
      assert !(HoldsLock(s.txs[t], v.key.ws) && HoldsLock(s.txs[u], v.key.ws));
      if s.txs[u].Saving? && !s.txs[u].v.stage.Waiting? {
        InsertElsewhere(s.db, v.key, Inserted(v.proposal, v.auto, v.now), s.txs[u].v.key.ws);
      }
      Undisturbed(s.db, s'.db, s.clock, s.txs[u]);
    }
  }

  lemma SwitchStep(s: State, t: Tid)
    requires Inv(s) && t in s.txs && s.txs[t].Switching? && s.txs[t].held
    ensures Inv(Step(s, Exec(t))) && AllLater(s.db, Step(s, Exec(t)).db)
  {
    var s', ws := Step(s, Exec(t)), s.txs[t].ws;
    PolicyKeeps(s.db, ws, s.txs[t].enabled, s.clock);
    forall u | u in s'.txs ensures TxOk(s'.db, s'.clock, s'.txs[u]) {
      assert TxOk(s.db, s.clock, s.txs[u]);
      assert !(HoldsLock(s.txs[t], ws) && HoldsLock(s.txs[u], ws));
      if s.txs[u].Saving? && !s.txs[u].v.stage.Waiting? { RewriteElsewhere(s.db, s'.db, s.txs[u].v.key.ws); }
      Undisturbed(s.db, s'.db, s.clock, s.txs[u]);
    }
  }

  // A statement that takes no lock rewrites rows in place and leaves the policies alone.
  lemma RewriteStep(s: State, s': State)
    requires Inv(s) && s'.clock == s.clock && TablesOk(s'.db, s.clock) && ContentsOk(s'.db) && AllLater(s.db, s'.db)
    requires s'.db.rows.Keys == s.db.rows.Keys && s'.db.policies == s.db.policies
    requires s'.txs.Keys <= s.txs.Keys && forall t | t in s'.txs :: s'.txs[t] == s.txs[t]
    ensures Inv(s')
  {
    forall u | u in s'.txs ensures TxOk(s'.db, s'.clock, s'.txs[u]) {
      assert TxOk(s.db, s.clock, s.txs[u]);
      if s.txs[u].Saving? { RewriteElsewhere(s.db, s'.db, s.txs[u].v.key.ws); }
      Undisturbed(s.db, s'.db, s.clock, s.txs[u]);
    }
  }

  lemma ReviewStep(s: State, t: Tid)
    requires Inv(s) && t in s.txs && s.txs[t].Reviewing?
    ensures Inv(Step(s, Exec(t))) && AllLater(s.db, Step(s, Exec(t)).db)
  {
    assert TxOk(s.db, s.clock, s.txs[t]);
    ReviewKeeps(s.db, s.txs[t].key, s.txs[t].review, s.clock);
    RewriteStep(s, Step(s, Exec(t)));
  }

  // A statement that only moves its own transaction on.
  lemma LocalStep(s: State, t: Tid, tx: Tx)
    requires Inv(s) && TxOk(s.db, s.clock, tx)
    requires forall ws | HoldsLock(tx, ws) :: Free(s, t, ws)
    ensures Inv(s.(txs := s.txs[t := tx])) && AllLater(s.db, s.db)
  {
  }

  lemma OwnLockFree(s: State, t: Tid, ws: Id)
    requires LocksOk(s) && t in s.txs && HoldsLock(s.txs[t], ws)
    ensures Free(s, t, ws)
  {
  }

  lemma ExecKeeps(s: State, t: Tid)
    requires Inv(s) && Enabled(s, Exec(t))
    ensures TxOk(s.db, s.clock, s.txs[t])
    ensures Inv(Step(s, Exec(t))) && AllLater(s.db, Step(s, Exec(t)).db)
  {
    var tx := s.txs[t];
    assert TxOk(s.db, s.clock, tx);
    match tx
    case Saving(v) =>
      if v.stage.Decided? {
        InsertStep(s, t);
      } else {
        if !v.stage.Waiting? { OwnLockFree(s, t, v.key.ws); }
        if t in SaveStep(s, t, v).txs { LocalStep(s, t, SaveStep(s, t, v).txs[t]); }
      }
    case Switching(held, ws, enabled) =>
      if held { SwitchStep(s, t); } else { LocalStep(s, t, Switching(true, ws, enabled)); }
    case Reviewing(_, _, _) => ReviewStep(s, t);
  }

  lemma TickKeeps(s: State, to: Time)
    requires Inv(s) && s.clock <= to
    ensures Inv(s.(clock := to))
  {
    TimePasses(s.db, s.clock, to);
    forall u | u in s.txs ensures TxOk(s.db, to, s.txs[u]) { assert TxOk(s.db, s.clock, s.txs[u]); }
  }

  lemma StepKeeps(s: State, action: Action)
    requires Inv(s) && Enabled(s, action)
    ensures action.Exec? ==> TxOk(s.db, s.clock, s.txs[action.t])
    ensures var s' := Step(s, action); Inv(s') && AllLater(s.db, s'.db) && s.clock <= s'.clock
  {
    match action
    case Begin(t, tx) => LocalStep(s, t, tx);
    case Exec(t) => ExecKeeps(s, t);
    case Rollback(t) => RewriteStep(s, Step(s, action));
    case Precheck(_, _, _) =>
    case Withdrawal(key) => WithdrawKeeps(s.db, key, s.clock); RewriteStep(s, Step(s, action));
    case Purging => PurgeKeeps(s.db, s.clock); RewriteStep(s, Step(s, action));
    case Tick(to) => TickKeeps(s, to);
  }

  // ---- runs ----

  const EMPTY := State(Tables(map[], map[]), map[], 0)

  ghost predicate StepsAt(states: seq<State>, actions: seq<Action>, i: nat)
    requires |states| == |actions| + 1 && i < |actions|
  {
    Enabled(states[i], actions[i]) && states[i + 1] == Step(states[i], actions[i])
  }

  ghost predicate Run(states: seq<State>, actions: seq<Action>) {
    && |states| == |actions| + 1
    && states[0] == EMPTY
    && forall i | 0 <= i < |actions| :: StepsAt(states, actions, i)
  }

  lemma {:induction false} RunKeeps(states: seq<State>, actions: seq<Action>, n: nat)
    requires Run(states, actions) && n < |states|
    ensures Inv(states[n])
  {
    if n == 0 {
      forall ws: Id ensures |ActiveKeys(EMPTY.db, ws, 0)| == 0 { assert ActiveKeys(EMPTY.db, ws, 0) == {}; }
    } else {
      RunKeeps(states, actions, n - 1);
      assert StepsAt(states, actions, n - 1);
      StepKeeps(states[n - 1], actions[n - 1]);
    }
  }

  /** Rows never disappear, and each one only moves towards withdrawal. */
  lemma {:induction false} RowsOnlyAge(states: seq<State>, actions: seq<Action>, i: nat, j: nat)
    requires Run(states, actions) && i <= j < |states|
    ensures AllLater(states[i].db, states[j].db) && states[i].clock <= states[j].clock
  {
    if i < j {
      RowsOnlyAge(states, actions, i, j - 1);
      OneAges(states, actions, j - 1);
      RowsOkAt(states, actions, i);
      RowsOkAt(states, actions, j - 1);
      AgesFurther(states[i].db, states[j - 1].db, states[j].db);
    }
  }

  lemma OneAges(states: seq<State>, actions: seq<Action>, n: nat)
    requires Run(states, actions) && n < |actions|
    ensures AllLater(states[n].db, states[n + 1].db) && states[n].clock <= states[n + 1].clock
  {
    RunKeeps(states, actions, n);
    assert StepsAt(states, actions, n);
    StepKeeps(states[n], actions[n]);
  }

  ghost predicate RowsOk(db: Tables) {
    forall key | key in db.rows :: Feedback.RowOk(db.rows[key])
  }

  lemma RowsOkAt(states: seq<State>, actions: seq<Action>, n: nat)
    requires Run(states, actions) && n < |states|
    ensures RowsOk(states[n].db)
  {
    RunKeeps(states, actions, n);
  }

  lemma AgesFurther(a: Tables, b: Tables, c: Tables)
    requires RowsOk(a) && RowsOk(b) && AllLater(a, b) && AllLater(b, c)
    ensures AllLater(a, c)
  {
    forall key | key in a.rows ensures key in c.rows && Later(a.rows[key], c.rows[key]) {
      assert Later(a.rows[key], b.rows[key]);
      LaterTransitive(a.rows[key], b.rows[key], c.rows[key]);
    }
  }

  /** While the owner's policy is off, the workspace has no automatic candidate. */
  lemma OffMeansNoCandidates(states: seq<State>, actions: seq<Action>, n: nat, key: Key)
    requires Run(states, actions) && n < |states| && key in states[n].db.rows
    requires !Policy(states[n].db, key.ws)
    ensures states[n].db.rows[key].status != AgentGenerated
  {
    RunKeeps(states, actions, n);
  }

  /** The status, the raw content and the grant of a row always fit together. */
  lemma StatusFitsContent(states: seq<State>, actions: seq<Action>, n: nat, key: Key)
    requires Run(states, actions) && n < |states| && key in states[n].db.rows
    ensures var row := states[n].db.rows[key];
            && (row.status == Withdrawn <==> row.payload.None?)
            && (row.status == Reviewed || row.status == AgentGenerated ==> row.granted.Some?)
            && (row.status == Unreviewed ==> row.granted.None?)
            && (row.status == Withdrawn ==> row.review.None?)
  {
    RunKeeps(states, actions, n);
    assert RowOk(states[n].db.rows[key]);
  }

  /** Withdrawal is final, and an automatic candidate is never turned into a reviewed one. */
  lemma ConsentOnlyShrinks(states: seq<State>, actions: seq<Action>, i: nat, j: nat, key: Key)
    requires Run(states, actions) && i <= j < |states| && key in states[i].db.rows
    ensures key in states[j].db.rows
    ensures states[i].db.rows[key].status == Withdrawn ==> states[j].db.rows[key] == states[i].db.rows[key]
    ensures states[i].db.rows[key].status == AgentGenerated ==>
            states[j].db.rows[key].status in {AgentGenerated, Withdrawn}
    ensures states[i].db.rows[key].status == Reviewed ==> states[j].db.rows[key].status in {Reviewed, Withdrawn}
  {
    RowsOnlyAge(states, actions, i, j);
  }

  /** At most 500 evaluations of a workspace are active at any time. */
  lemma QuotaHolds(states: seq<State>, actions: seq<Action>, n: nat, ws: Id)
    requires Run(states, actions) && n < |states|
    ensures var s := states[n];
            |set key | key in s.db.rows && key.ws == ws && s.db.rows[key].payload.Some?
                       && s.clock < s.db.rows[key].expires| <= 500
  {
    RunKeeps(states, actions, n);
    var s := states[n];
    assert ActiveKeys(s.db, ws, s.clock)
        == set key | key in s.db.rows && key.ws == ws && s.db.rows[key].payload.Some?
                     && s.clock < s.db.rows[key].expires;
  }

  // ---- one evaluation id, one answer ----

  // The row that a step answers a proposal with, if it succeeds: from the unlocked pre-check, from
  // the locked re-check, or freshly inserted.
  function Answer(s: State, action: Action): Option<(Key, Evaluation)>
    requires action.Exec? ==> action.t in s.txs
  {
    match action
    case Precheck(key, hash, actor) =>
      if Readable(s.db, key, s.clock) && s.db.rows[key].hash == hash && s.db.rows[key].actor == actor
      then Some((key, s.db.rows[key])) else None
    case Exec(t) => (
      match s.txs[t]
      case Saving(v) =>
        if v.stage.Locked? && v.key in s.db.rows && Retried(s.db.rows[v.key], v.proposal, s.clock).Stored?
        then Some((v.key, s.db.rows[v.key]))
        else if v.stage.Decided? then Some((v.key, Inserted(v.proposal, v.auto, v.now)))
        else None
      case _ => None)
    case _ => None
  }

  lemma AnswerIsStored(states: seq<State>, actions: seq<Action>, n: nat)
    requires Run(states, actions) && n < |actions|
    ensures StepsAt(states, actions, n)
    ensures var answer := Answer(states[n], actions[n]);
            answer.Some? ==>
              && answer.value.0 in states[n + 1].db.rows
              && states[n + 1].db.rows[answer.value.0] == answer.value.1
              && answer.value.1.payload.Some?
  {
    assert StepsAt(states, actions, n);
  }

  /** All successful calls for one evaluation id answer with one payload, fingerprint and submitter. */
  lemma AnswersAgree(states: seq<State>, actions: seq<Action>, i: nat, j: nat)
    requires Run(states, actions) && i <= j < |actions|
    requires StepsAt(states, actions, i) && StepsAt(states, actions, j)
    requires var a, b := Answer(states[i], actions[i]), Answer(states[j], actions[j]);
             a.Some? && b.Some? && a.value.0 == b.value.0
    ensures var a, b := Answer(states[i], actions[i]).value.1, Answer(states[j], actions[j]).value.1;
            a.payload == b.payload && a.hash == b.hash && a.actor == b.actor && a.expires == b.expires
  {
    AnswerIsStored(states, actions, i);
    AnswerIsStored(states, actions, j);
    RowsOnlyAge(states, actions, i + 1, j + 1);
  }

  /** Once an id is withdrawn or expired no later call for it succeeds. */
  lemma SpentIdsNeverAnswer(states: seq<State>, actions: seq<Action>, i: nat, j: nat, key: Key)
    requires Run(states, actions) && i <= j < |actions| && StepsAt(states, actions, j)
    requires key in states[i].db.rows && !Active(states[i].db.rows[key], states[i].clock)
    ensures Answer(states[j], actions[j]).Some? ==> Answer(states[j], actions[j]).value.0 != key
  {
    RowsOnlyAge(states, actions, i, j);
    RunKeeps(states, actions, j);
    if actions[j].Exec? { StepKeeps(states[j], actions[j]); }
  }

  /** An insert that commits does what SaveDecisionEvaluation does when it runs alone at that moment. */
  lemma InsertsAreAtomic(states: seq<State>, actions: seq<Action>, n: nat)
    requires Run(states, actions) && n < |actions| && StepsAt(states, actions, n)
    requires actions[n].Exec? && states[n].txs[actions[n].t].Saving? && states[n].txs[actions[n].t].v.stage.Decided?
    ensures var v := states[n].txs[actions[n].t].v;
            Save(states[n].db, v.key, v.proposal, v.now, states[n].clock)
            == (states[n + 1].db, Stored(Answer(states[n], actions[n]).value.1))
  {
    RunKeeps(states, actions, n);
    assert TxOk(states[n].db, states[n].clock, states[n].txs[actions[n].t]);
  }

  /**
  What counts as an answer is what the calls return: the unlocked pre-check answers exactly with a
  readable row of the same request and submitter, and a locked step on a known id exactly as
  SaveDecisionEvaluation does when it runs alone at that moment.
  */
  lemma RepliesAreAnswers(states: seq<State>, actions: seq<Action>, n: nat)
    requires Run(states, actions) && n < |actions| && StepsAt(states, actions, n)
    ensures var s, answer := states[n], Answer(states[n], actions[n]);
            match actions[n]
            case Precheck(key, hash, actor) =>
              if && key in s.db.rows && s.db.rows[key].payload.Some? && s.clock < s.db.rows[key].expires
                 && s.db.rows[key].hash == hash && s.db.rows[key].actor == actor
              then answer == Some((key, s.db.rows[key])) else answer == None
            case Exec(t) => (
              match s.txs[t]
              case Saving(v) =>
                v.stage.Locked? && v.key in s.db.rows ==>
                  var (db, reply) := Save(s.db, v.key, v.proposal, v.now, s.clock);
                  && db == states[n + 1].db
                  && (reply.Stored? <==> answer.Some?)
                  && (reply.Stored? ==> answer == Some((v.key, reply.row)))
              case _ => answer == None)
            case _ => answer == None
  {
    RunKeeps(states, actions, n);
    if actions[n].Exec? { assert TxOk(states[n].db, states[n].clock, states[n].txs[actions[n].t]); }
  }

  // ---- what each step leaves behind ----

  // Said of the tables before and after, in terms of the call; steps that only read or wait change nothing.
  ghost predicate Leaves(s: State, action: Action, db': Tables)
    requires action.Exec? ==> action.t in s.txs
  {
    match action
    case Exec(t) => (
      match s.txs[t]
      case Saving(v) => if v.stage.Decided? then Stores(s.db, db', v.key, v.proposal, v.now) else db' == s.db
      case Switching(held, ws, enabled) => if held then Switches(s.db, db', ws, enabled) else db' == s.db
      case Reviewing(key, _, review) =>
        if key in s.db.rows && s.db.rows[key].status == Unreviewed && Readable(s.db, key, s.clock)
        then Approves(s.db, db', key, review, s.clock) else db' == s.db)
    case Withdrawal(key) => Withdraws(s.db, db', key)
    case Purging => Purges(s.db, db', s.clock)
    case _ => db' == s.db
  }

  /** Every step of a run leaves in the tables what its call asks for and nothing else. */
  lemma StepsLeave(states: seq<State>, actions: seq<Action>, n: nat)
    requires Run(states, actions) && n < |actions| && StepsAt(states, actions, n)
    ensures Leaves(states[n], actions[n], states[n + 1].db)
  {
    RunKeeps(states, actions, n);
    var s := states[n];
    match actions[n] {
      case Exec(t) =>
        assert TxOk(s.db, s.clock, s.txs[t]);
        match s.txs[t] {
          case Saving(v) =>
            if v.stage.Decided? {
              InsertsAreAtomic(states, actions, n);
              SaveEffect(s.db, v.key, v.proposal, v.now, s.clock);
            }
          case Switching(held, ws, enabled) => PolicyEffect(s.db, ws, enabled);
          case Reviewing(key, _, review) => ReviewEffect(s.db, key, review, s.clock);
        }
      case Withdrawal(key) => WithdrawEffect(s.db, key);
      case Purging => PurgeEffect(s.db, s.clock);
      case _ =>
    }
  }

  // Nothing of the evaluation can be read, reviewed or exported, and the registry says so.
  ghost predicate Closed(s: State, key: Key) {
    && key in s.db.rows
    && (var row := s.db.rows[key];
        && row.status == Withdrawn && row.payload.None? && row.review.None?
        && !ReadyForExport(row, s.clock) && !Archivable(row, s.clock) && PermissionWithdrawn(row, s.clock))
    && !Readable(s.db, key, s.clock)
  }

  lemma ClosedStays(states: seq<State>, actions: seq<Action>, i: nat, j: nat, key: Key)
    requires Run(states, actions) && i <= j < |states| && key in states[i].db.rows
    requires states[i].db.rows[key].status == Withdrawn
    ensures Closed(states[j], key)
    ensures j < |actions| && StepsAt(states, actions, j) ==>
              (Answer(states[j], actions[j]).Some? ==> Answer(states[j], actions[j]).value.0 != key)
  {
    ConsentOnlyShrinks(states, actions, i, j, key);
    StatusFitsContent(states, actions, i, key);
    if j < |actions| && StepsAt(states, actions, j) { SpentIdsNeverAnswer(states, actions, i, j, key); }
  }

  /** A withdrawal takes effect at once and for good: no content, no export, and no later answer for the id. */
  lemma WithdrawalHolds(states: seq<State>, actions: seq<Action>, n: nat, m: nat, key: Key)
    requires Run(states, actions) && n < m < |states|
    requires actions[n] == Withdrawal(key) && key in states[n].db.rows
    ensures Closed(states[m], key)
    ensures m < |actions| && StepsAt(states, actions, m) ==>
              (Answer(states[m], actions[m]).Some? ==> Answer(states[m], actions[m]).value.0 != key)
  {
    assert StepsAt(states, actions, n);
    StepsLeave(states, actions, n);
    ClosedStays(states, actions, n + 1, m, key);
  }

  /** So does a purge, for every evaluation that has expired. */
  lemma PurgeHolds(states: seq<State>, actions: seq<Action>, n: nat, m: nat, key: Key)
    requires Run(states, actions) && n < m < |states| && actions[n].Purging?
    requires key in states[n].db.rows && states[n].db.rows[key].expires <= states[n].clock
    ensures Closed(states[m], key)
  {
    assert StepsAt(states, actions, n);
    StepsLeave(states, actions, n);
    StatusFitsContent(states, actions, n, key);
    ClosedStays(states, actions, n + 1, m, key);
  }

  /** So does switching the policy off, for every automatic candidate of the workspace. */
  lemma SwitchingOffHolds(states: seq<State>, actions: seq<Action>, n: nat, m: nat, key: Key)
    requires Run(states, actions) && n < m < |states|
    requires actions[n].Exec? && actions[n].t in states[n].txs
    requires states[n].txs[actions[n].t] == Switching(true, key.ws, false)
    requires key in states[n].db.rows && states[n].db.rows[key].status == AgentGenerated
    ensures Closed(states[m], key)
  {
    assert StepsAt(states, actions, n);
    StepsLeave(states, actions, n);
    ClosedStays(states, actions, n + 1, m, key);
  }

  // ---- eligibility ----

  /**
  The receipt, the archive and the permission registry judge a reachable row alike: it was granted,
  still has its content, and has not expired.
  */
  lemma EligibilityAgrees(states: seq<State>, actions: seq<Action>, n: nat, key: Key)
    requires Run(states, actions) && n < |states| && key in states[n].db.rows
    ensures var row, now := states[n].db.rows[key], states[n].clock;
            && (ReadyForExport(row, now) <==> Archivable(row, now))
            && (ReadyForExport(row, now) <==> !PermissionWithdrawn(row, now))
            && (ReadyForExport(row, now) <==> row.granted.Some? && row.payload.Some? && now < row.expires)
  {
    RunKeeps(states, actions, n);
    assert RowOk(states[n].db.rows[key]) && ContentOk(states[n].db.rows[key]);
  }

  /** A registry entry stays, with its grant time, and once it says withdrawn it always will. */
  lemma RegistryMonotone(states: seq<State>, actions: seq<Action>, i: nat, j: nat, key: Key)
    requires Run(states, actions) && i <= j < |states|
    requires key in states[i].db.rows && states[i].db.rows[key].granted.Some?
    ensures key in states[j].db.rows && states[j].db.rows[key].granted == states[i].db.rows[key].granted
    ensures PermissionWithdrawn(states[i].db.rows[key], states[i].clock)
            ==> PermissionWithdrawn(states[j].db.rows[key], states[j].clock)
  {
    RowsOnlyAge(states, actions, i, j);
    RunKeeps(states, actions, i);
    assert RowOk(states[i].db.rows[key]);
  }

  /** An export whose second read passes was eligible, on the same snapshot, at every step since its first read. */
  lemma ExportWasEligibleThroughout(states: seq<State>, actions: seq<Action>, i: nat, k: nat, j: nat, key: Key)
    requires Run(states, actions) && i <= k <= j < |states|
    requires Readable(states[i].db, key, states[i].clock) && Archivable(states[i].db.rows[key], states[i].clock)
    requires Readable(states[j].db, key, states[j].clock) && states[j].db.rows[key].status in {Reviewed, AgentGenerated}
    ensures key in states[k].db.rows && states[k].db.rows[key] == states[i].db.rows[key]
    ensures Archivable(states[k].db.rows[key], states[k].clock)
  {
    RowsOnlyAge(states, actions, i, k);
    RowsOnlyAge(states, actions, k, j);
    RunKeeps(states, actions, k);
    assert RowOk(states[k].db.rows[key]) && ContentOk(states[k].db.rows[key]);
  }

  /**
  A reviewed row can always be exported completely: its snapshot is aligned and every rule has the
  reviewer's label.
  */
  lemma ReviewedExportsAreComplete(states: seq<State>, actions: seq<Action>, n: nat, key: Key, r: nat)
    requires Run(states, actions) && n < |states|
    requires key in states[n].db.rows && states[n].db.rows[key].status == Reviewed
    ensures var row := states[n].db.rows[key];
            && row.payload.Some? && row.review.Some? && Aligned(row.payload.value)
            && (r < |row.payload.value.rules| ==>
                  LabelOf(row.review.value.judgements, row.payload.value.rules[r].id)
                  in ["relevant", "not_relevant", "insufficient_context"])
  {
    RunKeeps(states, actions, n);
    var row := states[n].db.rows[key];
    assert RowOk(row) && ContentOk(row);
    if r < |row.payload.value.rules| {
      ReviewLabelsComplete(row.payload.value, row.review.value.judgements, r);
    }
  }
}
