/** Search answers the index gives, possibly stale ones, and how Rehydrate turns them back into memories. */
module Search {
  import opened Wrappers
  import opened Memories
  import opened Commits
  import opened Qdrant
  import opened Protocol
  import opened Safety
  import opened Guarantees

  datatype Hit = Hit(id: Id, rev: nat, score: real)

  datatype Found = Found(id: Id, row: Row, score: real)

  // The filters of a search; an empty kind or tag does not filter.
  datatype Filter = Filter(kind: Option<Kind>, tag: string) {
    predicate Admits(kind: Kind, tags: seq<string>) {
      && (this.kind.Some? ==> kind == this.kind.value)
      && (tag != "" ==> tag in tags)
    }
  }

  // The memory has the kind and the tag that were asked for.
  ghost predicate Passes(filter: Filter, row: Row) {
    && (filter.kind.Some? ==> row.kind == filter.kind.value)
    && (filter.tag != "" ==> exists k :: 0 <= k < |row.body.tags| && row.body.tags[k] == filter.tag)
  }

  // Get with the revision test of Rehydrate.
  predicate Current(db: Db, ws: Id, hit: Hit) {
    Matches(db, ws, hit.id) && db.memories[hit.id].rev == hit.rev
  }

  // The hits that survive, in order; views[i] is what the i-th Get sees.
  function Kept(views: seq<Db>, ws: Id, hits: seq<Hit>): (kept: seq<nat>)
    requires |views| == |hits|
    ensures forall i :: i in kept <==> 0 <= i < |hits| && Current(views[i], ws, hits[i])
    ensures forall i, j | 0 <= i < j < |kept| :: kept[i] < kept[j]
  {
    if hits == [] then []
    else
      var n := |hits| - 1;
      var rest := Kept(views[..n], ws, hits[..n]);
      assert forall i | 0 <= i < n :: views[..n][i] == views[i] && hits[..n][i] == hits[i];
      assert forall i :: i in rest <==> 0 <= i < n && Current(views[i], ws, hits[i]);
      if Current(views[n], ws, hits[n]) then
        assert forall j | 0 <= j < |rest| :: rest[j] in rest;
        rest + [n]
      else rest
  }

  lemma {:induction false} KeptSnoc(views: seq<Db>, ws: Id, hits: seq<Hit>, n: nat)
    requires |views| == |hits| && n < |hits|
    ensures Kept(views[..n + 1], ws, hits[..n + 1])
         == Kept(views[..n], ws, hits[..n]) + if Current(views[n], ws, hits[n]) then [n] else []
  {
    assert views[..n + 1][..n] == views[..n] && hits[..n + 1][..n] == hits[..n];
  }

  function FoundAt(views: seq<Db>, hits: seq<Hit>, i: nat): Found
    requires i < |hits| == |views| && hits[i].id in views[i].memories
  {
    Found(hits[i].id, views[i].memories[hits[i].id], hits[i].score)
  }

  /** Reads every hit's memory again and drops the hits that are no longer current. */
  method Rehydrate(views: seq<Db>, ws: Id, hits: seq<Hit>) returns (out: seq<Found>)
    requires |views| == |hits|
    ensures |out| == |Kept(views, ws, hits)|
    ensures forall j | 0 <= j < |out| ::
              var i := Kept(views, ws, hits)[j];
              && i in Kept(views, ws, hits)
              && out[j].id == hits[i].id && out[j].score == hits[i].score && out[j].row == views[i].memories[hits[i].id]
  {
    out := [];
    ghost var kept: seq<nat> := [];
    for n := 0 to |hits|
      invariant kept == Kept(views[..n], ws, hits[..n]) && |out| == |kept|
      invariant forall j | 0 <= j < |out| ::
                  kept[j] < n && Current(views[kept[j]], ws, hits[kept[j]])
                  && out[j] == FoundAt(views, hits, kept[j])
    {
      KeptSnoc(views, ws, hits, n);
      var h, db := hits[n], views[n];
      if h.id !in db.memories || db.memories[h.id].ws != ws || db.memories[h.id].deleted { continue; }
      if db.memories[h.id].rev != h.rev { continue; }
      out, kept := out + [Found(h.id, db.memories[h.id], h.score)], kept + [n];
    }
    assert views[..|hits|] == views && hits[..|hits|] == hits;
  }

  /**
  What the index may answer: hits for points that were sent to it at some time, however old,
  repeated or reordered, as long as their payload passes the filters.
  */
  ghost predicate Answered(sent: set<Point>, ws: Id, filter: Filter, hits: seq<Hit>) {
    forall i | 0 <= i < |hits| :: Backed(sent, ws, filter, hits[i])
  }

  ghost predicate Backed(sent: set<Point>, ws: Id, filter: Filter, hit: Hit) {
    exists p :: p in sent && p.id == hit.id && p.rev == hit.rev && p.ws == ws && filter.Admits(p.kind, p.tags)
  }

  /**
  Soundness against a stale index: whatever old points the index answered with at step `k` of a run,
  a hit that Rehydrate keeps at a later step `m` names a memory that is live in the workspace, has
  the hit's revision and passes the filters by its current kind and tags.
  */
  lemma StaleHitsAreHarmless(states: seq<State>, actions: seq<Action>, k: nat, m: nat, ws: Id, filter: Filter, hit: Hit)
    requires Run(states, actions) && k <= m < |states|
    requires Backed(states[k].sent, ws, filter, hit)
    requires Current(states[m].db, ws, hit)
    ensures var row := states[m].db.memories[hit.id];
            && !row.deleted && row.ws == ws && row.rev == hit.rev
            && Passes(filter, row)
  {
    RunExtends(states, actions, k, m);
    RowAt(states, actions, m, hit.id);
    var p :| p in states[k].sent && p.id == hit.id && p.rev == hit.rev && p.ws == ws && filter.Admits(p.kind, p.tags);
    PointAt(states, actions, k, p);
    GenuineStays(states[k].history, states[m].history, p);
  }

  /**
  A point read from an undamaged index, before or after its memory was read, carries the memory's
  present content as soon as the revisions agree. Comparing the workspaces as well adds nothing.
  */
  lemma FreshPointIsCurrent(states: seq<State>, actions: seq<Action>, k: nat, m: nat, p: Point)
    requires Run(states, actions) && k < |states| && m < |states|
    requires p in states[k].sent && p.id in states[m].db.memories
    requires p.rev == states[m].db.memories[p.id].rev
    ensures p == PointOf(p.id, states[m].db.memories[p.id])
    ensures !states[m].db.memories[p.id].deleted
  {
    PointAt(states, actions, k, p);
    RowAt(states, actions, m, p.id);
    if k <= m {
      RunExtends(states, actions, k, m);
      GenuineStays(states[k].history, states[m].history, p);
    } else {
      RunExtends(states, actions, m, k);
      assert states[m].history[p.id] <= states[k].history[p.id];
    }
  }

  /** A whole search: every memory returned is live, in the workspace, at its hit's revision, and passes the filters. */
  lemma {:induction false} SearchSound(
      states: seq<State>, actions: seq<Action>, k: nat, at: seq<nat>, ws: Id, filter: Filter, hits: seq<Hit>,
      views: seq<Db>)
    requires Run(states, actions) && k < |states| && |at| == |hits| == |views|
    requires forall i | 0 <= i < |at| :: k <= at[i] < |states| && views[i] == states[at[i]].db
    requires Answered(states[k].sent, ws, filter, hits)
    ensures forall i | i in Kept(views, ws, hits) ::
              var row := views[i].memories[hits[i].id];
              !row.deleted && row.ws == ws && row.rev == hits[i].rev && Passes(filter, row)
  {
    forall i | i in Kept(views, ws, hits)
      ensures var row := views[i].memories[hits[i].id];
              !row.deleted && row.ws == ws && row.rev == hits[i].rev && Passes(filter, row)
    {
      StaleHitsAreHarmless(states, actions, k, at[i], ws, filter, hits[i]);
    }
  }

  // A hit computed from the index as it stands.
  ghost predicate HitBy(index: Index, ws: Id, hit: Hit) {
    hit.id in index && index[hit.id].ws == ws && index[hit.id].rev == hit.rev
  }

  // Rehydrate keeps every hit that the index as it stands may answer.
  ghost predicate DropsNothing(s: State, ws: Id, hits: seq<Hit>) {
    (forall i | 0 <= i < |hits| :: HitBy(s.index, ws, hits[i])) ==>
      Kept(seq(|hits|, i => s.db), ws, hits) == seq(|hits|, i => i)
  }

  /** With an undamaged index and an empty queue Rehydrate drops nothing. */
  lemma SettledSearchDropsNothing(states: seq<State>, actions: seq<Action>, n: nat, ws: Id, hits: seq<Hit>)
    requires Run(states, actions) && n < |states| && states[n].db.outbox == map[]
    requires forall i | 0 <= i < n :: !actions[i].Damage?
    ensures DropsNothing(states[n], ws, hits)
  {
    RunKeeps(states, actions, n);
    UndamagedLosesNothing(states, actions, n);
    SettledDropsNothing(states[n], ws, hits);
  }

  lemma SettledDropsNothing(s: State, ws: Id, hits: seq<Hit>)
    requires Inv(s) && s.lost == {} && s.db.outbox == map[]
    ensures DropsNothing(s, ws, hits)
  {
    if forall i | 0 <= i < |hits| :: HitBy(s.index, ws, hits[i]) {
      forall i | 0 <= i < |hits| ensures Current(s.db, ws, hits[i]) {
        assert HitBy(s.index, ws, hits[i]) && Genuine(s.history, s.index[hits[i].id]);
        assert Agrees(s.index, hits[i].id, s.db.memories[hits[i].id]);
      }
      AllKept(seq(|hits|, i => s.db), ws, hits);
    }
  }

  lemma {:induction false} AllKept(views: seq<Db>, ws: Id, hits: seq<Hit>)
    requires |views| == |hits|
    requires forall i | 0 <= i < |hits| :: Current(views[i], ws, hits[i])
    ensures Kept(views, ws, hits) == seq(|hits|, i => i)
  {
    if hits != [] { AllKept(views[..|hits| - 1], ws, hits[..|hits| - 1]); }
  }

  /**
  Whatever a damaged index answers, a hit for a memory that was deleted, or had a newer revision,
  at step `k` of a run is dropped at every later read.
  */
  lemma {:induction false} LeftoverPointsAreDropped(
      states: seq<State>, actions: seq<Action>, k: nat, m: nat, views: seq<Db>, ws: Id, hits: seq<Hit>, i: nat)
    requires Run(states, actions) && k <= m < |states|
    requires i < |hits| == |views| && views[i] == states[m].db
    requires hits[i].id in states[k].db.memories
    requires states[k].db.memories[hits[i].id].deleted || states[k].db.memories[hits[i].id].rev > hits[i].rev
    ensures i !in Kept(views, ws, hits)
  {
    var id := hits[i].id;
    RevisionsGrow(states, actions, k, m, id);
    if states[k].db.memories[id].deleted {
      ForgottenForever(states, actions, k, m, id);
      assert Stamp(states[m].db.memories[id]).deleted == Stamp(states[k].db.memories[id]).deleted;
    }
  }
}
