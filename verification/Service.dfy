/** The three ways a search is answered: from the index, or by listing when there is no query or no index. */
module Service {
  import opened Wrappers
  import opened Memories
  import opened Protocol
  import opened Rehydration = Search

  // A validated SearchInput.
  datatype Request = Request(query: string, filter: Filter, limit: nat, offset: nat)

  datatype Answer = Answer(memories: seq<Found>, total: nat, degraded: bool)

  // ---- listing ----

  // The conditions of a listing; `finds` stands for the text search of the database.
  predicate Wanted(db: Db, ws: Id, request: Request, finds: (string, Row) -> bool, id: Id) {
    && Matches(db, ws, id)
    && request.filter.Admits(db.memories[id].kind, db.memories[id].body.tags)
    && (request.query != "" ==> finds(request.query, db.memories[id]))
  }

  function WantedIds(db: Db, ws: Id, request: Request, finds: (string, Row) -> bool): set<Id> {
    set id | id in db.memories && Wanted(db, ws, request, finds, id)
  }

  // Everything wanted, once each, in the order that the database sorts it.
  ghost predicate Sorted(db: Db, ws: Id, request: Request, finds: (string, Row) -> bool, order: seq<Id>) {
    && (forall i, j | 0 <= i < j < |order| :: order[i] != order[j])
    && (forall id :: id in order <==> id in WantedIds(db, ws, request, finds))
  }

  // Row j of the page.
  predicate OnPage(db: Db, request: Request, order: seq<Id>, j: nat, found: Found) {
    && request.offset + j < |order|
    && order[request.offset + j] in db.memories
    && found == Found(order[request.offset + j], db.memories[order[request.offset + j]], 0.0)
  }

  ghost predicate Listing(
      counted: Db, listed: Db, ws: Id, request: Request, finds: (string, Row) -> bool, order: seq<Id>, answer: Answer) {
    && answer.total == |WantedIds(counted, ws, request, finds)|
    && |answer.memories| == Min(request.limit, Max(0, |order| - request.offset))
    && forall j | 0 <= j < |answer.memories| :: OnPage(listed, request, order, j, answer.memories[j])
  }

  function Max(a: int, b: int): int {
    if a < b then b else a
  }

  /** What a listing is asked for: the live rows of the workspace that pass the filters and have the query's words. */
  ghost predicate Asked(db: Db, ws: Id, request: Request, finds: (string, Row) -> bool, id: Id) {
    && id in db.memories && db.memories[id].ws == ws && !db.memories[id].deleted
    && Passes(request.filter, db.memories[id])
    && (request.query != "" ==> finds(request.query, db.memories[id]))
  }

  lemma WantedIsAsked(db: Db, ws: Id, request: Request, finds: (string, Row) -> bool)
    ensures forall id :: id in WantedIds(db, ws, request, finds) <==> Asked(db, ws, request, finds, id)
  {
  }

  // Row `id` is in the answer.
  ghost predicate Lists(answer: Answer, id: Id) {
    exists j :: 0 <= j < |answer.memories| && answer.memories[j].id == id
  }

  /** A first page that is not full holds everything asked for. */
  lemma ShortPageIsComplete(
      counted: Db, listed: Db, ws: Id, request: Request, finds: (string, Row) -> bool, order: seq<Id>, answer: Answer,
      id: Id)
    requires Sorted(listed, ws, request, finds, order)
    requires Listing(counted, listed, ws, request, finds, order, answer)
    requires request.offset == 0 && |answer.memories| < request.limit
    requires Asked(listed, ws, request, finds, id)
    ensures Lists(answer, id)
  {
    WantedIsAsked(listed, ws, request, finds);
    assert id in order;
    var j :| 0 <= j < |order| && order[j] == id;
    assert OnPage(listed, request, order, j, answer.memories[j]);
  }

  /** One page and the total; the count and the page are two statements and may see different tables. */
  method List(counted: Db, listed: Db, ws: Id, request: Request, finds: (string, Row) -> bool, order: seq<Id>)
    returns (answer: Answer)
    requires Sorted(listed, ws, request, finds, order)
    ensures Listing(counted, listed, ws, request, finds, order, answer) && !answer.degraded
    ensures answer.total == |set id | id in counted.memories && Asked(counted, ws, request, finds, id)|
    ensures request.offset == 0 && |answer.memories| < request.limit ==>
              forall id | Asked(listed, ws, request, finds, id) :: Lists(answer, id)
  {
    var total, memories := |WantedIds(counted, ws, request, finds)|, [];
    var next := request.offset;
    while next < |order| && |memories| < request.limit
      invariant request.offset <= next && next == request.offset + |memories|
      invariant next <= Max(request.offset, |order|) && |memories| <= request.limit
      invariant forall j | 0 <= j < |memories| :: OnPage(listed, request, order, j, memories[j])
    {
      assert order[next] in order;
      memories := memories + [Found(order[next], listed.memories[order[next]], 0.0)];
      next := next + 1;
    }
    answer := Answer(memories, total, false);
    WantedIsAsked(counted, ws, request, finds);
    assert WantedIds(counted, ws, request, finds)
        == set id | id in counted.memories && Asked(counted, ws, request, finds, id);
    if request.offset == 0 && |answer.memories| < request.limit {
      forall id | Asked(listed, ws, request, finds, id) ensures Lists(answer, id) {
        ShortPageIsComplete(counted, listed, ws, request, finds, order, answer, id);
      }
    }
  }

  // ---- the service ----

  /** What a caller may rely on, whichever way the answer came about: `db` is what the memory was read from. */
  ghost predicate Sound(db: Db, ws: Id, filter: Filter, found: Found) {
    && found.id in db.memories && found.row == db.memories[found.id]
    && found.row.ws == ws && !found.row.deleted
    && Passes(filter, found.row)
  }

  // The hits answer for points sent at some time before step k, and hit i is read again at step at[i] or later.
  ghost predicate AnsweredInRun(
      states: seq<State>, actions: seq<Action>, k: nat, at: seq<nat>, ws: Id, filter: Filter, hits: seq<Hit>,
      views: seq<Db>)
  {
    && Run(states, actions) && k < |states| && |at| == |hits| == |views|
    && (forall i | 0 <= i < |at| :: k <= at[i] < |states| && views[i] == states[at[i]].db)
    && Answered(states[k].sent, ws, filter, hits)
  }

  /**
  Without a query or without an answer from the index the live rows are listed, and the answer says
  that it is degraded exactly in the second case. Every memory of every answer is live, in the
  workspace and passes the filters, as the tables were when it was read.
  */
  method Search(
      ghost states: seq<State>, ghost actions: seq<Action>, ghost k: nat, ghost at: seq<nat>,
      ws: Id, request: Request, hits: Option<seq<Hit>>, views: seq<Db>,
      counted: Db, listed: Db, finds: (string, Row) -> bool, order: seq<Id>)
    returns (answer: Answer)
    requires Sorted(listed, ws, request, finds, order)
    requires request.query != "" && hits.Some? ==>
             AnsweredInRun(states, actions, k, at, ws, request.filter, hits.value, views)
    ensures answer.degraded <==> request.query != "" && hits.None?
    ensures request.query == "" || hits.None? ==>
      && Listing(counted, listed, ws, request, finds, order, answer)
      && (forall j | 0 <= j < |answer.memories| ::
            && Sound(listed, ws, request.filter, answer.memories[j])
            && (request.query != "" ==> finds(request.query, answer.memories[j].row)))
    ensures request.query != "" && hits.Some? ==>
      var kept := Kept(views, ws, hits.value);
      && answer.total == |answer.memories| == |kept|
      && forall j | 0 <= j < |kept| ::
           && kept[j] in kept
           && answer.memories[j] == FoundAt(views, hits.value, kept[j])
           && answer.memories[j].row.rev == hits.value[kept[j]].rev
           && Sound(views[kept[j]], ws, request.filter, answer.memories[j])
  {
    if request.query == "" || hits.None? {
      answer := List(counted, listed, ws, request, finds, order);
      ListingSound(counted, listed, ws, request, finds, order, answer);
      answer := answer.(degraded := request.query != "");
    } else {
      var found := Rehydrate(views, ws, hits.value);
      SearchSound(states, actions, k, at, ws, request.filter, hits.value, views);
      answer := Answer(found, |found|, false);
    }
  }

  lemma ListingSound(
      counted: Db, listed: Db, ws: Id, request: Request, finds: (string, Row) -> bool, order: seq<Id>, answer: Answer)
    requires Sorted(listed, ws, request, finds, order)
    requires Listing(counted, listed, ws, request, finds, order, answer)
    ensures forall j | 0 <= j < |answer.memories| ::
              && Sound(listed, ws, request.filter, answer.memories[j])
              && (request.query != "" ==> finds(request.query, answer.memories[j].row))
  {
    forall j | 0 <= j < |answer.memories|
      ensures Sound(listed, ws, request.filter, answer.memories[j])
      ensures request.query != "" ==> finds(request.query, answer.memories[j].row)
    {
      assert OnPage(listed, request, order, j, answer.memories[j]);
      assert order[request.offset + j] in order;
    }
  }
}
