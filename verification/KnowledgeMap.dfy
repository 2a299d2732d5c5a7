/** The edges of the knowledge map: each node's three nearest neighbours, joined. */
module KnowledgeMap {
  import opened Wrappers
  import opened Sets
  import opened Memories
  import opened Similarity

  type Vectors = map<Id, Weights>

  datatype Edge = Edge(source: Id, target: Id, similarity: real)

  const THRESHOLD: real := 0.15
  const NEIGHBOURS: nat := 3

  // A node whose vector is missing or out of date has no weights.
  function VectorOf(vs: Vectors, a: Id): Weights {
    if a in vs then vs[a] else map[]
  }

  ghost function Score(vs: Vectors, a: Id, b: Id): real {
    Clamp(Dot(VectorOf(vs, a), VectorOf(vs, b)))
  }

  lemma ScoreSymmetric(vs: Vectors, a: Id, b: Id)
    ensures Score(vs, a, b) == Score(vs, b, a)
  {
    DotSymmetric(VectorOf(vs, a), VectorOf(vs, b));
  }

  // ---- the vectors of the nodes ----

  // What the index returns for one id; the keyword vector may be missing.
  datatype VectorPoint = VectorPoint(ws: Id, rev: nat, keywords: Option<SparseVector>)

  datatype Status = Pending | Unavailable | Indexed

  // The point describes the memory as it is, and the memory counts as indexed.
  predicate UpToDate(id: Id, row: Row, points: map<Id, VectorPoint>) {
    id in points && points[id].ws == row.ws && points[id].rev == row.rev && row.indexed == row.rev
  }

  // Vectors with nothing positive in them are refused, except the empty one.
  ghost predicate Drawable(id: Id, points: map<Id, VectorPoint>)
    requires id in points
  {
    && points[id].keywords.Some?
    && var v := points[id].keywords.value;
       Usable(v) || (v.values == [] && v.indices == [])
  }

  ghost predicate Shown(id: Id, row: Row, points: map<Id, VectorPoint>) {
    UpToDate(id, row, points) && Drawable(id, points)
  }

  ghost predicate DistinctIds(memories: seq<(Id, Row)>) {
    forall j, k | 0 <= j < k < |memories| :: memories[j].0 != memories[k].0
  }

  // The vector with which a node takes part.
  ghost predicate Represents(points: map<Id, VectorPoint>, id: Id, w: Weights) {
    && id in points && points[id].keywords.Some?
    && var v := points[id].keywords.value;
       |v.indices| == |v.values| && NormalForm(v, w)
  }

  function StatusOf(shown: bool, degraded: bool): Status {
    if shown then Indexed else if degraded then Unavailable else Pending
  }

  method NodeVector(id: Id, row: Row, points: map<Id, VectorPoint>, sqrt: real -> real)
    returns (vector: Option<Weights>)
    requires SquareRoot(sqrt)
    ensures vector.Some? <==> Shown(id, row, points)
    ensures vector.Some? ==> Represents(points, id, vector.value)
  {
    if !UpToDate(id, row, points) || points[id].keywords.None? { return None; }
    var keywords := points[id].keywords.value;
    var normalized := Normalized(keywords, sqrt);
    if normalized.None? && keywords.values == [] && keywords.indices == [] { return Some(map[]); }
    return normalized;
  }

  /** Exactly the nodes that are up to date and drawable are shown as indexed and take part with their unit vector. */
  method NodeVectors(memories: seq<(Id, Row)>, points: map<Id, VectorPoint>, degraded: bool, sqrt: real -> real)
    returns (statuses: seq<Status>, vs: Vectors)
    requires SquareRoot(sqrt) && DistinctIds(memories)
    ensures |statuses| == |memories|
    ensures forall i | 0 <= i < |memories| ::
              && (statuses[i] == Indexed <==> Shown(memories[i].0, memories[i].1, points))
              && (statuses[i] == Indexed ==>
                    var (id, row) := memories[i];
                    id in points && points[id].ws == row.ws && points[id].rev == row.rev == row.indexed)
              && (statuses[i] == Unavailable <==> degraded && !Shown(memories[i].0, memories[i].1, points))
              && (statuses[i] == Pending <==> !degraded && !Shown(memories[i].0, memories[i].1, points))
    ensures forall id: Id :: id in vs <==>
            exists i :: 0 <= i < |memories| && memories[i].0 == id && statuses[i] == Indexed
    ensures forall id | id in vs :: Represents(points, id, vs[id])
  {
    statuses, vs := [], map[];
    for i := 0 to |memories|
      invariant |statuses| == i
      invariant forall k | 0 <= k < i :: statuses[k] == StatusOf(Shown(memories[k].0, memories[k].1, points), degraded)
      invariant forall id: Id :: id in vs <==> exists k :: 0 <= k < i && memories[k].0 == id && statuses[k] == Indexed
      invariant forall id | id in vs :: Represents(points, id, vs[id])
    {
      var (id, row) := memories[i];
      ghost var before := statuses;
      var vector := NodeVector(id, row, points, sqrt);
      if vector.Some? { vs := vs[id := vector.value]; }
      statuses := statuses + [StatusOf(vector.Some?, degraded)];
      assert forall k | 0 <= k < i :: statuses[k] == before[k];
    }
  }

  // ---- what the map shows ----

  ghost function Near(vs: Vectors, nodes: set<Id>, a: Id): set<Id> {
    set b | b in nodes && b != a && Score(vs, a, b) >= THRESHOLD
  }

  // The near nodes that a prefers to b: closer ones, and at equal distance those of smaller id.
  ghost function Preferred(vs: Vectors, nodes: set<Id>, a: Id, b: Id): set<Id> {
    set c | c in Near(vs, nodes, a) &&
            (Score(vs, a, c) > Score(vs, a, b) || (Score(vs, a, c) == Score(vs, a, b) && c < b))
  }

  /** b is among the three nearest neighbours of a. */
  ghost predicate Chosen(vs: Vectors, nodes: set<Id>, a: Id, b: Id) {
    b in Near(vs, nodes, a) && |Preferred(vs, nodes, a, b)| < NEIGHBOURS
  }

  /**
  Nobody is chosen over a closer node, or at equal similarity over one of smaller id, and nobody below
  a similarity of 0.15 is chosen at all.
  */
  lemma ChosenIsClosest(vs: Vectors, nodes: set<Id>, a: Id, b: Id, c: Id)
    requires {b, c} <= nodes - {a} && Chosen(vs, nodes, a, c)
    requires Score(vs, a, b) > Score(vs, a, c) || (Score(vs, a, b) == Score(vs, a, c) && b < c)
    ensures Chosen(vs, nodes, a, b) && Score(vs, a, c) >= 0.15
  {
    assert Preferred(vs, nodes, a, b) <= Preferred(vs, nodes, a, c);
    SubsetSize(Preferred(vs, nodes, a, b), Preferred(vs, nodes, a, c));
  }

  ghost predicate Joined(vs: Vectors, nodes: set<Id>, x: Id, y: Id) {
    && x < y && x in nodes && y in nodes
    && (Chosen(vs, nodes, x, y) || Chosen(vs, nodes, y, x))
  }

  // ---- sorting the neighbours of one node ----

  predicate Before(e: Edge, f: Edge) {
    e.similarity > f.similarity || (e.similarity == f.similarity && e.target < f.target)
  }

  ghost predicate Ordered(s: seq<Edge>) {
    forall j, k | 0 <= j < k < |s| :: Before(s[j], s[k])
  }

  function Insert(e: Edge, s: seq<Edge>): seq<Edge> {
    if s == [] || Before(e, s[0]) then [e] + s else [s[0]] + Insert(e, s[1..])
  }

  // The library's sort, by any method.
  function Sort(s: seq<Edge>): seq<Edge> {
    if s == [] then [] else Insert(s[0], Sort(s[1..]))
  }

  lemma {:induction false} InsertOrders(e: Edge, s: seq<Edge>)
    requires Ordered(s) && forall f | f in s :: Before(e, f) || Before(f, e)
    ensures Ordered(Insert(e, s))
    ensures forall f :: f in Insert(e, s) <==> f == e || f in s
  {
    if s != [] && !Before(e, s[0]) {
      InsertOrders(e, s[1..]);
      var t := Insert(e, s[1..]);
      forall k | 0 <= k < |t| ensures Before(s[0], t[k]) {
        assert t[k] in t;
      }
    }
  }

  // The edges from a to every near node of a set.
  ghost predicate FromNear(vs: Vectors, nodes: set<Id>, a: Id, s: seq<Edge>) {
    forall e: Edge ::
      e in s <==> e.source == a && e.target in Near(vs, nodes, a) && e.similarity == Score(vs, a, e.target)
  }

  ghost predicate Fan(s: seq<Edge>) {
    forall j, k | 0 <= j < k < |s| :: s[j].source == s[k].source && s[j].target != s[k].target
  }

  lemma {:induction false} SortOrders(s: seq<Edge>)
    requires Fan(s)
    ensures Ordered(Sort(s))
    ensures forall f :: f in Sort(s) <==> f in s
  {
    if s != [] {
      SortOrders(s[1..]);
      forall f | f in Sort(s[1..]) ensures Before(s[0], f) || Before(f, s[0]) {
        var k :| 1 <= k < |s| && s[k] == f;
      }
      InsertOrders(s[0], Sort(s[1..]));
    }
  }

  lemma BeforeOneWay(s: seq<Edge>, j: nat, k: nat)
    requires Ordered(s) && j < |s| && k < |s| && Before(s[k], s[j])
    ensures k < j
  {
  }

  ghost function Targets(s: seq<Edge>, n: nat): set<Id>
    requires n <= |s|
  {
    set k | 0 <= k < n :: s[k].target
  }

  lemma {:induction false} TargetsCount(s: seq<Edge>, n: nat)
    requires n <= |s| && forall j, k | 0 <= j < k < |s| :: s[j].target != s[k].target
    ensures |Targets(s, n)| == n
  {
    if n > 0 {
      TargetsCount(s, n - 1);
      assert Targets(s, n) == Targets(s, n - 1) + {s[n - 1].target};
    }
  }

  // In order, the place of an edge is the number of neighbours preferred to its target.
  lemma PlaceCountsPreferred(vs: Vectors, nodes: set<Id>, a: Id, s: seq<Edge>, k: nat)
    requires FromNear(vs, nodes, a, s) && Ordered(s) && k < |s|
    ensures |Preferred(vs, nodes, a, s[k].target)| == k
  {
    var b := s[k].target;
    forall j | 0 <= j < |s|
      ensures s[j].target in Near(vs, nodes, a) && s[j].similarity == Score(vs, a, s[j].target)
    {
      assert s[j] in s;
    }
    forall c | c in Preferred(vs, nodes, a, b) ensures c in Targets(s, k) {
      var e := Edge(a, c, Score(vs, a, c));
      assert e in s;
      var j :| 0 <= j < |s| && s[j] == e;
      assert j < k by { BeforeOneWay(s, k, j); }
    }
    forall c | c in Targets(s, k) ensures c in Preferred(vs, nodes, a, b) {
      var j :| 0 <= j < k && s[j].target == c;
      assert Before(s[j], s[k]);
    }
    assert Preferred(vs, nodes, a, b) == Targets(s, k);
    forall i, j | 0 <= i < j < |s| ensures s[i].target != s[j].target {
      assert Before(s[i], s[j]);
    }
    TargetsCount(s, k);
  }

  lemma FirstThreeAreChosen(vs: Vectors, nodes: set<Id>, a: Id, s: seq<Edge>, best: seq<Edge>)
    requires FromNear(vs, nodes, a, s) && Ordered(s)
    requires best == if |s| > NEIGHBOURS then s[..NEIGHBOURS] else s
    ensures forall e: Edge :: e in best <==>
              e.source == a && Chosen(vs, nodes, a, e.target) && e.similarity == Score(vs, a, e.target)
  {
    forall e: Edge
      ensures e in best <==> e.source == a && Chosen(vs, nodes, a, e.target) && e.similarity == Score(vs, a, e.target)
    {
      if e in s {
        var k :| 0 <= k < |s| && s[k] == e;
        PlaceCountsPreferred(vs, nodes, a, s, k);
        if k < NEIGHBOURS { assert best[k] == e; }
      }
      if e in best {
        var k :| 0 <= k < |best| && best[k] == e;
        assert s[k] == e;
        PlaceCountsPreferred(vs, nodes, a, s, k);
      }
    }
  }

  ghost function Elements(ids: seq<Id>): set<Id> {
    set id | id in ids
  }

  ghost predicate Distinct(ids: seq<Id>) {
    forall j, k | 0 <= j < k < |ids| :: ids[j] != ids[k]
  }

  /** The three nearest neighbours of one node, as edges leaving it. */
  method NearestThree(nodes: seq<Id>, vs: Vectors, a: Id) returns (best: seq<Edge>)
    requires Distinct(nodes)
    ensures |best| <= 3
    ensures |best| < 3 ==> forall b | b in nodes && b != a && Score(vs, a, b) >= 0.15 ::
              Chosen(vs, Elements(nodes), a, b)
    ensures forall e: Edge :: e in best <==>
              e.source == a && Chosen(vs, Elements(nodes), a, e.target) && e.similarity == Score(vs, a, e.target)
  {
    var found: seq<Edge> := [];
    for i := 0 to |nodes|
      invariant FromNear(vs, Elements(nodes[..i]), a, found) && Fan(found)
    {
      var other := nodes[i];
      ghost var seen := Elements(nodes[..i]);
      assert Elements(nodes[..i + 1]) == seen + {other} && other !in seen;
      if other != a {
        var score := Cosine(VectorOf(vs, a), VectorOf(vs, other));
        if score >= THRESHOLD {
          FanGrows(vs, seen, a, found, other);
          found := found + [Edge(a, other, score)];
        }
      }
    }
    assert nodes[..|nodes|] == nodes;
    SortOrders(found);
    var ranked := Sort(found);
    best := if |ranked| > NEIGHBOURS then ranked[..NEIGHBOURS] else ranked;
    FirstThreeAreChosen(vs, Elements(nodes), a, ranked, best);
    forall b | |best| < 3 && b in nodes && b != a && Score(vs, a, b) >= 0.15 ensures Chosen(vs, Elements(nodes), a, b) {
      assert Edge(a, b, Score(vs, a, b)) in found;
      assert Edge(a, b, Score(vs, a, b)) in best;
    }
  }

  lemma FanGrows(vs: Vectors, seen: set<Id>, a: Id, found: seq<Edge>, other: Id)
    requires FromNear(vs, seen, a, found) && Fan(found)
    requires other !in seen && other != a && Score(vs, a, other) >= THRESHOLD
    ensures Fan(found + [Edge(a, other, Score(vs, a, other))])
    ensures FromNear(vs, seen + {other}, a, found + [Edge(a, other, Score(vs, a, other))])
  {
    forall k | 0 <= k < |found| ensures found[k].source == a && found[k].target != other {
      assert found[k] in found;
    }
  }

  // ---- the union of the selections ----

  function Oriented(e: Edge): Edge {
    if e.source > e.target then Edge(e.target, e.source, e.similarity) else e
  }

  // The edges drawn so far, one for each pair seen.
  ghost predicate Drawn(vs: Vectors, edges: seq<Edge>, seen: set<(Id, Id)>) {
    && (forall e: Edge :: e in edges <==> (e.source, e.target) in seen && e.similarity == Score(vs, e.source, e.target))
    && (forall j, k | 0 <= j < k < |edges| :: edges[j] != edges[k])
  }

  lemma DrawOne(vs: Vectors, edges: seq<Edge>, seen: set<(Id, Id)>, e: Edge)
    requires Drawn(vs, edges, seen) && (e.source, e.target) !in seen && e.similarity == Score(vs, e.source, e.target)
    ensures Drawn(vs, edges + [e], seen + {(e.source, e.target)})
  {
    var now := edges + [e];
    assert e !in edges;
    forall f: Edge
      ensures f in now <==>
              (f.source, f.target) in seen + {(e.source, e.target)} && f.similarity == Score(vs, f.source, f.target)
    {
      assert f in now <==> f in edges || f == e;
    }
    forall j, k | 0 <= j < k < |now| ensures now[j] != now[k] {
      if k == |edges| { assert edges[j] in edges; }
    }
  }

  ghost function PairsOf(best: seq<Edge>): set<(Id, Id)> {
    set e | e in best :: (Oriented(e).source, Oriented(e).target)
  }

  // Adds the edges not yet seen.
  method Draw(ghost vs: Vectors, best: seq<Edge>, edges0: seq<Edge>, seen0: set<(Id, Id)>)
    returns (edges: seq<Edge>, seen: set<(Id, Id)>)
    requires Drawn(vs, edges0, seen0)
    requires forall e | e in best :: e.similarity == Score(vs, e.source, e.target)
    ensures Drawn(vs, edges, seen) && seen == seen0 + PairsOf(best)
    ensures edges0 <= edges && |edges| <= |edges0| + |best|
  {
    edges, seen := edges0, seen0;
    for k := 0 to |best|
      invariant Drawn(vs, edges, seen) && seen == seen0 + PairsOf(best[..k])
      invariant edges0 <= edges && |edges| <= |edges0| + k
    {
      assert best[k] in best;
      ScoreSymmetric(vs, best[k].source, best[k].target);
      var edge := Oriented(best[k]);
      var key := (edge.source, edge.target);
      assert best[..k + 1] == best[..k] + [best[k]];
      assert PairsOf(best[..k + 1]) == PairsOf(best[..k]) + {key};
      if key !in seen {
        DrawOne(vs, edges, seen, edge);
        seen := seen + {key};
        edges := edges + [edge];
      }
    }
    assert best[..|best|] == best;
  }

  // The pairs chosen by one of the first i nodes.
  ghost predicate JoinedSoFar(vs: Vectors, nodes: seq<Id>, i: nat, x: Id, y: Id)
    requires i <= |nodes|
  {
    var all := Elements(nodes);
    && x < y
    && ((x in nodes[..i] && Chosen(vs, all, x, y)) || (y in nodes[..i] && Chosen(vs, all, y, x)))
  }

  lemma ChosenBySoFar(vs: Vectors, nodes: seq<Id>, i: nat, best: seq<Edge>, x: Id, y: Id)
    requires i < |nodes|
    requires forall e: Edge :: e in best <==>
               e.source == nodes[i] && Chosen(vs, Elements(nodes), nodes[i], e.target) &&
                 e.similarity == Score(vs, nodes[i], e.target)
    ensures JoinedSoFar(vs, nodes, i + 1, x, y) <==> JoinedSoFar(vs, nodes, i, x, y) || (x, y) in PairsOf(best)
  {
    var a := nodes[i];
    assert nodes[..i + 1] == nodes[..i] + [a];
    if (x, y) in PairsOf(best) {
      var e :| e in best && (Oriented(e).source, Oriented(e).target) == (x, y);
    }
    if x < y && x == a && Chosen(vs, Elements(nodes), x, y) {
      var e := Edge(x, y, Score(vs, x, y));
      assert e in best && Oriented(e) == e;
    }
    if x < y && y == a && Chosen(vs, Elements(nodes), y, x) {
      var e := Edge(y, x, Score(vs, y, x));
      assert e in best && Oriented(e) == Edge(x, y, e.similarity);
    }
  }

  /**
   * The map draws each pair at most once, smaller id first, with its true similarity, and draws exactly
   * the pairs of which one is among the three nearest neighbours of the other.
   */
  method Edges(nodes: seq<Id>, vs: Vectors) returns (edges: seq<Edge>)
    requires Distinct(nodes)
    ensures forall j, k | 0 <= j < k < |edges| ::
            (edges[j].source, edges[j].target) != (edges[k].source, edges[k].target)
    ensures forall e: Edge :: e in edges <==>
              Joined(vs, Elements(nodes), e.source, e.target) && e.similarity == Score(vs, e.source, e.target)
    ensures |edges| <= NEIGHBOURS * |nodes|
  {
    edges := [];
    var seen: set<(Id, Id)> := {};
    for i := 0 to |nodes|
      invariant Drawn(vs, edges, seen) && |edges| <= NEIGHBOURS * i
      invariant forall x: Id, y: Id :: (x, y) in seen <==> JoinedSoFar(vs, nodes, i, x, y)
    {
      var best := NearestThree(nodes, vs, nodes[i]);
      forall x: Id, y: Id
        ensures (x, y) in seen + PairsOf(best) <==> JoinedSoFar(vs, nodes, i + 1, x, y)
      {
        ChosenBySoFar(vs, nodes, i, best, x, y);
      }
      edges, seen := Draw(vs, best, edges, seen);
    }
    DrawnIsJoined(vs, nodes, edges, seen);
  }

  lemma DrawnIsJoined(vs: Vectors, nodes: seq<Id>, edges: seq<Edge>, seen: set<(Id, Id)>)
    requires Drawn(vs, edges, seen)
    requires forall x: Id, y: Id :: (x, y) in seen <==> JoinedSoFar(vs, nodes, |nodes|, x, y)
    ensures forall e: Edge :: e in edges <==>
              Joined(vs, Elements(nodes), e.source, e.target) && e.similarity == Score(vs, e.source, e.target)
    ensures forall j, k | 0 <= j < k < |edges| ::
            (edges[j].source, edges[j].target) != (edges[k].source, edges[k].target)
  {
    assert nodes[..|nodes|] == nodes;
    forall j, k | 0 <= j < k < |edges|
      ensures (edges[j].source, edges[j].target) != (edges[k].source, edges[k].target)
    {
      assert edges[j] in edges && edges[k] in edges;
    }
  }
}
