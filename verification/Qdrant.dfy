/** The search index as a set of points, one per memory id. Ranking and the wire protocol are left out. */
module Qdrant {
  import opened Memories

  // The payload of a point together with the document its keyword vector is computed from.
  datatype Point = Point(id: Id, ws: Id, rev: nat, kind: Kind, tags: seq<string>, document: string)

  type Index = map<Id, Point>

  function Join(parts: seq<string>, separator: string): string {
    if parts == [] then "" else if |parts| == 1 then parts[0] else parts[0] + separator + Join(parts[1..], separator)
  }

  function PointOf(id: Id, row: Row): Point {
    Point(id, row.ws, row.rev, row.kind, row.body.tags,
          row.body.title + "\n" + row.body.content + "\n" + Join(row.body.tags, " "))
  }

  predicate Contains(text: string, part: string) {
    exists i, j | 0 <= i <= j <= |text| :: text[i..j] == part
  }

  lemma {:induction false} JoinHolds(parts: seq<string>, separator: string, k: nat) returns (i: nat)
    requires k < |parts|
    ensures i + |parts[k]| <= |Join(parts, separator)| && Join(parts, separator)[i..i + |parts[k]|] == parts[k]
  {
    if k == 0 { return 0; }
    var rest := Join(parts[1..], separator);
    var j := JoinHolds(parts[1..], separator, k - 1);
    i := |parts[0]| + |separator| + j;
    assert Join(parts, separator) == parts[0] + separator + rest;
    assert Join(parts, separator)[i..i + |parts[k]|] == rest[j..j + |parts[k]|];
  }

  /** The payload is the memory's own, and its title, content and every tag can be searched. */
  lemma PointHolds(id: Id, row: Row)
    ensures var p := PointOf(id, row);
            && p.id == id && p.ws == row.ws && p.rev == row.rev && p.kind == row.kind && p.tags == row.body.tags
            && row.body.title + "\n" + row.body.content + "\n" <= p.document
            && forall k | 0 <= k < |row.body.tags| :: Contains(p.document, row.body.tags[k])
  {
    var p, tags := PointOf(id, row), Join(row.body.tags, " ");
    var text := row.body.title + "\n" + row.body.content + "\n";
    assert p.document == text + tags;
    forall k | 0 <= k < |row.body.tags| ensures Contains(p.document, row.body.tags[k]) {
      var tag := row.body.tags[k];
      var i := JoinHolds(row.body.tags, " ", k);
      var at := |text| + i;
      assert p.document[at..at + |tag|] == tags[i..i + |tag|];
    }
  }

  // A deleted memory loses its point, any other one has it overwritten.
  function Apply(index: Index, id: Id, row: Row): Index {
    if row.deleted then index - {id} else index[id := PointOf(id, row)]
  }

  /** The simple truth: one point for every live memory. */
  function Projection(memories: map<Id, Row>): Index {
    map id | id in memories && !memories[id].deleted :: PointOf(id, memories[id])
  }

  predicate Agrees(index: Index, id: Id, row: Row) {
    if row.deleted then id !in index else id in index && index[id] == PointOf(id, row)
  }
}
