/** What the knowledge map shows as indexed is what the store holds. */
module Freshness {
  import opened Wrappers
  import opened Memories
  import opened Qdrant
  import opened Protocol
  import opened Safety
  import opened Guarantees
  import Search
  import Map = KnowledgeMap

  /**
  A node shown as indexed is not waiting to be indexed, and the point whose vector it is drawn with is
  the present projection of its memory, whether the index was read before or after the memory.
  */
  lemma ShownIsCurrent(
      states: seq<State>, actions: seq<Action>, k: nat, m: nat, p: Point, points: map<Id, Map.VectorPoint>)
    requires Run(states, actions) && k < |states| && m < |states|
    requires p in states[k].sent && p.id in states[m].db.memories
    requires p.id in points && points[p.id].ws == p.ws && points[p.id].rev == p.rev
    requires Map.Shown(p.id, states[m].db.memories[p.id], points)
    ensures var row := states[m].db.memories[p.id];
            && !row.deleted && p.id !in states[m].db.outbox
            && p == PointOf(p.id, row)
            && points[p.id].keywords.Some?
  {
    Search.FreshPointIsCurrent(states, actions, k, m, p);
    StatusCoherent(states, actions, m, p.id);
  }
}
