/** What can be reached from a state, and by which actions. */
module Paths {
  import opened Memories
  import opened Protocol
  import opened Safety

  datatype Means = Undamaged | FullReindexes

  predicate Permits(means: Means, action: Action) {
    match means
    case Undamaged => !action.Damage?
    case FullReindexes =>
      || (action.Begin? && action.tx.Reindexing? && action.tx.r.scope.None?)
      || action.Exec? || action.Rollback?
  }

  ghost predicate Leads(states: seq<State>, actions: seq<Action>, s: State, s': State, means: Means) {
    && Path(states, actions)
    && states[0] == s && states[|actions|] == s'
    && forall i | 0 <= i < |actions| :: Permits(means, actions[i])
  }

  ghost predicate Reaches(s: State, s': State, means: Means) {
    exists states, actions :: Leads(states, actions, s, s', means)
  }

  lemma Stays(s: State, means: Means)
    ensures Reaches(s, s, means)
  {
    assert Leads([s], [], s, s, means);
  }

  lemma Further(s: State, now: State, action: Action, next: State, means: Means)
    requires Reaches(s, now, means)
    requires Enabled(now, action) && Step(now, action) == next && Permits(means, action)
    ensures Reaches(s, next, means)
  {
    var states, actions :| Leads(states, actions, s, now, means);
    var longer, more := states + [next], actions + [action];
    forall i: nat | i < |more| ensures StepsAt(longer, more, i) {
      if i < |actions| { assert StepsAt(states, actions, i); }
    }
    assert Leads(longer, more, s, next, means);
  }

  lemma {:induction false} Chained(s: State, m: State, states: seq<State>, actions: seq<Action>, k: nat, means: Means)
    requires Reaches(s, m, means) && k < |states| == |actions| + 1 &&
             Leads(states, actions, m, states[|actions|], means)
    ensures Reaches(s, states[k], means)
  {
    if k > 0 {
      Chained(s, m, states, actions, k - 1, means);
      assert StepsAt(states, actions, k - 1);
      Further(s, states[k - 1], actions[k - 1], states[k], means);
    }
  }

  lemma Chain(a: State, b: State, c: State, means: Means)
    requires Reaches(a, b, means) && Reaches(b, c, means)
    ensures Reaches(a, c, means)
  {
    var states, actions :| Leads(states, actions, b, c, means);
    Chained(a, b, states, actions, |actions|, means);
  }

  lemma ReachedKeeps(s: State, s': State, means: Means)
    requires Inv(s) && Reaches(s, s', means)
    ensures Inv(s')
  {
    var states, actions :| Leads(states, actions, s, s', means);
    PathKeeps(states, actions, |actions|);
  }
}
