/** States that a run can reach. */
module BusRuns {
  import opened BusProtocol

  ghost predicate Reaches(s: State, z: State) { exists acts :: Legal(s, acts) && Exec(s, acts) == z }

  lemma ReachesItself(s: State)
    ensures Reaches(s, s)
  {
    assert Legal(s, []) && Exec(s, []) == s;
  }

  lemma {:induction false} RunThen(s: State, acts: seq<Action>, more: seq<Action>)
    requires Legal(s, acts) && Legal(Exec(s, acts), more)
    ensures Legal(s, acts + more) && Exec(s, acts + more) == Exec(Exec(s, acts), more)
    decreases |acts|
  {
    hide Apply, Enabled;
    if acts == [] {
      assert acts + more == more;
    } else {
      RunThen(Apply(s, acts[0]), acts[1..], more);
      assert (acts + more)[1..] == acts[1..] + more;
    }
  }

  /** One more step. */
  lemma AndThen(s: State, y: State, a: Action)
    requires Reaches(s, y) && Enabled(y, a)
    ensures Reaches(s, Apply(y, a))
  {
    hide Apply, Enabled;
    var acts :| Legal(s, acts) && Exec(s, acts) == y;
    assert Legal(Apply(y, a), []);
    assert Legal(y, [a]) && Exec(y, [a]) == Apply(y, a);
    RunThen(s, acts, [a]);
  }

  lemma Through(s: State, y: State, z: State)
    requires Reaches(s, y) && Reaches(y, z)
    ensures Reaches(s, z)
  {
    hide Apply, Enabled;
    var first :| Legal(s, first) && Exec(s, first) == y;
    var more :| Legal(y, more) && Exec(y, more) == z;
    RunThen(s, first, more);
  }
}
