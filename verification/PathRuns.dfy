/** Runs of the daemon on one path, given step by step. */
module PathRuns {
  import opened Preservation

  /** The steps lead from `s` to `z`. */
  ghost predicate Leads(s: State, steps: seq<Step>, z: State)
    decreases |steps|
  {
    if steps == [] then s == z
    else Enabled(s, steps[0]) && Leads(Do(s, steps[0]), steps[1..], z)
  }

  lemma First(s: State, st: Step, steps: seq<Step>, z: State)
    requires Enabled(s, st) && Leads(Do(s, st), steps, z)
    ensures Leads(s, [st] + steps, z)
  {
    assert ([st] + steps)[1..] == steps;
  }

  lemma {:induction false} Then(s: State, steps: seq<Step>, x: State, more: seq<Step>, z: State)
    requires Leads(s, steps, x) && Leads(x, more, z)
    ensures Leads(s, steps + more, z)
    decreases |steps|
  {
    if steps == [] {
      assert steps + more == more;
    } else {
      Then(Do(s, steps[0]), steps[1..], x, more, z);
      assert (steps + more)[1..] == steps[1..] + more;
    }
  }

  lemma One(s: State, st: Step)
    requires Enabled(s, st)
    ensures Leads(s, [st], Do(s, st))
  {
    First(s, st, [], Do(s, st));
    assert [st] + [] == [st];
  }
}
