/** Types shared by the models, and what it means to pick entries out of a list. */
module Common {

  datatype Option<+T> = None | Some(value: T)

  /** Node ids; the source compares them as strings, only their order matters. */
  type Id = nat

  /** `ys` holds what becomes of the entries of `xs` that are kept, each once and in order; `at` says where
      each of them came from. */
  ghost predicate Picks<A, B>(xs: seq<A>, keep: A -> bool, to: A -> B, ys: seq<B>, at: seq<nat>) {
    && |at| == |ys|
    && (forall i :: 0 <= i < |at| ==> at[i] < |xs| && keep(xs[at[i]]) && ys[i] == to(xs[at[i]]))
    && (forall i, j :: 0 <= i < j < |at| ==> at[i] < at[j])
    && (forall k :: 0 <= k < |xs| && keep(xs[k]) ==> k in at)
  }

  lemma PickNone<A, B>(keep: A -> bool, to: A -> B)
    ensures Picks([], keep, to, [], [])
  {
  }

  /** One more entry at the end. */
  lemma PickNext<A, B>(xs: seq<A>, x: A, keep: A -> bool, to: A -> B, ys: seq<B>, at: seq<nat>)
    requires Picks(xs, keep, to, ys, at)
    ensures if keep(x) then Picks(xs + [x], keep, to, ys + [to(x)], at + [|xs|]) else Picks(xs + [x], keep, to, ys, at)
  {
    var all := xs + [x];
    if keep(x) {
      var at' := at + [|xs|];
      assert at'[|at|] == |xs|;
      forall k | 0 <= k < |all| && keep(all[k]) ensures k in at' {
        if k < |xs| { assert k in at; }
      }
    }
  }

  /** A list is picked in one way only. */
  lemma {:induction false} PicksUnique<A, B>(xs: seq<A>, keep: A -> bool, to: A -> B, ys: seq<B>, at: seq<nat>,
                                             ys2: seq<B>, at2: seq<nat>)
    requires Picks(xs, keep, to, ys, at) && Picks(xs, keep, to, ys2, at2)
    ensures ys == ys2
  {
    if xs == [] {
      NonePicked(xs, keep, to, ys, at);
      NonePicked(xs, keep, to, ys2, at2);
    } else if keep(xs[|xs| - 1]) {
      var m, m2 := |at| - 1, |at2| - 1;
      LastPicked(xs, keep, to, ys, at);
      LastPicked(xs, keep, to, ys2, at2);
      PicksUnique(xs[..|xs| - 1], keep, to, ys[..m], at[..m], ys2[..m2], at2[..m2]);
    } else {
      LastNotPicked(xs, keep, to, ys, at);
      LastNotPicked(xs, keep, to, ys2, at2);
      PicksUnique(xs[..|xs| - 1], keep, to, ys, at, ys2, at2);
    }
  }

  lemma NonePicked<A, B>(xs: seq<A>, keep: A -> bool, to: A -> B, ys: seq<B>, at: seq<nat>)
    requires Picks(xs, keep, to, ys, at) && xs == []
    ensures ys == []
  {
    if at != [] { PickedFrom(xs, keep, to, ys, at, 0); }
  }

  lemma PickedFrom<A, B>(xs: seq<A>, keep: A -> bool, to: A -> B, ys: seq<B>, at: seq<nat>, i: nat)
    requires Picks(xs, keep, to, ys, at) && i < |at|
    ensures at[i] < |xs|
  {
  }

  lemma LastPicked<A, B>(xs: seq<A>, keep: A -> bool, to: A -> B, ys: seq<B>, at: seq<nat>)
    requires Picks(xs, keep, to, ys, at) && xs != [] && keep(xs[|xs| - 1])
    ensures at != [] && |ys| == |at| && ys == ys[..|at| - 1] + [to(xs[|xs| - 1])]
    ensures Picks(xs[..|xs| - 1], keep, to, ys[..|at| - 1], at[..|at| - 1])
  {
    var n := |xs| - 1;
    assert n in at;
    var i :| 0 <= i < |at| && at[i] == n;
    assert at[|at| - 1] <= n;
    forall k | 0 <= k < n && keep(xs[k]) ensures k in at[..|at| - 1] {
      var j :| 0 <= j < |at| && at[j] == k;
      assert at[..|at| - 1][j] == k;
    }
  }

  lemma LastNotPicked<A, B>(xs: seq<A>, keep: A -> bool, to: A -> B, ys: seq<B>, at: seq<nat>)
    requires Picks(xs, keep, to, ys, at) && xs != [] && !keep(xs[|xs| - 1])
    ensures Picks(xs[..|xs| - 1], keep, to, ys, at)
  {
    forall i | 0 <= i < |at| ensures at[i] < |xs| - 1 {
      assert keep(xs[at[i]]);
    }
  }
}
