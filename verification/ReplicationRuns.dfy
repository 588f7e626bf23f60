/** What every run of the replication network keeps, conflicting ones included: clocks never decrease, and
    nobody knows of more commits of a node than the node itself. */
module ReplicationRuns {
  import opened Common
  import opened Vclock
  import opened Replication

  /** A node's clock for the path never decreases. */
  lemma StepMonotone(s: Net, st: Step, n: Id)
    requires Enabled(s, st) && n in s.nodes
    ensures Leq(VvOf(s.nodes[n]), VvOf(Do(s, st).nodes[n]))
  {
    var v := VvOf(s.nodes[n]);
    LeqPointwise(v, v);
    if n == st.n {
      match st {
        case Advertise(_) =>
        case Commit(_, _) => IncAbove(v, n);
        case ApplyPull(_, r) => JoinIsLub(v, r.vv);
        case Deliver(_, m) =>
          JoinIsLub(v, m.record.vv);
          IncAbove(Join(v, m.record.vv), n);
          LeqTransitive(v, Join(v, m.record.vv), Inc(Join(v, m.record.vv), n));
      }
    }
  }

  lemma {:induction false} RunMonotone(s: Net, steps: seq<Step>, n: Id)
    requires IsRun(s, steps) && n in s.nodes
    ensures Leq(VvOf(s.nodes[n]), VvOf(Final(s, steps).nodes[n]))
    decreases |steps|
  {
    if steps == [] {
      LeqPointwise(VvOf(s.nodes[n]), VvOf(s.nodes[n]));
    } else {
      var s1 := Do(s, steps[0]);
      StepMonotone(s, steps[0], n);
      RunMonotone(s1, steps[1..], n);
      LeqTransitive(VvOf(s.nodes[n]), VvOf(s1.nodes[n]), VvOf(Final(s, steps).nodes[n]));
    }
  }

  /** A commit raises the committer's own entry exactly when the counter is not saturated. */
  lemma CommitRaises(s: Net, n: Id, body: Body)
    requires Enabled(s, Commit(n, body))
    ensures var before, after := VvOf(s.nodes[n]), VvOf(Do(s, Commit(n, body)).nodes[n]);
            && (Get(after, n) > Get(before, n) <==> Get(before, n) < U64_MAX)
            && (Causal(before, after) == Before <==> Get(before, n) < U64_MAX)
  {
    IncAbove(VvOf(s.nodes[n]), n);
  }

  /** After a commit its node holds the new content, and so does the message that announces it. */
  lemma CommitAnnounced(s: Net, n: Id, body: Body)
    requires Enabled(s, Commit(n, body))
    ensures var s' := Do(s, Commit(n, body));
            && Committed(n, s.nodes[n], s'.nodes[n], body)
            && Msg(n, s'.nodes[n].value) in s'.msgs && s'.msgs - s.msgs <= {Msg(n, s'.nodes[n].value)}
            && forall m | m in s.nodes && m != n :: s'.nodes[m] == s.nodes[m]
  {
    IncAbove(VvOf(s.nodes[n]), n);
  }

  /** A node whose record changes by its own doing, a commit or a re-assertion, tells the others. */
  lemma NewsIsAnnounced(s: Net, st: Step)
    requires Enabled(s, st) && !st.ApplyPull? && Do(s, st).nodes[st.n] != s.nodes[st.n]
    ensures Do(s, st).nodes[st.n].Some? && Msg(st.n, Do(s, st).nodes[st.n].value) in Do(s, st).msgs
  {
  }

  /** No record anywhere counts more commits of node n than n's own record does. */
  ghost predicate OwnEntryMax(s: Net) {
    forall r: Record, n | Exists(s, r) && n in s.nodes :: Get(r.vv, n) <= Get(VvOf(s.nodes[n]), n)
  }

  lemma {:induction false} OwnEntryMaxOfRun(s: Net, steps: seq<Step>)
    requires OwnEntryMax(s) && IsRun(s, steps)
    ensures OwnEntryMax(Final(s, steps))
    decreases |steps|
  {
    if steps != [] {
      StepKeepsOwnEntryMax(s, steps[0]);
      OwnEntryMaxOfRun(Do(s, steps[0]), steps[1..]);
    }
  }

  /** The record a step puts at the acting node. */
  ghost function Produced(s: Net, st: Step): Option<Record>
    requires Enabled(s, st)
  {
    Do(s, st).nodes[st.n]
  }

  /** Every record after a step existed before it or is the one the step produced. */
  lemma NewRecords(s: Net, st: Step, r: Record)
    requires Enabled(s, st) && Exists(Do(s, st), r)
    ensures Exists(s, r) || Produced(s, st) == Some(r)
  {
    var s' := Do(s, st);
    if m :| m in s'.msgs && m.record == r {
      if m !in s.msgs { assert st.Advertise? ==> s.nodes[st.n] == Some(r); }
    } else if p :| p in s'.pulls && p.1 == r {
      assert p in s.pulls;
    } else {
      var n :| n in s'.nodes && s'.nodes[n] == Some(r);
      if n != st.n { assert s.nodes[n] == Some(r); }
    }
  }

  lemma StepKeepsOwnEntryMax(s: Net, st: Step)
    requires OwnEntryMax(s) && Enabled(s, st)
    ensures OwnEntryMax(Do(s, st))
  {
    var s' := Do(s, st);
    forall r: Record, n | Exists(s', r) && n in s'.nodes
      ensures Get(r.vv, n) <= Get(VvOf(s'.nodes[n]), n)
    {
      StepMonotone(s, st, n);
      LeqPointwise(VvOf(s.nodes[n]), VvOf(s'.nodes[n]));
      NewRecords(s, st, r);
      if !Exists(s, r) && n != st.n { ProducedBounded(s, st, n); }
    }
  }

  /** The produced record carries no more of another node's commits than existed before. */
  lemma ProducedBounded(s: Net, st: Step, n: Id)
    requires OwnEntryMax(s) && Enabled(s, st) && n in s.nodes && n != st.n
    ensures Get(VvOf(Produced(s, st)), n) <= Get(VvOf(s.nodes[n]), n)
  {
    var mine := s.nodes[st.n];
    if mine.Some? { assert Exists(s, mine.value); }
    match st {
      case Advertise(_) =>
      case Commit(_, _) =>
      case ApplyPull(_, r) =>
        assert (st.n, r) in s.pulls && (st.n, r).1 == r;
        assert Exists(s, r);
        JoinGet(VvOf(mine), r.vv, n);
      case Deliver(_, m) =>
        assert Exists(s, m.record);
        JoinGet(VvOf(mine), m.record.vv, n);
    }
  }
}
