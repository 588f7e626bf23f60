/** Replication under strict checkout: every commit is made by the holder of the path's one
    lease, which was fresh against every node's record when it took the lease. */
module LeasedReplication {
  import opened Common
  import opened Vclock
  import R = Replication
  import ReplicationRuns

  /** The lease is a token that may vanish at any time. */
  datatype State = State(net: R.Net, holder: Option<Id>)

  datatype Step =
    | Spread(step: R.Step)
    | Acquire(n: Id)
    | Vanish
    | Commit(n: Id, body: R.Body)

  /** n's clock is at or above the clock of every node. */
  ghost predicate Fresh(s: R.Net, n: Id) {
    n in s.nodes && forall m | m in s.nodes :: Leq(R.VvOf(s.nodes[m]), R.VvOf(s.nodes[n]))
  }

  ghost predicate Enabled(s: State, st: Step) {
    match st
    case Spread(step) => !step.Commit? && R.Enabled(s.net, step)
    case Acquire(n) => s.holder.None? && Fresh(s.net, n)
    case Vanish => true
    case Commit(n, body) =>
      s.holder == Some(n) && n in s.net.nodes && Get(R.VvOf(s.net.nodes[n]), n) < U64_MAX
  }

  ghost function Do(s: State, st: Step): State
    requires Enabled(s, st)
  {
    match st
    case Spread(step) => s.(net := R.Do(s.net, step))
    case Acquire(n) => s.(holder := Some(n))
    case Vanish => s.(holder := None)
    case Commit(n, body) => s.(net := R.Do(s.net, R.Commit(n, body)))
  }

  ghost predicate IsRun(s: State, steps: seq<Step>)
    decreases |steps|
  {
    steps != [] ==> Enabled(s, steps[0]) && IsRun(Do(s, steps[0]), steps[1..])
  }

  ghost function Final(s: State, steps: seq<Step>): State
    requires IsRun(s, steps)
    decreases |steps|
  {
    if steps == [] then s else Final(Do(s, steps[0]), steps[1..])
  }

  // ---------- the invariant ----------

  /** Causally comparable, and with the same content when the clocks are equal. */
  predicate Ordered(a: R.Record, b: R.Record) {
    (Leq(a.vv, b.vv) || Leq(b.vv, a.vv)) && (Same(a.vv, b.vv) ==> a.body == b.body)
  }

  ghost predicate Chain(s: R.Net) {
    forall a, b: R.Record | R.Exists(s, a) && R.Exists(s, b) :: Ordered(a, b)
  }

  /** Whatever is in flight, some node already holds as much. */
  ghost predicate Anchored(s: R.Net) {
    forall r: R.Record | R.Exists(s, r) :: exists n | n in s.nodes :: Leq(r.vv, R.VvOf(s.nodes[n]))
  }

  ghost predicate Top(s: R.Net, h: Id) {
    h in s.nodes && forall r: R.Record | R.Exists(s, r) :: Leq(r.vv, R.VvOf(s.nodes[h]))
  }

  ghost predicate Inv(s: State) {
    Chain(s.net) && Anchored(s.net) && (s.holder.Some? ==> Top(s.net, s.holder.value))
  }

  /** A record with the clock and content of r stands wherever r stands. */
  lemma OrderedLike(r: R.Record, r': R.Record, x: R.Record)
    requires Same(r.vv, r'.vv) && r.body == r'.body && Ordered(r, x)
    ensures Ordered(r', x) && Ordered(x, r')
  {
    LeqPointwise(r.vv, r'.vv);
    LeqPointwise(r'.vv, r.vv);
    LeqPointwise(r.vv, x.vv);
    LeqPointwise(x.vv, r.vv);
    LeqPointwise(r'.vv, x.vv);
    LeqPointwise(x.vv, r'.vv);
  }

  lemma SelfOrdered(r: R.Record)
    ensures Ordered(r, r)
  {
    LeqPointwise(r.vv, r.vv);
  }

  /** Extending a chain by a record like one of its own, or above all of them. */
  lemma ChainExtends(s: R.Net, s': R.Net, x: R.Record)
    requires Chain(s)
    requires forall r: R.Record | R.Exists(s', r) :: R.Exists(s, r) || r == x
    requires forall r: R.Record | R.Exists(s, r) :: Ordered(x, r) && Ordered(r, x)
    ensures Chain(s')
  {
    SelfOrdered(x);
  }

  // ---------- the steps ----------

  lemma AnchoredStep(s: R.Net, st: R.Step)
    requires Anchored(s) && R.Enabled(s, st)
    ensures Anchored(R.Do(s, st))
  {
    var s' := R.Do(s, st);
    forall r: R.Record | R.Exists(s', r) ensures exists n | n in s'.nodes :: Leq(r.vv, R.VvOf(s'.nodes[n])) {
      ReplicationRuns.NewRecords(s, st, r);
      if R.Exists(s, r) {
        var n :| n in s.nodes && Leq(r.vv, R.VvOf(s.nodes[n]));
        ReplicationRuns.StepMonotone(s, st, n);
        LeqTransitive(r.vv, R.VvOf(s.nodes[n]), R.VvOf(s'.nodes[n]));
      } else {
        LeqPointwise(r.vv, r.vv);
        assert Leq(r.vv, R.VvOf(s'.nodes[st.n]));
      }
    }
  }

  lemma TopStep(s: R.Net, st: R.Step, h: Id, x: R.Record)
    requires Top(s, h) && R.Enabled(s, st)
    requires forall r: R.Record | R.Exists(R.Do(s, st), r) ::
               R.Exists(s, r) || (r == x && Leq(x.vv, R.VvOf(R.Do(s, st).nodes[h])))
    ensures Top(R.Do(s, st), h)
  {
    var s' := R.Do(s, st);
    ReplicationRuns.StepMonotone(s, st, h);
    forall r: R.Record | R.Exists(s', r) ensures Leq(r.vv, R.VvOf(s'.nodes[h])) {
      if R.Exists(s, r) { LeqTransitive(r.vv, R.VvOf(s.nodes[h]), R.VvOf(s'.nodes[h])); }
    }
  }

  /** No delivery meets a concurrent record. */
  lemma NeverConcurrent(s: R.Net, n: Id, m: R.Msg)
    requires Chain(s) && n in s.nodes && m in s.msgs && s.nodes[n].Some?
    ensures Causal(s.nodes[n].value.vv, m.record.vv) != Concurrent
  {
    var held := s.nodes[n].value;
    assert R.Exists(s, held) && R.Exists(s, m.record);
    assert Ordered(held, m.record);
  }

  /** Advertising and delivering move records around but make none. */
  lemma MoveStep(s: State, st: R.Step)
    requires Inv(s) && R.Enabled(s.net, st) && (st.Advertise? || st.Deliver?)
    ensures Inv(s.(net := R.Do(s.net, st)))
  {
    if st.Deliver? && s.net.nodes[st.n].Some? { NeverConcurrent(s.net, st.n, st.m); }
    var s' := R.Do(s.net, st);
    forall r: R.Record | R.Exists(s', r) ensures R.Exists(s.net, r) {
      ReplicationRuns.NewRecords(s.net, st, r);
      assert s'.nodes == s.net.nodes;
    }
    AnchoredStep(s.net, st);
    if s.holder.Some? { TopStep(s.net, st, s.holder.value, R.Record(R.Tombstone, map[])); }
  }

  /** Applying a pulled record makes a record like it, or none. */
  lemma ApplyStep(s: State, st: R.Step)
    requires Inv(s) && R.Enabled(s.net, st) && st.ApplyPull?
    ensures Inv(s.(net := R.Do(s.net, st)))
  {
    var s', mine, r := R.Do(s.net, st), s.net.nodes[st.n], st.r;
    assert (st.n, r) in s.net.pulls && (st.n, r).1 == r;
    assert R.Exists(s.net, r);
    var x := s'.nodes[st.n].value;
    LeqPointwise(r.vv, r.vv);
    if mine.Some? {
      assert R.Exists(s.net, mine.value);
      assert Ordered(mine.value, r);
      if x != mine.value { JoinAbsorbs(mine.value.vv, r.vv); }
    }
    assert R.Exists(s.net, x) || (Same(x.vv, r.vv) && x.body == r.body);
    forall z: R.Record | R.Exists(s', z) ensures R.Exists(s.net, z) || z == x {
      ReplicationRuns.NewRecords(s.net, st, z);
    }
    if !R.Exists(s.net, x) {
      forall z: R.Record | R.Exists(s.net, z) ensures Ordered(x, z) && Ordered(z, x) {
        OrderedLike(r, x, z);
      }
    }
    ChainExtends(s.net, s', x);
    AnchoredStep(s.net, st);
    if s.holder.Some? {
      var h := s.holder.value;
      ReplicationRuns.StepMonotone(s.net, st, h);
      if !R.Exists(s.net, x) {
        LeqTransitive(x.vv, r.vv, R.VvOf(s.net.nodes[h]));
        LeqTransitive(x.vv, R.VvOf(s.net.nodes[h]), R.VvOf(s'.nodes[h]));
      }
      TopStep(s.net, st, h, x);
    }
  }

  /** The holder's commit goes strictly above every record there is. */
  lemma CommitStep(s: State, n: Id, body: R.Body)
    requires Inv(s) && Enabled(s, Commit(n, body))
    ensures Inv(Do(s, Commit(n, body)))
  {
    var st := R.Commit(n, body);
    var s', v := R.Do(s.net, st), R.VvOf(s.net.nodes[n]);
    var x := R.LocalCommit(n, s.net.nodes[n], body);
    IncAbove(v, n);
    forall z: R.Record | R.Exists(s.net, z) ensures Ordered(x, z) && Ordered(z, x) {
      LeqTransitive(z.vv, v, x.vv);
      if Leq(x.vv, z.vv) { LeqTransitive(x.vv, z.vv, v); }
    }
    forall z: R.Record | R.Exists(s', z) ensures R.Exists(s.net, z) || z == x {
      ReplicationRuns.NewRecords(s.net, st, z);
    }
    ChainExtends(s.net, s', x);
    AnchoredStep(s.net, st);
    LeqPointwise(x.vv, x.vv);
    TopStep(s.net, st, n, x);
  }

  lemma AcquireStep(s: State, n: Id)
    requires Inv(s) && Enabled(s, Acquire(n))
    ensures Inv(Do(s, Acquire(n)))
  {
    forall r: R.Record | R.Exists(s.net, r) ensures Leq(r.vv, R.VvOf(s.net.nodes[n])) {
      var m :| m in s.net.nodes && Leq(r.vv, R.VvOf(s.net.nodes[m]));
      LeqTransitive(r.vv, R.VvOf(s.net.nodes[m]), R.VvOf(s.net.nodes[n]));
    }
  }

  // ---------- the theorem ----------

  lemma {:induction false} InvOfRun(s: State, steps: seq<Step>)
    requires Inv(s) && IsRun(s, steps)
    ensures Inv(Final(s, steps))
    decreases |steps|
  {
    if steps != [] {
      match steps[0] {
        case Spread(st) => if st.ApplyPull? { ApplyStep(s, st); } else { MoveStep(s, st); }
        case Acquire(n) => AcquireStep(s, n);
        case Vanish =>
        case Commit(n, body) => CommitStep(s, n, body);
      }
      InvOfRun(Do(s, steps[0]), steps[1..]);
    }
  }

  /** In every run all records, held or in flight, form a chain in which equal clocks carry
      equal content, and no delivery ever reaches the concurrent case. */
  lemma StrictCheckoutIsLinear(s: State, steps: seq<Step>)
    requires R.Genesis(s.net) && s.holder.None? && IsRun(s, steps)
    ensures Chain(Final(s, steps).net)
    ensures forall n, m | n in Final(s, steps).net.nodes && m in Final(s, steps).net.msgs ::
              && !R.Reconcile(n, Final(s, steps).net.nodes[n], m).Reassert?
              && (Final(s, steps).net.nodes[n].Some? ==>
                    Causal(Final(s, steps).net.nodes[n].value.vv, m.record.vv) != Concurrent)
  {
    InvOfRun(s, steps);
    var e := Final(s, steps).net;
    forall n, m | n in e.nodes && m in e.msgs
      ensures e.nodes[n].Some? ==> Causal(e.nodes[n].value.vv, m.record.vv) != Concurrent
    {
      if e.nodes[n].Some? { NeverConcurrent(e, n, m); }
    }
  }

  // ---------- what a commit brings to the others ----------

  /** However long after a commit under the lease, with whatever was committed, lost or repeated since: its
      announcement is still there for every node `m`, and what `m` makes of it depends only on where `m`
      stands. Below it, `m` pulls and ends with the committed content under a clock like the commit's; beside
      it, `m` has that content already; above it, nothing happens. */
  lemma CommitArrives(s: State, n: Id, body: R.Body, steps: seq<Step>, m: Id)
    requires Inv(s) && Enabled(s, Commit(n, body)) && IsRun(Do(s, Commit(n, body)), steps)
    requires m in s.net.nodes && m != n
    ensures var r := Do(s, Commit(n, body)).net.nodes[n].value;
            var e := Final(Do(s, Commit(n, body)), steps).net;
            && R.Committed(n, s.net.nodes[n], Some(r), body)
            && m in e.nodes && R.Enabled(e, R.Deliver(m, R.Msg(n, r)))
            && Received(e, n, m, r, body)
  {
    var s1 := Do(s, Commit(n, body));
    var e := Final(s1, steps);
    var r := s1.net.nodes[n].value;
    ReplicationRuns.CommitAnnounced(s.net, n, body);
    CommitStep(s, n, body);
    InvOfRun(s1, steps);
    NetGrows(s1, steps);
    assert R.Msg(n, r) in e.net.msgs && R.Exists(e.net, r);
    IncAbove(R.VvOf(s.net.nodes[n]), n);
    NotZero(r.vv, n);
    Receive(e.net, n, m, r, body);
  }

  /** What `m` makes of the announcement of `r`. */
  ghost predicate Received(s: R.Net, n: Id, m: Id, r: R.Record, body: R.Body)
    requires m in s.nodes && R.Enabled(s, R.Deliver(m, R.Msg(n, r)))
  {
    var held := R.VvOf(s.nodes[m]);
    var s1 := R.Do(s, R.Deliver(m, R.Msg(n, r)));
    match Causal(held, r.vv)
    case Before =>
      if s.nodes[m].None? && body.Tombstone? then s1.nodes == s.nodes && s1.pulls == s.pulls
      else
        && (m, r) in s1.pulls && s1.nodes == s.nodes
        && var got := R.Do(s1, R.ApplyPull(m, r)).nodes[m];
           got.Some? && got.value.body == body && Same(got.value.vv, r.vv)
    case Equal => s.nodes[m].Some? && s.nodes[m].value.body == body && s1.nodes == s.nodes
    case After => s1.nodes == s.nodes && s1.pulls == s.pulls && R.Apply(s.nodes[m], r) == s.nodes[m]
    case Concurrent => false
  }

  lemma NotZero(v: VClock, n: Id)
    requires Get(v, n) > 0
    ensures !Leq(v, map[])
  {
    assert n in v;
  }

  lemma Receive(s: R.Net, n: Id, m: Id, r: R.Record, body: R.Body)
    requires Chain(s) && m in s.nodes && m != n && R.Msg(n, r) in s.msgs && r.body == body && !Leq(r.vv, map[])
    ensures Received(s, n, m, r, body)
  {
    assert R.Exists(s, r);
    LeqPointwise(r.vv, r.vv);
    if s.nodes[m].Some? {
      var held := s.nodes[m].value;
      assert R.Exists(s, held);
      assert Ordered(held, r);
      if Leq(held.vv, r.vv) { JoinAbsorbs(held.vv, r.vv); }
    }
  }

  lemma {:induction false} NetGrows(s: State, steps: seq<Step>)
    requires IsRun(s, steps)
    ensures s.net.msgs <= Final(s, steps).net.msgs && Final(s, steps).net.nodes.Keys == s.net.nodes.Keys
    decreases |steps|
  {
    if steps != [] { NetGrows(Do(s, steps[0]), steps[1..]); }
  }
}
