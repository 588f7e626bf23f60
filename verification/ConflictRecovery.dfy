/** Recovery from concurrent records: two nodes hold causally unrelated records of one
    path, no lease is held and nobody commits; the nodes only exchange records. */
module ConflictRecovery {
  import opened Common
  import opened Vclock
  import opened Replication

  /** The two nodes, `lo` the lower id, and the concurrent records they start from. */
  datatype Duel = Duel(lo: Id, hi: Id, a: Record, b: Record)

  predicate IsDuel(d: Duel) {
    d.lo < d.hi && Causal(d.a.vv, d.b.vv) == Concurrent
  }

  ghost predicate Start(d: Duel, s: Net) {
    && s.nodes == map[d.lo := Some(d.a), d.hi := Some(d.b)]
    && s.msgs == {} && s.pulls == {} && s.delivered == {} && s.applied == {}
  }

  ghost predicate Exchange(steps: seq<Step>) {
    forall k | 0 <= k < |steps| :: !steps[k].Commit?
  }

  function Merged(d: Duel): VClock { Join(d.a.vv, d.b.vv) }

  function Raised(d: Duel): VClock { Inc(Merged(d), d.hi) }

  /** The higher id's content under a clock above both originals. */
  predicate Won(d: Duel, r: Record) {
    r.body == d.b.body && (Same(r.vv, Merged(d)) || Same(r.vv, Raised(d)))
  }

  predicate HeldOk(d: Duel, n: Id, r: Option<Record>) {
    r.Some? && (r.value == (if n == d.lo then d.a else d.b) || Won(d, r.value))
  }

  ghost predicate Inv(d: Duel, s: Net) {
    && s.nodes.Keys == {d.lo, d.hi}
    && (forall n | n in s.nodes :: HeldOk(d, n, s.nodes[n]))
    && (forall m | m in s.msgs :: m.from in s.nodes && HeldOk(d, m.from, Some(m.record)))
    && (forall p | p in s.pulls ::
          p.0 in s.nodes && (Won(d, p.1) || (p.0 == d.lo && p.1 == d.b)))
    && (forall e | e in s.delivered ::
          e.0 in s.nodes && (Won(d, s.nodes[e.0].value) || (e.0, e.1.record) in s.pulls))
    && (forall p | p in s.applied :: p.0 in s.nodes && Won(d, s.nodes[p.0].value))
  }

  // ---------- the four clocks ----------

  lemma Clocks(d: Duel)
    requires IsDuel(d)
    ensures Leq(d.a.vv, Merged(d)) && Leq(d.b.vv, Merged(d)) && Leq(Merged(d), Raised(d))
    ensures !Leq(Merged(d), d.a.vv) && !Leq(Merged(d), d.b.vv)
  {
    JoinIsLub(d.a.vv, d.b.vv);
    IncAbove(Merged(d), d.hi);
    if Leq(Merged(d), d.a.vv) { LeqTransitive(d.b.vv, Merged(d), d.a.vv); }
    if Leq(Merged(d), d.b.vv) { LeqTransitive(d.a.vv, Merged(d), d.b.vv); }
  }

  lemma SameSides(u: VClock, v: VClock, w: VClock)
    requires Same(u, v)
    ensures (Leq(u, w) <==> Leq(v, w)) && (Leq(w, u) <==> Leq(w, v))
  {
    if Leq(u, w) { LeqTransitive(v, u, w); }
    if Leq(v, w) { LeqTransitive(u, v, w); }
    if Leq(w, u) { LeqTransitive(w, u, v); }
    if Leq(w, v) { LeqTransitive(w, v, u); }
  }

  /** A winning record is strictly above either original. */
  lemma WonAbove(d: Duel, r: Record)
    requires IsDuel(d) && Won(d, r)
    ensures Causal(d.a.vv, r.vv) == Before && Causal(d.b.vv, r.vv) == Before
    ensures Causal(r.vv, d.a.vv) == After && Causal(r.vv, d.b.vv) == After
  {
    Clocks(d);
    var w := if Same(r.vv, Merged(d)) then Merged(d) else Raised(d);
    LeqPointwise(w, w);
    LeqTransitive(d.a.vv, Merged(d), w);
    LeqTransitive(d.b.vv, Merged(d), w);
    if Leq(w, d.a.vv) { LeqTransitive(Merged(d), w, d.a.vv); }
    if Leq(w, d.b.vv) { LeqTransitive(Merged(d), w, d.b.vv); }
    SameSides(r.vv, w, d.a.vv);
    SameSides(r.vv, w, d.b.vv);
  }

  /** Two winning records are comparable, and merging them gives the larger. */
  lemma WonPair(d: Duel, r: Record, q: Record)
    requires IsDuel(d) && Won(d, r) && Won(d, q)
    ensures Causal(r.vv, q.vv) != Concurrent
    ensures Causal(r.vv, q.vv) == Before ==> Same(r.vv, Merged(d)) && Same(q.vv, Raised(d))
  {
    Clocks(d);
    var u := if Same(r.vv, Merged(d)) then Merged(d) else Raised(d);
    var v := if Same(q.vv, Merged(d)) then Merged(d) else Raised(d);
    LeqPointwise(u, u);
    SameSides(r.vv, u, q.vv);
    SameSides(q.vv, v, u);
  }

  /** Merging a held record with a later one gives the later one's clock. */
  lemma WonMerge(d: Duel, v: VClock, q: Record)
    requires IsDuel(d) && Won(d, q) && Leq(v, q.vv)
    ensures Won(d, q.(vv := Join(v, q.vv)))
    ensures Same(q.vv, Raised(d)) ==> Same(Join(v, q.vv), Raised(d))
  {
    JoinAbsorbs(v, q.vv);
    SameSides(Join(v, q.vv), q.vv, Merged(d));
    SameSides(Join(v, q.vv), q.vv, Raised(d));
  }

  lemma JoinSwap(u: VClock, v: VClock)
    ensures Join(u, v) == Join(v, u)
  {}

  // ---------- one step ----------

  /** What a delivery does at a node, by the record it holds. */
  lemma Delivery(d: Duel, n: Id, mine: Record, m: Msg)
    requires IsDuel(d) && n in {d.lo, d.hi} && m.from in {d.lo, d.hi} && m.from != n
    requires HeldOk(d, n, Some(mine)) && HeldOk(d, m.from, Some(m.record))
    ensures var r := Reconcile(n, Some(mine), m);
            && (r.Reassert? ==> Won(d, r.record) && !Won(d, mine) && Same(r.record.vv, Raised(d)))
            && (r.Ignore? ==> Won(d, mine))
            && (r.Pull? ==> Won(d, m.record) || (n == d.lo && m.record == d.b))
  {
    if Won(d, mine) { WonAbove(d, mine); }
    if Won(d, m.record) { WonAbove(d, m.record); }
    if Won(d, mine) && Won(d, m.record) { WonPair(d, mine, m.record); }
    if n == d.hi && mine == d.b && m.record == d.a {
      JoinSwap(d.a.vv, d.b.vv);
      LeqPointwise(Raised(d), Raised(d));
    }
  }

  lemma Application(d: Duel, n: Id, mine: Record, r: Record)
    requires IsDuel(d) && n in {d.lo, d.hi} && HeldOk(d, n, Some(mine))
    requires Won(d, r) || (n == d.lo && r == d.b)
    ensures Won(d, Apply(Some(mine), r).value)
    ensures Apply(Some(mine), r) != Some(mine) ==>
              !Won(d, mine) || (Same(mine.vv, Merged(d)) && Same(Apply(Some(mine), r).value.vv, Raised(d))
                                && Causal(mine.vv, r.vv) == Before)
  {
    if Won(d, mine) { WonAbove(d, mine); }
    if Won(d, r) {
      WonAbove(d, r);
      if Won(d, mine) { WonPair(d, mine, r); }
      if Leq(mine.vv, r.vv) { WonMerge(d, mine.vv, r); }
    } else if mine == d.a {
      LeqPointwise(Merged(d), Merged(d));
    }
  }

  lemma AdvertiseKeepsInv(d: Duel, s: Net, n: Id)
    requires IsDuel(d) && Inv(d, s) && Enabled(s, Advertise(n))
    ensures Inv(d, Do(s, Advertise(n)))
  {
  }

  lemma DeliverKeepsInv(d: Duel, s: Net, n: Id, m: Msg)
    requires IsDuel(d) && Inv(d, s) && Enabled(s, Deliver(n, m))
    ensures Inv(d, Do(s, Deliver(n, m)))
  {
    Delivery(d, n, s.nodes[n].value, m);
    var r := Reconcile(n, s.nodes[n], m);
    if r.Reassert? { HeldChanges(d, s, n, r.record); }
  }

  lemma ApplyKeepsInv(d: Duel, s: Net, n: Id, r: Record)
    requires IsDuel(d) && Inv(d, s) && Enabled(s, ApplyPull(n, r))
    ensures Inv(d, Do(s, ApplyPull(n, r)))
  {
    assert (n, r) in s.pulls && (n, r).1 == r;
    Application(d, n, s.nodes[n].value, r);
    HeldChanges(d, s, n, Apply(s.nodes[n], r).value);
  }

  /** A node may come to hold any record of the higher content. */
  lemma HeldChanges(d: Duel, s: Net, n: Id, r: Record)
    requires Inv(d, s) && n in s.nodes && Won(d, r)
    ensures Inv(d, s.(nodes := s.nodes[n := Some(r)]))
  {
  }

  lemma StepKeepsInv(d: Duel, s: Net, st: Step)
    requires IsDuel(d) && Inv(d, s) && Enabled(s, st) && !st.Commit?
    ensures Inv(d, Do(s, st))
  {
    match st
    case Advertise(n) => AdvertiseKeepsInv(d, s, n);
    case Deliver(n, m) => DeliverKeepsInv(d, s, n, m);
    case ApplyPull(n, r) => ApplyKeepsInv(d, s, n, r);
  }

  // ---------- the theorems ----------

  lemma {:induction false} InvOfRun(d: Duel, s: Net, steps: seq<Step>)
    requires IsDuel(d) && Inv(d, s) && IsRun(s, steps) && Exchange(steps)
    ensures Inv(d, Final(s, steps))
    decreases |steps|
  {
    if steps != [] {
      StepKeepsInv(d, s, steps[0]);
      InvOfRun(d, Do(s, steps[0]), steps[1..]);
    }
  }

  /** Once each node was delivered a record of the other and its pulls were applied, both
      hold the higher id's content under clocks above both originals, whatever the order
      and the number of deliveries. */
  lemma HigherIdWins(d: Duel, s: Net, steps: seq<Step>)
    requires IsDuel(d) && Start(d, s) && IsRun(s, steps) && Exchange(steps)
    requires exists m :: (d.lo, m) in Final(s, steps).delivered
    requires exists m :: (d.hi, m) in Final(s, steps).delivered
    requires Final(s, steps).pulls <= Final(s, steps).applied
    ensures forall n | n in {d.lo, d.hi} ::
              var r := Final(s, steps).nodes[n];
              && r.Some? && r.value.body == d.b.body
              && Leq(d.a.vv, r.value.vv) && Leq(d.b.vv, r.value.vv)
  {
    InvOfRun(d, s, steps);
    var e := Final(s, steps);
    forall n | n in {d.lo, d.hi} ensures Won(d, e.nodes[n].value) {
      var m :| (n, m) in e.delivered;
      assert (n, m).0 == n && (n, m).1 == m;
      assert Won(d, e.nodes[n].value) || (n, m.record) in e.applied;
    }
    WonAbove(d, e.nodes[d.lo].value);
    WonAbove(d, e.nodes[d.hi].value);
  }

  /** Neither node would react to the record the other now holds. */
  ghost predicate Settled(d: Duel, s: Net)
    requires d.lo in s.nodes && d.hi in s.nodes && s.nodes[d.lo].Some? && s.nodes[d.hi].Some?
  {
    && Reconcile(d.lo, s.nodes[d.lo], Msg(d.hi, s.nodes[d.hi].value)).Ignore?
    && Reconcile(d.hi, s.nodes[d.hi], Msg(d.lo, s.nodes[d.lo].value)).Ignore?
  }

  /** The exchange settles only in agreement: equal clocks and the higher id's content. */
  lemma SettledMeansAgreed(d: Duel, s: Net, steps: seq<Step>)
    requires IsDuel(d) && Start(d, s) && IsRun(s, steps) && Exchange(steps)
    ensures var e := Final(s, steps);
            && e.nodes[d.lo].Some? && e.nodes[d.hi].Some?
            && (Settled(d, e) <==>
                  && Same(e.nodes[d.lo].value.vv, e.nodes[d.hi].value.vv)
                  && e.nodes[d.lo].value.body == d.b.body == e.nodes[d.hi].value.body)
  {
    InvOfRun(d, s, steps);
    var e := Final(s, steps);
    var x, y := e.nodes[d.lo].value, e.nodes[d.hi].value;
    Delivery(d, d.lo, x, Msg(d.hi, y));
    Delivery(d, d.hi, y, Msg(d.lo, x));
    if Won(d, x) && Won(d, y) { WonPair(d, x, y); WonPair(d, y, x); }
  }

  // ---------- it can always settle ----------

  /** Nobody else's record changed, nothing heard was forgotten and every new pull was applied. */
  ghost predicate Onward(s: Net, z: Net, from: Id) {
    && from in s.nodes && from in z.nodes && z.nodes[from] == s.nodes[from]
    && s.delivered <= z.delivered && z.pulls - z.applied <= s.pulls - s.applied
  }

  /** Node `n` is told what `from` holds. */
  lemma Heard(d: Duel, s: Net, from: Id, n: Id, m: Msg) returns (z: Net)
    requires IsDuel(d) && Inv(d, s) && {from, n} == {d.lo, d.hi} && m == Msg(from, s.nodes[from].value)
    ensures IsRun(s, [Advertise(from), Deliver(n, m)]) && z == Final(s, [Advertise(from), Deliver(n, m)])
    ensures Inv(d, z) && (n, m) in z.delivered && s.delivered <= z.delivered && z.applied == s.applied
    ensures var r := Reconcile(n, s.nodes[n], m);
            && z.nodes == (if r.Reassert? then s.nodes[n := Some(r.record)] else s.nodes)
            && z.pulls == (if r.Pull? then s.pulls + {(n, m.record)} else s.pulls)
  {
    var s1 := Do(s, Advertise(from));
    StepKeepsInv(d, s, Advertise(from));
    StepKeepsInv(d, s1, Deliver(n, m));
    TwoSteps(s, Advertise(from), Deliver(n, m));
    z := Do(s1, Deliver(n, m));
  }

  /** Node `n` is told what `from` holds, and applies it if that is its reaction. */
  lemma Told(d: Duel, s: Net, from: Id, n: Id) returns (steps: seq<Step>, z: Net)
    requires IsDuel(d) && Inv(d, s) && {from, n} == {d.lo, d.hi}
    ensures IsRun(s, steps) && Exchange(steps) && z == Final(s, steps) && Inv(d, z)
    ensures Onward(s, z, from) && (n, Msg(from, s.nodes[from].value)) in z.delivered
    ensures Caught(d, s.nodes[n].value, s.nodes[from].value, z.nodes[n].value)
  {
    var m := Msg(from, s.nodes[from].value);
    TellRaises(d, n, s.nodes[n].value, m);
    z := Heard(d, s, from, n, m);
    if Reconcile(n, s.nodes[n], m).Pull? {
      steps, z := Fetched(d, s, z, from, n, m);
    } else {
      steps := [Advertise(from), Deliver(n, m)];
    }
  }

  lemma Fetched(d: Duel, s: Net, s2: Net, from: Id, n: Id, m: Msg) returns (steps: seq<Step>, z: Net)
    requires IsDuel(d) && Inv(d, s2) && {from, n} == {d.lo, d.hi} && s2.nodes == s.nodes
    requires IsRun(s, [Advertise(from), Deliver(n, m)]) && s2 == Final(s, [Advertise(from), Deliver(n, m)])
    requires s.delivered <= s2.delivered && s2.pulls == s.pulls + {(n, m.record)} && s2.applied == s.applied
    ensures IsRun(s, steps) && Exchange(steps) && z == Final(s, steps) && Inv(d, z)
    ensures Onward(s, z, from) && s2.delivered <= z.delivered
    ensures z.nodes[n] == Apply(s.nodes[n], m.record)
  {
    var st := ApplyPull(n, m.record);
    StepKeepsInv(d, s2, st);
    z := Do(s2, st);
    PullApplied(s, s2, z, from, n, m.record);
    OneMore(s, [Advertise(from), Deliver(n, m)], st);
    steps := [Advertise(from), Deliver(n, m)] + [st];
  }

  lemma PullApplied(s: Net, s2: Net, z: Net, from: Id, n: Id, x: Record)
    requires Enabled(s2, ApplyPull(n, x)) && z == Do(s2, ApplyPull(n, x)) && from in s.nodes && from != n
    requires s2.nodes == s.nodes && s.delivered <= s2.delivered
    requires s2.pulls == s.pulls + {(n, x)} && s2.applied == s.applied
    ensures Onward(s, z, from)
  {
  }

  lemma OneMore(s: Net, steps: seq<Step>, st: Step)
    requires IsRun(s, steps) && Enabled(Final(s, steps), st)
    ensures IsRun(s, steps + [st]) && Final(s, steps + [st]) == Do(Final(s, steps), st)
  {
    var e := Final(s, steps);
    assert [st][1..] == [] && IsRun(Do(e, st), []) && Final(Do(e, st), []) == Do(e, st);
    assert IsRun(e, [st]) && Final(e, [st]) == Do(e, st);
    Continue(s, steps, [st]);
  }

  /** The record `n` comes to hold is of the higher content, at or above what it was told, and no further
      than that if `n` stood below it. */
  predicate Caught(d: Duel, mine: Record, told: Record, now: Record) {
    Won(d, now) && Leq(told.vv, now.vv) && (Leq(mine.vv, told.vv) ==> Leq(now.vv, told.vv))
  }

  lemma TellRaises(d: Duel, n: Id, mine: Record, m: Msg)
    requires IsDuel(d) && n in {d.lo, d.hi} && m.from in {d.lo, d.hi} && m.from != n
    requires HeldOk(d, n, Some(mine)) && HeldOk(d, m.from, Some(m.record))
    ensures match Reconcile(n, Some(mine), m)
            case Ignore => Caught(d, mine, m.record, mine)
            case Pull => Caught(d, mine, m.record, Apply(Some(mine), m.record).value)
            case Reassert(r) => Caught(d, mine, m.record, r)
  {
    Delivery(d, n, mine, m);
    match Reconcile(n, Some(mine), m)
    case Ignore =>
    case Pull => PullRaises(d, n, mine, m.record);
    case Reassert(r) => ReassertRaises(n, mine, m.record);
  }

  lemma PullRaises(d: Duel, n: Id, mine: Record, r: Record)
    requires IsDuel(d) && n in {d.lo, d.hi} && HeldOk(d, n, Some(mine)) && !Leq(r.vv, mine.vv)
    requires Won(d, r) || (n == d.lo && r == d.b)
    ensures Caught(d, mine, r, Apply(Some(mine), r).value)
  {
    Application(d, n, mine, r);
    JoinIsLub(mine.vv, r.vv);
    if Leq(mine.vv, r.vv) { JoinAbsorbs(mine.vv, r.vv); }
  }

  lemma ReassertRaises(n: Id, mine: Record, r: Record)
    ensures Leq(r.vv, Inc(Join(mine.vv, r.vv), n))
  {
    JoinIsLub(mine.vv, r.vv);
    IncAbove(Join(mine.vv, r.vv), n);
    LeqTransitive(r.vv, Join(mine.vv, r.vv), Inc(Join(mine.vv, r.vv), n));
  }

  lemma TwoSteps(s: Net, a: Step, b: Step)
    requires Enabled(s, a) && Enabled(Do(s, a), b)
    ensures IsRun(s, [a, b]) && Final(s, [a, b]) == Do(Do(s, a), b)
  {
    var s1, s2 := Do(s, a), Do(Do(s, a), b);
    assert [a, b][1..] == [b] && [b][1..] == [];
    assert IsRun(s2, []) && Final(s2, []) == s2;
    assert IsRun(s1, [b]) && Final(s1, [b]) == s2;
  }

  /** From every point of every exchange a few more steps settle it; from the start they also deliver to
      both nodes and apply every pull. */
  lemma AlwaysSettles(d: Duel, s: Net) returns (steps: seq<Step>, z: Net)
    requires IsDuel(d) && Inv(d, s)
    ensures IsRun(s, steps) && Exchange(steps) && z == Final(s, steps) && Inv(d, z) && Settled(d, z)
    ensures (exists m :: (d.lo, m) in z.delivered) && (exists m :: (d.hi, m) in z.delivered)
    ensures s.pulls <= s.applied ==> z.pulls <= z.applied
  {
    var more, s1;
    steps, s1 := Told(d, s, d.lo, d.hi);
    more, z := Told(d, s1, d.hi, d.lo);
    Continue(s, steps, more);
    steps := steps + more;
    CaughtUp(d, s.nodes[d.lo].value, s1.nodes[d.hi].value, z.nodes[d.lo].value);
    PullsApplied(s, s1, z);
  }

  /** Told in turn, the two end with equal clocks. */
  lemma CaughtUp(d: Duel, x: Record, y: Record, x': Record)
    requires IsDuel(d) && Leq(x.vv, y.vv) && Caught(d, x, y, x') && Won(d, y)
    ensures Reconcile(d.lo, Some(x'), Msg(d.hi, y)).Ignore? && Reconcile(d.hi, Some(y), Msg(d.lo, x')).Ignore?
  {
  }

  lemma PullsApplied(s: Net, s1: Net, z: Net)
    requires s1.pulls - s1.applied <= s.pulls - s.applied && z.pulls - z.applied <= s1.pulls - s1.applied
    ensures s.pulls <= s.applied ==> z.pulls <= z.applied
  {
    if s.pulls <= s.applied {
      forall p | p in z.pulls ensures p in z.applied {
        assert p !in z.applied ==> p in z.pulls - z.applied;
      }
    }
  }

  // ---------- how long it takes ----------

  function Rank(d: Duel, r: Option<Record>): nat {
    if r.None? || !Won(d, r.value) then 0 else if Same(r.value.vv, Raised(d)) then 2 else 1
  }

  /** The steps of a run that change a held record. */
  ghost function Changes(s: Net, steps: seq<Step>): nat
    requires IsRun(s, steps)
    decreases |steps|
  {
    if steps == [] then 0
    else (if Do(s, steps[0]).nodes == s.nodes then 0 else 1) + Changes(Do(s, steps[0]), steps[1..])
  }

  lemma ApplicationRaises(d: Duel, n: Id, mine: Record, r: Record)
    requires IsDuel(d) && n in {d.lo, d.hi} && HeldOk(d, n, Some(mine))
    requires Won(d, r) || (n == d.lo && r == d.b)
    ensures Apply(Some(mine), r) == Some(mine) || Rank(d, Some(mine)) < Rank(d, Apply(Some(mine), r))
  {
    Application(d, n, mine, r);
    if Apply(Some(mine), r) != Some(mine) && Won(d, mine) {
      WonAbove(d, mine);
      WonPair(d, mine, r);
      SameSides(r.vv, Raised(d), mine.vv);
    }
  }

  lemma DeliveryRaises(d: Duel, n: Id, mine: Record, m: Msg)
    requires IsDuel(d) && n in {d.lo, d.hi} && m.from in {d.lo, d.hi} && m.from != n
    requires HeldOk(d, n, Some(mine)) && HeldOk(d, m.from, Some(m.record))
    ensures var r := Reconcile(n, Some(mine), m);
            r.Reassert? ==> Rank(d, Some(mine)) < Rank(d, Some(r.record))
  {
    Delivery(d, n, mine, m);
  }

  function Ranks(d: Duel, s: Net): nat
    requires d.lo in s.nodes && d.hi in s.nodes
  {
    Rank(d, s.nodes[d.lo]) + Rank(d, s.nodes[d.hi])
  }

  lemma ChangeRaisesRank(d: Duel, s: Net, st: Step)
    requires IsDuel(d) && Inv(d, s) && Enabled(s, st) && !st.Commit?
    ensures Do(s, st).nodes == s.nodes || Ranks(d, s) < Ranks(d, Do(s, st))
  {
    var mine := s.nodes[st.n].value;
    match st {
      case Advertise(_) =>
      case Deliver(n, m) => DeliveryRaises(d, n, mine, m);
      case ApplyPull(n, r) =>
        assert (n, r) in s.pulls && (n, r).1 == r;
        ApplicationRaises(d, n, mine, r);
        if Apply(s.nodes[n], r) == s.nodes[n] { assert s.nodes[n := s.nodes[n]] == s.nodes; }
    }
  }

  /** At most four held records change in any exchange, however long. */
  lemma {:induction false} FewChanges(d: Duel, s: Net, steps: seq<Step>)
    requires IsDuel(d) && Inv(d, s) && IsRun(s, steps) && Exchange(steps)
    ensures Changes(s, steps) + Ranks(d, s) <= 4
    decreases |steps|
  {
    if steps != [] {
      StepKeepsInv(d, s, steps[0]);
      ChangeRaisesRank(d, s, steps[0]);
      FewChanges(d, Do(s, steps[0]), steps[1..]);
    }
  }

  lemma ExchangeIsShort(d: Duel, s: Net, steps: seq<Step>)
    requires IsDuel(d) && Start(d, s) && IsRun(s, steps) && Exchange(steps)
    ensures Changes(s, steps) <= 4
  {
    FewChanges(d, s, steps);
  }

  // ---------- why agreement is claimed of two nodes ----------

  const P: Record := Record(Live(7), map[3 := 1])
  const Q: Record := Record(Live(8), map[2 := 1])

  /** Nodes 1, 2 and 3 and what they hold, with P sent by 3 and Q sent by 2. */
  ghost predicate Trio(s: Net, x: Option<Record>, y: Option<Record>) {
    && s.nodes.Keys == {1, 2, 3} && s.nodes[1] == x && s.nodes[2] == y && s.nodes[3] == Some(P)
    && Msg(3, P) in s.msgs && Msg(2, Q) in s.msgs
  }

  lemma PAndQ()
    ensures Causal(P.vv, Q.vv) == Concurrent && Causal(Q.vv, P.vv) == Concurrent
    ensures Join(P.vv, Q.vv) == Join(Q.vv, P.vv)
  {
    assert 3 in P.vv && Get(Q.vv, 3) == 0;
    assert 2 in Q.vv && Get(P.vv, 2) == 0;
  }

  lemma TrioOpens(s: Net) returns (steps: seq<Step>)
    requires Genesis(s) && s.nodes.Keys == {1, 2, 3}
    ensures IsRun(s, steps) && Trio(Final(s, steps), None, Some(Q))
  {
    var c3, c2 := Commit(3, P.body), Commit(2, Q.body);
    assert Inc(map[], 3) == P.vv && Inc(map[], 2) == Q.vv;
    var s1 := Do(s, c3);
    var s2 := Do(s1, c2);
    assert IsRun(s2, []) && Final(s2, []) == s2;
    steps := [c3, c2];
    assert steps[1..] == [c2] && [c2][1..] == [];
    assert IsRun(s1, [c2]) && Final(s1, [c2]) == s2;
  }

  /** A pull and its application at node n. */
  lemma Fetch(s: Net, n: Id, m: Msg) returns (s2: Net)
    requires n in s.nodes && m in s.msgs && m.from != n && Reconcile(n, s.nodes[n], m).Pull?
    ensures IsRun(s, [Deliver(n, m), ApplyPull(n, m.record)])
    ensures s2 == Final(s, [Deliver(n, m), ApplyPull(n, m.record)])
    ensures s2.nodes == s.nodes[n := Apply(s.nodes[n], m.record)] && s2.msgs == s.msgs
  {
    var s1 := Do(s, Deliver(n, m));
    s2 := Do(s1, ApplyPull(n, m.record));
    var tail := [ApplyPull(n, m.record)];
    assert tail[1..] == [] && [Deliver(n, m), ApplyPull(n, m.record)][1..] == tail;
    assert IsRun(s2, []) && IsRun(s1, tail) && Final(s1, tail) == s2;
  }

  lemma {:induction false} Continue(s: Net, first: seq<Step>, rest: seq<Step>)
    requires IsRun(s, first) && IsRun(Final(s, first), rest)
    ensures IsRun(s, first + rest) && Final(s, first + rest) == Final(Final(s, first), rest)
    decreases |first|
  {
    if first == [] {
      assert first + rest == rest;
    } else {
      assert (first + rest)[1..] == first[1..] + rest;
      Continue(Do(s, first[0]), first[1..], rest);
    }
  }

  /** Node 1 takes P from 3 and then Q from 2, whose id is higher; node 2 takes P from 3. */
  lemma TrioCrosses(s: Net) returns (steps: seq<Step>)
    requires Trio(s, None, Some(Q))
    ensures IsRun(s, steps)
    ensures Trio(Final(s, steps), Some(Q.(vv := Join(P.vv, Q.vv))), Some(P.(vv := Join(Q.vv, P.vv))))
  {
    PAndQ();
    var f1 := [Deliver(1, Msg(3, P)), ApplyPull(1, P)];
    var s1 := Fetch(s, 1, Msg(3, P));
    var f2 := [Deliver(1, Msg(2, Q)), ApplyPull(1, Q)];
    var s2 := Fetch(s1, 1, Msg(2, Q));
    var f3 := [Deliver(2, Msg(3, P)), ApplyPull(2, P)];
    var s3 := Fetch(s2, 2, Msg(3, P));
    Continue(s, f1, f2);
    Continue(s, f1 + f2, f3);
    steps := f1 + f2 + f3;
  }

  /** With three nodes, conflicting commits can leave two of them with equal clocks and
      different content: equal clocks imply equal content only under strict checkout. */
  lemma ThreeNodesMayDiverge(s: Net)
    requires Genesis(s) && s.nodes.Keys == {1, 2, 3}
    ensures exists steps :: IsRun(s, steps) && Diverged(Final(s, steps), 1, 2)
  {
    var r := TrioOpens(s);
    var r' := TrioCrosses(Final(s, r));
    Continue(s, r, r');
    PAndQ();
    LeqPointwise(Join(P.vv, Q.vv), Join(P.vv, Q.vv));
    assert Diverged(Final(s, r + r'), 1, 2);
  }

  predicate Diverged(s: Net, i: Id, j: Id) {
    && i in s.nodes && j in s.nodes && s.nodes[i].Some? && s.nodes[j].Some?
    && Causal(s.nodes[i].value.vv, s.nodes[j].value.vv) == Equal
    && s.nodes[i].value.body != s.nodes[j].value.body
  }
}
