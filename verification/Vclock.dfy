/** Version vectors keyed by endpoint id. An absent entry counts as zero. */
module Vclock {
  import opened Common

  const U64_MAX: nat := 0xFFFF_FFFF_FFFF_FFFF

  type Counter = n: nat | n <= U64_MAX witness 0

  type VClock = map<Id, Counter>

  datatype Causality = Equal | After | Before | Concurrent

  function Get(v: VClock, id: Id): Counter {
    if id in v then v[id] else 0
  }

  /** Pointwise order. */
  predicate Leq(a: VClock, b: VClock) {
    forall k | k in a :: a[k] <= Get(b, k)
  }

  predicate Same(a: VClock, b: VClock) {
    Leq(a, b) && Leq(b, a)
  }

  /** The causal relation of `a` to `b`, read off the pointwise order. */
  function Causal(a: VClock, b: VClock): Causality {
    if Leq(a, b) then (if Leq(b, a) then Equal else Before)
    else if Leq(b, a) then After
    else Concurrent
  }

  function Join(a: VClock, b: VClock): VClock {
    map k | k in a.Keys + b.Keys :: if Get(a, k) < Get(b, k) then Get(b, k) else Get(a, k)
  }

  /** The counter saturates. */
  function Inc(v: VClock, id: Id): VClock {
    v[id := if Get(v, id) < U64_MAX then Get(v, id) + 1 else U64_MAX]
  }

  // ---------- the algorithms ----------

  /** One pass over the keys of both clocks that stops as soon as each exceeds the other. */
  method Compare(a: VClock, b: VClock) returns (c: Causality)
    ensures c == Causal(a, b)
  {
    var aGt, bGt := false, false;
    var todo := a.Keys + b.Keys;
    while todo != {}
      invariant todo <= a.Keys + b.Keys
      invariant aGt <==> exists k | k in a.Keys - todo :: Get(a, k) > Get(b, k)
      invariant bGt <==> exists k | k in b.Keys - todo :: Get(b, k) > Get(a, k)
      invariant !(aGt && bGt)
      decreases todo
    {
      var k :| k in todo;
      var rest := todo - {k};
      assert a.Keys - rest <= (a.Keys - todo) + {k} && b.Keys - rest <= (b.Keys - todo) + {k};
      assert k in a ==> k in a.Keys - rest;
      assert k in b ==> k in b.Keys - rest;
      if Get(a, k) > Get(b, k) { aGt := true; }
      if Get(b, k) > Get(a, k) { bGt := true; }
      if aGt && bGt { return Concurrent; }
      todo := rest;
    }
    assert a.Keys - todo == a.Keys && b.Keys - todo == b.Keys;
    c := if aGt then After else if bGt then Before else Equal;
  }

  /** The keys of `b` folded into a copy of `a`. */
  method Merge(a: VClock, b: VClock) returns (out: VClock)
    ensures out == Join(a, b)
  {
    out := a;
    var todo := b.Keys;
    while todo != {}
      invariant todo <= b.Keys
      invariant out.Keys == a.Keys + (b.Keys - todo)
      invariant forall k | k in out :: out[k] == if k in todo then a[k] else Join(a, b)[k]
      decreases todo
    {
      var k :| k in todo;
      if k !in out || b[k] > out[k] { out := out[k := b[k]]; }
      todo := todo - {k};
    }
  }

  method Increment(v: VClock, id: Id) returns (out: VClock)
    ensures out == Inc(v, id)
    ensures Get(out, id) > Get(v, id) <==> Get(v, id) < U64_MAX
    ensures forall k | k != id :: Get(out, k) == Get(v, k)
  {
    out := if id in v then v else v[id := 0];
    if out[id] < U64_MAX { out := out[id := out[id] + 1]; }
  }

  // ---------- the algebra ----------

  lemma LeqPointwise(a: VClock, b: VClock)
    ensures Leq(a, b) <==> forall k: Id :: Get(a, k) <= Get(b, k)
  {
    if Leq(a, b) {
      forall k: Id ensures Get(a, k) <= Get(b, k) { if k in a { assert a[k] <= Get(b, k); } }
    } else {
      var k :| k in a && !(a[k] <= Get(b, k));
      assert Get(a, k) > Get(b, k);
    }
  }

  lemma LeqTransitive(a: VClock, b: VClock, c: VClock)
    requires Leq(a, b) && Leq(b, c)
    ensures Leq(a, c)
  {
    LeqPointwise(a, b);
    LeqPointwise(b, c);
    LeqPointwise(a, c);
  }

  lemma JoinGet(a: VClock, b: VClock, k: Id)
    ensures Get(Join(a, b), k) == if Get(a, k) < Get(b, k) then Get(b, k) else Get(a, k)
  {}

  /** Merging yields the least clock above both. */
  lemma JoinIsLub(a: VClock, b: VClock)
    ensures Leq(a, Join(a, b)) && Leq(b, Join(a, b))
    ensures forall c | Leq(a, c) && Leq(b, c) :: Leq(Join(a, b), c)
  {
    forall c | Leq(a, c) && Leq(b, c) ensures Leq(Join(a, b), c) {
      LeqPointwise(a, c);
      LeqPointwise(b, c);
    }
  }

  lemma JoinAbsorbs(a: VClock, b: VClock)
    requires Leq(a, b)
    ensures Same(Join(a, b), b)
  {
    JoinIsLub(a, b);
    LeqPointwise(b, b);
  }

  lemma IncAbove(v: VClock, id: Id)
    ensures Leq(v, Inc(v, id))
    ensures Leq(Inc(v, id), v) <==> Get(v, id) == U64_MAX
  {
    assert id in Inc(v, id);
  }
}
