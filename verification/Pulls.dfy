/** The bounded pull table with its priority backlog, the resume set of in-flight pulls, and the
    coalescing refresh of the garbage collector's protected set. */
module Pulls {
  import opened Common

  type Path = nat
  type Peer = nat

  /** A record: its content manifest, its version vector and its size. */
  datatype Record = Record(manifest: nat, version: nat, size: nat)

  predicate SameVersion(a: Record, b: Record) { a.manifest == b.manifest && a.version == b.version }

  datatype Job = Job(from: Peer, record: Record, attempts: nat, queued: Option<(Peer, Record)>)

  datatype Waiting = Waiting(path: Path, from: Peer, record: Record)

  const MAX_CONCURRENT_PULLS := 32
  const MAX_PULL_BACKLOG := 8192
  const MAX_ATTEMPTS := 5

  // ---------- priority ----------

  /** Paths a lock is blocked on come first, then the smaller ones. */
  predicate Before(a: Waiting, b: Waiting, waited: set<Path>) {
    if (a.path in waited) != (b.path in waited) then a.path in waited else a.record.size < b.record.size
  }

  predicate NotAfter(a: Waiting, b: Waiting, waited: set<Path>) { !Before(b, a, waited) }

  /** The backlog in the order of priority, equals in the order of arrival. */
  function Ranked(b: seq<Waiting>, waited: set<Path>): seq<Waiting> {
    if b == [] then [] else Insert(b[0], Ranked(b[1..], waited), waited)
  }

  function Insert(e: Waiting, r: seq<Waiting>, waited: set<Path>): seq<Waiting> {
    if r == [] || NotAfter(e, r[0], waited) then [e] + r else [r[0]] + Insert(e, r[1..], waited)
  }

  function Without(b: seq<Waiting>, i: nat): seq<Waiting>
    requires i < |b|
  {
    b[..i] + b[i + 1..]
  }

  /** `i` is the first of the entries no other comes before. */
  ghost predicate IsPick(b: seq<Waiting>, waited: set<Path>, i: nat) {
    && i < |b|
    && (forall k :: 0 <= k < |b| ==> NotAfter(b[i], b[k], waited))
    && (forall k :: 0 <= k < i ==> Before(b[i], b[k], waited))
  }

  lemma {:induction false} InsertKeeps(e: Waiting, r: seq<Waiting>, waited: set<Path>)
    ensures multiset(Insert(e, r, waited)) == multiset(r) + multiset{e}
  {
    if r != [] && !NotAfter(e, r[0], waited) {
      InsertKeeps(e, r[1..], waited);
      assert r == [r[0]] + r[1..];
    }
  }

  lemma {:induction false} RankedKeeps(b: seq<Waiting>, waited: set<Path>)
    ensures multiset(Ranked(b, waited)) == multiset(b)
  {
    if b != [] {
      RankedKeeps(b[1..], waited);
      InsertKeeps(b[0], Ranked(b[1..], waited), waited);
      assert b == [b[0]] + b[1..];
    }
  }

  ghost predicate Sorted(r: seq<Waiting>, waited: set<Path>) {
    forall i, k :: 0 <= i < k < |r| ==> NotAfter(r[i], r[k], waited)
  }

  /** What it means not to come after: a path a lock is blocked on, or as small a one among its like. */
  lemma NotAfterMeans(a: Waiting, b: Waiting, waited: set<Path>)
    ensures NotAfter(a, b, waited) <==>
              if a.path in waited then b.path !in waited || a.record.size <= b.record.size
              else b.path !in waited && a.record.size <= b.record.size
  {
  }

  lemma {:induction false} InsertSorted(e: Waiting, r: seq<Waiting>, waited: set<Path>)
    requires Sorted(r, waited)
    ensures Sorted(Insert(e, r, waited), waited)
  {
    if r != [] && !NotAfter(e, r[0], waited) {
      var rest := Insert(e, r[1..], waited);
      InsertSorted(e, r[1..], waited);
      InsertKeeps(e, r[1..], waited);
      forall k | 0 <= k < |rest| ensures NotAfter(r[0], rest[k], waited) {
        assert rest[k] in multiset(rest);
        assert rest[k] == e || rest[k] in r[1..];
      }
    }
  }

  lemma {:induction false} RankedSorted(b: seq<Waiting>, waited: set<Path>)
    ensures Sorted(Ranked(b, waited), waited)
  {
    if b != [] {
      RankedSorted(b[1..], waited);
      InsertSorted(b[0], Ranked(b[1..], waited), waited);
    }
  }

  /** The entries of one priority. */
  function Class(b: seq<Waiting>, waited: set<Path>, first: bool, size: nat): seq<Waiting> {
    if b == [] then []
    else if (b[0].path in waited) == first && b[0].record.size == size then [b[0]] + Class(b[1..], waited, first, size)
    else Class(b[1..], waited, first, size)
  }

  lemma {:induction false} InsertStable(e: Waiting, r: seq<Waiting>, waited: set<Path>, first: bool, size: nat)
    ensures Class(Insert(e, r, waited), waited, first, size) == Class([e] + r, waited, first, size)
  {
    if r != [] && !NotAfter(e, r[0], waited) {
      InsertStable(e, r[1..], waited, first, size);
      assert ([r[0]] + Insert(e, r[1..], waited))[1..] == Insert(e, r[1..], waited);
      assert ([e] + r)[1..] == r && ([e] + r[1..])[1..] == r[1..];
    }
  }

  /** Within one priority the ranking keeps the order of arrival. */
  lemma {:induction false} RankedStable(b: seq<Waiting>, waited: set<Path>, first: bool, size: nat)
    ensures Class(Ranked(b, waited), waited, first, size) == Class(b, waited, first, size)
  {
    if b != [] {
      RankedStable(b[1..], waited, first, size);
      InsertStable(b[0], Ranked(b[1..], waited), waited, first, size);
      assert ([b[0]] + Ranked(b[1..], waited))[1..] == Ranked(b[1..], waited);
    }
  }

  lemma FirstIsHead(b: seq<Waiting>, waited: set<Path>)
    requires IsPick(b, waited, 0)
    ensures Ranked(b, waited) == [b[0]] + Ranked(b[1..], waited)
  {
    var r := Ranked(b[1..], waited);
    RankedKeeps(b[1..], waited);
    if r != [] {
      assert r[0] in multiset(r);
      assert r[0] in b[1..];
      var k :| 0 <= k < |b[1..]| && b[1..][k] == r[0];
      assert b[k + 1] == r[0];
    }
  }

  /** Taking the pick out of the backlog is taking the head off the ranking. */
  lemma {:induction false} PickIsHead(b: seq<Waiting>, waited: set<Path>, i: nat)
    requires IsPick(b, waited, i)
    ensures Ranked(b, waited) == [b[i]] + Ranked(Without(b, i), waited)
  {
    if i == 0 {
      FirstIsHead(b, waited);
      assert Without(b, 0) == b[1..];
    } else {
      var rest := b[1..];
      PickOfRest(b, waited, i);
      PickIsHead(rest, waited, i - 1);
      var r := Ranked(Without(rest, i - 1), waited);
      assert Ranked(rest, waited) == [b[i]] + r;
      assert Ranked(b, waited) == [b[i]] + Insert(b[0], r, waited);
      assert Without(b, i) == [b[0]] + Without(rest, i - 1);
      assert Without(b, i)[1..] == Without(rest, i - 1);
    }
  }

  lemma PickOfRest(b: seq<Waiting>, waited: set<Path>, i: nat)
    requires IsPick(b, waited, i) && i > 0
    ensures IsPick(b[1..], waited, i - 1) && !NotAfter(b[0], b[i], waited)
  {
    var rest := b[1..];
    forall k | 0 <= k < |rest| ensures NotAfter(rest[i - 1], rest[k], waited) { assert rest[k] == b[k + 1]; }
    forall k | 0 <= k < i - 1 ensures Before(rest[i - 1], rest[k], waited) { assert rest[k] == b[k + 1]; }
  }

  // ---------- admission ----------

  /** The table after the waiting pulls `order` were considered one by one. */
  function Admit(pending: map<Path, Job>, order: seq<Waiting>, held: set<Path>): map<Path, Job> {
    if order == [] then pending
    else
      var done := Admit(pending, order[..|order| - 1], held);
      var e := order[|order| - 1];
      if e.path in done || e.path in held then done else done[e.path := Job(e.from, e.record, 0, None)]
  }

  /** Considering the waiting pulls by rank until the table is full or none is left. */
  ghost predicate Drained(pending: map<Path, Job>, backlog: seq<Waiting>,
                          pending': map<Path, Job>, backlog': seq<Waiting>,
                          held: set<Path>, waited: set<Path>, order: seq<Waiting>) {
    Draining(pending, backlog, pending', backlog', held, waited, order)
    && (|pending'| >= MAX_CONCURRENT_PULLS || backlog' == [])
  }

  /** So far `order` was considered, each time with a free slot. */
  ghost predicate Draining(pending: map<Path, Job>, backlog: seq<Waiting>,
                           pending': map<Path, Job>, backlog': seq<Waiting>,
                           held: set<Path>, waited: set<Path>, order: seq<Waiting>) {
    && order + Ranked(backlog', waited) == Ranked(backlog, waited)
    && pending' == Admit(pending, order, held)
    && forall k :: 0 <= k < |order| ==> |Admit(pending, order[..k], held)| < MAX_CONCURRENT_PULLS
  }

  lemma {:induction false} AdmitKeeps(pending: map<Path, Job>, order: seq<Waiting>, held: set<Path>)
    ensures forall p :: p in pending ==>
              p in Admit(pending, order, held) && Admit(pending, order, held)[p] == pending[p]
    ensures forall e :: e in order ==> e.path in Admit(pending, order, held) || e.path in held
    ensures forall p :: p in Admit(pending, order, held) ==> p in pending || exists e :: e in order && e.path == p
  {
    if order != [] {
      var n := |order| - 1;
      AdmitKeeps(pending, order[..n], held);
      assert order == order[..n] + [order[n]];
      assert order[n] in order;
    }
  }

  /** No waiting pull is forgotten, and what was considered comes no later than what still waits: a path a
      lock is blocked on first, then the smaller ones. */
  lemma DrainedIsFair(pending: map<Path, Job>, backlog: seq<Waiting>, pending': map<Path, Job>, backlog': seq<Waiting>,
                      held: set<Path>, waited: set<Path>, order: seq<Waiting>)
    requires Drained(pending, backlog, pending', backlog', held, waited, order)
    ensures forall e :: e in backlog ==> e in backlog' || e.path in pending' || e.path in held
    ensures forall a, b :: a in order && b in backlog' ==>
              && (b.path in waited ==> a.path in waited)
              && ((a.path in waited <==> b.path in waited) ==> a.record.size <= b.record.size)
    ensures forall p :: p in pending' && p !in pending ==> exists a :: a in order && a.path == p
  {
    AdmitKeeps(pending, order, held);
    forall e | e in backlog ensures e in backlog' || e in order { RankedOrWaits(backlog, backlog', waited, order, e); }
    forall a, b | a in order && b in backlog'
      ensures b.path in waited ==> a.path in waited
      ensures (a.path in waited <==> b.path in waited) ==> a.record.size <= b.record.size
    {
      RankedBefore(backlog, backlog', waited, order, a, b);
      NotAfterMeans(a, b, waited);
    }
  }

  lemma RankedOrWaits(backlog: seq<Waiting>, rest: seq<Waiting>, waited: set<Path>, order: seq<Waiting>, e: Waiting)
    requires order + Ranked(rest, waited) == Ranked(backlog, waited) && e in backlog
    ensures e in rest || e in order
  {
    RankedKeeps(backlog, waited);
    RankedKeeps(rest, waited);
    assert e in multiset(Ranked(backlog, waited));
    assert e in order || e in multiset(Ranked(rest, waited));
  }

  lemma RankedBefore(backlog: seq<Waiting>, rest: seq<Waiting>, waited: set<Path>, order: seq<Waiting>, a: Waiting,
                     b: Waiting)
    requires order + Ranked(rest, waited) == Ranked(backlog, waited) && a in order && b in rest
    ensures NotAfter(a, b, waited)
  {
    var r, r' := Ranked(backlog, waited), Ranked(rest, waited);
    RankedKeeps(rest, waited);
    RankedSorted(backlog, waited);
    var i :| 0 <= i < |order| && order[i] == a;
    assert b in multiset(r');
    var k :| 0 <= k < |r'| && r'[k] == b;
    assert r[i] == a && r[|order| + k] == b;
  }

  lemma NotShorter(pending: map<Path, Job>, backlog: seq<Waiting>, held: set<Path>, waited: set<Path>,
                   p1: map<Path, Job>, b1: seq<Waiting>, o1: seq<Waiting>,
                   p2: map<Path, Job>, b2: seq<Waiting>, o2: seq<Waiting>)
    requires Drained(pending, backlog, p1, b1, held, waited, o1) && Drained(pending, backlog, p2, b2, held, waited, o2)
    ensures |o1| >= |o2|
  {
    var r := Ranked(backlog, waited);
    RankedKeeps(b1, waited);
    assert |multiset(Ranked(b1, waited))| == |multiset(b1)|;
    assert o1 == r[..|o1|];
    forall k | 0 <= k <= |o2| ensures o2[..k] == r[..k] {}
  }

  /** The outcome is unique: how many were considered is determined by the cap. */
  lemma DrainedUnique(pending: map<Path, Job>, backlog: seq<Waiting>, held: set<Path>, waited: set<Path>,
                      p1: map<Path, Job>, b1: seq<Waiting>, o1: seq<Waiting>,
                      p2: map<Path, Job>, b2: seq<Waiting>, o2: seq<Waiting>)
    requires Drained(pending, backlog, p1, b1, held, waited, o1) && Drained(pending, backlog, p2, b2, held, waited, o2)
    ensures o1 == o2 && p1 == p2
  {
    NotShorter(pending, backlog, held, waited, p1, b1, o1, p2, b2, o2);
    NotShorter(pending, backlog, held, waited, p2, b2, o2, p1, b1, o1);
    var r := Ranked(backlog, waited);
    assert o1 == r[..|o1|] && o2 == r[..|o2|];
  }

  function Considered(pending: map<Path, Job>, e: Waiting, held: set<Path>): map<Path, Job> {
    if e.path in pending || e.path in held then pending else pending[e.path := Job(e.from, e.record, 0, None)]
  }

  lemma AdmitNext(pending: map<Path, Job>, order: seq<Waiting>, e: Waiting, held: set<Path>)
    ensures Admit(pending, order + [e], held) == Considered(Admit(pending, order, held), e, held)
    ensures forall k :: 0 <= k <= |order| ==> (order + [e])[..k] == order[..k]
  {
    assert (order + [e])[..|order|] == order;
  }

  lemma DrainingNext(p0: map<Path, Job>, b0: seq<Waiting>, p: map<Path, Job>, b: seq<Waiting>,
                     held: set<Path>, waited: set<Path>, order: seq<Waiting>, i: nat)
    requires Draining(p0, b0, p, b, held, waited, order) && IsPick(b, waited, i) && |p| < MAX_CONCURRENT_PULLS
    ensures Draining(p0, b0, Considered(p, b[i], held), Without(b, i), held, waited, order + [b[i]])
  {
    PickIsHead(b, waited, i);
    AdmitNext(p0, order, b[i], held);
    assert order[..|order|] == order;
    assert order + ([b[i]] + Ranked(Without(b, i), waited)) == order + [b[i]] + Ranked(Without(b, i), waited);
  }

  // ---------- the actor's tables ----------

  ghost predicate Distinct(b: seq<Waiting>) {
    forall i, k :: 0 <= i < k < |b| ==> b[i].path != b[k].path
  }

  lemma WithoutDistinct(b: seq<Waiting>, i: nat)
    requires i < |b| && Distinct(b)
    ensures Distinct(Without(b, i))
    ensures forall k :: 0 <= k < |b| - 1 ==> Without(b, i)[k].path != b[i].path && Without(b, i)[k] in b
  {
    var w := Without(b, i);
    forall k | 0 <= k < |w| ensures w[k] == b[if k < i then k else k + 1] {}
  }

  /** `e` replaced the entry of its path, or joined at the end, or found no room. */
  ghost predicate Enqueued(b: seq<Waiting>, b': seq<Waiting>, e: Waiting) {
    if exists k :: 0 <= k < |b| && b[k].path == e.path
    then exists k :: 0 <= k < |b| && b[k].path == e.path && b' == b[k := e]
    else b' == if |b| < MAX_PULL_BACKLOG then b + [e] else b
  }

  // ---------- the resume set ----------

  /** The saved targets once the pulls of `pending` are under way: each of them under its record, and
      whatever else was saved. */
  function Targets(saved: map<Path, Record>, pending: map<Path, Job>): map<Path, Record> {
    map p | p in saved.Keys + pending.Keys :: if p in pending then pending[p].record else saved[p]
  }

  lemma TargetsTracked(saved: map<Path, Record>, pending: map<Path, Job>)
    requires forall p :: p in pending ==> p in saved && saved[p] == pending[p].record
    ensures Targets(saved, pending) == saved
  {
  }

  lemma TargetsAdd(saved: map<Path, Record>, pending: map<Path, Job>, p: Path, job: Job)
    ensures Targets(saved, pending)[p := job.record] == Targets(saved, pending[p := job])
  {
  }

  function Resumed(pulling: map<Path, Record>, pending: map<Path, Job>, e: Waiting, held: set<Path>)
    : map<Path, Record>
  {
    if e.path in pending || e.path in held then pulling else pulling[e.path := e.record]
  }

  lemma TargetsConsidered(saved: map<Path, Record>, pending: map<Path, Job>, e: Waiting, held: set<Path>)
    ensures Resumed(Targets(saved, pending), pending, e, held) == Targets(saved, Considered(pending, e, held))
  {
    TargetsAdd(saved, pending, e.path, Job(e.from, e.record, 0, None));
  }

  lemma TargetsAbsorb(saved: map<Path, Record>, p: Path, r: Record, pending: map<Path, Job>)
    requires p in pending
    ensures Targets(saved[p := r], pending) == Targets(saved, pending)
  {
  }

  lemma DrainedKeeps(p0: map<Path, Job>, b0: seq<Waiting>, p1: map<Path, Job>, b1: seq<Waiting>,
                     held: set<Path>, waited: set<Path>, order: seq<Waiting>)
    requires Drained(p0, b0, p1, b1, held, waited, order)
    ensures p0.Keys <= p1.Keys
  {
    AdmitKeeps(p0, order, held);
  }

  // ---------- the tables and what an event does to them ----------

  /** `held` are the paths leased here and `waited` those a lock is blocked on; `pulling` is saved. */
  datatype Tables = Tables(
    pending: map<Path, Job>,
    backlog: seq<Waiting>,
    pulling: map<Path, Record>,
    held: set<Path>,
    waited: set<Path>)

  ghost predicate Shaped(t: Tables) {
    && |t.pending| <= MAX_CONCURRENT_PULLS
    && |t.backlog| <= MAX_PULL_BACKLOG
    && Distinct(t.backlog)
    && (forall i :: 0 <= i < |t.backlog| ==> t.backlog[i].path !in t.pending)
  }

  /** Every pull is saved under its record, and none has failed too often. */
  ghost predicate Sane(pending: map<Path, Job>, pulling: map<Path, Record>) {
    forall p :: p in pending ==>
      p in pulling && pulling[p] == pending[p].record && pending[p].attempts < MAX_ATTEMPTS
  }

  /** Well formed, though slots may be free while pulls wait. */
  ghost predicate Loose(t: Tables) { Shaped(t) && Sane(t.pending, t.pulling) }

  /** What holds at every event boundary. */
  ghost predicate Sound(t: Tables) { Loose(t) && (t.backlog != [] ==> |t.pending| == MAX_CONCURRENT_PULLS) }

  /** The pulls once `p` is done with: a version queued meanwhile takes its slot again. */
  function Released(pending: map<Path, Job>, p: Path): map<Path, Job> {
    if p in pending && pending[p].queued.Some?
    then pending[p := Job(pending[p].queued.value.0, pending[p].queued.value.1, 0, None)]
    else pending - {p}
  }

  /** `p` is done with, and the slot goes to its queued version or to what waits; `order` was considered. */
  ghost predicate Finishes(t: Tables, p: Path, t': Tables, order: seq<Waiting>) {
    && t'.held == t.held && t'.waited == t.waited
    && Drained(Released(t.pending, p), t.backlog, t'.pending, t'.backlog, t.held, t.waited, order)
    && t'.pulling == Targets(t.pulling, t'.pending)
  }

  /** Applying a version: deferred it changes nothing; applied it leaves the resume set. */
  ghost predicate Applies(t: Tables, p: Path, outcome: Outcome, t': Tables, order: seq<Waiting>) {
    match outcome
    case Deferred => t' == t
    case Applied => Finishes(t.(pulling := t.pulling - {p}), p, t', order)
    case _ => Finishes(t, p, t', order)
  }

  /** An advertised version starts, queues behind the pull of its path, or waits for a slot. */
  ghost predicate Advertises(t: Tables, p: Path, from: Peer, record: Record, t': Tables) {
    && t'.held == t.held && t'.waited == t.waited && t'.pulling == Targets(t.pulling, t'.pending)
    && if p in t.held then t'.pending == t.pending && t'.backlog == t.backlog
       else if p in t.pending then
         var job := t.pending[p];
         && t'.backlog == t.backlog
         && t'.pending == t.pending[p := if SameVersion(job.record, record) then job
                                         else job.(queued := Some((from, record)))]
       else if |t.pending| < MAX_CONCURRENT_PULLS then
         t'.pending == t.pending[p := Job(from, record, 0, None)] && t'.backlog == t.backlog
       else t'.pending == t.pending && Enqueued(t.backlog, t'.backlog, Waiting(p, from, record))
  }

  predicate Retries(t: Tables, p: Path, connected: bool) {
    p in t.pending && t.pending[p].attempts + 1 < MAX_ATTEMPTS && connected
  }

  /** A failed pull is tried again up to five times while its peer is there; then its slot is given up. */
  ghost predicate Fails(t: Tables, p: Path, connected: bool, t': Tables, order: seq<Waiting>) {
    if Retries(t, p, connected)
    then t' == t.(pending := t.pending[p := t.pending[p].(attempts := t.pending[p].attempts + 1)])
    else Finishes(t, p, t', order)
  }

  /** On the way from `t0`, `order` was considered so far. */
  ghost predicate InDrain(t0: Tables, t: Tables, order: seq<Waiting>) {
    && t.held == t0.held && t.waited == t0.waited && t.pulling == Targets(t0.pulling, t.pending)
    && Draining(t0.pending, t0.backlog, t.pending, t.backlog, t0.held, t0.waited, order)
  }

  lemma InDrainNext(t0: Tables, t: Tables, t': Tables, order: seq<Waiting>, i: nat)
    requires InDrain(t0, t, order) && IsPick(t.backlog, t.waited, i) && |t.pending| < MAX_CONCURRENT_PULLS
    requires t' == t.(pending := Considered(t.pending, t.backlog[i], t.held), backlog := Without(t.backlog, i),
                      pulling := Resumed(t.pulling, t.pending, t.backlog[i], t.held))
    ensures InDrain(t0, t', order + [t.backlog[i]])
  {
    DrainingNext(t0.pending, t0.backlog, t.pending, t.backlog, t0.held, t0.waited, order, i);
    TargetsConsidered(t0.pulling, t.pending, t.backlog[i], t.held);
  }

  /** What one event does to the tables. */
  ghost predicate Reacts(t: Tables, e: Event, t': Tables, order: seq<Waiting>) {
    match e
    case Leases(held, waited) => t' == t.(held := held, waited := waited)
    case Advertised(p, from, record) => Advertises(t, p, from, record, t')
    case Tombstoned(p, outcome) => if p in t.held then t' == t else Applies(t, p, outcome, t', order)
    case Staged(p, outcome) => Applies(t, p, outcome, t', order)
    case PullError(p, connected) => Fails(t, p, connected, t', order)
    case _ => t' == t
  }

  datatype Outcome = Deferred | NotNewer | Applied | Failed

  datatype Event =
    | Leases(held: set<Path>, waited: set<Path>)
    | Advertised(path: Path, from: Peer, record: Record)
    | Tombstoned(path: Path, outcome: Outcome)
    | Staged(path: Path, outcome: Outcome)
    | PullError(path: Path, connected: bool)
    | Retry(path: Path)
    | Commit
    | GcFinished
    | GcTick

  class PullTable {
    var pending: map<Path, Job>
    var backlog: seq<Waiting>
    var held: set<Path>
    var waited: set<Path>
    // in-flight targets, saved with the state
    var pulling: map<Path, Record>
    var gcRunning: bool
    var gcDirty: bool
    // history: how often the state was saved, and what the latest refresh started from
    ghost var saves: nat
    ghost var refreshed: nat
    ghost var snapshot: map<Path, Record>

    /** The latest refresh saw the latest save, or another one is bound to follow. */
    ghost predicate Protected()
      reads this
    {
      (refreshed == saves && snapshot == pulling) || (gcRunning && gcDirty)
    }

    ghost function View(): Tables
      reads this
    {
      Tables(pending, backlog, pulling, held, waited)
    }

    ghost predicate Valid()
      reads this
    {
      Sound(View()) && Protected()
    }

    constructor ()
      ensures Valid() && pending == map[] && backlog == []
    {
      pending, backlog, held, waited, pulling, gcRunning, gcDirty := map[], [], {}, {}, map[], false, false;
      saves, refreshed, snapshot := 0, 0, map[];
    }

    method StartGc()
      modifies this`gcRunning, this`refreshed, this`snapshot
      ensures gcRunning && (!old(gcRunning) ==> refreshed == saves && snapshot == pulling)
      ensures old(gcRunning) ==> refreshed == old(refreshed) && snapshot == old(snapshot)
    {
      if gcRunning { return; }
      gcRunning := true;
      refreshed, snapshot := saves, pulling;
    }

    method Persist()
      modifies this`gcRunning, this`gcDirty, this`saves, this`refreshed, this`snapshot
      ensures Protected() && saves == old(saves) + 1
    {
      saves := saves + 1;
      if gcRunning { gcDirty := true; } else { StartGc(); }
    }

    method GcDone()
      requires Valid()
      modifies this`gcRunning, this`gcDirty, this`refreshed, this`snapshot
      ensures Valid() && !gcDirty && (old(gcRunning && gcDirty) ==> gcRunning)
      ensures (old(gcRunning && !gcDirty) ==> !gcRunning) && refreshed == saves && snapshot == pulling
    {
      gcRunning := false;
      var again := gcDirty;
      gcDirty := false;
      if again { StartGc(); }
    }

    method StartPull(p: Path, record: Record)
      requires Protected()
      modifies this`pulling, this`gcRunning, this`gcDirty, this`saves, this`refreshed, this`snapshot
      ensures Protected() && pulling == old(pulling)[p := record]
      ensures saves == old(saves) + if p in old(pulling) && old(pulling)[p] == record then 0 else 1
    {
      if p !in pulling || pulling[p] != record {
        pulling := pulling[p := record];
        Persist();
      } else {
        assert pulling == pulling[p := record];
      }
    }

    /** Adds or refreshes a path; at the cap a new path is dropped. */
    method Enqueue(e: Waiting)
      requires Shaped(View()) && |pending| == MAX_CONCURRENT_PULLS && e.path !in pending
      modifies this`backlog
      ensures Shaped(View()) && Enqueued(old(backlog), backlog, e)
    {
      var k := 0;
      while k < |backlog|
        invariant k <= |backlog| && backlog == old(backlog)
        invariant forall i :: 0 <= i < k ==> backlog[i].path != e.path
      {
        if backlog[k].path == e.path {
          backlog := backlog[k := e];
          return;
        }
        k := k + 1;
      }
      if |backlog| < MAX_PULL_BACKLOG { backlog := backlog + [e]; }
    }

    method Pick() returns (best: Option<nat>)
      ensures best.None? <==> backlog == []
      ensures best.Some? ==> IsPick(backlog, waited, best.value)
    {
      if backlog == [] { return None; }
      var b, i := 0, 1;
      while i < |backlog|
        invariant 0 <= b < i <= |backlog| && IsPick(backlog[..i], waited, b)
      {
        if Before(backlog[i], backlog[b], waited) { b := i; }
        i := i + 1;
      }
      assert backlog[..i] == backlog;
      return Some(b);
    }

    method Consider(i: nat)
      requires Loose(View()) && Protected() && i < |backlog| && |pending| < MAX_CONCURRENT_PULLS
      modifies this`pending, this`backlog, this`pulling
      modifies this`gcRunning, this`gcDirty, this`saves, this`refreshed, this`snapshot
      ensures Loose(View()) && Protected()
      ensures backlog == Without(old(backlog), i) && pending == Considered(old(pending), old(backlog)[i], held)
      ensures pulling == Resumed(old(pulling), old(pending), old(backlog)[i], held)
    {
      var e := backlog[i];
      WithoutDistinct(backlog, i);
      backlog := Without(backlog, i);
      if e.path in pending || e.path in held { return; }
      pending := pending[e.path := Job(e.from, e.record, 0, None)];
      StartPull(e.path, e.record);
    }

    method Drain() returns (ghost order: seq<Waiting>)
      requires Loose(View()) && Protected()
      modifies this`pending, this`backlog, this`pulling
      modifies this`gcRunning, this`gcDirty, this`saves, this`refreshed, this`snapshot
      ensures Valid() && pulling == Targets(old(pulling), pending)
      ensures Drained(old(pending), old(backlog), pending, backlog, held, waited, order)
    {
      order := [];
      TargetsTracked(pulling, pending);
      while |pending| < MAX_CONCURRENT_PULLS
        invariant Loose(View()) && Protected() && InDrain(old(View()), View(), order)
        decreases |backlog|
      {
        var best := Pick();
        if best.None? { break; }
        ghost var t := View();
        Consider(best.value);
        InDrainNext(old(View()), t, View(), order, best.value);
        order := order + [t.backlog[best.value]];
      }
    }

    method Release(p: Path)
      requires Shaped(View()) && Protected() && Sane(pending - {p}, pulling)
      modifies this`pending, this`pulling
      modifies this`gcRunning, this`gcDirty, this`saves, this`refreshed, this`snapshot
      ensures Loose(View()) && Protected() && pending == Released(old(pending), p)
      ensures pulling == if p in pending then old(pulling)[p := pending[p].record] else old(pulling)
    {
      if p in pending {
        var job := pending[p];
        if job.queued.Some? {
          var (from, record) := job.queued.value;
          pending := pending[p := Job(from, record, 0, None)];
          StartPull(p, record);
        } else {
          pending := pending - {p};
        }
      }
      assert pending == Released(old(pending), p);
    }

    method FinishPull(p: Path) returns (ghost order: seq<Waiting>)
      requires Shaped(View()) && Protected() && Sane(pending - {p}, pulling)
      modifies this`pending, this`backlog, this`pulling
      modifies this`gcRunning, this`gcDirty, this`saves, this`refreshed, this`snapshot
      ensures Valid() && Finishes(old(View()), p, View(), order)
    {
      ghost var t := View();
      Release(p);
      ghost var freed, saved := pending, pulling;
      order := Drain();
      DrainedKeeps(freed, t.backlog, pending, backlog, held, waited, order);
      if p in freed { TargetsAbsorb(t.pulling, p, saved[p], pending); }
    }

    /** What applying a remote version does to the tables. */
    method OnApplied(p: Path, outcome: Outcome) returns (ghost order: seq<Waiting>)
      requires Valid()
      modifies this`pending, this`backlog, this`pulling
      modifies this`gcRunning, this`gcDirty, this`saves, this`refreshed, this`snapshot
      ensures Valid() && Applies(old(View()), p, outcome, View(), order)
    {
      order := [];
      if outcome.Deferred? { return; }
      if outcome.Applied? {
        pulling := pulling - {p};
        Persist();
      }
      order := FinishPull(p);
    }

    method MaybePull(p: Path, from: Peer, record: Record)
      requires Valid()
      modifies this`pending, this`backlog, this`pulling
      modifies this`gcRunning, this`gcDirty, this`saves, this`refreshed, this`snapshot
      ensures Valid() && Advertises(old(View()), p, from, record, View())
    {
      TargetsTracked(pulling, pending);
      if p in held { return; }
      if p in pending {
        QueueBehind(p, from, record);
        return;
      }
      if |pending| >= MAX_CONCURRENT_PULLS {
        Enqueue(Waiting(p, from, record));
        return;
      }
      TargetsAdd(pulling, pending, p, Job(from, record, 0, None));
      pending := pending[p := Job(from, record, 0, None)];
      StartPull(p, record);
    }

    /** A newer version waits behind the pull of its own path, in the place of an earlier one. */
    method QueueBehind(p: Path, from: Peer, record: Record)
      requires Valid() && p in pending
      modifies this`pending
      ensures Valid() && pulling == Targets(pulling, pending)
      ensures var job := old(pending)[p];
              pending == old(pending)[p := if SameVersion(job.record, record) then job
                                           else job.(queued := Some((from, record)))]
    {
      var job := pending[p];
      if SameVersion(job.record, record) {
        assert pending == pending[p := job];
      } else {
        pending := pending[p := job.(queued := Some((from, record)))];
      }
      TargetsTracked(pulling, pending);
    }

    method OnPullError(p: Path, connected: bool) returns (retry: bool, ghost order: seq<Waiting>)
      requires Valid()
      modifies this`pending, this`backlog, this`pulling
      modifies this`gcRunning, this`gcDirty, this`saves, this`refreshed, this`snapshot
      ensures Valid() && Fails(old(View()), p, connected, View(), order)
      ensures retry <==> Retries(old(View()), p, connected)
    {
      retry, order := false, [];
      ghost var t := View();
      if p in pending {
        var job := pending[p];
        pending := pending[p := job.(attempts := job.attempts + 1)];
        retry := job.attempts + 1 < MAX_ATTEMPTS && connected;
      }
      if !retry {
        ReleasedAlike(t.pending, pending, p);
        order := FinishPull(p);
      }
    }

    method OnRetry(p: Path)
      requires Valid()
      modifies this`pulling, this`gcRunning, this`gcDirty, this`saves, this`refreshed, this`snapshot
      ensures Valid() && pulling == old(pulling)
    {
      if p in pending {
        StartPull(p, pending[p].record);
      }
    }

    /** One event, as the actor routes it. */
    method React(e: Event) returns (ghost order: seq<Waiting>)
      requires Valid()
      modifies this
      ensures Valid() && Reacts(old(View()), e, View(), order)
    {
      order := [];
      match e {
        case Leases(h, w) => Relock(h, w);
        case Advertised(p, from, record) => MaybePull(p, from, record);
        case Tombstoned(p, outcome) => if p !in held { order := OnApplied(p, outcome); }
        case Staged(p, outcome) => order := OnApplied(p, outcome);
        case PullError(p, connected) => var _, o := OnPullError(p, connected); order := o;
        case Retry(p) => OnRetry(p);
        case Commit => Persist();
        case GcFinished => GcDone();
        case GcTick => StartGc();
      }
    }

    method Relock(h: set<Path>, w: set<Path>)
      requires Valid()
      modifies this`held, this`waited
      ensures Valid() && held == h && waited == w
    {
      held, waited := h, w;
    }

    /** The tables so far, up to the present. */
    ghost predicate Traced(trace: seq<Tables>, events: seq<Event>)
      reads this
    {
      IsTrace(trace, events) && trace[|events|] == View()
    }

    method Turn(events: seq<Event>, i: nat, ghost trace: seq<Tables>) returns (ghost trace': seq<Tables>)
      requires Valid() && i < |events| && Traced(trace, events[..i])
      modifies this
      ensures Valid() && Traced(trace', events[..i + 1]) && |trace'| > 0 && trace'[0] == trace[0]
    {
      assert events[..i + 1] == events[..i] + [events[i]];
      var order := React(events[i]);
      TraceNext(trace, events[..i], events[i], View(), order);
      trace' := trace + [View()];
    }

    /** The actor's loop: whatever events arrive, in whatever order, each does to the tables what it should
        and leaves them sound, with the protected set up to date or due. */
    method Serve(events: seq<Event>) returns (ghost trace: seq<Tables>)
      requires Valid()
      modifies this
      ensures Valid() && Traced(trace, events) && trace[0] == old(View())
    {
      trace := [View()];
      for i := 0 to |events|
        invariant Valid() && Traced(trace, events[..i]) && |trace| > 0 && trace[0] == old(View())
      {
        trace := Turn(events, i, trace);
      }
      assert events[..|events|] == events;
    }
  }

  lemma ReleasedAlike(a: map<Path, Job>, b: map<Path, Job>, p: Path)
    requires p in a <==> p in b
    requires p in a ==> b[p].queued == a[p].queued && b == a[p := b[p]]
    requires p !in a ==> a == b
    ensures Released(a, p) == Released(b, p)
  {
  }

  // ---------- whole runs ----------

  ghost predicate Follows(t: Tables, e: Event, t': Tables) { exists order :: Reacts(t, e, t', order) }

  /** The tables between the events of a run. */
  ghost predicate IsTrace(trace: seq<Tables>, events: seq<Event>) {
    && |trace| == |events| + 1
    && (forall i :: 0 <= i < |trace| ==> Sound(trace[i]))
    && forall i :: 0 <= i < |events| ==> Follows(trace[i], events[i], trace[i + 1])
  }

  lemma TraceNext(trace: seq<Tables>, events: seq<Event>, e: Event, t: Tables, order: seq<Waiting>)
    requires IsTrace(trace, events) && Sound(t) && Reacts(trace[|events|], e, t, order)
    ensures IsTrace(trace + [t], events + [e])
  {
    var trace', events' := trace + [t], events + [e];
    forall i | 0 <= i < |events'| ensures Follows(trace'[i], events'[i], trace'[i + 1]) {
      if i < |events| {
        assert trace'[i] == trace[i] && trace'[i + 1] == trace[i + 1] && events'[i] == events[i];
      }
    }
  }

  predicate Waits(b: seq<Waiting>, p: Path) { exists e :: e in b && e.path == p }

  /** A path that waits goes on waiting, is admitted, or is leased here when its turn comes. */
  lemma WaitingStays(t: Tables, e: Event, t': Tables, order: seq<Waiting>, p: Path)
    requires Sound(t) && Reacts(t, e, t', order) && Waits(t.backlog, p)
    ensures Waits(t'.backlog, p) || p in t'.pending || p in t'.held
  {
    var w :| w in t.backlog && w.path == p;
    match e
    case Advertised(q, from, record) => EnqueuedKeeps(t.backlog, t'.backlog, Waiting(q, from, record), p);
    case Tombstoned(q, outcome) => if q !in t.held && !outcome.Deferred? { FinishKeeps(t, q, t', order, w); }
    case Staged(q, outcome) => if !outcome.Deferred? { FinishKeeps(t, q, t', order, w); }
    case PullError(q, connected) => if !Retries(t, q, connected) { FinishKeeps(t, q, t', order, w); }
    case _ =>
  }

  lemma EnqueuedKeeps(b: seq<Waiting>, b': seq<Waiting>, e: Waiting, p: Path)
    requires Waits(b, p) && (b' == b || Enqueued(b, b', e))
    ensures Waits(b', p)
  {
    var w :| w in b && w.path == p;
    var i :| 0 <= i < |b| && b[i] == w;
    if b' != b {
      assert i < |b'| && b'[i].path == p;
      assert b'[i] in b';
    }
  }

  lemma FinishKeeps(t: Tables, q: Path, t': Tables, order: seq<Waiting>, w: Waiting)
    requires w in t.backlog && t'.held == t.held
    requires Drained(Released(t.pending, q), t.backlog, t'.pending, t'.backlog, t.held, t.waited, order)
    ensures Waits(t'.backlog, w.path) || w.path in t'.pending || w.path in t'.held
  {
    DrainedIsFair(Released(t.pending, q), t.backlog, t'.pending, t'.backlog, t.held, t.waited, order);
  }

  /** No waiting pull is ever dropped: in every run a path that waits at `i` still waits at `k`, unless it was
      admitted or leased here in between. */
  lemma {:induction false} NeverForgotten(trace: seq<Tables>, events: seq<Event>, i: nat, k: nat, p: Path)
    requires IsTrace(trace, events) && i <= k <= |events| && Waits(trace[i].backlog, p)
    ensures Waits(trace[k].backlog, p) || exists j :: i < j <= k && (p in trace[j].pending || p in trace[j].held)
  {
    if i < k {
      NeverForgotten(trace, events, i, k - 1, p);
      if Waits(trace[k - 1].backlog, p) {
        assert Follows(trace[k - 1], events[k - 1], trace[k - 1 + 1]);
        var order :| Reacts(trace[k - 1], events[k - 1], trace[k - 1 + 1], order);
        WaitingStays(trace[k - 1], events[k - 1], trace[k], order, p);
      }
    }
  }

  /** An advertised version of a path not leased here is never ignored: it is being pulled, waits behind the
      pull of its path or waits for a slot, unless the backlog is full; and no other path is disturbed. */
  lemma AdvertisedIsTaken(t: Tables, p: Path, from: Peer, record: Record, t': Tables)
    requires Sound(t) && Advertises(t, p, from, record, t') && p !in t.held
    ensures || (p in t'.pending && t'.pending[p].queued == Some((from, record)))
            || (p in t'.pending && t'.pending[p].record.manifest == record.manifest
                && t'.pending[p].record.version == record.version)
            || Waiting(p, from, record) in t'.backlog
            || (|t.backlog| == MAX_PULL_BACKLOG && !Waits(t.backlog, p) && t'.backlog == t.backlog)
    ensures p !in t.pending && |t.pending| < MAX_CONCURRENT_PULLS ==>
              p in t'.pending && t'.pending[p] == Job(from, record, 0, None)
    ensures forall q :: q != p ==> (Waits(t'.backlog, q) <==> Waits(t.backlog, q))
    ensures t'.pending - {p} == t.pending - {p}
  {
    if t'.backlog != t.backlog {
      OthersWait(t.backlog, t'.backlog, Waiting(p, from, record));
    } else if p !in t.pending && |t.pending| >= MAX_CONCURRENT_PULLS {
      NoRoom(t.backlog, Waiting(p, from, record));
    }
    if p in t.pending { OthersPull(t.pending, p, t'.pending[p]); }
    else if |t.pending| < MAX_CONCURRENT_PULLS { OthersPull(t.pending, p, Job(from, record, 0, None)); }
  }

  lemma OthersPull(pending: map<Path, Job>, p: Path, job: Job)
    ensures pending[p := job] - {p} == pending - {p}
  {
  }

  lemma OthersWait(b: seq<Waiting>, b': seq<Waiting>, e: Waiting)
    requires Enqueued(b, b', e) && b' != b
    ensures e in b' && forall q :: q != e.path ==> (Waits(b', q) <==> Waits(b, q))
  {
    if exists k :: 0 <= k < |b| && b[k].path == e.path {
      var k :| 0 <= k < |b| && b[k].path == e.path && b' == b[k := e];
      assert b'[k] == e;
      forall w | w in b && w.path != e.path ensures w in b' {
        var i :| 0 <= i < |b| && b[i] == w;
        assert b'[i] == w;
      }
    } else {
      assert b' == b + [e];
    }
  }

  lemma NoRoom(b: seq<Waiting>, e: Waiting)
    requires Enqueued(b, b, e) && |b| <= MAX_PULL_BACKLOG
    ensures e in b || (|b| == MAX_PULL_BACKLOG && !Waits(b, e.path))
  {
    if exists k :: 0 <= k < |b| && b[k].path == e.path {
      var k :| 0 <= k < |b| && b[k].path == e.path && b == b[k := e];
      assert b[k] == e;
    }
  }

  // ---------- failures ----------

  /** How often the pull of `p` fails. */
  function Failures(events: seq<Event>, p: Path): nat {
    if events == [] then 0
    else Failures(events[..|events| - 1], p)
         + if events[|events| - 1].PullError? && events[|events| - 1].path == p then 1 else 0
  }

  /** `p` is not pulled and does not wait, or is pulled with nothing queued and has failed `n` times. */
  ghost predicate Spent(t: Tables, p: Path, n: nat) {
    !Waits(t.backlog, p) && (p in t.pending ==> t.pending[p].queued.None? && t.pending[p].attempts >= n)
  }

  lemma StillSpent(t: Tables, e: Event, t': Tables, order: seq<Waiting>, p: Path, n: nat)
    requires Sound(t) && Reacts(t, e, t', order) && Spent(t, p, n) && !(e.Advertised? && e.path == p)
    ensures Spent(t', p, if e.PullError? && e.path == p then n + 1 else n)
  {
    match e
    case Advertised(q, from, record) => NotEnqueued(t.backlog, t'.backlog, Waiting(q, from, record), p);
    case Tombstoned(q, outcome) => if q !in t.held && !outcome.Deferred? { FinishSpent(t, q, t', order, p, n); }
    case Staged(q, outcome) => if !outcome.Deferred? { FinishSpent(t, q, t', order, p, n); }
    case PullError(q, connected) => if !Retries(t, q, connected) { FinishSpent(t, q, t', order, p, n); }
    case _ =>
  }

  lemma NotEnqueued(b: seq<Waiting>, b': seq<Waiting>, e: Waiting, p: Path)
    requires !Waits(b, p) && e.path != p && (b' == b || Enqueued(b, b', e))
    ensures !Waits(b', p)
  {
    forall w | w in b' ensures w.path != p {
      assert w in b || w == e;
    }
  }

  lemma FinishSpent(t: Tables, q: Path, t': Tables, order: seq<Waiting>, p: Path, n: nat)
    requires Spent(t, p, n)
    requires Drained(Released(t.pending, q), t.backlog, t'.pending, t'.backlog, t.held, t.waited, order)
    ensures Spent(t', p, n) && (q == p ==> p !in t'.pending)
  {
    RankedKeeps(t.backlog, t.waited);
    RankedKeeps(t'.backlog, t.waited);
    var r, r' := Ranked(t.backlog, t.waited), Ranked(t'.backlog, t.waited);
    forall w | w in order || w in t'.backlog ensures w.path != p {
      assert w in multiset(r') ==> w in r';
      assert w in r;
      assert w in multiset(r);
    }
    AdmitKeeps(Released(t.pending, q), order, t.held);
  }

  /** A pull that fails five times is over, and its slot with it, however many other events come between: as
      long as its path is not advertised anew, it is neither pulled nor waiting any more. */
  lemma {:induction false} FiveFailuresEndIt(trace: seq<Tables>, events: seq<Event>, p: Path)
    requires IsTrace(trace, events) && p in trace[0].pending && trace[0].pending[p].queued.None?
    requires forall i :: 0 <= i < |events| ==> !(events[i].Advertised? && events[i].path == p)
    ensures Failures(events, p) >= MAX_ATTEMPTS ==>
              p !in trace[|events|].pending && !Waits(trace[|events|].backlog, p)
  {
    assert !Waits(trace[0].backlog, p) by {
      forall w | w in trace[0].backlog ensures w.path != p {
        var i :| 0 <= i < |trace[0].backlog| && trace[0].backlog[i] == w;
      }
    }
    SpentOfTrace(trace, events, p);
  }

  /** Only failures happen to the pull of `p`, each with its peer there. */
  ghost predicate OnlyFails(events: seq<Event>, p: Path) {
    forall i :: 0 <= i < |events| && About(events[i], p) ==> events[i] == PullError(p, true)
  }

  predicate About(e: Event, p: Path) {
    (e.Advertised? || e.Tombstoned? || e.Staged? || e.PullError?) && e.path == p
  }

  /** And it is not given up earlier: a new pull to which nothing but failures happen is under way exactly as
      long as fewer than five have. */
  lemma {:induction false} RetriedFourTimes(trace: seq<Tables>, events: seq<Event>, p: Path)
    requires IsTrace(trace, events) && OnlyFails(events, p)
    requires p in trace[0].pending && trace[0].pending[p].attempts == 0 && trace[0].pending[p].queued.None?
    ensures p in trace[|events|].pending <==> Failures(events, p) < MAX_ATTEMPTS
    ensures p in trace[|events|].pending ==> trace[|events|].pending[p].attempts == Failures(events, p)
                                             && trace[|events|].pending[p].record == trace[0].pending[p].record
  {
    FiveFailuresEndIt(trace, events, p);
    if events != [] {
      var n := |events| - 1;
      RetriedFourTimes(trace[..n + 1], events[..n], p);
      assert Follows(trace[n], events[n], trace[n + 1]);
      var order :| Reacts(trace[n], events[n], trace[n + 1], order);
      if p in trace[n].pending { PullGoesOn(trace[n], events[n], trace[n + 1], order, p); }
    }
  }

  lemma PullGoesOn(t: Tables, e: Event, t': Tables, order: seq<Waiting>, p: Path)
    requires Sound(t) && Reacts(t, e, t', order) && p in t.pending
    requires About(e, p) ==> e == PullError(p, true)
    ensures e == PullError(p, true) && t.pending[p].attempts + 1 < MAX_ATTEMPTS ==>
              p in t'.pending && t'.pending[p] == t.pending[p].(attempts := t.pending[p].attempts + 1)
    ensures e != PullError(p, true) ==> p in t'.pending && t'.pending[p] == t.pending[p]
  {
    match e
    case Tombstoned(q, outcome) =>
      if q !in t.held && !outcome.Deferred? {
        SlotIsFilled(if outcome.Applied? then t.(pulling := t.pulling - {q}) else t, q, t', order);
      }
    case Staged(q, outcome) =>
      if !outcome.Deferred? {
        SlotIsFilled(if outcome.Applied? then t.(pulling := t.pulling - {q}) else t, q, t', order);
      }
    case PullError(q, connected) => if !Retries(t, q, connected) { SlotIsFilled(t, q, t', order); }
    case _ =>
  }

  lemma {:induction false} SpentOfTrace(trace: seq<Tables>, events: seq<Event>, p: Path)
    requires IsTrace(trace, events) && Spent(trace[0], p, 0)
    requires forall i :: 0 <= i < |events| ==> !(events[i].Advertised? && events[i].path == p)
    ensures Spent(trace[|events|], p, Failures(events, p))
  {
    if events != [] {
      var n := |events| - 1;
      SpentOfTrace(trace[..n + 1], events[..n], p);
      assert Follows(trace[n], events[n], trace[n + 1]);
      var order :| Reacts(trace[n], events[n], trace[n + 1], order);
      StillSpent(trace[n], events[n], trace[n + 1], order, p, Failures(events[..n], p));
    }
  }

  /** The slot a pull gives up is filled at once if anything waits for one. */
  lemma SlotIsFilled(t: Tables, p: Path, t': Tables, order: seq<Waiting>)
    requires Finishes(t, p, t', order)
    ensures t'.backlog == [] || |t'.pending| >= MAX_CONCURRENT_PULLS
    ensures p in t.pending && t.pending[p].queued.Some? ==>
              p in t'.pending && t'.pending[p].attempts == 0 && t'.pending[p].record == t.pending[p].queued.value.1
              && t'.pending[p].from == t.pending[p].queued.value.0
    ensures forall q :: q in t.pending && q != p ==> q in t'.pending && t'.pending[q] == t.pending[q]
  {
    ReleasedKeeps(t.pending, p);
    AdmitKeeps(Released(t.pending, p), order, t.held);
  }

  lemma ReleasedKeeps(pending: map<Path, Job>, p: Path)
    ensures forall q :: q in pending && q != p ==> q in Released(pending, p) && Released(pending, p)[q] == pending[q]
  {
  }
}
