/** Sharded indexes: a sender splits an index too large for one frame into numbered parts, the
    receiver stages them per peer and commits the whole with the last one. */
module IndexParts {
  import opened Common

  type Peer = nat
  type RawPath = nat
  type Path = nat
  type Lease = nat

  /** A record: the number of entries of its version vector, and the rest of it. */
  datatype Record = Record(versions: nat, content: nat)

  datatype Entry = Entry(path: RawPath, record: Record)

  datatype Part = Part(number: nat, last: bool, files: seq<Entry>, leases: seq<Lease>)

  const MAX_FRAME := 4 * 1024 * 1024
  const INDEX_PART_BUDGET := MAX_FRAME - 256 * 1024
  const ENVELOPE := 256
  const MAX_INDEX_PARTS := 4096
  const MAX_INDEX_ENTRIES := 262144
  const MAX_VV_ENTRIES := 4096

  /** The path sanitizer: the clean path, or a refusal. */
  type Sanitizer = RawPath -> Option<Path>

  // ---------- the receiver ----------

  datatype Stage = Stage(next: nat, files: map<Path, Record>)

  /** What a node holds about one peer. */
  datatype Side = Side(
    connected: bool,
    staging: Option<Stage>,
    index: Option<map<Path, Record>>,
    received: bool,
    leases: seq<Lease>)

  function AcceptOne(m: map<Path, Record>, e: Entry, clean: Sanitizer): map<Path, Record> {
    if e.record.versions > MAX_VV_ENTRIES || clean(e.path).None? then m else m[clean(e.path).value := e.record]
  }

  function Accept(m: map<Path, Record>, files: seq<Entry>, clean: Sanitizer): map<Path, Record> {
    if files == [] then m
    else AcceptOne(Accept(m, files[..|files| - 1], clean), files[|files| - 1], clean)
  }

  function Staged(v: Side): Stage {
    if v.staging.Some? then v.staging.value else Stage(0, map[])
  }

  /** Out of order, one too many, or too large. */
  predicate Bad(stage: Stage, part: Part) {
    part.number != stage.next || part.number >= MAX_INDEX_PARTS || |stage.files| + |part.files| > MAX_INDEX_ENTRIES
  }

  function Committed(v: Side, m: map<Path, Record>, leases: seq<Lease>): Side {
    v.(staging := None, index := Some(m), received := true, leases := v.leases + leases)
  }

  function Dropped(v: Side): Side { v.(connected := false, staging := None) }

  function OnPart(v: Side, part: Part, clean: Sanitizer): Side {
    if !v.connected then v
    else if Bad(Staged(v), part) then Dropped(v)
    else
      var m := Accept(Staged(v).files, part.files, clean);
      if part.last then Committed(v, m, part.leases) else v.(staging := Some(Stage(part.number + 1, m)))
  }

  function OnWhole(v: Side, files: seq<Entry>, leases: seq<Lease>, clean: Sanitizer): Side {
    if v.connected then Committed(v, Accept(map[], files, clean), leases) else v
  }

  function OnGone(v: Side): Side {
    if v.connected then v.(connected := false, staging := None, index := None, received := false) else v
  }

  function OnAuthed(v: Side): Side { v.(connected := true) }

  function OnParts(v: Side, parts: seq<Part>, clean: Sanitizer): Side {
    if parts == [] then v
    else OnPart(OnParts(v, parts[..|parts| - 1], clean), parts[|parts| - 1], clean)
  }

  function Files(parts: seq<Part>): seq<Entry> {
    if parts == [] then [] else Files(parts[..|parts| - 1]) + parts[|parts| - 1].files
  }

  lemma {:induction false} AcceptSplit(m: map<Path, Record>, a: seq<Entry>, b: seq<Entry>, clean: Sanitizer)
    ensures Accept(Accept(m, a, clean), b, clean) == Accept(m, a + b, clean)
  {
    if b == [] {
      assert a + b == a;
    } else {
      var n := |b| - 1;
      AcceptSplit(m, a, b[..n], clean);
      assert (a + b)[..|a + b| - 1] == a + b[..n];
    }
  }

  lemma {:induction false} AcceptSmall(m: map<Path, Record>, files: seq<Entry>, clean: Sanitizer)
    ensures |Accept(m, files, clean)| <= |m| + |files|
  {
    if files != [] { AcceptSmall(m, files[..|files| - 1], clean); }
  }

  /** The entry is a record of `p` that a receiver takes. */
  predicate Takes(e: Entry, p: Path, clean: Sanitizer) {
    clean(e.path) == Some(p) && e.record.versions <= MAX_VV_ENTRIES
  }

  /** The entry at `k` is the last of `p` in the list that a receiver takes. */
  ghost predicate LastAt(files: seq<Entry>, p: Path, k: nat, clean: Sanitizer) {
    && k < |files| && Takes(files[k], p, clean)
    && forall j :: k < j < |files| ==> !Takes(files[j], p, clean)
  }

  ghost predicate LastTaken(files: seq<Entry>, p: Path, r: Record, clean: Sanitizer) {
    exists k: nat :: LastAt(files, p, k, clean) && files[k].record == r
  }

  ghost predicate NoneTaken(files: seq<Entry>, p: Path, clean: Sanitizer) {
    forall k :: 0 <= k < |files| ==> !Takes(files[k], p, clean)
  }

  /** What a receiver holds afterwards: of every path the last acceptable record it was sent, and of a path
      it was sent none the one it held. */
  lemma {:induction false} AcceptedExactly(m: map<Path, Record>, files: seq<Entry>, p: Path, r: Record,
                                           clean: Sanitizer)
    ensures p in Accept(m, files, clean) && Accept(m, files, clean)[p] == r
            <==> LastTaken(files, p, r, clean) || (NoneTaken(files, p, clean) && p in m && m[p] == r)
  {
    if files != [] {
      var n := |files| - 1;
      AcceptedExactly(m, files[..n], p, r, clean);
      if Takes(files[n], p, clean) {
        assert LastAt(files, p, n, clean);
      } else {
        LastAtBefore(files, p, clean);
        SameLast(files, p, r, clean);
      }
    }
  }

  lemma SameLast(files: seq<Entry>, p: Path, r: Record, clean: Sanitizer)
    requires files != []
    requires forall k: nat :: LastAt(files, p, k, clean) <==> LastAt(files[..|files| - 1], p, k, clean)
    ensures LastTaken(files, p, r, clean) <==> LastTaken(files[..|files| - 1], p, r, clean)
  {
    if LastTaken(files, p, r, clean) {
      var k: nat :| LastAt(files, p, k, clean) && files[k].record == r;
      assert LastAt(files[..|files| - 1], p, k, clean);
    }
  }

  lemma LastAtBefore(files: seq<Entry>, p: Path, clean: Sanitizer)
    requires files != [] && !Takes(files[|files| - 1], p, clean)
    ensures forall k: nat :: LastAt(files, p, k, clean) <==> LastAt(files[..|files| - 1], p, k, clean)
    ensures NoneTaken(files, p, clean) <==> NoneTaken(files[..|files| - 1], p, clean)
  {
    var front := files[..|files| - 1];
    assert forall j :: 0 <= j < |front| ==> front[j] == files[j];
    forall k: nat ensures LastAt(files, p, k, clean) <==> LastAt(front, p, k, clean) {
      if LastAt(front, p, k, clean) {
        forall j | k < j < |files| ensures !Takes(files[j], p, clean) {
          assert j < |front| ==> !Takes(front[j], p, clean);
        }
      }
    }
  }

  // ---------- streams of parts ----------

  /** Only the final part says it is the last. */
  ghost predicate Stream(parts: seq<Part>) {
    parts != [] && forall i :: 0 <= i < |parts| ==> (parts[i].last <==> i == |parts| - 1)
  }

  /** What is staged after the first `k` parts. */
  ghost function Ahead(stage: Stage, parts: seq<Part>, k: nat, clean: Sanitizer): Stage
    requires k <= |parts|
  {
    Stage(stage.next + k, Accept(stage.files, Files(parts[..k]), clean))
  }

  ghost predicate Fine(stage: Stage, parts: seq<Part>, i: nat, clean: Sanitizer)
    requires i < |parts|
  {
    !Bad(Ahead(stage, parts, i, clean), parts[i])
  }

  ghost predicate FineUpTo(stage: Stage, parts: seq<Part>, k: nat, clean: Sanitizer)
    requires k <= |parts|
  {
    forall i :: 0 <= i < k ==> Fine(stage, parts, i, clean)
  }

  /** Every part comes in its place and within the bounds. */
  ghost predicate Good(stage: Stage, parts: seq<Part>, clean: Sanitizer) {
    FineUpTo(stage, parts, |parts|, clean)
  }

  /** Where the receiver stands after the first `k` parts. */
  ghost function Standing(v: Side, parts: seq<Part>, k: nat, clean: Sanitizer): Side
    requires k <= |parts|
  {
    if !FineUpTo(Staged(v), parts, k, clean) then Dropped(v)
    else if k == 0 then v
    else v.(staging := Some(Ahead(Staged(v), parts, k, clean)))
  }

  /** One more part, not yet the last. */
  lemma StandingNext(v: Side, parts: seq<Part>, k: nat, clean: Sanitizer)
    requires v.connected && k < |parts| && !parts[k].last
    ensures OnPart(Standing(v, parts, k, clean), parts[k], clean) == Standing(v, parts, k + 1, clean)
  {
    FineNext(Staged(v), parts, k, clean);
    assert Ahead(Staged(v), parts, 0, clean) == Staged(v);
  }

  lemma FineNext(stage: Stage, parts: seq<Part>, k: nat, clean: Sanitizer)
    requires k < |parts|
    ensures FineUpTo(stage, parts, k + 1, clean) <==> FineUpTo(stage, parts, k, clean) && Fine(stage, parts, k, clean)
    ensures Ahead(stage, parts, k + 1, clean).files
            == Accept(Ahead(stage, parts, k, clean).files, parts[k].files, clean)
  {
    assert parts[..k + 1][..k] == parts[..k];
    AcceptSplit(stage.files, Files(parts[..k]), parts[k].files, clean);
  }

  lemma {:induction false} AfterParts(v: Side, parts: seq<Part>, k: nat, clean: Sanitizer)
    requires v.connected && Stream(parts) && k < |parts|
    ensures OnParts(v, parts[..k], clean) == Standing(v, parts, k, clean)
  {
    if k > 0 {
      AfterParts(v, parts, k - 1, clean);
      assert parts[..k][..k - 1] == parts[..k - 1];
      StandingNext(v, parts, k - 1, clean);
    }
  }

  /** Any stream that goes on from what is staged commits exactly the accepted records of both, with the
      leases of its last part; any other stream costs the connection and commits nothing. */
  lemma {:induction false} StreamCommits(v: Side, parts: seq<Part>, clean: Sanitizer)
    requires v.connected && Stream(parts)
    ensures OnParts(v, parts, clean)
            == if Good(Staged(v), parts, clean)
               then Committed(v, Accept(Staged(v).files, Files(parts), clean), parts[|parts| - 1].leases)
               else Dropped(v)
  {
    var n := |parts| - 1;
    AfterParts(v, parts, n, clean);
    FineNext(Staged(v), parts, n, clean);
    assert Ahead(Staged(v), parts, 0, clean) == Staged(v);
    assert parts[..n + 1] == parts;
  }

  // ---------- what a replaced connection leaves staged ----------

  /** What is staged goes on from a first part. */
  predicate Begun(v: Side) { v.staging.Some? ==> v.staging.value.next > 0 }

  /** A stream numbered from the beginning commits as a single-frame index does if and only if nothing is
      staged and its parts are in place and within bounds; anything staged costs the connection. */
  lemma {:induction false} FreshStreamCommits(v: Side, parts: seq<Part>, clean: Sanitizer)
    requires v.connected && Begun(v) && Stream(parts) && parts[0].number == 0
    ensures OnParts(v, parts, clean) == OnWhole(v, Files(parts), parts[|parts| - 1].leases, clean)
            <==> v.staging.None? && Good(Stage(0, map[]), parts, clean)
    ensures v.staging.Some? || !Good(Stage(0, map[]), parts, clean) ==> OnParts(v, parts, clean) == Dropped(v)
  {
    StreamCommits(v, parts, clean);
    if v.staging.Some? {
      assert Ahead(Staged(v), parts, 0, clean) == Staged(v);
      assert !Fine(Staged(v), parts, 0, clean);
    }
  }

  /** Numbers in order and counts within the bounds are enough. */
  lemma RoomSuffices(parts: seq<Part>, clean: Sanitizer)
    requires |parts| <= MAX_INDEX_PARTS && |Files(parts)| <= MAX_INDEX_ENTRIES
    requires forall i :: 0 <= i < |parts| ==> parts[i].number == i
    ensures Good(Stage(0, map[]), parts, clean)
  {
    forall i | 0 <= i < |parts| ensures Fine(Stage(0, map[]), parts, i, clean) {
      AcceptSmall(map[], Files(parts[..i]), clean);
      FilesGrow(parts, i + 1);
      assert parts[..i + 1][..i] == parts[..i];
    }
  }

  lemma {:induction false} FilesGrow(parts: seq<Part>, k: nat)
    requires k <= |parts|
    ensures |Files(parts[..k])| <= |Files(parts)|
    decreases |parts|
  {
    if k < |parts| {
      var n := |parts| - 1;
      FilesGrow(parts[..n], k);
      assert parts[..n][..k] == parts[..k];
    } else {
      assert parts[..k] == parts;
    }
  }

  // ---------- what every part keeps ----------

  ghost predicate Bounded(v: Side) {
    v.staging.Some? ==> |v.staging.value.files| <= MAX_INDEX_ENTRIES && v.staging.value.next <= MAX_INDEX_PARTS
  }

  /** The staged map never exceeds its cap, and nothing is committed before the last part. */
  lemma PartKeeps(v: Side, part: Part, clean: Sanitizer)
    requires Bounded(v)
    ensures Bounded(OnPart(v, part, clean))
    ensures !part.last || Bad(Staged(v), part) ==>
              OnPart(v, part, clean).index == v.index && OnPart(v, part, clean).received == v.received
              && OnPart(v, part, clean).leases == v.leases
  {
    AcceptSmall(Staged(v).files, part.files, clean);
  }

  /** After a bad part the connection is gone but not what was received over it: the peer counts as
      synced on its next connection before any of its index has come, exactly when it had been. A
      connection that ends by itself leaves nothing behind. */
  lemma BadPartLeavesIndex(v: Side, part: Part, clean: Sanitizer)
    requires v.connected && Bad(Staged(v), part)
    ensures var w := OnAuthed(OnGone(OnPart(v, part, clean)));
            w.received == v.received && w.index == v.index && w.staging.None?
    ensures var w := OnAuthed(OnGone(v)); !w.received && w.index.None? && w.staging.None?
  {
  }

  // ---------- many peers ----------

  function Lookup(all: map<Peer, Side>, p: Peer): Side {
    if p in all then all[p] else EMPTY
  }

  /** What may come from a peer, or happen to its connection. */
  datatype Message = Shard(part: Part) | Whole(files: seq<Entry>, leases: seq<Lease>) | Ended | Authed

  function OnMessage(v: Side, m: Message, clean: Sanitizer): Side {
    match m
    case Shard(part) => OnPart(v, part, clean)
    case Whole(files, leases) => OnWhole(v, files, leases, clean)
    case Ended => OnGone(v)
    case Authed => OnAuthed(v)
  }

  /** Before its connection is up and after it ended a peer is not listened to. */
  lemma StrangersIgnored(v: Side, m: Message, clean: Sanitizer)
    requires !v.connected && !m.Authed?
    ensures OnMessage(v, m, clean) == v
  {
  }

  /** The end of the connection leaves neither an index nor parts of one. */
  lemma EndForgets(v: Side, clean: Sanitizer)
    requires v.connected
    ensures var w := OnMessage(v, Ended, clean);
            !w.connected && w.index.None? && w.staging.None? && !w.received && w.leases == v.leases
  {
  }

  /** A single-frame index replaces what was held: of every path the last acceptable record it has. */
  lemma WholeReplaces(v: Side, files: seq<Entry>, leases: seq<Lease>, clean: Sanitizer)
    requires v.connected
    ensures var w := OnMessage(v, Whole(files, leases), clean);
            && w.connected && w.received && w.staging.None? && w.leases == v.leases + leases && w.index.Some?
            && forall p, r :: p in w.index.value && w.index.value[p] == r <==> LastTaken(files, p, r, clean)
  {
    forall p, r ensures var m := Accept(map[], files, clean);
                        p in m && m[p] == r <==> LastTaken(files, p, r, clean) {
      AcceptedExactly(map[], files, p, r, clean);
    }
  }

  function OnMessages(v: Side, ms: seq<Message>, clean: Sanitizer): Side {
    if ms == [] then v else OnMessage(OnMessages(v, ms[..|ms| - 1], clean), ms[|ms| - 1], clean)
  }

  function OnAll(all: map<Peer, Side>, ms: seq<(Peer, Message)>, clean: Sanitizer): map<Peer, Side> {
    if ms == [] then all
    else
      var before := OnAll(all, ms[..|ms| - 1], clean);
      var (p, m) := ms[|ms| - 1];
      before[p := OnMessage(Lookup(before, p), m, clean)]
  }

  function Only(ms: seq<(Peer, Message)>, p: Peer): seq<Message> {
    if ms == [] then []
    else
      var rest := Only(ms[..|ms| - 1], p);
      if ms[|ms| - 1].0 == p then rest + [ms[|ms| - 1].1] else rest
  }

  /** However the messages of several peers interleave, each peer's are taken by themselves. */
  lemma {:induction false} PeersIndependent(all: map<Peer, Side>, ms: seq<(Peer, Message)>, p: Peer, clean: Sanitizer)
    ensures Lookup(OnAll(all, ms, clean), p) == OnMessages(Lookup(all, p), Only(ms, p), clean)
  {
    if ms != [] {
      PeersIndependent(all, ms[..|ms| - 1], p, clean);
      var rest := Only(ms[..|ms| - 1], p);
      assert (rest + [ms[|ms| - 1].1])[..|rest|] == rest;
    }
  }

  function Shards(parts: seq<Part>): (r: seq<Message>)
    ensures |r| == |parts|
  {
    if parts == [] then [] else Shards(parts[..|parts| - 1]) + [Shard(parts[|parts| - 1])]
  }

  lemma {:induction false} ShardsAreParts(v: Side, parts: seq<Part>, clean: Sanitizer)
    ensures OnMessages(v, Shards(parts), clean) == OnParts(v, parts, clean)
  {
    if parts != [] {
      var n := |parts| - 1;
      ShardsAreParts(v, parts[..n], clean);
      assert Shards(parts)[..n] == Shards(parts[..n]);
    }
  }

  /** Whatever the other peers send meanwhile, a peer's stream of parts leaves its whole side with what
      was staged and the stream committed if every part is in place and within bounds, and otherwise
      with the connection and the staging gone. */
  lemma {:induction false} InterleavedStreamCommits(all: map<Peer, Side>, ms: seq<(Peer, Message)>, p: Peer,
                                                    parts: seq<Part>, clean: Sanitizer)
    requires Lookup(all, p).connected && Only(ms, p) == Shards(parts) && Stream(parts)
    ensures var v := Lookup(all, p);
            Lookup(OnAll(all, ms, clean), p)
            == if Good(Staged(v), parts, clean)
               then Committed(v, Accept(Staged(v).files, Files(parts), clean), parts[|parts| - 1].leases)
               else Dropped(v)
  {
    PeersIndependent(all, ms, p, clean);
    ShardsAreParts(Lookup(all, p), parts, clean);
    StreamCommits(Lookup(all, p), parts, clean);
  }

  // ---------- reachable sides ----------

  const EMPTY := Side(false, None, None, false, [])

  lemma {:induction false} BegunOfMessages(v: Side, ms: seq<Message>, clean: Sanitizer)
    requires Begun(v)
    ensures Begun(OnMessages(v, ms, clean))
  {
    if ms != [] { BegunOfMessages(v, ms[..|ms| - 1], clean); }
  }

  lemma {:induction false} MessagesSplit(v: Side, a: seq<Message>, b: seq<Message>, clean: Sanitizer)
    ensures OnMessages(v, a + b, clean) == OnMessages(OnMessages(v, a, clean), b, clean)
  {
    if b == [] {
      assert a + b == a;
    } else {
      var n := |b| - 1;
      MessagesSplit(v, a, b[..n], clean);
      assert (a + b)[..|a + b| - 1] == a + b[..n];
    }
  }

  /** After any history that leaves the peer connected, an index split from the beginning is committed
      as if sent whole if and only if the history left nothing staged. */
  lemma {:induction false} ResyncExactly(before: seq<Message>, parts: seq<Part>, clean: Sanitizer)
    requires Stream(parts) && parts[0].number == 0 && Good(Stage(0, map[]), parts, clean)
    requires OnMessages(EMPTY, before, clean).connected
    ensures var v := OnMessages(EMPTY, before, clean);
            var w := OnMessages(EMPTY, before + Shards(parts), clean);
            && (w == OnWhole(v, Files(parts), parts[|parts| - 1].leases, clean) <==> v.staging.None?)
            && (w == Dropped(v) <==> v.staging.Some?)
  {
    var v := OnMessages(EMPTY, before, clean);
    BegunOfMessages(EMPTY, before, clean);
    MessagesSplit(EMPTY, before, Shards(parts), clean);
    ShardsAreParts(v, parts, clean);
    FreshStreamCommits(v, parts, clean);
  }

  /** A connection replaced while a part is staged: the next index, split as it should be, is refused. Had
      the old connection ended first, it would have been committed. */
  lemma {:induction false} LeftoverReached(part: Part, parts: seq<Part>, clean: Sanitizer)
    requires part.number == 0 && !part.last && |part.files| <= MAX_INDEX_ENTRIES
    requires Stream(parts) && parts[0].number == 0 && Good(Stage(0, map[]), parts, clean)
    ensures var w := OnMessages(EMPTY, [Authed, Shard(part), Authed] + Shards(parts), clean);
            !w.connected && w.index.None?
    ensures var w := OnMessages(EMPTY, [Authed, Shard(part), Ended, Authed] + Shards(parts), clean);
            w.connected && w.index == Some(Accept(map[], Files(parts), clean))
  {
    Replaced(part, clean);
    EndedFirst(part, clean);
    ResyncExactly([Authed, Shard(part), Authed], parts, clean);
    ResyncExactly([Authed, Shard(part), Ended, Authed], parts, clean);
  }

  lemma Replaced(part: Part, clean: Sanitizer)
    requires part.number == 0 && !part.last && |part.files| <= MAX_INDEX_ENTRIES
    ensures var v := OnMessages(EMPTY, [Authed, Shard(part), Authed], clean);
            v.connected && v.staging.Some? && v.index.None?
  {
    Two(EMPTY, Authed, Shard(part), clean);
    assert [Authed, Shard(part), Authed][..2] == [Authed, Shard(part)];
  }

  lemma EndedFirst(part: Part, clean: Sanitizer)
    requires part.number == 0 && !part.last && |part.files| <= MAX_INDEX_ENTRIES
    ensures var v := OnMessages(EMPTY, [Authed, Shard(part), Ended, Authed], clean); v.connected && v.staging.None?
  {
    Two(EMPTY, Authed, Shard(part), clean);
    assert [Authed, Shard(part), Ended][..2] == [Authed, Shard(part)];
    assert [Authed, Shard(part), Ended, Authed][..3] == [Authed, Shard(part), Ended];
  }

  lemma One(v: Side, m: Message, clean: Sanitizer)
    ensures OnMessages(v, [m], clean) == OnMessage(v, m, clean)
  {
    assert [m][..0] == [];
  }

  lemma Two(v: Side, m: Message, n: Message, clean: Sanitizer)
    ensures OnMessages(v, [m, n], clean) == OnMessage(OnMessage(v, m, clean), n, clean)
  {
    assert [m, n][..1] == [m];
    One(v, m, clean);
  }

  // ---------- the sender ----------

  /** An entry that alone fits a frame; any other cannot be sent at all. */
  function Sendable(files: seq<Entry>, size: Entry -> nat): seq<Entry> {
    if files == [] then []
    else
      var rest := Sendable(files[..|files| - 1], size);
      var e := files[|files| - 1];
      if ENVELOPE + size(e) > MAX_FRAME then rest else rest + [e]
  }

  predicate Fitting(e: Entry, size: Entry -> nat) { ENVELOPE + size(e) <= MAX_FRAME }

  /** What is sent: every entry that alone fits a frame, once and in order, and no other. */
  lemma {:induction false} SentExactly(files: seq<Entry>, size: Entry -> nat) returns (at: seq<nat>)
    ensures Picks(files, e => Fitting(e, size), e => e, Sendable(files, size), at)
  {
    if files == [] {
      at := [];
    } else {
      var n := |files| - 1;
      at := SentExactly(files[..n], size);
      PickNext(files[..n], files[n], e => Fitting(e, size), e => e, Sendable(files[..n], size), at);
      assert files[..n] + [files[n]] == files;
      if Fitting(files[n], size) { at := at + [n]; }
    }
  }

  /** The entry of `p` can be sent, and is taken by a receiver. */
  predicate Arrives(e: Entry, p: Path, clean: Sanitizer, size: Entry -> nat) {
    Takes(e, p, clean) && Fitting(e, size)
  }

  ghost predicate ArrivesLastAt(files: seq<Entry>, p: Path, k: nat, clean: Sanitizer, size: Entry -> nat) {
    && k < |files| && Arrives(files[k], p, clean, size)
    && forall j :: k < j < |files| ==> !Arrives(files[j], p, clean, size)
  }

  /** `r` is the last record of `p` in the list that can be sent and that a receiver takes. */
  ghost predicate LastArriving(files: seq<Entry>, p: Path, r: Record, clean: Sanitizer, size: Entry -> nat) {
    exists k: nat :: ArrivesLastAt(files, p, k, clean, size) && files[k].record == r
  }

  lemma LastOfSent(files: seq<Entry>, p: Path, r: Record, clean: Sanitizer, size: Entry -> nat)
    ensures LastTaken(Sendable(files, size), p, r, clean) <==> LastArriving(files, p, r, clean, size)
  {
    var sent := Sendable(files, size);
    var at := SentExactly(files, size);
    if LastTaken(sent, p, r, clean) {
      var k: nat :| LastAt(sent, p, k, clean) && sent[k].record == r;
      SentLast(files, sent, at, p, k, clean, size);
    }
    if LastArriving(files, p, r, clean, size) {
      var k: nat :| ArrivesLastAt(files, p, k, clean, size) && files[k].record == r;
      assert Fitting(files[k], size);
      assert k in at;
      var i :| 0 <= i < |at| && at[i] == k;
      LastSent(files, sent, at, p, i, clean, size);
    }
  }

  lemma SentLast(files: seq<Entry>, sent: seq<Entry>, at: seq<nat>, p: Path, k: nat, clean: Sanitizer,
                 size: Entry -> nat)
    requires Picks(files, e => Fitting(e, size), e => e, sent, at) && LastAt(sent, p, k, clean)
    ensures ArrivesLastAt(files, p, at[k], clean, size) && files[at[k]] == sent[k]
  {
    forall j | at[k] < j < |files| ensures !Arrives(files[j], p, clean, size) {
      if Fitting(files[j], size) {
        var i :| 0 <= i < |at| && at[i] == j;
        assert i > k && sent[i] == files[j];
      }
    }
  }

  lemma LastSent(files: seq<Entry>, sent: seq<Entry>, at: seq<nat>, p: Path, i: nat, clean: Sanitizer,
                 size: Entry -> nat)
    requires Picks(files, e => Fitting(e, size), e => e, sent, at) && i < |at|
    requires ArrivesLastAt(files, p, at[i], clean, size)
    ensures LastAt(sent, p, i, clean) && sent[i] == files[at[i]]
  {
    forall j | i < j < |sent| ensures !Takes(sent[j], p, clean) {
      assert at[i] < at[j] && sent[j] == files[at[j]];
    }
  }

  function Total(files: seq<Entry>, size: Entry -> nat): nat {
    if files == [] then 0 else Total(files[..|files| - 1], size) + size(files[|files| - 1])
  }

  /** The size of a list is the sum of the sizes of its entries. */
  lemma {:induction false} TotalAdds(a: seq<Entry>, b: seq<Entry>, e: Entry, size: Entry -> nat)
    ensures Total([e], size) == size(e) && Total(a + b, size) == Total(a, size) + Total(b, size)
    decreases |b|
  {
    assert [e][..0] == [];
    if b == [] {
      assert a + b == a;
    } else {
      TotalAdds(a, b[..|b| - 1], e, size);
      assert (a + b)[..|a + b| - 1] == a + b[..|b| - 1];
    }
  }

  function Flat(batches: seq<seq<Entry>>): seq<Entry> {
    if batches == [] then [] else Flat(batches[..|batches| - 1]) + batches[|batches| - 1]
  }

  ghost predicate Fits(batch: seq<Entry>, size: Entry -> nat) {
    batch != [] && ENVELOPE + Total(batch, size) <= MAX_FRAME
  }

  /** Several entries share a batch only within the budget. */
  ghost predicate Modest(batch: seq<Entry>, size: Entry -> nat) {
    |batch| > 1 ==> ENVELOPE + Total(batch, size) <= INDEX_PART_BUDGET
  }

  /** The next entry would have taken the batch over the budget. */
  ghost predicate Closed(batch: seq<Entry>, next: seq<Entry>, size: Entry -> nat) {
    next != [] && ENVELOPE + Total(batch, size) + size(next[0]) > INDEX_PART_BUDGET
  }

  ghost predicate AllFitting(files: seq<Entry>, size: Entry -> nat) {
    forall k :: 0 <= k < |files| ==> Fitting(files[k], size)
  }

  /** No batch is closed early, `cur` being the one still open. */
  ghost predicate Tight(batches: seq<seq<Entry>>, cur: seq<Entry>, size: Entry -> nat) {
    && (forall i :: 0 <= i < |batches| - 1 ==> Closed(batches[i], batches[i + 1], size))
    && (batches != [] ==> Closed(batches[|batches| - 1], cur, size))
  }

  method Batch(files: seq<Entry>, size: Entry -> nat) returns (batches: seq<seq<Entry>>)
    ensures Flat(batches) == Sendable(files, size)
    ensures forall i :: 0 <= i < |batches| ==> Fits(batches[i], size) && Modest(batches[i], size)
    ensures AllFitting(files, size) ==> forall i :: 0 <= i < |batches| - 1 ==> Closed(batches[i], batches[i + 1], size)
  {
    batches := [];
    var cur: seq<Entry>, bytes := [], ENVELOPE;
    for k := 0 to |files|
      invariant Flat(batches) + cur == Sendable(files[..k], size)
      invariant forall i :: 0 <= i < |batches| ==> Fits(batches[i], size) && Modest(batches[i], size)
      invariant bytes == ENVELOPE + Total(cur, size)
      invariant cur != [] ==> Fits(cur, size) && Modest(cur, size)
      invariant AllFitting(files, size) ==> Tight(batches, cur, size) && (k > 0 ==> cur != [])
    {
      var e := files[k];
      assert files[..k + 1][..k] == files[..k];
      if cur != [] && bytes + size(e) > INDEX_PART_BUDGET {
        assert (batches + [cur])[..|batches|] == batches;
        batches := batches + [cur];
        cur, bytes := [], ENVELOPE;
      }
      if cur == [] && ENVELOPE + size(e) > MAX_FRAME { continue; }
      assert (cur + [e])[..|cur|] == cur;
      bytes := bytes + size(e);
      cur := cur + [e];
    }
    assert files[..|files|] == files;
    if cur != [] {
      assert (batches + [cur])[..|batches|] == batches;
      batches := batches + [cur];
    }
  }

  /** With `m` leases the part does not fit, and no more than a tenth of them, or one, were dropped since. */
  ghost predicate Overflows(number: nat, leases: seq<Lease>, kept: nat, m: nat, frame: Part -> nat) {
    && kept < m <= |leases| && m - kept <= (if m / 10 > 1 then m / 10 else 1)
    && frame(Part(number, true, [], leases[..m])) > MAX_FRAME
  }

  /** A leases-only final part, cut down until it fits. */
  method LeasesOnly(number: nat, leases: seq<Lease>, frame: Part -> nat) returns (part: Part)
    ensures part.number == number && part.last && part.files == [] && part.leases <= leases
    ensures part.leases == [] || frame(part) <= MAX_FRAME
    ensures part.leases == leases || exists m :: Overflows(number, leases, |part.leases|, m, frame)
    ensures frame(Part(number, true, [], leases)) <= MAX_FRAME ==> part.leases == leases
  {
    var left := leases;
    part := Part(number, true, [], left);
    while left != [] && frame(part) > MAX_FRAME
      invariant left <= leases && part == Part(number, true, [], left)
      invariant left != leases ==> frame(Part(number, true, [], leases)) > MAX_FRAME
      invariant left == leases || exists m :: Overflows(number, leases, |left|, m, frame)
      decreases |left|
    {
      var drop := if |left| / 10 > 1 then |left| / 10 else 1;
      assert left == leases[..|left|];
      assert Overflows(number, leases, |left| - drop, |left|, frame);
      left := left[..|left| - drop];
      part := Part(number, true, [], left);
    }
  }

  /** The sharded form: numbered in order, the last marked, all that can be sent in it, and the
      leases with the last part, as many as its frame holds. */
  ghost predicate IsSplit(files: seq<Entry>, leases: seq<Lease>, size: Entry -> nat, parts: seq<Part>) {
    && Stream(parts)
    && (forall i :: 0 <= i < |parts| ==> parts[i].number == i)
    && Files(parts) == Sendable(files, size)
    && parts[|parts| - 1].leases <= leases
  }

  /** Batches as parts, none of them the last. */
  function Numbered(batches: seq<seq<Entry>>): seq<Part> {
    if batches == [] then []
    else
      var n := |batches| - 1;
      Numbered(batches[..n]) + [Part(n, false, batches[n], [])]
  }

  lemma {:induction false} NumberedIs(batches: seq<seq<Entry>>)
    ensures |Numbered(batches)| == |batches| && Files(Numbered(batches)) == Flat(batches)
    ensures forall i :: 0 <= i < |batches| ==> Numbered(batches)[i] == Part(i, false, batches[i], [])
  {
    if batches != [] {
      var n := |batches| - 1;
      NumberedIs(batches[..n]);
      assert Numbered(batches)[..n] == Numbered(batches[..n]);
    }
  }

  lemma LastPart(parts: seq<Part>, last: Part)
    requires forall i :: 0 <= i < |parts| ==> parts[i].number == i && !parts[i].last
    requires last.number == |parts| && last.last
    ensures Stream(parts + [last]) && Files(parts + [last]) == Files(parts) + last.files
    ensures forall i :: 0 <= i < |parts + [last]| ==> (parts + [last])[i].number == i
  {
    assert (parts + [last])[..|parts|] == parts;
  }

  /** `frame` is the encoded length of a part; the envelope and the entries account for it. */
  ghost predicate Encoding(size: Entry -> nat, frame: Part -> nat) {
    forall p: Part :: p.leases == [] ==> frame(p) <= ENVELOPE + Total(p.files, size)
  }

  ghost predicate Framed(parts: seq<Part>, frame: Part -> nat) {
    forall i :: 0 <= i < |parts| ==> frame(parts[i]) <= MAX_FRAME
  }

  lemma NumberedFramed(batches: seq<seq<Entry>>, size: Entry -> nat, frame: Part -> nat)
    requires Encoding(size, frame) && forall i :: 0 <= i < |batches| ==> Fits(batches[i], size)
    ensures Framed(Numbered(batches), frame)
  {
    NumberedIs(batches);
    forall i | 0 <= i < |batches| ensures frame(Numbered(batches)[i]) <= MAX_FRAME {
      assert Numbered(batches)[i] == Part(i, false, batches[i], []);
      assert Fits(batches[i], size);
    }
  }

  method WithLeases(batches: seq<seq<Entry>>, leases: seq<Lease>, size: Entry -> nat, frame: Part -> nat)
    returns (parts: seq<Part>)
    requires Encoding(size, frame) && forall i :: 0 <= i < |batches| ==> Fits(batches[i], size)
    ensures Stream(parts) && Framed(parts, frame) && Files(parts) == Flat(batches)
    ensures parts[|parts| - 1].leases <= leases
    ensures forall i :: 0 <= i < |parts| ==> parts[i].number == i
    ensures |parts| == |batches| + 1 && (forall i :: 0 <= i < |batches| ==> parts[i].files == batches[i])
    ensures parts[|batches|].files == [] && LeasesKept(parts, leases, frame)
  {
    NumberedIs(batches);
    NumberedFramed(batches, size, frame);
    var last := LeasesOnly(|batches|, leases, frame);
    LastPart(Numbered(batches), last);
    assert last.leases == [] ==> frame(last) <= ENVELOPE + Total([], size);
    parts := Numbered(batches) + [last];
  }

  /** Leases are lost only when they alone overflow the frame of the last part, which then has no entries. */
  ghost predicate LeasesKept(parts: seq<Part>, leases: seq<Lease>, frame: Part -> nat)
    requires parts != []
  {
    var last := parts[|parts| - 1];
    last.leases == leases || (last.files == [] && frame(Part(last.number, true, [], leases)) > MAX_FRAME)
  }

  /** A part without entries is sent only when there are none, or the leases do not fit beside the last. */
  ghost predicate Packed(parts: seq<Part>, leases: seq<Lease>, frame: Part -> nat)
    requires parts != []
  {
    var n := |parts| - 1;
    parts[n].files == [] && n > 0 ==> frame(Part(n - 1, true, parts[n - 1].files, leases)) > MAX_FRAME
  }

  method Split(files: seq<Entry>, leases: seq<Lease>, size: Entry -> nat, frame: Part -> nat) returns (parts: seq<Part>)
    requires Encoding(size, frame)
    ensures IsSplit(files, leases, size, parts) && Framed(parts, frame)
    ensures LeasesKept(parts, leases, frame) && Packed(parts, leases, frame)
  {
    var batches := Batch(files, size);
    var n := |batches| - 1;
    if n >= 0 && frame(Part(n, true, batches[n], leases)) <= MAX_FRAME {
      parts := InLast(batches, leases, size, frame);
    } else {
      parts := WithLeases(batches, leases, size, frame);
    }
  }

  /** The leases beside the entries of the last part. */
  method InLast(batches: seq<seq<Entry>>, leases: seq<Lease>, size: Entry -> nat, frame: Part -> nat)
    returns (parts: seq<Part>)
    requires Encoding(size, frame) && forall i :: 0 <= i < |batches| ==> Fits(batches[i], size)
    requires batches != [] && frame(Part(|batches| - 1, true, batches[|batches| - 1], leases)) <= MAX_FRAME
    ensures Stream(parts) && Framed(parts, frame) && Files(parts) == Flat(batches) && |parts| == |batches|
    ensures parts[|parts| - 1].leases == leases && parts[|parts| - 1].files == batches[|batches| - 1]
    ensures forall i :: 0 <= i < |parts| ==> parts[i].number == i
  {
    var n := |batches| - 1;
    var front, last := batches[..n], Part(n, true, batches[n], leases);
    NumberedIs(front);
    NumberedFramed(front, size, frame);
    LastPart(Numbered(front), last);
    parts := Numbered(front) + [last];
  }

  /** Sender and receiver together, over any side that messages can lead to: a split index is committed as
      what could be sent and is acceptable if and only if nothing is left staged, and costs the
      connection otherwise. */
  lemma {:induction false} SplitReassembles(files: seq<Entry>, leases: seq<Lease>, size: Entry -> nat, parts: seq<Part>,
                                            before: seq<Message>, clean: Sanitizer)
    requires IsSplit(files, leases, size, parts) && OnMessages(EMPTY, before, clean).connected
    requires |parts| <= MAX_INDEX_PARTS && |Sendable(files, size)| <= MAX_INDEX_ENTRIES
    ensures var v := OnMessages(EMPTY, before, clean);
            var w := OnMessages(EMPTY, before + Shards(parts), clean);
            && (w == OnWhole(v, Sendable(files, size), parts[|parts| - 1].leases, clean) <==> v.staging.None?)
            && (w == Dropped(v) <==> v.staging.Some?)
            && (v.staging.None? ==>
                  && w.connected && w.received && w.leases == v.leases + parts[|parts| - 1].leases && w.index.Some?
                  && forall p, r ::
                       p in w.index.value && w.index.value[p] == r <==> LastArriving(files, p, r, clean, size))
  {
    RoomSuffices(parts, clean);
    ResyncExactly(before, parts, clean);
    forall p, r ensures var m := Accept(map[], Sendable(files, size), clean);
                        p in m && m[p] == r <==> LastArriving(files, p, r, clean, size) {
      AcceptedExactly(map[], Sendable(files, size), p, r, clean);
      LastOfSent(files, p, r, clean, size);
    }
  }

  // ---------- the actor's tables ----------

  class Receiver {
    const clean: Sanitizer
    var peers: set<Peer>
    var staging: map<Peer, Stage>
    var index: map<Peer, map<Path, Record>>
    var received: set<Peer>
    var leases: map<Peer, seq<Lease>>

    constructor (clean: Sanitizer)
      ensures this.clean == clean && forall p :: View(p) == EMPTY
    {
      this.clean := clean;
      peers, staging, index, received, leases := {}, map[], map[], {}, map[];
    }

    ghost function View(p: Peer): Side
      reads this
    {
      Side(p in peers, if p in staging then Some(staging[p]) else None, if p in index then Some(index[p]) else None,
           p in received, if p in leases then leases[p] else [])
    }

    method AcceptAll(m: map<Path, Record>, files: seq<Entry>) returns (r: map<Path, Record>)
      ensures r == Accept(m, files, clean)
    {
      r := m;
      for k := 0 to |files|
        invariant r == Accept(m, files[..k], clean)
      {
        assert files[..k + 1][..k] == files[..k];
        var e := files[k];
        if e.record.versions > MAX_VV_ENTRIES { continue; }
        var path := clean(e.path);
        if path.Some? { r := r[path.value := e.record]; }
      }
      assert files[..|files|] == files;
    }

    method Commit(p: Peer, m: map<Path, Record>, observed: seq<Lease>)
      requires p !in staging
      modifies this`index, this`received, this`leases
      ensures forall q :: View(q) == if q == p then Committed(old(View(p)), m, observed) else old(View(q))
    {
      index := index[p := m];
      received := received + {p};
      leases := leases[p := (if p in leases then leases[p] else []) + observed];
    }

    method DropPeer(p: Peer)
      modifies this`peers, this`staging
      ensures forall q :: View(q) == if q == p then Dropped(old(View(p))) else old(View(q))
    {
      staging := staging - {p};
      peers := peers - {p};
    }

    method HandlePart(p: Peer, part: Part)
      modifies this`peers, this`staging, this`index, this`received, this`leases
      ensures forall q :: View(q) == if q == p then OnPart(old(View(p)), part, clean) else old(View(q))
    {
      if p !in peers { return; }
      var stage := if p in staging then staging[p] else Stage(0, map[]);
      if part.number != stage.next || part.number >= MAX_INDEX_PARTS
        || |stage.files| + |part.files| > MAX_INDEX_ENTRIES
      {
        DropPeer(p);
        return;
      }
      var m := AcceptAll(stage.files, part.files);
      if !part.last {
        staging := staging[p := Stage(stage.next + 1, m)];
        return;
      }
      staging := staging - {p};
      Commit(p, m, part.leases);
    }

    method HandleWhole(p: Peer, files: seq<Entry>, observed: seq<Lease>)
      modifies this`staging, this`index, this`received, this`leases
      ensures forall q :: View(q) == if q == p then OnWhole(old(View(p)), files, observed, clean) else old(View(q))
    {
      if p !in peers { return; }
      staging := staging - {p};
      var m := AcceptAll(map[], files);
      Commit(p, m, observed);
    }

    method HandleGone(p: Peer)
      modifies this`peers, this`staging, this`index, this`received
      ensures forall q :: View(q) == if q == p then OnGone(old(View(p))) else old(View(q))
    {
      if p !in peers { return; }
      peers, index, received, staging := peers - {p}, index - {p}, received - {p}, staging - {p};
    }
  }
}
