/** Replication of one path between N daemons: advertised records are compared with the
    held one, then ignored, pulled and merged, or re-asserted. Messages may be lost,
    duplicated and reordered: a sent message stays available and may never be delivered. */
module Replication {
  import opened Common
  import opened Vclock

  /** What a record says of the file: its manifest (which determines the bytes) or a tombstone. */
  datatype Body = Live(manifest: nat) | Tombstone

  datatype Record = Record(body: Body, vv: VClock)

  /** A record advertised by `from`, in a file message or in an index. */
  datatype Msg = Msg(from: Id, record: Record)

  datatype Reaction = Ignore | Pull | Reassert(record: Record)

  function VvOf(r: Option<Record>): VClock {
    if r.Some? then r.value.vv else map[]
  }

  // ---------- what one node does ----------

  function Reconcile(me: Id, mine: Option<Record>, m: Msg): Reaction {
    match mine
    case None => if m.record.body.Tombstone? then Ignore else Pull
    case Some(held) =>
      match Causal(held.vv, m.record.vv)
      case Before => Pull
      case Concurrent =>
        if me > m.from then Reassert(held.(vv := Inc(Join(held.vv, m.record.vv), me))) else Pull
      case _ => Ignore
  }

  /** The record held after a pulled record was applied; causality is checked again. */
  function Apply(mine: Option<Record>, r: Record): Option<Record> {
    match mine
    case None => Some(r)
    case Some(held) =>
      var c := Causal(held.vv, r.vv);
      if c.Equal? || c.After? then mine else Some(r.(vv := Join(held.vv, r.vv)))
  }

  function LocalCommit(me: Id, mine: Option<Record>, body: Body): Record {
    Record(body, Inc(VvOf(mine), me))
  }

  /** What the index says of the file; without a record there is none. */
  function BodyOf(mine: Option<Record>): Body {
    if mine.Some? then mine.value.body else Tombstone
  }

  /** The record that replaced `mine` carries `body`, and counts one more commit of `me` than `mine` did, up
      to saturation, and as many of everybody else. */
  ghost predicate Committed(me: Id, mine: Option<Record>, now: Option<Record>, body: Body) {
    && now.Some? && now.value.body == body
    && (Get(now.value.vv, me) > Get(VvOf(mine), me) <==> Get(VvOf(mine), me) < U64_MAX)
    && Get(now.value.vv, me) <= Get(VvOf(mine), me) + 1
    && forall k | k != me :: Get(now.value.vv, k) == Get(VvOf(mine), k)
  }

  /** A daemon's handlers for the path, updating its index entry in place. */
  class Replica {
    const me: Id
    var record: Option<Record>
    var outbox: seq<Record>
    var wanted: seq<Record>

    constructor (me: Id)
      ensures this.me == me && record == None && outbox == [] && wanted == []
    {
      this.me := me;
      record, outbox, wanted := None, [], [];
    }

    method ReconcileOne(m: Msg)
      modifies this
      ensures var r := Reconcile(me, old(record), m);
              && record == (if r.Reassert? then Some(r.record) else old(record))
              && outbox == old(outbox) + (if r.Reassert? then [r.record] else [])
              && wanted == old(wanted) + (if r.Pull? then [m.record] else [])
    {
      if record.None? {
        if !m.record.body.Tombstone? { wanted := wanted + [m.record]; }
      } else {
        var c := Compare(record.value.vv, m.record.vv);
        match c {
          case Before => wanted := wanted + [m.record];
          case Concurrent => OnConcurrent(m);
          case _ =>
        }
      }
    }

    method OnConcurrent(m: Msg)
      requires record.Some?
      modifies this
      ensures me > m.from ==>
                && record == Some(old(record).value.(vv := Inc(Join(old(record).value.vv, m.record.vv), me)))
                && outbox == old(outbox) + [record.value] && wanted == old(wanted)
      ensures me <= m.from ==>
                record == old(record) && outbox == old(outbox) && wanted == old(wanted) + [m.record]
    {
      if me > m.from {
        var vv := Merge(record.value.vv, m.record.vv);
        vv := Increment(vv, me);
        record := Some(record.value.(vv := vv));
        outbox := outbox + [record.value];
      } else {
        wanted := wanted + [m.record];
      }
    }

    method ApplyRemote(r: Record)
      modifies this`record
      ensures record == Apply(old(record), r)
    {
      if record.Some? {
        var c := Compare(record.value.vv, r.vv);
        if c.Equal? || c.After? { return; }
        var vv := Merge(record.value.vv, r.vv);
        record := Some(r.(vv := vv));
      } else {
        record := Some(r);
      }
    }

    /** A publish or a tombstone under the lease: what the index already says is not committed again, and
        anything else goes out under a clock that counts one more commit of this node. */
    method Publish(body: Body)
      modifies this`record, this`outbox
      ensures BodyOf(record) == body
      ensures BodyOf(old(record)) == body ==> record == old(record) && outbox == old(outbox)
      ensures BodyOf(old(record)) != body ==>
                Committed(me, old(record), record, body) && outbox == old(outbox) + [record.value]
    {
      var said := match record
        case None => body.Tombstone?
        case Some(held) => held.body == body;
      if !said { CommitBody(body); }
    }

    /** The commit of a restore, and of a publish with something new to say. */
    method CommitBody(body: Body)
      modifies this`record, this`outbox
      ensures record == Some(LocalCommit(me, old(record), body))
      ensures Committed(me, old(record), record, body) && outbox == old(outbox) + [record.value]
    {
      var vv := Increment(VvOf(record), me);
      record := Some(Record(body, vv));
      outbox := outbox + [record.value];
    }
  }

  // ---------- the network ----------

  /** `delivered` and `applied` remember what has happened; the handlers do not read them. */
  datatype Net = Net(
    nodes: map<Id, Option<Record>>,
    msgs: set<Msg>,
    pulls: set<(Id, Record)>,
    delivered: set<(Id, Msg)>,
    applied: set<(Id, Record)>)

  datatype Step =
    | Advertise(n: Id)
    | Deliver(n: Id, m: Msg)
    | ApplyPull(n: Id, r: Record)
    | Commit(n: Id, body: Body)

  predicate Enabled(s: Net, st: Step) {
    && st.n in s.nodes
    && match st
       case Advertise(n) => s.nodes[n].Some?
       case Deliver(n, m) => m in s.msgs && m.from != n
       case ApplyPull(n, r) => (n, r) in s.pulls
       case Commit(_, _) => true
  }

  function Do(s: Net, st: Step): (s': Net)
    requires Enabled(s, st)
    ensures s'.nodes.Keys == s.nodes.Keys
  {
    match st
    case Advertise(n) => s.(msgs := s.msgs + {Msg(n, s.nodes[n].value)})
    case Deliver(n, m) =>
      var s1 := s.(delivered := s.delivered + {(n, m)});
      (match Reconcile(n, s.nodes[n], m)
       case Ignore => s1
       case Pull => s1.(pulls := s.pulls + {(n, m.record)})
       case Reassert(r) => s1.(nodes := s.nodes[n := Some(r)], msgs := s.msgs + {Msg(n, r)}))
    case ApplyPull(n, r) =>
      s.(nodes := s.nodes[n := Apply(s.nodes[n], r)], applied := s.applied + {(n, r)})
    case Commit(n, body) =>
      var r := LocalCommit(n, s.nodes[n], body);
      s.(nodes := s.nodes[n := Some(r)], msgs := s.msgs + {Msg(n, r)})
  }

  ghost predicate IsRun(s: Net, steps: seq<Step>)
    decreases |steps|
  {
    steps != [] ==> Enabled(s, steps[0]) && IsRun(Do(s, steps[0]), steps[1..])
  }

  ghost function Final(s: Net, steps: seq<Step>): (s': Net)
    requires IsRun(s, steps)
    ensures s'.nodes.Keys == s.nodes.Keys
    decreases |steps|
  {
    if steps == [] then s else Final(Do(s, steps[0]), steps[1..])
  }

  /** Nobody holds the path yet and nothing is in flight. */
  ghost predicate Genesis(s: Net) {
    && (forall n | n in s.nodes :: s.nodes[n] == None)
    && s.msgs == {} && s.pulls == {} && s.delivered == {} && s.applied == {}
  }

  /** The record is held by some node or in flight. */
  ghost predicate Exists(s: Net, r: Record) {
    || (exists n | n in s.nodes :: s.nodes[n] == Some(r))
    || (exists m | m in s.msgs :: m.record == r)
    || (exists p | p in s.pulls :: p.1 == r)
  }
}
