/** The lease protocol of one path: the transitions of the lock table, and the
    network of N daemons that exchange lock messages over ordered control streams. */
module Leases {
  import opened Common

  /** The lock table's entry for the path; `Free` is the absent entry. */
  datatype Lock =
    | Free
    | Pending(lamport: nat, needed: set<Id>, granted: set<Id>)
    | Held(holder: Id)

  datatype Msg = Req(lamport: nat) | Grant | Deny | Release

  datatype Decision = Granted | GrantedAndAborted | Denied

  // ---------- the lock table's transitions ----------

  /** The tie-break: the lower (lamport, id) wins on every node. */
  predicate Precedes(l1: nat, i1: Id, l2: nat, i2: Id) {
    l1 < l2 || (l1 == l2 && i1 < i2)
  }

  function StartRequest(t: Lock, lamport: nat, voters: set<Id>): Lock {
    if t.Free? then Pending(lamport, voters, {}) else t
  }

  function OnGrant(t: Lock, me: Id, from: Id): Lock {
    if t.Pending? && from in t.needed then
      if t.needed <= t.granted + {from} then Held(me)
      else t.(granted := t.granted + {from})
    else t
  }

  function OnDeny(t: Lock): Lock {
    if t.Pending? then Free else t
  }

  /** `refuse` is the grantor's role or capacity refusal, decided before the table is asked. */
  function OnRemoteRequest(t: Lock, me: Id, from: Id, lamport: nat, refuse: bool): (Lock, Decision) {
    if refuse then (t, Denied)
    else match t
      case Free => (Held(from), Granted)
      case Held(h) => if h == from then (t, Granted) else (t, Denied)
      case Pending(mine, _, _) =>
        if Precedes(lamport, from, mine, me) then (Held(from), GrantedAndAborted) else (t, Denied)
  }

  function OnRelease(t: Lock, from: Id): Lock {
    if t == Held(from) then Free else t
  }

  // ---------- answers ----------

  /** A vote goes to a node that may ask while the path is free, is its own already or is asked for later by
      this node; then the table says so, and otherwise it stays as it was. */
  lemma AnswerExactly(t: Lock, me: Id, from: Id, lamport: nat, refuse: bool)
    ensures var (t', d) := OnRemoteRequest(t, me, from, lamport, refuse);
            && (d != Denied <==>
                  && !refuse
                  && (t.Free? || t == Held(from)
                      || (t.Pending? && (lamport < t.lamport || (lamport == t.lamport && from < me)))))
            && (d == GrantedAndAborted <==> d != Denied && t.Pending?)
            && t' == if d == Denied then t else Held(from)
  {
  }

  // ---------- rival requests ----------

  /** Two nodes ask each other at once: exactly one of them gives way, and it is the one whose request is
      later by number, then by id; the other refuses and keeps its own. */
  lemma RivalsSettle(a: Id, ta: Lock, b: Id, tb: Lock)
    requires a != b && ta.Pending? && tb.Pending?
    ensures var (ta', da) := OnRemoteRequest(ta, a, b, tb.lamport, false);
            var (tb', db) := OnRemoteRequest(tb, b, a, ta.lamport, false);
            && (da == GrantedAndAborted <==> db == Denied) && (da == Denied <==> db == GrantedAndAborted)
            && (da == GrantedAndAborted <==> ta.lamport > tb.lamport || (ta.lamport == tb.lamport && a > b))
            && (if da == Denied then ta' == ta && tb' == Held(a) else tb' == tb && ta' == Held(b))
  {
  }

  predicate GivesWay(n: Id, lamport: nat, from: Id, other: nat) {
    OnRemoteRequest(Pending(lamport, {}, {}), n, from, other, false).1 == GrantedAndAborted
  }

  lemma GivesWayInOrder(a: Id, la: nat, b: Id, lb: nat, c: Id, lc: nat)
    ensures a != b ==> (GivesWay(a, la, b, lb) <==> !GivesWay(b, lb, a, la))
    ensures GivesWay(a, la, b, lb) && GivesWay(b, lb, c, lc) ==> GivesWay(a, la, c, lc)
  {
  }

  /** Every other of the nodes that ask gives way to `w`. */
  ghost predicate WinsAll(ids: set<Id>, asked: Id -> nat, w: Id) {
    w in ids && forall n :: n in ids && n != w ==> GivesWay(n, asked(n), w, asked(w))
  }

  /** Of any number of nodes that ask all others at once exactly one is granted by every other. */
  lemma {:induction false} OneRivalWins(ids: set<Id>, asked: Id -> nat) returns (w: Id)
    requires ids != {}
    ensures WinsAll(ids, asked, w) && forall v :: WinsAll(ids, asked, v) ==> v == w
    decreases |ids|
  {
    var a :| a in ids;
    var rest := ids - {a};
    w := a;
    if rest != {} {
      var v := OneRivalWins(rest, asked);
      if !GivesWay(v, asked(v), a, asked(a)) { w := v; }
      forall n | n in ids && n != w ensures GivesWay(n, asked(n), w, asked(w)) {
        GivesWayInOrder(n, asked(n), v, asked(v), a, asked(a));
        GivesWayInOrder(a, asked(a), v, asked(v), a, asked(a));
        assert n == a || n in rest;
      }
    } else {
      assert forall n :: n in ids && n != a ==> n in rest;
    }
    forall v | WinsAll(ids, asked, v) ensures v == w {
      GivesWayInOrder(v, asked(v), w, asked(w), w, asked(w));
    }
  }

  /** The lock table as the daemon holds it: its methods update the entry in place. */
  class LockTable {
    const me: Id
    var entry: Lock

    constructor (me: Id)
      ensures this.me == me && entry == Free
    {
      this.me := me;
      entry := Free;
    }

    method Start(lamport: nat, voters: set<Id>) returns (ok: bool)
      modifies this
      ensures entry == StartRequest(old(entry), lamport, voters)
      ensures ok <==> old(entry) == Free
    {
      ok := entry.Free?;
      if ok { entry := Pending(lamport, voters, {}); }
    }

    method RecordGrant(from: Id) returns (acquired: bool)
      modifies this
      ensures entry == OnGrant(old(entry), me, from)
      ensures acquired <==> old(entry).Pending? && entry == Held(me)
    {
      acquired := false;
      if entry.Pending? {
        if from in entry.needed {
          var granted := entry.granted + {from};
          if entry.needed <= granted {
            entry := Held(me);
            acquired := true;
          } else {
            entry := entry.(granted := granted);
          }
        }
      }
    }

    method AbortOnDeny() returns (aborted: bool)
      modifies this
      ensures entry == OnDeny(old(entry))
      ensures aborted <==> old(entry).Pending?
    {
      aborted := entry.Pending?;
      if aborted { entry := Free; }
    }

    method AnswerRequest(from: Id, lamport: nat, refuse: bool) returns (d: Decision)
      modifies this
      ensures (entry, d) == OnRemoteRequest(old(entry), me, from, lamport, refuse)
    {
      if refuse { return Denied; }
      match entry {
        case Free =>
          entry := Held(from);
          d := Granted;
        case Held(h) =>
          d := if h == from then Granted else Denied;
        case Pending(mine, _, _) =>
          if Precedes(lamport, from, mine, me) {
            entry := Held(from);
            d := GrantedAndAborted;
          } else {
            d := Denied;
          }
      }
    }

    method ReleaseFrom(from: Id)
      modifies this
      ensures entry == OnRelease(old(entry), from)
    {
      if entry == Held(from) { entry := Free; }
    }

    /** One event of the node, as the daemon routes it to the table. */
    method Dispatch(e: Event)
      modifies this
      ensures entry == After(old(entry), me, e)
    {
      match e {
        case Asked(lamport, voters) => var _ := Start(lamport, voters);
        case Voted(from) => var _ := RecordGrant(from);
        case Refused => var _ := AbortOnDeny();
        case Requested(from, lamport, refuse) => var _ := AnswerRequest(from, lamport, refuse);
        case Freed(from) => ReleaseFrom(from);
        case Expired => if entry.Held? { entry := Free; }
      }
    }

    /** Whatever events a node has seen since its start: if it holds the lease, then it asked for it and
        every voter it asked granted it since; and its own votes were one at a time. */
    method Serve(events: seq<Event>) returns (ghost entries: seq<Lock>)
      requires entry == Free && Others(me, events)
      modifies this
      ensures History(me, entries, events) && entry == entries[|events|]
      ensures entry == Held(me) ==> exists i :: 0 <= i < |events| && Elected(entries, events, i, |events|)
      ensures forall i, k :: 0 <= i < k < |events| && Rivals(me, entries, events, i, k) ==> Ended(events, i, k)
    {
      entries := [Free];
      for k := 0 to |events|
        invariant |entries| == k + 1 && entries[0] == Free && entry == entries[k]
        invariant forall i :: 0 <= i < k ==> entries[i + 1] == After(entries[i], me, events[i])
      {
        Dispatch(events[k]);
        entries := entries + [entry];
      }
      if entry == Held(me) { var _ := HeldMeansElected(me, entries, events, |events|); }
      forall i, k | 0 <= i < k < |events| && Rivals(me, entries, events, i, k) ensures Ended(events, i, k) {
        OneVoteAtATime(me, entries, events, i, k);
      }
    }
  }

  // ---------- what one node's history shows ----------

  datatype Event =
    | Asked(lamport: nat, voters: set<Id>)
    | Voted(from: Id)
    | Refused
    | Requested(from: Id, lamport: nat, refuse: bool)
    | Freed(from: Id)
    | Expired

  function After(t: Lock, me: Id, e: Event): Lock {
    match e
    case Asked(lamport, voters) => StartRequest(t, lamport, voters)
    case Voted(from) => OnGrant(t, me, from)
    case Refused => OnDeny(t)
    case Requested(from, lamport, refuse) => OnRemoteRequest(t, me, from, lamport, refuse).0
    case Freed(from) => OnRelease(t, from)
    case Expired => if t.Held? then Free else t
  }

  /** The table after an own request on a free path and the given votes. */
  function Voting(me: Id, lamport: nat, voters: set<Id>, votes: seq<Id>): Lock {
    if votes == [] then After(Free, me, Asked(lamport, voters))
    else After(Voting(me, lamport, voters, votes[..|votes| - 1]), me, Voted(votes[|votes| - 1]))
  }

  ghost function Voters(votes: seq<Id>): set<Id> { set v | v in votes }

  /** The request is won by the last vote it needed and not before, whoever else votes and however often;
      the lease then lasts until it is released by this node or runs out, and the path is free again. */
  lemma {:induction false} WonByAllVotes(me: Id, lamport: nat, voters: set<Id>, votes: seq<Id>)
    requires voters != {}
    ensures Voting(me, lamport, voters, votes)
            == if voters <= Voters(votes) then Held(me) else Pending(lamport, voters, voters * Voters(votes))
    ensures var t := Held(me); After(t, me, Expired) == Free && After(t, me, Freed(me)) == Free
    ensures forall e: Event :: !e.Expired? && e != Freed(me) ==> After(Held(me), me, e) == Held(me)
    ensures forall t: Lock :: !t.Held? ==> After(t, me, Expired) == t
  {
    if votes == [] {
      assert voters * Voters(votes) == {};
    } else {
      var front, v := votes[..|votes| - 1], votes[|votes| - 1];
      WonByAllVotes(me, lamport, voters, front);
      assert Voters(votes) == Voters(front) + {v};
      assert v in voters ==> voters * Voters(votes) == voters * Voters(front) + {v};
      assert v !in voters ==> voters * Voters(votes) == voters * Voters(front);
    }
  }

  /** Requests come from other nodes. */
  ghost predicate Others(me: Id, events: seq<Event>) {
    forall k :: 0 <= k < |events| && events[k].Requested? ==> events[k].from != me
  }

  ghost predicate History(me: Id, entries: seq<Lock>, events: seq<Event>) {
    && |entries| == |events| + 1 && entries[0] == Free && Others(me, events)
    && forall i :: 0 <= i < |events| ==> entries[i + 1] == After(entries[i], me, events[i])
  }

  /** The vote of `v` arrived between i and k. */
  ghost predicate VotedBetween(events: seq<Event>, v: Id, i: int, k: int) {
    exists g :: i < g < k && 0 <= g < |events| && events[g] == Voted(v)
  }

  /** The request made at i, of at least one voter, was granted by all of them before k. */
  ghost predicate Elected(entries: seq<Lock>, events: seq<Event>, i: int, k: int)
    requires |entries| == |events| + 1 && 0 <= i < |events|
  {
    && events[i].Asked? && entries[i] == Free && events[i].voters != {}
    && forall v :: v in events[i].voters ==> VotedBetween(events, v, i, k)
  }

  /** A pending entry remembers its request and the votes since. */
  lemma {:induction false} PendingMeansAsked(me: Id, entries: seq<Lock>, events: seq<Event>, k: nat) returns (i: nat)
    requires History(me, entries, events) && k < |entries| && entries[k].Pending?
    ensures i < k && events[i].Asked? && entries[i] == Free && events[i].voters == entries[k].needed
    ensures forall v :: v in entries[k].granted ==> VotedBetween(events, v, i, k)
    ensures entries[k].granted <= entries[k].needed
  {
    var e := events[k - 1];
    if entries[k - 1].Pending? {
      i := PendingMeansAsked(me, entries, events, k - 1);
      forall v | v in entries[k].granted ensures VotedBetween(events, v, i, k) {
        if v in entries[k - 1].granted {
          var g :| i < g < k - 1 && events[g] == Voted(v);
        } else {
          assert e == Voted(v);
        }
      }
    } else {
      i := k - 1;
    }
  }

  /** A node holds the lease only by an election: it asked, and every voter it asked has voted since. */
  lemma {:induction false} HeldMeansElected(me: Id, entries: seq<Lock>, events: seq<Event>, k: nat) returns (i: nat)
    requires History(me, entries, events) && k < |entries| && entries[k] == Held(me)
    ensures i < |events| && i < k && Elected(entries, events, i, k)
  {
    var e := events[k - 1];
    if entries[k - 1] == Held(me) {
      i := HeldMeansElected(me, entries, events, k - 1);
      forall v | v in events[i].voters ensures VotedBetween(events, v, i, k) {
        assert VotedBetween(events, v, i, k - 1);
      }
    } else {
      assert e.Voted? && entries[k - 1].Pending?;
      i := PendingMeansAsked(me, entries, events, k - 1);
      forall v | v in events[i].voters ensures VotedBetween(events, v, i, k) {
        if v in entries[k - 1].granted {
          assert VotedBetween(events, v, i, k - 1);
        } else {
          assert e == Voted(v);
        }
      }
    }
  }

  /** The node votes for the requester at i. */
  ghost predicate Gives(me: Id, entries: seq<Lock>, events: seq<Event>, i: int)
    requires |entries| == |events| + 1 && 0 <= i < |events|
  {
    events[i].Requested?
    && OnRemoteRequest(entries[i], me, events[i].from, events[i].lamport, events[i].refuse).1 != Denied
  }

  /** The node votes for different requesters at i and k. */
  ghost predicate Rivals(me: Id, entries: seq<Lock>, events: seq<Event>, i: int, k: int)
    requires |entries| == |events| + 1 && 0 <= i < k < |events|
  {
    Gives(me, entries, events, i) && Gives(me, entries, events, k) && events[i].from != events[k].from
  }

  /** The lease voted for at i was released by its holder or ran out before k. */
  ghost predicate Ended(events: seq<Event>, i: int, k: int)
    requires 0 <= i < |events| && events[i].Requested?
  {
    exists m :: i < m < k && 0 <= m < |events| && (events[m] == Freed(events[i].from) || events[m] == Expired)
  }

  lemma {:induction false} VoteLasts(me: Id, entries: seq<Lock>, events: seq<Event>, i: nat, k: nat)
    requires History(me, entries, events) && i < k < |entries| && Gives(me, entries, events, i) && !Ended(events, i, k)
    ensures entries[k] == Held(events[i].from)
  {
    if k > i + 1 {
      assert !Ended(events, i, k - 1);
      VoteLasts(me, entries, events, i, k - 1);
      assert events[k - 1] != Freed(events[i].from) && events[k - 1] != Expired;
    }
  }

  /** Votes for different nodes are one at a time: between them the first lease has ended. */
  lemma OneVoteAtATime(me: Id, entries: seq<Lock>, events: seq<Event>, i: nat, k: nat)
    requires History(me, entries, events) && i < k < |events| && Rivals(me, entries, events, i, k)
    ensures Ended(events, i, k)
  {
    if !Ended(events, i, k) { VoteLasts(me, entries, events, i, k); }
  }

  // ---------- the network ----------

  /** `chan[(i, j)]` is the ordered stream of messages sent by i and not yet read by j. */
  datatype Net = Net(lock: map<Id, Lock>, clock: map<Id, nat>, chan: map<(Id, Id), seq<Msg>>)

  ghost predicate WF(s: Net) {
    && s.clock.Keys == s.lock.Keys
    && (forall i, j {:trigger (i, j) in s.chan} :: (i, j) in s.chan <==> i in s.lock && j in s.lock && i != j)
    && (forall i | i in s.lock && s.lock[i].Pending? :: s.lock[i].needed == s.lock.Keys - {i})
  }

  ghost predicate Init(s: Net) {
    && WF(s)
    && (forall i | i in s.lock :: s.lock[i] == Free)
    && (forall p | p in s.chan :: s.chan[p] == [])
  }

  function Broadcast(chan: map<(Id, Id), seq<Msg>>, i: Id, m: Msg): map<(Id, Id), seq<Msg>> {
    map p | p in chan :: if p.0 == i then chan[p] + [m] else chan[p]
  }

  datatype Step =
    | Start(i: Id)
    | Receive(i: Id, from: Id, refuse: bool)
    | Timeout(i: Id)
    | Unlock(i: Id)
    | Expire(i: Id)

  ghost predicate Enabled(s: Net, st: Step)
    requires WF(s)
  {
    match st
    case Start(i) => i in s.lock && s.lock[i].Free?
    case Receive(i, from, _) => (from, i) in s.chan && s.chan[(from, i)] != []
    case Timeout(i) => i in s.lock && s.lock[i].Pending?
    case Unlock(i) => i in s.lock && s.lock[i] == Held(i)
    case Expire(i) => i in s.lock && s.lock[i] == Held(i)
  }

  function Max(a: nat, b: nat): nat { if a < b then b else a }

  ghost function Do(s: Net, st: Step): (r: Net)
    requires WF(s) && Enabled(s, st)
    ensures WF(r) && r.lock.Keys == s.lock.Keys
  {
    match st
    case Start(i) =>
      var l := s.clock[i] + 1;
      Net(s.lock[i := StartRequest(s.lock[i], l, s.lock.Keys - {i})], s.clock[i := l],
          Broadcast(s.chan, i, Req(l)))
    case Receive(i, from, refuse) =>
      DoReceive(s.(chan := s.chan[(from, i) := s.chan[(from, i)][1..]]),
                i, from, s.chan[(from, i)][0], refuse)
    case Timeout(i) =>
      s.(lock := s.lock[i := OnDeny(s.lock[i])], chan := Broadcast(s.chan, i, Release))
    case Unlock(i) =>
      s.(lock := s.lock[i := OnRelease(s.lock[i], i)], chan := Broadcast(s.chan, i, Release))
    // The holder's own lease runs out: the entry is dropped and nothing is sent.
    case Expire(i) => s.(lock := s.lock[i := Free])
  }

  /** One control message handled by node i; `s` is the network after the message was taken. */
  ghost function DoReceive(s: Net, i: Id, from: Id, m: Msg, refuse: bool): (r: Net)
    requires WF(s) && (from, i) in s.chan
    ensures WF(r) && r.lock.Keys == s.lock.Keys
  {
    match m
    case Req(l) =>
      var (t, d) := OnRemoteRequest(s.lock[i], i, from, l, refuse);
      var c := if d.GrantedAndAborted? then Broadcast(s.chan, i, Release) else s.chan;
      var answer := if d.Denied? then Deny else Grant;
      Net(s.lock[i := t], s.clock[i := Max(s.clock[i], l)], c[(i, from) := c[(i, from)] + [answer]])
    case Grant => s.(lock := s.lock[i := OnGrant(s.lock[i], i, from)])
    case Deny =>
      s.(lock := s.lock[i := OnDeny(s.lock[i])],
         chan := if s.lock[i].Pending? then Broadcast(s.chan, i, Release) else s.chan)
    case Release => s.(lock := s.lock[i := OnRelease(s.lock[i], from)])
  }

  // ---------- what a request still waits for ----------

  function Reqs(q: seq<Msg>): nat {
    if q == [] then 0 else (if q[0].Req? then 1 else 0) + Reqs(q[1..])
  }

  function Answers(q: seq<Msg>): nat {
    if q == [] then 0 else (if q[0].Grant? || q[0].Deny? then 1 else 0) + Answers(q[1..])
  }

  lemma {:induction false} CountsAppend(q: seq<Msg>, m: Msg)
    ensures Reqs(q + [m]) == Reqs(q) + (if m.Req? then 1 else 0)
    ensures Answers(q + [m]) == Answers(q) + (if m.Grant? || m.Deny? then 1 else 0)
  {
    if q != [] {
      assert (q + [m])[1..] == q[1..] + [m];
      CountsAppend(q[1..], m);
    } else {
      assert q + [m] == [m];
    }
  }

  lemma {:induction false} CountsZero(q: seq<Msg>)
    ensures Reqs(q) == 0 ==> forall k | 0 <= k < |q| :: !q[k].Req?
    ensures Answers(q) == 0 ==> forall k | 0 <= k < |q| :: !q[k].Grant? && !q[k].Deny?
  {
    if q != [] {
      CountsZero(q[1..]);
      assert forall k | 1 <= k < |q| :: q[k] == q[1..][k - 1];
    }
  }

  /** Requests sent by one end of a stream and not yet answered to it. */
  function Outstanding(sent: seq<Msg>, received: seq<Msg>): nat {
    Reqs(sent) + Answers(received)
  }

  /** Each peer owes i fewer than `limit` answers: requests sent minus answers received. */
  predicate Owed(s: Net, i: Id, limit: nat) {
    forall j | j in s.lock && (i, j) in s.chan && (j, i) in s.chan ::
      Outstanding(s.chan[(i, j)], s.chan[(j, i)]) < limit
  }

  // ---------- runs ----------

  /** A run from `s` in which a node starts a request only while every peer owes it fewer than
      `limit` answers to earlier ones. */
  ghost predicate IsRun(s: Net, steps: seq<Step>, limit: nat)
    requires WF(s)
    decreases |steps|
  {
    steps != [] ==>
      && Enabled(s, steps[0])
      && (steps[0].Start? ==> Owed(s, steps[0].i, limit))
      && IsRun(Do(s, steps[0]), steps[1..], limit)
  }

  ghost function Final(s: Net, steps: seq<Step>, limit: nat): (r: Net)
    requires WF(s) && IsRun(s, steps, limit)
    ensures WF(r)
    decreases |steps|
  {
    if steps == [] then s else Final(Do(s, steps[0]), steps[1..], limit)
  }

  ghost predicate Exclusive(s: Net) {
    forall i, j | i in s.lock && j in s.lock && s.lock[i] == Held(i) && s.lock[j] == Held(j) :: i == j
  }

  // ---------- the invariant, one ordered pair of nodes at a time ----------

  predicate NoRelease(q: seq<Msg>) {
    forall k | 0 <= k < |q| :: !q[k].Release?
  }

  predicate HasGrant(q: seq<Msg>) {
    exists k | 0 <= k < |q| :: q[k].Grant?
  }

  /** No release follows a request still in the stream; with none there, no release at all. */
  predicate ReleasesBeforeReq(q: seq<Msg>) {
    forall k | 0 <= k < |q| && q[k].Release? :: exists r | k < r < |q| :: q[r].Req?
  }

  /** i counts on j's vote: it holds the lease, or j's grant is recorded or on its way. */
  predicate Relies(t: Lock, i: Id, j: Id, fromJ: seq<Msg>) {
    t == Held(i) || (t.Pending? && (j in t.granted || HasGrant(fromJ)))
  }

  /** What holds between i, whose entry is `t`, and its peer j, whose entry is `u`. */
  predicate PairInv(i: Id, j: Id, t: Lock, u: Lock, toJ: seq<Msg>, fromJ: seq<Msg>) {
    && Outstanding(toJ, fromJ) <= 1
    && (t.Pending? ==>
          && (Outstanding(toJ, fromJ) == 0 <==> j in t.granted)
          && ReleasesBeforeReq(toJ))
    && (Relies(t, i, j, fromJ) ==> u == Held(i) && NoRelease(toJ))
  }

  /** The invariant read from both ends of the pair. */
  predicate Both(i: Id, j: Id, t: Lock, u: Lock, toJ: seq<Msg>, fromJ: seq<Msg>) {
    PairInv(i, j, t, u, toJ, fromJ) && PairInv(j, i, u, t, fromJ, toJ)
  }

  // ---------- streams: taking the head, adding at the end ----------

  lemma TakeHead(q: seq<Msg>)
    requires q != []
    ensures NoRelease(q) ==> NoRelease(q[1..])
    ensures ReleasesBeforeReq(q) ==> ReleasesBeforeReq(q[1..])
    ensures HasGrant(q[1..]) ==> HasGrant(q)
    ensures HasGrant(q) && !q[0].Grant? ==> HasGrant(q[1..])
  {
    assert forall k | 1 <= k < |q| :: q[k] == q[1..][k - 1];
    if ReleasesBeforeReq(q) {
      forall k | 0 <= k < |q[1..]| && q[1..][k].Release?
        ensures exists r | k < r < |q[1..]| :: q[1..][r].Req?
      {
        assert q[k + 1].Release?;
        var r :| k + 1 < r < |q| && q[r].Req?;
        assert q[1..][r - 1].Req?;
      }
    }
  }

  lemma TakeOnlyReq(q: seq<Msg>)
    requires q != [] && q[0].Req? && Reqs(q) <= 1 && ReleasesBeforeReq(q)
    ensures NoRelease(q[1..])
  {
    CountsZero(q[1..]);
    TakeHead(q);
  }

  lemma AddLast(q: seq<Msg>, m: Msg)
    ensures HasGrant(q + [m]) <==> HasGrant(q) || m.Grant?
    ensures NoRelease(q) && !m.Release? ==> NoRelease(q + [m])
    ensures ReleasesBeforeReq(q) && !m.Release? ==> ReleasesBeforeReq(q + [m])
    ensures m.Req? ==> ReleasesBeforeReq(q + [m])
  {
    var z := q + [m];
    assert forall k | 0 <= k < |q| :: z[k] == q[k];
    assert z[|q|] == m;
    if HasGrant(q) { var k :| 0 <= k < |q| && q[k].Grant?; assert z[k].Grant?; }
    if ReleasesBeforeReq(q) && !m.Release? {
      forall k | 0 <= k < |z| && z[k].Release? ensures exists r | k < r < |z| :: z[r].Req? {
        var r :| k < r < |q| && q[r].Req?;
        assert z[r].Req?;
      }
    }
  }

  lemma NoAnswersNoGrant(q: seq<Msg>)
    ensures HasGrant(q) ==> Answers(q) > 0
  {
    CountsZero(q);
  }

  // ---------- one event at i, seen by the pair (i, j) ----------

  lemma PairStart(i: Id, j: Id, l: nat, needed: set<Id>, u: Lock, a: seq<Msg>, b: seq<Msg>)
    requires Both(i, j, Free, u, a, b) && Outstanding(a, b) == 0
    ensures Both(i, j, Pending(l, needed, {}), u, a + [Req(l)], b)
  {
    CountsAppend(a, Req(l));
    AddLast(a, Req(l));
    NoAnswersNoGrant(b);
  }

  /** i lets go of its own claim and tells j. */
  lemma PairLetGo(i: Id, j: Id, t: Lock, t': Lock, u: Lock, a: seq<Msg>, b: seq<Msg>)
    requires Both(i, j, t, u, a, b) && (t.Pending? || t == Held(i)) && i != j
    requires !t'.Pending? && t' != Held(i)
    ensures Both(i, j, t', u, a + [Release], b)
  {
    CountsAppend(a, Release);
    AddLast(a, Release);
  }

  /** i's entry changes with no message to j: a lease runs out, or a third node is involved. */
  lemma PairSilent(i: Id, j: Id, t: Lock, t': Lock, u: Lock, a: seq<Msg>, b: seq<Msg>)
    requires Both(i, j, t, u, a, b) && i != j
    requires t != Held(j) && !t'.Pending? && t' != Held(i)
    ensures Both(i, j, t', u, a, b)
  {}

  /** i records the grant of a third node. */
  lemma PairOtherGrant(i: Id, j: Id, t: Lock, from: Id, u: Lock, a: seq<Msg>, b: seq<Msg>)
    requires Both(i, j, t, u, a, b) && i != j && from != j
    requires t.Pending? ==> j in t.needed
    ensures Both(i, j, OnGrant(t, i, from), u, a, b)
  {}

  lemma PairReq(i: Id, j: Id, t: Lock, u: Lock, a: seq<Msg>, b: seq<Msg>, refuse: bool)
    requires Both(i, j, t, u, a, b) && i != j && b != [] && b[0].Req?
    ensures var (t', d) := OnRemoteRequest(t, i, j, b[0].lamport, refuse);
            var a1 := if d.GrantedAndAborted? then a + [Release] else a;
            Both(i, j, t', u, a1 + [if d.Denied? then Deny else Grant], b[1..])
  {
    var (t', d) := OnRemoteRequest(t, i, j, b[0].lamport, refuse);
    var a1 := if d.GrantedAndAborted? then a + [Release] else a;
    var answer := if d.Denied? then Deny else Grant;
    CountsAppend(a, Release);
    AddLast(a, Release);
    CountsAppend(a1, answer);
    AddLast(a1, answer);
    TakeHead(b);
    if u.Pending? { TakeOnlyReq(b); }
    NoAnswersNoGrant(a);
  }

  lemma PairGrant(i: Id, j: Id, t: Lock, u: Lock, a: seq<Msg>, b: seq<Msg>)
    requires Both(i, j, t, u, a, b) && i != j && b != [] && b[0].Grant?
    requires t.Pending? ==> j in t.needed
    ensures Both(i, j, OnGrant(t, i, j), u, a, b[1..])
  {
    TakeHead(b);
    assert HasGrant(b);
    NoAnswersNoGrant(b[1..]);
  }

  lemma PairDeny(i: Id, j: Id, t: Lock, u: Lock, a: seq<Msg>, b: seq<Msg>)
    requires Both(i, j, t, u, a, b) && i != j && b != [] && b[0].Deny?
    ensures Both(i, j, OnDeny(t), u, if t.Pending? then a + [Release] else a, b[1..])
  {
    TakeHead(b);
    CountsAppend(a, Release);
    AddLast(a, Release);
  }

  lemma PairRelease(i: Id, j: Id, t: Lock, u: Lock, a: seq<Msg>, b: seq<Msg>)
    requires Both(i, j, t, u, a, b) && i != j && b != [] && b[0].Release?
    ensures Both(i, j, OnRelease(t, j), u, a, b[1..])
  {
    TakeHead(b);
  }

  ghost predicate PairOk(s: Net, i: Id, j: Id)
    requires WF(s) && (i, j) in s.chan
  {
    Both(i, j, s.lock[i], s.lock[j], s.chan[(i, j)], s.chan[(j, i)])
  }

  ghost predicate Inv(s: Net)
    requires WF(s)
  {
    forall i, j | (i, j) in s.chan :: PairOk(s, i, j)
  }

  lemma InvIsExclusive(s: Net)
    requires WF(s) && Inv(s)
    ensures Exclusive(s)
  {
    forall i, j | i in s.lock && j in s.lock && i != j
      ensures !(s.lock[i] == Held(i) && s.lock[j] == Held(j))
    {
      assert PairOk(s, i, j);
    }
  }

  /** An event at x leaves every pair without x as it was. */
  lemma EventAt(s: Net, s': Net, x: Id)
    requires WF(s) && WF(s') && Inv(s) && s'.lock.Keys == s.lock.Keys
    requires forall i | i in s.lock && i != x :: s'.lock[i] == s.lock[i]
    requires forall i, j | (i, j) in s.chan && i != x && j != x :: s'.chan[(i, j)] == s.chan[(i, j)]
    requires forall j | (x, j) in s.chan :: PairOk(s', x, j)
    ensures Inv(s')
  {
    forall i, j | (i, j) in s'.chan ensures PairOk(s', i, j) {
      if j == x { assert PairOk(s', x, i); } else if i != x { assert PairOk(s, i, j); }
    }
  }

  lemma StartPair(s: Net, x: Id, j: Id)
    requires WF(s) && Inv(s) && Enabled(s, Start(x)) && Owed(s, x, 1) && (x, j) in s.chan
    ensures PairOk(Do(s, Start(x)), x, j)
  {
    assert PairOk(s, x, j);
    var l, needed := s.clock[x] + 1, s.lock.Keys - {x};
    PairStart(x, j, l, needed, s.lock[j], s.chan[(x, j)], s.chan[(j, x)]);
    var s' := Do(s, Start(x));
    assert s'.lock == s.lock[x := Pending(l, needed, {})];
    assert s'.chan[(x, j)] == s.chan[(x, j)] + [Req(l)] && s'.chan[(j, x)] == s.chan[(j, x)];
  }

  lemma StartKeepsInv(s: Net, x: Id)
    requires WF(s) && Inv(s) && Enabled(s, Start(x)) && Owed(s, x, 1)
    ensures Inv(Do(s, Start(x)))
  {
    var s' := Do(s, Start(x));
    forall j | (x, j) in s.chan ensures PairOk(s', x, j) { StartPair(s, x, j); }
    EventAt(s, s', x);
  }

  lemma LetGoKeepsInv(s: Net, st: Step)
    requires WF(s) && Inv(s) && Enabled(s, st) && (st.Timeout? || st.Unlock?)
    ensures Inv(Do(s, st))
  {
    var x, s' := st.i, Do(s, st);
    forall j | (x, j) in s.chan ensures PairOk(s', x, j) {
      assert PairOk(s, x, j);
      PairLetGo(x, j, s.lock[x], Free, s.lock[j], s.chan[(x, j)], s.chan[(j, x)]);
    }
    EventAt(s, s', x);
  }

  lemma ExpireKeepsInv(s: Net, x: Id)
    requires WF(s) && Inv(s) && Enabled(s, Expire(x))
    ensures Inv(Do(s, Expire(x)))
  {
    var s' := Do(s, Expire(x));
    forall j | (x, j) in s.chan ensures PairOk(s', x, j) {
      assert PairOk(s, x, j);
      PairSilent(x, j, s.lock[x], Free, s.lock[j], s.chan[(x, j)], s.chan[(j, x)]);
    }
    EventAt(s, s', x);
  }

  lemma ReceiveKeepsInv(s: Net, x: Id, from: Id, refuse: bool)
    requires WF(s) && Inv(s) && Enabled(s, Receive(x, from, refuse))
    ensures Inv(Do(s, Receive(x, from, refuse)))
  {
    var s' := Do(s, Receive(x, from, refuse));
    var m := s.chan[(from, x)][0];
    forall j | (x, j) in s.chan ensures PairOk(s', x, j) {
      assert PairOk(s, x, j);
      var t, u, a, b := s.lock[x], s.lock[j], s.chan[(x, j)], s.chan[(j, x)];
      if j == from {
        match m {
          case Req(_) => PairReq(x, j, t, u, a, b, refuse);
          case Grant => PairGrant(x, j, t, u, a, b);
          case Deny => PairDeny(x, j, t, u, a, b);
          case Release => PairRelease(x, j, t, u, a, b);
        }
      } else {
        ThirdParty(s, x, from, j, m, refuse);
      }
    }
    EventAt(s, s', x);
  }

  /** A message from `from` to x, seen by the pair of x with another node j. */
  lemma ThirdParty(s: Net, x: Id, from: Id, j: Id, m: Msg, refuse: bool)
    requires WF(s) && (x, j) in s.chan && PairOk(s, x, j) && Enabled(s, Receive(x, from, refuse))
    requires j != from && m == s.chan[(from, x)][0]
    ensures PairOk(Do(s, Receive(x, from, refuse)), x, j)
  {
    var t, u, a, b := s.lock[x], s.lock[j], s.chan[(x, j)], s.chan[(j, x)];
    match m {
      case Req(l) =>
        var (t', d) := OnRemoteRequest(t, x, from, l, refuse);
        if d.GrantedAndAborted? { PairLetGo(x, j, t, t', u, a, b); }
        else if t' != t { PairSilent(x, j, t, t', u, a, b); }
      case Grant => PairOtherGrant(x, j, t, from, u, a, b);
      case Deny => if t.Pending? { PairLetGo(x, j, t, Free, u, a, b); }
      case Release => if t == Held(from) { PairSilent(x, j, t, Free, u, a, b); }
    }
  }

  // ---------- the theorem ----------

  /** At most one node holds the lease in every state of every run in which nobody asks again while
      an answer is owed, under any interleaving of the ordered streams, refusals, timeouts and lost
      leases. */
  lemma {:induction false} MutualExclusion(s: Net, steps: seq<Step>, limit: nat)
    requires WF(s) && Init(s) && IsRun(s, steps, limit) && limit <= 1
    ensures Exclusive(Final(s, steps, limit))
  {
    assert forall i, j | (i, j) in s.chan :: PairOk(s, i, j);
    InvOfRun(s, steps, limit);
    InvIsExclusive(Final(s, steps, limit));
  }

  lemma {:induction false} InvOfRun(s: Net, steps: seq<Step>, limit: nat)
    requires WF(s) && Inv(s) && IsRun(s, steps, limit) && limit <= 1
    ensures Inv(Final(s, steps, limit))
    decreases |steps|
  {
    if steps != [] {
      match steps[0] {
        case Start(i) => StartKeepsInv(s, i);
        case Receive(i, from, refuse) => ReceiveKeepsInv(s, i, from, refuse);
        case Expire(i) => ExpireKeepsInv(s, i);
        case _ => LetGoKeepsInv(s, steps[0]);
      }
      InvOfRun(Do(s, steps[0]), steps[1..], limit);
    }
  }

  // ---------- why nobody may ask again too soon ----------

  /** The network of the two nodes 0 and 1: their entries, clocks and streams. */
  ghost predicate Duo(s: Net, t0: Lock, t1: Lock, c0: nat, c1: nat, q01: seq<Msg>, q10: seq<Msg>) {
    && WF(s) && s.lock.Keys == {0, 1} && (0, 1) in s.chan && (1, 0) in s.chan
    && s.lock[0] == t0 && s.lock[1] == t1 && s.clock[0] == c0 && s.clock[1] == c1
    && s.chan[(0, 1)] == q01 && s.chan[(1, 0)] == q10
  }

  function Ask(l: nat, voter: Id): Lock { Pending(l, {voter}, {}) }

  /** A run of the two nodes, scene by scene: node 0 asks and times out, both then grant each
      other, and each counts the other's old grant for its next request. */
  ghost predicate Scene(k: nat, s: Net) {
    match k
    case 0 => Duo(s, Free, Free, 0, 0, [], [])
    case 1 => Duo(s, Ask(1, 1), Free, 1, 0, [Req(1)], [])
    case 2 => Duo(s, Free, Free, 1, 0, [Req(1), Release], [])
    case 3 => Duo(s, Free, Ask(1, 0), 1, 1, [Req(1), Release], [Req(1)])
    case 4 => Duo(s, Held(1), Ask(1, 0), 1, 1, [Req(1), Release, Grant], [])
    case 5 => Duo(s, Held(1), Held(0), 1, 1, [Release, Grant], [Release, Grant])
    case 6 => Duo(s, Free, Held(0), 1, 1, [Release, Grant], [Grant])
    case 7 => Duo(s, Ask(2, 1), Held(0), 2, 1, [Release, Grant, Req(2)], [Grant])
    case 8 => Duo(s, Held(0), Held(0), 2, 1, [Release, Grant, Req(2)], [])
    case 9 => Duo(s, Held(0), Free, 2, 1, [Grant, Req(2)], [])
    case 10 => Duo(s, Held(0), Ask(2, 0), 2, 2, [Grant, Req(2)], [Req(2)])
    case _ => Duo(s, Held(0), Held(1), 2, 2, [Req(2)], [Req(2)])
  }

  const SCRIPT: seq<Step> := [
    Start(0), Timeout(0), Start(1), Receive(0, 1, false), Receive(1, 0, false), Receive(0, 1, false),
    Start(0), Receive(0, 1, false), Receive(1, 0, false), Start(1), Receive(1, 0, false)]

  lemma SceneMove(k: nat, s: Net)
    requires k < 11 && Scene(k, s)
    ensures Enabled(s, SCRIPT[k]) && Scene(k + 1, Do(s, SCRIPT[k]))
  {
    if k < 3 { OpeningMove(k, s); } else if k < 6 { EarlyMove(k, s); } else { LateMove(k, s); }
  }

  lemma OpeningMove(k: nat, s: Net)
    requires k < 3 && Scene(k, s)
    ensures Enabled(s, SCRIPT[k]) && Scene(k + 1, Do(s, SCRIPT[k]))
  {
    assert s.lock.Keys - {0} == {1} && s.lock.Keys - {1} == {0};
  }

  lemma EarlyMove(k: nat, s: Net)
    requires 3 <= k < 6 && Scene(k, s)
    ensures Enabled(s, SCRIPT[k]) && Scene(k + 1, Do(s, SCRIPT[k]))
  {
    assert s.lock.Keys - {0} == {1} && s.lock.Keys - {1} == {0};
  }

  lemma LateMove(k: nat, s: Net)
    requires 6 <= k < 11 && Scene(k, s)
    ensures Enabled(s, SCRIPT[k]) && Scene(k + 1, Do(s, SCRIPT[k]))
  {
    assert s.lock.Keys - {0} == {1} && s.lock.Keys - {1} == {0};
  }

  /** At each start of the script one earlier request at most is unanswered. */
  lemma SceneOwed(k: nat, s: Net, limit: nat)
    requires k < 11 && Scene(k, s) && SCRIPT[k].Start? && limit >= 2
    ensures Owed(s, SCRIPT[k].i, limit)
  {
    assert k == 0 || k == 2 || k == 6 || k == 9;
    forall i, j | (i, j) in s.chan && (j, i) in s.chan ensures (i, j) == (0, 1) || (i, j) == (1, 0) {}
    assert Outstanding(s.chan[(0, 1)], s.chan[(1, 0)]) < 2 || SCRIPT[k].i == 1;
    assert Outstanding(s.chan[(1, 0)], s.chan[(0, 1)]) < 2 || SCRIPT[k].i == 0;
  }

  lemma PlayFrom(k: nat, s: Net, limit: nat)
    requires k <= 11 && Scene(k, s) && limit >= 2
    ensures IsRun(s, SCRIPT[k..], limit) && Scene(11, Final(s, SCRIPT[k..], limit))
    decreases 11 - k
  {
    if k < 11 {
      SceneMove(k, s);
      if SCRIPT[k].Start? { SceneOwed(k, s, limit); }
      assert SCRIPT[k..][1..] == SCRIPT[k + 1..];
      PlayFrom(k + 1, Do(s, SCRIPT[k]), limit);
    }
  }

  lemma FirstScene() returns (s: Net)
    ensures WF(s) && Init(s) && Scene(0, s)
  {
    s := Net(map[0 := Free, 1 := Free], map[0 := 0, 1 := 0], map[(0, 1) := [], (1, 0) := []]);
  }

  /** Two nodes that each retry with one answer outstanding can both come to hold the lease: a
      grant does not name the request it answers, so the old one is counted for the new. */
  lemma StaleGrantBreaksExclusion(limit: nat) returns (s: Net, steps: seq<Step>)
    requires limit >= 2
    ensures WF(s) && Init(s) && IsRun(s, steps, limit) && !Exclusive(Final(s, steps, limit))
  {
    s := FirstScene();
    PlayFrom(0, s, limit);
    steps := SCRIPT[0..];
    var e := Final(s, steps, limit);
    assert e.lock[0] == Held(0) && e.lock[1] == Held(1);
  }

  /** No network comes to two holders when every start keeps to the limit. */
  ghost predicate ExclusiveWithin(limit: nat) {
    forall s, steps | WF(s) && Init(s) && IsRun(s, steps, limit) :: Exclusive(Final(s, steps, limit))
  }

  /** Exclusion holds in every network and run if and only if nobody asks again while an answer to an
      earlier request is owed. */
  lemma ExclusionExactly(limit: nat)
    ensures ExclusiveWithin(limit) <==> limit <= 1
  {
    if limit <= 1 {
      forall s, steps | WF(s) && Init(s) && IsRun(s, steps, limit) ensures Exclusive(Final(s, steps, limit)) {
        MutualExclusion(s, steps, limit);
      }
    } else {
      var s, steps := StaleGrantBreaksExclusion(limit);
    }
  }
}
