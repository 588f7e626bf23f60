/** Duplicate control connections: when two nodes dial each other, both ends settle on the
    connection initiated by the lower id. */
module Peers {
  import opened Common

  /** A connection between the two nodes at hand: who opened it, and which one it is. */
  datatype Conn = Conn(initiator: Id, serial: nat)

  const MAX_PEERS := 128

  // ---------- one end ----------

  /** What an end does with a connection that finished its handshake: the entry it then has for the
      other node, and the connection it closes, if any. */
  function Resolve(current: Option<Conn>, c: Conn): (r: (Option<Conn>, Option<Conn>)) {
    if current.None? then (Some(c), None)
    else if c.initiator < current.value.initiator then (Some(c), current)
    else (current, Some(c))
  }

  /** Only the end of the current connection clears the entry. */
  function Clear(current: Option<Conn>, c: Conn): Option<Conn> {
    if current == Some(c) then None else current
  }

  class PeerTable {
    const me: Id
    var peers: map<Id, Conn>
    var closed: set<Conn>

    constructor (me: Id)
      ensures this.me == me && peers == map[] && closed == {}
    {
      this.me := me;
      peers, closed := map[], {};
    }

    ghost function Current(id: Id): Option<Conn>
      reads this
    {
      if id in peers then Some(peers[id]) else None
    }

    ghost predicate Valid()
      reads this
    {
      |peers| <= MAX_PEERS && me !in peers
    }

    method OnAuthed(id: Id, initiatedByMe: bool, serial: nat)
      requires Valid()
      modifies this`peers, this`closed
      ensures Valid() && forall q :: q != id ==> Current(q) == old(Current(q))
      ensures var c := Conn(if initiatedByMe then me else id, serial);
              if id == me || (id !in old(peers) && |old(peers)| >= MAX_PEERS)
              then peers == old(peers) && closed == old(closed) + {c}
              else var r := Resolve(old(Current(id)), c);
                   Current(id) == r.0 && closed == if r.1.Some? then old(closed) + {r.1.value} else old(closed)
    {
      var c := Conn(if initiatedByMe then me else id, serial);
      if id == me {
        closed := closed + {c};
        return;
      }
      if id !in peers && |peers| >= MAX_PEERS {
        closed := closed + {c};
        return;
      }
      if id in peers {
        var existing := peers[id];
        if c.initiator < existing.initiator {
          peers := peers - {id};
          closed := closed + {existing};
        } else {
          closed := closed + {c};
          return;
        }
      }
      peers := peers[id := c];
    }

    method OnGone(id: Id, c: Conn)
      requires Valid()
      modifies this`peers, this`closed
      ensures Valid() && forall q :: Current(q) == if q == id then Clear(old(Current(id)), c) else old(Current(q))
      ensures closed == if old(Current(id)) == Some(c) then old(closed) + {c} else old(closed)
    {
      if id !in peers || peers[id] != c { return; }
      peers := peers - {id};
      closed := closed + {c};
    }
  }

  // ---------- both ends ----------

  /** One end: its entry, and the connections whose handshake it has handled. */
  datatype End = End(current: Option<Conn>, handled: set<Conn>)

  /** The connections ever opened, the two ends, and the connections closed by either. */
  datatype Net = Net(dialed: set<Conn>, ends: map<bool, End>, closed: set<Conn>)

  datatype Step = Authed(side: bool, c: Conn) | Gone(side: bool, c: Conn)

  predicate WellFormed(n: Net) { true in n.ends && false in n.ends }

  /** An end learns that a connection is over only after someone closed it, and only if it ran it;
      it may learn it more than once. */
  predicate Enabled(n: Net, st: Step) {
    WellFormed(n)
    && match st
       case Authed(side, c) => c in n.dialed && c !in n.ends[side].handled
       case Gone(side, c) => c in n.closed && c in n.ends[side].handled
  }

  function Do(n: Net, st: Step): Net
    requires Enabled(n, st)
  {
    var e := n.ends[st.side];
    match st
    case Authed(side, c) =>
      var r := Resolve(e.current, c);
      n.(ends := n.ends[side := End(r.0, e.handled + {c})],
         closed := if r.1.Some? then n.closed + {r.1.value} else n.closed)
    case Gone(side, c) => n.(ends := n.ends[side := e.(current := Clear(e.current, c))])
  }

  function Start(dialed: set<Conn>): Net {
    Net(dialed, map[true := End(None, {}), false := End(None, {})], {})
  }

  /** The steps lead from `n` to `z`. */
  ghost predicate Leads(n: Net, steps: seq<Step>, z: Net)
    decreases |steps|
  {
    if steps == [] then n == z
    else Enabled(n, steps[0]) && Leads(Do(n, steps[0]), steps[1..], z)
  }

  /** A run of the two ends over the connections `dialed`. */
  ghost predicate Run(dialed: set<Conn>, steps: seq<Step>, z: Net) { Leads(Start(dialed), steps, z) }

  /** Nothing left to handle: every handshake, and the end of every connection still in a table. */
  ghost predicate Quiet(n: Net) {
    WellFormed(n) && forall st :: Enabled(n, st) ==> Do(n, st) == n
  }

  /** The connection of the lowest initiator, and no other of that initiator. */
  ghost predicate Best(dialed: set<Conn>, b: Conn) {
    b in dialed && forall c :: c in dialed && c != b ==> b.initiator < c.initiator
  }

  ghost predicate EndOk(n: Net, e: End, b: Conn) {
    && e.handled <= n.dialed
    && (b in e.handled ==> e.current == Some(b))
    && (e.current.Some? ==> e.current.value in e.handled)
    && forall c :: c in e.handled ==> e.current == Some(c) || c in n.closed
  }

  ghost predicate Inv(n: Net, b: Conn) {
    && WellFormed(n) && Best(n.dialed, b) && b !in n.closed
    && EndOk(n, n.ends[true], b) && EndOk(n, n.ends[false], b)
  }

  lemma StepKeeps(n: Net, st: Step, b: Conn)
    requires Inv(n, b) && Enabled(n, st)
    ensures Inv(Do(n, st), b)
  {
    var n' := Do(n, st);
    assert n'.ends[!st.side] == n.ends[!st.side];
    assert n.closed <= n'.closed;
    var e, e' := n.ends[st.side], n'.ends[st.side];
    assert EndOk(n, e, b);
    if st.Authed? {
      assert st.c != b ==> b.initiator < st.c.initiator;
      assert e.current.Some? && e.current.value != b ==> b.initiator < e.current.value.initiator;
    }
    assert EndOk(n', e', b);
    assert EndOk(n', n.ends[!st.side], b);
  }

  lemma {:induction false} InvOfRun(n: Net, steps: seq<Step>, z: Net, b: Conn)
    requires Inv(n, b) && Leads(n, steps, z)
    ensures Inv(z, b) && z.dialed == n.dialed
    decreases |steps|
  {
    if steps != [] {
      StepKeeps(n, steps[0], b);
      InvOfRun(Do(n, steps[0]), steps[1..], z, b);
    }
  }

  /** Under every interleaving neither end closes the lowest initiator's connection, no late end of
      another connection evicts it, and once an end has it, it keeps it. */
  lemma LowestIsKept(dialed: set<Conn>, steps: seq<Step>, z: Net, b: Conn, side: bool)
    requires Run(dialed, steps, z) && Best(dialed, b)
    ensures b !in z.closed && side in z.ends
    ensures b in z.ends[side].handled ==> z.ends[side].current == Some(b)
  {
    InvOfRun(Start(dialed), steps, z, b);
  }

  /** At quiescence both ends hold it, and every other connection is closed. */
  lemma QuietMeansAgreed(dialed: set<Conn>, steps: seq<Step>, z: Net, b: Conn)
    requires Run(dialed, steps, z) && Best(dialed, b) && Quiet(z)
    ensures WellFormed(z) && z.ends[true].current == Some(b) && z.ends[false].current == Some(b)
    ensures forall c :: c in dialed ==> (c in z.closed <==> c != b)
  {
    InvOfRun(Start(dialed), steps, z, b);
    forall side: bool, c | c in dialed ensures c in z.ends[side].handled {
      if c !in z.ends[side].handled { assert Enabled(z, Authed(side, c)); }
    }
  }

  // ---------- one connection per initiator is what it takes ----------

  /** No connection of a lower initiator was dialed. */
  ghost predicate Lowest(dialed: set<Conn>, c: Conn) {
    c in dialed && forall d :: d in dialed ==> c.initiator <= d.initiator
  }

  lemma {:induction false} LowestExists(dialed: set<Conn>) returns (c: Conn)
    requires dialed != {}
    ensures Lowest(dialed, c)
    decreases |dialed|
  {
    c :| c in dialed;
    var rest := dialed - {c};
    assert forall d :: d in dialed ==> d == c || d in rest;
    if rest != {} {
      var d := LowestExists(rest);
      c := if d.initiator < c.initiator then d else c;
    }
  }

  lemma First(n: Net, st: Step, steps: seq<Step>, z: Net)
    requires Enabled(n, st) && Leads(Do(n, st), steps, z)
    ensures Leads(n, [st] + steps, z)
  {
    assert ([st] + steps)[1..] == steps;
  }

  lemma {:induction false} Join(n: Net, steps: seq<Step>, m: Net, more: seq<Step>, z: Net)
    requires Leads(n, steps, m) && Leads(m, more, z)
    ensures Leads(n, steps + more, z)
    decreases |steps|
  {
    if steps == [] {
      assert steps + more == more;
    } else {
      Join(Do(n, steps[0]), steps[1..], m, more, z);
      assert (steps + more)[1..] == steps[1..] + more;
    }
  }

  lemma DropOne(n: Net, side: bool, c: Conn, d: Conn)
    requires WellFormed(n) && n.ends[side].current == Some(c) && Lowest(n.dialed, c)
    requires d in n.dialed && d !in n.ends[side].handled
    ensures var z := Do(n, Authed(side, d));
            && WellFormed(z) && z.dialed == n.dialed && z.ends[!side] == n.ends[!side]
            && z.ends[side] == End(Some(c), n.ends[side].handled + {d}) && z.closed == n.closed + {d}
  {
  }

  lemma Regroup(h: set<Conn>, d: Conn, rest: set<Conn>)
    requires d in rest
    ensures (h + {d}) + (rest - {d}) == h + rest
    ensures rest !! h ==> (rest - {d}) !! (h + {d})
  {
  }

  /** An end that holds a lowest connection drops all others it comes to handle. */
  lemma {:induction false} HandleRest(n: Net, side: bool, c: Conn, rest: set<Conn>) returns (steps: seq<Step>, z: Net)
    requires WellFormed(n) && n.ends[side].current == Some(c) && Lowest(n.dialed, c)
    requires rest <= n.dialed && rest !! n.ends[side].handled
    ensures Leads(n, steps, z) && WellFormed(z) && z.dialed == n.dialed && z.ends[!side] == n.ends[!side]
    ensures z.ends[side] == End(Some(c), n.ends[side].handled + rest) && z.closed == n.closed + rest
    decreases |rest|
  {
    var h := n.ends[side].handled;
    if rest == {} {
      steps, z := [], n;
      assert h + rest == h && n.closed + rest == n.closed;
    } else {
      var d :| d in rest;
      Regroup(h, d, rest);
      Regroup(n.closed, d, rest);
      DropOne(n, side, c, d);
      steps, z := HandleRest(Do(n, Authed(side, d)), side, c, rest - {d});
      First(n, Authed(side, d), steps, z);
      steps := [Authed(side, d)] + steps;
    }
  }

  lemma TwinsMet(dialed: set<Conn>, c: Conn, d: Conn) returns (steps: seq<Step>, z: Net)
    requires c in dialed && d in dialed
    ensures Run(dialed, steps, z) && WellFormed(z) && z.dialed == dialed && z.closed == {}
    ensures z.ends[true] == End(Some(c), {c}) && z.ends[false] == End(Some(d), {d})
  {
    var n0 := Start(dialed);
    var n1 := Do(n0, Authed(true, c));
    z := Do(n1, Authed(false, d));
    First(n1, Authed(false, d), [], z);
    First(n0, Authed(true, c), [Authed(false, d)] + [], z);
    steps := [Authed(true, c)] + ([Authed(false, d)] + []);
  }

  lemma TwinsHandled(dialed: set<Conn>, c: Conn, d: Conn) returns (steps: seq<Step>, z: Net)
    requires Lowest(dialed, c) && Lowest(dialed, d) && c != d
    ensures Run(dialed, steps, z) && WellFormed(z) && z.dialed == dialed && z.closed == dialed
    ensures z.ends[true] == End(Some(c), dialed) && z.ends[false] == End(Some(d), dialed)
  {
    var met, n := TwinsMet(dialed, c, d);
    var a, n1 := HandleRest(n, true, c, dialed - {c});
    var b, n2 := HandleRest(n1, false, d, dialed - {d});
    assert {c} + (dialed - {c}) == dialed && {d} + (dialed - {d}) == dialed;
    assert ({} + (dialed - {c})) + (dialed - {d}) == dialed;
    Join(Start(dialed), met, n, a, n1);
    Join(Start(dialed), met + a, n1, b, n2);
    steps, z := met + a + b, n2;
  }

  lemma TwinsGone(n: Net, c: Conn, d: Conn) returns (steps: seq<Step>, z: Net)
    requires WellFormed(n) && n.closed == n.dialed && c in n.dialed && d in n.dialed
    requires n.ends[true] == End(Some(c), n.dialed) && n.ends[false] == End(Some(d), n.dialed)
    ensures Leads(n, steps, z) && z.closed == n.dialed && Quiet(z)
    ensures WellFormed(z) && z.ends[true].current.None? && z.ends[false].current.None?
  {
    var n1 := Do(n, Gone(true, c));
    z := Do(n1, Gone(false, d));
    First(n1, Gone(false, d), [], z);
    First(n, Gone(true, c), [Gone(false, d)] + [], z);
    steps := [Gone(true, c)] + ([Gone(false, d)] + []);
    forall st | Enabled(z, st) ensures Do(z, st) == z {
      assert st.Gone? && z.ends[st.side].current.None?;
      assert z.ends[st.side := z.ends[st.side]] == z.ends;
    }
  }

  /** Two lowest connections that the ends handle in opposite order: each end closes the one the other
      keeps, until all are closed and neither end holds any. */
  lemma TwinsLoseAll(dialed: set<Conn>, c: Conn, d: Conn) returns (steps: seq<Step>, z: Net)
    requires Lowest(dialed, c) && Lowest(dialed, d) && c != d
    ensures Run(dialed, steps, z) && Quiet(z) && z.closed == dialed
    ensures WellFormed(z) && z.ends[true].current.None? && z.ends[false].current.None?
  {
    var a, n := TwinsHandled(dialed, c, d);
    var b;
    b, z := TwinsGone(n, c, d);
    Join(Start(dialed), a, n, b, z);
    steps := a + b;
  }

  /** Either one connection is best, or two share the lowest initiator. */
  lemma BestOrTwins(dialed: set<Conn>) returns (c: Conn, d: Conn)
    requires dialed != {}
    ensures Lowest(dialed, c) && Lowest(dialed, d) && (c == d ==> Best(dialed, c))
  {
    c := LowestExists(dialed);
    d := c;
    if e :| e in dialed && e != c && e.initiator == c.initiator { d := e; }
  }

  /** No run ever closes a lowest initiator's connection. */
  ghost predicate NeverClosed(dialed: set<Conn>) {
    forall steps, z, c | Run(dialed, steps, z) && Lowest(dialed, c) :: c !in z.closed
  }

  /** Every run that comes to rest leaves both ends with one and the same connection. */
  ghost predicate AlwaysAgreed(dialed: set<Conn>) {
    forall steps, z | Run(dialed, steps, z) && Quiet(z) ::
      z.ends[true].current.Some? && z.ends[true].current == z.ends[false].current
  }

  /** Both hold of every run if and only if the lowest initiator dialed once. */
  lemma BestIsExact(dialed: set<Conn>)
    requires dialed != {}
    ensures NeverClosed(dialed) <==> exists b :: Best(dialed, b)
    ensures AlwaysAgreed(dialed) <==> exists b :: Best(dialed, b)
  {
    var c, d := BestOrTwins(dialed);
    if c == d {
      forall steps, z, e | Run(dialed, steps, z) && Lowest(dialed, e) ensures e !in z.closed {
        LowestIsKept(dialed, steps, z, c, true);
      }
      forall steps, z | Run(dialed, steps, z) && Quiet(z)
        ensures z.ends[true].current.Some? && z.ends[true].current == z.ends[false].current
      {
        QuietMeansAgreed(dialed, steps, z, c);
      }
    } else {
      assert forall b :: Best(dialed, b) ==> b == c && b == d;
      var steps, z := TwinsLoseAll(dialed, c, d);
      assert !NeverClosed(dialed) && !AlwaysAgreed(dialed);
    }
  }
}
