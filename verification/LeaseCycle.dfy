/** That the lease protocol gets somewhere: requests carry rising numbers, an idle network grants a request
    everywhere, a release frees the path everywhere, and of two rivals the later one stands back. */
module LeaseCycle {
  import opened Common
  import opened Leases

  // ---------- clocks ----------

  /** No step lowers a node's clock, a request that arrives lifts it to its number, and a request that is sent
      carries a number above all its node has sent or heard of. */
  lemma ClockRises(s: Net, st: Step)
    requires WF(s) && Enabled(s, st)
    ensures forall n | n in s.lock :: s.clock[n] <= Do(s, st).clock[n]
    ensures st.Receive? && s.chan[(st.from, st.i)][0].Req? ==>
              s.chan[(st.from, st.i)][0].lamport <= Do(s, st).clock[st.i]
    ensures st.Start? ==>
              && s.clock[st.i] < Do(s, st).clock[st.i]
              && Do(s, st).lock[st.i] == Pending(Do(s, st).clock[st.i], s.lock.Keys - {st.i}, {})
              && forall j | (st.i, j) in s.chan ::
                   Do(s, st).chan[(st.i, j)] == s.chan[(st.i, j)] + [Req(Do(s, st).clock[st.i])]
  {
  }

  // ---------- every message has its answer ----------

  /** Every request that arrives is answered, once: by a grant if and only if the table then says the asker
      holds the lease, unless the asker may not ask. */
  lemma EveryRequestAnswered(s: Net, i: Id, from: Id, refuse: bool)
    requires WF(s) && Enabled(s, Receive(i, from, refuse)) && s.chan[(from, i)][0].Req?
    ensures var s' := Do(s, Receive(i, from, refuse));
            var out := s'.chan[(i, from)];
            && out != [] && Answers(out) == Answers(s.chan[(i, from)]) + 1
            && out[|out| - 1] == if !refuse && s'.lock[i] == Held(from) then Grant else Deny
  {
    var q, s' := s.chan[(i, from)], Do(s, Receive(i, from, refuse));
    CountsAppend(q, Release);
    CountsAppend(q, Grant);
    CountsAppend(q, Deny);
    CountsAppend(q + [Release], Grant);
  }

  /** What a step added to a stream. */
  ghost function Sent(s: Net, s': Net, i: Id, j: Id): seq<Msg>
    requires (i, j) in s.chan && (i, j) in s'.chan && |s.chan[(i, j)]| <= |s'.chan[(i, j)]|
  {
    s'.chan[(i, j)][|s.chan[(i, j)]|..]
  }

  /** A node that gives up its request or its lease by itself tells every peer, so that none goes on counting
      it as the holder; only a lease that runs out ends in silence. */
  lemma GivingUpIsTold(s: Net, st: Step, j: Id)
    requires WF(s) && Enabled(s, st) && (st.i, j) in s.chan && !st.Expire?
    requires (s.lock[st.i].Pending? || s.lock[st.i] == Held(st.i)) && (st.Receive? ==> s.lock[st.i].Pending?)
    requires var t := Do(s, st).lock[st.i]; !t.Pending? && t != Held(st.i)
    ensures |s.chan[(st.i, j)]| <= |Do(s, st).chan[(st.i, j)]| && Release in Sent(s, Do(s, st), st.i, j)
  {
    var q, q' := s.chan[(st.i, j)], Do(s, st).chan[(st.i, j)];
    assert q' == q + [Release] || q' == q + [Release] + [Grant];
    assert q'[|q|..][0] == Release;
  }

  /** A lease that runs out is gone at its holder, who may ask anew, while its peers go on knowing it. */
  lemma ExpiryIsSilent(s: Net, i: Id)
    requires WF(s) && Enabled(s, Expire(i))
    ensures var s' := Do(s, Expire(i));
            && Enabled(s', Start(i)) && s'.chan == s.chan && forall j | j in Peers(s, i) :: s'.lock[j] == s.lock[j]
  {
  }

  // ---------- a request in an idle network ----------

  ghost predicate Leads(s: Net, steps: seq<Step>, z: Net, limit: nat)
    requires WF(s)
  {
    IsRun(s, steps, limit) && Final(s, steps, limit) == z
  }

  lemma Next(s: Net, st: Step, steps: seq<Step>, z: Net, limit: nat)
    requires WF(s) && Enabled(s, st) && (st.Start? ==> Owed(s, st.i, limit)) && Leads(Do(s, st), steps, z, limit)
    ensures Leads(s, [st] + steps, z, limit)
  {
    assert ([st] + steps)[1..] == steps;
  }

  ghost function Peers(s: Net, i: Id): set<Id> { s.lock.Keys - {i} }

  /** Node `i` and its peers agree on the path's state, and nothing is under way between them. */
  ghost predicate Everywhere(s: Net, i: Id, t: Lock)
    requires WF(s)
  {
    && i in s.lock && s.lock[i] == t
    && forall j | j in Peers(s, i) :: s.lock[j] == t && s.chan[(i, j)] == [] && s.chan[(j, i)] == []
  }

  /** The request has been asked of every peer, and answered by those of `done`. */
  ghost predicate Asking(s: Net, i: Id, l: nat, done: set<Id>)
    requires WF(s)
  {
    && i in s.lock && done <= Peers(s, i)
    && s.lock[i] == (if done == Peers(s, i) then Held(i) else Pending(l, Peers(s, i), done))
    && forall j | j in Peers(s, i) :: Answered(s, i, j, l, j in done)
  }

  ghost predicate Answered(s: Net, i: Id, j: Id, l: nat, yes: bool)
    requires WF(s) && i in s.lock && j in s.lock && i != j
  {
    && s.chan[(j, i)] == [] && s.chan[(i, j)] == (if yes then [] else [Req(l)])
    && s.lock[j] == if yes then Held(i) else Free
  }

  lemma OneAnswers(s: Net, i: Id, l: nat, done: set<Id>, j: Id) returns (z: Net)
    requires WF(s) && Asking(s, i, l, done) && j in Peers(s, i) - done
    ensures Enabled(s, Receive(j, i, false)) && Enabled(Do(s, Receive(j, i, false)), Receive(i, j, false))
    ensures z == Do(Do(s, Receive(j, i, false)), Receive(i, j, false)) && Asking(z, i, l, done + {j})
  {
    assert Answered(s, i, j, l, false);
    assert [Req(l)][1..] == [] && [] + [Grant] == [Grant];
    var s1 := Do(s, Receive(j, i, false));
    assert s1.lock == s.lock[j := Held(i)] && s1.chan == s.chan[(i, j) := []][(j, i) := [Grant]];
    assert [Grant][1..] == [];
    z := Do(s1, Receive(i, j, false));
    assert z.chan == s1.chan[(j, i) := []];
    assert z.chan == s.chan[(i, j) := []] && z.lock == s1.lock[i := OnGrant(s.lock[i], i, j)];
    forall k | k in Peers(z, i) ensures Answered(z, i, k, l, k in done + {j}) {
      assert Answered(s, i, k, l, k in done);
    }
  }

  lemma {:induction false} AllAnswer(s: Net, i: Id, l: nat, done: set<Id>, limit: nat)
    returns (steps: seq<Step>, z: Net)
    requires WF(s) && Asking(s, i, l, done)
    ensures Leads(s, steps, z, limit) && WF(z) && z.lock.Keys == s.lock.Keys && Asking(z, i, l, Peers(s, i))
    decreases |Peers(s, i) - done|
  {
    if done == Peers(s, i) {
      steps, z := [], s;
    } else {
      var j :| j in Peers(s, i) && j !in done;
      var s2 := OneAnswers(s, i, l, done, j);
      assert Peers(s, i) - (done + {j}) == Peers(s, i) - done - {j};
      steps, z := AllAnswer(s2, i, l, done + {j}, limit);
      Next(Do(s, Receive(j, i, false)), Receive(i, j, false), steps, z, limit);
      steps := [Receive(i, j, false)] + steps;
      Next(s, Receive(j, i, false), steps, z, limit);
      steps := [Receive(j, i, false)] + steps;
    }
  }

  /** Any node of an idle network gets the lease, and every node then knows its holder. */
  lemma IdleAcquires(s: Net, i: Id, limit: nat) returns (steps: seq<Step>, z: Net)
    requires WF(s) && Everywhere(s, i, Free) && Peers(s, i) != {} && limit > 0
    ensures Leads(s, steps, z, limit) && WF(z) && z.lock.Keys == s.lock.Keys && Everywhere(z, i, Held(i))
  {
    var l := s.clock[i] + 1;
    var s1 := Do(s, Start(i));
    forall j | j in Peers(s, i) ensures Answered(s1, i, j, l, false) {
      assert s.chan[(i, j)] == [] && s.chan[(j, i)] == [];
      assert s1.chan[(i, j)] == [] + [Req(l)];
    }
    assert Asking(s1, i, l, {});
    assert Owed(s, i, limit) by {
      forall j | j in s.lock && (i, j) in s.chan && (j, i) in s.chan
        ensures Outstanding(s.chan[(i, j)], s.chan[(j, i)]) < limit
      {
        assert j in Peers(s, i);
      }
    }
    steps, z := AllAnswer(s1, i, l, {}, limit);
    Next(s, Start(i), steps, z, limit);
    steps := [Start(i)] + steps;
    forall j | j in Peers(z, i) ensures z.lock[j] == Held(i) && z.chan[(i, j)] == [] && z.chan[(j, i)] == [] {
      assert Answered(z, i, j, l, true);
    }
  }

  // ---------- a release ----------

  ghost predicate Leaving(s: Net, i: Id, done: set<Id>)
    requires WF(s)
  {
    && i in s.lock && done <= Peers(s, i) && s.lock[i] == Free
    && forall j | j in Peers(s, i) :: Left(s, i, j, j in done)
  }

  ghost predicate Left(s: Net, i: Id, j: Id, yes: bool)
    requires WF(s) && i in s.lock && j in s.lock && i != j
  {
    && s.chan[(j, i)] == [] && s.chan[(i, j)] == (if yes then [] else [Release])
    && s.lock[j] == if yes then Free else Held(i)
  }

  lemma OneHears(s: Net, i: Id, done: set<Id>, j: Id) returns (z: Net)
    requires WF(s) && Leaving(s, i, done) && j in Peers(s, i) - done
    ensures Enabled(s, Receive(j, i, false)) && z == Do(s, Receive(j, i, false)) && Leaving(z, i, done + {j})
  {
    assert Left(s, i, j, false);
    assert [Release][1..] == [];
    z := Do(s, Receive(j, i, false));
    assert z.chan == s.chan[(i, j) := []] && z.lock == s.lock[j := Free];
    forall k | k in Peers(z, i) ensures Left(z, i, k, k in done + {j}) { assert Left(s, i, k, k in done); }
  }

  lemma {:induction false} AllHear(s: Net, i: Id, done: set<Id>, limit: nat) returns (steps: seq<Step>, z: Net)
    requires WF(s) && Leaving(s, i, done)
    ensures Leads(s, steps, z, limit) && WF(z) && z.lock.Keys == s.lock.Keys && Leaving(z, i, Peers(s, i))
    decreases |Peers(s, i) - done|
  {
    if done == Peers(s, i) {
      steps, z := [], s;
    } else {
      var j :| j in Peers(s, i) && j !in done;
      var st := Receive(j, i, false);
      var s1 := OneHears(s, i, done, j);
      assert Peers(s, i) - (done + {j}) == Peers(s, i) - done - {j};
      steps, z := AllHear(s1, i, done + {j}, limit);
      Next(s, st, steps, z, limit);
      steps := [st] + steps;
    }
  }

  /** A holder that unlocks frees the path everywhere. */
  lemma ReleaseFrees(s: Net, i: Id, limit: nat) returns (steps: seq<Step>, z: Net)
    requires WF(s) && Everywhere(s, i, Held(i))
    ensures Leads(s, steps, z, limit) && WF(z) && z.lock.Keys == s.lock.Keys && Everywhere(z, i, Free)
  {
    var s1 := Do(s, Unlock(i));
    forall j | j in Peers(s, i) ensures Left(s1, i, j, false) {
      assert s.chan[(i, j)] == [] && s.chan[(j, i)] == [];
      assert s1.chan[(i, j)] == [] + [Release];
    }
    assert Leaving(s1, i, {});
    steps, z := AllHear(s1, i, {}, limit);
    Next(s, Unlock(i), steps, z, limit);
    steps := [Unlock(i)] + steps;
    forall j | j in Peers(z, i) ensures z.lock[j] == Free && z.chan[(i, j)] == [] && z.chan[(j, i)] == [] {
      assert Left(z, i, j, true);
    }
  }
}
