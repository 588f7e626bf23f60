/** That a resolve gets to its end: the run in which the client's requests are all accepted. */
module ResolveSuccess {
  import opened Common
  import opened Preservation
  import opened PathExclusion
  import opened DaemonSteps
  import opened Resolve
  import opened ResolveSteps
  import opened ResolveSafety
  import opened ResolveDrive
  import opened ResolveLimits

  /** From an idle start by fair moves to the end: the target holds the bytes, they are on record and the
      copy is gone. */
  lemma ResolveSucceeds(j: Job, y: System) returns (ms: seq<Move>, z: System)
    requires Start(j, y) && Idle(y.s) && !y.s.busy && !y.s.recheck && !y.s.leased && y.s.deferred.None?
    requires y.s.disk.Some? ==> y.s.index.Some? && y.s.index.value.Live?
    ensures Leads(j, y, ms, z, true) && z.phase == Done
    ensures z.s.disk == Some(j.q) && Recorded(z.s, j.q) && j.name !in z.s.quarantine
  {
    var lock, y1 := Relocked(j, y);
    InvOfLeads(j, y, lock, y1, true);
    SameSafety(j, y.s, y1.s);
    var y2 := Make(j, y1, Locked);
    var y3 := Make(j, y2, SendApply);
    assert y3.phase == AwaitApply && Applying(j.q, j.me) in y3.s.tasks;
    ms, z := ApplySucceeds(j, y3);
    First(j, y2, SendApply, ms, z, true);
    ms := [SendApply] + ms;
    First(j, y1, Locked, ms, z, true);
    ms := [Locked] + ms;
    Then(j, y, lock, y1, ms, z, true);
    ms := lock + ms;
  }

  lemma ApplySucceeds(j: Job, y: System) returns (ms: seq<Move>, z: System)
    requires y.phase == AwaitApply && Applying(j.q, j.me) in y.s.tasks && y.s.leased && Copy(j, y.s) && !y.s.recheck
    requires y.s.index == Some(Live(j.q)) ==> Recorded(y.s, j.q)
    ensures Leads(j, y, ms, z, true) && z.phase == Done
    ensures z.s.disk == Some(j.q) && Recorded(z.s, j.q) && j.name !in z.s.quarantine
  {
    var m, y1 := AppliedLeads(j, y);
    SameSafety(j, y.s, y1.s);
    ms, z := LandedSucceeds(j, y1);
    First(j, Make(j, y, m), GetApplied(true), ms, z, true);
    ms := [GetApplied(true)] + ms;
    First(j, y, m, ms, z, true);
    ms := [m] + ms;
  }

  lemma LandedSucceeds(j: Job, y: System) returns (ms: seq<Move>, z: System)
    requires y.phase == WantUnlock && y.s.leased && !y.s.busy && y.s.disk == Some(j.q) && Copy(j, y.s)
    requires y.s.index == Some(Live(j.q)) ==> Recorded(y.s, j.q)
    ensures Leads(j, y, ms, z, true) && z.phase == Done
    ensures z.s.disk == Some(j.q) && Recorded(z.s, j.q) && j.name !in z.s.quarantine
  {
    var y1 := Make(j, y, SendUnlock);
    assert y1 == System(Spawn(y.s, Inspecting(y.s.index, Client(j.me))), AwaitUnlock);
    ms, z := UnlockSucceeds(j, y1, y.s.index);
    First(j, y, SendUnlock, ms, z, true);
    ms := [SendUnlock] + ms;
  }

  lemma UnlockSucceeds(j: Job, y: System, entry: Option<Entry>) returns (ms: seq<Move>, z: System)
    requires y.phase == AwaitUnlock && y.s.leased && y.s.disk == Some(j.q) && Copy(j, y.s)
    requires Inspecting(entry, Client(j.me)) in y.s.tasks && (entry == Some(Live(j.q)) ==> Recorded(y.s, j.q))
    ensures Leads(j, y, ms, z, true) && z.phase == Done
    ensures z.s.disk == Some(j.q) && Recorded(z.s, j.q) && j.name !in z.s.quarantine
  {
    var l, l2 := GoodLuck(y.s, true);
    var m := Daemon(Work(Inspecting(entry, Client(j.me)), true, l));
    var y1, look := Make(j, y, m), Examine(entry, y.s.disk);
    SameSafety(j, y.s, y1.s);
    if look.Clean? { ms, z := CleanSucceeds(j, y1); } else { ms, z := EditSucceeds(j, y1, look); }
    First(j, y, m, ms, z, true);
    ms := [m] + ms;
  }

  lemma CleanSucceeds(j: Job, y: System) returns (ms: seq<Move>, z: System)
    requires y.phase == AwaitUnlock && y.s.disk == Some(j.q) && Recorded(y.s, j.q) && Copy(j, y.s)
    requires Inspected(Clean, Client(j.me)) in y.s.tasks
    ensures Leads(j, y, ms, z, true) && z.phase == Done
    ensures z.s.disk == Some(j.q) && Recorded(z.s, j.q) && j.name !in z.s.quarantine
  {
    var l, l2 := GoodLuck(y.s, true);
    var m := Daemon(Handle(Inspected(Clean, Client(j.me)), true, Requested, l, l2));
    CleanAnswer(y.s, Clean, j.me, l, l2);
    ms, z := DiscardSucceeds(j, Make(j, y, m));
    First(j, y, m, ms, z, true);
    ms := [m] + ms;
  }

  lemma EditSucceeds(j: Job, y: System, look: Look) returns (ms: seq<Move>, z: System)
    requires y.phase == AwaitUnlock && y.s.leased && y.s.disk == Some(j.q) && Copy(j, y.s)
    requires Inspected(look, Client(j.me)) in y.s.tasks && (look.Differs? || look.Unindexed?)
    ensures Leads(j, y, ms, z, true) && z.phase == Done
    ensures z.s.disk == Some(j.q) && Recorded(z.s, j.q) && j.name !in z.s.quarantine
  {
    var l, l2 := GoodLuck(y.s, true);
    var m := Daemon(Handle(Inspected(look, Client(j.me)), true, Requested, l, l2));
    var y1 := Make(j, y, m);
    assert y1.s == Spawn(Taken(y.s, Inspected(look, Client(j.me))), Publishing(Client(j.me)));
    ms, z := PublishSucceeds(j, y1);
    First(j, y, m, ms, z, true);
    ms := [m] + ms;
  }

  lemma PublishSucceeds(j: Job, y: System) returns (ms: seq<Move>, z: System)
    requires y.phase == AwaitUnlock && y.s.leased && y.s.disk == Some(j.q) && Copy(j, y.s)
    requires Publishing(Client(j.me)) in y.s.tasks
    ensures Leads(j, y, ms, z, true) && z.phase == Done
    ensures z.s.disk == Some(j.q) && Recorded(z.s, j.q) && j.name !in z.s.quarantine
  {
    var l, l2 := GoodLuck(y.s, true);
    var m := Daemon(Work(Publishing(Client(j.me)), true, l));
    var t := Published(Some(j.q), Client(j.me));
    var y1 := Make(j, y, m);
    assert y1.s == Add(Taken(y.s, Publishing(Client(j.me))), t);
    var k, k2 := GoodLuck(y1.s, true);
    var m1 := Daemon(Handle(t, true, Requested, k, k2));
    PublishedAnswer(y1.s, j.q, j.me, k, k2);
    ms, z := DiscardSucceeds(j, Make(j, y1, m1));
    First(j, y1, m1, ms, z, true);
    ms := [m1] + ms;
    First(j, y, m, ms, z, true);
    ms := [m] + ms;
  }

  lemma DiscardSucceeds(j: Job, y: System) returns (ms: seq<Move>, z: System)
    requires y.phase == AwaitUnlock && Unlocked(j.me, true) in y.s.replies
    requires y.s.disk == Some(j.q) && Recorded(y.s, j.q) && Copy(j, y.s)
    ensures Leads(j, y, ms, z, true) && z.phase == Done
    ensures z.s.disk == Some(j.q) && Recorded(z.s, j.q) && j.name !in z.s.quarantine
  {
    var y1 := Make(j, y, GetUnlocked(true));
    z := Make(j, y1, SendDiscard);
    One(j, y1, SendDiscard, true);
    First(j, y, GetUnlocked(true), [SendDiscard], z, true);
    ms := [GetUnlocked(true)] + [SendDiscard];
  }

  // ---------- a refusal ----------

  /** A reply that is no, a request the daemon does not accept and a client that gives up end the resolve. */
  lemma RefusalEnds(j: Job, y: System, m: Move)
    requires CanMove(j, y, m)
    requires || m == GetApplied(false) || m == GetUnlocked(false) || m.GiveUp?
             || (m.SendApply? && !Enabled(y.s, AskApply(j.name, j.me)))
             || (m.SendUnlock? && !Enabled(y.s, AskUnlock(j.me))) || (m.SendDiscard? && !Enabled(y.s, Discard(j.name)))
    ensures Make(j, y, m) == y.(phase := Refused)
  {
  }

  /** From then on the client sends nothing more: no copy is discarded after a refusal. */
  lemma {:induction false} RefusedForGood(j: Job, y: System, ms: seq<Move>, z: System, fair: bool)
    requires y.phase == Refused && Leads(j, y, ms, z, fair)
    ensures z.phase == Refused && forall i :: 0 <= i < |ms| ==> ms[i].Daemon? || ms[i].GiveUp?
    decreases |ms|
  {
    if ms != [] { RefusedForGood(j, Make(j, y, ms[0]), ms[1..], z, fair); }
  }
}
