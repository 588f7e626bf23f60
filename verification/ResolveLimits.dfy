/** Why a resolve needs what `Resolve` assumes: the runs that lose the bytes when the lease is taken anew
    where that does harm, or when the apply is accepted while something is in flight. */
module ResolveLimits {
  import opened Common
  import opened Preservation
  import opened PathExclusion
  import opened DaemonSteps
  import opened Resolve
  import opened ResolveSteps
  import opened ResolveSafety
  import opened ResolveDrive

  // ---------- the lease taken anew ----------

  /** No fair continuation loses the bytes. */
  ghost predicate SafeHereafter(j: Job, y: System) {
    forall ms, z :: Leads(j, y, ms, z, true) ==> Safe(z.s, j.q)
  }

  /** Where a new lease may do harm, it does: the operation in flight ends, and the client unlocks a target
      that no longer holds the bytes. */
  lemma LeaseHarms(j: Job, y: System) returns (ms: seq<Move>, z: System)
    requires y.phase == WantUnlock && y.s.waiting && Copy(j, y.s) && !LeaseOk(j, y.s) && NoTasks(j.me, y.s)
    ensures Leads(j, Make(j, y, Daemon(Grant)), ms, z, true) && z.phase == Done && !Kept(z.s, j.q)
  {
    var y1 := Make(j, y, Daemon(Grant));
    SameDoom(j, y.s, y1.s);
    if y1.s.busy {
      var t := HarmfulTask(j, y);
      var first, y2 := Drive(j, y1, t);
      ms, z := OverrunLoses(j, y2);
      Then(j, y1, first, y2, ms, z, true);
      ms := first + ms;
    } else {
      ms, z := OverrunLoses(j, y1);
    }
  }

  lemma HarmfulTask(j: Job, y: System) returns (t: Task)
    requires y.s.waiting && !LeaseOk(j, y.s) && NoTasks(j.me, y.s) && OnGranted(y.s).busy
    ensures t in OnGranted(y.s).tasks && !HandsBack(j, t) && t != Applying(j.q, j.me)
  {
    if y.s.autolock.Some? {
      t := Publishing(Watcher);
    } else {
      t :| t in y.s.tasks && !HandsBack(j, t);
    }
  }

  /** After the apply landed, a new lease is safe for every fair continuation if and only if the target still
      holds the bytes, they exist twice, or the lease will be handed back first. */
  lemma NewLeaseExactly(j: Job, y: System)
    requires Ok(j, y) && Landed(j, y) && Enabled(y.s, Grant)
    ensures SafeHereafter(j, Make(j, y, Daemon(Grant))) <==> LeaseOk(j, y.s)
  {
    var y1 := Make(j, y, Daemon(Grant));
    if LeaseOk(j, y.s) {
      MakeOk(j, y, Daemon(Grant));
      forall ms, z | Leads(j, y1, ms, z, true) ensures Safe(z.s, j.q) {
        OkOfRun(j, y1, ms, z);
        if z.phase != Done { FiledUnder(z.s, j.name); }
      }
    } else {
      var ms, z;
      if y.phase == WantUnlock {
        ms, z := LeaseHarms(j, y);
      } else {
        var m := GetApplied(true);
        var y0 := Make(j, y, m);
        ms, z := LeaseHarms(j, y0);
        assert Make(j, y1, m) == Make(j, y0, Daemon(Grant));
        First(j, y1, m, ms, z, true);
        ms := [m] + ms;
      }
      assert Leads(j, y1, ms, z, true) && !Safe(z.s, j.q);
      assert !SafeHereafter(j, y1);
    }
  }

  /** Asking for the lease and getting it. */
  lemma Relocked(j: Job, y: System) returns (ms: seq<Move>, z: System)
    requires !y.s.busy && !y.s.leased && y.s.deferred.None?
    ensures Leads(j, y, ms, z, false) && (!Landed(j, y) ==> Leads(j, y, ms, z, true))
    ensures z == System(OnGranted(y.s), y.phase)
  {
    if y.s.waiting {
      One(j, y, Daemon(Grant), false);
      if !Landed(j, y) { One(j, y, Daemon(Grant), true); }
      ms, z := [Daemon(Grant)], Make(j, y, Daemon(Grant));
    } else {
      var y1 := Make(j, y, Daemon(AskLock));
      One(j, y1, Daemon(Grant), false);
      First(j, y, Daemon(AskLock), [Daemon(Grant)], Make(j, y1, Daemon(Grant)), false);
      if !Landed(j, y) {
        One(j, y1, Daemon(Grant), true);
        First(j, y, Daemon(AskLock), [Daemon(Grant)], Make(j, y1, Daemon(Grant)), true);
      }
      ms, z := [Daemon(AskLock)] + [Daemon(Grant)], Make(j, y1, Daemon(Grant));
      assert OnGranted(y1.s) == OnGranted(y.s);
    }
  }

  /** The apply of the client lands. */
  lemma AppliedLeads(j: Job, y: System) returns (m: Move, y2: System)
    requires y.phase == AwaitApply && Applying(j.q, j.me) in y.s.tasks && y.s.leased
    ensures m.Daemon? && CanMove(j, y, m) && Fair(j, y, m)
    ensures var y1 := Make(j, y, m);
            && CanMove(j, y1, GetApplied(true)) && Fair(j, y1, GetApplied(true))
            && y2 == Make(j, y1, GetApplied(true))
    ensures y2.phase == WantUnlock && y2.s.disk == Some(j.q) && y2.s.leased && y2.s.autolock == y.s.autolock
    ensures y2.s.quarantine == y.s.quarantine && y2.s.committed == y.s.committed && !y2.s.recheck
    ensures (!y.s.recheck ==> !y2.s.busy) && forall t :: t in y.s.tasks && !t.Applying? ==> t in y2.s.tasks
    ensures y2.s.deferred.None? && y2.s.index == y.s.index
    ensures y.s.recheck ==> Inspecting(y.s.index, Watcher) in y2.s.tasks
  {
    var l, l2 := GoodLuck(y.s, true);
    var t := Applying(j.q, j.me);
    m := Daemon(Handle(t, true, Requested, l, l2));
    var s0 := Overwritten(Taken(y.s, t), j.q);
    UnbusyIdle(s0, l2);
    var y1 := Make(j, y, m);
    assert y1.s == Answer(Unbusy(s0, l2), Applied(j.me, true));
    y2 := Make(j, y1, GetApplied(true));
  }

  /** The lease lapses after the apply, a remote version replaces the read-only bytes without a copy, and the
      path is locked again. */
  lemma LapseLoses(j: Job, y: System, w: Bytes) returns (ms: seq<Move>, z: System)
    requires y.phase == WantUnlock && Copy(j, y.s) && !Twice(j, y.s) && w != j.q
    requires !y.s.busy && y.s.autolock.None? && y.s.deferred.None?
    ensures Leads(j, y, ms, z, false) && z.phase == Done && !Kept(z.s, j.q)
  {
    var m := Daemon(LeaseLost(false));
    var y1 := Make(j, y, m);
    SameSafety(j, y.s, y1.s);
    var l, l2 := GoodLuck(y1.s, true);
    var m1 := Daemon(RemoteApply(Live(w), l.(newer := true)));
    var y2 := Make(j, y1, m1);
    assert y2.s.disk == Some(w) && y2.s.quarantine == y1.s.quarantine && y2.s.committed == y1.s.committed + {w};
    var again, y3 := Relocked(j, y2);
    SameDoom(j, y2.s, y3.s);
    ms, z := OverrunLoses(j, y3);
    FairIsCalm(j, y3, ms, z);
    Then(j, y2, again, y3, ms, z, false);
    ms := again + ms;
    First(j, y1, m1, ms, z, false);
    ms := [m1] + ms;
    First(j, y, m, ms, z, false);
    ms := [m] + ms;
  }

  /** From an idle start, by calm moves alone: the run that loses the bytes to a lease taken anew. */
  lemma NewLeaseReached(j: Job, y: System, w: Bytes) returns (ms: seq<Move>, z: System)
    requires Start(j, y) && !Twice(j, y.s) && w != j.q
    requires Idle(y.s) && !y.s.busy && !y.s.recheck && !y.s.leased && y.s.deferred.None?
    requires y.s.disk.Some? ==> y.s.index.Some? && y.s.index.value.Live?
    ensures Leads(j, y, ms, z, false) && z.phase == Done && !Kept(z.s, j.q)
  {
    var lock, y1 := Relocked(j, y);
    SameSafety(j, y.s, y1.s);
    var y2 := Make(j, y1, Locked);
    var y3 := Make(j, y2, SendApply);
    assert y3.phase == AwaitApply && Applying(j.q, j.me) in y3.s.tasks;
    var m, y4 := AppliedLeads(j, y3);
    SameSafety(j, y.s, y4.s);
    ms, z := LapseLoses(j, y4, w);
    First(j, Make(j, y3, m), GetApplied(true), ms, z, false);
    ms := [GetApplied(true)] + ms;
    First(j, y3, m, ms, z, false);
    ms := [m] + ms;
    First(j, y2, SendApply, ms, z, false);
    ms := [SendApply] + ms;
    First(j, y1, Locked, ms, z, false);
    ms := [Locked] + ms;
    Then(j, y, lock, y1, ms, z, false);
    ms := lock + ms;
  }

  // ---------- something in flight when the apply is accepted ----------

  /** The version that puts the target back to what the unlock was asked over. */
  function Back(entry: Option<Entry>): Entry { if entry.Some? then entry.value else Tombstone }

  /** The client's unlock has yet to look, the lease is gone and the busy mark is cleared: a version arrives
      over the read-only bytes, and the unlock finds the target as it was. */
  lemma UnwatchedLoses(j: Job, y: System, entry: Option<Entry>) returns (ms: seq<Move>, z: System)
    requires y.phase == AwaitUnlock && Copy(j, y.s) && !Twice(j, y.s) && !y.s.busy && !y.s.writable
    requires Inspecting(entry, Client(j.me)) in y.s.tasks && Back(entry) != Live(j.q)
    ensures Leads(j, y, ms, z, true) && z.phase == Done && !Kept(z.s, j.q)
  {
    var l, l2 := GoodLuck(y.s, true);
    var m := Daemon(RemoteApply(Back(entry), l.(newer := true)));
    var y1 := Make(j, y, m);
    PutBack(j, y.s, entry, l.(newer := true));
    ms, z := BackLoses(j, y1, entry);
    First(j, y, m, ms, z, true);
    ms := [m] + ms;
  }

  /** A newer version over a read-only file, and nothing copied. */
  lemma PutBack(j: Job, s: State, entry: Option<Entry>, l: Luck)
    requires Copy(j, s) && !Twice(j, s) && !s.busy && !s.writable && l.newer && l.write && Back(entry) != Live(j.q)
    ensures var s' := Do(s, RemoteApply(Back(entry), l));
            Doomed(j, s') && s'.tasks == s.tasks && Examine(entry, s'.disk).Clean?
  {
    var s' := Do(s, RemoteApply(Back(entry), l));
    assert s'.quarantine == s.quarantine && s'.committed == Seen(s, Back(entry)).committed;
  }

  lemma BackLoses(j: Job, y: System, entry: Option<Entry>) returns (ms: seq<Move>, z: System)
    requires y.phase == AwaitUnlock && Doomed(j, y.s) && Inspecting(entry, Client(j.me)) in y.s.tasks
    requires Examine(entry, y.s.disk).Clean?
    ensures Leads(j, y, ms, z, true) && z.phase == Done && !Kept(z.s, j.q)
  {
    var l, l2 := GoodLuck(y.s, true);
    var m := Daemon(Work(Inspecting(entry, Client(j.me)), true, l));
    var y1 := Make(j, y, m);
    SameDoom(j, y.s, y1.s);
    ms, z := CleanLoses(j, y1, Clean);
    First(j, y, m, ms, z, true);
    ms := [m] + ms;
  }

  /** An inspection that failed but was not handled yet frees the path under the client's unlock. */
  lemma InspectionLoses(j: Job, y: System) returns (ms: seq<Move>, z: System)
    requires y.phase == WantUnlock && Copy(j, y.s) && !Twice(j, y.s) && y.s.leased && !y.s.busy && !y.s.recheck
    requires Inspected(Failed, Watcher) in y.s.tasks && Back(y.s.index) != Live(j.q)
    ensures Leads(j, y, ms, z, true) && z.phase == Done && !Kept(z.s, j.q)
  {
    var y1 := Make(j, y, SendUnlock);
    assert Inspecting(y.s.index, Client(j.me)) in y1.s.tasks && Inspected(Failed, Watcher) in y1.s.tasks;
    SameSafety(j, y.s, y1.s);
    ms, z := UnlockLoses(j, y1, y.s.index);
    First(j, y, SendUnlock, ms, z, true);
    ms := [SendUnlock] + ms;
  }

  lemma UnlockLoses(j: Job, y: System, entry: Option<Entry>) returns (ms: seq<Move>, z: System)
    requires y.phase == AwaitUnlock && Copy(j, y.s) && !Twice(j, y.s) && !y.s.recheck
    requires Inspecting(entry, Client(j.me)) in y.s.tasks && Inspected(Failed, Watcher) in y.s.tasks
    requires Back(entry) != Live(j.q)
    ensures Leads(j, y, ms, z, true) && z.phase == Done && !Kept(z.s, j.q)
  {
    var l, l2 := GoodLuck(y.s, true);
    var t := Inspected(Failed, Watcher);
    var m := Daemon(Handle(t, true, Requested, l, l2));
    var y1 := Make(j, y, m);
    UnbusyIdle(Taken(y.s, t), l2);
    assert y1.s == Unbusy(Taken(y.s, t), l2);
    var m1 := Daemon(LeaseLost(false));
    var y2 := Make(j, y1, m1);
    SameSafety(j, y.s, y2.s);
    ms, z := UnwatchedLoses(j, y2, entry);
    First(j, y1, m1, ms, z, true);
    ms := [m1] + ms;
    First(j, y, m, ms, z, true);
    ms := [m] + ms;
  }

  /** Once the path is free while the apply is on its way, the watcher may start an inspection beside it. */
  lemma FreeLoses(j: Job, y: System) returns (ms: seq<Move>, z: System)
    requires y.phase == AwaitApply && Inv(y.s) && Doomed(j, y.s) && y.s.leased && !y.s.busy && !y.s.recheck
    requires Applying(j.q, j.me) in y.s.tasks
    ensures Leads(j, y, ms, z, true) && z.phase == Done && !Kept(z.s, j.q)
  {
    var l, l2 := GoodLuck(y.s, true);
    var look := Inspecting(y.s.index, Watcher);
    var y1 := Make(j, y, Daemon(Watch));
    var m := Daemon(Work(look, false, l));
    var y2 := Make(j, y1, m);
    assert Applying(j.q, j.me) in y2.s.tasks && Inspected(Failed, Watcher) in y2.s.tasks;
    SameSafety(j, y.s, y2.s);
    var m1, y3 := AppliedLeads(j, y2);
    SameSafety(j, y2.s, y3.s);
    IndexNot(j, y.s);
    ms, z := InspectionLoses(j, y3);
    First(j, Make(j, y2, m1), GetApplied(true), ms, z, true);
    ms := [GetApplied(true)] + ms;
    First(j, y2, m1, ms, z, true);
    ms := [m1] + ms;
    First(j, y1, m, ms, z, true);
    ms := [m] + ms;
    First(j, y, Daemon(Watch), ms, z, true);
    ms := [Daemon(Watch)] + ms;
  }

  lemma IndexNot(j: Job, s: State)
    requires Inv(s) && !Twice(j, s)
    ensures Back(s.index) != Live(j.q)
  {
  }

  /** With the path free and the lease gone before the write landed, the lease is simply taken again. */
  lemma RetakenLoses(j: Job, y: System) returns (ms: seq<Move>, z: System)
    requires y.phase == AwaitApply && Inv(y.s) && Doomed(j, y.s) && !y.s.busy && !y.s.recheck && y.s.deferred.None?
    requires Applied(j.me, true) !in y.s.replies && Applying(j.q, j.me) in y.s.tasks
    ensures Leads(j, y, ms, z, true) && z.phase == Done && !Kept(z.s, j.q)
  {
    if y.s.leased {
      ms, z := FreeLoses(j, y);
    } else {
      var again, y1 := Relocked(j, y);
      SameDoom(j, y.s, y1.s);
      InvOfLeads(j, y, again, y1, true);
      ms, z := LockedLoses(j, y1);
      Then(j, y, again, y1, ms, z, true);
      ms := again + ms;
    }
  }

  /** What an autolock starts on the new lease is driven on. */
  lemma LockedLoses(j: Job, y: System) returns (ms: seq<Move>, z: System)
    requires y.phase == AwaitApply && Inv(y.s) && Doomed(j, y.s) && y.s.leased && !y.s.recheck
    requires Applying(j.q, j.me) in y.s.tasks && (y.s.busy ==> Publishing(Watcher) in y.s.tasks)
    ensures Leads(j, y, ms, z, true) && z.phase == Done && !Kept(z.s, j.q)
  {
    if y.s.busy {
      var drive, y1 := Drive(j, y, Publishing(Watcher));
      InvOfLeads(j, y, drive, y1, true);
      ms, z := FreeLoses(j, y1);
      Then(j, y, drive, y1, ms, z, true);
      ms := drive + ms;
    } else {
      ms, z := FreeLoses(j, y);
    }
  }

  /** A task beside the apply: driven to its end, without the lease if it hands the lease back. */
  lemma TaskLoses(j: Job, y: System, t: Task) returns (ms: seq<Move>, z: System)
    requires y.phase == AwaitApply && Inv(y.s) && Doomed(j, y.s) && y.s.leased
    requires Applied(j.me, true) !in y.s.replies && Applying(j.q, j.me) in y.s.tasks
    requires t in y.s.tasks && !Names(t, j.me)
    ensures Leads(j, y, ms, z, true) && z.phase == Done && !Kept(z.s, j.q)
  {
    if HandsBack(j, t) {
      var m := Daemon(LeaseLost(false));
      var y1 := Make(j, y, m);
      SameDoom(j, y.s, y1.s);
      var drive, y2 := Drive(j, y1, t);
      First(j, y, m, drive, y2, true);
      drive := [m] + drive;
      InvOfLeads(j, y, drive, y2, true);
      ms, z := RetakenLoses(j, y2);
      Then(j, y, drive, y2, ms, z, true);
      ms := drive + ms;
    } else {
      var drive, y2 := Drive(j, y, t);
      InvOfLeads(j, y, drive, y2, true);
      ms, z := FreeLoses(j, y2);
      Then(j, y, drive, y2, ms, z, true);
      ms := drive + ms;
    }
  }

  /** An autolock beside the apply: its request fails. */
  lemma AutolockLoses(j: Job, y: System) returns (ms: seq<Move>, z: System)
    requires y.phase == AwaitApply && Inv(y.s) && Doomed(j, y.s) && y.s.leased && Applying(j.q, j.me) in y.s.tasks
    requires y.s.autolock.Some? && y.s.waiting
    ensures Leads(j, y, ms, z, true) && z.phase == Done && !Kept(z.s, j.q)
  {
    var l, l2 := GoodLuck(y.s, false);
    var m := Daemon(AutolockLost(true, l, l2));
    var s0 := y.s.(waiting := false);
    var (copied, newFile) := y.s.autolock.value;
    FailingKeeps(s0, copied, newFile, l, l2);
    SameDoom(j, y.s, Make(j, y, m).s);
    var drive, y1 := DriveFailing(j, y, m, s0, copied, newFile, l, l2);
    InvOfLeads(j, y, drive, y1, true);
    ms, z := FreeLoses(j, y1);
    Then(j, y, drive, y1, ms, z, true);
    ms := drive + ms;
  }

  /** Whatever is in flight when the apply is accepted, fair moves lead on to the loss of the bytes. */
  lemma LeftoverLoses(j: Job, y: System) returns (ms: seq<Move>, z: System)
    requires y.phase == WantApply && Ok(j, y) && !Twice(j, y.s) && Enabled(y.s, AskApply(j.name, j.me))
    requires y.s.disk != Some(j.q) && !Idle(y.s) && (y.s.autolock.Some? ==> y.s.waiting)
    ensures Leads(j, Make(j, y, SendApply), ms, z, true) && z.phase == Done && !Kept(z.s, j.q)
  {
    var y1 := Make(j, y, SendApply);
    assert y1.phase == AwaitApply && Applying(j.q, j.me) in y1.s.tasks && y1.s.replies == y.s.replies;
    SameDoom(j, y.s, y1.s);
    StepCareful(y.s, AskApply(j.name, j.me));
    if y.s.autolock.Some? {
      ms, z := AutolockLoses(j, y1);
    } else {
      var t :| t in y.s.tasks;
      assert t in y1.s.tasks;
      ms, z := TaskLoses(j, y1, t);
    }
  }

  /** Over a target that does not hold the bytes yet, an accepted apply is safe for every fair continuation if
      and only if nothing is in flight on the path; a pending autolock counts as long as its request does. */
  lemma ApplyExactly(j: Job, y: System)
    requires Ok(j, y) && y.phase == WantApply && Enabled(y.s, AskApply(j.name, j.me)) && !Twice(j, y.s)
    requires y.s.disk != Some(j.q) && (y.s.autolock.Some? ==> y.s.waiting)
    ensures SafeHereafter(j, Make(j, y, SendApply)) <==> Idle(y.s)
  {
    var y1 := Make(j, y, SendApply);
    if Idle(y.s) {
      ApplySent(j, y);
      forall ms, z | Leads(j, y1, ms, z, true) ensures Safe(z.s, j.q) {
        OkOfRun(j, y1, ms, z);
        if z.phase != Done { FiledUnder(z.s, j.name); }
      }
    } else {
      var ms, z := LeftoverLoses(j, y);
      assert Leads(j, y1, ms, z, true) && !Safe(z.s, j.q);
      assert !SafeHereafter(j, y1);
    }
  }

  // ---------- and how it comes about ----------

  /** An un-leased edit `x` of the indexed version `v`, with the client about to set out. */
  predicate Dirty(j: Job, y: System, v: Bytes, x: Bytes) {
    && y.phase == Locking && Copy(j, y.s) && !Twice(j, y.s)
    && y.s.disk == Some(x) && y.s.index == Some(Live(v)) && x != v && x != j.q && v != j.q
    && y.s.autolock.None? && y.s.deferred.None? && !y.s.leased
  }

  /** The client locks and applies while the revert is staged. */
  lemma StagedReached(j: Job, y: System, v: Bytes, x: Bytes) returns (ms: seq<Move>, z: System)
    requires Dirty(j, y, v, x) && Inv(y.s) && Stranger(j.me, y.s) && !y.s.busy
    requires Staged(Some(v), Some(x), true) in y.s.tasks
    ensures Leads(j, y, ms, z, false) && z.phase == Done && !Kept(z.s, j.q)
  {
    var lock, y1 := Relocked(j, y);
    InvOfLeads(j, y, lock, y1, false);
    SameSafety(j, y.s, y1.s);
    var y2 := Make(j, y1, Locked);
    assert Stranger(j.me, y2.s) && !Idle(y2.s);
    ms, z := LeftoverLoses(j, y2);
    FairIsCalm(j, Make(j, y2, SendApply), ms, z);
    First(j, y2, SendApply, ms, z, false);
    ms := [SendApply] + ms;
    First(j, y1, Locked, ms, z, false);
    ms := [Locked] + ms;
    Then(j, y, lock, y1, ms, z, false);
    ms := lock + ms;
  }

  /** The steps of an autolock whose precondition fails, up to the staged revert. */
  lemma RevertStaged(j: Job, y: System, v: Bytes, x: Bytes) returns (ms: seq<Move>, z: System)
    requires Dirty(j, y, v, x) && Preserving(false) in y.s.tasks
    ensures Leads(j, y, ms, z, false) && Dirty(j, z, v, x) && !z.s.busy && Staged(Some(v), Some(x), true) in z.s.tasks
    ensures forall i :: 0 <= i < |ms| ==> ms[i].Daemon?
  {
    var l, l2 := GoodLuck(y.s, true);
    var m := Daemon(Work(Preserving(false), true, l));
    var y1 := Make(j, y, m);
    CopiedLeaves(Taken(y.s, Preserving(false)), l);
    CopiedDoom(j, y.s, y1.s, l);
    var k, k2 := GoodLuck(y1.s, true);
    var m1 := Daemon(Handle(Ready(Some(x), false), true, GuardFails, k, k2));
    z := Make(j, y1, m1);
    SameSafety(j, y1.s, z.s);
    One(j, y1, m1, false);
    First(j, y, m, [m1], z, false);
    ms := [m] + [m1];
  }

  /** The edit is seen and autolock sets out to copy it. */
  lemma EditSeen(j: Job, y: System, v: Bytes, x: Bytes) returns (ms: seq<Move>, z: System)
    requires Dirty(j, y, v, x) && !y.s.busy
    ensures Leads(j, y, ms, z, false) && Dirty(j, z, v, x) && Preserving(false) in z.s.tasks
    ensures forall i :: 0 <= i < |ms| ==> ms[i].Daemon?
  {
    var l, l2 := GoodLuck(y.s, true);
    var y1 := Make(j, y, Daemon(Watch));
    SameSafety(j, y.s, y1.s);
    var m := Daemon(Work(Inspecting(Some(Live(v)), Watcher), true, l));
    var y2 := Make(j, y1, m);
    SameSafety(j, y1.s, y2.s);
    ms, z := EditJudged(j, y2, v, x);
    First(j, y1, m, ms, z, false);
    ms := [m] + ms;
    First(j, y, Daemon(Watch), ms, z, false);
    ms := [Daemon(Watch)] + ms;
  }

  lemma EditJudged(j: Job, y: System, v: Bytes, x: Bytes) returns (ms: seq<Move>, z: System)
    requires Dirty(j, y, v, x) && Inspected(Differs, Watcher) in y.s.tasks
    ensures Leads(j, y, ms, z, false) && Dirty(j, z, v, x) && Preserving(false) in z.s.tasks
    ensures forall i :: 0 <= i < |ms| ==> ms[i].Daemon?
  {
    var l, l2 := GoodLuck(y.s, true);
    var m := Daemon(Handle(Inspected(Differs, Watcher), true, Requested, l, l2));
    z := Make(j, y, m);
    SameSafety(j, y.s, z.s);
    One(j, y, m, false);
    ms := [m];
  }

  lemma {:induction false} StrangerOfLeads(j: Job, y: System, ms: seq<Move>, z: System)
    requires Leads(j, y, ms, z, false) && Stranger(j.me, y.s) && forall i :: 0 <= i < |ms| ==> ms[i].Daemon?
    ensures Stranger(j.me, z.s)
    decreases |ms|
  {
    if ms != [] {
      StrangerStays(j.me, y.s, ms[0].st);
      StrangerOfLeads(j, Make(j, y, ms[0]), ms[1..], z);
    }
  }

  /** From an idle start with an un-leased edit on the target, by calm moves alone: the edit is seen, autolock
      copies it and fails its precondition, and the client locks and applies while the revert is staged. */
  lemma StaleRevertReached(j: Job, y: System, v: Bytes, x: Bytes) returns (ms: seq<Move>, z: System)
    requires Start(j, y) && Dirty(j, y, v, x) && !y.s.busy
    ensures Leads(j, y, ms, z, false) && z.phase == Done && !Kept(z.s, j.q)
  {
    var a, y1 := EditSeen(j, y, v, x);
    var b, y2 := RevertStaged(j, y1, v, x);
    Then(j, y, a, y1, b, y2, false);
    InvOfLeads(j, y, a + b, y2, false);
    StrangerOfLeads(j, y, a + b, y2);
    ms, z := StagedReached(j, y2, v, x);
    Then(j, y, a + b, y2, ms, z, false);
    ms := a + b + ms;
  }
}
