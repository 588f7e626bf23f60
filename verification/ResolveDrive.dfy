/** Runs of a resolve put together by hand: how moves compose, how an unlock comes to discard the only
    copy of the bytes, and how any operation in flight can be driven to its end. */
module ResolveDrive {
  import opened Common
  import opened Preservation
  import opened PathExclusion
  import opened DaemonSteps
  import opened Resolve
  import opened ResolveSteps
  import opened ResolveSafety

  // ---------- building runs ----------

  lemma First(j: Job, y: System, m: Move, ms: seq<Move>, z: System, fair: bool)
    requires CanMove(j, y, m) && Calm(j, y, m) && (fair ==> Fair(j, y, m)) && Leads(j, Make(j, y, m), ms, z, fair)
    ensures Leads(j, y, [m] + ms, z, fair)
  {
    assert ([m] + ms)[1..] == ms;
  }

  lemma One(j: Job, y: System, m: Move, fair: bool)
    requires CanMove(j, y, m) && Calm(j, y, m) && (fair ==> Fair(j, y, m))
    ensures Leads(j, y, [m], Make(j, y, m), fair)
  {
    First(j, y, m, [], Make(j, y, m), fair);
    assert [m] + [] == [m];
  }

  lemma {:induction false} Then(j: Job, y: System, ms: seq<Move>, x: System, more: seq<Move>, z: System, fair: bool)
    requires Leads(j, y, ms, x, fair) && Leads(j, x, more, z, fair)
    ensures Leads(j, y, ms + more, z, fair)
    decreases |ms|
  {
    if ms == [] {
      assert ms + more == more;
    } else {
      Then(j, Make(j, y, ms[0]), ms[1..], x, more, z, fair);
      assert (ms + more)[1..] == ms[1..] + more;
    }
  }

  lemma {:induction false} FairIsCalm(j: Job, y: System, ms: seq<Move>, z: System)
    requires Leads(j, y, ms, z, true)
    ensures Leads(j, y, ms, z, false)
    decreases |ms|
  {
    if ms != [] { FairIsCalm(j, Make(j, y, ms[0]), ms[1..], z); }
  }

  /** The invariant of the daemon holds along calm moves. */
  lemma {:induction false} InvOfLeads(j: Job, y: System, ms: seq<Move>, z: System, fair: bool)
    requires Inv(y.s) && Leads(j, y, ms, z, fair)
    ensures Inv(z.s)
    decreases |ms|
  {
    if ms != [] {
      InvOfMove(j, y, ms[0]);
      InvOfLeads(j, Make(j, y, ms[0]), ms[1..], z, fair);
    }
  }

  lemma InvOfMove(j: Job, y: System, m: Move)
    requires Inv(y.s) && CanMove(j, y, m) && Calm(j, y, m)
    ensures Inv(Make(j, y, m).s)
  {
    match m
    case Daemon(st) => StepCareful(y.s, st);
    case SendApply => if Enabled(y.s, AskApply(j.name, j.me)) { StepCareful(y.s, AskApply(j.name, j.me)); }
    case SendUnlock => if Enabled(y.s, AskUnlock(j.me)) { StepCareful(y.s, AskUnlock(j.me)); }
    case SendDiscard => if Enabled(y.s, Discard(j.name)) { StepCareful(y.s, Discard(j.name)); }
    case _ =>
  }

  lemma {:induction false} Above(names: set<Name>) returns (n: Name)
    ensures forall m :: m in names ==> m < n
    decreases |names|
  {
    if names == {} {
      n := 0;
    } else {
      var m :| m in names;
      var r := Above(names - {m});
      n := if m < r then r else m + 1;
      assert forall k :: k in names ==> k == m || k in names - {m};
    }
  }

  /** Outcomes in which copies work and no remote version is newer; `write` is whether the file is replaced. */
  lemma GoodLuck(s: State, write: bool) returns (l: Luck, l2: Luck)
    ensures AllClear(s, l, l2) && l.copy && l2.copy && l.write == write && l.mode == write && !l.newer && !l2.newer
  {
    var n := Above(s.quarantine.Keys);
    l := Luck(false, true, false, n, write, true, write);
    l2 := Luck(false, true, false, n + 1, true, true, true);
  }

  /** The quarantined copy is all there is of the bytes, and the target does not hold them. */
  predicate Doomed(j: Job, s: State) { Copy(j, s) && !Twice(j, s) && s.disk != Some(j.q) }

  lemma SameDoom(j: Job, s: State, s': State)
    requires Doomed(j, s) && s'.quarantine == s.quarantine && s'.disk == s.disk
    requires forall b :: b in s'.committed ==> b in s.committed || b != j.q
    ensures Doomed(j, s')
  {
  }

  // ---------- an unlock that finds the target overrun ----------

  lemma DiscardLoses(j: Job, y: System) returns (ms: seq<Move>, z: System)
    requires y.phase == WantDiscard && Doomed(j, y.s)
    ensures Leads(j, y, ms, z, true) && z.phase == Done && !Kept(z.s, j.q)
  {
    z := Make(j, y, SendDiscard);
    ms := [SendDiscard] + [];
    First(j, y, SendDiscard, [], z, true);
  }

  lemma UnlockedLoses(j: Job, y: System) returns (ms: seq<Move>, z: System)
    requires y.phase == AwaitUnlock && Unlocked(j.me, true) in y.s.replies && Doomed(j, y.s)
    ensures Leads(j, y, ms, z, true) && z.phase == Done && !Kept(z.s, j.q)
  {
    var m := GetUnlocked(true);
    ms, z := DiscardLoses(j, Make(j, y, m));
    First(j, y, m, ms, z, true);
    ms := [m] + ms;
  }

  /** With no newer version deferred, clearing the busy mark touches neither file nor copies. */
  lemma UnbusyIdle(s: State, l: Luck)
    requires !l.newer
    ensures Unbusy(s, l).disk == s.disk && Unbusy(s, l).quarantine == s.quarantine
    ensures Unbusy(s, l).committed == s.committed && Unbusy(s, l).leased == s.leased
    ensures Unbusy(s, l).index == s.index && Unbusy(s, l).autolock == s.autolock && Unbusy(s, l).waiting == s.waiting
    ensures Unbusy(s, l).deferred.None?
    ensures Unbusy(s, l).replies == s.replies && (forall t :: t in s.tasks ==> t in Unbusy(s, l).tasks)
    ensures !s.recheck ==> !Unbusy(s, l).busy
    ensures !Unbusy(s, l).recheck && (s.recheck ==> Inspecting(s.index, Watcher) in Unbusy(s, l).tasks)
  {
    UnbusyIs(s, l);
  }

  lemma UnbusyIs(s: State, l: Luck)
    requires !l.newer
    ensures var s1 := s.(busy := false, deferred := None);
            Unbusy(s, l) == if s.recheck then Spawn(s1.(recheck := false), Inspecting(s.index, Watcher)) else s1
  {
  }

  lemma CleanAnswer(s: State, look: Look, id: nat, l: Luck, l2: Luck)
    requires Inspected(look, Client(id)) in s.tasks && (look.Clean? || look.Missing?) && !l2.newer
    ensures var s' := Do(s, Handle(Inspected(look, Client(id)), true, Requested, l, l2));
            && Unlocked(id, true) in s'.replies && s'.disk == s.disk
            && s'.quarantine == s.quarantine && s'.committed == s.committed
  {
    var s0 := Taken(s, Inspected(look, Client(id)));
    SettledIs(s0, look, Client(id), true, l, l2);
    TombstoneKeeps(s0);
    UnbusyIdle(if look.Missing? then CommitTombstone(s0) else s0, l2);
  }

  lemma CleanLoses(j: Job, y: System, look: Look) returns (ms: seq<Move>, z: System)
    requires y.phase == AwaitUnlock && Doomed(j, y.s) && Inspected(look, Client(j.me)) in y.s.tasks
    requires look.Clean? || look.Missing?
    ensures Leads(j, y, ms, z, true) && z.phase == Done && !Kept(z.s, j.q)
  {
    var l, l2 := GoodLuck(y.s, true);
    var m := Daemon(Handle(Inspected(look, Client(j.me)), true, Requested, l, l2));
    var y1 := Make(j, y, m);
    CleanAnswer(y.s, look, j.me, l, l2);
    SameDoom(j, y.s, y1.s);
    ms, z := UnlockedLoses(j, y1);
    First(j, y, m, ms, z, true);
    ms := [m] + ms;
  }

  lemma PublishedAnswer(s: State, b: Bytes, id: nat, l: Luck, l2: Luck)
    requires Published(Some(b), Client(id)) in s.tasks && s.leased && !l2.newer
    ensures var s' := Do(s, Handle(Published(Some(b), Client(id)), true, Requested, l, l2));
            && Unlocked(id, true) in s'.replies && s'.disk == s.disk
            && s'.quarantine == s.quarantine && s'.committed == s.committed + {b}
  {
    var s0 := Taken(s, Published(Some(b), Client(id)));
    UnbusyIdle(s0.(index := Some(Live(b)), committed := s0.committed + {b}), l2);
  }

  lemma PublishedLoses(j: Job, y: System, b: Bytes) returns (ms: seq<Move>, z: System)
    requires y.phase == AwaitUnlock && Doomed(j, y.s) && y.s.leased && b != j.q
    requires Published(Some(b), Client(j.me)) in y.s.tasks
    ensures Leads(j, y, ms, z, true) && z.phase == Done && !Kept(z.s, j.q)
  {
    var l, l2 := GoodLuck(y.s, true);
    var t := Published(Some(b), Client(j.me));
    var m := Daemon(Handle(t, true, Requested, l, l2));
    var y1 := Make(j, y, m);
    PublishedAnswer(y.s, b, j.me, l, l2);
    SameDoom(j, y.s, y1.s);
    ms, z := UnlockedLoses(j, y1);
    First(j, y, m, ms, z, true);
    ms := [m] + ms;
  }

  lemma PublishLoses(j: Job, y: System) returns (ms: seq<Move>, z: System)
    requires y.phase == AwaitUnlock && Doomed(j, y.s) && y.s.leased && y.s.disk.Some?
    requires Publishing(Client(j.me)) in y.s.tasks
    ensures Leads(j, y, ms, z, true) && z.phase == Done && !Kept(z.s, j.q)
  {
    var l, l2 := GoodLuck(y.s, true);
    var m := Daemon(Work(Publishing(Client(j.me)), true, l));
    var y1 := Make(j, y, m);
    SameDoom(j, y.s, y1.s);
    ms, z := PublishedLoses(j, y1, y.s.disk.value);
    First(j, y, m, ms, z, true);
    ms := [m] + ms;
  }

  lemma DiffersLoses(j: Job, y: System, look: Look) returns (ms: seq<Move>, z: System)
    requires y.phase == AwaitUnlock && Doomed(j, y.s) && y.s.leased && y.s.disk.Some?
    requires Inspected(look, Client(j.me)) in y.s.tasks && (look.Differs? || look.Unindexed?)
    ensures Leads(j, y, ms, z, true) && z.phase == Done && !Kept(z.s, j.q)
  {
    var l, l2 := GoodLuck(y.s, true);
    var m := Daemon(Handle(Inspected(look, Client(j.me)), true, Requested, l, l2));
    var y1 := Make(j, y, m);
    SameDoom(j, y.s, y1.s);
    ms, z := PublishLoses(j, y1);
    First(j, y, m, ms, z, true);
    ms := [m] + ms;
  }

  lemma InspectLoses(j: Job, y: System, entry: Option<Entry>) returns (ms: seq<Move>, z: System)
    requires y.phase == AwaitUnlock && Doomed(j, y.s) && y.s.leased && Inspecting(entry, Client(j.me)) in y.s.tasks
    ensures Leads(j, y, ms, z, true) && z.phase == Done && !Kept(z.s, j.q)
  {
    var l, l2 := GoodLuck(y.s, true);
    var m := Daemon(Work(Inspecting(entry, Client(j.me)), true, l));
    var y1 := Make(j, y, m);
    var look := Examine(entry, y.s.disk);
    SameDoom(j, y.s, y1.s);
    if look.Clean? || look.Missing? { ms, z := CleanLoses(j, y1, look); } else { ms, z := DiffersLoses(j, y1, look); }
    First(j, y, m, ms, z, true);
    ms := [m] + ms;
  }

  /** Once the target was overrun under the client, its unlock publishes or finds something else, reports
      success, and the discard destroys the bytes, whatever the index says. */
  lemma OverrunLoses(j: Job, y: System) returns (ms: seq<Move>, z: System)
    requires y.phase == WantUnlock && Doomed(j, y.s) && y.s.leased && !y.s.busy
    ensures Leads(j, y, ms, z, true) && z.phase == Done && !Kept(z.s, j.q)
  {
    var y1 := Make(j, y, SendUnlock);
    SameDoom(j, y.s, y1.s);
    ms, z := InspectLoses(j, y1, y.s.index);
    First(j, y, SendUnlock, ms, z, true);
    ms := [SendUnlock] + ms;
  }

  // ---------- driving an operation to its end ----------

  /** From `y` fair moves lead to `z` in the same phase: the bytes are still doomed, the apply still on its
      way if it was, and the path free. */
  ghost predicate Driven(j: Job, y: System, ms: seq<Move>, z: System) {
    && Leads(j, y, ms, z, true) && z.phase == y.phase && Doomed(j, z.s)
    && (Applying(j.q, j.me) in y.s.tasks ==> Applying(j.q, j.me) in z.s.tasks)
    && (Applied(j.me, true) in z.s.replies ==> Applied(j.me, true) in y.s.replies)
    && (y.s.leased ==> z.s.leased) && !z.s.busy && !z.s.recheck && z.s.deferred.None?
  }

  /** The busy mark is cleared, or only the inspection that a recheck asked for holds it. */
  ghost predicate Freed(s: State) {
    !s.recheck && s.deferred.None? && (s.busy ==> exists e :: Inspecting(e, Watcher) in s.tasks)
  }

  /** One step on the way. */
  ghost predicate Nudged(j: Job, y: System, m: Move) {
    && m.Daemon? && !m.st.Grant? && CanMove(j, y, m) && Calm(j, y, m)
    && var x := Make(j, y, m);
       && Doomed(j, x.s) && (Applying(j.q, j.me) in y.s.tasks ==> Applying(j.q, j.me) in x.s.tasks)
       && (Applied(j.me, true) in x.s.replies ==> Applied(j.me, true) in y.s.replies)
       && (y.s.leased ==> x.s.leased)
  }

  /** What is known of the state a step leads to is enough. */
  lemma NudgedTo(j: Job, y: System, st: Step, s': State)
    requires Enabled(y.s, st) && Calm(j, y, Daemon(st)) && !st.Grant? && Do(y.s, st) == s' && Doomed(j, s')
    requires Applying(j.q, j.me) in y.s.tasks ==> Applying(j.q, j.me) in s'.tasks
    requires Applied(j.me, true) in s'.replies ==> Applied(j.me, true) in y.s.replies
    requires y.s.leased ==> s'.leased
    ensures Nudged(j, y, Daemon(st))
  {
  }

  lemma Onward(j: Job, y: System, m: Move, ms: seq<Move>, z: System)
    requires Nudged(j, y, m) && Driven(j, Make(j, y, m), ms, z)
    ensures Driven(j, y, [m] + ms, z)
  {
    First(j, y, m, ms, z, true);
  }

  /** The event of a task that ends in clearing the busy mark. */
  lemma EndsFree(j: Job, y: System, m: Move, s0: State, l2: Luck) returns (ms: seq<Move>, z: System)
    requires Nudged(j, y, m) && !l2.newer
    requires var s' := Make(j, y, m).s; var u := Unbusy(s0, l2);
             s'.busy == u.busy && s'.recheck == u.recheck && s'.deferred == u.deferred && s'.tasks == u.tasks
    ensures Driven(j, y, ms, z)
  {
    UnbusyIdle(s0, l2);
    ms, z := Free(j, Make(j, y, m));
    Onward(j, y, m, ms, z);
    ms := [m] + ms;
  }

  lemma Free(j: Job, y: System) returns (ms: seq<Move>, z: System)
    requires Doomed(j, y.s) && Freed(y.s)
    ensures Driven(j, y, ms, z)
  {
    if y.s.busy {
      var l, l2 := GoodLuck(y.s, true);
      var e :| Inspecting(e, Watcher) in y.s.tasks;
      var m := Daemon(Work(Inspecting(e, Watcher), false, l));
      SameDoom(j, y.s, Make(j, y, m).s);
      ms, z := FreeFailed(j, Make(j, y, m));
      Onward(j, y, m, ms, z);
      ms := [m] + ms;
    } else {
      ms, z := [], y;
    }
  }

  lemma FreeFailed(j: Job, y: System) returns (ms: seq<Move>, z: System)
    requires Doomed(j, y.s) && !y.s.recheck && Inspected(Failed, Watcher) in y.s.tasks
    ensures Driven(j, y, ms, z)
  {
    var l, l2 := GoodLuck(y.s, true);
    var t := Inspected(Failed, Watcher);
    var m := Daemon(Handle(t, true, Requested, l, l2));
    z := Make(j, y, m);
    assert z.s == Unbusy(Taken(y.s, t), l2);
    UnbusyIdle(Taken(y.s, t), l2);
    SameDoom(j, y.s, z.s);
    One(j, y, m, true);
    ms := [m];
  }

  lemma DriveFailed(j: Job, y: System, c: Cause) returns (ms: seq<Move>, z: System)
    requires Doomed(j, y.s) && Inspected(Failed, c) in y.s.tasks
    ensures Driven(j, y, ms, z)
  {
    var l, l2 := GoodLuck(y.s, true);
    var t := Inspected(Failed, c);
    var m := Daemon(Handle(t, true, Requested, l, l2));
    var s0 := if c.Client? then Answer(Taken(y.s, t), Unlocked(c.id, false)) else Taken(y.s, t);
    UnbusyIdle(s0, l2);
    assert Make(j, y, m).s == Unbusy(s0, l2);
    SameDoom(j, y.s, Make(j, y, m).s);
    ms, z := EndsFree(j, y, m, s0, l2);
  }

  lemma DriveInspecting(j: Job, y: System, t: Task) returns (ms: seq<Move>, z: System)
    requires Doomed(j, y.s) && t in y.s.tasks && t.Inspecting?
    ensures Driven(j, y, ms, z)
  {
    var l, l2 := GoodLuck(y.s, true);
    var m := Daemon(Work(t, false, l));
    var y1 := Make(j, y, m);
    SameDoom(j, y.s, y1.s);
    ms, z := DriveFailed(j, y1, t.cause);
    Onward(j, y, m, ms, z);
    ms := [m] + ms;
  }

  /** What a publish records. */
  function Noted(s: State, t: Task): State
    requires t.Published?
  {
    var s1 := if t.result.None? && t.cause.Watcher? then s.(recheck := true) else s;
    if t.result.Some? && s.leased
    then s1.(index := Some(Live(t.result.value)), committed := s1.committed + {t.result.value}) else s1
  }

  lemma PublishedStep(s: State, t: Task, l: Luck, l2: Luck)
    requires t.Published? && !l2.newer
    ensures var s' := OnPublished(s, t.result, t.cause, l, l2); var u := Unbusy(Noted(s, t), l2);
            && s'.disk == s.disk && s'.quarantine == s.quarantine && s'.committed == Noted(s, t).committed
            && s'.tasks == u.tasks && s'.busy == u.busy && s'.recheck == u.recheck && s'.deferred == u.deferred
            && (t.cause.Watcher? ==> s'.leased == s.leased) && (forall v :: v in s.tasks ==> v in s'.tasks)
            && forall c :: Applied(c, true) in s'.replies ==> Applied(c, true) in s.replies
  {
    var u := Unbusy(Noted(s, t), l2);
    PublishedIs(s, t, l, l2);
    NotedKeeps(s, t);
    UnbusyIdle(Noted(s, t), l2);
    if t.cause.Client? { FinishedKeeps(u, t.cause.id, t.result.Some? && s.leased, l); }
  }

  lemma PublishedIs(s: State, t: Task, l: Luck, l2: Luck)
    requires t.Published?
    ensures var u := Unbusy(Noted(s, t), l2);
            OnPublished(s, t.result, t.cause, l, l2)
            == if t.cause.Client? then FinishUnlock(u, t.cause.id, t.result.Some? && s.leased, l) else u
  {
  }

  lemma NotedKeeps(s: State, t: Task)
    requires t.Published?
    ensures var s' := Noted(s, t);
            && s'.disk == s.disk && s'.quarantine == s.quarantine && s'.tasks == s.tasks && s'.leased == s.leased
            && s'.replies == s.replies
  {
  }

  lemma FinishedKeeps(s: State, id: nat, ok: bool, l: Luck)
    ensures var s' := FinishUnlock(s, id, ok, l);
            && s'.disk == s.disk && s'.quarantine == s.quarantine && s'.committed == s.committed
            && s'.tasks == s.tasks && s'.busy == s.busy && s'.recheck == s.recheck && s'.deferred == s.deferred
            && s'.replies == s.replies + {Unlocked(id, ok)}
  {
  }

  /** A publish that has read other bytes, or none, or comes after the lease. */
  lemma DrivePublished(j: Job, y: System, t: Task) returns (ms: seq<Move>, z: System)
    requires Doomed(j, y.s) && t in y.s.tasks && t.Published?
    requires y.s.leased ==> t.cause.Watcher? && t.result != Some(j.q)
    ensures Driven(j, y, ms, z)
  {
    var l, l2 := GoodLuck(y.s, true);
    var m := Daemon(Handle(t, true, Requested, l, l2));
    var s0 := Taken(y.s, t);
    PublishedStep(s0, t, l, l2);
    SameDoom(j, y.s, Make(j, y, m).s);
    ms, z := EndsFree(j, y, m, Noted(s0, t), l2);
  }

  lemma DrivePublishing(j: Job, y: System, t: Task) returns (ms: seq<Move>, z: System)
    requires Doomed(j, y.s) && t in y.s.tasks && t.Publishing? && (y.s.leased ==> t.cause.Watcher?)
    ensures Driven(j, y, ms, z)
  {
    var l, l2 := GoodLuck(y.s, true);
    var m := Daemon(Work(t, false, l));
    var y1 := Make(j, y, m);
    SameDoom(j, y.s, y1.s);
    ms, z := DrivePublished(j, y1, Published(None, t.cause));
    Onward(j, y, m, ms, z);
    ms := [m] + ms;
  }

  lemma DriveInspected(j: Job, y: System, t: Task) returns (ms: seq<Move>, z: System)
    requires Doomed(j, y.s) && t in y.s.tasks && t.Inspected?
    requires if HandsBack(j, t) then !y.s.leased else y.s.leased
    ensures Driven(j, y, ms, z)
  {
    if t.look.Failed? {
      ms, z := DriveFailed(j, y, t.cause);
    } else if t.look.Clean? || t.look.Missing? {
      ms, z := DriveSettled(j, y, t);
    } else {
      var l, l2 := GoodLuck(y.s, true);
      var m := Daemon(Handle(t, true, Requested, l, l2));
      var y1 := Make(j, y, m);
      assert y1.s == Spawn(Taken(y.s, t), Publishing(t.cause));
      SameDoom(j, y.s, y1.s);
      ms, z := DrivePublishing(j, y1, Publishing(t.cause));
      Onward(j, y, m, ms, z);
      ms := [m] + ms;
    }
  }

  /** A look with nothing to publish: what the end of it leaves alone. */
  lemma SettledStep(s: State, look: Look, cause: Cause, ok: bool, l: Luck, l2: Luck)
    requires (look.Clean? || look.Missing?) && !l2.newer && (cause.Watcher? && look.Missing? ==> s.leased)
    ensures var s0 := if look.Missing? then CommitTombstone(s) else s;
            var s' := OnInspected(s, look, cause, ok, l, l2); var u := Unbusy(s0, l2);
            && s'.disk == s.disk && s'.quarantine == s.quarantine && s'.committed == s.committed
            && s'.tasks == u.tasks && s'.busy == u.busy && s'.recheck == u.recheck && s'.deferred == u.deferred
            && (cause.Watcher? ==> s'.leased == s.leased) && (forall t :: t in s.tasks ==> t in s'.tasks)
            && forall c :: Applied(c, true) in s'.replies ==> Applied(c, true) in s.replies
  {
    var s0 := if look.Missing? then CommitTombstone(s) else s;
    SettledIs(s, look, cause, ok, l, l2);
    UnbusyIdle(s0, l2);
    TombstoneKeeps(s);
    if cause.Client? { FinishedKeeps(Unbusy(s0, l2), cause.id, true, l); }
  }

  lemma SettledIs(s: State, look: Look, cause: Cause, ok: bool, l: Luck, l2: Luck)
    requires (look.Clean? || look.Missing?) && (cause.Watcher? && look.Missing? ==> s.leased)
    ensures var s0 := if look.Missing? then CommitTombstone(s) else s;
            OnInspected(s, look, cause, ok, l, l2)
            == if cause.Client? then FinishUnlock(Unbusy(s0, l2), cause.id, true, l) else Unbusy(s0, l2)
  {
  }

  lemma TombstoneKeeps(s: State)
    ensures var s' := CommitTombstone(s);
            && s'.disk == s.disk && s'.quarantine == s.quarantine && s'.committed == s.committed
            && s'.tasks == s.tasks && s'.leased == s.leased && s'.replies == s.replies
  {
  }

  lemma SettledNudge(j: Job, y: System, t: Task, l: Luck, l2: Luck)
    requires Doomed(j, y.s) && t in y.s.tasks && t.Inspected? && (t.look.Clean? || t.look.Missing?)
    requires if HandsBack(j, t) then !y.s.leased else y.s.leased
    requires AllClear(y.s, l, l2) && l.copy && l2.copy && !l2.newer
    ensures Nudged(j, y, Daemon(Handle(t, true, Requested, l, l2)))
  {
    var s0 := Taken(y.s, t);
    var s' := OnInspected(s0, t.look, t.cause, true, l, l2);
    SettledStep(s0, t.look, t.cause, true, l, l2);
    SameDoom(j, y.s, s');
    assert Do(y.s, Handle(t, true, Requested, l, l2)) == s';
    assert forall v :: v in y.s.tasks && v != t ==> v in s0.tasks;
    NudgedTo(j, y, Handle(t, true, Requested, l, l2), s');
  }

  lemma DriveSettled(j: Job, y: System, t: Task) returns (ms: seq<Move>, z: System)
    requires Doomed(j, y.s) && t in y.s.tasks && t.Inspected? && (t.look.Clean? || t.look.Missing?)
    requires if HandsBack(j, t) then !y.s.leased else y.s.leased
    ensures Driven(j, y, ms, z)
  {
    var l, l2 := GoodLuck(y.s, true);
    SettledNudge(j, y, t, l, l2);
    SettledStep(Taken(y.s, t), t.look, t.cause, true, l, l2);
    var s0 := if t.look.Missing? then CommitTombstone(Taken(y.s, t)) else Taken(y.s, t);
    ms, z := EndsFree(j, y, Daemon(Handle(t, true, Requested, l, l2)), s0, l2);
  }

  lemma StagedIs(s: State, t: Task, l: Luck, l2: Luck)
    requires t in s.tasks && t.Staged? && !l.write
    ensures Do(s, Handle(t, true, Requested, l, l2))
            == Unbusy(if (t.required && t.copied.None?) || t.restore.None? then Taken(s, t)
                      else Taken(s, t).(writable := l.mode), l2)
  {
  }

  lemma DriveStaged(j: Job, y: System, t: Task) returns (ms: seq<Move>, z: System)
    requires Doomed(j, y.s) && t in y.s.tasks && t.Staged?
    ensures Driven(j, y, ms, z)
  {
    var l, l2 := GoodLuck(y.s, false);
    var m := Daemon(Handle(t, true, Requested, l, l2));
    StagedIs(y.s, t, l, l2);
    if (t.required && t.copied.None?) || t.restore.None? {
      ms, z := DriveStagedTo(j, y, m, t, Taken(y.s, t), l2);
    } else {
      ms, z := DriveStagedTo(j, y, m, t, Taken(y.s, t).(writable := l.mode), l2);
    }
  }

  lemma DriveStagedTo(j: Job, y: System, m: Move, t: Task, s0: State, l2: Luck) returns (ms: seq<Move>, z: System)
    requires Doomed(j, y.s) && t in y.s.tasks && !t.Applying? && m.Daemon? && !m.st.Grant?
    requires CanMove(j, y, m) && Calm(j, y, m)
    requires Make(j, y, m) == System(Unbusy(s0, l2), y.phase) && !l2.newer
    requires s0.tasks == Taken(y.s, t).tasks && s0.disk == y.s.disk && s0.quarantine == y.s.quarantine
    requires s0.committed == y.s.committed && s0.leased == y.s.leased && s0.replies == y.s.replies
    ensures Driven(j, y, ms, z)
  {
    UnbusyIdle(s0, l2);
    SameDoom(j, y.s, Unbusy(s0, l2));
    assert Applying(j.q, j.me) in y.s.tasks ==> Applying(j.q, j.me) in s0.tasks;
    ms, z := EndsFree(j, y, m, s0, l2);
  }

  /** A copy of other bytes dooms no less. */
  lemma CopiedDoom(j: Job, s: State, s': State, l: Luck)
    requires Doomed(j, s) && l.copy && Clear(s, l)
    requires s'.quarantine == s.quarantine || s'.quarantine == Copies(s, l)
    requires s'.disk == s.disk && s'.committed == s.committed
    ensures Doomed(j, s')
  {
  }

  lemma DriveViolating(j: Job, y: System, t: Task) returns (ms: seq<Move>, z: System)
    requires Doomed(j, y.s) && t in y.s.tasks && t.Violating?
    ensures Driven(j, y, ms, z)
  {
    var l, l2 := GoodLuck(y.s, true);
    var m := Daemon(Work(t, true, l));
    var u := ViolatingStep(j, y, t, l);
    ms, z := DriveStaged(j, Make(j, y, m), u);
    Onward(j, y, m, ms, z);
    ms := [m] + ms;
  }

  lemma ViolatingStep(j: Job, y: System, t: Task, l: Luck) returns (u: Task)
    requires Doomed(j, y.s) && t in y.s.tasks && t.Violating? && l.copy && Clear(y.s, l)
    ensures u.Staged? && u in Make(j, y, Daemon(Work(t, true, l))).s.tasks && Nudged(j, y, Daemon(Work(t, true, l)))
  {
    var s0 := Taken(y.s, t);
    var s1 := if t.first then Copied(s0, l) else s0;
    u := Staged(Some(t.content), if t.first && CopyMade(s0, l.copy) then s0.disk else None, t.first);
    ViolatingIs(y.s, t, l, u);
    ViolatingRest(y.s, t, s1, l, u);
    CopiedDoom(j, y.s, Add(s1, u), l);
    NudgedTo(j, y, Work(t, true, l), Add(s1, u));
  }

  lemma ViolatingRest(s: State, t: Task, s1: State, l: Luck, u: Task)
    requires t in s.tasks && t.Violating? && s1 == if t.first then Copied(Taken(s, t), l) else Taken(s, t)
    ensures Add(s1, u).replies == s.replies && Add(s1, u).leased == s.leased && u in Add(s1, u).tasks
    ensures forall v :: v in s.tasks && v.Applying? ==> v in Add(s1, u).tasks
    ensures Add(s1, u).quarantine == s.quarantine || Add(s1, u).quarantine == Copies(s, l)
    ensures Add(s1, u).disk == s.disk && Add(s1, u).committed == s.committed
  {
    CopiedLeaves(Taken(s, t), l);
  }

  lemma ViolatingIs(s: State, t: Task, l: Luck, u: Task)
    requires t in s.tasks && t.Violating?
    requires u == Staged(Some(t.content), if t.first && CopyMade(s, l.copy) then s.disk else None, t.first)
    ensures Do(s, Work(t, true, l)) == Add(if t.first then Copied(Taken(s, t), l) else Taken(s, t), u)
  {
  }

  lemma CopiedLeaves(s: State, l: Luck)
    ensures Copied(s, l).tasks == s.tasks && Copied(s, l).replies == s.replies && Copied(s, l).leased == s.leased
    ensures Copied(s, l).disk == s.disk && Copied(s, l).committed == s.committed
    ensures Copied(s, l).quarantine == Copies(s, l)
  {
  }

  /** A failed autolock ends in clearing the busy mark, or stages a restore. */
  lemma DriveFailing(j: Job, y: System, m: Move, s: State, copied: Option<Bytes>, newFile: bool, l: Luck, l2: Luck)
    returns (ms: seq<Move>, z: System)
    requires Nudged(j, y, m) && !l.write && !l2.newer
    requires Make(j, y, m).s == AutolockFail(s, copied, newFile, true, l, l2)
    ensures Driven(j, y, ms, z)
  {
    var s1 := s.(autolock := None);
    if copied.None? {
      ms, z := EndsFree(j, y, m, s1, l2);
    } else if newFile {
      ms, z := EndsFree(j, y, m, s1.(writable := l.mode), l2);
    } else if s.index.None? {
      ms, z := EndsFree(j, y, m, s1, l2);
    } else {
      var u := Staged(Some(ContentOf(s.index.value)), copied, true);
      assert u in Make(j, y, m).s.tasks;
      ms, z := DriveStaged(j, Make(j, y, m), u);
      Onward(j, y, m, ms, z);
      ms := [m] + ms;
    }
  }

  /** What a failed autolock leaves alone when the file cannot be replaced and no version is newer. */
  lemma FailingKeeps(s: State, copied: Option<Bytes>, newFile: bool, l: Luck, l2: Luck)
    requires !l.write && !l2.newer
    ensures var s' := AutolockFail(s, copied, newFile, true, l, l2);
            && s'.disk == s.disk && s'.quarantine == s.quarantine && s'.committed == s.committed
            && s'.leased == s.leased && s'.replies == s.replies && forall t :: t in s.tasks ==> t in s'.tasks
  {
    var s1 := s.(autolock := None);
    UnbusyIdle(s1, l2);
    UnbusyIdle(s1.(writable := l.mode), l2);
  }

  lemma ReadyIs(s: State, t: Task, l: Luck, l2: Luck)
    requires t in s.tasks && t.Ready?
    ensures Do(s, Handle(t, true, StartFails, l, l2))
            == AutolockFail(Taken(s, t).(busy := true), t.copied, t.newFile, true, l, l2)
  {
  }

  lemma ReadyNudge(j: Job, y: System, t: Task, l: Luck, l2: Luck)
    requires Doomed(j, y.s) && t in y.s.tasks && t.Ready? && AllClear(y.s, l, l2) && l.copy && l2.copy
    requires !l.write && !l2.newer
    ensures var m := Daemon(Handle(t, true, StartFails, l, l2));
            && Nudged(j, y, m)
            && Make(j, y, m).s == AutolockFail(Taken(y.s, t).(busy := true), t.copied, t.newFile, true, l, l2)
  {
    var s0 := Taken(y.s, t).(busy := true);
    var s' := AutolockFail(s0, t.copied, t.newFile, true, l, l2);
    ReadyIs(y.s, t, l, l2);
    FailingKeeps(s0, t.copied, t.newFile, l, l2);
    SameDoom(j, y.s, s');
    assert forall u :: u in y.s.tasks && u != t ==> u in s0.tasks;
    NudgedTo(j, y, Handle(t, true, StartFails, l, l2), s');
  }

  lemma DriveReady(j: Job, y: System, t: Task) returns (ms: seq<Move>, z: System)
    requires Doomed(j, y.s) && t in y.s.tasks && t.Ready?
    ensures Driven(j, y, ms, z)
  {
    var l, l2 := GoodLuck(y.s, false);
    ReadyNudge(j, y, t, l, l2);
    var m := Daemon(Handle(t, true, StartFails, l, l2));
    ms, z := DriveFailing(j, y, m, Taken(y.s, t).(busy := true), t.copied, t.newFile, l, l2);
  }

  lemma DrivePreserving(j: Job, y: System, t: Task) returns (ms: seq<Move>, z: System)
    requires Doomed(j, y.s) && t in y.s.tasks && t.Preserving?
    ensures Driven(j, y, ms, z)
  {
    var l, l2 := GoodLuck(y.s, true);
    var m := Daemon(Work(t, true, l));
    var s0 := Copied(Taken(y.s, t), l);
    var u := Ready(if CopyMade(y.s, l.copy) then y.s.disk else None, t.newFile);
    var y1 := Make(j, y, m);
    assert y1.s == Add(s0, u);
    CopiedLeaves(Taken(y.s, t), l);
    CopiedDoom(j, y.s, y1.s, l);
    ms, z := DriveReady(j, y1, u);
    Onward(j, y, m, ms, z);
    ms := [m] + ms;
  }

  /** Bytes staged under the lease that cannot be used. */
  lemma DriveLeasedWrite(j: Job, y: System, t: Task) returns (ms: seq<Move>, z: System)
    requires Doomed(j, y.s) && t in y.s.tasks && (t.Applying? || t.Restoring?) && t != Applying(j.q, j.me)
    ensures Driven(j, y, ms, z)
  {
    var l, l2 := GoodLuck(y.s, true);
    var m := Daemon(Handle(t, false, Requested, l, l2));
    var s0 := Taken(y.s, t);
    UnbusyIdle(s0, l2);
    assert Make(j, y, m).s == if t.Applying? then Answer(Unbusy(s0, l2), Applied(t.client, false)) else Unbusy(s0, l2);
    SameDoom(j, y.s, Make(j, y, m).s);
    ms, z := EndsFree(j, y, m, s0, l2);
  }

  /** Any task in flight can be driven to the end of its operation: with the lease kept, unless its
      operation hands the lease back. */
  lemma Drive(j: Job, y: System, t: Task) returns (ms: seq<Move>, z: System)
    requires Doomed(j, y.s) && t in y.s.tasks && t != Applying(j.q, j.me)
    requires if HandsBack(j, t) then !y.s.leased else y.s.leased
    ensures Driven(j, y, ms, z)
  {
    match t
    case Inspecting(_, _) => ms, z := DriveInspecting(j, y, t);
    case Inspected(_, _) => ms, z := DriveInspected(j, y, t);
    case Publishing(_) => ms, z := DrivePublishing(j, y, t);
    case Published(_, _) => ms, z := DrivePublished(j, y, t);
    case Violating(_, _) => ms, z := DriveViolating(j, y, t);
    case Staged(_, _, _) => ms, z := DriveStaged(j, y, t);
    case Preserving(_) => ms, z := DrivePreserving(j, y, t);
    case Ready(_, _) => ms, z := DriveReady(j, y, t);
    case _ => ms, z := DriveLeasedWrite(j, y, t);
  }
}
