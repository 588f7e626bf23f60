/** What the daemon's steps do to a resolve: to the target that carries the bytes, to one that no longer
    does, and to the client's own unlock. */
module ResolveSteps {
  import opened Common
  import opened Preservation
  import opened PathExclusion
  import opened DaemonSteps
  import opened Resolve

  /** A step that neither ends nor starts an operation on a busy path. */
  lemma BusyStays(j: Job, s: State, st: Step)
    requires s.busy && s.autolock.None? && Enabled(s, st) && HandsOff(j, s, st)
    requires !st.Work? && !st.Handle? && !st.Restart?
    ensures var s' := Do(s, st);
            s'.busy && s'.autolock.None? && s'.tasks == s.tasks && s'.disk == s.disk && s'.index == s.index
  {
    match st
    case RemoteApply(e, l) =>
    case Watch =>
    case Grant =>
    case _ => BusyQuiet(j, s, st);
  }

  lemma BusyQuiet(j: Job, s: State, st: Step)
    requires s.busy && s.autolock.None? && Enabled(s, st) && HandsOff(j, s, st)
    requires !st.Work? && !st.Handle? && !st.Restart? && !st.RemoteApply? && !st.Watch? && !st.Grant?
    ensures var s' := Do(s, st);
            s'.busy && s'.autolock.None? && s'.tasks == s.tasks && s'.disk == s.disk && s'.index == s.index
  {
  }

  // ---------- the target carries the bytes ----------

  /** The target carries the bytes, a leased file is writable, and nothing is about to take them. */
  ghost predicate Near(j: Job, s: State) {
    && s.disk == Some(j.q) && (s.leased ==> s.writable) && !Open(s)
    && forall t :: t in s.tasks ==> !t.Applying? && !t.Restoring?
  }

  /** So it stays, or the bytes exist a second time, or they left a file without a lease. */
  ghost predicate NearNext(j: Job, s: State) {
    Twice(j, s) || Near(j, s) || (s.disk != Some(j.q) && !s.leased)
  }

  lemma SpawnNear(j: Job, s: State, t: Task)
    requires Near(j, s) && !Armed(t) && !t.Applying? && !t.Restoring?
    ensures Near(j, Spawn(s, t)) && Near(j, Add(s, t))
  {
    var s1, s2 := Add(s, t), Spawn(s, t);
    assert forall u :: u in s1.tasks ==> u in s.tasks || u == t;
    assert s2.tasks == s1.tasks && s2.autolock == s1.autolock;
  }

  /** Fewer tasks, and the same file. */
  lemma SameNear(j: Job, s: State, s': State)
    requires Near(j, s) && s'.disk == s.disk && (s'.leased ==> s'.writable) && s'.autolock == s.autolock
    requires forall t :: t in s'.tasks ==> t in s.tasks
    ensures Near(j, s')
  {
  }

  lemma RemoteNear(j: Job, s: State, e: Entry, l: Luck)
    requires Near(j, s) && Copy(j, s) && l.copy && Clear(s, l) && Recorded(s, ContentOf(e))
    ensures NearNext(j, ApplyRemote(s, e, l)) && Copy(j, ApplyRemote(s, e, l))
  {
    var s' := ApplyRemote(s, e, l);
    ApplyTame(0, s, e, l);
    SameCopies(j, s, s');
    if !l.newer {
    } else if s.writable {
      assert l.name in s'.quarantine && s'.quarantine[l.name] == j.q;
    } else if s'.disk == s.disk {
      SameNear(j, s, s');
    }
  }

  lemma RecheckNear(j: Job, s: State)
    requires NearNext(j, s)
    ensures NearNext(j, if s.recheck then Spawn(s.(recheck := false), Inspecting(s.index, Watcher)) else s)
  {
    if s.recheck {
      var s1 := s.(recheck := false);
      var s2 := Spawn(s1, Inspecting(s.index, Watcher));
      if Twice(j, s) { SameSafety(j, s, s2); }
      else if Near(j, s) { SameNear(j, s, s1); SpawnNear(j, s1, Inspecting(s.index, Watcher)); }
    }
  }

  lemma UnbusyNear(j: Job, s: State, l: Luck)
    requires Near(j, s) && Copy(j, s) && l.copy && Clear(s, l)
    requires s.deferred.Some? ==> Recorded(s, ContentOf(s.deferred.value))
    ensures NearNext(j, Unbusy(s, l))
  {
    var s1 := s.(busy := false);
    SameNear(j, s, s1);
    if s1.deferred.Some? {
      var s0 := s1.(deferred := None);
      SameNear(j, s, s0);
      RemoteNear(j, s0, s1.deferred.value, l);
    }
    RecheckNear(j, if s1.deferred.Some? then ApplyRemote(s1.(deferred := None), s1.deferred.value, l) else s1);
  }

  /** States that differ from `s` in what `Near` does not see. */
  predicate Alike(s: State, s1: State) {
    && s1.disk == s.disk && s1.writable == s.writable && s1.leased == s.leased && s1.autolock == s.autolock
    && s1.tasks == s.tasks && s1.quarantine == s.quarantine && s1.committed == s.committed && s1.deferred == s.deferred
  }

  lemma ThenUnbusyNear(j: Job, s: State, s1: State, l: Luck)
    requires Near(j, s) && Copy(j, s) && l.copy && Clear(s, l) && Alike(s, s1)
    requires s.deferred.Some? ==> Recorded(s, ContentOf(s.deferred.value))
    ensures NearNext(j, Unbusy(s1, l))
  {
    SameNear(j, s, s1);
    UnbusyNear(j, s1, l);
  }

  lemma FinishNear(j: Job, s: State, id: nat, ok: bool, l: Luck)
    requires NearNext(j, s)
    ensures NearNext(j, FinishUnlock(s, id, ok, l))
  {
    var s' := FinishUnlock(s, id, ok, l);
    if Twice(j, s) { SameSafety(j, s, s'); } else if Near(j, s) { SameNear(j, s, s'); }
  }

  lemma UnlockNear(j: Job, s: State, look: Look, id: nat, eligible: bool, l: Luck, l2: Luck)
    requires Near(j, s) && Copy(j, s) && Grounded(s) && l2.copy && Clear(s, l2)
    ensures NearNext(j, OnInspected(s, look, Client(id), eligible, l, l2))
  {
    match look
    case Failed => ThenUnbusyNear(j, s, Answer(s, Unlocked(id, false)), l2);
    case Clean => UnbusyNear(j, s, l2); FinishNear(j, Unbusy(s, l2), id, true, l);
    case Missing =>
      ThenUnbusyNear(j, s, CommitTombstone(s), l2);
      FinishNear(j, Unbusy(CommitTombstone(s), l2), id, true, l);
    case _ => SpawnNear(j, s, Publishing(Client(id)));
  }

  lemma WatchNear(j: Job, s: State, look: Look, eligible: bool, l: Luck, l2: Luck)
    requires Near(j, s) && Copy(j, s) && Grounded(s) && l.copy && l2.copy && AllClear(s, l, l2) && !look.Missing?
    ensures NearNext(j, OnInspected(s, look, Watcher, eligible, l, l2))
  {
    if look.Failed? || look.Clean? {
      UnbusyNear(j, s, l2);
    } else if s.leased {
      SpawnNear(j, s, Publishing(Watcher));
    } else if eligible && s.autolock.None? {
      SpawnNear(j, s, Preserving(look.Unindexed?));
    } else if look.Differs? {
      if s.index.None? { UnbusyNear(j, s, l2); } else { SpawnNear(j, s, Violating(ContentOf(s.index.value), true)); }
    } else {
      NewFileNear(j, s, l, l2);
    }
  }

  /** The removal of the target as a new file copies the bytes first. */
  lemma NewFileNear(j: Job, s: State, l: Luck, l2: Luck)
    requires s.disk == Some(j.q) && Copy(j, s) && l.copy && AllClear(s, l, l2)
    ensures Twice(j, RemoveNewFile(s, l)) && Twice(j, Unbusy(RemoveNewFile(s, l), l2))
  {
    var s1 := RemoveNewFile(s, l);
    assert l.name in s1.quarantine && s1.quarantine[l.name] == j.q && l.name != j.name;
    UnbusyTame(0, s1, l2);
    SameCopies(j, s1, Unbusy(s1, l2));
  }

  lemma PublishedNear(j: Job, s: State, result: Option<Bytes>, cause: Cause, l: Luck, l2: Luck)
    requires Near(j, s) && Copy(j, s) && Grounded(s) && l2.copy && Clear(s, l2)
    ensures NearNext(j, OnPublished(s, result, cause, l, l2))
  {
    var ok := result.Some? && s.leased;
    var s1 := if result.None? && cause.Watcher? then s.(recheck := true) else s;
    var s2 := if ok then s1.(index := Some(Live(result.value)), committed := s1.committed + {result.value}) else s1;
    SameNear(j, s, s2);
    SameCopies(j, s, s2);
    UnbusyNear(j, s2, l2);
    if cause.Client? { FinishNear(j, Unbusy(s2, l2), cause.id, ok, l); }
  }

  lemma ReadyNear(j: Job, s: State, newFile: bool, o: Outcome, staged: bool, l: Luck, l2: Luck)
    requires Near(j, s) && Copy(j, s) && Grounded(s) && l2.copy && Clear(s, l2)
    ensures NearNext(j, OnReady(s, None, newFile, o, staged, l, l2))
  {
    if o.Requested? {
      var s1 := s.(busy := true, autolock := Some((None, newFile)), waiting := true);
      assert forall t :: t in s1.tasks ==> t in s.tasks;
      assert !Open(s1);
    } else {
      UnlostNear(j, s.(busy := o.StartFails?), newFile, staged, l, l2);
    }
  }

  /** An autolock that holds no copy ends without touching the file. */
  lemma UnlostNear(j: Job, s: State, newFile: bool, staged: bool, l: Luck, l2: Luck)
    requires s.disk == Some(j.q) && (s.leased ==> s.writable) && Copy(j, s) && l2.copy && Clear(s, l2)
    requires s.deferred.Some? ==> Recorded(s, ContentOf(s.deferred.value))
    requires forall t :: t in s.tasks ==> !Armed(t) && !t.Applying? && !t.Restoring?
    ensures NearNext(j, AutolockFail(s, None, newFile, staged, l, l2))
  {
    var s1 := s.(autolock := None);
    assert Near(j, s1);
    UnbusyNear(j, s1, l2);
  }

  lemma HandleNear(j: Job, s: State, t: Task, ok: bool, o: Outcome, l: Luck, l2: Luck)
    requires Near(j, s) && Copy(j, s) && Grounded(s) && l.copy && l2.copy && AllClear(s, l, l2)
    requires !Background(t) && !Armed(t) && !t.Applying? && !t.Restoring?
    ensures NearNext(j, DoHandle(s, t, ok, o, l, l2))
  {
    match t
    case Inspected(look, Client(id)) => UnlockNear(j, s, look, id, ok, l, l2);
    case Inspected(look, Watcher) => WatchNear(j, s, look, ok, l, l2);
    case Published(result, cause) => PublishedNear(j, s, result, cause, l, l2);
    case Staged(_, _, _) => UnbusyNear(j, s, l2);
    case Ready(_, newFile) => ReadyNear(j, s, newFile, o, ok, l, l2);
  }

  lemma WorkNear(j: Job, s: State, t: Task, ok: bool, l: Luck)
    requires Near(j, s) && Copy(j, s) && l.copy && Clear(s, l) && Background(t) && !Armed(t)
    ensures NearNext(j, DoWork(s, t, ok, l))
  {
    match t
    case Inspecting(entry, cause) => SpawnNear(j, s, Inspected(if ok then Examine(entry, s.disk) else Failed, cause));
    case Publishing(cause) => SpawnNear(j, s, Published(if ok then s.disk else None, cause));
    case Violating(restore, first) => CopyNear(j, s, l); SameSafety(j, Copied(s, l), DoWork(s, t, ok, l));
    case Preserving(newFile) => CopyNear(j, s, l); SameSafety(j, Copied(s, l), DoWork(s, t, ok, l));
    case _ =>
  }

  lemma CopyNear(j: Job, s: State, l: Luck)
    requires s.disk == Some(j.q) && Copy(j, s) && l.copy && Clear(s, l)
    ensures Twice(j, Copied(s, l))
  {
    var s' := Copied(s, l);
    assert l.name in s'.quarantine && s'.quarantine[l.name] == j.q && l.name != j.name;
  }

  lemma TakenNear(j: Job, s: State, t: Task)
    requires Near(j, s) && t in s.tasks
    ensures Near(j, Taken(s, t)) && !Armed(t) && !t.Applying? && !t.Restoring?
    ensures Copy(j, s) ==> Copy(j, Taken(s, t))
  {
    SameNear(j, s, Taken(s, t));
  }

  lemma RestartNear(j: Job, s: State, sameSize: bool, l: Luck)
    requires Near(j, s) && Copy(j, s) && l.copy && Clear(s, l)
    ensures NearNext(j, OnRestart(s, sameSize, l))
  {
    var s1 := Rebooted(s, l);
    RebootedNear(j, s, l);
    if s.index.None? || s.index.value.Tombstone? {
      CopyNear(j, s1, l);
      SameSafety(j, Copied(s1, l), RemoveNewFile(s1, l));
    } else {
      SpawnNear(j, s1, Violating(s.index.value.bytes, true));
    }
  }

  lemma RebootedNear(j: Job, s: State, l: Luck)
    requires Near(j, s)
    ensures Near(j, Rebooted(s, l)) && Rebooted(s, l).quarantine == s.quarantine && Rebooted(s, l).disk == s.disk
    ensures Rebooted(s, l).index == s.index
  {
  }

  lemma GrantNear(j: Job, s: State)
    requires Near(j, s)
    ensures Near(j, OnGranted(s))
  {
    var s1 := s.(leased := true, writable := true, waiting := false);
    SameNear(j, s, s1);
    if s.autolock.Some? {
      var s2 := s1.(autolock := None);
      assert forall t :: t in s2.tasks ==> t in s1.tasks;
      assert Near(j, s2);
      SpawnNear(j, s2, Publishing(Watcher));
    }
  }

  lemma SeenNear(j: Job, s: State, e: Entry, l: Luck)
    requires Near(j, s) && Copy(j, s) && l.copy && Clear(s, l)
    ensures NearNext(j, Do(s, RemoteApply(e, l)))
  {
    var s1 := Seen(s, e);
    SameNear(j, s, s1);
    SameCopies(j, s, s1);
    if s.busy { SameNear(j, s1, s1.(deferred := Some(e))); } else { RemoteNear(j, s1, e, l); }
  }

  lemma LostNear(j: Job, s: State, staged: bool, l: Luck, l2: Luck)
    requires Near(j, s) && Copy(j, s) && Grounded(s) && l2.copy && Clear(s, l2) && s.autolock.Some? && s.waiting
    ensures NearNext(j, Do(s, AutolockLost(staged, l, l2)))
  {
    var s1 := s.(waiting := false);
    UnlostNear(j, s1, s.autolock.value.1, staged, l, l2);
  }

  lemma WatchedNear(j: Job, s: State)
    requires Near(j, s)
    ensures Near(j, Do(s, Watch))
  {
    if s.busy { SameNear(j, s, s.(recheck := true)); } else { SpawnNear(j, s, Inspecting(s.index, Watcher)); }
  }

  lemma QuietNear(j: Job, s: State, st: Step)
    requires Near(j, s) && Copy(j, s) && Enabled(s, st) && HandsOff(j, s, st) && CopiesWork(s, st)
    requires || st.ConcurrentSeen? || st.LeaseLost? || st.Discard? || st.AskLock? || st.RequestLost? || st.VoterGone?
    ensures NearNext(j, Do(s, st))
  {
    var s' := Do(s, st);
    if st.ConcurrentSeen? {
      assert st.l.name in s'.quarantine && s'.quarantine[st.l.name] == j.q && st.l.name != j.name;
    } else {
      SameNear(j, s, s');
    }
  }

  /** One step of the daemon over a target that carries the bytes. */
  lemma StepNear(j: Job, s: State, st: Step)
    requires Inv(s) && Near(j, s) && Copy(j, s) && Enabled(s, st) && HandsOff(j, s, st) && CopiesWork(s, st)
    ensures NearNext(j, Do(s, st))
  {
    match st
    case Work(t, ok, l) => TakenNear(j, s, t); WorkNear(j, Taken(s, t), t, ok, l);
    case Handle(t, ok, o, l, l2) => TakenNear(j, s, t); TakenKeeps(s, t); HandleNear(j, Taken(s, t), t, ok, o, l, l2);
    case RemoteApply(e, l) => SeenNear(j, s, e, l);
    case AutolockLost(staged, l, l2) => LostNear(j, s, staged, l, l2);
    case Watch => WatchedNear(j, s);
    case Grant => GrantNear(j, s);
    case Restart(sameSize, l) => RestartNear(j, s, sameSize, l);
    case AskUnlock(id) => SpawnNear(j, s, Inspecting(s.index, Client(id)));
    case _ => QuietNear(j, s, st);
  }

  /** A stale revert takes a copy, so none happens over such a target. */
  lemma NearNotStale(j: Job, s: State, st: Step)
    requires Near(j, s) && Enabled(s, st)
    ensures !StaleRevert(s, st)
  {
    if StaleRevert(s, st) { assert st.task in s.tasks && Armed(st.task); }
  }

  // ---------- the target no longer carries the bytes ----------

  /** What is on disk afterwards was there before, or is on record, or there is nothing. */
  predicate Put(s: State, s': State) {
    s'.disk == s.disk || s'.disk.None? || Recorded(s', s'.disk.value)
  }

  lemma PutTwice(s: State, s1: State, s2: State)
    requires Put(s, s1) && Put(s1, s2) && s1.committed <= s2.committed
    ensures Put(s, s2)
  {
  }

  lemma UnbusyPut(s: State, l: Luck)
    requires s.deferred.Some? ==> Recorded(s, ContentOf(s.deferred.value))
    ensures Put(s, Unbusy(s, l)) && Unbusy(s, l).committed == s.committed && Unbusy(s, l).leased == s.leased
  {
  }

  lemma ThenUnbusyPut(s: State, s1: State, l: Luck)
    requires s1.deferred.Some? ==> Recorded(s1, ContentOf(s1.deferred.value))
    requires Put(s, s1)
    ensures Put(s, Unbusy(s1, l))
  {
    UnbusyPut(s1, l);
    PutTwice(s, s1, Unbusy(s1, l));
  }

  lemma InspectedPut(s: State, look: Look, cause: Cause, eligible: bool, l: Luck, l2: Luck)
    requires Grounded(s)
    ensures Put(s, OnInspected(s, look, cause, eligible, l, l2))
  {
    match cause
    case Client(id) => UnlockPut(s, look, id, eligible, l, l2);
    case Watcher => WatchPut(s, look, eligible, l, l2);
  }

  lemma WatchPut(s: State, look: Look, eligible: bool, l: Luck, l2: Luck)
    requires Grounded(s)
    ensures Put(s, OnInspected(s, look, Watcher, eligible, l, l2))
  {
    if look.Failed? || look.Clean? {
      UnbusyPut(s, l2);
    } else if s.leased {
      if look.Missing? { ThenUnbusyPut(s, CommitTombstone(s), l2); }
    } else if look.Missing? {
      UnbusyPut(s, l2);
    } else if eligible && s.autolock.None? {
    } else if look.Differs? {
      UnbusyPut(s, l2);
    } else {
      NewFilePut(s, l);
      ThenUnbusyPut(s, RemoveNewFile(s, l), l2);
    }
  }

  lemma NewFilePut(s: State, l: Luck)
    ensures Put(s, RemoveNewFile(s, l)) && RemoveNewFile(s, l).deferred == s.deferred
    ensures RemoveNewFile(s, l).committed == s.committed
  {
  }

  lemma UnlockPut(s: State, look: Look, id: nat, eligible: bool, l: Luck, l2: Luck)
    requires Grounded(s)
    ensures Put(s, OnInspected(s, look, Client(id), eligible, l, l2))
  {
    match look
    case Failed => ThenUnbusyPut(s, Answer(s, Unlocked(id, false)), l2);
    case Clean => UnbusyPut(s, l2);
    case Missing => ThenUnbusyPut(s, CommitTombstone(s), l2);
    case _ =>
  }

  lemma PublishedPut(s: State, result: Option<Bytes>, cause: Cause, l: Luck, l2: Luck)
    requires Grounded(s)
    ensures Put(s, OnPublished(s, result, cause, l, l2))
  {
    var ok := result.Some? && s.leased;
    var s1 := if result.None? && cause.Watcher? then s.(recheck := true) else s;
    var s2 := if ok then s1.(index := Some(Live(result.value)), committed := s1.committed + {result.value}) else s1;
    ThenUnbusyPut(s, s2, l2);
  }

  lemma AutolockFailPut(s: State, copied: Option<Bytes>, newFile: bool, staged: bool, l: Luck, l2: Luck)
    requires s.deferred.Some? ==> Recorded(s, ContentOf(s.deferred.value))
    ensures Put(s, AutolockFail(s, copied, newFile, staged, l, l2))
  {
    var s1 := s.(autolock := None);
    if copied.None? { ThenUnbusyPut(s, s1, l2); }
    else if newFile { ThenUnbusyPut(s, if l.write then s1.(disk := None) else s1.(writable := l.mode), l2); }
    else if s1.index.None? { ThenUnbusyPut(s, s1, l2); }
  }

  lemma StagedPut(s: State, t: Task, l: Luck, l2: Luck)
    requires Grounded(s) && t.Staged? && TaskOk(s, t)
    ensures Put(s, OnStaged(s, t.restore, t.copied, t.required, l, l2))
  {
    if (t.required && t.copied.None?) || t.restore.None? { UnbusyPut(s, l2); }
    else if l.write { ThenUnbusyPut(s, s.(disk := t.restore, writable := l.mode), l2); }
    else { ThenUnbusyPut(s, s.(writable := l.mode), l2); }
  }

  lemma HandlePut(s: State, t: Task, ok: bool, o: Outcome, l: Luck, l2: Luck)
    requires Grounded(s) && TaskOk(s, t) && ((t.Applying? || t.Restoring?) ==> !s.leased)
    ensures Put(s, DoHandle(s, t, ok, o, l, l2))
  {
    match t
    case Inspected(look, cause) => InspectedPut(s, look, cause, ok, l, l2);
    case Published(result, cause) => PublishedPut(s, result, cause, l, l2);
    case Staged(_, _, _) => StagedPut(s, t, l, l2);
    case Ready(copied, newFile) =>
      if !o.Requested? { AutolockFailPut(s.(busy := o.StartFails?), copied, newFile, ok, l, l2); }
    case Applying(_, _) => UnbusyPut(s, l2);
    case Restoring(_) => UnbusyPut(s, l2);
    case _ =>
  }

  /** Without a lease nobody but the user puts unrecorded bytes on disk. */
  lemma StepPut(j: Job, s: State, st: Step)
    requires Inv(s) && Enabled(s, st) && HandsOff(j, s, st)
    requires st.Handle? && (st.task.Applying? || st.task.Restoring?) ==> !s.leased
    ensures Put(s, Do(s, st))
  {
    match st
    case Handle(_, _, _, _, _) => HandleStepPut(s, st);
    case AutolockLost(_, _, _) => LostPut(s, st);
    case Restart(sameSize, l) => RestartPut(s, sameSize, l);
    case RemoteApply(e, l) => RemotePut(s, e, l);
    case Work(t, ok, l) => assert DoWork(Taken(s, t), t, ok, l).disk == s.disk;
    case _ => OthersPut(j, s, st);
  }

  lemma HandleStepPut(s: State, st: Step)
    requires Inv(s) && st.Handle? && Enabled(s, st) && ((st.task.Applying? || st.task.Restoring?) ==> !s.leased)
    ensures Put(s, Do(s, st))
  {
    TakenKeeps(s, st.task);
    HandlePut(Taken(s, st.task), st.task, st.ok, st.outcome, st.l, st.l2);
  }

  lemma LostPut(s: State, st: Step)
    requires Inv(s) && st.AutolockLost? && Enabled(s, st)
    ensures Put(s, Do(s, st))
  {
    var (copied, newFile) := s.autolock.value;
    AutolockFailPut(s.(waiting := false), copied, newFile, st.ok, st.l, st.l2);
  }

  lemma RestartPut(s: State, sameSize: bool, l: Luck)
    ensures Put(s, OnRestart(s, sameSize, l))
  {
  }

  lemma RemotePut(s: State, e: Entry, l: Luck)
    ensures Put(s, Do(s, RemoteApply(e, l)))
  {
    assert Recorded(Seen(s, e), ContentOf(e));
  }

  lemma OthersPut(j: Job, s: State, st: Step)
    requires Enabled(s, st) && HandsOff(j, s, st)
    requires !st.Handle? && !st.AutolockLost? && !st.Restart? && !st.RemoteApply? && !st.Work?
    ensures Do(s, st).disk == s.disk
  {
  }

  /** The bytes are gone from the target, and no lease can reach the client's unlock. */
  ghost predicate Far(j: Job, s: State) {
    s.disk != Some(j.q) && (!s.leased || Settling(j, s))
  }

  lemma StepFar(j: Job, s: State, st: Step)
    requires Inv(s) && Far(j, s) && !Twice(j, s)
    requires Enabled(s, st) && HandsOff(j, s, st) && CopiesWork(s, st) && (st.Grant? ==> LeaseOk(j, s))
    ensures Twice(j, Do(s, st)) || Far(j, Do(s, st))
  {
    var s' := Do(s, st);
    if st.Handle? && st.task.Published? && st.task.result == Some(j.q) && s.leased {
      BytesPublished(j, s, st);
    } else {
      assert st.Handle? && s.leased ==> HandsBack(j, st.task);
      StepPut(j, s, st);
      if st.Grant? {
        assert s'.disk == s.disk && Settling(j, s');
      } else {
        if s.leased { StepSettling(j, s, st); }
        if !st.Discard? { StepGrows(s, st); }
      }
    }
  }

  lemma BytesPublished(j: Job, s: State, st: Step)
    requires Enabled(s, st) && CopiesWork(s, st) && s.leased
    requires st.Handle? && st.task.Published? && st.task.result == Some(j.q)
    ensures Recorded(Do(s, st), j.q)
  {
    PublishedRecords(Taken(s, st.task), j.q, st.task.cause, st.l, st.l2);
  }

  lemma PublishedRecords(s: State, b: Bytes, cause: Cause, l: Luck, l2: Luck)
    requires s.leased
    ensures Recorded(OnPublished(s, Some(b), cause, l, l2), b)
  {
    UnbusyKeeps(s.(index := Some(Live(b)), committed := s.committed + {b}), l2);
  }

  lemma UnbusyKeeps(s: State, l: Luck)
    ensures Unbusy(s, l).committed == s.committed
  {
  }

  /** While the tasks of a settling path run, it stays one or the lease goes. */
  lemma StepSettling(j: Job, s: State, st: Step)
    requires Settling(j, s) && Enabled(s, st) && HandsOff(j, s, st) && !st.Grant? && s.leased
    requires !(st.Handle? && st.task.Published? && st.task.result == Some(j.q))
    ensures !Do(s, st).leased || Settling(j, Do(s, st))
  {
    match st
    case Work(t, ok, l) => WorkSettling(j, Taken(s, t), t, ok, l);
    case Handle(t, ok, o, l, l2) => HandleSettling(j, Taken(s, t), t, ok, o, l, l2);
    case Restart(_, l) => assert !Rebooted(s, l).leased;
    case _ => BusyStays(j, s, st);
  }

  lemma WorkSettling(j: Job, s: State, t: Task, ok: bool, l: Luck)
    requires Settling(j, s) && HandsBack(j, t) && Background(t)
    ensures Settling(j, DoWork(s, t, ok, l))
  {
    var u := Published(if ok then s.disk else None, t.cause);
    assert DoWork(s, t, ok, l) == Add(s, u);
    assert forall v :: v in Add(s, u).tasks ==> v in s.tasks || v == u;
  }

  lemma HandleSettling(j: Job, s: State, t: Task, ok: bool, o: Outcome, l: Luck, l2: Luck)
    requires Settling(j, s) && HandsBack(j, t) && !Background(t) && !(t.Published? && t.result == Some(j.q))
    ensures var s' := DoHandle(s, t, ok, o, l, l2); !s'.leased || Settling(j, s')
  {
    match t
    case Inspected(look, Client(id)) => InspectedSettling(j, s, look, id, ok, l, l2);
    case Published(result, Client(id)) => assert !OnPublished(s, result, Client(id), l, l2).leased;
  }

  lemma InspectedSettling(j: Job, s: State, look: Look, id: nat, ok: bool, l: Luck, l2: Luck)
    requires Settling(j, s) && !look.Failed?
    ensures var s' := OnInspected(s, look, Client(id), ok, l, l2); !s'.leased || Settling(j, s')
  {
    if look.Differs? || look.Unindexed? { SpawnSettling(j, s, Publishing(Client(id))); }
  }

  lemma SpawnSettling(j: Job, s: State, t: Task)
    requires Settling(j, s) && HandsBack(j, t)
    ensures Settling(j, Spawn(s, t))
  {
    assert forall u :: u in Spawn(s, t).tasks ==> u in s.tasks || u == t;
  }

  // ---------- the client's own unlock ----------

  ghost predicate NoTasks(c: nat, s: State) { forall t :: t in s.tasks ==> !Names(t, c) }

  /** What the client's own unlock has seen, over a target that carries the bytes. */
  predicate Sees(j: Job, t: Task) {
    match t
    case Inspecting(_, cause) => cause == Client(j.me)
    case Inspected(look, cause) => cause == Client(j.me) && !look.Clean? && !look.Missing?
    case Publishing(cause) => cause == Client(j.me)
    case Published(result, cause) => cause == Client(j.me) && (result.None? || result == Some(j.q))
    case _ => false
  }

  /** The unlock is all that happens on the path. */
  ghost predicate Alone(j: Job, s: State) {
    && s.disk == Some(j.q) && s.busy && s.autolock.None?
    && exists t :: s.tasks == multiset{t} && Sees(j, t)
  }

  lemma SpawnAlone(j: Job, s: State, t: Task)
    requires s.disk == Some(j.q) && s.autolock.None? && s.tasks == multiset{} && Sees(j, t)
    ensures Alone(j, Spawn(s, t)) && (s.busy ==> Alone(j, Add(s, t)))
  {
    assert Add(s, t).tasks == multiset{t} && Spawn(s, t).tasks == multiset{t};
  }

  /** One look of the unlock: it comes out clean only if the bytes are on record. */
  lemma WorkAlone(j: Job, s: State, t: Task, ok: bool, l: Luck)
    requires s.disk == Some(j.q) && s.autolock.None? && s.tasks == multiset{} && s.busy
    requires Sees(j, t) && Background(t) && TaskOk(s, t)
    ensures Twice(j, DoWork(s, t, ok, l)) || Alone(j, DoWork(s, t, ok, l))
  {
    match t
    case Inspecting(entry, cause) =>
      var look := if ok then Examine(entry, s.disk) else Failed;
      if look.Clean? { SameSafety(j, s, Add(s, Inspected(look, cause))); }
      else { SpawnAlone(j, s, Inspected(look, cause)); }
    case Publishing(cause) => SpawnAlone(j, s, Published(if ok then s.disk else None, cause));
  }

  /** Its end: published, or answered with a refusal. */
  lemma HandleAlone(j: Job, s: State, t: Task, ok: bool, o: Outcome, l: Luck, l2: Luck)
    requires s.disk == Some(j.q) && s.autolock.None? && s.tasks == multiset{} && s.busy
    requires Sees(j, t) && !Background(t) && Clear(s, l2) && Unlocked(j.me, true) !in s.replies
    ensures var s' := DoHandle(s, t, ok, o, l, l2);
            Twice(j, s') || ((NoTasks(j.me, s') || Alone(j, s')) && Unlocked(j.me, true) !in s'.replies)
  {
    match t
    case Inspected(look, cause) =>
      if look.Failed? { RefusedAlone(j, s, ok, l, l2); } else { SpawnAlone(j, s, Publishing(cause)); }
    case Published(result, cause) => PublishedAlone(j, s, result, l, l2);
  }

  lemma RefusedAlone(j: Job, s: State, ok: bool, l: Luck, l2: Luck)
    requires s.tasks == multiset{} && Clear(s, l2) && Unlocked(j.me, true) !in s.replies
    ensures var s' := OnInspected(s, Failed, Client(j.me), ok, l, l2);
            NoTasks(j.me, s') && Unlocked(j.me, true) !in s'.replies
  {
    var s1 := Answer(s, Unlocked(j.me, false));
    UnbusyTame(j.me, s1, l2);
    assert OnInspected(s, Failed, Client(j.me), ok, l, l2) == Unbusy(s1, l2);
  }

  lemma PublishedAlone(j: Job, s: State, result: Option<Bytes>, l: Luck, l2: Luck)
    requires s.tasks == multiset{} && (result.None? || result == Some(j.q)) && Clear(s, l2)
    requires Unlocked(j.me, true) !in s.replies
    ensures var s' := OnPublished(s, result, Client(j.me), l, l2);
            Twice(j, s') || (NoTasks(j.me, s') && Unlocked(j.me, true) !in s'.replies)
  {
    var ok := result.Some? && s.leased;
    var s2 := if ok then s.(index := Some(Live(j.q)), committed := s.committed + {j.q}) else s;
    UnbusyTame(j.me, s2, l2);
    assert OnPublished(s, result, Client(j.me), l, l2) == FinishUnlock(Unbusy(s2, l2), j.me, ok, l);
  }

  lemma WorkStepAlone(j: Job, s: State, t: Task, ok: bool, l: Luck)
    requires Inv(s) && Alone(j, s) && t in s.tasks && Background(t) && Sees(j, t) && Taken(s, t).tasks == multiset{}
    ensures var s' := Do(s, Work(t, ok, l)); s'.replies == s.replies && (Twice(j, s') || Alone(j, s'))
  {
    TakenKeeps(s, t);
    WorkAlone(j, Taken(s, t), t, ok, l);
    assert DoWork(Taken(s, t), t, ok, l).replies == s.replies;
  }

  lemma StepAlone(j: Job, s: State, st: Step)
    requires Inv(s) && Alone(j, s) && Unlocked(j.me, true) !in s.replies
    requires Enabled(s, st) && HandsOff(j, s, st) && CopiesWork(s, st)
    ensures var s' := Do(s, st);
            Twice(j, s') || ((NoTasks(j.me, s') || Alone(j, s')) && Unlocked(j.me, true) !in s'.replies)
  {
    var t :| s.tasks == multiset{t} && Sees(j, t);
    match st
    case Work(u, ok, l) => AloneTaken(j, s, t, u); WorkStepAlone(j, s, t, ok, l);
    case Handle(u, ok, o, l, l2) => AloneTaken(j, s, t, u); HandleAlone(j, Taken(s, t), t, ok, o, l, l2);
    case Restart(sameSize, l) => RestartTame(j.me, s, sameSize, l); RestartForgets(j.me, s, sameSize, l);
    case _ => BusyStays(j, s, st); StepHush(j.me, s, st);
  }

  lemma AloneTaken(j: Job, s: State, t: Task, u: Task)
    requires s.tasks == multiset{t} && u in s.tasks
    ensures u == t && Taken(s, u).tasks == multiset{}
  {
  }

  lemma RestartForgets(c: nat, s: State, sameSize: bool, l: Luck)
    ensures NoTasks(c, OnRestart(s, sameSize, l)) && OnRestart(s, sameSize, l).replies == {}
  {
    var s1 := Rebooted(s, l);
    assert s1.tasks == multiset{} && s1.replies == {};
  }
}
