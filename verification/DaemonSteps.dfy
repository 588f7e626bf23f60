/** What every step of the daemon leaves alone: records and copies stay, leases only go, and nothing
    is said to a client that asked for nothing. */
module DaemonSteps {
  import opened Common
  import opened Preservation

  /** No record and no copy goes away, and no lease comes. */
  ghost predicate Grows(s: State, s': State) {
    && s.committed <= s'.committed && (s'.leased ==> s.leased)
    && forall n :: n in s.quarantine ==> n in s'.quarantine && s'.quarantine[n] == s.quarantine[n]
  }

  predicate Names(t: Task, c: nat) {
    match t
    case Inspecting(_, cause) => cause == Client(c)
    case Inspected(_, cause) => cause == Client(c)
    case Publishing(cause) => cause == Client(c)
    case Published(_, cause) => cause == Client(c)
    case Applying(_, client) => client == c
    case _ => false
  }

  /** No task for client `c` and no reply to it comes up. */
  ghost predicate Hush(c: nat, s: State, s': State) {
    && (forall t :: t in s'.tasks && Names(t, c) ==> t in s.tasks)
    && (forall r :: r in s'.replies && r.client == c ==> r in s.replies)
  }

  ghost predicate Tame(c: nat, s: State, s': State) { Grows(s, s') && Hush(c, s, s') }

  /** The daemon knows nothing of client `c`. */
  ghost predicate Stranger(c: nat, s: State) {
    (forall t :: t in s.tasks ==> !Names(t, c)) && (forall r :: r in s.replies ==> r.client != c)
  }

  /** The copy gets a name of its own. */
  predicate Clear(s: State, l: Luck) { l.name !in s.quarantine }

  predicate AllClear(s: State, l: Luck, l2: Luck) { Clear(s, l) && Clear(s, l2) && l.name != l2.name }

  lemma CopiedTame(c: nat, s: State, l: Luck)
    requires Clear(s, l)
    ensures Tame(c, s, Copied(s, l))
  {
  }

  lemma AddTame(c: nat, s: State, t: Task)
    requires !Names(t, c)
    ensures Tame(c, s, Add(s, t)) && Tame(c, s, Spawn(s, t))
  {
  }

  lemma ApplyTame(c: nat, s: State, e: Entry, l: Luck)
    requires Clear(s, l)
    ensures Tame(c, s, ApplyRemote(s, e, l))
    ensures ApplyRemote(s, e, l).tasks == s.tasks && ApplyRemote(s, e, l).replies == s.replies
    ensures ApplyRemote(s, e, l).autolock == s.autolock
  {
    CopiedTame(c, s, l);
  }

  lemma UnbusyTame(c: nat, s: State, l: Luck)
    requires Clear(s, l)
    ensures Tame(c, s, Unbusy(s, l))
  {
    var s1 := s.(busy := false);
    if s1.deferred.Some? { ApplyTame(c, s1.(deferred := None), s1.deferred.value, l); }
    var s2 := if s1.deferred.Some? then ApplyRemote(s1.(deferred := None), s1.deferred.value, l) else s1;
    AddTame(c, s2.(recheck := false), Inspecting(s2.index, Watcher));
  }

  lemma ThenUnbusyTame(c: nat, s: State, s1: State, l: Luck)
    requires Tame(c, s, s1) && Clear(s1, l)
    ensures Tame(c, s, Unbusy(s1, l))
  {
    UnbusyTame(c, s1, l);
  }

  lemma FinishTame(c: nat, s: State, s1: State, id: nat, ok: bool, l: Luck, l2: Luck)
    requires Tame(c, s, s1) && Clear(s1, l2) && id != c
    ensures Tame(c, s, FinishUnlock(Unbusy(s1, l2), id, ok, l))
  {
    ThenUnbusyTame(c, s, s1, l2);
  }

  lemma InspectedTame(c: nat, s: State, look: Look, eligible: bool, l: Luck, l2: Luck)
    requires AllClear(s, l, l2)
    ensures Tame(c, s, OnInspected(s, look, Watcher, eligible, l, l2))
  {
    if look.Failed? || look.Clean? {
      UnbusyTame(c, s, l2);
    } else if s.leased {
      if look.Missing? { ThenUnbusyTame(c, s, CommitTombstone(s), l2); } else { AddTame(c, s, Publishing(Watcher)); }
    } else if look.Missing? {
      ViolationTame(c, s, false, l2);
    } else if eligible && s.autolock.None? {
      AddTame(c, s, Preserving(look.Unindexed?));
    } else if look.Differs? {
      ViolationTame(c, s, true, l2);
    } else {
      NewFileTame(c, s, l, l2);
    }
  }

  lemma NewFileTame(c: nat, s: State, l: Luck, l2: Luck)
    requires AllClear(s, l, l2)
    ensures Tame(c, s, RemoveNewFile(s, l)) && Tame(c, s, Unbusy(RemoveNewFile(s, l), l2))
  {
    CopiedTame(c, s, l);
    ThenUnbusyTame(c, s, RemoveNewFile(s, l), l2);
  }

  lemma ViolationTame(c: nat, s: State, first: bool, l2: Luck)
    requires Clear(s, l2)
    ensures Tame(c, s, SpawnViolation(s, first, l2))
  {
    if s.index.None? { UnbusyTame(c, s, l2); } else { AddTame(c, s, Violating(ContentOf(s.index.value), first)); }
  }

  lemma UnlockTame(c: nat, s: State, look: Look, id: nat, eligible: bool, l: Luck, l2: Luck)
    requires AllClear(s, l, l2) && id != c
    ensures Tame(c, s, OnInspected(s, look, Client(id), eligible, l, l2))
  {
    match look
    case Failed => ThenUnbusyTame(c, s, Answer(s, Unlocked(id, false)), l2);
    case Clean => FinishTame(c, s, s, id, true, l, l2);
    case Missing => FinishTame(c, s, CommitTombstone(s), id, true, l, l2);
    case _ => AddTame(c, s, Publishing(Client(id)));
  }

  lemma PublishedTame(c: nat, s: State, result: Option<Bytes>, cause: Cause, l: Luck, l2: Luck)
    requires AllClear(s, l, l2) && cause != Client(c)
    ensures Tame(c, s, OnPublished(s, result, cause, l, l2))
  {
    var ok := result.Some? && s.leased;
    var s1 := if result.None? && cause.Watcher? then s.(recheck := true) else s;
    var s2 := if ok then s1.(index := Some(Live(result.value)), committed := s1.committed + {result.value}) else s1;
    assert Tame(c, s, s2);
    if cause.Client? { FinishTame(c, s, s2, cause.id, ok, l, l2); } else { ThenUnbusyTame(c, s, s2, l2); }
  }

  lemma StagedTame(c: nat, s: State, t: Task, l: Luck, l2: Luck)
    requires AllClear(s, l, l2) && t.Staged?
    ensures Tame(c, s, OnStaged(s, t.restore, t.copied, t.required, l, l2))
  {
    if (t.required && t.copied.None?) || t.restore.None? { UnbusyTame(c, s, l2); }
    else if l.write { ThenUnbusyTame(c, s, s.(disk := t.restore, writable := l.mode), l2); }
    else { ThenUnbusyTame(c, s, s.(writable := l.mode), l2); }
  }

  lemma AutolockFailTame(c: nat, s: State, copied: Option<Bytes>, newFile: bool, staged: bool, l: Luck, l2: Luck)
    requires AllClear(s, l, l2)
    ensures Tame(c, s, AutolockFail(s, copied, newFile, staged, l, l2))
  {
    var s1 := s.(autolock := None);
    if copied.None? { ThenUnbusyTame(c, s, s1, l2); }
    else if newFile { ThenUnbusyTame(c, s, if l.write then s1.(disk := None) else s1.(writable := l.mode), l2); }
    else if s1.index.None? { ThenUnbusyTame(c, s, s1, l2); }
    else { RestoreTame(c, s, Staged(if staged then Some(ContentOf(s1.index.value)) else None, copied, true)); }
  }

  lemma RestoreTame(c: nat, s: State, t: Task)
    requires !Names(t, c)
    ensures Tame(c, s, Add(s.(autolock := None), t))
  {
    AddTame(c, s.(autolock := None), t);
  }

  lemma ReadyTame(c: nat, s: State, t: Task, o: Outcome, staged: bool, l: Luck, l2: Luck)
    requires AllClear(s, l, l2) && t.Ready?
    ensures Tame(c, s, OnReady(s, t.copied, t.newFile, o, staged, l, l2))
  {
    match o
    case GuardFails => AutolockFailTame(c, s.(busy := false), t.copied, t.newFile, staged, l, l2);
    case StartFails => AutolockFailTame(c, s.(busy := true), t.copied, t.newFile, staged, l, l2);
    case Requested =>
  }

  lemma AppliedTame(c: nat, s: State, b: Bytes, client: nat, ok: bool, l: Luck, l2: Luck)
    requires AllClear(s, l, l2) && client != c
    ensures Tame(c, s, OnApplied(s, b, client, ok, l, l2))
  {
    var s1 := if !ok || !s.leased then s else if !l.write then s.(writable := l.mode) else Overwritten(s, b);
    ThenUnbusyTame(c, s, s1, l2);
    assert OnApplied(s, b, client, ok, l, l2) == Answer(Unbusy(s1, l2), Applied(client, ok && s.leased && l.write));
  }

  lemma RestoredTame(c: nat, s: State, b: Bytes, ok: bool, l: Luck, l2: Luck)
    requires AllClear(s, l, l2)
    ensures Tame(c, s, OnRestored(s, b, ok, l, l2))
  {
    var s1 :=
      if !ok || !s.leased then s else if !l.write then s.(writable := l.mode)
      else Overwritten(s, b).(index := Some(Live(b)));
    ThenUnbusyTame(c, s, s1, l2);
  }

  lemma HandleTame(c: nat, s: State, t: Task, ok: bool, o: Outcome, l: Luck, l2: Luck)
    requires AllClear(s, l, l2) && !Names(t, c)
    ensures Tame(c, s, DoHandle(s, t, ok, o, l, l2))
  {
    match t
    case Inspected(look, Client(id)) => UnlockTame(c, s, look, id, ok, l, l2);
    case Inspected(look, Watcher) => InspectedTame(c, s, look, ok, l, l2);
    case Published(result, cause) => PublishedTame(c, s, result, cause, l, l2);
    case Staged(_, _, _) => StagedTame(c, s, t, l, l2);
    case Ready(_, _) => ReadyTame(c, s, t, o, ok, l, l2);
    case Applying(b, client) => AppliedTame(c, s, b, client, ok, l, l2);
    case Restoring(b) => RestoredTame(c, s, b, ok, l, l2);
    case _ =>
  }

  lemma ViolatingTame(c: nat, s: State, restore: Bytes, first: bool, ok: bool, l: Luck)
    requires Clear(s, l)
    ensures Tame(c, s, DoWork(s, Violating(restore, first), ok, l))
  {
    var s1 := if first then Copied(s, l) else s;
    CopiedTame(c, s, l);
    var copied := if first && CopyMade(s, l.copy) then s.disk else None;
    var t := Staged(if ok then Some(restore) else None, copied, first);
    AddTame(c, s1, t);
    TameTwice(c, s, s1, Add(s1, t));
  }

  lemma PreservingTame(c: nat, s: State, newFile: bool, ok: bool, l: Luck)
    requires Clear(s, l)
    ensures Tame(c, s, DoWork(s, Preserving(newFile), ok, l))
  {
    var t := Ready(if CopyMade(s, l.copy) then s.disk else None, newFile);
    CopiedTame(c, s, l);
    AddTame(c, Copied(s, l), t);
    TameTwice(c, s, Copied(s, l), Add(Copied(s, l), t));
  }

  lemma TameTwice(c: nat, s: State, s1: State, s2: State)
    requires Tame(c, s, s1) && Tame(c, s1, s2)
    ensures Tame(c, s, s2)
  {
  }

  lemma WorkTame(c: nat, s: State, t: Task, ok: bool, l: Luck)
    requires Clear(s, l) && !Names(t, c)
    ensures Tame(c, s, DoWork(s, t, ok, l))
  {
    match t
    case Inspecting(entry, cause) => AddTame(c, s, Inspected(if ok then Examine(entry, s.disk) else Failed, cause));
    case Publishing(cause) => AddTame(c, s, Published(if ok then s.disk else None, cause));
    case Violating(restore, first) => ViolatingTame(c, s, restore, first, ok, l);
    case Preserving(newFile) => PreservingTame(c, s, newFile, ok, l);
    case _ =>
  }

  lemma RebootedTame(c: nat, s: State, l: Luck)
    ensures Tame(c, s, Rebooted(s, l)) && Rebooted(s, l).quarantine == s.quarantine
  {
  }

  lemma RestartTame(c: nat, s: State, sameSize: bool, l: Luck)
    requires Clear(s, l)
    ensures Tame(c, s, OnRestart(s, sameSize, l))
  {
    var s1 := Rebooted(s, l);
    RebootedTame(c, s, l);
    if s.index.None? || s.index.value.Tombstone? {
      RemovedTame(c, s1, l);
      TameTwice(c, s, s1, RemoveNewFile(s1, l));
    } else {
      AddTame(c, s1, Violating(s.index.value.bytes, s.disk.Some?));
      TameTwice(c, s, s1, Spawn(s1, Violating(s.index.value.bytes, s.disk.Some?)));
    }
  }

  lemma RemovedTame(c: nat, s: State, l: Luck)
    requires Clear(s, l)
    ensures Tame(c, s, RemoveNewFile(s, l))
  {
    CopiedTame(c, s, l);
  }

  lemma RemoteTame(c: nat, s: State, e: Entry, l: Luck)
    requires Clear(s, l)
    ensures Tame(c, s, Do(s, RemoteApply(e, l)))
  {
    ApplyTame(c, Seen(s, e), e, l);
  }

  /** Copies succeed, under names of their own. */
  predicate CopiesWork(s: State, st: Step) {
    match st
    case Restart(_, l) => l.copy && Clear(s, l)
    case Work(_, _, l) => l.copy && Clear(s, l)
    case Handle(_, _, _, l, l2) => l.copy && l2.copy && AllClear(s, l, l2)
    case RemoteApply(_, l) => l.copy && Clear(s, l)
    case ConcurrentSeen(l) => l.copy && Clear(s, l)
    case AutolockLost(_, l, l2) => l.copy && l2.copy && AllClear(s, l, l2)
    case _ => true
  }

  /** The step is the client's own doing: its request, or the task of one. */
  predicate OnBehalf(st: Step, c: nat) {
    || st == AskUnlock(c) || (st.AskApply? && st.client == c)
    || ((st.Work? || st.Handle?) && Names(st.task, c))
  }

  lemma StepTame(c: nat, s: State, st: Step)
    requires Enabled(s, st) && CopiesWork(s, st) && !OnBehalf(st, c) && !st.Discard? && !st.Grant?
    ensures Tame(c, s, Do(s, st))
  {
    match st
    case Handle(_, _, _, _, _) => TaskStepTame(c, s, st);
    case AutolockLost(_, _, _) => LostTame(c, s, st);
    case Work(_, _, _) => TaskStepTame(c, s, st);
    case Restart(sameSize, l) => RestartTame(c, s, sameSize, l);
    case RemoteApply(e, l) => RemoteTame(c, s, e, l);
    case ConcurrentSeen(l) => CopiedTame(c, s, l);
    case Watch => AddTame(c, s, Inspecting(s.index, Watcher));
    case AskUnlock(id) => AddTame(c, s, Inspecting(s.index, Client(id)));
    case AskApply(n, id) => AddTame(c, s, Applying(s.quarantine[n], id));
    case AskRestore(b) => AddTame(c, s, Restoring(b));
    case _ => OthersTame(c, s, st);
  }

  lemma TaskStepTame(c: nat, s: State, st: Step)
    requires (st.Handle? || st.Work?) && Enabled(s, st) && CopiesWork(s, st) && !OnBehalf(st, c)
    ensures Tame(c, s, Do(s, st))
  {
    match st
    case Handle(t, ok, o, l, l2) => HandleTame(c, Taken(s, t), t, ok, o, l, l2);
    case Work(t, ok, l) => WorkTame(c, Taken(s, t), t, ok, l);
  }

  lemma LostTame(c: nat, s: State, st: Step)
    requires st.AutolockLost? && Enabled(s, st) && CopiesWork(s, st)
    ensures Tame(c, s, Do(s, st))
  {
    var (copied, newFile) := s.autolock.value;
    AutolockFailTame(c, s.(waiting := false), copied, newFile, st.ok, st.l, st.l2);
  }

  lemma OthersTame(c: nat, s: State, st: Step)
    requires Enabled(s, st)
    requires || st.UserWrite? || st.UserDelete? || st.LeaseLost? || st.AskLock? || st.RequestLost? || st.VoterGone?
    ensures Tame(c, s, Do(s, st))
  {
  }

  lemma StepHush(c: nat, s: State, st: Step)
    requires Enabled(s, st) && CopiesWork(s, st) && !OnBehalf(st, c)
    ensures Hush(c, s, Do(s, st))
  {
    match st
    case Grant =>
      var s1 := s.(leased := true, writable := true, waiting := false);
      AddTame(c, s1.(autolock := None), Publishing(Watcher));
    case Discard(_) =>
    case _ => StepTame(c, s, st);
  }

  lemma StrangerStays(c: nat, s: State, st: Step)
    requires Enabled(s, st) && CopiesWork(s, st) && Stranger(c, s)
    requires st != AskUnlock(c) && !(st.AskApply? && st.client == c)
    ensures Stranger(c, Do(s, st))
  {
    StepHush(c, s, st);
  }

  /** Some client no task speaks for. */
  function Other(st: Step): nat {
    if OnBehalf(st, 0) then (if OnBehalf(st, 1) then 2 else 1) else 0
  }

  lemma StepGrows(s: State, st: Step)
    requires Enabled(s, st) && CopiesWork(s, st) && !st.Discard? && !st.Grant?
    ensures Grows(s, Do(s, st))
  {
    StepTame(Other(st), s, st);
  }
}
