/** One operation at a time on a path: what the `busy` mark guarantees, and the one transition
    that breaks it. */
module PathExclusion {
  import opened Common
  import opened Preservation

  /** Nothing is under way on the path. */
  predicate Idle(s: State) { s.tasks == multiset{} && s.autolock.None? }

  ghost predicate Single(s: State) {
    if s.autolock.Some? then s.tasks == multiset{} else exists t :: s.tasks == multiset{t}
  }

  /** At most one operation is under way, and `busy` tells. */
  ghost predicate Exclusive(s: State) {
    if s.busy then Single(s) else Idle(s)
  }

  /** The acquire of an autolock fails its precondition and stages a restore with `busy` unset. */
  predicate StaleRevert(s: State, st: Step) {
    st.Handle? && st.task.Ready? && st.outcome.GuardFails?
    && st.task.copied.Some? && !st.task.newFile && s.index.Some?
  }

  lemma SpawnExclusive(s: State, t: Task)
    requires Idle(s)
    ensures Exclusive(Spawn(s, t)) && Single(Add(s, t))
  {
    assert Add(s, t).tasks == multiset{t};
    assert Spawn(s, t).tasks == multiset{t};
  }

  lemma UnbusyExclusive(s: State, l: Luck)
    requires Idle(s)
    ensures Exclusive(Unbusy(s, l))
  {
    var s1 := s.(busy := false);
    var s2 := if s1.deferred.Some? then ApplyRemote(s1.(deferred := None), s1.deferred.value, l) else s1;
    assert Idle(s2) && !s2.busy;
    SpawnExclusive(s2.(recheck := false), Inspecting(s2.index, Watcher));
  }

  lemma AutolockFailExclusive(s: State, copied: Option<Bytes>, newFile: bool, staged: bool, l: Luck, l2: Luck)
    requires s.tasks == multiset{} && (s.busy || copied.None? || newFile || s.index.None?)
    ensures Exclusive(AutolockFail(s, copied, newFile, staged, l, l2))
  {
    var s1 := s.(autolock := None);
    if copied.None? { UnbusyExclusive(s1, l2); }
    else if newFile { UnbusyExclusive(if l.write then s1.(disk := None) else s1.(writable := l.mode), l2); }
    else if s1.index.None? { UnbusyExclusive(s1, l2); }
    else { SpawnExclusive(s1, Staged(if staged then Some(ContentOf(s1.index.value)) else None, copied, true)); }
  }

  lemma FinishExclusive(s: State, id: nat, ok: bool, l: Luck)
    ensures Exclusive(s) ==> Exclusive(FinishUnlock(s, id, ok, l)) && Exclusive(Answer(s, Applied(id, ok)))
  {
    var s1, s2 := FinishUnlock(s, id, ok, l), Answer(s, Applied(id, ok));
    assert s1.tasks == s.tasks && s1.autolock == s.autolock && s1.busy == s.busy;
    assert s2.tasks == s.tasks && s2.autolock == s.autolock && s2.busy == s.busy;
  }

  lemma UnlockExclusive(s: State, look: Look, id: nat, eligible: bool, l: Luck, l2: Luck)
    requires Idle(s)
    ensures Exclusive(OnInspected(s, look, Client(id), eligible, l, l2))
  {
    match look
    case Failed => UnbusyExclusive(Answer(s, Unlocked(id, false)), l2);
    case Clean => UnbusyExclusive(s, l2); FinishExclusive(Unbusy(s, l2), id, true, l);
    case Missing =>
      UnbusyExclusive(CommitTombstone(s), l2);
      FinishExclusive(Unbusy(CommitTombstone(s), l2), id, true, l);
    case _ => SpawnExclusive(s, Publishing(Client(id)));
  }

  lemma InspectedExclusive(s: State, look: Look, eligible: bool, l: Luck, l2: Luck)
    requires Idle(s)
    ensures Exclusive(OnInspected(s, look, Watcher, eligible, l, l2))
  {
    if look.Failed? || look.Clean? {
      UnbusyExclusive(s, l2);
    } else if s.leased {
      if look.Missing? { UnbusyExclusive(CommitTombstone(s), l2); } else { SpawnExclusive(s, Publishing(Watcher)); }
    } else if look.Missing? {
      ViolationExclusive(s, false, l2);
    } else if eligible && s.autolock.None? {
      SpawnExclusive(s, Preserving(look.Unindexed?));
    } else if look.Differs? {
      ViolationExclusive(s, true, l2);
    } else {
      UnbusyExclusive(RemoveNewFile(s, l), l2);
    }
  }

  lemma ViolationExclusive(s: State, first: bool, l2: Luck)
    requires Idle(s)
    ensures Exclusive(SpawnViolation(s, first, l2))
  {
    if s.index.None? { UnbusyExclusive(s, l2); }
    else { SpawnExclusive(s, Violating(ContentOf(s.index.value), first)); }
  }

  lemma PublishedExclusive(s: State, result: Option<Bytes>, cause: Cause, l: Luck, l2: Luck)
    requires Idle(s)
    ensures Exclusive(OnPublished(s, result, cause, l, l2))
  {
    var done := result.Some? && s.leased;
    var s1 := if result.None? && cause.Watcher? then s.(recheck := true) else s;
    var s2 := if done then s1.(index := Some(Live(result.value)), committed := s1.committed + {result.value}) else s1;
    UnbusyExclusive(s2, l2);
    if cause.Client? { FinishExclusive(Unbusy(s2, l2), cause.id, done, l); }
  }

  lemma StagedExclusive(s: State, restore: Option<Bytes>, copied: Option<Bytes>, required: bool, l: Luck, l2: Luck)
    requires Idle(s)
    ensures Exclusive(OnStaged(s, restore, copied, required, l, l2))
  {
    if (required && copied.None?) || restore.None? { UnbusyExclusive(s, l2); }
    else if l.write { UnbusyExclusive(s.(disk := restore, writable := l.mode), l2); }
    else { UnbusyExclusive(s.(writable := l.mode), l2); }
  }

  lemma LeasedWriteExclusive(s: State, b: Bytes, client: nat, ok: bool, l: Luck, l2: Luck)
    requires Idle(s)
    ensures Exclusive(OnApplied(s, b, client, ok, l, l2)) && Exclusive(OnRestored(s, b, ok, l, l2))
  {
    var s1 := if !ok || !s.leased then s else if !l.write then s.(writable := l.mode) else Overwritten(s, b);
    UnbusyExclusive(s1, l2);
    FinishExclusive(Unbusy(s1, l2), client, ok && s.leased && l.write, l);
    UnbusyExclusive(s1.(index := Some(Live(b))), l2);
  }

  lemma HandleExclusive(s: State, t: Task, ok: bool, o: Outcome, l: Luck, l2: Luck)
    requires Idle(s) && s.busy && !Background(t)
    requires !(t.Ready? && o.GuardFails? && t.copied.Some? && !t.newFile && s.index.Some?)
    ensures Exclusive(DoHandle(s, t, ok, o, l, l2))
  {
    match t
    case Inspected(look, Client(id)) => UnlockExclusive(s, look, id, ok, l, l2);
    case Inspected(look, Watcher) => InspectedExclusive(s, look, ok, l, l2);
    case Published(result, cause) => PublishedExclusive(s, result, cause, l, l2);
    case Staged(restore, copied, required) => StagedExclusive(s, restore, copied, required, l, l2);
    case Ready(copied, newFile) => ReadyExclusive(s, copied, newFile, o, ok, l, l2);
    case Applying(b, client) => LeasedWriteExclusive(s, b, client, ok, l, l2);
    case Restoring(b) => LeasedWriteExclusive(s, b, 0, ok, l, l2);
    case _ =>
  }

  lemma ReadyExclusive(s: State, copied: Option<Bytes>, newFile: bool, o: Outcome, staged: bool, l: Luck, l2: Luck)
    requires Idle(s) && !(o.GuardFails? && copied.Some? && !newFile && s.index.Some?)
    ensures Exclusive(OnReady(s, copied, newFile, o, staged, l, l2))
  {
    match o
    case GuardFails => AutolockFailExclusive(s.(busy := false), copied, newFile, staged, l, l2);
    case StartFails => AutolockFailExclusive(s.(busy := true), copied, newFile, staged, l, l2);
    case Requested =>
  }

  /** At most one operation runs on a path, and `busy` says so, in every step but a stale revert. */
  lemma StepExclusive(s: State, st: Step)
    requires Exclusive(s) && Enabled(s, st) && !StaleRevert(s, st)
    ensures Exclusive(Do(s, st))
  {
    match st
    case Work(t, ok, l) => TakenIdle(s, t); WorkExclusive(Taken(s, t), t, ok, l);
    case Handle(t, ok, o, l, l2) => TakenIdle(s, t); HandleExclusive(Taken(s, t), t, ok, o, l, l2);
    case AutolockLost(staged, l, l2) => LostExclusive(s, staged, l, l2);
    case _ => OthersExclusive(s, st);
  }

  lemma TakenIdle(s: State, t: Task)
    requires Exclusive(s) && t in s.tasks
    ensures s.busy && s.autolock.None? && s.tasks == multiset{t} && Idle(Taken(s, t))
  {
    var u :| s.tasks == multiset{u};
    assert u == t;
  }

  lemma AddExclusive(s: State, t: Task)
    requires Idle(s) && s.busy
    ensures Exclusive(Add(s, t))
  {
    SpawnExclusive(s, t);
  }

  lemma WorkExclusive(s: State, t: Task, ok: bool, l: Luck)
    requires Idle(s) && s.busy && Background(t)
    ensures Exclusive(DoWork(s, t, ok, l))
  {
    match t
    case Inspecting(entry, cause) => AddExclusive(s, Inspected(if ok then Examine(entry, s.disk) else Failed, cause));
    case Publishing(cause) => AddExclusive(s, Published(if ok then s.disk else None, cause));
    case Violating(restore, first) => ViolatingExclusive(s, restore, first, ok, l);
    case Preserving(newFile) =>
      AddExclusive(Copied(s, l), Ready(if CopyMade(s, l.copy) then s.disk else None, newFile));
    case _ =>
  }

  lemma ViolatingExclusive(s: State, restore: Bytes, first: bool, ok: bool, l: Luck)
    requires Idle(s) && s.busy
    ensures Exclusive(DoWork(s, Violating(restore, first), ok, l))
  {
    var copied := if first && CopyMade(s, l.copy) then s.disk else None;
    AddExclusive(if first then Copied(s, l) else s, Staged(if ok then Some(restore) else None, copied, first));
  }

  lemma RemoteExclusive(s: State, e: Entry, l: Luck)
    requires Exclusive(s)
    ensures Exclusive(Do(s, RemoteApply(e, l)))
  {
    var s' := Do(s, RemoteApply(e, l));
    assert s'.tasks == s.tasks && s'.autolock == s.autolock && s'.busy == s.busy;
  }

  lemma OthersExclusive(s: State, st: Step)
    requires Exclusive(s) && Enabled(s, st) && !st.Work? && !st.Handle? && !st.AutolockLost?
    ensures Exclusive(Do(s, st))
  {
    match st
    case Watch => if !s.busy { SpawnExclusive(s, Inspecting(s.index, Watcher)); }
    case Grant => GrantExclusive(s);
    case AskUnlock(id) => SpawnExclusive(s, Inspecting(s.index, Client(id)));
    case AskApply(n, id) => SpawnExclusive(s, Applying(s.quarantine[n], id));
    case AskRestore(b) => SpawnExclusive(s, Restoring(b));
    case Restart(sameSize, l) => RestartExclusive(s, sameSize, l);
    case RemoteApply(e, l) => RemoteExclusive(s, e, l);
    case _ => QuietExclusive(s, st);
  }

  lemma GrantExclusive(s: State)
    requires Exclusive(s)
    ensures Exclusive(OnGranted(s))
  {
    var s1 := s.(leased := true, writable := true, waiting := false);
    SameLoad(s, s1);
    if s.autolock.Some? { SpawnExclusive(s1.(autolock := None), Publishing(Watcher)); }
  }

  lemma LostExclusive(s: State, staged: bool, l: Luck, l2: Luck)
    requires Exclusive(s) && s.autolock.Some? && s.waiting
    ensures Exclusive(Do(s, AutolockLost(staged, l, l2)))
  {
    var s1 := s.(waiting := false);
    AutolockFailExclusive(s1, s.autolock.value.0, s.autolock.value.1, staged, l, l2);
  }

  /** Steps that start and end no operation. */
  predicate Quiet(st: Step) {
    || st.UserWrite? || st.UserDelete? || st.ConcurrentSeen? || st.LeaseLost? || st.Discard?
    || st.AskLock? || st.RequestLost? || st.VoterGone?
  }

  lemma QuietExclusive(s: State, st: Step)
    requires Exclusive(s) && Enabled(s, st) && Quiet(st)
    ensures Exclusive(Do(s, st))
  {
    QuietLoad(s, st);
    SameLoad(s, Do(s, st));
  }

  lemma QuietLoad(s: State, st: Step)
    requires Enabled(s, st) && Quiet(st)
    ensures Do(s, st).tasks == s.tasks && Do(s, st).autolock == s.autolock && Do(s, st).busy == s.busy
  {
  }

  lemma SameLoad(s: State, s': State)
    requires s'.tasks == s.tasks && s'.autolock == s.autolock && s'.busy == s.busy
    ensures Exclusive(s') == Exclusive(s)
  {
  }

  lemma RebootedIdle(s: State, l: Luck)
    ensures Idle(Rebooted(s, l)) && !Rebooted(s, l).busy
  {
  }

  lemma RestartExclusive(s: State, sameSize: bool, l: Luck)
    ensures Exclusive(OnRestart(s, sameSize, l))
  {
    var s1 := Rebooted(s, l);
    RebootedIdle(s, l);
    if s.index.None? || s.index.value.Tombstone? { NewFileIdle(s1, l); }
    else { SpawnExclusive(s1, Violating(s.index.value.bytes, s.disk.Some?)); }
  }

  lemma NewFileIdle(s: State, l: Luck)
    ensures RemoveNewFile(s, l).tasks == s.tasks && RemoveNewFile(s, l).autolock == s.autolock
    ensures RemoveNewFile(s, l).busy == s.busy
  {
  }

  /** And exactly then: a stale revert leaves a restore in flight with `busy` unset. */
  lemma ExclusiveUnlessStale(s: State, st: Step)
    requires Exclusive(s) && Enabled(s, st)
    ensures Exclusive(Do(s, st)) <==> !StaleRevert(s, st)
  {
    if StaleRevert(s, st) {
      var s1 := Taken(s, st.task).(busy := false, autolock := None);
      var restore := Staged(if st.ok then Some(ContentOf(s.index.value)) else None, st.task.copied, true);
      assert Do(s, st) == Add(s1, restore);
      assert restore in Do(s, st).tasks;
    } else {
      StepExclusive(s, st);
    }
  }

  /** So in every run without a stale revert, restarts and user writes included, at most one
      operation is ever under way and `busy` tells. */
  lemma {:induction false} OneAtATime(states: seq<State>, steps: seq<Step>, k: nat)
    requires |states| == |steps| + 1 && k <= |steps| && Exclusive(states[0])
    requires forall i :: 0 <= i < |steps| ==>
               && Enabled(states[i], steps[i]) && !StaleRevert(states[i], steps[i])
               && states[i + 1] == Do(states[i], steps[i])
    ensures Exclusive(states[k])
  {
    if k > 0 {
      OneAtATime(states, steps, k - 1);
      StepExclusive(states[k - 1], steps[k - 1]);
    }
  }

  // ---------- an autolock nobody waits for ----------

  /** The request of the pending autolock is gone, and nothing is under way that could end it. */
  predicate Wedged(s: State) { s.autolock.Some? && !s.waiting && s.busy && s.tasks == multiset{} }

  /** A voter that disconnects takes the request with it and leaves the autolock. */
  lemma VoterWedges(s: State)
    requires Exclusive(s) && s.autolock.Some? && s.waiting
    ensures Wedged(Do(s, VoterGone))
  {
  }

  lemma WedgeStays(s: State, st: Step)
    requires Wedged(s) && Enabled(s, st) && !st.Restart?
    ensures Wedged(Do(s, st)) && Do(s, st).index == s.index
    ensures !st.Work? && !st.Handle? && !st.Grant? && !st.AutolockLost? && !st.AskLock? && !st.AskUnlock?
    ensures !st.AskApply? && !st.AskRestore?
  {
    match st
    case Watch =>
    case RemoteApply(e, l) =>
    case _ => WedgeQuiet(s, st);
  }

  lemma WedgeQuiet(s: State, st: Step)
    requires Wedged(s) && Enabled(s, st) && !st.Restart? && !st.Watch? && !st.RemoteApply?
    ensures Quiet(st) && Wedged(Do(s, st)) && Do(s, st).index == s.index
    ensures !st.AskLock? && !st.RequestLost? && !st.VoterGone?
  {
  }

  /** From then on, whatever happens, the path is busy, no request on it is accepted, no lease comes and
      no version goes in, until the daemon restarts. */
  lemma {:induction false} WedgedForGood(states: seq<State>, steps: seq<Step>, i: nat, k: nat)
    requires |states| == |steps| + 1 && i <= k <= |steps| && Wedged(states[i])
    requires forall n :: i <= n < k ==>
               !steps[n].Restart? && Enabled(states[n], steps[n]) && states[n + 1] == Do(states[n], steps[n])
    ensures Wedged(states[k]) && states[k].index == states[i].index
    ensures k < |steps| && Enabled(states[k], steps[k]) && !steps[k].Restart? ==>
              !steps[k].Work? && !steps[k].Handle? && !steps[k].Grant? && !steps[k].AskLock? && !steps[k].AskUnlock?
              && !steps[k].AskApply? && !steps[k].AskRestore?
  {
    if i < k {
      WedgedForGood(states, steps, i, k - 1);
      WedgeStays(states[k - 1], steps[k - 1]);
    }
    if k < |steps| && Enabled(states[k], steps[k]) && !steps[k].Restart? { WedgeStays(states[k], steps[k]); }
  }
}
