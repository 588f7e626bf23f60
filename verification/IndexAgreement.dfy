/** The index and the working tree: when an inspection finds them in agreement, and how applying a version,
    publishing and restoring bring them there. */
module IndexAgreement {
  import opened Common
  import opened Preservation

  /** The disk holds what the entry says, and nothing without an entry or under a tombstone. */
  predicate Agrees(entry: Option<Entry>, disk: Option<Bytes>) {
    disk == match entry
            case Some(Live(b)) => Some(b)
            case _ => None
  }

  /** What each answer of an inspection says of disk and index. */
  lemma VerdictExactly(entry: Option<Entry>, disk: Option<Bytes>)
    ensures Examine(entry, disk).Clean? <==> Agrees(entry, disk)
    ensures Examine(entry, disk).Missing? <==> !Agrees(entry, disk) && disk.None?
    ensures Examine(entry, disk).Unindexed? <==> !Agrees(entry, disk) && !(exists b :: entry == Some(Live(b)))
    ensures !Examine(entry, disk).Failed?
  {
    if entry.Some? && entry.value.Live? { assert entry == Some(Live(entry.value.bytes)); }
  }

  // ---------- remote versions ----------

  /** The version `e` went from `s` to `s'` into the working tree and the index, as far as luck had it: file
      and entry stay as they were if it is no longer newer or cannot be written, and the entry alone stays
      if only the permissions could not be set. */
  predicate Installed(s: State, s': State, e: Entry, l: Luck) {
    && (if l.newer && l.write then Agrees(Some(e), s'.disk) else s'.disk == s.disk)
    && s'.index == (if l.newer && l.write && l.settle then Some(e) else s.index)
    && s'.writable == (if l.newer then l.mode else s.writable)
  }

  /** A remote version on a free path is installed: disk and index agree on it right after, so the daemon
      never takes its own pull for an edit. */
  lemma RemoteInstalls(s: State, e: Entry, l: Luck)
    requires !s.busy
    ensures var s' := Do(s, RemoteApply(e, l));
            && Installed(s, s', e, l) && s'.deferred == s.deferred && s'.tasks == s.tasks && !s'.busy
            && (l.newer && l.write && l.settle ==> Examine(s'.index, s'.disk).Clean?)
            && (l.newer && s.writable && s.disk.Some? && l.copy ==>
                  l.name in s'.quarantine && s'.quarantine[l.name] == s.disk.value)
  {
  }

  /** On a busy path it waits, in the place of an earlier one. */
  lemma RemoteWaits(s: State, e: Entry, l: Luck)
    requires s.busy
    ensures var s' := Do(s, RemoteApply(e, l));
            && s'.deferred == Some(e) && s'.busy && s'.disk == s.disk && s'.index == s.index
            && s'.writable == s.writable && s'.quarantine == s.quarantine && s'.tasks == s.tasks
  {
  }

  /** The end of the operation installs what waited, then looks again if a change was seen meanwhile. */
  lemma UnbusyInstalls(s: State, l: Luck)
    ensures var s' := Unbusy(s, l);
            && s'.deferred.None? && !s'.recheck && (s'.busy <==> s.recheck)
            && s'.tasks == s.tasks + (if s.recheck then multiset{Inspecting(s'.index, Watcher)} else multiset{})
            && (if s.deferred.Some? then Installed(s, s', s.deferred.value, l)
                else s'.disk == s.disk && s'.index == s.index && s'.writable == s.writable
                     && s'.quarantine == s.quarantine)
            && (s.deferred.Some? && l.newer && l.write && l.settle ==> Examine(s'.index, s'.disk).Clean?)
  {
    var s1 := s.(busy := false);
    var s2 := if s.deferred.Some? then ApplyRemote(s1.(deferred := None), s.deferred.value, l) else s1;
    assert s2.tasks == s.tasks && s2.recheck == s.recheck && !s2.busy && s2.deferred.None?;
  }

  // ---------- waiting versions ----------

  /** The waiting version is in the working tree, and in the index if the permissions could be set; one
      that is no longer newer, or cannot be written, is not. */
  predicate TakenUp(e: Entry, s': State, l: Luck) {
    s'.deferred.None? && (l.newer && l.write ==> Agrees(Some(e), s'.disk) && (l.settle ==> s'.index == Some(e)))
  }

  /** No version that waits is forgotten: it goes on waiting, gives way to a later one, or the end of an
      operation installs it, unless the daemon restarts. */
  lemma WaitingVersionStays(s: State, st: Step)
    requires Enabled(s, st) && s.deferred.Some? && !st.Restart? && Do(s, st).deferred != s.deferred
    ensures || (st.RemoteApply? && s.busy && Do(s, st).deferred == Some(st.entry))
            || ((st.Handle? || st.AutolockLost?) && TakenUp(s.deferred.value, Do(s, st), st.l2))
  {
    match st
    case Handle(t, ok, o, l, l2) => HandleDefers(Taken(s, t), t, ok, o, l, l2);
    case AutolockLost(staged, l, l2) =>
      FailDefers(s.(waiting := false), s.autolock.value.0, s.autolock.value.1, staged, l, l2);
    case Work(t, ok, l) => WorkDefers(Taken(s, t), t, ok, l);
    case RemoteApply(e, l) =>
    case _ => QuietDefers(s, st);
  }

  lemma QuietDefers(s: State, st: Step)
    requires Enabled(s, st) && !st.Handle? && !st.AutolockLost? && !st.Work? && !st.RemoteApply? && !st.Restart?
    ensures Do(s, st).deferred == s.deferred
  {
    match st
    case UserWrite(_, _) =>
    case UserDelete =>
    case Discard(_) =>
    case ConcurrentSeen(_) =>
    case _ => RequestDefers(s, st);
  }

  lemma RequestDefers(s: State, st: Step)
    requires Enabled(s, st)
    requires || st.Watch? || st.AskLock? || st.Grant? || st.RequestLost? || st.VoterGone? || st.LeaseLost?
             || st.AskUnlock? || st.AskApply? || st.AskRestore?
    ensures Do(s, st).deferred == s.deferred
  {
  }

  lemma WorkDefers(s: State, t: Task, ok: bool, l: Luck)
    ensures DoWork(s, t, ok, l).deferred == s.deferred
  {
  }

  predicate Settled(s: State, s': State, l: Luck) {
    s'.deferred == s.deferred || (s.deferred.Some? && TakenUp(s.deferred.value, s', l))
  }

  lemma UnbusySettles(s: State, l: Luck)
    ensures Settled(s, Unbusy(s, l), l)
  {
    UnbusyInstalls(s, l);
  }

  lemma FailDefers(s: State, copied: Option<Bytes>, newFile: bool, staged: bool, l: Luck, l2: Luck)
    ensures Settled(s, AutolockFail(s, copied, newFile, staged, l, l2), l2)
  {
    var s1 := s.(autolock := None);
    UnbusySettles(s1, l2);
    UnbusySettles(if l.write then s1.(disk := None) else s1.(writable := l.mode), l2);
  }

  lemma HandleDefers(s: State, t: Task, ok: bool, o: Outcome, l: Luck, l2: Luck)
    ensures Settled(s, DoHandle(s, t, ok, o, l, l2), l2)
  {
    match t
    case Inspected(look, cause) => InspectedDefers(s, look, cause, ok, l, l2);
    case Published(result, cause) => PublishedSettles(s, result, cause, l, l2);
    case Staged(restore, copied, required) => StagedSettles(s, restore, copied, required, l, l2);
    case Ready(copied, newFile) =>
      if !o.Requested? { FailDefers(s.(busy := o.StartFails?), copied, newFile, ok, l, l2); }
    case Applying(_, _) => LeasedWriteSettles(s, t, ok, l, l2);
    case Restoring(_) => LeasedWriteSettles(s, t, ok, l, l2);
    case _ =>
  }

  lemma InspectedDefers(s: State, look: Look, cause: Cause, ok: bool, l: Luck, l2: Luck)
    ensures Settled(s, OnInspected(s, look, cause, ok, l, l2), l2)
  {
    if cause.Client? { UnlockDefers(s, look, cause.id, ok, l, l2); } else { WatchDefers(s, look, ok, l, l2); }
  }

  lemma UnlockDefers(s: State, look: Look, id: nat, ok: bool, l: Luck, l2: Luck)
    ensures Settled(s, OnInspected(s, look, Client(id), ok, l, l2), l2)
  {
    match look
    case Failed => UnbusySettles(Answer(s, Unlocked(id, false)), l2);
    case Clean => UnbusySettles(s, l2); FinishSettles(s, Unbusy(s, l2), id, l, l2);
    case Missing =>
      var s1 := CommitTombstone(s);
      UnbusySettles(s1, l2);
      FinishSettles(s, Unbusy(s1, l2), id, l, l2);
    case _ =>
  }

  lemma FinishSettles(s: State, u: State, id: nat, l: Luck, l2: Luck)
    requires Settled(s, u, l2)
    ensures Settled(s, FinishUnlock(u, id, true, l), l2)
  {
  }

  lemma WatchDefers(s: State, look: Look, ok: bool, l: Luck, l2: Luck)
    ensures Settled(s, OnInspected(s, look, Watcher, ok, l, l2), l2)
  {
    UnbusySettles(s, l2);
    UnbusySettles(CommitTombstone(s), l2);
    UnbusySettles(RemoveNewFile(s, l), l2);
  }

  lemma PublishedSettles(s: State, result: Option<Bytes>, cause: Cause, l: Luck, l2: Luck)
    ensures Settled(s, OnPublished(s, result, cause, l, l2), l2)
  {
    var s1 := if result.None? && cause.Watcher? then s.(recheck := true) else s;
    UnbusySettles(if result.Some? && s.leased
                  then s1.(index := Some(Live(result.value)), committed := s1.committed + {result.value}) else s1, l2);
  }

  lemma StagedSettles(s: State, restore: Option<Bytes>, copied: Option<Bytes>, required: bool, l: Luck, l2: Luck)
    ensures Settled(s, OnStaged(s, restore, copied, required, l, l2), l2)
  {
    UnbusySettles(s, l2);
    UnbusySettles(if l.write then s.(disk := restore, writable := l.mode) else s.(writable := l.mode), l2);
  }

  lemma LeasedWriteSettles(s: State, t: Task, ok: bool, l: Luck, l2: Luck)
    requires t.Applying? || t.Restoring?
    ensures Settled(s, DoHandle(s, t, ok, Requested, l, l2), l2)
  {
    var s1 := Overwritten(s, t.bytes);
    UnbusySettles(s, l2);
    UnbusySettles(s.(writable := l.mode), l2);
    UnbusySettles(if t.Applying? then s1 else s1.(index := Some(Live(t.bytes))), l2);
  }
}
