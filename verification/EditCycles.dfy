/** What becomes of an edit: the daemon's own steps that publish it under the lease, revert it without one,
    or take the lease for it. Each run is given step by step and leads from a path at rest to a path at rest. */
module EditCycles {
  import opened Common
  import opened Preservation
  import opened IndexAgreement
  import opened PathRuns

  /** No operation is under way and nothing waits for one. */
  predicate Resting(s: State) { !s.busy && !s.recheck && s.deferred.None? }

  /** One task of the path gives way to another. */
  function Doing(s: State, t: Task): State { s.(busy := true, tasks := s.tasks + multiset{t}) }

  lemma TakenBack(s: State, t: Task)
    ensures t in Doing(s, t).tasks && Taken(Doing(s, t), t) == s.(busy := true)
  {
    assert s.tasks + multiset{t} - multiset{t} == s.tasks;
  }

  lemma Worked(s: State, t: Task, ok: bool, l: Luck)
    requires Background(t)
    ensures Enabled(Doing(s, t), Work(t, ok, l))
    ensures Do(Doing(s, t), Work(t, ok, l)) == DoWork(s.(busy := true), t, ok, l)
  {
    TakenBack(s, t);
  }

  lemma Handled(s: State, t: Task, ok: bool, o: Outcome, l: Luck, l2: Luck)
    requires !Background(t) && (t.Ready? && o.Requested? ==> !s.waiting && !s.leased)
    ensures Enabled(Doing(s, t), Handle(t, ok, o, l, l2))
    ensures Do(Doing(s, t), Handle(t, ok, o, l, l2)) == DoHandle(s.(busy := true), t, ok, o, l, l2)
  {
    TakenBack(s, t);
  }

  lemma Rests(s: State, l: Luck)
    requires !s.recheck && s.deferred.None?
    ensures Unbusy(s, l) == s.(busy := false)
  {
  }

  /** The watcher's notice, or a client's request to unlock. */
  function Asked(cause: Cause): Step {
    match cause
    case Watcher => Watch
    case Client(id) => AskUnlock(id)
  }

  lemma Looked(s: State, cause: Cause, l: Luck) returns (steps: seq<Step>)
    requires Resting(s) && (cause.Client? ==> s.leased)
    ensures Leads(s, steps, Doing(s, Inspected(Examine(s.index, s.disk), cause)))
  {
    var t := Inspecting(s.index, cause);
    Worked(s, t, true, l);
    assert Do(s, Asked(cause)) == Doing(s, t);
    One(Doing(s, t), Work(t, true, l));
    First(s, Asked(cause), [Work(t, true, l)], Doing(s, Inspected(Examine(s.index, s.disk), cause)));
    steps := [Asked(cause)] + [Work(t, true, l)];
  }

  // ---------- under the lease ----------

  /** The bytes on disk are also in quarantine, under the given name. */
  predicate FiledAs(s: State, z: State, n: Name) {
    s.disk.Some? && z.quarantine == s.quarantine[n := s.disk.value]
  }

  /** `z` is `s` with the disk on record in the index; a client's unlock has handed the lease back and was
      told so. */
  predicate OnRecord(s: State, z: State, cause: Cause, l: Luck) {
    && Agrees(z.index, z.disk) && z.disk == s.disk && z.quarantine == s.quarantine && z.tasks == s.tasks
    && Resting(z) && z.autolock == s.autolock && z.waiting == s.waiting
    && (Agrees(s.index, s.disk) ==> z.index == s.index)
    && (s.disk.Some? && !Agrees(s.index, s.disk) ==> s.disk.value in z.committed)
    && (s.index.Some? ==> z.index.Some?)
    && match cause
       case Watcher => z.leased && z.writable == s.writable && z.replies == s.replies
       case Client(id) => !z.leased && z.writable == l.mode && z.replies == s.replies + {Unlocked(id, true)}
  }

  /** Whatever the user did to the file under the lease, seen by the watcher or at the unlock: the daemon's
      next steps put exactly that on record, a write as a version and a delete as a tombstone. */
  lemma LeasedEditIsPublished(s: State, cause: Cause, l: Luck, l2: Luck) returns (steps: seq<Step>, z: State)
    requires Resting(s) && s.leased
    ensures Leads(s, steps, z) && OnRecord(s, z, cause, l)
  {
    var look := Examine(s.index, s.disk);
    var first := Looked(s, cause, l);
    var more;
    if look.Clean? || look.Missing? {
      more, z := NothingToPublish(s, look, cause, l, l2);
    } else {
      more, z := SomethingToPublish(s, look, cause, l, l2);
    }
    Then(s, first, Doing(s, Inspected(look, cause)), more, z);
    steps := first + more;
  }

  lemma SomethingToPublish(s: State, look: Look, cause: Cause, l: Luck, l2: Luck) returns (steps: seq<Step>, z: State)
    requires Resting(s) && s.leased && look == Examine(s.index, s.disk) && (look.Differs? || look.Unindexed?)
    ensures Leads(Doing(s, Inspected(look, cause)), steps, z) && OnRecord(s, z, cause, l)
  {
    var t := Inspected(look, cause);
    var st := Handle(t, true, Requested, l, l2);
    PublishStarts(s, look, cause, l, l2);
    steps, z := FileIsPublished(s, cause, l, l2);
    First(Doing(s, t), st, steps, z);
    steps := [st] + steps;
  }

  lemma PublishStarts(s: State, look: Look, cause: Cause, l: Luck, l2: Luck)
    requires s.leased && (look.Differs? || look.Unindexed?)
    ensures var t := Inspected(look, cause); var st := Handle(t, true, Requested, l, l2);
            Enabled(Doing(s, t), st) && Do(Doing(s, t), st) == Doing(s, Publishing(cause))
  {
    Handled(s, Inspected(look, cause), true, Requested, l, l2);
  }

  lemma NothingToPublish(s: State, look: Look, cause: Cause, l: Luck, l2: Luck) returns (steps: seq<Step>, z: State)
    requires Resting(s) && s.leased && look == Examine(s.index, s.disk) && (look.Clean? || look.Missing?)
    ensures Leads(Doing(s, Inspected(look, cause)), steps, z) && OnRecord(s, z, cause, l)
  {
    var t, s0 := Inspected(look, cause), s.(busy := true);
    var st := Handle(t, true, Requested, l, l2);
    Handled(s, t, true, Requested, l, l2);
    OnRecordUnread(s, look, cause, l, l2);
    z := OnInspected(s0, look, cause, true, l, l2);
    One(Doing(s, t), st);
    steps := [st];
  }

  lemma OnRecordUnread(s: State, look: Look, cause: Cause, l: Luck, l2: Luck)
    requires Resting(s) && s.leased && look == Examine(s.index, s.disk) && (look.Clean? || look.Missing?)
    ensures OnRecord(s, OnInspected(s.(busy := true), look, cause, true, l, l2), cause, l)
  {
    var s0 := if look.Missing? then CommitTombstone(s.(busy := true)) else s.(busy := true);
    Rests(s0, l2);
    assert OnInspected(s.(busy := true), look, cause, true, l, l2)
        == if cause.Client? then FinishUnlock(Unbusy(s0, l2), cause.id, true, l) else Unbusy(s0, l2);
  }

  lemma FileIsPublished(s: State, cause: Cause, l: Luck, l2: Luck) returns (steps: seq<Step>, z: State)
    requires Resting(s) && s.leased && s.disk.Some? && !Agrees(s.index, s.disk)
    ensures Leads(Doing(s, Publishing(cause)), steps, z) && OnRecord(s, z, cause, l)
  {
    var t, u := Publishing(cause), Published(s.disk, cause);
    Worked(s, t, true, l);
    Handled(s, u, true, Requested, l, l2);
    var st := Handle(u, true, Requested, l, l2);
    z := Do(Doing(s, u), st);
    OnRecordPublished(s, cause, l, l2);
    One(Doing(s, u), st);
    First(Doing(s, t), Work(t, true, l), [st], z);
    steps := [Work(t, true, l)] + [st];
  }

  lemma OnRecordPublished(s: State, cause: Cause, l: Luck, l2: Luck)
    requires Resting(s) && s.leased && s.disk.Some? && !Agrees(s.index, s.disk)
    ensures OnRecord(s, OnPublished(s.(busy := true), s.disk, cause, l, l2), cause, l)
  {
    var s0 := s.(busy := true);
    Rests(s0.(index := Some(Live(s.disk.value)), committed := s.committed + {s.disk.value}), l2);
  }

  /** So a write under the lease becomes a version with its bytes. */
  lemma WriteIsPublished(s: State, b: Bytes, l: Luck, l2: Luck) returns (steps: seq<Step>, z: State)
    requires Resting(s) && s.leased
    ensures Leads(Do(s, UserWrite(b, true)), steps, z)
    ensures z.disk == Some(b) && z.index == Some(Live(b)) && z.leased && Resting(z)
  {
    steps, z := LeasedEditIsPublished(Do(s, UserWrite(b, true)), Watcher, l, l2);
  }

  /** And a delete becomes a tombstone. */
  lemma DeleteIsPublished(s: State, l: Luck, l2: Luck) returns (steps: seq<Step>, z: State)
    requires Resting(s) && s.leased && s.index.Some?
    ensures Leads(Do(s, UserDelete), steps, z)
    ensures z.disk.None? && z.index == Some(Tombstone) && z.leased && Resting(z)
  {
    assert Do(s, UserDelete).index == s.index;
    var s1 := Do(s, UserDelete);
    steps, z := LeasedEditIsPublished(s1, Watcher, l, l2);
    DeletedAs(s1, z, l);
  }

  lemma DeletedAs(s: State, z: State, l: Luck)
    requires OnRecord(s, z, Watcher, l) && s.disk.None? && s.index.Some?
    ensures z.disk.None? && z.index == Some(Tombstone) && z.leased && Resting(z)
  {
  }

  /** The bytes on disk are copied before a version that lost a conflict gives way. */
  lemma ConcurrentIsCopied(s: State, l: Luck)
    requires s.disk.Some? && l.copy
    ensures var z := Do(s, ConcurrentSeen(l)); FiledAs(s, z, l.name) && z.disk == s.disk && z.index == s.index
  {
  }

  /** A change seen while an operation is under way is looked at when the operation ends. */
  lemma ChangeIsNoticed(s: State, l: Luck)
    requires s.busy
    ensures var x := Do(s, Watch);
            && x.busy && x.disk == s.disk && x.tasks == s.tasks && x.deferred == s.deferred
            && Unbusy(x, l).busy && Inspecting(Unbusy(x, l).index, Watcher) in Unbusy(x, l).tasks
  {
    UnbusyInstalls(Do(s, Watch), l);
  }

  /** A lock request that is granted brings the lease and a writable file, and nothing else. */
  lemma LockIsTaken(s: State) returns (steps: seq<Step>, z: State)
    requires Resting(s) && !s.leased && !s.waiting && s.autolock.None?
    ensures Leads(s, steps, z) && z == s.(leased := true, writable := true)
  {
    var x := Do(s, AskLock);
    One(x, Grant);
    z := Do(x, Grant);
    First(s, AskLock, [Grant], z);
    steps := [AskLock] + [Grant];
  }

  /** A file that was missing when it was looked at, by the time the look is handled: a tombstone takes the
      place of a version and of nothing else. */
  lemma MissingIsHandled(s: State, l: Luck, l2: Luck)
    requires s.leased && !s.recheck && s.deferred.None?
    ensures var z := OnInspected(s, Missing, Watcher, true, l, l2);
            && z.index == (if s.index.Some? && s.index.value.Live? then Some(Tombstone) else s.index)
            && z == s.(index := z.index, busy := false)
  {
    Rests(CommitTombstone(s), l2);
  }

  /** The lease ends with the session's permission on the file, and nothing else changes. */
  lemma LeaseLapses(s: State, mode: bool)
    ensures Do(s, LeaseLost(mode)) == s.(leased := false, writable := mode)
  {
  }

  /** A request that comes to nothing may be made again. */
  lemma LostRequestIsRepeated(s: State)
    requires Resting(s) && s.waiting && s.autolock.None? && !s.leased
    ensures var z := Do(s, RequestLost); z == s.(waiting := false) && Enabled(z, AskLock) && Do(z, AskLock) == s
  {
  }

  // ---------- work that fails ----------

  /** What a client is told whose unlock failed. */
  function Told(s: State, cause: Cause): set<Reply> {
    match cause
    case Watcher => s.replies
    case Client(id) => s.replies + {Unlocked(id, false)}
  }

  /** An inspection that fails changes nothing; a client keeps its lease and is told. */
  lemma LookFails(s: State, entry: Option<Entry>, cause: Cause, l: Luck, l2: Luck) returns (steps: seq<Step>, z: State)
    requires Resting(s)
    ensures Leads(Doing(s, Inspecting(entry, cause)), steps, z) && z == s.(replies := Told(s, cause))
  {
    var t, u, s0 := Inspecting(entry, cause), Inspected(Failed, cause), s.(busy := true);
    Worked(s, t, false, l);
    Handled(s, u, true, Requested, l, l2);
    Rests(s0, l2);
    Rests(s0.(replies := Told(s, cause)), l2);
    var st := Handle(u, true, Requested, l, l2);
    z := Do(Doing(s, u), st);
    One(Doing(s, u), st);
    First(Doing(s, t), Work(t, false, l), [st], z);
    steps := [Work(t, false, l)] + [st];
  }

  /** A publish that fails puts nothing on record: the watcher looks again, a client is refused and has its
      lease taken back. */
  lemma PublishFails(s: State, cause: Cause, l: Luck, l2: Luck) returns (steps: seq<Step>, z: State)
    requires Resting(s)
    ensures Leads(Doing(s, Publishing(cause)), steps, z)
    ensures match cause
            case Watcher => z == Doing(s, Inspecting(s.index, Watcher))
            case Client(_) => z == s.(leased := false, writable := l.mode, replies := Told(s, cause))
  {
    var t, u, s0 := Publishing(cause), Published(None, cause), s.(busy := true);
    Worked(s, t, false, l);
    Handled(s, u, true, Requested, l, l2);
    Rests(s0, l2);
    var st := Handle(u, true, Requested, l, l2);
    z := Do(Doing(s, u), st);
    One(Doing(s, u), st);
    First(Doing(s, t), Work(t, false, l), [st], z);
    steps := [Work(t, false, l)] + [st];
  }

  /** A version that cannot be materialized is not restored; the bytes are in quarantine all the same. */
  lemma RestoreFails(s: State, b: Bytes, first: bool, l: Luck, l2: Luck) returns (steps: seq<Step>, z: State)
    requires Resting(s)
    ensures Leads(Doing(s, Violating(b, first)), steps, z) && z == if first then Copied(s, l) else s
  {
    var t := Violating(b, first);
    var s1 := if first then Copied(s, l) else s;
    var u := Staged(None, if first && CopyMade(s, l.copy) then s.disk else None, first);
    Worked(s, t, false, l);
    NothingStaged(s, t, s1, u, l);
    steps, z := NothingRestored(s1, u, l2);
    First(Doing(s, t), Work(t, false, l), steps, z);
    steps := [Work(t, false, l)] + steps;
  }

  lemma NothingStaged(s: State, t: Task, s1: State, u: Task, l: Luck)
    requires Resting(s) && t.Violating? && s1 == if t.first then Copied(s, l) else s
    requires u == Staged(None, if t.first && CopyMade(s, l.copy) then s.disk else None, t.first)
    ensures DoWork(s.(busy := true), t, false, l) == Doing(s1, u) && Resting(s1)
  {
    CopyAside(s, l);
    CopyLeaves(s, l);
  }

  lemma NothingRestored(s: State, u: Task, l: Luck) returns (steps: seq<Step>, z: State)
    requires Resting(s) && u.Staged? && u.restore.None?
    ensures Leads(Doing(s, u), steps, z) && z == s
  {
    Handled(s, u, true, Requested, l, l);
    Rests(s.(busy := true), l);
    var st := Handle(u, true, Requested, l, l);
    z := Do(Doing(s, u), st);
    One(Doing(s, u), st);
    steps := [st];
  }

  // ---------- without the lease ----------

  /** `z` is `s` with the edit undone: the index is as it was and the file agrees with it if it could be
      replaced, and bytes that went are in quarantine; without a copy of the bytes nothing is touched. */
  predicate Undone(s: State, z: State, l: Luck, l2: Luck) {
    && z.index == s.index && z.tasks == s.tasks && !z.busy && !z.recheck && z.deferred.None? && !z.leased
    && z.autolock == s.autolock && z.waiting == s.waiting && z.replies == s.replies
    && (s.disk.None? || l.copy ==>
          && (s.disk.Some? ==> FiledAs(s, z, l.name)) && (s.disk.None? ==> z.quarantine == s.quarantine)
          && (if l2.write then Agrees(z.index, z.disk) else z.disk == s.disk)
          && z.writable == l2.mode)
    && (s.disk.Some? && !l.copy ==> z.disk == s.disk && z.writable == s.writable)
  }

  /** Whatever the user did to an indexed file without the lease, and autolock does not step in: the
      daemon's next steps undo it. */
  lemma UnleasedEditIsUndone(s: State, l: Luck, l2: Luck) returns (steps: seq<Step>, z: State)
    requires Resting(s) && !s.leased && !Agrees(s.index, s.disk) && s.index.Some? && s.index.value.Live?
    ensures Leads(s, steps, z) && Undone(s, z, l, l2)
  {
    var look := Examine(s.index, s.disk);
    var t, u := Inspected(look, Watcher), Violating(s.index.value.bytes, s.disk.Some?);
    var first := Looked(s, Watcher, l);
    var st := Handle(t, false, Requested, l, l2);
    Handled(s, t, false, Requested, l, l2);
    assert Do(Doing(s, t), st) == Doing(s, u);
    var more;
    more, z := EditIsReverted(s, l, l2);
    First(Doing(s, t), st, more, z);
    Then(s, first, Doing(s, t), [st] + more, z);
    steps := first + ([st] + more);
  }

  /** The revert, from its start: after a watcher's look or at the daemon's start. */
  lemma EditIsReverted(s: State, l: Luck, l2: Luck) returns (steps: seq<Step>, z: State)
    requires Resting(s) && !s.leased && !Agrees(s.index, s.disk) && s.index.Some? && s.index.value.Live?
    ensures Leads(Doing(s, Violating(s.index.value.bytes, s.disk.Some?)), steps, z) && Undone(s, z, l, l2)
  {
    var b, first := s.index.value.bytes, s.disk.Some?;
    var t := Violating(b, first);
    var s1 := if first then Copied(s, l) else s;
    var u := Staged(Some(b), if first && l.copy then s.disk else None, first);
    Worked(s, t, true, l);
    RestoreStaged(s, t, s1, u, l);
    steps, z := StagedUndoes(s, s1, u, l, l2);
    First(Doing(s, t), Work(t, true, l), steps, z);
    steps := [Work(t, true, l)] + steps;
  }

  lemma RestoreStaged(s: State, t: Task, s1: State, u: Task, l: Luck)
    requires t.Violating? && t.first == s.disk.Some? && s1 == if t.first then Copied(s, l) else s
    requires u == Staged(Some(t.content), if t.first && l.copy then s.disk else None, t.first)
    ensures DoWork(s.(busy := true), t, true, l) == Doing(s1, u)
  {
    CopyAside(s, l);
  }

  /** A copy does not look at the busy mark. */
  lemma CopyAside(s: State, l: Luck)
    ensures Copied(s.(busy := true), l) == Copied(s, l).(busy := true)
  {
  }

  lemma StagedUndoes(s: State, s1: State, u: Task, l: Luck, l2: Luck) returns (steps: seq<Step>, z: State)
    requires Resting(s) && !s.leased && !Agrees(s.index, s.disk) && s.index.Some? && s.index.value.Live?
    requires s1 == if s.disk.Some? then Copied(s, l) else s
    requires u == Staged(Some(s.index.value.bytes), if s.disk.Some? && l.copy then s.disk else None, s.disk.Some?)
    ensures Leads(Doing(s1, u), steps, z) && Undone(s, z, l, l2)
  {
    var s0, st := s1.(busy := true), Handle(u, true, Requested, l2, l2);
    Handled(s1, u, true, Requested, l2, l2);
    Rests(s0, l2);
    Rests(if l2.write then s0.(disk := u.restore, writable := l2.mode) else s0.(writable := l2.mode), l2);
    z := DoHandle(s0, u, true, Requested, l2, l2);
    One(Doing(s1, u), st);
    steps := [st];
  }

  /** A file without an index entry, and autolock does not step in: it is copied and removed. */
  lemma NewFileIsUndone(s: State, l: Luck, l2: Luck) returns (steps: seq<Step>, z: State)
    requires Resting(s) && !s.leased && s.disk.Some? && (s.index.None? || s.index.value.Tombstone?)
    ensures Leads(s, steps, z) && Undone(s, z, l, l)
  {
    var t := Inspected(Unindexed, Watcher);
    var first := Looked(s, Watcher, l);
    var st := Handle(t, false, Requested, l, l2);
    Handled(s, t, false, Requested, l, l2);
    z := RemovalUndoes(s, l, l2);
    One(Doing(s, t), st);
    Then(s, first, Doing(s, t), [st], z);
    steps := first + [st];
  }

  lemma RemovalUndoes(s: State, l: Luck, l2: Luck) returns (z: State)
    requires Resting(s) && !s.leased && s.disk.Some? && (s.index.None? || s.index.value.Tombstone?)
    ensures z == OnInspected(s.(busy := true), Unindexed, Watcher, false, l, l2) && Undone(s, z, l, l)
  {
    Rests(RemoveNewFile(s.(busy := true), l), l2);
    z := OnInspected(s.(busy := true), Unindexed, Watcher, false, l, l2);
  }

  /** At the daemon's start an edit that changed the size, a delete or a file of no entry is undone the
      same way; anything else stays as it is, with the session's permission. */
  predicate Restarted(s: State, z: State, l: Luck, l2: Luck) {
    && z.index == s.index && Resting(z) && !z.leased && z.tasks == multiset{}
    && z.autolock.None? && !z.waiting && z.replies == {}
    && if Agrees(s.index, s.disk) then
         z.disk == s.disk && z.quarantine == s.quarantine && (s.disk.Some? ==> z.writable == l.mode)
       else
         && (s.disk.Some? && !l.copy ==> z.disk == s.disk)
         && (s.disk.Some? && l.copy ==> FiledAs(s, z, l.name))
         && ((s.disk.Some? ==> l.copy) && l.write && l2.write ==> Agrees(z.index, z.disk))
         && (!(s.index.Some? && s.index.value.Live?) && !l.copy ==> z.writable == s.writable)
  }

  lemma RestartUndoes(s: State, l: Luck, l2: Luck) returns (steps: seq<Step>, z: State)
    ensures Leads(s, steps, z) && Restarted(s, z, l, l2)
  {
    if s.index.Some? && s.index.value.Live? && !Agrees(s.index, s.disk) {
      steps, z := RestartReverts(s, l, l2);
    } else {
      RestartSettles(s, l, l2);
      z := Do(s, Restart(false, l));
      One(s, Restart(false, l));
      steps := [Restart(false, l)];
    }
  }

  lemma RestartSettles(s: State, l: Luck, l2: Luck)
    requires s.index.Some? && s.index.value.Live? ==> Agrees(s.index, s.disk)
    ensures Restarted(s, OnRestart(s, false, l), l, l2)
  {
    CopyLeaves(Rebooted(s, l), l);
  }

  lemma RestartReverts(s: State, l: Luck, l2: Luck) returns (steps: seq<Step>, z: State)
    requires s.index.Some? && s.index.value.Live? && !Agrees(s.index, s.disk)
    ensures Leads(s, steps, z) && Restarted(s, z, l, l2)
  {
    var s1, st := Rebooted(s, l), Restart(false, l);
    assert Do(s, st) == Doing(s1, Violating(s.index.value.bytes, s.disk.Some?));
    steps, z := EditIsReverted(s1, l, l2);
    RevertedOf(s, s1, z, l, l2);
    First(s, st, steps, z);
    steps := [st] + steps;
  }

  lemma RevertedOf(s: State, s1: State, z: State, l: Luck, l2: Luck)
    requires s.index.Some? && s.index.value.Live? && !Agrees(s.index, s.disk)
    requires s1 == Rebooted(s, l) && Undone(s1, z, l, l2)
    ensures Restarted(s, z, l, l2)
  {
  }

  // ---------- autolock ----------

  /** The steps up to the lock request: the bytes are copied first. */
  lemma AutolockAsks(s: State, l: Luck, l2: Luck) returns (steps: seq<Step>, x: State)
    requires Resting(s) && !s.leased && !s.waiting && s.autolock.None? && s.disk.Some? && !Agrees(s.index, s.disk)
    requires l.copy
    ensures Leads(s, steps, x)
    ensures x == Copied(s, l).(busy := true, autolock := Some((s.disk, Examine(s.index, s.disk).Unindexed?)),
                               waiting := true)
  {
    var look := Examine(s.index, s.disk);
    var first := Looked(s, Watcher, l);
    var more;
    more, x := AutolockTried(s, look, l, l2);
    Then(s, first, Doing(s, Inspected(look, Watcher)), more, x);
    steps := first + more;
  }

  lemma AutolockTried(s: State, look: Look, l: Luck, l2: Luck) returns (steps: seq<Step>, x: State)
    requires Resting(s) && !s.leased && !s.waiting && s.autolock.None? && s.disk.Some? && l.copy
    requires look.Differs? || look.Unindexed?
    ensures Leads(Doing(s, Inspected(look, Watcher)), steps, x)
    ensures x == Copied(s, l).(busy := true, autolock := Some((s.disk, look.Unindexed?)), waiting := true)
  {
    var t := Inspected(look, Watcher);
    var st := Handle(t, true, Requested, l, l2);
    Handled(s, t, true, Requested, l, l2);
    assert Do(Doing(s, t), st) == Doing(s, Preserving(look.Unindexed?));
    steps, x := PreservedAsks(s, look.Unindexed?, l, l2);
    First(Doing(s, t), st, steps, x);
    steps := [st] + steps;
  }

  lemma PreservedAsks(s: State, newFile: bool, l: Luck, l2: Luck) returns (steps: seq<Step>, x: State)
    requires Resting(s) && !s.leased && !s.waiting && s.disk.Some? && l.copy
    ensures Leads(Doing(s, Preserving(newFile)), steps, x)
    ensures x == Copied(s, l).(busy := true, autolock := Some((s.disk, newFile)), waiting := true)
  {
    var p, u := Preserving(newFile), Ready(s.disk, newFile);
    var st, st1 := Work(p, true, l), Handle(u, true, Requested, l, l2);
    var s1 := Copied(s, l);
    Worked(s, p, true, l);
    PreservedIs(s, newFile, l);
    CopyLeaves(s, l);
    Handled(s1, u, true, Requested, l, l2);
    x := Do(Doing(s1, u), st1);
    One(Doing(s1, u), st1);
    First(Doing(s, p), st, [st1], x);
    steps := [st] + [st1];
  }

  lemma PreservedIs(s: State, newFile: bool, l: Luck)
    requires s.disk.Some? && l.copy
    ensures DoWork(s.(busy := true), Preserving(newFile), true, l) == Doing(Copied(s, l), Ready(s.disk, newFile))
  {
    CopyAside(s, l);
  }

  /** A copy that succeeds adds to the quarantine and to what was given up, and changes nothing else. */
  lemma CopyLeaves(s: State, l: Luck)
    ensures Copied(s, l) == s.(quarantine := Copied(s, l).quarantine, gone := Copied(s, l).gone)
    ensures l.copy && s.disk.Some? ==> FiledAs(s, Copied(s, l), l.name)
  {
  }

  /** An autolock that is granted publishes the edit it found and keeps the lease; the bytes are also in
      quarantine. */
  lemma GrantedAutolockPublishes(s: State, l: Luck, l2: Luck) returns (steps: seq<Step>, z: State)
    requires Resting(s) && !s.leased && !s.waiting && s.autolock.None? && s.disk.Some? && !Agrees(s.index, s.disk)
    requires l.copy
    ensures Leads(s, steps, z) && FiledAs(s, z, l.name) && z.disk == s.disk && z.index == Some(Live(s.disk.value))
    ensures s.disk.value in z.committed && z.leased && z.writable && Resting(z) && z.autolock.None? && !z.waiting
    ensures z.tasks == s.tasks
  {
    var x;
    steps, x := AutolockAsks(s, l, l2);
    CopyLeaves(s, l);
    var y := Copied(s, l).(leased := true, writable := true, waiting := false, autolock := None);
    assert Do(x, Grant) == Doing(y, Publishing(Watcher));
    var more;
    more, z := FileIsPublished(y, Watcher, l, l2);
    PublishedAs(y, z, l);
    First(x, Grant, more, z);
    Then(s, steps, x, [Grant] + more, z);
    steps := steps + ([Grant] + more);
  }

  /** What is on record for a file that was not before is a version with its bytes. */
  lemma PublishedAs(s: State, z: State, l: Luck)
    requires OnRecord(s, z, Watcher, l) && s.disk.Some?
    ensures z.index == Some(Live(s.disk.value))
  {
  }

  /** An autolock that fails undoes the edit: the indexed version comes back, a new file goes. */
  lemma LostAutolockUndoes(s: State, l: Luck, l2: Luck) returns (steps: seq<Step>, z: State)
    requires Resting(s) && !s.leased && !s.waiting && s.autolock.None? && s.disk.Some? && !Agrees(s.index, s.disk)
    requires l.copy
    ensures Leads(s, steps, z) && FiledAs(s, z, l.name) && z.index == s.index && z.autolock.None? && !z.leased
    ensures l2.write ==> Agrees(z.index, z.disk)
    ensures !l2.write ==> z.disk == s.disk
    ensures Resting(z) && !z.waiting && z.tasks == s.tasks
  {
    var x;
    steps, x := AutolockAsks(s, l, l2);
    CopyLeaves(s, l);
    var st := AutolockLost(true, l2, l2);
    var more;
    if Examine(s.index, s.disk).Unindexed? {
      z := NewFileGoes(s, x, l, l2);
      One(x, st);
      more := [st];
    } else {
      more, z := VersionComesBack(s, x, l, l2);
    }
    Then(s, steps, x, more, z);
    steps := steps + more;
  }

  lemma NewFileGoes(s: State, x: State, l: Luck, l2: Luck) returns (z: State)
    requires Resting(s) && s.disk.Some? && Examine(s.index, s.disk).Unindexed?
    requires x == Copied(s, l).(busy := true, autolock := Some((s.disk, true)), waiting := true)
    ensures Enabled(x, AutolockLost(true, l2, l2)) && z == Do(x, AutolockLost(true, l2, l2))
    ensures z.quarantine == x.quarantine && z.index == s.index && z.autolock.None? && z.leased == s.leased
    ensures if l2.write then Agrees(z.index, z.disk) else z.disk == s.disk
    ensures Resting(z) && !z.waiting && z.tasks == s.tasks
  {
    var s1 := x.(waiting := false, autolock := None);
    Rests(if l2.write then s1.(disk := None) else s1.(writable := l2.mode), l2);
    z := Do(x, AutolockLost(true, l2, l2));
  }

  lemma VersionComesBack(s: State, x: State, l: Luck, l2: Luck) returns (steps: seq<Step>, z: State)
    requires Resting(s) && s.disk.Some? && Examine(s.index, s.disk).Differs?
    requires x == Copied(s, l).(busy := true, autolock := Some((s.disk, false)), waiting := true)
    ensures Leads(x, steps, z)
    ensures z.quarantine == x.quarantine && z.index == s.index && z.autolock.None? && z.leased == s.leased
    ensures if l2.write then Agrees(z.index, z.disk) else z.disk == s.disk
    ensures Resting(z) && !z.waiting && z.tasks == s.tasks
  {
    var st, s1 := AutolockLost(true, l2, l2), x.(waiting := false, autolock := None);
    var u := Staged(Some(s.index.value.bytes), s.disk, true);
    assert Do(x, st) == Doing(s1, u);
    Handled(s1, u, true, Requested, l2, l2);
    var st1 := Handle(u, true, Requested, l2, l2);
    Rests(if l2.write then s1.(disk := u.restore, writable := l2.mode) else s1.(writable := l2.mode), l2);
    z := Do(Doing(s1, u), st1);
    One(Doing(s1, u), st1);
    First(x, st, [st1], z);
    steps := [st] + [st1];
  }

  // ---------- writes a client asked for ----------

  /** Applying a quarantined copy writes exactly its bytes over the target, and says so, if and only if they
      could be staged, the lease is still held and the file can be written; the index waits for the unlock. */
  lemma CopyIsApplied(s: State, n: Name, id: nat, ok: bool, lost: bool, l: Luck, l2: Luck)
    returns (steps: seq<Step>, z: State)
    requires Resting(s) && Enabled(s, AskApply(n, id))
    requires Applied(id, true) !in s.replies
    ensures Leads(s, steps, z) && Resting(z) && z.index == s.index && z.tasks == s.tasks && z.quarantine == s.quarantine
    ensures Applied(id, true) in z.replies <==> ok && !lost && l.write
    ensures z.disk == if ok && !lost && l.write then Some(s.quarantine[n]) else s.disk
    ensures z.leased <==> !lost
  {
    var t := Applying(s.quarantine[n], id);
    var s1 := if lost then s.(leased := false, writable := l.mode) else s;
    var st := Handle(t, ok, Requested, l, l2);
    Handled(s1, t, ok, Requested, l, l2);
    z := AppliedIs(s1, t, ok, l, l2);
    One(Doing(s1, t), st);
    var more := [st];
    if lost { more := Lapse(s, t, l.mode, more, z); }
    assert Do(s, AskApply(n, id)) == Doing(s, t);
    First(s, AskApply(n, id), more, z);
    steps := [AskApply(n, id)] + more;
  }

  lemma Lapse(s: State, t: Task, mode: bool, more: seq<Step>, z: State) returns (steps: seq<Step>)
    requires Leads(Doing(s.(leased := false, writable := mode), t), more, z)
    ensures Leads(Doing(s, t), steps, z)
  {
    assert Do(Doing(s, t), LeaseLost(mode)) == Doing(s.(leased := false, writable := mode), t);
    First(Doing(s, t), LeaseLost(mode), more, z);
    steps := [LeaseLost(mode)] + more;
  }

  lemma AppliedIs(s: State, t: Task, ok: bool, l: Luck, l2: Luck) returns (z: State)
    requires Resting(s) && t.Applying?
    ensures z == DoHandle(s.(busy := true), t, ok, Requested, l, l2)
    ensures var done := ok && s.leased && l.write;
            && Resting(z) && z.index == s.index && z.tasks == s.tasks && z.quarantine == s.quarantine
            && z.leased == s.leased && z.replies == s.replies + {Applied(t.client, done)}
            && z.disk == if done then Some(t.bytes) else s.disk
  {
    var s0 := s.(busy := true);
    Rests(s0, l2);
    Rests(s0.(writable := l.mode), l2);
    Rests(Overwritten(s0, t.bytes), l2);
    z := DoHandle(s0, t, ok, Requested, l, l2);
  }

  /** Restoring a version from the history puts exactly its bytes on disk and on record under the same
      condition. */
  lemma VersionIsRestored(s: State, b: Bytes, ok: bool, l: Luck, l2: Luck) returns (steps: seq<Step>, z: State)
    requires Resting(s) && Enabled(s, AskRestore(b))
    ensures Leads(s, steps, z) && Resting(z) && z.leased && z.tasks == s.tasks && z.quarantine == s.quarantine
    ensures if ok && l.write then z.disk == Some(b) && z.index == Some(Live(b)) && z.writable
            else z.disk == s.disk && z.index == s.index
  {
    var t := Restoring(b);
    var st, s0 := Handle(t, ok, Requested, l, l2), s.(busy := true);
    assert Do(s, AskRestore(b)) == Doing(s, t);
    Handled(s, t, ok, Requested, l, l2);
    Rests(s0, l2);
    Rests(s0.(writable := l.mode), l2);
    Rests(Overwritten(s0, b).(index := Some(Live(b))), l2);
    z := Do(Doing(s, t), st);
    One(Doing(s, t), st);
    First(s, AskRestore(b), [st], z);
    steps := [AskRestore(b)] + [st];
  }
}
