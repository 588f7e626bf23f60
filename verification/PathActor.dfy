/** The actor at work on one path: its handlers update the state in place, and its event loop keeps
    every byte it owes the user. */
module PathActor {
  import opened Common
  import opened Preservation
  import opened GoldenInvariant

  function Drained(s: State, l: Luck): State {
    if s.deferred.Some? then ApplyRemote(s.(deferred := None), s.deferred.value, l) else s
  }

  function Rechecked(s: State): State {
    if s.recheck then Spawn(s.(recheck := false), Inspecting(s.index, Watcher)) else s
  }

  lemma UnbusyParts(s: State, l: Luck)
    ensures Unbusy(s, l) == Rechecked(Drained(s.(busy := false), l))
  {
  }

  class Actor {
    var disk: Option<Bytes>
    var writable: bool
    var index: Option<Entry>
    var quarantine: map<Name, Bytes>
    var leased: bool
    var busy: bool
    var deferred: Option<Entry>
    var recheck: bool
    var autolock: Option<(Option<Bytes>, bool)>
    var waiting: bool
    var tasks: multiset<Task>
    var replies: set<Reply>
    ghost var committed: set<Bytes>
    ghost var gone: set<Bytes>

    /** A daemon that starts on a tree with the index it loaded. */
    constructor (disk: Option<Bytes>, writable: bool, index: Option<Entry>, quarantine: map<Name, Bytes>)
      ensures Initial(View()) && Inv(View())
      ensures this.disk == disk && this.index == index && this.quarantine == quarantine
    {
      this.disk, this.writable, this.index, this.quarantine := disk, writable, index, quarantine;
      leased, busy, deferred, recheck, autolock, waiting := false, false, None, false, None, false;
      tasks, replies := multiset{}, {};
      committed, gone := if index.Some? then {ContentOf(index.value)} else {}, {};
      new;
      InitialInv(View());
    }

    ghost function View(): (s: State)
      reads this
    {
      State(disk, writable, index, quarantine, leased, busy, deferred, recheck, autolock, waiting, tasks,
            replies, committed, gone)
    }

    // ---------- the handlers ----------

    /** A copy of the file into quarantine. */
    method Quarantine(l: Luck) returns (copied: Option<Bytes>)
      modifies this`quarantine, this`gone
      ensures View() == Copied(old(View()), l)
      ensures copied == if CopyMade(old(View()), l.copy) then disk else None
    {
      copied := if l.copy then disk else None;
      gone := gone + Displaced(View(), l.name, Copies(View(), l));
      if disk.Some? && (l.copy || l.torn) {
        quarantine := quarantine[l.name := if l.copy then disk.value else EMPTY];
      }
    }

    method ApplyRemoteVersion(e: Entry, l: Luck)
      modifies this
      ensures View() == ApplyRemote(old(View()), e, l)
    {
      if !l.newer { return; }
      if writable { var _ := Quarantine(l); }
      ReplaceFile(e, l);
    }

    method ReplaceFile(e: Entry, l: Luck)
      modifies this
      ensures View() == Replace(old(View()), e, l)
    {
      if l.write {
        gone := gone + Exposed(View());
        disk := if e.Live? then Some(e.bytes) else None;
        if l.settle { index := Some(e); }
      }
      writable := l.mode;
    }

    method DrainDeferred(l: Luck)
      modifies this
      ensures View() == Drained(old(View()), l)
    {
      ghost var s := View();
      if deferred.Some? {
        var e := deferred.value;
        deferred := None;
        assert View() == s.(deferred := None);
        ApplyRemoteVersion(e, l);
      }
    }

    method Reinspect()
      modifies this
      ensures View() == Rechecked(old(View()))
    {
      ghost var s := View();
      if recheck {
        recheck := false;
        assert View() == s.(recheck := false);
        Start(Inspecting(index, Watcher));
      }
    }

    method ClearBusy(l: Luck)
      modifies this
      ensures View() == Unbusy(old(View()), l)
    {
      ghost var s := View();
      busy := false;
      assert View() == s.(busy := false);
      DrainDeferred(l);
      Reinspect();
      UnbusyParts(s, l);
    }

    method Start(t: Task)
      modifies this`busy, this`tasks
      ensures View() == Spawn(old(View()), t)
    {
      busy := true;
      tasks := tasks + multiset{t};
    }

    method FinishTheUnlock(client: nat, ok: bool, l: Luck)
      modifies this`leased, this`writable, this`replies
      ensures View() == FinishUnlock(old(View()), client, ok, l)
    {
      leased := false;
      writable := l.mode;
      replies := replies + {Unlocked(client, ok)};
    }

    method TombstoneCommit()
      modifies this`index
      ensures View() == CommitTombstone(old(View()))
    {
      if index.Some? && index.value.Live? { index := Some(Tombstone); }
    }

    method StartViolation(first: bool, l2: Luck)
      modifies this
      ensures View() == SpawnViolation(old(View()), first, l2)
    {
      if index.None? { ClearBusy(l2); } else { Start(Violating(ContentOf(index.value), first)); }
    }

    method ViolationNewFile(l: Luck)
      modifies this
      ensures View() == RemoveNewFile(old(View()), l)
    {
      var copied := Quarantine(l);
      if copied.None? { return; }
      writable := l.mode;
      if l.write { disk := None; }
    }

    method HandleInspected(look: Look, cause: Cause, eligible: bool, l: Luck, l2: Luck)
      modifies this
      ensures View() == OnInspected(old(View()), look, cause, eligible, l, l2)
    {
      if cause.Client? { HandleUnlockInspected(look, cause.id, eligible, l, l2); }
      else { HandleWatchInspected(look, eligible, l, l2); }
    }

    method HandleUnlockInspected(look: Look, id: nat, eligible: bool, l: Luck, l2: Luck)
      modifies this
      ensures View() == OnInspected(old(View()), look, Client(id), eligible, l, l2)
    {
      ghost var s := View();
      match look {
        case Failed =>
          replies := replies + {Unlocked(id, false)};
          assert View() == Answer(s, Unlocked(id, false));
          ClearBusy(l2);
        case Clean =>
          ClearBusy(l2);
          FinishTheUnlock(id, true, l);
        case Missing =>
          TombstoneCommit();
          ClearBusy(l2);
          FinishTheUnlock(id, true, l);
        case _ => Start(Publishing(Client(id)));
      }
    }

    method HandleWatchInspected(look: Look, eligible: bool, l: Luck, l2: Luck)
      modifies this
      ensures View() == OnInspected(old(View()), look, Watcher, eligible, l, l2)
    {
      if look.Failed? || look.Clean? { ClearBusy(l2); }
      else if leased {
        if look.Missing? { TombstoneCommit(); ClearBusy(l2); } else { Start(Publishing(Watcher)); }
      }
      else if look.Missing? { StartViolation(false, l2); }
      else if eligible && autolock.None? { Start(Preserving(look.Unindexed?)); }
      else if look.Differs? { StartViolation(true, l2); }
      else { ViolationNewFile(l); ClearBusy(l2); }
    }

    method HandlePublished(result: Option<Bytes>, cause: Cause, l: Luck, l2: Luck)
      modifies this
      ensures View() == OnPublished(old(View()), result, cause, l, l2)
    {
      ghost var s := View();
      if result.None? && cause.Watcher? { recheck := true; }
      ghost var s1 := if result.None? && cause.Watcher? then s.(recheck := true) else s;
      assert View() == s1;
      var ok := result.Some? && leased;
      if ok {
        index := Some(Live(result.value));
        committed := committed + {result.value};
        assert View() == s1.(index := Some(Live(result.value)), committed := s1.committed + {result.value});
      }
      ClearBusy(l2);
      if cause.Client? { FinishTheUnlock(cause.id, ok, l); }
    }

    method HandleStaged(restore: Option<Bytes>, copied: Option<Bytes>, required: bool, l: Luck, l2: Luck)
      modifies this
      ensures View() == OnStaged(old(View()), restore, copied, required, l, l2)
    {
      if required && copied.None? { ClearBusy(l2); return; }
      ghost var s := View();
      if restore.Some? {
        if l.write { disk := restore; }
        writable := l.mode;
        assert View() == if l.write then s.(disk := restore, writable := l.mode) else s.(writable := l.mode);
      }
      ClearBusy(l2);
    }

    method FailAutolock(copied: Option<Bytes>, newFile: bool, staged: bool, l: Luck, l2: Luck)
      modifies this
      ensures View() == AutolockFail(old(View()), copied, newFile, staged, l, l2)
    {
      ghost var s := View();
      autolock := None;
      ghost var s1 := s.(autolock := None);
      assert View() == s1;
      if copied.None? { ClearBusy(l2); return; }
      if newFile {
        if l.write { disk := None; } else { writable := l.mode; }
        assert View() == if l.write then s1.(disk := None) else s1.(writable := l.mode);
        ClearBusy(l2);
      } else if index.None? {
        ClearBusy(l2);
      } else {
        var restore := if staged then Some(ContentOf(index.value)) else None;
        tasks := tasks + multiset{Staged(restore, copied, true)};
      }
    }

    method BeginAutolock(copied: Option<Bytes>, newFile: bool, o: Outcome, staged: bool, l: Luck, l2: Luck)
      modifies this
      ensures View() == OnReady(old(View()), copied, newFile, o, staged, l, l2)
    {
      busy := false;
      if o.GuardFails? { FailAutolock(copied, newFile, staged, l, l2); return; }
      busy := true;
      if o.StartFails? { FailAutolock(copied, newFile, staged, l, l2); return; }
      autolock, waiting := Some((copied, newFile)), true;
    }

    method Overwrite(bytes: Bytes)
      modifies this`disk, this`writable, this`gone
      ensures View() == Overwritten(old(View()), bytes)
    {
      gone := gone + Exposed(View());
      disk := Some(bytes);
      writable := true;
    }

    method HandleApplied(bytes: Bytes, client: nat, ok: bool, l: Luck, l2: Luck)
      modifies this
      ensures View() == OnApplied(old(View()), bytes, client, ok, l, l2)
    {
      var done := ok && leased && l.write;
      ghost var s := View();
      if done {
        Overwrite(bytes);
      } else if ok && leased {
        writable := l.mode;
        assert View() == s.(writable := l.mode);
      }
      ClearBusy(l2);
      replies := replies + {Applied(client, done)};
    }

    method HandleRestored(bytes: Bytes, ok: bool, l: Luck, l2: Luck)
      modifies this
      ensures View() == OnRestored(old(View()), bytes, ok, l, l2)
    {
      ghost var s := View();
      if ok && leased {
        if l.write {
          Overwrite(bytes);
          index := Some(Live(bytes));
          assert View() == Overwritten(s, bytes).(index := Some(Live(bytes)));
        } else {
          writable := l.mode;
          assert View() == s.(writable := l.mode);
        }
      }
      ClearBusy(l2);
    }

    // ---------- the event loop ----------

    /** The work a task does off the actor; it reads the disk and may copy it. */
    method Background(t: Task, ok: bool, l: Luck)
      requires t.Inspecting? || t.Publishing? || t.Violating? || t.Preserving?
      modifies this
      ensures View() == DoWork(old(View()), t, ok, l)
    {
      var done;
      match t {
        case Inspecting(entry, cause) => done := Inspected(if ok then Examine(entry, disk) else Failed, cause);
        case Publishing(cause) => done := Published(if ok then disk else None, cause);
        case Violating(restore, first) =>
          var copied := None;
          if first { copied := Quarantine(l); }
          done := Staged(if ok then Some(restore) else None, copied, first);
        case Preserving(newFile) =>
          var copied := Quarantine(l);
          done := Ready(copied, newFile);
      }
      tasks := tasks + multiset{done};
    }

    /** The event of a finished task. */
    method Dispatch(t: Task, ok: bool, o: Outcome, l: Luck, l2: Luck)
      requires Inv(View()) && TaskOk(View(), t) && (Armed(t) ==> Covered(View()))
      requires !Preservation.Background(t)
      modifies this
      ensures View() == DoHandle(old(View()), t, ok, o, l, l2)
      ensures Careful(old(View()), View())
    {
      HandleCareful(View(), t, ok, o, l, l2);
      match t {
        case Inspected(look, cause) => HandleInspected(look, cause, ok, l, l2);
        case Published(result, cause) => HandlePublished(result, cause, l, l2);
        case Staged(restore, copied, required) => HandleStaged(restore, copied, required, l, l2);
        case Ready(copied, newFile) => BeginAutolock(copied, newFile, o, ok, l, l2);
        case Applying(bytes, client) => HandleApplied(bytes, client, ok, l, l2);
        case Restoring(bytes) => HandleRestored(bytes, ok, l, l2);
      }
    }

    method OnWatch()
      modifies this
      ensures View() == Do(old(View()), Watch)
    {
      if busy { recheck := true; } else { Start(Inspecting(index, Watcher)); }
    }

    method OnRemote(e: Entry, l: Luck)
      modifies this
      ensures View() == Do(old(View()), RemoteApply(e, l))
    {
      ghost var s := View();
      if e.Live? { committed := committed + {e.bytes}; }
      assert View() == Seen(s, e);
      if busy { deferred := Some(e); } else { ApplyRemoteVersion(e, l); }
    }

    method LeaseGranted()
      modifies this
      ensures View() == OnGranted(old(View()))
    {
      ghost var s := View();
      leased, writable, waiting := true, true, false;
      assert View() == s.(leased := true, writable := true, waiting := false);
      if autolock.Some? {
        autolock := None;
        assert View() == s.(leased := true, writable := true, waiting := false).(autolock := None);
        Start(Publishing(Watcher));
      }
    }

    method Forget()
      modifies this
      ensures View() == Forgotten(old(View()))
    {
      leased, busy, deferred, recheck, autolock, waiting := false, false, None, false, None, false;
      tasks, replies := multiset{}, {};
    }

    method Reboot(l: Luck)
      modifies this
      ensures View() == Rebooted(old(View()), l)
    {
      ghost var s := View();
      if index.Some? && index.value.Live? { writable := l.mode; }
      assert View() == s.(writable := if s.index.Some? && s.index.value.Live? then l.mode else s.writable);
      Forget();
    }

    method StartAgain(sameSize: bool, l: Luck)
      modifies this
      ensures View() == OnRestart(old(View()), sameSize, l)
    {
      Reboot(l);
      if index.None? || index.value.Tombstone? {
        ViolationNewFile(l);
      } else if disk.None? {
        Start(Violating(index.value.bytes, false));
      } else if disk.value != index.value.bytes && !sameSize {
        Start(Violating(index.value.bytes, true));
      }
    }

    /** What the user does to the file and the quarantine. */
    method ByUser(st: Step)
      requires st.UserWrite? || st.UserDelete? || st.Discard?
      requires Enabled(View(), st)
      modifies this
      ensures View() == Do(old(View()), st)
    {
      match st {
        case UserWrite(b, mode) =>
          gone := gone + Exposed(View()) - {b};
          disk, writable := Some(b), mode;
        case UserDelete =>
          gone := gone + Exposed(View());
          disk := None;
        case Discard(n) =>
          gone := gone + Displaced(View(), n, quarantine - {n});
          quarantine := quarantine - {n};
      }
    }

    method LoseAutolock(staged: bool, l: Luck, l2: Luck)
      requires autolock.Some? && waiting
      modifies this
      ensures View() == Do(old(View()), AutolockLost(staged, l, l2))
    {
      ghost var s := View();
      waiting := false;
      assert View() == s.(waiting := false);
      FailAutolock(autolock.value.0, autolock.value.1, staged, l, l2);
    }

    /** A task's work, or its event. */
    method OnTask(st: Step)
      requires (st.Work? || st.Handle?) && Inv(View()) && Enabled(View(), st)
      modifies this
      ensures View() == Do(old(View()), st)
    {
      ghost var s := View();
      TakenKeeps(s, st.task);
      tasks := tasks - multiset{st.task};
      assert View() == Taken(s, st.task);
      match st {
        case Work(t, ok, l) => Background(t, ok, l);
        case Handle(t, ok, o, l, l2) => Dispatch(t, ok, o, l, l2);
      }
    }

    /** A client's request, or a change of the lease. */
    method OnRequest(st: Step)
      requires || st.LeaseLost? || st.AskUnlock? || st.AskApply? || st.AskRestore? || st.Grant?
               || st.AskLock? || st.RequestLost? || st.VoterGone?
      requires Enabled(View(), st)
      modifies this
      ensures View() == Do(old(View()), st)
    {
      match st {
        case Grant => LeaseGranted();
        case AskLock => waiting := true;
        case RequestLost => waiting := false;
        case VoterGone => waiting := false;
        case LeaseLost(mode) => leased, writable := false, mode;
        case AskUnlock(id) => Start(Inspecting(index, Client(id)));
        case AskApply(n, id) => Start(Applying(quarantine[n], id));
        case AskRestore(b) => Start(Restoring(b));
      }
    }

    /** One event, whatever it is: nothing accounted for is lost. */
    method Perform(st: Step)
      requires Inv(View()) && Enabled(View(), st) && Polite(View(), st)
      modifies this
      ensures View() == Do(old(View()), st) && Careful(old(View()), View())
    {
      StepCareful(View(), st);
      match st {
        case Work(_, _, _) => OnTask(st);
        case Handle(_, _, _, _, _) => OnTask(st);
        case Watch => OnWatch();
        case Restart(sameSize, l) => StartAgain(sameSize, l);
        case RemoteApply(e, l) => OnRemote(e, l);
        case ConcurrentSeen(l) => var _ := Quarantine(l);
        case AutolockLost(staged, l, l2) => LoseAutolock(staged, l, l2);
        case UserWrite(_, _) => ByUser(st);
        case UserDelete => ByUser(st);
        case Discard(_) => ByUser(st);
        case _ => OnRequest(st);
      }
    }

    /** The actor's loop. Whatever was kept at any moment of it, and no event has given up since, is
        still on disk, in quarantine or in a committed record when it ends. */
    method Serve(steps: seq<Step>, ghost states: seq<State>)
      requires Run(states, steps) && View() == states[0]
      modifies this
      ensures View() == states[|steps|] && Inv(View())
      ensures forall i, b :: 0 <= i <= |steps| && Owed(states, steps, i, b) ==> Kept(View(), b)
    {
      for k := 0 to |steps|
        invariant View() == states[k]
      {
        InvOfRun(states, steps, k);
        Perform(steps[k]);
      }
      InvOfRun(states, steps, |steps|);
      forall i, b | 0 <= i <= |steps| && Owed(states, steps, i, b) ensures Kept(View(), b) {
        NothingIsLost(states, steps, i, |steps|, b);
      }
    }
  }

  /** Kept at moment `i`, and given up by no event from then on. */
  ghost predicate Owed(states: seq<State>, steps: seq<Step>, i: int, b: Bytes)
    requires |states| == |steps| + 1 && 0 <= i <= |steps|
  {
    && Kept(states[i], b) && b !in states[i].gone
    && forall j :: i <= j < |steps| ==> !GivesUp(states[j], steps[j], b)
  }
}
