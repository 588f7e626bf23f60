/** Where the preservation of a path ends: exactly when a copy, a remote version or a failed revert
    loses bytes, and why nobody may write inside a copy-to-restore window. */
module PreservationLimits {
  import opened Common
  import opened Preservation
  import opened PathRuns

  // ---------- copies ----------

  /** The copy, made or torn, takes the name of the only copy of other bytes. */
  predicate Displaces(s: State, l: Luck) {
    s.disk.Some? && (l.copy || l.torn) && l.name in s.quarantine
    && var b := s.quarantine[l.name];
       && !Recorded(s, b) && b != s.disk.value
       && forall n :: n in s.quarantine && n != l.name ==> s.quarantine[n] != b
  }

  ghost predicate NothingLost(s: State, s': State) {
    forall b :: Kept(s, b) ==> Kept(s', b)
  }

  /** A copy loses bytes exactly when it takes the name of their only copy, whether it succeeds or not. */
  lemma CopyLosesExactly(s: State, l: Luck)
    ensures NothingLost(s, Copied(s, l)) <==> !Displaces(s, l)
  {
    if s.disk.Some? && (l.copy || l.torn) {
      if Displaces(s, l) { DisplacedLost(s, l); } else { CopyKeeps(s, l); }
    }
  }

  lemma DisplacedLost(s: State, l: Luck)
    requires Displaces(s, l)
    ensures Kept(s, s.quarantine[l.name]) && !Kept(Copied(s, l), s.quarantine[l.name])
  {
    FiledUnder(s, l.name);
  }

  lemma CopyKeeps(s: State, l: Luck)
    requires !Displaces(s, l)
    ensures NothingLost(s, Copied(s, l))
  {
    var s' := Copied(s, l);
    if s.disk.Some? && (l.copy || l.torn) { FiledUnder(s', l.name); }
    forall b: Bytes | Filed(s, b) ensures Kept(s', b) {
      var n :| n in s.quarantine && s.quarantine[n] == b;
      if n == l.name && s.disk != Some(b) && !Recorded(s, b) && s.disk.Some? && (l.copy || l.torn) {
        var m :| m in s.quarantine && m != n && s.quarantine[m] == b;
        FiledUnder(s', m);
      } else if n in s'.quarantine {
        FiledUnder(s', n);
      }
    }
  }

  // ---------- remote versions ----------

  /** Once its copy was tried, the file holds bytes that are nowhere else: no copy of it was made, and no
      earlier one outlives the attempt. */
  predicate Bare(s: State, l: Luck) {
    && s.disk.Some? && !Recorded(s, s.disk.value) && !(s.writable && l.copy)
    && forall n :: n in s.quarantine && s.quarantine[n] == s.disk.value ==> s.writable && l.torn && n == l.name
  }

  /** A remote version loses bytes exactly when it goes in over a file that is bare by then, or when its
      copy takes the name of the only copy of other bytes. */
  lemma RemoteLosesExactly(s: State, e: Entry, l: Luck)
    requires Recorded(s, ContentOf(e))
    ensures NothingLost(s, ApplyRemote(s, e, l))
            <==> !(l.newer && ((l.write && Bare(s, l)) || (s.writable && Displaces(s, l))))
  {
    if l.newer {
      var s1 := if s.writable then Copied(s, l) else s;
      ReplaceLosesExactly(s1, e, l);
      BareMeans(s, l);
      if s.writable && Displaces(s, l) {
        DisplacedStaysLost(s, e, l);
      } else {
        if s.writable { CopyKeeps(s, l); }
        if Bare(s, l) && l.write {
          var b := s.disk.value;
          assert Kept(s, b) && !Kept(Replace(s1, e, l), b);
        }
      }
    }
  }

  lemma BareMeans(s: State, l: Luck)
    ensures var s1 := if s.writable then Copied(s, l) else s;
            s1.disk == s.disk && (Exposed(s1) != {} <==> Bare(s, l))
  {
    var s1 := if s.writable then Copied(s, l) else s;
    if s.disk.Some? && s.writable && (l.copy || l.torn) { FiledUnder(s1, l.name); }
    if n :| n in s.quarantine && s.disk == Some(s.quarantine[n]) && !(s.writable && l.torn && n == l.name) {
      if n in s1.quarantine { FiledUnder(s1, n); }
    }
  }

  lemma ReplaceLosesExactly(s: State, e: Entry, l: Luck)
    requires Recorded(s, ContentOf(e))
    ensures NothingLost(s, Replace(s, e, l)) <==> !(Exposed(s) != {} && l.write)
    ensures Exposed(s) != {} && l.write ==> !Kept(Replace(s, e, l), s.disk.value)
  {
    var s' := Replace(s, e, l);
    assert forall b :: Safe(s, b) <==> Safe(s', b);
    if Exposed(s) != {} && l.write { assert Kept(s, s.disk.value) && !Kept(s', s.disk.value); }
  }

  lemma DisplacedStaysLost(s: State, e: Entry, l: Luck)
    requires Recorded(s, ContentOf(e)) && Displaces(s, l)
    ensures Kept(s, s.quarantine[l.name]) && !Kept(Replace(Copied(s, l), e, l), s.quarantine[l.name])
  {
    DisplacedLost(s, l);
  }

  /** "Read-only means clean" is not kept: after a publish that fails on unlock the file is read-only
      with bytes of its own, and the next remote version destroys them although copies succeed. */
  lemma FailedUnlockThenRemote(s: State, id: nat, o: Outcome, l: Luck, l2: Luck, e: Entry, l3: Luck)
    requires Published(None, Client(id)) in s.tasks && s.deferred.None? && !s.recheck
    requires Exposed(s) != {} && !l.mode && l3.newer && l3.write && e != Live(s.disk.value)
    ensures var s1 := Do(s, Handle(Published(None, Client(id)), false, o, l, l2));
            && !s1.leased && !s1.writable && s1.disk == s.disk
            && !Kept(Do(s1, RemoteApply(e, l3)), s.disk.value)
  {
    var s1 := Do(s, Handle(Published(None, Client(id)), false, o, l, l2));
    assert s1.disk == s.disk && s1.quarantine == s.quarantine && s1.committed == s.committed && !s1.writable;
    assert !Safe(Seen(s1, e), s.disk.value);
  }

  /** Nor is it kept across a restart: an edit of the same size goes unnoticed, the file is made read-only
      all the same, and the next remote version destroys it although copies succeed. */
  lemma OfflineEditThenRemote(s: State, b: Bytes, mode: bool, l: Luck, e: Entry, l3: Luck)
    requires s.index.Some? && s.index.value.Live? && !Safe(s, b) && !l.mode
    requires l3.newer && l3.write && e != Live(b)
    ensures var s1 := Do(Do(s, UserWrite(b, mode)), Restart(true, l));
            && s1.disk == Some(b) && !s1.writable && !s1.busy
            && !Kept(Do(s1, RemoteApply(e, l3)), b)
  {
    var s1 := Do(Do(s, UserWrite(b, mode)), Restart(true, l));
    assert s1.disk == Some(b) && s1.quarantine == s.quarantine && s1.committed == s.committed && !s1.writable;
    assert !Safe(Seen(s1, e), b);
  }

  // ---------- failed copies ----------

  /** The task reverts a file whose copy failed. */
  predicate CopyFailed(t: Task) {
    (t.Staged? && t.required && t.copied.None?) || (t.Ready? && t.copied.None?)
  }

  /** A revert whose copy failed is skipped, but clearing the busy mark applies the version deferred
      behind it: the bytes stay exactly when none is, or the file can be copied for it. An autolock
      whose request goes out leaves the mark and the file alone. */
  lemma FailedCopyExactly(s: State, t: Task, ok: bool, o: Outcome, l: Luck, l2: Luck, b: Bytes)
    requires Enabled(s, Handle(t, ok, o, l, l2)) && CopyFailed(t) && s.disk == Some(b) && !Safe(s, b)
    requires s.deferred.Some? ==> Recorded(s, ContentOf(s.deferred.value))
    ensures Kept(Do(s, Handle(t, ok, o, l, l2)), b)
            <==> !((t.Staged? || !o.Requested?) && s.deferred.Some? && Unguarded(s.writable, l2))
  {
    var s0 := Taken(s, t);
    if t.Staged? { UnbusyLosesExactly(s0, l2, b); } else { FailedReadyExactly(s0, t, ok, o, l, l2, b); }
  }

  lemma FailedReadyExactly(s: State, t: Task, ok: bool, o: Outcome, l: Luck, l2: Luck, b: Bytes)
    requires t.Ready? && t.copied.None? && s.disk == Some(b) && !Safe(s, b)
    requires s.deferred.Some? ==> Recorded(s, ContentOf(s.deferred.value))
    ensures Kept(DoHandle(s, t, ok, o, l, l2), b)
            <==> !(!o.Requested? && s.deferred.Some? && Unguarded(s.writable, l2))
  {
    if !o.Requested? { UnbusyLosesExactly(s.(busy := o.StartFails?, autolock := None), l2, b); }
  }

  lemma UnbusyLosesExactly(s: State, l: Luck, b: Bytes)
    requires s.disk == Some(b) && !Safe(s, b) && (s.deferred.Some? ==> Recorded(s, ContentOf(s.deferred.value)))
    ensures Kept(Unbusy(s, l), b) <==> !(s.deferred.Some? && Unguarded(s.writable, l))
  {
    var s1 := s.(busy := false);
    if s1.deferred.Some? {
      var s0 := s1.(deferred := None);
      FileLosesExactly(s0, s1.deferred.value, l, b);
      assert Kept(Unbusy(s, l), b) == Kept(ApplyRemote(s0, s1.deferred.value, l), b);
    }
  }

  lemma FileLosesExactly(s: State, e: Entry, l: Luck, b: Bytes)
    requires s.disk == Some(b) && !Safe(s, b) && Recorded(s, ContentOf(e))
    ensures Kept(ApplyRemote(s, e, l), b) <==> !Unguarded(s.writable, l)
  {
    BareMeans(s, l);
    ReplaceLosesExactly(if s.writable then Copied(s, l) else s, e, l);
    if l.newer && !l.write && s.writable { assert Copied(s, l).disk == s.disk; }
  }

  /** One such loss, from a state the daemon can be in: the revert's copy failed, a version is
      deferred, and its copy fails too. */
  lemma FailedCopyLoses(indexed: Bytes, mine: Bytes, theirs: Bytes, l: Luck) returns (s: State, t: Task)
    requires indexed != mine && mine != theirs && mine != EMPTY && l.newer && l.write && !l.copy
    ensures Inv(s) && t in s.tasks && t.Staged? && CopyFailed(t) && s.disk == Some(mine) && s.writable && !s.leased
    ensures s.index == Some(Live(indexed)) && s.deferred == Some(Live(theirs))
    ensures !Kept(Do(s, Handle(t, true, Requested, l, l)), mine)
  {
    t := Staged(Some(indexed), None, true);
    s := State(Some(mine), true, Some(Live(indexed)), map[], false, true, Some(Live(theirs)), false, None,
               false, multiset{t}, {}, {indexed, theirs}, {});
    assert !Open(s);
    FailedCopyExactly(s, t, true, Requested, l, l, mine);
  }

  // ---------- writes inside a window ----------

  /** Every step is the daemon's own. */
  ghost predicate Own(steps: seq<Step>) {
    forall i :: 0 <= i < |steps| ==> steps[i].Work? || steps[i].Handle? || steps[i].AutolockLost?
  }

  /** What an open window is about to take: every armed task and every preserved autolock that has
      something to put in the file's place, or nothing to put there. */
  predicate Takes(s: State, t: Task) {
    match t
    case Staged(restore, _, _) => restore.Some?
    case Inspected(_, _) => !s.leased && s.index.Some?
    case Ready(_, newFile) => newFile || s.index.Some?
    case _ => true
  }

  ghost predicate Loaded(s: State) {
    || (exists t :: t in s.tasks && Armed(t) && Takes(s, t))
    || (s.autolock.Some? && s.waiting && s.autolock.value.0.Some? && (s.autolock.value.1 || s.index.Some?))
  }

  /** The bytes are on disk and nowhere else, and what the tasks carry is recorded. */
  ghost predicate Lone(s: State, b: Bytes) {
    s.disk == Some(b) && !Safe(s, b) && Grounded(s)
  }

  const LUCK := Luck(false, false, false, 0, true, true, true)

  lemma StagedTakes(s: State, t: Task, b: Bytes) returns (steps: seq<Step>, z: State)
    requires Lone(s, b) && t in s.tasks && t.Staged? && Armed(t) && Takes(s, t)
    ensures Leads(s, steps, z) && Own(steps) && !Kept(z, b)
  {
    var st := Handle(t, true, GuardFails, LUCK, LUCK);
    z := Do(s, st);
    assert TaskOk(s, t);
    StagedTaken(s, t);
    First(s, st, [], z);
    steps := [st] + [];
  }

  lemma StagedTaken(s: State, t: Task)
    requires t in s.tasks && t.Staged? && Armed(t) && Takes(s, t)
    ensures var z := Do(s, Handle(t, true, GuardFails, LUCK, LUCK));
            z.disk == t.restore && z.quarantine == s.quarantine && z.committed == s.committed
  {
    var s1 := Taken(s, t).(disk := t.restore, writable := true);
    assert DoHandle(Taken(s, t), t, true, GuardFails, LUCK, LUCK) == Unbusy(s1, LUCK);
    NotNewer(s1);
  }

  lemma NotNewer(s: State)
    ensures var z := Unbusy(s, LUCK);
            z.disk == s.disk && z.quarantine == s.quarantine && z.committed == s.committed
  {
  }

  lemma ViolatingTakes(s: State, t: Task, b: Bytes) returns (steps: seq<Step>, z: State)
    requires Lone(s, b) && t in s.tasks && t.Violating? && Armed(t)
    ensures Leads(s, steps, z) && Own(steps) && !Kept(z, b)
  {
    var st := Work(t, true, LUCK);
    var s1 := Do(s, st);
    var u := Staged(Some(t.content), None, false);
    assert TaskOk(s, t);
    assert s1 == Add(Taken(s, t), u);
    AddLone(s, t, u, b);
    var rest;
    rest, z := StagedTakes(s1, u, b);
    First(s, st, rest, z);
    steps := [st] + rest;
  }

  lemma AddLone(s: State, t: Task, u: Task, b: Bytes)
    requires Lone(s, b) && TaskOk(s, u)
    ensures Lone(Add(Taken(s, t), u), b) && u in Add(Taken(s, t), u).tasks
  {
    var s1 := Add(Taken(s, t), u);
    forall v | v in s1.tasks ensures TaskOk(s1, v) { assert v in s.tasks || v == u; assert TaskOk(s, v); }
  }

  lemma InspectedTakes(s: State, t: Task, b: Bytes) returns (steps: seq<Step>, z: State)
    requires Lone(s, b) && t in s.tasks && t.Inspected? && Armed(t) && Takes(s, t)
    ensures Leads(s, steps, z) && Own(steps) && !Kept(z, b)
  {
    var st := Handle(t, true, GuardFails, LUCK, LUCK);
    var u := Violating(ContentOf(s.index.value), false);
    var s1 := Do(s, st);
    assert s1 == Add(Taken(s, t), u).(busy := true);
    AddLone(s, t, u, b);
    assert forall v :: TaskOk(Add(Taken(s, t), u), v) ==> TaskOk(s1, v);
    var rest;
    rest, z := ViolatingTakes(s1, u, b);
    First(s, st, rest, z);
    steps := [st] + rest;
  }

  lemma FailedAutolockTakes(s: State, copied: Bytes, newFile: bool, b: Bytes) returns (steps: seq<Step>, z: State)
    requires Lone(s, b) && (newFile || s.index.Some?)
    ensures Leads(AutolockFail(s, Some(copied), newFile, true, LUCK, LUCK), steps, z) && Own(steps) && !Kept(z, b)
  {
    if newFile {
      RemovalTakes(s, copied, b);
      steps, z := [], AutolockFail(s, Some(copied), newFile, true, LUCK, LUCK);
    } else {
      var u := RestoreStaged(s, copied, b);
      steps, z := StagedTakes(Add(s.(autolock := None), u), u, b);
    }
  }

  lemma RemovalTakes(s: State, copied: Bytes, b: Bytes)
    requires Lone(s, b)
    ensures !Kept(AutolockFail(s, Some(copied), true, true, LUCK, LUCK), b)
  {
    var s1 := AutolockFail(s, Some(copied), true, true, LUCK, LUCK);
    assert s1.disk == None && s1.quarantine == s.quarantine && s1.committed == s.committed;
  }

  lemma RestoreStaged(s: State, copied: Bytes, b: Bytes) returns (u: Task)
    requires Lone(s, b) && s.index.Some?
    ensures u.Staged? && Armed(u) && Takes(s, u)
    ensures var s1 := Add(s.(autolock := None), u);
            && s1 == AutolockFail(s, Some(copied), false, true, LUCK, LUCK)
            && Lone(s1, b) && u in s1.tasks
  {
    u := Staged(Some(ContentOf(s.index.value)), Some(copied), true);
    var s0 := s.(autolock := None);
    var s1 := Add(s0, u);
    forall v | v in s1.tasks ensures TaskOk(s1, v) {
      assert v in s.tasks || v == u;
      assert TaskOk(s, u) && (v != u ==> TaskOk(s, v));
    }
  }

  lemma ReadyTakes(s: State, t: Task, b: Bytes) returns (steps: seq<Step>, z: State)
    requires Lone(s, b) && t in s.tasks && t.Ready? && Armed(t) && Takes(s, t)
    ensures Leads(s, steps, z) && Own(steps) && !Kept(z, b)
  {
    var st := Handle(t, true, GuardFails, LUCK, LUCK);
    var s0 := Taken(s, t).(busy := false);
    forall v | v in s0.tasks ensures TaskOk(s0, v) { assert v in s.tasks; assert TaskOk(s, v); }
    var rest;
    rest, z := FailedAutolockTakes(s0, t.copied.value, t.newFile, b);
    First(s, st, rest, z);
    steps := [st] + rest;
  }

  lemma AutolockTakes(s: State, b: Bytes) returns (steps: seq<Step>, z: State)
    requires Lone(s, b) && s.autolock.Some? && s.waiting && s.autolock.value.0.Some?
    requires s.autolock.value.1 || s.index.Some?
    ensures Leads(s, steps, z) && Own(steps) && !Kept(z, b)
  {
    var st := AutolockLost(true, LUCK, LUCK);
    var s1 := s.(waiting := false);
    forall t | t in s1.tasks ensures TaskOk(s1, t) { assert TaskOk(s, t); }
    var rest;
    rest, z := FailedAutolockTakes(s1, s.autolock.value.0.value, s.autolock.value.1, b);
    First(s, st, rest, z);
    steps := [st] + rest;
  }

  /** Why the user may not write inside a window: whichever kind is open, the daemon may go on to
      destroy the new bytes by steps of its own, copying nothing. */
  lemma WindowWriteIsLost(s: State, b: Bytes, mode: bool) returns (steps: seq<Step>, z: State)
    requires Inv(s) && Loaded(s) && !Safe(s, b)
    ensures Leads(Do(s, UserWrite(b, mode)), steps, z) && Own(steps) && !Kept(z, b)
  {
    var s1 := Do(s, UserWrite(b, mode));
    UserWriteLone(s, b, mode);
    if t :| t in s.tasks && Armed(t) && Takes(s, t) {
      assert Takes(s1, t);
      match t
      case Staged(_, _, _) => steps, z := StagedTakes(s1, t, b);
      case Violating(_, _) => steps, z := ViolatingTakes(s1, t, b);
      case Inspected(_, _) => steps, z := InspectedTakes(s1, t, b);
      case Ready(_, _) => steps, z := ReadyTakes(s1, t, b);
    } else {
      steps, z := AutolockTakes(s1, b);
    }
  }

  lemma UserWriteLone(s: State, b: Bytes, mode: bool)
    requires Inv(s) && !Safe(s, b)
    ensures Lone(Do(s, UserWrite(b, mode)), b)
  {
    var s1 := Do(s, UserWrite(b, mode));
    forall c: Bytes | Accounted(s, c) ensures Accounted(s1, c) {
      if s.disk == Some(c) { assert Safe(s, c) || c in Exposed(s); }
    }
    forall t | t in s1.tasks ensures TaskOk(s1, t) { assert TaskOk(s, t); }
  }
}
