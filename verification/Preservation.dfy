/** What the daemon does to one path of the working tree: inspection, publishing, reverting
    un-leased edits, autolock, remote versions, restores and conflict resolution, interleaved
    with the user's own writes and with restarts. Work off the actor is a task in flight until
    the actor handles its event. */
module Preservation {
  import opened Common

  /** The identity of a file's content; `EMPTY` is the file with no bytes. */
  type Bytes = nat

  const EMPTY: Bytes := 0

  /** The name of a quarantined copy. Copies of one path differ only in the instant it begins with. */
  type Name = nat

  /** An index entry. */
  datatype Entry = Live(bytes: Bytes) | Tombstone

  /** What comparing the disk with an index entry shows. */
  datatype Look = Clean | Differs | Missing | Unindexed | Failed

  /** Who is waiting: the watcher, or a client that asked to unlock. */
  datatype Cause = Watcher | Client(id: nat)

  datatype Task =
    // the comparison, before and after it read the disk
    | Inspecting(entry: Option<Entry>, cause: Cause)
    | Inspected(look: Look, cause: Cause)
    // reading the file for a publish, before and after
    | Publishing(cause: Cause)
    | Published(result: Option<Bytes>, cause: Cause)
    // reverting: the copy is still to be made, or the restore is staged
    | Violating(content: Bytes, first: bool)
    | Staged(restore: Option<Bytes>, copied: Option<Bytes>, required: bool)
    // autolock: the copy is still to be made, or made
    | Preserving(newFile: bool)
    | Ready(copied: Option<Bytes>, newFile: bool)
    // bytes staged under the lease: a conflict resolution, a version from the history
    | Applying(bytes: Bytes, client: nat)
    | Restoring(bytes: Bytes)

  datatype Reply = Applied(client: nat, ok: bool) | Unlocked(client: nat, ok: bool)

  datatype State = State(
    disk: Option<Bytes>,
    writable: bool,
    index: Option<Entry>,
    quarantine: map<Name, Bytes>,
    leased: bool,
    busy: bool,
    deferred: Option<Entry>,
    recheck: bool,
    autolock: Option<(Option<Bytes>, bool)>,
    // a lock request of this node for the path is pending
    waiting: bool,
    tasks: multiset<Task>,
    replies: set<Reply>,
    // history: contents of all records seen, and contents whose last copy was given up
    committed: set<Bytes>,
    gone: set<Bytes>)

  /** How the file system and the causality check turn out for one replacement of the file:
      `newer` the version is still the newer one, `copy` the quarantine copy succeeds, `torn` it fails after
      its file was opened, `name` the name it is filed under, `write` the file is replaced, `settle` its
      permissions could be set, `mode` the write permission left behind. */
  datatype Luck = Luck(
    newer: bool,
    copy: bool,
    torn: bool,
    name: Name,
    write: bool,
    settle: bool,
    mode: bool)

  /** A content some record carries. */
  predicate Recorded(s: State, b: Bytes) { b in s.committed || b == EMPTY }

  predicate Holds(copies: map<Name, Bytes>, b: Bytes) { exists n :: n in copies && copies[n] == b }

  predicate Filed(s: State, b: Bytes) { Holds(s.quarantine, b) }

  predicate Safe(s: State, b: Bytes) { Recorded(s, b) || Filed(s, b) }

  /** The bytes that only the working tree holds. */
  function Exposed(s: State): set<Bytes> {
    if s.disk.Some? && !Safe(s, s.disk.value) then {s.disk.value} else {}
  }

  // ---------- the handlers ----------

  function ContentOf(e: Entry): Bytes {
    match e case Live(b) => b case Tombstone => EMPTY
  }

  function Examine(entry: Option<Entry>, disk: Option<Bytes>): Look {
    if entry.None? || entry.value.Tombstone? then (if disk.Some? then Unindexed else Clean)
    else if disk.None? then Missing
    else if disk.value == entry.value.bytes then Clean
    else Differs
  }

  /** A copy of the file into quarantine; it fails when there is no file. */
  predicate CopyMade(s: State, ok: bool) { ok && s.disk.Some? }

  /** A copy under a name already taken replaces the earlier copy, whose bytes may be the last; so does
      one that fails after it emptied the file it was to fill. */
  function Copied(s: State, l: Luck): State {
    Refiled(s, l.name, Copies(s, l))
  }

  function Copies(s: State, l: Luck): map<Name, Bytes> {
    if s.disk.None? || (!l.copy && !l.torn) then s.quarantine
    else s.quarantine[l.name := if l.copy then s.disk.value else EMPTY]
  }

  /** The copies become `copies`, which differ at `n`: what only that copy held is given up. */
  function Refiled(s: State, n: Name, copies: map<Name, Bytes>): State {
    s.(quarantine := copies, gone := s.gone + Displaced(s, n, copies))
  }

  function Displaced(s: State, n: Name, copies: map<Name, Bytes>): set<Bytes> {
    if n in s.quarantine && !Recorded(s, s.quarantine[n]) && !Holds(copies, s.quarantine[n])
    then {s.quarantine[n]} else {}
  }

  function Add(s: State, t: Task): State {
    s.(tasks := s.tasks + multiset{t})
  }

  function Spawn(s: State, t: Task): State {
    Add(s.(busy := true), t)
  }

  /** A remote version replaces the file. Only a writable file is copied first, and a failed
      copy does not stop the replacement: what is then on disk is given up. */
  function ApplyRemote(s: State, e: Entry, l: Luck): State {
    if !l.newer then s else Replace(if s.writable then Copied(s, l) else s, e, l)
  }

  function Replace(s: State, e: Entry, l: Luck): State {
    s.(disk := if !l.write then s.disk else if e.Live? then Some(e.bytes) else None,
       writable := l.mode,
       index := if l.write && l.settle then Some(e) else s.index,
       gone := if l.write then s.gone + Exposed(s) else s.gone)
  }

  function Unbusy(s: State, l: Luck): State {
    var s1 := s.(busy := false);
    var s2 := if s1.deferred.Some? then ApplyRemote(s1.(deferred := None), s1.deferred.value, l) else s1;
    if s2.recheck then Spawn(s2.(recheck := false), Inspecting(s2.index, Watcher)) else s2
  }

  function Answer(s: State, r: Reply): State {
    s.(replies := s.replies + {r})
  }

  function CommitTombstone(s: State): State {
    if s.index.Some? && s.index.value.Live? then s.(index := Some(Tombstone)) else s
  }

  function FinishUnlock(s: State, client: nat, ok: bool, l: Luck): State {
    Answer(s.(leased := false, writable := l.mode), Unlocked(client, ok))
  }

  function SpawnViolation(s: State, first: bool, l2: Luck): State {
    if s.index.None? then Unbusy(s, l2) else Spawn(s, Violating(ContentOf(s.index.value), first))
  }

  /** A new file without a lease: copied, then removed; without a copy it stays. */
  function RemoveNewFile(s: State, l: Luck): State {
    Copied(s, l).(writable := if CopyMade(s, l.copy) then l.mode else s.writable,
                  disk := if CopyMade(s, l.copy) && l.write then None else s.disk)
  }

  /** `eligible` is whether autolock may try for the lease; `l2` serves a deferred apply. */
  function OnInspected(s: State, look: Look, cause: Cause, eligible: bool, l: Luck, l2: Luck): State {
    match cause
    case Client(id) =>
      (match look
       case Failed => Unbusy(Answer(s, Unlocked(id, false)), l2)
       case Clean => FinishUnlock(Unbusy(s, l2), id, true, l)
       case Missing => FinishUnlock(Unbusy(CommitTombstone(s), l2), id, true, l)
       case _ => Spawn(s, Publishing(cause)))
    case Watcher =>
      if look.Failed? || look.Clean? then Unbusy(s, l2)
      else if s.leased then
        if look.Missing? then Unbusy(CommitTombstone(s), l2) else Spawn(s, Publishing(cause))
      else if look.Missing? then SpawnViolation(s, false, l2)
      else if eligible && s.autolock.None? then Spawn(s, Preserving(look.Unindexed?))
      else if look.Differs? then SpawnViolation(s, true, l2)
      else Unbusy(RemoveNewFile(s, l), l2)
  }

  function OnPublished(s: State, result: Option<Bytes>, cause: Cause, l: Luck, l2: Luck): State {
    var ok := result.Some? && s.leased;
    var s1 := if result.None? && cause.Watcher? then s.(recheck := true) else s;
    var s2 := if ok then s1.(index := Some(Live(result.value)), committed := s1.committed + {result.value}) else s1;
    match cause
    case Client(id) => FinishUnlock(Unbusy(s2, l2), id, ok, l)
    case Watcher => Unbusy(s2, l2)
  }

  /** The staged restore: never over bytes that should have been preserved and were not. */
  function OnStaged(s: State, restore: Option<Bytes>, copied: Option<Bytes>, required: bool, l: Luck, l2: Luck): State {
    if (required && copied.None?) || restore.None? then Unbusy(s, l2)
    else if l.write then Unbusy(s.(disk := restore, writable := l.mode), l2)
    else Unbusy(s.(writable := l.mode), l2)
  }

  /** `staged` is whether the indexed version could be materialized. */
  function AutolockFail(s: State, copied: Option<Bytes>, newFile: bool, staged: bool, l: Luck, l2: Luck): State {
    var s1 := s.(autolock := None);
    if copied.None? then Unbusy(s1, l2)
    else if newFile then Unbusy(if l.write then s1.(disk := None) else s1.(writable := l.mode), l2)
    else if s1.index.None? then Unbusy(s1, l2)
    else Add(s1, Staged(if staged then Some(ContentOf(s1.index.value)) else None, copied, true))
  }

  /** How the acquire of an autolock begins: a precondition fails, the lock table refuses, or the
      request goes out. */
  datatype Outcome = GuardFails | StartFails | Requested

  function OnReady(s: State, copied: Option<Bytes>, newFile: bool, o: Outcome, staged: bool, l: Luck, l2: Luck): State {
    match o
    case GuardFails => AutolockFail(s.(busy := false), copied, newFile, staged, l, l2)
    case StartFails => AutolockFail(s.(busy := true), copied, newFile, staged, l, l2)
    case Requested => s.(busy := true, autolock := Some((copied, newFile)), waiting := true)
  }

  /** The file is overwritten under the lease, as the user asked: what it held is given up. */
  function Overwritten(s: State, b: Bytes): State {
    s.(disk := Some(b), writable := true, gone := s.gone + Exposed(s))
  }

  function OnApplied(s: State, bytes: Bytes, client: nat, ok: bool, l: Luck, l2: Luck): State {
    if !ok || !s.leased then Answer(Unbusy(s, l2), Applied(client, false))
    else if !l.write then Answer(Unbusy(s.(writable := l.mode), l2), Applied(client, false))
    else Answer(Unbusy(Overwritten(s, bytes), l2), Applied(client, true))
  }

  function OnRestored(s: State, bytes: Bytes, ok: bool, l: Luck, l2: Luck): State {
    if !ok || !s.leased then Unbusy(s, l2)
    else if !l.write then Unbusy(s.(writable := l.mode), l2)
    else Unbusy(Overwritten(s, bytes).(index := Some(Live(bytes))), l2)
  }

  /** The last voter granted the pending request: a plain one just gets the lease, an autolock goes on to
      publish what it found. */
  function OnGranted(s: State): State {
    var s1 := s.(leased := true, writable := true, waiting := false);
    if s.autolock.Some? then Spawn(s1.(autolock := None), Publishing(Watcher)) else s1
  }

  /** The daemon is gone and comes back: only the disk, the quarantine and the index survive, and an
      indexed file gets the session's permission, whatever it holds by now. */
  function Rebooted(s: State, l: Luck): State {
    Forgotten(s.(writable := if s.index.Some? && s.index.value.Live? then l.mode else s.writable))
  }

  function Forgotten(s: State): State {
    s.(leased := false, busy := false, deferred := None, recheck := false, autolock := None, waiting := false,
       tasks := multiset{}, replies := {})
  }

  /** The startup comparison looks at sizes, so an edit that keeps the size goes unnoticed. */
  function OnRestart(s: State, sameSize: bool, l: Luck): State {
    var s1 := Rebooted(s, l);
    if s.index.None? || s.index.value.Tombstone? then RemoveNewFile(s1, l)
    else if s.disk.None? then Spawn(s1, Violating(s.index.value.bytes, false))
    else if s.disk.value != s.index.value.bytes && !sameSize then Spawn(s1, Violating(s.index.value.bytes, true))
    else s1
  }

  // ---------- the machine ----------

  datatype Step =
    | UserWrite(bytes: Bytes, mode: bool)
    | UserDelete
    | Watch
    | Restart(sameSize: bool, l: Luck)
    | Work(task: Task, ok: bool, l: Luck)
    | Handle(task: Task, ok: bool, outcome: Outcome, l: Luck, l2: Luck)
    | RemoteApply(entry: Entry, l: Luck)
    | ConcurrentSeen(l: Luck)
    | AskLock
    | Grant
    | RequestLost
    | VoterGone
    | AutolockLost(ok: bool, l: Luck, l2: Luck)
    | LeaseLost(mode: bool)
    | AskUnlock(client: nat)
    | AskApply(name: Name, client: nat)
    | AskRestore(bytes: Bytes)
    | Discard(name: Name)

  predicate Background(t: Task) {
    t.Inspecting? || t.Publishing? || t.Violating? || t.Preserving?
  }

  predicate Enabled(s: State, st: Step) {
    match st
    case Work(t, _, _) => t in s.tasks && Background(t)
    case Handle(t, _, o, _, _) =>
      t in s.tasks && !Background(t) && (t.Ready? && o.Requested? ==> !s.waiting && !s.leased)
    case AskLock => !s.busy && !s.waiting && !s.leased && s.deferred.None?
    case Grant => s.waiting
    case RequestLost => s.waiting && s.autolock.None?
    case VoterGone => s.waiting
    case AutolockLost(_, _, _) => s.autolock.Some? && s.waiting
    case AskUnlock(_) => s.leased && !s.busy
    case AskApply(n, _) =>
      n in s.quarantine && s.leased && !s.busy
      && (s.disk.Some? ==> s.index.Some? && s.index.value.Live?)
    case AskRestore(b) => b in s.committed && s.leased && !s.busy
    case Discard(n) => n in s.quarantine
    case _ => true
  }

  /** One pass of a background task. */
  function DoWork(s: State, t: Task, ok: bool, l: Luck): State {
    match t
    case Inspecting(entry, cause) => Add(s, Inspected(if ok then Examine(entry, s.disk) else Failed, cause))
    case Publishing(cause) => Add(s, Published(if ok then s.disk else None, cause))
    case Violating(restore, first) =>
      var s1 := if first then Copied(s, l) else s;
      var copied := if first && CopyMade(s, l.copy) then s.disk else None;
      Add(s1, Staged(if ok then Some(restore) else None, copied, first))
    case Preserving(newFile) => Add(Copied(s, l), Ready(if CopyMade(s, l.copy) then s.disk else None, newFile))
    case _ => s
  }

  function DoHandle(s: State, t: Task, ok: bool, o: Outcome, l: Luck, l2: Luck): State {
    match t
    case Inspected(look, cause) => OnInspected(s, look, cause, ok, l, l2)
    case Published(result, cause) => OnPublished(s, result, cause, l, l2)
    case Staged(restore, copied, required) => OnStaged(s, restore, copied, required, l, l2)
    case Ready(copied, newFile) => OnReady(s, copied, newFile, o, ok, l, l2)
    case Applying(bytes, client) => OnApplied(s, bytes, client, ok, l, l2)
    case Restoring(bytes) => OnRestored(s, bytes, ok, l, l2)
    case _ => s
  }

  function Taken(s: State, t: Task): State {
    s.(tasks := s.tasks - multiset{t})
  }

  function Seen(s: State, e: Entry): State {
    if e.Live? then s.(committed := s.committed + {e.bytes}) else s
  }

  function Do(s: State, st: Step): State
    requires Enabled(s, st)
  {
    match st
    case UserWrite(b, mode) => s.(disk := Some(b), writable := mode, gone := s.gone + Exposed(s) - {b})
    case UserDelete => s.(disk := None, gone := s.gone + Exposed(s))
    case Watch => if s.busy then s.(recheck := true) else Spawn(s, Inspecting(s.index, Watcher))
    case Restart(sameSize, l) => OnRestart(s, sameSize, l)
    case Work(t, ok, l) => DoWork(Taken(s, t), t, ok, l)
    case Handle(t, ok, o, l, l2) => DoHandle(Taken(s, t), t, ok, o, l, l2)
    case RemoteApply(e, l) => if s.busy then Seen(s, e).(deferred := Some(e)) else ApplyRemote(Seen(s, e), e, l)
    case ConcurrentSeen(l) => Copied(s, l)
    case AskLock => s.(waiting := true)
    case Grant => OnGranted(s)
    case RequestLost => s.(waiting := false)
    case VoterGone => s.(waiting := false)
    case AutolockLost(staged, l, l2) =>
      AutolockFail(s.(waiting := false), s.autolock.value.0, s.autolock.value.1, staged, l, l2)
    case LeaseLost(mode) => s.(leased := false, writable := mode)
    case AskUnlock(id) => Spawn(s, Inspecting(s.index, Client(id)))
    case AskApply(n, id) => Spawn(s, Applying(s.quarantine[n], id))
    case AskRestore(b) => Spawn(s, Restoring(b))
    case Discard(n) => Refiled(s, n, s.quarantine - {n})
  }

  // ---------- what is never lost ----------

  predicate Kept(s: State, b: Bytes) { Safe(s, b) || s.disk == Some(b) }

  predicate Accounted(s: State, b: Bytes) { Kept(s, b) || b in s.gone }

  /** The task may take the file's present bytes away without copying them again. */
  predicate Armed(t: Task) {
    match t
    case Inspected(look, cause) => look.Missing? && cause.Watcher?
    case Violating(_, first) => !first
    case Staged(_, copied, required) => copied.Some? || !required
    case Ready(copied, _) => copied.Some?
    case _ => false
  }

  /** Some copy-to-restore window is open. */
  ghost predicate Open(s: State) {
    (s.autolock.Some? && s.autolock.value.0.Some?) || exists t :: t in s.tasks && Armed(t)
  }

  predicate TaskOk(s: State, t: Task) {
    match t
    case Inspecting(entry, _) => entry.Some? ==> Recorded(s, ContentOf(entry.value))
    case Violating(b, _) => Recorded(s, b)
    case Staged(restore, _, _) => restore.Some? ==> Recorded(s, restore.value)
    case Applying(b, _) => Accounted(s, b)
    case Restoring(b) => Recorded(s, b)
    case _ => true
  }

  ghost predicate Covered(s: State) {
    Exposed(s) <= s.gone
  }

  ghost predicate Grounded(s: State) {
    && (s.index.Some? ==> Recorded(s, ContentOf(s.index.value)))
    && (s.deferred.Some? ==> Recorded(s, ContentOf(s.deferred.value)))
    && forall t :: t in s.tasks ==> TaskOk(s, t)
  }

  ghost predicate Inv(s: State) {
    Grounded(s) && (Open(s) ==> Covered(s))
  }

  /** The user does not write inside a copy-to-restore window. */
  ghost predicate Polite(s: State, st: Step) {
    st.UserWrite? ==> !Open(s)
  }

  /** What one handler may do to a state: nothing accounted for is lost, and the invariant stays. */
  ghost predicate Careful(s: State, s': State) {
    (forall b :: Accounted(s, b) ==> Accounted(s', b)) && Inv(s')
  }

  /** `s'` accounts for all that `s` does, and its own file and index are recorded. */
  ghost predicate Extends(s: State, s': State) {
    && s.committed <= s'.committed
    && (forall b :: Accounted(s, b) ==> Accounted(s', b))
    && (s'.index.Some? ==> Recorded(s', ContentOf(s'.index.value)))
    && (s'.deferred.Some? ==> Recorded(s', ContentOf(s'.deferred.value)))
  }

  lemma SameTasks(s: State, s': State)
    requires s'.tasks == s.tasks && s'.autolock == s.autolock
    requires Inv(s) && Extends(s, s') && (Open(s) ==> Covered(s'))
    ensures Careful(s, s')
  {
    forall t | t in s'.tasks ensures TaskOk(s', t) { assert TaskOk(s, t); }
  }

  lemma ReplaceCareful(s: State, e: Entry, l: Luck)
    requires Inv(s) && Recorded(s, ContentOf(e))
    ensures Careful(s, Replace(s, e, l))
  {
    var s' := Replace(s, e, l);
    forall b: Bytes | Accounted(s, b) ensures Accounted(s', b) {
      if s.disk == Some(b) { assert Safe(s, b) || b in Exposed(s); }
    }
    SameTasks(s, s');
  }

  lemma RefiledCareful(s: State, n: Name, copies: map<Name, Bytes>)
    requires Inv(s) && forall m :: m in s.quarantine && m != n ==> m in copies && copies[m] == s.quarantine[m]
    ensures Careful(s, Refiled(s, n, copies))
  {
    var s' := Refiled(s, n, copies);
    forall b: Bytes | Filed(s, b) ensures Filed(s', b) || Recorded(s, b) || b in s'.gone {
      var m :| m in s.quarantine && s.quarantine[m] == b;
      assert m != n ==> m in copies && copies[m] == b;
    }
    SameTasks(s, s');
  }

  lemma CopiedCareful(s: State, l: Luck)
    requires Inv(s)
    ensures Careful(s, Copied(s, l)) && (CopyMade(s, l.copy) ==> Covered(Copied(s, l)))
  {
    RefiledCareful(s, l.name, Copies(s, l));
    if s.disk.Some? && (l.copy || l.torn) { FiledUnder(Copied(s, l), l.name); }
  }

  lemma FiledUnder(s: State, n: Name)
    requires n in s.quarantine
    ensures Filed(s, s.quarantine[n])
  {
  }

  lemma ApplyRemoteCareful(s: State, e: Entry, l: Luck)
    requires Inv(s) && Recorded(s, ContentOf(e))
    ensures Careful(s, ApplyRemote(s, e, l))
  {
    CopiedCareful(s, l);
    ReplaceCareful(if s.writable then Copied(s, l) else s, e, l);
    SameTasks(s, s);
  }

  /** A task that is not armed may join, an armed one only over a covered file. */
  lemma AddKeeps(s: State, t: Task)
    requires Inv(s) && TaskOk(s, t) && (Armed(t) ==> Covered(s))
    ensures Careful(s, Add(s, t))
  {
    var s' := Add(s, t);
    forall u | u in s'.tasks ensures TaskOk(s', u) { assert u in s.tasks || u == t; assert TaskOk(s, u); }
    if Open(s') && !Open(s) {
      assert exists u :: u in s'.tasks && Armed(u);
      assert Armed(t);
    }
    assert Covered(s) ==> Covered(s');
  }

  lemma SpawnKeeps(s: State, t: Task)
    requires Inv(s) && TaskOk(s, t) && (Armed(t) ==> Covered(s))
    ensures Careful(s, Spawn(s, t))
  {
    AddKeeps(s, t);
    SameTasks(Add(s, t), Spawn(s, t));
  }

  lemma UnbusyCareful(s: State, l: Luck)
    requires Inv(s)
    ensures Careful(s, Unbusy(s, l))
  {
    var s1 := s.(busy := false);
    SameTasks(s, s1);
    DeferredCareful(s1, l);
    Recheck(if s1.deferred.Some? then ApplyRemote(s1.(deferred := None), s1.deferred.value, l) else s1);
  }

  lemma DeferredCareful(s: State, l: Luck)
    requires Inv(s)
    ensures Careful(s, if s.deferred.Some? then ApplyRemote(s.(deferred := None), s.deferred.value, l) else s)
  {
    if s.deferred.Some? {
      SameTasks(s, s.(deferred := None));
      ApplyRemoteCareful(s.(deferred := None), s.deferred.value, l);
    }
  }

  lemma Recheck(s: State)
    requires Inv(s)
    ensures Careful(s, if s.recheck then Spawn(s.(recheck := false), Inspecting(s.index, Watcher)) else s)
  {
    if s.recheck {
      var s3 := s.(recheck := false);
      SameTasks(s, s3);
      SpawnKeeps(s3, Inspecting(s.index, Watcher));
    }
  }

  lemma ThenUnbusy(s: State, s1: State, l: Luck)
    requires s1.tasks == s.tasks && s1.autolock == s.autolock
    requires Inv(s) && Extends(s, s1) && (Open(s) ==> Covered(s1))
    ensures Careful(s, Unbusy(s1, l))
  {
    SameTasks(s, s1);
    UnbusyCareful(s1, l);
  }

  lemma TombstoneExtends(s: State)
    requires Inv(s)
    ensures Extends(s, CommitTombstone(s)) && (Open(s) ==> Covered(CommitTombstone(s)))
  {
  }

  lemma FinishUnlockCareful(s: State, client: nat, ok: bool, l: Luck)
    requires Inv(s)
    ensures Careful(s, FinishUnlock(s, client, ok, l))
  {
    SameTasks(s, FinishUnlock(s, client, ok, l));
  }

  lemma AnswerCareful(s: State, r: Reply)
    requires Inv(s)
    ensures Careful(s, Answer(s, r))
  {
    SameTasks(s, Answer(s, r));
  }

  lemma RemoveNewFileExtends(s: State, l: Luck)
    requires Inv(s)
    ensures Extends(s, RemoveNewFile(s, l)) && (Open(s) ==> Covered(RemoveNewFile(s, l)))
  {
    CopiedCareful(s, l);
    if CopyMade(s, l.copy) { FiledUnder(Copied(s, l), l.name); }
  }

  lemma OnInspectedCareful(s: State, look: Look, cause: Cause, eligible: bool, l: Luck, l2: Luck)
    requires Inv(s) && (Armed(Inspected(look, cause)) ==> Covered(s))
    ensures Careful(s, OnInspected(s, look, cause, eligible, l, l2))
  {
    match cause
    case Client(id) => UnlockInspected(s, look, id, eligible, l, l2);
    case Watcher => WatchInspected(s, look, eligible, l, l2);
  }

  lemma WatchInspected(s: State, look: Look, eligible: bool, l: Luck, l2: Luck)
    requires Inv(s) && (Armed(Inspected(look, Watcher)) ==> Covered(s))
    ensures Careful(s, OnInspected(s, look, Watcher, eligible, l, l2))
  {
    if look.Failed? || look.Clean? {
      UnbusyCareful(s, l2);
    } else if s.leased {
      TombstoneExtends(s);
      if look.Missing? { ThenUnbusy(s, CommitTombstone(s), l2); } else { SpawnKeeps(s, Publishing(Watcher)); }
    } else if look.Missing? {
      ViolationCareful(s, false, l2);
    } else if eligible && s.autolock.None? {
      SpawnKeeps(s, Preserving(look.Unindexed?));
    } else if look.Differs? {
      ViolationCareful(s, true, l2);
    } else {
      RemoveNewFileExtends(s, l);
      ThenUnbusy(s, RemoveNewFile(s, l), l2);
    }
  }

  lemma UnlockInspected(s: State, look: Look, id: nat, eligible: bool, l: Luck, l2: Luck)
    requires Inv(s)
    ensures Careful(s, OnInspected(s, look, Client(id), eligible, l, l2))
  {
    match look
    case Failed =>
      AnswerCareful(s, Unlocked(id, false));
      UnbusyCareful(Answer(s, Unlocked(id, false)), l2);
    case Clean =>
      UnbusyCareful(s, l2);
      FinishUnlockCareful(Unbusy(s, l2), id, true, l);
    case Missing =>
      TombstoneExtends(s);
      ThenUnbusy(s, CommitTombstone(s), l2);
      FinishUnlockCareful(Unbusy(CommitTombstone(s), l2), id, true, l);
    case _ => SpawnKeeps(s, Publishing(Client(id)));
  }

  lemma ViolationCareful(s: State, first: bool, l2: Luck)
    requires Inv(s) && (!first ==> Covered(s))
    ensures Careful(s, SpawnViolation(s, first, l2))
  {
    UnbusyCareful(s, l2);
    if s.index.Some? { SpawnKeeps(s, Violating(ContentOf(s.index.value), first)); }
  }

  lemma OnPublishedCareful(s: State, result: Option<Bytes>, cause: Cause, l: Luck, l2: Luck)
    requires Inv(s)
    ensures Careful(s, OnPublished(s, result, cause, l, l2))
  {
    var ok := result.Some? && s.leased;
    var s1 := if result.None? && cause.Watcher? then s.(recheck := true) else s;
    var s2 := if ok then s1.(index := Some(Live(result.value)), committed := s1.committed + {result.value}) else s1;
    ThenUnbusy(s, s2, l2);
    if cause.Client? { FinishUnlockCareful(Unbusy(s2, l2), cause.id, ok, l); }
  }

  lemma OnStagedCareful(s: State, restore: Option<Bytes>, copied: Option<Bytes>, required: bool, l: Luck, l2: Luck)
    requires Inv(s) && TaskOk(s, Staged(restore, copied, required))
    requires Armed(Staged(restore, copied, required)) ==> Covered(s)
    ensures Careful(s, OnStaged(s, restore, copied, required, l, l2))
  {
    if (required && copied.None?) || restore.None? {
      UnbusyCareful(s, l2);
    } else if l.write {
      ThenUnbusy(s, s.(disk := restore, writable := l.mode), l2);
    } else {
      ThenUnbusy(s, s.(writable := l.mode), l2);
    }
  }

  /** Ending an autolock leaves its window to the staged restore. */
  lemma AutolockFailCareful(s: State, copied: Option<Bytes>, newFile: bool, staged: bool, l: Luck, l2: Luck)
    requires Inv(s) && (copied.Some? ==> Covered(s))
    ensures Careful(s, AutolockFail(s, copied, newFile, staged, l, l2))
  {
    var s1 := s.(autolock := None);
    assert Careful(s, s1) by {
      forall t | t in s1.tasks ensures TaskOk(s1, t) { assert TaskOk(s, t); }
    }
    assert copied.Some? ==> Covered(s1);
    if copied.None? {
      UnbusyCareful(s1, l2);
    } else if newFile {
      var s2 := if l.write then s1.(disk := None) else s1.(writable := l.mode);
      ThenUnbusy(s1, s2, l2);
    } else if s1.index.None? {
      UnbusyCareful(s1, l2);
    } else {
      AddKeeps(s1, Staged(if staged then Some(ContentOf(s1.index.value)) else None, copied, true));
    }
  }

  lemma OnReadyCareful(s: State, copied: Option<Bytes>, newFile: bool, o: Outcome, staged: bool, l: Luck, l2: Luck)
    requires Inv(s) && (copied.Some? ==> Covered(s))
    ensures Careful(s, OnReady(s, copied, newFile, o, staged, l, l2))
  {
    match o
    case GuardFails =>
      SameTasks(s, s.(busy := false));
      AutolockFailCareful(s.(busy := false), copied, newFile, staged, l, l2);
    case StartFails =>
      SameTasks(s, s.(busy := true));
      AutolockFailCareful(s.(busy := true), copied, newFile, staged, l, l2);
    case Requested =>
      var s1 := s.(busy := true, autolock := Some((copied, newFile)));
      forall t | t in s1.tasks ensures TaskOk(s1, t) { assert TaskOk(s, t); }
      assert Covered(s) ==> Covered(s1);
  }

  lemma OverwrittenExtends(s: State, b: Bytes)
    requires Inv(s) && Accounted(s, b)
    ensures Extends(s, Overwritten(s, b)) && (Covered(s) ==> Covered(Overwritten(s, b)))
  {
    forall c: Bytes | Accounted(s, c) ensures Accounted(Overwritten(s, b), c) {
      if s.disk == Some(c) { assert Safe(s, c) || c in Exposed(s); }
    }
  }

  lemma OnAppliedCareful(s: State, b: Bytes, client: nat, ok: bool, l: Luck, l2: Luck)
    requires Inv(s) && Accounted(s, b)
    ensures Careful(s, OnApplied(s, b, client, ok, l, l2))
  {
    OverwrittenExtends(s, b);
    var s1 := if !ok || !s.leased then s else if !l.write then s.(writable := l.mode) else Overwritten(s, b);
    ThenUnbusy(s, s1, l2);
    AnswerCareful(Unbusy(s1, l2), Applied(client, ok && s.leased && l.write));
  }

  lemma OnRestoredCareful(s: State, b: Bytes, ok: bool, l: Luck, l2: Luck)
    requires Inv(s) && Recorded(s, b)
    ensures Careful(s, OnRestored(s, b, ok, l, l2))
  {
    OverwrittenExtends(s, b);
    var s1 :=
      if !ok || !s.leased then s else if !l.write then s.(writable := l.mode)
      else Overwritten(s, b).(index := Some(Live(b)));
    ThenUnbusy(s, s1, l2);
  }

  /** Taking an armed task off the table leaves the file covered. */
  lemma TakenKeeps(s: State, t: Task)
    requires Inv(s) && t in s.tasks
    ensures Careful(s, Taken(s, t)) && TaskOk(Taken(s, t), t) && (Armed(t) ==> Covered(Taken(s, t)))
  {
    var s' := Taken(s, t);
    forall u | u in s'.tasks ensures TaskOk(s', u) { assert u in s.tasks; assert TaskOk(s, u); }
    assert TaskOk(s, t);
    if Open(s') { assert Open(s); }
    assert Covered(s) ==> Covered(s');
  }

  lemma HandleCareful(s: State, t: Task, ok: bool, o: Outcome, l: Luck, l2: Luck)
    requires Inv(s) && TaskOk(s, t) && (Armed(t) ==> Covered(s))
    ensures Careful(s, DoHandle(s, t, ok, o, l, l2))
  {
    match t
    case Inspected(look, cause) => OnInspectedCareful(s, look, cause, ok, l, l2);
    case Published(result, cause) => OnPublishedCareful(s, result, cause, l, l2);
    case Staged(restore, copied, required) => OnStagedCareful(s, restore, copied, required, l, l2);
    case Ready(copied, newFile) => OnReadyCareful(s, copied, newFile, o, ok, l, l2);
    case Applying(bytes, client) => OnAppliedCareful(s, bytes, client, ok, l, l2);
    case Restoring(bytes) => OnRestoredCareful(s, bytes, ok, l, l2);
    case _ =>
  }

  /** A task is armed by its copy, or by finding no file. */
  lemma WorkCareful(s: State, t: Task, ok: bool, l: Luck)
    requires Inv(s) && TaskOk(s, t) && (Armed(t) ==> Covered(s))
    ensures Careful(s, DoWork(s, t, ok, l))
  {
    CopiedCareful(s, l);
    match t
    case Inspecting(entry, cause) =>
      AddKeeps(s, Inspected(if ok then Examine(entry, s.disk) else Failed, cause));
    case Publishing(cause) => AddKeeps(s, Published(if ok then s.disk else None, cause));
    case Violating(restore, first) =>
      var s1 := if first then Copied(s, l) else s;
      var copied := if first && CopyMade(s, l.copy) then s.disk else None;
      AddKeeps(s1, Staged(if ok then Some(restore) else None, copied, first));
    case Preserving(newFile) =>
      AddKeeps(Copied(s, l), Ready(if CopyMade(s, l.copy) then s.disk else None, newFile));
    case _ =>
  }

  lemma RestartCareful(s: State, sameSize: bool, l: Luck)
    requires Inv(s)
    ensures Careful(s, OnRestart(s, sameSize, l))
  {
    var s1 := Rebooted(s, l);
    assert Careful(s, s1);
    RemoveNewFileExtends(s1, l);
    SameTasks(s1, RemoveNewFile(s1, l));
    if s.index.Some? && s.index.value.Live? {
      SpawnKeeps(s1, Violating(s.index.value.bytes, true));
      if s.disk.None? { SpawnKeeps(s1, Violating(s.index.value.bytes, false)); }
    }
  }

  lemma UserWriteCareful(s: State, b: Bytes, mode: bool)
    requires Inv(s) && !Open(s)
    ensures Careful(s, Do(s, UserWrite(b, mode)))
  {
    var s' := Do(s, UserWrite(b, mode));
    forall c: Bytes | Accounted(s, c) ensures Accounted(s', c) {
      if s.disk == Some(c) { assert Safe(s, c) || c in Exposed(s); }
    }
    SameTasks(s, s');
  }

  lemma UserDeleteCareful(s: State)
    requires Inv(s)
    ensures Careful(s, Do(s, UserDelete))
  {
    var s' := Do(s, UserDelete);
    forall c: Bytes | Accounted(s, c) ensures Accounted(s', c) {
      if s.disk == Some(c) { assert Safe(s, c) || c in Exposed(s); }
    }
    SameTasks(s, s');
  }

  lemma GrantCareful(s: State)
    requires Inv(s)
    ensures Careful(s, OnGranted(s))
  {
    var s1 := s.(leased := true, writable := true, waiting := false);
    SameTasks(s, s1);
    if s.autolock.Some? {
      var s2 := s1.(autolock := None);
      forall t | t in s2.tasks ensures TaskOk(s2, t) { assert TaskOk(s1, t); }
      assert Careful(s1, s2);
      SpawnKeeps(s2, Publishing(Watcher));
    }
  }

  lemma LostCareful(s: State, staged: bool, l: Luck, l2: Luck)
    requires Inv(s) && s.autolock.Some?
    ensures Careful(s, AutolockFail(s.(waiting := false), s.autolock.value.0, s.autolock.value.1, staged, l, l2))
  {
    var s1 := s.(waiting := false);
    SameTasks(s, s1);
    AutolockFailCareful(s1, s.autolock.value.0, s.autolock.value.1, staged, l, l2);
  }

  lemma WaitingCareful(s: State, waiting: bool)
    requires Inv(s)
    ensures Careful(s, s.(waiting := waiting))
  {
    SameTasks(s, s.(waiting := waiting));
  }

  lemma RemoteCareful(s: State, e: Entry, l: Luck)
    requires Inv(s)
    ensures Careful(s, Do(s, RemoteApply(e, l)))
  {
    SameTasks(s, Seen(s, e));
    if s.busy { SameTasks(Seen(s, e), Seen(s, e).(deferred := Some(e))); }
    else { ApplyRemoteCareful(Seen(s, e), e, l); }
  }

  lemma AskCareful(s: State, st: Step)
    requires Inv(s) && Enabled(s, st) && (st.Watch? || st.LeaseLost? || st.AskUnlock? || st.AskApply? || st.AskRestore?)
    ensures Careful(s, Do(s, st))
  {
    match st
    case Watch => SpawnKeeps(s, Inspecting(s.index, Watcher)); SameTasks(s, s.(recheck := true));
    case LeaseLost(mode) => SameTasks(s, s.(leased := false, writable := mode));
    case AskUnlock(id) => SpawnKeeps(s, Inspecting(s.index, Client(id)));
    case AskApply(n, id) => FiledUnder(s, n); SpawnKeeps(s, Applying(s.quarantine[n], id));
    case AskRestore(b) => SpawnKeeps(s, Restoring(b));
  }

  lemma StepCareful(s: State, st: Step)
    requires Inv(s) && Enabled(s, st) && Polite(s, st)
    ensures Careful(s, Do(s, st))
  {
    match st
    case Work(t, ok, l) => TakenKeeps(s, t); WorkCareful(Taken(s, t), t, ok, l);
    case Handle(t, ok, o, l, l2) => TakenKeeps(s, t); HandleCareful(Taken(s, t), t, ok, o, l, l2);
    case Restart(sameSize, l) => RestartCareful(s, sameSize, l);
    case RemoteApply(e, l) => RemoteCareful(s, e, l);
    case ConcurrentSeen(l) => CopiedCareful(s, l);
    case Grant => GrantCareful(s);
    case AutolockLost(staged, l, l2) => LostCareful(s, staged, l, l2);
    case AskLock => WaitingCareful(s, true);
    case RequestLost => WaitingCareful(s, false);
    case VoterGone => WaitingCareful(s, false);
    case UserWrite(b, mode) => UserWriteCareful(s, b, mode);
    case UserDelete => UserDeleteCareful(s);
    case Discard(n) => RefiledCareful(s, n, s.quarantine - {n});
    case _ => AskCareful(s, st);
  }

  // ---------- who may give bytes up ----------

  /** The version on its way in replaces the file without a copy of it. */
  predicate Unguarded(writable: bool, l: Luck) {
    l.newer && l.write && !(writable && l.copy)
  }

  /** A copy is filed, or torn, under the name of a copy of `b`. */
  predicate Reuses(s: State, l: Luck, b: Bytes) {
    (l.copy || l.torn) && l.name in s.quarantine && s.quarantine[l.name] == b
  }

  /** A remote version replaces the file holding `b`, or its copy the copy of `b`. */
  predicate RemoteGivesUp(s: State, writable: bool, l: Luck, b: Bytes) {
    (s.disk == Some(b) && Unguarded(writable, l)) || (l.newer && Reuses(s, l, b))
  }

  /** The copy of a new file and that for a version deferred behind it share a name. */
  predicate Doubles(s: State, l: Luck, l2: Luck, b: Bytes) {
    s.deferred.Some? && l2.newer && l.name == l2.name && s.disk == Some(b)
  }

  /** The steps that may take the last copy of `b` away: the user's own, an overwrite the user asked
      for under the lease, a remote version over a file that is read-only or could not be copied, and
      a new copy under the name of the old one. */
  predicate GivesUp(s: State, st: Step, b: Bytes) {
    match st
    case UserWrite(_, _) => s.disk == Some(b)
    case UserDelete => s.disk == Some(b)
    case Discard(n) =>
      n in s.quarantine && s.quarantine[n] == b && forall m :: m in s.quarantine && m != n ==> s.quarantine[m] != b
    case Work(t, _, l) => (t.Violating? || t.Preserving?) && Reuses(s, l, b)
    case Restart(_, l) => Reuses(s, l, b)
    case ConcurrentSeen(l) => Reuses(s, l, b)
    case RemoteApply(_, l) => !s.busy && RemoteGivesUp(s, s.writable, l, b)
    case Handle(t, _, _, l, l2) =>
      || ((t.Applying? || t.Restoring?) && s.leased && s.disk == Some(b))
      || (t.Inspected? && (Reuses(s, l, b) || Doubles(s, l, l2, b)))
      || (s.deferred.Some? && RemoteGivesUp(s, s.writable && l.mode, l2, b))
    case AutolockLost(_, l, l2) => s.deferred.Some? && RemoteGivesUp(s, s.writable && l.mode, l2, b)
    case _ => false
  }

  lemma CopyGivesUp(s: State, l: Luck, b: Bytes)
    requires b !in s.gone && b in Copied(s, l).gone
    ensures Reuses(s, l, b) && s.disk.Some? && b != EMPTY && (l.copy ==> s.disk.value != b)
  {
    FiledUnder(Copied(s, l), l.name);
  }

  /** A failed copy makes no bytes safe. */
  lemma UncopiedShape(s: State, l: Luck, b: Bytes)
    requires !CopyMade(s, l.copy)
    ensures Copied(s, l).disk == s.disk && Copied(s, l).deferred == s.deferred && Copied(s, l).committed == s.committed
    ensures b !in Copied(s, l).gone && !Safe(Copied(s, l), b) ==> !Safe(s, b)
    ensures forall n :: n in Copied(s, l).quarantine && n !in s.quarantine ==> Copied(s, l).quarantine[n] == EMPTY
    ensures forall n :: n in s.quarantine && n in Copied(s, l).quarantine ==>
              Copied(s, l).quarantine[n] == s.quarantine[n] || Copied(s, l).quarantine[n] == EMPTY
  {
    var s' := Copied(s, l);
    if b !in s'.gone && !Safe(s', b) && Filed(s, b) {
      var n :| n in s.quarantine && s.quarantine[n] == b;
      if n != l.name { FiledUnder(s', n); }
    }
  }

  lemma ReplaceGivesUp(s: State, e: Entry, l: Luck, b: Bytes)
    requires b !in s.gone && b in ApplyRemote(s, e, l).gone
    ensures (s.disk == Some(b) && Unguarded(s.writable, l) && !Safe(s, b))
            || (l.newer && Reuses(s, l, b) && s.disk.Some? && b != EMPTY && (l.copy ==> s.disk.value != b))
  {
    if s.writable {
      if b in Copied(s, l).gone { CopyGivesUp(s, l, b); }
      else if CopyMade(s, l.copy) { FiledUnder(Copied(s, l), l.name); }
      else { UncopiedShape(s, l, b); }
    }
  }

  lemma UnbusyGivesUp(s: State, l: Luck, b: Bytes)
    requires b !in s.gone && b in Unbusy(s, l).gone
    ensures s.deferred.Some?
    ensures (s.disk == Some(b) && Unguarded(s.writable, l) && !Safe(s, b))
            || (l.newer && Reuses(s, l, b) && s.disk.Some? && b != EMPTY && (l.copy ==> s.disk.value != b))
  {
    var s1 := s.(busy := false);
    if s.deferred.Some? { ReplaceGivesUp(s1.(deferred := None), s.deferred.value, l, b); }
  }

  lemma InspectedGivesUp(s: State, look: Look, eligible: bool, l: Luck, l2: Luck, b: Bytes)
    requires b !in s.gone && b in OnInspected(s, look, Watcher, eligible, l, l2).gone
    ensures || Reuses(s, l, b) || Doubles(s, l, l2, b)
            || (s.deferred.Some? && RemoteGivesUp(s, s.writable && l.mode, l2, b))
  {
    if look.Failed? || look.Clean? {
      UnbusyGivesUp(s, l2, b);
    } else if s.leased {
      if look.Missing? { UnbusyGivesUp(CommitTombstone(s), l2, b); }
    } else if look.Missing? {
      ViolationGivesUp(s, false, l2, b);
    } else if eligible && s.autolock.None? {
    } else if look.Differs? {
      ViolationGivesUp(s, true, l2, b);
    } else {
      NewFileGivesUp(s, l, l2, b);
    }
  }

  lemma NewFileGivesUp(s: State, l: Luck, l2: Luck, b: Bytes)
    requires b !in s.gone && b in Unbusy(RemoveNewFile(s, l), l2).gone
    ensures || Reuses(s, l, b) || Doubles(s, l, l2, b)
            || (s.deferred.Some? && RemoteGivesUp(s, s.writable && l.mode, l2, b))
  {
    if b in Copied(s, l).gone {
      CopyGivesUp(s, l, b);
    } else if CopyMade(s, l.copy) {
      RemovedShape(s, l);
      RemovedGivesUp(s, RemoveNewFile(s, l), l.name, l2, b);
    } else {
      UncopiedShape(s, l, b);
      UnbusyGivesUp(Copied(s, l), l2, b);
    }
  }

  lemma RemovedShape(s: State, l: Luck)
    requires CopyMade(s, l.copy)
    ensures var s1 := RemoveNewFile(s, l);
            && s1.quarantine == s.quarantine[l.name := s.disk.value] && s1.gone == Copied(s, l).gone
            && s1.deferred == s.deferred && (s1.disk.Some? ==> s1.disk == s.disk)
  {
  }

  lemma RemovedGivesUp(s: State, s1: State, n: Name, l2: Luck, b: Bytes)
    requires s.disk.Some? && s1.quarantine == s.quarantine[n := s.disk.value] && s1.deferred == s.deferred
    requires s1.disk.Some? ==> s1.disk == s.disk
    requires b !in s1.gone && b in Unbusy(s1, l2).gone
    ensures s.deferred.Some? && l2.newer && (Reuses(s, l2, b) || (l2.name == n && s.disk == Some(b)))
  {
    UnbusyGivesUp(s1, l2, b);
    FiledUnder(s1, n);
  }

  lemma ViolationGivesUp(s: State, first: bool, l2: Luck, b: Bytes)
    requires b !in s.gone && b in SpawnViolation(s, first, l2).gone
    ensures s.deferred.Some? && RemoteGivesUp(s, s.writable, l2, b)
  {
    if s.index.None? { UnbusyGivesUp(s, l2, b); }
  }

  lemma UnlockGivesUp(s: State, look: Look, id: nat, eligible: bool, l: Luck, l2: Luck, b: Bytes)
    requires b !in s.gone && b in OnInspected(s, look, Client(id), eligible, l, l2).gone
    ensures s.deferred.Some? && RemoteGivesUp(s, s.writable && l.mode, l2, b)
  {
    match look
    case Failed => UnbusyGivesUp(Answer(s, Unlocked(id, false)), l2, b);
    case Clean => UnbusyGivesUp(s, l2, b);
    case Missing => UnbusyGivesUp(CommitTombstone(s), l2, b);
    case _ =>
  }

  lemma PublishedGivesUp(s: State, result: Option<Bytes>, cause: Cause, l: Luck, l2: Luck, b: Bytes)
    requires b !in s.gone && b in OnPublished(s, result, cause, l, l2).gone
    ensures s.deferred.Some? && RemoteGivesUp(s, s.writable && l.mode, l2, b)
  {
    var ok := result.Some? && s.leased;
    var s1 := if result.None? && cause.Watcher? then s.(recheck := true) else s;
    var s2 := if ok then s1.(index := Some(Live(result.value)), committed := s1.committed + {result.value}) else s1;
    UnbusyGivesUp(s2, l2, b);
  }

  lemma StagedGivesUp(s: State, t: Task, l: Luck, l2: Luck, b: Bytes)
    requires t.Staged? && TaskOk(s, t)
    requires b !in s.gone && b in OnStaged(s, t.restore, t.copied, t.required, l, l2).gone
    ensures s.deferred.Some? && RemoteGivesUp(s, s.writable && l.mode, l2, b)
  {
    if (t.required && t.copied.None?) || t.restore.None? {
      UnbusyGivesUp(s, l2, b);
    } else if l.write {
      UnbusyGivesUp(s.(disk := t.restore, writable := l.mode), l2, b);
    } else {
      UnbusyGivesUp(s.(writable := l.mode), l2, b);
    }
  }

  lemma AutolockGivesUp(s: State, copied: Option<Bytes>, newFile: bool, staged: bool, l: Luck, l2: Luck, b: Bytes)
    requires b !in s.gone && b in AutolockFail(s, copied, newFile, staged, l, l2).gone
    ensures s.deferred.Some? && RemoteGivesUp(s, s.writable && l.mode, l2, b)
  {
    var s1 := s.(autolock := None);
    if copied.Some? && newFile {
      UnbusyGivesUp(if l.write then s1.(disk := None) else s1.(writable := l.mode), l2, b);
    } else {
      UnbusyGivesUp(s1, l2, b);
    }
  }

  lemma ReadyGivesUp(s: State, t: Task, o: Outcome, staged: bool, l: Luck, l2: Luck, b: Bytes)
    requires t.Ready? && b !in s.gone && b in OnReady(s, t.copied, t.newFile, o, staged, l, l2).gone
    ensures s.deferred.Some? && RemoteGivesUp(s, s.writable && l.mode, l2, b)
  {
    match o
    case GuardFails => AutolockGivesUp(s.(busy := false), t.copied, t.newFile, staged, l, l2, b);
    case StartFails => AutolockGivesUp(s.(busy := true), t.copied, t.newFile, staged, l, l2, b);
    case Requested =>
  }

  lemma OverwriteGivesUp(s: State, s1: State, c: Bytes, l2: Luck, b: Bytes)
    requires Accounted(s, c) && (s1 == Overwritten(s, c) || s1 == Overwritten(s, c).(index := Some(Live(c))))
    requires b !in s.gone && b in Unbusy(s1, l2).gone
    ensures s.disk == Some(b) || (s.deferred.Some? && l2.newer && Reuses(s, l2, b))
  {
    if b !in s1.gone {
      UnbusyGivesUp(s1, l2, b);
      assert b == c ==> Safe(s, b) || s.disk == Some(b);
    }
  }

  lemma LeasedWriteGivesUp(s: State, t: Task, ok: bool, o: Outcome, l: Luck, l2: Luck, b: Bytes)
    requires t.Applying? || t.Restoring?
    requires TaskOk(s, t)
    requires b !in s.gone && b in DoHandle(s, t, ok, o, l, l2).gone
    ensures (s.leased && s.disk == Some(b)) || (s.deferred.Some? && RemoteGivesUp(s, s.writable && l.mode, l2, b))
  {
    var s1 :=
      if !ok || !s.leased then s else if !l.write then s.(writable := l.mode)
      else if t.Applying? then Overwritten(s, t.bytes) else Overwritten(s, t.bytes).(index := Some(Live(t.bytes)));
    assert b in Unbusy(s1, l2).gone;
    if ok && s.leased && l.write { OverwriteGivesUp(s, s1, t.bytes, l2, b); } else { UnbusyGivesUp(s1, l2, b); }
  }

  lemma HandleGivesUp(s: State, t: Task, ok: bool, o: Outcome, l: Luck, l2: Luck, b: Bytes)
    requires !Background(t) && TaskOk(s, t) && b !in s.gone && b in DoHandle(s, t, ok, o, l, l2).gone
    ensures || ((t.Applying? || t.Restoring?) && s.leased && s.disk == Some(b))
            || (t.Inspected? && (Reuses(s, l, b) || Doubles(s, l, l2, b)))
            || (s.deferred.Some? && RemoteGivesUp(s, s.writable && l.mode, l2, b))
  {
    match t
    case Inspected(look, Client(id)) => UnlockGivesUp(s, look, id, ok, l, l2, b);
    case Inspected(look, Watcher) => InspectedGivesUp(s, look, ok, l, l2, b);
    case Published(result, cause) => PublishedGivesUp(s, result, cause, l, l2, b);
    case Staged(_, _, _) => StagedGivesUp(s, t, l, l2, b);
    case Ready(_, _) => ReadyGivesUp(s, t, o, ok, l, l2, b);
    case _ => LeasedWriteGivesUp(s, t, ok, o, l, l2, b);
  }

  /** Nothing but these steps gives bytes up. */
  lemma GoneHasCause(s: State, st: Step, b: Bytes)
    requires Inv(s) && Enabled(s, st) && b !in s.gone && b in Do(s, st).gone
    ensures GivesUp(s, st, b)
  {
    match st
    case RemoteApply(_, _) => RemoteHasCause(s, st, b);
    case Handle(_, _, _, _, _) => HandleHasCause(s, st, b);
    case AutolockLost(ok, l, l2) => LostGivesUp(s, ok, l, l2, b);
    case Restart(sameSize, l) => RestartGivesUp(s, sameSize, l, b);
    case Work(t, ok, l) => WorkGivesUp(Taken(s, t), t, ok, l, b);
    case ConcurrentSeen(l) => CopyGivesUp(s, l, b);
    case Discard(n) => DiscardGivesUp(s, n);
    case UserWrite(_, _) =>
    case UserDelete =>
    case _ => OthersGiveNothingUp(s, st);
  }

  lemma RemoteHasCause(s: State, st: Step, b: Bytes)
    requires st.RemoteApply? && b !in s.gone && b in Do(s, st).gone
    ensures GivesUp(s, st, b)
  {
    if !s.busy { ReplaceGivesUp(Seen(s, st.entry), st.entry, st.l, b); }
  }

  lemma HandleHasCause(s: State, st: Step, b: Bytes)
    requires Inv(s) && Enabled(s, st) && st.Handle? && b !in s.gone && b in Do(s, st).gone
    ensures GivesUp(s, st, b)
  {
    TakenKeeps(s, st.task);
    HandleGivesUp(Taken(s, st.task), st.task, st.ok, st.outcome, st.l, st.l2, b);
  }

  lemma LostGivesUp(s: State, staged: bool, l: Luck, l2: Luck, b: Bytes)
    requires s.autolock.Some? && s.waiting && b !in s.gone && b in Do(s, AutolockLost(staged, l, l2)).gone
    ensures s.deferred.Some? && RemoteGivesUp(s, s.writable && l.mode, l2, b)
  {
    AutolockGivesUp(s.(waiting := false), s.autolock.value.0, s.autolock.value.1, staged, l, l2, b);
  }

  lemma OthersGiveNothingUp(s: State, st: Step)
    requires Enabled(s, st)
    requires || st.Watch? || st.AskLock? || st.RequestLost? || st.VoterGone? || st.Grant?
             || st.LeaseLost? || st.AskUnlock? || st.AskApply? || st.AskRestore?
    ensures Do(s, st).gone == s.gone
  {
  }

  lemma DiscardGivesUp(s: State, n: Name)
    requires n in s.quarantine && Do(s, Discard(n)).gone != s.gone
    ensures forall m :: m in s.quarantine && m != n ==> s.quarantine[m] != s.quarantine[n]
  {
    var rest := s.quarantine - {n};
    assert forall m :: m in s.quarantine && m != n ==> m in rest && rest[m] == s.quarantine[m];
  }

  lemma RestartGivesUp(s: State, sameSize: bool, l: Luck, b: Bytes)
    requires b !in s.gone && b in OnRestart(s, sameSize, l).gone
    ensures Reuses(s, l, b)
  {
    var s1 := Rebooted(s, l);
    assert b in RemoveNewFile(s1, l).gone;
    CopyGivesUp(s1, l, b);
  }

  lemma WorkGivesUp(s: State, t: Task, ok: bool, l: Luck, b: Bytes)
    requires b !in s.gone && b in DoWork(s, t, ok, l).gone
    ensures (t.Violating? || t.Preserving?) && Reuses(s, l, b)
  {
    CopyGivesUp(s, l, b);
  }
}
