/** Keep-mine and keep-both: the command-line client asks the daemon to lock the target, to write
    the quarantined bytes over it, to unlock it and to discard the copy, one request after the
    other, while the daemon goes on with everything else. */
module Resolve {
  import opened Common
  import opened Preservation
  import opened PathExclusion
  import opened DaemonSteps

  /** Where the client stands: about to send a request, or waiting for its reply. */
  datatype Phase = Locking | WantApply | AwaitApply | WantUnlock | AwaitUnlock | WantDiscard | Done | Refused

  datatype System = System(s: State, phase: Phase)

  /** The copy being resolved, the bytes in it and the client resolving them. */
  datatype Job = Job(name: Name, q: Bytes, me: nat)

  datatype Move =
    | Daemon(st: Step)
    | Locked
    | SendApply
    | GetApplied(ok: bool)
    | SendUnlock
    | GetUnlocked(ok: bool)
    | SendDiscard
    | GiveUp

  predicate CanMove(j: Job, y: System, m: Move) {
    match m
    case Daemon(st) => Enabled(y.s, st)
    case Locked => y.phase == Locking
    case SendApply => y.phase == WantApply
    case GetApplied(ok) => y.phase == AwaitApply && Applied(j.me, ok) in y.s.replies
    case SendUnlock => y.phase == WantUnlock
    case GetUnlocked(ok) => y.phase == AwaitUnlock && Unlocked(j.me, ok) in y.s.replies
    case SendDiscard => y.phase == WantDiscard
    case GiveUp => y.phase != Done
  }

  /** Every refusal ends the client's work; a request that is accepted changes the daemon. */
  function Make(j: Job, y: System, m: Move): System
    requires CanMove(j, y, m)
  {
    match m
    case Daemon(st) => y.(s := Do(y.s, st))
    case Locked => y.(phase := WantApply)
    case SendApply => Send(y, AskApply(j.name, j.me), AwaitApply)
    case GetApplied(ok) => y.(phase := if ok then WantUnlock else Refused)
    case SendUnlock => Send(y, AskUnlock(j.me), AwaitUnlock)
    case GetUnlocked(ok) => y.(phase := if ok then WantDiscard else Refused)
    case SendDiscard => Send(y, Discard(j.name), Done)
    case GiveUp => y.(phase := Refused)
  }

  function Send(y: System, st: Step, next: Phase): System {
    if Enabled(y.s, st) then System(Do(y.s, st), next) else y.(phase := Refused)
  }

  /** The quarantined bytes were written to the target, and its unlock is still to be asked for. */
  predicate Landed(j: Job, y: System) {
    y.phase == WantUnlock || (y.phase == AwaitApply && Applied(j.me, true) in y.s.replies)
  }

  /** Nobody else writes the target or discards the bytes. */
  predicate HandsOff(j: Job, s: State, st: Step) {
    && !st.UserWrite? && !st.UserDelete? && !st.AskApply? && !st.AskRestore? && st != AskUnlock(j.me)
    && (st.Discard? && st.name in s.quarantine ==> s.quarantine[st.name] != j.q)
  }

  predicate Calm(j: Job, y: System, m: Move) {
    m.Daemon? ==> HandsOff(j, y.s, m.st) && CopiesWork(y.s, m.st)
  }

  /** The task hands the lease back or publishes the bytes before the path is free again: it belongs to
      another client's unlock that has looked, or has read the bytes. */
  predicate HandsBack(j: Job, t: Task) {
    match t
    case Inspected(look, cause) => cause.Client? && !look.Failed?
    case Publishing(cause) => cause.Client?
    case Published(result, cause) => cause.Client? || result == Some(j.q)
    case _ => false
  }

  /** The path is busy with nothing but such tasks. */
  ghost predicate Settling(j: Job, s: State) {
    s.busy && s.autolock.None? && forall t :: t in s.tasks ==> HandsBack(j, t)
  }

  /** A new lease does no harm: the bytes exist a second time, the target still carries them, or the lease
      will be gone before the client's unlock is heard. */
  ghost predicate LeaseOk(j: Job, s: State) {
    Twice(j, s) || s.disk == Some(j.q) || Settling(j, s)
  }

  /** What the result assumes beyond calm: nothing is under way on the path when the apply is accepted, and
      the lease is taken anew before the unlock only where that does no harm. */
  ghost predicate Fair(j: Job, y: System, m: Move) {
    && Calm(j, y, m)
    && (m.SendApply? && Enabled(y.s, AskApply(j.name, j.me)) ==> Idle(y.s))
    && (m == Daemon(Grant) && Landed(j, y) ==> LeaseOk(j, y.s))
  }

  // ---------- what the steps leave ----------

  /** The copy being resolved is there. */
  predicate Copy(j: Job, s: State) { j.name in s.quarantine && s.quarantine[j.name] == j.q }

  /** The bytes outlive the discard of that copy. */
  predicate Twice(j: Job, s: State) {
    Recorded(s, j.q) || exists n :: n in s.quarantine && n != j.name && s.quarantine[n] == j.q
  }

  lemma SafetyStays(j: Job, s: State, st: Step)
    requires Enabled(s, st) && HandsOff(j, s, st) && CopiesWork(s, st)
    ensures Copy(j, s) ==> Copy(j, Do(s, st))
    ensures Twice(j, s) ==> Twice(j, Do(s, st))
    ensures Safe(s, j.q) ==> Safe(Do(s, st), j.q)
  {
    var s' := Do(s, st);
    if !st.Discard? && !st.Grant? { StepGrows(s, st); }
    SameCopies(j, s, s');
  }

  lemma SameCopies(j: Job, s: State, s': State)
    requires s.committed <= s'.committed
    requires forall n :: n in s.quarantine && s.quarantine[n] == j.q ==> n in s'.quarantine && s'.quarantine[n] == j.q
    ensures Copy(j, s) ==> Copy(j, s')
    ensures Twice(j, s) ==> Twice(j, s')
    ensures Safe(s, j.q) ==> Safe(s', j.q)
  {
  }

  /** A state with the same copies and records. */
  lemma SameSafety(j: Job, s: State, s': State)
    requires s'.committed == s.committed && s'.quarantine == s.quarantine
    ensures Copy(j, s) == Copy(j, s') && Twice(j, s) == Twice(j, s') && Safe(s, j.q) == Safe(s', j.q)
  {
  }
}
