/** Keep-mine and keep-both as a whole: over every fair run of client and daemon the bytes being resolved
    survive. */
module ResolveSafety {
  import opened Common
  import opened Preservation
  import opened PathExclusion
  import opened DaemonSteps
  import opened Resolve
  import opened ResolveSteps

  /** While the apply is on its way, it is all that happens on the path, or nothing of it is left. */
  ghost predicate Pending(j: Job, s: State) {
    && Unlocked(j.me, true) !in s.replies
    && (NoTasks(j.me, s) || (s.busy && s.autolock.None? && s.tasks == multiset{Applying(j.q, j.me)}))
  }

  /** After it landed: the target carries the bytes, or no lease can reach the unlock. */
  ghost predicate Arrived(j: Job, s: State) {
    && Unlocked(j.me, true) !in s.replies && NoTasks(j.me, s)
    && ((Near(j, s) && Exclusive(s)) || Far(j, s))
  }

  /** While the unlock is on its way. */
  ghost predicate Unlocking(j: Job, s: State) {
    Unlocked(j.me, true) !in s.replies && (NoTasks(j.me, s) || Alone(j, s))
  }

  /** What holds in each phase as long as the bytes exist only once. */
  ghost predicate Shape(j: Job, y: System) {
    match y.phase
    case Locking => Stranger(j.me, y.s)
    case WantApply => Stranger(j.me, y.s)
    case AwaitApply => if Applied(j.me, true) in y.s.replies then Arrived(j, y.s) else Pending(j, y.s)
    case WantUnlock => Arrived(j, y.s)
    case AwaitUnlock => Unlocking(j, y.s)
    case WantDiscard => false
    case Done => true
    case Refused => true
  }

  ghost predicate Ok(j: Job, y: System) {
    if y.phase == Done then Safe(y.s, j.q)
    else Inv(y.s) && Copy(j, y.s) && (Twice(j, y.s) || Shape(j, y))
  }

  /** The client sets out while the copy is there, and is not known to the daemon yet. */
  ghost predicate Start(j: Job, y: System) {
    y.phase == Locking && Inv(y.s) && Stranger(j.me, y.s) && Copy(j, y.s)
  }

  /** The moves lead from `y` to `z`, each of them calm, or fair as well. */
  ghost predicate Leads(j: Job, y: System, ms: seq<Move>, z: System, fair: bool)
    decreases |ms|
  {
    if ms == [] then y == z
    else
      && CanMove(j, y, ms[0]) && Calm(j, y, ms[0]) && (fair ==> Fair(j, y, ms[0]))
      && Leads(j, Make(j, y, ms[0]), ms[1..], z, fair)
  }

  // ---------- steps of the daemon ----------

  /** The write lands over an idle path. */
  lemma ApplyLands(j: Job, s: State, l2: Luck)
    requires Idle(s) && Copy(j, s) && Grounded(s) && l2.copy && Clear(s, l2)
    ensures NearNext(j, Unbusy(Overwritten(s, j.q), l2))
  {
    var s1 := Overwritten(s, j.q);
    SameSafety(j, s, s1);
    assert Near(j, s1) && s1.deferred == s.deferred && s1.committed == s.committed;
    UnbusyNear(j, s1, l2);
  }

  lemma AnswerNear(j: Job, s: State, r: Reply)
    requires NearNext(j, s)
    ensures NearNext(j, Answer(s, r))
  {
    var s' := Answer(s, r);
    if Twice(j, s) { SameSafety(j, s, s'); } else if Near(j, s) { SameNear(j, s, s'); }
  }

  /** What the end of an apply says, and to whom. */
  lemma ApplyAnswered(j: Job, s: State, s1: State, done: bool, l2: Luck)
    requires s1.tasks == multiset{} && s1.replies == s.replies && Clear(s1, l2)
    requires Unlocked(j.me, true) !in s.replies && Applied(j.me, true) !in s.replies
    ensures var s' := Answer(Unbusy(s1, l2), Applied(j.me, done));
            && NoTasks(j.me, s') && Unlocked(j.me, true) !in s'.replies
            && (Applied(j.me, true) in s'.replies ==> done)
  {
    UnbusyTame(j.me, s1, l2);
  }

  lemma AppliedIs(j: Job, s: State, ok: bool, l: Luck, l2: Luck)
    ensures var done := ok && s.leased && l.write;
            OnApplied(s, j.q, j.me, ok, l, l2)
            == Answer(Unbusy(if done then Overwritten(s, j.q)
                             else if ok && s.leased then s.(writable := l.mode) else s, l2), Applied(j.me, done))
  {
  }

  /** The apply is answered: it landed, or is done with. */
  lemma ApplyHandled(j: Job, s: State, ok: bool, l: Luck, l2: Luck)
    requires Idle(s) && Copy(j, s) && Grounded(s) && l2.copy && Clear(s, l2)
    requires Unlocked(j.me, true) !in s.replies && Applied(j.me, true) !in s.replies
    ensures var s' := OnApplied(s, j.q, j.me, ok, l, l2);
            && NoTasks(j.me, s') && Unlocked(j.me, true) !in s'.replies
            && (Applied(j.me, true) in s'.replies ==> NearNext(j, s'))
  {
    AppliedIs(j, s, ok, l, l2);
    if ok && s.leased && l.write {
      ApplyAnswered(j, s, Overwritten(s, j.q), true, l2);
      ApplyLands(j, s, l2);
      AnswerNear(j, Unbusy(Overwritten(s, j.q), l2), Applied(j.me, true));
    } else {
      ApplyAnswered(j, s, if ok && s.leased then s.(writable := l.mode) else s, false, l2);
    }
  }

  lemma PendingStep(j: Job, s: State, st: Step)
    requires Inv(s) && Copy(j, s) && Pending(j, s) && Applied(j.me, true) !in s.replies
    requires Enabled(s, st) && HandsOff(j, s, st) && CopiesWork(s, st)
    ensures var s' := Do(s, st);
            && Unlocked(j.me, true) !in s'.replies
            && if Applied(j.me, true) in s'.replies then NoTasks(j.me, s') && NearNext(j, s') else Pending(j, s')
  {
    if NoTasks(j.me, s) {
      StepHush(j.me, s, st);
    } else if st.Handle? {
      TakenKeeps(s, st.task);
      SameSafety(j, s, Taken(s, st.task));
      ApplyHandled(j, Taken(s, st.task), st.ok, st.l, st.l2);
    } else if st.Restart? {
      RestartForgets(j.me, s, st.sameSize, st.l);
    } else {
      StepHush(j.me, s, st);
      BusyStays(j, s, st);
    }
  }

  lemma ArrivedStep(j: Job, s: State, st: Step)
    requires Inv(s) && Copy(j, s) && Arrived(j, s) && !Twice(j, s)
    requires Enabled(s, st) && HandsOff(j, s, st) && CopiesWork(s, st) && (st.Grant? ==> LeaseOk(j, s))
    ensures Twice(j, Do(s, st)) || Arrived(j, Do(s, st))
  {
    StepHush(j.me, s, st);
    if Near(j, s) && Exclusive(s) {
      StepNear(j, s, st);
      NearNotStale(j, s, st);
      StepExclusive(s, st);
    } else {
      StepFar(j, s, st);
    }
  }

  lemma UnlockingStep(j: Job, s: State, st: Step)
    requires Inv(s) && Unlocking(j, s) && Enabled(s, st) && HandsOff(j, s, st) && CopiesWork(s, st)
    ensures Twice(j, Do(s, st)) || Unlocking(j, Do(s, st))
  {
    if NoTasks(j.me, s) { StepHush(j.me, s, st); } else { StepAlone(j, s, st); }
  }

  /** The first state after a landing. */
  lemma NewlyArrived(j: Job, s: State)
    requires NoTasks(j.me, s) && Unlocked(j.me, true) !in s.replies && NearNext(j, s) && (Near(j, s) ==> Exclusive(s))
    ensures Twice(j, s) || Arrived(j, s)
  {
  }

  lemma AwaitedStep(j: Job, y: System, st: Step)
    requires y.phase == AwaitApply && Inv(y.s) && Copy(j, y.s) && Shape(j, y) && !Twice(j, y.s)
    requires Enabled(y.s, st) && Fair(j, y, Daemon(st))
    ensures Twice(j, Do(y.s, st)) || Shape(j, y.(s := Do(y.s, st)))
  {
    var s' := Do(y.s, st);
    if Applied(j.me, true) in y.s.replies {
      ArrivedStep(j, y.s, st);
      if Applied(j.me, true) !in s'.replies && !Twice(j, s') { assert NoTasks(j.me, s'); }
    } else {
      PendingStep(j, y.s, st);
      if Applied(j.me, true) in s'.replies {
        if NoTasks(j.me, y.s) { StepHush(j.me, y.s, st); }
        AppliedExclusive(j, y.s, st);
        NewlyArrived(j, s');
      }
    }
  }

  /** The apply was alone, so its end leaves one operation at most. */
  lemma AppliedExclusive(j: Job, s: State, st: Step)
    requires Pending(j, s) && Enabled(s, st) && HandsOff(j, s, st) && CopiesWork(s, st)
    requires Applied(j.me, true) !in s.replies && Applied(j.me, true) in Do(s, st).replies
    ensures Exclusive(Do(s, st))
  {
    if NoTasks(j.me, s) {
      StepHush(j.me, s, st);
    } else {
      assert Exclusive(s);
      if !(st.Handle? && st.task.Applying?) { StepHush(j.me, s, st); }
      StepExclusive(s, st);
    }
  }

  lemma DaemonOk(j: Job, y: System, st: Step)
    requires Ok(j, y) && Enabled(y.s, st) && Fair(j, y, Daemon(st))
    ensures Ok(j, y.(s := Do(y.s, st)))
  {
    SafetyStays(j, y.s, st);
    if y.phase != Done {
      StepCareful(y.s, st);
      if !Twice(j, y.s) {
        match y.phase
        case Locking => StrangerStays(j.me, y.s, st);
        case WantApply => StrangerStays(j.me, y.s, st);
        case AwaitApply => AwaitedStep(j, y, st);
        case WantUnlock => ArrivedStep(j, y.s, st);
        case AwaitUnlock => UnlockingStep(j, y.s, st);
        case Refused =>
      }
    }
  }

  // ---------- moves of the client ----------

  lemma ApplySent(j: Job, y: System)
    requires Ok(j, y) && y.phase == WantApply && Enabled(y.s, AskApply(j.name, j.me)) && Idle(y.s)
    ensures Ok(j, System(Do(y.s, AskApply(j.name, j.me)), AwaitApply))
  {
    var st := AskApply(j.name, j.me);
    StepCareful(y.s, st);
    var s' := Do(y.s, st);
    SameSafety(j, y.s, s');
    assert s'.replies == y.s.replies && s'.tasks == multiset{Applying(j.q, j.me)};
  }

  lemma UnlockSent(j: Job, y: System)
    requires Ok(j, y) && y.phase == WantUnlock && Enabled(y.s, AskUnlock(j.me))
    ensures Ok(j, System(Do(y.s, AskUnlock(j.me)), AwaitUnlock))
  {
    var st := AskUnlock(j.me);
    StepCareful(y.s, st);
    var s' := Do(y.s, st);
    SameSafety(j, y.s, s');
    if !Twice(j, y.s) {
      assert Near(j, y.s) && Idle(y.s);
      SpawnAlone(j, y.s, Inspecting(y.s.index, Client(j.me)));
    }
  }

  lemma DiscardSent(j: Job, y: System)
    requires Ok(j, y) && y.phase == WantDiscard
    ensures Safe(Do(y.s, Discard(j.name)), j.q)
  {
    var s' := Do(y.s, Discard(j.name));
    if !Recorded(y.s, j.q) {
      var n :| n in y.s.quarantine && n != j.name && y.s.quarantine[n] == j.q;
      assert n in s'.quarantine && s'.quarantine[n] == j.q;
    }
  }

  lemma MakeOk(j: Job, y: System, m: Move)
    requires Ok(j, y) && CanMove(j, y, m) && Fair(j, y, m)
    ensures Ok(j, Make(j, y, m))
  {
    match m
    case Daemon(st) => DaemonOk(j, y, st);
    case SendApply => if Enabled(y.s, AskApply(j.name, j.me)) { ApplySent(j, y); }
    case SendUnlock => if Enabled(y.s, AskUnlock(j.me)) { UnlockSent(j, y); }
    case SendDiscard => DiscardSent(j, y);
    case _ => PhaseOk(j, y, m);
  }

  /** The client moves on while the daemon stays as it is. */
  lemma PhaseOk(j: Job, y: System, m: Move)
    requires Ok(j, y) && CanMove(j, y, m) && (m.Locked? || m.GetApplied? || m.GetUnlocked? || m.GiveUp?)
    ensures Ok(j, Make(j, y, m))
  {
  }

  lemma {:induction false} OkOfRun(j: Job, y: System, ms: seq<Move>, z: System)
    requires Ok(j, y) && Leads(j, y, ms, z, true)
    ensures Ok(j, z)
    decreases |ms|
  {
    if ms != [] {
      MakeOk(j, y, ms[0]);
      OkOfRun(j, Make(j, y, ms[0]), ms[1..], z);
    }
  }

  /** Through every fair run and every failure point of keep-mine and keep-both the bytes exist: in
      quarantine until the client is done, in quarantine or in a committed record from then on. The
      discard is sent only when it leaves them in one or the other. */
  lemma {:induction false} ResolveNeverLoses(j: Job, y: System, ms: seq<Move>, z: System)
    requires Start(j, y) && Leads(j, y, ms, z, true)
    ensures Safe(z.s, j.q)
    ensures z.phase != Done ==> Copy(j, z.s)
    ensures z.phase == WantDiscard ==> Twice(j, z.s)
  {
    OkOfRun(j, y, ms, z);
    if z.phase != Done { FiledUnder(z.s, j.name); }
  }

  /** When the copy is the only one of its bytes, the discard means they are published. */
  lemma {:induction false} DiscardMeansPublished(j: Job, y: System, ms: seq<Move>, z: System)
    requires Start(j, y) && Leads(j, y, ms, z, true) && z.phase == WantDiscard
    requires forall n :: n in z.s.quarantine && n != j.name ==> z.s.quarantine[n] != j.q
    ensures Recorded(z.s, j.q)
  {
    OkOfRun(j, y, ms, z);
  }
}
