/** The golden invariant: over whole runs of the daemon, the user's bytes stay on disk, in quarantine
    or in a committed record until somebody is known to have given them up. */
module GoldenInvariant {
  import opened Common
  import opened Preservation

  ghost predicate Run(states: seq<State>, steps: seq<Step>) {
    && |states| == |steps| + 1
    && Inv(states[0])
    && forall i :: 0 <= i < |steps| ==>
         Enabled(states[i], steps[i]) && Polite(states[i], steps[i]) && states[i + 1] == Do(states[i], steps[i])
  }

  /** The daemon's first state on a tree, with the index it loaded. */
  predicate Initial(s: State) {
    && s.tasks == multiset{} && s.autolock.None? && s.deferred.None? && s.gone == {}
    && (s.index.Some? ==> Recorded(s, ContentOf(s.index.value)))
  }

  lemma InitialInv(s: State)
    requires Initial(s)
    ensures Inv(s)
  {
  }

  lemma {:induction false} InvOfRun(states: seq<State>, steps: seq<Step>, k: nat)
    requires Run(states, steps) && k < |states|
    ensures Inv(states[k])
  {
    if k > 0 {
      InvOfRun(states, steps, k - 1);
      StepCareful(states[k - 1], steps[k - 1]);
    }
  }

  /** The golden invariant: a content kept and not given up at one moment stays on disk, in
      quarantine or in a committed record for as long as no step gives it up. */
  lemma {:induction false} NothingIsLost(states: seq<State>, steps: seq<Step>, i: nat, k: nat, b: Bytes)
    requires Run(states, steps) && i <= k < |states|
    requires Kept(states[i], b) && b !in states[i].gone
    requires forall j :: i <= j < k ==> !GivesUp(states[j], steps[j], b)
    ensures Kept(states[k], b) && b !in states[k].gone
  {
    if i < k {
      NothingIsLost(states, steps, i, k - 1, b);
      InvOfRun(states, steps, k - 1);
      StepCareful(states[k - 1], steps[k - 1]);
      if b in states[k].gone { GoneHasCause(states[k - 1], steps[k - 1], b); }
      assert Accounted(states[k - 1], b);
    }
  }

  /** Whatever the user writes outside a window is owed to the user from then on. */
  lemma WrittenIsKept(states: seq<State>, steps: seq<Step>, i: nat, k: nat)
    requires Run(states, steps) && i < k < |states| && steps[i].UserWrite?
    requires forall j :: i < j < k ==> !GivesUp(states[j], steps[j], steps[i].bytes)
    ensures Kept(states[k], steps[i].bytes)
  {
    NothingIsLost(states, steps, i + 1, k, steps[i].bytes);
  }

  /** The step reverts an un-leased edit: a staged restore, a new file, a lost autolock. */
  predicate Reverts(st: Step) {
    st.AutolockLost? || (st.Handle? && (st.task.Staged? || st.task.Ready? || st.task.Inspected?))
  }

  /** Whatever a revert takes off the disk is in quarantine or in a committed record, unless a remote
      version deferred behind it gives it up; inside a window it already was so before the step. */
  lemma RevertTakesSavedBytes(states: seq<State>, steps: seq<Step>, k: nat, b: Bytes)
    requires Run(states, steps) && k < |steps| && Reverts(steps[k])
    requires states[k].disk == Some(b) && states[k + 1].disk != Some(b) && b !in states[k].gone
    requires !GivesUp(states[k], steps[k], b)
    ensures Safe(states[k + 1], b)
    ensures Open(states[k]) ==> Safe(states[k], b)
    ensures states[k].deferred.None? && (steps[k].Handle? ==> !steps[k].task.Inspected?) ==> Open(states[k])
  {
    var s, st := states[k], steps[k];
    InvOfRun(states, steps, k);
    StepCareful(s, st);
    assert Accounted(s, b);
    if b in states[k + 1].gone { GoneHasCause(s, st, b); }
    if s.deferred.None? && (st.Handle? ==> !st.task.Inspected?) { RevertNeedsWindow(s, st); }
  }

  /** Outside a window these steps leave the file alone, but for what is deferred behind them. */
  lemma RevertNeedsWindow(s: State, st: Step)
    requires Enabled(s, st) && s.deferred.None? && Do(s, st).disk != s.disk
    requires st.AutolockLost? || (st.Handle? && (st.task.Staged? || st.task.Ready?))
    ensures Open(s)
  {
    if st.Handle? {
      if !Armed(st.task) { SkippedRevert(s, st.task, st.ok, st.outcome, st.l, st.l2); }
    }
  }

  /** A revert that may not go ahead only clears the busy mark. */
  lemma SkippedRevert(s: State, t: Task, ok: bool, o: Outcome, l: Luck, l2: Luck)
    requires Enabled(s, Handle(t, ok, o, l, l2)) && s.deferred.None?
    requires (t.Staged? && t.required && t.copied.None?) || (t.Ready? && t.copied.None?)
    ensures Do(s, Handle(t, ok, o, l, l2)).disk == s.disk
  {
    if t.Staged? {
      UnbusyStays(Taken(s, t), l2);
    } else if !o.Requested? {
      SkippedReady(Taken(s, t), t, ok, o, l, l2);
    }
  }

  lemma SkippedReady(s: State, t: Task, ok: bool, o: Outcome, l: Luck, l2: Luck)
    requires t.Ready? && t.copied.None? && !o.Requested? && s.deferred.None?
    ensures DoHandle(s, t, ok, o, l, l2).disk == s.disk
  {
    UnbusyStays(s.(busy := o.StartFails?, autolock := None), l2);
  }

  lemma UnbusyStays(s: State, l: Luck)
    requires s.deferred.None?
    ensures Unbusy(s, l).disk == s.disk && Unbusy(s, l).writable == s.writable
  {
  }
}
