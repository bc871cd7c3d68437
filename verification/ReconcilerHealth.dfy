/**
 What makes the reconciler give up, and what it does when nothing fails.  The statements speak of phases,
 signals and counters alone, not of the functions the steps are made of.
 */
module ReconcilerHealth {
  import opened Outcomes
  import opened ProcessPolicy
  import opened Reconciler
  import opened ReconcilerSafety
  import opened ReconcilerProgress

  /** A step in which a call the reconciler relies on fails, and those that end the worker or disable it. */
  predicate IsFailure(a: Action) {
    match a
    case Notify(eventOk) => !eventOk
    case Arm(armOk, _) => !armOk
    case _ => a.WaitFails? || a.PassError? || a.GiveUp? || a.DisableForShutdown?
  }

  predicate NoFailures(actions: seq<Action>) {
    forall i :: 0 <= i < |actions| ==> !IsFailure(actions[i])
  }

  /** Some tracked process has had fewer than its three checks. */
  predicate ShortOfChecks(applied: Applied) {
    exists k :: k in applied && applied[k].checks < 3
  }

  lemma PendingIsShort(applied: Applied)
    requires EntriesOk(applied)
    ensures SomePending(applied) <==> ShortOfChecks(applied)
    ensures !ShortOfChecks(applied) <==> forall k :: k in applied ==> applied[k].checks == 3
  {
    if SomePending(applied) {
      var k :| k in applied && IsPending(applied[k]);
      assert applied[k].checks < 3;
    }
    if ShortOfChecks(applied) {
      var k :| k in applied && applied[k].checks < 3;
      assert IsPending(applied[k]);
    }
  }

  // ---------------------------------------------------------------- what disables the reconciler

  predicate Healthy(s: State) {
    !s.c.phase.Disabled? && !s.worker.Failing? && (s.worker.Exited? ==> s.shuttingDown)
  }

  lemma HealthyStep(s: State, a: Action)
    requires Inv(s) && Healthy(s) && Enabled(s, a) && !IsFailure(a)
    ensures Healthy(Step(s, a))
  {
    hide EntriesOk, HolderOk, CutOk, BatchHasWork, PhasePromises, TimerOk, SomePending;
  }

  lemma {:induction false} HealthyRun(s: State, actions: seq<Action>, t: State)
    requires Inv(s) && Healthy(s) && Run(s, actions, t) && NoFailures(actions)
    ensures Inv(t) && Healthy(t)
    decreases |actions|
  {
    if actions == [] {
    } else {
      hide Inv, Step, Enabled, Healthy, IsFailure;
      HealthyStep(s, actions[0]);
      StepKeepsInv(s, actions[0]);
      HealthyRun(Step(s, actions[0]), actions[1..], t);
    }
  }

  /** In every run: the reconciler is disabled, or its worker failing, only after one of the failures. */
  lemma OnlyFailuresDisable(actions: seq<Action>, t: State)
    requires Run(Init(), actions, t)
    ensures t.c.phase.Disabled? || t.worker.Failing? ==> exists i :: 0 <= i < |actions| && IsFailure(actions[i])
    ensures NoFailures(actions) ==> !t.c.phase.Disabled? && (t.worker.Exited? ==> t.shuttingDown)
  {
    hide Run, IsFailure, Inv;
    InitInv();
    if NoFailures(actions) {
      HealthyRun(Init(), actions, t);
    }
  }

  /**
   Which step of a run disables it, and conversely: a failed wait, a worker giving up, shutdown, a failed
   announcement while parked, and a failed arming of a batch that has work and no timer.
   */
  lemma BecomesDisabled(actions: seq<Action>, s: State, a: Action)
    requires Run(Init(), actions, s) && Enabled(s, a) && !s.c.phase.Disabled?
    ensures Step(s, a).c.phase.Disabled? <==>
            || a.WaitFails? || a.GiveUp? || a.DisableForShutdown?
            || (a.Notify? && !a.eventOk && s.c.phase.Parked?)
            || (a.Arm? && !a.armOk && ShortOfChecks(s.c.applied) && !s.c.phase.TimerArmed?)
  {
    hide Run;
    InitInv();
    RunKeepsInv(Init(), actions, s);
    PendingIsShort(s.c.applied);
    hide Structure, EntriesOk, CutOk, BatchHasWork, PhasePromises, TimerOk, SomePending, ShortOfChecks;
  }

  // ---------------------------------------------------------------- what changes a phase

  lemma WakesWhen(s: State, a: Action)
    requires HolderOk(s) && Enabled(s, a)
    ensures !s.c.phase.WakePending? && Step(s, a).c.phase.WakePending? <==> s.c.phase.Parked? && a == Notify(true)
  {
    hide SomePending;
  }

  lemma ArmsWhen(s: State, a: Action)
    requires Enabled(s, a) && !s.c.phase.TimerArmed?
    ensures Step(s, a).c.phase.TimerArmed? <==>
            !s.c.phase.Disabled? && a.Arm? && a.armOk && SomePending(s.c.applied)
  {
    hide SomePending, IsPending;
  }

  lemma RunsWhen(s: State, a: Action)
    requires Enabled(s, a)
    ensures !s.c.phase.Running? && Step(s, a).c.phase.Running? <==> s.c.phase.TimerArmed? && a.BeginPass?
  {
    hide SomePending, IsPending;
  }

  /**
   Every change of phase in a run: an announcement wakes a parked reconciler, only arming arms it, only an
   armed one starts a pass, and it parks when every tracked process has had its checks.
   */
  lemma PhaseChanges(actions: seq<Action>, s: State, a: Action)
    requires Run(Init(), actions, s) && Enabled(s, a)
    ensures var before, after := s.c.phase, Step(s, a).c.phase;
            && (!before.WakePending? && after.WakePending? <==> before.Parked? && a == Notify(true))
            && (!before.TimerArmed? && after.TimerArmed? <==>
                  !before.TimerArmed? && !before.Disabled? && a.Arm? && a.armOk && ShortOfChecks(s.c.applied))
            && (!before.Running? && after.Running? <==> before.TimerArmed? && a.BeginPass?)
            && (!before.Parked? && after.Parked? ==> !ShortOfChecks(Step(s, a).c.applied))
            && (after.TimerArmed? || after.WakePending? ==> ShortOfChecks(Step(s, a).c.applied))
  {
    hide Run;
    InitInv();
    RunKeepsInv(Init(), actions, s);
    StepKeepsInv(s, a);
    WakesWhen(s, a);
    if !s.c.phase.TimerArmed? { ArmsWhen(s, a); }
    RunsWhen(s, a);
    PendingIsShort(s.c.applied);
    PendingIsShort(Step(s, a).c.applied);
    if !s.c.phase.Parked? && Step(s, a).c.phase.Parked? { BecomesParked(s, a); }
    hide Step, Enabled, EntriesOk, CutOk, HolderOk, PhasePromises, TimerOk, SomePending, ShortOfChecks;
  }

  /**
   What an arm call does in every reachable state: it starts the timer for a batch that has none, says stop exactly
   when it fails to or is disabled, and parks when every tracked process has had its checks.
   */
  lemma ArmingOutcome(actions: seq<Action>, s: State, armOk: bool, cancelOk: bool)
    requires Run(Init(), actions, s) && Enabled(s, Arm(armOk, cancelOk))
    ensures var t := Step(s, Arm(armOk, cancelOk));
            var needsTimer := ShortOfChecks(s.c.applied) && !s.c.phase.TimerArmed? && !s.c.phase.Disabled?;
            && t.c.applied == s.c.applied && t.c.insertionEvent == s.c.insertionEvent
            && (needsTimer && armOk ==> t.c.phase.TimerArmed? && t.c.timer.Active? && t.worker.Waiting?)
            && (needsTimer && !armOk ==> t.c.phase.Disabled? && t.c.timer == s.c.timer && t.worker.Exited?)
            && (s.c.phase.Disabled? ==> t.c == s.c && t.worker.Exited?)
            && (s.c.phase.TimerArmed? ==> t.c == s.c && t.worker.Waiting?)
            && (!ShortOfChecks(s.c.applied) && !s.c.phase.Disabled? ==> t.c.phase.Parked? && t.worker.Waiting?)
            && (t.c.timer.Active? && !s.c.timer.Active? ==> armOk)
  {
    hide Run;
    InitInv();
    RunKeepsInv(Init(), actions, s);
    PendingIsShort(s.c.applied);
    hide EntriesOk, CutOk, PhasePromises, TimerOk, HolderOk, SomePending, ShortOfChecks;
  }

  /** The insertion event is set by the announcement that wakes a parked reconciler, and cleared by the wait alone. */
  lemma InsertionEventChanges(actions: seq<Action>, s: State, a: Action)
    requires Run(Init(), actions, s) && Enabled(s, a)
    ensures Step(s, a).c.insertionEvent <==>
            (a == Notify(true) && s.c.phase.Parked?) || (s.c.insertionEvent && !(a.WaitReturns? && !s.shutdownEvent))
  {
    hide Run;
    InitInv();
    RunKeepsInv(Init(), actions, s);
    hide EntriesOk, CutOk, BatchHasWork, PhasePromises, TimerOk, SomePending;
  }

  // ---------------------------------------------------------------- the timer

  predicate CancelFails(a: Action) {
    match a
    case Remove(_, cancelOk) => !cancelOk
    case WatchFailed(cancelOk) => !cancelOk
    case WaitFails(cancelOk) => !cancelOk
    case Arm(_, cancelOk) => !cancelOk
    case GiveUp(cancelOk) => !cancelOk
    case DisableForShutdown(cancelOk) => !cancelOk
    case _ => false
  }

  predicate RunsOnlyArmed(s: State) {
    && (s.c.timer.Active? ==> s.c.phase.TimerArmed?)
    && (s.c.phase.TimerArmed? && s.worker.WokeTimer? ==> !s.c.timer.Active?)
  }

  lemma RunsOnlyArmedStep(s: State, a: Action)
    requires Inv(s) && RunsOnlyArmed(s) && Enabled(s, a) && !CancelFails(a)
    ensures RunsOnlyArmed(Step(s, a))
  {
    hide EntriesOk, HolderOk, CutOk, BatchHasWork, PhasePromises, SomePending, IsPending;
  }

  lemma {:induction false} RunsOnlyArmedRun(s: State, actions: seq<Action>, t: State)
    requires Inv(s) && RunsOnlyArmed(s) && Run(s, actions, t)
    requires forall i :: 0 <= i < |actions| ==> !CancelFails(actions[i])
    ensures Inv(t) && RunsOnlyArmed(t)
    decreases |actions|
  {
    if actions == [] {
    } else {
      hide Inv, Step, Enabled, RunsOnlyArmed, CancelFails;
      RunsOnlyArmedStep(s, actions[0]);
      StepKeepsInv(s, actions[0]);
      RunsOnlyArmedRun(Step(s, actions[0]), actions[1..], t);
    }
  }

  /** As long as no cancellation fails, the timer is running exactly while an arming waits for its expiry. */
  lemma TimerRunsOnlyArmed(actions: seq<Action>, t: State)
    requires Run(Init(), actions, t)
    requires forall i :: 0 <= i < |actions| ==> !CancelFails(actions[i])
    ensures t.c.timer.Active? ==> t.c.phase.TimerArmed? && ShortOfChecks(t.c.applied)
    ensures t.h.arming.Pending? ==> t.c.timer.Active? && t.c.phase.TimerArmed?
  {
    hide Run;
    InitInv();
    RunsOnlyArmedRun(Init(), actions, t);
    PendingIsShort(t.c.applied);
  }

  // ---------------------------------------------------------------- without failures all checks are made

  /**
   Without failures and shutdown, the worker and its timer alone come to rest only where every tracked
   process has had its three checks, parked and waiting with nothing signaled.
   */
  lemma AtRestAllAreChecked(before: seq<Action>, s: State, actions: seq<Action>, t: State)
    requires Run(Init(), before, s) && Alone(s) && !s.shuttingDown
    requires Run(s, actions, t) && NoneOfOthers(actions) && NoFailures(before) && NoFailures(actions)
    requires !CanProceed(t)
    ensures forall k :: k in t.c.applied ==> t.c.applied[k].checks == 3
    ensures t.c.phase.Parked? && t.worker.Waiting? && !t.c.insertionEvent && t.c.timer.Inactive?
  {
    hide Run, IsFailure, Rank;
    InitInv();
    HealthyRun(Init(), before, s);
    HealthyRun(s, actions, t);
    WorkerAloneStops(s, actions, t);
    StaysOpen(s, actions, t);
    RestIsChecked(t);
  }

  /** Only another thread begins the shutdown. */
  lemma {:induction false} StaysOpen(s: State, actions: seq<Action>, t: State)
    requires Run(s, actions, t) && NoneOfOthers(actions) && !s.shuttingDown
    ensures !t.shuttingDown
    decreases |actions|
  {
    if actions == [] {
    } else {
      hide SomePending, IsPending;
      StaysOpen(Step(s, actions[0]), actions[1..], t);
    }
  }

  lemma UnfinishedBatchProceeds(t: State)
    ensures t.holder.Pass? && t.holder.stage.Batch? && t.holder.stage.todo != {} ==> CanProceed(t)
  {
    if t.holder.Pass? && t.holder.stage.Batch? && t.holder.stage.todo != {} {
      var k :| k in t.holder.stage.todo;
      assert Enabled(t, Check(k, false));
    }
  }

  lemma RestIsParked(t: State)
    requires Inv(t) && Healthy(t) && Alone(t) && !t.shuttingDown && !SomePending(t.c.applied) && !CanProceed(t)
    ensures t.c.phase.Parked? && t.worker.Waiting? && !t.c.insertionEvent && t.c.timer.Inactive?
  {
    UnfinishedBatchProceeds(t);
    hide EntriesOk, CutOk, PhasePromises, TimerOk, SomePending;
  }

  lemma RestIsChecked(s: State)
    requires Inv(s) && Healthy(s) && Alone(s) && !s.shuttingDown && !CanProceed(s)
    ensures forall k :: k in s.c.applied ==> s.c.applied[k].checks == 3
    ensures s.c.phase.Parked? && s.worker.Waiting? && !s.c.insertionEvent && s.c.timer.Inactive?
  {
    PromisesMeanWakeup(s);
    PendingIsShort(s.c.applied);
    if !Finished(s) { PendingCanProceed(s); }
    RestIsParked(s);
  }

  /** What a check leaves of an entry, and all steps used below do. */
  predicate SameButChecks(s: Applied, t: Applied) {
    && t.Keys == s.Keys
    && forall k :: k in s ==> t[k] == s[k].(checks := t[k].checks)
  }

  /** The next step of a worker that is left alone and for which everything goes well. */
  ghost predicate IsNext(s: State, a: Action) {
    && Enabled(s, a) && !IsFailure(a) && !OfOthers(a)
    && (IsControl(a) || (a == Notify(true) && s.holder.Pass?))
  }

  lemma NextInPass(s: State) returns (a: Action)
    requires CanProceed(s) && s.holder.Pass? && s.worker.InPass?
    ensures Enabled(s, a) && !IsFailure(a) && !OfOthers(a)
    ensures IsControl(a) || a == Notify(true)
  {
    assert !Enabled(s, WaitReturns) && !Enabled(s, Arm(true, true)) && !Enabled(s, BeginPass);
    assert !Enabled(s, TakeActivity) && !Enabled(s, GiveUp(true));
    hide Enabled;
    if Enabled(s, Notify(true)) {
      a := Notify(true);
    } else if exists k :: Enabled(s, Check(k, false)) {
      var k :| Enabled(s, Check(k, false));
      a := Check(k, false);
    } else if Enabled(s, ReadFlagInPass) {
      a := ReadFlagInPass;
    } else if Enabled(s, EndBatch) {
      a := EndBatch;
    } else if Enabled(s, EndGlobal) {
      a := EndGlobal;
    } else {
      a := Expire;
    }
  }

  lemma NextOutside(s: State) returns (a: Action)
    requires CanProceed(s) && !s.holder.Pass? && !s.worker.Failing?
    ensures IsNext(s, a)
  {
    assert !Enabled(s, ReadFlagInPass) && !Enabled(s, EndBatch) && !Enabled(s, EndGlobal) && !Enabled(s, GiveUp(true));
    assert forall k :: !Enabled(s, Check(k, false));
    hide Enabled;
    if Enabled(s, WaitReturns) {
      a := WaitReturns;
    } else if Enabled(s, Arm(true, true)) {
      a := Arm(true, true);
    } else if Enabled(s, BeginPass) {
      a := BeginPass;
    } else if Enabled(s, TakeActivity) {
      a := TakeActivity;
    } else {
      a := Expire;
    }
  }

  lemma NextStep(s: State) returns (a: Action)
    requires Inv(s) && Healthy(s) && CanProceed(s)
    ensures IsNext(s, a)
  {
    hide CanProceed, Enabled, EntriesOk, HolderOk, CutOk, BatchHasWork, PhasePromises, TimerOk;
    if s.holder.Pass? { a := NextInPass(s); } else { a := NextOutside(s); }
  }

  function Unannounced(s: State): nat {
    if Added(s.holder).Some? then 1 else 0
  }

  lemma NextKeepsEntries(s: State, a: Action)
    requires Inv(s) && IsNext(s, a)
    ensures SameButChecks(s.c.applied, Step(s, a).c.applied)
  {
    if a.Check? {
      CheckSpends(s, a.key, a.drift);
      hide Inv;
    } else {
      OthersKeepEntries(s, a);
      hide Inv, Step;
    }
  }

  lemma NextLowers(s: State, a: Action)
    requires Inv(s) && IsNext(s, a)
    ensures Rank(Step(s, a)) + Unannounced(Step(s, a)) < Rank(s) + Unannounced(s)
  {
    if IsControl(a) {
      WorkerLowersRank(s, a);
      hide EntriesOk, CutOk, HolderOk, BatchHasWork, PhasePromises, TimerOk, Rank, SomePending, IsPending;
    } else {
      MutationKeepsRank(s, a);
      hide Inv, Rank, SomePending, IsPending;
    }
  }

  lemma {:induction false} FinishFrom(s: State) returns (actions: seq<Action>, t: State)
    requires Inv(s) && Healthy(s) && Alone(s) && !s.shuttingDown
    ensures Run(s, actions, t) && NoneOfOthers(actions) && NoFailures(actions)
    ensures |actions| <= Rank(s) + Unannounced(s) && SameButChecks(s.c.applied, t.c.applied)
    ensures forall k :: k in t.c.applied ==> t.c.applied[k].checks == 3
    ensures t.c.phase.Parked? && t.worker.Waiting? && !t.c.insertionEvent && t.c.timer.Inactive?
    decreases Rank(s) + Unannounced(s)
  {
    hide Inv, Healthy, Enabled, Step, IsFailure, Rank, SomePending, Alone, Unannounced;
    if CanProceed(s) {
      var a := NextStep(s);
      hide CanProceed;
      HealthyStep(s, a);
      StepKeepsInv(s, a);
      AloneStays(s, a);
      OneStepStaysOpen(s, a);
      NextKeepsEntries(s, a);
      NextLowers(s, a);
      var rest;
      rest, t := FinishFrom(Step(s, a));
      actions := [a] + rest;
      assert actions[1..] == rest;
    } else {
      actions, t := [], s;
      RestIsChecked(s);
    }
  }

  lemma OneStepStaysOpen(s: State, a: Action)
    requires Enabled(s, a) && !OfOthers(a) && !s.shuttingDown
    ensures !Step(s, a).shuttingDown
  {
    hide SomePending, IsPending;
  }

  /**
   And it can get there: from any state reached without failures in which no other thread is inside, the worker and
   its timer have a run without failures, of at most `Rank(s) + 1` steps, to a parked reconciler.  Every process
   tracked before is still tracked and has had its three checks; nothing else about its entry has changed.
   */
  lemma WorkCanFinish(before: seq<Action>, s: State) returns (actions: seq<Action>, t: State)
    requires Run(Init(), before, s) && NoFailures(before) && Alone(s) && !s.shuttingDown
    ensures Run(s, actions, t) && NoneOfOthers(actions) && NoFailures(actions) && |actions| <= Rank(s) + 1
    ensures t.c.applied.Keys == s.c.applied.Keys
    ensures forall k :: k in t.c.applied ==> t.c.applied[k] == s.c.applied[k].(checks := 3)
    ensures t.c.phase.Parked? && t.worker.Waiting? && !t.c.insertionEvent && t.c.timer.Inactive?
  {
    hide Run, IsFailure, Rank;
    InitInv();
    HealthyRun(Init(), before, s);
    actions, t := FinishFrom(s);
  }
}
