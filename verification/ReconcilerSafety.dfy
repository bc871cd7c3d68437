/** Safety of the reconciler in every interleaving: no lost wakeup, timer discipline, a clean shutdown cut. */
module ReconcilerSafety {
  import opened Outcomes
  import opened ProcessPolicy
  import opened Reconciler

  lemma InitInv()
    ensures Inv(Init())
  {
  }

  lemma PendingSomewhere(applied: Applied, k: ProcessKey)
    requires k in applied && IsPending(applied[k])
    ensures SomePending(applied) && k in PendingKeys(applied)
  {
  }

  lemma StepKeepsStructure(s: State, a: Action)
    requires Basic(s) && Enabled(s, a)
    ensures Structure(Step(s, a))
  {
    hide EntriesOk, BatchHasWork;
  }

  lemma StepKeepsEntries(s: State, a: Action)
    requires Basic(s) && Enabled(s, a)
    ensures EntriesOk(Step(s, a).c.applied)
  {
    hide Structure, BatchHasWork, CutOk;
    if !ChangesEntries(a) {
      OthersKeepEntries(s, a);
      hide Step;
    }
  }

  lemma StepKeepsHolder(s: State, a: Action)
    requires Basic(s) && Enabled(s, a)
    ensures HolderOk(Step(s, a))
  {
    hide Structure, BatchHasWork, CutOk;
  }

  lemma StepKeepsCut(s: State, a: Action)
    requires Basic(s) && Enabled(s, a)
    ensures CutOk(Step(s, a))
  {
    hide EntriesOk, BatchHasWork, Structure;
  }

  /** The actions that change tracked entries. */
  predicate ChangesEntries(a: Action) {
    a.Insert? || a.Reapply? || a.Remove? || a.WatchFailed? || a.Check?
  }

  lemma OthersKeepEntries(s: State, a: Action)
    requires Enabled(s, a) && !ChangesEntries(a)
    ensures Step(s, a).c.applied == s.c.applied && Step(s, a).h.insertions == s.h.insertions
  {
  }

  lemma PendingBefore(s: State, a: Action, k: ProcessKey)
    requires Basic(s) && Enabled(s, a) && !a.Insert?
    requires k in Step(s, a).c.applied && IsPending(Step(s, a).c.applied[k])
    ensures k in s.c.applied && IsPending(s.c.applied[k])
  {
    hide Structure, BatchHasWork, CutOk, HolderOk;
    if !ChangesEntries(a) {
      OthersKeepEntries(s, a);
      hide Step, EntriesOk;
    }
  }

  lemma PendingStays(s: State, a: Action, k: ProcessKey)
    requires Basic(s) && Enabled(s, a) && !a.Remove? && !a.WatchFailed? && !a.Check?
    requires k in s.c.applied && IsPending(s.c.applied[k])
    ensures k in Step(s, a).c.applied && IsPending(Step(s, a).c.applied[k])
  {
    hide Structure, BatchHasWork, CutOk, HolderOk;
    if !ChangesEntries(a) {
      OthersKeepEntries(s, a);
      hide Step, EntriesOk;
    }
  }

  /** Only an insertion makes an entry pending; no step but a removal or a check ends it. */
  lemma PendingAfter(s: State, a: Action)
    requires Basic(s) && Enabled(s, a)
    ensures SomePending(Step(s, a).c.applied) && !a.Insert? ==> SomePending(s.c.applied)
    ensures SomePending(s.c.applied) && !a.Remove? && !a.WatchFailed? && !a.Check? ==> SomePending(Step(s, a).c.applied)
  {
    hide Basic, Step, Enabled;
    var before, after := s.c.applied, Step(s, a).c.applied;
    if SomePending(after) && !a.Insert? {
      var k :| k in after && IsPending(after[k]);
      PendingBefore(s, a, k);
    }
    if SomePending(before) && !a.Remove? && !a.WatchFailed? && !a.Check? {
      var k :| k in before && IsPending(before[k]);
      PendingStays(s, a, k);
    }
  }

  lemma StepKeepsWork(s: State, a: Action)
    requires Basic(s) && Enabled(s, a)
    ensures BatchHasWork(Step(s, a))
  {
    PendingAfter(s, a);
    hide EntriesOk, CutOk, SomePending;
    if a.Notify? {
      hide HolderOk;
      var k := Added(s.holder).value;
      if k in s.c.applied && IsPending(s.c.applied[k]) { PendingSomewhere(s.c.applied, k); }
    }
  }

  /** Parking means that nothing is left; a parked reconciler leaves that phase for the next announcement. */
  lemma BecomesParked(s: State, a: Action)
    requires Enabled(s, a) && !s.c.phase.Parked? && Step(s, a).c.phase.Parked?
    ensures !SomePending(Step(s, a).c.applied)
  {
    hide SomePending;
  }

  lemma StaysParked(s: State, a: Action, k: ProcessKey)
    requires Enabled(s, a) && s.c.phase.Parked? && Step(s, a).c.phase.Parked?
    requires Added(s.holder) == Some(k) && k in s.c.applied && IsPending(s.c.applied[k]) && k in Step(s, a).c.applied
    ensures Added(Step(s, a).holder) == Some(k)
  {
    hide SomePending, IsPending;
  }

  lemma StepKeepsParked(s: State, a: Action)
    requires Basic(s) && PhasePromises(s) && Enabled(s, a) && Step(s, a).c.phase.Parked?
    ensures OnlyAddedPending(Step(s, a))
  {
    var t := Step(s, a);
    if a.Insert? {
      hide Structure, CutOk, BatchHasWork, HolderOk;
    } else {
      hide Basic, Step, Enabled;
      forall k | k in t.c.applied && IsPending(t.c.applied[k]) ensures Added(t.holder) == Some(k) {
        PendingSomewhere(t.c.applied, k);
        PendingBefore(s, a, k);
        if s.c.phase.Parked? { StaysParked(s, a, k); } else { BecomesParked(s, a); }
      }
    }
  }

  lemma StepKeepsPromises(s: State, a: Action)
    requires Basic(s) && PhasePromises(s) && Enabled(s, a)
    ensures PhasePromises(Step(s, a))
  {
    if Step(s, a).c.phase.Parked? { StepKeepsParked(s, a); }
    hide EntriesOk, CutOk, SomePending, OnlyAddedPending, HolderOk, BatchHasWork, IsPending;
  }

  lemma PromisesMeanWakeup(s: State)
    requires Inv(s)
    ensures NoLostWakeup(s)
  {
  }

  lemma StepKeepsTimer(s: State, a: Action)
    requires Basic(s) && TimerOk(s) && Enabled(s, a)
    ensures TimerOk(Step(s, a))
  {
    hide EntriesOk, CutOk, SomePending, HolderOk;
  }

  lemma StepKeepsInv(s: State, a: Action)
    requires Inv(s) && Enabled(s, a)
    ensures Inv(Step(s, a))
  {
    hide Structure, EntriesOk, HolderOk, CutOk, BatchHasWork, PhasePromises, TimerOk, Step, Enabled;
    StepKeepsStructure(s, a);
    StepKeepsEntries(s, a);
    StepKeepsHolder(s, a);
    StepKeepsCut(s, a);
    StepKeepsWork(s, a);
    StepKeepsPromises(s, a);
    StepKeepsTimer(s, a);
  }

  lemma {:induction false} RunKeepsInv(s: State, actions: seq<Action>, t: State)
    requires Inv(s) && Run(s, actions, t)
    ensures Inv(t)
    decreases |actions|
  {
    if actions == [] {
    } else {
      hide Inv, Step, Enabled;
      StepKeepsInv(s, actions[0]);
      RunKeepsInv(Step(s, actions[0]), actions[1..], t);
    }
  }

  // ---------------------------------------------------------------- no lost wakeup

  /**
   In every reachable state with an enabled reconciler and a tracked process short of its three
   checks, an insertion is being announced, or the phase has a signal, a timer or a worker to
   carry the work on.
   */
  lemma NoWakeupIsLost(actions: seq<Action>, t: State)
    requires Run(Init(), actions, t)
    ensures NoLostWakeup(t)
  {
    hide Run;
    InitInv();
    RunKeepsInv(Init(), actions, t);
    PromisesMeanWakeup(t);
  }

  /** So a waiting worker is never asleep for good: its wait can return, or its timer can expire. */
  lemma WorkerCanWake(actions: seq<Action>, t: State)
    requires Run(Init(), actions, t)
    requires SomePending(t.c.applied) && !t.c.phase.Disabled? && Added(t.holder).None?
    ensures t.worker.Waiting? ==> Enabled(t, WaitReturns) || Enabled(t, Expire)
    ensures t.worker.Exited? ==> t.shuttingDown
  {
    hide Run;
    InitInv();
    RunKeepsInv(Init(), actions, t);
    PromisesMeanWakeup(t);
  }

  /**
   What the phases mean in every reachable state: a waiting batch has work; TimerArmed is exactly an
   arming that is running or has expired; and while parked nothing is pending but an insertion
   that is about to be announced.
   */
  lemma PhasesAreHonest(actions: seq<Action>, t: State)
    requires Run(Init(), actions, t)
    ensures t.c.phase.TimerArmed? || t.c.phase.WakePending? ==> SomePending(t.c.applied)
    ensures t.c.phase.TimerArmed? <==> t.h.arming.Pending? || t.h.arming.Expired?
    ensures t.c.phase.Parked? ==>
              forall k :: k in t.c.applied && IsPending(t.c.applied[k]) ==> Added(t.holder) == Some(k)
    ensures t.c.phase.Running? ==>
              t.worker.WantsActivity? || t.worker.InPass? || t.worker.Rearming? || t.worker.Failing?
  {
    hide Run;
    InitInv();
    RunKeepsInv(Init(), actions, t);
  }

  // ---------------------------------------------------------------- timer discipline

  /**
   A pass starts only after the expiry of the latest arming, and uses that arming up; after any other
   signal, such as the stale one of a cancelled timer, the worker goes back to its wait.
   */
  lemma PassNeedsExpiry(actions: seq<Action>, s: State)
    requires Run(Init(), actions, s) && Enabled(s, BeginPass)
    ensures Step(s, BeginPass).c.phase.Running? <==> s.h.arming.Expired?
    ensures s.h.arming.Expired? ==> Step(s, BeginPass).h.arming.Used?
    ensures !s.h.arming.Expired? ==> Step(s, BeginPass).worker.Waiting? && Step(s, BeginPass).c == s.c
  {
    InitInv();
    RunKeepsInv(Init(), actions, s);
    hide Run, EntriesOk, HolderOk, CutOk, BatchHasWork;
  }

  /** The steps that leave an armed batch alone. */
  predicate LeavesBatch(a: Action) {
    a.Insert? || a.Notify? || a.Reapply? || a.WritePolicy? || a.Enter? || a.ReadFlag? || a.Leave? || a.Arm?
  }

  lemma LeavesBatchAlone(s: State, a: Action)
    requires Inv(s) && Enabled(s, a) && s.c.phase.TimerArmed? && LeavesBatch(a)
    ensures Step(s, a).c.phase.TimerArmed? && Step(s, a).c.timer == s.c.timer && Step(s, a).h.arming == s.h.arming
  {
    hide EntriesOk, HolderOk, CutOk;
  }

  /** No insertion, announcement, re-application or further arm call re-arms or resets an armed batch. */
  lemma {:induction false} InsertionsKeepTheBatch(s: State, actions: seq<Action>, t: State)
    requires Inv(s) && s.c.phase.TimerArmed? && Run(s, actions, t)
    requires forall i :: 0 <= i < |actions| ==> LeavesBatch(actions[i])
    ensures t.c.phase.TimerArmed? && t.c.timer == s.c.timer && t.h.arming == s.h.arming
    decreases |actions|
  {
    if actions == [] {
    } else {
      hide Inv, Step, Enabled;
      LeavesBatchAlone(s, actions[0]);
      StepKeepsInv(s, actions[0]);
      InsertionsKeepTheBatch(Step(s, actions[0]), actions[1..], t);
    }
  }

  /** Passes that have begun and not ended. */
  function UnderWay(s: State): nat {
    if s.worker.WantsActivity? || s.worker.InPass? then 1 else 0
  }

  lemma DisabledStays(s: State, a: Action)
    requires Inv(s) && Enabled(s, a) && s.c.phase.Disabled?
    ensures Step(s, a).c.phase.Disabled?
    ensures Step(s, a).c.insertionEvent ==> s.c.insertionEvent
    ensures Step(s, a).c.timer.Active? ==> s.c.timer.Active?
    ensures Step(s, a).h.completed + UnderWay(Step(s, a)) <= s.h.completed + UnderWay(s)
  {
    hide EntriesOk, HolderOk, CutOk, BatchHasWork;
  }

  /** Disabled is absorbing: no event is set, no timer started and no pass begun ever again. */
  lemma {:induction false} DisabledIsAbsorbing(s: State, actions: seq<Action>, t: State)
    requires Inv(s) && s.c.phase.Disabled? && Run(s, actions, t)
    ensures t.c.phase.Disabled?
    ensures t.c.insertionEvent ==> s.c.insertionEvent
    ensures t.c.timer.Active? ==> s.c.timer.Active?
    ensures t.h.completed + UnderWay(t) <= s.h.completed + UnderWay(s)
    decreases |actions|
  {
    if actions == [] {
    } else {
      hide Inv, Step, Enabled, UnderWay;
      DisabledStays(s, actions[0]);
      StepKeepsInv(s, actions[0]);
      DisabledIsAbsorbing(Step(s, actions[0]), actions[1..], t);
    }
  }

  // ---------------------------------------------------------------- shutdown

  lemma CutStep(s: State, a: Action)
    requires Inv(s) && Enabled(s, a) && s.shuttingDown
    ensures Step(s, a).shuttingDown
    ensures Step(s, a).c.applied == s.c.applied
    ensures Step(s, a).h.writes == s.h.writes && Step(s, a).h.completed == s.h.completed
    ensures !a.Check? && !a.EndBatch?
  {
    hide EntriesOk, HolderOk, BatchHasWork, PhasePromises, TimerOk;
  }

  /** A clean cut: once the flag is set, no tracked entry changes and no policy is written, ever. */
  lemma {:induction false} ShutdownIsACleanCut(s: State, actions: seq<Action>, t: State)
    requires Inv(s) && s.shuttingDown && Run(s, actions, t)
    ensures t.c.applied == s.c.applied && t.h.writes == s.h.writes && t.h.completed == s.h.completed
    ensures t.shuttingDown
    decreases |actions|
  {
    if actions == [] {
    } else {
      hide Inv, Step, Enabled;
      CutStep(s, actions[0]);
      StepKeepsInv(s, actions[0]);
      ShutdownIsACleanCut(Step(s, actions[0]), actions[1..], t);
    }
  }

  lemma BatchNeverSeesShutdown(s: State, a: Action)
    requires Inv(s) && Enabled(s, a) && (a.Check? || a.EndBatch?)
    ensures !s.shuttingDown
  {
    hide EntriesOk, HolderOk, BatchHasWork, PhasePromises, TimerOk;
  }

  /** In every run: whenever a batch tests the flag, before a check or before its end, it finds it clear. */
  lemma ShutdownTestsNeverFire(actions: seq<Action>, s: State, a: Action)
    requires Run(Init(), actions, s) && Enabled(s, a) && (a.Check? || a.EndBatch?)
    ensures !s.shuttingDown
  {
    hide Run;
    InitInv();
    RunKeepsInv(Init(), actions, s);
    BatchNeverSeesShutdown(s, a);
  }
}
