/** How much work the reconciler does, and that it gets done. */
module ReconcilerProgress {
  import opened Outcomes
  import opened ProcessPolicy
  import opened Reconciler
  import opened ReconcilerSafety

  // ---------------------------------------------------------------- the budget of open checks

  function Left(e: Entry): nat {
    if IsPending(e) then MAX_CHECKS - e.checks else 0
  }

  /** Checks the tracked processes can still get, over all of them. */
  ghost function Budget(applied: Applied): nat
    decreases |applied|
  {
    if applied == map[] then 0
    else
      var k :| k in applied;
      Left(applied[k]) + Budget(applied - {k})
  }

  lemma {:induction false} BudgetSplit(applied: Applied, k: ProcessKey)
    requires k in applied
    ensures Budget(applied) == Left(applied[k]) + Budget(applied - {k})
    decreases |applied|
  {
    var j :| j in applied && Budget(applied) == Left(applied[j]) + Budget(applied - {j});
    if j == k {
    } else {
      BudgetSplit(applied - {j}, k);
      BudgetSplit(applied - {k}, j);
      assert applied - {j} - {k} == applied - {k} - {j};
    }
  }

  lemma BudgetUpdate(applied: Applied, k: ProcessKey, e: Entry)
    ensures Budget(applied[k := e]) == Left(e) + Budget(applied - {k})
  {
    BudgetSplit(applied[k := e], k);
    assert applied[k := e] - {k} == applied - {k};
  }

  lemma BudgetRemove(applied: Applied, k: ProcessKey)
    ensures Budget(applied - {k}) <= Budget(applied)
    ensures k in applied ==> Budget(applied) == Left(applied[k]) + Budget(applied - {k})
  {
    if k in applied { BudgetSplit(applied, k); } else { assert applied - {k} == applied; }
  }

  /** Checks that insertions brought in and that have since been made or dropped. */
  ghost function Spent(s: State): int {
    MAX_CHECKS * s.h.insertions - Budget(s.c.applied)
  }

  /** No step creates open checks except an insertion, which brings three. */
  lemma SpentGrows(s: State, a: Action)
    requires Inv(s) && Enabled(s, a)
    ensures Spent(Step(s, a)) >= Spent(s)
    ensures a.Check? ==> Spent(Step(s, a)) == Spent(s) + 1
    ensures !SomePending(Step(s, a).c.applied) && SomePending(s.c.applied) ==> Spent(Step(s, a)) > Spent(s)
  {
    match a
    case Insert(key, entry) => InsertSpends(s, key, entry);
    case Reapply(key, signature, policy) => ReapplySpends(s, key, signature, policy);
    case Remove(key, cancelOk) => RemoveSpends(s, a, key);
    case WatchFailed(cancelOk) => RemoveSpends(s, a, Added(s.holder).value);
    case Check(key, drift) => CheckSpends(s, key, drift);
    case _ => OthersKeepEntries(s, a);
  }

  lemma InsertSpends(s: State, key: ProcessKey, entry: Entry)
    requires Inv(s) && Enabled(s, Insert(key, entry))
    ensures Spent(Step(s, Insert(key, entry))) == Spent(s)
    ensures SomePending(Step(s, Insert(key, entry)).c.applied)
  {
    hide Structure, HolderOk, CutOk, BatchHasWork, PhasePromises, TimerOk;
    BudgetUpdate(s.c.applied, key, entry);
    assert s.c.applied - {key} == s.c.applied;
    PendingSomewhere(s.c.applied[key := entry], key);
  }

  lemma ReapplySpends(s: State, key: ProcessKey, signature: Signature, policy: Policy)
    requires Inv(s) && Enabled(s, Reapply(key, signature, policy))
    ensures Spent(Step(s, Reapply(key, signature, policy))) == Spent(s)
    ensures SomePending(s.c.applied) ==> SomePending(Step(s, Reapply(key, signature, policy)).c.applied)
  {
    PendingAfter(s, Reapply(key, signature, policy));
    hide Structure, HolderOk, CutOk, BatchHasWork, PhasePromises, TimerOk, SomePending;
    var applied := s.c.applied;
    BudgetUpdate(applied, key, applied[key].(signature := signature, enforcing := true, policy := policy));
    BudgetSplit(applied, key);
  }

  lemma RemoveSpends(s: State, a: Action, key: ProcessKey)
    requires Inv(s) && Enabled(s, a)
    requires (a.Remove? && a.key == key) || (a.WatchFailed? && Added(s.holder) == Some(key))
    ensures Spent(Step(s, a)) >= Spent(s)
    ensures !SomePending(Step(s, a).c.applied) && SomePending(s.c.applied) ==> Spent(Step(s, a)) > Spent(s)
  {
    hide Structure, EntriesOk, HolderOk, CutOk, BatchHasWork, PhasePromises, TimerOk;
    var before, after := s.c.applied, Step(s, a).c.applied;
    assert after == before - {key};
    BudgetRemove(before, key);
    if SomePending(before) {
      var k :| k in before && IsPending(before[k]);
      if k != key { assert k in after && IsPending(after[k]); }
    }
  }

  lemma CheckSpends(s: State, key: ProcessKey, drift: bool)
    requires Inv(s) && Enabled(s, Check(key, drift))
    ensures Spent(Step(s, Check(key, drift))) == Spent(s) + 1
    ensures Step(s, Check(key, drift)).c.applied == s.c.applied[key := Advanced(s.c.applied[key])]
  {
    BatchNeverSeesShutdown(s, Check(key, drift));
    hide Structure, EntriesOk, CutOk, BatchHasWork, PhasePromises, TimerOk;
    var applied := s.c.applied;
    assert key in PendingKeys(applied);
    BudgetUpdate(applied, key, Advanced(applied[key]));
    BudgetSplit(applied, key);
  }

  // ---------------------------------------------------------------- passes are paid for by insertions

  /** Every completed pass has spent a check; one under way has, or still finds a pending entry. */
  ghost predicate PassesPaid(s: State) {
    && s.h.completed <= Spent(s)
    && (s.worker.WantsActivity? || s.holder == Pass(Starting) ==>
          SomePending(s.c.applied) || s.h.completed < Spent(s))
    && (s.holder.Pass? && s.holder.stage.Batch? && s.holder.stage.todo == {} ==> s.h.completed < Spent(s))
    && (s.holder.Pass? && s.holder.stage.Global? ==> s.h.completed < Spent(s))
  }

  lemma StepKeepsPaid(s: State, a: Action)
    requires Inv(s) && PassesPaid(s) && Enabled(s, a)
    ensures PassesPaid(Step(s, a))
  {
    SpentGrows(s, a);
    PendingAfter(s, a);
    if a.ReadFlagInPass? { SnapshotIsPaid(s); }
    hide Structure, EntriesOk, HolderOk, CutOk, PhasePromises, TimerOk, SomePending, Spent, PendingKeys;
  }

  lemma SnapshotIsPaid(s: State)
    requires Inv(s) && PassesPaid(s) && Enabled(s, ReadFlagInPass)
    ensures PendingKeys(s.c.applied) == {} ==> !SomePending(s.c.applied)
  {
    if SomePending(s.c.applied) {
      var k :| k in s.c.applied && IsPending(s.c.applied[k]);
      PendingSomewhere(s.c.applied, k);
    }
  }

  lemma {:induction false} RunKeepsPaid(s: State, actions: seq<Action>, t: State)
    requires Inv(s) && PassesPaid(s) && Run(s, actions, t)
    ensures PassesPaid(t)
    decreases |actions|
  {
    if actions == [] {
    } else {
      hide Inv, Step, Enabled, PassesPaid;
      StepKeepsPaid(s, actions[0]);
      StepKeepsInv(s, actions[0]);
      RunKeepsPaid(Step(s, actions[0]), actions[1..], t);
    }
  }

  /** How many actions of each kind a run contains. */
  function Insertions(actions: seq<Action>): nat {
    if actions == [] then 0 else (if actions[0].Insert? then 1 else 0) + Insertions(actions[1..])
  }

  lemma {:induction false} InsertionsAreCounted(s: State, actions: seq<Action>, t: State)
    requires Run(s, actions, t)
    ensures t.h.insertions == s.h.insertions + Insertions(actions)
    decreases |actions|
  {
    if actions == [] {
    } else {
      InsertionsAreCounted(Step(s, actions[0]), actions[1..], t);
    }
  }

  /** In any run the completed passes are at most three times the insertions, less the checks still open. */
  lemma PassesAreBounded(actions: seq<Action>, t: State)
    requires Run(Init(), actions, t)
    ensures t.h.completed + Budget(t.c.applied) <= MAX_CHECKS * Insertions(actions)
  {
    InitInv();
    assert PassesPaid(Init());
    RunKeepsPaid(Init(), actions, t);
    InsertionsAreCounted(Init(), actions, t);
  }

  // ---------------------------------------------------------------- checks of one entry

  function ChecksOf(actions: seq<Action>, key: ProcessKey): nat {
    if actions == [] then 0
    else (if actions[0].Check? && actions[0].key == key then 1 else 0) + ChecksOf(actions[1..], key)
  }

  predicate Undisturbed(s: State, a: Action, key: ProcessKey) {
    && !(a.Remove? && a.key == key)
    && !(a.WatchFailed? && Added(s.holder) == Some(key))
  }

  predicate StaysTracked(s: State, actions: seq<Action>, key: ProcessKey)
    decreases |actions|
  {
    actions == [] ||
    (Undisturbed(s, actions[0], key) && Enabled(s, actions[0]) && StaysTracked(Step(s, actions[0]), actions[1..], key))
  }

  lemma CheckCounts(s: State, a: Action, key: ProcessKey)
    requires Inv(s) && Enabled(s, a) && key in s.c.applied && Undisturbed(s, a, key)
    ensures key in Step(s, a).c.applied
    ensures Step(s, a).c.applied[key].checks == s.c.applied[key].checks + if a.Check? && a.key == key then 1 else 0
  {
    if a.Check? {
      CheckSpends(s, a.key, a.drift);
    }
    hide Structure, EntriesOk, CutOk, BatchHasWork, PhasePromises, TimerOk;
  }

  /** While an instance stays tracked, each check it gets advances its counter, so it gets at most three. */
  lemma {:induction false} ChecksPerInstance(s: State, actions: seq<Action>, t: State, key: ProcessKey)
    requires Inv(s) && Run(s, actions, t) && key in s.c.applied && StaysTracked(s, actions, key)
    ensures key in t.c.applied
    ensures t.c.applied[key].checks == s.c.applied[key].checks + ChecksOf(actions, key) <= MAX_CHECKS
    decreases |actions|
  {
    if actions != [] {
      hide Step, Enabled, Undisturbed, Inv;
      CheckCounts(s, actions[0], key);
      StepKeepsInv(s, actions[0]);
      ChecksPerInstance(Step(s, actions[0]), actions[1..], t, key);
    } else {
      hide Structure, HolderOk, CutOk, BatchHasWork, PhasePromises, TimerOk;
    }
  }

  // ---------------------------------------------------------------- three quiet passes

  predicate CheckedAtLeast(applied: Applied, n: nat) {
    forall k :: k in applied ==> applied[k].checks >= n || applied[k].checks >= MAX_CHECKS
  }

  /** Entries outside `todo` have the check of this pass; all have those of the passes before it. */
  predicate QuietOk(s: State) {
    && CheckedAtLeast(s.c.applied, s.h.quiet)
    && (s.holder.Pass? && s.holder.stage.Batch? && s.h.clean ==>
          forall k :: k in s.c.applied && k !in s.holder.stage.todo ==>
            s.c.applied[k].checks >= s.h.quiet + 1 || s.c.applied[k].checks >= MAX_CHECKS)
    && (s.holder.Pass? && s.holder.stage.Global? && s.h.clean ==> CheckedAtLeast(s.c.applied, s.h.quiet + 1))
  }

  lemma CheckKeepsQuiet(s: State, key: ProcessKey, drift: bool)
    requires Inv(s) && QuietOk(s) && Enabled(s, Check(key, drift))
    ensures QuietOk(Step(s, Check(key, drift)))
  {
    CheckSpends(s, key, drift);
    BatchNeverSeesShutdown(s, Check(key, drift));
    hide Structure, CutOk, BatchHasWork, PhasePromises, TimerOk;
  }

  lemma SnapshotKeepsQuiet(s: State)
    requires Inv(s) && QuietOk(s) && Enabled(s, ReadFlagInPass)
    ensures QuietOk(Step(s, ReadFlagInPass))
  {
    hide Structure, CutOk, HolderOk, BatchHasWork, PhasePromises, TimerOk;
  }

  lemma EndKeepsQuiet(s: State, a: Action)
    requires Inv(s) && QuietOk(s) && Enabled(s, a) && (a.EndBatch? || a.EndGlobal? || a.PassError?)
    ensures QuietOk(Step(s, a))
  {
    if a.EndBatch? { BatchNeverSeesShutdown(s, a); }
    hide Structure, CutOk, HolderOk, BatchHasWork, PhasePromises, TimerOk;
  }

  /** Dropping entries, and changing anything but counters, keeps the count of quiet passes right. */
  lemma SameChecksStayQuiet(s: State, t: State)
    requires QuietOk(s) && t.h.quiet == s.h.quiet && t.h.clean == s.h.clean
    requires t.holder.Pass? ==> s.holder.Pass? && (if t.holder.stage.Batch? then t.holder == s.holder
                                                   else t.holder.stage.Global? ==> s.holder.stage.Global?)
    requires forall k :: k in t.c.applied ==> k in s.c.applied && t.c.applied[k].checks == s.c.applied[k].checks
    ensures QuietOk(t)
  {
  }

  lemma CallbackKeepsChecks(s: State, a: Action)
    requires Enabled(s, a) && IsCallback(a) && !a.Insert?
    ensures var t := Step(s, a);
            && t.h.quiet == s.h.quiet && t.h.clean == s.h.clean
            && (t.holder.Pass? ==> s.holder.Pass? && (if t.holder.stage.Batch? then t.holder == s.holder
                                                      else t.holder.stage.Global? ==> s.holder.stage.Global?))
            && forall k :: k in t.c.applied ==> k in s.c.applied && t.c.applied[k].checks == s.c.applied[k].checks
  {
    hide SomePending, IsPending;
  }

  lemma CallbackKeepsQuiet(s: State, a: Action)
    requires Inv(s) && QuietOk(s) && Enabled(s, a) && IsCallback(a)
    ensures QuietOk(Step(s, a))
  {
    hide Structure, CutOk, HolderOk, EntriesOk, BatchHasWork, PhasePromises, TimerOk;
    if !a.Insert? {
      CallbackKeepsChecks(s, a);
      hide Step;
      SameChecksStayQuiet(s, Step(s, a));
    }
  }

  lemma StepKeepsQuiet(s: State, a: Action)
    requires Inv(s) && QuietOk(s) && Enabled(s, a)
    ensures QuietOk(Step(s, a))
  {
    if IsCallback(a) {
      CallbackKeepsQuiet(s, a);
    } else {
      match a
      case Check(key, drift) => CheckKeepsQuiet(s, key, drift);
      case ReadFlagInPass => SnapshotKeepsQuiet(s);
      case EndBatch => EndKeepsQuiet(s, a);
      case EndGlobal => EndKeepsQuiet(s, a);
      case PassError => EndKeepsQuiet(s, a);
      case _ =>
        OthersKeepEntries(s, a);
        hide Structure, EntriesOk, CutOk, HolderOk, BatchHasWork, PhasePromises, TimerOk, CheckedAtLeast;
    }
  }

  /** A pass under way that has itself inserted something does not count as quiet. */
  function Spoiled(s: State): nat {
    if s.holder.Pass? && !s.holder.stage.Starting? && !s.h.clean then 1 else 0
  }

  lemma QuietStep(s: State, a: Action)
    requires Inv(s) && Enabled(s, a) && !a.Insert?
    ensures Step(s, a).h.quiet + Spoiled(s) >=
            s.h.quiet + (Step(s, a).h.completed - s.h.completed) + Spoiled(Step(s, a))
  {
    hide EntriesOk, CutOk, HolderOk, BatchHasWork, PhasePromises, TimerOk;
  }

  lemma {:induction false} QuietRun(s: State, actions: seq<Action>, t: State)
    requires Inv(s) && QuietOk(s) && Run(s, actions, t) && Insertions(actions) == 0
    ensures Inv(t) && QuietOk(t)
    ensures t.h.quiet + Spoiled(s) >= s.h.quiet + (t.h.completed - s.h.completed) + Spoiled(t)
    decreases |actions|
  {
    if actions == [] {
    } else {
      hide Inv, QuietOk, Step, Enabled, Spoiled;
      StepKeepsInv(s, actions[0]);
      StepKeepsQuiet(s, actions[0]);
      QuietStep(s, actions[0]);
      QuietRun(Step(s, actions[0]), actions[1..], t);
    }
  }

  lemma {:induction false} ReachableIsQuietOk(s: State, actions: seq<Action>, t: State)
    requires Inv(s) && QuietOk(s) && Run(s, actions, t)
    ensures Inv(t) && QuietOk(t)
    decreases |actions|
  {
    if actions == [] {
    } else {
      hide Inv, QuietOk, Step, Enabled;
      StepKeepsInv(s, actions[0]);
      StepKeepsQuiet(s, actions[0]);
      ReachableIsQuietOk(Step(s, actions[0]), actions[1..], t);
    }
  }

  /**
   Once insertions stop, three further complete passes leave nothing pending; a worker at rest
   is then parked, unless it was disabled.
   */
  lemma ThreeQuietPassesPark(before: seq<Action>, s: State, actions: seq<Action>, t: State)
    requires Run(Init(), before, s) && Run(s, actions, t) && Insertions(actions) == 0
    requires t.h.completed >= s.h.completed + 3 + Spoiled(s)
    ensures !SomePending(t.c.applied)
    ensures t.worker.Waiting? ==> t.c.phase.Parked? || t.c.phase.Disabled?
  {
    InitInv();
    assert QuietOk(Init());
    ReachableIsQuietOk(Init(), before, s);
    QuietRun(s, actions, t);
    assert t.h.quiet >= 3;
  }

  // ---------------------------------------------------------------- left alone, the worker finishes

  /** Nobody but the worker is inside the engine. */
  predicate Alone(s: State) {
    s.holder.Free? || s.holder.Pass?
  }

  /** Steps of the worker and its timer that move it on, as opposed to what it does to entries and processes. */
  predicate IsControl(a: Action) {
    !IsCallback(a) && !OfOthers(a)
  }

  function TimerWeight(timer: Timer): nat {
    match timer
    case Inactive => 0
    case Signaled => 10
    case Active => 20
  }

  function StageWeight(s: State): nat {
    match s.worker
    case Exited => 0
    case Waiting => 1
    case Failing => 2
    case WokeTimer => if s.shuttingDown then 48 else 8
    case WokeInsertion => 25
    case Rearming => 40
    case WantsActivity => if SomePending(s.c.applied) && !s.shuttingDown then 7 else 47
    case InPass =>
      match s.holder
      case Pass(Starting) => if SomePending(s.c.applied) && !s.shuttingDown then 6 else 46
      case Pass(Batch(todo, _)) => if todo == {} then 45 else 5
      case Pass(Global(_)) => 43
      case _ => 0
  }

  ghost function Rank(s: State): nat {
    200 * Budget(s.c.applied) + (if s.c.insertionEvent then 50 else 0) + TimerWeight(s.c.timer) + StageWeight(s)
  }

  lemma CheckLowersRank(s: State, key: ProcessKey, drift: bool)
    requires Inv(s) && Enabled(s, Check(key, drift))
    ensures Rank(Step(s, Check(key, drift))) < Rank(s)
  {
    CheckSpends(s, key, drift);
    BatchNeverSeesShutdown(s, Check(key, drift));
    hide EntriesOk, CutOk, HolderOk, BatchHasWork, PhasePromises, TimerOk;
  }

  lemma WorkerLowersRank(s: State, a: Action)
    requires Inv(s) && Enabled(s, a) && IsControl(a)
    ensures Rank(Step(s, a)) < Rank(s)
  {
    if a.Check? {
      CheckLowersRank(s, a.key, a.drift);
    } else {
      OthersKeepEntries(s, a);
      if a.ReadFlagInPass? {
        if SomePending(s.c.applied) {
          var k :| k in s.c.applied && IsPending(s.c.applied[k]);
          PendingSomewhere(s.c.applied, k);
        }
      }
      hide EntriesOk, CutOk, HolderOk, PhasePromises, TimerOk, SomePending;
    }
  }

  /** What the open checks of one insertion weigh. */
  const INSERTION_WEIGHT: nat := 600

  lemma MutationBudget(s: State, a: Action)
    requires Inv(s) && Enabled(s, a) && IsCallback(a)
    ensures Budget(Step(s, a).c.applied) <= Budget(s.c.applied) + if a.Insert? then MAX_CHECKS else 0
  {
    SpentGrows(s, a);
    hide Inv, Budget, SomePending;
  }

  lemma MutationKeepsControl(s: State, a: Action)
    requires Structure(s) && Enabled(s, a) && s.holder.Pass? && IsCallback(a)
    ensures Step(s, a).c.insertionEvent == s.c.insertionEvent && Step(s, a).c.timer == s.c.timer
    ensures StageWeight(Step(s, a)) == StageWeight(s)
  {
    hide SomePending, IsPending;
  }

  /** Repairing processes and reconciling everything never raise the rank, except by what they insert. */
  lemma MutationKeepsRank(s: State, a: Action)
    requires Inv(s) && Enabled(s, a) && s.holder.Pass? && IsCallback(a)
    ensures Rank(Step(s, a)) <= Rank(s) + if a.Insert? then INSERTION_WEIGHT else 0
  {
    MutationBudget(s, a);
    MutationKeepsControl(s, a);
    hide Inv, Step, Enabled, StageWeight, Budget;
  }

  /** Others enter only by their own steps. */
  lemma AloneStays(s: State, a: Action)
    requires Inv(s) && Alone(s) && Enabled(s, a) && !OfOthers(a)
    ensures Alone(Step(s, a)) && (IsCallback(a) ==> s.holder.Pass?)
  {
    hide EntriesOk, CutOk, HolderOk, BatchHasWork, PhasePromises, TimerOk;
  }

  predicate NoneOfOthers(actions: seq<Action>) {
    forall i :: 0 <= i < |actions| ==> !OfOthers(actions[i])
  }

  function ControlSteps(actions: seq<Action>): nat {
    if actions == [] then 0 else (if IsControl(actions[0]) then 1 else 0) + ControlSteps(actions[1..])
  }

  /** Alone, the worker makes at most `Rank(s)` control steps, and those its own insertions pay for. */
  lemma {:induction false} WorkerAloneStops(s: State, actions: seq<Action>, t: State)
    requires Inv(s) && Alone(s) && Run(s, actions, t) && NoneOfOthers(actions)
    ensures Inv(t) && Alone(t)
    ensures ControlSteps(actions) + Rank(t) <= Rank(s) + INSERTION_WEIGHT * Insertions(actions)
    decreases |actions|
  {
    if actions == [] {
    } else {
      hide Inv, Step, Enabled, Rank, Alone;
      var a := actions[0];
      StepKeepsInv(s, a);
      AloneStays(s, a);
      if IsCallback(a) { MutationKeepsRank(s, a); } else { WorkerLowersRank(s, a); }
      WorkerAloneStops(Step(s, a), actions[1..], t);
    }
  }

  lemma {:induction false} ControlStepCounts(actions: seq<Action>, i: nat)
    requires i < |actions| && IsControl(actions[i])
    ensures ControlSteps(actions) > 0
  {
    if i == 0 {
    } else {
      ControlStepCounts(actions[1..], i - 1);
    }
  }

  /** A worker step other than a failure that could be taken now. */
  ghost predicate CanProceed(s: State) {
    || Enabled(s, WaitReturns) || Enabled(s, Arm(true, true)) || Enabled(s, BeginPass) || Enabled(s, TakeActivity)
    || Enabled(s, ReadFlagInPass) || (exists k :: Enabled(s, Check(k, false))) || Enabled(s, EndBatch)
    || (s.holder.Pass? && Enabled(s, Notify(true))) || Enabled(s, EndGlobal) || Enabled(s, GiveUp(true))
    || Enabled(s, Expire)
  }

  /** The work is finished, or will never be. */
  predicate Finished(s: State) {
    !SomePending(s.c.applied) || s.c.phase.Disabled? || s.shuttingDown
  }

  /**
   Liveness: from any reachable state in which no other thread is inside the engine, the worker and its
   timer alone, repairs and full reconciliations included, stop within `Rank(s)` control steps and those
   their own insertions pay for, and where they stop no tracked process is left pending, unless the
   reconciler was disabled or shut down.
   */
  lemma LeftAloneTheWorkFinishes(before: seq<Action>, s: State, actions: seq<Action>, t: State)
    requires Run(Init(), before, s) && Alone(s)
    requires Run(s, actions, t) && NoneOfOthers(actions)
    ensures ControlSteps(actions) <= Rank(s) + INSERTION_WEIGHT * Insertions(actions)
    ensures !CanProceed(t) ==> Finished(t)
  {
    hide Run, Rank;
    InitInv();
    RunKeepsInv(Init(), before, s);
    WorkerAloneStops(s, actions, t);
    PromisesMeanWakeup(t);
    if !Finished(t) {
      PendingCanProceed(t);
    }
  }

  /** With work pending and nobody else inside, the worker or its timer has a step. */
  lemma PendingCanProceed(t: State)
    requires Inv(t) && Alone(t) && NoLostWakeup(t) && !Finished(t)
    ensures CanProceed(t)
  {
    hide EntriesOk, CutOk, HolderOk, BatchHasWork, PhasePromises, TimerOk, SomePending;
    if t.holder.Pass? && t.holder.stage.Batch? && t.holder.stage.todo != {} {
      var k :| k in t.holder.stage.todo;
      assert Enabled(t, Check(k, false));
    }
  }

  lemma FinishedStep(s: State, a: Action)
    requires Inv(s) && Enabled(s, a) && !a.Insert? && Finished(s)
    ensures Finished(Step(s, a))
  {
    PendingAfter(s, a);
    if s.c.phase.Disabled? { DisabledStays(s, a); }
    if s.shuttingDown { CutStep(s, a); }
    hide Inv, Step, Enabled, SomePending;
  }

  /** Finished work stays finished until something is inserted. */
  lemma {:induction false} FinishedStays(s: State, actions: seq<Action>, t: State)
    requires Inv(s) && Run(s, actions, t) && Insertions(actions) == 0 && Finished(s)
    ensures Finished(t)
    decreases |actions|
  {
    if actions == [] {
    } else {
      hide Inv, Step, Enabled, Finished;
      FinishedStep(s, actions[0]);
      StepKeepsInv(s, actions[0]);
      FinishedStays(Step(s, actions[0]), actions[1..], t);
    }
  }

  // ---------------------------------------------------------------- the worker leaves on shutdown

  /** A step of the worker thread itself. */
  predicate CanLeave(s: State) {
    || Enabled(s, WaitReturns) || Enabled(s, Arm(true, true)) || Enabled(s, BeginPass) || Enabled(s, TakeActivity)
    || Enabled(s, ReadFlagInPass) || Enabled(s, GiveUp(true))
  }

  /**
   After the shutdown flag is set the worker moves on until it has exited, so its join returns.  It waits
   for one thing only: a callback that has just locked `watcher_activity`, whose very next step
   finds the flag and gives the lock up.
   */
  lemma WorkerLeavesOnShutdown(before: seq<Action>, s: State)
    requires Run(Init(), before, s) && s.shuttingDown
    ensures s.worker.Exited? || CanLeave(s) ||
            (s.holder.Entered? && Enabled(Step(s, ReadFlag), TakeActivity))
    ensures forall a :: Enabled(s, a) && IsControl(a) ==> Rank(Step(s, a)) < Rank(s)
  {
    hide Run, Rank;
    InitInv();
    RunKeepsInv(Init(), before, s);
    forall a | Enabled(s, a) && IsControl(a) ensures Rank(Step(s, a)) < Rank(s) {
      WorkerLowersRank(s, a);
    }
  }
}
