/**
 The bounded reconciler (src/engine.rs): the tracked-process map, the phase machine with its
 event and timer, and the interleavings of event callbacks, the worker thread and shutdown.

 Every function of the source that holds `applied` or `reconciler` throughout is one step.  The
 holder of `watcher_activity` and the program position of the worker are part of the state.
 This is the default build: no priority job.
 */
module Reconciler {
  import opened Outcomes
  import opened ProcessPolicy

  const MAX_CHECKS: nat := 3

  /** `AppliedProcess`, without the fields that are only printed. */
  datatype Entry = Entry(image: string, signature: Signature, policy: Policy, enforcing: bool, checks: nat)

  type Applied = map<ProcessKey, Entry>

  datatype Phase = Parked | WakePending | TimerArmed | Running | Disabled

  /** A waitable timer that resets itself when a wait consumes its signal. */
  datatype Timer = Inactive | Active | Signaled

  /** What the mutexes `applied` and `reconciler` protect. */
  datatype Coordinator = Coordinator(applied: Applied, phase: Phase, insertionEvent: bool, timer: Timer)

  predicate IsPending(e: Entry) {
    e.enforcing && e.checks < MAX_CHECKS
  }

  function PendingKeys(applied: Applied): set<ProcessKey> {
    set k | k in applied && IsPending(applied[k])
  }

  predicate SomePending(applied: Applied) {
    exists k :: k in applied && IsPending(applied[k])
  }

  // ---------------------------------------------------------------- the locked functions

  /** Cancelling stops an active timer; a signal that is already there stays. */
  function CancelTimer(timer: Timer, ok: bool): Timer {
    if ok && timer.Active? then Inactive else timer
  }

  /** `notify_reconciler_of_insertion`; `eventOk` is the outcome of SetEvent. */
  function NotifyOfInsertion(c: Coordinator, key: ProcessKey, eventOk: bool): Coordinator {
    if !(key in c.applied && IsPending(c.applied[key])) || !c.phase.Parked? then c
    else if eventOk then c.(insertionEvent := true, phase := WakePending)
    else c.(phase := Disabled)
  }

  /** `park_reconciler_if_no_pending_locked` */
  function ParkIfNoPending(c: Coordinator, cancelOk: bool): Coordinator {
    if SomePending(c.applied) then c
    else match c.phase
      case TimerArmed => c.(timer := CancelTimer(c.timer, cancelOk), phase := Parked)
      case WakePending => c.(phase := Parked)
      case _ => c
  }

  /** `arm_reconciler_if_pending`; setting the timer clears its signal.  The second value is `keep_running`. */
  function ArmIfPending(c: Coordinator, armOk: bool, cancelOk: bool): (Coordinator, bool) {
    if c.phase.Disabled? then (c, false)
    else if !SomePending(c.applied) then
      (c.(timer := if c.phase.TimerArmed? then CancelTimer(c.timer, cancelOk) else c.timer, phase := Parked), true)
    else if c.phase.TimerArmed? then (c, true)
    else if armOk then (c.(timer := Active, phase := TimerArmed), true)
    else (c.(phase := Disabled), false)
  }

  /** `begin_reconciliation_pass` */
  function Begin(c: Coordinator): (Coordinator, bool) {
    if c.phase.TimerArmed? then (c.(phase := Running), true) else (c, false)
  }

  /** `disable_reconciler`, and the same two assignments in `shutdown`. */
  function Disable(c: Coordinator, cancelOk: bool): Coordinator {
    c.(phase := Disabled, timer := CancelTimer(c.timer, cancelOk))
  }

  /** `advance_reconciliation_check` */
  function Advanced(e: Entry): Entry {
    if IsPending(e) then e.(checks := e.checks + 1) else e
  }

  // ---------------------------------------------------------------- threads

  /** The holder of `watcher_activity`. */
  datatype Holder =
    | Free
    | Entered                                     // a callback that has not read shutting_down yet
    | Mutating(added: Option<ProcessKey>)         // a callback past the test; `added` is inserted but not announced
    | Pass(stage: Stage)                          // the worker

  datatype Stage =
    | Starting
    | Batch(todo: set<ProcessKey>, drift: bool)
    | Global(added: Option<ProcessKey>)           // the full reconciliation after identity drift

  /** The worker loop, between the calls it makes. */
  datatype Worker =
    | Waiting | WokeInsertion | WokeTimer | WantsActivity | InPass | Rearming | Failing | Exited

  /** What became of the latest arming of the timer. */
  datatype Arming = Never | Pending | Expired | Cancelled | Used

  /** History: it never influences a step. */
  datatype History = History(
    insertions: nat,
    completed: nat,             // passes run to their end
    quiet: nat,                 // complete passes since the last insertion
    clean: bool,                // no insertion since the snapshot of the current pass
    arming: Arming,
    writes: nat)                // process policy writes

  datatype State = State(
    c: Coordinator,
    shuttingDown: bool,
    shutdownEvent: bool,
    holder: Holder,
    worker: Worker,
    h: History)

  function Init(): State {
    State(Coordinator(map[], Parked, false, Inactive), false, false, Free, Waiting,
          History(0, 0, 0, false, Never, 0))
  }

  datatype Action =
    // callbacks, watchers, power notifications; inside a pass also the worker's full reconciliation
    | Enter
    | ReadFlag
    | Leave
    | Insert(key: ProcessKey, entry: Entry)
    | Reapply(key: ProcessKey, signature: Signature, policy: Policy)
    | Remove(key: ProcessKey, cancelOk: bool)
    | WatchFailed(cancelOk: bool)
    | Notify(eventOk: bool)
    | WritePolicy
    // the worker
    | WaitReturns
    | WaitFails(cancelOk: bool)
    | Arm(armOk: bool, cancelOk: bool)
    | BeginPass
    | TakeActivity
    | ReadFlagInPass
    | Check(key: ProcessKey, drift: bool)
    | EndBatch
    | EndGlobal
    | PassError
    | GiveUp(cancelOk: bool)
    // the environment and shutdown
    | Expire
    | SetShutdown
    | DisableForShutdown(cancelOk: bool)

  /** The thread inside the mutating part of the engine, and what it has just inserted. */
  function Added(holder: Holder): Option<ProcessKey> {
    match holder
    case Mutating(added) => added
    case Pass(Global(added)) => added
    case _ => None
  }

  predicate MayMutate(holder: Holder) {
    holder.Mutating? || (holder.Pass? && holder.stage.Global?)
  }

  function WithAdded(holder: Holder, added: Option<ProcessKey>): Holder {
    match holder
    case Mutating(_) => Mutating(added)
    case Pass(Global(_)) => Pass(Global(added))
    case _ => holder
  }

  predicate Enabled(s: State, a: Action) {
    match a
    case Enter => s.holder.Free?
    case ReadFlag => s.holder.Entered?
    case Leave => s.holder == Mutating(None)
    case Insert(key, entry) =>
      MayMutate(s.holder) && Added(s.holder).None? && key !in s.c.applied && entry.enforcing && entry.checks == 0
    case Reapply(key, _, _) => MayMutate(s.holder) && Added(s.holder).None? && key in s.c.applied
    case Remove(_, _) => MayMutate(s.holder) && Added(s.holder).None?
    case WatchFailed(_) => MayMutate(s.holder) && Added(s.holder).Some?
    case Notify(_) => MayMutate(s.holder) && Added(s.holder).Some?
    case WritePolicy => MayMutate(s.holder) || (s.holder.Pass? && s.holder.stage.Batch?)
    case WaitReturns => s.worker.Waiting? && (s.shutdownEvent || s.c.insertionEvent || s.c.timer.Signaled?)
    case WaitFails(_) => s.worker.Waiting?
    case Arm(_, _) => s.worker.WokeInsertion? || s.worker.Rearming?
    case BeginPass => s.worker.WokeTimer?
    case TakeActivity => s.worker.WantsActivity? && s.holder.Free?
    case ReadFlagInPass => s.holder == Pass(Starting)
    case Check(key, _) => s.holder.Pass? && s.holder.stage.Batch? && key in s.holder.stage.todo
    case EndBatch => s.holder.Pass? && s.holder.stage.Batch? && s.holder.stage.todo == {}
    case EndGlobal => s.holder == Pass(Global(None))
    case PassError => s.holder.Pass? && !s.holder.stage.Starting? && Added(s.holder).None?
    case GiveUp(_) => s.worker.Failing?
    case Expire => s.c.timer.Active?
    case SetShutdown => s.holder.Free?
    case DisableForShutdown(_) => s.shuttingDown
  }

  function Removed(c: Coordinator, key: ProcessKey, cancelOk: bool): Coordinator {
    ParkIfNoPending(c.(applied := c.applied - {key}), cancelOk)
  }

  /** Leaving TimerArmed for Parked or Disabled cancels the arming. */
  function AfterCancel(h: History, before: Phase, after: Phase): History {
    if before.TimerArmed? && (after.Parked? || after.Disabled?) then h.(arming := Cancelled) else h
  }

  function Completed(h: History): History {
    h.(completed := h.completed + 1, quiet := if h.clean then h.quiet + 1 else h.quiet)
  }

  function CallbackStep(s: State, a: Action): State
    requires Enabled(s, a)
  {
    match a
    case Enter => s.(holder := Entered)
    case ReadFlag => s.(holder := if s.shuttingDown then Free else Mutating(None))
    case Leave => s.(holder := Free)
    case Insert(key, entry) =>
      s.(c := s.c.(applied := s.c.applied[key := entry]),
         holder := WithAdded(s.holder, Some(key)),
         h := s.h.(insertions := s.h.insertions + 1, quiet := 0, clean := false))
    case Reapply(key, signature, policy) =>
      var entry := s.c.applied[key].(signature := signature, enforcing := true, policy := policy);
      s.(c := s.c.(applied := s.c.applied[key := entry]))
    case Remove(key, cancelOk) =>
      var c := Removed(s.c, key, cancelOk);
      s.(c := c, h := AfterCancel(s.h, s.c.phase, c.phase))
    case WatchFailed(cancelOk) =>
      var c := Removed(s.c, Added(s.holder).value, cancelOk);
      s.(c := c, holder := WithAdded(s.holder, None), h := AfterCancel(s.h, s.c.phase, c.phase))
    case Notify(eventOk) =>
      s.(c := NotifyOfInsertion(s.c, Added(s.holder).value, eventOk), holder := WithAdded(s.holder, None))
    case WritePolicy => s.(h := s.h.(writes := s.h.writes + 1))
    case _ => s
  }

  function WorkerStep(s: State, a: Action): State
    requires Enabled(s, a)
  {
    match a
    case WaitReturns =>
      if s.shutdownEvent then s.(worker := Exited)
      else if s.c.insertionEvent then s.(c := s.c.(insertionEvent := false), worker := WokeInsertion)
      else s.(c := s.c.(timer := Inactive), worker := WokeTimer)
    case WaitFails(cancelOk) =>
      var c := Disable(s.c, cancelOk);
      s.(c := c, worker := Exited, h := AfterCancel(s.h, s.c.phase, c.phase))
    case Arm(armOk, cancelOk) =>
      var (c, keepRunning) := ArmIfPending(s.c, armOk, cancelOk);
      s.(c := c, worker := if keepRunning then Waiting else Exited,
         h := if c.phase.TimerArmed? && !s.c.phase.TimerArmed? then s.h.(arming := Pending)
              else AfterCancel(s.h, s.c.phase, c.phase))
    case BeginPass =>
      var (c, begun) := Begin(s.c);
      s.(c := c, worker := if begun then WantsActivity else Waiting,
         h := if begun then s.h.(arming := Used) else s.h)
    case TakeActivity => s.(holder := Pass(Starting), worker := InPass)
    case GiveUp(cancelOk) =>
      var c := Disable(s.c, cancelOk);
      s.(c := c, worker := Exited, h := AfterCancel(s.h, s.c.phase, c.phase))
    case _ => PassStep(s, a)
  }

  function PassStep(s: State, a: Action): State
    requires Enabled(s, a)
  {
    match a
    case ReadFlagInPass =>
      if s.shuttingDown then s.(holder := Free, worker := Rearming)
      else s.(holder := Pass(Batch(PendingKeys(s.c.applied), false)), h := s.h.(clean := true))
    case Check(key, drift) =>
      var stage := s.holder.stage;
      if s.shuttingDown then s.(holder := Pass(stage.(todo := {})))
      else
        s.(c := s.c.(applied :=
             if key in s.c.applied then s.c.applied[key := Advanced(s.c.applied[key])] else s.c.applied),
           holder := Pass(Batch(stage.todo - {key}, stage.drift || drift)))
    case EndBatch =>
      if s.holder.stage.drift && !s.shuttingDown then s.(holder := Pass(Global(None)))
      else s.(holder := Free, worker := Rearming, h := Completed(s.h))
    case EndGlobal => s.(holder := Free, worker := Rearming, h := Completed(s.h))
    case PassError => s.(holder := Free, worker := Failing)
    case _ => s
  }

  predicate IsCallback(a: Action) {
    || a.Enter? || a.ReadFlag? || a.Leave?
    || a.Insert? || a.Reapply? || a.Remove? || a.WatchFailed? || a.Notify? || a.WritePolicy?
  }

  /** Steps that only other threads make.  While none of them is inside, all others are the worker's and its timer's. */
  predicate OfOthers(a: Action) {
    a.Enter? || a.ReadFlag? || a.Leave? || a.SetShutdown? || a.DisableForShutdown?
  }

  function Step(s: State, a: Action): State
    requires Enabled(s, a)
  {
    if IsCallback(a) then CallbackStep(s, a)
    else match a
      case Expire =>
        s.(c := s.c.(timer := Signaled), h := if s.h.arming.Pending? then s.h.(arming := Expired) else s.h)
      case SetShutdown => s.(shuttingDown := true, shutdownEvent := true)
      case DisableForShutdown(cancelOk) =>
        var c := Disable(s.c, cancelOk);
        s.(c := c, h := AfterCancel(s.h, s.c.phase, c.phase))
      case _ => WorkerStep(s, a)
  }

  predicate Run(s: State, actions: seq<Action>, t: State)
    decreases |actions|
  {
    if actions == [] then s == t
    else Enabled(s, actions[0]) && Run(Step(s, actions[0]), actions[1..], t)
  }

  // ---------------------------------------------------------------- structural invariant

  /** Who may be where, and what the entries look like. */
  predicate Structure(s: State) {
    && (s.worker.InPass? <==> s.holder.Pass?)
    && (s.c.phase.Running? ==>
          s.worker.WantsActivity? || s.worker.InPass? || s.worker.Rearming? || s.worker.Failing?)
    && (s.worker.WantsActivity? || s.worker.InPass? || s.worker.Rearming? || s.worker.Failing? ==>
          s.c.phase.Running? || s.c.phase.Disabled?)
    && (s.worker.Exited? ==> s.c.phase.Disabled? || s.shutdownEvent)
    && (s.shutdownEvent <==> s.shuttingDown)
  }

  predicate EntriesOk(applied: Applied) {
    forall k :: k in applied ==> applied[k].enforcing && applied[k].checks <= MAX_CHECKS
  }

  /** The locals of the activity holder. */
  predicate HolderOk(s: State) {
    && (Added(s.holder).Some? ==> Added(s.holder).value in s.c.applied && IsPending(s.c.applied[Added(s.holder).value]))
    && (s.holder.Pass? && s.holder.stage.Batch? ==> s.holder.stage.todo <= PendingKeys(s.c.applied))
  }

  /** While the flag is set nobody is past its test. */
  predicate CutOk(s: State) {
    s.shuttingDown ==> s.holder.Free? || s.holder.Entered? || s.holder == Pass(Starting)
  }

  /** A waiting batch always has work. */
  predicate BatchHasWork(s: State) {
    s.c.phase.TimerArmed? || s.c.phase.WakePending? ==> SomePending(s.c.applied)
  }

  predicate Basic(s: State) {
    Structure(s) && EntriesOk(s.c.applied) && HolderOk(s) && CutOk(s) && BatchHasWork(s)
  }

  // ---------------------------------------------------------------- no lost wakeup

  /** Somebody is bound to look at the pending entries. */
  predicate WakeupPending(s: State) {
    || Added(s.holder).Some?
    || (s.c.phase.WakePending? && (s.c.insertionEvent || s.worker.WokeInsertion?))
    || (s.c.phase.TimerArmed? && (!s.c.timer.Inactive? || s.worker.WokeTimer?))
    || (s.c.phase.Running? && (s.worker.WantsActivity? || s.worker.InPass? || s.worker.Rearming? || s.worker.Failing?))
  }

  predicate NoLostWakeup(s: State) {
    SomePending(s.c.applied) && !s.c.phase.Disabled? ==> WakeupPending(s)
  }

  /** The inductive form: what each phase promises, whoever is mutating. */
  predicate PhasePromises(s: State) {
    && (s.c.phase.WakePending? ==> s.c.insertionEvent || s.worker.WokeInsertion?)
    && (s.c.phase.TimerArmed? ==> !s.c.timer.Inactive? || s.worker.WokeTimer?)
    && (s.c.phase.Parked? ==> OnlyAddedPending(s))
  }

  predicate OnlyAddedPending(s: State) {
    forall k :: k in s.c.applied && IsPending(s.c.applied[k]) ==> Added(s.holder) == Some(k)
  }

  // ---------------------------------------------------------------- timer discipline

  predicate TimerOk(s: State) {
    && (s.c.phase.TimerArmed? <==> s.h.arming.Pending? || s.h.arming.Expired?)
    && (s.h.arming.Pending? ==> s.c.timer.Active?)
    && (s.c.phase.TimerArmed? && s.worker.WokeTimer? ==> s.h.arming.Expired?)
  }

  predicate Inv(s: State) {
    Basic(s) && PhasePromises(s) && TimerOk(s)
  }
}
