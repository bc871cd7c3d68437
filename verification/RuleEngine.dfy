/**
 The rule engine (src/engine.rs): its methods, on an object with the engine's own fields, proved
 to be runs of the reconciler machine and to have the effects the engine promises.

 The caller of a mutating method holds `watcher_activity`; the answers of Windows and of the
 registry are arguments.
 */
module RuleEngine {
  import opened Outcomes
  import opened ProcessPolicy
  import opened Reconciler
  import opened ReconcilerHealth
  import Power = ProfileState
  import Cpu = Topology
  import opened EngineEffects
  import opened PassEffects

  lemma {:induction false} RunAppend(s: State, first: seq<Action>, t: State, second: seq<Action>, u: State)
    requires Run(s, first, t) && Run(t, second, u)
    ensures Run(s, first + second, u)
    decreases |first|
  {
    if first == [] {
      assert first + second == second;
    } else {
      hide Step, Enabled;
      RunAppend(Step(s, first[0]), first[1..], t, second, u);
      assert (first + second)[1..] == first[1..] + second;
    }
  }

  lemma OneStep(s: State, a: Action)
    requires Enabled(s, a)
    ensures Run(s, [a], Step(s, a))
  {
    hide Step;
    assert Run(Step(s, a), [], Step(s, a));
  }

  /** One more step at the end of a run. */
  lemma Extend(start: State, past: seq<Action>, s: State, a: Action) returns (trace: seq<Action>)
    requires Run(start, past, s) && Enabled(s, a)
    ensures trace == past + [a] && Run(start, trace, Step(s, a))
  {
    hide Step;
    trace := past + [a];
    OneStep(s, a);
    RunAppend(start, past, s, [a], Step(s, a));
  }

  /** The state after `count` policy writes. */
  function AfterWrites(s: State, count: nat): State {
    s.(h := s.h.(writes := s.h.writes + count))
  }

  lemma {:induction false} ExtendByWrites(start: State, past: seq<Action>, s: State,
                                          count: nat) returns (trace: seq<Action>)
    requires Run(start, past, s) && Enabled(s, WritePolicy)
    ensures Continues(past, trace) && Smooth(past, trace) && Run(start, trace, AfterWrites(s, count))
    decreases count
  {
    if count == 0 {
      trace := past;
      assert AfterWrites(s, 0) == s;
    } else {
      var shorter := ExtendByWrites(start, past, s, count - 1);
      hide Run;
      trace := Extend(start, shorter, AfterWrites(s, count - 1), WritePolicy);
    }
  }

  /** `trace` continues `past` by steps that other threads do not make, those of whoever holds `watcher_activity`. */
  ghost predicate Continues(past: seq<Action>, trace: seq<Action>) {
    past <= trace && forall i :: |past| <= i < |trace| ==> !OfOthers(trace[i])
  }

  /** `trace` continues `past` without a failure. */
  ghost predicate Smooth(past: seq<Action>, trace: seq<Action>) {
    past <= trace && forall i :: |past| <= i < |trace| ==> !IsFailure(trace[i])
  }

  lemma NothingAdded(past: seq<Action>)
    ensures Continues(past, past) && Smooth(past, past)
  {
  }

  lemma ContinuesOn(past: seq<Action>, mid: seq<Action>, trace: seq<Action>)
    requires Continues(past, mid) && Continues(mid, trace)
    ensures Continues(past, trace)
    ensures Smooth(past, mid) && Smooth(mid, trace) ==> Smooth(past, trace)
  {
    hide IsFailure;
  }

  class RuleEngine {
    const os: Windows
    const topology: seq<Cpu.CpuSetEntry>
    var applied: Applied
    var phase: Phase
    var insertionEvent: bool
    var timer: Timer
    var shuttingDown: bool
    var shutdownEvent: bool
    ghost var holder: Holder
    ghost var worker: Worker
    ghost var history: History

    ghost function Coordinated(): Coordinator
      reads this
    {
      Coordinator(applied, phase, insertionEvent, timer)
    }

    /** The state of the machine; its write count is the number of setter calls Windows has seen. */
    ghost function View(): State
      reads this, os
    {
      State(Coordinated(), shuttingDown, shutdownEvent, holder, worker, history.(writes := |os.writes|))
    }

    ghost function Here(): World
      reads this, os
    {
      World(applied, shuttingDown, os.State())
    }

    constructor (processes: map<ProcessKey, ProcessState>, topology: seq<Cpu.CpuSetEntry>)
      ensures View() == Init() && this.topology == topology && os.processes == processes && fresh(os)
    {
      os := new Windows(processes);
      this.topology := topology;
      applied, phase, insertionEvent, timer := map[], Parked, false, Inactive;
      shuttingDown, shutdownEvent := false, false;
      holder, worker, history := Free, Waiting, History(0, 0, 0, false, Never, 0);
    }

    // ------------------------------------------------------------ the coordinator

    /** Some tracked process still has one of its three checks to come. */
    ghost predicate ChecksAreOpen()
      reads this
    {
      exists k :: k in applied && applied[k].enforcing && applied[k].checks < 3
    }

    method HasPending() returns (pending: bool)
      ensures pending == SomePending(applied)
    {
      var todo := applied.Keys;
      while todo != {}
        invariant todo <= applied.Keys
        invariant forall k :: k in applied && k !in todo ==> !IsPending(applied[k])
        decreases |todo|
      {
        var k :| k in todo;
        if applied[k].enforcing && applied[k].checks < MAX_CHECKS {
          return true;
        }
        todo := todo - {k};
      }
      return false;
    }

    method CancelWaitableTimer(ok: bool)
      modifies this`timer
      ensures timer == CancelTimer(old(timer), ok)
    {
      if ok && timer == Active {
        timer := Inactive;
      }
    }

    method NotifyReconcilerOfInsertion(key: ProcessKey, eventOk: bool)
      modifies this`phase, this`insertionEvent
      ensures Coordinated() == NotifyOfInsertion(old(Coordinated()), key, eventOk)
      ensures key in applied && applied[key].enforcing && applied[key].checks < 3 && old(phase).Parked? ==>
                if eventOk then insertionEvent && phase.WakePending? else phase.Disabled?
      ensures !old(phase).Parked? || !ChecksAreOpen() ==> phase == old(phase) && insertionEvent == old(insertionEvent)
    {
      if !(key in applied && applied[key].enforcing && applied[key].checks < MAX_CHECKS) {
        return;
      }
      if phase != Parked {
        return;
      }
      if eventOk {
        insertionEvent := true;
        phase := WakePending;
      } else {
        phase := Disabled;
      }
    }

    method ParkReconcilerIfNoPendingLocked(cancelOk: bool)
      modifies this`phase, this`timer
      ensures Coordinated() == ParkIfNoPending(old(Coordinated()), cancelOk)
      ensures ChecksAreOpen() ==> phase == old(phase) && timer == old(timer)
      ensures !ChecksAreOpen() && (old(phase).TimerArmed? || old(phase).WakePending?) ==> phase.Parked?
      ensures !ChecksAreOpen() && old(phase).TimerArmed? && cancelOk ==> !timer.Active?
    {
      var pending := HasPending();
      if pending {
        return;
      }
      match phase
      case TimerArmed =>
        CancelWaitableTimer(cancelOk);
        phase := Parked;
      case WakePending =>
        phase := Parked;
      case _ =>
    }

    method ArmReconcilerIfPending(armOk: bool, cancelOk: bool) returns (keepRunning: bool)
      modifies this`phase, this`timer
      ensures (Coordinated(), keepRunning) == ArmIfPending(old(Coordinated()), armOk, cancelOk)
      ensures keepRunning <==> !phase.Disabled?
      ensures ChecksAreOpen() && !old(phase).TimerArmed? && !old(phase).Disabled? ==>
                if armOk then phase.TimerArmed? && timer.Active? else phase.Disabled? && timer == old(timer)
      ensures ChecksAreOpen() && old(phase).TimerArmed? ==> phase.TimerArmed? && timer == old(timer)
      ensures !ChecksAreOpen() && !old(phase).Disabled? ==> phase.Parked? && (timer.Active? ==> old(timer).Active?)
    {
      var pending := HasPending();
      if phase == Disabled {
        return false;
      }
      if !pending {
        if phase == TimerArmed {
          CancelWaitableTimer(cancelOk);
        }
        phase := Parked;
        return true;
      }
      if phase == TimerArmed {
        return true;
      }
      if armOk {
        timer := Active;
        phase := TimerArmed;
        return true;
      }
      phase := Disabled;
      return false;
    }

    method BeginReconciliationPass() returns (begun: bool)
      modifies this`phase
      ensures (Coordinated(), begun) == Begin(old(Coordinated()))
    {
      if phase != TimerArmed {
        return false;
      }
      phase := Running;
      return true;
    }

    method DisableReconciler(cancelOk: bool)
      modifies this`phase, this`timer
      ensures Coordinated() == Disable(old(Coordinated()), cancelOk)
    {
      phase := Disabled;
      CancelWaitableTimer(cancelOk);
    }

    // ------------------------------------------------------------ the tracked map

    ghost predicate CanMutate()
      reads this
    {
      MayMutate(holder) && Added(holder).None?
    }

    /** `remove_key_locked`, and the map part of `untrack_if_no_active_rule`. */
    method RemoveKeyLocked(key: ProcessKey, cancelOk: bool)
      requires CanMutate()
      modifies this`applied, this`phase, this`timer, this`history
      ensures View() == Step(old(View()), Remove(key, cancelOk))
      ensures applied == old(applied) - {key}
    {
      ghost var before := phase;
      applied := applied - {key};
      ParkReconcilerIfNoPendingLocked(cancelOk);
      history := AfterCancel(history, before, phase);
    }

    /** The same after a failed `watch_process`: the new entry is dropped unannounced. */
    method DropUnwatched(key: ProcessKey, cancelOk: bool)
      requires MayMutate(holder) && Added(holder) == Some(key)
      modifies this`applied, this`phase, this`timer, this`history, this`holder
      ensures View() == Step(old(View()), WatchFailed(cancelOk))
      ensures applied == old(applied) - {key} && holder == WithAdded(old(holder), None)
    {
      ghost var before := phase;
      applied := applied - {key};
      ParkReconcilerIfNoPendingLocked(cancelOk);
      history := AfterCancel(history, before, phase);
      holder := WithAdded(holder, None);
    }

    method InsertEntry(key: ProcessKey, entry: Entry)
      requires CanMutate() && key !in applied && entry.enforcing && entry.checks == 0
      modifies this`applied, this`history, this`holder
      ensures View() == Step(old(View()), Insert(key, entry))
      ensures applied == old(applied)[key := entry] && holder == WithAdded(old(holder), Some(key))
    {
      applied := applied[key := entry];
      history := history.(insertions := history.insertions + 1, quiet := 0, clean := false);
      holder := WithAdded(holder, Some(key));
    }

    method AnnounceInsertion(key: ProcessKey, eventOk: bool)
      requires MayMutate(holder) && Added(holder) == Some(key)
      modifies this`phase, this`insertionEvent, this`holder
      ensures View() == Step(old(View()), Notify(eventOk))
      ensures holder == WithAdded(old(holder), None)
    {
      NotifyReconcilerOfInsertion(key, eventOk);
      holder := WithAdded(holder, None);
    }

    method ReplacePolicy(key: ProcessKey, signature: Signature, policy: Policy)
      requires CanMutate() && key in applied
      modifies this`applied
      ensures View() == Step(old(View()), Reapply(key, signature, policy))
      ensures applied == old(applied)[key :=
                old(applied)[key].(signature := signature, enforcing := true, policy := policy)]
    {
      applied := applied[key := applied[key].(signature := signature, enforcing := true, policy := policy)];
    }

    /** Whether the shortcut for an unchanged signature applies. */
    predicate Unchanged(key: ProcessKey, signature: Signature)
      reads this
    {
      key in applied && applied[key].enforcing && applied[key].signature == signature
    }

    /** The policy of an unchanged entry, or a fresh resolution; both resolve `rule` on this topology. */
    method PolicyFor(key: ProcessKey, rule: ProcessRule, ghost profile: Power.ProfileSnapshot, desired: Signature)
      returns (policy: Policy)
      requires Sound(applied, topology) && FromRegistry(rule) && desired == SignatureOf(rule, profile)
      ensures IsResolution(rule, topology, policy)
      ensures Unchanged(key, desired) ==> policy == applied[key].policy
    {
      if Unchanged(key, desired) {
        CachedPolicyIsFresh(applied[key], topology, rule, profile);
        return applied[key].policy;
      }
      var affinityFailed;
      policy, affinityFailed := ResolvePolicy(rule, topology);
    }

    /** The setter calls for one instance. */
    method ApplyPolicy(key: ProcessKey, policy: Policy, faults: Faults, ghost start: State, ghost past: seq<Action>)
      returns (ghost trace: seq<Action>)
      requires key in os.processes && Run(start, past, View())
      requires Enabled(View(), WritePolicy)
      modifies os
      ensures Continues(past, trace) && Run(start, trace, View())
      ensures Smooth(past, trace)
      ensures Enforced(key, policy, faults, old(os.State()), os.State())
    {
      ghost var before, was := View(), os.State();
      var failures := os.ApplyAll(key, policy, faults);
      ghost var made := NewWrites(was, os.State());
      assert os.writes == was.writes + made;
      trace := ExtendByWrites(start, past, before, |made|);
      assert View() == AfterWrites(before, |made|);
    }

    /** The new entry, its watcher and its announcement; without a watcher the entry goes again. */
    method TrackNew(key: ProcessKey, entry: Entry, answers: Answers, ghost start: State, ghost past: seq<Action>)
      returns (ok: bool, ghost trace: seq<Action>)
      requires CanMutate() && Run(start, past, View())
      requires key !in applied && entry.enforcing && entry.checks == 0
      modifies this`applied, this`phase, this`timer, this`insertionEvent, this`history, this`holder
      ensures Continues(past, trace) && Run(start, trace, View()) && holder == old(holder)
      ensures answers.eventOk ==> Smooth(past, trace)
      ensures ok == answers.watchOk
      ensures applied == if ok then old(applied)[key := entry] else old(applied)
    {
      hide Run, Step;
      trace := Extend(start, past, View(), Insert(key, entry));
      InsertEntry(key, entry);
      if !answers.watchOk {
        trace := Extend(start, trace, View(), WatchFailed(answers.cancelOk));
        DropUnwatched(key, answers.cancelOk);
        assert applied == old(applied);
        return false, trace;
      }
      trace := Extend(start, trace, View(), Notify(answers.eventOk));
      AnnounceInsertion(key, answers.eventOk);
      return true, trace;
    }

    /** The second time `apply_or_update_rule` locks the map: the entry takes the policy, or a new one is tracked. */
    method RecordPolicy(key: ProcessKey, image: string, signature: Signature, policy: Policy, answers: Answers,
                        ghost start: State, ghost past: seq<Action>)
      returns (ok: bool, ghost trace: seq<Action>)
      requires CanMutate() && Run(start, past, View())
      modifies this`applied, this`phase, this`timer, this`insertionEvent, this`history, this`holder
      ensures Continues(past, trace) && Run(start, trace, View()) && holder == old(holder)
      ensures answers.eventOk ==> Smooth(past, trace)
      ensures ok <==> key in old(applied) || answers.watchOk
      ensures applied == if !ok then old(applied) else old(applied)[key :=
                if key in old(applied) then
                  old(applied)[key].(signature := signature, enforcing := true, policy := policy)
                else Entry(image, signature, policy, true, 0)]
    {
      hide Run, Step;
      if key in applied {
        trace := Extend(start, past, View(), Reapply(key, signature, policy));
        ReplacePolicy(key, signature, policy);
        return true, trace;
      }
      ok, trace := TrackNew(key, Entry(image, signature, policy, true, 0), answers, start, past);
    }

    /** `apply_or_update_rule` */
    method ApplyOrUpdateRule(key: ProcessKey, image: string, rule: ProcessRule, profile: Power.ProfileSnapshot,
                             intent: Intent, answers: Answers, ghost start: State, ghost past: seq<Action>)
      returns (ok: bool, ghost trace: seq<Action>)
      requires CanMutate() && Run(start, past, View())
      requires key in os.processes && FromRegistry(rule) && Sound(applied, topology)
      modifies this`applied, this`phase, this`timer, this`insertionEvent, this`history, this`holder, os
      ensures Continues(past, trace) && Run(start, trace, View()) && holder == old(holder)
      ensures answers.eventOk ==> Smooth(past, trace)
      ensures Sound(applied, topology) && os.processes.Keys == old(os.processes.Keys)
      ensures ok <==> key in old(applied) || answers.watchOk
      ensures RuleApplied(old(Here()), Here(), key, image, rule, profile, intent, answers, topology)
    {
      hide Run, Step, IsResolution, FromRegistry, Enforced, Sound, Continues;
      ghost var before := Here();
      var desired := SignatureOf(rule, profile);
      var policy := PolicyFor(key, rule, profile, desired);
      if Unchanged(key, desired) && intent == Observe {
        assert applied == applied[key := applied[key]];
        assert Continues(past, past) by { NothingAdded(past); }
        return true, past;
      }
      trace := ApplyPolicy(key, policy, answers.faults, start, past);
      EnforcedKeepsKeys(key, policy, answers.faults, before.os, os.State());
      assert PolicySet(before, os.State(), key, rule, profile, intent, answers.faults, topology, policy);
      SoundUpdate(applied, topology, key, rule, profile, policy);
      hide PolicySet;
      ghost var applying := trace;
      ok, trace := RecordPolicy(key, image, desired, policy, answers, start, trace);
      ContinuesOn(past, applying, trace);
      assert ok ==> Carries(applied[key], rule, profile, policy);
    }

    /** `apply_to_pid_inner` */
    method ApplyToPidInner(processId: nat, self: nat, expected: Option<ProcessKey>, profile: Power.ProfileSnapshot,
                           intent: Intent, answers: Answers, ghost start: State, ghost past: seq<Action>)
      returns (result: Option<ProcessKey>, ghost trace: seq<Action>)
      requires CanMutate() && Run(start, past, View())
      requires AnswersOk(answers, os.processes.Keys) && Sound(applied, topology)
      modifies this`applied, this`phase, this`timer, this`insertionEvent, this`history, this`holder, os
      ensures Continues(past, trace) && Run(start, trace, View()) && holder == old(holder)
      ensures answers.eventOk ==> Smooth(past, trace)
      ensures Sound(applied, topology) && os.processes.Keys == old(os.processes.Keys)
      ensures Application(old(Here()), Here(), processId, self, expected, intent, answers, profile, topology, result)
    {
      hide Run, Step, RuleApplied, Sound, IsResolution, FromRegistry, Answers.Rule;
      trace := past;
      if processId == 0 || processId == self {
        return None, trace;
      }
      if answers.resolved.None? {
        return None, trace;
      }
      var resolved := answers.resolved.value;
      var key := resolved.key;
      if expected.Some? && key != expected.value {
        return None, trace;
      }
      if resolved.image.None? {
        return None, trace;
      }
      match answers.Rule()
      case Some(rule) =>
        RuleNamesImage(answers);
        var ok;
        ok, trace := ApplyOrUpdateRule(key, resolved.image.value, rule, profile, intent, answers, start, trace);
        AppliedTracks(old(Here()), Here(), key, resolved.image.value, rule, profile, intent, answers, topology);
        if !ok {
          trace := Extend(start, trace, View(), Remove(key, answers.cancelOk));
          assert applied - {key} == applied;
          RemoveKeyLocked(key, answers.cancelOk);
          return None, trace;
        }
        return Some(key), trace;
      case None =>
        trace := Extend(start, trace, View(), Remove(key, answers.cancelOk));
        RemoveKeyLocked(key, answers.cancelOk);
        SoundSubset(old(applied), {key}, topology);
        return Some(key), trace;
    }

    // ------------------------------------------------------------ full reconciliation

    /** `remove_unobserved` */
    method RemoveUnobserved(removable: set<ProcessKey>, observed: set<ProcessKey>, cancelOk: bool,
                            ghost start: State, ghost past: seq<Action>)
      returns (ghost trace: seq<Action>)
      requires CanMutate() && Run(start, past, View())
      modifies this`applied, this`phase, this`timer, this`history
      ensures Continues(past, trace) && Run(start, trace, View())
      ensures Smooth(past, trace)
      ensures applied == old(applied) - (removable - observed)
    {
      hide Run, Step;
      trace := past;
      var todo := removable - observed;
      ghost var gone := {};
      while todo != {}
        invariant Continues(past, trace) && Smooth(past, trace) && Run(start, trace, View())
        invariant gone + todo == removable - observed && applied == old(applied) - gone
        decreases |todo|
      {
        var key :| key in todo;
        todo := todo - {key};
        gone := gone + {key};
        trace := Extend(start, trace, View(), Remove(key, cancelOk));
        RemoveKeyLocked(key, cancelOk);
      }
    }

    /** `reconcile_processes_active`: everything tracked at the start is removable, everything seen is applied. */
    method ReconcileProcessesActive(snapshotOk: bool, enumeration: seq<Sighting>, self: nat, cancelOk: bool,
                                    ghost start: State, ghost past: seq<Action>)
      returns (ok: bool, ghost trace: seq<Action>)
      requires CanMutate() && Run(start, past, View())
      requires SightingsOk(enumeration, os.processes.Keys) && Sound(applied, topology)
      modifies this`applied, this`phase, this`timer, this`insertionEvent, this`history, this`holder, os
      ensures Continues(past, trace) && Run(start, trace, View()) && holder == old(holder)
      ensures AllAnnounced(enumeration) ==> Smooth(past, trace)
      ensures Sound(applied, topology) && os.processes.Keys == old(os.processes.Keys)
      ensures ok == snapshotOk
      ensures if ok && enumeration != [] then Reconciled(old(Here()), Here(), enumeration, self, topology)
              else Here() == old(Here())
    {
      hide Run, Step, Sound, Progress, Reconciled, Application, LastAccepted;
      trace := past;
      var removable := applied.Keys;
      if !snapshotOk {
        return false, trace;
      }
      if enumeration == [] {
        return true, trace;
      }
      var observed := {};
      ghost var before, keys := Here(), os.processes.Keys;
      NothingSeen(before, self, topology);
      assert enumeration[..0] == [];
      for i := 0 to |enumeration|
        invariant Continues(past, trace) && Run(start, trace, View()) && holder == old(holder)
        invariant AllAnnounced(enumeration) ==> Smooth(past, trace)
        invariant Sound(applied, topology) && os.processes.Keys == keys
        invariant Progress(before, Here(), observed, enumeration[..i], self, topology)
      {
        var sighting := enumeration[i];
        ghost var now := Here();
        var result;
        result, trace := ApplyToPidInner(sighting.processId, self, None, sighting.profile, Force, sighting.answers,
                                         start, trace);
        assert enumeration[..i + 1] == enumeration[..i] + [sighting];
        ProgressStep(before, now, observed, enumeration[..i], self, topology, sighting, Here(), result);
        if result.Some? {
          observed := observed + {result.value};
        }
      }
      assert enumeration[..|enumeration|] == enumeration;
      ghost var after := Here();
      trace := RemoveUnobserved(removable, observed, cancelOk, start, trace);
      SoundSubset(after.applied, removable - observed, topology);
      ProgressDone(before, after, observed, enumeration, self, topology);
      return true, trace;
    }

    // ------------------------------------------------------------ bounded checks

    /** The part of a check under `applied`: the counter advances, and the entry is read. */
    method AdvanceCheck(key: ProcessKey) returns (entry: Option<Entry>)
      modifies this`applied
      ensures applied == if key in old(applied) then old(applied)[key := Advanced(old(applied)[key])] else old(applied)
      ensures entry == if key in old(applied) && IsPending(old(applied)[key]) then Some(applied[key]) else None
    {
      if key !in applied || !applied[key].enforcing || applied[key].checks >= MAX_CHECKS {
        assert key in applied ==> applied == applied[key := applied[key]];
        return None;
      }
      var checks := applied[key].checks + 1;
      applied := applied[key := applied[key].(checks := if checks < MAX_CHECKS then checks else MAX_CHECKS)];
      return Some(applied[key]);
    }

    /** `inspect` and, if it found drift, `repair`. */
    method Service(key: ProcessKey, policy: Policy, faults: Faults, ghost start: State, ghost past: seq<Action>)
      returns (ghost trace: seq<Action>)
      requires key in os.processes && Run(start, past, View()) && Enabled(View(), WritePolicy)
      modifies os
      ensures Continues(past, trace) && Run(start, trace, View())
      ensures Smooth(past, trace)
      ensures ServedAlone(key, policy, faults, old(os.State()), os.State())
    {
      ghost var before, was := View(), os.State();
      var drift, inspectFailures := os.Inspect(key, policy, faults);
      if !drift.Any() {
        CleanIsServiced(key, policy, faults, drift, inspectFailures, os.processes[key]);
        assert NewWrites(was, was) == [];
        return past;
      }
      var repairFailures := os.Repair(key, policy, drift, faults);
      ghost var made := NewWrites(was, os.State());
      RepairedIsServiced(key, policy, faults, drift, inspectFailures, was.processes[key], os.processes[key], made);
      assert os.writes == was.writes + made;
      trace := ExtendByWrites(start, past, before, |made|);
      assert View() == AfterWrites(before, |made|);
    }

    ghost predicate InBatch()
      reads this
    {
      holder.Pass? && holder.stage.Batch? && !shuttingDown
    }

    /** `reconcile_tracked_process_with`; the result is identity drift. */
    method ReconcileTrackedProcess(key: ProcessKey, answers: CheckAnswers, ghost start: State, ghost past: seq<Action>)
      returns (drift: bool, ghost trace: seq<Action>)
      requires Run(start, past, View())
      requires InBatch() && key in holder.stage.todo && key in applied && IsPending(applied[key])
      requires answers.resolved.Some? ==> answers.resolved.value.key in os.processes
      modifies this`applied, this`holder, os
      ensures Continues(past, trace) && Run(start, trace, View())
      ensures Smooth(past, trace)
      ensures drift == Drifts(key, old(applied)[key], answers)
      ensures drift <==> if answers.resolved.None? then answers.exited
                         else answers.resolved != Some(Resolved(key, Some(old(applied)[key].image)))
      ensures drift || answers.resolved.None? ==> os.State() == old(os.State())
      ensures holder == Pass(Batch(old(holder).stage.todo - {key}, old(holder).stage.drift || drift))
      ensures applied == old(applied)[key := Advanced(old(applied)[key])]
      ensures OneChecked(key, old(applied)[key], answers, old(os.State()), os.State())
      ensures os.processes.Keys == old(os.processes.Keys)
    {
      hide Run, Serviced;
      ghost var reported := Drifts(key, applied[key], answers);
      trace := Extend(start, past, View(), Check(key, reported));
      var advanced := AdvanceCheck(key);
      holder := Pass(Batch(holder.stage.todo - {key}, holder.stage.drift || reported));
      var entry := advanced.value;
      if answers.resolved.None? {
        return answers.exited, trace;
      }
      var resolved := answers.resolved.value;
      if resolved.key != key || resolved.image != Some(entry.image) {
        return true, trace;
      }
      trace := Service(key, entry.policy, answers.faults, start, trace);
      return false, trace;
    }

    /** Part way through a batch that started with the entries `tracked`: `done` have been checked, `keys` have not. */
    ghost predicate BatchUnderWay(tracked: Applied, done: set<ProcessKey>, keys: set<ProcessKey>, drift: bool,
                                  checks: ProcessKey -> CheckAnswers, was: OsState)
      reads this, os
    {
      && done + keys == PendingKeys(tracked) && done !! keys
      && InBatch() && holder == Pass(Batch(keys, drift))
      && done <= tracked.Keys && drift == AnyDrift(tracked, done, checks)
      && applied == CheckedOnce(tracked, done)
      && BatchDone(tracked, done, checks, was, os.State())
    }

    /** One turn of the loop. */
    method CheckNext(key: ProcessKey, checks: ProcessKey -> CheckAnswers, ghost tracked: Applied,
                     ghost done: set<ProcessKey>, ghost keys: set<ProcessKey>, drift: bool, ghost was: OsState,
                     ghost start: State, ghost past: seq<Action>)
      returns (drift': bool, ghost trace: seq<Action>)
      requires Run(start, past, View()) && key in keys && ChecksOk(checks, os.processes.Keys)
      requires BatchUnderWay(tracked, done, keys, drift, checks, was)
      modifies this`applied, this`holder, os
      ensures Continues(past, trace) && Run(start, trace, View()) && os.processes.Keys == old(os.processes.Keys)
      ensures Smooth(past, trace)
      ensures BatchUnderWay(tracked, done + {key}, keys - {key}, drift', checks, was)
    {
      hide Run, BatchDone, Drifts, PendingKeys, IsPending, CheckedOnce, AnyDrift, Advanced, OneChecked;
      CheckStep(tracked, done, keys, key, checks);
      ghost var mid := os.State();
      var one;
      one, trace := ReconcileTrackedProcess(key, checks(key), start, past);
      drift' := drift || one;
      BatchStep(tracked, done, checks, key, was, mid, os.State());
    }

    /** The loop of `run_bounded_reconciliation_batch`: one check for each instance that was pending. */
    method CheckAll(checks: ProcessKey -> CheckAnswers, ghost start: State, ghost past: seq<Action>)
      returns (drift: bool, ghost trace: seq<Action>)
      requires Run(start, past, View()) && Sound(applied, topology)
      requires InBatch() && holder == Pass(Batch(PendingKeys(applied), false))
      requires ChecksOk(checks, os.processes.Keys)
      modifies this`applied, this`holder, os
      ensures Continues(past, trace) && Run(start, trace, View()) && Sound(applied, topology)
      ensures Smooth(past, trace)
      ensures os.processes.Keys == old(os.processes.Keys)
      ensures BatchUnderWay(old(applied), PendingKeys(old(applied)), {}, drift, checks, old(os.State()))
    {
      trace, drift := past, false;
      assert Continues(past, trace);
      ghost var tracked, was := applied, os.State();
      ghost var done := {};
      var keys := PendingKeys(applied);
      NothingDone(applied, checks, was);
      NoDriftYet(applied, checks);
      hide Run, Sound, BatchDone, PendingKeys, CheckedOnce, AnyDrift, ChecksOk, Continues;
      assert BatchUnderWay(tracked, done, keys, drift, checks, was);
      while keys != {}
        invariant Continues(past, trace) && Run(start, trace, View()) && os.processes.Keys == was.processes.Keys
        invariant Smooth(past, trace)
        invariant BatchUnderWay(tracked, done, keys, drift, checks, was)
        decreases |keys|
      {
        if shuttingDown {
          break;
        }
        var key :| key in keys;
        ghost var sofar := trace;
        drift, trace := CheckNext(key, checks, tracked, done, keys, drift, was, start, trace);
        ContinuesOn(past, sofar, trace);
        keys := keys - {key};
        done := done + {key};
      }
      assert done == PendingKeys(tracked);
      SoundChecked(tracked, done, topology);
    }

    /** The flag test of the worker, and `bounded_reconciliation_keys`. */
    method StartBatch() returns (started: bool)
      requires holder == Pass(Starting) && worker.InPass?
      modifies this`holder, this`worker, this`history
      ensures View() == Step(old(View()), ReadFlagInPass)
      ensures started == !shuttingDown
      ensures if started then holder == Pass(Batch(PendingKeys(applied), false)) && worker == old(worker)
              else holder == Free && worker == Rearming
    {
      if shuttingDown {
        holder, worker := Free, Rearming;
        return false;
      }
      holder, history := Pass(Batch(PendingKeys(applied), false)), history.(clean := true);
      return true;
    }

    /** The end of the batch: the pass goes on only to reconcile everything. */
    method LeaveBatch()
      requires InBatch() && holder.stage.todo == {}
      modifies this`holder, this`worker, this`history
      ensures View() == Step(old(View()), EndBatch)
      ensures if old(holder).stage.drift then holder == Pass(Global(None)) && worker == old(worker)
              else holder == Free && worker == Rearming
    {
      if holder.stage.drift && !shuttingDown {
        holder := Pass(Global(None));
      } else {
        holder, worker, history := Free, Rearming, Completed(history);
      }
    }

    method LeaveGlobal(ok: bool)
      requires holder == Pass(Global(None))
      modifies this`holder, this`worker, this`history
      ensures View() == Step(old(View()), if ok then EndGlobal else PassError)
      ensures holder == Free && worker == if ok then Rearming else Failing
    {
      if ok {
        holder, worker, history := Free, Rearming, Completed(history);
      } else {
        holder, worker := Free, Failing;
      }
    }

    /** The full reconciliation at the end of a pass, and the end of the pass. */
    method ReconcileAfterDrift(snapshotOk: bool, enumeration: seq<Sighting>, self: nat, cancelOk: bool,
                               ghost start: State, ghost past: seq<Action>)
      returns (ok: bool, ghost trace: seq<Action>)
      requires Run(start, past, View()) && Sound(applied, topology)
      requires holder == Pass(Global(None)) && SightingsOk(enumeration, os.processes.Keys)
      modifies this`applied, this`phase, this`timer, this`insertionEvent, this`history, this`holder, this`worker, os
      ensures Continues(past, trace) && Run(start, trace, View()) && Sound(applied, topology)
      ensures (snapshotOk ==> ok) && (ok && AllAnnounced(enumeration) ==> Smooth(past, trace))
      ensures holder == Free && worker == (if ok then Rearming else Failing)
      ensures os.processes.Keys == old(os.processes.Keys)
      ensures PassEnded(old(Here()), Here(), true, snapshotOk, enumeration, self, topology, ok)
    {
      hide Run, Step, Sound, Reconciled;
      ok, trace := ReconcileProcessesActive(snapshotOk, enumeration, self, cancelOk, start, past);
      trace := Extend(start, trace, View(), if ok then EndGlobal else PassError);
      LeaveGlobal(ok);
    }

    /** Without drift a pass leaves the coordinator alone. */
    ghost predicate SameCoordinator(c: Coordinator)
      reads this
    {
      phase == c.phase && insertionEvent == c.insertionEvent && timer == c.timer
    }

    /** `reconcile_tracked_processes`: the batch, then a full reconciliation if any check showed identity drift. */
    method ReconcileTrackedProcesses(checks: ProcessKey -> CheckAnswers, snapshotOk: bool, enumeration: seq<Sighting>,
                                     self: nat, cancelOk: bool, ghost start: State, ghost past: seq<Action>)
      returns (ok: bool, ghost trace: seq<Action>)
      requires Run(start, past, View()) && Sound(applied, topology)
      requires InBatch() && holder == Pass(Batch(PendingKeys(applied), false))
      requires ChecksOk(checks, os.processes.Keys) && SightingsOk(enumeration, os.processes.Keys)
      modifies this`applied, this`phase, this`timer, this`insertionEvent, this`history, this`holder, this`worker, os
      ensures Continues(past, trace) && Run(start, trace, View()) && Sound(applied, topology)
      ensures (snapshotOk ==> ok) && (ok && AllAnnounced(enumeration) ==> Smooth(past, trace))
      ensures holder == Free && worker == (if ok then Rearming else Failing)
      ensures os.processes.Keys == old(os.processes.Keys)
      ensures PassDone(old(Here()), Here(), checks, snapshotOk, enumeration, self, topology, ok)
      ensures !AnyDrift(old(applied), PendingKeys(old(applied)), checks) ==> SameCoordinator(old(Coordinated()))
    {
      hide Run, Step, Sound, SightingsOk, ChecksOk, AnyDrift, BatchDone, PendingKeys, CheckedOnce, Reconciled;
      ghost var before := Here();
      var drift;
      drift, trace := CheckAll(checks, start, past);
      ghost var checked := Here();
      trace := Extend(start, trace, View(), EndBatch);
      LeaveBatch();
      if drift {
        ok, trace := ReconcileAfterDrift(snapshotOk, enumeration, self, cancelOk, start, trace);
      } else {
        ok := true;
      }
      PassIsDone(before, checked.os, Here(), checks, drift, snapshotOk, enumeration, self, topology, ok);
    }

    /** A pass: the flag test of the worker, then the work, then the release of `watcher_activity`. */
    method RunPass(checks: ProcessKey -> CheckAnswers, snapshotOk: bool, enumeration: seq<Sighting>,
                   self: nat, cancelOk: bool, ghost start: State, ghost past: seq<Action>)
      returns (ok: bool, ghost trace: seq<Action>)
      requires Run(start, past, View()) && Sound(applied, topology)
      requires holder == Pass(Starting) && worker.InPass?
      requires ChecksOk(checks, os.processes.Keys) && SightingsOk(enumeration, os.processes.Keys)
      modifies this`applied, this`phase, this`timer, this`insertionEvent, this`history, this`holder, this`worker, os
      ensures Continues(past, trace) && Run(start, trace, View()) && Sound(applied, topology)
      ensures (snapshotOk ==> ok) && (ok && AllAnnounced(enumeration) ==> Smooth(past, trace))
      ensures holder == Free && worker == (if ok then Rearming else Failing)
      ensures os.processes.Keys == old(os.processes.Keys)
      ensures PassRun(old(Here()), Here(), checks, snapshotOk, enumeration, self, topology, ok)
      ensures shuttingDown || !AnyDrift(old(applied), PendingKeys(old(applied)), checks) ==>
                SameCoordinator(old(Coordinated()))
    {
      hide Run, Step, Sound, PassDone, SightingsOk, ChecksOk, AnyDrift;
      trace := Extend(start, past, View(), ReadFlagInPass);
      var started := StartBatch();
      if !started {
        return true, trace;
      }
      ok, trace := ReconcileTrackedProcesses(checks, snapshotOk, enumeration, self, cancelOk, start, trace);
    }

    // ------------------------------------------------------------ entry points

    /** The flag test every entry point makes once it holds `watcher_activity`. */
    method EnterEngine() returns (entered: bool)
      requires holder.Free?
      modifies this`holder
      ensures entered == !shuttingDown && holder == if entered then Mutating(None) else Free
    {
      holder := Entered;
      if shuttingDown {
        holder := Free;
        return false;
      }
      holder := Mutating(None);
      return true;
    }

    /** `apply_to_pid`, and `apply_to_pid_expected` with an expected key. */
    method ApplyToPid(processId: nat, self: nat, expected: Option<ProcessKey>, profile: Power.ProfileSnapshot,
                      answers: Answers, ghost start: State, ghost past: seq<Action>)
      returns (result: Option<ProcessKey>, ghost trace: seq<Action>)
      requires holder.Free? && Run(start, past, View())
      requires AnswersOk(answers, os.processes.Keys) && Sound(applied, topology)
      modifies this`applied, this`phase, this`timer, this`insertionEvent, this`history, this`holder, os
      ensures past <= trace && Run(start, trace, View()) && holder.Free?
      ensures answers.eventOk ==> Smooth(past, trace)
      ensures Sound(applied, topology) && os.processes.Keys == old(os.processes.Keys)
      ensures if shuttingDown then result == None && Here() == old(Here())
              else
                Application(old(Here()), Here(), processId, self, expected, Observe, answers, profile, topology, result)
    {
      hide Run, Step, Sound, Application, AnswersOk;
      trace := EnteredTrace(start, past, View());
      var entered := EnterEngine();
      if !entered {
        return None, trace;
      }
      result, trace := ApplyToPidInner(processId, self, expected, profile, Observe, answers, start, trace);
      trace := LeftTrace(start, trace, View());
      holder := Free;
    }

    /** `remove_process_key`; the watcher of a process whose handle is signalled does the same. */
    method RemoveProcessKey(key: ProcessKey, cancelOk: bool, ghost start: State, ghost past: seq<Action>)
      returns (ghost trace: seq<Action>)
      requires holder.Free? && Run(start, past, View()) && Sound(applied, topology)
      modifies this`applied, this`phase, this`timer, this`history, this`holder
      ensures past <= trace && Run(start, trace, View()) && holder.Free? && Sound(applied, topology)
      ensures Smooth(past, trace)
      ensures Here() == if shuttingDown then old(Here()) else old(Here()).(applied := old(applied) - {key})
    {
      hide Run, Step, Sound;
      trace := EnteredTrace(start, past, View());
      var entered := EnterEngine();
      if !entered {
        return;
      }
      trace := Extend(start, trace, View(), Remove(key, cancelOk));
      RemoveKeyLocked(key, cancelOk);
      SoundSubset(old(applied), {key}, topology);
      trace := LeftTrace(start, trace, View());
      holder := Free;
    }

    /** `reconcile_processes` */
    method ReconcileProcesses(snapshotOk: bool, enumeration: seq<Sighting>, self: nat, cancelOk: bool,
                              ghost start: State, ghost past: seq<Action>)
      returns (ok: bool, ghost trace: seq<Action>)
      requires holder.Free? && Run(start, past, View())
      requires SightingsOk(enumeration, os.processes.Keys) && Sound(applied, topology)
      modifies this`applied, this`phase, this`timer, this`insertionEvent, this`history, this`holder, os
      ensures past <= trace && Run(start, trace, View()) && holder.Free?
      ensures AllAnnounced(enumeration) ==> Smooth(past, trace)
      ensures Sound(applied, topology) && os.processes.Keys == old(os.processes.Keys)
      ensures ok == (shuttingDown || snapshotOk)
      ensures if !shuttingDown && ok && enumeration != [] then
                Reconciled(old(Here()), Here(), enumeration, self, topology)
              else Here() == old(Here())
    {
      hide Run, Step, Sound, Reconciled, SightingsOk;
      trace := EnteredTrace(start, past, View());
      var entered := EnterEngine();
      if !entered {
        return true, trace;
      }
      ok, trace := ReconcileProcessesActive(snapshotOk, enumeration, self, cancelOk, start, trace);
      trace := LeftTrace(start, trace, View());
      holder := Free;
    }

    /** The first part of `shutdown`, under `watcher_activity`. */
    method SetShuttingDown(ghost start: State, ghost past: seq<Action>) returns (ghost trace: seq<Action>)
      requires holder.Free? && Run(start, past, View())
      modifies this`shuttingDown, this`shutdownEvent
      ensures past <= trace && Run(start, trace, View()) && shuttingDown && shutdownEvent
      ensures Smooth(past, trace)
    {
      trace := Extend(start, past, View(), SetShutdown);
      shuttingDown, shutdownEvent := true, true;
    }

    /** The second part of `shutdown`, under the lock of the reconciler. */
    method DisableForShutdown(cancelOk: bool, ghost start: State, ghost past: seq<Action>)
      returns (ghost trace: seq<Action>)
      requires shuttingDown && Run(start, past, View())
      modifies this`phase, this`timer, this`history
      ensures past <= trace && Run(start, trace, View()) && phase.Disabled?
    {
      hide Run;
      trace := Extend(start, past, View(), Action.DisableForShutdown(cancelOk));
      ghost var before := phase;
      DisableReconciler(cancelOk);
      history := AfterCancel(history, before, phase);
    }
  }

  /** Entering: the lock, then the flag test. */
  lemma EnteredTrace(start: State, past: seq<Action>, s: State) returns (trace: seq<Action>)
    requires Run(start, past, s) && s.holder.Free?
    ensures past <= trace && Smooth(past, trace)
    ensures Run(start, trace, s.(holder := if s.shuttingDown then Free else Mutating(None)))
  {
    hide Run;
    trace := Extend(start, past, s, Enter);
    trace := Extend(start, trace, s.(holder := Entered), ReadFlag);
  }

  lemma LeftTrace(start: State, past: seq<Action>, s: State) returns (trace: seq<Action>)
    requires Run(start, past, s) && s.holder == Mutating(None)
    ensures past <= trace && Smooth(past, trace) && Run(start, trace, s.(holder := Free))
  {
    hide Run;
    trace := Extend(start, past, s, Leave);
  }
}
