/** What a bounded check, a batch of them and a whole pass do (src/engine.rs, the worker's side). */
module PassEffects {
  import opened Outcomes
  import opened ProcessPolicy
  import opened Reconciler
  import opened EngineEffects
  import Power = ProfileState
  import Cpu = Topology

  // ---------------------------------------------------------------- one check

  /** What a check meets: what the pid resolves to, whether the original handle is signalled, failing calls. */
  datatype CheckAnswers = CheckAnswers(resolved: Option<Resolved>, exited: bool, faults: Faults)

  /** The check finds the tracked instance under the image it was tracked with. */
  predicate Identified(key: ProcessKey, e: Entry, answers: CheckAnswers) {
    answers.resolved == Some(Resolved(key, Some(e.image)))
  }

  /** The check reports identity drift: the instance has exited, or its pid means something else now. */
  predicate Drifts(key: ProcessKey, e: Entry, answers: CheckAnswers) {
    if answers.resolved.None? then answers.exited else !Identified(key, e, answers)
  }

  predicate OffTarget(policy: Policy, state: ProcessState, faults: Faults, c: Component) {
    Deviates(policy, state, c) && c !in faults.query
  }

  /**
   One inspection and repair of `key`: exactly the configured, readable components that are off
   target are attempted, each once, whatever fails, and a setter that succeeds brings its component in line.
   */
  ghost predicate Serviced(key: ProcessKey, policy: Policy, faults: Faults, before: ProcessState, after: ProcessState,
                           writes: seq<Write>) {
    && (forall c :: OffTarget(policy, before, faults, c) <==> Attempted(writes, key, c))
    && (forall w :: w in writes ==> w.target == key && w.done == (w.component !in faults.change))
    && (forall i, j :: 0 <= i < j < |writes| ==> writes[i].component != writes[j].component)
    && (forall c :: OffTarget(policy, before, faults, c) && c !in faults.change ==> Conforms(policy, after, c))
    && (forall c :: !(OffTarget(policy, before, faults, c) && c !in faults.change) ==> SameComponent(before, after, c))
  }

  /** A check of `key` has served it, and touched nothing else. */
  ghost predicate ServedAlone(key: ProcessKey, policy: Policy, faults: Faults, before: OsState, after: OsState) {
    && Touches(before, after, iset{key}) && key in before.processes
    && Serviced(key, policy, faults, before.processes[key], after.processes[key], NewWrites(before, after))
  }

  /** The effect of one check on Windows. */
  ghost predicate OneChecked(key: ProcessKey, e: Entry, answers: CheckAnswers, before: OsState, after: OsState) {
    if Identified(key, e, answers) then ServedAlone(key, e.policy, answers.faults, before, after)
    else after == before
  }

  /** An inspection and the repair of what it found. */
  lemma RepairedIsServiced(key: ProcessKey, policy: Policy, faults: Faults, drift: Drift, failures: seq<Component>,
                           before: ProcessState, after: ProcessState, writes: seq<Write>)
    requires IsInspection(policy, before, faults, drift, failures)
    requires IsRepair(key, policy, drift, faults, before, after, writes)
    ensures Serviced(key, policy, faults, before, after, writes)
  {
    forall c ensures Attempts(policy, drift, c) <==> OffTarget(policy, before, faults, c) {
    }
  }

  lemma CleanIsServiced(key: ProcessKey, policy: Policy, faults: Faults, drift: Drift, failures: seq<Component>,
                        state: ProcessState)
    requires IsInspection(policy, state, faults, drift, failures) && !drift.Any()
    ensures Serviced(key, policy, faults, state, state, [])
  {
    forall c ensures !OffTarget(policy, state, faults, c) {
      assert !drift.Has(c);
    }
  }

  // ---------------------------------------------------------------- the batch

  /** The entries after the instances in `done` have had one check. */
  function CheckedOnce(applied: Applied, done: set<ProcessKey>): Applied {
    map k | k in applied :: if k in done then Advanced(applied[k]) else applied[k]
  }

  predicate FoundItself(applied: Applied, done: set<ProcessKey>, checks: ProcessKey -> CheckAnswers, k: ProcessKey)
    requires done <= applied.Keys
  {
    k in done && Identified(k, applied[k], checks(k))
  }

  /** The instances that their own checks have identified. */
  ghost function FoundThemselves(applied: Applied, done: set<ProcessKey>, checks: ProcessKey -> CheckAnswers)
    : iset<ProcessKey>
    requires done <= applied.Keys
  {
    iset k | FoundItself(applied, done, checks, k)
  }

  /** The setter calls on one instance. */
  function WritesTo(writes: seq<Write>, key: ProcessKey): seq<Write> {
    if writes == [] then []
    else (if writes[0].target == key then [writes[0]] else []) + WritesTo(writes[1..], key)
  }

  lemma {:induction false} WritesToSum(a: seq<Write>, b: seq<Write>, key: ProcessKey)
    ensures WritesTo(a + b, key) == WritesTo(a, key) + WritesTo(b, key)
  {
    if a == [] {
      assert a + b == b;
    } else {
      assert (a + b)[1..] == a[1..] + b;
      WritesToSum(a[1..], b, key);
    }
  }

  lemma {:induction false} WritesToOne(writes: seq<Write>, owner: ProcessKey, key: ProcessKey)
    requires forall w :: w in writes ==> w.target == owner
    ensures WritesTo(writes, key) == if key == owner then writes else []
  {
    if writes == [] {
    } else {
      assert writes[0] in writes;
      assert writes == [writes[0]] + writes[1..];
      WritesToOne(writes[1..], owner, key);
    }
  }

  lemma {:induction false} NoWritesTo(writes: seq<Write>, keys: iset<ProcessKey>, key: ProcessKey)
    requires key !in keys && forall w :: w in writes ==> w.target in keys
    ensures WritesTo(writes, key) == []
  {
    if writes == [] {
    } else {
      assert writes[0] in writes;
      assert forall w :: w in writes[1..] ==> w in writes;
      NoWritesTo(writes[1..], keys, key);
    }
  }

  lemma {:induction false} WritesToHas(writes: seq<Write>, w: Write)
    ensures w in WritesTo(writes, w.target) <==> w in writes
  {
    if writes == [] {
    } else {
      assert writes == [writes[0]] + writes[1..];
      WritesToHas(writes[1..], w);
    }
  }

  /**
   The checks of `done` have been made: every instance that found itself has been served, and
   nothing else has been touched.
   */
  ghost predicate BatchDone(applied: Applied, done: set<ProcessKey>, checks: ProcessKey -> CheckAnswers,
                            before: OsState, after: OsState)
    requires done <= applied.Keys
  {
    && Touches(before, after, FoundThemselves(applied, done, checks))
    && forall k :: FoundItself(applied, done, checks, k) ==> ProcessServed(applied, checks, before, after, k)
  }

  ghost predicate ProcessServed(applied: Applied, checks: ProcessKey -> CheckAnswers, before: OsState, after: OsState,
                                k: ProcessKey)
    requires k in applied
  {
    && k in before.processes && k in after.processes
    && Serviced(k, applied[k].policy, checks(k).faults, before.processes[k], after.processes[k],
                WritesTo(NewWrites(before, after), k))
  }

  ghost predicate ChecksOk(checks: ProcessKey -> CheckAnswers, keys: set<ProcessKey>) {
    forall k :: checks(k).resolved.Some? ==> checks(k).resolved.value.key in keys
  }

  /** Some instance of `keys` shows identity drift. */
  predicate AnyDrift(applied: Applied, keys: set<ProcessKey>, checks: ProcessKey -> CheckAnswers)
    requires keys <= applied.Keys
  {
    exists k :: k in keys && Drifts(k, applied[k], checks(k))
  }

  lemma NoDriftYet(applied: Applied, checks: ProcessKey -> CheckAnswers)
    ensures !AnyDrift(applied, {}, checks) && {} + PendingKeys(applied) == PendingKeys(applied) <= applied.Keys
  {
  }

  /** The bookkeeping of one more check. */
  lemma CheckStep(applied: Applied, done: set<ProcessKey>, keys: set<ProcessKey>, key: ProcessKey,
                  checks: ProcessKey -> CheckAnswers)
    requires done + keys == PendingKeys(applied) && done !! keys && key in keys
    ensures done <= applied.Keys && key in applied && IsPending(applied[key]) && key !in done
    ensures var now := CheckedOnce(applied, done);
            key in now && now[key] == applied[key] &&
            CheckedOnce(applied, done + {key}) == now[key := Advanced(now[key])]
    ensures AnyDrift(applied, done + {key}, checks) <==>
              AnyDrift(applied, done, checks) || Drifts(key, applied[key], checks(key))
  {
    hide Drifts, IsPending, Advanced;
    assert key in PendingKeys(applied);
  }

  lemma NothingDone(applied: Applied, checks: ProcessKey -> CheckAnswers, os: OsState)
    ensures BatchDone(applied, {}, checks, os, os) && CheckedOnce(applied, {}) == applied
  {
  }

  lemma OneCheckTouches(key: ProcessKey, e: Entry, answers: CheckAnswers, before: OsState, after: OsState)
    requires OneChecked(key, e, answers, before, after)
    ensures Touches(before, after, if Identified(key, e, answers) then iset{key} else iset{})
  {
  }

  lemma MoreFound(applied: Applied, done: set<ProcessKey>, checks: ProcessKey -> CheckAnswers, key: ProcessKey)
    requires done <= applied.Keys && key in applied
    ensures FoundThemselves(applied, done, checks) <= FoundThemselves(applied, done + {key}, checks)
    ensures Identified(key, applied[key], checks(key)) ==> iset{key} <= FoundThemselves(applied, done + {key}, checks)
    ensures forall k :: FoundItself(applied, done + {key}, checks, k) <==>
              FoundItself(applied, done, checks, k) || (k == key && Identified(key, applied[key], checks(key)))
  {
  }

  /** One more check serves its own process and no other. */
  lemma BatchStep(applied: Applied, done: set<ProcessKey>, checks: ProcessKey -> CheckAnswers, key: ProcessKey,
                  before: OsState, mid: OsState, after: OsState)
    requires done <= applied.Keys && key in applied && key !in done
    requires BatchDone(applied, done, checks, before, mid)
    requires OneChecked(key, applied[key], checks(key), mid, after)
    ensures BatchDone(applied, done + {key}, checks, before, after)
  {
    var one := if Identified(key, applied[key], checks(key)) then iset{key} else iset{};
    OneCheckTouches(key, applied[key], checks(key), mid, after);
    MoreFound(applied, done, checks, key);
    TouchesTogether(before, mid, after, FoundThemselves(applied, done, checks), one,
                    FoundThemselves(applied, done + {key}, checks));
    assert key !in FoundThemselves(applied, done, checks);
    hide FoundThemselves;
    forall k | FoundItself(applied, done + {key}, checks, k) ensures ProcessServed(applied, checks, before, after, k) {
      if k == key {
        OwnService(applied, checks, key, before, mid, after, FoundThemselves(applied, done, checks));
      } else {
        OtherService(applied, checks, k, before, mid, after, one);
      }
    }
  }

  lemma OwnService(applied: Applied, checks: ProcessKey -> CheckAnswers, key: ProcessKey,
                   before: OsState, mid: OsState, after: OsState, keys: iset<ProcessKey>)
    requires key in applied && key !in keys && Touches(before, mid, keys)
    requires ServedAlone(key, applied[key].policy, checks(key).faults, mid, after)
    ensures ProcessServed(applied, checks, before, after, key)
  {
    hide Serviced;
    NewWritesAdd(before, mid, after);
    WritesToSum(NewWrites(before, mid), NewWrites(mid, after), key);
    NoWritesTo(NewWrites(before, mid), keys, key);
    WritesToOne(NewWrites(mid, after), key, key);
    assert [] + NewWrites(mid, after) == NewWrites(mid, after);
  }

  lemma OtherService(applied: Applied, checks: ProcessKey -> CheckAnswers, k: ProcessKey,
                     before: OsState, mid: OsState, after: OsState, keys: iset<ProcessKey>)
    requires k in applied && k !in keys && ProcessServed(applied, checks, before, mid, k)
    requires before.writes <= mid.writes && Touches(mid, after, keys)
    ensures ProcessServed(applied, checks, before, after, k)
  {
    hide Serviced;
    NewWritesAdd(before, mid, after);
    WritesToSum(NewWrites(before, mid), NewWrites(mid, after), k);
    NoWritesTo(NewWrites(mid, after), keys, k);
    assert WritesTo(NewWrites(before, mid), k) + [] == WritesTo(NewWrites(before, mid), k);
  }

  // ---------------------------------------------------------------- convergence

  lemma ServicedConforms(key: ProcessKey, policy: Policy, before: ProcessState, after: ProcessState, writes: seq<Write>)
    requires Serviced(key, policy, Faults({}, {}), before, after, writes)
    ensures FullyConforms(policy, after)
    ensures forall c :: !Deviates(policy, before, c) ==> SameComponent(before, after, c)
  {
    forall c | Configured(policy, c) ensures Conforms(policy, after, c) {
      if Conforms(policy, before, c) { assert SameComponent(before, after, c); }
    }
  }

  lemma ServicedWrites(policy: Policy, before: ProcessState, after: ProcessState, writes: seq<Write>, w: Write)
    requires Serviced(w.target, policy, Faults({}, {}), before, after, writes)
    ensures w in writes <==> w.done && Deviates(policy, before, w.component)
  {
    assert OffTarget(policy, before, Faults({}, {}), w.component) <==> Attempted(writes, w.target, w.component);
    if w.done && Attempted(writes, w.target, w.component) {
      var v := Write(w.target, w.component, false);
      assert v in writes ==> v.done;
    }
  }

  /**
   Pass convergence: when every call succeeds and every pending instance is still itself, the batch
   leaves all of them with every configured component conforming, and it has written exactly
   the components that were configured and off target.
   */
  lemma PassConverges(applied: Applied, checks: ProcessKey -> CheckAnswers, before: OsState, after: OsState)
    requires BatchDone(applied, PendingKeys(applied), checks, before, after)
    requires forall k :: k in PendingKeys(applied) ==>
               Identified(k, applied[k], checks(k)) && checks(k).faults == Faults({}, {})
    ensures forall k :: k in PendingKeys(applied) ==>
              k in before.processes && k in after.processes && FullyConforms(applied[k].policy, after.processes[k])
    ensures forall w :: w in NewWrites(before, after) <==>
              w.target in PendingKeys(applied) && w.done &&
              Deviates(applied[w.target].policy, before.processes[w.target], w.component)
    ensures forall k :: k in before.processes && k !in PendingKeys(applied) ==>
              k in after.processes && after.processes[k] == before.processes[k]
    ensures forall k, c :: k in PendingKeys(applied) && !Deviates(applied[k].policy, before.processes[k], c) ==>
              SameComponent(before.processes[k], after.processes[k], c)
  {
    hide IsPending;
    var pending, writes := PendingKeys(applied), NewWrites(before, after);
    forall k | k in pending
      ensures k in before.processes && k in after.processes && FullyConforms(applied[k].policy, after.processes[k])
      ensures forall c :: !Deviates(applied[k].policy, before.processes[k], c) ==>
                SameComponent(before.processes[k], after.processes[k], c)
    {
      assert FoundItself(applied, pending, checks, k);
      hide Serviced;
      ServicedConforms(k, applied[k].policy, before.processes[k], after.processes[k], WritesTo(writes, k));
    }
    forall w ensures w in writes <==>
                w.target in pending && w.done &&
                Deviates(applied[w.target].policy, before.processes[w.target], w.component)
    {
      WritesToHas(writes, w);
      if w.target in pending {
        assert FoundItself(applied, pending, checks, w.target);
        hide Serviced;
        ServicedWrites(applied[w.target].policy, before.processes[w.target], after.processes[w.target],
                       WritesTo(writes, w.target), w);
      }
    }
  }

  // ---------------------------------------------------------------- a pass

  /** The full reconciliation at the end of a pass: it happens after drift, for a non-empty snapshot. */
  ghost predicate PassEnded(checked: World, after: World, drift: bool, snapshotOk: bool, seen: seq<Sighting>, self: nat,
                            topology: seq<Cpu.CpuSetEntry>, ok: bool) {
    if drift && snapshotOk && seen != [] then ok && Reconciled(checked, after, seen, self, topology)
    else after == checked && ok == (!drift || snapshotOk)
  }

  /**
   What a pass does: every instance that was pending gets one check, those that find themselves are
   served, and after drift the full reconciliation follows.
   */
  ghost predicate PassDone(before: World, after: World, checks: ProcessKey -> CheckAnswers, snapshotOk: bool,
                           seen: seq<Sighting>, self: nat, topology: seq<Cpu.CpuSetEntry>, ok: bool) {
    var pending := PendingKeys(before.applied);
    exists mid ::
      BatchDone(before.applied, pending, checks, before.os, mid) &&
      PassEnded(before.(applied := CheckedOnce(before.applied, pending), os := mid), after,
                AnyDrift(before.applied, pending, checks), snapshotOk, seen, self, topology, ok)
  }

  lemma PassIsDone(before: World, mid: OsState, after: World, checks: ProcessKey -> CheckAnswers, drift: bool,
                   snapshotOk: bool, seen: seq<Sighting>, self: nat, topology: seq<Cpu.CpuSetEntry>, ok: bool)
    requires BatchDone(before.applied, PendingKeys(before.applied), checks, before.os, mid)
    requires drift == AnyDrift(before.applied, PendingKeys(before.applied), checks)
    requires PassEnded(before.(applied := CheckedOnce(before.applied, PendingKeys(before.applied)), os := mid), after,
                       drift, snapshotOk, seen, self, topology, ok)
    ensures PassDone(before, after, checks, snapshotOk, seen, self, topology, ok)
  {
    hide BatchDone, PassEnded, AnyDrift, CheckedOnce;
  }

  /** A pass that finds the shutdown flag set does nothing. */
  ghost predicate PassRun(before: World, after: World, checks: ProcessKey -> CheckAnswers, snapshotOk: bool,
                          seen: seq<Sighting>, self: nat, topology: seq<Cpu.CpuSetEntry>, ok: bool) {
    if before.shuttingDown then after == before && ok
    else PassDone(before, after, checks, snapshotOk, seen, self, topology, ok)
  }

  /** Instance safety of a pass: it touches none but instances that found themselves or were enumerated with a rule. */
  lemma PassTouches(before: World, after: World, checks: ProcessKey -> CheckAnswers, snapshotOk: bool,
                    seen: seq<Sighting>, self: nat, topology: seq<Cpu.CpuSetEntry>, ok: bool)
    requires PassDone(before, after, checks, snapshotOk, seen, self, topology, ok)
    ensures Touches(before.os, after.os,
                    FoundThemselves(before.applied, PendingKeys(before.applied), checks) + Governed(seen, self))
    ensures after.shuttingDown == before.shuttingDown
  {
    hide FoundThemselves, Governed, IsPending, AnyDrift, CheckedOnce, ReconciledAt;
    var pending := PendingKeys(before.applied);
    var found, governed := FoundThemselves(before.applied, pending, checks), Governed(seen, self);
    var mid :|
      BatchDone(before.applied, pending, checks, before.os, mid) &&
      PassEnded(before.(applied := CheckedOnce(before.applied, pending), os := mid), after,
                AnyDrift(before.applied, pending, checks), snapshotOk, seen, self, topology, ok);
    if after.os == mid { Untouched(mid, governed); }
    hide Touches;
    TouchesTogether(before.os, mid, after.os, found, governed, found + governed);
  }

  /** The check of `k` shows it still there under its image, or at least not gone. */
  predicate StillItself(k: ProcessKey, image: string, answers: CheckAnswers) {
    || (answers.resolved.Some? && answers.resolved.value.key == k && answers.resolved.value.image == Some(image))
    || (answers.resolved.None? && !answers.exited)
  }

  predicate HasChecksLeft(applied: Applied, k: ProcessKey) {
    k in applied && applied[k].enforcing && applied[k].checks < 3
  }

  /**
   A pass without drift: if every pending instance is seen as itself, or not seen but not gone either, exactly the same
   instances are tracked afterwards, each pending one with one more check, and nothing but instances that were
   seen as themselves is written or changed.
   */
  lemma PassWithoutDrift(before: World, after: World, checks: ProcessKey -> CheckAnswers, snapshotOk: bool,
                         seen: seq<Sighting>, self: nat, topology: seq<Cpu.CpuSetEntry>, ok: bool)
    requires PassRun(before, after, checks, snapshotOk, seen, self, topology, ok) && !before.shuttingDown
    requires forall k :: HasChecksLeft(before.applied, k) ==> StillItself(k, before.applied[k].image, checks(k))
    ensures ok && after.applied.Keys == before.applied.Keys
    ensures forall k :: k in before.applied ==>
              var e := before.applied[k];
              after.applied[k] == if HasChecksLeft(before.applied, k) then e.(checks := e.checks + 1) else e
    ensures before.os.writes <= after.os.writes
    ensures forall w :: w in NewWrites(before.os, after.os) ==>
              HasChecksLeft(before.applied, w.target) && checks(w.target).resolved.Some?
    ensures forall k :: k in before.os.processes && !(HasChecksLeft(before.applied, k) && checks(k).resolved.Some?) ==>
              k in after.os.processes && after.os.processes[k] == before.os.processes[k]
  {
    var pending := PendingKeys(before.applied);
    forall k | k in pending ensures !Drifts(k, before.applied[k], checks(k)) {
      assert HasChecksLeft(before.applied, k);
    }
    hide Drifts, Serviced;
    assert !AnyDrift(before.applied, pending, checks);
  }

  /**
   A pass with drift: if some pending instance is seen as something else, or not seen because it is gone, the pass
   needs its snapshot to succeed, and tracks nothing afterwards that the snapshot does not show with a rule.
   */
  lemma PassWithDrift(before: World, after: World, checks: ProcessKey -> CheckAnswers, snapshotOk: bool,
                      seen: seq<Sighting>, self: nat, topology: seq<Cpu.CpuSetEntry>, ok: bool, changed: ProcessKey)
    requires PassRun(before, after, checks, snapshotOk, seen, self, topology, ok) && !before.shuttingDown
    requires HasChecksLeft(before.applied, changed)
    requires !StillItself(changed, before.applied[changed].image, checks(changed))
    ensures ok == snapshotOk
    ensures snapshotOk && seen != [] ==>
              forall k :: k in after.applied ==>
                exists i :: 0 <= i < |seen| && Shows(seen[i], self, k) && seen[i].answers.Rule().Some?
    ensures !snapshotOk || seen == [] ==> after.applied.Keys == before.applied.Keys
  {
    var pending := PendingKeys(before.applied);
    assert changed in pending && Drifts(changed, before.applied[changed], checks(changed));
    assert CheckedOnce(before.applied, pending).Keys == before.applied.Keys;
    hide Drifts, Answers.Rule, BatchDone, Reconciled, CheckedOnce;
    assert AnyDrift(before.applied, pending, checks);
    if snapshotOk && seen != [] {
      var mid :|
        BatchDone(before.applied, pending, checks, before.os, mid) &&
        PassEnded(before.(applied := CheckedOnce(before.applied, pending), os := mid), after, true, snapshotOk, seen,
                  self, topology, ok);
      ReconciledTracks(before.(applied := CheckedOnce(before.applied, pending), os := mid), after, seen, self,
                       topology);
      forall k | k in after.applied
        ensures exists i :: 0 <= i < |seen| && Shows(seen[i], self, k) && seen[i].answers.Rule().Some?
      {
        assert SomeGoverns(seen, self, k);
        var i :| 0 <= i < |seen| && GovernedAs(seen[i], self, k);
        assert Shows(seen[i], self, k);
      }
    }
  }

  /** An exited process whose pid means nothing, or something else, is dropped unless the snapshot still shows it. */
  lemma GoneIsDropped(before: World, after: World, checks: ProcessKey -> CheckAnswers, seen: seq<Sighting>, self: nat,
                      topology: seq<Cpu.CpuSetEntry>, ok: bool, k: ProcessKey)
    requires PassRun(before, after, checks, true, seen, self, topology, ok) && !before.shuttingDown && seen != []
    requires HasChecksLeft(before.applied, k)
    requires if checks(k).resolved.None? then checks(k).exited else checks(k).resolved.value.key != k
    requires forall i :: 0 <= i < |seen| ==> !Shows(seen[i], self, k)
    ensures k !in after.applied && ok
  {
    hide PassRun, Answers.Rule;
    PassWithDrift(before, after, checks, true, seen, self, topology, ok, k);
  }

  /** The component is configured and the process does not have its value. */
  predicate IsOff(policy: Policy, state: ProcessState, c: Component) {
    match c
    case Affinity => policy.affinityMask.Some? && state.affinity != policy.affinityMask.value
    case EcoQos => policy.ecoQos.Some? && !(state.ecoControlled && state.ecoEnabled == policy.ecoQos.value)
    case Priority => policy.priorityClass.Some? && state.priority != policy.priorityClass.value
  }

  /** `k` has checks left, and its check finds it under its tracked image. */
  predicate IsServed(applied: Applied, checks: ProcessKey -> CheckAnswers, k: ProcessKey) {
    HasChecksLeft(applied, k) && checks(k).resolved == Some(Resolved(k, Some(applied[k].image)))
  }

  lemma ServedFoundItself(applied: Applied, checks: ProcessKey -> CheckAnswers, k: ProcessKey)
    ensures IsServed(applied, checks, k) <==> FoundItself(applied, PendingKeys(applied), checks, k)
  {
  }

  lemma ServiceWritesWhatIsOff(key: ProcessKey, policy: Policy, faults: Faults, before: ProcessState,
                               after: ProcessState, writes: seq<Write>, c: Component)
    requires Serviced(key, policy, faults, before, after, writes)
    ensures Attempted(writes, key, c) <==> IsOff(policy, before, c) && c !in faults.query
    ensures Write(key, c, true) in writes ==> c !in faults.change
    ensures Attempted(writes, key, c) && c !in faults.change ==>
              Write(key, c, true) in writes && !IsOff(policy, after, c)
    ensures !Attempted(writes, key, c) || c in faults.change ==> SameComponent(before, after, c)
  {
    assert OffTarget(policy, before, faults, c) <==> IsOff(policy, before, c) && c !in faults.query;
    assert OffTarget(policy, before, faults, c) <==> Attempted(writes, key, c);
    if Attempted(writes, key, c) && c !in faults.change { assert Conforms(policy, after, c); }
    var v := Write(key, c, false);
    assert v in writes ==> v.done == (v.component !in faults.change);
  }

  /**
   What the checks of a batch write, whatever fails: a component of an instance gets a setter call exactly when the
   instance is served and the component could be read and was off; if the call succeeds it is not off any more.
   */
  lemma ChecksWriteWhatIsOff(applied: Applied, checks: ProcessKey -> CheckAnswers, before: OsState, after: OsState,
                             k: ProcessKey, c: Component)
    requires BatchDone(applied, PendingKeys(applied), checks, before, after)
    requires k in before.processes && k in after.processes
    ensures Attempted(NewWrites(before, after), k, c) <==>
              IsServed(applied, checks, k) && IsOff(applied[k].policy, before.processes[k], c) &&
              c !in checks(k).faults.query
    ensures Attempted(NewWrites(before, after), k, c) && c !in checks(k).faults.change ==>
              Write(k, c, true) in NewWrites(before, after) && !IsOff(applied[k].policy, after.processes[k], c)
    ensures !Attempted(NewWrites(before, after), k, c) || c in checks(k).faults.change ==>
              SameComponent(before.processes[k], after.processes[k], c)
  {
    var pending, writes := PendingKeys(applied), NewWrites(before, after);
    assert pending <= applied.Keys;
    ServedFoundItself(applied, checks, k);
    WritesToHas(writes, Write(k, c, true));
    WritesToHas(writes, Write(k, c, false));
    hide PendingKeys, IsServed, Serviced, IsOff;
    if FoundItself(applied, pending, checks, k) {
      assert ProcessServed(applied, checks, before, after, k);
      hide BatchDone;
      ServiceWritesWhatIsOff(k, applied[k].policy, checks(k).faults, before.processes[k], after.processes[k],
                             WritesTo(writes, k), c);
    } else {
      NoWritesTo(writes, FoundThemselves(applied, pending, checks), k);
    }
  }

  lemma SoundChecked(applied: Applied, done: set<ProcessKey>, topology: seq<Cpu.CpuSetEntry>)
    requires Sound(applied, topology)
    ensures Sound(CheckedOnce(applied, done), topology)
  {
    hide IsResolution, FromRegistry;
    var next := CheckedOnce(applied, done);
    forall k | k in next ensures SoundEntry(next[k], topology) {
      assert SoundEntry(applied[k], topology);
    }
  }
}
