/**
 The lost-event coalescing protocol (src/etw.rs, `LostEventState`).

 Any number of callers report a growing lost-event count.  Each atomic access of the
 source is one step of the machine below; the accesses are taken to be sequentially
 consistent.  `State.callers` gives the program position of every call.
 */
module LostEvents {

  type Caller = nat

  /** Position of one call of `reconcile(reported)`, named after the access it performs next. */
  datatype Position =
    | Report                                     // observed.fetch_max(reported)
    | Claim                                      // first compare_exchange of `reconciling`
    | LoadObserved                               // top of the loop: target := observed
    | LoadReconciled(target: nat)                // reconciled, then the comparison
    | Callback(target: nat)                      // the caller's closure runs with `target`
    | RaiseReconciled(target: nat)               // reconciled.fetch_max(target)
    | Release                                    // reconciling.store(false)
    | CheckObserved                              // first load of the exit test
    | CheckReconciled(observed: nat)             // second load of the exit test
    | Reclaim                                    // second compare_exchange
    | Done

  /** `rounds` counts how often this call has entered the loop body. */
  datatype Call = Call(reported: nat, position: Position, rounds: nat)

  datatype State = State(
    observed: nat,
    reconciled: nat,
    reconciling: bool,
    callers: map<Caller, Call>,
    callbacks: seq<nat>)                         // history: targets of all callbacks so far

  function Init(reports: map<Caller, nat>): State {
    State(0, 0, false, map c | c in reports :: Call(reports[c], Report, 0), [])
  }

  function Max(a: nat, b: nat): nat {
    if a < b then b else a
  }

  function Move(s: State, c: Caller, position: Position): State
    requires c in s.callers
  {
    s.(callers := s.callers[c := s.callers[c].(position := position)])
  }

  function EnterLoop(s: State, c: Caller): State
    requires c in s.callers
  {
    var call := s.callers[c];
    s.(reconciling := true,
       callers := s.callers[c := call.(position := LoadObserved, rounds := call.rounds + 1)])
  }

  predicate Enabled(s: State, c: Caller) {
    c in s.callers && !s.callers[c].position.Done?
  }

  /** The next atomic access of caller `c`. */
  function Step(s: State, c: Caller): State
    requires Enabled(s, c)
  {
    var call := s.callers[c];
    match call.position
    case Report =>
      if call.reported == 0 then Move(s, c, Done)
      else Move(s.(observed := Max(s.observed, call.reported)), c, Claim)
    case Claim =>
      if s.reconciling then Move(s, c, Done) else EnterLoop(s, c)
    case LoadObserved =>
      Move(s, c, LoadReconciled(s.observed))
    case LoadReconciled(target) =>
      if target > s.reconciled then
        Move(s.(callbacks := s.callbacks + [target]), c, Callback(target))
      else
        Move(s, c, Release)
    case Callback(target) =>
      Move(s, c, RaiseReconciled(target))
    case RaiseReconciled(target) =>
      Move(s.(reconciled := Max(s.reconciled, target)), c, Release)
    case Release =>
      Move(s.(reconciling := false), c, CheckObserved)
    case CheckObserved =>
      Move(s, c, CheckReconciled(s.observed))
    case CheckReconciled(observed) =>
      if observed <= s.reconciled then Move(s, c, Done) else Move(s, c, Reclaim)
    case Reclaim =>
      if s.reconciling then Move(s, c, Done) else EnterLoop(s, c)
  }

  /** `t` is reached from `s` when the callers named in `schedule` step in that order. */
  predicate Run(s: State, schedule: seq<Caller>, t: State)
    decreases |schedule|
  {
    if schedule == [] then s == t
    else Enabled(s, schedule[0]) && Run(Step(s, schedule[0]), schedule[1..], t)
  }

  lemma {:induction false} RunAppend(s: State, first: seq<Caller>, t: State, second: seq<Caller>, u: State)
    requires Run(s, first, t) && Run(t, second, u)
    ensures Run(s, first + second, u)
    decreases |first|
  {
    if first == [] {
      assert first + second == second;
    } else {
      RunAppend(Step(s, first[0]), first[1..], t, second, u);
      assert (first + second)[1..] == first[1..] + second;
    }
  }

  // ---------------------------------------------------------------- the invariant

  predicate Owns(call: Call) {
    match call.position
    case LoadObserved | LoadReconciled(_) | Callback(_) | RaiseReconciled(_) | Release => true
    case _ => false
  }

  predicate InCallback(call: Call) {
    call.position.Callback?
  }

  /** A call that is bound to look at `observed` again, or has just seen its latest value. */
  predicate Responsible(call: Call, observed: nat) {
    || call.position.Claim?
    || call.position.CheckObserved?
    || call.position.Reclaim?
    || (call.position.CheckReconciled? && call.position.observed == observed)
  }

  ghost predicate OneOwner(s: State) {
    && (s.reconciling <==> exists c :: c in s.callers && Owns(s.callers[c]))
    && forall c, d :: c in s.callers && d in s.callers && Owns(s.callers[c]) && Owns(s.callers[d]) ==> c == d
  }

  /** What the locals of one call say about the shared counters. */
  predicate LocalsOk(s: State, call: Call) {
    match call.position
    case Report => call.rounds == 0
    case Claim => 0 < call.reported <= s.observed && call.rounds == 0
    case LoadObserved => 0 < call.rounds <= s.observed
    case LoadReconciled(target) => call.rounds <= target <= s.observed
    case Callback(target) => call.rounds <= target <= s.observed && s.reconciled < target
    case RaiseReconciled(target) => call.rounds <= target <= s.observed && s.reconciled < target
    case Release => call.rounds <= s.reconciled
    case CheckObserved => call.rounds <= s.reconciled
    case CheckReconciled(observed) => call.rounds <= s.reconciled && observed <= s.observed
    case Reclaim => call.rounds < s.observed
    case Done => call.rounds <= s.observed
  }

  ghost predicate AllLocalsOk(s: State) {
    forall c :: c in s.callers ==> LocalsOk(s, s.callers[c])
  }

  /** No report is forgotten: while work is open, some call still answers for it. */
  ghost predicate WorkIsOwned(s: State) {
    s.observed > s.reconciled ==>
      s.reconciling || exists c :: c in s.callers && Responsible(s.callers[c], s.observed)
  }

  /** `observed` is the largest count among the calls that have reported. */
  ghost predicate ObservedIsMax(s: State) {
    && (forall c :: c in s.callers && !s.callers[c].position.Report? ==> s.callers[c].reported <= s.observed)
    && (s.observed == 0 ||
        exists c :: c in s.callers && !s.callers[c].position.Report? && s.callers[c].reported == s.observed)
  }

  predicate Increasing(targets: seq<nat>) {
    forall i, j :: 0 <= i < j < |targets| ==> targets[i] < targets[j]
  }

  predicate Pending(call: Call) {
    call.position.Callback? || call.position.RaiseReconciled?
  }

  /** The callback history: strictly increasing, and its last target is either recorded or in progress. */
  ghost predicate HistoryOk(s: State) {
    && Increasing(s.callbacks)
    && (forall c :: c in s.callers && Pending(s.callers[c]) ==>
          s.callbacks != [] && s.callbacks[|s.callbacks| - 1] == s.callers[c].position.target)
    && ((forall c :: c in s.callers ==> !Pending(s.callers[c])) ==>
          s.reconciled == if s.callbacks == [] then 0 else s.callbacks[|s.callbacks| - 1])
  }

  ghost predicate Inv(s: State) {
    && s.reconciled <= s.observed
    && OneOwner(s)
    && AllLocalsOk(s)
    && WorkIsOwned(s)
    && ObservedIsMax(s)
    && HistoryOk(s)
  }

  lemma InitInv(reports: map<Caller, nat>)
    ensures Inv(Init(reports))
  {
  }

  lemma StepFrame(s: State, c: Caller)
    requires Enabled(s, c)
    ensures Step(s, c).callers.Keys == s.callers.Keys
    ensures forall d :: d in s.callers && d != c ==> Step(s, c).callers[d] == s.callers[d]
    ensures Step(s, c).callers[c].reported == s.callers[c].reported
  {
  }

  /** Ownership is won by a successful exchange and given up by the release. */
  lemma StepOwnership(s: State, c: Caller)
    requires Enabled(s, c)
    ensures var before, after := s.callers[c], Step(s, c).callers[c];
            var exchanges := before.position.Claim? || before.position.Reclaim?;
            && (Owns(after) <==> (Owns(before) && !before.position.Release?) || (exchanges && !s.reconciling))
            && Step(s, c).reconciling == (if before.position.Release? then false else s.reconciling || exchanges)
  {
  }

  lemma StepKeepsOwner(s: State, c: Caller)
    requires Inv(s) && Enabled(s, c)
    ensures OneOwner(Step(s, c))
  {
    hide AllLocalsOk, WorkIsOwned, ObservedIsMax, HistoryOk;
    StepFrame(s, c);
    StepOwnership(s, c);
    var t := Step(s, c);
    hide Step;
    if t.reconciling {
      if s.reconciling {
        var o :| o in s.callers && Owns(s.callers[o]);
        assert Owns(t.callers[o]);
      } else {
        assert Owns(t.callers[c]);
      }
    }
  }

  lemma LocalsMonotone(s: State, t: State, call: Call)
    requires LocalsOk(s, call)
    requires s.observed <= t.observed && s.reconciled <= t.reconciled
    requires Pending(call) ==> s.reconciled == t.reconciled
    ensures LocalsOk(t, call)
  {
  }

  lemma OwnStepKeepsLocals(s: State, c: Caller)
    requires Enabled(s, c) && LocalsOk(s, s.callers[c]) && s.reconciled <= s.observed
    ensures var t := Step(s, c);
            && LocalsOk(t, t.callers[c])
            && s.observed <= t.observed && s.reconciled <= t.reconciled <= t.observed
            && (!Owns(s.callers[c]) ==> s.reconciled == t.reconciled)
  {
  }

  lemma StepKeepsLocals(s: State, c: Caller)
    requires Inv(s) && Enabled(s, c)
    ensures AllLocalsOk(Step(s, c)) && Step(s, c).reconciled <= Step(s, c).observed
  {
    hide WorkIsOwned, ObservedIsMax, HistoryOk;
    assert LocalsOk(s, s.callers[c]);
    OwnStepKeepsLocals(s, c);
    StepFrame(s, c);
    var t := Step(s, c);
    hide Step, LocalsOk;
    forall d | d in t.callers ensures LocalsOk(t, t.callers[d]) {
      if d != c {
        assert t.callers[d] == s.callers[d];
        assert Owns(s.callers[c]) ==> !Owns(s.callers[d]);
        LocalsMonotone(s, t, s.callers[d]);
      }
    }
  }

  lemma StepKeepsWorkOwned(s: State, c: Caller)
    requires Inv(s) && Enabled(s, c)
    ensures WorkIsOwned(Step(s, c))
  {
    var t := Step(s, c);
    assert LocalsOk(s, s.callers[c]);
    if t.observed > t.reconciled && !t.reconciling {
      if Responsible(t.callers[c], t.observed) {
      } else if s.observed > s.reconciled && !s.reconciling {
        var d :| d in s.callers && Responsible(s.callers[d], s.observed);
        assert d != c;
        assert t.callers[d] == s.callers[d];
        assert Responsible(t.callers[d], t.observed);
      }
    }
  }

  /** `observed` is raised by a first report and by nothing else. */
  lemma StepReports(s: State, c: Caller)
    requires Enabled(s, c)
    ensures var before, t := s.callers[c], Step(s, c);
            && !t.callers[c].position.Report?
            && t.observed == if before.position.Report? then Max(s.observed, before.reported) else s.observed
  {
  }

  lemma StepKeepsMax(s: State, c: Caller)
    requires Inv(s) && Enabled(s, c)
    ensures ObservedIsMax(Step(s, c))
  {
    hide OneOwner, AllLocalsOk, WorkIsOwned, HistoryOk;
    StepFrame(s, c);
    StepReports(s, c);
    var t := Step(s, c);
    hide Step;
    if t.observed > 0 {
      if t.observed == s.observed {
        var d :| d in s.callers && !s.callers[d].position.Report? && s.callers[d].reported == s.observed;
        assert !t.callers[d].position.Report? && t.callers[d].reported == t.observed;
      } else {
        assert t.callers[c].reported == t.observed;
      }
    }
  }

  lemma OwnerStepKeepsHistory(s: State, c: Caller)
    requires Inv(s) && Enabled(s, c) && Owns(s.callers[c])
    ensures HistoryOk(Step(s, c))
  {
    var t := Step(s, c);
    assert LocalsOk(s, s.callers[c]);
    forall d | d in s.callers && d != c ensures !Pending(t.callers[d]) && !Pending(s.callers[d]) {
      assert !Owns(s.callers[d]);
    }
    if !Pending(s.callers[c]) {
      assert forall d :: d in s.callers ==> !Pending(s.callers[d]);
    }
    if Pending(t.callers[c]) {
      assert !(forall d :: d in t.callers ==> !Pending(t.callers[d]));
    }
  }

  lemma OtherStepIsSilent(s: State, c: Caller)
    requires Enabled(s, c) && !Owns(s.callers[c])
    ensures Step(s, c).callbacks == s.callbacks && Step(s, c).reconciled == s.reconciled
    ensures !Pending(s.callers[c]) && !Pending(Step(s, c).callers[c])
  {
  }

  lemma OtherStepKeepsHistory(s: State, c: Caller)
    requires Inv(s) && Enabled(s, c) && !Owns(s.callers[c])
    ensures HistoryOk(Step(s, c))
  {
    hide OneOwner, AllLocalsOk, WorkIsOwned, ObservedIsMax, Increasing;
    StepFrame(s, c);
    OtherStepIsSilent(s, c);
    var t := Step(s, c);
    hide Step, Pending;
    if forall d :: d in t.callers ==> !Pending(t.callers[d]) {
      assert forall d :: d in s.callers ==> !Pending(s.callers[d]);
    }
  }

  lemma StepKeepsHistory(s: State, c: Caller)
    requires Inv(s) && Enabled(s, c)
    ensures HistoryOk(Step(s, c))
  {
    if Owns(s.callers[c]) {
      OwnerStepKeepsHistory(s, c);
    } else {
      OtherStepKeepsHistory(s, c);
    }
  }

  lemma StepKeepsInv(s: State, c: Caller)
    requires Inv(s) && Enabled(s, c)
    ensures Inv(Step(s, c))
  {
    StepKeepsOwner(s, c);
    StepKeepsLocals(s, c);
    StepKeepsWorkOwned(s, c);
    StepKeepsMax(s, c);
    StepKeepsHistory(s, c);
  }

  lemma {:induction false} RunKeepsInv(s: State, schedule: seq<Caller>, t: State)
    requires Inv(s) && Run(s, schedule, t)
    ensures Inv(t)
    decreases |schedule|
  {
    if schedule == [] {
    } else {
      StepKeepsInv(s, schedule[0]);
      RunKeepsInv(Step(s, schedule[0]), schedule[1..], t);
    }
  }

  // ---------------------------------------------------------------- whole runs

  lemma {:induction false} RunKeepsReports(s: State, schedule: seq<Caller>, t: State)
    requires Run(s, schedule, t)
    ensures t.callers.Keys == s.callers.Keys
    ensures forall c :: c in s.callers ==> t.callers[c].reported == s.callers[c].reported
    ensures s.callbacks <= t.callbacks
    decreases |schedule|
  {
    if schedule == [] {
    } else {
      RunKeepsReports(Step(s, schedule[0]), schedule[1..], t);
    }
  }

  predicate Quiescent(s: State) {
    forall c :: c in s.callers ==> s.callers[c].position.Report? || s.callers[c].position.Done?
  }

  predicate Finished(s: State, c: Caller) {
    c in s.callers && s.callers[c].position.Done?
  }

  /**
   Completeness: in every interleaving, whenever no call is in progress the recorded count is
   the observed count, and it is the largest count any finished call reported; the last
   callback ran with exactly that target.
   */
  lemma NoReportIsLost(reports: map<Caller, nat>, schedule: seq<Caller>, t: State)
    requires Run(Init(reports), schedule, t) && Quiescent(t)
    ensures t.reconciled == t.observed
    ensures forall c :: Finished(t, c) ==> c in reports && reports[c] <= t.reconciled
    ensures t.reconciled == 0 || exists c :: Finished(t, c) && reports[c] == t.reconciled
    ensures t.reconciled == if t.callbacks == [] then 0 else t.callbacks[|t.callbacks| - 1]
  {
    hide Run;
    InitInv(reports);
    RunKeepsInv(Init(reports), schedule, t);
    RunKeepsReports(Init(reports), schedule, t);
    if t.observed > 0 {
      var c :| c in t.callers && !t.callers[c].position.Report? && t.callers[c].reported == t.observed;
      assert Finished(t, c);
    }
  }

  /** Callbacks never overlap, and over a whole run their targets strictly increase. */
  lemma CallbacksAreSerialAndIncreasing(reports: map<Caller, nat>, schedule: seq<Caller>, t: State)
    requires Run(Init(reports), schedule, t)
    ensures forall c, d | c in t.callers && d in t.callers && InCallback(t.callers[c]) && InCallback(t.callers[d]) ::
              c == d
    ensures Increasing(t.callbacks)
    ensures forall i :: 0 <= i < |t.callbacks| ==> 0 < t.callbacks[i] <= t.observed
  {
    InitInv(reports);
    RunKeepsInv(Init(reports), schedule, t);
    CallbacksInRange(Init(reports), schedule, t);
  }

  /** Every callback had a positive target that has been observed. */
  predicate InRange(s: State) {
    forall i :: 0 <= i < |s.callbacks| ==> 0 < s.callbacks[i] <= s.observed
  }

  lemma StepKeepsRange(s: State, c: Caller)
    requires Enabled(s, c) && LocalsOk(s, s.callers[c]) && InRange(s) && s.reconciled <= s.observed
    ensures InRange(Step(s, c))
  {
    OwnStepKeepsLocals(s, c);
  }

  lemma {:induction false} CallbacksInRange(s: State, schedule: seq<Caller>, t: State)
    requires Inv(s) && Run(s, schedule, t) && InRange(s)
    ensures InRange(t)
    decreases |schedule|
  {
    if schedule == [] {
    } else {
      assert LocalsOk(s, s.callers[schedule[0]]);
      StepKeepsRange(s, schedule[0]);
      StepKeepsInv(s, schedule[0]);
      hide Inv, Step, Enabled;
      CallbacksInRange(Step(s, schedule[0]), schedule[1..], t);
    }
  }

  // ---------------------------------------------------------------- termination

  /** No call reports more than `bound`. */
  predicate BoundedBy(s: State, bound: nat) {
    && s.observed <= bound
    && forall c :: c in s.callers ==> s.callers[c].reported <= bound
  }

  function PositionRank(position: Position): nat {
    match position
    case Report => 2
    case Claim => 1
    case LoadObserved => 8
    case LoadReconciled(_) => 7
    case Callback(_) => 6
    case RaiseReconciled(_) => 5
    case Release => 4
    case CheckObserved => 3
    case CheckReconciled(_) => 2
    case Reclaim => 1
    case Done => 0
  }

  /** Accesses a call can still make.  Steps of other calls leave it unchanged. */
  function Remaining(call: Call, bound: nat): nat {
    if call.position.Done? || call.rounds > bound then 0
    else 9 * (bound - call.rounds) + PositionRank(call.position)
  }

  lemma OwnStepSpendsOne(s: State, c: Caller, bound: nat)
    requires Enabled(s, c) && LocalsOk(s, s.callers[c])
    requires s.reconciled <= s.observed <= bound && s.callers[c].reported <= bound
    ensures Step(s, c).observed <= bound
    ensures Remaining(Step(s, c).callers[c], bound) < Remaining(s.callers[c], bound)
  {
  }

  lemma StepSpendsOne(s: State, c: Caller, bound: nat)
    requires Inv(s) && Enabled(s, c) && BoundedBy(s, bound)
    ensures BoundedBy(Step(s, c), bound) && Step(s, c).callers.Keys == s.callers.Keys
    ensures Remaining(Step(s, c).callers[c], bound) < Remaining(s.callers[c], bound)
    ensures forall d :: d in s.callers && d != c ==> Step(s, c).callers[d] == s.callers[d]
  {
    assert LocalsOk(s, s.callers[c]);
    OwnStepSpendsOne(s, c, bound);
    StepFrame(s, c);
    hide Inv, LocalsOk, Step, Remaining;
  }

  /** How often `c` steps in `schedule`. */
  function Turns(schedule: seq<Caller>, c: Caller): nat {
    if schedule == [] then 0 else (if schedule[0] == c then 1 else 0) + Turns(schedule[1..], c)
  }

  lemma {:induction false} CallIsBounded(s: State, schedule: seq<Caller>, t: State, c: Caller, bound: nat)
    requires Inv(s) && BoundedBy(s, bound) && Run(s, schedule, t) && c in s.callers
    ensures c in t.callers
    ensures Turns(schedule, c) + Remaining(t.callers[c], bound) <= Remaining(s.callers[c], bound)
    decreases |schedule|
  {
    if schedule == [] {
    } else {
      hide Inv, Step, Remaining, BoundedBy;
      var u := Step(s, schedule[0]);
      StepSpendsOne(s, schedule[0], bound);
      StepKeepsInv(s, schedule[0]);
      CallIsBounded(u, schedule[1..], t, c, bound);
    }
  }

  /** Each call's loop repeats at most as often as the largest reported count. */
  lemma LoopRoundsBounded(reports: map<Caller, nat>, schedule: seq<Caller>, t: State, c: Caller)
    requires Run(Init(reports), schedule, t) && c in t.callers
    ensures t.callers[c].rounds <= t.observed
    ensures t.observed == 0 || exists d :: d in reports && reports[d] == t.observed
  {
    InitInv(reports);
    RunKeepsInv(Init(reports), schedule, t);
    RunKeepsReports(Init(reports), schedule, t);
    assert LocalsOk(t, t.callers[c]);
  }

  function Without(schedule: seq<Caller>, c: Caller): seq<Caller> {
    if schedule == [] then []
    else (if schedule[0] == c then [] else [schedule[0]]) + Without(schedule[1..], c)
  }

  lemma {:induction false} WithoutCounts(schedule: seq<Caller>, c: Caller, d: Caller)
    ensures |schedule| == Turns(schedule, c) + |Without(schedule, c)|
    ensures Turns(Without(schedule, c), d) == if c == d then 0 else Turns(schedule, d)
    ensures forall x :: x in Without(schedule, c) ==> x in schedule && x != c
  {
    if schedule == [] {
    } else {
      WithoutCounts(schedule[1..], c, d);
      var rest := Without(schedule[1..], c);
      assert ([schedule[0]] + rest)[1..] == rest && [] + rest == rest;
    }
  }

  lemma OneMore(n: nat, each: nat)
    ensures (n + 1) * each == n * each + each
  {
  }

  lemma {:induction false} FewCallersFewSteps(schedule: seq<Caller>, callers: set<Caller>, each: nat)
    requires forall c :: c in schedule ==> c in callers
    requires forall c :: c in callers ==> Turns(schedule, c) <= each
    ensures |schedule| <= |callers| * each
    decreases |callers|
  {
    assert schedule == [] || schedule[0] in schedule;
    if callers == {} {
    } else {
      var c :| c in callers;
      var rest, others := Without(schedule, c), callers - {c};
      forall d | d in others ensures Turns(rest, d) <= each {
        WithoutCounts(schedule, c, d);
      }
      WithoutCounts(schedule, c, c);
      FewCallersFewSteps(rest, others, each);
      assert |callers| == |others| + 1;
      OneMore(|others|, each);
    }
  }

  lemma {:induction false} SchedulesNameCallers(s: State, schedule: seq<Caller>, t: State)
    requires Run(s, schedule, t)
    ensures forall c :: c in schedule ==> c in s.callers
    decreases |schedule|
  {
    if schedule == [] {
    } else {
      assert forall c :: c in schedule ==> c == schedule[0] || c in schedule[1..];
      SchedulesNameCallers(Step(s, schedule[0]), schedule[1..], t);
    }
  }

  /** Every run is finite: n calls reporting at most `bound` make at most n * (9 * bound + 2) accesses. */
  lemma EveryRunTerminates(reports: map<Caller, nat>, schedule: seq<Caller>, t: State, bound: nat)
    requires Run(Init(reports), schedule, t)
    requires forall c :: c in reports ==> reports[c] <= bound
    ensures |schedule| <= |reports.Keys| * (9 * bound + 2)
  {
    var s := Init(reports);
    InitInv(reports);
    SchedulesNameCallers(s, schedule, t);
    forall c | c in reports.Keys ensures Turns(schedule, c) <= 9 * bound + 2 {
      CallIsBounded(s, schedule, t, c, bound);
    }
    FewCallersFewSteps(schedule, reports.Keys, 9 * bound + 2);
  }

  // ---------------------------------------------------------------- the code

  /** The three atomics, together with the program position of every call that is in flight. */
  class LostEventState {
    var observed: nat
    var reconciled: nat
    var reconciling: bool
    var calls: map<Caller, Call>
    ghost var callbacks: seq<nat>

    ghost function View(): State
      reads this
    {
      State(observed, reconciled, reconciling, calls, callbacks)
    }

    constructor (reports: map<Caller, nat>)
      ensures View() == Init(reports)
    {
      observed, reconciled, reconciling := 0, 0, false;
      calls := map c | c in reports :: Call(reports[c], Report, 0);
      callbacks := [];
    }

    method Goto(c: Caller, position: Position)
      requires c in calls
      modifies this`calls
      ensures View() == Move(old(View()), c, position)
    {
      calls := calls[c := calls[c].(position := position)];
    }

    /** compare_exchange(false, true) on `reconciling` and, on success, the entry into the loop. */
    method CompareExchange(c: Caller) returns (won: bool)
      requires c in calls
      modifies this`reconciling, this`calls
      ensures won == !old(reconciling)
      ensures View() == if won then EnterLoop(old(View()), c) else Move(old(View()), c, Done)
    {
      won := !reconciling;
      if won {
        reconciling := true;
        calls := calls[c := calls[c].(position := LoadObserved, rounds := calls[c].rounds + 1)];
      } else {
        Goto(c, Done);
      }
    }

    /** One atomic access of some other call. */
    method Advance(c: Caller)
      requires Enabled(View(), c)
      modifies this
      ensures View() == Step(old(View()), c)
    {
      var call := calls[c];
      match call.position
      case Report =>
        if call.reported == 0 {
          Goto(c, Done);
        } else {
          observed := Max(observed, call.reported);
          Goto(c, Claim);
        }
      case Claim => var _ := CompareExchange(c);
      case LoadObserved => Goto(c, LoadReconciled(observed));
      case LoadReconciled(target) =>
        if target > reconciled {
          callbacks := callbacks + [target];
          Goto(c, Callback(target));
        } else {
          Goto(c, Release);
        }
      case Callback(target) => Goto(c, RaiseReconciled(target));
      case RaiseReconciled(target) =>
        reconciled := Max(reconciled, target);
        Goto(c, Release);
      case Release =>
        reconciling := false;
        Goto(c, CheckObserved);
      case CheckObserved => Goto(c, CheckReconciled(observed));
      case CheckReconciled(seen) =>
        if seen <= reconciled { Goto(c, Done); } else { Goto(c, Reclaim); }
      case Reclaim => var _ := CompareExchange(c);
    }

    /** Before any access of `self`, the other calls may make any number of accesses in any order. */
    method Others(self: Caller, ghost start: State, ghost past: seq<Caller>) returns (ghost trace: seq<Caller>)
      requires Inv(start) && Run(start, past, View()) && self in calls
      modifies this
      ensures Run(start, trace, View()) && Inv(View())
      ensures self in calls && calls[self] == old(calls[self])
    {
      hide Inv, Run;
      trace := past;
      RunKeepsInv(start, past, View());
      var env: seq<Caller> := *;
      for i := 0 to |env|
        invariant Run(start, trace, View()) && Inv(View())
        invariant self in calls && calls[self] == old(calls[self])
      {
        if env[i] != self && env[i] in calls && !calls[env[i]].position.Done? {
          trace := Extend(start, trace, View(), env[i]);
          Advance(env[i]);
        }
      }
    }

    /** `LostEventState::reconcile`: the source's loop, interrupted by the other calls before every access. */
    method Reconcile(self: Caller, ghost start: State, ghost past: seq<Caller>, ghost bound: nat)
      returns (ghost trace: seq<Caller>)
      requires Inv(start) && BoundedBy(start, bound) && Run(start, past, View())
      requires self in calls && calls[self].position.Report?
      modifies this
      ensures Run(start, trace, View()) && Inv(View())
      ensures Finished(View(), self) && calls[self].reported == old(calls[self].reported)
    {
      hide Inv, Run;
      var eventsLost := calls[self].reported;
      trace := Others(self, start, past);
      trace := Extend(start, trace, View(), self);
      if eventsLost == 0 {
        Goto(self, Done);
        return;
      }
      observed := Max(observed, eventsLost);
      Goto(self, Claim);

      trace := Others(self, start, trace);
      trace := Extend(start, trace, View(), self);
      var won := CompareExchange(self);
      while won
        invariant Run(start, trace, View()) && Inv(View()) && self in calls
        invariant calls[self].reported == eventsLost
        invariant if won then calls[self].position.LoadObserved? else calls[self].position.Done?
        decreases won, bound - (if self in calls then calls[self].rounds else 0)
      {
        won, trace := Round(self, start, trace, bound);
      }
    }

    /** The body of the source's loop; `again` says that it is entered once more. */
    method Round(self: Caller, ghost start: State, ghost past: seq<Caller>, ghost bound: nat)
      returns (again: bool, ghost trace: seq<Caller>)
      requires Inv(start) && BoundedBy(start, bound) && Run(start, past, View())
      requires self in calls && calls[self].position.LoadObserved?
      modifies this
      ensures Run(start, trace, View()) && Inv(View())
      ensures self in calls && calls[self].reported == old(calls[self].reported)
      ensures if again then calls[self].position.LoadObserved? && old(calls[self].rounds) < calls[self].rounds <= bound
              else calls[self].position.Done?
    {
      hide Inv, Run;
      trace := Others(self, start, past);
      trace := Extend(start, trace, View(), self);
      var target := observed;
      Goto(self, LoadReconciled(target));

      trace := Others(self, start, trace);
      trace := Extend(start, trace, View(), self);
      var recorded := reconciled;
      if target > recorded {
        callbacks := callbacks + [target];
        Goto(self, Callback(target));
        trace := RunCallback(self, start, trace);
      }
      else {
        Goto(self, Release);
      }
      again, trace := ReleaseAndRecheck(self, start, trace, bound);
    }

    /** The callback, then `reconciled.fetch_max(target)`. */
    method RunCallback(self: Caller, ghost start: State, ghost past: seq<Caller>) returns (ghost trace: seq<Caller>)
      requires Inv(start) && Run(start, past, View())
      requires self in calls && calls[self].position.Callback?
      modifies this
      ensures Run(start, trace, View()) && Inv(View())
      ensures self in calls && calls[self] == old(calls[self]).(position := Release)
    {
      hide Inv, Run;
      var target := calls[self].position.target;
      trace := Others(self, start, past);
      trace := Extend(start, trace, View(), self);
      Goto(self, RaiseReconciled(target));

      trace := Others(self, start, trace);
      trace := Extend(start, trace, View(), self);
      reconciled := Max(reconciled, target);
      Goto(self, Release);
    }

    /** Gives up the loop, then takes it back if the counters have moved apart. */
    method ReleaseAndRecheck(self: Caller, ghost start: State, ghost past: seq<Caller>, ghost bound: nat)
      returns (again: bool, ghost trace: seq<Caller>)
      requires Inv(start) && BoundedBy(start, bound) && Run(start, past, View())
      requires self in calls && calls[self].position.Release?
      modifies this
      ensures Run(start, trace, View()) && Inv(View())
      ensures self in calls && calls[self].reported == old(calls[self].reported)
      ensures if again then calls[self].position.LoadObserved? && old(calls[self].rounds) < calls[self].rounds <= bound
              else calls[self].position.Done?
    {
      hide Inv, Run;
      trace := Others(self, start, past);
      trace := Extend(start, trace, View(), self);
      reconciling := false;
      Goto(self, CheckObserved);

      trace := Others(self, start, trace);
      trace := Extend(start, trace, View(), self);
      var seen := observed;
      Goto(self, CheckReconciled(seen));
      again, trace := Recheck(self, seen, start, trace, bound);
    }

    /** The second load of the exit test, and the second compare_exchange. */
    method Recheck(self: Caller, seen: nat, ghost start: State, ghost past: seq<Caller>, ghost bound: nat)
      returns (again: bool, ghost trace: seq<Caller>)
      requires Inv(start) && BoundedBy(start, bound) && Run(start, past, View())
      requires self in calls && calls[self].position == CheckReconciled(seen)
      modifies this
      ensures Run(start, trace, View()) && Inv(View())
      ensures self in calls && calls[self].reported == old(calls[self].reported)
      ensures if again then calls[self].position.LoadObserved? && old(calls[self].rounds) < calls[self].rounds <= bound
              else calls[self].position.Done?
    {
      hide Inv, Run;
      trace := Others(self, start, past);
      trace := Extend(start, trace, View(), self);
      if seen <= reconciled {
        Goto(self, Done);
        return false, trace;
      }
      Goto(self, Reclaim);

      trace := Others(self, start, trace);
      trace := Extend(start, trace, View(), self);
      again := CompareExchange(self);
      RoundsBounded(start, trace, View(), self, bound);
    }
  }

  lemma RoundsBounded(start: State, schedule: seq<Caller>, t: State, c: Caller, bound: nat)
    requires Inv(start) && BoundedBy(start, bound) && Run(start, schedule, t) && c in t.callers
    ensures t.callers[c].rounds <= bound
  {
    RunKeepsBound(start, schedule, t, bound);
    assert LocalsOk(t, t.callers[c]);
  }

  lemma {:induction false} RunKeepsBound(s: State, schedule: seq<Caller>, t: State, bound: nat)
    requires Inv(s) && BoundedBy(s, bound) && Run(s, schedule, t)
    ensures Inv(t) && BoundedBy(t, bound)
    decreases |schedule|
  {
    if schedule == [] {
    } else {
      StepSpendsOne(s, schedule[0], bound);
      StepKeepsInv(s, schedule[0]);
      RunKeepsBound(Step(s, schedule[0]), schedule[1..], t, bound);
    }
  }

  lemma Extend(start: State, past: seq<Caller>, s: State, c: Caller) returns (trace: seq<Caller>)
    requires Inv(start) && Run(start, past, s) && Enabled(s, c)
    ensures trace == past + [c]
    ensures Run(start, trace, Step(s, c)) && Inv(Step(s, c))
  {
    trace := past + [c];
    assert Run(Step(s, c), [], Step(s, c));
    assert Run(s, [c], Step(s, c));
    RunAppend(start, past, s, [c], Step(s, c));
    RunKeepsInv(start, past, s);
    StepKeepsInv(s, c);
  }
}
