/**
 The locks of the rule engine (src/engine.rs): every guard respects one order, no lock is held
 across a wait or a join, and therefore nothing deadlocks, whatever the threads do.

 A thread is a program of nested guard scopes; its branches and the number of turns of its loops
 are left open, so the programs cover every outcome of every call.
 */
module LockOrder {
  const STRIPES: nat := 64

  datatype Lock = WatcherActivity | MutationStripe(index: nat) | Watchers | Applied | Coordinator

  function Rank(l: Lock): int {
    match l
    case WatcherActivity => 0
    case MutationStripe(_) => 1
    case Watchers => 2
    case Applied => 2
    case Coordinator => 3
  }

  datatype Code =
    | Skip
    | Then(first: Code, second: Code)
    | Either(left: Code, right: Code)
    | Repeat(body: Code)
    | Guard(lock: Lock, body: Code)     // a guard and the scope it lives in
    | GuardStripe(body: Code)           // the same for the stripe of some process
    | Await                             // a wait on kernel objects, the shutdown event among them
    | Signal                            // the shutdown event is set
    | Join(thread: nat)
    | Touch(lock: Lock, write: bool)    // the data that the lock protects is read or changed

  // ---------------------------------------------------------------- threads

  datatype Item = Do(code: Code) | Unlock(lock: Lock)

  /** What a thread still has to do, the next item first; an `Unlock` is a guard it holds. */
  type Stack = seq<Item>

  datatype System = System(threads: seq<Stack>, signaled: bool)

  predicate Holds(stack: Stack, l: Lock) {
    Unlock(l) in stack
  }

  predicate IsFree(s: System, l: Lock) {
    forall j :: 0 <= j < |s.threads| ==> !Holds(s.threads[j], l)
  }

  predicate AtAwait(stack: Stack) {
    stack != [] && stack[0] == Do(Await)
  }

  /** The thread can take its next step now. */
  predicate Ready(s: System, i: nat) {
    && i < |s.threads| && s.threads[i] != []
    && match s.threads[i][0]
       case Do(Guard(l, _)) => IsFree(s, l)
       case Do(Join(t)) => t < |s.threads| && s.threads[t] == []
       case Do(Await) => s.signaled
       case _ => true
  }

  /** It may also be woken by something other than shutdown. */
  predicate MayStep(s: System, i: nat) {
    Ready(s, i) || (i < |s.threads| && AtAwait(s.threads[i]))
  }

  /** `choice` decides a branch, whether a loop goes on, or which stripe is meant. */
  function Next(stack: Stack, choice: nat): Stack
    requires stack != []
  {
    var rest := stack[1..];
    match stack[0]
    case Unlock(_) => rest
    case Do(Then(a, b)) => [Do(a), Do(b)] + rest
    case Do(Either(a, b)) => [Do(if choice == 0 then a else b)] + rest
    case Do(Repeat(b)) => if choice == 0 then rest else [Do(b)] + stack
    case Do(Guard(l, b)) => [Do(b), Unlock(l)] + rest
    case Do(GuardStripe(b)) => [Do(Guard(MutationStripe(choice % STRIPES), b))] + rest
    case Do(_) => rest
  }

  function Step(s: System, i: nat, choice: nat): System
    requires MayStep(s, i)
  {
    System(s.threads[i := Next(s.threads[i], choice)], s.signaled || s.threads[i][0] == Do(Signal))
  }

  datatype Move = Move(thread: nat, choice: nat)

  predicate Run(s: System, moves: seq<Move>, t: System)
    decreases |moves|
  {
    if moves == [] then s == t
    else MayStep(s, moves[0].thread) && Run(Step(s, moves[0].thread, moves[0].choice), moves[1..], t)
  }

  // ---------------------------------------------------------------- the discipline

  /** Run under locks of rank at most `floor`, the code only takes locks above it, and waits or joins under none. */
  predicate Ordered(c: Code, floor: int) {
    match c
    case Skip => true
    case Then(a, b) => Ordered(a, floor) && Ordered(b, floor)
    case Either(a, b) => Ordered(a, floor) && Ordered(b, floor)
    case Repeat(b) => Ordered(b, floor)
    case Guard(l, b) => Rank(l) > floor && Ordered(b, Rank(l))
    case GuardStripe(b) => 1 > floor && Ordered(b, 1)
    case Signal => true
    case Await => floor == -1
    case Join(_) => floor == -1
    case Touch(_, _) => true
  }

  /** The rank of the innermost guard held, or -1. */
  function Floor(stack: Stack): int {
    if stack == [] then -1
    else match stack[0]
      case Unlock(l) => Rank(l)
      case Do(_) => Floor(stack[1..])
  }

  predicate StackOrdered(stack: Stack) {
    stack == [] ||
    (StackOrdered(stack[1..]) &&
     match stack[0]
     case Unlock(l) => Rank(l) > Floor(stack[1..])
     case Do(c) => Ordered(c, Floor(stack[1..])))
  }

  /** Threads the code joins. */
  function Targets(c: Code): set<nat> {
    match c
    case Then(a, b) => Targets(a) + Targets(b)
    case Either(a, b) => Targets(a) + Targets(b)
    case Repeat(b) => Targets(b)
    case Guard(_, b) => Targets(b)
    case GuardStripe(b) => Targets(b)
    case Join(t) => {t}
    case _ => {}
  }

  function StackTargets(stack: Stack): set<nat> {
    if stack == [] then {}
    else (if stack[0].Do? then Targets(stack[0].code) else {}) + StackTargets(stack[1..])
  }

  /** After the code, run with or without the event set before it, the event is surely set. */
  predicate SetAfter(c: Code, raised: bool) {
    match c
    case Then(a, b) => SetAfter(b, SetAfter(a, raised))
    case Either(a, b) => SetAfter(a, raised) && SetAfter(b, raised)
    case Guard(_, b) => SetAfter(b, raised)
    case GuardStripe(b) => SetAfter(b, raised)
    case Signal => true
    case _ => raised
  }

  /** Every join happens after the event is set. */
  predicate SignalsFirst(c: Code, raised: bool) {
    match c
    case Then(a, b) => SignalsFirst(a, raised) && SignalsFirst(b, SetAfter(a, raised))
    case Either(a, b) => SignalsFirst(a, raised) && SignalsFirst(b, raised)
    case Repeat(b) => SignalsFirst(b, raised)
    case Guard(_, b) => SignalsFirst(b, raised)
    case GuardStripe(b) => SignalsFirst(b, raised)
    case Join(_) => raised
    case _ => true
  }

  predicate StackSignalsFirst(stack: Stack, raised: bool) {
    stack == [] ||
    match stack[0]
    case Unlock(_) => StackSignalsFirst(stack[1..], raised)
    case Do(c) => SignalsFirst(c, raised) && StackSignalsFirst(stack[1..], SetAfter(c, raised))
  }

  predicate ThreadOk(s: System, i: nat)
    requires i < |s.threads|
  {
    && StackOrdered(s.threads[i])
    && StackSignalsFirst(s.threads[i], s.signaled)
    && forall t :: t in StackTargets(s.threads[i]) ==> t < |s.threads| && StackTargets(s.threads[t]) == {}
  }

  /** No lock has two holders. */
  ghost predicate Exclusive(s: System) {
    forall i, j, l ::
      0 <= i < |s.threads| && 0 <= j < |s.threads| && Holds(s.threads[i], l) && Holds(s.threads[j], l) ==> i == j
  }

  ghost predicate Inv(s: System) {
    (forall i :: 0 <= i < |s.threads| ==> ThreadOk(s, i)) && Exclusive(s)
  }

  // ---------------------------------------------------------------- preservation

  lemma NextOrdered(stack: Stack, choice: nat)
    requires stack != [] && StackOrdered(stack)
    ensures StackOrdered(Next(stack, choice))
  {
    var rest := stack[1..];
    var next := Next(stack, choice);
    match stack[0]
    case Do(Then(a, b)) =>
      assert next[1..] == [Do(b)] + rest && next[1..][1..] == rest;
      assert StackOrdered(next[1..]);
    case Do(Repeat(b)) =>
      if choice != 0 { assert next[1..] == stack; }
    case Do(Guard(l, b)) =>
      assert next[1..] == [Unlock(l)] + rest && next[1..][1..] == rest;
      assert StackOrdered(next[1..]);
    case Do(Either(_, _)) => assert next[1..] == rest;
    case Do(GuardStripe(_)) => assert next[1..] == rest;
    case _ =>
  }

  lemma NextTargets(stack: Stack, choice: nat)
    requires stack != []
    ensures StackTargets(Next(stack, choice)) <= StackTargets(stack)
  {
    var rest := stack[1..];
    var next := Next(stack, choice);
    match stack[0]
    case Do(Then(a, b)) =>
      assert next[1..] == [Do(b)] + rest && next[1..][1..] == rest;
    case Do(Repeat(b)) =>
      if choice != 0 { assert next[1..] == stack; }
    case Do(Guard(l, b)) =>
      assert next[1..] == [Unlock(l)] + rest && next[1..][1..] == rest;
    case Do(Either(_, _)) => assert next[1..] == rest;
    case Do(GuardStripe(_)) => assert next[1..] == rest;
    case _ =>
  }

  lemma {:induction false} SetGrows(c: Code)
    ensures SetAfter(c, true)
  {
    match c
    case Then(a, b) => SetGrows(a); SetGrows(b);
    case Either(a, b) => SetGrows(a); SetGrows(b);
    case Guard(_, b) => SetGrows(b);
    case GuardStripe(b) => SetGrows(b);
    case _ =>
  }

  lemma {:induction false} SafeWhenSet(c: Code)
    ensures SignalsFirst(c, true)
  {
    match c
    case Then(a, b) => SafeWhenSet(a); SafeWhenSet(b); SetGrows(a);
    case Either(a, b) => SafeWhenSet(a); SafeWhenSet(b);
    case Repeat(b) => SafeWhenSet(b);
    case Guard(_, b) => SafeWhenSet(b);
    case GuardStripe(b) => SafeWhenSet(b);
    case _ =>
  }

  lemma {:induction false} StackSafeWhenSet(stack: Stack)
    ensures StackSignalsFirst(stack, true)
  {
    if stack == [] {
    } else {
      StackSafeWhenSet(stack[1..]);
      if stack[0].Do? {
        SafeWhenSet(stack[0].code);
        SetGrows(stack[0].code);
      }
    }
  }

  lemma StackSafer(stack: Stack, raised: bool, more: bool)
    requires StackSignalsFirst(stack, raised) && (raised ==> more)
    ensures StackSignalsFirst(stack, more)
  {
    if more { StackSafeWhenSet(stack); }
  }

  lemma AgainSignalsFirst(stack: Stack, raised: bool)
    requires stack != [] && stack[0].Do? && stack[0].code.Repeat? && StackSignalsFirst(stack, raised)
    ensures StackSignalsFirst([Do(stack[0].code.body)] + stack, raised)
  {
    var b := stack[0].code.body;
    assert ([Do(b)] + stack)[1..] == stack;
    if raised { SetGrows(b); }
    StackSafer(stack, raised, SetAfter(b, raised));
  }

  lemma BranchSignalsFirst(stack: Stack, c: Code, raised: bool)
    requires stack != [] && stack[0].Do? && stack[0].code.Either? && StackSignalsFirst(stack, raised)
    requires c == stack[0].code.left || c == stack[0].code.right
    ensures StackSignalsFirst([Do(c)] + stack[1..], raised)
  {
    var rest := stack[1..];
    assert ([Do(c)] + rest)[1..] == rest;
    StackSafer(rest, SetAfter(stack[0].code, raised), SetAfter(c, raised));
  }

  lemma NextSignalsFirst(stack: Stack, choice: nat, raised: bool)
    requires stack != [] && StackSignalsFirst(stack, raised)
    ensures StackSignalsFirst(Next(stack, choice), raised || stack[0] == Do(Signal))
  {
    var rest := stack[1..];
    var next := Next(stack, choice);
    match stack[0]
    case Do(Then(a, b)) =>
      assert next[1..] == [Do(b)] + rest && next[1..][1..] == rest;
    case Do(Repeat(b)) =>
      if choice != 0 { AgainSignalsFirst(stack, raised); }
    case Do(Guard(l, b)) =>
      assert next[1..] == [Unlock(l)] + rest && next[1..][1..] == rest;
    case Do(Either(a, b)) =>
      BranchSignalsFirst(stack, if choice == 0 then a else b, raised);
    case Do(GuardStripe(_)) => assert next[1..] == rest;
    case _ =>
  }

  lemma NextHolds(stack: Stack, choice: nat, l: Lock)
    requires stack != [] && Holds(Next(stack, choice), l)
    ensures Holds(stack, l) || (stack[0].Do? && stack[0].code.Guard? && stack[0].code.lock == l)
  {
  }

  lemma StepKeepsThread(s: System, i: nat, choice: nat, j: nat)
    requires Inv(s) && MayStep(s, i) && j < |s.threads|
    ensures ThreadOk(Step(s, i, choice), j)
  {
    assert ThreadOk(s, j) && ThreadOk(s, i);
    var t := Step(s, i, choice);
    hide Next, StackTargets, StackOrdered, StackSignalsFirst, Holds;
    NextTargets(s.threads[i], choice);
    if j == i {
      NextOrdered(s.threads[i], choice);
      NextSignalsFirst(s.threads[i], choice, s.signaled);
    } else {
      StackSafer(s.threads[j], s.signaled, t.signaled);
    }
  }

  lemma StepKeepsExclusive(s: System, i: nat, choice: nat)
    requires Inv(s) && MayStep(s, i)
    ensures Exclusive(Step(s, i, choice))
  {
    var t := Step(s, i, choice);
    forall j, k, l | 0 <= j < |t.threads| && 0 <= k < |t.threads| && Holds(t.threads[j], l) && Holds(t.threads[k], l)
      ensures j == k
    {
      if j == i && k != i { NextHolds(s.threads[i], choice, l); }
      if k == i && j != i { NextHolds(s.threads[i], choice, l); }
    }
  }

  lemma StepKeepsInv(s: System, i: nat, choice: nat)
    requires Inv(s) && MayStep(s, i)
    ensures Inv(Step(s, i, choice))
  {
    hide Next, ThreadOk, Exclusive;
    StepKeepsExclusive(s, i, choice);
    forall j | 0 <= j < |s.threads| ensures ThreadOk(Step(s, i, choice), j) {
      StepKeepsThread(s, i, choice, j);
    }
  }

  lemma {:induction false} RunKeepsInv(s: System, moves: seq<Move>, t: System)
    requires Inv(s) && Run(s, moves, t)
    ensures Inv(t)
    decreases |moves|
  {
    if moves == [] {
    } else {
      hide Inv, Step, MayStep;
      StepKeepsInv(s, moves[0].thread, moves[0].choice);
      RunKeepsInv(Step(s, moves[0].thread, moves[0].choice), moves[1..], t);
    }
  }

  // ---------------------------------------------------------------- no deadlock

  /** Thread `i` waits for something only thread `j` can give up. */
  predicate WaitsFor(s: System, i: nat, j: nat) {
    && i < |s.threads| && j < |s.threads| && s.threads[i] != []
    && match s.threads[i][0]
       case Do(Guard(l, _)) => Holds(s.threads[j], l)
       case Do(Join(t)) => t == j && s.threads[j] != []
       case _ => false
  }

  /** A chain of waiting threads from `i` to one that can run. */
  predicate LeadsToRunner(s: System, i: nat, path: seq<nat>) {
    && path != [] && path[0] == i
    && (forall k :: 0 <= k < |path| - 1 ==> WaitsFor(s, path[k], path[k + 1]))
    && Ready(s, path[|path| - 1])
  }

  /** A held lock has at most the rank of the innermost one. */
  lemma {:induction false} HeldBelowFloor(stack: Stack, l: Lock)
    requires StackOrdered(stack) && Holds(stack, l)
    ensures Rank(l) <= Floor(stack)
  {
    if stack[0] == Unlock(l) {
    } else {
      assert Unlock(l) in stack[1..];
      HeldBelowFloor(stack[1..], l);
    }
  }

  lemma Prepend(s: System, i: nat, j: nat, path: seq<nat>)
    requires WaitsFor(s, i, j) && LeadsToRunner(s, j, path)
    ensures LeadsToRunner(s, i, [i] + path)
  {
    hide WaitsFor, Ready;
    var more := [i] + path;
    forall k | 0 <= k < |more| - 1 ensures WaitsFor(s, more[k], more[k + 1]) {
      if k > 0 { assert WaitsFor(s, path[k - 1], path[k]); }
    }
  }

  /** The thread is at a guard, or holds one: then the chain of lock holders ends in a thread that can run. */
  lemma {:induction false} LockChain(s: System, i: nat) returns (path: seq<nat>)
    requires Inv(s) && i < |s.threads| && s.threads[i] != []
    requires Floor(s.threads[i]) >= 0 || (s.threads[i][0].Do? && s.threads[i][0].code.Guard?)
    ensures LeadsToRunner(s, i, path) && |path| <= 4 - Floor(s.threads[i])
    decreases 4 - Floor(s.threads[i])
  {
    var stack := s.threads[i];
    assert ThreadOk(s, i);
    if Ready(s, i) {
      path := [i];
      FloorAtMostThree(stack);
    } else {
      var l := stack[0].code.lock;
      var j :| 0 <= j < |s.threads| && Holds(s.threads[j], l);
      assert ThreadOk(s, j);
      HeldBelowFloor(s.threads[j], l);
      path := LockChain(s, j);
      Prepend(s, i, j, path);
      path := [i] + path;
    }
  }

  lemma {:induction false} FloorAtMostThree(stack: Stack)
    ensures -1 <= Floor(stack) <= 3
  {
    if stack == [] {
    } else {
      FloorAtMostThree(stack[1..]);
    }
  }

  /**
   Deadlock freedom.  In every state a run can reach, a thread that has not finished is in a wait
   for work that nothing has signaled yet, holding no lock, or is at most five hand-overs away
   from a thread that can run.
   */
  lemma NoDeadlock(s: System, moves: seq<Move>, t: System, i: nat)
    requires Inv(s) && Run(s, moves, t) && i < |t.threads| && t.threads[i] != []
    ensures (AtAwait(t.threads[i]) && !t.signaled && forall l :: !Holds(t.threads[i], l)) ||
            exists path :: LeadsToRunner(t, i, path) && |path| <= 6
  {
    RunKeepsInv(s, moves, t);
    hide Inv;
    Unblocked(t, i);
  }

  lemma Unblocked(t: System, i: nat)
    requires Inv(t) && i < |t.threads| && t.threads[i] != []
    ensures (AtAwait(t.threads[i]) && !t.signaled && forall l :: !Holds(t.threads[i], l)) ||
            exists path :: LeadsToRunner(t, i, path) && |path| <= 6
  {
    assert ThreadOk(t, i);
    if Ready(t, i) {
      assert LeadsToRunner(t, i, [i]);
    } else if t.threads[i][0].code.Guard? {
      var path := LockChain(t, i);
      FloorAtMostThree(t.threads[i]);
    } else if t.threads[i][0].code.Join? {
      JoinedRuns(t, i);
    } else {
      NothingHeld(t.threads[i]);
    }
  }

  lemma NothingHeld(stack: Stack)
    requires StackOrdered(stack) && Floor(stack) == -1
    ensures forall l :: !Holds(stack, l)
  {
    forall l ensures !Holds(stack, l) {
      if Holds(stack, l) { HeldBelowFloor(stack, l); }
    }
  }

  /** A join waits for a thread that joins nobody, after the shutdown event is set. */
  lemma JoinedRuns(t: System, i: nat)
    requires Inv(t) && i < |t.threads| && t.threads[i] != []
    requires t.threads[i][0].Do? && t.threads[i][0].code.Join? && !Ready(t, i)
    ensures t.signaled && forall l :: !Holds(t.threads[i], l)
    ensures var j := t.threads[i][0].code.thread; j < |t.threads| && StackTargets(t.threads[j]) == {}
    ensures exists path :: LeadsToRunner(t, i, path) && |path| <= 6
  {
    assert ThreadOk(t, i);
    NothingHeld(t.threads[i]);
    var j := t.threads[i][0].code.thread;
    assert j in StackTargets(t.threads[i]);
    assert WaitsFor(t, i, j);
    if Ready(t, j) {
      assert LeadsToRunner(t, j, [j]);
      Prepend(t, i, j, [j]);
    } else {
      assert ThreadOk(t, j);
      var path := LockChain(t, j);
      FloorAtMostThree(t.threads[j]);
      Prepend(t, i, j, path);
    }
  }

  /** Locks are exclusive in every run. */
  lemma GuardsAreExclusive(s: System, moves: seq<Move>, t: System, i: nat, j: nat, l: Lock)
    requires Inv(s) && Run(s, moves, t) && i < |t.threads| && j < |t.threads|
    requires Holds(t.threads[i], l) && Holds(t.threads[j], l)
    ensures i == j
  {
    RunKeepsInv(s, moves, t);
  }

  // ---------------------------------------------------------------- the engine's threads

  function Brief(l: Lock): Code {
    Guard(l, Touch(l, false))
  }

  function Change(l: Lock): Code {
    Guard(l, Touch(l, true))
  }

  function Sometimes(c: Code): Code {
    Either(Skip, c)
  }

  /** `park_reconciler_if_no_pending_locked`, called with `applied` locked. */
  function Park(): Code {
    Sometimes(Change(Coordinator))
  }

  function RemoveKeyLocked(): Code {
    Guard(Applied, Then(Touch(Applied, true), Park()))
  }

  function RemoveKey(): Code {
    GuardStripe(RemoveKeyLocked())
  }

  function NotifyReconciler(): Code {
    Guard(Applied, Then(Touch(Applied, false), Sometimes(Change(Coordinator))))
  }

  function ArmReconciler(): Code {
    Guard(Applied, Then(Touch(Applied, false), Change(Coordinator)))
  }

  /** The map is locked for the shortcut and again for the update; a new entry is watched and announced. */
  function ApplyOrUpdateRule(): Code {
    Then(Brief(Applied), Sometimes(
      Then(Change(Applied), Sometimes(
        Then(Change(Watchers), Either(RemoveKeyLocked(), NotifyReconciler()))))))
  }

  /** The stripe of the process covers the choice of its rule and either the application or the end of tracking. */
  function ApplyToPidInner(): Code {
    Sometimes(GuardStripe(Either(Then(ApplyOrUpdateRule(), Sometimes(RemoveKeyLocked())), RemoveKeyLocked())))
  }

  function ReconcileProcessesActive(): Code {
    Then(Brief(Applied), Sometimes(Then(Repeat(ApplyToPidInner()), Repeat(RemoveKey()))))
  }

  function ReconcileTrackedProcess(): Code {
    GuardStripe(Then(Change(Applied), Sometimes(Brief(Applied))))
  }

  function ReconcileTrackedProcesses(): Code {
    Then(Brief(Applied), Then(Repeat(ReconcileTrackedProcess()), Sometimes(ReconcileProcessesActive())))
  }

  /** Entry points lock `watcher_activity` around the flag test and the work. */
  function Entry(work: Code): Code {
    Guard(WatcherActivity, Sometimes(work))
  }

  /** Event callbacks and power notifications: any number of calls, each after a wait. */
  function Callbacks(): Code {
    Repeat(Then(Await, Either(Entry(ApplyToPidInner()), Either(Entry(RemoveKey()), Entry(ReconcileProcessesActive())))))
  }

  function Watcher(): Code {
    Then(Await, Sometimes(Entry(RemoveKey())))
  }

  function WorkerTurn(): Code {
    Either(ArmReconciler(),
      Either(Change(Coordinator),
        Then(Change(Coordinator), Sometimes(
          Then(Entry(ReconcileTrackedProcesses()), Either(ArmReconciler(), Change(Coordinator)))))))
  }

  function Worker(): Code {
    Repeat(Then(Await, Sometimes(WorkerTurn())))
  }

  /** The watchers are threads 1 to `count`; the worker is thread 0. */
  function JoinWatchers(count: nat): Code {
    if count == 0 then Skip else Then(Sometimes(Join(count)), JoinWatchers(count - 1))
  }

  function Shutdown(watchers: nat): Code {
    Then(Guard(WatcherActivity, Signal),
      Then(Change(Coordinator),
        Then(Sometimes(Join(0)),
          Then(Change(Watchers), JoinWatchers(watchers)))))
  }

  function Copies(c: Code, count: nat): seq<Stack> {
    seq(count, _ => [Do(c)])
  }

  /** The worker, the watchers, the callback threads, and any number of callers of `shutdown`. */
  function Engine(watchers: nat, callbacks: nat, shutdowns: nat): System {
    System(Copies(Worker(), 1) + Copies(Watcher(), watchers) + Copies(Callbacks(), callbacks) +
           Copies(Shutdown(watchers), shutdowns), false)
  }

  // ---------------------------------------------------------------- the engine keeps the discipline

  /** Code that respects the order under `floor` and joins nobody. */
  predicate Simple(c: Code, floor: int) {
    Ordered(c, floor) && Targets(c) == {} && SignalsFirst(c, false)
  }

  lemma SequenceIsSimple(a: Code, b: Code, floor: int)
    requires Simple(a, floor) && Simple(b, floor)
    ensures Simple(Then(a, b), floor)
  {
    if SetAfter(a, false) { SafeWhenSet(b); }
  }

  /** How simple code is put together. */
  lemma Composition()
    ensures forall floor :: Simple(Skip, floor) && Simple(Await, -1)
    ensures forall l, write, floor :: Simple(Touch(l, write), floor)
    ensures forall a, b, floor :: Simple(a, floor) && Simple(b, floor) ==> Simple(Either(a, b), floor)
    ensures forall b, floor :: Simple(b, floor) ==> Simple(Repeat(b), floor)
    ensures forall b, floor :: Simple(b, 1) && floor < 1 ==> Simple(GuardStripe(b), floor)
    ensures forall l, b, floor :: Simple(b, Rank(l)) && floor < Rank(l) ==> Simple(Guard(l, b), floor)
    ensures forall a, b, floor :: Simple(a, floor) && Simple(b, floor) ==> Simple(Then(a, b), floor)
  {
    forall a, b, floor | Simple(a, floor) && Simple(b, floor) ensures Simple(Then(a, b), floor) {
      SequenceIsSimple(a, b, floor);
    }
  }

  lemma RemovalIsSimple()
    ensures Simple(RemoveKeyLocked(), 1) && Simple(RemoveKey(), 0)
  {
    hide Simple;
    Composition();
  }

  lemma ApplicationIsSimple()
    ensures Simple(ApplyOrUpdateRule(), 1) && Simple(ApplyToPidInner(), 0)
  {
    hide Simple, RemoveKeyLocked;
    Composition();
    RemovalIsSimple();
    assert Simple(NotifyReconciler(), 1);
    assert Simple(ApplyOrUpdateRule(), 1);
  }

  lemma ReconciliationIsSimple()
    ensures Simple(ReconcileProcessesActive(), 0)
  {
    hide Simple, RemoveKey, ApplyToPidInner;
    Composition();
    RemovalIsSimple();
    ApplicationIsSimple();
  }

  lemma PassIsSimple()
    ensures Simple(ReconcileTrackedProcesses(), 0)
  {
    hide Simple, ReconcileProcessesActive;
    Composition();
    ReconciliationIsSimple();
    assert Simple(ReconcileTrackedProcess(), 0);
  }

  lemma ThreadsAreSimple()
    ensures Simple(Callbacks(), -1) && Simple(Watcher(), -1) && Simple(Worker(), -1)
  {
    hide Simple, RemoveKey, ApplyToPidInner, ReconcileProcessesActive, ReconcileTrackedProcesses;
    Composition();
    RemovalIsSimple();
    ApplicationIsSimple();
    ReconciliationIsSimple();
    PassIsSimple();
    assert Simple(ArmReconciler(), -1);
    assert Simple(WorkerTurn(), -1);
  }

  lemma {:induction false} JoinsAreOrdered(count: nat)
    ensures Ordered(JoinWatchers(count), -1) && SignalsFirst(JoinWatchers(count), true)
    ensures forall t :: t in Targets(JoinWatchers(count)) ==> t <= count
  {
    SafeWhenSet(JoinWatchers(count));
    if count == 0 {
    } else {
      JoinsAreOrdered(count - 1);
      assert Targets(Sometimes(Join(count))) == {count};
      assert Targets(JoinWatchers(count)) == {count} + Targets(JoinWatchers(count - 1));
    }
  }

  /** Code run with the event set, under no lock. */
  predicate JoinsUpTo(c: Code, last: nat) {
    Ordered(c, -1) && forall t :: t in Targets(c) ==> t <= last
  }

  lemma ThenJoins(a: Code, b: Code, last: nat)
    requires JoinsUpTo(a, last) && JoinsUpTo(b, last)
    ensures JoinsUpTo(Then(a, b), last)
  {
  }

  lemma ChangeJoins(l: Lock, last: nat)
    ensures JoinsUpTo(Change(l), last)
  {
  }

  lemma BaseJoins(last: nat)
    ensures JoinsUpTo(Guard(WatcherActivity, Signal), last) && JoinsUpTo(Sometimes(Join(0)), last)
    ensures JoinsUpTo(JoinWatchers(last), last)
  {
    JoinsAreOrdered(last);
  }

  lemma ShutdownIsOrdered(watchers: nat)
    ensures JoinsUpTo(Shutdown(watchers), watchers) && SignalsFirst(Shutdown(watchers), false)
  {
    hide JoinWatchers, JoinsUpTo, Change, SignalsFirst;
    var tail := Then(Change(Watchers), JoinWatchers(watchers));
    var joins := Then(Sometimes(Join(0)), tail);
    var rest := Then(Change(Coordinator), joins);
    BaseJoins(watchers);
    ChangeJoins(Watchers, watchers);
    ChangeJoins(Coordinator, watchers);
    ThenJoins(Change(Watchers), JoinWatchers(watchers), watchers);
    ThenJoins(Sometimes(Join(0)), tail, watchers);
    ThenJoins(Change(Coordinator), joins, watchers);
    ThenJoins(Guard(WatcherActivity, Signal), rest, watchers);
    SafeWhenSet(rest);
    SignalThen(rest);
  }

  lemma SignalThen(rest: Code)
    requires SignalsFirst(rest, true)
    ensures SignalsFirst(Then(Guard(WatcherActivity, Signal), rest), false)
  {
  }

  /** A thread at its start. */
  lemma FreshStack(c: Code, s: System, i: nat)
    requires i < |s.threads| && s.threads[i] == [Do(c)] && Ordered(c, -1) && SignalsFirst(c, s.signaled)
    requires forall t :: t in Targets(c) ==> t < |s.threads| && StackTargets(s.threads[t]) == {}
    ensures ThreadOk(s, i) && forall l :: !Holds(s.threads[i], l)
  {
  }

  lemma EngineInv(watchers: nat, callbacks: nat, shutdowns: nat)
    ensures Inv(Engine(watchers, callbacks, shutdowns))
  {
    ThreadsAreSimple();
    ShutdownIsOrdered(watchers);
    hide Worker, Watcher, Callbacks, Shutdown, ThreadOk, Holds, Ordered, SignalsFirst, Targets;
    var s := Engine(watchers, callbacks, shutdowns);
    assert forall t :: 0 <= t <= watchers ==> StackTargets(s.threads[t]) == {};
    forall i | 0 <= i < |s.threads| ensures ThreadOk(s, i) && forall l :: !Holds(s.threads[i], l) {
      FreshStack(s.threads[i][0].code, s, i);
    }
  }

  /**
   The engine with any number of watchers, callback threads and callers of `shutdown` never
   deadlocks: a thread that has not finished is in an unsignaled wait without any lock, or is a
   short chain of hand-overs away from one that can run.
   */
  lemma EngineNeverDeadlocks(watchers: nat, callbacks: nat, shutdowns: nat, moves: seq<Move>, t: System, i: nat)
    requires Run(Engine(watchers, callbacks, shutdowns), moves, t) && i < |t.threads| && t.threads[i] != []
    ensures (AtAwait(t.threads[i]) && !t.signaled && forall l :: !Holds(t.threads[i], l)) ||
            exists path :: LeadsToRunner(t, i, path) && |path| <= 6
  {
    EngineInv(watchers, callbacks, shutdowns);
    NoDeadlock(Engine(watchers, callbacks, shutdowns), moves, t, i);
  }

  // ---------------------------------------------------------------- what the locks protect

  /** All stripes count as one. */
  function Kind(l: Lock): Lock {
    if l.MutationStripe? then MutationStripe(0) else l
  }

  /**
   Run with guards of the kinds `held`, the code touches data only under its lock, changes the tracked map only under
   `watcher_activity` and a stripe as well, and sets the shutdown event only under `watcher_activity`.
   */
  predicate Covered(c: Code, held: set<Lock>) {
    match c
    case Then(a, b) => Covered(a, held) && Covered(b, held)
    case Either(a, b) => Covered(a, held) && Covered(b, held)
    case Repeat(b) => Covered(b, held)
    case Guard(l, b) => Covered(b, held + {Kind(l)})
    case GuardStripe(b) => Covered(b, held + {MutationStripe(0)})
    case Touch(l, write) => Kind(l) in held && (l.Applied? && write ==> {WatcherActivity, MutationStripe(0)} <= held)
    case Signal => WatcherActivity in held
    case _ => true
  }

  function HeldKinds(stack: Stack): set<Lock> {
    if stack == [] then {}
    else HeldKinds(stack[1..]) + if stack[0].Unlock? then {Kind(stack[0].lock)} else {}
  }

  predicate StackCovered(stack: Stack) {
    stack == [] || (StackCovered(stack[1..]) && (stack[0].Do? ==> Covered(stack[0].code, HeldKinds(stack[1..]))))
  }

  lemma NextCovered(stack: Stack, choice: nat)
    requires stack != [] && StackCovered(stack)
    ensures StackCovered(Next(stack, choice))
  {
    var rest := stack[1..];
    var next := Next(stack, choice);
    match stack[0]
    case Do(Then(a, b)) =>
      assert next[1..] == [Do(b)] + rest && next[1..][1..] == rest;
      assert HeldKinds(next[1..]) == HeldKinds(rest) && StackCovered(next[1..]);
    case Do(Repeat(b)) =>
      if choice != 0 { assert next[1..] == stack && HeldKinds(stack) == HeldKinds(rest); }
    case Do(Guard(l, b)) =>
      assert next[1..] == [Unlock(l)] + rest && next[1..][1..] == rest;
      assert HeldKinds(next[1..]) == HeldKinds(rest) + {Kind(l)} && StackCovered(next[1..]);
    case Do(Either(_, _)) => assert next[1..] == rest;
    case Do(GuardStripe(_)) => assert next[1..] == rest;
    case _ =>
  }

  lemma {:induction false} RunKeepsCovered(s: System, moves: seq<Move>, t: System)
    requires Run(s, moves, t) && forall i :: 0 <= i < |s.threads| ==> StackCovered(s.threads[i])
    ensures forall i :: 0 <= i < |t.threads| ==> StackCovered(t.threads[i])
    decreases |moves|
  {
    if moves == [] {
    } else {
      hide StackCovered, Next;
      NextCovered(s.threads[moves[0].thread], moves[0].choice);
      RunKeepsCovered(Step(s, moves[0].thread, moves[0].choice), moves[1..], t);
    }
  }

  lemma {:induction false} KindIsHeld(stack: Stack, l: Lock)
    requires Kind(l) in HeldKinds(stack)
    ensures exists held :: Kind(held) == Kind(l) && Holds(stack, held)
  {
    if stack[0].Unlock? && Kind(stack[0].lock) == Kind(l) {
      assert Holds(stack, stack[0].lock);
    } else {
      KindIsHeld(stack[1..], l);
      var held :| Kind(held) == Kind(l) && Holds(stack[1..], held);
      assert Holds(stack, held);
    }
  }

  lemma {:induction false} CoveredByMore(c: Code, held: set<Lock>, more: set<Lock>)
    requires Covered(c, held) && held <= more
    ensures Covered(c, more)
  {
    match c
    case Then(a, b) => CoveredByMore(a, held, more); CoveredByMore(b, held, more);
    case Either(a, b) => CoveredByMore(a, held, more); CoveredByMore(b, held, more);
    case Repeat(b) => CoveredByMore(b, held, more);
    case Guard(l, b) => CoveredByMore(b, held + {Kind(l)}, more + {Kind(l)});
    case GuardStripe(b) => CoveredByMore(b, held + {MutationStripe(0)}, more + {MutationStripe(0)});
    case _ =>
  }

  /** How covered code is put together. */
  lemma Coverage()
    ensures forall held :: Covered(Skip, held) && Covered(Await, held)
    ensures forall a, b, held :: Covered(a, held) && Covered(b, held) ==> Covered(Then(a, b), held)
    ensures forall a, b, held :: Covered(a, held) && Covered(b, held) ==> Covered(Either(a, b), held)
    ensures forall b, held :: Covered(b, held) ==> Covered(Repeat(b), held)
    ensures forall l, b, held :: Covered(b, held + {Kind(l)}) ==> Covered(Guard(l, b), held)
    ensures forall b, held :: Covered(b, held + {MutationStripe(0)}) ==> Covered(GuardStripe(b), held)
    ensures forall l, write, held ::
              Kind(l) in held && !(l.Applied? && write) ==> Covered(Touch(l, write), held)
    ensures forall held ::
              Applied in held && WatcherActivity in held && MutationStripe(0) in held ==>
                Covered(Touch(Applied, true), held)
    ensures forall held :: WatcherActivity in held ==> Covered(Signal, held)
  {
  }

  /** Changes of the map, under `watcher_activity` and a stripe. */
  lemma ChangesAreCovered(held: set<Lock>)
    requires WatcherActivity in held && MutationStripe(0) in held
    ensures Covered(Change(Applied), held) && Covered(RemoveKeyLocked(), held)
  {
    hide Covered;
    Coverage();
    var inside := held + {Kind(Applied)};
    assert Covered(Touch(Applied, true), inside);
    assert Covered(Park(), inside);
  }

  lemma CoordinatorIsCovered(held: set<Lock>)
    ensures Covered(NotifyReconciler(), held) && Covered(ArmReconciler(), held) && Covered(Change(Watchers), held)
  {
    hide Covered;
    Coverage();
  }

  lemma RemovalIsCovered(held: set<Lock>)
    requires WatcherActivity in held
    ensures Covered(RemoveKey(), held)
  {
    hide Covered, RemoveKeyLocked;
    Coverage();
    ChangesAreCovered(held + {MutationStripe(0)});
  }

  lemma ApplicationIsCovered(held: set<Lock>)
    requires WatcherActivity in held
    ensures Covered(ApplyToPidInner(), held)
  {
    hide Covered, RemoveKeyLocked, Change;
    Coverage();
    var inside := held + {MutationStripe(0)};
    ChangesAreCovered(inside);
    CoordinatorIsCovered(inside);
    assert Covered(ApplyOrUpdateRule(), inside);
    assert Covered(Either(Then(ApplyOrUpdateRule(), Sometimes(RemoveKeyLocked())), RemoveKeyLocked()), inside);
  }

  lemma PassIsCovered(held: set<Lock>)
    requires WatcherActivity in held
    ensures Covered(ReconcileProcessesActive(), held) && Covered(ReconcileTrackedProcesses(), held)
  {
    hide Covered, ApplyToPidInner, RemoveKey, Change;
    Coverage();
    RemovalIsCovered(held);
    ApplicationIsCovered(held);
    ChangesAreCovered(held + {MutationStripe(0)});
    assert Covered(ReconcileProcessesActive(), held);
    assert Covered(ReconcileTrackedProcess(), held);
  }

  lemma ThreadsAreCovered()
    ensures Covered(Callbacks(), {}) && Covered(Watcher(), {}) && Covered(Worker(), {})
  {
    hide Covered, ApplyToPidInner, RemoveKey, ReconcileProcessesActive, ReconcileTrackedProcesses;
    Coverage();
    var held := {} + {Kind(WatcherActivity)};
    RemovalIsCovered(held);
    ApplicationIsCovered(held);
    PassIsCovered(held);
    CoordinatorIsCovered({});
    assert Covered(Entry(ReconcileTrackedProcesses()), {});
    assert Covered(WorkerTurn(), {});
  }

  lemma ShutdownIsCovered(watchers: nat)
    ensures Covered(Shutdown(watchers), {})
  {
    JoinsAreCovered(watchers);
    assert Covered(Sometimes(Join(0)), {});
    hide Covered, JoinWatchers, Sometimes;
    Coverage();
  }

  lemma {:induction false} JoinsAreCovered(count: nat)
    ensures Covered(JoinWatchers(count), {})
  {
    if count == 0 {
    } else {
      JoinsAreCovered(count - 1);
    }
  }

  lemma EngineIsCovered(watchers: nat, callbacks: nat, shutdowns: nat, i: nat)
    requires i < |Engine(watchers, callbacks, shutdowns).threads|
    ensures StackCovered(Engine(watchers, callbacks, shutdowns).threads[i])
  {
    ThreadsAreCovered();
    ShutdownIsCovered(watchers);
    hide Worker, Watcher, Callbacks, Shutdown, Covered;
    FreshIsCovered(Engine(watchers, callbacks, shutdowns).threads[i][0].code);
  }

  lemma FreshIsCovered(c: Code)
    requires Covered(c, {})
    ensures StackCovered([Do(c)])
  {
    assert [Do(c)][1..] == [];
  }

  /**
   In every run of the engine, whoever touches protected data holds its lock, so no two threads ever touch the same
   data at once.  Whoever changes the tracked map holds `watcher_activity` and a stripe too, and whoever sets the
   shutdown event holds `watcher_activity`: no mutation is under way when shutdown begins.
   */
  lemma DataIsGuarded(watchers: nat, callbacks: nat, shutdowns: nat, moves: seq<Move>, t: System, i: nat)
    requires Run(Engine(watchers, callbacks, shutdowns), moves, t) && i < |t.threads| && t.threads[i] != []
    ensures forall l, write :: t.threads[i][0] == Do(Touch(l, write)) && !l.MutationStripe? ==> Holds(t.threads[i], l)
    ensures t.threads[i][0] == Do(Touch(Applied, true)) ==>
              Holds(t.threads[i], WatcherActivity) && exists k :: Holds(t.threads[i], MutationStripe(k))
    ensures t.threads[i][0] == Do(Signal) ==> Holds(t.threads[i], WatcherActivity)
  {
    var s := Engine(watchers, callbacks, shutdowns);
    forall j | 0 <= j < |s.threads| ensures StackCovered(s.threads[j]) {
      EngineIsCovered(watchers, callbacks, shutdowns, j);
    }
    RunKeepsCovered(s, moves, t);
    hide Engine, Run;
    CoveredIsHeld(t.threads[i]);
  }

  lemma CoveredIsHeld(stack: Stack)
    requires StackCovered(stack) && stack != []
    ensures forall l, write :: stack[0] == Do(Touch(l, write)) && !l.MutationStripe? ==> Holds(stack, l)
    ensures stack[0] == Do(Touch(Applied, true)) ==>
              Holds(stack, WatcherActivity) && exists k :: Holds(stack, MutationStripe(k))
    ensures stack[0] == Do(Signal) ==> Holds(stack, WatcherActivity)
  {
    var rest := stack[1..];
    assert forall l :: Holds(rest, l) ==> Holds(stack, l);
    hide Holds;
    if stack[0].Do? && stack[0].code.Touch? && !stack[0].code.lock.MutationStripe? {
      KindIsHeld(rest, stack[0].code.lock);
    }
    if stack[0] == Do(Touch(Applied, true)) {
      KindIsHeld(rest, WatcherActivity);
      KindIsHeld(rest, MutationStripe(0));
      var stripe :| Kind(stripe) == MutationStripe(0) && Holds(rest, stripe);
      assert Holds(stack, MutationStripe(stripe.index));
    }
    if stack[0] == Do(Signal) { KindIsHeld(rest, WatcherActivity); }
  }

  predicate AtData(stack: Stack, l: Lock) {
    stack != [] && (stack[0] == Do(Touch(l, true)) || stack[0] == Do(Touch(l, false)))
  }

  predicate AtMutation(stack: Stack) {
    stack != [] && stack[0] == Do(Touch(Applied, true))
  }

  predicate AtSignal(stack: Stack) {
    stack != [] && stack[0] == Do(Signal)
  }

  /** Two threads about to touch the same data, or to change the map and to begin shutdown, are one. */
  lemma NoDataRaces(watchers: nat, callbacks: nat, shutdowns: nat, moves: seq<Move>, t: System, i: nat, j: nat, l: Lock)
    requires Run(Engine(watchers, callbacks, shutdowns), moves, t) && i < |t.threads| && j < |t.threads|
    requires !l.MutationStripe?
    ensures AtData(t.threads[i], l) && AtData(t.threads[j], l) ==> i == j
    ensures AtMutation(t.threads[i]) && AtSignal(t.threads[j]) ==> i == j
  {
    EngineInv(watchers, callbacks, shutdowns);
    var s := Engine(watchers, callbacks, shutdowns);
    hide Engine, Inv, Run, Holds;
    if t.threads[i] != [] && t.threads[j] != [] {
      DataIsGuarded(watchers, callbacks, shutdowns, moves, t, i);
      DataIsGuarded(watchers, callbacks, shutdowns, moves, t, j);
      if AtData(t.threads[i], l) && AtData(t.threads[j], l) { GuardsAreExclusive(s, moves, t, i, j, l); }
      if AtMutation(t.threads[i]) && AtSignal(t.threads[j]) { GuardsAreExclusive(s, moves, t, i, j, WatcherActivity); }
    }
  }
}
