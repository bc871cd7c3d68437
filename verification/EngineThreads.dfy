/**
 The threads of the engine on the engine itself: the worker loop of src/engine.rs, interleaved with
 whatever callbacks, watchers, timer expiries, shutdown requests and other programs do between its calls.
 */
module EngineThreads {
  import opened Outcomes
  import opened ProcessPolicy
  import opened Reconciler
  import opened ReconcilerSafety
  import opened ReconcilerProgress
  import opened ReconcilerHealth
  import opened EngineEffects
  import opened PassEffects
  import opened RunEffects
  import opened CalmTurns
  import opened RuleEngine
  import Topology

  // ---------------------------------------------------------------- what goes well

  /** No call the reconciler relies on fails in the event, and it does not disable it. */
  predicate EventGoesWell(event: Event) {
    match event
    case ProcessStarted(_, _, _, answers) => answers.eventOk
    case FullReconciliation(_, enumeration, _) => AllAnnounced(enumeration)
    case ShutdownDisables(_) => false
    case _ => true
  }

  predicate EventsGoWell(events: seq<Event>) {
    forall i :: 0 <= i < |events| ==> EventGoesWell(events[i])
  }

  predicate TurnGoesWell(turn: Turn) {
    && EventsGoWell(turn.asleep) && EventsGoWell(turn.awake)
    && EventsGoWell(turn.beforePass) && EventsGoWell(turn.afterPass)
    && !turn.waitFails && turn.armOk && turn.snapshotOk && AllAnnounced(turn.enumeration)
  }

  // ---------------------------------------------------------------- events

  /** One event; an expiry needs an active timer, the second part of a shutdown the first. */
  method HandleEvent(engine: RuleEngine, event: Event, self: nat, ghost start: State, ghost past: seq<Action>)
    returns (ghost trace: seq<Action>)
    requires engine.holder.Free? && Run(start, past, engine.View())
    requires EventOk(event, engine.os.processes.Keys) && Sound(engine.applied, engine.topology)
    modifies engine`applied, engine`phase, engine`timer, engine`insertionEvent, engine`history, engine`holder,
             engine`shuttingDown, engine`shutdownEvent, engine.os
    ensures past <= trace && Run(start, trace, engine.View()) && engine.holder.Free?
    ensures EventGoesWell(event) ==> Smooth(past, trace)
    ensures Sound(engine.applied, engine.topology) && engine.os.processes.Keys == old(engine.os.processes.Keys)
    ensures EventEffect(event, old(engine.Here()), engine.Here(), self, engine.topology)
    ensures event.TimerExpires? ==> engine.View() == AfterExpiry(old(engine.View())) && Continues(past, trace)
    ensures event.ShutdownBegins? ==> engine.shutdownEvent
    ensures event.ShutdownDisables? && engine.shuttingDown ==> engine.phase.Disabled?
  {
    hide Run, Step, Sound, AnswersOk, SightingsOk, Application, Reconciled;
    trace := past;
    match event
    case ProcessStarted(processId, expected, profile, answers) =>
      var key;
      key, trace := engine.ApplyToPid(processId, self, expected, profile, answers, start, trace);
    case ProcessStopped(key, cancelOk) =>
      trace := engine.RemoveProcessKey(key, cancelOk, start, trace);
    case FullReconciliation(snapshotOk, enumeration, cancelOk) =>
      var ok;
      ok, trace := engine.ReconcileProcesses(snapshotOk, enumeration, self, cancelOk, start, trace);
    case OtherProgram(key, state) =>
      engine.os.processes := engine.os.processes[key := state];
    case TimerExpires =>
      if engine.timer.Active? {
        trace := Extend(start, trace, engine.View(), Expire);
        ExpireTimer(engine);
      }
    case ShutdownBegins =>
      trace := engine.SetShuttingDown(start, trace);
    case ShutdownDisables(cancelOk) =>
      if engine.shuttingDown {
        trace := engine.DisableForShutdown(cancelOk, start, trace);
      }
  }

  method ExpireTimer(engine: RuleEngine)
    requires engine.timer.Active?
    modifies engine`timer, engine`history
    ensures engine.View() == Step(old(engine.View()), Expire)
  {
    engine.timer := Timer.Signaled;
    if engine.history.arming.Pending? {
      engine.history := engine.history.(arming := Arming.Expired);
    }
  }

  method HandleEvents(engine: RuleEngine, events: seq<Event>, self: nat, ghost start: State, ghost past: seq<Action>)
    returns (ghost trace: seq<Action>)
    requires engine.holder.Free? && Run(start, past, engine.View())
    requires EventsOk(events, engine.os.processes.Keys) && Sound(engine.applied, engine.topology)
    modifies engine`applied, engine`phase, engine`timer, engine`insertionEvent, engine`history, engine`holder,
             engine`shuttingDown, engine`shutdownEvent, engine.os
    ensures past <= trace && Run(start, trace, engine.View()) && engine.holder.Free?
    ensures EventsGoWell(events) ==> Smooth(past, trace)
    ensures Sound(engine.applied, engine.topology) && engine.os.processes.Keys == old(engine.os.processes.Keys)
    ensures EventsEffect(events, old(engine.Here()), engine.Here(), self, engine.topology)
    ensures events == [] ==> engine.View() == old(engine.View()) && trace == past
    ensures events == [TimerExpires] ==> engine.View() == AfterExpiry(old(engine.View())) && Continues(past, trace)
  {
    hide Run, Sound, EventOk, EventEffect, EventsEffect, AfterExpiry;
    trace := past;
    ghost var before, view := engine.Here(), engine.View();
    NoEvents(before, self, engine.topology);
    assert events[..0] == [];
    for i := 0 to |events|
      invariant past <= trace && Run(start, trace, engine.View()) && engine.holder.Free?
      invariant EventsGoWell(events) ==> Smooth(past, trace)
      invariant Sound(engine.applied, engine.topology) && engine.os.processes.Keys == before.os.processes.Keys
      invariant EventsEffect(events[..i], before, engine.Here(), self, engine.topology)
      invariant i == 0 ==> engine.View() == view && trace == past
      invariant i == 1 && events[0] == TimerExpires ==> engine.View() == AfterExpiry(view) && Continues(past, trace)
    {
      ghost var mid := engine.Here();
      trace := HandleEvent(engine, events[i], self, start, trace);
      OneMoreEvent(events[..i], events[i], before, mid, engine.Here(), self, engine.topology);
      assert events[..i + 1] == events[..i] + [events[i]];
    }
    assert events[..|events|] == events;
  }

  // ---------------------------------------------------------------- the worker

  /** Between the calls of the worker: `trace` leads here from `start`, and nobody is inside the engine. */
  ghost predicate Between(engine: RuleEngine, start: State, trace: seq<Action>, keys: set<ProcessKey>)
    reads engine, engine.os
  {
    && Run(start, trace, engine.View()) && engine.holder.Free?
    && Sound(engine.applied, engine.topology) && engine.os.processes.Keys == keys
  }

  method Interlude(engine: RuleEngine, events: seq<Event>, self: nat, ghost keys: set<ProcessKey>,
                   ghost start: State, ghost past: seq<Action>)
    returns (ghost trace: seq<Action>)
    requires Between(engine, start, past, keys) && EventsOk(events, keys)
    modifies engine`applied, engine`phase, engine`timer, engine`insertionEvent, engine`history, engine`holder,
             engine`shuttingDown, engine`shutdownEvent, engine.os
    ensures past <= trace && Between(engine, start, trace, keys)
    ensures EventsGoWell(events) ==> Smooth(past, trace)
    ensures EventsEffect(events, old(engine.Here()), engine.Here(), self, engine.topology)
    ensures events == [] ==> engine.View() == old(engine.View()) && trace == past
    ensures events == [TimerExpires] ==> engine.View() == AfterExpiry(old(engine.View())) && Continues(past, trace)
  {
    hide Run, Sound, EventsOk, EventsEffect, AfterExpiry;
    trace := HandleEvents(engine, events, self, start, past);
  }

  method ArmTurn(engine: RuleEngine, armOk: bool, cancelOk: bool, ghost keys: set<ProcessKey>,
                 ghost start: State, ghost past: seq<Action>)
    returns (keepRunning: bool, ghost trace: seq<Action>)
    requires engine.worker.WokeInsertion? || engine.worker.Rearming?
    requires Between(engine, start, past, keys)
    modifies engine`phase, engine`timer, engine`worker, engine`history
    ensures Continues(past, trace) && Between(engine, start, trace, keys)
    ensures armOk ==> Smooth(past, trace)
    ensures engine.View() == Step(old(engine.View()), Arm(armOk, cancelOk))
    ensures engine.worker == if keepRunning then Waiting else Exited
  {
    hide Run, Sound;
    trace := Extend(start, past, engine.View(), Arm(armOk, cancelOk));
    ghost var before := engine.phase;
    keepRunning := engine.ArmReconcilerIfPending(armOk, cancelOk);
    engine.worker := if keepRunning then Waiting else Exited;
    engine.history := if engine.phase.TimerArmed? && !before.TimerArmed? then engine.history.(arming := Arming.Pending)
                      else AfterCancel(engine.history, before, engine.phase);
  }

  /** `disable_reconciler` and the end of the thread, after a failed wait or pass. */
  method DisableTurn(engine: RuleEngine, cancelOk: bool, ghost keys: set<ProcessKey>,
                     ghost start: State, ghost past: seq<Action>)
    returns (ghost trace: seq<Action>)
    requires engine.worker.Waiting? || engine.worker.Failing?
    requires Between(engine, start, past, keys)
    modifies engine`phase, engine`timer, engine`worker, engine`history
    ensures trace == past + [if old(engine.worker).Waiting? then WaitFails(cancelOk) else GiveUp(cancelOk)]
    ensures Between(engine, start, trace, keys)
    ensures engine.worker.Exited? && engine.phase.Disabled?
  {
    hide Run, Sound;
    trace := Extend(start, past, engine.View(),
                    if engine.worker.Waiting? then WaitFails(cancelOk) else GiveUp(cancelOk));
    ghost var before := engine.phase;
    engine.DisableReconciler(cancelOk);
    engine.worker := Exited;
    engine.history := AfterCancel(engine.history, before, engine.phase);
  }

  datatype Signaled = ShutdownEvent | InsertionEvent | DueTimer

  /** The wait: the lowest signaled index wins, and its signal is consumed unless it is the shutdown event. */
  method ConsumeWait(engine: RuleEngine, ghost keys: set<ProcessKey>, ghost start: State, ghost past: seq<Action>)
    returns (signaled: Signaled, ghost trace: seq<Action>)
    requires Between(engine, start, past, keys) && Enabled(engine.View(), WaitReturns)
    modifies engine`insertionEvent, engine`timer, engine`worker
    ensures trace == past + [WaitReturns] && Between(engine, start, trace, keys)
    ensures engine.View() == Step(old(engine.View()), WaitReturns)
    ensures signaled == if old(engine.shutdownEvent) then ShutdownEvent
                        else if old(engine.insertionEvent) then InsertionEvent else DueTimer
    ensures engine.insertionEvent == (old(engine.insertionEvent) && !signaled.InsertionEvent?)
    ensures engine.timer == if signaled.DueTimer? then Inactive else old(engine.timer)
    ensures engine.worker ==
            if signaled.ShutdownEvent? then Exited else if signaled.InsertionEvent? then WokeInsertion else WokeTimer
  {
    hide Run, Sound;
    trace := Extend(start, past, engine.View(), WaitReturns);
    if engine.shutdownEvent {
      engine.worker := Exited;
      return ShutdownEvent, trace;
    } else if engine.insertionEvent {
      engine.insertionEvent, engine.worker := false, WokeInsertion;
      return InsertionEvent, trace;
    } else {
      engine.timer, engine.worker := Inactive, WokeTimer;
      return DueTimer, trace;
    }
  }

  method BeginTurn(engine: RuleEngine, ghost keys: set<ProcessKey>, ghost start: State, ghost past: seq<Action>)
    returns (begun: bool, ghost trace: seq<Action>)
    requires engine.worker.WokeTimer? && Between(engine, start, past, keys)
    modifies engine`phase, engine`worker, engine`history
    ensures Continues(past, trace) && Between(engine, start, trace, keys)
    ensures Smooth(past, trace)
    ensures engine.View() == Step(old(engine.View()), BeginPass)
    ensures begun == old(engine.phase).TimerArmed?
    ensures engine.worker == if begun then WantsActivity else Waiting
  {
    hide Run, Sound;
    trace := Extend(start, past, engine.View(), BeginPass);
    begun := engine.BeginReconciliationPass();
    engine.worker := if begun then WantsActivity else Waiting;
    engine.history := if begun then engine.history.(arming := Used) else engine.history;
  }

  /** `watcher_activity` is taken, and the pass is run under it. */
  method PassTurn(engine: RuleEngine, turn: Turn, self: nat, ghost keys: set<ProcessKey>,
                  ghost start: State, ghost past: seq<Action>)
    returns (ok: bool, ghost trace: seq<Action>)
    requires engine.worker.WantsActivity? && Between(engine, start, past, keys) && TurnOk(turn, keys)
    modifies engine, engine.os
    ensures Continues(past, trace) && Between(engine, start, trace, keys)
    ensures ok && AllAnnounced(turn.enumeration) ==> Smooth(past, trace)
    ensures turn.snapshotOk ==> ok
    ensures engine.worker == if ok then Rearming else Failing
    ensures PassEffect(turn, old(engine.Here()), engine.Here(), self, engine.topology)
  {
    hide Run, Sound, EventsOk, ChecksOk, SightingsOk, PassRun;
    trace := Extend(start, past, engine.View(), TakeActivity);
    engine.holder, engine.worker := Pass(Starting), InPass;
    assert engine.View() == Step(old(engine.View()), TakeActivity);
    hide Step;
    ok, trace := engine.RunPass(turn.checks, turn.snapshotOk, turn.enumeration, self, turn.cancelOk, start, trace);
  }

  /** The branch for an expired timer: a pass, if the batch is still armed. */
  method TimerTurn(engine: RuleEngine, turn: Turn, self: nat, ghost keys: set<ProcessKey>,
                   ghost start: State, ghost past: seq<Action>)
    returns (keepRunning: bool, ghost trace: seq<Action>)
    requires engine.worker.WokeTimer? && Between(engine, start, past, keys) && TurnOk(turn, keys)
    modifies engine, engine.os
    ensures past <= trace && Between(engine, start, trace, keys)
    ensures TurnGoesWell(turn) ==> Smooth(past, trace)
    ensures engine.worker == if keepRunning then Waiting else Exited
    ensures if old(engine.phase).TimerArmed? then
              TimerEffect(turn, old(engine.Here()), engine.Here(), self, engine.topology)
            else keepRunning && engine.Here() == old(engine.Here())
    ensures turn.beforePass == [] && turn.afterPass == [] ==> Continues(past, trace)
  {
    hide Between, EventsOk, EventsEffect, ChecksOk, SightingsOk, PassEffect, Step, AfterExpiry;
    var begun;
    begun, trace := BeginTurn(engine, keys, start, past);
    if !begun {
      return true, trace;
    }
    trace := Interlude(engine, turn.beforePass, self, keys, start, trace);
    var ok;
    ok, trace := PassTurn(engine, turn, self, keys, start, trace);
    trace := Interlude(engine, turn.afterPass, self, keys, start, trace);
    if ok {
      keepRunning, trace := ArmTurn(engine, turn.armOk, turn.cancelOk, keys, start, trace);
    } else {
      keepRunning := false;
      trace := DisableTurn(engine, turn.cancelOk, keys, start, trace);
    }
  }

  /** What the worker does once the wait has returned. */
  method AwakeTurn(engine: RuleEngine, turn: Turn, signaled: Signaled, self: nat, ghost keys: set<ProcessKey>,
                   ghost start: State, ghost past: seq<Action>)
    returns (keepRunning: bool, ghost trace: seq<Action>)
    requires Between(engine, start, past, keys) && TurnOk(turn, keys) && !signaled.ShutdownEvent?
    requires engine.worker == if signaled.InsertionEvent? then WokeInsertion else WokeTimer
    modifies engine, engine.os
    ensures past <= trace && Between(engine, start, trace, keys)
    ensures TurnGoesWell(turn) ==> Smooth(past, trace)
    ensures engine.worker == if keepRunning then Waiting else Exited
    ensures AwakeEffect(turn, old(engine.Here()), engine.Here(), self, engine.topology)
    ensures Calm(turn) ==> Continues(past, trace)
  {
    hide Between, EventsOk, EventsEffect, TimerEffect, ChecksOk, SightingsOk, Step, AfterExpiry;
    trace := Interlude(engine, turn.awake, self, keys, start, past);
    if signaled.InsertionEvent? {
      keepRunning, trace := ArmTurn(engine, turn.armOk, turn.cancelOk, keys, start, trace);
    } else {
      keepRunning, trace := TimerTurn(engine, turn, self, keys, start, trace);
    }
  }

  /** The wait of the loop, and what follows it. */
  method WaitTurn(engine: RuleEngine, turn: Turn, self: nat, ghost keys: set<ProcessKey>,
                  ghost start: State, ghost past: seq<Action>)
    returns (keepRunning: bool, ghost trace: seq<Action>)
    requires engine.worker.Waiting? && Between(engine, start, past, keys) && TurnOk(turn, keys)
    modifies engine, engine.os
    ensures past <= trace && Between(engine, start, trace, keys)
    ensures TurnGoesWell(turn) ==> Smooth(past, trace)
    ensures TakesWait(turn, past, old(engine.View()), trace, engine.View(), keepRunning)
    ensures engine.worker == if keepRunning then Waiting else Exited
    ensures engine.Here() == old(engine.Here()) ||
            AwakeEffect(turn, old(engine.Here()), engine.Here(), self, engine.topology)
    ensures Calm(turn) ==> Continues(past, trace)
  {
    hide EventsOk, EventsEffect, AwakeEffect, ChecksOk, SightingsOk, Step, Run, Sound;
    if turn.waitFails {
      keepRunning := false;
      trace := DisableTurn(engine, turn.cancelOk, keys, start, past);
      return;
    }
    if !engine.shutdownEvent && !engine.insertionEvent && !engine.timer.Signaled? {
      return true, past;  // nothing is signaled yet: the wait goes on
    }
    var signaled;
    signaled, trace := ConsumeWait(engine, keys, start, past);
    if signaled.ShutdownEvent? {
      return false, trace;
    }
    ghost var returned := trace;
    keepRunning, trace := AwakeTurn(engine, turn, signaled, self, keys, start, trace);
    assert returned <= trace;
  }

  /** One turn of the loop; `woke` is the run up to the wait and `atWait` the state there. */
  method WorkerTurn(engine: RuleEngine, turn: Turn, self: nat, ghost keys: set<ProcessKey>,
                    ghost start: State, ghost past: seq<Action>)
    returns (keepRunning: bool, ghost trace: seq<Action>, ghost woke: seq<Action>, ghost atWait: State)
    requires engine.worker.Waiting? && Between(engine, start, past, keys) && TurnOk(turn, keys)
    modifies engine, engine.os
    ensures Between(engine, start, trace, keys) && past <= woke <= trace && Run(start, woke, atWait)
    ensures TurnGoesWell(turn) ==> Smooth(past, trace)
    ensures TakesWait(turn, woke, atWait, trace, engine.View(), keepRunning)
    ensures engine.worker == if keepRunning then Waiting else Exited
    ensures TurnEffect(turn, old(engine.Here()), engine.Here(), self, engine.topology)
    ensures Calm(turn) ==> Continues(past, trace) && atWait == AfterExpiry(old(engine.View()))
  {
    hide EventsOk, EventsEffect, AwakeEffect, ChecksOk, SightingsOk, TakesWait, Run, Sound, AfterExpiry, Continues;
    woke := Interlude(engine, turn.asleep, self, keys, start, past);
    atWait := engine.View();
    ghost var woken := engine.Here();
    keepRunning, trace := WaitTurn(engine, turn, self, keys, start, woke);
    assert engine.Here() == woken || AwakeEffect(turn, woken, engine.Here(), self, engine.topology);
    if Calm(turn) { ContinuesOn(past, woke, trace); }
  }

  predicate AllCalm(turns: seq<Turn>) {
    forall i :: 0 <= i < |turns| ==> Calm(turns[i])
  }

  /** Nothing has failed up to here, and nothing fails in these turns. */
  predicate AllGoWell(past: seq<Action>, turns: seq<Turn>) {
    NoFailures(past) && forall i :: 0 <= i < |turns| ==> TurnGoesWell(turns[i])
  }

  /** The rank a loop starts with, and what is inserted while it runs. */
  ghost function Allowance(entry: State, t: State): int {
    Rank(entry) + INSERTION_WEIGHT * (t.h.insertions - entry.h.insertions)
  }

  /**
   `reconciliation_worker_loop` for any number of turns, whatever the other threads and programs do in
   between; `done` turns are taken before the thread ends.  However far it gets, its effect is that
   of these turns and acts on no instance but by its own events and checks, no wakeup is lost, the
   passes are paid for by insertions, and every entry holds the policy of its rule; if shutdown had
   begun, nothing tracked changes and nothing is written.  And enough calm turns, more only for what
   the passes themselves insert, leave no tracked process pending, unless disabled or shut down.  If nothing
   fails it is not disabled: every tracked process has then had its three checks.
   */
  method ReconciliationWorkerLoop(engine: RuleEngine, turns: seq<Turn>, self: nat, ghost past: seq<Action>)
    returns (ghost trace: seq<Action>, ghost done: nat)
    requires engine.holder.Free? && engine.worker.Waiting? && Run(Init(), past, engine.View())
    requires TurnsOk(turns, engine.os.processes.Keys) && Sound(engine.applied, engine.topology)
    modifies engine, engine.os
    ensures past <= trace && Run(Init(), trace, engine.View()) && Sound(engine.applied, engine.topology)
    ensures done <= |turns| && (done < |turns| ==> engine.worker.Exited?)
    ensures RunEffect(turns[..done], old(engine.Here()), engine.Here(), self, engine.topology)
    ensures SafeRun(turns[..done], old(engine.Here()), engine.Here(), self, engine.topology)
    ensures OnlyKnown(old(engine.Here()), engine.Here(), Known(old(engine.Here()), turns[..done], self),
                      RunMeddled(turns[..done]))
    ensures NoLostWakeup(engine.View())
    ensures engine.worker.Exited? ==> engine.phase.Disabled? || engine.shuttingDown
    ensures engine.history.completed <= MAX_CHECKS * engine.history.insertions
    ensures old(engine.shuttingDown) ==> engine.applied == old(engine.applied)
    ensures old(engine.shuttingDown) ==> |engine.os.writes| == |old(engine.os.writes)|
    ensures AllGoWell(past, turns) ==> !engine.phase.Disabled? && (engine.worker.Exited? ==> engine.shuttingDown)
    ensures AllCalm(turns) && |turns| >= Allowance(old(engine.View()), engine.View()) ==> Finished(engine.View())
    ensures AllCalm(turns) && AllGoWell(past, turns) && |turns| >= Allowance(old(engine.View()), engine.View()) ==>
              engine.shuttingDown || forall k :: k in engine.applied ==> engine.applied[k].checks == 3
  {
    hide Run, Step, Sound, TurnOk, NoLostWakeup, Inv, TurnEffect, RunEffect, Calm, Rank, Finished, Idle, TakesWait;
    hide SafeRun, OnlyKnown, TurnGoesWell, IsFailure;
    ghost var before, entry, keys := engine.Here(), engine.View(), engine.os.processes.Keys;
    InitInv();
    RunKeepsInv(Init(), past, entry);
    NoActions(entry);
    NoTurns(before, self, engine.topology);
    ghost var since := [];
    var keepRunning, i := true, 0;
    assert turns[..0] == [];
    ghost var calm, well := AllCalm(turns), AllGoWell(past, turns);
    while keepRunning && i < |turns|
      invariant 0 <= i <= |turns| && engine.worker == (if keepRunning then Waiting else Exited)
      invariant Between(engine, entry, since, keys) && Inv(engine.View())
      invariant RunEffect(turns[..i], before, engine.Here(), self, engine.topology)
      invariant well ==> NoFailures(since)
      invariant calm && keepRunning ==>
                  Idle(engine.View()) || Rank(engine.View()) + i <= Allowance(entry, engine.View())
      decreases |turns| - i
    {
      ghost var now, mid := engine.View(), engine.Here();
      NoActions(now);
      assert TurnOk(turns[i], keys);
      ghost var piece, woke, atWait;
      keepRunning, piece, woke, atWait := WorkerTurn(engine, turns[i], self, keys, now, []);
      RunAppend(entry, since, now, piece, engine.View());
      RunKeepsInv(now, piece, engine.View());
      OneMoreTurn(turns[..i], turns[i], before, mid, engine.Here(), self, engine.topology);
      assert turns[..i + 1] == turns[..i] + [turns[i]];
      if calm {
        CalmStep(now, woke, piece, engine.View(), turns[i], keepRunning);
      }
      since := since + piece;
      i := i + 1;
    }
    done := i;
    trace := past + since;
    RunAppend(Init(), past, entry, since, engine.View());
    LoopFacts(trace, entry, since, engine.View());
    PrefixOk(turns, done, keys);
    RunIsSafe(turns[..done], before, engine.Here(), self, engine.topology);
    AtTheEnd(engine.View());
    if well { WellAtTheEnd(trace, engine.View()); }
  }

  lemma NoActions(s: State)
    ensures Run(s, [], s)
  {
  }

  lemma NoTurns(before: World, self: nat, topology: seq<Topology.CpuSetEntry>)
    ensures RunEffect([], before, before, self, topology)
  {
  }

  lemma PrefixOk(turns: seq<Turn>, n: nat, keys: set<ProcessKey>)
    requires n <= |turns| && TurnsOk(turns, keys)
    ensures TurnsOk(turns[..n], keys)
  {
    hide TurnOk;
  }

  /** The worker has left only work that is finished, is idle because it is, or has rank left to spend. */
  lemma AtTheEnd(s: State)
    requires Inv(s) && s.holder.Free?
    ensures s.worker.Exited? || Idle(s) ==> Finished(s)
    ensures s.worker.Waiting? ==> Rank(s) >= 1
  {
    if Idle(s) { IdleIsFinished(s); }
    hide SomePending;
  }

  /** Where nothing has failed, finished work means that every tracked process has had its three checks. */
  lemma WellAtTheEnd(trace: seq<Action>, s: State)
    requires Run(Init(), trace, s) && NoFailures(trace)
    ensures !s.c.phase.Disabled? && (s.worker.Exited? ==> s.shuttingDown)
    ensures Finished(s) ==> s.shuttingDown || forall k :: k in s.c.applied ==> s.c.applied[k].checks == 3
  {
    hide Run;
    OnlyFailuresDisable(trace, s);
    InitInv();
    RunKeepsInv(Init(), trace, s);
    PendingIsShort(s.c.applied);
  }

  /** One calm turn uses up rank, or finds the worker idle and leaves it so. */
  lemma CalmStep(s: State, woke: seq<Action>, trace: seq<Action>, t: State, turn: Turn, keepRunning: bool)
    requires Inv(s) && s.worker.Waiting? && s.holder.Free? && Run(s, trace, t) && Continues([], trace)
    requires TakesWait(turn, woke, AfterExpiry(s), trace, t, keepRunning)
    ensures keepRunning && Idle(s) ==> Idle(t)
    ensures Rank(t) < Rank(s) + INSERTION_WEIGHT * (t.h.insertions - s.h.insertions) || (t == s && Idle(s))
  {
    CalmTurnProgress(s, woke, trace, t, turn, keepRunning);
    InsertionsAreCounted(s, trace, t);
    if Idle(s) { IdleStays(s, woke, trace, t, turn, keepRunning); }
  }

  lemma LoopFacts(trace: seq<Action>, entry: State, since: seq<Action>, t: State)
    requires Run(Init(), trace, t) && Run(entry, since, t) && Inv(entry)
    ensures NoLostWakeup(t)
    ensures t.worker.Exited? ==> t.c.phase.Disabled? || t.shuttingDown
    ensures t.h.completed <= MAX_CHECKS * t.h.insertions
    ensures entry.shuttingDown ==> t.c.applied == entry.c.applied && t.h.writes == entry.h.writes
  {
    hide Run;
    NoWakeupIsLost(trace, t);
    PassesAreBounded(trace, t);
    InsertionsAreCounted(Init(), trace, t);
    RunKeepsInv(entry, since, t);
    if entry.shuttingDown { ShutdownIsACleanCut(entry, since, t); }
  }
}
