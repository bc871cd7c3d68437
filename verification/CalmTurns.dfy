/**
 Turns of the worker in which no other thread interferes.  Whatever its checks find, each of them makes
 progress, so that after enough of them no tracked process is left pending.
 */
module CalmTurns {
  import opened Outcomes
  import opened ProcessPolicy
  import opened Reconciler
  import opened ReconcilerSafety
  import opened ReconcilerProgress
  import opened PassEffects
  import opened RunEffects

  // ---------------------------------------------------------------- a batch and its budget

  lemma CheckedOneMore(applied: Applied, done: set<ProcessKey>, k: ProcessKey)
    requires k in applied && k in done
    ensures k in CheckedOnce(applied, done - {k}) && CheckedOnce(applied, done - {k})[k] == applied[k]
    ensures CheckedOnce(applied, done) == CheckedOnce(applied, done - {k})[k := Advanced(applied[k])]
  {
  }

  /** Every check of a pending entry takes one from the budget. */
  lemma {:induction false} ChecksSpendBudget(applied: Applied, done: set<ProcessKey>)
    requires done <= PendingKeys(applied)
    ensures Budget(CheckedOnce(applied, done)) + |done| == Budget(applied)
    decreases |done|
  {
    if done == {} {
      assert CheckedOnce(applied, {}) == applied;
    } else {
      var k :| k in done;
      var rest := CheckedOnce(applied, done - {k});
      ChecksSpendBudget(applied, done - {k});
      CheckedOneMore(applied, done, k);
      BudgetUpdate(rest, k, Advanced(applied[k]));
      BudgetSplit(rest, k);
      assert IsPending(applied[k]) && |done| == |done - {k}| + 1;
    }
  }

  // ---------------------------------------------------------------- calm turns

  /** The timer expires if it is running. */
  function AfterExpiry(s: State): State {
    if s.c.timer.Active? then Step(s, Expire) else s
  }

  /** Before the wait the timer may expire, and no other thread does anything. */
  predicate Calm(turn: Turn) {
    turn.asleep == [TimerExpires] && turn.awake == [] && turn.beforePass == [] && turn.afterPass == []
  }

  /**
   How a turn deals with its wait, where `woke` is the run up to it and `atWait` the state there: a failed wait
   and a returning one are taken at once, and otherwise the wait goes on.
   */
  predicate TakesWait(turn: Turn, woke: seq<Action>, atWait: State, trace: seq<Action>, t: State, keepRunning: bool) {
    if turn.waitFails then trace == woke + [WaitFails(turn.cancelOk)] && !keepRunning
    else if Enabled(atWait, WaitReturns) then woke + [WaitReturns] <= trace
    else trace == woke && t == atWait && keepRunning
  }

  /** Nothing is signaled, and nothing is going to be. */
  predicate Idle(s: State) {
    s.worker.Waiting? && !s.c.timer.Active? && !Enabled(s, WaitReturns)
  }

  lemma IdleIsFinished(s: State)
    requires Inv(s) && s.holder.Free? && Idle(s)
    ensures Finished(s) && AfterExpiry(s) == s
  {
    PromisesMeanWakeup(s);
    hide Inv, SomePending;
  }

  /** An idle worker takes no further step, unless its wait fails. */
  lemma IdleStays(s: State, woke: seq<Action>, trace: seq<Action>, t: State, turn: Turn, keepRunning: bool)
    requires Idle(s) && TakesWait(turn, woke, AfterExpiry(s), trace, t, keepRunning)
    ensures turn.waitFails || t == s
  {
  }

  /**
   Progress of a calm turn: it lowers the rank, except by what its full reconciliation inserts, or the
   worker was idle.
   */
  lemma CalmTurnProgress(s: State, woke: seq<Action>, trace: seq<Action>, t: State, turn: Turn, keepRunning: bool)
    requires Inv(s) && s.worker.Waiting? && s.holder.Free? && Run(s, trace, t) && NoneOfOthers(trace)
    requires TakesWait(turn, woke, AfterExpiry(s), trace, t, keepRunning)
    ensures Rank(t) < Rank(s) + INSERTION_WEIGHT * Insertions(trace) || (t == s && Idle(s))
  {
    WorkerAloneStops(s, trace, t);
    hide Inv, Rank, Run, SomePending;
    if turn.waitFails || Enabled(AfterExpiry(s), WaitReturns) {
      assert IsControl(trace[|woke|]);
      ControlStepCounts(trace, |woke|);
    }
  }
}
