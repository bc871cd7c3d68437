/**
 The stop protocol of the service (src/service.rs): `service_main` against any number of stop
 controls.  Every function that takes the gate mutex is one step; the status-handle store,
 which is outside the gate, is a step of its own.
 */
module StopProtocol {

  datatype Status = StartPending | Running | StopPending | Stopped

  /** What an observer of the service sees, in order. */
  datatype Event =
    | Requested                 // the first stop control
    | Published                 // the stop event became reachable for the handler
    | Signalled                 // SetEvent on the stop event
    | Reported(status: Status)
    | Finished                  // finish_service_stopped took the gate

  /** Next step of `service_main`. */
  datatype Position =
    | Reset | Register | StoreHandle | AnnounceStart | CreateEvent | Publish
    | Initialise | AnnounceRunning | Wait | AnnounceStop | TearDown | Finish | Exited

  datatype State = State(
    requested: bool,
    eventRaw: nat,              // 0 while no stop event is published
    statusHandle: nat,          // 0 while no status can be reported
    eventSet: bool,             // the stop event itself
    main: Position,
    log: seq<Event>)

  const STOP_EVENT: nat := 1
  const STATUS_HANDLE: nat := 1

  function Init(leftover: bool, stale: nat): State {
    State(leftover, stale, 0, false, Reset, [])
  }

  // ---------------------------------------------------------------- the gated functions

  /** `report_service_status` */
  function Report(s: State, status: Status): State {
    if s.statusHandle == 0 then s else s.(log := s.log + [Reported(status)])
  }

  /** `signal_service_stop_event` */
  function Signal(s: State): State {
    s.(eventSet := true, log := s.log + [Signalled])
  }

  /** `request_stop`, as the control handler calls it. */
  function RequestStop(s: State): State {
    if s.requested then s
    else
      var first := s.(requested := true, log := s.log + [Requested]);
      Report(if first.eventRaw != 0 then Signal(first) else first, StopPending)
  }

  /** `publish_stop_event` */
  function PublishStopEvent(s: State): State {
    var published := s.(eventRaw := STOP_EVENT, log := s.log + [Published]);
    if published.requested then Signal(published) else published
  }

  /** `publish_status_if_not_stopping` */
  function ReportUnlessStopping(s: State, status: Status): State {
    if s.requested then s else Report(s, status)
  }

  /** `finish_service_stopped` */
  function FinishStopped(s: State): State {
    var closed := s.(eventRaw := 0, log := s.log + [Finished]);
    Report(closed, Stopped).(statusHandle := 0)
  }

  // ---------------------------------------------------------------- steps

  datatype Action =
    | Control                    // the control handler receives SERVICE_CONTROL_STOP
    | Main(ok: bool)             // service_main moves; `ok` is the outcome of the call it makes, if any

  /** A control needs a registered handler; the wait returns when the event is set or with an error. */
  predicate Enabled(s: State, a: Action) {
    match a
    case Control => !s.main.Reset? && !s.main.Register?
    case Main(ok) => !s.main.Exited? && (s.main.Wait? && ok ==> s.eventSet)
  }

  function Step(s: State, a: Action): State
    requires Enabled(s, a)
  {
    match a
    case Control => RequestStop(s)
    case Main(ok) =>
      match s.main
      case Reset => s.(requested := false, eventRaw := 0, main := Register)
      case Register => s.(main := if ok then StoreHandle else Exited)
      case StoreHandle => s.(statusHandle := STATUS_HANDLE, main := AnnounceStart)
      case AnnounceStart => ReportUnlessStopping(s, StartPending).(main := CreateEvent)
      case CreateEvent => s.(main := if ok then Publish else Finish)
      case Publish => PublishStopEvent(s).(main := if s.requested then Finish else Initialise)
      case Initialise => s.(main := if ok then AnnounceRunning else Finish)
      case AnnounceRunning =>
        ReportUnlessStopping(s, Running).(main := if s.requested then AnnounceStop else Wait)
      case Wait => s.(main := AnnounceStop)
      case AnnounceStop => Report(s, StopPending).(main := TearDown)
      case TearDown => s.(main := Finish)
      case Finish => FinishStopped(s).(main := Exited)
  }

  predicate Run(s: State, actions: seq<Action>, t: State)
    decreases |actions|
  {
    if actions == [] then s == t
    else Enabled(s, actions[0]) && Run(Step(s, actions[0]), actions[1..], t)
  }

  // ---------------------------------------------------------------- what a log says

  function Signals(log: seq<Event>): nat {
    if log == [] then 0
    else Signals(log[..|log| - 1]) + if log[|log| - 1] == Signalled then 1 else 0
  }

  /** A stop was requested before the service finished. */
  predicate RequestedInTime(log: seq<Event>) {
    exists i :: 0 <= i < |log| && log[i] == Requested && Finished !in log[..i]
  }

  function Rank(status: Status): nat {
    match status
    case StartPending => 0
    case Running => 1
    case StopPending => 2
    case Stopped => 3
  }

  predicate NeverBackwards(log: seq<Event>) {
    forall i, j :: 0 <= i < j < |log| && log[i].Reported? && log[j].Reported? ==>
      Rank(log[i].status) <= Rank(log[j].status)
  }

  /** No status above `rank` was reported. */
  predicate AtMost(log: seq<Event>, rank: nat) {
    forall i :: 0 <= i < |log| && log[i].Reported? ==> Rank(log[i].status) <= rank
  }

  predicate NoRunningAfterRequest(log: seq<Event>) {
    forall i, j :: 0 <= i < j < |log| && log[i] == Requested ==> log[j] != Reported(Running)
  }

  predicate NothingAfterFinish(log: seq<Event>) {
    forall i, j :: 0 <= i < j < |log| && log[i] == Finished ==> log[j] == Reported(Stopped) || log[j] == Requested
  }

  // ---------------------------------------------------------------- the invariant

  function Index(main: Position): nat {
    match main
    case Reset => 0
    case Register => 1
    case StoreHandle => 2
    case AnnounceStart => 3
    case CreateEvent => 4
    case Publish => 5
    case Initialise => 6
    case AnnounceRunning => 7
    case Wait => 8
    case AnnounceStop => 9
    case TearDown => 10
    case Finish => 11
    case Exited => 12
  }

  /** The highest status that can have been reported. */
  function Ceiling(s: State): nat {
    if s.main.Exited? then 3
    else if s.requested || Index(s.main) > 8 then 2
    else if s.main.Wait? then 1
    else 0
  }

  predicate FlagsMatchLog(s: State) {
    && (!s.main.Reset? ==> (s.requested <==> Requested in s.log))
    && (s.main.Reset? ==> s.log == [])
    && (Index(s.main) <= 5 ==> Published !in s.log)
    && (6 <= Index(s.main) <= 10 ==> Published in s.log)
    && (!s.main.Reset? ==> (s.eventRaw != 0 <==> Published in s.log && Finished !in s.log))
    && (Finished in s.log ==> s.main.Exited? && s.statusHandle == 0)
    && (s.main.Exited? ==> s.statusHandle == 0 && (Published in s.log ==> Finished in s.log))
    && (Index(s.main) < 3 ==> s.statusHandle == 0)
    && (3 <= Index(s.main) <= 11 ==> s.statusHandle != 0)
    && (Finished in s.log ==> Reported(Stopped) in s.log)
  }

  predicate SignalsMatchLog(s: State) {
    && Signals(s.log) == (if Published in s.log && RequestedInTime(s.log) then 1 else 0)
    && (s.eventSet <==> Signals(s.log) > 0)
  }

  predicate ReportsOrdered(s: State) {
    && NeverBackwards(s.log)
    && AtMost(s.log, Ceiling(s))
    && NoRunningAfterRequest(s.log)
    && NothingAfterFinish(s.log)
  }

  predicate Inv(s: State) {
    FlagsMatchLog(s) && SignalsMatchLog(s) && ReportsOrdered(s)
  }

  lemma InitInv(leftover: bool, stale: nat)
    ensures Inv(Init(leftover, stale))
  {
  }

  // Appending one event.

  lemma AppendSignals(log: seq<Event>, e: Event)
    ensures Signals(log + [e]) == Signals(log) + if e == Signalled then 1 else 0
  {
    assert (log + [e])[..|log|] == log;
  }

  lemma AppendInTime(log: seq<Event>, e: Event)
    ensures RequestedInTime(log + [e]) <==> RequestedInTime(log) || (e == Requested && Finished !in log)
  {
    var longer := log + [e];
    assert forall i :: 0 <= i <= |log| ==> longer[..i] == log[..i];
    assert log[..|log|] == log;
    if RequestedInTime(log) {
      var i :| 0 <= i < |log| && log[i] == Requested && Finished !in log[..i];
      assert longer[i] == Requested && Finished !in longer[..i];
    }
    if e == Requested && Finished !in log {
      assert longer[|log|] == Requested && Finished !in longer[..|log|];
    }
    if RequestedInTime(longer) {
      var i :| 0 <= i < |longer| && longer[i] == Requested && Finished !in longer[..i];
      if i < |log| { assert log[i] == Requested && Finished !in log[..i]; }
    }
  }

  lemma AppendOrdered(log: seq<Event>, e: Event)
    requires NeverBackwards(log) && NoRunningAfterRequest(log) && NothingAfterFinish(log)
    requires e.Reported? ==> AtMost(log, Rank(e.status))
    requires e == Reported(Running) ==> Requested !in log
    requires Finished in log ==> e == Reported(Stopped) || e == Requested
    ensures NeverBackwards(log + [e]) && NoRunningAfterRequest(log + [e]) && NothingAfterFinish(log + [e])
    ensures forall rank :: AtMost(log, rank) && (e.Reported? ==> Rank(e.status) <= rank) ==> AtMost(log + [e], rank)
  {
  }

  lemma RequestedInTimeIsRequested(log: seq<Event>)
    requires RequestedInTime(log)
    ensures Requested in log
  {
  }

  lemma NotFinishedInTime(log: seq<Event>)
    requires Finished !in log
    ensures RequestedInTime(log) <==> Requested in log
  {
    if Requested in log {
      var i :| 0 <= i < |log| && log[i] == Requested;
      assert Finished !in log[..i];
    }
  }

  lemma ReportMembers(s: State, status: Status)
    ensures Report(s, status) == s.(log := Report(s, status).log)
    ensures forall x :: x in Report(s, status).log <==> x in s.log || (s.statusHandle != 0 && x == Reported(status))
  {
  }

  lemma ControlKeepsFlags(s: State)
    requires FlagsMatchLog(s) && Enabled(s, Control)
    ensures FlagsMatchLog(Step(s, Control))
  {
    if !s.requested {
      hide Report;
      var first := s.(requested := true, log := s.log + [Requested]);
      var second := if first.eventRaw != 0 then Signal(first) else first;
      assert forall x :: x in second.log ==> x in s.log || x == Requested || x == Signalled;
      assert Requested in first.log && Requested in second.log;
      ReportMembers(second, StopPending);
    }
  }

  lemma MainKeepsFlags(s: State, ok: bool)
    requires FlagsMatchLog(s) && Enabled(s, Main(ok))
    ensures FlagsMatchLog(Step(s, Main(ok)))
  {
    hide Report;
    match s.main
    case AnnounceStart => ReportMembers(s, StartPending);
    case AnnounceRunning => ReportMembers(s, Running);
    case AnnounceStop => ReportMembers(s, StopPending);
    case Finish => ReportMembers(s.(eventRaw := 0, log := s.log + [Finished]), Stopped);
    case _ =>
  }

  lemma ControlKeepsSignals(s: State)
    requires Inv(s) && Enabled(s, Control)
    ensures SignalsMatchLog(Step(s, Control))
  {
    hide ReportsOrdered, Signals, RequestedInTime;
    if !s.requested {
      var l1 := s.log + [Requested];
      var l2 := if s.eventRaw != 0 then l1 + [Signalled] else l1;
      if RequestedInTime(s.log) { RequestedInTimeIsRequested(s.log); }
      AppendSignals(s.log, Requested);
      AppendInTime(s.log, Requested);
      AppendSignals(l1, Signalled);
      AppendInTime(l1, Signalled);
      AppendSignals(l2, Reported(StopPending));
      AppendInTime(l2, Reported(StopPending));
    }
  }

  lemma ReportKeepsSignals(s: State, status: Status)
    ensures Report(s, status) == s.(log := Report(s, status).log)
    ensures Signals(Report(s, status).log) == Signals(s.log)
    ensures RequestedInTime(Report(s, status).log) == RequestedInTime(s.log)
    ensures Published in Report(s, status).log <==> Published in s.log
  {
    AppendSignals(s.log, Reported(status));
    AppendInTime(s.log, Reported(status));
  }

  lemma MainKeepsSignals(s: State, ok: bool)
    requires Inv(s) && Enabled(s, Main(ok))
    ensures SignalsMatchLog(Step(s, Main(ok)))
  {
    hide ReportsOrdered, Signals, RequestedInTime, Report;
    match s.main
    case AnnounceStart => ReportKeepsSignals(s, StartPending);
    case AnnounceRunning => ReportKeepsSignals(s, Running);
    case AnnounceStop => ReportKeepsSignals(s, StopPending);
    case Publish => PublishKeepsSignals(s);
    case Finish =>
      AppendSignals(s.log, Finished);
      AppendInTime(s.log, Finished);
      ReportKeepsSignals(s.(eventRaw := 0, log := s.log + [Finished]), Stopped);
    case _ =>
  }

  lemma PublishKeepsSignals(s: State)
    requires Inv(s) && s.main.Publish?
    ensures SignalsMatchLog(PublishStopEvent(s))
  {
    hide ReportsOrdered, Signals, RequestedInTime;
    NotFinishedInTime(s.log);
    AppendSignals(s.log, Published);
    AppendInTime(s.log, Published);
    AppendSignals(s.log + [Published], Signalled);
    AppendInTime(s.log + [Published], Signalled);
  }

  lemma ReportKeepsOrder(s: State, status: Status, rank: nat)
    requires NeverBackwards(s.log) && NoRunningAfterRequest(s.log) && NothingAfterFinish(s.log)
    requires AtMost(s.log, Rank(status)) && Rank(status) <= rank
    requires status.Running? ==> Requested !in s.log
    requires Finished in s.log ==> s.statusHandle == 0 || status.Stopped?
    ensures Report(s, status) == s.(log := Report(s, status).log)
    ensures NeverBackwards(Report(s, status).log) && NoRunningAfterRequest(Report(s, status).log)
    ensures NothingAfterFinish(Report(s, status).log) && AtMost(Report(s, status).log, rank)
  {
    if s.statusHandle != 0 { AppendOrdered(s.log, Reported(status)); }
  }

  lemma Monotone(log: seq<Event>, low: nat, high: nat)
    requires AtMost(log, low) && low <= high
    ensures AtMost(log, high)
  {
  }

  lemma ControlKeepsReports(s: State)
    requires Inv(s) && Enabled(s, Control)
    ensures ReportsOrdered(Step(s, Control))
  {
    hide SignalsMatchLog, NeverBackwards, NoRunningAfterRequest, NothingAfterFinish, AtMost, Report;
    if !s.requested {
      AppendOrdered(s.log, Requested);
      var first := s.(requested := true, log := s.log + [Requested]);
      if s.main.Exited? {
        NoHandleNoReport(first, StopPending);
      } else {
        Monotone(s.log, Ceiling(s), 2);
        assert AtMost(first.log, 2);
        if first.eventRaw != 0 {
          AppendOrdered(first.log, Signalled);
          assert AtMost(Signal(first).log, 2);
          ReportKeepsOrder(Signal(first), StopPending, 2);
        } else {
          ReportKeepsOrder(first, StopPending, 2);
        }
      }
    }
  }

  lemma NoHandleNoReport(s: State, status: Status)
    requires s.statusHandle == 0
    ensures Report(s, status) == s
  {
  }

  lemma MainKeepsReports(s: State, ok: bool)
    requires Inv(s) && Enabled(s, Main(ok))
    ensures ReportsOrdered(Step(s, Main(ok)))
  {
    hide SignalsMatchLog, NeverBackwards, NoRunningAfterRequest, NothingAfterFinish, AtMost, Report;
    CeilingRises(s, ok);
    EmptyAtMost(Ceiling(Step(s, Main(ok))));
    if s.log != [] { Monotone(s.log, Ceiling(s), Ceiling(Step(s, Main(ok)))); }
    match s.main
    case AnnounceStart => if !s.requested { ReportKeepsOrder(s, StartPending, 0); }
    case AnnounceRunning => if !s.requested { Monotone(s.log, 0, 1); ReportKeepsOrder(s, Running, 1); }
    case AnnounceStop => ReportKeepsOrder(s, StopPending, 2);
    case Publish =>
      AppendOrdered(s.log, Published);
      AppendOrdered(s.log + [Published], Signalled);
    case Finish =>
      AppendOrdered(s.log, Finished);
      Monotone(s.log, 2, 3);
      ReportKeepsOrder(s.(eventRaw := 0, log := s.log + [Finished]), Stopped, 3);
    case _ =>
  }

  lemma EmptyAtMost(rank: nat)
    ensures AtMost([], rank)
  {
  }

  lemma CeilingRises(s: State, ok: bool)
    requires FlagsMatchLog(s) && Enabled(s, Main(ok))
    ensures Ceiling(s) <= Ceiling(Step(s, Main(ok))) || s.log == []
  {
  }

  lemma StepKeepsInv(s: State, a: Action)
    requires Inv(s) && Enabled(s, a)
    ensures Inv(Step(s, a))
  {
    hide FlagsMatchLog, SignalsMatchLog, ReportsOrdered;
    match a
    case Control =>
      ControlKeepsFlags(s);
      ControlKeepsSignals(s);
      ControlKeepsReports(s);
    case Main(ok) =>
      MainKeepsFlags(s, ok);
      MainKeepsSignals(s, ok);
      MainKeepsReports(s, ok);
  }

  lemma {:induction false} RunKeepsInv(s: State, actions: seq<Action>, t: State)
    requires Inv(s) && Run(s, actions, t)
    ensures Inv(t)
    decreases |actions|
  {
    if actions == [] {
    } else {
      hide Inv, Step;
      StepKeepsInv(s, actions[0]);
      RunKeepsInv(Step(s, actions[0]), actions[1..], t);
    }
  }

  // ---------------------------------------------------------------- whole runs

  /**
   In every interleaving the reported statuses never go backwards, RUNNING is never reported
   after a stop request, and after the finish only STOPPED (by the finish itself) is reported.
   */
  lemma StatusesAreOrdered(leftover: bool, stale: nat, actions: seq<Action>, t: State)
    requires Run(Init(leftover, stale), actions, t)
    ensures NeverBackwards(t.log) && NoRunningAfterRequest(t.log) && NothingAfterFinish(t.log)
  {
    InitInv(leftover, stale);
    RunKeepsInv(Init(leftover, stale), actions, t);
  }

  /**
   The stop event is signalled exactly once when it was published and a stop was requested
   before the finish, and otherwise not at all.
   */
  lemma SignalledExactlyOnce(leftover: bool, stale: nat, actions: seq<Action>, t: State)
    requires Run(Init(leftover, stale), actions, t)
    ensures Signals(t.log) == if Published in t.log && RequestedInTime(t.log) then 1 else 0
  {
    InitInv(leftover, stale);
    RunKeepsInv(Init(leftover, stale), actions, t);
  }

  /** No stop is lost: while service_main waits, a requested stop has set the event it waits for. */
  lemma WaitIsWoken(leftover: bool, stale: nat, actions: seq<Action>, t: State)
    requires Run(Init(leftover, stale), actions, t) && t.main.Wait? && Requested in t.log
    ensures t.eventSet && Enabled(t, Main(true))
  {
    InitInv(leftover, stale);
    RunKeepsInv(Init(leftover, stale), actions, t);
    NotFinishedInTime(t.log);
  }

  /** Once the service has finished, STOPPED has been reported. */
  lemma FinishReportsStopped(leftover: bool, stale: nat, actions: seq<Action>, t: State)
    requires Run(Init(leftover, stale), actions, t) && Finished in t.log
    ensures Reported(Stopped) in t.log && t.main.Exited?
  {
    InitInv(leftover, stale);
    RunKeepsInv(Init(leftover, stale), actions, t);
  }

  // ---------------------------------------------------------------- what is reported

  /** The log only grows. */
  lemma StepKeepsLog(s: State, a: Action)
    requires Enabled(s, a)
    ensures s.log <= Step(s, a).log
  {
  }

  lemma {:induction false} RunKeepsLog(s: State, actions: seq<Action>, t: State)
    requires Run(s, actions, t)
    ensures s.log <= t.log
    decreases |actions|
  {
    if actions == [] {
    } else {
      hide Step;
      StepKeepsLog(s, actions[0]);
      RunKeepsLog(Step(s, actions[0]), actions[1..], t);
    }
  }

  /** What the log holds at each position of service_main. */
  predicate Announced(s: State) {
    && (Index(s.main) <= 3 ==> s.log == [] || s.log[0] == Requested)
    && (4 <= Index(s.main) <= 11 || Finished in s.log ==>
          s.log != [] && (s.log[0] == Reported(StartPending) || s.log[0] == Requested))
    && (s.main.Wait? ==> Reported(Running) in s.log)
    && (s.main.TearDown? ==> Reported(StopPending) in s.log)
  }

  lemma ControlKeepsAnnounced(s: State)
    requires Announced(s) && Enabled(s, Control)
    ensures Announced(Step(s, Control))
  {
    StepKeepsLog(s, Control);
    var t := Step(s, Control);
    assert t.main == s.main && (s.log == [] && t.log != [] ==> t.log[0] == Requested);
    hide Step;
    assert s.log != [] ==> t.log[0] == s.log[0];
    assert forall e :: e in s.log ==> e in t.log;
  }

  lemma MainKeepsAnnounced(s: State, ok: bool)
    requires FlagsMatchLog(s) && Announced(s) && Enabled(s, Main(ok))
    ensures Announced(Step(s, Main(ok)))
  {
    StepKeepsLog(s, Main(ok));
    hide PublishStopEvent, FinishStopped;
    assert s.log != [] ==> Step(s, Main(ok)).log[0] == s.log[0];
    assert s.log != [] ==> s.log[0] in s.log;
  }

  lemma StepKeepsAnnounced(s: State, a: Action)
    requires Inv(s) && Announced(s) && Enabled(s, a)
    ensures Announced(Step(s, a))
  {
    hide FlagsMatchLog, Announced, Step;
    match a
    case Control => ControlKeepsAnnounced(s);
    case Main(ok) => MainKeepsAnnounced(s, ok);
  }

  lemma {:induction false} RunKeepsAnnounced(s: State, actions: seq<Action>, t: State)
    requires Inv(s) && Announced(s) && Run(s, actions, t)
    ensures Inv(t) && Announced(t)
    decreases |actions|
  {
    if actions == [] {
    } else {
      hide Inv, Announced, Step;
      StepKeepsInv(s, actions[0]);
      StepKeepsAnnounced(s, actions[0]);
      RunKeepsAnnounced(Step(s, actions[0]), actions[1..], t);
    }
  }

  /**
   In every run: a service that waits has reported RUNNING; one that tears down has reported STOP_PENDING; and once
   service_main has passed its first announcement, the log starts with START_PENDING or with a request that came
   before it.
   */
  lemma ReportsAreMade(leftover: bool, stale: nat, actions: seq<Action>, t: State)
    requires Run(Init(leftover, stale), actions, t)
    ensures t.main.Wait? ==> Reported(Running) in t.log
    ensures t.main.TearDown? ==> Reported(StopPending) in t.log
    ensures t.main.CreateEvent? || t.main.Publish? || t.main.Initialise? || t.main.AnnounceRunning? || t.main.Wait? ||
            t.main.AnnounceStop? || t.main.TearDown? || t.main.Finish? || Finished in t.log ==>
              t.log != [] && (t.log[0] == Reported(StartPending) || t.log[0] == Requested)
  {
    hide Run;
    InitInv(leftover, stale);
    RunKeepsAnnounced(Init(leftover, stale), actions, t);
  }

  /** The announcements, wherever a run passes them: the report is made exactly when no stop was requested before. */
  lemma AnnouncementsAreMade(leftover: bool, stale: nat, before: seq<Action>, s: State, ok: bool, after: seq<Action>,
                             t: State)
    requires Run(Init(leftover, stale), before, s) && Enabled(s, Main(ok)) && Run(Step(s, Main(ok)), after, t)
    ensures s.main.AnnounceStart? && Requested !in s.log ==>
              s.log + [Reported(StartPending)] <= t.log
    ensures s.main.AnnounceStart? && Requested in s.log ==> Step(s, Main(ok)).log == s.log
    ensures s.main.AnnounceRunning? && Requested !in s.log ==>
              s.log + [Reported(Running)] <= t.log
    ensures s.main.AnnounceRunning? && Requested in s.log ==> Step(s, Main(ok)).log == s.log
    ensures s.main.AnnounceStop? ==> s.log + [Reported(StopPending)] <= t.log
    ensures s.log <= t.log
  {
    InitInv(leftover, stale);
    RunKeepsInv(Init(leftover, stale), before, s);
    RunKeepsLog(Step(s, Main(ok)), after, t);
    hide Run, SignalsMatchLog, ReportsOrdered;
  }

  /**
   The first stop control that arrives between the registration of the status handle and the end of the service is
   answered with STOP_PENDING, after the signal to a published stop event; later ones change nothing.
   */
  lemma StopIsAnswered(leftover: bool, stale: nat, before: seq<Action>, s: State, after: seq<Action>, t: State)
    requires Run(Init(leftover, stale), before, s) && Enabled(s, Control) && Run(Step(s, Control), after, t)
    requires !s.main.StoreHandle? && !s.main.Exited?
    ensures Requested !in s.log && Published in s.log ==>
              s.log + [Requested, Signalled, Reported(StopPending)] <= t.log
    ensures Requested !in s.log && Published !in s.log ==> s.log + [Requested, Reported(StopPending)] <= t.log
    ensures Requested in s.log ==> Step(s, Control) == s
  {
    InitInv(leftover, stale);
    RunKeepsInv(Init(leftover, stale), before, s);
    RunKeepsLog(Step(s, Control), after, t);
    hide Run, SignalsMatchLog, ReportsOrdered;
    assert s.log + [Requested] + [Signalled] + [Reported(StopPending)] ==
           s.log + [Requested, Signalled, Reported(StopPending)];
    assert s.log + [Requested] + [Reported(StopPending)] == s.log + [Requested, Reported(StopPending)];
  }

  /** Somewhere along the run service_main is at `main`. */
  predicate Passes(s: State, actions: seq<Action>, main: Position)
    decreases |actions|
  {
    || s.main == main
    || (actions != [] && Enabled(s, actions[0]) && Passes(Step(s, actions[0]), actions[1..], main))
  }

  /** The engine is up, or on its way down. */
  predicate EngineIsUp(main: Position) {
    main.AnnounceRunning? || main.Wait? || main.AnnounceStop? || main.TearDown?
  }

  lemma {:induction false} UpIsTornDown(s: State, actions: seq<Action>, t: State)
    requires Run(s, actions, t) && EngineIsUp(s.main) && !EngineIsUp(t.main)
    ensures Passes(s, actions, TearDown) && (t.main.Finish? || t.main.Exited?)
    decreases |actions|
  {
    if s.main.TearDown? {
      OnlyTheEnd(Step(s, actions[0]), actions[1..], t);
    } else {
      var u := Step(s, actions[0]);
      assert EngineIsUp(u.main);
      UpIsTornDown(u, actions[1..], t);
    }
  }

  /** What a position on the way out leads to. */
  lemma {:induction false} OnlyTheEnd(s: State, actions: seq<Action>, t: State)
    requires Run(s, actions, t) && (s.main.TearDown? || s.main.Finish? || s.main.Exited?)
    ensures t.main.TearDown? || t.main.Finish? || t.main.Exited?
    ensures !Passes(s, actions, Initialise) && !Passes(s, actions, AnnounceRunning)
    decreases |actions|
  {
    if actions == [] {
    } else {
      OnlyTheEnd(Step(s, actions[0]), actions[1..], t);
    }
  }

  /**
   In every run an engine that has been initialised is torn down before the service finishes, and one whose
   initialisation failed, or for which a stop was already requested when the stop event was published, is never up.
   */
  lemma EngineIsTornDown(leftover: bool, stale: nat, before: seq<Action>, s: State, ok: bool, after: seq<Action>,
                         t: State)
    requires Run(Init(leftover, stale), before, s) && Enabled(s, Main(ok)) && Run(Step(s, Main(ok)), after, t)
    ensures s.main.Initialise? && ok && (t.main.Finish? || t.main.Exited?) ==>
              Passes(Step(s, Main(ok)), after, TearDown)
    ensures s.main.Initialise? && !ok ==> !Passes(Step(s, Main(ok)), after, AnnounceRunning)
    ensures s.main.Publish? && Requested in s.log ==> !Passes(Step(s, Main(ok)), after, Initialise)
  {
    InitInv(leftover, stale);
    RunKeepsInv(Init(leftover, stale), before, s);
    var u := Step(s, Main(ok));
    if s.main.Initialise? && ok && (t.main.Finish? || t.main.Exited?) { UpIsTornDown(u, after, t); }
    if (s.main.Initialise? && !ok) || (s.main.Publish? && Requested in s.log) { OnlyTheEnd(u, after, t); }
  }

  /** A wait that has not been woken has had no stop request; a finished service has reported STOPPED. */
  lemma WaitingIsQuiet(leftover: bool, stale: nat, actions: seq<Action>, t: State)
    requires Run(Init(leftover, stale), actions, t)
    ensures t.main.Wait? && !t.eventSet ==>
              Reported(Running) in t.log && Requested !in t.log && t.log[0] == Reported(StartPending)
    ensures Finished in t.log ==> Reported(Stopped) in t.log
  {
    hide Run;
    ReportsAreMade(leftover, stale, actions, t);
    if t.main.Wait? && Requested in t.log { WaitIsWoken(leftover, stale, actions, t); }
    if Finished in t.log { FinishReportsStopped(leftover, stale, actions, t); }
  }

  // ---------------------------------------------------------------- the code

  class ServiceControl {
    var requested: bool
    var eventRaw: nat
    var statusHandle: nat
    var eventSet: bool
    ghost var main: Position
    ghost var log: seq<Event>

    ghost function View(): State
      reads this
    {
      State(requested, eventRaw, statusHandle, eventSet, main, log)
    }

    constructor (leftover: bool, stale: nat)
      ensures View() == Init(leftover, stale)
    {
      requested, eventRaw, statusHandle, eventSet := leftover, stale, 0, false;
      main, log := Reset, [];
    }

    method ReportServiceStatus(status: Status)
      modifies this`log
      ensures View() == Report(old(View()), status)
    {
      if statusHandle == 0 {
        return;
      }
      log := log + [Reported(status)];
    }

    method SignalServiceStopEvent()
      modifies this`eventSet, this`log
      ensures View() == Signal(old(View()))
    {
      eventSet := true;
      log := log + [Signalled];
    }

    method RequestStopLocked() returns (firstRequest: bool)
      modifies this`requested, this`eventSet, this`log
      ensures View() == RequestStop(old(View())) && firstRequest == !old(requested)
    {
      firstRequest := !requested;
      requested := true;
      var raw := eventRaw;
      if firstRequest {
        log := log + [Requested];
        if raw != 0 {
          SignalServiceStopEvent();
        }
        ReportServiceStatus(StopPending);
      }
    }

    method PublishStopEventLocked(raw: nat) returns (pending: bool)
      requires raw == STOP_EVENT
      modifies this`eventRaw, this`eventSet, this`log
      ensures View() == PublishStopEvent(old(View())) && pending == requested
    {
      eventRaw := raw;
      log := log + [Published];
      pending := requested;
      if pending {
        SignalServiceStopEvent();
      }
    }

    method PublishStatusIfNotStopping(status: Status) returns (published: bool)
      modifies this`log
      ensures View() == ReportUnlessStopping(old(View()), status) && published == !requested
    {
      if requested {
        return false;
      }
      ReportServiceStatus(status);
      return true;
    }

    method FinishServiceStopped()
      modifies this`eventRaw, this`statusHandle, this`log
      ensures View() == FinishStopped(old(View()))
    {
      eventRaw := 0;
      log := log + [Finished];
      ReportServiceStatus(Stopped);
      statusHandle := 0;
    }

    /** Any number of stop controls arrive; the handler is registered. */
    method Controls(ghost start: State, ghost past: seq<Action>) returns (ghost trace: seq<Action>)
      requires Run(start, past, View()) && !main.Reset? && !main.Register?
      modifies this`requested, this`eventSet, this`log
      ensures Run(start, trace, View())
      ensures old(requested) ==> requested
    {
      trace := past;
      var count: int := *;
      for i := 0 to if count > 0 then count else 0
        invariant Run(start, trace, View()) && (old(requested) ==> requested)
      {
        trace := Extend(start, trace, View(), Control);
        var _ := RequestStopLocked();
      }
    }

    /**
     `service_main`: each `*Ok` is the outcome of the call of that name.  The stop wait returns
     with the event set, or with an unexpected status if `waitFails`; without either it blocks
     and the method returns while still waiting.
     */
    method ServiceMain(registerOk: bool, createOk: bool, initialiseOk: bool, waitFails: bool)
      returns (ghost trace: seq<Action>)
      requires View() == Init(requested, eventRaw)
      modifies this
      ensures Run(old(View()), trace, View())
      ensures main.Exited? || (main.Wait? && !eventSet)
      ensures main.Wait? ==> Reported(Running) in log && Requested !in log && log[0] == Reported(StartPending)
      ensures if registerOk then main.Wait? || Reported(Stopped) in log else main.Exited? && log == []
    {
      ghost var start := View();
      assert Run(start, [], View());
      hide Run, RequestStop, Signal, Report;
      trace := Extend(start, [], View(), Main(true));
      requested, eventRaw, main := false, 0, Register;

      trace := Extend(start, trace, View(), Main(registerOk));
      if !registerOk {
        main := Exited;
        return;
      }
      main := StoreHandle;
      trace := Announce(start, trace, createOk, initialiseOk, waitFails);
      WaitingIsQuiet(start.requested, start.eventRaw, trace, View());
    }

    method Announce(ghost start: State, ghost past: seq<Action>, createOk: bool, initialiseOk: bool, waitFails: bool)
      returns (ghost trace: seq<Action>)
      requires Run(start, past, View()) && main.StoreHandle?
      modifies this
      ensures Run(start, trace, View())
      ensures main.Exited? || (main.Wait? && !eventSet)
      ensures main.Exited? ==> Finished in log
    {
      hide Run, RequestStop, Signal, Report;
      trace := Controls(start, past);
      trace := Extend(start, trace, View(), Main(true));
      statusHandle, main := STATUS_HANDLE, AnnounceStart;

      trace := Controls(start, trace);
      trace := Extend(start, trace, View(), Main(true));
      var _ := PublishStatusIfNotStopping(StartPending);
      main := CreateEvent;

      trace := Controls(start, trace);
      trace := Extend(start, trace, View(), Main(createOk));
      if !createOk {
        main := Finish;
        trace := Stop(start, trace);
        return;
      }
      main := Publish;
      trace := PublishAndServe(start, trace, initialiseOk, waitFails);
    }

    method PublishAndServe(ghost start: State, ghost past: seq<Action>, initialiseOk: bool, waitFails: bool)
      returns (ghost trace: seq<Action>)
      requires Run(start, past, View()) && main.Publish?
      modifies this
      ensures Run(start, trace, View())
      ensures main.Exited? || (main.Wait? && !eventSet)
      ensures main.Exited? ==> Finished in log
    {
      hide Run, RequestStop, Signal, Report;
      trace := Controls(start, past);
      trace := Extend(start, trace, View(), Main(true));
      var pending := PublishStopEventLocked(STOP_EVENT);
      main := if pending then Finish else Initialise;
      if pending {
        trace := Stop(start, trace);
        return;
      }
      trace := Serve(start, trace, initialiseOk, waitFails);
    }

    /** From the initialisation of the engine to the end. */
    method Serve(ghost start: State, ghost past: seq<Action>, initialiseOk: bool, waitFails: bool)
      returns (ghost trace: seq<Action>)
      requires Run(start, past, View()) && main.Initialise?
      modifies this
      ensures Run(start, trace, View())
      ensures main.Exited? || (main.Wait? && !eventSet)
      ensures main.Exited? ==> Finished in log
    {
      hide Run, RequestStop, Signal, Report;
      trace := Controls(start, past);
      trace := Extend(start, trace, View(), Main(initialiseOk));
      if !initialiseOk {
        main := Finish;
        trace := Stop(start, trace);
        return;
      }
      main := AnnounceRunning;
      trace := Controls(start, trace);
      trace := Extend(start, trace, View(), Main(true));
      var running := PublishStatusIfNotStopping(Running);
      main := if running then Wait else AnnounceStop;
      if running {
        trace := Controls(start, trace);
        if !eventSet && !waitFails {
          return;
        }
        trace := Extend(start, trace, View(), Main(eventSet));
        main := AnnounceStop;
      }
      trace := Conclude(start, trace);
    }

    method Conclude(ghost start: State, ghost past: seq<Action>) returns (ghost trace: seq<Action>)
      requires Run(start, past, View()) && main.AnnounceStop?
      modifies this
      ensures Run(start, trace, View()) && main.Exited? && Finished in log
    {
      hide Run, RequestStop, Signal, Report;
      trace := Controls(start, past);
      trace := Extend(start, trace, View(), Main(true));
      ReportServiceStatus(StopPending);
      main := TearDown;

      trace := Controls(start, trace);
      trace := Extend(start, trace, View(), Main(true));
      main := Finish;
      trace := Stop(start, trace);
    }

    method Stop(ghost start: State, ghost past: seq<Action>) returns (ghost trace: seq<Action>)
      requires Run(start, past, View()) && main.Finish?
      modifies this
      ensures Run(start, trace, View()) && main.Exited? && Finished in log
    {
      trace := Controls(start, past);
      trace := Extend(start, trace, View(), Main(true));
      FinishServiceStopped();
      main := Exited;
    }
  }

  lemma {:induction false} RunAppend(s: State, first: seq<Action>, t: State, second: seq<Action>, u: State)
    requires Run(s, first, t) && Run(t, second, u)
    ensures Run(s, first + second, u)
    decreases |first|
  {
    if first == [] {
      assert first + second == second;
    } else {
      RunAppend(Step(s, first[0]), first[1..], t, second, u);
      assert (first + second)[1..] == first[1..] + second;
    }
  }

  lemma Extend(start: State, past: seq<Action>, s: State, a: Action) returns (trace: seq<Action>)
    requires Run(start, past, s) && Enabled(s, a)
    ensures Run(start, trace, Step(s, a))
  {
    trace := past + [a];
    assert Run(Step(s, a), [], Step(s, a));
    assert Run(s, [a], Step(s, a));
    RunAppend(start, past, s, [a], Step(s, a));
  }
}
