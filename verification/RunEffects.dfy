/**
 What events and turns of the worker do to the world, over whole runs of the engine: instance safety, and
 the images under which instances are tracked.
 */
module RunEffects {
  import opened Outcomes
  import opened ProcessPolicy
  import opened Reconciler
  import opened EngineEffects
  import opened PassEffects
  import Power = ProfileState
  import Cpu = Topology

  function DropLast<T>(s: seq<T>): seq<T>
    requires s != []
  {
    s[..|s| - 1]
  }

  function Last<T>(s: seq<T>): T
    requires s != []
  {
    s[|s| - 1]
  }

  // ---------------------------------------------------------------- events

  /** What another thread, or another program, does in one go. */
  datatype Event =
    | ProcessStarted(processId: nat, expected: Option<ProcessKey>, profile: Power.ProfileSnapshot, answers: Answers)
    | ProcessStopped(key: ProcessKey, cancelOk: bool)
    | FullReconciliation(snapshotOk: bool, enumeration: seq<Sighting>, cancelOk: bool)
    | OtherProgram(key: ProcessKey, state: ProcessState)    // changes a process behind the engine's back
    | TimerExpires
    | ShutdownBegins
    | ShutdownDisables(cancelOk: bool)

  predicate EventOk(event: Event, keys: set<ProcessKey>) {
    match event
    case ProcessStarted(_, _, _, answers) => AnswersOk(answers, keys)
    case FullReconciliation(_, enumeration, _) => SightingsOk(enumeration, keys)
    case OtherProgram(key, _) => key in keys
    case _ => true
  }

  predicate EventsOk(events: seq<Event>, keys: set<ProcessKey>) {
    forall i :: 0 <= i < |events| ==> EventOk(events[i], keys)
  }

  function Interfered(os: OsState, key: ProcessKey, state: ProcessState): OsState {
    os.(processes := os.processes[key := state])
  }

  /** The whole effect of one event on what is tracked and on the processes. */
  ghost predicate EventEffect(event: Event, before: World, after: World, self: nat, topology: seq<Cpu.CpuSetEntry>) {
    match event
    case ProcessStarted(processId, expected, profile, answers) =>
      if before.shuttingDown then after == before
      else exists result ::
        Application(before, after, processId, self, expected, Observe, answers, profile, topology, result)
    case ProcessStopped(key, _) =>
      after == if before.shuttingDown then before else before.(applied := before.applied - {key})
    case FullReconciliation(snapshotOk, enumeration, _) =>
      if before.shuttingDown || !snapshotOk || enumeration == [] then after == before
      else Reconciled(before, after, enumeration, self, topology)
    case OtherProgram(key, state) => after == before.(os := Interfered(before.os, key, state))
    case ShutdownBegins => after == before.(shuttingDown := true)
    case TimerExpires => after == before
    case ShutdownDisables(_) => after == before
  }

  ghost predicate EventsEffect(events: seq<Event>, before: World, after: World, self: nat,
                               topology: seq<Cpu.CpuSetEntry>)
    decreases |events|
  {
    if events == [] then after == before
    else exists mid :: EventsEffect(DropLast(events), before, mid, self, topology) &&
                       EventEffect(Last(events), mid, after, self, topology)
  }

  lemma NoEvents(before: World, self: nat, topology: seq<Cpu.CpuSetEntry>)
    ensures EventsEffect([], before, before, self, topology)
  {
  }

  lemma OneMoreEvent(events: seq<Event>, event: Event, before: World, mid: World, after: World, self: nat,
                     topology: seq<Cpu.CpuSetEntry>)
    requires EventsEffect(events, before, mid, self, topology) && EventEffect(event, mid, after, self, topology)
    ensures EventsEffect(events + [event], before, after, self, topology)
  {
    hide EventEffect;
    var more := events + [event];
    assert DropLast(more) == events && Last(more) == event;
  }

  // ---------------------------------------------------------------- turns of the worker

  /** What one turn of the worker loop meets: the events before each of its calls, and the answers to them. */
  datatype Turn = Turn(
    asleep: seq<Event>,
    waitFails: bool,
    awake: seq<Event>,
    beforePass: seq<Event>,
    checks: ProcessKey -> CheckAnswers,
    snapshotOk: bool,
    enumeration: seq<Sighting>,
    afterPass: seq<Event>,
    armOk: bool,
    cancelOk: bool)

  ghost predicate TurnOk(turn: Turn, keys: set<ProcessKey>) {
    && EventsOk(turn.asleep, keys) && EventsOk(turn.awake, keys)
    && EventsOk(turn.beforePass, keys) && EventsOk(turn.afterPass, keys)
    && ChecksOk(turn.checks, keys) && SightingsOk(turn.enumeration, keys)
  }

  ghost predicate TurnsOk(turns: seq<Turn>, keys: set<ProcessKey>) {
    forall i :: 0 <= i < |turns| ==> TurnOk(turns[i], keys)
  }

  ghost predicate PassEffect(turn: Turn, before: World, after: World, self: nat, topology: seq<Cpu.CpuSetEntry>) {
    exists ok :: PassRun(before, after, turn.checks, turn.snapshotOk, turn.enumeration, self, topology, ok)
  }

  /** The branch for the timer, when the batch is still armed: events, the pass, events. */
  ghost predicate TimerEffect(turn: Turn, before: World, after: World, self: nat, topology: seq<Cpu.CpuSetEntry>) {
    exists begin, end ::
      EventsEffect(turn.beforePass, before, begin, self, topology) && PassEffect(turn, begin, end, self, topology) &&
      EventsEffect(turn.afterPass, end, after, self, topology)
  }

  /** What follows a wait that has returned: events, then the pass if there is one. */
  ghost predicate AwakeEffect(turn: Turn, before: World, after: World, self: nat, topology: seq<Cpu.CpuSetEntry>) {
    exists ready ::
      EventsEffect(turn.awake, before, ready, self, topology) &&
      (after == ready || TimerEffect(turn, ready, after, self, topology))
  }

  ghost predicate TurnEffect(turn: Turn, before: World, after: World, self: nat, topology: seq<Cpu.CpuSetEntry>) {
    exists woken ::
      EventsEffect(turn.asleep, before, woken, self, topology) &&
      (after == woken || AwakeEffect(turn, woken, after, self, topology))
  }

  ghost predicate RunEffect(turns: seq<Turn>, before: World, after: World, self: nat, topology: seq<Cpu.CpuSetEntry>)
    decreases |turns|
  {
    if turns == [] then after == before
    else exists mid :: RunEffect(DropLast(turns), before, mid, self, topology) &&
                       TurnEffect(Last(turns), mid, after, self, topology)
  }

  lemma OneMoreTurn(turns: seq<Turn>, turn: Turn, before: World, mid: World, after: World, self: nat,
                    topology: seq<Cpu.CpuSetEntry>)
    requires RunEffect(turns, before, mid, self, topology) && TurnEffect(turn, mid, after, self, topology)
    ensures RunEffect(turns + [turn], before, after, self, topology)
  {
    hide TurnEffect;
    var more := turns + [turn];
    assert DropLast(more) == turns && Last(more) == turn;
  }

  // ---------------------------------------------------------------- histories

  /** One thing done to the world: by an event, or by the pass of a turn. */
  datatype Deed = ByEvent(event: Event) | ByPass(turn: Turn)

  ghost predicate DeedEffect(deed: Deed, before: World, after: World, self: nat, topology: seq<Cpu.CpuSetEntry>) {
    match deed
    case ByEvent(event) => EventEffect(event, before, after, self, topology)
    case ByPass(turn) => PassEffect(turn, before, after, self, topology)
  }

  ghost predicate DeedOf(turn: Turn, deed: Deed) {
    match deed
    case ByEvent(e) => e in turn.asleep || e in turn.awake || e in turn.beforePass || e in turn.afterPass
    case ByPass(t) => t == turn
  }

  ghost predicate DeedIn(turns: seq<Turn>, deed: Deed) {
    exists j :: 0 <= j < |turns| && DeedOf(turns[j], deed)
  }

  /** Each deed leads from one world to the next. */
  ghost predicate Chain(deeds: seq<Deed>, worlds: seq<World>, self: nat, topology: seq<Cpu.CpuSetEntry>) {
    && |worlds| == |deeds| + 1
    && forall i :: 0 <= i < |deeds| ==> DeedEffect(deeds[i], worlds[i], worlds[i + 1], self, topology)
  }

  ghost predicate Leads(deeds: seq<Deed>, worlds: seq<World>, before: World, after: World, self: nat,
                        topology: seq<Cpu.CpuSetEntry>) {
    Chain(deeds, worlds, self, topology) && worlds[0] == before && worlds[|deeds|] == after
  }

  lemma NoDeed(world: World, self: nat, topology: seq<Cpu.CpuSetEntry>)
    ensures Leads([], [world], world, world, self, topology)
  {
  }

  lemma LeadsOn(d: seq<Deed>, w: seq<World>, d': seq<Deed>, w': seq<World>, a: World, b: World, c: World, self: nat,
                topology: seq<Cpu.CpuSetEntry>)
    returns (deeds: seq<Deed>, worlds: seq<World>)
    requires Leads(d, w, a, b, self, topology) && Leads(d', w', b, c, self, topology)
    ensures deeds == d + d' && Leads(deeds, worlds, a, c, self, topology)
  {
    hide DeedEffect;
    deeds, worlds := d + d', w + w'[1..];
    forall i | 0 <= i < |deeds| ensures DeedEffect(deeds[i], worlds[i], worlds[i + 1], self, topology) {
      if i < |d| {
        assert DeedEffect(d[i], w[i], w[i + 1], self, topology);
      } else {
        assert DeedEffect(d'[i - |d|], w'[i - |d|], w'[i - |d| + 1], self, topology);
        assert worlds[i] == w'[i - |d|];
      }
    }
  }

  ghost predicate AllOf(turn: Turn, deeds: seq<Deed>) {
    forall i :: 0 <= i < |deeds| ==> DeedOf(turn, deeds[i])
  }

  ghost predicate EventsOf(turn: Turn, events: seq<Event>) {
    forall e :: e in events ==> DeedOf(turn, ByEvent(e))
  }

  lemma OneDeed(deed: Deed, before: World, after: World, self: nat, topology: seq<Cpu.CpuSetEntry>)
    requires DeedEffect(deed, before, after, self, topology)
    ensures Leads([deed], [before, after], before, after, self, topology)
  {
    hide DeedEffect;
  }

  lemma {:induction false} EventsHistory(turn: Turn, events: seq<Event>, before: World, after: World, self: nat,
                                         topology: seq<Cpu.CpuSetEntry>)
    returns (deeds: seq<Deed>, worlds: seq<World>)
    requires EventsEffect(events, before, after, self, topology) && EventsOf(turn, events)
    ensures Leads(deeds, worlds, before, after, self, topology) && AllOf(turn, deeds)
    decreases |events|
  {
    if events == [] {
      NoDeed(before, self, topology);
      deeds, worlds := [], [before];
    } else {
      hide EventEffect, DeedOf, Leads;
      var mid :| EventsEffect(DropLast(events), before, mid, self, topology) &&
                 EventEffect(Last(events), mid, after, self, topology);
      deeds, worlds := EventsHistory(turn, DropLast(events), before, mid, self, topology);
      var last := ByEvent(Last(events));
      assert Last(events) in events;
      OneDeed(last, mid, after, self, topology);
      deeds, worlds := LeadsOn(deeds, worlds, [last], [mid, after], before, mid, after, self, topology);
    }
  }

  lemma TimerHistory(turn: Turn, before: World, after: World, self: nat, topology: seq<Cpu.CpuSetEntry>)
    returns (deeds: seq<Deed>, worlds: seq<World>)
    requires TimerEffect(turn, before, after, self, topology)
    ensures Leads(deeds, worlds, before, after, self, topology) && AllOf(turn, deeds)
  {
    hide EventsEffect, PassEffect, Leads;
    var begin, end :|
      EventsEffect(turn.beforePass, before, begin, self, topology) && PassEffect(turn, begin, end, self, topology) &&
      EventsEffect(turn.afterPass, end, after, self, topology);
    var first, w := EventsHistory(turn, turn.beforePass, before, begin, self, topology);
    var pass := ByPass(turn);
    OneDeed(pass, begin, end, self, topology);
    deeds, worlds := LeadsOn(first, w, [pass], [begin, end], before, begin, end, self, topology);
    var rest, w' := EventsHistory(turn, turn.afterPass, end, after, self, topology);
    deeds, worlds := LeadsOn(deeds, worlds, rest, w', before, end, after, self, topology);
  }

  lemma TurnHistory(turn: Turn, before: World, after: World, self: nat, topology: seq<Cpu.CpuSetEntry>)
    returns (deeds: seq<Deed>, worlds: seq<World>)
    requires TurnEffect(turn, before, after, self, topology)
    ensures Leads(deeds, worlds, before, after, self, topology) && AllOf(turn, deeds)
  {
    hide EventsEffect, TimerEffect, Leads;
    var woken :|
      EventsEffect(turn.asleep, before, woken, self, topology) &&
      (after == woken || AwakeEffect(turn, woken, after, self, topology));
    deeds, worlds := EventsHistory(turn, turn.asleep, before, woken, self, topology);
    if after != woken {
      var ready :|
        EventsEffect(turn.awake, woken, ready, self, topology) &&
        (after == ready || TimerEffect(turn, ready, after, self, topology));
      var more, w := EventsHistory(turn, turn.awake, woken, ready, self, topology);
      deeds, worlds := LeadsOn(deeds, worlds, more, w, before, woken, ready, self, topology);
      if after != ready {
        var rest, w' := TimerHistory(turn, ready, after, self, topology);
        deeds, worlds := LeadsOn(deeds, worlds, rest, w', before, ready, after, self, topology);
      }
    }
  }

  /** The deeds of a run, in order, and the worlds between them; every deed belongs to one of its turns. */
  ghost predicate History(turns: seq<Turn>, deeds: seq<Deed>, worlds: seq<World>, before: World, after: World,
                          self: nat, topology: seq<Cpu.CpuSetEntry>) {
    Leads(deeds, worlds, before, after, self, topology) && forall i :: 0 <= i < |deeds| ==> DeedIn(turns, deeds[i])
  }

  lemma {:induction false} RunHistory(turns: seq<Turn>, before: World, after: World, self: nat,
                                      topology: seq<Cpu.CpuSetEntry>)
    returns (deeds: seq<Deed>, worlds: seq<World>)
    requires RunEffect(turns, before, after, self, topology)
    ensures History(turns, deeds, worlds, before, after, self, topology)
    decreases |turns|
  {
    if turns == [] {
      NoDeed(before, self, topology);
      deeds, worlds := [], [before];
    } else {
      hide TurnEffect, DeedOf, Leads;
      var init, last := DropLast(turns), Last(turns);
      var mid :| RunEffect(init, before, mid, self, topology) && TurnEffect(last, mid, after, self, topology);
      var first, w := RunHistory(init, before, mid, self, topology);
      var rest, w' := TurnHistory(last, mid, after, self, topology);
      deeds, worlds := LeadsOn(first, w, rest, w', before, mid, after, self, topology);
      forall i | 0 <= i < |deeds| ensures DeedIn(turns, deeds[i]) {
        if i < |first| {
          assert DeedIn(init, first[i]);
          var j :| 0 <= j < |init| && DeedOf(init[j], first[i]);
          assert DeedOf(turns[j], deeds[i]);
        } else {
          assert DeedOf(turns[|turns| - 1], rest[i - |first|]);
        }
      }
    }
  }

  // ---------------------------------------------------------------- instance safety of runs

  /** The instances an event may act on: resolved in it, with a rule. */
  ghost function EventTargets(event: Event, self: nat): iset<ProcessKey> {
    match event
    case ProcessStarted(processId, expected, _, answers) => Target(processId, self, expected, answers)
    case FullReconciliation(_, enumeration, _) => Governed(enumeration, self)
    case _ => iset{}
  }

  /** The instances for which a deed finds a rule. */
  ghost function DeedGoverned(deed: Deed, self: nat): iset<ProcessKey> {
    match deed
    case ByEvent(event) => EventTargets(event, self)
    case ByPass(turn) => Governed(turn.enumeration, self)
  }

  /**
   The instances a deed may act on in the world where it starts: those it finds a rule for, and, for a pass, the
   tracked and pending ones that find themselves in their checks; none after shutdown.
   */
  ghost function DeedTargets(deed: Deed, before: World, self: nat): iset<ProcessKey> {
    if before.shuttingDown then iset{}
    else
      match deed
      case ByEvent(event) => EventTargets(event, self)
      case ByPass(turn) =>
        FoundThemselves(before.applied, PendingKeys(before.applied), turn.checks) + Governed(turn.enumeration, self)
  }

  /** The instance that another program changes. */
  ghost function Meddled(deed: Deed): iset<ProcessKey> {
    if deed.ByEvent? && deed.event.OtherProgram? then iset{deed.event.key} else iset{}
  }

  predicate DeedOk(deed: Deed, keys: set<ProcessKey>) {
    deed.ByEvent? ==> EventOk(deed.event, keys)
  }

  /** Instance safety of one deed. */
  ghost predicate DeedSafe(deed: Deed, before: World, after: World, self: nat) {
    && WritesWithin(before.os, after.os, DeedTargets(deed, before, self))
    && ChangesWithin(before.os, after.os, DeedTargets(deed, before, self) + Meddled(deed))
    && (forall k :: k in after.applied ==> k in before.applied || k in DeedGoverned(deed, self))
  }

  lemma EventIsSafe(event: Event, before: World, after: World, self: nat, topology: seq<Cpu.CpuSetEntry>)
    requires EventEffect(event, before, after, self, topology) && EventOk(event, before.os.processes.Keys)
    ensures DeedSafe(ByEvent(event), before, after, self)
  {
    hide Application, ReconciledAt, Governed, Target, Answers.Rule;
    match event
    case ProcessStarted(processId, expected, profile, answers) =>
      if !before.shuttingDown {
        var result :|
          Application(before, after, processId, self, expected, Observe, answers, profile, topology, result);
        ApplicationTouches(before, after, processId, self, expected, Observe, answers, profile, topology, result);
        ApplicationTracks(before, after, processId, self, expected, Observe, answers, profile, topology, result);
      }
    case FullReconciliation(snapshotOk, enumeration, _) =>
      if !before.shuttingDown && snapshotOk && enumeration != [] {
        ReconciledTracks(before, after, enumeration, self, topology);
      }
    case _ =>
  }

  lemma ApplicationTracks(before: World, after: World, processId: nat, self: nat, expected: Option<ProcessKey>,
                          intent: Intent, answers: Answers, profile: Power.ProfileSnapshot,
                          topology: seq<Cpu.CpuSetEntry>, result: Option<ProcessKey>)
    requires Application(before, after, processId, self, expected, intent, answers, profile, topology, result)
    ensures forall k :: k in after.applied ==> k in before.applied || k in Target(processId, self, expected, answers)
  {
    hide PolicySet, Answers.Rule;
  }

  lemma PassIsSafe(turn: Turn, before: World, after: World, self: nat, topology: seq<Cpu.CpuSetEntry>)
    requires PassEffect(turn, before, after, self, topology)
    ensures DeedSafe(ByPass(turn), before, after, self)
  {
    hide Governed, IsPending, BatchDone, Reconciled, AnyDrift, FoundThemselves, Touches;
    var ok :| PassRun(before, after, turn.checks, turn.snapshotOk, turn.enumeration, self, topology, ok);
    if !before.shuttingDown {
      PassTouches(before, after, turn.checks, turn.snapshotOk, turn.enumeration, self, topology, ok);
      var pending := PendingKeys(before.applied);
      var mid :|
        BatchDone(before.applied, pending, turn.checks, before.os, mid) &&
        PassEnded(before.(applied := CheckedOnce(before.applied, pending), os := mid), after,
                  AnyDrift(before.applied, pending, turn.checks), turn.snapshotOk, turn.enumeration, self, topology,
                  ok);
      var checked := before.(applied := CheckedOnce(before.applied, pending), os := mid);
      if after != checked { ReconciledTracks(checked, after, turn.enumeration, self, topology); }
    }
    TouchesBoth(before.os, after.os, DeedTargets(ByPass(turn), before, self));
  }

  lemma TouchesBoth(a: OsState, b: OsState, keys: iset<ProcessKey>)
    ensures Touches(a, b, keys) ==> WritesWithin(a, b, keys) && ChangesWithin(a, b, keys + iset{})
    ensures Touches(a, a, keys)
  {
  }

  lemma DeedIsSafe(deed: Deed, before: World, after: World, self: nat, topology: seq<Cpu.CpuSetEntry>)
    requires DeedEffect(deed, before, after, self, topology) && DeedOk(deed, before.os.processes.Keys)
    ensures DeedSafe(deed, before, after, self)
  {
    hide EventEffect, PassEffect, DeedSafe, EventOk;
    match deed
    case ByEvent(event) => EventIsSafe(event, before, after, self, topology);
    case ByPass(turn) => PassIsSafe(turn, before, after, self, topology);
  }

  ghost predicate ChainSafe(deeds: seq<Deed>, worlds: seq<World>, self: nat) {
    |worlds| == |deeds| + 1 && forall i :: 0 <= i < |deeds| ==> DeedSafe(deeds[i], worlds[i], worlds[i + 1], self)
  }

  /** Every deed of a chain is safe. */
  lemma {:induction false} ChainIsSafe(deeds: seq<Deed>, worlds: seq<World>, self: nat, topology: seq<Cpu.CpuSetEntry>,
                                       keys: set<ProcessKey>)
    requires Chain(deeds, worlds, self, topology) && worlds[0].os.processes.Keys == keys
    requires forall i :: 0 <= i < |deeds| ==> DeedOk(deeds[i], keys)
    ensures ChainSafe(deeds, worlds, self)
    decreases |deeds|
  {
    if deeds == [] {
    } else {
      hide DeedEffect, DeedOk;
      assert DeedEffect(deeds[0], worlds[0], worlds[1], self, topology);
      DeedIsSafe(deeds[0], worlds[0], worlds[1], self, topology);
      assert worlds[1].os.processes.Keys == keys;
      hide DeedSafe;
      ChainIsSafe(deeds[1..], worlds[1..], self, topology, keys);
      forall i | 0 <= i < |deeds| ensures DeedSafe(deeds[i], worlds[i], worlds[i + 1], self) {
        if i > 0 {
          assert DeedSafe(deeds[1..][i - 1], worlds[1..][i - 1], worlds[1..][i], self);
        }
      }
    }
  }

  /** The setter call `n` of the log was made in deed `i`, on an instance that deed may act on. */
  ghost predicate MadeIn(deeds: seq<Deed>, worlds: seq<World>, self: nat, n: nat, write: Write, i: nat) {
    && i < |deeds| && |worlds| == |deeds| + 1
    && |worlds[i].os.writes| <= n < |worlds[i + 1].os.writes| && worlds[i + 1].os.writes[n] == write
    && write.target in DeedTargets(deeds[i], worlds[i], self)
  }

  ghost predicate HasDeed(deeds: seq<Deed>, worlds: seq<World>, self: nat, n: nat, write: Write) {
    exists i :: MadeIn(deeds, worlds, self, n, write, i)
  }

  /** Every setter call of the run has its deed. */
  ghost predicate Accounted(deeds: seq<Deed>, worlds: seq<World>, self: nat, before: OsState, after: OsState) {
    && before.writes <= after.writes
    && forall n :: |before.writes| <= n < |after.writes| ==> HasDeed(deeds, worlds, self, n, after.writes[n])
  }

  lemma {:induction false} ChainIsAccounted(deeds: seq<Deed>, worlds: seq<World>, self: nat, m: nat)
    requires ChainSafe(deeds, worlds, self) && m <= |deeds|
    ensures Accounted(deeds, worlds, self, worlds[0].os, worlds[m].os)
    decreases m
  {
    if m == 0 {
    } else {
      hide DeedTargets, ChangesWithin;
      ChainIsAccounted(deeds, worlds, self, m - 1);
      var was, next := worlds[m - 1].os, worlds[m].os;
      assert DeedSafe(deeds[m - 1], worlds[m - 1], worlds[m], self);
      assert WritesWithin(was, next, DeedTargets(deeds[m - 1], worlds[m - 1], self));
      hide DeedSafe;
      assert worlds[0].os.writes <= was.writes <= next.writes;
      assert worlds[0].os.writes <= next.writes;
      forall n | |worlds[0].os.writes| <= n < |next.writes|
        ensures HasDeed(deeds, worlds, self, n, next.writes[n])
      {
        if n < |was.writes| {
          assert next.writes[n] == was.writes[n];
          assert HasDeed(deeds, worlds, self, n, was.writes[n]);
        } else {
          assert next.writes[n] == NewWrites(was, next)[n - |was.writes|];
          assert MadeIn(deeds, worlds, self, n, next.writes[n], m - 1);
        }
      }
    }
  }

  ghost predicate SomeDeedGoverns(turns: seq<Turn>, self: nat, k: ProcessKey) {
    exists deed :: DeedIn(turns, deed) && k in DeedGoverned(deed, self)
  }

  /** What is tracked at the start, and what some event or enumeration of the run finds a rule for. */
  ghost function Known(before: World, turns: seq<Turn>, self: nat): iset<ProcessKey> {
    iset k | k in before.applied || SomeDeedGoverns(turns, self, k)
  }

  ghost predicate SomeDeedMeddles(turns: seq<Turn>, k: ProcessKey) {
    exists deed :: DeedIn(turns, deed) && k in Meddled(deed)
  }

  ghost function RunMeddled(turns: seq<Turn>): iset<ProcessKey> {
    iset k | SomeDeedMeddles(turns, k)
  }

  /** Nothing but `known` is written, changed by the engine, or tracked. */
  ghost predicate OnlyKnown(before: World, after: World, known: iset<ProcessKey>, meddled: iset<ProcessKey>) {
    && WritesWithin(before.os, after.os, known)
    && ChangesWithin(before.os, after.os, known + meddled)
    && forall k :: k in after.applied ==> k in known
  }

  lemma TargetsAreKnown(deed: Deed, world: World, self: nat, known: iset<ProcessKey>)
    requires DeedGoverned(deed, self) <= known && forall k :: k in world.applied ==> k in known
    ensures DeedTargets(deed, world, self) <= known
  {
    hide IsPending, Governed, EventTargets, Identified;
  }

  lemma {:induction false} ChainKeepsKnown(deeds: seq<Deed>, worlds: seq<World>, self: nat, m: nat,
                                           known: iset<ProcessKey>, meddled: iset<ProcessKey>)
    requires ChainSafe(deeds, worlds, self) && m <= |deeds|
    requires forall k :: k in worlds[0].applied ==> k in known
    requires forall i :: 0 <= i < |deeds| ==> DeedGoverned(deeds[i], self) <= known && Meddled(deeds[i]) <= meddled
    ensures OnlyKnown(worlds[0], worlds[m], known, meddled)
    decreases m
  {
    if m == 0 {
    } else {
      ChainKeepsKnown(deeds, worlds, self, m - 1, known, meddled);
      var deed, was, next := deeds[m - 1], worlds[m - 1], worlds[m];
      assert DeedSafe(deed, was, next, self);
      TargetsAreKnown(deed, was, self, known);
      hide DeedTargets, DeedGoverned, Meddled;
      WritesTogether(worlds[0].os, was.os, next.os, known, DeedTargets(deed, was, self), known);
    }
  }

  lemma DeedsAreOk(turns: seq<Turn>, deed: Deed, keys: set<ProcessKey>)
    requires TurnsOk(turns, keys) && DeedIn(turns, deed)
    ensures DeedOk(deed, keys)
  {
    hide EventOk, SightingsOk, ChecksOk;
    var j :| 0 <= j < |turns| && DeedOf(turns[j], deed);
    assert TurnOk(turns[j], keys);
  }

  /** Some history of the run accounts for every setter call in it. */
  ghost predicate SafeRun(turns: seq<Turn>, before: World, after: World, self: nat, topology: seq<Cpu.CpuSetEntry>) {
    exists deeds, worlds ::
      History(turns, deeds, worlds, before, after, self, topology) &&
      ChainSafe(deeds, worlds, self) && Accounted(deeds, worlds, self, before.os, after.os)
  }

  /**
   Instance safety of whole runs.  Every setter call is made in some event or pass of the run, on an instance that
   this event or enumeration resolved and found a rule for, or that was tracked, pending and found itself
   in its check when the pass began.  So an instance that is neither tracked at the start nor given a
   rule by an event or enumeration of the run is never written, changed or tracked.
   */
  lemma RunIsSafe(turns: seq<Turn>, before: World, after: World, self: nat, topology: seq<Cpu.CpuSetEntry>)
    requires RunEffect(turns, before, after, self, topology) && TurnsOk(turns, before.os.processes.Keys)
    ensures SafeRun(turns, before, after, self, topology)
    ensures OnlyKnown(before, after, Known(before, turns, self), RunMeddled(turns))
  {
    var deeds, worlds := RunHistory(turns, before, after, self, topology);
    hide DeedEffect, DeedOf, DeedSafe, RunEffect, TurnOk;
    forall i | 0 <= i < |deeds|
      ensures DeedOk(deeds[i], before.os.processes.Keys)
      ensures DeedGoverned(deeds[i], self) <= Known(before, turns, self) && Meddled(deeds[i]) <= RunMeddled(turns)
    {
      assert DeedIn(turns, deeds[i]);
      DeedsAreOk(turns, deeds[i], before.os.processes.Keys);
      DeedIsKnown(turns, deeds[i], before, self);
    }
    ChainIsSafe(deeds, worlds, self, topology, before.os.processes.Keys);
    ChainIsAccounted(deeds, worlds, self, |deeds|);
    ChainKeepsKnown(deeds, worlds, self, |deeds|, Known(before, turns, self), RunMeddled(turns));
  }

  lemma DeedIsKnown(turns: seq<Turn>, deed: Deed, before: World, self: nat)
    requires DeedIn(turns, deed)
    ensures DeedGoverned(deed, self) <= Known(before, turns, self) && Meddled(deed) <= RunMeddled(turns)
  {
    hide DeedIn, DeedGoverned, Meddled;
  }

  /** The event is about `k`: it resolved to it, named it, or was a full reconciliation. */
  predicate Concerns(event: Event, self: nat, k: ProcessKey) {
    match event
    case ProcessStarted(processId, expected, _, answers) =>
      Accepts(processId, self, expected, answers) && answers.resolved.value.key == k
    case ProcessStopped(key, _) => key == k
    case FullReconciliation(_, _, _) => true
    case _ => false
  }

  predicate SameTracking(before: Applied, after: Applied, k: ProcessKey) {
    (k in before <==> k in after) && (k in before ==> after[k] == before[k])
  }

  lemma EventLeavesTracking(event: Event, before: World, after: World, self: nat, topology: seq<Cpu.CpuSetEntry>,
                            k: ProcessKey)
    requires EventEffect(event, before, after, self, topology) && !Concerns(event, self, k)
    ensures SameTracking(before.applied, after.applied, k)
  {
    hide Application, Answers.Rule;
    match event
    case ProcessStarted(processId, expected, profile, answers) =>
      if !before.shuttingDown {
        var result :|
          Application(before, after, processId, self, expected, Observe, answers, profile, topology, result);
        ApplicationTouches(before, after, processId, self, expected, Observe, answers, profile, topology, result);
      }
    case _ =>
  }

  /** Stale start and stop events, and those of a reused pid, never alter the tracking of another instance. */
  lemma {:induction false} StaleEventsLeaveTracking(events: seq<Event>, before: World, after: World, self: nat,
                                                    topology: seq<Cpu.CpuSetEntry>, k: ProcessKey)
    requires EventsEffect(events, before, after, self, topology)
    requires forall i :: 0 <= i < |events| ==> !Concerns(events[i], self, k)
    ensures SameTracking(before.applied, after.applied, k)
    decreases |events|
  {
    if events == [] {
    } else {
      hide EventEffect, Concerns;
      var init, last := DropLast(events), Last(events);
      var mid :| EventsEffect(init, before, mid, self, topology) && EventEffect(last, mid, after, self, topology);
      StaleEventsLeaveTracking(init, before, mid, self, topology, k);
      EventLeavesTracking(last, mid, after, self, topology, k);
    }
  }

  lemma ShutdownLasts(event: Event, before: World, after: World, self: nat, topology: seq<Cpu.CpuSetEntry>)
    requires EventEffect(event, before, after, self, topology) && before.shuttingDown
    ensures after.shuttingDown
  {
    hide Application, Reconciled;
  }

  /** An instance that has been reported as stopped is not tracked, until an event concerns it again. */
  lemma {:induction false} StoppedIsUntracked(events: seq<Event>, before: World, after: World, self: nat,
                                              topology: seq<Cpu.CpuSetEntry>, i: nat, k: ProcessKey)
    requires EventsEffect(events, before, after, self, topology) && !after.shuttingDown
    requires i < |events| && events[i].ProcessStopped? && events[i].key == k
    requires forall j :: i < j < |events| ==> !Concerns(events[j], self, k)
    ensures k !in after.applied
    decreases |events|
  {
    hide Application, Reconciled, Concerns;
    var init, last := DropLast(events), Last(events);
    var mid :| EventsEffect(init, before, mid, self, topology) && EventEffect(last, mid, after, self, topology);
    if mid.shuttingDown { ShutdownLasts(last, mid, after, self, topology); }
    if i < |init| {
      StoppedIsUntracked(init, before, mid, self, topology, i, k);
      EventLeavesTracking(last, mid, after, self, topology, k);
    }
  }

  /**
   An instance that has been reported as started, with a valid policy in the registry, is tracked under that policy,
   if it can be watched, until an event concerns it again.
   */
  lemma {:induction false} StartedIsTracked(events: seq<Event>, before: World, after: World, self: nat,
                                            topology: seq<Cpu.CpuSetEntry>, i: nat, key: ProcessKey, image: string,
                                            rule: ProcessRule)
    requires EventsEffect(events, before, after, self, topology) && !after.shuttingDown
    requires i < |events| && events[i].ProcessStarted?
    requires IsAbout(events[i].processId, self, events[i].expected, events[i].answers, key, image)
    requires events[i].answers.registry.Some? && events[i].answers.watchOk
    requires MakeRule(image, events[i].answers.registry.value.mode,
                      events[i].answers.registry.value.affinity) == Ok(rule)
    requires forall j :: i < j < |events| ==> !Concerns(events[j], self, key)
    ensures key in after.applied && after.applied[key].signature == SignatureOf(rule, events[i].profile)
    ensures IsResolution(rule, topology, after.applied[key].policy)
    decreases |events|
  {
    hide Application, Reconciled, Concerns, MakeRule, IsResolution, SignatureOf;
    var init, last := DropLast(events), Last(events);
    var mid :| EventsEffect(init, before, mid, self, topology) && EventEffect(last, mid, after, self, topology);
    if mid.shuttingDown { ShutdownLasts(last, mid, after, self, topology); }
    if i < |init| {
      StartedIsTracked(init, before, mid, self, topology, i, key, image, rule);
      EventLeavesTracking(last, mid, after, self, topology, key);
    } else {
      var result :|
        Application(mid, after, last.processId, self, last.expected, Observe, last.answers, last.profile, topology,
                    result);
      RegistryDecides(mid, after, last.processId, self, last.expected, Observe, last.answers, last.profile, topology,
                      result, key, image);
    }
  }

  /** Events that say nothing: the timer, a disabled reconciler, an enumeration that failed or is empty. */
  predicate SaysNothing(event: Event) {
    || event.TimerExpires? || event.ShutdownDisables?
    || (event.FullReconciliation? && (!event.snapshotOk || event.enumeration == []))
  }

  /** Such events change nothing; and once shutdown has begun, only other programs change anything. */
  lemma {:induction false} NothingHappens(events: seq<Event>, before: World, after: World, self: nat,
                                          topology: seq<Cpu.CpuSetEntry>)
    requires EventsEffect(events, before, after, self, topology)
    ensures (forall i :: 0 <= i < |events| ==> SaysNothing(events[i])) ==> after == before
    ensures before.shuttingDown && (forall i :: 0 <= i < |events| ==> !events[i].OtherProgram?) ==> after == before
    decreases |events|
  {
    if events == [] {
    } else {
      hide Application, Reconciled;
      var init, last := DropLast(events), Last(events);
      var mid :| EventsEffect(init, before, mid, self, topology) && EventEffect(last, mid, after, self, topology);
      NothingHappens(init, before, mid, self, topology);
      assert forall i :: 0 <= i < |init| ==> init[i] == events[i];
    }
  }

  // ---------------------------------------------------------------- the service itself

  /** The handle of a process is that of the pid it was opened with. */
  predicate PidMatches(processId: nat, answers: Answers) {
    answers.resolved.Some? ==> answers.resolved.value.key.processId == processId
  }

  predicate SightingPidsMatch(seen: seq<Sighting>) {
    forall i :: 0 <= i < |seen| ==> PidMatches(seen[i].processId, seen[i].answers)
  }

  predicate EventPidsMatch(event: Event) {
    match event
    case ProcessStarted(processId, _, _, answers) => PidMatches(processId, answers)
    case FullReconciliation(_, enumeration, _) => SightingPidsMatch(enumeration)
    case _ => true
  }

  ghost predicate DeedPidsMatch(deed: Deed) {
    match deed
    case ByEvent(event) => EventPidsMatch(event)
    case ByPass(turn) => SightingPidsMatch(turn.enumeration)
  }

  predicate MayBeTracked(k: ProcessKey, self: nat) {
    k.processId != 0 && k.processId != self
  }

  lemma GovernedMayBeTracked(deed: Deed, self: nat, k: ProcessKey)
    requires DeedPidsMatch(deed) && k in DeedGoverned(deed, self)
    ensures MayBeTracked(k, self)
  {
    hide Answers.Rule;
    match deed
    case ByPass(turn) =>
      var i :| 0 <= i < |turn.enumeration| && GovernedAs(turn.enumeration[i], self, k);
      assert PidMatches(turn.enumeration[i].processId, turn.enumeration[i].answers);
    case ByEvent(event) =>
      if event.FullReconciliation? {
        var i :| 0 <= i < |event.enumeration| && GovernedAs(event.enumeration[i], self, k);
        assert PidMatches(event.enumeration[i].processId, event.enumeration[i].answers);
      }
  }

  /** In no run does the service track itself or the idle process, or call a setter on either. */
  lemma ServiceLeavesItselfAlone(turns: seq<Turn>, before: World, after: World, self: nat,
                                 topology: seq<Cpu.CpuSetEntry>)
    requires RunEffect(turns, before, after, self, topology) && TurnsOk(turns, before.os.processes.Keys)
    requires forall k :: k in before.applied ==> MayBeTracked(k, self)
    requires forall deed :: DeedIn(turns, deed) ==> DeedPidsMatch(deed)
    ensures forall k :: k in after.applied ==> k.processId != 0 && k.processId != self
    ensures forall w :: w in NewWrites(before.os, after.os) ==> w.target.processId != 0 && w.target.processId != self
  {
    RunIsSafe(turns, before, after, self, topology);
    hide RunEffect, TurnOk, SafeRun, DeedIn, DeedPidsMatch, DeedGoverned;
    forall k | k in Known(before, turns, self) ensures MayBeTracked(k, self) {
      if k !in before.applied {
        assert SomeDeedGoverns(turns, self, k);
        var deed :| DeedIn(turns, deed) && k in DeedGoverned(deed, self);
        GovernedMayBeTracked(deed, self, k);
      }
    }
    hide Known;
  }

  // ---------------------------------------------------------------- images

  /** The entry is tracked under the image its rule was selected by. */
  predicate Matched(e: Entry) {
    e.image == e.signature.ruleImageName
  }

  /**
   After an application with a rule the entry's image is the one the rule was selected by exactly when
   the instance was new or is still seen under the image it is tracked with.
   */
  lemma ImageMatchesRule(before: World, after: World, intent: Intent, answers: Answers, profile: Power.ProfileSnapshot,
                         topology: seq<Cpu.CpuSetEntry>, result: Option<ProcessKey>)
    requires answers.Rule().Some? && InstanceApplied(before, after, intent, answers, profile, topology, result)
    requires answers.resolved.value.key in after.applied
    ensures var key := answers.resolved.value.key;
            Matched(after.applied[key]) <==>
            key !in before.applied || Some(before.applied[key].image) == answers.resolved.value.image
  {
    RuleNamesImage(answers);
    hide PolicySet, Answers.Rule;
  }

  /** A check that sees the process as the application did reports drift exactly when they differ. */
  lemma ImageChangeIsDrift(before: World, after: World, intent: Intent, answers: Answers,
                           profile: Power.ProfileSnapshot,
                           topology: seq<Cpu.CpuSetEntry>, result: Option<ProcessKey>, exited: bool, faults: Faults)
    requires answers.Rule().Some? && InstanceApplied(before, after, intent, answers, profile, topology, result)
    requires answers.resolved.value.key in after.applied
    ensures var key := answers.resolved.value.key;
            Drifts(key, after.applied[key], CheckAnswers(answers.resolved, exited, faults)) <==>
                !Matched(after.applied[key])
  {
    RuleNamesImage(answers);
    hide PolicySet, Answers.Rule;
  }

  /** The failing case: an instance tracked as a.exe and seen as b.exe gets the rule of b.exe under the image a.exe. */
  lemma ImagesCanDiffer(key: ProcessKey, state: ProcessState, profile: Power.ProfileSnapshot,
                        topology: seq<Cpu.CpuSetEntry>)
    ensures var nothing := Policy(None, None, None);
            var entry := Entry("a.exe", SignatureOf(ProcessRule("a.exe", None, None), profile), nothing, true, 0);
            var renamed := entry.(signature := SignatureOf(ProcessRule("b.exe", None, None), profile));
            var answers := Answers(Some(Resolved(key, Some("b.exe"))), Some(RegistryPolicy(None, None)), Faults({}, {}),
                                   true, true, true);
            var before := World(map[key := entry], false, OsState(map[key := state], []));
            var after := before.(applied := map[key := renamed]);
            Matched(entry) && !Matched(renamed) &&
            InstanceApplied(before, after, Observe, answers, profile, topology, Some(key))
  {
    var nothing := Policy(None, None, None);
    var entry := Entry("a.exe", SignatureOf(ProcessRule("a.exe", None, None), profile), nothing, true, 0);
    var renamed := entry.(signature := SignatureOf(ProcessRule("b.exe", None, None), profile));
    var answers := Answers(Some(Resolved(key, Some("b.exe"))), Some(RegistryPolicy(None, None)), Faults({}, {}),
                           true, true, true);
    var before := World(map[key := entry], false, OsState(map[key := state], []));
    var after := before.(applied := map[key := renamed]);
    var rule := ProcessRule("b.exe", None, None);
    assert answers.Rule() == Some(rule);
    assert "a.exe" != "b.exe" by { assert "a.exe"[0] != "b.exe"[0]; }
    assert IsResolution(rule, topology, nothing);
    assert NewWrites(before.os, after.os) == [];
    assert Enforced(key, nothing, answers.faults, before.os, after.os);
    hide IsResolution, Enforced;
    assert EntryFollows(before.applied, after.applied, key, "b.exe", rule, profile);
    assert PolicySet(before, after.os, key, rule, profile, Observe, answers.faults, topology, nothing);
  }

  /** `imageOf` is the image of every instance whenever it is resolved. */
  predicate AnswersFixed(answers: Answers, imageOf: ProcessKey -> string) {
    answers.resolved.Some? && answers.resolved.value.image.Some? ==>
      answers.resolved.value.image.value == imageOf(answers.resolved.value.key)
  }

  predicate SightingsFixed(seen: seq<Sighting>, imageOf: ProcessKey -> string) {
    forall i :: 0 <= i < |seen| ==> AnswersFixed(seen[i].answers, imageOf)
  }

  predicate EventFixed(event: Event, imageOf: ProcessKey -> string) {
    match event
    case ProcessStarted(_, _, _, answers) => AnswersFixed(answers, imageOf)
    case FullReconciliation(_, enumeration, _) => SightingsFixed(enumeration, imageOf)
    case _ => true
  }

  predicate EventsFixed(events: seq<Event>, imageOf: ProcessKey -> string) {
    forall i :: 0 <= i < |events| ==> EventFixed(events[i], imageOf)
  }

  predicate TurnFixed(turn: Turn, imageOf: ProcessKey -> string) {
    && EventsFixed(turn.asleep, imageOf) && EventsFixed(turn.awake, imageOf)
    && EventsFixed(turn.beforePass, imageOf) && EventsFixed(turn.afterPass, imageOf)
    && SightingsFixed(turn.enumeration, imageOf)
  }

  /** Every entry is tracked under its instance's own image, and follows a rule selected by that image. */
  ghost predicate OwnImages(applied: Applied, imageOf: ProcessKey -> string) {
    forall k :: k in applied ==> OwnImage(applied[k], imageOf(k))
  }

  predicate OwnImage(e: Entry, image: string) {
    e.image == image && e.signature.ruleImageName == image
  }

  lemma ApplicationKeepsImages(before: World, after: World, processId: nat, self: nat, expected: Option<ProcessKey>,
                               intent: Intent, answers: Answers, profile: Power.ProfileSnapshot,
                               topology: seq<Cpu.CpuSetEntry>, result: Option<ProcessKey>,
                               imageOf: ProcessKey -> string)
    requires Application(before, after, processId, self, expected, intent, answers, profile, topology, result)
    requires OwnImages(before.applied, imageOf) && AnswersFixed(answers, imageOf)
    ensures OwnImages(after.applied, imageOf)
  {
    if answers.Rule().Some? { RuleNamesImage(answers); }
    hide PolicySet, Answers.Rule;
  }

  lemma ReconciliationKeepsImages(before: World, after: World, enumeration: seq<Sighting>, self: nat,
                                  topology: seq<Cpu.CpuSetEntry>, imageOf: ProcessKey -> string)
    requires Reconciled(before, after, enumeration, self, topology)
    requires OwnImages(before.applied, imageOf) && SightingsFixed(enumeration, imageOf)
    ensures OwnImages(after.applied, imageOf)
  {
    hide IsResolution, Answers.Rule, Touches, LastAccepted, Refused, RuleInForce;
    forall k | k in after.applied ensures OwnImage(after.applied[k], imageOf(k)) {
      assert ReconciledAt(before, after, enumeration, self, topology, k);
      LastIsSeen(enumeration, self, k);
      RuleNamesImage(LastAccepted(enumeration, self, k).value.answers);
    }
  }

  lemma EventKeepsImages(event: Event, before: World, after: World, self: nat, topology: seq<Cpu.CpuSetEntry>,
                         imageOf: ProcessKey -> string)
    requires EventEffect(event, before, after, self, topology)
    requires OwnImages(before.applied, imageOf) && EventFixed(event, imageOf)
    ensures OwnImages(after.applied, imageOf)
  {
    hide Application, Reconciled, AnswersFixed, SightingsFixed;
    match event
    case ProcessStarted(processId, expected, profile, answers) =>
      if !before.shuttingDown {
        var result :|
          Application(before, after, processId, self, expected, Observe, answers, profile, topology, result);
        ApplicationKeepsImages(before, after, processId, self, expected, Observe, answers, profile, topology, result,
                               imageOf);
      }
    case FullReconciliation(snapshotOk, enumeration, _) =>
      if !before.shuttingDown && snapshotOk && enumeration != [] {
        ReconciliationKeepsImages(before, after, enumeration, self, topology, imageOf);
      }
    case _ =>
  }

  lemma {:induction false} EventsKeepImages(events: seq<Event>, before: World, after: World, self: nat,
                                            topology: seq<Cpu.CpuSetEntry>, imageOf: ProcessKey -> string)
    requires EventsEffect(events, before, after, self, topology)
    requires OwnImages(before.applied, imageOf) && EventsFixed(events, imageOf)
    ensures OwnImages(after.applied, imageOf)
    decreases |events|
  {
    if events == [] {
    } else {
      hide EventEffect, EventFixed, OwnImages;
      var init, last := DropLast(events), Last(events);
      var mid :| EventsEffect(init, before, mid, self, topology) && EventEffect(last, mid, after, self, topology);
      EventsKeepImages(init, before, mid, self, topology, imageOf);
      EventKeepsImages(last, mid, after, self, topology, imageOf);
    }
  }

  lemma PassKeepsImages(turn: Turn, before: World, after: World, self: nat, topology: seq<Cpu.CpuSetEntry>,
                        imageOf: ProcessKey -> string)
    requires PassEffect(turn, before, after, self, topology)
    requires OwnImages(before.applied, imageOf) && SightingsFixed(turn.enumeration, imageOf)
    ensures OwnImages(after.applied, imageOf)
  {
    hide Reconciled, BatchDone, SightingsFixed, AnyDrift, IsPending;
    var ok :| PassRun(before, after, turn.checks, turn.snapshotOk, turn.enumeration, self, topology, ok);
    if !before.shuttingDown {
      var pending := PendingKeys(before.applied);
      var mid :|
        BatchDone(before.applied, pending, turn.checks, before.os, mid) &&
        PassEnded(before.(applied := CheckedOnce(before.applied, pending), os := mid), after,
                  AnyDrift(before.applied, pending,
                           turn.checks), turn.snapshotOk, turn.enumeration, self, topology, ok);
      var checked := before.(applied := CheckedOnce(before.applied, pending), os := mid);
      assert OwnImages(checked.applied, imageOf);
      if after != checked {
        ReconciliationKeepsImages(checked, after, turn.enumeration, self, topology, imageOf);
      }
    }
  }

  lemma TurnKeepsImages(turn: Turn, before: World, after: World, self: nat, topology: seq<Cpu.CpuSetEntry>,
                        imageOf: ProcessKey -> string)
    requires TurnEffect(turn, before, after, self, topology)
    requires OwnImages(before.applied, imageOf) && TurnFixed(turn, imageOf)
    ensures OwnImages(after.applied, imageOf)
  {
    hide EventsEffect, EventsFixed, PassEffect, OwnImages, SightingsFixed;
    var woken :|
      EventsEffect(turn.asleep, before, woken, self, topology) &&
      (after == woken || AwakeEffect(turn, woken, after, self, topology));
    EventsKeepImages(turn.asleep, before, woken, self, topology, imageOf);
    if after != woken {
      var ready :|
        EventsEffect(turn.awake, woken, ready, self, topology) &&
        (after == ready || TimerEffect(turn, ready, after, self, topology));
      EventsKeepImages(turn.awake, woken, ready, self, topology, imageOf);
      if after != ready {
        var begin, end :|
          EventsEffect(turn.beforePass, ready, begin, self, topology) && PassEffect(turn, begin, end, self, topology) &&
          EventsEffect(turn.afterPass, end, after, self, topology);
        EventsKeepImages(turn.beforePass, ready, begin, self, topology, imageOf);
        PassKeepsImages(turn, begin, end, self, topology, imageOf);
        EventsKeepImages(turn.afterPass, end, after, self, topology, imageOf);
      }
    }
  }

  /**
   While every instance keeps its image, every entry of every run is tracked under its instance's own image
   and follows the rule selected by that image.
   */
  lemma {:induction false} RunKeepsImages(turns: seq<Turn>, before: World, after: World, self: nat,
                                          topology: seq<Cpu.CpuSetEntry>, imageOf: ProcessKey -> string)
    requires RunEffect(turns, before, after, self, topology)
    requires OwnImages(before.applied, imageOf) && forall i :: 0 <= i < |turns| ==> TurnFixed(turns[i], imageOf)
    ensures OwnImages(after.applied, imageOf)
    decreases |turns|
  {
    if turns == [] {
    } else {
      hide TurnEffect, TurnFixed, OwnImages;
      var init, last := DropLast(turns), Last(turns);
      var mid :| RunEffect(init, before, mid, self, topology) && TurnEffect(last, mid, after, self, topology);
      RunKeepsImages(init, before, mid, self, topology, imageOf);
      TurnKeepsImages(last, mid, after, self, topology, imageOf);
    }
  }

  /** So the policy a check enforces is the resolution of a registry rule for its instance's own image. */
  lemma ChecksEnforceOwnRule(applied: Applied, imageOf: ProcessKey -> string, topology: seq<Cpu.CpuSetEntry>,
                             k: ProcessKey)
    requires Sound(applied, topology) && OwnImages(applied, imageOf) && k in applied
    ensures exists rule ::
              FromRegistry(rule) && rule.imageName == imageOf(k) && IsResolution(rule, topology, applied[k].policy)
  {
    hide FromRegistry, IsResolution;
    assert SoundEntry(applied[k], topology);
    var rule, profile :| FromRegistry(rule) && applied[k].signature == SignatureOf(rule, profile) &&
                         IsResolution(rule, topology, applied[k].policy);
    assert rule.imageName == imageOf(k);
  }
}
