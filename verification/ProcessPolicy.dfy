/**
 Rules, resolved policies and their application to a process (src/process.rs, src/registry.rs).
 Windows is an object with one record per process instance; each call on it may fail.
 */
module ProcessPolicy {
  import opened Outcomes
  import Text = AffinityText
  import Mask = AffinityMask
  import Cpu = Topology
  import Power = ProfileState

  datatype ProcessKey = ProcessKey(processId: nat, creationTime: nat)

  datatype ProcessMode = Normal | Efficiency | Performance | Realtime

  datatype ProcessRule = ProcessRule(
    imageName: string,
    affinity: Option<Text.AffinityPolicy>,
    mode: Option<ProcessMode>)

  /** `ResolvedProcessPolicy`: what is configured, in concrete values. */
  datatype Policy = Policy(
    affinityMask: Option<nat>,
    ecoQos: Option<bool>,
    priorityClass: Option<nat>)

  const NORMAL_PRIORITY_CLASS: nat := 0x20
  const IDLE_PRIORITY_CLASS: nat := 0x40
  const REALTIME_PRIORITY_CLASS: nat := 0x100
  const ABOVE_NORMAL_PRIORITY_CLASS: nat := 0x8000

  function UsesEcoQos(mode: ProcessMode): bool {
    mode == Efficiency
  }

  function PriorityClass(mode: ProcessMode): nat {
    match mode
    case Normal => NORMAL_PRIORITY_CLASS
    case Efficiency => IDLE_PRIORITY_CLASS
    case Performance => ABOVE_NORMAL_PRIORITY_CLASS
    case Realtime => REALTIME_PRIORITY_CLASS
  }

  // ---------------------------------------------------------------- rules

  const EFFICIENCY_AFFINITY: Text.Expression :=
    Text.Expression("E+LPE", [Text.Efficiency, Text.LowPowerEfficiency])

  /** `affinity_with_mode_default`; the built-in expression is known to parse. */
  function AffinityWithModeDefault(mode: Option<ProcessMode>, affinity: Option<Text.AffinityPolicy>)
    : Option<Text.AffinityPolicy>
  {
    if affinity.Some? then affinity
    else if mode == Some(Efficiency) then Some(Text.Parsed(EFFICIENCY_AFFINITY))
    else None
  }

  lemma DefaultAffinityParses()
    ensures Text.Meaning("E+LPE") == Ok(EFFICIENCY_AFFINITY)
  {
    var terms := [Text.Efficiency, Text.LowPowerEfficiency];
    Text.ParsePrinted(terms);
    var names := Text.Names(terms);
    assert names == ["E", "LPE"];
    assert names[1..] == ["LPE"];
    assert Text.Join(names[1..]) == "LPE";
    assert Text.Join(names) == names[0] + "+" + Text.Join(names[1..]);
    assert "E" + "+" + "LPE" == "E+LPE";
  }

  datatype RuleError = UnknownMode | BadAffinity(error: Text.ParseError)

  function ModeOf(text: string): Option<ProcessMode> {
    if text == "normal" then Some(Normal)
    else if text == "efficiency" then Some(Efficiency)
    else if text == "performance" then Some(Performance)
    else if text == "realtime" then Some(Realtime)
    else None
  }

  /** `make_rule`: mode text first, then affinity text, then the default. */
  function MakeRule(image: string, mode: Option<string>, affinity: Option<string>): Result<ProcessRule, RuleError> {
    var parsedMode := if mode.Some? then ModeOf(mode.value) else None;
    if mode.Some? && parsedMode.None? then Err(UnknownMode)
    else if affinity.Some? then
      match Text.Meaning(affinity.value)
      case Err(e) => Err(BadAffinity(e))
      case Ok(expression) =>
        Ok(ProcessRule(image, AffinityWithModeDefault(parsedMode, Some(Text.Parsed(expression))), parsedMode))
    else Ok(ProcessRule(image, AffinityWithModeDefault(parsedMode, None), parsedMode))
  }

  ghost predicate FromRegistry(rule: ProcessRule) {
    exists image, mode, affinity :: MakeRule(image, mode, affinity) == Ok(rule)
  }

  /** `affinity_log_value` */
  function AffinityLogValue(rule: ProcessRule): string {
    Text.LogText(AffinityWithModeDefault(rule.mode, rule.affinity))
  }

  /** `AppliedProcessSignature` */
  datatype Signature = Signature(
    ruleImageName: string,
    activeProfile: Power.PowerProfile,
    profileGeneration: nat,
    affinity: string,
    mode: Option<ProcessMode>)

  function SignatureOf(rule: ProcessRule, profile: Power.ProfileSnapshot): Signature {
    Signature(rule.imageName, profile.profile, profile.generation, AffinityLogValue(rule), rule.mode)
  }

  lemma RegistryAffinity(rule: ProcessRule)
    requires FromRegistry(rule)
    ensures Text.FromService(rule.affinity)
    ensures AffinityWithModeDefault(rule.mode, rule.affinity) == rule.affinity
  {
    DefaultAffinityParses();
    hide Text.Meaning, ModeOf;
    var image, mode, affinity :| MakeRule(image, mode, affinity) == Ok(rule);
  }

  /** Two registry rules with one signature are the same rule. */
  lemma SignatureDeterminesRule(a: ProcessRule, b: ProcessRule, p: Power.ProfileSnapshot, q: Power.ProfileSnapshot)
    requires FromRegistry(a) && FromRegistry(b) && SignatureOf(a, p) == SignatureOf(b, q)
    ensures a == b && p == q
  {
    RegistryAffinity(a);
    RegistryAffinity(b);
    Text.LogTextInjective(a.affinity, b.affinity);
  }

  // ---------------------------------------------------------------- resolution

  /** What an affinity resolves to on a topology; an expression that fails to compile resolves to nothing. */
  ghost predicate IsMask(affinity: Option<Text.AffinityPolicy>, topology: seq<Cpu.CpuSetEntry>, mask: Option<nat>) {
    match affinity
    case None => mask == None
    case Some(Mask(m)) => mask == Some(m)
    case Some(Parsed(expression)) =>
      exists r :: Mask.IsMaskOf(multiset(expression.terms), multiset(topology), r) &&
                  mask == if r.Ok? then r.value else None
  }

  ghost predicate IsResolution(rule: ProcessRule, topology: seq<Cpu.CpuSetEntry>, policy: Policy) {
    && IsMask(AffinityWithModeDefault(rule.mode, rule.affinity), topology, policy.affinityMask)
    && policy.ecoQos == (if rule.mode.Some? then Some(UsesEcoQos(rule.mode.value)) else None)
    && policy.priorityClass == (if rule.mode.Some? then Some(PriorityClass(rule.mode.value)) else None)
  }

  lemma ResolutionUnique(rule: ProcessRule, topology: seq<Cpu.CpuSetEntry>, a: Policy, b: Policy)
    requires IsResolution(rule, topology, a) && IsResolution(rule, topology, b)
    ensures a == b
  {
    hide Mask.IsMaskOf;
    var affinity := AffinityWithModeDefault(rule.mode, rule.affinity);
    if affinity.Some? && affinity.value.Parsed? {
      var terms := affinity.value.expression.terms;
      var ra :| Mask.IsMaskOf(multiset(terms), multiset(topology),
                              ra) && a.affinityMask == if ra.Ok? then ra.value else None;
      var rb :| Mask.IsMaskOf(multiset(terms), multiset(topology),
                              rb) && b.affinityMask == if rb.Ok? then rb.value else None;
      Mask.MaskIgnoresOrder(terms, terms, topology, topology, ra, rb);
    }
  }

  /** Cache soundness: on one topology, equal signatures of registry rules mean equal policies. */
  lemma SignatureDeterminesPolicy(a: ProcessRule, b: ProcessRule, p: Power.ProfileSnapshot, q: Power.ProfileSnapshot,
                                  topology: seq<Cpu.CpuSetEntry>, x: Policy, y: Policy)
    requires FromRegistry(a) && FromRegistry(b) && SignatureOf(a, p) == SignatureOf(b, q)
    requires IsResolution(a, topology, x) && IsResolution(b, topology, y)
    ensures x == y
  {
    SignatureDeterminesRule(a, b, p, q);
    ResolutionUnique(a, topology, x, y);
  }

  /** `ProcessRule::resolve_policy`; a failed affinity leaves the other components configured. */
  method ResolvePolicy(rule: ProcessRule, topology: seq<Cpu.CpuSetEntry>) returns (policy: Policy, affinityFailed: bool)
    ensures IsResolution(rule, topology, policy)
    ensures affinityFailed ==> policy.affinityMask.None?
  {
    hide Mask.IsMaskOf;
    affinityFailed := false;
    var mask: Option<nat> := None;
    var affinity := AffinityWithModeDefault(rule.mode, rule.affinity);
    if affinity.Some? {
      match affinity.value
      case Mask(m) => mask := Some(m);
      case Parsed(expression) =>
        var r := Mask.MaskFromEntries(expression.terms, topology);
        if r.Ok? { mask := r.value; } else { affinityFailed := true; }
    }
    policy := Policy(
      mask,
      if rule.mode.Some? then Some(UsesEcoQos(rule.mode.value)) else None,
      if rule.mode.Some? then Some(PriorityClass(rule.mode.value)) else None);
  }

  // ---------------------------------------------------------------- processes

  datatype ProcessState = ProcessState(affinity: nat, ecoControlled: bool, ecoEnabled: bool, priority: nat)

  datatype Component = Affinity | EcoQos | Priority

  datatype Drift = Drift(affinity: bool, ecoQos: bool, priorityClass: bool) {
    predicate Any() {
      affinity || ecoQos || priorityClass
    }

    predicate Has(c: Component) {
      match c
      case Affinity => affinity
      case EcoQos => ecoQos
      case Priority => priorityClass
    }
  }

  /** Which calls fail this time. */
  datatype Faults = Faults(query: set<Component>, change: set<Component>)

  predicate Configured(policy: Policy, c: Component) {
    match c
    case Affinity => policy.affinityMask.Some?
    case EcoQos => policy.ecoQos.Some?
    case Priority => policy.priorityClass.Some?
  }

  /** The process has the configured value of `c`. */
  predicate Conforms(policy: Policy, state: ProcessState, c: Component)
    requires Configured(policy, c)
  {
    match c
    case Affinity => state.affinity == policy.affinityMask.value
    case EcoQos => state.ecoControlled && state.ecoEnabled == policy.ecoQos.value
    case Priority => state.priority == policy.priorityClass.value
  }

  predicate Deviates(policy: Policy, state: ProcessState, c: Component) {
    Configured(policy, c) && !Conforms(policy, state, c)
  }

  predicate FullyConforms(policy: Policy, state: ProcessState) {
    forall c :: Configured(policy, c) ==> Conforms(policy, state, c)
  }

  /** The four mode texts, and what a process has to look like to follow them. */
  predicate KnownMode(text: string) {
    text == "normal" || text == "efficiency" || text == "performance" || text == "realtime"
  }

  predicate FollowsMode(text: string, state: ProcessState) {
    && state.ecoControlled
    && (text == "normal" ==> !state.ecoEnabled && state.priority == 0x20)
    && (text == "efficiency" ==> state.ecoEnabled && state.priority == 0x40)
    && (text == "performance" ==> !state.ecoEnabled && state.priority == 0x8000)
    && (text == "realtime" ==> !state.ecoEnabled && state.priority == 0x100)
  }

  /**
   What the registry values mean for a process: it conforms to what they resolve to exactly when it has the EcoQoS and
   priority of the mode, if there is one, and the mask of the affinity, if there is one.
   */
  lemma RegistryMeaning(image: string, mode: Option<string>, affinity: Option<string>, rule: ProcessRule,
                        topology: seq<Cpu.CpuSetEntry>, policy: Policy, state: ProcessState)
    requires MakeRule(image, mode, affinity) == Ok(rule) && IsResolution(rule, topology, policy)
    ensures FullyConforms(policy, state) <==>
            && (mode.Some? ==> FollowsMode(mode.value, state))
            && (policy.affinityMask.Some? ==> state.affinity == policy.affinityMask.value)
    ensures affinity.None? && mode != Some("efficiency") ==> policy.affinityMask == None
    ensures affinity.Some? || mode == Some("efficiency") ==>
              exists r ::
                Mask.IsMaskOf(multiset(RegistryTerms(affinity)), multiset(topology), r) &&
                policy.affinityMask == if r.Ok? then r.value else None
    ensures rule.imageName == image
  {
    hide Mask.IsMaskOf, Text.Meaning;
    assert FullyConforms(policy, state) <==>
           (Configured(policy, Affinity) ==> Conforms(policy, state, Affinity)) &&
           (Configured(policy, EcoQos) ==> Conforms(policy, state, EcoQos)) &&
           (Configured(policy, Priority) ==> Conforms(policy, state, Priority));
  }

  /** The terms of the affinity text, or efficiency and low-power cores where there is none. */
  function RegistryTerms(affinity: Option<string>): seq<Text.Term> {
    if affinity.None? then [Text.Efficiency, Text.LowPowerEfficiency]
    else if Text.Meaning(affinity.value).Ok? then Text.Meaning(affinity.value).value.terms
    else []
  }

  /** The registry values make a rule exactly when the mode is one of the four and the affinity text parses. */
  lemma RegistryRejects(image: string, mode: Option<string>, affinity: Option<string>)
    ensures MakeRule(image, mode, affinity).Ok? <==>
            (mode.Some? ==> KnownMode(mode.value)) && (affinity.Some? ==> Text.Meaning(affinity.value).Ok?)
    ensures mode.Some? && !KnownMode(mode.value) ==> MakeRule(image, mode, affinity) == Err(UnknownMode)
    ensures MakeRule(image, mode, affinity).Err? && (mode.Some? ==> KnownMode(mode.value)) ==>
              affinity.Some? && MakeRule(image, mode, affinity) ==
                                Err(BadAffinity(Text.Meaning(affinity.value).error))
  {
    hide Text.Meaning;
  }

  predicate SameComponent(a: ProcessState, b: ProcessState, c: Component) {
    match c
    case Affinity => a.affinity == b.affinity
    case EcoQos => a.ecoControlled == b.ecoControlled && a.ecoEnabled == b.ecoEnabled
    case Priority => a.priority == b.priority
  }

  /** One setter call: the instance its handle denotes, the component, and whether it took effect. */
  datatype Write = Write(target: ProcessKey, component: Component, done: bool)

  /** What a setter that succeeds does; a failing one does nothing. */
  function Written(policy: Policy, state: ProcessState, c: Component): ProcessState
    requires Configured(policy, c)
  {
    match c
    case Affinity => state.(affinity := policy.affinityMask.value)
    case EcoQos => state.(ecoControlled := true, ecoEnabled := policy.ecoQos.value)
    case Priority => state.(priority := policy.priorityClass.value)
  }

  /** What an inspection reports: a component drifts when it is configured, readable and off target. */
  ghost predicate IsInspection(policy: Policy, state: ProcessState, faults: Faults, drift: Drift,
                               failures: seq<Component>) {
    && (forall c :: drift.Has(c) <==> Deviates(policy, state, c) && c !in faults.query)
    && (forall c :: c in failures <==> Configured(policy, c) && c in faults.query)
  }

  /** The effect of a repair on one process, and the setter calls it makes in order. */
  ghost predicate IsRepair(key: ProcessKey, policy: Policy, drift: Drift, faults: Faults,
                           before: ProcessState, after: ProcessState, writes: seq<Write>) {
    && (forall c :: Attempts(policy, drift, c) <==> Attempted(writes, key, c))
    && (forall w :: w in writes ==>
          w.target == key && Attempts(policy, drift, w.component) && w.done == (w.component !in faults.change))
    && (forall i, j :: 0 <= i < j < |writes| ==> writes[i].component != writes[j].component)
    && (forall c :: Attempts(policy, drift, c) && c !in faults.change ==> Conforms(policy, after, c))
    && (forall c :: !(Attempts(policy, drift, c) && c !in faults.change) ==> SameComponent(before, after, c))
  }

  function Repaired(policy: Policy, drift: Drift, faults: Faults, c: Component, state: ProcessState): ProcessState {
    if Attempts(policy, drift, c) && c !in faults.change then Written(policy, state, c) else state
  }

  function Calls(key: ProcessKey, policy: Policy, drift: Drift, faults: Faults, c: Component): seq<Write> {
    if Attempts(policy, drift, c) then [Write(key, c, c !in faults.change)] else []
  }

  function AllRepaired(policy: Policy, drift: Drift, faults: Faults, state: ProcessState): ProcessState {
    var state := Repaired(policy, drift, faults, Affinity, state);
    var state := Repaired(policy, drift, faults, EcoQos, state);
    Repaired(policy, drift, faults, Priority, state)
  }

  /** The setter calls of a repair: affinity, EcoQoS, priority, in this order. */
  function AllCalls(key: ProcessKey, policy: Policy, drift: Drift, faults: Faults): seq<Write> {
    Calls(key, policy, drift, faults, Affinity) + Calls(key, policy, drift, faults, EcoQos) +
    Calls(key, policy, drift, faults, Priority)
  }

  /** What a failed call adds to the failures of a repair. */
  function Failed(policy: Policy, drift: Drift, faults: Faults, c: Component): seq<Component> {
    if Attempts(policy, drift, c) && c in faults.change then [c] else []
  }

  lemma FailedComponents(policy: Policy, drift: Drift, faults: Faults)
    ensures var failures :=
              [] + Failed(policy, drift, faults, Affinity) + Failed(policy, drift, faults, EcoQos) +
              Failed(policy, drift, faults, Priority);
            forall c :: c in failures <==> Attempts(policy, drift, c) && c in faults.change
  {
    var failures :=
      [] + Failed(policy, drift, faults, Affinity) + Failed(policy, drift, faults, EcoQos) +
      Failed(policy, drift, faults, Priority);
    forall c ensures c in failures <==> Attempts(policy, drift, c) && c in faults.change {
      match c
      case Affinity =>
      case EcoQos =>
      case Priority =>
    }
  }

  /** One repair touches the components independently of each other. */
  lemma RepairedComponent(policy: Policy, drift: Drift, faults: Faults, state: ProcessState, c: Component)
    ensures var after := AllRepaired(policy, drift, faults, state);
            && (Attempts(policy, drift, c) && c !in faults.change ==> Conforms(policy, after, c))
            && (!(Attempts(policy, drift, c) && c !in faults.change) ==> SameComponent(state, after, c))
  {
    match c
    case Affinity =>
    case EcoQos =>
    case Priority =>
  }

  lemma CallsOfComponent(key: ProcessKey, policy: Policy, drift: Drift, faults: Faults, w: Write)
    ensures w in AllCalls(key, policy, drift, faults) <==>
              Attempts(policy, drift, w.component) && w == Write(key, w.component, w.component !in faults.change)
  {
    match w.component
    case Affinity =>
    case EcoQos =>
    case Priority =>
  }

  lemma CallsAreDistinct(key: ProcessKey, policy: Policy, drift: Drift, faults: Faults)
    ensures var writes := AllCalls(key, policy, drift, faults);
            forall i, j :: 0 <= i < j < |writes| ==> writes[i].component != writes[j].component
  {
    hide Attempts;
  }

  lemma RepairedIsRepair(key: ProcessKey, policy: Policy, drift: Drift, faults: Faults, state: ProcessState)
    ensures IsRepair(key, policy, drift, faults, state, AllRepaired(policy, drift, faults, state),
                     AllCalls(key, policy, drift, faults))
  {
    hide AllRepaired, AllCalls, Conforms, SameComponent;
    var after := AllRepaired(policy, drift, faults, state);
    var writes := AllCalls(key, policy, drift, faults);
    CallsAreDistinct(key, policy, drift, faults);
    forall c ensures Attempts(policy, drift, c) <==> Attempted(writes, key, c)
             ensures Attempts(policy, drift, c) && c !in faults.change ==> Conforms(policy, after, c)
             ensures !(Attempts(policy, drift, c) && c !in faults.change) ==> SameComponent(state, after, c)
    {
      CallsOfComponent(key, policy, drift, faults, Write(key, c, true));
      CallsOfComponent(key, policy, drift, faults, Write(key, c, false));
      RepairedComponent(policy, drift, faults, state, c);
    }
    forall w | w in writes
      ensures w.target == key && Attempts(policy, drift, w.component) && w.done == (w.component !in faults.change)
    {
      CallsOfComponent(key, policy, drift, faults, w);
    }
  }

  predicate Attempted(writes: seq<Write>, key: ProcessKey, c: Component) {
    Write(key, c, true) in writes || Write(key, c, false) in writes
  }

  predicate Attempts(policy: Policy, drift: Drift, c: Component) {
    drift.Has(c) && Configured(policy, c)
  }

  const ALL_DRIFTED: Drift := Drift(true, true, true)

  /** A repair after a clean inspection leaves the process fully conforming, whatever it was before. */
  lemma RepairConverges(key: ProcessKey, policy: Policy, faults: Faults, drift: Drift, failures: seq<Component>,
                        before: ProcessState, after: ProcessState, writes: seq<Write>)
    requires faults == Faults({}, {})
    requires IsInspection(policy, before, faults, drift, failures)
    requires IsRepair(key, policy, drift, faults, before, after, writes)
    ensures FullyConforms(policy, after) && forall c :: c !in failures
    ensures forall w :: w in writes ==> Deviates(policy, before, w.component)
    ensures forall c :: !Deviates(policy, before, c) ==> SameComponent(before, after, c)
  {
    forall c | Configured(policy, c) ensures Conforms(policy, after, c) {
      assert drift.Has(c) || Conforms(policy, before, c);
      if !drift.Has(c) { assert SameComponent(before, after, c); }
    }
  }

  /** The processes of the machine and the setter calls made so far. */
  datatype OsState = OsState(processes: map<ProcessKey, ProcessState>, writes: seq<Write>)

  /** The processes of the machine, one record for each instance a handle can denote. */
  class Windows {
    var processes: map<ProcessKey, ProcessState>
    var writes: seq<Write>

    ghost function State(): OsState
      reads this
    {
      OsState(processes, writes)
    }

    constructor (processes: map<ProcessKey, ProcessState>)
      ensures this.processes == processes && writes == []
    {
      this.processes := processes;
      writes := [];
    }

    /** A setter call on the handle of `key`. */
    method Set(key: ProcessKey, policy: Policy, c: Component, fails: bool) returns (ok: bool)
      requires key in processes && Configured(policy, c)
      modifies this
      ensures ok == !fails && writes == old(writes) + [Write(key, c, ok)]
      ensures processes == if ok then old(processes)[key := Written(policy, old(processes)[key], c)] else old(processes)
    {
      ok := !fails;
      if ok {
        processes := processes[key := Written(policy, processes[key], c)];
      }
      writes := writes + [Write(key, c, ok)];
    }

    /** `inspect` */
    method Inspect(key: ProcessKey, policy: Policy, faults: Faults) returns (drift: Drift, failures: seq<Component>)
      requires key in processes
      ensures IsInspection(policy, processes[key], faults, drift, failures)
    {
      var state := processes[key];
      drift, failures := Drift(false, false, false), [];
      if policy.affinityMask.Some? {
        if Affinity in faults.query {
          failures := failures + [Affinity];
        } else {
          drift := drift.(affinity := state.affinity != policy.affinityMask.value);
        }
      }
      if policy.ecoQos.Some? {
        if EcoQos in faults.query {
          failures := failures + [EcoQos];
        } else {
          drift := drift.(ecoQos := !state.ecoControlled || state.ecoEnabled != policy.ecoQos.value);
        }
      }
      if policy.priorityClass.Some? {
        if Priority in faults.query {
          failures := failures + [Priority];
        } else {
          drift := drift.(priorityClass := state.priority != policy.priorityClass.value);
        }
      }
    }

    /** One component of a repair. */
    method RepairComponent(key: ProcessKey, policy: Policy, drift: Drift, faults: Faults, c: Component,
                           failures: seq<Component>)
      returns (failures': seq<Component>)
      requires key in processes
      modifies this
      ensures processes == old(processes)[key := Repaired(policy, drift, faults, c, old(processes)[key])]
      ensures writes == old(writes) + Calls(key, policy, drift, faults, c)
      ensures failures' == failures + Failed(policy, drift, faults, c)
    {
      failures' := failures;
      if drift.Has(c) && Configured(policy, c) {
        var ok := Set(key, policy, c, c in faults.change);
        if !ok { failures' := failures + [c]; }
      }
    }

    /** `repair`: every drifted component is attempted, whatever happened to the ones before it. */
    method Repair(key: ProcessKey, policy: Policy, drift: Drift, faults: Faults) returns (failures: seq<Component>)
      requires key in processes
      modifies this
      ensures old(writes) <= writes && processes.Keys == old(processes.Keys)
      ensures forall other :: other in processes && other != key ==> processes[other] == old(processes)[other]
      ensures IsRepair(key, policy, drift, faults, old(processes)[key], processes[key], writes[|old(writes)|..])
      ensures forall c :: c in failures <==> Attempts(policy, drift, c) && c in faults.change
    {
      hide Repaired, Calls, Failed, Attempts, IsRepair;
      failures := RepairComponent(key, policy, drift, faults, Affinity, []);
      failures := RepairComponent(key, policy, drift, faults, EcoQos, failures);
      failures := RepairComponent(key, policy, drift, faults, Priority, failures);
      assert writes == old(writes) + AllCalls(key, policy, drift, faults);
      assert writes[|old(writes)|..] == AllCalls(key, policy, drift, faults);
      RepairedIsRepair(key, policy, drift, faults, old(processes)[key]);
      FailedComponents(policy, drift, faults);
    }

    /** `apply_all`: a repair that treats every configured component as drifted. */
    method ApplyAll(key: ProcessKey, policy: Policy, faults: Faults) returns (failures: seq<Component>)
      requires key in processes
      modifies this
      ensures old(writes) <= writes && processes.Keys == old(processes.Keys)
      ensures forall other :: other in processes && other != key ==> processes[other] == old(processes)[other]
      ensures IsRepair(key, policy, ALL_DRIFTED, faults, old(processes)[key], processes[key], writes[|old(writes)|..])
      ensures faults.change == {} ==> FullyConforms(policy, processes[key])
    {
      var drift := Drift(policy.affinityMask.Some?, policy.ecoQos.Some?, policy.priorityClass.Some?);
      failures := Repair(key, policy, drift, faults);
      forall c ensures Attempts(policy, drift, c) <==> Attempts(policy, ALL_DRIFTED, c) {
        assert Configured(policy, c) ==> drift.Has(c);
      }
      AllDriftedRepair(key, policy, drift, faults, old(processes)[key], processes[key], writes[|old(writes)|..]);
    }
  }

  lemma AllDriftedRepair(key: ProcessKey, policy: Policy, drift: Drift, faults: Faults,
                         before: ProcessState, after: ProcessState, writes: seq<Write>)
    requires forall c :: Attempts(policy, drift, c) <==> Attempts(policy, ALL_DRIFTED, c)
    requires IsRepair(key, policy, drift, faults, before, after, writes)
    ensures IsRepair(key, policy, ALL_DRIFTED, faults, before, after, writes)
    ensures faults.change == {} ==> FullyConforms(policy, after)
  {
    forall c | Configured(policy, c) ensures Attempts(policy, ALL_DRIFTED, c) {
      assert ALL_DRIFTED.Has(c);
    }
  }
}
