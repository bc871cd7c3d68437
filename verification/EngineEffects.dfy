/**
 What the rule engine (src/engine.rs) does to one instance, and in a full reconciliation: the entries,
 setter calls and process states it leaves, as relations between the world before and after.
 */
module EngineEffects {
  import opened Outcomes
  import opened ProcessPolicy
  import opened Reconciler
  import Power = ProfileState
  import Cpu = Topology

  datatype Intent = Observe | Force

  /** `ResolvedProcess`: the instance its handle denotes, and its image name if that is supported. */
  datatype Resolved = Resolved(key: ProcessKey, image: Option<string>)

  /** The values the registry holds for an image. */
  datatype RegistryPolicy = RegistryPolicy(mode: Option<string>, affinity: Option<string>)

  /**
   What the outside says during one application: handle, registry (nothing stands for an image without a
   policy and for one that cannot be read), setter failures, watcher, event, timer.
   */
  datatype Answers = Answers(
    resolved: Option<Resolved>,
    registry: Option<RegistryPolicy>,
    faults: Faults,
    watchOk: bool,
    eventOk: bool,
    cancelOk: bool)
  {
    /** `select_rule_for_image` on the resolved image; a policy that is not valid counts as none. */
    function Rule(): Option<ProcessRule> {
      if resolved.None? || resolved.value.image.None? || registry.None? then None
      else
        match MakeRule(resolved.value.image.value, registry.value.mode, registry.value.affinity)
        case Ok(rule) => Some(rule)
        case Err(_) => None
    }
  }

  /** The rule selected for an image comes from the registry and carries that image. */
  lemma RuleNamesImage(answers: Answers)
    requires answers.Rule().Some?
    ensures FromRegistry(answers.Rule().value)
    ensures answers.resolved.Some? && answers.resolved.value.image == Some(answers.Rule().value.imageName)
  {
  }

  /** What the engine tracks, whether it is shutting down, and the processes it acts on. */
  datatype World = World(applied: Applied, shuttingDown: bool, os: OsState)

  // ---------------------------------------------------------------- frames

  function NewWrites(before: OsState, after: OsState): seq<Write> {
    if |before.writes| <= |after.writes| then after.writes[|before.writes|..] else []
  }

  /** Setter calls are only added, all of them on instances of `keys`. */
  ghost predicate WritesWithin(before: OsState, after: OsState, keys: iset<ProcessKey>) {
    before.writes <= after.writes && forall w :: w in NewWrites(before, after) ==> w.target in keys
  }

  /** Every process outside `keys` is as it was. */
  ghost predicate ChangesWithin(before: OsState, after: OsState, keys: iset<ProcessKey>) {
    && before.processes.Keys == after.processes.Keys
    && forall k :: k in before.processes && k !in keys ==> after.processes[k] == before.processes[k]
  }

  ghost predicate Touches(before: OsState, after: OsState, keys: iset<ProcessKey>) {
    WritesWithin(before, after, keys) && ChangesWithin(before, after, keys)
  }

  lemma NewWritesAdd(a: OsState, b: OsState, c: OsState)
    requires a.writes <= b.writes <= c.writes
    ensures NewWrites(a, c) == NewWrites(a, b) + NewWrites(b, c)
  {
  }

  lemma WritesTogether(a: OsState, b: OsState, c: OsState, first: iset<ProcessKey>, second: iset<ProcessKey>,
                       all: iset<ProcessKey>)
    requires WritesWithin(a, b, first) && WritesWithin(b, c, second) && first <= all && second <= all
    ensures WritesWithin(a, c, all)
  {
    NewWritesAdd(a, b, c);
  }

  /** Frames compose. */
  lemma TouchesTogether(a: OsState, b: OsState, c: OsState, first: iset<ProcessKey>, second: iset<ProcessKey>,
                        all: iset<ProcessKey>)
    requires Touches(a, b, first) && Touches(b, c, second) && first <= all && second <= all
    ensures Touches(a, c, all)
  {
    WritesTogether(a, b, c, first, second, all);
  }

  lemma Untouched(os: OsState, keys: iset<ProcessKey>)
    ensures Touches(os, os, keys)
  {
  }

  // ---------------------------------------------------------------- stored policies

  /** An entry whose policy is a resolution of the rule its signature was taken from. */
  ghost predicate SoundEntry(e: Entry, topology: seq<Cpu.CpuSetEntry>) {
    exists rule, profile ::
      FromRegistry(rule) && e.signature == SignatureOf(rule, profile) && IsResolution(rule, topology, e.policy)
  }

  ghost predicate Sound(applied: Applied, topology: seq<Cpu.CpuSetEntry>) {
    forall k :: k in applied ==> SoundEntry(applied[k], topology)
  }

  /** On a fixed topology an entry with the signature of `rule` holds the policy `rule` resolves to now. */
  lemma CachedPolicyIsFresh(e: Entry, topology: seq<Cpu.CpuSetEntry>, rule: ProcessRule, profile: Power.ProfileSnapshot)
    requires SoundEntry(e, topology) && FromRegistry(rule) && e.signature == SignatureOf(rule, profile)
    ensures IsResolution(rule, topology, e.policy)
  {
    hide IsResolution, FromRegistry;
    var r, p :| FromRegistry(r) && e.signature == SignatureOf(r, p) && IsResolution(r, topology, e.policy);
    SignatureDeterminesRule(r, rule, p, profile);
  }

  /**
   An observation after at least one and fewer than 2^56 profile changes never takes the shortcut: the
   signatures differ whatever the rules.
   */
  lemma ChangedProfileIsSeen(requests: map<Power.Caller, Power.PowerProfile>, moves: seq<Power.Move>, s: Power.State,
                             later: seq<Power.Move>, t: Power.State, earlier: ProcessRule, rule: ProcessRule)
    requires Power.Run(Power.Init(requests), moves, s) && Power.Run(s, later, t)
    requires 0 < |t.changes| - |s.changes| < Power.GENERATIONS
    ensures SignatureOf(earlier, Power.Unpack(s.word)) != SignatureOf(rule, Power.Unpack(t.word))
  {
    hide Power.Run;
    Power.LaterSnapshotDiffers(requests, moves, s, later, t);
  }

  predicate Carries(e: Entry, rule: ProcessRule, profile: Power.ProfileSnapshot, policy: Policy) {
    e.signature == SignatureOf(rule, profile) && e.policy == policy
  }

  lemma SoundUpdate(applied: Applied, topology: seq<Cpu.CpuSetEntry>, key: ProcessKey, rule: ProcessRule,
                    profile: Power.ProfileSnapshot, policy: Policy)
    requires Sound(applied, topology) && FromRegistry(rule) && IsResolution(rule, topology, policy)
    ensures forall e :: Carries(e, rule, profile, policy) ==> Sound(applied[key := e], topology)
  {
    hide IsResolution, FromRegistry;
    forall e | Carries(e, rule, profile, policy) ensures Sound(applied[key := e], topology) {
      assert SoundEntry(e, topology);
    }
  }

  lemma SoundSubset(applied: Applied, gone: set<ProcessKey>, topology: seq<Cpu.CpuSetEntry>)
    requires Sound(applied, topology)
    ensures Sound(applied - gone, topology)
  {
    hide SoundEntry;
  }

  // ---------------------------------------------------------------- one application

  /** The application concerns an instance: not the service itself, resolved, as expected, with a usable name. */
  predicate Accepts(processId: nat, self: nat, expected: Option<ProcessKey>, answers: Answers) {
    && processId != 0 && processId != self
    && answers.resolved.Some?
    && (expected.Some? ==> answers.resolved.value.key == expected.value)
    && answers.resolved.value.image.Some?
  }

  /** Handles denote instances that exist. */
  predicate AnswersOk(answers: Answers, keys: set<ProcessKey>) {
    answers.resolved.Some? ==> answers.resolved.value.key in keys
  }

  /** Every configured component of `key` has been attempted once, and nothing else has been touched. */
  ghost predicate Enforced(key: ProcessKey, policy: Policy, faults: Faults, before: OsState, after: OsState) {
    && Touches(before, after, iset{key}) && key in before.processes
    && IsRepair(key, policy, ALL_DRIFTED, faults, before.processes[key], after.processes[key], NewWrites(before, after))
  }

  /** An observation of an instance whose entry already has this signature. */
  predicate Shortcut(applied: Applied, key: ProcessKey, signature: Signature, intent: Intent) {
    intent == Observe && key in applied && applied[key].enforcing && applied[key].signature == signature
  }

  /** The setter calls of an application: none for an unchanged observation, otherwise the whole policy. */
  ghost predicate PolicySet(before: World, after: OsState, key: ProcessKey, rule: ProcessRule,
                            profile: Power.ProfileSnapshot, intent: Intent, faults: Faults,
                            topology: seq<Cpu.CpuSetEntry>, policy: Policy) {
    && IsResolution(rule, topology, policy)
    && if Shortcut(before.applied, key, SignatureOf(rule, profile), intent) then after == before.os
       else Enforced(key, policy, faults, before.os, after)
  }

  /** The map after `rule` has been applied to `key`: its entry follows the rule, everything else is as before. */
  ghost predicate EntryFollows(before: Applied, after: Applied, key: ProcessKey, image: string, rule: ProcessRule,
                               profile: Power.ProfileSnapshot) {
    && key in after && after == before[key := after[key]]
    && after[key].signature == SignatureOf(rule, profile)
    && after[key].enforcing
    && after[key].checks == (if key in before then before[key].checks else 0)
    && after[key].image == (if key in before then before[key].image else image)
  }

  /** What applying `rule` to `key` does; an instance that is new and cannot be watched is not tracked. */
  ghost predicate RuleApplied(before: World, after: World, key: ProcessKey, image: string, rule: ProcessRule,
                              profile: Power.ProfileSnapshot, intent: Intent, answers: Answers,
                              topology: seq<Cpu.CpuSetEntry>) {
    && after.shuttingDown == before.shuttingDown
    && if key in before.applied || answers.watchOk then
         && EntryFollows(before.applied, after.applied, key, image, rule, profile)
         && PolicySet(before, after.os, key, rule, profile, intent, answers.faults, topology, after.applied[key].policy)
       else
         && after.applied == before.applied
         && exists policy :: PolicySet(before, after.os, key, rule, profile, intent, answers.faults, topology, policy)
  }

  /** What an accepted application does, and its result. */
  ghost predicate InstanceApplied(before: World, after: World, intent: Intent, answers: Answers,
                                  profile: Power.ProfileSnapshot, topology: seq<Cpu.CpuSetEntry>,
                                  result: Option<ProcessKey>)
    requires answers.resolved.Some? && answers.resolved.value.image.Some?
  {
    var key := answers.resolved.value.key;
    match answers.Rule()
    case None => after == before.(applied := before.applied - {key}) && result == Some(key)
    case Some(rule) =>
      && RuleApplied(before, after, key, answers.resolved.value.image.value, rule, profile, intent, answers, topology)
      && result == if key in after.applied then Some(key) else None
  }

  /** What any application does: nothing at all unless it is accepted. */
  ghost predicate Application(before: World, after: World, processId: nat, self: nat, expected: Option<ProcessKey>,
                              intent: Intent, answers: Answers, profile: Power.ProfileSnapshot,
                              topology: seq<Cpu.CpuSetEntry>, result: Option<ProcessKey>) {
    if Accepts(processId, self, expected, answers) then
      InstanceApplied(before, after, intent, answers, profile, topology, result)
    else after == before && result == None
  }

  /** The instances an application may act on: the resolved one, if a rule is selected for it. */
  ghost function Target(processId: nat, self: nat, expected: Option<ProcessKey>, answers: Answers): iset<ProcessKey> {
    if Accepts(processId, self, expected, answers) && answers.Rule().Some? then iset{answers.resolved.value.key}
    else iset{}
  }

  lemma EnforcedKeepsKeys(key: ProcessKey, policy: Policy, faults: Faults, before: OsState, after: OsState)
    requires Enforced(key, policy, faults, before, after)
    ensures after.processes.Keys == before.processes.Keys
  {
  }

  /** A rule that has been applied tracks its instance, unless it is new and cannot be watched. */
  lemma AppliedTracks(before: World, after: World, key: ProcessKey, image: string, rule: ProcessRule,
                      profile: Power.ProfileSnapshot, intent: Intent, answers: Answers, topology: seq<Cpu.CpuSetEntry>)
    requires RuleApplied(before, after, key, image, rule, profile, intent, answers, topology)
    ensures key in after.applied <==> key in before.applied || answers.watchOk
  {
    hide PolicySet;
  }

  lemma PolicySetTouches(before: World, after: OsState, key: ProcessKey, rule: ProcessRule,
                         profile: Power.ProfileSnapshot, intent: Intent, faults: Faults,
                         topology: seq<Cpu.CpuSetEntry>, policy: Policy)
    requires PolicySet(before, after, key, rule, profile, intent, faults, topology, policy)
    ensures Touches(before.os, after, iset{key})
  {
    hide IsResolution, IsRepair;
  }

  /** Instance safety of one application: no setter call on, and no change of, any but the resolved instance. */
  lemma ApplicationTouches(before: World, after: World, processId: nat, self: nat, expected: Option<ProcessKey>,
                           intent: Intent, answers: Answers, profile: Power.ProfileSnapshot,
                           topology: seq<Cpu.CpuSetEntry>, result: Option<ProcessKey>)
    requires Application(before, after, processId, self, expected, intent, answers, profile, topology, result)
    ensures Touches(before.os, after.os, Target(processId, self, expected, answers))
    ensures forall k :: !(Accepts(processId, self, expected, answers) && k == answers.resolved.value.key) ==>
              (k in after.applied <==> k in before.applied) &&
              (k in after.applied ==> after.applied[k] == before.applied[k])
  {
    hide PolicySet, Answers.Rule, SignatureOf;
    if Accepts(processId, self, expected, answers) && answers.Rule().Some? {
      var key, rule := answers.resolved.value.key, answers.Rule().value;
      if key in before.applied || answers.watchOk {
        PolicySetTouches(before, after.os, key, rule, profile, intent, answers.faults, topology,
                         after.applied[key].policy);
      } else {
        var policy :|
          PolicySet(before, after.os, key, rule, profile, intent, answers.faults, topology, policy);
        PolicySetTouches(before, after.os, key, rule, profile, intent, answers.faults, topology, policy);
      }
    }
  }

  /** The application is about an instance: `key` under the name `image`, as expected, and not the service itself. */
  predicate IsAbout(processId: nat, self: nat, expected: Option<ProcessKey>, answers: Answers, key: ProcessKey,
                    image: string) {
    && processId != 0 && processId != self
    && answers.resolved == Some(Resolved(key, Some(image)))
    && (expected == None || expected == Some(key))
  }

  /** Only an application that is about an instance does anything; one to the service itself never is. */
  lemma OthersAreLeftAlone(before: World, after: World, processId: nat, self: nat, expected: Option<ProcessKey>,
                           intent: Intent, answers: Answers, profile: Power.ProfileSnapshot,
                           topology: seq<Cpu.CpuSetEntry>, result: Option<ProcessKey>)
    requires Application(before, after, processId, self, expected, intent, answers, profile, topology, result)
    ensures after != before || result.Some? ==>
              exists key, image :: IsAbout(processId, self, expected, answers, key, image)
  {
    hide InstanceApplied;
    if after != before || result.Some? {
      var r := answers.resolved.value;
      assert IsAbout(processId, self, expected, answers, r.key, r.image.value);
    }
  }

  /**
   What the registry says about an instance is what becomes of it: without a valid policy it is not tracked and no
   setter is called; with one it is tracked, if it can be watched, with the mode and affinity of the registry, and
   unless its entry was unchanged its process conforms to what they resolve to.
   */
  lemma RegistryDecides(before: World, after: World, processId: nat, self: nat, expected: Option<ProcessKey>,
                        intent: Intent, answers: Answers, profile: Power.ProfileSnapshot,
                        topology: seq<Cpu.CpuSetEntry>, result: Option<ProcessKey>, key: ProcessKey, image: string)
    requires Application(before, after, processId, self, expected, intent, answers, profile, topology, result)
    requires IsAbout(processId, self, expected, answers, key, image)
    ensures answers.registry == None ==> after == before.(applied := before.applied - {key}) && result == Some(key)
    ensures answers.registry.Some? ==>
              var made := MakeRule(image, answers.registry.value.mode, answers.registry.value.affinity);
              match made
              case Err(_) => after == before.(applied := before.applied - {key}) && result == Some(key)
              case Ok(rule) =>
                && result == (if key in after.applied then Some(key) else None)
                && (key in after.applied <==> key in before.applied || answers.watchOk)
                && (key in after.applied ==>
                      after.applied[key].signature == SignatureOf(rule, profile) &&
                      IsResolution(rule, topology, after.applied[key].policy))
                && (key in after.applied && answers.faults.change == {} &&
                    (intent == Force || key !in before.applied ||
                     before.applied[key].signature != SignatureOf(rule, profile)) ==>
                      key in after.os.processes && FullyConforms(after.applied[key].policy, after.os.processes[key]))
  {
    hide MakeRule, IsResolution, SignatureOf;
    var rule := answers.Rule();
    if rule.Some? && key in after.applied {
      AppliedTracks(before, after, key, image, rule.value, profile, intent, answers, topology);
      var policy := after.applied[key].policy;
      if !Shortcut(before.applied, key, SignatureOf(rule.value, profile), intent) && answers.faults.change == {} {
        EnforcedConforms(key, policy, answers.faults, before.os, after.os);
      }
    }
  }

  lemma EnforcedConforms(key: ProcessKey, policy: Policy, faults: Faults, before: OsState, after: OsState)
    requires Enforced(key, policy, faults, before, after) && faults.change == {}
    ensures key in after.processes && FullyConforms(policy, after.processes[key])
  {
    forall c | Configured(policy, c) ensures Conforms(policy, after.processes[key], c) {
      assert ALL_DRIFTED.Has(c);
      assert Attempts(policy, ALL_DRIFTED, c);
    }
  }

  // ---------------------------------------------------------------- full reconciliation

  /** One process of the enumeration, with what resolving and applying it meets. */
  datatype Sighting = Sighting(processId: nat, answers: Answers, profile: Power.ProfileSnapshot)

  predicate SightingsOk(enumeration: seq<Sighting>, keys: set<ProcessKey>) {
    forall i :: 0 <= i < |enumeration| ==> AnswersOk(enumeration[i].answers, keys)
  }

  /** Every announcement of an insertion sets its event. */
  predicate AllAnnounced(enumeration: seq<Sighting>) {
    forall i :: 0 <= i < |enumeration| ==> enumeration[i].answers.eventOk
  }

  predicate AcceptedAs(sighting: Sighting, self: nat, key: ProcessKey) {
    Accepts(sighting.processId, self, None, sighting.answers) && sighting.answers.resolved.value.key == key
  }

  /** The sighting resolved to `key` and found a rule for it. */
  predicate GovernedAs(sighting: Sighting, self: nat, key: ProcessKey) {
    AcceptedAs(sighting, self, key) && sighting.answers.Rule().Some?
  }

  predicate SomeGoverns(seen: seq<Sighting>, self: nat, key: ProcessKey) {
    exists i :: 0 <= i < |seen| && GovernedAs(seen[i], self, key)
  }

  /** The instances an enumeration may act on. */
  ghost function Governed(seen: seq<Sighting>, self: nat): iset<ProcessKey> {
    iset k | SomeGoverns(seen, self, k)
  }

  /** The last sighting that resolved to `key` under a usable image name. */
  function LastAccepted(seen: seq<Sighting>, self: nat, key: ProcessKey): Option<Sighting> {
    if seen == [] then None
    else if AcceptedAs(seen[|seen| - 1], self, key) then Some(seen[|seen| - 1])
    else LastAccepted(seen[..|seen| - 1], self, key)
  }

  /** Some sighting of `key` found no rule for it. */
  predicate Refused(seen: seq<Sighting>, self: nat, key: ProcessKey) {
    exists i :: 0 <= i < |seen| && AcceptedAs(seen[i], self, key) && seen[i].answers.Rule().None?
  }

  /** The enumeration selects `key`: its last accepted sighting has a readable rule. */
  predicate Selected(seen: seq<Sighting>, self: nat, key: ProcessKey) {
    LastAccepted(seen, self, key).Some? && LastAccepted(seen, self, key).value.answers.Rule().Some?
  }

  ghost predicate Agrees(e: Entry, sighting: Sighting, topology: seq<Cpu.CpuSetEntry>) {
    && sighting.answers.Rule().Some?
    && e.signature == SignatureOf(sighting.answers.Rule().value, sighting.profile)
    && IsResolution(sighting.answers.Rule().value, topology, e.policy)
  }

  /** The image of an entry is the one it was tracked with, or one under which it has been sighted. */
  predicate ImageKnown(before: Applied, seen: seq<Sighting>, self: nat, k: ProcessKey, image: string) {
    || (k in before && before[k].image == image)
    || exists i :: 0 <= i < |seen| && AcceptedAs(seen[i], self,
                                                 k) && seen[i].answers.resolved.value.image == Some(image)
  }

  /** Every configured component whose setter works has the configured value. */
  predicate InLine(policy: Policy, faults: Faults, state: ProcessState) {
    forall c :: Configured(policy, c) && c !in faults.change ==> Conforms(policy, state, c)
  }

  predicate AllAttempted(policy: Policy, writes: seq<Write>, key: ProcessKey) {
    forall c :: Configured(policy, c) ==> Attempted(writes, key, c)
  }

  /** Since `start`, `policy` has been set on `k` in full, and it is the policy of its entry if it has one. */
  ghost predicate InForce(start: OsState, now: World, k: ProcessKey, faults: Faults, policy: Policy) {
    && (k in now.applied ==> now.applied[k].policy == policy)
    && k in now.os.processes && InLine(policy, faults, now.os.processes[k])
    && AllAttempted(policy, NewWrites(start, now.os), k)
  }

  /** The rule of the sighting has been forced on its instance. */
  ghost predicate RuleInForce(start: OsState, now: World, k: ProcessKey, sighting: Sighting,
                              topology: seq<Cpu.CpuSetEntry>)
    requires sighting.answers.Rule().Some?
  {
    exists policy ::
      IsResolution(sighting.answers.Rule().value, topology, policy) &&
      InForce(start, now, k, sighting.answers.faults, policy)
  }

  /**
   What a full reconciliation leaves of one instance.  It is tracked only if the enumeration selects it, and
   then certainly if it could be watched; its entry follows the rule of its last sighting, and that
   rule has been forced on the process; an instance that was tracked before and never refused
   keeps its check counter and image, and any other one starts counting anew.
   */
  ghost predicate ReconciledAt(before: World, after: World, enumeration: seq<Sighting>, self: nat,
                               topology: seq<Cpu.CpuSetEntry>, k: ProcessKey) {
    var last := LastAccepted(enumeration, self, k);
    && (k in after.applied ==> Selected(enumeration, self, k))
    && (Selected(enumeration, self, k) && last.value.answers.watchOk ==> k in after.applied)
    && (k in after.applied ==>
          Agrees(after.applied[k], last.value, topology) &&
          ImageKnown(before.applied, enumeration, self, k, after.applied[k].image))
    && (k in before.applied && Selected(enumeration, self, k) && !Refused(enumeration, self, k) ==>
          k in after.applied && after.applied[k].checks == before.applied[k].checks &&
          after.applied[k].image == before.applied[k].image)
    && (k in after.applied && (k !in before.applied || Refused(enumeration, self, k)) ==> after.applied[k].checks == 0)
    && (Selected(enumeration, self, k) ==> RuleInForce(before.os, after, k, last.value, topology))
  }

  /** What a full reconciliation leaves; it acts on no instance for which the enumeration found no rule. */
  ghost predicate Reconciled(before: World, after: World, enumeration: seq<Sighting>, self: nat,
                             topology: seq<Cpu.CpuSetEntry>) {
    && after.shuttingDown == before.shuttingDown
    && Touches(before.os, after.os, Governed(enumeration, self))
    && forall k :: ReconciledAt(before, after, enumeration, self, topology, k)
  }

  /** Without setter failures a full reconciliation leaves every tracked process fully conforming. */
  lemma ReconciliationConforms(before: World, after: World, enumeration: seq<Sighting>, self: nat,
                               topology: seq<Cpu.CpuSetEntry>)
    requires Reconciled(before, after, enumeration, self, topology)
    requires forall i :: 0 <= i < |enumeration| ==> enumeration[i].answers.faults.change == {}
    ensures forall k :: k in after.applied ==>
              k in after.os.processes && FullyConforms(after.applied[k].policy, after.os.processes[k])
  {
    hide IsResolution, Answers.Rule;
    forall k | k in after.applied
      ensures k in after.os.processes && FullyConforms(after.applied[k].policy, after.os.processes[k])
    {
      assert ReconciledAt(before, after, enumeration, self, topology, k);
      LastIsSeen(enumeration, self, k);
    }
  }

  lemma {:induction false} LastIsSeen(seen: seq<Sighting>, self: nat, k: ProcessKey)
    requires LastAccepted(seen, self, k).Some?
    ensures exists i :: 0 <= i < |seen| && seen[i] == LastAccepted(seen, self, k).value
    ensures AcceptedAs(LastAccepted(seen, self, k).value, self, k)
  {
    if AcceptedAs(seen[|seen| - 1], self, k) {
      assert seen[|seen| - 1] == LastAccepted(seen, self, k).value;
    } else {
      LastIsSeen(seen[..|seen| - 1], self, k);
    }
  }

  /** Nothing else is tracked afterwards than what the enumeration found a rule for. */
  lemma ReconciledTracks(before: World, after: World, seen: seq<Sighting>, self: nat, topology: seq<Cpu.CpuSetEntry>)
    requires Reconciled(before, after, seen, self, topology)
    ensures forall k :: k in after.applied ==> k in Governed(seen, self)
  {
    hide Answers.Rule, Touches, LastAccepted, Agrees, RuleInForce;
    forall k | k in after.applied ensures k in Governed(seen, self) {
      assert ReconciledAt(before, after, seen, self, topology, k);
      LastIsSeen(seen, self, k);
    }
  }

  /** The sighting shows `k` under a usable name, and not as the service itself. */
  predicate Shows(sighting: Sighting, self: nat, k: ProcessKey) {
    && sighting.processId != 0 && sighting.processId != self
    && sighting.answers.resolved.Some? && sighting.answers.resolved.value.key == k
    && sighting.answers.resolved.value.image.Some?
  }

  /** Sighting `i` is the last that shows `k`. */
  predicate ShownLast(seen: seq<Sighting>, self: nat, k: ProcessKey, i: int) {
    0 <= i < |seen| && Shows(seen[i], self, k) && forall j :: i < j < |seen| ==> !Shows(seen[j], self, k)
  }

  lemma {:induction false} LastIsShownLast(seen: seq<Sighting>, self: nat, k: ProcessKey, i: int)
    requires ShownLast(seen, self, k, i)
    ensures LastAccepted(seen, self, k) == Some(seen[i])
    decreases |seen|
  {
    var n := |seen| - 1;
    if i < n {
      assert !Shows(seen[n], self, k);
      LastIsShownLast(seen[..n], self, k, i);
    }
  }

  lemma {:induction false} ShownLastExists(seen: seq<Sighting>, self: nat, k: ProcessKey) returns (i: int)
    requires LastAccepted(seen, self, k).Some?
    ensures ShownLast(seen, self, k, i)
    decreases |seen|
  {
    i := |seen| - 1;
    if !AcceptedAs(seen[i], self, k) {
      var n := i;
      i := ShownLastExists(seen[..n], self, k);
      assert seen[..n][i] == seen[i];
    }
  }

  /** Every sighting that shows `k` found a valid policy. */
  predicate NeverWithoutRule(seen: seq<Sighting>, self: nat, k: ProcessKey) {
    forall i :: 0 <= i < |seen| && Shows(seen[i], self, k) ==> seen[i].answers.Rule().Some?
  }

  /**
   A full reconciliation in terms of sightings: an instance is tracked afterwards exactly when the last sighting that
   shows it found a valid policy, unless it is new and could not be watched; its entry follows that policy, and one that
   was tracked before and always found a policy keeps its image and its checks.
   */
  lemma LastSightingDecides(before: World, after: World, seen: seq<Sighting>, self: nat,
                            topology: seq<Cpu.CpuSetEntry>)
    requires Reconciled(before, after, seen, self, topology)
    ensures forall k :: k in after.applied ==>
              exists i ::
                ShownLast(seen, self, k, i) && seen[i].answers.Rule().Some? &&
                after.applied[k].signature == SignatureOf(seen[i].answers.Rule().value, seen[i].profile) &&
                IsResolution(seen[i].answers.Rule().value, topology, after.applied[k].policy)
    ensures forall k, i :: ShownLast(seen, self, k, i) && seen[i].answers.Rule().Some? && seen[i].answers.watchOk ==>
              k in after.applied
    ensures forall k, i :: ShownLast(seen, self, k, i) && k in before.applied && NeverWithoutRule(seen, self, k) ==>
              k in after.applied && after.applied[k].checks == before.applied[k].checks &&
              after.applied[k].image == before.applied[k].image
  {
    hide Touches, IsResolution, Answers.Rule, RuleInForce, ImageKnown, Refused, LastAccepted, SignatureOf;
    forall k | k in after.applied
      ensures exists i ::
                ShownLast(seen, self, k, i) && seen[i].answers.Rule().Some? &&
                after.applied[k].signature == SignatureOf(seen[i].answers.Rule().value, seen[i].profile) &&
                IsResolution(seen[i].answers.Rule().value, topology, after.applied[k].policy)
    {
      assert ReconciledAt(before, after, seen, self, topology, k);
      var i := ShownLastExists(seen, self, k);
      LastIsShownLast(seen, self, k, i);
    }
    forall k, i | ShownLast(seen, self, k, i) && seen[i].answers.Rule().Some? && seen[i].answers.watchOk
      ensures k in after.applied
    {
      assert ReconciledAt(before, after, seen, self, topology, k);
      LastIsShownLast(seen, self, k, i);
    }
    forall k, i | ShownLast(seen, self, k, i) && k in before.applied && NeverWithoutRule(seen, self, k)
      ensures k in after.applied && after.applied[k].checks == before.applied[k].checks &&
              after.applied[k].image == before.applied[k].image
    {
      assert ReconciledAt(before, after, seen, self, topology, k);
      LastIsShownLast(seen, self, k, i);
      assert Shows(seen[i], self, k);
      NeverRefused(seen, self, k);
    }
  }

  lemma NeverRefused(seen: seq<Sighting>, self: nat, k: ProcessKey)
    requires NeverWithoutRule(seen, self, k)
    ensures !Refused(seen, self, k)
  {
    hide Answers.Rule;
    forall i | 0 <= i < |seen| && AcceptedAs(seen[i], self, k) ensures seen[i].answers.Rule().Some? {
      assert Shows(seen[i], self, k);
    }
  }

  /** The same, part way through the enumeration, before the unobserved keys are removed. */
  ghost predicate Progress(before: World, now: World, observed: set<ProcessKey>, seen: seq<Sighting>, self: nat,
                           topology: seq<Cpu.CpuSetEntry>) {
    && now.shuttingDown == before.shuttingDown
    && Touches(before.os, now.os, Governed(seen, self))
    && forall k :: ProgressAt(before, now, observed, seen, self, topology, k)
  }

  ghost predicate ProgressAt(before: World, now: World, observed: set<ProcessKey>, seen: seq<Sighting>, self: nat,
                             topology: seq<Cpu.CpuSetEntry>, k: ProcessKey) {
    EntryProgress(before.applied, now.applied, observed, seen, self, topology, k) &&
    (Selected(seen, self, k) ==> RuleInForce(before.os, now, k, LastAccepted(seen, self, k).value, topology))
  }

  ghost predicate EntryProgress(before: Applied, now: Applied, observed: set<ProcessKey>, seen: seq<Sighting>,
                                self: nat, topology: seq<Cpu.CpuSetEntry>, k: ProcessKey) {
    var last := LastAccepted(seen, self, k);
    && (k in observed ==> last.Some?)
    && (last.None? ==> (k in now <==> k in before) && (k in now ==> now[k] == before[k]))
    && (last.Some? && k in now ==> Agrees(now[k], last.value, topology) && k in observed)
    && (last.Some? && last.value.answers.Rule().Some? && last.value.answers.watchOk ==> k in now)
    && (k in now ==> ImageKnown(before, seen, self, k, now[k].image))
    && (k in before && !Refused(seen, self, k) ==>
          k in now && now[k].checks == before[k].checks && now[k].image == before[k].image)
    && (k in now && (k !in before || Refused(seen, self, k)) ==> now[k].checks == 0)
  }

  lemma NothingSeen(before: World, self: nat, topology: seq<Cpu.CpuSetEntry>)
    ensures Progress(before, before, {}, [], self, topology)
  {
    forall k ensures ProgressAt(before, before, {}, [], self, topology, k) {
    }
  }

  lemma LastOfMore(seen: seq<Sighting>, sighting: Sighting, self: nat, k: ProcessKey)
    ensures LastAccepted(seen + [sighting], self, k) ==
            if AcceptedAs(sighting, self, k) then Some(sighting) else LastAccepted(seen, self, k)
    ensures Refused(seen + [sighting], self, k) <==>
              Refused(seen, self, k) || (AcceptedAs(sighting, self, k) && sighting.answers.Rule().None?)
  {
    hide AcceptedAs, Answers.Rule;
    var more := seen + [sighting];
    assert more[..|more| - 1] == seen;
    if Refused(seen, self, k) {
      var i :| 0 <= i < |seen| && AcceptedAs(seen[i], self, k) && seen[i].answers.Rule().None?;
      assert more[i] == seen[i];
    }
    if AcceptedAs(sighting, self, k) && sighting.answers.Rule().None? { assert more[|seen|] == sighting; }
  }

  lemma ImageStaysKnown(before: Applied, seen: seq<Sighting>, sighting: Sighting, self: nat, k: ProcessKey,
                        image: string)
    ensures ImageKnown(before, seen, self, k, image) ==> ImageKnown(before, seen + [sighting], self, k, image)
    ensures AcceptedAs(sighting, self, k) && sighting.answers.resolved.value.image == Some(image) ==>
              ImageKnown(before, seen + [sighting], self, k, image)
  {
    hide AcceptedAs;
    var more := seen + [sighting];
    assert more[|seen|] == sighting && forall i :: 0 <= i < |seen| ==> more[i] == seen[i];
  }

  lemma GovernedGrows(seen: seq<Sighting>, sighting: Sighting, self: nat)
    ensures Governed(seen, self) <= Governed(seen + [sighting], self)
    ensures Target(sighting.processId, self, None, sighting.answers) <= Governed(seen + [sighting], self)
  {
    hide Answers.Rule;
    var more := seen + [sighting];
    assert more[|seen|] == sighting && forall i :: 0 <= i < |seen| ==> more[i] == seen[i];
  }

  /** One more sighting, as the map sees it. */
  lemma EntryStep(before: World, now: World, observed: set<ProcessKey>, seen: seq<Sighting>, self: nat,
                  topology: seq<Cpu.CpuSetEntry>, sighting: Sighting, next: World, result: Option<ProcessKey>,
                  k: ProcessKey)
    requires EntryProgress(before.applied, now.applied, observed, seen, self, topology, k)
    requires Application(now, next, sighting.processId, self, None, Force, sighting.answers, sighting.profile,
                         topology, result)
    ensures EntryProgress(before.applied, next.applied, if result.Some? then observed + {result.value} else observed,
                          seen + [sighting], self, topology, k)
  {
    hide IsResolution, LastAccepted, Refused, ImageKnown, Enforced, Answers.Rule, SignatureOf;
    LastOfMore(seen, sighting, self, k);
    if k in next.applied { ImageStaysKnown(before.applied, seen, sighting, self, k, next.applied[k].image); }
  }

  /** A rule in force stays in force while others are acted on. */
  lemma StaysInForce(start: OsState, now: World, next: World, k: ProcessKey, sighting: Sighting,
                     topology: seq<Cpu.CpuSetEntry>, keys: iset<ProcessKey>)
    requires sighting.answers.Rule().Some? && RuleInForce(start, now, k, sighting, topology)
    requires start.writes <= now.os.writes && Touches(now.os, next.os, keys) && k !in keys
    requires k in next.applied ==> k in now.applied && next.applied[k] == now.applied[k]
    ensures RuleInForce(start, next, k, sighting, topology)
  {
    hide IsResolution, Answers.Rule, InLine;
    NewWritesAdd(start, now.os, next.os);
    var policy :| IsResolution(sighting.answers.Rule().value, topology, policy) &&
                  InForce(start, now, k, sighting.answers.faults, policy);
    assert InForce(start, next, k, sighting.answers.faults, policy);
  }

  lemma EnforcedIsInForce(start: OsState, now: World, next: World, key: ProcessKey, faults: Faults, policy: Policy)
    requires start.writes <= now.os.writes && Enforced(key, policy, faults, now.os, next.os)
    requires key in next.applied ==> next.applied[key].policy == policy
    ensures InForce(start, next, key, faults, policy)
  {
    NewWritesAdd(start, now.os, next.os);
    forall c | Configured(policy, c)
      ensures Attempted(NewWrites(start, next.os), key, c)
      ensures c !in faults.change ==> Conforms(policy, next.os.processes[key], c)
    {
      assert ALL_DRIFTED.Has(c);
      assert Attempts(policy, ALL_DRIFTED, c);
    }
  }

  /** A forced application puts its rule in force. */
  lemma ForcedIsInForce(start: OsState, now: World, next: World, self: nat, sighting: Sighting,
                        topology: seq<Cpu.CpuSetEntry>, result: Option<ProcessKey>)
    requires Accepts(sighting.processId, self, None, sighting.answers) && sighting.answers.Rule().Some?
    requires InstanceApplied(now, next, Force, sighting.answers, sighting.profile, topology, result)
    requires start.writes <= now.os.writes
    ensures RuleInForce(start, next, sighting.answers.resolved.value.key, sighting, topology)
  {
    hide IsResolution, Answers.Rule, Enforced, InForce, SignatureOf;
    var key, rule, answers := sighting.answers.resolved.value.key, sighting.answers.Rule().value, sighting.answers;
    if key in now.applied || answers.watchOk {
      EnforcedIsInForce(start, now, next, key, answers.faults, next.applied[key].policy);
    } else {
      var policy :| PolicySet(now, next.os, key, rule, sighting.profile, Force, answers.faults, topology, policy);
      EnforcedIsInForce(start, now, next, key, answers.faults, policy);
    }
  }

  lemma ForceStep(before: World, now: World, observed: set<ProcessKey>, seen: seq<Sighting>, self: nat,
                  topology: seq<Cpu.CpuSetEntry>, sighting: Sighting, next: World, result: Option<ProcessKey>,
                  k: ProcessKey)
    requires ProgressAt(before, now, observed, seen, self, topology, k) && before.os.writes <= now.os.writes
    requires Application(now, next, sighting.processId, self, None, Force, sighting.answers, sighting.profile,
                         topology, result)
    requires Selected(seen + [sighting], self, k)
    ensures RuleInForce(before.os, next, k, LastAccepted(seen + [sighting], self, k).value, topology)
  {
    LastOfMore(seen, sighting, self, k);
    ApplicationTouches(now, next, sighting.processId, self, None, Force, sighting.answers, sighting.profile,
                       topology, result);
    hide LastAccepted, RuleInForce, Touches, EntryProgress, RuleApplied, Answers.Rule;
    if AcceptedAs(sighting, self, k) {
      ForcedIsInForce(before.os, now, next, self, sighting, topology, result);
    } else {
      var target := Target(sighting.processId, self, None, sighting.answers);
      StaysInForce(before.os, now, next, k, LastAccepted(seen, self, k).value, topology, target);
    }
  }

  lemma ProgressStep(before: World, now: World, observed: set<ProcessKey>, seen: seq<Sighting>, self: nat,
                     topology: seq<Cpu.CpuSetEntry>, sighting: Sighting, next: World, result: Option<ProcessKey>)
    requires Progress(before, now, observed, seen, self, topology)
    requires Application(now, next, sighting.processId, self, None, Force, sighting.answers, sighting.profile,
                         topology, result)
    ensures Progress(before, next, if result.Some? then observed + {result.value} else observed,
                     seen + [sighting], self, topology)
  {
    var observed', more := if result.Some? then observed + {result.value} else observed, seen + [sighting];
    ApplicationTouches(now, next, sighting.processId, self, None, Force, sighting.answers, sighting.profile,
                       topology, result);
    GovernedGrows(seen, sighting, self);
    var target := Target(sighting.processId, self, None, sighting.answers);
    TouchesTogether(before.os, now.os, next.os, Governed(seen, self), target,
                    Governed(more, self));
    assert next.shuttingDown == now.shuttingDown;
    hide Application, EntryProgress, RuleInForce, Selected, LastAccepted, Governed;
    forall k ensures ProgressAt(before, next, observed', more, self, topology, k) {
      assert ProgressAt(before, now, observed, seen, self, topology, k);
      EntryStep(before, now, observed, seen, self, topology, sighting, next, result, k);
      if Selected(more, self, k) {
        ForceStep(before, now, observed, seen, self, topology, sighting, next, result, k);
      }
    }
  }

  lemma ProgressDone(before: World, now: World, observed: set<ProcessKey>, enumeration: seq<Sighting>, self: nat,
                     topology: seq<Cpu.CpuSetEntry>)
    requires Progress(before, now, observed, enumeration, self, topology)
    ensures Reconciled(before, now.(applied := now.applied - (before.applied.Keys - observed)), enumeration, self,
                       topology)
  {
    var after := now.(applied := now.applied - (before.applied.Keys - observed));
    hide IsResolution, LastAccepted, Refused, ImageKnown, Touches, Governed, Answers.Rule;
    forall k ensures ReconciledAt(before, after, enumeration, self, topology, k) {
      assert ProgressAt(before, now, observed, enumeration, self, topology, k);
      if Selected(enumeration, self, k) {
        StillInForce(before.os, now, after, k, LastAccepted(enumeration, self, k).value, topology);
      }
    }
  }

  lemma StillInForce(start: OsState, now: World, after: World, k: ProcessKey, sighting: Sighting,
                     topology: seq<Cpu.CpuSetEntry>)
    requires sighting.answers.Rule().Some? && RuleInForce(start, now, k, sighting, topology)
    requires after.os == now.os && (k in after.applied ==> k in now.applied && after.applied[k] == now.applied[k])
    ensures RuleInForce(start, after, k, sighting, topology)
  {
    hide IsResolution, Answers.Rule, InLine, AllAttempted;
    var policy :| IsResolution(sighting.answers.Rule().value, topology, policy) &&
                  InForce(start, now, k, sighting.answers.faults, policy);
    assert InForce(start, after, k, sighting.answers.faults, policy);
  }
}
