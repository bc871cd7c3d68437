/**
 The packed power-profile word and its compare-exchange loop (src/engine.rs, src/power.rs).
 The word holds the profile in its low byte and a change counter in the other 56 bits.
 */
module ProfileState {

  datatype PowerProfile = Efficiency | Balanced | Performance

  datatype ProfileSnapshot = ProfileSnapshot(profile: PowerProfile, generation: nat)

  const WORD: nat := 0x1_0000_0000_0000_0000
  const GENERATIONS: nat := 0x100_0000_0000_0000     // 2^56

  function ToU8(profile: PowerProfile): nat {
    match profile
    case Efficiency => 0
    case Balanced => 1
    case Performance => 2
  }

  /** `PowerProfile::from_u8(..).unwrap_or(Balanced)` */
  function FromU8(value: nat): PowerProfile {
    if value == 0 then Efficiency else if value == 2 then Performance else Balanced
  }

  /** `(generation << 8) | profile`: the shift drops the high bits. */
  function Pack(profile: PowerProfile, generation: nat): (word: nat)
    ensures word < WORD
  {
    (generation * 256) % WORD + ToU8(profile)
  }

  function Unpack(word: nat): ProfileSnapshot {
    ProfileSnapshot(FromU8(word % 256), word / 256)
  }

  lemma ShiftedOut(generation: nat)
    ensures (generation * 256) % WORD == (generation % GENERATIONS) * 256
  {
    var q, r := generation / GENERATIONS, generation % GENERATIONS;
    assert generation * 256 == WORD * q + r * 256;
    assert 0 <= r * 256 < WORD;
    RemainderUnique(generation * 256, q, r * 256);
  }

  lemma RemainderUnique(x: nat, q: nat, r: nat)
    requires x == WORD * q + r && r < WORD
    ensures x % WORD == r
  {
  }

  /** Unpacking what was packed gives the profile and the generation modulo 2^56. */
  lemma UnpackPack(profile: PowerProfile, generation: nat)
    ensures Unpack(Pack(profile, generation)) == ProfileSnapshot(profile, generation % GENERATIONS)
  {
    ShiftedOut(generation);
    var r := generation % GENERATIONS;
    assert Pack(profile, generation) == r * 256 + ToU8(profile);
  }

  // ---------------------------------------------------------------- callers of set_power_profile

  type Caller = nat

  datatype Position =
    | Load                                 // about to load the word
    | Try(current: nat)                    // about to compare_exchange_weak(current, next)
    | Done(changed: bool)

  datatype Call = Call(profile: PowerProfile, position: Position)

  /** `changes` is history: the profiles of all successful exchanges, oldest first. */
  datatype State = State(word: nat, callers: map<Caller, Call>, changes: seq<PowerProfile>)

  function Init(requests: map<Caller, PowerProfile>): State {
    State(Pack(Balanced, 0), map c | c in requests :: Call(requests[c], Load), [])
  }

  /** The top of the loop, with `current` just read. */
  function Consider(profile: PowerProfile, current: nat): Position {
    if Unpack(current).profile == profile then Done(false) else Try(current)
  }

  predicate Enabled(s: State, c: Caller) {
    c in s.callers && !s.callers[c].position.Done?
  }

  /** The exchange may fail although the word is unchanged; then `spurious` holds. */
  function Step(s: State, c: Caller, spurious: bool): State
    requires Enabled(s, c)
  {
    var call := s.callers[c];
    match call.position
    case Load =>
      s.(callers := s.callers[c := call.(position := Consider(call.profile, s.word))])
    case Try(current) =>
      if s.word == current && !spurious then
        State(Pack(call.profile, (Unpack(current).generation + 1) % WORD),
              s.callers[c := call.(position := Done(true))],
              s.changes + [call.profile])
      else
        s.(callers := s.callers[c := call.(position := Consider(call.profile, s.word))])
  }

  datatype Move = Move(caller: Caller, spurious: bool)

  predicate Run(s: State, moves: seq<Move>, t: State)
    decreases |moves|
  {
    if moves == [] then s == t
    else Enabled(s, moves[0].caller) && Run(Step(s, moves[0].caller, moves[0].spurious), moves[1..], t)
  }

  function Current(changes: seq<PowerProfile>): PowerProfile {
    if changes == [] then Balanced else changes[|changes| - 1]
  }

  /** No change repeats the profile it replaces. */
  predicate EachChangesSomething(changes: seq<PowerProfile>) {
    forall i :: 0 <= i < |changes| ==> changes[i] != Current(changes[..i])
  }

  ghost function Winners(s: State): set<Caller> {
    set c | c in s.callers && s.callers[c].position == Done(true)
  }

  ghost predicate Inv(s: State) {
    && s.word == Pack(Current(s.changes), |s.changes|)
    && EachChangesSomething(s.changes)
    && |Winners(s)| == |s.changes|
    && forall c :: c in s.callers && s.callers[c].position.Try? ==>
         Unpack(s.callers[c].position.current).profile != s.callers[c].profile
  }

  lemma InitInv(requests: map<Caller, PowerProfile>)
    ensures Inv(Init(requests))
  {
    assert Winners(Init(requests)) == {};
  }

  lemma NextWord(s: State, profile: PowerProfile)
    requires s.word == Pack(Current(s.changes), |s.changes|)
    ensures Pack(profile, (Unpack(s.word).generation + 1) % WORD) == Pack(profile, |s.changes| + 1)
  {
    hide Pack, Unpack;
    UnpackPack(Current(s.changes), |s.changes|);
    NextGeneration(profile, |s.changes|);
  }

  lemma NextGeneration(profile: PowerProfile, n: nat)
    ensures Pack(profile, (n % GENERATIONS + 1) % WORD) == Pack(profile, n + 1)
  {
    var g := n % GENERATIONS;
    assert (g + 1) % WORD == g + 1;
    ShiftedOut(g + 1);
    ShiftedOut(n + 1);
    SuccessorModulo(n);
  }

  lemma SuccessorModulo(n: nat)
    ensures (n % GENERATIONS + 1) % GENERATIONS == (n + 1) % GENERATIONS
  {
  }

  predicate Stores(s: State, c: Caller, spurious: bool)
    requires Enabled(s, c)
  {
    var call := s.callers[c];
    call.position.Try? && s.word == call.position.current && !spurious
  }

  lemma StoreKeepsInv(s: State, c: Caller, spurious: bool)
    requires Inv(s) && Enabled(s, c) && Stores(s, c, spurious)
    ensures Inv(Step(s, c, spurious))
  {
    hide Pack, Unpack;
    var t := Step(s, c, spurious);
    var call := s.callers[c];
    NextWord(s, call.profile);
    UnpackPack(Current(s.changes), |s.changes|);
    assert Winners(t) == Winners(s) + {c};
    forall i | 0 <= i < |t.changes| ensures t.changes[i] != Current(t.changes[..i]) {
      assert t.changes[..i] == s.changes[..i];
      if i == |s.changes| { assert s.changes[..i] == s.changes; }
    }
  }

  lemma RetryKeepsInv(s: State, c: Caller, spurious: bool)
    requires Inv(s) && Enabled(s, c) && !Stores(s, c, spurious)
    ensures Inv(Step(s, c, spurious))
  {
    hide Pack, Unpack, EachChangesSomething;
    assert Winners(Step(s, c, spurious)) == Winners(s);
  }

  lemma StepKeepsInv(s: State, c: Caller, spurious: bool)
    requires Inv(s) && Enabled(s, c)
    ensures Inv(Step(s, c, spurious))
    ensures s.changes <= Step(s, c, spurious).changes
  {
    if Stores(s, c, spurious) {
      StoreKeepsInv(s, c, spurious);
    } else {
      RetryKeepsInv(s, c, spurious);
    }
  }

  lemma {:induction false} RunKeepsInv(s: State, moves: seq<Move>, t: State)
    requires Inv(s) && Run(s, moves, t)
    ensures Inv(t) && s.changes <= t.changes
    decreases |moves|
  {
    if moves == [] {
    } else {
      hide Inv, Step;
      var u := Step(s, moves[0].caller, moves[0].spurious);
      StepKeepsInv(s, moves[0].caller, moves[0].spurious);
      RunKeepsInv(u, moves[1..], t);
    }
  }

  /**
   In every interleaving the word shows the last successful change and the number of successful
   changes modulo 2^56; the calls that returned true are exactly as many as the changes.
   */
  lemma WordCountsChanges(requests: map<Caller, PowerProfile>, moves: seq<Move>, t: State)
    requires Run(Init(requests), moves, t)
    ensures Unpack(t.word) == ProfileSnapshot(Current(t.changes), |t.changes| % GENERATIONS)
    ensures |Winners(t)| == |t.changes| && EachChangesSomething(t.changes)
  {
    InitInv(requests);
    RunKeepsInv(Init(requests), moves, t);
    UnpackPack(Current(t.changes), |t.changes|);
  }

  /** A snapshot taken at least one and fewer than 2^56 changes later has another generation. */
  lemma LaterSnapshotDiffers(requests: map<Caller, PowerProfile>, moves: seq<Move>, s: State, later: seq<Move>,
                             t: State)
    requires Run(Init(requests), moves, s) && Run(s, later, t)
    requires 0 < |t.changes| - |s.changes| < GENERATIONS
    ensures Unpack(s.word).generation != Unpack(t.word).generation
  {
    InitInv(requests);
    RunKeepsInv(Init(requests), moves, s);
    RunKeepsInv(s, later, t);
    UnpackPack(Current(s.changes), |s.changes|);
    UnpackPack(Current(t.changes), |t.changes|);
    CloseNumbersDiffer(|s.changes|, |t.changes|);
  }

  lemma CloseNumbersDiffer(a: nat, b: nat)
    requires 0 < b - a < GENERATIONS
    ensures a % GENERATIONS != b % GENERATIONS
  {
  }

  /** The layout of the word: the profile in the low byte, the generation above it. */
  lemma WordLayout(profile: PowerProfile, generation: nat)
    ensures Pack(profile, generation) / 256 == generation % GENERATIONS
    ensures Pack(profile, generation) % 256 ==
            match profile case Efficiency => 0 case Balanced => 1 case Performance => 2
  {
    ShiftedOut(generation);
    var r := generation % GENERATIONS;
    assert Pack(profile, generation) == r * 256 + ToU8(profile);
  }

  /**
   Every move of a call in a run.  When the call returns, the word shows the profile it asked for.  It returns true
   exactly when its move made that change, of a word that showed another profile; any other move leaves the word alone.
   */
  lemma CallOutcome(requests: map<Caller, PowerProfile>, moves: seq<Move>, s: State, c: Caller, spurious: bool)
    requires Run(Init(requests), moves, s) && Enabled(s, c)
    ensures var t, profile := Step(s, c, spurious), s.callers[c].profile;
            && (t.callers[c].position.Done? ==> Unpack(t.word).profile == profile)
            && (t.callers[c].position == Done(true) ==>
                  t.changes == s.changes + [profile] && Unpack(s.word).profile != profile &&
                  Unpack(t.word).generation == (Unpack(s.word).generation + 1) % GENERATIONS)
            && (t.callers[c].position != Done(true) ==> t.word == s.word && t.changes == s.changes)
            && forall other :: other != c ==> (other in t.callers <==> other in s.callers) &&
                                              (other in s.callers ==> t.callers[other] == s.callers[other])
  {
    InitInv(requests);
    RunKeepsInv(Init(requests), moves, s);
    StepKeepsInv(s, c, spurious);
    var t := Step(s, c, spurious);
    UnpackPack(Current(s.changes), |s.changes|);
    UnpackPack(Current(t.changes), |t.changes|);
    SuccessorModulo(|s.changes|);
    hide Run, Pack, Unpack, EachChangesSomething, Winners;
  }

  // ---------------------------------------------------------------- the code

  class PackedProfile {
    var word: nat
    var calls: map<Caller, Call>
    ghost var changes: seq<PowerProfile>

    ghost function View(): State
      reads this
    {
      State(word, calls, changes)
    }

    constructor (requests: map<Caller, PowerProfile>)
      ensures View() == Init(requests)
    {
      word := Pack(Balanced, 0);
      calls := map c | c in requests :: Call(requests[c], Load);
      changes := [];
    }

    /** compare_exchange_weak: returns the word it found and whether it stored `next`. */
    method CompareExchangeWeak(current: nat, next: nat, spurious: bool) returns (stored: bool, actual: nat)
      modifies this`word
      ensures actual == old(word) && (stored <==> old(word) == current && !spurious)
      ensures word == if stored then next else old(word)
    {
      actual := word;
      stored := word == current && !spurious;
      if stored {
        word := next;
      }
    }

    /** One load or exchange of some call, as the other threads make them. */
    method Advance(c: Caller, spurious: bool)
      requires Enabled(View(), c)
      modifies this
      ensures View() == Step(old(View()), c, spurious)
    {
      var call := calls[c];
      match call.position
      case Load =>
        calls := calls[c := call.(position := Consider(call.profile, word))];
      case Try(current) =>
        var next := Pack(call.profile, (Unpack(current).generation + 1) % WORD);
        var stored, actual := CompareExchangeWeak(current, next, spurious);
        if stored {
          changes := changes + [call.profile];
          calls := calls[c := call.(position := Done(true))];
        } else {
          calls := calls[c := call.(position := Consider(call.profile, actual))];
        }
    }

    /** The other calls make any number of moves. */
    method Others(self: Caller, ghost start: State, ghost past: seq<Move>) returns (ghost moves: seq<Move>)
      requires Inv(start) && Run(start, past, View()) && self in calls
      modifies this
      ensures Run(start, moves, View()) && Inv(View())
      ensures self in calls && calls[self] == old(calls[self])
    {
      hide Inv, Run;
      moves := past;
      RunKeepsInv(start, past, View());
      var env: seq<Move> := *;
      for i := 0 to |env|
        invariant Run(start, moves, View()) && Inv(View())
        invariant self in calls && calls[self] == old(calls[self])
      {
        var c := env[i].caller;
        if c != self && c in calls && !calls[c].position.Done? {
          moves := Extend(start, moves, View(), env[i]);
          Advance(c, env[i].spurious);
        }
      }
    }

    /**
     `set_power_profile`.  Its exchange fails at most `failures` times, spuriously or because
     another call got in first; every execution that returns is one of these.
     */
    method SetPowerProfile(self: Caller, failures: nat, ghost start: State, ghost past: seq<Move>)
      returns (changed: bool, ghost moves: seq<Move>)
      requires Inv(start) && Run(start, past, View())
      requires self in calls && calls[self].position.Load?
      modifies this
      ensures Run(start, moves, View()) && Inv(View())
      ensures self in calls && calls[self] == Call(old(calls[self].profile), Done(changed))
    {
      hide Inv, Run;
      var profile := calls[self].profile;
      moves := Others(self, start, past);
      moves := Extend(start, moves, View(), Move(self, false));
      var current := word;
      calls := calls[self := Call(profile, Consider(profile, current))];
      var left := failures;
      while true
        invariant Run(start, moves, View()) && Inv(View()) && self in calls
        invariant calls[self] == Call(profile, Consider(profile, current))
        invariant word == current
        decreases left
      {
        var snapshot := Unpack(current);
        if snapshot.profile == profile {
          return false, moves;
        }
        var spurious := false;
        if left > 0 {
          moves := Others(self, start, moves);
          spurious := *;
        }
        var next := Pack(profile, (snapshot.generation + 1) % WORD);
        moves := Extend(start, moves, View(), Move(self, spurious));
        var stored, actual := CompareExchangeWeak(current, next, spurious);
        if stored {
          changes := changes + [profile];
          calls := calls[self := Call(profile, Done(true))];
          return true, moves;
        }
        current := actual;
        calls := calls[self := Call(profile, Consider(profile, current))];
        left := left - 1;
      }
    }
  }

  lemma {:induction false} RunAppend(s: State, first: seq<Move>, t: State, second: seq<Move>, u: State)
    requires Run(s, first, t) && Run(t, second, u)
    ensures Run(s, first + second, u)
    decreases |first|
  {
    if first == [] {
      assert first + second == second;
    } else {
      RunAppend(Step(s, first[0].caller, first[0].spurious), first[1..], t, second, u);
      assert (first + second)[1..] == first[1..] + second;
    }
  }

  lemma Extend(start: State, past: seq<Move>, s: State, move: Move) returns (moves: seq<Move>)
    requires Inv(start) && Run(start, past, s) && Enabled(s, move.caller)
    ensures Run(start, moves, Step(s, move.caller, move.spurious)) && Inv(Step(s, move.caller, move.spurious))
  {
    var t := Step(s, move.caller, move.spurious);
    moves := past + [move];
    assert Run(t, [], t);
    assert Run(s, [move], t);
    RunAppend(start, past, s, [move], t);
    RunKeepsInv(start, past, s);
    StepKeepsInv(s, move.caller, move.spurious);
  }
}
