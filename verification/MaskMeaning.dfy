/**
 What a compiled affinity mask is, bit by bit: on machines with one efficiency class, for every list of terms, in
 terms of the processors the system lists; on others, in terms of the tiers (src/affinity.rs).
 */
module MaskMeaning {
  import opened Outcomes
  import opened UsizeBits
  import opened Topology
  import opened AffinityText
  import opened CpuTiers
  import opened HomogeneousCores
  import opened AffinityMask
  import TierMeaning

  /** A processor the service may use: in the first group, neither reserved nor real-time. */
  predicate Free(e: CpuSetEntry) {
    e.group == 0 && !e.allocatedToOther && !e.realtime
  }

  ghost predicate HasFree(entries: seq<CpuSetEntry>, index: nat) {
    exists e :: e in entries && Free(e) && e.logicalIndex == index
  }

  ghost predicate HasFreeCached(entries: seq<CpuSetEntry>, index: nat) {
    exists e :: e in entries && Free(e) && e.cache && e.logicalIndex == index
  }

  /** There is a free processor, and all of them have indices that fit into the mask. */
  ghost predicate Narrow(entries: seq<CpuSetEntry>) {
    && (exists e :: e in entries && Free(e))
    && forall e :: e in entries && Free(e) ==> e.logicalIndex < 64
  }

  ghost predicate OneFreeClass(entries: seq<CpuSetEntry>) {
    forall e, f :: e in entries && f in entries && Free(e) && Free(f) ==> e.efficiencyClass == f.efficiencyClass
  }

  function FreeCount(entries: seq<CpuSetEntry>): nat {
    |Filter(entries, (e: CpuSetEntry) => Free(e))|
  }

  /** How many free processors have a greater index. */
  function FreeAbove(entries: seq<CpuSetEntry>, index: nat): nat {
    |Filter(entries, (e: CpuSetEntry) => Free(e) && e.logicalIndex > index)|
  }

  ghost predicate IsHighestFree(entries: seq<CpuSetEntry>, index: nat) {
    HasFree(entries, index) && forall e :: e in entries && Free(e) ==> e.logicalIndex <= index
  }

  /** The mask has been compiled and has this bit. */
  predicate Selects(r: Result<Option<nat>, MaskError>, index: nat) {
    r.Ok? && r.value.Some? && HasBit(r.value.value, index)
  }

  // ---------------------------------------------------------------- candidates and bits

  lemma CandidateMembers(entries: seq<CpuSetEntry>, e: CpuSetEntry)
    ensures e in Candidates(multiset(entries)) <==> e in entries && Free(e)
  {
    assert e in multiset(entries) <==> e in entries;
  }

  lemma SelectedBits(terms: seq<Term>, entries: seq<CpuSetEntry>, r: Result<Option<nat>, MaskError>, index: nat)
    requires IsMaskOf(multiset(terms), multiset(entries), r) && Narrow(entries) && index < 64
    ensures r.Ok?
    ensures Selects(r, index) <==> index in Selection(multiset(terms), Candidates(multiset(entries)))
    ensures r.value.None? <==> Selection(multiset(terms), Candidates(multiset(entries))) == {}
  {
    NarrowMachinesCompile(terms, entries, r);
    hide Selection, Portable, Candidates;
    var e :| e in entries && Free(e);
    assert e in multiset(entries);
    CandidateMembers(entries, e);
    if r.value.Some? { assert index in Bits(r.value.value) <==> HasBit(r.value.value, index); }
  }

  lemma NumbersSelect(terms: multiset<Term>, entries: seq<CpuSetEntry>, index: nat)
    requires index < 64
    ensures index in Numeric(terms, Candidates(multiset(entries))) <==>
              LogicalIndex(index) in terms && HasFree(entries, index)
  {
    hide Candidates;
    var cs := Candidates(multiset(entries));
    forall e ensures e in cs <==> e in entries && Free(e) { CandidateMembers(entries, e); }
    if LogicalIndex(index) in terms && HasFree(entries, index) {
      var e :| e in entries && Free(e) && e.logicalIndex == index;
      assert e in cs && LogicalIndex(e.logicalIndex) in terms;
    }
  }

  lemma OneClassSet(entries: seq<CpuSetEntry>)
    requires Narrow(entries)
    ensures OneFreeClass(entries) <==> |ClassSet(Candidates(multiset(entries)))| == 1
  {
    var cs := Candidates(multiset(entries));
    hide Candidates, Free;
    forall e ensures e in cs <==> e in entries && Free(e) { CandidateMembers(entries, e); }
    var some :| some in entries && Free(some);
    assert some.efficiencyClass in ClassSet(cs);
    if OneFreeClass(entries) {
      assert ClassSet(cs) == {some.efficiencyClass};
    }
    if |ClassSet(cs)| == 1 {
      var rest := ClassSet(cs) - {some.efficiencyClass};
      assert ClassSet(cs) == rest + {some.efficiencyClass};
      assert rest == {};
      ClassesInSet(cs);
    }
  }

  lemma OneClassTier(cs: multiset<CpuSetEntry>, term: Term, e: CpuSetEntry)
    requires |ClassSet(cs)| == 1
    ensures e in Tier(cs, term) <==> term == Cache && e in cs && e.cache
  {
    assert e in Tier(cs, term) ==> e.logicalIndex in Indices(Tier(cs, term));
    TierMeaning.OneClass(cs, e);
    NumbersAreNoTier(cs, term);
    hide Tier, ClassSet;
  }

  lemma OneClassPortable(terms: multiset<Term>, entries: seq<CpuSetEntry>, index: nat)
    requires Narrow(entries) && OneFreeClass(entries)
    ensures index in Portable(terms, Candidates(multiset(entries))) <==>
              index in Special(terms, Candidates(multiset(entries))) ||
              (Cache in terms && HasFreeCached(entries, index))
  {
    var cs := Candidates(multiset(entries));
    OneClassSet(entries);
    hide Candidates, Special, ClassSet, Tier, Free, OneFreeClass, Narrow;
    forall e ensures e in cs <==> e in entries && Free(e) { CandidateMembers(entries, e); }
    forall term, e ensures e in Tier(cs, term) <==> term == Cache && e in cs && e.cache { OneClassTier(cs, term, e); }
    if Cache in terms && HasFreeCached(entries, index) {
      var e :| e in entries && Free(e) && e.cache && e.logicalIndex == index;
      assert e in Tier(cs, Cache);
    }
  }

  // ---------------------------------------------------------------- one efficiency class

  /** The terms are E alone, or E and LPE in either order. */
  predicate AsksForEfficiency(terms: seq<Term>) {
    || terms == [Efficiency]
    || terms == [Efficiency, LowPowerEfficiency]
    || terms == [LowPowerEfficiency, Efficiency]
  }

  lemma AskingIsMultiset(terms: seq<Term>)
    ensures AsksForEfficiency(terms) <==>
              multiset(terms) == multiset{Efficiency} || multiset(terms) == multiset{Efficiency, LowPowerEfficiency}
    ensures terms == [LowPowerEfficiency] <==> multiset(terms) == multiset{LowPowerEfficiency}
  {
    PlusIsMultiset(terms);
    if EfficiencyPlusLowPower(terms) {
      assert terms == [terms[0], terms[1]];
    }
  }

  /**
   With one efficiency class, E, E+LPE and LPE+E select every second processor: a bit is set exactly when it is odd and
   a free processor has that index.
   */
  lemma EfficiencyIsOdd(terms: seq<Term>, entries: seq<CpuSetEntry>, r: Result<Option<nat>, MaskError>, index: nat)
    requires IsMaskOf(multiset(terms), multiset(entries), r) && Narrow(entries) && OneFreeClass(entries)
    requires AsksForEfficiency(terms) && index < 64
    ensures Selects(r, index) <==> index % 2 == 1 && HasFree(entries, index)
  {
    var cs := Candidates(multiset(entries));
    OneClassSet(entries);
    AskingIsMultiset(terms);
    SelectedBits(terms, entries, r, index);
    NumbersSelect(multiset(terms), entries, index);
    OneClassPortable(multiset(terms), entries, index);
    SelectionParts(multiset(terms), cs);
    hide Candidates, IsMaskOf, Portable, Numeric, Selection, ClassSet, Selects, HasFreeCached;
    forall e ensures e in cs <==> e in entries && Free(e) { CandidateMembers(entries, e); }
    hide Free;
    assert Special(multiset(terms), cs) == OddIndices(cs);
    assert multiset(terms)[Cache] == 0 && multiset(terms)[LogicalIndex(index)] == 0;
    if HasFree(entries, index) && index % 2 == 1 {
      var e :| e in entries && Free(e) && e.logicalIndex == index;
      assert e in cs;
    }
  }

  /** So all three expressions compile to one mask. */
  lemma EfficiencyTextsAgree(terms: seq<Term>, terms': seq<Term>, entries: seq<CpuSetEntry>,
                             r: Result<Option<nat>, MaskError>, r': Result<Option<nat>, MaskError>)
    requires IsMaskOf(multiset(terms), multiset(entries), r) && IsMaskOf(multiset(terms'), multiset(entries), r')
    requires Narrow(entries) && OneFreeClass(entries) && AsksForEfficiency(terms) && AsksForEfficiency(terms')
    ensures r == r'
  {
    SelectedBits(terms, entries, r, 0);
    SelectedBits(terms', entries, r', 0);
    forall index | 0 <= index < 64 ensures Selects(r, index) <==> Selects(r', index) {
      EfficiencyIsOdd(terms, entries, r, index);
      EfficiencyIsOdd(terms', entries, r', index);
    }
    SameSelectionSameMask(multiset(terms), multiset(terms'), multiset(entries), r, r');
  }

  lemma SameSelectionSameMask(terms: multiset<Term>, terms': multiset<Term>, entries: multiset<CpuSetEntry>,
                              r: Result<Option<nat>, MaskError>, r': Result<Option<nat>, MaskError>)
    requires IsMaskOf(terms, entries, r) && IsMaskOf(terms', entries, r') && r.Ok? && r'.Ok?
    requires forall index :: 0 <= index < 64 ==> (Selects(r, index) <==> Selects(r', index))
    ensures r == r'
  {
    hide Selection, Portable, Candidates;
    ZeroBits();
    if r.value.Some? { EmptyMaskIsZero(r.value.value); }
    if r'.value.Some? { EmptyMaskIsZero(r'.value.value); }
    if r.value.Some? && r'.value.Some? {
      forall index ensures index in Bits(r.value.value) <==> index in Bits(r'.value.value) {
        if 0 <= index < 64 { assert Selects(r, index) <==> Selects(r', index); }
      }
      SameBitsSameMask(r.value.value, r'.value.value);
    } else if r.value.Some? {
      NotAllClear(r.value.value, r, r');
    } else if r'.value.Some? {
      NotAllClear(r'.value.value, r', r);
    }
  }

  lemma NotAllClear(mask: nat, r: Result<Option<nat>, MaskError>, r': Result<Option<nat>, MaskError>)
    requires r == Ok(Some(mask)) && r' == Ok(None) && Bits(mask) != {}
    ensures exists index :: 0 <= index < 64 && Selects(r, index) && !Selects(r', index)
  {
    var index :| index in Bits(mask);
    assert Selects(r, index) && !Selects(r', index);
  }

  lemma CountsOnMachine(entries: seq<CpuSetEntry>, index: nat)
    ensures |Candidates(multiset(entries))| == FreeCount(entries)
    ensures Above(Candidates(multiset(entries)), index) == FreeAbove(entries, index)
  {
    var free := Filter(entries, (e: CpuSetEntry) => Usable(e));
    CandidatesListed(entries);
    SameFilter(entries, (e: CpuSetEntry) => Usable(e), (e: CpuSetEntry) => Free(e));
    assert |multiset(free)| == |free|;
    TierMeaning.CountInPart(multiset(entries), e => Usable(e), (f: CpuSetEntry) => f.logicalIndex > index,
                            (e: CpuSetEntry) => Free(e) && e.logicalIndex > index);
    CountIfListing(entries, (e: CpuSetEntry) => Free(e) && e.logicalIndex > index);
  }

  /**
   With one efficiency class, LPE alone selects the processors with the highest indices: all of up to two, two of
   up to seven, four of eight; of more, those that exist of the highest index and the three even steps below it.
   */
  lemma LowPowerIsHighest(entries: seq<CpuSetEntry>, r: Result<Option<nat>, MaskError>, top: nat, index: nat)
    requires IsMaskOf(multiset([LowPowerEfficiency]), multiset(entries), r)
    requires Narrow(entries) && OneFreeClass(entries) && IsHighestFree(entries, top) && index < 64
    ensures FreeCount(entries) <= 2 ==> (Selects(r, index) <==> HasFree(entries, index))
    ensures 3 <= FreeCount(entries) <= 7 ==>
              (Selects(r, index) <==> HasFree(entries, index) && FreeAbove(entries, index) < 2)
    ensures FreeCount(entries) == 8 ==>
              (Selects(r, index) <==> HasFree(entries, index) && FreeAbove(entries, index) < 4)
    ensures FreeCount(entries) >= 9 ==>
              (Selects(r, index) <==>
               HasFree(entries, index) && (index == top || index == top - 2 || index == top - 4 || index == top - 6))
  {
    var terms, cs := [LowPowerEfficiency], Candidates(multiset(entries));
    LowPowerSelects(entries, r, index);
    CountsOnMachine(entries, index);
    hide IsMaskOf, Candidates, Selects, HasFree, Narrow, OneFreeClass, IsHighestFree, FreeAbove, FreeCount;
    hide LastByIndex, EverySecondFromTop, Above;
    if |cs| <= 8 {
      LastMeaning(entries, index, if |cs| == 8 then 4 else 2);
      if |cs| <= 2 && HasFree(entries, index) { FewAbove(entries, index); }
    } else {
      WalkMeaning(entries, index, top);
    }
  }

  lemma LowPowerSelects(entries: seq<CpuSetEntry>, r: Result<Option<nat>, MaskError>, index: nat)
    requires IsMaskOf(multiset([LowPowerEfficiency]), multiset(entries), r)
    requires Narrow(entries) && OneFreeClass(entries) && index < 64
    ensures Selects(r, index) <==> index in LowPowerFallback(Candidates(multiset(entries)))
  {
    var terms, cs := [LowPowerEfficiency], Candidates(multiset(entries));
    OneClassSet(entries);
    AskingIsMultiset(terms);
    SelectedBits(terms, entries, r, index);
    NumbersSelect(multiset(terms), entries, index);
    OneClassPortable(multiset(terms), entries, index);
    SelectionParts(multiset(terms), cs);
    hide IsMaskOf, Portable, Numeric, Selection, Selects, HasFreeCached, Candidates, ClassSet, LowPowerFallback;
    assert multiset(terms)[Cache] == 0 && multiset(terms)[LogicalIndex(index)] == 0;
    assert Special(multiset(terms), cs) == LowPowerFallback(cs);
  }

  lemma LastMeaning(entries: seq<CpuSetEntry>, index: nat, count: nat)
    ensures index in LastByIndex(Candidates(multiset(entries)), count) <==>
              HasFree(entries, index) && FreeAbove(entries, index) < count
  {
    var cs := Candidates(multiset(entries));
    CountsOnMachine(entries, index);
    hide Candidates, Above, FreeAbove, Free;
    forall e ensures e in cs <==> e in entries && Free(e) { CandidateMembers(entries, e); }
    if HasFree(entries, index) && FreeAbove(entries, index) < count {
      var e :| e in entries && Free(e) && e.logicalIndex == index;
      assert e in cs && Above(cs, e.logicalIndex) < count;
    }
  }

  /** Of two processors, at most one has a greater index than a given one. */
  lemma {:induction false} FewAbove(entries: seq<CpuSetEntry>, index: nat)
    requires HasFree(entries, index)
    ensures FreeAbove(entries, index) < FreeCount(entries)
  {
    var e :| e in entries && Free(e) && e.logicalIndex == index;
    StrictlyFewer(entries, (f: CpuSetEntry) => Free(f), (f: CpuSetEntry) => Free(f) && f.logicalIndex > index, e);
  }

  lemma {:induction false} StrictlyFewer(s: seq<CpuSetEntry>, p: CpuSetEntry -> bool, q: CpuSetEntry -> bool,
                                         e: CpuSetEntry)
    requires forall x :: q(x) ==> p(x)
    ensures |Filter(s, q)| <= |Filter(s, p)|
    ensures e in s && p(e) && !q(e) ==> |Filter(s, q)| < |Filter(s, p)|
  {
    if s == [] {
    } else {
      StrictlyFewer(s[1..], p, q, e);
    }
  }

  lemma WalkMeaning(entries: seq<CpuSetEntry>, index: nat, top: nat)
    requires IsHighestFree(entries, top)
    ensures index in EverySecondFromTop(Candidates(multiset(entries))) <==>
              HasFree(entries, index) && (index == top || index == top - 2 || index == top - 4 || index == top - 6)
  {
    var cs := Candidates(multiset(entries));
    hide Candidates, Free;
    forall e ensures e in cs <==> e in entries && Free(e) { CandidateMembers(entries, e); }
    WalkFrom(cs, top);
    StepMember(cs, top, 4, index);
    EvenSteps(top - index);
    hide EverySecondFromTop, StepsOfTwo;
    assert HasFree(entries, index) <==> exists e :: e in cs && e.logicalIndex == index;
  }

  lemma EvenSteps(d: int)
    ensures 0 <= d < 8 && d % 2 == 0 <==> d == 0 || d == 2 || d == 4 || d == 6
  {
  }

  lemma WalkFrom(cs: multiset<CpuSetEntry>, top: nat)
    requires exists e :: e in cs && e.logicalIndex == top
    requires forall e :: e in cs ==> e.logicalIndex <= top
    ensures EverySecondFromTop(cs) == StepsOfTwo(cs, top, 4)
  {
    hide StepsOfTwo;
    var e :| e in cs && e.logicalIndex == top;
    assert IsLast(cs, e);
    assert forall other :: IsLast(cs, other) ==> other.logicalIndex == top;
  }

  /**
   With one efficiency class every other list of terms selects the free processors it names by number, and those of the
   large cache if it asks for them; so P alone, or together with E or LPE, selects nothing and compiles to no mask.
   */
  lemma OtherTermsSelect(terms: seq<Term>, entries: seq<CpuSetEntry>, r: Result<Option<nat>, MaskError>, index: nat)
    requires IsMaskOf(multiset(terms), multiset(entries), r) && Narrow(entries) && OneFreeClass(entries)
    requires !AsksForEfficiency(terms) && terms != [LowPowerEfficiency] && index < 64
    ensures Selects(r, index) <==>
              (LogicalIndex(index) in terms && HasFree(entries, index)) ||
              (Cache in terms && HasFreeCached(entries, index))
    ensures (forall term :: term in terms ==> !term.Cache? && !term.LogicalIndex?) ==> r == Ok(None)
  {
    var cs := Candidates(multiset(entries));
    AskingIsMultiset(terms);
    assert Special(multiset(terms), cs) == {};
    forall i: nat
      ensures i < 64 ==> (i in Selection(multiset(terms), cs) <==>
                          (LogicalIndex(i) in terms && HasFree(entries, i)) ||
                          (Cache in terms && HasFreeCached(entries, i)))
      ensures i >= 64 ==> i !in Selection(multiset(terms), cs)
    {
      if i < 64 { NumbersSelect(multiset(terms), entries, i); }
      OneClassPortable(multiset(terms), entries, i);
      SelectionParts(multiset(terms), cs);
      assert Cache in multiset(terms) <==> Cache in terms;
      assert LogicalIndex(i) in multiset(terms) <==> LogicalIndex(i) in terms;
      hide Portable, Selection, Special, Candidates;
    }
    SelectedBits(terms, entries, r, index);
    hide IsMaskOf, Selection, Candidates, Special;
    if forall term :: term in terms ==> !term.Cache? && !term.LogicalIndex? {
      assert Selection(multiset(terms), cs) == {};
    }
  }

  // ---------------------------------------------------------------- several efficiency classes

  /** With more classes a mask is the union of the tiers it asks for and the free processors it names by number. */
  lemma TiersSelect(terms: seq<Term>, entries: seq<CpuSetEntry>, r: Result<Option<nat>, MaskError>, index: nat)
    requires IsMaskOf(multiset(terms), multiset(entries), r) && Narrow(entries) && !OneFreeClass(entries) && index < 64
    ensures Selects(r, index) <==>
              (LogicalIndex(index) in terms && HasFree(entries, index)) ||
              exists term, e ::
                term in terms && e in Tier(Candidates(multiset(entries)), term) && e.logicalIndex == index
  {
    var cs := Candidates(multiset(entries));
    OneClassSet(entries);
    SelectedBits(terms, entries, r, index);
    NumbersSelect(multiset(terms), entries, index);
    SelectionParts(multiset(terms), cs);
    hide IsMaskOf, Numeric, Selection, Selects, Tier, HasFree, Candidates, OneFreeClass;
    assert Special(multiset(terms), cs) == {};
    assert forall term :: term in multiset(terms) <==> term in terms;
  }

  // ---------------------------------------------------------------- errors

  /** Which error is reported: nothing listed, nothing free, or a processor that is selected and does not fit. */
  lemma ErrorsMean(terms: seq<Term>, entries: seq<CpuSetEntry>, r: Result<Option<nat>, MaskError>)
    requires IsMaskOf(multiset(terms), multiset(entries), r)
    ensures r == Err(EmptyTopology) <==> entries == []
    ensures r == Err(NoUsableEntries) <==> entries != [] && forall e :: e in entries ==> !Free(e)
    ensures r.Err? && r.error.IndexTooLarge? ==> r.error.index >= 64 && HasFree(entries, r.error.index)
    ensures (forall term :: term in terms ==> term.LogicalIndex?) && (exists e :: e in entries && Free(e)) ==> r.Ok?
  {
    var cs := Candidates(multiset(entries));
    assert entries == [] <==> multiset(entries) == multiset{};
    hide Portable, Selection, Candidates;
    forall e ensures e in cs <==> e in entries && Free(e) { CandidateMembers(entries, e); }
    assert cs == multiset{} <==> forall e :: e in entries ==> !Free(e);
    if r.Err? && r.error.IndexTooLarge? { PortableUsable(multiset(terms), cs, r.error.index); }
    if forall term :: term in terms ==> term.LogicalIndex? {
      NumbersArePortable(terms, cs);
    }
  }

  /** Numbers select nothing that could fail to fit. */
  lemma NumbersArePortable(terms: seq<Term>, cs: multiset<CpuSetEntry>)
    requires forall term :: term in terms ==> term.LogicalIndex?
    ensures Portable(multiset(terms), cs) == {}
  {
    hide Tier, Indices, LowPowerFallback, OddIndices;
    SelectionOf(terms, cs);
    PlusIsMultiset(terms);
    forall x ensures x !in PortableOf(terms, cs) {
      PortableOfAll(terms, cs, x);
      forall term | term in terms ensures x !in Indices(Tier(cs, term)) { NumbersAreNoTier(cs, term); }
    }
    assert terms != [] ==> terms[0] in terms;
  }
}
