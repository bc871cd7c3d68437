/**
 The mask half of the affinity compiler (src/affinity.rs).  `Selection` gives the meaning of an
 expression as a set of processors; the methods below compute it in place, bit by bit.
 */
module AffinityMask {
  import opened Outcomes
  import opened UsizeBits
  import opened Topology
  import opened AffinityText
  import opened CpuTiers
  import opened HomogeneousCores

  datatype MaskError =
    | EmptyTopology
    | NoUsableEntries
    | IndexTooLarge(index: nat)

  predicate Usable(entry: CpuSetEntry) {
    entry.group == 0 && !entry.allocatedToOther && !entry.realtime
  }

  // ---------------------------------------------------------------- the meaning of an expression

  /** What the sole E, sole LPE and E+LPE expressions select on a homogeneous machine. */
  ghost function Special(terms: multiset<Term>, cs: multiset<CpuSetEntry>): set<nat> {
    if |ClassSet(cs)| != 1 then {}
    else if terms == multiset{Efficiency} || terms == multiset{Efficiency, LowPowerEfficiency} then OddIndices(cs)
    else if terms == multiset{LowPowerEfficiency} then LowPowerFallback(cs)
    else {}
  }

  /** Processors selected by portable terms. */
  ghost function Portable(terms: multiset<Term>, cs: multiset<CpuSetEntry>): set<nat> {
    Special(terms, cs) + set term, e | term in terms && e in Tier(cs, term) :: e.logicalIndex
  }

  /** Processors named by number; one that is unusable or beyond the mask is ignored. */
  ghost function Numeric(terms: multiset<Term>, cs: multiset<CpuSetEntry>): set<nat> {
    set e | e in cs && LogicalIndex(e.logicalIndex) in terms && e.logicalIndex < USIZE_BITS :: e.logicalIndex
  }

  ghost function Selection(terms: multiset<Term>, cs: multiset<CpuSetEntry>): set<nat> {
    Portable(terms, cs) + Numeric(terms, cs)
  }

  ghost function Candidates(entries: multiset<CpuSetEntry>): multiset<CpuSetEntry> {
    Part(entries, e => Usable(e))
  }

  /** The complete meaning of `mask_from_entries`, errors included. */
  ghost predicate IsMaskOf(terms: multiset<Term>, entries: multiset<CpuSetEntry>, r: Result<Option<nat>, MaskError>) {
    var cs := Candidates(entries);
    if entries == multiset{} then r == Err(EmptyTopology)
    else if cs == multiset{} then r == Err(NoUsableEntries)
    else if exists x :: x in Portable(terms, cs) && x >= USIZE_BITS then
      r.Err? && r.error.IndexTooLarge? && r.error.index in Portable(terms, cs) && r.error.index >= USIZE_BITS
    else
      && r.Ok?
      && (r.value.None? <==> Selection(terms, cs) == {})
      && (r.value.Some? ==> 0 < r.value.value < Pow2(USIZE_BITS) && Bits(r.value.value) == Selection(terms, cs))
  }

  // ---------------------------------------------------------------- building the mask

  predicate Fits64(mask: nat) {
    mask < Pow2(USIZE_BITS)
  }

  /** `add_logical_index_to_mask` */
  method AddLogicalIndexToMask(mask: nat, index: nat) returns (r: Result<nat, MaskError>)
    requires Fits64(mask)
    ensures index >= USIZE_BITS ==> r == Err(IndexTooLarge(index))
    ensures index < USIZE_BITS ==> r.Ok? && Fits64(r.value) && Bits(r.value) == Bits(mask) + {index}
  {
    if index >= USIZE_BITS {
      return Err(IndexTooLarge(index));
    }
    SetBitFits(mask, index, USIZE_BITS);
    forall other ensures HasBit(SetBit(mask, index), other) <==> other == index || HasBit(mask, other) {
      SetBitBits(mask, index, other);
    }
    return Ok(SetBit(mask, index));
  }

  /** `add_entries_to_mask`: stops at the first entry that does not fit. */
  method AddEntriesToMask(mask: nat, entries: seq<CpuSetEntry>) returns (r: Result<nat, MaskError>)
    requires Fits64(mask)
    ensures r.Ok? <==> forall e :: e in entries ==> e.logicalIndex < USIZE_BITS
    ensures r.Ok? ==> Fits64(r.value) && Bits(r.value) == Bits(mask) + Indices(Members(entries))
    ensures r.Err? ==> r.error.IndexTooLarge? && r.error.index >= USIZE_BITS
    ensures r.Err? ==> r.error.index in Indices(Members(entries))
  {
    var result := mask;
    for i := 0 to |entries|
      invariant Fits64(result) && Bits(result) == Bits(mask) + Indices(Members(entries[..i]))
      invariant forall e :: e in entries[..i] ==> e.logicalIndex < USIZE_BITS
    {
      hide Bits, Indices, Members, Pow2;
      MembersAppend(entries[..i], entries[i]);
      assert entries[..i + 1] == entries[..i] + [entries[i]];
      var step := AddLogicalIndexToMask(result, entries[i].logicalIndex);
      if step.Err? {
        IsMember(entries, entries[i]);
        return Err(step.error);
      }
      result := step.value;
    }
    assert entries[..|entries|] == entries;
    return Ok(result);
  }

  ghost function IndexIfPresent(candidates: multiset<CpuSetEntry>, index: nat): set<nat> {
    if index < USIZE_BITS && exists e :: e in candidates && e.logicalIndex == index then {index} else {}
  }

  /** `add_filtered_logical_index_to_mask`: an unavailable or oversized number only logs a warning. */
  method AddFilteredLogicalIndexToMask(mask: nat, candidates: seq<CpuSetEntry>, index: nat) returns (result: nat)
    requires Fits64(mask)
    ensures Fits64(result) && Bits(result) == Bits(mask) + IndexIfPresent(multiset(candidates), index)
  {
    var entry := FindIndex(candidates, index);
    if entry.None? {
      assert forall e :: e in multiset(candidates) ==> e in candidates;
      return mask;
    }
    assert entry.value in multiset(candidates);
    var step := AddLogicalIndexToMask(mask, entry.value.logicalIndex);
    return if step.Ok? then step.value else mask;
  }

  // ---------------------------------------------------------------- the compiler

  /** Processors selected by the portable terms among the first ones of an expression. */
  ghost function PortableOf(terms: seq<Term>, cs: multiset<CpuSetEntry>): set<nat> {
    if terms == [] then {}
    else PortableOf(terms[..|terms| - 1], cs) + Indices(Tier(cs, terms[|terms| - 1]))
  }

  ghost function NumericOf(terms: seq<Term>, cs: multiset<CpuSetEntry>): set<nat> {
    if terms == [] then {}
    else
      NumericOf(terms[..|terms| - 1], cs) +
      (if terms[|terms| - 1].LogicalIndex? then IndexIfPresent(cs, terms[|terms| - 1].index) else {})
  }

  lemma {:induction false} PortableOfAll(terms: seq<Term>, cs: multiset<CpuSetEntry>, x: nat)
    ensures x in PortableOf(terms, cs) <==> exists term :: term in terms && x in Indices(Tier(cs, term))
  {
    if terms == [] {
    } else {
      hide Tier, Indices;
      var init, last := terms[..|terms| - 1], terms[|terms| - 1];
      assert terms == init + [last];
      PortableOfAll(init, cs, x);
    }
  }

  lemma {:induction false} NumericOfAll(terms: seq<Term>, cs: multiset<CpuSetEntry>, x: nat)
    ensures x in NumericOf(terms, cs) <==> LogicalIndex(x) in terms && x in IndexIfPresent(cs, x)
  {
    if terms == [] {
    } else {
      var init, last := terms[..|terms| - 1], terms[|terms| - 1];
      assert terms == init + [last];
      NumericOfAll(init, cs, x);
    }
  }

  lemma SelectionOf(terms: seq<Term>, cs: multiset<CpuSetEntry>)
    ensures Portable(multiset(terms), cs) == Special(multiset(terms), cs) + PortableOf(terms, cs)
    ensures Numeric(multiset(terms), cs) == NumericOf(terms, cs)
  {
    hide Tier, Special;
    forall x ensures x in (set term, e | term in multiset(terms) && e in Tier(cs, term) :: e.logicalIndex) <==>
                     x in PortableOf(terms, cs)
    {
      PortableOfAll(terms, cs, x);
    }
    forall x ensures x in Numeric(multiset(terms), cs) <==> x in NumericOf(terms, cs) {
      NumericOfAll(terms, cs, x);
    }
  }

  /** `is_homogeneous_efficiency_plus_lpe` */
  predicate EfficiencyPlusLowPower(terms: seq<Term>) {
    |terms| == 2 && Efficiency in terms && LowPowerEfficiency in terms
  }

  lemma PlusIsMultiset(terms: seq<Term>)
    ensures EfficiencyPlusLowPower(terms) <==> multiset(terms) == multiset{Efficiency, LowPowerEfficiency}
    ensures terms == [Efficiency] <==> multiset(terms) == multiset{Efficiency}
    ensures terms == [LowPowerEfficiency] <==> multiset(terms) == multiset{LowPowerEfficiency}
  {
    assert |multiset(terms)| == |terms|;
    if |terms| == 2 {
      assert terms == [terms[0], terms[1]];
    } else if |terms| == 1 {
      assert terms == [terms[0]];
    }
    if multiset(terms) == multiset{Efficiency, LowPowerEfficiency} {
      assert Efficiency in multiset(terms) && LowPowerEfficiency in multiset(terms);
    }
    if multiset(terms) == multiset{Efficiency} { assert Efficiency in multiset(terms); }
    if multiset(terms) == multiset{LowPowerEfficiency} { assert LowPowerEfficiency in multiset(terms); }
  }

  lemma OddMembers(candidates: seq<CpuSetEntry>)
    ensures Indices(Members(Filter(candidates, (e: CpuSetEntry) => e.logicalIndex % 2 == 1))) ==
            OddIndices(multiset(candidates))
  {
    FilteredMembers(candidates, (e: CpuSetEntry) => e.logicalIndex % 2 == 1);
  }

  /** The leading match of `mask_from_entries`: entries added for a homogeneous machine only. */
  method SpecialEntries(terms: seq<Term>, candidates: seq<CpuSetEntry>) returns (entries: seq<CpuSetEntry>)
    ensures Indices(Members(entries)) == Special(multiset(terms), multiset(candidates))
  {
    hide ClassSet, OddIndices, LowPowerFallback, Indices, Members;
    var homogeneous := |EfficiencyClasses(candidates)| == 1;
    EfficiencyClassesSpec(candidates);
    PlusIsMultiset(terms);
    NoMembers();
    if terms == [Efficiency] && homogeneous {
      OddMembers(candidates);
      entries := Filter(candidates, (e: CpuSetEntry) => e.logicalIndex % 2 == 1);
    } else if terms == [LowPowerEfficiency] && homogeneous {
      entries := LowPowerFallbackEntries(candidates);
    } else if homogeneous && EfficiencyPlusLowPower(terms) {
      OddMembers(candidates);
      entries := Filter(candidates, (e: CpuSetEntry) => e.logicalIndex % 2 == 1);
    } else {
      entries := [];
    }
  }

  lemma NumbersAreNoTier(cs: multiset<CpuSetEntry>, term: Term)
    ensures term.LogicalIndex? ==> Indices(Tier(cs, term)) == {}
  {
  }

  /** One round of the loop over the terms. */
  method AddTerm(mask: nat, term: Term, tiers: AffinityTiers, candidates: seq<CpuSetEntry>)
    returns (r: Result<nat, MaskError>)
    requires Fits64(mask) && Classified(tiers, multiset(candidates))
    ensures r.Ok? <==> forall x :: x in Indices(Tier(multiset(candidates), term)) ==> x < USIZE_BITS
    ensures r.Ok? ==> Fits64(r.value)
    ensures r.Ok? ==> Bits(r.value) == Bits(mask) + Indices(Tier(multiset(candidates), term)) +
                      (if term.LogicalIndex? then IndexIfPresent(multiset(candidates), term.index) else {})
    ensures r.Err? ==> r.error.IndexTooLarge? && r.error.index >= USIZE_BITS
    ensures r.Err? ==> r.error.index in Indices(Tier(multiset(candidates), term))
  {
    hide Tier, Indices, Bits, IndexIfPresent;
    NumbersAreNoTier(multiset(candidates), term);
    match term
    case LogicalIndex(index) =>
      var m := AddFilteredLogicalIndexToMask(mask, candidates, index);
      return Ok(m);
    case Performance => r := AddTier(mask, tiers.performance);
    case Efficiency => r := AddTier(mask, tiers.efficiency);
    case LowPowerEfficiency => r := AddTier(mask, tiers.lowPowerEfficiency);
    case Cache => r := AddTier(mask, tiers.cache);
  }

  method AddTier(mask: nat, entries: seq<CpuSetEntry>) returns (r: Result<nat, MaskError>)
    requires Fits64(mask)
    ensures r.Ok? <==> forall x :: x in Indices(Members(entries)) ==> x < USIZE_BITS
    ensures r.Ok? ==> Fits64(r.value) && Bits(r.value) == Bits(mask) + Indices(Members(entries))
    ensures r.Err? ==> r.error.IndexTooLarge? && r.error.index >= USIZE_BITS
    ensures r.Err? ==> r.error.index in Indices(Members(entries))
  {
    r := AddEntriesToMask(mask, entries);
    if r.Err? {
      assert !(r.error.index < USIZE_BITS);
    } else {
      assert forall e :: e in Members(entries) ==> e in entries;
    }
  }

  lemma ZeroBits()
    ensures Fits64(0) && Bits(0) == {}
  {
    forall index: nat ensures !HasBit(0, index) {
      ZeroHasNoBit(index);
    }
  }

  lemma EmptyMaskIsZero(mask: nat)
    requires Fits64(mask)
    ensures mask == 0 <==> Bits(mask) == {}
  {
    ZeroBits();
    if Bits(mask) == {} { SameBitsSameMask(mask, 0); }
  }

  /** The union over all terms, one term at a time. */
  method AddTerms(start: nat, terms: seq<Term>, tiers: AffinityTiers, candidates: seq<CpuSetEntry>)
    returns (r: Result<nat, MaskError>)
    requires Fits64(start) && Classified(tiers, multiset(candidates))
    ensures r.Ok? <==> forall x :: x in PortableOf(terms, multiset(candidates)) ==> x < USIZE_BITS
    ensures r.Ok? ==> Fits64(r.value)
    ensures r.Ok? ==> Bits(r.value) == Bits(start) + PortableOf(terms, multiset(candidates)) +
                      NumericOf(terms, multiset(candidates))
    ensures r.Err? ==> r.error.IndexTooLarge? && r.error.index >= USIZE_BITS
    ensures r.Err? ==> r.error.index in PortableOf(terms, multiset(candidates))
  {
    hide Fits64, Tier, Classified, Indices, Bits, IndexIfPresent;
    ghost var cs := multiset(candidates);
    var mask := start;
    for i := 0 to |terms|
      invariant Fits64(mask)
      invariant Bits(mask) == Bits(start) + PortableOf(terms[..i], cs) + NumericOf(terms[..i], cs)
      invariant forall x :: x in PortableOf(terms[..i], cs) ==> x < USIZE_BITS
    {
      var step := AddTerm(mask, terms[i], tiers, candidates);
      assert terms[..i + 1][..i] == terms[..i];
      if step.Err? {
        PortableOfGrows(terms, i + 1, cs, step.error.index);
        return Err(step.error);
      }
      mask := step.value;
    }
    assert terms[..|terms|] == terms;
    return Ok(mask);
  }

  lemma {:induction false} PortableOfGrows(terms: seq<Term>, n: nat, cs: multiset<CpuSetEntry>, x: nat)
    requires n <= |terms| && x in PortableOf(terms[..n], cs)
    ensures x in PortableOf(terms, cs)
  {
    if n < |terms| {
      hide Tier, Indices;
      var init := terms[..|terms| - 1];
      assert init[..n] == terms[..n];
      PortableOfGrows(init, n, cs, x);
    } else {
      assert terms[..n] == terms;
    }
  }

  /** The special cases, then the loop over the terms, for the candidates of a machine. */
  method MaskFromCandidates(terms: seq<Term>, candidates: seq<CpuSetEntry>) returns (r: Result<nat, MaskError>)
    requires candidates != []
    ensures r.Ok? <==> forall x :: x in Portable(multiset(terms), multiset(candidates)) ==> x < USIZE_BITS
    ensures r.Ok? ==> Fits64(r.value) && Bits(r.value) == Selection(multiset(terms), multiset(candidates))
    ensures r.Err? ==> r.error.IndexTooLarge? && r.error.index >= USIZE_BITS
    ensures r.Err? ==> r.error.index in Portable(multiset(terms), multiset(candidates))
  {
    hide Fits64, Portable, Selection, Tier, Bits, Special, Numeric, Indices, Members, Classified;
    ghost var cs := multiset(candidates);
    var tiers := Classify(candidates);
    SelectionOf(terms, cs);
    SelectionParts(multiset(terms), cs);
    ZeroBits();
    var special := SpecialEntries(terms, candidates);
    r := AddTier(0, special);
    if r.Ok? {
      r := AddTerms(r.value, terms, tiers, candidates);
    }
  }

  /** `AffinityExpression::mask_from_entries` */
  method MaskFromEntries(terms: seq<Term>, entries: seq<CpuSetEntry>) returns (r: Result<Option<nat>, MaskError>)
    ensures IsMaskOf(multiset(terms), multiset(entries), r)
  {
    hide Fits64, Portable, Selection, Tier, Bits, Special, Candidates, Numeric, Indices, Members, Classified;
    assert entries == [] <==> multiset(entries) == multiset{};
    if entries == [] {
      return Err(EmptyTopology);
    }
    var candidates := Filter(entries, (e: CpuSetEntry) => Usable(e));
    CandidatesListed(entries);
    assert candidates == [] <==> multiset(candidates) == multiset{};
    if candidates == [] {
      return Err(NoUsableEntries);
    }
    var mask := MaskFromCandidates(terms, candidates);
    if mask.Err? {
      return Err(mask.error);
    }
    EmptyMaskIsZero(mask.value);
    PowFits(mask.value);
    return Ok(if mask.value == 0 then None else Some(mask.value));
  }

  lemma PowFits(mask: nat)
    ensures Fits64(mask) <==> mask < Pow2(USIZE_BITS)
  {
  }

  lemma SelectionParts(terms: multiset<Term>, cs: multiset<CpuSetEntry>)
    ensures Selection(terms, cs) == Portable(terms, cs) + Numeric(terms, cs)
  {
  }

  lemma CandidatesListed(entries: seq<CpuSetEntry>)
    ensures multiset(Filter(entries, (e: CpuSetEntry) => Usable(e))) == Candidates(multiset(entries))
  {
    FilteredPart(entries, (e: CpuSetEntry) => Usable(e), e => Usable(e));
  }

  // ---------------------------------------------------------------- what follows from the meaning

  /** The result does not depend on the order of the entries or of the terms. */
  lemma MaskIgnoresOrder(terms: seq<Term>, terms': seq<Term>, entries: seq<CpuSetEntry>, entries': seq<CpuSetEntry>,
                         r: Result<Option<nat>, MaskError>, r': Result<Option<nat>, MaskError>)
    requires multiset(terms) == multiset(terms') && multiset(entries) == multiset(entries')
    requires IsMaskOf(multiset(terms), multiset(entries), r)
    requires IsMaskOf(multiset(terms'), multiset(entries'), r')
    ensures r.Ok? <==> r'.Ok?
    ensures r.Ok? ==> r == r'
  {
    hide Selection, Portable, Candidates;
    if r.Ok? && r.value.Some? {
      SameBitsSameMask(r.value.value, r'.value.value);
    }
  }

  lemma TierWithin(cs: multiset<CpuSetEntry>, term: Term, e: CpuSetEntry)
    requires e in Tier(cs, term)
    ensures e in cs
  {
    hide LowPowerIsland, IsTop, IsBottom, ClassSet;
  }

  lemma SpecialWithin(terms: multiset<Term>, cs: multiset<CpuSetEntry>, x: nat)
    requires x in Special(terms, cs)
    ensures exists e :: e in cs && e.logicalIndex == x
  {
    hide ClassSet, IsLast, Above;
  }

  lemma PortableUsable(terms: multiset<Term>, cs: multiset<CpuSetEntry>, x: nat)
    requires x in Portable(terms, cs)
    ensures exists e :: e in cs && e.logicalIndex == x
  {
    hide Special, Tier;
    if x in Special(terms, cs) {
      SpecialWithin(terms, cs, x);
    } else {
      var term, e :| term in terms && e in Tier(cs, term) && e.logicalIndex == x;
      TierWithin(cs, term, e);
    }
  }

  /** Every set bit is a usable group-0 processor. */
  lemma BitsAreUsable(terms: seq<Term>, entries: seq<CpuSetEntry>, r: Result<Option<nat>, MaskError>, bit: nat)
    requires IsMaskOf(multiset(terms), multiset(entries), r) && r.Ok? && r.value.Some?
    requires bit < USIZE_BITS && HasBit(r.value.value, bit)
    ensures exists e :: e in entries && Usable(e) && e.logicalIndex == bit
  {
    var cs := Candidates(multiset(entries));
    assert bit in Bits(r.value.value);
    assert bit in Selection(multiset(terms), cs);
    if bit in Portable(multiset(terms), cs) {
      PortableUsable(multiset(terms), cs, bit);
    }
    var e :| e in cs && e.logicalIndex == bit;
    assert e in multiset(entries);
  }

  /** With usable indices below 64 the compiler never fails on a machine with a usable processor. */
  lemma NarrowMachinesCompile(terms: seq<Term>, entries: seq<CpuSetEntry>, r: Result<Option<nat>, MaskError>)
    requires IsMaskOf(multiset(terms), multiset(entries), r)
    requires exists e :: e in entries && Usable(e)
    requires forall e :: e in entries && Usable(e) ==> e.logicalIndex < USIZE_BITS
    ensures r.Ok?
  {
    var cs := Candidates(multiset(entries));
    var e :| e in entries && Usable(e);
    assert e in multiset(entries) && e in cs;
    forall x | x in Portable(multiset(terms), cs) ensures x < USIZE_BITS {
      PortableUsable(multiset(terms), cs, x);
      var f :| f in cs && f.logicalIndex == x;
      assert f in multiset(entries);
    }
  }
}
