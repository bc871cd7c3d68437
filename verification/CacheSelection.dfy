/**
 Which processors the `C` selector means (src/topology.rs): one preferred L3 cache, and the
 entries it flags.
 */
module CacheSelection {
  import opened Outcomes
  import opened UsizeBits
  import opened Topology

  datatype L3Cache = L3Cache(group: nat, mask: nat, cacheSize: nat) {
    predicate Contains(group: nat, logicalIndex: nat) {
      group == this.group && logicalIndex < USIZE_BITS && HasBit(mask, logicalIndex)
    }

    predicate Usable() {
      cacheSize != 0 && mask != 0
    }
  }

  // ---------------------------------------------------------------- the rank of a cache

  function CountOnes(mask: nat, width: nat): nat {
    if width == 0 then 0 else mask % 2 + CountOnes(mask / 2, width - 1)
  }

  function TrailingZeros(mask: nat, width: nat): nat {
    if width == 0 || mask % 2 == 1 then 0 else 1 + TrailingZeros(mask / 2, width - 1)
  }

  /** The lowest processor of a mask that has one. */
  lemma {:induction false} LowestProcessor(mask: nat, width: nat)
    requires 0 < mask < Pow2(width)
    ensures TrailingZeros(mask, width) < width && HasBit(mask, TrailingZeros(mask, width))
    ensures forall i :: 0 <= i < TrailingZeros(mask, width) ==> !HasBit(mask, i)
    decreases width
  {
    if mask % 2 == 1 {
    } else {
      LowestProcessor(mask / 2, width - 1);
      forall i | 0 <= i < TrailingZeros(mask, width) ensures !HasBit(mask, i) {
        if i > 0 { assert !HasBit(mask / 2, i - 1); }
      }
    }
  }

  datatype Rank = Rank(size: nat, processors: nat, group: nat, lowest: nat)

  function RankOf(c: L3Cache): Rank {
    Rank(c.cacheSize, CountOnes(c.mask, USIZE_BITS), c.group, TrailingZeros(c.mask, USIZE_BITS))
  }

  /** Larger caches first, then more processors, then the lower group, then the lower first processor. */
  predicate Below(a: Rank, b: Rank) {
    || a.size < b.size
    || (a.size == b.size && a.processors < b.processors)
    || (a.size == b.size && a.processors == b.processors && a.group > b.group)
    || (a.size == b.size && a.processors == b.processors && a.group == b.group && a.lowest > b.lowest)
  }

  // ---------------------------------------------------------------- the choice

  /** `select_c_l3_cache_affinities`: of several maxima, `max_by_key` keeps the last. */
  function Select(caches: seq<L3Cache>): Option<L3Cache> {
    if caches == [] then None
    else
      var best := Select(caches[..|caches| - 1]);
      var c := caches[|caches| - 1];
      if !c.Usable() then best
      else if best.Some? && Below(RankOf(c), RankOf(best.value)) then best
      else Some(c)
  }

  predicate IsBest(caches: multiset<L3Cache>, c: L3Cache) {
    c in caches && c.Usable() && forall d :: d in caches && d.Usable() ==> !Below(RankOf(c), RankOf(d))
  }

  /** The choice is a best cache, and there is one exactly when some cache is usable. */
  lemma {:induction false} SelectIsBest(caches: seq<L3Cache>)
    ensures Select(caches).Some? ==> IsBest(multiset(caches), Select(caches).value)
    ensures Select(caches).None? <==> forall c :: c in caches ==> !c.Usable()
  {
    if caches == [] {
    } else {
      var init, c := caches[..|caches| - 1], caches[|caches| - 1];
      assert caches == init + [c];
      SelectIsBest(init);
      hide RankOf;
    }
  }

  lemma LastBestIsChosen(init: seq<L3Cache>, c: L3Cache)
    requires IsBest(multiset(init + [c]), c)
    ensures Select(init + [c]) == Some(c)
  {
    hide RankOf;
    SelectIsBest(init);
    var caches := init + [c];
    assert caches[..|caches| - 1] == init;
    if Select(init).Some? { assert Select(init).value in multiset(caches); }
  }

  /** No two different caches share the first place. */
  predicate NoTie(caches: multiset<L3Cache>) {
    forall a, b :: a in caches && b in caches && IsBest(caches, a) && IsBest(caches, b) ==> a == b
  }

  ghost predicate IgnoresOrder(caches: seq<L3Cache>) {
    forall other: seq<L3Cache> :: multiset(other) == multiset(caches) ==> Select(other) == Select(caches)
  }

  lemma CanBeLast(caches: seq<L3Cache>, c: L3Cache)
    requires IsBest(multiset(caches), c) && IgnoresOrder(caches)
    ensures Select(caches) == Some(c)
  {
    var rest := multiset(caches) - multiset{c};
    SomeListing(rest);
    var init: seq<L3Cache> :| Lists(init, rest);
    assert multiset(init + [c]) == multiset(caches);
    LastBestIsChosen(init, c);
  }

  /** The order in which Windows lists the caches matters exactly when two different ones tie for the first place. */
  lemma OrderMattersOnlyForTies(caches: seq<L3Cache>)
    ensures IgnoresOrder(caches) <==> NoTie(multiset(caches))
  {
    hide IsBest, Select;
    if IgnoresOrder(caches) {
      var m := multiset(caches);
      forall a, b | a in m && b in m && IsBest(m, a) && IsBest(m, b)
        ensures a == b
      {
        CanBeLast(caches, a);
        CanBeLast(caches, b);
      }
    }
    if NoTie(multiset(caches)) {
      forall other: seq<L3Cache> | multiset(other) == multiset(caches) ensures Select(other) == Select(caches) {
        SameChoice(caches, other);
      }
    }
  }

  lemma SameChoice(caches: seq<L3Cache>, other: seq<L3Cache>)
    requires multiset(other) == multiset(caches) && NoTie(multiset(caches))
    ensures Select(other) == Select(caches)
  {
    hide Select, L3Cache.Usable;
    SelectIsBest(caches);
    SelectIsBest(other);
    assert forall c :: c in caches <==> c in multiset(caches);
    assert forall c :: c in other <==> c in multiset(other);
  }

  /** Caches of one group serve different processors. */
  predicate Disjoint(caches: multiset<L3Cache>) {
    forall a, b :: a in caches && b in caches && a != b && a.group == b.group ==>
      forall i :: 0 <= i < USIZE_BITS ==> !(HasBit(a.mask, i) && HasBit(b.mask, i))
  }

  predicate MasksFit(caches: multiset<L3Cache>) {
    forall c :: c in caches ==> c.mask < Pow2(USIZE_BITS)
  }

  /** With real caches, which share no processor, the order never matters. */
  lemma RealCachesNeverTie(caches: seq<L3Cache>)
    requires MasksFit(multiset(caches)) && Disjoint(multiset(caches))
    ensures IgnoresOrder(caches)
  {
    hide HasBit, CountOnes, TrailingZeros, Pow2;
    var m := multiset(caches);
    forall a, b | a in m && b in m && IsBest(m, a) && IsBest(m, b) ensures a == b {
      LowestProcessor(a.mask, USIZE_BITS);
      LowestProcessor(b.mask, USIZE_BITS);
      assert !Below(RankOf(a), RankOf(b)) && !Below(RankOf(b), RankOf(a));
    }
    OrderMattersOnlyForTies(caches);
  }

  lemma TiedPair(a: L3Cache, b: L3Cache)
    requires a != b && a.Usable() && b.Usable() && RankOf(a) == RankOf(b)
    ensures !IgnoresOrder([a, b])
  {
    hide RankOf, L3Cache.Usable;
    LastBestIsChosen([b], a);
    LastBestIsChosen([a], b);
    hide Select;
    assert [a, b] == [a] + [b] && multiset([b] + [a]) == multiset([a, b]);
  }

  /** Two overlapping masks that tie: the one listed last wins. */
  lemma OverlapDependsOnOrder()
    ensures !IgnoresOrder([L3Cache(0, 3, 32), L3Cache(0, 5, 32)])
  {
    CountsOfThreeAndFive();
    hide CountOnes, TrailingZeros, IgnoresOrder, Select;
    TiedPair(L3Cache(0, 3, 32), L3Cache(0, 5, 32));
  }

  lemma {:induction false} NoOnes(width: nat)
    ensures CountOnes(0, width) == 0
  {
    if width == 0 {
    } else {
      NoOnes(width - 1);
    }
  }

  lemma CountsOfThreeAndFive()
    ensures CountOnes(3, USIZE_BITS) == CountOnes(5, USIZE_BITS)
    ensures TrailingZeros(3, USIZE_BITS) == TrailingZeros(5, USIZE_BITS)
  {
    NoOnes(62);
    NoOnes(61);
    assert CountOnes(1, 63) == 1 && CountOnes(1, 62) == 1;
    assert CountOnes(2, 63) == CountOnes(1, 62);
  }

  // ---------------------------------------------------------------- the flags

  /** `is_c_cache_candidate`: an X3D processor, or usable caches of different sizes. */
  predicate IsCandidate(x3d: bool, caches: seq<L3Cache>) {
    x3d || exists a, b :: a in caches && b in caches && a.Usable() && b.Usable() && a.cacheSize < b.cacheSize
  }

  /** `detect_c_cache_affinities` and the flags of `read_cpu_sets`. */
  function Flagged(entries: seq<CpuSetEntry>, x3d: bool, caches: seq<L3Cache>): (flagged: seq<CpuSetEntry>)
    ensures |flagged| == |entries|
  {
    var chosen := if IsCandidate(x3d, caches) then Select(caches) else None;
    seq(|entries|, i requires 0 <= i < |entries| =>
      entries[i].(cache := chosen.Some? && chosen.value.Contains(entries[i].group, entries[i].logicalIndex)))
  }

  /**
   Flagged are exactly the processors of one cache, in one group: a largest usable cache, and on
   a machine without X3D one that is strictly larger than some other.
   */
  lemma FlagsMarkOneCache(entries: seq<CpuSetEntry>, x3d: bool, caches: seq<L3Cache>, i: nat)
    requires i < |entries| && Flagged(entries, x3d, caches)[i].cache
    ensures exists c :: IsBest(multiset(caches), c) &&
              (forall j :: 0 <= j < |entries| ==>
                (Flagged(entries, x3d, caches)[j].cache <==> c.Contains(entries[j].group, entries[j].logicalIndex))) &&
              (forall d :: d in caches && d.Usable() ==> d.cacheSize <= c.cacheSize) &&
              (!x3d ==> exists d :: d in caches && d.Usable() && d.cacheSize < c.cacheSize)
  {
    hide HasBit, CountOnes, TrailingZeros;
    SelectIsBest(caches);
    var c := Select(caches).value;
    forall d | d in caches && d.Usable() ensures d.cacheSize <= c.cacheSize {
      assert d in multiset(caches);
      assert !Below(RankOf(c), RankOf(d));
    }
  }

  // ---------------------------------------------------------------- the flags, in terms of sizes and processors

  ghost function BitsBelow(mask: nat, width: nat): set<nat> {
    set i | 0 <= i < width && HasBit(mask, i)
  }

  lemma {:induction false} CountFromTop(mask: nat, width: nat)
    ensures CountOnes(mask, width + 1) == CountOnes(mask, width) + if HasBit(mask, width) then 1 else 0
    decreases width
  {
    if width == 0 {
      assert CountOnes(mask, 1) == mask % 2 + CountOnes(mask / 2, 0);
    } else {
      CountFromTop(mask / 2, width - 1);
    }
  }

  lemma OneMoreBit(mask: nat, width: nat)
    ensures |BitsBelow(mask, width + 1)| == |BitsBelow(mask, width)| + if HasBit(mask, width) then 1 else 0
  {
    hide HasBit;
    var rest := BitsBelow(mask, width);
    assert BitsBelow(mask, width + 1) == if HasBit(mask, width) then rest + {width} else rest;
  }

  /** Counting ones counts the processors of a mask. */
  lemma {:induction false} OnesAreProcessors(mask: nat, width: nat)
    ensures CountOnes(mask, width) == |BitsBelow(mask, width)|
    decreases width
  {
    if width == 0 {
    } else {
      hide HasBit, CountOnes, BitsBelow;
      OnesAreProcessors(mask, width - 1);
      CountFromTop(mask, width - 1);
      OneMoreBit(mask, width - 1);
    }
  }

  predicate HoldsData(c: L3Cache) {
    c.cacheSize != 0 && c.mask != 0
  }

  /** The first processor of `c` comes before, or is, that of `d`. */
  ghost predicate StartsFirst(c: L3Cache, d: L3Cache) {
    exists i :: i in Bits(c.mask) && forall j :: j in Bits(d.mask) ==> i <= j
  }

  /** At least as good: larger, then of more processors, then of a lower group, then with a lower first processor. */
  ghost predicate AtLeastAsGood(c: L3Cache, d: L3Cache) {
    if c.cacheSize != d.cacheSize then c.cacheSize > d.cacheSize
    else if |Bits(c.mask)| != |Bits(d.mask)| then |Bits(c.mask)| > |Bits(d.mask)|
    else if c.group != d.group then c.group < d.group
    else StartsFirst(c, d)
  }

  lemma LowestBit(c: L3Cache)
    requires HoldsData(c) && c.mask < Pow2(USIZE_BITS)
    ensures TrailingZeros(c.mask, USIZE_BITS) in Bits(c.mask)
    ensures forall j :: j in Bits(c.mask) ==> TrailingZeros(c.mask, USIZE_BITS) <= j
  {
    LowestProcessor(c.mask, USIZE_BITS);
  }

  lemma NotBelowIsAsGood(c: L3Cache, d: L3Cache)
    requires HoldsData(c) && HoldsData(d) && c.mask < Pow2(USIZE_BITS) && d.mask < Pow2(USIZE_BITS)
    requires !Below(RankOf(c), RankOf(d))
    ensures AtLeastAsGood(c, d)
  {
    OnesAreProcessors(c.mask, USIZE_BITS);
    OnesAreProcessors(d.mask, USIZE_BITS);
    assert BitsBelow(c.mask, USIZE_BITS) == Bits(c.mask) && BitsBelow(d.mask, USIZE_BITS) == Bits(d.mask);
    LowestBit(c);
    LowestBit(d);
    hide Bits, BitsBelow, CountOnes, TrailingZeros, Pow2;
  }

  /** Only two usable caches of different sizes, or an X3D processor with a usable cache, call for flags. */
  predicate CallsForFlags(x3d: bool, caches: seq<L3Cache>) {
    || (x3d && exists c :: c in caches && HoldsData(c))
    || exists c, d :: c in caches && d in caches && HoldsData(c) && HoldsData(d) && c.cacheSize != d.cacheSize
  }

  ghost predicate FlagsOf(c: L3Cache, entries: seq<CpuSetEntry>, flagged: seq<CpuSetEntry>) {
    && |flagged| == |entries|
    && forall j :: 0 <= j < |entries| ==>
         flagged[j] == entries[j].(cache := entries[j].group == c.group && entries[j].logicalIndex in Bits(c.mask))
  }

  /**
   The flags of `read_cpu_sets`, from both sides: where they are called for, they mark exactly the processors of one
   usable cache that is at least as good as every other; elsewhere no processor is marked.
   */
  lemma FlagsExactly(entries: seq<CpuSetEntry>, x3d: bool, caches: seq<L3Cache>)
    requires MasksFit(multiset(caches))
    ensures CallsForFlags(x3d, caches) ==>
              exists c :: c in caches && HoldsData(c) && FlagsOf(c, entries, Flagged(entries, x3d, caches)) &&
                          forall d :: d in caches && HoldsData(d) ==> AtLeastAsGood(c, d)
    ensures !CallsForFlags(x3d, caches) ==>
              forall j :: 0 <= j < |entries| ==> !Flagged(entries, x3d, caches)[j].cache
  {
    hide RankOf, HasBit, Below, AtLeastAsGood;
    SelectIsBest(caches);
    assert forall c :: c in caches <==> c in multiset(caches);
    if CallsForFlags(x3d, caches) {
      assert IsCandidate(x3d, caches);
      var c := Select(caches).value;
      forall d | d in caches && HoldsData(d) ensures AtLeastAsGood(c, d) {
        NotBelowIsAsGood(c, d);
      }
      assert FlagsOf(c, entries, Flagged(entries, x3d, caches));
    }
  }
}
