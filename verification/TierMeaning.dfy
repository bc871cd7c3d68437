/**
 What the tiers are, in terms of processors alone: efficiency classes, and the islands that processors of one
 group, memory node and last-level cache form (src/affinity.rs, src/topology.rs).
 */
module TierMeaning {
  import opened Outcomes
  import opened Topology
  import opened AffinityText
  import opened CpuTiers

  ghost predicate Lowest(cs: multiset<CpuSetEntry>, e: CpuSetEntry) {
    e in cs && forall other :: other in cs ==> e.efficiencyClass <= other.efficiencyClass
  }

  ghost predicate Highest(cs: multiset<CpuSetEntry>, e: CpuSetEntry) {
    e in cs && forall other :: other in cs ==> other.efficiencyClass <= e.efficiencyClass
  }

  /** A processor of a higher class is on the island of `e`. */
  ghost predicate SharedIsland(cs: multiset<CpuSetEntry>, e: CpuSetEntry) {
    exists h :: h in cs && h.efficiencyClass > e.efficiencyClass && SameIsland(h, e)
  }

  /** How many processors of its class are on the island of `e`. */
  ghost function IslandSize(cs: multiset<CpuSetEntry>, e: CpuSetEntry): nat {
    CountIf(cs, (f: CpuSetEntry) => f.efficiencyClass == e.efficiencyClass && SameIsland(f, e))
  }

  ghost predicate OneLowIsland(cs: multiset<CpuSetEntry>) {
    forall e, f :: Lowest(cs, e) && Lowest(cs, f) ==> SameIsland(e, f)
  }

  // ---------------------------------------------------------------- from parts to the whole machine

  lemma {:induction false} FilterTwice<T>(s: seq<T>, p: T -> bool, q: T -> bool, both: T -> bool)
    requires forall x :: x in s ==> (both(x) <==> p(x) && q(x))
    ensures Filter(Filter(s, p), q) == Filter(s, both)
  {
    if s == [] {
    } else {
      assert s[0] in s;
      FilterTwice(s[1..], p, q, both);
      var rest := Filter(s[1..], p);
      if p(s[0]) {
        assert [s[0]] + rest == Filter(s, p) && Filter(s, p)[1..] == rest;
      } else {
        assert Filter(s, p) == rest;
      }
    }
  }

  lemma CountInPart(cs: multiset<CpuSetEntry>, p: CpuSetEntry -> bool, q: CpuSetEntry -> bool,
                    both: CpuSetEntry -> bool)
    requires forall e :: e in cs ==> (both(e) <==> p(e) && q(e))
    ensures CountIf(Part(cs, p), q) == CountIf(cs, both)
  {
    var all := Listing(cs);
    forall e | e in all ensures both(e) <==> p(e) && q(e) {
      assert e in multiset(all);
    }
    FilterTwice(all, p, q, both);
    CountIfListing(Filter(all, p), q);
  }

  lemma SizeOnMachine(cs: multiset<CpuSetEntry>, e: CpuSetEntry)
    requires Lowest(cs, e)
    ensures SizeOfIsland(Bottoms(cs), e) == IslandSize(cs, e)
  {
    hide SameIsland, CountIf, Part;
    CountInPart(cs, f => IsBottom(cs, f), (f: CpuSetEntry) => SameIsland(f, e),
                (f: CpuSetEntry) => f.efficiencyClass == e.efficiencyClass && SameIsland(f, e));
  }

  lemma SharesOnMachine(cs: multiset<CpuSetEntry>, e: CpuSetEntry)
    requires Lowest(cs, e)
    ensures Shares(e, AboveBottom(cs)) <==> SharedIsland(cs, e)
  {
    hide SameIsland;
    if Shares(e, AboveBottom(cs)) {
      var h :| h in AboveBottom(cs) && SameIsland(h, e);
      BottomMembers(cs, h);
    }
    if SharedIsland(cs, e) {
      var h :| h in cs && h.efficiencyClass > e.efficiencyClass && SameIsland(h, e);
      BottomMembers(cs, h);
    }
  }

  // ---------------------------------------------------------------- the tiers

  /** With three or more efficiency classes the extremes are P and LPE, and everything between is E. */
  lemma ManyClasses(cs: multiset<CpuSetEntry>, e: CpuSetEntry)
    requires |ClassSet(cs)| >= 3
    ensures e in Tier(cs, Performance) <==> Highest(cs, e)
    ensures e in Tier(cs, LowPowerEfficiency) <==> Lowest(cs, e)
    ensures e in Tier(cs, Efficiency) <==> e in cs && !Highest(cs, e) && !Lowest(cs, e)
    ensures e in Tier(cs, Cache) <==> e in cs && e.cache
  {
    PerformanceMembers(cs, e);
    ManyTierMembers(cs, e);
    CachedMembers(cs, e);
    hide Tier;
  }

  lemma CachedMembers(cs: multiset<CpuSetEntry>, e: CpuSetEntry)
    ensures e in Tier(cs, Cache) <==> e in cs && e.cache
  {
    hide LowPowerIsland, IsTop, IsBottom;
  }

  /** With one class only the cache names any processors. */
  lemma OneClass(cs: multiset<CpuSetEntry>, e: CpuSetEntry)
    requires |ClassSet(cs)| == 1
    ensures e !in Tier(cs, Performance) && e !in Tier(cs, Efficiency) && e !in Tier(cs, LowPowerEfficiency)
    ensures e in Tier(cs, Cache) <==> e in cs && e.cache
  {
    OneClassTiers(cs);
    CachedMembers(cs, e);
    hide Tier;
  }

  /**
   With two classes the higher is P.  The processors of the lower one are E and LPE both if they are all on one island;
   otherwise LPE is the island of `top` and E the rest.  That island has no processor of the higher class if there is
   such an island; among the islands on that side none reaches a greater index than `top`, and of those that
   reach the same one it has the most processors, and then the smallest group, node and cache.
   */
  lemma TwoClasses(cs: multiset<CpuSetEntry>) returns (top: CpuSetEntry)
    requires |ClassSet(cs)| == 2
    ensures forall e :: e in Tier(cs, Performance) <==> Highest(cs, e)
    ensures OneLowIsland(cs) ==>
              forall e :: (e in Tier(cs, Efficiency) <==> Lowest(cs, e)) &&
                          (e in Tier(cs, LowPowerEfficiency) <==> Lowest(cs, e))
    ensures Lowest(cs, top)
    ensures !OneLowIsland(cs) ==>
              forall e :: (e in Tier(cs, LowPowerEfficiency) <==> Lowest(cs, e) && SameIsland(e, top)) &&
                          (e in Tier(cs, Efficiency) <==> Lowest(cs, e) && !SameIsland(e, top))
    ensures !OneLowIsland(cs) && (exists f :: Lowest(cs, f) && !SharedIsland(cs, f)) ==> !SharedIsland(cs, top)
    ensures !OneLowIsland(cs) ==>
              forall f :: Lowest(cs, f) && (SharedIsland(cs, f) <==> SharedIsland(cs, top)) ==>
                && f.logicalIndex <= top.logicalIndex
                && (!SameIsland(f, top) && f.logicalIndex == top.logicalIndex ==>
                      IslandSize(cs, f) < IslandSize(cs, top) ||
                      (IslandSize(cs, f) == IslandSize(cs, top) && Precedes(top, f)))
  {
    hide Tier, LowPowerIsland, SharedIsland, IslandSize, SameIsland, Precedes, IsPreferred, ClassSet;
    forall e ensures e in Tier(cs, Performance) <==> Highest(cs, e) {
      PerformanceMembers(cs, e);
    }
    OneIslandOnMachine(cs);
    if OneLowIsland(cs) {
      top := SomeLowest(cs);
      forall e ensures e in Tier(cs, Efficiency) <==> Lowest(cs, e)
               ensures e in Tier(cs, LowPowerEfficiency) <==> Lowest(cs, e)
      {
        TwoTierMembers(cs, e);
      }
    } else {
      top := ChosenIsPreferred(Bottoms(cs), AboveBottom(cs), LowPowerIsland(cs).value);
      PreferredOnMachine(cs, top);
      forall e ensures e in Tier(cs, LowPowerEfficiency) <==> Lowest(cs, e) && SameIsland(e, top)
               ensures e in Tier(cs, Efficiency) <==> Lowest(cs, e) && !SameIsland(e, top)
      {
        TwoTierMembers(cs, e);
        KeysAreIslands(e, top);
      }
    }
  }

  lemma SomeLowest(cs: multiset<CpuSetEntry>) returns (e: CpuSetEntry)
    requires |ClassSet(cs)| == 2
    ensures Lowest(cs, e)
  {
    var top;
    top, e := Extremes(cs);
  }

  lemma OneIslandOnMachine(cs: multiset<CpuSetEntry>)
    ensures LowPowerIsland(cs).None? <==> OneLowIsland(cs)
    ensures LowPowerIsland(cs).Some? ==> IsChosen(Bottoms(cs), AboveBottom(cs), LowPowerIsland(cs))
  {
    hide SameIsland, Keys, Bottoms;
    OneIsland(Bottoms(cs));
    forall e ensures e in Bottoms(cs) <==> Lowest(cs, e) { BottomMembers(cs, e); }
  }

  lemma PreferredOnMachine(cs: multiset<CpuSetEntry>, top: CpuSetEntry)
    requires IsPreferred(Bottoms(cs), AboveBottom(cs), top)
    ensures Lowest(cs, top)
    ensures (exists f :: Lowest(cs, f) && !SharedIsland(cs, f)) ==> !SharedIsland(cs, top)
    ensures forall f :: Lowest(cs, f) && (SharedIsland(cs, f) <==> SharedIsland(cs, top)) ==>
              && f.logicalIndex <= top.logicalIndex
              && (!SameIsland(f, top) && f.logicalIndex == top.logicalIndex ==>
                    IslandSize(cs, f) < IslandSize(cs, top) ||
                    (IslandSize(cs, f) == IslandSize(cs, top) && Precedes(top, f)))
  {
    hide SharedIsland, IslandSize, SameIsland, Precedes, Shares, SizeOfIsland, Bottoms, AboveBottom;
    forall e ensures e in Bottoms(cs) <==> Lowest(cs, e) { BottomMembers(cs, e); }
    forall e | Lowest(cs, e)
      ensures Shares(e, AboveBottom(cs)) <==> SharedIsland(cs, e)
      ensures SizeOfIsland(Bottoms(cs), e) == IslandSize(cs, e)
    {
      SharesOnMachine(cs, e);
      SizeOnMachine(cs, e);
    }
  }
}
