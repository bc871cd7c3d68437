/**
 Processor tiers (src/affinity.rs): how candidates are classified as P, E, LPE and C, and what
 that classification guarantees.  `Tier` is the meaning, `Classify` the computation.
 */
module CpuTiers {
  import opened Outcomes
  import opened Topology
  import opened AffinityText

  ghost function Indices(entries: set<CpuSetEntry>): set<nat> {
    set e | e in entries :: e.logicalIndex
  }

  ghost function Members(entries: seq<CpuSetEntry>): set<CpuSetEntry> {
    set e | e in entries
  }

  lemma NoMembers()
    ensures Members([]) == {} && Indices(Members([])) == {}
  {
  }

  // ---------------------------------------------------------------- tiers

  /** `entry` has the highest efficiency class of the candidates. */
  ghost predicate IsTop(cs: multiset<CpuSetEntry>, entry: CpuSetEntry) {
    forall other :: other in cs ==> other.efficiencyClass <= entry.efficiencyClass
  }

  /** `entry` has the lowest efficiency class of the candidates. */
  ghost predicate IsBottom(cs: multiset<CpuSetEntry>, entry: CpuSetEntry) {
    forall other :: other in cs ==> entry.efficiencyClass <= other.efficiencyClass
  }

  ghost function Part(cs: multiset<CpuSetEntry>, p: CpuSetEntry -> bool): (r: multiset<CpuSetEntry>)
    ensures forall e :: r[e] == if p(e) then cs[e] else 0
  {
    assert forall e :: multiset(Filter(Listing(cs), p))[e] == if p(e) then cs[e] else 0 by {
      forall e ensures multiset(Filter(Listing(cs), p))[e] == if p(e) then cs[e] else 0 {
        FilterMultiplicity(Listing(cs), p, e);
      }
    }
    multiset(Filter(Listing(cs), p))
  }

  ghost function Bottoms(cs: multiset<CpuSetEntry>): multiset<CpuSetEntry> {
    Part(cs, e => IsBottom(cs, e))
  }

  ghost function AboveBottom(cs: multiset<CpuSetEntry>): multiset<CpuSetEntry> {
    Part(cs, e => !IsBottom(cs, e))
  }

  lemma {:induction false} SomeBest(efficient: multiset<CpuSetEntry>, pool: multiset<CpuSetEntry>, keys: set<IslandKey>)
    requires keys != {} && keys <= Keys(efficient)
    ensures exists k :: k in keys && BestOf(efficient, pool, keys, k)
    decreases |keys|
  {
    var k :| k in keys;
    var rest := keys - {k};
    if rest == {} {
      assert keys == {k} + rest;
      assert BestOf(efficient, pool, keys, k);
    } else {
      SomeBest(efficient, pool, rest);
      var b :| b in rest && BestOf(efficient, pool, rest, b);
      var islandK, islandB := Island(efficient, pool, k), Island(efficient, pool, b);
      OutranksAsymmetric(islandK, islandB);
      if Outranks(islandB, islandK) {
        assert BestOf(efficient, pool, keys, b);
      } else {
        forall other | other in keys && other != k ensures Outranks(islandK, Island(efficient, pool, other)) {
          if other != b {
            OutranksTransitive(islandK, islandB, Island(efficient, pool, other));
          }
        }
        assert BestOf(efficient, pool, keys, k);
      }
    }
  }

  lemma OutranksTransitive(a: IslandCandidate, b: IslandCandidate, c: IslandCandidate)
    requires Outranks(a, b) && Outranks(b, c)
    ensures Outranks(a, c)
  {
  }

  ghost predicate BestOf(efficient: multiset<CpuSetEntry>, pool: multiset<CpuSetEntry>, keys: set<IslandKey>,
                         k: IslandKey)
    requires k in keys && keys <= Keys(efficient)
  {
    forall other :: other in keys && other != k ==>
      Outranks(Island(efficient, pool, k), Island(efficient, pool, other))
  }

  /** The low-power island of a machine with two efficiency classes. */
  ghost function Chosen(efficient: multiset<CpuSetEntry>, pool: multiset<CpuSetEntry>): (best: Option<IslandCandidate>)
    ensures IsChosen(efficient, pool, best)
  {
    if |Keys(efficient)| <= 1 then None
    else
      SomeBest(efficient, pool, Keys(efficient));
      var k :| k in Keys(efficient) && BestOf(efficient, pool, Keys(efficient), k);
      Some(Island(efficient, pool, k))
  }

  ghost function LowPowerIsland(cs: multiset<CpuSetEntry>): Option<IslandCandidate> {
    Chosen(Bottoms(cs), AboveBottom(cs))
  }

  /** The processors a portable term names on a machine with these candidates. */
  ghost function Tier(cs: multiset<CpuSetEntry>, term: Term): set<CpuSetEntry> {
    var classes := |ClassSet(cs)|;
    match term
    case LogicalIndex(_) => {}
    case Cache => set e | e in cs && e.cache
    case Performance => set e | e in cs && classes >= 2 && IsTop(cs, e)
    case Efficiency =>
      if classes >= 3 then set e | e in cs && !IsTop(cs, e) && !IsBottom(cs, e)
      else
        var island := LowPowerIsland(cs);
        set e | e in cs && classes == 2 && IsBottom(cs, e) && (island.Some? ==> CpuIslandKey(e) != island.value.key)
    case LowPowerEfficiency =>
      if classes >= 3 then set e | e in cs && IsBottom(cs, e)
      else
        var island := LowPowerIsland(cs);
        set e | e in cs && classes == 2 && IsBottom(cs, e) && (island.Some? ==> CpuIslandKey(e) == island.value.key)
  }

  // ---------------------------------------------------------------- tier theorem

  lemma BottomExists(cs: multiset<CpuSetEntry>)
    requires cs != multiset{}
    ensures exists e :: e in cs && IsBottom(cs, e)
    ensures exists e :: e in cs && IsTop(cs, e)
  {
    var some :| some in cs;
    assert some.efficiencyClass in ClassSet(cs);
    var top := MaxOf(ClassSet(cs));
    var bottom := MinOf(ClassSet(cs));
    var t :| t in cs && t.efficiencyClass == top;
    var b :| b in cs && b.efficiencyClass == bottom;
    assert IsTop(cs, t) by { ClassesInSet(cs); }
    assert IsBottom(cs, b) by { ClassesInSet(cs); }
  }

  lemma ClassesInSet(cs: multiset<CpuSetEntry>)
    ensures forall e :: e in cs ==> e.efficiencyClass in ClassSet(cs)
  {
  }

  ghost function MinOf(s: set<nat>): (m: nat)
    requires s != {}
    ensures m in s && forall x :: x in s ==> m <= x
  {
    var x :| x in s;
    if s == {x} then x
    else
      assert s == {x} + (s - {x});
      var rest := MinOf(s - {x});
      if rest < x then rest else x
  }

  lemma SetSizes(s: set<nat>, a: nat, b: nat)
    requires a in s && b in s && a != b
    ensures |s| >= 2
    ensures |s| == 2 ==> s == {a, b}
    ensures |s| >= 3 ==> exists c :: c in s && c != a && c != b
  {
    var rest := s - {a, b};
    assert s == rest + {a, b};
    assert |{a, b}| == 2;
    if |s| >= 3 {
      assert rest != {};
      var c :| c in rest;
      assert c in s && c != a && c != b;
    }
  }

  lemma DifferentClasses(cs: multiset<CpuSetEntry>, top: CpuSetEntry, bottom: CpuSetEntry)
    requires |ClassSet(cs)| >= 2 && top in cs && bottom in cs && IsTop(cs, top) && IsBottom(cs, bottom)
    ensures bottom.efficiencyClass < top.efficiencyClass
  {
    if bottom.efficiencyClass == top.efficiencyClass {
      assert ClassSet(cs) == {top.efficiencyClass} by {
        assert forall e :: e in cs ==> e.efficiencyClass == top.efficiencyClass;
        assert top.efficiencyClass in ClassSet(cs);
      }
    }
  }

  lemma BottomMembers(cs: multiset<CpuSetEntry>, e: CpuSetEntry)
    ensures e in Bottoms(cs) <==> e in cs && IsBottom(cs, e)
    ensures e in AboveBottom(cs) <==> e in cs && !IsBottom(cs, e)
  {
  }

  lemma IslandKeys(cs: multiset<CpuSetEntry>)
    requires LowPowerIsland(cs).Some?
    ensures LowPowerIsland(cs).value.key in Keys(Bottoms(cs)) && |Keys(Bottoms(cs))| > 1
  {
  }

  lemma OtherKey(keys: set<IslandKey>, key: IslandKey) returns (other: IslandKey)
    requires key in keys && |keys| > 1
    ensures other in keys && other != key
  {
    var rest := keys - {key};
    assert keys == rest + {key} && |rest| == |keys| - 1;
    other :| other in rest;
  }

  lemma TwoTierMembers(cs: multiset<CpuSetEntry>, e: CpuSetEntry)
    requires |ClassSet(cs)| == 2
    ensures e in Tier(cs, Efficiency) <==>
              e in cs && IsBottom(cs, e) &&
              (LowPowerIsland(cs).Some? ==> CpuIslandKey(e) != LowPowerIsland(cs).value.key)
    ensures e in Tier(cs, LowPowerEfficiency) <==>
              e in cs && IsBottom(cs, e) &&
              (LowPowerIsland(cs).Some? ==> CpuIslandKey(e) == LowPowerIsland(cs).value.key)
  {
    hide LowPowerIsland, IsBottom, ClassSet;
  }

  /** When an island is returned, neither side of the split is empty. */
  lemma IslandSplits(cs: multiset<CpuSetEntry>)
    requires |ClassSet(cs)| == 2 && LowPowerIsland(cs).Some?
    ensures Tier(cs, LowPowerEfficiency) != {} && Tier(cs, Efficiency) != {}
  {
    hide Tier, LowPowerIsland, Bottoms, IsBottom;
    var efficient := Bottoms(cs);
    IslandKeys(cs);
    var key := LowPowerIsland(cs).value.key;
    var e :| e in efficient && CpuIslandKey(e) == key;
    BottomMembers(cs, e);
    TwoTierMembers(cs, e);
    var other := OtherKey(Keys(efficient), key);
    var f :| f in efficient && CpuIslandKey(f) == other;
    BottomMembers(cs, f);
    TwoTierMembers(cs, f);
  }

  /** A candidate of each extreme class. */
  lemma Extremes(cs: multiset<CpuSetEntry>) returns (top: CpuSetEntry, bottom: CpuSetEntry)
    requires |ClassSet(cs)| >= 2
    ensures top in cs && IsTop(cs, top) && !IsBottom(cs, top)
    ensures bottom in cs && IsBottom(cs, bottom) && !IsTop(cs, bottom)
    ensures bottom.efficiencyClass < top.efficiencyClass
    ensures top.efficiencyClass in ClassSet(cs) && bottom.efficiencyClass in ClassSet(cs)
  {
    var c :| c in ClassSet(cs);
    BottomExists(cs);
    bottom :| bottom in cs && IsBottom(cs, bottom);
    top :| top in cs && IsTop(cs, top);
    DifferentClasses(cs, top, bottom);
    ClassesInSet(cs);
  }

  lemma TwoTierFacts(cs: multiset<CpuSetEntry>)
    requires |ClassSet(cs)| == 2
    ensures Tier(cs, Efficiency) != {} && Tier(cs, LowPowerEfficiency) != {}
    ensures forall e :: e in cs ==> IsTop(cs, e) || IsBottom(cs, e)
    ensures Tier(cs, Efficiency) == Tier(cs, LowPowerEfficiency) || Tier(cs, Efficiency) !! Tier(cs, LowPowerEfficiency)
  {
    hide Tier, LowPowerIsland;
    var top, bottom := Extremes(cs);
    SetSizes(ClassSet(cs), top.efficiencyClass, bottom.efficiencyClass);
    ClassesInSet(cs);
    forall e | e in cs ensures IsTop(cs, e) || IsBottom(cs, e) {
      assert e.efficiencyClass in ClassSet(cs);
    }
    TwoTierMembers(cs, bottom);
    if LowPowerIsland(cs).Some? {
      IslandSplits(cs);
    }
    TwoTierShape(cs);
  }

  lemma TwoTierShape(cs: multiset<CpuSetEntry>)
    requires |ClassSet(cs)| == 2
    ensures if LowPowerIsland(cs).None? then Tier(cs, Efficiency) == Tier(cs, LowPowerEfficiency)
            else Tier(cs, Efficiency) !! Tier(cs, LowPowerEfficiency)
  {
    hide Tier, LowPowerIsland, IsBottom;
    forall e ensures LowPowerIsland(cs).None? ==> (e in Tier(cs, Efficiency) <==> e in Tier(cs, LowPowerEfficiency))
             ensures LowPowerIsland(cs).Some? ==> !(e in Tier(cs, Efficiency) && e in Tier(cs, LowPowerEfficiency))
    {
      TwoTierMembers(cs, e);
    }
  }

  lemma ManyTierMembers(cs: multiset<CpuSetEntry>, e: CpuSetEntry)
    requires |ClassSet(cs)| >= 3
    ensures e in Tier(cs, Efficiency) <==> e in cs && !IsTop(cs, e) && !IsBottom(cs, e)
    ensures e in Tier(cs, LowPowerEfficiency) <==> e in cs && IsBottom(cs, e)
  {
    hide IsTop, IsBottom, LowPowerIsland;
  }

  lemma ManyTierFacts(cs: multiset<CpuSetEntry>)
    requires |ClassSet(cs)| >= 3
    ensures Tier(cs, Efficiency) != {} && Tier(cs, LowPowerEfficiency) != {}
    ensures Tier(cs, Efficiency) !! Tier(cs, LowPowerEfficiency)
  {
    hide Tier;
    var top, bottom := Extremes(cs);
    SetSizes(ClassSet(cs), top.efficiencyClass, bottom.efficiencyClass);
    var middle :| middle in ClassSet(cs) && middle != top.efficiencyClass && middle != bottom.efficiencyClass;
    var e :| e in cs && e.efficiencyClass == middle;
    assert bottom.efficiencyClass < e.efficiencyClass < top.efficiencyClass;
    ManyTierMembers(cs, e);
    ManyTierMembers(cs, bottom);
    forall x ensures !(x in Tier(cs, Efficiency) && x in Tier(cs, LowPowerEfficiency)) {
      ManyTierMembers(cs, x);
    }
  }

  lemma PerformanceMembers(cs: multiset<CpuSetEntry>, e: CpuSetEntry)
    ensures e in Tier(cs, Performance) <==> e in cs && |ClassSet(cs)| >= 2 && IsTop(cs, e)
  {
    hide IsTop, IsBottom, LowPowerIsland;
  }

  /** Where each candidate goes. */
  lemma TierOfCandidate(cs: multiset<CpuSetEntry>, e: CpuSetEntry)
    requires |ClassSet(cs)| >= 2
    ensures e in Tier(cs, Performance) <==> e in cs && IsTop(cs, e)
    ensures e in Tier(cs, Efficiency) || e in Tier(cs, LowPowerEfficiency) <==> e in cs && !IsTop(cs, e)
  {
    hide Tier, LowPowerIsland;
    PerformanceMembers(cs, e);
    var top, bottom := Extremes(cs);
    if e in cs && IsTop(cs, e) { DifferentClasses(cs, e, bottom); }
    if |ClassSet(cs)| == 2 {
      TwoTierMembers(cs, e);
      TwoTierFacts(cs);
    } else {
      ManyTierMembers(cs, e);
    }
  }

  /**
   With two or more efficiency classes the tiers P, E and LPE are non-empty, cover all
   candidates, P is disjoint from the other two, and those are either disjoint or equal.
   */
  lemma TierTheorem(cs: multiset<CpuSetEntry>)
    requires |ClassSet(cs)| >= 2
    ensures Tier(cs, Performance) != {} && Tier(cs, Efficiency) != {} && Tier(cs, LowPowerEfficiency) != {}
    ensures forall e :: e in cs <==>
              e in Tier(cs, Performance) || e in Tier(cs, Efficiency) || e in Tier(cs, LowPowerEfficiency)
    ensures Tier(cs, Performance) !! Tier(cs, Efficiency) && Tier(cs, Performance) !! Tier(cs, LowPowerEfficiency)
    ensures Tier(cs, Efficiency) !! Tier(cs, LowPowerEfficiency) ||
            (Tier(cs, Efficiency) == Tier(cs, LowPowerEfficiency) && |ClassSet(cs)| == 2)
  {
    hide Tier, LowPowerIsland;
    var top, bottom := Extremes(cs);
    TierOfCandidate(cs, top);
    forall e ensures e in Tier(cs, Performance) <==> e in cs && IsTop(cs, e)
             ensures e in Tier(cs, Efficiency) || e in Tier(cs, LowPowerEfficiency) <==> e in cs && !IsTop(cs, e)
    {
      TierOfCandidate(cs, e);
    }
    if |ClassSet(cs)| == 2 {
      TwoTierFacts(cs);
    } else {
      ManyTierFacts(cs);
    }
  }

  // ---------------------------------------------------------------- classification

  datatype AffinityTiers = AffinityTiers(
    performance: seq<CpuSetEntry>,
    efficiency: seq<CpuSetEntry>,
    lowPowerEfficiency: seq<CpuSetEntry>,
    cache: seq<CpuSetEntry>)

  ghost predicate Classified(tiers: AffinityTiers, cs: multiset<CpuSetEntry>) {
    && Members(tiers.performance) == Tier(cs, Performance)
    && Members(tiers.efficiency) == Tier(cs, Efficiency)
    && Members(tiers.lowPowerEfficiency) == Tier(cs, LowPowerEfficiency)
    && Members(tiers.cache) == Tier(cs, Cache)
  }

  lemma FilteredMembers(s: seq<CpuSetEntry>, p: CpuSetEntry -> bool)
    ensures Members(Filter(s, p)) == set e | e in multiset(s) && p(e)
  {
    forall e ensures e in Filter(s, p) <==> e in multiset(s) && p(e) {
      FilterMembers(s, p, e);
    }
  }

  lemma FilteredPart(s: seq<CpuSetEntry>, p: CpuSetEntry -> bool, q: CpuSetEntry -> bool)
    requires forall e :: e in s ==> (p(e) <==> q(e))
    ensures multiset(Filter(s, p)) == Part(multiset(s), q)
  {
    var a, b := multiset(Filter(s, p)), Part(multiset(s), q);
    forall e | e in a || e in b ensures a[e] == b[e] {
      FilterMultiplicity(s, p, e);
    }
    SameMultiplicities(a, b);
  }

  /** The first and last class of the sorted list are the extremes. */
  lemma ExtremeClasses(s: seq<CpuSetEntry>)
    requires s != []
    ensures var classes := EfficiencyClasses(s);
            && classes != []
            && (forall e :: e in s ==> (e.efficiencyClass == classes[|classes| - 1] <==> IsTop(multiset(s), e)))
            && (forall e :: e in s ==> (e.efficiencyClass == classes[0] <==> IsBottom(multiset(s), e)))
            && (forall e :: e in s ==> classes[0] <= e.efficiencyClass <= classes[|classes| - 1])
  {
    EfficiencyClassesSpec(s);
    var classes, cs := EfficiencyClasses(s), multiset(s);
    assert s[0] in cs;
    assert s[0].efficiencyClass in classes;
    forall e | e in s ensures classes[0] <= e.efficiencyClass <= classes[|classes| - 1] {
      assert e in cs;
      assert e.efficiencyClass in classes;
    }
    var last, first := classes[|classes| - 1], classes[0];
    assert last in classes && first in classes;
    assert last in ClassSet(cs) && first in ClassSet(cs);
    var top :| top in cs && top.efficiencyClass == last;
    var bottom :| bottom in cs && bottom.efficiencyClass == first;
    assert forall e :: e in cs ==> e in s;
  }

  lemma ClassTiers(s: seq<CpuSetEntry>, max: nat, min: nat)
    requires s != []
    requires forall e :: e in s ==> (e.efficiencyClass == max <==> IsTop(multiset(s), e))
    requires forall e :: e in s ==> (e.efficiencyClass == min <==> IsBottom(multiset(s), e))
    ensures |ClassSet(multiset(s))| >= 2 ==>
              Members(Filter(s, (e: CpuSetEntry) => e.efficiencyClass == max)) == Tier(multiset(s), Performance)
    ensures |ClassSet(multiset(s))| >= 3 ==>
              && Members(Filter(s, (e: CpuSetEntry) => e.efficiencyClass != min && e.efficiencyClass != max)) ==
                 Tier(multiset(s), Efficiency)
              && Members(Filter(s, (e: CpuSetEntry) => e.efficiencyClass == min)) ==
                 Tier(multiset(s), LowPowerEfficiency)
  {
    hide Tier, IsTop, IsBottom, ClassSet, Members;
    var cs := multiset(s);
    FilteredMembers(s, (e: CpuSetEntry) => e.efficiencyClass == max);
    FilteredMembers(s, (e: CpuSetEntry) => e.efficiencyClass != min && e.efficiencyClass != max);
    FilteredMembers(s, (e: CpuSetEntry) => e.efficiencyClass == min);
    assert forall e :: e in cs <==> e in s;
    forall e ensures |ClassSet(cs)| >= 2 ==> (e in Tier(cs, Performance) <==> e in cs && IsTop(cs, e))
             ensures |ClassSet(cs)| >= 3 ==> (e in Tier(cs, Efficiency) <==>
                     e in cs && !IsTop(cs, e) && !IsBottom(cs, e))
             ensures |ClassSet(cs)| >= 3 ==> (e in Tier(cs, LowPowerEfficiency) <==> e in cs && IsBottom(cs, e))
    {
      PerformanceMembers(cs, e);
      if |ClassSet(cs)| >= 3 { ManyTierMembers(cs, e); }
    }
  }

  lemma OneClassTiers(cs: multiset<CpuSetEntry>)
    requires |ClassSet(cs)| == 1
    ensures Tier(cs, Performance) == {} && Tier(cs, Efficiency) == {} && Tier(cs, LowPowerEfficiency) == {}
  {
    hide LowPowerIsland, IsTop, IsBottom, ClassSet;
  }

  /** The two-class case of `classify`: the non-performance entries, split by the chosen island. */
  method SplitByIsland(candidates: seq<CpuSetEntry>, min: nat)
    returns (efficiency: seq<CpuSetEntry>, lowPower: seq<CpuSetEntry>)
    requires |ClassSet(multiset(candidates))| == 2
    requires forall e :: e in candidates ==> min <= e.efficiencyClass
    requires forall e :: e in candidates ==> (e.efficiencyClass == min <==> IsBottom(multiset(candidates), e))
    ensures Members(efficiency) == Tier(multiset(candidates), Efficiency)
    ensures Members(lowPower) == Tier(multiset(candidates), LowPowerEfficiency)
  {
    hide Tier, ClassSet, IsBottom, LowPowerIsland, Members;
    ghost var cs := multiset(candidates);
    assert forall e :: e in cs <==> e in candidates;
    var nonPerformance := Filter(candidates, (e: CpuSetEntry) => e.efficiencyClass == min);
    var higherEfficiency := Filter(candidates, (e: CpuSetEntry) => e.efficiencyClass > min);
    FilteredPart(candidates, (e: CpuSetEntry) => e.efficiencyClass == min, e => IsBottom(cs, e));
    FilteredPart(candidates, (e: CpuSetEntry) => e.efficiencyClass > min, e => !IsBottom(cs, e));
    var island := ChooseEfficiencyIsland(nonPerformance, higherEfficiency);
    IslandIsLowPower(cs, multiset(nonPerformance), multiset(higherEfficiency), island);
    FilteredMembers(candidates, (e: CpuSetEntry) => e.efficiencyClass == min);
    forall e ensures e in nonPerformance <==> e in cs && IsBottom(cs, e) {
      FilterMembers(candidates, (e: CpuSetEntry) => e.efficiencyClass == min, e);
    }
    if island.None? {
      efficiency, lowPower := nonPerformance, nonPerformance;
      SplitMembers(cs, nonPerformance, efficiency, lowPower);
      return;
    }
    var key := island.value.key;
    lowPower := Filter(nonPerformance, (e: CpuSetEntry) => CpuIslandKey(e) == key);
    efficiency := Filter(nonPerformance, (e: CpuSetEntry) => CpuIslandKey(e) != key);
    forall e ensures e in lowPower <==> e in nonPerformance && CpuIslandKey(e) == key
             ensures e in efficiency <==> e in nonPerformance && CpuIslandKey(e) != key
    {
      FilterMembers(nonPerformance, (e: CpuSetEntry) => CpuIslandKey(e) == key, e);
      FilterMembers(nonPerformance, (e: CpuSetEntry) => CpuIslandKey(e) != key, e);
    }
    SplitMembers(cs, nonPerformance, efficiency, lowPower);
    NonEmptySplit(cs, efficiency, lowPower);
    if efficiency == [] || lowPower == [] {
      assert false;
    }
  }

  lemma IslandIsLowPower(cs: multiset<CpuSetEntry>, efficient: multiset<CpuSetEntry>, pool: multiset<CpuSetEntry>,
                         island: Option<IslandCandidate>)
    requires efficient == Part(cs, e => IsBottom(cs, e)) && pool == Part(cs, e => !IsBottom(cs, e))
    requires IsChosen(efficient, pool, island)
    ensures island == LowPowerIsland(cs)
  {
    hide IsChosen;
    ChosenIsUnique(efficient, pool, island, Chosen(Bottoms(cs), AboveBottom(cs)));
  }

  lemma SplitMembers(cs: multiset<CpuSetEntry>, bottoms: seq<CpuSetEntry>,
                     efficiency: seq<CpuSetEntry>, lowPower: seq<CpuSetEntry>)
    requires |ClassSet(cs)| == 2
    requires forall e :: e in bottoms <==> e in cs && IsBottom(cs, e)
    requires forall e :: e in efficiency <==>
               e in bottoms && (LowPowerIsland(cs).Some? ==> CpuIslandKey(e) != LowPowerIsland(cs).value.key)
    requires forall e :: e in lowPower <==>
               e in bottoms && (LowPowerIsland(cs).Some? ==> CpuIslandKey(e) == LowPowerIsland(cs).value.key)
    ensures Members(efficiency) == Tier(cs, Efficiency)
    ensures Members(lowPower) == Tier(cs, LowPowerEfficiency)
  {
    hide Tier, ClassSet, IsBottom, LowPowerIsland;
    forall e ensures e in efficiency <==> e in Tier(cs, Efficiency)
             ensures e in lowPower <==> e in Tier(cs, LowPowerEfficiency)
    {
      TwoTierMembers(cs, e);
    }
  }

  lemma NonEmptySplit(cs: multiset<CpuSetEntry>, efficiency: seq<CpuSetEntry>, lowPower: seq<CpuSetEntry>)
    requires |ClassSet(cs)| == 2 && LowPowerIsland(cs).Some?
    requires Members(efficiency) == Tier(cs, Efficiency) && Members(lowPower) == Tier(cs, LowPowerEfficiency)
    ensures efficiency != [] && lowPower != []
  {
    hide Tier, ClassSet, LowPowerIsland;
    IslandSplits(cs);
  }

  /** `AffinityTiers::classify` */
  method Classify(candidates: seq<CpuSetEntry>) returns (tiers: AffinityTiers)
    requires candidates != []
    ensures Classified(tiers, multiset(candidates))
  {
    hide Tier, ClassSet, IsBottom, IsTop, Members;
    ghost var cs := multiset(candidates);
    var cache := Filter(candidates, (e: CpuSetEntry) => e.cache);
    CacheMembers(candidates);
    var classes := EfficiencyClasses(candidates);
    EfficiencyClassesSpec(candidates);
    ExtremeClasses(candidates);
    if |classes| == 1 {
      OneClassTiers(cs);
      NoMembers();
      return AffinityTiers([], [], [], cache);
    }
    var max, min := classes[|classes| - 1], classes[0];
    ClassTiers(candidates, max, min);
    var performance := Filter(candidates, (e: CpuSetEntry) => e.efficiencyClass == max);
    if |classes| >= 3 {
      var efficiency := Filter(candidates, (e: CpuSetEntry) => e.efficiencyClass != min && e.efficiencyClass != max);
      var lowPower := Filter(candidates, (e: CpuSetEntry) => e.efficiencyClass == min);
      return AffinityTiers(performance, efficiency, lowPower, cache);
    }
    var efficiency, lowPower := SplitByIsland(candidates, min);
    return AffinityTiers(performance, efficiency, lowPower, cache);
  }

  lemma CacheMembers(candidates: seq<CpuSetEntry>)
    ensures Members(Filter(candidates, (e: CpuSetEntry) => e.cache)) == Tier(multiset(candidates), Cache)
  {
    FilteredMembers(candidates, (e: CpuSetEntry) => e.cache);
  }
}
