/** Low-power stand-ins on machines with a single efficiency class (src/affinity.rs). */
module HomogeneousCores {
  import opened Outcomes
  import opened Topology
  import opened CpuTiers

  /** Candidates with more than `count - 1` larger neighbours are not among the last `count`. */
  ghost function LastByIndex(cs: multiset<CpuSetEntry>, count: nat): set<nat> {
    set e | e in cs && Above(cs, e.logicalIndex) < count :: e.logicalIndex
  }

  /** How many candidates have a larger index. */
  ghost function Above(cs: multiset<CpuSetEntry>, index: nat): nat {
    CountIf(cs, (f: CpuSetEntry) => f.logicalIndex > index)
  }

  ghost predicate IsLast(cs: multiset<CpuSetEntry>, top: CpuSetEntry) {
    top in cs && forall other :: other in cs ==> other.logicalIndex <= top.logicalIndex
  }

  /** The candidates met by `steps` steps of two, downwards from the index `top`. */
  ghost function StepsOfTwo(cs: multiset<CpuSetEntry>, top: int, steps: nat): set<nat> {
    set e | e in cs && 0 <= top - e.logicalIndex < 2 * steps && (top - e.logicalIndex) % 2 == 0 :: e.logicalIndex
  }

  /** Down from the highest index in steps of two, at most four of them. */
  ghost function EverySecondFromTop(cs: multiset<CpuSetEntry>): set<nat> {
    set top, x | top in cs && IsLast(cs, top) && x in StepsOfTwo(cs, top.logicalIndex, 4) :: x
  }

  /** The LPE stand-in of a machine with one efficiency class, by number of candidates. */
  ghost function LowPowerFallback(cs: multiset<CpuSetEntry>): set<nat> {
    if |cs| <= 2 then LastByIndex(cs, 2)
    else if |cs| <= 7 then LastByIndex(cs, 2)
    else if |cs| == 8 then LastByIndex(cs, 4)
    else EverySecondFromTop(cs)
  }

  /** The E stand-in: every second logical processor. */
  ghost function OddIndices(cs: multiset<CpuSetEntry>): set<nat> {
    set e | e in cs && e.logicalIndex % 2 == 1 :: e.logicalIndex
  }

  predicate SortedByIndex(s: seq<CpuSetEntry>) {
    forall i, j :: 0 <= i < j < |s| ==> s[i].logicalIndex <= s[j].logicalIndex
  }

  function InsertByIndex(x: CpuSetEntry, s: seq<CpuSetEntry>): seq<CpuSetEntry> {
    if s == [] || x.logicalIndex <= s[0].logicalIndex then [x] + s else [s[0]] + InsertByIndex(x, s[1..])
  }

  /** `entries.sort_by_key(|entry| entry.logical_index)` */
  function SortByIndex(s: seq<CpuSetEntry>): seq<CpuSetEntry> {
    if s == [] then [] else InsertByIndex(s[0], SortByIndex(s[1..]))
  }

  lemma {:induction false} InsertByIndexMultiset(x: CpuSetEntry, s: seq<CpuSetEntry>)
    ensures multiset(InsertByIndex(x, s)) == multiset{x} + multiset(s)
  {
    if s == [] || x.logicalIndex <= s[0].logicalIndex {
    } else {
      InsertByIndexMultiset(x, s[1..]);
      assert s == [s[0]] + s[1..];
    }
  }

  lemma {:induction false} InsertByIndexSorted(x: CpuSetEntry, s: seq<CpuSetEntry>)
    requires SortedByIndex(s)
    ensures SortedByIndex(InsertByIndex(x, s))
  {
    if s == [] || x.logicalIndex <= s[0].logicalIndex {
    } else {
      InsertByIndexSorted(x, s[1..]);
      InsertByIndexMultiset(x, s[1..]);
      var r := InsertByIndex(x, s[1..]);
      forall i | 0 <= i < |r| ensures s[0].logicalIndex <= r[i].logicalIndex {
        assert r[i] in multiset(r);
        assert r[i] == x || r[i] in s[1..];
      }
    }
  }

  lemma {:induction false} SortByIndexSorts(s: seq<CpuSetEntry>)
    ensures SortedByIndex(SortByIndex(s)) && multiset(SortByIndex(s)) == multiset(s)
    ensures |SortByIndex(s)| == |s|
  {
    if s == [] {
    } else {
      SortByIndexSorts(s[1..]);
      InsertByIndexMultiset(s[0], SortByIndex(s[1..]));
      InsertByIndexSorted(s[0], SortByIndex(s[1..]));
      assert s == [s[0]] + s[1..];
    }
    assert |multiset(SortByIndex(s))| == |SortByIndex(s)| && |multiset(s)| == |s|;
  }

  /** In a sorted list, the entries above `bound` are its last ones. */
  lemma {:induction false} LargestAreLast(s: seq<CpuSetEntry>, bound: nat)
    requires SortedByIndex(s)
    ensures var above := |Filter(s, (f: CpuSetEntry) => f.logicalIndex > bound)|;
            && above <= |s|
            && forall j :: 0 <= j < |s| ==> (s[j].logicalIndex > bound <==> j >= |s| - above)
  {
    if s == [] {
    } else {
      LargestAreLast(s[1..], bound);
      if s[0].logicalIndex > bound {
        var above := |Filter(s[1..], (f: CpuSetEntry) => f.logicalIndex > bound)|;
        assert |s| > 1 ==> s[1].logicalIndex > bound && s[1..][0].logicalIndex > bound;
        assert above == |s| - 1;
      }
    }
  }

  /** In sorted order the candidates above an index are the last ones. */
  lemma AboveIsTail(s: seq<CpuSetEntry>, index: nat)
    requires SortedByIndex(s)
    ensures Above(multiset(s), index) <= |s|
    ensures forall j :: 0 <= j < |s| ==> (s[j].logicalIndex > index <==> j >= |s| - Above(multiset(s), index))
  {
    LargestAreLast(s, index);
    CountIfListing(s, (f: CpuSetEntry) => f.logicalIndex > index);
  }

  lemma TailIsLast(s: seq<CpuSetEntry>, count: nat, x: nat)
    requires SortedByIndex(s) && 0 < count <= |s|
    ensures x in Indices(Members(s[|s| - count..])) <==> x in LastByIndex(multiset(s), count)
  {
    if x in Indices(Members(s[|s| - count..])) {
      TailEntryIsLast(s, count, x);
    }
    if x in LastByIndex(multiset(s), count) {
      LastEntryInTail(s, count, x);
    }
  }

  lemma TailEntryIsLast(s: seq<CpuSetEntry>, count: nat, x: nat)
    requires SortedByIndex(s) && 0 < count <= |s| && x in Indices(Members(s[|s| - count..]))
    ensures x in LastByIndex(multiset(s), count)
  {
    AboveIsTail(s, x);
    hide Above, SortedByIndex;
    var i :| 0 <= i < count && s[|s| - count..][i].logicalIndex == x;
    assert s[|s| - count + i] in multiset(s);
  }

  lemma LastEntryInTail(s: seq<CpuSetEntry>, count: nat, x: nat)
    requires SortedByIndex(s) && 0 < count <= |s| && x in LastByIndex(multiset(s), count)
    ensures x in Indices(Members(s[|s| - count..]))
  {
    AboveIsTail(s, x);
    var e :| e in multiset(s) && e.logicalIndex == x && Above(multiset(s), x) < count;
    var i :| 0 <= i < |s| && s[i] == e;
    var j := |s| - Above(multiset(s), x) - 1;
    assert i <= j && s[i].logicalIndex <= s[j].logicalIndex <= x;
    hide Above, SortedByIndex, LastByIndex;
    assert s[j] == s[|s| - count..][j - (|s| - count)];
    assert s[j] in Members(s[|s| - count..]);
  }

  lemma FewAreAllLast(s: seq<CpuSetEntry>)
    requires SortedByIndex(s) && 0 < |s| <= 2
    ensures Indices(Members(s)) == LastByIndex(multiset(s), 2)
  {
    forall x ensures x in Indices(Members(s)) <==> x in LastByIndex(multiset(s), 2) {
      TailIsLast(s, |s|, x);
      assert s[|s| - |s|..] == s;
      if |s| == 1 && x in LastByIndex(multiset(s), 2) {
        var e :| e in multiset(s) && e.logicalIndex == x;
        assert e in Members(s);
      }
    }
  }

  /** Membership in the walk, by index. */
  lemma StepMember(cs: multiset<CpuSetEntry>, top: int, steps: nat, x: nat)
    ensures x in StepsOfTwo(cs, top, steps) <==>
              (exists e :: e in cs && e.logicalIndex == x) && 0 <= top - x < 2 * steps && (top - x) % 2 == 0
  {
    if (exists e :: e in cs && e.logicalIndex == x) && 0 <= top - x < 2 * steps && (top - x) % 2 == 0 {
      var e :| e in cs && e.logicalIndex == x;
      assert e.logicalIndex in StepsOfTwo(cs, top, steps);
    }
  }

  lemma EvenBelow(d: int, steps: nat)
    ensures 0 <= d < 2 * (steps + 1) && d % 2 == 0 <==> (0 <= d < 2 * steps && d % 2 == 0) || d == 2 * steps
  {
  }

  lemma OneMoreStep(cs: multiset<CpuSetEntry>, top: int, steps: nat)
    ensures StepsOfTwo(cs, top, steps + 1) ==
            StepsOfTwo(cs, top, steps) + (set e | e in cs && e.logicalIndex == top - 2 * steps :: e.logicalIndex)
  {
    var next := set e | e in cs && e.logicalIndex == top - 2 * steps :: e.logicalIndex;
    forall x: nat ensures x in StepsOfTwo(cs, top, steps + 1) <==> x in StepsOfTwo(cs, top, steps) || x in next {
      StepMember(cs, top, steps + 1, x);
      StepMember(cs, top, steps, x);
      hide StepsOfTwo;
      EvenBelow(top - x, steps);
      assert x in next <==> (exists e :: e in cs && e.logicalIndex == x) && x == top - 2 * steps;
    }
  }

  lemma StepsBelowZero(cs: multiset<CpuSetEntry>, top: int, steps: nat, more: nat)
    requires top - 2 * steps < 0 && steps <= more
    ensures StepsOfTwo(cs, top, more) == StepsOfTwo(cs, top, steps)
  {
    forall x ensures x in StepsOfTwo(cs, top, more) <==> x in StepsOfTwo(cs, top, steps) {
      if x in StepsOfTwo(cs, top, more) {
        var e :| e in cs && 0 <= top - e.logicalIndex < 2 * more && (top - e.logicalIndex) % 2 == 0 &&
            e.logicalIndex == x;
        assert e.logicalIndex in StepsOfTwo(cs, top, steps);
      }
    }
  }

  /** `entries.iter().find(|entry| entry.logical_index == index)` */
  method FindIndex(entries: seq<CpuSetEntry>, index: nat) returns (found: Option<CpuSetEntry>)
    ensures found.Some? ==> found.value in entries && found.value.logicalIndex == index
    ensures found.None? ==> forall e :: e in entries ==> e.logicalIndex != index
  {
    for i := 0 to |entries|
      invariant forall j :: 0 <= j < i ==> entries[j].logicalIndex != index
    {
      if entries[i].logicalIndex == index {
        return Some(entries[i]);
      }
    }
    return None;
  }

  lemma MembersAppend(s: seq<CpuSetEntry>, e: CpuSetEntry)
    ensures Members(s + [e]) == Members(s) + {e}
    ensures Indices(Members(s + [e])) == Indices(Members(s)) + {e.logicalIndex}
  {
    assert forall x :: x in s + [e] <==> x in s || x == e;
  }

  lemma NoSteps(cs: multiset<CpuSetEntry>, top: int)
    ensures StepsOfTwo(cs, top, 0) == {}
  {
  }

  lemma AtIndex(entries: seq<CpuSetEntry>, index: int, found: Option<CpuSetEntry>)
    requires found.Some? ==> found.value in entries && found.value.logicalIndex == index
    requires found.None? ==> forall e :: e in entries ==> e.logicalIndex != index
    ensures (set e | e in multiset(entries) && e.logicalIndex == index :: e.logicalIndex) ==
            if found.Some? then {found.value.logicalIndex} else {}
  {
    assert forall e :: e in multiset(entries) ==> e in entries;
    if found.Some? { assert found.value in multiset(entries); }
  }

  /** The walk taken with nine or more candidates. */
  method WalkDown(entries: seq<CpuSetEntry>) returns (selected: seq<CpuSetEntry>)
    requires SortedByIndex(entries) && entries != []
    ensures Indices(Members(selected)) == EverySecondFromTop(multiset(entries))
    ensures Members(selected) <= Members(entries)
  {
    hide StepsOfTwo, EverySecondFromTop, Indices, Members, SortedByIndex;
    selected := [];
    ghost var cs := multiset(entries);
    var index := entries[|entries| - 1].logicalIndex;
    ghost var top: int := index;
    LastIsLast(entries);
    NoSteps(cs, top);
    NoMembers();
    for step := 0 to 4
      invariant index == top - 2 * step
      invariant Indices(Members(selected)) == StepsOfTwo(cs, top, step)
      invariant Members(selected) <= Members(entries)
    {
      var entry := FindIndex(entries, index);
      OneMoreStep(cs, top, step);
      AtIndex(entries, index, entry);
      if entry.Some? {
        MembersAppend(selected, entry.value);
        IsMember(entries, entry.value);
        selected := selected + [entry.value];
      }
      if index < 2 {
        StepsBelowZero(cs, top, step + 1, 4);
        return;
      }
      index := index - 2;
    }
  }

  lemma IsMember(entries: seq<CpuSetEntry>, e: CpuSetEntry)
    requires e in entries
    ensures e in Members(entries) && e.logicalIndex in Indices(Members(entries))
  {
  }

  lemma LastIsLast(entries: seq<CpuSetEntry>)
    requires SortedByIndex(entries) && entries != []
    ensures EverySecondFromTop(multiset(entries)) ==
            StepsOfTwo(multiset(entries), entries[|entries| - 1].logicalIndex, 4)
  {
    var cs, last := multiset(entries), entries[|entries| - 1];
    forall e | e in cs ensures e.logicalIndex <= last.logicalIndex {
      assert e in entries;
    }
    assert last in cs && IsLast(cs, last);
    assert forall top :: IsLast(cs, top) ==> top.logicalIndex == last.logicalIndex;
  }

  /** `homogeneous_low_power_efficiency_entries` */
  method LowPowerFallbackEntries(candidates: seq<CpuSetEntry>) returns (selected: seq<CpuSetEntry>)
    ensures Indices(Members(selected)) == LowPowerFallback(multiset(candidates))
    ensures Members(selected) <= Members(candidates)
  {
    var entries := SortByIndex(candidates);
    SortByIndexSorts(candidates);
    SameMembers(entries, candidates);
    var n := |entries|;
    assert n == |multiset(entries)|;
    if n == 0 {
      selected := [];
    } else if n <= 2 {
      FewAreAllLast(entries);
      selected := entries;
    } else if n <= 7 {
      selected := Tail(entries, 2);
    } else if n == 8 {
      selected := Tail(entries, 4);
    } else {
      selected := WalkDown(entries);
    }
  }

  lemma SameMembers(a: seq<CpuSetEntry>, b: seq<CpuSetEntry>)
    requires multiset(a) == multiset(b)
    ensures Members(a) == Members(b)
  {
    forall e ensures e in a <==> e in b {
      assert e in a <==> e in multiset(a);
      assert e in b <==> e in multiset(b);
    }
  }

  /** `entries[entries.len() - count..].to_vec()` */
  method Tail(entries: seq<CpuSetEntry>, count: nat) returns (selected: seq<CpuSetEntry>)
    requires SortedByIndex(entries) && 0 < count <= |entries|
    ensures Indices(Members(selected)) == LastByIndex(multiset(entries), count)
    ensures Members(selected) <= Members(entries)
  {
    selected := entries[|entries| - count..];
    forall x ensures x in Indices(Members(selected)) <==> x in LastByIndex(multiset(entries), count) {
      TailIsLast(entries, count, x);
    }
  }
}
