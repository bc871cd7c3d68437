/**
 The CPU topology half of the affinity compiler (src/topology.rs): efficiency classes and the
 choice of the low-power island.  Specifications speak of multisets of entries, so that they
 cannot depend on the order in which the system lists its processors.
 */
module Topology {
  import opened Outcomes

  datatype CpuSetEntry = CpuSetEntry(
    id: nat,
    group: nat,
    logicalIndex: nat,
    coreIndex: nat,
    lastLevelCacheIndex: nat,
    numaNode: nat,
    efficiencyClass: nat,
    cache: bool,
    parked: bool,
    allocatedToOther: bool,
    realtime: bool)

  // ---------------------------------------------------------------- filtering and counting

  function Filter<T>(s: seq<T>, p: T -> bool): (r: seq<T>) {
    if s == [] then [] else (if p(s[0]) then [s[0]] else []) + Filter(s[1..], p)
  }

  lemma {:induction false} FilterMembers<T>(s: seq<T>, p: T -> bool, x: T)
    ensures x in Filter(s, p) <==> x in s && p(x)
  {
    if s == [] {
    } else {
      FilterMembers(s[1..], p, x);
    }
  }

  lemma {:induction false} FilterMultiplicity<T>(s: seq<T>, p: T -> bool, x: T)
    ensures multiset(Filter(s, p))[x] == if p(x) then multiset(s)[x] else 0
  {
    if s == [] {
    } else {
      FilterMultiplicity(s[1..], p, x);
      assert s == [s[0]] + s[1..];
    }
  }

  lemma {:induction false} FilterAppend<T>(s: seq<T>, x: T, p: T -> bool)
    ensures Filter(s + [x], p) == Filter(s, p) + (if p(x) then [x] else [])
  {
    if s == [] {
      assert s + [x] == [x] && [x][1..] == [];
    } else {
      FilterAppend(s[1..], x, p);
      assert (s + [x])[1..] == s[1..] + [x];
    }
  }

  lemma SameMultiplicities<T>(a: multiset<T>, b: multiset<T>)
    requires forall x :: x in a || x in b ==> a[x] == b[x]
    ensures a == b
  {
  }

  lemma SamePermutationSameFilter<T>(s: seq<T>, t: seq<T>, p: T -> bool)
    requires multiset(s) == multiset(t)
    ensures multiset(Filter(s, p)) == multiset(Filter(t, p))
    ensures |Filter(s, p)| == |Filter(t, p)|
  {
    var a, b := multiset(Filter(s, p)), multiset(Filter(t, p));
    forall x | x in a || x in b ensures a[x] == b[x] {
      FilterMultiplicity(s, p, x);
      FilterMultiplicity(t, p, x);
    }
    SameMultiplicities(a, b);
    assert |a| == |Filter(s, p)| && |b| == |Filter(t, p)|;
  }

  ghost predicate Lists<T>(s: seq<T>, m: multiset<T>) {
    multiset(s) == m
  }

  lemma {:induction false} SomeListing<T>(m: multiset<T>)
    ensures exists s: seq<T> :: Lists(s, m)
    decreases |m|
  {
    if m == multiset{} {
      assert Lists([], m);
    } else {
      var x :| x in m;
      SomeListing(m - multiset{x});
      var s: seq<T> :| Lists(s, m - multiset{x});
      assert Lists(s + [x], m);
    }
  }

  ghost function Listing<T>(m: multiset<T>): (s: seq<T>)
    ensures multiset(s) == m
  {
    SomeListing(m);
    var s: seq<T> :| Lists(s, m);
    s
  }

  /** How many members of `m`, with repetition, satisfy `p`. */
  ghost function CountIf<T>(m: multiset<T>, p: T -> bool): nat {
    |Filter(Listing(m), p)|
  }

  lemma CountIfListing<T>(s: seq<T>, p: T -> bool)
    ensures CountIf(multiset(s), p) == |Filter(s, p)|
  {
    SamePermutationSameFilter(s, Listing(multiset(s)), p);
  }

  ghost function MaxOf(s: set<nat>): (m: nat)
    requires s != {}
    ensures m in s && forall x :: x in s ==> x <= m
  {
    var x :| x in s;
    if s == {x} then x
    else
      assert s == {x} + (s - {x});
      var rest := MaxOf(s - {x});
      if rest < x then x else rest
  }

  // ---------------------------------------------------------------- efficiency classes

  predicate StrictlyIncreasing(s: seq<nat>) {
    forall i, j :: 0 <= i < j < |s| ==> s[i] < s[j]
  }

  predicate NonDecreasing(s: seq<nat>) {
    forall i, j :: 0 <= i < j < |s| ==> s[i] <= s[j]
  }

  function Insert(x: nat, s: seq<nat>): seq<nat> {
    if s == [] || x <= s[0] then [x] + s else [s[0]] + Insert(x, s[1..])
  }

  function Sort(s: seq<nat>): seq<nat> {
    if s == [] then [] else Insert(s[0], Sort(s[1..]))
  }

  function Dedup(s: seq<nat>): seq<nat> {
    if |s| <= 1 then s
    else if s[0] == s[1] then Dedup(s[1..])
    else [s[0]] + Dedup(s[1..])
  }

  function Classes(entries: seq<CpuSetEntry>): seq<nat> {
    seq(|entries|, i requires 0 <= i < |entries| => entries[i].efficiencyClass)
  }

  /** `efficiency_classes` */
  function EfficiencyClasses(entries: seq<CpuSetEntry>): seq<nat> {
    Dedup(Sort(Classes(entries)))
  }

  lemma {:induction false} InsertSorted(x: nat, s: seq<nat>)
    requires NonDecreasing(s)
    ensures NonDecreasing(Insert(x, s))
    ensures forall y :: y in Insert(x, s) <==> y == x || y in s
  {
    if s == [] || x <= s[0] {
    } else {
      InsertSorted(x, s[1..]);
      assert s == [s[0]] + s[1..];
      var r := Insert(x, s[1..]);
      forall i | 0 <= i < |r| ensures s[0] <= r[i] {
        assert r[i] in r;
      }
    }
  }

  lemma {:induction false} SortSorts(s: seq<nat>)
    ensures NonDecreasing(Sort(s))
    ensures forall y :: y in Sort(s) <==> y in s
  {
    if s == [] {
    } else {
      SortSorts(s[1..]);
      InsertSorted(s[0], Sort(s[1..]));
      assert s == [s[0]] + s[1..];
    }
  }

  lemma {:induction false} DedupSorted(s: seq<nat>)
    requires NonDecreasing(s)
    ensures StrictlyIncreasing(Dedup(s))
    ensures forall y :: y in Dedup(s) <==> y in s
    ensures s != [] ==> Dedup(s) != [] && Dedup(s)[0] == s[0]
  {
    if |s| <= 1 {
    } else {
      DedupSorted(s[1..]);
      assert s == [s[0]] + s[1..];
      var rest := Dedup(s[1..]);
      if s[0] != s[1] {
        forall i | 0 <= i < |rest| ensures s[0] < rest[i] {
          assert rest[i] in s[1..];
        }
      }
    }
  }

  ghost function ClassSet(m: multiset<CpuSetEntry>): set<nat> {
    set e | e in m :: e.efficiencyClass
  }

  function ToSet(s: seq<nat>): set<nat> {
    if s == [] then {} else {s[0]} + ToSet(s[1..])
  }

  lemma {:induction false} ToSetMembers(s: seq<nat>, x: nat)
    ensures x in ToSet(s) <==> x in s
  {
    if s == [] {
    } else {
      ToSetMembers(s[1..], x);
    }
  }

  lemma {:induction false} StrictSetSize(s: seq<nat>)
    requires StrictlyIncreasing(s)
    ensures |ToSet(s)| == |s|
  {
    if s == [] {
    } else {
      StrictSetSize(s[1..]);
      ToSetMembers(s[1..], s[0]);
    }
  }

  /** The class list is strictly increasing and holds exactly the classes that occur. */
  lemma EfficiencyClassesSpec(entries: seq<CpuSetEntry>)
    ensures var classes := EfficiencyClasses(entries);
            && StrictlyIncreasing(classes)
            && (forall c :: c in classes <==> c in ClassSet(multiset(entries)))
            && |classes| == |ClassSet(multiset(entries))|
  {
    var all := Classes(entries);
    SortSorts(all);
    DedupSorted(Sort(all));
    var classes := EfficiencyClasses(entries);
    forall c ensures c in classes <==> c in ClassSet(multiset(entries)) {
      if c in classes {
        var i :| 0 <= i < |all| && all[i] == c;
        assert entries[i] in multiset(entries);
      }
      if c in ClassSet(multiset(entries)) {
        var e :| e in multiset(entries) && e.efficiencyClass == c;
        var i :| 0 <= i < |entries| && entries[i] == e;
        assert all[i] == c;
      }
    }
    StrictSetSize(classes);
    forall x ensures x in ToSet(classes) <==> x in ClassSet(multiset(entries)) {
      ToSetMembers(classes, x);
    }
    assert ToSet(classes) == ClassSet(multiset(entries));
  }

  // ---------------------------------------------------------------- islands

  datatype IslandKey = IslandKey(group: nat, numaNode: nat, lastLevelCacheIndex: nat)

  datatype IslandCandidate = IslandCandidate(
    key: IslandKey,
    count: nat,
    maxLogicalIndex: nat,
    sharesWithHigherEfficiency: bool)

  /** `cpu_island_key` */
  function CpuIslandKey(entry: CpuSetEntry): IslandKey {
    IslandKey(entry.group, entry.numaNode, entry.lastLevelCacheIndex)
  }

  /** The derived order on keys. */
  predicate KeyBelow(a: IslandKey, b: IslandKey) {
    || a.group < b.group
    || (a.group == b.group && a.numaNode < b.numaNode)
    || (a.group == b.group && a.numaNode == b.numaNode && a.lastLevelCacheIndex < b.lastLevelCacheIndex)
  }

  /** `a` ranks strictly above `b`: unshared first, then the higher index, the larger count, the smaller key. */
  predicate Outranks(a: IslandCandidate, b: IslandCandidate) {
    if a.sharesWithHigherEfficiency != b.sharesWithHigherEfficiency then b.sharesWithHigherEfficiency
    else if a.maxLogicalIndex != b.maxLogicalIndex then a.maxLogicalIndex > b.maxLogicalIndex
    else if a.count != b.count then a.count > b.count
    else KeyBelow(a.key, b.key)
  }

  ghost function Keys(m: multiset<CpuSetEntry>): set<IslandKey> {
    set e | e in m :: CpuIslandKey(e)
  }

  ghost function IndicesOn(m: multiset<CpuSetEntry>, key: IslandKey): set<nat> {
    set e | e in m && CpuIslandKey(e) == key :: e.logicalIndex
  }

  /** The island `key` of the efficient entries, seen against the pool of higher-class entries. */
  ghost function Island(efficient: multiset<CpuSetEntry>, pool: multiset<CpuSetEntry>, key: IslandKey): IslandCandidate
    requires key in Keys(efficient)
  {
    var e :| e in efficient && CpuIslandKey(e) == key;
    assert e.logicalIndex in IndicesOn(efficient, key);
    IslandCandidate(
      key,
      CountIf(efficient, (e: CpuSetEntry) => CpuIslandKey(e) == key),
      MaxOf(IndicesOn(efficient, key)),
      key in Keys(pool))
  }

  /** `best` is the island that outranks every other one; with fewer than two islands there is none. */
  ghost predicate IsChosen(efficient: multiset<CpuSetEntry>, pool: multiset<CpuSetEntry>,
                           best: Option<IslandCandidate>) {
    match best
    case None => |Keys(efficient)| <= 1
    case Some(candidate) =>
      && |Keys(efficient)| > 1
      && candidate.key in Keys(efficient)
      && candidate == Island(efficient, pool, candidate.key)
      && forall key :: key in Keys(efficient) && key != candidate.key ==>
           Outranks(candidate, Island(efficient, pool, key))
  }

  lemma OutranksAsymmetric(a: IslandCandidate, b: IslandCandidate)
    ensures !(Outranks(a, b) && Outranks(b, a))
    ensures a.key == b.key || Outranks(a, b) || Outranks(b, a)
  {
  }

  /** The choice is a function of the two multisets: at most one candidate qualifies. */
  lemma ChosenIsUnique(efficient: multiset<CpuSetEntry>, pool: multiset<CpuSetEntry>,
                       a: Option<IslandCandidate>, b: Option<IslandCandidate>)
    requires IsChosen(efficient, pool, a) && IsChosen(efficient, pool, b)
    ensures a == b
  {
    if a.Some? && b.Some? {
      OutranksAsymmetric(a.value, b.value);
    }
  }

  // ---------------------------------------------------------------- the choice, in terms of entries

  predicate SameIsland(a: CpuSetEntry, b: CpuSetEntry) {
    a.group == b.group && a.numaNode == b.numaNode && a.lastLevelCacheIndex == b.lastLevelCacheIndex
  }

  /** An entry of the pool is on the island of `e`. */
  ghost predicate Shares(e: CpuSetEntry, pool: multiset<CpuSetEntry>) {
    exists h :: h in pool && SameIsland(h, e)
  }

  ghost function SizeOfIsland(m: multiset<CpuSetEntry>, e: CpuSetEntry): nat {
    CountIf(m, (f: CpuSetEntry) => SameIsland(f, e))
  }

  /** The islands in the order of group, node and cache. */
  predicate Precedes(a: CpuSetEntry, b: CpuSetEntry) {
    if a.group != b.group then a.group < b.group
    else if a.numaNode != b.numaNode then a.numaNode < b.numaNode
    else a.lastLevelCacheIndex < b.lastLevelCacheIndex
  }

  /**
   The island of `top` is the one to choose, and `top` its entry of greatest index: it is one the pool has no entry on
   if there is such an island; on that side no entry has a greater index; an island that has the same greatest index
   has no more entries, and if it has as many, it comes later in the order of islands.
   */
  ghost predicate IsPreferred(efficient: multiset<CpuSetEntry>, pool: multiset<CpuSetEntry>, top: CpuSetEntry) {
    && top in efficient
    && ((exists f :: f in efficient && !Shares(f, pool)) ==> !Shares(top, pool))
    && forall f :: f in efficient && (Shares(f, pool) <==> Shares(top, pool)) ==>
         && f.logicalIndex <= top.logicalIndex
         && (!SameIsland(f, top) && f.logicalIndex == top.logicalIndex ==>
               SizeOfIsland(efficient, f) < SizeOfIsland(efficient, top) ||
               (SizeOfIsland(efficient, f) == SizeOfIsland(efficient, top) && Precedes(top, f)))
  }

  lemma KeysAreIslands(e: CpuSetEntry, f: CpuSetEntry)
    ensures CpuIslandKey(e) == CpuIslandKey(f) <==> SameIsland(e, f)
    ensures KeyBelow(CpuIslandKey(e), CpuIslandKey(f)) <==> Precedes(e, f)
  {
  }

  lemma {:induction false} SameFilter<T>(s: seq<T>, p: T -> bool, q: T -> bool)
    requires forall x :: x in s ==> (p(x) <==> q(x))
    ensures Filter(s, p) == Filter(s, q)
  {
    if s == [] {
    } else {
      assert s[0] in s;
      SameFilter(s[1..], p, q);
    }
  }

  lemma TwoKeys(keys: set<IslandKey>, a: IslandKey, b: IslandKey)
    requires a in keys && b in keys && a != b
    ensures |keys| > 1
  {
    assert b in keys - {a};
    assert keys == (keys - {a}) + {a};
  }

  lemma SoleKey(keys: set<IslandKey>, a: IslandKey)
    requires a in keys && forall b :: b in keys ==> b == a
    ensures |keys| <= 1
  {
    assert keys == {a};
  }

  lemma OneIsland(m: multiset<CpuSetEntry>)
    ensures |Keys(m)| <= 1 <==> forall e, f :: e in m && f in m ==> SameIsland(e, f)
  {
    if exists e, f :: e in m && f in m && !SameIsland(e, f) {
      var e, f :| e in m && f in m && !SameIsland(e, f);
      TwoKeys(Keys(m), CpuIslandKey(e), CpuIslandKey(f));
    } else if exists e :: e in m {
      var e :| e in m;
      assert CpuIslandKey(e) in Keys(m);
      SoleKey(Keys(m), CpuIslandKey(e));
    } else {
      assert Keys(m) == {};
    }
  }

  /** What an island is, seen from one of its entries. */
  lemma IslandOf(efficient: multiset<CpuSetEntry>, pool: multiset<CpuSetEntry>, e: CpuSetEntry)
    requires e in efficient
    ensures CpuIslandKey(e) in Keys(efficient)
    ensures var island := Island(efficient, pool, CpuIslandKey(e));
            && island.count == SizeOfIsland(efficient, e) && e.logicalIndex <= island.maxLogicalIndex
            && (island.sharesWithHigherEfficiency <==> Shares(e, pool))
  {
    var key := CpuIslandKey(e);
    SameFilter(Listing(efficient), (f: CpuSetEntry) => CpuIslandKey(f) == key, (f: CpuSetEntry) => SameIsland(f, e));
    assert e.logicalIndex in IndicesOn(efficient, key);
    if key in Keys(pool) {
      var h :| h in pool && CpuIslandKey(h) == key;
      assert SameIsland(h, e);
    }
    if Shares(e, pool) {
      var h :| h in pool && SameIsland(h, e);
      assert CpuIslandKey(h) == key;
    }
  }

  /** The chosen island is the preferred one. */
  lemma ChosenIsPreferred(efficient: multiset<CpuSetEntry>, pool: multiset<CpuSetEntry>, best: IslandCandidate)
    returns (top: CpuSetEntry)
    requires IsChosen(efficient, pool, Some(best))
    ensures CpuIslandKey(top) == best.key && IsPreferred(efficient, pool, top)
  {
    var index := MaxOf(IndicesOn(efficient, best.key));
    top :| top in efficient && CpuIslandKey(top) == best.key && top.logicalIndex == index;
    IslandOf(efficient, pool, top);
    hide Island, Shares, SizeOfIsland, Keys, IndicesOn;
    forall f | f in efficient
      ensures !Shares(f, pool) ==> !Shares(top, pool)
      ensures (Shares(f, pool) <==> Shares(top, pool)) ==>
                && f.logicalIndex <= top.logicalIndex
                && (!SameIsland(f, top) && f.logicalIndex == top.logicalIndex ==>
                      SizeOfIsland(efficient, f) < SizeOfIsland(efficient, top) ||
                      (SizeOfIsland(efficient, f) == SizeOfIsland(efficient, top) && Precedes(top, f)))
    {
      IslandOf(efficient, pool, f);
      KeysAreIslands(f, top);
      KeysAreIslands(top, f);
      if !SameIsland(f, top) {
        assert Outranks(best, Island(efficient, pool, CpuIslandKey(f)));
      }
    }
  }

  lemma ChoiceMeaning(efficient: seq<CpuSetEntry>, pool: seq<CpuSetEntry>, best: Option<IslandCandidate>)
    requires IsChosen(multiset(efficient), multiset(pool), best)
    ensures best.None? <==> forall e, f :: e in efficient && f in efficient ==> SameIsland(e, f)
    ensures best.Some? ==>
              exists top :: CpuIslandKey(top) == best.value.key &&
                            IsPreferred(multiset(efficient), multiset(pool), top)
  {
    OneIsland(multiset(efficient));
    assert forall e :: e in efficient <==> e in multiset(efficient);
    hide Island, Keys, Outranks, IsPreferred, SameIsland;
    if best.Some? {
      var top := ChosenIsPreferred(multiset(efficient), multiset(pool), best.value);
    }
  }

  /** The tally of one island over the entries seen so far. */
  ghost predicate TalliedAt(island: IslandCandidate, seen: seq<CpuSetEntry>, key: IslandKey) {
    && island.key == key
    && island.count == |Filter(seen, (e: CpuSetEntry) => CpuIslandKey(e) == key)|
    && island.maxLogicalIndex in IndicesOn(multiset(seen), key)
    && forall x :: x in IndicesOn(multiset(seen), key) ==> x <= island.maxLogicalIndex
  }

  /** What the map of `choose_efficiency_island` holds for the entries seen so far. */
  ghost predicate Tallied(islands: map<IslandKey, IslandCandidate>, seen: seq<CpuSetEntry>) {
    && islands.Keys == Keys(multiset(seen))
    && forall key :: key in islands ==> TalliedAt(islands[key], seen, key)
  }

  lemma KeysAppend(seen: seq<CpuSetEntry>, entry: CpuSetEntry)
    ensures Keys(multiset(seen + [entry])) == Keys(multiset(seen)) + {CpuIslandKey(entry)}
  {
    var before, after := multiset(seen), multiset(seen + [entry]);
    assert after == before + multiset{entry};
    forall k ensures k in Keys(after) <==> k in Keys(before) || k == CpuIslandKey(entry) {
      if k in Keys(before) {
        var e :| e in before && CpuIslandKey(e) == k;
        assert e in after;
      }
      if k == CpuIslandKey(entry) { assert entry in after; }
    }
  }

  lemma IndicesAppend(seen: seq<CpuSetEntry>, entry: CpuSetEntry, key: IslandKey)
    ensures IndicesOn(multiset(seen + [entry]), key) ==
            IndicesOn(multiset(seen), key) + (if CpuIslandKey(entry) == key then {entry.logicalIndex} else {})
  {
    var before, after := multiset(seen), multiset(seen + [entry]);
    assert after == before + multiset{entry};
    forall x ensures x in IndicesOn(after, key) <==>
                     x in IndicesOn(before, key) || (CpuIslandKey(entry) == key && x == entry.logicalIndex)
    {
      if x in IndicesOn(before, key) {
        var e :| e in before && CpuIslandKey(e) == key && e.logicalIndex == x;
        assert e in after;
      }
      if CpuIslandKey(entry) == key && x == entry.logicalIndex { assert entry in after; }
    }
  }

  lemma UnseenIsland(seen: seq<CpuSetEntry>, key: IslandKey)
    requires key !in Keys(multiset(seen))
    ensures Filter(seen, (e: CpuSetEntry) => CpuIslandKey(e) == key) == []
    ensures IndicesOn(multiset(seen), key) == {}
  {
    forall e | e in seen ensures CpuIslandKey(e) != key {
      assert e in multiset(seen);
    }
    NoneMatch(seen, (e: CpuSetEntry) => CpuIslandKey(e) == key);
  }

  function Bump(island: IslandCandidate, entry: CpuSetEntry): IslandCandidate {
    island.(count := island.count + 1,
            maxLogicalIndex := if island.maxLogicalIndex < entry.logicalIndex
                               then entry.logicalIndex else island.maxLogicalIndex)
  }

  /** One iteration of the tallying loop. */
  function Counted(islands: map<IslandKey, IslandCandidate>, entry: CpuSetEntry): IslandCandidate {
    var key := CpuIslandKey(entry);
    Bump(if key in islands then islands[key] else IslandCandidate(key, 0, 0, false), entry)
  }

  lemma TallyOther(island: IslandCandidate, seen: seq<CpuSetEntry>, entry: CpuSetEntry, key: IslandKey)
    requires TalliedAt(island, seen, key) && CpuIslandKey(entry) != key
    ensures TalliedAt(island, seen + [entry], key)
  {
    IndicesAppend(seen, entry, key);
    FilterAppend(seen, entry, (e: CpuSetEntry) => CpuIslandKey(e) == key);
  }

  lemma TallyKnown(island: IslandCandidate, seen: seq<CpuSetEntry>, entry: CpuSetEntry)
    requires TalliedAt(island, seen, CpuIslandKey(entry))
    ensures TalliedAt(Bump(island, entry), seen + [entry], CpuIslandKey(entry))
  {
    var key := CpuIslandKey(entry);
    IndicesAppend(seen, entry, key);
    FilterAppend(seen, entry, (e: CpuSetEntry) => CpuIslandKey(e) == key);
  }

  lemma TallyNew(seen: seq<CpuSetEntry>, entry: CpuSetEntry)
    requires CpuIslandKey(entry) !in Keys(multiset(seen))
    ensures var key := CpuIslandKey(entry);
            TalliedAt(Bump(IslandCandidate(key, 0, 0, false), entry), seen + [entry], key)
  {
    var key := CpuIslandKey(entry);
    UnseenIsland(seen, key);
    IndicesAppend(seen, entry, key);
    FilterAppend(seen, entry, (e: CpuSetEntry) => CpuIslandKey(e) == key);
  }

  lemma TallyOne(islands: map<IslandKey, IslandCandidate>, seen: seq<CpuSetEntry>, entry: CpuSetEntry)
    requires Tallied(islands, seen)
    ensures Tallied(islands[CpuIslandKey(entry) := Counted(islands, entry)], seen + [entry])
  {
    var key := CpuIslandKey(entry);
    var after := islands[key := Counted(islands, entry)];
    KeysAppend(seen, entry);
    if key in islands {
      TallyKnown(islands[key], seen, entry);
    } else {
      TallyNew(seen, entry);
    }
    forall k | k in after && k != key ensures TalliedAt(after[k], seen + [entry], k) {
      TallyOther(islands[k], seen, entry, k);
    }
    hide TalliedAt, Keys;
  }

  lemma {:induction false} NoneMatch<T>(s: seq<T>, p: T -> bool)
    requires forall x :: x in s ==> !p(x)
    ensures Filter(s, p) == []
  {
    if s == [] {
    } else {
      assert s[0] in s;
      NoneMatch(s[1..], p);
    }
  }

  lemma TalliedIsIsland(islands: map<IslandKey, IslandCandidate>, efficient: seq<CpuSetEntry>,
                        pool: seq<CpuSetEntry>, key: IslandKey)
    requires Tallied(islands, efficient) && key in islands
    requires islands[key].sharesWithHigherEfficiency <==> key in Keys(multiset(pool))
    ensures islands[key] == Island(multiset(efficient), multiset(pool), key) && islands[key].key == key
  {
    CountIfListing(efficient, (e: CpuSetEntry) => CpuIslandKey(e) == key);
    var top := MaxOf(IndicesOn(multiset(efficient), key));
    assert top <= islands[key].maxLogicalIndex <= top;
  }

  /** `choose_efficiency_island`: two tallying passes over a map, then the maximum of its values. */
  method ChooseEfficiencyIsland(efficient: seq<CpuSetEntry>, pool: seq<CpuSetEntry>)
    returns (best: Option<IslandCandidate>)
    ensures IsChosen(multiset(efficient), multiset(pool), best)
    ensures best.None? <==> forall e, f :: e in efficient && f in efficient ==> SameIsland(e, f)
    ensures best.Some? ==>
              exists top :: CpuIslandKey(top) == best.value.key &&
                            IsPreferred(multiset(efficient), multiset(pool), top)
  {
    hide TalliedAt, IsPreferred, SameIsland, Outranks, Island, CpuIslandKey, Keys;
    var islands := TallyIslands(efficient);
    islands := MarkShared(islands, efficient, pool);
    if |islands| <= 1 {
      ChoiceMeaning(efficient, pool, None);
      return None;
    }
    forall key | key in islands
      ensures islands[key] == Island(multiset(efficient), multiset(pool), key) && islands[key].key == key
    {
      TalliedIsIsland(islands, efficient, pool, key);
    }
    best := MaximumByRank(islands);
    ChoiceMeaning(efficient, pool, best);
  }

  lemma TallyNone()
    ensures Tallied(map[], [])
  {
    NoKeys();
  }

  method TallyIslands(efficient: seq<CpuSetEntry>) returns (islands: map<IslandKey, IslandCandidate>)
    ensures Tallied(islands, efficient)
    ensures forall key :: key in islands ==> !islands[key].sharesWithHigherEfficiency
  {
    hide Tallied, TalliedAt, Filter, Keys;
    islands := map[];
    TallyNone();
    assert efficient[..0] == [];
    for i := 0 to |efficient|
      invariant Tallied(islands, efficient[..i])
      invariant forall key :: key in islands ==> !islands[key].sharesWithHigherEfficiency
    {
      var entry := efficient[i];
      var key := CpuIslandKey(entry);
      TallyOne(islands, efficient[..i], entry);
      assert efficient[..i + 1] == efficient[..i] + [entry];
      var island := if key in islands then islands[key] else IslandCandidate(key, 0, 0, false);
      island := island.(count := island.count + 1);
      if island.maxLogicalIndex < entry.logicalIndex {
        island := island.(maxLogicalIndex := entry.logicalIndex);
      }
      assert island == Counted(islands, entry);
      islands := islands[key := island];
    }
    assert efficient[..|efficient|] == efficient;
  }

  lemma NoKeys()
    ensures Keys(multiset([])) == {}
  {
  }

  method MarkShared(tallied: map<IslandKey, IslandCandidate>, ghost efficient: seq<CpuSetEntry>, pool: seq<CpuSetEntry>)
    returns (islands: map<IslandKey, IslandCandidate>)
    requires Tallied(tallied, efficient)
    requires forall key :: key in tallied ==> !tallied[key].sharesWithHigherEfficiency
    ensures Tallied(islands, efficient)
    ensures forall key :: key in islands ==>
              (islands[key].sharesWithHigherEfficiency <==> key in Keys(multiset(pool)))
  {
    hide Keys;
    islands := tallied;
    NoKeys();
    assert pool[..0] == [];
    for j := 0 to |pool|
      invariant islands.Keys == tallied.Keys
      invariant forall key :: key in islands ==>
                  islands[key] == tallied[key].(sharesWithHigherEfficiency := key in Keys(multiset(pool[..j])))
    {
      hide TalliedAt, Keys;
      var key := CpuIslandKey(pool[j]);
      assert pool[..j + 1] == pool[..j] + [pool[j]];
      KeysAppend(pool[..j], pool[j]);
      if key in islands {
        islands := islands[key := islands[key].(sharesWithHigherEfficiency := true)];
      }
    }
    assert pool[..|pool|] == pool;
    forall key | key in islands ensures TalliedAt(islands[key], efficient, key) {
      assert TalliedAt(tallied[key], efficient, key);
    }
  }

  /** `islands.values().max_by_key(..)`; the key is part of the rank, so the visiting order is irrelevant. */
  method MaximumByRank(islands: map<IslandKey, IslandCandidate>) returns (best: Option<IslandCandidate>)
    requires |islands| > 1
    requires forall key :: key in islands ==> islands[key].key == key
    ensures best.Some? && best.value.key in islands && best.value == islands[best.value.key]
    ensures forall key :: key in islands && key != best.value.key ==> Outranks(best.value, islands[key])
  {
    var todo := islands.Keys;
    var first :| first in todo;
    var top := islands[first];
    todo := todo - {first};
    while todo != {}
      invariant todo <= islands.Keys
      invariant top.key in islands && top == islands[top.key] && top.key !in todo
      invariant forall key :: key in islands && key !in todo && key != top.key ==> Outranks(top, islands[key])
      decreases |todo|
    {
      var key :| key in todo;
      todo := todo - {key};
      if Outranks(islands[key], top) {
        top := islands[key];
      }
    }
    return Some(top);
  }
}
