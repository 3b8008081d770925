/** cache.rs: flashblocks that arrived before the canonical block they build on. */
module Cache {
  import opened Types
  import opened Validation

  const MAX_CACHE_AHEAD_BLOCKS: nat := 5

  /** Entries keyed by number and index, and the canonical height last observed. */
  datatype CacheState = CacheState(entries: map<nat, map<nat, FlashBlock>>, canonical: Option<nat>)

  predicate IsCacheable(c: CacheState, n: nat) {
    c.canonical.Some? && n <= c.canonical.value + MAX_CACHE_AHEAD_BLOCKS + 1
  }

  predicate HasFlashblock(c: CacheState, n: nat, index: nat) {
    n in c.entries && index in c.entries[n]
  }

  function Retain(entries: map<nat, map<nat, FlashBlock>>, n: nat): map<nat, map<nat, FlashBlock>> {
    map k | k in entries && k > n :: entries[k]
  }

  function Inserted(c: CacheState, fb: FlashBlock): CacheState {
    var n := fb.meta.blockNumber;
    if !IsCacheable(c, n) then c
    else
      var kept := Retain(c.entries, SaturatingSub(n, MAX_CACHE_AHEAD_BLOCKS));
      c.(entries := kept[n := (if n in kept then kept[n] else map[])[fb.index := fb]])
  }

  function Without(c: CacheState, n: nat): CacheState {
    c.(entries := c.entries - {n})
  }

  function CanonicalAt(c: CacheState, n: nat): CacheState {
    CacheState(Retain(c.entries, n), Some(n))
  }

  // ---------------------------------------------------------------------------------------
  // Draining in index order
  // ---------------------------------------------------------------------------------------

  lemma HasLeast(keys: set<nat>) returns (least: nat)
    requires keys != {}
    ensures least in keys && forall k :: k in keys ==> least <= k
  {
    var x :| x in keys;
    var rest := keys - {x};
    if rest == {} {
      least := x;
    } else {
      var y := HasLeast(rest);
      least := if x < y then x else y;
    }
    forall k | k in keys
      ensures least <= k
    {
      assert k == x || k in rest;
    }
  }

  ghost function Least(keys: set<nat>): (least: nat)
    requires keys != {}
    ensures least in keys && forall k :: k in keys ==> least <= k
  {
    assert exists x :: x in keys && forall k :: k in keys ==> x <= k by {
      var x := HasLeast(keys);
    }
    var x :| x in keys && forall k :: k in keys ==> x <= k; x
  }

  /** The cached flashblocks of one block, in ascending index order. */
  ghost function ByIndex(m: map<nat, FlashBlock>): (r: seq<FlashBlock>)
    ensures |r| == |m|
    decreases |m|
  {
    if m == map[] then []
    else
      var k := Least(m.Keys);
      assert |m - {k}| < |m| by {
        assert (m - {k}).Keys == m.Keys - {k};
      }
      [m[k]] + ByIndex(m - {k})
  }

  ghost function DrainedBlock(c: CacheState, n: nat): seq<FlashBlock> {
    if n in c.entries then ByIndex(c.entries[n]) else []
  }

  ghost predicate KeyedByIndex(m: map<nat, FlashBlock>) {
    forall i :: i in m ==> m[i].index == i
  }

  /** What draining promises: one flashblock per cached index, the one last inserted under it,
      strictly ascending, and nothing else. */
  ghost predicate IsDrainOf(r: seq<FlashBlock>, m: map<nat, FlashBlock>) {
    && (forall j :: 0 <= j < |r| ==> r[j].index in m && r[j] == m[r[j].index])
    && (forall i :: i in m ==> m[i] in r)
    && (forall i, j :: 0 <= i < j < |r| ==> r[i].index < r[j].index)
  }

  lemma DrainHead(m: map<nat, FlashBlock>, k: nat, rest: seq<FlashBlock>)
    requires KeyedByIndex(m) && k in m && (forall i :: i in m ==> k <= i)
    requires IsDrainOf(rest, m - {k})
    ensures IsDrainOf([m[k]] + rest, m)
  {
    var r, left := [m[k]] + rest, m - {k};
    assert forall j :: 0 <= j < |r| ==> r[j] == if j == 0 then m[k] else rest[j - 1];
    assert forall i :: i in left <==> i in m && i != k;
    assert forall j :: 0 <= j < |rest| ==> rest[j].index in left && m[rest[j].index] == rest[j];
    forall i | i in m
      ensures m[i] in r
    {
      assert i != k ==> left[i] in rest;
    }
  }

  lemma {:induction false} DrainIsSorted(m: map<nat, FlashBlock>)
    requires KeyedByIndex(m)
    ensures IsDrainOf(ByIndex(m), m)
    decreases |m|
  {
    if m != map[] {
      var k := Least(m.Keys);
      assert (m - {k}).Keys == m.Keys - {k};
      DrainIsSorted(m - {k});
      DrainHead(m, k, ByIndex(m - {k}));
    }
  }

  /** When the cached indices run on from `base`, so do the drained flashblocks. */
  lemma {:induction false} DrainRunsOn(m: map<nat, FlashBlock>, base: nat)
    requires KeyedByIndex(m)
    requires forall i :: i in m ==> base <= i
    requires forall i, j :: j in m && base <= i < j ==> i in m
    ensures forall j :: 0 <= j < |ByIndex(m)| ==> ByIndex(m)[j].index == base + j
    decreases |m|
  {
    if m != map[] {
      var k := Least(m.Keys);
      assert (m - {k}).Keys == m.Keys - {k};
      assert k in m && (base < k ==> base in m);
      DrainRunsOn(m - {k}, base + 1);
    }
  }

  lemma DrainIsContiguous(m: map<nat, FlashBlock>)
    requires KeyedByIndex(m) && Contiguous(m.Keys)
    ensures forall j :: 0 <= j < |ByIndex(m)| ==> ByIndex(m)[j].index == j
  {
    DrainRunsOn(m, 0);
  }

  // ---------------------------------------------------------------------------------------
  // What the cache holds
  // ---------------------------------------------------------------------------------------

  /** The index set is 0..k for some k: every index below a cached one is cached. */
  ghost predicate Contiguous(keys: set<nat>) {
    forall i, j :: j in keys && 0 <= i < j ==> i in keys
  }

  /** Entries sit under their own number and index. */
  ghost predicate Filed(c: CacheState) {
    forall n, i :: n in c.entries && i in c.entries[n] ==>
      c.entries[n][i].index == i && c.entries[n][i].meta.blockNumber == n
  }

  /** Every cached block is within six blocks above the canonical height. */
  ghost predicate InWindow(c: CacheState) {
    c.canonical.Some? &&
    forall n :: n in c.entries ==> c.canonical.value < n <= c.canonical.value + MAX_CACHE_AHEAD_BLOCKS + 1
  }

  ghost predicate GapFreeCache(c: CacheState) {
    forall n :: n in c.entries ==> c.entries[n] != map[] && Contiguous(c.entries[n].Keys)
  }

  ghost predicate WellKept(c: CacheState) {
    Filed(c) && InWindow(c) && GapFreeCache(c)
  }

  // ---------------------------------------------------------------------------------------
  // What each operation leaves
  // ---------------------------------------------------------------------------------------

  /** Beyond the canonical height by more than six, or without one, nothing is inserted. Otherwise
      the flashblock is the one held under its number and index from then on; every other
      flashblock of its block stays; and of the other blocks exactly those at or below its number
      minus five go. */
  lemma InsertedExactly(c: CacheState, fb: FlashBlock)
    ensures var n, after := fb.meta.blockNumber, Inserted(c, fb);
            if c.canonical.None? || n > c.canonical.value + 6 then after == c
            else
              && after.canonical == c.canonical
              && n in after.entries && fb.index in after.entries[n] && after.entries[n][fb.index] == fb
              && (forall i :: i != fb.index ==>
                    (i in after.entries[n] <==> n > 0 && n in c.entries && i in c.entries[n]))
              && (forall i :: i in after.entries[n] && i != fb.index ==> after.entries[n][i] == c.entries[n][i])
              && (forall k :: k != n ==> (k in after.entries <==> k in c.entries && k > 0 && k + 5 > n))
              && (forall k :: k in after.entries && k != n ==> after.entries[k] == c.entries[k])
  {
  }

  /** A canonical block keeps exactly what lies above it. */
  lemma AdvancedExactly(c: CacheState, n: nat)
    ensures var after := CanonicalAt(c, n);
            && after.canonical == Some(n)
            && (forall k :: k in after.entries <==> k in c.entries && k > n)
            && (forall k :: k in after.entries ==> after.entries[k] == c.entries[k])
  {
  }

  /** After any insertions at one height: the flashblock held under a number and index, found by
      reading the insertions backwards, past the rejected ones, until one has that number and
      index, or evicts that number. */
  function LastHeld(canonical: nat, fbs: seq<FlashBlock>, n: nat, i: nat): Option<FlashBlock> {
    if fbs == [] then None
    else
      var init, last := fbs[..|fbs| - 1], fbs[|fbs| - 1];
      if last.meta.blockNumber > canonical + 6 then LastHeld(canonical, init, n, i)
      else if last.meta.blockNumber == n && last.index == i then Some(last)
      else if n == 0 || n + 5 <= last.meta.blockNumber then None
      else LastHeld(canonical, init, n, i)
  }

  function InsertAll(c: CacheState, fbs: seq<FlashBlock>): CacheState {
    if fbs == [] then c else Inserted(InsertAll(c, fbs[..|fbs| - 1]), fbs[|fbs| - 1])
  }

  lemma {:induction false} HeldIsLast(canonical: nat, fbs: seq<FlashBlock>, n: nat, i: nat)
    ensures var c, held := InsertAll(CacheState(map[], Some(canonical)), fbs), LastHeld(canonical, fbs, n, i);
            && c.canonical == Some(canonical)
            && (held.Some? <==> HasFlashblock(c, n, i))
            && (held.Some? ==>
                  c.entries[n][i] == held.value && held.value.meta.blockNumber == n && held.value.index == i)
  {
    hide Inserted;
    if fbs != [] {
      var init, last := fbs[..|fbs| - 1], fbs[|fbs| - 1];
      HeldIsLast(canonical, init, n, i);
      InsertedExactly(InsertAll(CacheState(map[], Some(canonical)), init), last);
    }
  }

  /** An accepted flashblock is held as long as no later accepted one takes its place or evicts
      its block. */
  lemma {:induction false} AcceptedIsHeld(canonical: nat, fbs: seq<FlashBlock>, j: nat)
    requires j < |fbs| && 0 < fbs[j].meta.blockNumber <= canonical + 6
    requires forall k :: j < k < |fbs| && fbs[k].meta.blockNumber <= canonical + 6 ==>
               && (fbs[k].meta.blockNumber != fbs[j].meta.blockNumber || fbs[k].index != fbs[j].index)
               && fbs[k].meta.blockNumber < fbs[j].meta.blockNumber + 5
    ensures LastHeld(canonical, fbs, fbs[j].meta.blockNumber, fbs[j].index) == Some(fbs[j])
  {
    var init := fbs[..|fbs| - 1];
    if j < |init| {
      assert init[j] == fbs[j] && forall k :: 0 <= k < |init| ==> init[k] == fbs[k];
      AcceptedIsHeld(canonical, init, j);
    }
  }

  /** Draining after any insertions: under each index the flashblock last accepted, ascending, and
      nothing else. */
  lemma DrainReturnsLast(canonical: nat, fbs: seq<FlashBlock>, n: nat)
    ensures var drained := DrainedBlock(InsertAll(CacheState(map[], Some(canonical)), fbs), n);
            && (forall j :: 0 <= j < |drained| ==> LastHeld(canonical, fbs, n, drained[j].index) == Some(drained[j]))
            && (forall i: nat :: LastHeld(canonical, fbs, n, i).Some? ==> LastHeld(canonical, fbs, n, i).value in drained)
            && (forall i, j :: 0 <= i < j < |drained| ==> drained[i].index < drained[j].index)
  {
    hide LastHeld, ByIndex, InsertAll;
    var c := InsertAll(CacheState(map[], Some(canonical)), fbs);
    forall i: nat
      ensures LastHeld(canonical, fbs, n, i).Some? <==> HasFlashblock(c, n, i)
      ensures HasFlashblock(c, n, i) ==>
                c.entries[n][i].index == i && LastHeld(canonical, fbs, n, i) == Some(c.entries[n][i])
    {
      HeldIsLast(canonical, fbs, n, i);
    }
    if n in c.entries {
      DrainIsSorted(c.entries[n]);
    }
  }

  lemma InsertKeepsFiled(c: CacheState, fb: FlashBlock)
    requires Filed(c)
    ensures Filed(Inserted(c, fb))
  {
    hide Inserted;
    InsertedExactly(c, fb);
  }

  lemma InsertKeepsWindow(c: CacheState, fb: FlashBlock)
    requires InWindow(c) && fb.meta.blockNumber > c.canonical.value
    ensures InWindow(Inserted(c, fb)) && Inserted(c, fb).canonical == c.canonical
  {
    hide Inserted;
    InsertedExactly(c, fb);
  }

  lemma InsertKeepsGapFree(c: CacheState, fb: FlashBlock)
    requires GapFreeCache(c) && fb.meta.blockNumber > 0
    requires fb.index == 0 || HasFlashblock(c, fb.meta.blockNumber, fb.index - 1)
    ensures GapFreeCache(Inserted(c, fb))
  {
    hide Inserted;
    InsertedExactly(c, fb);
    var n, after := fb.meta.blockNumber, Inserted(c, fb);
    if n in after.entries && after != c {
      forall i, j | j in after.entries[n].Keys && 0 <= i < j
        ensures i in after.entries[n].Keys
      {
        assert j == fb.index || (n in c.entries && j in c.entries[n]);
      }
    }
  }

  /** Inserting an index whose predecessor is cached, or index 0, above the canonical height. */
  lemma InsertKeeps(c: CacheState, fb: FlashBlock)
    requires WellKept(c)
    requires fb.meta.blockNumber > c.canonical.value
    requires fb.index == 0 || HasFlashblock(c, fb.meta.blockNumber, fb.index - 1)
    ensures WellKept(Inserted(c, fb)) && Inserted(c, fb).canonical == c.canonical
    ensures IsCacheable(c, fb.meta.blockNumber) ==> HasFlashblock(Inserted(c, fb), fb.meta.blockNumber, fb.index)
  {
    hide Inserted, Filed, GapFreeCache;
    InsertKeepsFiled(c, fb);
    InsertKeepsWindow(c, fb);
    InsertKeepsGapFree(c, fb);
    InsertedExactly(c, fb);
  }

  lemma DrainKeeps(c: CacheState, n: nat)
    requires WellKept(c)
    ensures WellKept(Without(c, n))
    ensures forall k :: k != n ==> (k in Without(c, n).entries <==> k in c.entries)
    ensures n !in Without(c, n).entries
    ensures forall k :: k in Without(c, n).entries ==> Without(c, n).entries[k] == c.entries[k]
    ensures Without(c, n).canonical == c.canonical
  {
  }

  /** At most six blocks are ever cached. */
  lemma AtMostSixBlocks(c: CacheState)
    requires InWindow(c)
    ensures |c.entries| <= MAX_CACHE_AHEAD_BLOCKS + 1
  {
    var h := c.canonical.value;
    var window := {h + 1, h + 2, h + 3, h + 4, h + 5, h + 6};
    assert c.entries.Keys <= window;
    SubsetSize(c.entries.Keys, window);
  }

  lemma SubsetSize(a: set<nat>, b: set<nat>)
    requires a <= b
    ensures |a| <= |b|
  {
    if a != {} {
      var x :| x in a;
      SubsetSize(a - {x}, b - {x});
    }
  }

  // ---------------------------------------------------------------------------------------
  // The cache object
  // ---------------------------------------------------------------------------------------

  /** The values of one block's map, sorted by index. */
  method SortByIndex(m: map<nat, FlashBlock>) returns (sorted: seq<FlashBlock>)
    ensures sorted == ByIndex(m)
  {
    sorted := [];
    var left := m;
    while left != map[]
      invariant sorted + ByIndex(left) == ByIndex(m)
      decreases |left|
    {
      ghost var least := Least(left.Keys);
      var k :| k in left && forall i :: i in left ==> k <= i;
      assert k == least;
      assert (left - {k}).Keys == left.Keys - {k};
      sorted := sorted + [left[k]];
      left := left - {k};
    }
  }

  class FlashblockCache {
    var entries: map<nat, map<nat, FlashBlock>>
    var latestCanonical: Option<nat>

    function State(): CacheState
      reads this
    {
      CacheState(entries, latestCanonical)
    }

    constructor (canonical: nat)
      ensures State() == CacheState(map[], Some(canonical))
    {
      entries, latestCanonical := map[], Some(canonical);
    }

    method Insert(fb: FlashBlock) returns (cached: bool)
      modifies this
      ensures cached == IsCacheable(old(State()), fb.meta.blockNumber)
      ensures State() == Inserted(old(State()), fb)
    {
      var n := fb.meta.blockNumber;
      if !IsCacheable(State(), n) {
        return false;
      }
      entries := Retain(entries, SaturatingSub(n, MAX_CACHE_AHEAD_BLOCKS));
      entries := entries[n := (if n in entries then entries[n] else map[])[fb.index := fb]];
      cached := true;
    }

    /** Removes one block's flashblocks and returns them by ascending index. */
    method Drain(n: nat) returns (drained: seq<FlashBlock>)
      modifies this
      ensures drained == DrainedBlock(old(State()), n)
      ensures State() == Without(old(State()), n)
    {
      if n !in entries {
        assert entries - {n} == entries;
        return [];
      }
      var byIndex := entries[n];
      entries := entries - {n};
      drained := SortByIndex(byIndex);
    }

    method UpdateCanonical(n: nat)
      modifies this
      ensures State() == CanonicalAt(old(State()), n)
    {
      latestCanonical := Some(n);
      entries := Retain(entries, n);
    }
  }
}
