/** Gap-free sequences of flashblocks: what sequence validation admits, what each of the
    processor's list operations keeps, and what a snapshot built from one looks like. */
module Sequence {
  import opened Types
  import opened Validation
  import opened PendingBlocks
  import opened Rebuild
  import opened Ordering
  import opened Story

  /** The next flashblock of the same block, or the first of the next block. */
  predicate Follows(a: FlashBlock, b: FlashBlock) {
    || (b.meta.blockNumber == a.meta.blockNumber && b.index == a.index + 1)
    || (b.meta.blockNumber == a.meta.blockNumber + 1 && b.index == 0)
  }

  predicate Sequential(fbs: seq<FlashBlock>) {
    && fbs != [] && fbs[0].index == 0
    && forall i :: 0 < i < |fbs| ==> Follows(fbs[i - 1], fbs[i])
  }

  // ---------------------------------------------------------------------------------------
  // The list operations
  // ---------------------------------------------------------------------------------------

  lemma AppendIsSequential(fbs: seq<FlashBlock>, fb: FlashBlock)
    requires Sequential(fbs) && Follows(fbs[|fbs| - 1], fb)
    ensures Sequential(fbs + [fb])
  {
  }

  lemma SequentialIsOrdered(fbs: seq<FlashBlock>)
    requires Sequential(fbs)
    ensures Ordered(fbs)
  {
    if |fbs| > 1 {
      var init := fbs[..|fbs| - 1];
      SequentialIsOrdered(init);
      assert forall i :: 0 <= i < |init| ==> fbs[i] == init[i];
      assert Follows(fbs[|init| - 1], fbs[|init|]);
      assert forall i :: 0 <= i < |init| ==> init[i].meta.blockNumber <= init[|init| - 1].meta.blockNumber;
    }
  }

  predicate SplitsAt(fbs: seq<FlashBlock>, n: nat, k: nat) {
    && k <= |fbs|
    && (forall i :: 0 <= i < k ==> fbs[i].meta.blockNumber <= n)
    && (forall i :: k <= i < |fbs| ==> fbs[i].meta.blockNumber > n)
  }

  lemma SuffixSnoc<T>(s: seq<T>, k: nat)
    requires k < |s|
    ensures s[k..] == s[..|s| - 1][k..] + [s[|s| - 1]]
  {
  }

  lemma AboveSnoc(fbs: seq<FlashBlock>, n: nat)
    requires fbs != []
    ensures var init, last := fbs[..|fbs| - 1], fbs[|fbs| - 1];
            && (last.meta.blockNumber > n ==> Above(fbs, n) == Above(init, n) + [last])
            && (last.meta.blockNumber <= n ==> Above(fbs, n) == Above(init, n))
  {
  }

  lemma {:induction false} AboveSplit(fbs: seq<FlashBlock>, n: nat, k: nat)
    requires SplitsAt(fbs, n, k)
    ensures Above(fbs, n) == fbs[k..]
  {
    if fbs == [] {
      assert Above([], n) == fbs[k..];
    } else {
      hide Above;
      var m := |fbs| - 1;
      var init := fbs[..m];
      AboveSnoc(fbs, n);
      if k == |fbs| {
        AboveSplit(init, n, m);
        assert init[m..] == [] && fbs[k..] == [];
      } else {
        AboveSplit(init, n, k);
        SuffixSnoc(fbs, k);
      }
    }
  }

  /** Where the blocks above `n` start. */
  lemma AboveCut(fbs: seq<FlashBlock>, n: nat) returns (k: nat)
    requires Ordered(fbs)
    ensures SplitsAt(fbs, n, k) && Above(fbs, n) == fbs[k..]
  {
    hide Above;
    k := 0;
    while k < |fbs| && fbs[k].meta.blockNumber <= n
      invariant k <= |fbs|
      invariant forall i :: 0 <= i < k ==> fbs[i].meta.blockNumber <= n
    {
      k := k + 1;
    }
    AboveSplit(fbs, n, k);
  }

  /** Retaining the blocks above a height leaves a gap-free sequence, if it leaves anything. */
  lemma RetainIsSequential(fbs: seq<FlashBlock>, n: nat)
    requires Sequential(fbs)
    ensures fbs[|fbs| - 1].meta.blockNumber > n ==>
              && Sequential(Above(fbs, n))
              && Above(fbs, n)[|Above(fbs, n)| - 1] == fbs[|fbs| - 1]
              && Above(fbs, n)[0].meta.blockNumber > n
              && Above(fbs, n)[0].meta.blockNumber >= fbs[0].meta.blockNumber
  {
    SequentialIsOrdered(fbs);
    var k := AboveCut(fbs, n);
    var r := fbs[k..];
    if k < |fbs| {
      if k > 0 {
        assert Follows(fbs[k - 1], fbs[k]);
      }
      forall i | 0 < i < |r|
        ensures Follows(r[i - 1], r[i])
      {
        assert r[i - 1] == fbs[k + i - 1] && r[i] == fbs[k + i];
      }
    }
  }

  // ---------------------------------------------------------------------------------------
  // The shape of a gap-free list
  // ---------------------------------------------------------------------------------------

  function Range(from: nat, to: nat): seq<nat>
    requires from <= to
  {
    seq(to - from + 1, i => from + i)
  }

  /** Block `n` has flashblocks, indexed 0, 1, 2, ... in order. */
  ghost predicate CompleteBlock(fbs: seq<FlashBlock>, n: nat) {
    var group := OfBlock(fbs, n);
    group != [] && forall j :: 0 <= j < |group| ==> group[j].index == j
  }

  lemma CutIndices(fbs: seq<FlashBlock>, n: nat, k: nat)
    requires Sequential(fbs) && n == fbs[0].meta.blockNumber && CutAt(fbs, n, k) && k > 0
    ensures forall j :: 0 <= j < k ==> fbs[j].index == j
    ensures k < |fbs| ==> fbs[k].meta.blockNumber == n + 1 && Sequential(fbs[k..])
  {
    var j := 1;
    while j < k
      invariant 1 <= j <= k
      invariant forall i :: 0 <= i < j ==> fbs[i].index == i
    {
      assert Follows(fbs[j - 1], fbs[j]);
      j := j + 1;
    }
    if k < |fbs| {
      assert Follows(fbs[k - 1], fbs[k]);
      var r := fbs[k..];
      forall i | 0 < i < |r|
        ensures Follows(r[i - 1], r[i])
      {
        assert r[i - 1] == fbs[k + i - 1] && r[i] == fbs[k + i];
      }
    }
  }

  /** A gap-free list covers consecutive blocks, each completely, in the build's own order. */
  lemma {:induction false} SequentialShape(fbs: seq<FlashBlock>)
    requires Sequential(fbs)
    ensures var first, last := fbs[0].meta.blockNumber, fbs[|fbs| - 1].meta.blockNumber;
            && first <= last
            && Regrouped(fbs) == fbs && BlockNumbers(fbs) == Range(first, last)
            && (forall n :: first <= n <= last ==> CompleteBlock(fbs, n))
            && fbs[|fbs| - 1].index + 1 == |OfBlock(fbs, last)|
    decreases |fbs|
  {
    hide MinBlock, OfBlock, Above, Regrouped, BlockNumbers, Range;
    SequentialIsOrdered(fbs);
    OrderedMin(fbs);
    var n := fbs[0].meta.blockNumber;
    var k := CutExists(fbs, n);
    CutGroups(fbs, n, k);
    CutIndices(fbs, n, k);
    RegroupedUnfolds(fbs);
    var rest := fbs[k..];
    assert fbs[..k] + rest == fbs;
    if rest == [] {
      RegroupedEmpty();
      RangeUnfolds(n, n);
    } else {
      SequentialShape(rest);
      var last := fbs[|fbs| - 1].meta.blockNumber;
      assert rest[|rest| - 1] == fbs[|fbs| - 1];
      forall m | n <= m <= last
        ensures CompleteBlock(fbs, m)
      {
        OfBlockAbove(fbs, n, m);
        if m == n {
          assert forall j :: 0 <= j < k ==> fbs[..k][j] == fbs[j];
        } else {
          assert CompleteBlock(rest, m);
        }
      }
      OfBlockAbove(fbs, n, last);
      RangeUnfolds(n, last);
    }
  }

  lemma RangeUnfolds(n: nat, last: nat)
    requires n <= last
    ensures Range(n, last) == if n == last then [n] else [n] + Range(n + 1, last)
  {
  }

  lemma RegroupedEmpty()
    ensures Regrouped([]) == [] && BlockNumbers([]) == []
  {
  }

  /** A snapshot without gaps. */
  ghost predicate GapFree(s: Snapshot) {
    var first, last := s.earliest.number, s.latest.number;
    && 1 <= first <= last
    && s.anchor.number == first - 1
    && Numbers(s.headers) == Range(first, last)
    && (forall fb :: fb in s.flashblocks ==> first <= fb.meta.blockNumber <= last)
    && (forall n :: first <= n <= last ==> CompleteBlock(s.flashblocks, n))
    && s.latestIndex + 1 == |OfBlock(s.flashblocks, last)|
  }

  /** Building a gap-free list gives a gap-free snapshot of exactly that list. */
  lemma BuildIsGapFree(rules: Rules, anchor: Header, prev: Option<Snapshot>, fbs: seq<FlashBlock>, s: Snapshot)
    requires forall fb :: fb in fbs ==> WellNumbered(fb)
    requires Sequential(fbs)
    requires anchor.number + 1 == fbs[0].meta.blockNumber
    requires BuildOn(rules, anchor, prev, fbs) == Ok(s)
    ensures GapFree(s) && s.flashblocks == fbs
    ensures s.earliest.number == fbs[0].meta.blockNumber
    ensures s.latest.number == fbs[|fbs| - 1].meta.blockNumber
  {
    hide OfBlock, Regrouped, BlockNumbers, BuildOn, OneStory;
    BuildTellsOneStory(rules, anchor, prev, fbs, s);
    SequentialShape(fbs);
    var first, last := fbs[0].meta.blockNumber, fbs[|fbs| - 1].meta.blockNumber;
    assert Numbers(s.headers)[0] == Range(first, last)[0];
    assert Numbers(s.headers)[|s.headers| - 1] == Range(first, last)[last - first];
    SequentialIsOrdered(fbs);
    forall fb | fb in s.flashblocks
      ensures first <= fb.meta.blockNumber <= last
    {
      var i :| 0 <= i < |fbs| && fbs[i] == fb;
    }
  }

  /** Sequence validation appends exactly the flashblocks that follow the snapshot's last. */
  lemma ValidatedFollows(s: Snapshot, fb: FlashBlock)
    requires s.flashblocks != []
    requires var last := s.flashblocks[|s.flashblocks| - 1];
             s.latest.number == last.meta.blockNumber && s.latestIndex == last.index
    ensures var r := Validate(s.latest.number, s.latestIndex, s.PayloadId(), fb.meta.blockNumber, fb.index, fb.payloadId);
            (r.NextInSequence? || r.FirstOfNextBlock?) <==> Follows(s.flashblocks[|s.flashblocks| - 1], fb)
  {
  }
}
