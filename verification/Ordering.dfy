/** Flashblock lists in block order, and what the BTreeMap regrouping makes of them. */
module Ordering {
  import opened Types
  import opened Assembler
  import opened Rebuild

  predicate Ordered(fbs: seq<FlashBlock>) {
    forall i, j :: 0 <= i <= j < |fbs| ==> fbs[i].meta.blockNumber <= fbs[j].meta.blockNumber
  }

  /** The first `k` flashblocks are the block numbered `n`; the rest are later blocks. */
  predicate CutAt(fbs: seq<FlashBlock>, n: nat, k: nat) {
    && k <= |fbs|
    && (forall i :: 0 <= i < k ==> fbs[i].meta.blockNumber == n)
    && (forall i :: k <= i < |fbs| ==> fbs[i].meta.blockNumber > n)
  }

  lemma CutExists(fbs: seq<FlashBlock>, n: nat) returns (k: nat)
    requires Ordered(fbs)
    requires fbs != [] ==> n <= fbs[0].meta.blockNumber
    ensures CutAt(fbs, n, k)
    ensures fbs != [] && n == fbs[0].meta.blockNumber ==> k > 0
  {
    k := 0;
    while k < |fbs| && fbs[k].meta.blockNumber == n
      invariant k <= |fbs|
      invariant forall i :: 0 <= i < k ==> fbs[i].meta.blockNumber == n
    {
      k := k + 1;
    }
  }

  /** Grouping an ordered list only cuts it: the first block is a leading run. */
  lemma {:induction false} CutGroups(fbs: seq<FlashBlock>, n: nat, k: nat)
    requires CutAt(fbs, n, k)
    ensures OfBlock(fbs, n) == fbs[..k]
    ensures Above(fbs, n) == fbs[k..]
  {
    if fbs != [] {
      var m := |fbs| - 1;
      var init := fbs[..m];
      if k == |fbs| {
        CutGroups(init, n, m);
        assert init[..m] + [fbs[m]] == fbs[..k];
      } else {
        CutGroups(init, n, k);
        assert init[..k] == fbs[..k] && init[k..] + [fbs[m]] == fbs[k..];
      }
    }
  }

  lemma OrderedMin(fbs: seq<FlashBlock>)
    requires Ordered(fbs) && fbs != []
    ensures MinBlock(fbs) == fbs[0].meta.blockNumber
  {
    assert fbs[0] in fbs;
    MinBlockUnique(fbs, fbs[0].meta.blockNumber);
  }

  lemma PrefixOrdered(p: seq<FlashBlock>, l: seq<FlashBlock>)
    requires Ordered(l) && p <= l
    ensures Ordered(p)
  {
    forall i, j | 0 <= i <= j < |p|
      ensures p[i].meta.blockNumber <= p[j].meta.blockNumber
    {
      assert p[i] == l[i] && p[j] == l[j];
    }
  }

  /** A prefix of an ordered list has the same groups, except that its last may be shorter. */
  lemma PrefixGroups(p: seq<FlashBlock>, l: seq<FlashBlock>)
    requires Ordered(l) && p <= l && p != []
    ensures MinBlock(p) == MinBlock(l)
    ensures var n := MinBlock(p);
            && OfBlock(p, n) <= OfBlock(l, n) && Above(p, n) <= Above(l, n)
            && Ordered(Above(l, n))
            && (Above(p, n) != [] ==> OfBlock(p, n) == OfBlock(l, n))
  {
    hide OfBlock, Above, MinBlock;
    PrefixOrdered(p, l);
    OrderedMin(p);
    OrderedMin(l);
    var n := MinBlock(p);
    var k := CutExists(l, n);
    var j := if k <= |p| then k else |p|;
    CutGroups(l, n, k);
    CutPrefix(p, l, n, k, j);
    CutGroups(p, n, j);
  }

  lemma CutPrefix(p: seq<FlashBlock>, l: seq<FlashBlock>, n: nat, k: nat, j: nat)
    requires Ordered(l) && p <= l && CutAt(l, n, k)
    requires j == if k <= |p| then k else |p|
    ensures CutAt(p, n, j)
    ensures p[..j] <= l[..k] && p[j..] <= l[k..] && Ordered(l[k..])
    ensures p[j..] != [] ==> p[..j] == l[..k]
  {
    assert forall i :: 0 <= i < |p| ==> p[i] == l[i];
  }

  lemma PayloadsAppend(a: seq<FlashBlock>, b: seq<FlashBlock>)
    ensures Payloads(a + b) == Payloads(a) + Payloads(b)
  {
    if a == [] {
      assert a + b == b;
    } else {
      assert (a + b)[1..] == a[1..] + b;
      PayloadsAppend(a[1..], b);
    }
  }
}
