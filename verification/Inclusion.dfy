/** inclusion_producer.rs: the inclusion list built from the pool's pending transactions. */
module Inclusion {
  import opened Types

  const MAX_LIST_BYTES: nat := 8 * 1024

  /** A score's place in the total order of floating-point numbers. */
  type Score = int

  datatype PoolTx = PoolTx(hash: Hash, encoded: Bytes, blobs: Option<nat>)

  datatype OrderedTx = OrderedTx(score: Score, hash: Hash)

  /** The scored set. Entries are equal when their scores are, whatever their hashes, so the set is
      a map from scores; inserting an equal entry leaves the set as it is. */
  type Scored = map<Score, Hash>

  type Pending = map<Hash, PoolTx>

  // ---------------------------------------------------------------------------------------
  // Highest score first
  // ---------------------------------------------------------------------------------------

  lemma AnyOf<T>(keys: set<T>) returns (x: T)
    requires |keys| > 0
    ensures x in keys
  {
    x :| x in keys;
  }

  lemma HasHighest(keys: set<Score>) returns (highest: Score)
    requires |keys| > 0
    ensures highest in keys && forall k :: k in keys ==> k <= highest
  {
    var x := AnyOf(keys);
    var rest := keys - {x};
    if |rest| == 0 {
      highest := x;
    } else {
      var y := HasHighest(rest);
      highest := if x > y then x else y;
    }
    assert forall k :: k in keys ==> k == x || k in rest;
  }

  ghost function Highest(keys: set<Score>): (highest: Score)
    requires |keys| > 0
    ensures highest in keys && forall k :: k in keys ==> k <= highest
  {
    assert exists x :: x in keys && forall k :: k in keys ==> k <= x by {
      var x := HasHighest(keys);
    }
    var x :| x in keys && forall k :: k in keys ==> k <= x; x
  }

  /** The scored set in its own order. */
  ghost function Ranked(scored: Scored): (r: seq<OrderedTx>)
    decreases |scored|
  {
    if |scored| == 0 then []
    else
      var k := Highest(scored.Keys);
      assert (scored - {k}).Keys == scored.Keys - {k};
      [OrderedTx(k, scored[k])] + Ranked(scored - {k})
  }

  /** Strictly descending, and every entry of the set exactly. */
  ghost predicate IsRanking(r: seq<OrderedTx>, scored: Scored) {
    && (forall i, j :: 0 <= i < j < |r| ==> r[i].score > r[j].score)
    && (forall t :: t in r <==> t.score in scored && scored[t.score] == t.hash)
  }

  lemma {:induction false} RankedIsRanking(scored: Scored)
    ensures IsRanking(Ranked(scored), scored)
    decreases |scored|
  {
    if |scored| > 0 {
      var k := Highest(scored.Keys);
      var rest := scored - {k};
      assert rest.Keys == scored.Keys - {k};
      RankedIsRanking(rest);
      PrependHighest(scored, k, Ranked(rest));
    }
  }

  lemma PrependHighest(scored: Scored, k: Score, rest: seq<OrderedTx>)
    requires k in scored && (forall x :: x in scored ==> x <= k) && IsRanking(rest, scored - {k})
    ensures IsRanking([OrderedTx(k, scored[k])] + rest, scored)
  {
    var head := OrderedTx(k, scored[k]);
    var r := [head] + rest;
    assert forall j :: 0 < j < |r| ==> r[j] == rest[j - 1] && r[j] in rest;
    forall t
      ensures t in r <==> t.score in scored && scored[t.score] == t.hash
    {
      assert t in r <==> t == head || t in rest;
    }
  }

  // ---------------------------------------------------------------------------------------
  // The greedy choice
  // ---------------------------------------------------------------------------------------

  predicate Live(t: OrderedTx, pending: Pending) {
    t.hash in pending
  }

  function Length(t: OrderedTx, pending: Pending): nat {
    if t.hash in pending then |pending[t.hash].encoded| else 0
  }

  function Size(ts: seq<OrderedTx>, pending: Pending): nat {
    if ts == [] then 0 else Length(ts[0], pending) + Size(ts[1..], pending)
  }

  /** Taken in order while they fit, on top of `used` bytes. */
  function Choose(ranked: seq<OrderedTx>, pending: Pending, used: nat): seq<OrderedTx> {
    if ranked == [] then []
    else
      var t, rest := ranked[0], ranked[1..];
      if !Live(t, pending) || used + Length(t, pending) > MAX_LIST_BYTES then Choose(rest, pending, used)
      else [t] + Choose(rest, pending, used + Length(t, pending))
  }

  /** The chosen entries that rank above a score. */
  function AboveScore(ts: seq<OrderedTx>, score: Score): seq<OrderedTx> {
    if ts == [] then []
    else (if ts[0].score > score then [ts[0]] else []) + AboveScore(ts[1..], score)
  }

  ghost predicate Descending(ts: seq<OrderedTx>) {
    forall i, j :: 0 <= i < j < |ts| ==> ts[i].score > ts[j].score
  }

  lemma ChooseHead(t: OrderedTx, rest: seq<OrderedTx>, pending: Pending, used: nat)
    ensures Choose([t] + rest, pending, used) ==
            if Live(t, pending) && used + Length(t, pending) <= MAX_LIST_BYTES
            then [t] + Choose(rest, pending, used + Length(t, pending)) else Choose(rest, pending, used)
  {
    assert ([t] + rest)[1..] == rest;
  }

  lemma DescendingTail(ts: seq<OrderedTx>)
    requires Descending(ts) && ts != []
    ensures ts == [ts[0]] + ts[1..] && Descending(ts[1..])
    ensures forall x :: x in ts[1..] ==> x in ts && x.score < ts[0].score
  {
    assert forall j :: 0 <= j < |ts[1..]| ==> ts[1..][j] == ts[j + 1];
  }

  lemma {:induction false} ChooseWithin(ranked: seq<OrderedTx>, pending: Pending, used: nat)
    requires Descending(ranked) && used <= MAX_LIST_BYTES
    ensures var chosen := Choose(ranked, pending, used);
            && Descending(chosen)
            && (forall t :: t in chosen ==> t in ranked && Live(t, pending))
            && used + Size(chosen, pending) <= MAX_LIST_BYTES
    decreases |ranked|
  {
    hide Size, Descending, Live, Length;
    SizeEmpty(pending);
    if ranked == [] {
      EmptyDescends();
    } else {
      var t, rest := ranked[0], ranked[1..];
      DescendingTail(ranked);
      ChooseHead(t, rest, pending, used);
      if Live(t, pending) && used + Length(t, pending) <= MAX_LIST_BYTES {
        var onwards := used + Length(t, pending);
        ChooseWithin(rest, pending, onwards);
        PrependChosen(t, Choose(rest, pending, onwards));
        SizeHead(t, Choose(rest, pending, onwards), pending);
      } else {
        ChooseWithin(rest, pending, used);
      }
    }
  }

  lemma EmptyDescends()
    ensures Descending([])
  {
  }

  lemma PrependChosen(t: OrderedTx, chosen: seq<OrderedTx>)
    requires Descending(chosen) && forall x :: x in chosen ==> x.score < t.score
    ensures Descending([t] + chosen) && ([t] + chosen)[1..] == chosen
  {
    var r := [t] + chosen;
    assert forall j :: 0 < j < |r| ==> r[j] == chosen[j - 1] && r[j] in chosen;
  }

  lemma {:induction false} NothingAbove(ts: seq<OrderedTx>, score: Score)
    requires forall t :: t in ts ==> t.score <= score
    ensures AboveScore(ts, score) == []
  {
    if ts != [] {
      assert ts[0] in ts;
      assert forall t :: t in ts[1..] ==> t in ts;
      NothingAbove(ts[1..], score);
    }
  }

  /** A live entry is taken exactly when it fits on top of the taken entries that rank above it. */
  lemma {:induction false} ChooseIsGreedy(ranked: seq<OrderedTx>, pending: Pending, used: nat, t: OrderedTx)
    requires Descending(ranked) && used <= MAX_LIST_BYTES
    requires t in ranked && Live(t, pending)
    ensures var chosen := Choose(ranked, pending, used);
            t in chosen <==> used + Size(AboveScore(chosen, t.score), pending) + Length(t, pending) <= MAX_LIST_BYTES
  {
    hide Size, Length, Live, Descending, Choose, AboveScore;
    var head, rest := ranked[0], ranked[1..];
    DescendingTail(ranked);
    ChooseHead(head, rest, pending, used);
    var takes := Live(head, pending) && used + Length(head, pending) <= MAX_LIST_BYTES;
    var onwards := if takes then used + Length(head, pending) else used;
    var chosen, later := Choose(ranked, pending, used), Choose(rest, pending, onwards);
    ChooseWithin(rest, pending, onwards);
    if t == head {
      NothingAbove(chosen, t.score);
      SizeEmpty(pending);
    } else {
      ChooseIsGreedy(rest, pending, onwards, t);
      if takes {
        AboveHead(head, later, t.score);
        SizeHead(head, AboveScore(later, t.score), pending);
      }
    }
  }

  lemma AboveHead(t: OrderedTx, ts: seq<OrderedTx>, score: Score)
    ensures AboveScore([t] + ts, score) == (if t.score > score then [t] else []) + AboveScore(ts, score)
  {
    assert ([t] + ts)[1..] == ts;
  }

  lemma SizeEmpty(pending: Pending)
    ensures Size([], pending) == 0
  {
  }

  lemma SizeHead(t: OrderedTx, ts: seq<OrderedTx>, pending: Pending)
    ensures Size([t] + ts, pending) == Length(t, pending) + Size(ts, pending)
  {
    assert ([t] + ts)[1..] == ts;
  }

  lemma {:induction false} AboveIsSmaller(ts: seq<OrderedTx>, score: Score, pending: Pending)
    ensures Size(AboveScore(ts, score), pending) <= Size(ts, pending)
  {
    if ts != [] {
      AboveIsSmaller(ts[1..], score, pending);
      assert ts == [ts[0]] + ts[1..];
      AboveHead(ts[0], ts[1..], score);
      SizeHead(ts[0], ts[1..], pending);
      SizeHead(ts[0], AboveScore(ts[1..], score), pending);
      assert [] + AboveScore(ts[1..], score) == AboveScore(ts[1..], score);
    }
  }

  function Encodings(ts: seq<OrderedTx>, pending: Pending): seq<Bytes> {
    seq(|ts|, i requires 0 <= i < |ts| => if ts[i].hash in pending then pending[ts[i].hash].encoded else [])
  }

  function TotalBytes(list: seq<Bytes>): nat {
    if list == [] then 0 else |list[0]| + TotalBytes(list[1..])
  }

  /** The published list holds the listed entries' own encodings, entry by entry, and is as long
      as they are together. */
  lemma {:induction false} ListEncodes(chosen: seq<OrderedTx>, pending: Pending)
    requires forall i :: 0 <= i < |chosen| ==> chosen[i].hash in pending
    ensures var list := Encodings(chosen, pending);
            && |list| == |chosen|
            && (forall i :: 0 <= i < |chosen| ==> list[i] == pending[chosen[i].hash].encoded)
            && TotalBytes(list) == Size(chosen, pending)
  {
    if chosen != [] {
      assert forall i :: 0 <= i < |chosen[1..]| ==> chosen[1..][i] == chosen[i + 1];
      ListEncodes(chosen[1..], pending);
      var list := Encodings(chosen, pending);
      assert list[1..] == Encodings(chosen[1..], pending);
    }
  }

  /** What the published list promises. Scores strictly descend, the size is within the limit, a
      live entry is listed exactly when it fits after the listed ones that outrank it, and none
      that was left out still fits. */
  lemma ListIsGreedyAndMaximal(scored: Scored, pending: Pending)
    ensures var chosen := Choose(Ranked(scored), pending, 0);
            && Descending(chosen) && TotalBytes(Encodings(chosen, pending)) == Size(chosen, pending) <= 8192
            && (forall t :: t in chosen ==> t.score in scored && scored[t.score] == t.hash && Live(t, pending))
            && (forall k :: k in scored && scored[k] in pending ==>
                  var t := OrderedTx(k, scored[k]);
                  && (t in chosen <==>
                        Size(AboveScore(chosen, k), pending) + Length(t, pending) <= 8192)
                  && (t !in chosen ==> Size(chosen, pending) + |pending[scored[k]].encoded| > 8192))
  {
    hide Size, Choose, AboveScore, Ranked, Encodings;
    var ranked := Ranked(scored);
    var chosen := Choose(ranked, pending, 0);
    RankedIsRanking(scored);
    ChooseWithin(ranked, pending, 0);
    assert forall i :: 0 <= i < |chosen| ==> chosen[i] in chosen && Live(chosen[i], pending);
    ListEncodes(chosen, pending);
    forall k | k in scored && scored[k] in pending
      ensures var t := OrderedTx(k, scored[k]);
              && (t in chosen <==>
                    Size(AboveScore(chosen, k), pending) + Length(t, pending) <= MAX_LIST_BYTES)
              && (t !in chosen ==> Size(chosen, pending) + Length(t, pending) > MAX_LIST_BYTES)
    {
      var t := OrderedTx(k, scored[k]);
      ChooseIsGreedy(ranked, pending, 0, t);
      AboveIsSmaller(chosen, k, pending);
    }
  }

  // ---------------------------------------------------------------------------------------
  // The producer
  // ---------------------------------------------------------------------------------------

  /** A pool event. `found` is what the pool returns for the hash, with its score at that time. */
  datatype PoolEvent =
    | BecamePending(found: Option<(PoolTx, Score)>)
    | Queued(hash: Hash)
    | Mined(hash: Hash)
    | Discarded(hash: Hash)
    | Invalid(hash: Hash)
    | Replaced(hash: Hash)
    | Propagated(hash: Hash)

  predicate Admissible(tx: PoolTx) {
    tx.blobs.None? || tx.blobs.value == 0
  }

  function StillLive(scored: Scored, pending: Pending): Scored {
    map k | k in scored && scored[k] in pending :: scored[k]
  }

  class InclusionProducer {
    var ordered: Scored
    var pending: Pending

    constructor ()
      ensures ordered == map[] && pending == map[]
    {
      ordered, pending := map[], map[];
    }

    /** An entry whose score is taken is not inserted: its transaction is pending without being
        scored. */
    method HandleEvent(event: PoolEvent)
      modifies this
      ensures event.BecamePending? && event.found.Some?
              && (event.found.value.0.blobs.None? || event.found.value.0.blobs == Some(0)) ==>
                var tx, score := event.found.value.0, event.found.value.1;
                && pending == old(pending)[tx.hash := tx]
                && score in ordered && (forall k :: k in ordered <==> k in old(ordered) || k == score)
                && (forall k :: k in old(ordered) ==> ordered[k] == old(ordered)[k])
                && (score !in old(ordered) ==> ordered[score] == tx.hash)
      ensures !event.BecamePending? && !event.Propagated? ==>
                && ordered == old(ordered) && event.hash !in pending
                && (forall h :: h in old(pending) && h != event.hash ==> h in pending && pending[h] == old(pending)[h])
                && (forall h :: h in pending ==> h in old(pending))
      ensures event.Propagated? ==> ordered == old(ordered) && pending == old(pending)
      ensures event.BecamePending?
              && (event.found.None? || (event.found.value.0.blobs.Some? && event.found.value.0.blobs.value > 0)) ==>
                ordered == old(ordered) && pending == old(pending)
    {
      match event {
        case BecamePending(found) =>
          if found.Some? && Admissible(found.value.0) {
            var tx, score := found.value.0, found.value.1;
            if score !in ordered {
              ordered := ordered[score := tx.hash];
            }
            pending := pending[tx.hash := tx];
          }
        case Propagated(_) =>
        case _ =>
          pending := pending - {event.hash};
      }
    }

    /** Pops the scored set from the top, and puts back what is still pending. */
    method BuildInclusionList() returns (list: seq<Bytes>)
      modifies this
      ensures list == Encodings(Choose(Ranked(old(ordered)), old(pending), 0), old(pending))
      ensures ordered == StillLive(old(ordered), old(pending)) && pending == old(pending)
      ensures forall k :: k in ordered <==> k in old(ordered) && old(ordered)[k] in pending
      ensures forall k :: k in ordered ==> ordered[k] == old(ordered)[k]
    {
      hide Popped, Highest;
      var total: nat := 0;
      var toAdd: Scored := map[];
      list := [];
      ghost var taken: seq<OrderedTx> := [];
      PopsStart(ordered, pending);
      while |ordered| > 0
        invariant pending == old(pending)
        invariant Popped(old(ordered), pending, ordered, total, taken, list, toAdd)
        decreases |ordered|
      {
        ghost var highest := Highest(ordered.Keys);
        var k :| k in ordered && forall i :: i in ordered ==> i <= k;
        assert k == highest;
        PopsOne(old(ordered), pending, ordered, total, taken, list, toAdd);
        var hash := ordered[k];
        ordered := ordered - {k};
        if hash in pending {
          toAdd := toAdd[k := hash];
          if total + |pending[hash].encoded| <= MAX_LIST_BYTES {
            total := total + |pending[hash].encoded|;
            list := list + [pending[hash].encoded];
            taken := taken + [OrderedTx(k, hash)];
          }
        }
      }
      PopsEnd(old(ordered), pending, ordered, total, taken, list, toAdd);
      ordered := toAdd;
    }
  }

  // ---------------------------------------------------------------------------------------
  // The pop loop
  // ---------------------------------------------------------------------------------------

  /** Where the loop stands: `left` of the set `was` is still to pop; `taken` was listed, as
      `list`, and `kept` is to go back. */
  ghost predicate Popped(was: Scored, pending: Pending, left: Scored, total: nat,
                         taken: seq<OrderedTx>, list: seq<Bytes>, kept: Scored)
  {
    && taken + Choose(Ranked(left), pending, total) == Choose(Ranked(was), pending, 0)
    && list == Encodings(taken, pending)
    && StillLive(was, pending) == kept + StillLive(left, pending)
    && forall k :: k in kept ==> k !in left
  }

  lemma PopsStart(was: Scored, pending: Pending)
    ensures Popped(was, pending, was, 0, [], [], map[])
  {
  }

  lemma PopsOne(was: Scored, pending: Pending, left: Scored, total: nat, taken: seq<OrderedTx>, list: seq<Bytes>, kept: Scored)
    requires |left| > 0 && Popped(was, pending, left, total, taken, list, kept)
    ensures var k := Highest(left.Keys);
            var t, rest := OrderedTx(k, left[k]), left - {k};
            var kept' := if Live(t, pending) then kept[k := t.hash] else kept;
            && |rest| < |left|
            && if Live(t, pending) && total + Length(t, pending) <= MAX_LIST_BYTES
               then Popped(was, pending, rest, total + Length(t, pending), taken + [t], list + [pending[t.hash].encoded], kept')
               else Popped(was, pending, rest, total, taken, list, kept')
  {
    hide Choose, Ranked, Encodings, StillLive, Highest;
    var k := Highest(left.Keys);
    var t, rest := OrderedTx(k, left[k]), left - {k};
    PopHighest(left, pending, total);
    StillLivePops(left, pending, k, kept);
    if Live(t, pending) && total + Length(t, pending) <= MAX_LIST_BYTES {
      Regroup(taken, [t], Choose(Ranked(rest), pending, total + Length(t, pending)));
      EncodingsAppend(taken, t, pending);
    }
  }

  lemma PopsEnd(was: Scored, pending: Pending, left: Scored, total: nat, taken: seq<OrderedTx>, list: seq<Bytes>, kept: Scored)
    requires |left| == 0 && Popped(was, pending, left, total, taken, list, kept)
    ensures list == Encodings(Choose(Ranked(was), pending, 0), pending) && kept == StillLive(was, pending)
  {
    hide Choose, Ranked, Encodings, StillLive;
    NoneLeft(left, pending, total, kept);
    assert taken + [] == taken;
  }

  lemma PopHighest(scored: Scored, pending: Pending, used: nat)
    requires |scored| > 0
    ensures var k := Highest(scored.Keys);
            var t, rest := OrderedTx(k, scored[k]), Ranked(scored - {k});
            && |scored - {k}| < |scored|
            && Choose(Ranked(scored), pending, used) ==
               if Live(t, pending) && used + Length(t, pending) <= MAX_LIST_BYTES
               then [t] + Choose(rest, pending, used + Length(t, pending)) else Choose(rest, pending, used)
  {
    hide Choose;
    var k := Highest(scored.Keys);
    assert (scored - {k}).Keys == scored.Keys - {k};
    ChooseHead(OrderedTx(k, scored[k]), Ranked(scored - {k}), pending, used);
  }

  lemma StillLivePops(scored: Scored, pending: Pending, k: Score, kept: Scored)
    requires k in scored && forall i :: i in kept ==> i !in scored
    ensures var rest := StillLive(scored - {k}, pending);
            kept + StillLive(scored, pending) ==
            (if scored[k] in pending then kept[k := scored[k]] else kept) + rest
  {
  }

  lemma EncodingsAppend(ts: seq<OrderedTx>, t: OrderedTx, pending: Pending)
    requires t.hash in pending
    ensures Encodings(ts + [t], pending) == Encodings(ts, pending) + [pending[t.hash].encoded]
  {
  }

  lemma NoneLeft(scored: Scored, pending: Pending, used: nat, kept: Scored)
    requires |scored| == 0
    ensures Choose(Ranked(scored), pending, used) == [] && kept + StillLive(scored, pending) == kept
  {
    assert scored == map[];
  }
}
