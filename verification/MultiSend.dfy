/** payment.rs: parsing as the inverse of packing. `Pack` lays an entry out, `Whole` says when one
    can be taken off the front, and the iterator over a byte array is proved against both. */
module MultiSend {
  import opened Types

  const ENTRY_HEADER_LEN: nat := 1 + 20 + 32 + 32
  const TWO_64: nat := 0x1_0000_0000_0000_0000
  const TWO_256: nat := TWO_64 * TWO_64 * TWO_64 * TWO_64

  /** What one entry pays, and to whom: the recipient is its 20 bytes. */
  datatype Payment = Payment(to: Bytes, value: nat)

  datatype Entry = Entry(operation: byte, to: Bytes, value: nat, data: Bytes)

  /** An entry the packed encoding can carry. */
  predicate Encodable(e: Entry) {
    |e.to| == 20 && e.value < TWO_256 && |e.data| < TWO_64
  }

  // ---------------------------------------------------------------------------------------
  // Big-endian words
  // ---------------------------------------------------------------------------------------

  function FromBe(bs: Bytes): nat {
    if bs == [] then 0 else FromBe(bs[..|bs| - 1]) * 256 + bs[|bs| - 1] as int
  }

  function ToBe(n: nat, width: nat): (r: Bytes)
    ensures |r| == width
  {
    if width == 0 then [] else ToBe(n / 256, width - 1) + [(n % 256) as byte]
  }

  function Power256(width: nat): nat {
    if width == 0 then 1 else 256 * Power256(width - 1)
  }

  lemma {:induction false} BeRoundTrip(n: nat, width: nat)
    requires n < Power256(width)
    ensures FromBe(ToBe(n, width)) == n
  {
    if width > 0 {
      BeRoundTrip(n / 256, width - 1);
      assert ToBe(n, width)[..width - 1] == ToBe(n / 256, width - 1);
    }
  }

  lemma {:induction false} BeInverse(bs: Bytes)
    ensures FromBe(bs) < Power256(|bs|)
    ensures ToBe(FromBe(bs), |bs|) == bs
  {
    if bs != [] {
      BeInverse(bs[..|bs| - 1]);
      assert bs == bs[..|bs| - 1] + [bs[|bs| - 1]];
    }
  }

  lemma WordRange()
    ensures Power256(32) == TWO_256
  {
    assert Power256(8) == TWO_64;
    PowerAdds(8, 8);
    PowerAdds(8, 16);
    PowerAdds(8, 24);
  }

  lemma {:induction false} PowerAdds(a: nat, b: nat)
    ensures Power256(a + b) == Power256(a) * Power256(b)
  {
    if a > 0 {
      PowerAdds(a - 1, b);
    }
  }

  // ---------------------------------------------------------------------------------------
  // The encoding
  // ---------------------------------------------------------------------------------------

  function Pack(e: Entry): (r: Bytes)
    requires |e.to| == 20
    ensures |r| == ENTRY_HEADER_LEN + |e.data|
  {
    [e.operation] + e.to + ToBe(e.value, 32) + ToBe(|e.data|, 32) + e.data
  }

  ghost predicate AllEncodable(es: seq<Entry>) {
    forall e :: e in es ==> Encodable(e)
  }

  ghost function PackAll(es: seq<Entry>): Bytes
    requires AllEncodable(es)
  {
    if es == [] then [] else assert es[0] in es; Pack(es[0]) + PackAll(es[1..])
  }

  function Payments(es: seq<Entry>): seq<Payment> {
    seq(|es|, i requires 0 <= i < |es| => Payment(es[i].to, es[i].value))
  }

  // ---------------------------------------------------------------------------------------
  // Parsing
  // ---------------------------------------------------------------------------------------

  function DataLen(b: Bytes): nat
    requires |b| >= ENTRY_HEADER_LEN
  {
    FromBe(b[53..85])
  }

  /** A whole entry starts here. The length must also fit a 64-bit word. */
  predicate Whole(b: Bytes) {
    |b| >= ENTRY_HEADER_LEN && DataLen(b) < TWO_64 && DataLen(b) <= |b| - ENTRY_HEADER_LEN
  }

  function Head(b: Bytes): Payment
    requires |b| >= ENTRY_HEADER_LEN
  {
    Payment(b[1..21], FromBe(b[21..53]))
  }

  function Tail(b: Bytes): (r: Bytes)
    requires Whole(b)
    ensures |r| < |b|
  {
    b[ENTRY_HEADER_LEN + DataLen(b)..]
  }

  /** The payments of the whole entries at the front. */
  function Entries(b: Bytes): seq<Payment>
    decreases |b|
  {
    if Whole(b) then [Head(b)] + Entries(Tail(b)) else []
  }

  /** Where the fields of a packed entry sit. */
  lemma PackLayout(e: Entry, rest: Bytes)
    requires |e.to| == 20
    ensures var b := Pack(e) + rest;
            && |b| == ENTRY_HEADER_LEN + |e.data| + |rest|
            && b[0] == e.operation && b[1..21] == e.to
            && b[21..53] == ToBe(e.value, 32) && b[53..85] == ToBe(|e.data|, 32)
            && b[85..85 + |e.data|] == e.data && b[85 + |e.data|..] == rest
  {
    var b := Pack(e) + rest;
    var value, len := ToBe(e.value, 32), ToBe(|e.data|, 32);
    hide ToBe;
    assert b == [e.operation] + e.to + value + len + e.data + rest;
    assert b[1..21] == e.to;
    assert b[21..53] == value;
    assert b[53..85] == len;
    assert b[85..85 + |e.data|] == e.data;
    assert b[85 + |e.data|..] == rest;
  }

  lemma PackedIsWhole(e: Entry, rest: Bytes)
    requires Encodable(e)
    ensures var b := Pack(e) + rest;
            Whole(b) && Head(b) == Payment(e.to, e.value) && Tail(b) == rest
  {
    hide Pack, ToBe, FromBe, Power256;
    PackLayout(e, rest);
    WordRange();
    BeRoundTrip(e.value, 32);
    BeRoundTrip(|e.data|, 32);
  }

  /** A whole entry is exactly what some encodable entry packs to. */
  lemma WholeIsPacked(b: Bytes) returns (e: Entry)
    requires Whole(b)
    ensures Encodable(e) && b == Pack(e) + Tail(b) && Head(b) == Payment(e.to, e.value)
  {
    hide ToBe, FromBe, Power256;
    var n := DataLen(b);
    e := Entry(b[0], b[1..21], FromBe(b[21..53]), b[85..85 + n]);
    BeInverse(b[21..53]);
    BeInverse(b[53..85]);
    WordRange();
    assert b == [b[0]] + b[1..21] + b[21..53] + b[53..85] + b[85..85 + n] + b[85 + n..];
  }

  /** Parsing inverts packing, entry by entry, whatever bytes follow. */
  lemma {:induction false} ParsePacked(es: seq<Entry>, rest: Bytes)
    requires AllEncodable(es)
    ensures Entries(PackAll(es) + rest) == Payments(es) + Entries(rest)
    decreases |es|
  {
    hide Whole, Head, Tail, Pack;
    if es == [] {
      assert PackAll(es) + rest == rest;
    } else {
      assert es[0] in es;
      var tail := es[1..];
      assert forall e :: e in tail ==> e in es;
      var b := PackAll(es) + rest;
      Regroup(Pack(es[0]), PackAll(tail), rest);
      PackedIsWhole(es[0], PackAll(tail) + rest);
      ParsePacked(tail, rest);
      assert Payments(es) == [Payment(es[0].to, es[0].value)] + Payments(tail);
      Regroup([Payment(es[0].to, es[0].value)], Payments(tail), Entries(rest));
    }
  }

  /** Parsing the encoding of any entry list, with any data, gives its payments in order. */
  lemma RoundTrip(es: seq<Entry>)
    requires AllEncodable(es)
    ensures Entries(PackAll(es)) == Payments(es)
  {
    assert PackAll(es) + [] == PackAll(es);
    ParsePacked(es, []);
  }

  /** Any bytes are the encoding of some entries followed by something that starts with no whole
      entry, and those are the entries parsed. */
  lemma {:induction false} ParsesWholePrefix(b: Bytes) returns (es: seq<Entry>, rest: Bytes)
    ensures AllEncodable(es) && b == PackAll(es) + rest && !Whole(rest)
    ensures Entries(b) == Payments(es)
    decreases |b|
  {
    hide Pack, Head;
    if Whole(b) {
      var e := WholeIsPacked(b);
      var es', rest' := ParsesWholePrefix(Tail(b));
      es, rest := [e] + es', rest';
      assert es[1..] == es';
      assert Payments(es) == [Head(b)] + Payments(es');
    } else {
      es, rest := [], b;
    }
  }

  /** No way of reading a prefix of the bytes as entries finds more, or others. */
  lemma ParsesLongestPrefix(b: Bytes, es: seq<Entry>, rest: Bytes)
    requires AllEncodable(es) && b == PackAll(es) + rest
    ensures Payments(es) <= Entries(b)
    ensures Payments(es) == Entries(b) <==> !Whole(rest)
  {
    hide Whole, Head, Tail, PackAll;
    ParsePacked(es, rest);
  }

  // ---------------------------------------------------------------------------------------
  // The iterator
  // ---------------------------------------------------------------------------------------

  /** The packed payload with a read position that only moves forward. */
  class PackedEntries {
    const transactions: Bytes
    var offset: nat

    ghost predicate Valid()
      reads this
    {
      offset <= |transactions|
    }

    constructor (transactions: Bytes)
      ensures Valid() && this.transactions == transactions && offset == 0
    {
      this.transactions := transactions;
      offset := 0;
    }

    /** Reads one entry, or stops. Every read stays in bounds. */
    method Next() returns (r: Option<Payment>)
      requires Valid()
      modifies this
      ensures Valid() && offset >= old(offset)
      ensures r.Some? <==> Whole(transactions[old(offset)..])
      ensures r.Some? ==>
                && r.value == Head(transactions[old(offset)..])
                && transactions[offset..] == Tail(transactions[old(offset)..])
    {
      ghost var b := transactions[offset..];
      if |transactions| - offset < ENTRY_HEADER_LEN {
        return None;
      }
      offset := offset + 1;
      var to := transactions[offset..offset + 20];
      assert to == b[1..21];
      offset := offset + 20;
      var value := FromBe(transactions[offset..offset + 32]);
      assert transactions[offset..offset + 32] == b[21..53];
      offset := offset + 32;
      var dataLen := FromBe(transactions[offset..offset + 32]);
      assert transactions[offset..offset + 32] == b[53..85];
      if dataLen >= TWO_64 {
        return None;
      }
      offset := offset + 32;
      if |transactions| - offset < dataLen {
        return None;
      }
      offset := offset + dataLen;
      r := Some(Payment(to, value));
    }
  }

  // ---------------------------------------------------------------------------------------
  // What a recipient is paid
  // ---------------------------------------------------------------------------------------

  function SumTo(ps: seq<Payment>, recipient: Bytes): nat {
    if ps == [] then 0
    else (if ps[0].to == recipient then ps[0].value else 0) + SumTo(ps[1..], recipient)
  }

  datatype ExecTransaction = ExecTransaction(operation: nat, data: Bytes)

  const SAFE_DELEGATECALL: nat := 1

  /** The ABI decoders, which are foreign. */
  datatype Abi = Abi(execTransaction: Bytes -> Option<ExecTransaction>, multiSend: Bytes -> Option<Bytes>)

  /** Sums what the batched calls pay `recipient`. The sum wraps at 256 bits, so it is the true sum
      exactly when that fits. */
  method MultisendPaidAmount(abi: Abi, input: Bytes, recipient: Bytes) returns (paid: nat)
    ensures paid < TWO_256
    ensures var exec := abi.execTransaction(input);
            if exec.None? || exec.value.operation != 1 || abi.multiSend(exec.value.data).None? then paid == 0
            else
              var sum := SumTo(Entries(abi.multiSend(exec.value.data).value), recipient);
              paid == sum % TWO_256 && (paid == sum <==> sum < TWO_256)
  {
    var exec := abi.execTransaction(input);
    if exec.None? || exec.value.operation != SAFE_DELEGATECALL {
      return 0;
    }
    var batch := abi.multiSend(exec.value.data);
    if batch.None? {
      return 0;
    }
    paid := FoldPayments(batch.value, recipient);
  }

  method FoldPayments(transactions: Bytes, recipient: Bytes) returns (paid: nat)
    ensures paid == SumTo(Entries(transactions), recipient) % TWO_256
  {
    hide Head, Tail, DataLen, Entries, SumTo;
    paid := 0;
    var it := new PackedEntries(transactions);
    var next := it.Next();
    ghost var left := transactions;
    assert transactions[0..] == transactions;
    while next.Some?
      invariant it.Valid() && it.transactions == transactions
      invariant next.Some? <==> Whole(left)
      invariant next.Some? ==> next.value == Head(left) && transactions[it.offset..] == Tail(left)
      invariant (paid + SumTo(Entries(left), recipient)) % TWO_256
             == SumTo(Entries(transactions), recipient) % TWO_256
      invariant paid < TWO_256
      decreases |left|
    {
      ghost var rest := Tail(left);
      SumHead(left, recipient);
      ghost var owed := SumTo(Entries(rest), recipient);
      if next.value.to == recipient {
        WrapAdd(paid, next.value.value, owed);
        paid := (paid + next.value.value) % TWO_256;
      }
      left := rest;
      next := it.Next();
    }
    NothingOwed(left, recipient);
  }

  lemma SumHead(b: Bytes, recipient: Bytes)
    requires Whole(b)
    ensures SumTo(Entries(b), recipient) ==
            (if Head(b).to == recipient then Head(b).value else 0) + SumTo(Entries(Tail(b)), recipient)
  {
    hide Head, Tail;
    assert ([Head(b)] + Entries(Tail(b)))[1..] == Entries(Tail(b));
  }

  lemma NothingOwed(b: Bytes, recipient: Bytes)
    requires !Whole(b)
    ensures SumTo(Entries(b), recipient) == 0
  {
  }

  lemma WrapAdd(a: nat, b: nat, c: nat)
    ensures ((a + b) % TWO_256 + c) % TWO_256 == (a + (b + c)) % TWO_256
  {
    var q := (a + b) / TWO_256;
    assert (a + b) == q * TWO_256 + (a + b) % TWO_256;
    ModShift((a + b) % TWO_256 + c, q);
  }

  lemma {:induction false} ModShift(x: nat, q: nat)
    ensures (x + q * TWO_256) % TWO_256 == x % TWO_256
  {
    if q > 0 {
      ModShift(x, q - 1);
      assert x + q * TWO_256 == x + (q - 1) * TWO_256 + TWO_256;
    }
  }
}
