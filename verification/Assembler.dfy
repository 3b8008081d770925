/** block_assembler.rs: one block from the flashblocks of one block number. */
module Assembler {
  import opened Types

  datatype Block = Block(header: Header, transactions: seq<Tx>, withdrawals: seq<Withdrawal>)

  /** Encoded transactions of every flashblock, in order. */
  function Payloads(fbs: seq<FlashBlock>): seq<Bytes> {
    if fbs == [] then [] else fbs[0].diff.transactions + Payloads(fbs[1..])
  }

  /** One receipt per hash; a later flashblock's receipt replaces an earlier one. */
  function MergedReceipts(fbs: seq<FlashBlock>): map<Hash, Receipt> {
    if fbs == [] then map[] else fbs[0].meta.receipts + MergedReceipts(fbs[1..])
  }

  function MergedBalances(fbs: seq<FlashBlock>): map<Address, Word> {
    if fbs == [] then map[] else fbs[0].meta.balances + MergedBalances(fbs[1..])
  }

  function DecodeAll(spec: Spec, payloads: seq<Bytes>): (r: Option<seq<Tx>>)
    ensures r.Some? ==> |r.value| == |payloads|
    ensures r.Some? ==> forall i :: 0 <= i < |payloads| ==> spec.decode(payloads[i]) == Some(r.value[i])
    ensures r.None? ==> exists i :: 0 <= i < |payloads| && spec.decode(payloads[i]).None?
  {
    if payloads == [] then Some([])
    else
      var head := spec.decode(payloads[0]);
      var tail := DecodeAll(spec, payloads[1..]);
      if head.None? || tail.None? then None else Some([head.value] + tail.value)
  }

  /** The receipts of a block's transactions in block order, or the first hash without one. */
  function OrderedReceipts(txs: seq<Tx>, receipts: map<Hash, Receipt>): (r: Result<seq<Receipt>, Hash>)
    ensures r.Ok? <==> forall t :: t in txs ==> t.hash in receipts
    ensures r.Ok? ==> |r.value| == |txs|
    ensures r.Ok? ==> forall i :: 0 <= i < |txs| ==> r.value[i] == receipts[txs[i].hash]
    ensures r.Err? ==> exists t :: t in txs && t.hash == r.error && t.hash !in receipts
  {
    if txs == [] then Ok([])
    else if txs[0].hash !in receipts then
      assert txs[0] in txs;
      Err(txs[0].hash)
    else
      var tail := OrderedReceipts(txs[1..], receipts);
      if tail.Err? then tail else Ok([receipts[txs[0].hash]] + tail.value)
  }

  const DEPOSIT_REQUEST_TYPE: byte := 0

  /** A request list with the deposits as its only entry; no deposits leave it empty. */
  function DepositRequests(deposits: Bytes): seq<Bytes> {
    if deposits == [] then [] else [[DEPOSIT_REQUEST_TYPE] + deposits]
  }

  function RequestsHash(spec: Spec, timestamp: nat, txs: seq<Tx>, fbs: seq<FlashBlock>)
    : Result<Option<Word>, Error>
    requires fbs != []
  {
    var last := fbs[|fbs| - 1];
    if !spec.pragueAt(timestamp) then Ok(None)
    else if last.diff.requests.Some? then Ok(Some(spec.requestsHash(last.diff.requests.value)))
    else
      match OrderedReceipts(txs, MergedReceipts(fbs))
      case Err(hash) => Err(MissingReceipt(hash))
      case Ok(receipts) =>
        match spec.parseDeposits(receipts)
        case None => Err(BlockConversion)
        case Some(deposits) => Ok(Some(spec.requestsHash(DepositRequests(deposits))))
  }

  function HeaderOf(spec: Spec, base: Base, diff: Diff, txs: seq<Tx>, requestsHash: Option<Word>): Header {
    Header(base.parentHash, base.feeRecipient, diff.stateRoot, spec.transactionsRoot(txs),
           diff.receiptsRoot, spec.withdrawalsRoot(diff.withdrawals), diff.logsBloom,
           base.blockNumber, base.gasLimit, diff.gasUsed, base.timestamp, base.prevRandao,
           base.extraData, base.baseFee, diff.blobGasUsed, diff.excessBlobGas,
           Some(base.parentBeaconRoot), requestsHash,
           if spec.amsterdamAt(base.timestamp) then base.slotNumber else None)
  }

  function Assemble(spec: Spec, fbs: seq<FlashBlock>): (r: Result<Block, Error>)
    ensures r.Ok? ==> fbs != [] && fbs[0].base.Some? && fbs[0].base.value.blockNumber != 0
    ensures r.Ok? ==> DecodeAll(spec, Payloads(fbs)) == Some(r.value.transactions)
    ensures r.Ok? ==> r.value.header.number == fbs[0].base.value.blockNumber
    ensures r.Ok? ==> r.value.header.timestamp == fbs[0].base.value.timestamp
  {
    if fbs == [] then Err(EmptyFlashblocks)
    else if fbs[0].base.None? then Err(MissingBase)
    else
      var base := fbs[0].base.value;
      var last := fbs[|fbs| - 1];
      if base.blockNumber == 0 then Err(GenesisFlashblock)
      else if spec.amsterdamAt(base.timestamp) && base.slotNumber.None? then
        Err(MissingSlotNumber(base.blockNumber))
      else
        var txs := DecodeAll(spec, Payloads(fbs));
        if txs.None? || !spec.convertible(base) then Err(BlockConversion)
        else
          match RequestsHash(spec, base.timestamp, txs.value, fbs)
          case Err(e) => Err(e)
          case Ok(hash) =>
            Ok(Block(HeaderOf(spec, base, last.diff, txs.value, hash), txs.value, last.diff.withdrawals))
  }

  /** Which deposits the receipts hold is asked only after Prague, and only when the producer
      left its own request list out. */
  predicate ScansDeposits(spec: Spec, fbs: seq<FlashBlock>)
    requires fbs != [] && fbs[0].base.Some?
  {
    spec.pragueAt(fbs[0].base.value.timestamp) && fbs[|fbs| - 1].diff.requests.None?
  }

  ghost predicate DepositsReadable(spec: Spec, txs: seq<Tx>, receipts: map<Hash, Receipt>) {
    && (forall t :: t in txs ==> t.hash in receipts)
    && OrderedReceipts(txs, receipts).Ok?
    && spec.parseDeposits(OrderedReceipts(txs, receipts).value).Some?
  }

  /** Assembly succeeds exactly on these lists. */
  lemma AssemblesExactly(spec: Spec, fbs: seq<FlashBlock>)
    ensures Assemble(spec, fbs).Ok? <==>
            && fbs != [] && fbs[0].base.Some?
            && var base := fbs[0].base.value;
            && base.blockNumber != 0 && spec.convertible(base)
            && (spec.amsterdamAt(base.timestamp) ==> base.slotNumber.Some?)
            && DecodeAll(spec, Payloads(fbs)).Some?
            && (ScansDeposits(spec, fbs) ==>
                  DepositsReadable(spec, DecodeAll(spec, Payloads(fbs)).value, MergedReceipts(fbs)))
  {
  }

  /** Where an assembled block's fields come from: what the producer fixed when it opened the
      block from the first flashblock's base, and what it reports cumulatively from the last
      flashblock. A hash of requests is there exactly after Prague: the producer's list when it
      sent one, otherwise the deposits found in block order, as the one request of type 0, or none.
      A slot is there exactly from Amsterdam on. */
  lemma AssembledFields(spec: Spec, fbs: seq<FlashBlock>)
    requires Assemble(spec, fbs).Ok?
    ensures var block, header := Assemble(spec, fbs).value, Assemble(spec, fbs).value.header;
            var base, diff := fbs[0].base.value, fbs[|fbs| - 1].diff;
            && block.withdrawals == diff.withdrawals
            && header.withdrawalsRoot == spec.withdrawalsRoot(diff.withdrawals)
            && header.transactionsRoot == spec.transactionsRoot(block.transactions)
            && header.stateRoot == diff.stateRoot && header.receiptsRoot == diff.receiptsRoot
            && header.logsBloom == diff.logsBloom && header.gasUsed == diff.gasUsed
            && header.blobGasUsed == diff.blobGasUsed && header.excessBlobGas == diff.excessBlobGas
            && header.parentHash == base.parentHash && header.beneficiary == base.feeRecipient
            && header.mixHash == base.prevRandao && header.gasLimit == base.gasLimit
            && header.baseFee == base.baseFee && header.extraData == base.extraData
            && header.parentBeaconRoot == Some(base.parentBeaconRoot)
            && (header.requestsHash.Some? <==> spec.pragueAt(base.timestamp))
            && (header.slotNumber.Some? <==> spec.amsterdamAt(base.timestamp))
            && (header.slotNumber.Some? ==> header.slotNumber == base.slotNumber)
    ensures var diff := fbs[|fbs| - 1].diff;
            Assemble(spec, fbs).value.header.requestsHash.Some? && diff.requests.Some? ==>
              Assemble(spec, fbs).value.header.requestsHash == Some(spec.requestsHash(diff.requests.value))
    ensures var block := Assemble(spec, fbs).value;
            ScansDeposits(spec, fbs) ==>
              var deposits := spec.parseDeposits(OrderedReceipts(block.transactions, MergedReceipts(fbs)).value).value;
              block.header.requestsHash == Some(spec.requestsHash(if deposits == [] then [] else [[0] + deposits]))
  {
  }

  // ---------------------------------------------------------------------------------------
  // Chunking independence
  // ---------------------------------------------------------------------------------------

  /** The single flashblock that says everything a non-empty list says: base from the first,
      cumulative fields from the last, transactions concatenated, receipts and balances unioned. */
  function Merged(fbs: seq<FlashBlock>): FlashBlock
    requires fbs != []
  {
    var last := fbs[|fbs| - 1];
    FlashBlock(
      fbs[0].payloadId, fbs[0].index, fbs[0].base,
      last.diff.(transactions := Payloads(fbs)),
      Metadata(fbs[0].meta.blockNumber, MergedBalances(fbs), MergedReceipts(fbs)))
  }

  /** However the producer cuts a block into flashblocks, the assembled block, its requests hash
      and any error are those of the one flashblock that merges them. */
  lemma ChunkingIndependence(spec: Spec, fbs: seq<FlashBlock>)
    requires fbs != []
    ensures Assemble(spec, fbs) == Assemble(spec, [Merged(fbs)])
  {
    var one := [Merged(fbs)];
    assert one[1..] == [];
    assert Payloads(one) == Payloads(fbs) + Payloads(one[1..]);
    assert Payloads(one) == Payloads(fbs);
    assert MergedReceipts(one) == MergedReceipts(fbs);
  }

  lemma Singleton(fb: FlashBlock)
    ensures Payloads([fb]) == fb.diff.transactions
    ensures MergedReceipts([fb]) == fb.meta.receipts
  {
    var one := [fb];
    assert one[1..] == [];
    assert Payloads(one) == fb.diff.transactions + Payloads(one[1..]);
    assert MergedReceipts(one) == fb.meta.receipts + MergedReceipts(one[1..]);
  }

  /** Two ways to cut the same block assemble alike. */
  lemma CutsAgree(spec: Spec, a: seq<FlashBlock>, b: seq<FlashBlock>)
    requires a != [] && b != []
    requires a[0].base == b[0].base
    requires a[|a| - 1].diff.(transactions := []) == b[|b| - 1].diff.(transactions := [])
    requires Payloads(a) == Payloads(b)
    requires MergedReceipts(a) == MergedReceipts(b)
    ensures Assemble(spec, a) == Assemble(spec, b)
  {
    ChunkingIndependence(spec, a);
    ChunkingIndependence(spec, b);
    Singleton(Merged(a));
    Singleton(Merged(b));
  }

  lemma OrderedReceiptsLocal(txs: seq<Tx>, a: map<Hash, Receipt>, b: map<Hash, Receipt>)
    requires forall t :: t in txs ==> (t.hash in a <==> t.hash in b)
    requires forall t :: t in txs && t.hash in a && t.hash in b ==> a[t.hash] == b[t.hash]
    ensures OrderedReceipts(txs, a) == OrderedReceipts(txs, b)
  {
    if txs != [] {
      assert txs[0] in txs;
      OrderedReceiptsLocal(txs[1..], a, b);
    }
  }

  lemma MergedReceiptsUpdate(fbs: seq<FlashBlock>, k: nat, hash: Hash, stray: Receipt)
    requires k < |fbs|
    ensures var stuffed := fbs[k := WithReceipt(fbs[k], hash, stray)];
            MergedReceipts(stuffed) - {hash} == MergedReceipts(fbs) - {hash}
            && Payloads(stuffed) == Payloads(fbs)
  {
    var stuffed := fbs[k := WithReceipt(fbs[k], hash, stray)];
    if k == 0 {
      assert stuffed[1..] == fbs[1..];
    } else {
      MergedReceiptsUpdate(fbs[1..], k - 1, hash, stray);
      assert stuffed[1..] == fbs[1..][k - 1 := WithReceipt(fbs[k], hash, stray)];
      var rest, rest' := MergedReceipts(fbs[1..]), MergedReceipts(stuffed[1..]);
      forall h | h != hash
        ensures h in rest <==> h in rest'
        ensures h in rest ==> rest[h] == rest'[h]
      {
        assert h in rest <==> h in rest - {hash};
        assert h in rest' <==> h in rest' - {hash};
      }
    }
  }

  function WithReceipt(fb: FlashBlock, hash: Hash, receipt: Receipt): FlashBlock {
    fb.(meta := fb.meta.(receipts := fb.meta.receipts[hash := receipt]))
  }

  /** A block depends on its receipts only through its own transactions. */
  lemma AssembleLocal(spec: Spec, a: seq<FlashBlock>, b: seq<FlashBlock>)
    requires a != [] && b != []
    requires a[0].base == b[0].base
    requires a[|a| - 1].diff == b[|b| - 1].diff
    requires Payloads(a) == Payloads(b)
    requires DecodeAll(spec, Payloads(a)).Some? ==>
               var txs := DecodeAll(spec, Payloads(a)).value;
               OrderedReceipts(txs, MergedReceipts(a)) == OrderedReceipts(txs, MergedReceipts(b))
    ensures Assemble(spec, a) == Assemble(spec, b)
  {
    hide DecodeAll, OrderedReceipts, MergedReceipts, Payloads, HeaderOf;
  }

  lemma LookupsOutside(txs: seq<Tx>, a: map<Hash, Receipt>, b: map<Hash, Receipt>, hash: Hash)
    requires a - {hash} == b - {hash}
    requires Tx(hash) !in txs
    ensures OrderedReceipts(txs, a) == OrderedReceipts(txs, b)
  {
    forall t | t in txs
      ensures t.hash in a <==> t.hash in b
      ensures t.hash in a && t.hash in b ==> a[t.hash] == b[t.hash]
    {
      assert t.hash != hash;
      assert t.hash in a <==> t.hash in a - {hash};
      assert t.hash in b <==> t.hash in b - {hash};
    }
    OrderedReceiptsLocal(txs, a, b);
  }

  /** A receipt for a transaction outside the block changes nothing, wherever it travels. */
  lemma StrayReceiptIgnored(spec: Spec, fbs: seq<FlashBlock>, k: nat, hash: Hash, stray: Receipt)
    requires k < |fbs|
    requires forall raw :: raw in Payloads(fbs) ==> spec.decode(raw) != Some(Tx(hash))
    ensures Assemble(spec, fbs[k := WithReceipt(fbs[k], hash, stray)]) == Assemble(spec, fbs)
  {
    var stuffed := fbs[k := WithReceipt(fbs[k], hash, stray)];
    MergedReceiptsUpdate(fbs, k, hash, stray);
    var decoded := DecodeAll(spec, Payloads(fbs));
    if decoded.Some? {
      assert Tx(hash) !in decoded.value;
      LookupsOutside(decoded.value, MergedReceipts(stuffed), MergedReceipts(fbs), hash);
    }
    AssembleLocal(spec, stuffed, fbs);
  }
}
