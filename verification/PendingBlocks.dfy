/** pending_blocks.rs: the published snapshot, the builder that fills it, and its readers. */
module PendingBlocks {
  import opened Types
  import opened Overlay

  datatype RpcTx = RpcTx(tx: Tx, sender: Address, blockNumber: nat, index: nat,
                         effectiveGasPrice: nat, timestamp: nat)

  datatype RpcLog = RpcLog(data: LogData, blockNumber: nat, timestamp: nat, txHash: Hash,
                           txIndex: nat, logIndex: nat)

  datatype RpcReceipt = RpcReceipt(success: bool, cumulativeGas: nat, gasUsed: nat,
                                   logs: seq<RpcLog>, txHash: Hash, txIndex: nat, blockNumber: nat)

  /** An immutable snapshot of pending state. */
  datatype Snapshot = Snapshot(
    earliest: Header,
    latest: Header,
    latestIndex: nat,
    headers: seq<Header>,
    flashblocks: seq<FlashBlock>,
    transactions: seq<RpcTx>,
    balances: map<Address, Word>,
    receipts: map<Hash, RpcReceipt>,
    byHash: map<Hash, RpcTx>,
    states: map<Hash, Delta>,
    senders: map<Hash, Address>,
    bundle: Bundle,
    anchor: Header)
  {
    function PayloadId(): nat {
      if flashblocks == [] then 0 else flashblocks[|flashblocks| - 1].payloadId
    }
  }

  /** What the builder has collected so far. */
  datatype Draft = Draft(
    flashblocks: seq<FlashBlock>,
    headers: seq<Header>,
    transactions: seq<RpcTx>,
    balances: map<Address, Word>,
    receipts: map<Hash, RpcReceipt>,
    byHash: map<Hash, RpcTx>,
    states: map<Hash, Delta>,
    senders: map<Hash, Address>,
    duplicate: Option<Hash>)

  const EMPTY_DRAFT := Draft([], [], [], map[], map[], map[], map[], map[], None)

  /** Adding a hash a second time leaves the list as it is and marks the draft, which then cannot
      be sealed. */
  function WithTransaction(d: Draft, t: RpcTx): Draft {
    if t.tx.hash in d.byHash then
      if d.duplicate.Some? then d else d.(duplicate := Some(t.tx.hash))
    else
      d.(byHash := d.byHash[t.tx.hash := t], transactions := d.transactions + [t])
  }

  function Seal(d: Draft, bundle: Bundle, anchor: Header): Result<Snapshot, Error> {
    if d.duplicate.Some? then Err(DuplicateTransaction(d.duplicate.value))
    else if d.headers == [] then Err(MissingHeaders)
    else if d.flashblocks == [] then Err(NoFlashblocks)
    else
      Ok(Snapshot(d.headers[0], d.headers[|d.headers| - 1], d.flashblocks[|d.flashblocks| - 1].index,
                  d.headers, d.flashblocks, d.transactions, d.balances, d.receipts, d.byHash,
                  d.states, d.senders, bundle, anchor))
  }

  class Builder {
    var flashblocks: seq<FlashBlock>
    var headers: seq<Header>
    var transactions: seq<RpcTx>
    var balances: map<Address, Word>
    var receipts: map<Hash, RpcReceipt>
    var byHash: map<Hash, RpcTx>
    var states: map<Hash, Delta>
    var senders: map<Hash, Address>
    var deferredError: Option<Hash>

    function Contents(): Draft
      reads this
    {
      Draft(flashblocks, headers, transactions, balances, receipts, byHash, states, senders, deferredError)
    }

    constructor ()
      ensures Contents() == EMPTY_DRAFT
    {
      flashblocks, headers, transactions := [], [], [];
      balances, receipts, byHash, states, senders := map[], map[], map[], map[], map[];
      deferredError := None;
    }

    method AddFlashblocks(fbs: seq<FlashBlock>)
      modifies this
      ensures Contents() == old(Contents()).(flashblocks := old(flashblocks) + fbs)
    {
      flashblocks := flashblocks + fbs;
    }

    method AddHeader(header: Header)
      modifies this
      ensures Contents() == old(Contents()).(headers := old(headers) + [header])
    {
      headers := headers + [header];
    }

    method AddTransaction(t: RpcTx)
      modifies this
      ensures Contents() == WithTransaction(old(Contents()), t)
    {
      if t.tx.hash in byHash {
        if deferredError.None? {
          deferredError := Some(t.tx.hash);
        }
        return;
      }
      byHash := byHash[t.tx.hash := t];
      transactions := transactions + [t];
    }

    method AddState(hash: Hash, state: Delta)
      modifies this
      ensures Contents() == old(Contents()).(states := old(states)[hash := state])
    {
      states := states[hash := state];
    }

    method AddSender(hash: Hash, sender: Address)
      modifies this
      ensures Contents() == old(Contents()).(senders := old(senders)[hash := sender])
    {
      senders := senders[hash := sender];
    }

    method AddReceipt(hash: Hash, receipt: RpcReceipt)
      modifies this
      ensures Contents() == old(Contents()).(receipts := old(receipts)[hash := receipt])
    {
      receipts := receipts[hash := receipt];
    }

    method AddBalances(updated: map<Address, Word>)
      modifies this
      ensures Contents() == old(Contents()).(balances := old(balances) + updated)
    {
      balances := balances + updated;
    }

    method Build(bundle: Bundle, anchor: Header) returns (r: Result<Snapshot, Error>)
      ensures r == Seal(Contents(), bundle, anchor)
    {
      if deferredError.Some? {
        return Err(DuplicateTransaction(deferredError.value));
      }
      if headers == [] {
        return Err(MissingHeaders);
      }
      if flashblocks == [] {
        return Err(NoFlashblocks);
      }
      r := Ok(Snapshot(headers[0], headers[|headers| - 1], flashblocks[|flashblocks| - 1].index,
                       headers, flashblocks, transactions, balances, receipts, byHash, states,
                       senders, bundle, anchor));
    }
  }

  // ---------------------------------------------------------------------------------------
  // Readers
  // ---------------------------------------------------------------------------------------

  function Hashes(txs: seq<RpcTx>): (r: seq<Hash>)
    ensures |r| == |txs|
    ensures forall i :: 0 <= i < |txs| ==> r[i] == txs[i].tx.hash
  {
    if txs == [] then [] else Hashes(txs[..|txs| - 1]) + [txs[|txs| - 1].tx.hash]
  }

  function OfNumber(txs: seq<RpcTx>, n: nat): seq<RpcTx> {
    if txs == [] then []
    else
      var rest := OfNumber(txs[..|txs| - 1], n);
      if txs[|txs| - 1].blockNumber == n then rest + [txs[|txs| - 1]] else rest
  }

  function TransactionsForBlock(s: Snapshot, n: nat): seq<RpcTx> {
    OfNumber(s.transactions, n)
  }

  function TxCount(fbs: seq<FlashBlock>): nat {
    if fbs == [] then 0 else TxCount(fbs[..|fbs| - 1]) + |fbs[|fbs| - 1].diff.transactions|
  }

  function PreviousFlashblocksTxCount(s: Snapshot): nat {
    if |s.flashblocks| <= 1 then 0 else TxCount(s.flashblocks[..|s.flashblocks| - 1])
  }

  function Skip<T>(s: seq<T>, n: nat): seq<T> {
    if n <= |s| then s[n..] else []
  }

  /** What a broadcast of this snapshot streams: the hashes its latest flashblock added. */
  function LatestHashes(s: Snapshot): seq<Hash> {
    Hashes(Skip(s.transactions, PreviousFlashblocksTxCount(s)))
  }
}
