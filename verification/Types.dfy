/** Values shared by every component: the wire payload a producer sends, the errors the
    processor reports, and the foreign code (EVM, codecs, hashing) as uninterpreted functions. */
module Types {

  datatype Option<+T> = None | Some(value: T)

  datatype Result<+T, +E> = Ok(value: T) | Err(error: E)

  newtype byte = x: int | 0 <= x < 256

  type Bytes = seq<byte>
  type Word = nat
  type Address = nat
  type Hash = nat

  /** A decoded transaction. Its hash identifies it: every property of a transaction is a
      function of this value. */
  datatype Tx = Tx(hash: Hash)

  datatype Withdrawal = Withdrawal(index: nat, validator: nat, address: Address, amount: nat)

  datatype LogData = LogData(address: Address, topics: seq<Word>, data: Bytes)

  /** The producer's receipt, as it travels beside the transactions. */
  datatype Receipt = Receipt(success: bool, cumulativeGas: nat, logs: seq<LogData>)

  /** Header fields fixed when the producer opens a block. */
  datatype Base = Base(
    parentBeaconRoot: Word,
    parentHash: Word,
    feeRecipient: Address,
    prevRandao: Word,
    blockNumber: nat,
    gasLimit: nat,
    timestamp: nat,
    extraData: Bytes,
    baseFee: nat,
    slotNumber: Option<nat>)

  /** What one flashblock adds: `transactions` is an increment, every other field is cumulative. */
  datatype Diff = Diff(
    stateRoot: Word,
    receiptsRoot: Word,
    logsBloom: Word,
    gasUsed: nat,
    blockHash: Word,
    transactions: seq<Bytes>,
    withdrawals: seq<Withdrawal>,
    blobGasUsed: nat,
    excessBlobGas: nat,
    requests: Option<seq<Bytes>>)

  datatype Metadata = Metadata(
    blockNumber: nat,
    balances: map<Address, Word>,
    receipts: map<Hash, Receipt>)

  datatype FlashBlock = FlashBlock(
    payloadId: nat,
    index: nat,
    base: Option<Base>,
    diff: Diff,
    meta: Metadata)

  /** The base payload names the block the metadata names. The processor relies on this and
      never checks it. */
  predicate WellNumbered(fb: FlashBlock) {
    fb.base.Some? ==> fb.base.value.blockNumber == fb.meta.blockNumber
  }

  datatype Header = Header(
    parentHash: Word,
    beneficiary: Address,
    stateRoot: Word,
    transactionsRoot: Word,
    receiptsRoot: Word,
    withdrawalsRoot: Word,
    logsBloom: Word,
    number: nat,
    gasLimit: nat,
    gasUsed: nat,
    timestamp: nat,
    mixHash: Word,
    extraData: Bytes,
    baseFee: nat,
    blobGasUsed: nat,
    excessBlobGas: nat,
    parentBeaconRoot: Option<Word>,
    requestsHash: Option<Word>,
    slotNumber: Option<nat>)

  datatype FailReason = NoReceipt | GasDecreased | EvmRejected

  datatype Error =
    | EmptyFlashblocks
    | MissingBase
    | GenesisFlashblock
    | MissingSlotNumber(block: nat)
    | MissingCanonicalHeader(block: nat)
    | StateProvider
    | TransactionFailed(failed: Hash, sender: Address, reason: FailReason)
    | MissingReceipt(lacking: Hash)
    | StatusMismatch(hash: Hash, producerSuccess: bool)
    | SenderRecovery
    | EvmEnv
    | BlockConversion
    | MissingHeaders
    | NoFlashblocks
    | DuplicateTransaction(repeated: Hash)
    | MissingFirstFlashblock

  /** The rules of the chain a block is assembled under. */
  datatype Spec = Spec(
    decode: Bytes -> Option<Tx>,
    convertible: Base -> bool,
    pragueAt: nat -> bool,
    amsterdamAt: nat -> bool,
    transactionsRoot: seq<Tx> -> Word,
    withdrawalsRoot: seq<Withdrawal> -> Word,
    requestsHash: seq<Bytes> -> Word,
    parseDeposits: seq<Receipt> -> Option<Bytes>)

  lemma Regroup<T>(a: seq<T>, b: seq<T>, c: seq<T>)
    ensures a + b + c == a + (b + c)
  {
  }
}
