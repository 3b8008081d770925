/** build_pending_state of processor.rs: a snapshot from a list of flashblocks, re-executed on
    the anchor or continued from a previous snapshot. */
module Rebuild {
  import opened Types
  import opened Assembler
  import opened Overlay
  import opened PendingBlocks

  /** The block environment the EVM runs in: everything it is derived from. */
  datatype BlockEnv = BlockEnv(parent: Header, base: Base, slot: Option<nat>)

  /** One slot a system call overwrites (EIP-2935 block hashes, EIP-4788 beacon roots). */
  datatype Write = Write(address: Address, slot: Word, value: Word)

  /** The executor's database: the bundle over the anchor, and the block hashes it was told. */
  datatype Db = Db(bundle: Bundle, blockHashes: map<nat, Word>)

  datatype Outcome = Outcome(success: bool, delta: Delta)

  /** Foreign code, each function deterministic and otherwise arbitrary. */
  datatype Rules = Rules(
    spec: Spec,
    recover: Tx -> Option<Address>,
    effectiveTip: (Tx, nat) -> Option<nat>,
    stateOf: Header -> World,
    envValid: BlockEnv -> bool,
    systemContracts: set<Address>,
    systemWrites: (World, BlockEnv) -> Option<seq<Write>>,
    transact: (World, Db, BlockEnv, Address, Tx) -> Option<Outcome>)

  /** System calls write only the storage of the system contracts, and no transaction writes
      that storage, creates or destroys those accounts (it may pay them). */
  ghost predicate SystemStorageReserved(rules: Rules, world: World) {
    && (forall env, w :: rules.systemWrites(world, env).Some? && w in rules.systemWrites(world, env).value
                        ==> w.address in rules.systemContracts)
    && (forall db, env, sender, tx, a ::
          rules.transact(world, db, env, sender, tx).Some?
          && a in rules.transact(world, db, env, sender, tx).value.delta.accounts
          && a in rules.systemContracts
          ==> LeavesStorage(rules.transact(world, db, env, sender, tx).value.delta.accounts[a]))
  }

  predicate LeavesStorage(d: AccountDelta) {
    d.Changed? && d.storage == map[]
  }

  // ---------------------------------------------------------------------------------------
  // Grouping by block number, in ascending order
  // ---------------------------------------------------------------------------------------

  function MinBlock(fbs: seq<FlashBlock>): (n: nat)
    requires fbs != []
    ensures forall fb :: fb in fbs ==> n <= fb.meta.blockNumber
    ensures exists fb :: fb in fbs && fb.meta.blockNumber == n
  {
    if |fbs| == 1 then fbs[0].meta.blockNumber
    else
      var m := MinBlock(fbs[1..]);
      assert forall fb :: fb in fbs ==> fb == fbs[0] || fb in fbs[1..];
      if fbs[0].meta.blockNumber <= m then fbs[0].meta.blockNumber else m
  }

  function OfBlock(fbs: seq<FlashBlock>, n: nat): seq<FlashBlock> {
    if fbs == [] then []
    else
      var rest := OfBlock(fbs[..|fbs| - 1], n);
      if fbs[|fbs| - 1].meta.blockNumber == n then rest + [fbs[|fbs| - 1]] else rest
  }

  function Above(fbs: seq<FlashBlock>, n: nat): (r: seq<FlashBlock>)
    ensures |r| <= |fbs|
  {
    if fbs == [] then []
    else
      var rest := Above(fbs[..|fbs| - 1], n);
      if fbs[|fbs| - 1].meta.blockNumber > n then rest + [fbs[|fbs| - 1]] else rest
  }

  lemma OfBlockMembers(fbs: seq<FlashBlock>, n: nat)
    ensures forall fb :: fb in OfBlock(fbs, n) <==> fb in fbs && fb.meta.blockNumber == n
  {
    if fbs != [] {
      OfBlockMembers(fbs[..|fbs| - 1], n);
      assert fbs == fbs[..|fbs| - 1] + [fbs[|fbs| - 1]];
    }
  }

  lemma AboveMembers(fbs: seq<FlashBlock>, n: nat)
    ensures forall fb :: fb in Above(fbs, n) <==> fb in fbs && fb.meta.blockNumber > n
  {
    if fbs != [] {
      AboveMembers(fbs[..|fbs| - 1], n);
      assert fbs == fbs[..|fbs| - 1] + [fbs[|fbs| - 1]];
    }
  }

  lemma AboveShrinks(fbs: seq<FlashBlock>, n: nat)
    requires exists fb :: fb in fbs && fb.meta.blockNumber <= n
    ensures |Above(fbs, n)| < |fbs|
  {
    if fbs[|fbs| - 1].meta.blockNumber > n {
      var fb :| fb in fbs && fb.meta.blockNumber <= n;
      assert fb in fbs[..|fbs| - 1];
      AboveShrinks(fbs[..|fbs| - 1], n);
    }
  }

  lemma GroupNotEmpty(fbs: seq<FlashBlock>)
    requires fbs != []
    ensures OfBlock(fbs, MinBlock(fbs)) != []
    ensures |Above(fbs, MinBlock(fbs))| < |fbs|
  {
    OfBlockMembers(fbs, MinBlock(fbs));
    AboveShrinks(fbs, MinBlock(fbs));
  }

  // ---------------------------------------------------------------------------------------
  // The plan: everything a build does, short of running it
  // ---------------------------------------------------------------------------------------

  /** One transaction's step: what to run, what outcome the producer reported, what to list. */
  datatype TxStep = TxStep(tx: Tx, sender: Address, env: BlockEnv, expected: bool,
                           rpc: RpcTx, receipt: RpcReceipt)

  datatype Script =
    | Finish
    | Abort(error: Error)
    | OpenBlock(group: seq<FlashBlock>, header: Header, parentNumber: nat, parentHash: Word, next: Script)
    | SystemCalls(writes: seq<Write>, next: Script)
    | Execute(step: TxStep, next: Script)
    | CloseBlock(balances: map<Address, Word>, next: Script)

  /** What the transactions of one block share. */
  datatype BlockContext = BlockContext(
    env: BlockEnv, header: Header, txs: seq<Tx>, senders: seq<Address>,
    receipts: map<Hash, Receipt>, balances: map<Address, Word>)

  function RpcLogs(logs: seq<LogData>, header: Header, hash: Hash, txIndex: nat, first: nat): (r: seq<RpcLog>)
    ensures |r| == |logs|
    ensures forall i :: 0 <= i < |r| ==>
      r[i] == RpcLog(logs[i], header.number, header.timestamp, hash, txIndex, first + i)
  {
    seq(|logs|, i requires 0 <= i < |logs| =>
      RpcLog(logs[i], header.number, header.timestamp, hash, txIndex, first + i))
  }

  function EffectiveGasPrice(rules: Rules, tx: Tx, baseFee: nat): nat {
    var tip := rules.effectiveTip(tx, baseFee);
    (if tip.Some? then tip.value else 0) + baseFee
  }

  function StepOf(rules: Rules, ctx: BlockContext, i: nat, gas: nat, firstLog: nat): TxStep
    requires i < |ctx.txs| == |ctx.senders|
    requires ctx.txs[i].hash in ctx.receipts
    requires gas <= ctx.receipts[ctx.txs[i].hash].cumulativeGas
  {
    var tx, sender := ctx.txs[i], ctx.senders[i];
    var receipt := ctx.receipts[tx.hash];
    TxStep(tx, sender, ctx.env, receipt.success,
           RpcTx(tx, sender, ctx.env.base.blockNumber, i,
                 EffectiveGasPrice(rules, tx, ctx.header.baseFee), ctx.env.base.timestamp),
           RpcReceipt(receipt.success, receipt.cumulativeGas, receipt.cumulativeGas - gas,
                      RpcLogs(receipt.logs, ctx.header, tx.hash, i, firstLog),
                      tx.hash, i, ctx.header.number))
  }

  function PlanTxs(rules: Rules, ctx: BlockContext, i: nat, gas: nat, firstLog: nat, next: Script): Script
    requires i <= |ctx.txs| == |ctx.senders|
    decreases |ctx.txs| - i
  {
    if i == |ctx.txs| then CloseBlock(ctx.balances, next)
    else
      var hash := ctx.txs[i].hash;
      if hash !in ctx.receipts then
        Abort(TransactionFailed(hash, ctx.senders[i], NoReceipt))
      else if ctx.receipts[hash].cumulativeGas < gas then
        Abort(TransactionFailed(hash, ctx.senders[i], GasDecreased))
      else
        Execute(StepOf(rules, ctx, i, gas, firstLog),
                PlanTxs(rules, ctx, i + 1, ctx.receipts[hash].cumulativeGas,
                        firstLog + |ctx.receipts[hash].logs|, next))
  }

  /** A known sender is reused; the rest are recovered, and one failure fails the block. */
  function Recover(rules: Rules, known: map<Hash, Address>, tx: Tx): Option<Address> {
    if tx.hash in known then Some(known[tx.hash]) else rules.recover(tx)
  }

  function RecoverSenders(rules: Rules, known: map<Hash, Address>, txs: seq<Tx>): (r: Option<seq<Address>>)
    ensures r.Some? ==> |r.value| == |txs|
    ensures r.Some? ==> forall i :: 0 <= i < |txs| ==> Recover(rules, known, txs[i]) == Some(r.value[i])
    ensures r.None? ==> exists i :: 0 <= i < |txs| && Recover(rules, known, txs[i]) == None
  {
    if txs == [] then Some([])
    else
      var rest := RecoverSenders(rules, known, txs[..|txs| - 1]);
      var last := Recover(rules, known, txs[|txs| - 1]);
      if rest.None? || last.None? then None else Some(rest.value + [last.value])
  }

  function PlanBody(rules: Rules, known: map<Hash, Address>, world: World, group: seq<FlashBlock>,
                    block: Block, env: BlockEnv, next: Script): Script
  {
    if !rules.envValid(env) then Abort(EvmEnv)
    else
      match rules.systemWrites(world, env)
      case None => Abort(EvmEnv)
      case Some(writes) =>
        SystemCalls(writes,
                    match RecoverSenders(rules, known, block.transactions)
                    case None => Abort(SenderRecovery)
                    case Some(senders) =>
                      PlanTxs(rules,
                              BlockContext(env, block.header, block.transactions, senders,
                                           MergedReceipts(group), MergedBalances(group)),
                              0, 0, 0, next))
  }

  function EnvOf(parent: Header, group: seq<FlashBlock>, block: Block): BlockEnv
    requires group != [] && group[0].base.Some?
  {
    BlockEnv(parent, group[0].base.value, block.header.slotNumber)
  }

  function PlanBlocks(rules: Rules, known: map<Hash, Address>, world: World, fbs: seq<FlashBlock>,
                      parent: Header): Script
    decreases |fbs|
  {
    if fbs == [] then Finish
    else
      var n := MinBlock(fbs);
      var group := OfBlock(fbs, n);
      GroupNotEmpty(fbs);
      match Assemble(rules.spec, group)
      case Err(e) => Abort(e)
      case Ok(block) =>
        var base := group[0].base.value;
        OpenBlock(group, block.header, base.blockNumber - 1, base.parentHash,
                  PlanBody(rules, known, world, group, block, EnvOf(parent, group, block),
                           PlanBlocks(rules, known, world, Above(fbs, n), block.header)))
  }

  // ---------------------------------------------------------------------------------------
  // Running a plan
  // ---------------------------------------------------------------------------------------

  /** A system call keeps the contract's account as it finds it and overwrites one slot. */
  function ApplyWrite(world: World, bundle: Bundle, w: Write): Bundle {
    var entry := if w.address in bundle.accounts then bundle.accounts[w.address]
                 else BundleAccount(world.account(w.address), map[], false);
    bundle.(accounts := bundle.accounts[w.address := entry.(storage := entry.storage[w.slot := w.value])])
  }

  function ApplyWrites(world: World, bundle: Bundle, ws: seq<Write>): Bundle {
    if ws == [] then bundle
    else ApplyWrite(world, ApplyWrites(world, bundle, ws[..|ws| - 1]), ws[|ws| - 1])
  }

  function ListStep(d: Draft, step: TxStep): Draft {
    var d := d.(senders := d.senders[step.tx.hash := step.sender]);
    var d := WithTransaction(d, step.rpc);
    d.(receipts := d.receipts[step.tx.hash := step.receipt])
  }

  datatype Progress = Progress(draft: Draft, db: Db)

  /** One transaction. `reused` holds the state changes of transactions a previous snapshot
      already executed: those are listed again but not run again. */
  function ExecuteStep(rules: Rules, world: World, reused: map<Hash, Delta>, step: TxStep, p: Progress)
    : Result<Progress, Error>
  {
    var hash := step.tx.hash;
    var d := ListStep(p.draft, step);
    if hash in reused then
      Ok(p.(draft := d.(states := d.states[hash := reused[hash]])))
    else
      match rules.transact(world, p.db, step.env, step.sender, step.tx)
      case None => Err(TransactionFailed(hash, step.sender, EvmRejected))
      case Some(o) =>
        if o.success != step.expected then Err(StatusMismatch(hash, step.expected))
        else Ok(Progress(d.(states := d.states[hash := o.delta]),
                         p.db.(bundle := Commit(p.db.bundle, o.delta))))
  }

  function OpenStep(group: seq<FlashBlock>, header: Header, parentNumber: nat, parentHash: Word, p: Progress)
    : Progress
  {
    Progress(p.draft.(flashblocks := p.draft.flashblocks + group, headers := p.draft.headers + [header]),
             p.db.(blockHashes := p.db.blockHashes[parentNumber := parentHash]))
  }

  function SystemStep(world: World, writes: seq<Write>, p: Progress): Progress {
    p.(db := p.db.(bundle := ApplyWrites(world, p.db.bundle, writes)))
  }

  function CloseStep(balances: map<Address, Word>, p: Progress): Progress {
    p.(draft := p.draft.(balances := p.draft.balances + balances))
  }

  function Run(rules: Rules, world: World, reused: map<Hash, Delta>, script: Script, p: Progress)
    : Result<Progress, Error>
    decreases script
  {
    match script
    case Finish => Ok(p)
    case Abort(e) => Err(e)
    case OpenBlock(group, header, parentNumber, parentHash, next) =>
      Run(rules, world, reused, next, OpenStep(group, header, parentNumber, parentHash, p))
    case SystemCalls(writes, next) =>
      Run(rules, world, reused, next, SystemStep(world, writes, p))
    case Execute(step, next) =>
      (match ExecuteStep(rules, world, reused, step, p)
       case Err(e) => Err(e)
       case Ok(p') => Run(rules, world, reused, next, p'))
    case CloseBlock(balances, next) =>
      Run(rules, world, reused, next, CloseStep(balances, p))
  }

  lemma UnfoldTx(rules: Rules, world: World, reused: map<Hash, Delta>, ctx: BlockContext, i: nat,
                 gas: nat, firstLog: nat, next: Script, p: Progress)
    requires i < |ctx.txs| == |ctx.senders|
    requires ctx.txs[i].hash in ctx.receipts
    requires gas <= ctx.receipts[ctx.txs[i].hash].cumulativeGas
    ensures var receipt := ctx.receipts[ctx.txs[i].hash];
            Run(rules, world, reused, PlanTxs(rules, ctx, i, gas, firstLog, next), p) ==
            var stepped := ExecuteStep(rules, world, reused, StepOf(rules, ctx, i, gas, firstLog), p);
            if stepped.Err? then stepped
            else
              Run(rules, world, reused,
                  PlanTxs(rules, ctx, i + 1, receipt.cumulativeGas, firstLog + |receipt.logs|, next),
                  stepped.value)
  {
  }

  lemma UnfoldBadTx(rules: Rules, world: World, reused: map<Hash, Delta>, ctx: BlockContext, i: nat,
                    gas: nat, firstLog: nat, next: Script, p: Progress)
    requires i < |ctx.txs| == |ctx.senders|
    requires ctx.txs[i].hash in ctx.receipts ==> ctx.receipts[ctx.txs[i].hash].cumulativeGas < gas
    ensures Run(rules, world, reused, PlanTxs(rules, ctx, i, gas, firstLog, next), p) ==
            Err(TransactionFailed(ctx.txs[i].hash, ctx.senders[i],
                                  if ctx.txs[i].hash in ctx.receipts then GasDecreased else NoReceipt))
  {
  }

  lemma PlanUnfolds(rules: Rules, known: map<Hash, Address>, world: World, fbs: seq<FlashBlock>, parent: Header)
    requires fbs != []
    ensures var group := OfBlock(fbs, MinBlock(fbs));
            PlanBlocks(rules, known, world, fbs, parent) ==
            var assembled := Assemble(rules.spec, group);
            if assembled.Err? then Abort(assembled.error)
            else
              var block, base := assembled.value, group[0].base.value;
              OpenBlock(group, block.header, base.blockNumber - 1, base.parentHash,
                        PlanBody(rules, known, world, group, block, EnvOf(parent, group, block),
                                 PlanBlocks(rules, known, world, Above(fbs, MinBlock(fbs)), block.header)))
  {
    hide Assemble, PlanBody, MinBlock, OfBlock, Above;
    GroupNotEmpty(fbs);
  }

  lemma UnfoldBlock(rules: Rules, known: map<Hash, Address>, world: World, reused: map<Hash, Delta>,
                    fbs: seq<FlashBlock>, parent: Header, p: Progress)
    requires fbs != []
    ensures var group := OfBlock(fbs, MinBlock(fbs));
            Run(rules, world, reused, PlanBlocks(rules, known, world, fbs, parent), p) ==
            var assembled := Assemble(rules.spec, group);
            if assembled.Err? then Err(assembled.error)
            else
              var block, base := assembled.value, group[0].base.value;
              Run(rules, world, reused,
                  PlanBody(rules, known, world, group, block, EnvOf(parent, group, block),
                           PlanBlocks(rules, known, world, Above(fbs, MinBlock(fbs)), block.header)),
                  OpenStep(group, block.header, base.blockNumber - 1, base.parentHash, p))
  {
    PlanUnfolds(rules, known, world, fbs, parent);
    var script := PlanBlocks(rules, known, world, fbs, parent);
    if script.OpenBlock? {
      RunOpens(rules, world, reused, script, p);
    } else {
      RunAborts(rules, world, reused, script, p);
    }
  }

  lemma RunOpens(rules: Rules, world: World, reused: map<Hash, Delta>, s: Script, p: Progress)
    requires s.OpenBlock?
    ensures Run(rules, world, reused, s, p) ==
            Run(rules, world, reused, s.next, OpenStep(s.group, s.header, s.parentNumber, s.parentHash, p))
  {
  }

  lemma RunAborts(rules: Rules, world: World, reused: map<Hash, Delta>, s: Script, p: Progress)
    requires s.Abort?
    ensures Run(rules, world, reused, s, p) == Err(s.error)
  {
  }

  lemma UnfoldBody(rules: Rules, known: map<Hash, Address>, world: World, reused: map<Hash, Delta>,
                   group: seq<FlashBlock>, block: Block, env: BlockEnv, next: Script, p: Progress)
    ensures Run(rules, world, reused, PlanBody(rules, known, world, group, block, env, next), p) ==
            if !rules.envValid(env) || rules.systemWrites(world, env).None? then Err(EvmEnv)
            else
              var senders := RecoverSenders(rules, known, block.transactions);
              if senders.None? then Err(SenderRecovery)
              else
                Run(rules, world, reused,
                    PlanTxs(rules,
                            BlockContext(env, block.header, block.transactions, senders.value,
                                         MergedReceipts(group), MergedBalances(group)),
                            0, 0, 0, next),
                    SystemStep(world, rules.systemWrites(world, env).value, p))
  {
  }

  function Start(prev: Option<Snapshot>): Progress {
    Progress(EMPTY_DRAFT, Db(if prev.Some? then prev.value.bundle else EMPTY_BUNDLE, map[]))
  }

  function Reused(prev: Option<Snapshot>): map<Hash, Delta> {
    if prev.Some? then prev.value.states else map[]
  }

  function KnownSenders(prev: Option<Snapshot>): map<Hash, Address> {
    if prev.Some? then prev.value.senders else map[]
  }

  function SealRun(r: Result<Progress, Error>, anchor: Header): Result<Snapshot, Error> {
    match r
    case Err(e) => Err(e)
    case Ok(p) => Seal(p.draft, p.db.bundle, anchor)
  }

  /** The build once its anchor is known. */
  function BuildOn(rules: Rules, anchor: Header, prev: Option<Snapshot>, fbs: seq<FlashBlock>)
    : Result<Snapshot, Error>
  {
    var world := rules.stateOf(anchor);
    SealRun(Run(rules, world, Reused(prev), PlanBlocks(rules, KnownSenders(prev), world, fbs, anchor), Start(prev)),
            anchor)
  }

  // ---------------------------------------------------------------------------------------
  // The node
  // ---------------------------------------------------------------------------------------

  datatype HeaderLookup = Found(header: Header) | Missing | Failed

  datatype Node = Node(tip: Option<nat>, header: nat -> HeaderLookup, stateOpens: nat -> bool)

  /** A header found under a number carries that number. */
  ghost predicate SoundNode(node: Node) {
    forall n :: node.header(n).Found? ==> node.header(n).header.number == n
  }

  function Build(rules: Rules, node: Node, prev: Option<Snapshot>, fbs: seq<FlashBlock>)
    : Result<Option<Snapshot>, Error>
  {
    if fbs == [] then Ok(None)
    else
      var n := MinBlock(fbs);
      if n == 0 then Err(GenesisFlashblock)
      else
        match node.header(n - 1)
        case Failed => Err(StateProvider)
        case Missing => Err(MissingCanonicalHeader(n - 1))
        case Found(anchor) =>
          if !node.stateOpens(n - 1) then Err(StateProvider)
          else
            match BuildOn(rules, anchor, prev, fbs)
            case Err(e) => Err(e)
            case Ok(s) => Ok(Some(s))
  }

  // ---------------------------------------------------------------------------------------
  // The build as the processor performs it
  // ---------------------------------------------------------------------------------------

  lemma MinBlockUnique(fbs: seq<FlashBlock>, n: nat)
    requires fbs != []
    requires exists fb :: fb in fbs && fb.meta.blockNumber == n
    requires forall fb :: fb in fbs ==> n <= fb.meta.blockNumber
    ensures n == MinBlock(fbs)
  {
  }

  /** What is left of a list's groups once every block up to `n` is taken. */
  lemma OfBlockAbove(fbs: seq<FlashBlock>, n: nat, k: nat)
    ensures OfBlock(Above(fbs, n), k) == if k > n then OfBlock(fbs, k) else []
  {
    if fbs != [] {
      OfBlockAbove(fbs[..|fbs| - 1], n, k);
      var init, last := Above(fbs[..|fbs| - 1], n), fbs[|fbs| - 1];
      assert (init + [last])[..|init|] == init;
    }
  }

  /** Groups flashblocks by block number. */
  method GroupByBlock(fbs: seq<FlashBlock>) returns (groups: map<nat, seq<FlashBlock>>)
    ensures IsGrouping(groups, fbs)
  {
    groups := map[];
    for i := 0 to |fbs|
      invariant IsGrouping(groups, fbs[..i])
    {
      var n := fbs[i].meta.blockNumber;
      var before := groups;
      groups := groups[n := (if n in groups then groups[n] else []) + [fbs[i]]];
      GroupingGrows(before, fbs[..i], fbs[i]);
      assert fbs[..i] + [fbs[i]] == fbs[..i + 1];
    }
    assert fbs[..|fbs|] == fbs;
  }

  ghost predicate IsGrouping(groups: map<nat, seq<FlashBlock>>, fbs: seq<FlashBlock>) {
    && (forall n :: n in groups <==> OfBlock(fbs, n) != [])
    && (forall n :: n in groups ==> groups[n] == OfBlock(fbs, n))
  }

  lemma GroupingGrows(groups: map<nat, seq<FlashBlock>>, fbs: seq<FlashBlock>, fb: FlashBlock)
    requires IsGrouping(groups, fbs)
    ensures var n := fb.meta.blockNumber;
            IsGrouping(groups[n := (if n in groups then groups[n] else []) + [fb]], fbs + [fb])
  {
    assert (fbs + [fb])[..|fbs|] == fbs;
  }

  lemma LeastGroup(groups: map<nat, seq<FlashBlock>>, fbs: seq<FlashBlock>, n: nat)
    requires IsGrouping(groups, fbs)
    requires n in groups && forall k :: k in groups ==> n <= k
    ensures fbs != [] && n == MinBlock(fbs)
  {
    OfBlockMembers(fbs, n);
    assert OfBlock(fbs, n)[0] in OfBlock(fbs, n);
    forall fb | fb in fbs
      ensures n <= fb.meta.blockNumber
    {
      OfBlockMembers(fbs, fb.meta.blockNumber);
    }
    MinBlockUnique(fbs, n);
  }

  lemma GroupingShrinks(groups: map<nat, seq<FlashBlock>>, fbs: seq<FlashBlock>, n: nat)
    requires IsGrouping(groups, fbs)
    requires n in groups && forall k :: k in groups ==> n <= k
    ensures IsGrouping(groups - {n}, Above(fbs, n))
  {
    hide OfBlock, Above;
    forall k: nat
      ensures OfBlock(Above(fbs, n), k) == if k > n then OfBlock(fbs, k) else []
    {
      OfBlockAbove(fbs, n, k);
    }
  }

  lemma GroupingEmpty(groups: map<nat, seq<FlashBlock>>, fbs: seq<FlashBlock>)
    requires IsGrouping(groups, fbs)
    ensures groups == map[] <==> fbs == []
    ensures fbs != [] ==> MinBlock(fbs) in groups && forall k :: k in groups ==> MinBlock(fbs) <= k
  {
    if fbs != [] {
      GroupNotEmpty(fbs);
      forall k | k in groups
        ensures MinBlock(fbs) <= k
      {
        OfBlockMembers(fbs, k);
        assert OfBlock(fbs, k)[0] in OfBlock(fbs, k);
      }
    }
  }

  method BuildPendingState(rules: Rules, node: Node, prev: Option<Snapshot>, fbs: seq<FlashBlock>)
    returns (r: Result<Option<Snapshot>, Error>)
    ensures r == Build(rules, node, prev, fbs)
  {
    hide BuildOn;
    var groups := GroupByBlock(fbs);
    GroupingEmpty(groups, fbs);
    if groups == map[] {
      return Ok(None);
    }
    var earliest :| earliest in groups && forall n :: n in groups ==> earliest <= n;
    assert earliest == MinBlock(fbs);
    if earliest == 0 {
      return Err(GenesisFlashblock);
    }
    var lookup := node.header(earliest - 1);
    match lookup {
      case Failed => return Err(StateProvider);
      case Missing => return Err(MissingCanonicalHeader(earliest - 1));
      case Found(_) =>
    }
    if !node.stateOpens(earliest - 1) {
      return Err(StateProvider);
    }
    var built := BuildGroups(rules, lookup.header, prev, groups, fbs);
    match built {
      case Err(e) => r := Err(e);
      case Ok(s) => r := Ok(Some(s));
    }
  }

  /** Runs the groups in ascending block order on the anchor's state. */
  method BuildGroups(rules: Rules, anchor: Header, prev: Option<Snapshot>,
                     groups: map<nat, seq<FlashBlock>>, ghost fbs: seq<FlashBlock>)
    returns (r: Result<Snapshot, Error>)
    requires IsGrouping(groups, fbs)
    ensures r == BuildOn(rules, anchor, prev, fbs)
  {
    var world := rules.stateOf(anchor);
    var remaining, parent := groups, anchor;
    ghost var rest := fbs;
    var builder := new Builder();
    var db := Start(prev).db;
    ghost var total := Run(rules, world, Reused(prev), PlanBlocks(rules, KnownSenders(prev), world, fbs, anchor),
                           Start(prev));
    while remaining != map[]
      invariant fresh(builder)
      invariant IsGrouping(remaining, rest)
      invariant Run(rules, world, Reused(prev), PlanBlocks(rules, KnownSenders(prev), world, rest, parent),
                    Progress(builder.Contents(), db)) == total
      decreases |remaining|
    {
      GroupingEmpty(remaining, rest);
      var n :| n in remaining && forall k :: k in remaining ==> n <= k;
      var group := remaining[n];
      LeastGroup(remaining, rest, n);
      GroupingShrinks(remaining, rest, n);
      remaining := remaining - {n};
      var failure, header;
      failure, db, header := ExecuteGroup(rules, world, prev, group, parent, builder, db, rest, total);
      if failure.Some? {
        return Err(failure.value);
      }
      rest := Above(rest, n);
      parent := header;
    }
    GroupingEmpty(remaining, rest);
    r := builder.Build(db.bundle, anchor);
  }

  /** Assembles and runs one block: the first of `fbs`, on top of `parent`. `total` is what the
      whole build amounts to. */
  method ExecuteGroup(rules: Rules, world: World, prev: Option<Snapshot>, group: seq<FlashBlock>,
                      parent: Header, builder: Builder, before: Db,
                      ghost fbs: seq<FlashBlock>, ghost total: Result<Progress, Error>)
    returns (failure: Option<Error>, db: Db, header: Header)
    requires fbs != [] && group == OfBlock(fbs, MinBlock(fbs))
    requires Run(rules, world, Reused(prev), PlanBlocks(rules, KnownSenders(prev), world, fbs, parent),
                 Progress(builder.Contents(), before)) == total
    modifies builder
    ensures failure.Some? ==> total == Err(failure.value)
    ensures failure.None? ==>
              Run(rules, world, Reused(prev),
                  PlanBlocks(rules, KnownSenders(prev), world, Above(fbs, MinBlock(fbs)), header),
                  Progress(builder.Contents(), db)) == total
  {
    hide Run, PlanBlocks, PlanBody, PlanTxs, RecoverSenders, OfBlock, Above, ApplyWrites, MinBlock;
    hide Assemble, MergedReceipts, MergedBalances;
    failure, db, header := None, before, parent;
    UnfoldBlock(rules, KnownSenders(prev), world, Reused(prev), fbs, parent, Progress(builder.Contents(), before));
    var assembled := Assemble(rules.spec, group);
    if assembled.Err? {
      return Some(assembled.error), db, header;
    }
    var block := assembled.value;
    var base := group[0].base.value;
    header := block.header;
    builder.AddFlashblocks(group);
    builder.AddHeader(header);
    db := db.(blockHashes := db.blockHashes[base.blockNumber - 1 := base.parentHash]);
    var env := EnvOf(parent, group, block);
    UnfoldBody(rules, KnownSenders(prev), world, Reused(prev), group, block, env,
               PlanBlocks(rules, KnownSenders(prev), world, Above(fbs, MinBlock(fbs)), header),
               Progress(builder.Contents(), db));
    if !rules.envValid(env) {
      return Some(EvmEnv), db, header;
    }
    var writes := rules.systemWrites(world, env);
    if writes.None? {
      return Some(EvmEnv), db, header;
    }
    db := db.(bundle := ApplyWrites(world, db.bundle, writes.value));
    var senders := RecoverSenders(rules, KnownSenders(prev), block.transactions);
    if senders.None? {
      return Some(SenderRecovery), db, header;
    }
    var ctx := BlockContext(env, header, block.transactions, senders.value,
                            MergedReceipts(group), MergedBalances(group));
    failure, db := ExecuteTransactions(
      rules, world, prev, ctx, builder, db,
      PlanBlocks(rules, KnownSenders(prev), world, Above(fbs, MinBlock(fbs)), header), total);
  }

  lemma SenderListedOnce(rules: Rules, world: World, reused: map<Hash, Delta>, step: TxStep, p: Progress)
    ensures var listed := p.(draft := p.draft.(senders := p.draft.senders[step.tx.hash := step.sender]));
            ExecuteStep(rules, world, reused, step, listed) == ExecuteStep(rules, world, reused, step, p)
  {
    var once := p.draft.senders[step.tx.hash := step.sender];
    assert once[step.tx.hash := step.sender] == once;
  }

  /** The transaction loop of one block. `next` is what the build does after the block. */
  method ExecuteTransactions(rules: Rules, world: World, prev: Option<Snapshot>, ctx: BlockContext,
                             builder: Builder, before: Db,
                             ghost next: Script, ghost total: Result<Progress, Error>)
    returns (failure: Option<Error>, db: Db)
    requires |ctx.txs| == |ctx.senders|
    requires Run(rules, world, Reused(prev), PlanTxs(rules, ctx, 0, 0, 0, next),
                 Progress(builder.Contents(), before)) == total
    modifies builder
    ensures failure.Some? ==> total == Err(failure.value)
    ensures failure.None? ==>
              Run(rules, world, Reused(prev), next, Progress(builder.Contents(), db)) == total
  {
    failure, db := None, before;
    var gasUsed: nat, nextLogIndex: nat := 0, 0;
    for i := 0 to |ctx.txs|
      invariant failure.None?
      invariant Run(rules, world, Reused(prev), PlanTxs(rules, ctx, i, gasUsed, nextLogIndex, next),
                    Progress(builder.Contents(), db)) == total
    {
      failure, db, gasUsed, nextLogIndex :=
        ExecuteAt(rules, world, prev, ctx, i, gasUsed, nextLogIndex, builder, db, next, total);
      if failure.Some? {
        return;
      }
    }
    builder.AddBalances(ctx.balances);
  }

  /** The loop's body for transaction `i`. */
  method ExecuteAt(rules: Rules, world: World, prev: Option<Snapshot>, ctx: BlockContext, i: nat,
                   gasUsed: nat, nextLogIndex: nat, builder: Builder, before: Db,
                   ghost next: Script, ghost total: Result<Progress, Error>)
    returns (failure: Option<Error>, db: Db, gasUsed': nat, nextLogIndex': nat)
    requires i < |ctx.txs| == |ctx.senders|
    requires Run(rules, world, Reused(prev), PlanTxs(rules, ctx, i, gasUsed, nextLogIndex, next),
                 Progress(builder.Contents(), before)) == total
    modifies builder
    ensures failure.Some? ==> total == Err(failure.value)
    ensures failure.None? ==>
              Run(rules, world, Reused(prev), PlanTxs(rules, ctx, i + 1, gasUsed', nextLogIndex', next),
                  Progress(builder.Contents(), db)) == total
  {
    hide Run, PlanTxs, ExecuteStep, RpcLogs, EffectiveGasPrice;
    db, gasUsed', nextLogIndex' := before, gasUsed, nextLogIndex;
    var tx, sender := ctx.txs[i], ctx.senders[i];
    ghost var p := Progress(builder.Contents(), before);
    builder.AddSender(tx.hash, sender);
    if tx.hash !in ctx.receipts {
      UnfoldBadTx(rules, world, Reused(prev), ctx, i, gasUsed, nextLogIndex, next, p);
      return Some(TransactionFailed(tx.hash, sender, NoReceipt)), db, gasUsed', nextLogIndex';
    }
    var receipt := ctx.receipts[tx.hash];
    if receipt.cumulativeGas < gasUsed {
      UnfoldBadTx(rules, world, Reused(prev), ctx, i, gasUsed, nextLogIndex, next, p);
      return Some(TransactionFailed(tx.hash, sender, GasDecreased)), db, gasUsed', nextLogIndex';
    }
    var step := StepOf(rules, ctx, i, gasUsed, nextLogIndex);
    SenderListedOnce(rules, world, Reused(prev), step, p);
    UnfoldTx(rules, world, Reused(prev), ctx, i, gasUsed, nextLogIndex, next, p);
    gasUsed', nextLogIndex' := receipt.cumulativeGas, nextLogIndex + |receipt.logs|;
    failure, db := ExecuteTransaction(rules, world, prev, step, builder, before);
  }

  /** Lists one transaction whose sender the builder already holds, and runs it unless the
      previous snapshot did. */
  method ExecuteTransaction(rules: Rules, world: World, prev: Option<Snapshot>, step: TxStep,
                            builder: Builder, before: Db)
    returns (failure: Option<Error>, db: Db)
    requires step.tx.hash in builder.senders && builder.senders[step.tx.hash] == step.sender
    modifies builder
    ensures ExecuteStep(rules, world, Reused(prev), step, Progress(old(builder.Contents()), before)) ==
            if failure.Some? then Err(failure.value) else Ok(Progress(builder.Contents(), db))
  {
    failure, db := None, before;
    var hash := step.tx.hash;
    assert builder.senders[hash := step.sender] == builder.senders;
    builder.AddTransaction(step.rpc);
    builder.AddReceipt(hash, step.receipt);
    if prev.Some? && hash in prev.value.states {
      builder.AddState(hash, prev.value.states[hash]);
    } else {
      var executed := rules.transact(world, db, step.env, step.sender, step.tx);
      if executed.None? {
        return Some(TransactionFailed(hash, step.sender, EvmRejected)), db;
      }
      if executed.value.success != step.expected {
        return Some(StatusMismatch(hash, step.expected)), db;
      }
      builder.AddState(hash, executed.value.delta);
      db := db.(bundle := Commit(db.bundle, executed.value.delta));
    }
  }
}
