/** What a built snapshot serves, traced to the flashblocks that say it: receipts, senders, prices,
    headers and balances; and the context each transaction was executed in. */
module Served {
  import opened Types
  import opened Assembler
  import opened Overlay
  import opened PendingBlocks
  import opened Rebuild
  import opened Refinement
  import opened Ordering
  import opened Story
  import opened Sequence

  // ---------------------------------------------------------------------------------------
  // The last word of the producer
  // ---------------------------------------------------------------------------------------

  /** The receipt last sent for a hash among the flashblocks of one block. */
  function LastReceipt(fbs: seq<FlashBlock>, n: nat, h: Hash): Option<Receipt> {
    if fbs == [] then None
    else
      var last := fbs[|fbs| - 1];
      if last.meta.blockNumber == n && h in last.meta.receipts then Some(last.meta.receipts[h])
      else LastReceipt(fbs[..|fbs| - 1], n, h)
  }

  /** The balance last sent for an address. */
  function LastBalance(fbs: seq<FlashBlock>, a: Address): Option<Word> {
    if fbs == [] then None
    else
      var last := fbs[|fbs| - 1];
      if a in last.meta.balances then Some(last.meta.balances[a]) else LastBalance(fbs[..|fbs| - 1], a)
  }

  lemma {:induction false} ReceiptsAppend(a: seq<FlashBlock>, b: seq<FlashBlock>)
    ensures MergedReceipts(a + b) == MergedReceipts(a) + MergedReceipts(b)
  {
    if a == [] {
      assert a + b == b;
    } else {
      assert (a + b)[1..] == a[1..] + b;
      ReceiptsAppend(a[1..], b);
    }
  }

  lemma {:induction false} BalancesAppend(a: seq<FlashBlock>, b: seq<FlashBlock>)
    ensures MergedBalances(a + b) == MergedBalances(a) + MergedBalances(b)
  {
    if a == [] {
      assert a + b == b;
    } else {
      assert (a + b)[1..] == a[1..] + b;
      BalancesAppend(a[1..], b);
    }
  }

  lemma ReceiptsOfOne(fb: FlashBlock)
    ensures MergedReceipts([fb]) == fb.meta.receipts
  {
    Singleton(fb);
  }

  lemma BalancesOfOne(fb: FlashBlock)
    ensures MergedBalances([fb]) == fb.meta.balances
  {
    assert MergedBalances([fb][1..]) == map[];
  }

  lemma MergedAppend(fbs: seq<FlashBlock>, fb: FlashBlock)
    ensures MergedReceipts(fbs + [fb]) == MergedReceipts(fbs) + fb.meta.receipts
    ensures MergedBalances(fbs + [fb]) == MergedBalances(fbs) + fb.meta.balances
  {
    hide MergedReceipts, MergedBalances;
    ReceiptsAppend(fbs, [fb]);
    BalancesAppend(fbs, [fb]);
    ReceiptsOfOne(fb);
    BalancesOfOne(fb);
  }

  lemma {:induction false} MergedIsLast(fbs: seq<FlashBlock>, n: nat, h: Hash)
    ensures var merged := MergedReceipts(OfBlock(fbs, n));
            LastReceipt(fbs, n, h) == if h in merged then Some(merged[h]) else None
  {
    hide MergedReceipts;
    if fbs == [] {
      assert MergedReceipts([]) == map[] by { NothingMerged(); }
    } else {
      MergedIsLast(fbs[..|fbs| - 1], n, h);
      MergedAppend(OfBlock(fbs[..|fbs| - 1], n), fbs[|fbs| - 1]);
    }
  }

  lemma NothingMerged()
    ensures MergedReceipts([]) == map[] && MergedBalances([]) == map[]
  {
  }

  lemma {:induction false} BalanceIsLast(fbs: seq<FlashBlock>, a: Address)
    ensures var merged := MergedBalances(fbs);
            LastBalance(fbs, a) == if a in merged then Some(merged[a]) else None
  {
    hide MergedBalances;
    if fbs == [] {
      NothingMerged();
    } else {
      var init := fbs[..|fbs| - 1];
      BalanceIsLast(init, a);
      MergedAppend(init, fbs[|fbs| - 1]);
      assert fbs == init + [fbs[|fbs| - 1]];
    }
  }

  // ---------------------------------------------------------------------------------------
  // What is served for a transaction
  // ---------------------------------------------------------------------------------------

  /** The producer's receipt, under the transaction's own block, index and hash. */
  predicate ServedReceipt(x: RpcReceipt, r: Receipt, t: RpcTx, timestamp: nat) {
    && x.success == r.success && x.cumulativeGas == r.cumulativeGas
    && x.txHash == t.tx.hash && x.txIndex == t.index && x.blockNumber == t.blockNumber
    && |x.logs| == |r.logs|
    && forall k :: 0 <= k < |x.logs| ==>
         && x.logs[k].data == r.logs[k] && x.logs[k].timestamp == timestamp
         && x.logs[k].blockNumber == t.blockNumber && x.logs[k].txHash == t.tx.hash && x.logs[k].txIndex == t.index
  }

  /** The block's opening base. */
  function BaseOf(fbs: seq<FlashBlock>, n: nat): Option<Base> {
    var group := OfBlock(fbs, n);
    if group == [] then None else group[0].base
  }

  ghost predicate TxServed(rules: Rules, fbs: seq<FlashBlock>, t: RpcTx, x: RpcReceipt) {
    var base, last := BaseOf(fbs, t.blockNumber), LastReceipt(fbs, t.blockNumber, t.tx.hash);
    && base.Some? && last.Some?
    && ServedReceipt(x, last.value, t, base.value.timestamp)
    && rules.recover(t.tx) == Some(t.sender)
    && t.timestamp == base.value.timestamp
    && (var tip := rules.effectiveTip(t.tx, base.value.baseFee);
        t.effectiveGasPrice == base.value.baseFee + (if tip.Some? then tip.value else 0))
  }

  // ---------------------------------------------------------------------------------------
  // The context a transaction runs in
  // ---------------------------------------------------------------------------------------

  /** The header a block is executed on: the block before it, as assembled, or the anchor. */
  function ParentOf(spec: Spec, anchor: Header, fbs: seq<FlashBlock>, n: nat): Option<Header> {
    if n == 0 || OfBlock(fbs, n - 1) == [] then Some(anchor)
    else if Assemble(spec, OfBlock(fbs, n - 1)).Err? then None
    else Some(Assemble(spec, OfBlock(fbs, n - 1)).value.header)
  }

  predicate InContext(spec: Spec, anchor: Header, fbs: seq<FlashBlock>, n: nat, env: BlockEnv) {
    && BaseOf(fbs, n) == Some(env.base)
    && ParentOf(spec, anchor, fbs, n) == Some(env.parent)
    && env.slot == if spec.amsterdamAt(env.base.timestamp) then env.base.slotNumber else None
  }

  ghost predicate IsAssembled(spec: Spec, fbs: seq<FlashBlock>, header: Header) {
    var group := OfBlock(fbs, header.number);
    group != [] && Assemble(spec, group).Ok? && Assemble(spec, group).value.header == header
  }

  /** Between blocks, in one just opened, or in one whose system calls are made. */
  datatype Phase = Between | Opened(n: nat) | Called(n: nat)

  /** A plan that, for each block in turn, lists its own flashblocks and its assembled header,
      announces its parent's hash, makes the system calls in its own context, runs its
      transactions there, and merges its balances. */
  ghost predicate WellPlanned(rules: Rules, world: World, anchor: Header, fbs: seq<FlashBlock>, script: Script, ph: Phase)
    decreases script
  {
    match script
    case Finish => ph.Between?
    case Abort(_) => true
    case OpenBlock(group, header, parentNumber, parentHash, next) =>
      && ph.Between? && header.number == parentNumber + 1
      && group == OfBlock(fbs, header.number) && IsAssembled(rules.spec, fbs, header)
      && BaseOf(fbs, header.number).Some? && parentHash == BaseOf(fbs, header.number).value.parentHash
      && WellPlanned(rules, world, anchor, fbs, next, Opened(header.number))
    case SystemCalls(writes, next) =>
      && ph.Opened?
      && (exists env :: InContext(rules.spec, anchor, fbs, ph.n, env)
                        && rules.envValid(env) && rules.systemWrites(world, env) == Some(writes))
      && WellPlanned(rules, world, anchor, fbs, next, Called(ph.n))
    case Execute(step, next) =>
      && ph.Called? && step.rpc.blockNumber == ph.n && step.rpc.tx == step.tx && step.rpc.sender == step.sender
      && InContext(rules.spec, anchor, fbs, ph.n, step.env)
      && TxServed(rules, fbs, step.rpc, step.receipt) && step.expected == step.receipt.success
      && WellPlanned(rules, world, anchor, fbs, next, ph)
    case CloseBlock(balances, next) =>
      && ph.Called? && balances == MergedBalances(OfBlock(fbs, ph.n)) && OfBlock(fbs, ph.n) != []
      && WellPlanned(rules, world, anchor, fbs, next, Between)
  }

  // ---------------------------------------------------------------------------------------
  // Plans are well planned
  // ---------------------------------------------------------------------------------------

  /** A block of one list, seen in another. */
  ghost predicate SameBlock(spec: Spec, a: Header, f: seq<FlashBlock>, b: Header, g: seq<FlashBlock>, n: nat) {
    && OfBlock(f, n) == OfBlock(g, n) && ParentOf(spec, a, f, n) == ParentOf(spec, b, g, n)
    && forall h :: LastReceipt(f, n, h) == LastReceipt(g, n, h)
  }

  lemma {:induction false} PlanLifts(rules: Rules, world: World, a: Header, f: seq<FlashBlock>,
                                     b: Header, g: seq<FlashBlock>, script: Script, ph: Phase)
    requires WellPlanned(rules, world, a, f, script, ph)
    requires forall n :: OfBlock(f, n) != [] ==> SameBlock(rules.spec, a, f, b, g, n)
    ensures WellPlanned(rules, world, b, g, script, ph)
    decreases script
  {
    hide OfBlock, LastReceipt, ServedReceipt, ParentOf, Assemble;
    match script
    case Finish =>
    case Abort(_) =>
    case OpenBlock(group, header, parentNumber, parentHash, next) =>
      PlanLifts(rules, world, a, f, b, g, next, Opened(header.number));
    case SystemCalls(writes, next) =>
      var env :| InContext(rules.spec, a, f, ph.n, env) && rules.envValid(env) && rules.systemWrites(world, env) == Some(writes);
      assert SameBlock(rules.spec, a, f, b, g, ph.n);
      assert InContext(rules.spec, b, g, ph.n, env);
      PlanLifts(rules, world, a, f, b, g, next, Called(ph.n));
    case Execute(step, next) =>
      assert SameBlock(rules.spec, a, f, b, g, ph.n);
      PlanLifts(rules, world, a, f, b, g, next, ph);
    case CloseBlock(balances, next) =>
      PlanLifts(rules, world, a, f, b, g, next, Between);
  }

  /** What the planner knows of a block when it plans its transactions. */
  ghost predicate Prepared(rules: Rules, anchor: Header, fbs: seq<FlashBlock>, ctx: BlockContext, n: nat) {
    && |ctx.txs| == |ctx.senders| && OfBlock(fbs, n) != []
    && (forall i :: 0 <= i < |ctx.txs| ==> rules.recover(ctx.txs[i]) == Some(ctx.senders[i]))
    && InContext(rules.spec, anchor, fbs, n, ctx.env) && ctx.env.base.blockNumber == n
    && ctx.header.number == n && ctx.header.timestamp == ctx.env.base.timestamp && ctx.header.baseFee == ctx.env.base.baseFee
    && ctx.receipts == MergedReceipts(OfBlock(fbs, n)) && ctx.balances == MergedBalances(OfBlock(fbs, n))
  }

  lemma StepServed(rules: Rules, anchor: Header, fbs: seq<FlashBlock>, ctx: BlockContext, n: nat,
                   i: nat, gas: nat, firstLog: nat)
    requires Prepared(rules, anchor, fbs, ctx, n)
    requires i < |ctx.txs| && ctx.txs[i].hash in ctx.receipts && gas <= ctx.receipts[ctx.txs[i].hash].cumulativeGas
    ensures var step := StepOf(rules, ctx, i, gas, firstLog);
            && TxServed(rules, fbs, step.rpc, step.receipt) && step.expected == step.receipt.success
            && step.rpc.blockNumber == n && step.rpc.tx == step.tx && step.rpc.sender == step.sender && step.env == ctx.env
  {
    hide LastReceipt, MergedReceipts, OfBlock, ParentOf;
    MergedIsLast(fbs, n, ctx.txs[i].hash);
  }

  lemma {:induction false} TxsPlanned(rules: Rules, world: World, anchor: Header, fbs: seq<FlashBlock>, ctx: BlockContext,
                                      n: nat, i: nat, gas: nat, firstLog: nat, next: Script)
    requires Prepared(rules, anchor, fbs, ctx, n) && i <= |ctx.txs|
    requires WellPlanned(rules, world, anchor, fbs, next, Between)
    ensures WellPlanned(rules, world, anchor, fbs, PlanTxs(rules, ctx, i, gas, firstLog, next), Called(n))
    decreases |ctx.txs| - i
  {
    hide OfBlock, TxServed, StepOf, MergedReceipts, MergedBalances, InContext;
    if i < |ctx.txs| && ctx.txs[i].hash in ctx.receipts && gas <= ctx.receipts[ctx.txs[i].hash].cumulativeGas {
      var receipt := ctx.receipts[ctx.txs[i].hash];
      StepServed(rules, anchor, fbs, ctx, n, i, gas, firstLog);
      TxsPlanned(rules, world, anchor, fbs, ctx, n, i + 1, receipt.cumulativeGas, firstLog + |receipt.logs|, next);
    }
  }

  lemma BodyPlanned(rules: Rules, known: map<Hash, Address>, world: World, anchor: Header, fbs: seq<FlashBlock>,
                    group: seq<FlashBlock>, block: Block, n: nat, parent: Header, next: Script)
    requires ParentOf(rules.spec, anchor, fbs, n) == Some(parent)
    requires SoundSenders(rules, known) && group == OfBlock(fbs, n) && group != []
    requires Assemble(rules.spec, group) == Ok(block) && group[0].base.value.blockNumber == n
    requires WellPlanned(rules, world, anchor, fbs, next, Between)
    ensures WellPlanned(rules, world, anchor, fbs,
                        PlanBody(rules, known, world, group, block, EnvOf(parent, group, block), next),
                        Opened(n))
  {
    hide OfBlock, PlanTxs, Assemble, MergedReceipts, MergedBalances, ParentOf, InContext, Prepared, SoundSenders, Recover;
    hide WellPlanned;
    var env := EnvOf(parent, group, block);
    var senders := RecoverSenders(rules, known, block.transactions);
    EnvInContext(rules, anchor, fbs, group, block, n, parent);
    if senders.Some? {
      var ctx := BlockContext(env, block.header, block.transactions, senders.value, MergedReceipts(group), MergedBalances(group));
      RecoveredSoundly(rules, known, ctx);
      ContextPrepared(rules, anchor, fbs, group, block, n, parent, ctx);
      TxsPlanned(rules, world, anchor, fbs, ctx, n, 0, 0, 0, next);
      CallsWellPlanned(rules, world, anchor, fbs, env, n, PlanTxs(rules, ctx, 0, 0, 0, next));
    } else {
      AbortIsWellPlanned(rules, world, anchor, fbs, SenderRecovery, Called(n));
      CallsWellPlanned(rules, world, anchor, fbs, env, n, Abort(SenderRecovery));
    }
    AbortIsWellPlanned(rules, world, anchor, fbs, EvmEnv, Opened(n));
  }

  lemma CallsWellPlanned(rules: Rules, world: World, anchor: Header, fbs: seq<FlashBlock>, env: BlockEnv, n: nat, next: Script)
    requires InContext(rules.spec, anchor, fbs, n, env)
    requires WellPlanned(rules, world, anchor, fbs, next, Called(n))
    ensures rules.envValid(env) && rules.systemWrites(world, env).Some? ==>
              WellPlanned(rules, world, anchor, fbs, SystemCalls(rules.systemWrites(world, env).value, next), Opened(n))
  {
    hide InContext, OfBlock, TxServed, IsAssembled;
  }

  lemma EnvInContext(rules: Rules, anchor: Header, fbs: seq<FlashBlock>, group: seq<FlashBlock>, block: Block, n: nat, parent: Header)
    requires ParentOf(rules.spec, anchor, fbs, n) == Some(parent)
    requires group == OfBlock(fbs, n) && group != [] && Assemble(rules.spec, group) == Ok(block)
    ensures InContext(rules.spec, anchor, fbs, n, EnvOf(parent, group, block))
  {
    hide OfBlock, Assemble, ParentOf;
    AssembledFields(rules.spec, group);
  }

  lemma ContextPrepared(rules: Rules, anchor: Header, fbs: seq<FlashBlock>, group: seq<FlashBlock>, block: Block, n: nat,
                        parent: Header, ctx: BlockContext)
    requires group == OfBlock(fbs, n) && group != [] && Assemble(rules.spec, group) == Ok(block)
    requires group[0].base.value.blockNumber == n
    requires ctx.env == EnvOf(parent, group, block) && InContext(rules.spec, anchor, fbs, n, ctx.env)
    requires ctx.header == block.header && ctx.txs == block.transactions && |ctx.senders| == |ctx.txs|
    requires ctx.receipts == MergedReceipts(group) && ctx.balances == MergedBalances(group)
    requires forall i :: 0 <= i < |ctx.txs| ==> rules.recover(ctx.txs[i]) == Some(ctx.senders[i])
    ensures Prepared(rules, anchor, fbs, ctx, n)
  {
    hide OfBlock, Assemble, ParentOf, MergedReceipts, MergedBalances, InContext;
    AssembledFields(rules.spec, group);
  }

  lemma RecoveredSoundly(rules: Rules, known: map<Hash, Address>, ctx: BlockContext)
    requires SoundSenders(rules, known) && |ctx.txs| == |ctx.senders|
    requires forall i :: 0 <= i < |ctx.txs| ==> Recover(rules, known, ctx.txs[i]) == Some(ctx.senders[i])
    ensures forall i :: 0 <= i < |ctx.txs| ==> rules.recover(ctx.txs[i]) == Some(ctx.senders[i])
  {
    forall i | 0 <= i < |ctx.txs|
      ensures rules.recover(ctx.txs[i]) == Some(ctx.senders[i])
    {
      assert ctx.txs[i] == Tx(ctx.txs[i].hash);
    }
  }

  /** The blocks of a gap-free list after its first, seen from the whole list. */
  lemma RestSeesSame(spec: Spec, fbs: seq<FlashBlock>, anchor: Header, k: nat, n: nat)
    requires Sequential(fbs) && CutAt(fbs, fbs[0].meta.blockNumber, k) && 0 < k < |fbs|
    requires Assemble(spec, OfBlock(fbs, fbs[0].meta.blockNumber)).Ok?
    requires OfBlock(fbs[k..], n) != []
    ensures var first := fbs[0].meta.blockNumber;
            SameBlock(spec, Assemble(spec, OfBlock(fbs, first)).value.header, fbs[k..], anchor, fbs, n)
  {
    hide MinBlock, OfBlock, Above, Regrouped, BlockNumbers, Assemble, LastReceipt, MergedReceipts;
    var first, rest := fbs[0].meta.blockNumber, fbs[k..];
    SequentialIsOrdered(fbs);
    CutGroups(fbs, first, k);
    CutIndices(fbs, first, k);
    SequentialShape(fbs);
    SequentialShape(rest);
    OfBlockAbove(fbs, first, n);
    NumbersInRange(rest, n);
    if n - 1 > first {
      OfBlockAbove(fbs, first, n - 1);
      assert CompleteBlock(rest, n - 1);
    } else {
      OfBlockAbove(fbs, first, first);
      assert CompleteBlock(fbs, first);
    }
    forall h
      ensures LastReceipt(rest, n, h) == LastReceipt(fbs, n, h)
    {
      MergedIsLast(rest, n, h);
      MergedIsLast(fbs, n, h);
    }
  }

  lemma NumbersInRange(fbs: seq<FlashBlock>, n: nat)
    requires Sequential(fbs) && OfBlock(fbs, n) != []
    ensures fbs[0].meta.blockNumber <= n <= fbs[|fbs| - 1].meta.blockNumber
  {
    SequentialIsOrdered(fbs);
    OfBlockMembers(fbs, n);
    var fb := OfBlock(fbs, n)[0];
    assert fb in OfBlock(fbs, n);
    var i :| 0 <= i < |fbs| && fbs[i] == fb;
  }

  lemma RestLifts(rules: Rules, world: World, anchor: Header, fbs: seq<FlashBlock>, k: nat, script: Script)
    requires Sequential(fbs) && CutAt(fbs, fbs[0].meta.blockNumber, k) && 0 < k < |fbs|
    requires Assemble(rules.spec, OfBlock(fbs, fbs[0].meta.blockNumber)).Ok?
    requires var header := Assemble(rules.spec, OfBlock(fbs, fbs[0].meta.blockNumber)).value.header;
             WellPlanned(rules, world, header, fbs[k..], script, Between)
    ensures WellPlanned(rules, world, anchor, fbs, script, Between)
  {
    hide OfBlock, Assemble, WellPlanned, SameBlock, ParentOf, Sequential, CutAt;
    var header := Assemble(rules.spec, OfBlock(fbs, fbs[0].meta.blockNumber)).value.header;
    forall m | OfBlock(fbs[k..], m) != []
      ensures SameBlock(rules.spec, header, fbs[k..], anchor, fbs, m)
    {
      RestSeesSame(rules.spec, fbs, anchor, k, m);
    }
    PlanLifts(rules, world, header, fbs[k..], anchor, fbs, script, Between);
  }

  /** The plan of a gap-free list is well planned, for that list and on that anchor. */
  lemma {:induction false} ListIsWellPlanned(rules: Rules, known: map<Hash, Address>, world: World, anchor: Header,
                                             fbs: seq<FlashBlock>)
    requires SoundSenders(rules, known)
    requires Sequential(fbs) && forall fb :: fb in fbs ==> WellNumbered(fb)
    ensures WellPlanned(rules, world, anchor, fbs, PlanBlocks(rules, known, world, fbs, anchor), Between)
    decreases |fbs|
  {
    hide MinBlock, OfBlock, Above, PlanBody, Assemble, WellPlanned, SameBlock, ParentOf;
    SequentialIsOrdered(fbs);
    OrderedMin(fbs);
    var n := fbs[0].meta.blockNumber;
    var k := CutExists(fbs, n);
    CutGroups(fbs, n, k);
    CutIndices(fbs, n, k);
    var group, rest := OfBlock(fbs, n), fbs[k..];
    assert group[0] == fbs[0];
    PlanUnfolds(rules, known, world, fbs, anchor);
    var assembled := Assemble(rules.spec, group);
    if assembled.Err? {
      AbortIsWellPlanned(rules, world, anchor, fbs, assembled.error, Between);
    } else {
      var block := assembled.value;
      assert fbs[0] in fbs;
      FirstParent(rules.spec, anchor, fbs, n);
      var tail := PlanBlocks(rules, known, world, rest, block.header);
      if rest == [] {
        FinishIsWellPlanned(rules, known, world, block.header, anchor, fbs);
      } else {
        assert forall fb :: fb in rest ==> fb in fbs;
        ListIsWellPlanned(rules, known, world, block.header, rest);
        RestLifts(rules, world, anchor, fbs, k, tail);
      }
      BodyPlanned(rules, known, world, anchor, fbs, group, block, n, anchor, tail);
      OpensWellPlanned(rules, world, anchor, fbs, group, block, n,
                       PlanBody(rules, known, world, group, block, EnvOf(anchor, group, block), tail));
    }
  }

  lemma {:induction false} NoneOfBlock(fbs: seq<FlashBlock>, n: nat)
    requires forall fb :: fb in fbs ==> fb.meta.blockNumber != n
    ensures OfBlock(fbs, n) == []
  {
    if fbs != [] {
      assert fbs[|fbs| - 1] in fbs;
      NoneOfBlock(fbs[..|fbs| - 1], n);
    }
  }

  /** Nothing comes before a list's first block. */
  lemma FirstParent(spec: Spec, anchor: Header, fbs: seq<FlashBlock>, n: nat)
    requires Ordered(fbs) && fbs != [] && fbs[0].meta.blockNumber == n
    ensures ParentOf(spec, anchor, fbs, n) == Some(anchor)
  {
    hide Assemble;
    if n > 0 {
      NoneOfBlock(fbs, n - 1);
    }
  }

  lemma AbortIsWellPlanned(rules: Rules, world: World, anchor: Header, fbs: seq<FlashBlock>, e: Error, ph: Phase)
    ensures WellPlanned(rules, world, anchor, fbs, Abort(e), ph)
  {
  }

  lemma FinishIsWellPlanned(rules: Rules, known: map<Hash, Address>, world: World, parent: Header, anchor: Header, fbs: seq<FlashBlock>)
    ensures WellPlanned(rules, world, anchor, fbs, PlanBlocks(rules, known, world, [], parent), Between)
  {
  }

  lemma OpensWellPlanned(rules: Rules, world: World, anchor: Header, fbs: seq<FlashBlock>,
                         group: seq<FlashBlock>, block: Block, n: nat, body: Script)
    requires group == OfBlock(fbs, n) && group != [] && Assemble(rules.spec, group) == Ok(block) && block.header.number == n
    requires WellPlanned(rules, world, anchor, fbs, body, Opened(n))
    ensures var base := group[0].base.value;
            WellPlanned(rules, world, anchor, fbs,
                        OpenBlock(group, block.header, base.blockNumber - 1, base.parentHash, body), Between)
  {
    hide Assemble, OfBlock;
  }

  // ---------------------------------------------------------------------------------------
  // Running a well-planned script
  // ---------------------------------------------------------------------------------------

  ghost predicate Serves(rules: Rules, fbs: seq<FlashBlock>, txs: seq<RpcTx>, receipts: map<Hash, RpcReceipt>,
                         senders: map<Hash, Address>)
  {
    forall t :: t in txs ==>
      && t.tx.hash in receipts && TxServed(rules, fbs, t, receipts[t.tx.hash])
      && t.tx.hash in senders && senders[t.tx.hash] == t.sender
  }

  ghost predicate DraftServes(rules: Rules, fbs: seq<FlashBlock>, d: Draft) {
    && Serves(rules, fbs, d.transactions, d.receipts, d.senders)
    && (forall t :: t in d.transactions ==> t.tx.hash in d.byHash)
    && (forall h :: h in d.headers ==> IsAssembled(rules.spec, fbs, h))
  }

  /** Balances are merged block by block, a block's when it closes. */
  ghost predicate BalancesFollow(fbs: seq<FlashBlock>, d: Draft, ph: Phase) {
    if ph.Between? then d.balances == MergedBalances(d.flashblocks)
    else
      exists closed :: d.flashblocks == closed + OfBlock(fbs, ph.n) && d.balances == MergedBalances(closed)
  }

  lemma StepServes(rules: Rules, world: World, reused: map<Hash, Delta>, fbs: seq<FlashBlock>, step: TxStep, p: Progress, ph: Phase)
    requires DraftServes(rules, fbs, p.draft) && BalancesFollow(fbs, p.draft, ph)
    requires step.rpc.tx == step.tx && step.rpc.sender == step.sender && TxServed(rules, fbs, step.rpc, step.receipt)
    requires step.tx.hash !in p.draft.byHash && ExecuteStep(rules, world, reused, step, p).Ok?
    ensures var d := ExecuteStep(rules, world, reused, step, p).value.draft;
            DraftServes(rules, fbs, d) && BalancesFollow(fbs, d, ph)
  {
    hide ExecuteStep, TxServed, OfBlock, MergedBalances, IsAssembled;
    StepAdds(rules, world, reused, step, p);
    var d := ExecuteStep(rules, world, reused, step, p).value.draft;
    assert d.transactions == p.draft.transactions + [step.rpc];
    assert d.flashblocks == p.draft.flashblocks && d.balances == p.draft.balances;
  }

  lemma OpenServes(rules: Rules, fbs: seq<FlashBlock>, group: seq<FlashBlock>, header: Header, pn: nat, ph: Word, p: Progress)
    requires DraftServes(rules, fbs, p.draft) && BalancesFollow(fbs, p.draft, Between)
    requires group == OfBlock(fbs, header.number) && IsAssembled(rules.spec, fbs, header)
    ensures var d := OpenStep(group, header, pn, ph, p).draft;
            DraftServes(rules, fbs, d) && BalancesFollow(fbs, d, Opened(header.number))
  {
    hide TxServed, OfBlock, MergedBalances, IsAssembled;
    var d := OpenStep(group, header, pn, ph, p).draft;
    assert d.flashblocks == p.draft.flashblocks + OfBlock(fbs, header.number);
  }

  lemma CloseServes(rules: Rules, fbs: seq<FlashBlock>, n: nat, p: Progress)
    requires DraftServes(rules, fbs, p.draft) && BalancesFollow(fbs, p.draft, Called(n))
    ensures var d := CloseStep(MergedBalances(OfBlock(fbs, n)), p).draft;
            DraftServes(rules, fbs, d) && BalancesFollow(fbs, d, Between)
  {
    hide TxServed, OfBlock, MergedBalances, IsAssembled;
    var closed :| p.draft.flashblocks == closed + OfBlock(fbs, n) && p.draft.balances == MergedBalances(closed);
    BalancesAppend(closed, OfBlock(fbs, n));
  }

  lemma {:induction false} RunServes(rules: Rules, world: World, reused: map<Hash, Delta>, anchor: Header, fbs: seq<FlashBlock>,
                                     script: Script, ph: Phase, p: Progress)
    requires WellPlanned(rules, world, anchor, fbs, script, ph) && Done(Run(rules, world, reused, script, p))
    requires DraftServes(rules, fbs, p.draft) && BalancesFollow(fbs, p.draft, ph)
    ensures var d := Run(rules, world, reused, script, p).value.draft;
            DraftServes(rules, fbs, d) && BalancesFollow(fbs, d, Between)
    decreases script
  {
    hide DraftServes, ExecuteStep, TxServed, OfBlock, MergedBalances, IsAssembled, OpenStep, CloseStep, InContext, BaseOf;
    match script
    case Finish =>
    case Abort(_) =>
    case OpenBlock(group, header, parentNumber, parentHash, next) =>
      OpenServes(rules, fbs, group, header, parentNumber, parentHash, p);
      RunServes(rules, world, reused, anchor, fbs, next, Opened(header.number), OpenStep(group, header, parentNumber, parentHash, p));
    case SystemCalls(writes, next) =>
      assert SystemStep(world, writes, p).draft == p.draft;
      RunServes(rules, world, reused, anchor, fbs, next, Called(ph.n), SystemStep(world, writes, p));
    case Execute(step, next) =>
      DoneStepIsNew(rules, world, reused, step, next, p);
      StepServes(rules, world, reused, fbs, step, p, ph);
      RunServes(rules, world, reused, anchor, fbs, next, ph, ExecuteStep(rules, world, reused, step, p).value);
    case CloseBlock(balances, next) =>
      CloseServes(rules, fbs, ph.n, p);
      RunServes(rules, world, reused, anchor, fbs, next, Between, CloseStep(balances, p));
  }

  /** While a block is open the executor knows its parent's hash. */
  predicate Announced(fbs: seq<FlashBlock>, ph: Phase, db: Db) {
    !ph.Between? ==>
      && ph.n > 0 && BaseOf(fbs, ph.n).Some?
      && ph.n - 1 in db.blockHashes && db.blockHashes[ph.n - 1] == BaseOf(fbs, ph.n).value.parentHash
  }

  /** Along a run: every transaction that is executed runs in its own block's context, with that
      block's parent hash announced. */
  ghost predicate RunsInContext(rules: Rules, world: World, reused: map<Hash, Delta>, anchor: Header, fbs: seq<FlashBlock>,
                                script: Script, p: Progress)
    decreases script
  {
    match script
    case Finish => true
    case Abort(_) => true
    case OpenBlock(group, header, parentNumber, parentHash, next) =>
      RunsInContext(rules, world, reused, anchor, fbs, next, OpenStep(group, header, parentNumber, parentHash, p))
    case SystemCalls(writes, next) =>
      RunsInContext(rules, world, reused, anchor, fbs, next, SystemStep(world, writes, p))
    case Execute(step, next) =>
      && (step.tx.hash !in reused ==>
            && InContext(rules.spec, anchor, fbs, step.rpc.blockNumber, step.env)
            && Announced(fbs, Called(step.rpc.blockNumber), p.db))
      && (ExecuteStep(rules, world, reused, step, p).Ok? ==>
            RunsInContext(rules, world, reused, anchor, fbs, next, ExecuteStep(rules, world, reused, step, p).value))
    case CloseBlock(balances, next) =>
      RunsInContext(rules, world, reused, anchor, fbs, next, CloseStep(balances, p))
  }

  lemma {:induction false} PlannedRunsInContext(rules: Rules, world: World, reused: map<Hash, Delta>, anchor: Header,
                                                fbs: seq<FlashBlock>, script: Script, ph: Phase, p: Progress)
    requires WellPlanned(rules, world, anchor, fbs, script, ph) && Announced(fbs, ph, p.db)
    ensures RunsInContext(rules, world, reused, anchor, fbs, script, p)
    decreases script
  {
    hide TxServed, OfBlock, MergedBalances, IsAssembled, InContext, BaseOf, ListStep, ApplyWrites, Commit;
    match script
    case Finish =>
    case Abort(_) =>
    case OpenBlock(group, header, parentNumber, parentHash, next) =>
      PlannedRunsInContext(rules, world, reused, anchor, fbs, next, Opened(header.number),
                           OpenStep(group, header, parentNumber, parentHash, p));
    case SystemCalls(writes, next) =>
      PlannedRunsInContext(rules, world, reused, anchor, fbs, next, Called(ph.n), SystemStep(world, writes, p));
    case Execute(step, next) =>
      var stepped := ExecuteStep(rules, world, reused, step, p);
      if stepped.Ok? {
        PlannedRunsInContext(rules, world, reused, anchor, fbs, next, ph, stepped.value);
      }
    case CloseBlock(balances, next) =>
      PlannedRunsInContext(rules, world, reused, anchor, fbs, next, Between, CloseStep(balances, p));
  }

  // ---------------------------------------------------------------------------------------
  // Snapshots
  // ---------------------------------------------------------------------------------------

  /** Everything a snapshot serves is its flashblocks' own word: each listed transaction carries
      the receipt last sent for it in its block, its recovered sender, and the price and time of
      its block's base; each header is the assembled one of its block; each balance is the last
      one sent. */
  ghost predicate ServesItsList(rules: Rules, s: Snapshot) {
    && Serves(rules, s.flashblocks, s.transactions, s.receipts, s.senders)
    && (forall h :: h in s.headers ==> IsAssembled(rules.spec, s.flashblocks, h))
    && (forall a: Address :: LastBalance(s.flashblocks, a) == if a in s.balances then Some(s.balances[a]) else None)
  }

  /** Any successful build of a gap-free list, whatever previous snapshot it continued, provided
      that one's senders were recovered ones. */
  lemma BuildServes(rules: Rules, anchor: Header, prev: Option<Snapshot>, fbs: seq<FlashBlock>, s: Snapshot)
    requires SoundSenders(rules, KnownSenders(prev))
    requires Sequential(fbs) && forall fb :: fb in fbs ==> WellNumbered(fb)
    requires BuildOn(rules, anchor, prev, fbs) == Ok(s) && s.flashblocks == fbs
    ensures ServesItsList(rules, s)
  {
    hide PlanBlocks, Run, Serves, MergedBalances, IsAssembled, WellPlanned, LastBalance, SoundSenders, Sequential;
    var world, plan := rules.stateOf(anchor), PlanBlocks(rules, KnownSenders(prev), rules.stateOf(anchor), fbs, anchor);
    ListIsWellPlanned(rules, KnownSenders(prev), world, anchor, fbs);
    NothingServed(rules, fbs);
    RunServes(rules, world, Reused(prev), anchor, fbs, plan, Between, Start(prev));
    forall a: Address
      ensures LastBalance(s.flashblocks, a) == if a in s.balances then Some(s.balances[a]) else None
    {
      BalanceIsLast(s.flashblocks, a);
    }
  }

  lemma NothingServed(rules: Rules, fbs: seq<FlashBlock>)
    ensures DraftServes(rules, fbs, EMPTY_DRAFT) && BalancesFollow(fbs, EMPTY_DRAFT, Between)
  {
  }

  /** And its transactions ran in context: on the header of the block before, or the anchor, under
      their own block's base and slot, with their block's parent hash announced. */
  lemma BuildRunsInContext(rules: Rules, anchor: Header, prev: Option<Snapshot>, fbs: seq<FlashBlock>)
    requires SoundSenders(rules, KnownSenders(prev))
    requires Sequential(fbs) && forall fb :: fb in fbs ==> WellNumbered(fb)
    ensures var world := rules.stateOf(anchor);
            RunsInContext(rules, world, Reused(prev), anchor, fbs,
                          PlanBlocks(rules, KnownSenders(prev), world, fbs, anchor), Start(prev))
  {
    hide PlanBlocks, WellPlanned, RunsInContext, SoundSenders, Sequential;
    var world := rules.stateOf(anchor);
    ListIsWellPlanned(rules, KnownSenders(prev), world, anchor, fbs);
    PlannedRunsInContext(rules, world, Reused(prev), anchor, fbs, PlanBlocks(rules, KnownSenders(prev), world, fbs, anchor),
                         Between, Start(prev));
  }

  /** The withdrawals served with the latest block: those of the last flashblock that has its
      number. */
  function Withdrawals(fbs: seq<FlashBlock>, n: nat): seq<Withdrawal> {
    if fbs == [] then []
    else if fbs[|fbs| - 1].meta.blockNumber == n then fbs[|fbs| - 1].diff.withdrawals
    else Withdrawals(fbs[..|fbs| - 1], n)
  }

  /** They are the very list whose root the latest header carries. */
  lemma WithdrawalsMatchHeader(rules: Rules, s: Snapshot)
    requires ServesItsList(rules, s) && s.latest in s.headers
    ensures rules.spec.withdrawalsRoot(Withdrawals(s.flashblocks, s.latest.number)) == s.latest.withdrawalsRoot
  {
    hide Assemble, Serves, LastBalance, Withdrawals, OfBlock;
    AssembledFields(rules.spec, OfBlock(s.flashblocks, s.latest.number));
    LastOfBlock(s.flashblocks, s.latest.number);
  }

  lemma {:induction false} LastOfBlock(fbs: seq<FlashBlock>, n: nat)
    requires OfBlock(fbs, n) != []
    ensures var group := OfBlock(fbs, n);
            Withdrawals(fbs, n) == group[|group| - 1].diff.withdrawals
  {
    if fbs[|fbs| - 1].meta.blockNumber != n {
      LastOfBlock(fbs[..|fbs| - 1], n);
    }
  }
}
