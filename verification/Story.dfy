/** What a finished build says about itself: one list of transactions, indexed alike everywhere,
    with gas and log indices that run through each block without gaps. */
module Story {
  import opened Types
  import opened Assembler
  import opened Overlay
  import opened PendingBlocks
  import opened Rebuild
  import opened Refinement
  import opened Ordering

  // ---------------------------------------------------------------------------------------
  // The story of one block
  // ---------------------------------------------------------------------------------------

  /** Gas the listed transactions used, one by one. */
  function GasSum(receipts: map<Hash, RpcReceipt>, ts: seq<RpcTx>): nat {
    if ts == [] then 0
    else
      var h := ts[|ts| - 1].tx.hash;
      GasSum(receipts, ts[..|ts| - 1]) + if h in receipts then receipts[h].gasUsed else 0
  }

  /** Logs of the listed transactions, in order. */
  function LogsOf(receipts: map<Hash, RpcReceipt>, ts: seq<RpcTx>): seq<RpcLog> {
    if ts == [] then []
    else
      var h := ts[|ts| - 1].tx.hash;
      LogsOf(receipts, ts[..|ts| - 1]) + if h in receipts then receipts[h].logs else []
  }

  function LastCumulative(receipts: map<Hash, RpcReceipt>, ts: seq<RpcTx>): nat {
    if ts == [] then 0
    else
      var h := ts[|ts| - 1].tx.hash;
      if h in receipts then receipts[h].cumulativeGas else 0
  }

  /** Transactions are indexed by position, their gas adds up to the last cumulative gas, and
      their logs are numbered 0, 1, 2, ... in order, under the block's own number. */
  ghost predicate TellsOneStory(receipts: map<Hash, RpcReceipt>, ts: seq<RpcTx>, n: nat) {
    && (forall j :: 0 <= j < |ts| ==> ts[j].index == j)
    && GasSum(receipts, ts) == LastCumulative(receipts, ts)
    && (var logs := LogsOf(receipts, ts);
        forall k :: 0 <= k < |logs| ==> logs[k].logIndex == k && logs[k].blockNumber == n)
  }

  ghost predicate BlockTold(d: Draft, n: nat) {
    TellsOneStory(d.receipts, OfNumber(d.transactions, n), n)
  }

  /** The hash map, the receipts, the senders and the states cover exactly the listed
      transactions, and no hash is listed twice. */
  ghost predicate OneIndex(d: Draft) {
    Listed(d) && Indexed(d.transactions, d.byHash)
  }

  ghost predicate Indexed(txs: seq<RpcTx>, byHash: map<Hash, RpcTx>) {
    && (forall i :: 0 <= i < |txs| ==> txs[i].tx.hash in byHash && byHash[txs[i].tx.hash] == txs[i])
    && (forall h :: h in byHash ==> byHash[h] in txs && byHash[h].tx.hash == h)
    && (forall i, j :: 0 <= i < j < |txs| ==> txs[i].tx.hash != txs[j].tx.hash)
  }

  // ---------------------------------------------------------------------------------------
  // Adding a transaction to a draft
  // ---------------------------------------------------------------------------------------

  lemma OfNumberMembers(txs: seq<RpcTx>, n: nat)
    ensures forall t :: t in OfNumber(txs, n) <==> t in txs && t.blockNumber == n
  {
    if txs != [] {
      OfNumberMembers(txs[..|txs| - 1], n);
      assert txs == txs[..|txs| - 1] + [txs[|txs| - 1]];
    }
  }

  lemma OfNumberAdd(txs: seq<RpcTx>, t: RpcTx, n: nat)
    ensures OfNumber(txs + [t], n) == OfNumber(txs, n) + if t.blockNumber == n then [t] else []
  {
    assert (txs + [t])[..|txs|] == txs;
  }

  /** A receipt of another transaction does not change a story. */
  lemma OtherReceipt(receipts: map<Hash, RpcReceipt>, ts: seq<RpcTx>, h: Hash, r: RpcReceipt)
    requires forall t :: t in ts ==> t.tx.hash != h
    ensures GasSum(receipts[h := r], ts) == GasSum(receipts, ts)
    ensures LogsOf(receipts[h := r], ts) == LogsOf(receipts, ts)
    ensures LastCumulative(receipts[h := r], ts) == LastCumulative(receipts, ts)
  {
    if ts != [] {
      assert ts[|ts| - 1] in ts;
      assert forall t :: t in ts[..|ts| - 1] ==> t in ts;
      OtherReceipt(receipts, ts[..|ts| - 1], h, r);
    }
  }

  /** The next transaction of block `n` after `count` of them, which used `gas` and left `logs`
      logs: it carries on the indices, the gas and the log numbers. */
  ghost predicate CarriesOn(step: TxStep, n: nat, count: nat, gas: nat, logs: nat) {
    && step.tx == step.rpc.tx
    && step.rpc.blockNumber == n && step.rpc.index == count
    && step.receipt.cumulativeGas == gas + step.receipt.gasUsed
    && forall k :: 0 <= k < |step.receipt.logs| ==>
         step.receipt.logs[k].logIndex == logs + k && step.receipt.logs[k].blockNumber == n
  }

  lemma StoryGrows(receipts: map<Hash, RpcReceipt>, ts: seq<RpcTx>, n: nat, step: TxStep)
    requires TellsOneStory(receipts, ts, n)
    requires forall t :: t in ts ==> t.tx.hash != step.tx.hash
    requires CarriesOn(step, n, |ts|, LastCumulative(receipts, ts), |LogsOf(receipts, ts)|)
    ensures var r := receipts[step.tx.hash := step.receipt];
            && TellsOneStory(r, ts + [step.rpc], n)
            && LastCumulative(r, ts + [step.rpc]) == step.receipt.cumulativeGas
            && LogsOf(r, ts + [step.rpc]) == LogsOf(receipts, ts) + step.receipt.logs
  {
    OtherReceipt(receipts, ts, step.tx.hash, step.receipt);
    assert (ts + [step.rpc])[..|ts|] == ts;
  }

  lemma IndexedGrows(txs: seq<RpcTx>, byHash: map<Hash, RpcTx>, t: RpcTx)
    requires Indexed(txs, byHash) && t.tx.hash !in byHash
    ensures Indexed(txs + [t], byHash[t.tx.hash := t])
  {
    var txs', byHash' := txs + [t], byHash[t.tx.hash := t];
    forall h | h in byHash'
      ensures byHash'[h] in txs' && byHash'[h].tx.hash == h
    {
      if h == t.tx.hash {
        assert txs'[|txs|] == t;
      } else {
        assert byHash[h] in txs;
      }
    }
  }

  lemma IndexGrows(d: Draft, step: TxStep, state: Delta)
    requires OneIndex(d) && step.tx == step.rpc.tx && step.tx.hash !in d.byHash
    ensures OneIndex(Added(d, step, state))
  {
    hide Indexed;
    IndexedGrows(d.transactions, d.byHash, step.rpc);
  }

  lemma BlocksTold(d: Draft, step: TxStep, state: Delta, n: nat, m: nat)
    requires OneIndex(d) && step.tx.hash !in d.byHash && BlockTold(d, m)
    requires CarriesOn(step, n, |OfNumber(d.transactions, n)|, LastCumulative(d.receipts, OfNumber(d.transactions, n)),
                       |LogsOf(d.receipts, OfNumber(d.transactions, n))|)
    ensures var r := Added(d, step, state);
            && BlockTold(r, m)
            && (m == n ==>
                  && OfNumber(r.transactions, n) == OfNumber(d.transactions, n) + [step.rpc]
                  && LastCumulative(r.receipts, OfNumber(r.transactions, n)) == step.receipt.cumulativeGas
                  && |LogsOf(r.receipts, OfNumber(r.transactions, n))|
                     == |LogsOf(d.receipts, OfNumber(d.transactions, n))| + |step.receipt.logs|)
  {
    var ts := OfNumber(d.transactions, m);
    OfNumberMembers(d.transactions, m);
    OfNumberAdd(d.transactions, step.rpc, m);
    forall t | t in ts
      ensures t.tx.hash != step.tx.hash
    {
      assert t in d.transactions;
    }
    if m == n {
      StoryGrows(d.receipts, ts, n, step);
    } else {
      OtherReceipt(d.receipts, ts, step.tx.hash, step.receipt);
    }
  }

  // ---------------------------------------------------------------------------------------
  // Running a plan
  // ---------------------------------------------------------------------------------------

  function TxHashes(txs: seq<Tx>): seq<Hash> {
    seq(|txs|, i requires 0 <= i < |txs| => txs[i].hash)
  }

  /** A draft whose block `n` has `count` transactions so far, with their gas and logs. */
  ghost predicate SoFar(d: Draft, n: nat, count: nat, gas: nat, logs: nat) {
    var ts := OfNumber(d.transactions, n);
    |ts| == count && LastCumulative(d.receipts, ts) == gas && |LogsOf(d.receipts, ts)| == logs
  }

  ghost predicate AllTold(d: Draft) {
    OneIndex(d) && forall m :: BlockTold(d, m)
  }

  /** Only transactions of block `n` were added, and their hashes are `added`. */
  ghost predicate AddedInBlock(before: Draft, after: Draft, n: nat, added: seq<Hash>) {
    && after.flashblocks == before.flashblocks && after.headers == before.headers
    && Hashes(after.transactions) == Hashes(before.transactions) + added
    && forall t :: t in after.transactions ==> t in before.transactions || t.blockNumber == n
  }

  lemma DoneStepIsNew(rules: Rules, world: World, reused: map<Hash, Delta>, step: TxStep, next: Script, p: Progress)
    requires step.tx == step.rpc.tx
    requires Done(Run(rules, world, reused, Execute(step, next), p))
    ensures step.tx.hash !in p.draft.byHash
    ensures ExecuteStep(rules, world, reused, step, p).Ok?
    ensures Run(rules, world, reused, Execute(step, next), p) ==
            Run(rules, world, reused, next, ExecuteStep(rules, world, reused, step, p).value)
  {
    if step.tx.hash in p.draft.byHash {
      RepeatNeverDone(rules, world, reused, step, next, p);
    }
  }

  lemma StepTells(rules: Rules, world: World, reused: map<Hash, Delta>, step: TxStep, p: Progress,
                  n: nat, count: nat, gas: nat, logs: nat)
    requires AllTold(p.draft) && SoFar(p.draft, n, count, gas, logs)
    requires CarriesOn(step, n, count, gas, logs) && step.tx.hash !in p.draft.byHash
    requires ExecuteStep(rules, world, reused, step, p).Ok?
    ensures var d := ExecuteStep(rules, world, reused, step, p).value.draft;
            && AllTold(d)
            && SoFar(d, n, count + 1, step.receipt.cumulativeGas, logs + |step.receipt.logs|)
            && AddedInBlock(p.draft, d, n, [step.tx.hash])
  {
    hide ExecuteStep, BlockTold, OneIndex, CarriesOn, LogsOf, LastCumulative;
    StepAdds(rules, world, reused, step, p);
    var d := ExecuteStep(rules, world, reused, step, p).value.draft;
    var state := d.states[step.tx.hash];
    StepIsOurs(step, n, count, gas, logs);
    IndexGrows(p.draft, step, state);
    forall m
      ensures BlockTold(d, m)
    {
      BlocksTold(p.draft, step, state, n, m);
    }
    BlocksTold(p.draft, step, state, n, n);
    assert d.transactions == p.draft.transactions + [step.rpc];
    assert (p.draft.transactions + [step.rpc])[..|p.draft.transactions|] == p.draft.transactions;
  }

  lemma StepIsOurs(step: TxStep, n: nat, count: nat, gas: nat, logs: nat)
    requires CarriesOn(step, n, count, gas, logs)
    ensures step.tx == step.rpc.tx && step.rpc.blockNumber == n
  {
  }

  lemma PlannedCarriesOn(rules: Rules, ctx: BlockContext, i: nat, gas: nat, firstLog: nat)
    requires i < |ctx.txs| == |ctx.senders|
    requires ctx.txs[i].hash in ctx.receipts && gas <= ctx.receipts[ctx.txs[i].hash].cumulativeGas
    requires ctx.env.base.blockNumber == ctx.header.number
    ensures CarriesOn(StepOf(rules, ctx, i, gas, firstLog), ctx.header.number, i, gas, firstLog)
  {
  }

  /** The transactions of one block, listed by a run that finishes. `q` is the run at the
      block's end. */
  lemma {:induction false} TxsTell(rules: Rules, world: World, reused: map<Hash, Delta>, ctx: BlockContext,
                                   i: nat, gas: nat, firstLog: nat, next: Script, p: Progress)
    returns (q: Progress)
    requires i <= |ctx.txs| == |ctx.senders|
    requires ctx.env.base.blockNumber == ctx.header.number
    requires Done(Run(rules, world, reused, PlanTxs(rules, ctx, i, gas, firstLog, next), p))
    requires AllTold(p.draft) && SoFar(p.draft, ctx.header.number, i, gas, firstLog)
    ensures Run(rules, world, reused, PlanTxs(rules, ctx, i, gas, firstLog, next), p) == Run(rules, world, reused, next, q)
    ensures AllTold(q.draft)
    ensures AddedInBlock(p.draft, q.draft, ctx.header.number, TxHashes(ctx.txs[i..]))
    decreases |ctx.txs| - i
  {
    hide AllTold, SoFar, ExecuteStep, Hashes;
    if i == |ctx.txs| {
      q := CloseStep(ctx.balances, p);
      CloseTells(ctx.balances, p);
      assert Run(rules, world, reused, CloseBlock(ctx.balances, next), p) == Run(rules, world, reused, next, q);
      return;
    }
    if ctx.txs[i].hash !in ctx.receipts || ctx.receipts[ctx.txs[i].hash].cumulativeGas < gas {
      UnfoldBadTx(rules, world, reused, ctx, i, gas, firstLog, next, p);
    }
    var receipt := ctx.receipts[ctx.txs[i].hash];
    var step := StepOf(rules, ctx, i, gas, firstLog);
    var rest := PlanTxs(rules, ctx, i + 1, receipt.cumulativeGas, firstLog + |receipt.logs|, next);
    assert PlanTxs(rules, ctx, i, gas, firstLog, next) == Execute(step, rest);
    PlannedCarriesOn(rules, ctx, i, gas, firstLog);
    DoneStepIsNew(rules, world, reused, step, rest, p);
    StepTells(rules, world, reused, step, p, ctx.header.number, i, gas, firstLog);
    var p' := ExecuteStep(rules, world, reused, step, p).value;
    q := TxsTell(rules, world, reused, ctx, i + 1, receipt.cumulativeGas, firstLog + |receipt.logs|, next, p');
    assert TxHashes(ctx.txs[i..]) == [step.tx.hash] + TxHashes(ctx.txs[i + 1..]);
    Regroup(Hashes(p.draft.transactions), [step.tx.hash], TxHashes(ctx.txs[i + 1..]));
  }

  lemma CloseTells(balances: map<Address, Word>, p: Progress)
    requires AllTold(p.draft)
    ensures AllTold(CloseStep(balances, p).draft)
    ensures AddedInBlock(p.draft, CloseStep(balances, p).draft, 0, [])
    ensures forall t :: t in CloseStep(balances, p).draft.transactions ==> t in p.draft.transactions
  {
    var d := CloseStep(balances, p).draft;
    forall m
      ensures BlockTold(d, m)
    {
      assert BlockTold(p.draft, m);
    }
  }

  function RawHash(spec: Spec, raw: Bytes): Hash {
    var tx := spec.decode(raw);
    if tx.Some? then tx.value.hash else 0
  }

  /** Hashes of encoded transactions, in order. */
  function RawHashes(spec: Spec, payloads: seq<Bytes>): seq<Hash> {
    seq(|payloads|, i requires 0 <= i < |payloads| => RawHash(spec, payloads[i]))
  }

  lemma DecodedHashes(spec: Spec, payloads: seq<Bytes>)
    requires DecodeAll(spec, payloads).Some?
    ensures TxHashes(DecodeAll(spec, payloads).value) == RawHashes(spec, payloads)
  {
    var txs := DecodeAll(spec, payloads).value;
    forall i | 0 <= i < |payloads|
      ensures TxHashes(txs)[i] == RawHashes(spec, payloads)[i]
    {
      assert spec.decode(payloads[i]) == Some(txs[i]);
    }
  }

  function Numbers(headers: seq<Header>): seq<nat> {
    seq(|headers|, i requires 0 <= i < |headers| => headers[i].number)
  }

  /** The flashblocks in the order the build visits them. */
  function Regrouped(fbs: seq<FlashBlock>): seq<FlashBlock>
    decreases |fbs|
  {
    if fbs == [] then []
    else
      GroupNotEmpty(fbs);
      OfBlock(fbs, MinBlock(fbs)) + Regrouped(Above(fbs, MinBlock(fbs)))
  }

  /** The block numbers the build visits, ascending. */
  function BlockNumbers(fbs: seq<FlashBlock>): seq<nat>
    decreases |fbs|
  {
    if fbs == [] then []
    else
      GroupNotEmpty(fbs);
      [MinBlock(fbs)] + BlockNumbers(Above(fbs, MinBlock(fbs)))
  }

  /** What running a plan over `fbs` adds to a draft. */
  ghost predicate Collected(spec: Spec, before: Draft, after: Draft, fbs: seq<FlashBlock>, numbers: seq<nat>) {
    && after.flashblocks == before.flashblocks + fbs
    && Numbers(after.headers) == Numbers(before.headers) + numbers
    && Hashes(after.transactions) == Hashes(before.transactions) + RawHashes(spec, Payloads(fbs))
  }

  lemma CollectedTwice(spec: Spec, a: Draft, b: Draft, c: Draft, fs: seq<FlashBlock>, gs: seq<FlashBlock>,
                       ns: seq<nat>, ms: seq<nat>)
    requires Collected(spec, a, b, fs, ns) && Collected(spec, b, c, gs, ms)
    ensures Collected(spec, a, c, fs + gs, ns + ms)
  {
    hide Hashes, Numbers, RawHashes;
    RawHashesAppend(spec, fs, gs);
    Regroup(a.flashblocks, fs, gs);
    Regroup(Numbers(a.headers), ns, ms);
    Regroup(Hashes(a.transactions), RawHashes(spec, Payloads(fs)), RawHashes(spec, Payloads(gs)));
  }

  lemma RawHashesAppend(spec: Spec, fs: seq<FlashBlock>, gs: seq<FlashBlock>)
    ensures RawHashes(spec, Payloads(fs + gs)) == RawHashes(spec, Payloads(fs)) + RawHashes(spec, Payloads(gs))
  {
    hide Payloads;
    PayloadsAppend(fs, gs);
  }

  ghost predicate Before(txs: seq<RpcTx>, n: nat) {
    forall t :: t in txs ==> t.blockNumber < n
  }

  lemma NothingYet(txs: seq<RpcTx>, n: nat)
    requires Before(txs, n)
    ensures OfNumber(txs, n) == []
  {
    if txs != [] {
      assert txs[|txs| - 1] in txs;
      assert forall t :: t in txs[..|txs| - 1] ==> t in txs;
      NothingYet(txs[..|txs| - 1], n);
    }
  }

  /** One block of a run that finishes. */
  lemma BodyTells(rules: Rules, known: map<Hash, Address>, world: World, reused: map<Hash, Delta>,
                  group: seq<FlashBlock>, block: Block, env: BlockEnv, next: Script, p: Progress)
    returns (q: Progress)
    requires env.base.blockNumber == block.header.number
    requires Done(Run(rules, world, reused, PlanBody(rules, known, world, group, block, env, next), p))
    requires AllTold(p.draft) && Before(p.draft.transactions, block.header.number)
    ensures Run(rules, world, reused, PlanBody(rules, known, world, group, block, env, next), p)
         == Run(rules, world, reused, next, q)
    ensures AllTold(q.draft)
    ensures AddedInBlock(p.draft, q.draft, block.header.number, TxHashes(block.transactions))
  {
    hide PlanBody, PlanTxs, Run, AllTold, RecoverSenders, MergedReceipts, MergedBalances;
    UnfoldBody(rules, known, world, reused, group, block, env, next, p);
    var ctx := BlockContext(env, block.header, block.transactions, RecoverSenders(rules, known, block.transactions).value,
                            MergedReceipts(group), MergedBalances(group));
    var p' := SystemStep(world, rules.systemWrites(world, env).value, p);
    NothingYet(p.draft.transactions, block.header.number);
    q := TxsTell(rules, world, reused, ctx, 0, 0, 0, next, p');
    assert ctx.txs[0..] == ctx.txs;
  }

  lemma OpenTells(group: seq<FlashBlock>, header: Header, n: nat, h: Word, p: Progress)
    requires AllTold(p.draft)
    ensures AllTold(OpenStep(group, header, n, h, p).draft)
  {
    var d := OpenStep(group, header, n, h, p).draft;
    forall m
      ensures BlockTold(d, m)
    {
      assert BlockTold(p.draft, m);
    }
  }

  /** The first block of a plan that finishes; `q` is the run at its end. */
  lemma FirstBlockTells(rules: Rules, known: map<Hash, Address>, world: World, reused: map<Hash, Delta>,
                        fbs: seq<FlashBlock>, parent: Header, p: Progress)
    returns (q: Progress, header: Header)
    requires fbs != [] && forall fb :: fb in fbs ==> WellNumbered(fb)
    requires Done(Run(rules, world, reused, PlanBlocks(rules, known, world, fbs, parent), p))
    requires AllTold(p.draft) && Before(p.draft.transactions, MinBlock(fbs))
    ensures Run(rules, world, reused, PlanBlocks(rules, known, world, fbs, parent), p)
         == Run(rules, world, reused, PlanBlocks(rules, known, world, Above(fbs, MinBlock(fbs)), header), q)
    ensures AllTold(q.draft)
    ensures Collected(rules.spec, p.draft, q.draft, OfBlock(fbs, MinBlock(fbs)), [MinBlock(fbs)])
    ensures Above(fbs, MinBlock(fbs)) != [] ==> Before(q.draft.transactions, MinBlock(Above(fbs, MinBlock(fbs))))
  {
    hide PlanBlocks, PlanBody, Run, AllTold, Assemble, Payloads, Collected;
    hide MinBlock, OfBlock, Above, Before, TxHashes, Hashes;
    var n := MinBlock(fbs);
    var group := OfBlock(fbs, n);
    GroupNotEmpty(fbs);
    OfBlockMembers(fbs, n);
    UnfoldBlock(rules, known, world, reused, fbs, parent, p);
    var block := Assemble(rules.spec, group).value;
    assert group[0] in group;
    var base := group[0].base.value;
    header := block.header;
    var atOpen := OpenStep(group, header, base.blockNumber - 1, base.parentHash, p);
    OpenTells(group, header, base.blockNumber - 1, base.parentHash, p);
    q := BodyTells(rules, known, world, reused, group, block, EnvOf(parent, group, block),
                   PlanBlocks(rules, known, world, Above(fbs, n), header), atOpen);
    GroupCollected(rules.spec, p, atOpen, q, group, block, n);
    if Above(fbs, n) != [] {
      StillBefore(p, q, n, fbs);
    }
  }

  /** A whole plan that finishes: what it lists, block by block, and that it tells one story. */
  lemma {:induction false} PlanTells(rules: Rules, known: map<Hash, Address>, world: World, reused: map<Hash, Delta>,
                                     fbs: seq<FlashBlock>, parent: Header, p: Progress)
    requires forall fb :: fb in fbs ==> WellNumbered(fb)
    requires Done(Run(rules, world, reused, PlanBlocks(rules, known, world, fbs, parent), p))
    requires AllTold(p.draft)
    requires fbs != [] ==> Before(p.draft.transactions, MinBlock(fbs))
    ensures var d := Run(rules, world, reused, PlanBlocks(rules, known, world, fbs, parent), p).value.draft;
            AllTold(d) && Collected(rules.spec, p.draft, d, Regrouped(fbs), BlockNumbers(fbs))
    decreases |fbs|
  {
    if fbs == [] {
      assert Payloads([]) == [];
      return;
    }
    hide PlanBlocks, Run, AllTold, Collected, Regrouped, BlockNumbers, MinBlock, OfBlock, Above, Before;
    var n := MinBlock(fbs);
    var above := Above(fbs, n);
    GroupNotEmpty(fbs);
    AboveMembers(fbs, n);
    var q, header := FirstBlockTells(rules, known, world, reused, fbs, parent, p);
    PlanTells(rules, known, world, reused, above, header, q);
    var d := Run(rules, world, reused, PlanBlocks(rules, known, world, above, header), q).value.draft;
    CollectedTwice(rules.spec, p.draft, q.draft, d, OfBlock(fbs, n), Regrouped(above), [n], BlockNumbers(above));
    RegroupedUnfolds(fbs);
  }

  lemma RegroupedUnfolds(fbs: seq<FlashBlock>)
    requires fbs != []
    ensures var n := MinBlock(fbs);
            && Regrouped(fbs) == OfBlock(fbs, n) + Regrouped(Above(fbs, n))
            && BlockNumbers(fbs) == [n] + BlockNumbers(Above(fbs, n))
  {
    GroupNotEmpty(fbs);
  }

  lemma StillBefore(p: Progress, q: Progress, n: nat, fbs: seq<FlashBlock>)
    requires fbs != [] && n == MinBlock(fbs) && Above(fbs, n) != []
    requires Before(p.draft.transactions, n)
    requires forall t :: t in q.draft.transactions ==> t in p.draft.transactions || t.blockNumber == n
    ensures Before(q.draft.transactions, MinBlock(Above(fbs, n)))
  {
    AboveMembers(fbs, n);
    var fb :| fb in Above(fbs, n) && fb.meta.blockNumber == MinBlock(Above(fbs, n));
  }

  lemma GroupCollected(spec: Spec, p: Progress, atOpen: Progress, q: Progress, group: seq<FlashBlock>,
                       block: Block, n: nat)
    requires Assemble(spec, group) == Ok(block) && block.header.number == n
    requires atOpen.draft == p.draft.(flashblocks := p.draft.flashblocks + group, headers := p.draft.headers + [block.header])
    requires AddedInBlock(atOpen.draft, q.draft, n, TxHashes(block.transactions))
    ensures Collected(spec, p.draft, q.draft, group, [n])
  {
    DecodedHashes(spec, Payloads(group));
  }

  // ---------------------------------------------------------------------------------------
  // Finished snapshots
  // ---------------------------------------------------------------------------------------

  /** The hash map, receipts, senders and states of a snapshot have the transaction list's
      hashes as their domain, no hash is listed twice, and every block tells one story. */
  ghost predicate OneStory(s: Snapshot) {
    && s.states.Keys == s.byHash.Keys == s.senders.Keys == s.receipts.Keys
    && Indexed(s.transactions, s.byHash)
    && forall n :: TellsOneStory(s.receipts, TransactionsForBlock(s, n), n)
  }

  lemma EmptyTells()
    ensures AllTold(EMPTY_DRAFT)
  {
    forall m
      ensures BlockTold(EMPTY_DRAFT, m)
    {
    }
  }

  /** What sealing a told draft gives. */
  lemma SealTells(d: Draft, bundle: Bundle, anchor: Header, s: Snapshot)
    requires AllTold(d) && Seal(d, bundle, anchor) == Ok(s)
    ensures OneStory(s)
    ensures s.anchor == anchor && s.flashblocks == d.flashblocks && s.headers == d.headers && s.transactions == d.transactions
    ensures s.headers != [] && s.earliest == s.headers[0] && s.latest == s.headers[|s.headers| - 1]
    ensures s.flashblocks != [] && s.latestIndex == s.flashblocks[|s.flashblocks| - 1].index
  {
    hide TellsOneStory, Indexed;
    forall n
      ensures TellsOneStory(s.receipts, TransactionsForBlock(s, n), n)
    {
      assert BlockTold(d, n);
    }
  }

  /** Any build that succeeds, whatever previous snapshot it reused. */
  lemma BuildTellsOneStory(rules: Rules, anchor: Header, prev: Option<Snapshot>, fbs: seq<FlashBlock>, s: Snapshot)
    requires forall fb :: fb in fbs ==> WellNumbered(fb)
    requires BuildOn(rules, anchor, prev, fbs) == Ok(s)
    ensures OneStory(s)
    ensures s.anchor == anchor && s.flashblocks == Regrouped(fbs) && Numbers(s.headers) == BlockNumbers(fbs)
    ensures Hashes(s.transactions) == RawHashes(rules.spec, Payloads(s.flashblocks))
    ensures s.headers != [] && s.earliest == s.headers[0] && s.latest == s.headers[|s.headers| - 1]
    ensures s.flashblocks != [] && s.latestIndex == s.flashblocks[|s.flashblocks| - 1].index
  {
    hide PlanBlocks, Run, Regrouped, BlockNumbers, Payloads, AllTold, OneStory, Hashes, RawHashes, Numbers, Collected;
    var world := rules.stateOf(anchor);
    var plan := PlanBlocks(rules, KnownSenders(prev), world, fbs, anchor);
    EmptyTells();
    var start := Start(prev);
    assert start.draft == EMPTY_DRAFT;
    PlanTells(rules, KnownSenders(prev), world, Reused(prev), fbs, anchor, start);
    var end := Run(rules, world, Reused(prev), plan, start).value;
    SealTells(end.draft, end.db.bundle, anchor, s);
    CollectedFromNothing(rules.spec, end.draft, Regrouped(fbs), BlockNumbers(fbs));
  }

  lemma CollectedFromNothing(spec: Spec, d: Draft, fbs: seq<FlashBlock>, numbers: seq<nat>)
    requires Collected(spec, EMPTY_DRAFT, d, fbs, numbers)
    ensures d.flashblocks == fbs && Numbers(d.headers) == numbers
    ensures Hashes(d.transactions) == RawHashes(spec, Payloads(fbs))
  {
  }

  /** The latest flashblock's transactions are exactly what follows the previous count: no hash
      is repeated, so the list holds one entry per encoded transaction. */
  lemma LatestHashesExact(rules: Rules, anchor: Header, prev: Option<Snapshot>, fbs: seq<FlashBlock>, s: Snapshot)
    requires forall fb :: fb in fbs ==> WellNumbered(fb)
    requires BuildOn(rules, anchor, prev, fbs) == Ok(s)
    ensures s.flashblocks != []
    ensures var last := s.flashblocks[|s.flashblocks| - 1];
            && LatestHashes(s) == RawHashes(rules.spec, last.diff.transactions)
            && Hashes(s.transactions) ==
               RawHashes(rules.spec, Payloads(s.flashblocks[..|s.flashblocks| - 1])) + LatestHashes(s)
  {
    hide BuildOn, OneStory, Payloads, TxCount, Hashes, Regrouped, BlockNumbers;
    BuildTellsOneStory(rules, anchor, prev, fbs, s);
    var m := |s.flashblocks| - 1;
    var init, last := s.flashblocks[..m], s.flashblocks[m];
    assert init + [last] == s.flashblocks;
    PayloadsAppend(init, [last]);
    Singleton(last);
    CountIsLength(init);
    PreviousCount(s);
    SplitHashes(rules.spec, s, Payloads(init), last.diff.transactions);
  }

  lemma PreviousCount(s: Snapshot)
    requires s.flashblocks != []
    ensures PreviousFlashblocksTxCount(s) == TxCount(s.flashblocks[..|s.flashblocks| - 1])
  {
    if |s.flashblocks| == 1 {
      assert s.flashblocks[..0] == [];
    }
  }

  lemma SplitHashes(spec: Spec, s: Snapshot, a: seq<Bytes>, b: seq<Bytes>)
    requires Hashes(s.transactions) == RawHashes(spec, a + b)
    requires PreviousFlashblocksTxCount(s) == |a|
    ensures LatestHashes(s) == RawHashes(spec, b)
    ensures Hashes(s.transactions) == RawHashes(spec, a) + LatestHashes(s)
  {
    hide TxCount;
    HashesLength(s.transactions, |a|);
    assert RawHashes(spec, a + b) == RawHashes(spec, a) + RawHashes(spec, b);
  }

  lemma CountIsLength(fbs: seq<FlashBlock>)
    ensures TxCount(fbs) == |Payloads(fbs)|
  {
    if fbs != [] {
      var init, last := fbs[..|fbs| - 1], fbs[|fbs| - 1];
      CountIsLength(init);
      assert init + [last] == fbs;
      PayloadsAppend(init, [last]);
      Singleton(last);
    }
  }

  lemma HashesLength(txs: seq<RpcTx>, k: nat)
    requires k <= |txs|
    ensures Hashes(txs[k..]) == Hashes(txs)[k..]
  {
  }
}
