/** The refinement theorem at the level of flashblock lists: building on a previous snapshot is
    building from nothing, provided the producer kept the outcomes it had already reported. */
module Incremental {
  import opened Types
  import opened Assembler
  import opened Overlay
  import opened PendingBlocks
  import opened Rebuild
  import opened Refinement
  import opened Ordering

  // ---------------------------------------------------------------------------------------
  // Plans of a list and of a longer one
  // ---------------------------------------------------------------------------------------

  lemma DecodePrefix(spec: Spec, a: seq<Bytes>, b: seq<Bytes>)
    requires a <= b
    requires DecodeAll(spec, a).Some? && DecodeAll(spec, b).Some?
    ensures DecodeAll(spec, a).value <= DecodeAll(spec, b).value
  {
    var x, y := DecodeAll(spec, a).value, DecodeAll(spec, b).value;
    forall i | 0 <= i < |x|
      ensures x[i] == y[i]
    {
      assert Some(x[i]) == spec.decode(a[i]) == spec.decode(b[i]) == Some(y[i]);
    }
  }

  lemma SendersPrefix(rules: Rules, known: map<Hash, Address>, a: seq<Tx>, b: seq<Tx>)
    requires a <= b
    requires RecoverSenders(rules, known, a).Some? && RecoverSenders(rules, known, b).Some?
    ensures RecoverSenders(rules, known, a).value <= RecoverSenders(rules, known, b).value
  {
    var x, y := RecoverSenders(rules, known, a).value, RecoverSenders(rules, known, b).value;
    forall i | 0 <= i < |x|
      ensures x[i] == y[i]
    {
      assert Some(x[i]) == Recover(rules, known, a[i]) == Recover(rules, known, b[i]) == Some(y[i]);
    }
  }

  /** The producer's outcomes for these transactions are the same in both receipt maps. */
  ghost predicate SameOutcomes(txs: seq<Tx>, a: map<Hash, Receipt>, b: map<Hash, Receipt>) {
    forall t :: t in txs && t.hash in a && t.hash in b ==> a[t.hash].success == b[t.hash].success
  }

  /** The block context of an earlier list against that of a longer one. */
  ghost predicate ContextGrows(cp: BlockContext, cl: BlockContext) {
    && cp.env == cl.env
    && |cp.txs| == |cp.senders| && |cl.txs| == |cl.senders|
    && cp.txs <= cl.txs && cp.senders <= cl.senders
  }

  lemma {:induction false} MatchTxs(rules: Rules, cp: BlockContext, cl: BlockContext, i: nat,
                                    gp: nat, gl: nat, fp: nat, fl: nat, np: Script, nl: Script)
    requires ContextGrows(cp, cl) && i <= |cp.txs|
    requires np.Finish? || (|cp.txs| == |cl.txs| && Matches(np, nl))
    ensures Matches(PlanTxs(rules, cp, i, gp, fp, np), PlanTxs(rules, cl, i, gl, fl, nl))
    ensures SameOutcomes(cp.txs, cp.receipts, cl.receipts) && (np.Finish? || Kept(np, nl))
            ==> Kept(PlanTxs(rules, cp, i, gp, fp, np), PlanTxs(rules, cl, i, gl, fl, nl))
    decreases |cp.txs| - i
  {
    if i < |cp.txs| {
      var tx := cp.txs[i];
      assert cl.txs[i] == tx && cp.senders[i] == cl.senders[i];
      if tx.hash in cp.receipts && tx.hash in cl.receipts
         && cp.receipts[tx.hash].cumulativeGas >= gp && cl.receipts[tx.hash].cumulativeGas >= gl {
        var rp, rl := cp.receipts[tx.hash], cl.receipts[tx.hash];
        MatchTxs(rules, cp, cl, i + 1, rp.cumulativeGas, rl.cumulativeGas, fp + |rp.logs|, fl + |rl.logs|, np, nl);
      }
    }
  }

  lemma MatchBody(rules: Rules, known: map<Hash, Address>, world: World, gp: seq<FlashBlock>, gl: seq<FlashBlock>,
                  bp: Block, bl: Block, env: BlockEnv, np: Script, nl: Script)
    requires bp.transactions <= bl.transactions
    requires np.Finish? || (|bp.transactions| == |bl.transactions| && Matches(np, nl))
    ensures Matches(PlanBody(rules, known, world, gp, bp, env, np), PlanBody(rules, known, world, gl, bl, env, nl))
    ensures SameOutcomes(bp.transactions, MergedReceipts(gp), MergedReceipts(gl)) && (np.Finish? || Kept(np, nl))
            ==> Kept(PlanBody(rules, known, world, gp, bp, env, np), PlanBody(rules, known, world, gl, bl, env, nl))
  {
    var sp, sl := RecoverSenders(rules, known, bp.transactions), RecoverSenders(rules, known, bl.transactions);
    if sp.Some? && sl.Some? {
      SendersPrefix(rules, known, bp.transactions, bl.transactions);
      var cp := BlockContext(env, bp.header, bp.transactions, sp.value, MergedReceipts(gp), MergedBalances(gp));
      var cl := BlockContext(env, bl.header, bl.transactions, sl.value, MergedReceipts(gl), MergedBalances(gl));
      MatchTxs(rules, cp, cl, 0, 0, 0, 0, 0, np, nl);
    }
  }

  lemma PayloadsPrefix(a: seq<FlashBlock>, b: seq<FlashBlock>)
    requires a <= b
    ensures Payloads(a) <= Payloads(b)
  {
    assert a + b[|a|..] == b;
    PayloadsAppend(a, b[|a|..]);
  }

  /** For the last block of `p`: the outcomes reported by `p` are those reported by `l`. Only
      that block can still receive a receipt. A caller can check it before the build. */
  ghost predicate StatusesKept(spec: Spec, p: seq<FlashBlock>, l: seq<FlashBlock>) {
    p != [] ==>
      var n := p[|p| - 1].meta.blockNumber;
      var txs := DecodeAll(spec, Payloads(OfBlock(p, n)));
      txs.Some? ==> SameOutcomes(txs.value, MergedReceipts(OfBlock(p, n)), MergedReceipts(OfBlock(l, n)))
  }

  lemma StatusesKeptTail(spec: Spec, p: seq<FlashBlock>, l: seq<FlashBlock>)
    requires Ordered(l) && p <= l && p != []
    ensures var n := MinBlock(p);
            && (Above(p, n) != [] ==>
                  (StatusesKept(spec, p, l) <==> StatusesKept(spec, Above(p, n), Above(l, n))))
            && (Above(p, n) == [] ==> p[|p| - 1].meta.blockNumber == n)
  {
    hide MinBlock, StatusesKept, OfBlock, Above;
    PrefixOrdered(p, l);
    OrderedMin(p);
    var n := MinBlock(p);
    var k := CutExists(p, n);
    CutGroups(p, n, k);
    if k < |p| {
      var last := p[|p| - 1];
      assert p[k..][|p| - k - 1] == last && last.meta.blockNumber > n;
      OfBlockAbove(p, n, last.meta.blockNumber);
      OfBlockAbove(l, n, last.meta.blockNumber);
      SameLastGroup(spec, p, l, Above(p, n), Above(l, n));
    } else {
      assert p[k..] == [] && p[k - 1].meta.blockNumber == n;
    }
  }

  /** Only the last block's groups matter. */
  lemma SameLastGroup(spec: Spec, p: seq<FlashBlock>, l: seq<FlashBlock>, q: seq<FlashBlock>, m: seq<FlashBlock>)
    requires p != [] && q != [] && p[|p| - 1].meta.blockNumber == q[|q| - 1].meta.blockNumber
    requires var n := p[|p| - 1].meta.blockNumber;
             OfBlock(p, n) == OfBlock(q, n) && OfBlock(l, n) == OfBlock(m, n)
    ensures StatusesKept(spec, p, l) <==> StatusesKept(spec, q, m)
  {
    hide OfBlock, DecodeAll, MergedReceipts, Payloads, SameOutcomes;
  }

  lemma AssembledGrows(spec: Spec, gp: seq<FlashBlock>, gl: seq<FlashBlock>)
    requires gp <= gl && Assemble(spec, gp).Ok? && Assemble(spec, gl).Ok?
    ensures gp[0] == gl[0]
    ensures Assemble(spec, gp).value.transactions <= Assemble(spec, gl).value.transactions
    ensures Assemble(spec, gp).value.header.slotNumber == Assemble(spec, gl).value.header.slotNumber
  {
    PayloadsPrefix(gp, gl);
    DecodePrefix(spec, Payloads(gp), Payloads(gl));
  }

  function BlockScript(rules: Rules, known: map<Hash, Address>, world: World, group: seq<FlashBlock>,
                       parent: Header, next: Script): Script
    requires Assemble(rules.spec, group).Ok?
  {
    var block, base := Assemble(rules.spec, group).value, group[0].base.value;
    OpenBlock(group, block.header, base.blockNumber - 1, base.parentHash,
              PlanBody(rules, known, world, group, block, EnvOf(parent, group, block), next))
  }

  lemma PlanIsBlockScript(rules: Rules, known: map<Hash, Address>, world: World, fbs: seq<FlashBlock>, parent: Header)
    requires fbs != []
    ensures var group := OfBlock(fbs, MinBlock(fbs));
            var assembled := Assemble(rules.spec, group);
            PlanBlocks(rules, known, world, fbs, parent) ==
            if assembled.Err? then Abort(assembled.error)
            else BlockScript(rules, known, world, group, parent,
                             PlanBlocks(rules, known, world, Above(fbs, MinBlock(fbs)), assembled.value.header))
  {
    hide PlanBlocks, PlanBody, Assemble, MinBlock, OfBlock, Above;
    PlanUnfolds(rules, known, world, fbs, parent);
  }

  lemma MatchBlock(rules: Rules, known: map<Hash, Address>, world: World, gp: seq<FlashBlock>, gl: seq<FlashBlock>,
                   parent: Header, np: Script, nl: Script)
    requires gp <= gl && Assemble(rules.spec, gp).Ok? && Assemble(rules.spec, gl).Ok?
    requires np.Finish? || (gp == gl && Matches(np, nl))
    ensures Matches(BlockScript(rules, known, world, gp, parent, np), BlockScript(rules, known, world, gl, parent, nl))
    ensures SameOutcomes(Assemble(rules.spec, gp).value.transactions, MergedReceipts(gp), MergedReceipts(gl))
            && (np.Finish? || Kept(np, nl))
            ==> Kept(BlockScript(rules, known, world, gp, parent, np), BlockScript(rules, known, world, gl, parent, nl))
  {
    hide PlanBody, Assemble;
    AssembledGrows(rules.spec, gp, gl);
    var bp, bl := Assemble(rules.spec, gp).value, Assemble(rules.spec, gl).value;
    assert EnvOf(parent, gp, bp) == EnvOf(parent, gl, bl);
    MatchBody(rules, known, world, gp, gl, bp, bl, EnvOf(parent, gp, bp), np, nl);
  }

  lemma {:induction false} MatchPlans(rules: Rules, known: map<Hash, Address>, world: World,
                                      p: seq<FlashBlock>, l: seq<FlashBlock>, parent: Header)
    requires Ordered(l) && p <= l
    ensures Matches(PlanBlocks(rules, known, world, p, parent), PlanBlocks(rules, known, world, l, parent))
    ensures StatusesKept(rules.spec, p, l)
            ==> Kept(PlanBlocks(rules, known, world, p, parent), PlanBlocks(rules, known, world, l, parent))
    decreases |p|
  {
    if p == [] {
      return;
    }
    hide PlanBlocks, BlockScript, StatusesKept, MinBlock, OfBlock, Above, MergedReceipts, Assemble;
    PlanIsBlockScript(rules, known, world, p, parent);
    PlanIsBlockScript(rules, known, world, l, parent);
    PrefixGroups(p, l);
    StatusesKeptTail(rules.spec, p, l);
    if StatusesKept(rules.spec, p, l) {
      LastGroupOutcomes(rules.spec, p, l);
    }
    GroupNotEmpty(p);
    var n := MinBlock(p);
    var ap, al, gp, gl := Assemble(rules.spec, OfBlock(p, n)), Assemble(rules.spec, OfBlock(l, n)), OfBlock(p, n), OfBlock(l, n);
    if ap.Ok? && al.Ok? {
      var np := PlanBlocks(rules, known, world, Above(p, n), ap.value.header);
      var nl := PlanBlocks(rules, known, world, Above(l, n), al.value.header);
      if Above(p, n) != [] {
        MatchPlans(rules, known, world, Above(p, n), Above(l, n), ap.value.header);
      } else {
        EmptyPlan(rules, known, world, ap.value.header);
      }
      MatchBlock(rules, known, world, gp, gl, parent, np, nl);
    }
  }

  lemma EmptyPlan(rules: Rules, known: map<Hash, Address>, world: World, parent: Header)
    ensures PlanBlocks(rules, known, world, [], parent) == Finish
  {
  }

  /** Outcomes of the first group: the group is complete, or it is the last of `p`. */
  lemma LastGroupOutcomes(spec: Spec, p: seq<FlashBlock>, l: seq<FlashBlock>)
    requires Ordered(l) && p <= l && p != []
    requires StatusesKept(spec, p, l)
    ensures var gp, gl := OfBlock(p, MinBlock(p)), OfBlock(l, MinBlock(p));
            Assemble(spec, gp).Ok? ==>
              SameOutcomes(Assemble(spec, gp).value.transactions, MergedReceipts(gp), MergedReceipts(gl))
  {
    hide MinBlock, OfBlock, Above, MergedReceipts, DecodeAll, Payloads;
    PrefixGroups(p, l);
    StatusesKeptTail(spec, p, l);
  }

  // ---------------------------------------------------------------------------------------
  // A full run that finishes has compared every outcome
  // ---------------------------------------------------------------------------------------

  predicate Complete(script: Script)
    decreases script
  {
    match script
    case Finish => true
    case Abort(_) => false
    case OpenBlock(_, _, _, _, next) => Complete(next)
    case SystemCalls(_, next) => Complete(next)
    case Execute(_, next) => Complete(next)
    case CloseBlock(_, next) => Complete(next)
  }

  lemma {:induction false} DoneIsComplete(rules: Rules, world: World, reused: map<Hash, Delta>, script: Script, p: Progress)
    requires Run(rules, world, reused, script, p).Ok?
    ensures Complete(script)
    decreases script
  {
    match script
    case Finish =>
    case Abort(_) =>
    case OpenBlock(group, header, n, h, next) =>
      DoneIsComplete(rules, world, reused, next, OpenStep(group, header, n, h, p));
    case SystemCalls(writes, next) =>
      DoneIsComplete(rules, world, reused, next, SystemStep(world, writes, p));
    case Execute(step, next) =>
      DoneIsComplete(rules, world, reused, next, ExecuteStep(rules, world, reused, step, p).value);
    case CloseBlock(balances, next) =>
      DoneIsComplete(rules, world, reused, next, CloseStep(balances, p));
  }

  lemma {:induction false} KeptTxs(rules: Rules, cp: BlockContext, cl: BlockContext, i: nat,
                                   gp: nat, gl: nat, fp: nat, fl: nat, np: Script, nl: Script)
    requires ContextGrows(cp, cl) && i <= |cp.txs|
    requires np.Finish? || (|cp.txs| == |cl.txs| && Matches(np, nl))
    requires Complete(PlanTxs(rules, cp, i, gp, fp, np)) && Complete(PlanTxs(rules, cl, i, gl, fl, nl))
    requires Matches(PlanTxs(rules, cp, i, gp, fp, np), PlanTxs(rules, cl, i, gl, fl, nl))
    requires Kept(PlanTxs(rules, cp, i, gp, fp, np), PlanTxs(rules, cl, i, gl, fl, nl))
    ensures forall j :: i <= j < |cp.txs| ==>
              cp.txs[j].hash in cp.receipts && cp.txs[j].hash in cl.receipts
              && cp.receipts[cp.txs[j].hash].success == cl.receipts[cp.txs[j].hash].success
    ensures np.Finish? || (Complete(np) && Complete(nl) && Kept(np, nl))
    decreases |cp.txs| - i
  {
    if i < |cp.txs| {
      var tx := cp.txs[i];
      assert cl.txs[i] == tx && cp.senders[i] == cl.senders[i];
      var rp, rl := cp.receipts[tx.hash], cl.receipts[tx.hash];
      KeptTxs(rules, cp, cl, i + 1, rp.cumulativeGas, rl.cumulativeGas, fp + |rp.logs|, fl + |rl.logs|, np, nl);
    }
  }

  lemma KeptBody(rules: Rules, known: map<Hash, Address>, world: World, gp: seq<FlashBlock>, gl: seq<FlashBlock>,
                 bp: Block, bl: Block, env: BlockEnv, np: Script, nl: Script)
    requires bp.transactions <= bl.transactions
    requires np.Finish? || (|bp.transactions| == |bl.transactions| && Matches(np, nl))
    requires var sp, sl := PlanBody(rules, known, world, gp, bp, env, np), PlanBody(rules, known, world, gl, bl, env, nl);
             Complete(sp) && Complete(sl) && Matches(sp, sl) && Kept(sp, sl)
    ensures SameOutcomes(bp.transactions, MergedReceipts(gp), MergedReceipts(gl))
    ensures np.Finish? || (Complete(np) && Complete(nl) && Kept(np, nl))
  {
    hide MergedReceipts, MergedBalances, RecoverSenders;
    var sp, sl := RecoverSenders(rules, known, bp.transactions), RecoverSenders(rules, known, bl.transactions);
    SendersPrefix(rules, known, bp.transactions, bl.transactions);
    var cp := BlockContext(env, bp.header, bp.transactions, sp.value, MergedReceipts(gp), MergedBalances(gp));
    var cl := BlockContext(env, bl.header, bl.transactions, sl.value, MergedReceipts(gl), MergedBalances(gl));
    KeptTxs(rules, cp, cl, 0, 0, 0, 0, 0, np, nl);
  }

  lemma KeptBlock(rules: Rules, known: map<Hash, Address>, world: World, gp: seq<FlashBlock>, gl: seq<FlashBlock>,
                  parent: Header, np: Script, nl: Script)
    requires gp <= gl && Assemble(rules.spec, gp).Ok? && Assemble(rules.spec, gl).Ok?
    requires np.Finish? || (gp == gl && Matches(np, nl))
    requires var sp, sl := BlockScript(rules, known, world, gp, parent, np), BlockScript(rules, known, world, gl, parent, nl);
             Complete(sp) && Complete(sl) && Matches(sp, sl) && Kept(sp, sl)
    ensures SameOutcomes(Assemble(rules.spec, gp).value.transactions, MergedReceipts(gp), MergedReceipts(gl))
    ensures np.Finish? || (Complete(np) && Complete(nl) && Kept(np, nl))
  {
    hide PlanBody, Assemble;
    AssembledGrows(rules.spec, gp, gl);
    var bp, bl := Assemble(rules.spec, gp).value, Assemble(rules.spec, gl).value;
    assert EnvOf(parent, gp, bp) == EnvOf(parent, gl, bl);
    KeptBody(rules, known, world, gp, gl, bp, bl, EnvOf(parent, gp, bp), np, nl);
  }

  lemma {:induction false} KeptPlans(rules: Rules, known: map<Hash, Address>, world: World,
                                     p: seq<FlashBlock>, l: seq<FlashBlock>, parent: Header)
    requires Ordered(l) && p <= l
    requires var sp, sl := PlanBlocks(rules, known, world, p, parent), PlanBlocks(rules, known, world, l, parent);
             Complete(sp) && Complete(sl) && Matches(sp, sl) && Kept(sp, sl)
    ensures StatusesKept(rules.spec, p, l)
    decreases |p|
  {
    if p == [] {
      return;
    }
    hide PlanBlocks, BlockScript, StatusesKept, MinBlock, OfBlock, Above, MergedReceipts, Assemble;
    PlanIsBlockScript(rules, known, world, p, parent);
    PlanIsBlockScript(rules, known, world, l, parent);
    PrefixGroups(p, l);
    StatusesKeptTail(rules.spec, p, l);
    GroupNotEmpty(p);
    var n := MinBlock(p);
    var ap, al, gp, gl := Assemble(rules.spec, OfBlock(p, n)), Assemble(rules.spec, OfBlock(l, n)), OfBlock(p, n), OfBlock(l, n);
    var np := PlanBlocks(rules, known, world, Above(p, n), ap.value.header);
    var nl := PlanBlocks(rules, known, world, Above(l, n), al.value.header);
    if Above(p, n) != [] {
      MatchPlans(rules, known, world, Above(p, n), Above(l, n), ap.value.header);
      NotEmptyPlan(rules, known, world, Above(p, n), ap.value.header);
      KeptBlock(rules, known, world, gp, gl, parent, np, nl);
      KeptPlans(rules, known, world, Above(p, n), Above(l, n), ap.value.header);
    } else {
      EmptyPlan(rules, known, world, ap.value.header);
      KeptBlock(rules, known, world, gp, gl, parent, np, nl);
      LastGroupOnly(rules.spec, p, l);
    }
  }

  lemma NotEmptyPlan(rules: Rules, known: map<Hash, Address>, world: World, fbs: seq<FlashBlock>, parent: Header)
    requires fbs != []
    ensures !PlanBlocks(rules, known, world, fbs, parent).Finish?
  {
    PlanIsBlockScript(rules, known, world, fbs, parent);
  }

  lemma LastGroupOnly(spec: Spec, p: seq<FlashBlock>, l: seq<FlashBlock>)
    requires p != [] && p[|p| - 1].meta.blockNumber == MinBlock(p)
    requires var gp, gl := OfBlock(p, MinBlock(p)), OfBlock(l, MinBlock(p));
             Assemble(spec, gp).Ok? &&
             SameOutcomes(Assemble(spec, gp).value.transactions, MergedReceipts(gp), MergedReceipts(gl))
    ensures StatusesKept(spec, p, l)
  {
  }

  // ---------------------------------------------------------------------------------------
  // What every plan promises
  // ---------------------------------------------------------------------------------------

  lemma {:induction false} TxsAreSound(rules: Rules, ctx: BlockContext, i: nat, gas: nat, firstLog: nat, next: Script)
    requires i <= |ctx.txs| == |ctx.senders|
    requires forall j :: 0 <= j < |ctx.txs| ==> rules.recover(ctx.txs[j]) == Some(ctx.senders[j])
    requires SoundScript(rules, next) && CallsSystem(rules, next)
    ensures SoundScript(rules, PlanTxs(rules, ctx, i, gas, firstLog, next))
    ensures CallsSystem(rules, PlanTxs(rules, ctx, i, gas, firstLog, next))
    decreases |ctx.txs| - i
  {
    if i < |ctx.txs| && ctx.txs[i].hash in ctx.receipts && gas <= ctx.receipts[ctx.txs[i].hash].cumulativeGas {
      var receipt := ctx.receipts[ctx.txs[i].hash];
      TxsAreSound(rules, ctx, i + 1, receipt.cumulativeGas, firstLog + |receipt.logs|, next);
    }
  }

  lemma BodyIsSound(rules: Rules, world: World, group: seq<FlashBlock>, block: Block, env: BlockEnv, next: Script)
    requires SystemStorageReserved(rules, world)
    requires SoundScript(rules, next) && CallsSystem(rules, next)
    ensures SoundScript(rules, PlanBody(rules, map[], world, group, block, env, next))
    ensures CallsSystem(rules, PlanBody(rules, map[], world, group, block, env, next))
  {
    var senders := RecoverSenders(rules, map[], block.transactions);
    if senders.Some? {
      var ctx := BlockContext(env, block.header, block.transactions, senders.value,
                              MergedReceipts(group), MergedBalances(group));
      forall j | 0 <= j < |ctx.txs|
        ensures rules.recover(ctx.txs[j]) == Some(ctx.senders[j])
      {
        assert Recover(rules, map[], ctx.txs[j]) == Some(ctx.senders[j]);
      }
      TxsAreSound(rules, ctx, 0, 0, 0, next);
    }
  }

  lemma {:induction false} PlansAreSound(rules: Rules, world: World, fbs: seq<FlashBlock>, parent: Header)
    requires SystemStorageReserved(rules, world)
    ensures SoundScript(rules, PlanBlocks(rules, map[], world, fbs, parent))
    ensures CallsSystem(rules, PlanBlocks(rules, map[], world, fbs, parent))
    decreases |fbs|
  {
    if fbs == [] {
      return;
    }
    hide PlanBlocks, PlanBody, MinBlock, OfBlock, Above, Assemble;
    PlanUnfolds(rules, map[], world, fbs, parent);
    GroupNotEmpty(fbs);
    var group := OfBlock(fbs, MinBlock(fbs));
    var assembled := Assemble(rules.spec, group);
    if assembled.Ok? {
      PlansAreSound(rules, world, Above(fbs, MinBlock(fbs)), assembled.value.header);
      BodyIsSound(rules, world, group, assembled.value, EnvOf(parent, group, assembled.value),
                  PlanBlocks(rules, map[], world, Above(fbs, MinBlock(fbs)), assembled.value.header));
    }
  }

  lemma {:induction false} SameSenders(rules: Rules, known: map<Hash, Address>, txs: seq<Tx>)
    requires SoundSenders(rules, known)
    ensures RecoverSenders(rules, known, txs) == RecoverSenders(rules, map[], txs)
  {
    if txs != [] {
      SameSenders(rules, known, txs[..|txs| - 1]);
      var last := txs[|txs| - 1];
      assert last == Tx(last.hash);
    }
  }

  /** Reusing the senders a snapshot recovered changes no plan. */
  lemma {:induction false} SamePlans(rules: Rules, known: map<Hash, Address>, world: World, fbs: seq<FlashBlock>, parent: Header)
    requires SoundSenders(rules, known)
    ensures PlanBlocks(rules, known, world, fbs, parent) == PlanBlocks(rules, map[], world, fbs, parent)
    decreases |fbs|
  {
    if fbs == [] {
      return;
    }
    hide PlanBlocks, MinBlock, OfBlock, Above, Assemble, RecoverSenders;
    PlanUnfolds(rules, known, world, fbs, parent);
    PlanUnfolds(rules, map[], world, fbs, parent);
    GroupNotEmpty(fbs);
    var assembled := Assemble(rules.spec, OfBlock(fbs, MinBlock(fbs)));
    if assembled.Ok? {
      SameSenders(rules, known, assembled.value.transactions);
      SamePlans(rules, known, world, Above(fbs, MinBlock(fbs)), assembled.value.header);
    }
  }

  // ---------------------------------------------------------------------------------------
  // The theorem
  // ---------------------------------------------------------------------------------------

  lemma SealedIsDone(r: Result<Progress, Error>, anchor: Header)
    ensures SealRun(r, anchor).Ok? ==>
              Done(r) && SealRun(r, anchor).value.states == r.value.draft.states
              && SealRun(r, anchor).value.senders == r.value.draft.senders
              && SealRun(r, anchor).value.bundle == r.value.db.bundle
  {
  }

  /** `prev` was built from nothing on `anchor` out of `p`, a prefix of the ordered list `l`.
      Building `l` from `prev` then succeeds exactly when building it from nothing does, provided
      the producer kept the outcomes it reported for `p`; and the two results are the same
      snapshot: bundle, transactions, receipts, states, senders and headers. Had the producer
      changed an outcome, the full build would have failed. */
  lemma IncrementalRefinesFull(rules: Rules, anchor: Header, p: seq<FlashBlock>, prev: Snapshot, l: seq<FlashBlock>)
    requires SystemStorageReserved(rules, rules.stateOf(anchor))
    requires Ordered(l) && p <= l
    requires BuildOn(rules, anchor, None, p) == Ok(prev)
    ensures var full, inc := BuildOn(rules, anchor, None, l), BuildOn(rules, anchor, Some(prev), l);
            (full.Ok? <==> inc.Ok? && StatusesKept(rules.spec, p, l)) && (full.Ok? ==> inc == full)
  {
    hide PlanBlocks, SystemStorageReserved, StatusesKept, Absorbs, SoundSenders, Ordered;
    var world := rules.stateOf(anchor);
    var sp, sl := PlanBlocks(rules, map[], world, p, anchor), PlanBlocks(rules, map[], world, l, anchor);
    var start := Start(None);
    var earlier := Run(rules, world, map[], sp, start);
    SealedIsDone(earlier, anchor);
    PlansAreSound(rules, world, p, anchor);
    PlansAreSound(rules, world, l, anchor);
    MatchPlans(rules, map[], world, p, l, anchor);
    EmptyIsSound(rules);
    RunKeeps(rules, world, sp, start);
    SamePlans(rules, prev.senders, world, l, anchor);
    Simulate(rules, world, sp, sl, earlier.value, start, start, Start(Some(prev)), []);
    var f := Run(rules, world, map[], sl, start);
    SealedIsDone(f, anchor);
    SealedIsDone(Run(rules, world, prev.states, sl, Start(Some(prev))), anchor);
    if Done(f) {
      DoneIsComplete(rules, world, map[], sp, start);
      DoneIsComplete(rules, world, map[], sl, start);
      KeptPlans(rules, map[], world, p, l, anchor);
    }
  }

  lemma EmptyIsSound(rules: Rules)
    ensures SoundDraft(rules, EMPTY_DRAFT)
    ensures Absorbs(EMPTY_BUNDLE, [])
  {
  }

  /** Rebuilding the same list from its own snapshot, as `Continue` does, changes no answer. */
  lemma ContinueChangesNothing(rules: Rules, anchor: Header, prev: Snapshot, l: seq<FlashBlock>)
    requires SystemStorageReserved(rules, rules.stateOf(anchor))
    requires Ordered(l)
    requires BuildOn(rules, anchor, None, l) == Ok(prev)
    ensures BuildOn(rules, anchor, Some(prev), l) == Ok(prev)
  {
    IncrementalRefinesFull(rules, anchor, l, prev, l);
  }

  // ---------------------------------------------------------------------------------------
  // The producer's promise
  // ---------------------------------------------------------------------------------------

  /** Inside one block no hash gets two different receipts. */
  ghost predicate ReceiptsAgree(fbs: set<FlashBlock>) {
    forall a, b, h :: a in fbs && b in fbs && a.meta.blockNumber == b.meta.blockNumber
                      && h in a.meta.receipts && h in b.meta.receipts
                      ==> a.meta.receipts[h] == b.meta.receipts[h]
  }

  lemma MergedFrom(fbs: seq<FlashBlock>, h: Hash) returns (fb: FlashBlock)
    requires h in MergedReceipts(fbs)
    ensures fb in fbs && h in fb.meta.receipts && fb.meta.receipts[h] == MergedReceipts(fbs)[h]
  {
    if h in MergedReceipts(fbs[1..]) {
      fb := MergedFrom(fbs[1..], h);
    } else {
      fb := fbs[0];
    }
  }

  lemma AgreementKeepsStatuses(spec: Spec, p: seq<FlashBlock>, l: seq<FlashBlock>, sent: set<FlashBlock>)
    requires p <= l && (forall fb :: fb in l ==> fb in sent) && ReceiptsAgree(sent)
    ensures StatusesKept(spec, p, l)
  {
    if p != [] {
      var n := p[|p| - 1].meta.blockNumber;
      var gp, gl := OfBlock(p, n), OfBlock(l, n);
      OfBlockMembers(p, n);
      OfBlockMembers(l, n);
      forall h | h in MergedReceipts(gp) && h in MergedReceipts(gl)
        ensures MergedReceipts(gp)[h] == MergedReceipts(gl)[h]
      {
        var a := MergedFrom(gp, h);
        var b := MergedFrom(gl, h);
        assert a in l && b in l;
      }
    }
  }

  // ---------------------------------------------------------------------------------------
  // A changed outcome
  // ---------------------------------------------------------------------------------------

  const FLIPPED: Tx := Tx(7)
  const NOTHING := Delta(map[], map[])

  /** A chain on which every encoding is one transaction, and it succeeds. */
  const SIMPLE := Rules(
    Spec(raw => Some(FLIPPED), base => true, t => false, t => false, txs => 0, ws => 0, rs => 0, rs => None),
    tx => Some(0),
    (tx, fee) => None,
    h => World(a => None, (a, k) => 0, h => None),
    env => true,
    {},
    (w, env) => Some([]),
    (w, db, env, sender, tx) => Some(Outcome(true, NOTHING)))

  /** A flashblock of block 1 that reports the transaction with this success flag. */
  function Reporting(index: nat, base: Option<Base>, payloads: seq<Bytes>, success: bool): FlashBlock {
    FlashBlock(0, index, base, Diff(0, 0, 0, 0, 0, payloads, [], 0, 0, None),
               Metadata(1, map[], map[FLIPPED.hash := Receipt(success, 5, [])]))
  }

  lemma OneBlockPlan(rules: Rules, known: map<Hash, Address>, world: World, reused: map<Hash, Delta>,
                     fbs: seq<FlashBlock>, anchor: Header, p: Progress)
    requires fbs != [] && forall fb :: fb in fbs ==> fb.meta.blockNumber == 1
    ensures PlanBlocks(rules, known, world, fbs, anchor) ==
            if Assemble(rules.spec, fbs).Err? then Abort(Assemble(rules.spec, fbs).error)
            else
              var block, base := Assemble(rules.spec, fbs).value, fbs[0].base.value;
              OpenBlock(fbs, block.header, base.blockNumber - 1, base.parentHash,
                        PlanBody(rules, known, world, fbs, block, EnvOf(anchor, fbs, block), Finish))
  {
    hide Assemble, PlanBody, MinBlock, OfBlock, Above;
    assert Ordered(fbs);
    OrderedMin(fbs);
    CutGroups(fbs, 1, |fbs|);
    assert fbs[..|fbs|] == fbs && fbs[|fbs|..] == [];
    PlanUnfolds(rules, known, world, fbs, anchor);
  }

  /** The one block both lists assemble to, whatever the flags say. */
  lemma SimpleBlock(fbs: seq<FlashBlock>, base: Base)
    requires fbs != [] && fbs[0].base == Some(base) && base.blockNumber == 1
    requires |Payloads(fbs)| == 1
    ensures Assemble(SIMPLE.spec, fbs).Ok? && Assemble(SIMPLE.spec, fbs).value.transactions == [FLIPPED]
  {
    var raws := Payloads(fbs);
    assert raws[1..] == [];
    assert DecodeAll(SIMPLE.spec, raws[1..]) == Some([]);
  }

  /** Building that block: the transaction runs only when it is not reused, and only then is its
      outcome compared with the reported one. */
  lemma {:induction false} SimpleBuild(anchor: Header, prev: Option<Snapshot>, fbs: seq<FlashBlock>, base: Base, success: bool)
    requires fbs != [] && fbs[0].base == Some(base) && base.blockNumber == 1
    requires forall fb :: fb in fbs ==> fb.meta.blockNumber == 1
    requires |Payloads(fbs)| == 1
    requires FLIPPED.hash in MergedReceipts(fbs) && MergedReceipts(fbs)[FLIPPED.hash] == Receipt(success, 5, [])
    ensures var r := BuildOn(SIMPLE, anchor, prev, fbs);
            if success || FLIPPED.hash in Reused(prev) then r.Ok? && FLIPPED.hash in r.value.states
            else r == Err(StatusMismatch(FLIPPED.hash, false))
  {
    hide PlanBlocks, PlanBody, PlanTxs, Assemble, Run, Payloads, MergedReceipts, MergedBalances;
    var world, known, reused := SIMPLE.stateOf(anchor), KnownSenders(prev), Reused(prev);
    SimpleBlock(fbs, base);
    OneBlockPlan(SIMPLE, known, world, reused, fbs, anchor, Start(prev));
    var block := Assemble(SIMPLE.spec, fbs).value;
    var env := EnvOf(anchor, fbs, block);
    var opened' := OpenStep(fbs, block.header, base.blockNumber - 1, base.parentHash, Start(prev));
    RunOpens(SIMPLE, world, reused, PlanBlocks(SIMPLE, known, world, fbs, anchor), Start(prev));
    UnfoldBody(SIMPLE, known, world, reused, fbs, block, env, Finish, opened');
    SimpleSender(known);
    var senders := RecoverSenders(SIMPLE, known, block.transactions).value;
    var ctx := BlockContext(env, block.header, block.transactions, senders, MergedReceipts(fbs), MergedBalances(fbs));
    SimpleTx(world, reused, ctx, success, SystemStep(world, [], opened'));
  }

  lemma SimpleSender(known: map<Hash, Address>)
    ensures RecoverSenders(SIMPLE, known, [FLIPPED]).Some?
  {
    assert [FLIPPED][..0] == [];
  }

  lemma SimpleTx(world: World, reused: map<Hash, Delta>, ctx: BlockContext, success: bool, p: Progress)
    requires ctx.txs == [FLIPPED] && |ctx.senders| == 1
    requires FLIPPED.hash in ctx.receipts && ctx.receipts[FLIPPED.hash] == Receipt(success, 5, [])
    requires p.draft.byHash == map[] && p.draft.duplicate.None?
    ensures var r := Run(SIMPLE, world, reused, PlanTxs(SIMPLE, ctx, 0, 0, 0, Finish), p);
            if success || FLIPPED.hash in reused then
              && r.Ok? && r.value.draft.duplicate.None? && FLIPPED.hash in r.value.draft.states
              && r.value.draft.headers == p.draft.headers && r.value.draft.flashblocks == p.draft.flashblocks
            else r == Err(StatusMismatch(FLIPPED.hash, false))
  {
    hide StepOf;
    UnfoldTx(SIMPLE, world, reused, ctx, 0, 0, 0, Finish, p);
    var step := StepOf(SIMPLE, ctx, 0, 0, 0);
    SimpleStep(ctx, success);
    assert PlanTxs(SIMPLE, ctx, 1, 5, 0, Finish) == CloseBlock(ctx.balances, Finish);
  }

  lemma SimpleStep(ctx: BlockContext, success: bool)
    requires ctx.txs == [FLIPPED] && |ctx.senders| == 1
    requires FLIPPED.hash in ctx.receipts && ctx.receipts[FLIPPED.hash] == Receipt(success, 5, [])
    ensures var step := StepOf(SIMPLE, ctx, 0, 0, 0);
            step.tx == FLIPPED && step.rpc.tx == FLIPPED && step.expected == success
  {
  }

  /** The failing input: one block with one transaction, reported successful, and then a
      flashblock of the same block that reports it failed. The build that continues from the
      first flashblock succeeds, and serves the flipped receipt; the full build refuses it. */
  lemma FlippedOutcomeSlipsThrough(anchor: Header, base: Base)
    requires base.blockNumber == 1
    ensures var a, b := Reporting(0, Some(base), [[]], true), Reporting(1, None, [], false);
            var prev := BuildOn(SIMPLE, anchor, None, [a]);
            && SystemStorageReserved(SIMPLE, SIMPLE.stateOf(anchor))
            && prev.Ok? && !StatusesKept(SIMPLE.spec, [a], [a, b])
            && BuildOn(SIMPLE, anchor, Some(prev.value), [a, b]).Ok?
            && BuildOn(SIMPLE, anchor, None, [a, b]) == Err(StatusMismatch(FLIPPED.hash, false))
  {
    hide BuildOn, StatusesKept, SystemStorageReserved;
    var a, b := Reporting(0, Some(base), [[]], true), Reporting(1, None, [], false);
    TwoReports(a, b);
    SimpleBuild(anchor, None, [a], base, true);
    var prev := BuildOn(SIMPLE, anchor, None, [a]).value;
    SimpleBuild(anchor, Some(prev), [a, b], base, false);
    SimpleBuild(anchor, None, [a, b], base, false);
    SimpleIsReserved(anchor);
    if StatusesKept(SIMPLE.spec, [a], [a, b]) {
      IncrementalRefinesFull(SIMPLE, anchor, [a], prev, [a, b]);
      assert false;
    }
  }

  lemma SimpleIsReserved(anchor: Header)
    ensures SystemStorageReserved(SIMPLE, SIMPLE.stateOf(anchor))
  {
  }

  lemma TwoReports(a: FlashBlock, b: FlashBlock)
    requires b.diff.transactions == []
    ensures Payloads([a]) == Payloads([a, b]) == a.diff.transactions
    ensures MergedReceipts([a]) == a.meta.receipts && MergedReceipts([a, b]) == a.meta.receipts + b.meta.receipts
  {
    Singleton(a);
    Singleton(b);
    assert [a, b][1..] == [b];
  }
}
