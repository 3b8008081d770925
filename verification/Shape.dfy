/** Gap freedom in every reachable state. It rests on nothing but the producer numbering base and
    metadata alike: tips, reorgs, failed builds and what the node answers do not matter. */
module Shape {
  import opened Types
  import opened Validation
  import opened Assembler
  import opened Overlay
  import opened PendingBlocks
  import opened Rebuild
  import opened Ordering
  import opened Story
  import opened Sequence
  import opened Cache
  import opened Processor
  import opened Gate
  import opened Runs

  ghost predicate Numbered(produced: set<FlashBlock>) {
    forall fb :: fb in produced ==> WellNumbered(fb)
  }

  /** A gap-free snapshot of known flashblocks, as the sequence validator reads it. */
  ghost predicate Shaped(produced: set<FlashBlock>, s: Snapshot) {
    && GapFree(s) && Spans(s)
    && s.latestIndex == s.flashblocks[|s.flashblocks| - 1].index
    && s.anchor.number + 1 == s.flashblocks[0].meta.blockNumber
    && forall fb :: fb in s.flashblocks ==> fb in produced
  }

  ghost predicate ShapeInv(produced: set<FlashBlock>, st: State) {
    && (st.pending.Some? ==> Shaped(produced, st.pending.value.snapshot))
    && CacheHolds(st.cache, produced)
  }

  lemma ShapedCacheHolds(produced: set<FlashBlock>, st: State)
    requires ShapeInv(produced, st)
    ensures CacheHolds(st.cache, produced)
  {
  }

  lemma BuiltIsShaped(cfg: Config, node: Node, produced: set<FlashBlock>, prev: Option<Snapshot>, fbs: seq<FlashBlock>, s: Snapshot)
    requires Numbered(produced) && SoundNode(node)
    requires Sequential(fbs) && forall fb :: fb in fbs ==> fb in produced
    requires Build(cfg.rules, node, prev, fbs) == Ok(Some(s))
    ensures Shaped(produced, s) && s.flashblocks == fbs
    ensures node.header(s.anchor.number) == Found(s.anchor)
  {
    hide Build, BuildOn, CompleteBlock, OfBlock, Regrouped, BlockNumbers, Range;
    BuildAnchors(cfg.rules, node, prev, fbs, s);
    BuildIsGapFree(cfg.rules, s.anchor, prev, fbs, s);
    SequentialShape(fbs);
  }

  // ---------------------------------------------------------------------------------------
  // A missing canonical header comes from the anchor lookup alone
  // ---------------------------------------------------------------------------------------

  /** The two errors that make the processor cache a flashblock. */
  predicate MeansEarly(e: Error) {
    e.MissingCanonicalHeader? || e.MissingFirstFlashblock?
  }

  predicate Quiet(script: Script) {
    match script
    case Finish => true
    case Abort(e) => !MeansEarly(e)
    case OpenBlock(_, _, _, _, next) => Quiet(next)
    case SystemCalls(_, next) => Quiet(next)
    case Execute(_, next) => Quiet(next)
    case CloseBlock(_, next) => Quiet(next)
  }

  lemma {:induction false} PlanTxsIsQuiet(rules: Rules, ctx: BlockContext, i: nat, gas: nat, firstLog: nat, next: Script)
    requires i <= |ctx.txs| == |ctx.senders| && Quiet(next)
    ensures Quiet(PlanTxs(rules, ctx, i, gas, firstLog, next))
    decreases |ctx.txs| - i
  {
    if i < |ctx.txs| && ctx.txs[i].hash in ctx.receipts {
      var receipt := ctx.receipts[ctx.txs[i].hash];
      PlanTxsIsQuiet(rules, ctx, i + 1, receipt.cumulativeGas, firstLog + |receipt.logs|, next);
    }
  }

  lemma PlanBodyIsQuiet(rules: Rules, known: map<Hash, Address>, world: World, group: seq<FlashBlock>,
                        block: Block, env: BlockEnv, next: Script)
    requires Quiet(next)
    ensures Quiet(PlanBody(rules, known, world, group, block, env, next))
  {
    hide PlanTxs;
    var senders := RecoverSenders(rules, known, block.transactions);
    if senders.Some? {
      var ctx := BlockContext(env, block.header, block.transactions, senders.value,
                              MergedReceipts(group), MergedBalances(group));
      PlanTxsIsQuiet(rules, ctx, 0, 0, 0, next);
    }
  }

  lemma AssembleIsQuiet(spec: Spec, fbs: seq<FlashBlock>)
    ensures Assemble(spec, fbs).Err? ==> !MeansEarly(Assemble(spec, fbs).error)
  {
  }

  lemma {:induction false} PlanIsQuiet(rules: Rules, known: map<Hash, Address>, world: World, fbs: seq<FlashBlock>, parent: Header)
    ensures Quiet(PlanBlocks(rules, known, world, fbs, parent))
    decreases |fbs|
  {
    hide Assemble, PlanBody, MinBlock, OfBlock, Above;
    if fbs != [] {
      PlanUnfolds(rules, known, world, fbs, parent);
      GroupNotEmpty(fbs);
      var group := OfBlock(fbs, MinBlock(fbs));
      AssembleIsQuiet(rules.spec, group);
      var assembled := Assemble(rules.spec, group);
      if assembled.Ok? {
        var header := assembled.value.header;
        var rest := PlanBlocks(rules, known, world, Above(fbs, MinBlock(fbs)), header);
        PlanIsQuiet(rules, known, world, Above(fbs, MinBlock(fbs)), header);
        PlanBodyIsQuiet(rules, known, world, group, assembled.value, EnvOf(parent, group, assembled.value), rest);
      }
    }
  }

  lemma {:induction false} RunIsQuiet(rules: Rules, world: World, reused: map<Hash, Delta>, script: Script, p: Progress)
    requires Quiet(script)
    ensures Run(rules, world, reused, script, p).Err? ==>
              !MeansEarly(Run(rules, world, reused, script, p).error)
    decreases script
  {
    hide OpenStep, SystemStep, CloseStep, ListStep;
    match script
    case Finish =>
    case Abort(_) =>
    case OpenBlock(group, header, parentNumber, parentHash, next) =>
      RunIsQuiet(rules, world, reused, next, OpenStep(group, header, parentNumber, parentHash, p));
    case SystemCalls(writes, next) =>
      RunIsQuiet(rules, world, reused, next, SystemStep(world, writes, p));
    case Execute(step, next) =>
      var stepped := ExecuteStep(rules, world, reused, step, p);
      if stepped.Ok? {
        RunIsQuiet(rules, world, reused, next, stepped.value);
      }
    case CloseBlock(balances, next) =>
      RunIsQuiet(rules, world, reused, next, CloseStep(balances, p));
  }

  /** A build reports a missing canonical header exactly when the node lacks the block below the
      first flashblock. */
  lemma MissingHeaderIsTheAnchor(rules: Rules, node: Node, prev: Option<Snapshot>, fbs: seq<FlashBlock>)
    requires Sequential(fbs)
    ensures var r, n := Build(rules, node, prev, fbs), fbs[0].meta.blockNumber;
            r.Err? && r.error.MissingCanonicalHeader? <==> n > 0 && node.header(n - 1).Missing?
  {
    hide MinBlock, PlanBlocks, Run, Quiet;
    SequentialIsOrdered(fbs);
    OrderedMin(fbs);
    var n := fbs[0].meta.blockNumber;
    if n > 0 && node.header(n - 1).Found? {
      var anchor := node.header(n - 1).header;
      var world := rules.stateOf(anchor);
      PlanIsQuiet(rules, KnownSenders(prev), world, fbs, anchor);
      RunIsQuiet(rules, world, Reused(prev), PlanBlocks(rules, KnownSenders(prev), world, fbs, anchor), Start(prev));
    }
  }

  /** A gap-free list builds on the header one below its start: none exists below block 0, and it
      must be found and its state must open. */
  lemma BuildsOnAnchor(rules: Rules, node: Node, prev: Option<Snapshot>, fbs: seq<FlashBlock>)
    requires Sequential(fbs)
    ensures var r, n := Build(rules, node, prev, fbs), fbs[0].meta.blockNumber;
            if n == 0 then r == Err(GenesisFlashblock)
            else if node.header(n - 1).Missing? then r == Err(MissingCanonicalHeader(n - 1))
            else if node.header(n - 1).Failed? || !node.stateOpens(n - 1) then r == Err(StateProvider)
            else
              var built := BuildOn(rules, node.header(n - 1).header, prev, fbs);
              r == if built.Err? then Err(built.error) else Ok(Some(built.value))
  {
    hide MinBlock, BuildOn;
    SequentialIsOrdered(fbs);
    OrderedMin(fbs);
  }

  // ---------------------------------------------------------------------------------------
  // One flashblock
  // ---------------------------------------------------------------------------------------

  /** An anchor is one the node reports now, or the one held before. */
  ghost predicate AnchorFrom(v: View, st: State, after: State) {
    after.pending.Some? ==>
      var anchor := after.pending.value.snapshot.anchor.number;
      v.node.header(anchor).Found? || (st.pending.Some? && st.pending.value.snapshot.anchor.number == anchor)
  }

  ghost predicate GoodProposal(node: Node, produced: set<FlashBlock>, p: Proposal) {
    match p
    case Clear => true
    case Keep => true
    case Restart(s) => Shaped(produced, s) && node.header(s.anchor.number).Found?
    case Extend(s) => Shaped(produced, s) && node.header(s.anchor.number).Found?
  }

  lemma ProposalIsGood(cfg: Config, v: View, produced: set<FlashBlock>, st: State, fb: FlashBlock)
    requires Numbered(produced) && SoundNode(v.node) && fb in produced
    requires ShapeInv(produced, st)
    ensures var r := ProcessFlashblock(cfg, v.node, Published(st), fb);
            && (r.Ok? ==> GoodProposal(v.node, produced, r.value))
            && (r.Err? && r.error.MissingCanonicalHeader? ==>
                  fb.index == 0 ||
                  (st.pending.Some? && v.node.header(st.pending.value.snapshot.anchor.number).Missing?))
  {
    hide Build, GapFree, Validate, CacheHolds, WellNumbered;
    var r := ProcessFlashblock(cfg, v.node, Published(st), fb);
    if st.pending.Some? && (SequenceOf(st.pending.value.snapshot, fb).NextInSequence?
                            || SequenceOf(st.pending.value.snapshot, fb).FirstOfNextBlock?) {
      var prev := st.pending.value.snapshot;
      var fbs := prev.flashblocks + [fb];
      ValidatedFollows(prev, fb);
      AppendIsSequential(prev.flashblocks, fb);
      MissingHeaderIsTheAnchor(cfg.rules, v.node, Some(prev), fbs);
      if r.Ok? && r.value.Extend? {
        BuiltIsShaped(cfg, v.node, produced, Some(prev), fbs, r.value.grown);
      }
    } else {
      FirstIsIndexZero(st, fb);
      if r.Ok? && r.value.Restart? {
        BuiltIsShaped(cfg, v.node, produced, None, [fb], r.value.first);
      }
    }
  }

  lemma ApplyKeepsShape(cfg: Config, v: View, produced: set<FlashBlock>, st: State, fb: FlashBlock)
    requires Numbered(produced) && SoundNode(v.node) && fb in produced
    requires ShapeInv(produced, st)
    ensures var after := ApplyFlashblock(cfg, v, st, fb);
            ShapeInv(produced, after) && AnchorFrom(v, st, after)
  {
    hide Shaped, ProcessFlashblock, ExtendsCanonicalTip, Numbered;
    ProposalIsGood(cfg, v, produced, st, fb);
  }

  lemma {:induction false} ReplayKeepsShape(cfg: Config, v: View, produced: set<FlashBlock>, st: State, fbs: seq<FlashBlock>)
    requires Numbered(produced) && SoundNode(v.node)
    requires ShapeInv(produced, st)
    requires forall fb :: fb in fbs ==> fb in produced
    ensures var after := Replay(cfg, v, st, fbs);
            ShapeInv(produced, after) && AnchorFrom(v, st, after)
  {
    hide Shaped, Numbered, ApplyFlashblock, CacheHolds, SoundNode;
    if fbs != [] {
      var init, last := fbs[..|fbs| - 1], fbs[|fbs| - 1];
      assert forall fb :: fb in init ==> fb in fbs;
      ReplayKeepsShape(cfg, v, produced, st, init);
      assert last in fbs;
      ApplyKeepsShape(cfg, v, produced, LoadOrDrop(cfg, v, Replay(cfg, v, st, init), |fbs|), last);
    }
  }

  // ---------------------------------------------------------------------------------------
  // One update, every run
  // ---------------------------------------------------------------------------------------

  lemma RebuiltIsShaped(cfg: Config, v: View, produced: set<FlashBlock>, prev: Snapshot, block: CanonicalBlock, s: Snapshot)
    requires Numbered(produced) && SoundNode(v.node)
    requires Shaped(produced, prev)
    requires ProcessCanonicalBlock(cfg, v.node, Some(prev), block) == Ok(Some(s))
    ensures Shaped(produced, s) && v.node.header(s.anchor.number).Found?
  {
    hide Build, GapFree, StrategyFor, WellNumbered;
    RetainedShape(cfg, v.node, prev, block);
    var kept := Retained(cfg, v.node, prev, block);
    var base := if Continues(cfg, v.node, Some(prev), block) then Some(prev) else None;
    BuiltIsShaped(cfg, v.node, produced, base, kept, s);
  }

  lemma ReconciledKeepsShape(cfg: Config, v: View, produced: set<FlashBlock>, st: State, block: CanonicalBlock, s: Option<Snapshot>)
    requires Numbered(produced) && SoundNode(v.node)
    requires ShapeInv(produced, st)
    requires ProcessCanonicalBlock(cfg, v.node, Published(st), block) == Ok(s)
    ensures var after := Reconciled(cfg, v, st, block, s);
            ShapeInv(produced, after) && AnchorFrom(v, st, after)
  {
    hide Shaped, Numbered, CacheHolds, ExtendsCanonicalTip, StrategyFor, Without, CanonicalAt, Build;
    if s.Some? {
      RebuiltIsShaped(cfg, v, produced, st.pending.value.snapshot, block, s.value);
    }
    AdvancedCacheHolds(st.cache, produced, block.number);
  }

  lemma StepKeepsShape(cfg: Config, v: View, produced: set<FlashBlock>, st: State, update: Update)
    requires Numbered(produced) && SoundNode(v.node)
    requires update.Flashblock? ==> update.fb in produced
    requires ShapeInv(produced, st)
    ensures var after := Step(cfg, v, st, update);
            ShapeInv(produced, after) && AnchorFrom(v, st, after)
  {
    hide Shaped, Numbered, CacheHolds, ApplyFlashblock, ProcessCanonicalBlock, Reconciled, DrainedBlock, SoundNode;
    var loaded := LoadOrDrop(cfg, v, st, 0);
    match update
    case Flashblock(fb) =>
      ApplyKeepsShape(cfg, v, produced, loaded, fb);
    case Canonical(block) =>
      var r := ProcessCanonicalBlock(cfg, v.node, Published(loaded), block);
      if r.Ok? {
        ReconciledKeepsShape(cfg, v, produced, loaded, block, r.value);
        DrainedAreProduced(loaded.cache, produced, block.number, block.number + 1);
        ReplayKeepsShape(cfg, v, produced, Reconciled(cfg, v, loaded, block, r.value), ToReplay(loaded, block));
      }
  }

  /** Every header the node reports carries its number, and every flashblock its block's. */
  ghost predicate SoundInputs(produced: set<FlashBlock>, inputs: seq<(View, Update)>) {
    && Numbered(produced)
    && forall i :: 0 <= i < |inputs| ==>
         SoundNode(inputs[i].0.node) && (inputs[i].1.Flashblock? ==> inputs[i].1.fb in produced)
  }

  lemma {:induction false} RunKeepsShape(cfg: Config, produced: set<FlashBlock>, start: State, inputs: seq<(View, Update)>)
    requires SoundInputs(produced, inputs) && ShapeInv(produced, start)
    ensures ShapeInv(produced, StepAll(cfg, start, inputs))
  {
    hide ShapeInv, Numbered, SoundNode, Step;
    if inputs != [] {
      var init, last := inputs[..|inputs| - 1], inputs[|inputs| - 1];
      assert forall i :: 0 <= i < |init| ==> init[i] == inputs[i];
      RunKeepsShape(cfg, produced, start, init);
      StepKeepsShape(cfg, last.0, produced, StepAll(cfg, start, init), last.1);
    }
  }

  /** In every reachable state the published snapshot covers consecutive blocks starting at 1 or
      higher, each completely, anchored on the block below the first. */
  lemma ReachableIsGapFree(cfg: Config, produced: set<FlashBlock>, tip: nat, inputs: seq<(View, Update)>)
    requires SoundInputs(produced, inputs)
    ensures var st := StepAll(cfg, Initial(tip), inputs);
            st.pending.Some? ==>
              GapFree(st.pending.value.snapshot) && Sequential(st.pending.value.snapshot.flashblocks)
  {
    hide GapFree, StepAll, Numbered, SoundNode;
    RunKeepsShape(cfg, produced, Initial(tip), inputs);
  }
}
