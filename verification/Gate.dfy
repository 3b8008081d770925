/** The reconciler and the publish gate cannot disagree: whatever a canonical block keeps or
    rebuilds is publishable. */
module Gate {
  import opened Types
  import opened Validation
  import opened PendingBlocks
  import opened Rebuild
  import opened Ordering
  import opened Story
  import opened Sequence
  import opened Processor

  /** A gap-free snapshot, as seen through its flashblock list. */
  ghost predicate Spans(s: Snapshot) {
    && Sequential(s.flashblocks)
    && s.earliest.number == s.flashblocks[0].meta.blockNumber
    && s.latest.number == s.flashblocks[|s.flashblocks| - 1].meta.blockNumber
  }

  /** What a canonical block keeps of a gap-free snapshot: something that reaches its latest
      block and starts near the effective height. */
  lemma RetainedShape(cfg: Config, node: Node, s: Snapshot, block: CanonicalBlock)
    requires Spans(s)
    requires var strategy := StrategyFor(cfg, node, s, block);
             strategy.Continue? || strategy.HandleReorg? || strategy.DepthLimitExceeded?
    ensures var kept, canonical := Retained(cfg, node, s, block), EffectiveCanonical(node, block.number);
            && Sequential(kept)
            && (forall fb :: fb in kept ==> fb in s.flashblocks)
            && kept[|kept| - 1] == s.flashblocks[|s.flashblocks| - 1]
            && SaturatingSub(canonical, kept[0].meta.blockNumber) <= cfg.maxDepth
            && canonical < s.latest.number
  {
    var canonical := EffectiveCanonical(node, block.number);
    RetainIsSequential(s.flashblocks, canonical);
    AboveMembers(s.flashblocks, canonical);
  }

  /** Every outcome that keeps or rebuilds pending yields a non-empty list whose snapshot, if it
      can be built, passes both publish checks at that tip. */
  lemma ReconcilerAgreesWithGate(cfg: Config, node: Node, s: Snapshot, block: CanonicalBlock, built: Snapshot)
    requires Spans(s) && SoundNode(node)
    requires forall fb :: fb in s.flashblocks ==> WellNumbered(fb)
    requires var strategy := StrategyFor(cfg, node, s, block);
             strategy.Continue? || strategy.HandleReorg? || strategy.DepthLimitExceeded?
    ensures Retained(cfg, node, s, block) != []
    ensures ProcessCanonicalBlock(cfg, node, Some(s), block) == Ok(Some(built)) ==>
              && ExtendsCanonicalTip(cfg, node, built)
              && GapFree(built) && built.flashblocks == Retained(cfg, node, s, block)
    ensures ProcessCanonicalBlock(cfg, node, Some(s), block) != Ok(None)
  {
    hide BuildOn, GapFree, MinBlock, Above;
    var kept := Retained(cfg, node, s, block);
    RetainedShape(cfg, node, s, block);
    SequentialIsOrdered(kept);
    OrderedMin(kept);
    var prev := if StrategyFor(cfg, node, s, block).Continue? then Some(s) else None;
    var n := kept[0].meta.blockNumber;
    if ProcessCanonicalBlock(cfg, node, Some(s), block) == Ok(Some(built)) {
      var anchor := node.header(n - 1).header;
      BuildIsGapFree(cfg.rules, anchor, prev, kept, built);
    }
  }

  /** `Continue` means pending tracked the notified block exactly, and the effective height is
      within bounds of the snapshot. */
  lemma ContinueMeansExact(cfg: Config, node: Node, s: Snapshot, block: CanonicalBlock)
    ensures StrategyFor(cfg, node, s, block).Continue? <==>
            && Tracked(s, block) == block.txHashes
            && EffectiveCanonical(node, block.number) < s.latest.number
            && SaturatingSub(EffectiveCanonical(node, block.number), s.earliest.number) <= cfg.maxDepth
  {
  }
}
