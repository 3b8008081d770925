/** What one flashblock or one canonical block does to a gap-free snapshot, case by case, in block
    numbers, indices and payloads: what is published, what is broadcast, what is cached. */
module Outcomes {
  import opened Types
  import opened Validation
  import opened PendingBlocks
  import opened Rebuild
  import opened Ordering
  import opened Sequence
  import opened Cache
  import opened Processor
  import opened Gate
  import opened Runs
  import opened Shape

  // ---------------------------------------------------------------------------------------
  // Flashblocks
  // ---------------------------------------------------------------------------------------

  /** At or below the last notified block or a known tip. */
  predicate Stale(v: View, fb: FlashBlock) {
    || fb.meta.blockNumber <= v.lastNotified
    || (v.node.tip.Some? && fb.meta.blockNumber <= v.node.tip.value)
  }

  function LastOf(s: Snapshot): FlashBlock
    requires s.flashblocks != []
  {
    s.flashblocks[|s.flashblocks| - 1]
  }

  /** The tip is known and further ahead of the earliest block than allowed. */
  predicate TooDeep(cfg: Config, v: View, earliest: nat) {
    v.node.tip.Some? && v.node.tip.value > earliest + cfg.maxDepth
  }

  /** A failed build publishes nothing and broadcasts nothing; the flashblock is cached exactly
      when the header below it is missing. */
  predicate FailedQuietly(st: State, fb: FlashBlock, e: Error, after: State) {
    if e.MissingCanonicalHeader? then after == st.(cache := Inserted(st.cache, fb)) else after == st
  }

  lemma StaleChangesNothing(cfg: Config, v: View, st: State, fb: FlashBlock)
    requires Stale(v, fb)
    ensures ApplyFlashblock(cfg, v, st, fb) == st
  {
  }

  lemma BuildErrors(rules: Rules, node: Node, prev: Option<Snapshot>, fbs: seq<FlashBlock>)
    requires fbs != []
    ensures var r := Build(rules, node, prev, fbs);
            && (r.Ok? ==> r.value.Some?)
            && (r.Err? ==> !r.error.MissingFirstFlashblock?)
  {
    hide BuildOn;
    if MinBlock(fbs) > 0 && node.header(MinBlock(fbs) - 1).Found? {
      BuildOnErrors(rules, node.header(MinBlock(fbs) - 1).header, prev, fbs);
    }
  }

  lemma BuildOnErrors(rules: Rules, anchor: Header, prev: Option<Snapshot>, fbs: seq<FlashBlock>)
    ensures BuildOn(rules, anchor, prev, fbs).Err? ==> !BuildOn(rules, anchor, prev, fbs).error.MissingFirstFlashblock?
  {
    hide PlanBlocks, Run, Quiet;
    var world := rules.stateOf(anchor);
    PlanIsQuiet(rules, KnownSenders(prev), world, fbs, anchor);
    RunIsQuiet(rules, world, Reused(prev), PlanBlocks(rules, KnownSenders(prev), world, fbs, anchor), Start(prev));
  }

  /** The next index of the latest block, or index 0 of the block after it: the list grows by it,
      and what that builds on the snapshot is published and broadcast. */
  lemma AppendPublishes(cfg: Config, v: View, produced: set<FlashBlock>, st: State, fb: FlashBlock)
    requires Numbered(produced) && SoundNode(v.node) && fb in produced && ShapeInv(produced, st)
    requires st.pending.Some? && !Stale(v, fb)
    requires var last := LastOf(st.pending.value.snapshot);
             || (fb.meta.blockNumber == last.meta.blockNumber && fb.index == last.index + 1)
             || (fb.meta.blockNumber == last.meta.blockNumber + 1 && fb.index == 0)
    ensures var s, after := st.pending.value.snapshot, ApplyFlashblock(cfg, v, st, fb);
            var built := Build(cfg.rules, v.node, Some(s), s.flashblocks + [fb]);
            if built.Err? then FailedQuietly(st, fb, built.error, after)
            else if TooDeep(cfg, v, s.earliest.number) then after == st.(pending := None, since := None)
            else
              && built.value.Some?
              && after == st.(pending := Some(Handle(st.nextId, built.value.value)), nextId := st.nextId + 1,
                              sent := st.sent + [built.value.value])
  {
    hide Build, GapFree, CacheHolds, Numbered, SoundNode, WellNumbered, Inserted;
    var s := st.pending.value.snapshot;
    var fbs := s.flashblocks + [fb];
    AppendIsSequential(s.flashblocks, fb);
    BuildErrors(cfg.rules, v.node, Some(s), fbs);
    var built := Build(cfg.rules, v.node, Some(s), fbs);
    if built.Ok? {
      AppendedHeights(cfg, v, produced, s, fb, built.value.value);
    }
  }

  lemma AppendedHeights(cfg: Config, v: View, produced: set<FlashBlock>, s: Snapshot, fb: FlashBlock, g: Snapshot)
    requires Numbered(produced) && SoundNode(v.node) && fb in produced && Shaped(produced, s)
    requires Follows(LastOf(s), fb)
    requires Build(cfg.rules, v.node, Some(s), s.flashblocks + [fb]) == Ok(Some(g))
    ensures g.earliest.number == s.earliest.number && g.latest.number == fb.meta.blockNumber
  {
    hide Build, GapFree, Numbered, SoundNode;
    AppendIsSequential(s.flashblocks, fb);
    BuiltIsShaped(cfg, v.node, produced, Some(s), s.flashblocks + [fb], g);
  }

  /** What building a lone index-0 flashblock publishes: it is above every tip, so the gate never
      stops it. */
  lemma LoneHeights(cfg: Config, v: View, produced: set<FlashBlock>, fb: FlashBlock, g: Snapshot)
    requires Numbered(produced) && SoundNode(v.node) && fb in produced && fb.index == 0
    requires Build(cfg.rules, v.node, None, [fb]) == Ok(Some(g))
    ensures g.earliest.number == g.latest.number == fb.meta.blockNumber
  {
    hide Build, GapFree, Numbered, SoundNode;
    BuiltIsShaped(cfg, v.node, produced, None, [fb], g);
  }

  predicate Restarted(st: State, g: Snapshot, after: State) {
    after == State(Some(Handle(st.nextId, g)), st.nextId + 1, st.cache, st.sent + [g], Some(|st.sent|))
  }

  /** Index 0 of the latest block under another payload: what it builds alone replaces the
      snapshot, whatever that held. */
  lemma NewPayloadRestarts(cfg: Config, v: View, produced: set<FlashBlock>, st: State, fb: FlashBlock)
    requires Numbered(produced) && SoundNode(v.node) && fb in produced && ShapeInv(produced, st)
    requires st.pending.Some? && !Stale(v, fb)
    requires var last := LastOf(st.pending.value.snapshot);
             fb.meta.blockNumber == last.meta.blockNumber && fb.index == 0 && fb.payloadId != last.payloadId
    ensures var built, after := Build(cfg.rules, v.node, None, [fb]), ApplyFlashblock(cfg, v, st, fb);
            if built.Err? then FailedQuietly(st, fb, built.error, after)
            else built.value.Some? && Restarted(st, built.value.value, after)
  {
    hide Build, GapFree, CacheHolds, Numbered, SoundNode, WellNumbered, Inserted;
    BuildErrors(cfg.rules, v.node, None, [fb]);
    var built := Build(cfg.rules, v.node, None, [fb]);
    if built.Ok? {
      LoneHeights(cfg, v, produced, fb, built.value.value);
    }
  }

  /** The latest index again: the same allocation stays published and nothing is broadcast. */
  lemma DuplicateKeeps(cfg: Config, v: View, produced: set<FlashBlock>, st: State, fb: FlashBlock)
    requires ShapeInv(produced, st) && st.pending.Some? && !Stale(v, fb)
    requires var last := LastOf(st.pending.value.snapshot);
             && fb.meta.blockNumber == last.meta.blockNumber && fb.index == last.index
             && (fb.index == 0 ==> fb.payloadId == last.payloadId)
    ensures ApplyFlashblock(cfg, v, st, fb) ==
            if TooDeep(cfg, v, st.pending.value.snapshot.earliest.number) then st.(pending := None, since := None) else st
  {
    hide Build, GapFree, CacheHolds, WellNumbered;
  }

  /** Any other block or index clears the snapshot. */
  lemma StrayClears(cfg: Config, v: View, produced: set<FlashBlock>, st: State, fb: FlashBlock)
    requires ShapeInv(produced, st) && st.pending.Some? && !Stale(v, fb)
    requires var last := LastOf(st.pending.value.snapshot);
             if fb.meta.blockNumber == last.meta.blockNumber
             then fb.index != last.index && fb.index != last.index + 1 && (fb.index == 0 ==> fb.payloadId == last.payloadId)
             else fb.meta.blockNumber != last.meta.blockNumber + 1 || fb.index != 0
    ensures ApplyFlashblock(cfg, v, st, fb) == st.(pending := None, since := None)
  {
    hide Build, GapFree, CacheHolds, WellNumbered;
  }

  /** With nothing published, index 0 starts a snapshot, and any other index is cached exactly when
      the one before it is. */
  lemma FirstStarts(cfg: Config, v: View, produced: set<FlashBlock>, st: State, fb: FlashBlock)
    requires Numbered(produced) && SoundNode(v.node) && fb in produced
    requires st.pending.None? && !Stale(v, fb)
    ensures var built, after := Build(cfg.rules, v.node, None, [fb]), ApplyFlashblock(cfg, v, st, fb);
            if fb.index > 0 then
              after == if fb.meta.blockNumber in st.cache.entries && fb.index - 1 in st.cache.entries[fb.meta.blockNumber]
                       then st.(cache := Inserted(st.cache, fb)) else st
            else if built.Err? then FailedQuietly(st, fb, built.error, after)
            else built.value.Some? && Restarted(st, built.value.value, after)
  {
    hide Build, GapFree, Numbered, SoundNode, WellNumbered, Inserted;
    BuildErrors(cfg.rules, v.node, None, [fb]);
    var built := Build(cfg.rules, v.node, None, [fb]);
    if fb.index == 0 && built.Ok? {
      LoneHeights(cfg, v, produced, fb, built.value.value);
    }
  }

  // ---------------------------------------------------------------------------------------
  // Canonical blocks
  // ---------------------------------------------------------------------------------------

  /** The greater of the notified height and a known tip. */
  function Height(v: View, block: CanonicalBlock): nat {
    if v.node.tip.Some? && v.node.tip.value > block.number then v.node.tip.value else block.number
  }

  /** Pending tracked the block's transactions exactly, and its earliest block is near enough. */
  predicate StillAgrees(cfg: Config, v: View, s: Snapshot, block: CanonicalBlock) {
    && Hashes(TransactionsForBlock(s, block.number)) == block.txHashes
    && Height(v, block) <= s.earliest.number + cfg.maxDepth
  }

  /** The snapshot a canonical block leaves: none exactly when the chain has reached its latest
      block; otherwise its own list rebuilt on it, while it still agrees; otherwise exactly the
      flashblocks above the height, rebuilt from nothing. */
  lemma CanonicalRebuilds(cfg: Config, v: View, produced: set<FlashBlock>, s: Snapshot, block: CanonicalBlock)
    returns (k: nat)
    requires Shaped(produced, s)
    ensures SplitsAt(s.flashblocks, Height(v, block), k)
    ensures var r := ProcessCanonicalBlock(cfg, v.node, Some(s), block);
            && (r == Ok(None) <==> s.latest.number <= Height(v, block))
            && (s.latest.number > Height(v, block) ==>
                  r == if StillAgrees(cfg, v, s, block) then Build(cfg.rules, v.node, Some(s), s.flashblocks)
                       else Build(cfg.rules, v.node, None, s.flashblocks[k..]))
  {
    hide Build, GapFree, Hashes, TransactionsForBlock, Above;
    SequentialIsOrdered(s.flashblocks);
    k := AboveCut(s.flashblocks, Height(v, block));
    BuildErrors(cfg.rules, v.node, Some(s), s.flashblocks);
    if s.latest.number > Height(v, block) {
      assert k < |s.flashblocks|;
      BuildErrors(cfg.rules, v.node, None, s.flashblocks[k..]);
    }
  }

  lemma NothingToRebuild(cfg: Config, v: View, block: CanonicalBlock)
    ensures ProcessCanonicalBlock(cfg, v.node, None, block) == Ok(None)
  {
  }

  /** The whole canonical step. A failed rebuild leaves everything as the load left it. Otherwise
      what was rebuilt is published, since the gate lets all of it through, and nothing is
      broadcast; its stream goes on exactly while pending still agrees. The cache keeps what lies
      above the block but for the next one's flashblocks, and these are replayed in index order. */
  lemma CanonicalSettles(cfg: Config, v: View, produced: set<FlashBlock>, st: State, block: CanonicalBlock)
    returns (mid: State, fbs: seq<FlashBlock>)
    requires Numbered(produced) && SoundNode(v.node) && ShapeInv(produced, st)
    ensures var loaded := LoadOrDrop(cfg, v, st, 0);
            var r := ProcessCanonicalBlock(cfg, v.node, Published(loaded), block);
            && (r.Err? ==> Step(cfg, v, st, Canonical(block)) == loaded)
            && (r.Ok? ==>
                  && Step(cfg, v, st, Canonical(block)) == Replay(cfg, v, mid, fbs)
                  && mid.sent == st.sent
                  && mid.pending == (if r.value.Some? then Some(Handle(st.nextId, r.value.value)) else None)
                  && mid.nextId == st.nextId + (if r.value.Some? then 1 else 0)
                  && mid.since == (if r.value.Some? && StillAgrees(cfg, v, loaded.pending.value.snapshot, block)
                                   then loaded.since else None))
    ensures mid.cache.canonical == Some(block.number)
    ensures forall k :: k in mid.cache.entries <==> k in st.cache.entries && k > block.number && k != block.number + 1
    ensures forall k :: k in mid.cache.entries ==> mid.cache.entries[k] == st.cache.entries[k]
    ensures block.number + 1 in st.cache.entries ==> IsDrainOf(fbs, st.cache.entries[block.number + 1])
    ensures block.number + 1 !in st.cache.entries ==> fbs == []
  {
    hide Shaped, Replay, DrainedBlock, ProcessCanonicalBlock, CanonicalAt, Without, ByIndex, StillAgrees, Numbered, SoundNode;
    hide Replace, IsDrainOf;
    var loaded := LoadOrDrop(cfg, v, st, 0);
    var r := ProcessCanonicalBlock(cfg, v.node, Published(loaded), block);
    fbs := ToReplay(loaded, block);
    mid := Reconciled(cfg, v, loaded, block, if r.Ok? then r.value else None);
    CacheAdvances(st.cache, block.number);
    if r.Ok? {
      SnapshotReplaced(cfg, v, produced, loaded, block, r.value);
    }
  }

  lemma CacheAdvances(c: CacheState, n: nat)
    requires Filed(c)
    ensures var mid, fbs := Without(CanonicalAt(c, n), n + 1), DrainedBlock(CanonicalAt(c, n), n + 1);
            && mid.canonical == Some(n)
            && (forall k :: k in mid.entries <==> k in c.entries && k > n && k != n + 1)
            && (forall k :: k in mid.entries ==> mid.entries[k] == c.entries[k])
            && (n + 1 in c.entries ==> IsDrainOf(fbs, c.entries[n + 1]))
            && (n + 1 !in c.entries ==> fbs == [])
  {
    hide ByIndex, IsDrainOf;
    AdvancedExactly(c, n);
    if n + 1 in c.entries {
      DrainIsSorted(c.entries[n + 1]);
    }
  }

  lemma SnapshotReplaced(cfg: Config, v: View, produced: set<FlashBlock>, st: State, block: CanonicalBlock, s: Option<Snapshot>)
    requires Numbered(produced) && SoundNode(v.node) && ShapeInv(produced, st)
    requires ProcessCanonicalBlock(cfg, v.node, Published(st), block) == Ok(s)
    ensures var after := Replace(cfg, v, st, s, Continues(cfg, v.node, Published(st), block));
            && after.sent == st.sent
            && after.pending == (if s.Some? then Some(Handle(st.nextId, s.value)) else None)
            && after.nextId == st.nextId + (if s.Some? then 1 else 0)
            && (s.Some? ==> st.pending.Some?)
            && after.since == (if s.Some? && StillAgrees(cfg, v, st.pending.value.snapshot, block) then st.since else None)
  {
    hide Shaped, CacheHolds, StillAgrees, Numbered, SoundNode, Continues, ExtendsCanonicalTip, StrategyFor, Build;
    if s.Some? {
      RebuiltFits(cfg, v, produced, st.pending.value.snapshot, block, s.value);
    }
  }

  lemma RebuiltFits(cfg: Config, v: View, produced: set<FlashBlock>, s: Snapshot, block: CanonicalBlock, g: Snapshot)
    requires Numbered(produced) && SoundNode(v.node) && Shaped(produced, s)
    requires ProcessCanonicalBlock(cfg, v.node, Some(s), block) == Ok(Some(g))
    ensures ExtendsCanonicalTip(cfg, v.node, g)
    ensures Continues(cfg, v.node, Some(s), block) <==> StillAgrees(cfg, v, s, block)
  {
    hide Build, GapFree, WellNumbered, Hashes, TransactionsForBlock;
    ReconcilerAgreesWithGate(cfg, v.node, s, block, g);
  }
}
