/** The cache of early flashblocks through whole runs, and what replaying it does. */
module CacheRuns {
  import opened Types
  import opened Validation
  import opened PendingBlocks
  import opened Rebuild
  import opened Ordering
  import opened Sequence
  import opened Refinement
  import opened Incremental
  import opened Cache
  import opened Processor
  import opened Gate
  import opened Runs
  import opened Shape

  // ---------------------------------------------------------------------------------------
  // One update
  // ---------------------------------------------------------------------------------------

  /** The node has not lost the block pending is anchored on. */
  ghost predicate AnchorHeld(v: View, st: State) {
    st.pending.Some? ==> !v.node.header(st.pending.value.snapshot.anchor.number).Missing?
  }

  /** The cache is well kept, at a height the chain has reached. */
  ghost predicate KeptBelow(c: CacheState, tip: nat) {
    WellKept(c) && c.canonical.value <= tip
  }

  /** Only an index-0 flashblock, or the successor of a cached one, is ever cached: with its
      anchor held, no append can be the one that finds the header missing. */
  lemma ApplyKeepsCache(cfg: Config, v: View, produced: set<FlashBlock>, st: State, fb: FlashBlock, tip: nat)
    requires Numbered(produced) && SoundNode(v.node) && fb in produced && v.node.tip == Some(tip)
    requires ShapeInv(produced, st) && AnchorHeld(v, st) && KeptBelow(st.cache, tip)
    ensures var after := ApplyFlashblock(cfg, v, st, fb);
            KeptBelow(after.cache, tip) && after.cache.canonical == st.cache.canonical
  {
    hide Numbered, SoundNode, ShapeInv, Filed, GapFreeCache, Inserted, ProcessFlashblock, ExtendsCanonicalTip;
    ProposalIsGood(cfg, v, produced, st, fb);
    if st.cache.canonical.value < fb.meta.blockNumber
       && (fb.index == 0 || HasFlashblock(st.cache, fb.meta.blockNumber, fb.index - 1)) {
      InsertKeeps(st.cache, fb);
    }
  }

  lemma {:induction false} ReplayKeepsCache(cfg: Config, v: View, produced: set<FlashBlock>, st: State, fbs: seq<FlashBlock>, tip: nat)
    requires Numbered(produced) && SoundNode(v.node) && v.node.tip == Some(tip)
    requires forall fb :: fb in fbs ==> fb in produced
    requires ShapeInv(produced, st) && AnchorHeld(v, st) && KeptBelow(st.cache, tip)
    ensures var after := Replay(cfg, v, st, fbs);
            KeptBelow(after.cache, tip) && after.cache.canonical == st.cache.canonical
  {
    hide Numbered, SoundNode, ShapeInv, WellKept, ApplyFlashblock;
    if fbs != [] {
      var init, last := fbs[..|fbs| - 1], fbs[|fbs| - 1];
      assert forall fb :: fb in init ==> fb in fbs;
      ReplayKeepsCache(cfg, v, produced, st, init, tip);
      ReplayKeepsShape(cfg, v, produced, st, init);
      var before := Replay(cfg, v, st, init);
      LoadKeepsShape(cfg, v, produced, before, |fbs|);
      assert last in fbs;
      ApplyKeepsCache(cfg, v, produced, LoadOrDrop(cfg, v, before, |fbs|), last, tip);
    }
  }

  lemma LoadKeepsShape(cfg: Config, v: View, produced: set<FlashBlock>, st: State, k: nat)
    requires ShapeInv(produced, st)
    ensures ShapeInv(produced, LoadOrDrop(cfg, v, st, k))
  {
    hide Shaped, CacheHolds;
  }

  /** No cached block lies beyond the window of height `n`. */
  ghost predicate NoneBeyond(c: CacheState, n: nat) {
    forall k :: k in c.entries ==> k <= n + MAX_CACHE_AHEAD_BLOCKS + 1
  }

  /** A height may also go down: the queue can trail where the processor started, and a reorg
      notifies lower blocks again. The window then survives exactly when no cached block lies
      beyond it. */
  lemma LoweredHeightKeeps(c: CacheState, n: nat)
    requires WellKept(c)
    ensures WellKept(CanonicalAt(c, n)) <==> NoneBeyond(c, n)
  {
    var after := CanonicalAt(c, n);
    if k :| k in c.entries && k > n + MAX_CACHE_AHEAD_BLOCKS + 1 {
      assert k in after.entries;
    }
  }

  lemma AdvancedIsKept(c: CacheState, n: nat)
    requires WellKept(c) && NoneBeyond(c, n)
    ensures WellKept(Without(CanonicalAt(c, n), n + 1))
  {
    hide WellKept, Without, NoneBeyond;
    LoweredHeightKeeps(c, n);
    DrainKeeps(CanonicalAt(c, n), n + 1);
  }

  /** Does this update replace the snapshot and move the cache's height? */
  predicate Reconciles(cfg: Config, v: View, st: State, update: Update) {
    update.Canonical? && ProcessCanonicalBlock(cfg, v.node, Published(LoadOrDrop(cfg, v, st, 0)), update.block).Ok?
  }

  lemma StepKeepsCache(cfg: Config, v: View, produced: set<FlashBlock>, st: State, update: Update, tip: nat)
    requires Numbered(produced) && SoundNode(v.node) && v.node.tip == Some(tip)
    requires update.Flashblock? ==> update.fb in produced
    requires update.Canonical? ==> update.block.number <= tip
    requires Reconciles(cfg, v, st, update) ==> NoneBeyond(st.cache, update.block.number)
    requires ShapeInv(produced, st) && AnchorHeld(v, st) && KeptBelow(st.cache, tip)
    ensures var after := Step(cfg, v, st, update);
            && KeptBelow(after.cache, tip)
            && (after.cache.canonical == st.cache.canonical
                || (update.Canonical? && after.cache.canonical == Some(update.block.number)))
  {
    hide Numbered, SoundNode, ShapeInv, WellKept, ApplyFlashblock, ProcessCanonicalBlock, DrainedBlock, Replace, NoneBeyond;
    var loaded := LoadOrDrop(cfg, v, st, 0);
    LoadKeepsShape(cfg, v, produced, st, 0);
    match update
    case Flashblock(fb) =>
      ApplyKeepsCache(cfg, v, produced, loaded, fb, tip);
    case Canonical(block) =>
      var r := ProcessCanonicalBlock(cfg, v.node, Published(loaded), block);
      if r.Ok? {
        var reconciled := Reconciled(cfg, v, loaded, block, r.value);
        ReconciledKeepsShape(cfg, v, produced, loaded, block, r.value);
        AdvancedIsKept(loaded.cache, block.number);
        ShapedCacheHolds(produced, loaded);
        DrainedAreProduced(loaded.cache, produced, block.number, block.number + 1);
        ReplayKeepsCache(cfg, v, produced, reconciled, ToReplay(loaded, block), tip);
      }
  }

  // ---------------------------------------------------------------------------------------
  // What lies beyond the window stays beyond it
  // ---------------------------------------------------------------------------------------

  ghost predicate Stranded(c: CacheState, k: nat) {
    k in c.entries && c.canonical.Some? && k > c.canonical.value + MAX_CACHE_AHEAD_BLOCKS + 1
  }

  lemma InsertStrands(c: CacheState, fb: FlashBlock, k: nat)
    requires Stranded(c, k)
    ensures Stranded(Inserted(c, fb), k)
  {
  }

  lemma ApplyStrands(cfg: Config, v: View, st: State, fb: FlashBlock, k: nat)
    requires Stranded(st.cache, k)
    ensures Stranded(ApplyFlashblock(cfg, v, st, fb).cache, k)
  {
    hide Stranded, Inserted, ProcessFlashblock, ExtendsCanonicalTip;
    InsertStrands(st.cache, fb, k);
  }

  lemma {:induction false} ReplayStrands(cfg: Config, v: View, st: State, fbs: seq<FlashBlock>, k: nat)
    requires Stranded(st.cache, k)
    ensures Stranded(Replay(cfg, v, st, fbs).cache, k)
  {
    hide Stranded, ApplyFlashblock;
    if fbs != [] {
      var init, last := fbs[..|fbs| - 1], fbs[|fbs| - 1];
      ReplayStrands(cfg, v, st, init, k);
      ApplyStrands(cfg, v, LoadOrDrop(cfg, v, Replay(cfg, v, st, init), |fbs|), last, k);
    }
  }

  /** An update that lowers the height below a cached block's reach leaves that block cached
      outside the window, whatever it replays. */
  lemma StepStrands(cfg: Config, v: View, st: State, update: Update)
    requires Reconciles(cfg, v, st, update) && !NoneBeyond(st.cache, update.block.number)
    ensures !WellKept(Step(cfg, v, st, update).cache)
  {
    hide ProcessCanonicalBlock, DrainedBlock, Replace, Replay;
    var loaded, block := LoadOrDrop(cfg, v, st, 0), update.block;
    var r := ProcessCanonicalBlock(cfg, v.node, Published(loaded), block);
    var k :| k in st.cache.entries && k > block.number + MAX_CACHE_AHEAD_BLOCKS + 1;
    ReplayStrands(cfg, v, Reconciled(cfg, v, loaded, block, r.value), ToReplay(loaded, block), k);
  }

  // ---------------------------------------------------------------------------------------
  // Every run whose tip is known and never moves back
  // ---------------------------------------------------------------------------------------

  /** Of two updates, the later one sees no lower tip, and every header the earlier one found. */
  ghost predicate Precedes(a: View, b: View)
    requires a.node.tip.Some? && b.node.tip.Some?
  {
    && a.node.tip.value <= b.node.tip.value
    && forall n :: a.node.header(n).Found? ==> !b.node.header(n).Missing?
  }

  /** Tip reads succeed, notified blocks are ones the node has, and neither the tip nor a found
      header moves back. Notified heights may: by a reorg, or late. */
  ghost predicate Steady(start: nat, inputs: seq<(View, Update)>) {
    && (forall i :: 0 <= i < |inputs| ==>
          && inputs[i].0.node.tip.Some? && start <= inputs[i].0.node.tip.value
          && (inputs[i].1.Canonical? ==> inputs[i].1.block.number <= inputs[i].0.node.tip.value))
    && (forall i, j :: 0 <= i < j < |inputs| ==> Precedes(inputs[i].0, inputs[j].0))
  }

  /** The cache is well kept after every update. */
  ghost predicate KeptThroughout(cfg: Config, start: nat, inputs: seq<(View, Update)>) {
    && WellKept(StepAll(cfg, Initial(start), inputs).cache)
    && (inputs != [] ==> KeptThroughout(cfg, start, inputs[..|inputs| - 1]))
  }

  /** Whenever a canonical block moves the cache's height, no cached block lies beyond the window
      of that block. */
  ghost predicate Harmless(cfg: Config, start: nat, inputs: seq<(View, Update)>) {
    inputs != [] ==>
      var init, last := inputs[..|inputs| - 1], inputs[|inputs| - 1];
      var before := StepAll(cfg, Initial(start), init);
      && Harmless(cfg, start, init)
      && (Reconciles(cfg, last.0, before, last.1) ==> NoneBeyond(before.cache, last.1.block.number))
  }

  ghost predicate HeaderSeen(inputs: seq<(View, Update)>, n: nat) {
    exists i :: 0 <= i < |inputs| && inputs[i].0.node.header(n).Found?
  }

  ghost predicate AnchorSeen(inputs: seq<(View, Update)>, st: State) {
    st.pending.Some? ==> HeaderSeen(inputs, st.pending.value.snapshot.anchor.number)
  }

  /** The tip the run has reached. */
  function Reached(start: nat, inputs: seq<(View, Update)>): nat {
    if inputs == [] || inputs[|inputs| - 1].0.node.tip.None? then start
    else inputs[|inputs| - 1].0.node.tip.value
  }

  lemma SeenStaysSeen(inputs: seq<(View, Update)>, st: State, after: State)
    requires inputs != [] && AnchorSeen(inputs[..|inputs| - 1], st)
    requires AnchorFrom(inputs[|inputs| - 1].0, st, after)
    ensures AnchorSeen(inputs, after)
  {
    var init := inputs[..|inputs| - 1];
    forall m | HeaderSeen(init, m)
      ensures HeaderSeen(inputs, m)
    {
      var i :| 0 <= i < |init| && init[i].0.node.header(m).Found?;
      assert inputs[i].0.node.header(m).Found?;
    }
  }

  lemma SeenIsHeld(start: nat, inputs: seq<(View, Update)>, st: State)
    requires inputs != [] && Steady(start, inputs) && AnchorSeen(inputs[..|inputs| - 1], st)
    ensures AnchorHeld(inputs[|inputs| - 1].0, st)
    ensures Reached(start, inputs[..|inputs| - 1]) <= inputs[|inputs| - 1].0.node.tip.value
  {
    var m := |inputs| - 1;
    var init := inputs[..m];
    if st.pending.Some? {
      var n := st.pending.value.snapshot.anchor.number;
      var i :| 0 <= i < m && init[i].0.node.header(n).Found?;
      assert Precedes(inputs[i].0, inputs[m].0);
    }
    if m > 0 {
      assert Precedes(inputs[m - 1].0, inputs[m].0);
    }
  }

  lemma SteadyPrefix(start: nat, inputs: seq<(View, Update)>)
    requires inputs != [] && Steady(start, inputs)
    ensures Steady(start, inputs[..|inputs| - 1])
  {
  }

  lemma EmptyCacheKept(produced: set<FlashBlock>, start: nat)
    ensures ShapeInv(produced, Initial(start)) && WellKept(Initial(start).cache)
  {
  }

  /** A run, given that it was harmless so far. */
  lemma {:induction false} RunKeepsCache(cfg: Config, produced: set<FlashBlock>, start: nat, inputs: seq<(View, Update)>)
    requires SoundInputs(produced, inputs) && Steady(start, inputs) && Harmless(cfg, start, inputs)
    ensures var st := StepAll(cfg, Initial(start), inputs);
            && KeptBelow(st.cache, Reached(start, inputs)) && AnchorSeen(inputs, st)
            && ShapeInv(produced, st) && KeptThroughout(cfg, start, inputs)
  {
    hide ShapeInv, Numbered, SoundNode, Step, Filed, InWindow, GapFreeCache, AnchorHeld, AnchorSeen, Reconciles, NoneBeyond;
    EmptyCacheKept(produced, start);
    if inputs == [] {
      assert AnchorSeen(inputs, Initial(start)) by { NothingAnchored(inputs, start); }
    } else {
      var init, last := inputs[..|inputs| - 1], inputs[|inputs| - 1];
      assert forall i :: 0 <= i < |init| ==> init[i] == inputs[i];
      SteadyPrefix(start, inputs);
      RunKeepsCache(cfg, produced, start, init);
      var before := StepAll(cfg, Initial(start), init);
      SeenIsHeld(start, inputs, before);
      StepKeepsCache(cfg, last.0, produced, before, last.1, last.0.node.tip.value);
      StepKeepsShape(cfg, last.0, produced, before, last.1);
      SeenStaysSeen(inputs, before, StepAll(cfg, Initial(start), inputs));
    }
  }

  lemma NothingAnchored(inputs: seq<(View, Update)>, start: nat)
    ensures AnchorSeen(inputs, Initial(start))
  {
  }

  lemma {:induction false} KeptIsHarmless(cfg: Config, start: nat, inputs: seq<(View, Update)>)
    requires KeptThroughout(cfg, start, inputs)
    ensures Harmless(cfg, start, inputs)
  {
    hide WellKept, Step, NoneBeyond, ProcessCanonicalBlock, LoadOrDrop;
    if inputs != [] {
      var init, last := inputs[..|inputs| - 1], inputs[|inputs| - 1];
      var before := StepAll(cfg, Initial(start), init);
      KeptIsHarmless(cfg, start, init);
      if last.1.Canonical? && Reconciles(cfg, last.0, before, last.1) && !NoneBeyond(before.cache, last.1.block.number) {
        StepStrands(cfg, last.0, before, last.1);
        assert false;
      }
    }
  }

  /** Through every run whose tip is known and never moves back: cached blocks lie in the six
      blocks above the canonical height and each one's indices are exactly 0..k, after every
      update, if and only if no canonical block ever moved the height below a cached block's
      reach. */
  lemma CacheIsKeptExactly(cfg: Config, produced: set<FlashBlock>, start: nat, inputs: seq<(View, Update)>)
    requires SoundInputs(produced, inputs) && Steady(start, inputs)
    ensures KeptThroughout(cfg, start, inputs) <==> Harmless(cfg, start, inputs)
    ensures Harmless(cfg, start, inputs) ==>
              |StepAll(cfg, Initial(start), inputs).cache.entries| <= MAX_CACHE_AHEAD_BLOCKS + 1
  {
    hide KeptThroughout, Harmless, SoundInputs, Steady, StepAll, Filed, GapFreeCache;
    if KeptThroughout(cfg, start, inputs) {
      KeptIsHarmless(cfg, start, inputs);
    }
    if Harmless(cfg, start, inputs) {
      RunKeepsCache(cfg, produced, start, inputs);
      AtMostSixBlocks(StepAll(cfg, Initial(start), inputs).cache);
    }
  }

  /** The greatest of where the processor started and what it was notified of. */
  function Ceiling(start: nat, inputs: seq<(View, Update)>): nat {
    if inputs == [] then start
    else
      var below, update := Ceiling(start, inputs[..|inputs| - 1]), inputs[|inputs| - 1].1;
      if update.Canonical? && update.block.number > below then update.block.number else below
  }

  /** Notified heights never go down, and start no lower than the processor. */
  ghost predicate Rising(start: nat, inputs: seq<(View, Update)>) {
    inputs != [] ==>
      var init, update := inputs[..|inputs| - 1], inputs[|inputs| - 1].1;
      Rising(start, init) && (update.Canonical? ==> Ceiling(start, init) <= update.block.number)
  }

  /** Notifications in order are harmless. */
  lemma {:induction false} RisingIsHarmless(cfg: Config, produced: set<FlashBlock>, start: nat, inputs: seq<(View, Update)>)
    requires SoundInputs(produced, inputs) && Steady(start, inputs) && Rising(start, inputs)
    ensures Harmless(cfg, start, inputs)
    ensures var c := StepAll(cfg, Initial(start), inputs).cache;
            c.canonical.Some? && c.canonical.value <= Ceiling(start, inputs)
  {
    hide ShapeInv, Numbered, SoundNode, Step, Filed, GapFreeCache, AnchorHeld, AnchorSeen, ProcessCanonicalBlock, LoadOrDrop;
    if inputs != [] {
      var init, last := inputs[..|inputs| - 1], inputs[|inputs| - 1];
      assert forall i :: 0 <= i < |init| ==> init[i] == inputs[i];
      SteadyPrefix(start, inputs);
      RisingIsHarmless(cfg, produced, start, init);
      RunKeepsCache(cfg, produced, start, init);
      var before := StepAll(cfg, Initial(start), init);
      SeenIsHeld(start, inputs, before);
      StepKeepsCache(cfg, last.0, produced, before, last.1, last.0.node.tip.value);
    }
  }

  /** A late notification that breaks the window, on a run that is otherwise in order: started at
      10 with block 16 not yet anchored, then told of block 9. */
  lemma LateNotificationLeavesWindow(cfg: Config, v: View, fb: FlashBlock, block: CanonicalBlock)
    requires v.node.tip == Some(10) && v.node.header(15).Missing? && v.lastNotified <= 10
    requires fb.index == 0 && fb.meta.blockNumber == 16 && block.number == 9
    ensures var inputs := [(v, Flashblock(fb)), (v, Canonical(block))];
            && Steady(10, inputs)
            && WellKept(StepAll(cfg, Initial(10), inputs[..1]).cache)
            && !WellKept(StepAll(cfg, Initial(10), inputs).cache)
  {
    hide BuildOn, Replay, ByIndex;
    var inputs := [(v, Flashblock(fb)), (v, Canonical(block))];
    var first := Step(cfg, v, Initial(10), Flashblock(fb));
    assert inputs[..1] == [(v, Flashblock(fb))] && inputs[..1][..0] == [];
    assert StepAll(cfg, Initial(10), inputs[..1][..0]) == Initial(10);
    assert StepAll(cfg, Initial(10), inputs[..1]) == first;
    assert StepAll(cfg, Initial(10), inputs) == Step(cfg, v, first, Canonical(block));
    assert MinBlock([fb]) == 16;
    InsertKeeps(Initial(10).cache, fb);
    assert first.pending.None? && first.cache == Inserted(Initial(10).cache, fb);
    assert 16 in first.cache.entries;
    StepStrands(cfg, v, first, Canonical(block));
  }

  // ---------------------------------------------------------------------------------------
  // Replay
  // ---------------------------------------------------------------------------------------

  /** Flashblocks 0, 1, 2, ... of block `n`. */
  ghost predicate RunsOn(fbs: seq<FlashBlock>, n: nat) {
    forall j :: 0 <= j < |fbs| ==> fbs[j].meta.blockNumber == n && fbs[j].index == j
  }

  /** Building a list one flashblock at a time, each on the snapshot before it. */
  function Grow(rules: Rules, node: Node, fbs: seq<FlashBlock>): Result<Option<Snapshot>, Error> {
    if fbs == [] then Ok(None)
    else
      var prev := Grow(rules, node, fbs[..|fbs| - 1]);
      if prev.Err? then prev else Build(rules, node, prev.value, fbs)
  }

  /** What draining a filed and gap-free cache gives, wherever its window is. */
  lemma DrainedRunsOn(c: CacheState, n: nat)
    requires Filed(c) && GapFreeCache(c)
    ensures RunsOn(DrainedBlock(c, n), n)
  {
    hide ByIndex;
    if n in c.entries {
      DrainIsSorted(c.entries[n]);
      DrainIsContiguous(c.entries[n]);
    }
  }

  lemma RunsOnIsSequential(fbs: seq<FlashBlock>, n: nat)
    requires RunsOn(fbs, n) && fbs != []
    ensures Sequential(fbs)
  {
  }

  /** The snapshot grown from the first `k` flashblocks holds just these. */
  lemma GrownShape(cfg: Config, node: Node, produced: set<FlashBlock>, fbs: seq<FlashBlock>, n: nat)
    requires Numbered(produced) && SoundNode(node) && RunsOn(fbs, n)
    requires forall fb :: fb in fbs ==> fb in produced
    requires fbs != [] && Grow(cfg.rules, node, fbs).Ok?
    ensures var s := Grow(cfg.rules, node, fbs).value;
            && s.Some? && Shaped(produced, s.value) && s.value.flashblocks == fbs
            && s.value.earliest.number == s.value.latest.number == n && s.value.latestIndex == |fbs| - 1
  {
    hide Build, GapFree, Numbered;
    RunsOnIsSequential(fbs, n);
    var prev := Grow(cfg.rules, node, fbs[..|fbs| - 1]);
    BuildGivesSome(cfg.rules, node, prev.value, fbs);
    BuiltIsShaped(cfg, node, produced, prev.value, fbs, Grow(cfg.rules, node, fbs).value.value);
  }

  lemma BuildGivesSome(rules: Rules, node: Node, prev: Option<Snapshot>, fbs: seq<FlashBlock>)
    requires fbs != [] && Build(rules, node, prev, fbs).Ok?
    ensures Build(rules, node, prev, fbs).value.Some?
  {
    hide BuildOn;
  }

  lemma ReplayedProposal(cfg: Config, node: Node, produced: set<FlashBlock>, fbs: seq<FlashBlock>, n: nat)
    requires Numbered(produced) && SoundNode(node) && RunsOn(fbs, n) && fbs != []
    requires forall fb :: fb in fbs ==> fb in produced
    requires Grow(cfg.rules, node, fbs).Ok?
    ensures var init, last := fbs[..|fbs| - 1], fbs[|fbs| - 1];
            var prev := Grow(cfg.rules, node, init).value;
            var s := Grow(cfg.rules, node, fbs).value;
            && s.Some? && (prev.Some? <==> |fbs| > 1)
            && (prev.Some? ==> SequenceOf(prev.value, last).NextInSequence? && prev.value.earliest.number == n)
            && ProcessFlashblock(cfg, node, prev, last) ==
               Ok(if prev.Some? then Extend(s.value) else Restart(s.value))
  {
    hide Build, GapFree, Numbered, WellNumbered, Sequential, SoundNode;
    var init, last := fbs[..|fbs| - 1], fbs[|fbs| - 1];
    GrownShape(cfg, node, produced, fbs, n);
    if init == [] {
      assert fbs == [last];
    } else {
      assert forall fb :: fb in init ==> fb in fbs;
      GrownShape(cfg, node, produced, init, n);
      assert init + [last] == fbs;
    }
  }

  /** One replayed flashblock: the first starts a snapshot, each later one is next in sequence. */
  lemma ReplayedStep(cfg: Config, v: View, produced: set<FlashBlock>, st: State, fbs: seq<FlashBlock>, n: nat)
    requires Numbered(produced) && SoundNode(v.node) && RunsOn(fbs, n) && fbs != []
    requires forall fb :: fb in fbs ==> fb in produced
    requires Grow(cfg.rules, v.node, fbs).Ok?
    requires n > EffectiveCanonical(v.node, v.lastNotified) && !v.cleared(|fbs|)
    requires Ok(Published(st)) == Grow(cfg.rules, v.node, fbs[..|fbs| - 1])
    ensures LoadOrDrop(cfg, v, st, |fbs|) == st
    ensures st.pending.Some? ==> SequenceOf(st.pending.value.snapshot, fbs[|fbs| - 1]).NextInSequence?
    ensures var after := ApplyFlashblock(cfg, v, st, fbs[|fbs| - 1]);
            && Ok(Published(after)) == Grow(cfg.rules, v.node, fbs)
            && |after.sent| == |st.sent| + 1 && after.cache == st.cache
  {
    hide Grow, GapFree, Numbered, Sequential, ProcessFlashblock, SequenceOf;
    ReplayedProposal(cfg, v.node, produced, fbs, n);
    GrownShape(cfg, v.node, produced, fbs, n);
  }

  /** Replaying a block's cached flashblocks onto no snapshot, as long as each build succeeds, is
      one index-0 build followed only by next-in-sequence appends: what is published in the end
      is what growing the whole list gives, every flashblock was broadcast, nothing cached. */
  lemma {:induction false} ReplayGrows(cfg: Config, v: View, produced: set<FlashBlock>, st: State, fbs: seq<FlashBlock>, n: nat)
    requires Numbered(produced) && SoundNode(v.node) && RunsOn(fbs, n)
    requires forall fb :: fb in fbs ==> fb in produced
    requires st.pending.None? && n > EffectiveCanonical(v.node, v.lastNotified)
    requires forall k: nat :: k > 0 ==> !v.cleared(k)
    requires Grow(cfg.rules, v.node, fbs).Ok?
    ensures var after := Replay(cfg, v, st, fbs);
            && Ok(Published(after)) == Grow(cfg.rules, v.node, fbs)
            && |after.sent| == |st.sent| + |fbs| && after.cache == st.cache
    ensures forall j :: 0 < j < |fbs| ==>
              var s := Published(Replay(cfg, v, st, fbs[..j]));
              s.Some? && s.value.flashblocks == fbs[..j] && SequenceOf(s.value, fbs[j]).NextInSequence?
  {
    hide Numbered, SoundNode, Build, ApplyFlashblock, LoadOrDrop, SequenceOf, EffectiveCanonical;
    if fbs != [] {
      var init, last := fbs[..|fbs| - 1], fbs[|fbs| - 1];
      assert forall fb :: fb in init ==> fb in fbs;
      ReplayGrows(cfg, v, produced, st, init, n);
      ReplayedStep(cfg, v, produced, Replay(cfg, v, st, init), fbs, n);
      forall j | 0 < j < |fbs|
        ensures var s := Published(Replay(cfg, v, st, fbs[..j]));
                s.Some? && s.value.flashblocks == fbs[..j] && SequenceOf(s.value, fbs[j]).NextInSequence?
      {
        if j < |init| {
          assert init[..j] == fbs[..j] && init[j] == fbs[j];
        } else {
          GrownShape(cfg, v.node, produced, init, n);
        }
      }
    }
  }

  /** Growing a list one flashblock at a time gives what building it at once gives. */
  lemma {:induction false} GrowIsOneBuild(cfg: Config, node: Node, produced: set<FlashBlock>, fbs: seq<FlashBlock>, n: nat)
    requires HonestProducer(produced) && SystemReserved(cfg.rules) && SoundNode(node) && RunsOn(fbs, n)
    requires forall fb :: fb in fbs ==> fb in produced
    requires fbs != [] && Grow(cfg.rules, node, fbs).Ok?
    ensures var s := Grow(cfg.rules, node, fbs).value;
            && s.Some? && Faithful(cfg, produced, s.value) && s.value.flashblocks == fbs
            && node.header(s.value.anchor.number) == Found(s.value.anchor)
  {
    hide Build, BuildOn, Sequential, SystemReserved, SoundNode, GapFree;
    hide ReceiptsAgree;
    RunsOnIsSequential(fbs, n);
    var init := fbs[..|fbs| - 1];
    var prev := Grow(cfg.rules, node, init).value;
    BuildGivesSome(cfg.rules, node, prev, fbs);
    var s := Grow(cfg.rules, node, fbs).value.value;
    if init == [] {
      FreshIsFaithful(cfg, node, produced, fbs, s);
    } else {
      assert forall fb :: fb in init ==> fb in fbs;
      GrowIsOneBuild(cfg, node, produced, init, n);
      GrownIsFaithful(cfg, node, produced, prev.value, fbs, s);
    }
  }

  /** A canonical block after which nothing is published, because nothing was or because it caught
      up with the snapshot: what was cached for the next block is published as one index-0 build
      and its successors would have published it on time. */
  lemma CanonicalReplayGrows(cfg: Config, v: View, produced: set<FlashBlock>, st: State, block: CanonicalBlock, s: Option<Snapshot>)
    requires Numbered(produced) && SoundNode(v.node)
    requires ShapeInv(produced, st) && GapFreeCache(st.cache)
    requires ProcessCanonicalBlock(cfg, v.node, Published(LoadOrDrop(cfg, v, st, 0)), block) == Ok(s)
    requires Reconciled(cfg, v, LoadOrDrop(cfg, v, st, 0), block, s).pending.None?
    requires block.number + 1 > EffectiveCanonical(v.node, v.lastNotified)
    requires forall k: nat :: k > 0 ==> !v.cleared(k)
    requires Grow(cfg.rules, v.node, ToReplay(st, block)).Ok?
    ensures var after := Step(cfg, v, st, Canonical(block));
            && Ok(Published(after)) == Grow(cfg.rules, v.node, ToReplay(st, block))
            && |after.sent| == |st.sent| + |ToReplay(st, block)|
            && after.cache == Without(CanonicalAt(st.cache, block.number), block.number + 1)
  {
    hide Numbered, SoundNode, Shaped, Grow, DrainedBlock, Filed, GapFreeCache, Replay, EffectiveCanonical, RunsOn, CanonicalAt;
    hide ProcessCanonicalBlock, Replace;
    var loaded := LoadOrDrop(cfg, v, st, 0);
    AdvancedIsFiled(st.cache, block.number);
    DrainedRunsOn(CanonicalAt(st.cache, block.number), block.number + 1);
    DrainedAreProduced(st.cache, produced, block.number, block.number + 1);
    var reconciled := Reconciled(cfg, v, loaded, block, s);
    ReplacedSendsNothing(cfg, v, loaded, s, Continues(cfg, v.node, Published(loaded), block));
    ReplayGrows(cfg, v, produced, reconciled, ToReplay(st, block), block.number + 1);
  }

  lemma AdvancedIsFiled(c: CacheState, n: nat)
    requires Filed(c) && GapFreeCache(c)
    ensures Filed(CanonicalAt(c, n)) && GapFreeCache(CanonicalAt(c, n))
  {
  }

  lemma ReplacedSendsNothing(cfg: Config, v: View, st: State, s: Option<Snapshot>, continued: bool)
    ensures Replace(cfg, v, st, s, continued).sent == st.sent
  {
  }
}
