/** Invariants of every run: the published snapshot is what re-executing its flashblocks from
    nothing would give. */
module Runs {
  import opened Types
  import opened Validation
  import opened Assembler
  import opened PendingBlocks
  import opened Rebuild
  import opened Ordering
  import opened Incremental
  import opened Story
  import opened Sequence
  import opened Refinement
  import opened Cache
  import opened Processor
  import opened Gate

  // ---------------------------------------------------------------------------------------
  // What the code relies on without checking
  // ---------------------------------------------------------------------------------------

  /** The flashblocks the producer sends: base and metadata name the same block, and inside one
      block a hash keeps its receipt. */
  ghost predicate HonestProducer(produced: set<FlashBlock>) {
    (forall fb :: fb in produced ==> WellNumbered(fb)) && ReceiptsAgree(produced)
  }

  ghost predicate SystemReserved(rules: Rules) {
    forall h :: SystemStorageReserved(rules, rules.stateOf(h))
  }

  /** While a block is the published snapshot's anchor, the node reports it under its number. */
  ghost predicate StableAnchor(v: View, st: State) {
    st.pending.Some? ==>
      var anchor := st.pending.value.snapshot.anchor;
      v.node.header(anchor.number).Found? ==> v.node.header(anchor.number).header == anchor
  }

  // ---------------------------------------------------------------------------------------
  // The invariant
  // ---------------------------------------------------------------------------------------

  /** The snapshot is the plain re-execution of its own gap-free flashblocks on its anchor. */
  ghost predicate Faithful(cfg: Config, produced: set<FlashBlock>, s: Snapshot) {
    && Sequential(s.flashblocks)
    && (forall fb :: fb in s.flashblocks ==> fb in produced)
    && s.anchor.number + 1 == s.flashblocks[0].meta.blockNumber
    && BuildOn(cfg.rules, s.anchor, None, s.flashblocks) == Ok(s)
  }

  ghost predicate CacheHolds(c: CacheState, produced: set<FlashBlock>) {
    Filed(c) && forall n, i :: n in c.entries && i in c.entries[n] ==> c.entries[n][i] in produced
  }

  ghost predicate Inv(cfg: Config, produced: set<FlashBlock>, st: State) {
    && (st.pending.Some? ==> Faithful(cfg, produced, st.pending.value.snapshot))
    && CacheHolds(st.cache, produced)
  }

  // ---------------------------------------------------------------------------------------
  // Builds
  // ---------------------------------------------------------------------------------------

  /** What a successful build of a non-empty list rests on. */
  lemma BuildAnchors(rules: Rules, node: Node, prev: Option<Snapshot>, fbs: seq<FlashBlock>, s: Snapshot)
    requires SoundNode(node) && Sequential(fbs)
    requires Build(rules, node, prev, fbs) == Ok(Some(s))
    ensures s.anchor.number + 1 == fbs[0].meta.blockNumber
    ensures node.header(s.anchor.number) == Found(s.anchor)
    ensures BuildOn(rules, s.anchor, prev, fbs) == Ok(s)
  {
    hide MinBlock, PlanBlocks, Run;
    SequentialIsOrdered(fbs);
    OrderedMin(fbs);
  }

  lemma FreshIsFaithful(cfg: Config, node: Node, produced: set<FlashBlock>, fbs: seq<FlashBlock>, s: Snapshot)
    requires HonestProducer(produced) && SoundNode(node)
    requires Sequential(fbs) && forall fb :: fb in fbs ==> fb in produced
    requires Build(cfg.rules, node, None, fbs) == Ok(Some(s))
    ensures Faithful(cfg, produced, s) && s.flashblocks == fbs
    ensures node.header(s.anchor.number) == Found(s.anchor)
  {
    hide Build, BuildOn, GapFree;
    BuildAnchors(cfg.rules, node, None, fbs, s);
    BuildIsGapFree(cfg.rules, s.anchor, None, fbs, s);
  }

  /** Continuing a faithful snapshot with further flashblocks, or with none, is faithful: here
      the incremental build meets the full one. */
  lemma GrownIsFaithful(cfg: Config, node: Node, produced: set<FlashBlock>, prev: Snapshot, fbs: seq<FlashBlock>, s: Snapshot)
    requires HonestProducer(produced) && SystemReserved(cfg.rules) && SoundNode(node)
    requires Faithful(cfg, produced, prev) && prev.flashblocks <= fbs
    requires Sequential(fbs) && forall fb :: fb in fbs ==> fb in produced
    requires node.header(prev.anchor.number).Found? ==> node.header(prev.anchor.number).header == prev.anchor
    requires Build(cfg.rules, node, Some(prev), fbs) == Ok(Some(s))
    ensures Faithful(cfg, produced, s) && s.flashblocks == fbs
    ensures node.header(s.anchor.number) == Found(s.anchor)
  {
    hide Build, BuildOn, GapFree, StatusesKept, SystemStorageReserved, ReceiptsAgree;
    BuildAnchors(cfg.rules, node, Some(prev), fbs, s);
    assert prev.flashblocks[0] == fbs[0];
    assert s.anchor == prev.anchor;
    SequentialIsOrdered(fbs);
    AgreementKeepsStatuses(cfg.rules.spec, prev.flashblocks, fbs, produced);
    IncrementalRefinesFull(cfg.rules, prev.anchor, prev.flashblocks, prev, fbs);
    BuildIsGapFree(cfg.rules, s.anchor, None, fbs, s);
  }

  lemma FaithfulSpans(cfg: Config, produced: set<FlashBlock>, s: Snapshot)
    requires HonestProducer(produced) && Faithful(cfg, produced, s)
    ensures GapFree(s) && Spans(s) && OneStory(s)
    ensures s.latestIndex == s.flashblocks[|s.flashblocks| - 1].index
    ensures Hashes(s.transactions) == RawHashes(cfg.rules.spec, Payloads(s.flashblocks))
  {
    hide BuildOn, GapFree, OneStory, Payloads, Hashes, RawHashes;
    BuildIsGapFree(cfg.rules, s.anchor, None, s.flashblocks, s);
    BuildTellsOneStory(cfg.rules, s.anchor, None, s.flashblocks, s);
  }

  // ---------------------------------------------------------------------------------------
  // One flashblock
  // ---------------------------------------------------------------------------------------

  /** A proposal fit to publish: faithful, on an anchor the node reports. */
  ghost predicate FitToPublish(cfg: Config, node: Node, produced: set<FlashBlock>, p: Proposal) {
    match p
    case Clear => true
    case Keep => true
    case Restart(s) => Faithful(cfg, produced, s) && node.header(s.anchor.number) == Found(s.anchor)
    case Extend(s) => Faithful(cfg, produced, s) && node.header(s.anchor.number) == Found(s.anchor)
  }

  lemma ProposalIsFit(cfg: Config, v: View, produced: set<FlashBlock>, st: State, fb: FlashBlock)
    requires HonestProducer(produced) && SystemReserved(cfg.rules) && SoundNode(v.node)
    requires Inv(cfg, produced, st) && StableAnchor(v, st) && fb in produced
    ensures var r := ProcessFlashblock(cfg, v.node, Published(st), fb);
            r.Ok? ==> FitToPublish(cfg, v.node, produced, r.value)
  {
    hide Build, BuildOn, SystemStorageReserved, ReceiptsAgree, CacheHolds, GapFree, OneStory, Validate;
    hide RawHashes, Payloads, Hashes;
    var r := ProcessFlashblock(cfg, v.node, Published(st), fb);
    if r.Ok? && r.value.Restart? {
      FirstIsIndexZero(st, fb);
      FreshIsFaithful(cfg, v.node, produced, [fb], r.value.first);
    } else if r.Ok? && r.value.Extend? {
      var prev := st.pending.value.snapshot;
      FaithfulSpans(cfg, produced, prev);
      ValidatedFollows(prev, fb);
      AppendIsSequential(prev.flashblocks, fb);
      GrownIsFaithful(cfg, v.node, produced, prev, prev.flashblocks + [fb], r.value.grown);
    }
  }

  /** A build from nothing out of one flashblock is always of an index-0 flashblock. */
  lemma FirstIsIndexZero(st: State, fb: FlashBlock)
    ensures Published(st).Some? && SequenceOf(Published(st).value, fb).NewPayloadForCurrentBlock? ==> fb.index == 0
  {
  }

  lemma PublishKeeps(cfg: Config, v: View, produced: set<FlashBlock>, st: State, p: Proposal)
    requires HonestProducer(produced)
    requires Inv(cfg, produced, st) && StableAnchor(v, st)
    requires FitToPublish(cfg, v.node, produced, p)
    ensures var after := Publish(cfg, v, st, p);
            Inv(cfg, produced, after) && StableAnchor(v, after)
  {
    hide Faithful, CacheHolds, ReceiptsAgree, ExtendsCanonicalTip;
  }

  lemma CacheEarlyKeeps(cfg: Config, v: View, produced: set<FlashBlock>, st: State, fb: FlashBlock, e: Error)
    requires Inv(cfg, produced, st) && StableAnchor(v, st) && fb in produced
    ensures var after := CacheEarly(st, fb, e);
            Inv(cfg, produced, after) && StableAnchor(v, after)
  {
    hide Faithful;
  }

  lemma ApplyKeeps(cfg: Config, v: View, produced: set<FlashBlock>, st: State, fb: FlashBlock)
    requires HonestProducer(produced) && SystemReserved(cfg.rules) && SoundNode(v.node)
    requires Inv(cfg, produced, st) && StableAnchor(v, st) && fb in produced
    ensures var after := ApplyFlashblock(cfg, v, st, fb);
            Inv(cfg, produced, after) && StableAnchor(v, after)
  {
    hide Inv, StableAnchor, HonestProducer, SystemReserved, ProcessFlashblock, Publish, CacheEarly, FitToPublish;
    ProposalIsFit(cfg, v, produced, st, fb);
    var r := ProcessFlashblock(cfg, v.node, Published(st), fb);
    if r.Ok? {
      PublishKeeps(cfg, v, produced, st, r.value);
    } else {
      CacheEarlyKeeps(cfg, v, produced, st, fb, r.error);
    }
  }

  lemma LoadKeeps(cfg: Config, v: View, produced: set<FlashBlock>, st: State, k: nat)
    requires Inv(cfg, produced, st) && StableAnchor(v, st)
    ensures Inv(cfg, produced, LoadOrDrop(cfg, v, st, k)) && StableAnchor(v, LoadOrDrop(cfg, v, st, k))
  {
    hide Faithful, CacheHolds;
  }

  lemma {:induction false} ReplayKeeps(cfg: Config, v: View, produced: set<FlashBlock>, st: State, fbs: seq<FlashBlock>)
    requires HonestProducer(produced) && SystemReserved(cfg.rules) && SoundNode(v.node)
    requires Inv(cfg, produced, st) && StableAnchor(v, st)
    requires forall fb :: fb in fbs ==> fb in produced
    ensures var after := Replay(cfg, v, st, fbs);
            Inv(cfg, produced, after) && StableAnchor(v, after)
  {
    hide Inv, StableAnchor, HonestProducer, SystemReserved, ApplyFlashblock, LoadOrDrop;
    if fbs != [] {
      var init, last := fbs[..|fbs| - 1], fbs[|fbs| - 1];
      assert forall fb :: fb in init ==> fb in fbs;
      ReplayKeeps(cfg, v, produced, st, init);
      var before := Replay(cfg, v, st, init);
      LoadKeeps(cfg, v, produced, before, |fbs|);
      assert last in fbs;
      ApplyKeeps(cfg, v, produced, LoadOrDrop(cfg, v, before, |fbs|), last);
    }
  }

  // ---------------------------------------------------------------------------------------
  // One canonical block
  // ---------------------------------------------------------------------------------------

  /** What a canonical block leaves published: faithful, and the very same snapshot when the
      reconciler says continue. */
  lemma RebuiltIsFaithful(cfg: Config, v: View, produced: set<FlashBlock>, st: State, block: CanonicalBlock, s: Snapshot)
    requires HonestProducer(produced) && SystemReserved(cfg.rules) && SoundNode(v.node)
    requires Inv(cfg, produced, st) && StableAnchor(v, st)
    requires ProcessCanonicalBlock(cfg, v.node, Published(st), block) == Ok(Some(s))
    ensures Faithful(cfg, produced, s) && v.node.header(s.anchor.number) == Found(s.anchor)
    ensures Continues(cfg, v.node, Published(st), block) ==> s == st.pending.value.snapshot
  {
    hide Build, BuildOn, SystemStorageReserved, ReceiptsAgree, CacheHolds, GapFree, OneStory;
    hide Hashes, RawHashes, Payloads, StrategyFor;
    var prev := st.pending.value.snapshot;
    FaithfulSpans(cfg, produced, prev);
    RetainedShape(cfg, v.node, prev, block);
    var kept := Retained(cfg, v.node, prev, block);
    if Continues(cfg, v.node, Published(st), block) {
      GrownIsFaithful(cfg, v.node, produced, prev, kept, s);
      SameListSameSnapshot(cfg, produced, v.node, prev, s);
    } else {
      FreshIsFaithful(cfg, v.node, produced, kept, s);
    }
  }

  lemma SameListSameSnapshot(cfg: Config, produced: set<FlashBlock>, node: Node, a: Snapshot, b: Snapshot)
    requires Faithful(cfg, produced, a) && Faithful(cfg, produced, b) && a.flashblocks == b.flashblocks
    requires node.header(a.anchor.number).Found? ==> node.header(a.anchor.number).header == a.anchor
    requires node.header(b.anchor.number) == Found(b.anchor)
    ensures a == b
  {
    hide BuildOn;
    assert a.anchor.number == b.anchor.number;
  }

  lemma ReplaceKeeps(cfg: Config, v: View, produced: set<FlashBlock>, st: State, s: Option<Snapshot>, continued: bool)
    requires Inv(cfg, produced, st)
    requires s.Some? ==> Faithful(cfg, produced, s.value) && v.node.header(s.value.anchor.number) == Found(s.value.anchor)
    requires s.Some? && continued ==> Published(st) == s
    ensures var after := Replace(cfg, v, st, s, continued);
            Inv(cfg, produced, after) && StableAnchor(v, after) && after.cache == st.cache
  {
    hide Faithful, CacheHolds, ExtendsCanonicalTip;
  }

  lemma AdvancedCacheHolds(c: CacheState, produced: set<FlashBlock>, n: nat)
    requires CacheHolds(c, produced)
    ensures CacheHolds(Without(CanonicalAt(c, n), n + 1), produced)
  {
  }

  lemma ReconciledKeeps(cfg: Config, v: View, produced: set<FlashBlock>, st: State, block: CanonicalBlock, s: Option<Snapshot>)
    requires HonestProducer(produced) && SystemReserved(cfg.rules) && SoundNode(v.node)
    requires Inv(cfg, produced, st) && StableAnchor(v, st)
    requires ProcessCanonicalBlock(cfg, v.node, Published(st), block) == Ok(s)
    ensures var after := Reconciled(cfg, v, st, block, s);
            Inv(cfg, produced, after) && StableAnchor(v, after)
  {
    hide HonestProducer, SystemReserved, Faithful, CacheHolds, ProcessCanonicalBlock, Replace, Without, CanonicalAt, StrategyFor;
    if s.Some? {
      RebuiltIsFaithful(cfg, v, produced, st, block, s.value);
    }
    AdvancedCacheHolds(st.cache, produced, block.number);
    ReplaceKeeps(cfg, v, produced, st, s, Continues(cfg, v.node, Published(st), block));
  }

  lemma DrainedAreProduced(c: CacheState, produced: set<FlashBlock>, n: nat, m: nat)
    requires CacheHolds(c, produced)
    ensures forall fb :: fb in DrainedBlock(CanonicalAt(c, n), m) ==> fb in produced
  {
    var after := CanonicalAt(c, n);
    if m in after.entries {
      DrainIsSorted(after.entries[m]);
      var drained := ByIndex(after.entries[m]);
      forall fb | fb in drained
        ensures fb in produced
      {
        var j :| 0 <= j < |drained| && drained[j] == fb;
        assert drained[j] == after.entries[m][drained[j].index];
      }
    }
  }

  /** What one update needs from the outside world. */
  ghost predicate Allowed(produced: set<FlashBlock>, v: View, st: State, update: Update) {
    && SoundNode(v.node) && StableAnchor(v, st)
    && (update.Flashblock? ==> update.fb in produced)
  }

  lemma StepKeeps(cfg: Config, v: View, produced: set<FlashBlock>, st: State, update: Update)
    requires HonestProducer(produced) && SystemReserved(cfg.rules)
    requires Inv(cfg, produced, st) && Allowed(produced, v, st, update)
    ensures Inv(cfg, produced, Step(cfg, v, st, update))
  {
    hide HonestProducer, SystemReserved, StableAnchor, LoadOrDrop, ApplyFlashblock, ProcessCanonicalBlock, Reconciled;
    hide Faithful, CacheHolds, DrainedBlock;
    var loaded := LoadOrDrop(cfg, v, st, 0);
    LoadKeeps(cfg, v, produced, st, 0);
    match update
    case Flashblock(fb) =>
      ApplyKeeps(cfg, v, produced, loaded, fb);
    case Canonical(block) =>
      var r := ProcessCanonicalBlock(cfg, v.node, Published(loaded), block);
      if r.Ok? {
        ReconciledKeeps(cfg, v, produced, loaded, block, r.value);
        DrainedAreProduced(loaded.cache, produced, block.number, block.number + 1);
        ReplayKeeps(cfg, v, produced, Reconciled(cfg, v, loaded, block, r.value), ToReplay(loaded, block));
      }
  }

  // ---------------------------------------------------------------------------------------
  // What is broadcast
  // ---------------------------------------------------------------------------------------

  ghost predicate HandlesOld(st: State) {
    st.pending.Some? ==> st.pending.value.id < st.nextId
  }

  /** A flashblock sends something exactly when it publishes another allocation: a duplicate,
      a drop and an error send nothing. */
  lemma SentIffReplaced(cfg: Config, v: View, st: State, fb: FlashBlock)
    requires HandlesOld(st)
    ensures var after := ApplyFlashblock(cfg, v, st, fb);
            && HandlesOld(after)
            && after.sent == st.sent + (if after.pending.Some? && after.pending != st.pending
                                        then [after.pending.value.snapshot] else [])
  {
    hide ProcessFlashblock, ExtendsCanonicalTip, Inserted;
  }

  /** A canonical block sends nothing itself; what it replays sends at most one snapshot each. */
  lemma {:induction false} CanonicalSendsReplays(cfg: Config, v: View, st: State, fbs: seq<FlashBlock>)
    requires HandlesOld(st)
    ensures var after := Replay(cfg, v, st, fbs);
            HandlesOld(after) && st.sent <= after.sent && |after.sent| <= |st.sent| + |fbs|
    ensures forall block, s :: Reconciled(cfg, v, st, block, s).sent == st.sent
  {
    hide ApplyFlashblock, ExtendsCanonicalTip, Continues;
    if fbs != [] {
      var init, last := fbs[..|fbs| - 1], fbs[|fbs| - 1];
      CanonicalSendsReplays(cfg, v, st, init);
      SentIffReplaced(cfg, v, LoadOrDrop(cfg, v, Replay(cfg, v, st, init), |fbs|), last);
    }
  }

  // ---------------------------------------------------------------------------------------
  // Every run
  // ---------------------------------------------------------------------------------------

  ghost predicate AllowedRun(cfg: Config, produced: set<FlashBlock>, start: State, inputs: seq<(View, Update)>) {
    inputs != [] ==>
      var init, last := inputs[..|inputs| - 1], inputs[|inputs| - 1];
      AllowedRun(cfg, produced, start, init) && Allowed(produced, last.0, StepAll(cfg, start, init), last.1)
  }

  lemma {:induction false} RunKeepsInv(cfg: Config, produced: set<FlashBlock>, start: State, inputs: seq<(View, Update)>)
    requires HonestProducer(produced) && SystemReserved(cfg.rules)
    requires Inv(cfg, produced, start) && AllowedRun(cfg, produced, start, inputs)
    ensures Inv(cfg, produced, StepAll(cfg, start, inputs))
  {
    hide Inv, Allowed, HonestProducer, SystemReserved, Step;
    if inputs != [] {
      var init, last := inputs[..|inputs| - 1], inputs[|inputs| - 1];
      RunKeepsInv(cfg, produced, start, init);
      StepKeeps(cfg, last.0, produced, StepAll(cfg, start, init), last.1);
    }
  }

  /** In every reachable state the published snapshot is exactly what building its flashblocks
      from nothing on its anchor gives: no run of appends, new payloads, retains, rebases and
      replays ever lets it drift from plain re-execution. */
  lemma ReachableIsFaithful(cfg: Config, produced: set<FlashBlock>, tip: nat, inputs: seq<(View, Update)>)
    requires HonestProducer(produced) && SystemReserved(cfg.rules)
    requires AllowedRun(cfg, produced, Initial(tip), inputs)
    ensures var st := StepAll(cfg, Initial(tip), inputs);
            st.pending.Some? ==>
              var s := st.pending.value.snapshot;
              BuildOn(cfg.rules, s.anchor, None, s.flashblocks) == Ok(s)
  {
    hide BuildOn, StepAll, HonestProducer, SystemReserved, AllowedRun;
    RunKeepsInv(cfg, produced, Initial(tip), inputs);
  }
}
