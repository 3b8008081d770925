/** Exactly-once streaming in every reachable state. Like gap freedom it rests on nothing but the
    producer numbering base and metadata alike: what a broadcast adds depends on the flashblocks
    and not on how, or on which anchor, they were executed. */
module Streaming {
  import opened Types
  import opened Validation
  import opened Assembler
  import opened PendingBlocks
  import opened Rebuild
  import opened Story
  import opened Sequence
  import opened Refinement
  import opened Served
  import opened Cache
  import opened Processor
  import opened Gate
  import opened Runs
  import opened Shape

  /** Everything broadcast, end to end. */
  function StreamOf(sent: seq<Snapshot>): seq<Hash> {
    if sent == [] then [] else StreamOf(sent[..|sent| - 1]) + LatestHashes(sent[|sent| - 1])
  }

  /** A snapshot that tells one story, lists what its flashblocks encode, and whose latest
      flashblock accounts for the end of the list. */
  ghost predicate Told(rules: Rules, s: Snapshot) {
    && OneStory(s) && ServesItsList(rules, s) && s.flashblocks != []
    && Hashes(s.transactions) == RawHashes(rules.spec, Payloads(s.flashblocks))
    && Hashes(s.transactions) ==
       RawHashes(rules.spec, Payloads(s.flashblocks[..|s.flashblocks| - 1])) + LatestHashes(s)
  }

  /** Subscribers who followed since the snapshot's stream began have seen its transactions,
      each once and in order. */
  ghost predicate StreamedOnce(st: State) {
    && (st.pending.None? ==> st.since.None?)
    && (st.since.Some? && st.pending.Some? ==>
          st.since.value <= |st.sent|
          && StreamOf(st.sent[st.since.value..]) == Hashes(st.pending.value.snapshot.transactions))
  }

  ghost predicate StreamInv(rules: Rules, st: State) {
    (st.pending.Some? ==> Told(rules, st.pending.value.snapshot)) && StreamedOnce(st)
  }

  // ---------------------------------------------------------------------------------------
  // Builds and broadcasts
  // ---------------------------------------------------------------------------------------

  /** Any build of a gap-free list, whatever previous snapshot it continued. */
  lemma BuiltIsTold(cfg: Config, node: Node, produced: set<FlashBlock>, prev: Option<Snapshot>, fbs: seq<FlashBlock>, s: Snapshot)
    requires Numbered(produced) && SoundNode(node)
    requires Sequential(fbs) && forall fb :: fb in fbs ==> fb in produced
    requires prev.Some? ==> Told(cfg.rules, prev.value)
    requires Build(cfg.rules, node, prev, fbs) == Ok(Some(s))
    ensures Told(cfg.rules, s) && s.flashblocks == fbs
  {
    hide Build, BuildOn, GapFree, OneStory, Hashes, RawHashes, Payloads, LatestHashes, Regrouped, BlockNumbers;
    hide ServesItsList, SoundSenders;
    if prev.Some? {
      ToldSenders(cfg.rules, prev.value);
    } else {
      NoSenders(cfg.rules);
    }
    BuildAnchors(cfg.rules, node, prev, fbs, s);
    BuildIsGapFree(cfg.rules, s.anchor, prev, fbs, s);
    BuildTellsOneStory(cfg.rules, s.anchor, prev, fbs, s);
    LatestHashesExact(cfg.rules, s.anchor, prev, fbs, s);
    BuildServes(cfg.rules, s.anchor, prev, fbs, s);
  }

  /** The senders a told snapshot knows are recovered ones. */
  lemma ToldSenders(rules: Rules, s: Snapshot)
    requires Told(rules, s)
    ensures SoundSenders(rules, s.senders)
  {
    hide LastReceipt, Hashes, RawHashes, Payloads, LatestHashes, ServedReceipt, TellsOneStory;
    forall h | h in s.senders
      ensures rules.recover(Tx(h)) == Some(s.senders[h])
    {
      var t := s.byHash[h];
      assert t in s.transactions && t.tx == Tx(h);
    }
  }

  lemma NoSenders(rules: Rules)
    ensures SoundSenders(rules, KnownSenders(None))
  {
  }

  lemma RestartStreams(rules: Rules, sent: seq<Snapshot>, s: Snapshot)
    requires Told(rules, s) && |s.flashblocks| == 1
    ensures StreamOf((sent + [s])[|sent|..]) == Hashes(s.transactions)
  {
    hide OneStory, ServesItsList, Hashes, LatestHashes;
    assert s.flashblocks[..0] == [];
    assert (sent + [s])[|sent|..] == [s];
    assert [s][..0] == [];
    assert StreamOf([s]) == StreamOf([s][..0]) + LatestHashes(s);
  }

  lemma ExtendStreams(rules: Rules, sent: seq<Snapshot>, since: nat, prev: Snapshot, s: Snapshot)
    requires Told(rules, prev) && Told(rules, s)
    requires s.flashblocks[..|s.flashblocks| - 1] == prev.flashblocks
    requires since <= |sent| && StreamOf(sent[since..]) == Hashes(prev.transactions)
    ensures StreamOf((sent + [s])[since..]) == Hashes(s.transactions)
  {
    hide OneStory, ServesItsList, Hashes, LatestHashes, Payloads, RawHashes;
    var stream := (sent + [s])[since..];
    assert stream[..|stream| - 1] == sent[since..];
    assert stream[|stream| - 1] == s;
  }

  // ---------------------------------------------------------------------------------------
  // One flashblock
  // ---------------------------------------------------------------------------------------

  ghost predicate ToldProposal(rules: Rules, prev: Option<Snapshot>, p: Proposal) {
    match p
    case Clear => true
    case Keep => true
    case Restart(s) => Told(rules, s) && |s.flashblocks| == 1
    case Extend(s) =>
      Told(rules, s) && prev.Some? && s.flashblocks[..|s.flashblocks| - 1] == prev.value.flashblocks
  }

  lemma ProposalIsTold(cfg: Config, v: View, produced: set<FlashBlock>, st: State, fb: FlashBlock)
    requires Numbered(produced) && SoundNode(v.node) && fb in produced
    requires ShapeInv(produced, st) && StreamInv(cfg.rules, st)
    ensures var r := ProcessFlashblock(cfg, v.node, Published(st), fb);
            r.Ok? ==> ToldProposal(cfg.rules, Published(st), r.value)
  {
    hide Build, GapFree, Validate, CacheHolds, WellNumbered, Told, Numbered, SoundNode;
    var r := ProcessFlashblock(cfg, v.node, Published(st), fb);
    if r.Ok? && r.value.Restart? {
      FirstIsIndexZero(st, fb);
      BuiltIsTold(cfg, v.node, produced, None, [fb], r.value.first);
    } else if r.Ok? && r.value.Extend? {
      var prev := st.pending.value.snapshot;
      ValidatedFollows(prev, fb);
      AppendIsSequential(prev.flashblocks, fb);
      BuiltIsTold(cfg, v.node, produced, Some(prev), prev.flashblocks + [fb], r.value.grown);
    }
  }

  lemma PublishStreams(cfg: Config, v: View, st: State, p: Proposal)
    requires StreamInv(cfg.rules, st) && ToldProposal(cfg.rules, Published(st), p)
    ensures StreamInv(cfg.rules, Publish(cfg, v, st, p))
  {
    hide Told, Hashes, StreamOf, ExtendsCanonicalTip;
    if p.Restart? {
      RestartStreams(cfg.rules, st.sent, p.first) by { assert Told(cfg.rules, p.first); }
    } else if p.Extend? && st.since.Some? {
      ExtendStreams(cfg.rules, st.sent, st.since.value, st.pending.value.snapshot, p.grown);
    }
  }

  lemma ApplyStreams(cfg: Config, v: View, produced: set<FlashBlock>, st: State, fb: FlashBlock)
    requires Numbered(produced) && SoundNode(v.node) && fb in produced
    requires ShapeInv(produced, st) && StreamInv(cfg.rules, st)
    ensures StreamInv(cfg.rules, ApplyFlashblock(cfg, v, st, fb))
  {
    hide Told, Numbered, SoundNode, ShapeInv, StreamOf, Hashes, ProcessFlashblock, Publish, ToldProposal, Inserted;
    ProposalIsTold(cfg, v, produced, st, fb);
    var r := ProcessFlashblock(cfg, v.node, Published(st), fb);
    if r.Ok? {
      PublishStreams(cfg, v, st, r.value);
    }
  }

  lemma LoadStreams(cfg: Config, v: View, produced: set<FlashBlock>, st: State, k: nat)
    requires ShapeInv(produced, st) && StreamInv(cfg.rules, st)
    ensures ShapeInv(produced, LoadOrDrop(cfg, v, st, k)) && StreamInv(cfg.rules, LoadOrDrop(cfg, v, st, k))
  {
    hide Told, Shaped, CacheHolds, StreamOf, Hashes;
  }

  lemma {:induction false} ReplayStreams(cfg: Config, v: View, produced: set<FlashBlock>, st: State, fbs: seq<FlashBlock>)
    requires Numbered(produced) && SoundNode(v.node)
    requires forall fb :: fb in fbs ==> fb in produced
    requires ShapeInv(produced, st) && StreamInv(cfg.rules, st)
    ensures StreamInv(cfg.rules, Replay(cfg, v, st, fbs))
  {
    hide Numbered, SoundNode, ShapeInv, StreamInv, ApplyFlashblock, LoadOrDrop;
    if fbs != [] {
      var init, last := fbs[..|fbs| - 1], fbs[|fbs| - 1];
      assert forall fb :: fb in init ==> fb in fbs;
      ReplayStreams(cfg, v, produced, st, init);
      ReplayKeepsShape(cfg, v, produced, st, init);
      var before := Replay(cfg, v, st, init);
      LoadStreams(cfg, v, produced, before, |fbs|);
      assert last in fbs;
      ApplyStreams(cfg, v, produced, LoadOrDrop(cfg, v, before, |fbs|), last);
    }
  }

  // ---------------------------------------------------------------------------------------
  // One canonical block
  // ---------------------------------------------------------------------------------------

  /** What a canonical block leaves published is told; under `Continue` it lists the same
      transactions, even on an anchor that has changed meanwhile. */
  lemma RebuiltIsTold(cfg: Config, v: View, produced: set<FlashBlock>, prev: Snapshot, block: CanonicalBlock, s: Snapshot)
    requires Numbered(produced) && SoundNode(v.node)
    requires Shaped(produced, prev) && Told(cfg.rules, prev)
    requires ProcessCanonicalBlock(cfg, v.node, Some(prev), block) == Ok(Some(s))
    ensures Told(cfg.rules, s)
    ensures Continues(cfg, v.node, Some(prev), block) ==> Hashes(s.transactions) == Hashes(prev.transactions)
  {
    hide Build, GapFree, StrategyFor, WellNumbered, OneStory, ServesItsList, Hashes, RawHashes, Payloads, LatestHashes;
    RetainedShape(cfg, v.node, prev, block);
    var kept := Retained(cfg, v.node, prev, block);
    var base := if Continues(cfg, v.node, Some(prev), block) then Some(prev) else None;
    BuiltIsTold(cfg, v.node, produced, base, kept, s);
  }

  lemma ReconciledStreams(cfg: Config, v: View, produced: set<FlashBlock>, st: State, block: CanonicalBlock, s: Option<Snapshot>)
    requires Numbered(produced) && SoundNode(v.node)
    requires ShapeInv(produced, st) && StreamInv(cfg.rules, st)
    requires ProcessCanonicalBlock(cfg, v.node, Published(st), block) == Ok(s)
    ensures StreamInv(cfg.rules, Reconciled(cfg, v, st, block, s))
  {
    hide Told, Shaped, Numbered, SoundNode, CacheHolds, ExtendsCanonicalTip, StrategyFor, Build;
    hide Hashes, StreamOf, CanonicalAt, Without;
    if s.Some? {
      RebuiltIsTold(cfg, v, produced, st.pending.value.snapshot, block, s.value);
    }
  }

  // ---------------------------------------------------------------------------------------
  // One update, every run
  // ---------------------------------------------------------------------------------------

  lemma StepStreams(cfg: Config, v: View, produced: set<FlashBlock>, st: State, update: Update)
    requires Numbered(produced) && SoundNode(v.node)
    requires update.Flashblock? ==> update.fb in produced
    requires ShapeInv(produced, st) && StreamInv(cfg.rules, st)
    ensures StreamInv(cfg.rules, Step(cfg, v, st, update))
  {
    hide Numbered, SoundNode, ShapeInv, StreamInv, LoadOrDrop, ApplyFlashblock, ProcessCanonicalBlock, Reconciled;
    hide DrainedBlock;
    var loaded := LoadOrDrop(cfg, v, st, 0);
    LoadStreams(cfg, v, produced, st, 0);
    match update
    case Flashblock(fb) =>
      ApplyStreams(cfg, v, produced, loaded, fb);
    case Canonical(block) =>
      var r := ProcessCanonicalBlock(cfg, v.node, Published(loaded), block);
      if r.Ok? {
        ReconciledKeepsShape(cfg, v, produced, loaded, block, r.value);
        ReconciledStreams(cfg, v, produced, loaded, block, r.value);
        ShapedCacheHolds(produced, loaded);
        DrainedAreProduced(loaded.cache, produced, block.number, block.number + 1);
        ReplayStreams(cfg, v, produced, Reconciled(cfg, v, loaded, block, r.value), ToReplay(loaded, block));
      }
  }

  lemma {:induction false} RunStreams(cfg: Config, produced: set<FlashBlock>, start: State, inputs: seq<(View, Update)>)
    requires SoundInputs(produced, inputs)
    requires ShapeInv(produced, start) && StreamInv(cfg.rules, start)
    ensures StreamInv(cfg.rules, StepAll(cfg, start, inputs))
  {
    hide ShapeInv, StreamInv, Numbered, SoundNode, Step;
    if inputs != [] {
      var init, last := inputs[..|inputs| - 1], inputs[|inputs| - 1];
      assert forall i :: 0 <= i < |init| ==> init[i] == inputs[i];
      RunStreams(cfg, produced, start, init);
      RunKeepsShape(cfg, produced, start, init);
      StepStreams(cfg, last.0, produced, StepAll(cfg, start, init), last.1);
    }
  }

  /** In every reachable state the published snapshot tells one story. */
  lemma ReachableTellsOneStory(cfg: Config, produced: set<FlashBlock>, tip: nat, inputs: seq<(View, Update)>)
    requires SoundInputs(produced, inputs)
    ensures var st := StepAll(cfg, Initial(tip), inputs);
            st.pending.Some? ==> OneStory(st.pending.value.snapshot)
  {
    hide OneStory, ServesItsList, StepAll, SoundInputs;
    RunStreams(cfg, produced, Initial(tip), inputs);
  }

  /** In every reachable state what is served is the snapshot's flashblocks' own word. */
  lemma ReachableServesItsList(cfg: Config, produced: set<FlashBlock>, tip: nat, inputs: seq<(View, Update)>)
    requires SoundInputs(produced, inputs)
    ensures var st := StepAll(cfg, Initial(tip), inputs);
            st.pending.Some? ==> ServesItsList(cfg.rules, st.pending.value.snapshot)
  {
    hide ServesItsList, StepAll, SoundInputs, OneStory;
    RunStreams(cfg, produced, Initial(tip), inputs);
  }

  /** In every reachable state whose snapshot's stream began with an index-0 build and did not end,
      the broadcasts from that point on add up to the published transaction list, with no hash
      twice: through reorgs, changed anchors, resent receipts and failed builds alike. */
  lemma ReachableIsStreamedOnce(cfg: Config, produced: set<FlashBlock>, tip: nat, inputs: seq<(View, Update)>)
    requires SoundInputs(produced, inputs)
    ensures var st := StepAll(cfg, Initial(tip), inputs);
            st.pending.Some? && st.since.Some? ==>
              var txs := st.pending.value.snapshot.transactions;
              && st.since.value <= |st.sent|
              && StreamOf(st.sent[st.since.value..]) == Hashes(txs)
              && forall i, j :: 0 <= i < j < |txs| ==> Hashes(txs)[i] != Hashes(txs)[j]
  {
    hide StepAll, SoundInputs, StreamOf, TellsOneStory, ServesItsList, LatestHashes, Payloads, RawHashes;
    RunStreams(cfg, produced, Initial(tip), inputs);
  }
}
