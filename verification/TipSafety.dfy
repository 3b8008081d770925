/** What the heights promise after every update, from any state and over every run: reorgs
    downward, lagging notifications and failed rebuilds included. */
module TipSafety {
  import opened Types
  import opened Validation
  import opened PendingBlocks
  import opened Rebuild
  import opened Cache
  import opened Processor

  /** Absent, or with its earliest block at most `maxDepth` behind the tip. */
  predicate Near(cfg: Config, st: State, tip: nat) {
    st.pending.Some? ==> tip <= st.pending.value.snapshot.earliest.number + cfg.maxDepth
  }

  /** Absent, or near the tip and strictly above it. */
  predicate OnTip(cfg: Config, st: State, tip: nat) {
    Near(cfg, st, tip) && (st.pending.Some? ==> st.pending.value.snapshot.latest.number > tip)
  }

  /** A load drops the snapshot exactly when it was cleared, or its earliest block is more than
      `maxDepth` behind a known tip. */
  lemma LoadDropsExactly(cfg: Config, v: View, st: State, k: nat)
    ensures var after := LoadOrDrop(cfg, v, st, k);
            && (after == st || (st.pending.Some? && after == Dropped(st)))
            && (st.pending.Some? ==>
                  (after.pending.None? <==>
                     v.cleared(k)
                     || (v.node.tip.Some?
                         && v.node.tip.value > st.pending.value.snapshot.earliest.number + cfg.maxDepth)))
  {
  }

  lemma ApplyIsGated(cfg: Config, v: View, st: State, fb: FlashBlock, tip: nat)
    requires v.node.tip == Some(tip)
    ensures var after := ApplyFlashblock(cfg, v, st, fb);
            after.pending == st.pending || OnTip(cfg, after, tip)
    ensures var after := ApplyFlashblock(cfg, v, st, fb);
            !IsSuperseded(v, fb) && ProcessFlashblock(cfg, v.node, Published(st), fb).Ok? ==> OnTip(cfg, after, tip)
  {
  }

  lemma {:induction false} ReplayIsGated(cfg: Config, v: View, st: State, fbs: seq<FlashBlock>, tip: nat)
    requires v.node.tip == Some(tip)
    requires OnTip(cfg, st, tip)
    ensures OnTip(cfg, Replay(cfg, v, st, fbs), tip)
  {
    if fbs != [] {
      var init, last := fbs[..|fbs| - 1], fbs[|fbs| - 1];
      ReplayIsGated(cfg, v, st, init, tip);
      ApplyIsGated(cfg, v, LoadOrDrop(cfg, v, Replay(cfg, v, st, init), |fbs|), last, tip);
    }
  }

  /** A rebuild that fails leaves the old snapshot published. It was only attempted because that
      snapshot still reaches past the effective height. */
  lemma FailedRebuildExtends(cfg: Config, node: Node, s: Snapshot, block: CanonicalBlock, tip: nat)
    requires node.tip == Some(tip)
    requires ProcessCanonicalBlock(cfg, node, Some(s), block).Err?
    ensures s.latest.number > tip
  {
  }

  /** Does this update swap the outcome of a flashblock in, be it a new snapshot or, on a
      duplicate, the one that was loaded? */
  predicate SwapsIn(cfg: Config, v: View, st: State, update: Update) {
    && update.Flashblock? && !IsSuperseded(v, update.fb)
    && ProcessFlashblock(cfg, v.node, Published(LoadOrDrop(cfg, v, st, 0)), update.fb).Ok?
  }

  /** One update with a known tip. */
  lemma StepIsSafe(cfg: Config, v: View, st: State, update: Update, tip: nat)
    requires v.node.tip == Some(tip)
    ensures Near(cfg, Step(cfg, v, st, update), tip)
    ensures update.Canonical? || SwapsIn(cfg, v, st, update) ==> OnTip(cfg, Step(cfg, v, st, update), tip)
    ensures var loaded, after := LoadOrDrop(cfg, v, st, 0), Step(cfg, v, st, update);
            after.pending != loaded.pending ==> OnTip(cfg, after, tip)
  {
    var loaded := LoadOrDrop(cfg, v, st, 0);
    match update
    case Flashblock(fb) =>
      ApplyIsGated(cfg, v, loaded, fb, tip);
    case Canonical(block) =>
      var r := ProcessCanonicalBlock(cfg, v.node, Published(loaded), block);
      if r.Err? {
        FailedRebuildExtends(cfg, v.node, loaded.pending.value.snapshot, block, tip);
      } else {
        ReplayIsGated(cfg, v, Reconciled(cfg, v, loaded, block, r.value), ToReplay(loaded, block), tip);
      }
  }

  /** Every run, whatever the tips and notifications it sees: after the last update with a known
      tip the published snapshot is absent or near that tip; after a canonical update, and after
      a flashblock's outcome was swapped in, it is also strictly above it. */
  lemma RunIsSafe(cfg: Config, start: State, inputs: seq<(View, Update)>)
    requires inputs != []
    ensures var v, update := inputs[|inputs| - 1].0, inputs[|inputs| - 1].1;
            var before, after := StepAll(cfg, start, inputs[..|inputs| - 1]), StepAll(cfg, start, inputs);
            v.node.tip.Some? ==>
              && Near(cfg, after, v.node.tip.value)
              && (update.Canonical? || SwapsIn(cfg, v, before, update) ==> OnTip(cfg, after, v.node.tip.value))
  {
    hide Near, OnTip, SwapsIn, Step;
    var v, update := inputs[|inputs| - 1].0, inputs[|inputs| - 1].1;
    if v.node.tip.Some? {
      StepIsSafe(cfg, v, StepAll(cfg, start, inputs[..|inputs| - 1]), update, v.node.tip.value);
    }
  }
}
