/** processor.rs: the single consumer of canonical blocks and flashblocks, and the one snapshot
    it keeps published. First each decision as a function of the state, then the processor as an
    object whose methods take those steps. */
module Processor {
  import opened Types
  import opened Validation
  import opened PendingBlocks
  import opened Rebuild
  import opened Cache

  /** A published snapshot. Handles with the same id are the same allocation. */
  datatype Handle = Handle(id: nat, snapshot: Snapshot)

  datatype CanonicalBlock = CanonicalBlock(number: nat, txHashes: seq<Hash>)

  datatype Update = Canonical(block: CanonicalBlock) | Flashblock(fb: FlashBlock)

  datatype Config = Config(rules: Rules, maxDepth: nat)

  /** What the processor meets from outside while it handles one update: the node, the height
      the receiving task last stored, and whether that task cleared the published snapshot before
      the update's k-th load of it. */
  datatype View = View(node: Node, lastNotified: nat, cleared: nat -> bool)

  /** `sent` is everything broadcast so far. `since` is the position in `sent` where the
      published snapshot's stream began: its first broadcast, from a build of a lone index-0
      flashblock. It is absent when nothing is published, and after a canonical block replaced
      the snapshot by one built from nothing, which is not broadcast. */
  datatype State = State(
    pending: Option<Handle>,
    nextId: nat,
    cache: CacheState,
    sent: seq<Snapshot>,
    since: Option<nat>)

  // ---------------------------------------------------------------------------------------
  // Heights
  // ---------------------------------------------------------------------------------------

  /** The greater of the notified height and the node's tip, when the tip is known. */
  function EffectiveCanonical(node: Node, notified: nat): (height: nat)
    ensures height >= notified && (node.tip.Some? ==> height >= node.tip.value)
    ensures height == notified || node.tip == Some(height)
  {
    if node.tip.Some? && node.tip.value > notified then node.tip.value else notified
  }

  predicate IsSuperseded(v: View, fb: FlashBlock): (superseded: bool)
    ensures superseded <==>
            fb.meta.blockNumber <= v.lastNotified
            || (v.node.tip.Some? && fb.meta.blockNumber <= v.node.tip.value)
  {
    fb.meta.blockNumber <= EffectiveCanonical(v.node, v.lastNotified)
  }

  /** The bound is on the first block a snapshot covers, not on its last. */
  predicate IsAnchoredNear(cfg: Config, s: Snapshot, best: nat): (near: bool)
    ensures near <==> best <= s.earliest.number + cfg.maxDepth
  {
    SaturatingSub(best, s.earliest.number) <= cfg.maxDepth
  }

  /** The publish gate. An unknown tip lets everything through. */
  predicate ExtendsCanonicalTip(cfg: Config, node: Node, s: Snapshot): (fits: bool)
    ensures fits <==>
            (node.tip.Some? ==> s.latest.number > node.tip.value && node.tip.value <= s.earliest.number + cfg.maxDepth)
  {
    node.tip.Some? ==> IsAnchoredNear(cfg, s, node.tip.value) && s.latest.number > node.tip.value
  }

  // ---------------------------------------------------------------------------------------
  // Steps
  // ---------------------------------------------------------------------------------------

  function Dropped(st: State): State {
    st.(pending := None, since := None)
  }

  /** The state after the k-th load of an update. The load leaves every field but `pending` and
      `since` as it was, so an invariant need only survive `Dropped` to survive it. */
  function LoadOrDrop(cfg: Config, v: View, st: State, k: nat): State {
    if st.pending.None? then st
    else if v.cleared(k) then Dropped(st)
    else if v.node.tip.Some? && !IsAnchoredNear(cfg, st.pending.value.snapshot, v.node.tip.value) then Dropped(st)
    else st
  }

  /** What a flashblock does to the published snapshot. */
  datatype Proposal =
    | Clear
    | Keep
    | Restart(first: Snapshot)
    | Extend(grown: Snapshot)

  function AsRestart(r: Result<Option<Snapshot>, Error>): Result<Proposal, Error> {
    match r
    case Err(e) => Err(e)
    case Ok(None) => Ok(Clear)
    case Ok(Some(s)) => Ok(Restart(s))
  }

  function AsExtension(r: Result<Option<Snapshot>, Error>): Result<Proposal, Error> {
    match r
    case Err(e) => Err(e)
    case Ok(None) => Ok(Clear)
    case Ok(Some(s)) => Ok(Extend(s))
  }

  function SequenceOf(s: Snapshot, fb: FlashBlock): SequenceResult {
    Validate(s.latest.number, s.latestIndex, s.PayloadId(), fb.meta.blockNumber, fb.index, fb.payloadId)
  }

  function ProcessFlashblock(cfg: Config, node: Node, prev: Option<Snapshot>, fb: FlashBlock): Result<Proposal, Error> {
    if prev.None? then
      if fb.index == 0 then AsRestart(Build(cfg.rules, node, None, [fb]))
      else Err(MissingFirstFlashblock)
    else
      match SequenceOf(prev.value, fb)
      case NextInSequence => AsExtension(Build(cfg.rules, node, prev, prev.value.flashblocks + [fb]))
      case FirstOfNextBlock => AsExtension(Build(cfg.rules, node, prev, prev.value.flashblocks + [fb]))
      case NewPayloadForCurrentBlock => AsRestart(Build(cfg.rules, node, None, [fb]))
      case Duplicate => Ok(Keep)
      case InvalidNewBlockIndex(_, _) => Ok(Clear)
      case NonSequentialGap(_, _) => Ok(Clear)
  }

  function Published(st: State): Option<Snapshot> {
    if st.pending.Some? then Some(st.pending.value.snapshot) else None
  }

  /** Publishes what passes the gate and broadcasts it, unless it is the snapshot already
      published. */
  function Publish(cfg: Config, v: View, st: State, proposal: Proposal): State {
    match proposal
    case Clear => Dropped(st)
    case Keep =>
      if st.pending.Some? && ExtendsCanonicalTip(cfg, v.node, st.pending.value.snapshot) then st else Dropped(st)
    case Restart(s) =>
      if !ExtendsCanonicalTip(cfg, v.node, s) then Dropped(st)
      else State(Some(Handle(st.nextId, s)), st.nextId + 1, st.cache, st.sent + [s], Some(|st.sent|))
    case Extend(s) =>
      if !ExtendsCanonicalTip(cfg, v.node, s) then Dropped(st)
      else State(Some(Handle(st.nextId, s)), st.nextId + 1, st.cache, st.sent + [s], st.since)
  }

  /** A flashblock that came too early is cached: when its anchor is not canonical yet, or when
      it continues flashblocks that are cached already. */
  function CacheEarly(st: State, fb: FlashBlock, e: Error): State {
    if e.MissingCanonicalHeader? then
      st.(cache := Inserted(st.cache, fb))
    else if e.MissingFirstFlashblock? && fb.index > 0
            && HasFlashblock(st.cache, fb.meta.blockNumber, fb.index - 1) then
      st.(cache := Inserted(st.cache, fb))
    else
      st
  }

  function ApplyFlashblock(cfg: Config, v: View, st: State, fb: FlashBlock): State {
    if IsSuperseded(v, fb) then st
    else
      match ProcessFlashblock(cfg, v.node, Published(st), fb)
      case Ok(proposal) => Publish(cfg, v, st, proposal)
      case Err(e) => CacheEarly(st, fb, e)
  }

  /** The notified block's hashes as pending tracks them. */
  function Tracked(s: Snapshot, block: CanonicalBlock): seq<Hash> {
    Hashes(TransactionsForBlock(s, block.number))
  }

  function StrategyFor(cfg: Config, node: Node, s: Snapshot, block: CanonicalBlock): Strategy {
    Reconcile(Some(s.earliest.number), Some(s.latest.number), EffectiveCanonical(node, block.number),
              cfg.maxDepth, Detect(Tracked(s, block), block.txHashes).RequiresRebuild())
  }

  /** The flashblocks a canonical block leaves to build from. */
  function Retained(cfg: Config, node: Node, s: Snapshot, block: CanonicalBlock): seq<FlashBlock> {
    match StrategyFor(cfg, node, s, block)
    case Continue => s.flashblocks
    case HandleReorg => Above(s.flashblocks, EffectiveCanonical(node, block.number))
    case DepthLimitExceeded(_, _) => Above(s.flashblocks, EffectiveCanonical(node, block.number))
    case CatchUp => []
    case NoPendingState => []
  }

  function ProcessCanonicalBlock(cfg: Config, node: Node, prev: Option<Snapshot>, block: CanonicalBlock)
    : Result<Option<Snapshot>, Error>
  {
    if prev.None? then Ok(None)
    else
      match StrategyFor(cfg, node, prev.value, block)
      case CatchUp => Ok(None)
      case NoPendingState => Ok(None)
      case HandleReorg => Build(cfg.rules, node, None, Retained(cfg, node, prev.value, block))
      case DepthLimitExceeded(_, _) => Build(cfg.rules, node, None, Retained(cfg, node, prev.value, block))
      case Continue => Build(cfg.rules, node, prev, Retained(cfg, node, prev.value, block))
  }

  predicate Continues(cfg: Config, node: Node, prev: Option<Snapshot>, block: CanonicalBlock) {
    prev.Some? && StrategyFor(cfg, node, prev.value, block).Continue?
  }

  /** Replaces the snapshot after a canonical block. Nothing is broadcast. */
  function Replace(cfg: Config, v: View, st: State, s: Option<Snapshot>, continued: bool): State {
    if s.None? || !ExtendsCanonicalTip(cfg, v.node, s.value) then Dropped(st)
    else st.(pending := Some(Handle(st.nextId, s.value)), nextId := st.nextId + 1,
             since := if continued then st.since else None)
  }

  function Replay(cfg: Config, v: View, st: State, fbs: seq<FlashBlock>): State {
    if fbs == [] then st
    else
      var before := LoadOrDrop(cfg, v, Replay(cfg, v, st, fbs[..|fbs| - 1]), |fbs|);
      ApplyFlashblock(cfg, v, before, fbs[|fbs| - 1])
  }

  /** The state once a canonical block has replaced the snapshot and advanced the cache. */
  function Reconciled(cfg: Config, v: View, st: State, block: CanonicalBlock, s: Option<Snapshot>): State {
    var replaced := Replace(cfg, v, st, s, Continues(cfg, v.node, Published(st), block));
    replaced.(cache := Without(CanonicalAt(st.cache, block.number), block.number + 1))
  }

  ghost function ToReplay(st: State, block: CanonicalBlock): seq<FlashBlock> {
    DrainedBlock(CanonicalAt(st.cache, block.number), block.number + 1)
  }

  ghost function Step(cfg: Config, v: View, st: State, update: Update): State {
    var loaded := LoadOrDrop(cfg, v, st, 0);
    match update
    case Flashblock(fb) => ApplyFlashblock(cfg, v, loaded, fb)
    case Canonical(block) =>
      match ProcessCanonicalBlock(cfg, v.node, Published(loaded), block)
      case Err(_) => loaded
      case Ok(s) =>
        Replay(cfg, v, Reconciled(cfg, v, loaded, block, s), ToReplay(loaded, block))
  }

  function Initial(canonical: nat): State {
    State(None, 0, CacheState(map[], Some(canonical)), [], None)
  }

  ghost function StepAll(cfg: Config, st: State, inputs: seq<(View, Update)>): State {
    if inputs == [] then st
    else
      var last := inputs[|inputs| - 1];
      Step(cfg, last.0, StepAll(cfg, st, inputs[..|inputs| - 1]), last.1)
  }

  // ---------------------------------------------------------------------------------------
  // The processor object
  // ---------------------------------------------------------------------------------------

  class StateProcessor {
    const cfg: Config
    const cache: FlashblockCache
    var pending: Option<Handle>
    var nextId: nat
    var sent: seq<Snapshot>
    ghost var since: Option<nat>

    ghost function Value(): State
      reads this, cache
    {
      State(pending, nextId, cache.State(), sent, since)
    }

    /** `best` is the node's tip when the processor starts; an unreadable tip counts as 0. */
    constructor (cfg: Config, best: Option<nat>)
      ensures this.cfg == cfg && fresh(cache)
      ensures Value() == Initial(if best.Some? then best.value else 0)
    {
      this.cfg := cfg;
      cache := new FlashblockCache(if best.Some? then best.value else 0);
      pending, nextId, sent, since := None, 0, [], None;
    }

    method LoadPendingOrDropStale(v: View, k: nat)
      modifies this
      ensures Value() == LoadOrDrop(cfg, v, old(Value()), k)
      ensures old(pending).Some? && !v.cleared(k) ==>
                (pending.None? <==> v.node.tip.Some?
                                    && v.node.tip.value > old(pending).value.snapshot.earliest.number + cfg.maxDepth)
      ensures pending.Some? ==> pending == old(pending)
    {
      if pending.None? {
        return;
      }
      if v.cleared(k) {
        pending, since := None, None;
        return;
      }
      if v.node.tip.None? || IsAnchoredNear(cfg, pending.value.snapshot, v.node.tip.value) {
        return;
      }
      pending, since := None, None;
    }

    method Consider(v: View, fb: FlashBlock) returns (r: Result<Proposal, Error>)
      ensures r == ProcessFlashblock(cfg, v.node, Published(Value()), fb)
    {
      if pending.None? {
        if fb.index == 0 {
          var built := BuildPendingState(cfg.rules, v.node, None, [fb]);
          return AsRestart(built);
        }
        return Err(MissingFirstFlashblock);
      }
      var prev := pending.value.snapshot;
      match SequenceOf(prev, fb) {
        case NextInSequence =>
          var built := BuildPendingState(cfg.rules, v.node, Some(prev), prev.flashblocks + [fb]);
          r := AsExtension(built);
        case FirstOfNextBlock =>
          var built := BuildPendingState(cfg.rules, v.node, Some(prev), prev.flashblocks + [fb]);
          r := AsExtension(built);
        case NewPayloadForCurrentBlock =>
          var built := BuildPendingState(cfg.rules, v.node, None, [fb]);
          r := AsRestart(built);
        case Duplicate => r := Ok(Keep);
        case InvalidNewBlockIndex(_, _) => r := Ok(Clear);
        case NonSequentialGap(_, _) => r := Ok(Clear);
      }
    }

    /** Publishes a proposal through the gate; a broadcast goes out only for a new snapshot. */
    method Settle(v: View, proposal: Proposal)
      modifies this
      ensures Value() == Publish(cfg, v, old(Value()), proposal)
    {
      var candidate := match proposal
        case Clear => None
        case Keep => pending
        case Restart(s) => Some(Handle(nextId, s))
        case Extend(s) => Some(Handle(nextId, s));
      if candidate.None? || !ExtendsCanonicalTip(cfg, v.node, candidate.value.snapshot) {
        pending, since := None, None;
        return;
      }
      if proposal.Keep? {
        return;
      }
      if proposal.Restart? {
        since := Some(|sent|);
      }
      nextId := nextId + 1;
      sent := sent + [candidate.value.snapshot];
      pending := candidate;
    }

    method Apply(v: View, fb: FlashBlock)
      modifies this, cache
      ensures Value() == ApplyFlashblock(cfg, v, old(Value()), fb)
    {
      if IsSuperseded(v, fb) {
        return;
      }
      var r := Consider(v, fb);
      match r {
        case Ok(proposal) =>
          Settle(v, proposal);
        case Err(e) =>
          match e {
            case MissingCanonicalHeader(_) =>
              var _ := cache.Insert(fb);
            case MissingFirstFlashblock =>
              if fb.index > 0 && HasFlashblock(cache.State(), fb.meta.blockNumber, fb.index - 1) {
                var _ := cache.Insert(fb);
              }
            case _ =>
          }
      }
    }

    method Rebase(v: View, block: CanonicalBlock) returns (r: Result<Option<Snapshot>, Error>)
      ensures r == ProcessCanonicalBlock(cfg, v.node, Published(Value()), block)
    {
      if pending.None? {
        return Ok(None);
      }
      var s := pending.value.snapshot;
      var canonical := EffectiveCanonical(v.node, block.number);
      var rebuild := Detect(Tracked(s, block), block.txHashes).RequiresRebuild();
      match Reconcile(Some(s.earliest.number), Some(s.latest.number), canonical, cfg.maxDepth, rebuild) {
        case CatchUp => r := Ok(None);
        case HandleReorg =>
          r := BuildPendingState(cfg.rules, v.node, None, Above(s.flashblocks, canonical));
        case DepthLimitExceeded(_, _) =>
          r := BuildPendingState(cfg.rules, v.node, None, Above(s.flashblocks, canonical));
        case Continue =>
          r := BuildPendingState(cfg.rules, v.node, Some(s), s.flashblocks);
        case NoPendingState => r := Ok(None);
      }
    }

    /** One update from the queue. */
    method Process(v: View, update: Update)
      modifies this, cache
      ensures Value() == Step(cfg, v, old(Value()), update)
    {
      LoadPendingOrDropStale(v, 0);
      match update {
        case Flashblock(fb) =>
          Apply(v, fb);
        case Canonical(block) =>
          var r := Rebase(v, block);
          if r.Ok? {
            ReplaceWith(v, block, r.value);
          }
      }
    }

    /** Swaps in what a canonical block leaves, through the gate. */
    method Swap(v: View, s: Option<Snapshot>, ghost continued: bool)
      modifies this
      ensures Value() == Replace(cfg, v, old(Value()), s, continued)
    {
      if s.None? || !ExtendsCanonicalTip(cfg, v.node, s.value) {
        pending, since := None, None;
        return;
      }
      pending := Some(Handle(nextId, s.value));
      nextId := nextId + 1;
      since := if continued then since else None;
    }

    method ReplayCached(v: View, early: seq<FlashBlock>)
      modifies this, cache
      ensures Value() == Replay(cfg, v, old(Value()), early)
    {
      hide ApplyFlashblock, LoadOrDrop;
      for i := 0 to |early|
        invariant Value() == Replay(cfg, v, old(Value()), early[..i])
      {
        assert early[..i + 1][..i] == early[..i];
        LoadPendingOrDropStale(v, i + 1);
        Apply(v, early[i]);
      }
      assert early[..|early|] == early;
    }

    method ReplaceWith(v: View, block: CanonicalBlock, s: Option<Snapshot>)
      modifies this, cache
      ensures Value() == Replay(cfg, v, Reconciled(cfg, v, old(Value()), block, s), ToReplay(old(Value()), block))
    {
      hide Replace, Replay, DrainedBlock, CanonicalAt, Without, Continues;
      ghost var continued := Continues(cfg, v.node, Published(Value()), block);
      Swap(v, s, continued);
      cache.UpdateCanonical(block.number);
      var early := cache.Drain(block.number + 1);
      ReplayCached(v, early);
    }

    /** Consumes the queue in order, each update with what the processor reads meanwhile. */
    method Start(queue: seq<(View, Update)>)
      modifies this, cache
      ensures Value() == StepAll(cfg, old(Value()), queue)
    {
      for i := 0 to |queue|
        invariant Value() == StepAll(cfg, old(Value()), queue[..i])
      {
        assert queue[..i + 1][..i] == queue[..i];
        Process(queue[i].0, queue[i].1);
      }
      assert queue[..|queue|] == queue;
    }
  }
}
