/** What a snapshot's bundle means: reading `pending` through it gives the world that executing
    the flashblocks produced, system calls and transactions in order. */
module Execution {
  import opened Types
  import opened Assembler
  import opened Overlay
  import opened PendingBlocks
  import opened Rebuild
  import opened Refinement
  import opened Processor
  import opened Runs

  // ---------------------------------------------------------------------------------------
  // Executing a plan on a materialised world
  // ---------------------------------------------------------------------------------------

  /** A system call's effect: one slot, and no account comes or goes. */
  function SetSlot(w: World, x: Write): World {
    w.(slot := (a: Address, key: Word) => SlotSet(w, x, a, key))
  }

  function SlotSet(w: World, x: Write, a: Address, key: Word): Word {
    if a == x.address && key == x.slot then x.value else w.slot(a, key)
  }

  function SetSlots(w: World, xs: seq<Write>): World {
    if xs == [] then w else SetSlot(SetSlots(w, xs[..|xs| - 1]), xs[|xs| - 1])
  }

  /** The state changes of a step that is run. */
  function DeltaOf(rules: Rules, anchor: World, step: TxStep, p: Progress): Option<Delta> {
    match rules.transact(anchor, p.db, step.env, step.sender, step.tx)
    case None => None
    case Some(o) => if o.success != step.expected then None else Some(o.delta)
  }

  /** The world a plan leaves, along a run that reuses nothing. */
  function WorldAfter(rules: Rules, anchor: World, script: Script, p: Progress, w: World): World
    decreases script
  {
    match script
    case Finish => w
    case Abort(_) => w
    case OpenBlock(group, header, parentNumber, parentHash, next) =>
      WorldAfter(rules, anchor, next, OpenStep(group, header, parentNumber, parentHash, p), w)
    case SystemCalls(writes, next) =>
      WorldAfter(rules, anchor, next, SystemStep(anchor, writes, p), SetSlots(w, writes))
    case Execute(step, next) =>
      (match ExecuteStep(rules, anchor, map[], step, p)
       case Err(_) => w
       case Ok(p') =>
         var d := DeltaOf(rules, anchor, step, p);
         WorldAfter(rules, anchor, next, p', if d.Some? then Apply(w, d.value) else w))
    case CloseBlock(balances, next) =>
      WorldAfter(rules, anchor, next, CloseStep(balances, p), w)
  }

  /** Every account the run creates is created over empty storage. */
  ghost predicate CleanRun(rules: Rules, anchor: World, script: Script, p: Progress, w: World)
    decreases script
  {
    match script
    case Finish => true
    case Abort(_) => true
    case OpenBlock(group, header, parentNumber, parentHash, next) =>
      CleanRun(rules, anchor, next, OpenStep(group, header, parentNumber, parentHash, p), w)
    case SystemCalls(writes, next) =>
      CleanRun(rules, anchor, next, SystemStep(anchor, writes, p), SetSlots(w, writes))
    case Execute(step, next) =>
      (match ExecuteStep(rules, anchor, map[], step, p)
       case Err(_) => true
       case Ok(p') =>
         var d := DeltaOf(rules, anchor, step, p);
         && (d.Some? ==> CleanCreations(w, d.value))
         && CleanRun(rules, anchor, next, p', if d.Some? then Apply(w, d.value) else w))
    case CloseBlock(balances, next) =>
      CleanRun(rules, anchor, next, CloseStep(balances, p), w)
  }

  /** Before every step, and at the end, the bundle reads as the world. */
  ghost predicate ReadsAlong(rules: Rules, anchor: World, script: Script, p: Progress, w: World)
    decreases script
  {
    && Agrees(anchor, p.db.bundle, w)
    && match script
       case Finish => true
       case Abort(_) => true
       case OpenBlock(group, header, parentNumber, parentHash, next) =>
         ReadsAlong(rules, anchor, next, OpenStep(group, header, parentNumber, parentHash, p), w)
       case SystemCalls(writes, next) =>
         ReadsAlong(rules, anchor, next, SystemStep(anchor, writes, p), SetSlots(w, writes))
       case Execute(step, next) =>
         (match ExecuteStep(rules, anchor, map[], step, p)
          case Err(_) => true
          case Ok(p') =>
            var d := DeltaOf(rules, anchor, step, p);
            ReadsAlong(rules, anchor, next, p', if d.Some? then Apply(w, d.value) else w))
       case CloseBlock(balances, next) =>
         ReadsAlong(rules, anchor, next, CloseStep(balances, p), w)
  }

  // ---------------------------------------------------------------------------------------
  // Steps
  // ---------------------------------------------------------------------------------------

  /** A system write to any account, existing or not, known to the bundle or not. */
  lemma WriteAgrees(anchor: World, b: Bundle, w: World, x: Write)
    requires Agrees(anchor, b, w)
    ensures Agrees(anchor, ApplyWrite(anchor, b, x), SetSlot(w, x))
  {
    var after, w' := ApplyWrite(anchor, b, x), SetSlot(w, x);
    forall a
      ensures BasicAccount(anchor, after, a) == w'.account(a)
    {
      assert BasicAccount(anchor, b, a) == w.account(a);
    }
    forall a, key
      ensures Storage(anchor, after, a, key) == w'.slot(a, key)
    {
      assert Storage(anchor, b, a, key) == w.slot(a, key);
    }
    forall h
      ensures BytecodeByHash(anchor, after, h) == w'.code(h)
    {
      assert BytecodeByHash(anchor, b, h) == w.code(h);
    }
  }

  lemma {:induction false} WritesAgree(anchor: World, b: Bundle, w: World, xs: seq<Write>)
    requires Agrees(anchor, b, w)
    ensures Agrees(anchor, ApplyWrites(anchor, b, xs), SetSlots(w, xs))
  {
    hide Agrees;
    if xs != [] {
      var init := xs[..|xs| - 1];
      WritesAgree(anchor, b, w, init);
      WriteAgrees(anchor, ApplyWrites(anchor, b, init), SetSlots(w, init), xs[|xs| - 1]);
    }
  }

  /** A step that is run commits exactly its delta, and that is the state kept for its hash. */
  lemma StepCommits(rules: Rules, anchor: World, step: TxStep, p: Progress)
    requires ExecuteStep(rules, anchor, map[], step, p).Ok?
    ensures DeltaOf(rules, anchor, step, p).Some?
    ensures ExecuteStep(rules, anchor, map[], step, p).value.db.bundle
            == Commit(p.db.bundle, DeltaOf(rules, anchor, step, p).value)
    ensures step.tx.hash in ExecuteStep(rules, anchor, map[], step, p).value.draft.states
    ensures ExecuteStep(rules, anchor, map[], step, p).value.draft.states[step.tx.hash]
            == DeltaOf(rules, anchor, step, p).value
  {
    hide ListStep, Commit;
  }

  // ---------------------------------------------------------------------------------------
  // Runs
  // ---------------------------------------------------------------------------------------

  /** All along a run that starts exact, the bundle stays exact if and only if every account is
      created over empty storage. */
  lemma {:induction false} RunReadsExactly(rules: Rules, anchor: World, script: Script, p: Progress, w: World)
    requires Agrees(anchor, p.db.bundle, w)
    ensures ReadsAlong(rules, anchor, script, p, w) <==> CleanRun(rules, anchor, script, p, w)
    decreases script
  {
    hide Agrees, CleanCreations, ExecuteStep, DeltaOf, Apply, Commit, SetSlots;
    match script
    case Finish =>
    case Abort(_) =>
    case OpenBlock(group, header, parentNumber, parentHash, next) =>
      RunReadsExactly(rules, anchor, next, OpenStep(group, header, parentNumber, parentHash, p), w);
    case SystemCalls(writes, next) =>
      WritesAgree(anchor, p.db.bundle, w, writes);
      RunReadsExactly(rules, anchor, next, SystemStep(anchor, writes, p), SetSlots(w, writes));
    case Execute(step, next) =>
      var stepped := ExecuteStep(rules, anchor, map[], step, p);
      if stepped.Ok? {
        StepCommits(rules, anchor, step, p);
        var d := DeltaOf(rules, anchor, step, p).value;
        CommitAgrees(anchor, p.db.bundle, d, w);
        if CleanCreations(w, d) {
          RunReadsExactly(rules, anchor, next, stepped.value, Apply(w, d));
        } else {
          ReadsStart(rules, anchor, next, stepped.value, Apply(w, d));
        }
      }
    case CloseBlock(balances, next) =>
      RunReadsExactly(rules, anchor, next, CloseStep(balances, p), w);
  }

  lemma ReadsStart(rules: Rules, anchor: World, script: Script, p: Progress, w: World)
    ensures ReadsAlong(rules, anchor, script, p, w) ==> Agrees(anchor, p.db.bundle, w)
  {
    hide Agrees;
  }

  lemma {:induction false} ReadsAtEnd(rules: Rules, anchor: World, script: Script, p: Progress, w: World)
    requires ReadsAlong(rules, anchor, script, p, w)
    requires Run(rules, anchor, map[], script, p).Ok?
    ensures Agrees(anchor, Run(rules, anchor, map[], script, p).value.db.bundle, WorldAfter(rules, anchor, script, p, w))
    decreases script
  {
    hide Agrees, ExecuteStep, DeltaOf, Apply, SetSlots;
    match script
    case Finish =>
    case Abort(_) =>
    case OpenBlock(group, header, parentNumber, parentHash, next) =>
      ReadsAtEnd(rules, anchor, next, OpenStep(group, header, parentNumber, parentHash, p), w);
    case SystemCalls(writes, next) =>
      ReadsAtEnd(rules, anchor, next, SystemStep(anchor, writes, p), SetSlots(w, writes));
    case Execute(step, next) =>
      var stepped := ExecuteStep(rules, anchor, map[], step, p);
      var d := DeltaOf(rules, anchor, step, p);
      ReadsAtEnd(rules, anchor, next, stepped.value, if d.Some? then Apply(w, d.value) else w);
    case CloseBlock(balances, next) =>
      ReadsAtEnd(rules, anchor, next, CloseStep(balances, p), w);
  }

  // ---------------------------------------------------------------------------------------
  // Snapshots
  // ---------------------------------------------------------------------------------------

  /** The plan of a build from nothing on an anchor. */
  function PlanOf(rules: Rules, anchor: Header, fbs: seq<FlashBlock>): Script {
    PlanBlocks(rules, map[], rules.stateOf(anchor), fbs, anchor)
  }

  /** The world after executing flashblocks on an anchor. */
  function Executed(rules: Rules, anchor: Header, fbs: seq<FlashBlock>): World {
    WorldAfter(rules, rules.stateOf(anchor), PlanOf(rules, anchor, fbs), Start(None), rules.stateOf(anchor))
  }

  ghost predicate CreatesCleanly(rules: Rules, anchor: Header, fbs: seq<FlashBlock>) {
    CleanRun(rules, rules.stateOf(anchor), PlanOf(rules, anchor, fbs), Start(None), rules.stateOf(anchor))
  }

  lemma NothingReadsAsAnchor(anchor: World)
    ensures Agrees(anchor, EMPTY_BUNDLE, anchor)
  {
  }

  /** Reading accounts, slots and code through a built snapshot's bundle, over its anchor, gives
      the executed world. */
  lemma BundleReadsExecuted(rules: Rules, anchor: Header, fbs: seq<FlashBlock>, s: Snapshot)
    requires BuildOn(rules, anchor, None, fbs) == Ok(s)
    requires CreatesCleanly(rules, anchor, fbs)
    ensures Agrees(rules.stateOf(anchor), s.bundle, Executed(rules, anchor, fbs))
  {
    hide PlanBlocks, Run, Agrees, CleanRun, WorldAfter, ReadsAlong;
    var world, plan := rules.stateOf(anchor), PlanOf(rules, anchor, fbs);
    NothingReadsAsAnchor(world);
    RunReadsExactly(rules, world, plan, Start(None), world);
    ReadsAtEnd(rules, world, plan, Start(None), world);
  }

  /** In every reachable state `pending` reads as the world its flashblocks execute to on the
      snapshot's anchor, however many appends, rebases and replays built the bundle. */
  lemma ReachableReadsExecuted(cfg: Config, produced: set<FlashBlock>, tip: nat, inputs: seq<(View, Update)>)
    requires HonestProducer(produced) && SystemReserved(cfg.rules)
    requires AllowedRun(cfg, produced, Initial(tip), inputs)
    ensures var st := StepAll(cfg, Initial(tip), inputs);
            st.pending.Some? ==>
              var s := st.pending.value.snapshot;
              CreatesCleanly(cfg.rules, s.anchor, s.flashblocks) ==>
                Agrees(cfg.rules.stateOf(s.anchor), s.bundle, Executed(cfg.rules, s.anchor, s.flashblocks))
  {
    hide BuildOn, StepAll, HonestProducer, SystemReserved, AllowedRun, CreatesCleanly, Agrees, Executed;
    ReachableIsFaithful(cfg, produced, tip, inputs);
    var st := StepAll(cfg, Initial(tip), inputs);
    if st.pending.Some? {
      var s := st.pending.value.snapshot;
      if CreatesCleanly(cfg.rules, s.anchor, s.flashblocks) {
        BundleReadsExecuted(cfg.rules, s.anchor, s.flashblocks, s);
      }
    }
  }
}
