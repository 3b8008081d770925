/** state.rs against processor.rs: the receiving task clears a stale snapshot by compare-and-swap
    while the processor loads, computes and swaps. Every atomic access is one action, and runs
    interleave them freely. */
module Race {
  import opened Types
  import opened Validation
  import opened PendingBlocks
  import opened Processor

  /** Between accesses the receiver holds the block it was notified of and what it loaded. */
  datatype Receiver =
    | Waiting
    | Notified(block: nat)
    | Judging(block: nat, seen: Option<Handle>)
    | Armed(block: nat, stale: Handle)

  /** Between accesses the processor holds what it loaded and, later, what it will swap in. */
  datatype Worker =
    | Idle
    | Working(prev: Option<Handle>)
    | Swapping(prev: Option<Handle>, next: Option<Handle>)

  /** What the atomic view of a run consists of: a whole load-compute-swap, or a removal. */
  datatype Event =
    | Cycle(seen: Option<Handle>, next: Option<Handle>)
    | Removal(stale: Handle, block: nat)

  /** `lost` is a removal that happened while the processor was between its load and its swap. */
  datatype Shared = Shared(
    cell: Option<Handle>,
    nextId: nat,
    lastNotified: nat,
    receiver: Receiver,
    worker: Worker,
    lost: Option<Event>,
    history: seq<Event>)

  datatype Action =
    | Notify(block: nat)
    | ReceiverLoad
    | Judge
    | CompareAndSwap
    | WorkerLoad
    | WorkerDropStale
    | WorkerKeep
    | WorkerBuild(snapshot: Snapshot)
    | WorkerClear
    | WorkerFail
    | WorkerSwap

  predicate IsReceiver(a: Action) {
    a.Notify? || a.ReceiverLoad? || a.Judge? || a.CompareAndSwap?
  }

  predicate IsStale(maxDepth: nat, s: Snapshot, block: nat): (stale: bool)
    ensures stale <==> block > s.earliest.number + maxDepth
  {
    SaturatingSub(block, s.earliest.number) > maxDepth
  }

  const START := Shared(None, 0, 0, Waiting, Idle, None, [])

  /** Pointers are compared, not what they point to. */
  predicate SamePointer(cell: Option<Handle>, h: Handle) {
    cell.Some? && cell.value.id == h.id
  }

  function ReceiverStep(maxDepth: nat, st: Shared, a: Action): Shared {
    if a.Notify? && st.receiver.Waiting? then
      st.(lastNotified := a.block, receiver := Notified(a.block))
    else if a.ReceiverLoad? && st.receiver.Notified? then
      st.(receiver := Judging(st.receiver.block, st.cell))
    else if a.Judge? && st.receiver.Judging? then
      if st.receiver.seen.Some? && IsStale(maxDepth, st.receiver.seen.value.snapshot, st.receiver.block) then
        st.(receiver := Armed(st.receiver.block, st.receiver.seen.value))
      else
        st.(receiver := Waiting)
    else if a.CompareAndSwap? && st.receiver.Armed? then
      if !SamePointer(st.cell, st.receiver.stale) then st.(receiver := Waiting)
      else
        var removal := Removal(st.receiver.stale, st.receiver.block);
        var st := st.(receiver := Waiting, cell := None);
        if st.worker.Idle? then st.(history := st.history + [removal]) else st.(lost := Some(removal))
    else
      st
  }

  function WorkerStep(st: Shared, a: Action): Shared {
    if a.WorkerLoad? && st.worker.Idle? then
      st.(worker := Working(st.cell), lost := None)
    else if a.WorkerDropStale? && st.worker.Working? then
      st.(cell := None, worker := Working(None), lost := None,
          history := st.history + [Cycle(st.worker.prev, None)])
    else if a.WorkerKeep? && st.worker.Working? then
      st.(worker := Swapping(st.worker.prev, st.worker.prev))
    else if a.WorkerBuild? && st.worker.Working? then
      st.(worker := Swapping(st.worker.prev, Some(Handle(st.nextId, a.snapshot))), nextId := st.nextId + 1)
    else if a.WorkerClear? && st.worker.Working? then
      st.(worker := Swapping(st.worker.prev, None))
    else if a.WorkerFail? && st.worker.Working? then
      st.(worker := Idle, lost := None,
          history := if st.lost.Some? then st.history + [st.lost.value] else st.history)
    else if a.WorkerSwap? && st.worker.Swapping? then
      st.(cell := st.worker.next, worker := Idle, lost := None,
          history := st.history + [Cycle(st.worker.prev, st.worker.next)])
    else
      st
  }

  function Act(maxDepth: nat, st: Shared, a: Action): Shared {
    if IsReceiver(a) then ReceiverStep(maxDepth, st, a) else WorkerStep(st, a)
  }

  function After(maxDepth: nat, acts: seq<Action>): Shared {
    if acts == [] then START else Act(maxDepth, After(maxDepth, acts[..|acts| - 1]), acts[|acts| - 1])
  }

  // ---------------------------------------------------------------------------------------
  // Pointers
  // ---------------------------------------------------------------------------------------

  /** Every handle some party holds. */
  function Held(st: Shared): set<Handle> {
    (if st.cell.Some? then {st.cell.value} else {}) +
    (if st.receiver.Judging? && st.receiver.seen.Some? then {st.receiver.seen.value} else {}) +
    (if st.receiver.Armed? then {st.receiver.stale} else {}) +
    (if !st.worker.Idle? && st.worker.prev.Some? then {st.worker.prev.value} else {}) +
    (if st.worker.Swapping? && st.worker.next.Some? then {st.worker.next.value} else {})
  }

  /** Equal pointers are equal snapshots, and the next allocation is none of them. */
  ghost predicate PointersSound(st: Shared) {
    && (forall h :: h in Held(st) ==> h.id < st.nextId)
    && (forall g, h :: g in Held(st) && h in Held(st) && g.id == h.id ==> g == h)
  }

  lemma FewerPointers(st: Shared, after: Shared)
    requires PointersSound(st) && Held(after) <= Held(st) && after.nextId == st.nextId
    ensures PointersSound(after)
  {
    hide Held;
  }

  lemma ReceiverKeepsPointers(maxDepth: nat, st: Shared, a: Action)
    requires PointersSound(st)
    ensures PointersSound(ReceiverStep(maxDepth, st, a))
  {
    hide PointersSound;
    FewerPointers(st, ReceiverStep(maxDepth, st, a));
  }

  lemma WorkerKeepsPointers(st: Shared, a: Action)
    requires PointersSound(st)
    ensures PointersSound(WorkerStep(st, a))
  {
    var after := WorkerStep(st, a);
    if a.WorkerBuild? && st.worker.Working? {
      assert Held(after) <= Held(st) + {Handle(st.nextId, a.snapshot)};
    } else {
      FewerPointers(st, after);
    }
  }

  // ---------------------------------------------------------------------------------------
  // The atomic view
  // ---------------------------------------------------------------------------------------

  /** The cell after a sequence of atomic events. */
  function Final(events: seq<Event>): Option<Handle> {
    if events == [] then None
    else
      match events[|events| - 1]
      case Cycle(_, next) => next
      case Removal(_, _) => None
  }

  /** Each cycle saw the cell as its predecessors left it, and each removal took exactly the
      snapshot it had judged stale. */
  ghost predicate Atomic(maxDepth: nat, events: seq<Event>) {
    events != [] ==>
      var init, last := events[..|events| - 1], events[|events| - 1];
      && Atomic(maxDepth, init)
      && (last.Cycle? ==> last.seen == Final(init))
      && (last.Removal? ==> Final(init) == Some(last.stale) && IsStale(maxDepth, last.stale.snapshot, last.block))
  }

  lemma AtomicAppend(maxDepth: nat, events: seq<Event>, e: Event)
    requires Atomic(maxDepth, events)
    requires e.Cycle? ==> e.seen == Final(events)
    requires e.Removal? ==> Final(events) == Some(e.stale) && IsStale(maxDepth, e.stale.snapshot, e.block)
    ensures Atomic(maxDepth, events + [e])
    ensures Final(events + [e]) == if e.Cycle? then e.next else None
  {
    assert (events + [e])[..|events|] == events;
  }

  /** While the processor works, the cell is what it loaded, or a removal has emptied it. */
  ghost predicate Linear(maxDepth: nat, st: Shared) {
    && Atomic(maxDepth, st.history)
    && (st.receiver.Armed? ==> IsStale(maxDepth, st.receiver.stale.snapshot, st.receiver.block))
    && (if st.worker.Idle? then st.cell == Final(st.history)
        else
          && st.worker.prev == Final(st.history)
          && (if st.lost.None? then st.cell == st.worker.prev
              else
                && st.cell.None? && st.lost.value.Removal? && st.worker.prev == Some(st.lost.value.stale)
                && IsStale(maxDepth, st.lost.value.stale.snapshot, st.lost.value.block)))
  }

  lemma ReceiverStepIsLinear(maxDepth: nat, st: Shared, a: Action)
    requires PointersSound(st) && Linear(maxDepth, st)
    ensures Linear(maxDepth, ReceiverStep(maxDepth, st, a))
  {
    hide Atomic, Final;
    if a.CompareAndSwap? && st.receiver.Armed? && SamePointer(st.cell, st.receiver.stale) {
      assert st.cell.value in Held(st) && st.receiver.stale in Held(st);
      assert st.cell == Some(st.receiver.stale);
      if st.worker.Idle? {
        AtomicAppend(maxDepth, st.history, Removal(st.receiver.stale, st.receiver.block));
      }
    }
  }

  lemma WorkerStepIsLinear(maxDepth: nat, st: Shared, a: Action)
    requires Linear(maxDepth, st)
    ensures Linear(maxDepth, WorkerStep(st, a))
  {
    hide Atomic, Final;
    if a.WorkerDropStale? && st.worker.Working? {
      AtomicAppend(maxDepth, st.history, Cycle(st.worker.prev, None));
    } else if a.WorkerSwap? && st.worker.Swapping? {
      AtomicAppend(maxDepth, st.history, Cycle(st.worker.prev, st.worker.next));
    } else if a.WorkerFail? && st.worker.Working? && st.lost.Some? {
      AtomicAppend(maxDepth, st.history, st.lost.value);
    }
  }

  lemma {:induction false} RunIsLinear(maxDepth: nat, acts: seq<Action>)
    ensures PointersSound(After(maxDepth, acts)) && Linear(maxDepth, After(maxDepth, acts))
  {
    hide PointersSound, Linear, ReceiverStep, WorkerStep;
    if acts == [] {
      StartIsLinear(maxDepth);
    } else {
      var init, a := acts[..|acts| - 1], acts[|acts| - 1];
      RunIsLinear(maxDepth, init);
      var before := After(maxDepth, init);
      if IsReceiver(a) {
        ReceiverKeepsPointers(maxDepth, before, a);
        ReceiverStepIsLinear(maxDepth, before, a);
      } else {
        WorkerKeepsPointers(before, a);
        WorkerStepIsLinear(maxDepth, before, a);
      }
    }
  }

  lemma StartIsLinear(maxDepth: nat)
    ensures PointersSound(START) && Linear(maxDepth, START)
  {
  }

  function CycleAt(worker: Worker, a: Action): seq<Event> {
    if a.WorkerSwap? && worker.Swapping? then [Cycle(worker.prev, worker.next)]
    else if a.WorkerDropStale? && worker.Working? then [Cycle(worker.prev, None)]
    else []
  }

  function RemovalAt(st: Shared, a: Action): seq<Event> {
    if a.CompareAndSwap? && st.receiver.Armed? && SamePointer(st.cell, st.receiver.stale)
    then [Removal(st.receiver.stale, st.receiver.block)] else []
  }

  /** The swaps the processor performed, with what it had loaded before each. */
  function Cycles(maxDepth: nat, acts: seq<Action>): seq<Event> {
    if acts == [] then []
    else
      var init, a := acts[..|acts| - 1], acts[|acts| - 1];
      Cycles(maxDepth, init) + CycleAt(After(maxDepth, init).worker, a)
  }

  /** The compare-and-swaps that found the judged pointer. */
  function Removals(maxDepth: nat, acts: seq<Action>): seq<Event> {
    if acts == [] then []
    else
      var init, a := acts[..|acts| - 1], acts[|acts| - 1];
      Removals(maxDepth, init) + RemovalAt(After(maxDepth, init), a)
  }

  function OnlyCycles(events: seq<Event>): seq<Event> {
    if events == [] then []
    else
      var e := events[|events| - 1];
      OnlyCycles(events[..|events| - 1]) + (if e.Cycle? then [e] else [])
  }

  lemma OnlyCyclesAppend(events: seq<Event>, e: Event)
    ensures OnlyCycles(events + [e]) == OnlyCycles(events) + (if e.Cycle? then [e] else [])
  {
    assert (events + [e])[..|events|] == events;
  }

  /** What one action adds to the history. */
  lemma HistoryGrows(maxDepth: nat, st: Shared, a: Action)
    ensures var after, cycle, removal := Act(maxDepth, st, a), CycleAt(st.worker, a), RemovalAt(st, a);
            && (after.history == st.history + cycle
                || (cycle == [] && after.history == st.history + removal)
                || (cycle == [] && st.lost.Some? && after.history == st.history + [st.lost.value]))
            && (after.lost.Some? ==> after.lost == st.lost || removal == [after.lost.value])
  {
    hide IsStale, SamePointer;
  }

  /** The history is made of the run's own swaps, all of them, and of some of its removals. */
  lemma {:induction false} HistoryIsReal(maxDepth: nat, acts: seq<Action>)
    ensures var st := After(maxDepth, acts);
            && OnlyCycles(st.history) == Cycles(maxDepth, acts)
            && (forall e :: e in st.history && e.Removal? ==> e in Removals(maxDepth, acts))
            && (st.lost.Some? ==> st.lost.value.Removal? && st.lost.value in Removals(maxDepth, acts))
  {
    hide OnlyCycles, Act, SamePointer;
    if acts == [] {
      NoCycles();
    } else {
      var init, a := acts[..|acts| - 1], acts[|acts| - 1];
      HistoryIsReal(maxDepth, init);
      var before, after := After(maxDepth, init), After(maxDepth, acts);
      HistoryGrows(maxDepth, before, a);
      if after.history != before.history {
        var e := after.history[|before.history|];
        assert after.history == before.history + [e];
        OnlyCyclesAppend(before.history, e);
      }
    }
  }

  lemma NoCycles()
    ensures OnlyCycles([]) == []
  {
  }

  /** Whatever the interleaving, whenever the processor is between updates the published snapshot
      is the outcome of a run in which each load-compute-swap is one atomic step and each removal
      takes a snapshot that is published and stale: the very swaps that happened, in order, with
      some of the removals that happened between them. A removal that lands inside a cycle is
      either overwritten by the swap or takes effect after a cycle that swaps nothing. */
  lemma InterleavingsAreAtomic(maxDepth: nat, acts: seq<Action>)
    requires After(maxDepth, acts).worker.Idle?
    ensures exists events: seq<Event> ::
              && Atomic(maxDepth, events) && Final(events) == After(maxDepth, acts).cell
              && OnlyCycles(events) == Cycles(maxDepth, acts)
              && forall e :: e in events && e.Removal? ==> e in Removals(maxDepth, acts)
  {
    hide After, Cycles, Removals, OnlyCycles, Final;
    RunIsLinear(maxDepth, acts);
    HistoryIsReal(maxDepth, acts);
    assert Atomic(maxDepth, After(maxDepth, acts).history);
  }

  // ---------------------------------------------------------------------------------------
  // What the receiver may do
  // ---------------------------------------------------------------------------------------

  /** The receiver never publishes, and removes only the pointer it judged stale. */
  lemma ReceiverOnlyRemovesJudged(maxDepth: nat, acts: seq<Action>, a: Action)
    requires IsReceiver(a)
    ensures var before, after := After(maxDepth, acts), Act(maxDepth, After(maxDepth, acts), a);
            after.cell != before.cell ==>
              && a == CompareAndSwap && before.receiver.Armed? && after.cell == None
              && before.cell == Some(before.receiver.stale)
              && before.receiver.block > before.receiver.stale.snapshot.earliest.number + maxDepth
    ensures var before, after := After(maxDepth, acts), Act(maxDepth, After(maxDepth, acts), a);
            after.nextId == before.nextId && after.worker == before.worker
  {
    hide After, Atomic, Final;
    RunIsLinear(maxDepth, acts);
    var before := After(maxDepth, acts);
    if before.receiver.Armed? && before.cell.Some? {
      assert before.cell.value in Held(before) && before.receiver.stale in Held(before);
    }
  }

  /** Undisturbed by the processor, a notification empties the cell exactly when what it holds
      trails too far. */
  lemma NotificationRemovesStale(maxDepth: nat, st: Shared)
    requires st.receiver.Notified?
    ensures var after := Act(maxDepth, Act(maxDepth, Act(maxDepth, st, ReceiverLoad), Judge), CompareAndSwap);
            && after.receiver.Waiting?
            && (st.cell.Some? && st.receiver.block > st.cell.value.snapshot.earliest.number + maxDepth ==>
                  after.cell.None?)
            && (st.cell.Some? && st.receiver.block <= st.cell.value.snapshot.earliest.number + maxDepth ==>
                  after.cell == st.cell)
            && (st.cell.None? ==> after.cell.None?)
  {
    var loaded := Act(maxDepth, st, ReceiverLoad);
    var judged := Act(maxDepth, loaded, Judge);
  }

  /** Whatever happened since the judgement, the compare-and-swap empties the cell exactly when it
      still holds the judged pointer. */
  lemma SwapComparesPointers(maxDepth: nat, st: Shared)
    requires st.receiver.Armed? && st.cell.Some?
    ensures var after := Act(maxDepth, st, CompareAndSwap);
            after.cell == if st.cell.value.id == st.receiver.stale.id then None else st.cell
  {
  }

  /** Action `j` is the load on which the current judgement rests: it saw `h` in the cell, for the
      notification of `block`, and the receiver has not loaded again since. */
  ghost predicate LoadedAt(maxDepth: nat, acts: seq<Action>, j: nat, block: nat, h: Option<Handle>) {
    && j < |acts| && acts[j] == ReceiverLoad
    && After(maxDepth, acts[..j]).cell == h
    && After(maxDepth, acts[..j]).receiver == Notified(block)
    && (h.Some? ==> h.value.id < After(maxDepth, acts[..j]).nextId)
  }

  lemma LoadedEarlier(maxDepth: nat, acts: seq<Action>, j: nat, block: nat, h: Option<Handle>, a: Action)
    requires LoadedAt(maxDepth, acts, j, block, h)
    ensures LoadedAt(maxDepth, acts + [a], j, block, h)
  {
    assert (acts + [a])[..j] == acts[..j];
  }

  lemma {:induction false} JudgementHasLoad(maxDepth: nat, acts: seq<Action>) returns (j: nat)
    ensures var r := After(maxDepth, acts).receiver;
            && (r.Judging? ==> LoadedAt(maxDepth, acts, j, r.block, r.seen))
            && (r.Armed? ==> LoadedAt(maxDepth, acts, j, r.block, Some(r.stale)))
  {
    hide LoadedAt, PointersSound, Linear, WorkerStep;
    j := 0;
    if acts != [] {
      var init, a := acts[..|acts| - 1], acts[|acts| - 1];
      assert init + [a] == acts;
      var before := After(maxDepth, init);
      j := JudgementHasLoad(maxDepth, init);
      WorkerLeavesReceiver(before, a);
      if a.ReceiverLoad? && before.receiver.Notified? {
        j := |init|;
        LoadIsLoad(maxDepth, init, a);
      } else if before.receiver.Judging? {
        LoadedEarlier(maxDepth, init, j, before.receiver.block, before.receiver.seen, a);
      } else if before.receiver.Armed? {
        LoadedEarlier(maxDepth, init, j, before.receiver.block, Some(before.receiver.stale), a);
      }
    }
  }

  lemma WorkerLeavesReceiver(st: Shared, a: Action)
    ensures WorkerStep(st, a).receiver == st.receiver
  {
  }

  lemma LoadIsLoad(maxDepth: nat, init: seq<Action>, a: Action)
    requires a.ReceiverLoad? && After(maxDepth, init).receiver.Notified?
    ensures var before := After(maxDepth, init);
            LoadedAt(maxDepth, init + [a], |init|, before.receiver.block, before.cell)
  {
    hide After, Linear;
    var before := After(maxDepth, init);
    RunIsLinear(maxDepth, init);
    assert (init + [a])[..|init|] == init;
    if before.cell.Some? {
      assert before.cell.value in Held(before);
    }
  }

  /** A removal at any point of any run takes a snapshot that was already published when the
      receiver loaded it, for the very notification whose block it trails too far; one allocated
      after that load is never touched. */
  lemma RemovalRestsOnLoad(maxDepth: nat, acts: seq<Action>, a: Action) returns (j: nat)
    requires IsReceiver(a)
    requires Act(maxDepth, After(maxDepth, acts), a).cell != After(maxDepth, acts).cell
    ensures j < |acts| && acts[j] == ReceiverLoad
    ensures var h, loaded := After(maxDepth, acts).cell, After(maxDepth, acts[..j]);
            && h.Some? && loaded.cell == h && h.value.id < loaded.nextId
            && loaded.receiver.Notified? && loaded.receiver.block > h.value.snapshot.earliest.number + maxDepth
  {
    hide After;
    ReceiverOnlyRemovesJudged(maxDepth, acts, a);
    j := JudgementHasLoad(maxDepth, acts);
  }
}
