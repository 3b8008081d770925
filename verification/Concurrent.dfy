/** The processor and the receiving task together, access by access, on the shared cell of `Race`.
    Whatever the interleaving, the processor takes the sequential steps of `Processor`, with some
    choice of loads before which the receiver had cleared the snapshot: so every theorem about
    runs speaks of concurrent ones. */
module Concurrent {
  import opened Types
  import opened PendingBlocks
  import opened Rebuild
  import opened Cache
  import opened Processor
  import opened Runs
  import opened Race

  // ---------------------------------------------------------------------------------------
  // An update as cycles
  // ---------------------------------------------------------------------------------------

  /** What is left of an update: a canonical block to handle, or flashblocks to apply. */
  datatype Todo = Todo(block: Option<CanonicalBlock>, fbs: seq<FlashBlock>)

  function TodoOf(update: Update): Todo {
    match update
    case Canonical(block) => Todo(Some(block), [])
    case Flashblock(fb) => Todo(None, [fb])
  }

  predicate More(t: Todo) {
    t.block.Some? || t.fbs != []
  }

  function Rebuilt(cfg: Config, v: View, s: State, block: CanonicalBlock): Result<Option<Snapshot>, Error> {
    ProcessCanonicalBlock(cfg, v.node, Published(s), block)
  }

  /** The state after the next cycle, from what its load left. */
  function Settled(cfg: Config, v: View, s: State, t: Todo): State
    requires More(t)
  {
    if t.block.None? then ApplyFlashblock(cfg, v, s, t.fbs[0])
    else
      match Rebuilt(cfg, v, s, t.block.value)
      case Err(_) => s
      case Ok(x) => Reconciled(cfg, v, s, t.block.value, x)
  }

  ghost function Next(cfg: Config, v: View, s: State, t: Todo): Todo
    requires More(t)
  {
    if t.block.None? then Todo(None, t.fbs[1..])
    else Todo(None, if Rebuilt(cfg, v, s, t.block.value).Ok? then ToReplay(s, t.block.value) else [])
  }

  /** Cycle after cycle, each with its own load. */
  ghost function Drive(cfg: Config, v: View, s: State, t: Todo, k: nat): State
    decreases if t.block.Some? then 1 else 0, |t.fbs|
  {
    if !More(t) then s
    else
      var loaded := LoadOrDrop(cfg, v, s, k);
      Drive(cfg, v, Settled(cfg, v, loaded, t), Next(cfg, v, loaded, t), k + 1)
  }

  lemma {:induction false} DriveIsReplay(cfg: Config, v: View, s: State, fbs: seq<FlashBlock>, j: nat)
    requires j <= |fbs|
    ensures Drive(cfg, v, Replay(cfg, v, s, fbs[..j]), Todo(None, fbs[j..]), j + 1) == Replay(cfg, v, s, fbs)
    decreases |fbs| - j
  {
    hide ApplyFlashblock, LoadOrDrop;
    if j == |fbs| {
      assert fbs[..j] == fbs;
    } else {
      assert fbs[..j + 1][..j] == fbs[..j];
      assert fbs[j..][1..] == fbs[j + 1..];
      DriveIsReplay(cfg, v, s, fbs, j + 1);
    }
  }

  lemma DriveIsStep(cfg: Config, v: View, s: State, update: Update)
    ensures Drive(cfg, v, s, TodoOf(update), 0) == Step(cfg, v, s, update)
  {
    hide ApplyFlashblock, LoadOrDrop, ProcessCanonicalBlock, Reconciled, ToReplay;
    var loaded := LoadOrDrop(cfg, v, s, 0);
    match update
    case Flashblock(fb) =>
      var after := ApplyFlashblock(cfg, v, loaded, fb);
      assert Drive(cfg, v, after, Todo(None, [fb][1..]), 1) == after;
    case Canonical(block) =>
      var r := Rebuilt(cfg, v, loaded, block);
      if r.Ok? {
        var fbs := ToReplay(loaded, block);
        assert fbs[..0] == [] && fbs[0..] == fbs;
        DriveIsReplay(cfg, v, Reconciled(cfg, v, loaded, block, r.value), fbs, 0);
      } else {
        assert Drive(cfg, v, loaded, Todo(None, []), 1) == loaded;
      }
  }

  // ---------------------------------------------------------------------------------------
  // The machine
  // ---------------------------------------------------------------------------------------

  /** `st` is what the processor's cycles amount to so far, `clears` what each load of the update
      at hand found: whether the receiver had cleared the snapshot. */
  datatype Machine = Machine(shared: Shared, st: State, todo: Todo, clears: seq<bool>)

  datatype Move = Receive(action: Action) | Proceed

  predicate Stranded(cfg: Config, v: View, s: State) {
    s.pending.Some? && v.node.tip.Some? && !IsAnchoredNear(cfg, s.pending.value.snapshot, v.node.tip.value)
  }

  /** How a cycle ends on the shared cell. */
  function Ending(cfg: Config, v: View, s: State, t: Todo): Action
    requires More(t)
  {
    var swaps := if t.block.Some? then Rebuilt(cfg, v, s, t.block.value).Ok?
                 else !IsSuperseded(v, t.fbs[0]) && ProcessFlashblock(cfg, v.node, Published(s), t.fbs[0]).Ok?;
    var after := Settled(cfg, v, s, t).pending;
    if !swaps then WorkerFail
    else if after.None? then WorkerClear
    else if after == s.pending then WorkerKeep
    else WorkerBuild(after.value.snapshot)
  }

  ghost function Finish(cfg: Config, v: View, m: Machine, shared: Shared): Machine
    requires More(m.todo)
  {
    Machine(shared, Settled(cfg, v, m.st, m.todo), Next(cfg, v, m.st, m.todo), m.clears)
  }

  /** The processor's next access to the cell, and what it decides in between. */
  ghost function Work(cfg: Config, v: View, m: Machine): Machine {
    if !More(m.todo) then m
    else if m.shared.worker.Idle? then
      var cleared := m.shared.cell != m.st.pending;
      m.(shared := WorkerStep(m.shared, WorkerLoad),
         st := if cleared then Dropped(m.st) else m.st,
         clears := m.clears + [cleared])
    else if m.shared.worker.Swapping? then
      Finish(cfg, v, m, WorkerStep(m.shared, WorkerSwap))
    else if Stranded(cfg, v, m.st) then
      m.(shared := WorkerStep(m.shared, WorkerDropStale), st := Dropped(m.st))
    else
      var a := Ending(cfg, v, m.st, m.todo);
      if a.WorkerFail? then Finish(cfg, v, m, WorkerStep(m.shared, a))
      else m.(shared := WorkerStep(m.shared, a))
  }

  ghost function Moved(cfg: Config, v: View, m: Machine, move: Move): Machine {
    match move
    case Receive(a) => if IsReceiver(a) then m.(shared := ReceiverStep(cfg.maxDepth, m.shared, a)) else m
    case Proceed => Work(cfg, v, m)
  }

  ghost function MovedAll(cfg: Config, v: View, m: Machine, moves: seq<Move>): Machine {
    if moves == [] then m
    else Moved(cfg, v, MovedAll(cfg, v, m, moves[..|moves| - 1]), moves[|moves| - 1])
  }

  predicate Quiet(m: Machine) {
    m.shared.worker.Idle? && !More(m.todo)
  }

  // ---------------------------------------------------------------------------------------
  // The cell and the processor's own record
  // ---------------------------------------------------------------------------------------

  /** The cell holds what the processor last published, or a removal has emptied it; while the
      processor is inside a cycle it knows what it loaded, and what it is about to swap in is what
      the sequential step publishes. */
  ghost predicate Coupled(cfg: Config, v: View, m: Machine) {
    && HandlesOld(m.st)
    && (m.shared.cell == m.st.pending || m.shared.cell.None?)
    && (!m.shared.worker.Idle? ==> More(m.todo) && m.shared.worker.prev == m.st.pending)
    && (if m.shared.worker.Swapping? then
          && !Stranded(cfg, v, m.st) && !Ending(cfg, v, m.st, m.todo).WorkerFail?
          && m.shared.worker.next == Settled(cfg, v, m.st, m.todo).pending
          && m.shared.nextId == Settled(cfg, v, m.st, m.todo).nextId
        else m.shared.nextId == m.st.nextId)
  }

  lemma ReceiverStaysCoupled(cfg: Config, v: View, m: Machine, a: Action)
    requires Coupled(cfg, v, m)
    ensures Coupled(cfg, v, m.(shared := ReceiverStep(cfg.maxDepth, m.shared, a)))
  {
    hide Settled, Ending, IsStale, SamePointer;
  }

  lemma PublishEnds(cfg: Config, v: View, s: State, p: Proposal)
    requires HandlesOld(s)
    ensures var after := Publish(cfg, v, s, p);
            && HandlesOld(after)
            && (after.pending.Some? && after.pending != s.pending ==>
                  after.pending.value.id == s.nextId && after.nextId == s.nextId + 1)
            && (after.pending.None? || after.pending == s.pending ==> after.nextId == s.nextId)
  {
    hide ExtendsCanonicalTip;
  }

  /** What a cycle that swaps does to handles and allocation, and that one that fails leaves what
      is published. */
  lemma SettledEnds(cfg: Config, v: View, s: State, t: Todo)
    requires More(t) && HandlesOld(s)
    ensures var a, after := Ending(cfg, v, s, t), Settled(cfg, v, s, t);
            && HandlesOld(after)
            && (a.WorkerFail? ==> after.pending == s.pending && after.nextId == s.nextId)
            && (a.WorkerClear? ==> after.pending.None? && after.nextId == s.nextId)
            && (a.WorkerKeep? ==> after.pending == s.pending && after.nextId == s.nextId)
            && (a.WorkerBuild? ==> after.pending == Some(Handle(s.nextId, a.snapshot)) && after.nextId == s.nextId + 1)
            && (a.WorkerFail? || a.WorkerClear? || a.WorkerKeep? || a.WorkerBuild?)
  {
    hide ProcessFlashblock, ProcessCanonicalBlock, ExtendsCanonicalTip, Publish, CanonicalAt, Without, Inserted, Continues;
    if t.block.None? {
      var r := ProcessFlashblock(cfg, v.node, Published(s), t.fbs[0]);
      if r.Ok? {
        PublishEnds(cfg, v, s, r.value);
      }
    }
  }

  lemma WorkStaysCoupled(cfg: Config, v: View, m: Machine)
    requires Coupled(cfg, v, m)
    ensures Coupled(cfg, v, Work(cfg, v, m))
  {
    hide Settled, Ending, Next, Stranded;
    if More(m.todo) {
      SettledEnds(cfg, v, m.st, m.todo);
    }
  }

  // ---------------------------------------------------------------------------------------
  // Simulation
  // ---------------------------------------------------------------------------------------

  /** The view in which the loads find what they found. */
  function Seen(v: View, clears: seq<bool>): View {
    v.(cleared := (k: nat) => k < |clears| && clears[k])
  }

  /** What the sequential steps still have to do: whole cycles, after the one in progress. */
  ghost function Remaining(cfg: Config, v: View, m: Machine): State {
    if m.shared.worker.Idle? || !More(m.todo) then Drive(cfg, v, m.st, m.todo, |m.clears|)
    else
      var loaded := if Stranded(cfg, v, m.st) then Dropped(m.st) else m.st;
      Drive(cfg, v, Settled(cfg, v, loaded, m.todo), Next(cfg, v, loaded, m.todo), |m.clears|)
  }

  /** Only loads look at `cleared`. */
  lemma SameCycle(cfg: Config, v: View, clears: seq<bool>, s: State, t: Todo)
    requires More(t)
    ensures var w := Seen(v, clears);
            && Settled(cfg, w, s, t) == Settled(cfg, v, s, t) && Next(cfg, w, s, t) == Next(cfg, v, s, t)
            && Ending(cfg, w, s, t) == Ending(cfg, v, s, t) && Stranded(cfg, w, s) == Stranded(cfg, v, s)
  {
    hide ProcessFlashblock, ProcessCanonicalBlock, IsAnchoredNear, Inserted, CanonicalAt, Without;
    if t.block.None? {
      SameApply(cfg, v, Seen(v, clears), s, t.fbs[0]);
    }
  }

  lemma SameApply(cfg: Config, v: View, w: View, s: State, fb: FlashBlock)
    requires v.node == w.node && v.lastNotified == w.lastNotified
    ensures ApplyFlashblock(cfg, v, s, fb) == ApplyFlashblock(cfg, w, s, fb)
  {
    hide ProcessFlashblock, IsAnchoredNear, Inserted;
  }

  lemma WorkRemains(cfg: Config, v: View, m: Machine, total: seq<bool>)
    requires Coupled(cfg, v, m) && Work(cfg, v, m).clears <= total
    ensures Remaining(cfg, Seen(v, total), Work(cfg, v, m)) == Remaining(cfg, Seen(v, total), m)
  {
    hide Settled, Ending, Next, Drive;
    var w := Seen(v, total);
    if More(m.todo) {
      SameCycle(cfg, v, total, m.st, m.todo);
      SameCycle(cfg, v, total, Dropped(m.st), m.todo);
      if m.shared.worker.Idle? {
        DriveUnfolds(cfg, w, m.st, m.todo, |m.clears|);
        assert Work(cfg, v, m).clears[|m.clears|] == total[|m.clears|];
      }
    }
  }

  lemma DriveUnfolds(cfg: Config, v: View, s: State, t: Todo, k: nat)
    requires More(t)
    ensures var loaded := LoadOrDrop(cfg, v, s, k);
            Drive(cfg, v, s, t, k) == Drive(cfg, v, Settled(cfg, v, loaded, t), Next(cfg, v, loaded, t), k + 1)
  {
    hide Settled, Next, LoadOrDrop;
  }

  lemma ClearsGrow(cfg: Config, v: View, m: Machine, move: Move)
    ensures m.clears <= Moved(cfg, v, m, move).clears
  {
    hide Settled, Ending, Next, Stranded, ReceiverStep, WorkerStep;
  }

  /** Any interleaving of the processor's accesses with the receiver's leaves the same steps to
      do as before: those that are done were the sequential ones. */
  lemma {:induction false} MovesSimulate(cfg: Config, v: View, m: Machine, moves: seq<Move>, total: seq<bool>)
    requires Coupled(cfg, v, m) && MovedAll(cfg, v, m, moves).clears <= total
    ensures var after := MovedAll(cfg, v, m, moves);
            Coupled(cfg, v, after) && Remaining(cfg, Seen(v, total), after) == Remaining(cfg, Seen(v, total), m)
  {
    hide Coupled, Work, Remaining, ReceiverStep, Seen;
    if moves != [] {
      var init, move := moves[..|moves| - 1], moves[|moves| - 1];
      var before := MovedAll(cfg, v, m, init);
      ClearsGrow(cfg, v, before, move);
      MovesSimulate(cfg, v, m, init, total);
      match move
      case Receive(a) =>
        if IsReceiver(a) {
          ReceiverStaysCoupled(cfg, v, before, a);
          ReceiverLeavesWork(cfg, Seen(v, total), before, a);
        }
      case Proceed =>
        WorkStaysCoupled(cfg, v, before);
        WorkRemains(cfg, v, before, total);
    }
  }

  lemma ReceiverLeavesWork(cfg: Config, v: View, m: Machine, a: Action)
    ensures Remaining(cfg, v, m.(shared := ReceiverStep(cfg.maxDepth, m.shared, a))) == Remaining(cfg, v, m)
  {
    hide Drive, Settled, Next, Stranded, IsStale, SamePointer;
  }

  // ---------------------------------------------------------------------------------------
  // Runs
  // ---------------------------------------------------------------------------------------

  /** One update, what the processor meets meanwhile, and how the accesses interleave. */
  datatype Turn = Turn(view: View, update: Update, moves: seq<Move>)

  function Begin(m: Machine, update: Update): Machine {
    m.(todo := TodoOf(update), clears := [])
  }

  ghost function RunAll(cfg: Config, m: Machine, turns: seq<Turn>): Machine {
    if turns == [] then m
    else
      var last := turns[|turns| - 1];
      MovedAll(cfg, last.view, Begin(RunAll(cfg, m, turns[..|turns| - 1]), last.update), last.moves)
  }

  /** Each update is finished before the next one is taken from the queue. */
  ghost predicate Finished(cfg: Config, m: Machine, turns: seq<Turn>) {
    turns != [] ==> Finished(cfg, m, turns[..|turns| - 1]) && Quiet(RunAll(cfg, m, turns))
  }

  function Fresh(tip: nat): Machine {
    Machine(Race.START, Initial(tip), Todo(None, []), [])
  }

  /** The same updates in the same order, with the same node and heights. */
  ghost predicate SameUpdates(turns: seq<Turn>, inputs: seq<(View, Update)>) {
    && |inputs| == |turns|
    && forall i :: 0 <= i < |turns| ==>
         && inputs[i].1 == turns[i].update && inputs[i].0.node == turns[i].view.node
         && inputs[i].0.lastNotified == turns[i].view.lastNotified
  }

  ghost predicate CellSound(m: Machine) {
    HandlesOld(m.st) && m.shared.nextId == m.st.nextId && (m.shared.cell == m.st.pending || m.shared.cell.None?)
  }

  lemma TurnIsStep(cfg: Config, m: Machine, turn: Turn) returns (w: View)
    requires CellSound(m) && Quiet(m)
    requires Quiet(MovedAll(cfg, turn.view, Begin(m, turn.update), turn.moves))
    ensures w.node == turn.view.node && w.lastNotified == turn.view.lastNotified
    ensures var after := MovedAll(cfg, turn.view, Begin(m, turn.update), turn.moves);
            after.st == Step(cfg, w, m.st, turn.update) && CellSound(after)
  {
    hide Settled, Ending, Next, Stranded, MovedAll, Step, HandlesOld;
    var begun := Begin(m, turn.update);
    var after := MovedAll(cfg, turn.view, begun, turn.moves);
    w := Seen(turn.view, after.clears);
    MovesSimulate(cfg, turn.view, begun, turn.moves, after.clears);
    DriveIsStep(cfg, w, m.st, turn.update);
  }

  /** Every interleaved run of processor and receiver is a sequential run over the same updates,
      nodes and heights, with some choice of cleared loads; and at its end the cell holds that
      run's snapshot, unless a removal has emptied it since. */
  lemma {:induction false} ConcurrentIsSequential(cfg: Config, tip: nat, turns: seq<Turn>) returns (inputs: seq<(View, Update)>)
    requires Finished(cfg, Fresh(tip), turns)
    ensures SameUpdates(turns, inputs)
    ensures var m := RunAll(cfg, Fresh(tip), turns);
            && m.st == StepAll(cfg, Initial(tip), inputs) && CellSound(m) && Quiet(m)
            && (m.shared.cell.Some? ==> m.shared.cell == StepAll(cfg, Initial(tip), inputs).pending)
  {
    hide MovedAll, Step, HandlesOld;
    if turns == [] {
      inputs := [];
      assert HandlesOld(Initial(tip)) by { InitialHandles(tip); }
    } else {
      var init, last := turns[..|turns| - 1], turns[|turns| - 1];
      var before := ConcurrentIsSequential(cfg, tip, init);
      var w := TurnIsStep(cfg, RunAll(cfg, Fresh(tip), init), last);
      inputs := before + [(w, last.update)];
      assert inputs[..|inputs| - 1] == before;
      forall i | 0 <= i < |init|
        ensures inputs[i] == before[i] && turns[i] == init[i]
      {
      }
    }
  }

  lemma InitialHandles(tip: nat)
    ensures HandlesOld(Initial(tip))
  {
  }

  // ---------------------------------------------------------------------------------------
  // The same accesses as in Race
  // ---------------------------------------------------------------------------------------

  lemma ActsAppend(maxDepth: nat, acts: seq<Race.Action>, a: Race.Action)
    ensures After(maxDepth, acts + [a]) == Act(maxDepth, After(maxDepth, acts), a)
  {
    assert (acts + [a])[..|acts|] == acts;
  }

  /** What one move does to the cell is one action of `Race`, or none. */
  lemma MoveIsAction(cfg: Config, v: View, m: Machine, move: Move) returns (a: Option<Race.Action>)
    ensures var after := Moved(cfg, v, m, move).shared;
            if a.None? then after == m.shared else after == Act(cfg.maxDepth, m.shared, a.value)
  {
    hide Settled, Next, Rebuilt, ProcessFlashblock, IsSuperseded, Stranded, WorkerStep, ReceiverStep;
    a := None;
    if move.Receive? {
      a := if IsReceiver(move.action) then Some(move.action) else None;
    } else if More(m.todo) {
      a := Some(if m.shared.worker.Idle? then WorkerLoad
                else if m.shared.worker.Swapping? then WorkerSwap
                else if Stranded(cfg, v, m.st) then WorkerDropStale
                else Ending(cfg, v, m.st, m.todo));
    }
  }

  lemma {:induction false} MovesAreActions(cfg: Config, v: View, m: Machine, moves: seq<Move>, acts: seq<Race.Action>)
    returns (more: seq<Race.Action>)
    requires m.shared == After(cfg.maxDepth, acts)
    ensures MovedAll(cfg, v, m, moves).shared == After(cfg.maxDepth, more)
  {
    hide Moved, After, Act;
    more := acts;
    if moves != [] {
      var init := moves[..|moves| - 1];
      more := MovesAreActions(cfg, v, m, init, acts);
      var a := MoveIsAction(cfg, v, MovedAll(cfg, v, m, init), moves[|moves| - 1]);
      if a.Some? {
        ActsAppend(cfg.maxDepth, more, a.value);
        more := more + [a.value];
      }
    }
  }

  /** So what `Race` proves of the receiver holds of it here: the accesses of any machine run are a
      run of `Race`. */
  lemma {:induction false} MachineRunsRace(cfg: Config, tip: nat, turns: seq<Turn>) returns (acts: seq<Race.Action>)
    ensures RunAll(cfg, Fresh(tip), turns).shared == After(cfg.maxDepth, acts)
  {
    hide MovedAll, After;
    if turns == [] {
      acts := [];
      assert After(cfg.maxDepth, []) == Race.START by { NoActions(cfg.maxDepth); }
    } else {
      var init, last := turns[..|turns| - 1], turns[|turns| - 1];
      var before := MachineRunsRace(cfg, tip, init);
      acts := MovesAreActions(cfg, last.view, Begin(RunAll(cfg, Fresh(tip), init), last.update), last.moves, before);
    }
  }

  lemma NoActions(maxDepth: nat)
    ensures After(maxDepth, []) == Race.START
  {
  }
}
