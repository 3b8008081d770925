/** Continuing from a previous snapshot refines re-executing everything: transactions the
    snapshot executed are listed again but not run, its bundle is the starting state, and every
    block's system calls are replayed over it. */
module Refinement {
  import opened Types
  import opened Assembler
  import opened Overlay
  import opened PendingBlocks
  import opened Rebuild

  // ---------------------------------------------------------------------------------------
  // Replaying system calls over a state that already holds their effect
  // ---------------------------------------------------------------------------------------

  function LastWrites(ws: seq<Write>): map<(Address, Word), Word> {
    if ws == [] then map[]
    else
      var w := ws[|ws| - 1];
      LastWrites(ws[..|ws| - 1])[(w.address, w.slot) := w.value]
  }

  ghost predicate Holds(b: Bundle, key: (Address, Word), value: Word) {
    key.0 in b.accounts && key.1 in b.accounts[key.0].storage && b.accounts[key.0].storage[key.1] == value
  }

  /** The bundle shows the last value written to each slot. */
  ghost predicate Absorbs(b: Bundle, ws: seq<Write>) {
    forall key :: key in LastWrites(ws) ==> Holds(b, key, LastWrites(ws)[key])
  }

  lemma LastWritesCover(ws: seq<Write>, w: Write)
    requires w in ws
    ensures (w.address, w.slot) in LastWrites(ws)
  {
    if w != ws[|ws| - 1] {
      assert w in ws[..|ws| - 1];
      LastWritesCover(ws[..|ws| - 1], w);
    }
  }

  lemma LastWritesFrom(ws: seq<Write>, key: (Address, Word))
    requires key in LastWrites(ws)
    ensures exists w :: w in ws && w.address == key.0
  {
    var w := ws[|ws| - 1];
    if key == (w.address, w.slot) {
      assert w in ws;
    } else {
      LastWritesFrom(ws[..|ws| - 1], key);
      var v :| v in ws[..|ws| - 1] && v.address == key.0;
      assert v in ws;
    }
  }

  /** A bundle account after the writes that hit its slots. */
  ghost predicate Overwritten(before: BundleAccount, after: BundleAccount, a: Address, last: map<(Address, Word), Word>) {
    && after.info == before.info
    && after.destroyed == before.destroyed
    && (forall k :: k in after.storage <==> k in before.storage || (a, k) in last)
    && (forall k :: k in after.storage ==>
          after.storage[k] == if (a, k) in last then last[(a, k)] else before.storage[k])
  }

  /** The effect of replaying writes over accounts the bundle already has. */
  lemma {:induction false} ReplayEffect(world: World, b: Bundle, ws: seq<Write>, a: Address)
    requires forall w :: w in ws ==> w.address in b.accounts
    ensures var r := ApplyWrites(world, b, ws);
            && r.contracts == b.contracts
            && r.accounts.Keys == b.accounts.Keys
            && (a in b.accounts ==> Overwritten(b.accounts[a], r.accounts[a], a, LastWrites(ws)))
  {
    if ws != [] {
      var init, w := ws[..|ws| - 1], ws[|ws| - 1];
      assert forall v :: v in init ==> v in ws;
      ReplayEffect(world, b, init, a);
      assert w in ws;
    }
  }

  lemma ReplayChangesNothing(world: World, b: Bundle, ws: seq<Write>)
    requires Absorbs(b, ws)
    ensures ApplyWrites(world, b, ws) == b
  {
    forall w | w in ws
      ensures w.address in b.accounts
    {
      LastWritesCover(ws, w);
      assert Holds(b, (w.address, w.slot), LastWrites(ws)[(w.address, w.slot)]);
    }
    var r := ApplyWrites(world, b, ws);
    forall a
      ensures r.contracts == b.contracts && r.accounts.Keys == b.accounts.Keys
      ensures a in b.accounts ==> r.accounts[a] == b.accounts[a]
    {
      ReplayEffect(world, b, ws, a);
      if a in b.accounts {
        forall k | (a, k) in LastWrites(ws)
          ensures k in b.accounts[a].storage && b.accounts[a].storage[k] == LastWrites(ws)[(a, k)]
        {
          assert Holds(b, (a, k), LastWrites(ws)[(a, k)]);
        }
        assert r.accounts[a].storage == b.accounts[a].storage;
      }
    }
    assert r.accounts == b.accounts;
  }

  lemma {:induction false} ApplyWritesAppend(world: World, b: Bundle, first: seq<Write>, second: seq<Write>)
    ensures ApplyWrites(world, b, first + second) == ApplyWrites(world, ApplyWrites(world, b, first), second)
  {
    if second == [] {
      assert first + second == first;
    } else {
      var init := second[..|second| - 1];
      ApplyWritesAppend(world, b, first, init);
      assert (first + second)[..|first + second| - 1] == first + init;
    }
  }

  /** Making the writes is what makes a bundle absorb them. */
  lemma {:induction false} WritesAreAbsorbed(world: World, b: Bundle, done: seq<Write>, ws: seq<Write>)
    requires Absorbs(b, done)
    ensures Absorbs(ApplyWrites(world, b, ws), done + ws)
  {
    if ws == [] {
      assert done + ws == done;
    } else {
      var init, w := ws[..|ws| - 1], ws[|ws| - 1];
      WritesAreAbsorbed(world, b, done, init);
      assert (done + ws)[..|done + ws| - 1] == done + init;
      var before, after := ApplyWrites(world, b, init), ApplyWrites(world, b, ws);
      forall key | key in LastWrites(done + ws)
        ensures Holds(after, key, LastWrites(done + ws)[key])
      {
        if key != (w.address, w.slot) {
          assert Holds(before, key, LastWrites(done + init)[key]);
        }
      }
    }
  }

  /** A transaction that leaves system storage alone leaves the absorbed writes in place. */
  lemma CommitKeepsAbsorbed(b: Bundle, d: Delta, ws: seq<Write>, system: set<Address>)
    requires Absorbs(b, ws)
    requires forall w :: w in ws ==> w.address in system
    requires forall a :: a in d.accounts && a in system ==> LeavesStorage(d.accounts[a])
    ensures Absorbs(Commit(b, d), ws)
  {
    forall key | key in LastWrites(ws)
      ensures Holds(Commit(b, d), key, LastWrites(ws)[key])
    {
      assert Holds(b, key, LastWrites(ws)[key]);
      LastWritesFrom(ws, key);
    }
  }

  // ---------------------------------------------------------------------------------------
  // A finished run lists each transaction once
  // ---------------------------------------------------------------------------------------

  predicate Done(r: Result<Progress, Error>) {
    r.Ok? && r.value.draft.duplicate.None?
  }

  lemma {:induction false} DuplicateNeverDone(rules: Rules, world: World, reused: map<Hash, Delta>, script: Script, p: Progress)
    requires p.draft.duplicate.Some?
    ensures !Done(Run(rules, world, reused, script, p))
    decreases script
  {
    match script
    case Finish =>
    case Abort(_) =>
    case OpenBlock(group, header, n, h, next) =>
      DuplicateNeverDone(rules, world, reused, next, OpenStep(group, header, n, h, p));
    case SystemCalls(writes, next) =>
      DuplicateNeverDone(rules, world, reused, next, SystemStep(world, writes, p));
    case Execute(step, next) =>
      var stepped := ExecuteStep(rules, world, reused, step, p);
      if stepped.Ok? {
        DuplicateNeverDone(rules, world, reused, next, stepped.value);
      }
    case CloseBlock(balances, next) =>
      DuplicateNeverDone(rules, world, reused, next, CloseStep(balances, p));
  }

  lemma RepeatNeverDone(rules: Rules, world: World, reused: map<Hash, Delta>, step: TxStep, next: Script, p: Progress)
    requires step.tx == step.rpc.tx
    requires step.tx.hash in p.draft.byHash
    ensures !Done(Run(rules, world, reused, Execute(step, next), p))
  {
    var stepped := ExecuteStep(rules, world, reused, step, p);
    if stepped.Ok? {
      DuplicateNeverDone(rules, world, reused, next, stepped.value);
    }
  }

  /** Every listed transaction has a state, a sender and a receipt. */
  ghost predicate Listed(d: Draft) {
    d.states.Keys == d.byHash.Keys == d.senders.Keys == d.receipts.Keys
  }

  /** The steps of a script: the listed transaction is the executed one, and its sender is the
      one its signature recovers to. */
  ghost predicate SoundScript(rules: Rules, script: Script)
    decreases script
  {
    match script
    case Finish => true
    case Abort(_) => true
    case OpenBlock(_, _, _, _, next) => SoundScript(rules, next)
    case SystemCalls(_, next) => SoundScript(rules, next)
    case Execute(step, next) =>
      step.tx == step.rpc.tx && rules.recover(step.tx) == Some(step.sender) && SoundScript(rules, next)
    case CloseBlock(_, next) => SoundScript(rules, next)
  }

  ghost predicate SoundSenders(rules: Rules, senders: map<Hash, Address>) {
    forall h :: h in senders ==> rules.recover(Tx(h)) == Some(senders[h])
  }

  ghost predicate SoundDraft(rules: Rules, d: Draft) {
    Listed(d) && SoundSenders(rules, d.senders)
  }

  /** `later` still holds everything `d` listed, with the same state changes. */
  ghost predicate Extends(d: Draft, later: Draft) {
    && d.byHash.Keys <= later.byHash.Keys
    && forall h :: h in d.byHash && h in d.states && h in later.states ==> later.states[h] == d.states[h]
  }

  function Added(d: Draft, step: TxStep, state: Delta): Draft {
    var d := ListStep(d, step);
    d.(states := d.states[step.tx.hash := state])
  }

  lemma AddedKeeps(rules: Rules, d: Draft, step: TxStep, state: Delta)
    requires step.tx == step.rpc.tx && rules.recover(step.tx) == Some(step.sender)
    requires step.tx.hash !in d.byHash
    requires SoundDraft(rules, d)
    ensures var r := Added(d, step, state);
            && SoundDraft(rules, r) && Extends(d, r)
            && r.byHash.Keys == d.byHash.Keys + {step.tx.hash}
            && r.duplicate == d.duplicate
  {
    assert step.tx == Tx(step.tx.hash);
  }

  lemma StepAdds(rules: Rules, world: World, reused: map<Hash, Delta>, step: TxStep, p: Progress)
    ensures var r := ExecuteStep(rules, world, reused, step, p);
            r.Ok? ==> step.tx.hash in r.value.draft.states
                      && r.value.draft == Added(p.draft, step, r.value.draft.states[step.tx.hash])
  {
  }

  lemma StepKeeps(rules: Rules, world: World, step: TxStep, p: Progress)
    requires step.tx == step.rpc.tx && rules.recover(step.tx) == Some(step.sender)
    requires step.tx.hash !in p.draft.byHash
    requires SoundDraft(rules, p.draft)
    ensures var r := ExecuteStep(rules, world, map[], step, p);
            r.Ok? ==>
              && SoundDraft(rules, r.value.draft) && Extends(p.draft, r.value.draft)
              && r.value.draft.byHash.Keys == p.draft.byHash.Keys + {step.tx.hash}
              && r.value.draft.duplicate == p.draft.duplicate
  {
    hide ExecuteStep, SoundDraft, Added;
    var r := ExecuteStep(rules, world, map[], step, p);
    StepAdds(rules, world, map[], step, p);
    if r.Ok? {
      AddedKeeps(rules, p.draft, step, r.value.draft.states[step.tx.hash]);
    }
  }

  lemma ExtendsTransitive(a: Draft, b: Draft, c: Draft)
    requires Extends(a, b) && Extends(b, c)
    requires Listed(a) && Listed(b) && Listed(c)
    ensures Extends(a, c)
  {
  }

  /** What a finished run keeps from a point in its middle. */
  lemma {:induction false} RunKeeps(rules: Rules, world: World, script: Script, p: Progress)
    requires SoundScript(rules, script)
    requires Done(Run(rules, world, map[], script, p))
    requires SoundDraft(rules, p.draft)
    ensures p.draft.duplicate.None?
    ensures var d := Run(rules, world, map[], script, p).value.draft;
            SoundDraft(rules, d) && Extends(p.draft, d)
    decreases script
  {
    hide ExecuteStep, SoundSenders;
    if p.draft.duplicate.Some? {
      DuplicateNeverDone(rules, world, map[], script, p);
    }
    match script
    case Finish =>
    case Abort(_) =>
    case OpenBlock(group, header, n, h, next) =>
      RunKeeps(rules, world, next, OpenStep(group, header, n, h, p));
    case SystemCalls(writes, next) =>
      RunKeeps(rules, world, next, SystemStep(world, writes, p));
    case Execute(step, next) =>
      if step.tx.hash in p.draft.byHash {
        RepeatNeverDone(rules, world, map[], step, next, p);
      }
      StepKeeps(rules, world, step, p);
      var q := ExecuteStep(rules, world, map[], step, p).value;
      RunKeeps(rules, world, next, q);
      ExtendsTransitive(p.draft, q.draft, Run(rules, world, map[], script, p).value.draft);
    case CloseBlock(balances, next) =>
      RunKeeps(rules, world, next, CloseStep(balances, p));
  }

  /** Once the reused transactions are all listed, reuse changes nothing any more: a further
      transaction is either new, and run, or a repeat, and fails the build. */
  lemma {:induction false} NothingLeftToReuse(rules: Rules, world: World, reused: map<Hash, Delta>, script: Script, p: Progress)
    requires SoundScript(rules, script)
    requires reused.Keys <= p.draft.byHash.Keys
    ensures Done(Run(rules, world, map[], script, p)) <==> Done(Run(rules, world, reused, script, p))
    ensures Done(Run(rules, world, map[], script, p)) ==>
              Run(rules, world, map[], script, p) == Run(rules, world, reused, script, p)
    decreases script
  {
    match script
    case Finish =>
    case Abort(_) =>
    case OpenBlock(group, header, n, h, next) =>
      NothingLeftToReuse(rules, world, reused, next, OpenStep(group, header, n, h, p));
    case SystemCalls(writes, next) =>
      NothingLeftToReuse(rules, world, reused, next, SystemStep(world, writes, p));
    case Execute(step, next) =>
      if step.tx.hash in p.draft.byHash {
        RepeatNeverDone(rules, world, map[], step, next, p);
        RepeatNeverDone(rules, world, reused, step, next, p);
      } else {
        var stepped := ExecuteStep(rules, world, map[], step, p);
        if stepped.Ok? {
          NothingLeftToReuse(rules, world, reused, next, stepped.value);
        }
      }
    case CloseBlock(balances, next) =>
      NothingLeftToReuse(rules, world, reused, next, CloseStep(balances, p));
  }

  // ---------------------------------------------------------------------------------------
  // The simulation
  // ---------------------------------------------------------------------------------------

  predicate SameRun(a: TxStep, b: TxStep) {
    a.tx == b.tx && a.sender == b.sender && a.env == b.env
  }

  /** `later` runs what `earlier` runs, and may go on inside the last block or after it. */
  ghost predicate Matches(earlier: Script, later: Script)
    decreases earlier
  {
    later.Abort? ||
    match earlier
    case Finish => true
    case Abort(_) => true
    case OpenBlock(_, _, n, h, next) =>
      later.OpenBlock? && later.parentNumber == n && later.parentHash == h && Matches(next, later.next)
    case SystemCalls(writes, next) =>
      later.SystemCalls? && later.writes == writes && Matches(next, later.next)
    case Execute(step, next) =>
      later.Execute? && SameRun(step, later.step) && Matches(next, later.next)
    case CloseBlock(_, next) =>
      next.Finish? || (later.CloseBlock? && Matches(next, later.next))
  }

  /** The producer's reported outcomes for the common transactions did not change. */
  ghost predicate Kept(earlier: Script, later: Script)
    requires Matches(earlier, later)
    decreases earlier
  {
    later.Abort? ||
    match earlier
    case Finish => true
    case Abort(_) => true
    case OpenBlock(_, _, _, _, next) => Kept(next, later.next)
    case SystemCalls(_, next) => Kept(next, later.next)
    case Execute(step, next) => step.expected == later.step.expected && Kept(next, later.next)
    case CloseBlock(_, next) => next.Finish? || Kept(next, later.next)
  }

  /** Everything the simulation carries at one point of the three runs: the finished run of the
      earlier list at `p`, the full run of the later list at `full` and the incremental run at
      `inc`, which starts from the earlier run's final bundle. */
  ghost predicate InStep(rules: Rules, world: World, earlier: Script, final: Progress, p: Progress,
                         full: Progress, inc: Progress, done: seq<Write>)
  {
    && SoundScript(rules, earlier)
    && Run(rules, world, map[], earlier, p) == Ok(final)
    && final.draft.duplicate.None?
    && SoundDraft(rules, p.draft)
    && full.draft.byHash.Keys == p.draft.byHash.Keys
    && full.db == p.db
    && inc.draft == full.draft
    && inc.db.blockHashes == full.db.blockHashes
    && inc.db.bundle == ApplyWrites(world, final.db.bundle, done)
    && Absorbs(p.db.bundle, done)
    && (forall w :: w in done ==> w.address in rules.systemContracts)
  }

  lemma FinalStep(rules: Rules, world: World, s: Script, p: Progress)
    requires s.Finish? || (s.CloseBlock? && s.next.Finish?)
    ensures var r := Run(rules, world, map[], s, p);
            r.Ok? && r.value.db == p.db && r.value.draft.states == p.draft.states
  {
    if s.CloseBlock? {
      assert Run(rules, world, map[], s, p) == Run(rules, world, map[], Finish, CloseStep(s.balances, p));
    }
  }

  /** Where the earlier run ends, the two runs of the later list stand in the same state. */
  lemma Converge(rules: Rules, world: World, earlier: Script, later: Script, final: Progress,
                 p: Progress, full: Progress, inc: Progress, done: seq<Write>)
    requires earlier.Finish? || (earlier.CloseBlock? && earlier.next.Finish?)
    requires SoundScript(rules, later)
    requires InStep(rules, world, earlier, final, p, full, inc, done)
    ensures var f, i := Run(rules, world, map[], later, full), Run(rules, world, final.draft.states, later, inc);
            (Done(f) <==> Done(i)) && (Done(f) ==> f == i)
  {
    FinalStep(rules, world, earlier, p);
    ReplayChangesNothing(world, p.db.bundle, done);
    assert inc == full;
    NothingLeftToReuse(rules, world, final.draft.states, later, full);
  }

  lemma InStepOpens(rules: Rules, world: World, earlier: Script, later: Script, final: Progress,
                    p: Progress, full: Progress, inc: Progress, done: seq<Write>)
    requires earlier.OpenBlock? && later.OpenBlock? && Matches(earlier, later)
    requires InStep(rules, world, earlier, final, p, full, inc, done)
    ensures InStep(rules, world, earlier.next, final,
                   OpenStep(earlier.group, earlier.header, earlier.parentNumber, earlier.parentHash, p),
                   OpenStep(later.group, later.header, later.parentNumber, later.parentHash, full),
                   OpenStep(later.group, later.header, later.parentNumber, later.parentHash, inc), done)
  {
  }

  lemma InStepCalls(rules: Rules, world: World, earlier: Script, final: Progress, p: Progress,
                    full: Progress, inc: Progress, done: seq<Write>)
    requires earlier.SystemCalls?
    requires forall w :: w in earlier.writes ==> w.address in rules.systemContracts
    requires InStep(rules, world, earlier, final, p, full, inc, done)
    ensures InStep(rules, world, earlier.next, final, SystemStep(world, earlier.writes, p),
                   SystemStep(world, earlier.writes, full), SystemStep(world, earlier.writes, inc),
                   done + earlier.writes)
  {
    ApplyWritesAppend(world, final.db.bundle, done, earlier.writes);
    WritesAreAbsorbed(world, p.db.bundle, done, earlier.writes);
  }

  /** The earlier run executed this transaction, and its final state still holds the outcome. */
  lemma EarlierExecuted(rules: Rules, world: World, step: TxStep, next: Script, final: Progress, p: Progress)
    requires SoundScript(rules, Execute(step, next))
    requires Run(rules, world, map[], Execute(step, next), p) == Ok(final)
    requires final.draft.duplicate.None?
    requires SoundDraft(rules, p.draft)
    ensures step.tx.hash !in p.draft.byHash
    ensures var r := ExecuteStep(rules, world, map[], step, p);
            && r.Ok?
            && Run(rules, world, map[], next, r.value) == Ok(final)
            && SoundDraft(rules, r.value.draft)
            && r.value.draft.byHash.Keys == p.draft.byHash.Keys + {step.tx.hash}
            && step.tx.hash in final.draft.states
            && step.tx.hash in r.value.draft.states
            && final.draft.states[step.tx.hash] == r.value.draft.states[step.tx.hash]
  {
    hide ExecuteStep, SoundSenders;
    if step.tx.hash in p.draft.byHash {
      RepeatNeverDone(rules, world, map[], step, next, p);
    }
    StepKeeps(rules, world, step, p);
    StepAdds(rules, world, map[], step, p);
    RunKeeps(rules, world, next, ExecuteStep(rules, world, map[], step, p).value);
  }

  /** The same transaction in the three runs: the full run re-executes it, the incremental run
      reuses its state changes. They stay in step unless the producer changed its outcome. */
  lemma StepsAlike(rules: Rules, world: World, step: TxStep, later: TxStep, states: map<Hash, Delta>,
                   p: Progress, full: Progress, inc: Progress)
    requires SameRun(step, later) && later.tx == later.rpc.tx
    requires full.db == p.db && inc.draft == full.draft
    requires full.draft.byHash.Keys == p.draft.byHash.Keys
    requires var r := ExecuteStep(rules, world, map[], step, p);
             r.Ok? && step.tx.hash in states && step.tx.hash in r.value.draft.states
             && states[step.tx.hash] == r.value.draft.states[step.tx.hash]
    ensures var r := ExecuteStep(rules, world, map[], step, p).value;
            var f := ExecuteStep(rules, world, map[], later, full);
            var i := ExecuteStep(rules, world, states, later, inc);
            && i.Ok? && i.value.db == inc.db
            && (f.Ok? <==> later.expected == step.expected)
            && (f.Ok? ==> f.value.db == r.db && f.value.draft == i.value.draft
                          && f.value.draft.byHash.Keys == full.draft.byHash.Keys + {step.tx.hash})
  {
  }

  lemma CommittedByStep(rules: Rules, world: World, step: TxStep, p: Progress, done: seq<Write>)
    requires SystemStorageReserved(rules, world)
    requires ExecuteStep(rules, world, map[], step, p).Ok?
    requires Absorbs(p.db.bundle, done)
    requires forall w :: w in done ==> w.address in rules.systemContracts
    ensures var r := ExecuteStep(rules, world, map[], step, p).value;
            Absorbs(r.db.bundle, done) && r.db.blockHashes == p.db.blockHashes
  {
    var o := rules.transact(world, p.db, step.env, step.sender, step.tx);
    CommitKeepsAbsorbed(p.db.bundle, o.value.delta, done, rules.systemContracts);
  }

  lemma InStepExecutes(rules: Rules, world: World, earlier: Script, later: TxStep, final: Progress,
                       p: Progress, full: Progress, inc: Progress, done: seq<Write>)
    requires SystemStorageReserved(rules, world)
    requires earlier.Execute? && SameRun(earlier.step, later) && later.tx == later.rpc.tx
    requires InStep(rules, world, earlier, final, p, full, inc, done)
    ensures var f := ExecuteStep(rules, world, map[], later, full);
            var i := ExecuteStep(rules, world, final.draft.states, later, inc);
            && ExecuteStep(rules, world, map[], earlier.step, p).Ok?
            && i.Ok? && (f.Ok? <==> later.expected == earlier.step.expected)
            && (f.Ok? ==> InStep(rules, world, earlier.next, final,
                                 ExecuteStep(rules, world, map[], earlier.step, p).value, f.value, i.value, done))
  {
    hide ExecuteStep, Run, SystemStorageReserved, Absorbs, SoundDraft, ApplyWrites;
    EarlierExecuted(rules, world, earlier.step, earlier.next, final, p);
    StepsAlike(rules, world, earlier.step, later, final.draft.states, p, full, inc);
    CommittedByStep(rules, world, earlier.step, p, done);
  }

  /** The full and the incremental run of the later list finish together, with the same result,
      provided the producer kept its reported outcomes; if it did not, the full run fails. */
  lemma {:induction false} Simulate(rules: Rules, world: World, earlier: Script, later: Script, final: Progress,
                                    p: Progress, full: Progress, inc: Progress, done: seq<Write>)
    requires SystemStorageReserved(rules, world)
    requires Matches(earlier, later) && SoundScript(rules, later) && CallsSystem(rules, later)
    requires InStep(rules, world, earlier, final, p, full, inc, done)
    ensures var f, i := Run(rules, world, map[], later, full), Run(rules, world, final.draft.states, later, inc);
            (Done(f) <==> Done(i) && Kept(earlier, later)) && (Done(f) ==> f == i)
    decreases earlier
  {
    if later.Abort? {
      return;
    }
    match earlier
    case Finish =>
      Converge(rules, world, earlier, later, final, p, full, inc, done);
    case Abort(_) =>
      assert false;
    case OpenBlock(group, header, n, h, next) =>
      InStepOpens(rules, world, earlier, later, final, p, full, inc, done);
      Simulate(rules, world, next, later.next, final, OpenStep(group, header, n, h, p),
               OpenStep(later.group, later.header, n, h, full), OpenStep(later.group, later.header, n, h, inc), done);
    case SystemCalls(writes, next) =>
      InStepCalls(rules, world, earlier, final, p, full, inc, done);
      Simulate(rules, world, next, later.next, final, SystemStep(world, writes, p),
               SystemStep(world, writes, full), SystemStep(world, writes, inc), done + writes);
    case Execute(step, next) =>
      InStepExecutes(rules, world, earlier, later.step, final, p, full, inc, done);
      var f := ExecuteStep(rules, world, map[], later.step, full);
      if f.Ok? {
        Simulate(rules, world, next, later.next, final, ExecuteStep(rules, world, map[], step, p).value,
                 f.value, ExecuteStep(rules, world, final.draft.states, later.step, inc).value, done);
      }
    case CloseBlock(balances, next) =>
      if next.Finish? {
        Converge(rules, world, earlier, later, final, p, full, inc, done);
      } else {
        Simulate(rules, world, next, later.next, final, CloseStep(balances, p),
                 CloseStep(later.balances, full), CloseStep(later.balances, inc), done);
      }
  }

  /** Every system call writes to a system contract. */
  ghost predicate CallsSystem(rules: Rules, script: Script)
    decreases script
  {
    match script
    case Finish => true
    case Abort(_) => true
    case OpenBlock(_, _, _, _, next) => CallsSystem(rules, next)
    case SystemCalls(writes, next) =>
      (forall w :: w in writes ==> w.address in rules.systemContracts) && CallsSystem(rules, next)
    case Execute(_, next) => CallsSystem(rules, next)
    case CloseBlock(_, next) => CallsSystem(rules, next)
  }
}
