/** pubsub.rs: the caps on a connection's flashblocks subscriptions. Slots are taken when a
    subscription opens and given back when it ends. */
module Slots {
  import opened Types

  const MAX_FLASHBLOCKS_SUBSCRIPTIONS_PER_CONNECTION: nat := 32
  const MAX_NEW_FLASHBLOCKS_SUBSCRIPTIONS_PER_CONNECTION: nat := 4

  datatype SlotKind = NewFlashblocks | PerItem

  function Cap(kind: SlotKind): nat {
    match kind
    case NewFlashblocks => MAX_NEW_FLASHBLOCKS_SUBSCRIPTIONS_PER_CONNECTION
    case PerItem => MAX_FLASHBLOCKS_SUBSCRIPTIONS_PER_CONNECTION
  }

  type ConnectionId = nat

  /** `counter` names the message counter that the connection's subscriptions share. */
  datatype HeldSubscriptions = HeldSubscriptions(newFlashblocks: nat, perItem: nat, counter: nat) {
    function Count(kind: SlotKind): nat {
      match kind
      case NewFlashblocks => newFlashblocks
      case PerItem => perItem
    }

    predicate IsEmpty() {
      newFlashblocks == 0 && perItem == 0
    }
  }

  /** One held slot. `id` tells apart slots of the same kind on the same connection. */
  datatype Slot = Slot(id: nat, connection: ConnectionId, kind: SlotKind, counter: nat)

  ghost function LiveOf(live: set<Slot>, c: ConnectionId, kind: SlotKind): set<Slot> {
    set s | s in live && s.connection == c && s.kind == kind
  }

  /** The table agrees with the slots that are live: an entry exists exactly for connections with
      a live slot, its counts are the live slots of each kind, no count passes its cap, and all
      slots of a connection share the entry's counter. */
  ghost predicate Balanced(held: map<ConnectionId, HeldSubscriptions>, live: set<Slot>) {
    && (forall s :: s in live ==> s.connection in held && s.counter == held[s.connection].counter)
    && (forall c :: c in held ==> !held[c].IsEmpty())
    && (forall c, kind :: c in held ==>
          held[c].Count(kind) == |LiveOf(live, c, kind)| && held[c].Count(kind) <= Cap(kind))
  }

  // ---------------------------------------------------------------------------------------
  // Counting
  // ---------------------------------------------------------------------------------------

  lemma AddedSlot(live: set<Slot>, slot: Slot, c: ConnectionId, kind: SlotKind)
    requires slot !in live
    ensures |LiveOf(live + {slot}, c, kind)| ==
            |LiveOf(live, c, kind)| + if slot.connection == c && slot.kind == kind then 1 else 0
  {
    if slot.connection == c && slot.kind == kind {
      assert LiveOf(live + {slot}, c, kind) == LiveOf(live, c, kind) + {slot};
    } else {
      assert LiveOf(live + {slot}, c, kind) == LiveOf(live, c, kind);
    }
  }

  lemma RemovedSlot(live: set<Slot>, slot: Slot, c: ConnectionId, kind: SlotKind)
    requires slot in live
    ensures |LiveOf(live - {slot}, c, kind)| ==
            |LiveOf(live, c, kind)| - if slot.connection == c && slot.kind == kind then 1 else 0
  {
    AddedSlot(live - {slot}, slot, c, kind);
    assert live - {slot} + {slot} == live;
  }

  lemma NoEntryNoSlots(held: map<ConnectionId, HeldSubscriptions>, live: set<Slot>, c: ConnectionId, kind: SlotKind)
    requires Balanced(held, live) && c !in held
    ensures LiveOf(live, c, kind) == {}
  {
  }

  // ---------------------------------------------------------------------------------------
  // Taking and giving back
  // ---------------------------------------------------------------------------------------

  function Bumped(h: HeldSubscriptions, kind: SlotKind): HeldSubscriptions {
    match kind
    case NewFlashblocks => h.(newFlashblocks := h.newFlashblocks + 1)
    case PerItem => h.(perItem := h.perItem + 1)
  }

  /** One fewer. The count must be above 0: `DroppedStaysBalanced` shows it is for a live slot. */
  function Lowered(h: HeldSubscriptions, kind: SlotKind): HeldSubscriptions
    requires h.Count(kind) > 0
  {
    match kind
    case NewFlashblocks => h.(newFlashblocks := h.newFlashblocks - 1)
    case PerItem => h.(perItem := h.perItem - 1)
  }

  lemma TakenStaysBalanced(held: map<ConnectionId, HeldSubscriptions>, live: set<Slot>, entry: HeldSubscriptions, slot: Slot)
    requires Balanced(held, live) && slot !in live
    requires entry == if slot.connection in held then held[slot.connection] else HeldSubscriptions(0, 0, slot.counter)
    requires slot.counter == entry.counter && entry.Count(slot.kind) < Cap(slot.kind)
    ensures Balanced(held[slot.connection := Bumped(entry, slot.kind)], live + {slot})
  {
    var after, live' := held[slot.connection := Bumped(entry, slot.kind)], live + {slot};
    forall c, kind: SlotKind | c in after
      ensures after[c].Count(kind) == |LiveOf(live', c, kind)| && after[c].Count(kind) <= Cap(kind)
    {
      AddedSlot(live, slot, c, kind);
      if c !in held {
        NoEntryNoSlots(held, live, c, kind);
      }
    }
  }

  lemma DroppedStaysBalanced(held: map<ConnectionId, HeldSubscriptions>, live: set<Slot>, slot: Slot)
    requires Balanced(held, live) && slot in live
    ensures held[slot.connection].Count(slot.kind) > 0
    ensures var entry := Lowered(held[slot.connection], slot.kind);
            Balanced(if entry.IsEmpty() then held - {slot.connection} else held[slot.connection := entry], live - {slot})
  {
    var c := slot.connection;
    assert slot in LiveOf(live, c, slot.kind);
    var entry, rest := Lowered(held[c], slot.kind), live - {slot};
    var after := if entry.IsEmpty() then held - {c} else held[c := entry];
    forall d, kind: SlotKind | d in held
      ensures |LiveOf(rest, d, kind)| == if d == c then entry.Count(kind) else held[d].Count(kind)
    {
      RemovedSlot(live, slot, d, kind);
    }
    forall s | s in rest
      ensures s.connection in after
    {
      if s.connection == c {
        assert s in LiveOf(rest, c, s.kind);
        assert entry.Count(s.kind) > 0;
      }
    }
  }

  /** The slots of every connection, behind one lock. Each method runs with the lock held. */
  class SubscriptionCounts {
    var held: map<ConnectionId, HeldSubscriptions>
    var nextCounter: nat
    var nextSlot: nat
    ghost var live: set<Slot>

    ghost predicate Valid()
      reads this
    {
      && Balanced(held, live)
      && (forall s :: s in live ==> s.id < nextSlot)
    }

    constructor ()
      ensures Valid() && live == {}
    {
      held, nextCounter, nextSlot, live := map[], 0, 0, {};
    }

    /** Refuses exactly when the live slots of the kind are at their cap. */
    method Take(connection: ConnectionId, kind: SlotKind) returns (taken: Option<Slot>)
      requires Valid()
      modifies this
      ensures Valid()
      ensures taken.None? <==> |LiveOf(old(live), connection, kind)| == (if kind.PerItem? then 32 else 4)
      ensures taken.None? ==> live == old(live) && held == old(held)
      ensures taken.Some? ==>
                && taken.value !in old(live) && live == old(live) + {taken.value}
                && taken.value.connection == connection && taken.value.kind == kind
    {
      ghost var before := held;
      if connection !in held {
        NoEntryNoSlots(held, live, connection, kind);
        held := held[connection := HeldSubscriptions(0, 0, nextCounter)];
        nextCounter := nextCounter + 1;
      }
      var entry := held[connection];
      if entry.Count(kind) >= Cap(kind) {
        return None;
      }
      var slot := Slot(nextSlot, connection, kind, entry.counter);
      TakenStaysBalanced(before, live, entry, slot);
      held := held[connection := Bumped(entry, kind)];
      assert held == before[connection := Bumped(entry, kind)];
      live := live + {slot};
      nextSlot := nextSlot + 1;
      taken := Some(slot);
    }

    /** A slot is dropped once, while it is live; the count it lowers is never 0. */
    method Drop(slot: Slot)
      requires Valid() && slot in live
      modifies this
      ensures Valid() && live == old(live) - {slot}
      ensures slot.connection in held <==> exists s :: s in live && s.connection == slot.connection
    {
      DroppedStaysBalanced(held, live, slot);
      var entry := Lowered(held[slot.connection], slot.kind);
      held := if entry.IsEmpty() then held - {slot.connection} else held[slot.connection := entry];
      live := live - {slot};
      EntryIffLive(held, live, slot.connection);
    }
  }

  /** A connection has an entry exactly while one of its slots is live. */
  lemma EntryIffLive(held: map<ConnectionId, HeldSubscriptions>, live: set<Slot>, c: ConnectionId)
    requires Balanced(held, live)
    ensures c in held <==> exists s :: s in live && s.connection == c
  {
    if c in held {
      var kind := if held[c].newFlashblocks > 0 then NewFlashblocks else PerItem;
      assert held[c].Count(kind) > 0;
      assert LiveOf(live, c, kind) != {};
      var s :| s in LiveOf(live, c, kind);
    }
  }
}
