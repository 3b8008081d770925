/** pubsub.rs: one connection's buffer, shared by its subscriptions. Each subscription counts a
    message and then queues it, as two steps; the socket writes from the front; a per-item
    subscription first checks for room; a `newFlashblocks` subscription first judges whether its
    previous message is still queued, from the buffer length and then the count. Runs interleave
    all of these steps freely. */
module Backpressure {
  import opened Types
  import opened Validation
  import opened Slots

  /** A queued message: who sent it, and the count it got. */
  datatype Message = Message(sender: nat, stamp: nat)

  /** The last message a subscription queued. `below` holds the stamps that were counted before it
      and not yet queued when it was. */
  datatype Sent = Sent(stamp: nat, below: set<nat>)

  /** Where a subscription stands between two steps. After it has read the buffer length, `left`
      tells whether its previous message had left by then, and `overtook` which messages counted
      before that one the buffer held: the decision itself does not use them. */
  datatype Stage =
    | Idle
    | Measured(held: nat, left: bool, overtook: set<nat>)
    | Ready
    | Counted(stamp: nat)

  datatype Sender = Sender(kind: SlotKind, stage: Stage, previous: Option<Sent>)

  /** Subscriptions are numbered in the order they open, and open only while the connection holds
      fewer of their kind than it may. `queued` is everything ever queued, in order; the first
      `written` of it went out. */
  datatype Connection = Connection(
    senders: map<nat, Sender>,
    nextId: nat,
    total: nat,
    queued: seq<Message>,
    written: nat)

  datatype Action =
    | Open(kind: SlotKind)
    | Close(id: nat)
    | FindRoom(id: nat)
    | Measure(id: nat)
    | Judge(id: nat)
    | Count(id: nat)
    | Queue(id: nat)
    | Write

  const START := Connection(map[], 0, 0, [], 0)

  function Held(c: Connection): nat {
    SaturatingSub(|c.queued|, c.written)
  }

  function Buffer(c: Connection): seq<Message>
    requires c.written <= |c.queued|
  {
    c.queued[c.written..]
  }

  /** The decision: has a message left, given the buffer length and how many came after it? */
  predicate HasLeft(held: nat, queuedAfter: nat) {
    held <= queuedAfter
  }

  function Stamps(ms: seq<Message>): set<nat> {
    set m | m in ms :: m.stamp
  }

  /** Counted and not queued yet. */
  function InFlight(c: Connection): set<nat> {
    set id | id in c.senders && c.senders[id].stage.Counted? :: c.senders[id].stage.stamp
  }

  function Below(stamps: set<nat>, at: nat): set<nat> {
    set s | s in stamps && s < at
  }

  function OfKind(c: Connection, kind: SlotKind): set<nat> {
    set id | id in c.senders && c.senders[id].kind == kind
  }

  predicate InBuffer(c: Connection, stamp: nat) {
    c.written <= |c.queued| && stamp in Stamps(Buffer(c))
  }

  function With(c: Connection, id: nat, s: Sender): Connection {
    c.(senders := c.senders[id := s])
  }

  function Act(maxQueued: nat, c: Connection, a: Action): Connection {
    if a.Open? then
      if |OfKind(c, a.kind)| < Cap(a.kind)
      then With(c, c.nextId, Sender(a.kind, Idle, None)).(nextId := c.nextId + 1) else c
    else if a.Write? then
      if c.written < |c.queued| then c.(written := c.written + 1) else c
    else if a.id !in c.senders then c
    else
      var s := c.senders[a.id];
      if a.Close? then c.(senders := c.senders - {a.id})
      else if a.FindRoom? && s.kind.PerItem? && s.stage.Idle? then
        if Held(c) <= maxQueued then With(c, a.id, s.(stage := Ready)) else c
      else if a.Measure? && s.kind.NewFlashblocks? && s.stage.Idle? then
        if s.previous.None? then With(c, a.id, s.(stage := Ready))
        else
          var at := s.previous.value.stamp;
          With(c, a.id, s.(stage := Measured(Held(c), !InBuffer(c, at),
            if c.written <= |c.queued| then Below(Stamps(Buffer(c)), at) else {})))
      else if a.Judge? && s.stage.Measured? && s.previous.Some? then
        if HasLeft(s.stage.held, SaturatingSub(c.total, s.previous.value.stamp))
        then With(c, a.id, s.(stage := Ready)) else With(c, a.id, s.(stage := Idle))
      else if a.Count? && s.stage.Ready? then
        With(c, a.id, s.(stage := Counted(c.total + 1))).(total := c.total + 1)
      else if a.Queue? && s.stage.Counted? then
        var stamp := s.stage.stamp;
        With(c, a.id, s.(stage := Idle, previous := Some(Sent(stamp, Below(InFlight(c), stamp)))))
        .(queued := c.queued + [Message(a.id, stamp)])
      else c
  }

  function After(maxQueued: nat, acts: seq<Action>): Connection {
    if acts == [] then START else Act(maxQueued, After(maxQueued, acts[..|acts| - 1]), acts[|acts| - 1])
  }

  // ---------------------------------------------------------------------------------------
  // One subscription's steps
  // ---------------------------------------------------------------------------------------

  /** A per-item subscription goes on exactly when at most `maxQueued` messages are unwritten. */
  lemma AdmitsExactly(maxQueued: nat, c: Connection, id: nat)
    requires id in c.senders && c.senders[id].kind.PerItem? && c.senders[id].stage.Idle? && c.written <= |c.queued|
    ensures Act(maxQueued, c, FindRoom(id)) ==
            if |c.queued| <= c.written + maxQueued then With(c, id, c.senders[id].(stage := Ready)) else c
  {
  }

  /** A `newFlashblocks` subscription with a previous message skips exactly when the length it read
      exceeds what was counted since; without one it goes on. */
  lemma JudgesExactly(maxQueued: nat, c: Connection, id: nat)
    requires id in c.senders && c.senders[id].kind.NewFlashblocks?
    ensures c.senders[id].stage.Idle? && c.senders[id].previous.None? ==>
              Act(maxQueued, c, Measure(id)) == With(c, id, c.senders[id].(stage := Ready))
    ensures c.senders[id].stage.Idle? && c.senders[id].previous.Some? && c.written <= |c.queued| ==>
              var after := Act(maxQueued, c, Measure(id)).senders[id];
              after.stage.Measured? && c.written + after.stage.held == |c.queued| && after.previous == c.senders[id].previous
    ensures c.senders[id].stage.Measured? && c.senders[id].previous.Some? && c.senders[id].previous.value.stamp <= c.total ==>
              Act(maxQueued, c, Judge(id)) ==
              With(c, id, c.senders[id].(stage :=
                if c.senders[id].stage.held + c.senders[id].previous.value.stamp > c.total then Idle else Ready))
  {
  }

  /** Sending counts one message and then queues that message, last, under its own count. */
  lemma SendsOne(maxQueued: nat, c: Connection, id: nat)
    requires id in c.senders && c.senders[id].stage.Ready?
    ensures var counted := Act(maxQueued, c, Count(id));
            var sent := Act(maxQueued, counted, Queue(id));
            && counted.total == c.total + 1 && counted.queued == c.queued
            && sent.total == c.total + 1 && sent.queued == c.queued + [Message(id, c.total + 1)] && sent.written == c.written
            && sent.senders[id].stage.Idle? && sent.senders[id].previous.Some?
            && sent.senders[id].previous.value.stamp == c.total + 1
  {
  }

  /** The socket writes the front message, if there is one. A subscription opens exactly while the
      connection holds fewer of its kind than it may, and closing it takes nothing else away. */
  lemma ConnectionSteps(maxQueued: nat, c: Connection)
    ensures Act(maxQueued, c, Write) == if c.written < |c.queued| then c.(written := c.written + 1) else c
    ensures forall kind: SlotKind :: var after := Act(maxQueued, c, Open(kind));
              if |OfKind(c, kind)| < (if kind.PerItem? then 32 else 4)
              then after == c.(senders := c.senders[c.nextId := Sender(kind, Idle, None)], nextId := c.nextId + 1)
              else after == c
    ensures forall id: nat :: Act(maxQueued, c, Close(id)) == c.(senders := c.senders - {id})
  {
    assert forall id: nat :: id !in c.senders ==> c.senders - {id} == c.senders;
  }

  // ---------------------------------------------------------------------------------------
  // Stamps
  // ---------------------------------------------------------------------------------------

  /** Every count belongs to one message, in flight with one sender or queued in one place. */
  ghost predicate Stamped(c: Connection) {
    && c.written <= |c.queued|
    && (forall id :: id in c.senders ==> id < c.nextId)
    && (forall i :: 0 <= i < |c.queued| ==> 0 < c.queued[i].stamp <= c.total)
    && (forall i, j :: 0 <= i < j < |c.queued| ==> c.queued[i].stamp != c.queued[j].stamp)
    && (forall id :: id in c.senders && c.senders[id].stage.Counted? ==>
          && 0 < c.senders[id].stage.stamp <= c.total
          && forall i :: 0 <= i < |c.queued| ==> c.queued[i].stamp != c.senders[id].stage.stamp)
    && (forall a, b :: a in c.senders && b in c.senders && a != b ==>
          c.senders[a].stage.Counted? && c.senders[b].stage.Counted? ==>
            c.senders[a].stage.stamp != c.senders[b].stage.stamp)
  }

  /** Where the message with a given stamp sits, and what may come after it: only later counts and
      the ones in flight when it was queued. */
  ghost predicate PlacedAt(c: Connection, id: nat, sent: Sent, q: nat) {
    && q < |c.queued| && c.queued[q] == Message(id, sent.stamp)
    && forall i :: q < i < |c.queued| ==> c.queued[i].stamp > sent.stamp || c.queued[i].stamp in sent.below
  }

  ghost predicate Placed(c: Connection, id: nat, sent: Sent) {
    && (exists q: nat :: PlacedAt(c, id, sent, q))
    && forall s :: s in InFlight(c) && s < sent.stamp ==> s in sent.below
  }

  /** What a reading of the length is worth, from then on: it exceeds the later counts by at most
      the messages that overtook, provided the previous message had left. */
  ghost predicate Weighed(c: Connection, s: Sender) {
    s.stage.Measured? ==>
      && s.previous.Some? && s.previous.value.stamp <= c.total
      && (s.stage.left ==>
            && s.stage.held <= c.total - s.previous.value.stamp + |s.stage.overtook|
            && s.stage.overtook <= s.previous.value.below)
  }

  ghost predicate Sound(c: Connection) {
    && Stamped(c)
    && (forall id :: id in c.senders && c.senders[id].previous.Some? ==> Placed(c, id, c.senders[id].previous.value))
    && (forall id :: id in c.senders ==> Weighed(c, c.senders[id]))
  }

  // ---------------------------------------------------------------------------------------
  // Counting the buffer
  // ---------------------------------------------------------------------------------------

  lemma {:induction false} StampsSize(ms: seq<Message>)
    requires forall i, j :: 0 <= i < j < |ms| ==> ms[i].stamp != ms[j].stamp
    ensures |Stamps(ms)| == |ms|
  {
    if ms != [] {
      var m := |ms| - 1;
      var init := ms[..m];
      StampsSize(init);
      assert Stamps(ms) == Stamps(init) + {ms[m].stamp};
      assert ms[m].stamp !in Stamps(init);
    }
  }

  lemma {:induction false} RangeSize(s: set<nat>, lo: nat, hi: nat)
    requires lo <= hi && forall x :: x in s ==> lo < x <= hi
    ensures |s| <= hi - lo
    decreases hi - lo
  {
    if s != {} {
      assert lo < hi;
      RangeSize(s - {hi}, lo, hi - 1);
      assert |s| <= |s - {hi}| + 1;
    }
  }

  /** The buffer holds at most the later counts and the lower ones it happens to hold. */
  lemma BufferBound(c: Connection, at: nat)
    requires Stamped(c) && at <= c.total && !InBuffer(c, at)
    ensures Held(c) <= c.total - at + |Below(Stamps(Buffer(c)), at)|
  {
    var stamps := Stamps(Buffer(c));
    var lower := Below(stamps, at);
    BufferDistinct(c);
    StampsSize(Buffer(c));
    forall x | x in stamps - lower
      ensures at < x <= c.total
    {
      assert x in stamps;
    }
    hide Stamps, Below, Buffer, Stamped;
    RangeSize(stamps - lower, at, c.total);
    assert |stamps| == |stamps - lower| + |lower|;
  }

  lemma BufferStamps(c: Connection)
    requires c.written <= |c.queued|
    ensures forall i :: c.written <= i < |c.queued| ==> c.queued[i].stamp in Stamps(Buffer(c))
  {
    forall i | c.written <= i < |c.queued|
      ensures c.queued[i].stamp in Stamps(Buffer(c))
    {
      assert Buffer(c)[i - c.written] == c.queued[i];
    }
  }

  lemma BufferDistinct(c: Connection)
    requires Stamped(c)
    ensures var b := Buffer(c);
            && |b| == Held(c)
            && (forall i, j :: 0 <= i < j < |b| ==> b[i].stamp != b[j].stamp)
            && (forall x :: x in Stamps(b) ==> 0 < x <= c.total)
  {
    var b := Buffer(c);
    assert forall i :: 0 <= i < |b| ==> b[i] == c.queued[c.written + i];
  }

  /** First in, first out: once a message has left, what is still buffered was queued after it. */
  lemma LeftMeansOvertaken(c: Connection, id: nat, sent: Sent)
    requires Stamped(c) && Placed(c, id, sent) && !InBuffer(c, sent.stamp)
    ensures Below(Stamps(Buffer(c)), sent.stamp) <= sent.below
  {
    var q: nat :| PlacedAt(c, id, sent, q);
    assert forall i :: c.written <= i < |c.queued| ==> c.queued[i].stamp in Stamps(Buffer(c)) by {
      BufferStamps(c);
    }
    forall x | x in Below(Stamps(Buffer(c)), sent.stamp)
      ensures x in sent.below
    {
      var i :| 0 <= i < |Buffer(c)| && Buffer(c)[i].stamp == x;
      assert c.queued[c.written + i].stamp == x;
    }
  }

  // ---------------------------------------------------------------------------------------
  // Every step keeps it
  // ---------------------------------------------------------------------------------------

  lemma ActKeepsStamped(maxQueued: nat, c: Connection, a: Action)
    requires Stamped(c)
    ensures Stamped(Act(maxQueued, c, a))
    ensures c.total <= Act(maxQueued, c, a).total && c.queued <= Act(maxQueued, c, a).queued
  {
    if a.Queue? {
      QueueKeepsStamped(maxQueued, c, a.id);
    } else if a.Count? {
      CountKeepsStamped(maxQueued, c, a.id);
    } else {
      OthersLeaveStamps(maxQueued, c, a);
      FewerInFlight(c, Act(maxQueued, c, a));
    }
  }

  lemma OthersLeaveStamps(maxQueued: nat, c: Connection, a: Action)
    requires Stamped(c) && !a.Queue? && !a.Count?
    ensures var after := Act(maxQueued, c, a);
            && after.total == c.total && after.queued == c.queued && after.written <= |c.queued|
            && (forall id :: id in after.senders ==> id < after.nextId)
            && (forall id :: id in after.senders && after.senders[id].stage.Counted? ==>
                  id in c.senders && c.senders[id].stage == after.senders[id].stage)
  {
    hide OfKind, Below, Stamps, InFlight, Cap, InBuffer, Buffer, Held, HasLeft;
  }

  lemma FewerInFlight(c: Connection, after: Connection)
    requires Stamped(c)
    requires after.total == c.total && after.queued == c.queued && after.written <= |c.queued|
    requires forall id :: id in after.senders ==> id < after.nextId
    requires forall id :: id in after.senders && after.senders[id].stage.Counted? ==>
               id in c.senders && c.senders[id].stage == after.senders[id].stage
    ensures Stamped(after)
  {
  }

  lemma CountKeepsStamped(maxQueued: nat, c: Connection, id: nat)
    requires Stamped(c)
    ensures var after := Act(maxQueued, c, Count(id));
            Stamped(after) && after.queued == c.queued && c.total <= after.total
  {
  }

  lemma QueueKeepsStamped(maxQueued: nat, c: Connection, id: nat)
    requires Stamped(c)
    ensures Stamped(Act(maxQueued, c, Queue(id))) && c.queued <= Act(maxQueued, c, Queue(id)).queued
  {
    hide Below, InFlight;
  }

  /** What one action may append to the queue and add to the messages in flight. */
  lemma ActEffect(maxQueued: nat, c: Connection, a: Action)
    ensures var after := Act(maxQueued, c, a);
            && (after.queued == c.queued
                || exists m :: after.queued == c.queued + [m] && m.stamp in InFlight(c))
            && InFlight(after) <= InFlight(c) + {c.total + 1}
  {
    hide OfKind, Below, Stamps, Cap;
  }

  lemma StillPlaced(c: Connection, after: Connection, id: nat, sent: Sent)
    requires Stamped(c) && Placed(c, id, sent)
    requires after.queued == c.queued || exists m :: after.queued == c.queued + [m] && m.stamp in InFlight(c)
    requires InFlight(after) <= InFlight(c) + {c.total + 1}
    ensures Placed(after, id, sent)
  {
    var q: nat :| PlacedAt(c, id, sent, q);
    assert sent.stamp !in InFlight(c);
    assert PlacedAt(after, id, sent, q);
  }

  lemma JustQueued(maxQueued: nat, c: Connection, id: nat)
    requires Stamped(c) && id in c.senders && c.senders[id].stage.Counted?
    ensures var after := Act(maxQueued, c, Queue(id));
            id in after.senders && after.senders[id].previous.Some? && Placed(after, id, after.senders[id].previous.value)
  {
    var after := Act(maxQueued, c, Queue(id));
    assert PlacedAt(after, id, after.senders[id].previous.value, |c.queued|);
  }

  /** Reading the buffer length. */
  lemma JustMeasured(maxQueued: nat, c: Connection, id: nat)
    requires Sound(c) && id in c.senders && c.senders[id].previous.Some?
    requires c.senders[id].kind.NewFlashblocks? && c.senders[id].stage.Idle?
    ensures var after := Act(maxQueued, c, Measure(id));
            id in after.senders && Weighed(after, after.senders[id])
  {
    hide Stamps, Below, InFlight, Buffer, Held;
    var sent := c.senders[id].previous.value;
    assert Placed(c, id, sent);
    if !InBuffer(c, sent.stamp) {
      BufferBound(c, sent.stamp);
      LeftMeansOvertaken(c, id, sent);
    }
  }

  /** What happens to one subscription in one action. */
  lemma SenderStep(maxQueued: nat, c: Connection, a: Action, id: nat)
    requires id in Act(maxQueued, c, a).senders
    ensures var after := Act(maxQueued, c, a).senders[id];
            || (a == Queue(id) && id in c.senders && c.senders[id].stage.Counted? && after.stage.Idle?)
            || after.previous.None?
            || (id in c.senders && after.previous == c.senders[id].previous)
    ensures var after := Act(maxQueued, c, a).senders[id];
            after.stage.Measured? ==>
              && id in c.senders && after.previous == c.senders[id].previous
              && (after == c.senders[id] || (a == Measure(id) && c.senders[id].previous.Some?
                                             && c.senders[id].kind.NewFlashblocks? && c.senders[id].stage.Idle?))
  {
    hide OfKind, Below, Stamps, Cap, InFlight, Buffer, Held, HasLeft;
  }

  lemma ActKeepsSound(maxQueued: nat, c: Connection, a: Action)
    requires Sound(c)
    ensures Sound(Act(maxQueued, c, a))
  {
    hide Act, InFlight, Placed;
    var after := Act(maxQueued, c, a);
    ActKeepsStamped(maxQueued, c, a);
    ActEffect(maxQueued, c, a);
    forall id | id in after.senders
      ensures after.senders[id].previous.Some? ==> Placed(after, id, after.senders[id].previous.value)
      ensures Weighed(after, after.senders[id])
    {
      SenderStep(maxQueued, c, a, id);
      if after.senders[id].previous.Some? {
        if a == Queue(id) && id in c.senders && c.senders[id].stage.Counted? {
          JustQueued(maxQueued, c, id);
        } else {
          StillPlaced(c, after, id, after.senders[id].previous.value);
        }
      }
      if after.senders[id].stage.Measured? && after.senders[id] != c.senders[id] {
        JustMeasured(maxQueued, c, id);
      }
    }
  }

  lemma {:induction false} RunIsSound(maxQueued: nat, acts: seq<Action>)
    ensures Sound(After(maxQueued, acts))
  {
    hide Sound, Act;
    if acts == [] {
      StartIsSound();
    } else {
      RunIsSound(maxQueued, acts[..|acts| - 1]);
      ActKeepsSound(maxQueued, After(maxQueued, acts[..|acts| - 1]), acts[|acts| - 1]);
    }
  }

  lemma StartIsSound()
    ensures Sound(START)
  {
  }

  // ---------------------------------------------------------------------------------------
  // The skip decision
  // ---------------------------------------------------------------------------------------

  /** In every interleaving: a `newFlashblocks` subscription whose previous message had left the
      buffer when it read the length has read at most the messages counted after that one, by the
      time it loads the count, and those counted before it but queued after it. With none of the
      latter in flight when its message was queued, it goes on to send: a message that has left
      is never judged still queued. */
  lemma LeftIsNeverHeldBack(maxQueued: nat, acts: seq<Action>, id: nat)
    requires var c := After(maxQueued, acts);
             id in c.senders && c.senders[id].stage.Measured? && c.senders[id].stage.left
    ensures var c := After(maxQueued, acts);
            var s, after := c.senders[id], Act(maxQueued, c, Judge(id));
            && s.previous.Some?
            && s.stage.held <= SaturatingSub(c.total, s.previous.value.stamp) + |s.stage.overtook|
            && s.stage.overtook <= s.previous.value.below
            && (s.previous.value.below == {} ==> id in after.senders && after.senders[id].stage.Ready?)
  {
    hide After;
    RunIsSound(maxQueued, acts);
    var c := After(maxQueued, acts);
    assert Weighed(c, c.senders[id]);
    if c.senders[id].previous.value.below == {} {
      assert c.senders[id].stage.overtook == {};
    }
  }

  // ---------------------------------------------------------------------------------------
  // A sole newFlashblocks subscription
  // ---------------------------------------------------------------------------------------

  predicate OnlyOpens(acts: seq<Action>, kind: SlotKind) {
    forall i :: 0 <= i < |acts| ==> acts[i].Open? ==> acts[i].kind == kind
  }

  /** It sends only into an empty buffer, and what it read only shrinks until it decides. */
  ghost predicate AloneWith(c: Connection, s: Sender) {
    && s.kind.NewFlashblocks?
    && c.total == |c.queued| + (if s.stage.Counted? then 1 else 0)
    && (s.previous.Some? <==> c.queued != [])
    && (s.previous.Some? ==> s.previous.value.stamp == |c.queued|)
    && (s.stage.Measured? ==> Held(c) <= s.stage.held)
    && (s.stage.Ready? || s.stage.Counted? ==> Held(c) == 0)
    && (s.stage.Counted? ==> s.stage.stamp == c.total)
  }

  ghost predicate Alone(c: Connection) {
    && c.written <= |c.queued| && Held(c) <= 1
    && (forall id :: id in c.senders ==> id < c.nextId)
    && (c.nextId == 0 ==> c.queued == [] && c.total == 0)
    && (forall id :: id in c.senders ==> AloneWith(c, c.senders[id]))
  }

  lemma ActKeepsAlone(maxQueued: nat, c: Connection, a: Action)
    requires Alone(c) && (a.Open? ==> a.kind.NewFlashblocks?)
    requires Act(maxQueued, c, a).nextId <= 1
    ensures Alone(Act(maxQueued, c, a))
  {
    hide OfKind, Below, Stamps, InFlight, Cap, InBuffer, Buffer;
  }

  /** A connection with one subscription, of the kind that skips: in every interleaving with the
      socket's writes, at most one of its messages is in the buffer. */
  lemma {:induction false} SoleSenderHoldsOne(maxQueued: nat, acts: seq<Action>)
    requires OnlyOpens(acts, NewFlashblocks) && After(maxQueued, acts).nextId <= 1
    ensures Alone(After(maxQueued, acts)) && Held(After(maxQueued, acts)) <= 1
  {
    hide Act;
    if acts != [] {
      var init, a := acts[..|acts| - 1], acts[|acts| - 1];
      assert forall i :: 0 <= i < |init| ==> init[i] == acts[i];
      OpensOnlyGrow(maxQueued, After(maxQueued, init), a);
      SoleSenderHoldsOne(maxQueued, init);
      ActKeepsAlone(maxQueued, After(maxQueued, init), a);
    }
  }

  lemma OpensOnlyGrow(maxQueued: nat, c: Connection, a: Action)
    ensures c.nextId <= Act(maxQueued, c, a).nextId
  {
  }

  // ---------------------------------------------------------------------------------------
  // The memory bound
  // ---------------------------------------------------------------------------------------

  /** Past the room check and not queued yet. */
  ghost function Admitted(c: Connection): set<nat> {
    set id | id in c.senders && (c.senders[id].stage.Ready? || c.senders[id].stage.Counted?)
  }

  /** Whoever passed the room check holds a place for its one message: buffered and admitted
      together never exceed the room plus the cap. */
  ghost predicate Bounded(maxQueued: nat, c: Connection) {
    && c.written <= |c.queued|
    && (forall id :: id in c.senders ==> c.senders[id].kind.PerItem? && !c.senders[id].stage.Measured? && id < c.nextId)
    && |c.senders| <= Cap(PerItem)
    && Held(c) + |Admitted(c)| <= maxQueued + Cap(PerItem)
  }

  lemma ActKeepsBounded(maxQueued: nat, c: Connection, a: Action)
    requires Bounded(maxQueued, c) && (a.Open? ==> a.kind.PerItem?)
    ensures Bounded(maxQueued, Act(maxQueued, c, a))
  {
    hide Cap, Act;
    var after := Act(maxQueued, c, a);
    StagesAfter(maxQueued, c, a);
    if a.Open? {
      OpenKeepsBounded(maxQueued, c);
    } else if a.Write? {
      WriteKeepsBounded(maxQueued, c);
    } else if a.id in c.senders {
      SendersAfter(maxQueued, c, a);
      AdmittedAfter(maxQueued, c, a);
      Subset(Admitted(after), after.senders.Keys);
    } else {
      assert after == c by { Absent(maxQueued, c, a); }
    }
  }

  lemma Absent(maxQueued: nat, c: Connection, a: Action)
    requires !a.Open? && !a.Write? && a.id !in c.senders
    ensures Act(maxQueued, c, a) == c
  {
  }

  lemma StagesAfter(maxQueued: nat, c: Connection, a: Action)
    requires Bounded(maxQueued, c) && (a.Open? ==> a.kind.PerItem?)
    ensures var after := Act(maxQueued, c, a);
            && after.written <= |after.queued|
            && forall id :: id in after.senders ==>
                 after.senders[id].kind.PerItem? && !after.senders[id].stage.Measured? && id < after.nextId
  {
    hide Below, Stamps, InFlight, Cap, InBuffer, Buffer, Admitted, OfKind, Held;
  }

  lemma OpenKeepsBounded(maxQueued: nat, c: Connection)
    requires Bounded(maxQueued, c)
    ensures var after := Act(maxQueued, c, Open(PerItem));
            |after.senders| <= Cap(PerItem) && Admitted(after) == Admitted(c) && Held(after) == Held(c)
  {
    hide Cap;
    assert OfKind(c, PerItem) == c.senders.Keys;
  }

  lemma WriteKeepsBounded(maxQueued: nat, c: Connection)
    ensures var after := Act(maxQueued, c, Write);
            after.senders == c.senders && Held(after) <= Held(c)
  {
  }

  lemma SendersAfter(maxQueued: nat, c: Connection, a: Action)
    requires !a.Open? && !a.Write? && a.id in c.senders
    ensures |Act(maxQueued, c, a).senders| <= |c.senders|
  {
    hide Below, Stamps, InFlight, InBuffer, Buffer;
    var after := Act(maxQueued, c, a);
    if a.Close? {
      assert after.senders.Keys == c.senders.Keys - {a.id};
    } else {
      assert after.senders.Keys == c.senders.Keys;
    }
  }

  lemma AdmittedAfter(maxQueued: nat, c: Connection, a: Action)
    requires Bounded(maxQueued, c) && !a.Open? && !a.Write? && a.id in c.senders
    ensures var after := Act(maxQueued, c, a);
            (Held(c) <= maxQueued && Held(after) == Held(c)) || Held(after) + |Admitted(after)| <= Held(c) + |Admitted(c)|
  {
    hide Below, Stamps, InFlight, InBuffer, Buffer, Cap;
    var after := Act(maxQueued, c, a);
    if a.Queue? && c.senders[a.id].stage.Counted? {
      assert Admitted(after) == Admitted(c) - {a.id};
      assert a.id in Admitted(c);
    } else if !a.FindRoom? {
      Subset(Admitted(after), Admitted(c));
    }
  }

  lemma Subset(a: set<nat>, b: set<nat>)
    requires a <= b
    ensures |a| <= |b|
  {
    assert b == a + (b - a);
    assert |b| == |a| + |b - a|;
  }

  /** A connection with only per-item subscriptions never buffers more than the room limit plus
      the per-item cap, in any interleaving of opens, closes, room checks, sends and writes. */
  lemma {:induction false} PerItemBufferIsBounded(maxQueued: nat, acts: seq<Action>)
    requires OnlyOpens(acts, PerItem)
    ensures Bounded(maxQueued, After(maxQueued, acts))
    ensures |After(maxQueued, acts).queued| <= After(maxQueued, acts).written + maxQueued + 32
  {
    hide Act;
    if acts == [] {
      assert Admitted(START) == {};
    } else {
      var init, a := acts[..|acts| - 1], acts[|acts| - 1];
      assert forall i :: 0 <= i < |init| ==> init[i] == acts[i];
      PerItemBufferIsBounded(maxQueued, init);
      ActKeepsBounded(maxQueued, After(maxQueued, init), a);
    }
  }
}
