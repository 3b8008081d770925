/** eth.rs, `eth_getLogs` up to `pending`: the historical answer, then the pending logs it does
    not have yet. */
module Logs {
  import opened Types
  import opened PendingBlocks
  import opened Story

  datatype Tag = Number(n: nat) | Latest | Pending | Other

  datatype BlockOption =
    | Range(from: Option<Tag>, to: Option<Tag>)
    | AtBlockHash(blockHash: Word)

  /** `matches` looks at the log alone. */
  datatype Filter = Filter(block: BlockOption, matches: LogData -> bool)

  /** The node's own `eth_getLogs`, which is foreign. */
  type Historical = Filter -> Result<seq<RpcLog>, Error>

  type Key = (nat, nat)

  function KeyOf(log: RpcLog): Key {
    (log.blockNumber, log.logIndex)
  }

  ghost predicate UniqueKeys(logs: seq<RpcLog>) {
    forall i, j :: 0 <= i < j < |logs| ==> KeyOf(logs[i]) != KeyOf(logs[j])
  }

  // ---------------------------------------------------------------------------------------
  // Selecting logs, in order
  // ---------------------------------------------------------------------------------------

  /** The logs a test accepts. */
  function Select(logs: seq<RpcLog>, test: RpcLog -> bool): seq<RpcLog> {
    if logs == [] then []
    else
      var rest, last := Select(logs[..|logs| - 1], test), logs[|logs| - 1];
      if test(last) then rest + [last] else rest
  }

  /** An accepted log sits after exactly the accepted ones before it. */
  lemma {:induction false} SelectKeepsOrder(logs: seq<RpcLog>, test: RpcLog -> bool, i: nat)
    requires i < |logs|
    ensures var r, p := Select(logs, test), |Select(logs[..i], test)|;
            && p + (if test(logs[i]) then 1 else 0) <= |r|
            && (test(logs[i]) ==> p < |r| && r[p] == logs[i])
  {
    var init := logs[..|logs| - 1];
    if i < |init| {
      SelectKeepsOrder(init, test, i);
      assert init[..i] == logs[..i] && init[i] == logs[i];
    }
  }

  /** Selecting keeps order: of two accepted logs, the earlier stays earlier. */
  lemma SelectInOrder(logs: seq<RpcLog>, test: RpcLog -> bool, i: nat, j: nat) returns (p: nat, q: nat)
    requires i < j < |logs| && test(logs[i]) && test(logs[j])
    ensures p < q < |Select(logs, test)|
    ensures Select(logs, test)[p] == logs[i] && Select(logs, test)[q] == logs[j]
  {
    hide Select;
    p, q := |Select(logs[..i], test)|, |Select(logs[..j], test)|;
    SelectKeepsOrder(logs, test, i);
    SelectKeepsOrder(logs, test, j);
    assert logs[..j][..i] == logs[..i] && logs[..j][i] == logs[i];
    SelectKeepsOrder(logs[..j], test, i);
  }

  lemma {:induction false} SelectMembers(logs: seq<RpcLog>, test: RpcLog -> bool)
    ensures forall l :: l in Select(logs, test) <==> l in logs && test(l)
  {
    if logs != [] {
      SelectMembers(logs[..|logs| - 1], test);
      assert logs == logs[..|logs| - 1] + [logs[|logs| - 1]];
    }
  }

  lemma {:induction false} SelectKeepsUnique(logs: seq<RpcLog>, test: RpcLog -> bool)
    requires UniqueKeys(logs)
    ensures UniqueKeys(Select(logs, test))
  {
    if logs != [] {
      var init, last := logs[..|logs| - 1], logs[|logs| - 1];
      assert forall i :: 0 <= i < |init| ==> init[i] == logs[i];
      SelectKeepsUnique(init, test);
      SelectMembers(init, test);
      var rest := Select(init, test);
      forall i | 0 <= i < |rest|
        ensures KeyOf(rest[i]) != KeyOf(last)
      {
        assert rest[i] in init;
      }
    }
  }

  // ---------------------------------------------------------------------------------------
  // A snapshot's logs
  // ---------------------------------------------------------------------------------------

  function AllLogs(s: Snapshot): seq<RpcLog> {
    LogsOf(s.receipts, s.transactions)
  }

  function InBlock(n: nat): RpcLog -> bool {
    (l: RpcLog) => l.blockNumber == n
  }

  /** Every listed receipt's logs are numbered with their transaction's block. */
  ghost predicate LogsFiled(receipts: map<Hash, RpcReceipt>, txs: seq<RpcTx>) {
    forall t, l :: t in txs && t.tx.hash in receipts && l in receipts[t.tx.hash].logs ==> l.blockNumber == t.blockNumber
  }

  lemma {:induction false} SelectAppend(a: seq<RpcLog>, b: seq<RpcLog>, test: RpcLog -> bool)
    ensures Select(a + b, test) == Select(a, test) + Select(b, test)
  {
    if b == [] {
      assert a + b == a;
    } else {
      var init := b[..|b| - 1];
      assert (a + b)[..|a + b| - 1] == a + init;
      SelectAppend(a, init, test);
    }
  }

  lemma {:induction false} SelectAll(logs: seq<RpcLog>, test: RpcLog -> bool, keep: bool)
    requires forall l :: l in logs ==> test(l) == keep
    ensures Select(logs, test) == if keep then logs else []
  {
    if logs != [] {
      var init := logs[..|logs| - 1];
      assert forall l :: l in init ==> l in logs;
      SelectAll(init, test, keep);
      assert logs == init + [logs[|logs| - 1]];
    }
  }

  /** The logs of one block are the logs of its transactions. */
  lemma {:induction false} LogsByBlock(receipts: map<Hash, RpcReceipt>, txs: seq<RpcTx>, n: nat)
    requires LogsFiled(receipts, txs)
    ensures Select(LogsOf(receipts, txs), InBlock(n)) == LogsOf(receipts, OfNumber(txs, n))
  {
    hide Select;
    if txs == [] {
      SelectAll([], InBlock(n), true);
    } else {
      var init, t := txs[..|txs| - 1], txs[|txs| - 1];
      assert forall x :: x in init ==> x in txs;
      LogsByBlock(receipts, init, n);
      var own := if t.tx.hash in receipts then receipts[t.tx.hash].logs else [];
      SelectAppend(LogsOf(receipts, init), own, InBlock(n));
      SelectAll(own, InBlock(n), t.blockNumber == n);
      if t.blockNumber == n {
        assert (OfNumber(init, n) + [t])[..|OfNumber(init, n)|] == OfNumber(init, n);
      }
    }
  }

  lemma {:induction false} LogsOfMember(receipts: map<Hash, RpcReceipt>, txs: seq<RpcTx>, t: RpcTx, l: RpcLog)
    requires t in txs && t.tx.hash in receipts && l in receipts[t.tx.hash].logs
    ensures l in LogsOf(receipts, txs)
  {
    if t != txs[|txs| - 1] {
      LogsOfMember(receipts, txs[..|txs| - 1], t, l);
    }
  }

  lemma StoryFilesLogs(s: Snapshot)
    requires OneStory(s)
    ensures LogsFiled(s.receipts, s.transactions)
  {
    hide Indexed;
    forall t, l | t in s.transactions && t.tx.hash in s.receipts && l in s.receipts[t.tx.hash].logs
      ensures l.blockNumber == t.blockNumber
    {
      var n := t.blockNumber;
      OfNumberMembers(s.transactions, n);
      assert TellsOneStory(s.receipts, TransactionsForBlock(s, n), n);
      LogsOfMember(s.receipts, OfNumber(s.transactions, n), t, l);
    }
  }

  /** In a snapshot that tells one story, each log's index counts the logs of its block before it,
      across all transactions; so no two logs share block and index. */
  lemma LogIndexCounts(s: Snapshot)
    requires OneStory(s)
    ensures var logs := AllLogs(s);
            && (forall i :: 0 <= i < |logs| ==> logs[i].logIndex == |Select(logs[..i], InBlock(logs[i].blockNumber))|)
            && UniqueKeys(logs)
  {
    hide Indexed, LogsOf, Select;
    var logs := AllLogs(s);
    StoryFilesLogs(s);
    forall i | 0 <= i < |logs|
      ensures logs[i].logIndex == |Select(logs[..i], InBlock(logs[i].blockNumber))|
    {
      var n := logs[i].blockNumber;
      LogsByBlock(s.receipts, s.transactions, n);
      assert TellsOneStory(s.receipts, TransactionsForBlock(s, n), n);
      SelectKeepsOrder(logs, InBlock(n), i);
    }
    forall i, j | 0 <= i < j < |logs|
      ensures KeyOf(logs[i]) != KeyOf(logs[j])
    {
      if logs[i].blockNumber == logs[j].blockNumber {
        var n := logs[i].blockNumber;
        SelectKeepsOrder(logs[..j], InBlock(n), i);
        assert logs[..j][..i] == logs[..i];
      }
    }
  }

  // ---------------------------------------------------------------------------------------
  // The getter
  // ---------------------------------------------------------------------------------------

  function Matching(f: Filter): RpcLog -> bool {
    (l: RpcLog) => f.matches(l.data)
  }

  method GetPendingLogs(s: Snapshot, f: Filter) returns (logs: seq<RpcLog>)
    ensures logs == Select(AllLogs(s), Matching(f))
  {
    hide Select;
    logs := [];
    SelectAll([], Matching(f), true);
    for i := 0 to |s.transactions|
      invariant logs == Select(LogsOf(s.receipts, s.transactions[..i]), Matching(f))
    {
      ghost var before := LogsOf(s.receipts, s.transactions[..i]);
      assert s.transactions[..i + 1][..i] == s.transactions[..i];
      var hash := s.transactions[i].tx.hash;
      if hash in s.receipts {
        SelectAppend(before, s.receipts[hash].logs, Matching(f));
        var matching := MatchingLogs(s.receipts[hash].logs, f);
        logs := logs + matching;
      } else {
        assert before + [] == before;
      }
    }
    assert s.transactions[..|s.transactions|] == s.transactions;
  }

  method MatchingLogs(own: seq<RpcLog>, f: Filter) returns (matching: seq<RpcLog>)
    ensures matching == Select(own, Matching(f))
  {
    matching := [];
    for j := 0 to |own|
      invariant matching == Select(own[..j], Matching(f))
    {
      assert own[..j + 1][..j] == own[..j];
      if f.matches(own[j].data) {
        matching := matching + [own[j]];
      }
    }
    assert own[..|own|] == own;
  }

  // ---------------------------------------------------------------------------------------
  // Merging
  // ---------------------------------------------------------------------------------------

  function Keys(logs: seq<RpcLog>): set<Key> {
    set l | l in logs :: KeyOf(l)
  }

  function Unfetched(fetched: set<Key>): RpcLog -> bool {
    (l: RpcLog) => KeyOf(l) !in fetched
  }

  /** The historical answer and the pending logs whose key it lacks. */
  function Merge(historical: seq<RpcLog>, pending: seq<RpcLog>): seq<RpcLog> {
    historical + Select(pending, Unfetched(Keys(historical)))
  }

  /** The range a query up to `pending` asks the node for. */
  function UpToLatest(f: Filter): Filter
    requires f.block.Range?
  {
    f.(block := Range(f.block.from, Some(Latest)))
  }

  /** The whole query. Only a range that ends at `pending`, with something pending, is answered
      here; everything else is the node's own answer to the same filter. The node is asked for the
      same logs, from the same block on, up to the latest one. */
  method GetLogs(node: Historical, published: Option<Snapshot>, f: Filter) returns (r: Result<seq<RpcLog>, Error>)
    ensures f.block.AtBlockHash? || f.block.to != Some(Pending) || published.None? ==> r == node(f)
    ensures f.block.Range? && f.block.to == Some(Pending) && published.Some? ==>
              var pending := Select(AllLogs(published.value), Matching(f));
              var upToLatest := node(Filter(Range(f.block.from, Some(Latest)), f.matches));
              if f.block.from == Some(Pending) then r == Ok(pending)
              else if upToLatest.Err? then r == upToLatest
              else r == Ok(Merge(upToLatest.value, pending))
  {
    if f.block.AtBlockHash? || f.block.to != Some(Pending) || published.None? {
      return node(f);
    }
    hide Select;
    var all: seq<RpcLog> := [];
    var fetched: set<Key> := {};
    if f.block.from != Some(Pending) {
      var historical := node(UpToLatest(f));
      if historical.Err? {
        return historical;
      }
      fetched := KeysOf(historical.value);
      all := historical.value;
    }
    var pending := GetPendingLogs(published.value, f);
    var added := Dedup(pending, fetched);
    if f.block.from == Some(Pending) {
      SelectAll(pending, Unfetched(fetched), true);
      assert all + added == added;
    }
    r := Ok(all + added);
  }

  method KeysOf(logs: seq<RpcLog>) returns (fetched: set<Key>)
    ensures fetched == Keys(logs)
  {
    fetched := {};
    for i := 0 to |logs|
      invariant fetched == Keys(logs[..i])
    {
      fetched := fetched + {KeyOf(logs[i])};
    }
    assert logs[..|logs|] == logs;
  }

  method Dedup(pending: seq<RpcLog>, fetched: set<Key>) returns (added: seq<RpcLog>)
    ensures added == Select(pending, Unfetched(fetched))
  {
    added := [];
    for i := 0 to |pending|
      invariant added == Select(pending[..i], Unfetched(fetched))
    {
      assert pending[..i + 1][..i] == pending[..i];
      if KeyOf(pending[i]) !in fetched {
        added := added + [pending[i]];
      }
    }
    assert pending[..|pending|] == pending;
  }

  /** What merging promises, when the historical answer repeats no key and the snapshot tells one
      story: no key twice; all of the historical answer first, as it was; and the matching pending
      logs with a new key, exactly, in their order. */
  lemma MergedAnswer(historical: seq<RpcLog>, s: Snapshot, f: Filter)
    requires UniqueKeys(historical) && OneStory(s)
    ensures var pending := Select(AllLogs(s), Matching(f));
            var merged := Merge(historical, pending);
            && UniqueKeys(merged)
            && historical <= merged
            && (forall l :: l in merged <==>
                  l in historical || (l in AllLogs(s) && f.matches(l.data) && KeyOf(l) !in Keys(historical)))
    ensures var logs := AllLogs(s);
            var merged := Merge(historical, Select(logs, Matching(f)));
            forall i, j :: 0 <= i < j < |logs| && IsAdded(historical, f, logs[i]) && IsAdded(historical, f, logs[j]) ==>
              exists p, q :: |historical| <= p < q < |merged| && merged[p] == logs[i] && merged[q] == logs[j]
  {
    hide OneStory, LogsOf, Select;
    var logs := AllLogs(s);
    var pending := Select(logs, Matching(f));
    var test := Unfetched(Keys(historical));
    var added := Select(pending, test);
    LogIndexCounts(s);
    SelectKeepsUnique(logs, Matching(f));
    SelectKeepsUnique(pending, test);
    SelectMembers(logs, Matching(f));
    SelectMembers(pending, test);
    MergedUnique(historical, added);
    forall i, j | 0 <= i < j < |logs| && IsAdded(historical, f, logs[i]) && IsAdded(historical, f, logs[j])
      ensures var merged := historical + added;
              exists p, q :: |historical| <= p < q < |merged| && merged[p] == logs[i] && merged[q] == logs[j]
    {
      var a, b := SelectInOrder(logs, Matching(f), i, j);
      var p, q := SelectInOrder(pending, test, a, b);
      var merged := historical + added;
      assert merged[|historical| + p] == logs[i] && merged[|historical| + q] == logs[j];
    }
  }

  ghost predicate IsAdded(historical: seq<RpcLog>, f: Filter, l: RpcLog) {
    f.matches(l.data) && KeyOf(l) !in Keys(historical)
  }

  lemma MergedUnique(historical: seq<RpcLog>, added: seq<RpcLog>)
    requires UniqueKeys(historical) && UniqueKeys(added)
    requires forall l :: l in added ==> KeyOf(l) !in Keys(historical)
    ensures UniqueKeys(historical + added)
  {
    var merged := historical + added;
    forall i, j | 0 <= i < j < |merged|
      ensures KeyOf(merged[i]) != KeyOf(merged[j])
    {
      if i < |historical| <= j {
        assert merged[i] in historical && merged[j] in added;
      }
    }
  }
}
