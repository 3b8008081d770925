/** pending_provider.rs: the two-layer reads, and as their specification a world in which every
    change has been applied in full. */
module Overlay {
  import opened Types

  datatype Info = Info(balance: Word, nonce: nat, codeHash: Hash)

  /** A fully materialised state: every account, every slot (zero when unset), every code. */
  datatype World = World(
    account: Address -> Option<Info>,
    slot: (Address, Word) -> Word,
    code: Hash -> Option<Bytes>)

  datatype BundleAccount = BundleAccount(info: Option<Info>, storage: map<Word, Word>, destroyed: bool)

  /** What executed blocks changed relative to the anchor. */
  datatype Bundle = Bundle(accounts: map<Address, BundleAccount>, contracts: map<Hash, Bytes>)

  const EMPTY_BUNDLE := Bundle(map[], map[])

  /** One account's part of a transaction's state changes. */
  datatype AccountDelta =
    | Changed(info: Info, storage: map<Word, Word>)
    | Created(info: Info, storage: map<Word, Word>)
    | Destroyed

  datatype Delta = Delta(accounts: map<Address, AccountDelta>, code: map<Hash, Bytes>)

  // ---------------------------------------------------------------------------------------
  // Layered reads
  // ---------------------------------------------------------------------------------------

  function BasicAccount(anchor: World, bundle: Bundle, a: Address): Option<Info> {
    if a in bundle.accounts then bundle.accounts[a].info else anchor.account(a)
  }

  function Storage(anchor: World, bundle: Bundle, a: Address, key: Word): Word {
    if a in bundle.accounts && key in bundle.accounts[a].storage then
      bundle.accounts[a].storage[key]
    else if a in bundle.accounts && bundle.accounts[a].destroyed then
      0
    else
      anchor.slot(a, key)
  }

  function BytecodeByHash(anchor: World, bundle: Bundle, h: Hash): Option<Bytes> {
    if h in bundle.contracts then Some(bundle.contracts[h]) else anchor.code(h)
  }

  // ---------------------------------------------------------------------------------------
  // Committing a transaction's changes, to the bundle and to a materialised state
  // ---------------------------------------------------------------------------------------

  function MergeAccount(prev: Option<BundleAccount>, d: AccountDelta): BundleAccount {
    var storage := if prev.Some? then prev.value.storage else map[];
    var destroyed := prev.Some? && prev.value.destroyed;
    match d
    case Changed(info, written) => BundleAccount(Some(info), storage + written, destroyed)
    case Created(info, written) => BundleAccount(Some(info), storage + written, destroyed)
    case Destroyed => BundleAccount(None, map[], true)
  }

  function Entry(bundle: Bundle, a: Address): Option<BundleAccount> {
    if a in bundle.accounts then Some(bundle.accounts[a]) else None
  }

  function Commit(bundle: Bundle, d: Delta): Bundle {
    Bundle(
      map a | a in bundle.accounts.Keys + d.accounts.Keys ::
        if a in d.accounts then MergeAccount(Entry(bundle, a), d.accounts[a]) else bundle.accounts[a],
      bundle.contracts + d.code)
  }

  function SlotAfter(w: World, d: Delta, a: Address, key: Word): Word {
    if a !in d.accounts then w.slot(a, key)
    else if d.accounts[a].Destroyed? then 0
    else if key in d.accounts[a].storage then d.accounts[a].storage[key]
    else if d.accounts[a].Created? then 0
    else w.slot(a, key)
  }

  /** The EVM's own meaning of a change: creation starts from empty storage, destruction leaves
      nothing behind. */
  function Apply(w: World, d: Delta): World {
    World(
      (a: Address) => if a !in d.accounts then w.account(a)
           else if d.accounts[a].Destroyed? then None
           else Some(d.accounts[a].info),
      (a: Address, key: Word) => SlotAfter(w, d, a, key),
      (h: Hash) => if h in d.code then Some(d.code[h]) else w.code(h))
  }

  function CommitAll(bundle: Bundle, ds: seq<Delta>): Bundle {
    if ds == [] then bundle else Commit(CommitAll(bundle, ds[..|ds| - 1]), ds[|ds| - 1])
  }

  function ApplyAll(w: World, ds: seq<Delta>): World {
    if ds == [] then w else Apply(ApplyAll(w, ds[..|ds| - 1]), ds[|ds| - 1])
  }

  // ---------------------------------------------------------------------------------------
  // The overlay refines the materialised state
  // ---------------------------------------------------------------------------------------

  ghost predicate Agrees(anchor: World, bundle: Bundle, w: World) {
    && (forall a :: BasicAccount(anchor, bundle, a) == w.account(a))
    && (forall a, key :: Storage(anchor, bundle, a, key) == w.slot(a, key))
    && (forall h :: BytecodeByHash(anchor, bundle, h) == w.code(h))
  }

  /** No account is created over a slot that still holds a value: the collision rule of
      EIP-7610, which the overlay relies on because a creation clears nothing in the bundle. */
  ghost predicate CleanCreations(w: World, d: Delta) {
    forall a, key :: a in d.accounts && d.accounts[a].Created? && key !in d.accounts[a].storage
                     ==> w.slot(a, key) == 0
  }

  lemma CommitReads(anchor: World, bundle: Bundle, d: Delta, w: World)
    requires Agrees(anchor, bundle, w)
    ensures forall a :: BasicAccount(anchor, Commit(bundle, d), a) == Apply(w, d).account(a)
    ensures forall h :: BytecodeByHash(anchor, Commit(bundle, d), h) == Apply(w, d).code(h)
  {
  }

  lemma CommitSlot(anchor: World, bundle: Bundle, d: Delta, w: World, a: Address, key: Word)
    requires Agrees(anchor, bundle, w)
    ensures Storage(anchor, Commit(bundle, d), a, key) ==
            if a in d.accounts && d.accounts[a].Created? && key !in d.accounts[a].storage
            then w.slot(a, key) else Apply(w, d).slot(a, key)
  {
    assert Storage(anchor, bundle, a, key) == w.slot(a, key);
  }

  /** One commit keeps the layered reads exact precisely when its creations are clean. */
  lemma CommitAgrees(anchor: World, bundle: Bundle, d: Delta, w: World)
    requires Agrees(anchor, bundle, w)
    ensures Agrees(anchor, Commit(bundle, d), Apply(w, d)) <==> CleanCreations(w, d)
  {
    CommitReads(anchor, bundle, d, w);
    forall a, key
      ensures Storage(anchor, Commit(bundle, d), a, key) ==
              if a in d.accounts && d.accounts[a].Created? && key !in d.accounts[a].storage
              then w.slot(a, key) else Apply(w, d).slot(a, key)
    {
      CommitSlot(anchor, bundle, d, w, a, key);
    }
    if Agrees(anchor, Commit(bundle, d), Apply(w, d)) {
      forall a, key | a in d.accounts && d.accounts[a].Created? && key !in d.accounts[a].storage
        ensures w.slot(a, key) == 0
      {
        assert Storage(anchor, Commit(bundle, d), a, key) == Apply(w, d).slot(a, key);
      }
    }
  }

  /** The layered reads are exact after each of the deltas, and before the first. */
  ghost predicate AgreesThroughout(anchor: World, ds: seq<Delta>) {
    && Agrees(anchor, CommitAll(EMPTY_BUNDLE, ds), ApplyAll(anchor, ds))
    && (ds != [] ==> AgreesThroughout(anchor, ds[..|ds| - 1]))
  }

  /** Every delta's creations were clean in the state it was committed to. */
  ghost predicate CleanThroughout(anchor: World, ds: seq<Delta>) {
    ds != [] ==>
      && CleanThroughout(anchor, ds[..|ds| - 1])
      && CleanCreations(ApplyAll(anchor, ds[..|ds| - 1]), ds[|ds| - 1])
  }

  /** Over any sequence of changes, creations, destructions and re-creations: every intermediate
      overlay reads as the materialised state exactly when every creation was clean. */
  lemma {:induction false} OverlayRefines(anchor: World, ds: seq<Delta>)
    ensures AgreesThroughout(anchor, ds) <==> CleanThroughout(anchor, ds)
  {
    if ds != [] {
      var init := ds[..|ds| - 1];
      OverlayRefines(anchor, init);
      if AgreesThroughout(anchor, init) {
        assert Agrees(anchor, CommitAll(EMPTY_BUNDLE, init), ApplyAll(anchor, init));
        CommitAgrees(anchor, CommitAll(EMPTY_BUNDLE, init), ds[|ds| - 1], ApplyAll(anchor, init));
      }
    }
  }

  /** The state a reader of `pending` sees, whenever no creation overwrites live storage. */
  lemma OverlayReadsMaterialised(anchor: World, ds: seq<Delta>, a: Address, key: Word, h: Hash)
    requires CleanThroughout(anchor, ds)
    ensures BasicAccount(anchor, CommitAll(EMPTY_BUNDLE, ds), a) == ApplyAll(anchor, ds).account(a)
    ensures Storage(anchor, CommitAll(EMPTY_BUNDLE, ds), a, key) == ApplyAll(anchor, ds).slot(a, key)
    ensures BytecodeByHash(anchor, CommitAll(EMPTY_BUNDLE, ds), h) == ApplyAll(anchor, ds).code(h)
  {
    OverlayRefines(anchor, ds);
  }

  /** A creation over a live anchor slot is the failing family: the overlay still shows the slot. */
  lemma DirtyCreationShows(anchor: World, a: Address, key: Word, info: Info)
    requires anchor.slot(a, key) != 0
    ensures var d := Delta(map[a := Created(info, map[])], map[]);
            Storage(anchor, CommitAll(EMPTY_BUNDLE, [d]), a, key) != ApplyAll(anchor, [d]).slot(a, key)
  {
    var d := Delta(map[a := Created(info, map[])], map[]);
    assert [d][..0] == [];
    assert CommitAll(EMPTY_BUNDLE, [d]) == Commit(EMPTY_BUNDLE, d);
    assert ApplyAll(anchor, [d]) == Apply(anchor, d);
  }
}
