/**
  The Badger-backed file store: two logical maps, blocks by CID and index values by string, kept in
  one flat key space under two prefixes. Badger is a map from byte strings to byte strings; a write
  batch applies its entries in order, and one that fails may have applied some of the first.
 */
module FileStore {
  import opened GoErrors

  newtype Byte = x: int | 0 <= x < 0x100

  /** Go strings and byte slices. */
  type Bytes = seq<Byte>

  /** A content identifier, represented by the string it prints as. */
  datatype Cid = Cid(text: Bytes)

  datatype Block = Block(cid: Cid, data: Bytes)

  type Db = map<Bytes, Bytes>

  // "f:b:" and "f:i:"
  const BLOCK_KEY_PREFIX: Bytes := [0x66, 0x3a, 0x62, 0x3a]
  const INDEX_KEY_PREFIX: Bytes := [0x66, 0x3a, 0x69, 0x3a]

  function BlockKey(c: Cid): Bytes {
    BLOCK_KEY_PREFIX + c.text
  }

  function IndexKey(key: Bytes): Bytes {
    INDEX_KEY_PREFIX + key
  }

  predicate IsBlockKey(k: Bytes) {
    BLOCK_KEY_PREFIX <= k
  }

  predicate IsIndexKey(k: Bytes) {
    INDEX_KEY_PREFIX <= k
  }

  /** The two encodings are injective and never meet. */
  lemma KeysAreSeparate(a: Cid, b: Cid, x: Bytes, y: Bytes)
    ensures BlockKey(a) == BlockKey(b) <==> a == b
    ensures IndexKey(x) == IndexKey(y) <==> x == y
    ensures BlockKey(a) != IndexKey(x)
    ensures BlockKey(a)[..4] == [0x66, 0x3a, 0x62, 0x3a] && IndexKey(x)[..4] == [0x66, 0x3a, 0x69, 0x3a]
    ensures IsBlockKey(BlockKey(a)) && !IsBlockKey(IndexKey(x)) && IsIndexKey(IndexKey(x)) && !IsIndexKey(BlockKey(a))
  {
    assert BlockKey(a)[4..] == a.text && BlockKey(b)[4..] == b.text;
    assert IndexKey(x)[4..] == x && IndexKey(y)[4..] == y;
    assert BlockKey(a)[2] == 0x62 && IndexKey(x)[2] == 0x69;
  }

  // ---------------------------------------------------------------- the two maps

  /** The state a caller sees. */
  datatype View = View(blocks: map<Cid, Bytes>, index: map<Bytes, Bytes>)

  function Blocks(db: Db): map<Cid, Bytes> {
    var cids := set k | k in db && IsBlockKey(k) :: Cid(k[4..]);
    map c | c in cids && BlockKey(c) in db :: db[BlockKey(c)]
  }

  function Indexes(db: Db): map<Bytes, Bytes> {
    var keys := set k | k in db && IsIndexKey(k) :: k[4..];
    map x | x in keys && IndexKey(x) in db :: db[IndexKey(x)]
  }

  function ViewOf(db: Db): View {
    View(Blocks(db), Indexes(db))
  }

  function Lookup<K, V>(m: map<K, V>, k: K): Option<V> {
    if k in m then Some(m[k]) else None
  }

  lemma MapsAgree<K(!new), V>(a: map<K, V>, b: map<K, V>)
    requires forall k :: Lookup(a, k) == Lookup(b, k)
    ensures a == b
  {
    forall k ensures k in a <==> k in b ensures k in a ==> a[k] == b[k] {
      assert Lookup(a, k) == Lookup(b, k);
    }
  }

  lemma BlockLookup(db: Db, c: Cid)
    ensures Lookup(Blocks(db), c) == Lookup(db, BlockKey(c))
  {
    if BlockKey(c) in db {
      assert BlockKey(c)[4..] == c.text;
    }
  }

  lemma IndexLookup(db: Db, x: Bytes)
    ensures Lookup(Indexes(db), x) == Lookup(db, IndexKey(x))
  {
    if IndexKey(x) in db {
      assert IndexKey(x)[4..] == x;
    }
  }

  // ---------------------------------------------------------------- write batches

  datatype Entry = Set(key: Bytes, value: Bytes) | Remove(key: Bytes)

  function ApplyEntry(db: Db, e: Entry): Db {
    match e
    case Set(key, value) => db[key := value]
    case Remove(key) => db - {key}
  }

  function Flush(db: Db, entries: seq<Entry>): Db {
    if entries == [] then db
    else ApplyEntry(Flush(db, entries[..|entries| - 1]), entries[|entries| - 1])
  }

  function AddEntries(bs: seq<Block>): seq<Entry> {
    seq(|bs|, i requires 0 <= i < |bs| => Set(BlockKey(bs[i].cid), bs[i].data))
  }

  function DeleteEntries(cs: seq<Cid>): seq<Entry> {
    seq(|cs|, i requires 0 <= i < |cs| => Remove(BlockKey(cs[i])))
  }

  // ---------------------------------------------------------------- operations, flat and logical

  datatype Op =
    | Add(blocks: seq<Block>)
    | Delete(cid: Cid)
    | DeleteMany(cids: seq<Cid>)
    | IndexPut(key: Bytes, value: Bytes)
    | IndexDelete(key: Bytes)

  function FlatStep(db: Db, op: Op): Db {
    match op
    case Add(bs) => Flush(db, AddEntries(bs))
    case Delete(c) => ApplyEntry(db, Remove(BlockKey(c)))
    case DeleteMany(cs) => Flush(db, DeleteEntries(cs))
    case IndexPut(key, value) => ApplyEntry(db, Set(IndexKey(key), value))
    case IndexDelete(key) => ApplyEntry(db, Remove(IndexKey(key)))
  }

  /** The data of the last block with this CID, if there is one. */
  function LastOf(bs: seq<Block>, c: Cid): Option<Bytes> {
    if bs == [] then None
    else if bs[|bs| - 1].cid == c then Some(bs[|bs| - 1].data)
    else LastOf(bs[..|bs| - 1], c)
  }

  /** Whether the logical step from v to w is what `op` promises: for every CID and index key, what it
      maps to afterwards. */
  ghost predicate LogicalStep(v: View, op: Op, w: View) {
    match op
    case Add(bs) =>
      && w.index == v.index
      && forall c :: Lookup(w.blocks, c) == if LastOf(bs, c).Some? then LastOf(bs, c) else Lookup(v.blocks, c)
    case Delete(d) =>
      w.index == v.index && forall c :: Lookup(w.blocks, c) == if c == d then None else Lookup(v.blocks, c)
    case DeleteMany(cs) =>
      w.index == v.index && forall c :: Lookup(w.blocks, c) == if c in cs then None else Lookup(v.blocks, c)
    case IndexPut(key, value) => w == v.(index := v.index[key := value])
    case IndexDelete(key) => w == v.(index := v.index - {key})
  }

  function FlatRun(db: Db, ops: seq<Op>): Db
    decreases |ops|
  {
    if ops == [] then db else FlatRun(FlatStep(db, ops[0]), ops[1..])
  }

  /** The views along a run of the two logical maps. */
  ghost predicate LogicalRun(views: seq<View>, ops: seq<Op>) {
    |views| == |ops| + 1 && forall i | 0 <= i < |ops| :: LogicalStep(views[i], ops[i], views[i + 1])
  }

  // ---------------------------------------------------------------- refinement

  function EntryValue(e: Entry): Option<Bytes> {
    if e.Set? then Some(e.value) else None
  }

  lemma EntryLookup(db: Db, e: Entry, k: Bytes)
    ensures Lookup(ApplyEntry(db, e), k) == if k == e.key then EntryValue(e) else Lookup(db, k)
  {
  }

  /** v is what a caller sees of db. */
  ghost predicate Shows(db: Db, v: View) {
    && (forall c :: Lookup(v.blocks, c) == Lookup(db, BlockKey(c)))
    && (forall x :: Lookup(v.index, x) == Lookup(db, IndexKey(x)))
  }

  lemma ViewShows(db: Db)
    ensures Shows(db, ViewOf(db))
  {
    forall c ensures Lookup(ViewOf(db).blocks, c) == Lookup(db, BlockKey(c)) {
      BlockLookup(db, c);
    }
    forall x ensures Lookup(ViewOf(db).index, x) == Lookup(db, IndexKey(x)) {
      IndexLookup(db, x);
    }
  }

  /** Entries under the block prefix leave index keys alone. */
  lemma {:induction false} BlockBatchKeepsIndex(db: Db, entries: seq<Entry>, x: Bytes)
    requires forall k | 0 <= k < |entries| :: IsBlockKey(entries[k].key)
    ensures Lookup(Flush(db, entries), IndexKey(x)) == Lookup(db, IndexKey(x))
  {
    if entries == [] {
    } else {
      var last := |entries| - 1;
      BlockBatchKeepsIndex(db, entries[..last], x);
      EntryLookup(Flush(db, entries[..last]), entries[last], IndexKey(x));
      KeysAreSeparate(Cid([]), Cid([]), x, x);
    }
  }

  /** Last write wins, duplicates included. */
  lemma {:induction false} AddedBlocks(db: Db, bs: seq<Block>, c: Cid)
    ensures Lookup(Flush(db, AddEntries(bs)), BlockKey(c)) ==
      if LastOf(bs, c).Some? then LastOf(bs, c) else Lookup(db, BlockKey(c))
  {
    if bs == [] {
    } else {
      var last := |bs| - 1;
      AddedBlocks(db, bs[..last], c);
      assert AddEntries(bs)[..last] == AddEntries(bs[..last]);
      EntryLookup(Flush(db, AddEntries(bs[..last])), AddEntries(bs)[last], BlockKey(c));
      KeysAreSeparate(c, bs[last].cid, [], []);
    }
  }

  /** Exactly the given CIDs go. */
  lemma {:induction false} DeletedBlocks(db: Db, cs: seq<Cid>, c: Cid)
    ensures Lookup(Flush(db, DeleteEntries(cs)), BlockKey(c)) == if c in cs then None else Lookup(db, BlockKey(c))
  {
    if cs == [] {
    } else {
      var last := |cs| - 1;
      DeletedBlocks(db, cs[..last], c);
      assert DeleteEntries(cs)[..last] == DeleteEntries(cs[..last]);
      assert cs == cs[..last] + [cs[last]];
      EntryLookup(Flush(db, DeleteEntries(cs[..last])), DeleteEntries(cs)[last], BlockKey(c));
      KeysAreSeparate(c, cs[last], [], []);
    }
  }

  lemma SameIndex(db: Db, after: Db, v: View, w: View)
    requires Shows(db, v) && Shows(after, w) && forall x :: Lookup(after, IndexKey(x)) == Lookup(db, IndexKey(x))
    ensures w.index == v.index
  {
    forall x ensures Lookup(w.index, x) == Lookup(v.index, x) {}
    MapsAgree(w.index, v.index);
  }

  lemma AddRefines(db: Db, bs: seq<Block>, v: View, w: View)
    requires Shows(db, v) && Shows(FlatStep(db, Add(bs)), w)
    ensures LogicalStep(v, Add(bs), w)
  {
    forall x { BlockBatchKeepsIndex(db, AddEntries(bs), x); }
    forall c { AddedBlocks(db, bs, c); }
    SameIndex(db, FlatStep(db, Add(bs)), v, w);
  }

  lemma DeleteRefines(db: Db, d: Cid, v: View, w: View)
    requires Shows(db, v) && Shows(FlatStep(db, Delete(d)), w)
    ensures LogicalStep(v, Delete(d), w)
  {
    var after := FlatStep(db, Delete(d));
    forall x ensures Lookup(after, IndexKey(x)) == Lookup(db, IndexKey(x)) {
      KeysAreSeparate(d, d, x, x);
    }
    forall c ensures Lookup(after, BlockKey(c)) == if c == d then None else Lookup(db, BlockKey(c)) {
      KeysAreSeparate(c, d, [], []);
    }
    SameIndex(db, after, v, w);
  }

  lemma DeleteManyRefines(db: Db, cs: seq<Cid>, v: View, w: View)
    requires Shows(db, v) && Shows(FlatStep(db, DeleteMany(cs)), w)
    ensures LogicalStep(v, DeleteMany(cs), w)
  {
    forall x { BlockBatchKeepsIndex(db, DeleteEntries(cs), x); }
    forall c { DeletedBlocks(db, cs, c); }
    SameIndex(db, FlatStep(db, DeleteMany(cs)), v, w);
  }

  lemma IndexStepRefines(db: Db, op: Op, v: View, w: View)
    requires op.IndexPut? || op.IndexDelete?
    requires Shows(db, v) && Shows(FlatStep(db, op), w)
    ensures LogicalStep(v, op, w)
  {
    var e := if op.IndexPut? then Set(IndexKey(op.key), op.value) else Remove(IndexKey(op.key));
    var want := if op.IndexPut? then v.index[op.key := op.value] else v.index - {op.key};
    forall c ensures Lookup(w.blocks, c) == Lookup(v.blocks, c) {
      EntryLookup(db, e, BlockKey(c));
      KeysAreSeparate(c, c, op.key, op.key);
    }
    MapsAgree(w.blocks, v.blocks);
    forall x ensures Lookup(w.index, x) == Lookup(want, x) {
      EntryLookup(db, e, IndexKey(x));
      KeysAreSeparate(Cid([]), Cid([]), x, op.key);
    }
    MapsAgree(w.index, want);
  }

  lemma StepRefinesShown(db: Db, op: Op, v: View, w: View)
    requires Shows(db, v) && Shows(FlatStep(db, op), w)
    ensures LogicalStep(v, op, w)
  {
    match op
    case Add(bs) => AddRefines(db, bs, v, w);
    case Delete(d) => DeleteRefines(db, d, v, w);
    case DeleteMany(cs) => DeleteManyRefines(db, cs, v, w);
    case _ => IndexStepRefines(db, op, v, w);
  }

  /** Each flat operation is its logical one. */
  lemma StepRefines(db: Db, op: Op)
    ensures LogicalStep(ViewOf(db), op, ViewOf(FlatStep(db, op)))
  {
    ViewShows(db);
    ViewShows(FlatStep(db, op));
    StepRefinesShown(db, op, ViewOf(db), ViewOf(FlatStep(db, op)));
  }

  /** Every sequence of successful operations on the flat key space is a run of the two independent
      maps, from the view of the first state to the view of the last. */
  lemma {:induction false} StoreRefinesTwoMaps(db: Db, ops: seq<Op>) returns (views: seq<View>)
    ensures LogicalRun(views, ops) && views[0] == ViewOf(db) && views[|ops|] == ViewOf(FlatRun(db, ops))
    decreases |ops|
  {
    if ops == [] {
      views := [ViewOf(db)];
    } else {
      var rest := StoreRefinesTwoMaps(FlatStep(db, ops[0]), ops[1..]);
      StepRefines(db, ops[0]);
      views := [ViewOf(db)] + rest;
      forall i | 0 <= i < |ops| ensures LogicalStep(views[i], ops[i], views[i + 1]) {
        if i > 0 {
          assert LogicalStep(rest[i - 1], ops[1..][i - 1], rest[i]);
        }
      }
    }
  }

  /** The logical step leaves no choice: a view and an operation determine the next view. */
  lemma LogicalStepIsFunctional(v: View, op: Op, w: View, w': View)
    requires LogicalStep(v, op, w) && LogicalStep(v, op, w')
    ensures w == w'
  {
    if op.Add? || op.Delete? || op.DeleteMany? {
      forall c: Cid ensures Lookup(w.blocks, c) == Lookup(w'.blocks, c) {}
      MapsAgree(w.blocks, w'.blocks);
    }
  }

  /** Only keys of the two kinds are in the database. */
  ghost predicate OnlyOurKeys(db: Db) {
    forall k | k in db :: IsBlockKey(k) || IsIndexKey(k)
  }

  lemma {:induction false} FlushKeepsOurKeys(db: Db, entries: seq<Entry>)
    requires OnlyOurKeys(db) && forall e | e in entries :: IsBlockKey(e.key) || IsIndexKey(e.key)
    ensures OnlyOurKeys(Flush(db, entries))
  {
    if entries == [] {
    } else {
      var last := |entries| - 1;
      FlushKeepsOurKeys(db, entries[..last]);
      assert entries[last] in entries;
    }
  }

  /** No operation, and so no run of them, adds another key. */
  lemma StepKeepsOurKeys(db: Db, op: Op)
    requires OnlyOurKeys(db)
    ensures OnlyOurKeys(FlatStep(db, op))
  {
    match op
    case Add(bs) => FlushKeepsOurKeys(db, AddEntries(bs));
    case DeleteMany(cs) => FlushKeepsOurKeys(db, DeleteEntries(cs));
    case IndexPut(key, value) => assert IsIndexKey(IndexKey(key));
    case _ =>
  }

  lemma {:induction false} RunKeepsOurKeys(db: Db, ops: seq<Op>)
    requires OnlyOurKeys(db)
    ensures OnlyOurKeys(FlatRun(db, ops))
    decreases |ops|
  {
    if ops == [] {
    } else {
      StepKeepsOurKeys(db, ops[0]);
      RunKeepsOurKeys(FlatStep(db, ops[0]), ops[1..]);
    }
  }

  /** Two stores that started empty and show the same maps are the same database. */
  lemma StoresAreTheirViews(ops: seq<Op>, ops': seq<Op>)
    requires ViewOf(FlatRun(map[], ops)) == ViewOf(FlatRun(map[], ops'))
    ensures FlatRun(map[], ops) == FlatRun(map[], ops')
  {
    RunKeepsOurKeys(map[], ops);
    RunKeepsOurKeys(map[], ops');
    ViewIsFaithful(FlatRun(map[], ops), FlatRun(map[], ops'));
  }

  /** Then nothing is hidden: the view determines the database. */
  lemma ViewIsFaithful(a: Db, b: Db)
    requires OnlyOurKeys(a) && OnlyOurKeys(b) && ViewOf(a) == ViewOf(b)
    ensures a == b
  {
    forall k: Bytes ensures k in a <==> k in b ensures k in a && k in b ==> a[k] == b[k] {
      if IsBlockKey(k) {
        assert k == BlockKey(Cid(k[4..]));
        BlockLookup(a, Cid(k[4..]));
        BlockLookup(b, Cid(k[4..]));
        assert Lookup(a, k) == Lookup(b, k);
      } else if IsIndexKey(k) {
        assert k == IndexKey(k[4..]);
        IndexLookup(a, k[4..]);
        IndexLookup(b, k[4..]);
        assert Lookup(a, k) == Lookup(b, k);
      }
    }
  }

  // ---------------------------------------------------------------- GetMany's specification

  /** What loading one requested block gives: nothing if it is missing or cannot be read. */
  function Loaded(blocks: map<Cid, Bytes>, c: Cid, fault: bool): seq<Block> {
    if fault || c !in blocks then [] else [Block(c, blocks[c])]
  }

  /** The loadable blocks, in request order, duplicates kept; `faults` says which reads fail. */
  function Loadable(blocks: map<Cid, Bytes>, ks: seq<Cid>, faults: nat -> bool): seq<Block> {
    if ks == [] then []
    else Loadable(blocks, ks[..|ks| - 1], faults) + Loaded(blocks, ks[|ks| - 1], faults(|ks| - 1))
  }

  lemma {:induction false} LoadablePrefix(blocks: map<Cid, Bytes>, ks: seq<Cid>, faults: nat -> bool, n: nat)
    requires n <= |ks|
    ensures Loadable(blocks, ks[..n], faults) <= Loadable(blocks, ks, faults)
  {
    if n < |ks| {
      LoadablePrefix(blocks, ks[..|ks| - 1], faults, n);
      assert ks[..|ks| - 1][..n] == ks[..n];
    } else {
      assert ks[..n] == ks;
    }
  }

  ghost predicate Increasing(ids: seq<nat>) {
    forall j, k | 0 <= j < k < |ids| :: ids[j] < ids[k]
  }

  /** The requests that can be served. */
  predicate CanLoad(blocks: map<Cid, Bytes>, ks: seq<Cid>, faults: nat -> bool, i: nat)
    requires i < |ks|
  {
    !faults(i) && ks[i] in blocks
  }

  /** The blocks of these requests, each with its own CID and data. */
  ghost predicate AreBlocksOf(bs: seq<Block>, blocks: map<Cid, Bytes>, ks: seq<Cid>, ids: seq<nat>) {
    && |bs| == |ids|
    && forall j | 0 <= j < |ids| ::
         ids[j] < |ks| && ks[ids[j]] in blocks && bs[j] == Block(ks[ids[j]], blocks[ks[ids[j]]])
  }

  /** These are exactly the requests that can be served, in order. */
  ghost predicate AreServed(ids: seq<nat>, blocks: map<Cid, Bytes>, ks: seq<Cid>, faults: nat -> bool) {
    && Increasing(ids) && (forall j | 0 <= j < |ids| :: ids[j] < |ks| && CanLoad(blocks, ks, faults, ids[j]))
    && forall i: nat | i < |ks| && CanLoad(blocks, ks, faults, i) :: i in ids
  }

  lemma ServedMore(ids: seq<nat>, blocks: map<Cid, Bytes>, ks: seq<Cid>, faults: nat -> bool)
    requires ks != [] && AreServed(ids, blocks, ks[..|ks| - 1], faults)
    ensures AreServed(
      ids + if CanLoad(blocks, ks, faults, |ks| - 1) then [|ks| - 1] else [], blocks, ks, faults)
  {
    var last := |ks| - 1;
    var more := ids + if CanLoad(blocks, ks, faults, last) then [last] else [];
    forall i: nat | i < |ks| && CanLoad(blocks, ks, faults, i) ensures i in more {
      if i < last {
        assert CanLoad(blocks, ks[..last], faults, i);
      }
    }
    forall j | 0 <= j < |more| ensures more[j] < |ks| && CanLoad(blocks, ks, faults, more[j]) {
      if j < |ids| {
        assert CanLoad(blocks, ks[..last], faults, ids[j]);
      }
    }
  }

  /** The loadable blocks are those of exactly the requests that can be served, one for each, in
      request order. */
  lemma {:induction false} LoadableMeaning(blocks: map<Cid, Bytes>, ks: seq<Cid>, faults: nat -> bool)
    returns (ids: seq<nat>)
    ensures AreServed(ids, blocks, ks, faults) && AreBlocksOf(Loadable(blocks, ks, faults), blocks, ks, ids)
  {
    if ks == [] {
      ids := [];
    } else {
      var last := |ks| - 1;
      var before := LoadableMeaning(blocks, ks[..last], faults);
      ServedMore(before, blocks, ks, faults);
      ids := before + if CanLoad(blocks, ks, faults, last) then [last] else [];
      BlocksMore(Loadable(blocks, ks[..last], faults), blocks, ks, before, faults(last));
    }
  }

  lemma BlocksMore(bs: seq<Block>, blocks: map<Cid, Bytes>, ks: seq<Cid>, ids: seq<nat>, fault: bool)
    requires ks != [] && AreBlocksOf(bs, blocks, ks[..|ks| - 1], ids)
    ensures
      var last := |ks| - 1;
      var served := !fault && ks[last] in blocks;
      AreBlocksOf(bs + Loaded(blocks, ks[last], fault), blocks, ks, ids + if served then [last] else [])
  {
  }

  /** The first n entries of a batch are the batch of the first n blocks, or CIDs. */
  lemma BatchPrefixes(bs: seq<Block>, cs: seq<Cid>, n: nat)
    ensures n <= |bs| ==> AddEntries(bs)[..n] == AddEntries(bs[..n])
    ensures n <= |cs| ==> DeleteEntries(cs)[..n] == DeleteEntries(cs[..n])
  {
  }

  /** db' is db after a part of this Add, and a caller sees the logical Add of the first n blocks. */
  ghost predicate AddedPart(db: Db, bs: seq<Block>, n: nat, db': Db)
    requires n <= |bs|
  {
    db' == FlatStep(db, Add(bs[..n])) && LogicalStep(ViewOf(db), Add(bs[..n]), ViewOf(db'))
  }

  ghost predicate DeletedPart(db: Db, cs: seq<Cid>, n: nat, db': Db)
    requires n <= |cs|
  {
    db' == FlatStep(db, DeleteMany(cs[..n])) && LogicalStep(ViewOf(db), DeleteMany(cs[..n]), ViewOf(db'))
  }

  // ---------------------------------------------------------------- the store

  datatype LoadError = NotFound | Fault

  class LightFileNodeStore {
    var db: Db

    constructor ()
      ensures db == map[]
    {
      db := map[];
    }

    /** `loadBlock` and `Get`. */
    method LoadBlock(k: Cid, fault: bool) returns (data: Option<Bytes>, err: Option<LoadError>)
      ensures data.Some? <==> err.None?
      ensures !fault ==> data == Lookup(Blocks(db), k) && (err.Some? ==> err.value == NotFound)
      ensures fault ==> err == Some(Fault)
    {
      BlockLookup(db, k);
      if fault {
        return None, Some(Fault);
      }
      if BlockKey(k) !in db {
        return None, Some(NotFound);
      }
      return Some(db[BlockKey(k)]), None;
    }

    /** The goroutine of `GetMany`, up to closing the channel. `done` says whether its context is
        cancelled at the n-th look, `sends` which case a select takes when both are ready. Uncancelled
        it delivers exactly the loadable blocks; in any case a prefix of them. */
    method GetMany(ks: seq<Cid>, faults: nat -> bool, done: nat -> bool, sends: nat -> bool)
      returns (delivered: seq<Block>, closed: bool)
      ensures closed
      ensures delivered <= Loadable(Blocks(db), ks, faults)
      ensures (forall n :: !done(n)) ==> delivered == Loadable(Blocks(db), ks, faults)
      ensures done(0) ==> delivered == []
    {
      delivered, closed := [], false;
      var look: nat := 0;
      for i := 0 to |ks|
        invariant delivered == Loadable(Blocks(db), ks[..i], faults)
        invariant i > 0 ==> !done(0)
        invariant i == 0 ==> look == 0
      {
        LoadablePrefix(Blocks(db), ks, faults, i);
        if done(look) {
          closed := true;
          return;
        }
        look := look + 1;
        var data, err := LoadBlock(ks[i], faults(i));
        assert ks[..i + 1][..i] == ks[..i];
        if err.None? {
          if done(look) && !sends(look) {
            closed := true;
            return;
          }
          delivered := delivered + [Block(ks[i], data.value)];
          look := look + 1;
        }
      }
      assert ks[..|ks|] == ks;
      closed := true;
    }

    /** A batch that is given up, or whose flush fails, may have applied some of its first entries. */
    method Abandon(wb: seq<Entry>, applied: nat) returns (n: nat)
      modifies this
      ensures n <= |wb| && db == Flush(old(db), wb[..n])
    {
      n := if applied <= |wb| then applied else |wb|;
      db := Flush(db, wb[..n]);
    }

    /** `Add`. `failAt` is the entry whose queuing fails, or the batch length for a failed flush. A
        failed Add is, for a caller, the Add of some of the first blocks. */
    method AddBlocks(bs: seq<Block>, failAt: Option<nat>, applied: nat) returns (ok: bool)
      modifies this
      ensures ok <==> (failAt.Some? ==> failAt.value > |bs|)
      ensures ok ==> LogicalStep(ViewOf(old(db)), Add(bs), ViewOf(db))
      ensures !ok ==> exists n | 0 <= n <= |bs| :: AddedPart(old(db), bs, n, db)
      ensures Indexes(db) == Indexes(old(db))
    {
      var wb: seq<Entry> := [];
      for i := 0 to |bs|
        invariant wb == AddEntries(bs[..i]) && db == old(db)
        invariant failAt.Some? ==> failAt.value >= i
      {
        if failAt == Some(i) {
          AbandonAdd(bs, i, wb, applied);
          return false;
        }
        BatchPrefixes(bs[..i + 1], [], i);
        assert bs[..i + 1][..i] == bs[..i];
        wb := wb + [Set(BlockKey(bs[i].cid), bs[i].data)];
        assert wb == AddEntries(bs[..i + 1]);
      }
      assert bs[..|bs|] == bs;
      if failAt == Some(|bs|) {
        AbandonAdd(bs, |bs|, wb, applied);
        return false;
      }
      db := Flush(db, wb);
      StepRefines(old(db), Add(bs));
      return true;
    }

    method AbandonAdd(bs: seq<Block>, queued: nat, wb: seq<Entry>, applied: nat)
      requires queued <= |bs| && wb == AddEntries(bs[..queued])
      modifies this
      ensures exists n | 0 <= n <= |bs| :: AddedPart(old(db), bs, n, db)
      ensures Indexes(db) == Indexes(old(db))
    {
      var n := Abandon(wb, applied);
      BatchPrefixes(bs[..queued], [], n);
      assert bs[..queued][..n] == bs[..n];
      StepRefines(old(db), Add(bs[..n]));
      assert AddedPart(old(db), bs, n, db);
    }

    method DeleteBlock(c: Cid, fails: bool) returns (ok: bool)
      modifies this
      ensures ok == !fails
      ensures ok ==> LogicalStep(ViewOf(old(db)), Delete(c), ViewOf(db))
      ensures !ok ==> db == old(db)
    {
      if fails {
        return false;
      }
      db := db - {BlockKey(c)};
      StepRefines(old(db), Delete(c));
      return true;
    }

    /** `DeleteMany`; a failed one is the DeleteMany of some of the first CIDs. */
    method DeleteBlocks(cs: seq<Cid>, failAt: Option<nat>, applied: nat) returns (ok: bool)
      modifies this
      ensures ok <==> (failAt.Some? ==> failAt.value > |cs|)
      ensures ok ==> LogicalStep(ViewOf(old(db)), DeleteMany(cs), ViewOf(db))
      ensures !ok ==> exists n | 0 <= n <= |cs| :: DeletedPart(old(db), cs, n, db)
      ensures Indexes(db) == Indexes(old(db))
    {
      var wb: seq<Entry> := [];
      for i := 0 to |cs|
        invariant wb == DeleteEntries(cs[..i]) && db == old(db)
        invariant failAt.Some? ==> failAt.value >= i
      {
        if failAt == Some(i) {
          AbandonDelete(cs, i, wb, applied);
          return false;
        }
        BatchPrefixes([], cs[..i + 1], i);
        assert cs[..i + 1][..i] == cs[..i];
        wb := wb + [Remove(BlockKey(cs[i]))];
        assert wb == DeleteEntries(cs[..i + 1]);
      }
      assert cs[..|cs|] == cs;
      if failAt == Some(|cs|) {
        AbandonDelete(cs, |cs|, wb, applied);
        return false;
      }
      db := Flush(db, wb);
      StepRefines(old(db), DeleteMany(cs));
      return true;
    }

    method AbandonDelete(cs: seq<Cid>, queued: nat, wb: seq<Entry>, applied: nat)
      requires queued <= |cs| && wb == DeleteEntries(cs[..queued])
      modifies this
      ensures exists n | 0 <= n <= |cs| :: DeletedPart(old(db), cs, n, db)
      ensures Indexes(db) == Indexes(old(db))
    {
      var n := Abandon(wb, applied);
      BatchPrefixes([], cs[..queued], n);
      assert cs[..queued][..n] == cs[..n];
      StepRefines(old(db), DeleteMany(cs[..n]));
      assert DeletedPart(old(db), cs, n, db);
    }

    /** A missing key reads as nil without an error. */
    method GetIndex(key: Bytes, fault: bool) returns (value: Option<Bytes>, err: Option<LoadError>)
      ensures !fault ==> err.None? && value == Lookup(Indexes(db), key)
      ensures fault ==> value.None? && err == Some(Fault)
    {
      IndexLookup(db, key);
      if fault {
        return None, Some(Fault);
      }
      if IndexKey(key) !in db {
        return None, None;
      }
      return Some(db[IndexKey(key)]), None;
    }

    method PutIndex(key: Bytes, value: Bytes, fails: bool) returns (ok: bool)
      modifies this
      ensures ok == !fails
      ensures ok ==> LogicalStep(ViewOf(old(db)), IndexPut(key, value), ViewOf(db))
      ensures !ok ==> db == old(db)
    {
      if fails {
        return false;
      }
      db := db[IndexKey(key) := value];
      StepRefines(old(db), IndexPut(key, value));
      return true;
    }

    method DeleteIndex(key: Bytes, fails: bool) returns (ok: bool)
      modifies this
      ensures ok == !fails
      ensures ok ==> LogicalStep(ViewOf(old(db)), IndexDelete(key), ViewOf(db))
      ensures !ok ==> db == old(db)
    {
      if fails {
        return false;
      }
      db := db - {IndexKey(key)};
      StepRefines(old(db), IndexDelete(key));
      return true;
    }
  }
}
