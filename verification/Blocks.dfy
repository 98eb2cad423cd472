/**
 Blocks, block hashes, the per-node block index, the batch cache, and the walk
 that commits a block together with its uncommitted ancestors.

 A block hash is a free constructor over the hashed content, so it is injective
 and no block can name itself as an ancestor.  The genesis block is the
 exception the source makes: its hash and its parent are both the empty hash.
 */
module Blocks {
  import opened Transactions
  import opened BatcherSpec

  datatype Header = Header(prev: Hash, author: Replica, height: nat, extra: seq<bv8>)

  datatype Hash = EmptyHash | Digest(header: Header, batch: BatchHash)

  /** What a signature can be over. */
  datatype Content = OfBlock(hash: Hash) | OfVote(hash: Hash, round: nat, view: nat)

  datatype Auth = NoAuth | AuthBy(signer: Replica, over: Content)

  /** A claimed origin together with the signature itself. */
  datatype Sig = Sig(origin: Replica, auth: Auth)

  predicate Verifies(signer: Replica, over: Content, sig: Sig) {
    sig.auth == AuthBy(signer, over)
  }

  datatype Block = Block(header: Header, batch: BatchHash, hash: Hash, sig: Sig)

  const GENESIS: Block := Block(Header(EmptyHash, 0, 0, []), EmptyBatchHash, EmptyHash, Sig(0, NoAuth))

  /** Holds for every block that was decoded from the wire or finalized locally. */
  predicate Finalized(b: Block) {
    b.hash == Digest(b.header, b.batch)
  }

  function NewBlock(parent: Block, author: Replica, batch: Batch, sig: Sig): (b: Block)
    ensures Finalized(b) && Prev(b.hash) == parent.hash && b.hash != EmptyHash
  {
    var header := Header(parent.hash, author, parent.header.height + 1, []);
    Block(header, BatchDigest(batch), Digest(header, BatchDigest(batch)), sig)
  }

  function Prev(h: Hash): Hash {
    if h.EmptyHash? then EmptyHash else h.header.prev
  }

  /** The hash itself and everything below it, down to genesis. */
  function Ancestors(h: Hash): (hs: set<Hash>)
    ensures h in hs && EmptyHash in hs
  {
    if h.EmptyHash? then {EmptyHash} else {h} + Ancestors(h.header.prev)
  }

  lemma {:induction false} AncestorsClosed(h: Hash)
    ensures forall x :: x in Ancestors(h) ==> Prev(x) in Ancestors(h)
  {
    if h.Digest? {
      AncestorsClosed(h.header.prev);
    }
  }

  lemma {:induction false} AncestorsNested(h: Hash, x: Hash)
    requires x in Ancestors(h)
    ensures Ancestors(x) <= Ancestors(h)
  {
    if h.Digest? && x != h {
      AncestorsNested(h.header.prev, x);
    }
  }

  // ---------------------------------------------------------------- block index

  datatype Storage = Storage(
    byHash: map<Hash, Block>,
    byHeight: map<nat, Block>,
    committed: set<Hash>,
    committedHeights: set<nat>)

  function AddDelivered(st: Storage, b: Block): Storage {
    st.(byHash := st.byHash[b.hash := b], byHeight := st.byHeight[b.header.height := b])
  }

  function AddCommitted(st: Storage, b: Block): Storage {
    st.(committed := st.committed + {b.hash}, committedHeights := st.committedHeights + {b.header.height})
  }

  const INITIAL_STORAGE: Storage := AddDelivered(Storage(map[], map[], {}, {}), GENESIS)

  /** A new block is found by its hash and by its height, and every other entry is as before. */
  lemma DeliveredLookups(st: Storage, b: Block)
    ensures var after := AddDelivered(st, b);
            && b.hash in after.byHash && after.byHash[b.hash] == b
            && b.header.height in after.byHeight && after.byHeight[b.header.height] == b
            && (forall h :: h != b.hash ==> (h in after.byHash <==> h in st.byHash))
            && (forall h :: h in st.byHash && h != b.hash ==> after.byHash[h] == st.byHash[h])
            && (forall k :: k != b.header.height ==> (k in after.byHeight <==> k in st.byHeight))
            && (forall k :: k in st.byHeight && k != b.header.height ==> after.byHeight[k] == st.byHeight[k])
  {
  }

  /** Every stored block sits under its own content hash. */
  predicate StorageOk(st: Storage) {
    && EmptyHash in st.byHash && st.byHash[EmptyHash] == GENESIS
    && (forall h :: h in st.byHash ==> st.byHash[h].hash == h)
    && (forall h :: h in st.byHash && h != EmptyHash ==> Finalized(st.byHash[h]))
  }

  lemma StoredPrev(st: Storage, h: Hash)
    requires StorageOk(st) && h in st.byHash
    ensures st.byHash[h].header.prev == Prev(h) && st.byHash[h].batch == if h.EmptyHash? then EmptyBatchHash
            else h.batch
    ensures st.byHash[h].header == if h.EmptyHash? then GENESIS.header else h.header
  {
    if h != EmptyHash {
      assert Finalized(st.byHash[h]);
    }
  }

  ghost predicate ClosedSet(hs: set<Hash>) {
    forall h :: h in hs ==> Prev(h) in hs
  }

  /** The store holds the parent of every block it holds. */
  ghost predicate Closed(st: Storage) {
    ClosedSet(st.byHash.Keys)
  }

  lemma {:induction false} ClosedHasAncestors(hs: set<Hash>, h: Hash)
    requires ClosedSet(hs) && h in hs
    ensures Ancestors(h) <= hs
  {
    if h.Digest? {
      assert Prev(h) in hs;
      ClosedHasAncestors(hs, h.header.prev);
    }
  }

  // ---------------------------------------------------------------- commit walk

  datatype Walk = Missing | Walked(st: Storage, newly: seq<Block>)

  /** Follows parents from `h` until a committed block, committing on the way;
      `newly` lists the blocks oldest first.  `Missing` is the failed lookup. */
  function WalkBack(st: Storage, h: Hash): Walk
    decreases st.byHash.Keys - st.committed
  {
    if h in st.committed then Walked(st, [])
    else if h !in st.byHash || st.byHash[h].hash != h then Missing
    else
      var b := st.byHash[h];
      var rest := WalkBack(AddCommitted(st, b), b.header.prev);
      if rest.Missing? then Missing else Walked(rest.st, rest.newly + [b])
  }

  /** The uncommitted ancestors of `h`, oldest first. */
  function Fresh(committed: set<Hash>, h: Hash): seq<Hash> {
    if h in committed then []
    else if h.EmptyHash? then [EmptyHash]
    else Fresh(committed, h.header.prev) + [h]
  }

  function HashesOf(bs: seq<Block>): (hs: seq<Hash>)
    ensures |hs| == |bs| && forall i :: 0 <= i < |bs| ==> hs[i] == bs[i].hash
  {
    seq(|bs|, i requires 0 <= i < |bs| => bs[i].hash)
  }

  function Depth(h: Hash): nat {
    if h.EmptyHash? then 0 else 1 + Depth(h.header.prev)
  }

  lemma {:induction false} AncestorsAreShallow(h: Hash, x: Hash)
    requires x in Ancestors(h)
    ensures Depth(x) <= Depth(h)
  {
    if h.Digest? && x != h {
      AncestorsAreShallow(h.header.prev, x);
    }
  }

  lemma NotOwnAncestor(h: Hash)
    requires h.Digest?
    ensures h !in Ancestors(h.header.prev)
  {
    if h in Ancestors(h.header.prev) {
      AncestorsAreShallow(h.header.prev, h);
    }
  }

  lemma {:induction false} FreshFrame(committed: set<Hash>, x: Hash, h: Hash)
    requires x !in Ancestors(h)
    ensures Fresh(committed + {x}, h) == Fresh(committed, h)
  {
    if h.Digest? {
      FreshFrame(committed, x, h.header.prev);
    }
  }

  function SetOf(hs: seq<Hash>): set<Hash> {
    set x | x in hs
  }

  lemma SetOfSnoc(hs: seq<Hash>, h: Hash)
    ensures SetOf(hs + [h]) == SetOf(hs) + {h}
  {
  }

  lemma FreshStep(committed: set<Hash>, h: Hash)
    requires h !in committed && h.Digest?
    ensures Fresh(committed + {h}, h.header.prev) == Fresh(committed, h.header.prev)
    ensures Fresh(committed, h) == Fresh(committed, h.header.prev) + [h]
    ensures SetOf(Fresh(committed, h)) == SetOf(Fresh(committed, h.header.prev)) + {h}
  {
    NotOwnAncestor(h);
    FreshFrame(committed, h, h.header.prev);
    SetOfSnoc(Fresh(committed, h.header.prev), h);
  }

  lemma FreshEndsWith(committed: set<Hash>, h: Hash)
    requires h !in committed
    ensures h in SetOf(Fresh(committed, h))
  {
    var f := Fresh(committed, h);
    assert f[|f| - 1] == h;
  }

  /** The walk succeeds exactly when every uncommitted ancestor is delivered. */
  lemma {:induction false} WalkSucceedsIff(st: Storage, h: Hash)
    requires StorageOk(st)
    ensures WalkBack(st, h).Walked? <==> SetOf(Fresh(st.committed, h)) <= st.byHash.Keys
    decreases h
  {
    if h in st.committed {
    } else if h in st.byHash {
      StoredPrev(st, h);
      if h.Digest? {
        FreshStep(st.committed, h);
        WalkSucceedsIff(AddCommitted(st, st.byHash[h]), h.header.prev);
      }
    } else {
      FreshEndsWith(st.committed, h);
    }
  }

  /** A walk changes no lookup. */
  lemma {:induction false} WalkKeepsBlocks(st: Storage, h: Hash)
    ensures WalkBack(st, h).Walked? ==> WalkBack(st, h).st.byHash == st.byHash
    decreases st.byHash.Keys - st.committed
  {
    if h !in st.committed && h in st.byHash && st.byHash[h].hash == h {
      WalkKeepsBlocks(AddCommitted(st, st.byHash[h]), st.byHash[h].header.prev);
    }
  }

  /** What a walk from `h` did to the store, and what it lists. */
  ghost predicate WalkOf(st: Storage, h: Hash, after: Storage, newly: seq<Block>) {
    && HashesOf(newly) == Fresh(st.committed, h)
    && (forall i :: 0 <= i < |newly| ==> newly[i].hash in st.byHash && newly[i] == st.byHash[newly[i].hash])
    && after.byHash == st.byHash && after.byHeight == st.byHeight
    && after.committed == st.committed + SetOf(Fresh(st.committed, h))
    && after.committedHeights == st.committedHeights + Heights(newly)
  }

  function Heights(blocks: seq<Block>): set<nat> {
    set i | 0 <= i < |blocks| :: blocks[i].header.height
  }

  lemma HeightsSnoc(blocks: seq<Block>, b: Block)
    ensures Heights(blocks + [b]) == Heights(blocks) + {b.header.height} && Heights([]) == {}
  {
    var all := blocks + [b];
    assert all[|blocks|] == b && forall i :: 0 <= i < |blocks| ==> all[i] == blocks[i];
  }

  /** It commits exactly the uncommitted ancestors and lists them oldest first. */
  lemma {:induction false} WalkResult(st: Storage, h: Hash)
    requires StorageOk(st) && WalkBack(st, h).Walked?
    ensures WalkOf(st, h, WalkBack(st, h).st, WalkBack(st, h).newly)
    decreases h
  {
    if h in st.committed {
      NothingWalked(st, h);
    } else {
      hide WalkOf;
      var b := st.byHash[h];
      var next := AddCommitted(st, b);
      StoredPrev(st, h);
      if h.EmptyHash? {
        assert b.header.prev == EmptyHash && WalkBack(next, EmptyHash) == Walked(next, []);
        assert WalkBack(st, h) == Walked(next, [] + [b]) && [] + [b] == [b];
        GenesisWalked(st);
      } else {
        WalkResult(next, h.header.prev);
        var w := WalkBack(next, h.header.prev);
        WalkedOne(st, h, w.st, w.newly);
      }
    }
  }

  lemma NothingWalked(st: Storage, h: Hash)
    requires h in st.committed
    ensures WalkOf(st, h, st, [])
  {
    assert SetOf([]) == {};
  }

  lemma GenesisWalked(st: Storage)
    requires StorageOk(st) && EmptyHash !in st.committed
    ensures WalkOf(st, EmptyHash, AddCommitted(st, st.byHash[EmptyHash]), [st.byHash[EmptyHash]])
  {
    HeightsSnoc([], st.byHash[EmptyHash]);
    assert [] + [st.byHash[EmptyHash]] == [st.byHash[EmptyHash]];
    assert SetOf([EmptyHash]) == {EmptyHash};
  }

  /** The walk from the parent, with the block itself marked first and listed last. */
  lemma WalkedOne(st: Storage, h: Hash, after: Storage, newly: seq<Block>)
    requires StorageOk(st) && h.Digest? && h in st.byHash && h !in st.committed
    requires WalkOf(AddCommitted(st, st.byHash[h]), h.header.prev, after, newly)
    ensures WalkOf(st, h, after, newly + [st.byHash[h]])
  {
    hide Fresh, Heights;
    var b := st.byHash[h];
    FreshStep(st.committed, h);
    HeightsSnoc(newly, b);
    assert HashesOf(newly + [b]) == HashesOf(newly) + [h];
  }

  /** Oldest first: a listed hash is preceded by its parent, unless that is already committed. */
  ghost predicate ParentFirst(committed: set<Hash>, hs: seq<Hash>) {
    forall i :: 0 <= i < |hs| ==> hs[i] == EmptyHash || Prev(hs[i]) in committed || Prev(hs[i]) in hs[..i]
  }

  ghost predicate NoRepeats(hs: seq<Hash>) {
    forall i, j :: 0 <= i < j < |hs| ==> hs[i] != hs[j]
  }

  lemma NoRepeatsSnoc(hs: seq<Hash>, h: Hash)
    requires NoRepeats(hs) && h !in hs
    ensures NoRepeats(hs + [h])
  {
  }

  lemma ParentFirstSnoc(committed: set<Hash>, hs: seq<Hash>, h: Hash)
    requires ParentFirst(committed, hs)
    requires h == EmptyHash || Prev(h) in committed || Prev(h) in hs
    ensures ParentFirst(committed, hs + [h])
  {
    var all := hs + [h];
    assert all[..|hs|] == hs;
    assert forall i :: 0 <= i < |hs| ==> all[i] == hs[i] && all[..i] == hs[..i];
  }

  /** Over a closed committed set, the fresh hashes are the uncommitted ancestors, each once, parents first. */
  lemma {:induction false} FreshShape(committed: set<Hash>, h: Hash)
    requires ClosedSet(committed)
    ensures SetOf(Fresh(committed, h)) == Ancestors(h) - committed
    ensures NoRepeats(Fresh(committed, h)) && ParentFirst(committed, Fresh(committed, h))
  {
    if h in committed {
      ClosedHasAncestors(committed, h);
    } else if h.Digest? {
      FreshShape(committed, h.header.prev);
      FreshShapeStep(committed, h);
    } else {
      assert SetOf([EmptyHash]) == {EmptyHash};
    }
  }

  lemma FreshShapeStep(committed: set<Hash>, h: Hash)
    requires h.Digest? && h !in committed
    requires SetOf(Fresh(committed, h.header.prev)) == Ancestors(h.header.prev) - committed
    requires NoRepeats(Fresh(committed, h.header.prev)) && ParentFirst(committed, Fresh(committed, h.header.prev))
    ensures SetOf(Fresh(committed, h)) == Ancestors(h) - committed
    ensures NoRepeats(Fresh(committed, h)) && ParentFirst(committed, Fresh(committed, h))
  {
    hide NoRepeats, ParentFirst, Fresh;
    var prev := h.header.prev;
    var below := Fresh(committed, prev);
    FreshStep(committed, h);
    NotOwnAncestor(h);
    assert h !in below by {
      assert h !in SetOf(below);
    }
    NoRepeatsSnoc(below, h);
    if prev !in committed {
      FreshEndsWith(committed, prev);
    }
    ParentFirstSnoc(committed, below, h);
  }

  // ---------------------------------------------------------------- batches

  /** The shared in-memory cache and the durable store behind it. */
  datatype Batches = Batches(cache: map<BatchHash, Batch>, store: map<BatchHash, Batch>)

  /** Every entry is filed under the hash of its content, and what is cached is also stored. */
  ghost predicate ContentAddressed(bs: Batches) {
    && (forall h :: h in bs.cache ==> h == BatchDigest(bs.cache[h]))
    && (forall h :: h in bs.store ==> h == BatchDigest(bs.store[h]))
    && (forall h :: h in bs.cache ==> h in bs.store)
  }

  /** A store left over from an earlier life of the node, filed by content. */
  predicate StoreOk(store: map<BatchHash, Batch>) {
    forall h :: h in store ==> h == BatchDigest(store[h])
  }

  /** First writer wins. */
  function CacheInsert(bs: Batches, h: BatchHash, batch: Batch): Batches {
    if h in bs.cache then bs else bs.(cache := bs.cache[h := batch])
  }

  function Persist(bs: Batches, h: BatchHash, batch: Batch): Batches {
    CacheInsert(bs, h, batch).(store := bs.store[h := batch])
  }

  /** Cache first, then the store; a store hit fills the cache. */
  function ReadBatch(bs: Batches, h: BatchHash): (Option<Batch>, Batches) {
    if h in bs.cache then (Some(bs.cache[h]), bs)
    else if h in bs.store then (Some(bs.store[h]), CacheInsert(bs, h, bs.store[h]))
    else (None, bs)
  }

  /** Whatever is read under a hash has that hash, from the cache or from the store. */
  lemma ReadsAgree(bs: Batches, h: BatchHash)
    requires ContentAddressed(bs)
    ensures ContentAddressed(ReadBatch(bs, h).1)
    ensures ReadBatch(bs, h).0.Some? <==> h in bs.cache || h in bs.store
    ensures ReadBatch(bs, h).0.Some? ==> h == BatchDigest(ReadBatch(bs, h).0.value)
    ensures h in bs.cache && h in bs.store ==> bs.cache[h] == bs.store[h]
    ensures ReadBatch(bs, h).0.Some? ==> h in ReadBatch(bs, h).1.cache
  {
  }

  /** An entry that is cached already is not replaced. */
  lemma FirstWriterWins(bs: Batches, h: BatchHash, batch: Batch)
    ensures h in CacheInsert(bs, h, batch).cache && CacheInsert(bs, h, batch).store == bs.store
    ensures CacheInsert(bs, h, batch).cache[h] == if h in bs.cache then bs.cache[h] else batch
    ensures forall k :: k in bs.cache ==>
            k in CacheInsert(bs, h, batch).cache && CacheInsert(bs, h, batch).cache[k] == bs.cache[k]
  {
  }

  /** What was persisted is read back by the node's next life, which starts with an empty cache. */
  lemma PersistIsDurable(bs: Batches, h: BatchHash, batch: Batch, k: BatchHash)
    requires k == h || k in bs.store
    ensures ReadBatch(Batches(map[], Persist(bs, h, batch).store), k).0 == Some(if k == h then batch else bs.store[k])
  {
  }

  lemma PersistKeeps(bs: Batches, h: BatchHash, batch: Batch)
    requires ContentAddressed(bs) && h == BatchDigest(batch)
    ensures ContentAddressed(Persist(bs, h, batch))
    ensures Persist(bs, h, batch).cache.Keys == bs.cache.Keys + {h}
  {
  }

  // ---------------------------------------------------------------- announcing commits

  datatype Emission = Emission(bs: Batches, toBatcher: seq<BatcherMsg>, toRouter: seq<Batch>)

  /** Sends the batch of each block to the batcher and the router; a block without a batch is skipped. */
  function EmitAll(bs: Batches, blocks: seq<Block>): Emission {
    if blocks == [] then Emission(bs, [], [])
    else
      var before := EmitAll(bs, blocks[..|blocks| - 1]);
      var b := blocks[|blocks| - 1];
      var (got, bs') := ReadBatch(before.bs, b.batch);
      match got
      case None => before.(bs := bs')
      case Some(batch) =>
        Emission(bs', before.toBatcher + [Committed(batch, b.header.height)], before.toRouter + [batch])
  }

  /** The batches of the blocks, genesis excepted. */
  function PayloadsOf(blocks: seq<Block>): seq<Batch> {
    if blocks == [] then []
    else
      var b := blocks[|blocks| - 1];
      PayloadsOf(blocks[..|blocks| - 1]) + if b.batch.BatchDigest? then [b.batch.payload] else []
  }

  function NoticesOf(blocks: seq<Block>): seq<BatcherMsg> {
    if blocks == [] then []
    else
      var b := blocks[|blocks| - 1];
      NoticesOf(blocks[..|blocks| - 1]) + if b.batch.BatchDigest?
          then [Committed(b.batch.payload, b.header.height)] else []
  }

  /** Every block except genesis has its batch in the cache. */
  ghost predicate Available(bs: Batches, blocks: seq<Block>) {
    forall i :: 0 <= i < |blocks| && blocks[i].batch != EmptyBatchHash ==> blocks[i].batch in bs.cache
  }

  /** With the batches available nothing is skipped and nothing is read from the store. */
  lemma {:induction false} EmitAvailable(bs: Batches, blocks: seq<Block>)
    requires ContentAddressed(bs) && Available(bs, blocks)
    ensures EmitAll(bs, blocks) == Emission(bs, NoticesOf(blocks), PayloadsOf(blocks))
  {
    if blocks != [] {
      EmitAvailable(bs, blocks[..|blocks| - 1]);
    }
  }

  lemma {:induction false} PayloadsConcat(a: seq<Block>, b: seq<Block>)
    ensures PayloadsOf(a + b) == PayloadsOf(a) + PayloadsOf(b)
    ensures NoticesOf(a + b) == NoticesOf(a) + NoticesOf(b)
  {
    if b == [] {
      assert a + b == a;
    } else {
      assert (a + b)[..|a + b| - 1] == a + b[..|b| - 1];
      PayloadsConcat(a, b[..|b| - 1]);
    }
  }
}
