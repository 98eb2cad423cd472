/**
 What the two chain protocols share: the history of announced blocks, and the
 one chain all code-following replicas work on.
 */
module Chains {
  import opened Transactions
  import opened BatcherSpec
  import opened Blocks

  // ---------------------------------------------------------------- announcements

  /** The store only grows, and nothing is committed. */
  ghost predicate StoreGrows(st: Storage, st': Storage) {
    && (forall h :: h in st.byHash ==> h in st'.byHash && st'.byHash[h] == st.byHash[h])
    && st'.committed == st.committed
  }

  lemma StoreGrowsTrans(a: Storage, b: Storage, c: Storage)
    requires StoreGrows(a, b) && StoreGrows(b, c)
    ensures StoreGrows(a, c)
  {
  }

  ghost predicate BatchOk(bs: Batches, b: Block) {
    b.hash == EmptyHash || (b.batch in bs.cache && b.batch.BatchDigest?)
  }

  ghost function HasBatch(bs: Batches): Block -> bool {
    b => BatchOk(bs, b)
  }

  ghost predicate PendingInv(bs: Batches, pending: seq<(BatchHash, Batch)>) {
    forall i :: 0 <= i < |pending| ==> pending[i].0 == BatchDigest(pending[i].1) && pending[i].0 in bs.cache
  }

  function CommittedOf(ms: seq<BatcherMsg>): seq<BatcherMsg> {
    if ms == [] then []
    else CommittedOf(ms[..|ms| - 1]) + if ms[|ms| - 1].Committed? then [ms[|ms| - 1]] else []
  }

  /** The order part of the emission invariant. */
  ghost predicate OrderInv(st: Storage, hs: seq<Hash>) {
    NoRepeats(hs) && ParentFirst({}, hs) && SetOf(hs) == st.committed
  }

  ghost predicate NoRollbacks(ms: seq<BatcherMsg>) {
    forall j :: 0 <= j < |ms| ==> !ms[j].RolledBack?
  }

  /** The announced blocks are the committed ones, each once and parents first, and exactly their
      batches went to the router and, with their heights, to the batcher.  Nothing was rolled back. */
  ghost predicate EmissionInv(st: Storage, emitted: seq<Block>, toRouter: seq<Batch>, toBatcher: seq<BatcherMsg>) {
    && OrderInv(st, HashesOf(emitted))
    && (forall i :: 0 <= i < |emitted| ==> emitted[i].hash in st.byHash && emitted[i] == st.byHash[emitted[i].hash])
    && toRouter == PayloadsOf(emitted)
    && CommittedOf(toBatcher) == NoticesOf(emitted)
    && NoRollbacks(toBatcher)
  }

  lemma {:induction false} CommittedOfConcat(a: seq<BatcherMsg>, b: seq<BatcherMsg>)
    ensures CommittedOf(a + b) == CommittedOf(a) + CommittedOf(b)
  {
    if b == [] {
      assert a + b == a;
    } else {
      assert (a + b)[..|a + b| - 1] == a + b[..|b| - 1];
      CommittedOfConcat(a, b[..|b| - 1]);
    }
  }

  lemma {:induction false} NoticesAreCommitted(blocks: seq<Block>)
    ensures CommittedOf(NoticesOf(blocks)) == NoticesOf(blocks)
  {
    if blocks != [] {
      NoticesAreCommitted(blocks[..|blocks| - 1]);
      var b := blocks[|blocks| - 1];
      var rest := NoticesOf(blocks[..|blocks| - 1]);
      if b.batch.BatchDigest? {
        CommittedOfConcat(rest, [Committed(b.batch.payload, b.header.height)]);
      } else {
        assert NoticesOf(blocks) == rest;
      }
    }
  }

  /** Telling the batcher something else than a commit changes nothing here. */
  lemma OtherNotice(ms: seq<BatcherMsg>, m: BatcherMsg)
    requires !m.Committed?
    ensures CommittedOf(ms + [m]) == CommittedOf(ms)
  {
    assert (ms + [m])[..|ms|] == ms;
  }

  lemma EmissionFrame(st: Storage, st': Storage, emitted: seq<Block>, toRouter: seq<Batch>, toBatcher: seq<BatcherMsg>)
    requires EmissionInv(st, emitted, toRouter, toBatcher) && StoreGrows(st, st')
    ensures EmissionInv(st', emitted, toRouter, toBatcher)
  {
  }

  lemma NoticeFrame(st: Storage, emitted: seq<Block>, toRouter: seq<Batch>, toBatcher: seq<BatcherMsg>, m: BatcherMsg)
    requires EmissionInv(st, emitted, toRouter, toBatcher) && !m.Committed? && !m.RolledBack?
    ensures EmissionInv(st, emitted, toRouter, toBatcher + [m])
  {
    OtherNotice(toBatcher, m);
  }

  /** A new replica has announced nothing but its first round. */
  lemma BootEmits(leader: Replica)
    ensures EmissionInv(INITIAL_STORAGE, [], [], [NewRound(leader, 1)])
  {
    OtherNotice([], NewRound(leader, 1));
    assert [] + [NewRound(leader, 1)] == [NewRound(leader, 1)];
    assert HashesOf([]) == [] && SetOf([]) == {};
  }

  lemma ParentFirstConcat(a: seq<Hash>, b: seq<Hash>)
    requires ParentFirst({}, a) && ParentFirst(SetOf(a), b)
    ensures ParentFirst({}, a + b)
  {
    hide Prev;
    var all := a + b;
    forall i | 0 <= i < |all| ensures all[i] == EmptyHash || Prev(all[i]) in all[..i] {
      if i < |a| {
        assert all[i] == a[i] && all[..i] == a[..i];
      } else {
        assert all[i] == b[i - |a|] && all[..i] == a + b[..i - |a|];
      }
    }
  }

  lemma NoRepeatsConcat(a: seq<Hash>, b: seq<Hash>)
    requires NoRepeats(a) && NoRepeats(b) && SetOf(a) !! SetOf(b)
    ensures NoRepeats(a + b) && SetOf(a + b) == SetOf(a) + SetOf(b)
  {
    var all := a + b;
    forall i, j | 0 <= i < j < |all| ensures all[i] != all[j] {
      if i < |a| <= j {
        assert all[i] in SetOf(a) && all[j] in SetOf(b);
      }
    }
  }

  lemma CommitOrder(st: Storage, h: Hash, after: Storage, hs: seq<Hash>)
    requires ClosedSet(st.committed) && OrderInv(st, hs)
    requires after.committed == st.committed + SetOf(Fresh(st.committed, h))
    ensures after.committed == st.committed + Ancestors(h)
    ensures OrderInv(after, hs + Fresh(st.committed, h))
  {
    FreshShape(st.committed, h);
    ParentFirstConcat(hs, Fresh(st.committed, h));
    NoRepeatsConcat(hs, Fresh(st.committed, h));
  }

  lemma {:induction false} NoticesRollNothingBack(blocks: seq<Block>)
    ensures NoRollbacks(NoticesOf(blocks))
  {
    if blocks != [] {
      NoticesRollNothingBack(blocks[..|blocks| - 1]);
    }
  }

  lemma CommitAnnounces(emitted: seq<Block>, newly: seq<Block>, toBatcher: seq<BatcherMsg>)
    requires CommittedOf(toBatcher) == NoticesOf(emitted) && NoRollbacks(toBatcher)
    ensures CommittedOf(toBatcher + NoticesOf(newly)) == NoticesOf(emitted + newly)
    ensures NoRollbacks(toBatcher + NoticesOf(newly))
    ensures PayloadsOf(emitted) + PayloadsOf(newly) == PayloadsOf(emitted + newly)
    ensures HashesOf(emitted + newly) == HashesOf(emitted) + HashesOf(newly)
  {
    PayloadsConcat(emitted, newly);
    CommittedOfConcat(toBatcher, NoticesOf(newly));
    NoticesAreCommitted(newly);
    NoticesRollNothingBack(newly);
  }

  /** What one commit of hash `h` does to the store and to the announcements. */
  lemma CommitEmits(st: Storage, h: Hash, w: Walk, emitted: seq<Block>, toRouter: seq<Batch>,
      toBatcher: seq<BatcherMsg>)
    requires ClosedSet(st.committed) && EmissionInv(st, emitted, toRouter, toBatcher)
    requires w.Walked? && WalkOf(st, h, w.st, w.newly)
    ensures w.st.committed == st.committed + Ancestors(h)
    ensures EmissionInv(w.st, emitted + w.newly, toRouter + PayloadsOf(w.newly), toBatcher + NoticesOf(w.newly))
  {
    hide Ancestors, Fresh, OrderInv, PayloadsOf, NoticesOf, CommittedOf;
    CommitOrder(st, h, w.st, HashesOf(emitted));
    CommitAnnounces(emitted, w.newly, toBatcher);
  }

  lemma WalkedAreStored(st: Storage, h: Hash)
    requires WalkBack(st, h).Walked? && WalkOf(st, h, WalkBack(st, h).st, WalkBack(st, h).newly)
    ensures var newly := WalkBack(st, h).newly;
            forall i :: 0 <= i < |newly| ==> newly[i].hash in st.byHash && newly[i] == st.byHash[newly[i].hash]
  {
  }

  // ---------------------------------------------------------------- announced rounds

  /** The rounds the batcher was told, in order. */
  function RoundsOf(log: seq<BatcherMsg>): seq<BatcherMsg> {
    if log == [] then []
    else RoundsOf(log[..|log| - 1]) + if log[|log| - 1].NewRound? then [log[|log| - 1]] else []
  }

  lemma {:induction false} RoundsConcat(a: seq<BatcherMsg>, b: seq<BatcherMsg>)
    ensures RoundsOf(a + b) == RoundsOf(a) + RoundsOf(b)
  {
    if b == [] {
      assert a + b == a;
    } else {
      assert (a + b)[..|a + b| - 1] == a + b[..|b| - 1];
      RoundsConcat(a, b[..|b| - 1]);
    }
  }

  lemma {:induction false} NoticesNameNoRound(blocks: seq<Block>)
    ensures RoundsOf(NoticesOf(blocks)) == []
  {
    if blocks != [] {
      NoticesNameNoRound(blocks[..|blocks| - 1]);
      var b := blocks[|blocks| - 1];
      if b.batch.BatchDigest? {
        RoundsOne(Committed(b.batch.payload, b.header.height));
        RoundsConcat(NoticesOf(blocks[..|blocks| - 1]), [Committed(b.batch.payload, b.header.height)]);
      } else {
        assert NoticesOf(blocks) == NoticesOf(blocks[..|blocks| - 1]);
      }
    }
  }

  lemma RoundsOne(m: BatcherMsg)
    ensures RoundsOf([m]) == if m.NewRound? then [m] else []
  {
    assert [m][..0] == [] && RoundsOf([m][..0]) == [];
  }

  lemma NoRounds()
    ensures RoundsOf([]) == []
  {
  }

  // ---------------------------------------------------------------- the chain

  function HeightOf(h: Hash): nat {
    if h.EmptyHash? then 0 else h.header.height
  }

  /** One chain, without gaps: each block extends the one before it. */
  ghost predicate ChainOk(c: seq<Block>) {
    && |c| >= 1 && c[0] == GENESIS
    && (forall i :: 0 < i < |c| ==> Finalized(c[i]))
    && (forall i :: 0 < i < |c| ==> c[i].header.prev == c[i - 1].hash)
    && (forall i :: 0 < i < |c| ==> c[i].header.height == i)
    && (forall i :: 0 < i < |c| ==> c[i].batch.BatchDigest?)
  }

  predicate HonestHash(c: seq<Block>, h: Hash) {
    HeightOf(h) < |c| && c[HeightOf(h)].hash == h
  }

  predicate HonestBlock(c: seq<Block>, b: Block) {
    b.header.height < |c| && c[b.header.height] == b
  }

  ghost function InChain(c: seq<Block>): Block -> bool {
    b => HonestBlock(c, b)
  }

  lemma ChainExtends(c: seq<Block>, b: Block)
    requires ChainOk(c) && Finalized(b) && b.batch.BatchDigest?
    requires b.header.prev == c[|c| - 1].hash && b.header.height == |c|
    ensures ChainOk(c + [b]) && HonestBlock(c + [b], b)
  {
  }

  lemma ChainDistinct(c: seq<Block>, i: nat, j: nat)
    requires ChainOk(c) && i < |c| && j < |c| && c[i].hash == c[j].hash
    ensures i == j
  {
    assert i > 0 ==> Finalized(c[i]);
    assert j > 0 ==> Finalized(c[j]);
  }

  lemma ChainDiffer(c: seq<Block>, i: nat, j: nat)
    requires ChainOk(c) && i < |c| && j < |c| && i != j
    ensures c[i].hash != c[j].hash
  {
    assert i > 0 ==> Finalized(c[i]);
    assert j > 0 ==> Finalized(c[j]);
  }

  lemma ChainHash(c: seq<Block>, b: Block)
    requires ChainOk(c) && HonestBlock(c, b)
    ensures HonestHash(c, b.hash) && HeightOf(b.hash) == b.header.height
  {
  }

  /** The i-th announced block is the i-th block of the chain. */
  lemma {:induction false} EmittedAt(hs: seq<Hash>, c: seq<Block>, i: nat)
    requires ChainOk(c) && NoRepeats(hs) && ParentFirst({}, hs) && i < |hs|
    requires forall k :: 0 <= k < |hs| ==> HonestHash(c, hs[k])
    ensures HeightOf(hs[i]) == i
    decreases i
  {
    forall k | 0 <= k < i ensures HeightOf(hs[k]) == k {
      EmittedAt(hs, c, k);
    }
    var h := HeightOf(hs[i]);
    assert HonestHash(c, hs[i]);
    assert h < i ==> HonestHash(c, hs[h]);
    if h > i {
      assert Finalized(c[h]);
      assert Prev(hs[i]) == c[h - 1].hash;
      assert Prev(hs[i]) in hs[..i];
      var k :| 0 <= k < i && hs[..i][k] == c[h - 1].hash;
      assert HonestHash(c, hs[k]);
      ChainDistinct(c, k, h - 1);
    }
  }

  /** Genesis first, then each block on top of the one before it. */
  ghost predicate Linked(bs: seq<Block>) {
    && (bs != [] ==> bs[0] == GENESIS)
    && forall i :: 0 < i < |bs| ==> bs[i].header.prev == bs[i - 1].hash && bs[i].header.height == i
  }

  lemma LinkedPrefix(c: seq<Block>, bs: seq<Block>)
    requires ChainOk(c) && bs <= c
    ensures Linked(bs)
  {
  }

  lemma PayloadsPrefix(a: seq<Block>, b: seq<Block>)
    requires a <= b
    ensures PayloadsOf(a) <= PayloadsOf(b)
  {
    assert b == a + b[|a|..];
    PayloadsConcat(a, b[|a|..]);
  }

  /** The batch of the block at height `r`. */
  function PayloadAt(c: seq<Block>, r: nat): Batch {
    if r < |c| && c[r].batch.BatchDigest? then c[r].batch.payload else []
  }

  /** The batches of the first `m` blocks, genesis left out. */
  lemma {:induction false} RouterIs(c: seq<Block>, m: nat)
    requires ChainOk(c) && 1 <= m <= |c|
    ensures |PayloadsOf(c[..m])| == m - 1
    ensures forall k :: 0 <= k < m - 1 ==> PayloadsOf(c[..m])[k] == PayloadAt(c, k + 1)
    decreases m
  {
    var b := c[..m][m - 1];
    assert c[..m][..m - 1] == c[..m - 1];
    if m > 1 {
      RouterIs(c, m - 1);
    } else {
      assert PayloadsOf(c[..0]) == [];
    }
  }

  /** `c'` is `c` with one more block for each of these batches, in their order. */
  ghost predicate Appended(c: seq<Block>, c': seq<Block>, q: seq<(BatchHash, Batch)>) {
    c <= c' && |c'| == |c| + |q| && forall i :: 0 <= i < |q| ==> PayloadAt(c', |c| + i) == q[i].1
  }

  lemma AppendedNext(c: seq<Block>, b: Block, c': seq<Block>, q: seq<(BatchHash, Batch)>)
    requires q != [] && b.batch == BatchDigest(q[0].1) && Appended(c + [b], c', q[1..])
    ensures Appended(c, c', q)
  {
    forall i | 0 <= i < |q| ensures PayloadAt(c', |c| + i) == q[i].1 {
      if i == 0 {
        assert c'[|c|] == b;
      } else {
        assert PayloadAt(c', |c + [b]| + (i - 1)) == q[1..][i - 1].1;
      }
    }
  }
}
