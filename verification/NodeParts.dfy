/**
 The tables every replica keeps, and the two loops of a commit that work on
 them: the block index with the walk back, and the batch cache in front of the
 batch store with the announcing of committed batches.
 */
module NodeParts {
  import opened Transactions
  import opened BatcherSpec
  import opened Blocks

  function Reversed(bs: seq<Block>): (r: seq<Block>)
    ensures |r| == |bs| && forall i :: 0 <= i < |bs| ==> r[i] == bs[|bs| - 1 - i]
  {
    seq(|bs|, i requires 0 <= i < |bs| => bs[|bs| - 1 - i])
  }

  class BlockIndex {
    var delivered: map<Hash, Block>
    var deliveredAt: map<nat, Block>
    var committed: set<Hash>
    var committedAt: set<nat>

    ghost function View(): Storage
      reads this
    {
      Storage(delivered, deliveredAt, committed, committedAt)
    }

    constructor ()
      ensures View() == Storage(map[], map[], {}, {})
    {
      delivered, deliveredAt, committed, committedAt := map[], map[], {}, {};
    }

    method AddDeliveredBlock(b: Block)
      modifies this
      ensures View() == AddDelivered(old(View()), b)
    {
      delivered := delivered[b.hash := b];
      deliveredAt := deliveredAt[b.header.height := b];
    }

    method AddCommittedBlock(b: Block)
      modifies this
      ensures View() == AddCommitted(old(View()), b)
    {
      committed := committed + {b.hash};
      committedAt := committedAt + {b.header.height};
    }

    /** The walk back from `start`, newest block first.  It fails at the first block that is not stored and then
        leaves the blocks it has passed marked as committed. */
    method CommitBack(start: Hash) returns (ok: bool, newly: seq<Block>)
      requires forall h :: h in delivered ==> delivered[h].hash == h
      modifies this
      ensures ok == WalkBack(old(View()), start).Walked?
      ensures ok ==> WalkBack(old(View()), start) == Walked(View(), Reversed(newly))
      ensures delivered == old(delivered) && deliveredAt == old(deliveredAt) && old(committed) <= committed
    {
      ghost var st := View();
      var h := start;
      newly := [];
      while h !in committed
        invariant delivered == st.byHash && deliveredAt == st.byHeight && st.committed <= committed
        invariant WalkBack(View(), h).Walked? == WalkBack(st, start).Walked?
        invariant WalkBack(st, start).Walked? ==>
                    && WalkBack(st, start).st == WalkBack(View(), h).st
                    && WalkBack(st, start).newly == WalkBack(View(), h).newly + Reversed(newly)
        decreases delivered.Keys - committed
      {
        if h !in delivered {
          return false, newly;
        }
        var b := delivered[h];
        ghost var rest := WalkBack(AddCommitted(View(), b), b.header.prev);
        assert [b] + Reversed(newly) == Reversed(newly + [b]);
        AddCommittedBlock(b);
        h := b.header.prev;
        newly := newly + [b];
      }
      ok := true;
    }
  }

  class BatchTable {
    var entries: map<BatchHash, Batch>
    var store: map<BatchHash, Batch>

    ghost function View(): Batches
      reads this
    {
      Batches(entries, store)
    }

    constructor (store: map<BatchHash, Batch>)
      ensures View() == Batches(map[], store)
    {
      entries := map[];
      this.store := store;
    }

    /** First writer wins; under content addressing nobody can tell. */
    method Insert(h: BatchHash, batch: Batch)
      modifies this
      ensures View() == CacheInsert(old(View()), h, batch)
    {
      if h in entries {
        return;
      }
      entries := entries[h := batch];
    }

    method PersistBatch(h: BatchHash, batch: Batch)
      modifies this
      ensures View() == Persist(old(View()), h, batch)
    {
      Insert(h, batch);
      store := store[h := batch];
    }

    /** Cache first, then the store; a store hit fills the cache. */
    method ReadCached(h: BatchHash) returns (got: Option<Batch>)
      modifies this
      ensures (got, View()) == ReadBatch(old(View()), h)
    {
      if h in entries {
        return Some(entries[h]);
      }
      if h in store {
        got := Some(store[h]);
        Insert(h, store[h]);
      } else {
        got := None;
      }
    }

    /** Given the committed blocks newest first, what goes to the batcher and to the router, oldest first. */
    method Announce(newly: seq<Block>) returns (toBatcher: seq<BatcherMsg>, toRouter: seq<Batch>)
      modifies this
      ensures Emission(View(), toBatcher, toRouter) == EmitAll(old(View()), Reversed(newly))
    {
      ghost var start := View();
      var blocks := Reversed(newly);
      toBatcher, toRouter := [], [];
      for k := 0 to |blocks|
        invariant Emission(View(), toBatcher, toRouter) == EmitAll(start, blocks[..k])
      {
        assert blocks[..k + 1][..k] == blocks[..k];
        var b := blocks[k];
        var got := ReadCached(b.batch);
        if got.None? {
          continue;
        }
        toBatcher := toBatcher + [Committed(got.value, b.header.height)];
        toRouter := toRouter + [got.value];
      }
      assert blocks[..|blocks|] == blocks;
    }
  }
}
