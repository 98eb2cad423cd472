/**
 The pool as the batcher owns it: five tables updated in place.  Each method is
 proved to have exactly the effect its event has in `PoolSpec`, and to keep the
 byte counter equal to the total size of the mineable transactions.
 */
module TxPool {
  import opened Transactions
  import opened PoolSpec
  import opened PoolLaws
  import opened PoolSteps

  class Txpool {
    var mineable: map<Key, Pending>
    var mineableBytes: nat
    var inflight: map<Key, InFlight>
    var inflightByRound: map<Round, set<Key>>
    var highCommittedNonce: map<ClientId, Nonce>
    const batchSize: nat

    ghost function View(): Pool
      reads this
    {
      Pool(mineable, inflight, inflightByRound, highCommittedNonce, batchSize)
    }

    /** The byte counter is exact. */
    ghost predicate Counted()
      reads this
    {
      mineableBytes == Bytes(mineable)
    }

    ghost predicate Valid()
      reads this
    {
      PoolInv(View()) && Counted()
    }

    constructor (batchSize: nat)
      ensures Valid() && View() == EmptyPool(batchSize)
    {
      mineable, mineableBytes, inflight := map[], 0, map[];
      inflightByRound, highCommittedNonce := map[], map[];
      this.batchSize := batchSize;
    }

    method AddTx(tx: Tx, size: nat)
      requires Valid()
      modifies this
      ensures Valid() && View() == PoolSpec.AddTx(old(View()), tx, size)
    {
      var k := KeyOf(tx);
      if tx.nonce <= Mark(highCommittedNonce, tx.client) {
        return;
      }
      if k in inflight {
        return;
      }
      AddTxInv(View(), tx, size);
      BytesPut(mineable, k, Pending(tx, size));
      if k in mineable {
        BytesRemove(mineable, k);
        mineableBytes := mineableBytes - mineable[k].size;
      }
      mineable := mineable[k := Pending(tx, size)];
      mineableBytes := mineableBytes + size;
    }

    /** Removes one mineable key, if present. */
    method Forget(k: Key) returns (e: Option<Pending>)
      requires Counted()
      modifies this`mineable, this`mineableBytes
      ensures mineable == old(mineable) - {k} && Counted()
      ensures e == if k in old(mineable) then Some(old(mineable)[k]) else None
    {
      if k in mineable {
        BytesRemove(mineable, k);
        e := Some(mineable[k]);
        mineableBytes := mineableBytes - mineable[k].size;
        mineable := mineable - {k};
      } else {
        e := None;
        assert mineable - {k} == mineable;
      }
    }

    method AdmitProposal(batch: Batch, round: Round)
      requires Valid()
      modifies this
      ensures Valid() && View() == Admit(old(View()), batch, round)
    {
      ghost var p := View();
      AdmitInv(p, batch, round);
      AdmitNothing(p, round);
      inflightByRound := inflightByRound[round := AtRound(inflightByRound, round)];
      for i := 0 to |batch|
        invariant View() == Admit(p, batch[..i], round) && Counted()
      {
        assert batch[..i + 1] == batch[..i] + [batch[i]];
        AdmitSnoc(p, batch[..i], batch[i], round);
        AdmitOne(batch[i], round);
      }
      assert batch[..|batch|] == batch;
    }

    method AdmitOne(tx: Tx, round: Round)
      requires Counted()
      modifies this
      ensures Counted() && View() == AdmittedOne(old(View()), tx, round)
    {
      var k := KeyOf(tx);
      if tx.nonce <= Mark(highCommittedNonce, tx.client) {
        return;
      }
      if k in inflight {
        return;
      }
      var known := Forget(k);
      var size := if known.Some? then known.value.size else SerializedSize(tx);
      inflight := inflight[k := InFlight(tx, size, round)];
      inflightByRound := inflightByRound[round := AtRound(inflightByRound, round) + {k}];
    }

    /** The ordered map's first key. */
    method FirstKey() returns (k: Key)
      requires mineable != map[]
      ensures IsMin(mineable, k)
    {
      MinExists(mineable);
      k :| IsMin(mineable, k);
    }

    method MakeBatch(round: Round) returns (payload: Batch)
      requires Valid()
      modifies this
      ensures Valid()
      ensures (View(), payload) == PoolSpec.MakeBatch(old(View()), round)
    {
      MakeBatchInv(View(), round);
      PromoteNothing(View(), round);
      inflightByRound := inflightByRound[round := AtRound(inflightByRound, round)];
      SealIsSeal(mineable, batchSize);
      payload := Fill(round, old(View()), Seal(mineable, batchSize));
    }

    /** Pops smallest keys until the byte budget is reached. */
    method Fill(round: Round, ghost p: Pool, ghost ks: seq<Key>) returns (payload: Batch)
      requires IsSeal(p.mineable, p.batchSize, ks)
      requires View() == Promote(p, {}, round) && Counted()
      modifies this
      ensures View() == Promote(p, KeySet(ks), round) && Counted()
      ensures payload == Payload(p.mineable, ks)
    {
      hide Filled, IsSeal, Counted, Payload, AtRound;
      payload := [];
      var batchBytes: nat := 0;
      ghost var n := 0;
      FilledStart(p, ks, round);
      while batchBytes < batchSize && mineable != map[]
        invariant n <= |ks| && Filled(p, ks, n, round, View(), batchBytes, payload) && Counted()
        invariant batchSize == p.batchSize
        decreases |ks| - n
      {
        FilledGoesOn(p, ks, n, round, View(), batchBytes, payload);
        ghost var q := View();
        var e := PopFirst(round, ks[n]);
        FilledStep(p, ks, n, round, q, batchBytes, payload);
        payload := payload + [e.tx];
        batchBytes := batchBytes + e.size;
        n := n + 1;
      }
      FilledEnd(p, ks, n, round, View(), batchBytes, payload);
    }

    method PopFirst(round: Round, ghost min: Key) returns (e: Pending)
      requires Counted() && IsMin(mineable, min)
      modifies this
      ensures Counted() && e == old(mineable)[min]
      ensures View() == PromotedOne(old(View()), min, round)
    {
      var k := FirstKey();
      assert k == min;
      var got := Forget(k);
      e := got.value;
      inflight := inflight[k := InFlight(e.tx, e.size, round)];
      inflightByRound := inflightByRound[round := AtRound(inflightByRound, round) + {k}];
    }

    method Commit(batch: Batch, round: Round)
      requires Valid()
      modifies this
      ensures Valid() && View() == PoolSpec.Commit(old(View()), batch, round)
    {
      ghost var p := View();
      CommitInv(p, batch, round);
      SettleNothing(p);
      var touched: set<ClientId> := {};
      for i := 0 to |batch|
        invariant touched == Clients(batch[..i])
        invariant View() == Settled(p, batch[..i]) && Counted()
      {
        assert batch[..i + 1] == batch[..i] + [batch[i]];
        KeysSnoc(batch[..i], batch[i]);
        SettledSnoc(p, batch[..i], batch[i]);
        touched := touched + {batch[i].client};
        SettleOne(batch[i]);
      }
      assert batch[..|batch|] == batch;
      SweptSettles(p, batch);
      Sweep(touched);
      if round in inflightByRound && inflightByRound[round] == {} {
        inflightByRound := inflightByRound - {round};
      }
    }

    method SettleOne(tx: Tx)
      requires Counted()
      modifies this
      ensures Counted() && View() == SettledOne(old(View()), tx)
    {
      var k := KeyOf(tx);
      if k in inflight {
        var r := inflight[k].round;
        inflight := inflight - {k};
        if r in inflightByRound {
          inflightByRound := inflightByRound[r := inflightByRound[r] - {k}];
        }
      }
      var _ := Forget(k);
      var cur := Mark(highCommittedNonce, tx.client);
      highCommittedNonce := highCommittedNonce[tx.client := if tx.nonce > cur then tx.nonce else cur];
    }

    /** Drops the stale keys of every touched client. */
    method Sweep(touched: set<ClientId>)
      requires Counted()
      modifies this`mineable, this`mineableBytes
      ensures mineable == Swept(old(mineable), highCommittedNonce, touched) && Counted()
    {
      ghost var start := mineable;
      var todo := touched;
      assert mineable == Swept(start, highCommittedNonce, touched - todo);
      while todo != {}
        invariant todo <= touched
        invariant mineable == Swept(start, highCommittedNonce, touched - todo) && Counted()
        decreases |todo|
      {
        var c :| c in todo;
        SweptOne(start, highCommittedNonce, touched - todo, c);
        assert touched - (todo - {c}) == (touched - todo) + {c};
        todo := todo - {c};
        SweepClient(c);
      }
      assert touched - todo == touched;
    }

    method SweepClient(c: ClientId)
      requires Counted()
      modifies this`mineable, this`mineableBytes
      ensures mineable == old(mineable) - StaleOf(old(mineable), highCommittedNonce, c) && Counted()
    {
      ghost var start := mineable;
      var stale := StaleOf(mineable, highCommittedNonce, c);
      ghost var all := stale;
      assert start - (all - stale) == start;
      while stale != {}
        invariant stale <= all
        invariant mineable == start - (all - stale) && Counted()
        decreases |stale|
      {
        var k :| k in stale;
        assert start - (all - (stale - {k})) == start - (all - stale) - {k};
        stale := stale - {k};
        var _ := Forget(k);
      }
      assert all - stale == all;
    }

    method Rollback(rounds: seq<Round>)
      requires Valid()
      modifies this
      ensures Valid() && View() == PoolSpec.Rollback(old(View()), rounds)
    {
      ghost var p := View();
      RollbackNothing(p);
      for i := 0 to |rounds|
        invariant Valid() && View() == PoolSpec.Rollback(p, rounds[..i])
      {
        assert rounds[..i + 1] == rounds[..i] + [rounds[i]];
        RollbackSnoc(p, rounds[..i], rounds[i]);
        RollbackRound(rounds[i]);
      }
      assert rounds[..|rounds|] == rounds;
    }

    method RollbackRound(r: Round)
      requires Valid()
      modifies this
      ensures Valid() && View() == PoolSpec.Rollback(old(View()), [r])
    {
      RollbackInv(View(), [r]);
      RollbackIndexed(View(), r);
      if r in inflightByRound {
        var keys := inflightByRound[r];
        inflightByRound := inflightByRound - {r};
        ReturnAll(keys);
      }
    }

    method ReturnAll(all: set<Key>)
      requires Counted() && all <= inflight.Keys && all !! mineable.Keys
      modifies this`mineable, this`mineableBytes, this`inflight
      ensures Counted() && View() == Back(old(View()), all)
    {
      ghost var p := View();
      var keys := all;
      BackNothing(p);
      assert all - keys == {};
      while keys != {}
        invariant keys <= all
        invariant View() == Back(p, all - keys) && Counted()
        decreases |keys|
      {
        var k :| k in keys;
        BackOne(p, all - keys, k);
        assert all - (keys - {k}) == (all - keys) + {k};
        keys := keys - {k};
        ReturnOne(k);
      }
      assert all - keys == all;
    }

    method ReturnOne(k: Key)
      requires Counted() && k in inflight && k !in mineable
      modifies this`mineable, this`mineableBytes, this`inflight
      ensures Counted() && View() == ReturnedOne(old(View()), k)
    {
      var e := inflight[k];
      inflight := inflight - {k};
      if k.nonce > Mark(highCommittedNonce, k.client) {
        BytesPut(mineable, k, Pending(e.tx, e.size));
        mineable := mineable[k := Pending(e.tx, e.size)];
        mineableBytes := mineableBytes + e.size;
      }
    }

    method IsReady() returns (b: bool)
      requires Valid()
      ensures b == Ready(View())
    {
      b := mineableBytes > batchSize;
    }

    method KeySetsDisjoint() returns (b: bool)
      ensures b == (mineable.Keys !! inflight.Keys)
      ensures Valid() ==> b
    {
      b := forall k :: k in mineable.Keys ==> k !in inflight.Keys;
    }
  }
}
