/**
 The round-robin batcher task: it owns the pool and turns timer, client and
 consensus events into sealed batches.
 */
module RRBatcher {
  import opened Transactions
  import opened BatcherSpec
  import opened TxPool

  class RoundRobin {
    const myId: Replica
    var currentLeader: Replica
    var currentRound: Round
    var proposed: bool
    const pool: Txpool
    /** Everything sent on the outgoing channel. */
    var outgoing: seq<Batch>

    ghost function View(): Batcher
      reads this, pool
    {
      Batcher(myId, currentLeader, currentRound, proposed, pool.View())
    }

    ghost predicate Valid()
      reads this, pool
    {
      pool.Valid()
    }

    constructor (myId: Replica, initialLeader: Replica, batchSize: nat)
      ensures Valid() && fresh(pool) && outgoing == []
      ensures View() == NewBatcher(myId, initialLeader, batchSize)
    {
      this.myId := myId;
      currentLeader, currentRound, proposed := initialLeader, 0, false;
      outgoing := [];
      pool := new Txpool(batchSize);
    }

    /** Seals and, unless the batch is empty, sends. */
    method SealAndSend()
      requires Valid()
      modifies this, pool
      ensures Valid()
      ensures View() == SealNow(old(View())).0
      ensures outgoing == old(outgoing) + SealNow(old(View())).1
    {
      var payload := pool.MakeBatch(currentRound);
      if payload != [] {
        proposed := true;
        outgoing := outgoing + [payload];
      }
    }

    method OnTick()
      requires Valid()
      modifies this, pool
      ensures Valid()
      ensures View() == Step(old(View()), Tick).0
      ensures outgoing == old(outgoing) + Step(old(View()), Tick).1
    {
      if myId == currentLeader && !proposed {
        SealAndSend();
      }
    }

    method OnTx(tx: Tx, size: nat)
      requires Valid()
      modifies this, pool
      ensures Valid()
      ensures View() == Step(old(View()), ClientTx(tx, size)).0
      ensures outgoing == old(outgoing) + Step(old(View()), ClientTx(tx, size)).1
    {
      var canPropose := myId == currentLeader && !proposed;
      pool.AddTx(tx, size);
      var ready := pool.IsReady();
      if canPropose && ready {
        SealAndSend();
      }
    }

    method TryPropose()
      requires Valid()
      modifies this, pool
      ensures Valid()
      ensures View() == SealIfReady(old(View())).0
      ensures outgoing == old(outgoing) + SealIfReady(old(View())).1
    {
      var ready := pool.IsReady();
      if myId == currentLeader && !proposed && ready {
        SealAndSend();
      }
    }

    method OnConsensus(msg: BatcherMsg)
      requires Valid()
      modifies this, pool
      ensures Valid()
      ensures View() == Step(old(View()), FromConsensus(msg)).0
      ensures outgoing == old(outgoing) + Step(old(View()), FromConsensus(msg)).1
    {
      match msg
      case NewRound(leader, round) =>
        currentLeader, currentRound, proposed := leader, round, false;
        TryPropose();
      case Proposed(batch, round) => pool.AdmitProposal(batch, round);
      case Committed(batch, round) => pool.Commit(batch, round);
      case RolledBack(rounds) => pool.Rollback(rounds);
    }
  }
}
