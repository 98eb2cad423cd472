/**
 What the batcher does to the life of every key, and exactly when and what it
 sends: its runs, seen from outside.
 */
module BatcherRuns {
  import opened Transactions
  import opened PoolSpec
  import opened PoolLaws
  import PoolRuns
  import opened BatcherSpec
  import opened BatcherOnce

  // ---------------------------------------------------------------- when and what is sent

  /** The pool that the input finds when it comes to sealing. */
  function PoolFor(b: Batcher, input: Input): Pool {
    if input.ClientTx? then AddTx(b.pool, input.tx, input.size) else b.pool
  }

  /** A new round of this node's own is used at once if more than a batch is waiting. */
  lemma NewRoundSealsIff(b: Batcher, leader: Replica, round: Round)
    ensures Step(b, FromConsensus(NewRound(leader, round))).1 != [] <==>
            leader == b.me && b.pool.batchSize > 0 && Bytes(b.pool.mineable) > b.pool.batchSize
  {
    hide MakeBatch;
    MakeBatchEmptyIff(b.pool, round);
    assert b.pool.mineable == map[] ==> Bytes(b.pool.mineable) == 0;
  }

  lemma NoticesAreSilent(b: Batcher, msg: BatcherMsg)
    requires !msg.NewRound?
    ensures Step(b, FromConsensus(msg)).1 == []
  {
  }

  lemma SealNowSends(b: Batcher, ks: seq<Key>)
    requires PoolInv(b.pool) && SealNow(b).1 != [] && IsSeal(b.pool.mineable, b.pool.batchSize, ks)
    ensures forall k :: k in ks ==> k in b.pool.mineable
    ensures SealNow(b).1 == [Payload(b.pool.mineable, ks)] && SealNow(b).0.round == b.round
    ensures forall k :: k in ks ==> PoolRuns.PhaseOf(SealNow(b).0.pool, k) == PoolRuns.Flying(b.round)
  {
    SealIsSeal(b.pool.mineable, b.pool.batchSize);
    SealUnique(b.pool.mineable, b.pool.batchSize, ks, Seal(b.pool.mineable, b.pool.batchSize));
    hide IsSeal, PoolInv;
    SealedKeysAreMineable(b.pool.mineable, b.pool.batchSize);
    PoolRuns.SealedPayloadKeys(b.pool, b.round);
    forall k | k in ks ensures PoolRuns.PhaseOf(SealNow(b).0.pool, k) == PoolRuns.Flying(b.round) {
      assert k in KeySet(ks);
      PoolRuns.SealMoves(b.pool, b.round, k);
    }
  }

  /** What is sent is the seal of the pool, and it is in flight at the round of the epoch. */
  lemma SendsTheSeal(b: Batcher, input: Input, ks: seq<Key>)
    requires PoolInv(b.pool) && Step(b, input).1 != []
    requires var p := PoolFor(b, input); IsSeal(p.mineable, p.batchSize, ks)
    ensures forall k :: k in ks ==> k in PoolFor(b, input).mineable
    ensures Step(b, input).1 == [Payload(PoolFor(b, input).mineable, ks)]
    ensures forall k :: k in ks ==>
              PoolRuns.PhaseOf(Step(b, input).0.pool, k) == PoolRuns.Flying(Step(b, input).0.round)
  {
    hide PoolInv, SealNow, AddTx, IsSeal, Admit, Commit, Rollback, PoolRuns.PhaseOf, Ready, Payload;
    match input
    case Tick => SealNowSends(b, ks);
    case ClientTx(tx, size) =>
      AddTxInv(b.pool, tx, size);
      SealNowSends(b.(pool := AddTx(b.pool, tx, size)), ks);
    case FromConsensus(msg) =>
      if msg.NewRound? {
        SealNowSends(b.(leader := msg.leader, round := msg.round, proposed := false), ks);
      }
  }

  // ---------------------------------------------------------------- the life of a key, from outside

  /** The pool event behind an input, sealing aside. */
  function EventOf(input: Input): Option<PoolRuns.Event> {
    match input
    case Tick => None
    case ClientTx(tx, size) => Some(PoolRuns.AddTxEvent(tx, size))
    case FromConsensus(msg) =>
      match msg
      case NewRound(_, _) => None
      case Proposed(batch, round) => Some(PoolRuns.AdmitEvent(batch, round))
      case Committed(batch, round) => Some(PoolRuns.CommitEvent(batch, round))
      case RolledBack(rounds) => Some(PoolRuns.RollbackEvent(rounds))
  }

  /** Where an input takes a key: first what it says, then the seal that was sent in round `round`. */
  function Told(input: Input, sent: seq<Batch>, round: Round, k: Key, now: PoolRuns.Phase): PoolRuns.Phase {
    if sent != [] && k in Keys(sent[0]) then PoolRuns.Flying(round)
    else if EventOf(input).Some? then PoolRuns.Moved(EventOf(input).value, k, now, {})
    else now
  }

  lemma SealNowPhases(b: Batcher, k: Key)
    requires PoolInv(b.pool)
    ensures PoolRuns.PhaseOf(SealNow(b).0.pool, k) ==
            if SealNow(b).1 != [] && k in Keys(SealNow(b).1[0]) then PoolRuns.Flying(b.round)
            else PoolRuns.PhaseOf(b.pool, k)
  {
    hide PoolInv, MakeBatch, PoolRuns.PhaseOf;
    PoolRuns.SealMoves(b.pool, b.round, k);
    assert Keys([]) == {};
  }

  /** One step moves every key as the input and the batch that is sent say, and no other way. */
  lemma StepPhases(b: Batcher, input: Input, k: Key)
    requires PoolInv(b.pool)
    ensures var (t, sent) := Step(b, input);
            PoolRuns.PhaseOf(t.pool, k) == Told(input, sent, t.round, k, PoolRuns.PhaseOf(b.pool, k))
  {
    hide PoolInv, SealNow, AddTx, Admit, Commit, Rollback, PoolRuns.PhaseOf, Ready;
    SealNowRound(b);
    match input
    case Tick => SealNowPhases(b, k);
    case ClientTx(tx, size) =>
      AddTxInv(b.pool, tx, size);
      PoolRuns.ExactMoves(b.pool, PoolRuns.AddTxEvent(tx, size), k);
      SealNowPhases(b.(pool := AddTx(b.pool, tx, size)), k);
      SealNowRound(b.(pool := AddTx(b.pool, tx, size)));
    case FromConsensus(msg) =>
      match msg {
        case NewRound(leader, round) =>
          SealNowPhases(b.(leader := leader, round := round, proposed := false), k);
          SealNowRound(b.(leader := leader, round := round, proposed := false));
        case Proposed(batch, round) => PoolRuns.ExactMoves(b.pool, PoolRuns.AdmitEvent(batch, round), k);
        case Committed(batch, round) => PoolRuns.ExactMoves(b.pool, PoolRuns.CommitEvent(batch, round), k);
        case RolledBack(rounds) => PoolRuns.ExactMoves(b.pool, PoolRuns.RollbackEvent(rounds), k);
      }
  }

  lemma SealNowRound(b: Batcher)
    ensures SealNow(b).0.round == b.round
  {
  }

  /** The round the batcher was told last. */
  function RoundAfter(inputs: seq<Input>): Round {
    if inputs == [] then 0
    else if IsNewRound(inputs[|inputs| - 1]) then inputs[|inputs| - 1].msg.round
    else RoundAfter(inputs[..|inputs| - 1])
  }

  /** The life of a key as an observer of inputs and sent batches would write it down. */
  ghost function Life(b: Batcher, inputs: seq<Input>, k: Key): PoolRuns.Phase {
    if inputs == [] then (if k.nonce == 0 then PoolRuns.Done else PoolRuns.Unknown)
    else
      var n := |inputs| - 1;
      Told(inputs[n], SentAt(b, inputs, n), RoundAfter(inputs), k, Life(b, inputs[..n], k))
  }

  lemma {:induction false} RoundIsTold(me: Replica, first: Replica, size: nat, inputs: seq<Input>)
    ensures RunBatcher(NewBatcher(me, first, size), inputs).round == RoundAfter(inputs)
  {
    hide Step;
    if inputs != [] {
      var n := |inputs| - 1;
      RoundIsTold(me, first, size, inputs[..n]);
      StepEpoch(RunBatcher(NewBatcher(me, first, size), inputs[..n]), inputs[n]);
    }
  }

  /** Over every run the pool is where the observed history puts it, for every key. */
  lemma {:induction false} RunPhases(me: Replica, first: Replica, size: nat, inputs: seq<Input>, k: Key)
    ensures var b := NewBatcher(me, first, size);
            PoolRuns.PhaseOf(RunBatcher(b, inputs).pool, k) == Life(b, inputs, k)
  {
    var b := NewBatcher(me, first, size);
    EmptyPoolInv(size);
    if inputs != [] {
      hide PoolInv, Step, PoolRuns.PhaseOf, Told;
      var n := |inputs| - 1;
      RunPhases(me, first, size, inputs[..n], k);
      RunBatcherInv(b, inputs[..n]);
      StepPhases(RunBatcher(b, inputs[..n]), inputs[n], k);
      RoundIsTold(me, first, size, inputs);
    }
  }
}
