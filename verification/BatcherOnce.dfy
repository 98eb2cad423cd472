/**
 What a batcher never seals: a key it has been told about.
 */
module BatcherOnce {
  import opened Transactions
  import opened PoolSpec
  import opened PoolLaws
  import PoolRuns
  import opened BatcherSpec

  /** The pool will not seal this key: it is in flight or at or below the watermark. */
  predicate Handled(p: Pool, k: Key) {
    Subsumed(p.high, k) || k in p.inflight
  }

  ghost predicate AllHandled(p: Pool, ks: set<Key>) {
    forall k :: k in ks ==> Handled(p, k)
  }

  predicate NoDuplicates(batch: Batch) {
    forall i, j :: 0 <= i < j < |batch| ==> KeyOf(batch[i]) != KeyOf(batch[j])
  }

  /** Nothing but a rollback makes a handled key mineable again. */
  lemma StaysHandled(p: Pool, e: PoolRuns.Event, ks: set<Key>)
    requires PoolInv(p) && AllHandled(p, ks) && !e.RollbackEvent?
    ensures AllHandled(PoolRuns.After(p, e), ks) && PoolInv(PoolRuns.After(p, e))
  {
    PoolRuns.StepKeepsInv(p, e);
    hide PoolInv, PoolRuns.After;
    forall k | k in ks ensures Handled(PoolRuns.After(p, e), k) {
      HandledPhase(p, k);
      PoolRuns.PhaseMoves(p, e, k);
      HandledPhase(PoolRuns.After(p, e), k);
    }
  }

  lemma HandledPhase(p: Pool, k: Key)
    requires PoolInv(p)
    ensures Handled(p, k) <==> PoolRuns.PhaseOf(p, k).Done? || PoolRuns.PhaseOf(p, k).Flying?
  {
  }

  lemma HandledUnion(p: Pool, a: set<Key>, b: set<Key>)
    requires AllHandled(p, a) && AllHandled(p, b)
    ensures AllHandled(p, a + b)
  {
  }

  lemma AdmitHandles(p: Pool, batch: Batch, round: Round)
    ensures AllHandled(Admit(p, batch, round), Keys(batch))
  {
  }

  /** A sealed batch has no duplicates and nothing that was handled before. */
  lemma SealIsNew(p: Pool, round: Round, ks: set<Key>)
    requires PoolInv(p) && AllHandled(p, ks)
    ensures Keys(MakeBatch(p, round).1) !! ks && NoDuplicates(MakeBatch(p, round).1)
  {
    forall k | k in ks ensures k !in Keys(MakeBatch(p, round).1) {
      PoolRuns.SealMoves(p, round, k);
      HandledPhase(p, k);
    }
    PayloadDistinct(p, round);
  }

  lemma PayloadDistinct(p: Pool, round: Round)
    requires PoolInv(p)
    ensures NoDuplicates(MakeBatch(p, round).1)
  {
    var ks := Seal(p.mineable, p.batchSize);
    SealedKeysAreMineable(p.mineable, p.batchSize);
    SealIsSeal(p.mineable, p.batchSize);
    var payload := MakeBatch(p, round).1;
    forall i | 0 <= i < |ks| ensures KeyOf(payload[i]) == ks[i] {
      assert ks[i] in ks;
    }
    forall i, j | 0 <= i < j < |payload| ensures KeyOf(payload[i]) != KeyOf(payload[j]) {
      assert Before(ks[i], ks[j]);
    }
  }

  /** What a batch that leaves the batcher promises about keys handled before. */
  ghost predicate NewBatch(sent: seq<Batch>, ks: set<Key>) {
    |sent| <= 1 && (sent != [] ==> Keys(sent[0]) !! ks && NoDuplicates(sent[0]))
  }

  lemma SealNowIsNew(b: Batcher, ks: set<Key>)
    requires PoolInv(b.pool) && AllHandled(b.pool, ks)
    ensures NewBatch(SealNow(b).1, ks) && AllHandled(SealNow(b).0.pool, ks)
  {
    hide PoolInv, AllHandled, NoDuplicates, MakeBatch;
    SealIsNew(b.pool, b.round, ks);
    SealStaysHandled(b.pool, b.round, ks);
  }

  lemma SealStaysHandled(p: Pool, round: Round, ks: set<Key>)
    requires PoolInv(p) && AllHandled(p, ks)
    ensures AllHandled(MakeBatch(p, round).0, ks)
  {
    StaysHandled(p, PoolRuns.SealEvent(round), ks);
  }

  lemma SealIfReadyIsNew(b: Batcher, ks: set<Key>)
    requires PoolInv(b.pool) && AllHandled(b.pool, ks)
    ensures NewBatch(SealIfReady(b).1, ks) && AllHandled(SealIfReady(b).0.pool, ks)
  {
    hide PoolInv, AllHandled, NoDuplicates, SealNow;
    SealNowIsNew(b, ks);
  }

  predicate NotRollback(input: Input) {
    input.FromConsensus? ==> !input.msg.RolledBack?
  }

  lemma ClientIsNew(b: Batcher, tx: Tx, size: nat, ks: set<Key>)
    requires PoolInv(b.pool) && AllHandled(b.pool, ks)
    ensures NewBatch(Step(b, ClientTx(tx, size)).1, ks) && AllHandled(Step(b, ClientTx(tx, size)).0.pool, ks)
  {
    StaysHandled(b.pool, PoolRuns.AddTxEvent(tx, size), ks);
    hide PoolInv, AllHandled, NoDuplicates, SealIfReady;
    SealIfReadyIsNew(b.(pool := AddTx(b.pool, tx, size)), ks);
  }

  /** Whatever happens, handled keys stay handled and are in no batch that is sent. */
  lemma StepIsNew(b: Batcher, input: Input, ks: set<Key>)
    requires PoolInv(b.pool) && AllHandled(b.pool, ks) && NotRollback(input)
    ensures NewBatch(Step(b, input).1, ks) && AllHandled(Step(b, input).0.pool, ks)
  {
    match input
    case Tick =>
      hide PoolInv, AllHandled, SealNow, NoDuplicates;
      SealNowIsNew(b, ks);
    case ClientTx(tx, size) =>
      hide *;
      ClientIsNew(b, tx, size, ks);
    case FromConsensus(msg) =>
      match msg {
        case NewRound(leader, round) =>
          hide PoolInv, AllHandled, SealIfReady, NoDuplicates;
          SealIfReadyIsNew(b.(leader := leader, round := round, proposed := false), ks);
        case Proposed(batch, round) => StaysHandled(b.pool, PoolRuns.AdmitEvent(batch, round), ks);
        case Committed(batch, round) => StaysHandled(b.pool, PoolRuns.CommitEvent(batch, round), ks);
      }
  }

  /** How a step moves the epoch of the batcher. */
  ghost predicate EpochMoves(b: Batcher, input: Input, t: Batcher, sent: seq<Batch>) {
    && t.me == b.me
    && (sent != [] ==> t.leader == t.me && t.proposed)
    && if IsNewRound(input) then
         t.leader == input.msg.leader && t.round == input.msg.round && t.proposed == (sent != [])
       else
         t.leader == b.leader && t.round == b.round && t.proposed == (b.proposed || sent != []) &&
             (sent != [] ==> !b.proposed)
  }

  lemma StepEpoch(b: Batcher, input: Input)
    ensures EpochMoves(b, input, Step(b, input).0, Step(b, input).1)
  {
    hide MakeBatch, PoolSpec.Ready, Admit, Commit, Rollback, AddTx;
  }

  // ---------------------------------------------------------------- when a batch is sent

  /** The guard of sealing on a timer tick or a client's transaction: it is this node's turn, the batch size is
      not 0, and there is something to seal, on a transaction more than the batch size. */
  ghost predicate WouldSeal(b: Batcher, input: Input)
    requires !input.FromConsensus?
  {
    var p := if input.ClientTx? then AddTx(b.pool, input.tx, input.size) else b.pool;
    CanPropose(b) && p.batchSize > 0 && p.mineable != map[] && (input.Tick? || Ready(p))
  }

  lemma MakeBatchEmptyIff(p: Pool, round: Round)
    ensures MakeBatch(p, round).1 == [] <==> p.batchSize == 0 || p.mineable == map[]
  {
    SealedKeysAreMineable(p.mineable, p.batchSize);
  }

  lemma SealsIff(b: Batcher, input: Input)
    requires !input.FromConsensus?
    ensures Step(b, input).1 != [] <==> WouldSeal(b, input)
  {
    hide MakeBatch, Ready, AddTx;
    var p := if input.ClientTx? then AddTx(b.pool, input.tx, input.size) else b.pool;
    MakeBatchEmptyIff(p, b.round);
  }
}
