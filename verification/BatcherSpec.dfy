/**
 The round-robin batcher on values: one transition per event of its select loop.
 */
module BatcherSpec {
  import opened Transactions
  import opened PoolSpec
  import opened PoolLaws
  import PoolRuns

  /** What the consensus engine tells the batcher. */
  datatype BatcherMsg =
    | NewRound(leader: Replica, round: Round)
    | Proposed(batch: Batch, round: Round)
    | Committed(batch: Batch, round: Round)
    | RolledBack(rounds: seq<Round>)

  datatype Input = Tick | ClientTx(tx: Tx, size: nat) | FromConsensus(msg: BatcherMsg)

  datatype Batcher = Batcher(me: Replica, leader: Replica, round: Round, proposed: bool, pool: Pool)

  function NewBatcher(me: Replica, initialLeader: Replica, batchSize: nat): Batcher {
    Batcher(me, initialLeader, 0, false, EmptyPool(batchSize))
  }

  predicate CanPropose(b: Batcher) {
    b.me == b.leader && !b.proposed
  }

  /** Seals a batch for the current round; an empty batch is not sent. */
  ghost function SealNow(b: Batcher): (Batcher, seq<Batch>) {
    var (pool, payload) := MakeBatch(b.pool, b.round);
    if payload == [] then (b.(pool := pool), [])
    else (b.(pool := pool, proposed := true), [payload])
  }

  ghost function SealIfReady(b: Batcher): (Batcher, seq<Batch>) {
    if CanPropose(b) && Ready(b.pool) then SealNow(b) else (b, [])
  }

  /** The next state and the batches sent: none or one. */
  ghost function Step(b: Batcher, input: Input): (Batcher, seq<Batch>) {
    match input
    case Tick => if CanPropose(b) then SealNow(b) else (b, [])
    case ClientTx(tx, size) => SealIfReady(b.(pool := AddTx(b.pool, tx, size)))
    case FromConsensus(msg) =>
      match msg
      case NewRound(leader, round) => SealIfReady(b.(leader := leader, round := round, proposed := false))
      case Proposed(batch, round) => (b.(pool := Admit(b.pool, batch, round)), [])
      case Committed(batch, round) => (b.(pool := Commit(b.pool, batch, round)), [])
      case RolledBack(rounds) => (b.(pool := Rollback(b.pool, rounds)), [])
  }

  // ---------------------------------------------------------------- one step

  /** What sending a batch means: this node leads the epoch, it had not sent yet,
      the batch is not empty, and all of it is in flight at the epoch's round. */
  predicate Discipline(b: Batcher, sent: seq<Batch>) {
    |sent| <= 1 &&
    (sent != [] ==>
      && sent[0] != []
      && b.leader == b.me && b.proposed
      && forall k :: k in Keys(sent[0]) ==> k in b.pool.inflight && b.pool.inflight[k].round == b.round)
  }

  lemma SealNowDiscipline(b: Batcher)
    requires PoolInv(b.pool) && CanPropose(b)
    ensures Discipline(SealNow(b).0, SealNow(b).1) && PoolInv(SealNow(b).0.pool)
  {
    MakeBatchInv(b.pool, b.round);
    PoolRuns.SealedPayloadKeys(b.pool, b.round);
    SealedKeysAreMineable(b.pool.mineable, b.pool.batchSize);
  }

  lemma StepDiscipline(b: Batcher, input: Input)
    requires PoolInv(b.pool)
    ensures Discipline(Step(b, input).0, Step(b, input).1) && PoolInv(Step(b, input).0.pool)
  {
    hide PoolInv, AddTx, Admit, Commit, Rollback, SealNow, Ready;
    match input
    case Tick =>
      if CanPropose(b) { SealNowDiscipline(b); }
    case ClientTx(tx, size) =>
      AddTxInv(b.pool, tx, size);
      var c := b.(pool := AddTx(b.pool, tx, size));
      if CanPropose(c) { SealNowDiscipline(c); }
    case FromConsensus(msg) =>
      match msg {
        case NewRound(leader, round) =>
          var c := b.(leader := leader, round := round, proposed := false);
          if CanPropose(c) { SealNowDiscipline(c); }
        case Proposed(batch, round) => AdmitInv(b.pool, batch, round);
        case Committed(batch, round) => CommitInv(b.pool, batch, round);
        case RolledBack(rounds) => RollbackInv(b.pool, rounds);
      }
  }

  // ---------------------------------------------------------------- runs

  ghost function RunBatcher(b: Batcher, inputs: seq<Input>): Batcher {
    if inputs == [] then b else Step(RunBatcher(b, inputs[..|inputs| - 1]), inputs[|inputs| - 1]).0
  }

  /** What input `i` of the run makes the batcher send. */
  ghost function SentAt(b: Batcher, inputs: seq<Input>, i: nat): seq<Batch>
    requires i < |inputs|
  {
    Step(RunBatcher(b, inputs[..i]), inputs[i]).1
  }

  lemma {:induction false} RunBatcherStep(b: Batcher, inputs: seq<Input>, i: nat)
    requires i < |inputs|
    ensures RunBatcher(b, inputs[..i + 1]) == Step(RunBatcher(b, inputs[..i]), inputs[i]).0
  {
    assert inputs[..i + 1][..i] == inputs[..i];
  }

  lemma {:induction false} RunBatcherInv(b: Batcher, inputs: seq<Input>)
    requires PoolInv(b.pool)
    ensures PoolInv(RunBatcher(b, inputs).pool)
  {
    hide PoolInv, Step;
    if inputs != [] {
      RunBatcherInv(b, inputs[..|inputs| - 1]);
      StepDiscipline(RunBatcher(b, inputs[..|inputs| - 1]), inputs[|inputs| - 1]);
    }
  }

  predicate IsNewRound(input: Input) {
    input.FromConsensus? && input.msg.NewRound?
  }

  lemma ProposedIsSilent(b: Batcher, input: Input)
    requires b.proposed && !IsNewRound(input)
    ensures Step(b, input).1 == [] && Step(b, input).0.proposed
  {
    hide MakeBatch, Ready, AddTx, Admit, Commit, Rollback;
  }

  lemma {:induction false} StaysProposed(b: Batcher, inputs: seq<Input>, i: nat, j: nat)
    requires i <= j <= |inputs|
    requires forall l :: i <= l < j ==> !IsNewRound(inputs[l])
    requires RunBatcher(b, inputs[..i]).proposed
    ensures RunBatcher(b, inputs[..j]).proposed
    decreases j
  {
    hide Step, RunBatcher;
    if i < j {
      StaysProposed(b, inputs, i, j - 1);
      RunBatcherStep(b, inputs, j - 1);
      ProposedIsSilent(RunBatcher(b, inputs[..j - 1]), inputs[j - 1]);
    }
  }

  /** At most one batch per epoch: between two sends there is a `NewRound`. */
  lemma {:induction false} OneBatchPerEpoch(b: Batcher, inputs: seq<Input>, i: nat, j: nat)
    requires PoolInv(b.pool) && i < j < |inputs|
    requires SentAt(b, inputs, i) != [] && SentAt(b, inputs, j) != []
    ensures exists l :: i < l <= j && IsNewRound(inputs[l])
  {
    RunBatcherInv(b, inputs[..i]);
    StepDiscipline(RunBatcher(b, inputs[..i]), inputs[i]);
    RunBatcherStep(b, inputs, i);
    if forall l :: i < l <= j ==> !IsNewRound(inputs[l]) {
      StaysProposed(b, inputs, i + 1, j);
      ProposedIsSilent(RunBatcher(b, inputs[..j]), inputs[j]);
    }
  }

  /** Whatever is sent, in any interleaving, obeys the discipline of its own epoch. */
  lemma {:induction false} SendsAreDisciplined(b: Batcher, inputs: seq<Input>, i: nat)
    requires PoolInv(b.pool) && i < |inputs|
    ensures Discipline(RunBatcher(b, inputs[..i + 1]), SentAt(b, inputs, i))
  {
    RunBatcherInv(b, inputs[..i]);
    StepDiscipline(RunBatcher(b, inputs[..i]), inputs[i]);
    RunBatcherStep(b, inputs, i);
  }
}
