/**
 Runs of the pool: what every sequence of events keeps.
 */
module PoolRuns {
  import opened Transactions
  import opened PoolSpec
  import opened PoolLaws

  datatype Event =
    | AddTxEvent(tx: Tx, size: nat)
    | AdmitEvent(batch: Batch, round: Round)
    | SealEvent(round: Round)
    | CommitEvent(batch: Batch, round: Round)
    | RollbackEvent(rounds: seq<Round>)

  /** The pool after one event. */
  ghost function After(p: Pool, e: Event): Pool {
    match e
    case AddTxEvent(tx, size) => AddTx(p, tx, size)
    case AdmitEvent(batch, round) => Admit(p, batch, round)
    case SealEvent(round) => MakeBatch(p, round).0
    case CommitEvent(batch, round) => Commit(p, batch, round)
    case RollbackEvent(rounds) => Rollback(p, rounds)
  }

  /** The pool after a whole run. */
  ghost function Run(p: Pool, es: seq<Event>): Pool {
    if es == [] then p else After(Run(p, es[..|es| - 1]), es[|es| - 1])
  }

  /** Keys of the batch that event `i` of the run returns. */
  ghost function ReturnedAt(p: Pool, es: seq<Event>, i: nat): set<Key>
    requires i < |es|
  {
    if es[i].SealEvent? then Keys(MakeBatch(Run(p, es[..i]), es[i].round).1) else {}
  }

  lemma {:induction false} RunStep(p: Pool, es: seq<Event>, i: nat)
    requires i < |es|
    ensures Run(p, es[..i + 1]) == After(Run(p, es[..i]), es[i])
  {
    assert es[..i + 1][..i] == es[..i];
  }

  lemma {:induction false} RunKeepsInv(p: Pool, es: seq<Event>)
    requires PoolInv(p)
    ensures PoolInv(Run(p, es))
  {
    hide PoolInv, After;
    if es != [] {
      RunKeepsInv(p, es[..|es| - 1]);
      StepKeepsInv(Run(p, es[..|es| - 1]), es[|es| - 1]);
    }
  }

  lemma StepKeepsInv(p: Pool, e: Event)
    requires PoolInv(p)
    ensures PoolInv(After(p, e))
  {
    match e
    case AddTxEvent(tx, size) => AddTxInv(p, tx, size);
    case AdmitEvent(batch, round) => AdmitInv(p, batch, round);
    case SealEvent(round) => MakeBatchInv(p, round);
    case CommitEvent(batch, round) => CommitInv(p, batch, round);
    case RollbackEvent(rounds) => RollbackInv(p, rounds);
  }

  // ---------------------------------------------------------------- the life of one key

  /** Where a key is.  `Done` means at or below its client's watermark. */
  datatype Phase = Unknown | Waiting | Flying(round: Round) | Done

  function PhaseOf(p: Pool, k: Key): Phase {
    if Subsumed(p.high, k) then Done
    else if k in p.mineable then Waiting
    else if k in p.inflight then Flying(p.inflight[k].round)
    else Unknown
  }

  /** The moves an event may make: nothing is lost, nothing returns from `Done`,
      and only a rollback of its own round brings a key back. */
  predicate Allowed(e: Event, k: Key, before: Phase, after: Phase) {
    match before
    case Unknown =>
      || after == Unknown
      || (after == Waiting && e.AddTxEvent? && KeyOf(e.tx) == k)
      || (e.AdmitEvent? && k in Keys(e.batch) && after == Flying(e.round))
      || (after == Done && e.CommitEvent?)
    case Waiting =>
      || after == Waiting
      || (e.AdmitEvent? && k in Keys(e.batch) && after == Flying(e.round))
      || (e.SealEvent? && after == Flying(e.round))
      || (after == Done && e.CommitEvent?)
    case Flying(r) =>
      || after == before
      || (after == Waiting && e.RollbackEvent? && r in e.rounds)
      || (after == Done && e.CommitEvent?)
    case Done =>
      after == Done
  }

  lemma SealedPayloadKeys(p: Pool, round: Round)
    requires PoolInv(p)
    ensures Keys(MakeBatch(p, round).1) == KeySet(Seal(p.mineable, p.batchSize))
  {
    var ks := Seal(p.mineable, p.batchSize);
    SealedKeysAreMineable(p.mineable, p.batchSize);
    var payload := MakeBatch(p, round).1;
    forall i | 0 <= i < |ks| ensures KeyOf(payload[i]) == ks[i] {
      assert ks[i] in ks;
    }
  }

  lemma CommitMoves(p: Pool, batch: Batch, round: Round, k: Key)
    requires PoolInv(p)
    ensures Allowed(CommitEvent(batch, round), k, PhaseOf(p, k), PhaseOf(Commit(p, batch, round), k))
  {
    RaiseSubsumes(p.high, batch);
  }

  /** Every event makes only allowed moves, for every key. */
  lemma PhaseMoves(p: Pool, e: Event, k: Key)
    requires PoolInv(p)
    ensures Allowed(e, k, PhaseOf(p, k), PhaseOf(After(p, e), k))
  {
    match e
    case AddTxEvent(tx, size) =>
    case AdmitEvent(batch, round) =>
    case SealEvent(round) => SealedKeysAreMineable(p.mineable, p.batchSize);
    case CommitEvent(batch, round) => CommitMoves(p, batch, round, k);
    case RollbackEvent(rounds) =>
  }

  /** Sealing moves exactly the returned keys, from `Waiting` to `Flying`. */
  lemma SealMoves(p: Pool, round: Round, k: Key)
    requires PoolInv(p)
    ensures k in Keys(MakeBatch(p, round).1) ==>
              PhaseOf(p, k) == Waiting && PhaseOf(MakeBatch(p, round).0, k) == Flying(round)
    ensures k !in Keys(MakeBatch(p, round).1) ==> PhaseOf(MakeBatch(p, round).0, k) == PhaseOf(p, k)
  {
    SealedPayloadKeys(p, round);
    SealedKeysAreMineable(p.mineable, p.batchSize);
    assert KeySet(Seal(p.mineable, p.batchSize)) <= p.mineable.Keys;
  }

  // ---------------------------------------------------------------- exact moves

  /** The one move an event makes: `sealed` are the keys it returns. */
  function Moved(e: Event, k: Key, now: Phase, sealed: set<Key>): Phase {
    match e
    case AddTxEvent(tx, _) => if KeyOf(tx) == k && now == Unknown then Waiting else now
    case AdmitEvent(batch, round) => if k in Keys(batch) && (now == Unknown || now == Waiting) then Flying(round)
        else now
    case SealEvent(round) => if k in sealed then Flying(round) else now
    case CommitEvent(batch, _) => if k.nonce <= MaxNonce(batch, k.client) then Done else now
    case RollbackEvent(rounds) => if now.Flying? && now.round in rounds then Waiting else now
  }

  lemma CommitMovesExactly(p: Pool, batch: Batch, round: Round, k: Key)
    requires PoolInv(p)
    ensures PhaseOf(Commit(p, batch, round), k) == Moved(CommitEvent(batch, round), k, PhaseOf(p, k), {})
  {
    hide IndexAgrees, MaxNonce, DropKeys, Prune;
    RaiseIsMax(p.high, batch, k.client);
    RaiseSubsumes(p.high, batch);
  }

  /** What becomes of a key is decided by the event, where the key is, and whether a seal returns it. */
  lemma ExactMoves(p: Pool, e: Event, k: Key)
    requires PoolInv(p)
    ensures var sealed := if e.SealEvent? then Keys(MakeBatch(p, e.round).1) else {};
            PhaseOf(After(p, e), k) == Moved(e, k, PhaseOf(p, k), sealed)
  {
    match e
    case AddTxEvent(tx, size) =>
    case AdmitEvent(batch, round) =>
    case SealEvent(round) =>
      hide MakeBatch, PoolInv;
      SealMoves(p, round, k);
    case CommitEvent(batch, round) => CommitMovesExactly(p, batch, round, k);
    case RollbackEvent(rounds) =>
  }

  /** The transaction held under a key, with its size. */
  function EntryOf(p: Pool, k: Key): Option<Pending> {
    if k in p.mineable then Some(p.mineable[k])
    else if k in p.inflight then Some(Pending(p.inflight[k].tx, p.inflight[k].size))
    else None
  }

  predicate Held(now: Phase) {
    now == Waiting || now.Flying?
  }

  /** The entry of a key that is held after the event: a client's newer copy replaces a waiting one, a proposal's copy
      replaces it too but keeps its size, and nothing else changes an entry. */
  function EntryAfter(e: Event, k: Key, now: Phase, entry: Option<Pending>): Option<Pending> {
    if e.AddTxEvent? && KeyOf(e.tx) == k && !now.Flying? then Some(Pending(e.tx, e.size))
    else if e.AdmitEvent? && k in Keys(e.batch) && !now.Flying? then
      var tx := First(e.batch, k);
      Some(Pending(tx, if now == Waiting && entry.Some? then entry.value.size else SerializedSize(tx)))
    else entry
  }

  lemma EntryMoves(p: Pool, e: Event, k: Key)
    requires PoolInv(p) && Held(PhaseOf(After(p, e), k))
    ensures EntryOf(After(p, e), k) == EntryAfter(e, k, PhaseOf(p, k), EntryOf(p, k))
  {
    match e
    case AddTxEvent(tx, size) =>
    case AdmitEvent(batch, round) => AdmitEntry(p, batch, round, k);
    case SealEvent(round) => SealedKeysAreMineable(p.mineable, p.batchSize);
    case CommitEvent(batch, round) =>
      hide IndexAgrees, Raise, DropKeys, Prune;
      RaiseSubsumes(p.high, batch);
    case RollbackEvent(rounds) => hide IndexAgrees;
  }

  lemma AdmitEntry(p: Pool, batch: Batch, round: Round, k: Key)
    requires PoolInv(p) && Held(PhaseOf(Admit(p, batch, round), k))
    ensures EntryOf(Admit(p, batch, round), k) ==
            EntryAfter(AdmitEvent(batch, round), k, PhaseOf(p, k), EntryOf(p, k))
  {
    hide IndexAgrees, SerializedSize, First;
  }

  /** A commit leaves no key of its batch in flight, and no empty index entry for its round; all other entries stay. */
  lemma CommitLands(p: Pool, batch: Batch, round: Round)
    ensures var index := Commit(p, batch, round).byRound; round in index ==> index[round] != {}
    ensures forall k :: k in Commit(p, batch, round).inflight <==> k in p.inflight && k !in Keys(batch)
    ensures forall k :: k in p.inflight && k !in Keys(batch) ==> Commit(p, batch, round).inflight[k] == p.inflight[k]
  {
  }

  // ---------------------------------------------------------------- theorems over runs

  /** Conservation: once a key is known it is never lost again. */
  lemma {:induction false} NeverLost(p: Pool, es: seq<Event>, i: nat, j: nat, k: Key)
    requires PoolInv(p) && i <= j <= |es|
    requires PhaseOf(Run(p, es[..i]), k) != Unknown
    ensures PhaseOf(Run(p, es[..j]), k) != Unknown
    decreases j
  {
    hide PoolInv, PhaseOf, After, Run;
    if i < j {
      NeverLost(p, es, i, j - 1, k);
      RunKeepsInv(p, es[..j - 1]);
      RunStep(p, es, j - 1);
      PhaseMoves(Run(p, es[..j - 1]), es[j - 1], k);
    }
  }

  /** A key at or below its client's watermark stays there and is never sealed again. */
  lemma {:induction false} DoneForGood(p: Pool, es: seq<Event>, i: nat, j: nat, k: Key)
    requires PoolInv(p) && i <= j <= |es|
    requires PhaseOf(Run(p, es[..i]), k) == Done
    ensures PhaseOf(Run(p, es[..j]), k) == Done
    ensures j < |es| ==> k !in ReturnedAt(p, es, j)
    decreases j
  {
    hide PoolInv, MakeBatch, After, Run, PhaseOf;
    if i < j {
      DoneForGood(p, es, i, j - 1, k);
      RunKeepsInv(p, es[..j - 1]);
      RunStep(p, es, j - 1);
      PhaseMoves(Run(p, es[..j - 1]), es[j - 1], k);
    }
    if j < |es| && es[j].SealEvent? {
      RunKeepsInv(p, es[..j]);
      SealMoves(Run(p, es[..j]), es[j].round, k);
    }
  }

  ghost predicate RolledBack(es: seq<Event>, i: nat, j: nat, r: Round)
    requires j <= |es|
  {
    exists l :: i < l < j && es[l].RollbackEvent? && r in es[l].rounds
  }

  predicate FlyingOrDone(p: Pool, k: Key, r: Round) {
    PhaseOf(p, k) == Flying(r) || PhaseOf(p, k) == Done
  }

  lemma FliesOn(p: Pool, e: Event, k: Key, r: Round)
    requires PoolInv(p) && FlyingOrDone(p, k, r)
    requires !(e.RollbackEvent? && r in e.rounds)
    ensures FlyingOrDone(After(p, e), k, r)
  {
    PhaseMoves(p, e, k);
  }

  lemma {:induction false} FliesUntilRollback(p: Pool, es: seq<Event>, i: nat, j: nat, r: Round, k: Key)
    requires PoolInv(p) && i < j <= |es|
    requires forall l :: i < l < j ==> !(es[l].RollbackEvent? && r in es[l].rounds)
    requires FlyingOrDone(Run(p, es[..i + 1]), k, r)
    ensures FlyingOrDone(Run(p, es[..j]), k, r)
    decreases j
  {
    hide PoolInv, FlyingOrDone, After, Run;
    if i + 1 < j {
      FliesUntilRollback(p, es, i, j - 1, r, k);
      RunKeepsInv(p, es[..j - 1]);
      RunStep(p, es, j - 1);
      FliesOn(Run(p, es[..j - 1]), es[j - 1], k, r);
    }
  }

  lemma AfterSeal(p: Pool, r: Round)
    ensures After(p, SealEvent(r)) == MakeBatch(p, r).0
  {
  }

  lemma NotRolledBack(es: seq<Event>, i: nat, j: nat, r: Round)
    requires j <= |es| && !RolledBack(es, i, j, r)
    ensures forall l :: i < l < j ==> !(es[l].RollbackEvent? && r in es[l].rounds)
  {
  }

  /** Exactly once: a key returned by two seals was rolled back in between, by a
      rollback that names the round of the first one. */
  lemma {:induction false} ExactlyOnce(p: Pool, es: seq<Event>, i: nat, j: nat, k: Key)
    requires PoolInv(p) && i < j < |es|
    requires k in ReturnedAt(p, es, i) && k in ReturnedAt(p, es, j)
    ensures RolledBack(es, i, j, es[i].round)
  {
    hide PoolInv, After, Run, PhaseOf, MakeBatch, RolledBack;
    var r := es[i].round;
    RunKeepsInv(p, es[..i]);
    RunKeepsInv(p, es[..j]);
    SealMoves(Run(p, es[..i]), r, k);
    AfterSeal(Run(p, es[..i]), r);
    RunStep(p, es, i);
    SealMoves(Run(p, es[..j]), es[j].round, k);
    if !RolledBack(es, i, j, r) {
      NotRolledBack(es, i, j, r);
      FliesUntilRollback(p, es, i, j, r, k);
    }
  }

  /** All transactions committed by the run, in order. */
  function CommittedTxs(es: seq<Event>): Batch {
    if es == [] then []
    else
      var e := es[|es| - 1];
      CommittedTxs(es[..|es| - 1]) + if e.CommitEvent? then e.batch else []
  }

  lemma NothingCommitted(c: ClientId)
    ensures MaxNonce([], c) == 0
  {
  }

  /** Only a commit moves watermarks. */
  lemma HighAfter(p: Pool, e: Event)
    ensures After(p, e).high == if e.CommitEvent? then Raise(p.high, e.batch) else p.high
  {
    hide Raise, Seal;
  }

  /** A client's watermark is the largest nonce it has committed. */
  lemma {:induction false} WatermarkHistory(batchSize: nat, es: seq<Event>, c: ClientId)
    ensures Mark(Run(EmptyPool(batchSize), es).high, c) == MaxNonce(CommittedTxs(es), c)
  {
    hide After, Raise, MaxNonce;
    if es == [] {
      NothingCommitted(c);
    } else {
      var before := es[..|es| - 1];
      WatermarkHistory(batchSize, before, c);
      var p := Run(EmptyPool(batchSize), before);
      var e := es[|es| - 1];
      HighAfter(p, e);
      if e.CommitEvent? {
        RaiseIsMax(p.high, e.batch, c);
        MaxNonceConcat(CommittedTxs(before), e.batch, c);
      } else {
        assert CommittedTxs(es) == CommittedTxs(before);
      }
    }
  }
}
