/**
 Laws of the pool's events: the invariant every event keeps, the exact batch
 that sealing takes, its undo by rollback, and the meaning of the watermarks.
 */
module PoolLaws {
  import opened Transactions
  import opened PoolSpec

  // ---------------------------------------------------------------- watermarks

  /** The largest nonce of client `c` in `txs`, 0 if there is none. */
  function MaxNonce(txs: Batch, c: ClientId): (n: Nonce)
    ensures forall i :: 0 <= i < |txs| && txs[i].client == c ==> txs[i].nonce <= n
    ensures n == 0 || exists i :: 0 <= i < |txs| && txs[i].client == c && txs[i].nonce == n
  {
    if txs == [] then 0
    else
      var rest := MaxNonce(txs[..|txs| - 1], c);
      var tx := txs[|txs| - 1];
      if tx.client == c && tx.nonce > rest then tx.nonce else rest
  }

  function Max(a: nat, b: nat): nat {
    if a < b then b else a
  }

  lemma {:induction false} RaiseIsMax(high: map<ClientId, Nonce>, batch: Batch, c: ClientId)
    ensures Mark(Raise(high, batch), c) == Max(Mark(high, c), MaxNonce(batch, c))
  {
    if batch != [] {
      RaiseIsMax(high, batch[..|batch| - 1], c);
      RaiseIsMax(high, batch[..|batch| - 1], batch[|batch| - 1].client);
    }
  }

  /** Committing never lowers a watermark, and subsumes every key of the batch. */
  lemma RaiseSubsumes(high: map<ClientId, Nonce>, batch: Batch)
    ensures forall k :: Subsumed(high, k) ==> Subsumed(Raise(high, batch), k)
    ensures forall k :: k in Keys(batch) ==> Subsumed(Raise(high, batch), k)
  {
    forall k: Key ensures Subsumed(high, k) || k in Keys(batch) ==> Subsumed(Raise(high, batch), k) {
      RaiseIsMax(high, batch, k.client);
    }
  }

  lemma {:induction false} MaxNonceConcat(a: Batch, b: Batch, c: ClientId)
    ensures MaxNonce(a + b, c) == Max(MaxNonce(a, c), MaxNonce(b, c))
  {
    if b == [] {
      assert a + b == a;
    } else {
      assert (a + b)[..|a + b| - 1] == a + b[..|b| - 1];
      MaxNonceConcat(a, b[..|b| - 1], c);
    }
  }

  // ---------------------------------------------------------------- the invariant

  lemma EmptyPoolInv(batchSize: nat)
    ensures PoolInv(EmptyPool(batchSize))
  {
  }

  lemma AddTxInv(p: Pool, tx: Tx, size: nat)
    requires PoolInv(p)
    ensures PoolInv(AddTx(p, tx, size))
  {
  }

  lemma AdmitInv(p: Pool, batch: Batch, round: Round)
    requires PoolInv(p)
    ensures PoolInv(Admit(p, batch, round))
  {
    hide IndexAgrees, AdmittedSize, SerializedSize, First;
    var added := AdmittedEntries(p, batch, round);
    assert added.Keys == Admitted(p, batch);
    IndexGrows(p.inflight, p.byRound, added, round);
  }

  /** New entries of one round, listed under that round, keep the two tables in agreement. */
  lemma IndexGrows(inflight: map<Key, InFlight>, byRound: map<Round, set<Key>>, added: map<Key, InFlight>, round: Round)
    requires IndexAgrees(inflight, byRound) && added.Keys !! inflight.Keys
    requires forall k :: k in added ==> added[k].round == round
    ensures IndexAgrees(inflight + added, byRound[round := AtRound(byRound, round) + added.Keys])
  {
    var index := byRound[round := AtRound(byRound, round) + added.Keys];
    forall k | k in inflight + added ensures k in AtRound(index, (inflight + added)[k].round) {
      assert k !in added ==> k in AtRound(byRound, inflight[k].round);
    }
  }

  lemma MakeBatchInv(p: Pool, round: Round)
    requires PoolInv(p)
    ensures PoolInv(MakeBatch(p, round).0)
  {
    hide Seal;
    SealedKeysAreMineable(p.mineable, p.batchSize);
    PromoteInv(p, KeySet(Seal(p.mineable, p.batchSize)), round);
  }

  lemma PromoteInv(p: Pool, out: set<Key>, round: Round)
    requires PoolInv(p) && out <= p.mineable.Keys
    ensures PoolInv(Promote(p, out, round))
  {
    hide IndexAgrees;
    var added := Launched(p.mineable, out, round);
    assert added.Keys == out;
    IndexGrows(p.inflight, p.byRound, added, round);
  }

  lemma CommitInv(p: Pool, batch: Batch, round: Round)
    requires PoolInv(p)
    ensures PoolInv(Commit(p, batch, round))
  {
    var q := Commit(p, batch, round);
    assert q.inflight.Keys == p.inflight.Keys - Keys(batch);
    assert q.mineable.Keys <= p.mineable.Keys;
    forall k | k in q.inflight ensures k in AtRound(q.byRound, q.inflight[k].round) {
      assert k in p.byRound[p.inflight[k].round] - Keys(batch);
    }
  }

  lemma RollbackInv(p: Pool, rounds: seq<Round>)
    requires PoolInv(p)
    ensures PoolInv(Rollback(p, rounds))
  {
    hide IndexAgrees;
    RollbackIndex(p.inflight, p.byRound, rounds);
  }

  lemma RollbackIndex(inflight: map<Key, InFlight>, byRound: map<Round, set<Key>>, rounds: seq<Round>)
    requires IndexAgrees(inflight, byRound)
    ensures IndexAgrees(inflight - Orphans(inflight, rounds), byRound - (set r | r in rounds))
  {
    var left := inflight - Orphans(inflight, rounds);
    assert forall k :: k in left <==> k in inflight && inflight[k].round !in rounds;
    forall k | k in left ensures k in AtRound(byRound - (set r | r in rounds), left[k].round) {
      assert k in AtRound(byRound, inflight[k].round);
    }
  }

  // ---------------------------------------------------------------- sealing

  ghost predicate Ascending(ks: seq<Key>) {
    forall i, j :: 0 <= i < j < |ks| ==> Before(ks[i], ks[j])
  }

  /** Total size of a list of keys; a key that is not in the table weighs nothing. */
  ghost function SizeOf(m: map<Key, Pending>, ks: seq<Key>): nat {
    if ks == [] then 0
    else (if ks[0] in m then m[ks[0]].size else 0) + SizeOf(m, ks[1..])
  }

  /** The keys are the smallest ones of the table, in ascending order. */
  ghost predicate SmallestFirst(m: map<Key, Pending>, ks: seq<Key>) {
    && KeySet(ks) <= m.Keys
    && Ascending(ks)
    && (forall i, y :: 0 <= i < |ks| && y in m && y !in ks ==> Before(ks[i], y))
  }

  /** The list stops at the first point where it holds `need` bytes or nothing is left:
      without its last key it is too light. */
  ghost predicate CutAt(m: map<Key, Pending>, need: int, ks: seq<Key>) {
    && (ks != [] ==> SizeOf(m, ks[..|ks| - 1]) < need)
    && (SizeOf(m, ks) >= need || KeySet(ks) == m.Keys)
  }

  /** What a sealed batch is. */
  ghost predicate IsSeal(m: map<Key, Pending>, need: int, ks: seq<Key>) {
    SmallestFirst(m, ks) && CutAt(m, need, ks)
  }

  lemma {:induction false} SizeOfFrame(m: map<Key, Pending>, k: Key, ks: seq<Key>)
    requires k !in ks
    ensures SizeOf(m - {k}, ks) == SizeOf(m, ks)
  {
    if ks != [] {
      assert ks[0] in ks;
      assert forall x :: x in ks[1..] ==> x in ks;
      SizeOfFrame(m, k, ks[1..]);
    }
  }

  lemma SizeOfCons(m: map<Key, Pending>, k: Key, rest: seq<Key>)
    requires k in m && k !in rest
    ensures SizeOf(m, [k] + rest) == m[k].size + SizeOf(m - {k}, rest)
  {
    assert ([k] + rest)[1..] == rest;
    SizeOfFrame(m, k, rest);
  }

  lemma SmallestFirstTail(m: map<Key, Pending>, k: Key, rest: seq<Key>)
    requires SmallestFirst(m, [k] + rest)
    ensures k !in rest
    ensures SmallestFirst(m - {k}, rest)
  {
    var ks := [k] + rest;
    assert forall i :: 0 <= i < |rest| ==> rest[i] == ks[i + 1];
    assert forall x :: x in ks <==> x == k || x in rest;
    if k in rest {
      var j :| 0 <= j < |rest| && rest[j] == k;
      assert Before(ks[0], ks[j + 1]);
    }
    assert KeySet(ks) == KeySet(rest) + {k};
  }

  lemma SmallestFirstCons(m: map<Key, Pending>, k: Key, rest: seq<Key>)
    requires IsMin(m, k)
    requires SmallestFirst(m - {k}, rest)
    ensures SmallestFirst(m, [k] + rest)
  {
    var ks := [k] + rest;
    assert forall i :: 0 < i < |ks| ==> ks[i] == rest[i - 1] && ks[i] in KeySet(rest);
    assert forall x :: x in ks <==> x == k || x in rest;
    assert KeySet(ks) == KeySet(rest) + {k};
  }

  lemma CutAtCons(m: map<Key, Pending>, need: int, k: Key, rest: seq<Key>)
    requires k in m && k !in rest && need > 0
    ensures CutAt(m, need, [k] + rest) <==> CutAt(m - {k}, need - m[k].size, rest)
  {
    var ks := [k] + rest;
    SizeOfCons(m, k, rest);
    if rest != [] {
      assert ks[..|ks| - 1] == [k] + rest[..|rest| - 1];
      SizeOfCons(m, k, rest[..|rest| - 1]);
    } else {
      assert ks[..|ks| - 1] == [];
    }
    assert KeySet(ks) == KeySet(rest) + {k};
    assert KeySet(ks) == m.Keys <==> KeySet(rest) == (m - {k}).Keys;
  }

  lemma {:induction false} SealIsSeal(m: map<Key, Pending>, need: int)
    ensures IsSeal(m, need, Seal(m, need))
    decreases |m|
  {
    hide SmallestFirst, CutAt, IsMin, SizeOf;
    if need > 0 && m != map[] {
      var k := MinKey(m);
      MinIsMember(m, k);
      var rest := Seal(m - {k}, need - m[k].size);
      assert m.Keys == (m - {k}).Keys + {k};
      SealIsSeal(m - {k}, need - m[k].size);
      SealedKeysAreMineable(m - {k}, need - m[k].size);
      SmallestFirstCons(m, k, rest);
      CutAtCons(m, need, k, rest);
    } else {
      EmptySeal(m, need);
    }
  }

  lemma MinIsMember(m: map<Key, Pending>, k: Key)
    requires IsMin(m, k)
    ensures k in m
  {
  }

  lemma EmptySeal(m: map<Key, Pending>, need: int)
    requires need <= 0 || m == map[]
    ensures IsSeal(m, need, [])
  {
    assert KeySet([]) == {};
  }

  /** The smallest key comes first. */
  lemma HeadIsMin(m: map<Key, Pending>, ks: seq<Key>)
    requires SmallestFirst(m, ks) && ks != []
    ensures IsMin(m, ks[0])
  {
    assert ks[0] in KeySet(ks);
    forall x | x in m && x != ks[0] ensures Before(ks[0], x) {
      if x in ks {
        var j :| 0 <= j < |ks| && ks[j] == x;
        assert Before(ks[0], ks[j]);
      }
    }
  }

  lemma SealTail(m: map<Key, Pending>, need: int, ks: seq<Key>)
    requires IsSeal(m, need, ks) && ks != []
    ensures need > 0 && IsMin(m, ks[0])
    ensures IsSeal(m - {ks[0]}, need - m[ks[0]].size, ks[1..])
  {
    HeadIsMin(m, ks);
    assert ks == [ks[0]] + ks[1..];
    SmallestFirstTail(m, ks[0], ks[1..]);
    CutAtCons(m, need, ks[0], ks[1..]);
  }

  lemma SealNotEmpty(m: map<Key, Pending>, need: int, k: Key, ks: seq<Key>)
    requires IsSeal(m, need, ks) && need > 0 && k in m
    ensures ks != []
  {
    assert k !in KeySet([]);
  }

  /** The description leaves no choice. */
  lemma {:induction false} SealUnique(m: map<Key, Pending>, need: int, a: seq<Key>, b: seq<Key>)
    requires IsSeal(m, need, a) && IsSeal(m, need, b)
    ensures a == b
    decreases |a|
  {
    if a != [] {
      SealTail(m, need, a);
      SealNotEmpty(m, need, a[0], b);
      SealTail(m, need, b);
      SealUnique(m - {a[0]}, need - m[a[0]].size, a[1..], b[1..]);
      assert a == [a[0]] + a[1..] && b == [b[0]] + b[1..];
    } else if b != [] {
      SealTail(m, need, b);
      SealNotEmpty(m, need, b[0], a);
    }
  }

  lemma {:induction false} SizeOfAll(m: map<Key, Pending>, ks: seq<Key>)
    requires SmallestFirst(m, ks) && KeySet(ks) == m.Keys
    ensures SizeOf(m, ks) == Bytes(m)
    decreases |ks|
  {
    if ks == [] {
      assert m.Keys == {};
      assert m == map[];
    } else {
      assert ks[0] in KeySet(ks);
      var k, rest := ks[0], ks[1..];
      assert ks == [k] + rest;
      SmallestFirstTail(m, k, rest);
      assert KeySet(ks) == KeySet(rest) + {k};
      assert KeySet(rest) == (m - {k}).Keys;
      SizeOfAll(m - {k}, rest);
      SizeOfCons(m, k, rest);
      BytesRemove(m, k);
    }
  }

  /** A batch sealed while `ready` held fills the byte budget. */
  lemma ReadyFillsBatch(p: Pool)
    requires Ready(p)
    ensures IsSeal(p.mineable, p.batchSize, Seal(p.mineable, p.batchSize))
    ensures SizeOf(p.mineable, Seal(p.mineable, p.batchSize)) >= p.batchSize
  {
    var ks := Seal(p.mineable, p.batchSize);
    SealIsSeal(p.mineable, p.batchSize);
    if SizeOf(p.mineable, ks) < p.batchSize {
      SizeOfAll(p.mineable, ks);
    }
  }

  lemma PromotedOrphans(p: Pool, out: set<Key>, round: Round)
    requires PoolInv(p) && out <= p.mineable.Keys
    requires AtRound(p.byRound, round) == {}
    ensures Orphans(Promote(p, out, round).inflight, [round]) == out
  {
    forall k | k in p.inflight ensures p.inflight[k].round != round {
      assert k in AtRound(p.byRound, p.inflight[k].round);
    }
  }

  lemma {:induction false} PromotedReturns(m: map<Key, Pending>, inflight: map<Key, InFlight>, high: map<ClientId,
      Nonce>, out: set<Key>,
      round: Round)
    requires out <= m.Keys && out !! inflight.Keys && forall k :: k in out ==> !Subsumed(high, k)
    ensures var flying := inflight + Launched(m, out, round);
            (m - out) + Returned(flying, high, out) == m && flying - out == inflight
  {
  }

  lemma RollbackPromoted(p: Pool, out: set<Key>, round: Round)
    requires PoolInv(p) && out <= p.mineable.Keys
    requires AtRound(p.byRound, round) == {}
    ensures Rollback(Promote(p, out, round), [round]) == p.(byRound := p.byRound - {round})
  {
    hide Orphans, Returned, Launched, IndexAgrees, Subsumed;
    PromotedOrphans(p, out, round);
    PromotedReturns(p.mineable, p.inflight, p.high, out, round);
    var at := AtRound(p.byRound, round) + out;
    assert (set r | r in [round]) == {round};
    assert p.byRound[round := at] - {round} == p.byRound - {round};
  }

  /** Rolling back the round just sealed restores the pool. */
  lemma SealThenRollback(p: Pool, round: Round)
    requires PoolInv(p)
    requires AtRound(p.byRound, round) == {}
    ensures Rollback(MakeBatch(p, round).0, [round]) == p.(byRound := p.byRound - {round})
  {
    SealedKeysAreMineable(p.mineable, p.batchSize);
    RollbackPromoted(p, KeySet(Seal(p.mineable, p.batchSize)), round);
  }
}
