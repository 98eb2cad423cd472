/**
 One iteration of each of the pool's loops, on values, and how a whole event
 decomposes into such iterations.
 */
module PoolSteps {
  import opened Transactions
  import opened PoolSpec
  import opened PoolLaws

  // ---------------------------------------------------------------- admit

  function AdmittedOne(q: Pool, tx: Tx, round: Round): Pool {
    var k := KeyOf(tx);
    if Subsumed(q.high, k) || k in q.inflight then q
    else q.(mineable := q.mineable - {k},
            inflight := q.inflight[k := InFlight(tx, if k in q.mineable then q.mineable[k].size
                else SerializedSize(tx), round)],
            byRound := q.byRound[round := AtRound(q.byRound, round) + {k}])
  }

  lemma AdmitNothing(p: Pool, round: Round)
    ensures Admit(p, [], round) == p.(byRound := p.byRound[round := AtRound(p.byRound, round)])
  {
    assert Admitted(p, []) == {};
    assert p.mineable - {} == p.mineable;
    assert p.inflight + AdmittedEntries(p, [], round) == p.inflight;
    assert AtRound(p.byRound, round) + {} == AtRound(p.byRound, round);
  }

  lemma AdmittedSnoc(p: Pool, batch: Batch, tx: Tx)
    ensures Admitted(p, batch + [tx]) ==
      Admitted(p, batch) + if Subsumed(p.high, KeyOf(tx)) || KeyOf(tx) in p.inflight then {} else {KeyOf(tx)}
  {
    KeysSnoc(batch, tx);
  }

  lemma AdmittedEntriesSnoc(p: Pool, batch: Batch, tx: Tx, round: Round)
    ensures var k := KeyOf(tx);
            var have := AdmittedEntries(p, batch, round);
            AdmittedEntries(p, batch + [tx], round) ==
              if Subsumed(p.high, k) || k in p.inflight || k in have then have
              else have[k := InFlight(tx, if k in p.mineable then p.mineable[k].size else SerializedSize(tx), round)]
  {
    hide First, SerializedSize;
    AdmittedSnoc(p, batch, tx);
    KeysSnoc(batch, tx);
    forall x | x in Keys(batch + [tx])
      ensures First(batch + [tx], x) == if x in Keys(batch) then First(batch, x) else tx
    {
      FirstSnoc(batch, tx, x);
    }
  }

  lemma Reinsert(byRound: map<Round, set<Key>>, round: Round, a: set<Key>, k: Key)
    ensures byRound[round := AtRound(byRound, round) + (a + {k})]
         == byRound[round := AtRound(byRound, round) + a][round := AtRound(byRound, round) + a + {k}]
  {
    assert AtRound(byRound, round) + (a + {k}) == AtRound(byRound, round) + a + {k};
  }

  lemma UnionInsert(a: map<Key, InFlight>, b: map<Key, InFlight>, k: Key, e: InFlight)
    ensures a + b[k := e] == (a + b)[k := e]
  {
  }

  lemma AdmitOneMore(p: Pool, batch: Batch, tx: Tx, round: Round)
    requires !Subsumed(p.high, KeyOf(tx)) && KeyOf(tx) !in p.inflight && KeyOf(tx) !in Admitted(p, batch)
    ensures Admit(p, batch + [tx], round) == AdmittedOne(Admit(p, batch, round), tx, round)
  {
    var k := KeyOf(tx);
    var taken := Admitted(p, batch);
    AdmittedSnoc(p, batch, tx);
    AdmittedEntriesSnoc(p, batch, tx, round);
    var have := AdmittedEntries(p, batch, round);
    assert have.Keys == taken;
    assert p.mineable - (taken + {k}) == p.mineable - taken - {k};
    var e := InFlight(tx, if k in p.mineable then p.mineable[k].size else SerializedSize(tx), round);
    UnionInsert(p.inflight, have, k, e);
    Reinsert(p.byRound, round, taken, k);
  }

  lemma AdmitSnoc(p: Pool, batch: Batch, tx: Tx, round: Round)
    ensures Admit(p, batch + [tx], round) == AdmittedOne(Admit(p, batch, round), tx, round)
  {
    var k := KeyOf(tx);
    if Subsumed(p.high, k) || k in p.inflight || k in Admitted(p, batch) {
      AdmittedSnoc(p, batch, tx);
      AdmittedEntriesSnoc(p, batch, tx, round);
      assert Admitted(p, batch + [tx]) == Admitted(p, batch);
    } else {
      AdmitOneMore(p, batch, tx, round);
    }
  }

  // ---------------------------------------------------------------- seal

  function PromotedOne(q: Pool, k: Key, round: Round): Pool
    requires k in q.mineable
  {
    q.(mineable := q.mineable - {k},
       inflight := q.inflight[k := InFlight(q.mineable[k].tx, q.mineable[k].size, round)],
       byRound := q.byRound[round := AtRound(q.byRound, round) + {k}])
  }

  lemma {:induction false} SizeOfSnoc(m: map<Key, Pending>, ks: seq<Key>, k: Key)
    ensures SizeOf(m, ks + [k]) == SizeOf(m, ks) + if k in m then m[k].size else 0
  {
    if ks != [] {
      assert (ks + [k])[1..] == ks[1..] + [k];
      SizeOfSnoc(m, ks[1..], k);
    } else {
      assert ks + [k] == [k];
    }
  }

  lemma {:induction false} SizeOfPrefix(m: map<Key, Pending>, ks: seq<Key>, n: nat)
    requires n <= |ks|
    ensures SizeOf(m, ks[..n]) <= SizeOf(m, ks)
    decreases |ks|
  {
    if n < |ks| {
      assert ks == ks[..|ks| - 1] + [ks[|ks| - 1]];
      SizeOfSnoc(m, ks[..|ks| - 1], ks[|ks| - 1]);
      assert ks[..n] == ks[..|ks| - 1][..n];
      SizeOfPrefix(m, ks[..|ks| - 1], n);
    } else {
      assert ks[..n] == ks;
    }
  }

  lemma SealedPrefixMin(m: map<Key, Pending>, ks: seq<Key>, n: nat)
    requires SmallestFirst(m, ks) && n < |ks|
    ensures IsMin(m - KeySet(ks[..n]), ks[n])
  {
    assert ks[n] in KeySet(ks);
    forall x | x in KeySet(ks[..n]) ensures x != ks[n] {
      var i :| 0 <= i < n && ks[i] == x;
      assert Before(ks[i], ks[n]);
    }
    forall x | x in m - KeySet(ks[..n]) && x != ks[n] ensures Before(ks[n], x) {
      if x in ks {
        var i :| 0 <= i < |ks| && ks[i] == x;
        assert x in ks[..n] || i >= n;
      }
    }
  }

  /** After `n` pops the sealing loop goes on exactly when the seal is longer. */
  lemma SealProgress(m: map<Key, Pending>, need: int, ks: seq<Key>, n: nat)
    requires IsSeal(m, need, ks) && n <= |ks|
    ensures KeySet(ks[..n]) <= m.Keys
    ensures n > 0 ==> SizeOf(m, ks[..n]) == SizeOf(m, ks[..n - 1]) + m[ks[n - 1]].size
    ensures n < |ks| <==> SizeOf(m, ks[..n]) < need && m - KeySet(ks[..n]) != map[]
    ensures n < |ks| ==> IsMin(m - KeySet(ks[..n]), ks[n])
  {
    assert forall x :: x in KeySet(ks[..n]) ==> x in KeySet(ks);
    if n > 0 {
      assert ks[n - 1] in KeySet(ks);
      assert ks[..n] == ks[..n - 1] + [ks[n - 1]];
      SizeOfSnoc(m, ks[..n - 1], ks[n - 1]);
    }
    if n < |ks| {
      SealedPrefixMin(m, ks, n);
      assert ks[..|ks| - 1][..n] == ks[..n];
      SizeOfPrefix(m, ks[..|ks| - 1], n);
    } else {
      assert ks[..n] == ks;
      assert KeySet(ks) == m.Keys ==> (m - KeySet(ks)).Keys == {};
    }
  }

  lemma PromoteNothing(p: Pool, round: Round)
    ensures KeySet([]) == {}
    ensures Promote(p, {}, round) == p.(byRound := p.byRound[round := AtRound(p.byRound, round)])
  {
    assert p.mineable - {} == p.mineable;
    assert p.inflight + Launched(p.mineable, {}, round) == p.inflight;
    assert AtRound(p.byRound, round) + {} == AtRound(p.byRound, round);
  }

  lemma PromoteSnoc(p: Pool, done: seq<Key>, k: Key, round: Round)
    requires KeySet(done) <= p.mineable.Keys && k in Promote(p, KeySet(done), round).mineable
    ensures KeySet(done + [k]) <= p.mineable.Keys
    ensures Promote(p, KeySet(done + [k]), round) == PromotedOne(Promote(p, KeySet(done), round), k, round)
    ensures Payload(p.mineable, done + [k]) == Payload(p.mineable, done) + [p.mineable[k].tx]
  {
    var out := KeySet(done);
    assert KeySet(done + [k]) == out + {k};
    assert p.mineable - (out + {k}) == p.mineable - out - {k};
    LaunchedOne(p.mineable, p.inflight, out, k, round);
    Reinsert(p.byRound, round, out, k);
  }

  lemma LaunchedOne(m: map<Key, Pending>, inflight: map<Key, InFlight>, out: set<Key>, k: Key, round: Round)
    requires out <= m.Keys && k in m
    ensures inflight + Launched(m, out + {k}, round)
            == (inflight + Launched(m, out, round))[k := InFlight(m[k].tx, m[k].size, round)]
  {
  }

  /** The sealing loop after `n` pops: what is in the pool, how many bytes it took, what it collected. */
  ghost predicate Filled(p: Pool, ks: seq<Key>, n: nat, round: Round, q: Pool, bytes: nat, payload: Batch)
    requires n <= |ks|
  {
    && KeySet(ks[..n]) <= p.mineable.Keys
    && q == Promote(p, KeySet(ks[..n]), round)
    && bytes == SizeOf(p.mineable, ks[..n])
    && payload == Payload(p.mineable, ks[..n])
  }

  lemma FilledStart(p: Pool, ks: seq<Key>, round: Round)
    ensures Filled(p, ks, 0, round, Promote(p, {}, round), 0, [])
  {
    assert ks[..0] == [] && KeySet([]) == {};
  }

  lemma FilledGoesOn(p: Pool, ks: seq<Key>, n: nat, round: Round, q: Pool, bytes: nat, payload: Batch)
    requires IsSeal(p.mineable, p.batchSize, ks) && n <= |ks| && Filled(p, ks, n, round, q, bytes, payload)
    requires bytes < p.batchSize && q.mineable != map[]
    ensures n < |ks| && IsMin(q.mineable, ks[n])
  {
    SealProgress(p.mineable, p.batchSize, ks, n);
  }

  lemma FilledStep(p: Pool, ks: seq<Key>, n: nat, round: Round, q: Pool, bytes: nat, payload: Batch)
    requires IsSeal(p.mineable, p.batchSize, ks) && n < |ks| && Filled(p, ks, n, round, q, bytes, payload)
    requires ks[n] in q.mineable
    ensures Filled(p, ks, n + 1, round, PromotedOne(q, ks[n], round), bytes + q.mineable[ks[n]].size, payload +
            [q.mineable[ks[n]].tx])
  {
    assert ks[..n + 1] == ks[..n] + [ks[n]];
    SealProgress(p.mineable, p.batchSize, ks, n + 1);
    PromoteSnoc(p, ks[..n], ks[n], round);
  }

  lemma FilledEnd(p: Pool, ks: seq<Key>, n: nat, round: Round, q: Pool, bytes: nat, payload: Batch)
    requires IsSeal(p.mineable, p.batchSize, ks) && n <= |ks| && Filled(p, ks, n, round, q, bytes, payload)
    requires !(bytes < p.batchSize && q.mineable != map[])
    ensures KeySet(ks) <= p.mineable.Keys && q == Promote(p, KeySet(ks), round) && payload == Payload(p.mineable, ks)
  {
    SealProgress(p.mineable, p.batchSize, ks, n);
    assert ks[..n] == ks;
  }

  // ---------------------------------------------------------------- commit

  /** The pool after the first loop of commit, before stale keys are swept. */
  function Settled(p: Pool, batch: Batch): Pool {
    p.(mineable := p.mineable - Keys(batch),
       inflight := p.inflight - Keys(batch),
       byRound := DropKeys(p.byRound, Keys(batch)),
       high := Raise(p.high, batch))
  }

  function SettledOne(q: Pool, tx: Tx): Pool {
    var k := KeyOf(tx);
    var cur := Mark(q.high, tx.client);
    q.(mineable := q.mineable - {k},
       inflight := if k in q.inflight then q.inflight - {k} else q.inflight,
       byRound := if k in q.inflight && q.inflight[k].round in q.byRound
                  then q.byRound[q.inflight[k].round := q.byRound[q.inflight[k].round] - {k}]
                  else q.byRound,
       high := q.high[tx.client := if tx.nonce > cur then tx.nonce else cur])
  }

  lemma SameIndex(a: map<Round, set<Key>>, b: map<Round, set<Key>>)
    requires a.Keys == b.Keys && forall r :: r in a ==> a[r] == b[r]
    ensures a == b
  {
  }

  lemma SettleNothing(p: Pool)
    ensures Settled(p, []) == p
  {
    assert Keys([]) == {};
    assert p.mineable - {} == p.mineable && p.inflight - {} == p.inflight;
    assert forall r :: r in p.byRound ==> p.byRound[r] - {} == p.byRound[r];
    SameIndex(DropKeys(p.byRound, {}), p.byRound);
  }

  lemma DropOne(p: Pool, gone: set<Key>, k: Key)
    requires IndexAgrees(p.inflight, p.byRound)
    ensures var byRound := DropKeys(p.byRound, gone);
            DropKeys(p.byRound, gone + {k}) ==
              if k in p.inflight && k !in gone && p.inflight[k].round in byRound
              then byRound[p.inflight[k].round := byRound[p.inflight[k].round] - {k}]
              else byRound
  {
    var byRound := DropKeys(p.byRound, gone);
    var next := DropKeys(p.byRound, gone + {k});
    if k in p.inflight && k !in gone {
      var at := p.inflight[k].round;
      assert k in AtRound(p.byRound, at);
      forall r | r in next ensures next[r] == byRound[at := byRound[at] - {k}][r] {
        assert r == at || k !in p.byRound[r];
      }
      SameIndex(next, byRound[at := byRound[at] - {k}]);
    } else {
      forall r | r in next ensures next[r] == byRound[r] {
        assert k in gone || k !in p.byRound[r];
      }
      SameIndex(next, byRound);
    }
  }

  lemma SettledSnoc(p: Pool, batch: Batch, tx: Tx)
    requires PoolInv(p)
    ensures Settled(p, batch + [tx]) == SettledOne(Settled(p, batch), tx)
  {
    var gone := Keys(batch);
    var k := KeyOf(tx);
    KeysSnoc(batch, tx);
    DropOne(p, gone, k);
    assert p.mineable - (gone + {k}) == p.mineable - gone - {k};
    assert p.inflight - (gone + {k}) == if k in p.inflight - gone then p.inflight - gone - {k} else p.inflight - gone;
    assert (batch + [tx])[..|batch|] == batch;
  }

  function StaleOf(m: map<Key, Pending>, high: map<ClientId, Nonce>, c: ClientId): set<Key> {
    set k | k in m && k.client == c && Subsumed(high, k)
  }

  function Swept(m: map<Key, Pending>, high: map<ClientId, Nonce>, touched: set<ClientId>): map<Key, Pending> {
    map k | k in m && !(k.client in touched && Subsumed(high, k)) :: m[k]
  }

  lemma SweptOne(m: map<Key, Pending>, high: map<ClientId, Nonce>, touched: set<ClientId>, c: ClientId)
    ensures var now := Swept(m, high, touched);
            Swept(m, high, touched + {c}) == now - StaleOf(now, high, c)
  {
  }

  /** Sweeping the touched clients leaves exactly the keys above the new watermarks. */
  lemma SweptSettles(p: Pool, batch: Batch)
    requires PoolInv(p)
    ensures var high := Raise(p.high, batch);
            Swept(p.mineable - Keys(batch), high, Clients(batch)) == Above(p.mineable, high)
  {
    RaiseSubsumes(p.high, batch);
    forall k | k in p.mineable && k.client !in Clients(batch)
      ensures k !in Keys(batch) && !Subsumed(Raise(p.high, batch), k)
    {
      RaiseIsMax(p.high, batch, k.client);
    }
  }

  // ---------------------------------------------------------------- rollback

  lemma RollbackNothing(p: Pool)
    ensures Rollback(p, []) == p
  {
    assert Orphans(p.inflight, []) == {};
    assert p.mineable + Returned(p.inflight, p.high, {}) == p.mineable;
    assert p.inflight - {} == p.inflight;
    assert (set r: Round | r in []) == {};
    assert p.byRound - {} == p.byRound;
  }

  /** The given in-flight keys, returned. */
  function Back(p: Pool, ks: set<Key>): Pool
    requires ks <= p.inflight.Keys
  {
    p.(mineable := p.mineable + Returned(p.inflight, p.high, ks), inflight := p.inflight - ks)
  }

  function ReturnedOne(q: Pool, k: Key): Pool
    requires k in q.inflight
  {
    q.(inflight := q.inflight - {k},
       mineable := if Subsumed(q.high, k) then q.mineable
                   else q.mineable[k := Pending(q.inflight[k].tx, q.inflight[k].size)])
  }

  lemma BackTwice(p: Pool, one: set<Key>, two: set<Key>)
    requires one + two <= p.inflight.Keys && one !! two
    ensures two <= Back(p, one).inflight.Keys
    ensures Back(p, one + two) == Back(Back(p, one), two)
  {
    var inflight := p.inflight - one;
    assert p.inflight - (one + two) == inflight - two;
    var back := Returned(p.inflight, p.high, one);
    var more := Returned(inflight, p.high, two);
    assert Returned(p.inflight, p.high, one + two) == back + more;
    assert p.mineable + (back + more) == p.mineable + back + more;
  }

  lemma OrphansSnoc(inflight: map<Key, InFlight>, rounds: seq<Round>, r: Round)
    ensures var one := Orphans(inflight, rounds);
            var two := Orphans(inflight - one, [r]);
            Orphans(inflight, rounds + [r]) == one + two && one !! two
  {
  }

  lemma IndexSnoc(byRound: map<Round, set<Key>>, rounds: seq<Round>, r: Round)
    ensures byRound - (set x | x in rounds + [r]) == byRound - (set x | x in rounds) - (set x | x in [r])
  {
    assert (set x | x in rounds + [r]) == (set x | x in rounds) + (set x | x in [r]);
  }

  lemma RollbackSnoc(p: Pool, rounds: seq<Round>, r: Round)
    ensures Rollback(p, rounds + [r]) == Rollback(Rollback(p, rounds), [r])
  {
    var one := Orphans(p.inflight, rounds);
    OrphansSnoc(p.inflight, rounds, r);
    BackTwice(p, one, Orphans(p.inflight - one, [r]));
    IndexSnoc(p.byRound, rounds, r);
  }

  lemma BackNothing(p: Pool)
    ensures Back(p, {}) == p
  {
    assert p.mineable + Returned(p.inflight, p.high, {}) == p.mineable;
    assert p.inflight - {} == p.inflight;
  }

  lemma BackOne(p: Pool, ks: set<Key>, k: Key)
    requires ks + {k} <= p.inflight.Keys && k !in ks && k !in p.mineable
    ensures k in Back(p, ks).inflight && k !in Back(p, ks).mineable
    ensures Back(p, ks + {k}) == ReturnedOne(Back(p, ks), k)
  {
    assert p.inflight - (ks + {k}) == p.inflight - ks - {k};
    var have := Returned(p.inflight, p.high, ks);
    assert Returned(p.inflight, p.high, ks + {k})
        == if Subsumed(p.high, k) then have else have[k := Pending(p.inflight[k].tx, p.inflight[k].size)];
    assert !Subsumed(p.high, k) ==>
      p.mineable + have[k := Pending(p.inflight[k].tx, p.inflight[k].size)]
      == (p.mineable + have)[k := Pending(p.inflight[k].tx, p.inflight[k].size)];
  }

  /** The index names exactly the orphans of a round. */
  lemma RollbackIndexed(p: Pool, r: Round)
    requires PoolInv(p)
    ensures AtRound(p.byRound, r) <= p.inflight.Keys && AtRound(p.byRound, r) !! p.mineable.Keys
    ensures Rollback(p, [r]) == Back(p, AtRound(p.byRound, r)).(byRound := p.byRound - {r})
    ensures r !in p.byRound ==> Rollback(p, [r]) == p
  {
    forall k | k in Orphans(p.inflight, [r]) ensures k in AtRound(p.byRound, r) {
      assert k in AtRound(p.byRound, p.inflight[k].round);
    }
    assert Orphans(p.inflight, [r]) == AtRound(p.byRound, r);
    assert (set x | x in [r]) == {r};
    if r !in p.byRound {
      BackNothing(p);
      assert p.byRound - {r} == p.byRound;
    }
  }
}
