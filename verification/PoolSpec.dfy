/**
 What the nonce-keyed transaction pool stores and what each of its events
 does, stated on values and without loops.
 */
module PoolSpec {
  import opened Transactions

  datatype Pending = Pending(tx: Tx, size: nat)

  datatype InFlight = InFlight(tx: Tx, size: nat, round: Round)

  datatype Pool = Pool(
    mineable: map<Key, Pending>,
    inflight: map<Key, InFlight>,
    byRound: map<Round, set<Key>>,
    high: map<ClientId, Nonce>,
    batchSize: nat)

  function EmptyPool(batchSize: nat): Pool {
    Pool(map[], map[], map[], map[], batchSize)
  }

  /** The replay watermark of a client, 0 until something of it commits. */
  function Mark(high: map<ClientId, Nonce>, c: ClientId): Nonce {
    if c in high then high[c] else 0
  }

  predicate Subsumed(high: map<ClientId, Nonce>, k: Key) {
    k.nonce <= Mark(high, k.client)
  }

  function AtRound(byRound: map<Round, set<Key>>, r: Round): set<Key> {
    if r in byRound then byRound[r] else {}
  }

  /** The two tables agree: a key is listed under a round exactly when it is in flight at that round. */
  predicate IndexAgrees(inflight: map<Key, InFlight>, byRound: map<Round, set<Key>>) {
    && (forall k :: k in inflight ==> k in AtRound(byRound, inflight[k].round))
    && (forall r, k :: r in byRound && k in byRound[r] ==> k in inflight && inflight[k].round == r)
  }

  /** The pool's invariant. */
  predicate PoolInv(p: Pool) {
    && p.mineable.Keys !! p.inflight.Keys
    && (forall k :: k in p.mineable ==> KeyOf(p.mineable[k].tx) == k && !Subsumed(p.high, k))
    && (forall k :: k in p.inflight ==> KeyOf(p.inflight[k].tx) == k && k.nonce > 0)
    && IndexAgrees(p.inflight, p.byRound)
  }

  // ---------------------------------------------------------------- byte counter

  /** Total size of a table of mineable transactions. */
  ghost function Bytes(m: map<Key, Pending>): nat
    decreases |m|
  {
    if m == map[] then 0 else
      var k :| k in m;
      m[k].size + Bytes(m - {k})
  }

  lemma {:induction false} BytesRemove(m: map<Key, Pending>, k: Key)
    requires k in m
    ensures Bytes(m) == m[k].size + Bytes(m - {k})
    decreases |m|
  {
    var pick :| pick in m && Bytes(m) == m[pick].size + Bytes(m - {pick});
    if pick != k {
      BytesRemove(m - {pick}, k);
      BytesRemove(m - {k}, pick);
      assert m - {pick} - {k} == m - {k} - {pick};
    }
  }

  /** Inserting an entry, whether or not the key was there before. */
  lemma BytesPut(m: map<Key, Pending>, k: Key, e: Pending)
    ensures Bytes(m[k := e]) + (if k in m then m[k].size else 0) == Bytes(m) + e.size
  {
    BytesRemove(m[k := e], k);
    assert m[k := e] - {k} == m - {k};
    if k in m {
      BytesRemove(m, k);
    } else {
      assert m - {k} == m;
    }
  }

  // ---------------------------------------------------------------- events

  function AddTx(p: Pool, tx: Tx, size: nat): Pool {
    var k := KeyOf(tx);
    if Subsumed(p.high, k) || k in p.inflight then p
    else p.(mineable := p.mineable[k := Pending(tx, size)])
  }

  /** Keys of a proposed batch that are neither subsumed nor already in flight. */
  function Admitted(p: Pool, batch: Batch): set<Key> {
    set k | k in Keys(batch) && !Subsumed(p.high, k) && k !in p.inflight
  }

  function AdmittedSize(p: Pool, batch: Batch, k: Key): nat
    requires k in Keys(batch)
  {
    if k in p.mineable then p.mineable[k].size else SerializedSize(First(batch, k))
  }

  function AdmittedEntries(p: Pool, batch: Batch, round: Round): map<Key, InFlight> {
    map k | k in Admitted(p, batch) :: InFlight(First(batch, k), AdmittedSize(p, batch, k), round)
  }

  /** Every new key of the batch goes in flight at `round`; the first transaction with that key is kept. */
  function Admit(p: Pool, batch: Batch, round: Round): Pool {
    var taken := Admitted(p, batch);
    p.(mineable := p.mineable - taken,
       inflight := p.inflight + AdmittedEntries(p, batch, round),
       byRound := p.byRound[round := AtRound(p.byRound, round) + taken])
  }

  /** `k` is the smallest key of the table. */
  predicate IsMin(m: map<Key, Pending>, k: Key) {
    k in m && forall x :: x in m && x != k ==> Before(k, x)
  }

  lemma {:induction false} MinExists(m: map<Key, Pending>)
    requires m != map[]
    ensures exists k :: IsMin(m, k)
    decreases |m|
  {
    var x :| x in m;
    var rest := m - {x};
    if rest == map[] {
      assert forall y :: y in m && y != x ==> y in rest;
      assert IsMin(m, x);
    } else {
      MinExists(rest);
      var k :| IsMin(rest, k);
      assert forall y :: y in m && y != x ==> y in rest;
      assert IsMin(m, if Before(k, x) then k else x);
    }
  }

  ghost function MinKey(m: map<Key, Pending>): (k: Key)
    requires m != map[]
    ensures IsMin(m, k)
  {
    MinExists(m);
    var k :| IsMin(m, k);
    k
  }

  /** The keys that leave the pool when `need` more bytes are wanted. */
  ghost function Seal(m: map<Key, Pending>, need: int): seq<Key>
    decreases |m|
  {
    if need <= 0 || m == map[] then []
    else
      var k := MinKey(m);
      [k] + Seal(m - {k}, need - m[k].size)
  }

  ghost function KeySet(ks: seq<Key>): set<Key> {
    set k | k in ks
  }

  function Launched(m: map<Key, Pending>, out: set<Key>, round: Round): map<Key, InFlight>
    requires out <= m.Keys
  {
    map k | k in out :: InFlight(m[k].tx, m[k].size, round)
  }

  /** The given mineable keys, moved in flight at `round`. */
  function Promote(p: Pool, out: set<Key>, round: Round): Pool
    requires out <= p.mineable.Keys
  {
    p.(mineable := p.mineable - out,
       inflight := p.inflight + Launched(p.mineable, out, round),
       byRound := p.byRound[round := AtRound(p.byRound, round) + out])
  }

  function Payload(m: map<Key, Pending>, ks: seq<Key>): Batch
    requires forall k :: k in ks ==> k in m
  {
    seq(|ks|, i requires 0 <= i < |ks| => assert ks[i] in ks; m[ks[i]].tx)
  }

  ghost function MakeBatch(p: Pool, round: Round): (Pool, Batch) {
    var ks := Seal(p.mineable, p.batchSize);
    SealedKeysAreMineable(p.mineable, p.batchSize);
    (Promote(p, KeySet(ks), round), Payload(p.mineable, ks))
  }

  lemma {:induction false} SealedKeysAreMineable(m: map<Key, Pending>, need: int)
    ensures forall k :: k in Seal(m, need) ==> k in m
    decreases |m|
  {
    if need > 0 && m != map[] {
      SealedKeysAreMineable(m - {MinKey(m)}, need - m[MinKey(m)].size);
    }
  }

  /** Watermarks after the transactions of `batch` have committed. */
  function Raise(high: map<ClientId, Nonce>, batch: Batch): map<ClientId, Nonce> {
    if batch == [] then high
    else
      var tx := batch[|batch| - 1];
      var before := Raise(high, batch[..|batch| - 1]);
      before[tx.client := if tx.nonce > Mark(before, tx.client) then tx.nonce else Mark(before, tx.client)]
  }

  function DropKeys(byRound: map<Round, set<Key>>, ks: set<Key>): map<Round, set<Key>> {
    map r | r in byRound :: byRound[r] - ks
  }

  /** Removes the index entry of a round once nothing is in flight there. */
  function Prune(byRound: map<Round, set<Key>>, round: Round): map<Round, set<Key>> {
    if round in byRound && byRound[round] == {} then byRound - {round} else byRound
  }

  function Above(m: map<Key, Pending>, high: map<ClientId, Nonce>): map<Key, Pending> {
    map k | k in m && !Subsumed(high, k) :: m[k]
  }

  /** Only keys above the new watermarks stay mineable; the batch's own keys leave the in-flight table. */
  function Commit(p: Pool, batch: Batch, round: Round): Pool {
    var high := Raise(p.high, batch);
    p.(mineable := Above(p.mineable, high),
       inflight := p.inflight - Keys(batch),
       byRound := Prune(DropKeys(p.byRound, Keys(batch)), round),
       high := high)
  }

  function Orphans(inflight: map<Key, InFlight>, rounds: seq<Round>): set<Key> {
    set k | k in inflight && inflight[k].round in rounds
  }

  function Returned(inflight: map<Key, InFlight>, high: map<ClientId, Nonce>, orphans: set<Key>): map<Key, Pending>
    requires orphans <= inflight.Keys
  {
    map k | k in orphans && !Subsumed(high, k) :: Pending(inflight[k].tx, inflight[k].size)
  }

  /** Everything in flight at one of `rounds` returns to the pool, unless it is subsumed. */
  function Rollback(p: Pool, rounds: seq<Round>): Pool {
    var orphans := Orphans(p.inflight, rounds);
    p.(mineable := p.mineable + Returned(p.inflight, p.high, orphans),
       inflight := p.inflight - orphans,
       byRound := p.byRound - (set r | r in rounds))
  }

  ghost predicate Ready(p: Pool) {
    Bytes(p.mineable) > p.batchSize
  }
}
