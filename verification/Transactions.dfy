/**
 Transactions, their deduplication keys, and batches.

 A batch travels with its content hash.  Hashing is modelled by a free
 constructor, so two batches have the same hash exactly when their payloads
 are equal.
 */
module Transactions {

  type ClientId = nat
  type Nonce = nat
  type Round = nat
  type Replica = nat

  datatype Option<+T> = None | Some(value: T)

  datatype Tx = Tx(client: ClientId, nonce: Nonce, data: seq<bv8>, request: seq<bv8>)

  /** The pool's deduplication key. */
  datatype Key = Key(client: ClientId, nonce: Nonce)

  type Batch = seq<Tx>

  datatype BatchHash = EmptyBatchHash | BatchDigest(payload: Batch)

  function KeyOf(tx: Tx): Key {
    Key(tx.client, tx.nonce)
  }

  /** Bytes of the fixed-width encoding: a 16-bit id, a 64-bit nonce and two
      vectors, each preceded by a 64-bit length. */
  function SerializedSize(tx: Tx): nat {
    2 + 8 + (8 + |tx.data|) + (8 + |tx.request|)
  }

  /** Ordered-map order of the keys: by client, then by nonce. */
  predicate Before(a: Key, b: Key) {
    a.client < b.client || (a.client == b.client && a.nonce < b.nonce)
  }

  function Keys(txs: Batch): set<Key> {
    set i | 0 <= i < |txs| :: KeyOf(txs[i])
  }

  function Clients(txs: Batch): set<ClientId> {
    set i | 0 <= i < |txs| :: txs[i].client
  }

  /** The first transaction of `txs` that carries key `k`. */
  function First(txs: Batch, k: Key): (tx: Tx)
    requires k in Keys(txs)
    ensures KeyOf(tx) == k
  {
    if KeyOf(txs[0]) == k then
      txs[0]
    else
      assert forall i | 0 < i < |txs| :: txs[i] == txs[1..][i - 1];
      First(txs[1..], k)
  }

  lemma KeysSnoc(txs: Batch, tx: Tx)
    ensures Keys(txs + [tx]) == Keys(txs) + {KeyOf(tx)}
    ensures Clients(txs + [tx]) == Clients(txs) + {tx.client}
  {
    var all := txs + [tx];
    assert all[|txs|] == tx;
    assert forall i | 0 <= i < |txs| :: all[i] == txs[i];
  }

  lemma {:induction false} FirstSnoc(txs: Batch, tx: Tx, k: Key)
    requires k in Keys(txs + [tx])
    ensures First(txs + [tx], k) == if k in Keys(txs) then First(txs, k) else tx
  {
    KeysSnoc(txs, tx);
    if |txs| > 0 && KeyOf(txs[0]) != k {
      assert (txs + [tx])[1..] == txs[1..] + [tx];
      assert forall i | 0 < i < |txs| :: txs[i] == txs[1..][i - 1];
      KeysSnoc(txs[1..], tx);
      FirstSnoc(txs[1..], tx, k);
    }
  }
}
