/**
 Exactly once on one chain: no key occurs in two of its blocks.  What the two
 chain protocols need to show this of their runs.
 */
module ChainOnce {
  import opened Transactions
  import opened PoolSpec
  import opened BatcherSpec
  import opened BatcherOnce
  import opened Blocks
  import opened Chains

  // ---------------------------------------------------------------- the chain

  /** Keys of all rounds below `next`. */
  function PastKeys(c: seq<Block>, next: nat): set<Key> {
    if next <= 1 then {} else PastKeys(c, next - 1) + Keys(PayloadAt(c, next - 1))
  }

  /** A batch that may still be proposed in round `round`. */
  ghost predicate Unused(batch: Batch, round: nat, c: seq<Block>) {
    NoDuplicates(batch) && Keys(batch) !! PastKeys(c, round)
  }

  /** No key twice in the whole history. */
  ghost predicate HistoryOnce(c: seq<Block>) {
    forall r :: 1 <= r < |c| ==> Unused(PayloadAt(c, r), r, c)
  }

  lemma {:induction false} PastKeysGrow(c: seq<Block>, c': seq<Block>, next: nat)
    requires c <= c' && next <= |c|
    ensures PastKeys(c', next) == PastKeys(c, next)
  {
    if next > 1 {
      PastKeysGrow(c, c', next - 1);
    }
  }

  lemma HistoryOnceExtends(c: seq<Block>, b: Block, batch: Batch)
    requires HistoryOnce(c) && b.batch == BatchDigest(batch) && Unused(batch, |c|, c)
    ensures HistoryOnce(c + [b])
  {
    hide NoDuplicates, PastKeys;
    var c' := c + [b];
    forall r | 1 <= r < |c'| ensures Unused(PayloadAt(c', r), r, c') {
      PastKeysGrow(c, c', r);
      if r < |c| {
        assert Unused(PayloadAt(c, r), r, c);
      }
    }
  }

  lemma {:induction false} PastIncludes(c: seq<Block>, q: nat, next: nat)
    requires 1 <= q < next
    ensures Keys(PayloadAt(c, q)) <= PastKeys(c, next)
  {
    if q < next - 1 {
      PastIncludes(c, q, next - 1);
    }
  }

  lemma RoundsDisjoint(c: seq<Block>, q: nat, r: nat)
    requires HistoryOnce(c) && 1 <= q < |c| && 1 <= r < |c| && q != r
    ensures Keys(PayloadAt(c, q)) !! Keys(PayloadAt(c, r))
  {
    hide NoDuplicates, PastKeys;
    var lo, hi := if q < r then q else r, if q < r then r else q;
    assert Unused(PayloadAt(c, hi), hi, c);
    PastIncludes(c, lo, hi);
  }

  /** The batches of a committed prefix of the chain repeat no key. */
  lemma PrefixOnce(c: seq<Block>, m: nat, a: nat, b: nat)
    requires ChainOk(c) && HistoryOnce(c) && m <= |c| && a < b < |PayloadsOf(c[..m])|
    ensures var out := PayloadsOf(c[..m]);
            Keys(out[a]) !! Keys(out[b]) && NoDuplicates(out[a]) && NoDuplicates(out[b])
  {
    hide ChainOk, NoDuplicates, PastKeys, PayloadAt;
    if m >= 1 {
      hide PayloadsOf;
      RouterIs(c, m);
      RoundsDisjoint(c, a + 1, b + 1);
      assert Unused(PayloadAt(c, a + 1), a + 1, c) && Unused(PayloadAt(c, b + 1), b + 1, c);
    }
  }

  // ---------------------------------------------------------------- one batcher

  /** Keys of all batches a batcher has sent. */
  function SealedKeys(sealed: seq<Batch>): set<Key> {
    if sealed == [] then {} else SealedKeys(sealed[..|sealed| - 1]) + Keys(sealed[|sealed| - 1])
  }

  /** One batcher never sends a key twice. */
  ghost predicate SealedOnce(sealed: seq<Batch>) {
    forall j :: 0 <= j < |sealed| ==> NoDuplicates(sealed[j]) && Keys(sealed[j]) !! SealedKeys(sealed[..j])
  }

  lemma SealedOnceSnoc(sealed: seq<Batch>, batch: Batch)
    requires SealedOnce(sealed) && NoDuplicates(batch) && Keys(batch) !! SealedKeys(sealed)
    ensures SealedOnce(sealed + [batch]) && SealedKeys(sealed + [batch]) == SealedKeys(sealed) + Keys(batch)
  {
    hide NoDuplicates;
    var all := sealed + [batch];
    assert all[..|sealed|] == sealed;
    forall j | 0 <= j < |all| ensures NoDuplicates(all[j]) && Keys(all[j]) !! SealedKeys(all[..j]) {
      if j < |sealed| {
        assert all[..j] == sealed[..j];
      }
    }
  }

  /** The chain consists of what the batcher has sent, in that order. */
  ghost predicate FromSealed(c: seq<Block>, sealed: seq<Batch>) {
    |c| <= |sealed| + 1 && forall r :: 1 <= r < |c| ==> PayloadAt(c, r) == sealed[r - 1]
  }

  lemma {:induction false} PastIsSealed(c: seq<Block>, sealed: seq<Batch>, next: nat)
    requires FromSealed(c, sealed) && 1 <= next <= |c|
    ensures PastKeys(c, next) == SealedKeys(sealed[..next - 1])
    decreases next
  {
    hide PayloadAt;
    if next > 1 {
      PastIsSealed(c, sealed, next - 1);
      assert sealed[..next - 1][..next - 2] == sealed[..next - 2];
    }
  }

  lemma SealedHistoryOnce(c: seq<Block>, sealed: seq<Batch>)
    requires FromSealed(c, sealed) && SealedOnce(sealed)
    ensures HistoryOnce(c)
  {
    hide PayloadAt, NoDuplicates, PastKeys, SealedKeys;
    forall r | 1 <= r < |c| ensures Unused(PayloadAt(c, r), r, c) {
      PastIsSealed(c, sealed, r);
    }
  }

  ghost predicate BatcherOnceOk(b: Batcher, sealed: seq<Batch>) {
    PoolInv(b.pool) && AllHandled(b.pool, SealedKeys(sealed)) && SealedOnce(sealed)
  }

  lemma FeedOnce(b: Batcher, sealed: seq<Batch>, input: Input)
    requires BatcherOnceOk(b, sealed) && NotRollback(input)
    ensures BatcherOnceOk(Step(b, input).0, sealed + Step(b, input).1) && |Step(b, input).1| <= 1
  {
    hide Step, PoolInv, AllHandled, SealedOnce, NoDuplicates, SealedKeys;
    var (t, sent) := Step(b, input);
    StepIsNew(b, input, SealedKeys(sealed));
    StepDiscipline(b, input);
    if sent == [] {
      assert sealed + sent == sealed;
    } else {
      assert sent == [sent[0]];
      SealedOnceSnoc(sealed, sent[0]);
      SentIsHandled(b, input);
      HandledUnion(t.pool, SealedKeys(sealed), Keys(sent[0]));
    }
  }

  lemma SentIsHandled(b: Batcher, input: Input)
    requires PoolInv(b.pool) && Step(b, input).1 != []
    ensures AllHandled(Step(b, input).0.pool, Keys(Step(b, input).1[0]))
  {
    hide Step, PoolInv;
    StepDiscipline(b, input);
  }

  lemma FromSealedGrows(c: seq<Block>, sealed: seq<Batch>, more: seq<Batch>)
    requires FromSealed(c, sealed)
    ensures FromSealed(c, sealed + more)
  {
    hide PayloadAt;
  }
}
