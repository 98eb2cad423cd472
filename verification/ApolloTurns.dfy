/**
 What a site can be made to do: catch up with the chain, let its batcher hear of
 everything, and take its turn as leader.  These are the building blocks of the
 runs in `ApolloEarlySeal`.
 */
module ApolloTurns {
  import opened Transactions
  import opened PoolSpec
  import opened BatcherSpec
  import opened Blocks
  import opened Chains
  import opened ApolloCore
  import opened ApolloBuffers
  import opened ApolloAgreement
  import opened ApolloCluster
  import opened ApolloOnce
  import ApolloRuns

  // ---------------------------------------------------------------- what the batcher is told

  /** All nonces of the batch are below `bound`. */
  predicate Below(batch: Batch, bound: nat) {
    forall i :: 0 <= i < |batch| ==> batch[i].nonce < bound
  }

  predicate PlainMsg(m: BatcherMsg, bound: nat) {
    m.NewRound? || ((m.Proposed? || m.Committed?) && Below(m.batch, bound))
  }

  predicate PlainLog(log: seq<BatcherMsg>, bound: nat) {
    forall j :: 0 <= j < |log| ==> PlainMsg(log[j], bound)
  }

  predicate ChainBelow(c: seq<Block>, bound: nat) {
    forall i :: 0 <= i < |c| && c[i].batch.BatchDigest? ==> Below(c[i].batch.payload, bound)
  }

  lemma {:induction false} NoticesPlain(blocks: seq<Block>, bound: nat)
    requires ChainBelow(blocks, bound)
    ensures PlainLog(NoticesOf(blocks), bound)
  {
    if blocks != [] {
      NoticesPlain(blocks[..|blocks| - 1], bound);
    }
  }

  lemma PlainGrows(log: seq<BatcherMsg>, bound: nat, more: nat)
    requires PlainLog(log, bound) && bound <= more
    ensures PlainLog(log, more)
  {
    forall j | 0 <= j < |log| ensures PlainMsg(log[j], more) {
      assert PlainMsg(log[j], bound);
    }
  }

  // ---------------------------------------------------------------- batchers

  /** A pool with one transaction seals it. */
  lemma SealSingle(p: Pool, k: Key, e: Pending, round: Round)
    requires p.mineable == map[k := e] && e.size > p.batchSize > 0
    ensures PoolSpec.Ready(p) && MakeBatch(p, round).1 == [e.tx]
    ensures MakeBatch(p, round).0.mineable == map[] && MakeBatch(p, round).0.high == p.high
    ensures MakeBatch(p, round).0.inflight.Keys == p.inflight.Keys + {k}
    ensures MakeBatch(p, round).0.batchSize == p.batchSize
  {
    assert k in p.mineable;
    BytesRemove(p.mineable, k);
    var m := p.mineable;
    assert MinKey(m) == k;
    assert m - {k} == map[];
    assert Seal(m - {k}, p.batchSize - e.size) == [];
    assert Seal(m, p.batchSize) == [k] + Seal(m - {k}, p.batchSize - e.size);
    SealedKeysAreMineable(m, p.batchSize);
    assert Seal(m, p.batchSize) == [k];
    assert KeySet([k]) == {k};
  }

  /** A client's transaction that alone is more than a batch of `size`. */
  function BigTx(nonce: nat, size: nat): (tx: Tx)
    ensures tx.nonce == nonce && SerializedSize(tx) > size
  {
    Tx(0, nonce, [], seq(size, _ => 0))
  }

  /** The next transaction after all those with nonces below `bound`, and more than a batch of `size`. */
  predicate NextTx(tx: Tx, size: nat, bound: nat) {
    tx.nonce == bound && bound > 0 && SerializedSize(tx) > size
  }

  /** Nothing to mine, and all it knows has nonces below `bound`. */
  ghost predicate CalmBatcher(b: Batcher, me: Replica, size: nat, bound: nat) {
    && b.me == me && b.pool.mineable == map[] && b.pool.batchSize == size
    && (forall k :: k in b.pool.inflight ==> k.nonce < bound)
    && (forall c :: c in b.pool.high ==> b.pool.high[c] < bound)
  }

  /** A batcher whose turn it is seals the next transaction. */
  lemma SubmitSeals(b: Batcher, me: Replica, size: nat, bound: nat, tx: Tx)
    requires CalmBatcher(b, me, size, bound) && b.leader == me && !b.proposed && size > 0 && NextTx(tx, size, bound)
    ensures var (t, sent) := Step(b, ClientTx(tx, SerializedSize(tx)));
            sent == [[tx]] && CalmBatcher(t, me, size, bound + 1) && t.leader == b.leader
  {
    hide MakeBatch, PoolSpec.Ready, SerializedSize;
    var e := Pending(tx, SerializedSize(tx));
    var p := AddTx(b.pool, tx, e.size);
    assert KeyOf(tx) !in b.pool.inflight && !Subsumed(b.pool.high, KeyOf(tx));
    assert p.mineable == map[KeyOf(tx) := e];
    SealSingle(p, KeyOf(tx), e, b.round);
    assert forall k :: k in p.inflight.Keys + {KeyOf(tx)} ==> k.nonce < bound + 1;
  }

  lemma {:induction false} RaiseBelow(high: map<ClientId, Nonce>, batch: Batch, bound: nat)
    requires Below(batch, bound) && forall c :: c in high ==> high[c] < bound
    ensures forall c :: c in Raise(high, batch) ==> Raise(high, batch)[c] < bound
  {
    if batch != [] {
      RaiseBelow(high, batch[..|batch| - 1], bound);
    }
  }

  lemma AdmitBelow(p: Pool, batch: Batch, round: Round, bound: nat)
    requires p.mineable == map[] && Below(batch, bound) && forall k :: k in p.inflight ==> k.nonce < bound
    ensures Admit(p, batch, round) == p.(inflight := Admit(p, batch, round).inflight,
            byRound := Admit(p, batch, round).byRound)
    ensures forall k :: k in Admit(p, batch, round).inflight ==> k.nonce < bound
  {
    assert forall k :: k in Keys(batch) ==> k.nonce < bound;
  }

  /** A calm batcher stays calm and silent, whatever it hears. */
  lemma HearsPlain(b: Batcher, m: BatcherMsg, me: Replica, size: nat, bound: nat)
    requires CalmBatcher(b, me, size, bound) && PlainMsg(m, bound)
    ensures var (t, sent) := Step(b, FromConsensus(m));
            && sent == [] && CalmBatcher(t, me, size, bound)
            && (m.NewRound? ==> t.leader == m.leader && t.round == m.round && !t.proposed)
  {
    hide Admit, Raise;
    match m
    case NewRound(_, _) =>
    case Proposed(batch, round) => AdmitBelow(b.pool, batch, round, bound);
    case Committed(batch, round) => RaiseBelow(b.pool.high, batch, bound);
  }

  // ---------------------------------------------------------------- replicas

  /** On the chain, with nothing buffered. */
  ghost predicate Settled(s: Node, c: seq<Block>) {
    Good(s, c) && Own(s, c) && s.parked == map[] && s.future == map[]
  }

  lemma SettledFacts(s: Node, c: seq<Block>)
    requires Settled(s, c)
    ensures !s.halted && 1 <= s.round <= |c| && s.cfg.n > 0 && s.leader == LeaderOf(s.cfg.n, s.round) &&
            HistoryOk(s.cfg.n, c)
  {
    hide TablesOk, PendingInv, HonestStore, HonestBuffers, HonestNet, LogInv, HistoryOk, Own, LeaderOf;
  }

  /** The blocks that accepting round r makes due for commit. */
  function DueBlocks(c: seq<Block>, r: nat, f: nat): seq<Block>
    requires r < |c|
  {
    if r > f then c[CommitCount(r, f)..r - f + 1] else []
  }

  lemma AcceptLog(s: Node, p: Propose, b: Block, c: seq<Block>)
    requires Good(s, c) && AtHand(s, p, b) && HonestProp(c, p) && p.round == s.round && b == c[p.round]
    ensures OnProposal(s, p, b).toBatcher ==
            s.toBatcher + [Proposed(PayloadAt(c, s.round), s.round)] + NoticesOf(DueBlocks(c, s.round, s.cfg.f))
            + [NewRound(OnProposal(s, p, b).leader, s.round + 1)]
    ensures s.net <= OnProposal(s, p, b).net
  {
    hide Equivocates, NodeInv, Honest, Record, CommitIfDue, NoticesOf, DueBlocks, ApolloAgreement.Ready;
    HistoryBlock(s.cfg.n, c, p.round);
    NotEquivocating(s, b, c);
    RecordTells(s, p, b, c);
    RecordReady(s, p, b, c);
    RecordNet(s, p, b);
    CommitLog(Record(s, p, b), c);
  }

  lemma RecordNet(s: Node, p: Propose, b: Block)
    ensures s.net <= Record(s, p, b).net
  {
    hide ReadBatch;
  }

  lemma CommitLog(s: Node, c: seq<Block>)
    requires ApolloAgreement.Ready(s, c)
    ensures s.round < |c| && !CommitIfDue(s).halted
    ensures CommitIfDue(s).toBatcher == s.toBatcher + NoticesOf(DueBlocks(c, s.round, s.cfg.f))
  {
    hide NodeInvAt, HistoryOk, HonestStore, NoticesOf, DoCommit;
    if s.round > s.cfg.f {
      CommitOnChain(s, c);
    } else {
      NoNotices();
      assert s.toBatcher + NoticesOf([]) == s.toBatcher;
    }
  }

  lemma NoNotices()
    ensures NoticesOf([]) == []
  {
  }

  /** The notices of one accepted round are plain and end with the next round. */
  lemma AcceptPlain(log: seq<BatcherMsg>, c: seq<Block>, r: nat, f: nat, leader: Replica, bound: nat)
    requires PlainLog(log, bound) && ChainBelow(c, bound) && r < |c|
    ensures var log' := log + [Proposed(PayloadAt(c, r), r)] + NoticesOf(DueBlocks(c, r, f)) +
            [NewRound(leader, r + 1)];
            PlainLog(log', bound) && log <= log' && |log| < |log'| && log'[|log'| - 1] == NewRound(leader, r + 1)
  {
    hide NoticesOf;
    NoticesPlain(DueBlocks(c, r, f), bound);
  }

  lemma ReadyToFollow(s: Node, p: Propose, b: Block, c: seq<Block>)
    requires Settled(s, c) && HonestProp(c, p) && b == c[p.round] && s.round == p.round
    ensures Acceptable(s, p, b) && b.header.prev in s.st.byHash && p.round !in s.byRound && Finalized(b) &&
            b.sig == UNSIGNED
    ensures b.batch == BatchDigest(PayloadAt(c, p.round))
  {
    hide TablesOk, PendingInv, HonestStore, HonestBuffers, HonestNet, LogInv, ChainOk;
    HistoryBlock(s.cfg.n, c, p.round);
    HeadStored(s);
    AcceptedRounds(s);
  }

  lemma StoredOnTop(s: Node, p: Propose, b: Block)
    requires b.hash in s.st.byHash && s.st.byHash[b.hash] == b && b.hash == p.hash && Finalized(b) &&
             b.header.prev in s.st.byHash
    ensures AtHand(s, p, b)
  {
  }

  /** A replica that gets the current round's proposal goes to the next round. */
  lemma Follows(s: Node, c: seq<Block>)
    requires Settled(s, c) && s.round < |c|
    ensures var t := ProcessMessages(s, [Announce(c, s.round)]);
            && Settled(t, c) && t.round == s.round + 1 && t.pending == s.pending && t.cfg == s.cfg && s.net <= t.net
            && t.toBatcher == s.toBatcher + [Proposed(PayloadAt(c, s.round), s.round)]
                              + NoticesOf(DueBlocks(c, s.round, s.cfg.f)) + [NewRound(t.leader, t.round)]
  {
    hide NodeInv, Honest, HistoryOk, OnProposal, ProcessMessages, Persist, Own, OnFullProposal, PayloadAt, DueBlocks,
      NoticesOf;
    SettledFacts(s, c);
    var p, b, batch := ProposeOf(c[s.round], s.round), c[s.round], PayloadAt(c, s.round);
    ReadyToFollow(s, p, b, c);
    ApolloRuns.AcceptsNow(s, p, b, batch);
    ApolloRuns.ProcessOne(s, p, b, batch);
    PersistKeepsNode(s, batch);
    var s1 := s.(bs := Persist(s.bs, b.batch, batch));
    BatchesHonest(s, Persist(s.bs, b.batch, batch), s.pending, c);
    HistoryBlock(s.cfg.n, c, p.round);
    StoreGood(s1, b, c);
    var s2 := s1.(st := AddDelivered(s.st, b));
    StoredOnTop(s2, p, b);
    OnProposalGood(s2, p, b, c);
    AcceptLog(s2, p, b, c);
    OnFullGood(s, p.sig.origin, p, b, batch, c);
    OwnLater(s, ProcessMessages(s, [Announce(c, s.round)]), c);
  }

  lemma NothingToPropose(s: Node)
    ensures ProposeAll(s, []) == s.(pending := [])
    ensures s.leader != s.cfg.me ==> ProposeAll(s, s.pending) == s
  {
  }

  /** The turn of the reactor that goes with it; a batch that waits is not proposed in another's round. */
  lemma FollowsTurn(s: Node, c: seq<Block>, bound: nat)
    requires Settled(s, c) && s.round < |c| && ChainBelow(c, bound) && PlainLog(s.toBatcher, bound)
    requires s.pending == [] || (s.round >= 1 && s.cfg.n > 0 && LeaderOf(s.cfg.n, s.round + 1) != s.cfg.me)
    ensures var t := React(s, Received([Announce(c, s.round)]));
            && Settled(t, c) && t.round == s.round + 1 && t.pending == s.pending && t.cfg == s.cfg && s.net <= t.net
            && PlainLog(t.toBatcher, bound) && s.toBatcher <= t.toBatcher && |s.toBatcher| < |t.toBatcher|
            && t.toBatcher[|t.toBatcher| - 1] == NewRound(t.leader, t.round)
  {
    hide Settled, ProcessMessages, ProposeAll, NoticesOf, PlainLog, ChainBelow, LeaderOf;
    Follows(s, c);
    SettledFacts(s, c);
    var t := ProcessMessages(s, [Announce(c, s.round)]);
    SettledFacts(t, c);
    NothingToPropose(t);
    AcceptPlain(s.toBatcher, c, s.round, s.cfg.f, t.leader, bound);
  }

  lemma ProposalKeepsBuffers(s: Node, batch: Batch)
    ensures DoPropose(s, batch).parked == s.parked && DoPropose(s, batch).future == s.future
  {
    hide OnProposal;
  }

  /** What the leader's own proposal sends and tells. */
  lemma ProposeLog(s: Node, batch: Batch, c: seq<Block>)
    requires Good(s, c) && Own(s, c) && s.leader == s.cfg.me && BatchDigest(batch) in s.bs.cache
    ensures |c| >= 1 && s.round == |c|
    ensures var c' := c + [NextBlock(s, batch)];
            var t := DoPropose(s, batch);
            && s.net <= t.net && ToAll(Announce(c', |c|)) in t.net
            && t.toBatcher == s.toBatcher + [Proposed(batch, s.round)] + [Proposed(batch, s.round)]
                              + NoticesOf(DueBlocks(c', s.round, s.cfg.f)) + [NewRound(t.leader, s.round + 1)]
  {
    hide NodeInv, Honest, HistoryOk, OnProposal, LeaderOf, DueBlocks, NoticesOf;
    var b := NextBlock(s, batch);
    var c' := c + [b];
    LeaderIsNext(s, c);
    HeadHeight(s.cfg.n, c);
    HistoryExtends(s.cfg.n, c, b);
    HonestGrows(s, c, c');
    var p := ProposeOf(b, s.round);
    var sent := Multicast(s, NewProposal(p, b, batch));
    SendHonest(s, 0, NewProposal(p, b, batch), c');
    SendKeeps(s, 0, NewProposal(p, b, batch));
    ToldHonest(sent, batch, s.round, c');
    ToldKeeps(sent, Proposed(batch, s.round));
    var told := sent.(toBatcher := s.toBatcher + [Proposed(batch, s.round)]);
    HeadStored(s);
    StoreGood(told, b, c');
    AcceptLog(told.(st := AddDelivered(s.st, b)), p, b, c');
    assert sent.net[|s.net|] == ToAll(NewProposal(p, b, batch));
  }

  /** The chain after replica `me` has proposed `tx` on top of it. */
  function Extended(c: seq<Block>, me: Replica, tx: Tx): (c': seq<Block>)
    requires c != []
    ensures c <= c' && |c'| == |c| + 1 && PayloadAt(c', |c|) == [tx]
  {
    c + [NewBlock(c[|c| - 1], me, [tx], UNSIGNED)]
  }

  /** The leader of the current round proposes the one batch it has waiting. */
  lemma ProposesNow(s: Node, tx: Tx, c: seq<Block>, bound: nat)
    requires Settled(s, c) && c != [] && s.leader == s.cfg.me && s.pending == [(BatchDigest([tx]), [tx])]
    requires ChainBelow(c, bound) && PlainLog(s.toBatcher, bound) && tx.nonce < bound
    ensures var c' := Extended(c, s.cfg.me, tx);
            var t := ProposeAll(s, s.pending);
            && Settled(t, c') && t.round == |c'| && t.pending == [] && t.cfg == s.cfg
            && s.net <= t.net && ToAll(Announce(c', |c|)) in t.net && ChainBelow(c', bound)
            && PlainLog(t.toBatcher, bound) && s.toBatcher <= t.toBatcher && |s.toBatcher| < |t.toBatcher|
            && t.toBatcher[|t.toBatcher| - 1] == NewRound(t.leader, t.round)
  {
    hide NodeInv, Honest, HistoryOk, DoPropose, LeaderOf, NoticesOf, PlainLog, ChainBelow, Own;
    var c' := Extended(c, s.cfg.me, tx);
    LeaderIsNext(s, c);
    PendingIsCached(s);
    assert s.pending[0].0 == BatchDigest([tx]);
    DoProposeGood(s, [tx], c);
    ProposeLog(s, [tx], c);
    ProposalKeepsBuffers(s, [tx]);
    var done := DoPropose(s, [tx]);
    assert s.pending[1..] == [];
    NothingToPropose(done);
    ClearPending(done, c');
    BelowExtends(c, s.cfg.me, tx, bound);
    ProposedPlain(s.toBatcher, tx, s.round, bound);
    var told := s.toBatcher + [Proposed([tx], s.round)];
    AcceptPlain(told, c', s.round, s.cfg.f, done.leader, bound);
    OwnFrame(done, c');
  }

  lemma OwnFrame(s: Node, c: seq<Block>)
    requires Own(s, c)
    ensures Own(s.(pending := []), c)
  {
  }

  lemma ProposedPlain(log: seq<BatcherMsg>, tx: Tx, r: nat, bound: nat)
    requires PlainLog(log, bound) && tx.nonce < bound
    ensures PlainLog(log + [Proposed([tx], r)], bound)
  {
  }

  lemma BelowExtends(c: seq<Block>, me: Replica, tx: Tx, bound: nat)
    requires c != [] && ChainBelow(c, bound) && tx.nonce < bound
    ensures ChainBelow(Extended(c, me, tx), bound)
  {
  }

  /** The leader of the current round gets a batch and proposes it. */
  lemma Leads(s: Node, tx: Tx, c: seq<Block>, bound: nat)
    requires Settled(s, c) && c != [] && s.leader == s.cfg.me && s.pending == []
    requires ChainBelow(c, bound) && PlainLog(s.toBatcher, bound) && tx.nonce < bound
    ensures var c' := Extended(c, s.cfg.me, tx);
            var t := React(s, Sealed([tx]));
            && Settled(t, c') && t.round == |c'| && t.pending == [] && t.cfg == s.cfg
            && s.net <= t.net && ToAll(Announce(c', |c|)) in t.net && ChainBelow(c', bound)
            && PlainLog(t.toBatcher, bound) && s.toBatcher <= t.toBatcher && |s.toBatcher| < |t.toBatcher|
            && t.toBatcher[|t.toBatcher| - 1] == NewRound(t.leader, t.round)
  {
    hide Settled, PlainLog, ChainBelow, ProposeAll, Persist;
    SettledFacts(s, c);
    GetsBatch(s, tx, c);
    ProposesNow(Absorb(s, Sealed([tx])), tx, c, bound);
  }

  lemma GetsBatch(s: Node, tx: Tx, c: seq<Block>)
    requires Settled(s, c) && s.pending == []
    ensures var t := Absorb(s, Sealed([tx]));
            Settled(t, c) && t.pending == [(BatchDigest([tx]), [tx])] && t == s.(bs := t.bs, pending := t.pending)
  {
    hide NodeInv, Honest, HistoryOk, Persist;
    var h := BatchDigest([tx]);
    PersistKeepsNode(s, [tx]);
    assert s.pending + [(h, [tx])] == [(h, [tx])];
    BatchesHonest(s, Persist(s.bs, h, [tx]), [(h, [tx])], c);
  }

  /** A batch that arrives in another replica's round waits. */
  lemma Waits(s: Node, tx: Tx, c: seq<Block>)
    requires Settled(s, c) && s.pending == [] && s.leader != s.cfg.me
    ensures var t := React(s, Sealed([tx]));
            Settled(t, c) && t.pending == [(BatchDigest([tx]), [tx])] && t == s.(bs := t.bs, pending := t.pending)
  {
    hide Settled, ProposeAll, Absorb;
    SettledFacts(s, c);
    GetsBatch(s, tx, c);
    NothingToPropose(Absorb(s, Sealed([tx])));
  }

  /** A replica that comes to lead proposes the batch that waited. */
  lemma FollowsAndLeads(s: Node, tx: Tx, c: seq<Block>, bound: nat)
    requires Settled(s, c) && s.round + 1 == |c| && s.pending == [(BatchDigest([tx]), [tx])]
    requires s.cfg.n > 0 && LeaderOf(s.cfg.n, |c|) == s.cfg.me
    requires ChainBelow(c, bound) && PlainLog(s.toBatcher, bound) && tx.nonce < bound
    ensures var c' := Extended(c, s.cfg.me, tx);
            var t := React(s, Received([Announce(c, s.round)]));
            && Settled(t, c') && t.round == |c'| && t.pending == [] && t.cfg == s.cfg
            && s.net <= t.net && ToAll(Announce(c', |c|)) in t.net && ChainBelow(c', bound)
            && PlainLog(t.toBatcher, bound) && s.toBatcher <= t.toBatcher && |s.toBatcher| < |t.toBatcher|
            && t.toBatcher[|t.toBatcher| - 1] == NewRound(t.leader, t.round)
  {
    hide Settled, ProcessMessages, ProposeAll, NoticesOf, PlainLog, ChainBelow, LeaderOf;
    SettledFacts(s, c);
    Follows(s, c);
    var t := ProcessMessages(s, [Announce(c, s.round)]);
    SettledFacts(t, c);
    AcceptPlain(s.toBatcher, c, s.round, s.cfg.f, t.leader, bound);
    ProposesNow(t, tx, c, bound);
  }

  // ---------------------------------------------------------------- sites

  ghost function RunSite(site: Site, acts: seq<Action>): Site
    decreases |acts|
  {
    if acts == [] then site else RunSite(Act(site, acts[0]), acts[1..])
  }

  lemma {:induction false} RunSiteConcat(site: Site, a: seq<Action>, b: seq<Action>)
    ensures RunSite(site, a + b) == RunSite(RunSite(site, a), b)
    decreases |a|
  {
    hide Act;
    if a == [] {
      assert a + b == b;
    } else {
      assert (a + b)[1..] == a[1..] + b;
      RunSiteConcat(Act(site, a[0]), a[1..], b);
    }
  }

  /** Actions of site `k` that need only messages that others have sent. */
  ghost predicate ActsOf(acts: seq<Action>, n: nat, k: Replica, c: seq<Block>) {
    n > 0 && forall i :: 0 <= i < |acts| ==> ActOf(acts[i], n, k, c)
  }

  ghost predicate ActOf(a: Action, n: nat, k: Replica, c: seq<Block>)
    requires n > 0
  {
    a.who == k && (a.Deliver? ==> exists r :: 1 <= r < |c| && LeaderOf(n, r) != k && a.msgs == [Announce(c, r)])
  }

  /** On the chain, nothing on its way from the batcher, something for it to hear, and the batcher calm. */
  ghost predicate Calm(site: Site, c: seq<Block>, size: nat, bound: nat) {
    var log := site.node.toBatcher;
    && Settled(site.node, c) && site.taken == |site.sealed|
    && site.heard < |log| && PlainLog(log, bound) && log[|log| - 1] == NewRound(site.node.leader, site.node.round)
    && CalmBatcher(site.batcher, site.node.cfg.me, size, bound)
  }

  /** A site that has only moved its replica. */
  ghost predicate NodeMoved(site: Site, t: Site) {
    && t == site.(node := t.node) && t.node.cfg == site.node.cfg && t.node.pending == site.node.pending
    && site.node.net <= t.node.net
  }

  lemma FollowSite(site: Site, c: seq<Block>, size: nat, bound: nat)
    requires Calm(site, c, size, bound) && ChainBelow(c, bound) && site.node.round < |c|
    requires site.node.pending == [] ||
             (site.node.cfg.n > 0 && LeaderOf(site.node.cfg.n, site.node.round + 1) != site.node.cfg.me)
    ensures var a := Deliver(site.node.cfg.me, [Announce(c, site.node.round)]);
            var t := Act(site, a);
            && Calm(t, c, size, bound) && t.node.round == site.node.round + 1 && NodeMoved(site, t)
            && site.node.cfg.n > 0 && ActOf(a, site.node.cfg.n, site.node.cfg.me, c)
  {
    hide Settled, React, PlainLog, ChainBelow, CalmBatcher, LeaderOf;
    SettledFacts(site.node, c);
    LedByOther(site.node, c);
    FollowsTurn(site.node, c, bound);
  }

  /** The rounds a settled replica still has to follow are led by others. */
  lemma LedByOther(s: Node, c: seq<Block>)
    requires Settled(s, c) && s.round < |c|
    ensures s.round >= 1 && s.cfg.n > 0 && LeaderOf(s.cfg.n, s.round) != s.cfg.me
  {
    hide Good, LeaderOf;
    SettledFacts(s, c);
  }

  lemma NodeMovedTrans(a: Site, b: Site, c: Site)
    requires NodeMoved(a, b) && NodeMoved(b, c)
    ensures NodeMoved(a, c)
  {
  }

  lemma {:induction false} ActsCons(a: Action, acts: seq<Action>, n: nat, k: Replica, c: seq<Block>)
    requires n > 0 && ActOf(a, n, k, c) && ActsOf(acts, n, k, c)
    ensures ActsOf([a] + acts, n, k, c)
  {
    hide ActOf;
  }

  lemma {:induction false} ActsConcat(a: seq<Action>, b: seq<Action>, n: nat, k: Replica, c: seq<Block>)
    requires ActsOf(a, n, k, c) && ActsOf(b, n, k, c)
    ensures ActsOf(a + b, n, k, c)
  {
    hide ActOf;
  }

  /** The replica follows the chain up to round `target`. */
  lemma {:induction false} CatchUp(site: Site, c: seq<Block>, target: nat, size: nat, bound: nat)
    returns (acts: seq<Action>)
    requires Calm(site, c, size, bound) && ChainBelow(c, bound) && site.node.round <= target <= |c| &&
             site.node.cfg.n > 0
    requires site.node.pending == [] ||
             forall r :: site.node.round < r <= target ==> LeaderOf(site.node.cfg.n, r) != site.node.cfg.me
    ensures ActsOf(acts, site.node.cfg.n, site.node.cfg.me, c)
    ensures var t := RunSite(site, acts);
            Calm(t, c, size, bound) && t.node.round == target && NodeMoved(site, t)
    decreases target - site.node.round
  {
    hide Calm, ChainBelow, LeaderOf, Act, ActOf;
    acts := [];
    if site.node.round < target {
      var a := Deliver(site.node.cfg.me, [Announce(c, site.node.round)]);
      FollowSite(site, c, size, bound);
      var t := Act(site, a);
      var rest := CatchUp(t, c, target, size, bound);
      acts := [a] + rest;
      assert acts[1..] == rest;
      NodeMovedTrans(site, t, RunSite(t, rest));
      ActsCons(a, rest, site.node.cfg.n, site.node.cfg.me, c);
    }
  }

  /** The batcher hears the next notice. */
  lemma HearSite(site: Site, size: nat, bound: nat)
    requires site.heard < |site.node.toBatcher| && PlainLog(site.node.toBatcher, bound)
    requires CalmBatcher(site.batcher, site.node.cfg.me, size, bound)
    ensures var m := site.node.toBatcher[site.heard];
            var t := Act(site, Hear(site.node.cfg.me));
            && t == site.(batcher := t.batcher, heard := site.heard + 1)
            && CalmBatcher(t.batcher, site.node.cfg.me, size, bound)
            && (m.NewRound? ==> t.batcher.leader == m.leader && !t.batcher.proposed)
  {
    hide CalmBatcher, Step, PlainMsg;
    HearsPlain(site.batcher, site.node.toBatcher[site.heard], site.node.cfg.me, size, bound);
    assert site.sealed + [] == site.sealed;
  }

  /** The state of a batcher that has heard of everything, ending with a round. */
  ghost predicate HeardAll(site: Site, t: Site, size: nat, bound: nat) {
    var log := site.node.toBatcher;
    && t == site.(batcher := t.batcher, heard := |log|) && CalmBatcher(t.batcher, site.node.cfg.me, size, bound)
    && (site.heard < |log| && log[|log| - 1].NewRound? ==>
          t.batcher.leader == log[|log| - 1].leader && !t.batcher.proposed)
    && (site.heard == |log| ==> t == site)
  }

  /** The batcher hears of everything that is left. */
  lemma {:induction false} HearRest(site: Site, c: seq<Block>, size: nat, bound: nat) returns (acts: seq<Action>)
    requires site.node.cfg.n > 0 && site.heard <= |site.node.toBatcher| && PlainLog(site.node.toBatcher, bound)
    requires CalmBatcher(site.batcher, site.node.cfg.me, size, bound)
    ensures ActsOf(acts, site.node.cfg.n, site.node.cfg.me, c)
    ensures HeardAll(site, RunSite(site, acts), size, bound)
    decreases |site.node.toBatcher| - site.heard
  {
    hide CalmBatcher, Act, PlainLog, ActOf;
    acts := [];
    if site.heard < |site.node.toBatcher| {
      var a := Hear(site.node.cfg.me);
      HearSite(site, size, bound);
      var rest := HearRest(Act(site, a), c, size, bound);
      acts := [a] + rest;
      assert acts[1..] == rest;
      HearIsAct(a, site.node.cfg.n, c);
      ActsCons(a, rest, site.node.cfg.n, site.node.cfg.me, c);
    }
  }

  lemma HearIsAct(a: Action, n: nat, c: seq<Block>)
    requires n > 0 && !a.Deliver?
    ensures ActOf(a, n, a.who, c)
  {
  }

  /** The batcher of a site whose turn it is seals a transaction. */
  lemma SubmitSite(site: Site, tx: Tx, size: nat, bound: nat)
    requires CalmBatcher(site.batcher, site.node.cfg.me, size, bound) && site.taken == |site.sealed| && size > 0
    requires site.batcher.leader == site.node.cfg.me && !site.batcher.proposed && NextTx(tx, size, bound)
    ensures var t := Act(site, Submit(site.node.cfg.me, tx));
            && t == site.(batcher := t.batcher, sealed := site.sealed + [[tx]])
            && CalmBatcher(t.batcher, site.node.cfg.me, size, bound + 1)
            && t.batcher.leader == site.batcher.leader
  {
    hide Step, CalmBatcher;
    SubmitSeals(site.batcher, site.node.cfg.me, size, bound, tx);
  }

  /** Site `t` is `site` after its replica has proposed `tx` on top of the chain: calm again, and the proposal sent. */
  ghost predicate Led(site: Site, t: Site, c: seq<Block>, tx: Tx, size: nat, bound: nat)
    requires c != []
  {
    var c' := Extended(c, site.node.cfg.me, tx);
    && Calm(t, c', size, bound) && ChainBelow(c', bound)
    && t.node.round == |c'| && t.node.pending == [] && t.node.cfg == site.node.cfg
    && site.node.net <= t.node.net && ToAll(Announce(c', |c|)) in t.node.net
  }

  lemma LedAfter(a: Site, b: Site, t: Site, c: seq<Block>, tx: Tx, size: nat, bound: nat)
    requires c != [] && Led(b, t, c, tx, size, bound) && b.node.cfg == a.node.cfg && a.node.net <= b.node.net
    ensures Led(a, t, c, tx, size, bound)
  {
    hide Calm, ChainBelow;
  }

  /** The replica takes the one batch that is on its way and proposes it. */
  lemma TakeSite(site: Site, tx: Tx, c: seq<Block>, size: nat, bound: nat)
    requires Settled(site.node, c) && c != [] && site.node.leader == site.node.cfg.me && site.node.pending == []
    requires ChainBelow(c, bound) && PlainLog(site.node.toBatcher, bound) && tx.nonce < bound
    requires site.taken + 1 == |site.sealed| && site.sealed[site.taken] == [tx] && site.heard <= |site.node.toBatcher|
    requires CalmBatcher(site.batcher, site.node.cfg.me, size, bound)
    ensures Led(site, Act(site, TakeBatch(site.node.cfg.me)), c, tx, size, bound)
  {
    hide Settled, React, PlainLog, ChainBelow, CalmBatcher;
    Leads(site.node, tx, c, bound);
  }

  /** Hear of everything, seal, and take the batch: the last three parts of a turn. */
  lemma {:induction false} SealAndLead(site: Site, tx: Tx, c: seq<Block>, size: nat,
      bound: nat) returns (acts: seq<Action>)
    requires Calm(site, c, size, bound) && ChainBelow(c, bound) && site.node.pending == [] && size > 0
    requires site.node.cfg.n > 0 && site.node.leader == site.node.cfg.me && NextTx(tx, size, bound) &&
             c != []
    ensures ActsOf(acts, site.node.cfg.n, site.node.cfg.me, c)
    ensures Led(site, RunSite(site, acts), c, tx, size, bound + 1)
  {
    hide Settled, Act, PlainLog, ChainBelow, CalmBatcher, ActOf, RunSite, Led;
    var k := site.node.cfg.me;
    acts := HearRest(site, c, size, bound);
    var t1 := RunSite(site, acts);
    SubmitSite(t1, tx, size, bound);
    var submit, take := Submit(k, tx), TakeBatch(k);
    var t2 := Act(t1, submit);
    PlainGrows(site.node.toBatcher, bound, bound + 1);
    BelowGrows(c, bound, bound + 1);
    TakeSite(t2, tx, c, size, bound + 1);
    LedAfter(site, t2, Act(t2, take), c, tx, size, bound + 1);
    RunTwo(t1, submit, take);
    RunSiteConcat(site, acts, [submit, take]);
    TwoActs(submit, take, site.node.cfg.n, k, c);
    ActsConcat(acts, [submit, take], site.node.cfg.n, k, c);
    acts := acts + [submit, take];
  }

  lemma BelowGrows(c: seq<Block>, bound: nat, more: nat)
    requires ChainBelow(c, bound) && bound <= more
    ensures ChainBelow(c, more)
  {
    forall i | 0 <= i < |c| && c[i].batch.BatchDigest? ensures Below(c[i].batch.payload, more) {
      assert Below(c[i].batch.payload, bound);
    }
  }

  lemma RunTwo(site: Site, a: Action, b: Action)
    ensures RunSite(site, [a, b]) == Act(Act(site, a), b)
    ensures RunSite(site, [a]) == Act(site, a)
  {
    hide Act;
    assert [a, b][1..] == [b] && [b][1..] == [] && [a][1..] == [];
    assert RunSite(Act(site, a), [b]) == Act(Act(site, a), b);
  }

  lemma TwoActs(a: Action, b: Action, n: nat, k: Replica, c: seq<Block>)
    requires n > 0 && a.who == k && b.who == k && !a.Deliver? && !b.Deliver?
    ensures ActsOf([a, b], n, k, c)
  {
  }

  /** A whole turn of the leader of the next round. */
  lemma {:induction false} TurnSite(site: Site, tx: Tx, c: seq<Block>, size: nat,
      bound: nat) returns (acts: seq<Action>)
    requires Calm(site, c, size, bound) && ChainBelow(c, bound) && site.node.pending == [] && size > 0 && c != []
    requires site.node.cfg.n > 0 && LeaderOf(site.node.cfg.n, |c|) == site.node.cfg.me && NextTx(tx, size, bound)
    ensures ActsOf(acts, site.node.cfg.n, site.node.cfg.me, c)
    ensures Led(site, RunSite(site, acts), c, tx, size, bound + 1)
  {
    hide Calm, ChainBelow, LeaderOf, RunSite, ActOf, Led;
    CalmFacts(site, c, size, bound);
    acts := CatchUp(site, c, |c|, size, bound);
    var t := RunSite(site, acts);
    CalmFacts(t, c, size, bound);
    var rest := SealAndLead(t, tx, c, size, bound);
    RunSiteConcat(site, acts, rest);
    LedAfter(site, t, RunSite(t, rest), c, tx, size, bound + 1);
    ActsConcat(acts, rest, site.node.cfg.n, site.node.cfg.me, c);
    acts := acts + rest;
  }

  lemma CalmFacts(site: Site, c: seq<Block>, size: nat, bound: nat)
    requires Calm(site, c, size, bound)
    ensures !site.node.halted && 1 <= site.node.round <= |c| && site.node.cfg.n > 0 && HistoryOk(site.node.cfg.n, c)
    ensures site.node.leader == LeaderOf(site.node.cfg.n, site.node.round) && Own(site.node, c) && Good(site.node, c)
  {
    hide Good, Own, LeaderOf, HistoryOk;
    SettledFacts(site.node, c);
  }

  /** The site that has a batch waiting catches up until it leads, and so proposes it. */
  lemma {:induction false} HolderSite(site: Site, tx: Tx, c: seq<Block>, size: nat,
      bound: nat) returns (acts: seq<Action>)
    requires Calm(site, c, size, bound) && ChainBelow(c, bound) && tx.nonce < bound && site.node.cfg.n > 0
    requires site.node.pending == [(BatchDigest([tx]), [tx])] && 1 <= site.node.round < |c|
    requires LeaderOf(site.node.cfg.n, |c|) == site.node.cfg.me
    requires forall r :: site.node.round < r < |c| ==> LeaderOf(site.node.cfg.n, r) != site.node.cfg.me
    ensures ActsOf(acts, site.node.cfg.n, site.node.cfg.me, c)
    ensures Led(site, RunSite(site, acts), c, tx, size, bound)
  {
    hide Calm, ChainBelow, LeaderOf, RunSite, ActOf, Led;
    acts := CatchUp(site, c, |c| - 1, size, bound);
    var t := RunSite(site, acts);
    var a := Deliver(site.node.cfg.me, [Announce(c, |c| - 1)]);
    LastFollow(t, tx, c, size, bound);
    LedAfter(site, t, Act(t, a), c, tx, size, bound);
    RunTwo(t, a, a);
    RunSiteConcat(site, acts, [a]);
    ActsCons(a, [], site.node.cfg.n, site.node.cfg.me, c);
    assert [a] + [] == [a];
    ActsConcat(acts, [a], site.node.cfg.n, site.node.cfg.me, c);
    acts := acts + [a];
  }

  lemma LastFollow(site: Site, tx: Tx, c: seq<Block>, size: nat, bound: nat)
    requires Calm(site, c, size, bound) && ChainBelow(c, bound) && tx.nonce < bound && site.node.cfg.n > 0
    requires site.node.pending == [(BatchDigest([tx]), [tx])] && site.node.round + 1 == |c|
    requires LeaderOf(site.node.cfg.n, |c|) == site.node.cfg.me
    ensures var a := Deliver(site.node.cfg.me, [Announce(c, |c| - 1)]);
            Led(site, Act(site, a), c, tx, size, bound) && ActOf(a, site.node.cfg.n, site.node.cfg.me, c)
  {
    hide Settled, React, PlainLog, ChainBelow, CalmBatcher, LeaderOf;
    LedByOther(site.node, c);
    FollowsAndLeads(site.node, tx, c, bound);
  }
}
