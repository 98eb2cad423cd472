/**
 Agreement in Artemis.  Any number of replicas follow the code, may stop at any
 point, and talk over a network that delays, drops, duplicates and reorders.

 The proof carries two histories that no replica sees: the chain `c` of all
 blocks the view leader ever made (genesis first) and the list `v` of all round
 votes ever cast.  Everything a replica holds is a piece of these two.
 */
module ArtemisAgreement {
  import opened Transactions
  import opened BatcherSpec
  import opened Blocks
  import opened Chains
  import opened LeaderRotation
  import opened ArtemisCore
  import opened ArtemisDelivery
  import opened ArtemisSafety

  // ---------------------------------------------------------------- histories

  predicate HonestVote(v: seq<Vote>, x: Vote) {
    1 <= x.round <= |v| && v[x.round - 1] == x
  }

  /** One vote per round, cast by that round's leader, for ever taller blocks of the chain. */
  ghost predicate VoteListOk(cfg: Config, c: seq<Block>, v: seq<Vote>) {
    && ConfigOk(cfg)
    && (forall j :: 0 <= j < |v| ==> v[j].round == j + 1 && v[j].view == VIEW && HonestHash(c, v[j].hash))
    && (forall j :: 0 <= j < |v| ==>
        Verifies(LeaderAt(cfg.n, cfg.f, cfg.digest, j + 1), OfVote(v[j].hash, j + 1, VIEW), v[j].sig))
    && (forall j :: 0 <= j < |v| ==> Taller(v, j))
  }

  /** The vote names a taller block than the one before it. */
  predicate Taller(v: seq<Vote>, j: nat)
    requires j < |v|
  {
    HeightOf(v[j].hash) > if j == 0 then 0 else HeightOf(v[j - 1].hash)
  }

  predicate HonestMsg(c: seq<Block>, v: seq<Vote>, m: Msg) {
    match m
    case NewBlockMsg(b, batch) => HonestBlock(c, b) && Finalized(b) && BatchMatches(b, batch)
    case VoteMsg(x) => HonestVote(v, x)
    case Relay(_, x) => HonestVote(v, x)
    case Request(_, _, _) => true
    case Response(_, _, b, batch) => HonestBlock(c, b) && Finalized(b) && BatchMatches(b, batch)
    case _ => false
  }

  ghost function InVotes(v: seq<Vote>): Vote -> bool {
    x => HonestVote(v, x)
  }

  /** Everything the replica holds or has sent is a piece of the histories. */
  ghost predicate Honest(s: Node, c: seq<Block>, v: seq<Vote>) {
    && AllBlocks(s.ledger, InChain(c)) && AllVotes(s.ledger, InVotes(v))
    && (forall r :: r in s.votes ==> HonestVote(v, s.votes[r]))
    && s.round <= |v| + 1
    && (forall i :: 0 <= i < |s.net| ==> HonestMsg(c, v, s.net[i].msg))
  }

  /** Every block of the chain was made and signed by the view leader. */
  ghost predicate SignedChain(c: seq<Block>) {
    forall r :: 1 <= r < |c| ==>
      && c[r].header.author == VIEW_LEADER && c[r].sig.origin == VIEW_LEADER
      && Verifies(VIEW_LEADER, OfBlock(c[r].hash), c[r].sig)
  }

  /** The message that announces the block at height `r`. */
  function Announce(c: seq<Block>, r: nat): Msg
    requires r < |c|
  {
    NewBlockMsg(c[r], PayloadAt(c, r))
  }

  /** Every block of the chain went to everybody and, as proposed, to the batcher. */
  ghost predicate BlocksSent(net: seq<Packet>, toBatcher: seq<BatcherMsg>, c: seq<Block>) {
    && (forall r :: 1 <= r < |c| ==> ToAll(Announce(c, r)) in net)
    && (forall r :: 1 <= r < |c| ==> Proposed(PayloadAt(c, r), r) in toBatcher)
  }

  /** Every vote of a round this replica leads went to everybody. */
  ghost predicate VotesSent(cfg: Config, net: seq<Packet>, v: seq<Vote>) {
    ConfigOk(cfg) && forall r :: 1 <= r <= |v| && LeaderAt(cfg.n, cfg.f, cfg.digest, r) == cfg.me ==>
      ToAll(VoteMsg(v[r - 1])) in net
  }

  /** A replica is past every round it has voted in and has sent those votes to everybody; the view leader has seen
      the whole chain and has sent all of it. */
  ghost predicate Own(s: Node, c: seq<Block>, v: seq<Vote>) {
    && ConfigOk(s.cfg)
    && (forall r :: 1 <= r <= |v| && LeaderAt(s.cfg.n, s.cfg.f, s.cfg.digest, r) == s.cfg.me ==> s.round > r)
    && VotesSent(s.cfg, s.net, v)
    && (s.cfg.me == VIEW_LEADER ==>
        s.ledger.lastSeen.header.height == |c| - 1 && SignedChain(c) && BlocksSent(s.net, s.toBatcher, c))
  }

  ghost predicate Local(s: Node, c: seq<Block>, v: seq<Vote>) {
    Running(s) && Honest(s, c, v) && Own(s, c, v)
  }

  /** What a turn of a replica never lowers. */
  ghost predicate Later(s: Node, t: Node) {
    && t.cfg == s.cfg && t.round >= s.round && t.ledger.lastSeen.header.height >= s.ledger.lastSeen.header.height
    && s.net <= t.net && s.toBatcher <= t.toBatcher
  }

  // ---------------------------------------------------------------- the histories only grow

  lemma HonestGrows(s: Node, c: seq<Block>, v: seq<Vote>, c': seq<Block>, v': seq<Vote>)
    requires Honest(s, c, v) && c <= c' && v <= v'
    ensures Honest(s, c', v')
  {
    assert AllBlocks(s.ledger, InChain(c'));
    assert AllVotes(s.ledger, InVotes(v'));
    forall i | 0 <= i < |s.net| ensures HonestMsg(c', v', s.net[i].msg) {
      assert HonestMsg(c, v, s.net[i].msg);
    }
  }

  /** The head of an honest store is at most as tall as the chain. */
  lemma HeadInChain(s: Node, c: seq<Block>, v: seq<Vote>)
    requires Running(s) && Honest(s, c, v)
    ensures HonestBlock(c, s.ledger.lastSeen)
  {
    assert InChain(c)(s.ledger.st.byHash[s.ledger.lastSeen.hash]);
  }

  /** As long as the histories stay, being later keeps a replica's own facts. */
  lemma OwnLater(s: Node, t: Node, c: seq<Block>, v: seq<Vote>)
    requires Own(s, c, v) && Later(s, t) && Running(t) && Honest(t, c, v)
    ensures Own(t, c, v)
  {
    hide NodeInv, Honest;
    HeadInChain(t, c, v);
  }

  // ---------------------------------------------------------------- handlers

  lemma DoDeliveryHonest(s: Node, b: Block, c: seq<Block>, v: seq<Vote>)
    requires Honest(s, c, v) && HonestBlock(c, b)
    ensures Honest(DoDelivery(s, b), c, v) && Later(s, DoDelivery(s, b))
  {
    DeliverAll(s.ledger, b, InChain(c), InVotes(v));
    DrainLater(Wake(Accept(s.ledger, b), b.hash), b.hash);
    hide AllBlocks, AllVotes, Drain;
  }

  lemma OnNewBlockHonest(s: Node, b: Block, c: seq<Block>, v: seq<Vote>)
    requires Honest(s, c, v) && HonestBlock(c, b)
    ensures Honest(OnNewBlock(s, b), c, v) && Later(s, OnNewBlock(s, b))
  {
    hide Honest, DoDelivery;
    DoDeliveryHonest(s, b, c, v);
  }

  lemma HandleNewBlockHonest(s: Node, b: Block, batch: Batch, c: seq<Block>, v: seq<Vote>)
    requires Honest(s, c, v) && HonestBlock(c, b)
    ensures Honest(HandleNewBlock(s, b, batch), c, v) && Later(s, HandleNewBlock(s, b, batch))
  {
    hide AllBlocks, AllVotes, OnNewBlock;
    OnNewBlockHonest(s.(bs := Persist(s.bs, b.batch, batch)), b, c, v);
  }

  lemma SendHonest(s: Node, to: Replica, m: Msg, c: seq<Block>, v: seq<Vote>)
    requires Honest(s, c, v) && HonestMsg(c, v, m)
    ensures Honest(Send(s, to, m), c, v) && Honest(Multicast(s, m), c, v)
  {
    hide AllBlocks, AllVotes, HonestMsg;
  }

  lemma ParkHonest(s: Node, b: Block, c: seq<Block>, v: seq<Vote>)
    requires Honest(s, c, v) && HonestBlock(c, b)
    ensures Honest(s.(ledger := s.ledger.(parentWaiting := s.ledger.parentWaiting[b.header.prev := b.hash],
                                          undelivered := s.ledger.undelivered[b.hash := b])), c, v)
  {
    hide HonestMsg;
  }

  lemma UpdateDeliveryHonest(s: Node, b: Block, sender: Replica, c: seq<Block>, v: seq<Vote>)
    requires Honest(s, c, v) && HonestBlock(c, b)
    ensures Honest(UpdateDelivery(s, b, sender), c, v) && Later(s, UpdateDelivery(s, b, sender))
  {
    hide Honest, DoDelivery;
    DoDeliveryHonest(s, b, c, v);
    ParkHonest(s, b, c, v);
    var l := s.ledger;
    SendHonest(s.(ledger := l.(parentWaiting := l.parentWaiting[b.header.prev := b.hash],
                               undelivered := l.undelivered[b.hash := b])), sender, Request(s.cfg.me, 0, b.hash), c, v);
  }

  lemma HandleResponseHonest(s: Node, from: Replica, b: Block, batch: Batch, c: seq<Block>, v: seq<Vote>)
    requires Honest(s, c, v) && HonestBlock(c, b)
    ensures Honest(HandleResponse(s, from, b, batch), c, v) && Later(s, HandleResponse(s, from, b, batch))
  {
    hide AllBlocks, AllVotes, UpdateDelivery;
    UpdateDeliveryHonest(s.(bs := Persist(s.bs, b.batch, batch)), b, from, c, v);
  }

  lemma StoredIsHonest(s: Node, h: Hash, c: seq<Block>, v: seq<Vote>)
    requires Running(s) && Honest(s, c, v) && ChainOk(c) && (Delivered(s, h) || h in s.ledger.undelivered)
    ensures var b := if Delivered(s, h) then s.ledger.st.byHash[h] else s.ledger.undelivered[h];
            HonestBlock(c, b) && (b.batch.BatchDigest? ==> Finalized(b)) && ContentAddressed(s.bs)
  {
    hide HonestMsg, EmissionInv, PendingInv, CommittedBy, RotationAt, ParkingOk, HeadOk, VotesParkedOk;
    var b := if Delivered(s, h) then s.ledger.st.byHash[h] else s.ledger.undelivered[h];
    assert InChain(c)(b);
  }

  lemma SealedHonest(s: Node, t: Node, c: seq<Block>, v: seq<Vote>)
    requires Honest(s, c, v) && t == s.(bs := t.bs, pending := t.pending)
    ensures Honest(t, c, v)
  {
    hide AllBlocks, AllVotes, HonestMsg;
  }

  /** A peer is only ever answered with a block of the chain, never with genesis. */
  lemma HandleRequestHonest(s: Node, from: Replica, id: nat, h: Hash, c: seq<Block>, v: seq<Vote>)
    requires Running(s) && Honest(s, c, v) && ChainOk(c)
    ensures Honest(HandleRequest(s, from, id, h), c, v) && Later(s, HandleRequest(s, from, id, h))
  {
    hide NodeInv, Honest, ReadBatch, ChainOk, HonestBlock, ContentAddressed;
    if Delivered(s, h) || h in s.ledger.undelivered {
      var b := if Delivered(s, h) then s.ledger.st.byHash[h] else s.ledger.undelivered[h];
      StoredIsHonest(s, h, c, v);
      var (got, bs) := ReadBatch(s.bs, b.batch);
      SealedHonest(s, s.(bs := bs), c, v);
      if got.Some? {
        ReadsAgree(s.bs, b.batch);
        SendHonest(s.(bs := bs), from, Response(s.cfg.me, id, b, got.value), c, v);
      }
    }
  }

  // ---------------------------------------------------------------- votes

  lemma RecordHonest(s: Node, x: Vote, c: seq<Block>, v: seq<Vote>)
    requires Honest(s, c, v) && HonestVote(v, x)
    ensures Honest(Record(s, x), c, v) && Later(s, Record(s, x))
    ensures s.round > s.cfg.f ==> Record(s, x).ledger == s.ledger.(st := Record(s, x).ledger.st)
  {
    hide HonestMsg;
    var s1 := s.(votes := s.votes[x.round := x]);
    if s1.round > s1.cfg.f {
      CommitHonest(s1, c, v);
    }
  }

  lemma CommitHonest(s: Node, c: seq<Block>, v: seq<Vote>)
    requires Honest(s, c, v) && s.round > s.cfg.f
    ensures Honest(DoCommit(s), c, v) && Later(s, DoCommit(s))
  {
    hide HonestMsg;
    DoCommitFrame(s);
    if s.round - s.cfg.f in s.votes {
      WalkKeepsBlocks(s.ledger.st, s.votes[s.round - s.cfg.f].hash);
    }
  }

  lemma AdvanceHonest(s: Node, x: Vote, c: seq<Block>, v: seq<Vote>)
    requires Honest(s, c, v) && HonestVote(v, x) && x.round == s.round
    ensures Honest(Advance(s, x), c, v) && Later(s, Advance(s, x))
  {
    hide AllBlocks, AllVotes, Rotate;
  }

  lemma OnVoteHonest(s: Node, x: Vote, c: seq<Block>, v: seq<Vote>)
    requires Honest(s, c, v) && HonestVote(v, x) && x.round == s.round
    ensures Honest(OnVote(s, x), c, v) && Later(s, OnVote(s, x))
  {
    hide Honest, Record, Advance, HonestVote;
    if VoteAccepted(s, x) {
      RecordHonest(s, x, c, v);
      RecordFrame(s, x);
      AdvanceHonest(Record(s, x), x, c, v);
    }
  }

  lemma ParkVoteHonest(s: Node, from: Replica, x: Vote, c: seq<Block>, v: seq<Vote>)
    requires Honest(s, c, v) && HonestVote(v, x)
    ensures Honest(ParkVote(s, from, x), c, v) && Later(s, ParkVote(s, from, x))
  {
    SendHonest(s, from, Request(s.cfg.me, 0, x.hash), c, v);
    hide HonestMsg;
  }

  lemma KeepVoteHonest(s: Node, x: Vote, c: seq<Block>, v: seq<Vote>)
    requires Honest(s, c, v) && HonestVote(v, x)
    ensures Honest(s.(ledger := s.ledger.(voteReady := s.ledger.voteReady[x.round := x])), c, v)
  {
    hide HonestMsg;
  }

  lemma TryVoteHonest(s: Node, from: Replica, x: Vote, c: seq<Block>, v: seq<Vote>)
    requires Honest(s, c, v) && HonestVote(v, x)
    ensures Honest(TryVote(s, from, x), c, v) && Later(s, TryVote(s, from, x))
  {
    hide Honest, OnVote, ParkVote, HonestVote;
    if s.round > x.round {
    } else if !Delivered(s, x.hash) {
      ParkVoteHonest(s, from, x, c, v);
    } else if s.round < x.round {
      KeepVoteHonest(s, x, c, v);
    } else {
      OnVoteHonest(s, x, c, v);
    }
  }

  lemma TakeReadyHonest(s: Node, c: seq<Block>, v: seq<Vote>)
    requires Running(s) && Honest(s, c, v) && s.round in s.ledger.voteReady
    ensures Honest(s.(ledger := s.ledger.(voteReady := s.ledger.voteReady - {s.round})), c, v)
    ensures HonestVote(v, s.ledger.voteReady[s.round]) && s.ledger.voteReady[s.round].round == s.round
  {
    hide HonestMsg, RotationAt, CommittedBy, EmissionInv, PendingInv, BatchInv, ParkingOk, HeadOk, StorageOk;
    assert InVotes(v)(s.ledger.voteReady[s.round]);
  }

  lemma {:induction false} DrainReadyHonest(s: Node, c: seq<Block>, v: seq<Vote>)
    requires Running(s) && Honest(s, c, v)
    ensures Honest(DrainReady(s), c, v) && Later(s, DrainReady(s))
    decreases |s.ledger.voteReady|
  {
    hide NodeInv, Honest, OnVote, HonestVote;
    if s.round in s.ledger.voteReady {
      var x := s.ledger.voteReady[s.round];
      var s1 := s.(ledger := s.ledger.(voteReady := s.ledger.voteReady - {s.round}));
      assert s.ledger.voteReady.Keys == s1.ledger.voteReady.Keys + {s.round};
      TakeReadyKeeps(s);
      TakeReadyHonest(s, c, v);
      OnVoteKeeps(s1, x);
      OnVoteHonest(s1, x, c, v);
      OnVoteFrame(s1, x);
      DrainReadyHonest(OnVote(s1, x), c, v);
    }
  }

  // ---------------------------------------------------------------- message loops

  lemma {:induction false} HandleBlocksHonest(s: Node, q: seq<(Block, Batch)>, c: seq<Block>, v: seq<Vote>)
    requires Honest(s, c, v) && forall i :: 0 <= i < |q| ==> HonestBlock(c, q[i].0)
    ensures Honest(HandleBlocks(s, q), c, v) && Later(s, HandleBlocks(s, q))
    decreases |q|
  {
    hide Honest, HandleNewBlock, HonestBlock;
    if q != [] && !s.halted {
      HandleNewBlockHonest(s, q[0].0, q[0].1, c, v);
      HandleBlocksHonest(HandleNewBlock(s, q[0].0, q[0].1), q[1..], c, v);
    }
  }

  lemma {:induction false} HandleResponsesHonest(s: Node, q: seq<(Replica, Block, Batch)>, c: seq<Block>, v: seq<Vote>)
    requires Honest(s, c, v) && forall i :: 0 <= i < |q| ==> HonestBlock(c, q[i].1)
    ensures Honest(HandleResponses(s, q), c, v) && Later(s, HandleResponses(s, q))
    decreases |q|
  {
    hide Honest, HandleResponse, HonestBlock;
    if q != [] && !s.halted {
      HandleResponseHonest(s, q[0].0, q[0].1, q[0].2, c, v);
      HandleResponsesHonest(HandleResponse(s, q[0].0, q[0].1, q[0].2), q[1..], c, v);
    }
  }

  lemma HandleOtherHonest(s: Node, m: Msg, c: seq<Block>, v: seq<Vote>)
    requires Running(s) && Honest(s, c, v) && ChainOk(c) && IsOther(m) && HonestMsg(c, v, m)
    ensures Honest(HandleOther(s, m), c, v) && Later(s, HandleOther(s, m))
  {
    hide NodeInv, Honest, ChainOk, TryVote, HandleRequest, HonestVote;
    match m
    case VoteMsg(x) => TryVoteHonest(s, x.sig.origin, x, c, v);
    case Relay(from, x) => TryVoteHonest(s, from, x, c, v);
    case Request(from, id, h) => HandleRequestHonest(s, from, id, h, c, v);
    case _ =>
  }

  lemma {:induction false} HandleOthersHonest(s: Node, q: seq<Msg>, c: seq<Block>, v: seq<Vote>)
    requires Running(s) && Honest(s, c, v) && ChainOk(c)
    requires forall i :: 0 <= i < |q| ==> IsOther(q[i]) && HonestMsg(c, v, q[i])
    ensures Honest(HandleOthers(s, q), c, v) && Later(s, HandleOthers(s, q))
    ensures Running(HandleOthers(s, q))
    decreases |q|
  {
    hide NodeInv, Honest, ChainOk, HandleOther;
    if q != [] {
      HandleOtherHonest(s, q[0], c, v);
      HandleOtherKeeps(s, q[0]);
      HandleOthersHonest(HandleOther(s, q[0]), q[1..], c, v);
    }
  }

  lemma {:induction false} BufferedHonest(ms: seq<Msg>, c: seq<Block>, v: seq<Vote>)
    requires forall i :: 0 <= i < |ms| ==> HonestMsg(c, v, ms[i])
    ensures forall i :: 0 <= i < |BufferedBlocks(ms)| ==>
            HonestBlock(c, BufferedBlocks(ms)[i].0) && Finalized(BufferedBlocks(ms)[i].0)
    ensures forall i :: 0 <= i < |BufferedResponses(ms)| ==>
            HonestBlock(c, BufferedResponses(ms)[i].1) && Finalized(BufferedResponses(ms)[i].1)
    ensures forall i :: 0 <= i < |BufferedOthers(ms)| ==>
            IsOther(BufferedOthers(ms)[i]) && HonestMsg(c, v, BufferedOthers(ms)[i])
  {
    hide HonestBlock, HonestVote;
    if ms != [] {
      BufferedHonest(ms[..|ms| - 1], c, v);
    }
  }

  lemma ProcessHonest(s: Node, ms: seq<Msg>, c: seq<Block>, v: seq<Vote>)
    requires Running(s) && Honest(s, c, v) && ChainOk(c)
    requires forall i :: 0 <= i < |ms| ==> HonestMsg(c, v, ms[i])
    ensures var t := ProcessMessages(s, BufferedBlocks(ms), BufferedResponses(ms), BufferedOthers(ms));
            Running(t) && Honest(t, c, v) && Later(s, t)
  {
    BufferedHonest(ms, c, v);
    hide NodeInv, Honest, ChainOk, HandleBlocks, HandleResponses, HandleOthers, DrainReady, HonestMsg,
      BufferedBlocks, BufferedResponses, BufferedOthers, Later;
    var s1 := HandleBlocks(s, BufferedBlocks(ms));
    HandleBlocksKeeps(s, BufferedBlocks(ms));
    HandleBlocksHonest(s, BufferedBlocks(ms), c, v);
    var s2 := HandleResponses(s1, BufferedResponses(ms));
    HandleResponsesKeeps(s1, BufferedResponses(ms));
    HandleResponsesHonest(s1, BufferedResponses(ms), c, v);
    var s3 := DrainReady(s2);
    DrainReadyKeeps(s2);
    DrainReadyHonest(s2, c, v);
    var s4 := HandleOthers(s3, BufferedOthers(ms));
    HandleOthersHonest(s3, BufferedOthers(ms), c, v);
    DrainReadyKeeps(s4);
    DrainReadyHonest(s4, c, v);
    LaterTrans(s, s1, s2);
    LaterTrans(s, s2, s3);
    LaterTrans(s, s3, s4);
    LaterTrans(s, s4, DrainReady(s4));
  }

  lemma LaterTrans(a: Node, b: Node, d: Node)
    requires Later(a, b) && Later(b, d)
    ensures Later(a, d)
  {
  }

  // ---------------------------------------------------------------- a new block

  /** The block the view leader makes next. */
  function NextBlock(s: Node, batch: Batch): (b: Block)
    ensures Finalized(b) &&
            b.header == Header(s.ledger.lastSeen.hash, s.cfg.me, s.ledger.lastSeen.header.height + 1, [])
    ensures b.batch == BatchDigest(batch)
  {
    var unsigned := NewBlock(s.ledger.lastSeen, s.cfg.me, batch, Sig(s.cfg.me, NoAuth));
    unsigned.(sig := Sig(s.cfg.me, AuthBy(s.cfg.me, OfBlock(unsigned.hash))))
  }

  lemma VotesOverLongerChain(cfg: Config, c: seq<Block>, b: Block, v: seq<Vote>)
    requires VoteListOk(cfg, c, v)
    ensures VoteListOk(cfg, c + [b], v)
  {
    hide LeaderAt;
  }

  /** A block of the chain's next height is new to a store that holds only the chain. */
  lemma NextBlockIsNew(s: Node, b: Block, c: seq<Block>, v: seq<Vote>)
    requires Running(s) && Honest(s, c, v) && Finalized(b) && b.header.height == |c|
    ensures !Delivered(s, b.hash)
  {
    assert Delivered(s, b.hash) ==> InChain(c)(s.ledger.st.byHash[b.hash]);
    if Delivered(s, b.hash) {
      StoredPrev(s.ledger.st, b.hash);
    }
  }

  /** An accepted taller block becomes, or is overtaken as, the head. */
  lemma DoDeliveryHeight(s: Node, b: Block)
    ensures DoDelivery(s, b).ledger.lastSeen.header.height >= b.header.height
  {
    hide Drain;
    DrainLater(Wake(Accept(s.ledger, b), b.hash), b.hash);
  }

  lemma DoNewBlockAgrees(s: Node, batch: Batch, c: seq<Block>, v: seq<Vote>)
    requires Local(s, c, v) && ChainOk(c) && VoteListOk(s.cfg, c, v)
    requires s.cfg.me == VIEW_LEADER && BatchDigest(batch) in s.bs.cache
    ensures var c' := c + [NextBlock(s, batch)];
            ChainOk(c') && VoteListOk(s.cfg, c', v) && Local(DoNewBlock(s, batch), c', v)
    ensures Later(s, DoNewBlock(s, batch)) && DoNewBlock(s, batch).bs == s.bs
  {
    hide NodeInv, Honest, VoteListOk, DoDelivery, LeaderAt, ChainOk, HonestMsg;
    var b := NextBlock(s, batch);
    var c' := c + [b];
    HeadInChain(s, c, v);
    HeadIsStored(s);
    NextBlockIsNew(s, b, c, v);
    DoNewBlockKeeps(s, batch);
    ChainExtends(c, b);
    VotesOverLongerChain(s.cfg, c, b, v);
    HonestGrows(s, c, v, c', v);
    NewBlockHonest(s, b, batch, c', v);
    HeadInChain(DoNewBlock(s, batch), c', v);
    OwnBlock(s, DoNewBlock(s, batch), c, b, batch, v);
  }

  /** A new block of the view leader extends what it has sent. */
  lemma OwnBlock(s: Node, t: Node, c: seq<Block>, b: Block, batch: Batch, v: seq<Vote>)
    requires Own(s, c, v) && Later(s, t) && s.cfg.me == VIEW_LEADER && t.ledger.lastSeen.header.height == |c|
    requires b.header.author == VIEW_LEADER && b.sig.origin == VIEW_LEADER && b.batch == BatchDigest(batch)
    requires Verifies(VIEW_LEADER, OfBlock(b.hash), b.sig)
    requires ToAll(NewBlockMsg(b, batch)) in t.net && Proposed(batch, |c|) in t.toBatcher
    ensures Own(t, c + [b], v)
  {
    hide LeaderAt;
    var c' := c + [b];
    forall r | 1 <= r < |c'| ensures ToAll(Announce(c', r)) in t.net && Proposed(PayloadAt(c', r), r) in t.toBatcher {
      assert r < |c| ==> Announce(c', r) == Announce(c, r);
      assert r == |c| ==> Announce(c', r) == NewBlockMsg(b, batch);
    }
  }

  /** The announcement and the delivery of the leader's own new block. */
  lemma NewBlockHonest(s: Node, b: Block, batch: Batch, c: seq<Block>, v: seq<Vote>)
    requires Running(s) && Honest(s, c, v) && HonestBlock(c, b) && Finalized(b) && b == NextBlock(s, batch)
    requires s.cfg.me == VIEW_LEADER && !Delivered(s, b.hash) && Delivered(s, b.header.prev)
    ensures Honest(DoNewBlock(s, batch), c, v) && Later(s, DoNewBlock(s, batch))
    ensures DoNewBlock(s, batch).ledger.lastSeen.header.height >= b.header.height
    ensures ToAll(NewBlockMsg(b, batch)) in DoNewBlock(s, batch).net
    ensures Proposed(batch, b.header.height) in DoNewBlock(s, batch).toBatcher
  {
    hide NodeInv, Honest, DoDelivery;
    var sent := Multicast(s, NewBlockMsg(b, batch));
    var told := sent.(toBatcher := sent.toBatcher + [Proposed(batch, b.header.height)]);
    SendHonest(s, 0, NewBlockMsg(b, batch), c, v);
    ToldHonest(sent, Proposed(batch, b.header.height), c, v);
    DoDeliveryHonest(told, b, c, v);
    DoDeliveryHeight(told, b);
    assert told.net[|s.net|] == ToAll(NewBlockMsg(b, batch));
    assert told.toBatcher[|s.toBatcher|] == Proposed(batch, b.header.height);
  }

  lemma ToldHonest(s: Node, m: BatcherMsg, c: seq<Block>, v: seq<Vote>)
    requires Honest(s, c, v)
    ensures Honest(s.(toBatcher := s.toBatcher + [m]), c, v)
  {
    hide AllBlocks, AllVotes, HonestMsg;
  }

  lemma {:induction false} DoNewBlocksAgrees(s: Node, q: seq<(BatchHash, Batch)>, c: seq<Block>, v: seq<Vote>)
    returns (c': seq<Block>)
    requires Local(s, c, v) && ChainOk(c) && VoteListOk(s.cfg, c, v)
    requires s.cfg.me == VIEW_LEADER && PendingInv(s.bs, q)
    ensures Appended(c, c', q) && ChainOk(c') && VoteListOk(s.cfg, c', v) && Local(DoNewBlocks(s, q), c', v)
    ensures Later(s, DoNewBlocks(s, q))
    decreases |q|
  {
    hide Honest, Own, NodeInv, ChainOk, VoteListOk, DoNewBlock;
    if q == [] {
      c' := c;
    } else {
      DoNewBlockAgrees(s, q[0].1, c, v);
      c' := DoNewBlocksAgrees(DoNewBlock(s, q[0].1), q[1..], c + [NextBlock(s, q[0].1)], v);
      AppendedNext(c, NextBlock(s, q[0].1), c', q);
    }
  }

  // ---------------------------------------------------------------- a new vote

  function NextVote(s: Node): Vote {
    var h := s.ledger.lastSeen.hash;
    Vote(h, s.round, VIEW, Sig(s.cfg.me, AuthBy(s.cfg.me, OfVote(h, s.round, VIEW))))
  }

  /** The leader of a round that is not in the list yet is at the first such round. */
  lemma LeaderIsNext(s: Node, c: seq<Block>, v: seq<Vote>)
    requires Local(s, c, v) && s.cfg.me == s.rot.leader
    ensures s.round == |v| + 1 && LeaderAt(s.cfg.n, s.cfg.f, s.cfg.digest, s.round) == s.cfg.me
  {
    hide LedgerInv, BatchInv, EmissionInv, PendingInv, CommittedBy, AllBlocks, AllVotes, HonestMsg, RotationAt;
    assert LeaderAt(s.cfg.n, s.cfg.f, s.cfg.digest, s.round) == s.cfg.me;
  }

  lemma VotedHeight(s: Node, c: seq<Block>, v: seq<Vote>)
    requires Local(s, c, v) && ChainOk(c) && VoteListOk(s.cfg, c, v) && s.round == |v| + 1
    ensures s.lastVoted.header.height == if v == [] then 0 else HeightOf(v[|v| - 1].hash)
  {
    hide HonestMsg, LedgerInv, BatchInv, EmissionInv, PendingInv, CommittedBy, RotationAt, AllBlocks, AllVotes;
    if v != [] {
      assert HonestVote(v, s.votes[s.round - 1]);
      VotedIsStored(s, v[|v| - 1].hash);
    }
  }

  lemma VotedIsStored(s: Node, h: Hash)
    requires LedgerInv(s.ledger) && Delivered(s, h)
    ensures s.ledger.st.byHash[h].header.height == HeightOf(h)
  {
    StoredPrev(s.ledger.st, h);
  }

  lemma VoteListExtends(cfg: Config, c: seq<Block>, v: seq<Vote>, x: Vote)
    requires VoteListOk(cfg, c, v) && HonestHash(c, x.hash) && x.round == |v| + 1 && x.view == VIEW
    requires Verifies(LeaderAt(cfg.n, cfg.f, cfg.digest, |v| + 1), OfVote(x.hash, x.round, VIEW), x.sig)
    requires HeightOf(x.hash) > if v == [] then 0 else HeightOf(v[|v| - 1].hash)
    ensures VoteListOk(cfg, c, v + [x]) && HonestVote(v + [x], x)
  {
    hide LeaderAt, HonestHash, HeightOf;
    var v' := v + [x];
    assert forall j :: 0 <= j < |v| ==> v'[j] == v[j];
    assert v'[|v|] == x;
    forall j | 0 <= j < |v'| ensures Taller(v', j) {
      assert j < |v| ==> Taller(v, j);
      assert j == |v| && j > 0 ==> v'[j - 1] == v[|v| - 1];
    }
  }

  lemma HeadHash(s: Node, c: seq<Block>)
    requires Running(s) && HonestBlock(c, s.ledger.lastSeen)
    ensures HonestHash(c, s.ledger.lastSeen.hash) && HeightOf(s.ledger.lastSeen.hash) == s.ledger.lastSeen.header.height
    ensures Delivered(s, s.ledger.lastSeen.hash)
  {
    StoredPrev(s.ledger.st, s.ledger.lastSeen.hash);
  }

  /** An own vote is accepted and moves the replica to the next round. */
  lemma OwnVoteAdvances(s: Node, x: Vote)
    requires Running(s) && s.cfg.me == s.rot.leader && x.round == s.round && x.view == VIEW && Delivered(s, x.hash)
    ensures OnVote(s, x).round == s.round + 1
  {
    hide LedgerInv, BatchInv, EmissionInv, PendingInv, CommittedBy, RotationAt, Record, Rotate;
    RecordKeeps(s, x);
    RecordFrame(s, x);
    assert x.round in Record(s, x).votes;
  }

  lemma DoRoundVoteAgrees(s: Node, c: seq<Block>, v: seq<Vote>)
    requires Local(s, c, v) && ChainOk(c) && VoteListOk(s.cfg, c, v)
    requires s.cfg.me == s.rot.leader && s.ledger.lastSeen.header.height > s.lastVoted.header.height
    ensures var v' := v + [NextVote(s)];
            VoteListOk(s.cfg, c, v') && Local(DoRoundVote(s), c, v')
    ensures Later(s, DoRoundVote(s)) && LeaderAt(s.cfg.n, s.cfg.f, s.cfg.digest, |v| + 1) == s.cfg.me
  {
    var x := NextVote(s);
    var v' := v + [x];
    hide NodeInv, Honest, ChainOk, OnVote, LeaderAt, DoNewBlock;
    LeaderIsNext(s, c, v);
    VotedHeight(s, c, v);
    HeadInChain(s, c, v);
    HeadHash(s, c);
    VoteListExtends(s.cfg, c, v, x);
    hide VoteListOk;
    HonestGrows(s, c, v, c, v');
    SendHonest(s, 0, VoteMsg(x), c, v');
    SendKeeps(s, 0, VoteMsg(x));
    var sent := Multicast(s, VoteMsg(x));
    OnVoteKeeps(sent, x);
    OnVoteHonest(sent, x, c, v');
    OwnVoteAdvances(sent, x);
    var t := DoRoundVote(s);
    assert t == OnVote(sent, x);
    HeadInChain(t, c, v');
    assert sent.net[|s.net|] == ToAll(VoteMsg(x));
    OwnVoteSent(s, t, c, v, x);
  }

  /** A new vote extends what its leader has sent. */
  lemma OwnVoteSent(s: Node, t: Node, c: seq<Block>, v: seq<Vote>, x: Vote)
    requires Own(s, c, v) && Later(s, t) && t.round > |v| + 1 && ToAll(VoteMsg(x)) in t.net
    requires s.cfg.me == VIEW_LEADER ==> t.ledger.lastSeen.header.height == |c| - 1
    ensures Own(t, c, v + [x])
  {
    hide LeaderAt;
  }

  lemma {:induction false} TryRoundVoteAgrees(s: Node, c: seq<Block>, v: seq<Vote>) returns (v': seq<Vote>)
    requires Local(s, c, v) && ChainOk(c) && VoteListOk(s.cfg, c, v)
    ensures v <= v' && VoteListOk(s.cfg, c, v') && Local(TryRoundVote(s), c, v')
    ensures Later(s, TryRoundVote(s))
    ensures forall r :: |v| < r <= |v'| ==> LeaderAt(s.cfg.n, s.cfg.f, s.cfg.digest, r) == s.cfg.me
  {
    v' := v;
    hide Honest, Own, NodeInv, ChainOk, DoRoundVote, LeaderAt;
    if s.cfg.me == s.rot.leader && s.ledger.lastSeen.header.height > s.lastVoted.header.height {
      DoRoundVoteAgrees(s, c, v);
      v' := v + [NextVote(s)];
    }
  }

  // ---------------------------------------------------------------- one turn of the reactor

  /** The view leader turned exactly these batches into blocks and keeps none back; nobody else makes any. */
  ghost predicate MadeBlocks(s: Node, q: seq<(BatchHash, Batch)>, t: Node, c: seq<Block>, c': seq<Block>) {
    if s.cfg.me == VIEW_LEADER then t.pending == [] && Appended(c, c', q) else c' == c
  }

  /** What is pending once the event has been taken in. */
  function Waiting(s: Node, e: Event): seq<(BatchHash, Batch)> {
    if e.Sealed? then s.pending + [(BatchDigest(e.batch), e.batch)] else s.pending
  }

  lemma {:induction false} ProposeAgrees(s: Node, c: seq<Block>, v: seq<Vote>) returns (c': seq<Block>, v': seq<Vote>)
    requires Local(s, c, v) && ChainOk(c) && VoteListOk(s.cfg, c, v)
    ensures c <= c' && v <= v' && ChainOk(c') && VoteListOk(s.cfg, c', v') && Local(Propose(s), c', v')
    ensures Propose(s).cfg == s.cfg && MadeBlocks(s, s.pending, Propose(s), c, c')
    ensures forall r :: |v| < r <= |v'| ==> LeaderAt(s.cfg.n, s.cfg.f, s.cfg.digest, r) == s.cfg.me
  {
    hide NodeInv, ChainOk, VoteListOk, DoNewBlocks, TryRoundVote, LeaderAt, PendingInv, Honest, Own;
    var t := s;
    c' := c;
    if s.cfg.me == VIEW_LEADER {
      TakePendingKeeps(s);
      TakePendingLocal(s, c, v);
      c' := DoNewBlocksAgrees(s.(pending := []), s.pending, c, v);
      t := DoNewBlocks(s.(pending := []), s.pending);
    }
    v' := TryRoundVoteAgrees(t, c', v);
  }

  lemma TakePendingLocal(s: Node, c: seq<Block>, v: seq<Vote>)
    requires Honest(s, c, v) && Own(s, c, v)
    ensures Honest(s.(pending := []), c, v) && Own(s.(pending := []), c, v)
  {
    hide AllBlocks, AllVotes, HonestMsg, LeaderAt;
  }

  ghost predicate EventHonest(e: Event, c: seq<Block>, v: seq<Vote>) {
    e.Received? ==> forall i :: 0 <= i < |e.msgs| ==> HonestMsg(c, v, e.msgs[i])
  }

  lemma {:induction false} ReactAgrees(s: Node, e: Event, c: seq<Block>, v: seq<Vote>) returns (c': seq<Block>,
      v': seq<Vote>)
    requires Local(s, c, v) && ChainOk(c) && VoteListOk(s.cfg, c, v) && EventHonest(e, c, v)
    ensures c <= c' && v <= v' && ChainOk(c') && VoteListOk(s.cfg, c', v') && Local(React(s, e), c', v')
    ensures React(s, e).cfg == s.cfg && MadeBlocks(s, Waiting(s, e), React(s, e), c, c')
    ensures forall r :: |v| < r <= |v'| ==> LeaderAt(s.cfg.n, s.cfg.f, s.cfg.digest, r) == s.cfg.me
  {
    hide NodeInv, ChainOk, VoteListOk, Propose, ProcessMessages, LeaderAt, Honest, Own;
    match e
    case Received(ms) =>
      ProcessHonest(s, ms, c, v);
      var t := ProcessMessages(s, BufferedBlocks(ms), BufferedResponses(ms), BufferedOthers(ms));
      OwnLater(s, t, c, v);
      c', v' := ProposeAgrees(t, c, v);
    case Sealed(batch) =>
      SealedKeeps(s, batch);
      var t := s.(bs := Persist(s.bs, BatchDigest(batch), batch), pending := s.pending + [(BatchDigest(batch), batch)]);
      SealedHonest(s, t, c, v);
      OwnLater(s, t, c, v);
      c', v' := ProposeAgrees(t, c, v);
    case Idle =>
      c', v' := ProposeAgrees(s, c, v);
  }
}
