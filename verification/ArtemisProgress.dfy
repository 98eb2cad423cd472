/**
 No vote is lost in Artemis.  Among replicas that follow the code, votes may
 arrive in any order, before or after their blocks: a replica that has got the
 votes of rounds 1 to k and has their blocks is past round k once it handles its
 next messages.  From every state of every run each replica can catch up with
 all others in one turn, on messages that were sent.
 */
module ArtemisProgress {
  import opened Transactions
  import opened BatcherSpec
  import opened Blocks
  import opened Chains
  import opened LeaderRotation
  import opened ArtemisCore
  import opened ArtemisDelivery
  import opened ArtemisSafety
  import opened ArtemisRuns
  import opened ArtemisRecords
  import opened ArtemisAgreement
  import opened ArtemisCluster

  // ---------------------------------------------------------------- the invariant

  /** The vote of round `r` is ready, or waits for its block. */
  predicate Parked(l: Ledger, v: seq<Vote>, r: nat) {
    1 <= r <= |v| && (r in l.voteReady || v[r - 1].hash in l.voteWaiting)
  }

  /** Round `r` is behind this replica, or its vote is parked. */
  predicate Kept(s: Node, v: seq<Vote>, r: nat) {
    1 <= r <= |v| && (s.round > r || Parked(s.ledger, v, r))
  }

  /** No vote and no block is lost. */
  ghost predicate KeepsAll(s: Node, t: Node, v: seq<Vote>) {
    && (forall r :: Kept(s, v, r) ==> Kept(t, v, r))
    && s.ledger.st.byHash.Keys <= t.ledger.st.byHash.Keys && s.round <= t.round
  }

  lemma KeepsTrans(a: Node, b: Node, d: Node, v: seq<Vote>)
    requires KeepsAll(a, b, v) && KeepsAll(b, d, v)
    ensures KeepsAll(a, d, v)
  {
    hide Kept;
  }

  ghost predicate DistinctVotes(v: seq<Vote>) {
    forall i, j :: 0 <= i < j < |v| ==> v[i].hash != v[j].hash
  }

  /** The parked votes are votes of the list, filed under their blocks. */
  ghost predicate VotesFine(l: Ledger, v: seq<Vote>) {
    DistinctVotes(v) && AllVotes(l, InVotes(v)) && forall h :: h in l.voteWaiting ==> l.voteWaiting[h].hash == h
  }

  lemma VotesAreFine(s: Node, c: seq<Block>, v: seq<Vote>)
    requires Running(s) && Honest(s, c, v) && VoteListOk(s.cfg, c, v)
    ensures VotesFine(s.ledger, v)
  {
    hide BatchInv, EmissionInv, PendingInv, CommittedBy, RotationAt, VotesInv, LastVotedOk, ParkingOk, HeadOk,
      StorageOk,
      HonestMsg, VoteListOk, AllBlocks;
    ListDistinct(s.cfg, c, v);
  }

  lemma ListDistinct(cfg: Config, c: seq<Block>, v: seq<Vote>)
    requires VoteListOk(cfg, c, v)
    ensures DistinctVotes(v)
  {
    hide VoteListOk, HeightOf;
    forall i, j | 0 <= i < j < |v| ensures v[i].hash != v[j].hash {
      TallerLater(cfg, c, v, i, j);
    }
  }

  // ---------------------------------------------------------------- delivery

  ghost predicate LedgerKeeps(l: Ledger, l': Ledger, v: seq<Vote>) {
    && (forall r :: Parked(l, v, r) ==> Parked(l', v, r))
    && l.st.byHash.Keys <= l'.st.byHash.Keys
  }

  /** A vote that waited for a block is ready once the block is there. */
  lemma WakeKept(l: Ledger, h: Hash, v: seq<Vote>)
    requires VotesFine(l, v)
    ensures LedgerKeeps(l, Wake(l, h), v) && VotesFine(Wake(l, h), v)
  {
    if h in l.voteWaiting {
      assert InVotes(v)(l.voteWaiting[h]);
    }
  }

  lemma AcceptKept(l: Ledger, b: Block, v: seq<Vote>)
    requires VotesFine(l, v)
    ensures LedgerKeeps(l, Accept(l, b), v) && VotesFine(Accept(l, b), v)
  {
  }

  lemma SameKept(l: Ledger, l': Ledger, v: seq<Vote>)
    requires VotesFine(l, v) && l'.voteReady == l.voteReady && l'.voteWaiting == l.voteWaiting && l'.st == l.st
    ensures LedgerKeeps(l, l', v) && VotesFine(l', v)
  {
  }

  lemma LedgerTrans(a: Ledger, b: Ledger, d: Ledger, v: seq<Vote>)
    requires LedgerKeeps(a, b, v) && LedgerKeeps(b, d, v)
    ensures LedgerKeeps(a, d, v)
  {
    hide Parked;
  }

  lemma UnparkKept(l: Ledger, h: Hash, v: seq<Vote>)
    requires VotesFine(l, v) && h in l.parentWaiting
    ensures LedgerKeeps(l, Unpark(l, h), v) && VotesFine(Unpark(l, h), v)
  {
    hide Wake, VotesFine, LedgerKeeps, Accept;
    var child := l.parentWaiting[h];
    var l1 := l.(parentWaiting := l.parentWaiting - {h});
    SameKept(l, l1, v);
    var l2 := l1;
    if child in l.undelivered {
      var b := l.undelivered[child];
      l2 := Accept(l1, b).(undelivered := l.undelivered - {child});
      AcceptKept(l1, b, v);
      SameKept(Accept(l1, b), l2, v);
      LedgerTrans(l, l1, Accept(l1, b), v);
      LedgerTrans(l, Accept(l1, b), l2, v);
    }
    WakeKept(l2, child, v);
    LedgerTrans(l, l2, Wake(l2, child), v);
  }

  lemma {:induction false} DrainKept(l: Ledger, h: Hash, v: seq<Vote>)
    requires VotesFine(l, v)
    ensures LedgerKeeps(l, Drain(l, h), v)
    decreases |l.parentWaiting|
  {
    hide VotesFine, Unpark, Parked;
    if h in l.parentWaiting {
      ParkedCount(l, h);
      UnparkKept(l, h, v);
      DrainKept(Unpark(l, h), l.parentWaiting[h], v);
    }
  }

  lemma DeliverKept(l: Ledger, b: Block, v: seq<Vote>)
    requires VotesFine(l, v)
    ensures LedgerKeeps(l, Deliver(l, b), v)
  {
    hide VotesFine, Wake, Accept, Drain, LedgerKeeps;
    var l1 := Accept(l, b);
    var l2 := Wake(l1, b.hash);
    AcceptKept(l, b, v);
    WakeKept(l1, b.hash, v);
    DrainKept(l2, b.hash, v);
    LedgerTrans(l, l1, l2, v);
    LedgerTrans(l, l2, Drain(l2, b.hash), v);
  }

  /** A state with a ledger that keeps everything and no lower round. */
  lemma KeepsBy(s: Node, t: Node, v: seq<Vote>)
    requires LedgerKeeps(s.ledger, t.ledger, v) && t.round >= s.round
    ensures KeepsAll(s, t, v)
  {
    hide Parked;
  }

  lemma KeepsSame(s: Node, t: Node, v: seq<Vote>)
    requires t.ledger.voteReady == s.ledger.voteReady && t.ledger.voteWaiting == s.ledger.voteWaiting
    requires t.ledger.st.byHash == s.ledger.st.byHash && t.round >= s.round
    ensures KeepsAll(s, t, v)
  {
  }

  lemma DoDeliveryKept(s: Node, b: Block, v: seq<Vote>)
    requires VotesFine(s.ledger, v)
    ensures KeepsAll(s, DoDelivery(s, b), v)
  {
    hide VotesFine, Deliver, LedgerKeeps;
    DeliverKept(s.ledger, b, v);
    KeepsBy(s, DoDelivery(s, b), v);
  }

  lemma OnNewBlockKept(s: Node, b: Block, v: seq<Vote>)
    requires VotesFine(s.ledger, v)
    ensures KeepsAll(s, OnNewBlock(s, b), v)
  {
    hide VotesFine, DoDelivery, KeepsAll;
    KeepsSame(s, s, v);
    DoDeliveryKept(s, b, v);
  }

  lemma HandleNewBlockKept(s: Node, b: Block, batch: Batch, v: seq<Vote>)
    requires VotesFine(s.ledger, v)
    ensures KeepsAll(s, HandleNewBlock(s, b, batch), v)
  {
    hide VotesFine, OnNewBlock, KeepsAll;
    var s1 := s.(bs := Persist(s.bs, b.batch, batch));
    KeepsSame(s, s, v);
    KeepsSame(s, s1, v);
    OnNewBlockKept(s1, b, v);
    KeepsTrans(s, s1, OnNewBlock(s1, b), v);
  }

  lemma HandleResponseKept(s: Node, from: Replica, b: Block, batch: Batch, v: seq<Vote>)
    requires VotesFine(s.ledger, v)
    ensures KeepsAll(s, HandleResponse(s, from, b, batch), v)
  {
    hide VotesFine, DoDelivery, KeepsAll;
    var s1 := s.(bs := Persist(s.bs, b.batch, batch));
    var t := HandleResponse(s, from, b, batch);
    DoDeliveryKept(s1, b, v);
    KeepsSame(s, s1, v);
    KeepsTrans(s, s1, DoDelivery(s1, b), v);
    if t != DoDelivery(s1, b) {
      KeepsSame(s, t, v);
    }
  }

  // ---------------------------------------------------------------- votes

  /** A vote of the list is accepted in its round. */
  lemma ListedIsAccepted(s: Node, x: Vote, c: seq<Block>, v: seq<Vote>)
    requires Running(s) && VoteListOk(s.cfg, c, v) && HonestVote(v, x) && x.round == s.round
    ensures VoteAccepted(s, x)
  {
    hide NodeInv, LeaderAt;
    LeadersOf(s);
  }

  lemma OnVoteKept(s: Node, x: Vote, c: seq<Block>, v: seq<Vote>)
    requires Running(s) && VoteListOk(s.cfg, c, v) && HonestVote(v, x) && x.round == s.round && Delivered(s, x.hash)
    ensures KeepsAll(s, OnVote(s, x), v) && OnVote(s, x).round == s.round + 1
  {
    hide NodeInv, VoteListOk, OnVote, KeepsAll, RoundsOf, HonestVote;
    ListedIsAccepted(s, x, c, v);
    OnVoteIs(s, x);
    KeepsSame(s, OnVote(s, x), v);
  }

  lemma TryVoteKept(s: Node, from: Replica, x: Vote, c: seq<Block>, v: seq<Vote>)
    requires Running(s) && VoteListOk(s.cfg, c, v) && HonestVote(v, x)
    ensures KeepsAll(s, TryVote(s, from, x), v) && Kept(TryVote(s, from, x), v, x.round)
  {
    hide NodeInv, VoteListOk, OnVote;
    if x.round == s.round && Delivered(s, x.hash) {
      OnVoteKept(s, x, c, v);
    }
  }

  /** Taking the ready vote of the current round and handling it moves the replica past that round. */
  lemma TakeReadyKept(s: Node, c: seq<Block>, v: seq<Vote>)
    requires Running(s) && Honest(s, c, v) && VoteListOk(s.cfg, c, v) && s.round in s.ledger.voteReady
    ensures var s1 := s.(ledger := s.ledger.(voteReady := s.ledger.voteReady - {s.round}));
            KeepsAll(s, OnVote(s1, s.ledger.voteReady[s.round]), v)
  {
    hide NodeInv, VoteListOk, OnVote, Honest, HonestVote;
    var x := s.ledger.voteReady[s.round];
    var s1 := s.(ledger := s.ledger.(voteReady := s.ledger.voteReady - {s.round}));
    TakeReadyKeeps(s);
    TakeReadyHonest(s, c, v);
    OnVoteKept(s1, x, c, v);
    var t := OnVote(s1, x);
    forall r | Kept(s, v, r) ensures Kept(t, v, r) {
      assert r != s.round ==> Kept(s1, v, r);
    }
  }

  lemma {:induction false} DrainReadyKept(s: Node, c: seq<Block>, v: seq<Vote>)
    requires Running(s) && Honest(s, c, v) && VoteListOk(s.cfg, c, v)
    ensures KeepsAll(s, DrainReady(s), v)
    decreases |s.ledger.voteReady|
  {
    hide NodeInv, Honest, OnVote, HonestVote, VoteListOk, KeepsAll;
    if s.round in s.ledger.voteReady {
      var x := s.ledger.voteReady[s.round];
      var s1 := s.(ledger := s.ledger.(voteReady := s.ledger.voteReady - {s.round}));
      assert s.ledger.voteReady.Keys == s1.ledger.voteReady.Keys + {s.round};
      TakeReadyKeeps(s);
      TakeReadyHonest(s, c, v);
      TakeReadyKept(s, c, v);
      OnVoteKeeps(s1, x);
      OnVoteHonest(s1, x, c, v);
      OnVoteFrame(s1, x);
      DrainReadyKept(OnVote(s1, x), c, v);
      KeepsTrans(s, OnVote(s1, x), DrainReady(OnVote(s1, x)), v);
    } else {
      KeepsSame(s, s, v);
    }
  }

  // ---------------------------------------------------------------- message loops

  lemma {:induction false} HandleBlocksKept(s: Node, q: seq<(Block, Batch)>, c: seq<Block>, v: seq<Vote>)
    requires Running(s) && Honest(s, c, v) && VoteListOk(s.cfg, c, v)
    requires forall i :: 0 <= i < |q| ==> HonestBlock(c, q[i].0) && Finalized(q[i].0)
    ensures KeepsAll(s, HandleBlocks(s, q), v)
    decreases |q|
  {
    hide NodeInv, Honest, HandleNewBlock, HonestBlock, VoteListOk, KeepsAll, VotesFine;
    if q != [] {
      var s1 := HandleNewBlock(s, q[0].0, q[0].1);
      VotesAreFine(s, c, v);
      HandleNewBlockKeeps(s, q[0].0, q[0].1);
      HandleNewBlockHonest(s, q[0].0, q[0].1, c, v);
      HandleNewBlockKept(s, q[0].0, q[0].1, v);
      HandleBlocksKept(s1, q[1..], c, v);
      KeepsTrans(s, s1, HandleBlocks(s1, q[1..]), v);
    } else {
      KeepsSame(s, s, v);
    }
  }

  lemma {:induction false} HandleResponsesKept(s: Node, q: seq<(Replica, Block, Batch)>, c: seq<Block>, v: seq<Vote>)
    requires Running(s) && Honest(s, c, v) && VoteListOk(s.cfg, c, v)
    requires forall i :: 0 <= i < |q| ==> HonestBlock(c, q[i].1) && Finalized(q[i].1)
    ensures KeepsAll(s, HandleResponses(s, q), v)
    decreases |q|
  {
    hide NodeInv, Honest, HandleResponse, HonestBlock, VoteListOk, KeepsAll, VotesFine;
    if q != [] {
      var s1 := HandleResponse(s, q[0].0, q[0].1, q[0].2);
      VotesAreFine(s, c, v);
      HandleResponseKeeps(s, q[0].0, q[0].1, q[0].2);
      HandleResponseHonest(s, q[0].0, q[0].1, q[0].2, c, v);
      HandleResponseKept(s, q[0].0, q[0].1, q[0].2, v);
      HandleResponsesKept(s1, q[1..], c, v);
      KeepsTrans(s, s1, HandleResponses(s1, q[1..]), v);
    } else {
      KeepsSame(s, s, v);
    }
  }

  /** The vote is one of the list, and kept. */
  predicate KeptVote(s: Node, v: seq<Vote>, x: Vote) {
    HonestVote(v, x) && Kept(s, v, x.round)
  }

  predicate Carries(m: Msg, x: Vote) {
    (m.VoteMsg? || m.Relay?) && m.vote == x
  }

  lemma HandleOtherKept(s: Node, m: Msg, c: seq<Block>, v: seq<Vote>)
    requires Running(s) && VoteListOk(s.cfg, c, v) && IsOther(m) && HonestMsg(c, v, m)
    ensures KeepsAll(s, HandleOther(s, m), v) && forall x :: Carries(m, x) ==> KeptVote(HandleOther(s, m), v, x)
  {
    hide NodeInv, VoteListOk, TryVote, HonestVote, KeepsAll, ReadBatch, Kept;
    match m
    case VoteMsg(x) => TryVoteKept(s, x.sig.origin, x, c, v);
    case Relay(from, x) => TryVoteKept(s, from, x, c, v);
    case Request(from, id, h) => KeepsSame(s, HandleRequest(s, from, id, h), v);
    case _ =>
  }

  lemma {:induction false} HandleOthersKept(s: Node, q: seq<Msg>, c: seq<Block>, v: seq<Vote>)
    requires Running(s) && Honest(s, c, v) && ChainOk(c) && VoteListOk(s.cfg, c, v)
    requires forall i :: 0 <= i < |q| ==> IsOther(q[i]) && HonestMsg(c, v, q[i])
    ensures KeepsAll(s, HandleOthers(s, q), v)
    ensures forall x :: Brings(q, x) ==> KeptVote(HandleOthers(s, q), v, x)
    decreases |q|
  {
    hide NodeInv, Honest, ChainOk, HandleOther, VoteListOk, Kept, Carries, HonestMsg, IsOther;
    if q != [] {
      var s1 := HandleOther(s, q[0]);
      HandleOtherHonest(s, q[0], c, v);
      HandleOtherRuns(s, q[0], c, v);
      HandleOtherKept(s, q[0], c, v);
      HandleOthersKept(s1, q[1..], c, v);
      assert forall i :: 0 < i < |q| ==> q[i] == q[1..][i - 1];
    }
  }

  lemma HandleOtherRuns(s: Node, m: Msg, c: seq<Block>, v: seq<Vote>)
    requires Running(s) && IsOther(m) && HonestMsg(c, v, m)
    ensures Running(HandleOther(s, m))
  {
    hide NodeInv, HandleOther;
    HandleOtherKeeps(s, m);
  }

  /** Some message carries the vote. */
  ghost predicate Brings(ms: seq<Msg>, x: Vote) {
    exists i :: 0 <= i < |ms| && Carries(ms[i], x)
  }

  lemma {:induction false} BufferedBrings(ms: seq<Msg>, x: Vote)
    requires Brings(ms, x)
    ensures Brings(BufferedOthers(ms), x)
  {
    var init, m := ms[..|ms| - 1], ms[|ms| - 1];
    var q, q' := BufferedOthers(init), BufferedOthers(ms);
    assert q <= q' && (IsOther(m) ==> q'[|q|] == m);
    var i :| 0 <= i < |ms| && Carries(ms[i], x);
    if i < |init| {
      assert Carries(init[i], x);
      BufferedBrings(init, x);
      var j :| 0 <= j < |q| && Carries(q[j], x);
      assert Carries(q'[j], x);
    } else {
      assert Carries(q'[|q|], x);
    }
  }

  /** The replica after a burst, before it makes blocks and votes. */
  function Processed(s: Node, ms: seq<Msg>): Node {
    ProcessMessages(s, BufferedBlocks(ms), BufferedResponses(ms), BufferedOthers(ms))
  }

  /** Handling a burst loses nothing, keeps the votes that came, and leaves no ready vote for the round it ends in. */
  lemma ProcessKept(s: Node, ms: seq<Msg>, c: seq<Block>, v: seq<Vote>)
    requires Running(s) && Honest(s, c, v) && ChainOk(c) && VoteListOk(s.cfg, c, v)
    requires forall i :: 0 <= i < |ms| ==> HonestMsg(c, v, ms[i])
    ensures var t := Processed(s, ms);
            && KeepsAll(s, t, v) && t.round !in t.ledger.voteReady
            && KeepsAll(HandleBlocks(s, BufferedBlocks(ms)), t, v)
            && forall x :: Brings(ms, x) ==> KeptVote(t, v, x)
  {
    BufferedHonest(ms, c, v);
    hide NodeInv, Honest, ChainOk, HandleBlocks, HandleResponses, HandleOthers, DrainReady, HonestMsg, KeptVote, Brings,
      BufferedBlocks, BufferedResponses, BufferedOthers, VoteListOk, HonestBlock, IsOther, KeepsAll, Later;
    var s1 := HandleBlocks(s, BufferedBlocks(ms));
    HandleBlocksKeeps(s, BufferedBlocks(ms));
    HandleBlocksHonest(s, BufferedBlocks(ms), c, v);
    HandleBlocksKept(s, BufferedBlocks(ms), c, v);
    var s2 := HandleResponses(s1, BufferedResponses(ms));
    HandleResponsesKeeps(s1, BufferedResponses(ms));
    HandleResponsesHonest(s1, BufferedResponses(ms), c, v);
    HandleResponsesKept(s1, BufferedResponses(ms), c, v);
    var s3 := DrainReady(s2);
    DrainReadyKeeps(s2);
    DrainReadyHonest(s2, c, v);
    DrainReadyKept(s2, c, v);
    var s4 := HandleOthers(s3, BufferedOthers(ms));
    HandleOthersHonest(s3, BufferedOthers(ms), c, v);
    HandleOthersKept(s3, BufferedOthers(ms), c, v);
    DrainReadyKeeps(s4);
    DrainReadyKept(s4, c, v);
    var t := DrainReady(s4);
    KeepsTrans(s3, s4, t, v);
    KeepsTrans(s2, s3, t, v);
    KeepsTrans(s1, s2, t, v);
    KeepsTrans(s, s1, t, v);
    forall x | Brings(ms, x) ensures KeptVote(t, v, x) {
      BufferedBrings(ms, x);
      KeptOn(s4, t, v, x);
    }
  }

  lemma KeptOn(s: Node, t: Node, v: seq<Vote>, x: Vote)
    requires KeepsAll(s, t, v) && KeptVote(s, v, x)
    ensures KeptVote(t, v, x)
  {
  }

  // ---------------------------------------------------------------- one turn of the reactor

  lemma DoNewBlockKept(s: Node, batch: Batch, v: seq<Vote>)
    requires VotesFine(s.ledger, v)
    ensures KeepsAll(s, DoNewBlock(s, batch), v)
  {
    hide VotesFine, OnNewBlock, KeepsAll;
    var unsigned := NewBlock(s.ledger.lastSeen, s.cfg.me, batch, Sig(s.cfg.me, NoAuth));
    var b := unsigned.(sig := Sig(s.cfg.me, AuthBy(s.cfg.me, OfBlock(unsigned.hash))));
    var sent := Multicast(s, NewBlockMsg(b, batch));
    var told := sent.(toBatcher := sent.toBatcher + [Proposed(batch, b.header.height)]);
    KeepsSame(s, told, v);
    OnNewBlockKept(told, b, v);
    KeepsTrans(s, told, OnNewBlock(told, b), v);
  }

  lemma {:induction false} DoNewBlocksKept(s: Node, q: seq<(BatchHash, Batch)>, c: seq<Block>, v: seq<Vote>)
    requires Local(s, c, v) && ChainOk(c) && VoteListOk(s.cfg, c, v) && s.cfg.me == VIEW_LEADER && PendingInv(s.bs, q)
    ensures KeepsAll(s, DoNewBlocks(s, q), v)
    decreases |q|
  {
    hide Honest, Own, NodeInv, ChainOk, VoteListOk, DoNewBlock, KeepsAll, VotesFine, Later;
    if q == [] {
      KeepsSame(s, s, v);
    } else {
      var s1 := DoNewBlock(s, q[0].1);
      VotesAreFine(s, c, v);
      DoNewBlockAgrees(s, q[0].1, c, v);
      DoNewBlockKept(s, q[0].1, v);
      DoNewBlocksKept(s1, q[1..], c + [NextBlock(s, q[0].1)], v);
      KeepsTrans(s, s1, DoNewBlocks(s1, q[1..]), v);
    }
  }

  lemma TryRoundVoteKept(s: Node, v: seq<Vote>)
    requires Running(s)
    ensures KeepsAll(s, TryRoundVote(s), v)
  {
    hide NodeInv, OnVote, KeepsAll, RoundsOf;
    if s.cfg.me == s.rot.leader && s.ledger.lastSeen.header.height > s.lastVoted.header.height {
      var sent := Multicast(s, VoteMsg(OwnVote(s)));
      HeadIsThere(s);
      SendKeeps(s, 0, VoteMsg(OwnVote(s)));
      OnVoteIs(sent, OwnVote(s));
      KeepsSame(s, OnVote(sent, OwnVote(s)), v);
    } else {
      KeepsSame(s, s, v);
    }
  }

  lemma ProposeKept(s: Node, c: seq<Block>, v: seq<Vote>)
    requires Local(s, c, v) && ChainOk(c) && VoteListOk(s.cfg, c, v)
    ensures KeepsAll(s, Propose(s), v)
  {
    hide NodeInv, ChainOk, VoteListOk, DoNewBlocks, TryRoundVote, PendingInv, Honest, Own, KeepsAll;
    if s.cfg.me == VIEW_LEADER {
      var s1 := s.(pending := []);
      TakePendingKeeps(s);
      TakePendingLocal(s, c, v);
      KeepsSame(s, s1, v);
      var t := DoNewBlocks(s1, s.pending);
      DoNewBlocksKeeps(s1, s.pending);
      DoNewBlocksKept(s1, s.pending, c, v);
      TryRoundVoteKept(t, v);
      KeepsTrans(s, s1, t, v);
      KeepsTrans(s, t, TryRoundVote(t), v);
    } else {
      TryRoundVoteKept(s, v);
    }
  }

  /** A turn loses nothing and keeps the votes it brings. */
  lemma ReactKept(s: Node, e: Event, c: seq<Block>, v: seq<Vote>)
    requires Local(s, c, v) && ChainOk(c) && VoteListOk(s.cfg, c, v) && EventHonest(e, c, v)
    ensures KeepsAll(s, React(s, e), v)
    ensures e.Received? ==> forall x :: Brings(e.msgs, x) ==> KeptVote(React(s, e), v, x)
    ensures e.Received? ==> KeepsAll(Processed(s, e.msgs), React(s, e), v)
  {
    hide NodeInv, ChainOk, VoteListOk, Propose, ProcessMessages, Honest, Own, KeepsAll, Brings, KeptVote, Later;
    match e
    case Received(ms) =>
      var t := Processed(s, ms);
      ProcessHonest(s, ms, c, v);
      OwnLater(s, t, c, v);
      LaterConfig(s, t);
      ProcessKept(s, ms, c, v);
      ProposeKept(t, c, v);
      KeepsTrans(s, t, Propose(t), v);
      forall x | Brings(ms, x) ensures KeptVote(React(s, e), v, x) {
        KeptOn(t, Propose(t), v, x);
      }
    case Sealed(batch) =>
      SealedKeeps(s, batch);
      var t := s.(bs := Persist(s.bs, BatchDigest(batch), batch), pending := s.pending + [(BatchDigest(batch), batch)]);
      SealedHonest(s, t, c, v);
      SameIsLater(s, t);
      OwnLater(s, t, c, v);
      KeepsSame(s, t, v);
      ProposeKept(t, c, v);
      KeepsTrans(s, t, Propose(t), v);
    case Idle => ProposeKept(s, c, v);
  }

  lemma LaterConfig(s: Node, t: Node)
    requires Later(s, t)
    ensures t.cfg == s.cfg
  {
  }

  lemma SameIsLater(s: Node, t: Node)
    requires t == s.(bs := t.bs, pending := t.pending)
    ensures Later(s, t)
  {
  }

  /** With its round's vote kept and that vote's block delivered, a replica has a ready vote for its round. */
  lemma KeptIsReady(s: Node, v: seq<Vote>)
    requires Running(s) && Kept(s, v, s.round) && Delivered(s, v[s.round - 1].hash)
    ensures s.round in s.ledger.voteReady
  {
    hide BatchInv, EmissionInv, PendingInv, CommittedBy, RotationAt, VotesInv, LastVotedOk, ParkingOk, HeadOk,
      StorageOk;
  }

  // ---------------------------------------------------------------- whole runs

  /** Replica `i` was handed the vote in the run. */
  ghost predicate Got(turns: seq<Turn>, i: Replica, x: Vote) {
    exists k :: 0 <= k < |turns| && turns[k].who == i && turns[k].event.Received? && Brings(turns[k].event.msgs, x)
  }

  lemma {:induction false} GotSplit(turns: seq<Turn>, i: Replica, x: Vote)
    requires turns != [] && Got(turns, i, x)
    ensures Got(turns[1..], i, x) || Got(turns[..1], i, x)
  {
    hide Brings;
    var k :| 0 <= k < |turns| && turns[k].who == i && turns[k].event.Received? && Brings(turns[k].event.msgs, x);
    assert k > 0 ==> turns[1..][k - 1] == turns[k];
    assert k == 0 ==> turns[..1][0] == turns[0];
  }

  lemma GotNow(turns: seq<Turn>, i: Replica, x: Vote)
    requires turns != [] && Got(turns[..1], i, x)
    ensures turns[0].who == i && turns[0].event.Received? && Brings(turns[0].event.msgs, x)
  {
    hide Brings;
  }

  lemma KeptGrows(s: Node, v: seq<Vote>, v': seq<Vote>, x: Vote)
    requires KeptVote(s, v, x) && v <= v'
    ensures KeptVote(s, v', x)
  {
  }

  lemma SetupFacts(u: Setup, nodes: Cluster, i: nat, c: seq<Block>, v: seq<Vote>)
    requires GlobalInv(u, nodes, c, v) && i < u.n
    ensures |nodes| == u.n && ChainOk(c) && Local(nodes[i], c, v) && VoteListOk(nodes[i].cfg, c, v)
    ensures nodes[i].cfg == Config(u.n, u.f, i, u.digest)
  {
    hide ChainOk, VoteListOk, Local;
    SameVoteList(Config(u.n, u.f, 0, u.digest), nodes[i].cfg, c, v);
  }

  lemma TurnHonest(u: Setup, nodes: Cluster, turn: Turn, c: seq<Block>, v: seq<Vote>)
    requires GlobalInv(u, nodes, c, v) && Possible(nodes, turn)
    ensures EventHonest(turn.event, c, v)
  {
    hide ChainOk, VoteListOk, Local, SentTo, HonestMsg;
    if turn.event.Received? {
      forall i | 0 <= i < |turn.event.msgs| ensures HonestMsg(c, v, turn.event.msgs[i]) {
        SentHonest(u, nodes, turn.who, turn.event.msgs[i], c, v);
      }
    }
  }

  lemma TurnKept(u: Setup, nodes: Cluster, turn: Turn, i: nat, x: Vote, c: seq<Block>, v: seq<Vote>)
    requires GlobalInv(u, nodes, c, v) && Possible(nodes, turn) && i < u.n
    requires KeptVote(nodes[i], v, x) || (turn.who == i && turn.event.Received? && Brings(turn.event.msgs, x))
    ensures KeptVote(Take(nodes, turn)[i], v, x)
  {
    hide GlobalInv, React, Brings, KeptVote, Local, KeepsAll, EventHonest, ChainOk, VoteListOk, SentTo;
    SetupFacts(u, nodes, i, c, v);
    if turn.who == i {
      TurnHonest(u, nodes, turn, c, v);
      ReactKept(nodes[i], turn.event, c, v);
      if KeptVote(nodes[i], v, x) {
        KeptOn(nodes[i], React(nodes[i], turn.event), v, x);
      }
    }
  }

  lemma {:induction false} RunKept(u: Setup, nodes: Cluster, turns: seq<Turn>, i: nat, x: Vote, c: seq<Block>,
      v: seq<Vote>)
    returns (c': seq<Block>, v': seq<Vote>)
    requires GlobalInv(u, nodes, c, v) && PossibleRun(nodes, turns) && i < u.n
    requires KeptVote(nodes[i], v, x) || Got(turns, i, x)
    ensures c <= c' && v <= v' && GlobalInv(u, RunCluster(nodes, turns), c', v')
    ensures |nodes| == u.n && KeptVote(RunCluster(nodes, turns)[i], v', x)
    decreases |turns|
  {
    hide GlobalInv, Take, Possible, KeptVote, Got, Brings;
    c', v' := c, v;
    SetupFacts(u, nodes, i, c, v);
    if turns == [] {
      NeverGot(i, x);
    } else {
      if Got(turns, i, x) {
        GotSplit(turns, i, x);
        if Got(turns[..1], i, x) {
          GotNow(turns, i, x);
        }
      }
      var now := KeptVote(nodes[i], v, x) || Got(turns[..1], i, x);
      if now {
        TurnKept(u, nodes, turns[0], i, x, c, v);
      }
      c', v' := TurnAgrees(u, nodes, turns[0], c, v);
      if now {
        KeptGrows(Take(nodes, turns[0])[i], v, v', x);
      }
      c', v' := RunKept(u, Take(nodes, turns[0]), turns[1..], i, x, c', v');
    }
  }

  lemma NeverGot(i: Replica, x: Vote)
    ensures !Got([], i, x)
  {
  }

  /** The burst leaves the replica in a round whose vote it has not got, or whose block it lacks. */
  lemma NotCurrent(s: Node, ms: seq<Msg>, x: Vote, c: seq<Block>, v: seq<Vote>)
    requires Local(s, c, v) && ChainOk(c) && VoteListOk(s.cfg, c, v) && EventHonest(Received(ms), c, v)
    requires KeptVote(s, v, x) || Brings(ms, x)
    requires Delivered(s, x.hash) || Delivered(HandleBlocks(s, BufferedBlocks(ms)), x.hash)
    ensures Processed(s, ms).round != x.round
  {
    hide NodeInv, Honest, Own, ChainOk, VoteListOk, ProcessMessages, HandleBlocks, BufferedBlocks, Brings, Later,
      HonestMsg;
    var t := Processed(s, ms);
    ProcessHonest(s, ms, c, v);
    ProcessKept(s, ms, c, v);
    if t.round == x.round {
      assert KeptVote(t, v, x);
      KeptIsReady(t, v);
    }
  }

  lemma ReactAfter(s: Node, ms: seq<Msg>, c: seq<Block>, v: seq<Vote>)
    requires Local(s, c, v) && ChainOk(c) && VoteListOk(s.cfg, c, v) && EventHonest(Received(ms), c, v)
    ensures React(s, Received(ms)).round >= Processed(s, ms).round >= 1
  {
    hide NodeInv, Honest, Own, ChainOk, VoteListOk, React, Kept, EventHonest, Brings;
    ReactKept(s, Received(ms), c, v);
    ProcessedRound(s, ms, c, v);
  }

  lemma ProcessedRound(s: Node, ms: seq<Msg>, c: seq<Block>, v: seq<Vote>)
    requires Local(s, c, v) && ChainOk(c) && EventHonest(Received(ms), c, v)
    ensures Processed(s, ms).round >= 1
  {
    hide Honest, Own, ChainOk, ProcessMessages, LedgerInv, BatchInv, EmissionInv, PendingInv, CommittedBy, RotationAt,
      VotesInv, Later, HonestMsg;
    ProcessHonest(s, ms, c, v);
  }

  /** The vote reached the replica in the run and its block is there. */
  ghost predicate HasVote(nodes: Cluster, turns: seq<Turn>, i: nat, r: nat)
    requires i < |nodes|
  {
    exists x :: Got(turns, i, x) && x.round == r && Delivered(nodes[i], x.hash)
  }

  /** No vote is lost: in every run, a replica that was handed the votes of rounds 1 to `k`, in whatever order and
      bursts, before or after their blocks, is past round `k` after the next burst it handles. */
  lemma {:induction false} NoVoteLost(u: Setup, turns: seq<Turn>, i: nat, k: nat, ms: seq<Msg>)
    requires SetupOk(u) && PossibleRun(Start(u), turns) && i < u.n
    requires Possible(RunCluster(Start(u), turns), Turn(i, Received(ms)))
    requires forall r :: 1 <= r <= k ==> HasVote(RunCluster(Start(u), turns), turns, i, r)
    ensures Take(RunCluster(Start(u), turns), Turn(i, Received(ms)))[i].round > k
  {
    hide Start, PossibleRun, RunCluster, SetupOk, Local, Possible, React, Got, ProcessMessages, GlobalInv, ChainOk,
      VoteListOk, EventHonest, Kept;
    StartInv(u);
    var nodes := RunCluster(Start(u), turns);
    var s := nodes[i];
    var c, v := RunAgrees(u, Start(u), turns, [GENESIS], []);
    SetupFacts(u, nodes, i, c, v);
    TurnHonest(u, nodes, Turn(i, Received(ms)), c, v);
    ReactAfter(s, ms, c, v);
    var r := Processed(s, ms).round;
    if r <= k {
      assert HasVote(nodes, turns, i, r);
      var x :| Got(turns, i, x) && x.round == r && Delivered(s, x.hash);
      var c', v' := RunKept(u, Start(u), turns, i, x, [GENESIS], []);
      SetupFacts(u, nodes, i, c', v');
      TurnHonest(u, nodes, Turn(i, Received(ms)), c', v');
      NotCurrent(s, ms, x, c', v');
    }
  }

  // ---------------------------------------------------------------- catching up

  /** All blocks of the chain below index `k`, genesis excepted, in order. */
  function BlockMsgs(c: seq<Block>, k: nat): (ms: seq<Msg>)
    requires k <= |c|
    ensures forall i :: 0 <= i < |ms| ==> ms[i].NewBlockMsg?
  {
    if k <= 1 then [] else BlockMsgs(c, k - 1) + [Announce(c, k - 1)]
  }

  function VoteMsgs(v: seq<Vote>): (ms: seq<Msg>)
    ensures |ms| == |v| && forall i :: 0 <= i < |v| ==> ms[i] == VoteMsg(v[i])
  {
    seq(|v|, i requires 0 <= i < |v| => VoteMsg(v[i]))
  }

  /** Everything that was ever made: the blocks in order, then the votes. */
  function Everything(c: seq<Block>, v: seq<Vote>): seq<Msg> {
    BlockMsgs(c, |c|) + VoteMsgs(v)
  }

  lemma {:induction false} BlockMsgsSent(s: Node, c: seq<Block>, k: nat)
    requires BlocksSent(s.net, s.toBatcher, c) && k <= |c|
    ensures forall i :: 0 <= i < |BlockMsgs(c, k)| ==> ToAll(BlockMsgs(c, k)[i]) in s.net
  {
    if k > 1 {
      BlockMsgsSent(s, c, k - 1);
      assert ToAll(Announce(c, k - 1)) in s.net;
    }
  }

  lemma VoteWasSent(u: Setup, nodes: Cluster, c: seq<Block>, v: seq<Vote>, i: nat, k: nat)
    requires GlobalInv(u, nodes, c, v) && i < u.n && k < |v|
    ensures SentTo(nodes, i, VoteMsg(v[k]))
  {
    hide GlobalInv, Local, ChainOk, VoteListOk, LeaderAt;
    LeaderIsReplica(u, nodes, c, v, k + 1);
    var j := LeaderAt(u.n, u.f, u.digest, k + 1);
    SetupFacts(u, nodes, j, c, v);
    LeaderSent(nodes[j], c, v, k + 1);
  }

  lemma LeaderSent(s: Node, c: seq<Block>, v: seq<Vote>, r: nat)
    requires Local(s, c, v) && 1 <= r <= |v| && ConfigOk(s.cfg)
    requires LeaderAt(s.cfg.n, s.cfg.f, s.cfg.digest, r) == s.cfg.me
    ensures ToAll(VoteMsg(v[r - 1])) in s.net
  {
    hide NodeInv, Honest, LeaderAt;
  }

  lemma LeaderIsReplica(u: Setup, nodes: Cluster, c: seq<Block>, v: seq<Vote>, r: nat)
    requires GlobalInv(u, nodes, c, v) && r >= 1
    ensures 1 <= u.f < u.n && LeaderAt(u.n, u.f, u.digest, r) < u.n
  {
    hide Local, ChainOk, VoteListOk, RotationAt;
    RotationPartition(u.n, u.f, u.digest, r);
    var rot := RotationAt(u.n, u.f, u.digest, r);
    assert rot.leader in rot.recent;
  }

  lemma LeaderHasSent(s: Node, c: seq<Block>, v: seq<Vote>)
    requires Local(s, c, v) && s.cfg.me == VIEW_LEADER
    ensures BlocksSent(s.net, s.toBatcher, c) && SignedChain(c)
  {
    hide NodeInv, Honest, LeaderAt;
  }

  lemma EverythingWasSent(u: Setup, nodes: Cluster, c: seq<Block>, v: seq<Vote>, i: nat)
    requires GlobalInv(u, nodes, c, v) && i < u.n
    ensures Possible(nodes, Turn(i, Received(Everything(c, v)))) && SignedChain(c)
  {
    hide GlobalInv, Local, ChainOk, VoteListOk, BlocksSent, SignedChain, BlockMsgs;
    SetupFacts(u, nodes, 0, c, v);
    LeaderHasSent(nodes[0], c, v);
    BlockMsgsSent(nodes[0], c, |c|);
    var ms, a := Everything(c, v), |BlockMsgs(c, |c|)|;
    forall k | 0 <= k < |ms| ensures SentTo(nodes, i, ms[k]) {
      if k < a {
        assert ms[k] == BlockMsgs(c, |c|)[k];
        assert ToAll(ms[k]) in nodes[0].net;
      } else {
        VoteWasSent(u, nodes, c, v, i, k - a);
        assert ms[k] == VoteMsg(v[k - a]);
      }
    }
  }

  function BlockPairs(c: seq<Block>, k: nat): seq<(Block, Batch)>
    requires k <= |c|
  {
    if k <= 1 then [] else BlockPairs(c, k - 1) + [(c[k - 1], PayloadAt(c, k - 1))]
  }

  lemma {:induction false} BufferedBlocksOf(c: seq<Block>, k: nat)
    requires k <= |c|
    ensures BufferedBlocks(BlockMsgs(c, k)) == BlockPairs(c, k)
  {
    if k > 1 {
      var ms := BlockMsgs(c, k);
      assert ms[..|ms| - 1] == BlockMsgs(c, k - 1);
      BufferedBlocksOf(c, k - 1);
    }
  }

  lemma {:induction false} OthersBringNoBlocks(a: seq<Msg>, b: seq<Msg>)
    requires forall i :: 0 <= i < |b| ==> !b[i].NewBlockMsg?
    ensures BufferedBlocks(a + b) == BufferedBlocks(a)
    decreases |b|
  {
    if b == [] {
      assert a + b == a;
    } else {
      var init := b[..|b| - 1];
      assert (a + b)[..|a + b| - 1] == a + init;
      OthersBringNoBlocks(a, init);
    }
  }

  lemma {:induction false} HandleBlocksSplit(s: Node, q: seq<(Block, Batch)>, e: (Block, Batch))
    ensures HandleBlocks(s, q + [e]) ==
            var t := HandleBlocks(s, q); if t.halted then t else HandleNewBlock(t, e.0, e.1)
    decreases |q|
  {
    hide HandleNewBlock;
    if q == [] {
      assert (q + [e])[1..] == [];
    } else if !s.halted {
      assert (q + [e])[1..] == q[1..] + [e];
      HandleBlocksSplit(HandleNewBlock(s, q[0].0, q[0].1), q[1..], e);
    }
  }

  ghost predicate Reaches(s: Node, c: seq<Block>, k: nat) {
    forall r :: 0 <= r < k && r < |c| ==> Delivered(s, c[r].hash)
  }

  lemma GenesisIsThere(s: Node, c: seq<Block>)
    requires Running(s) && ChainOk(c)
    ensures Delivered(s, c[0].hash)
  {
    hide BatchInv, EmissionInv, PendingInv, CommittedBy, RotationAt, VotesInv, LastVotedOk, ParkingOk, HeadOk,
      VotesParkedOk;
  }

  /** In order, every block of the chain is delivered. */
  lemma {:induction false} BlocksInOrder(s: Node, c: seq<Block>, v: seq<Vote>, k: nat)
    requires Running(s) && Honest(s, c, v) && ChainOk(c) && VoteListOk(s.cfg, c, v) && SignedChain(c) && 1 <= k <= |c|
    ensures var t := HandleBlocks(s, BlockPairs(c, k));
            Running(t) && Honest(t, c, v) && t.cfg == s.cfg && Reaches(t, c, k)
  {
    hide NodeInv, Honest, VoteListOk, HandleNewBlock, HandleBlocks, Later, ChainOk, HonestBlock, SignedChain;
    if k == 1 {
      assert HandleBlocks(s, []) == s by {
        NoBlocks(s);
      }
      GenesisIsThere(s, c);
    } else {
      BlocksInOrder(s, c, v, k - 1);
      var t := HandleBlocks(s, BlockPairs(c, k - 1));
      var b := c[k - 1];
      HandleBlocksSplit(s, BlockPairs(c, k - 1), (b, PayloadAt(c, k - 1)));
      NextInOrder(t, c, v, k - 1);
    }
  }

  lemma NoBlocks(s: Node)
    ensures HandleBlocks(s, []) == s
  {
  }

  lemma NextInOrder(s: Node, c: seq<Block>, v: seq<Vote>, k: nat)
    requires Running(s) && Honest(s, c, v) && ChainOk(c) && VoteListOk(s.cfg, c, v) && SignedChain(c) && 1 <= k < |c|
    requires Reaches(s, c, k)
    ensures var t := HandleNewBlock(s, c[k], PayloadAt(c, k));
            Running(t) && Honest(t, c, v) && t.cfg == s.cfg && Reaches(t, c, k + 1)
  {
    hide NodeInv, Honest, VoteListOk, HandleNewBlock, Later, VotesFine;
    var b, batch := c[k], PayloadAt(c, k);
    assert Finalized(b) && b.batch.BatchDigest? && b.header.prev == c[k - 1].hash && HonestBlock(c, b);
    HandleNewBlockKeeps(s, b, batch);
    HandleNewBlockHonest(s, b, batch, c, v);
    VotesAreFine(s, c, v);
    HandleNewBlockKept(s, b, batch, v);
    if !Delivered(s, b.hash) {
      DeliversIff(s, b, batch);
    }
  }

  lemma VotesAreBrought(c: seq<Block>, v: seq<Vote>, k: nat)
    requires k < |v|
    ensures Brings(Everything(c, v), v[k])
  {
    var ms, a := Everything(c, v), |BlockMsgs(c, |c|)|;
    assert ms[a + k] == VoteMsg(v[k]);
    assert Carries(ms[a + k], v[k]);
  }

  lemma ListedVote(cfg: Config, c: seq<Block>, v: seq<Vote>, k: nat)
    requires VoteListOk(cfg, c, v) && k < |v|
    ensures v[k].round == k + 1 && HonestHash(c, v[k].hash)
  {
    hide LeaderAt;
  }

  /** One burst with everything takes the replica past every round that was voted in. */
  lemma EverythingCatchesUp(s: Node, c: seq<Block>, v: seq<Vote>)
    requires Local(s, c, v) && ChainOk(c) && VoteListOk(s.cfg, c, v) && SignedChain(c)
    requires EventHonest(Received(Everything(c, v)), c, v)
    ensures Processed(s, Everything(c, v)).round > |v|
  {
    hide NodeInv, Honest, Own, ChainOk, VoteListOk, SignedChain, EventHonest, ProcessMessages, BlockMsgs, BlockPairs,
      HandleBlocks, BufferedBlocks;
    var ms := Everything(c, v);
    var r := Processed(s, ms).round;
    ProcessedRound(s, ms, c, v);
    if r <= |v| {
      var x := v[r - 1];
      ListedVote(s.cfg, c, v, r - 1);
      VotesAreBrought(c, v, r - 1);
      ChainIsThere(c);
      BufferedBlocksOf(c, |c|);
      OthersBringNoBlocks(BlockMsgs(c, |c|), VoteMsgs(v));
      BlocksInOrder(s, c, v, |c|);
      NotCurrent(s, ms, x, c, v);
    }
  }

  lemma ChainIsThere(c: seq<Block>)
    requires ChainOk(c)
    ensures |c| >= 1
  {
  }

  lemma CommitsGrow(s: Node, t: Node)
    requires NodeInv(s) && NodeInv(t) && SameVotes(s, t) && s.cfg.f == t.cfg.f && s.round <= t.round
    ensures s.ledger.st.committed <= t.ledger.st.committed
  {
    hide NodeInv, Ancestors;
    forall h | h in s.ledger.st.committed ensures h in t.ledger.st.committed {
      CommitRefinementOf(s, h);
      CommitRefinementOf(t, h);
    }
  }

  lemma RoundBound(s: Node, c: seq<Block>, v: seq<Vote>)
    requires Local(s, c, v)
    ensures s.round <= |v| + 1
  {
    hide NodeInv, AllBlocks, AllVotes, HonestMsg;
  }

  lemma BothAgree(cfg: Config, s: Node, t: Node, c: seq<Block>, v: seq<Vote>, c': seq<Block>, v': seq<Vote>)
    requires Local(s, c, v) && Local(t, c', v') && c <= c' && v <= v' && VoteListOk(cfg, c', v')
    requires s.cfg.f == t.cfg.f && s.round <= t.round
    ensures s.ledger.st.committed <= t.ledger.st.committed
  {
    hide NodeInv, Honest, Own, VoteListOk, SameVotes;
    HonestGrows(s, c, v, c', v');
    VotesAgree(cfg, s, t, c', v');
    CommitsGrow(s, t);
  }

  /** From every state of every run each replica can catch up in one turn: messages that were sent take it to the
      furthest round anybody is in, and it then has committed whatever anybody has. */
  lemma {:induction false} CatchUp(u: Setup, turns: seq<Turn>, i: nat) returns (turn: Turn)
    requires SetupOk(u) && PossibleRun(Start(u), turns) && i < u.n
    ensures var nodes := RunCluster(Start(u), turns);
            && turn.who == i && Possible(nodes, turn)
            && forall j :: 0 <= j < u.n ==>
                 && nodes[j].round <= Take(nodes, turn)[i].round
                 && nodes[j].ledger.st.committed <= Take(nodes, turn)[i].ledger.st.committed
  {
    hide Start, PossibleRun, RunCluster, SetupOk, Local, Possible, React, ProcessMessages, GlobalInv, ChainOk,
      VoteListOk, EventHonest, SignedChain, Everything;
    StartInv(u);
    var nodes := RunCluster(Start(u), turns);
    var c, v := RunAgrees(u, Start(u), turns, [GENESIS], []);
    turn := Turn(i, Received(Everything(c, v)));
    SetupFacts(u, nodes, i, c, v);
    EverythingWasSent(u, nodes, c, v, i);
    TurnHonest(u, nodes, turn, c, v);
    EverythingCatchesUp(nodes[i], c, v);
    ReactAfter(nodes[i], Everything(c, v), c, v);
    var c', v' := TurnAgrees(u, nodes, turn, c, v);
    var after := Take(nodes, turn);
    SetupFacts(u, after, i, c', v');
    forall j | 0 <= j < u.n
      ensures nodes[j].round <= after[i].round && nodes[j].ledger.st.committed <= after[i].ledger.st.committed {
      SetupFacts(u, nodes, j, c, v);
      RoundBound(nodes[j], c, v);
      BothAgree(after[i].cfg, nodes[j], after[i], c, v, c', v');
    }
  }
}
