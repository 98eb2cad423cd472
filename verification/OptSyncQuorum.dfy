/**
 OptSync for arbitrary messages: when a certificate counts, what a replica
 announces, and what a follower has checked about every block it holds.
 */
module OptSyncQuorum {
  import opened Transactions
  import opened Blocks
  import opened OptSyncCore
  import opened OptSyncCerts

  // ---------------------------------------------------------------- the fast threshold

  /** Past the responsive bound, by a vote that was counted after the first one. */
  predicate Fast(n: nat, votes: seq<Vote>) {
    |votes| >= 2 && 4 * |votes| > 3 * n - 4
  }

  /** Past the bound of a full certificate, likewise. */
  predicate Full(f: nat, votes: seq<Vote>) {
    |votes| >= 2 && |votes| > f
  }

  lemma FastIs(n: nat, k: nat)
    ensures k >= FastQuorum(n) <==> 4 * k > 3 * n - 4
  {
  }

  /** The first vote decides nothing; a later one decides exactly when the certificate passes three quarters. */
  lemma AddVoteDecides(s: Node, c: Certificate, h: Hash)
    requires c.votes != []
    ensures h !in s.voteMap ==> !AddVote(s, c, h).1
    ensures h in s.voteMap ==> (AddVote(s, c, h).1 <==> 4 * (|s.voteMap[h].votes| + 1) > 3 * s.cfg.n - 4)
  {
    if h in s.voteMap {
      FastIs(s.cfg.n, |s.voteMap[h].votes| + 1);
    }
  }

  // ---------------------------------------------------------------- the invariant

  /** No stored block sits on the head: the head is always the newest one. */
  ghost predicate HeadIsTop(blocks: map<Hash, Block>, head: Hash) {
    ClosedSet(blocks.Keys) && forall h :: h in blocks && h != EmptyHash ==> Prev(h) != head
  }

  /** The certificates that are promoted to `resp` and to `certs` are exactly those past their bound. */
  ghost predicate Promoted(cfg: Config, votes: map<Hash, Certificate>, certs: map<Hash, Certificate>,
      resp: map<Hash, Certificate>) {
    && (forall h :: h in votes ==> votes[h].votes != [])
    && (forall h :: h in resp <==> h in votes && Fast(cfg.n, votes[h].votes))
    && (forall h :: h in resp ==> resp[h] == votes[h])
    && (forall h :: h in certs <==> h == EmptyHash || (h in votes && Full(cfg.f, votes[h].votes)))
    && (forall h :: h in votes && Full(cfg.f, votes[h].votes) ==> certs[h] == votes[h])
  }

  /** A vote for `h`, signed by its origin, a known replica or this one. */
  predicate SignedFor(cfg: Config, h: Hash, v: Vote) {
    && (v.origin < cfg.n || v.origin == cfg.me)
    && v.auth.SignedBy? && v.auth.signer == v.origin
    && v.auth.claim.OnCert? && v.auth.claim.msg.VoteCert? && v.auth.claim.msg.hash == h
  }

  ghost predicate VotesSigned(cfg: Config, votes: map<Hash, Certificate>) {
    forall h, i :: h in votes && 0 <= i < |votes[h].votes| ==> SignedFor(cfg, h, votes[h].votes[i])
  }

  function Queued(q: seq<Propose>): (hs: seq<Hash>)
    ensures |hs| == |q| && forall i :: 0 <= i < |q| ==> hs[i] == q[i].hash
  {
    seq(|q|, i requires 0 <= i < |q| => q[i].hash)
  }

  /** The message is this replica's vote for the proposal, or the proposal itself with its own block and batch. */
  predicate Announces(cfg: Config, view: nat, m: Msg, p: Propose) {
    match m
    case VoteMsg(c, q) =>
      q == p && c.msg == VoteCert(view, p.hash) && c.votes == [Vote(cfg.me, SignedBy(cfg.me, OnCert(c.msg)))]
    case NewProposal(q, b, batch) =>
      && q == p && b.hash == p.hash && b.header.author == cfg.me && b.batch == BatchDigest(batch)
      && p.view == view && p.proof == SignedBy(cfg.me, OnBlock(p.hash))
    case OtherMsg => false
  }

  /** Every block but genesis was announced once and waits, or waited, for its commit timer once. */
  ghost predicate Traffic(cfg: Config, view: nat, hashes: set<Hash>, net: seq<Msg>, queue: seq<Propose>) {
    && |net| == |queue|
    && (forall i :: 0 <= i < |queue| ==> Announces(cfg, view, net[i], queue[i]))
    && NoRepeats(Queued(queue)) && SetOf(Queued(queue)) == hashes - {EmptyHash}
  }

  /** Every vote verifies for the certificate's message and comes from a known replica. */
  predicate AllVerified(n: nat, cert: Certificate) {
    forall i :: 0 <= i < |cert.votes| ==>
      cert.votes[i].origin < n && cert.votes[i].auth == SignedBy(cert.votes[i].origin, OnCert(cert.msg))
  }

  /** What a follower has checked about a proposal it voted for. */
  predicate Vetted(cfg: Config, blocks: map<Hash, Block>, p: Propose) {
    && p.hash in blocks && p.view == 0
    && var b := blocks[p.hash];
       && b.header.author == 0 && p.proof == SignedBy(0, OnBlock(p.hash))
       && if b.header.height == 1 then b.header.prev == EmptyHash
          else
            && p.cert.msg.VoteCert? && p.cert.msg.hash == b.header.prev && AllVerified(cfg.n, p.cert)
            && |Origins(p.cert.votes)| >= cfg.f && (b.header.height > 1 ==> |p.cert.votes| > cfg.f)
  }

  ghost predicate AllVetted(cfg: Config, blocks: map<Hash, Block>, queue: seq<Propose>) {
    cfg.me != 0 ==> forall i :: 0 <= i < |queue| ==> Vetted(cfg, blocks, queue[i])
  }

  /** Every block but genesis, and every batch that waits to be proposed, has its batch in the cache. */
  ghost predicate Batched(blocks: map<Hash, Block>, bs: Batches, pending: seq<Batch>) {
    && ContentAddressed(bs)
    && (forall h :: h in blocks && h != EmptyHash ==> blocks[h].batch in bs.cache)
    && (forall i :: 0 <= i < |pending| ==> BatchDigest(pending[i]) in bs.cache)
  }

  /** Everything but the commit of what was decided. */
  ghost predicate Records(s: Node) {
    && NodeInv(s) && s.view == 0 && s.lastLeader == 0
    && HeadIsTop(s.st.byHash, s.lastSeen.hash)
    && Promoted(s.cfg, s.voteMap, s.certMap, s.respCert) && VotesSigned(s.cfg, s.voteMap)
    && Traffic(s.cfg, s.view, s.st.byHash.Keys, s.net, s.queue) && AllVetted(s.cfg, s.st.byHash, s.queue)
    && Batched(s.st.byHash, s.bs, s.pending)
  }

  /** What a responsive certificate is for is committed. */
  ghost predicate Decided(s: Node) {
    forall h :: h in s.respCert ==> h in s.st.committed
  }

  ghost predicate Inv(s: Node) {
    Records(s) && Decided(s)
  }

  lemma BootHolds(cfg: Config, store: map<BatchHash, Batch>)
    requires cfg.n > 0 && StoreOk(store)
    ensures Inv(Boot(cfg, store))
  {
    BootInv(cfg, store);
    assert SetOf(Queued([])) == {};
  }

  // ---------------------------------------------------------------- votes

  /** One more vote under `h`, which was not decided yet. */
  lemma PromotedGrows(cfg: Config, votes: map<Hash, Certificate>, certs: map<Hash, Certificate>,
      resp: map<Hash, Certificate>, h: Hash, cert: Certificate, certs': map<Hash, Certificate>,
      resp': map<Hash, Certificate>)
    requires Promoted(cfg, votes, certs, resp) && h !in resp && |cert.votes| >= 1
    requires h in votes ==> |cert.votes| == |votes[h].votes| + 1
    requires h !in votes ==> |cert.votes| == 1
    requires resp' == if Fast(cfg.n, cert.votes) then resp[h := cert] else resp
    requires certs' == if Full(cfg.f, cert.votes) then certs[h := cert] else certs
    ensures Promoted(cfg, votes[h := cert], certs', resp')
  {
  }

  lemma AddVoteTables(s: Node, c: Certificate, h: Hash)
    requires Promoted(s.cfg, s.voteMap, s.certMap, s.respCert) && |c.votes| == 1 && h !in s.respCert
    ensures var t := AddVote(s, c, h).0;
            && Promoted(t.cfg, t.voteMap, t.certMap, t.respCert)
            && (AddVote(s, c, h).1 <==> h in t.respCert)
            && (forall x :: x in t.respCert ==> x in s.respCert || x == h)
  {
    hide FastQuorum, Promoted;
    var t := AddVote(s, c, h).0;
    SomeVotes(s);
    FastIs(s.cfg.n, |t.voteMap[h].votes|);
    PromotedGrows(s.cfg, s.voteMap, s.certMap, s.respCert, h, t.voteMap[h], t.certMap, t.respCert);
  }

  lemma SomeVotes(s: Node)
    requires Promoted(s.cfg, s.voteMap, s.certMap, s.respCert)
    ensures forall h :: h in s.voteMap ==> s.voteMap[h].votes != []
  {
  }

  lemma AddVoteSigned(s: Node, c: Certificate, h: Hash)
    requires VotesSigned(s.cfg, s.voteMap) && |c.votes| == 1 && SignedFor(s.cfg, h, c.votes[0])
    ensures VotesSigned(s.cfg, AddVote(s, c, h).0.voteMap)
  {
    hide SignedFor, FastQuorum;
  }

  lemma AddVoteFrame(s: Node, c: Certificate, h: Hash)
    requires c.votes != []
    ensures var t := AddVote(s, c, h).0;
            t == s.(voteMap := t.voteMap, certMap := t.certMap, respCert := t.respCert, lastCert := t.lastCert) &&
            t.voteMap.Keys == s.voteMap.Keys + {h}
  {
    hide FastQuorum;
  }

  lemma CountedVote(s: Node, c: Certificate, p: Propose)
    requires Records(s) && |c.votes| == 1 && Known(s, c.votes[0].origin) && c.msg.VoteCert? && VoteCounts(s, c, p)
    ensures Records(AddVote(s, c, p.hash).0) && AddVote(s, c, p.hash).0.st == s.st
  {
    hide AddVote, HeadIsTop, Promoted, VotesSigned, Traffic, AllVetted, StorageOk, Batched;
    AddVoteTables(s, c, p.hash);
    AddVoteSigned(s, c, p.hash);
    AddVoteFrame(s, c, p.hash);
  }

  lemma HaltHolds(s: Node)
    requires Inv(s)
    ensures Inv(s.(halted := true))
  {
    hide HeadIsTop, Promoted, VotesSigned, Traffic, AllVetted, StorageOk, Batched;
  }

  lemma ReadKeepsBatches(blocks: map<Hash, Block>, bs: Batches, pending: seq<Batch>, h: BatchHash)
    requires Batched(blocks, bs, pending)
    ensures Batched(blocks, ReadBatch(bs, h).1, pending)
  {
    ReadsAgree(bs, h);
  }

  lemma PersistBatched(blocks: map<Hash, Block>, bs: Batches, pending: seq<Batch>, batch: Batch)
    requires Batched(blocks, bs, pending)
    ensures Batched(blocks, Persist(bs, BatchDigest(batch), batch), pending)
    ensures Batched(blocks, Persist(bs, BatchDigest(batch), batch), pending + [batch])
    ensures BatchDigest(batch) in Persist(bs, BatchDigest(batch), batch).cache
  {
    PersistKeeps(bs, BatchDigest(batch), batch);
  }

  lemma BatchedGrows(blocks: map<Hash, Block>, bs: Batches, pending: seq<Batch>, b: Block)
    requires Batched(blocks, bs, pending) && b.batch in bs.cache
    ensures Batched(blocks[b.hash := b], bs, pending)
  {
  }

  lemma OnCommitRecords(s: Node, p: Propose)
    requires Records(s)
    ensures Records(OnCommit(s, p))
    ensures OnCommit(s, p).st.committed == s.st.committed + if p.hash in s.st.byHash then {p.hash} else {}
    ensures OnCommit(s, p).respCert == s.respCert
  {
    hide HeadIsTop, Promoted, VotesSigned, Traffic, AllVetted, ReadBatch, Batched;
    OnCommitKeeps(s, p);
    if p.hash in s.st.byHash {
      ReadKeepsBatches(s.st.byHash, s.bs, s.pending, s.st.byHash[p.hash].batch);
    }
    assert p.hash in s.st.byHash ==> s.st.byHash[p.hash].hash == p.hash;
  }

  /** A vote that is counted and decides leaves its block committed. */
  lemma OnVoteHolds(s: Node, c: Certificate, p: Propose)
    requires Inv(s)
    ensures Inv(OnMessage(s, VoteMsg(c, p)))
    ensures OnVote(s, c, p).1 ==> p.hash in OnMessage(s, VoteMsg(c, p)).st.committed
  {
    hide Records, AddVote, OnCommit, Equivocates;
    HaltHolds(s);
    if |c.votes| == 1 && Known(s, c.votes[0].origin) && c.msg.VoteCert? && VoteCounts(s, c, p) {
      var t := AddVote(s, c, p.hash).0;
      CountedVote(s, c, p);
      CertsOf(s);
      AddVoteTables(s, c, p.hash);
      OnCommitRecords(t, p);
    }
  }

  lemma CertsOf(s: Node)
    requires Records(s)
    ensures Promoted(s.cfg, s.voteMap, s.certMap, s.respCert) && s.cfg.n > 0
  {
  }

  // ---------------------------------------------------------------- proposals

  /** A block on the head, or on genesis, that is stored for the first time becomes the top. */
  lemma NewTop(st: Storage, b: Block)
    requires StorageOk(st) && Closed(st) && Finalized(b) && b.hash !in st.byHash && b.header.prev in st.byHash
    ensures Closed(AddDelivered(st, b)) && StorageOk(AddDelivered(st, b))
    ensures forall h :: h in AddDelivered(st, b).byHash && h != EmptyHash ==> Prev(h) != b.hash
    ensures AddDelivered(st, b).byHash.Keys == st.byHash.Keys + {b.hash} && b.hash != EmptyHash
  {
    assert Prev(b.hash) == b.header.prev;
  }

  lemma QueuedSnoc(q: seq<Propose>, p: Propose)
    requires NoRepeats(Queued(q)) && p.hash !in SetOf(Queued(q))
    ensures NoRepeats(Queued(q + [p])) && SetOf(Queued(q + [p])) == SetOf(Queued(q)) + {p.hash}
  {
    var hs := Queued(q);
    assert Queued(q + [p]) == hs + [p.hash];
    assert p.hash !in hs;
    NoRepeatsSnoc(hs, p.hash);
    SetOfSnoc(hs, p.hash);
  }

  lemma NewTraffic(cfg: Config, view: nat, hashes: set<Hash>, net: seq<Msg>, queue: seq<Propose>, p: Propose, m: Msg)
    requires Traffic(cfg, view, hashes, net, queue) && p.hash !in hashes && p.hash != EmptyHash
    requires Announces(cfg, view, m, p)
    ensures Traffic(cfg, view, hashes + {p.hash}, net + [m], queue + [p])
  {
    hide Announces, NoRepeats;
    QueuedSnoc(queue, p);
  }

  /** Promotion tables and signatures after this replica's own first vote for a new block. */
  lemma OwnVoteEnters(s: Node, h: Hash)
    requires Promoted(s.cfg, s.voteMap, s.certMap, s.respCert) && VotesSigned(s.cfg, s.voteMap) && h !in s.voteMap
    ensures Promoted(s.cfg, s.voteMap[h := VoteFor(s, h)], s.certMap, s.respCert)
    ensures VotesSigned(s.cfg, s.voteMap[h := VoteFor(s, h)])
  {
    NotDecided(s, h);
    PromotedGrows(s.cfg, s.voteMap, s.certMap, s.respCert, h, VoteFor(s, h), s.certMap, s.respCert);
  }

  lemma NotDecided(s: Node, h: Hash)
    requires Promoted(s.cfg, s.voteMap, s.certMap, s.respCert) && h !in s.voteMap
    ensures h !in s.respCert && (h in s.certMap <==> h == EmptyHash)
  {
  }

  lemma VettedNow(s: Node, p: Propose, b: Block)
    requires s.cfg.n > 0 && s.view == 0 && CheckProposal(s, p, b) == Passed
    ensures Vetted(s.cfg, s.st.byHash[b.hash := b], p)
  {
    hide Origins;
    assert LeaderOfView(s) == 0;
  }

  lemma VettedGrows(cfg: Config, blocks: map<Hash, Block>, queue: seq<Propose>, b: Block, p: Propose)
    requires AllVetted(cfg, blocks, queue) && b.hash !in blocks && (cfg.me != 0 ==> Vetted(cfg, blocks[b.hash := b], p))
    ensures AllVetted(cfg, blocks[b.hash := b], queue + [p])
  {
    hide AllVerified, Origins;
  }

  lemma NodeOf(s: Node)
    requires Records(s)
    ensures StorageOk(s.st) && Closed(s.st) && (forall h :: h in s.voteMap ==> h in s.st.byHash)
    ensures s.lastSeen.hash in s.st.byHash && s.cfg.n > 0
    ensures forall h :: h in s.st.byHash && h != EmptyHash ==> Prev(h) != s.lastSeen.hash
  {
  }

  /** A new block on a stored parent, its announcement and its own vote go into the records. */
  lemma Enters(s: Node, t: Node, p: Propose, b: Block, m: Msg)
    requires Records(s) && Finalized(b) && b.hash == p.hash && b.hash !in s.st.byHash && b.header.prev in s.st.byHash
    requires t.cfg == s.cfg && t.view == s.view && t.lastLeader == s.lastLeader && t.lastSeen == b
    requires t.st == AddDelivered(s.st, b) && t.voteMap == s.voteMap[b.hash := VoteFor(s, b.hash)]
    requires t.certMap == s.certMap && t.respCert == s.respCert
    requires t.net == s.net + [m] && t.queue == s.queue + [p] && Announces(s.cfg, s.view, m, p)
    requires s.cfg.me != 0 ==> Vetted(s.cfg, t.st.byHash, p)
    requires b.batch in s.bs.cache && t.bs == s.bs && t.pending == s.pending
    ensures Records(t)
  {
    NodeOf(s);
    NewTop(s.st, b);
    hide HeadIsTop, Promoted, VotesSigned, Traffic, AllVetted, StorageOk, Batched, Announces, Vetted, VoteFor, Closed;
    OwnVoteEnters(s, b.hash);
    NewTraffic(s.cfg, s.view, s.st.byHash.Keys, s.net, s.queue, p, m);
    VettedGrows(s.cfg, s.st.byHash, s.queue, b, p);
    BatchedGrows(s.st.byHash, s.bs, s.pending, b);
    assert HeadIsTop(t.st.byHash, b.hash) by {
      TopIs(t.st, b.hash);
    }
  }

  lemma TopIs(st: Storage, head: Hash)
    requires Closed(st) && forall h :: h in st.byHash && h != EmptyHash ==> Prev(h) != head
    ensures HeadIsTop(st.byHash, head)
  {
  }

  lemma OnValidHolds(s: Node, p: Propose, b: Block)
    requires Inv(s) && Finalized(b) && b.hash == p.hash && b.hash !in s.st.byHash && b.batch in s.bs.cache
    requires CheckProposal(s, p, b) == Passed
    ensures Inv(OnValid(s, p, b))
  {
    hide Records, CheckProposal, Vetted;
    NodeOf(s);
    if b.header.prev in s.st.byHash {
      ViewZero(s);
      VettedNow(s, p, b);
      Enters(s, OnValid(s, p, b), p, b, VoteMsg(VoteFor(s, b.hash), p));
    }
  }

  lemma ViewZero(s: Node)
    requires Records(s)
    ensures s.view == 0 && s.lastLeader == 0 && s.cfg.n > 0
  {
  }

  lemma PersistHolds(s: Node, bs: Batches, pending: seq<Batch>)
    requires Inv(s) && Batched(s.st.byHash, bs, pending)
    ensures Inv(s.(bs := bs, pending := pending))
  {
    hide HeadIsTop, Promoted, VotesSigned, Traffic, AllVetted, StorageOk, Batched;
  }

  lemma OnProposalHolds(s: Node, p: Propose, b: Block, batch: Batch)
    requires Inv(s) && Finalized(b)
    ensures Inv(OnProposal(s, p, b, batch))
  {
    hide Inv, OnValid, HeaderOk, CertOk;
    ViewOf(s);
    HaltHolds(s);
    if b.hash !in s.st.byHash && CheckProposal(s, p, b) == Passed && b.batch == BatchDigest(batch) {
      var s1 := s.(bs := Persist(s.bs, b.batch, batch));
      BatchesOf(s);
      PersistBatched(s.st.byHash, s.bs, s.pending, batch);
      PersistHolds(s, s1.bs, s.pending);
      SameCheck(s, s1, p, b);
      OnValidHolds(s1, p, b);
    }
  }

  lemma BatchesOf(s: Node)
    requires Inv(s)
    ensures Batched(s.st.byHash, s.bs, s.pending)
  {
    hide NodeInv, HeadIsTop, Promoted, VotesSigned, Traffic, AllVetted, Batched;
  }

  lemma ViewOf(s: Node)
    requires Inv(s)
    ensures s.view == 0 && s.lastLeader == 0 && s.cfg.n > 0
  {
  }

  lemma SameCheck(s: Node, t: Node, p: Propose, b: Block)
    requires s.cfg.n > 0 && t == s.(bs := t.bs) && CheckProposal(s, p, b) == Passed
    ensures CheckProposal(t, p, b) == Passed && b.hash == p.hash
  {
  }

  lemma DoProposeHolds(s: Node, batch: Batch)
    requires Inv(s) && s.lastSeen.hash in s.certMap && s.cfg.me == 0 && BatchDigest(batch) in s.bs.cache
    ensures Inv(DoPropose(s, batch))
  {
    hide Records;
    var (p, b) := Built(s, batch);
    NodeOf(s);
    assert b.hash !in s.st.byHash by {
      assert b.hash != EmptyHash && Prev(b.hash) == s.lastSeen.hash;
    }
    Enters(s, DoPropose(s, batch), p, b, NewProposal(p, b, batch));
  }

  lemma {:induction false} ProposeAllHolds(s: Node)
    requires Inv(s)
    ensures Inv(ProposeAll(s))
    ensures ProposeAll(s).halted || !MayPropose(ProposeAll(s))
    decreases |s.pending|
  {
    hide Inv, DoPropose;
    ViewOf(s);
    if !s.halted && MayPropose(s) {
      var s1 := s.(pending := s.pending[1..]);
      BatchesOf(s);
      PersistHolds(s, s.bs, s.pending[1..]);
      DoProposeHolds(s1, s.pending[0]);
      DoProposePending(s1, s.pending[0]);
      ProposeAllHolds(DoPropose(s1, s.pending[0]));
    }
  }

  lemma OnCommitHolds(s: Node, p: Propose)
    requires Inv(s)
    ensures Inv(OnCommit(s, p))
  {
    hide Records;
    OnCommitRecords(s, p);
  }

  lemma AbsorbHolds(s: Node, e: Event)
    requires Inv(s) && Decoded(e) && s.cfg.n > 0
    ensures Inv(Absorb(s, e))
  {
    hide Inv, OnProposal, OnVote, OnCommit;
    match e {
      case Received(m) =>
        match m {
          case NewProposal(p, b, batch) => OnProposalHolds(s, p, b, batch);
          case VoteMsg(c, p) => OnVoteHolds(s, c, p);
          case OtherMsg =>
        }
      case Sealed(batch) =>
        BatchesOf(s);
        PersistBatched(s.st.byHash, s.bs, s.pending, batch);
        PersistHolds(s, Persist(s.bs, BatchDigest(batch), batch), s.pending + [batch]);
      case Fired(p) => OnCommitHolds(s, p);
    }
  }

  lemma ReactHolds(s: Node, e: Event)
    requires Inv(s) && Decoded(e) && s.cfg.n > 0
    ensures Inv(React(s, e))
  {
    hide Inv, Absorb, ProposeAll;
    AbsorbHolds(s, e);
    ProposeAllHolds(Absorb(s, e));
  }

  // ---------------------------------------------------------------- over runs

  lemma {:induction false} RunHolds(cfg: Config, store: map<BatchHash, Batch>, es: seq<Event>)
    requires RunOk(cfg, es) && StoreOk(store)
    ensures Inv(RunNode(Boot(cfg, store), es))
  {
    hide Inv, React, Boot;
    BootHolds(cfg, store);
    if es != [] {
      RunHolds(cfg, store, es[..|es| - 1]);
      ReactHolds(RunNode(Boot(cfg, store), es[..|es| - 1]), es[|es| - 1]);
    }
  }

  /** Over any run a responsive certificate is exactly a certificate that counted votes have brought past three
      quarters, and its block is committed; a full certificate is exactly one with more than `f` votes. */
  lemma {:induction false} QuorumsOverRuns(cfg: Config, store: map<BatchHash, Batch>, es: seq<Event>, h: Hash)
    requires RunOk(cfg, es) && StoreOk(store)
    ensures var s := RunNode(Boot(cfg, store), es);
            && (h in s.respCert <==>
                h in s.voteMap && |s.voteMap[h].votes| >= 2 && 4 * |s.voteMap[h].votes| > 3 * cfg.n - 4)
            && (h in s.respCert ==> s.respCert[h] == s.voteMap[h] && h in s.st.committed)
            && (h in s.certMap <==>
                h == EmptyHash || (h in s.voteMap && |s.voteMap[h].votes| >= 2 && |s.voteMap[h].votes| > cfg.f))
            && (h in s.certMap && h != EmptyHash ==> s.certMap[h] == s.voteMap[h])
  {
    hide RunNode, Boot, NodeInv, HeadIsTop, VotesSigned, Traffic, AllVetted;
    RunHolds(cfg, store, es);
  }

  /** Over any run every counted vote for a block is signed for that block by the replica it names. */
  lemma {:induction false} VotesAreSigned(cfg: Config, store: map<BatchHash, Batch>, es: seq<Event>, h: Hash, i: nat)
    requires RunOk(cfg, es) && StoreOk(store)
    requires var s := RunNode(Boot(cfg, store), es); h in s.voteMap && i < |s.voteMap[h].votes|
    ensures SignedFor(cfg, h, RunNode(Boot(cfg, store), es).voteMap[h].votes[i])
  {
    hide RunNode, Boot, NodeInv, HeadIsTop, Promoted, Traffic, AllVetted, SignedFor;
    RunHolds(cfg, store, es);
  }

  /** Over any run each block but genesis is announced exactly once, with this replica's vote or as its own
      proposal, and is handed to the commit timer exactly once. */
  lemma {:induction false} EachBlockAnnounced(cfg: Config, store: map<BatchHash, Batch>, es: seq<Event>)
    requires RunOk(cfg, es) && StoreOk(store)
    ensures var s := RunNode(Boot(cfg, store), es);
            && |s.net| == |s.queue| && (forall i :: 0 <= i < |s.queue| ==> Announces(cfg, 0, s.net[i], s.queue[i]))
            && NoRepeats(Queued(s.queue)) && SetOf(Queued(s.queue)) == s.st.byHash.Keys - {EmptyHash}
  {
    hide RunNode, Boot, NodeInv, HeadIsTop, Promoted, VotesSigned, AllVetted, Announces, NoRepeats;
    RunHolds(cfg, store, es);
  }

  /** Over any run a follower has voted only for proposals that the leader signed and, above height 1, that
      carried a certificate for their parent of verified votes by at least `f` different replicas. */
  lemma {:induction false} FollowersVet(cfg: Config, store: map<BatchHash, Batch>, es: seq<Event>, i: nat)
    requires RunOk(cfg, es) && StoreOk(store) && cfg.me != 0 && i < |RunNode(Boot(cfg, store), es).queue|
    ensures var s := RunNode(Boot(cfg, store), es);
            && Vetted(cfg, s.st.byHash, s.queue[i])
            && i < |s.net| && s.net[i].VoteMsg? && s.net[i].prop == s.queue[i]
  {
    hide RunNode, Boot, NodeInv, HeadIsTop, Promoted, VotesSigned, NoRepeats, AllVerified, Origins;
    RunHolds(cfg, store, es);
    var s := RunNode(Boot(cfg, store), es);
    assert Announces(cfg, 0, s.net[i], s.queue[i]) && Vetted(cfg, s.st.byHash, s.queue[i]);
  }

  /** Over any run the leader is never left with a batch it could propose. */
  lemma {:induction false} NothingHeldBack(cfg: Config, store: map<BatchHash, Batch>, es: seq<Event>)
    requires RunOk(cfg, es) && StoreOk(store) && cfg.me == 0
    ensures var s := RunNode(Boot(cfg, store), es);
            s.halted || s.pending == [] || s.lastSeen.hash !in s.certMap
  {
    hide Inv, React, MayPropose;
    if es != [] {
      var s, e := RunNode(Boot(cfg, store), es[..|es| - 1]), es[|es| - 1];
      RunHolds(cfg, store, es[..|es| - 1]);
      LeavesNothing(s, e);
    }
  }

  lemma LeavesNothing(s: Node, e: Event)
    requires Inv(s) && Decoded(e) && s.cfg.n > 0 && s.cfg.me == 0
    ensures var t := React(s, e); t.halted || t.pending == [] || t.lastSeen.hash !in t.certMap
  {
    hide Inv, ProposeAll, Absorb;
    if !s.halted {
      AbsorbHolds(s, e);
      ProposeAllHolds(Absorb(s, e));
      ProposeAllView(Absorb(s, e));
    }
  }

  lemma ProposeAllView(s: Node)
    requires Inv(s)
    ensures ProposeAll(s).lastLeader == 0
  {
    hide Records;
    ViewZero(s);
  }

  // ---------------------------------------------------------------- single steps

  /** One verified vote of a known replica for a stored block that is the last of its height and not decided. */
  predicate Counts(s: Node, c: Certificate, p: Propose) {
    && |c.votes| == 1 && c.votes[0].origin < s.cfg.n && c.msg.VoteCert? && c.msg.hash == p.hash
    && c.votes[0].auth == SignedBy(c.votes[0].origin, OnCert(c.msg)) && p.hash in s.st.byHash
    && (var k := s.st.byHash[p.hash].header.height; k in s.st.byHeight ==> s.st.byHeight[k].hash == p.hash)
    && p.hash !in s.respCert
  }

  /** A vote is counted under exactly these conditions, and then it is appended; otherwise no table changes. */
  lemma CountsIff(s: Node, c: Certificate, p: Propose)
    requires Inv(s) && !s.halted
    ensures Counts(s, c, p) ==>
            var votes := if p.hash in s.voteMap then s.voteMap[p.hash].votes else [];
            var msg := if p.hash in s.voteMap then s.voteMap[p.hash].msg else c.msg;
            var cert := Certificate(msg, votes + c.votes);
            && OnVote(s, c, p).0.voteMap == s.voteMap[p.hash := cert]
            && OnVote(s, c, p).0.lastCert == if Full(s.cfg.f, cert.votes) then cert else s.lastCert
    ensures !Counts(s, c, p) ==> OnVote(s, c, p) == (s.(halted := OnVote(s, c, p).0.halted), false)
  {
    hide Records, FastQuorum, Promoted;
    CertsOf(s);
    SomeVotes(s);
    if Counts(s, c, p) {
      assert c.votes == [c.votes[0]] && [] + c.votes == c.votes;
    }
  }

  /** Signed by the leader of the view, with its batch, on a stored parent; the first block needs no certificate,
      later ones sit on the head and carry verified votes for it by enough replicas. */
  predicate Accepts(s: Node, p: Propose, b: Block, batch: Batch) {
    && b.hash == p.hash && b.header.author == 0 && p.view == 0 && p.proof == SignedBy(0, OnBlock(b.hash))
    && b.batch == BatchDigest(batch) && b.header.prev in s.st.byHash
    && if b.header.height == 1 then b.header.prev == EmptyHash
       else
         && b.header.prev == s.lastSeen.hash && (b.header.height > 1 ==> |p.cert.votes| > s.cfg.f)
         && p.cert.msg.VoteCert? && p.cert.msg.hash == b.header.prev && AllVerified(s.cfg.n, p.cert)
         && |Origins(p.cert.votes)| >= s.cfg.f
  }

  /** A proposal is taken in, and voted for, under exactly these conditions. */
  lemma AcceptsIff(s: Node, p: Propose, b: Block, batch: Batch)
    requires Inv(s) && !s.halted && Finalized(b) && b.hash !in s.st.byHash
    ensures Accepts(s, p, b, batch) <==> b.hash in OnProposal(s, p, b, batch).st.byHash
    ensures var t := OnProposal(s, p, b, batch);
            if Accepts(s, p, b, batch) then
              && t.st.byHash[b.hash] == b && t.lastSeen == b && t.height == b.header.height
              && t.lastCert == p.cert && t.queue == s.queue + [p]
            else t.queue == s.queue && t.net == s.net && t.lastSeen == s.lastSeen
  {
    hide Records, Accepts, CheckProposal, OnValid, Persist, OnProposal;
    NodeOf(s);
    ViewZero(s);
    PassesIff(s, p, b, batch);
    TakesIn(s, p, b, batch);
    OnValidTakes(s.(bs := Persist(s.bs, b.batch, batch)), p, b);
  }

  lemma TakesIn(s: Node, p: Propose, b: Block, batch: Batch)
    requires s.cfg.n > 0 && b.hash !in s.st.byHash
    ensures var t := OnProposal(s, p, b, batch);
            if CheckProposal(s, p, b) == Passed && b.batch == BatchDigest(batch)
            then t == OnValid(s.(bs := Persist(s.bs, b.batch, batch)), p, b) else t == s.(halted := t.halted)
  {
    hide CheckProposal, OnValid, Persist;
  }

  lemma OnValidTakes(s: Node, p: Propose, b: Block)
    ensures b.header.prev !in s.st.byHash ==> OnValid(s, p, b) == s
    ensures var t := OnValid(s, p, b);
            b.header.prev in s.st.byHash && p.hash !in s.voteMap ==>
            && b.hash in t.st.byHash && t.st.byHash[b.hash] == b && t.lastSeen == b && t.height == b.header.height
            && t.lastCert == p.cert && t.queue == s.queue + [p]
  {
  }

  lemma PassesIff(s: Node, p: Propose, b: Block, batch: Batch)
    requires s.cfg.n > 0 && s.view == 0
    ensures Accepts(s, p, b, batch) <==>
            CheckProposal(s, p, b) == Passed && b.batch == BatchDigest(batch) && b.header.prev in s.st.byHash
    ensures Accepts(s, p, b, batch) ==> b.hash == p.hash
  {
    hide Origins;
    assert LeaderOfView(s) == 0;
  }

  /** What a leader proposes: a block on its head, by itself, with the batch at hand and the head's certificate. */
  lemma ProposesOnHead(s: Node, batch: Batch)
    requires Inv(s) && s.lastSeen.hash in s.certMap && s.cfg.me == 0
    ensures var t := DoPropose(s, batch);
            && t.net == s.net + [t.net[|s.net|]] && t.net[|s.net|].NewProposal? && t.net[|s.net|].batch == batch
            && t.net[|s.net|].block == t.lastSeen && Finalized(t.lastSeen)
            && t.lastSeen.header == Header(s.lastSeen.hash, 0, s.lastSeen.header.height + 1, [])
            && t.lastSeen.batch == BatchDigest(batch)
            && t.height == s.lastSeen.header.height + 1 && t.lastCommitted == t.height
            && t.net[|s.net|].prop.cert == s.certMap[s.lastSeen.hash] && t.queue == s.queue + [t.net[|s.net|].prop]
            && t.lastSeen.hash in t.voteMap && |t.voteMap[t.lastSeen.hash].votes| == 1
  {
    hide Inv;
  }

  /** A commit, by a timer or by a decision, takes exactly the proposal's block if that is stored. */
  lemma CommitsIff(s: Node, p: Propose)
    requires Inv(s)
    ensures var t := OnCommit(s, p);
            && (forall h :: h in t.st.committed <==> h in s.st.committed || (h == p.hash && h in s.st.byHash))
            && (t.lastCommitted == if p.hash in s.st.byHash && p.hash !in s.st.committed
                                   then s.st.byHash[p.hash].header.height else s.lastCommitted)
            && (p.hash in s.st.byHash && p.hash !in s.st.committed ==>
                s.st.byHash[p.hash].header.height in t.st.committedHeights)
            && t.st.byHash == s.st.byHash && t.voteMap == s.voteMap && t.queue == s.queue && t.net == s.net
  {
    hide Records, ReadBatch;
    NodeOf(s);
    OnCommitRecords(s, p);
  }

  /** The vote a follower sends for a block is one the leader counts, until the block is decided. */
  lemma VotesAreCounted(leader: Node, follower: Node, i: nat)
    requires Inv(leader) && Inv(follower) && !leader.halted && leader.cfg.n == follower.cfg.n
    requires 0 != follower.cfg.me < follower.cfg.n && i < |follower.queue|
    requires var h := follower.queue[i].hash;
             && h in leader.st.byHash && h !in leader.respCert
             && leader.st.byHash[h].header.height in leader.st.byHeight
             && leader.st.byHeight[leader.st.byHash[h].header.height].hash == h
    ensures follower.net[i].VoteMsg?
    ensures var m := follower.net[i];
            var h := follower.queue[i].hash;
            var before := if h in leader.voteMap then |leader.voteMap[h].votes| else 0;
            var t := OnVote(leader, m.cert, m.prop).0;
            h in t.voteMap && |t.voteMap[h].votes| == before + 1 &&
            t.voteMap[h].votes[before].origin == follower.cfg.me
  {
    hide Inv, OnVote, Counts;
    FollowerAnnounces(follower, i);
    VoteIsFit(leader, follower.cfg, follower.net[i], follower.queue[i]);
    CountsIff(leader, follower.net[i].cert, follower.net[i].prop);
  }

  lemma VoteIsFit(leader: Node, cfg: Config, m: Msg, p: Propose)
    requires m.VoteMsg? && Announces(cfg, 0, m, p) && cfg.me < leader.cfg.n
    requires p.hash in leader.st.byHash && p.hash !in leader.respCert
    requires leader.st.byHash[p.hash].header.height in leader.st.byHeight
    requires leader.st.byHeight[leader.st.byHash[p.hash].header.height].hash == p.hash
    ensures Counts(leader, m.cert, m.prop) && m.prop == p && |m.cert.votes| == 1 && m.cert.votes[0].origin == cfg.me
  {
  }

  lemma FollowerAnnounces(s: Node, i: nat)
    requires Inv(s) && s.cfg.me != 0 && i < |s.queue|
    ensures i < |s.net| && s.net[i].VoteMsg? && Announces(s.cfg, 0, s.net[i], s.queue[i])
  {
    hide NodeInv, HeadIsTop, Promoted, VotesSigned, NoRepeats, AllVerified, Origins;
    assert Announces(s.cfg, 0, s.net[i], s.queue[i]) && Vetted(s.cfg, s.st.byHash, s.queue[i]);
  }

  /** Over any run every block but genesis has its batch in the cache under its content hash. */
  lemma {:induction false} BatchesAvailable(cfg: Config, store: map<BatchHash, Batch>, es: seq<Event>, h: Hash)
    requires RunOk(cfg, es) && StoreOk(store)
    requires h != EmptyHash && h in RunNode(Boot(cfg, store), es).st.byHash
    ensures var s := RunNode(Boot(cfg, store), es);
            var digest := s.st.byHash[h].batch;
            && digest in s.bs.cache && digest == BatchDigest(s.bs.cache[digest])
            && digest in s.bs.store && s.bs.store[digest] == s.bs.cache[digest]
  {
    hide RunNode, Boot, NodeInv, HeadIsTop, Promoted, VotesSigned, Traffic, AllVetted;
    RunHolds(cfg, store, es);
  }

  lemma {:induction false} ProposeAllCommits(s: Node)
    ensures ProposeAll(s).st.committed == s.st.committed
    decreases |s.pending|
  {
    if !s.halted && MayPropose(s) {
      var t := DoPropose(s.(pending := s.pending[1..]), s.pending[0]);
      assert t.pending == s.pending[1..];
      ProposeAllCommits(t);
    }
  }

  /** When the timer of a queued proposal fires, its block is committed. */
  lemma TimerCommits(s: Node, i: nat)
    requires Inv(s) && !s.halted && i < |s.queue|
    ensures s.queue[i].hash in React(s, Fired(s.queue[i])).st.committed
  {
    hide Inv, ProposeAll, OnCommit;
    var p := s.queue[i];
    QueuedIsStored(s, i);
    CommitsIff(s, p);
    ProposeAllCommits(OnCommit(s, p));
  }

  lemma QueuedIsStored(s: Node, i: nat)
    requires Inv(s) && i < |s.queue|
    ensures s.queue[i].hash in s.st.byHash && s.cfg.n > 0
  {
    hide HeadIsTop, Promoted, VotesSigned, AllVetted, Batched, Announces, NoRepeats, StorageOk;
    assert Queued(s.queue)[i] in SetOf(Queued(s.queue));
  }
}
