/**
 Artemis for arbitrary messages: who signed the votes and blocks a replica
 holds, what it passed on, when it votes, and how it answers.
 */
module ArtemisRecords {
  import opened Transactions
  import opened BatcherSpec
  import opened Blocks
  import opened Chains
  import opened LeaderRotation
  import opened ArtemisCore
  import opened ArtemisDelivery
  import opened ArtemisSafety
  import opened ArtemisRuns

  // ---------------------------------------------------------------- the invariant

  /** The vote of round `r` is for this view and signed by the round's leader, unless this replica leads it. */
  ghost predicate SignedVote(cfg: Config, r: nat, v: Vote) {
    && ConfigOk(cfg) && r >= 1 && v.view == 0
    && (LeaderAt(cfg.n, cfg.f, cfg.digest, r) == cfg.me ||
        v.sig.auth == AuthBy(LeaderAt(cfg.n, cfg.f, cfg.digest, r), OfVote(v.hash, r, 0)))
  }

  /** The leader of the next round was sent the vote. */
  ghost predicate RelayedVote(cfg: Config, net: seq<Packet>, r: nat, v: Vote) {
    && ConfigOk(cfg) && r >= 1
    && (LeaderAt(cfg.n, cfg.f, cfg.digest, r + 1) != cfg.me ==>
        To(LeaderAt(cfg.n, cfg.f, cfg.digest, r + 1), Relay(cfg.me, v)) in net)
  }

  ghost predicate VotesRecorded(cfg: Config, net: seq<Packet>, votes: map<nat, Vote>) {
    && (forall r :: r in votes ==> SignedVote(cfg, r, votes[r]))
    && (forall r :: r in votes ==> RelayedVote(cfg, net, r, votes[r]))
  }

  /** The batcher was told ever higher rounds, all led by the view leader, the last one above the head. */
  ghost predicate HeadTold(log: seq<BatcherMsg>, height: nat) {
    && RoundsOf(log) != [] && RoundsOf(log)[|RoundsOf(log)| - 1] == NewRound(0, height + 1)
    && (forall j :: 0 <= j < |RoundsOf(log)| ==> RoundsOf(log)[j].NewRound? && RoundsOf(log)[j].leader == 0)
    && (forall i, j :: 0 <= i < j < |RoundsOf(log)| && RoundsOf(log)[i].NewRound? && RoundsOf(log)[j].NewRound? ==>
          RoundsOf(log)[i].round < RoundsOf(log)[j].round)
  }

  /** Made and signed by the view leader. */
  predicate ByViewLeader(b: Block) {
    b.header.author == 0 && b.sig.origin == 0 && b.sig.auth == AuthBy(0, OfBlock(b.hash))
  }

  /** Genesis, a block of the view leader, or one that a peer sent as the answer to a request. */
  ghost function Vouched(cfg: Config, fetched: set<Block>): Block -> bool {
    b => b == GENESIS || cfg.me == VIEW_LEADER || ByViewLeader(b) || b in fetched
  }

  ghost predicate Records(s: Node, fetched: set<Block>) {
    && VotesRecorded(s.cfg, s.net, s.votes) && HeadTold(s.toBatcher, s.ledger.lastSeen.header.height)
    && AllBlocks(s.ledger, Vouched(s.cfg, fetched))
  }

  lemma BootRecords(cfg: Config, store: map<BatchHash, Batch>)
    requires ConfigOk(cfg)
    ensures Records(Boot(cfg, store), {})
  {
    hide HeadTold;
    BootTold();
  }

  lemma BootTold()
    ensures HeadTold([NewRound(0, 1)], 0)
  {
    hide RoundsOf;
    RoundsOne(NewRound(0, 1));
  }

  // ---------------------------------------------------------------- what leaves it in place

  lemma VotesRecordedGrows(cfg: Config, net: seq<Packet>, net': seq<Packet>, votes: map<nat, Vote>)
    requires VotesRecorded(cfg, net, votes) && net <= net'
    ensures VotesRecorded(cfg, net', votes)
  {
    hide LeaderAt, SignedVote;
    forall r | r in votes ensures RelayedVote(cfg, net', r, votes[r]) {
      assert RelayedVote(cfg, net, r, votes[r]);
    }
  }

  lemma QuietTold(log: seq<BatcherMsg>, more: seq<BatcherMsg>, height: nat)
    requires HeadTold(log, height) && RoundsOf(more) == []
    ensures HeadTold(log + more, height)
  {
    hide RoundsOf;
    RoundsConcat(log, more);
  }

  lemma NewHeadTold(log: seq<BatcherMsg>, height: nat, higher: nat)
    requires HeadTold(log, height) && height < higher
    ensures HeadTold(log + [NewRound(0, higher + 1)], higher)
  {
    hide RoundsOf;
    RoundsOne(NewRound(0, higher + 1));
    RoundsConcat(log, [NewRound(0, higher + 1)]);
    var rs := RoundsOf(log);
    assert rs[|rs| - 1] == NewRound(0, height + 1);
  }

  /** A state with the same votes and blocks, more packets and notices that announce no round. */
  lemma SameRecords(s: Node, t: Node, more: seq<BatcherMsg>, fetched: set<Block>)
    requires Records(s, fetched) && t.cfg == s.cfg && t.votes == s.votes && s.net <= t.net
    requires t.toBatcher == s.toBatcher + more && RoundsOf(more) == []
    requires t.ledger.lastSeen == s.ledger.lastSeen && t.ledger.st.byHash == s.ledger.st.byHash
    requires t.ledger.undelivered == s.ledger.undelivered
    ensures Records(t, fetched)
  {
    hide VotesRecorded, HeadTold, RoundsOf;
    VotesRecordedGrows(s.cfg, s.net, t.net, s.votes);
    QuietTold(s.toBatcher, more, s.ledger.lastSeen.header.height);
  }

  lemma QuietRecords(s: Node, t: Node, fetched: set<Block>)
    requires Records(s, fetched) && t.cfg == s.cfg && t.votes == s.votes && s.net <= t.net && t.toBatcher == s.toBatcher
    requires t.ledger.lastSeen == s.ledger.lastSeen && t.ledger.st.byHash == s.ledger.st.byHash
    requires t.ledger.undelivered == s.ledger.undelivered
    ensures Records(t, fetched)
  {
    hide Records;
    NoRounds();
    assert s.toBatcher + [] == s.toBatcher;
    SameRecords(s, t, [], fetched);
  }

  lemma MoreFetched(s: Node, fetched: set<Block>, more: set<Block>)
    requires Records(s, fetched) && fetched <= more
    ensures Records(s, more)
  {
    hide VotesRecorded, HeadTold, ByViewLeader;
    forall h | h in s.ledger.st.byHash ensures Vouched(s.cfg, more)(s.ledger.st.byHash[h]) {
      assert Vouched(s.cfg, fetched)(s.ledger.st.byHash[h]);
    }
    forall h | h in s.ledger.undelivered ensures Vouched(s.cfg, more)(s.ledger.undelivered[h]) {
      assert Vouched(s.cfg, fetched)(s.ledger.undelivered[h]);
    }
  }

  // ---------------------------------------------------------------- delivery

  lemma DoDeliveryRecords(s: Node, b: Block, fetched: set<Block>)
    requires Records(s, fetched) && Vouched(s.cfg, fetched)(b)
    ensures Records(DoDelivery(s, b), fetched)
  {
    hide VotesRecorded, HeadTold, Drain, AllBlocks, Vouched;
    DeliverAll(s.ledger, b, Vouched(s.cfg, fetched), v => true);
    var t := DoDelivery(s, b);
    DrainLater(Wake(Accept(s.ledger, b), b.hash), b.hash);
    if s.ledger.lastSeen.header.height < t.ledger.lastSeen.header.height {
      NewHeadTold(s.toBatcher, s.ledger.lastSeen.header.height, t.ledger.lastSeen.header.height);
    }
  }

  lemma OnNewBlockRecords(s: Node, b: Block, fetched: set<Block>)
    requires Records(s, fetched)
    ensures Records(OnNewBlock(s, b), fetched)
  {
    hide Records, DoDelivery;
    if OnNewBlock(s, b) != s {
      assert Vouched(s.cfg, fetched)(b);
      DoDeliveryRecords(s, b, fetched);
    }
  }

  lemma HandleNewBlockRecords(s: Node, b: Block, batch: Batch, fetched: set<Block>)
    requires Records(s, fetched)
    ensures Records(HandleNewBlock(s, b, batch), fetched)
  {
    hide Records, OnNewBlock;
    QuietRecords(s, s.(bs := Persist(s.bs, b.batch, batch)), fetched);
    OnNewBlockRecords(s.(bs := Persist(s.bs, b.batch, batch)), b, fetched);
  }

  lemma ParkRecords(s: Node, b: Block, fetched: set<Block>)
    requires Records(s, fetched) && b in fetched
    ensures Records(s.(ledger := s.ledger.(parentWaiting := s.ledger.parentWaiting[b.header.prev := b.hash],
                                           undelivered := s.ledger.undelivered[b.hash := b])), fetched)
  {
    hide VotesRecorded, HeadTold, ByViewLeader;
  }

  lemma HandleResponseRecords(s: Node, from: Replica, b: Block, batch: Batch, fetched: set<Block>)
    requires Records(s, fetched) && b in fetched
    ensures Records(HandleResponse(s, from, b, batch), fetched)
  {
    hide Records, DoDelivery;
    var s1 := s.(bs := Persist(s.bs, b.batch, batch));
    QuietRecords(s, s1, fetched);
    assert Vouched(s.cfg, fetched)(b);
    DoDeliveryRecords(s1, b, fetched);
    ParkRecords(s1, b, fetched);
    var l := s.ledger;
    var s2 := s1.(ledger := l.(parentWaiting := l.parentWaiting[b.header.prev := b.hash],
                               undelivered := l.undelivered[b.hash := b]));
    QuietRecords(s2, Send(s2, from, Request(s.cfg.me, 0, b.hash)), fetched);
  }

  lemma HandleRequestRecords(s: Node, from: Replica, id: nat, h: Hash, fetched: set<Block>)
    requires Records(s, fetched)
    ensures Records(HandleRequest(s, from, id, h), fetched)
  {
    hide Records, ReadBatch;
    QuietRecords(s, HandleRequest(s, from, id, h), fetched);
  }

  // ---------------------------------------------------------------- votes

  lemma VotesRecordedOne(cfg: Config, net: seq<Packet>, votes: map<nat, Vote>, r: nat, v: Vote)
    requires VotesRecorded(cfg, net, votes) && SignedVote(cfg, r, v) && RelayedVote(cfg, net, r, v)
    ensures VotesRecorded(cfg, net, votes[r := v])
  {
    hide SignedVote, RelayedVote;
  }

  /** What an accepted vote for the current round changes of what is recorded. */
  lemma OnVoteIs(s: Node, v: Vote)
    requires Running(s) && v.round == s.round && Delivered(s, v.hash) && VoteAccepted(s, v)
    ensures var t := OnVote(s, v);
            && t.votes == s.votes[s.round := v] && t.round == s.round + 1 && s.rot.eligible != []
            && t.net == Send(s, NextLeader(s), Relay(s.cfg.me, v)).net
            && t.ledger == s.ledger.(st := t.ledger.st) && t.ledger.st.byHash == s.ledger.st.byHash
            && t.lastVoted == s.ledger.st.byHash[v.hash]
            && exists more :: t.toBatcher == s.toBatcher + more && RoundsOf(more) == []
  {
    hide LedgerInv, BatchInv, EmissionInv, PendingInv, CommittedBy, RotationAt, Record, Rotate, RoundsOf;
    RecordKeeps(s, v);
    RecordFrame(s, v);
    RecordTells(s, v);
    assert v.round in Record(s, v).votes;
  }

  lemma RecordTells(s: Node, v: Vote)
    requires Running(s) && v.round == s.round && Delivered(s, v.hash)
    ensures Record(s, v).net == s.net && Record(s, v).ledger.st.byHash == s.ledger.st.byHash
    ensures exists more :: Record(s, v).toBatcher == s.toBatcher + more && RoundsOf(more) == []
  {
    var s1 := s.(votes := s.votes[v.round := v]);
    if s.round > s.cfg.f {
      hide EmissionInv, PendingInv, RotationAt, LedgerInv, BatchInv, RoundsOf;
      CommitTells(s, v);
    } else {
      NoRounds();
      assert s.toBatcher == s.toBatcher + [];
    }
  }

  lemma CommitTells(s: Node, v: Vote)
    requires Running(s) && v.round == s.round && Delivered(s, v.hash) && s.round > s.cfg.f
    ensures var s1 := s.(votes := s.votes[v.round := v]);
            var t := DoCommit(s1);
            && t.net == s.net && t.ledger.st.byHash == s.ledger.st.byHash
            && exists more :: t.toBatcher == s.toBatcher + more && RoundsOf(more) == []
  {
    var s1 := s.(votes := s.votes[v.round := v]);
    CommittedByClosed(s.votes, s.round - 1 - s.cfg.f);
    hide EmissionInv, PendingInv, RotationAt, WalkBack, EmitAll, DoCommit, ParkingOk, VotesParkedOk, HeadOk,
      AllBlocks, RoundsOf, NoticesOf, Fresh, CommittedBy, ClosedSet;
    DoCommitIs(s1);
    var newly := WalkBack(s1.ledger.st, s1.votes[s.round - s.cfg.f].hash).newly;
    NoticesNameNoRound(newly);
    assert DoCommit(s1).toBatcher == s.toBatcher + NoticesOf(newly);
    WalkKeepsBlocks(s1.ledger.st, s1.votes[s.round - s.cfg.f].hash);
  }

  lemma LeadersOf(s: Node)
    requires NodeInv(s)
    ensures ConfigOk(s.cfg) && s.round >= 1 && s.rot.leader == LeaderAt(s.cfg.n, s.cfg.f, s.cfg.digest, s.round)
    ensures s.rot.eligible != [] && NextLeader(s) == LeaderAt(s.cfg.n, s.cfg.f, s.cfg.digest, s.round + 1)
  {
    hide NodeInv, NextLeader, LeaderAt;
    ArtemisRuns.LeaderOf(s);
  }

  lemma AcceptedRecords(s: Node, v: Vote, fetched: set<Block>)
    requires Running(s) && v.round == s.round && Delivered(s, v.hash) && Records(s, fetched) && VoteAccepted(s, v)
    ensures Records(OnVote(s, v), fetched)
  {
    hide NodeInv, VotesRecorded, HeadTold, OnVote, LeaderAt, NextLeader, RoundsOf;
    var t := OnVote(s, v);
    OnVoteIs(s, v);
    LeadersOf(s);
    var more :| t.toBatcher == s.toBatcher + more && RoundsOf(more) == [];
    QuietTold(s.toBatcher, more, s.ledger.lastSeen.header.height);
    VotesRecordedGrows(s.cfg, s.net, t.net, s.votes);
    VotesRecordedOne(s.cfg, t.net, s.votes, s.round, v);
  }

  /** Whatever the vote, only a vote of the round's leader goes on record, and it is relayed. */
  lemma OnVoteRecords(s: Node, v: Vote, fetched: set<Block>)
    requires Running(s) && v.round == s.round && Delivered(s, v.hash) && Records(s, fetched)
    ensures Records(OnVote(s, v), fetched)
  {
    hide NodeInv, Records;
    if VoteAccepted(s, v) {
      AcceptedRecords(s, v, fetched);
    }
  }

  lemma TryVoteRecords(s: Node, from: Replica, v: Vote, fetched: set<Block>)
    requires Running(s) && Records(s, fetched)
    ensures Records(TryVote(s, from, v), fetched)
  {
    hide NodeInv, Records, OnVote;
    if s.round == v.round && Delivered(s, v.hash) {
      OnVoteRecords(s, v, fetched);
    } else {
      QuietRecords(s, TryVote(s, from, v), fetched);
    }
  }

  lemma {:induction false} DrainReadyRecords(s: Node, fetched: set<Block>)
    requires Running(s) && Records(s, fetched)
    ensures Records(DrainReady(s), fetched)
    decreases |s.ledger.voteReady|
  {
    hide NodeInv, Records, OnVote;
    if s.round in s.ledger.voteReady {
      var v := s.ledger.voteReady[s.round];
      var s1 := s.(ledger := s.ledger.(voteReady := s.ledger.voteReady - {s.round}));
      assert s.ledger.voteReady.Keys == s1.ledger.voteReady.Keys + {s.round};
      TakeReadyKeeps(s);
      QuietRecords(s, s1, fetched);
      OnVoteKeeps(s1, v);
      OnVoteRecords(s1, v, fetched);
      OnVoteFrame(s1, v);
      DrainReadyRecords(OnVote(s1, v), fetched);
    }
  }

  // ---------------------------------------------------------------- message loops

  lemma {:induction false} HandleBlocksRecords(s: Node, q: seq<(Block, Batch)>, fetched: set<Block>)
    requires Records(s, fetched)
    ensures Records(HandleBlocks(s, q), fetched)
    decreases |q|
  {
    hide Records, HandleNewBlock;
    if q != [] && !s.halted {
      HandleNewBlockRecords(s, q[0].0, q[0].1, fetched);
      HandleBlocksRecords(HandleNewBlock(s, q[0].0, q[0].1), q[1..], fetched);
    }
  }

  lemma {:induction false} HandleResponsesRecords(s: Node, q: seq<(Replica, Block, Batch)>, fetched: set<Block>)
    requires Records(s, fetched) && forall i :: 0 <= i < |q| ==> q[i].1 in fetched
    ensures Records(HandleResponses(s, q), fetched)
    decreases |q|
  {
    hide Records, HandleResponse;
    if q != [] && !s.halted {
      HandleResponseRecords(s, q[0].0, q[0].1, q[0].2, fetched);
      HandleResponsesRecords(HandleResponse(s, q[0].0, q[0].1, q[0].2), q[1..], fetched);
    }
  }

  lemma {:induction false} HandleOthersRecords(s: Node, q: seq<Msg>, fetched: set<Block>)
    requires Running(s) && Records(s, fetched) && forall i :: 0 <= i < |q| ==> IsOther(q[i])
    ensures Records(HandleOthers(s, q), fetched)
    decreases |q|
  {
    hide NodeInv, Records, TryVote, HandleRequest;
    if q != [] {
      HandleOtherKeeps(s, q[0]);
      match q[0] {
        case VoteMsg(v) => TryVoteRecords(s, v.sig.origin, v, fetched);
        case Relay(from, v) => TryVoteRecords(s, from, v, fetched);
        case Request(from, id, h) => HandleRequestRecords(s, from, id, h, fetched);
        case Blame(_) => QuietRecords(s, s.(halted := true), fetched);
      }
      var t := HandleOther(s, q[0]);
      if t.halted {
        assert HandleOthers(t, q[1..]) == t;
      } else {
        HandleOthersRecords(t, q[1..], fetched);
      }
    }
  }

  /** The blocks that peers sent in answer to requests. */
  function Fetched(ms: seq<Msg>): set<Block> {
    set i | 0 <= i < |ms| && ms[i].Response? :: ms[i].block
  }

  lemma {:induction false} BufferedFetched(ms: seq<Msg>)
    ensures forall i :: 0 <= i < |BufferedResponses(ms)| ==> BufferedResponses(ms)[i].1 in Fetched(ms)
  {
    if ms != [] {
      var init := ms[..|ms| - 1];
      BufferedFetched(init);
      assert forall i :: 0 <= i < |init| ==> init[i] == ms[i];
      assert Fetched(init) <= Fetched(ms);
    }
  }

  lemma ProcessRecords(s: Node, ms: seq<Msg>, fetched: set<Block>)
    requires Running(s) && Records(s, fetched) && forall i :: 0 <= i < |ms| ==> Decoded(ms[i])
    ensures Records(ProcessMessages(s, BufferedBlocks(ms), BufferedResponses(ms), BufferedOthers(ms)),
                    fetched + Fetched(ms))
  {
    hide NodeInv, Records, HandleBlocks, HandleResponses, HandleOthers, DrainReady, HasBlame, BufferedBlocks,
      BufferedResponses, BufferedOthers, Fetched;
    var all := fetched + Fetched(ms);
    BufferedOk(ms);
    BufferedFetched(ms);
    MoreFetched(s, fetched, all);
    var s1 := HandleBlocks(s, BufferedBlocks(ms));
    HandleBlocksKeeps(s, BufferedBlocks(ms));
    HandleBlocksRecords(s, BufferedBlocks(ms), all);
    var s2 := HandleResponses(s1, BufferedResponses(ms));
    HandleResponsesKeeps(s1, BufferedResponses(ms));
    HandleResponsesRecords(s1, BufferedResponses(ms), all);
    var s3 := DrainReady(s2);
    DrainReadyKeeps(s2);
    DrainReadyRecords(s2, all);
    var s4 := HandleOthers(s3, BufferedOthers(ms));
    HandleOthersKeeps(s3, BufferedOthers(ms));
    HandleOthersRecords(s3, BufferedOthers(ms), all);
    if s4.halted {
      HaltedStays(s4);
    } else {
      DrainReadyRecords(s4, all);
    }
  }

  // ---------------------------------------------------------------- the reactor

  lemma DoNewBlockRecords(s: Node, batch: Batch, fetched: set<Block>)
    requires Records(s, fetched)
    ensures Records(DoNewBlock(s, batch), fetched)
  {
    hide Records, OnNewBlock, RoundsOf;
    var unsigned := NewBlock(s.ledger.lastSeen, s.cfg.me, batch, Sig(s.cfg.me, NoAuth));
    var b := unsigned.(sig := Sig(s.cfg.me, AuthBy(s.cfg.me, OfBlock(unsigned.hash))));
    var sent := Multicast(s, NewBlockMsg(b, batch));
    var told := sent.(toBatcher := sent.toBatcher + [Proposed(batch, b.header.height)]);
    RoundsOne(Proposed(batch, b.header.height));
    SameRecords(s, told, [Proposed(batch, b.header.height)], fetched);
    OnNewBlockRecords(told, b, fetched);
  }

  lemma {:induction false} DoNewBlocksRecords(s: Node, q: seq<(BatchHash, Batch)>, fetched: set<Block>)
    requires Records(s, fetched)
    ensures Records(DoNewBlocks(s, q), fetched)
    decreases |q|
  {
    hide Records, DoNewBlock;
    if q != [] && !s.halted {
      DoNewBlockRecords(s, q[0].1, fetched);
      DoNewBlocksRecords(DoNewBlock(s, q[0].1), q[1..], fetched);
    }
  }

  lemma TryRoundVoteRecords(s: Node, fetched: set<Block>)
    requires Running(s) && Records(s, fetched)
    ensures Records(TryRoundVote(s), fetched)
  {
    hide NodeInv, Records, OnVote;
    var h := s.ledger.lastSeen.hash;
    var v := Vote(h, s.round, VIEW, Sig(s.cfg.me, AuthBy(s.cfg.me, OfVote(h, s.round, VIEW))));
    var sent := Multicast(s, VoteMsg(v));
    HeadIsStored(s);
    SendKeeps(s, 0, VoteMsg(v));
    QuietRecords(s, sent, fetched);
    OnVoteRecords(sent, v, fetched);
  }

  lemma ProposeRecords(s: Node, fetched: set<Block>)
    requires Running(s) && Records(s, fetched)
    ensures Records(Propose(s), fetched)
  {
    hide NodeInv, Records, DoNewBlocks, TryRoundVote;
    TakePendingKeeps(s);
    var t := s;
    if s.cfg.me == VIEW_LEADER {
      t := DoNewBlocks(s.(pending := []), s.pending);
      DoNewBlocksKeeps(s.(pending := []), s.pending);
      QuietRecords(s, s.(pending := []), fetched);
      DoNewBlocksRecords(s.(pending := []), s.pending, fetched);
    }
    TryRoundVoteRecords(t, fetched);
  }

  function FetchedIn(e: Event): set<Block> {
    if e.Received? then Fetched(e.msgs) else {}
  }

  lemma ReactRecords(s: Node, e: Event, fetched: set<Block>)
    requires Running(s) && Records(s, fetched) && EventDecoded(e)
    ensures Records(React(s, e), fetched + FetchedIn(e))
  {
    hide NodeInv, Records, ProcessMessages, Propose, Persist, HasBlame, BufferedBlocks, BufferedResponses,
      BufferedOthers, Fetched;
    MoreFetched(s, fetched, fetched + FetchedIn(e));
    match e
    case Received(ms) =>
      BufferedOk(ms);
      ProcessKeeps(s, BufferedBlocks(ms), BufferedResponses(ms), BufferedOthers(ms));
      ProcessRecords(s, ms, fetched);
      var t := ProcessMessages(s, BufferedBlocks(ms), BufferedResponses(ms), BufferedOthers(ms));
      if t.halted {
        HaltedProposesNothing(t);
      } else {
        ProposeRecords(t, fetched + Fetched(ms));
      }
    case Sealed(batch) =>
      SealedKeeps(s, batch);
      var h := BatchDigest(batch);
      var t := s.(bs := Persist(s.bs, h, batch), pending := s.pending + [(h, batch)]);
      QuietRecords(s, t, fetched + FetchedIn(e));
      ProposeRecords(t, fetched + FetchedIn(e));
    case Idle => ProposeRecords(s, fetched + FetchedIn(e));
  }

  /** The blocks that came as answers in the run. */
  function FetchedOver(es: seq<Event>): set<Block> {
    if es == [] then {} else FetchedOver(es[..|es| - 1]) + FetchedIn(es[|es| - 1])
  }

  lemma {:induction false} RunRecords(cfg: Config, store: map<BatchHash, Batch>, es: seq<Event>)
    requires RunOk(cfg, store, es)
    ensures Records(RunNode(Boot(cfg, store), es), FetchedOver(es))
  {
    hide NodeInv, Records, React, Boot, SawBlame, FetchedIn;
    if es == [] {
      BootRecords(cfg, store);
    } else {
      var s, e := RunNode(Boot(cfg, store), es[..|es| - 1]), es[|es| - 1];
      RunRecords(cfg, store, es[..|es| - 1]);
      RunInv(cfg, store, es[..|es| - 1]);
      if s.halted {
        HaltedReact(s, e);
        MoreFetched(s, FetchedOver(es[..|es| - 1]), FetchedOver(es));
      } else {
        assert EventDecoded(e);
        ReactRecords(s, e, FetchedOver(es[..|es| - 1]));
      }
    }
  }

  // ---------------------------------------------------------------- over runs

  /** Over any run with arbitrary messages: the vote recorded for a round is of this view and signed by the round's
      leader, unless this replica leads the round, and the leader of the next round was sent it. */
  lemma {:induction false} VotesAreSigned(cfg: Config, store: map<BatchHash, Batch>, es: seq<Event>, r: nat)
    requires RunOk(cfg, store, es) && r in RunNode(Boot(cfg, store), es).votes
    ensures r >= 1
    ensures var s := RunNode(Boot(cfg, store), es);
            var leader, next := LeaderAt(cfg.n, cfg.f, cfg.digest, r), LeaderAt(cfg.n, cfg.f, cfg.digest, r + 1);
            && s.votes[r].view == 0
            && (leader == cfg.me || s.votes[r].sig.auth == AuthBy(leader, OfVote(s.votes[r].hash, r, 0)))
            && (next == cfg.me || To(next, Relay(cfg.me, s.votes[r])) in s.net)
  {
    hide RunNode, Boot, LeaderAt, HeadTold, AllBlocks;
    RunRecords(cfg, store, es);
    var s := RunNode(Boot(cfg, store), es);
    assert SignedVote(s.cfg, r, s.votes[r]) && RelayedVote(s.cfg, s.net, r, s.votes[r]);
  }

  /** Over any run the batcher hears of ever higher rounds, all led by the view leader, the last one above the head. */
  lemma {:induction false} HeadsAreTold(cfg: Config, store: map<BatchHash, Batch>, es: seq<Event>)
    requires RunOk(cfg, store, es)
    ensures var s := RunNode(Boot(cfg, store), es);
            var rs := RoundsOf(s.toBatcher);
            && rs != [] && rs[|rs| - 1] == NewRound(0, s.ledger.lastSeen.header.height + 1)
            && (forall j :: 0 <= j < |rs| ==> rs[j].NewRound? && rs[j].leader == 0)
            && (forall i, j :: 0 <= i < j < |rs| ==> rs[i].round < rs[j].round)
  {
    hide RunNode, Boot, VotesRecorded, AllBlocks, RoundsOf;
    RunRecords(cfg, store, es);
  }

  /** Over any run a follower has delivered only genesis, blocks the view leader made and signed, and blocks that
      peers sent in answer to requests. */
  lemma {:induction false} BlocksAreVouched(cfg: Config, store: map<BatchHash, Batch>, es: seq<Event>, h: Hash)
    requires RunOk(cfg, store, es) && cfg.me != 0 && h in RunNode(Boot(cfg, store), es).ledger.st.byHash
    ensures var b := RunNode(Boot(cfg, store), es).ledger.st.byHash[h];
            || b == GENESIS || b in FetchedOver(es)
            || (b.header.author == 0 && b.sig.origin == 0 && b.sig.auth == AuthBy(0, OfBlock(b.hash)))
  {
    hide RunNode, Boot, VotesRecorded, HeadTold, FetchedOver;
    RunRecords(cfg, store, es);
    var s := RunNode(Boot(cfg, store), es);
    assert Vouched(s.cfg, FetchedOver(es))(s.ledger.st.byHash[h]);
  }

  /** An unsigned block on genesis by somebody who is not the view leader. */
  const FOREIGN: Block := NewBlock(GENESIS, 1, [], Sig(1, NoAuth))

  /** The exception is real: what a peer answers is delivered without a look at its author and signature. */
  lemma FetchedIsNotChecked(cfg: Config)
    requires ConfigOk(cfg) && cfg.me != 0
    ensures var es := [Received([Response(1, 0, FOREIGN, [])])];
            RunOk(cfg, map[], es) && FOREIGN.hash in RunNode(Boot(cfg, map[]), es).ledger.st.byHash
  {
    hide React;
    var es := [Received([Response(1, 0, FOREIGN, [])])];
    var s := Boot(cfg, map[]);
    assert es[..0] == [] && RunNode(s, es[..0]) == s;
    BootInv(cfg, map[]);
    ReactDelivers(s, FOREIGN);
  }

  lemma ReactDelivers(s: Node, b: Block)
    requires Running(s) && Finalized(b) && b.batch == BatchDigest([]) && Delivered(s, b.header.prev)
    requires s.cfg.me != 0 && !Delivered(s, b.hash)
    ensures Delivered(React(s, Received([Response(1, 0, b, [])])), b.hash)
  {
    hide NodeInv, HandleResponse, DrainReady, TryRoundVote, BufferedBlocks, BufferedResponses, BufferedOthers;
    OneResponse(b);
    OneHandled(s, b);
    var s1 := HandleResponse(s, 1, b, []);
    FetchedIff(s, 1, b, []);
    HandleResponseKeeps(s, 1, b, []);
    var s2 := DrainReady(s1);
    DrainReadyKeeps(s1);
    DrainReadyStore(s1);
    DrainReadyKeeps(s2);
    DrainReadyStore(s2);
    DrainReadyConfig(s1);
    TryRoundVoteStore(DrainReady(s2));
  }

  lemma OneResponse(b: Block)
    ensures var ms := [Response(1, 0, b, [])];
            BufferedBlocks(ms) == [] && BufferedOthers(ms) == [] && BufferedResponses(ms) == [(1, b, [])]
  {
    var ms := [Response(1, 0, b, [])];
    assert ms[..0] == [];
    assert BufferedBlocks(ms[..0]) == [] && BufferedOthers(ms[..0]) == [] && BufferedResponses(ms[..0]) == [];
  }

  lemma OneHandled(s: Node, b: Block)
    requires !s.halted
    ensures HandleResponses(HandleBlocks(s, []), [(1, b, [])]) == HandleResponse(s, 1, b, [])
    ensures forall t: Node :: HandleOthers(t, []) == t
  {
    hide HandleResponse;
    var q: seq<(Replica, Block, Batch)> := [(1, b, [])];
    var t := HandleResponse(s, 1, b, []);
    assert HandleResponses(s, q) == HandleResponses(t, q[1..]) && HandleResponses(t, []) == t;
    assert q[1..] == [];
  }

  lemma DrainReadyConfig(s: Node)
    ensures DrainReady(DrainReady(s)).cfg == s.cfg
  {
  }

  lemma {:induction false} DrainReadyStore(s: Node)
    requires Running(s)
    ensures DrainReady(s).ledger.st.byHash == s.ledger.st.byHash
    decreases |s.ledger.voteReady|
  {
    hide NodeInv, OnVote;
    if s.round in s.ledger.voteReady {
      var v := s.ledger.voteReady[s.round];
      var s1 := s.(ledger := s.ledger.(voteReady := s.ledger.voteReady - {s.round}));
      assert s.ledger.voteReady.Keys == s1.ledger.voteReady.Keys + {s.round};
      TakeReadyKeeps(s);
      OnVoteKeeps(s1, v);
      OnVoteStore(s1, v);
      OnVoteFrame(s1, v);
      DrainReadyStore(OnVote(s1, v));
    }
  }

  lemma OnVoteStore(s: Node, v: Vote)
    requires Running(s) && v.round == s.round && Delivered(s, v.hash)
    ensures OnVote(s, v).ledger.st.byHash == s.ledger.st.byHash
  {
    if VoteAccepted(s, v) {
      OnVoteIs(s, v);
    }
  }

  lemma TryRoundVoteStore(s: Node)
    requires Running(s)
    ensures TryRoundVote(s).ledger.st.byHash == s.ledger.st.byHash
  {
    hide NodeInv, OnVote;
    var h := s.ledger.lastSeen.hash;
    var v := Vote(h, s.round, VIEW, Sig(s.cfg.me, AuthBy(s.cfg.me, OfVote(h, s.round, VIEW))));
    HeadIsStored(s);
    SendKeeps(s, 0, VoteMsg(v));
    OnVoteStore(Multicast(s, VoteMsg(v)), v);
  }

  // ---------------------------------------------------------------- when a replica votes

  /** A replica casts its vote exactly when it leads the round and its head is above the block voted last; the vote
      names the head and goes to everybody. */
  lemma VotesIff(s: Node)
    requires Running(s)
    ensures var due := s.cfg.me == s.rot.leader && s.ledger.lastSeen.header.height > s.lastVoted.header.height;
            && (TryRoundVote(s).round == s.round + 1 <==> due)
            && (!due ==> TryRoundVote(s) == s)
            && (due ==> s.net + [ToAll(VoteMsg(OwnVote(s)))] <= TryRoundVote(s).net)
            && (due ==> TryRoundVote(s).votes == s.votes[s.round := OwnVote(s)])
            && (due ==> TryRoundVote(s).lastVoted == s.ledger.lastSeen)
  {
    if s.cfg.me == s.rot.leader && s.ledger.lastSeen.header.height > s.lastVoted.header.height {
      hide NodeInv, OnVote, RoundsOf;
      var sent := Multicast(s, VoteMsg(OwnVote(s)));
      HeadIsThere(s);
      SendKeeps(s, 0, VoteMsg(OwnVote(s)));
      OnVoteIs(sent, OwnVote(s));
    }
  }

  /** A vote for the head, for this round, signed by this replica. */
  function OwnVote(s: Node): (v: Vote)
    ensures v.hash == s.ledger.lastSeen.hash && v.round == s.round && v.view == 0
    ensures v.sig == Sig(s.cfg.me, AuthBy(s.cfg.me, OfVote(v.hash, v.round, 0)))
  {
    var h := s.ledger.lastSeen.hash;
    Vote(h, s.round, 0, Sig(s.cfg.me, AuthBy(s.cfg.me, OfVote(h, s.round, 0))))
  }

  lemma HeadIsThere(s: Node)
    requires Running(s)
    ensures Delivered(s, s.ledger.lastSeen.hash) && s.ledger.st.byHash[s.ledger.lastSeen.hash] == s.ledger.lastSeen
  {
    hide BatchInv, EmissionInv, PendingInv, CommittedBy, RotationAt, ParkingOk, VotesParkedOk, VotesInv;
  }

  /** Nothing that this replica should vote for is left: the leader after a vote of its own is another one. */
  lemma NothingDueAfter(s: Node)
    requires Running(s)
    ensures var t := TryRoundVote(s);
            !(t.cfg.me == t.rot.leader && t.ledger.lastSeen.header.height > t.lastVoted.header.height)
  {
    hide NodeInv, TryRoundVote, LeaderAt;
    var t := TryRoundVote(s);
    VotesIff(s);
    if t != s {
      TryRoundVoteKeeps(s);
      LeadersOf(s);
      LeadersOf(t);
      LeadersDiffer(s.cfg.n, s.cfg.f, s.cfg.digest, s.round, s.round + 1);
    }
  }

  lemma ReactSettles(s: Node, e: Event)
    requires Running(s) && EventDecoded(e) && !React(s, e).halted
    ensures var t := React(s, e);
            !(t.cfg.me == t.rot.leader && t.ledger.lastSeen.header.height > t.lastVoted.header.height)
  {
    hide NodeInv, ProcessMessages, Propose, Persist, HasBlame, BufferedBlocks, BufferedResponses, BufferedOthers;
    match e
    case Received(ms) =>
      BufferedOk(ms);
      ProcessKeeps(s, BufferedBlocks(ms), BufferedResponses(ms), BufferedOthers(ms));
      var t := ProcessMessages(s, BufferedBlocks(ms), BufferedResponses(ms), BufferedOthers(ms));
      if t.halted {
        HaltedProposesNothing(t);
      } else {
        ProposeSettles(t);
      }
    case Sealed(batch) =>
      SealedKeeps(s, batch);
      var h := BatchDigest(batch);
      ProposeSettles(s.(bs := Persist(s.bs, h, batch), pending := s.pending + [(h, batch)]));
    case Idle => ProposeSettles(s);
  }

  lemma ProposeSettles(s: Node)
    requires Running(s)
    ensures var t := Propose(s);
            !(t.cfg.me == t.rot.leader && t.ledger.lastSeen.header.height > t.lastVoted.header.height)
  {
    hide NodeInv, DoNewBlocks, TryRoundVote;
    TakePendingKeeps(s);
    if s.cfg.me == VIEW_LEADER {
      DoNewBlocksKeeps(s.(pending := []), s.pending);
      NothingDueAfter(DoNewBlocks(s.(pending := []), s.pending));
    } else {
      NothingDueAfter(s);
    }
  }

  /** Over any run a replica that still runs owes no vote: it does not lead its round with a head above the block
      voted last. */
  lemma {:induction false} NoVoteOwed(cfg: Config, store: map<BatchHash, Batch>, es: seq<Event>)
    requires RunOk(cfg, store, es)
    ensures var s := RunNode(Boot(cfg, store), es);
            s.halted || !(cfg.me == s.rot.leader && s.ledger.lastSeen.header.height > s.lastVoted.header.height)
  {
    hide NodeInv, React, SawBlame;
    if es != [] {
      var s, e := RunNode(Boot(cfg, store), es[..|es| - 1]), es[|es| - 1];
      RunInv(cfg, store, es[..|es| - 1]);
      if s.halted {
        HaltedReact(s, e);
      } else if !React(s, e).halted {
        assert EventDecoded(e);
        ReactSettles(s, e);
      }
    }
  }

  // ---------------------------------------------------------------- single steps

  /** The leader's own block: on its head, by itself, signed, sent to everybody, told to the batcher and delivered. */
  lemma MakesBlock(s: Node, batch: Batch)
    requires Running(s) && s.cfg.me == 0 && BatchDigest(batch) in s.bs.cache
    ensures var t := DoNewBlock(s, batch);
            && |t.net| == |s.net| + 1 && t.net[..|s.net|] == s.net && t.net[|s.net|].ToAll?
            && t.net[|s.net|].msg.NewBlockMsg? && t.net[|s.net|].msg.batch == batch
            && var b := t.net[|s.net|].msg.block;
               && b.header == Header(s.ledger.lastSeen.hash, 0, s.ledger.lastSeen.header.height + 1, [])
               && b.batch == BatchDigest(batch) && Finalized(b) && ByViewLeader(b) && Delivered(t, b.hash)
               && s.toBatcher + [Proposed(batch, b.header.height)] <= t.toBatcher
               && t.ledger.lastSeen.header.height >= b.header.height
  {
    hide Drain, NodeInv, DoDelivery;
    var unsigned := NewBlock(s.ledger.lastSeen, s.cfg.me, batch, Sig(s.cfg.me, NoAuth));
    var b := unsigned.(sig := Sig(s.cfg.me, AuthBy(s.cfg.me, OfBlock(unsigned.hash))));
    HeadIsThere(s);
    TallerIsNew(s, b);
    var sent := Multicast(s, NewBlockMsg(b, batch));
    var told := sent.(toBatcher := sent.toBatcher + [Proposed(batch, b.header.height)]);
    DoDeliveryStores(told, b);
  }

  lemma TallerIsNew(s: Node, b: Block)
    requires Running(s) && Finalized(b) && b.header.height > s.ledger.lastSeen.header.height
    ensures !Delivered(s, b.hash)
  {
    hide BatchInv, EmissionInv, PendingInv, CommittedBy, RotationAt, VotesInv, LastVotedOk, ParkingOk, VotesParkedOk;
    if Delivered(s, b.hash) {
      StoredPrev(s.ledger.st, b.hash);
    }
  }

  lemma {:induction false} DrainStores(l: Ledger, h: Hash, x: Hash)
    requires x in l.st.byHash
    ensures x in Drain(l, h).st.byHash
    decreases |l.parentWaiting|
  {
    if h in l.parentWaiting {
      ParkedCount(l, h);
      DrainStores(Unpark(l, h), l.parentWaiting[h], x);
    }
  }

  lemma DoDeliveryStores(s: Node, b: Block)
    ensures Delivered(DoDelivery(s, b), b.hash) && DoDelivery(s, b).net == s.net
    ensures s.toBatcher <= DoDelivery(s, b).toBatcher
    ensures DoDelivery(s, b).ledger.lastSeen.header.height >= b.header.height
  {
    hide Drain;
    DrainStores(Wake(Accept(s.ledger, b), b.hash), b.hash, b.hash);
    DrainLater(Wake(Accept(s.ledger, b), b.hash), b.hash);
  }

  /** A block straight from the network is delivered under exactly these conditions; otherwise it is dropped. */
  lemma DeliversIff(s: Node, b: Block, batch: Batch)
    requires Running(s) && Finalized(b) && !Delivered(s, b.hash)
    ensures Delivered(HandleNewBlock(s, b, batch), b.hash) <==>
            && b.batch == BatchDigest(batch) && Delivered(s, b.header.prev) && b.header.author == 0 && b.sig.origin == 0
            && (s.cfg.me == 0 || b.sig.auth == AuthBy(0, OfBlock(b.hash)))
  {
    hide NodeInv, DoDelivery, Persist;
    DoDeliveryStores(s.(bs := Persist(s.bs, b.batch, batch)), b);
  }

  /** A fetched block is delivered if its parent is, and else parked below it with a request back to the sender, unless
      another block waits for the same parent or the batch is not the block's. */
  lemma FetchedIff(s: Node, from: Replica, b: Block, batch: Batch)
    requires Running(s) && Finalized(b) && !Delivered(s, b.hash)
    ensures var t := HandleResponse(s, from, b, batch);
            var l := s.ledger;
            && (Delivered(t, b.hash) <==> b.batch == BatchDigest(batch) && Delivered(s, b.header.prev))
            && (b.batch == BatchDigest(batch) && !Delivered(s, b.header.prev) && b.header.prev !in l.parentWaiting ==>
                && b.hash in t.ledger.undelivered && t.ledger.undelivered[b.hash] == b
                && t.ledger.parentWaiting == l.parentWaiting[b.header.prev := b.hash]
                && (from != s.cfg.me ==> t.net == s.net + [To(from, Request(s.cfg.me, 0, b.hash))]))
  {
    hide BatchInv, EmissionInv, PendingInv, CommittedBy, RotationAt, VotesInv, LastVotedOk, DoDelivery, Persist,
      StorageOk, HeadOk, VotesParkedOk;
    DoDeliveryStores(s.(bs := Persist(s.bs, b.batch, batch)), b);
  }

  /** A request for a delivered or parked block is answered to its sender with that block and its batch; a request for
      any other block is not answered. */
  lemma AnswersRequest(s: Node, from: Replica, id: nat, h: Hash)
    requires Running(s) && from != s.cfg.me
    ensures var t := HandleRequest(s, from, id, h);
            && (h != EmptyHash && Delivered(s, h) ==>
                h.Digest? && h.batch.BatchDigest? && t.net ==
                s.net + [To(from, Response(s.cfg.me, id, s.ledger.st.byHash[h], h.batch.payload))])
            && (h in s.ledger.undelivered ==>
                h.Digest? && h.batch.BatchDigest? && t.net ==
                s.net + [To(from, Response(s.cfg.me, id, s.ledger.undelivered[h], h.batch.payload))])
            && (!Delivered(s, h) && h !in s.ledger.undelivered ==> t == s)
  {
    hide EmissionInv, PendingInv, CommittedBy, RotationAt, VotesInv, LastVotedOk, HeadOk, VotesParkedOk;
    if h != EmptyHash && Delivered(s, h) {
      StoredPrev(s.ledger.st, h);
      assert HasBatch(s.bs)(s.ledger.st.byHash[h]);
    } else if h in s.ledger.undelivered {
      assert HasBatch(s.bs)(s.ledger.undelivered[h]);
    }
  }

  /** A vote is dropped, parked with a request for its block, kept for its round, or handled now: it is recorded
      exactly when the round's leader signed it or this replica leads. */
  lemma SortsVotes(s: Node, from: Replica, v: Vote)
    requires Running(s)
    ensures var t := TryVote(s, from, v);
            && (v.round < s.round ==> t == s)
            && (v.round >= s.round && !Delivered(s, v.hash) ==>
                && v.hash in t.ledger.voteWaiting && t.ledger.voteWaiting[v.hash] == v
                && (from != s.cfg.me ==> t.net == s.net + [To(from, Request(s.cfg.me, 0, v.hash))]))
            && (v.round > s.round && Delivered(s, v.hash) ==>
                v.round in t.ledger.voteReady && t.ledger.voteReady[v.round] == v && t.net == s.net)
            && (v.round == s.round && Delivered(s, v.hash) ==>
                (t.round == s.round + 1 <==>
                  && v.view == 0
                  && (s.cfg.me == s.rot.leader || v.sig.auth == AuthBy(s.rot.leader, OfVote(v.hash, v.round, 0)))))
  {
    hide NodeInv, OnVote, RoundsOf;
    if v.round == s.round && Delivered(s, v.hash) && VoteAccepted(s, v) {
      OnVoteIs(s, v);
    } else if v.round == s.round && Delivered(s, v.hash) {
      assert OnVote(s, v) == s by {
        NotAccepted(s, v);
      }
    }
  }

  lemma NotAccepted(s: Node, v: Vote)
    requires !VoteAccepted(s, v)
    ensures OnVote(s, v) == s
  {
  }

  /** Nothing is sent to oneself; anything else goes out once, to whom it is for. */
  lemma SendsElsewhere(s: Node, to: Replica, m: Msg)
    ensures Send(s, to, m) == s <==> to == s.cfg.me
    ensures to != s.cfg.me ==> Send(s, to, m).net == s.net + [To(to, m)]
  {
    assert |s.net + [To(to, m)]| == |s.net| + 1;
  }

  lemma {:induction false} DrainHead(l: Ledger, h: Hash)
    ensures var d := Drain(l, h); d.lastSeen == l.lastSeen || d.lastSeen.header.height > l.lastSeen.header.height
    decreases |l.parentWaiting|
  {
    if h in l.parentWaiting {
      ParkedCount(l, h);
      DrainHead(Unpark(l, h), l.parentWaiting[h]);
    }
  }

  /** A delivery moves the head only to a taller block, and tells the batcher exactly then. */
  lemma HeadOnlyRises(s: Node, b: Block)
    ensures var t := DoDelivery(s, b);
            var rises := t.ledger.lastSeen.header.height > s.ledger.lastSeen.header.height;
            && (rises || t.ledger.lastSeen == s.ledger.lastSeen)
            && (b.header.height > s.ledger.lastSeen.header.height ==> rises)
            && t.toBatcher == s.toBatcher +
                 (if rises then [NewRound(0, t.ledger.lastSeen.header.height + 1)] else [])
  {
    hide Drain;
    DrainHead(Wake(Accept(s.ledger, b), b.hash), b.hash);
  }
}
