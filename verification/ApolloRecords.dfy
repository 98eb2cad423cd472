/**
 Apollo for arbitrary messages: who made what a replica has accepted, what it
 passed on about it, when it accepts, and how it answers.
 */
module ApolloRecords {
  import opened Transactions
  import opened BatcherSpec
  import opened Blocks
  import opened Chains
  import opened ApolloCore
  import opened ApolloBuffers
  import opened ApolloRuns

  // ---------------------------------------------------------------- the invariant

  /** The proposal of round `r` comes from that round's leader, for a stored block of its own, and is signed by it
      unless it is this replica's own. */
  ghost predicate Authentic(cfg: Config, blocks: map<Hash, Block>, r: nat, p: Propose) {
    && cfg.n > 0 && r >= 1 && p.round == r && p.hash in blocks
    && p.sig.origin == LeaderOf(cfg.n, r) && blocks[p.hash].header.author == LeaderOf(cfg.n, r)
    && (p.sig.origin == cfg.me || p.sig.auth == AuthBy(LeaderOf(cfg.n, r), OfBlock(p.hash)))
  }

  /** The next leader was sent the proposal and the batcher was told its batch. */
  ghost predicate PassedOn(cfg: Config, net: seq<Packet>, toBatcher: seq<BatcherMsg>, r: nat, p: Propose) {
    && cfg.n > 0 && r >= 1
    && (LeaderOf(cfg.n, r + 1) != cfg.me ==> To(LeaderOf(cfg.n, r + 1), Relay(cfg.me, p)) in net)
    && (p.hash.Digest? && p.hash.batch.BatchDigest? ==> Proposed(p.hash.batch.payload, r) in toBatcher)
  }

  ghost predicate AllAuthentic(cfg: Config, blocks: map<Hash, Block>, byRound: map<nat, Propose>) {
    forall r :: r in byRound ==> Authentic(cfg, blocks, r, byRound[r])
  }

  ghost predicate AllPassedOn(cfg: Config, net: seq<Packet>, toBatcher: seq<BatcherMsg>, byRound: map<nat, Propose>) {
    forall r :: r in byRound ==> PassedOn(cfg, net, toBatcher, r, byRound[r])
  }

  /** The two tables of accepted proposals hold the same ones. */
  ghost predicate SameTables(byRound: map<nat, Propose>, byHash: map<Hash, Propose>) {
    && (forall r :: r in byRound ==> byRound[r].hash in byHash)
    && (forall h :: h in byHash ==> byHash[h].round in byRound && byRound[byHash[h].round] == byHash[h])
  }

  /** The head is the block accepted last. */
  predicate HeadIsLast(round: nat, byRound: map<nat, Propose>, head: Hash) {
    head == if round > 1 && round - 1 in byRound then byRound[round - 1].hash else EmptyHash
  }

  /** The announcements of rounds 1 to `round`, each with its leader. */
  function Schedule(n: nat, round: nat): seq<BatcherMsg>
    requires n > 0
  {
    if round == 0 then [] else Schedule(n, round - 1) + [NewRound(LeaderOf(n, round), round)]
  }

  ghost predicate OnSchedule(n: nat, round: nat, log: seq<BatcherMsg>) {
    n > 0 && RoundsOf(log) == Schedule(n, round)
  }

  ghost predicate Chronicle(s: Node) {
    && AllAuthentic(s.cfg, s.st.byHash, s.byRound) && AllPassedOn(s.cfg, s.net, s.toBatcher, s.byRound)
    && SameTables(s.byRound, s.byHash) && HeadIsLast(s.round, s.byRound, s.lastSeen.hash)
    && OnSchedule(s.cfg.n, s.round, s.toBatcher)
  }

  lemma BootChronicle(cfg: Config, store: map<BatchHash, Batch>)
    requires cfg.n > 0
    ensures Chronicle(Boot(cfg, store))
  {
    var log := [NewRound(0, 1)];
    assert log[..0] == [] && RoundsOf(log[..0]) == [];
    assert LeaderOf(cfg.n, 1) == 0;
    assert Schedule(cfg.n, 0) == [];
  }

  // ---------------------------------------------------------------- what leaves it in place

  lemma AuthenticGrows(cfg: Config, blocks: map<Hash, Block>, more: map<Hash, Block>, byRound: map<nat, Propose>)
    requires AllAuthentic(cfg, blocks, byRound)
    requires forall h :: h in blocks ==> h in more && more[h] == blocks[h]
    ensures AllAuthentic(cfg, more, byRound)
  {
    hide LeaderOf;
  }

  lemma PassedOnGrows(cfg: Config, net: seq<Packet>, net': seq<Packet>, log: seq<BatcherMsg>, log': seq<BatcherMsg>,
      byRound: map<nat, Propose>)
    requires AllPassedOn(cfg, net, log, byRound) && net <= net' && log <= log'
    ensures AllPassedOn(cfg, net', log', byRound)
  {
    hide LeaderOf;
    forall r | r in byRound ensures PassedOn(cfg, net', log', r, byRound[r]) {
      assert PassedOn(cfg, net, log, r, byRound[r]);
    }
  }

  lemma QuietOnSchedule(n: nat, round: nat, log: seq<BatcherMsg>, more: seq<BatcherMsg>)
    requires OnSchedule(n, round, log) && RoundsOf(more) == []
    ensures OnSchedule(n, round, log + more)
  {
    hide RoundsOf, Schedule;
    RoundsConcat(log, more);
  }

  /** A state with the same records on a larger store, with more packets and notices that announce no round. */
  lemma SameChronicle(s: Node, t: Node, more: seq<BatcherMsg>)
    requires Chronicle(s) && t.cfg == s.cfg && t.round == s.round && t.byRound == s.byRound && t.byHash == s.byHash
    requires t.lastSeen == s.lastSeen && s.net <= t.net && t.toBatcher == s.toBatcher + more && RoundsOf(more) == []
    requires forall h :: h in s.st.byHash ==> h in t.st.byHash && t.st.byHash[h] == s.st.byHash[h]
    ensures Chronicle(t)
  {
    hide AllAuthentic, AllPassedOn, OnSchedule, RoundsOf, SameTables, HeadIsLast;
    AuthenticGrows(s.cfg, s.st.byHash, t.st.byHash, s.byRound);
    PassedOnGrows(s.cfg, s.net, t.net, s.toBatcher, t.toBatcher, s.byRound);
    QuietOnSchedule(s.cfg.n, s.round, s.toBatcher, more);
  }

  // ---------------------------------------------------------------- accepting

  lemma TablesGain(byRound: map<nat, Propose>, byHash: map<Hash, Propose>, p: Propose)
    requires SameTables(byRound, byHash) && p.round !in byRound
    ensures SameTables(byRound[p.round := p], byHash[p.hash := p])
  {
  }

  lemma AuthenticOne(cfg: Config, blocks: map<Hash, Block>, byRound: map<nat, Propose>, p: Propose)
    requires AllAuthentic(cfg, blocks, byRound) && Authentic(cfg, blocks, p.round, p)
    ensures AllAuthentic(cfg, blocks, byRound[p.round := p])
  {
    hide Authentic;
  }

  lemma PassedOnOne(cfg: Config, net: seq<Packet>, log: seq<BatcherMsg>, byRound: map<nat, Propose>, p: Propose)
    requires AllPassedOn(cfg, net, log, byRound) && PassedOn(cfg, net, log, p.round, p)
    ensures AllPassedOn(cfg, net, log, byRound[p.round := p])
  {
    hide PassedOn;
  }

  lemma FreeRound(s: Node)
    requires NodeInv(s)
    ensures s.round !in s.byRound && s.cfg.n > 0 && s.round >= 1 && s.leader == LeaderOf(s.cfg.n, s.round)
    ensures TablesOk(s, s.round)
  {
  }

  lemma RecordPasses(s: Node, p: Propose, b: Block)
    requires NodeInv(s) && p.round == s.round && AtHand(s, p, b) && b.hash == p.hash
    ensures var t := Record(s, p, b);
            && s.net <= t.net && PassedOn(s.cfg, t.net, t.toBatcher, p.round, p)
            && exists more :: t.toBatcher == s.toBatcher + more && RoundsOf(more) == []
  {
    hide NodeInvAt, RoundsOf, LeaderOf, ReadBatch, TablesOk, AtHand;
    FreeRound(s);
    NextLeaderOf(s.cfg.n, s.round);
    RecordTells(s, p, b);
    var got := ReadBatch(s.bs, b.batch).0;
    if got.Some? {
      RoundsOne(Proposed(got.value, p.round));
      assert Record(s, p, b).toBatcher == s.toBatcher + [Proposed(got.value, p.round)];
    } else {
      NoRounds();
      assert Record(s, p, b).toBatcher == s.toBatcher + [];
    }
  }

  lemma RecordChronicle(s: Node, p: Propose, b: Block)
    requires NodeInv(s) && Chronicle(s) && p.round == s.round && AtHand(s, p, b) && b.hash == p.hash
    requires Authentic(s.cfg, s.st.byHash, s.round, p)
    ensures Chronicle(Record(s, p, b)) && s.round in Record(s, p, b).byRound && Record(s, p, b).byRound[s.round] == p
  {
    hide NodeInvAt, RoundsOf, ReadBatch, SameTables, TablesOk, AtHand, AllAuthentic, AllPassedOn, OnSchedule, PassedOn,
      Authentic, Send;
    var t := Record(s, p, b);
    FreeRound(s);
    RecordPasses(s, p, b);
    var more :| t.toBatcher == s.toBatcher + more && RoundsOf(more) == [];
    TablesGain(s.byRound, s.byHash, p);
    AuthenticOne(s.cfg, s.st.byHash, s.byRound, p);
    PassedOnGrows(s.cfg, s.net, t.net, s.toBatcher, t.toBatcher, s.byRound);
    PassedOnOne(s.cfg, t.net, t.toBatcher, s.byRound, p);
    QuietOnSchedule(s.cfg.n, s.round, s.toBatcher, more);
  }

  lemma NextScheduled(n: nat, round: nat, log: seq<BatcherMsg>)
    requires OnSchedule(n, round, log) && round >= 1
    ensures OnSchedule(n, round + 1, log + [NewRound(LeaderOf(n, round + 1), round + 1)])
  {
    var m := NewRound(LeaderOf(n, round + 1), round + 1);
    hide RoundsOf, LeaderOf;
    RoundsOne(m);
    RoundsConcat(log, [m]);
  }

  lemma UpdateChronicle(s: Node, b: Block)
    requires Chronicle(s) && s.cfg.n > 0 && s.round >= 1 && s.leader == LeaderOf(s.cfg.n, s.round)
    requires s.round in s.byRound && s.byRound[s.round].hash == b.hash
    ensures Chronicle(UpdateRound(s.(lastSeen := b)))
  {
    hide AllAuthentic, AllPassedOn, OnSchedule, SameTables, LeaderOf;
    NextLeaderOf(s.cfg.n, s.round);
    var m := NewRound(LeaderOf(s.cfg.n, s.round + 1), s.round + 1);
    NextScheduled(s.cfg.n, s.round, s.toBatcher);
    PassedOnGrows(s.cfg, s.net, s.net, s.toBatcher, s.toBatcher + [m], s.byRound);
  }

  lemma CommitChronicle(s: Node)
    requires NodeInvAt(s, s.round + 1) && !s.halted && Chronicle(s)
    ensures Chronicle(CommitIfDue(s))
  {
    hide NodeInvAt, Chronicle, DoCommit, WalkBack, RoundsOf, MissesAncestor;
    CommitIfDueKeeps(s);
    if s.round > s.cfg.f && !DoCommit(s).halted {
      DoCommitIs(s);
      var newly := WalkBack(s.st, s.byRound[s.round - s.cfg.f].hash).newly;
      NoticesNameNoRound(newly);
      SameChronicle(s, CommitIfDue(s), NoticesOf(newly));
    } else {
      NoRounds();
      SameChronicle(s, CommitIfDue(s), []);
    }
  }

  /** Accepting a proposal of the round's leader puts it on record. */
  lemma OnProposalChronicle(s: Node, p: Propose, b: Block)
    requires NodeInv(s) && !s.halted && Chronicle(s) && p.round == s.round && AtHand(s, p, b) && b.hash == p.hash
    requires Authentic(s.cfg, s.st.byHash, s.round, p)
    ensures Chronicle(OnProposal(s, p, b))
  {
    hide NodeInvAt, Chronicle, Record, CommitIfDue, AtHand, Authentic, Equivocates, LeaderOf, TablesOk;
    if !Equivocates(s.st, b) {
      FreeRound(s);
      RecordTables(s, p, b);
      RecordChronicle(s, p, b);
      CommitChronicle(Record(s, p, b));
      if !CommitIfDue(Record(s, p, b)).halted {
        UpdateChronicle(CommitIfDue(Record(s, p, b)), b);
      }
    }
  }

  /** The batch read for a stored block is the one its hash names. */
  lemma RecordTells(s: Node, p: Propose, b: Block)
    requires NodeInv(s) && AtHand(s, p, b) && b.hash == p.hash
    ensures ReadBatch(s.bs, b.batch).0 ==
            if p.hash.Digest? && p.hash.batch.BatchDigest? then Some(p.hash.batch.payload) else None
  {
    hide EmissionInv, ParkedOk, FutureOk, PendingInv, AcceptedOk, ReadBatch;
    RecordReads(s, b);
    StoredPrev(s.st, p.hash);
    assert BatchOk(s.bs, b);
  }

  // ---------------------------------------------------------------- delivery

  lemma AcceptableIsAuthentic(s: Node, p: Propose, b: Block)
    requires NodeInv(s) && AtHand(s, p, b) && p.round == s.round && Acceptable(s, p, b)
    ensures Authentic(s.cfg, s.st.byHash, s.round, p)
  {
    hide TablesOk;
  }

  lemma QuietChronicle(s: Node, t: Node)
    requires Chronicle(s) && t.cfg == s.cfg && t.round == s.round && t.byRound == s.byRound && t.byHash == s.byHash
    requires t.lastSeen == s.lastSeen && s.net <= t.net && t.toBatcher == s.toBatcher && t.st == s.st
    ensures Chronicle(t)
  {
    hide Chronicle;
    NoRounds();
    assert s.toBatcher + [] == s.toBatcher;
    SameChronicle(s, t, []);
  }

  lemma TryReceiveChronicle(s: Node, p: Propose, b: Block, from: Replica)
    requires NodeInv(s) && !s.halted && Chronicle(s) && AtHand(s, p, b)
    ensures Chronicle(TryReceive(s, p, b, from))
  {
    hide NodeInv, Chronicle, OnProposal, AtHand;
    if s.round == p.round && Acceptable(s, p, b) {
      AcceptableIsAuthentic(s, p, b);
      OnProposalChronicle(s, p, b);
    } else {
      QuietChronicle(s, TryReceive(s, p, b, from));
    }
  }

  lemma {:induction false} DrainChronicle(s: Node, h: Hash, sender: Replica)
    requires NodeInv(s) && !s.halted && Chronicle(s) && h in s.st.byHash
    ensures Chronicle(DrainParked(s, h, sender))
    decreases |s.parked|
  {
    hide NodeInv, Chronicle, TryReceive, AtHand, StuckAtCommit;
    if h in s.parked {
      var p := s.parked[h];
      var s1 := s.(parked := s.parked - {h});
      assert s.parked.Keys == s1.parked.Keys + {h};
      UnparkKeeps(s, h);
      QuietChronicle(s, s1);
      TryReceiveKeeps(s1, p, s.st.byHash[p.hash], sender);
      TryReceiveChronicle(s1, p, s.st.byHash[p.hash], sender);
      var s2 := TryReceive(s1, p, s.st.byHash[p.hash], sender);
      if !s2.halted {
        DrainChronicle(s2, p.hash, sender);
      } else {
        assert DrainParked(s2, p.hash, sender) == s2;
      }
    }
  }

  lemma StoreChronicle(s: Node, b: Block)
    requires NodeInv(s) && Chronicle(s) && Storable(b)
    ensures Chronicle(s.(st := AddDelivered(s.st, b)))
  {
    hide Chronicle, BatchesOk, ParkedOk, FutureOk, AcceptedOk, EmissionInv, PendingInv, Storable, IndexOk;
    StoredAgain(s.st, b);
    NoRounds();
    assert s.toBatcher + [] == s.toBatcher;
    SameChronicle(s, s.(st := AddDelivered(s.st, b)), []);
  }

  lemma ResolveChronicle(s: Node, sender: Replica, p: Propose, b: Block)
    requires NodeInv(s) && !s.halted && Chronicle(s) && Storable(b) && BatchOk(s.bs, b) && b.hash == p.hash
    ensures Chronicle(Resolve(s, sender, p, b))
  {
    hide NodeInv, Chronicle, DrainParked, TryReceive, BatchOk, StuckAtCommit;
    var s1 := s.(st := AddDelivered(s.st, b));
    StoreKeeps(s, b);
    StoreChronicle(s, b);
    if b.header.prev !in s.st.byHash {
      QuietChronicle(s1, Resolve(s, sender, p, b));
    } else {
      TryReceiveKeeps(s1, p, b, sender);
      TryReceiveChronicle(s1, p, b, sender);
      var s2 := TryReceive(s1, p, b, sender);
      if !s2.halted {
        var s3 := s2.(waiting := s2.waiting - {p.hash});
        ForgetWaitingKeeps(s2, s2.waiting - {p.hash});
        QuietChronicle(s2, s3);
        DrainChronicle(s3, p.hash, sender);
      }
    }
  }

  lemma OnFullChronicle(s: Node, sender: Replica, p: Propose, b: Block, batch: Batch)
    requires NodeInv(s) && !s.halted && Chronicle(s) && Finalized(b) && b.sig == UNSIGNED
    ensures Chronicle(OnFullProposal(s, sender, p, b, batch))
  {
    hide NodeInv, Chronicle, Resolve;
    if p.round !in s.byRound && b.hash == p.hash && BatchMatches(b, batch) {
      PersistKeepsNode(s, batch);
      QuietChronicle(s, s.(bs := Persist(s.bs, b.batch, batch)));
      ResolveChronicle(s.(bs := Persist(s.bs, b.batch, batch)), sender, p, b);
    }
  }

  lemma OnBareChronicle(s: Node, sender: Replica, p: Propose)
    requires NodeInv(s) && !s.halted && Chronicle(s)
    ensures Chronicle(OnBareProposal(s, sender, p))
  {
    hide NodeInv, Chronicle, Resolve, Storable, BatchOk;
    if p.round !in s.byRound {
      if p.hash in s.st.byHash {
        StoredIsStorable(s, p.hash);
        ResolveChronicle(s, sender, p, s.st.byHash[p.hash]);
      } else {
        QuietChronicle(s, OnBareProposal(s, sender, p));
      }
    }
  }

  lemma HandleOtherChronicle(s: Node, m: Msg)
    requires Chronicle(s)
    ensures Chronicle(HandleOther(s, m))
  {
    hide Chronicle, ReadBatch;
    QuietChronicle(s, HandleOther(s, m));
  }

  // ---------------------------------------------------------------- the reactor

  lemma {:induction false} HandleFullChronicle(s: Node, q: seq<Full>)
    requires Sound(s) && Chronicle(s) && forall i :: 0 <= i < |q| ==> Finalized(q[i].2) && q[i].2.sig == UNSIGNED
    ensures Chronicle(HandleFull(s, q))
    decreases |q|
  {
    hide NodeInv, Chronicle, OnFullProposal, StuckAtCommit;
    if q != [] && !s.halted {
      OnFullKeeps(s, q[0].0, q[0].1, q[0].2, q[0].3);
      OnFullChronicle(s, q[0].0, q[0].1, q[0].2, q[0].3);
      HandleFullChronicle(OnFullProposal(s, q[0].0, q[0].1, q[0].2, q[0].3), q[1..]);
    }
  }

  lemma {:induction false} HandleBareChronicle(s: Node, q: seq<(Replica, Propose)>)
    requires Sound(s) && Chronicle(s)
    ensures Chronicle(HandleBare(s, q))
    decreases |q|
  {
    hide NodeInv, Chronicle, OnBareProposal, StuckAtCommit;
    if q != [] && !s.halted {
      OnBareKeeps(s, q[0].0, q[0].1);
      OnBareChronicle(s, q[0].0, q[0].1);
      HandleBareChronicle(OnBareProposal(s, q[0].0, q[0].1), q[1..]);
    }
  }

  lemma {:induction false} HandleOthersChronicle(s: Node, q: seq<Msg>)
    requires Chronicle(s)
    ensures Chronicle(HandleOthers(s, q))
    decreases |q|
  {
    hide Chronicle, HandleOther;
    if q != [] && !s.halted {
      HandleOtherChronicle(s, q[0]);
      HandleOthersChronicle(HandleOther(s, q[0]), q[1..]);
    }
  }

  lemma {:induction false} ReplayChronicle(s: Node)
    requires Inv(s) && Chronicle(s)
    ensures Chronicle(Replay(s))
    decreases Buffered(s)
  {
    hide NodeInv, Chronicle, OnBareProposal, Buffered, StuckAtCommit;
    if !s.halted && s.round in s.future {
      ReplayOne(s);
      var s1 := s.(future := s.future - {s.round});
      TakeFutureKeeps(s);
      QuietChronicle(s, s1);
      OnBareChronicle(s1, s.future[s.round].0, s.future[s.round].1);
      ReplayChronicle(OnBareProposal(s1, s.future[s.round].0, s.future[s.round].1));
    }
  }

  lemma DoProposeChronicle(s: Node, batch: Batch)
    requires NodeInv(s) && !s.halted && Chronicle(s) && BatchDigest(batch) in s.bs.cache && s.leader == s.cfg.me
    ensures Chronicle(DoPropose(s, batch))
  {
    hide NodeInv, Chronicle, OnProposal, RoundsOf, LeaderOf, TablesOk;
    var b := NewBlock(s.lastSeen, s.cfg.me, batch, UNSIGNED);
    var p := Propose(b.hash, s.round, Sig(s.cfg.me, AuthBy(s.cfg.me, OfBlock(b.hash))));
    var sent := Multicast(s, NewProposal(p, b, batch));
    var told := sent.(toBatcher := s.toBatcher + [Proposed(batch, s.round)]);
    FreeRound(s);
    SendKeeps(s, 0, NewProposal(p, b, batch));
    ToldKeeps(sent, Proposed(batch, s.round));
    RoundsOne(Proposed(batch, s.round));
    SameChronicle(s, told, [Proposed(batch, s.round)]);
    HeadStored(s);
    StoreKeeps(told, b);
    StoreChronicle(told, b);
    OnProposalChronicle(told.(st := AddDelivered(s.st, b)), p, b);
  }

  lemma {:induction false} ProposeAllChronicle(s: Node, q: seq<(BatchHash, Batch)>)
    requires Inv(s) && Chronicle(s) && PendingInv(s.bs, q)
    ensures Chronicle(ProposeAll(s, q))
    decreases |q|
  {
    hide NodeInv, Chronicle, DoPropose, StuckAtCommit;
    if s.halted || q == [] || s.leader != s.cfg.me {
      QuietChronicle(s, s.(pending := q));
    } else {
      DoProposeKeeps(s, q[0].1);
      DoProposeChronicle(s, q[0].1);
      ProposeAllChronicle(DoPropose(s, q[0].1), q[1..]);
    }
  }

  lemma ProcessChronicle(s: Node, ms: seq<Msg>)
    requires Sound(s) && Chronicle(s) && forall i :: 0 <= i < |ms| ==> Decoded(ms[i])
    ensures Chronicle(ProcessMessages(s, ms))
  {
    hide NodeInv, StuckAtCommit, Chronicle, HasBlame, HandleFull, HandleBare, HandleOthers, Replay, BufferedFull,
      BufferedBare, BufferedOthers;
    BufferedOk(ms);
    var s1 := HandleFull(s, BufferedFull(ms));
    HandleFullKeeps(s, BufferedFull(ms));
    HandleFullChronicle(s, BufferedFull(ms));
    var s2 := HandleBare(s1, BufferedBare(ms));
    HandleBareKeeps(s1, BufferedBare(ms));
    HandleBareChronicle(s1, BufferedBare(ms));
    HandleOthersKeeps(s2, BufferedOthers(ms));
    HandleOthersChronicle(s2, BufferedOthers(ms));
    ReplayChronicle(HandleOthers(s2, BufferedOthers(ms)));
  }

  lemma ReactChronicle(s: Node, e: Event)
    requires NodeInv(s) && !s.halted && Chronicle(s) && EventDecoded(e)
    ensures Chronicle(React(s, e))
  {
    hide NodeInv, Chronicle, ProcessMessages, ProposeAll, Persist, StuckAtCommit, BlameHandled;
    var t := Absorb(s, e);
    match e {
      case Received(ms) =>
        ProcessKeeps(s, ms);
        ProcessChronicle(s, ms);
      case Sealed(batch) =>
        PersistKeepsNode(s, batch);
        QuietChronicle(s, t);
      case Idle =>
    }
    PendingIsCached(t);
    ProposeAllChronicle(t, t.pending);
  }

  lemma {:induction false} RunChronicle(cfg: Config, store: map<BatchHash, Batch>, es: seq<Event>)
    requires RunOk(cfg, store, es)
    ensures Chronicle(RunNode(Boot(cfg, store), es))
  {
    hide NodeInv, Chronicle, React, StuckAtCommit, Boot, SawBlame;
    if es == [] {
      BootChronicle(cfg, store);
    } else {
      var s, e := RunNode(Boot(cfg, store), es[..|es| - 1]), es[|es| - 1];
      RunChronicle(cfg, store, es[..|es| - 1]);
      RunHaltsIff(cfg, store, es[..|es| - 1]);
      if s.halted {
        HaltedReact(s, e);
      } else {
        ReactChronicle(s, e);
      }
    }
  }

  // ---------------------------------------------------------------- over runs

  /** Over any run with arbitrary messages: the proposal accepted for a round was made, for a block of its own, by that
      round's leader, and is signed by it unless it is this replica's own. */
  lemma {:induction false} AcceptedAreSigned(cfg: Config, store: map<BatchHash, Batch>, es: seq<Event>, r: nat)
    requires RunOk(cfg, store, es) && r in RunNode(Boot(cfg, store), es).byRound
    ensures r >= 1 && cfg.n > 0
    ensures var s := RunNode(Boot(cfg, store), es);
            var leader := LeaderOf(cfg.n, r);
            var p := s.byRound[r];
            && p.round == r && p.sig.origin == leader && p.hash in s.st.byHash
            && s.st.byHash[p.hash].header.author == leader
            && (leader == cfg.me || p.sig.auth == AuthBy(leader, OfBlock(p.hash)))
  {
    hide RunNode, LeaderOf, AllPassedOn, SameTables, HeadIsLast, OnSchedule;
    RunChronicle(cfg, store, es);
    var s := RunNode(Boot(cfg, store), es);
    assert Authentic(s.cfg, s.st.byHash, r, s.byRound[r]);
  }

  /** Over any run: the next leader was sent every accepted proposal, the batcher was told every accepted batch and
      every round up to this one exactly once and in order, and the head is the block accepted last. */
  lemma {:induction false} AcceptedArePassedOn(cfg: Config, store: map<BatchHash, Batch>, es: seq<Event>)
    requires RunOk(cfg, store, es)
    ensures var s := RunNode(Boot(cfg, store), es);
            && (forall r :: r in s.byRound ==> PassedOn(cfg, s.net, s.toBatcher, r, s.byRound[r]))
            && SameTables(s.byRound, s.byHash)
            && s.lastSeen.hash ==
               (if s.round > 1 && s.round - 1 in s.byRound then s.byRound[s.round - 1].hash else EmptyHash)
            && cfg.n > 0 && RoundsOf(s.toBatcher) == Schedule(cfg.n, s.round)
  {
    hide RunNode, PassedOn, AllAuthentic, SameTables, RoundsOf, Schedule;
    RunChronicle(cfg, store, es);
  }

  // ---------------------------------------------------------------- single steps

  /** A stored block's proposal of the current round is accepted under exactly these conditions. */
  lemma AcceptsIff(s: Node, p: Propose, b: Block, from: Replica)
    requires NodeInv(s) && !s.halted && AtHand(s, p, b) && p.round == s.round
    ensures s.cfg.n > 0 && s.round >= 1
    ensures p.round in TryReceive(s, p, b, from).byRound <==>
            && b.hash == p.hash && p.sig.origin == LeaderOf(s.cfg.n, s.round)
            && b.header.author == LeaderOf(s.cfg.n, s.round)
            && (p.sig.origin == s.cfg.me || p.sig.auth == AuthBy(p.sig.origin, OfBlock(p.hash)))
            && (b.header.height in s.st.byHeight && s.st.byHeight[b.header.height].header.author == b.header.author ==>
                s.st.byHeight[b.header.height].hash == b.hash)
  {
    hide NodeInvAt, TablesOk, CommitIfDue, LeaderOf, ReadBatch;
    FreeRound(s);
  }

  /** A request for an accepted proposal is answered to its sender with that proposal, its block and its batch;
      any other request is not. */
  lemma AnswersRequest(s: Node, from: Replica, id: nat, h: Hash)
    requires NodeInv(s) && !s.halted && from != s.cfg.me
    ensures h in s.byHash && h != EmptyHash ==>
            && h in s.st.byHash && s.st.byHash[h].hash == h && s.byHash[h].hash == h
            && h.Digest? && h.batch.BatchDigest?
            && HandleRequest(s, from, id, h).net ==
               s.net + [To(from, Response(s.cfg.me, id, s.byHash[h], s.st.byHash[h], h.batch.payload))]
    ensures h !in s.byHash ==> HandleRequest(s, from, id, h).net == s.net
  {
    hide EmissionInv, ParkedOk, FutureOk, PendingInv;
    if h in s.byHash && h != EmptyHash {
      StoredPrev(s.st, h);
      RecordReads(s, s.st.byHash[h]);
      assert BatchOk(s.bs, s.st.byHash[h]);
    }
  }

  /** What is missing is asked for at the sender: the parent of a block that came, or the block of a bare proposal. */
  lemma AsksSender(s: Node, sender: Replica, p: Propose, b: Block)
    requires NodeInv(s) && !s.halted && sender != s.cfg.me && p.round !in s.byRound
    ensures b.header.prev !in s.st.byHash ==>
            && Resolve(s, sender, p, b).net == s.net + [To(sender, Request(s.cfg.me, 0, b.header.prev))]
            && b.header.prev in Resolve(s, sender, p, b).parked && Resolve(s, sender, p, b).parked[b.header.prev] == p
            && b.hash in Resolve(s, sender, p, b).st.byHash
    ensures p.hash !in s.st.byHash ==>
            && OnBareProposal(s, sender, p).net == s.net + [To(sender, Request(s.cfg.me, 0, p.hash))]
            && p.hash in OnBareProposal(s, sender, p).waiting && OnBareProposal(s, sender, p).waiting[p.hash] == p
  {
    hide NodeInv, TryReceive, DrainParked;
  }

  /** Nothing is sent to oneself; anything else goes out once, to whom it is for. */
  lemma SendsElsewhere(s: Node, to: Replica, m: Msg)
    ensures Send(s, to, m) == s <==> to == s.cfg.me
    ensures to != s.cfg.me ==> Send(s, to, m).net == s.net + [To(to, m)]
  {
    assert |s.net + [To(to, m)]| == |s.net| + 1;
  }

  /** A proposal whose parent is stored no longer waits for its block; nothing else stops waiting. */
  lemma NoLongerWaits(s: Node, sender: Replica, p: Propose, b: Block)
    requires b.header.prev in s.st.byHash && !Resolve(s, sender, p, b).halted
    ensures forall h :: h in Resolve(s, sender, p, b).waiting <==> h in s.waiting && h != p.hash
  {
    hide TryReceive, DrainParked;
  }

  // ---------------------------------------------------------------- when a replica proposes

  lemma {:induction false} ProposeAllSettles(s: Node, q: seq<(BatchHash, Batch)>)
    ensures var t := ProposeAll(s, q); t.halted || t.pending == [] || t.leader != t.cfg.me
    decreases |q|
  {
    hide DoPropose;
    if q != [] && !s.halted && s.leader == s.cfg.me {
      ProposeAllSettles(DoPropose(s, q[0].1), q[1..]);
    }
  }

  lemma BootPending(cfg: Config, store: map<BatchHash, Batch>)
    ensures Boot(cfg, store).pending == []
  {
  }

  /** Over any run a replica that still runs holds back no batch in a round it leads. */
  lemma {:induction false} NoProposalOwed(cfg: Config, store: map<BatchHash, Batch>, es: seq<Event>)
    requires RunOk(cfg, store, es)
    ensures var s := RunNode(Boot(cfg, store), es); s.halted || s.pending == [] || s.leader != cfg.me
  {
    hide Absorb, ProposeAll;
    if es == [] {
      BootPending(cfg, store);
    } else {
      var s, e := RunNode(Boot(cfg, store), es[..|es| - 1]), es[|es| - 1];
      ProposeAllSettles(Absorb(s, e), Absorb(s, e).pending);
    }
  }
}
