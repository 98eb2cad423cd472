/**
 Agreement in Apollo.  Any number of replicas follow the code, may stop at any
 point, and talk over a network that delays, drops, duplicates and reorders.

 The proof carries one history that no replica sees: the chain `c` of all
 proposed blocks, genesis first, the block of round r at index r.  Everything a
 replica holds is a piece of it.
 */
module ApolloAgreement {
  import opened Transactions
  import opened BatcherSpec
  import opened Blocks
  import opened Chains
  import opened ApolloCore
  import opened ApolloBuffers

  // ---------------------------------------------------------------- the history

  /** One chain, the block of round r made by the leader of round r. */
  ghost predicate HistoryOk(n: nat, c: seq<Block>) {
    && n > 0 && ChainOk(c)
    && forall r :: 1 <= r < |c| ==> c[r].header.author == LeaderOf(n, r) && c[r].sig == UNSIGNED
  }

  /** The proposal that announces block `b` in round `r`. */
  function ProposeOf(b: Block, r: nat): Propose {
    Propose(b.hash, r, Sig(b.header.author, AuthBy(b.header.author, OfBlock(b.hash))))
  }

  predicate HonestProp(c: seq<Block>, p: Propose) {
    1 <= p.round < |c| && p == ProposeOf(c[p.round], p.round)
  }

  predicate HonestMsg(c: seq<Block>, m: Msg) {
    match m
    case NewProposal(p, b, batch) => HonestProp(c, p) && b == c[p.round] && BatchMatches(b, batch)
    case Response(_, _, p, b, batch) => HonestProp(c, p) && b == c[p.round] && BatchMatches(b, batch)
    case Relay(_, p) => HonestProp(c, p)
    case Request(_, _, _) => true
    case Blame(_) => false
  }

  /** Every buffered or accepted proposal is one of the history. */
  ghost predicate HonestBuffers(c: seq<Block>, parked: map<Hash, Propose>, future: map<nat, (Replica, Propose)>,
      byHash: map<Hash, Propose>) {
    && (forall h :: h in parked ==> HonestProp(c, parked[h]))
    && (forall r :: r in future ==> HonestProp(c, future[r].1))
    && (forall h :: h in byHash ==> HonestProp(c, byHash[h]))
  }

  ghost predicate HonestStore(c: seq<Block>, st: Storage) {
    forall h :: h in st.byHash ==> HonestBlock(c, st.byHash[h])
  }

  ghost predicate HonestNet(c: seq<Block>, net: seq<Packet>) {
    forall i :: 0 <= i < |net| ==> HonestMsg(c, net[i].msg)
  }

  /** How many blocks are committed on entry to a round. */
  function CommitCount(round: nat, f: nat): nat {
    if round > f + 1 then round - f else 0
  }

  /** The rounds below `next` were accepted in order: each its own block of the history. */
  ghost predicate Accepted(c: seq<Block>, byRound: map<nat, Propose>, next: nat) {
    next <= |c| && forall r :: 1 <= r < next ==> r in byRound && byRound[r] == ProposeOf(c[r], r)
  }

  ghost predicate Progress(s: Node, c: seq<Block>) {
    && s.round >= 1 && Accepted(c, s.byRound, s.round)
    && s.lastSeen == c[s.round - 1]
    && CommitCount(s.round, s.cfg.f) <= |c| && s.emitted == c[..CommitCount(s.round, s.cfg.f)]
    && LogInv(s.cfg.n, s.toBatcher, s.round, c)
  }

  ghost predicate Honest(s: Node, c: seq<Block>) {
    && HonestStore(c, s.st) && HonestBuffers(c, s.parked, s.future, s.byHash) && HonestNet(c, s.net)
    && Progress(s, c)
  }

  ghost predicate Good(s: Node, c: seq<Block>) {
    !s.halted && NodeInv(s) && Honest(s, c) && HistoryOk(s.cfg.n, c)
  }

  /** The message that announces round `r` of the history. */
  function Announce(c: seq<Block>, r: nat): Msg
    requires r < |c|
  {
    NewProposal(ProposeOf(c[r], r), c[r], PayloadAt(c, r))
  }

  /** A replica is past every round it has proposed in, and has sent that proposal to everybody. */
  ghost predicate Own(s: Node, c: seq<Block>) {
    && s.cfg.n > 0
    && (forall r :: 1 <= r < |c| && LeaderOf(s.cfg.n, r) == s.cfg.me ==> s.round > r)
    && (forall r :: 1 <= r < |c| && LeaderOf(s.cfg.n, r) == s.cfg.me ==> ToAll(Announce(c, r)) in s.net)
  }

  /** One replica leads all rounds from `lo` up to `hi`. */
  ghost predicate LedBy(n: nat, lo: nat, hi: nat, who: Replica) {
    forall r :: lo <= r < hi ==> r >= 1 && n > 0 && LeaderOf(n, r) == who
  }

  // ---------------------------------------------------------------- what the batcher is told

  /** The batches of all rounds below `next` were passed on as proposed. */
  ghost predicate Told(log: seq<BatcherMsg>, next: nat, c: seq<Block>) {
    forall r :: 1 <= r < next ==> Proposed(PayloadAt(c, r), r) in log
  }

  /** Each round is announced once, in order, with its leader, and only after all earlier rounds' batches. */
  ghost predicate LogInv(n: nat, log: seq<BatcherMsg>, round: nat, c: seq<Block>) {
    && n > 0 && log != [] && log[0] == NewRound(0, 1)
    && (forall j :: 0 <= j < |log| ==> !log[j].RolledBack?)
    && (forall j :: 0 <= j < |log| && log[j].NewRound? ==>
          1 <= log[j].round <= round && log[j].leader == LeaderOf(n, log[j].round) && Told(log[..j], log[j].round, c))
    && (forall i, j :: 0 <= i < j < |log| && log[i].NewRound? && log[j].NewRound? ==> log[i].round < log[j].round)
    && Told(log, round, c)
  }

  /** Notices that announce no round may follow. */
  lemma LogQuiet(n: nat, log: seq<BatcherMsg>, m: BatcherMsg, round: nat, c: seq<Block>)
    requires LogInv(n, log, round, c) && !m.NewRound? && !m.RolledBack?
    ensures LogInv(n, log + [m], round, c)
  {
    var all := log + [m];
    forall j | 0 <= j < |all| && all[j].NewRound? ensures Told(all[..j], all[j].round, c) && all[j] == log[j] {
      assert all[..j] == log[..j];
    }
  }

  lemma {:induction false} LogNotices(n: nat, log: seq<BatcherMsg>, blocks: seq<Block>, round: nat, c: seq<Block>)
    requires LogInv(n, log, round, c)
    ensures LogInv(n, log + NoticesOf(blocks), round, c)
  {
    hide LogInv;
    if blocks == [] {
      assert log + NoticesOf(blocks) == log;
    } else {
      var rest := NoticesOf(blocks[..|blocks| - 1]);
      var b := blocks[|blocks| - 1];
      LogNotices(n, log, blocks[..|blocks| - 1], round, c);
      if b.batch.BatchDigest? {
        LogQuiet(n, log + rest, Committed(b.batch.payload, b.header.height), round, c);
        assert log + NoticesOf(blocks) == log + rest + [Committed(b.batch.payload, b.header.height)];
      } else {
        assert NoticesOf(blocks) == rest;
      }
    }
  }

  /** The next round is announced once the current round's batch was passed on. */
  lemma LogAdvances(n: nat, log: seq<BatcherMsg>, round: nat, c: seq<Block>)
    requires LogInv(n, log, round, c) && round >= 1 && Proposed(PayloadAt(c, round), round) in log
    ensures LogInv(n, log + [NewRound(LeaderOf(n, round + 1), round + 1)], round + 1, c)
  {
    var all := log + [NewRound(LeaderOf(n, round + 1), round + 1)];
    assert Told(log, round + 1, c);
    assert all[..|log|] == log;
    forall j | 0 <= j < |log| && all[j].NewRound? ensures Told(all[..j], all[j].round, c) && all[j] == log[j] {
      assert all[..j] == log[..j];
    }
  }

  lemma LogGrows(n: nat, log: seq<BatcherMsg>, round: nat, c: seq<Block>, c': seq<Block>)
    requires LogInv(n, log, round, c) && c <= c' && round <= |c|
    ensures LogInv(n, log, round, c')
  {
    assert forall r :: 0 <= r < |c| ==> PayloadAt(c', r) == PayloadAt(c, r);
    forall j | 0 <= j < |log| && log[j].NewRound? ensures Told(log[..j], log[j].round, c') {
      assert Told(log[..j], log[j].round, c);
    }
  }

  // ---------------------------------------------------------------- the history only grows

  lemma HonestGrows(s: Node, c: seq<Block>, c': seq<Block>)
    requires Honest(s, c) && c <= c'
    ensures Honest(s, c')
  {
    hide LogInv;
    LogGrows(s.cfg.n, s.toBatcher, s.round, c, c');
    forall i | 0 <= i < |s.net| ensures HonestMsg(c', s.net[i].msg) {
      assert HonestMsg(c, s.net[i].msg);
    }
  }

  // ---------------------------------------------------------------- commit

  lemma {:induction false} FreshOnChain(c: seq<Block>, m: nat, k: nat)
    requires ChainOk(c) && m <= k < |c|
    ensures Fresh(SetOf(HashesOf(c[..m])), c[k].hash) == HashesOf(c[m..k + 1])
    decreases k
  {
    var committed := SetOf(HashesOf(c[..m]));
    assert c[k].hash !in committed by {
      assert forall i :: 0 <= i < m ==> HashesOf(c[..m])[i] == c[i].hash && (c[i].hash == c[k].hash ==> i == k) by {
        forall i | 0 <= i < m ensures c[i].hash != c[k].hash { ChainDiffer(c, i, k); }
      }
    }
    if k > 0 {
      assert Finalized(c[k]) && c[k].header.prev == c[k - 1].hash;
      if k == m {
        assert HashesOf(c[..m])[k - 1] == c[k - 1].hash;
        assert HashesOf(c[m..k + 1]) == [c[k].hash];
      } else {
        FreshOnChain(c, m, k - 1);
        assert c[m..k + 1] == c[m..k] + [c[k]];
        assert HashesOf(c[m..k + 1]) == HashesOf(c[m..k]) + [c[k].hash];
      }
    } else {
      assert HashesOf(c[m..k + 1]) == [EmptyHash];
    }
  }

  /** A store that holds only the chain gives back the chain's own blocks. */
  lemma StoredOnChain(c: seq<Block>, st: Storage, k: nat)
    requires ChainOk(c) && HonestStore(c, st) && StorageOk(st) && k < |c| && c[k].hash in st.byHash
    ensures st.byHash[c[k].hash] == c[k]
  {
    var b := st.byHash[c[k].hash];
    assert HonestBlock(c, b);
    ChainDistinct(c, b.header.height, k);
  }

  lemma SameBlocks(c: seq<Block>, st: Storage, newly: seq<Block>, lo: nat, hi: nat)
    requires ChainOk(c) && HonestStore(c, st) && StorageOk(st) && lo <= hi <= |c|
    requires HashesOf(newly) == HashesOf(c[lo..hi])
    requires forall i :: 0 <= i < |newly| ==> newly[i].hash in st.byHash && newly[i] == st.byHash[newly[i].hash]
    ensures newly == c[lo..hi]
  {
    assert |newly| == |HashesOf(newly)| == |c[lo..hi]|;
    forall i | 0 <= i < |newly| ensures newly[i] == c[lo + i] {
      assert HashesOf(newly)[i] == HashesOf(c[lo..hi])[i] == c[lo + i].hash;
      StoredOnChain(c, st, lo + i);
    }
  }

  /** On entry to the commit of round r, with everything up to r accepted. */
  ghost predicate Ready(s: Node, c: seq<Block>) {
    && !s.halted && NodeInvAt(s, s.round + 1) && HistoryOk(s.cfg.n, c) && HonestStore(c, s.st)
    && Accepted(c, s.byRound, s.round + 1)
    && CommitCount(s.round, s.cfg.f) <= |c| && s.emitted == c[..CommitCount(s.round, s.cfg.f)]
  }

  lemma CommittedSoFar(s: Node)
    requires NodeInvAt(s, s.round + 1)
    ensures s.st.committed == SetOf(HashesOf(s.emitted)) && StorageOk(s.st)
  {
  }

  lemma ChainOf(n: nat, c: seq<Block>)
    requires HistoryOk(n, c)
    ensures ChainOk(c)
  {
  }

  lemma ReadyStored(s: Node, c: seq<Block>)
    requires Ready(s, c)
    ensures forall k :: 0 <= k <= s.round ==> c[k].hash in s.st.byHash
    ensures forall k :: 1 <= k <= s.round ==> k in s.byRound && s.byRound[k].hash == c[k].hash
  {
    hide EmissionInv, ParkedOk, FutureOk, PendingInv, BatchesOk;
  }

  lemma RangeStored(c: seq<Block>, st: Storage, m: nat, k: nat)
    requires m <= k < |c| && forall j :: 0 <= j <= k ==> c[j].hash in st.byHash
    ensures SetOf(HashesOf(c[m..k + 1])) <= st.byHash.Keys
  {
    var hs := HashesOf(c[m..k + 1]);
    assert forall i :: 0 <= i < |hs| ==> hs[i] == c[m + i].hash;
  }

  /** What the commit of the current round is about to walk over. */
  lemma CommitRange(s: Node, c: seq<Block>)
    requires Ready(s, c) && s.round > s.cfg.f
    ensures s.round < |c| && s.round - s.cfg.f in s.byRound &&
            s.byRound[s.round - s.cfg.f].hash == c[s.round - s.cfg.f].hash
    ensures var above := Fresh(s.st.committed, c[s.round - s.cfg.f].hash);
            above == HashesOf(c[CommitCount(s.round, s.cfg.f)..s.round - s.cfg.f + 1]) &&
                SetOf(above) <= s.st.byHash.Keys
  {
    hide NodeInvAt, HistoryOk, ChainOk, Fresh, HonestStore;
    var k, m := s.round - s.cfg.f, CommitCount(s.round, s.cfg.f);
    CommittedSoFar(s);
    ChainOf(s.cfg.n, c);
    ReadyStored(s, c);
    FreshOnChain(c, m, k);
    RangeStored(c, s.st, m, k);
  }

  /** No lookup of the commit walk fails. */
  lemma WalkSucceeds(s: Node, c: seq<Block>)
    requires Ready(s, c) && s.round > s.cfg.f
    ensures !DoCommit(s).halted
  {
    hide NodeInvAt, HistoryOk, Fresh, HonestStore, DoCommit, Accepted;
    CommitRange(s, c);
    CommitHaltsIff(s);
  }

  lemma CommitOnChain(s: Node, c: seq<Block>)
    requires Ready(s, c) && s.round > s.cfg.f
    ensures !DoCommit(s).halted
    ensures DoCommit(s).emitted == c[..CommitCount(s.round + 1, s.cfg.f)]
    ensures DoCommit(s).toBatcher == s.toBatcher + NoticesOf(c[CommitCount(s.round, s.cfg.f)..s.round - s.cfg.f + 1])
    ensures DoCommit(s).st.byHash == s.st.byHash
  {
    hide NodeInvAt, HistoryOk, ChainOk, Fresh, HonestStore, DoCommit, NoticesOf, PayloadsOf, WalkBack, StorageOk,
      Accepted;
    var k, m := s.round - s.cfg.f, CommitCount(s.round, s.cfg.f);
    CommittedSoFar(s);
    ChainOf(s.cfg.n, c);
    WalkSucceeds(s, c);
    CommitRange(s, c);
    DoCommitIs(s);
    var w := WalkBack(s.st, c[k].hash);
    SameBlocks(c, s.st, w.newly, m, k + 1);
    assert c[..m] + c[m..k + 1] == c[..k + 1];
  }

  // ---------------------------------------------------------------- accepting a proposal

  lemma NotEquivocating(s: Node, b: Block, c: seq<Block>)
    requires Good(s, c) && HonestBlock(c, b)
    ensures !Equivocates(s.st, b)
  {
    hide EmissionInv, ParkedOk, FutureOk, PendingInv, BatchesOk, AcceptedOk, LogInv, HonestNet, HonestBuffers;
    var k := b.header.height;
    assert k in s.st.byHeight ==> HonestBlock(c, s.st.byHash[s.st.byHeight[k].hash]);
  }

  lemma RecordTells(s: Node, p: Propose, b: Block, c: seq<Block>)
    requires Good(s, c) && AtHand(s, p, b) && HonestProp(c, p) && p.round == s.round && b == c[p.round]
    ensures Record(s, p, b).toBatcher == s.toBatcher + [Proposed(PayloadAt(c, s.round), s.round)]
  {
    hide EmissionInv, ParkedOk, FutureOk, PendingInv, BatchesOk, AcceptedOk, LogInv, HonestNet, HonestBuffers,
      ReadBatch, IndexOk;
    assert Finalized(b);
    RecordReads(s, b);
  }

  lemma RecordReady(s: Node, p: Propose, b: Block, c: seq<Block>)
    requires Good(s, c) && AtHand(s, p, b) && HonestProp(c, p) && p.round == s.round && b == c[p.round]
    ensures Ready(Record(s, p, b), c)
    ensures LogInv(s.cfg.n, Record(s, p, b).toBatcher, s.round, c)
    ensures Proposed(PayloadAt(c, s.round), s.round) in Record(s, p, b).toBatcher &&
            s.toBatcher <= Record(s, p, b).toBatcher
  {
    hide NodeInvAt, HistoryOk, LogInv, HonestNet, HonestBuffers, HonestStore, ReadBatch;
    HistoryBlock(s.cfg.n, c, p.round);
    RecordTells(s, p, b, c);
    RecordTables(s, p, b);
    LogQuiet(s.cfg.n, s.toBatcher, Proposed(PayloadAt(c, s.round), s.round), s.round, c);
    var t := Record(s, p, b);
    assert t.toBatcher[|s.toBatcher|] == Proposed(PayloadAt(c, s.round), s.round);
  }

  lemma CommitProgress(s: Node, c: seq<Block>)
    requires Ready(s, c) && LogInv(s.cfg.n, s.toBatcher, s.round, c)
    requires Proposed(PayloadAt(c, s.round), s.round) in s.toBatcher
    ensures var t := CommitIfDue(s);
            && !t.halted && t.st.byHash == s.st.byHash && s.toBatcher <= t.toBatcher &&
                t.emitted == c[..CommitCount(s.round + 1, s.cfg.f)]
            && LogInv(s.cfg.n, t.toBatcher, s.round, c) && Proposed(PayloadAt(c, s.round), s.round) in t.toBatcher
  {
    hide NodeInvAt, HistoryOk, LogInv, HonestStore, DoCommit, NoticesOf;
    if s.round > s.cfg.f {
      CommitOnChain(s, c);
      LogNotices(s.cfg.n, s.toBatcher, c[CommitCount(s.round, s.cfg.f)..s.round - s.cfg.f + 1], s.round, c);
    }
  }

  lemma RecordHonest(s: Node, p: Propose, b: Block, c: seq<Block>)
    requires Honest(s, c) && HonestProp(c, p)
    ensures HonestBuffers(c, s.parked, s.future, Record(s, p, b).byHash) && HonestNet(c, Record(s, p, b).net)
    ensures s.net <= Record(s, p, b).net
  {
    hide LogInv, HonestStore, ReadBatch;
  }

  lemma UpdateRoundHonest(s: Node, b: Block, c: seq<Block>)
    requires HonestStore(c, s.st) && HonestBuffers(c, s.parked, s.future, s.byHash) && HonestNet(c, s.net)
    requires s.round >= 1 && Accepted(c, s.byRound, s.round + 1) && b == c[s.round]
    requires s.cfg.n > 0 && s.leader == LeaderOf(s.cfg.n, s.round)
    requires CommitCount(s.round + 1, s.cfg.f) <= |c| && s.emitted == c[..CommitCount(s.round + 1, s.cfg.f)]
    requires LogInv(s.cfg.n, s.toBatcher, s.round, c) && Proposed(PayloadAt(c, s.round), s.round) in s.toBatcher
    ensures Honest(UpdateRound(s.(lastSeen := b)), c)
  {
    hide HonestStore, HonestBuffers, HonestNet, LogInv, LeaderOf;
    NextLeaderOf(s.cfg.n, s.round);
    LogAdvances(s.cfg.n, s.toBatcher, s.round, c);
  }

  /** The proposal of the current round is accepted and moves the replica on by one round. */
  lemma OnProposalGood(s: Node, p: Propose, b: Block, c: seq<Block>)
    requires Good(s, c) && AtHand(s, p, b) && HonestProp(c, p) && p.round == s.round && b == c[p.round]
    ensures Good(OnProposal(s, p, b), c) && OnProposal(s, p, b).round == s.round + 1
    ensures s.toBatcher <= OnProposal(s, p, b).toBatcher && s.net <= OnProposal(s, p, b).net
  {
    hide NodeInvAt, HonestStore, HonestBuffers, HonestNet, LogInv, LeaderOf, Record, CommitIfDue, ChainOk, Equivocates;
    HistoryBlock(s.cfg.n, c, p.round);
    NotEquivocating(s, b, c);
    OnProposalKeeps(s, p, b);
    RecordReady(s, p, b, c);
    RecordHonest(s, p, b, c);
    var rec := Record(s, p, b);
    CommitProgress(rec, c);
    LeaderHolds(s);
    SameStore(c, rec.st, CommitIfDue(rec).st);
    UpdateRoundHonest(CommitIfDue(rec), b, c);
  }

  lemma HistoryBlock(n: nat, c: seq<Block>, r: nat)
    requires HistoryOk(n, c) && 1 <= r < |c|
    ensures HonestBlock(c, c[r]) && Finalized(c[r]) && c[r].sig == UNSIGNED && c[r].header.author == LeaderOf(n, r)
    ensures c[r].batch.BatchDigest? && c[r].header.prev == c[r - 1].hash
  {
  }

  lemma LeaderHolds(s: Node)
    requires NodeInv(s)
    ensures s.cfg.n > 0 && s.leader == LeaderOf(s.cfg.n, s.round)
  {
  }

  lemma SameStore(c: seq<Block>, st: Storage, st': Storage)
    requires HonestStore(c, st) && st'.byHash == st.byHash
    ensures HonestStore(c, st')
  {
  }

  // ---------------------------------------------------------------- delivery

  /** What a turn of a replica keeps. */
  ghost predicate Moves(s: Node, t: Node, c: seq<Block>) {
    Good(t, c) && t.cfg == s.cfg && t.round >= s.round && s.toBatcher <= t.toBatcher && s.net <= t.net
  }

  lemma LaterHonest(s: Node, from: Replica, p: Propose, c: seq<Block>)
    requires Honest(s, c) && HonestProp(c, p)
    ensures Honest(s.(future := s.future[p.round := (from, p)]), c)
  {
    hide HonestStore, HonestNet, LogInv;
  }

  lemma TryReceiveGood(s: Node, p: Propose, b: Block, from: Replica, c: seq<Block>)
    requires Good(s, c) && AtHand(s, p, b) && HonestProp(c, p) && b == c[p.round]
    ensures Moves(s, TryReceive(s, p, b, from), c) && TryReceive(s, p, b, from).st.byHash == s.st.byHash
  {
    hide NodeInv, Honest, HistoryOk, OnProposal, AtHand;
    TryReceiveKeeps(s, p, b, from);
    if s.round < p.round {
      LaterHonest(s, from, p, c);
    } else if s.round == p.round && Acceptable(s, p, b) {
      OnProposalGood(s, p, b, c);
    }
  }

  lemma ParkedHonest(s: Node, h: Hash, c: seq<Block>)
    requires Good(s, c) && h in s.parked && h in s.st.byHash
    ensures Good(s.(parked := s.parked - {h}), c)
    ensures var p := s.parked[h];
            HonestProp(c, p) && p.hash in s.st.byHash && s.st.byHash[p.hash] == c[p.round]
            && AtHand(s.(parked := s.parked - {h}), p, c[p.round])
  {
    hide NodeInvAt, HonestStore, HonestNet, LogInv, ChainOk;
    UnparkKeeps(s, h);
    StoredProposal(s, s.parked[h], c);
  }

  /** The stored block of an honest proposal is the block of its round. */
  lemma StoredProposal(s: Node, p: Propose, c: seq<Block>)
    requires Good(s, c) && HonestProp(c, p) && p.hash in s.st.byHash
    ensures s.st.byHash[p.hash] == c[p.round]
  {
    hide EmissionInv, ParkedOk, FutureOk, PendingInv, BatchesOk, AcceptedOk, LogInv, HonestNet, HonestBuffers;
    StoredOnChain(c, s.st, p.round);
  }

  lemma {:induction false} DrainGood(s: Node, h: Hash, sender: Replica, c: seq<Block>)
    requires Good(s, c) && h in s.st.byHash
    ensures Moves(s, DrainParked(s, h, sender), c)
    decreases |s.parked|
  {
    hide NodeInv, Honest, HistoryOk, TryReceive, AtHand, HonestProp;
    if h in s.parked {
      var p := s.parked[h];
      var s1 := s.(parked := s.parked - {h});
      assert s.parked.Keys == s1.parked.Keys + {h};
      ParkedHonest(s, h, c);
      TryReceiveGood(s1, p, s.st.byHash[p.hash], sender, c);
      DrainGood(TryReceive(s1, p, s.st.byHash[p.hash], sender), p.hash, sender, c);
    }
  }

  lemma StoreGood(s: Node, b: Block, c: seq<Block>)
    requires Good(s, c) && HonestBlock(c, b) && Storable(b) && BatchOk(s.bs, b)
    ensures Good(s.(st := AddDelivered(s.st, b)), c)
  {
    hide NodeInvAt, HonestBuffers, HonestNet, LogInv, ChainOk, Storable, BatchOk;
    StoreKeeps(s, b);
  }

  lemma SendHonest(s: Node, to: Replica, m: Msg, c: seq<Block>)
    requires Honest(s, c) && HonestMsg(c, m)
    ensures Honest(Send(s, to, m), c) && Honest(Multicast(s, m), c)
  {
    hide HonestStore, LogInv, HonestBuffers, HonestMsg;
  }

  lemma ParkHonest(s: Node, h: Hash, p: Propose, sender: Replica, c: seq<Block>)
    requires Honest(s, c) && HonestProp(c, p)
    ensures Honest(Send(s.(parked := s.parked[h := p]), sender, Request(s.cfg.me, 0, h)), c)
  {
    hide HonestStore, LogInv, HonestNet, HonestProp, Send;
    SendHonest(s.(parked := s.parked[h := p]), sender, Request(s.cfg.me, 0, h), c);
  }

  lemma ForgetHonest(s: Node, waiting: map<Hash, Propose>, c: seq<Block>)
    requires Honest(s, c)
    ensures Honest(s.(waiting := waiting), c)
  {
    hide HonestStore, LogInv, HonestNet, HonestBuffers;
  }

  lemma ResolveGood(s: Node, sender: Replica, p: Propose, b: Block, c: seq<Block>)
    requires Good(s, c) && HonestProp(c, p) && b == c[p.round] && BatchOk(s.bs, b)
    ensures Moves(s, Resolve(s, sender, p, b), c)
  {
    hide NodeInv, Honest, HistoryOk, DrainParked, TryReceive, BatchOk;
    HistoryBlock(s.cfg.n, c, p.round);
    ResolveKeeps(s, sender, p, b);
    StoreGood(s, b, c);
    var s1 := s.(st := AddDelivered(s.st, b));
    if b.header.prev !in s.st.byHash {
      ParkHonest(s1, b.header.prev, p, sender, c);
    } else {
      TryReceiveGood(s1, p, b, sender, c);
      var s2 := TryReceive(s1, p, b, sender);
      ForgetWaitingKeeps(s2, s2.waiting - {p.hash});
      ForgetHonest(s2, s2.waiting - {p.hash}, c);
      DrainGood(s2.(waiting := s2.waiting - {p.hash}), p.hash, sender, c);
    }
  }

  lemma BatchesHonest(s: Node, bs: Batches, pending: seq<(BatchHash, Batch)>, c: seq<Block>)
    requires Honest(s, c)
    ensures Honest(s.(bs := bs, pending := pending), c)
  {
    hide HonestStore, LogInv, HonestNet, HonestBuffers;
  }

  lemma OnFullGood(s: Node, sender: Replica, p: Propose, b: Block, batch: Batch, c: seq<Block>)
    requires Good(s, c) && HonestProp(c, p) && b == c[p.round]
    ensures Moves(s, OnFullProposal(s, sender, p, b, batch), c)
  {
    hide NodeInv, Honest, HistoryOk, Resolve;
    if p.round !in s.byRound && b.hash == p.hash && BatchMatches(b, batch) {
      PersistKeepsNode(s, batch);
      BatchesHonest(s, Persist(s.bs, b.batch, batch), s.pending, c);
      ResolveGood(s.(bs := Persist(s.bs, b.batch, batch)), sender, p, b, c);
    }
  }

  lemma WaitHonest(s: Node, sender: Replica, p: Propose, c: seq<Block>)
    requires Good(s, c)
    ensures Good(Send(s.(waiting := s.waiting[p.hash := p]), sender, Request(s.cfg.me, 0, p.hash)), c)
  {
    hide NodeInvAt, HonestStore, LogInv, HonestBuffers, ChainOk;
    ForgetWaitingKeeps(s, s.waiting[p.hash := p]);
    SendKeeps(s.(waiting := s.waiting[p.hash := p]), sender, Request(s.cfg.me, 0, p.hash));
  }

  lemma OnBareGood(s: Node, sender: Replica, p: Propose, c: seq<Block>)
    requires Good(s, c) && HonestProp(c, p)
    ensures Moves(s, OnBareProposal(s, sender, p), c)
  {
    hide NodeInv, Honest, HistoryOk, Resolve, BatchOk, Storable;
    if p.round !in s.byRound {
      if p.hash in s.st.byHash {
        StoredProposal(s, p, c);
        StoredIsStorable(s, p.hash);
        ResolveGood(s, sender, p, c[p.round], c);
      } else {
        WaitHonest(s, sender, p, c);
      }
    }
  }

  lemma AskedProposal(s: Node, h: Hash, c: seq<Block>)
    requires Good(s, c) && h in s.byHash && h in s.st.byHash
    ensures HonestProp(c, s.byHash[h]) && s.st.byHash[h] == c[s.byHash[h].round]
  {
    hide EmissionInv, ParkedOk, FutureOk, PendingInv, BatchesOk, LogInv, HonestNet, HonestStore, IndexOk, ChainOk;
    assert s.byHash[h].hash == h;
    StoredProposal(s, s.byHash[h], c);
  }

  lemma HandleRequestGood(s: Node, from: Replica, id: nat, h: Hash, c: seq<Block>)
    requires Good(s, c)
    ensures Moves(s, HandleRequest(s, from, id, h), c)
  {
    hide NodeInv, Honest, HistoryOk, ReadBatch;
    HandleRequestKeeps(s, from, id, h);
    if h in s.byHash && h in s.st.byHash {
      AskedProposal(s, h, c);
      var b := s.st.byHash[h];
      BatchesAddressed(s);
      ReadsAgree(s.bs, b.batch);
      var (got, bs) := ReadBatch(s.bs, b.batch);
      BatchesHonest(s, bs, s.pending, c);
      if got.Some? {
        SendHonest(s.(bs := bs), from, Response(s.cfg.me, id, s.byHash[h], b, got.value), c);
      }
    }
  }

  // ---------------------------------------------------------------- message loops

  lemma {:induction false} HandleFullGood(s: Node, q: seq<Full>, c: seq<Block>)
    requires Good(s, c) && forall i :: 0 <= i < |q| ==> HonestProp(c, q[i].1) && q[i].2 == c[q[i].1.round]
    ensures Moves(s, HandleFull(s, q), c)
    decreases |q|
  {
    hide NodeInv, Honest, HistoryOk, OnFullProposal;
    if q != [] {
      OnFullGood(s, q[0].0, q[0].1, q[0].2, q[0].3, c);
      HandleFullGood(OnFullProposal(s, q[0].0, q[0].1, q[0].2, q[0].3), q[1..], c);
    }
  }

  lemma {:induction false} HandleBareGood(s: Node, q: seq<(Replica, Propose)>, c: seq<Block>)
    requires Good(s, c) && forall i :: 0 <= i < |q| ==> HonestProp(c, q[i].1)
    ensures Moves(s, HandleBare(s, q), c)
    decreases |q|
  {
    hide NodeInv, Honest, HistoryOk, OnBareProposal;
    if q != [] {
      OnBareGood(s, q[0].0, q[0].1, c);
      HandleBareGood(OnBareProposal(s, q[0].0, q[0].1), q[1..], c);
    }
  }

  lemma {:induction false} HandleOthersGood(s: Node, q: seq<Msg>, c: seq<Block>)
    requires Good(s, c) && forall i :: 0 <= i < |q| ==> q[i].Request?
    ensures Moves(s, HandleOthers(s, q), c)
    decreases |q|
  {
    hide NodeInv, Honest, HistoryOk, HandleRequest;
    if q != [] {
      HandleRequestGood(s, q[0].from, q[0].id, q[0].hash, c);
      HandleOthersGood(HandleOther(s, q[0]), q[1..], c);
    }
  }

  lemma TakeFutureGood(s: Node, c: seq<Block>)
    requires Good(s, c) && s.round in s.future
    ensures Good(s.(future := s.future - {s.round}), c) && HonestProp(c, s.future[s.round].1)
  {
    hide NodeInvAt, HonestStore, LogInv, HonestNet, ChainOk;
    TakeFutureKeeps(s);
  }

  lemma {:induction false} ReplayGood(s: Node, c: seq<Block>)
    requires Good(s, c)
    ensures Moves(s, Replay(s), c)
    decreases Buffered(s)
  {
    hide NodeInv, Honest, HistoryOk, OnBareProposal;
    if s.round in s.future {
      ReplayOne(s);
      TakeFutureGood(s, c);
      var s1 := s.(future := s.future - {s.round});
      OnBareGood(s1, s.future[s.round].0, s.future[s.round].1, c);
      ReplayGood(OnBareProposal(s1, s.future[s.round].0, s.future[s.round].1), c);
    }
  }

  lemma {:induction false} BufferedHonest(ms: seq<Msg>, c: seq<Block>)
    requires forall i :: 0 <= i < |ms| ==> HonestMsg(c, ms[i])
    ensures forall i :: 0 <= i < |BufferedFull(ms)| ==>
            HonestProp(c, BufferedFull(ms)[i].1) && BufferedFull(ms)[i].2 == c[BufferedFull(ms)[i].1.round]
    ensures forall i :: 0 <= i < |BufferedBare(ms)| ==> HonestProp(c, BufferedBare(ms)[i].1)
    ensures forall i :: 0 <= i < |BufferedOthers(ms)| ==> BufferedOthers(ms)[i].Request?
  {
    if ms != [] {
      BufferedHonest(ms[..|ms| - 1], c);
      assert HonestMsg(c, ms[|ms| - 1]);
    }
  }

  /** Handling what other replicas sent keeps the replica on the chain. */
  lemma ProcessGood(s: Node, ms: seq<Msg>, c: seq<Block>)
    requires Good(s, c) && forall i :: 0 <= i < |ms| ==> HonestMsg(c, ms[i])
    ensures Moves(s, ProcessMessages(s, ms), c)
  {
    hide NodeInv, Honest, HistoryOk, HandleFull, HandleBare, HandleOthers, Replay, BufferedFull, BufferedBare,
      BufferedOthers;
    BufferedHonest(ms, c);
    var s1 := HandleFull(s, BufferedFull(ms));
    HandleFullGood(s, BufferedFull(ms), c);
    var s2 := HandleBare(s1, BufferedBare(ms));
    HandleBareGood(s1, BufferedBare(ms), c);
    HandleOthersGood(s2, BufferedOthers(ms), c);
    ReplayGood(HandleOthers(s2, BufferedOthers(ms)), c);
  }

  // ---------------------------------------------------------------- proposing

  /** The block the leader makes next. */
  function NextBlock(s: Node, batch: Batch): (b: Block)
    ensures Storable(b) && b.batch == BatchDigest(batch) && b.header.author == s.cfg.me
    ensures b.header.prev == s.lastSeen.hash && b.header.height == s.lastSeen.header.height + 1
  {
    NewBlock(s.lastSeen, s.cfg.me, batch, UNSIGNED)
  }

  /** A leader whose round is not in the history yet is at its end. */
  lemma LeaderIsNext(s: Node, c: seq<Block>)
    requires Good(s, c) && Own(s, c) && s.leader == s.cfg.me
    ensures s.round == |c| && LeaderOf(s.cfg.n, |c|) == s.cfg.me && s.lastSeen == c[|c| - 1]
  {
    hide TablesOk, PendingInv, HonestStore, LogInv, HonestNet, HonestBuffers, ChainOk;
    assert LeaderOf(s.cfg.n, s.round) == s.cfg.me;
  }

  lemma HistoryExtends(n: nat, c: seq<Block>, b: Block)
    requires HistoryOk(n, c) && Storable(b) && b.batch.BatchDigest? && b.header.author == LeaderOf(n, |c|)
    requires b.header.prev == c[|c| - 1].hash && b.header.height == |c|
    ensures HistoryOk(n, c + [b]) && HonestProp(c + [b], ProposeOf(b, |c|)) && HonestBlock(c + [b], b)
  {
    hide LeaderOf;
    ChainExtends(c, b);
    assert b.header.height > 0;
  }

  lemma HeadHeight(n: nat, c: seq<Block>)
    requires HistoryOk(n, c)
    ensures c[|c| - 1].header.height == |c| - 1
  {
  }

  lemma ToldHonest(s: Node, batch: Batch, r: nat, c: seq<Block>)
    requires Honest(s, c)
    ensures Honest(s.(toBatcher := s.toBatcher + [Proposed(batch, r)]), c)
  {
    hide HonestStore, LogInv, HonestNet, HonestBuffers;
    LogQuiet(s.cfg.n, s.toBatcher, Proposed(batch, r), s.round, c);
  }

  /** A new proposal extends the history by one block, on top of the last one. */
  lemma DoProposeGood(s: Node, batch: Batch, c: seq<Block>)
    requires Good(s, c) && Own(s, c) && s.leader == s.cfg.me && BatchDigest(batch) in s.bs.cache
    ensures var c' := c + [NextBlock(s, batch)];
            Good(DoPropose(s, batch), c') && Own(DoPropose(s, batch), c') && DoPropose(s, batch).round == s.round + 1
    ensures s.toBatcher <= DoPropose(s, batch).toBatcher
    ensures |c| >= 1 && LeaderOf(s.cfg.n, |c|) == s.cfg.me && s.round == |c|
  {
    hide NodeInv, Honest, HistoryOk, OnProposal, LeaderOf;
    var b := NextBlock(s, batch);
    var c' := c + [b];
    LeaderIsNext(s, c);
    HeadHeight(s.cfg.n, c);
    HistoryExtends(s.cfg.n, c, b);
    HonestGrows(s, c, c');
    var p := ProposeOf(b, s.round);
    var sent := Multicast(s, NewProposal(p, b, batch));
    SendHonest(s, 0, NewProposal(p, b, batch), c');
    SendKeeps(s, 0, NewProposal(p, b, batch));
    ToldHonest(sent, batch, s.round, c');
    ToldKeeps(sent, Proposed(batch, s.round));
    var told := sent.(toBatcher := s.toBatcher + [Proposed(batch, s.round)]);
    HeadStored(s);
    StoreGood(told, b, c');
    OnProposalGood(told.(st := AddDelivered(s.st, b)), p, b, c');
    assert DoPropose(s, batch).net[|s.net|] == ToAll(Announce(c', |c|));
    OwnExtends(s, DoPropose(s, batch), c, b);
  }

  lemma OwnExtends(s: Node, t: Node, c: seq<Block>, b: Block)
    requires Own(s, c) && t.cfg == s.cfg && t.round >= s.round && t.round > |c| && s.net <= t.net
    requires ToAll(Announce(c + [b], |c|)) in t.net
    ensures Own(t, c + [b])
  {
    hide LeaderOf;
    forall r | 1 <= r < |c| ensures Announce(c + [b], r) == Announce(c, r) {
    }
  }

  lemma {:induction false} ProposeAllGood(s: Node, q: seq<(BatchHash, Batch)>, c: seq<Block>) returns (c': seq<Block>)
    requires Good(s, c) && Own(s, c) && PendingInv(s.bs, q)
    ensures c <= c' && Good(ProposeAll(s, q), c') && Own(ProposeAll(s, q), c')
    ensures LedBy(s.cfg.n, |c|, |c'|, s.cfg.me)
    decreases |q|
  {
    hide NodeInv, Honest, HistoryOk, DoPropose, LeaderOf;
    c' := c;
    if q == [] || s.leader != s.cfg.me {
      PendingKeeps(s, q);
      BatchesHonest(s, s.bs, q, c);
    } else {
      DoProposeGood(s, q[0].1, c);
      DoProposeKeeps(s, q[0].1);
      c' := ProposeAllGood(DoPropose(s, q[0].1), q[1..], c + [NextBlock(s, q[0].1)]);
    }
  }

  lemma OwnLater(s: Node, t: Node, c: seq<Block>)
    requires Own(s, c) && t.cfg == s.cfg && t.round >= s.round && s.net <= t.net
    ensures Own(t, c)
  {
  }

  ghost predicate EventHonest(e: Event, c: seq<Block>) {
    e.Received? ==> forall i :: 0 <= i < |e.msgs| ==> HonestMsg(c, e.msgs[i])
  }

  lemma AbsorbGood(s: Node, e: Event, c: seq<Block>)
    requires Good(s, c) && EventHonest(e, c)
    ensures Moves(s, Absorb(s, e), c)
  {
    hide NodeInv, Honest, HistoryOk, ProcessMessages;
    match e
    case Received(ms) => ProcessGood(s, ms, c);
    case Sealed(batch) =>
      var h := BatchDigest(batch);
      PersistKeepsNode(s, batch);
      BatchesHonest(s, Persist(s.bs, h, batch), s.pending + [(h, batch)], c);
    case Idle =>
  }

  lemma {:induction false} ReactGood(s: Node, e: Event, c: seq<Block>) returns (c': seq<Block>)
    requires Good(s, c) && Own(s, c) && EventHonest(e, c)
    ensures c <= c' && Good(React(s, e), c') && Own(React(s, e), c')
    ensures LedBy(s.cfg.n, |c|, |c'|, s.cfg.me)
  {
    hide NodeInv, Honest, HistoryOk, Own, Absorb, ProposeAll, LedBy, EventHonest;
    AbsorbGood(s, e, c);
    var t := Absorb(s, e);
    OwnLater(s, t, c);
    PendingIsCached(t);
    c' := ProposeAllGood(t, t.pending, c);
  }
}
