/**
 Apollo's buffers, for arbitrary incoming messages: what is parked can be
 resumed, what is kept for a round can be replayed, and the replay loop ends
 with nothing left for the current round.
 */
module ApolloBuffers {
  import opened Transactions
  import opened BatcherSpec
  import opened Blocks
  import opened Chains
  import opened ApolloCore

  // ---------------------------------------------------------------- the invariant

  ghost predicate ConfigOk(cfg: Config) {
    cfg.me < cfg.n
  }

  /** Leaders take turns. */
  function LeaderOf(n: nat, round: nat): (who: Replica)
    requires n > 0 && round >= 1
    ensures who < n
  {
    (round - 1) % n
  }

  /** A block fit for the index: genesis, or well hashed and, as all Apollo blocks, unsigned. */
  predicate Storable(b: Block) {
    b == GENESIS || (Finalized(b) && b.sig == UNSIGNED)
  }

  ghost predicate IndexOk(st: Storage) {
    && StorageOk(st)
    && (forall h :: h in st.byHash ==> st.byHash[h].sig == UNSIGNED)
    && (forall k :: k in st.byHeight ==> st.byHeight[k].header.height == k && st.byHeight[k].hash in st.byHash
                                         && st.byHash[st.byHeight[k].hash] == st.byHeight[k])
  }

  /** Every parked child's block is stored, and the key it is parked under is that block's parent. */
  ghost predicate ParkedOk(st: Storage, parked: map<Hash, Propose>) {
    forall h :: h in parked ==> parked[h].hash in st.byHash && Prev(parked[h].hash) == h
  }

  /** Every proposal kept for a later round sits under that round, with block and parent stored. */
  ghost predicate FutureOk(st: Storage, future: map<nat, (Replica, Propose)>) {
    forall r :: r in future ==>
        future[r].1.round == r && future[r].1.hash in st.byHash && Prev(future[r].1.hash) in st.byHash
  }

  /** One accepted proposal for every round below `next`, each for a stored block. */
  ghost predicate AcceptedOk(st: Storage, byRound: map<nat, Propose>, byHash: map<Hash, Propose>, next: nat) {
    && (forall r :: r in byRound <==> 1 <= r < next)
    && (forall r :: r in byRound ==> byRound[r].round == r && byRound[r].hash in st.byHash)
    && (forall h :: h in byHash ==> byHash[h].hash == h && h in st.byHash)
  }

  /** Every stored block except genesis has its batch in the cache, filed by content. */
  ghost predicate BatchesOk(st: Storage, bs: Batches) {
    ContentAddressed(bs) && forall h :: h in st.byHash ==> BatchOk(bs, st.byHash[h])
  }

  ghost predicate TablesOk(s: Node, next: nat) {
    && IndexOk(s.st) && BatchesOk(s.st, s.bs)
    && ParkedOk(s.st, s.parked) && FutureOk(s.st, s.future)
    && AcceptedOk(s.st, s.byRound, s.byHash, next)
    && EmissionInv(s.st, s.emitted, s.toRouter, s.toBatcher)
    && s.lastSeen.hash in s.st.byHash && s.st.byHash[s.lastSeen.hash] == s.lastSeen
  }

  ghost predicate NodeInvAt(s: Node, next: nat) {
    && ConfigOk(s.cfg)
    && s.round >= 1 && s.leader == LeaderOf(s.cfg.n, s.round)
    && PendingInv(s.bs, s.pending)
    && TablesOk(s, next)
  }

  ghost predicate NodeInv(s: Node) {
    NodeInvAt(s, s.round)
  }

  /** The commit that is due has an uncommitted ancestor that is not stored. */
  ghost predicate MissesAncestor(s: Node) {
    && s.round > s.cfg.f && s.round - s.cfg.f in s.byRound
    && !(SetOf(Fresh(s.st.committed, s.byRound[s.round - s.cfg.f].hash)) <= s.st.byHash.Keys)
  }

  /** The current round's proposal is recorded, but the commit it makes due cannot be done. */
  ghost predicate StuckAtCommit(s: Node) {
    NodeInvAt(s, s.round + 1) && MissesAncestor(s)
  }

  /** Running, or stopped by a commit walk and by nothing else. */
  ghost predicate Sound(s: Node) {
    (s.stop == Running && NodeInv(s)) || (s.stop == MissingAncestor && StuckAtCommit(s))
  }

  /** A replica never stops at any lookup but the one of the commit walk. */
  ghost predicate Inv(s: Node) {
    Sound(s) || (s.stop == Blamed && NodeInv(s))
  }

  /** A replica that waits for its next round is not stuck in this one. */
  lemma RunningIsNotStuck(s: Node)
    requires NodeInv(s)
    ensures !StuckAtCommit(s)
  {
    hide IndexOk, BatchesOk, ParkedOk, FutureOk, EmissionInv, PendingInv, MissesAncestor;
    assert s.round !in s.byRound;
  }

  // ---------------------------------------------------------------- storing a block

  lemma StoredAgain(st: Storage, b: Block)
    requires IndexOk(st) && Storable(b)
    ensures b.hash in st.byHash ==> st.byHash[b.hash] == b
    ensures IndexOk(AddDelivered(st, b)) && StoreGrows(st, AddDelivered(st, b))
  {
  }

  lemma StoreTables(st: Storage, b: Block, s: Node, next: nat)
    requires st == s.st && TablesOk(s, next) && Storable(b) && BatchOk(s.bs, b)
    ensures TablesOk(s.(st := AddDelivered(st, b)), next)
  {
    hide EmissionInv, IndexOk;
    StoredAgain(st, b);
    EmissionFrame(st, AddDelivered(st, b), s.emitted, s.toRouter, s.toBatcher);
  }

  lemma StoreKeeps(s: Node, b: Block)
    requires NodeInv(s) && Storable(b) && BatchOk(s.bs, b)
    ensures NodeInv(s.(st := AddDelivered(s.st, b)))
  {
    hide TablesOk, BatchOk, Storable;
    StoreTables(s.st, b, s, s.round);
  }

  /** What is stored could be stored again. */
  lemma StoredIsStorable(s: Node, h: Hash)
    requires NodeInv(s) && h in s.st.byHash
    ensures var b := s.st.byHash[h];
            b.hash == h && Storable(b) && BatchOk(s.bs, b) && b.header.prev == Prev(h)
  {
    hide EmissionInv, ParkedOk, FutureOk, AcceptedOk, PendingInv;
    StoredPrev(s.st, h);
  }

  // ---------------------------------------------------------------- commit

  lemma CommittedIsClosed(st: Storage, hs: seq<Hash>)
    requires OrderInv(st, hs)
    ensures ClosedSet(st.committed)
  {
    forall h | h in st.committed ensures Prev(h) in st.committed {
      assert h in SetOf(hs);
      var i :| 0 <= i < |hs| && hs[i] == h;
      if h != EmptyHash {
        assert Prev(hs[i]) in hs[..i];
        assert Prev(h) in SetOf(hs);
      }
    }
  }

  /** A commit halts the replica exactly when an uncommitted ancestor of the committed block is not stored. */
  lemma CommitHaltsIff(s: Node)
    requires NodeInvAt(s, s.round + 1) && !s.halted && s.round > s.cfg.f
    ensures s.round - s.cfg.f in s.byRound
    ensures DoCommit(s).halted <==> MissesAncestor(s)
    ensures DoCommit(s).halted ==> DoCommit(s) == s.(stop := MissingAncestor)
  {
    hide EmissionInv, ParkedOk, FutureOk, PendingInv, WalkBack, EmitAll, Fresh;
    WalkSucceedsIff(s.st, s.byRound[s.round - s.cfg.f].hash);
  }

  lemma NewlyAvailable(st: Storage, bs: Batches, newly: seq<Block>)
    requires IndexOk(st) && BatchesOk(st, bs)
    requires forall i :: 0 <= i < |newly| ==> newly[i].hash in st.byHash && newly[i] == st.byHash[newly[i].hash]
    ensures Available(bs, newly)
  {
    forall i | 0 <= i < |newly| && newly[i].batch != EmptyBatchHash ensures newly[i].batch in bs.cache {
      assert BatchOk(bs, newly[i]);
    }
  }

  /** A commit that goes through announces every newly committed block, with nothing skipped. */
  lemma DoCommitIs(s: Node)
    requires NodeInvAt(s, s.round + 1) && s.round > s.cfg.f && !s.halted && !DoCommit(s).halted
    ensures s.round - s.cfg.f in s.byRound
    ensures var h := s.byRound[s.round - s.cfg.f].hash;
            var w := WalkBack(s.st, h);
            && w.Walked? && WalkOf(s.st, h, w.st, w.newly)
            && DoCommit(s) == s.(st := w.st, toRouter := s.toRouter + PayloadsOf(w.newly),
                                 toBatcher := s.toBatcher + NoticesOf(w.newly), emitted := s.emitted + w.newly)
  {
    hide EmissionInv, ParkedOk, FutureOk, PendingInv, WalkBack, EmitAll, Fresh, WalkOf, PayloadsOf, NoticesOf,
      BatchesOk, StorageOk;
    var h := s.byRound[s.round - s.cfg.f].hash;
    var w := WalkBack(s.st, h);
    WalkResult(s.st, h);
    WalkedAreStored(s.st, h);
    NewlyAvailable(s.st, s.bs, w.newly);
    AvailableIsAddressed(s.st, s.bs);
    EmitAvailable(s.bs, w.newly);
  }

  lemma AvailableIsAddressed(st: Storage, bs: Batches)
    requires BatchesOk(st, bs)
    ensures ContentAddressed(bs)
  {
  }

  lemma CommitTables(s: Node, next: nat, st: Storage, emitted: seq<Block>, toRouter: seq<Batch>,
      toBatcher: seq<BatcherMsg>)
    requires TablesOk(s, next) && st.byHash == s.st.byHash && st.byHeight == s.st.byHeight
    requires EmissionInv(st, emitted, toRouter, toBatcher)
    ensures TablesOk(s.(st := st, emitted := emitted, toRouter := toRouter, toBatcher := toBatcher), next)
  {
    hide EmissionInv;
  }

  lemma TablesClosed(s: Node, next: nat)
    requires TablesOk(s, next)
    ensures ClosedSet(s.st.committed) && EmissionInv(s.st, s.emitted, s.toRouter, s.toBatcher)
  {
    hide IndexOk, BatchesOk, ParkedOk, FutureOk, AcceptedOk;
    CommittedIsClosed(s.st, HashesOf(s.emitted));
  }

  lemma WalkFrame(st: Storage, h: Hash, w: Walk)
    requires w.Walked? && WalkOf(st, h, w.st, w.newly)
    ensures w.st.byHash == st.byHash && w.st.byHeight == st.byHeight
  {
  }

  lemma DoCommitKeeps(s: Node)
    requires NodeInvAt(s, s.round + 1) && s.round > s.cfg.f && !s.halted && !DoCommit(s).halted
    ensures NodeInvAt(DoCommit(s), s.round + 1)
  {
    hide TablesOk, EmissionInv, PendingInv, WalkBack, WalkOf, DoCommit, PayloadsOf, NoticesOf, Fresh, ClosedSet;
    TablesClosed(s, s.round + 1);
    DoCommitIs(s);
    var h := s.byRound[s.round - s.cfg.f].hash;
    var w := WalkBack(s.st, h);
    CommitEmits(s.st, h, w, s.emitted, s.toRouter, s.toBatcher);
    WalkFrame(s.st, h, w);
    CommitTables(s, s.round + 1, w.st, s.emitted + w.newly, s.toRouter + PayloadsOf(w.newly),
                 s.toBatcher + NoticesOf(w.newly));
  }

  // ---------------------------------------------------------------- accepting a proposal

  /** A proposal at hand: its block and that block's parent are stored. */
  predicate AtHand(s: Node, p: Propose, b: Block) {
    p.hash in s.st.byHash && s.st.byHash[p.hash] == b && Prev(p.hash) in s.st.byHash
  }

  lemma RecordReads(s: Node, b: Block)
    requires TablesOk(s, s.round) && b.hash in s.st.byHash && s.st.byHash[b.hash] == b
    ensures ReadBatch(s.bs, b.batch).1 == s.bs
    ensures b.hash != EmptyHash ==>
            ReadBatch(s.bs, b.batch).0.Some? && b.batch == BatchDigest(ReadBatch(s.bs, b.batch).0.value)
    ensures b.hash == EmptyHash ==> ReadBatch(s.bs, b.batch).0 == None
  {
    hide EmissionInv, ParkedOk, FutureOk, AcceptedOk;
    assert BatchOk(s.bs, b);
  }

  lemma AcceptedGrows(st: Storage, byRound: map<nat, Propose>, byHash: map<Hash, Propose>, round: nat, p: Propose)
    requires AcceptedOk(st, byRound, byHash, round) && round >= 1 && p.round == round && p.hash in st.byHash
    ensures AcceptedOk(st, byRound[p.round := p], byHash[p.hash := p], round + 1)
  {
  }

  lemma RecordTables(s: Node, p: Propose, b: Block)
    requires NodeInv(s) && p.round == s.round && AtHand(s, p, b) && b.hash == p.hash
    ensures NodeInvAt(Record(s, p, b), s.round + 1) && Record(s, p, b).bs == s.bs
  {
    hide EmissionInv, ParkedOk, FutureOk, PendingInv, BatchesOk, IndexOk, ReadBatch, AcceptedOk;
    RecordReads(s, b);
    AcceptedGrows(s.st, s.byRound, s.byHash, s.round, p);
    var got := ReadBatch(s.bs, b.batch).0;
    if got.Some? {
      NoticeFrame(s.st, s.emitted, s.toRouter, s.toBatcher, Proposed(got.value, p.round));
    }
  }

  lemma NextLeaderOf(n: nat, round: nat)
    requires n > 0 && round >= 1
    ensures NextOf(n, LeaderOf(n, round)) == LeaderOf(n, round + 1)
  {
    var q, m := (round - 1) / n, (round - 1) % n;
    assert round - 1 == n * q + m;
    if m + 1 == n {
      assert n * (q + 1) == n * q + n;
      RemainderIs(round, n, q + 1, 0);
    } else {
      RemainderIs(round, n, q, m + 1);
    }
  }

  lemma RemainderIs(x: nat, n: nat, q: nat, m: nat)
    requires n > 0 && m < n && x == n * q + m
    ensures x % n == m
  {
    var d := x / n - q;
    assert n * d == n * (x / n) - n * q;
    if d >= 1 { Grows(n, d); } else if d <= -1 { Grows(n, -d); }
  }

  lemma Grows(n: nat, d: nat)
    requires d >= 1
    ensures n * d >= n
  {
  }

  lemma UpdateRoundKeeps(s: Node, b: Block)
    requires NodeInvAt(s, s.round + 1) && b.hash in s.st.byHash && s.st.byHash[b.hash] == b
    ensures NodeInv(UpdateRound(s.(lastSeen := b)))
  {
    hide EmissionInv, ParkedOk, FutureOk, PendingInv, BatchesOk, IndexOk, AcceptedOk, LeaderOf;
    NextLeaderOf(s.cfg.n, s.round);
    NoticeFrame(s.st, s.emitted, s.toRouter, s.toBatcher, NewRound(NextOf(s.cfg.n, s.leader), s.round + 1));
  }

  lemma NothingDue(s: Node)
    requires s.round <= s.cfg.f
    ensures !MissesAncestor(s)
  {
  }

  lemma StopKeeps(s: Node, next: nat, stop: Stop)
    requires NodeInvAt(s, next)
    ensures NodeInvAt(s.(stop := stop), next)
  {
    hide EmissionInv, PendingInv, BatchesOk, IndexOk, AcceptedOk, FutureOk, ParkedOk;
  }

  lemma CommitIfDueKeeps(s: Node)
    requires NodeInvAt(s, s.round + 1) && !s.halted
    ensures CommitIfDue(s).halted <==> MissesAncestor(s)
    ensures CommitIfDue(s).halted ==> CommitIfDue(s) == s.(stop := MissingAncestor)
    ensures NodeInvAt(CommitIfDue(s), s.round + 1)
    ensures CommitIfDue(s).st.byHash == s.st.byHash && CommitIfDue(s).bs == s.bs
  {
    hide NodeInvAt, DoCommit, WalkBack, MissesAncestor;
    if s.round > s.cfg.f {
      CommitHaltsIff(s);
      StopKeeps(s, s.round + 1, MissingAncestor);
      if !DoCommit(s).halted {
        DoCommitKeeps(s);
        DoCommitIs(s);
      }
    } else {
      NothingDue(s);
    }
  }

  /** The hash that accepting `p` makes due for commit. */
  function DueHash(s: Node, p: Propose): Hash
    requires s.round > s.cfg.f && (s.cfg.f == 0 || s.round - s.cfg.f in s.byRound)
  {
    if s.cfg.f == 0 then p.hash else s.byRound[s.round - s.cfg.f].hash
  }

  lemma DueIsAccepted(s: Node)
    requires NodeInv(s) && s.round > s.cfg.f
    ensures s.cfg.f == 0 || s.round - s.cfg.f in s.byRound
  {
    hide IndexOk, BatchesOk, ParkedOk, FutureOk, EmissionInv, PendingInv;
  }

  lemma RecordMisses(s: Node, p: Propose, b: Block)
    requires NodeInv(s) && p.round == s.round && (s.round > s.cfg.f ==> s.cfg.f == 0 || s.round - s.cfg.f in s.byRound)
    ensures MissesAncestor(Record(s, p, b)) <==>
            s.round > s.cfg.f && !(SetOf(Fresh(s.st.committed, DueHash(s, p))) <= s.st.byHash.Keys)
  {
    hide NodeInv, ReadBatch, Fresh;
  }

  /** Accepting stops the replica exactly when an uncommitted ancestor of the block that becomes due is not
      stored; otherwise it keeps the invariant.  Either way nothing stored is lost. */
  lemma OnProposalKeeps(s: Node, p: Propose, b: Block)
    requires NodeInv(s) && !s.halted && p.round == s.round && AtHand(s, p, b) && b.hash == p.hash
    ensures Sound(OnProposal(s, p, b))
    ensures OnProposal(s, p, b).st.byHash == s.st.byHash && OnProposal(s, p, b).bs == s.bs
    ensures s.round > s.cfg.f ==> s.cfg.f == 0 || s.round - s.cfg.f in s.byRound
    ensures OnProposal(s, p, b).halted <==>
            !Equivocates(s.st, b) && s.round > s.cfg.f &&
                !(SetOf(Fresh(s.st.committed, DueHash(s, p))) <= s.st.byHash.Keys)
  {
    hide NodeInvAt, Record, CommitIfDue, MissesAncestor, Fresh, DueHash;
    if s.round > s.cfg.f {
      DueIsAccepted(s);
    }
    if !Equivocates(s.st, b) {
      RecordTables(s, p, b);
      RecordMisses(s, p, b);
      var rec := Record(s, p, b);
      var s1 := CommitIfDue(rec);
      CommitIfDueKeeps(rec);
      if s1.halted {
        StillMisses(rec);
      } else {
        UpdateRoundKeeps(s1, b);
      }
    }
  }

  lemma StillMisses(s: Node)
    requires MissesAncestor(s)
    ensures MissesAncestor(s.(stop := MissingAncestor))
  {
  }

  lemma LaterKeeps(s: Node, from: Replica, p: Propose, b: Block)
    requires NodeInv(s) && AtHand(s, p, b)
    ensures NodeInv(s.(future := s.future[p.round := (from, p)]))
  {
    hide EmissionInv, ParkedOk, PendingInv, BatchesOk, IndexOk, AcceptedOk;
  }

  lemma TryReceiveKeeps(s: Node, p: Propose, b: Block, from: Replica)
    requires NodeInv(s) && !s.halted && AtHand(s, p, b)
    ensures Sound(TryReceive(s, p, b, from))
    ensures TryReceive(s, p, b, from).st.byHash == s.st.byHash && TryReceive(s, p, b, from).bs == s.bs
  {
    hide NodeInv, OnProposal, StuckAtCommit;
    if s.round < p.round {
      LaterKeeps(s, from, p, b);
    } else if s.round == p.round && Acceptable(s, p, b) {
      OnProposalKeeps(s, p, b);
    }
  }

  // ---------------------------------------------------------------- parked proposals

  lemma UnparkKeeps(s: Node, h: Hash)
    requires NodeInv(s) && h in s.parked && h in s.st.byHash
    ensures NodeInv(s.(parked := s.parked - {h}))
    ensures var p := s.parked[h];
            p.hash in s.st.byHash && AtHand(s.(parked := s.parked - {h}), p, s.st.byHash[p.hash])
  {
    hide EmissionInv, PendingInv, BatchesOk, IndexOk, AcceptedOk, FutureOk;
  }

  /** Everything parked below a stored block is resumed, and no lookup fails on the way. */
  lemma {:induction false} DrainKeeps(s: Node, h: Hash, sender: Replica)
    requires NodeInv(s) && !s.halted && h in s.st.byHash
    ensures Sound(DrainParked(s, h, sender))
    ensures DrainParked(s, h, sender).st.byHash == s.st.byHash && DrainParked(s, h, sender).bs == s.bs
    decreases |s.parked|
  {
    hide NodeInv, TryReceive, AtHand, StuckAtCommit;
    if h in s.parked {
      var p := s.parked[h];
      var s1 := s.(parked := s.parked - {h});
      assert s.parked.Keys == s1.parked.Keys + {h};
      UnparkKeeps(s, h);
      TryReceiveKeeps(s1, p, s.st.byHash[p.hash], sender);
      var s2 := TryReceive(s1, p, s.st.byHash[p.hash], sender);
      if !s2.halted {
        DrainKeeps(s2, p.hash, sender);
      }
    }
  }

  /** A drain moves proposals from parked to future, one for one at most. */
  lemma {:induction false} DrainCount(s: Node, h: Hash, sender: Replica)
    ensures Buffered(DrainParked(s, h, sender)) <= Buffered(s)
    decreases |s.parked|
  {
    hide TryReceive;
    if !s.halted && h in s.parked {
      var p := s.parked[h];
      var s1 := s.(parked := s.parked - {h});
      assert s.parked.Keys == s1.parked.Keys + {h};
      if p.hash in s.st.byHash {
        TryReceiveCount(s1, p, s.st.byHash[p.hash], sender);
        DrainCount(TryReceive(s1, p, s.st.byHash[p.hash], sender), p.hash, sender);
      }
    }
  }

  lemma TryReceiveCount(s: Node, p: Propose, b: Block, from: Replica)
    ensures Buffered(TryReceive(s, p, b, from)) <= Buffered(s) + if s.round < p.round then 1 else 0
  {
    hide OnProposal, Acceptable;
    FutureGrows(s.future, p.round, (from, p));
  }

  lemma FutureGrows(future: map<nat, (Replica, Propose)>, r: nat, e: (Replica, Propose))
    ensures |future[r := e]| <= |future| + 1
  {
    assert future[r := e].Keys == future.Keys + {r};
  }

  // ---------------------------------------------------------------- delivery

  lemma ForgetWaitingKeeps(s: Node, waiting: map<Hash, Propose>)
    requires NodeInv(s)
    ensures NodeInv(s.(waiting := waiting))
  {
    hide EmissionInv, PendingInv, BatchesOk, IndexOk, AcceptedOk, FutureOk, ParkedOk;
  }

  lemma SendKeeps(s: Node, to: Replica, m: Msg)
    requires NodeInv(s)
    ensures NodeInv(Send(s, to, m)) && NodeInv(Multicast(s, m))
  {
    hide EmissionInv, PendingInv, BatchesOk, IndexOk, AcceptedOk, FutureOk, ParkedOk;
  }

  lemma ParkKeeps(s: Node, p: Propose)
    requires NodeInv(s) && p.hash in s.st.byHash
    ensures NodeInv(s.(parked := s.parked[Prev(p.hash) := p]))
  {
    hide EmissionInv, PendingInv, BatchesOk, IndexOk, AcceptedOk, FutureOk;
  }

  /** The second half of `Resolve`: the block and its parent are stored. */
  lemma HandleStoredKeeps(s: Node, sender: Replica, p: Propose, b: Block)
    requires NodeInv(s) && !s.halted && AtHand(s, p, b)
    ensures var s2 := TryReceive(s, p, b, sender);
            var t := if s2.halted then s2 else DrainParked(s2.(waiting := s2.waiting - {p.hash}), p.hash, sender);
            Sound(t) && t.bs == s.bs
  {
    hide NodeInv, DrainParked, TryReceive, StuckAtCommit;
    TryReceiveKeeps(s, p, b, sender);
    var s2 := TryReceive(s, p, b, sender);
    if !s2.halted {
      ForgetWaitingKeeps(s2, s2.waiting - {p.hash});
      DrainKeeps(s2.(waiting := s2.waiting - {p.hash}), p.hash, sender);
    }
  }

  lemma ResolveKeeps(s: Node, sender: Replica, p: Propose, b: Block)
    requires NodeInv(s) && !s.halted && Storable(b) && BatchOk(s.bs, b) && b.hash == p.hash
    ensures Sound(Resolve(s, sender, p, b)) && Resolve(s, sender, p, b).bs == s.bs
  {
    hide NodeInv, DrainParked, TryReceive, BatchOk, StuckAtCommit;
    var s1 := s.(st := AddDelivered(s.st, b));
    StoreKeeps(s, b);
    if b.header.prev !in s.st.byHash {
      ParkKeeps(s1, p);
      SendKeeps(s1.(parked := s.parked[b.header.prev := p]), sender, Request(s.cfg.me, 0, b.header.prev));
    } else {
      HandleStoredKeeps(s1, sender, p, b);
    }
  }

  lemma PersistKeepsNode(s: Node, batch: Batch)
    requires NodeInv(s)
    ensures var bs := Persist(s.bs, BatchDigest(batch), batch);
            NodeInv(s.(bs := bs)) && BatchDigest(batch) in bs.cache
            && NodeInv(s.(bs := bs, pending := s.pending + [(BatchDigest(batch), batch)]))
  {
    hide EmissionInv, IndexOk, AcceptedOk, FutureOk, ParkedOk;
    PersistKeeps(s.bs, BatchDigest(batch), batch);
  }

  lemma OnFullKeeps(s: Node, sender: Replica, p: Propose, b: Block, batch: Batch)
    requires NodeInv(s) && !s.halted && Finalized(b) && b.sig == UNSIGNED
    ensures Sound(OnFullProposal(s, sender, p, b, batch))
  {
    hide NodeInv, Resolve, StuckAtCommit;
    if p.round !in s.byRound && b.hash == p.hash && BatchMatches(b, batch) {
      PersistKeepsNode(s, batch);
      ResolveKeeps(s.(bs := Persist(s.bs, b.batch, batch)), sender, p, b);
    }
  }

  lemma OnBareKeeps(s: Node, sender: Replica, p: Propose)
    requires NodeInv(s) && !s.halted
    ensures Sound(OnBareProposal(s, sender, p))
  {
    hide NodeInv, Resolve, Storable, BatchOk, StuckAtCommit;
    if p.round !in s.byRound {
      if p.hash in s.st.byHash {
        StoredIsStorable(s, p.hash);
        ResolveKeeps(s, sender, p, s.st.byHash[p.hash]);
      } else {
        ForgetWaitingKeeps(s, s.waiting[p.hash := p]);
        SendKeeps(s.(waiting := s.waiting[p.hash := p]), sender, Request(s.cfg.me, 0, p.hash));
      }
    }
  }

  lemma ReadKeeps(s: Node, bs: Batches)
    requires NodeInv(s) && ContentAddressed(bs) && (forall x :: x in s.bs.cache ==> x in bs.cache)
    ensures NodeInv(s.(bs := bs))
  {
    hide EmissionInv, IndexOk, AcceptedOk, FutureOk, ParkedOk, ContentAddressed;
  }

  lemma BatchesAddressed(s: Node)
    requires NodeInv(s)
    ensures ContentAddressed(s.bs)
  {
  }

  lemma HandleRequestKeeps(s: Node, from: Replica, id: nat, h: Hash)
    requires NodeInv(s) && !s.halted
    ensures NodeInv(HandleRequest(s, from, id, h)) && !HandleRequest(s, from, id, h).halted
  {
    hide NodeInv, ContentAddressed;
    if h in s.byHash && h in s.st.byHash {
      var b := s.st.byHash[h];
      BatchesAddressed(s);
      ReadsAgree(s.bs, b.batch);
      var (got, bs) := ReadBatch(s.bs, b.batch);
      ReadKeeps(s, bs);
      if got.Some? {
        SendKeeps(s.(bs := bs), from, Response(s.cfg.me, id, s.byHash[h], b, got.value));
      }
    }
  }

  // ---------------------------------------------------------------- replay

  lemma ResolveCount(s: Node, sender: Replica, p: Propose, b: Block)
    requires b.header.prev in s.st.byHash && s.round == p.round
    ensures Buffered(Resolve(s, sender, p, b)) <= Buffered(s)
  {
    hide DrainParked, TryReceive;
    var s1 := s.(st := AddDelivered(s.st, b));
    TryReceiveCount(s1, p, b, sender);
    var s2 := TryReceive(s1, p, b, sender);
    DrainCount(s2.(waiting := s2.waiting - {p.hash}), p.hash, sender);
  }

  /** Replaying a kept proposal puts nothing back for its own round: the buffers shrink. */
  lemma ReplayOne(s: Node)
    requires NodeInv(s) && !s.halted && s.round in s.future
    ensures var s1 := s.(future := s.future - {s.round});
            var t := OnBareProposal(s1, s.future[s.round].0, s.future[s.round].1);
            Sound(t) && Buffered(t) < Buffered(s)
  {
    hide NodeInv, Resolve, Storable, BatchOk, StuckAtCommit;
    var (sender, p) := s.future[s.round];
    var s1 := s.(future := s.future - {s.round});
    assert s.future.Keys == s1.future.Keys + {s.round};
    TakeFutureKeeps(s);
    OnBareKeeps(s1, sender, p);
    StoredIsStorable(s1, p.hash);
    ResolveCount(s1, sender, p, s1.st.byHash[p.hash]);
  }

  lemma TakeFutureKeeps(s: Node)
    requires NodeInv(s) && s.round in s.future
    ensures NodeInv(s.(future := s.future - {s.round}))
    ensures var p := s.future[s.round].1;
            p.round == s.round && p.hash in s.st.byHash && Prev(p.hash) in s.st.byHash && p.round !in s.byRound
  {
    hide EmissionInv, IndexOk, ParkedOk, PendingInv, BatchesOk;
  }

  /** The replay loop ends with nothing buffered for the round it ends in. */
  lemma {:induction false} ReplayKeeps(s: Node)
    requires Inv(s)
    ensures Inv(Replay(s)) && (Replay(s).stop == Blamed <==> s.stop == Blamed)
    ensures Replay(s).halted || Replay(s).round !in Replay(s).future
    decreases Buffered(s)
  {
    hide NodeInv, OnBareProposal, Buffered, StuckAtCommit;
    if !s.halted && s.round in s.future {
      ReplayOne(s);
      ReplayKeeps(OnBareProposal(s.(future := s.future - {s.round}), s.future[s.round].0, s.future[s.round].1));
    }
  }

  // ---------------------------------------------------------------- message loops

  predicate Decoded(m: Msg) {
    m.NewProposal? || m.Response? ==> Finalized(m.block) && m.block.sig == UNSIGNED
  }

  lemma {:induction false} HandleFullKeeps(s: Node, q: seq<Full>)
    requires Sound(s) && forall i :: 0 <= i < |q| ==> Finalized(q[i].2) && q[i].2.sig == UNSIGNED
    ensures Sound(HandleFull(s, q))
    decreases |q|
  {
    hide NodeInv, OnFullProposal, StuckAtCommit;
    if q != [] && !s.halted {
      OnFullKeeps(s, q[0].0, q[0].1, q[0].2, q[0].3);
      HandleFullKeeps(OnFullProposal(s, q[0].0, q[0].1, q[0].2, q[0].3), q[1..]);
    }
  }

  lemma {:induction false} HandleBareKeeps(s: Node, q: seq<(Replica, Propose)>)
    requires Sound(s)
    ensures Sound(HandleBare(s, q))
    decreases |q|
  {
    hide NodeInv, OnBareProposal, StuckAtCommit;
    if q != [] && !s.halted {
      OnBareKeeps(s, q[0].0, q[0].1);
      HandleBareKeeps(OnBareProposal(s, q[0].0, q[0].1), q[1..]);
    }
  }

  ghost predicate HasBlame(q: seq<Msg>) {
    exists i :: 0 <= i < |q| && q[i].Blame?
  }

  /** Among the other messages only a blame stops the replica. */
  lemma {:induction false} HandleOthersKeeps(s: Node, q: seq<Msg>)
    requires Sound(s)
    ensures Inv(HandleOthers(s, q))
    ensures HandleOthers(s, q).stop == Blamed <==> !s.halted && HasBlame(q)
    ensures !s.halted ==> HandleOthers(s, q).stop != MissingAncestor
    decreases |q|
  {
    hide NodeInv, HandleRequest, StuckAtCommit;
    if q != [] && !s.halted {
      var t := HandleOther(s, q[0]);
      assert forall i :: 0 < i < |q| ==> q[i] == q[1..][i - 1];
      if q[0].Request? {
        HandleRequestKeeps(s, q[0].from, q[0].id, q[0].hash);
      }
      if q[0].Blame? {
        BlamedKeeps(s);
      } else {
        HandleOthersKeeps(t, q[1..]);
        assert HasBlame(q[1..]) ==> HasBlame(q);
      }
    }
  }

  lemma BlamedKeeps(s: Node)
    requires NodeInv(s)
    ensures NodeInv(s.(stop := Blamed))
  {
    hide NodeInvAt;
    StopKeeps(s, s.round, Blamed);
  }

  lemma {:induction false} BufferedOk(ms: seq<Msg>)
    requires forall i :: 0 <= i < |ms| ==> Decoded(ms[i])
    ensures forall i :: 0 <= i < |BufferedFull(ms)| ==>
            Finalized(BufferedFull(ms)[i].2) && BufferedFull(ms)[i].2.sig == UNSIGNED
    ensures HasBlame(BufferedOthers(ms)) <==> HasBlame(ms)
  {
    if ms != [] {
      var init, last := ms[..|ms| - 1], ms[|ms| - 1];
      BufferedOk(init);
      assert ms == init + [last];
      HasBlameSnoc(init, last);
      HasBlameSnoc(BufferedOthers(init), last);
      assert BufferedOthers(ms) ==
        if last.Request? || last.Blame? then BufferedOthers(init) + [last] else BufferedOthers(init);
    }
  }

  lemma HasBlameSnoc(q: seq<Msg>, m: Msg)
    ensures HasBlame(q + [m]) <==> HasBlame(q) || m.Blame?
  {
    var all := q + [m];
    assert all[|q|] == m && forall i :: 0 <= i < |q| ==> all[i] == q[i];
  }

  /** A blame comes to be handled: the proposals and relays before it do not stop the replica. */
  ghost predicate BlameHandled(s: Node, e: Event) {
    e.Received? && HasBlame(e.msgs) && !HandleBare(HandleFull(s, BufferedFull(e.msgs)), BufferedBare(e.msgs)).halted
  }

  lemma ProcessKeeps(s: Node, ms: seq<Msg>)
    requires Sound(s) && forall i :: 0 <= i < |ms| ==> Decoded(ms[i])
    ensures Inv(ProcessMessages(s, ms))
    ensures ProcessMessages(s, ms).stop == Blamed <==> BlameHandled(s, Received(ms))
    ensures ProcessMessages(s, ms).halted || ProcessMessages(s, ms).round !in ProcessMessages(s, ms).future
  {
    hide NodeInv, StuckAtCommit, HasBlame, HandleFull, HandleBare, HandleOthers, Replay, BufferedFull, BufferedBare,
      BufferedOthers;
    BufferedOk(ms);
    var s1 := HandleFull(s, BufferedFull(ms));
    HandleFullKeeps(s, BufferedFull(ms));
    var s2 := HandleBare(s1, BufferedBare(ms));
    HandleBareKeeps(s1, BufferedBare(ms));
    HandleOthersKeeps(s2, BufferedOthers(ms));
    ReplayKeeps(HandleOthers(s2, BufferedOthers(ms)));
  }

  // ---------------------------------------------------------------- the reactor

  lemma ToldKeeps(s: Node, m: BatcherMsg)
    requires NodeInv(s) && !m.Committed? && !m.RolledBack?
    ensures NodeInv(s.(toBatcher := s.toBatcher + [m]))
  {
    hide EmissionInv, PendingInv, BatchesOk, IndexOk, AcceptedOk, FutureOk, ParkedOk;
    NoticeFrame(s.st, s.emitted, s.toRouter, s.toBatcher, m);
  }

  lemma HeadStored(s: Node)
    requires NodeInv(s)
    ensures s.lastSeen.hash in s.st.byHash
  {
  }

  lemma DoProposeKeeps(s: Node, batch: Batch)
    requires NodeInv(s) && !s.halted && BatchDigest(batch) in s.bs.cache
    ensures Sound(DoPropose(s, batch)) && DoPropose(s, batch).bs == s.bs
  {
    hide NodeInv, OnProposal, StuckAtCommit;
    var b := NewBlock(s.lastSeen, s.cfg.me, batch, UNSIGNED);
    var p := Propose(b.hash, s.round, Sig(s.cfg.me, AuthBy(s.cfg.me, OfBlock(b.hash))));
    var sent := Multicast(s, NewProposal(p, b, batch));
    SendKeeps(s, 0, NewProposal(p, b, batch));
    ToldKeeps(sent, Proposed(batch, s.round));
    HeadStored(s);
    StoreKeeps(sent.(toBatcher := s.toBatcher + [Proposed(batch, s.round)]), b);
    OnProposalKeeps(sent.(toBatcher := s.toBatcher + [Proposed(batch, s.round)], st := AddDelivered(s.st, b)), p, b);
  }

  lemma {:induction false} ProposeAllKeeps(s: Node, q: seq<(BatchHash, Batch)>)
    requires Inv(s) && PendingInv(s.bs, q)
    ensures Inv(ProposeAll(s, q)) && (ProposeAll(s, q).stop == Blamed <==> s.stop == Blamed)
    decreases |q|
  {
    hide NodeInv, DoPropose, StuckAtCommit;
    if s.stop == MissingAncestor {
      StuckPendingKeeps(s, q);
    } else if s.halted || q == [] || s.leader != s.cfg.me {
      PendingKeeps(s, q);
    } else {
      DoProposeKeeps(s, q[0].1);
      ProposeAllKeeps(DoPropose(s, q[0].1), q[1..]);
    }
  }

  lemma StuckPendingKeeps(s: Node, q: seq<(BatchHash, Batch)>)
    requires StuckAtCommit(s) && PendingInv(s.bs, q)
    ensures StuckAtCommit(s.(pending := q))
  {
    hide EmissionInv, PendingInv, BatchesOk, IndexOk, AcceptedOk, FutureOk, ParkedOk, Fresh;
  }

  lemma PendingKeeps(s: Node, q: seq<(BatchHash, Batch)>)
    requires NodeInv(s) && PendingInv(s.bs, q)
    ensures NodeInv(s.(pending := q))
  {
    hide EmissionInv, PendingInv, BatchesOk, IndexOk, AcceptedOk, FutureOk, ParkedOk;
  }

  lemma PendingIsCached(s: Node)
    requires Inv(s)
    ensures PendingInv(s.bs, s.pending)
  {
    hide TablesOk, MissesAncestor;
  }

  predicate EventDecoded(e: Event) {
    e.Received? ==> forall i :: 0 <= i < |e.msgs| ==> Decoded(e.msgs[i])
  }

  /** Every turn of the reactor keeps the invariant, whatever arrives.  It stops the replica exactly when a blame
      comes to be handled or a commit that is due has an uncommitted ancestor that is not stored. */
  lemma ReactKeeps(s: Node, e: Event)
    requires NodeInv(s) && !s.halted && EventDecoded(e)
    ensures Inv(React(s, e))
    ensures React(s, e).stop == Blamed <==> BlameHandled(s, e)
    ensures React(s, e).halted <==> BlameHandled(s, e) || StuckAtCommit(React(s, e))
  {
    hide NodeInv, ProcessMessages, ProposeAll, Persist, BlameHandled, StuckAtCommit;
    var t := Absorb(s, e);
    match e {
      case Received(ms) => ProcessKeeps(s, ms);
      case Sealed(batch) =>
        PersistKeepsNode(s, batch);
        NoBlame(s, e);
      case Idle => NoBlame(s, e);
    }
    PendingIsCached(t);
    ProposeAllKeeps(t, t.pending);
    if NodeInv(React(s, e)) {
      RunningIsNotStuck(React(s, e));
    }
  }

  lemma NoBlame(s: Node, e: Event)
    requires !e.Received?
    ensures !BlameHandled(s, e)
  {
  }

  lemma BootInv(cfg: Config, store: map<BatchHash, Batch>)
    requires ConfigOk(cfg) && StoreOk(store)
    ensures NodeInv(Boot(cfg, store))
  {
    hide EmissionInv;
    BootEmits(0);
  }
}
