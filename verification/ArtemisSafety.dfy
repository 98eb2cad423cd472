/**
 Artemis, for arbitrary incoming messages: what is committed, what is announced,
 and that no lookup of the commit path ever fails.
 */
module ArtemisSafety {
  import opened Transactions
  import opened BatcherSpec
  import opened Blocks
  import opened Chains
  import opened LeaderRotation
  import opened ArtemisCore
  import opened ArtemisDelivery

  // ---------------------------------------------------------------- the invariant

  /** All ancestors of the blocks voted in rounds 1 to `k`. */
  ghost function CommittedBy(votes: map<nat, Vote>, k: int): set<Hash>
    decreases k
  {
    if k <= 0 || k !in votes then {} else CommittedBy(votes, k - 1) + Ancestors(votes[k].hash)
  }

  /** Every block, delivered or parked, has its batch in the cache under the batch's content hash. */
  ghost predicate BatchInv(l: Ledger, bs: Batches) {
    ContentAddressed(bs) && AllBlocks(l, HasBatch(bs))
  }

  /** Votes are recorded for exactly the rounds below `next`, each for a delivered block. */
  ghost predicate VotesInv(st: Storage, votes: map<nat, Vote>, next: nat) {
    && (forall r :: r in votes <==> 1 <= r < next)
    && (forall r :: r in votes ==> votes[r].round == r && votes[r].hash in st.byHash)
  }

  ghost predicate ConfigOk(cfg: Config) {
    1 <= cfg.f < cfg.n && cfg.me < cfg.n
  }

  /** The replica's invariant, with the commit state as of round `upto`. */
  ghost predicate NodeInvAt(s: Node, next: nat, upto: int) {
    && ConfigOk(s.cfg)
    && s.round >= 1 && s.rot == RotationAt(s.cfg.n, s.cfg.f, s.cfg.digest, s.round)
    && LedgerInv(s.ledger)
    && BatchInv(s.ledger, s.bs) && PendingInv(s.bs, s.pending)
    && VotesInv(s.ledger.st, s.votes, next)
    && s.ledger.st.committed == CommittedBy(s.votes, upto)
    && EmissionInv(s.ledger.st, s.emitted, s.toRouter, s.toBatcher)
  }

  ghost predicate LastVotedOk(s: Node) {
    s.lastVoted == if s.round > 1 && s.round - 1 in s.votes && s.votes[s.round - 1].hash in s.ledger.st.byHash
                   then s.ledger.st.byHash[s.votes[s.round - 1].hash] else GENESIS
  }

  ghost predicate NodeInv(s: Node) {
    NodeInvAt(s, s.round, s.round - 1 - s.cfg.f) && LastVotedOk(s)
  }

  // ---------------------------------------------------------------- frames

  lemma {:induction false} CommittedByFrame(votes: map<nat, Vote>, r: nat, v: Vote, k: int)
    requires k < r
    ensures CommittedBy(votes[r := v], k) == CommittedBy(votes, k)
    decreases k
  {
    if k > 0 {
      CommittedByFrame(votes, r, v, k - 1);
    }
  }

  lemma {:induction false} CommittedByClosed(votes: map<nat, Vote>, k: int)
    ensures ClosedSet(CommittedBy(votes, k))
    decreases k
  {
    if k > 0 && k in votes {
      CommittedByClosed(votes, k - 1);
      AncestorsClosed(votes[k].hash);
    }
  }

  lemma PersistBatchInv(l: Ledger, bs: Batches, batch: Batch)
    requires BatchInv(l, bs)
    ensures BatchInv(l, Persist(bs, BatchDigest(batch), batch))
    ensures BatchDigest(batch) in Persist(bs, BatchDigest(batch), batch).cache
  {
    PersistKeeps(bs, BatchDigest(batch), batch);
  }

  // ---------------------------------------------------------------- commit

  lemma NewlyAvailable(l: Ledger, bs: Batches, newly: seq<Block>)
    requires StorageOk(l.st) && BatchInv(l, bs)
    requires forall i :: 0 <= i < |newly| ==> newly[i].hash in l.st.byHash && newly[i] == l.st.byHash[newly[i].hash]
    ensures Available(bs, newly)
  {
    forall i | 0 <= i < |newly| && newly[i].batch != EmptyBatchHash ensures newly[i].batch in bs.cache {
      assert BatchOk(bs, newly[i]);
    }
  }

  /** The walk from a delivered hash over closed storage succeeds. */
  lemma WalkWorks(st: Storage, h: Hash)
    requires StorageOk(st) && Closed(st) && ClosedSet(st.committed) && h in st.byHash
    ensures WalkBack(st, h).Walked? && WalkOf(st, h, WalkBack(st, h).st, WalkBack(st, h).newly)
  {
    ClosedHasAncestors(st.byHash.Keys, h);
    FreshShape(st.committed, h);
    WalkSucceedsIff(st, h);
    WalkResult(st, h);
  }

  /** With the batches available, a commit announces every newly committed block. */
  lemma DoCommitIs(s: Node)
    requires s.round > s.cfg.f && s.round - s.cfg.f in s.votes
    requires StorageOk(s.ledger.st) && Closed(s.ledger.st) && ClosedSet(s.ledger.st.committed)
    requires s.votes[s.round - s.cfg.f].hash in s.ledger.st.byHash && BatchInv(s.ledger, s.bs)
    ensures var w := WalkBack(s.ledger.st, s.votes[s.round - s.cfg.f].hash);
            && w.Walked? && WalkOf(s.ledger.st, s.votes[s.round - s.cfg.f].hash, w.st, w.newly)
            && DoCommit(s) == s.(ledger := s.ledger.(st := w.st),
                                 toRouter := s.toRouter + PayloadsOf(w.newly),
                                 toBatcher := s.toBatcher + NoticesOf(w.newly),
                                 emitted := s.emitted + w.newly)
  {
    hide AllBlocks, HasBatch, Fresh, WalkOf, WalkBack, EmitAll, PayloadsOf, NoticesOf;
    var h := s.votes[s.round - s.cfg.f].hash;
    WalkWorks(s.ledger.st, h);
    WalkedAreStored(s.ledger.st, h);
    var w := WalkBack(s.ledger.st, h);
    NewlyAvailable(s.ledger, s.bs, w.newly);
    EmitAvailable(s.bs, w.newly);
  }

  /** The commit walk never meets a missing vote or block, and afterwards exactly the
      ancestors of the blocks voted up to `f` rounds ago are committed. */
  lemma DoCommitKeeps(s: Node)
    requires s.round > s.cfg.f && NodeInvAt(s, s.round + 1, s.round - 1 - s.cfg.f)
    ensures NodeInvAt(DoCommit(s), s.round + 1, s.round - s.cfg.f)
    ensures DoCommit(s).halted == s.halted
  {
    var k := s.round - s.cfg.f;
    CommittedByClosed(s.votes, k - 1);
    hide EmissionInv, PendingInv, WalkBack, EmitAll, DoCommit, RotationAt, Ancestors, ParkingOk, VotesParkedOk,
      HeadOk, AllBlocks;
    DoCommitIs(s);
    var w := WalkBack(s.ledger.st, s.votes[k].hash);
    CommitEmits(s.ledger.st, s.votes[k].hash, w, s.emitted, s.toRouter, s.toBatcher);
    CommitKeepsLedger(s.ledger, s.bs, w.st);
  }

  lemma CommitKeepsLedger(l: Ledger, bs: Batches, st: Storage)
    requires LedgerInv(l) && BatchInv(l, bs) && st.byHash == l.st.byHash
    ensures LedgerInv(l.(st := st)) && BatchInv(l.(st := st), bs)
  {
  }

  // ---------------------------------------------------------------- votes

  lemma RecordKeeps(s: Node, v: Vote)
    requires NodeInv(s) && v.round == s.round && v.hash in s.ledger.st.byHash
    ensures NodeInvAt(Record(s, v), s.round + 1, s.round - s.cfg.f)
    ensures Record(s, v).halted == s.halted
  {
    hide LedgerInv, BatchInv, EmissionInv, PendingInv, RotationAt, DoCommit;
    var s1 := s.(votes := s.votes[v.round := v]);
    CommittedByFrame(s.votes, v.round, v, s.round - 1 - s.cfg.f);
    if s1.round > s1.cfg.f {
      DoCommitKeeps(s1);
    }
  }

  lemma RecordFrame(s: Node, v: Vote)
    ensures Record(s, v).cfg == s.cfg && Record(s, v).round == s.round && Record(s, v).rot == s.rot
    ensures Record(s, v).votes == s.votes[v.round := v] && Record(s, v).pending == s.pending
    ensures Record(s, v).ledger == s.ledger.(st := Record(s, v).ledger.st)
  {
    var s1 := s.(votes := s.votes[v.round := v]);
    if s.round > s.cfg.f {
      DoCommitFrame(s1);
    }
  }

  lemma AdvanceKeeps(s: Node, v: Vote)
    requires NodeInvAt(s, s.round + 1, s.round - s.cfg.f) && s.round in s.votes && s.votes[s.round] == v
    ensures NodeInv(Advance(s, v)) && Advance(s, v).halted == s.halted
  {
    hide LedgerInv, BatchInv, EmissionInv, PendingInv, CommittedBy, Rotate;
    assert v.hash in s.ledger.st.byHash;
    RotationStep(s.cfg.n, s.cfg.f, s.cfg.digest, s.round + 1);
  }

  /** Whatever the vote, a vote for the current round and a delivered block keeps the invariant. */
  lemma OnVoteKeeps(s: Node, v: Vote)
    requires NodeInv(s) && !s.halted && v.round == s.round && v.hash in s.ledger.st.byHash
    ensures NodeInv(OnVote(s, v)) && !OnVote(s, v).halted
  {
    hide LedgerInv, BatchInv, EmissionInv, PendingInv, RotationAt, CommittedBy, Rotate;
    if VoteAccepted(s, v) {
      RecordKeeps(s, v);
      RecordFrame(s, v);
      AdvanceKeeps(Record(s, v), v);
    }
  }

  // ---------------------------------------------------------------- blocks

  /** The invariant of a replica that is still running. */
  ghost predicate Running(s: Node) {
    NodeInv(s) && !s.halted
  }

  /** Delivering a new block whose parent is delivered and whose batch is cached. */
  lemma DoDeliveryKeeps(s: Node, b: Block)
    requires Running(s) && Acceptable(s.ledger, b) && BatchOk(s.bs, b)
    ensures Running(DoDelivery(s, b))
    ensures StoreGrows(s.ledger.st, DoDelivery(s, b).ledger.st)
  {
    hide LedgerInv, AllBlocks, EmissionInv, PendingInv, RotationAt, CommittedBy, Deliver, CommittedOf;
    var t := DoDelivery(s, b);
    DeliverKeeps(s.ledger, b);
    DeliverAll(s.ledger, b, HasBatch(s.bs), v => true);
    StoreGrowsTrans(s.ledger.st, AddDelivered(s.ledger.st, b), t.ledger.st);
    EmissionFrame(s.ledger.st, t.ledger.st, s.emitted, s.toRouter, s.toBatcher);
    NoticeFrame(t.ledger.st, s.emitted, s.toRouter, s.toBatcher,
        NewRound(VIEW_LEADER, t.ledger.lastSeen.header.height + 1));
  }

  lemma PersistKeepsNode(s: Node, batch: Batch)
    requires Running(s)
    ensures Running(s.(bs := Persist(s.bs, BatchDigest(batch), batch)))
    ensures BatchDigest(batch) in Persist(s.bs, BatchDigest(batch), batch).cache
  {
    hide LedgerInv, BatchInv, EmissionInv, RotationAt, CommittedBy;
    PersistBatchInv(s.ledger, s.bs, batch);
  }

  lemma OnNewBlockKeeps(s: Node, b: Block)
    requires Running(s) && Finalized(b) && BatchOk(s.bs, b)
    ensures Running(OnNewBlock(s, b)) && StoreGrows(s.ledger.st, OnNewBlock(s, b).ledger.st)
  {
    hide NodeInv, DoDelivery;
    if OnNewBlock(s, b) == DoDelivery(s, b) && Acceptable(s.ledger, b) {
      DoDeliveryKeeps(s, b);
    }
  }

  lemma HandleNewBlockKeeps(s: Node, b: Block, batch: Batch)
    requires Running(s) && Finalized(b)
    ensures Running(HandleNewBlock(s, b, batch))
  {
    if BatchMatches(b, batch) {
      PersistKeepsNode(s, batch);
      hide NodeInv, OnNewBlock;
      OnNewBlockKeeps(s.(bs := Persist(s.bs, b.batch, batch)), b);
    }
  }

  lemma ParkBatch(l: Ledger, bs: Batches, b: Block)
    requires BatchInv(l, bs) && BatchOk(bs, b)
    ensures BatchInv(l.(parentWaiting := l.parentWaiting[b.header.prev := b.hash],
                        undelivered := l.undelivered[b.hash := b]), bs)
  {
  }

  lemma ParkBlockKeeps(s: Node, b: Block)
    requires Running(s) && Finalized(b) && BatchOk(s.bs, b)
    requires !Delivered(s, b.hash) && !Delivered(s, b.header.prev) && b.header.prev !in s.ledger.parentWaiting
    ensures Running(s.(ledger := s.ledger.(parentWaiting := s.ledger.parentWaiting[b.header.prev := b.hash],
                                           undelivered := s.ledger.undelivered[b.hash := b])))
  {
    hide LedgerInv, BatchInv, EmissionInv, PendingInv, RotationAt, CommittedBy;
    ParkKeeps(s.ledger, b);
    ParkBatch(s.ledger, s.bs, b);
  }

  lemma SendKeeps(s: Node, to: Replica, m: Msg)
    requires Running(s)
    ensures Running(Send(s, to, m)) && Running(Multicast(s, m))
  {
    hide LedgerInv, BatchInv, EmissionInv, PendingInv, RotationAt, CommittedBy;
  }

  lemma UpdateDeliveryKeeps(s: Node, b: Block, sender: Replica)
    requires Running(s) && Finalized(b) && BatchOk(s.bs, b)
    ensures Running(UpdateDelivery(s, b, sender))
  {
    hide NodeInv, DoDelivery, BatchOk;
    if Delivered(s, b.hash) || b.header.prev in s.ledger.parentWaiting {
    } else if Delivered(s, b.header.prev) {
      DoDeliveryKeeps(s, b);
    } else {
      var l := s.ledger;
      ParkBlockKeeps(s, b);
      SendKeeps(s.(ledger := l.(parentWaiting := l.parentWaiting[b.header.prev := b.hash],
                                undelivered := l.undelivered[b.hash := b])), sender, Request(s.cfg.me, 0, b.hash));
    }
  }

  lemma HandleResponseKeeps(s: Node, from: Replica, b: Block, batch: Batch)
    requires Running(s) && Finalized(b)
    ensures Running(HandleResponse(s, from, b, batch))
  {
    if BatchMatches(b, batch) {
      PersistKeepsNode(s, batch);
      hide NodeInv, UpdateDelivery;
      UpdateDeliveryKeeps(s.(bs := Persist(s.bs, b.batch, batch)), b, from);
    }
  }

  lemma ReadBatchInv(l: Ledger, bs: Batches, h: BatchHash)
    requires BatchInv(l, bs)
    ensures BatchInv(l, ReadBatch(bs, h).1)
    ensures forall x :: x in bs.cache ==> x in ReadBatch(bs, h).1.cache
  {
    ReadsAgree(bs, h);
  }

  lemma ReadKeeps(s: Node, h: BatchHash)
    requires Running(s)
    ensures Running(s.(bs := ReadBatch(s.bs, h).1))
  {
    hide LedgerInv, BatchInv, EmissionInv, RotationAt, CommittedBy, ReadBatch;
    ReadBatchInv(s.ledger, s.bs, h);
  }

  lemma HandleRequestKeeps(s: Node, from: Replica, id: nat, h: Hash)
    requires Running(s)
    ensures Running(HandleRequest(s, from, id, h))
  {
    hide NodeInv, ReadBatch;
    if Delivered(s, h) || h in s.ledger.undelivered {
      var b := if Delivered(s, h) then s.ledger.st.byHash[h] else s.ledger.undelivered[h];
      ReadKeeps(s, b.batch);
      var (got, bs) := ReadBatch(s.bs, b.batch);
      if got.Some? {
        SendKeeps(s.(bs := bs), from, Response(s.cfg.me, id, b, got.value));
      }
    }
  }

  // ---------------------------------------------------------------- vote messages

  lemma VoteWaits(l: Ledger, bs: Batches, v: Vote)
    requires LedgerInv(l) && BatchInv(l, bs) && v.hash !in l.st.byHash
    ensures var l' := l.(voteWaiting := l.voteWaiting[v.hash := v]);
            LedgerInv(l') && BatchInv(l', bs)
  {
    hide StorageOk;
  }

  lemma ParkVoteKeeps(s: Node, from: Replica, v: Vote)
    requires Running(s) && !Delivered(s, v.hash)
    ensures Running(ParkVote(s, from, v))
  {
    hide LedgerInv, BatchInv, EmissionInv, PendingInv, RotationAt, CommittedBy;
    VoteWaits(s.ledger, s.bs, v);
  }

  lemma ReadyVoteKeeps(s: Node, v: Vote)
    requires Running(s) && Delivered(s, v.hash)
    ensures Running(s.(ledger := s.ledger.(voteReady := s.ledger.voteReady[v.round := v])))
  {
    hide LedgerInv, BatchInv, EmissionInv, PendingInv, RotationAt, CommittedBy;
    ReadyChanges(s.ledger, s.bs, s.ledger.voteReady[v.round := v]);
  }

  /** The ready votes may be replaced by any others that name delivered blocks. */
  lemma ReadyChanges(l: Ledger, bs: Batches, ready: map<nat, Vote>)
    requires LedgerInv(l) && BatchInv(l, bs)
    ensures (forall r :: r in ready ==> ready[r].round == r && ready[r].hash in l.st.byHash) ==>
            LedgerInv(l.(voteReady := ready)) && BatchInv(l.(voteReady := ready), bs)
    ensures forall r :: r in l.voteReady ==> l.voteReady[r].round == r && l.voteReady[r].hash in l.st.byHash
  {
    hide StorageOk;
  }

  lemma TryVoteKeeps(s: Node, from: Replica, v: Vote)
    requires Running(s)
    ensures Running(TryVote(s, from, v))
  {
    hide NodeInv, OnVote, ParkVote;
    if s.round > v.round {
    } else if !Delivered(s, v.hash) {
      ParkVoteKeeps(s, from, v);
    } else if s.round < v.round {
      ReadyVoteKeeps(s, v);
    } else {
      OnVoteKeeps(s, v);
    }
  }

  lemma TakeReadyKeeps(s: Node)
    requires Running(s) && s.round in s.ledger.voteReady
    ensures Running(s.(ledger := s.ledger.(voteReady := s.ledger.voteReady - {s.round})))
    ensures s.ledger.voteReady[s.round].round == s.round && Delivered(s, s.ledger.voteReady[s.round].hash)
  {
    hide LedgerInv, BatchInv, EmissionInv, PendingInv, RotationAt, CommittedBy;
    ReadyChanges(s.ledger, s.bs, s.ledger.voteReady - {s.round});
  }

  lemma {:induction false} DrainReadyKeeps(s: Node)
    requires Running(s)
    ensures Running(DrainReady(s)) && DrainReady(s).round !in DrainReady(s).ledger.voteReady
    decreases |s.ledger.voteReady|
  {
    hide NodeInv, OnVote;
    if s.round in s.ledger.voteReady {
      var v := s.ledger.voteReady[s.round];
      var s1 := s.(ledger := s.ledger.(voteReady := s.ledger.voteReady - {s.round}));
      assert s.ledger.voteReady.Keys == s1.ledger.voteReady.Keys + {s.round};
      TakeReadyKeeps(s);
      OnVoteKeeps(s1, v);
      OnVoteFrame(s1, v);
      DrainReadyKeeps(OnVote(s1, v));
    }
  }

  // ---------------------------------------------------------------- message loops

  lemma {:induction false} HandleBlocksKeeps(s: Node, q: seq<(Block, Batch)>)
    requires Running(s) && forall i :: 0 <= i < |q| ==> Finalized(q[i].0)
    ensures Running(HandleBlocks(s, q))
    decreases |q|
  {
    hide NodeInv, HandleNewBlock;
    if q != [] {
      HandleNewBlockKeeps(s, q[0].0, q[0].1);
      HandleBlocksKeeps(HandleNewBlock(s, q[0].0, q[0].1), q[1..]);
    }
  }

  lemma {:induction false} HandleResponsesKeeps(s: Node, q: seq<(Replica, Block, Batch)>)
    requires Running(s) && forall i :: 0 <= i < |q| ==> Finalized(q[i].1)
    ensures Running(HandleResponses(s, q))
    decreases |q|
  {
    hide NodeInv, HandleResponse;
    if q != [] {
      HandleResponseKeeps(s, q[0].0, q[0].1, q[0].2);
      HandleResponsesKeeps(HandleResponse(s, q[0].0, q[0].1, q[0].2), q[1..]);
    }
  }

  lemma HandleOtherKeeps(s: Node, m: Msg)
    requires Running(s) && IsOther(m)
    ensures NodeInv(HandleOther(s, m)) && (HandleOther(s, m).halted <==> m.Blame?)
  {
    hide NodeInv, TryVote, HandleRequest;
    match m
    case VoteMsg(v) => TryVoteKeeps(s, v.sig.origin, v);
    case Relay(from, v) => TryVoteKeeps(s, from, v);
    case Request(from, id, h) => HandleRequestKeeps(s, from, id, h);
    case Blame(_) => HaltKeeps(s);
  }

  lemma HaltKeeps(s: Node)
    requires NodeInv(s)
    ensures NodeInv(s.(halted := true))
  {
    hide LedgerInv, BatchInv, EmissionInv, PendingInv, RotationAt, CommittedBy;
  }

  ghost predicate HasBlame(q: seq<Msg>) {
    exists i :: 0 <= i < |q| && q[i].Blame?
  }

  lemma {:induction false} HandleOthersKeeps(s: Node, q: seq<Msg>)
    requires Running(s) && forall i :: 0 <= i < |q| ==> IsOther(q[i])
    ensures NodeInv(HandleOthers(s, q)) && (HandleOthers(s, q).halted <==> HasBlame(q))
    decreases |q|
  {
    hide NodeInv, HandleOther;
    if q != [] {
      HandleOtherKeeps(s, q[0]);
      var t := HandleOther(s, q[0]);
      assert forall i :: 0 < i < |q| ==> q[i] == q[1..][i - 1];
      if !t.halted {
        HandleOthersKeeps(t, q[1..]);
        assert HasBlame(q[1..]) ==> HasBlame(q);
      }
    }
  }

  /** Blocks decoded from the wire carry their own content hash. */
  predicate Decoded(m: Msg) {
    m.NewBlockMsg? || m.Response? ==> Finalized(m.block)
  }

  lemma HasBlameSnoc(q: seq<Msg>, m: Msg)
    ensures HasBlame(q + [m]) <==> HasBlame(q) || m.Blame?
  {
    var all := q + [m];
    assert all[|q|] == m && forall i :: 0 <= i < |q| ==> all[i] == q[i];
  }

  lemma {:induction false} BufferedOk(ms: seq<Msg>)
    requires forall i :: 0 <= i < |ms| ==> Decoded(ms[i])
    ensures forall i :: 0 <= i < |BufferedBlocks(ms)| ==> Finalized(BufferedBlocks(ms)[i].0)
    ensures forall i :: 0 <= i < |BufferedResponses(ms)| ==> Finalized(BufferedResponses(ms)[i].1)
    ensures forall i :: 0 <= i < |BufferedOthers(ms)| ==> IsOther(BufferedOthers(ms)[i])
    ensures HasBlame(BufferedOthers(ms)) <==> HasBlame(ms)
  {
    if ms != [] {
      var init, last := ms[..|ms| - 1], ms[|ms| - 1];
      BufferedOk(init);
      assert ms == init + [last];
      HasBlameSnoc(init, last);
      HasBlameSnoc(BufferedOthers(init), last);
      assert BufferedOthers(ms) == if IsOther(last) then BufferedOthers(init) + [last] else BufferedOthers(init);
    }
  }

  lemma ProcessKeeps(s: Node, blocks: seq<(Block, Batch)>, responses: seq<(Replica, Block, Batch)>, others: seq<Msg>)
    requires Running(s)
    requires forall i :: 0 <= i < |blocks| ==> Finalized(blocks[i].0)
    requires forall i :: 0 <= i < |responses| ==> Finalized(responses[i].1)
    requires forall i :: 0 <= i < |others| ==> IsOther(others[i])
    ensures var t := ProcessMessages(s, blocks, responses, others);
            NodeInv(t) && (t.halted <==> HasBlame(others)) && (!t.halted ==> t.round !in t.ledger.voteReady)
  {
    hide NodeInv, HandleBlocks, HandleResponses, HandleOthers, DrainReady, HasBlame;
    HandleBlocksKeeps(s, blocks);
    var s1 := HandleBlocks(s, blocks);
    HandleResponsesKeeps(s1, responses);
    var s2 := HandleResponses(s1, responses);
    DrainReadyKeeps(s2);
    var s3 := DrainReady(s2);
    HandleOthersKeeps(s3, others);
    var s4 := HandleOthers(s3, others);
    if s4.halted {
      HaltedStays(s4);
    } else {
      DrainReadyKeeps(s4);
    }
  }

  lemma HaltedStays(s: Node)
    requires s.halted
    ensures DrainReady(s) == s
  {
  }

  // ---------------------------------------------------------------- the reactor

  lemma DoNewBlockKeeps(s: Node, batch: Batch)
    requires Running(s) && BatchDigest(batch) in s.bs.cache
    ensures Running(DoNewBlock(s, batch)) && DoNewBlock(s, batch).bs == s.bs
  {
    var unsigned := NewBlock(s.ledger.lastSeen, s.cfg.me, batch, Sig(s.cfg.me, NoAuth));
    var b := unsigned.(sig := Sig(s.cfg.me, AuthBy(s.cfg.me, OfBlock(unsigned.hash))));
    SendKeeps(s, 0, NewBlockMsg(b, batch));
    var sent := Multicast(s, NewBlockMsg(b, batch));
    var told := sent.(toBatcher := sent.toBatcher + [Proposed(batch, b.header.height)]);
    ToldKeeps(sent, Proposed(batch, b.header.height));
    hide NodeInv, OnNewBlock;
    OnNewBlockKeeps(told, b);
    OnNewBlockFrame(told, b);
  }

  lemma ToldKeeps(s: Node, m: BatcherMsg)
    requires Running(s) && !m.Committed? && !m.RolledBack?
    ensures Running(s.(toBatcher := s.toBatcher + [m]))
  {
    hide LedgerInv, BatchInv, EmissionInv, PendingInv, RotationAt, CommittedBy;
    NoticeFrame(s.ledger.st, s.emitted, s.toRouter, s.toBatcher, m);
  }

  lemma OnNewBlockFrame(s: Node, b: Block)
    ensures OnNewBlock(s, b).bs == s.bs && OnNewBlock(s, b).cfg == s.cfg
  {
    hide Deliver;
  }

  lemma {:induction false} DoNewBlocksKeeps(s: Node, q: seq<(BatchHash, Batch)>)
    requires Running(s) && PendingInv(s.bs, q)
    ensures Running(DoNewBlocks(s, q))
    decreases |q|
  {
    hide NodeInv, DoNewBlock;
    if q != [] {
      DoNewBlockKeeps(s, q[0].1);
      DoNewBlocksKeeps(DoNewBlock(s, q[0].1), q[1..]);
    }
  }

  lemma HeadIsStored(s: Node)
    requires Running(s)
    ensures Delivered(s, s.ledger.lastSeen.hash)
  {
  }

  lemma TryRoundVoteKeeps(s: Node)
    requires Running(s)
    ensures Running(TryRoundVote(s))
  {
    var h := s.ledger.lastSeen.hash;
    var v := Vote(h, s.round, VIEW, Sig(s.cfg.me, AuthBy(s.cfg.me, OfVote(h, s.round, VIEW))));
    SendKeeps(s, 0, VoteMsg(v));
    hide OnVote, Deliver, ParkingOk, VotesParkedOk, EmissionInv, PendingInv, BatchInv, RotationAt, CommittedBy;
    OnVoteKeeps(Multicast(s, VoteMsg(v)), v);
  }

  lemma ProposeKeeps(s: Node)
    requires Running(s)
    ensures Running(Propose(s))
  {
    TakePendingKeeps(s);
    hide NodeInv, DoNewBlocks, TryRoundVote;
    if s.cfg.me == VIEW_LEADER {
      DoNewBlocksKeeps(s.(pending := []), s.pending);
      TryRoundVoteKeeps(DoNewBlocks(s.(pending := []), s.pending));
    } else {
      TryRoundVoteKeeps(s);
    }
  }

  lemma TakePendingKeeps(s: Node)
    requires Running(s)
    ensures Running(s.(pending := [])) && PendingInv(s.bs, s.pending)
  {
    hide LedgerInv, BatchInv, EmissionInv, RotationAt, CommittedBy;
  }

  lemma SealedKeeps(s: Node, batch: Batch)
    requires Running(s)
    ensures var h := BatchDigest(batch);
            Running(s.(bs := Persist(s.bs, h, batch), pending := s.pending + [(h, batch)]))
  {
    hide LedgerInv, BatchInv, EmissionInv, RotationAt, CommittedBy, Persist;
    PersistKeepsNode(s, batch);
  }

  lemma BootLedger(store: map<BatchHash, Batch>)
    requires StoreOk(store)
    ensures LedgerInv(INITIAL_LEDGER) && BatchInv(INITIAL_LEDGER, Batches(map[], store))
    ensures EmissionInv(INITIAL_LEDGER.st, [], [], [NewRound(VIEW_LEADER, 1)])
  {
    hide LedgerInv, EmissionInv;
    InitialLedgerInv();
    BootEmits(VIEW_LEADER);
  }

  lemma BootInv(cfg: Config, store: map<BatchHash, Batch>)
    requires ConfigOk(cfg) && StoreOk(store)
    ensures Running(Boot(cfg, store))
  {
    hide LedgerInv, BatchInv, EmissionInv;
    BootLedger(store);
    assert INITIAL_LEDGER.st.committed == {};
  }

  /** Every turn of the reactor keeps the invariant, whatever arrives.  The only thing that
      stops a replica is the unimplemented blame handler. */
  lemma ReactKeeps(s: Node, e: Event)
    requires Running(s)
    requires e.Received? ==> forall i :: 0 <= i < |e.msgs| ==> Decoded(e.msgs[i])
    ensures NodeInv(React(s, e)) && (React(s, e).halted <==> e.Received? && HasBlame(e.msgs))
  {
    match e
    case Received(ms) =>
      BufferedOk(ms);
      hide NodeInv, ProcessMessages, Propose, BufferedBlocks, BufferedResponses, BufferedOthers, HasBlame;
      ProcessKeeps(s, BufferedBlocks(ms), BufferedResponses(ms), BufferedOthers(ms));
      var t := ProcessMessages(s, BufferedBlocks(ms), BufferedResponses(ms), BufferedOthers(ms));
      if t.halted {
        HaltedProposesNothing(t);
      } else {
        ProposeKeeps(t);
      }
    case Sealed(batch) =>
      SealedKeeps(s, batch);
      hide NodeInv, Propose;
      ProposeKeeps(s.(bs := Persist(s.bs, BatchDigest(batch), batch), pending := s.pending +
          [(BatchDigest(batch), batch)]));
    case Idle =>
      hide NodeInv, Propose;
      ProposeKeeps(s);
  }

  lemma HaltedProposesNothing(s: Node)
    requires s.halted
    ensures Propose(s) == s
  {
  }
}
