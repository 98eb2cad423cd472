/**
 Whole runs of one Artemis replica.  The messages are arbitrary: nothing is
 assumed about who sent them or whether the sender follows the code.
 */
module ArtemisRuns {
  import opened Transactions
  import opened Blocks
  import opened Chains
  import opened LeaderRotation
  import opened ArtemisCore
  import opened ArtemisDelivery
  import opened ArtemisSafety

  predicate EventDecoded(e: Event) {
    e.Received? ==> forall i :: 0 <= i < |e.msgs| ==> Decoded(e.msgs[i])
  }

  predicate RunOk(cfg: Config, store: map<BatchHash, Batch>, es: seq<Event>) {
    1 <= cfg.f < cfg.n && cfg.me < cfg.n && StoreOk(store) && forall i :: 0 <= i < |es| ==> EventDecoded(es[i])
  }

  function RunNode(s: Node, es: seq<Event>): (t: Node)
    ensures t.cfg == s.cfg
  {
    if es == [] then s else React(RunNode(s, es[..|es| - 1]), es[|es| - 1])
  }

  ghost predicate SawBlame(es: seq<Event>) {
    exists i :: 0 <= i < |es| && es[i].Received? && HasBlame(es[i].msgs)
  }

  lemma {:induction false} SawBlameSnoc(es: seq<Event>)
    requires es != []
    ensures var e := es[|es| - 1];
            SawBlame(es) <==> SawBlame(es[..|es| - 1]) || (e.Received? && HasBlame(e.msgs))
  {
    var init := es[..|es| - 1];
    assert forall i :: 0 <= i < |init| ==> init[i] == es[i];
    if SawBlame(es) {
      var i :| 0 <= i < |es| && es[i].Received? && HasBlame(es[i].msgs);
      assert i < |init| ==> init[i].Received? && HasBlame(init[i].msgs);
    }
  }

  /** The invariant holds after every run, and only a blame ever stops the replica: the
      lookups of the commit path and of the delivery path never fail. */
  lemma {:induction false} RunInv(cfg: Config, store: map<BatchHash, Batch>, es: seq<Event>)
    requires RunOk(cfg, store, es)
    ensures NodeInv(RunNode(Boot(cfg, store), es))
    ensures RunNode(Boot(cfg, store), es).halted <==> SawBlame(es)
  {
    hide NodeInv, React, HasBlame;
    BootInv(cfg, store);
    if es != [] {
      RunInv(cfg, store, es[..|es| - 1]);
      SawBlameSnoc(es);
      hide SawBlame, Boot;
      var s := RunNode(Boot(cfg, store), es[..|es| - 1]);
      var e := es[|es| - 1];
      if s.halted {
        HaltedReact(s, e);
      } else {
        assert EventDecoded(e);
        ReactKeeps(s, e);
      }
    }
  }

  lemma HaltedReact(s: Node, e: Event)
    requires s.halted
    ensures React(s, e) == s
  {
  }

  // ---------------------------------------------------------------- delivery closure, no lost wake-up

  lemma {:induction false} DeliveryClosure(cfg: Config, store: map<BatchHash, Batch>, es: seq<Event>)
    requires RunOk(cfg, store, es)
    ensures var l := RunNode(Boot(cfg, store), es).ledger;
            && (forall h :: h in l.st.byHash ==> Ancestors(h) <= l.st.byHash.Keys)
            && (forall p :: p in l.parentWaiting ==>
                  p !in l.st.byHash && l.parentWaiting[p] in l.undelivered &&
                      l.undelivered[l.parentWaiting[p]].header.prev == p)
            && (forall c :: c in l.undelivered ==>
                  c !in l.st.byHash && l.undelivered[c].header.prev in l.parentWaiting &&
                      l.parentWaiting[l.undelivered[c].header.prev] == c)
            && (forall h :: h in l.voteWaiting ==> h !in l.st.byHash && l.voteWaiting[h].hash == h)
            && (forall r :: r in l.voteReady ==> l.voteReady[r].round == r && l.voteReady[r].hash in l.st.byHash)
  {
    var s := RunNode(Boot(cfg, store), es);
    RunInv(cfg, store, es);
    hide RunNode, Boot, StorageOk, HeadOk, Ancestors, BatchInv, VotesInv, EmissionInv, PendingInv, CommittedBy,
      RotationAt;
    var l := s.ledger;
    forall h | h in l.st.byHash ensures Ancestors(h) <= l.st.byHash.Keys {
      ClosedHasAncestors(l.st.byHash.Keys, h);
    }
  }

  // ---------------------------------------------------------------- commit refinement

  /** The hash is at or below a block voted in rounds 1 to `k`. */
  ghost predicate BelowVote(votes: map<nat, Vote>, k: int, h: Hash) {
    exists r :: 1 <= r <= k && r in votes && h in Ancestors(votes[r].hash)
  }

  lemma BelowVoteStep(votes: map<nat, Vote>, k: int, h: Hash)
    requires k > 0 && k in votes
    ensures BelowVote(votes, k, h) <==> BelowVote(votes, k - 1, h) || h in Ancestors(votes[k].hash)
  {
    hide Ancestors;
    if BelowVote(votes, k, h) {
      var r :| 1 <= r <= k && r in votes && h in Ancestors(votes[r].hash);
      assert r < k ==> BelowVote(votes, k - 1, h);
    }
    if BelowVote(votes, k - 1, h) {
      var r :| 1 <= r <= k - 1 && r in votes && h in Ancestors(votes[r].hash);
    }
  }

  lemma {:induction false} CommittedByMember(votes: map<nat, Vote>, k: int, h: Hash)
    requires forall r :: 1 <= r <= k ==> r in votes
    ensures h in CommittedBy(votes, k) <==> BelowVote(votes, k, h)
    decreases k
  {
    if k > 0 {
      assert k in votes;
      CommittedByMember(votes, k - 1, h);
      BelowVoteStep(votes, k, h);
    }
    hide BelowVote, Ancestors;
    assert k <= 0 ==> !BelowVote(votes, k, h) by {
      NoVotes(votes, k, h);
    }
  }

  lemma NoVotes(votes: map<nat, Vote>, k: int, h: Hash)
    ensures k <= 0 ==> !BelowVote(votes, k, h)
  {
  }

  /** What is committed is exactly what lies at or below a block voted in rounds 1 to `round - 1 - f`. */
  lemma {:induction false} CommitRefinement(cfg: Config, store: map<BatchHash, Batch>, es: seq<Event>, h: Hash)
    requires RunOk(cfg, store, es)
    ensures var s := RunNode(Boot(cfg, store), es);
            && (forall r :: r in s.votes <==> 1 <= r < s.round)
            && (h in s.ledger.st.committed <==> BelowVote(s.votes, s.round - 1 - cfg.f, h))
            && s.ledger.st.committed <= s.ledger.st.byHash.Keys
  {
    hide RunNode, Boot, NodeInv, CommittedBy, BelowVote;
    RunInv(cfg, store, es);
    CommitRefinementOf(RunNode(Boot(cfg, store), es), h);
  }

  lemma CommitRefinementOf(s: Node, h: Hash)
    requires NodeInv(s)
    ensures forall r :: r in s.votes <==> 1 <= r < s.round
    ensures h in s.ledger.st.committed <==> BelowVote(s.votes, s.round - 1 - s.cfg.f, h)
    ensures s.ledger.st.committed <= s.ledger.st.byHash.Keys
  {
    hide NodeInv, CommittedBy, BelowVote;
    CommittedIsStored(s);
    CommittedIs(s);
    CommittedByMember(s.votes, s.round - 1 - s.cfg.f, h);
  }

  lemma CommittedIs(s: Node)
    requires NodeInv(s)
    ensures forall r :: r in s.votes <==> 1 <= r < s.round
    ensures s.ledger.st.committed == CommittedBy(s.votes, s.round - 1 - s.cfg.f)
  {
    hide LedgerInv, BatchInv, PendingInv, CommittedBy, RotationAt, EmissionInv, LastVotedOk;
  }

  lemma CommittedIsStored(s: Node)
    requires NodeInv(s)
    ensures s.ledger.st.committed <= s.ledger.st.byHash.Keys
  {
    hide LedgerInv, Ancestors, BatchInv, PendingInv, CommittedBy, RotationAt, VotesInv, ParentFirst, NoRepeats;
    forall h | h in s.ledger.st.committed ensures h in s.ledger.st.byHash {
      assert h in SetOf(HashesOf(s.emitted));
    }
  }

  // ---------------------------------------------------------------- announcements

  /** Each committed block is announced once, after its parent; nothing with a batch is skipped. */
  lemma {:induction false} AnnouncedInOrder(cfg: Config, store: map<BatchHash, Batch>, es: seq<Event>)
    requires RunOk(cfg, store, es)
    ensures var s := RunNode(Boot(cfg, store), es);
            && NoRepeats(HashesOf(s.emitted)) && SetOf(HashesOf(s.emitted)) == s.ledger.st.committed
            && (forall i :: 0 <= i < |s.emitted| && s.emitted[i].hash != EmptyHash ==>
                  exists j :: 0 <= j < i && s.emitted[j].hash == s.emitted[i].header.prev)
            && s.toRouter == PayloadsOf(s.emitted) && CommittedOf(s.toBatcher) == NoticesOf(s.emitted)
  {
    hide RunNode, Boot, NodeInv, NoRepeats, PayloadsOf, NoticesOf;
    RunInv(cfg, store, es);
    AnnouncedOf(RunNode(Boot(cfg, store), es));
  }

  lemma AnnouncedOf(s: Node)
    requires NodeInv(s)
    ensures NoRepeats(HashesOf(s.emitted)) && SetOf(HashesOf(s.emitted)) == s.ledger.st.committed
    ensures forall i :: 0 <= i < |s.emitted| && s.emitted[i].hash != EmptyHash ==>
              exists j :: 0 <= j < i && s.emitted[j].hash == s.emitted[i].header.prev
    ensures s.toRouter == PayloadsOf(s.emitted) && CommittedOf(s.toBatcher) == NoticesOf(s.emitted)
  {
    hide BatchInv, PendingInv, CommittedBy, RotationAt, VotesInv, HeadOk, ParkingOk, VotesParkedOk, Closed, NoRepeats;
    forall i | 0 <= i < |s.emitted| && s.emitted[i].hash != EmptyHash
      ensures exists j :: 0 <= j < i && s.emitted[j].hash == s.emitted[i].header.prev {
      StoredPrev(s.ledger.st, s.emitted[i].hash);
      var hs := HashesOf(s.emitted);
      assert Prev(hs[i]) in hs[..i];
      var j :| 0 <= j < i && hs[..i][j] == Prev(hs[i]);
      assert s.emitted[j].hash == s.emitted[i].header.prev;
    }
  }

  /** What was announced is never taken back. */
  lemma {:induction false} AnnouncedGrows(s: Node, es: seq<Event>, k: nat)
    requires k <= |es|
    ensures RunNode(s, es[..k]).emitted <= RunNode(s, es).emitted
  {
    hide React;
    if k < |es| {
      var init := es[..|es| - 1];
      AnnouncedGrows(s, init, k);
      assert init[..k] == es[..k];
      ReactEmits(RunNode(s, init), es[|es| - 1]);
    } else {
      assert es[..k] == es;
    }
  }

  lemma OnVoteEmits(s: Node, v: Vote)
    ensures s.emitted <= OnVote(s, v).emitted
  {
    hide EmitAll, WalkBack;
  }

  lemma {:induction false} DrainReadyEmits(s: Node)
    ensures s.emitted <= DrainReady(s).emitted
    decreases |s.ledger.voteReady|
  {
    hide OnVote;
    if !s.halted && s.round in s.ledger.voteReady {
      var v := s.ledger.voteReady[s.round];
      var s1 := s.(ledger := s.ledger.(voteReady := s.ledger.voteReady - {s.round}));
      assert s.ledger.voteReady.Keys == s1.ledger.voteReady.Keys + {s.round};
      OnVoteFrame(s1, v);
      OnVoteEmits(s1, v);
      DrainReadyEmits(OnVote(s1, v));
    }
  }

  lemma {:induction false} HandleBlocksEmits(s: Node, q: seq<(Block, Batch)>)
    ensures HandleBlocks(s, q).emitted == s.emitted
    decreases |q|
  {
    if q != [] && !s.halted {
      HandleBlocksEmits(HandleNewBlock(s, q[0].0, q[0].1), q[1..]);
    }
  }

  lemma {:induction false} HandleResponsesEmits(s: Node, q: seq<(Replica, Block, Batch)>)
    ensures HandleResponses(s, q).emitted == s.emitted
    decreases |q|
  {
    if q != [] && !s.halted {
      HandleResponsesEmits(HandleResponse(s, q[0].0, q[0].1, q[0].2), q[1..]);
    }
  }

  lemma HandleOtherEmits(s: Node, m: Msg)
    ensures s.emitted <= HandleOther(s, m).emitted
  {
    hide OnVote, ReadBatch;
    match m
    case VoteMsg(v) => OnVoteEmits(s, v);
    case Relay(_, v) => OnVoteEmits(s, v);
    case _ =>
  }

  lemma {:induction false} HandleOthersEmits(s: Node, q: seq<Msg>)
    ensures s.emitted <= HandleOthers(s, q).emitted
    decreases |q|
  {
    hide HandleOther;
    if q != [] && !s.halted {
      HandleOtherEmits(s, q[0]);
      HandleOthersEmits(HandleOther(s, q[0]), q[1..]);
    }
  }

  lemma {:induction false} DoNewBlocksEmits(s: Node, q: seq<(BatchHash, Batch)>)
    ensures DoNewBlocks(s, q).emitted == s.emitted
    decreases |q|
  {
    if q != [] && !s.halted {
      DoNewBlocksEmits(DoNewBlock(s, q[0].1), q[1..]);
    }
  }

  lemma ProposeEmits(s: Node)
    ensures s.emitted <= Propose(s).emitted
  {
    hide OnVote, DoNewBlocks;
    DoNewBlocksEmits(s.(pending := []), s.pending);
    var t := if s.cfg.me == VIEW_LEADER then DoNewBlocks(s.(pending := []), s.pending) else s;
    var h := t.ledger.lastSeen.hash;
    var v := Vote(h, t.round, VIEW, Sig(t.cfg.me, AuthBy(t.cfg.me, OfVote(h, t.round, VIEW))));
    OnVoteEmits(Multicast(t, VoteMsg(v)), v);
  }

  lemma ReactEmits(s: Node, e: Event)
    ensures s.emitted <= React(s, e).emitted
  {
    hide HandleBlocks, HandleResponses, HandleOthers, DrainReady, Propose;
    if !s.halted {
      match e
      case Received(ms) =>
        var s1 := HandleBlocks(s, BufferedBlocks(ms));
        var s2 := HandleResponses(s1, BufferedResponses(ms));
        var s3 := DrainReady(s2);
        var s4 := HandleOthers(s3, BufferedOthers(ms));
        HandleBlocksEmits(s, BufferedBlocks(ms));
        HandleResponsesEmits(s1, BufferedResponses(ms));
        DrainReadyEmits(s2);
        HandleOthersEmits(s3, BufferedOthers(ms));
        DrainReadyEmits(s4);
        ProposeEmits(DrainReady(s4));
      case Sealed(batch) =>
        ProposeEmits(s.(bs := Persist(s.bs, BatchDigest(batch), batch), pending := s.pending +
            [(BatchDigest(batch), batch)]));
      case Idle => ProposeEmits(s);
    }
  }

  // ---------------------------------------------------------------- batch availability

  /** Every delivered block except genesis has its batch in the cache, and a read agrees with the store. */
  lemma {:induction false} BatchesAvailable(cfg: Config, store: map<BatchHash, Batch>, es: seq<Event>, h: Hash)
    requires RunOk(cfg, store, es) && h in RunNode(Boot(cfg, store), es).ledger.st.byHash && h != EmptyHash
    ensures var s := RunNode(Boot(cfg, store), es);
            var b := s.ledger.st.byHash[h];
            && b.batch in s.bs.cache && b.batch == BatchDigest(s.bs.cache[b.batch])
            && ReadBatch(s.bs, b.batch) == (Some(s.bs.cache[b.batch]), s.bs)
            && b.batch in s.bs.store && s.bs.store[b.batch] == s.bs.cache[b.batch]
  {
    var s := RunNode(Boot(cfg, store), es);
    RunInv(cfg, store, es);
    hide RunNode, Boot, PendingInv, CommittedBy, RotationAt, VotesInv, EmissionInv, ParkingOk, VotesParkedOk, HeadOk,
      Closed;
    assert HasBatch(s.bs)(s.ledger.st.byHash[h]);
    ReadsAgree(s.bs, s.ledger.st.byHash[h].batch);
  }

  // ---------------------------------------------------------------- leaders

  /** The leader depends on `(n, f, round)` and the digest only, and is the one predicted a round before. */
  lemma {:induction false} LeaderOfRound(cfg: Config, store: map<BatchHash, Batch>, es: seq<Event>)
    requires RunOk(cfg, store, es)
    ensures var s := RunNode(Boot(cfg, store), es);
            && s.round >= 1 && s.rot.leader == LeaderAt(cfg.n, cfg.f, cfg.digest, s.round)
            && Partition(s.rot, cfg.n, cfg.f)
            && NextLeader(s) == LeaderAt(cfg.n, cfg.f, cfg.digest, s.round + 1)
  {
    hide RunNode, Boot, NodeInv, Partition, LeaderAt, NextLeader;
    RunInv(cfg, store, es);
    LeaderOf(RunNode(Boot(cfg, store), es));
  }

  lemma LeaderOf(s: Node)
    requires NodeInv(s)
    ensures s.round >= 1 && ConfigOk(s.cfg) && s.rot.leader == LeaderAt(s.cfg.n, s.cfg.f, s.cfg.digest, s.round)
    ensures Partition(s.rot, s.cfg.n, s.cfg.f) && s.rot.eligible != []
    ensures NextLeader(s) == LeaderAt(s.cfg.n, s.cfg.f, s.cfg.digest, s.round + 1)
  {
    hide PendingInv, CommittedBy, VotesInv, EmissionInv, LedgerInv, BatchInv, Partition, LastVotedOk;
    RotationPartition(s.cfg.n, s.cfg.f, s.cfg.digest, s.round);
    NextPick(s.cfg.n, s.cfg.f, s.cfg.digest, s.round);
  }

  lemma NextPick(n: nat, f: nat, digest: nat -> nat, r: nat)
    requires 1 <= f < n && r >= 1
    ensures RotationAt(n, f, digest, r).eligible != []
    ensures var rot := RotationAt(n, f, digest, r);
            LeaderAt(n, f, digest, r + 1) == rot.eligible[Pick(rot, digest(r + 1))]
  {
    RotationStep(n, f, digest, r + 1);
  }
}
