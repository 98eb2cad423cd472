/**
 No proposal is lost in Apollo.  Among replicas that follow the code, proposals
 may arrive in any order, in any bursts and any number of times: a replica that
 has got the proposals of rounds 1 to k, or made them itself, is past round k.
 From every state of every run each replica can therefore catch up with all
 others in one turn, on messages that were sent.
 */
module ApolloProgress {
  import opened Transactions
  import opened Blocks
  import opened Chains
  import opened ApolloCore
  import opened ApolloBuffers
  import opened ApolloAgreement
  import opened ApolloCluster

  // ---------------------------------------------------------------- the invariant

  /** Round `r` is behind this replica, or its proposal is kept for its turn or parked below its parent. */
  predicate Kept(s: Node, c: seq<Block>, r: nat) {
    1 <= r < |c| && (s.round > r || r in s.future || Prev(c[r].hash) in s.parked)
  }

  /** What is parked is for later rounds, except below the block `x`. */
  ghost predicate AheadBut(s: Node, x: Hash) {
    forall h :: h in s.parked && h != x ==> s.round < s.parked[h].round
  }

  ghost predicate Ahead(s: Node) {
    forall h :: h in s.parked ==> s.round < s.parked[h].round
  }

  /** Nothing that was kept is lost. */
  ghost predicate KeepsAll(s: Node, t: Node, c: seq<Block>) {
    forall r :: Kept(s, c, r) ==> Kept(t, c, r)
  }

  lemma KeepsTrans(a: Node, b: Node, d: Node, c: seq<Block>)
    requires KeepsAll(a, b, c) && KeepsAll(b, d, c)
    ensures KeepsAll(a, d, c)
  {
  }

  // ---------------------------------------------------------------- delivery

  /** A parked proposal of the history is parked below its own parent. */
  lemma ParkedBelow(s: Node, h: Hash, c: seq<Block>)
    requires Good(s, c) && h in s.parked
    ensures var r := s.parked[h].round; 1 <= r < |c| && s.parked[h] == ProposeOf(c[r], r) && Prev(c[r].hash) == h
    ensures c[s.parked[h].round - 1].hash == h
  {
    hide EmissionInv, FutureOk, PendingInv, BatchesOk, AcceptedOk, LogInv, HonestNet, HonestStore, IndexOk;
    assert HonestProp(c, s.parked[h]);
    assert Finalized(c[s.parked[h].round]);
  }

  lemma PrevIs(s: Node, c: seq<Block>, r: nat)
    requires Good(s, c) && 1 <= r < |c|
    ensures Prev(c[r].hash) == c[r - 1].hash && c[r].header.prev == c[r - 1].hash
  {
    hide NodeInvAt, Honest;
    assert Finalized(c[r]);
  }

  lemma AcceptMovesOn(s: Node, p: Propose, b: Block, c: seq<Block>)
    requires Good(s, c) && AtHand(s, p, b) && HonestProp(c, p) && b == c[p.round] && p.round == s.round
    ensures Acceptable(s, p, b)
  {
    hide TablesOk, PendingInv, HonestStore, HonestBuffers, HonestNet, Progress, ChainOk;
    HistoryBlock(s.cfg.n, c, p.round);
  }

  /** The proposal is passed or kept, and only what is parked below its block may have become due. */
  lemma TryReceiveKept(s: Node, p: Propose, b: Block, from: Replica, c: seq<Block>)
    requires Good(s, c) && AtHand(s, p, b) && HonestProp(c, p) && b == c[p.round] && Ahead(s)
    ensures var t := TryReceive(s, p, b, from);
            KeepsAll(s, t, c) && (t.round > p.round || p.round in t.future) && AheadBut(t, p.hash)
  {
    hide NodeInv, Honest, HistoryOk, OnProposal, AtHand;
    var t := TryReceive(s, p, b, from);
    if s.round == p.round {
      AcceptMovesOn(s, p, b, c);
      OnProposalGood(s, p, b, c);
      forall h | h in t.parked && h != p.hash ensures t.round < t.parked[h].round {
        ParkedBelow(s, h, c);
        HonestIs(c, p);
      }
    }
  }

  lemma HonestIs(c: seq<Block>, p: Propose)
    requires HonestProp(c, p)
    ensures 1 <= p.round < |c| && p.hash == c[p.round].hash
  {
  }

  lemma UnparkKept(s: Node, h: Hash, c: seq<Block>)
    requires Good(s, c) && AheadBut(s, h) && h in s.parked
    ensures var s1 := s.(parked := s.parked - {h});
            && Ahead(s1) && forall r :: Kept(s, c, r) ==> Kept(s1, c, r) || r == s.parked[h].round
  {
    hide NodeInv, Honest, HistoryOk;
    ParkedBelow(s, h, c);
    forall r | 1 <= r < |c| && Prev(c[r].hash) == h ensures r == s.parked[h].round {
      PrevIs(s, c, r);
      HistoryChain(s, c);
      ChainDistinct(c, r - 1, s.parked[h].round - 1);
    }
  }

  lemma HistoryChain(s: Node, c: seq<Block>)
    requires Good(s, c)
    ensures ChainOk(c) && s.cfg.n > 0 && 1 <= s.round <= |c|
  {
    hide NodeInv, HonestStore, HonestBuffers, HonestNet, LogInv, ChainOk;
  }

  lemma {:induction false} DrainKept(s: Node, h: Hash, sender: Replica, c: seq<Block>)
    requires Good(s, c) && h in s.st.byHash && AheadBut(s, h)
    ensures KeepsAll(s, DrainParked(s, h, sender), c) && Ahead(DrainParked(s, h, sender))
    decreases |s.parked|
  {
    hide NodeInv, Honest, HistoryOk, TryReceive, AtHand, HonestProp, Kept;
    if h in s.parked {
      var p := s.parked[h];
      var s1 := s.(parked := s.parked - {h});
      assert s.parked.Keys == s1.parked.Keys + {h};
      ParkedHonest(s, h, c);
      HonestIs(c, p);
      UnparkKept(s, h, c);
      TryReceiveGood(s1, p, c[p.round], sender, c);
      TryReceiveKept(s1, p, c[p.round], sender, c);
      var s2 := TryReceive(s1, p, c[p.round], sender);
      NowKept(s2, p, c);
      DrainKept(s2, p.hash, sender, c);
    }
  }

  lemma NowKept(s: Node, p: Propose, c: seq<Block>)
    requires HonestProp(c, p) && (s.round > p.round || p.round in s.future)
    ensures 1 <= p.round < |c| && Kept(s, c, p.round)
  {
  }

  /** All blocks below the current round are stored. */
  lemma BelowIsStored(s: Node, c: seq<Block>, r: nat)
    requires Good(s, c) && r < |c| && c[r].hash !in s.st.byHash
    ensures s.round <= r
  {
    hide EmissionInv, ParkedOk, FutureOk, PendingInv, BatchesOk, LogInv, HonestNet, HonestStore, HonestBuffers;
  }

  lemma ParkKept(s: Node, p: Propose, sender: Replica, c: seq<Block>)
    requires Good(s, c) && HonestProp(c, p) && Ahead(s) && Prev(p.hash) !in s.st.byHash
    ensures var t := Send(s.(parked := s.parked[Prev(p.hash) := p]), sender, Request(s.cfg.me, 0, Prev(p.hash)));
            Ahead(t) && KeepsAll(s, t, c) && Kept(t, c, p.round)
  {
    hide NodeInv, Honest, HistoryOk;
    HonestIs(c, p);
    PrevIs(s, c, p.round);
    BelowIsStored(s, c, p.round - 1);
  }

  lemma ResolveKept(s: Node, sender: Replica, p: Propose, b: Block, c: seq<Block>)
    requires Good(s, c) && HonestProp(c, p) && b == c[p.round] && BatchOk(s.bs, b) && Ahead(s)
    ensures var t := Resolve(s, sender, p, b); KeepsAll(s, t, c) && Ahead(t) && Kept(t, c, p.round)
  {
    hide NodeInv, Honest, HistoryOk, DrainParked, TryReceive, BatchOk, Kept;
    HistoryBlock(s.cfg.n, c, p.round);
    HonestIs(c, p);
    PrevIs(s, c, p.round);
    StoreGood(s, b, c);
    var s1 := s.(st := AddDelivered(s.st, b));
    StoreKept(s, s1, c);
    if b.header.prev !in s.st.byHash {
      StillMissing(s, b);
      ParkKept(s1, p, sender, c);
    } else {
      TryReceiveGood(s1, p, b, sender, c);
      TryReceiveKept(s1, p, b, sender, c);
      var s2 := TryReceive(s1, p, b, sender);
      var s3 := s2.(waiting := s2.waiting - {p.hash});
      ForgetWaitingKeeps(s2, s2.waiting - {p.hash});
      ForgetHonest(s2, s2.waiting - {p.hash}, c);
      StoreKept(s2, s3, c);
      NowKept(s3, p, c);
      DrainKept(s3, p.hash, sender, c);
    }
  }

  lemma StillMissing(s: Node, b: Block)
    requires Finalized(b) && b.header.prev !in s.st.byHash
    ensures Prev(b.hash) == b.header.prev && b.header.prev !in AddDelivered(s.st, b).byHash
  {
    NotOwnAncestor(b.hash);
  }

  lemma StoreKept(s: Node, t: Node, c: seq<Block>)
    requires t.round == s.round && t.future == s.future && t.parked == s.parked
    ensures KeepsAll(s, t, c) && (Ahead(s) ==> Ahead(t)) && forall h :: AheadBut(s, h) ==> AheadBut(t, h)
  {
  }

  lemma OnFullKept(s: Node, sender: Replica, p: Propose, b: Block, batch: Batch, c: seq<Block>)
    requires Good(s, c) && HonestProp(c, p) && b == c[p.round] && BatchMatches(b, batch) && Ahead(s)
    ensures var t := OnFullProposal(s, sender, p, b, batch); KeepsAll(s, t, c) && Ahead(t) && Kept(t, c, p.round)
  {
    hide NodeInv, Honest, HistoryOk, Resolve;
    HonestIs(c, p);
    if p.round in s.byRound {
      RoundPassed(s, p.round);
    } else {
      PersistKeepsNode(s, batch);
      var s1 := s.(bs := Persist(s.bs, b.batch, batch));
      BatchesHonest(s, s1.bs, s.pending, c);
      StoreKept(s, s1, c);
      ResolveKept(s1, sender, p, b, c);
    }
  }

  lemma RoundPassed(s: Node, r: nat)
    requires NodeInv(s) && r in s.byRound
    ensures s.round > r
  {
    hide IndexOk, BatchesOk, ParkedOk, FutureOk, EmissionInv, PendingInv;
  }

  lemma OnBareKept(s: Node, sender: Replica, p: Propose, c: seq<Block>)
    requires Good(s, c) && HonestProp(c, p) && Ahead(s)
    ensures var t := OnBareProposal(s, sender, p);
            KeepsAll(s, t, c) && Ahead(t) && (p.hash in s.st.byHash ==> Kept(t, c, p.round))
  {
    hide NodeInv, Honest, HistoryOk, Resolve, BatchOk, Storable;
    HonestIs(c, p);
    if p.round in s.byRound {
      RoundPassed(s, p.round);
    } else if p.hash in s.st.byHash {
      StoredProposal(s, p, c);
      StoredIsStorable(s, p.hash);
      ResolveKept(s, sender, p, c[p.round], c);
    } else {
      StoreKept(s, OnBareProposal(s, sender, p), c);
    }
  }

  // ---------------------------------------------------------------- message loops

  predicate HonestFull(c: seq<Block>, e: Full) {
    HonestProp(c, e.1) && e.2 == c[e.1.round] && BatchMatches(e.2, e.3)
  }

  lemma {:induction false} HandleFullKept(s: Node, q: seq<Full>, c: seq<Block>)
    requires Good(s, c) && Ahead(s) && forall i :: 0 <= i < |q| ==> HonestFull(c, q[i])
    ensures KeepsAll(s, HandleFull(s, q), c) && Ahead(HandleFull(s, q))
    ensures forall i :: 0 <= i < |q| ==> Kept(HandleFull(s, q), c, q[i].1.round)
    decreases |q|
  {
    hide NodeInv, Honest, HistoryOk, OnFullProposal, Kept, Ahead;
    if q != [] {
      var s1 := OnFullProposal(s, q[0].0, q[0].1, q[0].2, q[0].3);
      OnFullGood(s, q[0].0, q[0].1, q[0].2, q[0].3, c);
      OnFullKept(s, q[0].0, q[0].1, q[0].2, q[0].3, c);
      HandleFullKept(s1, q[1..], c);
      assert forall i :: 0 < i < |q| ==> q[i] == q[1..][i - 1];
    }
  }

  lemma {:induction false} HandleBareKept(s: Node, q: seq<(Replica, Propose)>, c: seq<Block>)
    requires Good(s, c) && Ahead(s) && forall i :: 0 <= i < |q| ==> HonestProp(c, q[i].1)
    ensures KeepsAll(s, HandleBare(s, q), c) && Ahead(HandleBare(s, q))
    ensures forall i :: 0 <= i < |q| && q[i].1.hash in s.st.byHash ==> Kept(HandleBare(s, q), c, q[i].1.round)
    decreases |q|
  {
    hide NodeInv, Honest, HistoryOk, OnBareProposal, Kept, Ahead;
    if q != [] {
      OnBareGood(s, q[0].0, q[0].1, c);
      OnBareKept(s, q[0].0, q[0].1, c);
      OnBareStores(s, q[0].0, q[0].1);
      HandleBareKept(OnBareProposal(s, q[0].0, q[0].1), q[1..], c);
      assert forall i :: 0 < i < |q| ==> q[i] == q[1..][i - 1];
    }
  }

  lemma {:induction false} DrainStores(s: Node, h: Hash, sender: Replica)
    ensures s.st.byHash.Keys <= DrainParked(s, h, sender).st.byHash.Keys
    decreases |s.parked|
  {
    hide TryReceive;
    if !s.halted && h in s.parked && s.parked[h].hash in s.st.byHash {
      var p := s.parked[h];
      var s1 := s.(parked := s.parked - {h});
      assert s.parked.Keys == s1.parked.Keys + {h};
      TryReceiveStores(s1, p, s.st.byHash[p.hash], sender);
      DrainStores(TryReceive(s1, p, s.st.byHash[p.hash], sender), p.hash, sender);
    }
  }

  lemma CommitStores(s: Node)
    ensures CommitIfDue(s).st.byHash == s.st.byHash
  {
    hide WalkBack, EmitAll;
    if s.round > s.cfg.f && s.round - s.cfg.f in s.byRound {
      WalkKeepsBlocks(s.st, s.byRound[s.round - s.cfg.f].hash);
    }
  }

  lemma TryReceiveStores(s: Node, p: Propose, b: Block, from: Replica)
    ensures TryReceive(s, p, b, from).st.byHash == s.st.byHash
  {
    hide Record, CommitIfDue, Acceptable, Equivocates;
    CommitStores(Record(s, p, b));
  }

  lemma OnBareStores(s: Node, sender: Replica, p: Propose)
    ensures s.st.byHash.Keys <= OnBareProposal(s, sender, p).st.byHash.Keys
  {
    hide TryReceive, DrainParked;
    if p.hash in s.st.byHash {
      var b := s.st.byHash[p.hash];
      var s1 := s.(st := AddDelivered(s.st, b));
      TryReceiveStores(s1, p, b, sender);
      var s2 := TryReceive(s1, p, b, sender);
      DrainStores(s2.(waiting := s2.waiting - {p.hash}), p.hash, sender);
    }
  }

  lemma {:induction false} HandleOthersKept(s: Node, q: seq<Msg>, c: seq<Block>)
    ensures KeepsAll(s, HandleOthers(s, q), c) && (Ahead(s) ==> Ahead(HandleOthers(s, q)))
    decreases |q|
  {
    hide Kept, Ahead, HandleOther;
    if q != [] && !s.halted {
      OtherKept(s, q[0], c);
      HandleOthersKept(HandleOther(s, q[0]), q[1..], c);
    }
  }

  lemma OtherKept(s: Node, m: Msg, c: seq<Block>)
    ensures KeepsAll(s, HandleOther(s, m), c) && (Ahead(s) ==> Ahead(HandleOther(s, m)))
  {
    hide ReadBatch;
    StoreKept(s, HandleOther(s, m), c);
  }

  /** Replaying takes the current round's proposal out of the buffer and accepts it. */
  lemma ReplayOneKept(s: Node, c: seq<Block>)
    requires Good(s, c) && Ahead(s) && s.round in s.future
    ensures var s1 := s.(future := s.future - {s.round});
            var t := OnBareProposal(s1, s.future[s.round].0, s.future[s.round].1);
            KeepsAll(s, t, c) && Ahead(t)
  {
    hide NodeInv, Honest, HistoryOk, OnBareProposal;
    var s1 := s.(future := s.future - {s.round});
    TakeFutureGood(s, c);
    TakeFutureKeeps(s);
    OnBareKept(s1, s.future[s.round].0, s.future[s.round].1, c);
  }

  lemma {:induction false} ReplayKept(s: Node, c: seq<Block>)
    requires Good(s, c) && Ahead(s)
    ensures KeepsAll(s, Replay(s), c) && Ahead(Replay(s))
    decreases Buffered(s)
  {
    hide NodeInv, Honest, HistoryOk, OnBareProposal, Kept, Ahead;
    if s.round in s.future {
      ReplayOne(s);
      TakeFutureGood(s, c);
      ReplayOneKept(s, c);
      var s1 := s.(future := s.future - {s.round});
      OnBareGood(s1, s.future[s.round].0, s.future[s.round].1, c);
      ReplayKept(OnBareProposal(s1, s.future[s.round].0, s.future[s.round].1), c);
    }
  }

  /** The message carries the proposal of round `r` with its block and batch. */
  predicate Carries(m: Msg, r: nat) {
    (m.NewProposal? || m.Response?) && m.prop.round == r
  }

  lemma {:induction false} BufferedCarries(ms: seq<Msg>, c: seq<Block>)
    requires forall i :: 0 <= i < |ms| ==> HonestMsg(c, ms[i])
    ensures forall i :: 0 <= i < |BufferedFull(ms)| ==> HonestFull(c, BufferedFull(ms)[i])
    ensures forall i, r :: 0 <= i < |ms| && Carries(ms[i], r) ==>
              exists j :: 0 <= j < |BufferedFull(ms)| && BufferedFull(ms)[j].1.round == r
  {
    if ms != [] {
      var init, m := ms[..|ms| - 1], ms[|ms| - 1];
      BufferedCarries(init, c);
      assert HonestMsg(c, m);
      var q, q' := BufferedFull(init), BufferedFull(ms);
      assert q <= q' && (m.NewProposal? || m.Response? ==> q'[|q|].1 == m.prop);
      forall i, r | 0 <= i < |ms| && Carries(ms[i], r) ensures exists j :: 0 <= j < |q'| && q'[j].1.round == r {
        if i < |init| {
          assert Carries(init[i], r);
          var j :| 0 <= j < |q| && q[j].1.round == r;
          assert q'[j].1.round == r;
        } else {
          assert q'[|q|].1.round == r;
        }
      }
    }
  }

  lemma {:induction false} BufferedRelay(ms: seq<Msg>, i: nat) returns (j: nat)
    requires i < |ms| && ms[i].Relay?
    ensures j < |BufferedBare(ms)| && BufferedBare(ms)[j].1 == ms[i].prop
  {
    var init, m := ms[..|ms| - 1], ms[|ms| - 1];
    var q, q' := BufferedBare(init), BufferedBare(ms);
    assert q <= q' && (m.Relay? ==> q'[|q|].1 == m.prop);
    if i < |init| {
      assert init[i] == ms[i];
      j := BufferedRelay(init, i);
    } else {
      j := |q|;
    }
  }

  /** The relayed proposal's block is stored once the burst's full proposals are handled. */
  predicate Resolvable(s: Node, ms: seq<Msg>, m: Msg) {
    m.Relay? && m.prop.hash in HandleFull(s, BufferedFull(ms)).st.byHash
  }

  /** Handling a burst loses nothing, keeps what came, and leaves nothing for the round it ends in. */
  lemma ProcessKept(s: Node, ms: seq<Msg>, c: seq<Block>)
    requires Good(s, c) && Ahead(s) && forall i :: 0 <= i < |ms| ==> HonestMsg(c, ms[i])
    ensures var t := ProcessMessages(s, ms);
            && KeepsAll(s, t, c) && Ahead(t) && t.round !in t.future
            && (forall i, r :: 0 <= i < |ms| && Carries(ms[i], r) ==> Kept(t, c, r))
            && (forall i :: 0 <= i < |ms| && Resolvable(s, ms, ms[i]) ==> Kept(t, c, ms[i].prop.round))
  {
    hide NodeInv, Honest, HistoryOk, HandleFull, HandleBare, HandleOthers, Replay, BufferedFull, BufferedBare,
      BufferedOthers, Ahead, Carries, Kept;
    BufferedHonest(ms, c);
    BufferedCarries(ms, c);
    var s1 := HandleFull(s, BufferedFull(ms));
    HandleFullGood(s, BufferedFull(ms), c);
    HandleFullKept(s, BufferedFull(ms), c);
    var s2 := HandleBare(s1, BufferedBare(ms));
    HandleBareGood(s1, BufferedBare(ms), c);
    HandleBareKept(s1, BufferedBare(ms), c);
    var s3 := HandleOthers(s2, BufferedOthers(ms));
    HandleOthersGood(s2, BufferedOthers(ms), c);
    HandleOthersKept(s2, BufferedOthers(ms), c);
    ReplayGood(s3, c);
    ReplayKept(s3, c);
    ReplayKeeps(s3);
    forall i | 0 <= i < |ms| && Resolvable(s, ms, ms[i]) ensures Kept(ProcessMessages(s, ms), c, ms[i].prop.round) {
      var j := BufferedRelay(ms, i);
      assert Kept(s2, c, BufferedBare(ms)[j].1.round);
    }
  }

  // ---------------------------------------------------------------- one turn of the reactor

  /** Between turns nothing waits for the current round. */
  ghost predicate Tidy(s: Node) {
    Ahead(s) && s.round !in s.future
  }

  lemma DoProposeFrame(s: Node, batch: Batch)
    ensures var t := DoPropose(s, batch); t.parked == s.parked && t.future == s.future && t.round >= s.round
  {
    hide Record, CommitIfDue, Equivocates;
  }

  lemma {:induction false} ProposeAllFrame(s: Node, q: seq<(BatchHash, Batch)>)
    ensures var t := ProposeAll(s, q); t.parked == s.parked && t.future == s.future && t.round >= s.round
    decreases |q|
  {
    hide DoPropose;
    if q != [] && !s.halted && s.leader == s.cfg.me {
      DoProposeFrame(s, q[0].1);
      ProposeAllFrame(DoPropose(s, q[0].1), q[1..]);
    }
  }

  /** A replica at the end of the history has nothing buffered for later. */
  lemma NothingAhead(s: Node, c: seq<Block>)
    requires Good(s, c) && Ahead(s) && s.round == |c|
    ensures s.parked == map[] && forall r :: r in s.future ==> r < |c|
  {
    hide NodeInv, HonestStore, HonestNet, Progress, HistoryOk;
    forall h | h in s.parked ensures false {
      ParkedBelow(s, h, c);
    }
    FutureRounds(s);
  }

  lemma FutureRounds(s: Node)
    requires NodeInv(s)
    ensures forall r :: r in s.future ==> s.future[r].1.round == r
  {
    hide IndexOk, BatchesOk, ParkedOk, EmissionInv, PendingInv, AcceptedOk;
  }

  lemma ProposeAllKept(s: Node, q: seq<(BatchHash, Batch)>, c: seq<Block>)
    requires Good(s, c) && Own(s, c) && Tidy(s) && PendingInv(s.bs, q)
    ensures Tidy(ProposeAll(s, q)) && KeepsAll(s, ProposeAll(s, q), c)
  {
    hide NodeInv, Honest, HistoryOk, DoPropose, Own, PendingInv;
    ProposeAllFrame(s, q);
    if q != [] && s.leader == s.cfg.me {
      LeaderIsNext(s, c);
      NothingAhead(s, c);
      FirstIsCached(s, q);
      DoProposeGood(s, q[0].1, c);
      ProposeAllFrame(DoPropose(s, q[0].1), q[1..]);
    }
  }

  lemma FirstIsCached(s: Node, q: seq<(BatchHash, Batch)>)
    requires PendingInv(s.bs, q) && q != []
    ensures BatchDigest(q[0].1) in s.bs.cache
  {
  }

  /** The rounds whose proposals the event brings, with block and batch. */
  function Brought(e: Event): set<nat> {
    if e.Received? then set i | 0 <= i < |e.msgs| && (e.msgs[i].NewProposal? || e.msgs[i].Response?) ::
      e.msgs[i].prop.round
    else {}
  }

  lemma ReactKept(s: Node, e: Event, c: seq<Block>)
    requires Good(s, c) && Own(s, c) && Tidy(s) && EventHonest(e, c)
    ensures var t := React(s, e);
            Tidy(t) && KeepsAll(s, t, c) && forall r :: r in Brought(e) ==> Kept(t, c, r)
  {
    hide NodeInv, Honest, HistoryOk, Own, ProcessMessages, ProposeAll, Kept, Ahead;
    var t := Absorb(s, e);
    AbsorbGood(s, e, c);
    OwnLater(s, t, c);
    match e {
      case Received(ms) =>
        ProcessKept(s, ms, c);
        forall r | r in Brought(e) ensures Kept(t, c, r) {
          var i :| 0 <= i < |ms| && (ms[i].NewProposal? || ms[i].Response?) && ms[i].prop.round == r;
          assert Carries(ms[i], r);
        }
      case Sealed(batch) => StoreKept(s, t, c);
      case Idle =>
    }
    PendingIsCached(t);
    ProposeAllKept(t, t.pending, c);
  }

  // ---------------------------------------------------------------- whole runs

  /** The rounds whose proposals replica `i` was handed in the run. */
  function GotRounds(turns: seq<Turn>, i: Replica): set<nat>
    decreases |turns|
  {
    if turns == [] then {}
    else (if turns[0].who == i then Brought(turns[0].event) else {}) + GotRounds(turns[1..], i)
  }

  ghost predicate AllKept(s: Node, c: seq<Block>, got: set<nat>) {
    forall r :: r in got ==> Kept(s, c, r)
  }

  lemma KeptGrows(s: Node, c: seq<Block>, c': seq<Block>, got: set<nat>)
    requires AllKept(s, c, got) && c <= c'
    ensures AllKept(s, c', got)
  {
  }

  lemma {:induction false} TurnKept(u: Setup, nodes: Cluster, turn: Turn, c: seq<Block>, i: nat, got: set<nat>)
    requires GlobalInv(u, nodes, c) && Possible(nodes, turn) && i < u.n && Tidy(nodes[i]) && AllKept(nodes[i], c, got)
    ensures Tidy(Take(nodes, turn)[i])
    ensures AllKept(Take(nodes, turn)[i], c, got + if turn.who == i then Brought(turn.event) else {})
  {
    hide Good, Own, React, SentTo, HistoryOk, Tidy, Kept, HonestMsg;
    if turn.who == i {
      if turn.event.Received? {
        forall j | 0 <= j < |turn.event.msgs| ensures HonestMsg(c, turn.event.msgs[j]) {
          SentHonest(u, nodes, turn.who, turn.event.msgs[j], c);
        }
      }
      ReactKept(nodes[i], turn.event, c);
    }
  }

  lemma {:induction false} RunKept(u: Setup, nodes: Cluster, turns: seq<Turn>, c: seq<Block>, i: nat, got: set<nat>)
    returns (c': seq<Block>)
    requires GlobalInv(u, nodes, c) && PossibleRun(nodes, turns) && i < u.n
    requires Tidy(nodes[i]) && AllKept(nodes[i], c, got)
    ensures c <= c' && GlobalInv(u, RunCluster(nodes, turns), c') && Tidy(RunCluster(nodes, turns)[i])
    ensures AllKept(RunCluster(nodes, turns)[i], c', got + GotRounds(turns, i))
    decreases |turns|
  {
    hide Good, Own, HistoryOk, Take, Possible, Tidy, AllKept, Brought;
    c' := c;
    if turns == [] {
      assert got + GotRounds(turns, i) == got;
    } else {
      var more := got + if turns[0].who == i then Brought(turns[0].event) else {};
      TurnKept(u, nodes, turns[0], c, i, got);
      c' := TurnAgrees(u, nodes, turns[0], c);
      var after := Take(nodes, turns[0]);
      KeptGrows(after[i], c, c', more);
      assert more + GotRounds(turns[1..], i) == got + GotRounds(turns, i);
      c' := RunKept(u, after, turns[1..], c', i, more);
    }
  }

  /** A kept round is not the current one. */
  lemma NotCurrent(s: Node, c: seq<Block>)
    requires Good(s, c) && Tidy(s)
    ensures !Kept(s, c, s.round)
  {
    hide NodeInv, Honest, HistoryOk;
    if Kept(s, c, s.round) {
      var h := Prev(c[s.round].hash);
      ParkedBelow(s, h, c);
      PrevIs(s, c, s.round);
      HistoryChain(s, c);
    }
  }

  lemma StartTidy(u: Setup, i: nat)
    requires SetupOk(u) && i < u.n
    ensures Tidy(Start(u)[i]) && AllKept(Start(u)[i], [GENESIS], {})
  {
  }

  /** Somebody is past the round. */
  ghost predicate Passed(nodes: Cluster, r: nat) {
    exists j :: 0 <= j < |nodes| && nodes[j].round > r
  }

  /** No proposal is lost: in every run, a replica that was handed the proposals of rounds 1 to `k`, in whatever order
      and bursts, except those it led itself, is past round `k`. */
  lemma {:induction false} NoProposalLost(u: Setup, turns: seq<Turn>, i: nat, k: nat)
    requires SetupOk(u) && PossibleRun(Start(u), turns) && i < u.n
    requires forall r :: 1 <= r <= k ==>
               r in GotRounds(turns, i) || (LeaderOf(u.n, r) == i && Passed(RunCluster(Start(u), turns), r))
    ensures RunCluster(Start(u), turns)[i].round > k
  {
    hide Start, PossibleRun, RunCluster, SetupOk, NodeInv, Honest, HistoryOk, Tidy, Kept, LeaderOf, GotRounds;
    StartInv(u);
    StartTidy(u, i);
    var c := RunKept(u, Start(u), turns, [GENESIS], i, {});
    var nodes := RunCluster(Start(u), turns);
    var s := nodes[i];
    HistoryChain(s, c);
    if s.round <= k {
      if s.round in GotRounds(turns, i) {
        NotCurrent(s, c);
      } else {
        var j :| 0 <= j < |nodes| && nodes[j].round > s.round;
        HistoryChain(nodes[j], c);
      }
    }
  }

  // ---------------------------------------------------------------- catching up

  /** Everything that was ever proposed. */
  function Everything(c: seq<Block>): (ms: seq<Msg>)
    requires c != []
    ensures |ms| == |c| - 1 && forall r :: 1 <= r < |c| ==> ms[r - 1] == Announce(c, r)
  {
    seq(|c| - 1, k requires 0 <= k < |c| - 1 => Announce(c, k + 1))
  }

  lemma EverythingWasSent(u: Setup, nodes: Cluster, c: seq<Block>, i: nat)
    requires GlobalInv(u, nodes, c) && i < u.n && c != []
    ensures Possible(nodes, Turn(i, Received(Everything(c))))
  {
    hide Good, HistoryOk, LeaderOf;
    var ms := Everything(c);
    forall k | 0 <= k < |ms| ensures SentTo(nodes, i, ms[k]) {
      var j := LeaderOf(u.n, k + 1);
      assert Own(nodes[j], c);
      assert ToAll(Announce(c, k + 1)) in nodes[j].net;
    }
  }

  lemma {:induction false} AllBrought(c: seq<Block>, r: nat)
    requires 1 <= r < |c|
    ensures r in Brought(Received(Everything(c)))
  {
    assert Everything(c)[r - 1].prop.round == r;
  }

  lemma CountGrows(s: Node, t: Node, c: seq<Block>, c': seq<Block>)
    requires Good(s, c) && Good(t, c') && c <= c' && s.cfg.f == t.cfg.f && s.round <= t.round
    ensures s.emitted <= t.emitted
  {
    hide NodeInv, HonestStore, HonestBuffers, HonestNet, LogInv, HistoryOk;
  }

  /** From every state of every run each replica can catch up in one turn: messages that were sent take it to the
      furthest round anybody is in, and it then has committed whatever anybody has. */
  lemma {:induction false} CatchUp(u: Setup, turns: seq<Turn>, i: nat) returns (turn: Turn)
    requires SetupOk(u) && PossibleRun(Start(u), turns) && i < u.n
    ensures var nodes := RunCluster(Start(u), turns);
            && turn.who == i && Possible(nodes, turn)
            && forall j :: 0 <= j < u.n ==>
                 nodes[j].round <= Take(nodes, turn)[i].round && nodes[j].emitted <= Take(nodes, turn)[i].emitted
  {
    hide Start, PossibleRun, RunCluster, SetupOk, NodeInv, Honest, HistoryOk, Tidy, Kept, LeaderOf, GotRounds, React,
      Own, Brought, Possible;
    StartInv(u);
    StartTidy(u, i);
    var nodes := RunCluster(Start(u), turns);
    var c := RunKept(u, Start(u), turns, [GENESIS], i, {});
    turn := Turn(i, Received(Everything(c)));
    EverythingWasSent(u, nodes, c, i);
    TurnKept(u, nodes, turn, c, i, {});
    var c' := TurnAgrees(u, nodes, turn, c);
    var t := Take(nodes, turn)[i];
    HistoryChain(t, c');
    NotCurrent(t, c');
    if t.round < |c| {
      AllBrought(c, t.round);
      KeptGrows(t, c, c', {t.round});
    }
    forall j | 0 <= j < u.n ensures nodes[j].round <= t.round && nodes[j].emitted <= t.emitted {
      HistoryChain(nodes[j], c);
      CountGrows(nodes[j], t, c, c');
    }
  }
}
