/**
 The Apollo replica as the program holds it: one object whose handlers update
 it in place.  Every handler is proved to be the function of the same name in
 ApolloCore, so all that is proved there of runs holds of this object.  A failed
 lookup of the commit walk sets `stop`, and `Same` says what is left behind.
 */
module ApolloNode {
  import opened Transactions
  import opened BatcherSpec
  import opened Blocks
  import opened Chains
  import opened NodeParts
  import opened ApolloCore
  import opened ApolloBuffers

  /** The object's state and the state the specification gives.  They differ in one case: a commit walk that fails
      leaves the blocks it has passed marked as committed. */
  ghost predicate Same(s: Node, t: Node) {
    s == t || (t.stop == MissingAncestor && s == t.(st := s.st) && MarkedMore(t.st, s.st))
  }

  ghost predicate MarkedMore(st: Storage, st': Storage) {
    st'.byHash == st.byHash && st'.byHeight == st.byHeight && st.committed <= st'.committed
  }

  lemma SameAsItself(s: Node)
    ensures Same(s, s)
  {
  }

  lemma SameStop(s: Node, t: Node)
    requires Same(s, t)
    ensures s.stop == t.stop && (s.stop == Running ==> s == t)
  {
  }

  /** What becomes of a proposal whose block and parent are stored. */
  ghost function Handled(s: Node, sender: Replica, p: Propose, b: Block): Node {
    var s2 := TryReceive(s, p, b, sender);
    if s2.halted then s2 else DrainParked(s2.(waiting := s2.waiting - {p.hash}), p.hash, sender)
  }

  lemma ResolveIs(s: Node, sender: Replica, p: Propose, b: Block)
    ensures b.header.prev in s.st.byHash ==>
              Resolve(s, sender, p, b) == Handled(s.(st := AddDelivered(s.st, b)), sender, p, b)
  {
    hide TryReceive, DrainParked;
  }

  /** One turn of the replay loop. */
  ghost function Replayed(s: Node): Node
    requires s.round in s.future
  {
    OnBareProposal(s.(future := s.future - {s.round}), s.future[s.round].0, s.future[s.round].1)
  }

  lemma ReplayIs(s: Node)
    requires !s.halted && s.round in s.future && Buffered(Replayed(s)) < Buffered(s)
    ensures Replay(s) == Replay(Replayed(s))
  {
    hide OnBareProposal, Buffered;
  }

  lemma ReplayEnds(s: Node)
    ensures s.round !in s.future ==> Replay(s) == s
  {
  }

  class Context {
    const cfg: Config
    const storage: BlockIndex
    const batches: BatchTable
    var round: nat
    var roundLeader: Replica
    var lastSeen: Block
    var propWaiting: map<Hash, Propose>
    var propWaitingParent: map<Hash, Propose>
    var futureMsgs: map<nat, (Replica, Propose)>
    var chainByRound: map<nat, Propose>
    var chainByHash: map<Hash, Propose>
    var pending: seq<(BatchHash, Batch)>
    var propBuf: seq<Full>
    var relayBuf: seq<(Replica, Propose)>
    var otherBuf: seq<Msg>
    var net: seq<Packet>
    var toBatcher: seq<BatcherMsg>
    var toRouter: seq<Batch>
    var stop: Stop
    ghost var emitted: seq<Block>

    ghost function View(): Node
      reads this, storage, batches
    {
      Node(cfg, round, roundLeader,
           Storage(storage.delivered, storage.deliveredAt, storage.committed, storage.committedAt), lastSeen,
               propWaiting, propWaitingParent, futureMsgs, chainByRound, chainByHash,
           batches.View(), pending, net, toBatcher, toRouter, emitted, stop)
    }

    ghost predicate Valid()
      reads this, storage, batches
    {
      NodeInv(View()) && stop == Running
    }

    constructor (cfg: Config, store: map<BatchHash, Batch>)
      requires ConfigOk(cfg) && StoreOk(store)
      ensures Valid() && View() == Boot(cfg, store)
      ensures propBuf == [] && relayBuf == [] && otherBuf == []
      ensures fresh(storage) && fresh(batches)
    {
      hide NodeInv;
      BootInv(cfg, store);
      this.cfg := cfg;
      storage := new BlockIndex();
      batches := new BatchTable(store);
      round, roundLeader, lastSeen := 1, 0, GENESIS;
      propWaiting, propWaitingParent, futureMsgs, chainByRound, chainByHash := map[], map[], map[], map[], map[];
      pending, propBuf, relayBuf, otherBuf := [], [], [], [];
      net, toBatcher, toRouter, stop, emitted := [], [NewRound(0, 1)], [], Running, [];
      new;
      storage.AddDeliveredBlock(lastSeen);
      assert storage.View() == INITIAL_STORAGE;
      assert View() == Boot(cfg, store);
    }

    // ---------------------------------------------------------------- context helpers

    method SendTo(to: Replica, m: Msg)
      modifies this`net
      ensures View() == Send(old(View()), to, m)
    {
      if to == cfg.me {
        return;
      }
      net := net + [To(to, m)];
    }

    method GoToNextRound()
      modifies this
      ensures View() == UpdateRound(old(View()))
      ensures propBuf == old(propBuf) && relayBuf == old(relayBuf) && otherBuf == old(otherBuf)
    {
      roundLeader := if roundLeader + 1 == cfg.n then 0 else roundLeader + 1;
      round := round + 1;
      toBatcher := toBatcher + [NewRound(roundLeader, round)];
    }

    // ---------------------------------------------------------------- commit

    method Commit()
      requires round > cfg.f && round - cfg.f in chainByRound
      requires forall h :: h in storage.delivered ==> storage.delivered[h].hash == h
      modifies this`toBatcher, this`toRouter, this`emitted, this`stop, storage, batches
      ensures Same(View(), DoCommit(old(View())))
    {
      hide EmitAll, WalkBack;
      var ok, newly := storage.CommitBack(chainByRound[round - cfg.f].hash);
      if !ok {
        stop := MissingAncestor;
        return;
      }
      var notices, payloads := batches.Announce(newly);
      toBatcher := toBatcher + notices;
      toRouter := toRouter + payloads;
      emitted := emitted + Reversed(newly);
    }

    // ---------------------------------------------------------------- proposals

    method TellProposed(p: Propose, b: Block)
      modifies this, batches
      ensures var (got, bs) := ReadBatch(old(View().bs), b.batch);
              View() == old(View()).(bs := bs, toBatcher := if got.Some?
                  then old(toBatcher) + [Proposed(got.value, p.round)] else old(toBatcher))
      ensures propBuf == old(propBuf) && relayBuf == old(relayBuf) && otherBuf == old(otherBuf)
    {
      hide ReadBatch;
      var got := batches.ReadCached(b.batch);
      if got.Some? {
        toBatcher := toBatcher + [Proposed(got.value, p.round)];
      }
    }

    method RecordProposal(p: Propose, b: Block)
      modifies this, batches
      ensures View() == Record(old(View()), p, b)
      ensures propBuf == old(propBuf) && relayBuf == old(relayBuf) && otherBuf == old(otherBuf)
    {
      hide ReadBatch, Send;
      SendTo(if roundLeader + 1 == cfg.n then 0 else roundLeader + 1, Relay(cfg.me, p));
      chainByHash := chainByHash[p.hash := p];
      chainByRound := chainByRound[p.round := p];
      TellProposed(p, b);
    }

    method CommitWhenDue()
      requires stop == Running && NodeInvAt(View(), round + 1)
      modifies this, storage, batches
      ensures Same(View(), CommitIfDue(old(View())))
      ensures propBuf == old(propBuf) && relayBuf == old(relayBuf) && otherBuf == old(otherBuf)
    {
      hide DoCommit, NodeInvAt, Same;
      SameAsItself(View());
      if round > cfg.f {
        CommitLookups(View());
        Commit();
      }
    }

    method AcceptIt(p: Propose, b: Block)
      requires Valid() && p.round == round && AtHand(View(), p, b) && b.hash == p.hash
      modifies this, storage, batches
      ensures Same(View(), AcceptProposal(old(View()), p, b))
      ensures propBuf == old(propBuf) && relayBuf == old(relayBuf) && otherBuf == old(otherBuf)
    {
      hide NodeInvAt, Record, CommitIfDue, AtHand;
      RecordTables(View(), p, b);
      RecordProposal(p, b);
      CommitWhenDue();
      if stop != Running {
        return;
      }
      lastSeen := b;
      GoToNextRound();
    }

    method ReceiveProposal(p: Propose, b: Block)
      requires Valid() && p.round == round && AtHand(View(), p, b) && b.hash == p.hash
      modifies this, storage, batches
      ensures Same(View(), OnProposal(old(View()), p, b)) && (stop != Running || Valid())
      ensures propBuf == old(propBuf) && relayBuf == old(relayBuf) && otherBuf == old(otherBuf)
    {
      hide NodeInvAt, AcceptProposal, AtHand;
      OnProposalKeeps(View(), p, b);
      if b.header.height in storage.deliveredAt {
        var x := storage.deliveredAt[b.header.height];
        if x.hash != b.hash && x.header.author == b.header.author {
          return;
        }
      }
      AcceptIt(p, b);
    }

    method TryReceiveProposal(p: Propose, b: Block, from: Replica)
      requires Valid() && AtHand(View(), p, b)
      modifies this, storage, batches
      ensures Same(View(), TryReceive(old(View()), p, b, from)) && (stop != Running || Valid())
      ensures propBuf == old(propBuf) && relayBuf == old(relayBuf) && otherBuf == old(otherBuf)
    {
      hide NodeInv, OnProposal, AtHand;
      TryReceiveKeeps(View(), p, b, from);
      if round > p.round {
        return;
      }
      if round < p.round {
        futureMsgs := futureMsgs[p.round := (from, p)];
        return;
      }
      if b.hash != p.hash || roundLeader != p.sig.origin || roundLeader != b.header.author {
        return;
      }
      if p.sig.origin != cfg.me && !Verifies(p.sig.origin, OfBlock(p.hash), p.sig) {
        return;
      }
      ReceiveProposal(p, b);
    }

    // ---------------------------------------------------------------- delivery

    /** The drain loop: whatever is parked below `start` is handled. */
    method ResumeParked(start: Hash, sender: Replica)
      requires Valid() && start in storage.delivered
      modifies this, storage, batches
      ensures Same(View(), DrainParked(old(View()), start, sender)) && (stop != Running || Valid())
      ensures propBuf == old(propBuf) && relayBuf == old(relayBuf) && otherBuf == old(otherBuf)
    {
      hide NodeInv, TryReceive, AtHand, StuckAtCommit;
      ghost var s := View();
      var h := start;
      while h in propWaitingParent
        invariant Valid() && h in storage.delivered
        invariant DrainParked(View(), h, sender) == DrainParked(s, start, sender)
        invariant propBuf == old(propBuf) && relayBuf == old(relayBuf) && otherBuf == old(otherBuf)
        decreases |propWaitingParent|
      {
        hide Same;
        var p := propWaitingParent[h];
        UnparkKeeps(View(), h);
        assert propWaitingParent.Keys == (propWaitingParent - {h}).Keys + {h};
        ghost var now := View();
        propWaitingParent := propWaitingParent - {h};
        ghost var taken := View();
        assert taken == now.(parked := now.parked - {h});
        var b := storage.delivered[p.hash];
        ghost var next := TryReceive(taken, p, b, sender);
        TryReceiveKeeps(taken, p, b, sender);
        TryReceiveProposal(p, b, sender);
        SameStop(View(), next);
        if stop != Running {
          DrainHalted(next, p.hash, sender);
          return;
        }
        h := p.hash;
      }
    }

    method ParkProposal(sender: Replica, p: Propose, b: Block)
      modifies this, storage
      ensures View() == Send(old(View()).(st := AddDelivered(old(View().st), b),
              parked := old(propWaitingParent)[b.header.prev := p]),
                             sender, Request(cfg.me, 0, b.header.prev))
      ensures propBuf == old(propBuf) && relayBuf == old(relayBuf) && otherBuf == old(otherBuf)
    {
      storage.AddDeliveredBlock(b);
      propWaitingParent := propWaitingParent[b.header.prev := p];
      SendTo(sender, Request(cfg.me, 0, b.header.prev));
    }

    method HandleDelivered(sender: Replica, p: Propose, b: Block)
      requires Valid() && AtHand(View(), p, b)
      modifies this, storage, batches
      ensures Same(View(), Handled(old(View()), sender, p, b)) && (stop != Running || Valid())
      ensures propBuf == old(propBuf) && relayBuf == old(relayBuf) && otherBuf == old(otherBuf)
    {
      hide NodeInv, TryReceive, DrainParked, AtHand, StuckAtCommit, Same;
      ghost var s1 := View();
      ghost var s2 := TryReceive(s1, p, b, sender);
      TryReceiveKeeps(s1, p, b, sender);
      Stored(s1, p, b);
      TryReceiveProposal(p, b, sender);
      SameStop(View(), s2);
      if stop != Running {
        return;
      }
      ForgetWaitingKeeps(s2, s2.waiting - {p.hash});
      propWaiting := propWaiting - {p.hash};
      ResumeParked(p.hash, sender);
    }

    /** The second half of the delivery check: the block of `p` is at hand. */
    method ResolveProposal(sender: Replica, p: Propose, b: Block)
      requires Valid() && Storable(b) && BatchOk(batches.View(), b) && b.hash == p.hash
      modifies this, storage, batches
      ensures Same(View(), Resolve(old(View()), sender, p, b)) && (stop != Running || Valid())
      ensures propBuf == old(propBuf) && relayBuf == old(relayBuf) && otherBuf == old(otherBuf)
    {
      hide NodeInv, TryReceive, DrainParked, Storable, BatchOk, Send, StuckAtCommit, Handled;
      ResolveIs(View(), sender, p, b);
      ResolveKeeps(View(), sender, p, b);
      if b.header.prev !in storage.delivered {
        ParkProposal(sender, p, b);
        return;
      }
      hide Same, Resolve;
      StoreKeeps(View(), b);
      StorableParent(b);
      storage.AddDeliveredBlock(b);
      HandleDelivered(sender, p, b);
    }

    /** The delivery check of a proposal that came with its block and batch. */
    method CheckFull(sender: Replica, p: Propose, b: Block, batch: Batch)
      requires Valid() && Finalized(b) && b.sig == UNSIGNED
      modifies this, storage, batches
      ensures Same(View(), OnFullProposal(old(View()), sender, p, b, batch)) && (stop != Running || Valid())
      ensures propBuf == old(propBuf) && relayBuf == old(relayBuf) && otherBuf == old(otherBuf)
    {
      hide NodeInv, Resolve;
      if p.round in chainByRound {
        return;
      }
      if b.hash != p.hash || b.batch != BatchDigest(batch) {
        return;
      }
      PersistKeepsNode(View(), batch);
      batches.PersistBatch(b.batch, batch);
      ResolveProposal(sender, p, b);
    }

    /** The delivery check of a proposal that came alone, or was kept for its round. */
    method CheckBare(sender: Replica, p: Propose)
      requires Valid()
      modifies this, storage, batches
      ensures Same(View(), OnBareProposal(old(View()), sender, p)) && (stop != Running || Valid())
      ensures propBuf == old(propBuf) && relayBuf == old(relayBuf) && otherBuf == old(otherBuf)
    {
      hide NodeInv, Resolve, Storable, BatchOk;
      OnBareKeeps(View(), sender, p);
      if p.round in chainByRound {
        return;
      }
      if p.hash !in storage.delivered {
        propWaiting := propWaiting[p.hash := p];
        SendTo(sender, Request(cfg.me, 0, p.hash));
        return;
      }
      StoredIsStorable(View(), p.hash);
      ResolveProposal(sender, p, storage.delivered[p.hash]);
    }

    method AnswerRequest(from: Replica, id: nat, h: Hash)
      modifies this, batches
      ensures View() == HandleRequest(old(View()), from, id, h)
      ensures propBuf == old(propBuf) && relayBuf == old(relayBuf) && otherBuf == old(otherBuf)
    {
      hide ReadBatch;
      if h !in chainByHash || h !in storage.delivered {
        return;
      }
      var b := storage.delivered[h];
      var got := batches.ReadCached(b.batch);
      if got.Some? {
        SendTo(from, Response(cfg.me, id, chainByHash[h], b, got.value));
      }
    }

    // ---------------------------------------------------------------- proposing

    method Lead(batch: Batch)
      requires Valid() && BatchDigest(batch) in batches.entries
      modifies this, storage, batches
      ensures Same(View(), DoPropose(old(View()), batch)) && (stop != Running || Valid())
      ensures propBuf == old(propBuf) && relayBuf == old(relayBuf) && otherBuf == old(otherBuf)
    {
      hide NodeInv, OnProposal, Same, AtHand;
      ghost var s := View();
      var b := NewBlock(lastSeen, cfg.me, batch, UNSIGNED);
      var p := Propose(b.hash, round, Sig(cfg.me, AuthBy(cfg.me, OfBlock(b.hash))));
      LeadReady(s, p, b, batch);
      net := net + [ToAll(NewProposal(p, b, batch))];
      toBatcher := toBatcher + [Proposed(batch, round)];
      storage.AddDeliveredBlock(b);
      ReceiveProposal(p, b);
    }

    // ---------------------------------------------------------------- message loops

    method BufferMessage(m: Msg)
      modifies this`propBuf, this`relayBuf, this`otherBuf
      ensures propBuf == old(propBuf) + BufferedFull([m])
      ensures relayBuf == old(relayBuf) + BufferedBare([m])
      ensures otherBuf == old(otherBuf) + BufferedOthers([m])
    {
      assert [m][..0] == [];
      match m
      case NewProposal(p, b, batch) => propBuf := propBuf + [(p.sig.origin, p, b, batch)];
      case Response(from, _, p, b, batch) => propBuf := propBuf + [(from, p, b, batch)];
      case Relay(from, p) => relayBuf := relayBuf + [(from, p)];
      case _ => otherBuf := otherBuf + [m];
    }

    method BufferAll(ms: seq<Msg>)
      requires propBuf == [] && relayBuf == [] && otherBuf == []
      modifies this`propBuf, this`relayBuf, this`otherBuf
      ensures propBuf == BufferedFull(ms) && relayBuf == BufferedBare(ms) && otherBuf == BufferedOthers(ms)
    {
      for k := 0 to |ms|
        invariant propBuf == BufferedFull(ms[..k]) && relayBuf == BufferedBare(ms[..k]) &&
                  otherBuf == BufferedOthers(ms[..k])
      {
        BufferedSnoc(ms[..k], ms[k]);
        assert ms[..k + 1] == ms[..k] + [ms[k]];
        BufferMessage(ms[k]);
      }
      assert ms[..|ms|] == ms;
    }

    method ProcessProposals()
      requires Valid() && forall i :: 0 <= i < |propBuf| ==> Finalized(propBuf[i].2) && propBuf[i].2.sig == UNSIGNED
      modifies this, storage, batches
      ensures Same(View(), HandleFull(old(View()), old(propBuf))) && (stop != Running || (Valid() && propBuf == []))
      ensures relayBuf == old(relayBuf) && otherBuf == old(otherBuf)
    {
      hide NodeInv, OnFullProposal;
      ghost var s, q := View(), propBuf;
      while propBuf != []
        invariant Valid() && forall i :: 0 <= i < |propBuf| ==> Finalized(propBuf[i].2) && propBuf[i].2.sig == UNSIGNED
        invariant HandleFull(View(), propBuf) == HandleFull(s, q)
        invariant relayBuf == old(relayBuf) && otherBuf == old(otherBuf)
        decreases |propBuf|
      {
        var (sender, p, b, batch) := propBuf[0];
        propBuf := propBuf[1..];
        ghost var t := OnFullProposal(View(), sender, p, b, batch);
        CheckFull(sender, p, b, batch);
        if stop != Running {
          assert HandleFull(t, propBuf) == t;
          return;
        }
      }
    }

    method ProcessRelays()
      requires Valid()
      modifies this, storage, batches
      ensures Same(View(), HandleBare(old(View()), old(relayBuf))) && (stop != Running || (Valid() && relayBuf == []))
      ensures propBuf == old(propBuf) && otherBuf == old(otherBuf)
    {
      hide NodeInv, OnBareProposal;
      ghost var s, q := View(), relayBuf;
      while relayBuf != []
        invariant Valid() && HandleBare(View(), relayBuf) == HandleBare(s, q)
        invariant propBuf == old(propBuf) && otherBuf == old(otherBuf)
        decreases |relayBuf|
      {
        var (sender, p) := relayBuf[0];
        relayBuf := relayBuf[1..];
        ghost var t := OnBareProposal(View(), sender, p);
        CheckBare(sender, p);
        if stop != Running {
          assert HandleBare(t, relayBuf) == t;
          return;
        }
      }
    }

    method ProcessOthers()
      requires Valid()
      modifies this, storage, batches
      ensures Same(View(), HandleOthers(old(View()), old(otherBuf))) && (stop != Running || (Valid() && otherBuf == []))
      ensures propBuf == old(propBuf) && relayBuf == old(relayBuf)
    {
      hide NodeInv, HandleOther, Same;
      ghost var s, q := View(), otherBuf;
      SameAsItself(HandleOthers(s, q));
      while otherBuf != []
        invariant Valid() && HandleOthers(View(), otherBuf) == HandleOthers(s, q)
        invariant propBuf == old(propBuf) && relayBuf == old(relayBuf)
        decreases |otherBuf|
      {
        var m := otherBuf[0];
        otherBuf := otherBuf[1..];
        ProcessOther(m);
        if stop != Running {
          assert HandleOthers(View(), otherBuf) == View();
          return;
        }
      }
    }

    method ProcessOther(m: Msg)
      requires Valid()
      modifies this, storage, batches
      ensures View() == HandleOther(old(View()), m) && (stop != Running || Valid())
      ensures propBuf == old(propBuf) && relayBuf == old(relayBuf) && otherBuf == old(otherBuf)
    {
      hide NodeInv, HandleRequest;
      if m.Request? {
        HandleRequestKeeps(View(), m.from, m.id, m.hash);
        AnswerRequest(m.from, m.id, m.hash);
      } else if m.Blame? {
        stop := Blamed;
      }
    }

    /** The replay loop; each turn shrinks the buffers, and nothing is left for the round it ends in. */
    method ProcessFuture()
      requires Valid()
      modifies this, storage, batches
      ensures Same(View(), Replay(old(View()))) && (stop != Running || (Valid() && round !in futureMsgs))
      ensures propBuf == old(propBuf) && relayBuf == old(relayBuf) && otherBuf == old(otherBuf)
    {
      hide NodeInv, Buffered, Same, Replay, StuckAtCommit, OnBareProposal;
      ghost var s := View();
      SameAsItself(Replay(s));
      ReplayEnds(s);
      while round in futureMsgs
        invariant Valid() && Replay(View()) == Replay(s) && (round !in futureMsgs ==> Replay(View()) == View())
        invariant propBuf == old(propBuf) && relayBuf == old(relayBuf) && otherBuf == old(otherBuf)
        decreases Buffered(View())
      {
        ghost var t := Replayed(View());
        ReplayOne(View());
        ReplayIs(View());
        ReplayNext();
        SameStop(View(), t);
        ReplayEnds(View());
        if stop != Running {
          HaltsForGood(t, [], []);
          return;
        }
      }
    }

    /** The proposal kept for the current round is taken out and handled. */
    method ReplayNext()
      requires Valid() && round in futureMsgs
      modifies this, storage, batches
      ensures Same(View(), Replayed(old(View()))) && (stop != Running || Valid())
      ensures propBuf == old(propBuf) && relayBuf == old(relayBuf) && otherBuf == old(otherBuf)
    {
      hide NodeInv, OnBareProposal, Same;
      var (sender, p) := futureMsgs[round];
      TakeFutureKeeps(View());
      futureMsgs := futureMsgs - {round};
      CheckBare(sender, p);
    }

    // ---------------------------------------------------------------- reactor

    method ProposePending()
      requires Valid()
      modifies this, storage, batches
      ensures Same(View(), ProposeAll(old(View()), old(pending))) && (stop != Running || Valid())
      ensures propBuf == old(propBuf) && relayBuf == old(relayBuf) && otherBuf == old(otherBuf)
    {
      hide NodeInv, DoPropose, PendingInv;
      ghost var s, q := View(), pending;
      while roundLeader == cfg.me && pending != []
        invariant Valid() && ProposeAll(View(), pending) == ProposeAll(s, q)
        invariant propBuf == old(propBuf) && relayBuf == old(relayBuf) && otherBuf == old(otherBuf)
        decreases |pending|
      {
        var batch := pending[0].1;
        ghost var now := View();
        PendingHead(now);
        pending := pending[1..];
        ghost var t := DoPropose(View(), batch);
        IgnoresPending(now, pending, batch);
        Lead(batch);
        if stop != Running {
          assert ProposeAll(t, pending) == t.(pending := pending);
          return;
        }
      }
    }

    method ProcessAll(ms: seq<Msg>)
      requires Valid() && propBuf == [] && relayBuf == [] && otherBuf == []
      requires forall i :: 0 <= i < |ms| ==> Decoded(ms[i])
      modifies this, storage, batches
      ensures Same(View(), ProcessMessages(old(View()), ms))
      ensures stop != Running || (Valid() && propBuf == [] && relayBuf == [] && otherBuf == [] && round !in futureMsgs)
    {
      hide NodeInv, HandleFull, HandleBare, HandleOthers, Replay, BufferedFull, BufferedBare, BufferedOthers, Same,
        HasBlame;
      ghost var s := View();
      BufferAll(ms);
      BufferedOk(ms);
      ProcessProposals();
      ghost var s1 := HandleFull(s, BufferedFull(ms));
      SameStop(View(), s1);
      if stop != Running {
        HaltsForGood(s1, BufferedBare(ms), BufferedOthers(ms));
        return;
      }
      ProcessRelaysAndRest();
    }

    method ProcessRelaysAndRest()
      requires Valid() && propBuf == []
      modifies this, storage, batches
      ensures Same(View(), Replay(HandleOthers(HandleBare(old(View()), old(relayBuf)), old(otherBuf))))
      ensures stop != Running || (Valid() && propBuf == [] && relayBuf == [] && otherBuf == [] && round !in futureMsgs)
    {
      hide NodeInv, HandleBare, HandleOthers, Replay, Same;
      ghost var s, bare, others := View(), relayBuf, otherBuf;
      ProcessRelays();
      SameStop(View(), HandleBare(s, bare));
      if stop != Running {
        HaltsForGood(HandleBare(s, bare), [], others);
        return;
      }
      ProcessOthers();
      SameStop(View(), HandleOthers(HandleBare(s, bare), others));
      if stop != Running {
        HaltsForGood(HandleOthers(HandleBare(s, bare), others), [], []);
        return;
      }
      ProcessFuture();
    }

    /** One turn of the reactor on a burst of messages.  It stops on a blame it handles or on a commit walk that
        fails, never on another lookup. */
    method OnMessages(ms: seq<Msg>)
      requires Valid() && propBuf == [] && relayBuf == [] && otherBuf == []
      requires forall i :: 0 <= i < |ms| ==> Decoded(ms[i])
      modifies this, storage, batches
      ensures Same(View(), React(old(View()), Received(ms)))
      ensures stop != MissingEntry && (stop == Blamed <==> BlameHandled(old(View()), Received(ms)))
      ensures stop != Running || (Valid() && propBuf == [] && relayBuf == [] && otherBuf == [])
    {
      hide NodeInv, ProcessMessages, ProposeAll, Same, BlameHandled, StuckAtCommit;
      ghost var s := View();
      ReactKeeps(s, Received(ms));
      ProcessAll(ms);
      SameStop(View(), ProcessMessages(s, ms));
      if stop != Running {
        HaltsForGood(ProcessMessages(s, ms), [], []);
        return;
      }
      ProposePending();
      SameStop(View(), React(s, Received(ms)));
    }

    /** One turn of the reactor on a batch from the mempool. */
    method OnSealed(batch: Batch)
      requires Valid()
      modifies this, storage, batches
      ensures Same(View(), React(old(View()), Sealed(batch))) && (stop != Running || Valid())
      ensures propBuf == old(propBuf) && relayBuf == old(relayBuf) && otherBuf == old(otherBuf)
    {
      hide NodeInv, ProposeAll;
      PersistKeepsNode(View(), batch);
      batches.PersistBatch(BatchDigest(batch), batch);
      pending := pending + [(BatchDigest(batch), batch)];
      ProposePending();
    }
  }

  lemma CommitLookups(s: Node)
    requires NodeInvAt(s, s.round + 1) && s.round > s.cfg.f
    ensures s.round - s.cfg.f in s.byRound && forall h :: h in s.st.byHash ==> s.st.byHash[h].hash == h
  {
    hide EmissionInv, ParkedOk, FutureOk, PendingInv, BatchesOk;
  }

  lemma DrainHalted(s: Node, h: Hash, sender: Replica)
    requires s.halted
    ensures DrainParked(s, h, sender) == s
  {
  }

  lemma Stored(s: Node, p: Propose, b: Block)
    requires AtHand(s, p, b)
    ensures p.hash in s.st.byHash
  {
  }

  lemma StorableParent(b: Block)
    requires Storable(b)
    ensures Prev(b.hash) == b.header.prev
  {
  }

  /** The leader's own block is in place before its proposal is handled. */
  lemma LeadReady(s: Node, p: Propose, b: Block, batch: Batch)
    requires NodeInv(s) && BatchDigest(batch) in s.bs.cache && b == NewBlock(s.lastSeen, s.cfg.me, batch, UNSIGNED) &&
             p.hash == b.hash
    ensures var t := s.(net := s.net + [ToAll(NewProposal(p, b, batch))], toBatcher := s.toBatcher +
            [Proposed(batch, s.round)],
                        st := AddDelivered(s.st, b));
            NodeInv(t) && AtHand(t, p, b)
  {
    hide NodeInv;
    SendKeeps(s, 0, NewProposal(p, b, batch));
    var sent := Multicast(s, NewProposal(p, b, batch));
    ToldKeeps(sent, Proposed(batch, s.round));
    HeadStored(s);
    StoreKeeps(sent.(toBatcher := s.toBatcher + [Proposed(batch, s.round)]), b);
  }

  lemma BufferedSnoc(ms: seq<Msg>, m: Msg)
    ensures BufferedFull(ms + [m]) == BufferedFull(ms) + BufferedFull([m])
    ensures BufferedBare(ms + [m]) == BufferedBare(ms) + BufferedBare([m])
    ensures BufferedOthers(ms + [m]) == BufferedOthers(ms) + BufferedOthers([m])
  {
    assert (ms + [m])[..|ms|] == ms && [m][..0] == [];
  }

  /** The front of the queue is cached, and the rest may stay in the queue meanwhile. */
  lemma PendingHead(s: Node)
    requires NodeInv(s) && !s.halted && s.pending != []
    ensures BatchDigest(s.pending[0].1) in s.bs.cache && NodeInv(s.(pending := s.pending[1..]))
  {
    hide NodeInv;
    PendingIsCached(s);
    PendingKeeps(s, s.pending[1..]);
  }

  lemma IgnoresPending(s: Node, rest: seq<(BatchHash, Batch)>, batch: Batch)
    requires !s.halted && s.leader == s.cfg.me && s.pending != [] && rest == s.pending[1..] && batch == s.pending[0].1
    ensures ProposeAll(s, s.pending) == ProposeAll(DoPropose(s.(pending := rest), batch), rest)
  {
    hide DoPropose;
    ProposeElsewhere(s, rest, batch);
    PendingIsDead(DoPropose(s, batch), rest, rest);
    assert DoPropose(s.(pending := rest), batch) == DoPropose(s, batch).(pending := rest);
  }

  lemma ProposeElsewhere(s: Node, rest: seq<(BatchHash, Batch)>, batch: Batch)
    ensures DoPropose(s.(pending := rest), batch) == DoPropose(s, batch).(pending := rest)
  {
    hide AcceptProposal;
    var b := NewBlock(s.lastSeen, s.cfg.me, batch, UNSIGNED);
    var p := Propose(b.hash, s.round, Sig(s.cfg.me, AuthBy(s.cfg.me, OfBlock(b.hash))));
    var sent := Multicast(s, NewProposal(p, b, batch));
    AcceptElsewhere(sent.(toBatcher := s.toBatcher + [Proposed(batch, s.round)], st := AddDelivered(s.st, b)), rest,
        p, b);
  }

  lemma AcceptElsewhere(s: Node, rest: seq<(BatchHash, Batch)>, p: Propose, b: Block)
    ensures AcceptProposal(s.(pending := rest), p, b) == AcceptProposal(s, p, b).(pending := rest)
  {
    hide CommitIfDue, Record, UpdateRound;
    var rec := Record(s, p, b);
    RecordElsewhere(s, rest, p, b);
    CommitElsewhere(rec, rest);
    UpdateElsewhere(CommitIfDue(rec), rest, b);
  }

  lemma UpdateElsewhere(s: Node, rest: seq<(BatchHash, Batch)>, b: Block)
    ensures UpdateRound(s.(pending := rest).(lastSeen := b)) == UpdateRound(s.(lastSeen := b)).(pending := rest)
  {
  }

  lemma RecordElsewhere(s: Node, rest: seq<(BatchHash, Batch)>, p: Propose, b: Block)
    ensures Record(s.(pending := rest), p, b) == Record(s, p, b).(pending := rest)
  {
    hide ReadBatch;
  }

  lemma CommitElsewhere(s: Node, rest: seq<(BatchHash, Batch)>)
    ensures CommitIfDue(s.(pending := rest)) == CommitIfDue(s).(pending := rest)
  {
    hide DoCommit;
    if s.round > s.cfg.f {
      DoCommitElsewhere(s, rest);
    }
  }

  lemma DoCommitElsewhere(s: Node, rest: seq<(BatchHash, Batch)>)
    requires s.round > s.cfg.f
    ensures DoCommit(s.(pending := rest)) == DoCommit(s).(pending := rest)
  {
    hide WalkBack, EmitAll;
    var k := s.round - s.cfg.f;
    if k in s.byRound {
      var w := WalkBack(s.st, s.byRound[k].hash);
      assert w.Missing? || w.Walked?;
    }
  }

  /** The queue passed along is the one that counts. */
  lemma {:induction false} PendingIsDead(s: Node, q: seq<(BatchHash, Batch)>, junk: seq<(BatchHash, Batch)>)
    ensures ProposeAll(s.(pending := junk), q) == ProposeAll(s, q)
    decreases |q|
  {
    hide DoPropose;
    if q != [] && !s.halted && s.leader == s.cfg.me {
      ProposeElsewhere(s, junk, q[0].1);
      PendingIsDead(DoPropose(s, q[0].1), q[1..], junk);
    }
  }

  lemma HaltsForGood(s: Node, bare: seq<(Replica, Propose)>, others: seq<Msg>)
    ensures s.halted ==>
      HandleBare(s, bare) == s && HandleOthers(s, others) == s && Replay(s) == s && ProposeAll(s, s.pending) == s
  {
  }
}
