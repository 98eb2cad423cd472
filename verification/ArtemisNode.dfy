/**
 The Artemis replica as the program holds it: one object whose handlers update
 it in place.  Every handler is proved to be the function of the same name in
 ArtemisCore, so all that is proved there of runs holds of this object.  The
 `unwrap`s of the commit path carry no branch here: that the looked-up vote or
 block is present is proved at the lookup.
 */
module ArtemisNode {
  import opened Transactions
  import opened BatcherSpec
  import opened Blocks
  import opened Chains
  import opened LeaderRotation
  import opened NodeParts
  import opened ArtemisCore
  import opened ArtemisDelivery
  import opened ArtemisSafety

  method InitialLeaders(n: nat, f: nat) returns (recent: seq<Replica>, eligible: seq<Replica>)
    requires 1 <= f < n
    ensures Rotation(f - 1, recent, eligible) == Initial(n, f)
  {
    recent, eligible := [], [];
    for i := 0 to f
      invariant recent == seq(i, k => k)
    {
      recent := recent + [i];
    }
    for i := f to n
      invariant eligible == seq(i - f, k requires 0 <= k => f + k)
    {
      eligible := eligible + [i];
    }
  }

  class Context {
    const cfg: Config
    const storage: BlockIndex
    const batches: BatchTable
    var round: nat
    var roundLeader: Replica
    var lastLeaders: seq<Replica>
    var eligible: seq<Replica>
    var lastSeen: Block
    var lastVoted: Block
    var voteChain: map<nat, Vote>
    var parentWaiting: map<Hash, Hash>
    var undelivered: map<Hash, Block>
    var voteWaiting: map<Hash, Vote>
    var voteReady: map<nat, Vote>
    var pending: seq<(BatchHash, Batch)>
    var blockBuf: seq<(Block, Batch)>
    var responseBuf: seq<(Replica, Block, Batch)>
    var otherBuf: seq<Msg>
    var net: seq<Packet>
    var toBatcher: seq<BatcherMsg>
    var toRouter: seq<Batch>
    var halted: bool
    ghost var emitted: seq<Block>

    ghost function LedgerView(): Ledger
      reads this, storage
    {
      Ledger(storage.View(), lastSeen, parentWaiting, undelivered, voteWaiting, voteReady)
    }

    ghost function View(): Node
      reads this, storage, batches
    {
      Node(cfg, round, Rotation(roundLeader, lastLeaders, eligible), LedgerView(), voteChain, lastVoted,
           batches.View(), pending, net, toBatcher, toRouter, emitted, halted)
    }

    ghost predicate Valid()
      reads this, storage, batches
    {
      Running(View())
    }

    constructor (cfg: Config, store: map<BatchHash, Batch>)
      requires ConfigOk(cfg) && StoreOk(store)
      ensures Valid() && View() == Boot(cfg, store)
      ensures blockBuf == [] && responseBuf == [] && otherBuf == []
      ensures fresh(storage) && fresh(batches)
    {
      hide NodeInv;
      BootInv(cfg, store);
      this.cfg := cfg;
      storage := new BlockIndex();
      batches := new BatchTable(store);
      round := 1;
      roundLeader := cfg.f - 1;
      var recent, others := InitialLeaders(cfg.n, cfg.f);
      lastLeaders, eligible := recent, others;
      lastSeen, lastVoted := GENESIS, GENESIS;
      voteChain, parentWaiting, undelivered, voteWaiting, voteReady := map[], map[], map[], map[], map[];
      pending, blockBuf, responseBuf, otherBuf := [], [], [], [];
      net, toBatcher, toRouter, halted, emitted := [], [], [], false, [];
      new;
      storage.AddDeliveredBlock(lastSeen);
      AnnounceHeight();
      assert toBatcher == [NewRound(VIEW_LEADER, 1)];
      assert LedgerView() == INITIAL_LEDGER;
      assert View() == Boot(cfg, store);
    }

    // ---------------------------------------------------------------- context helpers

    method AnnounceHeight()
      modifies this`toBatcher
      ensures toBatcher == old(toBatcher) + [NewRound(VIEW_LEADER, lastSeen.header.height + 1)]
    {
      toBatcher := toBatcher + [NewRound(VIEW_LEADER, lastSeen.header.height + 1)];
    }

    method SendTo(to: Replica, m: Msg)
      modifies this`net
      ensures View() == Send(old(View()), to, m)
    {
      if to == cfg.me {
        return;
      }
      net := net + [To(to, m)];
    }

    method Broadcast(m: Msg)
      modifies this`net
      ensures View() == Multicast(old(View()), m)
    {
      net := net + [ToAll(m)];
    }

    method NextRoundLeader() returns (leader: Replica, i: nat)
      requires eligible != []
      ensures i < |eligible| && leader == eligible[i] && leader == NextLeader(View())
      ensures i == cfg.digest(round + 1) % |eligible|
    {
      i := cfg.digest(round + 1) % |eligible|;
      leader := eligible[i];
    }

    method GoToNextRound()
      requires eligible != [] && lastLeaders != []
      modifies this`round, this`roundLeader, this`lastLeaders, this`eligible
      ensures View() == UpdateRound(old(View()))
    {
      ghost var s := View();
      var leader, i := NextRoundLeader();
      assert UpdateRound(s) == s.(round := round + 1,
          rot := Rotation(leader, PushBack(lastLeaders[1..], leader), eligible[i := lastLeaders[0]]));
      hide UpdateRound, Rotate, PushBack;
      roundLeader := leader;
      round := round + 1;
      var again := lastLeaders[0];
      lastLeaders := PushBack(lastLeaders[1..], leader);
      eligible := eligible[i := again];
      assert LedgerView() == s.ledger && batches.View() == s.bs;
    }

    // ---------------------------------------------------------------- delivery

    method WakeVote(h: Hash)
      modifies this`voteWaiting, this`voteReady
      ensures LedgerView() == Wake(old(LedgerView()), h)
    {
      if h in voteWaiting {
        var v := voteWaiting[h];
        voteWaiting := voteWaiting - {h};
        voteReady := voteReady[v.round := v];
      }
    }

    method AcceptBlock(b: Block) returns (advanced: bool)
      modifies this`lastSeen, storage
      ensures storage.View() == AddDelivered(old(storage.View()), b)
      ensures advanced == (old(lastSeen).header.height < b.header.height)
      ensures lastSeen == if advanced then b else old(lastSeen)
    {
      storage.AddDeliveredBlock(b);
      advanced := lastSeen.header.height < b.header.height;
      if advanced {
        lastSeen := b;
      }
    }

    /** One turn of the drain loop. */
    method DeliverChild(h: Hash) returns (child: Hash, advanced: bool)
      requires h in parentWaiting
      modifies this`lastSeen, this`parentWaiting, this`undelivered, this`voteWaiting, this`voteReady, storage
      ensures child == old(parentWaiting)[h] && LedgerView() == Unpark(old(LedgerView()), h)
      ensures advanced == (lastSeen.header.height > old(lastSeen).header.height)
      ensures advanced || lastSeen == old(lastSeen)
    {
      child := parentWaiting[h];
      parentWaiting := parentWaiting - {h};
      advanced := false;
      if child in undelivered {
        var b := undelivered[child];
        undelivered := undelivered - {child};
        advanced := AcceptBlock(b);
      }
      WakeVote(child);
    }

    method DrainParked(start: Hash) returns (advanced: bool)
      modifies this`lastSeen, this`parentWaiting, this`undelivered, this`voteWaiting, this`voteReady, storage
      ensures LedgerView() == Drain(old(LedgerView()), start)
      ensures advanced == (lastSeen.header.height > old(lastSeen).header.height)
      ensures lastSeen.header.height >= old(lastSeen).header.height
    {
      hide Unpark;
      ghost var l := LedgerView();
      var h := start;
      advanced := false;
      while h in parentWaiting
        invariant Drain(LedgerView(), h) == Drain(l, start)
        invariant advanced == (lastSeen.header.height > l.lastSeen.header.height)
        invariant lastSeen.header.height >= l.lastSeen.header.height
        decreases |parentWaiting|
      {
        ParkedCount(LedgerView(), h);
        var child, taller := DeliverChild(h);
        advanced := advanced || taller;
        h := child;
      }
    }

    method DeliverAndDrain(b: Block) returns (advanced: bool)
      modifies this`lastSeen, this`parentWaiting, this`undelivered, this`voteWaiting, this`voteReady, storage
      ensures LedgerView() == Deliver(old(LedgerView()), b)
      ensures advanced == (lastSeen.header.height > old(lastSeen).header.height)
    {
      hide Drain;
      advanced := AcceptBlock(b);
      undelivered := undelivered - {b.hash};
      WakeVote(b.hash);
      var taller := DrainParked(b.hash);
      advanced := advanced || taller;
    }

    method DeliverAndTell(b: Block)
      modifies this`lastSeen, this`parentWaiting, this`undelivered, this`voteWaiting, this`voteReady, this`toBatcher,
          storage
      ensures LedgerView() == Deliver(old(LedgerView()), b)
      ensures toBatcher == if lastSeen.header.height > old(lastSeen).header.height
                           then old(toBatcher) + [NewRound(VIEW_LEADER, lastSeen.header.height + 1)] else old(toBatcher)
    {
      hide Deliver;
      var advanced := DeliverAndDrain(b);
      if advanced {
        AnnounceHeight();
      }
    }

    method DeliverBlock(b: Block)
      modifies this, storage
      ensures View() == DoDelivery(old(View()), b)
      ensures blockBuf == old(blockBuf) && responseBuf == old(responseBuf) && otherBuf == old(otherBuf)
    {
      hide Deliver;
      DeliverAndTell(b);
    }

    method ReceiveNewBlock(b: Block)
      modifies this, storage
      ensures View() == OnNewBlock(old(View()), b)
      ensures blockBuf == old(blockBuf) && responseBuf == old(responseBuf) && otherBuf == old(otherBuf)
    {
      hide DoDelivery;
      if b.hash in storage.delivered || b.header.prev !in storage.delivered {
        return;
      }
      if VIEW_LEADER != b.header.author || VIEW_LEADER != b.sig.origin {
        return;
      }
      if VIEW_LEADER != cfg.me && !Verifies(VIEW_LEADER, OfBlock(b.hash), b.sig) {
        return;
      }
      DeliverBlock(b);
    }

    method ReceiveFetched(b: Block, sender: Replica)
      modifies this, storage
      ensures View() == UpdateDelivery(old(View()), b, sender)
      ensures blockBuf == old(blockBuf) && responseBuf == old(responseBuf) && otherBuf == old(otherBuf)
    {
      hide DoDelivery;
      if b.hash in storage.delivered {
        return;
      }
      if b.header.prev in parentWaiting {
        return;
      }
      if b.header.prev !in storage.delivered {
        ParkBlock(b, sender);
        return;
      }
      DeliverBlock(b);
    }

    method ParkBlock(b: Block, sender: Replica)
      modifies this
      ensures View() == Send(old(View()).(ledger := old(LedgerView()).(
                               parentWaiting := old(parentWaiting)[b.header.prev := b.hash],
                               undelivered := old(undelivered)[b.hash := b])),
                             sender, Request(cfg.me, 0, b.hash))
      ensures blockBuf == old(blockBuf) && responseBuf == old(responseBuf) && otherBuf == old(otherBuf)
    {
      hide Send;
      parentWaiting := parentWaiting[b.header.prev := b.hash];
      undelivered := undelivered[b.hash := b];
      SendTo(sender, Request(cfg.me, 0, b.hash));
    }

    method AnswerRequest(from: Replica, id: nat, h: Hash)
      modifies this`net, batches
      ensures View() == HandleRequest(old(View()), from, id, h)
    {
      if h !in storage.delivered && h !in undelivered {
        return;
      }
      var b := if h in storage.delivered then storage.delivered[h] else undelivered[h];
      var got := batches.ReadCached(b.batch);
      if got.Some? {
        SendTo(from, Response(cfg.me, id, b, got.value));
      }
    }

    method MakeNewBlock(batch: Batch)
      modifies this, storage
      ensures View() == DoNewBlock(old(View()), batch)
      ensures blockBuf == old(blockBuf) && responseBuf == old(responseBuf) && otherBuf == old(otherBuf)
    {
      hide OnNewBlock;
      var unsigned := NewBlock(lastSeen, cfg.me, batch, Sig(cfg.me, NoAuth));
      var b := unsigned.(sig := Sig(cfg.me, AuthBy(cfg.me, OfBlock(unsigned.hash))));
      Broadcast(NewBlockMsg(b, batch));
      toBatcher := toBatcher + [Proposed(batch, b.header.height)];
      ReceiveNewBlock(b);
    }

    // ---------------------------------------------------------------- commit

    method Commit()
      requires round > cfg.f && round - cfg.f in voteChain
      requires WalkBack(storage.View(), voteChain[round - cfg.f].hash).Walked?
      requires forall h :: h in storage.delivered ==> storage.delivered[h].hash == h
      modifies this`toBatcher, this`toRouter, this`emitted, storage, batches
      ensures View() == DoCommit(old(View()))
    {
      hide EmitAll, WalkBack;
      var ok, newly := storage.CommitBack(voteChain[round - cfg.f].hash);
      assert ok;
      var notices, payloads := batches.Announce(newly);
      toBatcher := toBatcher + notices;
      toRouter := toRouter + payloads;
      emitted := emitted + Reversed(newly);
    }

    // ---------------------------------------------------------------- votes

    method AcceptVote(v: Vote)
      requires Valid() && v.round == round && v.hash in storage.delivered
      modifies this, storage, batches
      ensures View() == Advance(Record(old(View()), v), v) && !Record(old(View()), v).halted
      ensures blockBuf == old(blockBuf) && responseBuf == old(responseBuf) && otherBuf == old(otherBuf)
    {
      hide Record, Advance, NodeInv;
      RecordVote(v);
      GoOn(v);
    }

    method ReceiveRoundVote(v: Vote)
      requires Valid() && v.round == round && v.hash in storage.delivered
      modifies this, storage, batches
      ensures Valid() && View() == OnVote(old(View()), v)
      ensures blockBuf == old(blockBuf) && responseBuf == old(responseBuf) && otherBuf == old(otherBuf)
    {
      hide Record, Advance, NodeInv;
      OnVoteKeeps(View(), v);
      if v.view != VIEW || (cfg.me != roundLeader && !Verifies(roundLeader, OfVote(v.hash, v.round, v.view), v.sig)) {
        return;
      }
      AcceptVote(v);
    }

    method RecordVote(v: Vote)
      requires Valid() && v.round == round && v.hash in storage.delivered
      modifies this`voteChain, this`toBatcher, this`toRouter, this`emitted, storage, batches
      ensures View() == Record(old(View()), v)
      ensures !halted && v.hash in storage.delivered && eligible != [] && lastLeaders != []
    {
      hide NodeInv, DoCommit;
      ghost var s := View();
      RecordReady(s, v);
      voteChain := voteChain[v.round := v];
      if round > cfg.f {
        Commit();
      }
    }

    method GoOn(v: Vote)
      requires v.hash in storage.delivered && eligible != [] && lastLeaders != []
      modifies this`lastVoted, this`net, this`round, this`roundLeader, this`lastLeaders, this`eligible
      ensures View() == Advance(old(View()), v)
    {
      hide Rotate;
      var leader, _ := NextRoundLeader();
      lastVoted := storage.delivered[v.hash];
      SendTo(leader, Relay(cfg.me, v));
      GoToNextRound();
    }

    method TryReceiveRoundVote(from: Replica, v: Vote)
      requires Valid()
      modifies this, storage, batches
      ensures Valid() && View() == TryVote(old(View()), from, v)
      ensures blockBuf == old(blockBuf) && responseBuf == old(responseBuf) && otherBuf == old(otherBuf)
    {
      hide OnVote, NodeInv;
      ghost var s := View();
      TryVoteKeeps(s, from, v);
      if round > v.round {
        return;
      }
      if round < v.round {
        if v.hash in storage.delivered {
          voteReady := voteReady[v.round := v];
        } else {
          SendTo(from, Request(cfg.me, 0, v.hash));
          voteWaiting := voteWaiting[v.hash := v];
        }
        return;
      }
      if v.hash !in storage.delivered {
        SendTo(from, Request(cfg.me, 0, v.hash));
        voteWaiting := voteWaiting[v.hash := v];
        return;
      }
      ReceiveRoundVote(v);
    }

    method TryVoteForHead()
      requires Valid()
      modifies this, storage, batches
      ensures Valid() && View() == TryRoundVote(old(View()))
      ensures blockBuf == old(blockBuf) && responseBuf == old(responseBuf) && otherBuf == old(otherBuf)
    {
      hide OnVote, NodeInv;
      ghost var s := View();
      TryRoundVoteKeeps(s);
      if cfg.me != roundLeader {
        return;
      }
      if lastSeen.header.height <= lastVoted.header.height {
        return;
      }
      var h := lastSeen.hash;
      var v := Vote(h, round, VIEW, Sig(cfg.me, AuthBy(cfg.me, OfVote(h, round, VIEW))));
      HeadIsStored(s);
      SendKeeps(s, 0, VoteMsg(v));
      Broadcast(VoteMsg(v));
      ReceiveRoundVote(v);
    }

    // ---------------------------------------------------------------- message loops

    method BufferMessage(m: Msg)
      modifies this`blockBuf, this`responseBuf, this`otherBuf
      ensures blockBuf == old(blockBuf) + BufferedBlocks([m])
      ensures responseBuf == old(responseBuf) + BufferedResponses([m])
      ensures otherBuf == old(otherBuf) + BufferedOthers([m])
    {
      assert [m][..0] == [];
      match m
      case Invalid =>
      case NewBlockMsg(b, batch) => blockBuf := blockBuf + [(b, batch)];
      case Response(from, _, b, batch) => responseBuf := responseBuf + [(from, b, batch)];
      case _ => otherBuf := otherBuf + [m];
    }

    method ProcessBlocks()
      requires Valid() && forall i :: 0 <= i < |blockBuf| ==> Finalized(blockBuf[i].0)
      modifies this, storage, batches
      ensures Valid() && View() == HandleBlocks(old(View()), old(blockBuf))
      ensures blockBuf == [] && responseBuf == old(responseBuf) && otherBuf == old(otherBuf)
    {
      hide NodeInv, OnNewBlock;
      ghost var s, q := View(), blockBuf;
      while blockBuf != []
        invariant Valid() && forall i :: 0 <= i < |blockBuf| ==> Finalized(blockBuf[i].0)
        invariant HandleBlocks(View(), blockBuf) == HandleBlocks(s, q)
        invariant responseBuf == old(responseBuf) && otherBuf == old(otherBuf)
        decreases |blockBuf|
      {
        var (b, batch) := blockBuf[0];
        HandleNewBlockKeeps(View(), b, batch);
        blockBuf := blockBuf[1..];
        if b.batch != BatchDigest(batch) {
          continue;
        }
        batches.PersistBatch(b.batch, batch);
        ReceiveNewBlock(b);
      }
    }

    method ProcessResponses()
      requires Valid() && forall i :: 0 <= i < |responseBuf| ==> Finalized(responseBuf[i].1)
      modifies this, storage, batches
      ensures Valid() && View() == HandleResponses(old(View()), old(responseBuf))
      ensures responseBuf == [] && blockBuf == old(blockBuf) && otherBuf == old(otherBuf)
    {
      hide NodeInv, UpdateDelivery;
      ghost var s, q := View(), responseBuf;
      while responseBuf != []
        invariant Valid() && forall i :: 0 <= i < |responseBuf| ==> Finalized(responseBuf[i].1)
        invariant HandleResponses(View(), responseBuf) == HandleResponses(s, q)
        invariant blockBuf == old(blockBuf) && otherBuf == old(otherBuf)
        decreases |responseBuf|
      {
        var (from, b, batch) := responseBuf[0];
        HandleResponseKeeps(View(), from, b, batch);
        responseBuf := responseBuf[1..];
        if b.batch != BatchDigest(batch) {
          continue;
        }
        batches.PersistBatch(b.batch, batch);
        ReceiveFetched(b, from);
      }
    }

    method ProcessReadyVotes()
      requires Valid()
      modifies this, storage, batches
      ensures Valid() && View() == DrainReady(old(View())) && round !in voteReady
      ensures blockBuf == old(blockBuf) && responseBuf == old(responseBuf) && otherBuf == old(otherBuf)
    {
      hide NodeInv;
      ghost var s := View();
      while round in voteReady
        invariant Valid() && DrainReady(View()) == DrainReady(s)
        invariant blockBuf == old(blockBuf) && responseBuf == old(responseBuf) && otherBuf == old(otherBuf)
        decreases |voteReady|
      {
        ReceiveReadyVote();
      }
    }

    /** The vote kept for the current round is taken out and handled. */
    method ReceiveReadyVote()
      requires Valid() && round in voteReady
      modifies this, storage, batches
      ensures Valid() && DrainReady(View()) == DrainReady(old(View())) && |voteReady| < |old(voteReady)|
      ensures blockBuf == old(blockBuf) && responseBuf == old(responseBuf) && otherBuf == old(otherBuf)
    {
      hide NodeInv, OnVote;
      var v := voteReady[round];
      TakeReadyKeeps(View());
      assert voteReady.Keys == (voteReady - {round}).Keys + {round};
      voteReady := voteReady - {round};
      OnVoteFrame(View(), v);
      ReceiveRoundVote(v);
    }

    method ProcessOthers()
      requires Valid() && forall i :: 0 <= i < |otherBuf| ==> IsOther(otherBuf[i])
      modifies this, storage, batches
      ensures View() == HandleOthers(old(View()), old(otherBuf)) && (!halted ==> Valid() && otherBuf == [])
      ensures NodeInv(View()) && (halted <==> HasBlame(old(otherBuf)))
      ensures blockBuf == old(blockBuf) && responseBuf == old(responseBuf)
    {
      hide NodeInv, HandleOther, HasBlame;
      ghost var s, q := View(), otherBuf;
      HandleOthersKeeps(s, q);
      while otherBuf != []
        invariant Valid() && forall i :: 0 <= i < |otherBuf| ==> IsOther(otherBuf[i])
        invariant HandleOthers(View(), otherBuf) == HandleOthers(s, q)
        invariant blockBuf == old(blockBuf) && responseBuf == old(responseBuf)
        decreases |otherBuf|
      {
        var m := otherBuf[0];
        HandleOtherKeeps(View(), m);
        otherBuf := otherBuf[1..];
        ProcessOther(m);
        if halted {
          return;
        }
      }
    }

    method ProcessOther(m: Msg)
      requires Valid() && IsOther(m)
      modifies this, storage, batches
      ensures View() == HandleOther(old(View()), m)
      ensures blockBuf == old(blockBuf) && responseBuf == old(responseBuf) && otherBuf == old(otherBuf)
    {
      hide NodeInv, TryVote, HandleRequest;
      if m.VoteMsg? {
        TryReceiveRoundVote(m.vote.sig.origin, m.vote);
      } else if m.Relay? {
        TryReceiveRoundVote(m.from, m.vote);
      } else if m.Request? {
        AnswerRequest(m.from, m.id, m.hash);
      } else {
        halted := true;
      }
    }

    // ---------------------------------------------------------------- reactor

    method ProposePending()
      requires Valid()
      modifies this, storage, batches
      ensures Valid() && View() == Propose(old(View()))
      ensures blockBuf == old(blockBuf) && responseBuf == old(responseBuf) && otherBuf == old(otherBuf)
    {
      hide NodeInv, DoNewBlock, TryRoundVote;
      ghost var s := View();
      TakePendingKeeps(s);
      while cfg.me == VIEW_LEADER && pending != []
        invariant Running(View().(pending := [])) && PendingInv(View().bs, pending)
        invariant cfg.me != VIEW_LEADER ==> View() == s
        invariant cfg.me == VIEW_LEADER ==>
                    DoNewBlocks(View().(pending := []), pending) == DoNewBlocks(s.(pending := []), s.pending)
        invariant blockBuf == old(blockBuf) && responseBuf == old(responseBuf) && otherBuf == old(otherBuf)
        decreases |pending|
      {
        var (_, batch) := pending[0];
        pending := pending[1..];
        DoNewBlockKeeps(View().(pending := []), batch);
        NewBlockIgnoresPending(View(), batch);
        MakeNewBlock(batch);
      }
      TryVoteForHead();
    }

    method BufferAll(ms: seq<Msg>)
      requires blockBuf == [] && responseBuf == [] && otherBuf == []
      modifies this`blockBuf, this`responseBuf, this`otherBuf
      ensures blockBuf == BufferedBlocks(ms) && responseBuf == BufferedResponses(ms) && otherBuf == BufferedOthers(ms)
    {
      for k := 0 to |ms|
        invariant blockBuf == BufferedBlocks(ms[..k]) && responseBuf == BufferedResponses(ms[..k]) &&
                  otherBuf == BufferedOthers(ms[..k])
      {
        BufferedSnoc(ms[..k], ms[k]);
        assert ms[..k + 1] == ms[..k] + [ms[k]];
        BufferMessage(ms[k]);
      }
      assert ms[..|ms|] == ms;
    }

    /** One turn of the reactor on a burst of messages. */
    method OnMessages(ms: seq<Msg>)
      requires Valid() && blockBuf == [] && responseBuf == [] && otherBuf == []
      requires forall i :: 0 <= i < |ms| ==> Decoded(ms[i])
      modifies this, storage, batches
      ensures View() == React(old(View()), Received(ms))
      ensures halted <==> HasBlame(ms)
      ensures !halted ==> Valid() && blockBuf == [] && responseBuf == [] && otherBuf == []
    {
      hide NodeInv, HandleBlocks, HandleResponses, HandleOthers, DrainReady, Propose, HasBlame,
        BufferedBlocks, BufferedResponses, BufferedOthers;
      BufferAll(ms);
      BufferedOk(ms);
      ProcessBlocks();
      ProcessResponses();
      ProcessReadyVotes();
      ProcessOthers();
      if halted {
        HaltedStays(View());
        HaltedProposesNothing(View());
        return;
      }
      ProcessReadyVotes();
      ProposePending();
    }

    /** One turn of the reactor on a batch from the mempool. */
    method OnSealed(batch: Batch)
      requires Valid()
      modifies this, storage, batches
      ensures Valid() && View() == React(old(View()), Sealed(batch))
      ensures blockBuf == old(blockBuf) && responseBuf == old(responseBuf) && otherBuf == old(otherBuf)
    {
      hide NodeInv, Propose;
      SealedKeeps(View(), batch);
      batches.PersistBatch(BatchDigest(batch), batch);
      pending := pending + [(BatchDigest(batch), batch)];
      ProposePending();
    }
  }

  // ---------------------------------------------------------------- what the handlers rest on

  lemma StoredUnderHash(s: Node)
    requires Running(s)
    ensures forall h :: h in s.ledger.st.byHash ==> s.ledger.st.byHash[h].hash == h
  {
    hide BatchInv, EmissionInv, PendingInv, CommittedBy, RotationAt, VotesInv;
  }

  /** Recording a vote for a delivered block finds everything the commit looks up. */
  lemma RecordReady(s: Node, v: Vote)
    requires Running(s) && v.round == s.round && v.hash in s.ledger.st.byHash
    ensures s.rot.eligible != [] && s.rot.recent != []
    ensures forall h :: h in s.ledger.st.byHash ==> s.ledger.st.byHash[h].hash == h
    ensures !Record(s, v).halted && v.hash in Record(s, v).ledger.st.byHash
    ensures s.round > s.cfg.f ==>
              var votes := s.votes[v.round := v];
              s.round - s.cfg.f in votes && WalkBack(s.ledger.st, votes[s.round - s.cfg.f].hash).Walked?
  {
    hide LedgerInv, BatchInv, EmissionInv, PendingInv, CommittedBy, WalkBack, EmitAll, RotationAt;
    StoredUnderHash(s);
    RecordKeeps(s, v);
    RecordFrame(s, v);
    assert v.round in Record(s, v).votes;
  }

  lemma NewBlockIgnoresPending(s: Node, batch: Batch)
    ensures DoNewBlock(s.(pending := []), batch).pending == []
    ensures DoNewBlock(s, batch) == DoNewBlock(s.(pending := []), batch).(pending := s.pending)
  {
    hide Deliver;
  }

  lemma BufferedSnoc(ms: seq<Msg>, m: Msg)
    ensures BufferedBlocks(ms + [m]) == BufferedBlocks(ms) + BufferedBlocks([m])
    ensures BufferedResponses(ms + [m]) == BufferedResponses(ms) + BufferedResponses([m])
    ensures BufferedOthers(ms + [m]) == BufferedOthers(ms) + BufferedOthers([m])
  {
    assert (ms + [m])[..|ms|] == ms && [m][..0] == [];
  }
}
