/**
 The OptSync replica as the program holds it: one object whose handlers update
 it in place, each proved to be the function of the same name in OptSyncCore.
 The panic on a second own vote carries no branch here: that there is none is
 proved where the vote is stored.
 */
module OptSyncNode {
  import opened Transactions
  import opened Blocks
  import opened NodeParts
  import opened OptSyncCore
  import opened OptSyncCerts

  class Context {
    const cfg: Config
    const storage: BlockIndex
    const batches: BatchTable
    var view: nat
    var lastLeader: Replica
    var height: nat
    var lastSeen: Block
    var lastCert: Certificate
    var lastCommitted: nat
    var voteMap: map<Hash, Certificate>
    var certMap: map<Hash, Certificate>
    var respCert: map<Hash, Certificate>
    var pending: seq<Batch>
    var queue: seq<Propose>
    var net: seq<Msg>
    var halted: bool

    ghost function View(): Node
      reads this, storage, batches
    {
      Node(cfg, view, lastLeader, storage.View(), height, lastSeen, lastCert, lastCommitted, voteMap, certMap, respCert,
           batches.View(), pending, queue, net, halted)
    }

    ghost predicate Valid()
      reads this, storage, batches
    {
      NodeInv(View()) && !halted
    }

    constructor (cfg: Config, store: map<BatchHash, Batch>)
      requires cfg.n > 0
      ensures Valid() && View() == Boot(cfg, store)
      ensures fresh(storage) && fresh(batches)
    {
      hide NodeInv;
      BootInv(cfg, store);
      this.cfg := cfg;
      storage := new BlockIndex();
      batches := new BatchTable(store);
      view, lastLeader, height, lastSeen, lastCert, lastCommitted := 0, 0, 0, GENESIS, EMPTY_CERT, 0;
      voteMap, certMap, respCert := map[], map[EmptyHash := EMPTY_CERT], map[];
      pending, queue, net, halted := [], [], [], false;
      new;
      storage.AddDeliveredBlock(GENESIS);
      storage.AddCommittedBlock(GENESIS);
      assert View() == Boot(cfg, store);
    }

    /** A certificate with enough votes is filed; the flag says whether it is responsive. */
    method PromoteCert(h: Hash, cert: Certificate) returns (decision: bool)
      modifies this`respCert, this`certMap, this`lastCert
      ensures decision == (|cert.votes| >= FastQuorum(cfg.n))
      ensures respCert == if decision then old(respCert)[h := cert] else old(respCert)
      ensures certMap == if |cert.votes| > cfg.f then old(certMap)[h := cert] else old(certMap)
      ensures lastCert == if |cert.votes| > cfg.f then cert else old(lastCert)
    {
      decision := false;
      if |cert.votes| >= (3 * cfg.n) / 4 {
        respCert := respCert[h := cert];
        decision := true;
      }
      if |cert.votes| > cfg.f {
        certMap := certMap[h := cert];
        lastCert := cert;
      }
    }

    /** Removes the certificate under construction, extends it, promotes it and puts it back. */
    method AddOneVote(c: Certificate, h: Hash) returns (decision: bool)
      requires c.votes != []
      modifies this
      ensures (View(), decision) == AddVote(old(View()), c, h)
    {
      hide FastQuorum;
      if h !in voteMap {
        voteMap := voteMap[h := c];
        return false;
      }
      var cert := voteMap[h];
      var rest := voteMap - {h};
      cert := cert.(votes := cert.votes + [c.votes[|c.votes| - 1]]);
      decision := PromoteCert(h, cert);
      assert rest[h := cert] == voteMap[h := cert];
      voteMap := rest[h := cert];
    }

    method ReceiveVote(c: Certificate, p: Propose) returns (decision: bool)
      modifies this
      ensures (View(), decision) == OnVote(old(View()), c, p)
    {
      hide AddVote;
      decision := false;
      if |c.votes| != 1 || c.votes[0].origin >= cfg.n {
        return;
      }
      if !c.msg.VoteCert? {
        halted := true;
        return;
      }
      var h := c.msg.hash;
      if h != p.hash || c.votes[0].auth != SignedBy(c.votes[0].origin, OnCert(c.msg)) || h !in storage.delivered {
        return;
      }
      var k := storage.delivered[h].header.height;
      if k in storage.deliveredAt && storage.deliveredAt[k].hash != h {
        return;
      }
      if h in respCert {
        return;
      }
      decision := AddOneVote(c, h);
    }

    /** The loop over the certificate's votes, collecting the different voters. */
    method CheckVotes(cert: Certificate) returns (ok: bool, voters: set<Replica>)
      ensures ok <==> VotesVerify(cfg.n, cert)
      ensures ok ==> voters == Origins(cert.votes)
    {
      voters := {};
      for i := 0 to |cert.votes|
        invariant VotesVerify(cfg.n, cert.(votes := cert.votes[..i]))
        invariant voters == Origins(cert.votes[..i])
      {
        var v := cert.votes[i];
        if v.origin >= cfg.n || v.auth != SignedBy(v.origin, OnCert(cert.msg)) {
          return false, voters;
        }
        assert cert.votes[..i + 1] == cert.votes[..i] + [v];
        OriginsSnoc(cert.votes[..i], v);
        voters := voters + {v.origin};
      }
      assert cert.votes[..|cert.votes|] == cert.votes;
      ok := true;
    }

    method Check(p: Propose, b: Block) returns (verdict: Verdict)
      requires cfg.n > 0
      ensures verdict == CheckProposal(View(), p, b)
    {
      hide VotesVerify, Origins;
      if b.hash != p.hash || b.header.author != view % cfg.n {
        return Rejected;
      }
      if b.header.height == 1 && b.header.prev != EmptyHash {
        return Rejected;
      }
      if b.header.height > 1 && |p.cert.votes| <= cfg.f {
        return Rejected;
      }
      if p.proof != SignedBy(b.header.author, OnBlock(b.hash)) {
        return Rejected;
      }
      if view != p.view {
        return Panicked;
      }
      if b.header.height == 1 {
        return Passed;
      }
      if !p.cert.msg.VoteCert? || p.cert.msg.hash != b.header.prev {
        return Rejected;
      }
      var ok, voters := CheckVotes(p.cert);
      if !ok || |voters| < cfg.f || b.header.prev != lastSeen.hash {
        return Rejected;
      }
      return Passed;
    }

    method AcceptValid(p: Propose, b: Block)
      requires p.hash !in voteMap
      modifies this, storage
      ensures View() == OnValid(old(View()), p, b)
    {
      if b.header.prev !in storage.delivered {
        return;
      }
      var msg := VoteCert(view, b.hash);
      var vote := Certificate(msg, [Vote(cfg.me, SignedBy(cfg.me, OnCert(msg)))]);
      voteMap := voteMap[p.hash := vote];
      storage.AddDeliveredBlock(b);
      height, lastSeen, lastCert := b.header.height, b, p.cert;
      net := net + [VoteMsg(vote, p)];
      queue := queue + [p];
    }

    method ReceiveProposal(p: Propose, b: Block, batch: Batch)
      requires Valid() && Finalized(b)
      modifies this, storage, batches
      ensures View() == OnProposal(old(View()), p, b, batch)
    {
      hide CheckProposal, OnValid, StorageOk;
      if b.hash in storage.delivered {
        return;
      }
      var verdict := Check(p, b);
      PassedHash(View(), p, b);
      if verdict == Panicked {
        halted := true;
        return;
      }
      if verdict == Rejected || b.batch != BatchDigest(batch) {
        return;
      }
      batches.PersistBatch(b.batch, batch);
      AcceptValid(p, b);
    }

    method ProposeBatch(batch: Batch)
      requires lastSeen.hash in certMap
      modifies this, storage
      ensures View() == DoPropose(old(View()), batch)
    {
      var b := NewBlock(lastSeen, cfg.me, batch, UNSIGNED);
      var msg := VoteCert(view, b.hash);
      var p := Propose(SignedBy(cfg.me, OnBlock(b.hash)), certMap[lastSeen.hash], view, b.hash);
      storage.AddDeliveredBlock(b);
      voteMap := voteMap[b.hash := Certificate(msg, [Vote(cfg.me, SignedBy(cfg.me, OnCert(msg)))])];
      height, lastSeen, lastCommitted := b.header.height, b, b.header.height;
      net := net + [NewProposal(p, b, batch)];
      queue := queue + [p];
    }

    method CommitBlock(p: Propose)
      modifies this, storage, batches
      ensures View() == OnCommit(old(View()), p)
    {
      if p.hash !in storage.delivered {
        return;
      }
      var b := storage.delivered[p.hash];
      if b.hash in storage.committed {
        return;
      }
      lastCommitted := b.header.height;
      storage.AddCommittedBlock(b);
      var _ := batches.ReadCached(b.batch);
    }

    method HandleMessage(m: Msg)
      requires Valid() && (m.NewProposal? ==> Finalized(m.block))
      modifies this, storage, batches
      ensures View() == OnMessage(old(View()), m)
    {
      hide NodeInv, OnProposal, OnVote, OnCommit;
      if m.NewProposal? {
        ReceiveProposal(m.prop, m.block, m.batch);
      } else if m.VoteMsg? {
        var decision := ReceiveVote(m.cert, m.prop);
        if decision {
          CommitBlock(m.prop);
        }
      }
    }

    method ProposePending()
      modifies this, storage
      ensures View() == ProposeAll(old(View()))
    {
      hide DoPropose;
      ghost var s := View();
      while !halted && lastLeader == cfg.me && lastSeen.hash in certMap && pending != []
        invariant ProposeAll(View()) == ProposeAll(s)
        decreases |pending|
      {
        var batch := pending[0];
        pending := pending[1..];
        DoProposePending(View(), batch);
        ProposeBatch(batch);
      }
    }

    /** One turn of the reactor. */
    method OnEvent(e: Event)
      requires Valid() && Decoded(e)
      modifies this, storage, batches
      ensures View() == React(old(View()), e)
      ensures halted <==> Panics(old(View()), e)
      ensures !halted ==> Valid()
    {
      hide NodeInv, OnMessage, OnCommit, ProposeAll, Panics;
      ReactKeeps(View(), e);
      match e {
        case Received(m) => HandleMessage(m);
        case Sealed(batch) =>
          batches.PersistBatch(BatchDigest(batch), batch);
          pending := pending + [batch];
        case Fired(p) => CommitBlock(p);
      }
      ProposePending();
    }
  }

  lemma PassedHash(s: Node, p: Propose, b: Block)
    requires s.cfg.n > 0
    ensures CheckProposal(s, p, b) == Passed ==> b.hash == p.hash
  {
  }
}
