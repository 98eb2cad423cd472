/**
 OptSync: the builder of proposals and their checker agree.
 */
module OptSyncCerts {
  import opened Transactions
  import opened Blocks
  import opened OptSyncCore

  // ---------------------------------------------------------------- arbitrary messages

  /** Every certificate under construction is for a delivered block, and the head is delivered. */
  ghost predicate NodeInv(s: Node) {
    && s.cfg.n > 0
    && StorageOk(s.st)
    && (forall h :: h in s.voteMap ==> h in s.st.byHash)
    && s.lastSeen.hash in s.st.byHash
  }

  predicate Decoded(e: Event) {
    e.Received? && e.msg.NewProposal? ==> Finalized(e.msg.block)
  }

  /** The two inputs the source panics on. */
  ghost predicate Panics(s: Node, e: Event)
    requires s.cfg.n > 0
  {
    e.Received? &&
    match e.msg
    case NewProposal(p, b, _) => b.hash !in s.st.byHash && HeaderOk(s, p, b) && s.view != p.view
    case VoteMsg(c, p) => |c.votes| == 1 && Known(s, c.votes[0].origin) && !c.msg.VoteCert?
    case OtherMsg => false
  }

  lemma BootInv(cfg: Config, store: map<BatchHash, Batch>)
    requires cfg.n > 0
    ensures NodeInv(Boot(cfg, store)) && !Boot(cfg, store).halted
  {
  }

  /** No proposal meets an own vote that is already there: that panic is unreachable. */
  lemma OnProposalKeeps(s: Node, p: Propose, b: Block, batch: Batch)
    requires NodeInv(s) && !s.halted && Finalized(b)
    ensures NodeInv(OnProposal(s, p, b, batch))
    ensures OnProposal(s, p, b, batch).halted <==> b.hash !in s.st.byHash && HeaderOk(s, p, b) && s.view != p.view
  {
    hide VotesVerify, Origins, CertOk, LeaderOfView;
  }

  lemma OnVoteKeeps(s: Node, c: Certificate, p: Propose)
    requires NodeInv(s) && !s.halted
    ensures NodeInv(OnVote(s, c, p).0)
    ensures OnVote(s, c, p).0.halted <==> |c.votes| == 1 && Known(s, c.votes[0].origin) && !c.msg.VoteCert?
  {
    hide StorageOk, Equivocates;
  }

  lemma OnCommitKeeps(s: Node, p: Propose)
    requires NodeInv(s)
    ensures NodeInv(OnCommit(s, p)) && OnCommit(s, p).halted == s.halted
  {
  }

  lemma DoProposeKeeps(s: Node, batch: Batch)
    requires NodeInv(s) && s.lastSeen.hash in s.certMap
    ensures NodeInv(DoPropose(s, batch)) && DoPropose(s, batch).halted == s.halted
  {
  }

  lemma {:induction false} ProposeAllKeeps(s: Node)
    requires NodeInv(s)
    ensures NodeInv(ProposeAll(s)) && ProposeAll(s).halted == s.halted
    decreases |s.pending|
  {
    hide NodeInv, DoPropose;
    if !s.halted && MayPropose(s) {
      PendingKeeps(s, s.pending[1..]);
      DoProposeKeeps(s.(pending := s.pending[1..]), s.pending[0]);
      DoProposePending(s.(pending := s.pending[1..]), s.pending[0]);
      ProposeAllKeeps(DoPropose(s.(pending := s.pending[1..]), s.pending[0]));
    }
  }

  lemma PendingKeeps(s: Node, pending: seq<Batch>)
    requires NodeInv(s)
    ensures NodeInv(s.(pending := pending))
  {
  }

  lemma DoProposePending(s: Node, batch: Batch)
    requires s.lastSeen.hash in s.certMap
    ensures DoPropose(s, batch).pending == s.pending
  {
  }

  /** One turn keeps the invariant for arbitrary input and halts on exactly the two known inputs. */
  lemma ReactKeeps(s: Node, e: Event)
    requires NodeInv(s) && !s.halted && Decoded(e)
    ensures NodeInv(React(s, e)) && (React(s, e).halted <==> Panics(s, e))
  {
    assert s.cfg.n > 0;
    hide NodeInv, OnProposal, OnVote, OnCommit, ProposeAll;
    match e {
      case Received(m) =>
        match m {
          case NewProposal(p, b, batch) => OnProposalKeeps(s, p, b, batch);
          case VoteMsg(c, p) =>
            OnVoteKeeps(s, c, p);
            OnCommitKeeps(OnVote(s, c, p).0, p);
            OnVoteDecides(s, c, p);
          case OtherMsg =>
        }
      case Sealed(batch) => SealedKeeps(s, batch);
      case Fired(p) => OnCommitKeeps(s, p);
    }
    ProposeAllKeeps(Absorb(s, e));
  }

  lemma OnVoteDecides(s: Node, c: Certificate, p: Propose)
    ensures OnVote(s, c, p).1 ==> !OnVote(s, c, p).0.halted || s.halted
  {
  }

  lemma SealedKeeps(s: Node, batch: Batch)
    requires NodeInv(s)
    ensures NodeInv(s.(bs := Persist(s.bs, BatchDigest(batch), batch), pending := s.pending + [batch]))
  {
  }

  ghost predicate RunOk(cfg: Config, es: seq<Event>) {
    cfg.n > 0 && forall i :: 0 <= i < |es| ==> Decoded(es[i])
  }

  function RunNode(s: Node, es: seq<Event>): (t: Node)
    requires s.cfg.n > 0
    ensures t.cfg == s.cfg && t.view == s.view && t.lastLeader == s.lastLeader
  {
    if es == [] then s else React(RunNode(s, es[..|es| - 1]), es[|es| - 1])
  }

  /** Over any run with arbitrary messages: votes are kept for delivered blocks only, so the next
      proposal never finds an own vote in place, and the replica runs on unless one of the two inputs comes. */
  lemma {:induction false} VotesAreForDelivered(cfg: Config, store: map<BatchHash, Batch>, es: seq<Event>)
    requires RunOk(cfg, es)
    ensures var s := RunNode(Boot(cfg, store), es);
            s.halted || (NodeInv(s) && forall h :: h in s.voteMap ==> h in s.st.byHash)
    ensures es != [] ==>
              var before := RunNode(Boot(cfg, store), es[..|es| - 1]);
              RunNode(Boot(cfg, store), es).halted <==> before.halted || Panics(before, es[|es| - 1])
  {
    hide NodeInv, React, Panics;
    BootInv(cfg, store);
    if es != [] {
      VotesAreForDelivered(cfg, store, es[..|es| - 1]);
      var before := RunNode(Boot(cfg, store), es[..|es| - 1]);
      var e := es[|es| - 1];
      if before.halted {
        HaltedReact(before, e);
      } else {
        ReactKeeps(before, e);
      }
    }
    VotesDelivered(RunNode(Boot(cfg, store), es));
  }

  lemma HaltedReact(s: Node, e: Event)
    requires s.cfg.n > 0 && s.halted
    ensures React(s, e) == s
  {
  }

  lemma VotesDelivered(s: Node)
    ensures NodeInv(s) ==> forall h :: h in s.voteMap ==> h in s.st.byHash
  {
  }

  // ---------------------------------------------------------------- the leader's certificates

  /** A certificate for `h` whose votes all verify and come from the leader or were delivered to it. */
  ghost predicate GoodCert(cfg: Config, view: nat, cert: Certificate, h: Hash, seen: set<(Replica, Hash)>) {
    && cert.msg == VoteCert(view, h) && VotesVerify(cfg.n, cert)
    && (forall i :: 0 <= i < |cert.votes| ==> cert.votes[i].origin == cfg.me || (cert.votes[i].origin, h) in seen)
  }

  ghost predicate DistinctVoters(votes: seq<Vote>) {
    forall i, j :: 0 <= i < j < |votes| ==> votes[i].origin != votes[j].origin
  }

  ghost predicate CertsGood(s: Node, seen: set<(Replica, Hash)>) {
    && (forall h :: h in s.voteMap ==> GoodCert(s.cfg, s.view, s.voteMap[h], h, seen))
    && (forall h :: h in s.certMap ==>
        h == EmptyHash || (GoodCert(s.cfg, s.view, s.certMap[h], h, seen) && |s.certMap[h].votes| > s.cfg.f))
  }

  ghost predicate CertsDistinct(s: Node) {
    && (forall h :: h in s.voteMap ==> DistinctVoters(s.voteMap[h].votes))
    && (forall h :: h in s.certMap ==> DistinctVoters(s.certMap[h].votes))
  }

  /** The leader of the one view, with its head known to be genesis exactly at height 0. */
  ghost predicate Leading(s: Node) {
    && s.cfg.n > 0 && s.view == 0 && s.cfg.me == 0
    && (s.lastSeen.hash == EmptyHash <==> s.lastSeen.header.height == 0)
  }

  ghost predicate LeaderInv(s: Node, seen: set<(Replica, Hash)>) {
    Leading(s) && CertsGood(s, seen)
  }

  /** What a follower that knows the same parent decides about the leader's next proposal:
      it passes exactly when enough different replicas voted, and the first one always passes. */
  lemma BuiltPassesIff(s: Node, seen: set<(Replica, Hash)>, batch: Batch, t: Node)
    requires LeaderInv(s, seen) && s.lastSeen.hash in s.certMap
    requires t.cfg.n == s.cfg.n && t.cfg.f == s.cfg.f && t.view == s.view && t.lastSeen.hash == s.lastSeen.hash
    ensures var (p, b) := Built(s, batch);
            CheckProposal(t, p, b) == Passed <==>
            s.lastSeen.header.height == 0 || |Origins(s.certMap[s.lastSeen.hash].votes)| >= s.cfg.f
  {
    hide Origins, VotesVerify;
    assert LeaderOfView(t) == 0;
  }

  lemma OriginsSnoc(votes: seq<Vote>, v: Vote)
    ensures Origins(votes + [v]) == Origins(votes) + {v.origin}
    ensures (forall i :: 0 <= i < |votes| ==> votes[i].origin != v.origin) ==> v.origin !in Origins(votes)
  {
    var all := votes + [v];
    assert all[|votes|] == v && forall i :: 0 <= i < |votes| ==> all[i] == votes[i];
  }

  lemma {:induction false} DistinctCount(votes: seq<Vote>)
    requires DistinctVoters(votes)
    ensures |Origins(votes)| == |votes|
  {
    if votes == [] {
      assert Origins(votes) == {};
    } else {
      hide Origins;
      var init, last := votes[..|votes| - 1], votes[|votes| - 1];
      DistinctCount(init);
      OriginsSnoc(init, last);
      assert votes == init + [last];
    }
  }

  // ---------------------------------------------------------------- the leader's run

  /** The votes that reach the leader are of its one view, and nobody else signs proposals in its name. */
  ghost predicate OneView(s: Node, e: Event) {
    e.Received? ==>
      match e.msg
      case NewProposal(p, b, _) => p.proof == SignedBy(s.cfg.me, OnBlock(b.hash)) ==> b.hash in s.st.byHash
      case VoteMsg(c, p) => c.msg.VoteCert? ==> c.msg.view == s.view
      case OtherMsg => true
  }

  predicate IsVote(e: Event) {
    e.Received? && e.msg.VoteMsg? && |e.msg.cert.votes| == 1 && e.msg.cert.msg.VoteCert?
  }

  /** Who votes, and for which block. */
  function Ballot(e: Event): (Replica, Hash)
    requires IsVote(e)
  {
    (e.msg.cert.votes[0].origin, e.msg.cert.msg.hash)
  }

  function SeenAfter(seen: set<(Replica, Hash)>, e: Event): set<(Replica, Hash)> {
    if IsVote(e) then seen + {Ballot(e)} else seen
  }

  /** A vote is delivered for the first time and is not the leader's own. */
  ghost predicate FirstTime(me: Replica, e: Event, seen: set<(Replica, Hash)>) {
    IsVote(e) ==> Ballot(e).0 != me && Ballot(e) !in seen
  }

  lemma GoodCertGrows(cfg: Config, view: nat, cert: Certificate, h: Hash, seen: set<(Replica, Hash)>, v: Vote)
    requires GoodCert(cfg, view, cert, h, seen) && (v.origin, h) in seen
    requires v.origin < cfg.n && v.auth == SignedBy(v.origin, OnCert(VoteCert(view, h)))
    ensures GoodCert(cfg, view, cert.(votes := cert.votes + [v]), h, seen)
  {
  }

  lemma SeenGrows(s: Node, seen: set<(Replica, Hash)>, more: set<(Replica, Hash)>)
    requires CertsGood(s, seen) && seen <= more
    ensures CertsGood(s, more)
  {
    hide VotesVerify;
  }

  /** Any verified vote of the view, repeated or not, keeps every certificate verifiable and on its own block. */
  lemma AddVoteKeeps(s: Node, c: Certificate, seen: set<(Replica, Hash)>)
    requires LeaderInv(s, seen) && |c.votes| == 1 && c.msg.VoteCert? && c.msg.view == s.view
    requires c.votes[0].origin < s.cfg.n && c.votes[0].auth == SignedBy(c.votes[0].origin, OnCert(c.msg))
    ensures LeaderInv(AddVote(s, c, c.msg.hash).0, seen + {(c.votes[0].origin, c.msg.hash)})
  {
    hide GoodCert;
    var h := c.msg.hash;
    var v := c.votes[0];
    var more := seen + {(v.origin, h)};
    SeenGrows(s, seen, more);
    if h in s.voteMap {
      GoodCertGrows(s.cfg, s.view, s.voteMap[h], h, more, v);
    } else {
      FirstVote(s.cfg, s.view, c, more);
    }
    assert c.votes[|c.votes| - 1] == v;
  }

  lemma FirstVote(cfg: Config, view: nat, c: Certificate, seen: set<(Replica, Hash)>)
    requires |c.votes| == 1 && c.msg.VoteCert? && c.msg.view == view && (c.votes[0].origin, c.msg.hash) in seen
    requires c.votes[0].origin < cfg.n && c.votes[0].auth == SignedBy(c.votes[0].origin, OnCert(c.msg))
    ensures GoodCert(cfg, view, c, c.msg.hash, seen)
  {
  }

  /** A vote delivered for the first time repeats no voter. */
  lemma AddVoteDistinct(s: Node, c: Certificate, seen: set<(Replica, Hash)>)
    requires LeaderInv(s, seen) && CertsDistinct(s) && |c.votes| == 1 && c.msg.VoteCert?
    requires c.votes[0].origin != s.cfg.me && (c.votes[0].origin, c.msg.hash) !in seen
    ensures CertsDistinct(AddVote(s, c, c.msg.hash).0)
  {
    hide VotesVerify;
    var h := c.msg.hash;
    var v := c.votes[0];
    assert c.votes[|c.votes| - 1] == v;
    if h in s.voteMap {
      NewVoter(s.cfg, s.view, s.voteMap[h], h, seen, v);
    }
    hide GoodCert;
  }

  lemma NewVoter(cfg: Config, view: nat, cert: Certificate, h: Hash, seen: set<(Replica, Hash)>, v: Vote)
    requires GoodCert(cfg, view, cert, h, seen) && DistinctVoters(cert.votes)
    requires v.origin != cfg.me && (v.origin, h) !in seen
    ensures DistinctVoters(cert.votes + [v])
  {
  }

  lemma OnVoteKeepsCerts(s: Node, c: Certificate, p: Propose, seen: set<(Replica, Hash)>)
    requires LeaderInv(s, seen) && OneView(s, Received(VoteMsg(c, p)))
    ensures LeaderInv(OnVote(s, c, p).0, SeenAfter(seen, Received(VoteMsg(c, p))))
    ensures CertsDistinct(s) && FirstTime(s.cfg.me, Received(VoteMsg(c, p)), seen) ==> CertsDistinct(OnVote(s, c, p).0)
  {
    hide CertsDistinct, CertsGood, AddVote;
    var e := Received(VoteMsg(c, p));
    if IsVote(e) {
      SeenGrows(s, seen, SeenAfter(seen, e));
      if Known(s, c.votes[0].origin) && VoteCounts(s, c, p) {
        AddVoteKeeps(s, c, seen);
        if CertsDistinct(s) && FirstTime(s.cfg.me, e, seen) {
          AddVoteDistinct(s, c, seen);
        }
      }
    } else {
      NotCounted(s, c, p, seen);
    }
  }

  lemma NotCounted(s: Node, c: Certificate, p: Propose, seen: set<(Replica, Hash)>)
    requires LeaderInv(s, seen) && !IsVote(Received(VoteMsg(c, p)))
    ensures LeaderInv(OnVote(s, c, p).0, seen) && (CertsDistinct(s) ==> CertsDistinct(OnVote(s, c, p).0))
  {
    hide GoodCert, DistinctVoters;
  }

  /** What a step that changes no certificate keeps. */
  lemma SameCerts(s: Node, t: Node, seen: set<(Replica, Hash)>)
    requires LeaderInv(s, seen) && t.cfg == s.cfg && t.view == s.view && t.lastSeen == s.lastSeen
    requires t.voteMap == s.voteMap && t.certMap == s.certMap
    ensures LeaderInv(t, seen) && (CertsDistinct(s) ==> CertsDistinct(t))
  {
    hide GoodCert, DistinctVoters;
  }

  lemma OwnVote(s: Node, h: Hash, seen: set<(Replica, Hash)>)
    requires s.cfg.me < s.cfg.n
    ensures GoodCert(s.cfg, s.view, VoteFor(s, h), h, seen) && DistinctVoters(VoteFor(s, h).votes)
  {
  }

  lemma DoProposeKeepsCerts(s: Node, batch: Batch, seen: set<(Replica, Hash)>)
    requires LeaderInv(s, seen) && s.lastSeen.hash in s.certMap
    ensures LeaderInv(DoPropose(s, batch), seen) && (CertsDistinct(s) ==> CertsDistinct(DoPropose(s, batch)))
  {
    hide GoodCert, DistinctVoters;
    OwnVote(s, Built(s, batch).1.hash, seen);
  }

  lemma {:induction false} ProposeAllKeepsCerts(s: Node, seen: set<(Replica, Hash)>)
    requires LeaderInv(s, seen)
    ensures LeaderInv(ProposeAll(s), seen) && (CertsDistinct(s) ==> CertsDistinct(ProposeAll(s)))
    decreases |s.pending|
  {
    hide DoPropose, CertsGood, CertsDistinct, Leading;
    if !s.halted && MayPropose(s) {
      var s1 := s.(pending := s.pending[1..]);
      SameCerts(s, s1, seen);
      DoProposeKeepsCerts(s1, s.pending[0], seen);
      DoProposePending(s1, s.pending[0]);
      ProposeAllKeepsCerts(DoPropose(s1, s.pending[0]), seen);
    }
  }

  lemma OnCommitCerts(s: Node, p: Propose)
    ensures var t := OnCommit(s, p);
            t.lastSeen == s.lastSeen && t.voteMap == s.voteMap && t.certMap == s.certMap
  {
    hide ReadBatch;
  }

  lemma AbsorbKeepsCerts(s: Node, e: Event, seen: set<(Replica, Hash)>)
    requires s.cfg.n > 0 && LeaderInv(s, seen) && OneView(s, e)
    ensures LeaderInv(Absorb(s, e), SeenAfter(seen, e))
    ensures CertsDistinct(s) && FirstTime(s.cfg.me, e, seen) ==> CertsDistinct(Absorb(s, e))
  {
    hide CertsGood, CertsDistinct, OnVote, OnCommit, Leading, OnProposal;
    match e {
      case Received(m) =>
        match m {
          case NewProposal(p, b, batch) => IgnoresForgeries(s, p, b, batch, seen);
          case VoteMsg(c, p) =>
            var t := OnVote(s, c, p).0;
            OnVoteKeepsCerts(s, c, p, seen);
            OnCommitCerts(t, p);
            SameCerts(t, OnCommit(t, p), SeenAfter(seen, e));
          case OtherMsg =>
        }
      case Sealed(batch) => SameCerts(s, Absorb(s, e), seen);
      case Fired(p) =>
        OnCommitCerts(s, p);
        SameCerts(s, OnCommit(s, p), seen);
    }
  }

  /** Every turn of the leader keeps its certificates verifiable, whatever votes are repeated; if none is
      repeated, no certificate names a voter twice. */
  lemma ReactKeepsCerts(s: Node, e: Event, seen: set<(Replica, Hash)>)
    requires s.cfg.n > 0 && LeaderInv(s, seen) && OneView(s, e)
    ensures LeaderInv(React(s, e), SeenAfter(seen, e))
    ensures CertsDistinct(s) && FirstTime(s.cfg.me, e, seen) ==> CertsDistinct(React(s, e))
  {
    hide CertsGood, CertsDistinct, ProposeAll, Leading, Absorb, FirstTime, OneView;
    if s.halted {
      SeenGrows(s, seen, SeenAfter(seen, e));
    } else {
      AbsorbKeepsCerts(s, e, seen);
      ProposeAllKeepsCerts(Absorb(s, e), SeenAfter(seen, e));
    }
  }

  lemma IgnoresForgeries(s: Node, p: Propose, b: Block, batch: Batch, seen: set<(Replica, Hash)>)
    requires LeaderInv(s, seen) && OneView(s, Received(NewProposal(p, b, batch)))
    ensures OnProposal(s, p, b, batch) == s
  {
    assert LeaderOfView(s) == 0;
  }

  // ---------------------------------------------------------------- over runs

  function SeenBy(es: seq<Event>): set<(Replica, Hash)> {
    if es == [] then {} else SeenAfter(SeenBy(es[..|es| - 1]), es[|es| - 1])
  }

  /** A run of the leader in its one view; votes may be repeated. */
  ghost predicate OneViewRun(s: Node, es: seq<Event>)
    requires s.cfg.n > 0
  {
    forall i :: 0 <= i < |es| ==> OneView(RunNode(s, es[..i]), es[i])
  }

  /** No vote is delivered twice. */
  ghost predicate EachOnce(me: Replica, es: seq<Event>) {
    forall i :: 0 <= i < |es| ==> FirstTime(me, es[i], SeenBy(es[..i]))
  }

  lemma {:induction false} RunPrefix(s: Node, es: seq<Event>)
    requires s.cfg.n > 0 && es != []
    ensures var init := es[..|es| - 1];
            && (OneViewRun(s, es) ==> OneViewRun(s, init) && OneView(RunNode(s, init), es[|es| - 1]))
            && (EachOnce(s.cfg.me, es) ==> EachOnce(s.cfg.me, init) && FirstTime(s.cfg.me, es[|es| - 1], SeenBy(init)))
  {
    hide OneView, FirstTime, RunNode, SeenBy;
    var init := es[..|es| - 1];
    assert forall i :: 0 <= i < |init| ==> init[..i] == es[..i] && init[i] == es[i];
  }

  lemma {:induction false} LeaderRun(cfg: Config, store: map<BatchHash, Batch>, es: seq<Event>)
    requires cfg.n > 0 && cfg.me == 0 && OneViewRun(Boot(cfg, store), es)
    ensures LeaderInv(RunNode(Boot(cfg, store), es), SeenBy(es))
    ensures EachOnce(cfg.me, es) ==> CertsDistinct(RunNode(Boot(cfg, store), es))
  {
    hide React, CertsGood, CertsDistinct, Leading, SeenAfter, OneView, OneViewRun, EachOnce, FirstTime, Boot;
    if es == [] {
      BootLeads(cfg, store);
    } else {
      var init := es[..|es| - 1];
      RunPrefix(Boot(cfg, store), es);
      LeaderRun(cfg, store, init);
      ReactKeepsCerts(RunNode(Boot(cfg, store), init), es[|es| - 1], SeenBy(init));
    }
  }

  lemma BootLeads(cfg: Config, store: map<BatchHash, Batch>)
    requires cfg.n > 0 && cfg.me == 0
    ensures LeaderInv(Boot(cfg, store), {}) && CertsDistinct(Boot(cfg, store))
  {
  }

  /** A follower of the leader `s` whose last seen block is the leader's. */
  predicate Follows(follower: Node, s: Node) {
    && follower.cfg == s.cfg.(me := follower.cfg.me)
    && follower.view == s.view && follower.lastSeen.hash == s.lastSeen.hash
  }

  /** The exact condition, over every run of the leader in its one view, with any votes repeated: what it builds next
      passes the check of a follower at the parent if and only if the parent is genesis or at least `f`
      different replicas have voted for it. */
  lemma {:induction false} BuilderMeetsCheckerIff(cfg: Config, store: map<BatchHash, Batch>, es: seq<Event>,
      batch: Batch, follower: Node)
    requires cfg.n > 0 && cfg.me == 0 && OneViewRun(Boot(cfg, store), es)
    requires var s := RunNode(Boot(cfg, store), es);
             s.lastSeen.hash in s.certMap && Follows(follower, s)
    ensures var s := RunNode(Boot(cfg, store), es);
            var (p, b) := Built(s, batch);
            CheckProposal(follower, p, b) == Passed <==>
            s.lastSeen.header.height == 0 || |Origins(s.certMap[s.lastSeen.hash].votes)| >= cfg.f
  {
    hide RunNode, Boot, OneViewRun, EachOnce, Built, CheckProposal, Origins, CertsGood, Leading;
    LeaderRun(cfg, store, es);
    BuiltPassesIff(RunNode(Boot(cfg, store), es), SeenBy(es), batch, follower);
  }

  /** With each vote delivered once the condition always holds: builder and checker agree. */
  lemma {:induction false} BuilderMeetsChecker(cfg: Config, store: map<BatchHash, Batch>, es: seq<Event>,
      batch: Batch, follower: Node)
    requires cfg.n > 0 && cfg.me == 0 && OneViewRun(Boot(cfg, store), es) && EachOnce(cfg.me, es)
    requires var s := RunNode(Boot(cfg, store), es);
             s.lastSeen.hash in s.certMap && Follows(follower, s)
    ensures var (p, b) := Built(RunNode(Boot(cfg, store), es), batch);
            CheckProposal(follower, p, b) == Passed
  {
    hide RunNode, Boot, OneViewRun, EachOnce, Built, CheckProposal, Origins, CertsGood, Leading, CertsDistinct;
    LeaderRun(cfg, store, es);
    EnoughVoters(RunNode(Boot(cfg, store), es), SeenBy(es));
    BuilderMeetsCheckerIff(cfg, store, es, batch, follower);
  }

  lemma EnoughVoters(s: Node, seen: set<(Replica, Hash)>)
    requires LeaderInv(s, seen) && CertsDistinct(s) && s.lastSeen.hash in s.certMap
    ensures s.lastSeen.header.height == 0 || |Origins(s.certMap[s.lastSeen.hash].votes)| >= s.cfg.f
  {
    hide Origins, VotesVerify;
    DistinctCount(s.certMap[s.lastSeen.hash].votes);
  }

  // ---------------------------------------------------------------- a vote delivered more than once

  const FIRST: Block := NewBlock(GENESIS, 0, [], UNSIGNED)

  function VoteOf(who: Replica, h: Hash): Certificate {
    Certificate(VoteCert(0, h), [Vote(who, SignedBy(who, OnCert(VoteCert(0, h))))])
  }

  /** The leader's state after its first proposal, as far as certificates go. */
  ghost predicate AwaitsVotes(s: Node, votes: seq<Vote>) {
    && s.cfg == Config(10, 3, 0) && s.view == 0 && s.lastLeader == 0 && !s.halted && s.pending == []
    && s.lastSeen == FIRST && FIRST.hash in s.st.byHash && s.st.byHash[FIRST.hash] == FIRST
    && 1 in s.st.byHeight && s.st.byHeight[1] == FIRST && s.respCert == map[]
    && FIRST.hash in s.voteMap && s.voteMap[FIRST.hash] == Certificate(VoteCert(0, FIRST.hash), votes)
    && (FIRST.hash in s.certMap <==> |votes| > 3) && (|votes| > 3 ==> s.certMap[FIRST.hash] == s.voteMap[FIRST.hash])
  }

  lemma FirstProposal(s: Node)
    requires s == Boot(Config(10, 3, 0), map[])
    ensures AwaitsVotes(React(s, Sealed([])), VoteFor(s, FIRST.hash).votes)
    ensures VoteFor(React(s, Sealed([])), FIRST.hash) == VoteFor(s, FIRST.hash)
  {
    var s1 := Absorb(s, Sealed([]));
    var s2 := DoPropose(s1.(pending := []), []);
    assert s1.pending == [[]] && s1.pending[1..] == [];
    assert ProposeAll(s2) == s2;
  }

  lemma VoteAgain(s: Node, votes: seq<Vote>, p: Propose)
    requires AwaitsVotes(s, votes) && 1 <= |votes| <= 3 && p.hash == FIRST.hash
    ensures AwaitsVotes(React(s, Received(VoteMsg(VoteOf(1, FIRST.hash), p))), votes + VoteOf(1, FIRST.hash).votes)
  {
    var t := OnVote(s, VoteOf(1, FIRST.hash), p).0;
    assert FastQuorum(10) == 7;
    assert !MayPropose(t);
  }

  /** Without "each vote once" it fails: with n = 10 and f = 3, one replica's vote delivered three times
      certifies the first block, and the leader's next proposal is then rejected by its followers. */
  lemma RepeatedVotesBreakIt(p: Propose, follower: Node)
    requires p.hash == FIRST.hash
    requires follower.cfg == Config(10, 3, 1) && follower.view == 0 && follower.lastSeen == FIRST
    ensures var again := Received(VoteMsg(VoteOf(1, FIRST.hash), p));
            var es := [Sealed([]), again, again, again];
            var s := RunNode(Boot(Config(10, 3, 0), map[]), es);
            && OneViewRun(Boot(Config(10, 3, 0), map[]), es)
            && s.lastSeen.hash in s.certMap
            && CheckProposal(follower, Built(s, []).0, Built(s, []).1) == Rejected
  {
    hide React, AwaitsVotes, Boot, RunNode, CheckProposal, Built, Origins, VoteOf, VoteFor;
    var again := Received(VoteMsg(VoteOf(1, FIRST.hash), p));
    var es := [Sealed([]), again, again, again];
    var s := Boot(Config(10, 3, 0), map[]);
    UnrollRun(s, es);
    BootView(s.cfg);
    RepeatsAreOfView(s, p, es);
    FirstProposal(s);
    var votes := ThreeTimes(React(s, es[0]), VoteFor(s, FIRST.hash).votes, p);
    TwoVoters(RunNode(s, es), votes, follower);
  }

  lemma {:induction false} RepeatsAreOfView(s: Node, p: Propose, es: seq<Event>)
    requires s.cfg.n > 0 && s.view == 0
    requires forall i :: 0 <= i < |es| ==> es[i] == Sealed([]) || es[i] == Received(VoteMsg(VoteOf(1, FIRST.hash), p))
    ensures OneViewRun(s, es)
  {
    hide RunNode;
    forall i | 0 <= i < |es| ensures OneView(RunNode(s, es[..i]), es[i]) {
      assert RunNode(s, es[..i]).view == 0;
    }
  }

  lemma BootView(cfg: Config)
    ensures Boot(cfg, map[]).view == 0
  {
  }

  lemma {:induction false} ThreeTimes(s: Node, own: seq<Vote>, p: Propose) returns (votes: seq<Vote>)
    requires AwaitsVotes(s, own) && own == VoteFor(s, FIRST.hash).votes && p.hash == FIRST.hash
    ensures var again := Received(VoteMsg(VoteOf(1, FIRST.hash), p));
            AwaitsVotes(React(React(React(s, again), again), again), votes)
    ensures |votes| == 4 && forall i :: 0 <= i < 4 ==> votes[i].origin == 0 || votes[i].origin == 1
  {
    assert own[0].origin == 0;
    hide React, AwaitsVotes;
    var again := Received(VoteMsg(VoteOf(1, FIRST.hash), p));
    var v := VoteOf(1, FIRST.hash).votes;
    VoteAgain(s, own, p);
    VoteAgain(React(s, again), own + v, p);
    VoteAgain(React(React(s, again), again), own + v + v, p);
    votes := own + v + v + v;
  }

  lemma {:induction false} UnrollRun(s: Node, es: seq<Event>)
    requires s.cfg.n > 0 && |es| == 4
    ensures RunNode(s, es) == React(React(React(React(s, es[0]), es[1]), es[2]), es[3])
  {
    hide React;
    assert es[..3][..2] == es[..2] && es[..2][..1] == es[..1] && es[..1][..0] == [];
    assert RunNode(s, es[..1]) == React(s, es[0]);
    assert RunNode(s, es[..2]) == React(React(s, es[0]), es[1]);
    assert RunNode(s, es[..3]) == React(React(React(s, es[0]), es[1]), es[2]);
  }

  lemma TwoVoters(s: Node, votes: seq<Vote>, follower: Node)
    requires AwaitsVotes(s, votes) && |votes| == 4 && forall i :: 0 <= i < 4 ==>
             votes[i].origin == 0 || votes[i].origin == 1
    requires follower.cfg == Config(10, 3, 1) && follower.view == 0 && follower.lastSeen == FIRST
    ensures s.lastSeen.hash in s.certMap && CheckProposal(follower, Built(s, []).0, Built(s, []).1) == Rejected
  {
    var some: set<Replica> := {0, 1};
    assert Origins(votes) <= some;
    SubsetSize(Origins(votes), some);
  }

  lemma {:induction false} SubsetSize(a: set<Replica>, b: set<Replica>)
    requires a <= b
    ensures |a| <= |b|
  {
    if a != {} {
      var x :| x in a;
      SubsetSize(a - {x}, b - {x});
    }
  }
}
