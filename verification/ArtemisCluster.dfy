/**
 A cluster of Artemis replicas that follow the code.  In each step one replica
 takes one turn of its reactor on messages that were sent to it; a replica that
 takes no further turns has stopped.  The network keeps every packet ever sent
 and hands out any selection of them, so it delays, drops, duplicates and reorders.
 */
module ArtemisCluster {
  import opened Transactions
  import opened Blocks
  import opened Chains
  import opened LeaderRotation
  import opened ArtemisCore
  import opened ArtemisDelivery
  import opened ArtemisSafety
  import opened ArtemisAgreement

  type Cluster = seq<Node>

  datatype Setup = Setup(n: nat, f: nat, digest: nat -> nat, stores: seq<map<BatchHash, Batch>>)

  datatype Turn = Turn(who: Replica, event: Event)

  predicate SetupOk(u: Setup) {
    1 <= u.f < u.n && |u.stores| == u.n && forall i :: 0 <= i < u.n ==> StoreOk(u.stores[i])
  }

  function Start(u: Setup): (nodes: Cluster)
    requires SetupOk(u)
    ensures |nodes| == u.n && forall i :: 0 <= i < u.n ==> nodes[i] == Boot(Config(u.n, u.f, i, u.digest), u.stores[i])
  {
    seq(u.n, i requires 0 <= i < u.n => Boot(Config(u.n, u.f, i, u.digest), u.stores[i]))
  }

  /** Some replica has sent this message to replica `to`. */
  ghost predicate SentTo(nodes: Cluster, to: Replica, m: Msg) {
    exists j, k :: 0 <= j < |nodes| && 0 <= k < |nodes[j].net| &&
        (nodes[j].net[k] == ToAll(m) || nodes[j].net[k] == To(to, m))
  }

  ghost predicate Possible(nodes: Cluster, turn: Turn) {
    && turn.who < |nodes|
    && (turn.event.Received? ==> forall i :: 0 <= i < |turn.event.msgs| ==> SentTo(nodes, turn.who, turn.event.msgs[i]))
  }

  function Take(nodes: Cluster, turn: Turn): (after: Cluster)
    ensures |after| == |nodes|
  {
    if turn.who < |nodes| then nodes[turn.who := React(nodes[turn.who], turn.event)] else nodes
  }

  function RunCluster(nodes: Cluster, turns: seq<Turn>): (after: Cluster)
    ensures |after| == |nodes|
    decreases |turns|
  {
    if turns == [] then nodes else RunCluster(Take(nodes, turns[0]), turns[1..])
  }

  ghost predicate PossibleRun(nodes: Cluster, turns: seq<Turn>)
    decreases |turns|
  {
    turns == [] || (Possible(nodes, turns[0]) && PossibleRun(Take(nodes, turns[0]), turns[1..]))
  }

  // ---------------------------------------------------------------- the global invariant

  ghost predicate GlobalInv(u: Setup, nodes: Cluster, c: seq<Block>, v: seq<Vote>) {
    && SetupOk(u) && |nodes| == u.n
    && ChainOk(c) && VoteListOk(Config(u.n, u.f, 0, u.digest), c, v)
    && (forall i :: 0 <= i < u.n ==> nodes[i].cfg == Config(u.n, u.f, i, u.digest))
    && (forall i :: 0 <= i < u.n ==> Local(nodes[i], c, v))
  }

  /** The vote list does not depend on which replica reads it. */
  lemma SameVoteList(a: Config, b: Config, c: seq<Block>, v: seq<Vote>)
    requires VoteListOk(a, c, v) && b == a.(me := b.me) && b.me < a.n
    ensures VoteListOk(b, c, v)
  {
    hide LeaderAt, HonestHash;
  }

  lemma StartHonest(cfg: Config, store: map<BatchHash, Batch>)
    requires ConfigOk(cfg) && StoreOk(store)
    ensures Local(Boot(cfg, store), [GENESIS], [])
  {
    BootInv(cfg, store);
    hide NodeInv;
    assert InChain([GENESIS])(GENESIS);
  }

  lemma StartInv(u: Setup)
    requires SetupOk(u)
    ensures GlobalInv(u, Start(u), [GENESIS], [])
  {
    hide Boot, Local;
    forall i | 0 <= i < u.n
      ensures Local(Start(u)[i], [GENESIS], []) && Start(u)[i].cfg == Config(u.n, u.f, i, u.digest) {
      StartHonest(Config(u.n, u.f, i, u.digest), u.stores[i]);
    }
  }

  lemma SentHonest(u: Setup, nodes: Cluster, to: Replica, m: Msg, c: seq<Block>, v: seq<Vote>)
    requires GlobalInv(u, nodes, c, v) && SentTo(nodes, to, m)
    ensures HonestMsg(c, v, m)
  {
    hide NodeInv, ChainOk, VoteListOk, Own, AllBlocks, AllVotes, HonestMsg;
    var j, k :| 0 <= j < |nodes| && 0 <= k < |nodes[j].net| &&
        (nodes[j].net[k] == ToAll(m) || nodes[j].net[k] == To(to, m));
    assert Local(nodes[j], c, v);
    assert HonestMsg(c, v, nodes[j].net[k].msg);
  }

  /** What one replica adds to the histories leaves every other replica's facts in place. */
  lemma OthersStay(s: Node, c: seq<Block>, v: seq<Vote>, c': seq<Block>, v': seq<Vote>, who: Replica)
    requires Local(s, c, v) && c <= c' && v <= v' && s.cfg.me != who
    requires who != VIEW_LEADER ==> c' == c
    requires forall r :: |v| < r <= |v'| ==> LeaderAt(s.cfg.n, s.cfg.f, s.cfg.digest, r) == who
    ensures Local(s, c', v')
  {
    hide NodeInv, Honest, LeaderAt;
    HonestGrows(s, c, v, c', v');
  }

  lemma TurnAgrees(u: Setup, nodes: Cluster, turn: Turn, c: seq<Block>, v: seq<Vote>)
    returns (c': seq<Block>, v': seq<Vote>)
    requires GlobalInv(u, nodes, c, v) && Possible(nodes, turn)
    ensures c <= c' && v <= v' && GlobalInv(u, Take(nodes, turn), c', v')
    ensures MadeBlocks(nodes[turn.who], Waiting(nodes[turn.who], turn.event), React(nodes[turn.who], turn.event), c, c')
  {
    hide ChainOk, VoteListOk, Local, React, LeaderAt, SentTo, Appended, Waiting;
    var s := nodes[turn.who];
    if turn.event.Received? {
      forall i | 0 <= i < |turn.event.msgs| ensures HonestMsg(c, v, turn.event.msgs[i]) {
        SentHonest(u, nodes, turn.who, turn.event.msgs[i], c, v);
      }
    }
    SameVoteList(Config(u.n, u.f, 0, u.digest), s.cfg, c, v);
    c', v' := ReactAgrees(s, turn.event, c, v);
    SameVoteList(s.cfg, Config(u.n, u.f, 0, u.digest), c', v');
    forall i | 0 <= i < u.n ensures Local(Take(nodes, turn)[i], c', v') {
      if i != turn.who {
        OthersStay(nodes[i], c, v, c', v', turn.who);
      }
    }
  }

  lemma {:induction false} RunAgrees(u: Setup, nodes: Cluster, turns: seq<Turn>, c: seq<Block>, v: seq<Vote>)
    returns (c': seq<Block>, v': seq<Vote>)
    requires GlobalInv(u, nodes, c, v) && PossibleRun(nodes, turns)
    ensures c <= c' && v <= v' && GlobalInv(u, RunCluster(nodes, turns), c', v')
    decreases |turns|
  {
    hide GlobalInv, Take, Possible;
    c', v' := c, v;
    if turns != [] {
      c', v' := TurnAgrees(u, nodes, turns[0], c, v);
      c', v' := RunAgrees(u, Take(nodes, turns[0]), turns[1..], c', v');
    }
  }

  lemma {:induction false} RunSplit(nodes: Cluster, turns: seq<Turn>, k: nat)
    requires k <= |turns| && PossibleRun(nodes, turns)
    ensures PossibleRun(nodes, turns[..k]) && PossibleRun(RunCluster(nodes, turns[..k]), turns[k..])
    ensures RunCluster(RunCluster(nodes, turns[..k]), turns[k..]) == RunCluster(nodes, turns)
    decreases k
  {
    hide Take, Possible;
    if k == 0 {
      assert turns[..0] == [] && turns[0..] == turns;
    } else {
      RunSplit(Take(nodes, turns[0]), turns[1..], k - 1);
      assert turns[..k][1..] == turns[1..][..k - 1] && turns[1..][k - 1..] == turns[k..];
    }
  }

  // ---------------------------------------------------------------- agreement

  lemma EmittedInChain(s: Node, c: seq<Block>, v: seq<Vote>, i: nat)
    requires NodeInv(s) && Honest(s, c, v) && i < |s.emitted|
    ensures HonestBlock(c, s.emitted[i])
  {
    hide LedgerInv, BatchInv, PendingInv, VotesInv, CommittedBy, RotationAt, OrderInv, HonestMsg;
    assert InChain(c)(s.ledger.st.byHash[s.emitted[i].hash]);
  }

  lemma EmittedIsPrefix(s: Node, c: seq<Block>, v: seq<Vote>)
    requires NodeInv(s) && Honest(s, c, v) && ChainOk(c)
    ensures s.emitted <= c
  {
    hide NodeInv, Honest, ChainOk, HonestHash, ParentFirst, NoRepeats, HonestBlock;
    var hs := HashesOf(s.emitted);
    forall i | 0 <= i < |hs|
      ensures HonestHash(c, hs[i]) && HonestBlock(c, s.emitted[i]) && HeightOf(hs[i]) == s.emitted[i].header.height {
      EmittedInChain(s, c, v, i);
      ChainHash(c, s.emitted[i]);
    }
    EmittedOrder(s);
    forall i | 0 <= i < |hs| ensures i < |c| && s.emitted[i] == c[i] {
      EmittedAt(hs, c, i);
      AtItsHeight(c, s.emitted[i]);
    }
    assert |s.emitted| > 0 ==> |s.emitted| - 1 < |c|;
  }

  lemma AtItsHeight(c: seq<Block>, b: Block)
    requires HonestBlock(c, b)
    ensures b.header.height < |c| && c[b.header.height] == b
  {
  }

  lemma EmittedOrder(s: Node)
    requires NodeInv(s)
    ensures NoRepeats(HashesOf(s.emitted)) && ParentFirst({}, HashesOf(s.emitted)) &&
            s.toRouter == PayloadsOf(s.emitted)
  {
    hide LedgerInv, BatchInv, PendingInv, VotesInv, CommittedBy, RotationAt;
  }

  /** The same vote for every round both have passed; later rounds vote for strictly taller blocks. */
  ghost predicate SameVotes(s: Node, t: Node) {
    && (forall r :: 1 <= r < s.round && r < t.round ==> r in s.votes && r in t.votes && s.votes[r] == t.votes[r])
    && (forall q, r :: q in s.votes && r in t.votes && q < r ==> HeightOf(s.votes[q].hash) < HeightOf(t.votes[r].hash))
  }

  /** The committed chains, and the batches handed to the router, are prefixes of one another. */
  ghost predicate SameCommits(s: Node, t: Node) {
    && Linked(s.emitted) && Linked(t.emitted)
    && (s.emitted <= t.emitted || t.emitted <= s.emitted)
    && (s.toRouter <= t.toRouter || t.toRouter <= s.toRouter)
  }

  ghost predicate Agree(s: Node, t: Node) {
    !s.halted && !t.halted && SameVotes(s, t) && SameCommits(s, t)
  }

  lemma {:induction false} TallerLater(cfg: Config, c: seq<Block>, v: seq<Vote>, i: nat, j: nat)
    requires VoteListOk(cfg, c, v) && i < j < |v|
    ensures HeightOf(v[i].hash) < HeightOf(v[j].hash)
    decreases j
  {
    hide LeaderAt, HonestHash;
    assert Taller(v, j);
    if i < j - 1 {
      TallerLater(cfg, c, v, i, j - 1);
    }
  }

  lemma VotesAreHonest(s: Node, c: seq<Block>, v: seq<Vote>)
    requires Running(s) && Honest(s, c, v)
    ensures forall r :: r in s.votes <==> 1 <= r < s.round
    ensures forall r :: r in s.votes ==> r <= |v| && s.votes[r] == v[r - 1]
  {
    hide LedgerInv, BatchInv, PendingInv, CommittedBy, RotationAt, EmissionInv, AllBlocks, AllVotes, HonestMsg;
  }

  lemma HeightsGrow(cfg: Config, s: map<nat, Vote>, t: map<nat, Vote>, c: seq<Block>, v: seq<Vote>)
    requires VoteListOk(cfg, c, v)
    requires forall r :: r in s ==> 1 <= r <= |v| && s[r] == v[r - 1]
    requires forall r :: r in t ==> 1 <= r <= |v| && t[r] == v[r - 1]
    ensures forall q, r :: q in s && r in t && q < r ==> HeightOf(s[q].hash) < HeightOf(t[r].hash)
  {
    hide VoteListOk, HeightOf;
    forall q, r | q in s && r in t && q < r ensures HeightOf(s[q].hash) < HeightOf(t[r].hash) {
      TallerLater(cfg, c, v, q - 1, r - 1);
    }
  }

  lemma VotesAgree(cfg: Config, s: Node, t: Node, c: seq<Block>, v: seq<Vote>)
    requires Running(s) && Running(t) && Honest(s, c, v) && Honest(t, c, v) && VoteListOk(cfg, c, v)
    ensures SameVotes(s, t)
  {
    hide Honest, NodeInv, VoteListOk, HeightOf;
    VotesAreHonest(s, c, v);
    VotesAreHonest(t, c, v);
    HeightsGrow(cfg, s.votes, t.votes, c, v);
  }

  lemma CommitsAgree(s: Node, t: Node, c: seq<Block>, v: seq<Vote>)
    requires NodeInv(s) && NodeInv(t) && Honest(s, c, v) && Honest(t, c, v) && ChainOk(c)
    ensures SameCommits(s, t)
  {
    hide Honest, NodeInv, ChainOk, ParentFirst, NoRepeats, Linked;
    EmittedIsPrefix(s, c, v);
    EmittedIsPrefix(t, c, v);
    LinkedPrefix(c, s.emitted);
    LinkedPrefix(c, t.emitted);
    EmittedOrder(s);
    EmittedOrder(t);
    if |s.emitted| <= |t.emitted| {
      PayloadsPrefix(s.emitted, t.emitted);
    } else {
      PayloadsPrefix(t.emitted, s.emitted);
    }
  }

  /** Agreement: any two replicas, each looked at at any moment of any run. */
  lemma {:induction false} ArtemisAgrees(u: Setup, turns: seq<Turn>, k: nat, i: nat, j: nat)
    requires SetupOk(u) && PossibleRun(Start(u), turns) && k <= |turns| && i < u.n && j < u.n
    ensures Agree(RunCluster(Start(u), turns[..k])[i], RunCluster(Start(u), turns)[j])
  {
    hide Start, SameVotes, SameCommits, ChainOk, VoteListOk, PossibleRun, RunCluster, SetupOk;
    StartInv(u);
    RunSplit(Start(u), turns, k);
    var early := RunCluster(Start(u), turns[..k]);
    var c, v := RunAgrees(u, Start(u), turns[..k], [GENESIS], []);
    var c', v' := RunAgrees(u, early, turns[k..], c, v);
    var s, t := early[i], RunCluster(Start(u), turns)[j];
    assert Local(s, c, v) && Local(t, c', v');
    hide NodeInv, Honest, Own;
    HonestGrows(s, c, v, c', v');
    VotesAgree(Config(u.n, u.f, 0, u.digest), s, t, c', v');
    CommitsAgree(s, t, c', v');
  }
}
