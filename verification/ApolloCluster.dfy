/**
 A cluster of Apollo replicas that follow the code.  In each step one replica
 takes one turn of its reactor on messages that were sent to it; a replica that
 takes no further turns has stopped.  The network keeps every packet ever sent
 and hands out any selection of them, so it delays, drops, duplicates and reorders.
 */
module ApolloCluster {
  import opened Transactions
  import opened BatcherSpec
  import opened Blocks
  import opened Chains
  import opened ApolloCore
  import opened ApolloBuffers
  import opened ApolloAgreement

  type Cluster = seq<Node>

  datatype Setup = Setup(n: nat, f: nat, stores: seq<map<BatchHash, Batch>>)

  datatype Turn = Turn(who: Replica, event: Event)

  predicate SetupOk(u: Setup) {
    u.n > 0 && |u.stores| == u.n && forall i :: 0 <= i < u.n ==> StoreOk(u.stores[i])
  }

  function Start(u: Setup): (nodes: Cluster)
    requires SetupOk(u)
    ensures |nodes| == u.n && forall i :: 0 <= i < u.n ==> nodes[i] == Boot(Config(u.n, u.f, i), u.stores[i])
  {
    seq(u.n, i requires 0 <= i < u.n => Boot(Config(u.n, u.f, i), u.stores[i]))
  }

  /** Some replica has sent this message to replica `to`. */
  ghost predicate SentTo(nodes: Cluster, to: Replica, m: Msg) {
    exists j, k :: 0 <= j < |nodes| && 0 <= k < |nodes[j].net| &&
        (nodes[j].net[k] == ToAll(m) || nodes[j].net[k] == To(to, m))
  }

  ghost predicate Possible(nodes: Cluster, turn: Turn) {
    && turn.who < |nodes|
    && (turn.event.Received? ==> forall i :: 0 <= i < |turn.event.msgs| ==> SentTo(nodes, turn.who, turn.event.msgs[i]))
  }

  function Take(nodes: Cluster, turn: Turn): (after: Cluster)
    ensures |after| == |nodes|
  {
    if turn.who < |nodes| then nodes[turn.who := React(nodes[turn.who], turn.event)] else nodes
  }

  function RunCluster(nodes: Cluster, turns: seq<Turn>): (after: Cluster)
    ensures |after| == |nodes|
    decreases |turns|
  {
    if turns == [] then nodes else RunCluster(Take(nodes, turns[0]), turns[1..])
  }

  ghost predicate PossibleRun(nodes: Cluster, turns: seq<Turn>)
    decreases |turns|
  {
    turns == [] || (Possible(nodes, turns[0]) && PossibleRun(Take(nodes, turns[0]), turns[1..]))
  }

  // ---------------------------------------------------------------- the global invariant

  ghost predicate GlobalInv(u: Setup, nodes: Cluster, c: seq<Block>) {
    && u.n > 0 && |nodes| == u.n && HistoryOk(u.n, c)
    && (forall i :: 0 <= i < u.n ==> nodes[i].cfg == Config(u.n, u.f, i))
    && (forall i :: 0 <= i < u.n ==> Good(nodes[i], c) && Own(nodes[i], c))
  }

  lemma StartLog(n: nat)
    requires n > 0
    ensures LogInv(n, [NewRound(0, 1)], 1, [GENESIS])
  {
  }

  lemma StartGood(cfg: Config, store: map<BatchHash, Batch>)
    requires ConfigOk(cfg) && StoreOk(store)
    ensures Good(Boot(cfg, store), [GENESIS]) && Own(Boot(cfg, store), [GENESIS])
  {
    hide NodeInv, LogInv;
    BootInv(cfg, store);
    StartLog(cfg.n);
  }

  lemma StartInv(u: Setup)
    requires SetupOk(u)
    ensures GlobalInv(u, Start(u), [GENESIS])
  {
    hide Good, Own;
    forall i | 0 <= i < u.n ensures Good(Start(u)[i], [GENESIS]) && Own(Start(u)[i], [GENESIS]) {
      StartGood(Config(u.n, u.f, i), u.stores[i]);
    }
  }

  lemma SentHonest(u: Setup, nodes: Cluster, to: Replica, m: Msg, c: seq<Block>)
    requires GlobalInv(u, nodes, c) && SentTo(nodes, to, m)
    ensures HonestMsg(c, m)
  {
    hide NodeInv, HistoryOk, Own, HonestMsg, Progress, HonestStore, HonestBuffers;
    var j, k :| 0 <= j < |nodes| && 0 <= k < |nodes[j].net| &&
        (nodes[j].net[k] == ToAll(m) || nodes[j].net[k] == To(to, m));
    assert Good(nodes[j], c);
    assert HonestMsg(c, nodes[j].net[k].msg);
  }

  /** What one replica adds to the history leaves every other replica's facts in place. */
  lemma OthersStay(s: Node, c: seq<Block>, c': seq<Block>, who: Replica)
    requires Good(s, c) && Own(s, c) && c <= c' && s.cfg.me != who && HistoryOk(s.cfg.n, c')
    requires LedBy(s.cfg.n, |c|, |c'|, who)
    ensures Good(s, c') && Own(s, c')
  {
    hide NodeInv, Honest, HistoryOk, LeaderOf;
    HonestGrows(s, c, c');
  }

  lemma GoodHistory(s: Node, c: seq<Block>)
    requires Good(s, c)
    ensures HistoryOk(s.cfg.n, c)
  {
  }

  lemma {:induction false} TurnAgrees(u: Setup, nodes: Cluster, turn: Turn, c: seq<Block>) returns (c': seq<Block>)
    requires GlobalInv(u, nodes, c) && Possible(nodes, turn)
    ensures c <= c' && GlobalInv(u, Take(nodes, turn), c')
  {
    hide Good, Own, React, SentTo, HistoryOk, LedBy;
    var s := nodes[turn.who];
    if turn.event.Received? {
      forall i | 0 <= i < |turn.event.msgs| ensures HonestMsg(c, turn.event.msgs[i]) {
        SentHonest(u, nodes, turn.who, turn.event.msgs[i], c);
      }
    }
    c' := ReactGood(s, turn.event, c);
    GoodHistory(React(s, turn.event), c');
    forall i | 0 <= i < u.n ensures Good(Take(nodes, turn)[i], c') && Own(Take(nodes, turn)[i], c') {
      if i != turn.who {
        OthersStay(nodes[i], c, c', turn.who);
      }
    }
  }

  lemma {:induction false} RunAgrees(u: Setup, nodes: Cluster, turns: seq<Turn>, c: seq<Block>) returns (c': seq<Block>)
    requires GlobalInv(u, nodes, c) && PossibleRun(nodes, turns)
    ensures c <= c' && GlobalInv(u, RunCluster(nodes, turns), c')
    decreases |turns|
  {
    hide GlobalInv, Take, Possible;
    c' := c;
    if turns != [] {
      c' := TurnAgrees(u, nodes, turns[0], c);
      c' := RunAgrees(u, Take(nodes, turns[0]), turns[1..], c');
    }
  }

  lemma {:induction false} RunSplit(nodes: Cluster, turns: seq<Turn>, k: nat)
    requires k <= |turns| && PossibleRun(nodes, turns)
    ensures PossibleRun(nodes, turns[..k]) && PossibleRun(RunCluster(nodes, turns[..k]), turns[k..])
    ensures RunCluster(RunCluster(nodes, turns[..k]), turns[k..]) == RunCluster(nodes, turns)
    decreases k
  {
    hide Take, Possible;
    if k == 0 {
      assert turns[..0] == [] && turns[0..] == turns;
    } else {
      RunSplit(Take(nodes, turns[0]), turns[1..], k - 1);
      assert turns[..k][1..] == turns[1..][..k - 1] && turns[1..][k - 1..] == turns[k..];
    }
  }

  // ---------------------------------------------------------------- agreement

  /** Two replicas accepted the same proposal in every round both have passed. */
  ghost predicate SameProposals(s: Node, t: Node) {
    forall r :: 1 <= r < s.round && r < t.round ==> r in s.byRound && r in t.byRound && s.byRound[r] == t.byRound[r]
  }

  /** Each accepted proposal extends the one of the round before. */
  ghost predicate Extends(s: Node) {
    && (1 in s.byRound ==> Prev(s.byRound[1].hash) == EmptyHash)
    && (forall r :: r in s.byRound <==> 1 <= r < s.round)
    && forall q, r :: q in s.byRound && r in s.byRound && r == q + 1 ==> Prev(s.byRound[r].hash) == s.byRound[q].hash
  }

  predicate SameIfSameRound(a: Msg, b: Msg) {
    a.NewProposal? && b.NewProposal? && a.prop.round == b.prop.round ==> a.prop == b.prop && a.block == b.block
  }

  /** Whatever was ever proposed for one round is one and the same. */
  ghost predicate OneProposal(s: Node, t: Node) {
    forall i, j :: 0 <= i < |s.net| && 0 <= j < |t.net| ==> SameIfSameRound(s.net[i].msg, t.net[j].msg)
  }

  /** The committed chains, and the batches handed to the router, are prefixes of one another;
      a replica in round r has committed exactly the blocks up to round r - 1 - f. */
  ghost predicate SameCommits(s: Node, t: Node) {
    && Linked(s.emitted) && Linked(t.emitted)
    && |s.emitted| == CommitCount(s.round, s.cfg.f) && |t.emitted| == CommitCount(t.round, t.cfg.f)
    && (s.emitted <= t.emitted || t.emitted <= s.emitted)
    && (s.toRouter <= t.toRouter || t.toRouter <= s.toRouter)
  }

  ghost predicate Agree(s: Node, t: Node) {
    !s.halted && !t.halted && SameProposals(s, t) && Extends(s) && OneProposal(s, t) && SameCommits(s, t)
  }

  lemma AcceptedExtend(c: seq<Block>, byRound: map<nat, Propose>, next: nat)
    requires ChainOk(c) && Accepted(c, byRound, next) && forall r :: r in byRound <==> 1 <= r < next
    ensures 1 in byRound ==> Prev(byRound[1].hash) == EmptyHash
    ensures forall q, r :: q in byRound && r in byRound && r == q + 1 ==> Prev(byRound[r].hash) == byRound[q].hash
  {
    forall r | r in byRound ensures byRound[r].hash == c[r].hash && Prev(byRound[r].hash) == c[r - 1].hash {
      assert Finalized(c[r]);
    }
  }

  lemma ExtendsChain(s: Node, c: seq<Block>)
    requires Good(s, c)
    ensures Extends(s)
  {
    hide NodeInv, ChainOk, HonestStore, HonestBuffers, HonestNet, LogInv, Accepted;
    AcceptedRounds(s);
    AcceptedExtend(c, s.byRound, s.round);
  }

  lemma AcceptedRounds(s: Node)
    requires NodeInv(s)
    ensures forall r :: r in s.byRound <==> 1 <= r < s.round
  {
    hide IndexOk, BatchesOk, ParkedOk, FutureOk, EmissionInv;
  }

  lemma RouterGets(s: Node)
    requires NodeInv(s)
    ensures s.toRouter == PayloadsOf(s.emitted)
  {
  }

  lemma CommitsAgree(s: Node, t: Node, c: seq<Block>)
    requires NodeInv(s) && NodeInv(t) && Honest(s, c) && Honest(t, c) && ChainOk(c)
    ensures SameCommits(s, t)
  {
    hide NodeInv, ChainOk, HonestStore, HonestBuffers, HonestNet, LogInv, Linked;
    LinkedPrefix(c, s.emitted);
    LinkedPrefix(c, t.emitted);
    RouterGets(s);
    RouterGets(t);
    if |s.emitted| <= |t.emitted| {
      PayloadsPrefix(s.emitted, t.emitted);
    } else {
      PayloadsPrefix(t.emitted, s.emitted);
    }
  }

  lemma ProposalsAgree(s: Node, t: Node, c: seq<Block>)
    requires Honest(s, c) && Honest(t, c)
    ensures SameProposals(s, t) && OneProposal(s, t)
  {
    hide HonestStore, HonestBuffers, LogInv, HonestProp;
    forall i, j | 0 <= i < |s.net| && 0 <= j < |t.net| ensures SameIfSameRound(s.net[i].msg, t.net[j].msg) {
      assert HonestMsg(c, s.net[i].msg) && HonestMsg(c, t.net[j].msg);
      if s.net[i].msg.NewProposal? && t.net[j].msg.NewProposal? {
        PropOf(c, s.net[i].msg.prop);
        PropOf(c, t.net[j].msg.prop);
      }
    }
  }

  lemma PropOf(c: seq<Block>, p: Propose)
    requires HonestProp(c, p)
    ensures 1 <= p.round < |c| && p == ProposeOf(c[p.round], p.round)
  {
  }

  /** Agreement: any two replicas, each looked at at any moment of any run. */
  lemma {:induction false} ApolloAgrees(u: Setup, turns: seq<Turn>, k: nat, i: nat, j: nat)
    requires SetupOk(u) && PossibleRun(Start(u), turns) && k <= |turns| && i < u.n && j < u.n
    ensures Agree(RunCluster(Start(u), turns[..k])[i], RunCluster(Start(u), turns)[j])
  {
    hide Start, SameProposals, SameCommits, OneProposal, Extends, ChainOk, PossibleRun, RunCluster, SetupOk, NodeInv,
      Honest, Own;
    StartInv(u);
    RunSplit(Start(u), turns, k);
    var early := RunCluster(Start(u), turns[..k]);
    var c := RunAgrees(u, Start(u), turns[..k], [GENESIS]);
    var c' := RunAgrees(u, early, turns[k..], c);
    var s, t := early[i], RunCluster(Start(u), turns)[j];
    assert Good(s, c) && Good(t, c');
    ExtendsChain(s, c);
    HonestGrows(s, c, c');
    ProposalsAgree(s, t, c');
    CommitsAgree(s, t, c');
  }
}
