/**
 The exact condition for exactly-once in Apollo, on the plan alone: it holds of
 every run if and only if there is one replica, or the batch size is 0, or the
 batchers' first leader is no replica.
 */
module ApolloExact {
  import opened Transactions
  import opened PoolSpec
  import opened PoolLaws
  import opened BatcherSpec
  import opened BatcherOnce
  import opened Blocks
  import opened Chains
  import opened ChainOnce
  import opened ApolloCore
  import opened ApolloBuffers
  import opened ApolloAgreement
  import opened ApolloCluster
  import opened ApolloOnce
  import opened ApolloEarlySeal

  // ---------------------------------------------------------------- plans that never seal early

  lemma StepKeepsSize(b: Batcher, input: Input)
    ensures Step(b, input).0.pool.batchSize == b.pool.batchSize
  {
  }

  /** No batcher can seal before it has heard of its first round. */
  ghost predicate Inert(plan: Plan, sys: System) {
    forall i :: 0 <= i < |sys| ==> InertSite(plan, sys[i], i)
  }

  ghost predicate InertSite(plan: Plan, site: Site, i: nat) {
    && site.batcher.me == i && site.batcher.pool.batchSize == plan.batchSize
    && (site.heard == 0 ==> site.batcher.leader == plan.firstLeader)
  }

  lemma ActKeepsInert(plan: Plan, site: Site, i: nat, a: Action)
    requires InertSite(plan, site, i)
    ensures InertSite(plan, Act(site, a), i)
  {
    hide Step, React;
    if a.Hear? {
      if site.heard < |site.node.toBatcher| {
        StepEpoch(site.batcher, FromConsensus(site.node.toBatcher[site.heard]));
        StepKeepsSize(site.batcher, FromConsensus(site.node.toBatcher[site.heard]));
      }
    } else if a.TimeOut? || a.Submit? {
      StepEpoch(site.batcher, InputOf(a));
      StepKeepsSize(site.batcher, InputOf(a));
    }
  }

  lemma InertNeverEarly(plan: Plan, site: Site, i: nat, a: Action)
    requires InertSite(plan, site, i) && (plan.batchSize == 0 || plan.firstLeader > i)
    ensures !SealsEarly(site, a)
  {
  }

  lemma {:induction false} RoutedIsEnabled(plan: Plan, sys: System, acts: seq<Action>)
    requires Inert(plan, sys) && RoutedRun(sys, acts) && (plan.batchSize == 0 || plan.firstLeader >= |sys|)
    ensures EnabledRun(sys, acts)
    decreases |acts|
  {
    hide Act, Routed, SealsEarly, InertSite;
    if acts != [] {
      var a := acts[0];
      RoutedWho(sys, a);
      InertNeverEarly(plan, sys[a.who], a.who, a);
      ActKeepsInert(plan, sys[a.who], a.who, a);
      RoutedIsEnabled(plan, Next(sys, a), acts[1..]);
    }
  }

  lemma RoutedWho(sys: System, a: Action)
    requires Routed(sys, a)
    ensures a.who < |sys|
  {
  }

  lemma NewSystemInert(plan: Plan)
    requires SetupOk(plan.setup)
    ensures Inert(plan, NewSystem(plan))
  {
    hide Boot;
  }

  // ---------------------------------------------------------------- one replica

  /** The only replica is on the chain, and the chain is what its batcher has sent so far. */
  ghost predicate SoloOk(site: Site, c: seq<Block>) {
    && Good(site.node, c) && Own(site.node, c) && site.node.cfg.n == 1 && site.node.cfg.me == 0 &&
        site.node.pending == []
    && BatcherOnceOk(site.batcher, site.sealed) && FromSealed(c, site.sealed) && |c| == site.taken + 1
  }

  lemma SoloFeeds(site: Site, input: Input, c: seq<Block>)
    requires SoloOk(site, c) && NotRollback(input)
    ensures SoloOk(Feed(site, input), c)
  {
    hide Good, Own, BatcherOnceOk, FromSealed, Step;
    FeedOnce(site.batcher, site.sealed, input);
    FromSealedGrows(c, site.sealed, Step(site.batcher, input).1);
  }

  lemma SoloHears(site: Site, c: seq<Block>)
    requires SoloOk(site, c)
    ensures SoloOk(Act(site, Hear(0)), c)
  {
    hide Good, Own, BatcherOnceOk, FromSealed, Feed;
    if site.heard < |site.node.toBatcher| {
      NeverRolledBack(site.node, c, site.heard);
      SoloFeeds(site, FromConsensus(site.node.toBatcher[site.heard]), c);
    }
  }

  lemma NeverRolledBack(s: Node, c: seq<Block>, j: nat)
    requires Good(s, c) && j < |s.toBatcher|
    ensures !s.toBatcher[j].RolledBack?
  {
    hide NodeInv, HonestStore, HonestBuffers, HonestNet, HistoryOk, Told;
  }

  lemma SoloHonest(site: Site, c: seq<Block>, m: Msg)
    requires Good(site.node, c) && SentTo([site.node], 0, m)
    ensures HonestMsg(c, m)
  {
    hide NodeInv, HonestStore, HonestBuffers, Progress, HistoryOk, HonestMsg;
    var nodes := [site.node];
    var j, k :| 0 <= j < |nodes| && 0 <= k < |nodes[j].net| &&
        (nodes[j].net[k] == ToAll(m) || nodes[j].net[k] == To(0, m));
    assert HonestMsg(c, site.node.net[k].msg);
  }

  lemma SoloDelivers(site: Site, c: seq<Block>, ms: seq<Msg>)
    requires SoloOk(site, c) && forall i :: 0 <= i < |ms| ==> HonestMsg(c, ms[i])
    ensures SoloOk(Act(site, Deliver(0, ms)), c)
  {
    hide Own, BatcherOnceOk, FromSealed, React, NodeInv, Honest, HistoryOk, HonestMsg;
    DeliverNode(site.node, ms, c);
  }

  lemma {:induction false} SoloTakes(site: Site, c: seq<Block>) returns (c': seq<Block>)
    requires SoloOk(site, c)
    ensures c <= c' && SoloOk(Act(site, TakeBatch(0)), c')
  {
    hide Good, Own, BatcherOnceOk, React, LeaderOf;
    c' := c;
    if site.taken < |site.sealed| {
      SoloLeads(site.node, c);
      var b := TakeNode(site.node, site.sealed[site.taken], c);
      c' := c + [b];
      assert forall r :: 0 <= r < |c| ==> PayloadAt(c', r) == PayloadAt(c, r);
    }
  }

  lemma SoloLeads(s: Node, c: seq<Block>)
    requires Good(s, c) && s.cfg.n == 1 && s.cfg.me == 0
    ensures s.leader == 0
  {
    hide TablesOk, PendingInv, Honest, HistoryOk;
    assert s.leader < 1;
  }

  lemma {:induction false} SoloRun(site: Site, acts: seq<Action>, c: seq<Block>) returns (c': seq<Block>)
    requires SoloOk(site, c) && RoutedRun([site], acts)
    ensures c <= c' && |RunSystem([site], acts)| == 1 && SoloOk(RunSystem([site], acts)[0], c')
    decreases |acts|
  {
    hide SoloOk, Act, HonestMsg;
    c' := c;
    if acts != [] {
      var a := acts[0];
      assert a.who == 0;
      c' := SoloActs(site, a, c);
      assert Next([site], a) == [Act(site, a)];
      c' := SoloRun(Act(site, a), acts[1..], c');
    }
  }

  lemma SoloReceives(site: Site, c: seq<Block>, ms: seq<Msg>)
    requires SoloOk(site, c) && Routed([site], Deliver(0, ms))
    ensures SoloOk(Act(site, Deliver(0, ms)), c)
  {
    hide SoloOk, HonestMsg, Good, SentTo, Act;
    SoloGood(site, c);
    assert Nodes([site]) == [site.node];
    forall i | 0 <= i < |ms| ensures HonestMsg(c, ms[i]) {
      SoloHonest(site, c, ms[i]);
    }
    SoloDelivers(site, c, ms);
  }

  lemma {:induction false} SoloActs(site: Site, a: Action, c: seq<Block>) returns (c': seq<Block>)
    requires SoloOk(site, c) && Routed([site], a) && a.who == 0
    ensures c <= c' && SoloOk(Act(site, a), c')
  {
    hide SoloOk, React, Feed, Routed;
    c' := c;
    if a.Deliver? {
      SoloReceives(site, c, a.msgs);
    } else if a.TakeBatch? {
      c' := SoloTakes(site, c);
    } else if a.Hear? {
      SoloHears(site, c);
    } else {
      SoloFeeds(site, InputOf(a), c);
    }
  }

  lemma SoloGood(site: Site, c: seq<Block>)
    requires SoloOk(site, c)
    ensures Good(site.node, c)
  {
  }

  lemma SoloStart(plan: Plan)
    requires SetupOk(plan.setup) && plan.setup.n == 1
    ensures NewSystem(plan) == [NewSystem(plan)[0]] && SoloOk(NewSystem(plan)[0], [GENESIS])
  {
    EmptyPoolInv(plan.batchSize);
    hide PoolInv, Good, Own;
    StartGood(Config(1, plan.setup.f, 0), plan.setup.stores[0]);
  }

  // ---------------------------------------------------------------- the exact condition

  /** One replica, empty batches only, or a first leader that no batcher is. */
  predicate NeverEarly(plan: Plan) {
    plan.setup.n == 1 || plan.batchSize == 0 || plan.firstLeader >= plan.setup.n
  }

  /** No key is in two proposals that were accepted at different rounds, at whichever replicas. */
  ghost predicate AcceptedOnceIn(sys: System) {
    forall i, j, q, r ::
      0 <= i < |sys| && 0 <= j < |sys| && q in sys[i].node.byRound && r in sys[j].node.byRound && q != r ==>
        Keys(BatchOfRound(sys[i].node, q)) !! Keys(BatchOfRound(sys[j].node, r))
  }

  /** No key is in two batches that one replica has handed to the router. */
  ghost predicate RoutedOnceIn(sys: System) {
    forall i, a, b :: 0 <= i < |sys| && 0 <= a < b < |sys[i].node.toRouter| ==>
      Keys(sys[i].node.toRouter[a]) !! Keys(sys[i].node.toRouter[b])
  }

  ghost predicate AlwaysAcceptedOnce(plan: Plan)
    requires SetupOk(plan.setup)
  {
    forall acts :: RoutedRun(NewSystem(plan), acts) ==> AcceptedOnceIn(RunSystem(NewSystem(plan), acts))
  }

  ghost predicate AlwaysRoutedOnce(plan: Plan)
    requires SetupOk(plan.setup)
  {
    forall acts :: RoutedRun(NewSystem(plan), acts) ==> RoutedOnceIn(RunSystem(NewSystem(plan), acts))
  }

  /** All replicas are on one chain without a repeated key. */
  ghost predicate OnOneChain(sys: System, c: seq<Block>) {
    HistoryOnce(c) && forall i :: 0 <= i < |sys| ==> Good(sys[i].node, c)
  }

  lemma {:induction false} NeverEarlyRuns(plan: Plan, acts: seq<Action>) returns (c: seq<Block>)
    requires SetupOk(plan.setup) && NeverEarly(plan) && RoutedRun(NewSystem(plan), acts)
    ensures OnOneChain(RunSystem(NewSystem(plan), acts), c)
  {
    if plan.setup.n == 1 {
      c := SoloRuns(plan, acts);
    } else {
      hide NewSystem, RunSystem, RoutedRun, EnabledRun, SiteOk, Good, SetupOk, HistoryOnce, Inert, GlobalInv;
      var sys := NewSystem(plan);
      NewSystemInert(plan);
      NewSystemInv(plan);
      SystemSize(plan.setup, sys, [GENESIS]);
      RoutedIsEnabled(plan, sys, acts);
      c := RunKeeps(plan.setup, sys, acts, [GENESIS]);
      var after := RunSystem(sys, acts);
      forall i | 0 <= i < |after| ensures Good(after[i].node, c) {
        ActorFacts(plan.setup, after, i, c);
      }
    }
  }

  lemma SystemSize(u: Setup, sys: System, c: seq<Block>)
    requires SystemInv(u, sys, c)
    ensures |sys| == u.n
  {
    hide Good, Own, SiteOk, HistoryOnce, HistoryOk;
  }

  lemma {:induction false} SoloRuns(plan: Plan, acts: seq<Action>) returns (c: seq<Block>)
    requires SetupOk(plan.setup) && plan.setup.n == 1 && RoutedRun(NewSystem(plan), acts)
    ensures OnOneChain(RunSystem(NewSystem(plan), acts), c)
  {
    hide NewSystem, RunSystem, RoutedRun, SoloOk, SetupOk, Good, HistoryOnce;
    SoloStart(plan);
    c := SoloRun(NewSystem(plan)[0], acts, [GENESIS]);
    var site := RunSystem(NewSystem(plan), acts)[0];
    SoloGood(site, c);
    SoloOnce(site, c);
  }

  lemma SoloOnce(site: Site, c: seq<Block>)
    requires SoloOk(site, c)
    ensures HistoryOnce(c)
  {
    hide Good, Own, SealedOnce, FromSealed, HistoryOnce;
    SealedHistoryOnce(c, site.sealed);
  }

  lemma OneChainAccepts(sys: System, c: seq<Block>)
    requires OnOneChain(sys, c)
    ensures AcceptedOnceIn(sys) && RoutedOnceIn(sys)
  {
    hide Good, HistoryOnce, BatchOfRound, NoDuplicates, PayloadAt;
    forall i, j, q, r |
      0 <= i < |sys| && 0 <= j < |sys| && q in sys[i].node.byRound && r in sys[j].node.byRound && q != r
      ensures Keys(BatchOfRound(sys[i].node, q)) !! Keys(BatchOfRound(sys[j].node, r)) {
      BatchOnChain(sys[i].node, c, q);
      BatchOnChain(sys[j].node, c, r);
      RoundsDisjoint(c, q, r);
    }
    forall i, a, b | 0 <= i < |sys| && 0 <= a < b < |sys[i].node.toRouter|
      ensures Keys(sys[i].node.toRouter[a]) !! Keys(sys[i].node.toRouter[b]) {
      RouterOnce(sys[i].node, c, a, b);
    }
  }

  lemma SameKeyTwice(tx: Tx)
    ensures !(Keys([tx]) !! Keys([tx]))
  {
    assert [tx][0] == tx;
    assert KeyOf(tx) in Keys([tx]);
  }

  lemma EarlyBreaksAccepted(plan: Plan)
    requires SetupOk(plan.setup) && !NeverEarly(plan)
    ensures !AlwaysAcceptedOnce(plan)
  {
    hide NewSystem, RunSystem, RoutedRun, Rested, BatchOfRound, SetupOk;
    SomeReplicas(plan);
    var acts, after, c, bound, who, q, r, tx := EarlySealRepeats(plan);
    AcceptedTwice(plan, after, c, bound, who, q, r, tx);
    SameKeyTwice(tx);
    assert !AcceptedOnceIn(after);
  }

  lemma SomeReplicas(plan: Plan)
    requires SetupOk(plan.setup)
    ensures plan.setup.n > 0
  {
  }

  lemma EarlyBreaksRouted(plan: Plan)
    requires SetupOk(plan.setup) && !NeverEarly(plan)
    ensures !AlwaysRoutedOnce(plan)
  {
    hide NewSystem, RunSystem, RoutedRun, SetupOk;
    SomeReplicas(plan);
    var acts, after, who, a, b, tx := RouterRepeats(plan);
    SameKeyTwice(tx);
    assert !RoutedOnceIn(after);
  }

  /** Exactly-once over every run of a plan, if and only if no batcher of the plan can seal early to any effect. */
  lemma ExactlyOnceIff(plan: Plan)
    requires SetupOk(plan.setup)
    ensures AlwaysAcceptedOnce(plan) <==> NeverEarly(plan)
    ensures AlwaysRoutedOnce(plan) <==> NeverEarly(plan)
  {
    hide NewSystem, RunSystem, RoutedRun, AcceptedOnceIn, RoutedOnceIn, OnOneChain, SetupOk;
    if NeverEarly(plan) {
      forall acts | RoutedRun(NewSystem(plan), acts)
        ensures AcceptedOnceIn(RunSystem(NewSystem(plan), acts)) && RoutedOnceIn(RunSystem(NewSystem(plan), acts)) {
        var c := NeverEarlyRuns(plan, acts);
        OneChainAccepts(RunSystem(NewSystem(plan), acts), c);
      }
    } else {
      EarlyBreaksAccepted(plan);
      EarlyBreaksRouted(plan);
    }
  }
}
