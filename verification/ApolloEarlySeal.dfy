/**
 What early sealing leads to.  With at least two replicas, a batch size above 0
 and a first leader among the replicas, the first leader's batcher can seal a
 batch before it hears of its first round.  The replica then comes to hold a batch
 that missed its round, another replica proposes the same transaction meanwhile,
 and when the holder leads again it proposes the transaction a second time.
 */
module ApolloEarlySeal {
  import opened Transactions
  import opened BatcherSpec
  import opened Blocks
  import opened Chains
  import opened ApolloCore
  import opened ApolloBuffers
  import opened ApolloAgreement
  import opened ApolloCluster
  import opened ApolloOnce
  import opened ApolloTurns

  // ---------------------------------------------------------------- runs of a system

  lemma {:induction false} RunConcat(sys: System, a: seq<Action>, b: seq<Action>)
    requires RoutedRun(sys, a) && RoutedRun(RunSystem(sys, a), b)
    ensures RoutedRun(sys, a + b) && RunSystem(sys, a + b) == RunSystem(RunSystem(sys, a), b)
    decreases |a|
  {
    hide Next, Routed;
    if a == [] {
      assert a + b == b;
    } else {
      assert (a + b)[1..] == a[1..] + b;
      RunConcat(Next(sys, a[0]), a[1..], b);
    }
  }

  ghost predicate Reaches(sys: System, acts: seq<Action>, after: System) {
    RoutedRun(sys, acts) && RunSystem(sys, acts) == after
  }

  lemma {:induction false} ReachesTrans(sys: System, a: seq<Action>, mid: System, b: seq<Action>, after: System)
    requires Reaches(sys, a, mid) && Reaches(mid, b, after)
    ensures Reaches(sys, a + b, after)
  {
    hide RoutedRun, RunSystem;
    RunConcat(sys, a, b);
  }

  /** Every round's proposal was sent to all by its leader, except perhaps those of `k`. */
  ghost predicate AnnouncedBut(sys: System, n: nat, c: seq<Block>, k: nat) {
    && 0 < n == |sys|
    && forall r :: 1 <= r < |c| && LeaderOf(n, r) != k ==> ToAll(Announce(c, r)) in sys[LeaderOf(n, r)].node.net
  }

  lemma AnnouncedSent(sys: System, n: nat, c: seq<Block>, k: nat, r: nat)
    requires AnnouncedBut(sys, n, c, k) && 1 <= r < |c| && LeaderOf(n, r) != k
    ensures SentTo(Nodes(sys), k, Announce(c, r))
  {
    var j := LeaderOf(n, r);
    var net := sys[j].node.net;
    var i :| 0 <= i < |net| && net[i] == ToAll(Announce(c, r));
    assert Nodes(sys)[j].net[i] == ToAll(Announce(c, r));
  }

  lemma ActIsRouted(sys: System, n: nat, c: seq<Block>, k: nat, a: Action)
    requires AnnouncedBut(sys, n, c, k) && k < n && ActOf(a, n, k, c)
    ensures Routed(sys, a) && AnnouncedBut(Next(sys, a), n, c, k) && Next(sys, a) == sys[k := Act(sys[k], a)]
  {
    hide Act, SentTo, LeaderOf;
    if a.Deliver? {
      var r :| 1 <= r < |c| && LeaderOf(n, r) != k && a.msgs == [Announce(c, r)];
      AnnouncedSent(sys, n, c, k, r);
    }
    var after := Next(sys, a);
    forall r | 1 <= r < |c| && LeaderOf(n, r) != k ensures ToAll(Announce(c, r)) in after[LeaderOf(n, r)].node.net {
      assert after[LeaderOf(n, r)] == sys[LeaderOf(n, r)];
    }
  }

  /** What one site does on what others have sent is a run of the whole system. */
  lemma {:induction false} Lift(sys: System, n: nat, c: seq<Block>, k: nat, acts: seq<Action>)
    requires AnnouncedBut(sys, n, c, k) && k < n && ActsOf(acts, n, k, c)
    ensures RoutedRun(sys, acts) && RunSystem(sys, acts) == sys[k := RunSite(sys[k], acts)]
    decreases |acts|
  {
    hide Act, AnnouncedBut, Routed, ActOf;
    if acts == [] {
      SameSize(sys, n, c, k);
    } else {
      ActIsRouted(sys, n, c, k, acts[0]);
      SameSize(sys, n, c, k);
      Lift(Next(sys, acts[0]), n, c, k, acts[1..]);
    }
  }

  lemma {:induction false} LiftReaches(sys: System, n: nat, c: seq<Block>, k: nat, acts: seq<Action>)
    requires AnnouncedBut(sys, n, c, n) && k < n && ActsOf(acts, n, k, c)
    ensures |sys| == n && Reaches(sys, acts, sys[k := RunSite(sys[k], acts)])
  {
    hide RoutedRun, RunSystem, RunSite, ActsOf, AnnouncedBut;
    AnnouncedWeaker(sys, n, c, k);
    SameSize(sys, n, c, k);
    Lift(sys, n, c, k, acts);
  }

  lemma SameSize(sys: System, n: nat, c: seq<Block>, k: nat)
    requires AnnouncedBut(sys, n, c, k) && k < n
    ensures |sys| == n && sys[k := sys[k]] == sys
  {
  }

  // ---------------------------------------------------------------- systems at rest

  /** The nonces below this are known to site `k`. */
  function BoundOf(k: nat, holder: nat, bound: nat): nat {
    if k == holder then bound + 1 else bound
  }

  ghost predicate AllCalm(sys: System, c: seq<Block>, size: nat, bound: nat, holder: nat) {
    forall k :: 0 <= k < |sys| ==> Calm(sys[k], c, size, BoundOf(k, holder, bound))
  }

  /** Only the holder has a batch waiting. */
  ghost predicate Shape(plan: Plan, sys: System, holder: nat) {
    && (forall k :: 0 <= k < |sys| ==> sys[k].node.cfg == Config(plan.setup.n, plan.setup.f, k))
    && (forall k :: 0 <= k < |sys| && k != holder ==> sys[k].node.pending == [])
  }

  lemma ShapeMoves(plan: Plan, sys: System, holder: nat, k: nat, t: Site, holder': nat)
    requires Shape(plan, sys, holder) && k < |sys| && t.node.cfg == sys[k].node.cfg && t.node.pending == []
    requires holder' == holder || k == holder
    ensures Shape(plan, sys[k := t], holder') && t.node.cfg == Config(plan.setup.n, plan.setup.f, k)
  {
  }

  /** All sites are calm on the chain.  A holder, if there is one, has a batch waiting and may know one nonce more. */
  ghost predicate Rested(plan: Plan, sys: System, c: seq<Block>, bound: nat, holder: nat) {
    var n := plan.setup.n;
    && n > 0 && |sys| == n && c != [] && HistoryOk(n, c) && ChainBelow(c, bound) && bound > 0
    && Shape(plan, sys, holder) && AllCalm(sys, c, plan.batchSize, bound, holder) && AnnouncedBut(sys, n, c, n)
  }

  lemma CalmGrows(site: Site, c: seq<Block>, c': seq<Block>, size: nat, bound: nat, more: nat, who: Replica)
    requires Calm(site, c, size, bound) && c <= c' && bound <= more && site.node.cfg.me != who
    requires HistoryOk(site.node.cfg.n, c') && LedBy(site.node.cfg.n, |c|, |c'|, who)
    ensures Calm(site, c', size, more)
  {
    hide Good, Own, LedBy, HistoryOk, PlainLog;
    OthersStay(site.node, c, c', who);
    PlainGrows(site.node.toBatcher, bound, more);
  }

  /** One site has moved and extended the chain by one block. */
  lemma SiteMoves(plan: Plan, sys: System, c: seq<Block>, bound: nat, holder: nat, k: nat, t: Site, tx: Tx,
      holder': nat)
    requires Rested(plan, sys, c, bound, holder) && k < plan.setup.n && LeaderOf(plan.setup.n, |c|) == k
    requires holder' == holder || (k == holder && holder' == plan.setup.n)
    requires Led(sys[k], t, c, tx, plan.batchSize, bound + 1)
    ensures Rested(plan, sys[k := t], Extended(c, k, tx), bound + 1, holder')
  {
    hide Calm, ChainBelow, HistoryOk, LeaderOf, AnnouncedBut, LedBy, Extended, AllCalm, Shape, Led, Announce;
    var n, c' := plan.setup.n, Extended(c, k, tx);
    LedFacts(plan, sys, c, tx, bound, holder, k, t);
    ShapeMoves(plan, sys, holder, k, t, holder');
    AnnounceMore(sys, n, c, c', k, t);
    LedByOne(n, |c|, k);
    AllStayCalm(plan, sys, c, c', bound, holder, k, t, holder');
  }

  lemma LedFacts(plan: Plan, sys: System, c: seq<Block>, tx: Tx, bound: nat, holder: nat, k: nat, t: Site)
    requires k < |sys| && Shape(plan, sys, holder) && c != [] && Led(sys[k], t, c, tx, plan.batchSize, bound + 1)
    ensures var c' := Extended(c, k, tx);
            && Calm(t, c', plan.batchSize, bound + 1) && ChainBelow(c', bound + 1) && HistoryOk(plan.setup.n, c')
            && t.node.cfg == sys[k].node.cfg && t.node.pending == []
            && sys[k].node.net <= t.node.net && ToAll(Announce(c', |c|)) in t.node.net
  {
    hide Calm, ChainBelow, HistoryOk;
    CalmFacts(t, Extended(c, k, tx), plan.batchSize, bound + 1);
  }

  lemma AllStayCalm(plan: Plan, sys: System, c: seq<Block>, c': seq<Block>, bound: nat, holder: nat, k: nat, t: Site,
      holder': nat)
    requires k < |sys| == plan.setup.n && AllCalm(sys, c, plan.batchSize, bound, holder) && c <= c'
    requires Shape(plan, sys, holder)
    requires Calm(t, c', plan.batchSize, bound + 1) && HistoryOk(plan.setup.n, c') && LedBy(plan.setup.n, |c|, |c'|, k)
    requires holder' == holder || (k == holder && holder' == |sys|)
    ensures AllCalm(sys[k := t], c', plan.batchSize, bound + 1, holder')
  {
    hide Calm, HistoryOk, LedBy;
    CalmMore(t, c', plan.batchSize, bound + 1);
    var after := sys[k := t];
    forall j | 0 <= j < |sys| ensures Calm(after[j], c', plan.batchSize, BoundOf(j, holder', bound + 1)) {
      if j != k {
        CalmGrows(sys[j], c, c', plan.batchSize, BoundOf(j, holder, bound), BoundOf(j, holder', bound + 1), k);
      }
    }
  }

  lemma LedByOne(n: nat, r: nat, k: Replica)
    requires n > 0 && r >= 1 && LeaderOf(n, r) == k
    ensures LedBy(n, r, r + 1, k)
  {
    hide LeaderOf;
  }

  lemma CalmMore(site: Site, c: seq<Block>, size: nat, bound: nat)
    requires Calm(site, c, size, bound)
    ensures Calm(site, c, size, bound + 1)
  {
    hide Settled, PlainLog;
    PlainGrows(site.node.toBatcher, bound, bound + 1);
  }

  lemma AnnounceMore(sys: System, n: nat, c: seq<Block>, c': seq<Block>, k: nat, t: Site)
    requires AnnouncedBut(sys, n, c, n) && k < n && 1 <= |c| && LeaderOf(n, |c|) == k && c <= c' && |c'| == |c| + 1
    requires sys[k].node.net <= t.node.net && ToAll(Announce(c', |c|)) in t.node.net
    ensures AnnouncedBut(sys[k := t], n, c', n)
  {
    hide LeaderOf;
    forall r | 1 <= r < |c'| && LeaderOf(n, r) != n
      ensures ToAll(Announce(c', r)) in sys[k := t][LeaderOf(n, r)].node.net {
      if r < |c| {
        assert Announce(c', r) == Announce(c, r);
        assert ToAll(Announce(c, r)) in sys[LeaderOf(n, r)].node.net;
      }
    }
  }

  lemma AnnouncedWeaker(sys: System, n: nat, c: seq<Block>, k: nat)
    requires AnnouncedBut(sys, n, c, n)
    ensures AnnouncedBut(sys, n, c, k)
  {
    hide LeaderOf;
  }

  // ---------------------------------------------------------------- one more round

  lemma RestedSite(plan: Plan, sys: System, c: seq<Block>, bound: nat, holder: nat, k: nat)
    requires Rested(plan, sys, c, bound, holder) && k < plan.setup.n
    ensures |sys| == plan.setup.n > 0 && c != [] && HistoryOk(plan.setup.n, c) && ChainBelow(c, bound)
    ensures sys[k].node.cfg == Config(plan.setup.n, plan.setup.f, k) && (k != holder ==> sys[k].node.pending == [])
    ensures Calm(sys[k], c, plan.batchSize, BoundOf(k, holder, bound)) &&
            AnnouncedBut(sys, plan.setup.n, c, plan.setup.n)
  {
    hide Calm, ChainBelow, HistoryOk, AnnouncedBut;
  }

  /** The leader of the next round, if it is not the holder, proposes the next transaction. */
  lemma OneRound(plan: Plan, sys: System, c: seq<Block>, bound: nat, holder: nat, tx: Tx)
    returns (acts: seq<Action>, after: System)
    requires Rested(plan, sys, c, bound, holder) && plan.batchSize > 0 && NextTx(tx, plan.batchSize, bound)
    requires LeaderOf(plan.setup.n, |c|) != holder
    ensures var k := LeaderOf(plan.setup.n, |c|);
            && Reaches(sys, acts, after) && Rested(plan, after, Extended(c, k, tx), bound + 1, holder)
            && k < |sys| == |after| && after[k].node.round == |c| + 1 && after == sys[k := after[k]]
  {
    hide Calm, ChainBelow, HistoryOk, LeaderOf, AnnouncedBut, RunSite, ActsOf, Rested, Reaches;
    RestedSize(plan, sys, c, bound, holder);
    var n, k := plan.setup.n, LeaderOf(plan.setup.n, |c|);
    RestedSite(plan, sys, c, bound, holder, k);
    acts := TurnSite(sys[k], tx, c, plan.batchSize, bound);
    LiftReaches(sys, n, c, k, acts);
    var t := RunSite(sys[k], acts);
    after := sys[k := t];
    SiteMoves(plan, sys, c, bound, holder, k, t, tx, holder);
  }

  /** Other replicas lead one round after the other until the chain has a given length. */
  lemma {:induction false} Rounds(plan: Plan, sys: System, c: seq<Block>, bound: nat, holder: nat, target: nat)
    returns (acts: seq<Action>, after: System, c': seq<Block>, bound': nat)
    requires Rested(plan, sys, c, bound, holder) && plan.batchSize > 0 && |c| <= target
    requires forall r :: |c| <= r < target ==> r >= 1 && LeaderOf(plan.setup.n, r) != holder
    ensures Reaches(sys, acts, after) && Rested(plan, after, c', bound', holder)
    ensures c <= c' && |c'| == target && bound <= bound' && |after| == |sys|
    ensures holder < |sys| ==> after[holder] == sys[holder]
    ensures |c| == target ==> after == sys
    ensures |c| < target ==> exists k :: 0 <= k < |sys| && after[k].node.round == target
    decreases target - |c|
  {
    hide Rested, LeaderOf, Extended, Reaches;
    RestedSize(plan, sys, c, bound, holder);
    acts, after, c', bound' := [], sys, c, bound;
    NoRun(sys);
    if |c| < target {
      var tx := BigTx(bound, plan.batchSize);
      var k := LeaderOf(plan.setup.n, |c|);
      var first, mid := OneRound(plan, sys, c, bound, holder, tx);
      var rest: seq<Action>;
      rest, after, c', bound' := Rounds(plan, mid, Extended(c, k, tx), bound + 1, holder, target);
      ReachesTrans(sys, first, mid, rest, after);
      acts := first + rest;
      assert |c| + 1 == target ==> after[k].node.round == target;
    }
  }

  lemma NoRun(sys: System)
    ensures Reaches(sys, [], sys)
  {
  }

  lemma RestedSize(plan: Plan, sys: System, c: seq<Block>, bound: nat, holder: nat)
    requires Rested(plan, sys, c, bound, holder)
    ensures |sys| == plan.setup.n > 0 && c != [] && HistoryOk(plan.setup.n, c) && bound > 0
  {
  }

  // ---------------------------------------------------------------- the same transaction twice

  /** The holder has one batch waiting: the next transaction. */
  ghost predicate Holds(plan: Plan, sys: System, c: seq<Block>, bound: nat, holder: nat, tx: Tx) {
    && Rested(plan, sys, c, bound, holder) && holder < |sys| && plan.batchSize > 0 && NextTx(tx, plan.batchSize, bound)
    && sys[holder].node.pending == [(BatchDigest([tx]), [tx])] && sys[holder].node.round == |c|
  }

  /** Both blocks of the chain carry the transaction. */
  predicate Twice(c: seq<Block>, q: nat, r: nat, tx: Tx) {
    1 <= q < r < |c| && PayloadAt(c, q) == [tx] && PayloadAt(c, r) == [tx]
  }

  /** The holder comes to lead and proposes what it holds. */
  lemma HolderLeads(plan: Plan, sys: System, c: seq<Block>, bound: nat, holder: nat, tx: Tx)
    returns (acts: seq<Action>, after: System)
    requires Rested(plan, sys, c, bound, holder) && holder < |sys| && tx.nonce < bound
    requires sys[holder].node.pending == [(BatchDigest([tx]), [tx])] && 1 <= sys[holder].node.round < |c|
    requires LeaderOf(plan.setup.n, |c|) == holder
    requires forall r :: sys[holder].node.round < r < |c| ==> LeaderOf(plan.setup.n, r) != holder
    ensures Reaches(sys, acts, after) && Rested(plan, after, Extended(c, holder, tx), bound + 1, plan.setup.n)
    ensures |after| == |sys| && after[holder].node.round == |c| + 1
  {
    hide Calm, ChainBelow, HistoryOk, LeaderOf, AnnouncedBut, RunSite, ActsOf, Rested, Reaches;
    RestedSize(plan, sys, c, bound, holder);
    RestedSite(plan, sys, c, bound, holder, holder);
    BelowGrows(c, bound, bound + 1);
    acts := HolderSite(sys[holder], tx, c, plan.batchSize, bound + 1);
    LiftReaches(sys, plan.setup.n, c, holder, acts);
    var t := RunSite(sys[holder], acts);
    after := sys[holder := t];
    SiteMoves(plan, sys, c, bound, holder, holder, t, tx, plan.setup.n);
  }

  /** From a holder to a chain that carries its transaction twice. */
  lemma HolderRepeats(plan: Plan, sys: System, c: seq<Block>, bound: nat, holder: nat, tx: Tx, r: nat)
    returns (acts: seq<Action>, after: System, c': seq<Block>, bound': nat)
    requires Holds(plan, sys, c, bound, holder, tx) && 1 <= |c| < r && LeaderOf(plan.setup.n, r) == holder
    requires forall q :: |c| <= q < r ==> LeaderOf(plan.setup.n, q) != holder
    ensures Reaches(sys, acts, after) && Rested(plan, after, c', bound', plan.setup.n)
    ensures |c'| == r + 1 && Twice(c', |c|, r, tx) && |after| == |sys| && after[holder].node.round == r + 1
  {
    hide Rested, LeaderOf, Reaches, PayloadAt;
    RestedSize(plan, sys, c, bound, holder);
    var k := LeaderOf(plan.setup.n, |c|);
    var a1, sys1 := OneRound(plan, sys, c, bound, holder, tx);
    var c1 := Extended(c, k, tx);
    var a2, sys2, c2, bound2 := Rounds(plan, sys1, c1, bound + 1, holder, r);
    ReachesTrans(sys, a1, sys1, a2, sys2);
    var a3: seq<Action>;
    a3, after := HolderLeads(plan, sys2, c2, bound2, holder, tx);
    ReachesTrans(sys, a1 + a2, sys2, a3, after);
    acts, c', bound' := a1 + a2 + a3, Extended(c2, holder, tx), bound2 + 1;
    SamePayload(c1, c', |c|);
  }

  lemma SamePayload(c: seq<Block>, c': seq<Block>, r: nat)
    requires c <= c' && r < |c|
    ensures PayloadAt(c', r) == PayloadAt(c, r)
  {
  }

  // ---------------------------------------------------------------- the first leader comes to hold a batch

  /** The plans that allow early sealing to do harm. */
  predicate CanSealEarly(plan: Plan) {
    plan.setup.n >= 2 && plan.batchSize > 0 && plan.firstLeader < plan.setup.n
  }

  lemma BootSettled(cfg: Config, store: map<BatchHash, Batch>)
    requires ConfigOk(cfg) && StoreOk(store)
    ensures var s := Boot(cfg, store);
            Settled(s, [GENESIS]) && s.cfg == cfg && s.pending == [] && s.round == 1 &&
                s.toBatcher == [NewRound(0, 1)] && s.leader == 0
  {
    hide Good, Own;
    StartGood(cfg, store);
  }

  lemma NewSiteCalm(plan: Plan, k: nat)
    requires SetupOk(plan.setup) && k < plan.setup.n
    ensures var site := NewSite(plan, k);
            && Calm(site, [GENESIS], plan.batchSize, 1) && site.node.cfg == Config(plan.setup.n, plan.setup.f, k)
            && site.node.pending == [] && site.node.round == 1 && site.heard == 0 && site.node.leader == 0
            && site.sealed == [] && site.taken == 0 && site.node.toBatcher == [NewRound(0, 1)]
            && site.batcher.leader == plan.firstLeader && !site.batcher.proposed
  {
    hide Settled, Boot;
    BootSettled(Config(plan.setup.n, plan.setup.f, k), plan.setup.stores[k]);
  }

  lemma NewSystemRested(plan: Plan)
    requires SetupOk(plan.setup)
    ensures Rested(plan, NewSystem(plan), [GENESIS], 1, plan.setup.n)
  {
    GenesisHistory(plan.setup.n);
    hide Calm, NewSite, HistoryOk, SetupOk;
    forall k | 0 <= k < plan.setup.n
      ensures Calm(NewSystem(plan)[k], [GENESIS], plan.batchSize, 1)
              && NewSystem(plan)[k].node.cfg == Config(plan.setup.n, plan.setup.f, k) &&
                  NewSystem(plan)[k].node.pending == [] {
      NewSiteCalm(plan, k);
    }
  }

  lemma GenesisHistory(n: nat)
    requires n > 0
    ensures HistoryOk(n, [GENESIS])
  {
  }

  /** Another replica than 0 seals before its first round and takes the batch: it waits. */
  lemma {:induction false} LaterLeaderHolds(plan: Plan, tx: Tx) returns (acts: seq<Action>, after: System)
    requires SetupOk(plan.setup) && CanSealEarly(plan) && plan.firstLeader > 0 && NextTx(tx, plan.batchSize, 1)
    ensures Reaches(NewSystem(plan), acts, after) && Holds(plan, after, [GENESIS], 1, plan.firstLeader, tx)
  {
    hide Calm, ChainBelow, HistoryOk, RunSite, ActsOf, NewSite, AnnouncedBut, Rested, Reaches, Act, SetupOk, NextTx;
    var n, k, sys := plan.setup.n, plan.firstLeader, NewSystem(plan);
    NewSystemRested(plan);
    NewSiteCalm(plan, k);
    RestedSite(plan, sys, [GENESIS], 1, n, k);
    var t := HoldsAtOnce(sys[k], tx, plan.batchSize);
    acts := [Submit(k, tx), TakeBatch(k)];
    RunTwo(sys[k], acts[0], acts[1]);
    TwoActs(acts[0], acts[1], n, k, [GENESIS]);
    LiftReaches(sys, n, [GENESIS], k, acts);
    after := sys[k := t];
    HolderRests(plan, sys, [GENESIS], 1, k, t);
  }

  lemma {:induction false} HoldsAtOnce(site: Site, tx: Tx, size: nat) returns (t: Site)
    requires Calm(site, [GENESIS], size, 1) && site.batcher.leader == site.node.cfg.me && !site.batcher.proposed
    requires site.node.leader != site.node.cfg.me && site.node.pending == [] && size > 0 && NextTx(tx, size, 1)
    ensures t == Act(Act(site, Submit(site.node.cfg.me, tx)), TakeBatch(site.node.cfg.me))
    ensures Calm(t, [GENESIS], size, 2) && t.node.pending == [(BatchDigest([tx]), [tx])] && t.node.cfg == site.node.cfg
    ensures t.node.round == site.node.round && t.node.net == site.node.net
  {
    hide Settled, CalmBatcher, React, PlainLog, Step, NextTx;
    var k := site.node.cfg.me;
    SubmitSite(site, tx, size, 1);
    var s1 := Act(site, Submit(k, tx));
    t := Act(s1, TakeBatch(k));
    Waits(site.node, tx, [GENESIS]);
    PlainGrows(site.node.toBatcher, 1, 2);
  }

  /** One site has come to hold a batch; nothing else has changed. */
  lemma HolderRests(plan: Plan, sys: System, c: seq<Block>, bound: nat, k: nat, t: Site)
    requires Rested(plan, sys, c, bound, plan.setup.n) && k < plan.setup.n
    requires Calm(t, c, plan.batchSize, bound + 1) && t.node.cfg == sys[k].node.cfg && t.node.net == sys[k].node.net
    ensures Rested(plan, sys[k := t], c, bound, k)
  {
    hide Calm, ChainBelow, HistoryOk, LeaderOf;
    var after, n := sys[k := t], plan.setup.n;
    assert AllCalm(after, c, plan.batchSize, bound, k) by {
      forall j | 0 <= j < n ensures Calm(after[j], c, plan.batchSize, BoundOf(j, k, bound)) {
        assert j != k ==> Calm(sys[j], c, plan.batchSize, BoundOf(j, n, bound));
      }
    }
    forall r | 1 <= r < |c| && LeaderOf(n, r) != n ensures ToAll(Announce(c, r)) in after[LeaderOf(n, r)].node.net {
      assert ToAll(Announce(c, r)) in sys[LeaderOf(n, r)].node.net;
    }
  }

  /** Replica 0 seals before its first round and proposes that batch in round 1. */
  lemma FirstReplicaLeads(plan: Plan, site: Site, tx: Tx)
    requires SetupOk(plan.setup) && CanSealEarly(plan) && plan.firstLeader == 0
    requires site == NewSite(plan, 0) && NextTx(tx, plan.batchSize, 1)
    ensures var t := Act(Act(site, Submit(0, tx)), TakeBatch(0));
            && Led(site, t, [GENESIS], tx, plan.batchSize, 2)
            && t.heard == 0 && t.taken == |t.sealed|
  {
    hide Settled, CalmBatcher, React, PlainLog, Step, NewSite, Led, SetupOk, ChainBelow;
    NewSiteCalm(plan, 0);
    var t := Act(site, Submit(0, tx));
    SubmitSite(site, tx, plan.batchSize, 1);
    PlainGrows(site.node.toBatcher, 1, 2);
    GenesisBelow(2);
    ApolloTurns.TakeSite(t, tx, [GENESIS], plan.batchSize, 2);
    LedAfter(site, t, Act(t, TakeBatch(0)), [GENESIS], tx, plan.batchSize, 2);
  }

  lemma GenesisBelow(bound: nat)
    ensures ChainBelow([GENESIS], bound)
  {
  }

  lemma FirstNotice(s: Node, c: seq<Block>)
    requires Settled(s, c) && s.round >= 2
    ensures |s.toBatcher| > 0 && s.toBatcher[0] == NewRound(0, 1)
  {
    hide NodeInv, HonestStore, HonestBuffers, HonestNet, HistoryOk, Told;
  }

  /** In round 2 its batcher hears of round 1, so it seals once more; the batch comes too late and waits. */
  lemma HoldsLate(site: Site, c: seq<Block>, tx: Tx, size: nat)
    requires Calm(site, c, size, 2) && site.heard == 0 && site.node.round == 2 && size > 0 && site.node.pending == []
    requires site.node.cfg.me == 0 && site.node.leader != 0 && NextTx(tx, size, 2)
    ensures var t := Act(Act(Act(site, Hear(0)), Submit(0, tx)), TakeBatch(0));
            && Calm(t, c, size, 3) && t.node.pending == [(BatchDigest([tx]), [tx])] && t.node.cfg == site.node.cfg
            && t.node.round == site.node.round && t.node.net == site.node.net
  {
    hide Settled, CalmBatcher, React, Step, PlainMsg, NextTx;
    FirstNotice(site.node, c);
    HearsPlain(site.batcher, site.node.toBatcher[0], 0, size, 2);
    var t1 := Act(site, Hear(0));
    assert site.sealed + [] == site.sealed;
    SubmitSite(t1, tx, size, 2);
    hide PlainLog;
    Waits(site.node, tx, c);
    PlainGrows(site.node.toBatcher, 2, 3);
  }

  lemma ThreeActs(site: Site, a: Action, b: Action, d: Action, n: nat, k: Replica, c: seq<Block>)
    requires n > 0 && a.who == k && b.who == k && d.who == k && !a.Deliver? && !b.Deliver? && !d.Deliver?
    ensures RunSite(site, [a, b, d]) == Act(Act(Act(site, a), b), d) && ActsOf([a, b, d], n, k, c)
  {
    hide Act;
    assert [a, b, d][1..] == [b, d];
    RunTwo(Act(site, a), b, d);
  }

  /** Round 1 with an early batch of replica 0. */
  lemma {:induction false} FirstRound(plan: Plan, tx: Tx) returns (acts: seq<Action>, after: System)
    requires SetupOk(plan.setup) && CanSealEarly(plan) && plan.firstLeader == 0 && NextTx(tx, plan.batchSize, 1)
    ensures Reaches(NewSystem(plan), acts, after)
    ensures Rested(plan, after, Extended([GENESIS], 0, tx), 2, plan.setup.n)
    ensures |after| == plan.setup.n > 0 && after[0].heard == 0 && after[0].node.round == 2
  {
    hide Calm, ChainBelow, HistoryOk, RunSite, ActsOf, NewSite, AnnouncedBut, Rested, Reaches, Act, SetupOk, Led,
      LeaderOf, NextTx;
    var n, sys := plan.setup.n, NewSystem(plan);
    NewSystemRested(plan);
    RestedSite(plan, sys, [GENESIS], 1, n, 0);
    FirstReplicaLeads(plan, sys[0], tx);
    LeaderSmall(n, 1);
    var a, b := Submit(0, tx), TakeBatch(0);
    acts := [a, b];
    RunTwo(sys[0], a, b);
    TwoActs(a, b, n, 0, [GENESIS]);
    LiftReaches(sys, n, [GENESIS], 0, acts);
    var t := RunSite(sys[0], acts);
    after := sys[0 := t];
    LedRound(sys[0], t, [GENESIS], tx, plan.batchSize, 2);
    SiteMoves(plan, sys, [GENESIS], 1, n, 0, t, tx, n);
  }

  lemma BigIsNext(nonce: nat, size: nat)
    requires nonce > 0
    ensures NextTx(BigTx(nonce, size), size, nonce)
  {
  }

  /** A site that has come to hold a batch and has changed nothing else that others see. */
  ghost predicate CameToHold(site: Site, t: Site, c: seq<Block>, tx: Tx, size: nat, bound: nat) {
    && Calm(t, c, size, bound) && t.node.pending == [(BatchDigest([tx]), [tx])] && t.node.cfg == site.node.cfg
    && t.node.round == site.node.round && t.node.net == site.node.net
  }

  lemma HoldsLateRun(site: Site, c: seq<Block>, tx: Tx, size: nat) returns (acts: seq<Action>)
    requires Calm(site, c, size, 2) && site.heard == 0 && site.node.round == 2 && size > 0 && site.node.pending == []
    requires site.node.cfg.n > 0 && site.node.cfg.me == 0 && site.node.leader != 0 && NextTx(tx, size, 2)
    ensures ActsOf(acts, site.node.cfg.n, 0, c) && CameToHold(site, RunSite(site, acts), c, tx, size, 3)
  {
    hide Calm, RunSite, ActsOf, Act, NextTx;
    HoldsLate(site, c, tx, size);
    acts := [Hear(0), Submit(0, tx), TakeBatch(0)];
    ThreeActs(site, acts[0], acts[1], acts[2], site.node.cfg.n, 0, c);
  }

  /** A site of a system at rest that comes to hold the next transaction. */
  lemma HoldsNow(plan: Plan, sys: System, c: seq<Block>, tx: Tx, bound: nat, k: nat, t: Site)
    requires Rested(plan, sys, c, bound, plan.setup.n) && k < plan.setup.n == |sys| && plan.batchSize > 0
    requires CameToHold(sys[k], t, c, tx, plan.batchSize, bound + 1) && sys[k].node.round == |c|
    requires NextTx(tx, plan.batchSize, bound)
    ensures Holds(plan, sys[k := t], c, bound, k, tx)
  {
    hide Calm, Rested, NextTx;
    HolderRests(plan, sys, c, bound, k, t);
  }

  /** Round 2, in which replica 0 comes to hold a batch. */
  lemma LateHold(plan: Plan, sys: System, c: seq<Block>, tx: Tx) returns (acts: seq<Action>, after: System)
    requires Rested(plan, sys, c, 2, plan.setup.n) && CanSealEarly(plan) && NextTx(tx, plan.batchSize, 2) && |c| == 2
    requires |sys| == plan.setup.n && sys[0].heard == 0 && sys[0].node.round == 2
    ensures Reaches(sys, acts, after) && Holds(plan, after, c, 2, 0, tx)
  {
    hide Calm, ChainBelow, HistoryOk, RunSite, ActsOf, AnnouncedBut, Rested, Reaches, LeaderOf, NextTx, Holds,
      CameToHold;
    var n := plan.setup.n;
    RestedSite(plan, sys, c, 2, n, 0);
    CalmFacts(sys[0], c, plan.batchSize, 2);
    LeaderSmall(n, 2);
    acts := HoldsLateRun(sys[0], c, tx, plan.batchSize);
    LiftReaches(sys, n, c, 0, acts);
    var t := RunSite(sys[0], acts);
    after := sys[0 := t];
    HoldsNow(plan, sys, c, tx, 2, 0, t);
  }

  lemma FirstReplicaHolds(plan: Plan, tx: Tx) returns (acts: seq<Action>, after: System, c: seq<Block>)
    requires SetupOk(plan.setup) && CanSealEarly(plan) && plan.firstLeader == 0 && NextTx(tx, plan.batchSize, 2)
    ensures Reaches(NewSystem(plan), acts, after) && |c| == 2 && Holds(plan, after, c, 2, 0, tx)
  {
    hide NewSystem, Rested, Reaches, SetupOk, NextTx, Extended, Holds;
    var tx0 := BigTx(1, plan.batchSize);
    BigIsNext(1, plan.batchSize);
    var first, sys := FirstRound(plan, tx0);
    c := Extended([GENESIS], 0, tx0);
    var late: seq<Action>;
    late, after := LateHold(plan, sys, c, tx);
    ReachesTrans(NewSystem(plan), first, sys, late, after);
    acts := first + late;
  }

  lemma LedRound(site: Site, t: Site, c: seq<Block>, tx: Tx, size: nat, bound: nat)
    requires c != [] && Led(site, t, c, tx, size, bound)
    ensures t.node.round == |c| + 1
  {
    hide Calm, ChainBelow;
  }

  lemma LeaderSmall(n: nat, r: nat)
    requires 1 <= r <= n + 1 && n > 0
    ensures LeaderOf(n, r) == if r <= n then r - 1 else 0
  {
    if r <= n {
      RemainderIs(r - 1, n, 0, r - 1);
    } else {
      RemainderIs(r - 1, n, 1, 0);
    }
  }

  // ---------------------------------------------------------------- the two results

  /** Whenever a plan allows early sealing, some run puts one transaction into the proposals of two rounds, and a
      replica accepts both. */
  lemma EarlySealRepeats(plan: Plan)
    returns (acts: seq<Action>, after: System, c: seq<Block>, bound: nat, who: nat, q: nat, r: nat, tx: Tx)
    requires SetupOk(plan.setup) && CanSealEarly(plan)
    ensures Reaches(NewSystem(plan), acts, after) && Rested(plan, after, c, bound, plan.setup.n)
    ensures Twice(c, q, r, tx) && |c| == r + 1 && who < |after| == plan.setup.n && after[who].node.round == |c|
  {
    hide Rested, Reaches, SetupOk, LeaderOf, Twice;
    var n := plan.setup.n;
    var sys, c0, bound0, first, more;
    who := plan.firstLeader;
    if who == 0 {
      bound0, tx, q, r := 2, BigTx(2, plan.batchSize), 2, n + 1;
      first, sys, c0 := FirstReplicaHolds(plan, tx);
    } else {
      c0, bound0, tx, q, r := [GENESIS], 1, BigTx(1, plan.batchSize), 1, who + 1;
      first, sys := LaterLeaderHolds(plan, tx);
    }
    LeaderSmall(n, r);
    forall j | q <= j < r ensures LeaderOf(n, j) != who {
      LeaderSmall(n, j);
    }
    more, after, c, bound := HolderRepeats(plan, sys, c0, bound0, who, tx, r);
    RestedSize(plan, after, c, bound, n);
    ReachesTrans(NewSystem(plan), first, sys, more, after);
    acts := first + more;
  }

  /** The replica has accepted both proposals. */
  lemma AcceptedTwice(plan: Plan, sys: System, c: seq<Block>, bound: nat, who: nat, q: nat, r: nat, tx: Tx)
    requires Rested(plan, sys, c, bound, plan.setup.n) && Twice(c, q, r, tx)
    requires who < plan.setup.n && |sys| == plan.setup.n && sys[who].node.round == |c|
    ensures var s := sys[who].node;
            q in s.byRound && r in s.byRound && BatchOfRound(s, q) == [tx] && BatchOfRound(s, r) == [tx]
  {
    hide Calm, AnnouncedBut, Rested, HistoryOk, Good, BatchOfRound, PayloadAt, LeaderOf;
    RestedSite(plan, sys, c, bound, plan.setup.n, who);
    CalmFacts(sys[who], c, plan.batchSize, bound);
    var s := sys[who].node;
    RoundsAccepted(s, c);
    BatchOnChain(s, c, q);
    BatchOnChain(s, c, r);
  }

  lemma RoundsAccepted(s: Node, c: seq<Block>)
    requires Good(s, c)
    ensures forall r :: r in s.byRound <==> 1 <= r < s.round
  {
    hide NodeInv, Honest, HistoryOk;
    AcceptedRounds(s);
  }

  /** After `f` more rounds both are committed, and the router gets the transaction twice. */
  lemma {:induction false} RouterRepeats(plan: Plan) returns (acts: seq<Action>, after: System, who: nat, a: nat,
      b: nat, tx: Tx)
    requires SetupOk(plan.setup) && CanSealEarly(plan)
    ensures Reaches(NewSystem(plan), acts, after) && who < |after| == plan.setup.n
    ensures RoutedTwice(after[who].node.toRouter, a, b, tx)
  {
    hide Rested, Reaches, SetupOk, LeaderOf, RoutedTwice;
    var n, f := plan.setup.n, plan.setup.f;
    var first, sys, c0, bound0, _, q, r, same := EarlySealRepeats(plan);
    var more, c, bound;
    more, after, c, bound := Rounds(plan, sys, c0, bound0, n, r + f + 2);
    ReachesTrans(NewSystem(plan), first, sys, more, after);
    RestedSize(plan, after, c, bound, n);
    var k :| 0 <= k < |sys| && after[k].node.round == r + f + 2;
    acts, who, a, b, tx := first + more, k, q - 1, r - 1, same;
    SamePayload(c0, c, q);
    SamePayload(c0, c, r);
    CommittedTwice(plan, after, c, bound, who, q, r, tx);
  }

  /** The router got the transaction as its batches `a` and `b`. */
  predicate RoutedTwice(out: seq<Batch>, a: nat, b: nat, tx: Tx) {
    a < b < |out| && out[a] == [tx] && out[b] == [tx]
  }

  lemma CommittedTwice(plan: Plan, sys: System, c: seq<Block>, bound: nat, who: nat, q: nat, r: nat, tx: Tx)
    requires Rested(plan, sys, c, bound, plan.setup.n) && Twice(c, q, r, tx) && who < plan.setup.n &&
             |sys| == plan.setup.n
    requires sys[who].node.round >= r + plan.setup.f + 1
    ensures RoutedTwice(sys[who].node.toRouter, q - 1, r - 1, tx)
  {
    hide Calm, AnnouncedBut, Rested, HistoryOk, Good, PayloadAt, LeaderOf;
    RestedSite(plan, sys, c, bound, plan.setup.n, who);
    CalmFacts(sys[who], c, plan.batchSize, bound);
    RouterAt(sys[who].node, c, q);
    RouterAt(sys[who].node, c, r);
  }

  /** What the router got for a committed round. */
  lemma RouterAt(s: Node, c: seq<Block>, r: nat)
    requires Good(s, c) && 1 <= r && r + s.cfg.f + 1 <= s.round
    ensures r - 1 < |s.toRouter| && s.toRouter[r - 1] == PayloadAt(c, r)
  {
    hide NodeInv, HonestStore, HonestBuffers, HonestNet, LogInv, ChainOk, PayloadsOf, PayloadAt;
    RouterGets(s);
    RouterIs(c, |s.emitted|);
  }
}
