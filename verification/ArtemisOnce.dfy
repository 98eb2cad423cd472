/**
 Exactly once in Artemis.  Each site pairs a replica with its round-robin
 batcher; the two talk through queues that deliver with any delay.

 Only the view leader turns sealed batches into blocks and no notice ever rolls
 anything back, so the chain is what the view leader's batcher sealed, in that
 order.  This holds of every deployment, whichever leader the batchers start with.
 */
module ArtemisOnce {
  import opened Transactions
  import opened PoolSpec
  import opened PoolLaws
  import opened BatcherSpec
  import opened BatcherOnce
  import opened Blocks
  import opened Chains
  import opened ChainOnce
  import opened LeaderRotation
  import opened ArtemisCore
  import opened ArtemisDelivery
  import opened ArtemisSafety
  import opened ArtemisAgreement
  import opened ArtemisCluster

  // ---------------------------------------------------------------- the system

  /** `node.toBatcher` is the queue to the batcher, read up to `heard`; `sealed` is the queue back, read up to
      `taken`. */
  datatype Site = Site(node: Node, batcher: Batcher, heard: nat, sealed: seq<Batch>, taken: nat)

  type System = seq<Site>

  datatype Plan = Plan(setup: Setup, batchSize: nat, firstLeader: Replica)

  datatype Action =
    | Receive(who: Replica, msgs: seq<Msg>)
    | TakeBatch(who: Replica)
    | Rest(who: Replica)
    | Hear(who: Replica)
    | TimeOut(who: Replica)
    | Submit(who: Replica, tx: Tx)

  function NewSite(plan: Plan, i: nat): Site
    requires SetupOk(plan.setup) && i < plan.setup.n
  {
    Site(Start(plan.setup)[i], NewBatcher(i, plan.firstLeader, plan.batchSize), 0, [], 0)
  }

  function NewSystem(plan: Plan): (sys: System)
    requires SetupOk(plan.setup)
    ensures |sys| == plan.setup.n && forall i :: 0 <= i < |sys| ==> sys[i] == NewSite(plan, i)
  {
    seq(plan.setup.n, i requires 0 <= i < plan.setup.n => NewSite(plan, i))
  }

  function Nodes(sys: System): (nodes: Cluster)
    ensures |nodes| == |sys| && forall i :: 0 <= i < |sys| ==> nodes[i] == sys[i].node
  {
    seq(|sys|, i requires 0 <= i < |sys| => sys[i].node)
  }

  ghost function Feed(site: Site, input: Input): Site {
    var (b, sent) := Step(site.batcher, input);
    site.(batcher := b, sealed := site.sealed + sent)
  }

  /** The turn of the reactor that an action makes, if any. */
  function EventOf(site: Site, a: Action): Option<Event> {
    match a
    case Receive(_, ms) => Some(Received(ms))
    case TakeBatch(_) => if site.taken < |site.sealed| then Some(Sealed(site.sealed[site.taken])) else None
    case Rest(_) => Some(Idle)
    case _ => None
  }

  /** What an action hands to the batcher, if anything. */
  function InputOf(site: Site, a: Action): Option<Input> {
    match a
    case Hear(_) =>
      if site.heard < |site.node.toBatcher| then Some(FromConsensus(site.node.toBatcher[site.heard])) else None
    case TimeOut(_) => Some(Tick)
    case Submit(_, tx) => Some(ClientTx(tx, SerializedSize(tx)))
    case _ => None
  }

  ghost function Act(site: Site, a: Action): Site {
    var e, input := EventOf(site, a), InputOf(site, a);
    if e.Some? then
      site.(node := React(site.node, e.value), taken := if a.TakeBatch? then site.taken + 1 else site.taken)
    else if input.Some? then Feed(site, input.value).(heard := if a.Hear? then site.heard + 1 else site.heard)
    else site
  }

  ghost function Next(sys: System, a: Action): (after: System)
    ensures |after| == |sys|
  {
    if a.who < |sys| then sys[a.who := Act(sys[a.who], a)] else sys
  }

  /** Messages come from the network. */
  ghost predicate Routed(sys: System, a: Action) {
    a.who < |sys| && (a.Receive? ==> forall i :: 0 <= i < |a.msgs| ==> SentTo(Nodes(sys), a.who, a.msgs[i]))
  }

  ghost function RunSystem(sys: System, acts: seq<Action>): (after: System)
    ensures |after| == |sys|
    decreases |acts|
  {
    if acts == [] then sys else RunSystem(Next(sys, acts[0]), acts[1..])
  }

  ghost predicate RoutedRun(sys: System, acts: seq<Action>)
    decreases |acts|
  {
    acts == [] || (Routed(sys, acts[0]) && RoutedRun(Next(sys, acts[0]), acts[1..]))
  }

  // ---------------------------------------------------------------- the invariant

  /** The chain is what the view leader has taken from its batcher, in that order and all of it. */
  ghost predicate LeadOk(site: Site, c: seq<Block>) {
    && site.node.pending == [] && |c| == site.taken + 1
    && BatcherOnceOk(site.batcher, site.sealed) && FromSealed(c, site.sealed)
  }

  ghost predicate SystemInv(u: Setup, sys: System, c: seq<Block>, v: seq<Vote>) {
    GlobalInv(u, Nodes(sys), c, v) && VIEW_LEADER < |sys| && LeadOk(sys[VIEW_LEADER], c)
  }

  lemma NewSystemInv(plan: Plan)
    requires SetupOk(plan.setup)
    ensures SystemInv(plan.setup, NewSystem(plan), [GENESIS], [])
  {
    hide GlobalInv, PoolInv;
    StartInv(plan.setup);
    assert Nodes(NewSystem(plan)) == Start(plan.setup);
    EmptyPoolInv(plan.batchSize);
  }

  // ---------------------------------------------------------------- the batcher moves

  lemma NothingRolledBack(s: Node, j: nat)
    requires Running(s) && j < |s.toBatcher|
    ensures !s.toBatcher[j].RolledBack?
  {
    hide LedgerInv, BatchInv, PendingInv, VotesInv, CommittedBy, RotationAt, OrderInv;
  }

  lemma BatcherActs(site: Site, a: Action, c: seq<Block>)
    requires LeadOk(site, c) && Running(site.node) && EventOf(site, a).None?
    ensures LeadOk(Act(site, a), c)
  {
    hide Running, BatcherOnceOk, FromSealed, Step;
    var given := InputOf(site, a);
    if given.Some? {
      if a.Hear? {
        NothingRolledBack(site.node, site.heard);
      }
      FeedOnce(site.batcher, site.sealed, given.value);
      FromSealedGrows(c, site.sealed, Step(site.batcher, given.value).1);
    }
  }

  // ---------------------------------------------------------------- the replica moves

  /** The view leader's turn adds the block of the batch it took, and nothing else. */
  lemma LeaderActs(site: Site, a: Action, c: seq<Block>, c': seq<Block>)
    requires LeadOk(site, c) && EventOf(site, a).Some? && site.node.cfg.me == VIEW_LEADER
    requires var e := EventOf(site, a).value; MadeBlocks(site.node, Waiting(site.node, e), React(site.node, e), c, c')
    ensures LeadOk(Act(site, a), c')
  {
    hide BatcherOnceOk, React, PayloadAt;
    var e := EventOf(site, a).value;
    var q := Waiting(site.node, e);
    assert q == if e.Sealed? then [(BatchDigest(e.batch), e.batch)] else [];
    SamePayloads(c, c');
    if e.Sealed? {
      assert PayloadAt(c', |c| + 0) == q[0].1 == site.sealed[|c| - 1];
    }
  }

  lemma SamePayloads(c: seq<Block>, c': seq<Block>)
    requires c <= c'
    ensures forall r :: 0 <= r < |c| ==> PayloadAt(c', r) == PayloadAt(c, r)
  {
  }

  lemma TurnIsTake(sys: System, a: Action)
    requires a.who < |sys| && EventOf(sys[a.who], a).Some?
    ensures Nodes(Next(sys, a)) == Take(Nodes(sys), Turn(a.who, EventOf(sys[a.who], a).value))
  {
    hide React;
  }

  lemma {:induction false} NodeMoves(u: Setup, sys: System, a: Action, c: seq<Block>, v: seq<Vote>)
    returns (c': seq<Block>, v': seq<Vote>)
    requires SystemInv(u, sys, c, v) && Routed(sys, a) && EventOf(sys[a.who], a).Some?
    ensures c <= c' && v <= v' && SystemInv(u, Next(sys, a), c', v')
  {
    hide GlobalInv, LeadOk, Act, Appended, Waiting, React, SentTo;
    var nodes := Nodes(sys);
    var turn := Turn(a.who, EventOf(sys[a.who], a).value);
    c', v' := TurnAgrees(u, nodes, turn, c, v);
    TurnIsTake(sys, a);
    ItsConfig(u, nodes, a.who, c, v);
    if a.who == VIEW_LEADER {
      LeaderActs(sys[a.who], a, c, c');
    }
  }

  lemma ItsConfig(u: Setup, nodes: Cluster, i: nat, c: seq<Block>, v: seq<Vote>)
    requires GlobalInv(u, nodes, c, v) && i < |nodes|
    ensures nodes[i].cfg.me == i && |nodes| == u.n && Local(nodes[i], c, v) && ChainOk(c)
  {
    hide Local, ChainOk, VoteListOk;
  }

  // ---------------------------------------------------------------- the system moves

  lemma {:induction false} NextKeeps(u: Setup, sys: System, a: Action, c: seq<Block>, v: seq<Vote>)
    returns (c': seq<Block>, v': seq<Vote>)
    requires SystemInv(u, sys, c, v) && Routed(sys, a)
    ensures c <= c' && v <= v' && SystemInv(u, Next(sys, a), c', v')
  {
    hide GlobalInv, LeadOk, Honest, Own, NodeInv;
    c', v' := c, v;
    if EventOf(sys[a.who], a).Some? {
      c', v' := NodeMoves(u, sys, a, c, v);
    } else {
      assert Nodes(Next(sys, a)) == Nodes(sys);
      if a.who == VIEW_LEADER {
        ItsConfig(u, Nodes(sys), a.who, c, v);
        BatcherActs(sys[a.who], a, c);
      }
    }
  }

  lemma {:induction false} RunKeeps(u: Setup, sys: System, acts: seq<Action>, c: seq<Block>, v: seq<Vote>)
    returns (c': seq<Block>, v': seq<Vote>)
    requires SystemInv(u, sys, c, v) && RoutedRun(sys, acts)
    ensures c <= c' && v <= v' && SystemInv(u, RunSystem(sys, acts), c', v')
    decreases |acts|
  {
    hide SystemInv, Next, Routed;
    c', v' := c, v;
    if acts != [] {
      c', v' := NextKeeps(u, sys, acts[0], c, v);
      c', v' := RunKeeps(u, Next(sys, acts[0]), acts[1..], c', v');
    }
  }

  // ---------------------------------------------------------------- exactly once

  /** The batch a block's hash commits to. */
  function BatchIn(h: Hash): Batch {
    if h.Digest? && h.batch.BatchDigest? then h.batch.payload else []
  }

  /** A delivered block is on the chain, at its height. */
  lemma DeliveredOnChain(s: Node, h: Hash, c: seq<Block>, v: seq<Vote>)
    requires Local(s, c, v) && ChainOk(c) && h in s.ledger.st.byHash && h != EmptyHash
    ensures 1 <= HeightOf(h) < |c| && BatchIn(h) == PayloadAt(c, HeightOf(h)) && c[HeightOf(h)].hash == h
  {
    hide BatchInv, PendingInv, VotesInv, CommittedBy, RotationAt, EmissionInv, HonestMsg, Own, ParkingOk,
      VotesParkedOk, HeadOk, ChainOk;
    assert InChain(c)(s.ledger.st.byHash[h]);
    StoredPrev(s.ledger.st, h);
    ChainHash(c, s.ledger.st.byHash[h]);
    AboveGenesis(c, HeightOf(h));
  }

  lemma AboveGenesis(c: seq<Block>, r: nat)
    requires ChainOk(c) && r < |c| && c[r].hash != EmptyHash
    ensures r >= 1 && BatchIn(c[r].hash) == PayloadAt(c, r)
  {
    assert r >= 1 ==> Finalized(c[r]);
  }

  /** The block at height `r`, wherever it was delivered, carries the r-th batch that the view leader's
      batcher sealed, and that batcher never seals a key twice. */
  ghost predicate InSealedOrder(sys: System) {
    && VIEW_LEADER < |sys| && SealedOnce(sys[VIEW_LEADER].sealed)
    && (forall i, h :: 0 <= i < |sys| && h in sys[i].node.ledger.st.byHash && h != EmptyHash ==>
        1 <= HeightOf(h) <= |sys[VIEW_LEADER].sealed| && BatchIn(h) == sys[VIEW_LEADER].sealed[HeightOf(h) - 1])
    && (forall i :: 0 <= i < |sys| ==> sys[i].node.toRouter <= sys[VIEW_LEADER].sealed)
  }

  lemma LeadSealed(site: Site, c: seq<Block>)
    requires LeadOk(site, c)
    ensures SealedOnce(site.sealed) && FromSealed(c, site.sealed)
  {
  }

  lemma RouterFollows(s: Node, c: seq<Block>, v: seq<Vote>, sealed: seq<Batch>)
    requires Local(s, c, v) && ChainOk(c) && FromSealed(c, sealed)
    ensures s.toRouter <= sealed
  {
    hide NodeInv, Honest, Own, ChainOk, PayloadAt, PayloadsOf, ParentFirst, NoRepeats;
    EmittedIsPrefix(s, c, v);
    EmittedOrder(s);
    if s.emitted != [] {
      RouterIs(c, |s.emitted|);
      assert c[..|s.emitted|] == s.emitted;
    } else {
      NoPayloads(s.emitted);
    }
  }

  lemma NoPayloads(bs: seq<Block>)
    requires bs == []
    ensures PayloadsOf(bs) == []
  {
  }

  lemma SystemInOrder(u: Setup, sys: System, c: seq<Block>, v: seq<Vote>)
    requires SystemInv(u, sys, c, v)
    ensures InSealedOrder(sys)
  {
    hide GlobalInv, LeadOk, Local, ChainOk, SealedOnce, HeightOf, PayloadAt, BatchIn;
    var sealed := sys[VIEW_LEADER].sealed;
    LeadSealed(sys[VIEW_LEADER], c);
    forall i | 0 <= i < |sys| ensures sys[i].node.toRouter <= sealed {
      ItsConfig(u, Nodes(sys), i, c, v);
      RouterFollows(sys[i].node, c, v, sealed);
    }
    forall i, h | 0 <= i < |sys| && h in sys[i].node.ledger.st.byHash && h != EmptyHash
      ensures 1 <= HeightOf(h) <= |sealed| && BatchIn(h) == sealed[HeightOf(h) - 1] {
      ItsConfig(u, Nodes(sys), i, c, v);
      DeliveredOnChain(sys[i].node, h, c, v);
    }
  }

  /** Over every run of replicas and batchers, blocks and what reaches the routers follow the view leader's seals. */
  lemma {:induction false} ArtemisSealedOrder(plan: Plan, acts: seq<Action>)
    requires SetupOk(plan.setup) && RoutedRun(NewSystem(plan), acts)
    ensures InSealedOrder(RunSystem(NewSystem(plan), acts))
  {
    hide SetupOk, NewSystem, RoutedRun, RunSystem, SystemInv, InSealedOrder;
    NewSystemInv(plan);
    var c, v := RunKeeps(plan.setup, NewSystem(plan), acts, [GENESIS], []);
    SystemInOrder(plan.setup, RunSystem(NewSystem(plan), acts), c, v);
  }

  predicate Apart(a: Batch, b: Batch) {
    Keys(a) !! Keys(b) && NoDuplicates(a) && NoDuplicates(b)
  }

  /** Different blocks, delivered at whichever replicas, share no key, and no block repeats one. */
  ghost predicate DeliveredOnceIn(sys: System) {
    forall i, j, g, h :: 0 <= i < |sys| && 0 <= j < |sys| && g != h ==>
      (g in sys[i].node.ledger.st.byHash && h in sys[j].node.ledger.st.byHash ==> Apart(BatchIn(g), BatchIn(h)))
  }

  /** What a replica hands to the router contains no key twice. */
  ghost predicate RoutedOnceIn(sys: System) {
    forall i, a, b :: 0 <= i < |sys| && 0 <= a < b < |sys[i].node.toRouter| ==>
      Apart(sys[i].node.toRouter[a], sys[i].node.toRouter[b])
  }

  lemma TwoBlocks(s: Node, t: Node, g: Hash, h: Hash, c: seq<Block>, v: seq<Vote>)
    requires Local(s, c, v) && Local(t, c, v) && ChainOk(c) && HistoryOnce(c)
    requires g in s.ledger.st.byHash && h in t.ledger.st.byHash && g != h
    ensures Apart(BatchIn(g), BatchIn(h))
  {
    hide Local, ChainOk, HeightOf, PayloadAt, PastKeys, HistoryOnce;
    BlockOnce(s, g, c, v);
    BlockOnce(t, h, c, v);
    if g != EmptyHash && h != EmptyHash {
      DeliveredOnChain(s, g, c, v);
      DeliveredOnChain(t, h, c, v);
      RoundsDisjoint(c, HeightOf(g), HeightOf(h));
    }
  }

  lemma BlockOnce(s: Node, h: Hash, c: seq<Block>, v: seq<Vote>)
    requires Local(s, c, v) && ChainOk(c) && HistoryOnce(c) && h in s.ledger.st.byHash
    ensures NoDuplicates(BatchIn(h))
  {
    hide Local, ChainOk, HeightOf, PayloadAt, PastKeys;
    if h != EmptyHash {
      DeliveredOnChain(s, h, c, v);
      assert Unused(PayloadAt(c, HeightOf(h)), HeightOf(h), c);
    }
  }

  lemma TwoRouted(s: Node, a: nat, b: nat, c: seq<Block>, v: seq<Vote>)
    requires Local(s, c, v) && ChainOk(c) && HistoryOnce(c) && a < b < |s.toRouter|
    ensures Apart(s.toRouter[a], s.toRouter[b])
  {
    hide NodeInv, Honest, Own, ChainOk, HistoryOnce, PayloadsOf, ParentFirst, NoRepeats, NoDuplicates;
    EmittedIsPrefix(s, c, v);
    EmittedOrder(s);
    assert c[..|s.emitted|] == s.emitted;
    PrefixOnce(c, |s.emitted|, a, b);
  }

  lemma SystemOnce(u: Setup, sys: System, c: seq<Block>, v: seq<Vote>)
    requires SystemInv(u, sys, c, v)
    ensures DeliveredOnceIn(sys) && RoutedOnceIn(sys)
  {
    hide GlobalInv, LeadOk, Local, ChainOk, SealedOnce, HistoryOnce, BatchIn, Apart, FromSealed;
    LeadSealed(sys[VIEW_LEADER], c);
    SealedHistoryOnce(c, sys[VIEW_LEADER].sealed);
    forall i | 0 <= i < |sys| ensures Local(sys[i].node, c, v) && ChainOk(c) {
      ItsConfig(u, Nodes(sys), i, c, v);
    }
    forall i, j, g, h | 0 <= i < |sys| && 0 <= j < |sys| && g != h
      ensures g in sys[i].node.ledger.st.byHash && h in sys[j].node.ledger.st.byHash ==>
              Apart(BatchIn(g), BatchIn(h)) {
      if g in sys[i].node.ledger.st.byHash && h in sys[j].node.ledger.st.byHash {
        TwoBlocks(sys[i].node, sys[j].node, g, h, c, v);
      }
    }
    forall i, a, b | 0 <= i < |sys| && 0 <= a < b < |sys[i].node.toRouter|
      ensures Apart(sys[i].node.toRouter[a], sys[i].node.toRouter[b]) {
      TwoRouted(sys[i].node, a, b, c, v);
    }
  }

  /** Over every run of every deployment, no key is in two blocks or reaches a router twice. */
  lemma {:induction false} ArtemisExactlyOnce(plan: Plan, acts: seq<Action>)
    requires SetupOk(plan.setup) && RoutedRun(NewSystem(plan), acts)
    ensures DeliveredOnceIn(RunSystem(NewSystem(plan), acts)) && RoutedOnceIn(RunSystem(NewSystem(plan), acts))
  {
    hide SetupOk, NewSystem, RoutedRun, RunSystem, SystemInv, DeliveredOnceIn, RoutedOnceIn;
    NewSystemInv(plan);
    var c, v := RunKeeps(plan.setup, NewSystem(plan), acts, [GENESIS], []);
    SystemOnce(plan.setup, RunSystem(NewSystem(plan), acts), c, v);
  }
}
