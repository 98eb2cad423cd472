/**
 Exactly once across replicas.  Each site pairs an Apollo replica with its
 round-robin batcher.  The replica tells the batcher about rounds and proposals
 through a queue, the batcher hands sealed batches back through another one, and
 both queues deliver with any delay.
 */
module ApolloOnce {
  import opened Transactions
  import opened PoolSpec
  import opened PoolLaws
  import opened BatcherSpec
  import opened BatcherOnce
  import opened Blocks
  import opened Chains
  import opened ChainOnce
  import opened ApolloCore
  import opened ApolloBuffers
  import opened ApolloAgreement
  import opened ApolloCluster

  // ---------------------------------------------------------------- the system

  /** `node.toBatcher` is the queue to the batcher, read up to `heard`; `sealed` is the queue back, read up to
      `taken`. */
  datatype Site = Site(node: Node, batcher: Batcher, heard: nat, sealed: seq<Batch>, taken: nat)

  type System = seq<Site>

  datatype Plan = Plan(setup: Setup, batchSize: nat, firstLeader: Replica)

  datatype Action =
    | Deliver(who: Replica, msgs: seq<Msg>)
    | TakeBatch(who: Replica)
    | Hear(who: Replica)
    | TimeOut(who: Replica)
    | Submit(who: Replica, tx: Tx)

  function NewSite(plan: Plan, i: nat): Site
    requires SetupOk(plan.setup) && i < plan.setup.n
  {
    Site(Start(plan.setup)[i], NewBatcher(i, plan.firstLeader, plan.batchSize), 0, [], 0)
  }

  function NewSystem(plan: Plan): (sys: System)
    requires SetupOk(plan.setup)
    ensures |sys| == plan.setup.n && forall i :: 0 <= i < |sys| ==> sys[i] == NewSite(plan, i)
  {
    seq(plan.setup.n, i requires 0 <= i < plan.setup.n => NewSite(plan, i))
  }

  function Nodes(sys: System): (nodes: Cluster)
    ensures |nodes| == |sys| && forall i :: 0 <= i < |sys| ==> nodes[i] == sys[i].node
  {
    seq(|sys|, i requires 0 <= i < |sys| => sys[i].node)
  }

  ghost function Feed(site: Site, input: Input): Site {
    var (b, sent) := Step(site.batcher, input);
    site.(batcher := b, sealed := site.sealed + sent)
  }

  ghost function Act(site: Site, a: Action): Site {
    match a
    case Deliver(_, ms) => site.(node := React(site.node, Received(ms)))
    case TakeBatch(_) =>
      if site.taken < |site.sealed|
      then site.(node := React(site.node, Sealed(site.sealed[site.taken])), taken := site.taken + 1) else site
    case Hear(_) =>
      if site.heard < |site.node.toBatcher|
      then Feed(site, FromConsensus(site.node.toBatcher[site.heard])).(heard := site.heard + 1) else site
    case TimeOut(_) => Feed(site, Tick)
    case Submit(_, tx) => Feed(site, ClientTx(tx, SerializedSize(tx)))
  }

  ghost function Next(sys: System, a: Action): (after: System)
    ensures |after| == |sys|
  {
    if a.who < |sys| then sys[a.who := Act(sys[a.who], a)] else sys
  }

  /** Messages come from the network. */
  ghost predicate Routed(sys: System, a: Action) {
    a.who < |sys| && (a.Deliver? ==> forall i :: 0 <= i < |a.msgs| ==> SentTo(Nodes(sys), a.who, a.msgs[i]))
  }

  /** What an action hands to the batcher of its site, if it is not a notice of the replica. */
  function InputOf(a: Action): Input {
    if a.Submit? then ClientTx(a.tx, SerializedSize(a.tx)) else Tick
  }

  /** The action makes a batcher seal that has not heard of its first round yet. */
  ghost predicate SealsEarly(site: Site, a: Action) {
    (a.TimeOut? || a.Submit?) && site.heard == 0 && WouldSeal(site.batcher, InputOf(a))
  }

  ghost predicate Enabled(sys: System, a: Action) {
    Routed(sys, a) && !SealsEarly(sys[a.who], a)
  }

  ghost predicate RoutedRun(sys: System, acts: seq<Action>)
    decreases |acts|
  {
    acts == [] || (Routed(sys, acts[0]) && RoutedRun(Next(sys, acts[0]), acts[1..]))
  }

  ghost function RunSystem(sys: System, acts: seq<Action>): (after: System)
    ensures |after| == |sys|
    decreases |acts|
  {
    if acts == [] then sys else RunSystem(Next(sys, acts[0]), acts[1..])
  }

  ghost predicate EnabledRun(sys: System, acts: seq<Action>)
    decreases |acts|
  {
    acts == [] || (Enabled(sys, acts[0]) && EnabledRun(Next(sys, acts[0]), acts[1..]))
  }

  // ---------------------------------------------------------------- the invariant

  /** Keys of all batches the batcher was told about. */
  function ToldKeys(log: seq<BatcherMsg>): set<Key> {
    if log == [] then {}
    else ToldKeys(log[..|log| - 1]) + if log[|log| - 1].Proposed? then Keys(log[|log| - 1].batch) else {}
  }

  /** The last round the batcher was told about, 0 at first. */
  function LastRound(log: seq<BatcherMsg>): nat {
    if log == [] then 0
    else if log[|log| - 1].NewRound? then log[|log| - 1].round else LastRound(log[..|log| - 1])
  }

  /** What the batcher knows, having read the queue up to `heard`. */
  ghost predicate HearingOk(n: nat, log: seq<BatcherMsg>, heard: nat, b: Batcher, c: seq<Block>) {
    && n > 0 && PoolInv(b.pool) && heard <= |log|
    && b.round == LastRound(log[..heard])
    && (heard > 0 ==> b.round >= 1 && b.leader == LeaderOf(n, b.round))
    && AllHandled(b.pool, ToldKeys(log[..heard]))
    && PastKeys(c, b.round) <= ToldKeys(log[..heard])
  }

  /** At most one batch is on its way to the replica, it was sealed for the round the replica is in,
      and it repeats nothing; a batcher that may still seal in an epoch of its own is at the replica's round. */
  ghost predicate SealingOk(n: nat, round: nat, heard: nat, b: Batcher, sealed: seq<Batch>, taken: nat, c: seq<Block>) {
    && n > 0 && taken <= |sealed| <= taken + 1
    && (taken < |sealed| ==>
        heard > 0 && b.leader == b.me && b.proposed && b.round == round && Unused(sealed[taken], round, c))
    && (heard > 0 && b.leader == b.me && !b.proposed ==> b.round == round && taken == |sealed|)
    && (forall r :: 1 <= r < round && LeaderOf(n, r) == b.me ==> r <= b.round)
  }

  ghost predicate SiteOk(site: Site, c: seq<Block>) {
    && site.node.pending == [] && site.batcher.me == site.node.cfg.me
    && HearingOk(site.node.cfg.n, site.node.toBatcher, site.heard, site.batcher, c)
    && SealingOk(site.node.cfg.n, site.node.round, site.heard, site.batcher, site.sealed, site.taken, c)
  }

  ghost predicate SystemInv(u: Setup, sys: System, c: seq<Block>) {
    && GlobalInv(u, Nodes(sys), c)
    && (forall i :: 0 <= i < |sys| ==> SiteOk(sys[i], c))
    && HistoryOnce(c)
  }

  // ---------------------------------------------------------------- the history grows

  lemma SiteGrows(site: Site, c: seq<Block>, c': seq<Block>)
    requires SiteOk(site, c) && c <= c' && site.node.round <= |c| && site.batcher.round <= |c|
    ensures SiteOk(site, c')
  {
    hide AllHandled, PoolInv, NoDuplicates, ToldKeys, PastKeys, LastRound;
    PastKeysGrow(c, c', site.batcher.round);
    PastKeysGrow(c, c', site.node.round);
  }

  /** A batcher never knows of a round its replica has not entered. */
  lemma {:induction false} LastRoundBound(n: nat, log: seq<BatcherMsg>, round: nat, c: seq<Block>, k: nat)
    requires LogInv(n, log, round, c) && k <= |log|
    ensures LastRound(log[..k]) <= round
    ensures forall j :: k <= j < |log| && log[j].NewRound? ==> LastRound(log[..k]) < log[j].round
    decreases k
  {
    if k > 0 {
      assert log[..k][..k - 1] == log[..k - 1];
      LastRoundBound(n, log, round, c, k - 1);
    }
  }

  // ---------------------------------------------------------------- the replica moves

  /** Rounds this replica leads are only ever passed by proposing. */
  lemma OnlyOthersPass(s: Node, t: Node, c: seq<Block>)
    requires Own(s, c) && Moves(s, t, c) && s.round >= 1
    ensures forall r :: s.round <= r < t.round ==> LeaderOf(s.cfg.n, r) != s.cfg.me
  {
    hide NodeInv, HonestStore, HonestBuffers, HonestNet, LogInv, HistoryOk, LeaderOf;
  }

  lemma HearingFrame(n: nat, log: seq<BatcherMsg>, log': seq<BatcherMsg>, heard: nat, b: Batcher, c: seq<Block>)
    requires HearingOk(n, log, heard, b, c) && log <= log'
    ensures HearingOk(n, log', heard, b, c)
  {
    assert log'[..heard] == log[..heard];
  }

  lemma SealingWaits(n: nat, round: nat, round': nat, heard: nat, b: Batcher, sealed: seq<Batch>, taken: nat,
      c: seq<Block>)
    requires SealingOk(n, round, heard, b, sealed, taken, c) && 1 <= round <= round'
    requires heard > 0 ==> b.round >= 1 && b.leader == LeaderOf(n, b.round)
    requires forall r :: round <= r < round' ==> LeaderOf(n, r) != b.me
    ensures SealingOk(n, round', heard, b, sealed, taken, c)
  {
    hide LeaderOf, Unused;
  }

  lemma DeliverNode(s: Node, ms: seq<Msg>, c: seq<Block>)
    requires Good(s, c) && Own(s, c) && s.pending == [] && forall i :: 0 <= i < |ms| ==> HonestMsg(c, ms[i])
    ensures var t := React(s, Received(ms));
            Moves(s, t, c) && Own(t, c) && t.pending == [] && s.round >= 1
  {
    hide NodeInv, Honest, HistoryOk, Own, ProcessMessages;
    ProcessGood(s, ms, c);
    OwnLater(s, ProcessMessages(s, ms), c);
    RoundPositive(s, c);
  }

  lemma RoundPositive(s: Node, c: seq<Block>)
    requires Good(s, c)
    ensures 1 <= s.round <= |c| && s.cfg.n > 0 && s.leader == LeaderOf(s.cfg.n, s.round)
    ensures LogInv(s.cfg.n, s.toBatcher, s.round, c)
  {
    hide TablesOk, PendingInv, HonestStore, HonestBuffers, HonestNet, LogInv, HistoryOk;
  }

  lemma DeliverSite(site: Site, ms: seq<Msg>, c: seq<Block>)
    requires SiteOk(site, c) && Good(site.node, c) && Own(site.node, c)
    requires forall i :: 0 <= i < |ms| ==> HonestMsg(c, ms[i])
    ensures var node := React(site.node, Received(ms));
            SiteOk(site.(node := node), c) && Good(node, c) && Own(node, c) && node.cfg == site.node.cfg
  {
    hide Good, Own, React, HearingOk, SealingOk, LeaderOf;
    var s := site.node;
    var t := React(s, Received(ms));
    DeliverNode(s, ms, c);
    OnlyOthersPass(s, t, c);
    HearingFrame(s.cfg.n, s.toBatcher, t.toBatcher, site.heard, site.batcher, c);
    HearingLeader(s.cfg.n, s.toBatcher, site.heard, site.batcher, c);
    SealingWaits(s.cfg.n, s.round, t.round, site.heard, site.batcher, site.sealed, site.taken, c);
  }

  lemma HearingLeader(n: nat, log: seq<BatcherMsg>, heard: nat, b: Batcher, c: seq<Block>)
    requires HearingOk(n, log, heard, b, c)
    ensures n > 0 && (heard > 0 ==> b.round >= 1 && b.leader == LeaderOf(n, b.round))
  {
  }

  // ---------------------------------------------------------------- the replica proposes

  lemma {:induction false} TakeNode(s: Node, batch: Batch, c: seq<Block>) returns (b: Block)
    requires Good(s, c) && Own(s, c) && s.pending == [] && s.leader == s.cfg.me
    ensures b.batch == BatchDigest(batch) && s.round == |c| && |c| >= 1 && LeaderOf(s.cfg.n, |c|) == s.cfg.me
    ensures b == NewBlock(s.lastSeen, s.cfg.me, batch, UNSIGNED)
    ensures var t := React(s, Sealed(batch));
            && Good(t, c + [b]) && Own(t, c + [b]) && t.pending == [] && t.cfg == s.cfg
            && t.round == s.round + 1 && s.toBatcher <= t.toBatcher
  {
    hide NodeInv, Honest, HistoryOk, DoPropose, LeaderOf, Persist;
    var h := BatchDigest(batch);
    var t := s.(bs := Persist(s.bs, h, batch), pending := [(h, batch)]);
    PersistKeepsNode(s, batch);
    assert s.pending + [(h, batch)] == [(h, batch)];
    BatchesHonest(s, Persist(s.bs, h, batch), [(h, batch)], c);
    DoProposeGood(t, batch, c);
    b := NextBlock(t, batch);
    var done := DoPropose(t, batch);
    assert t.pending[1..] == [];
    assert ProposeAll(done, []) == done.(pending := []);
    assert ProposeAll(t, t.pending) == ProposeAll(done, []);
    assert React(s, Sealed(batch)) == ProposeAll(t, t.pending);
    ClearPending(done, c + [b]);
  }

  lemma ClearPending(s: Node, c: seq<Block>)
    requires Good(s, c)
    ensures Good(s.(pending := []), c)
  {
    hide NodeInv, Honest, HistoryOk;
    PendingKeeps(s, []);
    BatchesHonest(s, s.bs, [], c);
  }

  lemma SealingTaken(n: nat, round: nat, heard: nat, b: Batcher, sealed: seq<Batch>, taken: nat, c: seq<Block>,
      c': seq<Block>)
    requires SealingOk(n, round, heard, b, sealed, taken, c) && taken < |sealed|
    ensures SealingOk(n, round + 1, heard, b, sealed, taken + 1, c')
  {
    hide LeaderOf, Unused;
  }

  lemma {:induction false} TakeSite(site: Site, c: seq<Block>) returns (b: Block)
    requires SiteOk(site, c) && Good(site.node, c) && Own(site.node, c) && site.taken < |site.sealed| && HistoryOnce(c)
    ensures var node := React(site.node, Sealed(site.sealed[site.taken]));
            && SiteOk(site.(node := node, taken := site.taken + 1), c + [b])
            && Good(node, c + [b]) && Own(node, c + [b]) && node.cfg == site.node.cfg
    ensures HistoryOnce(c + [b]) && |c| >= 1 && LeaderOf(site.node.cfg.n, |c|) == site.node.cfg.me
  {
    hide Good, Own, React, HearingOk, LeaderOf, HistoryOnce, Unused;
    var s := site.node;
    var batch := site.sealed[site.taken];
    RoundPositive(s, c);
    HearingLeader(s.cfg.n, s.toBatcher, site.heard, site.batcher, c);
    b := TakeNode(s, batch, c);
    var t := React(s, Sealed(batch));
    HistoryOnceExtends(c, b, batch);
    HearingBound(s.cfg.n, s.toBatcher, s.round, site.heard, site.batcher, c);
    HearingGrows(s.cfg.n, s.toBatcher, site.heard, site.batcher, c, c + [b]);
    HearingFrame(s.cfg.n, s.toBatcher, t.toBatcher, site.heard, site.batcher, c + [b]);
    SealingTaken(s.cfg.n, s.round, site.heard, site.batcher, site.sealed, site.taken, c, c + [b]);
  }

  lemma HearingBound(n: nat, log: seq<BatcherMsg>, round: nat, heard: nat, b: Batcher, c: seq<Block>)
    requires HearingOk(n, log, heard, b, c) && LogInv(n, log, round, c)
    ensures b.round <= round
  {
    hide AllHandled, PoolInv, ToldKeys, PastKeys;
    LastRoundBound(n, log, round, c, heard);
  }

  lemma HearingGrows(n: nat, log: seq<BatcherMsg>, heard: nat, b: Batcher, c: seq<Block>, c': seq<Block>)
    requires HearingOk(n, log, heard, b, c) && c <= c' && b.round <= |c|
    ensures HearingOk(n, log, heard, b, c')
  {
    hide AllHandled, PoolInv, ToldKeys, PastKeys, LastRound;
    PastKeysGrow(c, c', b.round);
  }

  // ---------------------------------------------------------------- the batcher moves

  lemma ToldKeysSnoc(log: seq<BatcherMsg>, k: nat)
    requires k < |log|
    ensures ToldKeys(log[..k + 1]) == if log[k].Proposed? then ToldKeys(log[..k]) + Keys(log[k].batch)
            else ToldKeys(log[..k])
    ensures LastRound(log[..k + 1]) == if log[k].NewRound? then log[k].round else LastRound(log[..k])
  {
    assert log[..k + 1][..k] == log[..k];
  }

  lemma {:induction false} ProposedIsTold(log: seq<BatcherMsg>, m: BatcherMsg)
    requires m.Proposed? && m in log
    ensures Keys(m.batch) <= ToldKeys(log)
  {
    if log[|log| - 1] != m {
      ProposedIsTold(log[..|log| - 1], m);
    }
  }

  lemma {:induction false} PastIsTold(log: seq<BatcherMsg>, next: nat, c: seq<Block>)
    requires Told(log, next, c)
    ensures PastKeys(c, next) <= ToldKeys(log)
  {
    if next > 1 {
      PastIsTold(log, next - 1, c);
      ProposedIsTold(log, Proposed(PayloadAt(c, next - 1), next - 1));
    }
  }

  lemma UnusedBelow(batch: Batch, round: nat, c: seq<Block>, ks: set<Key>)
    requires NoDuplicates(batch) && Keys(batch) !! ks && PastKeys(c, round) <= ks
    ensures Unused(batch, round, c)
  {
  }

  /** A timer tick or a client transaction. */
  lemma LocalInput(n: nat, log: seq<BatcherMsg>, round: nat, heard: nat, b: Batcher, sealed: seq<Batch>, taken: nat,
      c: seq<Block>, input: Input)
    requires HearingOk(n, log, heard, b, c) && SealingOk(n, round, heard, b, sealed, taken, c) && !input.FromConsensus?
    requires heard == 0 ==> Step(b, input).1 == []
    ensures var (b', sent) := Step(b, input);
            HearingOk(n, log, heard, b', c) && SealingOk(n, round, heard, b', sealed + sent, taken, c) && b'.me == b.me
  {
    hide Step, PoolInv, AllHandled, ToldKeys, PastKeys, LastRound, LeaderOf, NoDuplicates, Unused;
    var (b', sent) := Step(b, input);
    var ks := ToldKeys(log[..heard]);
    StepIsNew(b, input, ks);
    StepDiscipline(b, input);
    StepEpoch(b, input);
    if sent != [] {
      UnusedBelow(sent[0], b.round, c, ks);
    }
  }

  /** The next notice of the queue announces no round. */
  lemma HearNotice(n: nat, log: seq<BatcherMsg>, round: nat, heard: nat, b: Batcher, sealed: seq<Batch>, taken: nat,
      c: seq<Block>)
    requires HearingOk(n, log, heard, b, c) && SealingOk(n, round, heard, b, sealed, taken, c)
    requires heard < |log| && LogInv(n, log, round, c) && !log[heard].NewRound?
    ensures var (b', sent) := Step(b, FromConsensus(log[heard]));
            sent == [] && HearingOk(n, log, heard + 1, b', c) &&
                SealingOk(n, round, heard + 1, b', sealed, taken, c) && b'.me == b.me
  {
    hide PoolInv, AllHandled, ToldKeys, PastKeys, LastRound, LeaderOf, NoDuplicates, Unused, Told, Admit, Commit,
      Rollback, Discipline;
    var input := FromConsensus(log[heard]);
    var ks := ToldKeys(log[..heard]);
    assert heard > 0;
    StepIsNew(b, input, ks);
    StepDiscipline(b, input);
    ToldKeysSnoc(log, heard);
    if log[heard].Proposed? {
      AdmitHandles(b.pool, log[heard].batch, log[heard].round);
      HandledUnion(Step(b, input).0.pool, ks, Keys(log[heard].batch));
    }
  }

  /** The next notice announces a round: nothing is under way, and an epoch of its own is the replica's round. */
  lemma HearRound(n: nat, log: seq<BatcherMsg>, round: nat, heard: nat, b: Batcher, sealed: seq<Batch>, taken: nat,
      c: seq<Block>)
    requires HearingOk(n, log, heard, b, c) && SealingOk(n, round, heard, b, sealed, taken, c)
    requires heard < |log| && LogInv(n, log, round, c) && log[heard].NewRound?
    ensures var (b', sent) := Step(b, FromConsensus(log[heard]));
            HearingOk(n, log, heard + 1, b', c) && SealingOk(n, round, heard + 1, b', sealed + sent, taken, c) &&
                b'.me == b.me
  {
    hide Step, PoolInv, AllHandled, ToldKeys, PastKeys, LastRound, LeaderOf, NoDuplicates, Unused, Told;
    var input := FromConsensus(log[heard]);
    var (b', sent) := Step(b, input);
    var r := log[heard].round;
    var ks := ToldKeys(log[..heard]);
    LastRoundBound(n, log, round, c, heard);
    assert b.round < r <= round && taken == |sealed|;
    assert log[heard].leader == b.me ==> r == round;
    PastIsTold(log[..heard], r, c);
    StepIsNew(b, input, ks);
    StepDiscipline(b, input);
    StepEpoch(b, input);
    ToldKeysSnoc(log, heard);
    if sent != [] {
      UnusedBelow(sent[0], r, c, ks);
    }
  }

  // ---------------------------------------------------------------- the system moves

  lemma HearSite(site: Site, c: seq<Block>)
    requires SiteOk(site, c) && Good(site.node, c) && site.heard < |site.node.toBatcher|
    ensures SiteOk(Act(site, Hear(0)), c) && Act(site, Hear(0)).node == site.node
  {
    hide Good, HearingOk, SealingOk, Step, LogInv;
    var s := site.node;
    RoundPositive(s, c);
    if s.toBatcher[site.heard].NewRound? {
      HearRound(s.cfg.n, s.toBatcher, s.round, site.heard, site.batcher, site.sealed, site.taken, c);
    } else {
      HearNotice(s.cfg.n, s.toBatcher, s.round, site.heard, site.batcher, site.sealed, site.taken, c);
      assert site.sealed + [] == site.sealed;
    }
  }

  lemma FeedSite(site: Site, input: Input, c: seq<Block>)
    requires SiteOk(site, c) && !input.FromConsensus?
    requires site.heard == 0 ==> !WouldSeal(site.batcher, input)
    ensures SiteOk(Feed(site, input), c) && Feed(site, input).node == site.node
  {
    hide HearingOk, SealingOk, Step, WouldSeal;
    var s := site.node;
    SealsIff(site.batcher, input);
    LocalInput(s.cfg.n, s.toBatcher, s.round, site.heard, site.batcher, site.sealed, site.taken, c, input);
  }

  /** Only the acting site changes; its own facts and its share of the history are given. */
  lemma OneMoves(u: Setup, sys: System, who: nat, site: Site, c: seq<Block>, c': seq<Block>)
    requires SystemInv(u, sys, c) && who < |sys| && c <= c' && HistoryOnce(c') && LedBy(u.n, |c|, |c'|, who)
    requires SiteOk(site, c') && Good(site.node, c') && Own(site.node, c') && site.node.cfg == sys[who].node.cfg
    ensures SystemInv(u, sys[who := site], c')
  {
    hide SiteOk, Good, Own, HistoryOnce, HistoryOk, LedBy;
    GoodHistory(site.node, c');
    forall i | 0 <= i < |sys| && i != who ensures SiteOk(sys[i], c') && Good(sys[i].node, c') && Own(sys[i].node, c') {
      assert Nodes(sys)[i] == sys[i].node;
      OthersStay(sys[i].node, c, c', who);
      SiteStays(sys[i], c, c');
    }
    assert Nodes(sys)[who] == sys[who].node;
    forall i | 0 <= i < |sys| ensures Nodes(sys[who := site])[i] == if i == who then site.node else Nodes(sys)[i] {
    }
  }

  lemma SiteStays(site: Site, c: seq<Block>, c': seq<Block>)
    requires SiteOk(site, c) && Good(site.node, c) && c <= c'
    ensures SiteOk(site, c')
  {
    hide Good, HearingOk, SealingOk, LogInv;
    RoundPositive(site.node, c);
    HearingBound(site.node.cfg.n, site.node.toBatcher, site.node.round, site.heard, site.batcher, c);
    SiteGrows(site, c, c');
  }

  lemma ActorFacts(u: Setup, sys: System, who: nat, c: seq<Block>)
    requires SystemInv(u, sys, c) && who < |sys|
    ensures SiteOk(sys[who], c) && Good(sys[who].node, c) && Own(sys[who].node, c) &&
            sys[who].node.cfg == Config(u.n, u.f, who)
  {
    hide SiteOk, Good, Own, HistoryOnce, HistoryOk;
    assert Nodes(sys)[who] == sys[who].node;
  }

  /** The replica of a site reacts to messages or takes a batch. */
  lemma {:induction false} NodeActs(site: Site, a: Action, c: seq<Block>) returns (c': seq<Block>)
    requires SiteOk(site, c) && Good(site.node, c) && Own(site.node, c) && HistoryOnce(c) &&
             (a.Deliver? || a.TakeBatch?)
    requires a.Deliver? ==> forall i :: 0 <= i < |a.msgs| ==> HonestMsg(c, a.msgs[i])
    ensures c <= c' && HistoryOnce(c') && LedBy(site.node.cfg.n, |c|, |c'|, site.node.cfg.me)
    ensures var t := Act(site, a); SiteOk(t, c') && Good(t.node, c') && Own(t.node, c') && t.node.cfg == site.node.cfg
  {
    hide SiteOk, Good, Own, React, HistoryOnce, LeaderOf, HonestMsg;
    c' := c;
    if a.Deliver? {
      DeliverSite(site, a.msgs, c);
    } else if site.taken < |site.sealed| {
      RoundPositive(site.node, c);
      var b := TakeSite(site, c);
      c' := c + [b];
    }
  }

  /** The batcher of a site hears of something, times out or gets a transaction. */
  lemma BatcherActs(site: Site, a: Action, c: seq<Block>)
    requires SiteOk(site, c) && Good(site.node, c) && (a.Hear? || a.TimeOut? || a.Submit?)
    requires !SealsEarly(site, a)
    ensures SiteOk(Act(site, a), c) && Act(site, a).node == site.node
  {
    hide SiteOk, Good, Feed, WouldSeal;
    match a
    case Hear(_) =>
      if site.heard < |site.node.toBatcher| { HearSite(site, c); }
    case TimeOut(_) => FeedSite(site, Tick, c);
    case Submit(_, tx) => FeedSite(site, ClientTx(tx, SerializedSize(tx)), c);
    case _ =>
  }

  lemma {:induction false} NextKeeps(u: Setup, sys: System, a: Action, c: seq<Block>) returns (c': seq<Block>)
    requires SystemInv(u, sys, c) && Enabled(sys, a)
    ensures c <= c' && SystemInv(u, Next(sys, a), c')
  {
    hide SiteOk, Good, Own, Act, HistoryOk, SentTo, HistoryOnce, HonestMsg, GlobalInv, WouldSeal;
    var site := sys[a.who];
    ActorFacts(u, sys, a.who, c);
    c' := c;
    if a.Deliver? || a.TakeBatch? {
      if a.Deliver? {
        forall i | 0 <= i < |a.msgs| ensures HonestMsg(c, a.msgs[i]) {
          SentHonest(u, Nodes(sys), a.who, a.msgs[i], c);
        }
      }
      c' := NodeActs(site, a, c);
    } else {
      BatcherActs(site, a, c);
    }
    OneMoves(u, sys, a.who, Act(site, a), c, c');
  }

  lemma {:induction false} RunKeeps(u: Setup, sys: System, acts: seq<Action>, c: seq<Block>) returns (c': seq<Block>)
    requires SystemInv(u, sys, c) && EnabledRun(sys, acts)
    ensures c <= c' && SystemInv(u, RunSystem(sys, acts), c')
    decreases |acts|
  {
    hide SystemInv, Next, Enabled;
    c' := c;
    if acts != [] {
      c' := NextKeeps(u, sys, acts[0], c);
      c' := RunKeeps(u, Next(sys, acts[0]), acts[1..], c');
    }
  }

  lemma NewSiteOk(plan: Plan, i: nat)
    requires SetupOk(plan.setup) && i < plan.setup.n
    ensures SiteOk(NewSite(plan, i), [GENESIS])
  {
    EmptyPoolInv(plan.batchSize);
    hide PoolInv;
    var site := NewSite(plan, i);
    assert site.node.toBatcher[..0] == [];
  }

  lemma NewSystemInv(plan: Plan)
    requires SetupOk(plan.setup)
    ensures SystemInv(plan.setup, NewSystem(plan), [GENESIS])
  {
    hide SiteOk, GlobalInv;
    StartInv(plan.setup);
    assert Nodes(NewSystem(plan)) == Start(plan.setup);
    forall i | 0 <= i < plan.setup.n ensures SiteOk(NewSystem(plan)[i], [GENESIS]) {
      NewSiteOk(plan, i);
    }
  }

  // ---------------------------------------------------------------- exactly once

  /** The batch named by an accepted proposal. */
  function BatchOfRound(s: Node, r: nat): Batch {
    if r in s.byRound && s.byRound[r].hash.Digest? && s.byRound[r].hash.batch.BatchDigest?
    then s.byRound[r].hash.batch.payload else []
  }

  lemma BatchOnChain(s: Node, c: seq<Block>, r: nat)
    requires Good(s, c) && r in s.byRound
    ensures 1 <= r < |c| && BatchOfRound(s, r) == PayloadAt(c, r)
  {
    hide TablesOk, HonestStore, HonestBuffers, HonestNet, LogInv;
    AcceptedRounds(s);
    assert Finalized(c[r]);
  }

  /** No transaction key appears in two proposals accepted at different rounds, at whichever replicas. */
  lemma {:induction false} ApolloExactlyOnce(plan: Plan, acts: seq<Action>, i: nat, j: nat, q: nat, r: nat)
    requires SetupOk(plan.setup) && EnabledRun(NewSystem(plan), acts)
    requires i < plan.setup.n && j < plan.setup.n && q != r
    requires var sys := RunSystem(NewSystem(plan), acts); q in sys[i].node.byRound && r in sys[j].node.byRound
    ensures var sys := RunSystem(NewSystem(plan), acts);
            && Keys(BatchOfRound(sys[i].node, q)) !! Keys(BatchOfRound(sys[j].node, r))
            && NoDuplicates(BatchOfRound(sys[i].node, q))
  {
    hide NewSystem, RunSystem, EnabledRun, Good, HistoryOk, SiteOk, BatchOfRound, NoDuplicates, SetupOk, PastKeys;
    NewSystemInv(plan);
    var c := RunKeeps(plan.setup, NewSystem(plan), acts, [GENESIS]);
    var sys := RunSystem(NewSystem(plan), acts);
    ActorFacts(plan.setup, sys, i, c);
    ActorFacts(plan.setup, sys, j, c);
    BatchOnChain(sys[i].node, c, q);
    BatchOnChain(sys[j].node, c, r);
    RoundsDisjoint(c, q, r);
    assert Unused(PayloadAt(c, q), q, c);
  }

  lemma RouterOnce(s: Node, c: seq<Block>, a: nat, b: nat)
    requires Good(s, c) && HistoryOnce(c) && a < b < |s.toRouter|
    ensures Keys(s.toRouter[a]) !! Keys(s.toRouter[b]) && NoDuplicates(s.toRouter[a]) && NoDuplicates(s.toRouter[b])
  {
    hide NodeInv, HonestStore, HonestBuffers, HonestNet, LogInv, ChainOk, NoDuplicates, HistoryOnce, PayloadsOf;
    RouterGets(s);
    PrefixOnce(c, |s.emitted|, a, b);
  }

  /** What any replica hands to the router contains no transaction key twice. */
  lemma {:induction false} CommittedOnce(plan: Plan, acts: seq<Action>, i: nat, a: nat, b: nat)
    requires SetupOk(plan.setup) && EnabledRun(NewSystem(plan), acts) && i < plan.setup.n
    requires a < b < |RunSystem(NewSystem(plan), acts)[i].node.toRouter|
    ensures var out := RunSystem(NewSystem(plan), acts)[i].node.toRouter;
            Keys(out[a]) !! Keys(out[b]) && NoDuplicates(out[a]) && NoDuplicates(out[b])
  {
    hide NewSystem, RunSystem, EnabledRun, Good, HistoryOk, SiteOk, NoDuplicates, SetupOk, HistoryOnce;
    NewSystemInv(plan);
    var c := RunKeeps(plan.setup, NewSystem(plan), acts, [GENESIS]);
    var sys := RunSystem(NewSystem(plan), acts);
    ActorFacts(plan.setup, sys, i, c);
    RouterOnce(sys[i].node, c, a, b);
  }
}
