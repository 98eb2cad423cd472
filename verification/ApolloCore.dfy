/**
 One Apollo replica on values.  Each function is one handler of the reactor; a
 failed `unwrap` or the blame handler halts the replica, which then stays as it is.

 A proposal names a block by hash and is signed over that hash; blocks
 themselves carry no signature in this protocol.
 */
module ApolloCore {
  import opened Transactions
  import opened BatcherSpec
  import opened Blocks

  datatype Propose = Propose(hash: Hash, round: nat, sig: Sig)

  datatype Msg =
    | NewProposal(prop: Propose, block: Block, batch: Batch)
    | Relay(from: Replica, prop: Propose)
    | Request(from: Replica, id: nat, hash: Hash)
    | Response(from: Replica, id: nat, prop: Propose, block: Block, batch: Batch)
    | Blame(sig: Sig)

  datatype Packet = ToAll(msg: Msg) | To(dst: Replica, msg: Msg)

  datatype Config = Config(n: nat, f: nat, me: Replica)

  /** What a panic was about: the blame handler, a block missing in the commit walk, or any other lookup. */
  datatype Stop = Running | Blamed | MissingAncestor | MissingEntry

  const UNSIGNED: Sig := Sig(0, NoAuth)

  datatype Node = Node(
    cfg: Config,
    round: nat,
    leader: Replica,
    st: Storage,
    lastSeen: Block,
    /** Relayed proposals whose block is missing, by that block's hash. */
    waiting: map<Hash, Propose>,
    /** Proposals whose block is stored but whose parent is missing, by the parent's hash. */
    parked: map<Hash, Propose>,
    future: map<nat, (Replica, Propose)>,
    byRound: map<nat, Propose>,
    byHash: map<Hash, Propose>,
    bs: Batches,
    pending: seq<(BatchHash, Batch)>,
    net: seq<Packet>,
    toBatcher: seq<BatcherMsg>,
    toRouter: seq<Batch>,
    /** History: every block that went through the announcing loop of a commit. */
    emitted: seq<Block>,
    stop: Stop)
  {
    const halted: bool := stop != Running
  }

  function Boot(cfg: Config, store: map<BatchHash, Batch>): Node {
    Node(cfg, 1, 0, INITIAL_STORAGE, GENESIS, map[], map[], map[], map[], map[], Batches(map[], store), [],
         [], [NewRound(0, 1)], [], [], Running)
  }

  function Send(s: Node, to: Replica, m: Msg): Node {
    if to == s.cfg.me then s else s.(net := s.net + [To(to, m)])
  }

  function Multicast(s: Node, m: Msg): Node {
    s.(net := s.net + [ToAll(m)])
  }

  function NextOf(n: nat, prev: Replica): Replica {
    if prev + 1 == n then 0 else prev + 1
  }

  function UpdateRound(s: Node): Node {
    var leader := NextOf(s.cfg.n, s.leader);
    s.(leader := leader, round := s.round + 1, toBatcher := s.toBatcher + [NewRound(leader, s.round + 1)])
  }

  // ---------------------------------------------------------------- commit

  /** Commits the block accepted `f` rounds ago, with its uncommitted ancestors. */
  function DoCommit(s: Node): (t: Node)
    requires s.round > s.cfg.f
    ensures t == s.(st := t.st, bs := t.bs, toBatcher := t.toBatcher, toRouter := t.toRouter, emitted := t.emitted,
            stop := t.stop)
  {
    if s.round - s.cfg.f !in s.byRound then s.(stop := MissingEntry)
    else
      match WalkBack(s.st, s.byRound[s.round - s.cfg.f].hash)
      case Missing => s.(stop := MissingAncestor)
      case Walked(st, newly) =>
        var e := EmitAll(s.bs, newly);
        s.(st := st,
           bs := e.bs,
           toBatcher := s.toBatcher + e.toBatcher,
           toRouter := s.toRouter + e.toRouter,
           emitted := s.emitted + newly)
  }

  // ---------------------------------------------------------------- proposals

  /** The same author already has another block at this height. */
  predicate Equivocates(st: Storage, b: Block) {
    b.header.height in st.byHeight
    && st.byHeight[b.header.height].hash != b.hash
    && st.byHeight[b.header.height].header.author == b.header.author
  }

  /** The proposal is recorded, relayed to the next leader and made known to the batcher. */
  function Record(s: Node, p: Propose, b: Block): (t: Node)
    ensures t == s.(net := t.net, byHash := t.byHash, byRound := t.byRound, bs := t.bs, toBatcher := t.toBatcher)
  {
    var relayed := Send(s, NextOf(s.cfg.n, s.leader), Relay(s.cfg.me, p));
    var (got, bs) := ReadBatch(s.bs, b.batch);
    relayed.(byHash := s.byHash[p.hash := p],
             byRound := s.byRound[p.round := p],
             bs := bs,
             toBatcher := if got.Some? then s.toBatcher + [Proposed(got.value, p.round)] else s.toBatcher)
  }

  function CommitIfDue(s: Node): (t: Node)
    ensures t == s.(st := t.st, bs := t.bs, toBatcher := t.toBatcher, toRouter := t.toRouter, emitted := t.emitted,
            stop := t.stop)
  {
    if s.round > s.cfg.f then DoCommit(s) else s
  }

  /** Record, commit what is due, and go to the next round. */
  function AcceptProposal(s: Node, p: Propose, b: Block): (t: Node)
    ensures t.cfg == s.cfg && t.parked == s.parked && t.future == s.future && t.pending == s.pending &&
            t.waiting == s.waiting
  {
    var s1 := CommitIfDue(Record(s, p, b));
    if s1.halted then s1 else UpdateRound(s1.(lastSeen := b))
  }

  function OnProposal(s: Node, p: Propose, b: Block): (t: Node)
    ensures t.cfg == s.cfg && t.parked == s.parked && t.future == s.future && t.pending == s.pending &&
            t.waiting == s.waiting
  {
    if Equivocates(s.st, b) then s else AcceptProposal(s, p, b)
  }

  /** The current round's checks on a proposal. */
  predicate Acceptable(s: Node, p: Propose, b: Block) {
    && b.hash == p.hash
    && s.leader == p.sig.origin && s.leader == b.header.author
    && (p.sig.origin == s.cfg.me || Verifies(p.sig.origin, OfBlock(p.hash), p.sig))
  }

  /** A stored block's proposal: keep it for its round, drop it, or handle it now. */
  function TryReceive(s: Node, p: Propose, b: Block, from: Replica): (t: Node)
    ensures t.cfg == s.cfg && t.parked == s.parked && t.pending == s.pending && t.waiting == s.waiting
  {
    if s.round > p.round then s
    else if s.round < p.round then s.(future := s.future[p.round := (from, p)])
    else if Acceptable(s, p, b) then OnProposal(s, p, b)
    else s
  }

  /** Proposals parked under `h` are handled, then those parked under their blocks, and so on. */
  function DrainParked(s: Node, h: Hash, sender: Replica): (t: Node)
    ensures t.cfg == s.cfg && t.pending == s.pending && t.waiting == s.waiting
    decreases |s.parked|
  {
    if s.halted || h !in s.parked then s
    else
      var p := s.parked[h];
      var s1 := s.(parked := s.parked - {h});
      assert s.parked.Keys == s1.parked.Keys + {h};
      if p.hash !in s.st.byHash then s1.(stop := MissingEntry)
      else DrainParked(TryReceive(s1, p, s.st.byHash[p.hash], sender), p.hash, sender)
  }

  /** The block of `p` is at hand. */
  function Resolve(s: Node, sender: Replica, p: Propose, b: Block): (t: Node)
    ensures t.cfg == s.cfg && t.pending == s.pending
  {
    var s1 := s.(st := AddDelivered(s.st, b));
    if b.header.prev !in s.st.byHash then
      Send(s1.(parked := s.parked[b.header.prev := p]), sender, Request(s.cfg.me, 0, b.header.prev))
    else
      var s2 := TryReceive(s1, p, b, sender);
      if s2.halted then s2 else DrainParked(s2.(waiting := s2.waiting - {p.hash}), p.hash, sender)
  }

  predicate BatchMatches(b: Block, batch: Batch) {
    b.batch == BatchDigest(batch)
  }

  /** A proposal that came with its block and batch. */
  function OnFullProposal(s: Node, sender: Replica, p: Propose, b: Block, batch: Batch): (t: Node)
    ensures t.cfg == s.cfg && t.pending == s.pending
  {
    if p.round in s.byRound || b.hash != p.hash || !BatchMatches(b, batch) then s
    else Resolve(s.(bs := Persist(s.bs, b.batch, batch)), sender, p, b)
  }

  /** A proposal that came alone, or was kept for its round. */
  function OnBareProposal(s: Node, sender: Replica, p: Propose): (t: Node)
    ensures t.cfg == s.cfg && t.pending == s.pending
  {
    if p.round in s.byRound then s
    else if p.hash in s.st.byHash then Resolve(s, sender, p, s.st.byHash[p.hash])
    else Send(s.(waiting := s.waiting[p.hash := p]), sender, Request(s.cfg.me, 0, p.hash))
  }

  function HandleRequest(s: Node, from: Replica, id: nat, h: Hash): (t: Node)
    ensures t.cfg == s.cfg && t.pending == s.pending
  {
    if h !in s.byHash || h !in s.st.byHash then s
    else
      var b := s.st.byHash[h];
      var (got, bs) := ReadBatch(s.bs, b.batch);
      match got
      case None => s.(bs := bs)
      case Some(batch) => Send(s.(bs := bs), from, Response(s.cfg.me, id, s.byHash[h], b, batch))
  }

  /** The leader's own proposal for the current round. */
  function DoPropose(s: Node, batch: Batch): (t: Node)
    ensures t.cfg == s.cfg && t.pending == s.pending
  {
    var b := NewBlock(s.lastSeen, s.cfg.me, batch, UNSIGNED);
    var p := Propose(b.hash, s.round, Sig(s.cfg.me, AuthBy(s.cfg.me, OfBlock(b.hash))));
    var sent := Multicast(s, NewProposal(p, b, batch));
    OnProposal(sent.(toBatcher := s.toBatcher + [Proposed(batch, s.round)], st := AddDelivered(s.st, b)), p, b)
  }

  // ---------------------------------------------------------------- message loops

  type Full = (Replica, Propose, Block, Batch)

  function HandleFull(s: Node, q: seq<Full>): (t: Node)
    ensures t.cfg == s.cfg && t.pending == s.pending
    decreases |q|
  {
    if q == [] || s.halted then s else HandleFull(OnFullProposal(s, q[0].0, q[0].1, q[0].2, q[0].3), q[1..])
  }

  function HandleBare(s: Node, q: seq<(Replica, Propose)>): (t: Node)
    ensures t.cfg == s.cfg && t.pending == s.pending
    decreases |q|
  {
    if q == [] || s.halted then s else HandleBare(OnBareProposal(s, q[0].0, q[0].1), q[1..])
  }

  function HandleOther(s: Node, m: Msg): (t: Node)
    ensures t.cfg == s.cfg && t.pending == s.pending
  {
    match m
    case Request(from, id, h) => HandleRequest(s, from, id, h)
    case Blame(_) => s.(stop := Blamed)
    case _ => s
  }

  function HandleOthers(s: Node, q: seq<Msg>): (t: Node)
    ensures t.cfg == s.cfg && t.pending == s.pending
    decreases |q|
  {
    if q == [] || s.halted then s else HandleOthers(HandleOther(s, q[0]), q[1..])
  }

  function BufferedFull(ms: seq<Msg>): seq<Full> {
    if ms == [] then []
    else
      var m := ms[|ms| - 1];
      BufferedFull(ms[..|ms| - 1]) +
      match m
      case NewProposal(p, b, batch) => [(p.sig.origin, p, b, batch)]
      case Response(from, _, p, b, batch) => [(from, p, b, batch)]
      case _ => []
  }

  function BufferedBare(ms: seq<Msg>): seq<(Replica, Propose)> {
    if ms == [] then []
    else
      BufferedBare(ms[..|ms| - 1]) + if ms[|ms| - 1].Relay? then [(ms[|ms| - 1].from, ms[|ms| - 1].prop)] else []
  }

  function BufferedOthers(ms: seq<Msg>): seq<Msg> {
    if ms == [] then []
    else
      BufferedOthers(ms[..|ms| - 1]) + if ms[|ms| - 1].Request? || ms[|ms| - 1].Blame? then [ms[|ms| - 1]] else []
  }

  function ProposeAll(s: Node, q: seq<(BatchHash, Batch)>): (t: Node)
    ensures t.cfg == s.cfg
    decreases |q|
  {
    if q == [] || s.halted || s.leader != s.cfg.me then s.(pending := q)
    else ProposeAll(DoPropose(s, q[0].1), q[1..])
  }

  /** The number of buffered proposals. */
  function Buffered(s: Node): nat {
    |s.future| + |s.parked|
  }

  /** Proposals kept for the current round, one round after the other.  The loop stops when
      the buffers no longer shrink; on states a replica can reach they always do. */
  function Replay(s: Node): (t: Node)
    ensures t.cfg == s.cfg && t.pending == s.pending
    decreases Buffered(s)
  {
    if s.halted || s.round !in s.future then s
    else
      var t := OnBareProposal(s.(future := s.future - {s.round}), s.future[s.round].0, s.future[s.round].1);
      if Buffered(t) < Buffered(s) then Replay(t) else t
  }

  function ProcessMessages(s: Node, ms: seq<Msg>): (t: Node)
    ensures t.cfg == s.cfg && t.pending == s.pending
  {
    Replay(HandleOthers(HandleBare(HandleFull(s, BufferedFull(ms)), BufferedBare(ms)), BufferedOthers(ms)))
  }

  // ---------------------------------------------------------------- reactor

  /** A burst of messages, a batch sealed by the mempool, or a timer tick. */
  datatype Event = Received(msgs: seq<Msg>) | Sealed(batch: Batch) | Idle

  function Absorb(s: Node, e: Event): (t: Node)
    ensures t.cfg == s.cfg
  {
    match e
    case Received(ms) => ProcessMessages(s, ms)
    case Sealed(batch) =>
      var h := BatchDigest(batch);
      s.(bs := Persist(s.bs, h, batch), pending := s.pending + [(h, batch)])
    case Idle => s
  }

  /** One turn of the reactor: take in the event, then propose while this replica leads. */
  function React(s: Node, e: Event): (t: Node)
    ensures t.cfg == s.cfg
  {
    if s.halted then s
    else
      var s1 := Absorb(s, e);
      ProposeAll(s1, s1.pending)
  }
}
