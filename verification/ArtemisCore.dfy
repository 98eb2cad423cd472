/**
 One Artemis replica on values.  Each function is one handler of the reactor;
 a failed `unwrap`, an `expect` or the unimplemented blame handler halts the
 replica, which then stays as it is.

 The view and the view leader are constant (0), as in the source.
 */
module ArtemisCore {
  import opened Transactions
  import opened BatcherSpec
  import opened Blocks
  import opened LeaderRotation

  const VIEW: nat := 0
  const VIEW_LEADER: Replica := 0

  datatype Vote = Vote(hash: Hash, round: nat, view: nat, sig: Sig)

  datatype Msg =
    | NewBlockMsg(block: Block, batch: Batch)
    | VoteMsg(vote: Vote)
    | Relay(from: Replica, vote: Vote)
    | Blame(sig: Sig)
    | Request(from: Replica, id: nat, hash: Hash)
    | Response(from: Replica, id: nat, block: Block, batch: Batch)
    | Invalid

  datatype Packet = ToAll(msg: Msg) | To(dst: Replica, msg: Msg)

  /** The configuration; `digest` is the number the source derives from hashing a round. */
  datatype Config = Config(n: nat, f: nat, me: Replica, digest: nat -> nat)

  /** Delivered blocks and everything that is parked until a block arrives. */
  datatype Ledger = Ledger(
    st: Storage,
    lastSeen: Block,
    parentWaiting: map<Hash, Hash>,
    undelivered: map<Hash, Block>,
    voteWaiting: map<Hash, Vote>,
    voteReady: map<nat, Vote>)

  datatype Node = Node(
    cfg: Config,
    round: nat,
    rot: Rotation,
    ledger: Ledger,
    votes: map<nat, Vote>,
    lastVoted: Block,
    bs: Batches,
    pending: seq<(BatchHash, Batch)>,
    net: seq<Packet>,
    toBatcher: seq<BatcherMsg>,
    toRouter: seq<Batch>,
    /** History: every block that went through the announcing loop of a commit. */
    emitted: seq<Block>,
    halted: bool)

  const INITIAL_LEDGER: Ledger := Ledger(INITIAL_STORAGE, GENESIS, map[], map[], map[], map[])

  function Boot(cfg: Config, store: map<BatchHash, Batch>): (s: Node)
    requires 1 <= cfg.f < cfg.n
    ensures s.cfg == cfg
  {
    Node(cfg, 1, Initial(cfg.n, cfg.f), INITIAL_LEDGER, map[], GENESIS, Batches(map[], store), [],
         [], [NewRound(VIEW_LEADER, 1)], [], [], false)
  }

  function Send(s: Node, to: Replica, m: Msg): (t: Node)
    ensures t.cfg == s.cfg && t.pending == s.pending
  {
    if to == s.cfg.me then s else s.(net := s.net + [To(to, m)])
  }

  function Multicast(s: Node, m: Msg): (t: Node)
    ensures t.cfg == s.cfg && t.pending == s.pending
  {
    s.(net := s.net + [ToAll(m)])
  }

  // ---------------------------------------------------------------- delivery

  /** Files a block and moves the head if the block is taller. */
  function Accept(l: Ledger, b: Block): Ledger {
    l.(st := AddDelivered(l.st, b),
       lastSeen := if l.lastSeen.header.height < b.header.height then b else l.lastSeen,
       undelivered := l.undelivered - {b.hash})
  }

  /** A vote that waited for this block becomes ready. */
  function Wake(l: Ledger, h: Hash): Ledger {
    if h in l.voteWaiting then
      var v := l.voteWaiting[h];
      l.(voteWaiting := l.voteWaiting - {h}, voteReady := l.voteReady[v.round := v])
    else l
  }

  /** One turn of the drain loop: the parked child of `h` is delivered. */
  function Unpark(l: Ledger, h: Hash): (l': Ledger)
    requires h in l.parentWaiting
    ensures l'.parentWaiting == l.parentWaiting - {h}
  {
    var child := l.parentWaiting[h];
    var l1 := l.(parentWaiting := l.parentWaiting - {h});
    Wake(if child in l.undelivered then Accept(l1, l.undelivered[child]).(undelivered := l.undelivered - {child})
        else l1,
         child)
  }

  /** Delivers the parked child of `h`, then the child's child, and so on. */
  function Drain(l: Ledger, h: Hash): Ledger
    decreases |l.parentWaiting|
  {
    if h !in l.parentWaiting then l
    else
      assert l.parentWaiting.Keys == (l.parentWaiting - {h}).Keys + {h};
      Drain(Unpark(l, h), l.parentWaiting[h])
  }

  function Deliver(l: Ledger, b: Block): Ledger {
    Drain(Wake(Accept(l, b), b.hash), b.hash)
  }

  function DoDelivery(s: Node, b: Block): (t: Node)
    ensures t.cfg == s.cfg && t.pending == s.pending
  {
    var l := Deliver(s.ledger, b);
    s.(ledger := l,
       toBatcher := if s.ledger.lastSeen.header.height < l.lastSeen.header.height
                    then s.toBatcher + [NewRound(VIEW_LEADER, l.lastSeen.header.height + 1)]
                    else s.toBatcher)
  }

  predicate Delivered(s: Node, h: Hash) {
    h in s.ledger.st.byHash
  }

  /** A block straight from the view leader. */
  function OnNewBlock(s: Node, b: Block): (t: Node)
    ensures t.cfg == s.cfg && t.pending == s.pending
  {
    if Delivered(s, b.hash) then s
    else if !Delivered(s, b.header.prev) then s
    else if VIEW_LEADER != b.header.author || VIEW_LEADER != b.sig.origin then s
    else if VIEW_LEADER != s.cfg.me && !Verifies(VIEW_LEADER, OfBlock(b.hash), b.sig) then s
    else DoDelivery(s, b)
  }

  /** A block fetched from a peer: deliver it, or park it until its parent arrives. */
  function UpdateDelivery(s: Node, b: Block, sender: Replica): (t: Node)
    ensures t.cfg == s.cfg && t.pending == s.pending
  {
    if Delivered(s, b.hash) then s
    else if b.header.prev in s.ledger.parentWaiting then s
    else if !Delivered(s, b.header.prev) then
      var l := s.ledger;
      Send(s.(ledger := l.(parentWaiting := l.parentWaiting[b.header.prev := b.hash],
                           undelivered := l.undelivered[b.hash := b])),
           sender, Request(s.cfg.me, 0, b.hash))
    else DoDelivery(s, b)
  }

  predicate BatchMatches(b: Block, batch: Batch) {
    b.batch == BatchDigest(batch)
  }

  function HandleNewBlock(s: Node, b: Block, batch: Batch): (t: Node)
    ensures t.cfg == s.cfg && t.pending == s.pending
  {
    if !BatchMatches(b, batch) then s
    else OnNewBlock(s.(bs := Persist(s.bs, b.batch, batch)), b)
  }

  function HandleResponse(s: Node, from: Replica, b: Block, batch: Batch): (t: Node)
    ensures t.cfg == s.cfg && t.pending == s.pending
  {
    if !BatchMatches(b, batch) then s
    else UpdateDelivery(s.(bs := Persist(s.bs, b.batch, batch)), b, from)
  }

  function HandleRequest(s: Node, from: Replica, id: nat, h: Hash): (t: Node)
    ensures t.cfg == s.cfg && t.pending == s.pending
  {
    if !Delivered(s, h) && h !in s.ledger.undelivered then s
    else
      var b := if Delivered(s, h) then s.ledger.st.byHash[h] else s.ledger.undelivered[h];
      var (got, bs) := ReadBatch(s.bs, b.batch);
      match got
      case None => s.(bs := bs)
      case Some(batch) => Send(s.(bs := bs), from, Response(s.cfg.me, id, b, batch))
  }

  /** The view leader's own block. */
  function DoNewBlock(s: Node, batch: Batch): (t: Node)
    ensures t.cfg == s.cfg && t.pending == s.pending
  {
    var unsigned := NewBlock(s.ledger.lastSeen, s.cfg.me, batch, Sig(s.cfg.me, NoAuth));
    var b := unsigned.(sig := Sig(s.cfg.me, AuthBy(s.cfg.me, OfBlock(unsigned.hash))));
    var sent := Multicast(s, NewBlockMsg(b, batch));
    OnNewBlock(sent.(toBatcher := sent.toBatcher + [Proposed(batch, b.header.height)]), b)
  }

  // ---------------------------------------------------------------- votes

  function NextLeader(s: Node): Replica
    requires s.rot.eligible != []
  {
    s.rot.eligible[Pick(s.rot, s.cfg.digest(s.round + 1))]
  }

  function UpdateRound(s: Node): (t: Node)
    requires s.rot.recent != [] && s.rot.eligible != []
    ensures t.cfg == s.cfg && t.pending == s.pending
  {
    s.(round := s.round + 1, rot := Rotate(s.rot, s.cfg.digest(s.round + 1)))
  }

  predicate CanRotate(s: Node) {
    s.rot.recent != [] && s.rot.eligible != []
  }

  /** Commits the block voted `f` rounds ago, with its uncommitted ancestors. */
  function DoCommit(s: Node): (t: Node)
    requires s.round > s.cfg.f
    ensures t.cfg == s.cfg && t.pending == s.pending
  {
    if s.round - s.cfg.f !in s.votes then s.(halted := true)
    else
      match WalkBack(s.ledger.st, s.votes[s.round - s.cfg.f].hash)
      case Missing => s.(halted := true)
      case Walked(st, newly) =>
        var e := EmitAll(s.bs, newly);
        s.(ledger := s.ledger.(st := st),
           bs := e.bs,
           toBatcher := s.toBatcher + e.toBatcher,
           toRouter := s.toRouter + e.toRouter,
           emitted := s.emitted + newly)
  }

  /** Whether the current round's vote check lets the vote through. */
  predicate VoteAccepted(s: Node, v: Vote) {
    v.view == VIEW && (s.cfg.me == s.rot.leader || Verifies(s.rot.leader, OfVote(v.hash, v.round, v.view), v.sig))
  }

  /** The vote is recorded and `f` rounds back something commits. */
  function Record(s: Node, v: Vote): (t: Node)
    ensures t.cfg == s.cfg && t.pending == s.pending
  {
    var s1 := s.(votes := s.votes[v.round := v]);
    if s1.round > s1.cfg.f then DoCommit(s1) else s1
  }

  /** The rest of an accepted vote: remember the block, relay, go to the next round. */
  function Advance(s: Node, v: Vote): (t: Node)
    ensures t.cfg == s.cfg && t.pending == s.pending
  {
    if v.hash !in s.ledger.st.byHash || !CanRotate(s) then s.(halted := true)
    else
      var s1 := Send(s.(lastVoted := s.ledger.st.byHash[v.hash]), NextLeader(s), Relay(s.cfg.me, v));
      UpdateRound(s1)
  }

  function OnVote(s: Node, v: Vote): (t: Node)
    ensures t.cfg == s.cfg && t.pending == s.pending
  {
    if !VoteAccepted(s, v) then s
    else
      var s1 := Record(s, v);
      if s1.halted then s1 else Advance(s1, v)
  }

  /** A vote whose block is missing is parked and the block is requested. */
  function ParkVote(s: Node, from: Replica, v: Vote): (t: Node)
    ensures t.cfg == s.cfg && t.pending == s.pending
  {
    var asked := Send(s, from, Request(s.cfg.me, 0, v.hash));
    asked.(ledger := asked.ledger.(voteWaiting := asked.ledger.voteWaiting[v.hash := v]))
  }

  function TryVote(s: Node, from: Replica, v: Vote): (t: Node)
    ensures t.cfg == s.cfg && t.pending == s.pending
  {
    if s.round > v.round then s
    else if !Delivered(s, v.hash) then ParkVote(s, from, v)
    else if s.round < v.round then
      s.(ledger := s.ledger.(voteReady := s.ledger.voteReady[v.round := v]))
    else OnVote(s, v)
  }

  /** This node's own vote for the head of the chain. */
  function DoRoundVote(s: Node): (t: Node)
    ensures t.cfg == s.cfg && t.pending == s.pending
  {
    var h := s.ledger.lastSeen.hash;
    var v := Vote(h, s.round, VIEW, Sig(s.cfg.me, AuthBy(s.cfg.me, OfVote(h, s.round, VIEW))));
    OnVote(Multicast(s, VoteMsg(v)), v)
  }

  function TryRoundVote(s: Node): (t: Node)
    ensures t.cfg == s.cfg && t.pending == s.pending
  {
    if s.cfg.me != s.rot.leader then s
    else if s.ledger.lastSeen.header.height <= s.lastVoted.header.height then s
    else DoRoundVote(s)
  }

  // ---------------------------------------------------------------- message loops

  /** Votes kept for the current round, one round after the other. */
  function DrainReady(s: Node): (t: Node)
    ensures t.cfg == s.cfg && t.pending == s.pending
    decreases |s.ledger.voteReady|
  {
    if s.halted || s.round !in s.ledger.voteReady then s
    else
      var v := s.ledger.voteReady[s.round];
      var s1 := s.(ledger := s.ledger.(voteReady := s.ledger.voteReady - {s.round}));
      assert s.ledger.voteReady.Keys == s1.ledger.voteReady.Keys + {s.round};
      OnVoteFrame(s1, v);
      DrainReady(OnVote(s1, v))
  }

  /** A commit touches the committed set, the batch tables and the announcements only. */
  lemma DoCommitFrame(s: Node)
    requires s.round > s.cfg.f
    ensures var t := DoCommit(s);
            t == s.(ledger := s.ledger.(st := t.ledger.st), bs := t.bs, toBatcher := t.toBatcher,
                    toRouter := t.toRouter, emitted := t.emitted, halted := t.halted)
  {
  }

  lemma OnVoteFrame(s: Node, v: Vote)
    ensures OnVote(s, v).ledger.voteReady == s.ledger.voteReady
  {
    var s1 := s.(votes := s.votes[v.round := v]);
    if s.round > s.cfg.f {
      DoCommitFrame(s1);
    }
  }

  function HandleBlocks(s: Node, q: seq<(Block, Batch)>): (t: Node)
    ensures t.cfg == s.cfg && t.pending == s.pending
    decreases |q|
  {
    if q == [] || s.halted then s else HandleBlocks(HandleNewBlock(s, q[0].0, q[0].1), q[1..])
  }

  function HandleResponses(s: Node, q: seq<(Replica, Block, Batch)>): (t: Node)
    ensures t.cfg == s.cfg && t.pending == s.pending
    decreases |q|
  {
    if q == [] || s.halted then s else HandleResponses(HandleResponse(s, q[0].0, q[0].1, q[0].2), q[1..])
  }

  function HandleOther(s: Node, m: Msg): (t: Node)
    ensures t.cfg == s.cfg && t.pending == s.pending
  {
    match m
    case VoteMsg(v) => TryVote(s, v.sig.origin, v)
    case Relay(from, v) => TryVote(s, from, v)
    case Request(from, id, h) => HandleRequest(s, from, id, h)
    case _ => s.(halted := true)
  }

  function HandleOthers(s: Node, q: seq<Msg>): (t: Node)
    ensures t.cfg == s.cfg && t.pending == s.pending
    decreases |q|
  {
    if q == [] || s.halted then s else HandleOthers(HandleOther(s, q[0]), q[1..])
  }

  function ProcessMessages(s: Node, blocks: seq<(Block, Batch)>, responses: seq<(Replica, Block, Batch)>,
      others: seq<Msg>): (t: Node)
    ensures t.cfg == s.cfg && t.pending == s.pending
  {
    DrainReady(HandleOthers(DrainReady(HandleResponses(HandleBlocks(s, blocks), responses)), others))
  }

  // ---------------------------------------------------------------- reactor

  function BufferedBlocks(ms: seq<Msg>): seq<(Block, Batch)> {
    if ms == [] then []
    else BufferedBlocks(ms[..|ms| - 1]) +
         if ms[|ms| - 1].NewBlockMsg? then [(ms[|ms| - 1].block, ms[|ms| - 1].batch)] else []
  }

  function BufferedResponses(ms: seq<Msg>): seq<(Replica, Block, Batch)> {
    if ms == [] then []
    else BufferedResponses(ms[..|ms| - 1]) +
         if ms[|ms| - 1].Response? then [(ms[|ms| - 1].from, ms[|ms| - 1].block, ms[|ms| - 1].batch)] else []
  }

  predicate IsOther(m: Msg) {
    m.VoteMsg? || m.Relay? || m.Blame? || m.Request?
  }

  function BufferedOthers(ms: seq<Msg>): seq<Msg> {
    if ms == [] then []
    else BufferedOthers(ms[..|ms| - 1]) + if IsOther(ms[|ms| - 1]) then [ms[|ms| - 1]] else []
  }

  function DoNewBlocks(s: Node, q: seq<(BatchHash, Batch)>): (t: Node)
    ensures t.cfg == s.cfg && t.pending == s.pending
    decreases |q|
  {
    if q == [] || s.halted then s else DoNewBlocks(DoNewBlock(s, q[0].1), q[1..])
  }

  /** What the reactor does after every event. */
  function Propose(s: Node): (t: Node)
    ensures t.cfg == s.cfg
  {
    if s.halted then s
    else
      var s1 := if s.cfg.me == VIEW_LEADER then DoNewBlocks(s.(pending := []), s.pending) else s;
      if s1.halted then s1 else TryRoundVote(s1)
  }

  /** A burst of messages, a batch sealed by the mempool, or a timer tick. */
  datatype Event = Received(msgs: seq<Msg>) | Sealed(batch: Batch) | Idle

  /** One turn of the reactor. */
  function React(s: Node, e: Event): (t: Node)
    ensures t.cfg == s.cfg
  {
    if s.halted then s
    else
      match e
      case Received(ms) => Propose(ProcessMessages(s, BufferedBlocks(ms), BufferedResponses(ms), BufferedOthers(ms)))
      case Sealed(batch) =>
        var h := BatchDigest(batch);
        Propose(s.(bs := Persist(s.bs, h, batch), pending := s.pending + [(h, batch)]))
      case Idle => Propose(s)
  }
}
