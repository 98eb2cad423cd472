/**
 One OptSync replica on values: certificates grow vote by vote, a proposal
 carries the certificate of its parent, and followers check it.

 A certificate's votes are signatures over the certificate's own message.
 A panic of the source halts the replica.
 */
module OptSyncCore {
  import opened Transactions
  import opened Blocks

  datatype CertType =
    | BlameCert(who: Replica, view: nat)
    | VoteCert(view: nat, hash: Hash)
    | QuitViewCert(view: nat, hash: Hash)
    | DefaultCert

  /** What a replica's key can be applied to. */
  datatype Claim = OnBlock(hash: Hash) | OnCert(msg: CertType)

  datatype Proof = Unsigned | SignedBy(signer: Replica, claim: Claim)

  datatype Vote = Vote(origin: Replica, auth: Proof)

  datatype Certificate = Certificate(msg: CertType, votes: seq<Vote>)

  const EMPTY_CERT: Certificate := Certificate(DefaultCert, [])

  datatype Propose = Propose(proof: Proof, cert: Certificate, view: nat, hash: Hash)

  datatype Msg =
    | NewProposal(prop: Propose, block: Block, batch: Batch)
    | VoteMsg(cert: Certificate, prop: Propose)
    | OtherMsg

  datatype Config = Config(n: nat, f: nat, me: Replica)

  const UNSIGNED: Sig := Sig(0, NoAuth)

  datatype Node = Node(
    cfg: Config,
    view: nat,
    lastLeader: Replica,
    st: Storage,
    height: nat,
    lastSeen: Block,
    lastCert: Certificate,
    lastCommitted: nat,
    voteMap: map<Hash, Certificate>,
    certMap: map<Hash, Certificate>,
    respCert: map<Hash, Certificate>,
    bs: Batches,
    pending: seq<Batch>,
    queue: seq<Propose>,
    net: seq<Msg>,
    halted: bool)

  function Boot(cfg: Config, store: map<BatchHash, Batch>): (s: Node)
    ensures s.cfg == cfg
  {
    Node(cfg, 0, 0, AddCommitted(INITIAL_STORAGE, GENESIS), 0, GENESIS, EMPTY_CERT, 0,
         map[], map[EmptyHash := EMPTY_CERT], map[], Batches(map[], store), [], [], [], false)
  }

  function LeaderOfView(s: Node): Replica
    requires s.cfg.n > 0
  {
    s.view % s.cfg.n
  }

  /** All keys of the configuration are known, the replica's own included. */
  predicate Known(s: Node, who: Replica) {
    who < s.cfg.n
  }

  // ---------------------------------------------------------------- votes

  /** Votes that make a responsive certificate. */
  function FastQuorum(n: nat): nat {
    (3 * n) / 4
  }

  /** Adds the single vote of `c`; the flag says whether a responsive certificate was formed. */
  function AddVote(s: Node, c: Certificate, h: Hash): (r: (Node, bool))
    requires c.votes != []
    ensures r.0.cfg == s.cfg && r.0.view == s.view && r.0.lastLeader == s.lastLeader
  {
    if h !in s.voteMap then (s.(voteMap := s.voteMap[h := c]), false)
    else
      var cert := s.voteMap[h].(votes := s.voteMap[h].votes + [c.votes[|c.votes| - 1]]);
      var responsive := |cert.votes| >= FastQuorum(s.cfg.n);
      var s1 := if responsive then s.(respCert := s.respCert[h := cert]) else s;
      var s2 := if |cert.votes| > s.cfg.f then s1.(certMap := s1.certMap[h := cert], lastCert := cert) else s1;
      (s2.(voteMap := s2.voteMap[h := cert]), responsive)
  }

  /** Another block of the same height was delivered later. */
  predicate Equivocates(st: Storage, h: Hash)
    requires h in st.byHash
  {
    var k := st.byHash[h].header.height;
    k in st.byHeight && st.byHeight[k].hash != h
  }

  /** The checks on a vote whose message is a vote for `h`. */
  predicate VoteCounts(s: Node, c: Certificate, p: Propose)
    requires |c.votes| == 1 && c.msg.VoteCert?
  {
    && c.msg.hash == p.hash
    && c.votes[0].auth == SignedBy(c.votes[0].origin, OnCert(c.msg))
    && c.msg.hash in s.st.byHash
    && !Equivocates(s.st, c.msg.hash)
    && c.msg.hash !in s.respCert
  }

  function OnVote(s: Node, c: Certificate, p: Propose): (r: (Node, bool))
    ensures r.0.cfg == s.cfg && r.0.view == s.view && r.0.lastLeader == s.lastLeader
  {
    if |c.votes| != 1 || !Known(s, c.votes[0].origin) then (s, false)
    else if !c.msg.VoteCert? then (s.(halted := true), false)
    else if !VoteCounts(s, c, p) then (s, false)
    else AddVote(s, c, c.msg.hash)
  }

  function OnCommit(s: Node, p: Propose): (t: Node)
    ensures t.cfg == s.cfg && t.view == s.view && t.lastLeader == s.lastLeader
  {
    if p.hash !in s.st.byHash then s
    else
      var b := s.st.byHash[p.hash];
      if b.hash in s.st.committed then s
      else s.(lastCommitted := b.header.height, st := AddCommitted(s.st, b), bs := ReadBatch(s.bs, b.batch).1)
  }

  // ---------------------------------------------------------------- proposals

  function Origins(votes: seq<Vote>): set<Replica> {
    set i | 0 <= i < |votes| :: votes[i].origin
  }

  /** Every vote is by a known replica and over the certificate's message. */
  predicate VotesVerify(n: nat, cert: Certificate) {
    forall i :: 0 <= i < |cert.votes| ==>
      cert.votes[i].origin < n && cert.votes[i].auth == SignedBy(cert.votes[i].origin, OnCert(cert.msg))
  }

  datatype Verdict = Passed | Rejected | Panicked

  /** The checks that come before the certificate's votes. */
  predicate HeaderOk(s: Node, p: Propose, b: Block)
    requires s.cfg.n > 0
  {
    && b.hash == p.hash
    && b.header.author == LeaderOfView(s)
    && (b.header.height == 1 ==> b.header.prev == EmptyHash)
    && (b.header.height > 1 ==> |p.cert.votes| > s.cfg.f)
    && p.proof == SignedBy(b.header.author, OnBlock(b.hash))
  }

  predicate CertOk(s: Node, p: Propose, b: Block) {
    && p.cert.msg.VoteCert? && p.cert.msg.hash == b.header.prev
    && VotesVerify(s.cfg.n, p.cert)
    && |Origins(p.cert.votes)| >= s.cfg.f
    && b.header.prev == s.lastSeen.hash
  }

  function CheckProposal(s: Node, p: Propose, b: Block): Verdict
    requires s.cfg.n > 0
  {
    if !HeaderOk(s, p, b) then Rejected
    else if s.view != p.view then Panicked
    else if b.header.height == 1 || CertOk(s, p, b) then Passed
    else Rejected
  }

  function VoteFor(s: Node, h: Hash): Certificate {
    var msg := VoteCert(s.view, h);
    Certificate(msg, [Vote(s.cfg.me, SignedBy(s.cfg.me, OnCert(msg)))])
  }

  /** A proposal that passed: vote for it and move on.  A second own vote is a panic. */
  function OnValid(s: Node, p: Propose, b: Block): (t: Node)
    ensures t.cfg == s.cfg && t.view == s.view && t.lastLeader == s.lastLeader
  {
    if b.header.prev !in s.st.byHash then s
    else if p.hash in s.voteMap then s.(halted := true)
    else
      var vote := VoteFor(s, b.hash);
      s.(voteMap := s.voteMap[p.hash := vote],
         st := AddDelivered(s.st, b),
         height := b.header.height,
         lastSeen := b,
         lastCert := p.cert,
         net := s.net + [VoteMsg(vote, p)],
         queue := s.queue + [p])
  }

  function OnProposal(s: Node, p: Propose, b: Block, batch: Batch): (t: Node)
    requires s.cfg.n > 0
    ensures t.cfg == s.cfg && t.view == s.view && t.lastLeader == s.lastLeader
  {
    if b.hash in s.st.byHash then s
    else
      match CheckProposal(s, p, b)
      case Rejected => s
      case Panicked => s.(halted := true)
      case Passed =>
        if b.batch != BatchDigest(batch) then s
        else OnValid(s.(bs := Persist(s.bs, b.batch, batch)), p, b)
  }

  /** The proposal a leader builds on its last seen block. */
  function Built(s: Node, batch: Batch): (Propose, Block)
    requires s.lastSeen.hash in s.certMap
  {
    var b := NewBlock(s.lastSeen, s.cfg.me, batch, UNSIGNED);
    (Propose(SignedBy(s.cfg.me, OnBlock(b.hash)), s.certMap[s.lastSeen.hash], s.view, b.hash), b)
  }

  function DoPropose(s: Node, batch: Batch): (t: Node)
    requires s.lastSeen.hash in s.certMap
    ensures t.cfg == s.cfg && t.view == s.view && t.lastLeader == s.lastLeader
  {
    var (p, b) := Built(s, batch);
    s.(st := AddDelivered(s.st, b),
       voteMap := s.voteMap[b.hash := VoteFor(s, b.hash)],
       height := b.header.height,
       lastSeen := b,
       lastCommitted := b.header.height,
       net := s.net + [NewProposal(p, b, batch)],
       queue := s.queue + [p])
  }

  // ---------------------------------------------------------------- reactor

  function OnMessage(s: Node, m: Msg): (t: Node)
    requires s.cfg.n > 0
    ensures t.cfg == s.cfg && t.view == s.view && t.lastLeader == s.lastLeader
  {
    match m
    case NewProposal(p, b, batch) => OnProposal(s, p, b, batch)
    case VoteMsg(c, p) =>
      var (s1, decision) := OnVote(s, c, p);
      if decision then OnCommit(s1, p) else s1
    case OtherMsg => s
  }

  predicate MayPropose(s: Node) {
    s.lastLeader == s.cfg.me && s.lastSeen.hash in s.certMap && s.pending != []
  }

  function ProposeAll(s: Node): (t: Node)
    ensures t.cfg == s.cfg && t.view == s.view && t.lastLeader == s.lastLeader
    decreases |s.pending|
  {
    if s.halted || !MayPropose(s) then s
    else ProposeAll(DoPropose(s.(pending := s.pending[1..]), s.pending[0]))
  }

  /** A message, a batch sealed by the mempool, or a commit timer. */
  datatype Event = Received(msg: Msg) | Sealed(batch: Batch) | Fired(prop: Propose)

  function Absorb(s: Node, e: Event): (t: Node)
    requires s.cfg.n > 0
    ensures t.cfg == s.cfg && t.view == s.view && t.lastLeader == s.lastLeader
  {
    match e
    case Received(m) => OnMessage(s, m)
    case Sealed(batch) => s.(bs := Persist(s.bs, BatchDigest(batch), batch), pending := s.pending + [batch])
    case Fired(p) => OnCommit(s, p)
  }

  function React(s: Node, e: Event): (t: Node)
    requires s.cfg.n > 0
    ensures t.cfg == s.cfg && t.view == s.view && t.lastLeader == s.lastLeader
  {
    if s.halted then s else ProposeAll(Absorb(s, e))
  }
}
