/**
 Whole runs of one Apollo replica.  The messages are arbitrary: nothing is
 assumed about who sent them or whether the sender follows the code.
 */
module ApolloRuns {
  import opened Transactions
  import opened Blocks
  import opened Chains
  import opened ApolloCore
  import opened ApolloBuffers

  predicate RunOk(cfg: Config, store: map<BatchHash, Batch>, es: seq<Event>) {
    && cfg.me < cfg.n
    && StoreOk(store)
    && (forall i :: 0 <= i < |es| ==> EventDecoded(es[i]))
  }

  function RunNode(s: Node, es: seq<Event>): (t: Node)
    ensures t.cfg == s.cfg
  {
    if es == [] then s else React(RunNode(s, es[..|es| - 1]), es[|es| - 1])
  }

  /** Some event of the run makes the replica handle a blame. */
  ghost predicate SawBlame(s: Node, es: seq<Event>) {
    exists i :: 0 <= i < |es| && BlameHandled(RunNode(s, es[..i]), es[i])
  }

  lemma {:induction false} SawBlameSnoc(s: Node, es: seq<Event>)
    requires es != []
    ensures var init := es[..|es| - 1];
            SawBlame(s, es) <==> SawBlame(s, init) || BlameHandled(RunNode(s, init), es[|es| - 1])
  {
    hide BlameHandled, RunNode;
    var init := es[..|es| - 1];
    assert forall i :: 0 <= i < |init| ==> init[..i] == es[..i] && init[i] == es[i];
    if SawBlame(s, es) {
      var i :| 0 <= i < |es| && BlameHandled(RunNode(s, es[..i]), es[i]);
      assert i < |init| ==> BlameHandled(RunNode(s, init[..i]), init[i]);
    }
  }

  lemma HaltedReact(s: Node, e: Event)
    requires s.halted
    ensures React(s, e) == s && !BlameHandled(s, e)
  {
  }

  /** Over any run a replica stops for two reasons only: a blame it handles, or a commit that is due and has an
      uncommitted ancestor that is not stored.  No other lookup ever fails. */
  lemma {:induction false} RunHaltsIff(cfg: Config, store: map<BatchHash, Batch>, es: seq<Event>)
    requires RunOk(cfg, store, es)
    ensures var t := RunNode(Boot(cfg, store), es);
            && Inv(t) && t.stop != MissingEntry
            && (t.stop == Blamed <==> SawBlame(Boot(cfg, store), es))
            && (t.stop == MissingAncestor <==> StuckAtCommit(t))
  {
    hide NodeInv, React, BlameHandled, SawBlame, StuckAtCommit, Boot;
    var s0 := Boot(cfg, store);
    BootInv(cfg, store);
    BootRuns(cfg, store);
    if es == [] {
      NothingSeen(s0);
    } else {
      var s, e := RunNode(s0, es[..|es| - 1]), es[|es| - 1];
      RunHaltsIff(cfg, store, es[..|es| - 1]);
      SawBlameSnoc(s0, es);
      if s.halted {
        HaltedReact(s, e);
      } else {
        ReactKeeps(s, e);
      }
    }
    var t := RunNode(s0, es);
    if t.stop != MissingAncestor {
      RunningIsNotStuck(t);
    }
  }

  lemma BootRuns(cfg: Config, store: map<BatchHash, Batch>)
    ensures Boot(cfg, store).stop == Running
  {
  }

  lemma NothingSeen(s: Node)
    ensures !SawBlame(s, [])
  {
  }

  /** The rounds below this one have an accepted proposal. */
  function Passed(s: Node): nat {
    if s.stop == MissingAncestor then s.round + 1 else s.round
  }

  lemma {:induction false} TablesAfter(cfg: Config, store: map<BatchHash, Batch>, es: seq<Event>)
    requires RunOk(cfg, store, es)
    ensures var s := RunNode(Boot(cfg, store), es);
            && TablesOk(s, Passed(s)) && s.round >= 1 && s.cfg == Boot(cfg, store).cfg && cfg.n > 0
            && s.leader == LeaderOf(s.cfg.n, s.round)
  {
    hide RunNode, TablesOk, MissesAncestor, SawBlame;
    RunHaltsIff(cfg, store, es);
  }

  /** What is parked can be resumed and what is kept can be replayed, after any run. */
  lemma {:induction false} BuffersSound(cfg: Config, store: map<BatchHash, Batch>, es: seq<Event>)
    requires RunOk(cfg, store, es)
    ensures var s := RunNode(Boot(cfg, store), es);
            && (forall h :: h in s.parked ==>
                  s.parked[h].hash in s.st.byHash && s.st.byHash[s.parked[h].hash].header.prev == h)
            && (forall r :: r in s.future ==> var p := s.future[r].1;
                  p.round == r && p.hash in s.st.byHash && s.st.byHash[p.hash].header.prev in s.st.byHash)
  {
    hide RunNode, Boot, TablesOk, LeaderOf;
    TablesAfter(cfg, store, es);
    var s := RunNode(Boot(cfg, store), es);
    BuffersOf(s, Passed(s));
  }

  lemma BuffersOf(s: Node, next: nat)
    requires TablesOk(s, next)
    ensures forall h :: h in s.parked ==>
              s.parked[h].hash in s.st.byHash && s.st.byHash[s.parked[h].hash].header.prev == h
    ensures forall r :: r in s.future ==> var p := s.future[r].1;
              p.round == r && p.hash in s.st.byHash && s.st.byHash[p.hash].header.prev in s.st.byHash
  {
    hide BatchesOk, EmissionInv, AcceptedOk;
    forall h | h in s.st.byHash ensures s.st.byHash[h].header.prev == Prev(h) {
      StoredPrev(s.st, h);
    }
  }

  /** After any run, handling any burst of messages leaves nothing kept for the round it ends in. */
  lemma {:induction false} NothingLeftForRound(cfg: Config, store: map<BatchHash, Batch>, es: seq<Event>, ms: seq<Msg>)
    requires RunOk(cfg, store, es) && forall i :: 0 <= i < |ms| ==> Decoded(ms[i])
    ensures var t := ProcessMessages(RunNode(Boot(cfg, store), es), ms);
            t.halted || t.round !in t.future
  {
    hide NodeInv, RunNode, Boot, ProcessMessages, StuckAtCommit, SawBlame;
    RunHaltsIff(cfg, store, es);
    var s := RunNode(Boot(cfg, store), es);
    if s.halted {
      HaltedProcess(s, ms);
    } else {
      ProcessKeeps(s, ms);
    }
  }

  lemma HaltedProcess(s: Node, ms: seq<Msg>)
    requires s.halted
    ensures ProcessMessages(s, ms) == s
  {
  }

  /** Accepted rounds have no gaps, and leaders take turns. */
  lemma {:induction false} RoundsAndLeaders(cfg: Config, store: map<BatchHash, Batch>, es: seq<Event>)
    requires RunOk(cfg, store, es)
    ensures var s := RunNode(Boot(cfg, store), es);
            && s.round >= 1 && s.leader == LeaderOf(cfg.n, s.round)
            && forall r :: r in s.byRound <==> 1 <= r < Passed(s)
  {
    hide RunNode, LeaderOf, TablesOk;
    TablesAfter(cfg, store, es);
    var s := RunNode(Boot(cfg, store), es);
    AcceptedBelow(s, Passed(s));
  }

  lemma AcceptedBelow(s: Node, next: nat)
    requires TablesOk(s, next)
    ensures forall r :: r in s.byRound <==> 1 <= r < next
  {
    hide IndexOk, BatchesOk, EmissionInv, ParkedOk, FutureOk;
  }

  /** Each committed block is announced once, after its parent, with nothing skipped. */
  lemma {:induction false} AnnouncedInOrder(cfg: Config, store: map<BatchHash, Batch>, es: seq<Event>)
    requires RunOk(cfg, store, es)
    ensures var s := RunNode(Boot(cfg, store), es);
            && NoRepeats(HashesOf(s.emitted)) && ParentFirst({}, HashesOf(s.emitted))
            && SetOf(HashesOf(s.emitted)) == s.st.committed
            && s.toRouter == PayloadsOf(s.emitted) && CommittedOf(s.toBatcher) == NoticesOf(s.emitted)
  {
    hide RunNode, Boot, IndexOk, BatchesOk, ParkedOk, FutureOk, AcceptedOk, NoRepeats, ParentFirst, LeaderOf;
    TablesAfter(cfg, store, es);
  }

  /** Every stored block except genesis has its batch in the cache, and a read agrees with the store. */
  lemma {:induction false} BatchesAvailable(cfg: Config, store: map<BatchHash, Batch>, es: seq<Event>, h: Hash)
    requires RunOk(cfg, store, es) && h in RunNode(Boot(cfg, store), es).st.byHash && h != EmptyHash
    ensures var s := RunNode(Boot(cfg, store), es);
            var b := s.st.byHash[h];
            && b.batch in s.bs.cache && b.batch == BatchDigest(s.bs.cache[b.batch])
            && ReadBatch(s.bs, b.batch) == (Some(s.bs.cache[b.batch]), s.bs)
            && b.batch in s.bs.store && s.bs.store[b.batch] == s.bs.cache[b.batch]
  {
    hide RunNode, Boot, ParkedOk, FutureOk, AcceptedOk, EmissionInv, LeaderOf;
    TablesAfter(cfg, store, es);
    var s := RunNode(Boot(cfg, store), es);
    assert BatchOk(s.bs, s.st.byHash[h]);
    ReadsAgree(s.bs, s.st.byHash[h].batch);
  }

  // ---------------------------------------------------------------- the commit walk can fail

  /** A hash that belongs to no block anybody stores. */
  const ORPHAN: Hash := Digest(Header(EmptyHash, 0, 7, []), BatchDigest([]))

  function BlockOn(parent: Hash, author: Replica, height: nat): Block {
    var header := Header(parent, author, height, []);
    Block(header, BatchDigest([]), Digest(header, BatchDigest([])), UNSIGNED)
  }

  function SignedBy(b: Block, round: nat): Propose {
    Propose(b.hash, round, Sig(b.header.author, AuthBy(b.header.author, OfBlock(b.hash))))
  }

  function Announcement(b: Block, round: nat): Event {
    Received([NewProposal(SignedBy(b, round), b, [])])
  }

  const FLOATING: Block := BlockOn(ORPHAN, 0, 8)
  const ON_FLOATING: Block := BlockOn(FLOATING.hash, 0, 9)
  const NEXT: Block := BlockOn(ON_FLOATING.hash, 1, 10)

  lemma OneFull(p: Propose, b: Block, batch: Batch)
    ensures var ms := [NewProposal(p, b, batch)];
            BufferedFull(ms) == [(p.sig.origin, p, b, batch)] && BufferedBare(ms) == [] && BufferedOthers(ms) == []
  {
    var ms := [NewProposal(p, b, batch)];
    assert ms[..0] == [];
    assert BufferedFull(ms[..0]) == [] && BufferedBare(ms[..0]) == [] && BufferedOthers(ms[..0]) == [];
  }

  /** A burst of one full proposal. */
  lemma ProcessOne(s: Node, p: Propose, b: Block, batch: Batch)
    requires !s.halted
    ensures var t := OnFullProposal(s, p.sig.origin, p, b, batch);
            t.halted || t.round !in t.future ==> ProcessMessages(s, [NewProposal(p, b, batch)]) == t
  {
    hide OnFullProposal;
    OneFull(p, b, batch);
    var t := OnFullProposal(s, p.sig.origin, p, b, batch);
    var q := [(p.sig.origin, p, b, batch)];
    assert q[1..] == [];
    assert HandleFull(s, q) == HandleFull(t, []);
    assert HandleFull(t, []) == t && HandleBare(t, []) == t && HandleOthers(t, []) == t;
  }

  /** The same turn of the reactor, with no batch waiting to be proposed. */
  lemma ReactToOne(s: Node, p: Propose, b: Block, batch: Batch)
    requires !s.halted && s.pending == []
    ensures var t := OnFullProposal(s, p.sig.origin, p, b, batch);
            t.halted || t.round !in t.future ==> React(s, Received([NewProposal(p, b, batch)])) == t
  {
    hide OnFullProposal, ProcessMessages;
    ProcessOne(s, p, b, batch);
    var t := OnFullProposal(s, p.sig.origin, p, b, batch);
    assert ProposeAll(t, []) == t.(pending := []);
  }

  /** The replica after the floating block: stored, its proposal parked. */
  lemma AfterFloating(s: Node)
    requires s == Boot(Config(4, 1, 3), map[])
    ensures var t := React(s, Announcement(FLOATING, 1));
            && t == s.(st := AddDelivered(s.st, FLOATING), bs := t.bs, net := t.net,
                       parked := map[ORPHAN := SignedBy(FLOATING, 1)])
            && BatchDigest([]) in t.bs.cache
  {
    ReactToOne(s, SignedBy(FLOATING, 1), FLOATING, []);
  }

  /** A full proposal for the current round whose parent is stored and on which nothing is parked. */
  lemma AcceptsNow(s: Node, p: Propose, b: Block, batch: Batch)
    requires !s.halted && p.round == s.round && p.round !in s.byRound && b.hash == p.hash && BatchMatches(b, batch)
    requires b.header.prev in s.st.byHash && b.hash !in s.parked
    ensures var s1 := s.(bs := Persist(s.bs, b.batch, batch), st := AddDelivered(s.st, b));
            var t := OnFullProposal(s, p.sig.origin, p, b, batch);
            Acceptable(s1, p, b) ==> t == OnProposal(s1, p, b).(waiting := t.waiting)
  {
    hide OnProposal, Persist;
  }

  /** Then the block on top of it: its parent is stored, so the leader's proposal is accepted. */
  lemma AfterOnFloating(s: Node)
    requires s.cfg == Config(4, 1, 3) && !s.halted && s.round == 1 && s.leader == 0 && s.pending == []
    requires s.st == AddDelivered(INITIAL_STORAGE, FLOATING) && s.byRound == map[] && s.future == map[]
    requires s.parked == map[ORPHAN := SignedBy(FLOATING, 1)]
    ensures var t := React(s, Announcement(ON_FLOATING, 1));
            && !t.halted && t.round == 2 && t.leader == 1 && t.pending == [] && t.cfg == s.cfg
            && t.st == AddDelivered(s.st, ON_FLOATING) && t.byRound == map[1 := SignedBy(ON_FLOATING, 1)]
            && t.future == map[] && t.parked == s.parked
  {
    hide ReadBatch, Persist, DoCommit, React, OnFullProposal;
    ReactToOne(s, SignedBy(ON_FLOATING, 1), ON_FLOATING, []);
    AcceptsNow(s, SignedBy(ON_FLOATING, 1), ON_FLOATING, []);
  }

  lemma HaltsAtCommit(s: Node, p: Propose, b: Block)
    requires !Equivocates(s.st, b) && s.round > s.cfg.f > 0 && p.round == s.round && s.round - s.cfg.f in s.byRound
    requires WalkBack(s.st, s.byRound[s.round - s.cfg.f].hash).Missing?
    ensures OnProposal(s, p, b).stop == MissingAncestor
  {
    hide ReadBatch, EmitAll, WalkBack;
  }

  /** The commit of the next round walks into the missing parent. */
  lemma AfterNext(s: Node)
    requires s.cfg == Config(4, 1, 3) && !s.halted && s.round == 2 && s.leader == 1 && s.pending == []
    requires s.st == AddDelivered(AddDelivered(INITIAL_STORAGE, FLOATING), ON_FLOATING)
    requires s.byRound == map[1 := SignedBy(ON_FLOATING, 1)] && s.future == map[]
    requires s.parked == map[ORPHAN := SignedBy(FLOATING, 1)]
    ensures React(s, Announcement(NEXT, 2)).stop == MissingAncestor
  {
    hide Persist, WalkBack, React, OnFullProposal, OnProposal;
    var p := SignedBy(NEXT, 2);
    MissingWalk(AddDelivered(s.st, NEXT));
    ReactToOne(s, p, NEXT, []);
    AcceptsNow(s, p, NEXT, []);
    HaltsAtCommit(s.(bs := Persist(s.bs, NEXT.batch, []), st := AddDelivered(s.st, NEXT)), p, NEXT);
  }

  lemma MissingWalk(st: Storage)
    requires st == AddDelivered(AddDelivered(AddDelivered(INITIAL_STORAGE, FLOATING), ON_FLOATING), NEXT)
    ensures WalkBack(st, ON_FLOATING.hash).Missing?
  {
    var st1 := AddCommitted(st, ON_FLOATING);
    var st2 := AddCommitted(st1, FLOATING);
    assert WalkBack(st2, ORPHAN).Missing?;
    assert WalkBack(st1, FLOATING.hash).Missing?;
  }

  /** For arbitrary messages the `unwrap` of the commit walk can fail: with n = 4 and f = 1, two proposals
      of the leader of round 1 and one of the leader of round 2 stop the replica. */
  lemma CommitWalkCanFail()
    ensures var es := [Announcement(FLOATING, 1), Announcement(ON_FLOATING, 1), Announcement(NEXT, 2)];
            && RunOk(Config(4, 1, 3), map[], es)
            && RunNode(Boot(Config(4, 1, 3), map[]), es).stop == MissingAncestor
  {
    hide React;
    var s := Boot(Config(4, 1, 3), map[]);
    var es := [Announcement(FLOATING, 1), Announcement(ON_FLOATING, 1), Announcement(NEXT, 2)];
    AfterFloating(s);
    AfterOnFloating(React(s, es[0]));
    AfterNext(React(React(s, es[0]), es[1]));
    assert es[..2][..1] == es[..1] && es[..1][..0] == [];
    assert RunNode(s, es[..1]) == React(s, es[0]);
    assert RunNode(s, es[..2]) == React(React(s, es[0]), es[1]);
  }
}
