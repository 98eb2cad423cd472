/**
 Delivery in Artemis, for arbitrary incoming messages: the delivered blocks are
 closed under parent, parked blocks and their missing parents stay in bijection,
 and no parked vote sleeps once its block is there.
 */
module ArtemisDelivery {
  import opened Blocks
  import opened Chains
  import opened ArtemisCore

  // ---------------------------------------------------------------- the invariant

  /** The head is a delivered block and no delivered block is taller. */
  ghost predicate HeadOk(l: Ledger) {
    && l.lastSeen.hash in l.st.byHash && l.st.byHash[l.lastSeen.hash] == l.lastSeen
    && forall h :: h in l.st.byHash ==> l.st.byHash[h].header.height <= l.lastSeen.header.height
  }

  /** Missing parents and parked blocks name each other; only `awake` may be a delivered parent. */
  ghost predicate ParkingOk(l: Ledger, awake: set<Hash>) {
    && (forall p :: p in l.parentWaiting ==>
          && (p in l.st.byHash ==> p in awake)
          && l.parentWaiting[p] in l.undelivered
          && l.undelivered[l.parentWaiting[p]].header.prev == p)
    && (forall c :: c in l.undelivered ==>
          && c !in l.st.byHash
          && l.undelivered[c].hash == c && Finalized(l.undelivered[c])
          && l.undelivered[c].header.prev in l.parentWaiting
          && l.parentWaiting[l.undelivered[c].header.prev] == c)
  }

  /** A waiting vote's block is missing; a ready vote's block is delivered. */
  ghost predicate VotesParkedOk(l: Ledger) {
    && (forall h :: h in l.voteWaiting ==> h !in l.st.byHash && l.voteWaiting[h].hash == h)
    && (forall r :: r in l.voteReady ==> l.voteReady[r].round == r && l.voteReady[r].hash in l.st.byHash)
  }

  ghost predicate LedgerInvBut(l: Ledger, awake: set<Hash>) {
    StorageOk(l.st) && Closed(l.st) && HeadOk(l) && ParkingOk(l, awake) && VotesParkedOk(l)
  }

  ghost predicate LedgerInv(l: Ledger) {
    LedgerInvBut(l, {})
  }

  /** Every block of the ledger, delivered or parked, satisfies `q`. */
  ghost predicate AllBlocks(l: Ledger, q: Block -> bool) {
    && (forall h :: h in l.st.byHash ==> q(l.st.byHash[h]))
    && (forall c :: c in l.undelivered ==> q(l.undelivered[c]))
  }

  /** Every parked vote satisfies `q`. */
  ghost predicate AllVotes(l: Ledger, q: Vote -> bool) {
    && (forall h :: h in l.voteWaiting ==> q(l.voteWaiting[h]))
    && (forall r :: r in l.voteReady ==> q(l.voteReady[r]))
  }

  lemma InitialLedgerInv()
    ensures LedgerInv(INITIAL_LEDGER)
  {
  }

  // ---------------------------------------------------------------- one block

  /** A stored block may be accepted when it is new, well hashed and its parent is delivered. */
  ghost predicate Acceptable(l: Ledger, b: Block) {
    Finalized(b) && b.hash !in l.st.byHash && b.header.prev in l.st.byHash
  }

  lemma AcceptStores(l: Ledger, b: Block)
    requires StorageOk(l.st) && Closed(l.st) && HeadOk(l) && Acceptable(l, b)
    ensures StorageOk(Accept(l, b).st) && Closed(Accept(l, b).st) && HeadOk(Accept(l, b))
  {
  }

  lemma WakeInv(l: Ledger, h: Hash)
    requires h in l.st.byHash
    requires forall x :: x in l.voteWaiting ==> (x in l.st.byHash ==> x == h) && l.voteWaiting[x].hash == x
    requires forall r :: r in l.voteReady ==> l.voteReady[r].round == r && l.voteReady[r].hash in l.st.byHash
    ensures VotesParkedOk(Wake(l, h))
  {
  }

  /** A parked block is never also acceptable: its parent is missing. */
  lemma ParkedIsNotAcceptable(l: Ledger, b: Block)
    requires ParkingOk(l, {}) && Acceptable(l, b)
    ensures b.hash !in l.undelivered
  {
    assert b.hash in l.undelivered ==> l.undelivered[b.hash].header == b.header;
  }

  lemma AcceptParking(l: Ledger, b: Block)
    requires ParkingOk(l, {}) && Acceptable(l, b)
    ensures ParkingOk(Accept(l, b), {b.hash})
  {
    ParkedIsNotAcceptable(l, b);
    assert l.undelivered - {b.hash} == l.undelivered;
  }

  lemma AcceptFirst(l: Ledger, b: Block)
    requires LedgerInv(l) && Acceptable(l, b)
    ensures LedgerInvBut(Wake(Accept(l, b), b.hash), {b.hash})
  {
    AcceptStores(l, b);
    AcceptParking(l, b);
    WakeInv(Accept(l, b), b.hash);
  }

  lemma UnparkParking(l: Ledger, h: Hash)
    requires ParkingOk(l, {h}) && h in l.parentWaiting
    ensures l.parentWaiting[h] in l.undelivered
    ensures ParkingOk(Unpark(l, h), {l.parentWaiting[h]})
  {
  }

  lemma UnparkVotes(l: Ledger, h: Hash)
    requires VotesParkedOk(l) && h in l.parentWaiting && l.parentWaiting[h] in l.undelivered
    requires l.undelivered[l.parentWaiting[h]].hash == l.parentWaiting[h]
    ensures VotesParkedOk(Unpark(l, h))
  {
  }

  lemma UnparkOne(l: Ledger, h: Hash)
    requires LedgerInvBut(l, {h}) && h in l.st.byHash && h in l.parentWaiting
    ensures l.parentWaiting[h] in Unpark(l, h).st.byHash
    ensures LedgerInvBut(Unpark(l, h), {l.parentWaiting[h]})
    ensures StoreGrows(l.st, Unpark(l, h).st)
  {
    UnparkParking(l, h);
    UnparkVotes(l, h);
    UnparkStores(l, h);
    hide StorageOk, Closed, HeadOk, VotesParkedOk, ParkingOk, Unpark;
  }

  lemma UnparkStores(l: Ledger, h: Hash)
    requires StorageOk(l.st) && Closed(l.st) && HeadOk(l) && ParkingOk(l, {h}) && h in l.st.byHash &&
             h in l.parentWaiting
    ensures l.parentWaiting[h] in Unpark(l, h).st.byHash && StoreGrows(l.st, Unpark(l, h).st)
    ensures StorageOk(Unpark(l, h).st) && Closed(Unpark(l, h).st) && HeadOk(Unpark(l, h))
  {
    AcceptStores(l, l.undelivered[l.parentWaiting[h]]);
    hide VotesParkedOk;
  }

  lemma ParkedCount(l: Ledger, h: Hash)
    requires h in l.parentWaiting
    ensures |Unpark(l, h).parentWaiting| < |l.parentWaiting|
  {
    assert l.parentWaiting.Keys == (l.parentWaiting - {h}).Keys + {h};
  }

  /** The drain loop wakes every parked descendant and re-establishes the invariant. */
  lemma {:induction false} DrainKeeps(l: Ledger, h: Hash)
    requires LedgerInvBut(l, {h}) && h in l.st.byHash
    ensures LedgerInv(Drain(l, h)) && StoreGrows(l.st, Drain(l, h).st)
    decreases |l.parentWaiting|
  {
    if h in l.parentWaiting {
      UnparkOne(l, h);
      ParkedCount(l, h);
      DrainKeeps(Unpark(l, h), l.parentWaiting[h]);
    }
  }

  lemma UnparkAll(l: Ledger, h: Hash, q: Block -> bool, qv: Vote -> bool)
    requires AllBlocks(l, q) && AllVotes(l, qv) && h in l.parentWaiting
    ensures AllBlocks(Unpark(l, h), q) && AllVotes(Unpark(l, h), qv)
  {
  }

  lemma {:induction false} DrainAll(l: Ledger, h: Hash, q: Block -> bool, qv: Vote -> bool)
    requires AllBlocks(l, q) && AllVotes(l, qv)
    ensures AllBlocks(Drain(l, h), q) && AllVotes(Drain(l, h), qv)
    decreases |l.parentWaiting|
  {
    if h in l.parentWaiting {
      UnparkAll(l, h, q, qv);
      ParkedCount(l, h);
      DrainAll(Unpark(l, h), l.parentWaiting[h], q, qv);
    }
  }

  /** Delivering an acceptable block keeps the invariant and everything already delivered. */
  lemma DeliverKeeps(l: Ledger, b: Block)
    requires LedgerInv(l) && Acceptable(l, b)
    ensures LedgerInv(Deliver(l, b))
    ensures StoreGrows(AddDelivered(l.st, b), Deliver(l, b).st)
  {
    AcceptFirst(l, b);
    DrainKeeps(Wake(Accept(l, b), b.hash), b.hash);
  }

  /** Whatever holds of the new block and of all blocks and votes so far still holds of all of them. */
  lemma DeliverAll(l: Ledger, b: Block, q: Block -> bool, qv: Vote -> bool)
    requires AllBlocks(l, q) && AllVotes(l, qv) && q(b)
    ensures AllBlocks(Deliver(l, b), q) && AllVotes(Deliver(l, b), qv)
  {
    DrainAll(Wake(Accept(l, b), b.hash), b.hash, q, qv);
  }

  /** A drain never lowers the head. */
  lemma {:induction false} DrainLater(l: Ledger, h: Hash)
    ensures Drain(l, h).lastSeen.header.height >= l.lastSeen.header.height
    decreases |l.parentWaiting|
  {
    if h in l.parentWaiting {
      ParkedCount(l, h);
      DrainLater(Unpark(l, h), l.parentWaiting[h]);
    }
  }

  /** Parking a block whose parent is missing. */
  lemma ParkKeeps(l: Ledger, b: Block)
    requires LedgerInv(l) && Finalized(b)
    requires b.hash !in l.st.byHash && b.header.prev !in l.st.byHash && b.header.prev !in l.parentWaiting
    ensures LedgerInv(l.(parentWaiting := l.parentWaiting[b.header.prev := b.hash],
                         undelivered := l.undelivered[b.hash := b]))
  {
    hide StorageOk, Closed, HeadOk, VotesParkedOk, ParkingOk;
    ParkKeepsParking(l, b);
    ParkFrame(l, b);
  }

  lemma ParkFrame(l: Ledger, b: Block)
    ensures var l' := l.(parentWaiting := l.parentWaiting[b.header.prev := b.hash],
                         undelivered := l.undelivered[b.hash := b]);
            (HeadOk(l) ==> HeadOk(l')) && (VotesParkedOk(l) ==> VotesParkedOk(l'))
  {
  }

  lemma ParkKeepsParking(l: Ledger, b: Block)
    requires ParkingOk(l, {}) && Finalized(b)
    requires b.hash !in l.st.byHash && b.header.prev !in l.st.byHash && b.header.prev !in l.parentWaiting
    ensures ParkingOk(l.(parentWaiting := l.parentWaiting[b.header.prev := b.hash],
                         undelivered := l.undelivered[b.hash := b]), {})
  {
    assert b.hash in l.undelivered ==> l.undelivered[b.hash].header == b.header;
  }
}
