# A Dafny model of the Apollo / Artemis replicas and their keyed mempool

The repository implements rotating-leader BFT protocols (Apollo, Artemis, OptSync) on top of a
mempool that deduplicates transactions by `(client, nonce)`. This project models the mempool
and the three replicas, and proves what holds over all of their runs.

Each component exists twice. A value-level specification (`PoolSpec`, `BatcherSpec`, `ArtemisCore`,
`ApolloCore`, `OptSyncCore`) says in functions what every handler does. A class with the program's own
fields and loops (`TxPool.Txpool`, `RRBatcher.RoundRobin`, `ArtemisNode.Context`, `ApolloNode.Context`,
`OptSyncNode.Context`) updates itself in place, and each of its methods is proved to make exactly the step
its function describes. The theorems are about the functions, so they hold of the objects.

Reading order:

| files | contents |
|---|---|
| `Transactions`, `Blocks`, `Chains`, `NodeParts` | transactions, blocks and hashes, the block index, the batch cache, the commit walk, what announcing commits means, the one chain of a cluster |
| `PoolSpec`, `PoolLaws`, `PoolSteps`, `TxPool`, `PoolRuns` | the keyed pool: specification, laws, the steps of its loops, the class, whole runs |
| `BatcherSpec`, `RRBatcher`, `BatcherRuns`, `BatcherOnce`, `ChainOnce` | the round-robin batcher, its runs seen from outside, what it never seals twice, and what that means for a chain |
| `Rotation`, `ArtemisCore`, `ArtemisDelivery`, `ArtemisSafety`, `ArtemisRuns`, `ArtemisRecords`, `ArtemisAgreement`, `ArtemisCluster`, `ArtemisProgress`, `ArtemisNode` | Artemis |
| `ArtemisOnce` | Artemis together with the batchers: exactly-once over every run of every deployment |
| `ApolloCore`, `ApolloBuffers`, `ApolloRuns`, `ApolloRecords`, `ApolloAgreement`, `ApolloCluster`, `ApolloProgress`, `ApolloNode` | Apollo |
| `ApolloOnce`, `ApolloTurns`, `ApolloEarlySeal`, `ApolloExact` | Apollo together with the batchers: exactly-once, the runs that break it, and when it holds |
| `OptSyncCore`, `OptSyncCerts`, `OptSyncQuorum`, `OptSyncNode` | OptSync certificates |

Modelling decisions:

- Hashing is a free constructor over the hashed content (so it is injective), a signature is a term that names its
  signer and what was signed, and decoding a message yields blocks that carry their own content hash.
  "Arbitrary messages" means any such terms, whoever made them. Results about clusters instead let replicas receive
  only what other replicas sent, in any order, any number of times, or never; a replica that takes no more turns has stopped.
- Each handler is one atomic step, because the reactor is single-threaded. A failed `unwrap`, `expect` or `panic!` halts the replica, and a halted
  replica does nothing more; Apollo also records which of them it was (`ApolloCore.Stop`). Where the failure is proved impossible the class has no
  branch for it.
- The network, the channels to the batcher and to the confirmation router are logs (`net`, `toBatcher`, `toRouter`).
  `emitted` is a history of all blocks that went through the announcing loop of a commit.
- A batch reaches the reactor after it has been put into the cache and the store; that write and the push to
  `pending_batches` are one step (`Sealed`).
- Two functions are cut off where the program would loop on states it cannot reach, so that they are total: `Blocks.WalkBack` gives up on a block
  stored under a foreign hash, and `ApolloCore.Replay` stops when the buffers do not shrink. `Blocks.StorageOk` and `ApolloBuffers.ReplayOne` rule both out.
- In systems of replicas and batchers a client's transaction reaches the batcher with its serialized size, as the listener measures it
  (`mempool/src/client_listener.rs:32`, `mempool/src/client_listener.rs:42`); `RRBatcher` and the pool take any size.
- Artemis is configured with 1 <= f < n, which its set-up needs (`context.rs:147`, `context.rs:207`). Apollo and OptSync take any f.

Where the code does less than one might read into it, the code is followed:

- Apollo stores a block before its parent has arrived (`message.rs:101`), so for arbitrary messages its store is not
  closed under parents. `ApolloRuns.CommitWalkCanFail` is a run in which one dishonest leader makes the `unwrap` of the
  commit walk fail; `ApolloBuffers.OnProposalKeeps` says exactly when that happens, and `ApolloRuns.RunHaltsIff` that nothing but this and a blame
  stops a replica. Among replicas that follow the code it never happens (`ApolloCluster.ApolloAgrees`).
- The batcher starts in round 0 with a leader of its own (`rr_batcher.rs:71-80`), so the first leader's batcher can seal before it hears of round 1.
  Its replica then comes to hold a batch that missed its round and proposes it when it leads again, although another replica may have proposed the
  same transaction meanwhile. `ApolloExact.ExactlyOnceIff` is the exact condition on a deployment: exactly-once holds of all its runs if and only if
  it has one replica, or seals nothing (batch size 0), or names a first leader that is no replica. `examples/apollo/node/src/main.rs:146` names
  replica 0, so with two replicas or more it does not hold there. `ApolloOnce.ApolloExactlyOnce` says what does hold: a run in which no batcher seals
  before its first round repeats nothing, and `BatcherOnce.WouldSeal` is the guard to watch.
- Artemis has the same batchers and the same early seals, yet repeats nothing in any run of any deployment (`ArtemisOnce.ArtemisExactlyOnce`): only the
  view leader turns batches into blocks, and no notice ever rolls a batch back. A batch that another replica's batcher seals early is never proposed.
- OptSync does not look at who voted already, so one vote delivered three times certifies a block whose child
  the followers then reject: `OptSyncCerts.RepeatedVotesBreakIt`. `OptSyncCerts.BuilderMeetsCheckerIff` gives the exact condition over all runs of a
  leader in one view.
- OptSync panics on a proposal whose view differs although nothing signs the view, and on a vote message of another kind:
  `OptSyncCerts.ReactKeeps` shows these two inputs are the only ones it panics on.
- In Artemis a block that comes as the answer to a request is delivered without a look at its author and signature (`message.rs:65-85`), so for arbitrary
  messages a follower may hold blocks nobody vouched for: `ArtemisRecords.FetchedIsNotChecked`. `ArtemisRecords.BlocksAreVouched` shows that this is the only way.
- In Artemis a fetched block whose parent is missing makes the replica ask for that same block again
  (`message.rs:80`); no progress of the fetch is claimed.
- `commit` of the pool sweeps only mineable transactions, so a key at or below the watermark may stay in flight; nonce 0 is
  never admitted; a batch size of 0 seals empty batches.

## Model

| member | source | states |
|---|---|---|
| TxPool.Txpool.AddTx | mempool/src/tx_pool.rs:90-101 | a transaction becomes mineable unless it is subsumed or in flight; a newer copy replaces the old one and the byte counter stays the sum of the sizes |
| TxPool.Txpool.AdmitProposal | mempool/src/tx_pool.rs:107-133 | every new key of the batch goes in flight at the round, known ones keep their first entry, the byte counter loses what left the mineable table |
| TxPool.Txpool.MakeBatch | mempool/src/tx_pool.rs:139-162 | exactly the keys of `Seal` leave the pool and their transactions are returned in that order |
| TxPool.Txpool.Commit | mempool/src/tx_pool.rs:166-208 | watermarks rise to the committed nonces, the batch's keys leave the in-flight tables and nothing at or below a watermark stays mineable, although the loop breaks this on the way |
| TxPool.Txpool.Rollback | mempool/src/tx_pool.rs:212-230 | everything in flight at the rounds returns to the pool unless it is subsumed, in whatever order the key sets are visited |
| TxPool.Txpool.IsReady | mempool/src/tx_pool.rs:237-239 | true exactly when the mineable bytes exceed the batch size |
| TxPool.Txpool.KeySetsDisjoint | mempool/src/tx_pool.rs:247-254 | the debug check never fails on a valid pool |
| PoolLaws.AddTxInv | mempool/src/tx_pool.rs:90-101 | adding keeps the pool invariant: disjoint tables, index by round in agreement, entries under their own keys, mineable nonces above the watermark |
| PoolLaws.AdmitInv | mempool/src/tx_pool.rs:107-133 | admitting keeps the pool invariant |
| PoolLaws.MakeBatchInv | mempool/src/tx_pool.rs:139-162 | sealing keeps the pool invariant |
| PoolLaws.CommitInv | mempool/src/tx_pool.rs:166-208 | committing re-establishes the pool invariant |
| PoolLaws.RollbackInv | mempool/src/tx_pool.rs:212-230 | rolling back keeps the pool invariant |
| PoolLaws.SealIsSeal | mempool/src/tx_pool.rs:139-162 | the sealed keys are the smallest ones, strictly ascending, cut at the first point where they hold the batch size or the pool is empty |
| PoolLaws.SealUnique | mempool/src/tx_pool.rs:139-162 | there is only one such list of keys |
| PoolLaws.ReadyFillsBatch | mempool/src/tx_pool.rs:237-239 | a ready pool fills the batch size |
| PoolLaws.SealThenRollback | mempool/src/tx_pool.rs:212-230 | with nothing in flight at a round, sealing for it and rolling it back restores the mineable and in-flight tables exactly |
| PoolLaws.RaiseIsMax | mempool/src/tx_pool.rs:166-183 | a commit raises each client's watermark to the maximum of the old one and the batch's nonces |
| PoolRuns.RunKeepsInv | mempool/src/tx_pool.rs:46-230 | the pool invariant holds after every sequence of events |
| PoolRuns.PhaseMoves | mempool/src/tx_pool.rs:90-230 | each event moves each key only along the allowed moves between unknown, waiting, in flight and done |
| PoolRuns.ExactMoves | mempool/src/tx_pool.rs:90-230 | where a key is after an event follows from the event, from where it was, and from whether a seal returns it |
| PoolRuns.EntryMoves | mempool/src/tx_pool.rs:90-230 | the transaction and size held under a key: a client's newer copy replaces a waiting one, a proposal's copy replaces it and keeps its size, nothing else changes it |
| PoolRuns.CommitLands | mempool/src/tx_pool.rs:166-183 | after a commit no key of its batch is in flight, no empty index entry is left for its round, and every other entry is as before |
| PoolRuns.SealMoves | mempool/src/tx_pool.rs:139-162 | sealing moves exactly the returned keys, from waiting to in flight at the round |
| PoolRuns.NeverLost | mempool/src/tx_pool.rs:90-230 | a key once known is mineable, in flight or at or below the watermark ever after |
| PoolRuns.DoneForGood | mempool/src/tx_pool.rs:90-230 | a key at or below its client's watermark stays there and is never sealed again |
| PoolRuns.ExactlyOnce | mempool/src/tx_pool.rs:90-230 | between two seals of the same key there is a rollback naming the round of the first |
| PoolRuns.WatermarkHistory | mempool/src/tx_pool.rs:166-208 | a client's watermark is the largest nonce it ever committed, 0 if none |
| RRBatcher.RoundRobin.OnTick | mempool/src/rr_batcher.rs:97-104 | a timer tick seals for the current round when this node leads and has not sent |
| RRBatcher.RoundRobin.OnTx | mempool/src/rr_batcher.rs:105-118 | a transaction is pooled, and a full pool is sealed when this node leads and has not sent |
| RRBatcher.RoundRobin.TryPropose | mempool/src/rr_batcher.rs:153-164 | seals when allowed and ready; an empty batch is not sent |
| RRBatcher.RoundRobin.OnConsensus | mempool/src/rr_batcher.rs:119-141 | each consensus notice makes the corresponding step of the batcher; `BatcherRuns.NewRoundSealsIff` says when a new round makes it send, `BatcherRuns.StepPhases` what each notice does to every key |
| BatcherSpec.OneBatchPerEpoch | mempool/src/rr_batcher.rs:88-164 | in every interleaving, between two sent batches there is a `NewRound` |
| BatcherSpec.SendsAreDisciplined | mempool/src/rr_batcher.rs:88-164 | a sent batch is not empty, its epoch's leader is this node, and all of it is in flight at the epoch's round |
| BatcherOnce.StepIsNew | mempool/src/rr_batcher.rs:88-164 | keys that are in flight or subsumed stay so without a rollback and are in no batch sent; a sent batch has no key twice |
| BatcherRuns.NewRoundSealsIff | mempool/src/rr_batcher.rs:124-130 | a new round makes the batcher send at once exactly when this node leads it and more than one batch, of a size above 0, is waiting |
| BatcherRuns.NoticesAreSilent | mempool/src/rr_batcher.rs:131-139 | no other notice makes it send |
| BatcherRuns.SendsTheSeal | mempool/src/rr_batcher.rs:97-164 | whatever makes it send, it sends the transactions of the pool's seal, and they are in flight at the epoch's round |
| BatcherRuns.StepPhases | mempool/src/rr_batcher.rs:88-164 | a step moves every key as the input and the batch that was sent say, and no other way |
| BatcherRuns.RunPhases | mempool/src/rr_batcher.rs:88-164 | over every run, where a key is follows from the inputs and the sent batches alone |
| NodeParts.BlockIndex.AddDeliveredBlock | types/src/msg/storage.rs:65-70 | both delivered indexes gain the block and the committed sets stay |
| NodeParts.BlockIndex.AddCommittedBlock | types/src/msg/storage.rs:72-75 | both committed sets gain the block and the delivered indexes stay |
| NodeParts.BlockIndex.CommitBack | consensus/apollo/src/node/commit.rs:13-18 | the walking loop ends, fails exactly when the walk does, otherwise commits what the walk commits and lists it newest first; a failed walk loses nothing stored |
| NodeParts.BatchTable.Insert | mempool/src/cache.rs:38-46 | first writer wins |
| NodeParts.BatchTable.PersistBatch | consensus/apollo/src/node/context.rs:215-224 | cache and store gain the batch |
| NodeParts.BatchTable.ReadCached | consensus/apollo/src/node/context.rs:227-246 | cache first, then the store, filling the cache |
| NodeParts.BatchTable.Announce | consensus/apollo/src/node/commit.rs:31-50 | the reversed loop announces oldest first, to batcher and router alike |
| Blocks.ReadsAgree | consensus/apollo/src/node/context.rs:227-246 | with content-addressed tables a read returns a batch with the asked hash, from the cache or the store, and the two agree |
| Blocks.PersistKeeps | consensus/apollo/src/node/context.rs:215-224 | persisting keeps the tables content-addressed and the hash ends up in the cache |
| Blocks.PersistIsDurable | consensus/apollo/src/node/context.rs:215-246 | what was persisted is read back by a node that starts with an empty cache |
| Blocks.FirstWriterWins | mempool/src/cache.rs:38-46 | an entry that is cached already is not replaced, a new one is added, and nothing else changes |
| Blocks.DeliveredLookups | types/src/msg/storage.rs:65-70 | a delivered block is found by hash and by height, and all other lookups are as before |
| Blocks.WalkSucceedsIff | consensus/artemis/src/node/commit.rs:21-30 | the commit walk meets no missing block exactly when every uncommitted ancestor is delivered |
| Blocks.WalkResult | consensus/artemis/src/node/commit.rs:21-30 | the walk commits exactly the uncommitted ancestors and lists them oldest first |
| Blocks.FreshShape | consensus/artemis/src/node/commit.rs:21-37 | over a closed committed set these are the ancestors not yet committed, each once, parents first |
| Blocks.EmitAvailable | consensus/artemis/src/node/commit.rs:37-58 | with the batches cached the announcing loop skips nothing |
| LeaderRotation.RotationPartition | consensus/artemis/src/node/context.rs:190-211 | in every round the last f leaders and the eligible ones partition the n replicas |
| LeaderRotation.ChosenByDigest | consensus/artemis/src/node/context.rs:190-224 | the next leader stands where the digest of its round points among the eligible, the oldest recent leader takes its place, and it joins the recent ones at the end |
| LeaderRotation.LeadersDiffer | consensus/artemis/src/node/context.rs:202-224 | any f + 1 consecutive round leaders are pairwise different |
| LeaderRotation.SomeLeaderIsCorrect | consensus/artemis/src/node/context.rs:202-224 | among any f + 1 consecutive leaders one is outside any set of f replicas |
| ArtemisDelivery.DrainKeeps | consensus/artemis/src/node/coordinator.rs:105-119 | the drain loop wakes every parked descendant and restores closure and the bijection of parked blocks |
| ArtemisDelivery.DeliverKeeps | consensus/artemis/src/node/coordinator.rs:89-126 | delivering a new block whose parent is delivered keeps the ledger invariant and everything delivered before |
| ArtemisSafety.DoCommitKeeps | consensus/artemis/src/node/commit.rs:14-59 | after a commit exactly the ancestors of the blocks voted up to round minus f are committed, and no lookup fails |
| ArtemisSafety.OnVoteKeeps | consensus/artemis/src/node/round_vote.rs:76-105 | any vote for the current round and a delivered block keeps the replica's invariant and does not halt it |
| ArtemisSafety.ReactKeeps | consensus/artemis/src/node/reactor.rs:76-123 | every turn of the reactor keeps the invariant for arbitrary messages and halts exactly on a blame |
| ArtemisRuns.DeliveryClosure | consensus/artemis/src/node/coordinator.rs:89-126 | after any run: ancestors of delivered blocks are delivered, parked blocks and missing parents are in bijection, no vote waits for a delivered block, every ready vote names a delivered block |
| ArtemisRuns.CommitRefinement | consensus/artemis/src/node/commit.rs:14-30 | after any run a hash is committed exactly when it is an ancestor of a block voted in rounds 1 to round - 1 - f |
| ArtemisRuns.AnnouncedInOrder | consensus/artemis/src/node/commit.rs:21-58 | over any run each committed block is announced once, after its parent, and exactly the announced batches reach router and batcher |
| ArtemisRuns.AnnouncedGrows | consensus/artemis/src/node/commit.rs:37-58 | what was announced at some moment of a run is a prefix of what is announced later |
| ArtemisRuns.BatchesAvailable | consensus/artemis/src/node/context.rs:285-316 | after any run every delivered block except genesis has its batch in the cache and in the store under its content hash, and reads agree |
| ArtemisRuns.LeaderOfRound | consensus/artemis/src/node/context.rs:202-224 | after any run the leader is a function of n, f and the round, and `next_round_leader` predicts the next one |
| ArtemisRuns.RunInv | consensus/artemis/src/node/reactor.rs:76-123 | over any run the replica halts exactly if a blame was received |
| ArtemisRecords.VotesIff | consensus/artemis/src/node/round_vote.rs:10-38 | a replica casts a vote, for its head and to everybody, exactly when it leads the round and its head is above the block voted last |
| ArtemisRecords.NoVoteOwed | consensus/artemis/src/node/reactor.rs:117-122 | over any run a replica that still runs does not lead its round with a head above the block voted last |
| ArtemisRecords.VotesAreSigned | consensus/artemis/src/node/round_vote.rs:76-105 | over any run the vote recorded for a round is signed by that round's leader, or this replica leads it, and the next leader was sent it |
| ArtemisRecords.HeadsAreTold | consensus/artemis/src/node/coordinator.rs:89-126 | over any run the batcher is told ever higher rounds of the view leader, the last one right above the head |
| ArtemisRecords.BlocksAreVouched | consensus/artemis/src/node/coordinator.rs:49-83 | over any run a follower delivers only genesis, blocks the view leader made and signed, and blocks fetched from a peer |
| ArtemisRecords.FetchedIsNotChecked | consensus/artemis/src/node/message.rs:65-85 | a concrete run after which a follower holds an unsigned block of somebody else, fetched from a peer |
| ArtemisRecords.MakesBlock | consensus/artemis/src/node/coordinator.rs:15-45 | the view leader's block sits on its head, carries the batch and its signature, and is sent to everybody, told to the batcher and delivered |
| ArtemisRecords.DeliversIff | consensus/artemis/src/node/coordinator.rs:49-83 | a new block is delivered exactly when its batch matches, its parent is there, and the view leader made and signed it |
| ArtemisRecords.FetchedIff | consensus/artemis/src/node/message.rs:65-85 | a fetched block is delivered exactly when its batch matches and its parent is there, and is otherwise parked below its parent and asked for |
| ArtemisRecords.AnswersRequest | consensus/artemis/src/node/request.rs:9-38 | a request for a delivered or parked block is answered to its sender with that block and its batch, any other is not |
| ArtemisRecords.SortsVotes | consensus/artemis/src/node/round_vote.rs:41-105 | an old vote is dropped, one whose block is missing is parked and the block asked for, an early one is kept, and one for the round is accepted exactly if its leader signed it or this replica leads |
| ArtemisRecords.HeadOnlyRises | consensus/artemis/src/node/coordinator.rs:89-126 | a delivery moves the head only to a taller block, always if the delivered block is taller, and tells the batcher exactly then |
| ArtemisRecords.SendsElsewhere | consensus/artemis/src/node/comms.rs:11-20 | a send to oneself does nothing, any other send puts that message out to that replica |
| ArtemisAgreement.ReactAgrees | consensus/artemis/src/node/reactor.rs:76-123 | a turn of a code-following replica extends the one list of votes only in rounds it leads; the view leader extends the one chain by one block per waiting batch, in their order, and keeps none back, nobody else extends it |
| ArtemisAgreement.DoNewBlockAgrees | consensus/artemis/src/node/coordinator.rs:15-45 | the view leader's block extends the chain by exactly one block |
| ArtemisAgreement.DoRoundVoteAgrees | consensus/artemis/src/node/round_vote.rs:24-38 | a round leader's vote is the next one of the list and names a taller block of the chain |
| ArtemisCluster.ArtemisAgrees | consensus/artemis/src/node/round_vote.rs:10-105 | in every run of code-following replicas any two of them, at any two moments, hold the same vote for each round both passed, later rounds vote for taller blocks, and committed chains and routed batches are prefixes of one another |
| ArtemisProgress.NoVoteLost | consensus/artemis/src/node/round_vote.rs:41-105 | in every run a replica that was handed the votes of rounds 1 to k, in any order and before or after their blocks, and has those blocks, is past round k after its next burst |
| ArtemisProgress.CatchUp | consensus/artemis/src/node/message.rs:24-63 | from every state of every run one turn on messages that were sent takes any replica to the furthest round anybody is in, with everything committed that anybody has committed |
| ArtemisProgress.EverythingWasSent | consensus/artemis/src/node/coordinator.rs:28-33 | at every moment each block of the chain and each vote of the list has been sent to everybody by its maker, and the chain is signed by the view leader |
| ArtemisOnce.NextKeeps | consensus/artemis/src/node/reactor.rs:76-123 | every step of replicas, batchers and queues, with any delay, keeps the chain equal to what the view leader has taken from its batcher |
| ArtemisOnce.ArtemisSealedOrder | consensus/artemis/src/node/reactor.rs:117-121 | in every run of every deployment the block at height r, wherever it was delivered, carries the r-th batch the view leader's batcher sealed, what any replica hands to the router is a prefix of those batches, and they share no key |
| ArtemisOnce.ArtemisExactlyOnce | consensus/artemis/src/node/commit.rs:14-59 | in every run of every deployment no key is in two different blocks delivered at whichever replicas or twice in one, and no replica hands a key to the router twice |
| ChainOnce.FeedOnce | mempool/src/rr_batcher.rs:88-139 | whatever a batcher is given, short of a rollback, it never sends a key it has sent before |
| ArtemisNode.InitialLeaders | consensus/artemis/src/node/context.rs:190-195 | the two loops build the initial partition |
| ArtemisNode.Context.GoToNextRound | consensus/artemis/src/node/context.rs:202-211 | one rotation of the leader queue |
| ArtemisNode.Context.NextRoundLeader | consensus/artemis/src/node/context.rs:213-224 | the predicted leader and its place among the eligible ones |
| ArtemisNode.Context.SendTo | consensus/artemis/src/node/comms.rs:11-20 | a message to oneself is dropped, any other is sent |
| ArtemisNode.Context.DrainParked | consensus/artemis/src/node/coordinator.rs:105-119 | the loop ends, refines `Drain`, so `ArtemisDelivery.DrainKeeps` applies, and reports exactly whether the head advanced |
| ArtemisNode.Context.DeliverBlock | consensus/artemis/src/node/coordinator.rs:89-126 | refines `DoDelivery`, so `ArtemisDelivery.DeliverKeeps` applies: closure, bijection and wake-up hold after it, and the batcher hears of a new head |
| ArtemisNode.Context.ReceiveNewBlock | consensus/artemis/src/node/coordinator.rs:49-80 | refines `OnNewBlock`: only a new, signed block of the view leader with a delivered parent is delivered |
| ArtemisNode.Context.ReceiveFetched | consensus/artemis/src/node/message.rs:65-84 | refines `UpdateDelivery`: a fetched block is delivered or parked under its missing parent, at most one per parent |
| ArtemisNode.Context.AnswerRequest | consensus/artemis/src/node/request.rs:9-37 | refines `HandleRequest`: a stored or parked block is answered with its batch, anything else is not answered |
| ArtemisNode.Context.MakeNewBlock | consensus/artemis/src/node/coordinator.rs:15-45 | refines `DoNewBlock`, so `ArtemisRecords.MakesBlock` and `ArtemisAgreement.DoNewBlockAgrees` apply |
| ArtemisNode.Context.Commit | consensus/artemis/src/node/commit.rs:14-59 | refines `DoCommit`, so `ArtemisSafety.DoCommitKeeps` applies; its walk is proved not to fail |
| ArtemisNode.Context.ReceiveRoundVote | consensus/artemis/src/node/round_vote.rs:76-105 | refines `OnVote` and keeps the replica's invariant; neither the vote nor the block it looks up is ever missing |
| ArtemisNode.Context.TryReceiveRoundVote | consensus/artemis/src/node/round_vote.rs:41-74 | refines `TryVote` and keeps the invariant: old votes are dropped, future ones kept, votes for missing blocks parked |
| ArtemisNode.Context.TryVoteForHead | consensus/artemis/src/node/round_vote.rs:10-38 | refines `TryRoundVote` and keeps the invariant, so by `ArtemisRecords.VotesIff` it votes exactly when it leads and its head is above the block voted last |
| ArtemisNode.Context.BufferMessage | consensus/artemis/src/node/message.rs:12-21 | each message goes to the end of its queue |
| ArtemisNode.Context.ProcessBlocks | consensus/artemis/src/node/message.rs:26-33 | the loop handles all queued blocks in order |
| ArtemisNode.Context.ProcessResponses | consensus/artemis/src/node/message.rs:35-42 | the loop handles all queued responses in order |
| ArtemisNode.Context.ProcessReadyVotes | consensus/artemis/src/node/message.rs:43-45 | the loop ends with no ready vote for the current round |
| ArtemisNode.Context.ProcessOthers | consensus/artemis/src/node/message.rs:46-57 | the loop halts exactly on a blame |
| ArtemisNode.Context.ProposePending | consensus/artemis/src/node/reactor.rs:117-122 | all pending batches become blocks, then a vote is tried |
| ArtemisNode.Context.OnMessages | consensus/artemis/src/node/reactor.rs:86-123 | one turn of the reactor on a burst of messages |
| ArtemisNode.Context.OnSealed | consensus/artemis/src/node/reactor.rs:104-123 | one turn of the reactor on a sealed batch |
| ApolloBuffers.CommitHaltsIff | consensus/apollo/src/node/commit.rs:9-18 | a commit fails exactly when an uncommitted ancestor of the block that is due is not stored; the look-up of the due proposal never fails |
| ApolloBuffers.OnProposalKeeps | consensus/apollo/src/node/proposal.rs:93-140 | for arbitrary messages, accepting stops the replica exactly when an uncommitted ancestor of the block that becomes due is not stored, and otherwise keeps the invariant |
| ApolloBuffers.DrainKeeps | consensus/apollo/src/node/message.rs:118-130 | draining what is parked never stops at the look-up of a child's block: the replica runs on with its invariant, or it is stuck at a commit whose ancestor is missing |
| ApolloBuffers.DrainCount | consensus/apollo/src/node/message.rs:118-130 | a drain never raises the number of buffered proposals |
| ApolloBuffers.ReplayOne | consensus/apollo/src/node/message.rs:36-38 | each turn of the replay loop strictly lowers the number of buffered proposals |
| ApolloBuffers.ReplayKeeps | consensus/apollo/src/node/message.rs:36-38 | the replay loop ends with nothing buffered for the current round |
| ApolloBuffers.NextLeaderOf | consensus/apollo/src/node/context.rs:202-212 | `next_of` walks through the replicas in turn: the leader of round r is (r - 1) mod n |
| ApolloBuffers.ReactKeeps | consensus/apollo/src/node/reactor.rs:65-110 | for arbitrary messages a turn of the reactor stops the replica exactly when it handles a blame or a commit that is due has an uncommitted ancestor that is not stored; otherwise the invariant is kept |
| ApolloRuns.RunHaltsIff | consensus/apollo/src/node/reactor.rs:65-110 | over any run a replica has stopped exactly if it handled a blame or is stuck at a commit with a missing ancestor; no other `unwrap` or `expect` ever fails |
| ApolloRuns.BuffersSound | consensus/apollo/src/node/message.rs:60-131 | after any run, stopped or not, every parked proposal's block is stored with the parked key as its parent, and every kept proposal sits under its round with block and parent stored |
| ApolloRuns.NothingLeftForRound | consensus/apollo/src/node/message.rs:36-39 | after any run, handling any burst leaves nothing kept for the round it ends in |
| ApolloRuns.RoundsAndLeaders | consensus/apollo/src/node/context.rs:186-212 | after any run exactly the rounds below the current one have an accepted proposal, and leaders take turns |
| ApolloRuns.AnnouncedInOrder | consensus/apollo/src/node/commit.rs:31-50 | over any run each committed block is announced once, after its parent, with nothing skipped |
| ApolloRuns.BatchesAvailable | consensus/apollo/src/node/context.rs:215-246 | after any run every stored block except genesis has its batch in the cache and in the store under its content hash, and reads agree |
| ApolloRuns.CommitWalkCanFail | consensus/apollo/src/node/commit.rs:13-18 | a concrete run of three messages after which the commit walk's `unwrap` has failed |
| ApolloRecords.AcceptedAreSigned | consensus/apollo/src/node/proposal.rs:52-86 | over any run the proposal accepted for a round was made, for a block of its own, by that round's leader, and is signed by it unless it is this replica's own |
| ApolloRecords.AcceptedArePassedOn | consensus/apollo/src/node/proposal.rs:93-140 | over any run the next leader was sent every accepted proposal, the batcher was told every accepted batch and each round once and in order, and the head is the block accepted last |
| ApolloRecords.AcceptsIff | consensus/apollo/src/node/proposal.rs:52-140 | a proposal of the current round is accepted exactly when its leader made block and proposal and signed it, and no other block of that author was stored last at the height |
| ApolloRecords.AnswersRequest | consensus/apollo/src/node/request.rs:9-37 | a request for an accepted proposal is answered to its sender with the proposal, its block and its batch, any other is not |
| ApolloRecords.AsksSender | consensus/apollo/src/node/message.rs:60-131 | a missing parent, or the missing block of a relayed proposal, is asked for at the sender while the proposal is parked |
| ApolloRecords.NoLongerWaits | consensus/apollo/src/node/message.rs:60-131 | a proposal whose parent is stored no longer waits for its block, and no other stops waiting |
| ApolloRecords.NoProposalOwed | consensus/apollo/src/node/reactor.rs:92-110 | over any run a replica that still runs holds back no batch in a round it leads |
| ApolloRecords.SendsElsewhere | consensus/apollo/src/node/comms.rs:13-23 | a send to oneself does nothing, any other send puts that message out to that replica |
| ApolloAgreement.OnProposalGood | consensus/apollo/src/node/proposal.rs:93-140 | among code-following replicas the current round's proposal is accepted, commits exactly the blocks due, and tells the batcher of the batch before the next round |
| ApolloAgreement.CommitOnChain | consensus/apollo/src/node/commit.rs:6-51 | a commit in round r announces the chain up to round r - f and its walk never fails |
| ApolloAgreement.DoProposeGood | consensus/apollo/src/node/proposal.rs:11-49 | a leader's proposal extends the chain by one block on top of the previous round's |
| ApolloAgreement.ReactGood | consensus/apollo/src/node/reactor.rs:65-110 | a turn of a code-following replica keeps it on the one chain and extends it only in rounds it leads |
| ApolloCluster.ApolloAgrees | consensus/apollo/src/node/commit.rs:6-51 | in every run of code-following replicas no one halts, each round has at most one proposal and it extends the previous round's, any two replicas accepted the same proposals, a replica in round r has committed exactly the blocks up to r - 1 - f, and committed chains and routed batches are prefixes of one another |
| ApolloProgress.ProcessKept | consensus/apollo/src/node/message.rs:7-39 | handling a burst loses no kept proposal, keeps or passes every one that came with its block and every relayed one whose block is stored, and leaves none for the round it ends in |
| ApolloProgress.NoProposalLost | consensus/apollo/src/node/message.rs:7-131 | in every run a replica that was handed the proposals of rounds 1 to k, in any order and bursts, or led those rounds, is past round k |
| ApolloProgress.CatchUp | consensus/apollo/src/node/message.rs:7-131 | from every state of every run one turn on messages that were sent takes any replica to the furthest round anybody is in, with everything committed that anybody has committed |
| BatcherOnce.SealsIff | mempool/src/rr_batcher.rs:97-118 | a tick or a transaction makes the batcher send exactly when it is its turn, the batch size is not 0 and there is something to seal, on a transaction more than the batch size |
| ApolloOnce.HearRound | mempool/src/rr_batcher.rs:124-130 | when a batcher hears of a round, nothing it sealed is under way, and an own epoch is the replica's current round |
| ApolloOnce.NextKeeps | consensus/apollo/src/node/proposal.rs:93-140 | every step of replicas, batchers and queues keeps the history free of repeated keys, unless the guard of sealing holds in a batcher that has not heard of a round yet |
| ApolloOnce.ApolloExactlyOnce | consensus/apollo/src/node/proposal.rs:93-140 | in a run in which that never happens no key appears in two proposals accepted at different rounds at whichever replicas, nor twice in one |
| ApolloOnce.CommittedOnce | consensus/apollo/src/node/commit.rs:31-50 | in such a run nothing a replica hands to the router contains a key twice |
| ApolloEarlySeal.EarlySealRepeats | mempool/src/rr_batcher.rs:65-86 | for every plan with at least two replicas, a batch size above 0 and a first leader among the replicas there is a run, in which every transaction has its own serialized size, after which a replica has accepted one transaction in two rounds |
| ApolloEarlySeal.RouterRepeats | consensus/apollo/src/node/commit.rs:6-51 | for the same plans there is a run after which a replica has handed one transaction to the router twice |
| ApolloExact.ExactlyOnceIff | mempool/src/rr_batcher.rs:65-86 | over all runs of a plan no key is accepted in two rounds, and none is routed twice, if and only if there is one replica, or the batch size is 0, or the first leader is no replica |
| ApolloNode.Context.GoToNextRound | consensus/apollo/src/node/context.rs:186-200 | next leader in turn, next round, and the batcher is told |
| ApolloNode.Context.Commit | consensus/apollo/src/node/commit.rs:6-51 | refines `DoCommit`; when the walk fails the object differs from it only in blocks already marked as committed |
| ApolloNode.Context.RecordProposal | consensus/apollo/src/node/proposal.rs:107-132 | relay, record and tell the batcher |
| ApolloNode.Context.ReceiveProposal | consensus/apollo/src/node/proposal.rs:93-140 | refines `OnProposal`, so `ApolloBuffers.OnProposalKeeps` applies |
| ApolloNode.Context.TryReceiveProposal | consensus/apollo/src/node/proposal.rs:52-83 | refines `TryReceive`: past proposals are dropped, future ones kept, the current one accepted exactly as `ApolloRecords.AcceptsIff` says |
| ApolloNode.Context.ResumeParked | consensus/apollo/src/node/message.rs:118-130 | the loop refines `DrainParked` and ends; the `expect` on the child's block never fails |
| ApolloNode.Context.ResolveProposal | consensus/apollo/src/node/message.rs:98-131 | refines `Resolve`: park under the missing parent, or handle and resume what was parked below |
| ApolloNode.Context.CheckFull | consensus/apollo/src/node/message.rs:60-84 | the delivery check of a proposal with block and batch |
| ApolloNode.Context.CheckBare | consensus/apollo/src/node/message.rs:85-96 | the delivery check of a proposal alone |
| ApolloNode.Context.AnswerRequest | consensus/apollo/src/node/request.rs:9-37 | refines `HandleRequest`: only accepted proposals are served, with block and batch |
| ApolloNode.Context.Lead | consensus/apollo/src/node/proposal.rs:11-49 | refines `DoPropose`, so `ApolloAgreement.DoProposeGood` applies |
| ApolloNode.Context.BufferMessage | consensus/apollo/src/node/message.rs:41-53 | each message goes to the end of its queue |
| ApolloNode.Context.ProcessProposals | consensus/apollo/src/node/message.rs:9-11 | the loop handles all queued proposals in order |
| ApolloNode.Context.ProcessRelays | consensus/apollo/src/node/message.rs:13-15 | the loop handles all queued relays in order |
| ApolloNode.Context.ProcessOthers | consensus/apollo/src/node/message.rs:17-34 | the loop answers requests and panics on a blame |
| ApolloNode.Context.ProcessFuture | consensus/apollo/src/node/message.rs:36-38 | the replay loop terminates and leaves nothing for the round it ends in |
| ApolloNode.Context.ProposePending | consensus/apollo/src/node/reactor.rs:106-109 | the loop proposes while this replica leads |
| ApolloNode.Context.OnMessages | consensus/apollo/src/node/reactor.rs:74-109 | one turn of the reactor on a burst of messages; it stops for a blame exactly when it handles one, and never at another look-up than the commit walk's |
| ApolloNode.Context.OnSealed | consensus/apollo/src/node/reactor.rs:92-109 | one turn of the reactor on a sealed batch |
| OptSyncCerts.OnProposalKeeps | consensus/optsync/src/node/proposal.rs:88-154 | votes are kept for delivered blocks only, so a proposal never finds an own vote in place; it panics exactly on a differing view |
| OptSyncCerts.OnVoteKeeps | consensus/optsync/src/node/vote.rs:37-89 | a vote message panics exactly when a known replica sends a certificate of another kind |
| OptSyncCerts.ReactKeeps | consensus/optsync/src/node/reactor.rs:39-88 | every turn keeps the invariant for arbitrary input and halts on exactly two kinds of input |
| OptSyncCerts.VotesAreForDelivered | consensus/optsync/src/node/proposal.rs:116-154 | over any run the "Already have a vote" panic is unreachable and every vote is for a delivered block |
| OptSyncCerts.AddVoteKeeps | consensus/optsync/src/node/vote.rs:7-35 | any verified vote of the view, repeated or not, keeps every certificate verifiable and on its own block |
| OptSyncCerts.AddVoteDistinct | consensus/optsync/src/node/vote.rs:7-35 | a vote delivered for the first time repeats no voter in any certificate |
| OptSyncCerts.LeaderRun | consensus/optsync/src/node/reactor.rs:39-88 | over every run of the leader in one view its certificates are verifiable, whatever votes are repeated, and name no voter twice if none is |
| OptSyncCerts.BuiltPassesIff | consensus/optsync/src/node/proposal.rs:10-79 | a follower whose last seen block is the parent passes the leader's next proposal exactly when the parent is genesis or at least f different replicas voted |
| OptSyncCerts.BuilderMeetsCheckerIff | consensus/optsync/src/node/proposal.rs:10-209 | over every run of the leader in one view, with any votes repeated, its next proposal passes that follower's check if and only if the parent is genesis or at least f different replicas voted |
| OptSyncCerts.BuilderMeetsChecker | consensus/optsync/src/node/proposal.rs:10-209 | if each vote is delivered once, whatever the leader builds in such a run passes |
| OptSyncCerts.RepeatedVotesBreakIt | consensus/optsync/src/node/vote.rs:7-35 | a concrete run in one view in which a vote delivered three times makes the next proposal fail the check |
| OptSyncQuorum.AddVoteDecides | consensus/optsync/src/node/vote.rs:7-35 | the first vote decides nothing, a later one decides exactly when four times the votes exceed 3n - 4 |
| OptSyncQuorum.QuorumsOverRuns | consensus/optsync/src/node/vote.rs:7-35 | over any run a certificate is responsive exactly when counted votes brought it to three quarters, and its block is then committed; it is full exactly when they brought it above f |
| OptSyncQuorum.VotesAreSigned | consensus/optsync/src/node/vote.rs:37-89 | over any run every vote of a certificate is signed for that block by the known replica it names |
| OptSyncQuorum.EachBlockAnnounced | consensus/optsync/src/node/proposal.rs:116-209 | over any run each block but genesis is announced once, by a vote or as an own proposal, and handed to the commit timer once |
| OptSyncQuorum.FollowersVet | consensus/optsync/src/node/proposal.rs:10-79 | over any run a follower voted only for proposals the leader signed that, above height 1, carried verified votes for the parent by at least f replicas |
| OptSyncQuorum.NothingHeldBack | consensus/optsync/src/node/reactor.rs:39-88 | over any run the leader is never left with a batch it could propose |
| OptSyncQuorum.CountsIff | consensus/optsync/src/node/vote.rs:37-89 | a vote is counted, and appended, exactly when it is one verified vote of a known replica for a stored, undecided block that is the last of its height |
| OptSyncQuorum.AcceptsIff | consensus/optsync/src/node/proposal.rs:88-154 | a proposal is taken in and queued under exactly the conditions the follower has to check |
| OptSyncQuorum.ProposesOnHead | consensus/optsync/src/node/proposal.rs:156-209 | the leader proposes a block on its head with the batch and the head's certificate, sends it and queues it |
| OptSyncQuorum.CommitsIff | consensus/optsync/src/node/commit.rs:10-42 | a commit takes exactly the proposal's block, if it is stored |
| OptSyncQuorum.VotesAreCounted | consensus/optsync/src/node/vote.rs:37-89 | the vote a follower sends for a block is counted by a leader that holds it undecided |
| OptSyncQuorum.BatchesAvailable | consensus/optsync/src/node/proposal.rs:88-154 | over any run every block but genesis has its batch in the cache and in the store under its content hash |
| OptSyncQuorum.TimerCommits | consensus/optsync/src/node/commit.rs:10-42 | when the timer of a queued proposal fires, its block is committed |
| OptSyncNode.Context.AddOneVote | consensus/optsync/src/node/vote.rs:7-35 | refines `AddVote`, so `OptSyncCerts.AddVoteKeeps` applies, and by `OptSyncQuorum.AddVoteDecides` the flag says exactly when three quarters are reached |
| OptSyncNode.Context.ReceiveVote | consensus/optsync/src/node/vote.rs:37-89 | refines `OnVote`: only a verified vote for a delivered block without a responsive certificate is added |
| OptSyncNode.Context.CheckVotes | consensus/optsync/src/node/proposal.rs:57-70 | the loop accepts exactly the certificates whose votes all verify, and collects their voters |
| OptSyncNode.Context.Check | consensus/optsync/src/node/proposal.rs:10-79 | the early returns and the loop decide exactly `CheckProposal` |
| OptSyncNode.Context.AcceptValid | consensus/optsync/src/node/proposal.rs:116-154 | refines `OnValid` without the panic branch |
| OptSyncNode.Context.ReceiveProposal | consensus/optsync/src/node/proposal.rs:88-114 | refines `OnProposal`; it proves that no own vote is in place when one is stored |
| OptSyncNode.Context.ProposeBatch | consensus/optsync/src/node/proposal.rs:156-209 | refines `DoPropose`, so `OptSyncCerts.BuilderMeetsChecker` applies to what it sends |
| OptSyncNode.Context.CommitBlock | consensus/optsync/src/node/commit.rs:10-42 | refines `OnCommit`: a delivered block is committed at most once |
| OptSyncNode.Context.OnEvent | consensus/optsync/src/node/reactor.rs:39-88 | one turn of the reactor; it halts on exactly the two kinds of input |

## Left out

- ApolloOnce.NextKeeps: leaves out steps in which a batcher seals before its first round, because the history can repeat a key after them (`ApolloEarlySeal.EarlySealRepeats`).
- ApolloOnce.ApolloExactlyOnce: the same steps are left out; `ApolloExact.ExactlyOnceIff` says for which deployments the property holds of all runs.
- ApolloOnce.CommittedOnce: the same steps are left out; the second half of `ApolloExact.ExactlyOnceIff` covers them.
- OptSyncCerts.BuilderMeetsChecker: leaves out runs with a repeated vote, because it fails there (`OptSyncCerts.RepeatedVotesBreakIt`); `OptSyncCerts.BuilderMeetsCheckerIff` covers all runs.
- Network senders and receivers, TLS, cancel handlers and their collection, the commit delay queue's clock: messages, ticks and timer events come in any order instead.
- Real hashing, signatures and serialization: a free constructor, a term and a round-tripping codec instead; blame certificates inside block headers are not modelled.
- Machine integers: rounds, heights, nonces and the pool's byte counter are unbounded; the counter is proved never to go below zero, its overflow is not modelled.
- The batch store's writes are done when `persist_batch` returns; a detached write that has not reached the disk yet is not modelled.
- The request counter is constant in the source and is the constant 0 here; the view is constant (0) in Artemis and OptSync.
- Blame handling and view change: they panic or are missing in the source; a blame halts the replica.
- The synchs protocol: its leader does not advance its own head when it proposes, so the chain results of the other protocols have no counterpart there.
- Quorum intersection for OptSync: the thresholds of the code do not give it, and nothing is claimed about it.
- Fetch progress in Artemis and liveness in general: the `CatchUp` lemmas say what one turn can always reach, no result says that something eventually happens.
- Clients, statistics, metrics and throughput sampling only observe a replica: nothing they do changes its state, so no property turns on them.
- Configuration loading and key decoding happen before a replica runs; the configuration is a parameter here.
- The legacy batcher, sealer and processor are a queue in front of the store without deduplication, and the confirmation router forwards what
  `toRouter` records; neither keeps state that the results above depend on.
