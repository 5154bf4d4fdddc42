# comm_network: a model of the chunked RDMA read protocol and of the start-up handshake

This project models, in Dafny, the two parts of comm_network that more than one machine
takes part in, and proves what the code relies on but nowhere writes down.

**The read protocol.** `DoRead` queues a record at the reading machine and asks the peer to
write.  The peer cuts the source region into chunks of one registered buffer, scatters each
chunk over the buffer's entries, and posts one RDMA write per entry; only the last write of a
chunk names the buffer.  The reader is told neither which read nor which offset a buffer belongs
to: it works both out from its own queue.  The buffer goes back with a `FreeBufferPair` message,
which is the only flow control and, apart from "the pending queue was empty", the only wake-up.

* `Config`, `MemDesc`, `Messages`, `Options` - sizes and their 64-bit and 32-bit arithmetic, the
  tiling of a region into entries, records, messages and memory, optional values.
* `Writer` and `WriteHelper` - the three-state write side: functions on values, and the class
  `IBVerbsWriteHelper` with its loops, proved against them.
* `Reader` and `QueuePair` - the read side cut into the steps between which other threads can run,
  and the class `IBVerbsQP` with `SyncRead` and the message handlers.
* `System` - the two machines, the application and the two in-order wires as one transition
  system whose poller steps are those functions.
* `Sanity`, `Stream`, `Ledger`, `Books`, `Invariant`, `Ownership`, `Delivery`, `Integrity`,
  `Completion`, `Liveness` - the invariant of that system, built up in this order.
* `Theorems` - what follows for every run; `Handout` - the order in which buffers are handed out;
  `Lockstep` - the pieces both machines compute;
  `Continuations` - every run can be completed; `Exceptions` - when the writing process ends with
  an exception, and what that leaves; `Cuts` and `AnyOrder` - requests posted out of order;
  `Witnesses` - runs in which things go wrong when a condition of the theorems does not hold;
  `Refinement` - the objects take the system's steps.
* `WorkRequests`, `WorkAccounts`, `WorkOrder` - work request ids and message buffers of a queue
  pair: the class, the steps of several threads, the accounts, and the order of completion and use.

**The start-up handshake.** `CtrlServer` holds the handlers for barriers and the blocking key/value
store, as functions, as a class, and over whole request sequences; `CtrlHistory` compares it with
the history of requests.  `Keys` has the key builders.
`Handshake` is `SetUp` run by any number of machines against one server each, in any interleaving;
`HandshakeProof` has the invariant and `HandshakeTheorems` the results.

## What the model assumes

* The wires are reliable and in order, and one poller thread serves a queue pair.
* Read requests are posted in the order in which their records were queued: this is
  `System.IsRun`.  The code does not guarantee it when several threads call `DoRead` for one peer,
  since queueing and posting are not under one lock.  `System.IsRunInAnyOrder` does without it: there
  a read is delivered as long as its own request and those before it are posted in order
  (`AnyOrder.DeliveredWhateverFollows`), and for any two requests of one size with different source
  addresses `Witnesses.OvertakingMisdelivers` is a run in which the first read is called back over
  the other's bytes.
* A read-done callback has been registered by the time its last piece is handled; until then the
  handler waits.  The code takes the front of the callback queue without looking.
* The application leaves a source region alone until its read-done callback, a destination until
  its read callback, and keeps the destinations of outstanding reads disjoint.  Everything else
  about the application is arbitrary: how many reads, of which sizes, when, and what it stores
  elsewhere meanwhile.
* There is at least one buffer, one entry, one byte per entry and one posted receive request; the
  number of blocks of a buffer fits the 32-bit count; buffer ids are smaller than `INT_MAX`, which
  marks an untagged write.  The code computes the number of receive requests as `SgeBytes /
  sizeof(Msg)`, which is zero for entries smaller than a message.

## What was found

* **Sizes.** `SgeBytes` rounds down.  If the entry count does not divide the buffer size, the bytes
  of a chunk beyond the entries are skipped by both copy loops while both offsets move past them,
  and the read still reports success.  `Delivery.SizesFit` is the exact condition under which every
  byte arrives: for servable reads they all do if it holds (`Theorems.ReadCallbackMeansDelivered`), and
  for any sizes and any read for which it does not, `Witnesses.MisfitLosesBytes` is a run whose
  callback is called over a destination that differs from the source.  4 MiB buffers with three
  entries are such a case.
* **Empty reads.** For a read of no bytes `transfer_bytes - 1` wraps to 2^64 - 1, and the entry
  count is what is left after narrowing to a signed 32-bit integer.  A caller can evaluate it
  (`Config.SgeCount(0)`, `Config.Servable`).  There are three cases:
  - *At least one*, as for 4 MiB buffers with three entries (`Config.ZeroByteReadServable`): the read
    is served like any other.
  - *Zero*, as for the default sizes (`Config.ZeroByteReadByDefault`) and all entry sizes that divide
    2^32 (`Config.ZeroByteReadNotServable`): no write is posted, and the buffer is gone.  Each id is
    in exactly one place if and only if the writer has written no such read, the number of missing
    ids is the number of such reads written (`Theorems.EveryBufferInOnePlace`), and a missing one
    never returns (`Theorems.LostBufferStaysLost`).  The reader takes the next chunk that does arrive
    for the empty read's: reads before it are delivered, and all reads after it are called back, if
    at all, over bytes of later chunks (`Theorems.ReadCallbackMeansDelivered`,
    `Theorems.ReaderIsInStep`).  With two buffers or more, `Witnesses.EmptyReadCorruptsTheNext` is a
    run in which this puts another read's byte into the read that follows.
  - *Negative*, as for 1 MiB buffers with 40 entries (`Config.ZeroByteReadNegative`): the posting loop
    counts in `size_t`, takes the count for a bound near 2^64, posts every block of the buffer
    untagged and throws in the poller thread, which ends the process.  A writer throws only on the
    first empty read issued (`Exceptions.ThrowsOnFirstEmptyRead`), and every run with an empty read
    comes to that (`Exceptions.RestIsThrowIffEmptyRead`, `Exceptions.EmptyReadEndsTheProcess`,
    `Witnesses.EmptyReadThrows`).  Then no buffer is lost (`Exceptions.NothingLost`), no read is ever
    called back over wrong bytes (`Exceptions.ThrowingPreventsCorruption`), and the reads before the
    empty one are all called back, and no others (`Exceptions.RestAfterThrow`).

  In the last two cases some reads never complete: at rest all have completed if and only if every
  read was servable (`Theorems.RestIsCompletionIffServable`).  Buffer exclusion, the order of
  callbacks and the release of source regions hold in every case.
* **Barriers** for a count below one are never released (`CtrlServer.BarrierCounts`).
* **Keys.** `GenTokensMsgKey` takes its destination as `int`, so keys of ids that agree in their low
  32 bits are equal (`Keys.TokensMsgKeyCollides`).

## Model

| member | source | states |
|---|---|---|
| Config.SgeCountOfChunk | comm_network/ibverbs/ibverbs_write_helper.cpp:75-80 | for a chunk with bytes, neither the wrap-around nor the narrowing changes the entry count: it is the ceiling, capped by SgeNum, and at least one |
| Config.LoopMovesCopied | comm_network/ibverbs/ibverbs_write_helper.cpp:78-88 | the copy loop moves exactly the bytes that fit the entries, whichever cap ends it, and uses no entry beyond SgeNum |
| Config.ZeroByteReadNotServable | comm_network/ibverbs/ibverbs_write_helper.cpp:75-80 | whenever the entry size divides 2^32, the count for an empty read is zero |
| Config.ZeroByteReadServable | comm_network/ibverbs/ibverbs_read_helper.cpp:16-21 | there are sizes the code can have, 4 MiB buffers with three entries, for which the wrapped count gives an empty read entries |
| Config.ZeroByteReadByDefault | comm_network/comm_network_config.proto:18-19 | the default sizes are of this kind |
| Config.ZeroByteReadNegative | comm_network/ibverbs/ibverbs_qp.cpp:157 | there are sizes the code can have, 1 MiB buffers with 40 entries, for which the wrapped count for an empty read is negative |
| MemDesc.IBVerbsMemDesc.constructor | comm_network/ibverbs/ibverbs_memory_desc.cpp:7-32 | the loop tiles the region with contiguous, non-empty blocks, all but the last full, as many as computed beforehand, so both final CHECKs hold |
| MemDesc.TilingLength | comm_network/ibverbs/ibverbs_memory_desc.cpp:10-31 | any such tiling has (size - 1) / block + 1 blocks |
| MemDesc.TilingCovers | comm_network/ibverbs/ibverbs_memory_desc.cpp:14-28 | every byte of the region lies in exactly one block, the one given by division |
| MemDesc.EntriesAreFullBlocks | comm_network/ibverbs/ibverbs_write_helper.cpp:82-83 | the entries the copy loops index exist and are full blocks at multiples of SgeBytes |
| Messages.Memcpy | comm_network/ibverbs/ibverbs_write_helper.cpp:85 | copies a range between regions and changes nothing else |
| Writer.RunLoop | comm_network/ibverbs/ibverbs_write_helper.cpp:102-104 | the loop over the three states ends from every well-formed state, and ends stuck - no record, or no buffer for the current one - or where the next call throws |
| Writer.StepKeepsWellFormed | comm_network/ibverbs/ibverbs_write_helper.cpp:28-98 | no state function that returns leaves source memory or names a buffer that does not exist |
| Writer.QueuesAreOneFifo | comm_network/ibverbs/ibverbs_write_helper.cpp:28-57 | the two swapped record queues serve records in arrival order, none lost or repeated |
| Writer.SkippedNotifyIsHarmless | comm_network/ibverbs/ibverbs_write_helper.cpp:51-57 | a stuck writer that is not notified stays stuck, waiting for a buffer |
| WriteHelper.IBVerbsWriteHelper.constructor | comm_network/ibverbs/ibverbs_write_helper.cpp:6-15 | keeps the configuration, memory and buffers it is given, with their contents, and starts stuck with every buffer id idle once, in order |
| WriteHelper.IBVerbsWriteHelper.InitWriteHandle | comm_network/ibverbs/ibverbs_write_helper.cpp:28-40 | is the first state of the write side |
| WriteHelper.IBVerbsWriteHelper.RequestBuffer | comm_network/ibverbs/ibverbs_write_helper.cpp:42-49 | is the second state of the write side: takes the id that has been idle for longest, or reports that there is none |
| WriteHelper.IBVerbsWriteHelper.Scatter | comm_network/ibverbs/ibverbs_write_helper.cpp:81-88 | the entry-by-entry copy is one flat copy of the chunk to the front of the buffer; the tail keeps its old bytes |
| WriteHelper.IBVerbsWriteHelper.PostWriteRequest | comm_network/ibverbs/ibverbs_qp.cpp:152-175 | throws exactly if the count is negative or beyond the blocks, after one untagged write per block; otherwise one write per entry, all untagged but the last, which carries the buffer id |
| WriteHelper.IBVerbsWriteHelper.DoCurWrite | comm_network/ibverbs/ibverbs_write_helper.cpp:67-98 | throws exactly for a negative count, with record and handle unchanged; otherwise is the third state: buffer filled, writes posted, offset advanced, next state chosen |
| WriteHelper.IBVerbsWriteHelper.WriteUntilQueueEmptyOrNoBuffer | comm_network/ibverbs/ibverbs_write_helper.cpp:102-104 | terminates, with the state RunLoop gives, stuck or with the exception |
| WriteHelper.IBVerbsWriteHelper.AsyncWrite | comm_network/ibverbs/ibverbs_write_helper.cpp:51-57 | record queued; if the writer was stuck before and nothing is thrown it is stuck after, so no wake-up is lost |
| WriteHelper.IBVerbsWriteHelper.FreeBuffer | comm_network/ibverbs/ibverbs_write_helper.cpp:59-65 | buffer idle again and the writer run until stuck or until it throws |
| Reader.StepsKeepWellFormed | comm_network/ibverbs/ibverbs_read_helper.cpp:8-32 | no step of SyncRead leaves destination memory or a record's bounds |
| QueuePair.IBVerbsQP.GatherInto | comm_network/ibverbs/ibverbs_read_helper.cpp:18-28 | the entry-by-entry copy is one flat copy of the front of the buffer to the destination |
| QueuePair.IBVerbsQP.SyncRead | comm_network/ibverbs/ibverbs_read_helper.cpp:8-32 | gathers, stores the offset, pops and calls back on the last piece, and posts FreeBufferPair: the reader's five steps |
| QueuePair.IBVerbsQP.GetWorkRecord | comm_network/ibverbs/ibverbs_qp.cpp:359-362 | reads the front record |
| QueuePair.IBVerbsQP.SetWorkRecordOffset | comm_network/ibverbs/ibverbs_qp.cpp:364-367 | changes the front record's offset and nothing else |
| QueuePair.IBVerbsQP.DealWorkRecord | comm_network/ibverbs/ibverbs_qp.cpp:177-185 | record queued at the back, PleaseWrite posted |
| QueuePair.IBVerbsQP.PostSendRequest | comm_network/ibverbs/ibverbs_qp.cpp:187-246 | a last piece pops the record and calls its callback, if it has one, once, before its message is posted |
| QueuePair.IBVerbsQP.RDMARecvDone | comm_network/ibverbs/ibverbs_qp.cpp:248-256 | an untagged completion changes nothing, a tagged one is SyncRead |
| QueuePair.IBVerbsQP.RecvDone | comm_network/ibverbs/ibverbs_qp.cpp:276-324 | both messages drive the write helper; a last piece then calls the oldest read-done callback, unless the helper has thrown; a stuck writer ends stuck or throws |
| QueuePair.IBVerbsQP.RegisterReadDoneCb | comm_network/ibverbs/ibverbs_qp.cpp:369-372 | callbacks queue in registration order |
| QueuePair.IBVerbsQP.constructor | comm_network/ibverbs/ibverbs_qp.cpp:12-52 | keeps the configuration, memory, buffers and write helper it is given, with empty queues |
| Sanity.EveryStepIsSane | comm_network/ibverbs/ibverbs_qp.cpp:152-324 | in any order of steps, no address, block index or buffer id of a copy, a write or a message goes out of range; the one index that can is that of a posting loop with a negative count, and a process that has thrown did so there |
| Stream.ChunksAppend | comm_network/ibverbs/ibverbs_qp.cpp:177-185 | a new read appends its chunks to the stream and changes none already there |
| Stream.NextAligned | comm_network/ibverbs/ibverbs_read_helper.cpp:16-30 | unless it is the last piece, a chunk is one full buffer, so chunk starts are multiples of the buffer size |
| Stream.ServedOfLastRead | comm_network/ibverbs/ibverbs_write_helper.cpp:75-96 | every chunk of a servable read gets a tagged write; an unservable read has exactly one chunk, and it gets none |
| Stream.MatchesIffServable | comm_network/ibverbs/ibverbs_write_helper.cpp:67-96 | the n-th chunk of all reads is the n-th one that gets an entry if and only if every read up to its own is servable; otherwise that one is later |
| Ledger.PostsFirst | comm_network/ibverbs/ibverbs_write_helper.cpp:67-98 | each write takes the first chunk off the stream the writer owes, by its own records |
| Ledger.NoteConsumes | comm_network/ibverbs/ibverbs_read_helper.cpp:29-31 | each stored offset takes the first chunk off the stream the reader expects, by its own records |
| Ledger.StreamsStand | comm_network/ibverbs/ibverbs_write_helper.cpp:67-96 | whatever was asked for, what the reader expects and what the writer owes are tails of one stream, and what arrives is its served part from where the reader stands |
| Ledger.NextArrives | comm_network/ibverbs/ibverbs_write_helper.cpp:67-91 | a chunk the writer is about to post is the first to arrive after those in the claimed buffers |
| Ledger.FrontMatchesIffServable | comm_network/ibverbs/ibverbs_read_helper.cpp:11-21 | the next chunk to arrive is the one the front record stands at if and only if no read up to that one is without entries |
| Ledger.WriterIsNotBehind | comm_network/ibverbs/ibverbs_write_helper.cpp:67-96 | whatever was asked for, the writer is never on a read before the one the reader reads next |
| Invariant.EveryStepKept | comm_network/ibverbs/ibverbs_qp.cpp:177-372 | the invariant that needs no condition on sizes: memory safety, chunk accounting, receive requests, wake-ups, callback order, sources unchanged |
| Invariant.StepConservesReceives | comm_network/ibverbs/ibverbs_qp.cpp:248-256 | posted receives, unpolled completions and the one being handled always add up |
| Invariant.StepKeepsWakeup | comm_network/ibverbs/ibverbs_write_helper.cpp:51-65 | no step leaves a writer idle that could go on |
| Ownership.StepOwned | comm_network/ibverbs/ibverbs_write_helper.cpp:42-65 | every step, of whatever reads, keeps each buffer id in at most one of: idle queue, writer, wire, completion queue, reader, FreeBufferPair |
| Ownership.StepPlaces | comm_network/ibverbs/ibverbs_write_helper.cpp:42-91 | every step moves a buffer id from one place to another, doubles none, and loses one exactly when the writer goes on from a chunk with no entry |
| Ownership.StepLent | comm_network/ibverbs/ibverbs_write_helper.cpp:75-91 | every step keeps the ids in no place as many as the unservable reads the writer has written |
| Ownership.AllThereIffNoneLost | comm_network/ibverbs/ibverbs_write_helper.cpp:11-13 | all ids are somewhere if and only if the writer has written no unservable read |
| Ownership.NotOnWire | comm_network/ibverbs/ibverbs_qp.cpp:248-256 | in any state, lost buffers or not, a buffer that is idle, held, landed, being read or on its way back has no write on the wire |
| Ownership.StepWired | comm_network/ibverbs/ibverbs_qp.cpp:162-166 | every step, of whatever reads, keeps the writes of a buffer on the wire followed by the one that names it and by no other of that buffer |
| Delivery.PostCarries | comm_network/ibverbs/ibverbs_write_helper.cpp:82-91 | after a post, every byte of the chunk is in the send buffer with its block on the wire |
| Delivery.LandCarries | comm_network/ibverbs/ibverbs_qp.cpp:162-172 | whole blocks landing in order, stale tail included, never lose a byte of a chunk |
| Delivery.LandedCarries | comm_network/ibverbs/ibverbs_qp.cpp:248-253 | once no write of a buffer is on the wire the receive buffer holds the chunk |
| Delivery.LandMovesOneBlock | comm_network/ibverbs/ibverbs_qp.cpp:157-174 | a landed write changes one block of its own receive buffer, to the bytes of the send buffer, and nothing else |
| Delivery.GatherFills | comm_network/ibverbs/ibverbs_read_helper.cpp:22-29 | scatter, whole-block writes and gather together move exactly the chunk a buffer carries to the place the reader's record stands at |
| Delivery.FilledIsWanted | comm_network/ibverbs/ibverbs_read_helper.cpp:16-29 | if every read up to this one is servable, each byte that has arrived for it is its own |
| Delivery.SizesFitIsExact | comm_network/comm_network_config_desc.h:22-24 | every byte of a read lies within the entries of its chunk if and only if SgeNum divides the buffer size or the read is small enough |
| Delivery.ThreeEntriesLoseTheLastByte | comm_network/comm_network_config_desc.h:22-24 | with 4 MiB buffers and three entries the last byte of a 4 MiB read lies in no entry, so the sizes do not fit |
| Completion.InHandIsLanded | comm_network/ibverbs/ibverbs_read_helper.cpp:8-28 | the buffer the reader gathers from holds all copied bytes of the served chunk whose turn it is |
| Completion.EveryStepCore | comm_network/ibverbs/ibverbs_qp.cpp:177-324 | the global invariant over both machines and both wires is kept by every step, whatever reads were issued |
| Liveness.TaggedFindsRecord | comm_network/ibverbs/ibverbs_qp.cpp:359-362 | a tagged completion always finds a record in the read queue |
| Liveness.QuietIsDrained | comm_network/ibverbs/ibverbs_write_helper.cpp:28-104 | where two living processes rest with a buffer left, every chunk that gets an entry has been copied out and as many chunks are missing as there were unservable reads |
| Liveness.DrivenLowers | comm_network/ibverbs/ibverbs_write_helper.cpp:28-104 | every step of the system lowers one number over both machines and both wires |
| Theorems.RunExtends | comm_network/ibverbs/ibverbs_qp.cpp:177-324 | any enabled step extends a run; memory safety never blocks one |
| Theorems.RunKept | comm_network/ibverbs/ibverbs_qp.cpp:177-324 | the unconditional invariant holds in every state of every run |
| Theorems.RunCore | comm_network/ibverbs/ibverbs_qp.cpp:177-324 | the global invariant holds in every state of every run |
| Theorems.EveryReadWasIssued | comm_network/ibverbs/ibverbs_comm_network.cpp:89-97 | in runs of any posting order, each recorded read is a DoRead of the run, with both memories as they were then |
| Theorems.ReadCallbackMeansDelivered | comm_network/ibverbs/ibverbs_qp.cpp:208-222 | end-to-end integrity, in every run: when the callback of read k is called and reads 0 to k were servable, the destination equals the source of that DoRead byte for byte if the sizes fit; if they do not fit, every covered byte has arrived and some other byte still has its old value; if one of reads 0 to k was not servable, every byte that arrived is from a later place |
| Theorems.UnservableShifts | comm_network/ibverbs/ibverbs_write_helper.cpp:75-91 | if a read up to this one is unservable, the chunk that arrives for each of its bytes is a later one |
| Theorems.NothingElseIsWritten | comm_network/ibverbs/ibverbs_read_helper.cpp:22-28 | the protocol writes no byte outside the destination of the read being served |
| Theorems.EveryBufferInOnePlace | comm_network/ibverbs/ibverbs_write_helper.cpp:11-13 | in every state of every run each buffer id is in at most one place; all are in exactly one if and only if the writer has written no unservable read; and as many are missing as it has written of those |
| Theorems.LostBufferStaysLost | comm_network/ibverbs/ibverbs_write_helper.cpp:42-65 | in every run, a buffer id that is in no place is never in one again |
| Handout.BuffersGoRound | comm_network/ibverbs/ibverbs_write_helper.cpp:11-13 | in every run, of any posting order, the buffer ids taken, followed by those idle, are 0 to N - 1 followed by those of the FreeBufferPairs handled, in order |
| Handout.StepHandsOut | comm_network/ibverbs/ibverbs_write_helper.cpp:42-65 | every step keeps the idle queue first in, first out |
| Theorems.UnreadBufferIsSafe | comm_network/ibverbs/ibverbs_qp.cpp:248-253 | in every run, no step overwrites a receive buffer, or the send buffer behind it, before its chunk is copied out |
| Theorems.SendBufferIsSafe | comm_network/ibverbs/ibverbs_write_helper.cpp:82-91 | in every run, no step overwrites a send buffer whose writes are on the wire |
| Theorems.StreamsAgree | comm_network/ibverbs/ibverbs_read_helper.cpp:11-31 | in every state of every run the reader expects, and the writer owes, a tail of one stream of chunks, the writer's being no longer; the claimed buffers carry, in order, the next chunks that get an entry, and those after them are the ones the writer will still post |
| Theorems.ReaderIsInStep | comm_network/ibverbs/ibverbs_read_helper.cpp:11-21 | in every run, the chunk the reader computes from its record alone is the one its buffer carries if and only if every read up to this one is servable; otherwise the buffer carries a later one |
| Theorems.CallbacksAreInOrder | comm_network/ibverbs/ibverbs_qp.cpp:208-222 | in every run the read callbacks called are those of the popped reads that have one, in issue order, and read-done callbacks are called in registration order and never ahead of them |
| Theorems.EveryCallbackIsCalled | comm_network/ibverbs/ibverbs_qp.cpp:214-220 | in every run the n-th call of a read callback is that of the n-th popped read that has one, and there are as many calls as such reads |
| Theorems.WriterIsNeverForgotten | comm_network/ibverbs/ibverbs_write_helper.cpp:51-65 | in every run a writer outside its loop has no record or no buffer; receive requests are conserved |
| Theorems.SourceMayBeReused | comm_network/ibverbs/ibverbs_qp.cpp:298-307 | in every run, once the k-th read-done callback has been called, read k's own callback came first, the writer is past read k for good, and no chunk of it is expected, in a buffer or owed |
| Theorems.RestIsCompletionIffServable | comm_network/ibverbs/ibverbs_write_helper.cpp:75-91 | when only the application can move, all reads have completed if and only if every read was servable; then every callback was called and every buffer is idle |
| Theorems.OutstandingReadCanMove | comm_network/ibverbs/ibverbs_write_helper.cpp:28-104 | while a servable run has a read outstanding some step of the system can continue it |
| Theorems.RestIsReached | comm_network/ibverbs/ibverbs_write_helper.cpp:28-104 | between actions of the application only as many steps can happen as the measure says |
| Theorems.EveryConfigurationStarts | comm_network/ibverbs/ibverbs_qp.cpp:44-51 | there are runs for every valid configuration and any contents of the memories |
| Lockstep.NotedIsPrefixOfPosted | comm_network/ibverbs/ibverbs_read_helper.cpp:11-31 | lockstep, in every run: the pieces the reader notes - read, offset, length, entry count and is_last - are, in order, the first of those the writer posts, with is_last where the writer leaves the record |
| Continuations.RunToRest | comm_network/ibverbs/ibverbs_write_helper.cpp:28-104 | every run can be continued by the system alone, within the measure, until only the application can move |
| Continuations.EveryRunCanComplete | comm_network/ibverbs/ibverbs_qp.cpp:177-324 | every run of servable reads with enough callbacks registered can be continued by the system alone, within the measure, until all reads have been called back on both sides and all buffers are idle |
| Continuations.CallbackHappened | comm_network/ibverbs/ibverbs_qp.cpp:208-222 | a read that is past its callback had it called at one step of the run, when it was at the front |
| Exceptions.ThrowsOnFirstEmptyRead | comm_network/ibverbs/ibverbs_qp.cpp:152-165 | in every run, a writer that throws or has thrown is on an empty read, the first issued that is not servable, and the count for it is negative |
| Exceptions.NothingLost | comm_network/ibverbs/ibverbs_write_helper.cpp:75-91 | where the count for empty reads is negative, every buffer id is in exactly one place in every state of every run |
| Exceptions.RestIsThrowIffEmptyRead | comm_network/ibverbs/ibverbs_qp.cpp:152-165 | where that count is negative, the system rests with the writing process ended if and only if an empty read was issued |
| Exceptions.EmptyReadEndsTheProcess | comm_network/ibverbs/ibverbs_qp.cpp:152-165 | where that count is negative, every run with an empty read and enough callbacks registered can be continued by the system alone, within the measure, to the exception |
| Exceptions.ThrowingPreventsCorruption | comm_network/ibverbs/ibverbs_qp.cpp:208-222 | where that count is negative, every read that is called back, in every run, has its own bytes |
| Exceptions.RestAfterThrow | comm_network/ibverbs/ibverbs_read_helper.cpp:8-32 | at rest after an exception exactly the reads before the first empty one have been called back |
| AnyOrder.StepAnyKept | comm_network/ibverbs/ibverbs_qp.cpp:177-185 | in whatever order requests are posted, every step keeps memory safety, the reader's books, buffer ownership, the order of callbacks and the sources |
| AnyOrder.DeliveredWhateverFollows | comm_network/ibverbs/ibverbs_qp.cpp:177-185 | in every run of any posting order, if reads 0 to k are servable and their requests are posted in order, the callback of read k is called over its own bytes, whatever overtakes what behind them |
| Witnesses.MisfitLosesBytes | comm_network/ibverbs/ibverbs_read_helper.cpp:18-28 | for any sizes and any read that do not fit there is a run whose callback is called over a destination that is not the source |
| Witnesses.EmptyReadCorruptsTheNext | comm_network/ibverbs/ibverbs_write_helper.cpp:75-91 | for any sizes under which the count for an empty read is zero, and two buffers or more, there is a run in which the read after it is called back over the byte of the read after that |
| Witnesses.EmptyReadThrows | comm_network/ibverbs/ibverbs_qp.cpp:152-165 | for any sizes with a negative count there is a run of a single, empty read that ends with the exception |
| Witnesses.FortyEntriesThrow | comm_network/ibverbs/ibverbs_qp.cpp:152-165 | 1 MiB buffers with 40 entries are such sizes |
| Witnesses.OvertakingMisdelivers | comm_network/ibverbs/ibverbs_qp.cpp:177-185 | for any two requests of one positive size with different sources, and any memory, there is a run in which the second is posted first and the first read is called back over the bytes of the second |
| Refinement.LoopIsSteps | comm_network/ibverbs/ibverbs_write_helper.cpp:102-104 | the object's write loop is a finite number of writer steps of the system, to its end or to where Throw is enabled |
| Refinement.ThrowIsThrown | comm_network/ibverbs/ibverbs_qp.cpp:157-165 | what the system still lands after an exception is what the object had posted when it threw |
| Refinement.SyncReadIsSteps | comm_network/ibverbs/ibverbs_read_helper.cpp:8-32 | the object's SyncRead is five or, for a last piece, six enabled steps of the system, from the polled completion to the posted FreeBufferPair |
| Refinement.RecvDoneIsSteps | comm_network/ibverbs/ibverbs_qp.cpp:276-324 | the object's handling of a message is a receive step and, where the object runs its loop, writer steps to where that ends or throws |
| Refinement.DealWorkRecordIsSteps | comm_network/ibverbs/ibverbs_qp.cpp:177-185 | the object's DealWorkRecord is a DoRead and a SendRequest of the system |
| WorkRequests.WorkQueues.PostWriteRequest | comm_network/ibverbs/ibverbs_qp.cpp:152-175 | one new request with the count set first; posted once per entry, or, for a negative count or one beyond the blocks, once per block before it throws |
| WorkRequests.PostWriteIsSteps | comm_network/ibverbs/ibverbs_qp.cpp:152-175 | the posting loop is its steps, entry by entry, with nothing in between |
| WorkRequests.WorkQueues.GetOneSendMsgMRFromBuf | comm_network/ibverbs/ibverbs_qp.cpp:338-344 | the pooled buffer that came back first, with none made; a new one only if the pool is empty |
| WorkRequests.WorkQueues.PostSendRequest | comm_network/ibverbs/ibverbs_qp.cpp:230-245 | the very buffer the thread took is posted under a new request, behind all earlier ones |
| WorkRequests.WorkQueues.PostRecvRequest | comm_network/ibverbs/ibverbs_qp.cpp:326-336 | the buffer is posted for receiving under a new request |
| WorkRequests.WorkQueues.PostAllRecvRequest | comm_network/ibverbs/ibverbs_qp.cpp:148-150 | every receive buffer is posted once |
| WorkRequests.WorkQueues.RDMAWriteDone | comm_network/ibverbs/ibverbs_qp.cpp:258-261 | counts down, and deletes the request at zero |
| WorkRequests.WorkQueues.SendDone | comm_network/ibverbs/ibverbs_qp.cpp:263-274 | the buffer returns to the pool, the request is deleted |
| WorkRequests.WorkQueues.RecvDone | comm_network/ibverbs/ibverbs_qp.cpp:322-323 | the buffer is posted again under a new request, the old one is deleted |
| WorkAccounts.EveryStepKeepsAccounts | comm_network/ibverbs/ibverbs_qp.cpp:148-175 | in any interleaving, other threads' posts between two writes of one request included, no deleted request is touched, outstanding_sge_cnt is the number of writes not yet completed, except for a request whose posting loop has thrown, and every message buffer is in exactly one place |
| WorkAccounts.RunKeepsAccounts | comm_network/ibverbs/ibverbs_qp.cpp:148-274 | the same in every state of every run after set-up, with a constant number of receive buffers |
| WorkAccounts.DeletedOnLastCompletion | comm_network/ibverbs/ibverbs_qp.cpp:258-261 | a write request is deleted when, and only when, its last write completes |
| WorkAccounts.DeletedForever | comm_network/ibverbs/ibverbs_qp.cpp:354-357 | a deleted request is never posted, polled or deleted again |
| WorkAccounts.TakenBufferIsFree | comm_network/ibverbs/ibverbs_qp.cpp:338-344 | a send buffer given to a thread is not in flight and with no other thread |
| WorkAccounts.NothingLeftIffNoEmptyWrite | comm_network/ibverbs/ibverbs_qp.cpp:152-155 | at rest only the posted receives stay allocated, if and only if no write without entries was posted |
| WorkOrder.MadeIsPeak | comm_network/ibverbs/ibverbs_qp.cpp:338-344 | in every run the number of send buffers ever made is the largest number out of the pool at once |
| WorkOrder.QueuesAreInOrder | comm_network/ibverbs/ibverbs_qp.cpp:230-274 | in every run send buffers leave the pool in the order in which they came back, send completions are handled in posting order, and receives in the order posted, set-up included |
| CtrlServer.Handlers.HandleBarrier | comm_network/control/ctrl_server.cpp:65-85 | is the barrier handler on values, responses included; fails exactly if the barrier waits for another count |
| CtrlServer.Handlers.HandlePushKV | comm_network/control/ctrl_server.cpp:87-102 | is the push handler on values: fails exactly if the key is held; waiting pulls answered first, in order, then the push |
| CtrlServer.Handlers.HandleClearKV | comm_network/control/ctrl_server.cpp:104-110 | is the clear handler on values: fails exactly if the key is not held or is waited for |
| CtrlServer.Handlers.HandlePullKV | comm_network/control/ctrl_server.cpp:112-122 | is the pull handler on values: answered with the held value, or queued |
| CtrlServer.RunKeepsStoreDisjoint | comm_network/control/ctrl_server.cpp:104-122 | over any request sequence no key is both held and waited for, so the CHECK on pending pulls cannot fail |
| CtrlServer.RunAccountsForEveryCall | comm_network/control/ctrl_server.cpp:65-122 | over any request sequence a call is answered at most once, and waits exactly as long as it has not been answered |
| CtrlServer.PullsGetTheHeldValue | comm_network/control/ctrl_server.cpp:87-122 | an answered pull carries the value its key holds at that moment, other answers carry none |
| CtrlHistory.AnsweredInArrivalOrder | comm_network/control/ctrl_server.cpp:65-122 | over any request sequence the answers about one key are sent in the order in which the calls arrived - waiting pulls in order and before the push they waited for - and so are those at one barrier |
| CtrlHistory.StoreIsHistory | comm_network/control/ctrl_server.cpp:87-110 | after any request sequence the store holds exactly the keys pushed and not cleared since, each with its last pushed value |
| CtrlHistory.FailsExactly | comm_network/control/ctrl_server.cpp:65-122 | after any request sequence a further request fails a CHECK exactly if it pushes a held key, clears one that is not held, or comes to a barrier where somebody waits with another count |
| CtrlHistory.PullsGetTheLastPush | comm_network/control/ctrl_server.cpp:87-122 | over any request sequence an answered pull carries what the last push of its key pushed |
| CtrlServer.BarrierCounts | comm_network/control/ctrl_server.cpp:65-85 | for a name used with one count, waiting calls are arrivals modulo the count and all others have been answered, in full rounds; below one nobody ever is |
| Keys.DecimalReadsBack | comm_network/ibverbs/ibverbs_comm_network.cpp:10-12 | a printed id can be read back |
| Keys.DecimalIsCanonical | comm_network/ibverbs/ibverbs_comm_network.cpp:10-12 | a printed id has no leading zero |
| Keys.ConnInfoKeyInjective | comm_network/ibverbs/ibverbs_comm_network.cpp:10-12 | connection keys are equal if and only if both ids are |
| Keys.ConnInfoKeyReads | comm_network/ibverbs/ibverbs_comm_network.cpp:10-12 | a connection key is its prefix, the source id, a slash and the destination id |
| Keys.TokensMsgKeyReads | comm_network/ibverbs/ibverbs_qp.cpp:7-10 | a token key is its prefix, the source id, a slash and the destination id narrowed to 32 bits |
| Keys.TokensMsgKeyCollides | comm_network/ibverbs/ibverbs_qp.cpp:7-10 | token keys are equal if and only if the sources are and the destinations agree in 32 bits |
| Keys.KindsNeverCollide | comm_network/ibverbs/ibverbs_qp.cpp:7-10 | the two kinds of keys never meet |
| Handshake.SetUp | comm_network/ibverbs/ibverbs_comm_network.cpp:42-68 | the three loops and two barriers make exactly the requests the handshake model steps through |
| Handshake.KeyInjective | comm_network/ibverbs/ibverbs_comm_network.cpp:10-12 | the source's keys are equal if and only if kind and both ids are, for ids that fit an int |
| Handshake.SourceKeysAreDistinct | comm_network/ibverbs/ibverbs_comm_network.cpp:10-12 | so the handshake's assumption on keys holds for the source's key builders |
| Handshake.PulledKeyIsPushed | comm_network/ibverbs/ibverbs_qp.cpp:54-74 | every key a machine pulls is pushed by its peer, with the value for this machine |
| HandshakeProof.PushSafe | comm_network/ibverbs/ibverbs_comm_network.cpp:42-56 | a push fails no CHECK and keeps the invariant: its key was free, and the one machine waiting for it goes on with the right value |
| HandshakeProof.PullSafe | comm_network/ibverbs/ibverbs_comm_network.cpp:57-61 | a pull keeps the invariant: it brings the peer's value, or the machine waits alone for its key |
| HandshakeProof.BarrierSafe | comm_network/ibverbs/ibverbs_comm_network.cpp:62-68 | a barrier fails no CHECK and keeps the invariant: fewer than all machines wait at it, and they are those it lists |
| HandshakeProof.ClearSafe | comm_network/ibverbs/ibverbs_comm_network.cpp:63-67 | a clear fails no CHECK and keeps the invariant: its key was held and nobody waits for any key |
| HandshakeTheorems.RunIsSafe | comm_network/ibverbs/ibverbs_comm_network.cpp:42-68 | for any number of machines and any interleaving no CHECK of any server fails |
| HandshakeTheorems.PullsReturnPushedValues | comm_network/ibverbs/ibverbs_comm_network.cpp:57-61 | every finished pull has brought the value the peer pushed for this machine |
| HandshakeTheorems.BarriersSeparate | comm_network/ibverbs/ibverbs_comm_network.cpp:62-68 | nobody clears while somebody still pulls, nobody leaves while somebody still clears |
| HandshakeTheorems.StoresEndEmpty | comm_network/ibverbs/ibverbs_comm_network.cpp:63-68 | once one machine has left the second barrier all have, and every server is empty |
| HandshakeTheorems.EverythingIsAtHome | comm_network/ibverbs/ibverbs_comm_network.cpp:42-68 | in every run a key is kept by the server it is routed to, and barriers by the master server |
| HandshakeTheorems.SomebodyCanMove | comm_network/ibverbs/ibverbs_comm_network.cpp:42-68 | deadlock freedom: while a machine has not finished, some machine can make its next request |
| HandshakeTheorems.RunsAreBounded | comm_network/ibverbs/ibverbs_comm_network.cpp:42-68 | the number of machines bounds the length of every run |
| HandshakeTheorems.EverySizeStarts | comm_network/ibverbs/ibverbs_comm_network.cpp:42-68 | there are runs with the source's keys for any number of machines, any values and any assignment of keys to servers |
| HandshakeTheorems.StuckMeansFinished | comm_network/ibverbs/ibverbs_comm_network.cpp:42-68 | a run that cannot go on has brought every machine to the end with all its peers' values and left every server empty |

## Left out

- QueuePair.IBVerbsQP.PostSendRequest: does not model user messages or the size checks on the message buffer, because messages are values; taking and posting the buffer is `WorkRequests.WorkQueues`.
- QueuePair.IBVerbsQP.RDMARecvDone: does not model posting the receive again and deleting its id, because those are `WorkRequests.WorkQueues.RecvDone` and the receive count of `System`.
- QueuePair.IBVerbsQP.RecvDone: does not model user messages, posting the receive again and deleting its id, for the same reasons.
- WorkRequests.WorkQueues.SendDone: does not model the user callback before the buffer returns to the pool; what it posts is a step between the polled completion and this one.
- Delivery.ThreeEntriesLoseTheLastByte: states only which bytes the entries cover; the run is `Witnesses.MisfitLosesBytes`.
- Write requests of several threads at once: writes are posted by the one poller thread, so one request is posted at a time.
- The other direction of traffic between two machines and user messages: they share the wires and the poller threads but no queue, buffer or record with the direction modelled; receive requests are counted for this direction only.
- More than two machines in the read protocol, and machine ids in records and messages: each pair has its own queue pair, so every read concerns one pair.
- After an exception: no step of the writing process is modelled between the throw and its end, and none after; what it had posted may still land.
- The depth of the send queue, which a posting loop that does not end could exceed before it runs out of blocks; the process ends there too.
- `Connect`, device, port and GID queries, retries and receiver-not-ready timing: foreign hardware interface; a write lands when a receive request is posted.
- When a write lands relative to its own send completion: the accounts and the protocol are separate models.
- Reuse of a freed address for a new work request: ids are not reused in the model.
- Message serialization and the size header of `MsgMR`: messages are values; lengths are not checked against the configured maximum.
- The bodies of callbacks: a callback is a number, recorded when it is called; a callback that calls back into the library is a later step of the application.
- A read-done callback queue that is empty when its last piece arrives: the handler waits instead.
- The locks: each step is one critical section, or the code between two of them.
- The poller's stop protocol, teardown and shutdown order.
- gRPC plumbing, the `LoadServer` handshake and heartbeats: each handler is one atomic step, and a response is received before its machine's next request.
- Protobuf values: what is pushed is any text.
- Creating the write helper in `ClearKeyAndCreateHelper` and posting receives in `PostAllRecvRequest` between the barriers: the handshake model has only the requests to the servers.
- `EpollCommNet`, `Channel`, `BlockingCounter`, the singleton and macros: stubs or textbook code.
- Real time and throughput.
