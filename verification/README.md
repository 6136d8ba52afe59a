# Testimony: a verified model

Testimony shares the memory ring of an AF_PACKET socket between processes. The daemon
hands out block indexes, counts references to each block, and gives a block back to the
kernel when the last client has returned it. This project models the daemon's
reference-counting protocol, the wire protocol with the Go and the C client, the C
client's packet counters, packet iteration in both clients, and the allocation of fanout
IDs, and proves properties of them in Dafny 4.11. `dafny verify dfyconfig.toml` checks
everything.

## How the daemon is modelled

`Connection.dfy` has the two goroutines of a client (`conn.run`, `conn.handleReads`),
`Socket.dfy` has the producer (`getNewBlocks`), the dispatcher (`socket.run`), the kernel and
any number of connections. A step is one action that another goroutine can observe.
In particular `unref` is two steps (decrement, then clear), `ready` is two reads, and a
dispatch is one reference and one non-blocking send for each connection. What would stop
the daemon (the panic in `unref`, `log.Fatalf`, a nil block, a send on or close of a closed
channel) leads to an explicit crashed state, and a block that does not fit is dropped and
counted, so that none of this happening is a theorem. `Runs(s, acts, t)` says that
a list of actions leads from s to t; `Reachable(s)` that s is reached from the state set up
by `newSocket`, for some number of blocks. Logs in the state record what has happened; the theorems
about runs compute the same facts from the list of actions.

`Safety.dfy`, `Fillings.dfy` and `Ownership.dfy` say what never goes wrong, `Service.dfy` what a
connection and the producer do for a client, and `Shutdown.dfy` and `Recovery.dfy` that nothing
is stuck for good.

`Daemon.dfy` is the same socket as an object updated in place; under any schedule what it does
is a run of the transition system (`Daemon.Daemon.Perform`). `Batch.dfy` is the batching loop on its array; `CClient.dfy` and
`GoClient.dfy` are the two client libraries as objects over a byte stream.

## What does not hold, and when

- Exclusive kernel ownership (a block with status zero has count zero) fails for the code as it
  is. Between the decrement to zero and the clear, `ready` sees count zero and the old status, the
  producer takes the block again, and the late clear gives it to the kernel while it is in use
  (`Ownership.OwnershipCanBeLost`). Ownership is kept throughout a run if and only if every take
  of the producer finds the status set and every clear finds the count at zero
  (`Ownership.OwnedIffOrderly`). For that it suffices that every take is clean: it finds the status
  set and no clear to come (`Ownership.CleanTakesSuffice`). A take that is not clean
  loses ownership at once or at a clear that can come next (`Ownership.TakeIsSafeIffClean`).
- A ready block stays ready up to the producer's own ref, whatever else happens, if and only if
  no clear of it is to come (`Ownership.ReadyStays`).
- A block can be cleared twice for one filling by the kernel (`Ownership.FillingClearedTwice`).
  Each filling is cleared once, or still shows in the status, if and only if every clear finds the
  status set (`Fillings.OneClearPerFilling`); clean takes suffice for this too.
- If nothing comes between a decrement to zero and its clear, ownership is never lost and every
  filling is cleared once (`Ownership.ExclusiveKernelOwnership`).
- `Block.Next` of the Go client uses offset zero as its mark for "not started". Over all calls it
  gives what the C iterator gives if and only if `offset_to_first_pkt` is zero exactly for an empty
  block (`PacketIter.GoIteratesLikeC`). Some call dereferences nil if and only if the block is empty
  with an offset other than zero (`PacketIter.EmptyBlockPanics`). `PacketData` after the end is that
  of the last packet only if its tp_next_offset is zero.
- The C client keeps the fanout size in an int, so it agrees with the server below 2^31 only.
- The repository's README.md:82 calls type and length 32-bit values; the code has 16 bits each,
  and the model follows the code.

## Model

| member | source | states |
|---|---|---|
| ConnectionProof.StepInv | go/testimonyd/internal/socket/socket.go:208-331 | every step of a connection's two goroutines keeps its invariant: at most one reference per block, each dequeued reference released once or in hand, wire order, phases, channel flags; and only a decrement changes what it has to give back |
| ConnectionProof.HandleReturnKeeps | go/testimonyd/internal/socket/socket.go:292-305 | a returned index, outstanding or not, or a closed oldBlocks, moves no reference except into the pending unref |
| ConnectionProof.DecrementKeeps | go/testimonyd/internal/socket/socket.go:364-372 | a decrement gives back exactly one reference to exactly that block, wherever the loop resumes |
| ConnectionProof.SweepKeeps | go/testimonyd/internal/socket/socket.go:324-330 | the last loop loses and duplicates no reference of the outstanding entries |
| ConnectionProof.ReceiveKeeps | go/testimonyd/internal/socket/socket.go:269-287 | a receive in the loop takes over the queued reference and keeps the order towards the wire |
| ConnectionProof.PushFits | go/testimonyd/internal/socket/socket.go:179-187 | a connection without a reference to a block has room for it in newBlocks |
| SocketProof.ActionKeeps | go/testimonyd/internal/socket/socket.go:124-331 | every action of kernel, producer, dispatcher and connections keeps the global invariant |
| SocketProof.ReachableInv | go/testimonyd/internal/socket/socket.go:71-331 | the invariant holds in every reachable state, for any numbers of blocks and connections |
| SocketProof.UnrefPositive | go/testimonyd/internal/socket/socket.go:364-372 | the count of a block that a connection is about to unref is positive |
| SocketProof.SendToFits | go/testimonyd/internal/socket/socket.go:181-186 | the non-blocking send of the broadcast finds an open channel with room, and a connection that has no reference to the block |
| SocketProof.QueueFits | go/testimonyd/internal/socket/socket.go:135-135 | s.newBlocks has room for the block that the producer holds |
| Safety.NeverCrashes | go/testimonyd/internal/socket/socket.go:163-372 | no goroutine panics or exits in any reachable state, and nothing was dropped |
| Safety.CountIsHolders | go/testimonyd/internal/socket/socket.go:357-372 | the count of a block is its number of holders, each connection being at most one, and lies in [0, 1 + live connections] |
| Safety.DispatchOrder | go/testimonyd/internal/socket/socket.go:125-136 | the blocks dispatched during a run go round 0, 1, ..., NumBlocks-1 |
| Safety.GaplessDelivery | go/testimonyd/internal/socket/socket.go:177-189 | what a connection dequeued and has queued is the slice of all dispatches from its joining on, without gap, repeat or reordering, up to the last dispatch while it is registered |
| Safety.SendsAlwaysFit | go/testimonyd/internal/socket/socket.go:177-188 | the default branch of the broadcast is never taken, and the producer's send never blocks |
| Safety.BroadcastReachesAll | go/testimonyd/internal/socket/socket.go:177-189 | whatever else runs during a broadcast, each connection registered at the receive, and no other, gets exactly that block |
| Safety.NoDoubleDelivery | go/testimonyd/internal/socket/socket.go:274-277 | a dequeued block is not outstanding, and no queued block is queued twice or outstanding |
| Safety.BatchIsBounded | go/testimonyd/internal/socket/socket.go:272-287 | a batch has no repeats and at most NumBlocks indexes, whatever the dispatcher does |
| Safety.ExactlyOnceRelease | go/testimonyd/internal/socket/socket.go:256-331 | over any run each block got from newBlocks was unref'd once, except at most one reference in hand, and none when run is done |
| Safety.ChannelLifecycle | go/testimonyd/internal/socket/socket.go:173-323 | over any run each channel is closed at most once, newBlocks is open for every receive in the loop, oldBlocks until the reader returned |
| Fillings.OneClearPerProduction | go/testimonyd/internal/socket/socket.go:364-391 | over any run, the takes of a block are its clears, plus the clears to come, plus one if it is in use |
| Fillings.OneClearPerFilling | go/testimonyd/internal/socket/socket.go:388-391 | over any run, the fillings of a block are its clears plus one if its status is set, if and only if every clear found the status set; they are never more |
| Ownership.OwnedStep | go/testimonyd/internal/socket/socket.go:364-397 | a step keeps every block with the kernel at count zero if and only if a take finds the status set and a clear finds the count at zero |
| Ownership.OwnedIffOrderly | go/testimonyd/internal/socket/socket.go:124-138 | ownership is kept in all states of a run if and only if this holds of every step |
| Ownership.BackedStep | go/testimonyd/internal/socket/socket.go:395-397 | a step keeps the uses of every block covered by one filling if and only if it is not a take of a block that was cleared since, or is about to be |
| Ownership.CleanTakesSuffice | go/testimonyd/internal/socket/socket.go:124-138 | in a run of clean takes ownership is kept, each filling is cleared once or shows in the status, and is taken at most once |
| Ownership.TakeIsSafeIffClean | go/testimonyd/internal/socket/socket.go:395-397 | a take is clean if and only if the block is owned after it and after every clear that can come next |
| Ownership.DirtyTakeLosesOwnership | go/testimonyd/internal/socket/socket.go:364-372 | after a take with a clear to come, that clear gives a block in use to the kernel |
| Ownership.OwnershipCanBeLost | go/testimonyd/internal/socket/socket.go:395-397 | the concrete run with one block and no client that ends so |
| Ownership.FillingClearedTwice | go/testimonyd/internal/socket/socket.go:364-391 | that run, continued, clears the block twice after one filling |
| Ownership.ReadyStep | go/testimonyd/internal/socket/socket.go:395-397 | a ready block is ready after a step if and only if the step is neither the producer's ref nor a clear of it |
| Ownership.ReadyStays | go/testimonyd/internal/socket/socket.go:395-397 | a ready block stays ready in every run up to the producer's own ref if and only if no clear of it is to come |
| Ownership.ExclusiveKernelOwnership | go/testimonyd/internal/socket/socket.go:364-397 | if nothing comes between a decrement to zero and its clear, in every state of every run a block with the kernel has count zero and is in no queue and with no client, and each filling is cleared once or shows in the status |
| Shutdown.OwnProgress | go/testimonyd/internal/socket/socket.go:309-331 | past the rendezvous, every step of a connection's goroutines decreases its remaining work |
| Shutdown.OwnStepExists | go/testimonyd/internal/socket/socket.go:314-330 | a closing connection can step on its own unless it waits for the close of newBlocks, even with its reader blocked on a full oldBlocks |
| Shutdown.DispatcherReturns | go/testimonyd/internal/socket/socket.go:168-190 | a dispatcher in the middle of a broadcast can always go on to its select |
| Shutdown.ShutdownCannotStick | go/testimonyd/internal/socket/socket.go:309-331 | from every reachable state a closing connection can be finished by the dispatcher and itself, within 2 * connections + 7 * blocks + 15 steps |
| Shutdown.NoEndlessShutdown | go/testimonyd/internal/socket/socket.go:314-330 | under any schedule an unregistered connection makes a bounded number of steps and is then done |
| Recovery.ExitStep | go/testimonyd/internal/socket/socket.go:266-307 | in every state of the loop there is a step that leaves it, or comes closer to leaving it, when reads and writes fail |
| Recovery.ConnectionFinishes | go/testimonyd/internal/socket/socket.go:256-331 | from every reachable state, every connection can be finished by the dispatcher and itself |
| Recovery.EverythingComesBack | go/testimonyd/internal/socket/socket.go:163-391 | from every reachable state there is a run after which all connections are done, every count is zero, and every block has been cleared as often as it was taken |
| Service.QueueIsServed | go/testimonyd/internal/socket/socket.go:268-291 | a connection in its select with blocks queued puts exactly these on the wire, in order, and is back in its select with exactly these outstanding in addition |
| Service.ReturnIsHandled | go/testimonyd/internal/socket/socket.go:292-305 | a returned index that is outstanding is released, once, and the connection goes on |
| Service.RoundTrip | go/testimonyd/internal/socket/socket.go:268-305 | queued blocks go to the client and come back, and the connection is as before, each of them released once |
| Service.IndexIsPassed | go/testimonyd/internal/socket/socket.go:238-246 | a valid index from the client reaches the loop |
| Service.BadIndexEndsReading | go/testimonyd/internal/socket/socket.go:240-243 | an index out of range is not passed on and ends the reader |
| Service.TlvIsIgnored | go/testimonyd/internal/socket/socket.go:221-237 | a TLV from the client changes nothing |
| Service.QueueIsDelivered | go/testimonyd/internal/socket/socket.go:268-291 | the same on the socket, with nothing else touched |
| Service.ReturnReleases | go/testimonyd/internal/socket/socket.go:302-305 | on the socket, a return takes away one reference, and the last one clears the status |
| Service.LeavesLoop | go/testimonyd/internal/socket/socket.go:288-301 | a step from the loop ends it if and only if it is a failed write, a receive from a closed oldBlocks, or of an index that is not outstanding |
| Service.ExitLaw | go/testimonyd/internal/socket/socket.go:264-307 | in every run, a connection has left its loop only if a write or a read failed, or its client sent an index out of range, or sent some block back more often than it was sent it |
| Service.PollTakesReady | go/testimonyd/internal/socket/socket.go:125-137 | a poll takes a ready block, puts it at the end of s.newBlocks and goes on to the next one; of a block that is not ready it changes nothing |
| Service.ReadyIsTaken | go/testimonyd/internal/socket/socket.go:128-133 | whatever the others do, a ready block with no clear to come is taken by the producer's next three steps |
| Conformance.ReturnIsOutstanding | go/testimonyd/internal/socket/socket.go:292-301 | an index returned by a conforming client is outstanding when the loop handles it |
| Conformance.SeenIsNew | c/testimony.c:393-407 | a newly delivered index is in range, not held by the client, and its counter is zero |
| Conformance.ConformingClient | go/testimonyd/internal/socket/socket.go:239-305 | a client that keeps to the protocol, whatever the others send, never has its connection ended for an invalid or non-outstanding index, and no compare-and-swap in its get_block fails, over every run |
| Daemon.Daemon.constructor | go/testimonyd/internal/socket/socket.go:71-97 | the initial state |
| Daemon.Daemon.SendBlock | go/testimonyd/internal/socket/socket.go:135-136 | the send and the advance of blockIndex; it cannot block |
| Daemon.Daemon.SendTo | go/testimonyd/internal/socket/socket.go:181-186 | the send to one connection; the default branch is dead |
| Daemon.Daemon.UnrefBase | go/testimonyd/internal/socket/socket.go:364-372 | the dispatcher's decrement in place; the panic branch is dead |
| Daemon.Daemon.CloseNew | go/testimonyd/internal/socket/socket.go:175-176 | close and delete; the channel was open |
| Daemon.Daemon.Perform | go/testimonyd/internal/socket/socket.go:124-397 | under any schedule of the goroutines, what the object does on its arrays and channels is a run of the transition system, and the invariant is kept |
| Daemon.Daemon.Broadcast | go/testimonyd/internal/socket/socket.go:177-189 | an undisturbed broadcast queues the block for exactly the registered connections and leaves one reference for each; with none the block is cleared |
| Batch.RunBatch | go/testimonyd/internal/socket/socket.go:270-287 | the batching loop ends on any supply of blocks; it marks exactly the batch, which has no repeats and is what the channel gave; out is the big-endian encoding in order; it is fatal only at a block that is already marked |
| Batch.TransitionsBatch | go/testimonyd/internal/socket/socket.go:269-287 | between a receive and the write, the transitions of a connection, with blocks arriving meanwhile, build a batch as RunBatch does |
| Batch.BatchIsUnique | go/testimonyd/internal/socket/socket.go:269-287 | the polls determine the batch and the marks |
| Batch.BatchIsUnderstood | go/testimonyd/internal/socket/socket.go:278-288 | both clients read exactly the batch out of what is written |
| Wire.Be32RoundTrip | c/testimony.c:68-73 | big-endian encoding and decoding are inverse to each other |
| Wire.TLRoundTrip | go/protocol/protocol.go:98-109 | type and length survive ToTL and TLFrom if and only if the type has its top bit and the length fits in 16 bits, or both are zero |
| Wire.TypeRanges | go/protocol/protocol.go:61-71 | the four classes of types as ranges of numbers |
| Wire.TLInjective | go/protocol/protocol.go:106-109 | packed headers are distinct and never look like block indexes |
| Wire.SplitsAgree | c/testimony.c:58-66 | the C and the Go code split a word in the same way |
| Framing.ReadersAgree | go/testimony/testimony.go:203-227 | on every byte stream the Go and the C reader give the same index and leave the same bytes, unless the Go reader rejects a type |
| Framing.CReadsEncoded | c/testimony.c:378-397 | on any framed stream the C reader gives the first index and leaves the rest |
| Framing.GoReadsEncoded | go/testimony/testimony.go:206-227 | the Go reader does so if and only if no earlier TLV has a type other than server-to-client |
| Framing.ClientsReadTheSameBlocks | go/testimony/testimony.go:203-227 | both clients extract exactly the indexes, in order, from any mix of indexes and server TLVs |
| Framing.ParseEncoded | go/protocol/protocol.go:84-109 | decoding the concatenated encodings gives back the messages |
| Framing.EncodeParsed | go/protocol/protocol.go:98-109 | a stream that decodes is the encoding of what it decodes to |
| Framing.SentTlv | go/protocol/protocol.go:59-96 | SendTLV succeeds exactly for the types inside the two ranges and values of at most 0xFFFF bytes, and what it sends decodes to that TLV |
| Handshake.AcceptedByBoth | c/testimony.c:240-282 | whatever stream the Go client accepts, with an empty last TLV, the C client accepts with the same sizes and the same bytes left |
| Handshake.HelloIsSent | go/testimonyd/internal/socket/daemon.go:194-209 | none of the server's handshake messages is refused by SendTLV |
| Handshake.VersionFirst | c/testimony.c:231-238 | both clients reject exactly the streams whose first byte is not 2 for their version |
| Handshake.ConnectOnMessages | go/testimony/testimony.go:116-163 | for every framed stream, by its messages: where each client stops, with what outcome, with the last value of each size before that, and what it leaves unread |
| Handshake.HelloBytes | go/testimonyd/internal/socket/daemon.go:187-209 | the hello byte for byte, for all sizes |
| Handshake.HandshakeAgreement | go/testimonyd/internal/socket/daemon.go:187-209 | after the server's messages the clients hold its sizes, with exactly the following bytes unread, if and only if the sizes are positive and fit |
| Handshake.FanoutMsgIsSent | go/testimony/testimony.go:172-174 | Go and C send the same fanout index message |
| Handshake.FanoutBytes | c/testimony.c:300-307 | the fanout message byte for byte |
| Handshake.FanoutSelection | go/testimonyd/internal/socket/daemon.go:210-228 | the server selects socket i exactly for the message of index i with i in range; another header is unexpected, and an index out of range invalid |
| CClient.Combine | c/testimony.c:118-121 | shifting in four bytes gives the big-endian value |
| CClient.Client.Fill | c/testimony.c:91-103 | refilling changes nothing in the stream, and fails exactly when nothing more arrives |
| CClient.Client.RecvT | c/testimony.c:86-112 | for any chunks, the next s bytes are delivered and the remainder stays, or fewer than s bytes arrive |
| CClient.Client.RecvBe32 | c/testimony.c:113-123 | the next word of the stream |
| CClient.Client.DiscardBytes | c/testimony.c:183-197 | exactly n bytes are skipped |
| CClient.Client.Connect | c/testimony.c:231-289 | connecting gives the outcome, sizes and unread bytes that the stream stands for, for any chunks |
| CClient.Client.RecvFd | c/testimony.c:143-181 | one byte is taken from the socket, past the buffer; the error if it brings no descriptor |
| CClient.Client.Init | c/testimony.c:293-330 | refused a second time; else the fanout index is sent as far as the sends succeed, one byte of the stream is consumed if the buffer is empty, and after success all counters are zero |
| CClient.VerdictOf | c/testimony.c:363-377 | the first poll that is not interrupted decides between readable, timeout and error |
| CClient.Client.Wait | c/testimony.c:363-377 | polling is done exactly with a timeout and nothing buffered, and gives that verdict |
| CClient.Client.GetBlock | c/testimony.c:343-409 | the next index of the stream, range check, and compare-and-swap on its counter alone; a timeout or a poll error is returned only after such a poll, always if it is the first, and leaves the next block of the stream as it was |
| CClient.Client.ReturnBlock | c/testimony.c:423-447 | the counter is reset and, if it was sane, the index sent |
| CClient.Greet | c/testimony.c:231-284 | after the server's hello the buffer is empty |
| CClient.Consume | c/testimony.c:343-447 | on every byte stream, however chunked and whatever poll does, getting and returning blocks gives exactly the blocks of the stream and sends their indexes back in order |
| CClient.Session | c/testimony.c:300-447 | hello, descriptor byte and block stream stay aligned: the client gets all the indexes of the server's messages, in order |
| GoClient.Conn.Connect | go/testimony/testimony.go:116-163 | outcome, sizes and unread bytes that the stream stands for |
| GoClient.Conn.Init | go/testimony/testimony.go:165-200 | the fanout index is sent, one byte consumed and exactly one descriptor accepted; on any error the connection is closed |
| GoClient.Conn.Block | go/testimony/testimony.go:203-234 | the next index of the stream, or the error that the stream stands for |
| GoClient.Held.Return | go/testimony/testimony.go:237-245 | the index is sent as one framed message at most once; a failed write leaves the block as it was, and a second return dereferences nil |
| GoClient.Consume | go/testimony/testimony.go:203-245 | on every byte stream, getting and returning blocks gives exactly the blocks of the stream and sends their indexes back in order |
| GoClient.Session | go/testimony/testimony.go:101-245 | on hello, descriptor byte and block stream: the server's sizes, and all the indexes in order |
| PacketCount.OneAutomaticReturn | c/testimony.c:423-470 | for any interleaving of calls with positive amounts within the block, and whatever sends fail: no call is rejected, at most one index is sent, with the counter zero; exactly one send is tried if the amounts cover a block with packets and all calls completed, none if they do not |
| PacketCount.RejectedIffTooMany | c/testimony.c:457-463 | when all calls of an interleaving have ended, some call was rejected if and only if they returned more packets than the block has |
| PacketCount.ThreeTurns | c/testimony.c:423-470 | no call waits for another: three turns end it |
| PacketCount.MixedUse | c/testimony.c:434-439 | after any interleaving of return_packets, return_block is rejected if and only if some but not all packets have been returned, and empties the counter |
| PacketCount.BlockOfPointer | c/testimony.c:413-421 | a pointer gives block i exactly when it points into block i, and none exactly when it points outside the ring |
| PacketIter.CIter.Next | c/testimony.c:500-512 | the packets in order, then the end for ever |
| PacketIter.GoBlock.Next | go/testimony/testimony.go:254-267 | the object takes the step of the iterator |
| PacketIter.GoIteratesLikeC | go/testimony/testimony.go:252-267 | on every call, for ever, the Go iterator gives what the C iterator gives, if and only if the offset of the first packet is zero exactly for an empty block |
| PacketIter.GoFirstPassLikeC | go/testimony/testimony.go:252-267 | up to the first end it does so if and only if the first packet is not at offset zero or there is none |
| PacketIter.EmptyBlockPanics | go/testimony/testimony.go:254-263 | some call dereferences nil if and only if the block is empty and the offset of the first packet is not zero; then the second call does |
| PacketIter.DataOfPacket | go/testimony/testimony.go:276-282 | where the data of the current packet start, and when they are still right after the end |
| FanoutIds.CollectManual | go/testimonyd/internal/socket/daemon.go:94-106 | manual IDs are accepted if and only if none is negative or repeated; otherwise the first offending one decides the error |
| FanoutIds.NextFree | go/testimonyd/internal/socket/daemon.go:119-121 | the search ends at the least ID from autoID on that is not manual |
| FanoutIds.Allocate | go/testimonyd/internal/socket/daemon.go:91-124 | a configuration is accepted if and only if IDs and names are in order; manual IDs are kept, and the automatic ones are in order the positive integers that are not manual |
| FanoutIds.AssignedAreDistinct | go/testimonyd/internal/socket/daemon.go:94-124 | the assigned IDs are positive and pairwise distinct |
| FanoutIds.AssignedIsUnique | go/testimonyd/internal/socket/daemon.go:115-124 | these rules determine every assigned ID |

## Left out

- AFPacket, WaitForBlocks and the packet socket's options; the kernel is a step that sets the status of a block that it owns.
- Mapping of the ring, raw pointers and descriptor passing; the descriptor is one byte of the stream.
- BPF filters, statistics and their logging, the verbose log.
- Configuration parsing, user and group lookup, chown, listening and accepting.
- The times in `outstanding`; only zero or non-zero matters, so it is a set of indexes in the connection and an array of bool in the batching loop.
- The interleaved goroutines are proved correct as a transition system on values; the objects in Daemon.dfy update counts and status in place one atomic step at a time, with a connection's own variables as a value. Aliasing between goroutines other than through these steps is not captured.
- The 32-bit width of the reference count: Safety.CountIsHolders bounds the count by one more than the live connections.
- Reads in handleReads that return fewer than four bytes end the connection; they are among the read failures.
- After the daemon has closed a client's socket its reader gets no more data, as net.Conn promises.
- CClient.Client.GetBlock: how long poll waits is not modelled, because the code does not honour the timeout precisely.
- CClient.Client.ReturnBlock: is for one thread at the counter; PacketCount.OneAutomaticReturn has the concurrent calls.
- Daemon.Daemon.Broadcast: is for a broadcast during which nobody else runs; Safety.BroadcastReachesAll has every interleaving.
- PacketIter.GoBlock.Next: offsets that point outside the block, at which the Go code panics, are not modelled.
- CClient.Client.Connect: socket creation, bind and connect are not modelled.
- CClient.Client.RecvT: says nothing about the contents of out when it fails.
- PacketIter.CIter.Next: num_pkts of 2^31 or more, which the C iterator stores in an int, is not modelled.
- PacketCount.OneAutomaticReturn: is for calls that return no more packets than the block has; PacketCount.RejectedIffTooMany and PacketCount.MixedUse have the misuse that the code checks for.
- The command-line clients, the C header generator, build and service files.
