# Verified model of the queue, framing and RDMA engines of a userspace iWARP driver

This project models the parts of the driver whose guarantees only hold over whole runs, and proves those guarantees.
Check it with `dafny verify dfyconfig.toml`.

**The lock-free queue** (`common/concurrentqueue.h`), as its users in this repository use it: without tokens, so with
implicit producers only.

- `FreeList` is a step system of the reference-counted free list: one atomic operation per step, any number of threads.
- `Tickets` is the optimistic/overcommit dequeue protocol of one producer and any number of single and bulk consumers.
  Every counter a consumer loads may be an older value, except that of its own `fetch_add`. `WrappedTickets` runs the
  same protocol on 64-bit counters with `circular_less_than`.
- `SubQueue` adds the elements to the tickets: blocks of 32 slots, the block index as a map from block number to block,
  the producer filling blocks, undoing and publishing, consumers looking up, moving out, counting and freeing.
  `SubQueueSafety` has its invariant and `Queue` composes any number of sub-queues over one pool and one free list. A
  read of an absent entry or of a slot without element, and a write over an element, set a `crashed` flag.
  `QueueProgress` bounds the steps of an enqueue and of a claim and runs whole calls.
- `RingArithmetic`, `BlockRing` and `BlockIndex` are the growing circular block index itself. `BlockRing` is its state as
  a value: rings that share entries, and the unbounded block number each 64-bit key stands for. `BlockIndex` is the class
  with headers, entries and tail that are changed in place; its field `live` is the map that `SubQueue` calls `index`.
  `BlockReaders` is a step system of consumers that look blocks up, one load per step, while keys, tails and values are
  stored, the ring is doubled and insertions are taken back; it shows that such a lookup reads that map.
- `TryDequeue` is the choice among producers when no operation is in flight.
- `ProducerHash` is a step system of the thread-to-producer table: lookup in all tables, lazy migration, growth under
  the resize flag, insertion. A key load and the compare-and-swap after it are separate steps. `ProducerHashCalls` has
  whole calls: when they return, when they wait, when tables grow, and that entries migrate.

**MPA and DDP** (`suiw/mpa/mpa.cpp`, `suiw/ddp/ddp.cpp`; sections 4.1 and 4.5 of RFC 5044, sections 4 and 5.2 of
RFC 5041). `Wire` has the bytes of frames and headers on a little-endian host. `Mpa` has the socket, whose receive may
return fewer bytes than asked for, and the sending and the piecewise reading of frames. `Ddp` has segmentation,
placement and a receiver of whole frames as functions; `DdpStream` has the loops of the senders and of the receiver,
proved against them.

**The RDMAP engines** (`suiw/rdmap/rdmap.cpp`; sections 5.2, 5.3 and 5.5 of RFC 5040). `Rdmap` is a step system of two
peers, each with an application, a send thread and a receive thread, over two FIFO channels of DDP segments.
`RdmapSafety` has its invariant and `RdmapRuns` what follows for every run; `RdmapReads` follows reads from posting to
completion, `RdmapPipelined` has several reads under way at once, `RdmapPosts` ties channels, memory and completions
to the requests that applications post, and `RdmapTransfers` runs whole Writes and Sends. The send queue is two FIFO queues, one of the
application and one of the receive thread, because each enqueuing thread has its own producer; the queue of read buffers
is a bag, because it is filled by two threads. A read is sent in one step and pended in a later one, a receive is posted
in two steps, and all queued read responses share one scatter-gather entry that is loaded at each segment.

Where the code and its comments or the standards differ the model follows the code:

- The lookup in the block index divides by an unsigned block size, so it does not keep the sign as its comment says;
  `RingArithmetic.LookupFindsSlot` shows that it is right all the same for power-of-two capacities up to 2^59.
- The pad is `(len + 2) % 4`, so a frame is a multiple of four bytes exactly when the ULPDU has an even length
  (`Wire.FrameAlignment`), unlike section 4.1 of RFC 5044.
- The offset of an untagged segment is sent in host order and read in network order, so it is right exactly when the
  message has at most one segment (`Ddp.UntaggedOffsetsAgree`).
- A message whose last entry is empty, or 2^31 bytes or longer, has no last segment and is not received from its own bytes
  (`Ddp.TaggedReceivedIffClosed`).
- A response is read from the source of the read request that was handled last, so pipelined reads get each other's bytes:
  `RdmapPipelined.FirstGetsSecondsBytes` gives such a run for any two reads, `RdmapPipelined.WrongByte` one with numbers,
  and `RdmapPipelined.SegmentIsOwnIff` says exactly when a segment is right. With one read at a time the bytes are right
  (`RdmapReads.ReadIsExact`, `RdmapReads.ReadDelivers`).
- A read of length zero, or 2^31 or more, gets no response, and takes the responses of others with it when it is handled
  last (`RdmapPipelined.ResponseSkippedIff`), so a read behind which such a one is queued can complete unanswered
  (`RdmapPipelined.CompletedWithoutResponse`). When no such read is posted every completion follows the whole response
  (`RdmapReads.ReadCompletesWhole`).

## Model

| member | source | states |
|---|---|---|
| `FreeList.StepKeepsInv` | common/concurrentqueue.h:1438-1517 | Every step of `add`, `try_get` and `add_knowing_refcount_is_zero` keeps each node in one place, with a count of exactly the list's reference plus the outstanding `try_get` references. |
| `FreeList.ExecutionKeepsInv` | common/concurrentqueue.h:1438-1517 | The same in every state of every run of fewer than 2^31 - 1 threads in which only owners call `add`. |
| `FreeList.TakenNodeIsExclusive` | common/concurrentqueue.h:1469-1476 | A thread about to return a node from `try_get` is alone with it: nobody owns, inserts or returns it, it is off the list, and the source's assertion that the flag is clear holds. |
| `FreeList.HeadCasIsExact` | common/concurrentqueue.h:1468-1469 | A head CAS that succeeds in `try_get` installs the true current successor: the list afterwards is the list before without its first node. |
| `FreeList.EveryNodeInOnePlace` | common/concurrentqueue.h:1438-1517 | At every moment each node is owned, on the list once, or awaiting insertion or return by exactly one responsible party. |
| `FreeList.QuiescentPartition` | common/concurrentqueue.h:1438-1517 | With no operation in flight every node is either owned or on the list, and list nodes have count one. |
| `FreeList.IsASet` | common/concurrentqueue.h:1438-1517 | Seen from its clients the list is a set: in every run a call of `add` puts in a node that was not in it, the last step of a successful `try_get` takes one out that was, and no other step changes it. |
| `FreeList.SoloGetIsExact` | common/concurrentqueue.h:1454-1490 | A `try_get` that runs alone takes the first node of the list and leaves the rest, and takes nothing exactly when the list is empty. |
| `FreeList.SoloAddIsExact` | common/concurrentqueue.h:1438-1448 | An `add` that runs alone puts its node at the front of the list. |
| `FreeList.FailedGetSawEmpty` | common/concurrentqueue.h:1454-1490 | In every run a `try_get` comes back without a node only if the list was empty at some moment of the call. |
| `Tickets.StepKeepsInv` | common/concurrentqueue.h:2536-2604 | Every step of single and bulk consumers and of the producer keeps the invariant that accounts for each ticket as open, good or bad, even with stale loads. |
| `Tickets.GoodsWithinTail` | common/concurrentqueue.h:2541-2560 | If each good ticket, less the bad ones up to it, lies below the tail, then there are no more good tickets than published elements. |
| `Tickets.HeadWithinTail` | common/concurrentqueue.h:2546-2547 | The head, with everything decided but not yet claimed added, never exceeds the published tail. |
| `Tickets.HeadNeverPassesTail` | common/concurrentqueue.h:2784-2786 | In every state of every run the head is at most the tail. |
| `Tickets.ClaimsPublishedAndDisjoint` | common/concurrentqueue.h:2765-2786 | Every claimed index is published when it is claimed, and no two claims of a run overlap. |
| `Tickets.QuiescentCounters` | common/concurrentqueue.h:2541-2599 | With no dequeue in flight the optimistic count minus the overcommit is the head. |
| `Tickets.SoloDequeueIsExact` | common/concurrentqueue.h:2765-2864 | A dequeue running alone takes exactly the smaller of what it asked for and what there is. |
| `Tickets.TicketsKept` | common/concurrentqueue.h:2776-2786 | In every run a consumer keeps every ticket that the tail it saw covers and claims as many elements, returning only the others. |
| `Tickets.CallAdvances` | common/concurrentqueue.h:2536-2604 | Each of a consumer's own steps brings its call nearer to its end, and no step of another moves it. |
| `WrappedTickets.CircularLessThanIs` | common/concurrentqueue.h:468-480 | The circular comparison is true exactly when the distance modulo 2^64 is positive and below 2^63, and is the true comparison when the distance is. |
| `WrappedTickets.WantedWraps` | common/concurrentqueue.h:2767-2771 | The first decision of a dequeue on wrapped counters is that on unbounded ones. |
| `WrappedTickets.DecideWraps` | common/concurrentqueue.h:2776-2782 | The second decision of a dequeue on wrapped counters is that on unbounded ones. |
| `WrappedTickets.FullWraps` | common/concurrentqueue.h:2480-2482 | The test for a full sub-queue refuses exactly when the distance modulo 2^64 is zero or at least 2^63, so never while fewer than 2^63 - 32 elements are held. |
| `WrappedTickets.StepWraps` | common/concurrentqueue.h:2536-2604 | A step of the wrapped protocol is the image of the step of the unbounded one. |
| `WrappedTickets.ExecutionWraps` | common/concurrentqueue.h:2536-2604 | A wrapped run is the image of the unbounded run, of any length, while the compared distances stay below 2^63. |
| `SubQueueSafety.ClaimedBlockIsLive` | common/concurrentqueue.h:2549-2554 | An index that was published and whose element has not been moved out resolves to its own block. |
| `SubQueueSafety.MoveOneEffect` | common/concurrentqueue.h:2799-2805 | Moving out one element finds it in its slot and empties just that slot. |
| `SubQueueSafety.UsedUpBlockIsVacant` | common/concurrentqueue.h:1594-1613 | A block whose counter reached 32 holds no element any more. |
| `SubQueueSafety.WriteTarget` | common/concurrentqueue.h:2687-2704 | The producer writes into a block that the index still maps the element's number to. |
| `SubQueueSafety.WriteEffect` | common/concurrentqueue.h:2701-2703 | The write goes to a slot that is empty. |
| `SubQueueSafety.StepKeepsInv` | common/concurrentqueue.h:2609-2864 | Every step of the producer and of the consumers keeps the invariant of a sub-queue, and says which block changed hands. |
| `Queue.StepKeepsInv` | common/concurrentqueue.h:3039-3092 | Every step of any sub-queue keeps the invariant of the whole queue: blocks are never in two places. |
| `Queue.ExecutionKeepsInv` | common/concurrentqueue.h:3039-3092 | The invariant in every state of every run, with producers joining at any time. |
| `Queue.NoBadAccess` | common/concurrentqueue.h:2549-2554 | No run reads through an absent entry, reads a slot without element, or writes over an element. |
| `Queue.EveryBlockInOnePlace` | common/concurrentqueue.h:3039-3092 | Each block is in exactly one of the initial pool, the free list, or one sub-queue, and there under one number of the index, once in the producer's hands or in one consumer's; pooled and free blocks hold nothing. |
| `Queue.ClaimedElementIsThere` | common/concurrentqueue.h:2549-2554 | Every claimed but unread index still resolves to a live block whose slot holds the element enqueued under that index. |
| `Queue.FreedOnceWhenUsedUp` | common/concurrentqueue.h:2842-2852 | A block is about to be freed only after all 32 of its elements were moved out, and by one consumer. |
| `Queue.ClearedOnlyOnce` | common/concurrentqueue.h:2842-2852 | No two steps of a run clear the entry of the same block number of a sub-queue. |
| `Queue.Conservation` | common/concurrentqueue.h:2536-2604 | In every state of every run the elements delivered plus those in the slots that the index leads to are the elements enqueued, as multisets; each index is either delivered with its element and its slot empty, or has its element in its slot. |
| `Queue.DeliveryIsExact` | common/concurrentqueue.h:2547-2581 | Each delivery hands out, for the first time and to one consumer, the element that was enqueued under the claimed index. |
| `Queue.NeededIsPerMultiple` | common/concurrentqueue.h:2627-2634 | A bulk enqueue needs one block per multiple of 32 in [tail, tail + count). |
| `Queue.EnqueueAllOrNothing` | common/concurrentqueue.h:2610-2759 | When the producer is idle again, either it got fewer blocks than it needed, elements, tail and tail block are as before and the blocks returned are the blocks taken; or all elements are published in order, with one block taken per multiple of 32 and mapped under the numbers that follow. Either way no other entry was added or changed, none lies beyond the tail, and one is missing only if its block was used up. |
| `Queue.ReturnedIsFree` | common/concurrentqueue.h:2653-2664 | A block that the producer returns is on the free list after that step. |
| `Queue.QuietSubQueue` | common/concurrentqueue.h:2541-2599 | At rest the counters agree, what was delivered is what lies below the head, and the index holds exactly the blocks not used up. |
| `QueueProgress.EnqueueEnds` | common/concurrentqueue.h:2610-2759 | In every run an enqueue ends within four of the producer's own steps per block, one per element and three more, and it can always make the next one. |
| `QueueProgress.EnqueueCanSucceed` | common/concurrentqueue.h:3074-3092 | From every state of every run an idle producer, running on alone and taking blocks from the pool, then from the free list, then from the heap, publishes any elements. |
| `QueueProgress.ClaimEnds` | common/concurrentqueue.h:2787-2857 | In every run a claim is moved out within five of the consumer's own steps per element, whatever the others do, and then all of its elements have been delivered. |
| `QueueProgress.DequeueCanSucceed` | common/concurrentqueue.h:2765-2864 | From every state of every run in which no dequeue is deciding, an idle consumer running on alone gets the oldest elements, as many as it asks for or as there are, in the order enqueued. |
| `TryDequeue.DequeueFrom` | common/concurrentqueue.h:2765-2864 | A dequeue at rest takes the smaller of its limit and the size, and changes nothing when it takes nothing. |
| `TryDequeue.TryDequeueOne` | common/concurrentqueue.h:1104-1135 | With no operation in flight `try_dequeue` fails exactly when every producer is empty, and otherwise takes one element of the largest of the first three non-empty ones, of equals the first. |
| `TryDequeue.TryDequeueMany` | common/concurrentqueue.h:1210-1220 | With no operation in flight `try_dequeue_bulk` takes exactly the smaller of its limit and the total, and nothing from a producer before it has emptied the earlier ones. |
| `RingArithmetic.LookupFindsSlot` | common/concurrentqueue.h:2931-2947 | From any keyed slot the lookup lands on the slot of the number asked for, despite the unsigned division and across the wrap of 2^64. |
| `RingArithmetic.RoundWrapped` | common/concurrentqueue.h:2936 | Rounding a wrapped index down to 32 gives the wrapped base of the index's block. |
| `BlockRing.NextSlotFree` | common/concurrentqueue.h:2892-2895 | The slot after the tail can be reused exactly when the block one turn back is not live. |
| `BlockRing.InsertKeepsMap` | common/concurrentqueue.h:2892-2900 | Reusing a slot keeps the invariant of the current and all outgrown rings and leaves the map as it is. |
| `BlockRing.GrowKeepsMap` | common/concurrentqueue.h:2949-2991 | Doubling keeps the invariant and the map, and makes the slot after the tail usable. |
| `BlockRing.StoreAddsBlock` | common/concurrentqueue.h:2517-2518 | Storing the block of the entry just inserted adds exactly that block to the map. |
| `BlockRing.ClearRemovesBlock` | common/concurrentqueue.h:2849 | Clearing a live entry removes exactly its block from the map. |
| `BlockRing.RewindRestoresMap` | common/concurrentqueue.h:2494-2497 | Moving the tail back and clearing the entry leaves the map as before the insertion. |
| `BlockRing.UndoRestoresMap` | common/concurrentqueue.h:2653-2659 | The undo loop, which clears upward while the tail moves downward, ends with the map and the tail of before the bulk insertion. |
| `BlockRing.LookupFromTail` | common/concurrentqueue.h:2931-2947 | The tail's key is that of the number inserted last, and the lookup from it reaches the slot of any number. |
| `BlockRing.AnyKeyNamesItsSlot` | common/concurrentqueue.h:2937-2939 | Whatever key a reader finds in a slot of any ring it ever loaded, that key's number belongs in that slot. |
| `BlockRing.StaleLookupFinds` | common/concurrentqueue.h:2937-2947 | A lookup that loaded the ring, the tail or the key any time ago still ends at the entry keyed by the live block it asks for. |
| `BlockRing.NextSlotFinds` | common/concurrentqueue.h:2797-2853 | Adding one to the slot finds the next live block's entry, in a ring loaded any time ago. |
| `BlockReaders.StepKeepsInv` | common/concurrentqueue.h:2886-2991 | Every store of the producer (key, tail, value, doubling, taking back) and every load and clearing of a consumer keeps the map in the ring, and every consumer's ring knows the blocks it claims. |
| `BlockReaders.ExecutionKeepsInv` | common/concurrentqueue.h:2886-2991 | The same in every state of every run. |
| `BlockReaders.EntryOfLive` | common/concurrentqueue.h:2949-2991 | In the current ring or an outgrown one that was current when the block was there, the entry at a live number's slot is keyed with it and points to its block. |
| `BlockReaders.LookupIsExact` | common/concurrentqueue.h:2931-2947 | In every run a consumer that loaded header, tail and key at different times, or went on to the next slot, has the entry keyed with the block it claims and pointing to what the map holds. |
| `BlockReaders.FindsEveryBlock` | common/concurrentqueue.h:2787-2857 | By the time a consumer is done with a claim it has found every block of it, one after the other. |
| `BlockReaders.ReaderAdvances` | common/concurrentqueue.h:2931-2947 | A consumer can always make its next step, and each brings it nearer to the end of its claim. |
| `BlockReaders.MapSteps` | common/concurrentqueue.h:2886-2991 | Of all the stores only that of a block adds to the map, and only clearing takes from it, each exactly its own number. |
| `BlockReaders.InsertionAdds` | common/concurrentqueue.h:2892-2900 | With a usable slot the three stores of an insertion add the next number with its block. |
| `BlockReaders.UndoEnds` | common/concurrentqueue.h:2653-2659 | The undo loop ends with exactly the blocks of before in the map and the tail where it was. |
| `BlockIndex.BlockIndex.constructor` | common/concurrentqueue.h:2408-2414 | A new index is empty, and has no header exactly when memory was refused. |
| `BlockIndex.BlockIndex.First` | common/concurrentqueue.h:2949-2991 | The first header has 32 unused slots and the tail before slot 0. |
| `BlockIndex.BlockIndex.Grow` | common/concurrentqueue.h:2949-2991 | A grown index has twice the capacity, the same map, and the outgrown ring is kept as previous. |
| `BlockIndex.CopyEntries` | common/concurrentqueue.h:2966-2974 | The copy loop reads the ring exactly once round, oldest number first. |
| `BlockIndex.MakeEntries` | common/concurrentqueue.h:2975-2979 | New entries are distinct, new, and keyed invalid, whatever their values. |
| `BlockIndex.BlockIndex.NextIsFree` | common/concurrentqueue.h:2892-2895 | The test of the next slot's key and value succeeds exactly when the block one turn back is not live. |
| `BlockIndex.BlockIndex.Rekey` | common/concurrentqueue.h:2892-2900 | The two stores insert the next number and leave the map as it is. |
| `BlockIndex.BlockIndex.InsertEntry` | common/concurrentqueue.h:2886-2916 | It fails exactly without an index, or when the next slot is live and memory is refused, and then changes nothing; otherwise the next number is inserted and the map is the same. |
| `BlockIndex.BlockIndex.StoreBlock` | common/concurrentqueue.h:2517-2518 | The map gains the block under the number just inserted. |
| `BlockIndex.BlockIndex.RewindTail` | common/concurrentqueue.h:2918-2922 | The tail is at the previous number's slot. |
| `BlockIndex.BlockIndex.TakeBack` | common/concurrentqueue.h:2494-2497 | After a refused block the map and the tail number are those of before the insertion. |
| `BlockIndex.BlockIndex.EntryForIndex` | common/concurrentqueue.h:2924-2947 | For the 64-bit index of any element it returns the entry at the slot of that element's block. |
| `BlockIndex.BlockIndex.Retire` | common/concurrentqueue.h:2842-2852 | Looks up a live block by a wrapped index, returns it and removes exactly it from the map. |
| `BlockIndex.BlockIndex.UndoLoop` | common/concurrentqueue.h:2653-2659 | Each turn clears the next oldest entry and moves the tail back by one, through lookups that still succeed. |
| `BlockIndex.BlockIndex.Undo` | common/concurrentqueue.h:2653-2661 | The map and the tail number are those of before the bulk insertion. |
| `BlockIndex.BlockBaseDiff` | common/concurrentqueue.h:2628-2629 | The 64-bit differences give 32 times the number of blocks needed, and the base before the first of them. |
| `BlockIndex.BlockIndex.AddOne` | common/concurrentqueue.h:2635-2673 | One turn either adds one block to the map or leaves it, and fails exactly if room or the block is refused, or memory for a larger index that is needed. |
| `BlockIndex.BlockIndex.Reserve` | common/concurrentqueue.h:2622-2685 | Either one block per multiple of 32 is in the map under its number, or map and tail are as before, the blocks taken are returned to be freed, and something that the next block needed was refused. |
| `ProducerHash.NewCapacity` | common/concurrentqueue.h:3449-3452 | The doubling loop ends with a capacity whose half exceeds the count. |
| `ProducerHash.StepKeepsInv` | common/concurrentqueue.h:3395-3523 | Every step of every thread keeps the invariant of tables, counts and producers, whether allocations succeed or not. |
| `ProducerHash.ExecutionKeepsInv` | common/concurrentqueue.h:3395-3523 | The invariant in every state of every run. |
| `ProducerHash.TableHasRoom` | common/concurrentqueue.h:3478-3481 | At most b threads hold a count up to b, so the threads that may enter a table are fewer than three quarters of its capacity. |
| `ProducerHash.NoTableFillsUp` | common/concurrentqueue.h:3395-3523 | In every state of every run each table has fewer than three quarters of its slots taken, by distinct threads. |
| `ProducerHash.ProbesAreShort` | common/concurrentqueue.h:3398-3515 | No probe loop ever gets past three quarters of its table. |
| `ProducerHash.LookLoopEnds` | common/concurrentqueue.h:3398-3435 | A lookup loop takes fewer steps than three quarters of the table's capacity, whatever other threads do. |
| `ProducerHash.PutLoopEnds` | common/concurrentqueue.h:3498-3515 | An insertion or migration loop takes at most two steps for each slot it passes, so it ends too. |
| `ProducerHash.MineIsStable` | common/concurrentqueue.h:3395-3523 | Once a producer was created for a thread the thread keeps it. |
| `ProducerHash.OneProducerPerThread` | common/concurrentqueue.h:3395-3523 | Two calls return the same producer exactly when threads with the same id made them, and never an unset one. |
| `ProducerHash.FailsOnlyWithoutMemory` | common/concurrentqueue.h:3373 | A call fails only when an allocation failed. |
| `ProducerHash.GrownTableIsRoomy` | common/concurrentqueue.h:3478-3481 | After allocating a table a thread always passes the three-quarters test. |
| `ProducerHashCalls.SoloCallReturns` | common/concurrentqueue.h:3388-3523 | A call that runs alone with the lock free and memory granted returns a producer within a bound on its steps. |
| `ProducerHashCalls.RoomIsFound` | common/concurrentqueue.h:3476-3519 | Whoever holds the lock, a waiting call returns within a bound on its own steps once its count is below three quarters of the newest table. |
| `ProducerHashCalls.WaitsOnlyForTheLock` | common/concurrentqueue.h:3442-3474 | In every run a thread that finds its table half full takes the lock, and goes on without only while another thread holds it and is at work with it. |
| `ProducerHashCalls.GrowthIsNeeded` | common/concurrentqueue.h:3445-3466 | A table is only added by a thread whose count has reached half of the newest one, with the first capacity from twice that one on whose half exceeds the count. |
| `ProducerHashCalls.CallMigrates` | common/concurrentqueue.h:3398-3435 | When a call returns a producer the thread's slot is in the table that was newest when the call began, or a newer one. |
| `Wire.BeRoundTrip` | suiw/mpa/mpa.cpp:236-239 | Reading the big-endian bytes of a number gives the number. |
| `Wire.SwapMovesSmall` | suiw/ddp/ddp.cpp:347 | Reading a host-order offset below 2^16 in network order is right only for zero, and otherwise gives at least 2^16. |
| `Wire.FrameRoundTrip` | suiw/mpa/mpa.cpp:214-282 | Parsing a frame followed by anything gives its ULPDU and what follows. |
| `Wire.ControlBytes` | suiw/ddp/ddp.h:56-71 | The control bytes: T is the highest bit, L the next, and the version is 1. |
| `Wire.FrameAlignment` | suiw/mpa/mpa.cpp:252-259 | A frame is a multiple of four bytes exactly when the ULPDU's length is even. |
| `Wire.OneByteFrame` | suiw/mpa/mpa.cpp:252-259 | The frame of one byte is ten bytes long. |
| `Wire.TaggedRoundTrip` | suiw/ddp/ddp.cpp:226-239 | A tagged segment parses to its header, flags and payload. |
| `Wire.UntaggedRoundTrip` | suiw/ddp/ddp.cpp:295-308 | An untagged segment parses to its header, flags and payload, and to the swapped offset. |
| `Mpa.MpaSend` | suiw/mpa/mpa.cpp:214-282 | One message of header, pieces, pad and CRC goes out, with the length kept in 16 bits, or nothing does. |
| `Mpa.Gather` | suiw/mpa/mpa.cpp:224-250 | The bytes are the pieces in order and the length is their total modulo 2^16. |
| `Mpa.SentFrameIsFrame` | suiw/mpa/mpa.cpp:224-240 | Below 2^16 bytes what goes out is a well-formed frame. |
| `Mpa.ReadPayload` | suiw/mpa/mpa.cpp:329-341 | The loop succeeds exactly when the count asked for is not negative and that many bytes are there, and then has read just them, whatever the short reads. |
| `Mpa.ReadTrailer` | suiw/mpa/mpa.cpp:343-364 | Pad and CRC are consumed, each by one read that must come whole. |
| `Mpa.MpaRecv` | suiw/mpa/mpa.cpp:284-369 | A successful call delivers and consumes exactly what reading the next bytes of the frame gives, and succeeds if the bytes are there and small reads come whole. |
| `Mpa.ReadGoesOn` | suiw/mpa/mpa.cpp:307-327 | A read continues where the last one stopped and takes the trailer once, with the last bytes. |
| `Mpa.ReadInPieces` | suiw/mpa/mpa.cpp:284-369 | For every split of a ULPDU into positive sizes and every schedule of short reads, successful calls deliver its bytes in order and leave the stream at the next frame. |
| `Ddp.ChunksPartition` | suiw/ddp/ddp.cpp:75-103 | The segments cut what is sent of the gather list into consecutive non-empty pieces of allowed size, with L on the final one exactly when the last entry is sent. |
| `Ddp.PartitionSizes` | suiw/ddp/ddp.cpp:82-97 | Each segment carries the bytes at its own offset; header and payload are at most 65032, so the 16-bit sum never truncates; only the final one is last. |
| `Ddp.SegmentCount` | suiw/ddp/ddp.cpp:80-97 | An entry is cut into as few segments of 65014 bytes as hold it. |
| `Ddp.PlaceIs` | suiw/ddp/ddp.cpp:256-258 | Placing writes exactly the bytes of its range, in order, and nothing else. |
| `Ddp.PlaceReads` | suiw/ddp/ddp.cpp:256-258 | Bytes read back as they were placed, also across the end of the address space. |
| `Ddp.TaggedEndToEnd` | suiw/ddp/ddp.cpp:213-281 | Receiving what was sent of a tagged message writes exactly the gathered bytes at [TO, TO + total), reports the total and header, and leaves the stream at what follows. |
| `Ddp.TaggedReceivedIffClosed` | suiw/ddp/ddp.cpp:80-89 | A tagged message is received from its own bytes exactly when its last entry is neither empty nor too long. |
| `Ddp.ReceivedIsInRegion` | suiw/ddp/ddp.cpp:373-391 | A tagged message is received only if the tag in its header is registered and the offset lies in that region or at its end. |
| `Ddp.OutOfRegionIsRefused` | suiw/ddp/ddp.cpp:239-244 | A message whose header has an unknown tag or an offset outside its region is not received, whatever follows. |
| `Ddp.TaggedReceivedIff` | suiw/ddp/ddp.cpp:213-281 | A tagged message is received from its own bytes exactly when its tag is registered, its offset lies in that region or at its end, and its last entry is sent. |
| `Ddp.TrailingEmptyEntry` | suiw/ddp/ddp.cpp:80-89 | One byte followed by an empty entry is sent in full and never received. |
| `Ddp.UntaggedEndToEnd` | suiw/ddp/ddp.cpp:282-352 | An untagged message of one segment lands in the oldest buffer of its queue, byte for byte. |
| `Ddp.ReceivedHasQueue` | suiw/ddp/ddp.cpp:304-323 | An untagged message is received only for one of the three queues, with a message number of at least one, into the oldest buffer of that queue. |
| `Ddp.NoQueueIsRefused` | suiw/ddp/ddp.cpp:304-316 | One for another queue, or with message number zero, is not received. |
| `Ddp.UntaggedReceivedIff` | suiw/ddp/ddp.cpp:282-352 | An untagged message is received from its own bytes exactly when it names one of the three queues and a message number of at least one, its queue has a buffer, and its last entry is sent. |
| `Ddp.UntaggedOffsetsAgree` | suiw/ddp/ddp.cpp:153 | The receiver's offsets are the sender's exactly when the message has at most one segment. |
| `Ddp.UntaggedReceived` | suiw/ddp/ddp.cpp:282-352 | Receiving any untagged message takes the oldest buffer, reports the total and puts each segment at its swapped offset. |
| `Ddp.SecondSegmentLandsOff` | suiw/ddp/ddp.cpp:331-347 | The second segment of an untagged message lands 2^16 or more past the start of the buffer, never at its offset. |
| `Ddp.SecondSegmentIsMissing` | suiw/ddp/ddp.cpp:331-347 | After a message of two segments the buffer holds its old byte where the second should start. |
| `Ddp.TwoBytesApart` | suiw/ddp/ddp.cpp:331-347 | Two bytes from two entries in one untagged message end up 2^24 apart. |
| `Ddp.StreamStaysInStep` | suiw/ddp/ddp.cpp:198-356 | Tagged messages and untagged ones of one segment, sent back to back, are received as the same messages, one per call, with the same effect. |
| `DdpStream.SendTagged` | suiw/ddp/ddp.cpp:54-106 | The frames of the message's segments go out in order; after a failure those before it have gone out, and there is none on a socket that does not fail. |
| `DdpStream.SendTaggedEntry` | suiw/ddp/ddp.cpp:75-103 | The inner loop sends the segments of one entry, advances TO modulo 2^64 and sets L only on the last segment of the last entry. |
| `DdpStream.SendUntagged` | suiw/ddp/ddp.cpp:109-159 | The same for untagged messages, with the offset in host order. |
| `DdpStream.SendUntaggedEntry` | suiw/ddp/ddp.cpp:130-156 | The inner loop of the untagged sender. |
| `DdpStream.Stream.PostRecv` | suiw/ddp/ddp.cpp:161-170 | Buffers join the end of their queue; other queue numbers are refused. |
| `DdpStream.Stream.TaggedPayloads` | suiw/ddp/ddp.cpp:251-278 | The loop over segments has, when it succeeds, the effect of taking each frame whole, and succeeds if it can and small reads come whole. |
| `DdpStream.Stream.UntaggedPayloads` | suiw/ddp/ddp.cpp:324-351 | The same for untagged messages. |
| `DdpStream.Stream.RecvTagged` | suiw/ddp/ddp.cpp:213-281 | Header read, target check and payload loop together are the reception of the whole message; one for an unknown tag or outside its region is refused and leaves memory as it was. |
| `DdpStream.Stream.RecvUntagged` | suiw/ddp/ddp.cpp:282-352 | The same for untagged messages, with the buffer taken from its queue. |
| `DdpStream.Stream.Recv` | suiw/ddp/ddp.cpp:198-356 | `ddp_recv` refines receiving whole frames, in both directions when small reads come whole; a message for an unknown tag, an offset outside its region, or no queue changes neither memory nor queues. |
| `DdpStream.TransferTagged` | suiw/ddp/ddp.cpp:54-106 | Sender and receiver together: the receiver's memory is the old one with the gathered bytes at the target. |
| `RdmapSafety.StepKeepsInv` | suiw/rdmap/rdmap.cpp:36-331 | Every step of an application, a send thread or a receive thread keeps the invariant of both peers. |
| `RdmapRuns.ExecutionKeepsInv` | suiw/rdmap/rdmap.cpp:36-331 | The invariant in every state of every run. |
| `Rdmap.FieldsReadBack` | suiw/rdmap/rdmap.cpp:82 | The fields of a read request are read back from the buffer that its segment was placed in. |
| `RdmapRuns.ReadCompletionsInOrder` | suiw/rdmap/rdmap.cpp:123-137 | Read completions are a prefix of the reads sent, in order. |
| `RdmapRuns.ReadCompletionsNotEarly` | suiw/rdmap/rdmap.cpp:254-294 | When the k-th read is completed, everything ever sent in answer to it was placed at its sink before, even if a response arrived before its read was pended. |
| `RdmapRuns.ResponseCarriesSink` | suiw/rdmap/rdmap.cpp:317-331 | A response carries the sink tag and offset of the request it answers, the k-th that the other peer sent, under any pipelining. |
| `RdmapRuns.ReadBuffersNeverRunOut` | suiw/rdmap/rdmap.cpp:79-122 | Between requests the read queue holds its initial buffers, so with at least one no request finds it empty. |
| `RdmapRuns.WritesPrecedeSends` | suiw/rdmap/rdmap.cpp:151-165 | When a completion queue holds the completion of a Send, every Write segment that the other send thread sent earlier has been placed at the target it carries. |
| `RdmapPosts.MessageIsPosted` | suiw/rdmap/rdmap.cpp:195-316 | In every run the n-th message on a channel that is no response is that of the n-th request posted: its own identifier, tag and address or fields, and its own bytes from offset 0 without gap. |
| `RdmapPosts.EveryPostIsSent` | suiw/rdmap/rdmap.cpp:195-316 | Until a send fails every request taken has its message on the channel, but for the one under way. |
| `RdmapPosts.WriteLands` | suiw/rdmap/rdmap.cpp:295-300 | When a peer has taken the last segment of a Write its memory had the posted bytes at the posted address, and it still has them if nothing later was placed there. |
| `RdmapPosts.SendLands` | suiw/rdmap/rdmap.cpp:202-212 | A Send of one segment puts the posted bytes in the buffer whose turn it is. |
| `RdmapPosts.ReportsInOrder` | suiw/rdmap/rdmap.cpp:214-226 | The send thread reports requests in the order posted: Sends and Writes that went out as done, whatever failed as failed, each with its own identifier. |
| `RdmapPosts.EveryArrivalCompletes` | suiw/rdmap/rdmap.cpp:123-165 | When every Send handled found a posted request and every response a pended read, as many receives have completed as Sends were handled, and as many reads as responses. |
| `RdmapPosts.StopsExactlyWhen` | suiw/ddp/ddp.cpp:239-323 | Between messages the receive thread stops at the next one exactly when it is a Send without a posted buffer, a read request without read buffers, or a tagged message with an invalid target. |
| `RdmapTransfers.AppIsPosted` | suiw/rdmap/rdmap.cpp:195-199 | The send queue holds the requests that the application posted, in order. |
| `RdmapTransfers.WriteRunsThrough` | suiw/rdmap/rdmap.cpp:295-316 | From every quiet state of every run a posted Write can run through: it is reported as done, and the other memory is what it was with exactly the posted bytes at the posted address. |
| `RdmapTransfers.SendRunsThrough` | suiw/rdmap/rdmap.cpp:151-228 | A posted Send likewise, with a buffer and a receive request posted: both sides complete, and its segments are where the receiver reads their offsets. |
| `RdmapRuns.MemoryIsWhatWasPlaced` | suiw/rdmap/rdmap.cpp:60-77 | Memory is the initial memory with every received payload placed at its address in order of arrival. |
| `RdmapRuns.ReceiveCompletionsNotEarly` | suiw/rdmap/rdmap.cpp:425-441 | The r-th receive completion appears only after the r-th Send arrived to its end in the r-th buffer, even when posting interleaves with arrival. |
| `RdmapRuns.ReadBytesExact` | suiw/rdmap/rdmap.cpp:79-122 | With at most one read outstanding each response segment, when it is sent, carries the bytes of the read's own source range at its offset. |
| `RdmapReads.AnsweredStays` | suiw/rdmap/rdmap.cpp:317-331 | When every read posted has a length from 1 to 2^31 - 1 the completed responses on the channel are those to the first requests in order, none passed over. |
| `RdmapReads.NoGapsStays` | suiw/ddp/ddp.cpp:75-103 | On a channel each segment continues its message where the one before it ended, or starts a message at offset 0. |
| `RdmapReads.ReadCompletesWhole` | suiw/rdmap/rdmap.cpp:123-137 | With such reads, when the k-th read completes its response has been received whole: segments from offset 0 without gap to the one marked last, all at the read's sink, and no other segment belongs to it. |
| `RdmapReads.ReadIsExact` | suiw/rdmap/rdmap.cpp:79-137 | With one read outstanding at a time those segments make up the read's length, and each was filled from the read's own source at its offset when it was sent. |
| `RdmapReads.ReadDelivers` | suiw/rdmap/rdmap.cpp:79-137 | So if the source is unchanged while the response is sent and nothing received later overwrites the sink, the completed read has the source's bytes at its sink. |
| `RdmapReads.WaitingIsEnough` | suiw/rdmap/rdmap.cpp:123-137 | A peer that sends a read only when its earlier ones have completed never has two outstanding. |
| `RdmapRuns.ResponsesReadLatestSource` | suiw/rdmap/rdmap.cpp:53-106 | In every run a response segment is read from the source of the request handled last, whichever request it answers. |
| `RdmapPipelined.SegmentIsOwnIff` | suiw/rdmap/rdmap.cpp:104-112 | A response segment has the address, length and last mark that its own request asks for if and only if the source of the request handled last ends where its own does and the rest is cut in the same place. |
| `RdmapPipelined.EqualLengthsIff` | suiw/rdmap/rdmap.cpp:104-112 | For reads of equal length that is: if and only if both have the same source address. |
| `RdmapPipelined.FirstGetsSecondsBytes` | suiw/rdmap/rdmap.cpp:104-112 | For any two reads there is a run in which the first completes with the bytes of the second at its sink. |
| `RdmapPipelined.WrongByte` | suiw/rdmap/rdmap.cpp:104-112 | A run in which a read of the byte 1 completes with the byte 2 although the source never changed. |
| `RdmapPipelined.ResponseSkippedIff` | suiw/ddp/ddp.cpp:75-81 | A request is passed over without response exactly when the length handled last is zero or at least 2^31. |
| `RdmapPipelined.CompletedWithoutResponse` | suiw/rdmap/rdmap.cpp:123-137 | For any first read there is a run, with a read of length zero behind it, in which it completes and nothing was ever sent in answer to it. |

## Left out

- Explicit producers, producer and consumer tokens, rotation, move and swap: not used in this repository.
- Memory ordering: steps are sequentially consistent; only the loads of the dequeue counters may be stale.
- Element constructors and assignments that throw: the elements of this repository's queues are plain records.
- A bulk dequeue of zero elements: no caller asks for it.
- `TryDequeue.TryDequeueOne`: the walk over the other producers after the best one was emptied by somebody else is only covered by the safety of each dequeue, because at rest it is never reached.
- `BlockIndex.BlockIndex.InsertEntry`: an allocator that could grant more than 2^59 slots is not modelled, because no address space holds them.
- `ProducerHash.PutLoopEnds`: waiting for another thread's table is not bounded, because the source spins there for as long as the other thread takes.
- Removal of thread ids and recycling of producers at thread exit: that support is compiled out by default in the header's configuration for this platform.
- `Mpa.ReadPayload`: bytes already copied to the target when a read fails, and error returns of `recv` in the middle of a payload, are not modelled; a stream that ends there is the outcome `Stuck`, where the source loops.
- `Mpa.MpaSend`: partial transmission by `sendmsg` is not modelled, because the source does not look at the count.
- `DdpStream.Stream.Recv`: an empty buffer queue is a failure of the model, where the source logs it and writes through an uninitialised buffer.
- `RdmapSafety.StepKeepsInv`: after one failed send every later send of that peer fails too, where the source goes on with the next request; what a receiver makes of a message cut short by a failure and followed by another is not modelled.
- The three stores to the shared scatter-gather entry are one step, so a send thread that sees some of them and not the others is not modelled.
- A Send or Write whose last entry is empty or 2^31 bytes or longer, and a Read with more than one entry, are not posted.
- Send with invalidate, Terminate, the contents of `byte_len` and message sequence numbers at the receiver.
- The MPA request and reply handshake, CRC, markers, access control, stream teardown and thread joining.
- `libibverbs`, `librdmacm`, `libsuiw`, the daemons, benchmarks, argument parsing and logging.
