# A model of libnds and its proofs

libnds is the library that programs for the Nintendo DS use on its two CPUs, the ARM9 and the ARM7. This project models the parts of it where a mistake is easiest to make and hardest to see, and proves what they are for. Code that works by changing things in place is modelled as classes and methods over arrays and fields; its meaning is given by functions and step systems, and the methods are proved against them.

**The FIFO message system** (`FifoLayout`, `FifoWire`, `FifoProtocol`, `FifoSystem`, `FifoStore`, `FifoUpdates`, `FifoProgress`, `FifoBytes`, `FifoCpu`, `FifoEndToEnd`, `FifoDeadlock`, `FifoEmptyData`). The two CPUs exchange messages through two small hardware FIFOs. Each CPU keeps one pool of blocks that are linked by index into a free queue, a TX queue, an RX queue and three queues for each of the 16 channels.

- `FifoWire` is the wire format and the incremental parser.
- `FifoProtocol` says what each operation does to one CPU seen as a value: words in queues, messages in queues, and the history of what was accepted, written, read, handled and taken, and of the callbacks called.
- `FifoSystem` lets two such CPUs take any steps in any order and has the end-to-end theorems.
- `FifoDeadlock` says from which states all that was accepted can still be delivered.
- `FifoLayout`, `FifoStore` and `FifoUpdates` relate the arrays of the pool to that value; `FifoProgress` relates the states before and after a call.
- `FifoCpu.Fifo` is the class with the source's arrays and all its functions. Its ghost field `v` is the CPU as a value, `l` says which block is in which chain; `called` is what the application's callbacks got. Callbacks run with interrupts enabled: `RunCallback` calls any of the functions for sending, getting and checking and both interrupt handlers, any number of times and with any arguments, so the proofs cover every nesting.

**The relocator of dynamic libraries** (`Branches`, `Relocation`): the loop patches a loaded image in place; the patched instructions are decoded by the rules of the architecture.

**Numerics** (`SquareRoot`, `Atan2`, `AtanAccuracy`): a correctly rounded single-precision square root, and an integer arc tangent with a bound on its error. Dafny has no arc tangent, so that bound is about any function that lies between the partial sums of the arc tangent's series and obeys its addition law.

**Concurrency around the FIFO** (`Locks`, `Signals`, `LockRuns`, `SoundRequest`, `Counters`, `ConsoleRing`): mutex and semaphore, the scheduler's lists of waiting threads, the locks on those lists together with waits for interrupts and the deletion of threads, requests with replies, reads of running counters, and a ring buffer shared by the CPUs.

**Two smaller cores** (`CardRead`, `Clock`). `Words` and `Options` hold what all modules share.

Words are integers in a range; bit operations are written as division and remainder by powers of two, and wrap-around is written out. Hardware is a parameter: the depth of the FIFOs, the other CPU's words, the time that passes between two reads of a timer, the bytes of the card. The size of the pool is a parameter too, up to 16384 blocks, so that the length of each message fits the 16 bits it has in a block.

## Where the code does not do what it says

- `fifoSendDatamsg` accepts a message of no bytes, but the receiver then corrupts its pool (`FifoEmptyData`). The theorems about receiving are for messages of at least one byte.
- The pool is shared by words to send and words received. When both CPUs have filled their pools with words to send and the hardware FIFOs are full, neither can read a word, so neither can ever write one: they are blocked for good (`FifoDeadlock.DeadlockIsReached`, `BlockedIsForEver`). A send that takes the last block brings this about, and nothing else does (`BlockedBySend`); in all other states everything can be delivered (`DeliveryIffNotBlocked`, for pools that hold a whole message).
- The comments in `source/arm9/dlfcn.c` say that branches always reach in main memory. The range checks refuse some distances that the instructions can encode (`Branches.ThumbCallInMainRam`, `ArmCallInMainRam`, `FarArmCallIsRefused`). An ARM `BLX` is not turned back into a `BL`, and a conditional `BL` loses its condition when it becomes a `BLX` (`Branches.ArmCallReaches` has the exact condition, `BlxIsNotTurnedBack` and `ConditionIsLost` the inputs). A veneer is misaligned when the address space of the library does not end at a word address (`Relocation.JumpsToThumbReach`, and `CrookedJumpMisses` for an input).
- A thread that waits for a signal and one that waits for an interrupt are linked through the same field (`next_signal` and `next_irq` are a union). `cothread_yield_signal` and `cothread_yield_irq` do not clear the link of a thread that waits alone, `cothread_send_signal` unlinks only every second one of several waiting threads behind a thread that waits for something else, and `cothread_delete` does not look into the list of the signals. The lists can then hold threads that do not wait there, and can become a circle on which no signal ever returns. `LockRuns` has runs of locks, signals, waits for interrupts, interrupts and deletions in any order, says in exactly which of them the lists stay sound (`SoundIffNeverBad`), and proves that in these runs the locks of the code are those of `Locks`, which has the laws of mutexes and semaphores under the documented behaviour (`MutexIsSafeInCode`, `SemaIsSafeInCode`). What does not depend on the lists is proved for every run (`MutexIsExclusiveInCode`, `SemaCountsInCode`). Two runs of three threads and one mutex end in a circle, one of them by a wait for an interrupt (`CircleIsReached`, `InterruptEndsInCircle`).
- `cosema_try_wait` and `cosema_signal` load the value and store it later, with interrupts enabled, and `cosema_wait` goes to sleep some time after it has seen 0. A handler that signals the semaphore in between is overwritten, or wakes nobody: a thread can sleep while the value is 1 (`Locks.SleepsThroughSignal`). `Locks.GoodIffNeverLate` says in exactly which runs a semaphore stays good: no handler changes a value that a thread has loaded, signals after a thread has found 0, or takes the only unit after a thread has found it. Each time one does, a law is broken (`LateStepBreaksLaw`).
- The two stores that advance an index of the console ring are not one step. If the other CPU looks in between, at one particular place, characters are printed twice or lost (`ConsoleRing.ConsumerPrintsTwice`, `ProducerLosesAll`). `ConsoleRing.StepKeepsGood` has the exact condition.
- The two sends of a sound request and its reply can fail, and the callers do not look. `SoundRequest.LostOnlyWithoutRoom` says when: a request is lost exactly when the pool of the ARM9 has fewer than 7 free words at the send, a reply exactly when the pool of the ARM7 has too few even after words have been drained. The calling thread then waits for ever with the mutex held (`LostIsForEver`). `FullPoolLosesRequest` and `FullPoolLosesReply` are runs in which that happens, and `FifoDeadlock.PoolFillsUp` shows how a pool gets full.
- `rtcTimeAndDateSet` does not check the day of the week, which comes back changed from 160 on (`Clock.DateRoundTrip`).
- Both page checks of `cardRead` never take effect, because a block never crosses a page (`CardRead.BlockInPage`).

## Model

| member | source | states |
|---|---|---|
| FifoLayout.MoveKeepsLinked | source/common/fifosystem.c:107-199 | moving the front of one queue to the end of another, by relinking two blocks and the heads and tails, keeps the pool a set of disjoint terminated chains that cover all blocks |
| FifoLayout.PoolPartition | source/common/fifosystem.c:50-104 | every block is in exactly one chain, no chain meets a block twice, and the chains together have as many places as there are blocks |
| FifoLayout.ChainsAreDisjoint | source/common/fifosystem.c:50-104 | two places that hold the same block are the same place |
| FifoWire.DispatchIsExhaustive | source/common/fifo_messages_helpers.h:84-187 | of the four type tests in the order of the dispatch each word passes exactly one, so the receiver's last branch is dead |
| FifoWire.HeaderRoundTrip | source/common/fifo_messages_helpers.h:73-196 | a packed header has the kind, channel, length, address or value that was packed |
| FifoWire.ValidAddresses | source/common/fifo_messages_helpers.h:129-147 | the addresses that can be sent are those from 0x02000000 to 0x02FFFFFF, and exactly these come out as they went in |
| FifoWire.SmallValues | source/common/fifo_messages_helpers.h:83-113 | a value needs an extra word exactly from 2^25 on, where the header would lose some of it |
| FifoWire.ParseEncode | source/common/fifosystem.c:365-511 | parsing undoes packing for every kind of message, whatever words follow |
| FifoWire.CutMessageIsIncomplete | source/common/fifosystem.c:422-476 | a message that was cut at any word is incomplete and consumes nothing |
| FifoWire.ParseIsStable | source/common/fifosystem.c:422-476 | words that arrive later do not change how the first message is read |
| FifoWire.ParseAllConcat | source/common/fifosystem.c:363-511 | parsing in two instalments gives what parsing at once gives |
| FifoWire.ParseEncodeAll | source/common/fifo_messages_helpers.h:73-196 | parsing a stream of encoded messages gives these messages and no rest |
| FifoWire.ParseCutStream | source/common/fifosystem.c:363-511 | a stream cut at any word boundary gives a prefix of the messages, and the rest is the start of the next one |
| FifoProtocol.AcceptKeepsGood | source/common/fifosystem.c:536-604 | accepting a whole message keeps the words sent in order and no block lost |
| FifoProtocol.DrainKeepsGood | source/common/fifosystem.c:310-339 | so does writing one word to the hardware |
| FifoProtocol.ReceiveKeepsGood | source/common/fifosystem.c:343-361 | so does reading one word from it |
| FifoProtocol.DispatchKeepsGood | source/common/fifosystem.c:363-511 | dispatching the next message keeps reading in order, each queue in order, callbacks in wire order, and the count of blocks |
| FifoProtocol.TakeKeepsGood | source/common/fifosystem.c:685-785 | so does taking a message out of a queue |
| FifoProtocol.EnterKeepsGood | source/common/fifosystem.c:409-496 | so does the call of a callback |
| FifoProtocol.ReturnKeepsGood | source/common/fifosystem.c:489-503 | so does the end of a callback, which deletes its data message if that was not fetched |
| FifoProtocol.CallTellsMessage | source/common/fifosystem.c:409-496 | what a callback is told identifies an address or a value, and the channel and length of a data message |
| FifoSystem.StepKeepsInvariant | source/common/fifosystem.c:310-531 | every step of either CPU keeps the invariant of the whole system |
| FifoSystem.WordsConserved | source/common/fifosystem.c:310-531 | in every run: words consumed, RX queue, hardware FIFO and TX queue together are the encoding of all accepted messages in order, and what is consumed is exactly what is handled |
| FifoSystem.HandledInOrder | source/common/fifosystem.c:310-531 | in every run, the handled messages are a prefix of the accepted ones, and all of them once nothing is in transit |
| FifoSystem.QueuesGetPrefix | source/common/fifosystem.c:363-531 | in every run, each channel and kind gets a prefix of what was sent to it, each message once and in order; and the calls of callbacks, with their arguments, are a prefix of those that the accepted messages call for |
| FifoSystem.DispatchNeverStuck | source/common/fifosystem.c:363-511 | in every run, an activation that has a whole message can deliver it |
| FifoDeadlock.DeliveryIffNotBlocked | source/common/fifosystem.c:310-531 | from every state of every run, all that was accepted can still be delivered without a further send if and only if the two CPUs are not full of words for each other |
| FifoDeadlock.Delivers | source/common/fifosystem.c:310-531 | the steps that deliver it |
| FifoDeadlock.SomeProgress | source/common/fifosystem.c:310-531 | in every state that a run can reach, unless everything is delivered or both CPUs are full, some word or message can go on |
| FifoDeadlock.ProgressIsWork | source/common/fifosystem.c:310-531 | and each such step leaves less to do |
| FifoDeadlock.CutIsShort | source/common/fifosystem.c:459-476 | a message that has not arrived as a whole holds less than 33 blocks |
| FifoDeadlock.BlockedBySend | source/common/fifosystem.c:536-604 | the only step that can make both CPUs full is a send |
| FifoDeadlock.BlockedIsForEver | source/common/fifosystem.c:343-361 | once both are full, neither ever reads, writes, accepts or handles anything again |
| FifoDeadlock.DeadlockIsReached | source/common/fifosystem.c:310-361 | a run after which both are full, for pools and hardware of any size |
| FifoDeadlock.DeliveredIsAll | source/common/fifosystem.c:310-531 | when nothing is under way, each CPU has handled all that the other accepted, and called the callbacks for it |
| FifoDeadlock.PoolFillsUp | source/common/fifosystem.c:310-339 | a run in which the other CPU does not read: the hardware fills up and then the pool, and no word can be drained |
| FifoUpdates.AllocateRepresents | source/common/fifosystem.c:107-131 | the code of the allocator, on the arrays, moves the first free block to the caller |
| FifoUpdates.PutRepresents | source/common/fifosystem.c:343-361 | writing a word in an allocated block and appending it adds that word to the RX or TX queue |
| FifoUpdates.DropRepresents | source/common/fifosystem.c:157-171 | freeing the first block of the TX or RX queue takes one word off it |
| FifoUpdates.PassOnRepresents | source/common/fifosystem.c:404-458 | moving the block at the head of the RX queue to a channel's queue adds a message there |
| FifoUpdates.FileDispatches | source/common/fifosystem.c:478-486 | freeing the header of a data message and appending its other blocks is the dispatch of that message |
| FifoUpdates.TakeRepresents | source/common/fifosystem.c:753-778 | when the blocks of the first message of a queue are freed one by one, that message and no other is gone |
| FifoUpdates.UnfetchedIsSame | source/common/fifosystem.c:489-503 | after the callback for a data message the head of the queue is the same block exactly when the message was not fetched, and what is deleted then is that message |
| FifoUpdates.FlightIsAlone | source/common/fifosystem.c:489-503 | while a callback runs, the queue of its channel holds the announced message or nothing |
| FifoProgress.NextIsOnTape | source/common/fifosystem.c:363-511 | the next message read is the next one of all that the other CPU ever sends |
| FifoBytes.BytesOfWords | source/common/fifosystem.c:647-680 | the bytes of the words that memcpy fills are the bytes sent, and then zeros up to a whole word |
| FifoBytes.CopyWord | source/common/fifosystem.c:758-771 | the inner loop of fifoGetDatamsg copies the bytes of one word, low byte first, while there is room |
| FifoCpu.Fifo.constructor | source/common/fifosystem.c:860-925 | fifoInit establishes the invariant with every block but one usable |
| FifoCpu.Fifo.InitQueues | source/common/fifosystem.c:865-916 | its loops link all blocks into the free queue and empty all others |
| FifoCpu.Fifo.AllocBlock | source/common/fifosystem.c:107-131 | gives a block that is in no queue, or FIFO_BUFFER_TERMINATE exactly when none is free |
| FifoCpu.Fifo.FreeBlock | source/common/fifosystem.c:157-171 | puts the block at the end of the free queue |
| FifoCpu.Fifo.AppendList | source/common/fifosystem.c:173-199 | appends a list of blocks to a queue |
| FifoCpu.Fifo.WaitBlock | source/common/fifosystem.c:134-154 | gives a block without waiting, as every caller has made sure that there is one |
| FifoCpu.Fifo.FillTxFifoFromBuffer | source/common/fifosystem.c:310-339 | moves words in order from the TX queue to the hardware until the queue is empty or the hardware full; the send-empty interrupt is enabled afterwards exactly when words remain |
| FifoCpu.Fifo.DrainWord | source/common/fifosystem.c:316-328 | one turn of its loop moves the first word and frees its block |
| FifoCpu.Fifo.FillBufferFromRxFifo | source/common/fifosystem.c:343-361 | moves words in order to the RX queue until the hardware is empty or the pool is full; all words that were there at first and fit are among them |
| FifoCpu.Fifo.ReceiveOne | source/common/fifosystem.c:345-360 | one turn of its loop; the word stays in the hardware when there is no block |
| FifoCpu.Fifo.InternalSend | source/common/fifosystem.c:536-604 | all or nothing: the whole message is appended to the TX queue or no word of it; it is refused only when it is too long or there is no room after a fill; and the hardware is filled with what it takes |
| FifoCpu.Fifo.EnqueueMessage | source/common/fifosystem.c:564-595 | appends the first word and all extra words in a row, without waiting |
| FifoCpu.Fifo.ProcessRxBuffer | source/common/fifosystem.c:363-511 | terminates, and leaves an RX queue without a whole message |
| FifoCpu.Fifo.ProcessMessage | source/common/fifosystem.c:365-510 | one turn: handles the next message and calls its callback, if there is one, once and with its address, value or number of bytes, and no other callback; or ends at an incomplete message and changes nothing |
| FifoCpu.Fifo.DispatchAddress | source/common/fifosystem.c:404-421 | the address branch is the dispatch of the message at the head of the RX queue, and gives its address to the callback |
| FifoCpu.Fifo.DispatchValue | source/common/fifosystem.c:422-458 | so is the value branch, with the value; it gives up exactly on an incomplete message |
| FifoCpu.Fifo.DispatchData | source/common/fifosystem.c:459-487 | so is the data branch, with the number of bytes |
| FifoCpu.Fifo.CallbackPhase | source/common/fifosystem.c:409-503 | calls the callback once with its argument, and no other; a data message is out of its queue afterwards |
| FifoCpu.Fifo.DataCallback | source/common/fifosystem.c:487-503 | calls the callback once with the number of bytes; whatever the callback and interrupts during it do, the announced message is out of the queue afterwards, was taken once, and no other message was deleted |
| FifoCpu.Fifo.RunCallback | source/common/fifosystem.c:363-531 | the call of a callback: any number of nested sends, special commands, gets, checks and interrupts call no other callback and process no message, and only add words to the RX queue and take messages from the fronts of queues |
| FifoCpu.Fifo.ReadRxFifoAndProcessBuffer | source/common/fifosystem.c:515-531 | reads all words in the hardware that fit the pool; the outermost activation processes all whole messages, a nested one only reads words |
| FifoCpu.Fifo.RecvInterrupt | source/common/fifosystem.c:844-847 | the receive interrupt, at any moment, does the same |
| FifoCpu.Fifo.SendInterrupt | source/common/fifosystem.c:852-855 | the send interrupt fills the hardware; its enable bit is set exactly when words remain |
| FifoCpu.Fifo.SendSpecialCommand | source/common/fifosystem.c:607-611 | the command is accepted, or nothing is |
| FifoCpu.Fifo.SendAddress | source/common/fifosystem.c:614-622 | exactly this message is accepted or none; it is accepted when channel and address are right and there is a block, and refused otherwise, when there is no block even after a fill; the hardware is filled |
| FifoCpu.Fifo.SendValue32 | source/common/fifosystem.c:625-643 | the same, with one block or two |
| FifoCpu.Fifo.SendDatamsg | source/common/fifosystem.c:647-680 | exactly this message is accepted or none; with bytes to send it is accepted if and only if the channel is right, the source is not null, there are at most 128 bytes, and more free blocks than words |
| FifoCpu.Fifo.GetAddress | source/common/fifosystem.c:685-707 | gives the first address of the channel, removes it and reads the hardware; or gives zero and changes nothing |
| FifoCpu.Fifo.GetValue32 | source/common/fifosystem.c:709-731 | the same for values |
| FifoCpu.Fifo.GetDatamsg | source/common/fifosystem.c:739-785 | gives the bytes of the first data message that fit, reports their number, removes exactly this message and reads the hardware; -1 when there is none |
| FifoCpu.Fifo.CheckAddress | source/common/fifosystem.c:787-797 | reads the hardware, and then tells whether the channel has an address |
| FifoCpu.Fifo.CheckValue32 | source/common/fifosystem.c:827-837 | the same for values |
| FifoCpu.Fifo.CheckDatamsg | source/common/fifosystem.c:799-809 | the same for data messages |
| FifoCpu.Fifo.CheckDatamsgLength | source/common/fifosystem.c:811-825 | reads the hardware, and gives the length of the first data message, from the `extra` field of its block |
| FifoEndToEnd.ReceiverGetsPrefix | source/common/fifosystem.c:310-531 | two objects of the class, joined by the hardware: the receiver has handled a prefix of what the sender accepted, each queue has its share of it once and in order, and the callbacks got a prefix of their calls |
| FifoEndToEnd.AllArrives | source/common/fifosystem.c:310-531 | when nothing is under way and no whole message is left, everything accepted has been handled, each queue has its whole share, and the callbacks got all their calls |
| FifoEndToEnd.PoolIsSound | source/common/fifosystem.c:886-916 | in every valid state the free queue has one block more than the counter says, so it is never empty, and free blocks, TX, RX and queued words add up to the pool |
| FifoEndToEnd.DataRoundTrip | source/common/fifosystem.c:647-785 | a message of 1 to 128 bytes comes out as it was sent, cut to the buffer, and zero-filled up to a whole word |
| FifoEmptyData.EmptyDataIsSent | source/common/fifosystem.c:647-680 | a message of no bytes is sent as its header alone |
| FifoEmptyData.EmptyDataBreaksPool | source/common/fifosystem.c:461-486 | dispatching it when another word follows leaves a pool that is no partition into chains |
| FifoEmptyData.EmptyDataWritesOutside | source/common/fifosystem.c:479-484 | when no word follows, the length goes outside the pool |
| Branches.ThumbCallReaches | source/arm9/dlfcn.c:364-432 | the patched Thumb BL or BLX decodes to a call of the symbol in its state if and only if the symbol is Thumb or at a word address |
| Branches.ArmJumpReaches | source/arm9/dlfcn.c:433-505 | the patched B keeps condition and link and reaches the target if and only if that is a word address |
| Branches.ArmCallReaches | source/arm9/dlfcn.c:506-578 | the patched BL or BLX calls the symbol in its state exactly when BLX replaces an unconditional call, or BL stays BL and the symbol is at a word address |
| Branches.BlxIsNotTurnedBack | source/arm9/dlfcn.c:571-576 | a BLX to an ARM symbol stays a BLX and enters it in Thumb state |
| Branches.ConditionIsLost | source/arm9/dlfcn.c:564-570 | a call on a condition to a Thumb symbol is made always |
| Branches.VeneerLoads | source/arm9/dlfcn.c:470-479 | the veneer loads pc from the word after it |
| Branches.ThumbCallInMainRam | source/arm9/dlfcn.c:390-406 | within 4 MB a Thumb call is accepted except at the far end of a backward jump |
| Branches.ArmCallInMainRam | source/arm9/dlfcn.c:482-548 | within 8 MB an ARM call or jump is accepted except at that end |
| Branches.FarArmCallIsRefused | source/arm9/dlfcn.c:514-548 | a call over 9 MB is refused although BL encodes it |
| Branches.BranchMovesWithCode | source/arm9/dlfcn.c:508-512 | a branch that is left alone reaches the same place relative to the code wherever that is loaded |
| Relocation.RelocateOne | source/arm9/dlfcn.c:322-594 | the body of the loop, on the arrays, is one step of the specification, with the same error |
| Relocation.Relocate | source/arm9/dlfcn.c:301-597 | the loop over all relocations is the run of the specification |
| Relocation.ExternalByFlags | source/arm9/dlfcn.c:80-83 | a symbol is external exactly if it is in the main binary or unresolved |
| Relocation.StepAsks | source/arm9/dlfcn.c:335-343 | for every relocation the resolver is asked about its symbol with the value that the table holds; the answer is kept, and a refusal ends the loop |
| Relocation.StepFails | source/arm9/dlfcn.c:337-594 | one round ends with each error exactly in its case: the resolver, the type, the distance of an external branch, or the space for a veneer |
| Relocation.ValuesAreAsked | source/arm9/dlfcn.c:335-343 | after the loop the table holds, for each symbol, what the resolver said when it was asked once for each relocation of it |
| Relocation.SymbolIsResolved | source/arm9/dlfcn.c:335-343 | a relocation is applied with what the resolver said for it, after its answers to the earlier relocations of that symbol |
| Relocation.ResolverFails | source/arm9/dlfcn.c:335-343 | the loop ends with the failure of the resolver exactly when it gets to a relocation for which the resolver fails |
| Relocation.OtherBytesUnchanged | source/arm9/dlfcn.c:305-597 | bytes of the library outside the relocated places stay as they were |
| Relocation.EachPlaceIsRelocated | source/arm9/dlfcn.c:305-597 | with disjoint places, each place ends as what its own relocation makes of the word from the file |
| Relocation.VeneersNeverRunOut | source/arm9/dlfcn.c:192-201 | 8 bytes per relocation are enough, so the exit for no veneer space is never taken |
| Relocation.VeneersStay | source/arm9/dlfcn.c:462-480 | a veneer is not overwritten by later relocations |
| Relocation.ThumbCallsReach | source/arm9/dlfcn.c:364-432 | in the final image every external Thumb call reaches its symbol, under the condition above |
| Relocation.ArmCallsReach | source/arm9/dlfcn.c:506-578 | in the final image every external ARM call does |
| Relocation.JumpsToArmReach | source/arm9/dlfcn.c:433-505 | in the final image every external jump to ARM code does |
| Relocation.JumpsToThumbReach | source/arm9/dlfcn.c:462-505 | in the final image a jump to Thumb code reaches its veneer, which holds the symbol, if and only if the address space ends at a word address |
| Relocation.CrookedJumpMisses | source/arm9/dlfcn.c:462-505 | a library of six bytes whose jump is accepted and misses its veneer |
| Relocation.InternalBranchesReach | source/arm9/dlfcn.c:366-512 | in the final image a branch inside the library is unchanged and reaches the same place of it |
| Relocation.DataIsRelocated | source/arm9/dlfcn.c:345-588 | internal ABS32 is moved by the base, external is the symbol's value as the resolver gives it, TLS is that value plus 8 |
| SquareRoot.HwSqrt | source/arm9/math.c:16-99 | for every non-negative finite float the result is the nearest float to the root, and no float of another value is as near; infinities, NaNs, zeros and negative numbers as the comments say |
| SquareRoot.NearerThanIsNearer | source/arm9/math.c:16-99 | the comparison with midpoints, in whole numbers, means nearer on the real line |
| SquareRoot.RootIsNearest | source/arm9/math.c:44-60 | the rounded integer root of m * 2^25, in the right units, is the correctly rounded root |
| SquareRoot.NoTie | source/arm9/math.c:59-60 | the root never lies half-way between two candidates |
| SquareRoot.RootRange | source/arm9/math.c:44-60 | the new mantissa has exactly 24 bits and never carries out |
| SquareRoot.Shifted | source/arm9/math.c:42-53 | the halving of the exponent and the shift of the mantissa are exact for odd, even, negative and subnormal exponents |
| SquareRoot.Normalised | source/arm9/math.c:72-75 | a subnormal number is shifted until its top bit is the implicit one |
| Atan2.Atan2 | source/arm9/math.c:192-272 | no value leaves 32 bits, the divisor is at least 2^18, the result is in the quadrant of (x0, y0) and exact on the axes, and it comes from the angles of the turns taken and the slope they leave |
| Atan2.Cordic | source/arm9/math.c:233-248 | after step i, y is below x >> i; the angle is the sum of the angles of the turns taken, and turning the final vector back by them gives the first one within 3 units a turn |
| Atan2.StepKeepsTurned | source/arm9/math.c:238-247 | one step keeps 0 <= y < (x >> i) and the bound on x, whether it turns or not |
| Atan2.TurnKeepsDirection | source/arm9/math.c:240-246 | one step is a rotation and a scaling, up to what its two shifts cut off |
| Atan2.RunShape | source/arm9/math.c:194-204 | all turns together stay below a right angle |
| Atan2.Mirror | source/arm9/math.c:257-271 | the last lines put the angle in the octant and the quadrant of (x0, y0), and round it |
| AtanAccuracy.AccurateAtan2 | source/arm9/math.c:192-272 | for every input the result is within 0.7 units of the last place, 2^-12, of the real angle |
| AtanAccuracy.TableIsRounded | source/arm9/math.c:194-204 | each entry of the table is atan(2^-i) * 2^17 rounded to the nearest |
| AtanAccuracy.AnglesAreNear | source/arm9/math.c:238-247 | the sum of the angles of a run is near the sum of the real angles |
| AtanAccuracy.RunIsSlope | source/arm9/math.c:238-247 | the real angles of the turns and of the slope left add up to the angle of the vector turned back by them |
| AtanAccuracy.DirectionIsNear | source/arm9/math.c:238-247 | what the shifts cut off changes the direction by less than 1.2e-7 |
| AtanAccuracy.LastIsNear | source/arm9/math.c:250-254 | the shifted division is near the angle of the slope that is left |
| AtanAccuracy.RatioIsNear | source/arm9/math.c:217-229 | normalising the vector keeps its slope, up to bits shifted out |
| AtanAccuracy.QuarterOfPi | source/arm9/math.c:255 | how far the constant for pi is cut off |
| AtanAccuracy.PlacedIsNear | source/arm9/math.c:257-271 | mirroring with that constant keeps the error small in every octant |
| Locks.MutexIsSafe | include/nds/cothread.h:208-253 | under the documented wake-up: in every run of any number of threads at most one holds the mutex, it is free exactly when none does, and a thread sleeps only while one does |
| Locks.StepKeepsMutex | include/nds/cothread.h:221-253 | every step keeps that |
| Locks.NobodyWaitsForNobody | include/nds/cothread.h:237-253 | while a thread waits, it or the holder can go on |
| Locks.ReleaseLetsSleeperIn | include/nds/cothread.h:249-253 | after a release each sleeper that runs next gets the mutex |
| Locks.Comutex.TryAcquire | include/nds/cothread.h:221-228 | acquires exactly when the mutex is free |
| Locks.Comutex.AcquireTurn | include/nds/cothread.h:237-241 | a turn of the loop acquires, or the thread sleeps |
| Locks.Comutex.Release | include/nds/cothread.h:249-253 | frees the mutex, and wakes all its sleepers as documented |
| Locks.StepKeepsSema | include/nds/cothread.h:278-316 | a step of a thread, each load being one of its own, or of an interrupt handler keeps the count, what threads have found out and the sleepers right if and only if it is not a handler that comes late: after a thread has found no unit or loaded the value, and changing it, or after it has found the only unit, and taking that |
| Locks.GoodIffNeverLate | include/nds/cothread.h:278-316 | over whole runs: the semaphore is good throughout if and only if no handler comes late |
| Locks.LateStepBreaksLaw | include/nds/cothread.h:294-316 | after each late step, the thread that it came late for leaves a wrong count, or sleeps while there is something to take |
| Locks.SleepsThroughSignal | include/nds/cothread.h:312-316 | a run of one thread and one signal of a handler after which the thread sleeps and the value is 1 |
| Locks.SemaIsSafe | include/nds/cothread.h:264-316 | under the documented wake-up, in every run without a late step the value is the first value plus signals minus waits exactly while that fits 32 bits, no wait returns without a unit of its own, and a thread sleeps only while the value is 0 |
| Locks.Cosema.Signal | include/nds/cothread.h:278-282 | adds a unit, with the wrap of the counter, and wakes all sleepers as documented; the same in a handler and in a thread that is not interrupted |
| Locks.Cosema.TryWait | include/nds/cothread.h:294-303 | takes a unit exactly when there is one; the same in a handler and in a thread that is not interrupted |
| Locks.Cosema.WaitTurn | include/nds/cothread.h:312-316 | an uninterrupted turn of the loop takes a unit when there is one, and otherwise the thread sleeps |
| Signals.Scheduler.YieldSignal | source/common/cothread/threads.c:537-565 | is the step Yielded on the lists; sound lists stay sound if and only if the thread is not stale |
| Signals.Scheduler.YieldIrq | source/common/cothread/threads.c:456-495 | the same on the list of an interrupt |
| Signals.Scheduler.SendSignal | source/common/cothread/threads.c:567-618 | whenever the loop has an end: is the step Sent; on linked lists wakes exactly the threads that wait for the signal; sound lists stay sound if and only if no two of these stood in a row behind another thread |
| Signals.Scheduler.Interrupt | source/common/interruptDispatcher.s:232-270 | terminates on any links; on sound lists it wakes and counts exactly the threads that wait for the interrupt, and keeps the lists sound |
| Signals.Scheduler.Delete | source/common/cothread/threads.c:155-196 | takes the thread out of the first list of an interrupt that has it; sound lists stay sound if and only if it does not wait for a signal |
| Signals.YieldKeepsSound | source/common/cothread/threads.c:472-480 | the lists are sound after a yield of either kind exactly when the list was not empty or the thread's link was clear; otherwise no order of the waiting threads fits them |
| Signals.SendKeepsSound | source/common/cothread/threads.c:576-608 | the same for a signal and its condition |
| Signals.InterruptKeepsSound | source/common/interruptDispatcher.s:240-257 | an interrupt wakes exactly the threads that wait for it, and always keeps the lists sound |
| Signals.DeleteKeepsSound | source/common/cothread/threads.c:155-196 | deleting a thread keeps the lists sound exactly when it does not wait for a signal; otherwise no order of the waiting threads fits them |
| Signals.SendWakes | source/common/cothread/threads.c:576-608 | a signal wakes exactly the threads of the list that wait for it, and leaves the links of threads outside the list alone |
| Signals.TurnsPass | source/common/cothread/threads.c:576-608 | from any turn on, the loop comes to the end of the list, and links the threads it keeps |
| Signals.LeftAreOthers | source/common/cothread/threads.c:576-608 | the threads that the loop leaves in the list are all still waiting exactly under that condition |
| Signals.ClearsChain | source/common/interruptDispatcher.s:240-257 | from any turn on, the dispatcher's loop clears all links of its list and wakes the list's threads |
| Signals.WithoutIsChain | source/common/cothread/threads.c:165-177 | removing a thread at the head or behind another one leaves the chain of the others |
| Signals.ChainIsUnique | source/common/cothread/threads.c:576-608 | the links determine the list |
| Signals.Unlink | source/common/cothread/threads.c:598-607 | linking the last kept thread past the next one removes that one |
| Signals.CircleNeverEnds | source/common/cothread/threads.c:574-608 | on a circle of one or two threads that wait for the same signal the loop never ends, whatever signal is sent |
| LockRuns.StepKeepsSound | source/common/cothread/threads.c:155-618 | a step of a lock, a signal, a wait for an interrupt, an interrupt or a deletion keeps the lists sound if and only if it is not bad |
| LockRuns.SoundIffNeverBad | source/common/cothread/threads.c:155-618 | over whole runs of any locks and all those steps, the lists are sound throughout if and only if no thread yields stale, for a signal or an interrupt, no signal leaves a thread behind, and no thread is deleted while it waits for a signal |
| LockRuns.MutexStepIsSeen | include/nds/cothread.h:221-253 | a mutex step of the code, on sound lists, is the step of Locks |
| LockRuns.SemaStepIsSeen | include/nds/cothread.h:278-316 | so is a step of a semaphore |
| LockRuns.OthersDoNotSee | include/nds/cothread.h:36-45 | a step of one lock, another signal, an interrupt or the deletion of a thread that waits for no signal changes nothing for the other locks |
| LockRuns.RunRefinesMutex | source/common/cothread/threads.c:456-618 | a run of the code without a bad step is, for each mutex, a run of Locks |
| LockRuns.RunRefinesSema | source/common/cothread/threads.c:456-618 | and so for each semaphore, with the same late steps |
| LockRuns.MutexIsExclusiveInCode | include/nds/cothread.h:208-253 | in every run of the code, bad steps or not, at most one thread holds the mutex, and the value tells whether one does |
| LockRuns.MutexIsSafeInCode | include/nds/cothread.h:208-253 | in runs without a bad step no thread sleeps on a free mutex |
| LockRuns.ReleaseLetsSleeperIn | include/nds/cothread.h:237-253 | on sound lists a release returns, and a sleeper that runs next gets the mutex |
| LockRuns.SemaCountsInCode | include/nds/cothread.h:264-316 | in every run of the code without a late handler, bad steps or not, the semaphore counts exactly |
| LockRuns.SemaIsSafeInCode | include/nds/cothread.h:264-316 | and without a bad step no thread sleeps while it is positive |
| LockRuns.OneSleeperIsNeverBad | source/common/cothread/threads.c:456-565 | with one sleeper at a time for all signals and one for each interrupt, no step is bad |
| LockRuns.CircleIsReached | source/common/cothread/threads.c:537-618 | three threads and one mutex reach a circle, after which no signal returns, not even that of the release |
| LockRuns.InterruptEndsInCircle | source/common/interruptDispatcher.s:240-257 | after steps none of which is bad, the holder of a mutex waits alone for an interrupt, which wakes a sleeper of the mutex too; no signal returns any more |
| SoundRequest.ReplyIsOnes | source/arm9/sound.c:47-53 | in every run of any number of threads at most one request or reply is under way, and what a thread gets was computed from its own request |
| SoundRequest.StepKeepsGood | source/arm9/sound.c:47-53 | every step keeps that |
| SoundRequest.LostOnlyWithoutRoom | source/arm9/sound.c:49-51 | a step loses a waiting thread's answer if and only if the pool has no room for its message |
| SoundRequest.RoomLosesNothing | source/arm9/sound.c:47-53 | with 7 free words at each request and 2 at each reply no answer is ever lost |
| SoundRequest.FullPoolLosesRequest | source/common/fifosystem.c:666-669 | a run in which a full pool of the ARM9 loses a request |
| SoundRequest.FullPoolLosesReply | source/common/fifosystem.c:552-562 | a run in which a full pool of the ARM7 loses a reply |
| SoundRequest.LostIsForEver | source/arm9/sound.c:47-53 | it then waits for ever and keeps the mutex |
| SoundRequest.Arm7Sound.SoundDataHandler | source/arm7/audio.c:60-183 | sends exactly one reply, the right one, and enables only the channel it names |
| SoundRequest.OneReply | source/arm7/audio.c:60-183 | the request and the channels in use determine the reply |
| SoundRequest.ReplyIsPlayable | source/arm7/audio.c:69-140 | a sound gets a channel of its kind only; one that lets the ARM7 choose gets a free one, and is turned away only when all are in use |
| SoundRequest.ReplyIsAskedFor | source/arm7/audio.c:67-180 | who asks for a channel or a capture unit gets the one asked for, or none if there is no such one; the reply to the microphone is 17, no channel; what is no sound enables nothing |
| SoundRequest.ChosenIsFirst | source/arm7/audio.c:17-48 | a channel that the ARM7 chooses is the first free one of its kind |
| SoundRequest.Arm7Sound.GetFreeChannel | source/arm7/audio.c:17-26 | the first free channel, or -1 exactly when there is none |
| SoundRequest.Arm7Sound.GetFreePSGChannel | source/arm7/audio.c:28-37 | the same among 8 to 13 |
| SoundRequest.Arm7Sound.GetFreeNoiseChannel | source/arm7/audio.c:39-48 | the same among 14 and 15 |
| Counters.SystemCounter.GetTicks | source/common/system_counter.c:13-45 | returns the 64-bit time of the second read of the register if and only if no overflow was lost by then |
| Counters.ReadIsExact | source/common/system_counter.c:13-45 | the same of the value itself, for reads less than an overflow apart |
| Counters.RunIsExact | source/common/system_counter.c:47-50 | the count is exact in every run in which each overflow is serviced before the next |
| Counters.LaterIsTicks | source/common/system_counter.c:25-33 | letting time pass at once is letting it pass tick by tick |
| Counters.ReadsAreMonotone | source/common/system_counter.c:13-50 | over such a run the values read never go back, and lie between its first and its last tick |
| Counters.CpuGetTiming | source/common/timers.c:98-112 | returns the 32-bit time of the first or of the third read, not a mix, if the reads are less than an overflow apart |
| Counters.Timers.TimerElapsed | source/common/timers.c:34-51 | returns the time since the last call, modulo an overflow, and leaves other timers alone |
| Counters.NoTimeIsLost | source/common/timers.c:34-51 | the results of a row of calls add up to the time gone by if and only if no two calls are an overflow or more apart |
| ConsoleRing.StepKeepsGood | source/arm7/console.c:37-81 | with every store a step of its own, a step keeps the ring sound if and only if it is not a test that sees the other index between its two stores at the critical place |
| ConsoleRing.GoodIffNeverBlind | source/arm9/console.c:1141-1163 | a run keeps the ring sound throughout if and only if it has no such test |
| ConsoleRing.RingIsSafe | source/arm9/console.c:1141-1163 | in such a run what is printed is a prefix of what was put in, the rest is in the buffer unharmed, and one place stays empty |
| ConsoleRing.PairedIsNeverBlind | source/arm7/console.c:75-78 | if each index is advanced at one stroke, no run has such a test |
| ConsoleRing.ConsumerPrintsTwice | source/arm9/console.c:1149-1157 | a run in which a character is printed twice |
| ConsoleRing.ProducerLosesAll | source/arm7/console.c:60-78 | a run in which the characters in the buffer are lost |
| ConsoleRing.TestsAreRight | source/arm7/console.c:37-53 | both tests agree with what is in the buffer, except at those places |
| ConsoleRing.Console.PrintChar | source/arm7/console.c:55-81 | with the other CPU quiet, stores the character at the end exactly when there is room |
| ConsoleRing.Console.IsFull | source/arm7/console.c:45-53 | tells whether there is no room |
| ConsoleRing.Console.Flush | source/arm9/console.c:1141-1163 | with the other CPU quiet, prints all unread characters in order and terminates |
| CardRead.CardRead | source/common/card.c:159-227 | terminates, fills exactly the bytes asked for with the ROM from the offset, past the end of the addresses too; asks the card only for whole aligned blocks inside a page, for all blocks with a byte that is wanted, and for no others |
| CardRead.ReadBuffered | source/common/card.c:198-225 | the slow half of the loop brings at least one byte when any is missing, by one transfer, of the block that the offset is in |
| CardRead.BlockInPage | source/common/card.c:182-185 | a block at a block address never crosses a page |
| Clock.NLeapCountsLeapYears | source/arm7/clock.c:186-190 | the closed form counts the leap years from 1970 on, for every year |
| Clock.MktimeCountsDays | source/arm7/clock.c:204-223 | __mktime is the count of all days, year by year and month by month |
| Clock.NextSecondIsNext | source/arm7/clock.c:204-257 | the next second of a valid date is valid and one more in __mktime |
| Clock.TicksAgreeWithResync | source/arm7/clock.c:181-184 | counting seconds and reading the clock again agree after any time |
| Clock.MktimeKeepsOrder | source/arm7/clock.c:204-223 | __mktime keeps the order of dates strictly |
| Clock.DateRoundTrip | source/arm7/clock.c:313-359 | a date whose fields fit the registers, as every date does that passes the check, comes back with its time, and as it was written if and only if the day of the week fits too |
| Clock.DigitsAreRead | source/arm7/clock.c:313-335 | registers of any digits are read as these digits, field by field; the two bits beside the hours do not count in the 24-hour mode, and in the 12-hour mode are read as tens of hours |
| Clock.FlagsAreMasked | source/arm7/clock.c:323-324 | in the 24-hour mode a written date comes back whatever the chip has put beside the hours |
| Clock.BcdRoundTrip | source/arm7/clock.c:23-37 | a byte survives BCD and back if and only if it is below 160 |
| Clock.BcdRoundTripBack | source/arm7/clock.c:23-37 | the other way round, if and only if the low digit is a digit |
| Clock.BcdToInteger | source/arm7/clock.c:23-27 | converts the bytes in place |
| Clock.IntegerToBcd | source/arm7/clock.c:29-37 | the same back |
| Clock.RealTimeClock.TimeAndDateGet | source/arm7/clock.c:313-335 | gives the date the registers say, with the flag beside the hours masked |
| Clock.RealTimeClock.TimeAndDateSet | source/arm7/clock.c:337-359 | writes a valid date so that it reads back, and leaves the registers alone otherwise |
| Clock.RealTimeClock.Resync | source/arm7/clock.c:361-367 | stores the seconds of what the registers say, and is in step with the clock if that is a date |
| Clock.RealTimeClock.Second | source/arm7/clock.c:181-184 | when the clock goes on to its next second and the interrupt counts, the count stays in step, whatever the day of the week is |

## Left out

- FifoCpu.Fifo: callbacks are installed before traffic. `fifoSetAddressHandler`, `fifoSetValue32Handler` and `fifoSetDatamsgHandler` over queues that are not empty can deliver a fresh message before an older one; their length for the callback is taken from the first word of data (line 284), not from the header.
- FifoCpu.Fifo.ProcessMessage: no special commands come in. The source answers each of them with a reset or a crash, and never goes on.
- FifoCpu.Fifo.DispatchData: no data messages of no bytes come in; `FifoEmptyData` shows what they do.
- FifoCpu.Fifo.RunCallback: a callback does not install callbacks. The pointer of the user, which goes to a callback unchanged, is not modelled.
- FifoCpu.Fifo.CheckDatamsgLength: no interrupt comes between the check and the read of the head of the queue.
- FifoCpu.Fifo.SendDatamsg: no interrupt comes between the early check and the send.
- FifoCpu.Fifo.WaitBlock: the loop that waits with interrupts enabled is not modelled, because its callers never get there.
- FifoCpu.Fifo.GetDatamsg: the bytes are returned as a sequence, not written through a pointer; that a buffer is large enough is the caller's matter.
- FifoCpu.Fifo.InternalSend: the check for a null list of words is in its caller, which models a missing source as an option.
- The error bits of the hardware FIFO, the critical section as such (a flag saved and restored), and whether the other CPU ever reads: `FifoDeadlock` says when delivery is possible, not that it happens; there is no fairness.
- Relocation.Relocate: reading the file, allocating and clearing memory, constructors and destructors, symbol names and error texts; the resolver is a function of the symbol's index and value. Only the first relocation section is applied by the source, so there is one.
- Relocation.StoreWord: a word is stored at its own address. The CPU stores to the aligned word, so at places that are not word-aligned, and in veneers of a library whose address space does not end at a word address, the bytes are different.
- Branches.ArmCallReaches: the source does not check what instruction stands at the place; the proof is about a BL, or a BLX, there.
- Atan2.Atan2: not for (0, 0), where the count of leading zeros has no value, nor for the most negative int, whose absolute value does not fit.
- Of `source/arm9/math.c`, `normalizef32` and `crossf32`.
- Locks.Comutex.Release: the wake-up is the documented one; `LockRuns` has the locks on the list of the code. The same holds for Locks.Cosema.Signal.
- Locks: a yield in an interrupt handler, which returns at once; mutexes in handlers; handlers that interrupt handlers. The store of a release or a signal and the call of `cothread_send_signal` behind it are one step.
- Signals.Scheduler: which thread runs next, and the halt when all threads wait. The lists of the auxiliary interrupts of the ARM7 are lists like the others.
- Signals.Scheduler.Delete: on lists that are not sound, a deletion is a step only when all lists of interrupts have an end; and the fields of a deleted thread, whose memory is freed, are taken to stay as they are.
- SoundRequest.StepKeepsGood: the mutex is that of `Locks`, with the documented wake-up; `LockRuns` says in which runs the code has it. The thread that waits for a reply waits for an interrupt in the source.
- SoundRequest.Arm7Sound: registers other than the enable bit of a channel; the C code cuts the channel number of the caller to a signed byte before it is sent.
- SoundRequest.LostOnlyWithoutRoom: what other traffic does to the two pools is free, and so is how many words are drained before a reply.
- SoundRequest: a reply that arrives between the check and the sleep of the waiting thread is a matter of liveness, and not covered.
- Counters.SystemCounter: the handler and the clearing of its interrupt flag are one step.
- Counters.CpuGetTiming: `cpuEndTiming` reads in the same way and then stops the timers.
- ConsoleRing: the buffer size given by the caller is cut to 16 bits; sizes from 1 to 65535 are covered. The two stores of an index advance are taken as they stand in the C code.
- ConsoleRing.Console.PrintChar: the loop that waits for room is left out; the method tells that there was none.
- CardRead.CardRead: not for a buffer of all memory but less than a block, where `block_len += block_offset` would wrap.
- Clock.RealTimeClock.Resync: not when the registers hold no month, where the source reads outside its table.
- Clock.NextSecond: ends with the last second of 2099, which the two digits of the year cannot go beyond.
- Clock: the transfer of single bits to the clock chip, the deprecated functions, and the functions for the time without the date, which go the same way.
- Drivers, graphics, console drawing, file systems, decompression, the tables of sines and tangents, and text conversion: the rest of the repository.
