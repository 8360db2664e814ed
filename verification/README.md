# eROIL: a verified model

eROIL moves labelled messages between nodes: over a shared-memory ring to nodes on the same machine,
over stream sockets to the others. This project models the parts of it that other parts rely on and
proves what they are relied on for. `dafny verify dfyconfig.toml` checks all of it.

- **The ring** (`bytes`, `records`, `ring_layout`, `shm_ring`, `shm_results`). `ShmBlock` is one node's
  block as a byte array with the header and metadata fields beside it. Its calls, taken one at a time,
  refine a FIFO of messages.
- **The ring under concurrency** (`ring_machine`, `ring_invariant`, `ring_runs`, `ring_solo`,
  `ring_tickets`, `ring_calls`, `ring_passes`, `ring_order`, `ring_scripts`, `ring_stale`,
  `ring_restart`, `ring_oversized`, `ring_capacity`). Any number of writers and one consumer,
  interleaved one access to shared memory at a time: load head, load tail, compare-exchange, store
  WRITING, fill any number of bytes, publish, post; poll, load the state word, read the header (all of
  its fields at once), copy any number of bytes, advance. What a writer keeps in local variables
  between two accesses is in its entry of `writers` and in the record it owns (`log`, `own`). The
  compare-exchange and the WRITING store are two steps, and the consumer does not clear headers, so a
  load of the state word can be *stale*: a left-over of an earlier lap, read from a record that has
  been reserved and not yet marked.
  - Without stale loads every run of any length is safe (`RunInv`, `DeliveredInOrder`) and never stuck
    (`NoDeadlock`); a thread or the consumer that goes on alone gets done (`AloneGetsAnswer`,
    `TakesNext`). There is none before the head has passed the block end (`FirstLapRun`) and none on any
    lap if reservation and marking are one step (`FusedRun`). Why a send fails is exact for all runs,
    with stale loads or without (`FailsExactlyIf`).
  - How far the head may go with the two steps apart is exact, for every block that can hold a message
    and every payload limit above zero: all runs from a fresh block whose head stays at or below L
    deliver a prefix of what was reserved if and only if L is less than the block size plus 56
    (`SafeExactlyBelow`; between the block size and that the head never stands).
  - A stale load is the only step that can break the invariant, and always does (`LookInv`): the
    consumer then goes by a state word that is not the record's. That need not end in a wrong delivery,
    because the writer may catch up before the rest of the header is read (`StaleYetHarmless`).
  - "Fresh" means after `init_as_new`. `reinit`, which `create_or_open` uses for a block that exists
    already, leaves the old headers in place, so a record that is reserved and not yet marked can read
    as one of the generation before. The consumer then flushes, and a message whose send succeeded can
    be lost (`FlushLoses`). How far the head may go is exact here too: whatever the memory holds, all
    runs whose head stays at or below L go undisturbed if and only if L is less than 112, or less than
    the block size in blocks of less than 160 bytes (`UndisturbedExactlyBelow`). With reservation and
    marking in one step every run is safe over any memory (`SafeAfterRestart`).
- **The receive worker** (`label_header`, `shm_worker`): what one wakeup distributes and leaves behind.
- **Send jobs** (`send_machine`, `send_invariant`, `send_runs`, `send_counts`, `send_solo`, `send_iosb`):
  callers of `enqueue_send` and the two send workers around the counter `pending_sends`, interleaved
  one shared access at a time.
- **Receive slots** (`slot_rings`, `recv_slots`): a subscriber's message slots and IOSB ring in the
  four signal modes.
- **Routes** (`lists`, `label_snapshots`, `route_table`, `transports`, `router`, `reconcile`,
  `manager`): handles, routes, generations, send jobs, and the two passes over a broadcast message.
- **Framing** (`tcp_client`, `socket_worker`): the receive and send loops against a scripted operating
  system, and the worker that cuts the stream back into labels.

Where the code and what it says about itself differ, the model follows the code:

- The log line for a record larger than the receive buffer says that it is skipped. The tail does not
  move, so the record is found again at every wakeup (`ShmBlock.Recv`, `ShmWorker.LeftBehind`).
- The size check of `send` compares with the whole data block; a reservation between the usable part
  and the whole can never be placed (`RingCapacity.NeverFits`).
- An oversized label declaration makes the receive worker leave its drain loop instead of going on
  (`ShmWorker.OversizedStops`); for a while the worker can then sleep although a posted message waits
  (`RingOversized.Oversleeps`).
- A debug assertion in `build_send_job` limits a frame, header included, to the size that `open_send`
  allows for the data alone, and so fails for the largest 28 sizes (`LabelFrame.AssertionFailsFor`); the
  model has the branches of a release build.
- Handle numbers are 64-bit but the handles keep 32 bits. When a number comes round while it is still
  in use, the opener gets the other handle (`Manager.OpenSend`).
- The send worker uses `send`, for which a short send is a success (`TcpClient.Send`), so frames on the
  wire are complete only if the operating system takes them whole.

## Model

| member | source | states |
|---|---|---|
| `Bytes.LittleEndianInverse` | eROIL/src/shm/shm_header.h:38-50 | an unsigned field survives being stored in its width, least significant byte first, and read back |
| `Bytes.FromLittleEndianInverse` | eROIL/src/shm/shm_header.h:38-50 | reading bytes as an unsigned field and storing the field gives the same bytes |
| `Bytes.StoredBytes` | eROIL/src/shm/shm_send.cpp:157-182 | the four stores of a writer (first state word, fields, payload, final state word) leave exactly the record image in its slot and change nothing outside it |
| `Bytes.WordReplaced` | eROIL/src/shm/shm_send.cpp:181-182 | publishing replaces the state word and leaves the rest of the record in place |
| `Records.HeaderRoundTrip` | eROIL/src/shm/shm_header.h:38-50 | every record header whose fields fit their widths decodes from its 48 bytes to itself |
| `Records.HeaderLayout` | eROIL/src/shm/shm_header.h:38-50 | every field of a record header lies at its byte offset, lowest byte first |
| `Records.ImageLayout` | eROIL/src/shm/shm_send.cpp:119-182 | what a writer lays down for a message or a wrap, value by value and byte offset by byte offset |
| `Records.ImageDecodes` | eROIL/src/shm/shm_header.h:38-50 | from the image of a data or wrap record the consumer reads back the header, the state word and the payload it was made from |
| `RingLayout.AlignUpIsLeast` | eROIL/src/shm/shm_header.h:52-54 | align_up gives the least multiple of the alignment that is not below its argument |
| `RingLayout.OffsetIsRemainder` | eROIL/src/shm/shm_header.h:70-76 | the block offset used in the proofs is the remainder by the block size |
| `RingLayout.Places` | eROIL/src/shm/shm_header.h:56-76 | header and payload of a position lie at 384 plus its remainder by the block size, the payload 48 bytes further on, and payloads end 48 bytes before the block end |
| `RingLayout.DeployedGeometry` | eROIL/src/shm/shm_header.h:56-63 | metadata at 64, data at 384 and the deployed block size satisfy all the model asks of a block (metadata of 320 bytes assumed) |
| `RingLayout.PlacedFits` | eROIL/src/shm/shm_header.h:70-76 | a record placed where a writer may place it lies inside the block with header and payload, so mapping, reading and writing it succeed, and it ends at a position where the next record may begin |
| `RingLayout.SlotsDisjoint` | eROIL/src/shm/shm_send.cpp:79-142 | two records within one block length of each other share no byte |
| `RingLayout.WrapNeverOverruns` | eROIL/src/shm/shm_send.cpp:79-142 | the wrap reservation, which is never checked against free space, does not overrun the tail: record boundaries never fall into the last 48 bytes of the block |
| `RingLayout.InspectIntact` | eROIL/src/shm/shm_recv.cpp:183-247 | the consumer accepts everything a sender publishes, wrap and data records alike; only a message without payload is judged corrupt |
| `RingLayout.InspectBeyond` | eROIL/src/shm/shm_recv.cpp:183-255 | four zero state bytes are taken for a record still being written; otherwise a wrong magic number for corruption; otherwise another epoch for a reason to flush; otherwise a state word that is neither 1 nor 2 for an unknown one; otherwise an impossible total size, a message without payload or a wrap with one for corruption; everything else for a record |
| `RingLayout.OtherStaysIntact` | eROIL/src/shm/shm_send.cpp:157-182 | writing one record leaves every other record within a block length complete in memory |
| `ShmRing.RingPush` | eROIL/src/shm/shm_send.cpp:157-182 | a record written behind the others extends the chain of complete records and disturbs none of them |
| `ShmRing.RingEndsAtBoundary` | eROIL/src/shm/shm_send.cpp:96-132 | behind any chain of records the head is 8-aligned and outside the last 48 bytes of the block |
| `ShmRing.ShmBlock.InitAsNew` | eROIL/src/shm/shm_recv.cpp:67-101 | initialising zeroes the block, fills in the header and yields the empty queue in generation 1 |
| `ShmRing.ShmBlock.Reinit` | eROIL/src/shm/shm_recv.cpp:103-146 | re-initialising yields the empty queue in the next generation whatever the block held, or starts afresh if the header is not ours |
| `ShmRing.ShmBlock.FlushBacklog` | eROIL/src/shm/shm_recv.cpp:277-300 | whatever lies between tail and head, unpublished or of an older generation, flushing yields the empty queue |
| `ShmRing.ShmBlock.Write` | eROIL/src/shm/shm.cpp:30-37 | write succeeds exactly if the range is inside the block, then stores exactly those bytes, and otherwise changes nothing |
| `ShmRing.ShmBlock.Read` | eROIL/src/shm/shm.cpp:21-28 | read succeeds exactly if the range is inside the block, then copies exactly those bytes, and otherwise changes nothing |
| `ShmRing.ShmBlock.Publish` | eROIL/src/shm/shm_send.cpp:157-182 | writing a record appends it to the unread records and keeps all of them intact |
| `ShmRing.ShmBlock.PublishWrap` | eROIL/src/shm/shm_send.cpp:112-132 | a wrap record moves the head to the block start and leaves the queue of messages unchanged |
| `ShmRing.ShmBlock.TryReserve` | eROIL/src/shm/shm_send.cpp:79-142 | one pass of the reservation loop: its verdict for every case, the queue unchanged, and reserved space that can hold the record; never AllocatorCorrupted |
| `ShmRing.ShmBlock.ReserveSpace` | eROIL/src/shm/shm_send.cpp:75-149 | the reservation loop answers room or no room as the free space says, and gives up exactly if too few of its 100 compare-exchanges do not fail spuriously: one is needed, two if a filler comes first; where the record goes and where a refusal leaves the head; two passes at most without spurious failures |
| `ShmRing.ShmBlock.Send` | eROIL/src/shm/shm_send.cpp:36-194 | the answer in every case, as a function of block state, free space and spurious failures; success appends exactly one message at the next place for it, and any failure leaves the queue as it was even if it published a wrap |
| `ShmRing.ShmBlock.Commit` | eROIL/src/shm/shm_send.cpp:150-193 | with state and generation unchanged the reserved space ends up as the appended message; otherwise the answer is that the block was re-initialised and nothing is written |
| `ShmRing.ShmBlock.LookAt` | eROIL/src/shm/shm_recv.cpp:183-229 | the header at the tail is judged as what was written there; with the complete records used up, by the state, magic and epoch bytes that stand there |
| `ShmRing.ShmBlock.NextCommitted` | eROIL/src/shm/shm_recv.cpp:171-242 | skipping wrap records reaches the oldest message, with the queue unchanged; without one, zero state bytes are reported as not yet published with the tail in front of them, another epoch costs everything up to the head, and garbage is reported |
| `ShmRing.ShmBlock.Recv` | eROIL/src/shm/shm_recv.cpp:152-275 | recv answers from the oldest complete message alone, whatever stands behind the complete ones, hands it out byte for byte and removes it; with none left, a record whose state bytes are zero is reported and stays with the tail in front of it, a header of another generation costs everything up to the head, garbage is reported as such; every answer but a message leaves the buffer, and every answer but the flush the queue, unchanged |
| `ShmRing.ShmBlock.TakeOldest` | eROIL/src/shm/shm_recv.cpp:256-269 | the oldest message is copied out byte for byte with its label, source and sequence number, and exactly its record is consumed |
| `RingInvariant.FreshInv` | eROIL/src/shm/shm_recv.cpp:67-101 | a freshly initialised block with idle writers satisfies the invariant |
| `RingInvariant.RestartedInv` | eROIL/src/shm/shm_recv.cpp:103-146 | so does an empty block over any memory, as reinit leaves it |
| `RingInvariant.WantedFits` | eROIL/src/shm/shm_send.cpp:79-142 | what a winning compare-exchange reserves lies where a record may lie and within a block length of the current tail, although the tail it was checked against may be out of date |
| `RingInvariant.SwapInv` | eROIL/src/shm/shm_send.cpp:112-142 | the compare-exchange, won, lost or failing spuriously, keeps the invariant |
| `RingInvariant.MarkInv` | eROIL/src/shm/shm_send.cpp:160-164 | storing WRITING keeps the invariant |
| `RingInvariant.FillInv` | eROIL/src/shm/shm_send.cpp:165-179 | filling any number of bytes of header and payload keeps the invariant |
| `RingInvariant.PublishInv` | eROIL/src/shm/shm_send.cpp:119-131 | publishing a wrap or data record keeps the invariant |
| `RingInvariant.PostInv` | eROIL/src/shm/shm_send.cpp:187-193 | posting the semaphore and returning keeps the invariant |
| `RingInvariant.LookInv` | eROIL/src/shm/shm_recv.cpp:183-189 | loading the state word at the tail keeps the invariant, in which the consumer goes by the state word of the record it is at, if and only if the load is not stale; this decides the invariant, not yet what is delivered |
| `RingInvariant.ReadHeaderInv` | eROIL/src/shm/shm_recv.cpp:191-247 | judging the header at the tail keeps the invariant: nothing is found corrupt, foreign, unknown or too large |
| `RingInvariant.CopyInv` | eROIL/src/shm/shm_recv.cpp:256-265 | copying any piece of the payload out keeps the invariant |
| `RingInvariant.AdvanceInv` | eROIL/src/shm/shm_recv.cpp:267-274 | moving the tail past a delivered record keeps the invariant |
| `RingInvariant.SkipInv` | eROIL/src/shm/shm_recv.cpp:208-223 | moving the tail past a wrap record keeps the invariant |
| `RingInvariant.StepInv` | eROIL/src/workers/shm_recv_worker.cpp:52-115 | every step of any writer or of the consumer keeps the invariant, except a stale load |
| `RingRuns.RunInv` | eROIL/src/shm/shm_send.cpp:75-193 | the invariant holds after every run, of any length and over any number of laps, that has no stale load |
| `RingRuns.DeliveredInOrder` | eROIL/src/shm/shm_recv.cpp:171-274 | the delivered messages are exactly the data reservations before the tail in compare-exchange order, intact: nothing lost, repeated or reordered, and the consumer never meets a corruption answer |
| `RingRuns.UnreadDisjoint` | eROIL/src/shm/shm_send.cpp:79-142 | head and tail are at most one block apart and no two unconsumed records share a byte |
| `RingRuns.HeadStaysUsable` | eROIL/src/shm/shm_send.cpp:96-132 | head and tail are 8-aligned and outside the last 48 bytes, and every record maps, whatever the interleaving |
| `RingRuns.NoLostWakeup` | eROIL/src/workers/shm_recv_worker.cpp:52-75 | as long as no message declares an oversized label, while the consumer waits with the semaphore at zero every unread message belongs to a thread that is still inside send with its post ahead of it |
| `RingRuns.RestMeansDelivered` | eROIL/src/workers/shm_recv_worker.cpp:52-115 | under the same condition, when nobody is inside send and the consumer waits with the semaphore at zero, everything reserved has been delivered |
| `RingRuns.NoDeadlock` | eROIL/src/shm/shm_send.cpp:75-193 | while somebody is inside send, or the consumer is awake or has a wakeup pending, some step other than a new send can be taken: no state that satisfies the invariant is stuck on a record or position out of place |
| `RingSolo.AloneGetsAnswer` | eROIL/src/shm/shm_send.cpp:75-193 | from every state of the invariant, a thread inside send with five passes left that goes on alone gets its answer: success if it has reserved for its message, otherwise success exactly if there is room now |
| `RingSolo.AloneSends` | eROIL/src/shm/shm_send.cpp:36-194 | a call made in any such state that goes on alone answers what the call-at-a-time model answers for that head and tail |
| `RingSolo.TakesNext` | eROIL/src/shm/shm_recv.cpp:152-275 | a consumer that is awake or has a wakeup pending and goes on alone is done with the record at its tail, if that is published |
| `RingSolo.FallsAsleep` | eROIL/src/workers/shm_recv_worker.cpp:52-115 | a consumer that goes on alone, with everything reserved published, falls asleep with no wakeup left over |
| `RingSolo.DeliversAll` | eROIL/src/workers/shm_recv_worker.cpp:52-115 | when nobody is inside send and no message declares an oversized label, a consumer that goes on alone delivers everything that was reserved |
| `RingOversized.CalmIsAwake` | eROIL/src/workers/shm_recv_worker.cpp:52-115 | as long as no message declares an oversized label, no posted message is unread while the consumer waits with the semaphore at zero |
| `RingOversized.Oversleeps` | eROIL/src/workers/shm_recv_worker.cpp:90-95 | any message with an oversized declaration, sent together with any other that fits beside it, makes that happen in some run: the wakeup of the later message is spent on the oversized one before its own post |
| `RingOversized.HonestIsAwake` | eROIL/src/workers/shm_recv_worker.cpp:72-107 | if no message given to send declares an oversized label it does not happen in any run without stale loads |
| `RingOversized.AwakeSendingExactlyIf` | eROIL/src/workers/shm_recv_worker.cpp:90-95 | runs that send one message over and over cannot oversleep if and only if that message does not declare an oversized label, for every message two of which fit the ring |
| `RingOversized.LabelTrafficIsHonest` | eROIL/src/manager/manager.cpp:133-151 | traffic that consists of frames built by send_label declares nothing oversized, so it never oversleeps |
| `RingOversized.AwakeExactlyIf` | eROIL/src/workers/shm_recv_worker.cpp:72-107 | in a block of at least 184 bytes it cannot happen in any run without stale loads if and only if messages are too short to hold a label header |
| `RingRuns.FirstLapNotStale` | eROIL/src/shm/shm_recv.cpp:67-101 | on the first lap after initialisation a reserved but unmarked record reads as WRITING |
| `RingRuns.FirstLapRun` | eROIL/src/shm/shm_send.cpp:137-182 | a run from a fresh block whose head has not passed the block end has no stale load, with the compare-exchange and the WRITING store as separate steps |
| `RingStale.DeliveredTwice` | eROIL/src/shm/shm_send.cpp:137-160 | in every block that can hold a message, some run with the head 56 bytes past the block end delivers the first message again, out of a record that is reserved for another and not yet marked |
| `RingStale.HeadJumps` | eROIL/src/shm/shm_send.cpp:96-142 | the head of a run from a fresh block is never strictly between the block end and 56 bytes beyond it |
| `RingStale.SafeExactlyBelow` | eROIL/src/shm/shm_send.cpp:134-160 | all runs from a fresh block whose head stays at or below L deliver a prefix of what was reserved if and only if L is less than the block size plus 56 |
| `RingStale.StaleYetHarmless` | eROIL/src/shm/shm_recv.cpp:183-229 | in every such block some run has a stale load and still delivers exactly what was reserved |
| `RingRestart.FlushLoses` | eROIL/src/shm/shm_recv.cpp:196-200 | in every block of at least 160 bytes: memory that a run of the generation before leaves behind, and a run after re-initialising with the head at 112, in which the consumer reads the old header in a record reserved and not yet marked and goes on to flush, although the message behind it has been sent with success and not been delivered |
| `RingRestart.SmallBlockStumbles` | eROIL/src/shm/shm_recv.cpp:196-200 | in smaller blocks the consumer reads an old header in an unmarked wrap record and goes on to flush, with the head at the block end |
| `RingRestart.UndisturbedExactlyBelow` | eROIL/src/shm/shm_recv.cpp:103-146 | over any memory whatever, all runs from an empty block whose head stays at or below L deliver a prefix of what was reserved and give the consumer no cause to flush, re-initialise or stop, if and only if L is less than 112, or less than the block size if that is below 160 |
| `RingTickets.StepTickets` | eROIL/src/shm/shm_send.cpp:36-194 | every step keeps the books on sends: who is inside send, what is reserved for whom, what has been answered |
| `RingTickets.RunTickets` | eROIL/src/shm/shm_send.cpp:36-194 | the books are right after every run without stale loads |
| `RingTickets.StepAsked` | eROIL/src/shm/shm_send.cpp:36-194 | every step keeps the message of a send, in the thread inside send and in its record, the one that send was given |
| `RingTickets.RunAsked` | eROIL/src/shm/shm_send.cpp:36-194 | so it is after every run, from whatever state it starts |
| `RingCalls.RunRecorded` | eROIL/src/shm/shm_send.cpp:36-194 | tickets, messages and owners in the books are those of the calls of send that the run holds |
| `RingCalls.WakeupsArePosts` | eROIL/src/workers/shm_recv_worker.cpp:52-75 | the semaphore is what was posted less the wakeups |
| `RingCalls.ReturnMeans` | eROIL/src/shm/shm_send.cpp:75-193 | a send that answered success has exactly one record, which holds the very message of its call; a send that answered failure has none; and only success, no space, too large or could-not-allocate are ever answered |
| `RingCalls.OneSenderInOrder` | eROIL/src/workers/send_worker.h:93-119 | the messages of one thread lie in the log in the order of its calls, so a send worker's messages reach a node in the order it attempts them |
| `RingPasses.FailsExactlyIf` | eROIL/src/shm/shm_send.cpp:60-149 | when a send fails, counted over the actions of any run: too large exactly if its reservation exceeds the block, no space exactly if a tail it loaded left no room behind the head it had loaded, could-not-allocate exactly if it used up 100 passes in reloads, lost exchanges and fillers |
| `RingPasses.FullIsFull` | eROIL/src/shm/shm_send.cpp:88-94 | a send that finds no room behind the head it loaded has found the ring itself too full |
| `RingTickets.RealTimeOrder` | eROIL/src/shm/shm_send.cpp:134-193 | whatever had been reserved when a send began lies before it in the log, so a send that returned before another started is delivered first |
| `RingOrder.FusedRun` | eROIL/src/shm/shm_send.cpp:134-164 | runs in which every won compare-exchange is followed at once by the WRITING store have no stale load on any lap |
| `RingOrder.SafeRun` | eROIL/src/shm/shm_recv.cpp:152-275 | for every run on the first lap or with fused marking: delivery in reservation order, no corruption answer, at most one block in use, true answers of send, and in every record the message of its call |
| `RingOrder.SafeAfterRestart` | eROIL/src/shm/shm_recv.cpp:103-146 | for every run with fused marking from an empty block the same holds over any memory, in particular after reinit |
| `RingOrder.AfterFiller` | eROIL/src/shm/shm_send.cpp:102-132 | behind a wrap record the head is at the block start |
| `RingOrder.NoAdjacentFillers` | eROIL/src/shm/shm_recv.cpp:181-230 | when every message fits the usable part of the block no two wrap records are adjacent, so a call of recv skips at most one |
| `RingCapacity.DrainedFits` | eROIL/src/shm/shm_send.cpp:63-110 | a drained ring takes a reservation wherever its head stands if and only if the reservation is at most the usable part and twice it at most eight bytes more |
| `RingCapacity.NeverFits` | eROIL/src/shm/shm_send.cpp:63-74 | a reservation that passes the size check against the block but exceeds its usable part is refused for want of space for ever |
| `RingCapacity.RetryFits` | eROIL/src/shm/shm_send.cpp:112-132 | a send refused on a drained ring finds room once the consumer has passed the wrap record it left behind |
| `RingCapacity.ManagerTraffic` | eROIL/src/workers/shm_recv_worker.cpp:44-49 | in the deployed block every label of legal size finds room when the ring is drained and fits the receive buffer |
| `ShmWorker.RecvWorker.React` | eROIL/src/workers/shm_recv_worker.cpp:117-179 | the reaction to every answer of recv but a record |
| `ShmWorker.RecvWorker.GetNextRecord` | eROIL/src/workers/shm_recv_worker.cpp:117-179 | the worker takes the oldest complete message if it can be received; otherwise it leaves a message that is too large, stops on a block that is not ready, and clears the ring in every other case, be it a message without payload, a record still being written or a header of another generation |
| `ShmWorker.RecvWorker.Drain` | eROIL/src/workers/shm_recv_worker.cpp:72-107 | one wakeup hands out and leaves exactly what the specification of a wakeup says |
| `ShmWorker.WhatIsDistributed` | eROIL/src/workers/shm_recv_worker.cpp:77-104 | a received message is distributed exactly if it has a header with magic number, version and a legal size, as the label named there with as many bytes as it says |
| `ShmWorker.LeftBehind` | eROIL/src/workers/shm_recv_worker.cpp:72-107 | the worker goes back to sleep with messages left in the ring if and only if one of them cannot be received or, not being the last, declares an oversized label |
| `ShmWorker.OversizedStops` | eROIL/src/workers/shm_recv_worker.cpp:90-95 | an oversized declaration ends the wakeup with everything behind it still unread |
| `ShmWorker.LabelsArrive` | eROIL/src/workers/shm_recv_worker.cpp:77-104 | labels framed by send_label and carried by the ring are distributed as sent, once each, in order, whatever the receive buffer held |
| `LabelFrame.LabelHeaderRoundTrip` | eROIL/src/types/label_io_types.h:28-36 | the receiver reads back the header that was sent, whatever the padding bytes hold |
| `LabelFrame.HeaderLayout` | eROIL/src/types/label_io_types.h:28-36 | every field of a label header lies at its byte offset, lowest byte first |
| `LabelFrame.DataFrameParts` | eROIL/src/manager/manager.cpp:133-151 | header and data are recovered from the buffer that send_label builds |
| `LabelFrame.FrameLayout` | eROIL/src/manager/manager.cpp:133-151 | what send_label puts into the buffer, value by value and byte offset by byte offset |
| `LabelFrame.FramesAreHonest` | eROIL/src/manager/manager.cpp:133-151 | the frame of a label of legal size never declares more than the maximum |
| `LabelFrame.AssertionFailsFor` | eROIL/src/router/router.cpp:242-242 | of the data sizes that open_send accepts, the debug assertion on the frame fails exactly for those above the maximum less 28 |
| `SendInvariant.StepInv` | eROIL/src/types/send_io_types.h:80-127 | every step of a caller or of a send worker, spurious compare-exchange failures included, keeps the accounts of all jobs and lanes |
| `SendInvariant.BuildInv` | eROIL/src/comm/connection_manager.cpp:118-136 | building a job and starting to hand it out keeps the accounts |
| `SendInvariant.PushInv` | eROIL/src/workers/send_worker.h:32-39 | pushing a job keeps the accounts |
| `SendInvariant.PostInv` | eROIL/src/workers/send_worker.h:40-44 | posting after the push keeps the accounts, and no sleeping worker is left with a posted job |
| `SendInvariant.PopInv` | eROIL/src/workers/send_worker.h:93-103 | taking the next job keeps the accounts |
| `SendInvariant.AttemptInv` | eROIL/src/workers/send_worker.h:106-114 | attempting a receiver, present or missing, keeps the accounts; what counts as a failure is in SendCounts |
| `SendInvariant.CountInv` | eROIL/src/types/send_io_types.h:93-101 | counting a receiver down keeps pending_sends equal to the receivers not yet counted, and only the last one leads to the IOSB |
| `SendInvariant.DecideInv` | eROIL/src/types/send_io_types.h:80-91 | no completion finds pending_sends at zero |
| `SendInvariant.FinalizeInv` | eROIL/src/types/send_io_types.h:106-117 | the worker that counts the last receiver down writes the one record of the job |
| `SendInvariant.CallerFinalizeInv` | eROIL/src/comm/connection_manager.cpp:124-127 | a job without receivers gets its one record from the caller |
| `SendRuns.RunInv` | eROIL/src/workers/send_worker.h:81-127 | the accounts are right after every run |
| `SendRuns.NoDeadlock` | eROIL/src/workers/send_worker.h:81-127 | short of that state some step other than a new send is always possible |
| `SendRuns.NoLostWakeup` | eROIL/src/workers/send_worker.h:32-44 | while a worker sleeps with no wakeup pending, every job in its queue belongs to a thread that has pushed it and not yet posted |
| `SendRuns.NothingLost` | eROIL/src/workers/send_worker.h:93-119 | a job handed to a lane is in its queue, in work, or completely attempted |
| `SendCounts.StepCounts` | eROIL/src/workers/send_worker.h:107-112 | a lane's failure count goes up exactly when a transport that is there refuses a send |
| `SendCounts.NeverTwice` | eROIL/src/workers/send_worker.h:93-114 | no receiver of a job is attempted twice in a run |
| `SendCounts.AsOrdered` | eROIL/src/comm/connection_manager.cpp:118-136 | every job has the receivers its call was made for |
| `SendCounts.WrittenOnce` | eROIL/src/types/send_io_types.h:80-127 | in every run each IOSB is written and signalled at most once, when every receiver the call was made for has been attempted exactly once, with the number of sends that transports refused in the run; the already-completed branch is never taken |
| `SendCounts.RestMeansDone` | eROIL/src/types/send_io_types.h:80-127 | when nobody is inside enqueue_send and both workers sleep with no wakeup pending, every job has had every receiver attempted once and has exactly one signal and one record, the number of refused sends |
| `SendCounts.WorkedInOrder` | eROIL/src/workers/send_worker.h:93-119 | in every run a lane attempts the receivers of its jobs in the order in which the jobs were pushed, and has attempted all of a job's when it comes to the next |
| `SendCounts.WakeupsArePosts` | eROIL/src/workers/send_worker.h:32-44 | a worker's semaphore is what was posted less its wakeups |
| `SendSolo.WorkerFinishes` | eROIL/src/workers/send_worker.h:81-127 | from every state of the invariant a worker that goes on alone works its queue off and falls asleep |
| `SendSolo.SenderFinishes` | eROIL/src/workers/send_worker.h:32-44 | a thread inside enqueue_send that goes on alone returns |
| `SendSolo.EverythingFinishes` | eROIL/src/types/send_io_types.h:80-127 | every run can be continued without a new call to a state at rest, in which every job has its record |
| `SendIosbs.Publisher.Finalize` | eROIL/src/comm/write_iosb.h:55-99 | one record with status -1 exactly if a receiver was missed, and one post; without an IOSB array only the post |
| `SendIosbs.Publisher.LatestRecords` | eROIL/src/comm/write_iosb.h:98-98 | the IOSB array holds the latest records in order |
| `SlotRings.HoldsPush` | eROIL/src/router/router.cpp:384-390 | writing at the wrapping index keeps the latest entries in their slots |
| `SlotRings.CountedBack` | eROIL/src/router/router.cpp:399-440 | the i-th oldest of the last c entries sits at (index - c + i) modulo the number of slots |
| `RecvSlots.CutWrite` | eROIL/src/router/router.cpp:385-387 | copying a message into a slot changes that slot of the flat buffer and no other |
| `RecvSlots.QueueIsSuffix` | eROIL/src/router/router.cpp:399-440 | over any run of deliveries, dismissals and restarts the unread messages are the latest of those taken in, in order and without gaps, never more than there are slots |
| `RecvSlots.RecvHandle.StoreMessage` | eROIL/src/router/router.cpp:384-390 | the message goes into the slot at the write index and all stored messages within reach stay where they are |
| `RecvSlots.RecvHandle.Deliver` | eROIL/src/router/router.cpp:373-460 | in the bounded modes an unread message is never overwritten and a message is refused exactly if all slots are unread, in the overwriting modes every message is stored; when an IOSB is written and the semaphore signalled in each of the four modes, and that it gives source, label, size in words, slot and address of the message, or of the oldest unread one if all slots were taken; nothing while idle |
| `RecvSlots.RecvHandle.DeliverUntilFull` | eROIL/src/router/router.cpp:399-424 | BUFFER_FULL signals exactly when the slots are full after the delivery and writes an IOSB exactly when they become full |
| `RecvSlots.RecvHandle.WriteIosb` | eROIL/src/comm/write_iosb.h:10-53 | a record goes to the wrapping index; without an array nothing happens |
| `RecvSlots.RecvHandle.Count` | eROIL/src/root.cpp:141-145 | recv_count is the number of unread messages, at most the number of slots in the bounded modes |
| `RecvSlots.RecvHandle.Dismiss` | eROIL/src/root.cpp:147-156 | dismissing drops exactly the oldest min(count, unread) messages |
| `RecvSlots.RecvHandle.Reset` | eROIL/src/root.cpp:170-175 | reset empties the queue and starts at slot 0 |
| `RecvSlots.RecvHandle.Redirect` | eROIL/src/root.cpp:177-188 | redirect swaps the two buffers and starts over; without a second buffer it does nothing |
| `RecvSlots.RecvHandle.UnreadInSlots` | eROIL/src/router/router.cpp:399-440 | the i-th oldest unread message is found in slot (buf_index - recv_count + i) modulo buf_slots |
| `RecvSlots.RecvHandle.LatestInSlots` | eROIL/src/router/router.cpp:384-396 | in every mode, whatever was dismissed, the slots behind the write index hold the latest min(n, buf_slots) messages |
| `RecvSlots.RecvHandle.FullReportsOldest` | eROIL/src/router/router.cpp:427-440 | the IOSB written for a message that EVERY_MESSAGE drops points at the oldest unread message |
| `RecvSlots.RecvHandle.LatestRecords` | eROIL/src/comm/write_iosb.h:52-52 | the IOSB array holds the latest records in order |
| `LabelSnapshots.SortSorts` | eROIL/src/router/route_table.cpp:55-66 | sorting gives an ascending permutation |
| `LabelSnapshots.AscendingUnique` | eROIL/src/router/route_table.cpp:55-66 | two ascending arrangements of the same entries are the same array |
| `LabelSnapshots.SnapshotsAgree` | eROIL/src/router/route_table.cpp:7-36 | the snapshot of a label set does not depend on hash-map order |
| `LabelSnapshots.PaddingFirst` | eROIL/src/router/route_table.cpp:21-66 | a snapshot of at most 200 valid labels is the padding followed by exactly the live labels with their sizes |
| `LabelSnapshots.ListedEntries` | eROIL/src/router/route_table.cpp:21-53 | every entry in use is a label of the table with its size in 32 bits, and of at most 200 labels every one is there |
| `LabelSnapshots.ListedLabels` | eROIL/src/router/route_table.cpp:21-53 | an array names min(n, 200) of the n labels of a table of valid labels |
| `RouteTables.CollectLabels` | eROIL/src/router/route_table.cpp:21-53 | the array lists as many labels as it can hold, each once with its size, and is padded: all of them if there are at most 200, otherwise some 200 of them |
| `RouteTables.RouteTable.GetSendLabelsSnapshot` | eROIL/src/router/route_table.cpp:7-12 | a snapshot carries the generation and, sorted, as many labels of that generation as the array can hold, each once; every entry in use is a label with the size of its route now, and of at most 200 routes every one is there |
| `RouteTables.RouteTable.GetRecvLabelsSnapshot` | eROIL/src/router/route_table.cpp:14-19 | the same for the receive side |
| `RouteTables.GenerationMeansLabels` | eROIL/src/router/route_table.cpp:7-19 | two snapshots of the same side with the same generation, taken at any two times with at most 200 labels, carry the same array |
| `RouteTables.RouteTable.AddSendPublisher` | eROIL/src/router/route_table.cpp:95-130 | a publisher joins exactly if it agrees with an existing route in size and is not on it yet; the route and a new generation are created exactly if there was none |
| `RouteTables.RouteTable.RemoveSendPublisher` | eROIL/src/router/route_table.cpp:132-158 | exactly that publisher leaves; the route goes, with a new generation, exactly with its last publisher |
| `RouteTables.RouteTable.AddLocalSendSubscriber` | eROIL/src/router/route_table.cpp:160-179 | a node joins the local list exactly if route and size match and it is not on it |
| `RouteTables.RouteTable.AddRemoteSendSubscriber` | eROIL/src/router/route_table.cpp:203-222 | a node joins the remote list exactly if route and size match and it is not on it |
| `RouteTables.RouteTable.RemoveLocalSendSubscriber` | eROIL/src/router/route_table.cpp:181-201 | exactly that node leaves the local list |
| `RouteTables.RouteTable.RemoveRemoteSendSubscriber` | eROIL/src/router/route_table.cpp:224-243 | exactly that node leaves the remote list |
| `RouteTables.RouteTable.AddRecvSubscriber` | eROIL/src/router/route_table.cpp:314-349 | a receiving handle joins exactly if it agrees in size and is not on the route; route and generation as for publishers |
| `RouteTables.RouteTable.RemoveRecvSubscriber` | eROIL/src/router/route_table.cpp:351-377 | exactly that handle leaves, the route with the last one |
| `Lists.Erase` | eROIL/src/router/route_table.cpp:139-149 | find and erase take out the first occurrence and nothing else |
| `Lists.WithoutMembers` | eROIL/src/router/route_table.cpp:139-149 | erasing from a list without duplicates takes out exactly one element |
| `Routers.RegisterKeeps` | eROIL/src/router/router.cpp:13-34 | registering a new handle keeps publishers non-empty, without duplicates and exactly the registered handles with that label and size, and fails only on a size mismatch |
| `Routers.UnregisterKeeps` | eROIL/src/router/router.cpp:36-59 | unregistering keeps the same, and the publisher is always found |
| `Routers.UnregisterRecvKeeps` | eROIL/src/router/router.cpp:86-105 | unregistering a receiving handle keeps the receive side consistent |
| `Routers.Router.RegisterSendPublisher` | eROIL/src/router/router.cpp:13-34 | a null handle, a duplicate uid or a size mismatch changes nothing; otherwise handle and publisher are added together |
| `Routers.Router.UnregisterSendPublisher` | eROIL/src/router/router.cpp:36-59 | only the very handle that was registered is removed, together with its publisher entry |
| `Routers.Router.RegisterRecvSubscriber` | eROIL/src/router/router.cpp:61-84 | the same for receiving handles |
| `Routers.Router.UnregisterRecvSubscriber` | eROIL/src/router/router.cpp:86-105 | the same for receiving handles |
| `Routers.Router.AddLocalSendSubscriber` | eROIL/src/router/router.cpp:126-138 | a local subscriber is added only if its shared block is open; the table invariants are kept |
| `Routers.Router.AddRemoteSendSubscriber` | eROIL/src/router/router.cpp:140-152 | a remote subscriber is added only if it has a socket; the table invariants are kept |
| `Routers.Router.UpsertSocket` | eROIL/src/router/transport_registry.cpp:8-18 | replacing a socket keeps every subscriber reachable |
| `Routers.Router.OpenSendShm` | eROIL/src/router/transport_registry.cpp:41-52 | opening a shared block keeps every subscriber reachable |
| `Routers.VerdictMeans` | eROIL/src/router/router.cpp:240-277 | among sound tables a job is built if and only if the handle is registered and label and size are its own; each refusal exactly for what is wrong: nobody publishes the label, those who do have another size, the handle is unknown, or it is another label's; NoPublishers is never answered |
| `Routers.Router.BuildSendJob` | eROIL/src/router/router.cpp:232-305 | the first failing check decides the answer; a built job has the handle, one open transport per subscriber in list order, none missing, and as many pending sends as subscribers |
| `Routers.Router.FindRecipients` | eROIL/src/router/router.cpp:319-344 | a label goes to all handles subscribed to it, in order, exactly if its size is the route's |
| `Managers.Manager.OpenSend` | eROIL/src/manager/manager.cpp:75-99 | an acceptable request draws one handle number, any other none; as long as fewer than 2^32 numbers have been drawn, a request that agrees with the route in size gets a new handle with its own label and size and a number that no handle given out before has; a number still in use gets the old handle; route and publisher come with the handle and nothing else of the table changes |
| `Managers.Manager.CloseSend` | eROIL/src/manager/manager.cpp:157-164 | closing removes exactly the handle given, with its publisher entry, and nothing else of the table changes |
| `Managers.Manager.OpenRecv` | eROIL/src/manager/manager.cpp:166-196 | as for open_send, with at least one slot; both draw from the same numbers |
| `Managers.Manager.CloseRecv` | eROIL/src/manager/manager.cpp:198-205 | closing removes exactly the handle given, with its subscriber entry, and nothing else of the table changes |
| `Managers.Manager.NextUid` | eROIL/src/manager/manager.cpp:15-18 | every draw moves the counter on by one, around at 2^64, and hands out its low 32 bits |
| `Managers.NumbersRepeat` | eROIL/src/manager/manager.cpp:15-18 | two draws give the same handle number exactly if their distance is a multiple of 2^32 |
| `Managers.Manager.SendLabel` | eROIL/src/manager/manager.cpp:101-155 | a registered handle sent with its own size always gets its job, with its publisher, exactly its subscribers and the next sequence number, and the frame carries source, label and data |
| `Managers.Manager.CollectWanted` | eROIL/src/manager/manager.cpp:269-281 | of the labels in a message the valid ones count, each with the size of its first entry |
| `Managers.Manager.AddSubscriber` | eROIL/src/manager/manager.cpp:286-318 | the add pass has the same result whatever order the map is walked in |
| `Managers.Manager.RemoveSubscriber` | eROIL/src/manager/manager.cpp:320-353 | the remove pass treats min(n, 200) of the n routes |
| `Managers.Manager.TakeBroadcast` | eROIL/src/manager/manager.cpp:262-284 | on the routes that the node asks for and on min(n, 200) of all n: a node of the address book ends up subscribed exactly if it asks for the label and was subscribed before or asks with the route's size and has a transport of the kind the address book gives it; everybody else and all other routes stay, a stranger changes nothing; with at most 200 routes the two passes are the reconciliation; every invariant of the tables is kept |
| `Reconciliation.SubscribedIff` | eROIL/src/manager/manager.cpp:286-353 | a node of known kind ends up subscribed if and only if it asks for the label and was subscribed before or asks with the right size and has a transport |
| `Reconciliation.OthersUntouched` | eROIL/src/manager/manager.cpp:286-353 | publishers, sizes and every other node's subscriptions stay as they were, in order |
| `Reconciliation.Idempotent` | eROIL/src/manager/manager.cpp:262-284 | the same message again changes nothing |
| `Reconciliation.StrangerChangesNothing` | eROIL/src/manager/manager.cpp:311-314 | a node that is not in the address book changes nothing |
| `Reconciliation.OneSidedKept` | eROIL/src/manager/manager.cpp:298-310 | local nodes stay on the local list and remote ones on the remote list, each once |
| `Reconciliation.NeverBoth` | eROIL/src/manager/manager.cpp:298-310 | no node is both local and remote on one route |
| `Reconciliation.NodesCommute` | eROIL/src/manager/manager.cpp:262-284 | messages from two nodes can be taken in either order with the same subscribers |
| `TcpClients.TcpClient.RecvAll` | eROIL/src/socket/linux/linux_tcp_client.cpp:172-230 | recv_all succeeds exactly if enough bytes arrive and then delivers exactly those, however they are cut up and interrupted; otherwise it says how many came |
| `TcpClients.TcpClient.SendAll` | eROIL/src/socket/linux/linux_tcp_client.cpp:85-136 | on a connected socket send_all goes on after partial and interrupted sends: it reports success if and only if every byte was taken, in order, and otherwise ends with the first refusal that is not an interrupt, with the count taken until then |
| `TcpClients.ObligingTakesAll` | eROIL/src/socket/linux/linux_tcp_client.cpp:104-135 | an operating system that never takes nothing and refuses only with interrupts takes everything |
| `TcpClients.TcpClient.Send` | eROIL/src/socket/linux/linux_tcp_client.cpp:41-83 | send makes one attempt and reports success as soon as one byte was taken |
| `SocketWorker.SocketRecvWorker.RecvExact` | eROIL/src/workers/socket_recv_worker.cpp:130-150 | an exact read succeeds exactly if that many bytes arrive on a connected socket, or, without the bytes, if the first call to fail would have to wait; in the first case it delivers exactly those bytes |
| `SocketWorker.WhatIsRead` | eROIL/src/workers/socket_recv_worker.cpp:61-99 | which headers are data, which are pings; all others end the connection |
| `SocketWorker.SocketRecvWorker.TakeFrame` | eROIL/src/workers/socket_recv_worker.cpp:46-118 | one pass of the loop takes exactly one frame off the stream |
| `SocketWorker.SocketRecvWorker.Run` | eROIL/src/workers/socket_recv_worker.cpp:37-119 | the worker distributes exactly the labels of the complete frames before the first bad header, in order, and drops the connection exactly at a bad header |
| `SocketWorker.PingIsSkipped` | eROIL/src/comm/connection_manager.cpp:328-340 | the header that probes a socket is skipped |
| `SocketWorker.FramesArrive` | eROIL/src/workers/socket_recv_worker.cpp:46-119 | any sequence of valid ping and data frames gives exactly its labels, in order, whatever follows |
| `SocketWorker.BrokenOff` | eROIL/src/workers/socket_recv_worker.cpp:46-119 | a stream that breaks off inside a frame gives the labels of the complete frames and no rejection |
| `SocketWorker.LaterBytes` | eROIL/src/workers/socket_recv_worker.cpp:46-119 | what has been distributed does not depend on what arrives later |

## Left out

- Memory ordering: the step models are sequentially consistent.
- Counter wrap-around at 2^64 (head, tail, generations) and size overflow of a payload plus its header.
- Flushing, re-initialising and the 50 ms publish timeout against live writers: only the call-at-a-time model has them, as clears. The published-message debug counter is not modelled.
- Liveness under a fair scheduler: proved is that nothing is ever stuck, and what a thread, a worker or the consumer reaches that goes on alone (RingSolo, SendSolo).
- RingOrder.NoAdjacentFillers: assumes messages that fit the usable part of the block, because larger ones leave a wrap record at every attempt.
- RingRuns.NoLostWakeup: assumes that posts succeed, and holds only while no message declares an oversized label (RingOversized.Oversleeps).
- SendCounts.WrittenOnce: `pending_sends` and the failure counts are unbounded, because no job has 2^32 receivers; send jobs are values in a state machine instead of objects, because their two workers interleave.
- Managers.Manager.TakeBroadcast: with more than 200 routes it does not say which 200 the remove pass comes by, because that is up to the hash map.
- LabelSnapshots.PaddingFirst: for at most 200 labels; with more there is no padding.
- RecvSlots.RecvHandle.Deliver: takes the receive offset to be 0, because the code does not keep a message written at an offset inside its slot; null buffers and zero sizes do not occur in handles that open_recv made.
- SocketWorker.SocketRecvWorker.TakeFrame: assumes a blocking socket, as Run does, because RecvExact lets WouldBlock pass for success and the header would be stale bytes.
- ShmWorker.RecvWorker.React: an unpublished record is flushed at once; waiting for it up to the timeout shows only in the step model, where the consumer polls again.
- Managers.Manager.SendLabel: assumes that the send offset leaves the data inside the buffer; the code reads past its end otherwise.
- RouteTables.RouteTable.GetSendLabelsSnapshot: with more than 200 routes it does not say which 200 labels are listed, because that is up to the hash map.
- RouteTables.RouteTable.GetRecvLabelsSnapshot: likewise.
- RouteTables.GenerationMeansLabels: for at most 200 labels, likewise.
- RingRestart.UndisturbedExactlyBelow: starts when `reinit` has finished, with the semaphore at zero and no thread still inside a send from the generation before.
- Reading the fields of a record header is one step, because the consumer reads them only after the state word says that they are in place; only a stale load could tell the difference.
- IOSB bit fields, timestamps and the accessors that read them.
- Operating-system mapping of shared memory, semaphores, sockets and multicast; whether a shared block can be opened is a parameter.
- Connecting, accepting, pinging, starting and stopping threads; locks appear only as the atomicity of a step or a call.
- Configuration, address book construction, logging, the event log ring, the C and C++ wrappers, and the test programs.
