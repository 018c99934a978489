# swnet-linux: a model of the TCP link

A Dafny 4.11 model of how swnet-linux moves messages over a TCP link, and proofs about it.

The sending side frames a payload, tries to send it at once, and queues what the kernel does not
take. An edge-triggered `EPOLLOUT` event, an epoll thread and one worker thread drain the queue. The
receiving side cuts the byte stream back into frames, however `recv` slices it, in a packet buffer or
in a separately allocated large block. The two sides meet in one theorem: messages arrive once, whole
and in order.

| file | what it models |
|---|---|
| `Basics.dfy` | bytes, C's 32-bit `int`, flattening of byte sequences |
| `Framing.dfy` | the protocol template and the meaning of a framed stream (`Cut`), packet building |
| `Reassembly.dfy` | `tcp_parse_pkt` and the consume loop as functions, and whole connections against `Cut` |
| `Tcpal.dfy` | the same code on its arrays and fields (class `NcbRx`), 32-bit arithmetic included |
| `TxQueue.dfy` | the queue, the partial-send loop and one worker task as functions |
| `Transmit.dfy` | `fifo.c`, `tcp_txn`, `tcp_tx`, `tcp_write` on the objects they update (class `NcbTx`) |
| `Wpool.dfy` | the task list and the drain loop of the worker thread on those objects (class `WorkerPool`) |
| `TxProtocol.dfy` | writer, epoll thread, worker and kernel as a step machine over many links |
| `TxInvariant.dfy` | what every step of that machine keeps, whatever fails |
| `TxTheorems.dfy` | safety of every run, whatever fails |
| `TxWakeUp.dfy` | wake-ups of a link, while the two answers the source ignores are good for that link |
| `LostWakeUp.dfy` | exactly what those two answers decide |
| `LosingRun.dfy` | whole runs in which a single failure does harm |
| `TxProgress.dfy` | no run goes on for ever without new input, and where it can go no further everything has been sent |
| `TwoWriters.dfy` | the machine with a second writer on one link |
| `Uninterrupted.dfy` | what the methods do is what some run of the machine does |
| `EndToEnd.dfy` | sender, network and receiver together |
| `Registry.dfy` | the global list of control blocks and its counter (class `NcbList`) |

`dafny verify dfyconfig.toml` checks everything.

## Where the code falls short of its comments

**A header split across chunks.** When the header of a large frame is completed by a later chunk, the
code copies only that chunk into the new block (`tcpal.c:113-114`). The header bytes saved earlier
(`tcpal.c:62-66`) are lost and every later frame is shifted. `Version` selects between the code as
written (`Literal`) and the same code with those bytes copied first (`Carrying`).
`LiteralRefinesExactly` gives the exact condition: the code as written reassembles a stream if and
only if no chunk boundary falls inside the header of a large frame. `LiteralTearsWitness` is a
concrete failing input. The repaired version needs no condition (`CarryingRefines`), but there the
comment at `tcpal.c:119` no longer holds: the chunk may complete the block at once, and the leftover
has to be handed back.

**A failing `epoll_ctl` in `fifo_pop`.** Its answer is ignored (`fifo.c:127`). By the rule the
repository's README records (a repeated request for `EPOLLOUT` gives no new event), the socket then
stays armed and a later packet can be stranded. `DisarmDecides`: when the last node is popped, the
wake-ups of the link survive every continuation if and only if that call answered 0.
`FailedDisarmLosesWakeUp` is a whole run that ends with a stranded packet. `StrandedStays` says that
it stays there until the peer sends something: an incoming event brings the missing one along
(`PeerRouses`).

**A failing `wp_queued` in the epoll thread.** Its answer is ignored, too (`io.c:132`).
`DroppedEventDecides` gives the exact condition under which the packets of the link are forgotten, and
`DroppedEventLosesWakeUp` is a run in which they are.

**A packet given up half-way.** When `send` fails for good, or `epoll_ctl` fails in `fifo_queue`,
`tcp_write` frees the node and returns the error, and the link stays up (`tcp.c:729-767`). If a part
of the packet had gone out, it stays in the stream. `RejectionTearsExactly`: the stream is spoiled if
and only if some of the packet had gone; with `-EBUSY` none ever has. `RefusalTears` is a run in which
it happens, and `TornExactly` says that a run leaves a clean stream if and only if no step of it does
this.

**An order to stop.** `__wp_run` takes a task before it looks at `actived` (`wpool.c:135`).
`StopLeaksExactly`: a task is lost if and only if the worker comes back to a non-empty list after the
order; `StopLeaks` is such a run. Everything else is freed (`TaskOwnership`).

**No builder.** The node counts `cb_` bytes more than `tcp_write` allocated for it when no header is
built (`tcp.c:680-681`, `tcp.c:726`), so what lies behind the buffer is sent, too. The contract of
`TcpWrite` takes these bytes as a parameter.

## Assumptions

- One writer at a time per link. `TurnsAreOneWriter`: writers which take turns are as good as one.
  `OverlapTears`: whenever two overlap before either packet is queued, and one has two bytes to go, the
  run can go on to put the other packet into the middle of it; `TwoWritersTear` is a run from the start.
- The template's callbacks are functions; the parser sees only the header bytes. The end-to-end
  results assume that the parser reads back the size the builder wrote (`RoundTrips`).
- The template and the attributes of a link do not change while it is up; `0 <= cb_ <= 32`.
- The kernel follows the rules of the repository's README (lines 53-67): adding `EPOLLOUT` while there
  is room gives an event at once, repeating it gives none, room appearing while armed gives an event,
  and so does incoming data while armed if there is room. Events without cause are allowed, too.
- `malloc` succeeds, except where `wp_queued` fails. `send`, `epoll_ctl` and `wp_queued` may fail
  everywhere. Only what is said about the wake-ups of a link, and what follows from it in `TxProgress`
  and `EndToEnd`, assumes that the two ignored answers are good for that link, and that nobody stops the
  pool (`TxWakeUp.Reliable`). Other links may fail as they like.
- Links start established, so the check for missing read and write handlers (`tcp.c:664-667`) passes.
- An `EPOLLOUT` event does not carry `EPOLLHUP`: `io.c:131-136` makes no task for one that does.
- Calls whose answers come from outside (`recv`, `send`, `epoll_ctl`, the connection state, the
  serializer) are parameters or recorded answers.

## Model

| member | source | states |
|---|---|---|
| Framing.CutPartitions | tcpal.c:87-141 | cutting a stream loses and invents nothing: the frames and the residue concatenate to it, every piece is a frame by its own header, and no further frame fits |
| Framing.CutUnique | tcpal.c:87-141 | any other split into frames and an uncuttable residue is the same split |
| Framing.CutExtends | tcpal.c:60-66 | cutting can be resumed from the residue when more bytes arrive; after a bad header nothing more is ever cut |
| Framing.FailsExactly | tcpal.c:87-98 | a stream fails if and only if, after frames whose parser announces exactly their payload, a header comes that the parser rejects or for which it announces a size outside 1..50<<20, and it fails at that header |
| Framing.ParserDecides | tcpal.c:87-98 | a header is bad if and only if the parser rejects it or announces a size outside 1..50<<20, and bytes are a frame if and only if the parser announces exactly the payload behind the header |
| Framing.CutsExactly | tcpal.c:124-147 | announced frames followed by less than the next one are cut into just these frames, with the link still up |
| Framing.BuiltIsFrame | tcp.c:696-727 | a packet built by tcp_write is exactly one frame, and stripping its header gives the payload back |
| Framing.PacketBytes | tcp.c:670-712 | a payload of any size in 1..50<<20 makes a packet: the header the builder wrote and the payload, or the payload alone without a builder; a failing builder makes none |
| Reassembly.CallIsSane | tcpio.c:200-209 | every call consumes at least one byte, leaves a state the next call accepts and delivers nothing when it fails, also after a torn header |
| Reassembly.ConsumeRefines | tcpio.c:196-210 | one recv worth of bytes delivers and keeps what cutting the held bytes plus the chunk gives, unless the literal version tears a header |
| Reassembly.CarryingRefines | tcpal.c:33-148 | repaired receiver: for every stream and every chunking the delivered frames, the held bytes and the failure are those of the whole stream |
| Reassembly.LiteralRefinesExactly | tcpal.c:103-121 | code as written: the same holds if and only if no chunk boundary falls inside the header of a large frame |
| Reassembly.LiteralAccounts | tcpal.c:112-117 | bytes lost to a torn header never come back: delivered plus held bytes fall short of the stream from then on |
| Reassembly.TornBlock | tcpal.c:103-121 | after any stream so far, a torn header costs exactly the bytes held: the block of the announced size starts with the chunk |
| Reassembly.LiteralTearsWitness | tcpal.c:113-114 | a four-byte header cut after its first byte loses that byte |
| Reassembly.SmallFramesAreClean | tcpal.c:123-147 | a stream of frames that fit the packet buffer is never torn, wherever it is cut |
| Reassembly.ChunkingIndependent | tcpio.c:195-210 | two chunkings of one stream deliver the same frames, hold the same bytes and fail at the same frame |
| Reassembly.LargeBlockLifeCycle | tcpal.c:4-31 | over whole connections: a block is open exactly while the undelivered bytes begin with the header of a large frame, holds all of them and has the announced size; completion delivers exactly that frame and starts the next one with the leftover |
| Reassembly.DeliveryModesAgree | tcpal.c:132-136 | with FULLY_RECEIVE deliveries and held bytes concatenate to the stream; without it the same frames come short of exactly their headers |
| Reassembly.UnframedPassesThrough | tcpal.c:48-53 | without a template every chunk is handed over unchanged and nothing is held |
| Tcpal.NcbRx.ParseMarkedLb | tcpal.c:4-31 | on the buffers: fills the block, or delivers exactly its bytes, frees it and returns the leftover count |
| Tcpal.NcbRx.ParsePkt | tcpal.c:33-148 | on the buffers: state, return value and callback log are those of the reassembly function, with every copy in bounds and no 32-bit overflow |
| Tcpal.NcbRx.ParseAll | tcpio.c:196-210 | the do-while loop ends and leaves what the chunk function says; the parser is never given zero bytes |
| Tcpal.NcbRx.RxOnce | tcpio.c:188-236 | after one recv the buffers and the log are those of the whole connection so far; EAGAIN gives 11, a signal 0, a closed connection -104, an error or a parse failure -1 |
| Tcpal.NcbRx.Rx | tcpio.c:238-246 | tcp_rx reads past data and signals to the first other answer and returns 11, -104 or -1 for it; it stops before that, with -1, exactly when a parse fails; the log stays that of the whole connection |
| Tcpal.ReadsExactly | tcpio.c:216-246 | every answer before the one that ends the reading is data or a signal, and the value returned is the one of that last answer |
| TxQueue.QueueKeeps | fifo.c:42-80 | a refused node leaves the queue exactly as it was; an accepted one is owed last, and EPOLLOUT is armed exactly when the queue was empty |
| TxQueue.PopKeeps | fifo.c:103-146 | the oldest node is removed, and EPOLLOUT is withdrawn exactly when it was the only one |
| TxQueue.TxnRunEnds | tcpio.c:248-288 | the send loop ends with the whole node sent and its size returned, or with bytes left and EAGAIN or -1 |
| TxQueue.TxnRunExactly | tcpio.c:255-287 | told from the answers alone: the node has gone at the answer that takes its last byte; at EAGAIN or an error before that, or when nothing more is answered, exactly the bytes taken so far have gone and the value is -11 or -1 |
| TxQueue.TxnMovesBytes | tcpio.c:255-285 | one send moves bytes from the front of what the node owes to the wire, or moves none |
| TxQueue.WriteKeeps | tcp.c:729-767 | without interference the packet is sent, queued behind everything owed, or refused; -EBUSY happens exactly when the queue is full, and then no byte of it has left |
| TxQueue.WriteExactly | tcp.c:729-767 | behind a queue nothing is sent directly; on an empty queue the packet is sent directly and queued only after EAGAIN; a positive value means that all of it went and nothing was queued, and every failure leaves the queue as it was |
| TxQueue.WriteAtOnce | tcp.c:729-739 | on an empty queue, by the first answer: all taken gives the size, EAGAIN queues the packet untouched, an error gives -1 and queues nothing |
| TxQueue.ServedKeeps | wpool.c:91-106 | one task never changes the stream of its link (wire plus owed bytes) and retires one packet exactly when it reports success |
| TxQueue.ServedExactly | wpool.c:91-106 | a link that is not established is closed with everything else as it was; otherwise the head sends what its answers take, and is retired exactly when all of it went |
| Transmit.NcbTx.FifoQueue | fifo.c:42-80 | the list operation with its roll-back, the size, the blocking flag and the interest set against the queue function |
| Transmit.NcbTx.FifoPop | fifo.c:103-146 | the same for removal; the popped object is the head of the old list |
| Transmit.NcbTx.TcpTxn | tcpio.c:248-288 | the loop on a node object: offset, answers used and return value of the loop function, and exactly the bytes between the offsets put on the wire |
| Transmit.NcbTx.TcpTx | tcpio.c:291-314 | sends from the head of the queue through the pointer fifo_top gave; the other nodes are untouched |
| Transmit.NcbTx.TcpWrite | tcp.c:635-780 | argument check, packet building for every template and mode, direct send or queueing: the new state is that of the write function on the node's bytes, and every early failure changes nothing |
| Transmit.NcbTx.Serve | wpool.c:91-106 | tcp_tx and the pop or close that follows, against the one-task function |
| Wpool.DrainAccounts | wpool.c:135-139 | whatever epoll_ctl answers each time, every execution of the drain loop uses up exactly one queued packet or one task, and no stream changes |
| Wpool.DrainServes | wpool.c:100-106 | a link with a task is served until its queue is empty or its kernel stops answering, however long other queues are, and then the wire is its whole stream |
| Wpool.DrainLeavesAlone | wpool.c:71-74 | a drain changes nothing on a link that is closed, has nothing queued or has no task |
| Wpool.DrainFrees | wpool.c:135-138 | a task for a closed link or an unknown handle answers -2 and is gone, and the drain goes on as without it |
| Wpool.DrainCloses | tcpio.c:301-306 | a link with a task that is no longer established ends closed, with wire, queue and answers as they were |
| Wpool.DrainKeepsOpen | wpool.c:94-95 | an established link none of whose sends is answered 0 or an error is never closed |
| Wpool.DrainClosesBroken | wpool.c:94-95 | a link with a task whose head meets such an answer ends closed |
| Wpool.DrainInTurn | wpool.c:135-139 | tasks are executed from the front of the list and go back to its end: the only packet of the link at place i goes out whole in execution i, and EPOLLOUT stays armed exactly when epoll_ctl failed in that execution |
| Wpool.WorkerPool.ServeLink | wpool.c:73-106 | serving one link's objects changes that link as the one-task function says and no object of another link |
| Wpool.WorkerPool.Exec | wpool.c:61-111 | closed handle, failure, EAGAIN, empty queue or success on the objects, with the task queued again exactly on success |
| Wpool.WorkerPool.Drain | wpool.c:133-139 | the inner loop of the worker ends, leaves the objects as the drain function says, and frees each task once; after an order to stop it takes one task and leaves with it |
| Wpool.WorkerPool.Clear | wpool.c:179-184 | the clean-up after the thread has ended frees every task that is left, once |
| Uninterrupted.WritesAloneIsWrite | tcp.c:729-767 | for every kernel behaviour and answer of epoll_ctl there is a run with exactly these answers, in which only the writer and the kernel step, that leaves queue, wire, interest set, events and verdict as the write function says, and the rest of the system alone |
| Uninterrupted.ServesAloneIsServed | wpool.c:61-111 | the same for one task of the worker, from tcp_tx to the pop, the requeueing or the freeing; the worker refuses the link in it if and only if it is not established |
| Uninterrupted.DrainsAloneIsDrain | wpool.c:133-139 | the same for the whole drain loop over all links, with any sequence of answers of epoll_ctl: empty task list, every task freed once |
| TxInvariant.SendWriteConserves | tcp.c:729-739 | a direct send, also one that fails, keeps the stream account |
| TxInvariant.WorkerSendOk | tcpio.c:308-311 | the worker's pointer leads to the head of the queue and its send keeps the link invariant |
| TxInvariant.WorkerPopOk | wpool.c:100-106 | the popped node is the one the worker sent, complete, and its removal keeps the link invariant, whatever epoll_ctl answers |
| TxInvariant.RunKeepsInv | wpool.c:61-145 | queue coupling, order, stream account and task ownership survive every run of all threads, with any call failing and up to the end of the pool |
| TxTheorems.StreamConservation | tcp.c:729-767 | in every reachable state wire ++ queue tails ++ the writer's tail is the accepted packets in write order with the sent parts of given-up ones; these are the accepted packets alone if and only if no partly sent packet was given up |
| TxTheorems.RejectionTearsExactly | tcp.c:729-767 | in every reachable state a packet tcp_write refuses, for whatever reason, spoils an exact stream if and only if some of it had gone out |
| TxTheorems.RejectionNeverTears | fifo.c:56-59 | in every reachable state a packet refused with -EBUSY has put none of its bytes on the wire and leaves no trace |
| TxTheorems.TornExactly | tcp.c:729-767 | over every run the stream is free of torn packets if and only if no step of the run refused a packet that had begun to go out |
| TxTheorems.WorkerRetiresWhatItSent | wpool.c:100-106 | in every reachable state the node fifo_pop removes is the one fifo_top returned, sent to its last byte |
| TxTheorems.WorkerNeverDangles | tcpio.c:309-311 | the pointer fifo_top returned stays valid across concurrent queueing, so the worker can always go on |
| TxTheorems.TaskOwnership | wpool.c:135-138 | every task ever made is in the list, in the worker's hand, freed or leaked: in one place, once; none is leaked before the thread has ended, and then at most one |
| TxTheorems.StopLeaksExactly | wpool.c:135 | a task is leaked if and only if the worker comes back to a non-empty list after the order to stop, and it is the one in front |
| TxTheorems.RoundRobin | wpool.c:32-59 | a task at position k is at the front after exactly k takes, whatever else happens and however often links queue themselves again, until the clean-up of the pool |
| TxTheorems.NothingExcluded | tcp.c:729-767 | runs leave nothing out: in every state the kernel may do anything, a writer may go on with any answer the kernel can give and any answer of epoll_ctl, and every event may be fetched, passed on or lost |
| TxTheorems.DirectFirst | tcp.c:729-739 | in every reachable state a writer that finds nothing queued sends directly, and what the kernel takes is the front of its packet; one that finds something queued sends nothing |
| TxWakeUp.RunWakes | fifo.c:123-129 | while the two ignored answers are good for a link, whatever happens on the others, EPOLLOUT is armed there only over a non-empty queue, and its non-empty queue has somebody to come for it |
| TxWakeUp.NoLostWakeUp | fifo.c:64-75 | in every state reached with good answers for a link its non-empty queue has a task, the worker, a fetched event, or armed EPOLLOUT with a full kernel or a pending event |
| TxWakeUp.QuiescentIsDrained | wpool.c:113-140 | the protocol cannot come to rest with bytes left behind: at rest the queue is empty and the whole stream is on the wire |
| LostWakeUp.DisarmDecides | fifo.c:123-129 | from every state in which the last node of a live link is about to be popped: every continuation keeps the link's wake-ups if and only if epoll_ctl answers 0 |
| LostWakeUp.DroppedEventDecides | io.c:131-133 | from every state with a fetched event: when wp_queued fails, every continuation keeps the link's wake-ups if and only if nothing is queued, a task or the worker is there, or the kernel will signal again |
| LostWakeUp.StrandedStays | fifo.c:64-75 | a stranded queue stays stranded through every run in which the peer sends nothing and its kernel neither fills up by itself nor signals without cause: later packets queue behind it and no byte moves |
| LosingRun.FailedDisarmLosesWakeUp | fifo.c:123-129 | a run from an established link that ends with an accepted packet stranded after one failing epoll_ctl |
| LosingRun.DroppedEventLosesWakeUp | io.c:131-133 | a run that ends with an accepted packet stranded after one failing wp_queued |
| LosingRun.RefusalTears | tcp.c:729-739 | a run in which a send fails half-way and a part of the refused packet stays on the wire of a live link |
| LosingRun.StopLeaks | wpool.c:135 | a run in which the only task is neither executed nor freed |
| TwoWriters.TurnsAreOneWriter | tcp.c:729-761 | every run of two writers that take turns is a run of one writer |
| TwoWriters.TurnsConserve | tcp.c:729-761 | so their stream is conserved |
| TwoWriters.OverlapTears | tcp.c:729-761 | from every state in which two writers overlap before either packet is queued, and one has two bytes to go, the run can go on so that the other packet ends up in the middle of it |
| TwoWriters.TwoWritersTear | tcp.c:729-761 | a run of two writers that do not take turns: both packets are accepted and sent, and the wire carries A1 B1 A2 |
| TxProgress.RunBound | wpool.c:113-140 | every run, with any call failing: its steps and the work left at its end are at most the work at its start and what was put in from outside |
| TxProgress.SettlingEnds | wpool.c:113-140 | so no schedule of threads and kernel goes on for ever without new input |
| TxProgress.RestIsReachable | wpool.c:113-140 | from every state, while the pool runs, some run without new input and with good answers comes to rest |
| TxProgress.RestIsQuiescent | wpool.c:113-140 | where no such step is left, no link has a task queued or executing, a write under way, an event pending or fetched, or a full kernel |
| TxProgress.StopsInTheEnd | wpool.c:174-184 | from every reachable state of a pool told to stop, where nothing more can settle the thread has ended, the list is empty, and every task ever made has been freed or leaked, once |
| TxProgress.EverythingIsSentInTheEnd | io.c:111-136 | any run from a state reached with good answers for a link, on which they stay good, is bounded by the work and the input; where it can go no further the live link's queue is empty and its whole stream is on the wire |
| EndToEnd.ExactlyOnceInOrder | tcpio.c:195-210 | for every interleaving, kernel behaviour, failing call and chunking: unless a partly sent packet was given up, delivered payloads are a prefix of the written messages, and all of them once their bytes have arrived |
| EndToEnd.AllOnceDrained | tcpio.c:195-210 | at rest, when the wire has been carried over in any chunks, every message has been delivered |
| EndToEnd.EverythingArrives | tcpio.c:195-210 | from any state reached with good answers for the link: let the run go on until it can go no further, with new messages if there are any, and the network carry the wire over in any chunks, and the delivered payloads are exactly the written messages |
| EndToEnd.SmallMessagesAlwaysArrive | tcpal.c:123-147 | if every packet fits the packet buffer the receiver as written needs no condition on the chunks |
| EndToEnd.CallbackLog | ncb.c:279-293 | the same for the callback log of a receiver object that has taken in the chunks: a prefix of the packets or messages, and all of them once their bytes have arrived |
| EndToEnd.CallbackPassesThrough | tcpal.c:48-53 | without a template the callback log of a receiver object is the chunks as they came |
| Registry.DistinctFits | ncb.c:36-49 | the linked entries are at most the live control blocks, so nl_count places hold every handle |
| Registry.NcbList.Allocator | ncb.c:62-81 | appends a zeroed control block, which is set up later, and counts it |
| Registry.Partition | ncb.c:40-48 | every entry is unlinked with its handle noted, or left, and none is both |
| Registry.InOrder | ncb.c:40-48 | the noted handles and the entries left are both in list order |
| Registry.NcbList.Uninit | ncb.c:17-60 | collects the handles of one protocol in list order and unlinks exactly those entries, in bounds, without changing the count; without memory for the handles it changes nothing |
| Registry.NcbList.Deconstruct | ncb.c:124-132 | removes the entry if it is still linked, keeps the others in their order, and counts the control block out once |

## Left out

- Closing of a link by the epoll thread (io.c:86-90): in the machine only the worker closes links, and a closed link may still be written to.
- UDP and ARP transmit: they pop a node themselves and the worker pops again, so the stream results do not carry over.
- Changing the template or attributes of a live link, and callbacks that change receive state.
- Freeing of buffers and nodes, the object manager's reference counts, the wait handle and its time-outs, shutdown of the epoll threads.
- Socket creation, connect, accept and listen, options, addresses, multicast, logging, the pipe wake-up and the echo program.
- `tcp_parse_pkt` with a null argument, and a `malloc` failure in `tcp_write` or while a large block is opened.
