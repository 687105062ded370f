# A verified model of PSM

PSM is a user-level messaging library for MPI. This project models, in Dafny 4.11,
its two protocol cores and the data structures under them, and proves what they
promise over every run.

- **Matched Queue.** `MatchLedger` is the reference: tag matching written without
  queues, with the order of every decision. `MqModel` is the receive engine as a
  step machine; `MqCore` and `MqRuns` prove that every legal run keeps the engine
  and the reference in agreement. `MqQueues` and `MqEngine` are the engine as it is
  written: request objects on linked queues with `lastp` and `pprev` links. Each of
  its entry points is proved to be one step of the machine, so all results about
  runs hold of it. `MqSend` is the sending side, and shows that in-order peers are
  all the engine needs. `MqOverRing` puts senders, ring and engine together.
- **Shared-memory transport.** `ShmRing` (multi-producer rings and bulk slots, step
  by step, any interleaving) and `RingProgress` (nothing is lost, and every ring can be
  emptied), `NestedPoll` (polling inside handlers, with the call stack explicit) and
  `PollProgress` (what is owed is kept, and gets sent), `Rendezvous` (the handshake
  between a sender and a receiving engine, with messages delayed and reordered freely),
  `LongMessage` (fragmentation), `Connect` (phase-numbered connect and disconnect) over
  `Errors` (which of two error codes is reported).
- **Supporting structures.** `EpidTable`, `Timer`, `Mpool`, `Memcpy`, `EpState`, and `Crc`
  with polynomial division over GF(2). `Basics`, `Bits` and `Shifts` hold shared
  definitions.

`dafny verify dfyconfig.toml` checks everything. Each class has a short client that chains
its calls: `MqEngine.FromTheStart`, `MqEngine.PullAnnounced`, `EpidTable.EnterFindRemove`,
`EpState.TwoEndpoints`, `Mpool.Recycle`, `Timer.Plain`, `Connect.ConnectTwo`.

Conventions. A step machine returns `None` where the C code would fail an assertion
or follow a bad pointer, and one of the results is that this never happens. Memory
is sequentially consistent and a spin-locked section is one step. Tags are 64-bit
unsigned integers with bitwise operators defined digit by digit. Allocation
failures, directory contents, the clock, and who may answer or connect during a call
are parameters; what of it arrives, and when, is an arbitrary choice. Debug-only
assertions are checked where they hold and otherwise described below.

Where code and comments differ the code is followed:

- Epid lookup compares only the hash, although its comment says epid and endpoint.
- `ptl.h` says entries that could not be connected in time are marked UNKNOWN; the
  code marks them TIMEOUT.
- The pool's description lets `get` return NULL at the maximum; a debug build would
  stop on an assertion in the chunk allocator first.

Claims that are false of the code, with the exact condition under which they hold:

- A stale connect reply is harmless unless adding an address failed: such a failure
  abandons the request without moving the phase on. `Connect.Ptl.Connect` says exactly
  when it happens, and that the polls stop at the first peer that cannot be added. Where
  each peer either answers at once or not during the call, the endpoint is sound
  afterwards if and only if every fitting peer found before that poll answers at once and
  no fitting one found at that poll stands before the stop; it is always sound if that
  holds. `Connect.AbandonedRequest` and `Connect.AbandonSlow` are runs that go wrong,
  `Connect.AbandonLate` is one that does not.
- A connect's assertion that a known peer is idle or established fails exactly if a
  disconnect reply was left unprocessed (`Connect.Ptl.Connect`). `Connect.Ptl.Disconnect`
  leaves one only if the time is up at the first poll, and then only from a peer that is
  there, is not slow, and had a later one asked after it; every such peer that answers at
  once does leave one. `Connect.LateDisconnect` is such a run.
- A timer pass ends if and only if no two of the timers it runs request themselves at one
  priority level, and runs all that is due in turn if and only if, besides, no due timer
  requests itself for a time that passes over another due one
  (`Timer.Control.ProcessExpired`). `Timer.LeftOut` and `Timer.NeverEnds` are the runs.
- A failed table growth, and a packed epid of zero, leave the communication-index table
  inconsistent, and nothing else does (`EpState.Table.Add`). After a failed growth both a
  lookup and the next hole scan read past the table (`EpState.Table.FailedGrowth`). An
  epid of zero leaves its cell free, and when the scan comes round two endpoints have one
  index (`EpState.ZeroEpid`).
- A pool never exceeds its maximum unless it is one chunk of 2^31 objects: the 32-bit sum
  wraps, and the request that finds them all in use writes behind the chunk vector
  (`Mpool.Pool.Get`). `Mpool.Overflow` is the run.
- Handing each packet over once needs the handlers' discipline, and exactly that
  (`NestedPoll.ReentryExactly`).
- The epid table's size is not bounded by what is in it (`EpidTable.Bloat`).

## Model

| member | source | states |
|---|---|---|
| MqModel.FindExpected | psm_mq_internal.h:345-364 | the walk over the expected queue stops at the first receive whose tag and selector accept the message, and skips none |
| MqModel.FindUnexpected | psm_mq.c:47-66 | the walk over the unexpected queue stops at the first message that the receive accepts, and skips none |
| MatchLedger.AcceptsDigits | psm_mq_internal.h:354 | a receive accepts a tag if and only if the two agree in every binary digit that is set in the selector, by division and remainder |
| MqCore.FindsOldestPost | psm_mq_internal.h:345-364 | under the invariant, the receive found by the walk is the one posted earliest of all that wait and accept the tag |
| MqCore.FindsOldestMsg | psm_mq.c:47-66 | under the invariant, the message found by the walk is the one that arrived earliest of all unmatched ones the receive accepts |
| MqRuns.IrecvKeepsInv | psm_mq.c:394-492 | posting a receive, in any state of the queues, keeps requests, queues, buffers and the reference ledger in agreement |
| MqRuns.CancelKeepsInv | psm_mq.c:196-236 | so does a cancel, whose queue walk always finds the request |
| MqRuns.EagerKeepsInv | psm_mq_recv.c:265-330 | so does a whole message, matched or parked |
| MqRuns.LongFirstKeepsInv | psm_mq_recv.c:186-330 | so does the first fragment of a long message |
| MqRuns.LongNextKeepsInv | psm_mq_recv.c:36-102 | so does every later fragment, before or after the receive was posted |
| MqRuns.RtsKeepsInv | psm_mq_recv.c:104-153 | so does a rendezvous announcement |
| MqRuns.RtsDoneKeepsInv | psm_mq_recv.c:155-173 | so does the completion of a rendezvous whose bytes are in place |
| MqRuns.TestKeepsInv | psm_mq.c:312-350 | so does testing and releasing a request |
| MqRuns.RunKeepsInv | psm_mq_recv.c:36-330 | no legal run of any length fails an engine assertion, and every one keeps the invariant and the order of decisions |
| MqRuns.NonOvertaking | psm_mq.c:394-492 | after every legal run: no receive passed over an older message it accepts, no message passed over an older receive that accepts it, and the engine's pairings are the reference's (section 3.5 of the MPI standard) |
| MqRuns.Location | psm_mq.c:196-236 | after every legal run: each request is in exactly the queue its state calls for, once, and no parked message is accepted by a posted receive |
| MqRuns.Delivery | psm_mq_recv.c:36-102 | after every legal run: a completed receive holds the first min(buffer, message) bytes and its untouched tail, reports truncation exactly when the message was longer, completed once, and an eager one completed exactly when all bytes had arrived |
| MqRuns.RunRecords | psm_mq_recv.c:104-330 | after every run, the ledger's receives and messages are those of the calls and arrivals, in their order, each with its own tag, selector, peer and bytes |
| MqRuns.Parked | psm_mq_recv.c:104-153 | after every legal run, each parked request, announcements included, shows its message's tag and length, in both length fields, and no error |
| MqRuns.ProbeFinds | psm_mq.c:164-193 | the request found by a probe stands for the earliest unmatched message that the selector accepts in the ledger, and one is found exactly if there is such a message |
| MqRuns.CancelCompletes | psm_mq.c:196-236 | a cancel of a posted receive moves it from the expected to the completed queue, without a message; of any other request it changes nothing |
| MqRuns.TakenBack | psm_mq.c:196-236 | after every legal run, a request that completed without a message is a cancelled receive, with the tag and buffer it was posted with, untouched |
| MqRuns.TestReleases | psm_mq.c:312-350 | a test of a completed request ends its holder's claim and takes it out of the completed queue; of any other it changes nothing |
| MqQueues.Sq.Append | psm_mq_internal.h:282-289 | the links spell out the old queue with the request at its end |
| MqQueues.Sq.Unlink | psm_mq.c:56-63 | the links spell out the queue without that request, `lastp` included |
| MqQueues.Sq.TakeAccepting | psm_mq_internal.h:345-364 | takes the first accepting receive out of the chain and leaves the rest linked in order |
| MqQueues.Sq.FindAccepted | psm_mq.c:47-66 | the same for messages, with or without removal |
| MqQueues.Sq.RemoveSingle | psm_mq.c:88-104 | takes a given request out if and only if it is in the queue |
| MqQueues.Qq.Append | psm_mq_internal.h:262-270 | appends to the completed queue with `pprev` leading back |
| MqQueues.Qq.Remove | psm_mq_internal.h:291-300 | takes a request out of the completed queue through its own links |
| MqQueues.AcceptsSymmetric | psm_mq.c:56 | the tag comparison does not depend on which side is the message |
| MqEngine.Engine.PostReceive | psm_mq.c:394-492 | on linked queues, adopts or posts exactly as the step machine does, for each state of an adopted request, and returns the request of the adopted message or a new one |
| MqEngine.Engine.CancelReceive | psm_mq.c:196-236 | on linked queues, unlinks a posted receive and completes it; the return-code assertion holds |
| MqEngine.Engine.TestRequest | psm_mq.c:312-350 | reports tag, lengths and error of a completed request and unlinks it; changes nothing otherwise |
| MqEngine.Engine.Probe | psm_mq.c:47-66 | finds the first message the selector accepts and leaves all queues as they were |
| MqEngine.Engine.Iprobe | psm_mq.c:164-193 | searches, polls if nothing fits, searches again, whatever legally comes in during the poll; reports tag and length of the earliest unmatched message in the ledger that the selector accepts, with no error, and success exactly if there is one |
| MqEngine.Engine.ClaimFor | psm_mq_internal.h:244-258 | the first accepting receive takes the message's tag and lengths, with truncation noted |
| MqEngine.Engine.HandleEager | psm_mq_recv.c:186-330 | a tiny or short envelope completes the matched receive or parks a copy |
| MqEngine.Engine.HandleRts | psm_mq_recv.c:104-153 | an announcement is matched or parked; which, and which request stands for it |
| MqEngine.Engine.TakeFragment | psm_mq_recv.c:36-102 | a fragment lands where the counters say; the last one ends the train and completes a matched receive |
| MqEngine.Engine.HandleLong | psm_mq_recv.c:186-330 | the first packet of a long message starts a train for the matched or a new request |
| MqEngine.Engine.NextFragment | ptl_am/ptl.c:139-147 | a data packet goes to the request at the head of its peer's list |
| MqEngine.Engine.CompleteRts | psm_mq_recv.c:155-173 | a finished rendezvous receive goes to the completed queue |
| MqEngine.Engine.Irecv | psm_mq.c:394-492 | every call on a reached engine is one legal step and leaves a reached engine; the request returned is the engine's, is held by the caller, and is the adopted or the new one |
| MqEngine.Engine.Cancel | psm_mq.c:196-236 | the same for cancel; it succeeds exactly on posted receives |
| MqEngine.Engine.Test | psm_mq.c:312-350 | the same for test; the status reported is that of the matched message and the posted buffer in the ledger |
| MqEngine.StatusRight | psm_mq.c:312-350 | for every held and completed request: the tag is the message's, the length sent is the message's, the length received is the lesser of message and buffer, and the error says truncated exactly if the message was longer; a cancelled receive shows its own tag and buffer length |
| MqEngine.Engine.Envelope | psm_mq_internal.h:380-410 | the same for tiny and short messages |
| MqEngine.Engine.LongEnvelope | psm_mq_recv.c:265-330 | the same for the start of a long message |
| MqEngine.Engine.Data | ptl_am/ptl.c:139-147 | the same for later fragments |
| MqEngine.Engine.RtsEnvelope | ptl_am/ptl.c:122-134 | the same for announcements: whether one is matched, the request returned, and that a matched one can be pulled |
| MqEngine.Engine.RtsBytes | ptl_am/ptl.c:60-69 | the same for bytes the transport writes into a matched buffer |
| MqEngine.Engine.RtsComplete | ptl_am/ptl.c:185-192 | the same for rendezvous completion |
| MqEngine.HeldOn | psm_mq.c:312-350 | a handle stays with its holder through every step until a test reports its request complete |
| MqEngine.PullLegal | ptl_am/ptl.c:60-69 | on every reached engine the bytes of a matched announcement may be written as far as they fit, and then the receive may be completed |
| MqEngine.Engine.QueuesDoNotMatch | psm_mq.c:394-492 | on the linked queues of every reached engine, no posted receive accepts a parked message |
| MqSend.SendTrain | ptl_am/am_reqrep_shmem.c:2264-2284 | the data packets of a long send carry the message in order, none empty, none above 2048 bytes |
| MqSend.Send | ptl_am/am_reqrep_shmem.c:2243-2314 | which of tiny, short, long and rendezvous a send becomes, for every length, flag and threshold, and that its packets form one complete message |
| MqSend.HeadLegal | ptl_am/ptl.c:95-147 | the next packet of a peer is always one the engine allows |
| MqSend.InOrderPeersSuffice | ptl_am/am_reqrep_shmem.c:2275-2283 | under any interleaving of peers and local calls, in order per peer, the engine makes a legal run, and once a peer's packets are delivered all its messages are complete |
| MqSend.EmptyFeed | ptl_am/ptl.c:95-147 | with nothing sent yet that condition holds, so it holds of all runs from the start |
| MqOverRing.TakenInOrder | ptl_am/am_reqrep_shmem.c:1696-1725 | on every reached ring, whatever the packets show of what they carry, what the consumer took is, peer by peer, the beginning of what that peer sends |
| MqOverRing.InOrderIsLegal | ptl_am/ptl.c:95-147 | arrivals in order per peer, merged in any way with legal calls of the receiver, are a legal run of the engine |
| MqOverRing.RingDrivesEngine | ptl_am/am_reqrep_shmem.c:1696-1805 | any number of producers, any interleaving of their steps with the consumer's, packets known only by their place in the stream of their sender, any legal calls in between: the engine makes a legal run, and once a producer's packets are taken its messages are complete |
| Rendezvous.FragmentsTiled | ptl_am/am_reqrep_shmem.c:1903-1958 | for every way of cutting it, the pieces of a reply tile the bytes due |
| Rendezvous.RtsKeeps | ptl_am/ptl.c:95-137 | delivering an announcement keeps engine and transfers in order, whatever is under way |
| Rendezvous.AnsweringKeeps | ptl_am/ptl.c:43-84 | answering a match does, in all copy modes and for zero bytes |
| Rendezvous.LocalKeeps | psm_mq.c:394-492 | any call of the receiving process in between does |
| Rendezvous.AnswerKeeps | ptl_am/ptl.c:149-183 | the sender's side of a match does, in all copy modes |
| Rendezvous.ReplyKeeps | ptl_am/ptl.c:185-192 | each fragment of a reply does, and the last one completes the receive |
| Rendezvous.NeverStuck | ptl_am/ptl.c:43-192 | no run fails an assertion or writes outside a matched buffer |
| Rendezvous.SendCompletes | ptl_am/ptl.c:149-183 | a send completes at most once, and only after a receive took a message with its peer, tag and bytes |
| Rendezvous.ReceiveCompletes | psm_mq_recv.c:104-173 | its receive completes at most once, and then reports the sender's tag and holds the first min(buffer, message) bytes of the sender's buffer, with truncation reported exactly when due |
| Rendezvous.CallsAnnounced | ptl_am/am_reqrep_shmem.c:2214-2238 | over every run: the i-th send has the peer, tag and bytes of the i-th call, and the message the engine records for it has them too |
| Rendezvous.Quiescence | ptl_am/ptl.c:43-192 | with nothing under way, a message was matched if and only if its send completed, and if and only if its receive did |
| Rendezvous.Settles | ptl_am/ptl.c:43-192 | from every reached state, deliveries alone lead to that rest, so nothing is stranded |
| Rendezvous.NetNonOvertaking | psm_mq_recv.c:104-153 | in every run of the net the engine makes a legal run, so rendezvous messages do not overtake, or get overtaken, either |
| ShmRing.GrabShortKeepsInv | ptl_am/am_reqrep_shmem.c:1558-1591 | reserving a slot, at any moment and by any producer, keeps the circular window and all entries |
| ShmRing.AdvanceKeepsInv | ptl_am/am_reqrep_shmem.c:1679-1687 | freeing the head slot does |
| ShmRing.StepKeepsInv | ptl_am/am_reqrep_shmem.c:1778-1805 | every step of every producer and of the consumer does |
| ShmRing.DeliveredInOrder | ptl_am/am_reqrep_shmem.c:1696-1725 | on a ring of any size, with any number of producers and any interleaving, packets are handed over once, whole, in reservation order, hence in send order per producer |
| RingProgress.TakeHands | ptl_am/am_reqrep_shmem.c:1702-1708 | on every reached ring, taking the packet at a ready head hands over the oldest one that is not freed, and that one only |
| RingProgress.RunBegins | ptl_am/am_reqrep_shmem.c:1778-1805 | over every run, what a producer has begun to send is what it was given to send, in order |
| RingProgress.ReachedNoLeak | ptl_am/am_reqrep_shmem.c:1558-1687 | on every reached ring, each bulk slot that is not free is accounted for by a producer at work on it or by a packet that names it |
| RingProgress.Settles | ptl_am/am_reqrep_shmem.c:1696-1805 | from every reached ring there are steps without new sends after which all that was begun is taken, in order, by each producer's stream, all producers are idle, and all slots and bulk slots are free |
| ShmRing.NothingOverwritten | ptl_am/am_reqrep_shmem.c:1558-1591 | the slots that are not free are exactly those from head to tail, and a ready one holds its packet |
| ShmRing.BulkSlotOwned | ptl_am/am_reqrep_shmem.c:1871-1900 | the bulk slot a ready packet names is ready, holds the producer's payload and is named and held by nobody else |
| NestedPoll.StepKeepsInv | ptl_am/am_reqrep_shmem.c:1696-1743 | every activation the code can make keeps the discipline of the call stack |
| NestedPoll.HandedOnce | ptl_am/am_reqrep_shmem.c:1696-1768 | in every run each packet is handed to its handler once and in order, although sends poll inside handlers |
| NestedPoll.DeferredInOrder | ptl_am/am_reqrep_shmem.c:2015-2096 | deferred requests are sent once each, first in first out, including those deferred during a drain |
| PollProgress.RunKept | ptl_am/am_reqrep_shmem.c:1696-1743 | over every disciplined run, for each deferred request and for replies: what was deferred or sent and what the open calls still owe add up to what the handed packets call for |
| PollProgress.DrainSends | ptl_am/am_reqrep_shmem.c:2023-2051 | when an outermost poll that began to drain has returned, everything that was in the queue at that moment has been sent |
| PollProgress.Settles | ptl_am/am_reqrep_shmem.c:1696-1768 | after every disciplined run there are steps without arrivals that lead to rest: no call open, all packets handed over, and everything deferred and replied sent |
| NestedPoll.SendingReplyHandlerReenters | ptl_am/am_reqrep_shmem.c:1701-1708 | a run from the start in which a reply handler that sends is handed its own packet again, for every such packet |
| NestedPoll.RequestingHandlerReenters | ptl_am/ptl.c:72-78 | a run from the start in which a request handler that sends a request instead of deferring it is handed its packet again, for every such packet |
| NestedPoll.ReentryExactly | ptl_am/am_reqrep_shmem.c:1696-1743 | for all sets of packets that may arrive: some run hands a packet over twice if and only if the handler of a reply sends something or that of a request sends a request directly |
| LongMessage.SendLong | ptl_am/am_reqrep_shmem.c:1903-1958 | for every length below 2^32 the pieces tile the message, only the last is an END packet, each is full unless it is the last, and each fits its slot: 8 KB with the header below 1 MB, 512 KB from there on |
| LongMessage.Target.Process | ptl_am/am_reqrep_shmem.c:2186-2209 | a packet overwrites exactly its place in the destination and runs the handler if it is an END packet |
| LongMessage.EachArrivesWhole | ptl_am/am_reqrep_shmem.c:2144-2209 | any number of long messages, interleaved in any way, each arrive byte for byte and nothing else in memory changes |
| LongMessage.HandlerRunsOnce | ptl_am/am_reqrep_shmem.c:2194-2206 | at every moment the handler has run once, with the full length, for each complete message and for no other |
| Errors.ErrorCmp | psm_error.c:163-203 | for all codes: the result is the more serious of the two by stage of failure, run time, device, endpoint and connecting in that order, and then by name; success only if both are |
| Errors.RankedByName | psm_error.c:163-193 | the table of the code lists the codes in that order, and no other ones |
| Connect.Ptl.Arrive | ptl_am/am_reqrep_shmem.c:2483-2526 | a reply can change memory and peer state only while its own request is running, in the slot of a peer that was asked and had not answered; any other reply changes nothing |
| Connect.Ptl.ReceiveSome | ptl_am/am_reqrep_shmem.c:1755-1768 | any arrivals while the code polls keep that, touch no peer without a pending request, and keep every asked entry's packet under way or answered |
| Connect.Ptl.InitConnect | ptl_am/am_reqrep_shmem.c:1140-1236 | which entries are unreachable, established or to be asked; with none to ask the outcome is final and the phase moves on |
| Connect.Ptl.AcceptReplies | ptl_am/am_reqrep_shmem.c:1298-1315 | exactly the asked peers that replied become established, no connection is lost, and the count of pending entries stays exact |
| Connect.Ptl.AskAll | ptl_am/am_reqrep_shmem.c:1316-1383 | what becomes of every entry; it stops exactly at the first peer that is there, fits, cannot be added and is not known |
| Connect.Ptl.PollConnect | ptl_am/am_reqrep_shmem.c:1238-1393 | what a poll makes of every entry, prompt and slow peers included; success only with no entry pending, and out of memory exactly at a peer that cannot be added, with those before it asked |
| Connect.Ptl.FinishEntry | ptl_am/am_reqrep_shmem.c:1411-1436 | finishing one entry accepts a reply that just came or times out, and the pending count never underflows |
| Connect.Ptl.Fini | ptl_am/am_reqrep_shmem.c:1395-1453 | finishing a request gives each entry its end by what it was waiting for, and disowns all replies; a connect reports INVALID_VERSION if and only if an entry does, and TIMEOUT if and only if none does and an entry reports that; a disconnect reports the most serious error |
| Connect.WorstReported | ptl_am/am_reqrep_shmem.c:1437-1450 | the code that the loop over the entries collects is INVALID_VERSION if an entry reports it, else TIMEOUT if an entry does, else OK |
| Connect.VerdictRight | ptl_am/am_reqrep_shmem.c:1298-1436 | for every entry asked: INVALID_VERSION is reported if and only if its peer was found and does not interoperate, TIMEOUT and no address if it was never found, never OK if it is slow, and nothing but these three codes |
| Connect.Ptl.Connect | ptl_am/am_reqrep_shmem.c:1458-1514 | for distinct epids, however replies are delayed: an entry is OK if and only if its peer is established; the directory and the peer's pace say which entries report INVALID_VERSION, TIMEOUT and OK, and the result is the most serious of them, OK if and only if every entry is OK or unreachable; it fails if and only if a peer to be asked appears, cannot be added and has not made itself known, stops at the first such, and with peers that answer at once or not at all is then harmless if and only if every fitting peer found before that poll answers at once and no fitting one found at that poll stands before it |
| Connect.HarmlessExactly | ptl_am/am_reqrep_shmem.c:1298-1383 | when polls came to a stop, nobody is left asked and not accepted if and only if the directory and the peers' pace say so |
| Connect.StopsFirst | ptl_am/am_reqrep_shmem.c:1316-1383 | polls stop at the first poll, and there at the first entry, that meets a peer which cannot be added |
| Connect.AbandonLate | ptl_am/am_reqrep_shmem.c:1362-1367 | a connect that fails and leaves the endpoint sound |
| Connect.AbandonSlow | ptl_am/am_reqrep_shmem.c:1362-1367 | a connect that fails at its second poll while a peer asked at the first has not answered, which leaves the endpoint unsound |
| Connect.AllStaged | ptl_am/am_reqrep_shmem.c:1488-1506 | polls that did not stop met no peer that could not be added, and established every prompt peer they found before the last poll |
| Connect.Ptl.Abandon | ptl_am/am_reqrep_shmem.c:1362-1367 | dropping a request where it stands is harmless if and only if no entry is asked and not accepted |
| Connect.Ptl.InitDisconnect | ptl_am/am_reqrep_shmem.c:1140-1236 | exactly the established peers are to be asked |
| Connect.Ptl.PollDisconnect | ptl_am/am_reqrep_shmem.c:1254-1295 | what a poll makes of every entry, its mask and its error; success means that no wanted peer is established any more |
| Connect.Ptl.Disconnect | ptl_am/am_reqrep_shmem.c:1458-1514 | for every established peer: one that is gone is forgotten and its entry keeps its error; one that is there ends idle with OK, or its entry reports a time-out; a slow one always does the latter, one that answers at once does so only with a single poll; a reply is left unprocessed only then, from a peer that is there, is not slow and had a later one asked after it, and it is left by every such peer that answers at once; the result is the most serious error |
| Connect.AbandonedRequest | ptl_am/am_reqrep_shmem.c:1362-1367 | a connect that fails, after which the reply to its first peer overwrites the caller's memory |
| Connect.LateDisconnect | ptl_am/am_reqrep_shmem.c:1408-1424 | connect, a disconnect whose time is up at the first poll, and a connect whose assertion fails |
| EpidTable.Table.Probe | psm_utils.c:133-163 | the probe ends, at a live slot of the key if there is one and at an empty slot otherwise |
| EpidTable.Table.Lookup | psm_utils.c:165-172 | some entry of the key is found if and only if there is one; without doubled keys, lookup agrees with the finite map |
| EpidTable.Table.Remove | psm_utils.c:174-178 | one entry of the key, if there is one, leaves the bag; without doubled keys, removal agrees with the finite map |
| EpidTable.Table.FreeSlot | psm_utils.c:227-234 | the first slot on the probe sequence without a live entry |
| EpidTable.Table.Rehash | psm_utils.c:203-225 | the new table holds the same entries, and the use count loses exactly the tombstones |
| EpidTable.Table.Add | psm_utils.c:180-243 | one more entry in the bag, for any key, through tombstone reuse and growth; the map agrees if the key was absent; the use count exceeds the filled slots by exactly the tombstones ever reused and the allocations that failed |
| EpidTable.MapsOn | psm_utils.c:174-243 | while keys are not doubled, entering and removing are what they are for a map |
| EpidTable.Table.Next | psm_utils.c:52-71 | the next shown entry from a position on, skipping none |
| EpidTable.Table.All | psm_utils.c:52-71 | iterating to the end visits each entry as often as it was entered, and nothing else |
| EpidTable.Bloat | psm_utils.c:190-225 | one key, entered and removed in turn, takes the table to any size |
| Timer.Control.Request | psm_timer.c:85-142 | a requested timer is put in its place and the cached time-out stays the earliest |
| Timer.Control.Place | psm_timer.c:111-139 | the two walks find the one place: behind equal ordinary time-outs, in front of equal priorities |
| Timer.Control.Cancel | psm_timer.c:171-191 | a cancelled timer leaves the queue and the rest keeps its order and cache |
| Timer.Control.NextIsEarliest | psm_timer.c:162-166 | the cached time-out is the minimum of all pending ones |
| Timer.Skips | psm_timer.c:154-160 | a callback's request leaves behind exactly the timers due up to that time, or before it for a priority |
| Timer.TrackOn | psm_timer.c:149-160 | every callback, whatever time it requests its timer for, is a step of the reference order or a further run that changes nothing for those still to run |
| Timer.InTurn | psm_timer.c:149-160 | all that is due comes to run in the order of expiry if and only if no due timer passes over another |
| Timer.AllRan | psm_timer.c:149-160 | if no due timer asks for a time before its own, all that is due comes to run at all if and only if none is passed over |
| Timer.TrackEnd | psm_timer.c:144-169 | a pass that has ended ran the whole reference order, which holds no two timers that request themselves at one priority; without such two, it ends within (n + 1)^2 callbacks |
| Timer.Control.ProcessExpired | psm_timer.c:144-169 | the pass on the queue, for requests at any time: what runs, in the order of old time-outs and stamps, what leaves the queue, when it ends and when it runs all that is due, both exactly |
| Timer.LeftOut | psm_timer.c:154-160 | a pass that ends without having run a due timer |
| Timer.NotLeftOut | psm_timer.c:154-160 | a request at a priority leaves nothing out |
| Timer.OutOfTurn | psm_timer.c:154-160 | requests for times before the timer's own can take the pass back, so that all runs, out of turn |
| Timer.NeverEnds | psm_timer.c:149-160 | two timers that request themselves at one priority: the pass goes on whatever the budget |
| Timer.TailFirst | psm_timer.c:97-102 | the order of expiry is by time, first in first out for equal ordinary time-outs and last in first out for equal priorities |
| Shifts.PowerOfTwoTest | psm_help.h:127 | the test accepts exactly the powers of two, and zero |
| Shifts.ShrIsDiv | psm_mpool.c:331-334 | the shift is the division |
| Shifts.MaskIsMod | psm_mpool.c:331-334 | the mask is the remainder |
| Mpool.VectorShift | psm_mpool.c:136-137 | the loop finds the shift of the chunk size |
| Mpool.Create | psm_mpool.c:108-184 | for all 32-bit sizes: a pool results if and only if both are powers of two in order and memory is to be had; a chunk size of zero passes the test and then fails the division |
| Mpool.Pool.AllocateChunk | psm_mpool.c:389-441 | a chunk is added if and only if it fits below the maximum and memory is to be had, indexes stay exact, and the chunk vector is overrun exactly if its one chunk has 2^31 objects and the 32-bit sum wraps |
| Mpool.Pool.Get | psm_mpool.c:196-221 | no object is handed out twice; with memory to be had, failure means exactly that the maximum is in use, and it is a write behind the vector exactly if that maximum is one chunk of 2^31 |
| Mpool.Overflow | psm_mpool.c:396-438 | a pool of one chunk of 2^31 objects, used up, writes behind its vector |
| Mpool.Pool.Put | psm_mpool.c:231-259 | the object is free again and its generation differs; the callback is asked for exactly when the pool was exhausted |
| Mpool.Pool.FindByIndex | psm_mpool.c:323-344 | finds the object of every valid index and nothing for others |
| Mpool.Pool.IndexOfObject | psm_mpool.c:269-276 | finding by an object's own index gives the object back |
| Mpool.Pool.StaleGeneration | psm_mpool.c:240 | between any two states of a pool: an object's index still finds it, and its generation is the old one if and only if it was returned a multiple of 2^32 times, so a stale pair of index and generation does not match |
| Memcpy.CopySmall | psm_memcpy.c:206-248 | fewer than 16 bytes, by word sizes |
| Memcpy.CopyPairs | psm_memcpy.c:250-269 | fewer than 64 bytes, by pairs of words; at least 16 are moved |
| Memcpy.CopyCached | psm_memcpy.c:270-316 | fewer than 64 KB; some byte is moved even if no block is, and fewer than 64 are left |
| Memcpy.CopyLarge | psm_memcpy.c:57-192 | larger; fewer than 128 bytes are left and the destination is aligned |
| Memcpy.Memcpyo | psm_memcpy.c:194-338 | for every length and alignment of buffers that do not overlap, the result is the plain copy and no other byte changes |
| EpState.IndexRoundTrip | ptl_ips/ips_epstate.c:105-106 | the 16-bit conversions between table and communication index undo each other for every base, and the index is the table index less the base modulo 2^16 |
| EpState.Table.Lookup | ptl_ips/ips_epstate.h:67-76 | an index given out and not taken back leads to its endpoint; a lookup reads past the table exactly if the size was raised over its memory and the index lies between |
| EpState.Table.OneIndexEach | ptl_ips/ips_epstate.h:67-76 | different indexes lead to different cells |
| EpState.Table.FindHole | ptl_ips/ips_epstate.c:94-104 | the circular scan ends at the first free cell; it reads past the table exactly if the size was raised over its memory and no cell from the start on is free |
| EpState.Table.Add | ptl_ips/ips_epstate.c:69-121 | puts the endpoint into the first free cell from the last one on and gives its index, new if the table was consistent, or reports why not; the table stays consistent if and only if the memory it asked for was there and the packed epid is not zero |
| EpState.Table.FailedGrowth | ptl_ips/ips_epstate.c:77-85 | on every full table, a failed growth makes the next lookup beyond the old size and the next hole scan read past the memory |
| EpState.ZeroEpid | ptl_ips/ips_epstate.c:87-120 | for every base, an endpoint with a packed epid of zero and one that came later are given one index, which leads to the later |
| EpState.Table.Delete | ptl_ips/ips_epstate.c:123-135 | exactly that index is taken back |
| Crc.SerialConcat | psm_utils.c:764-782 | updating over a concatenation is updating over the parts in turn |
| Crc.TableStep | psm_utils.c:778-780 | one table look-up does what the shift register does bit by bit |
| Crc.PolyReflected | psm_utils.c:756 | the constant of the code is the generator polynomial x^32 + x^26 + x^23 + ... + 1 without its highest power, in reverse |
| Crc.OneRemainder | psm_utils.c:764-782 | polynomial division over GF(2) leaves one remainder |
| Crc.SerialRemainder | psm_utils.c:764-782 | for every seed and buffer, the register is, in reverse, the remainder of the message times x^32, with the seed added to its first 32 coefficients, by the generator |
| Crc.Residue | psm_utils.c:785-788 | a buffer followed by its CRC, lowest octet first, leaves the same register whatever the buffer |
| Crc.Table.Make | psm_utils.c:747-762 | every entry is the register after eight steps |
| Crc.Table.Update | ptl_ips/ips_crc32.c:79-91 | for every seed and buffer the table-driven loop equals the bit-serial shift register of section 8 of RFC 1952 |
| Crc.Table.Crc | psm_utils.c:785-788 | the CRC is the complement of the register started from all ones |

## Left out

- Device, driver and sysfs code, shared-segment creation and relocation: system calls and mappings; the directory is taken as mapped.
- Memory fences and hardware reordering, and the lock-free variant of slot reservation: sequential consistency and the spin-locked variant are modelled.
- The rings, nested polling and the rendezvous net are step machines on values, since their point is interleaving; update in place is modelled in `MqEngine`, `Connect`, `LongMessage` and the supporting structures.
- The context pointer of a request, and the message length in the status of a cancelled receive, which the code leaves as it was: not modelled.
- User buffers are values inside requests, so two receives posted into overlapping memory are not modelled.
- Request objects are never reused; that reuse is sound is the pool's part (`Mpool`).
- Blocking waits, peeking at completions, statistics, environment settings and error-handler dispatch: no further hard property.
- User-registered active-message handlers: arbitrary code; nested polling knows a handler by the replies and requests it sends and the requests it defers.
- IPS wire protocol, expected receives and path records, UUID handling.
- Connect with an epid listed twice, and what `psm_ep_connect` does across devices.
- Connect.Ptl.Connect: phase numbers are unbounded, so a reply older than 2^32 requests is not modelled; the peer's own FROM state and `connect_from` are left out.
- EpidTable.Table.Add: keyed by the 64-bit hash; the mixing function is not modelled, and the load limit uses exact arithmetic instead of single-precision floats.
- Mpool.Create: sizes of objects and their alignment are left out.
- Mpool.Pool.Get: the debug assertion in the chunk allocator is not modelled.
- Timer.Control.ProcessExpired: a callback may request its own timer, for any time but the same one at each of its runs; callbacks that touch other timers are left out. The code has no budget; it stands for how far the pass is followed.
- Memcpy.Memcpyo: prefetching and the choice between cached and streaming stores are left out.
