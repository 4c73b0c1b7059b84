# Rx and LWP: a Dafny model

This project models the Rx remote procedure call transport and the LWP cooperative threads under
it, and the file name matcher `fnmatch`, and proves what they promise. LWP threads run until they
sleep, so the code between two sleeps is one step, and each component is a transition system whose
theorems speak of every run. Where the C code changes structures in place, a class with the same
fields has methods proved against the functions the theorems are about.

The build modelled is user mode with `ADAPT_PERF` and `SOFT_ACK` on, `ADAPT_WINDOW` and
`RX_ENABLE_LOCKS` off, and null security. Sequence, serial and call numbers do not wrap.

- **RxTransport, RxDelivery, RxCall** One direction of a call over a network that loses, duplicates
  and reorders: windows, hard and soft acknowledgements, in-order delivery, no deadlock; and what the
  two ends owe each other at each step.
- **RxIovec, RxWriter, RxReader** The byte stream packed into and out of buffer vectors.
- **RxStream, RxSleepers, RxSession, RxDialogue** Writer, transport and reader as one transition
  system; the processes asleep in it; the writer and reader with their buffers against its runs; and
  every interleaving of their calls, end to end.
- **RxServer, RxArrivals, RxServerProcs** Calls on server channels and the processes that execute them: at
  most once execution, work conservation, `minProcs` and `maxProcs`, and that no request is forgotten.
- **Rings** Rings of doubly linked nodes, for the queues of both libraries.
- **RxClock, RxQueue, RxEvent, RxEventQueue, RxEventHandles, RxEventLedger** The clock, the doubly
  linked queues, timed events, who owns a pending event and which are pending.
- **RxPacketPool, RxRto, RxPeers, RxPeerViews, RxPeerOps** Packet quotas, the retransmission timeout, and the
  peer and connection tables.
- **LwpLock, LwpPreference, LwpLockOps** Locks, and who gets them.
- **LwpScheduler, LwpTurns, LwpWaiting, LwpSchedulerOps, LwpQueue** The priority scheduler, whose turn
  it is, and waiting.
- **Fnmatch, FnmatchSyntax** The matcher against the language of its pattern, and the syntax of patterns.

Where a promise fails, there is a counterexample and the exact condition under which it holds:

- `LwpLock.SafeExactly`, counterexample `LwpLock.ReadersOverflow`: the lock's reader count has 8
  bits, so exclusion holds exactly for at most 256 threads.
- `RxTransport.WindowAgreementExact`, counterexample `RxTransport.WindowTooSmall`.
- `RxPacketPool.QuotasExact`, whose proof builds the panicking run.
- `RxReader.LossExactly`, counterexample `RxReader.EmptyPacketIsLost`.
- `LwpScheduler.QWaitNeedsAnother`, counterexample `LwpScheduler.AloneCannotWait`.
- `LwpScheduler.WaitForNothing`, counterexample `LwpScheduler.LostByWaiting`.

Code and comments disagree in these places, and the model follows the code. `rx/rx_rdwr.c:99-108`
says a packet without data is freed; the pointer to it is overwritten when another follows, and the
packet is lost (`RxReader.EmptyPacketIsLost`). The writer sends no such packet but the last, so a
session of the two loses none (`RxSession.SessionSafe`). `rx/rx.c:2699-2704` handles a queued call that meets
an idle process; no run reaches it (`RxServer.NeverWaitsWithIdle`). `rx/rx.c:3169-3180` stops
sending at the window; no packet is ever numbered beyond it (`RxStream.NumberedInsideWindow`). The
smoothing in `rx/rx.c:3724-3744` is said to be that of RFC 793; it has the form of section 2 of
RFC 6298. In `lib/roken/fnmatch.c:139-173` a `]` that comes first in a bracket closes it, and a
bracket that is never closed matches nothing, where POSIX takes both characters literally; the
language in `Fnmatch` is that of the code.

## Model

| member | source | states |
|---|---|---|
| RxTransport.InOrderExactlyOnce | rx/rx.c:1944-2170 | in every run over a losing, duplicating, reordering network the packets taken are numbers 1..rnext-1 as prepared, and the receive queue is sorted and inside the window |
| RxTransport.HardAckSafety | rx/rx.c:2339-2370 | in every run tfirst never passes the peer's rnext, and the transmit queue holds exactly the packets from tfirst on, so nothing is freed that the reader has not taken |
| RxTransport.WindowAgreementExact | rx/rx.c:2121-2126 | the EXCEEDS_WINDOW answer is unreachable in all runs if and only if the window admits the initial window of 2 |
| RxTransport.WindowTooSmall | rx/rx.c:2902-2910 | with a smaller window a run exists whose second packet is refused |
| RxTransport.AckVectorExact | rx/rx.c:3036-3041 | the acknowledgement vector has ACK at exactly the queued numbers and is no longer than the window |
| RxTransport.AckRoundTrip | rx/rx.c:2397-2440 | an acknowledgement delivered however late marks each remaining packet exactly as the receiver held it when the acknowledgement was built |
| RxTransport.NeverStuck | rx/rx.c:3112-3394 | from every reachable state with an outstanding packet at most four steps hand the reader its next one |
| RxTransport.ReceiveDataOk | rx/rx.c:1944-2170 | a packet is dropped, a duplicate, beyond the window or queued, each exactly under the stated condition, and queueing adds that packet alone |
| RxTransport.HardAckedExact | rx/rx.c:2339-2370 | a hard acknowledgement frees exactly the packets below it |
| RxTransport.ReceiveAckOk | rx/rx.c:2245-2554 | after an acknowledgement tfirst is the greater of the old one and firstPacket, the window does not shrink or pass its limit, and the queue stays the prepared packets in order |
| RxTransport.ReceiveAckWidens | rx/rx.c:2372-2380 | a client leaves a stale acknowledgement alone, and any other opens the window by one up to its limit |
| RxTransport.BurstExact | rx/rx.c:3156-3180 | a packet is sent exactly when it is unacknowledged, inside the window and due |
| RxTransport.RunInv | rx/rx.h:614-629 | every step of sender, receiver and network keeps the two-party invariant |
| RxDelivery.DeliveredArrives | rx/rx.c:1944-2170 | in every run a packet that comes in and is not dropped for want of buffers has arrived, in sequence or not |
| RxDelivery.DueGoesOut | rx/rx.c:3156-3180 | in every run each call of rxi_Start adds to the network exactly what is queued, unacknowledged, in the window and due |
| RxDelivery.WindowGrowsByOne | rx/rx.c:2372-2380 | in every run the transmit window is the initial one and one more for each acknowledgement accepted, up to its limit |
| RxDelivery.ReportedInTime | rx/rx.c:2176-2197 | in every run all that has arrived is in some acknowledgement sent but for SOFT_ACK_RATE packets, and one more at the end; a hard acknowledgement is at most half a window behind the reader |
| RxDelivery.AnsweredAtOnce | rx/rx.c:1944-2170 | in every run a packet that asks for it or has come before is acknowledged at once |
| RxDelivery.AnswersExactly | rx/rx.c:2176-2197 | in every run a packet or a read is answered at once if and only if the stated condition on the run so far holds |
| RxCall.Call.constructor | rx/rx.c:2887-2910 | a reset call starts in the initial state of the protocol |
| RxCall.Call.PreparePacket | rx/rx_pkt.c:1392-1435 | appends the packet with the next number to the transmit queue |
| RxCall.Call.Start | rx/rx.c:3156-3180 | the scan of the transmit queue sends what RxTransport.Start says |
| RxCall.Call.ReceiveAckPacket | rx/rx.c:2245-2554 | the in-place update is RxTransport.ReceiveAck, a client ignoring stale acknowledgements |
| RxCall.Call.ReleaseHardAcked | rx/rx.c:2339-2370 | frees the packets below the hard acknowledgement one at a time and moves tfirst after the last of them |
| RxCall.Call.MarkSoftAcked | rx/rx.c:2397-2440 | every index into the vector is in range, and packets are marked as it says |
| RxCall.Call.SendAck | rx/rx.c:2965-3101 | the vector written through an unsigned char offset is the exact acknowledgement, for windows of at most 255 |
| RxCall.Call.ReceiveDataPacket | rx/rx.c:1910-2200 | the in-place receive path is RxTransport.ReceiveData, whose effect is ReceiveDataOk and DeliveredArrives, and keeps the queue sorted and in the window |
| RxCall.Call.TakePacket | rx/rx_rdwr.c:57-137 | taking a packet is RxTransport.Take, with the acknowledgement after half a window |
| RxIovec.OverwriteData | rx/rx_rdwr.c:343-387 | copying into one buffer of a vector overwrites exactly that stretch of the packet's data |
| RxIovec.DataSplit | rx/rx_rdwr.c:182-222 | the data of a vector is the buffers before an index, the one at it, and the rest |
| RxWriter.Writer.Write | rx/rx_rdwr.c:241-408 | the bytes written are the old ones followed by those taken from the buffer, whatever the packet sizes and whichever buffer allocations fail; it takes less than all only when it has to sleep, for the window exactly when that is closed and for a packet when there is none; its moves extend the log, opening packets inside the window only |
| RxWriter.Writer.FlushWrite | rx/rx_rdwr.c:414-458 | ships what is pending as the last packet, adding and losing nothing, or sleeps for an empty packet with nothing changed; the caller is not asleep inside rx_Write |
| RxWriter.Writer.FillPacket | rx/rx_rdwr.c:343-387 | the copy loop moves a stretch of the buffer into the packet, crossing buffers, and stops before the end of it only when the packet cannot grow |
| RxWriter.Writer.AllocDataBuf | rx/rx_pkt.c:313-347 | adds whole buffers until the bytes fit, the vector is full or no buffer is free, returns what is missing, and leaves the data alone |
| RxWriter.Writer.OpenPacket | rx/rx_pkt.c:561-614 | a new packet has the cursor at its first byte and is as long as is wanted and allowed unless buffers are wanting; when no packet is free nothing changes |
| RxWriter.Writer.Extend | rx/rx_rdwr.c:370-387 | a full packet grows by what is to be written or all it may, never past rx_MaxUserDataSize, and stays full only if it is that long or buffers are wanting |
| RxWriter.Writer.ShippedFit | rx/rx_rdwr.c:370-387 | no packet handed over is longer than rx_MaxUserDataSize ever was |
| RxWriter.Trim | rx/rx_pkt.c:1419-1433 | the buffer vector is cut so that its data is exactly the first length bytes |
| RxWriter.Writer.Await | rx/rx_rdwr.c:291-312 | a packet is opened only when the next number but one is inside the window, and otherwise the writer sleeps with nothing changed |
| RxWriter.ReplayWritten | rx/rx_rdwr.c:275-402 | after any legal moves the bytes of the packets handed over and the pending ones are the bytes written |
| RxWriter.Writer.WrittenIsShipped | rx/rx_rdwr.c:275-402 | in every state of a writer the data of its shipped buffer vectors followed by the pending bytes is what was written |
| RxReader.Reader.Read | rx/rx_rdwr.c:27-238 | the bytes returned followed by the unread ones are the old unread ones, the count is short only when nothing is left, the number of packets taken is that told in advance, and the packets lost are exactly the empty ones that another followed |
| RxReader.Reader.TakePacket | rx/rx_rdwr.c:57-137 | the next packet becomes current, nothing unread changes, and an unfreed current packet is lost |
| RxReader.Reader.CopyOut | rx/rx_rdwr.c:182-222 | copies a prefix of the unread bytes of the packet out of its buffers |
| RxReader.LossExactly | rx/rx_rdwr.c:99-108 | from the length asked for, the bytes left and the packets in sequence: the read loses no packet if and only if it takes none, or no empty packet was kept before and none but the last it takes is empty |
| RxReader.TakesEnough | rx/rx_rdwr.c:50-229 | a read takes packets until they hold the bytes asked for, and no more than it needs |
| RxReader.LostExactly | rx/rx_rdwr.c:99-108 | over a whole call no packet is lost if and only if no empty one was followed by another |
| RxReader.EmptyPacketIsLost | rx/rx_rdwr.c:99-108 | an empty packet that is not last, followed by another, is lost |
| RxReader.Reader.ReadOffered | rx/rx_rdwr.c:57-137 | a read takes a prefix of the packets that are in sequence, all of them when it comes up short |
| RxStream.ReadsPrefix | rx/rx_rdwr.c:182-229 | in every run what is read is a prefix of what was written, and all of it once the last packet is consumed; packets carry bytes here, and RxSession has the buffers |
| RxStream.NumberedInsideWindow | rx/rx.c:3169-3180 | in every run each packet is numbered below tfirst plus twind |
| RxStream.CanComplete | rx/rx_rdwr.c:414-458 | from every reachable state, wherever the writer is, some continuation closes the stream and reads everything written |
| RxStream.WriterNeverStranded | rx/rx_rdwr.c:291-312 | in every run a writer waiting for a closed window can be let go on by steps of the network and the reader alone |
| RxStream.NextWithoutAck | rx/rx.c:3112-3394 | from every reachable state with a packet outstanding at most three steps, none of them an acknowledgement, hand the reader its next packet |
| RxStream.PlayInv | rx/rx_rdwr.c:275-402 | writer, transport and reader together keep the stream invariant in every run |
| RxSleepers.NoLostWakeup | rx/rx.c:2514-2522 | in every run RX_CALL_WAIT_WINDOW_ALLOC means a closed window and RX_CALL_READER_WAIT that the next packet in sequence is not there |
| RxSleepers.WokenInTime | rx/rx.c:2047-2056 | in every run a wake-up finds the window open, or the next packet there |
| RxSleepers.WriterWakes | rx/rx_rdwr.c:291-312 | from every reachable state a writer asleep can be woken with the window open |
| RxSleepers.ReaderWakes | rx/rx.c:2047-2056 | from every reachable state with a packet outstanding a reader asleep can be woken with that packet at the head of the queue |
| RxSleepers.Lifted | rx/rx_rdwr.c:139-163 | whatever the stream can do, it can do with processes that sleep and are woken by the flags |
| RxSleepers.AllCanComplete | rx/rx_rdwr.c:139-163 | from every reachable state, whoever is asleep, everything written can come to be read |
| RxSession.EndToEnd | rx/rx_rdwr.c:182-229 | in every run, for all buffer vectors that carry the packets handed over and taken, the bytes out are a prefix of the bytes in, all of them once the last packet is out, and no packet is lost |
| RxSession.SessionSafe | rx/rx_rdwr.c:27-238 | in every run what a reader has returned is a prefix of what its writer was given, and nothing is missing once the last packet is emptied |
| RxSession.LogFollows | rx/rx_rdwr.c:275-402 | in every run the replayed moves of the writer tell its stage, the packets prepared and the bytes written |
| RxSession.LogPlays | rx/rx_rdwr.c:291-312 | whatever legal moves a writer goes on to make, from every state of the stream a run makes the same moves |
| RxSession.MovePlays | rx/rx_rdwr.c:291-312 | a move of the writer is one action of the stream, after others only where it opens a packet and the window is closed |
| RxSession.WritesPlay | rx/rx_rdwr.c:291-312 | moves that open packets inside the window only are a run of the writer alone, which leaves the reader, what was taken and the window as they were |
| RxSession.Send | rx/rx_rdwr.c:241-408 | a call of rx_Write on the buffers is a stretch of the run with the same bytes, made of Write actions only, and it sleeps for the window exactly when the window of the run is closed |
| RxSession.Finish | rx/rx_rdwr.c:414-458 | rx_FlushWrite on the buffers closes the run with the same bytes by Write actions only, or sleeps for a packet with nothing changed |
| RxSession.ReadPlays | rx/rx_rdwr.c:57-229 | whatever rx_Read returns of the packets in sequence, taking and reading them in the stream returns too |
| RxSession.Receive | rx/rx_rdwr.c:27-238 | a call of rx_Read on the buffers is a stretch of the run and returns the next bytes of what the writer was given, all of them at the end of the call, and loses no packet |
| RxSession.Meanwhile | rx/rx.c:1910-2200 | a step of the network leaves the writer and the reader where they are in the run |
| RxDialogue.Dialogue.Send | rx/rx_rdwr.c:241-408 | rx_Write on the live transport keeps both ends in step with the run, and what it sleeps for is so |
| RxDialogue.Dialogue.Finish | rx/rx_rdwr.c:414-458 | rx_FlushWrite on the live transport keeps both ends in step with the run |
| RxDialogue.Dialogue.Receive | rx/rx_rdwr.c:27-238 | rx_Read on the live transport keeps both ends in step and returns the next bytes written |
| RxDialogue.Dialogue.Drive | rx/rx_rdwr.c:27-458 | every interleaving of the calls at both ends and the steps of the network is a run of the stream that the writer has written and the reader has read |
| RxDialogue.Talk | rx/rx_rdwr.c:27-458 | for every sequence of events from the start of a call all that was returned is a prefix of all that was accepted, and all of it once the last packet is used up, and no packet is lost |
| RxServer.AtMostOnce | rx/rx.c:1606-1659 | in every run the call numbers executed on a channel strictly increase, each came in a packet, and no call is with two processes |
| RxServer.HistoryIsKept | rx/rx.c:1164-1199 | freeing and reusing call structures never takes an executed call out of the history |
| RxServer.WorkConservation | rx/rx.c:799-835 | in every run no process is idle while a queued call's service is within quota, and the queue holds exactly the waiting calls |
| RxServer.CountersExact | rx/rx.c:947-951 | in every run minDeficit, availProcs, nWaiting and the running counts are what they count, and running never passes maxProcs |
| RxServer.MinProcsGuaranteed | rx/rx.h:311-318 | a call of a service below minProcs starts at once |
| RxServer.MaxProcsReachable | rx/rx.c:208-227 | with the start-up pool a service running alone starts every call below maxProcs at once |
| RxServer.QuotasInEveryRun | rx/rx.c:257-267 | both promises hold in every state of every run |
| RxServer.PoolCovers | rx/rx_user.c:103-125 | the pool of start-up leaves a lone service its maxProcs beside the other services' minProcs |
| RxServer.NeverWaitsWithIdle | rx/rx.c:2680-2715 | a call that could start is never one already queued |
| RxServer.StillConserving | rx/rx.c:947-978 | ending one call and starting the next never makes another queued call eligible |
| RxServer.FinishInv | rx/rx.c:815-858 | rx_EndCall with the rx_GetCall after it keeps the whole invariant |
| RxServer.RunInv | rx/rx.c:1606-1659 | every arrival, end, error, timeout and free keeps the invariant |
| RxArrivals.ArrivesExactly | rx/rx.c:1606-1659 | in every run a packet of an old call changes nothing, one of a newer call puts an active call in error, and any other finds or makes its call; a request that may start goes to the longest idle process at once, and one that may not is last in the queue |
| RxArrivals.StartsAtOnce | rx/rx.c:1881-1905 | in every run the request of a new call of a service below minProcs is executed at once |
| RxArrivals.RequestNotForgotten | rx/rx.c:2680-2715 | in every run from its arrival until its call is freed a request is executed, overtaken, in error or in the queue |
| RxArrivals.FinishesExactly | rx/rx.c:799-858 | in every run the process that ends a call takes the first queued one that fits the quotas, or is last of the idle |
| RxArrivals.FailedFinish | rx/rx.c:902-1006 | a process that ends its call with an error puts it in error first |
| RxArrivals.AuthenticatedExactly | rx/rx.c:2671-2723 | a valid response to a challenge starts or queues the call |
| RxArrivals.ExpiresExactly | rx/rx.c:1164-1199 | a freed call leaves the queue, and its number is passed exactly if it was executed |
| RxArrivals.FailsExactly | rx/rx.c:2866-2873 | a failed call leaves the queue, is in error and keeps its phase |
| RxArrivals.ActiveCanEnd | rx/rx.c:902-1006 | in every run an active call can be ended in two steps of its process |
| RxServerProcs.StartServerProcs | rx/rx_user.c:85-125 | the loop computes the sum of minProcs plus the greatest difference, less the processes there are |
| RxServerProcs.Server.AttachServerProc | rx/rx.c:2671-2723 | in place: start the call on an idle process, or queue it once |
| RxServerProcs.Server.GetCall | rx/rx.c:771-872 | the scan takes the first eligible call, or the process joins the idle queue |
| RxServerProcs.Server.EndCall | rx/rx.c:902-1006 | the call dallies and the counters are adjusted |
| RxServerProcs.Server.Finish | rx/rx.c:815-858 | rx_EndCall and the next rx_GetCall in place keep the whole invariant |
| RxServerProcs.Server.ResetCall | rx/rx.c:2887-2944 | a queued call leaves the queue with its count |
| RxServerProcs.Server.FreeCall | rx/rx.c:1164-1199 | a dallying call's number is passed before its structure is freed |
| RxServerProcs.Server.ReceivePacket | rx/rx.c:1606-1659 | in place, RxServer.Receive, whose effect is RxArrivals.ArrivesExactly; keeps the invariant |
| RxServerProcs.Server.CallError | rx/rx.c:2866-2873 | the call is reset, off the queue and in error, and its phase is kept |
| RxClock.ClockState.UpdateTime | rx/rx_clock.c:53-89 | for any system reading the clock stays normalised and strictly increases, by the reading or by one microsecond |
| RxClock.ClockState.Init | rx/rx_clock.c:39-50 | the clock starts at zero with the reading as offset |
| RxClock.ClockState.GetTime | rx/rx_clock.h:84-90 | the time changes only after clock_NewTime, and then increases |
| RxClock.StrictlyIncreasing | rx/rx_clock.c:53-89 | the times shown for any sequence of readings strictly increase |
| RxClock.KeepsPace | rx/rx_clock.c:53-89 | readings that increase are shown with their true differences |
| RxClock.Add | rx/rx_clock.h:124-132 | the normalised sum |
| RxClock.AddMsec | rx/rx_clock.h:136-145 | the loop ends in the normalised time that many milliseconds later |
| RxClock.Sub | rx/rx_clock.h:147-155 | the normalised difference, also when it is negative |
| RxClock.Ordered | rx/rx_clock.h:111-116 | on normalised values the comparison macros compare times |
| RxQueue.InsertAfter | rx/rx_queue.h:83-83 | linking an element after another splices it into the ring |
| RxQueue.Append | rx/rx_queue.h:101-101 | linking before the head puts the element last |
| RxQueue.Unlink | rx/rx_queue.h:90-90 | unlinking leaves the ring without the element |
| RxQueue.MoveAppend | rx/rx_queue.h:123-123 | the element leaves one ring and ends the other |
| Rings.JoinedLinked | rx/rx_queue.h:83-83 | a node linked in after another makes the ring the sequence with the node spliced in |
| Rings.SkipsLinked | rx/rx_queue.h:90-90 | neighbours linked past a node make the ring the sequence without it |
| RxEvent.FiredInOrder | rx/rx_event.c:183-215 | in every run no event fires early, and of two posted events the sooner, or of equal times the first posted, fires first |
| RxEvent.EventsConserved | rx/rx_event.c:72-215 | in every run each posted event is pending, cancelled or fired, exactly one of these and once |
| RxEvent.PostSorted | rx/rx_event.c:124-137 | posting keeps the queue sorted by time and then by order of posting |
| RxEvent.RaisesAllDue | rx/rx_event.c:183-215 | in every run the raising loop stops exactly when no pending event is due |
| RxEvent.OneMoves | rx/rx_event.c:152-215 | a step cancels or fires the one event it is for |
| RxEventQueue.EventQueue.Post | rx/rx_event.c:72-142 | the backward scan links the event after the last that is not later, tells the scheduler exactly when it is the earliest, and keeps the counts |
| RxEventQueue.EventQueue.FindSlot | rx/rx_event.c:130-135 | the scan stops at the place of the event's time |
| RxEventQueue.EventQueue.Allocate | rx/rx_event.c:91-110 | an empty free list is filled with one unit of new records |
| RxEventQueue.EventQueue.Cancel | rx/rx_event.c:152-174 | the event moves from the queue to the end of the free list, and the counts follow |
| RxEventQueue.EventQueue.TakeDue | rx/rx_event.c:183-215 | the first event is taken exactly when it is due; otherwise the wait returned is normalised, positive and exact |
| RxEventHandles.CancelsHitPending | rx/rx_event.h:86-92 | in every run every cancel made through a pointer hits an event on the queue at that moment |
| RxEventHandles.OneOwner | rx/rx.c:3362-3391 | in every run each pending event is named by exactly one pointer |
| RxEventHandles.FreedHasNoEvent | rx/rx.c:2942-2943 | in every run no pending event names a call on the free list or a connection that is gone |
| RxEventHandles.HandlerInv | rx/rx.c:3440-3535 | a handler, whose record is neither queued nor free, restores the invariant whatever course it takes, a call past its hard timeout included |
| RxEventHandles.StartKeeps | rx/rx.c:3362-3391 | rxi_Start keeps every pointer right; what it leaves pending is RxEventLedger.StepOwes |
| RxEventHandles.ResetKeeps | rx/rx.c:2887-2944 | a reset call has no event left |
| RxEventLedger.StepOwes | rx/rx.c:3362-3391 | field by field, each step sets, keeps or clears exactly the pointers it owes, and makes and frees the calls and connections it should |
| RxEventLedger.PendingExactly | rx/rx.c:3362-3391 | in every run an event is pending for a pointer if and only if the steps so far owe it one |
| RxEventLedger.ResendNotForgotten | rx/rx.c:3391-3394 | in every run after a start that leaves packets to be sent again the resend event is pending until it fires, the queue is cleared, the call is reset or rxi_Start runs again |
| RxEventLedger.StartAnew | rx/rx.c:3362-3394 | a resend event that is not soon enough is cancelled and posted anew |
| RxEventLedger.DelayAckAnew | rx/rx.c:2024-2032 | a delayed acknowledgement that is set again is cancelled and posted anew |
| RxEventLedger.ChallengeAnew | rx/rx.c:2557-2593 | a challenge that is set again is cancelled and posted anew |
| RxEventLedger.NoRecordLost | rx/rx_event.c:183-215 | in every run each record is free or pending between the steps |
| RxPacketPool.QuotasExact | rx/rx_globs.h:172-180 | quotas never lead to a panic in any run of any pool if and only if the special quota is below the receive and the send quota |
| RxPacketPool.PoolNeverPanics | rx/rx_user.c:338-400 | with the quotas 1, 10 and 0 the listener starts on two packets, and no special or listener allocation ever fails |
| RxPacketPool.StepInv | rx/rx.c:1936-1942 | while the listener holds its packet the least quota stays free, and packets are conserved |
| RxPacketPool.StepExactly | rx/rx.c:1936-1942 | each step moves exactly the packet it should between the pool and the calls |
| RxPacketPool.PanicsExactly | rx/rx_pkt.c:516-552 | for any quotas a step panics if and only if it asks for a special packet when no more than that quota are free |
| RxPacketPool.Pool.AllocPacket | rx/rx_pkt.c:516-552 | refuses exactly when fewer than the quota would stay free, and never finds the queue empty |
| RxPacketPool.Pool.FreePacket | rx/rx_pkt.c:486-506 | the packet ends the free queue and is counted |
| RxPacketPool.Pool.MorePackets | rx/rx_pkt.c:414-442 | the new packets follow the old ones on the free queue |
| RxRto.TimeoutBounded | rx/rx.c:2208-2241 | after any samples and dubious timeouts srtt and mdev are below 111 s and the timeout is between 100 ms and 555.1 s |
| RxRto.Peer.ComputeRoundTripTime | rx/rx.c:3678-3760 | a sample is taken exactly when it is not negative and below 111 s, and the new estimate and timeout are the smoothed ones, without overflowing 32 bits |
| RxRto.Peer.DubiousTimeout | rx/rx.c:2227-2241 | doubles the deviation up to the round trip time |
| RxRto.Peer.UpdateTimeout | rx/rx.c:2208-2225 | the clock value is normalised and stands for the timeout; the minimum of 1 ms is never needed |
| RxRto.Converges | rx/rx.c:3724-3730 | the same round trip again and again brings srtt to within eight microseconds of it for good |
| RxRto.RestsExactly | rx/rx.c:3730-3730 | srtt stays the same if and only if the sample is at most seven microseconds above it |
| RxRto.TowardsSample | rx/rx.c:3714-3744 | srtt and mdev move towards the sample and its error, never past them |
| RxRto.DoubledTimeout | rx/rx.c:2227-2241 | a dubious timeout never shortens the timeout and keeps it within five round trips |
| RxRto.DoubledGain | rx/rx.c:2227-2241 | a dubious timeout adds four times what the deviation gains |
| RxRto.FirstTimeout | rx/rx.c:3744-3760 | the first sample makes the timeout three round trips and 100 ms |
| RxRto.DeviationRestsExactly | rx/rx.c:3714-3744 | mdev stays the same if and only if the error is at most three microseconds above it |
| RxRto.TimeoutSettles | rx/rx.c:2208-2225 | the same round trip again and again brings the timeout to within 21 microseconds of it and 100 ms, for good |
| RxPeers.TablesInEveryRun | rx/rx.c:1235-1427 | in every run the hash table is a map from address to one peer, each peer counts and lists exactly its connections, each once, and the connection table finds a connection exactly when there is one |
| RxPeers.TableIsMap | rx/rx.c:1235-1265 | the chain search finds a peer if and only if it has that address |
| RxPeers.ChainIsSet | rx/rx.c:1374-1384 | the search of one chain, for any channel of a connection, finds one if and only if there is one |
| RxPeers.ChangePeerInv | rx/rx.c:1342-1349 | a change of address moves all connections of the peer, merging with the peer already there, and loses none |
| RxPeers.ArriveInv | rx/rx.c:1365-1427 | the connection found or made for a packet has its name and its peer its address; there is none, and nothing changes, exactly when none matches and none may be made |
| RxPeers.NewConnectionInv | rx/rx.c:311-334 | a new connection has the name and address it was made for |
| RxPeers.DestroyConnectionInv | rx/rx.c:414-439 | a destroyed connection leaves its chain and its peer's queue and count |
| RxPeers.DestroyPeerInv | rx/rx.c:1290-1297 | a peer without references has an empty connection queue, as the assert demands |
| RxPeerViews.ArriveExactly | rx/rx.c:1365-1427 | a packet goes to the connection it names, whose peer takes its address with all its connections; only when there is none, and it may be, is one made |
| RxPeerViews.ConnectExactly | rx/rx.c:311-334 | a new connection is one more with its name and address, and no peer is made for an address that has one |
| RxPeerViews.DestroyExactly | rx/rx.c:414-439 | a destroyed connection is gone and all others are as they were |
| RxPeerViews.ReapExactly | rx/rx.c:1290-1297 | a reaped peer is gone and all connections are as they were |
| RxPeerViews.QueuesInOrder | rx/rx.c:1321-1327 | connections join a peer at the end of its queue, in their order |
| RxPeerViews.ChannelsShare | rx/rx.c:1365-1384 | the four channels of a connection and no others have its id |
| RxPeerOps.PeerTable.FindPeerFor | rx/rx.c:1235-1265 | the walk and the insertion are FindPeer |
| RxPeerOps.PeerTable.HandOver | rx/rx.c:1321-1327 | the scan hands every connection over in order and empties the queue |
| RxPeerOps.PeerTable.Readdress | rx/rx.c:1342-1349 | remove, rename and insert or merge are ChangePeer |
| RxPeerOps.PeerTable.Disconnect | rx/rx.c:414-439 | unhooks the connection from its chain and its peer |
| RxPeerOps.PeerTable.Reap | rx/rx.c:1290-1297 | removes a peer whose queue is proved empty |
| LwpLock.LockSafety | lwp/lock.c:59-131 | in every run of at most 256 threads writers exclude all holders, shared holders exclude exclusive ones, the wait bits are exact and no wake-up is lost |
| LwpLock.SafeExactly | lwp/lock.h:59-65 | exclusion holds in all runs of n threads if and only if n is at most 256 |
| LwpLock.ReadersOverflow | lwp/lock.h:228-238 | with more threads a run gives the write lock beside 256 readers |
| LwpLock.NobodyStranded | lwp/lock.c:106-131 | from every reachable state releases and retries alone bring the lock back to its initial state |
| LwpLock.RunInv | lwp/lock.h:228-276 | every obtain, retry, release and unboost keeps the invariant |
| LwpPreference.ObtainedExactly | lwp/lock.h:228-253 | in every run an obtain is granted at once if and only if the other threads allow it, a newcomer yielding to sleepers unless it wants to write |
| LwpPreference.RetriedExactly | lwp/lock.c:59-103 | in every run a woken thread gets the lock if and only if the holders allow it, and sleeps again if not |
| LwpPreference.ExclusivePrefersReaders | lwp/lock.c:106-117 | in every run giving up or reducing an exclusive lock wakes all sleeping readers and nobody else, and if there are none all other sleepers |
| LwpPreference.ReadersPreferExclusive | lwp/lock.c:120-131 | in every run the last reader to leave wakes all exclusive sleepers and no reader, and if there are none the readers; others wake nobody |
| LwpLockOps.LockOps.ObtainLock | lwp/lock.h:228-253 | the macros and the first part of Lock_Obtain are the obtain step |
| LwpLockOps.LockOps.Resume | lwp/lock.c:59-103 | the rest of the wait loop is the retry step |
| LwpLockOps.LockOps.Signal | lwp/plwp.c:1070-1109 | wakes exactly the sleepers on one address |
| LwpLockOps.LockOps.LockReleaseR | lwp/lock.c:106-117 | in place, the release that prefers waiting readers, as LwpPreference.ExclusivePrefersReaders tells of the threads |
| LwpLockOps.LockOps.LockReleaseW | lwp/lock.c:120-131 | in place, the release that prefers waiting writers, as LwpPreference.ReadersPreferExclusive tells of the threads |
| LwpLockOps.LockOps.ReleaseReadLock | lwp/lock.h:262-264 | the last reader wakes a waiter |
| LwpLockOps.LockOps.ReleaseExclusiveLock | lwp/lock.h:267-276 | giving up the write or shared lock wakes a waiter |
| LwpLockOps.LockOps.UnboostSharedLock | lwp/lock.h:255-260 | a write lock becomes a shared one and wakes a waiter |
| LwpScheduler.NeverEmptyHead | lwp/plwp.c:938-994 | no step of any run takes the head of an empty queue |
| LwpScheduler.ExactlyOnePlace | lwp/plwp.c:485-543 | in every run each process is running, runnable at its own priority, blocked or q-waiting, exactly one of these and once |
| LwpScheduler.CachedPriorityExact | lwp/plwp.c:1111-1135 | in every run Highest_runnable_priority is the greatest among the ready processes |
| LwpScheduler.BestRuns | lwp/plwp.c:959-986 | every step that may hand over the processor leaves a process of maximal priority running |
| LwpScheduler.FirstInFirstOut | lwp/plwp.c:241-280 | in every run a process queued behind another of its priority runs only after it |
| LwpScheduler.WaitExact | lwp/plwp.c:1083-1106 | of one process and a list of signals: it is made ready exactly once m of its entries have been signalled |
| LwpWaiting.WokenExactly | lwp/plwp.c:790-864 | in every run after a wait for m events the process sleeps all along if and only if the signals since cover fewer than m of its entries |
| LwpWaiting.WakesAtOnce | lwp/plwp.c:1070-1109 | in every run the step that makes a sleeper ready is the signal with which m of its entries are covered |
| LwpWaiting.ToldWhich | lwp/plwp.c:1083-1106 | the process made ready is told an entry with the event signalled |
| LwpWaiting.QWokenExactly | lwp/plwp.c:485-543 | in every run after LWP_QWait a process is q-waiting all along if and only if no LWP_QSignal named it since |
| LwpWaiting.QWakesAtOnce | lwp/plwp.c:521-543 | at that signal it is ready and last in the run queue of its priority, and nobody else is moved |
| LwpWaiting.QSignalNotKept | lwp/plwp.c:521-543 | a signal for a process that is not q-waiting changes nothing |
| LwpTurns.GivesTurn | lwp/plwp.c:938-994 | in every run a dispatch gives way exactly when another of the same priority or above is queued; the first of the best runs and the caller is last among its equals |
| LwpTurns.WaitingLeaves | lwp/plwp.c:790-864 | in every run a wait leaves the processor to the first of the best and changes its caller alone |
| LwpTurns.BadWaitDispatches | lwp/plwp.c:790-825 | a wait that is an error only offers the processor |
| LwpTurns.CreatedReady | lwp/plwp.c:547-650 | in every run a new process is ready at its priority behind its equals, and runs exactly when it is the first of the best |
| LwpTurns.SignalTurns | lwp/plwp.c:772-787 | in every run a signal that yields is the signal that does not, followed by an offer of the processor |
| LwpScheduler.QWaitNeedsAnother | lwp/plwp.c:485-517 | giving the processor up works if and only if some other process is ready |
| LwpScheduler.AloneCannotWait | lwp/plwp.c:485-517 | in the state after initialisation, alone, the first process cannot give the processor up |
| LwpScheduler.WaitForNothing | lwp/plwp.c:826-842 | a wait, which always finds the IO manager to run, leaves its caller in exactly one place if and only if it is for at least one event |
| LwpScheduler.LostByWaiting | lwp/plwp.c:826-842 | in a reachable state a wait for none of its events leaves the caller in no queue at all |
| LwpScheduler.StepInv | lwp/plwp.c:772-864 | every step keeps the invariant |
| LwpSchedulerOps.Scheduler.CalHighest | lwp/plwp.c:1111-1135 | the downward scan finds the highest queue that is not empty |
| LwpSchedulerOps.Scheduler.Dispatch | lwp/plwp.c:938-994 | in place, the dispatch step |
| LwpSchedulerOps.Scheduler.MwaitProcess | lwp/plwp.c:790-864 | in place, the wait step with its error paths |
| LwpSchedulerOps.Scheduler.QWaitProcess | lwp/plwp.c:485-517 | in place, the q-wait step |
| LwpSchedulerOps.Scheduler.QSignalProcess | lwp/plwp.c:521-543 | in place, the q-signal step, whose effect is LwpWaiting.QWakesAtOnce |
| LwpSchedulerOps.Scheduler.StrikeEvents | lwp/plwp.c:1083-1106 | the inner loop strikes entries until the count is used up |
| LwpSchedulerOps.Scheduler.InternalSignal | lwp/plwp.c:1070-1109 | the outer loop signals exactly the processes blocked when it began |
| LwpSchedulerOps.Scheduler.SignalProcess | lwp/plwp.c:772-787 | the signal step, with or without handing over |
| LwpSchedulerOps.Scheduler.CreateProcess | lwp/plwp.c:547-650 | the queueing part of creation and its error path |
| LwpQueue.Queue.Insert | lwp/plwp.c:259-273 | the circular list gets the process at its tail |
| LwpQueue.Queue.Remove | lwp/plwp.c:241-257 | the circular list loses the process, the head moving on when it was first |
| LwpQueue.Walk | lwp/plwp.c:115-124 | the walk that moves the current process to other queues visits every process once and keeps all orders |
| Fnmatch.Match | lib/roken/fnmatch.c:59-137 | terminates and returns 0 if and only if the string is in the language of the pattern, reading nothing past either terminator |
| Fnmatch.RangeMatch | lib/roken/fnmatch.c:139-173 | returns the end of the bracket if and only if it is closed and admits the character |
| Fnmatch.TryRest | lib/roken/fnmatch.c:104-112 | trying the rest at each place up to the next slash decides the star |
| Fnmatch.StarSlash | lib/roken/fnmatch.c:98-102 | a star before a slash leads to the next slash or nowhere |
| Fnmatch.StarEnd | lib/roken/fnmatch.c:91-97 | a star at the end takes all the rest, unless a slash forbids it |
| Fnmatch.StarStar | lib/roken/fnmatch.c:81-84 | two stars are one |
| Fnmatch.QuotedMatchesItself | lib/roken/fnmatch.c:123-134 | a text with every character quoted matches itself and nothing else |
| FnmatchSyntax.RoundTrip | lib/roken/fnmatch.c:59-173 | every pattern without an unclosed bracket can be written, with either mark of negation, and is read back |
| FnmatchSyntax.PlainMatchesItself | lib/roken/fnmatch.c:123-134 | with FNM_NOESCAPE a text without special characters matches itself and nothing else |

## Left out

- Sockets, ICMP, interface discovery, tracing, statistics and rxdebug: input and output only; the network is a set of packets.
- Security classes: null security is assumed, and authentication is a choice in the labels.
- Congestion bursts, ACKALL packets and the implicit acknowledgement by reply data.
- The error paths of rx_Read and rx_Write after a call error, and packet conservation on them.
- Timers in the transport: which packets are due for retransmission is a parameter of a step.
- Calls that arrive while the server processes are still being created.
- Wrap-around of 32-bit sequence, serial and call numbers.
- _ObtainTwoLocks: takes its second lock only when it would not sleep, which its test says outright.
- LWP_DestroyProcess, preemption by signals, and lwp/timer.c.
- Handlers inside rxevent_RaiseEvents: RxEventQueue has the turns of the loop, and RxEvent lets handlers post and cancel freely between them.
- Update in place of the pointer fields in RxEventHandles: the owners are modelled on values.
- The heap structure of hash chains in RxPeers: chains are sequences.
- FNM_PERIOD: the recursion in fnmatch drops the flag, so leading periods have no one meaning.
- editline, afstool, glob, user interface code and tables: they would add only easy members.
- Fnmatch.Match: covers the flags FNM_NOESCAPE and FNM_PATHNAME.
- RxCall.Call.SendAck: is for windows of at most 255 packets, the range of the vector and its offset.
- RxTransport.NeverStuck: counts an acknowledgement among its steps, since at this level packets may be numbered beyond the window; RxStream.NextWithoutAck needs none.
- RxCall.Call.Start: has no retry times, backoff or acknowledgement requests; which packets are due is a parameter.
- RxEventQueue.EventQueue.TakeDue: leaves out the handler's call and the return of the record after it, which is EventQueue.AddFree.
