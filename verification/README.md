# Verification of the receiver and its host tools

A Dafny model of the parts of the receiver firmware and of its host scripts whose correctness is an
argument rather than a reading: protocols between threads, between devices, and between what a counter
shows and what happened. Each part has a specification in terms of what happened (positions, streams,
histories of steps), a model of what the code does, and theorems over all inputs or all runs. Code that
updates arrays and fields in place is modelled that way and proved equal to its specification.

| part | files |
|---|---|
| recorded samples put back in order | `ReorderSpec.dfy` (specification), `Reorder.dfy` (the class) |
| lock-free ring of HID records | `HidRing.dfy` (every interleaving of atomic steps), `HidRingWrap.dfy` (why delay is bounded) |
| tracker updates over the air | `OtaRelay.dfy` (what trackers receive), `OtaCommands.dfy` (commands and aborts), `OtaWindow.dfy` (the sender's window), `OtaDevice.dfy` (relay arrays and host sender) |
| receiver self-update | `ReceiverOta.dfy` (two threads), `FlashCopy.dfy` (geometry and copier), `SelfUpdate.dfy` (end to end) |
| data collection over CDC | `CdcFraming.dfy` (frames and parser), `DataCollect.dfy` (byte ring) |
| tracker events | `TrackerEvents.dfy`, `TrackerDeliveries.dfy` (what the host is told), `TrackerPower.dfy` and `TrackerPowerLimits.dfy` (power notices), `TrackerCache.dfy` (in place) |
| raw-data retransmission | `RawArq.dfy` |
| loss evidence and loss ladder | `LossEvidence.dfy`, `LossLadder.dfy` |
| time-division layout | `TdmaWidth.dfy`, `Tdma.dfy`, `TdmaPublication.dfy` (when a layout goes out), `TdmaScheduler.dfy` (in place) |
| shared | `Wrappers.dfy`, `SerialNumbers.dfy` |
| automatic channel choice | `AutoPolicy.dfy`; `AutoSurvey.dfy` and `AutoSweep.dfy` (in place); `AutoLoss.dfy` and `AutoLossRing.dfy` (in place); `AutoDiagnosis.dfy`, `AutoTrial.dfy` (where a trial comes from) and `AutoWorker.dfy` (in place) |

`dafny verify dfyconfig.toml` checks everything.

## Assumptions

- Atomic operations of the HID ring are sequentially consistent, as on the single-core target, and no
  producer stays suspended between its load and its compare-and-swap for 2^32 claims
  (`HidRingWrap.FullWrapWouldOverrun` shows why).
- Regions under the interrupt lock, a spin lock or a mutex are single steps. In the self-update the writer's
  erase and each programmed byte are separate steps.
- Expanded event order, loss counters and, in the time-division and diagnosis parts, times do not wrap.
  Sequence numbers wrap as on the wire, and event times are compared modulo 2^32.
- In the theorems about spacing and silence the clock does not run backwards.
- CRC-32 is an arbitrary function of the bytes; the CRC-8 is modelled bit by bit. The firmware calls its
  operating system's CRC-8, taken to compute the same function.
- The 64-bit window bitmap is a sequence of 64 bits, masks are sets of tracker numbers or per-tracker flags,
  and the priority queue of the reorder buffer is its sorted content.
- Random numbers, readings, snapshots and clocks are inputs.

## Where code and comments differ

- The sender's in-flight limit is the ring size less 16, which is 112; a comment in `scripts/esb_ota.py` says 111.
- The comment above the raw retransmission code gives 1..4 requests per acknowledgement; the code sends up to 8.
- The relay can hand out a chunk of another image in two ways: one of the first 128 chunks of a session is lost
  before it reaches the relay while an earlier session's chunk is still stored under its number
  (`OtaRelay.LostChunkServesOldSession`); or a tracker already in the session is begun again with a new image,
  which keeps head and ring (`OtaRelay.ReBeginServesOldImage`). `OtaRelay.FaithfulIff` gives the exact condition
  over whole runs. A sender meets it by sending in order without such a loss and by announcing one image per
  session, or a new one only before its first chunk (`OtaRelay.InOrderIsHarmless`).
- The comments at `src/tracker_events.c:206-207` and `271-272` promise that the power watermark survives a re-anchor
  and progress beyond half the sequence space. It does so exactly while every accepted event is less than 2^15 numbers
  from the last applied notice at a re-anchor, and from the newest event otherwise (`TrackerPower.AppliedRunIff`).
  Beyond that an older notice can win (`TrackerPowerLimits.DistantNoticeWins`, `TrackerPowerLimits.DelayedNoticeWins`)
  and a newer one can be ignored (`TrackerPowerLimits.NewerNoticeIgnored`).
- A tracker that does not answer its BEGIN is skipped by the host but stays a target of the relay, which then refuses
  chunk 128 and everything after it (`OtaWindow.SkippedTargetBlocks`).
- The gap-fill of `scripts/esb_ota.py:906-919` announces a resend, but it runs only with nothing in flight, when the
  number it resumes from is the one it would have sent next anyway; no chunk is sent a second time.
- Frames with a payload over 250 bytes are written with a wrapped length byte and are never recovered
  (`CdcFraming.RecoveredIff`).

## Model

| member | source | states |
|---|---|---|
| `ReorderSpec.RunSound` | scripts/data_collect_reorder.py:52-96 | after any operations every epoch is well formed: it starts at a received position, its high-water mark is the greatest one, and at most one sample is held per position |
| `ReorderSpec.PositionsEnumerate` | scripts/data_collect_reorder.py:27-50 | an epoch's emission order lists every received position exactly once, strictly ascending |
| `ReorderSpec.WholeEpochCount` | scripts/data_collect_reorder.py:27-39 | in each epoch emitted samples plus positions that never arrived equal last minus first plus one, and the latter are the counted gaps |
| `ReorderSpec.EmittedInsert` | scripts/data_collect_reorder.py:61-65 | a late sample is spliced into its sorted place and moves nothing else |
| `ReorderSpec.StepOutput` | scripts/data_collect_reorder.py:67-100 | one operation adds to the final output exactly the emission it is owed |
| `ReorderSpec.ExactlyOnce` | scripts/data_collect_reorder.py:27-100 | over every sequence of pushes and flushes each accepted sample leaves exactly once, with its boundary mark, and nothing else does |
| `ReorderSpec.WindowAlwaysRepairs` | scripts/data_collect_reorder.py:76-96 | without a flush in between, an unseen position inside the window is always repaired without a new epoch |
| `ReorderSpec.PushesAreAccountedFor` | scripts/data_collect_reorder.py:67-96 | every push is in the output or repeats a sample that is, and the retransmissions counted are those repetitions plus the samples that filled a position behind the newest |
| `Reorder.ForwardGap` | scripts/data_collect_reorder.py:29-34 | two consecutive emissions of one epoch are never more than MAX_FORWARD_GAP apart, so that branch never fires |
| `Reorder.RingExact` | scripts/data_collect_reorder.py:76-90 | the 201-slot ring answers exactly which positions of the window were received and with which payload |
| `Reorder.RingAnswers` | scripts/data_collect_reorder.py:76-90 | the tests made on ring and cursor agree with the whole epoch's history |
| `Reorder.Placeable` | scripts/data_collect_reorder.py:86-96 | behind the cursor and inside the window nothing unseen is left unless a flush committed it |
| `Reorder.PendingBound` | scripts/data_collect_reorder.py:41-50 | at most 200 samples wait after a push |
| `Reorder.SampleReorder.Emit` | scripts/data_collect_reorder.py:27-39 | appends the emission and its gap to the specified output |
| `Reorder.SampleReorder.Drain` | scripts/data_collect_reorder.py:41-50 | terminates, and leaves the drained state of the specification |
| `Reorder.SampleReorder.Insert` | scripts/data_collect_reorder.py:61-65 | queue, map, ring and marks after an insertion |
| `Reorder.SampleReorder.Start` | scripts/data_collect_reorder.py:52-59 | a new epoch of the specification |
| `Reorder.SampleReorder.Judge` | scripts/data_collect_reorder.py:76-90 | decides duplicate, conflict, window and epoch exactly as the full history would |
| `Reorder.SampleReorder.Push` | scripts/data_collect_reorder.py:67-96 | refines one step of the specification and returns false exactly for a duplicate |
| `Reorder.SampleReorder.Finish` | scripts/data_collect_reorder.py:98-100 | writes everything the specification owes |
| `Reorder.Record` | scripts/data_collect_reorder.py:27-100 | a whole recording writes exactly the specified emissions, gap, boundary and retransmission counts |
| `HidRing.InvStep` | src/hid.c:81-141 | every atomic step of every producer and of the sender keeps the ring invariant |
| `HidRing.ReachableInv` | src/hid.c:56-149 | the invariant holds in every state of every interleaving |
| `HidRing.AcceptedAreTheWinners` | src/hid.c:81-111 | the accepted records are those of the won compare-and-swaps, in the order they were won |
| `HidRing.FifoDelivery` | src/hid.c:114-141 | consumed records are the accepted pushes, once each, in ticket order and uncorrupted; a peeked batch is the next stretch of that order |
| `HidRing.ConsumedWasSubmitted` | src/hid.c:336-395 | in every interleaving what leaves the ring was in a submission that succeeded: consumed records are a prefix of the submitted ones, equal to them whenever no batch is being consumed, and the submitted ones are a prefix of the accepted pushes |
| `HidRing.FailureKeepsRecords` | src/hid.c:371-384 | a failed submission changes nothing but the sender's place, and nothing is consumed before the next submission that succeeds |
| `HidRing.PeekTakesWhatIsPublished` | src/hid.c:114-130 | the sender takes the next record exactly when it is claimed and published |
| `HidRing.PushKeepsItsCall` | src/hid.c:81-111 | through all retries a push works on the record and the priority it was called with |
| `HidRing.PushEndsForCause` | src/hid.c:81-111 | a push ends only by publishing its record or by finding no room; losing the race makes it retry |
| `HidRing.NeverOverwrites` | src/hid.c:81-111 | no producer touches an unconsumed or peeked slot |
| `HidRing.ReserveKept` | src/hid.c:81-111 | an accepted ordinary record leaves at least two free slots |
| `HidRing.RejectionMeansFull` | src/hid.c:81-111 | a rejected push with no claim between its loads met a ring without room |
| `HidRing.StampMeansReady` | src/hid.c:114-130 | a matching sequence stamp means claimed, published and intact |
| `HidRing.CasComparesTickets` | src/hid.c:81-111 | within the admitted delay comparing 32-bit words compares tickets |
| `HidRingWrap.FullWrapWouldOverrun` | src/hid.c:81-111 | a run that ends with a producer suspended across exactly 2^32 claims, on a full ring, with the word it compares come round again, so the delay bound is needed |
| `OtaRelay.SessionInvariant` | src/esb_ota.c:262-298 | target_ids is the participating set without repetition, and a session is active iff it is nonempty, after every event |
| `OtaRelay.WithoutSpec` | src/esb_ota.c:279-298 | removing a target keeps all others in order |
| `OtaRelay.SeqMinBounds` | src/esb_ota.c:188-204 | the ring minimum is the least sequence number any target still wants |
| `OtaRelay.DropNeedsWrittenRing` | src/esb_ota.c:534-582 | nothing is refused for a full ring before the session has rewritten every slot |
| `OtaRelay.StoreKeepsCoherent` | src/esb_ota.c:534-582 | storing a chunk keeps every reachable slot a chunk of the open session |
| `OtaRelay.StreamedCoherent` | src/esb_ota.c:419-582 | with in-order streaming every exposed slot was written in the open session, over every run |
| `OtaRelay.HarmlessIff` | src/esb_ota.c:419-582 | a step from a ring that only hands out chunks of the announced image leads to such a ring iff it passes over no number with another chunk waiting under it and no BEGIN changes a chunk the ring holds |
| `OtaRelay.FaithfulIff` | src/esb_ota.c:419-762 | over any run, with chunks lost, repeated or reordered at will, the ring has handed out only chunks of the image announced last iff every step was harmless |
| `OtaRelay.DataIsTheSessionChunk` | src/esb_ota.c:720-757 | then a DATA acknowledgement for sequence n carries chunk n of that image, whatever was lost or dropped before |
| `OtaRelay.InOrderIsHarmless` | src/esb_ota.c:534-582 | in-order arrival of the first 128 chunks and one image per session, which the sender can see to, make every step harmless |
| `OtaRelay.StreamedDataIsRight` | src/esb_ota.c:720-757 | so with in-order streaming every DATA acknowledgement carries the chunk asked for |
| `OtaRelay.LostChunkServesOldSession` | src/esb_ota.c:720-757 | from any idle relay a run of six steps, two sessions with the second one's first chunk lost, in which a tracker is handed the first session's chunk |
| `OtaRelay.ReBeginServesOldImage` | src/esb_ota.c:489-500 | from any idle relay a run of four steps, a tracker already in the session begun again with another image, in which it is handed the old image's chunk |
| `OtaCommands.CommandWasAsked` | src/esb_ota.c:584-613 | over every run a VERIFY on the air goes back to a VERIFY request, an ACTIVATE to an ACTIVATE request and a BEGIN to an admitted BEGIN for that tracker, at most ten seconds old, in the same session, with no later request, BEGIN, abort or confirming report in between |
| `OtaCommands.CommandRepeats` | src/esb_ota.c:674-718 | after such a request every poll within ten seconds is answered with exactly that command until an input ends it, except that a held chunk goes before VERIFY and ACTIVATE; after ten seconds it is dropped |
| `OtaCommands.BeginOpensIff` | src/esb_ota.c:419-532 | which BEGINs are admitted, exactly; a refused one changes nothing, an admitted one adds its tracker and leaves the others alone |
| `OtaCommands.AbortRepeats` | src/esb_ota.c:633-665 | an aborted tracker is told so on every poll for ten seconds and then gets nothing, until it is begun, forgotten or aborted again |
| `OtaCommands.ChunkIsStored` | src/esb_ota.c:534-582 | a chunk accepted into the ring can be handed out at once, with at most sixty bytes, and no other slot changes |
| `OtaCommands.FinalReportLeaves` | src/esb_ota.c:784-836 | a report ends its tracker's part in the session exactly for the eight final statuses, and touches nobody else |
| `OtaCommands.GoneHearsNothing` | src/esb_ota.c:300-319 | a tracker that was forgotten or has finished gets no answer until it is begun again or aborted |
| `OtaWindow.WindowNeverFull` | scripts/esb_ota.py:783-848 | inside the sender's window no chunk meets a full ring |
| `OtaWindow.SendKeepsWindow` | scripts/esb_ota.py:783-848 | sending a chunk the window allows keeps the window |
| `OtaWindow.PollKeepsWindow` | src/esb_ota.c:633-762 | a tracker's poll keeps the window |
| `OtaWindow.BeginKeepsWindow` | src/esb_ota.c:480-510 | the first BEGIN opens the window, and every BEGIN before the first chunk keeps it |
| `OtaWindow.NotedStays` | src/esb_ota.c:735-737 | the relay is never behind a STATUS packet it took note of |
| `OtaWindow.HearKeepsView` | src/esb_ota.c:776-874 | a status the PC hears of, for a packet the relay answered with no command pending, never takes its view back or ahead of the relay's |
| `OtaWindow.StatusKeepsWindow` | scripts/esb_ota.py:803-816 | hearing of progress the relay already knows of keeps the window |
| `OtaWindow.OthersKeepWindow` | src/esb_ota.c:279-385 | departures and queued commands keep the window of the rest |
| `OtaWindow.WindowServesEveryTarget` | src/esb_ota.c:720-757 | every chunk between a target's next sequence number and the head is still there and is what it gets, however often the answer is lost |
| `OtaWindow.SessionNeverDrops` | scripts/esb_ota.py:783-848 | over a whole session, from before its first BEGIN, with the same targets on both sides, nothing is refused for a full ring and nothing still needed is overwritten |
| `OtaWindow.RingFullIff` | src/esb_ota.c:188-204 | a chunk is refused for a full ring exactly when some target of the relay is 128 chunks or more behind |
| `OtaWindow.SkippedTargetBlocks` | scripts/esb_ota.py:752-768 | a run in which the host goes on without a tracker that did not answer its BEGIN, the relay keeps it, and chunk 128 is refused although every tracker the host waits for is up to date |
| `OtaDevice.Device.RingSeqMin` | src/esb_ota.c:188-204 | the loop computes that minimum |
| `OtaDevice.Device.RemoveTarget` | src/esb_ota.c:279-298 | in-place removal equals the specified one |
| `OtaDevice.Device.ResetSession` | src/esb_ota.c:262-276 | in-place reset equals the specified one |
| `OtaDevice.Device.ProcessBegin` | src/esb_ota.c:419-532 | BEGIN on the arrays equals the specified event |
| `OtaDevice.Device.ProcessData` | src/esb_ota.c:534-582 | DATA on the arrays equals the specified event |
| `OtaDevice.Device.FillAck` | src/esb_ota.c:633-762 | the acknowledgement and the state change equal the specified ones |
| `OtaDevice.Device.ProcessStatus` | src/esb_ota.c:776-874 | STATUS on the arrays equals the specified event |
| `OtaDevice.Device.CancelTarget` | src/esb_ota.c:341-359 | cancelling one target equals the specified event |
| `OtaDevice.Device.CancelAll` | src/esb_ota.c:361-385 | cancelling a session equals the specified event |
| `OtaDevice.Device.Queue` | src/esb_ota.c:584-613 | VERIFY and ACTIVATE are queued for participating targets only, each as itself (`OtaCommands.CommandWasAsked`, `OtaCommands.CommandRepeats`) |
| `OtaDevice.Device.ForgetTracker` | src/esb_ota.c:300-319 | a removed pairing leaves no trace in the session |
| `OtaDevice.PcSender.MinConsumed` | scripts/esb_ota.py:783-800 | the progress of the slowest active tracker, attained by one of them |
| `OtaDevice.PcSender.Burst` | scripts/esb_ota.py:800-848 | a burst is stored completely, keeps the session's window, and ends only with the image, the burst size, or a tracker at the in-flight limit |
| `ReceiverOta.InvStep` | src/receiver_ota.c:587-1046 | every step of the HID handler and of the writer thread, including flash errors, timeouts, stop and join, keeps the invariant |
| `ReceiverOta.ReachableInv` | src/receiver_ota.c:369-1046 | the invariant holds in every state of every interleaving |
| `ReceiverOta.SlotHasOneOwner` | src/receiver_ota.c:778-838 | a page slot is never both filled, queued, written or free, and while the writer lives it is exactly one of them |
| `ReceiverOta.StreamIsReceived` | src/receiver_ota.c:587-695 | the bytes handed over are what the completed data reports carried, in the order sent, followed by the copied part of the latest report, which is the one waited for |
| `ReceiverOta.VerifySeesWholeImage` | src/receiver_ota.c:893-938 | when VERIFY is processed without a flash error, staging is exactly what the data reports carried; it succeeds iff there was no flash error and their CRC is the announced one, and otherwise ends in an error |
| `ReceiverOta.VerifiedFreezes` | src/receiver_ota.c:778-838 | after a successful VERIFY no flash step is possible in the session |
| `ReceiverOta.VerifiedByCheck` | src/receiver_ota.c:893-938 | a verified state goes back to a CRC check over all image bytes with staging unchanged since |
| `ReceiverOta.ActivationIsVerified` | src/receiver_ota.c:740-760 | activation is reached only after such a check, with no page request left and staging equal to what the host sent |
| `ReceiverOta.HostImageIsStaged` | src/receiver_ota.c:587-760 | likewise for staging when the copier is started |
| `ReceiverOta.ErrorHasCause` | src/receiver_ota.c:587-738 | a session fails only for a timed-out wait, a flash error, a skipped or incompatible chunk, a VERIFY before all bytes are in, or a wrong CRC; repeated and cut reports are harmless |
| `ReceiverOta.BadReportFails` | src/receiver_ota.c:587-712 | conversely a report after a flash error, a skipped chunk, an MCUboot image and a premature VERIFY do end the session |
| `ReceiverOta.ExpectedChunkIsTaken` | src/receiver_ota.c:602-634 | the chunk the session waits for is taken whenever it arrives whole |
| `ReceiverOta.CommandsGoOn` | src/receiver_ota.c:699-760 | VERIFY and ACTIVATE reach the writer's queue exactly when they may |
| `ReceiverOta.FlashErrorBlocksActivation` | src/receiver_ota.c:810-844 | after a failed flash operation nothing is activated before another BEGIN |
| `FlashCopy.AcceptedIsDisjoint` | src/receiver_ota.c:461-543 | an accepted BEGIN puts the page-rounded destination entirely below staging, staging inside the region and above the running code |
| `FlashCopy.FittingIsAccepted` | src/receiver_ota.c:461-543 | conversely every image that leaves that room is accepted |
| `FlashCopy.AcceptedIff` | src/receiver_ota.c:461-543 | exactly which sizes and base addresses BEGIN accepts, for every base |
| `FlashCopy.WordsTile` | src/receiver_ota.c:1068-1085 | the per-page word counts tile the image |
| `FlashCopy.CopyPage` | src/receiver_ota.c:1086-1112 | one page: copied word for word; an identical page is left alone |
| `FlashCopy.CopyImage` | src/receiver_ota.c:1066-1114 | the destination becomes the source image, the source and everything outside the destination pages stay |
| `FlashCopy.Activate` | src/receiver_ota.c:495-543 | for every accepted geometry the copier therefore installs the staged image |
| `SelfUpdate.StagedImage` | src/receiver_ota.c:740-760 | when the copier starts, the first image_size staged bytes are what the data reports carried and their CRC is the announced one |
| `SelfUpdate.Install` | src/receiver_ota.c:944-1114 | end to end: after activation at any point of any run, the application region holds exactly the bytes of the completed data reports, read off the reports themselves |
| `SelfUpdate.InstallImage` | src/receiver_ota.c:587-1114 | the host's view: if BEGIN announced the size of an image and report q always carried chunk q of it, the installed bytes are that image, whatever was repeated, lost or cut short |
| `CdcFraming.CrcComposes` | src/data_collect.c:363-380 | feeding the CRC piece by piece equals one pass |
| `CdcFraming.HostCrc` | scripts/data_collect_cdc.py:53-63 | the bit loop computes the CRC |
| `CdcFraming.TakeFrame` | scripts/data_collect_cdc.py:331-362 | the frame at the head of the buffer: yielded if intact and long enough, else skipped as specified |
| `CdcFraming.ParseBuffer` | scripts/data_collect_cdc.py:319-362 | the buffer loop yields and keeps what the specification says |
| `CdcFraming.LoopContinues` | scripts/data_collect_cdc.py:319-362 | parsing may stop after any byte: the kept buffer stands for everything read so far |
| `CdcFraming.SplitIndependent` | scripts/data_collect_cdc.py:312-362 | the frames yielded do not depend on how the stream is cut into reads |
| `CdcFraming.ReadFrames` | scripts/data_collect_cdc.py:312-362 | the reading loop yields exactly the frames of the unbuffered stream |
| `CdcFraming.FramesComeBack` | src/data_collect.c:337-388 | from a frame boundary any concatenation of written frames parses back to exactly those that carry a tracker packet, whatever follows |
| `CdcFraming.RecoveredIff` | src/data_collect.c:355-358 | a written frame is recovered iff its payload has 2 to 250 bytes; longer ones wrap the length byte |
| `CdcFraming.ResyncAfterNoise` | scripts/data_collect_cdc.py:319-362 | bytes that hold no intact frame are skipped and every frame after them is still recovered |
| `CdcFraming.CrcCheckValue` | scripts/data_collect_cdc.py:53-63 | the CRC has the published check value of the CRC-8 with polynomial 07 |
| `CdcFraming.TicksBigEndian` | src/data_collect.c:363-380 | ticks go out most significant byte first |
| `CdcFraming.TicksRoundTrip` | scripts/data_collect_cdc.py:359-359 | big-endian ticks decode to what was encoded |
| `DataCollect.Collector.Put` | src/data_collect.c:74-78 | one byte appended to the ring's contents |
| `DataCollect.Collector.Write` | src/data_collect.c:337-388 | a frame enters the ring whole, byte for byte its encoding, or is counted as dropped |
| `DataCollect.Collector.Send` | src/data_collect.c:94-158 | sent bytes and remaining contents are the old contents |
| `DataCollect.Collect` | src/data_collect.c:337-388 | in every interleaving of writes and sends, sent and held bytes are the encoding of the accepted packets in order |
| `DataCollect.HostSeesPrefix` | scripts/data_collect_cdc.py:312-362 | what the host has parsed is always a prefix of the accepted packets, and all of them once the ring is drained |
| `TrackerEvents.AdvanceExact` | src/tracker_events.c:202-228 | the bitmap stays exactly the accepted positions among the last 64, and an event let through takes a new position |
| `TrackerEvents.OutputFits` | src/tracker_events.c:391-461 | one event never produces more than eleven deliveries |
| `TrackerEvents.FarewellsExact` | src/tracker_events.c:402-409 | a session change reports every open entry, in slot order |
| `TrackerEvents.TakeInv` | src/tracker_events.c:417-457 | an event keeps one entry per operation, each at its own accepted position |
| `TrackerEvents.ReachableInv` | src/tracker_events.c:391-494 | bitmap exactness and entry consistency in every reachable cache |
| `TrackerEvents.PositionsDistinct` | src/tracker_events.c:202-228 | across re-anchors and sessions no position is accepted twice in one pairing |
| `TrackerEvents.Victim` | src/tracker_events.c:239-249 | the first free slot, else the first best victim: finished before open, then longest silent |
| `TrackerEvents.CachedOnlyAdvances` | src/tracker_events.c:443-457 | while an operation stays cached its order grows with every new event, its first order stays, and a finished one never becomes unfinished |
| `TrackerEvents.IntentionHasNotice` | src/tracker_events.c:267-298 | a standing power intention goes back to the accepted notice that first announced it |
| `TrackerEvents.SilenceNeedsNotice` | src/tracker_events.c:315-323 | silence is labelled power-down or reset only within 20 s of that notice, with the intention standing throughout, for an operation first seen no later than it; reset iff it was a reboot |
| `TrackerDeliveries.AcceptedIff` | src/tracker_events.c:400-436 | a packet is accepted exactly when it is news: not left over from the session before, not a repetition of a held event, and at a place no event of this pairing has taken |
| `TrackerDeliveries.PacketDelivers` | src/tracker_events.c:391-461 | a packet delivers the farewells of the session it ends, then the event itself if it is news and not a rest report no newer than the known one, or the event as recovered exactly if it repeats a rest state reported silent, and nothing else |
| `TrackerDeliveries.FreshAreTheNews` | src/tracker_events.c:436-440 | over every run the events the host gets as new are exactly those that were news, in order of arrival |
| `TrackerDeliveries.NewsOnlyOnce` | src/tracker_events.c:202-228 | no two of them in one pairing take the same place |
| `TrackerDeliveries.SessionChangeReports` | src/tracker_events.c:402-409 | a session change reports exactly the unfinished operations and the rest states not already silent |
| `TrackerDeliveries.EntryHasPacket` | src/tracker_events.c:422-457 | every slot in use goes back to the packet it holds, received at its recorded time |
| `TrackerDeliveries.StaleWasReported` | src/tracker_events.c:478-484 | a slot marked silent goes back to the check that reported it, with nothing heard since |
| `TrackerDeliveries.SilenceReportedIff` | src/tracker_events.c:470-484 | the check reports a slot exactly when it is unfinished, not yet reported, and unheard for 10 s or, a rest state, 15 s |
| `TrackerDeliveries.NewsIsKept` | src/tracker_events.c:443-457 | news of an operation or a rest state is kept unless something later or the result is known |
| `TrackerDeliveries.RepetitionRefreshes` | src/tracker_events.c:422-434 | a repetition refreshes its slot, which is no longer silent |
| `TrackerDeliveries.SilenceIsBlamed` | src/tracker_events.c:315-323 | an operation that falls silent under a standing announcement less than 20 s old, and was first seen no later, is reported with that reason |
| `TrackerDeliveries.NoticeEffect` | src/tracker_events.c:267-298 | what a power notice does to the intention, for every kind, if it is taken for the newest and if not; repeating an intention does not renew it |
| `TrackerDeliveries.IntentionEndsForCause` | src/tracker_events.c:267-323 | within a session an intention is withdrawn only by a notice, by evidence of an operation or by age |
| `TrackerDeliveries.EvidenceEndsIntention` | src/tracker_events.c:300-313 | evidence of an operation ends an intention over 10 s old, and a newer operation's start ends any |
| `TrackerDeliveries.EndedSessionIsIgnored` | src/tracker_events.c:400-411 | packets of an ended session change and deliver nothing for 15 s while the new session lasts |
| `TrackerPower.WindowTracks` | src/tracker_events.c:202-215 | within half the sequence space window and watermark place events by their true numbers, across a re-anchor too |
| `TrackerPower.AppliedAnchors` | src/tracker_events.c:267-298 | an applied notice is a fresh start: window and watermark agree with its true number, whatever happened before |
| `TrackerPower.WatermarkIsTrue` | src/tracker_events.c:202-298 | from any state the true numbers agree with, they go on agreeing while the accepted events are in reach |
| `TrackerPower.OlderNoticeNeverWins` | src/tracker_events.c:267-298 | after an applied notice an older one that arrives later never changes the stored intention, if the events accepted since are in reach |
| `TrackerPower.NewerNoticeWins` | src/tracker_events.c:267-298 | under the same condition a notice is applied exactly when it is newer than all applied since |
| `TrackerPower.OlderNoticeNeverWinsInSession` | src/tracker_events.c:267-298 | with a whole session in reach, any accepted notice beats every older one |
| `TrackerPower.SpanSuffices` | src/tracker_events.c:202-215 | accepted events that span fewer than 2^15 numbers with the state they start from are all in reach, whatever is lost, delayed or reordered |
| `TrackerPower.OlderNoticeLosesWithinSpan` | src/tracker_events.c:202-298 | so after an applied notice an older one changes nothing while everything accepted since lies within 2^15 numbers |
| `TrackerPower.PlacedIff` | src/tracker_events.c:202-228 | with and without a re-anchor, an accepted event is placed by its true number exactly when it is in reach |
| `TrackerPower.PlacedRunIff` | src/tracker_events.c:202-298 | over runs: every accepted event is placed by its true number exactly when every one is in reach |
| `TrackerPower.AppliedRunIff` | src/tracker_events.c:202-298 | the same from an applied notice on |
| `TrackerPowerLimits.DistantNoticeWins` | src/tracker_events.c:204-215 | out of reach across a quiet interval: in a run of two packets the notice numbered 0 replaces the one numbered 40000 |
| `TrackerPowerLimits.DelayedNoticeWins` | src/tracker_events.c:216-223 | out of reach without one: notice 10000, event 42000, then notice 5000, which replaces it although fewer than 2^15 events were sent since |
| `TrackerPowerLimits.NewerNoticeIgnored` | src/tracker_events.c:204-215 | the other side of a re-anchor out of reach: after notice 0, events up to 40000, a quiet interval and event 40001, the shutdown notice 40002 is ignored |
| `TrackerCache.EventCache.Admit` | src/tracker_events.c:202-228 | the in-place window update equals the specified one |
| `TrackerCache.EventCache.FindOperation` | src/tracker_events.c:230-237 | the loop finds the first slot with the operation's key |
| `TrackerCache.EventCache.AllocateOperation` | src/tracker_events.c:239-249 | the loop finds the specified victim |
| `TrackerCache.EventCache.NotePower` | src/tracker_events.c:267-298 | the in-place power record equals the specified one |
| `TrackerCache.EventCache.EnterSession` | src/tracker_events.c:401-417 | a session change clears the cache and reports every open entry |
| `TrackerCache.EventCache.StoreEvent` | src/tracker_events.c:443-457 | the cached entry after an accepted event |
| `TrackerCache.EventCache.ProcessRx` | src/tracker_events.c:391-461 | one received event has the specified effect and deliveries, which `TrackerDeliveries.PacketDelivers` describes |
| `TrackerCache.EventCache.CheckSlot` | src/tracker_events.c:463-494 | the silence check of one slot |
| `RawArq.RequestsAreMissing` | src/connection/esb.c:1704-1780 | after any history at most eight distinct requests, each 1..95 behind, each for a position skipped and not received since |
| `RawArq.RequestsAreExact` | src/connection/esb.c:1704-1780 | if no gap overflowed the queue since the last restart, it holds exactly the missing positions that are not stale |
| `RawArq.OverflowFills` | src/connection/esb.c:1719-1730 | a gap that does not fit fills the queue up with its oldest numbers and keeps what was there |
| `RawArq.ProcessInv` | src/connection/esb.c:1704-1763 | every branch keeps queue and received positions in agreement |
| `RawArq.Receiver.Append` | src/connection/esb.c:1719-1730 | as many skipped numbers as fit, in order |
| `RawArq.Receiver.Remove` | src/connection/esb.c:1731-1742 | swap-delete of a retransmitted number |
| `RawArq.Receiver.Evict` | src/connection/esb.c:1753-1763 | in-place removal of stale numbers, order kept |
| `RawArq.Receiver.Receive` | src/connection/esb.c:1704-1780 | the handler equals the specified step and requests its queue |
| `RawArq.Receiver.Restart` | src/connection/esb.c:1782-1788 | forgets the sequence and the queue |
| `LossEvidence.StepInv` | src/connection/esb.c:838-876 | every packet and boundary keeps counters and unwrapped advance in agreement |
| `LossEvidence.CountsAreAdvance` | src/connection/esb.c:845-856 | after any history the counters are the sum over all stretches between boundaries of the sequence advance since the first packet accepted in each; boundaries themselves change nothing |
| `LossEvidence.OnlyPacketsCount` | src/connection/esb.c:838-879 | fences, invalidations, blackouts, restarts and whatever happens to other trackers leave receipts and gaps alone; only a new owner of the slot starts from zero |
| `LossEvidence.VerdictIsTrue` | src/connection/esb.c:1430-1510 | each verdict in terms of true packet numbers, for all 256 differences a byte can tell |
| `LossEvidence.ReadyIffHeard` | src/connection/esb.c:838-866 | a tracker is ready exactly when it was heard in order since its last invalidation; a fence alone does not change that |
| `LossEvidence.UnstartedIsFenced` | src/connection/esb.c:2385-2395 | a tracker without a known sequence is fenced, so no gap across a boundary is counted |
| `LossEvidence.AdvanceIsTrue` | src/connection/esb.c:1430-1510 | packets less than 64 behind or at most 80 ahead are counted by their true numbers |
| `LossEvidence.Evidence.Count` | src/connection/esb.c:845-856 | a fence swallows one accepted packet |
| `LossEvidence.Evidence.CheckPacket` | src/connection/esb.c:1383-1513 | verdict and counters of one packet; no other tracker changes |
| `LossEvidence.Evidence.FenceAll` | src/connection/esb.c:838-843 | every tracker is fenced |
| `LossEvidence.Evidence.InvalidateAll` | src/connection/esb.c:858-866 | every tracker is fenced and unready |
| `LossEvidence.Evidence.Blackout` | src/connection/esb.c:868-879 | every sequence is unknown, fenced and unready |
| `LossEvidence.Evidence.Reassign` | src/connection/esb.c:3116-3131 | a reassigned slot starts from nothing and fences all |
| `LossEvidence.Evidence.PingRestarted` | src/connection/esb.c:2385-2395 | a restarted tracker is fenced until its next packet |
| `LossLadder.CountingTick` | src/connection/esb.c:1076-1141 | one contributing second: level, streaks and pool, each step iff its streak of seconds is long enough |
| `LossLadder.StepIsBacked` | src/connection/esb.c:1003-1141 | every step is by one, from a published level, and backed by consecutive full pools all past the threshold covering at least 5, 10 or 60 seconds |
| `LossLadder.CountersFit` | src/connection/esb.c:1083-1092 | the level stays on the ladder and the pool's tick counter never reaches 100 between judgements |
| `LossLadder.PoolIsShort` | src/connection/esb.c:1079-1090 | a pool never spans more seconds than it has samples |
| `LossLadder.Controller.Collect` | src/connection/esb.c:1008-1040 | the second's receipts are what the receipts total of the active unbroken trackers has grown by, its gaps what their gaps total has grown by; snapshots always advance |
| `LossLadder.SoleTracker` | src/connection/esb.c:1018-1040 | with one tracker included the sample is its own difference, receipts from receipts and gaps from gaps |
| `LossLadder.CountsIff` | src/connection/esb.c:1042-1082 | which seconds contribute, from the history alone: undisturbed, nonempty, after a starting point, with no step outstanding |
| `LossLadder.LevelMoves` | src/connection/esb.c:640-660 | apart from contributing seconds the level moves only to 0 with a new membership and back to the published one |
| `LossLadder.Controller.Update` | src/connection/esb.c:1042-1141 | one tick has the specified effect |
| `TdmaWidth.WidthIsWidest` | src/connection/esb.c:600-613 | the width is even, 16..254, keeps the ladder cap when wider than 16, and no wider even width within the limit would |
| `TdmaWidth.AtLeast115` | src/connection/esb.c:600-613 | with at most sixteen trackers everybody gets at least 115 opportunities a second |
| `TdmaWidth.LayoutIsBijective` | src/connection/esb.c:683-697 | active trackers own slots 0..n-1 one to one, others none, and all see the same total, width and epoch |
| `TdmaWidth.PackRoundTrip` | src/connection/esb.c:217-220 | the packed word gives back its four bytes, slot first and epoch last |
| `TdmaWidth.Publish` | src/connection/esb.c:683-697 | the loop writes exactly that layout |
| `Tdma.StepInv` | src/connection/esb.c:290-396 | every step under the lock keeps the membership invariant |
| `Tdma.ChangeIsScheduled` | src/connection/esb.c:290-396 | desired members always have live evidence, and outside a removal a wanted change or queued join has a deadline armed |
| `Tdma.SlotLostForCause` | src/connection/esb.c:344-396 | a published tracker loses its slot only after being removed or after 15 s of silence |
| `Tdma.LastSeenIsLast` | src/connection/esb.c:290-318 | the remembered time is no earlier than any observation |
| `Tdma.EvictedWasSilent` | src/connection/esb.c:361-379 | nothing was heard of an evicted tracker during the last 15 s |
| `Tdma.PublicationsAreSpaced` | src/connection/esb.c:665-673 | an unforced layout comes at least 1 s after any earlier one, a ladder step at least 15 s |
| `Tdma.WakesInTime` | src/connection/esb.c:409-422 | after an uncapped sleep a wanted membership change is not deferred, whatever packets, pairings and requests came in meanwhile |
| `Tdma.ForcedDefers` | src/connection/esb.c:665-673 | a forced publication less than a second before does defer it |
| `TdmaPublication.MergedMembers` | src/connection/esb.c:344-396 | after a merge the members are exactly the trackers heard within 6 s and the slot holders heard within 15 s |
| `TdmaPublication.JudgedIs` | src/connection/esb.c:622-648 | what a pass decides on: when it merges first, the members then wanted, and the ladder level that goes with them |
| `TdmaPublication.PassOutcome` | src/connection/esb.c:649-706 | a pass publishes exactly when a change is wanted, need not wait and is looked at again, with the wanted members, their width and level 0 for a new membership; otherwise the layout stays |
| `TdmaPublication.NextEpochDiffers` | src/connection/esb.c:684-687 | consecutive nonempty layouts have consecutive, different epochs |
| `TdmaPublication.DeadlineWasSet` | src/connection/esb.c:290-396 | a cohort's deadline is set once, 101 ms after its first packet or by a merge, and not moved by others |
| `TdmaPublication.CohortIsWaitedFor` | src/connection/esb.c:667-673 | an unforced new membership goes out no earlier than that deadline |
| `TdmaPublication.WakesNotTooLate` | src/connection/esb.c:409-422 | the sleep is no longer than needed: an earlier look is held back |
| `TdmaPublication.SlotGained` | src/connection/esb.c:344-396 | a tracker that gains a slot was heard less than 6 s before |
| `TdmaScheduler.Scheduler.HandlePacket` | src/connection/esb.c:290-318 | the in-place observation equals the specified step |
| `TdmaScheduler.Scheduler.MergeEvidence` | src/connection/esb.c:344-396 | the loop over trackers equals the specified merge |
| `TdmaScheduler.Scheduler.LayoutPass` | src/connection/esb.c:618-713 | one pass under the lock equals the specified one, and a publication writes the layout |
| `AutoPolicy.ObserveKeepsTable` | src/connection/auto_channel_policy.c:21-44 | one entry per sender holding what its last beacon said, other fresh peers kept, refusal exactly for a replay or a table full of fresh peers |
| `AutoPolicy.ChoiceIsEligible` | src/connection/auto_channel_policy.c:57-74 | a chosen channel is even, at most 88, not home, strictly quieter than home and not next to a fresh peer |
| `AutoPolicy.ChoiceIsQuietest` | src/connection/auto_channel_policy.c:57-74 | no eligible channel is quieter, and one is chosen whenever one is eligible |
| `AutoPolicy.Policy.Observe` | src/connection/auto_channel_policy.c:21-44 | the in-place table equals the specified one |
| `AutoPolicy.Policy.IsOccupied` | src/connection/auto_channel_policy.c:46-54 | some fresh peer is within one channel |
| `AutoPolicy.Policy.ChooseChannel` | src/connection/auto_channel_policy.c:57-74 | the loop makes the specified choice |
| `AutoSurvey.PickIsMerited` | src/connection/auto_channel.c:282-303 | finalists are all eligible channels, or three that no other eligible channel beats |
| `AutoSurvey.FinalistsAreBest` | src/connection/auto_channel.c:282-303 | they are picked when every even channel and home have exactly twelve clean readings |
| `AutoSurvey.FinalistsWerePicked` | src/connection/auto_channel.c:282-303 | over every run, the finalists under confirmation were picked so at an earlier step of the same survey and have not changed since |
| `AutoSurvey.VisitsNeverExceed` | src/connection/auto_channel.c:254-281 | no channel is ever measured more often than its phase requires |
| `AutoSurvey.RequestIsJustified` | src/connection/auto_channel.c:558-634 | every requested target is one of at most three best finalists of the survey, with exactly 36 clean readings, like home, strictly quieter in its strongest reading, even, not home, and not next to a fresh peer |
| `AutoSurvey.RoundOutcome` | src/connection/auto_channel.c:588-634 | what the end of a round comes to, exactly: out of time or attempts, complete with or without a channel to move to, or going on |
| `AutoSurvey.RequestIsQuietest` | src/connection/auto_channel.c:606-608 | a request is for the quietest channel there is to move to |
| `AutoSurvey.EventInv` | src/connection/auto_channel.c:558-634 | every measurement keeps readings, peaks, scores, counts and order in agreement |
| `AutoSweep.Sweep.Draw` | src/connection/auto_channel.c:265-280 | whatever the random numbers, the round's order lists every wanted channel once and nothing else |
| `AutoSweep.Sweep.Book` | src/connection/auto_channel.c:558-577 | one measurement booked in the energy table, a censored one only as an attempt |
| `AutoSweep.Sweep.Progress` | src/connection/auto_channel.c:592-601 | the loop decides completeness and exhaustion of the round |
| `AutoSweep.Sweep.Confirm` | src/connection/auto_channel.c:282-304 | the in-place pick of finalists equals the specified one |
| `AutoSweep.Sweep.Advance` | src/connection/auto_channel.c:558-634 | a measurement with everything it leads to equals the specified step |
| `AutoLoss.LossyMeans` | src/connection/auto_channel.c:134-184 | loss is diagnosed only over 10.0 to 10.5 s without discontinuity, all active trackers heard, at least 100 samples, more than 20 % gaps |
| `AutoLoss.VerdictIff` | src/connection/auto_channel.c:134-184 | a sample is judged exactly when its two snapshots allow it, and then lossy exactly when more than a fifth is lost and clean exactly when not |
| `AutoLoss.IdleIsDiscarded` | src/connection/auto_channel.c:134-184 | when a window starts over and when it is continued, and that the first interval after an idle window is not counted |
| `AutoLoss.NotBrokenAcross` | src/connection/auto_channel.c:115-129 | no discontinuity between neighbours means none across the window |
| `AutoLossRing.IntervalsTelescope` | src/connection/auto_channel.c:146-171 | interval sums are the counter difference over the window |
| `AutoLossRing.SumRotated` | src/connection/auto_channel.c:165-171 | the ring's rotation does not change its sum |
| `AutoLossRing.RingPush` | src/connection/auto_channel.c:158-162 | writing at the cursor keeps the ring the last ten intervals |
| `AutoLossRing.LossWindow.Measure` | src/connection/auto_channel.c:145-152 | one interval's sums over the active trackers |
| `AutoLossRing.LossWindow.Discontinuous` | src/connection/auto_channel.c:115-129 | whether the snapshots belong to one measurement |
| `AutoLossRing.LossWindow.Restart` | src/connection/auto_channel.c:106-113 | a new baseline |
| `AutoLossRing.LossWindow.Add` | src/connection/auto_channel.c:134-184 | one sample of the ring equals one sample of the snapshot window |
| `AutoWorker.Worker.WakeUp` | src/connection/auto_channel.c:383-425 | the in-place wake equals the specified one |
| `AutoWorker.Worker.TakeSample` | src/connection/auto_channel.c:444-500 | the in-place evidence step equals the specified one |
| `AutoWorker.Worker.RecoverySample` | src/connection/auto_channel.c:186-210 | the in-place recovery sample equals the specified one |
| `AutoDiagnosis.StepValid` | src/connection/auto_channel.c:383-500 | every step keeps the diagnosis state well formed |
| `AutoDiagnosis.TrialWasCommitted` | src/connection/auto_channel.c:395-425 | recovery and re-check go back to a committed trial move of the observed generation |
| `AutoDiagnosis.PostcheckWasRecovered` | src/connection/auto_channel.c:186-210 | a re-check goes back to a sample that saw every original participant, and all its evidence is later |
| `AutoDiagnosis.LatchNeedsTrial` | src/connection/auto_channel.c:395-500 | the latch closes only if in the same enable generation a move committed, all original participants then recovered, and an uninterrupted window of 10.0 to 10.5 s that began later, with every active tracker heard and at least 100 samples, still lost more than 20 % |
| `AutoTrial.SweepWasLossy` | src/connection/auto_channel.c:496-530 | every survey goes back to a monitoring sample that found more than a fifth lost with the cooldown over, and takes its participants from it |
| `AutoTrial.TrialHasCause` | src/connection/auto_channel.c:383-634 | every committed move goes back to its decision, its survey and such a sample, with home, target and participants of that chain |
| `AutoTrial.SweepAfterCooldown` | src/connection/auto_channel.c:410-420 | after a committed move no survey starts on a sample less than two minutes later, under unchanged terms |
| `AutoTrial.WakeOutcome` | src/connection/auto_channel.c:388-425 | what a wake makes of phase, baseline and cooldown, for every completion and every change of terms |
| `AutoTrial.SampleOutcome` | src/connection/auto_channel.c:186-210 | when a sample moves a trial on, sends a re-check back, or ends a survey, exactly |
| `AutoTrial.RecheckConcludes` | src/connection/auto_channel.c:485-497 | a judged re-check closes the latch exactly if it is lossy and the generation is current, and ends the trial exactly if it is clean |
| `AutoTrial.LatchStopsSurveys` | src/connection/auto_channel.c:670-705 | once latched, no survey starts before the user switches automatic avoidance on |

## Left out

- USB, HID, UART and serial drivers, register access, RSSI timing, LEDs, buttons, console, argument parsing: input, output and hardware.
- Roster records, channel bytes, event packet encoding, UF2 and HEX parsing, FW_INFO chunking, CSV output: they would only add easy members.
- The pending-leave and ever-seen masks of the time-division membership, which only feed status and eligibility; TDMA diagnostics, histograms, clock bias, packet statistics for display, throughput test coordination.
- MCUboot branches of the self-update, the bootloader settings page, and recovery from flash errors beyond entering the error state.
- OTA relay: throttling of forwarded HID records, FW_INFO requests and the suppression commands.
- Tracker events: subscriptions, leases, cache versions and the re-notification of rest states to a new subscriber; an event queued under an older pairing generation is simply not received.
- Receiver BEGIN: the protocol version and board name checks; data collection: start, stop, time-out, and discarding the ring when the host closes the port.
- Raw retransmission: the statistics counters and the byte layout of the acknowledgement.
- Automatic channel choice: beacon transmission, radio ownership and its errors, which appear only as an interruption of the sweep.
- HidRing.InvStep: the ring is a state machine over values, one step per atomic access, because its point is the interleaving; slots are not objects.
- HidRing.ConsumedWasSubmitted: speaks of the records peeked for a submission; that a record whose subscription has lapsed is replaced by padding in the submitted report is not modelled.
- ReceiverOta.InvStep: likewise a state machine over values; buffers and flash are sequences.
- OtaWindow.SessionNeverDrops: assumes that trackers ask forwards and for no more than was sent, that host and relay have the same targets, because the code does not have the property without it, and that a status the host acts on was answered with no command pending.
- Tdma.WakesInTime: does not model the wrap of 32-bit milliseconds in the sleep computation.
