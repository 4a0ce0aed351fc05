# Swarmit: verified model of the update, calibration and boot protocols

Swarmit flashes, calibrates, starts and stops a swarm of robots over a radio that loses frames. This
project models, in Dafny, the code in which it matters that nothing goes wrong on the way:

- **Over-the-air update.** The host's `Controller` cuts an image into 128-byte chunks, sends START frames
  until the devices acknowledge and then each chunk until it is acknowledged, by broadcast or to one device
  at a time, while a second thread receives acknowledgements. The device's bootloader erases pages, checks
  a truncated digest, drops repeats with the help of one cell (the last index acknowledged), programs NOR
  flash word by word and acknowledges. `Controller.Controller.Update` ties all of it together, for every image
  that fits, every set of devices and every behaviour of the radio, the acknowledgements and the resets: a
  device that the host reports as successful holds the image in flash, and one that it reports as failed had
  an acknowledgement still missing when the first verdict was reached and a chunk whose retries were used up.
- **The nRF5340 pair.** The network core handles packets into shared memory and rings doorbells, the
  application core serves flags. `DualCore.DualCoreRefinement` shows that it does what the single-core
  device does on a subsequence of the same packets, under a condition that a session's packets always
  satisfy, with resets at any time, so that the safety of the update carries over.
- **The inter-core call.** `IpcHandshake` interleaves caller, network-core loop and interrupt handler one
  memory access at a time: what returns was executed exactly once, and the one way to wait forever is
  pinned down and shown to be reachable.
- **Calibration.** Matrices repeated blindly over a lossy link, gathered in RAM, committed to a flash page,
  loaded after the reset.
- **Boot intent.** Resets of every kind may fall between any two steps of the boot decision.
- **Position filter and raw capture.** Drift bounds in exact integer arithmetic; drained samples and the
  frame that carries them.

Code that changes state step by step is a class or a method with loops (`Bootloader`, `CorePair`,
`Controller`, `NetworkCore`, `Board`, `LocalizationData`, `CaptureLog`), proved equal to functions on values;
the theorems are about those functions.

| file | contents |
|---|---|
| `Basics.dfy` | what several components share |
| `Flash.dfy` | page erase and word programming |
| `OtaDevice.dfy` | the single-core bootloader's update code |
| `Firmware.dfy` | chunking, and what flash holds after chunk writes |
| `OtaSession.dfy` | runs of packets and resets on one device |
| `Network.dfy` | links, the lossy radio, and the invariant of a session |
| `Undisturbed.dfy` | a transfer on which nothing is lost |
| `Airtime.dfy` | the frames handed to the radio: to whom, when, and on what the host had heard |
| `HostLog.dfy` | the history of a transfer: frames sent, acks heard, verdicts reached |
| `HostState.dfy` | the host's flags and counts, and what they say about the network |
| `Controller.dfy` | the host's loops, interleaved with radio and receive thread |
| `DualCore.dfy` | the two-core implementation and its refinement |
| `IpcHandshake.dfy` | the request/acknowledge handshake |
| `Calibration.dfy`, `CalibrationCode.dfy` | calibration sessions; sender, loader and commit code |
| `Lifecycle.dfy` | boot intent, resets, STOP |
| `Localization.dfy`, `Capture.dfy`, `LocalizationCode.dfy` | position filter, raw capture, and their code |

`dafny verify dfyconfig.toml` checks everything.

## Assumptions

- A frame that is damaged on the air does not verify: the eight digest bytes match only the bytes that were
  sent (`Network.DamageShows`, `OtaSession.SessionFrame`). SHA-256 is a parameter.
- Frames to one device arrive in order, possibly lost or heard several times. Acknowledgements may arrive
  late, repeatedly, out of order or never; they are never invented.
- When a session begins nothing of an earlier one is on the air, and a device that accepts updates has its
  erase flag set or the image's pages already blank (`OtaSession.Covered`). `LargerSecondStartKeepsOldPages`
  shows that the second part is needed.
- Handling one packet is one step, and so is one pass of the application core's loop body.
- The image fits the 0xF0000 bytes from its base address to the end of flash.

## What the proofs found

- A second START for a larger image, with no chunk in between, is acknowledged although the additional
  pages were not erased (`OtaSession.LargerSecondStartKeepsOldPages`).
- A START acknowledgement that arrives between the reading of `acked` and of `missed` is in neither list
  (`HostState.LateAckIsReportedNowhere`); the lists are disjoint, and cover the requested devices exactly if no
  such acknowledgement arrives (`HostState.StartReported`).
- A broadcast START is acknowledged only by exactly the devices asked for: once a device outside `ready_devices`
  answers as well, it is repeated until the retries run out (`HostState.StartTestExact`).
- The broadcast test for a chunk never succeeds when the device list holds a duplicate
  (`HostState.BroadcastTestExact`).
- On the two-core device, while one chunk waits to be served, a rejected chunk packet is acknowledged in
  its place, and a START is acknowledged ahead of the chunk that came before it (`DualCore.DisorderShows`).
- A second inter-core call made right after the first is lost when its interrupt is taken between
  `net_ack = true` and `ipc_req = IPC_REQ_NONE` (`IpcHandshake.PromptSecondCallIsLost`, `StuckIsReachable`).
- A calibration commit on a page whose magic value is wrong while its `has_net_id` is 1 changes the
  network in use, unless the stored id is the default (`Calibration.CommitKeepsNetworkExactly`).
- If index 0 of a calibration is lost, slots of older sessions survive (`Calibration.LossySession`).
- A pin reset during the boot that a START asked for does not stop the user image
  (`Lifecycle.PinResetMayBootUserImage`), and a calibration committed during that boot, while the status that
  the start-up code cleared reads READY, leaves a user image that no STOP can reach (`Lifecycle.CommitDuringBootDeafensTheImage`).
- Once (0,0) is accepted the position filter has no reference and accepts anything in range
  (`Localization.OriginForgetsReference`); otherwise a robot carried more than 500 mm has no position until it is
  brought back (`Localization.NothingAcceptedExactlyIfFar`).

## Model

| member | source | states |
|---|---|---|
| Flash.PageErase | device/bootloader-single-core/Source/nvmc.c:20-27 | an erase sets every byte of the page and no other |
| Flash.NvmcWrite | device/bootloader-single-core/Source/nvmc.c:29-40 | the word loop clears, in the first 4*(len/4) bytes from the address, the bits the data has clear; trailing bytes are never written; addresses wrap at 32 bits |
| OtaDevice.Bootloader.constructor | device/bootloader-single-core/Source/main.c:239-253 | RAM after a reset that does not boot the user image: READY, erase required, no chunk acked |
| OtaDevice.Bootloader.HandleStart | device/bootloader-single-core/Source/main.c:290-303 | a START is accepted in READY or PROGRAMMING only, and resets the last acked index |
| OtaDevice.Bootloader.HandleChunk | device/bootloader-single-core/Source/main.c:304-341 | range check, skipped digest check for the last acked chunk, buffer overwritten before the digest is compared |
| OtaDevice.Bootloader.ServiceOtaStart | device/bootloader-single-core/Source/main.c:374-395 | pages 16 onwards, as many as the image reaches into, are erased if the flag says so; always acknowledged |
| OtaDevice.Bootloader.ServiceOtaChunk | device/bootloader-single-core/Source/main.c:397-421 | written unless it was the last one acked, acknowledged in any case, READY after the last index |
| OtaDevice.PagesCountExact | device/bootloader-single-core/Source/main.c:379 | the number of pages erased is the number the image reaches into: 4096 (n - 1) < size <= 4096 n, none for an empty image |
| OtaDevice.ToInt32Exact | device/bootloader-single-core/Source/main.c:320 | the cast of an index keeps it modulo 2^32 and fits 32 signed bits |
| OtaDevice.Bootloader.LoopPass | device/bootloader-single-core/Source/main.c:255-421 | one turn of the loop is packet, START request, chunk request, in this order |
| Firmware.ChunksTileImage | swarmit/testbed/controller.py:675-702 | for every length the chunks join to the image, number ceil(len/128), and only the last may be short |
| Firmware.ChunkBytesAt | device/bootloader-single-core/Source/main.c:402-404 | the bytes programmed for chunk i are exactly that chunk's whole words at their place in the image, with no 32-bit wrap |
| Firmware.WritingAChunk | device/bootloader-single-core/Source/nvmc.c:35-37 | writing a chunk, new or again, adds it to the chunks written once |
| Firmware.AddingAChunk | device/bootloader-single-core/Source/main.c:400-406 | where the pages hold some chunks and are blank elsewhere, a write adds one chunk and disturbs nothing |
| Firmware.ErasingPages | device/bootloader-single-core/Source/main.c:379-385 | the erase loop blanks the image's pages and, while they fit, nothing else changes |
| OtaSession.EraseFlagInvariant | device/bootloader-single-core/Source/main.c:374-405 | over all runs of packets and resets, a clear erase flag means every page of the last erase is blank |
| OtaSession.StartAckOnBlankPages | device/bootloader-single-core/Source/main.c:374-394 | a START is acked on blank image pages if and only if it erases or they were blank; an erase at least as large suffices |
| OtaSession.LargerSecondStartKeepsOldPages | device/bootloader-single-core/Source/main.c:377-387 | a START larger than the last erase may be acked on pages that are not blank |
| OtaSession.RepeatedStartsEraseOnce | device/bootloader-single-core/Source/main.c:374-395 | STARTs before the first chunk are all acked and leave flash as the first did |
| OtaSession.NothingBeforeStart | device/bootloader-single-core/Source/main.c:304-317 | since a reset no chunk is acked or changes flash before a START |
| OtaSession.ChunkPass | device/bootloader-single-core/Source/main.c:304-421 | in session a chunk packet is acked exactly if it verifies or repeats the last ack, written exactly if it verifies and does not |
| OtaSession.RunWritesOnce | device/bootloader-single-core/Source/main.c:304-421 | any run of session chunk packets acks what arrived intact and leaves flash as one write of each would |
| OtaSession.WriteOrderIrrelevant | device/bootloader-single-core/Source/nvmc.c:35-37 | on NOR flash the order and number of chunk writes do not matter |
| OtaSession.DedupRefinesWriteOnce | device/bootloader-single-core/Source/main.c:320-341 | between STARTs the acked chunks are those that arrived intact, and flash is what writing each exactly once, in any order, leaves |
| OtaSession.SessionHoldsAckedChunks | device/bootloader-single-core/Source/main.c:290-421 | after STARTs and chunks the image's pages hold exactly the acked chunks and are blank elsewhere |
| OtaSession.IntactSessionInstalls | device/bootloader-single-core/Source/main.c:397-421 | if each chunk of a non-empty image arrives intact once, all are acked, the image is installed, the device READY |
| OtaSession.LastChunkIsReacked | device/bootloader-single-core/Source/main.c:400-420 | a lost ack of the last chunk is recovered: the READY device acks again and writes nothing |
| OtaSession.OnlyImagePagesChange | device/bootloader-single-core/Source/main.c:379-404 | over any run of packets and resets for an image that fits, from any state, a byte below 0x10000, or in a page whose distance from there is the image's length or more, never changes |
| OtaSession.ImagePagesExact | device/bootloader-single-core/Source/main.c:379-385 | the pages erased are exactly those in which the image has a byte |
| OtaSession.UpdatesNeedReadyOrProgramming | device/bootloader-single-core/Source/main.c:290-308 | in READY and PROGRAMMING a START is acked and leads to PROGRAMMING; in every other status update packets do nothing at all |
| Network.DeliverStart | device/bootloader-single-core/Source/main.c:290-303 | a session's START leaves blank pages and an updating device, or is ignored |
| Network.DeliverChunkUpdating | device/bootloader-single-core/Source/main.c:304-421 | on an updating device a delivered chunk keeps the pages equal to the acked chunks; an intact one is acked |
| Network.LinkStepKeeps | device/bootloader-single-core/Source/main.c:255-421 | loss, damage, repetition and resets keep the session invariant; acks and arrivals only grow |
| Network.SendKeeps | swarmit/testbed/controller.py:661-664 | what the host sends keeps the invariant: no START follows a chunk |
| Network.AllArrivedInstalled | device/bootloader-single-core/Source/main.c:397-421 | since its START_ACK a device acks exactly the chunks that arrived intact; once all have, it holds the image and is READY unless reset, whether or not the host hears of it |
| Undisturbed.HostFrameVerifies | swarmit/testbed/controller.py:675-702 | every chunk frame as the host builds it is a frame of the session and verifies on the device |
| Undisturbed.UndisturbedBroadcastInstallsEverywhere | swarmit/testbed/controller.py:668-714 | progress: if the START and one frame of every chunk are broadcast and all arrive, every device that was READY or PROGRAMMING ends READY with the image in flash and every chunk acked |
| HostLog.SuccessWasHeard | swarmit/testbed/controller.py:846-852 | a recorded verdict of success means every ack of that device was heard |
| HostLog.HeardInTimeSucceeds | swarmit/testbed/controller.py:846-852 | a device all of whose acks were heard before the first verdict is never judged a failure |
| HostState.BroadcastTestExact | swarmit/testbed/controller.py:730-739 | the broadcast test equals "every target acked this chunk" if and only if the device list has no duplicates, else it fails |
| HostState.StartTestExact | swarmit/testbed/controller.py:643-649 | the START test succeeds for one device if and only if it answered, for a broadcast if and only if no device is asked for twice and exactly those asked for have answered |
| HostState.ChunkTestExact | swarmit/testbed/controller.py:730-746 | the chunk test equals having heard the ack from the one device, or from all of them with no duplicate in the list |
| HostState.WithAckKeeps | swarmit/testbed/controller.py:395-412 | an ack only raises flags, and they are up exactly for the acks received |
| HostState.StartOutcome | swarmit/testbed/controller.py:716-722 | acked and missed are disjoint, and cover the requested devices if and only if no requested device's ack arrives between the two reads; no duplicates |
| HostState.LateAckIsReportedNowhere | swarmit/testbed/controller.py:716-722 | from any start of a session with a ready device: its START is delivered, its ack comes in between the two reads, and it is in neither list |
| HostState.NothingHeard | swarmit/testbed/controller.py:816-822 | when the transfer data is built no chunk ack can have been missed |
| HostState.TargetsChased | swarmit/testbed/controller.py:757-760 | the loop for one chunk ends with the chunk acked, or its retries used up, at every target |
| HostState.JudgeOne | swarmit/testbed/controller.py:846-852 | one verdict: success if and only if all acks have been heard; failure means a chunk ran out of retries |
| HostState.SuccessInstalls | swarmit/testbed/controller.py:846-853 | success for a device means every chunk reached it intact and its flash holds the image |
| HostState.FailureIsExplained | swarmit/testbed/controller.py:757-760 | a failure means an ack not heard before the first verdict, and a chunk sent as often as the retries allow |
| HostState.CompleteTransfer | swarmit/testbed/controller.py:816-853 | if for each device all acks were heard before the first verdict or no chunk ran out of retries, and none was reset, all succeed, hold the image and are READY |
| Controller.Controller.OnFrameReceived | swarmit/testbed/controller.py:390-412 | START acks are recorded without duplicates; a chunk ack raises its flag if device and index are known |
| Controller.Controller.SendStartOta | swarmit/testbed/controller.py:640-666 | terminates with every interleaving, acknowledged or out of the retries shared by the session; one frame per retry, each to the given address, each after a test that failed, and more than the timeout after the one before |
| Controller.Controller.BuildChunks | swarmit/testbed/controller.py:675-702 | the loop builds exactly the chunks of the image |
| Controller.Controller.StartOta | swarmit/testbed/controller.py:668-722 | every requested device is in the acked that is returned, or the max_retries+1 START frames are used up; the frames go to the requested devices in turn, or to the broadcast address; acked has no duplicates, each device in it did ack, and nothing heard before the last frame went out is missing from it |
| Controller.Controller.SetRetries | swarmit/testbed/controller.py:777-785 | the count is stored for every targeted device and no other |
| Controller.Controller.SendChunk | swarmit/testbed/controller.py:724-789 | terminates with every interleaving; at most max_retries+1 frames, each to the given address, each after a test that failed, and more than the timeout after the one before; ends acknowledged or out of retries; recorded retries are frames minus one |
| Controller.Controller.SendChunks | swarmit/testbed/controller.py:823-834 | frames go out chunk by chunk, by broadcast or to listed devices only; at the end every chunk is acked or out of retries at every device; no retry count exceeds the maximum |
| Controller.Controller.JudgeNext | swarmit/testbed/controller.py:846-852 | one verdict, recorded in the log: success if and only if every ack of the device precedes it there; acks may come in before it, frames are not sent |
| Controller.Controller.Judge | swarmit/testbed/controller.py:846-852 | a verdict on every device, each exact at its place in the log, after the last frame; failures are explained by used-up retries |
| Controller.Controller.Transfer | swarmit/testbed/controller.py:791-853 | fresh flags, frames in order, exact verdicts, failure only where a chunk ran out of retries; every ack heard was sent by that device |
| Controller.Controller.Update | swarmit/client/local.py:78-120 | end to end: every requested device has a result or the START retries are used up; success means the image is in the device's flash; a device whose acks were all heard before the first verdict, or for which no chunk ran out of retries, is a success |
| DualCore.CorePair.HandlePacket | device/network_core/Source/main.c:300-357 | the network core's handling of update packets, ringing doorbells |
| DualCore.StartRings | device/network_core/Source/main.c:300-318 | a START in READY or PROGRAMMING rings its doorbell whatever else is pending, and its session begins |
| DualCore.CorePair.HandleInterrupt | device/bootloader/Source/main.c:516-526 | each doorbell becomes a request flag |
| DualCore.CorePair.ServeRequests | device/bootloader/Source/main.c:393-438 | the application core's two request blocks |
| DualCore.InterruptThenServe | device/bootloader/Source/main.c:393-438 | progress from every state: an interrupt and one application turn acknowledge a START exactly if one is pending, then a chunk exactly if one is, and leave nothing waiting |
| DualCore.ServedOneAtATime | device/bootloader/Source/main.c:393-438 | with each packet served before the next arrives, acks, flash and memory are the single-core device's on the same packets, none left out |
| DualCore.ServeChunkSimulates | device/bootloader/Source/main.c:415-438 | serving a chunk flag is the single-core device handling that packet to the end |
| DualCore.DualRefinesSingle | device/bootloader/Source/main.c:393-438 | acks and flash of the pair are those of the single-core device on the packets served |
| DualCore.ServedFollows | device/network_core/Source/main.c:300-357 | the packets served are those sent, in order, some left out; repeats only when an interrupt is taken late |
| DualCore.DualCoreRefinement | device/network_core/Source/main.c:300-357 | from a quiet state every interleaving with coalesced doorbells and resets gives the flash and acks of the single-core device on the same stream with packets left out, every reset in its place, and packets repeated only where an interrupt is taken late |
| DualCore.LateInterruptRepeats | device/bootloader/Source/main.c:516-526 | repeats are real: two good chunks and a late interrupt have the second one acked twice, as no run without repeats would |
| DualCore.DisorderShows | device/network_core/Source/main.c:325-356 | the condition is needed in every state: once it fails, the next application turn acks a rejected chunk, or a START ahead of an earlier chunk |
| DualCore.SessionIsOrderly | device/network_core/Source/main.c:300-357 | intact packets of one session, STARTs first, always satisfy the condition |
| DualCore.DualCoreIsALink | device/bootloader/Source/main.c:393-438 | on a session's packets, with resets at any time, the pair is to the host a device on a lossy link like any other |
| DualCore.DualCoreHoldsAckedChunks | device/bootloader/Source/main.c:415-438 | safety carries over, with resets at any time: the pair's image pages hold exactly the chunks it acked; when all are acked, the image |
| DualCore.SuccessInstallsOnPair | swarmit/testbed/controller.py:846-853 | the host's verdict of success on a pair means that the pair's flash holds the image |
| IpcHandshake.StepKeepsInv | device/bootloader/Source/ipc.c:23-30 | every store, load and interrupt keeps the handshake invariant |
| IpcHandshake.EveryReturnWasExecuted | device/bootloader/Source/mari.c:36-40 | over every interleaving each returned call was executed once and in its turn, with the packet it was given or the byte drawn for it |
| IpcHandshake.CallExecutedOnce | device/bootloader/Source/rng.c:28-31 | from the start of a call to its return exactly that request is executed, exactly once |
| IpcHandshake.RadioInitialisedOnce | device/network_core/Source/main.c:422-427 | over every interleaving from boot the radio is initialised once if any initialisation request was executed, and never otherwise |
| IpcHandshake.StuckExactlyIfOverwritten | device/network_core/Source/main.c:418-449 | the caller waits on an idle network core if and only if its doorbell fell between net_ack = true and ipc_req = NONE |
| IpcHandshake.OverwrittenNeverReturns | device/network_core/Source/main.c:487-491 | such a call never returns |
| IpcHandshake.PromptSecondCallIsLost | device/network_core/Source/main.c:447-448 | the stuck state is reachable after any request, by a second call made at once |
| IpcHandshake.StuckIsReachable | device/bootloader/Source/ipc.c:23-30 | from boot, any first call followed at once by any second one leads to the stuck state |
| IpcHandshake.OtherwiseCanReturn | device/bootloader/Source/ipc.c:23-30 | from every other reachable state the call in progress can still return |
| Calibration.NetIdPreserved | device/network_core/Source/main.c:148-164 | over any sessions and resets the network id fields and the network in use stay, for a page on which stamping the magic is safe |
| Calibration.CommitKeepsNetworkExactly | device/network_core/Source/main.c:190-202 | a commit keeps the network in use if and only if stamping the magic is safe |
| Calibration.VirginPageIsSafe | device/network_core/Source/main.c:149-164 | a virgin page boots on the default network and is safe |
| Calibration.HearTwice | device/network_core/Source/main.c:358-403 | hearing a packet again, also after the reset it caused, changes nothing: the page is committed word for word |
| Calibration.BlankTakesWord | device/network_core/Source/nvmc.c:20-40 | programming a word on an erased page stores it exactly |
| Calibration.LossySession | device/network_core/Source/main.c:358-403 | for whatever a lossy link lets through: last index heard, each of the 16 page slots holds the blob's matrix if heard, zero if only index 0 was, an older one only if index 0 was lost, and shared memory the same up to the count and zeros from there; last index lost, page and shared memory stay |
| Calibration.LossLeavesCopies | swarmit/testbed/controller.py:607-628 | an in-order lossy link turns five copies of each packet into some number of copies of each |
| Calibration.CalibrationRoundTrip | swarmit/testbed/controller.py:566-628 | if a copy of each index arrives, then after commit and reset the count is the blob's, and shared memory and the committed page hold the blob's matrices followed by zeros |
| Calibration.RoundTripBytes | swarmit/testbed/controller.py:609-615 | the round trip in bytes: byte k of slot j, of the page and of shared memory, is byte 1 + 36 j + k of the file; all words after the last matrix are zero |
| Calibration.OnlyWellFormedPacketsCount | device/network_core/Source/main.c:358-380 | a packet changes something only with a count from 1 to 16 and an index below it |
| Calibration.PageDecides | device/network_core/Source/main.c:148-180 | what each word of the page decides at a reset: matrices only from a stamped page with a count from 1 to 16, the network id only from a stamped page that has one, else 0xA000 |
| CalibrationCode.SendLh2Calibration | swarmit/testbed/controller.py:566-628 | succeeds exactly on valid blobs, and then each destination gets five packets of each index in order, the packets of index i carrying bytes 1 + 36 i to 36 + 36 i of the file; others get nothing |
| CalibrationCode.NetworkCore.LoadConfig | device/network_core/Source/main.c:148-180 | the page into RAM, the chosen network id, and the gated copy of the matrices |
| CalibrationCode.NetworkCore.HandleCalibration | device/network_core/Source/main.c:358-403 | the checks, the zeroing on index 0, the gathering and the commit on the last index; nothing unless READY |
| CalibrationCode.NetworkCore.CommitConfig | device/network_core/Source/main.c:190-214 | magic stamped, page erased, the whole structure written |
| CalibrationCode.NetworkCore.WriteConfig | device/network_core/Source/nvmc.c:30-40 | the word loop on the erased page stores the structure exactly, nothing dropped |
| Lifecycle.RunKeepsInv | device/bootloader/Source/main.c:318-361 | over every run with resets anywhere: the soft-reset reason is seen only before it is cleared and with an intent the code wrote; intent is consumed when settled; STOPPING means the watchdog runs |
| Lifecycle.BootsSpendStarts | device/bootloader/Source/main.c:440-443 | over any stretch of any run, user boots do not outnumber accepted STARTs plus those outstanding at its start |
| Lifecycle.BootsNeverOutnumberStarts | device/network_core/Source/main.c:276-282 | from power-on with arbitrary retained RAM, user boots never outnumber STARTs accepted in READY |
| Lifecycle.StartNeedsReady | device/network_core/Source/main.c:276-282 | a START is accepted if and only if the status is READY and the network core runs and awaits no reset |
| Lifecycle.NoBootUnlessReady | device/network_core/Source/main.c:276-282 | over any run in which a device past its boot, with no START outstanding, is never READY, no START is accepted and the image is not booted: a half-written image is never started |
| Lifecycle.StatusDiagram | device/network_core/Source/main.c:276-306 | the only ways in which the status changes, in the protocol's numbers |
| Lifecycle.PacketsTakeTheirArrows | device/network_core/Source/main.c:276-306 | each packet takes its arrow exactly when the status allows it, and changes nothing otherwise |
| Lifecycle.WatchdogNeedsStop | device/network_core/Source/main.c:283-290 | the STOP watchdog is armed by an accepted STOP only, and every reset disarms it and forgets requests |
| Lifecycle.OneStartOneBoot | device/bootloader/Source/main.c:324-325 | once the image runs, no resets boot it again without a new START |
| Lifecycle.StartBoots | device/bootloader/Source/main.c:440-443 | the bound is reached: a START in READY does boot the image |
| Lifecycle.BootGoesWhereDue | device/bootloader/Source/main.c:318-361 | packets and interrupts during the boot do not change where it leads |
| Lifecycle.HardResetComesUpReady | device/bootloader/Source/main.c:327-331 | a pin or watchdog reset comes up READY unless, exactly, it interrupts a START's boot before the reset reasons are cleared |
| Lifecycle.PowerOnComesUpReady | device/bootloader/Source/main.c:322-331 | power-on comes up READY whatever the retained RAM holds |
| Lifecycle.CommitResetComesUpReady | device/bootloader/Source/main.c:440-448 | the reset after a calibration commit comes up READY exactly if no START was pending |
| Lifecycle.StopLeadsToReady | device/network_core/Source/main.c:283-290 | a STOP accepted in RUNNING, RESETTING or PROGRAMMING leads to READY when its watchdog expires, whatever happens meanwhile |
| Lifecycle.EveryStatusHasAWayBack | device/bootloader/Source/main.c:283-286 | in every reachable settled status STOP plus watchdog leads to READY, exactly when not READY already and the network core listens |
| Lifecycle.PinResetMayBootUserImage | device/bootloader/Source/main.c:319-331 | the exception for pin resets is reachable |
| Lifecycle.CommitDuringBootDeafensTheImage | device/network_core/Source/main.c:358-403 | a commit accepted on the READY that a START's boot begins with leaves the image running without a network core |
| Lifecycle.Board.Boot | device/bootloader/Source/main.c:318-377 | the boot code, uninterrupted, is the five fine steps in a row |
| Lifecycle.Board.ServeResetRequests | device/bootloader/Source/main.c:440-448 | START goes before the commit's reset; the intent is written first |
| Lifecycle.Board.HandleInterrupt | device/bootloader/Source/main.c:528-536 | doorbells become flags |
| Lifecycle.Board.BootAndPass | device/bootloader/Source/main.c:318-448 | a boot and one loop turn: a START's reset boots the image and is spent; otherwise READY, and a reset is asked for exactly if a START or commit came in, for the image exactly if a START did; boots never outnumber STARTs |
| Lifecycle.Board.HandlePacket | device/network_core/Source/main.c:276-306 | the status conditions of the packet switch |
| Localization.ReferenceIsLastAccepted | device/bootloader/Source/localization.c:86-107 | the reference is the last accepted position; rejected readings never move it |
| Localization.OneReading | device/bootloader/Source/localization.c:78-107 | one reading in plain numbers: accepted if and only if calibrated, in the square of 100 m, and within 500 mm of a reference other than (0,0); x and y truncated, each to its own |
| Localization.LowestStationDecides | device/bootloader/Source/localization.c:65-76 | the lowest station with both sweeps gives the coordinates, first sweep first, and alone is used up |
| Localization.AcceptedAreClose | device/bootloader/Source/localization.c:78-100 | accepted positions lie in the arena, each within 500 mm of the one before unless that was (0,0) |
| Localization.Triangle | device/bootloader/Source/localization.c:23-27 | the triangle inequality for squared integer distances |
| Localization.RunsDriftSlowly | device/bootloader/Source/localization.c:91-103 | over accepted positions none of which is (0,0), the n-th is within 500 n mm of the first |
| Localization.OriginForgetsReference | device/bootloader/Source/localization.c:86-89 | after a run that accepted (0,0) last, the next reading is accepted if and only if it is plausible, however far away |
| Localization.NothingAcceptedExactlyIfFar | device/bootloader/Source/localization.c:86-100 | with a reference set, a run accepts nothing if and only if no reading is plausible and near that reference |
| Capture.DrainedInOrder | device/bootloader/Source/localization.c:113-128 | a capture reports ready stations only, each once, ascending, with its counts, at most max |
| Capture.SamplesAreTheStations | device/bootloader/Source/localization.c:113-128 | every sample has the index and the two counts, in order, of a station with both sweeps, which then has neither |
| Capture.NothingIsLost | device/bootloader/Source/localization.c:116-124 | a station is cleared if and only if it was reported; a ready one is left out only by a full capture |
| Capture.CapturesContinue | device/bootloader/Source/localization.c:113-128 | the next capture goes on where a full one stopped: together they are one bigger capture |
| Capture.ReportedAtMostOnce | device/bootloader/Source/localization.c:113-128 | over every run of captures, positions and new data, reports of a station do not outnumber its samples |
| Capture.FrameRoundTrip | swarmit/testbed/protocol.py:63-67 | frames and sample lists correspond one to one; a frame fits the log exactly if it has at most 14 samples |
| Capture.FrameLayout | device/bootloader/Source/main.c:481-490 | the frame byte by byte: 0xCA, then 9 bytes a sample, index, first count, second count, lowest byte first |
| Capture.CaptureIsReadBack | device/bootloader/Source/main.c:472-490 | every capture fits the log buffer and decodes to the drained samples |
| LocalizationCode.LocalizationData.ProcessData | device/bootloader/Source/localization.c:55-63 | data is available if and only if some station is ready |
| LocalizationCode.LocalizationData.GetPosition | device/bootloader/Source/localization.c:65-111 | the filter in place, with stale coordinates when no station is ready |
| LocalizationCode.LocalizationData.GetRawCounts | device/bootloader/Source/localization.c:113-128 | the drain loop reports and clears exactly the first max ready stations |
| LocalizationCode.CaptureLog.ReportCapture | device/bootloader/Source/main.c:475-495 | a requested capture with data becomes one frame that decodes to the drained samples; otherwise nothing changes |
| LocalizationCode.CaptureLog.WriteFrame | device/bootloader/Source/main.c:481-490 | the byte loop writes the documented layout |

## Left out

- Single-core START and STOP, and the user image itself, appear in the update model only as resets that may come at any time (`Boot`); the two-core START, STOP and RESET are in `Lifecycle`.
- The user image does not write the shared status or its own flash, although the hardware lets it.
- Resets raised by the chip's start-up code before `main` (UICR set-up) and by a debugger; every reset is taken to disarm the watchdogs.
- `__WFE`, radio connection waits and NVMC busy-waits: a wait is a step that has not been taken yet.
- Tearing inside one packet or one loop pass of the two-core device, and the hardware mutex: the code locks only the copy, and finer interleavings do break the refinement.
- A packet whose `chunk_size` exceeds its 128-byte payload; the packet type carries at most one chunk. The network core's header and the application core's disagree on the room for a chunk; the model follows the copying code with 128.
- Stores outside the 1 MB of application flash, and erases of pages beyond it, change nothing.
- Images larger than 0xF0000 bytes: their last chunks would lie outside flash.
- Host addresses are numbers instead of hexadecimal strings; `ready_devices` is a field the caller sets, because status reports are not modelled.
- `acked` is returned in order of arrival, not sorted; `missed` is a set.
- Controller.Controller.Update: goes on to the transfer even when devices are missed, where the in-process client stops; this only adds runs.
- The host's clock is a counter of milliseconds that never goes back, and `time.sleep` advances it by at least one.
- Exceptions of the serial or MQTT adapter, packet serialisation and the broadcast of frames to devices outside the session.
- Localization.RunsDriftSlowly: does not model float rounding, because squared distances up to the threshold are small integers and the comparison is exact; NaN coordinates are not modelled.
- The homography computation, the LH2 driver and the battery: positions are what a parameter computes from the counts.
- `lh2_calibration_ready` and the localization start it triggers; log text, log listeners and metrics probes.
- SHA-256, the whole-image hash (computed by the host and compared by no one), progress bars, web server, HTTP client, CLI, dashboard, JWT and reservation database.
- TrustZone set-up, clocks, fault handlers, GPIO and LEDs.
