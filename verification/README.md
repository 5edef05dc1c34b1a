# Verified models of the scrcpy client

Dafny models of the concurrent pipelines and the codecs of the scrcpy C client, with proofs of what
they are meant to guarantee. `dafny verify dfyconfig.toml` checks everything.

How the code is modelled:

- **Threads** are partial step functions over a shared state (`Machine.Reaches`). One step is one atomic
  access, one critical section, or one piece of work between them; a run is any sequence of enabled
  steps, so a result about runs holds for every interleaving. Histories (what was accepted, sent,
  played…) are part of the state, and results relate them.
- **Structures updated in place** are classes with arrays, sequences and flags. Each method is proved
  against a function of its inputs and of the old state; the same functions are the steps of the
  machines.
- **Foreign calls** (SDL, FFmpeg, libusb, sockets, clocks) appear only through what they return:
  success or failure, bytes received, the length of a resampled frame, the current time. Each is a
  parameter of the step or of the method.
- **The device** is only assumed to receive in order, to apply a clipboard before it acknowledges it,
  and to acknowledge in order.

| Files | Contents |
|---|---|
| `machine.dfy`, `optional.dfy`, `arithmetic.dfy`, `counting.dfy`, `sequence_facts.dfy` | runs of step machines, the invariant principle, shared definitions |
| `ring.dfy`, `audio_buffer.dfy`, `regulator_calls.dfy`, `audio_regulator.dfy`, `audio_latency.dfy`, `audio_gap.dfy`, `audio_start.dfy`, `audio_progress.dfy` | the lock-free audio ring, its two consumers and its writer |
| `control_queue.dfy`, `gamepad.dfy`, `gamepad_uhid.dfy`, `hid_bracketing.dfy`, `aoa_hid.dfy`, `acksync.dfy`, `paste_protocol.dfy`, `virtual_finger.dfy` | the control plane: bounded queues, HID life cycles, clipboard acknowledgements, gestures |
| `recorder.dfy`, `recorder_header.dfy`, `recorder_thread.dfy`, `recorder_runs.dfy`, `pts_repair.dfy`, `packet_merger.dfy` | the recorder |
| `frame_mailbox.dfy`, `delay_buffer.dfy`, `stream_clock.dfy` | frame hand-off and delay |
| `receiver.dfy`, `control_msg.dfy`, `wire_format.dfy`, `big_endian.dfy`, `utf8.dfy`, `line_wrap.dfy` | codecs |
| `orientation.dfy`, `letterbox.dfy`, `screen.dfy` | geometry |

## What the proofs say about the code

Five properties one might expect are false of the code as written. Each is stated with the exact
condition under which it holds.

- **Negative timestamps in a recording.** When the recorder is seen stopped while it holds video and
  no audio, the time origin is the video's, and audio that starts earlier gets negative timestamps.
  `Recorder.NegativeTimestamps` gives the exact condition. There are two ways into it:
  `recorder.c:373` reads `stopped` without the mutex, so that audio may have been accepted since the
  critical section (`RecorderRuns.RaceReached`); and the held audio packet may have been a config
  packet, filtered out at line 359 (`RecorderRuns.FilterReached`).
- **A failing assertion in the recorder.** When only one stream is recorded (video with `--no-audio`,
  for instance), a second config packet before its first frame fails the assertion of line 366, or 369
  for audio (`RecorderRuns.AssertionReached`). `Recorder.AssertionsExact` says exactly when; no other
  assertion of the thread can fail, and none can fail when two streams are recorded
  (`Recorder.AssertionsHold`).
- **HID output messages depend on chunking.** The length guard at `device_msg.c:56` compares the other
  way round from the one at line 25. A HID output message with more bytes behind it waits for ever;
  one whose data is not complete is delivered with bytes that were not received, before the assertion
  of `receiver.c:173` fails. A stream is delivered if and only if, for each HID output message, a chunk
  ends exactly at its end and none ends inside its data (`Receiver.HidChunking`).
- **Cursor arithmetic of the audio ring.** `alloc_size + head - tail` in 32 bits is exact up to 2^31
  slots and no further (`Ring.CursorWidthExact`).
- **The maximum level of the audio regulator.** `target_buffering * 11 / 10` wraps around in 32 bits
  from 390451573 samples on (`AudioLatency.MaxBufferedExact`).

## Model

| member | source | states |
|---|---|---|
| Ring.CanReadMeaning | scrcpy/app/src/util/audiobuf.h:62-67 | the 32-bit expression is the number of samples from tail to head, for every pair of cursors |
| Ring.CanWriteMeaning | scrcpy/app/src/util/audiobuf.c:91-97 | the 32-bit expression is the capacity minus that number |
| Ring.CursorWidthExact | scrcpy/app/src/util/audiobuf.c:48-54 | the cursor arithmetic is exact for all cursors if and only if there are at most 2^31 slots |
| Ring.FreeSlot | scrcpy/app/src/util/audiobuf.c:99-112 | a slot within the writable count is none of the slots the reader may read |
| Ring.Publish | scrcpy/app/src/util/audiobuf.c:114-117 | moving the head appends exactly the stored samples to the contents |
| Ring.Release | scrcpy/app/src/util/audiobuf.c:73-76 | moving the tail removes exactly the oldest samples |
| AudioBuffer.AudioBuf.Read | scrcpy/app/src/util/audiobuf.c:35-77 | reads the oldest samples in order (or drops them), as many as asked or available, across the wrap-around |
| AudioBuffer.AudioBuf.Write | scrcpy/app/src/util/audiobuf.c:79-118 | appends the longest prefix that fits and leaves the rest of the contents unchanged |
| AudioBuffer.AudioBuf.WriteSilence | scrcpy/app/src/util/audiobuf.c:120-153 | appends as much silence as fits |
| AudioRegulator.RefinesFifo | scrcpy/app/src/audio_regulator.c:62-271 | in every interleaving the ring holds exactly a FIFO queue within its capacity, and a read in progress has copied its oldest samples |
| AudioRegulator.SamplesConserved | scrcpy/app/src/audio_regulator.c:140-271 | everything accepted is, in order, played, dropped or still buffered; what is played is what is heard; everything offered is accepted |
| AudioRegulator.PullFillsOutput | scrcpy/app/src/audio_regulator.c:62-119 | every pull fills exactly the samples asked for, with audio or silence |
| AudioRegulator.AssertionsHold | scrcpy/app/src/audio_regulator.c:221-267 | the assertions of lines 225, 235 and 267 never fail |
| AudioRegulator.WriterAvoidsLiveSlots | scrcpy/app/src/audio_regulator.c:207-238 | the writer, which takes no lock to write, never stores into a slot that has not been released |
| AudioRegulator.NoDeadlock | scrcpy/app/src/audio_regulator.c:213-271 | inside a call a thread can step, or waits for the mutex of one that can |
| AudioProgress.CallsEnd | scrcpy/app/src/audio_regulator.c:62-271 | each step of a thread inside a call leaves fewer steps of that call, whatever the other thread does: at most four times the capacity and 28 for a push, the capacity and 6 for a pull |
| AudioLatency.LatencyBounded | scrcpy/app/src/audio_regulator.c:240-271 | between two pushes, in every interleaving, at most the maximum level is buffered |
| AudioLatency.DropsOnlyExcess | scrcpy/app/src/audio_regulator.c:213-268 | over every interleaving: samples are only dropped from a full ring, as many as the frame lacks, or above the maximum level, exactly down to it |
| AudioStart.StartsAtTarget | scrcpy/app/src/audio_regulator.c:62-92 | over every interleaving: only silence is heard until a pull finds the target buffered |
| AudioStart.PullReadsAll | scrcpy/app/src/audio_regulator.c:71-92 | over every interleaving: a pull is silent only before the target is first reached; otherwise it reads all it asks for, or all that is buffered |
| AudioLatency.MaxBufferedExact | scrcpy/app/src/audio_regulator.c:248-255 | the level computed in 32 bits is the intended one if and only if no product wraps around |
| RegulatorCalls.Regulator.Pull | scrcpy/app/src/audio_regulator.c:62-119 | a pull alone: the oldest samples then silence, or only silence before the target is first reached |
| RegulatorCalls.Regulator.Push | scrcpy/app/src/audio_regulator.c:140-284 | a push alone: after a discontinuity, what was buffered is followed by silence only, so that with the input samples it makes up the target, or by none if it was reached; then the ring keeps the newest of this and the frame, up to its capacity and then the maximum level |
| AudioGap.GapsBridged | scrcpy/app/src/audio_regulator.c:148-158 | over every interleaving: what was buffered when a discontinuity was measured, the silence published for it right after and the input samples make up the target; no silence if it was reached |
| AudioGap.MeasuredOnce | scrcpy/app/src/audio_regulator.c:146-158 | each push with a discontinuity is measured once, from what is buffered then, and no other one is |
| RegulatorCalls.NewestSuffix | scrcpy/app/src/audio_regulator.c:198-205 | ignoring the start of a frame larger than the ring changes nothing to what is kept |
| StreamClock.Clock.Update | scrcpy/app/src/clock.c:17-32 | the range grows by one up to 32; the error is scaled by the range minus one over 32, up to a truncation toward zero |
| StreamClock.WarmUp | scrcpy/app/src/clock.c:11-28 | after any n observations the range is the smaller of n and 32; the next one scales the error by the smaller of n and 31 over 32, up to a truncation toward zero |
| StreamClock.OffsetWithinObserved | scrcpy/app/src/clock.c:17-32 | after any non-empty run the offset lies between the smallest and the largest observed difference, despite truncation |
| StreamClock.ConstantObservation | scrcpy/app/src/clock.c:17-32 | under a constant difference the error never grows, and shrinks strictly while above 31 |
| StreamClock.Converges | scrcpy/app/src/clock.c:17-32 | the error is at most 31 after at most as many updates as the initial error |
| StreamClock.SettledExactly | scrcpy/app/src/clock.c:17-32 | which offsets are fixed points, exactly |
| DelayBuffer.Buffer.PushFrame | scrcpy/app/src/delay_buffer.c:178-222 | a push updates the clock and queues the frame, hands it back for immediate delivery, or refuses it |
| DelayBuffer.Buffer.ComputeDeadline | scrcpy/app/src/delay_buffer.c:54-64 | the deadline is the earlier of the estimated time plus the delay and the pop time plus the delay |
| DelayBuffer.FramesConserved | scrcpy/app/src/delay_buffer.c:35-108 | delivered, in delivery and queued frames are exactly the accepted ones, in order; those delivered are always the first ones |
| DelayBuffer.StoppedForGood | scrcpy/app/src/delay_buffer.c:48-77 | from a stopped state on, in every run, no frame is accepted or taken from the queue, and only those already about to be delivered are |
| DelayBuffer.FailureEnds | scrcpy/app/src/delay_buffer.c:84-93 | a delivery that fails is the last one of the thread, which then stops the buffer |
| DelayBuffer.DeadlineBounded | scrcpy/app/src/delay_buffer.c:54-68 | the thread waits for the deadline of the current clock or has been signaled to compute it again, never later than the pop time plus the delay |
| DelayBuffer.DeadlineCurrent | scrcpy/app/src/delay_buffer.c:53-68 | each time it starts to wait, the thread computes the deadline of the current clock |
| DelayBuffer.DeliveredWhenDue | scrcpy/app/src/delay_buffer.c:59-87 | in every run, no frame is delivered before the deadline waited for, itself at most the pop time plus the delay; exactly the first frame, if so requested, has no deadline |
| DelayBuffer.WaitCanEnd | scrcpy/app/src/delay_buffer.c:59-87 | from the pop time plus the delay on, the frame can be delivered |
| DelayBuffer.DirectIsFirst | scrcpy/app/src/delay_buffer.c:193-196 | only the first frame is delivered directly, and nothing else is accepted before it is |
| FrameMailbox.FrameBuffer.Push | scrcpy/app/src/frame_buffer.c:49-75 | replaces the pending frame and tells whether it was still unconsumed; no change if the frame cannot be referenced |
| FrameMailbox.FrameBuffer.Consume | scrcpy/app/src/frame_buffer.c:77-88 | returns the pending frame and marks it consumed |
| FrameMailbox.OneToken | scrcpy/app/src/v4l2_sink.c:118-326 | for the flag and for the events, a frame is unconsumed if and only if exactly one notification is about to be given, pending or in use |
| FrameMailbox.AssertionHolds | scrcpy/app/src/frame_buffer.c:78-81 | `assert(!pending_frame_consumed)` never fails: there is a frame whenever the consumer is about to consume |
| FrameMailbox.ConsumesLatest | scrcpy/app/src/screen.c:684-706 | each consume gets the most recently pushed frame |
| FrameMailbox.FramesConserved | scrcpy/app/src/screen.c:298-324 | frames are consumed in order and at most once; each is consumed, skipped or pending |
| FrameMailbox.LostOnlyAtTheEnd | scrcpy/app/src/screen.c:310-321 | the flag is never lost; an event that cannot be posted ends the producer: nothing is pushed or consumed after it, and exactly the last frame is never displayed |
| FrameMailbox.LastFrameConsumed | scrcpy/app/src/v4l2_sink.c:118-141 | once no notification is left and none was lost, the last frame pushed has been consumed |
| FrameMailbox.StopsConsuming | scrcpy/app/src/v4l2_sink.c:118-141 | once stopped, in every run, at most the frame already notified is still consumed |
| FrameMailbox.FailureEndsProducer | scrcpy/app/src/screen.c:298-324 | a frame that cannot be referenced and an event that cannot be posted end the producer |
| ControlQueue.Controller.PushMsg | scrcpy/app/src/controller.c:92-124 | the queue after a push; pushing without reallocation never exceeds the reserved capacity |
| ControlQueue.Controller.Take | scrcpy/app/src/controller.c:153-168 | takes the oldest message, nothing once stopped |
| Gamepads.Find | scrcpy/app/src/hid/hid_gamepad.c:213-223 | the first slot of a gamepad, -1 if and only if there is none |
| Gamepads.HidGamepad.GenerateOpen | scrcpy/app/src/hid/hid_gamepad.c:238-257 | takes the first free slot and resets it |
| Gamepads.HidGamepad.GenerateClose | scrcpy/app/src/hid/hid_gamepad.c:259-276 | frees the slot of the gamepad |
| Gamepads.HidGamepad.GenerateInputFromButton | scrcpy/app/src/hid/hid_gamepad.c:370-407 | sets or clears the button of the gamepad's slot |
| Gamepads.HidGamepad.GenerateInputFromAxis | scrcpy/app/src/hid/hid_gamepad.c:409-454 | moves the axis of the gamepad's slot |
| Gamepads.HandleMeaning | scrcpy/app/src/hid/hid_gamepad.c:238-454 | exactly the events with a slot and a known control send something and change only that slot: an open turns a free slot into the gamepad's, centered and released; inputs and closes concern the gamepad's slot and its report |
| Gamepads.MasksDisjoint | scrcpy/app/src/hid/hid_gamepad.c:331-368 | two buttons never share a bit |
| Gamepads.MaskBits | scrcpy/app/src/hid/hid_gamepad.c:396-401 | pressing or releasing a button sets or clears its bit and no other |
| Gamepads.AxesIndependent | scrcpy/app/src/hid/hid_gamepad.c:425-449 | an axis event moves its own axis in the report, rescaled or clamped, and no other |
| Gamepads.HatDirection | scrcpy/app/src/hid/hid_gamepad.c:278-310 | the two axes of the hat switch are independent; up wins over down and left over right |
| Gamepads.ReportLayout | scrcpy/app/src/hid/hid_gamepad.c:312-329 | the slot state can be read back from the 15-byte report |
| Gamepads.ButtonInReport | scrcpy/app/src/hid/hid_gamepad.c:164-186 | a button sets or clears its documented bit of the report and changes nothing else in it |
| Gamepads.DpadInReport | scrcpy/app/src/hid/hid_gamepad.c:187-194 | a button of the directional pad changes only the hat switch, which follows the four buttons held |
| GamepadUhid.Gamepad.Process | scrcpy/app/src/uhid/gamepad_uhid.c:66-129 | each handler changes the slots and pushes at most one message |
| GamepadUhid.WellBracketed | scrcpy/app/src/uhid/gamepad_uhid.c:66-129 | however full the queue, what is sent for each hid id is a prefix of (CREATE INPUT* DESTROY)*; with the queue it is open exactly for the slots in use |
| GamepadUhid.DroppablesLimited | scrcpy/app/src/controller.c:100-120 | at most 60 droppable messages are ever queued |
| GamepadUhid.LifecycleKept | scrcpy/app/src/controller.c:92-124 | in every run, none of the opens and closes of gamepads is dropped or reordered, and gamepads only use the hid ids 3 to 10 |
| AoaHid.Aoa.PushInputWithAckToWait | scrcpy/app/src/usb/aoa_hid.c:224-256 | the queue after an input; no reallocation |
| AoaHid.Aoa.PushNonDroppable | scrcpy/app/src/usb/aoa_hid.c:258-318 | the queue after an open or a close, which is never dropped |
| AoaHid.InputsLimited | scrcpy/app/src/usb/aoa_hid.c:236-253 | in every run, at most 60 inputs are ever queued |
| AoaHid.AoaThread.ProcessEvent | scrcpy/app/src/usb/aoa_hid.c:320-402 | the ids to unregister, the ids registered and the reports transferred after one event, for every outcome of the transfers and of the wait |
| AoaHid.AoaThread.UnregisterAll | scrcpy/app/src/usb/aoa_hid.c:431-444 | unregisters exactly the ids of the list |
| AoaHid.OpenIsRegistered | scrcpy/app/src/usb/aoa_hid.c:358-398 | whatever registrations fail, the list holds exactly the ids registered on the device, without duplicates |
| AoaHid.ExitsClean | scrcpy/app/src/usb/aoa_hid.c:404-445 | once stopped or interrupted the thread exits, with nothing registered |
| AoaHid.StopsProcessing | scrcpy/app/src/usb/aoa_hid.c:414-418 | after a stop no event is processed any more |
| AoaHid.ProcessedInOrder | scrcpy/app/src/usb/aoa_hid.c:404-429 | events are processed per id as a prefix of (OPEN INPUT* CLOSE)* |
| AckSync.Acksync.Wait | scrcpy/app/src/util/acksync.c:43-64 | the wait ends in the first state where it may, with the result for that state |
| PasteProtocol.PasteAfterClipboard | scrcpy/app/src/input_manager.c:564-591 | over all threads: the report pushed for a paste always waits, and is sent only after the device applied the clipboard message with its number and its very text |
| PasteProtocol.PasteIsReported | scrcpy/app/src/input_manager.c:585-613 | the report of every paste that is not refused is one of these, whatever the other threads do in between |
| PasteProtocol.ReportAfterClipboard | scrcpy/app/src/usb/aoa_hid.c:324-349 | any report that waits is sent only after the device applied a clipboard with that number |
| PasteProtocol.AgreesWithThread | scrcpy/app/src/usb/aoa_hid.c:320-357 | the machine sends the same reports and goes on in the same cases as the thread of `AoaHid` |
| PasteProtocol.ClipboardsInOrder | scrcpy/app/src/input_manager.c:573-590 | the device applies the clipboards of pastes once each, numbered 1, 2, 3… |
| PasteProtocol.ReportsInOrder | scrcpy/app/src/usb/aoa_hid.c:224-356 | reports are processed in push order, and sent in that order but for those discarded or not transferred |
| PasteProtocol.AcksMonotonic | scrcpy/app/src/util/acksync.c:30-41 | the assertion of line 35 never fails: acknowledgements increase one by one |
| PasteProtocol.OnlyUnackedDiscarded | scrcpy/app/src/usb/aoa_hid.c:324-349 | in every run, a processed report was discarded if and only if it waited and its acknowledgement had not come at the timeout, or the wait was interrupted |
| VirtualFinger.InputManager.ProcessMouseMotion | scrcpy/app/src/input_manager.c:652-664 | the virtual finger follows the mouse while it is down |
| VirtualFinger.InputManager.ProcessMouseButton | scrcpy/app/src/input_manager.c:813-880 | when the virtual finger goes down and up, and with which reflection |
| VirtualFinger.Gestures | scrcpy/app/src/input_manager.c:813-880 | over all runs, pauses and refusals, the accepted messages are a prefix of (DOWN MOVE* UP)*, each gesture under one fixed reflection: through the center for Ctrl, the vertical axis for Shift, the horizontal axis for both |
| VirtualFinger.SentWhenConcerned | scrcpy/app/src/input_manager.c:813-880 | exactly the presses with Ctrl or Shift, the motions while down and the releases send a message, if there is room; a refused one changes nothing to the gesture |
| VirtualFinger.ReflectionInvolutive | scrcpy/app/src/input_manager.c:357-367 | a reflection is its own inverse and keeps points inside the frame |
| RecorderHeader.HeaderHolds | scrcpy/app/src/recorder.c:182-282 | in every run the header takes the first packet pushed to a stream or none; taken without a stop it has one for the video recorded and for the audio recorded that expects a config packet; written, it misses none that was pushed |
| RecorderHeader.RecordsEverything | scrcpy/app/src/recorder.c:182-459 | on a clean end the file has, per stream, the first packet pushed as its configuration (for video, and for audio that expects one) and exactly the media packets ever pushed, once each and in order |
| Recorder.Durations | scrcpy/app/src/recorder.c:391-438 | each video packet but the last lasts until the next one on the rebased clock, the last one 100000 |
| Recorder.NegativeTimestamps | scrcpy/app/src/recorder.c:364-392 | for nondecreasing inputs video timestamps are nonnegative, and audio's are if and only if the origin was not chosen late before earlier audio |
| RecorderRuns.RaceReached | scrcpy/app/src/recorder.c:373-377 | a complete run with the unlocked read that writes an audio packet at -5 |
| RecorderRuns.FilterReached | scrcpy/app/src/recorder.c:356-377 | a complete run with a filtered config packet that writes an audio packet at -5 |
| RecorderRuns.AssertionReached | scrcpy/app/src/recorder.c:364-366 | a run that records video alone and fails the assertion of line 366 |
| Recorder.AssertionsExact | scrcpy/app/src/recorder.c:351-370 | a reachable step that chooses the origin fails an assertion if and only if the only stream recorded starts with a config packet after the header |
| Recorder.AssertionsHold | scrcpy/app/src/recorder.c:200-389 | in every run, no assertion of the thread fails but those of lines 366 and 369, each only for such a stream; recording one never ends cleanly |
| Recorder.AssertedFacts | scrcpy/app/src/recorder.c:210-347 | in every run, what the assertions of the critical sections ask for holds before them |
| Recorder.OriginChosen | scrcpy/app/src/recorder.c:351-389 | the origin is chosen at once, as the earliest time, when every stream recorded gives a media packet; late only once stopped and without audio |
| Recorder.WrittenOnlyIfOk | scrcpy/app/src/recorder.c:391-427 | a packet counts as written only if its write succeeds; a failed write ends the loop |
| Recorder.TakeProgress | scrcpy/app/src/recorder.c:299-349 | once stopped the loop never waits, and taking leaves less to do |
| Recorder.ProcessProgress | scrcpy/app/src/recorder.c:351-427 | once stopped an iteration that does not end the loop leaves less to do |
| RecorderThread.Thread.TakeHeader | scrcpy/app/src/recorder.c:210-231 | the critical section of the header in place is the step of the machine |
| RecorderThread.Thread.Take | scrcpy/app/src/recorder.c:313-349 | the critical section in place is the step of the machine |
| RecorderThread.Thread.Process | scrcpy/app/src/recorder.c:351-427 | the rest of the loop in place is the step of the machine |
| RecorderThread.Thread.Drain | scrcpy/app/src/recorder.c:296-459 | after a stop the loop terminates with the queues written completely, or a write failed |
| PtsRepair.RecorderStream.Write | scrcpy/app/src/recorder.c:106-121 | the timestamp written in place extends the specified sequence |
| PtsRepair.RepairedIsMaximum | scrcpy/app/src/recorder.c:111-119 | each written timestamp is the maximum over earlier packets j of in[j] + (i - j), for any input |
| PtsRepair.RepairedIncreasing | scrcpy/app/src/recorder.c:111-119 | written timestamps increase strictly and are never below the input |
| PtsRepair.RepairedIsLeast | scrcpy/app/src/recorder.c:111-119 | they are the least such sequence |
| PtsRepair.RepairedUnchanged | scrcpy/app/src/recorder.c:111-119 | nothing changes if and only if the input increases strictly |
| PacketMerger.Merger.Merge | scrcpy/app/src/packet_merger.c:19-52 | the config kept and the merged packet, with the overlapping move in place |
| PacketMerger.BytesConserved | scrcpy/app/src/packet_merger.c:19-52 | no media byte is lost or reordered; a config not replaced by another comes just before the next media packet |
| Receiver.ParseWhole | scrcpy/app/src/device_msg.c:10-48 | an encoded message is parsed whatever follows it |
| Receiver.ParsePart | scrcpy/app/src/device_msg.c:20-44 | every strict prefix of one is an incomplete message |
| Receiver.ReceiverThread.ProcessMsgs | scrcpy/app/src/receiver.c:156-178 | delivers what parsing the buffer yields |
| Receiver.ReceiverThread.Receive | scrcpy/app/src/receiver.c:180-212 | after a chunk the buffer holds exactly the unparsed rest, moved in place to its start |
| Receiver.ParseHid | scrcpy/app/src/device_msg.c:49-73 | what each part of a HID output message parses as: incomplete, over-read, whole, or waiting for ever with bytes behind it |
| Receiver.ReceivedStream | scrcpy/app/src/receiver.c:156-212 | for any chunks of the received part of any stream: exactly the messages it fully contains and the rest if the chunks suit its HID output messages, and otherwise one is over-read or waits for ever |
| Receiver.HidChunking | scrcpy/app/src/device_msg.c:49-73 | a whole stream is delivered if and only if for each HID output message a chunk ends at its end and none inside its data |
| Receiver.HidCutInTwo | scrcpy/app/src/receiver.c:169-173 | a HID output message cut in two is delivered if and only if the cut is inside its header; otherwise it is over-read |
| Receiver.ChunkIndependent | scrcpy/app/src/receiver.c:156-212 | for any split of a stream of clipboards and acknowledgements the delivered messages are those of one-shot parsing, and the buffer has room before each receive |
| Receiver.UhidOutputGuard | scrcpy/app/src/device_msg.c:49-73 | on any received bytes, a HID output message is parsed, over-read or waits, according to how its end compares with theirs |
| Receiver.UhidOutputDependsOnChunks | scrcpy/app/src/device_msg.c:49-73 | any such message is delivered when received alone, and not when any other bytes come with it |
| ControlMessages.SerializeInto | scrcpy/app/src/control_msg.c:103-197 | the bytes written in place are the specified ones and fit in 2^18 |
| ControlMessages.RoundTrip | scrcpy/app/src/control_msg.c:103-197 | every message is decoded (up to text truncation) from its bytes, whatever follows them |
| ControlMessages.StreamRoundTrip | scrcpy/app/src/control_msg.c:103-197 | any list of messages is decoded from its concatenated bytes |
| ControlMessages.SizeLimit | scrcpy/app/src/control_msg.c:148-153 | every message fits, and which clipboards reach the maximum exactly |
| WireFormat.Touch | scrcpy/app/tests/test_control_msg_serialize.c:77-114 | places and codes of the fields of a touch message |
| WireFormat.Clipboard | scrcpy/app/tests/test_control_msg_serialize.c:234-256 | the same of a clipboard message |
| WireFormat.Uhid | scrcpy/app/tests/test_control_msg_serialize.c:326-397 | the same of the messages of a HID device |
| BigEndian.RoundTrip64 | scrcpy/app/src/util/binary.h:37-64 | reading back a written 64-bit value |
| BigEndian.WriteOfRead | scrcpy/app/src/util/binary.h:49-57 | writing back a read value restores its bytes |
| BigEndian.MostSignificantFirst | scrcpy/app/src/util/binary.h:49-64 | what is read is the number whose digits in base 256 are the bytes, the most significant first |
| Utf8.ComputeTruncationIndex | scrcpy/app/src/util/str.c:188-202 | the loop finds the last character boundary within the limit |
| Utf8.LongestValidPrefix | scrcpy/app/src/util/str.c:188-202 | on valid UTF-8 (section 4 of RFC 3629) the result is the longest valid prefix within the limit |
| LineWrap.WrapLines | scrcpy/app/src/util/str.c:242-319 | the output is the wrapping of the input, in which a space becomes a new line exactly when the next word would not fit; every line fits unless it is the indent and one word |
| LineWrap.WrappingUnique | scrcpy/app/src/util/str.c:242-319 | an input has exactly one wrapping |
| LineWrap.WrappingKeepsText | scrcpy/app/src/util/str.c:242-319 | a wrapping keeps the words in order, and every explicit newline between the same two words |
| Orientations.GroupAction | scrcpy/app/src/options.c:118-152 | for all sizes and points, mapping through a composition is mapping through its transform, then its source |
| Orientations.ApplyUnique | scrcpy/app/src/screen.c:873-925 | the composition is the only one compatible with the coordinate conversion |
| Orientations.Associative | scrcpy/app/src/options.c:118-152 | composition is associative |
| Orientations.Group | scrcpy/app/src/options.c:118-152 | orientation 0 is the identity and every orientation has an inverse |
| Orientations.ToFrameOfRendered | scrcpy/app/src/display.c:316-335 | for every orientation, size and point, the conversion undoes what is displayed: an optional horizontal flip, then that many quarter turns clockwise |
| Orientations.RenderedOfToFrame | scrcpy/app/src/screen.c:890-925 | and what is displayed undoes the conversion |
| Orientations.RenderedTwice | scrcpy/app/src/options.c:118-152 | a composition displays what its source displays, then transformed |
| Letterbox.OptimalSizeIsOptimal | scrcpy/app/src/screen.c:87-130 | the optimal size does not exceed the current size or the display, keeps a dimension, is optimal and a fixed point |
| Letterbox.ContentRectCentered | scrcpy/app/src/screen.c:164-202 | the content lies in the drawable, touches two borders, and its margins are equal up to one pixel |
| Letterbox.ContentRectIsOptimal | scrcpy/app/src/screen.c:164-202 | the two pieces of code compute the same size |
| Letterbox.PointsMapIntoFrame | scrcpy/app/src/screen.c:873-925 | in all eight orientations a point of the content maps into the closed frame rectangle |
| Screens.Screen.UpdateContentRect | scrcpy/app/src/screen.c:164-202 | the rectangle in place is the specified one |
| Screens.Screen.SetOrientation | scrcpy/app/src/screen.c:589-606 | the content is always the frame in the current orientation |
| Screens.Screen.ConvertDrawableToFrame | scrcpy/app/src/screen.c:873-928 | after any changes the result is the point of the current frame that is displayed there, up to one unit of the content; inside the content it is inside the frame |
| Screens.OneResize | scrcpy/app/src/screen.c:556-587 | however often the content changes out of windowed mode there is one resize back, from the first content size to the last |
| Screens.ScaleKept | scrcpy/app/src/screen.c:540-554 | a window that is not bounded by the display keeps the scale of its content when the content changes |

## Left out

- LineWrap.WrapLines: an input that ends with a space gets that space after the wrapped text, so its last line may be one character too long; the line bound is then stated without that space.
- Receiver.ChunkIndependent: only clipboards and acknowledgements, because it is false for HID output messages; `Receiver.HidChunking` has the exact condition. What follows the failed assertion of `receiver.c:173` is not modelled.
- RecorderHeader.RecordsEverything: timestamps are those before the rescaling to the time base of the file, which is FFmpeg's; the repair that follows it is in `PtsRepair`.
- AoaHid.ExitsClean: unregistering an id that is registered is taken to succeed.
- PasteProtocol.ClipboardsInOrder: fewer than 2^64 pastes, so that the sequence does not wrap.
- ControlMessages.RoundTrip: a text does not start with a continuation byte, for which the truncation loop of `str.c:196` would leave the string; floating-point values are given as the 16 bits they are converted to.
- Letterbox.OptimalSizeIsOptimal: products of sizes are mathematical integers; the source computes them in 32 bits.
- The clock compensation of the audio regulator, its average level and its underflow count.
- Memory orders weaker than the interleaving of acquire loads and release stores.
- The growable ring under the queues (`vecdeque.h`) is a sequence with a capacity; out-of-memory paths.
- `sc_str_parse_integer_with_suffix` and `sc_str_list_contains`: parsers without state.
- The synchronisation of Caps Lock and Num Lock with the device.
- Command-line options, keycode tables, report descriptors and the calls to SDL, FFmpeg, libusb and adb.
- The final clearing of the recorder's queues and the messages of the mouse itself beside the virtual finger.
