# Teensy-IO: a verified model

Teensy-IO drives the pins of a Teensy board from a host computer over a serial line. Host
(Python) and firmware (C++) each implement the same framed protocol; the firmware executes
commands on digital, PWM, analog, counter, encoder, I2C and DAC resources, guards its
outputs by an emergency-stop latch and a heartbeat watchdog, and sends events and telemetry
of its own accord.

The project models both ends and the link between them. `dafny verify dfyconfig.toml` checks
all of it.

| module | what it models |
|---|---|
| `Seqs`, `Bits`, `Wire` | sequences and subsequences; numbers as bits; bytes and little-endian fields |
| `Crc`, `Polynomial` | the bit-serial CRC, what it detects, and its definition by polynomial division |
| `Frame`, `Bursts` | the frame layout, exactly which byte strings are frames, and exactly which bursts go unnoticed |
| `HostDecoder`, `Firmware`, `Agreement` | the host's rescanning decoder, the firmware's non-rewinding parser and writer, and where they agree |
| `Calls`, `HostQueue`, `HostThreads`, `Decisions` | numbered commands, the host's command queue, its threads as a transition system over the two locks, and what becomes of each command |
| `HostReceive`, `Telemetry`, `Correlation`, `Confusion` | responses, bounded queues, telemetry and events across the link, and which answer a command gets |
| `Safety`, `Outbound`, `Quadrature`, `Subscriptions` | the firmware's latch and watchdog, outbound ring, encoders, subscription slots |
| `Device`, `Handler`, `RunLoop` | the command handler as a function of the device's state, as an object that implements it, and the main loop |
| `Footprint` | what each command group and an update leave alone |
| `SafeRuns`, `Latch`, `Answers`, `Commands`, `Readings`, `SlotRuns`, `Reports` | safety, when outputs are allowed, answers, effects of commands, what is read, and subscriptions over whole runs of the firmware |
| `EndToEnd` | host threads, wire, firmware loop and host decoder put together |

Code that changes state is modelled by classes whose methods are proved against a value-level
specification (`Scan`, `Push`, `Watch`, `Handle`, `Update`, `FlushWrites`, ...); the theorems
are then about the specification over all inputs and all runs. Hardware is part of the state
(the last duty and level of each pin, the I2C traffic); what the hardware and the clocks
answer during one call is an input, `Device.Env`.

## What the model brings out

- A CRC-valid frame whose kind is not 1 to 7 makes `feed` raise before the buffer is trimmed
  (exactly then: `Agreement.RaisesExactly`): the frame stays in front and every later call
  raises (`HostDecoder.BlockedForever`).
- The firmware completes a frame exactly if its parser is at Start when the frame begins, the
  host delivers it exactly if it begins neither inside a delivered frame nor in the retained
  buffer (`Agreement.FrameTakenExactly`). So after a stray start byte the firmware loses the
  following frame and the host does not (`Agreement.StrayStartByte`).
- The CRC is sent low byte first, so twelve bursts across the end of the body and the CRC go
  unnoticed, although every burst inside the body is caught (`Bursts.BurstNoticedExactly`).
- Sequence number zero is used by telemetry, so the 65536th command can take a telemetry
  frame for its answer (`Confusion.ZeroSequenceConfused`; exact condition in
  `Correlation.FirstMatchIsOwn`; otherwise `EndToEnd.ResponseIsOwn`).
- When a response is found, the later packets of the same chunk are lost
  (`HostReceive.Receiver.ReadResponse`).
- The watchdog is sound if and only if updates are less than 2^32 - 300 ms apart
  (`Safety.WatchedExactly`, with `GapBoundSharp` as an example).
- The rate bound on telemetry holds exactly where no due time wraps
  (`Subscriptions.RateBoundExactly`, with `RateBoundNeedsNoWrap` as an example); if the clock
  wraps before a due slot is visited, the slot is silent for the rest of the turn
  (`Subscriptions.OnTimeExactly`).
- The sixteen-bit cast in DacWriteNormalized spoils some values above 10000 on DACs of 14 and
  more bits (`Device.NormalizedWraps`; exactly which in `Device.NormalizedWriteSends`).
- docs/SAFETY_AND_CONFIG.md lists encoder modes x1, x2 and x4; the firmware stores the mode
  and ignores it, so every encoder counts as x4 (`Commands.EncoderReadsShaft` holds for every
  mode).
- The same document says that the stop rejects output commands that could energise hardware;
  raw I2C writes are not among those the firmware rejects (`SafeRuns.RejectedExactly`), and
  the stop zeroes PWM only.

## Model

| member | source | states |
|---|---|---|
| `Crc.ComputeCrc16` | teensy-io-python/teensy_io/protocol/packet.py:20-29 | the nested byte and bit loops compute the CRC that all the lemmas below speak about |
| `Crc.StepInWords` | teensy-io-firmware/src/protocol/Packet.cpp:10-14 | the shift written with masks, shifts and truncation to sixteen bits is the abstract register step |
| `Crc.StepLinear` | teensy-io-firmware/src/protocol/Packet.cpp:10-14 | one shift distributes over exclusive or |
| `Crc.StepInjective` | teensy-io-firmware/src/protocol/Packet.cpp:10-14 | one shift loses nothing: different registers stay different |
| `Crc.CrcAsBits` | teensy-io-python/teensy_io/protocol/packet.py:22-28 | absorbing bytes is feeding their bits one at a time, most significant first |
| `Crc.BurstDetected` | teensy-io-python/teensy_io/protocol/packet.py:20-29 | two different strings of equal, arbitrary length that differ only inside sixteen consecutive bits have different CRCs |
| `Crc.CrcParity` | teensy-io-python/teensy_io/protocol/packet.py:20-29 | the number of one bits in the CRC has the parity of the number of one bits in the data |
| `Polynomial.FeedDivides` | teensy-io-python/teensy_io/protocol/packet.py:24-28 | from any register value, feeding bits performs one long division: what is left is the remainder of those bits times x^16 with the register added on top |
| `Polynomial.Divides` | teensy-io-python/teensy_io/protocol/packet.py:24-28 | the long division is one: every polynomial is a multiple of the generator x^16+x^12+x^5+1 (section 2 of ITU-T V.41) plus its remainder, the product being schoolbook multiplication of coefficients |
| `Polynomial.DivisionUnique` | teensy-io-python/teensy_io/protocol/packet.py:24-28 | quotient and 16-coefficient remainder are unique |
| `Polynomial.RemainderExactly` | teensy-io-python/teensy_io/protocol/packet.py:24-28 | sixteen coefficients are the remainder if and only if they differ from the polynomial by a multiple of the generator |
| `Polynomial.CrcIsRemainder` | teensy-io-python/teensy_io/protocol/packet.py:20-29 | a 16-bit value is the CRC of some data if and only if it differs by a multiple of the generator from the data's bits times x^16 with ones added to the sixteen leading coefficients: a definition without the register |
| `Frame.EncodedFields` | teensy-io-python/teensy_io/protocol/packet.py:32-46 | every field of an encoding is where the layout puts it, and reading the frame gives back the packet |
| `Frame.WholeFrameIsEncoding` | teensy-io-python/teensy_io/protocol/packet.py:53-98 | conversely a string that passes all the tests for a whole frame is the encoding of the packet read from it, so the round trip holds in both directions |
| `Frame.FrameUnique` | teensy-io-python/teensy_io/protocol/packet.py:32-46 | at most one packet's frame begins a given string |
| `Frame.BurstInBodyRejected` | teensy-io-python/teensy_io/protocol/packet.py:83-88 | a frame whose checksummed bytes outside the length field were hit by a burst of up to sixteen bits begins no frame at that position, whatever follows |
| `Frame.FrameParityEven` | teensy-io-python/teensy_io/protocol/packet.py:32-46 | after its start byte every frame has an even number of one bits |
| `Frame.OddFlipsRejected` | teensy-io-python/teensy_io/protocol/packet.py:83-88 | a frame with an odd number of flipped bits, none in the length field, begins no frame at that position |
| `Bursts.CrcDamaged` | teensy-io-python/teensy_io/protocol/packet.py:20-29 | what damage does to the CRC depends on the damage alone: it is what the register makes of it from zero |
| `Bursts.DamageAcceptedExactly` | teensy-io-python/teensy_io/protocol/packet.py:83-88 | a frame damaged anywhere but in start byte and length field begins a frame if and only if the version is right and the damage to the CRC field is what the register makes, from zero, of the damage to the body |
| `Bursts.BurstNoticedExactly` | teensy-io-python/teensy_io/protocol/packet.py:44-46 | a burst of up to sixteen bits over a frame, start byte and length field spared, goes unnoticed if and only if it is one of twelve that run from the end of the body into the CRC, whose low byte is sent first |
| `HostDecoder.FrameInFront` | teensy-io-python/teensy_io/protocol/packet.py:66-98 | a buffer that begins with the frame of a packet yields exactly that packet, or blocks the decoder if its kind is unknown |
| `HostDecoder.VerdictMeansFrame` | teensy-io-python/teensy_io/protocol/packet.py:66-98 | nothing else is delivered or blocks: the buffer then begins with the frame of that packet |
| `HostDecoder.NoFrameNotDelivered` | teensy-io-python/teensy_io/protocol/packet.py:83-88 | where no frame begins none is accepted, which turns the two error-detection results into rejection by the decoder |
| `HostDecoder.VerdictStable` | teensy-io-python/teensy_io/protocol/packet.py:66-98 | a decision other than to wait does not change when more bytes follow |
| `HostDecoder.ScanContinues` | teensy-io-python/teensy_io/protocol/packet.py:53-100 | scanning the retained bytes together with new ones continues the scan of the whole stream |
| `HostDecoder.ChunkingIrrelevant` | teensy-io-python/teensy_io/protocol/packet.py:53-100 | any split of a stream over `feed` calls gives the same retained buffer and the same packets; once a call raises, those returned are a prefix of the packets of the whole |
| `HostDecoder.KeptBytes` | teensy-io-python/teensy_io/protocol/packet.py:58-81 | between calls the buffer is empty or begins with the start byte, and holds at most 136 bytes unless a frame of unknown kind is in front |
| `HostDecoder.KeptIsScanned` | teensy-io-python/teensy_io/protocol/packet.py:57-100 | nothing more is to be found in the retained bytes alone |
| `HostDecoder.BlockedForever` | teensy-io-python/teensy_io/protocol/packet.py:91-98 | after a CRC-valid frame of unknown kind made a call raise, every later call raises, returns nothing and only adds to the buffer |
| `HostDecoder.OnlyFrames` | teensy-io-python/teensy_io/protocol/packet.py:57-100 | the stream splits into gaps and frames and then the retained bytes: the packets emitted sit in it as frames, in order, without overlap and before what is kept, which is the end of the stream |
| `HostDecoder.NothingMissed` | teensy-io-python/teensy_io/protocol/packet.py:57-100 | every frame inside the stream is emitted, or begins inside an emitted frame, or begins in the retained buffer, which is the end of the stream |
| `HostDecoder.DeliveredExactly` | teensy-io-python/teensy_io/protocol/packet.py:57-100 | a frame of the stream is emitted if and only if it begins neither inside an emitted frame nor in the retained buffer |
| `HostDecoder.PacketDecoder.Feed` | teensy-io-python/teensy_io/protocol/packet.py:53-100 | a `feed` call leaves buffer and packets as the scan of every byte ever fed says and returns just the newly found packets, or raises exactly when that scan meets an unknown kind |
| `HostDecoder.PacketDecoder.Drain` | teensy-io-python/teensy_io/protocol/packet.py:57-100 | the loop of `feed` on a buffer does what the leftmost-greedy scan of it says, also when it raises with part of the buffer consumed |
| `Firmware.PacketParser.PushByte` | teensy-io-firmware/src/protocol/PacketParser.cpp:5-74 | the ten-state parser, whose fields hold the bytes since the last start byte, takes each byte as the abstract reader does and reports a packet exactly when it does |
| `Firmware.PacketParser.Finish` | teensy-io-firmware/src/protocol/PacketParser.cpp:51-71 | the last byte completes the packet if and only if the CRC recomputed from the fields matches, and the parser is back at Start either way |
| `Firmware.PacketParser.Reset` | teensy-io-firmware/src/protocol/PacketParser.cpp:76-81 | reset leaves the parser in a valid Start state |
| `Firmware.FillBuffer` | teensy-io-firmware/src/protocol/PacketWriter.cpp:27-33 | the fixed buffer's used part is exactly the checksummed bytes of the frame |
| `Firmware.PacketWriter.Write` | teensy-io-firmware/src/protocol/PacketWriter.cpp:17-43 | what is appended to the stream is the encoding of the packet with that kind, number and payload |
| `Firmware.PushAllJoins` | teensy-io-firmware/src/protocol/PacketParser.cpp:5-74 | parsing two stretches of bytes one after the other is parsing them joined |
| `Firmware.FrameArrives` | teensy-io-firmware/src/protocol/PacketParser.cpp:5-74 | a parser at rest delivers a frame's packet as its last byte arrives, and nothing before |
| `Firmware.FramesArrive` | teensy-io-firmware/src/protocol/PacketParser.cpp:5-74 | frames back to back are delivered exactly, in order |
| `Firmware.FrameTakenExactly` | teensy-io-firmware/src/protocol/PacketParser.cpp:5-74 | the last byte of a frame completes its packet if and only if the parser was at Start when the frame began |
| `Firmware.NoiseIgnored` | teensy-io-firmware/src/protocol/PacketParser.cpp:7-13 | bytes other than the start byte between frames do nothing |
| `Firmware.PushProgress` | teensy-io-firmware/src/protocol/PacketParser.cpp:5-74 | from any reachable state a byte sends the parser to Start or strictly reduces how many bytes it can still take |
| `Firmware.BackToStart` | teensy-io-firmware/src/protocol/PacketParser.cpp:5-74 | any 136 bytes bring the parser to Start, after at most one packet |
| `Firmware.StretchEffect` | teensy-io-firmware/src/protocol/PacketParser.cpp:5-74 | a stretch without a start byte after its first either finishes what was pending or is swallowed whole |
| `Firmware.Recovers` | teensy-io-firmware/src/protocol/PacketParser.cpp:5-81 | from any state, on clean frames without inner start bytes, the parser reports at most one spurious packet and then exactly a suffix of the packets; every frame beginning 136 or more bytes on is in it |
| `Agreement.WritersAgree` | teensy-io-firmware/src/protocol/PacketWriter.cpp:17-43 | for every packet of at most 128 payload bytes the firmware writes the bytes the host encoder returns, as many as `encoded_size` says |
| `Agreement.HostDelivers` | teensy-io-python/teensy_io/protocol/packet.py:53-100 | on frames of any kind with noise free of start bytes in between, the host decoder delivers exactly the packets before the first of unknown kind, and keeps everything from it on |
| `Agreement.RaisesExactly` | teensy-io-python/teensy_io/protocol/packet.py:91-98 | on such streams the decoder raises if and only if a frame sent is of unknown kind |
| `Agreement.FirmwareDelivers` | teensy-io-firmware/src/protocol/PacketParser.cpp:5-74 | on the same streams the firmware parser delivers exactly the packets sent, of whatever kind |
| `Agreement.ReceiversAgree` | teensy-io-firmware/src/protocol/PacketParser.cpp:5-74 | if all kinds are known both receivers deliver the same packets, the ones encoded, and hold nothing back |
| `Agreement.FrameTakenExactly` | teensy-io-firmware/src/protocol/PacketParser.cpp:5-74 | with any noise, start bytes included: the firmware completes a frame if and only if its parser is at Start when it begins, the host delivers it if and only if it begins neither inside a delivered frame nor in the retained buffer |
| `Agreement.StrayStartByte` | teensy-io-firmware/src/protocol/PacketParser.cpp:14-16 | a stray start byte in front of any frame of known kind tells them apart: the host delivers the packet, the firmware does not complete it, and delivers nothing if the frame has no other start byte |
| `HostQueue.FlushIsGrouping` | teensy-io-python/teensy_io/client.py:241-256 | the writes of an undisturbed flush are an in-order grouping of the queue in which each group fits the chunk size or is a single packet, and together they are the whole queue |
| `HostQueue.FlushStaysAhead` | teensy-io-python/teensy_io/client.py:248-256 | the exchange argument: from any position flush needs no more writes than any in-order grouping of the whole queue |
| `HostQueue.FlushOptimal` | teensy-io-python/teensy_io/client.py:241-256 | no in-order grouping has fewer writes than flush |
| `HostQueue.CommandQueue.QueuePacket` | teensy-io-python/teensy_io/client.py:378-386 | a frame is appended unless it would exceed the limit, in which case nothing changes; the byte count stays right and within the limit |
| `HostQueue.CommandQueue.TakeChunk` | teensy-io-python/teensy_io/client.py:247-255 | one round removes the longest prefix that fits, but at least one packet, and returns its bytes |
| `HostQueue.CommandQueue.Flush` | teensy-io-python/teensy_io/client.py:241-256 | flush terminates with an empty queue and makes exactly the writes shown optimal |
| `HostThreads.StepKeeps` | teensy-io-python/teensy_io/client.py:237-268 | every atomic region under the two locks, taken by any thread at any time, keeps lock, queue, byte count, in-flight chunk and wire in order |
| `HostThreads.StepNumbers` | teensy-io-python/teensy_io/client.py:303-304 | every atomic region keeps the counts of all commands written, in flight, queued and in hand distinct, and a waiting thread's command the last one written |
| `HostThreads.EndToEndDelivery` | teensy-io-python/teensy_io/client.py:303-323 | after any interleaving of commands, batches and flushes of any threads the firmware parser has delivered exactly the packets of the commands written; accepted commands are those flushed, in flight and queued, in order; the byte count is right and within `queue_max_bytes`; no two commands written share a count |
| `HostThreads.NothingStranded` | teensy-io-python/teensy_io/client.py:311-317 | with automatic flushing and no flush rate, whenever packets are queued outside a batch some thread is on its way to flush them |
| `Decisions.DecisionsKept` | teensy-io-python/teensy_io/client.py:308-323 | over any interleaving: a command decided on inside a batch, or wanting no response under a flush rate, is never sent directly, and on the wire it was written by a flush; any other never enters the queue, and if it wants a response its thread waits for it or did |
| `Decisions.NothingFlushedMeanwhile` | teensy-io-python/teensy_io/client.py:311-317 | while a batch is open, or automatic flushing is off or replaced by a rate, nothing queued is written unless somebody calls flush or ends the outermost batch |
| `Decisions.DepthIsOpenBatches` | teensy-io-python/teensy_io/client.py:237-266 | the batch depth is the number of batches begun and not ended |
| `Decisions.FlushWritesAll` | teensy-io-python/teensy_io/client.py:241-256 | a thread that flushes undisturbed makes exactly the writes shown to be fewest and leaves the queue empty and the lock free |
| `Decisions.BatchExitFlushes` | teensy-io-python/teensy_io/client.py:258-268 | ending the outermost batch flushes all that was queued |
| `Decisions.RefusedExactly` | teensy-io-python/teensy_io/client.py:378-386 | the queue refuses a frame if and only if it would hold more bytes than its limit, and then changes nothing |
| `Correlation.StepKeeps` | teensy-io-python/teensy_io/client.py:319-343 | every step of a link between the host and the device of `Device` keeps returned answers right, for commands that can be told apart when they are written |
| `Correlation.OwnMessage` | teensy-io-python/teensy_io/client.py:340-341 | a message with a distinguishable command's number is the device's answer to that command |
| `Correlation.AnsweredWithOwnAnswer` | teensy-io-python/teensy_io/client.py:303-343 | with time-outs, late answers, telemetry, interrupts and discarded messages, a direct command whose number is not zero and within 65535 of every unread older one gets the device's reply to that very command in the state in which the device handled it |
| `Correlation.MistakableExactly` | teensy-io-python/teensy_io/client.py:340-341 | a message is taken for a command's answer if and only if it is asynchronous and the command's count is a multiple of 65536, or answers a command a multiple of 65536 away |
| `Correlation.FirstMatchIsOwn` | teensy-io-python/teensy_io/client.py:339-342 | a waiting command gets its own answer if and only if no message before it is mistakable: the condition above is exact |
| `Confusion.ZeroSequenceConfused` | teensy-io-python/teensy_io/client.py:303-304 | a run from power-up, of host threads and device, in which the 65536th command returns a telemetry frame |
| `HostReceive.TelemetryRoundTrip` | teensy-io-python/teensy_io/client.py:388-413 | kind, id, any 32-bit value and time stamp the firmware packs are what the host unpacks, and an event is never taken for telemetry |
| `HostReceive.BoundedQueue.PutBounded` | teensy-io-python/teensy_io/client.py:417-430 | a full queue loses its oldest item and counts one drop; otherwise nothing is lost |
| `HostReceive.BoundedQueue.GetNowait` | teensy-io-python/teensy_io/client.py:280-286 | takes the oldest item, or reports that there is none |
| `HostReceive.BoundedQueue.Conserved` | teensy-io-python/teensy_io/client.py:417-430 | items put are items taken plus dropped plus queued, and those taken and queued are among those put in order |
| `HostReceive.Receiver.HandleAsyncPacket` | teensy-io-python/teensy_io/client.py:388-414 | a packet of telemetry or an event with a known resource kind goes to its queue, any other packet nowhere |
| `HostReceive.Receiver.Dispatch` | teensy-io-python/teensy_io/client.py:339-342 | the packets of a chunk are handled in order up to the first with the sequence number |
| `HostReceive.Receiver.ReadChunk` | teensy-io-python/teensy_io/client.py:336-342 | one chunk's packets split into those handled, the response if it is there, and the rest, which is lost |
| `HostReceive.Receiver.ReadResponse` | teensy-io-python/teensy_io/client.py:333-343 | over all chunks before the deadline: the packets newly decoded are those handled, none with the number, then the response and the lost rest, or nothing on time-out |
| `HostReceive.Receiver.PollChunk` | teensy-io-python/teensy_io/client.py:352-355 | polling hands every packet newly decoded to the queues, in order |
| `Telemetry.DecodedGrows` | teensy-io-python/teensy_io/protocol/packet.py:53-100 | what a chunk adds to the decoded packets comes after all decoded before |
| `Telemetry.DecodedIsPrefix` | teensy-io-python/teensy_io/protocol/packet.py:53-100 | at any time the packets decoded are the first ones the firmware wrote, and the decoder has not raised |
| `Telemetry.HappeningBalance` | teensy-io-firmware/src/commands/CommandHandler.cpp:145-154 | the telemetry or the events a packet, an update or an interrupt makes the firmware write, followed by what it leaves queued, is in order among what was queued and what it queued |
| `Telemetry.LinkRunsDevice` | teensy-io-firmware/src/main.cpp:18-26 | the device on the link goes through exactly the run's happenings, and what it queued and wrote is what that run makes it queue and write |
| `Telemetry.TelemetryIntegrity` | teensy-io-firmware/src/commands/CommandHandler.cpp:980-985 | for any run of the device from power-up, resets included, interleaved with the host's reads in any way, any chunking and any drops in either queue, what the host program reads is an in-order subsequence of the telemetry that run queued, unaltered, and the decoder never raises |
| `Telemetry.EventIntegrity` | teensy-io-firmware/src/commands/CommandHandler.cpp:964-972 | the same of events, with kind, id, value and time stamp |
| `Telemetry.PutFramesKeepsNewest` | teensy-io-python/teensy_io/client.py:417-430 | the host's queue holds the newest items its size allows |
| `Safety.SafetyState.Heartbeat` | teensy-io-firmware/src/safety/SafetyState.h:11 | a heartbeat notes the time and clears the expiry, not the stop |
| `Safety.SafetyState.Update` | teensy-io-firmware/src/safety/SafetyState.h:13-18 | an overdue heartbeat, in wrapping 32-bit time, latches both flags |
| `Safety.SafetyState.EmergencyStop` | teensy-io-firmware/src/safety/SafetyState.h:21 | the stop is latched and nothing else changes |
| `Safety.SafetyState.ClearEmergencyStop` | teensy-io-firmware/src/safety/SafetyState.h:22-26 | a clear releases both flags and counts as a heartbeat |
| `Safety.EventKeeps` | teensy-io-firmware/src/safety/SafetyState.h:11-28 | an expired watchdog implies the stop; only a clear command, never a heartbeat alone, allows outputs again |
| `Safety.CheckExact` | teensy-io-firmware/src/safety/SafetyState.h:13-18 | under wrapping `millis()` a check at most 2^32-301 ms after the one before is exact: outputs stay allowed if and only if they were and the heartbeat is truly no older than the timeout |
| `Safety.WatchdogHolds` | teensy-io-firmware/src/safety/SafetyState.h:11-28 | in every run from boot with such gaps, after each check outputs are allowed only if the last heartbeat, clear or boot is at most 300 ms ago |
| `Safety.WatchedExactly` | teensy-io-firmware/src/safety/SafetyState.h:13-18 | for checks within a given gap of each other the watchdog is sound over all runs if and only if gap and timeout together stay below 2^32 ms |
| `Safety.GapBoundSharp` | teensy-io-firmware/src/safety/SafetyState.h:14 | an example one millisecond beyond: a heartbeat a whole turn of the clock old passes for fresh |
| `Latch.AllowedExactly` | teensy-io-firmware/src/safety/SafetyState.h:11-28 | over any run from power-up with updates less than 2^32 - 300 ms apart, outputs are allowed if and only if neither a stop packet nor an update that found the heartbeat more than 300 ms old came after the last clear, or boot |
| `Latch.ClearReleases` | teensy-io-firmware/src/commands/CommandHandler.cpp:255-258 | a clear is acknowledged and outputs are allowed after it, whatever was before; nothing else changes |
| `Outbound.FlushCountExact` | teensy-io-firmware/src/commands/CommandHandler.cpp:207-222 | a flush writes only frames the stream reports room for, and stops short of its limit only for want of frames or of room |
| `Outbound.FlushResultIs` | teensy-io-firmware/src/commands/CommandHandler.cpp:207-222 | writing frame by frame moves exactly a prefix of the queue to the wire, as whole frames, and what was accepted is what left plus what is queued |
| `Outbound.OutboundRing.DropOldest` | teensy-io-firmware/src/commands/CommandHandler.cpp:188-193 | a full ring gives up exactly its oldest frame and counts one drop |
| `Outbound.OutboundRing.QueueAsync` | teensy-io-firmware/src/commands/CommandHandler.cpp:184-205 | the ring of 64 slots is a drop-oldest queue: an accepted frame goes to its end, a drop happens only when full, and accepted is written, dropped and queued |
| `Outbound.OutboundRing.RemoveHead` | teensy-io-firmware/src/commands/CommandHandler.cpp:217-219 | freeing the head slot removes the oldest frame and keeps tail = (head + count) mod 64 |
| `Outbound.OutboundRing.StoreTail` | teensy-io-firmware/src/commands/CommandHandler.cpp:194-203 | storing at the tail slot appends a frame and keeps tail = (head + count) mod 64 |
| `Outbound.OutboundRing.FlushOne` | teensy-io-firmware/src/commands/CommandHandler.cpp:210-220 | the oldest frame is written whole and leaves the ring if and only if there is room for it |
| `Outbound.OutboundRing.FlushAsync` | teensy-io-firmware/src/commands/CommandHandler.cpp:207-222 | a flush writes, oldest first, the frames the room allows and keeps the rest |
| `Outbound.OutboundRing.Reset` | teensy-io-firmware/src/commands/CommandHandler.cpp:284-290 | clearing the ring leaves an empty valid queue with no drops counted |
| `Quadrature.StepExact` | teensy-io-firmware/src/commands/CommandHandler.cpp:56-64 | the table gives the index difference for every move of at most one |
| `Quadrature.TracksShaft` | teensy-io-firmware/src/commands/CommandHandler.cpp:79-87 | if the shaft moves at most one index between samples the position changes by exactly its net displacement, in 32 bits, however it chatters or reverses |
| `Quadrature.KeepsPhase` | teensy-io-firmware/src/commands/CommandHandler.cpp:79-87 | for arbitrary samples position plus twice the number of double jumps is congruent modulo 4 to the index difference of last and first state |
| `Subscriptions.ServedReports` | teensy-io-firmware/src/commands/CommandHandler.cpp:954-987 | one visit queues an event and telemetry exactly when its conditions hold, and the event carries the value |
| `Subscriptions.EventsAreChanges` | teensy-io-firmware/src/commands/CommandHandler.cpp:954-975 | a slot without edge filter, with both edges or of another kind reports exactly the samples that differ from their predecessor |
| `Subscriptions.ChangesReplay` | teensy-io-firmware/src/commands/CommandHandler.cpp:954-975 | such a list of changes has no repeats and ends in the last sample |
| `Subscriptions.EventReplay` | teensy-io-firmware/src/commands/CommandHandler.cpp:942-975 | applying the events to the first sample gives the current one after any run, and no event repeats the one before |
| `Subscriptions.RisingEventsCounted` | teensy-io-firmware/src/commands/CommandHandler.cpp:957-963 | with rising edges only, events number the transitions from zero, from the subscription on |
| `Subscriptions.FallingEventsCounted` | teensy-io-firmware/src/commands/CommandHandler.cpp:957-963 | with falling edges only, events number the transitions to zero |
| `Subscriptions.NoEventsUnasked` | teensy-io-firmware/src/commands/CommandHandler.cpp:954-955 | a slot not subscribed on change reports no events |
| `Subscriptions.TelemetryRateBound` | teensy-io-firmware/src/commands/CommandHandler.cpp:977-987 | while the clock does not wrap a slot sends at most 1 + T / max(1, 1000 / rate) frames in T ms, for any schedule of visits |
| `Subscriptions.RateBoundExactly` | teensy-io-firmware/src/commands/CommandHandler.cpp:977-987 | in a window in which the clock does not wrap, that bound holds for every slot of a rate and every schedule if and only if a due time set in the window cannot wrap either |
| `Subscriptions.RateBoundNeedsNoWrap` | teensy-io-firmware/src/commands/CommandHandler.cpp:986-987 | a counterexample where the next due time wraps: two frames of a 1 Hz slot in one millisecond |
| `Subscriptions.TelemetryRateAtLeast` | teensy-io-firmware/src/commands/CommandHandler.cpp:977-987 | visited at most g ms apart, a due slot sends at least 1 + T / (max(1, 1000 / rate) + g) frames in T ms while no due time wraps |
| `Subscriptions.OnTimeExactly` | teensy-io-firmware/src/commands/CommandHandler.cpp:977 | against true time a slot sends when it is due if and only if the clock has not wrapped between the due time and the visit; else it sends early or stays silent |
| `Device.AverageBound` | teensy-io-firmware/src/commands/CommandHandler.cpp:479-485 | the mean never exceeds the converter's full scale nor its normalized form 10000, so neither cast loses anything |
| `Readings.SampledAsAnswered` | teensy-io-firmware/src/commands/CommandHandler.cpp:710-752 | digital pins, analog pins, counters and encoders are sampled as the command that reads them answers in the same state, and where there is nothing to sample the command is rejected; a digital pin reads one exactly if it is high |
| `Readings.AnalogMeans` | teensy-io-firmware/src/commands/CommandHandler.cpp:452-494 | an analog pin configured for n samples answers the mean of n conversions rounded down, low byte first, and its share of full scale in ten-thousandths rounded down |
| `Readings.I2cReadAnswers` | teensy-io-firmware/src/commands/CommandHandler.cpp:843-867 | when an I2C read is accepted, and that it then answers the bytes read, as many as reported but no more than asked for, with zeros where none could be read |
| `Readings.I2cWriteSends` | teensy-io-firmware/src/commands/CommandHandler.cpp:814-842 | when a raw I2C write is transmitted, that it is the payload's bytes to the address given, and that the bus status decides the answer |
| `Readings.BusConfigured` | teensy-io-firmware/src/commands/CommandHandler.cpp:793-813 | when an I2C bus can be configured |
| `Readings.FixedAnswers` | teensy-io-firmware/src/commands/CommandHandler.cpp:234-245 | Ping answers pong; GetInfo answers pins, counters and version in 48 bytes |
| `Readings.DacConfigured` | teensy-io-firmware/src/commands/CommandHandler.cpp:868-890 | when a DAC can be configured, and that it then has the bus, address, channels and resolution given and reads zero |
| `Readings.RawWriteSends` | teensy-io-firmware/src/commands/CommandHandler.cpp:891-909 | a raw DAC write that reaches its bus sends the value given, clamped |
| `Readings.DacReadsLastWrite` | teensy-io-firmware/src/commands/CommandHandler.cpp:753-789 | after any run an active DAC reads as the code its last acknowledged write sent, or zero if configured since; writes the bus did not confirm do not count |
| `Readings.ConfiguredExactly` | teensy-io-firmware/src/commands/CommandHandler.cpp:501-624 | when counters, encoders and analog pins can be configured |
| `Readings.RejectionChangesNothing` | teensy-io-firmware/src/commands/CommandHandler.cpp:113-940 | a rejected packet changes nothing, but for what a bus that did not confirm was sent |
| `Readings.UnknownExactly` | teensy-io-firmware/src/commands/CommandHandler.cpp:113-143 | a packet is rejected as an unknown command if and only if it is a nonempty command and none of the thirty there are |
| `Readings.TooShort` | teensy-io-firmware/src/commands/CommandHandler.cpp:113-940 | anything that is no command, is empty or is shorter than its command needs is rejected as an invalid payload |
| `Device.CodeClamped` | teensy-io-firmware/src/commands/CommandHandler.cpp:764-789 | a DAC write is transmitted if and only if DAC, channel and bus are usable; it is one write of the value clamped to the resolution, high byte first; the slot reads as that code if and only if the bus confirms it |
| `Device.NormalizedExact` | teensy-io-firmware/src/commands/CommandHandler.cpp:925-928 | the code for a normalized value is the one the exact quotient clamps to if and only if it is not in the ranges the sixteen-bit cast spoils: none up to 13 bits, 40003 to 50002 for 14, three ranges for 15, everything above 10000 for 16 |
| `Device.NormalizedWriteSends` | teensy-io-firmware/src/commands/CommandHandler.cpp:910-934 | a DacWriteNormalized packet that reaches its bus sends one write, whose code is the exact one if and only if the value is not spoiled for that DAC's resolution |
| `Device.NormalizedInRange` | teensy-io-firmware/src/commands/CommandHandler.cpp:925-928 | up to 10000 scaling is exact and within the DAC |
| `Device.NormalizedWraps` | teensy-io-firmware/src/commands/CommandHandler.cpp:910-934 | a counterexample: the packet that asks a 16-bit DAC for 10001 sends it code 5 |
| `Footprint.HandleTouches` | teensy-io-firmware/src/commands/CommandHandler.cpp:113-143 | a packet other than a reset leaves the ring alone, subscriptions but for commands on them, and every counter and encoder it does not name; nothing readable stops being readable |
| `Footprint.UpdateTouches` | teensy-io-firmware/src/commands/CommandHandler.cpp:145-154 | an update changes only latch, duties, subscriptions and the ring |
| `SafeRuns.StepIsSafe` | teensy-io-firmware/src/commands/CommandHandler.cpp:145-154 | every packet, update and interrupt keeps PWM safe, and while the stop is latched energises nothing |
| `SafeRuns.ReachableOutputsSafe` | teensy-io-firmware/src/commands/CommandHandler.cpp:224-448 | in every reachable state a nonzero duty is on a configured pin with outputs allowed, and an expired watchdog implies the stop |
| `SafeRuns.StopHolds` | teensy-io-firmware/src/commands/CommandHandler.cpp:224-448 | from latching until a clear command, no sequence of packets, updates and interrupts releases the stop, raises a duty above zero, drives a pin from low to high or sends a DAC code |
| `SafeRuns.StopTakesEffect` | teensy-io-firmware/src/commands/CommandHandler.cpp:250-254 | an emergency-stop packet latches the stop and zeroes every duty before it is answered |
| `SafeRuns.StoppedSince` | teensy-io-firmware/src/commands/CommandHandler.cpp:250-258 | after a stop packet anywhere in a run every duty is zero and nothing is energised for as long as no clear is received |
| `SafeRuns.RunWatch` | teensy-io-firmware/src/safety/SafetyState.h:11-28 | over any run the device's latch and watchdog go through exactly the events of the run |
| `SafeRuns.OverdueHeartbeatStops` | teensy-io-firmware/src/main.cpp:18-26 | an update that finds the heartbeat overdue, in a run with timely updates, leaves outputs blocked and every duty zero |
| `SafeRuns.RejectedExactly` | teensy-io-firmware/src/commands/CommandHandler.cpp:299-448 | a packet is rejected for the stop if and only if outputs are blocked and it is a well-formed digital, PWM or DAC command that could energise; nothing changes then |
| `Handler.CommandHandler.Handle` | teensy-io-firmware/src/commands/CommandHandler.cpp:113-143 | every packet, malformed ones included, is answered by exactly one frame with its own sequence number, and state and answer are those of the device specification |
| `Handler.CommandHandler.HandleSystem` | teensy-io-firmware/src/commands/CommandHandler.cpp:232-297 | system commands are answered exactly once, on every path, with the specified reply and state |
| `Handler.CommandHandler.HandleDigital` | teensy-io-firmware/src/commands/CommandHandler.cpp:299-379 | digital commands are answered exactly once, on every path, with the specified reply and state |
| `Handler.CommandHandler.HandlePwm` | teensy-io-firmware/src/commands/CommandHandler.cpp:381-448 | PWM commands are answered exactly once, on every path, with the specified reply and state |
| `Handler.CommandHandler.HandleAnalog` | teensy-io-firmware/src/commands/CommandHandler.cpp:450-499 | analog commands are answered exactly once, on every path, with the specified reply and state |
| `Handler.CommandHandler.HandleCounter` | teensy-io-firmware/src/commands/CommandHandler.cpp:537-605 | counter commands are answered exactly once, on every path, with the specified reply and state |
| `Handler.CommandHandler.HandleEncoder` | teensy-io-firmware/src/commands/CommandHandler.cpp:607-654 | encoder commands are answered exactly once, on every path, with the specified reply and state |
| `Handler.CommandHandler.HandleSubscription` | teensy-io-firmware/src/commands/CommandHandler.cpp:656-708 | subscription commands, slot search included are answered exactly once, on every path, with the specified reply and state |
| `Handler.CommandHandler.HandleI2c` | teensy-io-firmware/src/commands/CommandHandler.cpp:791-940 | I2C and DAC commands are answered exactly once, on every path, with the specified reply and state |
| `Handler.CommandHandler.HandleI2cWrite` | teensy-io-firmware/src/commands/CommandHandler.cpp:814-842 | raw I2C writes are answered exactly once, on every path, with the specified reply and state |
| `Handler.CommandHandler.HandleI2cRead` | teensy-io-firmware/src/commands/CommandHandler.cpp:843-867 | I2C reads, with zeros where no byte can be read, are answered exactly once, on every path, with the specified reply and state |
| `Handler.CommandHandler.HandleDacWrite` | teensy-io-firmware/src/commands/CommandHandler.cpp:891-935 | raw and normalized DAC writes are answered exactly once, on every path, with the specified reply and state |
| `Handler.CommandHandler.ApplySafeOutputs` | teensy-io-firmware/src/commands/CommandHandler.cpp:224-230 | every configured PWM pin is driven to zero and no other |
| `Handler.CommandHandler.ResetConfig` | teensy-io-firmware/src/commands/CommandHandler.cpp:259-290 | all tables, the ring and the configured duties are cleared |
| `Handler.ReadInto` | teensy-io-firmware/src/commands/CommandHandler.cpp:860-864 | the bytes read from the bus fill the front of a zeroed buffer |
| `Handler.CommandHandler.RemoveSubscriptions` | teensy-io-firmware/src/commands/CommandHandler.cpp:696-700 | all slots of the resource are cleared, the others kept |
| `Handler.CommandHandler.ReadResourceValue` | teensy-io-firmware/src/commands/CommandHandler.cpp:710-762 | reads the resource's value, or none where it is not configured |
| `Handler.CommandHandler.WriteDacRaw` | teensy-io-firmware/src/commands/CommandHandler.cpp:764-789 | transmits and remembers what the specification says |
| `Handler.CommandHandler.ReportChange` | teensy-io-firmware/src/commands/CommandHandler.cpp:954-973 | queues the event of a change exactly when one is due |
| `Handler.CommandHandler.ServeSlot` | teensy-io-firmware/src/commands/CommandHandler.cpp:944-988 | one visit to a slot, including the removal of a slot whose resource is gone |
| `Handler.CommandHandler.UpdateSubscriptions` | teensy-io-firmware/src/commands/CommandHandler.cpp:942-989 | all sixteen slots are visited in order |
| `Handler.CommandHandler.CheckSafety` | teensy-io-firmware/src/commands/CommandHandler.cpp:146-150 | the watchdog is checked and outputs are made safe when it has just blocked them |
| `Handler.CommandHandler.Update` | teensy-io-firmware/src/commands/CommandHandler.cpp:145-154 | an update leaves the specified state and writes exactly the specified frames |
| `Handler.CommandHandler.CounterTick` | teensy-io-firmware/src/commands/CommandHandler.cpp:66-77 | an edge counts, and times the period since the last |
| `Handler.CommandHandler.EncoderTick` | teensy-io-firmware/src/commands/CommandHandler.cpp:79-87 | an edge moves the position by the table's entry for the sampled phases |
| `Handler.MeanOf` | teensy-io-firmware/src/commands/CommandHandler.cpp:479-484 | the sampling loop computes the mean of the first conversions |
| `Answers.StepAnswers` | teensy-io-firmware/src/commands/CommandHandler.cpp:113-168 | a packet makes the firmware write exactly its answer, one reply with the packet's number; updates and interrupts make it write only events and telemetry, with number zero |
| `Answers.AnswerAt` | teensy-io-firmware/src/commands/CommandHandler.cpp:113-168 | the k-th answer of a run is the reply to the k-th packet in the state the device was in when that packet came |
| `Answers.UpdateBalance` | teensy-io-firmware/src/commands/CommandHandler.cpp:145-222 | what an update writes, followed by what it leaves queued, is in order among what was queued and what it queued |
| `Answers.UpdateDrains` | teensy-io-firmware/src/commands/CommandHandler.cpp:145-154 | with room on the stream an update writes up to eight queued frames, puts what subscriptions report behind the rest, keeps the newest 64, and writes up to eight of those |
| `Answers.PutAllKeepsNewest` | teensy-io-firmware/src/commands/CommandHandler.cpp:184-205 | the ring holds the newest 64 of what it held and was given |
| `Answers.EveryPacketAnsweredOnce` | teensy-io-firmware/src/commands/CommandHandler.cpp:113-222 | over whole runs the replies written are the answers to the packets received, one each and in order, and everything else written is an event or telemetry with number zero |
| `SlotRuns.UpdateServesSlot` | teensy-io-firmware/src/commands/CommandHandler.cpp:942-989 | an update serves each slot as if the others were not there, and what it queues is what its slots queue one by one |
| `SlotRuns.SlotsStayReadable` | teensy-io-firmware/src/commands/CommandHandler.cpp:942-953 | no packet, update or interrupt makes an active slot's resource unreadable |
| `SlotRuns.ReachableReadable` | teensy-io-firmware/src/commands/CommandHandler.cpp:942-953 | in every state reachable from power-up an active slot's resource can be read, so the next update leaves every active slot active for the same resource |
| `SlotRuns.SlotRunsAlone` | teensy-io-firmware/src/commands/CommandHandler.cpp:942-989 | over any run that does not take it away a slot is served as if alone, with one sample per update, whatever else happens |
| `SlotRuns.SubscribeTakesSlot` | teensy-io-firmware/src/commands/CommandHandler.cpp:673-685 | an acknowledged Subscribe takes a free slot, due at once and without a value, and leaves the others |
| `SlotRuns.SubscriptionOverRun` | teensy-io-firmware/src/commands/CommandHandler.cpp:942-989 | event replay, rising count and rate bound from an acknowledged Subscribe on, over any run of the whole device that does not take the subscription away |
| `SlotRuns.SubscribeAcceptedExactly` | teensy-io-firmware/src/commands/CommandHandler.cpp:658-688 | a Subscribe is acknowledged if and only if the resource can be read and one of the sixteen slots is free |
| `SlotRuns.SamplesArePins` | teensy-io-firmware/src/commands/CommandHandler.cpp:713-718 | a digital slot's samples over a run are the levels of its pin at the updates |
| `Reports.VisitReports` | teensy-io-firmware/src/commands/CommandHandler.cpp:954-987 | a visit that finds a slot due sends the value just sampled, with the slot's kind and id; an event has them and the visit's time |
| `Reports.TelemetryIsSamples` | teensy-io-firmware/src/commands/CommandHandler.cpp:977-987 | over a run of visits the telemetry is, frame by frame, the sample of the visit that sent it: the first when due and then the first after each interval |
| `Reports.EventsAreSamples` | teensy-io-firmware/src/commands/CommandHandler.cpp:954-973 | the events of a slot that reports every change are the samples that differ from the one before, with their times |
| `Reports.IntervalMeans` | teensy-io-firmware/src/commands/CommandHandler.cpp:986-987 | the interval is a second's share, at least one millisecond |
| `Reports.SubscriptionReports` | teensy-io-firmware/src/commands/CommandHandler.cpp:942-989 | from an acknowledged Subscribe on, over any run of the device, what the host gets is exactly that; for a digital pin, from the pin's levels |
| `RunLoop.MainLoop.TakeByte` | teensy-io-firmware/src/main.cpp:21-23 | a byte goes to the parser, and a packet it completes is handled and answered |
| `RunLoop.MainLoop.Interrupted` | teensy-io-firmware/src/commands/CommandHandler.cpp:89-101 | a counter or encoder interrupt changes its slot as specified and writes nothing |
| `RunLoop.MainLoop.Loop` | teensy-io-firmware/src/main.cpp:18-26 | one turn handles exactly the packets its bytes complete, with interrupts anywhere between the bytes, then updates; device, parser and stream end as those inputs say |
| `EndToEnd.InputsAreRun` | teensy-io-firmware/src/main.cpp:18-26 | however bytes, interrupts and updates follow each other, device, parser and stream end as one run over the whole history leaves them |
| `EndToEnd.HostReadsAnswers` | teensy-io-firmware/src/commands/CommandHandler.cpp:156-168 | whatever the firmware writes from power-up on, the host decodes exactly that, without raising; the replies in it are the answers to the packets parsed, one each and in order |
| `EndToEnd.CommandsAnswered` | teensy-io-python/teensy_io/client.py:303-323 | for any interleaving of host threads and of bytes, interrupts and updates at the firmware, the packets handled are the first packets written, all of them once the wire is read, and the replies the host decodes are the device's answers to exactly those in that order |
| `EndToEnd.DirectCommandAnswered` | teensy-io-python/teensy_io/client.py:319-343 | a thread waits for a direct command whose number is not zero and within 65535 of every unread older one: the first packet after what the host had read that carries its number is the reply of `Device.Handle` to that very command after exactly the commands written before, and there is none until it was handled |
| `EndToEnd.ResponseIsOwn` | teensy-io-python/teensy_io/client.py:333-343 | so is the packet `_read_response` returns from whatever part of the stream has been read |
| `EndToEnd.StopConfirmed` | teensy-io-python/teensy_io/client.py:319-325 | once a thread that sent an emergency stop has its response, the device has handled the stop, every duty has been zero ever since and nothing was energised, whatever is queued or in flight, until a clear is handled |
| `Commands.ResetIsPowerUp` | teensy-io-firmware/src/commands/CommandHandler.cpp:259-292 | ResetConfig leaves the power-up state except for latch and watchdog, digital levels and I2C traffic |
| `Commands.OutputsFollowCommands` | teensy-io-firmware/src/commands/CommandHandler.cpp:299-448 | a pin's level changes only to what an acknowledged digital command for that pin says, and its duty only to zero or to what an acknowledged PWM command for it says |
| `Commands.OutputsAreLastSaid` | teensy-io-firmware/src/commands/CommandHandler.cpp:299-448 | after any run a pin's level is what the last acknowledged digital command for it said, and its duty what the last acknowledged PWM command for it said, or zero if a stop, a reset or an expiring watchdog came after |
| `Commands.AcceptedExactly` | teensy-io-firmware/src/commands/CommandHandler.cpp:299-448 | exactly when an output command, disabling PWM included, is acknowledged, and that it then does what it says to its pin and nothing else |
| `Commands.EncoderLeftAlone` | teensy-io-firmware/src/commands/CommandHandler.cpp:607-654 | only its own edges, a command that names it and a reset change an encoder |
| `Commands.EncoderTracks` | teensy-io-firmware/src/commands/CommandHandler.cpp:79-87 | over any run that does not disturb it an active encoder moves by the shaft's net displacement and reads so |
| `Commands.EncoderReadsShaft` | teensy-io-firmware/src/commands/CommandHandler.cpp:516-648 | an encoder configured or reset at one shaft position reads, after any run that does not disturb it and in which the shaft moves smoothly, as the net displacement since, whatever else happened |
| `Commands.CounterReadsEdges` | teensy-io-firmware/src/commands/CommandHandler.cpp:501-583 | a counter reads, after any run that does not disturb it, as the number of its edges since it was configured or reset, in 32 bits |
| `Commands.FrequencyOfEdges` | teensy-io-firmware/src/commands/CommandHandler.cpp:584-600 | a counter's frequency is a thousand million over the microseconds between its last two edges since it was configured or reset, rounded down, and zero before there are two |
| `Commands.UnsubscribeRemoves` | teensy-io-firmware/src/commands/CommandHandler.cpp:689-703 | after Unsubscribe no slot serves the resource, and the slots of all others are as before |

## Left out

- Serial ports, the I2C bus, interrupts and other Arduino calls: their answers are inputs and their effects are fields of the state; `pinMode`, resolutions, frequencies and bus clocks have no effect in the model.
- Interrupts arrive between bytes, packets and updates, not inside the handling of one; the handler's `noInterrupts` sections are therefore not modelled.
- The clock has one reading per handler call or update, and an analog pin has one list of conversions per call.
- Handler.CommandHandler.HandleI2cRead: `requestFrom` never reports more bytes than were asked for; it may report more than can be read.
- Signed overflow of counts and positions, undefined in C++, is modelled as wrap-around.
- Wall-clock time-outs, thread start and stop, and user callbacks of the host client; a response's chunks are those read before the deadline, and waiting loops of `read_telemetry` and `read_event` are not modelled.
- Concurrent use of the host's decoder: the receive side is single-threaded; threads interleave only on the queue, flush and direct writes.
- Transport errors, lost bytes and payloads the link corrupts in the end-to-end theorems; corruption is treated at the decoder and parser.
- The configuration tables of the firmware are fields of type `seq` that methods reassign, not arrays; the outbound ring, the parser's payload and the CRC buffer are arrays.
- A null payload with a nonzero length in the firmware's writer and queue: no caller passes one.
- `set_watchdog_timeout` has no caller, so the timeout stays 300 ms, and nothing reads the ring's drop counter.
- The host's mapping of replies to results and exceptions (client.py:324-331, 432-439), its resource wrappers, configuration loading and validation, the ROS bridge: flat code.
- The CRC's check value 0x29B1 is not computed; the CRC is pinned by `Polynomial.CrcIsRemainder` for all inputs instead.
- Subscriptions.EventReplay: for a digital slot samples are 0 or 1, which is all `digitalRead` gives.
- Agreement.ReceiversAgree: streams with stray start bytes are outside it; there the receivers differ, and `Agreement.FrameTakenExactly` says of each frame when either takes it.
- Correlation.AnsweredWithOwnAnswer: its channels carry whole packets; the same over bytes, parser and decoder is `EndToEnd.ResponseIsOwn`.
