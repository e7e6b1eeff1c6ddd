# TinyBrite A6281 driver chain — a Dafny model

TinyBrite drives a daisy chain of A6281 PWM LED drivers (ShiftBrite,
MegaBrite) by bit-banging: each 32-bit packet is shifted into the chain most
significant bit first, one clock pulse per bit. A latch pulse then makes every
chip adopt the packet in its shift register. This project models the core of
the library:

- **Packet encoding** (`packet.dfy`, module `A6281Packet`). The packet union of
  `includes/TinyA6281.h` is modelled as a `bv32` with shift-and-mask views,
  and `pwmPacket`/`commandPacket` build it. The views assume GCC's LSB-first
  bit-field allocation, so both views keep the mode flag in bit 30 and bit 31
  is always zero.
- **The pins** (`wire.dfy`, module `Wire`). What the controller does to its
  pins is a trace of events: a data bit, a clock pulse, a latch pulse, or a
  write to the not-enable line.
- **The state-tracking ring buffer** (`ring.dfy`, module `StateRing`). This
  covers the head update and slot write of `sendPacket` and the index walk of
  `saveState`. Lemmas show that saving is a rotation of the buffer. They also
  show that once n packets have been sent, saving returns them newest first,
  and that restoring the saved contents leaves buffer and head unchanged.
- **The controller as values** (`chain_model.dfy`, module `ChainModel`). Every
  operation of `TinyA6281` is a function from the old state to the new one:
  the update cycle, the wrapping 8-bit packet count, auto-update, batches,
  state tracking, save and restore. The properties of the controller are
  proved about these functions.
- **The controller as a class** (`tiny_a6281.dfy`, class
  `TinyA6281.A6281Chain`). The fields, loops and in-place writes of
  `TinyA6281.cpp` appear here, with the state vector as an `array?<bv32>`.
  Each method is proved to leave the object in the state the matching
  `ChainModel` function computes.
- **TinyBrite** (`tiny_brite.dfy`, module `TinyBrite`). The colour-named
  `BritePacket` layout and builders are proved equal to the A6281 ones with
  green on channel 0 and red on channel 1. The class `BriteChain` holds an
  `A6281Chain` and forwards to it. The C++ class inherits instead; the methods
  it inherits unchanged are called on `driver`.

Where the code and its documentation disagree, the model follows the code:

- `getState` returns the raw slot `state_vector[index]`, not the slot of the
  chip at that position. It checks only that a buffer exists, not that
  tracking is on.
- `sendPacket` records one ring entry per call, whatever its repeat count, so
  `sendPacketToAll` records a single entry.
- The packet count is a `uint8_t`: an update cycle of exactly 256 packets ends
  without a latch.

The one exception is `restoreState`'s loop, which as written does not
terminate. The model uses the intended loop, n - 1 down to 0 (see Findings).

## Model

| member | source | states |
|---|---|---|
| A6281Packet.DecodePwm | includes/TinyA6281.h:80-85 | The PWM view of a word: each of the three channels fits its 10-bit field and the mode flag its 1-bit field |
| A6281Packet.DecodeCorrection | includes/TinyA6281.h:87-99 | The correction view of a word: the three dot corrections fit 7 bits, the clock mode 2 bits, and the test bits and mode flag 1 bit each |
| A6281Packet.PwmPacket | TinyA6281.cpp:182-189 | Reading the built word back gives each channel truncated to 10 bits, in bits 0-9, 10-19 and 20-29, with mode PWM in bit 30 and bit 31 clear; nothing is rejected |
| A6281Packet.CommandPacket | TinyA6281.cpp:195-203 | Reading the built word back gives the three corrections truncated to 7 bits (bits 0-6, 10-16, 20-26), the clock mode truncated to 2 bits (bits 7-8), both test bits 0 and mode CORRECT; the padding bits and bit 31 stay clear |
| A6281Packet.ModeFlagIsShared | includes/TinyA6281.h:80-99 | Under LSB-first allocation both views place their mode flag at bit 30 and read the same value there |
| A6281Packet.PwmRoundTrip | includes/TinyA6281.h:50 | PWM values up to TA6281_PWM_MAXVALUE come back unchanged from a built packet, so the maximum is exactly the field's range |
| A6281Packet.PwmPacketOfView | includes/TinyA6281.h:80-85 | Every word in PWM mode with bit 31 clear is the PWM packet of its own three channels (encoding is onto such words) |
| A6281Packet.CommandRoundTrip | includes/TinyA6281.h:52-57 | Corrections up to TA6281_CORRECTION_MAXVALUE and 2-bit clock modes come back unchanged from a built command packet |
| A6281Packet.CommandPacketOfView | includes/TinyA6281.h:87-99 | Every correction-mode word whose test bits, padding and bit 31 are clear is the command packet of its own fields |
| A6281Packet.PwmAndCommandDiffer | includes/TinyA6281.h:47-48 | A PWM packet reads MODE_PWM and a command packet MODE_CORRECT in bit 30, so no PWM packet equals a command packet |
| A6281Packet.ClockModesFit | includes/TinyA6281.h:54-57 | The four clock-mode constants B00, B10, B11, B01 are distinct and fit the 2-bit field |
| Wire.WordEvents | TinyA6281.cpp:245-257 | The bit loop of one packet drives only the data line and pulses only the clock line; it never touches the latch or not-enable lines |
| Wire.RepeatEvents | TinyA6281.cpp:243-260 | Repeating a packet likewise produces only data bits and clock pulses |
| Wire.BatchEvents | TinyA6281.cpp:350-353 | Shifting a batch of packets likewise produces only data bits and clock pulses |
| Wire.WordEventAt | TinyA6281.cpp:245-257 | Pass m of the bit loop drives bit 31 - m onto the data line and is followed by exactly one clock pulse |
| Wire.WordEventsLength | TinyA6281.cpp:245-257 | Shifting one packet produces exactly 64 events (32 data bits, 32 clock pulses) |
| Wire.RepeatEventAt | TinyA6281.cpp:243-260 | In repetition j of a repeated send, event 64j + 2m drives bit 31 - m and event 64j + 2m + 1 is its clock pulse |
| Wire.RepeatEventsLength | TinyA6281.cpp:243-260 | Sending a packet k times produces exactly 64k events |
| Wire.NoLatchInRepeat | TinyA6281.cpp:243-260 | The transmission loop never pulses the latch |
| Wire.NoLatchInBatch | TinyA6281.cpp:350-353 | Shifting in a batch of packets never pulses the latch |
| Wire.BatchEventsBlock | TinyA6281.cpp:350-353 | A batch goes out in array order: block k of 64 events is exactly packet k's events |
| StateRing.Behind | TinyA6281.cpp:313-320 | The new head is always a slot; from 0 or from the sentinel n it goes to n - 1 |
| StateRing.BehindIsMod | TinyA6281.cpp:313-320 | The head moves one slot back around the ring: (head + n - 1) mod n |
| StateRing.Ahead | TinyA6281.cpp:437-448 | The saveState index walk with its wrap to 0 stays in bounds |
| StateRing.AheadIsMod | TinyA6281.cpp:437-448 | The saveState index walk with its wrap to 0 is (head + i) mod n |
| StateRing.Record | TinyA6281.cpp:310-324 | One tracked send moves the head one slot back, stores the packet there and changes no other slot |
| StateRing.RecordAll | TinyA6281.cpp:350-353 | Recording a batch packet by packet keeps the buffer size; a non-empty batch leaves the head on a slot, and an empty one changes nothing |
| StateRing.Saved | TinyA6281.cpp:436-449 | The copy loop of saveState yields exactly one entry per slot, entry i taken from the slot i steps ahead of the head |
| StateRing.SavedAtMod | TinyA6281.cpp:436-449 | Saved entry i is slot (head + i) mod n, for every i < n |
| StateRing.SavedIsRotation | TinyA6281.cpp:436-449 | The saved contents are the buffer rotated to start at the head |
| StateRing.SavedAfterRecord | TinyA6281.cpp:270-274 | Sending E to [A, B, C, D] gives [E, A, B, C]: the new packet is nearest the controller and the far-end one falls off |
| StateRing.SavedPrefixAfterRecords | TinyA6281.cpp:289-303 | After k ≤ n sends the first k saved entries are those packets, newest first |
| StateRing.FillThenSave | TinyA6281.cpp:295-298 | After n sends, saving gives exactly those n packets, newest first, whatever the buffer held before |
| StateRing.RestorePrefix | TinyA6281.cpp:471-474 | Re-sending, far end first, k packets that match what the slots already hold leaves the buffer unchanged and moves the head back k slots |
| StateRing.RestoreKeepsRing | TinyA6281.cpp:471-474 | Re-sending the saved contents far end first leaves every slot and the head exactly as they were |
| ChainModel.Init | TinyA6281.cpp:50-58 | A new controller keeps the given length and auto-update flag and starts well formed, with no buffer, tracking off, a zero count, no not-enable line and an empty trace |
| ChainModel.SetAutoUpdate | TinyA6281.cpp:72-74 | setAutoUpdate changes only the flag: no pin activity, same count, tracking and buffer |
| ChainModel.SetEnabled | TinyA6281.cpp:80-89 | Without a not-enable line nothing changes; with one, exactly one write is appended after the unchanged earlier trace, driving the line low to enable and high to disable; length, auto-update, tracking, count, buffer and the not-enable setting are kept |
| ChainModel.Setup | TinyA6281.cpp:118-142 | setup records whether a not-enable line is used; with one it appends exactly one write driving it low after the unchanged earlier trace, without one the trace is unchanged; nothing else changes |
| ChainModel.BeginUpdateResets | TinyA6281.cpp:160-164 | beginUpdate restarts the count without touching the pins or the buffer, so ending the cycle at once latches nothing |
| ChainModel.EndUpdate | TinyA6281.cpp:170-176 | With a zero count nothing changes; otherwise exactly one latch pulse is appended after the unchanged earlier trace; length, auto-update, tracking, count, buffer and the not-enable setting are kept |
| ChainModel.Latch | TinyA6281.cpp:378-384 | latch appends exactly one latch pulse after the unchanged earlier trace and changes no setting, neither the count nor the buffer |
| ChainModel.Transmit | TinyA6281.cpp:243-260 | The transmission loop leaves the buffer and the flags alone; with a repeat count of 0 it sends and counts nothing |
| ChainModel.Track | TinyA6281.cpp:310-324 | The tracking step keeps the buffer sized to the chain with its head in range |
| ChainModel.SendPacket | TinyA6281.cpp:237-332 | sendPacket keeps the buffer well formed and never changes the chain length, the auto-update flag, the tracking flag or the not-enable setting |
| ChainModel.SendEach | TinyA6281.cpp:350-353 | The sendPackets loop keeps the buffer well formed and leaves the same settings untouched |
| ChainModel.SendPackets | TinyA6281.cpp:338-362 | sendPackets keeps the buffer sized to the chain with its head in range |
| ChainModel.SendPacketToAll | TinyA6281.cpp:368-372 | sendPacketToAll keeps the buffer sized to the chain with its head in range |
| ChainModel.SetStateTracking | TinyA6281.cpp:388-406 | setStateTracking keeps the buffer, when there is one, sized to the chain with its head in [0, n] |
| ChainModel.GetState | TinyA6281.cpp:408-417 | getState is null exactly when the index is past the chain or there is no buffer; otherwise it is raw slot `index` |
| ChainModel.SaveState | TinyA6281.cpp:419-453 | saveState copies nothing exactly when there is no buffer or no packet has been recorded since the buffer was allocated (head = n); otherwise it copies n entries |
| ChainModel.RestoreState | TinyA6281.cpp:454-480 | restoreState, with the intended loop, keeps the buffer well formed |
| ChainModel.EndUpdateLatchesIffSent | TinyA6281.cpp:170-176 | endUpdate adds one latch pulse exactly when the count is non-zero, and leaves the count as it was |
| ChainModel.SendPacketTrace | TinyA6281.cpp:237-332 | sendPacket(p, k) puts 64k events on the wire, bit 31 first with one clock pulse per bit, followed by one latch pulse exactly when auto-update is on and k ≥ 1 |
| ChainModel.SendPacketLatches | TinyA6281.cpp:238-330 | The count grows by k modulo 256, or is k under auto-update; sendPacket latches once under auto-update with k ≥ 1 and never otherwise |
| ChainModel.SendPacketTracks | TinyA6281.cpp:310-324 | With tracking on and a buffer, sendPacket writes exactly one ring slot whatever its repeat count; otherwise the buffer is untouched |
| ChainModel.SendOneNoAutoUpdate | TinyA6281.cpp:237-332 | With auto-update off, sending one packet adds its 64 events, counts one modulo 256 and records it once |
| ChainModel.SendEachTrace | TinyA6281.cpp:350-353 | With auto-update off, the batch loop puts every packet's events on the wire in array order |
| ChainModel.SendEachCount | TinyA6281.cpp:350-353 | With auto-update off, the batch loop counts one per packet modulo 256 |
| ChainModel.SendEachRing | TinyA6281.cpp:350-353 | With auto-update off, the batch loop records each packet once, in order |
| ChainModel.SendEachEffect | TinyA6281.cpp:350-353 | The batch loop's whole effect: settings unchanged, events in order, count plus batch size modulo 256, one ring write per packet |
| ChainModel.SendPacketsAutoUpdate | TinyA6281.cpp:338-362 | With auto-update on, sendPackets puts the packets' events in order followed by exactly one latch pulse, and no latch at all for an empty batch |
| ChainModel.SendPacketsAutoUpdateCount | TinyA6281.cpp:338-362 | With auto-update on, sendPackets leaves the flag on again, the count equal to the batch size, and one ring write per packet |
| ChainModel.SendPacketsNoAutoUpdate | TinyA6281.cpp:338-362 | With auto-update off, sendPackets sends the packets in order and never latches |
| ChainModel.FullCycleSkipsLatch | TinyA6281.cpp:160-176 | Because the count is 8 bits, any update cycle of exactly 256 packets sent one per call ends with a count of 0 and no latch pulse |
| ChainModel.WrappedCountSkipsLatch | TinyA6281.cpp:160-176 | One instance of the 8-bit wrap through the repeat count: two sendPacket(p, 128) calls in one cycle end with a count of 0 and no latch pulse |
| ChainModel.SetStateTrackingResult | TinyA6281.cpp:388-406 | Tracking ends up on exactly when requested and the allocation was not needed or succeeded; without a buffer before, one exists afterwards exactly when tracking was requested on a non-empty chain and the allocation succeeded; an existing buffer is never replaced; a new one is zeroed with head n, so there is nothing to save yet; the count, the pins and the auto-update flag are untouched |
| ChainModel.GetStateIsRawSlot | TinyA6281.cpp:408-417 | The chip k hops down the chain is at index (head + k) mod n, in general not at index k; getState ignores the tracking flag |
| ChainModel.SendPacketToAllTracksOnce | TinyA6281.cpp:368-372 | With tracking on, auto-update off, a zeroed buffer, a non-zero packet p and a chain of n >= 2 drivers, sendPacketToAll sends the same bits as n single sends of p but leaves a different buffer, because it records one entry where the single sends record n |
| ChainModel.SaveAfterFill | TinyA6281.cpp:295-298 | Once sendPackets has sent one packet per chip with tracking on, saveState gives those packets newest first |
| ChainModel.RestoreStateTrace | TinyA6281.cpp:454-480 | restoreState sends the entries far end first, latches exactly once on a non-empty chain, counts n and puts the auto-update flag back |
| ChainModel.RestoreThenSave | TinyA6281.cpp:454-480 | Restoring what was saved leaves the tracked buffer and head as they were, so saving again gives the same packets |
| ChainModel.RestoreStateRing | TinyA6281.cpp:466-476 | With tracking on, restoreState records its packets in the ring far end first, one slot each |
| ChainModel.RestoreAnyThenSave | TinyA6281.cpp:466-476 | With tracking on, restoring any n-entry sequence and then saving gives that sequence back |
| ChainModel.AsWrittenRestoreCountsDown | TinyA6281.cpp:471 | For its first n passes the loop as written visits n - 1 down to 0 |
| ChainModel.AsWrittenRestoreOverruns | TinyA6281.cpp:471-474 | After those passes the unsigned index wraps to 255, the guard `i >= 0` still holds, and the next read is past the n entries given |
| TinyA6281.A6281Chain.constructor | TinyA6281.cpp:50-58 | The object starts in the initial controller state |
| TinyA6281.A6281Chain.Default | includes/TinyA6281.h:124-125 | The default arguments give a chain of one chip with auto-update disabled |
| TinyA6281.A6281Chain.AutoUpdate | TinyA6281.cpp:65-67 | Returns the auto-update flag |
| TinyA6281.A6281Chain.SetAutoUpdate | TinyA6281.cpp:72-74 | Sets the auto-update flag and changes nothing else |
| TinyA6281.A6281Chain.StateTracking | includes/TinyA6281.h:253 | Returns the tracking flag |
| TinyA6281.A6281Chain.Setup | TinyA6281.cpp:118-126 | Marks the not-enable line unused and touches no modelled pin |
| TinyA6281.A6281Chain.SetupWithNotEnable | TinyA6281.cpp:132-142 | Marks the not-enable line used and drives it low |
| TinyA6281.A6281Chain.SetEnabled | TinyA6281.cpp:80-89 | Drives the active-low not-enable line to the opposite of `activate` when it is used; otherwise does nothing |
| TinyA6281.A6281Chain.BeginUpdate | TinyA6281.cpp:160-163 | Resets the count and changes nothing else |
| TinyA6281.A6281Chain.Latch | TinyA6281.cpp:378-384 | Adds one latch pulse |
| TinyA6281.A6281Chain.EndUpdate | TinyA6281.cpp:170-176 | Latches when the count is non-zero and returns the count without resetting it |
| TinyA6281.A6281Chain.ShiftOut | TinyA6281.cpp:245-257 | The bit loop adds exactly the packet's 64 events and changes no other field |
| TinyA6281.A6281Chain.Transmit | TinyA6281.cpp:243-260 | The repeat loop sends the packet k times and counts each send with 8-bit wrap-around |
| TinyA6281.A6281Chain.Track | TinyA6281.cpp:310-324 | The tracking step moves the head one slot back with wrap and stores the packet there, in place |
| TinyA6281.A6281Chain.SendPacket | TinyA6281.cpp:237-332 | The new object state is the one the sendPacket model computes (see the ChainModel lemmas for its properties) |
| TinyA6281.A6281Chain.SendPackets | TinyA6281.cpp:338-362 | Sends the first numPackets array entries in order, as the sendPackets model computes |
| TinyA6281.A6281Chain.SendPacketToAll | TinyA6281.cpp:368-372 | One sendPacket call repeating the packet once per chip |
| TinyA6281.A6281Chain.SendPwmValues | TinyA6281.cpp:209-217 | Sends the PWM packet of the three values exactly once |
| TinyA6281.A6281Chain.SendCommand | TinyA6281.cpp:223-231 | Sends the command packet of the corrections and clock mode exactly once |
| TinyA6281.A6281Chain.SetStateTracking | TinyA6281.cpp:388-406 | Sets tracking, allocates and zeroes a fresh buffer with head n only when needed, and returns whether tracking is on |
| TinyA6281.A6281Chain.GetState | TinyA6281.cpp:408-417 | Returns raw slot `index`, or nothing past the chain or without a buffer |
| TinyA6281.A6281Chain.SaveState | TinyA6281.cpp:419-453 | Writes the chain's contents nearest-first into the first n entries of `out` and returns n, or writes nothing and returns 0; entries past the count are untouched |
| TinyA6281.A6281Chain.RestoreState | TinyA6281.cpp:454-480 | With the intended loop, re-sends entries n - 1 down to 0 inside one update cycle with auto-update suspended, then restores the flag |
| TinyA6281.A6281Chain.RestoreLoop | TinyA6281.cpp:471-474 | The intended loop sends the given entries far end first, one sendPacket call each |
| TinyBrite.DecodeColor | TinyBrite.h:167-172 | Reading a word through the colour view gives green, red and blue of at most 1023 and a one-bit mode flag |
| TinyBrite.DecodeBriteCorrection | TinyBrite.h:174-185 | Reading a word through the correction view gives green, red and blue corrections of at most 127, a clock mode of at most 3 and one-bit test and mode flags |
| TinyBrite.BriteViewsAlias | TinyBrite.h:164-186 | green, red and blue sit on PWM channels 0, 1 and 2, and the green, red and blue corrections on dot corrections 0, 1 and 2, with the clock mode, test bits and mode flag shared |
| TinyBrite.ConstantsAlias | TinyBrite.h:140-153 | The TinyBrite maxima are 1023 and 127, and its packet modes are 0 (colour) and 1 (command) |
| TinyBrite.ColorPacket | TinyBrite.cpp:44-49 | Reading the built word back gives green, red and blue truncated to 10 bits, the colour mode and bit 31 clear |
| TinyBrite.ColorPacketIsPwmPacket | TinyBrite.cpp:27-31 | colorPacket(r, g, b) is the A6281 PWM packet (g, r, b) |
| TinyBrite.CommandPacket | TinyBrite.cpp:51-60 | Reading the built word back gives the green, red and blue corrections truncated to 7 bits, the clock mode truncated to 2 bits, the command mode and every other bit clear |
| TinyBrite.CommandPacketIsA6281Command | TinyBrite.cpp:33-38 | commandPacket(rc, gc, bc, clk) is the A6281 command packet (gc, rc, bc, clk) |
| TinyBrite.ColorRoundTrip | TinyBrite.h:140 | In-range colours come back unchanged from a built colour packet |
| TinyBrite.BriteChain.constructor | TinyBrite.cpp:40-42 | A TinyBrite holds a fresh A6281 controller built with the same length and auto-update flag |
| TinyBrite.BriteChain.Default | TinyBrite.h:217-218 | The default arguments give one device with auto-update disabled |
| TinyBrite.BriteChain.SendPacket | TinyBrite.cpp:65-70 | Hands the identical 32-bit value and repeat count to the A6281 sendPacket |
| TinyBrite.BriteChain.SendPackets | TinyBrite.cpp:72-76 | Hands the same array values and count to the A6281 sendPackets |
| TinyBrite.BriteChain.SendPacketToAll | TinyBrite.cpp:78-84 | Hands the identical value to the A6281 sendPacketToAll |
| TinyBrite.BriteChain.SendColor | TinyBrite.cpp:86-93 | Has the effect of sendPacket(colorPacket(red, green, blue)) |
| TinyBrite.BriteChain.SendCommand | TinyBrite.cpp:95-105 | Has the effect of sendPacket(commandPacket(...)) with the same arguments |

## Left out

- Pin I/O, pin modes and delays: the platform headers and `MCU::` calls are replaced by the event trace. Pin numbers (`setPins` and the pin arguments of `setup`) are not modelled, and neither are the clock and latch lines being driven low in `setup`. A clock pulse stands for the HIGH, delay, LOW, delay sequence, and a latch pulse for HIGH, delay, LOW.
- ChainModel.Transmit: its own contract states only what the loop leaves alone and the zero-count case. The events it sends and its wrapping 8-bit count are stated for the whole of sendPacket by ChainModel.SendPacketTrace and ChainModel.SendPacketLatches.
- Conditional compilation: state tracking is taken as compiled in, and `DriverNum` as `uint8_t` (TA6281_STATE_TRACKING_BIGNUM not defined). `unsigned int` arguments are taken as 32 bits wide.
- Bit-field allocation and union type-punning: each layout is shift-and-mask on a `bv32`, assuming GCC's LSB-first allocation.
- `malloc`/`memset`: allocation is a fresh array zeroed by a loop, and its success is the parameter `allocSucceeds`. The heap itself is not modelled.
- The behaviour of `restoreState`'s loop as written (reads past the array, no termination) is exhibited by the Findings lemmas, not executed. The class runs the intended loop.
- TinyA6281.A6281Chain.GetState: returns the slot's value, not its address, so a caller writing through the returned address into the state vector is not modelled.
- TinyA6281.A6281Chain.SendPackets: requires the packet array not to be the controller's own state vector; the C++ code would accept an address obtained from getState, and the aliasing that would follow is not modelled.
- TinyA6281.A6281Chain.RestoreState: requires the input array not to be the controller's own state vector, for the same reason.
- TinyA6281.A6281Chain.SaveState: requires the output array to hold at least n entries and not to be the state vector. The C++ code cannot check either condition; writing past a shorter array is undefined behaviour there.
- TinyBrite inheritance: `BriteChain` holds an `A6281Chain` in `driver` instead of deriving from it. The methods it inherits unchanged (setup, update cycles, state tracking) are called on `driver`.

## Findings

| source | as written | input that shows it | evidently intended | confidence | as-written member | corrected member |
|---|---|---|---|---|---|---|
| TinyA6281.cpp:471 | The loop counts an unsigned 8-bit index down from num_drivers - 1 while it is at least 0: that guard is always true, and decrementing 0 wraps to 255 | any chain, e.g. num_drivers = 3: the passes read entries 2, 1, 0, then 255 (past the three saved entries), and the loop never exits | send entries n - 1 down to 0, then stop | not executed | ChainModel.AsWrittenRestoreOverruns | ChainModel.RestoreThenSave |
