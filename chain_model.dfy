/**
 * The state of a TinyA6281 controller as a value, and every operation of
 * TinyA6281.cpp as a function from the old state to the new one. The class
 * in tiny_a6281.dfy runs the same operations imperatively and is proved to
 * agree with these functions; the properties of the controller are proved
 * here, once.
 */
module ChainModel {
  import opened Wire
  import opened StateRing

  /** `DriverNum` is `uint8_t` (TA6281_STATE_TRACKING_BIGNUM is not defined). */
  const DRIVER_NUM_LIMIT := 256
  type DriverNum = x: nat | x < DRIVER_NUM_LIMIT

  /** The `uint8_t` repeat count of sendPacket. */
  type Uint8 = x: nat | x < 256

  datatype Option<T> = None | Some(value: T)

  /**
   * The controller's fields. `ring` is None while no state vector has been
   * allocated (state_vector is NULL); `trace` is everything done to the pins.
   */
  datatype ChainState = ChainState(
    numDrivers: DriverNum,
    autoUpdate: bool,
    numSent: DriverNum,
    usingNotEnable: bool,
    tracking: bool,
    ring: Option<RingState>,
    trace: seq<Event>)

  /** A state vector, when there is one, has one slot per chip and a head in [0, numDrivers]. */
  predicate WellFormed(c: ChainState)
  {
    c.ring.Some? ==> StateRing.WellFormed(c.ring.value) && |c.ring.value.buf| == c.numDrivers
  }

  /** The constructor: no packets counted, no tracking, no state vector, no not-enable line. */
  function Init(numDrivers: DriverNum, autoUpdate: bool): (c: ChainState)
    ensures WellFormed(c)
    ensures c.numDrivers == numDrivers && c.autoUpdate == autoUpdate && c.numSent == 0
    ensures !c.usingNotEnable && !c.tracking && c.ring.None? && c.trace == []
  {
    ChainState(numDrivers, autoUpdate, 0, false, false, None, [])
  }

  /** setup: records whether a not-enable line is used and, if so, drives it low. */
  function Setup(c: ChainState, withNotEnable: bool): (c': ChainState)
    ensures c'.usingNotEnable == withNotEnable
    ensures withNotEnable ==> |c'.trace| == |c.trace| + 1 && c'.trace[|c.trace|] == EnableLine(false)
    ensures withNotEnable ==> c'.trace[..|c.trace|] == c.trace
    ensures !withNotEnable ==> c'.trace == c.trace
    ensures c'.numDrivers == c.numDrivers && c'.autoUpdate == c.autoUpdate && c'.numSent == c.numSent
    ensures c'.tracking == c.tracking && c'.ring == c.ring
  {
    c.(usingNotEnable := withNotEnable,
       trace := c.trace + if withNotEnable then [EnableLine(false)] else [])
  }

  /** setAutoUpdate: only the flag changes; nothing reaches the pins. */
  function SetAutoUpdate(c: ChainState, setTo: bool): (c': ChainState)
    ensures c'.autoUpdate == setTo && c'.trace == c.trace && c'.numSent == c.numSent
    ensures c'.numDrivers == c.numDrivers && c'.usingNotEnable == c.usingNotEnable
    ensures c'.tracking == c.tracking && c'.ring == c.ring
  {
    c.(autoUpdate := setTo)
  }

  /** setEnabled: the not-enable line is active low; without one nothing happens. */
  function SetEnabled(c: ChainState, activate: bool): (c': ChainState)
    ensures !c.usingNotEnable ==> c' == c
    ensures c.usingNotEnable ==> |c'.trace| == |c.trace| + 1 && c'.trace[|c.trace|] == EnableLine(!activate)
    ensures c.usingNotEnable ==> c'.trace[..|c.trace|] == c.trace
    ensures c'.numSent == c.numSent && c'.ring == c.ring && c'.usingNotEnable == c.usingNotEnable
    ensures c'.numDrivers == c.numDrivers && c'.autoUpdate == c.autoUpdate && c'.tracking == c.tracking
  {
    if c.usingNotEnable then c.(trace := c.trace + [EnableLine(!activate)]) else c
  }

  function BeginUpdate(c: ChainState): ChainState
  {
    c.(numSent := 0)
  }

  /** latch: one pulse on the latch line. */
  function Latch(c: ChainState): (c': ChainState)
    ensures |c'.trace| == |c.trace| + 1 && c'.trace[|c.trace|] == LatchPulse
    ensures c'.trace[..|c.trace|] == c.trace
    ensures c'.numSent == c.numSent && c'.ring == c.ring
    ensures c'.numDrivers == c.numDrivers && c'.autoUpdate == c.autoUpdate
    ensures c'.tracking == c.tracking && c'.usingNotEnable == c.usingNotEnable
  {
    c.(trace := c.trace + [LatchPulse])
  }

  /** endUpdate: one latch pulse if the (wrapping) count is non-zero; the count is kept. */
  function EndUpdate(c: ChainState): (c': ChainState)
    ensures c.numSent == 0 ==> c' == c
    ensures c.numSent != 0 ==> |c'.trace| == |c.trace| + 1 && c'.trace[|c.trace|] == LatchPulse
    ensures c.numSent != 0 ==> c'.trace[..|c.trace|] == c.trace
    ensures c'.numSent == c.numSent && c'.ring == c.ring && c'.autoUpdate == c.autoUpdate
    ensures c'.numDrivers == c.numDrivers && c'.tracking == c.tracking
    ensures c'.usingNotEnable == c.usingNotEnable
  {
    if c.numSent != 0 then Latch(c) else c
  }

  /** The bit loop of sendPacket: `times` copies of the packet, counted modulo 256. */
  function Transmit(c: ChainState, p: bv32, times: Uint8): (c': ChainState)
    ensures times == 0 ==> c'.trace == c.trace && c'.numSent == c.numSent
    ensures c'.ring == c.ring && c'.autoUpdate == c.autoUpdate && c'.tracking == c.tracking
  {
    c.(trace := c.trace + RepeatEvents(p, times), numSent := (c.numSent + times) % DRIVER_NUM_LIMIT)
  }

  /** The state-tracking step of sendPacket: one ring write, whatever the repeat count. */
  function Track(c: ChainState, p: bv32): (c': ChainState)
    requires WellFormed(c)
    ensures WellFormed(c')
  {
    if c.tracking && c.ring.Some? then c.(ring := Some(Record(c.ring.value, p))) else c
  }

  /** sendPacket(packet, num_times). */
  function SendPacket(c: ChainState, p: bv32, times: Uint8): (c': ChainState)
    requires WellFormed(c)
    ensures WellFormed(c') && SameSettings(c, c')
  {
    var sent := Track(Transmit(if c.autoUpdate then BeginUpdate(c) else c, p, times), p);
    if c.autoUpdate then EndUpdate(sent) else sent
  }

  /** The loop of sendPackets: one sendPacket call per packet, first to last. */
  function SendEach(c: ChainState, ps: seq<bv32>): (c': ChainState)
    requires WellFormed(c)
    ensures WellFormed(c') && SameSettings(c, c')
  {
    if ps == [] then c else SendPacket(SendEach(c, ps[..|ps| - 1]), ps[|ps| - 1], 1)
  }

  /** sendPackets: with auto-update on, the batch runs with it suspended inside one update cycle. */
  function SendPackets(c: ChainState, ps: seq<bv32>): (c': ChainState)
    requires WellFormed(c) && |ps| < DRIVER_NUM_LIMIT
    ensures WellFormed(c')
  {
    if c.autoUpdate then EndUpdate(SendEach(BeginUpdate(c.(autoUpdate := false)), ps)).(autoUpdate := true)
    else SendEach(c, ps)
  }

  /** sendPacketToAll: the packet repeated once per chip in a single sendPacket call. */
  function SendPacketToAll(c: ChainState, p: bv32): (c': ChainState)
    requires WellFormed(c)
    ensures WellFormed(c')
  {
    SendPacket(c, p, c.numDrivers)
  }

  function Zeros(n: nat): seq<bv32>
  {
    seq(n, _ => 0)
  }

  /**
   * setStateTracking: the buffer is allocated only when tracking is being
   * switched on, the chain is not empty and no buffer exists yet; it starts
   * zeroed with the head one past the end. `allocSucceeds` is the outcome of
   * the allocation; when it fails tracking stays off.
   */
  function SetStateTracking(c: ChainState, setTo: bool, allocSucceeds: bool): (c': ChainState)
    requires WellFormed(c)
    ensures WellFormed(c')
  {
    if setTo && c.numDrivers != 0 && c.ring.None? then
      if allocSucceeds then c.(tracking := true, ring := Some(RingState(Zeros(c.numDrivers), c.numDrivers)))
      else c.(tracking := false)
    else c.(tracking := setTo)
  }

  /** getState: the raw slot `index`, or None past the chain or without a buffer. */
  function GetState(c: ChainState, index: DriverNum): (slot: Option<bv32>)
    requires WellFormed(c)
    ensures slot.None? <==> index >= c.numDrivers || c.ring.None?
    ensures slot.Some? ==> slot.value == c.ring.value.buf[index]
  {
    if index >= c.numDrivers || c.ring.None? then None else Some(c.ring.value.buf[index])
  }

  /** saveState: the chain's contents nearest-first, or nothing before the first tracked send. */
  function SaveState(c: ChainState): (saved: seq<bv32>)
    requires WellFormed(c)
    ensures saved == [] || |saved| == c.numDrivers
    ensures saved != [] <==> c.ring.Some? && c.ring.value.head < c.numDrivers
  {
    if c.ring.None? || c.ring.value.head >= c.numDrivers then [] else Saved(c.ring.value)
  }

  /** The order in which restoreState is meant to send the saved packets: the far end first. */
  function RestoreOrder(saved: seq<bv32>, n: nat): seq<bv32>
    requires n <= |saved|
  {
    Reversed(saved[..n])
  }

  /**
   * restoreState, with the loop the code means to run (index n - 1 down to 0):
   * every packet is sent inside one update cycle with auto-update suspended,
   * and the auto-update flag is put back afterwards.
   */
  function RestoreState(c: ChainState, saved: seq<bv32>): (c': ChainState)
    requires WellFormed(c) && c.numDrivers <= |saved|
    ensures WellFormed(c')
  {
    var sent := SendEach(BeginUpdate(c.(autoUpdate := false)), RestoreOrder(saved, c.numDrivers));
    EndUpdate(sent).(autoUpdate := c.autoUpdate)
  }

  // ---------------------------------------------------------------------------
  // Properties of the update cycle

  /**
   * beginUpdate restarts the count and touches neither the pins nor the ring,
   * so an update cycle ended straight away latches nothing.
   */
  lemma BeginUpdateResets(c: ChainState)
    ensures BeginUpdate(c).numSent == 0 && EndUpdate(BeginUpdate(c)) == BeginUpdate(c)
    ensures BeginUpdate(c).trace == c.trace && BeginUpdate(c).ring == c.ring
    ensures BeginUpdate(c).autoUpdate == c.autoUpdate && BeginUpdate(c).tracking == c.tracking
  {
  }

  /**
   * endUpdate latches exactly when packets were counted since beginUpdate,
   * and reports that count without resetting it.
   */
  lemma EndUpdateLatchesIffSent(c: ChainState)
    ensures CountLatches(EndUpdate(c).trace) == CountLatches(c.trace) + (if c.numSent != 0 then 1 else 0)
    ensures EndUpdate(c).numSent == c.numSent
  {
    CountLatchesAppend(c.trace, if c.numSent != 0 then [LatchPulse] else []);
    assert [LatchPulse][..0] == [];
  }

  /**
   * sendPacket adds 64 events per repetition: in repetition j, event 2m drives
   * bit 31 - m and event 2m + 1 pulses the clock. With auto-update on and at
   * least one repetition one latch pulse follows; otherwise none.
   */
  lemma SendPacketTrace(c: ChainState, p: bv32, times: Uint8)
    requires WellFormed(c)
    ensures SendPacket(c, p, times).trace
         == c.trace + RepeatEvents(p, times) + if c.autoUpdate && times != 0 then [LatchPulse] else []
    ensures |RepeatEvents(p, times)| == 64 * times
    ensures forall j, m :: 0 <= j < times && 0 <= m < 32 ==>
              RepeatEvents(p, times)[64 * j + 2 * m] == DataBit(Bit(p, 31 - m)) &&
              RepeatEvents(p, times)[64 * j + 2 * m + 1] == ClockPulse
  {
    RepeatEventsLength(p, times);
    forall j, m | 0 <= j < times && 0 <= m < 32
      ensures RepeatEvents(p, times)[64 * j + 2 * m] == DataBit(Bit(p, 31 - m))
      ensures RepeatEvents(p, times)[64 * j + 2 * m + 1] == ClockPulse
    {
      RepeatEventAt(p, times, j, m);
    }
  }

  /**
   * The count grows by the repeat count modulo 256 (from 0 under auto-update),
   * and with auto-update on a send of at least one packet latches exactly once.
   */
  lemma SendPacketLatches(c: ChainState, p: bv32, times: Uint8)
    requires WellFormed(c)
    ensures SendPacket(c, p, times).numSent
         == (if c.autoUpdate then times else (c.numSent + times) % DRIVER_NUM_LIMIT)
    ensures CountLatches(SendPacket(c, p, times).trace)
         == CountLatches(c.trace) + (if c.autoUpdate && times != 0 then 1 else 0)
  {
    NoLatchInRepeat(p, times);
    CountLatchesAppend(c.trace, RepeatEvents(p, times));
    var sent := Track(Transmit(if c.autoUpdate then BeginUpdate(c) else c, p, times), p);
    assert sent.trace == c.trace + RepeatEvents(p, times);
    if c.autoUpdate {
      EndUpdateLatchesIffSent(sent);
    }
  }

  /**
   * With tracking on and a buffer present, sendPacket writes exactly one slot,
   * however many repetitions it sends; otherwise the buffer is untouched. The
   * other flags are untouched as well.
   */
  lemma SendPacketTracks(c: ChainState, p: bv32, times: Uint8)
    requires WellFormed(c)
    ensures SendPacket(c, p, times).ring
         == if c.tracking && c.ring.Some? then Some(Record(c.ring.value, p)) else c.ring
    ensures SendPacket(c, p, times).ring == SendPacket(c, p, 1).ring
    ensures var c' := SendPacket(c, p, times);
            c'.autoUpdate == c.autoUpdate && c'.tracking == c.tracking && c'.numDrivers == c.numDrivers
  {
  }

  /** The fields that no send changes. */
  predicate SameSettings(c: ChainState, c': ChainState)
  {
    c'.numDrivers == c.numDrivers && c'.autoUpdate == c.autoUpdate
    && c'.usingNotEnable == c.usingNotEnable && c'.tracking == c.tracking
  }

  /** The ring after recording `ps`, if tracking is on and there is a buffer. */
  function TrackedRing(c: ChainState, ps: seq<bv32>): Option<RingState>
    requires WellFormed(c)
  {
    if c.tracking && c.ring.Some? then Some(RecordAll(c.ring.value, ps)) else c.ring
  }

  /** One sendPacket call of a single packet with auto-update off. */
  lemma SendOneNoAutoUpdate(c: ChainState, p: bv32)
    requires WellFormed(c) && !c.autoUpdate
    ensures SendPacket(c, p, 1).trace == c.trace + PacketEvents(p)
    ensures SendPacket(c, p, 1).numSent == (c.numSent + 1) % DRIVER_NUM_LIMIT
    ensures SendPacket(c, p, 1).ring == if c.tracking && c.ring.Some? then Some(Record(c.ring.value, p)) else c.ring
  {
    assert RepeatEvents(p, 1) == PacketEvents(p);
  }

  /** The loop of sendPackets with auto-update off puts the packets' events on the wire in order. */
  lemma {:induction false} SendEachTrace(c: ChainState, ps: seq<bv32>)
    requires WellFormed(c) && !c.autoUpdate
    ensures SendEach(c, ps).trace == c.trace + BatchEvents(ps)
  {
    if ps != [] {
      var init, p := ps[..|ps| - 1], ps[|ps| - 1];
      SendEachTrace(c, init);
      SendOneNoAutoUpdate(SendEach(c, init), p);
    }
  }

  /** With auto-update off, the loop of sendPackets counts one packet per call, modulo 256. */
  lemma {:induction false} SendEachCount(c: ChainState, ps: seq<bv32>)
    requires WellFormed(c) && !c.autoUpdate
    ensures SendEach(c, ps).numSent == (c.numSent + |ps|) % DRIVER_NUM_LIMIT
  {
    if ps != [] {
      var init, p := ps[..|ps| - 1], ps[|ps| - 1];
      var prev := SendEach(c, init);
      assert prev.numSent == (c.numSent + |init|) % DRIVER_NUM_LIMIT by {
        SendEachCount(c, init);
      }
      assert SendEach(c, ps).numSent == (prev.numSent + 1) % DRIVER_NUM_LIMIT by {
        SendOneNoAutoUpdate(prev, p);
      }
      CountStep(c.numSent + |init|);
    }
  }

  /** With auto-update off, the loop of sendPackets writes one ring slot per packet. */
  lemma {:induction false} SendEachRing(c: ChainState, ps: seq<bv32>)
    requires WellFormed(c) && !c.autoUpdate
    ensures SendEach(c, ps).ring == TrackedRing(c, ps)
  {
    if ps != [] {
      var init, p := ps[..|ps| - 1], ps[|ps| - 1];
      SendEachRing(c, init);
      SendOneNoAutoUpdate(SendEach(c, init), p);
    }
  }

  /** The loop of sendPackets with auto-update off: the packets' events in order, one ring write each. */
  lemma SendEachEffect(c: ChainState, ps: seq<bv32>)
    requires WellFormed(c) && !c.autoUpdate
    ensures var c' := SendEach(c, ps);
            && SameSettings(c, c')
            && c'.trace == c.trace + BatchEvents(ps)
            && c'.numSent == (c.numSent + |ps|) % DRIVER_NUM_LIMIT
            && c'.ring == TrackedRing(c, ps)
  {
    SendEachTrace(c, ps);
    SendEachCount(c, ps);
    SendEachRing(c, ps);
  }

  /** A count below 256 is its own residue. */
  lemma CountBelowLimit(k: nat)
    requires k < DRIVER_NUM_LIMIT
    ensures (0 + k) % DRIVER_NUM_LIMIT == k
  {
  }

  /** Counting one more packet modulo 256 is counting modulo 256 after the increment. */
  lemma CountStep(a: nat)
    ensures (a % DRIVER_NUM_LIMIT + 1) % DRIVER_NUM_LIMIT == (a + 1) % DRIVER_NUM_LIMIT
  {
    var q := a / DRIVER_NUM_LIMIT;
    assert a == q * DRIVER_NUM_LIMIT + a % DRIVER_NUM_LIMIT;
    if a % DRIVER_NUM_LIMIT + 1 == DRIVER_NUM_LIMIT {
      assert a + 1 == (q + 1) * DRIVER_NUM_LIMIT;
    } else {
      assert a + 1 == q * DRIVER_NUM_LIMIT + (a % DRIVER_NUM_LIMIT + 1);
    }
  }

  /**
   * sendPackets with auto-update on: the packets' events in order followed by
   * exactly one latch pulse (none for an empty batch).
   */
  lemma SendPacketsAutoUpdate(c: ChainState, ps: seq<bv32>)
    requires WellFormed(c) && |ps| < DRIVER_NUM_LIMIT && c.autoUpdate
    ensures SendPackets(c, ps).trace == c.trace + BatchEvents(ps) + (if ps != [] then [LatchPulse] else [])
    ensures CountLatches(SendPackets(c, ps).trace) == CountLatches(c.trace) + (if ps != [] then 1 else 0)
  {
    var start := BeginUpdate(c.(autoUpdate := false));
    var sent := SendEach(start, ps);
    SendPacketsAutoUpdateCount(c, ps);
    SendEachTrace(start, ps);
    EndUpdateLatchesIffSent(sent);
    NoLatchInBatch(ps);
    CountLatchesAppend(c.trace, BatchEvents(ps));
  }

  /**
   * sendPackets with auto-update on leaves the flag on, the count equal to the
   * batch size, and one ring write per packet.
   */
  lemma SendPacketsAutoUpdateCount(c: ChainState, ps: seq<bv32>)
    requires WellFormed(c) && |ps| < DRIVER_NUM_LIMIT && c.autoUpdate
    ensures SendPackets(c, ps).autoUpdate && SendPackets(c, ps).numSent == |ps|
    ensures SendPackets(c, ps).ring == TrackedRing(c, ps)
    ensures SendEach(BeginUpdate(c.(autoUpdate := false)), ps).numSent == |ps|
  {
    var start := BeginUpdate(c.(autoUpdate := false));
    var sent := SendEach(start, ps);
    assert sent.numSent == |ps| by {
      SendEachCount(start, ps);
      CountBelowLimit(|ps|);
    }
    assert sent.ring == TrackedRing(c, ps) by {
      SendEachRing(start, ps);
    }
    assert SendPackets(c, ps) == EndUpdate(sent).(autoUpdate := true);
  }

  /** sendPackets with auto-update off: the packets' events in order and no latch pulse at all. */
  lemma SendPacketsNoAutoUpdate(c: ChainState, ps: seq<bv32>)
    requires WellFormed(c) && |ps| < DRIVER_NUM_LIMIT && !c.autoUpdate
    ensures var c' := SendPackets(c, ps);
            && c'.trace == c.trace + BatchEvents(ps)
            && CountLatches(c'.trace) == CountLatches(c.trace)
            && !c'.autoUpdate && c'.numSent == (c.numSent + |ps|) % DRIVER_NUM_LIMIT
  {
    SendEachEffect(c, ps);
    NoLatchInBatch(ps);
    CountLatchesAppend(c.trace, BatchEvents(ps));
  }

  /**
   * The count is an 8-bit value: any update cycle of exactly 256 packets, sent
   * one per call with auto-update off, ends with a count of 0 and no latch pulse.
   */
  lemma FullCycleSkipsLatch(c: ChainState, ps: seq<bv32>)
    requires WellFormed(c) && !c.autoUpdate && |ps| == DRIVER_NUM_LIMIT
    ensures var c' := EndUpdate(SendEach(BeginUpdate(c), ps));
            c'.numSent == 0 && CountLatches(c'.trace) == CountLatches(c.trace)
  {
    SendEachEffect(BeginUpdate(c), ps);
    NoLatchInBatch(ps);
    CountLatchesAppend(c.trace, BatchEvents(ps));
  }

  /**
   * The count is an 8-bit value: an update cycle of exactly 256 packets
   * (two sends of 128 repetitions) ends with a count of 0 and no latch pulse.
   */
  lemma WrappedCountSkipsLatch(c: ChainState, p: bv32)
    requires WellFormed(c) && !c.autoUpdate
    ensures var c' := EndUpdate(SendPacket(SendPacket(BeginUpdate(c), p, 128), p, 128));
            c'.numSent == 0 && CountLatches(c'.trace) == CountLatches(c.trace)
  {
    NoLatchInRepeat(p, 128);
    CountLatchesAppend(c.trace, RepeatEvents(p, 128));
    CountLatchesAppend(c.trace + RepeatEvents(p, 128), RepeatEvents(p, 128));
    var c2 := SendPacket(SendPacket(BeginUpdate(c), p, 128), p, 128);
    assert c2.trace == c.trace + RepeatEvents(p, 128) + RepeatEvents(p, 128);
    assert EndUpdate(c2).trace == c2.trace;
  }

  // ---------------------------------------------------------------------------
  // Properties of state tracking

  /**
   * setStateTracking reports whether tracking ended up on. It is off exactly
   * when it was switched off or when a needed allocation failed; an existing
   * buffer is never replaced or cleared; a new buffer is zeroed with the head
   * one past the end, so nothing can be saved yet.
   */
  lemma SetStateTrackingResult(c: ChainState, setTo: bool, allocSucceeds: bool)
    requires WellFormed(c)
    ensures var c' := SetStateTracking(c, setTo, allocSucceeds);
            && (c'.tracking <==> setTo && (c.numDrivers == 0 || c.ring.Some? || allocSucceeds))
            && (c.ring.Some? ==> c'.ring == c.ring)
            && (c'.ring.Some? && c.ring.None? ==>
                  c'.ring.value.head == c.numDrivers && SaveState(c') == [] &&
                  forall i: DriverNum :: i < c.numDrivers ==> GetState(c', i) == Some(0))
            && (c.ring.None? ==> (c'.ring.Some? <==> setTo && c.numDrivers != 0 && allocSucceeds))
            && c'.numSent == c.numSent && c'.trace == c.trace && c'.autoUpdate == c.autoUpdate
  {
  }

  /**
   * getState reads the raw slot, not the chip at that position: once
   * something has been sent, chip k (k hops from the controller) is at
   * index (head + k) mod n. The tracking flag plays no part.
   */
  lemma GetStateIsRawSlot(c: ChainState, k: nat)
    requires WellFormed(c) && c.ring.Some? && c.ring.value.head < c.numDrivers && k < c.numDrivers
    ensures GetState(c, (c.ring.value.head + k) % c.numDrivers) == Some(SaveState(c)[k])
    ensures GetState(c.(tracking := !c.tracking), k) == GetState(c, k)
  {
    SavedAtMod(c.ring.value);
  }

  /**
   * sendPacketToAll writes one ring slot, not one per chip: on a chain of two
   * or more chips its tracked state differs from that of sending the packet
   * to each chip separately, although the same bits go down the wire.
   */
  lemma SendPacketToAllTracksOnce(c: ChainState, p: bv32)
    requires WellFormed(c) && c.tracking && c.ring.Some? && !c.autoUpdate
    requires c.numDrivers >= 2 && c.ring.value.buf == Zeros(c.numDrivers) && p != 0
    ensures SendPacketToAll(c, p).trace == SendEach(c, seq(c.numDrivers, _ => p)).trace
    ensures SendPacketToAll(c, p).ring != SendEach(c, seq(c.numDrivers, _ => p)).ring
  {
    var n := c.numDrivers;
    var ps := seq(n, _ => p);
    SendEachEffect(c, ps);
    RepeatIsBatch(p, n);
    FillThenSave(c.ring.value, ps);
  }

  /** n copies of a packet are the same bits as a batch of n equal packets. */
  lemma {:induction false} RepeatIsBatch(p: bv32, n: nat)
    ensures RepeatEvents(p, n) == BatchEvents(seq(n, _ => p))
  {
    if n > 0 {
      RepeatIsBatch(p, n - 1);
      assert seq(n, _ => p)[..n - 1] == seq(n - 1, _ => p);
    }
  }

  /**
   * Once every chip has been sent a packet, saving gives exactly the packets
   * sent, newest first.
   */
  lemma SaveAfterFill(c: ChainState, ps: seq<bv32>)
    requires WellFormed(c) && c.tracking && c.ring.Some? && |ps| == c.numDrivers
    ensures SaveState(SendPackets(c, ps)) == Reversed(ps)
  {
    assert SendPackets(c, ps).ring == TrackedRing(c, ps) by {
      if c.autoUpdate {
        SendPacketsAutoUpdateCount(c, ps);
      } else {
        SendEachRing(c, ps);
      }
    }
    FillThenSave(c.ring.value, ps);
  }

  /**
   * restoreState sends the saved packets far end first, latches exactly once
   * (for a non-empty chain) and puts the auto-update flag back.
   */
  lemma RestoreStateTrace(c: ChainState, saved: seq<bv32>)
    requires WellFormed(c) && c.numDrivers <= |saved|
    ensures RestoreState(c, saved).trace
         == c.trace + BatchEvents(RestoreOrder(saved, c.numDrivers)) + (if c.numDrivers != 0 then [LatchPulse] else [])
    ensures CountLatches(RestoreState(c, saved).trace) == CountLatches(c.trace) + (if c.numDrivers != 0 then 1 else 0)
    ensures RestoreState(c, saved).autoUpdate == c.autoUpdate && RestoreState(c, saved).numSent == c.numDrivers
  {
    var order := RestoreOrder(saved, c.numDrivers);
    var start := BeginUpdate(c.(autoUpdate := false));
    var sent := SendEach(start, order);
    SendEachTrace(start, order);
    SendEachCount(start, order);
    CountBelowLimit(|order|);
    assert RestoreState(c, saved) == EndUpdate(sent).(autoUpdate := c.autoUpdate);
    NoLatchInBatch(order);
    CountLatchesAppend(c.trace, BatchEvents(order));
    EndUpdateLatchesIffSent(sent);
  }

  /**
   * Restoring what was saved leaves the tracked state as it was, so saving
   * again gives the same packets.
   */
  lemma RestoreThenSave(c: ChainState)
    requires WellFormed(c) && c.tracking && SaveState(c) != []
    ensures RestoreState(c, SaveState(c)).ring == c.ring
    ensures SaveState(RestoreState(c, SaveState(c))) == SaveState(c)
  {
    var saved := SaveState(c);
    var start := BeginUpdate(c.(autoUpdate := false));
    SendEachEffect(start, RestoreOrder(saved, c.numDrivers));
    assert saved[..c.numDrivers] == saved;
    RestoreKeepsRing(c.ring.value);
  }

  /** With tracking on, restoreState records its packets, far end first, in the ring. */
  lemma RestoreStateRing(c: ChainState, s: seq<bv32>)
    requires WellFormed(c) && c.tracking && c.ring.Some? && c.numDrivers <= |s|
    ensures RestoreState(c, s).ring == Some(RecordAll(c.ring.value, RestoreOrder(s, c.numDrivers)))
  {
    SendEachRing(BeginUpdate(c.(autoUpdate := false)), RestoreOrder(s, c.numDrivers));
  }

  /**
   * With tracking on and a buffer present, restoring any sequence of one
   * packet per chip and then saving gives that sequence back, whatever the
   * chain held before.
   */
  lemma RestoreAnyThenSave(c: ChainState, s: seq<bv32>)
    requires WellFormed(c) && c.tracking && c.ring.Some? && |s| == c.numDrivers
    ensures SaveState(RestoreState(c, s)) == s
  {
    var order := RestoreOrder(s, c.numDrivers);
    RestoreStateRing(c, s);
    FillThenSave(c.ring.value, order);
    assert s[..c.numDrivers] == s;
  }

  // ---------------------------------------------------------------------------
  // restoreState's loop as written

  /**
   * The index of restoreState's loop as written after `t` passes: it starts at
   * num_drivers - 1 and is decremented each pass, both in 8-bit unsigned
   * arithmetic, so 0 - 1 wraps to 255.
   */
  function AsWrittenRestoreIndex(n: DriverNum, t: nat): DriverNum
  {
    if t == 0 then (n + DRIVER_NUM_LIMIT - 1) % DRIVER_NUM_LIMIT
    else (AsWrittenRestoreIndex(n, t - 1) + DRIVER_NUM_LIMIT - 1) % DRIVER_NUM_LIMIT
  }

  /** The loop's guard `i >= 0` on an unsigned index. */
  predicate AsWrittenRestoreGuard(i: DriverNum)
  {
    i >= 0
  }

  /** For the first n passes the as-written index counts n - 1 down to 0, as intended. */
  lemma {:induction false} AsWrittenRestoreCountsDown(n: DriverNum, t: nat)
    requires t < n
    ensures AsWrittenRestoreIndex(n, t) == n - 1 - t
  {
    if t > 0 {
      AsWrittenRestoreCountsDown(n, t - 1);
    }
  }

  /**
   * After those n passes the index wraps to 255, the guard still holds, and the
   * next pass reads entry 255, past the n entries restoreState was given.
   */
  lemma AsWrittenRestoreOverruns(n: DriverNum)
    ensures AsWrittenRestoreIndex(n, n) == 255
    ensures AsWrittenRestoreGuard(AsWrittenRestoreIndex(n, n)) && AsWrittenRestoreIndex(n, n) >= n
  {
    if n > 0 {
      AsWrittenRestoreCountsDown(n, n - 1);
    }
  }
}
