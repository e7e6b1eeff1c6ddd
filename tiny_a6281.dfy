/**
 * The TinyA6281 controller class (TinyA6281.cpp, includes/TinyA6281.h) as an
 * imperative Dafny class. Every method updates the fields the way the C++
 * method does and is proved to produce the state that ChainModel computes
 * for the same call; the pins are a ghost trace of events.
 */
module TinyA6281 {
  import opened Wire
  import opened StateRing
  import A6281Packet
  import ChainModel

  type DriverNum = ChainModel.DriverNum
  type Uint8 = ChainModel.Uint8

  class A6281Chain {
    const numDrivers: DriverNum
    var autoUpdateCycle: bool
    var numSent: DriverNum
    var usingNotEnable: bool
    var trackingState: bool
    /** The state vector; null until setStateTracking allocates it. */
    var stateVector: array?<bv32>
    var stateVectorHeadIdx: DriverNum
    /** Everything done to the data, clock, latch and not-enable pins so far. */
    ghost var trace: seq<Event>

    /** An allocated state vector has one slot per chip and a head in [0, numDrivers]. */
    ghost predicate Valid()
      reads this, stateVector
    {
      stateVector != null ==> 0 < stateVector.Length == numDrivers && stateVectorHeadIdx <= numDrivers
    }

    /** The fields as a ChainModel value. */
    ghost function State(): (c: ChainModel.ChainState)
      reads this, stateVector
      requires Valid()
      ensures ChainModel.WellFormed(c)
    {
      ChainModel.ChainState(
        numDrivers, autoUpdateCycle, numSent, usingNotEnable, trackingState,
        if stateVector == null then ChainModel.None
        else ChainModel.Some(RingState(stateVector[..], stateVectorHeadIdx)),
        trace)
    }

    /** TinyA6281(numA6281s, autoUpdates). */
    constructor (numA6281s: DriverNum, autoUpdates: bool)
      ensures Valid() && State() == ChainModel.Init(numA6281s, autoUpdates)
    {
      numDrivers := numA6281s;
      autoUpdateCycle := autoUpdates;
      numSent := 0;
      usingNotEnable := false;
      trackingState := false;
      stateVector := null;
      stateVectorHeadIdx := 0;
      trace := [];
    }

    /** TinyA6281() with the default arguments: one chip, auto-update disabled. */
    constructor Default()
      ensures Valid() && State() == ChainModel.Init(1, A6281Packet.AUTOUPDATE_DISABLE)
    {
      numDrivers := 1;
      autoUpdateCycle := A6281Packet.AUTOUPDATE_DISABLE;
      numSent := 0;
      usingNotEnable := false;
      trackingState := false;
      stateVector := null;
      stateVectorHeadIdx := 0;
      trace := [];
    }

    method AutoUpdate() returns (on: bool)
      requires Valid()
      ensures on == State().autoUpdate
    {
      on := autoUpdateCycle;
    }

    method SetAutoUpdate(setTo: bool)
      requires Valid()
      modifies this
      ensures Valid() && State() == ChainModel.SetAutoUpdate(old(State()), setTo)
    {
      autoUpdateCycle := setTo;
    }

    method StateTracking() returns (on: bool)
      requires Valid()
      ensures on == State().tracking
    {
      on := trackingState;
    }

    /** setup(datapin, clockpin, latchpin): no not-enable line. */
    method Setup()
      requires Valid()
      modifies this
      ensures Valid() && State() == ChainModel.Setup(old(State()), false)
    {
      usingNotEnable := false;
    }

    /** setup(datapin, clockpin, latchpin, nEnablepin): the not-enable line is used and driven low. */
    method SetupWithNotEnable()
      requires Valid()
      modifies this
      ensures Valid() && State() == ChainModel.Setup(old(State()), true)
    {
      usingNotEnable := true;
      trace := trace + [EnableLine(false)];
    }

    method SetEnabled(activate: bool)
      requires Valid()
      modifies this
      ensures Valid() && State() == ChainModel.SetEnabled(old(State()), activate)
    {
      if usingNotEnable {
        if activate {
          trace := trace + [EnableLine(false)];
        } else {
          trace := trace + [EnableLine(true)];
        }
      }
    }

    method BeginUpdate()
      requires Valid()
      modifies this
      ensures Valid() && State() == ChainModel.BeginUpdate(old(State()))
      ensures stateVector == old(stateVector)
    {
      numSent := 0;
    }

    method Latch()
      requires Valid()
      modifies this
      ensures Valid() && State() == ChainModel.Latch(old(State()))
      ensures stateVector == old(stateVector)
    {
      trace := trace + [LatchPulse];
    }

    /** endUpdate: latches if anything was counted and returns the count. */
    method EndUpdate() returns (sent: DriverNum)
      requires Valid()
      modifies this
      ensures Valid() && State() == ChainModel.EndUpdate(old(State()))
      ensures stateVector == old(stateVector)
      ensures sent == old(numSent)
    {
      if numSent != 0 {
        Latch();
      }
      sent := numSent;
    }

    /** One pass of the bit loop of sendPacket: bits 31 down to 0, each clocked in. */
    method ShiftOut(packet: bv32)
      requires Valid()
      modifies this
      ensures Valid() && stateVector == old(stateVector)
      ensures State() == old(State()).(trace := old(trace) + PacketEvents(packet))
    {
      ghost var c0 := State();
      for i := 1 to 33
        invariant Valid() && stateVector == old(stateVector)
        invariant State() == c0.(trace := c0.trace + WordEvents(packet, i - 1))
      {
        var high := Bit(packet, 32 - i);
        trace := trace + [DataBit(high), ClockPulse];
      }
    }

    /** The repeat loop of sendPacket: the packet `numTimes` times, each counted. */
    method Transmit(packet: bv32, numTimes: Uint8)
      requires Valid()
      modifies this
      ensures Valid() && stateVector == old(stateVector)
      ensures State() == ChainModel.Transmit(old(State()), packet, numTimes)
    {
      ghost var c0 := State();
      for n := 0 to numTimes
        invariant Valid() && stateVector == old(stateVector)
        invariant State() == ChainModel.Transmit(c0, packet, n)
      {
        ShiftOut(packet);
        ChainModel.CountStep(c0.numSent + n);
        numSent := (numSent + 1) % ChainModel.DRIVER_NUM_LIMIT;
      }
    }

    /** The state-tracking step of sendPacket: move the head back one slot and store the packet there. */
    method Track(packet: bv32)
      requires Valid()
      modifies this, stateVector
      ensures Valid() && stateVector == old(stateVector)
      ensures State() == ChainModel.Track(old(State()), packet)
    {
      if trackingState && stateVector != null {
        if stateVectorHeadIdx != 0 {
          stateVectorHeadIdx := stateVectorHeadIdx - 1;
        } else {
          stateVectorHeadIdx := numDrivers - 1;
        }
        stateVector[stateVectorHeadIdx] := packet;
      }
    }

    /** sendPacket(packet, num_times). */
    method SendPacket(packet: bv32, numTimes: Uint8)
      requires Valid()
      modifies this, stateVector
      ensures Valid() && stateVector == old(stateVector)
      ensures State() == ChainModel.SendPacket(old(State()), packet, numTimes)
    {
      if autoUpdateCycle {
        BeginUpdate();
      }
      Transmit(packet, numTimes);
      Track(packet);
      if autoUpdateCycle {
        var _ := EndUpdate();
      }
    }

    /**
     * sendPackets(packets, numPackets): the first numPackets entries, in
     * order; with auto-update on they form one update cycle.
     */
    method SendPackets(packets: array<bv32>, numPackets: DriverNum)
      requires Valid() && numPackets <= packets.Length && packets != stateVector
      modifies this, stateVector
      ensures Valid() && stateVector == old(stateVector)
      ensures State() == ChainModel.SendPackets(old(State()), packets[..numPackets])
    {
      ghost var c0 := State();
      var tmpUpdate := false;
      if autoUpdateCycle {
        tmpUpdate := true;
        autoUpdateCycle := false;
        BeginUpdate();
      }
      ghost var start := State();
      for i := 0 to numPackets
        invariant Valid() && stateVector == old(stateVector)
        invariant State() == ChainModel.SendEach(start, packets[..i])
      {
        assert packets[..i + 1][..i] == packets[..i];
        SendPacket(packets[i], 1);
      }
      if tmpUpdate {
        var _ := EndUpdate();
        autoUpdateCycle := true;
      }
    }

    /** sendPacketToAll: one sendPacket call repeating the packet once per chip. */
    method SendPacketToAll(packet: bv32)
      requires Valid()
      modifies this, stateVector
      ensures Valid() && stateVector == old(stateVector)
      ensures State() == ChainModel.SendPacketToAll(old(State()), packet)
    {
      SendPacket(packet, numDrivers);
    }

    /** sendPWMValues: a PWM packet of the three values, sent once. */
    method SendPwmValues(pwm0: bv32, pwm1: bv32, pwm2: bv32)
      requires Valid()
      modifies this, stateVector
      ensures Valid() && stateVector == old(stateVector)
      ensures State() == ChainModel.SendPacket(old(State()), A6281Packet.PwmPacket(pwm0, pwm1, pwm2), 1)
    {
      SendPacket(A6281Packet.PwmPacket(pwm0, pwm1, pwm2), 1);
    }

    /** sendCommand: a command packet of the three corrections and the clock mode, sent once. */
    method SendCommand(correct0: bv32, correct1: bv32, correct2: bv32, clockMode: bv8)
      requires Valid()
      modifies this, stateVector
      ensures Valid() && stateVector == old(stateVector)
      ensures State()
           == ChainModel.SendPacket(old(State()), A6281Packet.CommandPacket(correct0, correct1, correct2, clockMode), 1)
    {
      SendPacket(A6281Packet.CommandPacket(correct0, correct1, correct2, clockMode), 1);
    }

    /**
     * setStateTracking(setTo): `allocSucceeds` stands for the outcome of the
     * allocation, which the code tests for NULL. Returns whether tracking is on.
     */
    method SetStateTracking(setTo: bool, allocSucceeds: bool) returns (on: bool)
      requires Valid()
      modifies this
      ensures Valid() && State() == ChainModel.SetStateTracking(old(State()), setTo, allocSucceeds)
      ensures on == State().tracking
      ensures stateVector == old(stateVector) || fresh(stateVector)
    {
      trackingState := setTo;
      if trackingState && numDrivers != 0 && stateVector == null {
        if allocSucceeds {
          var buf := new bv32[numDrivers];
          for i := 0 to numDrivers
            modifies buf
            invariant forall j :: 0 <= j < i ==> buf[j] == 0
          {
            buf[i] := 0;
          }
          assert buf[..] == ChainModel.Zeros(numDrivers);
          stateVector := buf;
          stateVectorHeadIdx := numDrivers;
          assert State().ring == ChainModel.Some(RingState(ChainModel.Zeros(numDrivers), numDrivers));
        } else {
          trackingState := false;
        }
      }
      on := trackingState;
    }

    /** getState(driver_index): the raw slot, or None; the slot's value stands for its address. */
    method GetState(driverIndex: DriverNum) returns (slot: ChainModel.Option<bv32>)
      requires Valid()
      ensures slot == ChainModel.GetState(State(), driverIndex)
    {
      if driverIndex >= numDrivers || stateVector == null {
        return ChainModel.None;
      }
      return ChainModel.Some(stateVector[driverIndex]);
    }

    /**
     * saveState(a_state_vector): copies the chain's contents, nearest chip
     * first, into `out` and returns how many it copied (0 before the first
     * tracked send or without a buffer).
     */
    method SaveState(out: array<bv32>) returns (count: DriverNum)
      requires Valid() && numDrivers <= out.Length && out != stateVector
      modifies out
      ensures count == |ChainModel.SaveState(State())|
      ensures out[..count] == ChainModel.SaveState(State())
      ensures out[count..] == old(out[count..])
    {
      if stateVector == null {
        return 0;
      }
      if stateVectorHeadIdx >= numDrivers {
        return 0;
      }
      var cur := stateVectorHeadIdx;
      for i := 0 to numDrivers
        invariant i < numDrivers ==> cur == Ahead(stateVectorHeadIdx, i, numDrivers)
        invariant forall j :: 0 <= j < i ==> out[j] == stateVector[Ahead(stateVectorHeadIdx, j, numDrivers)]
        invariant out[numDrivers..] == old(out[numDrivers..])
      {
        out[i] := stateVector[cur];
        cur := cur + 1;
        if cur >= numDrivers {
          cur := 0;
        }
      }
      count := numDrivers;
    }

    /**
     * restoreState(a_state_vector) with the loop the code intends: entries
     * n - 1 down to 0, inside one update cycle with auto-update suspended.
     */
    method RestoreState(saved: array<bv32>)
      requires Valid() && numDrivers <= saved.Length && saved != stateVector
      modifies this, stateVector
      ensures Valid() && stateVector == old(stateVector)
      ensures State() == ChainModel.RestoreState(old(State()), saved[..])
    {
      var tmpUpdate := autoUpdateCycle;
      autoUpdateCycle := false;
      BeginUpdate();
      ghost var start := State();
      assert start == ChainModel.BeginUpdate(old(State()).(autoUpdate := false));
      ghost var order := ChainModel.RestoreOrder(saved[..], numDrivers);
      RestoreLoop(saved, order);
      var _ := EndUpdate();
      autoUpdateCycle := tmpUpdate;
    }

    /** The intended loop of restoreState: entries n - 1 down to 0, each in its own sendPacket call. */
    method RestoreLoop(saved: array<bv32>, ghost order: seq<bv32>)
      requires Valid() && numDrivers <= saved.Length && saved != stateVector
      requires order == ChainModel.RestoreOrder(saved[..], numDrivers)
      modifies this, stateVector
      ensures Valid() && stateVector == old(stateVector)
      ensures State() == ChainModel.SendEach(old(State()), order)
    {
      ghost var start := State();
      var i := numDrivers;
      while i > 0
        invariant 0 <= i <= numDrivers == |order| && Valid() && stateVector == old(stateVector)
        invariant State() == ChainModel.SendEach(start, order[..numDrivers - i])
      {
        i := i - 1;
        ghost var done := order[..numDrivers - i];
        assert done[..|done| - 1] == order[..numDrivers - i - 1] && done[|done| - 1] == saved[i];
        assert ChainModel.SendEach(start, done)
            == ChainModel.SendPacket(ChainModel.SendEach(start, done[..|done| - 1]), saved[i], 1);
        SendPacket(saved[i], 1);
      }
      assert order[..numDrivers] == order;
    }
  }
}
