/**
 * What the controller does to its pins (TinyA6281.cpp), recorded as a trace
 * of events instead of real pin writes. A clock pulse stands for the
 * HIGH/delay/LOW/delay sequence on the clock line, a latch pulse for the
 * HIGH/delay/LOW sequence on the latch line; the delays themselves are not
 * modelled.
 */
module Wire {

  datatype Event =
    | DataBit(high: bool)     // the data line is driven to the value of one packet bit
    | ClockPulse              // one pulse on the clock line shifts that bit into the chain
    | LatchPulse              // one pulse on the latch line makes every chip adopt its register
    | EnableLine(high: bool)  // the active-low not-enable line is driven high or low

  /** Bit `k` of a packet word (bit 0 is the least significant). */
  function Bit(v: bv32, k: nat): bool
    requires k < 32
  {
    (v >> k) & 1 == 1
  }

  /**
   * The events of the first `count` passes of the bit loop of sendPacket
   * (TinyA6281.cpp:245-257): pass i (1-based) drives bit 32 - i, then pulses the clock.
   */
  function WordEvents(v: bv32, count: nat): (t: seq<Event>)
    requires count <= 32
    ensures forall e :: e in t ==> e.DataBit? || e == ClockPulse
  {
    if count == 0 then [] else WordEvents(v, count - 1) + [DataBit(Bit(v, 32 - count)), ClockPulse]
  }

  /** All events of shifting one packet into the chain. */
  function PacketEvents(v: bv32): seq<Event>
  {
    WordEvents(v, 32)
  }

  /** The events of shifting the same packet in `times` times in a row. */
  function RepeatEvents(v: bv32, times: nat): (t: seq<Event>)
    ensures forall e :: e in t ==> e.DataBit? || e == ClockPulse
  {
    if times == 0 then [] else RepeatEvents(v, times - 1) + PacketEvents(v)
  }

  /** The events of shifting in every packet of `ps`, first to last. */
  function BatchEvents(ps: seq<bv32>): (t: seq<Event>)
    ensures forall e :: e in t ==> e.DataBit? || e == ClockPulse
  {
    if ps == [] then [] else BatchEvents(ps[..|ps| - 1]) + PacketEvents(ps[|ps| - 1])
  }

  /** The number of latch pulses in a trace. */
  function CountLatches(t: seq<Event>): nat
  {
    if t == [] then 0 else CountLatches(t[..|t| - 1]) + (if t[|t| - 1] == LatchPulse then 1 else 0)
  }

  /**
   * Within one packet the bits go out most significant first: event 2m drives
   * bit 31 - m and event 2m + 1 is the clock pulse that shifts it in.
   */
  lemma {:induction false} WordEventAt(v: bv32, count: nat, m: nat)
    requires m < count <= 32
    ensures |WordEvents(v, count)| == 2 * count
    ensures WordEvents(v, count)[2 * m] == DataBit(Bit(v, 31 - m))
    ensures WordEvents(v, count)[2 * m + 1] == ClockPulse
  {
    if m < count - 1 {
      WordEventAt(v, count - 1, m);
    } else {
      WordEventsLength(v, count - 1);
    }
  }

  lemma {:induction false} WordEventsLength(v: bv32, count: nat)
    requires count <= 32
    ensures |WordEvents(v, count)| == 2 * count
  {
    if count > 0 {
      WordEventsLength(v, count - 1);
    }
  }

  /**
   * Sending a packet `times` times gives 64 * times events: in repetition j,
   * event 2m drives bit 31 - m and event 2m + 1 is a clock pulse.
   */
  lemma {:induction false} RepeatEventAt(v: bv32, times: nat, j: nat, m: nat)
    requires j < times && m < 32
    ensures |RepeatEvents(v, times)| == 64 * times
    ensures RepeatEvents(v, times)[64 * j + 2 * m] == DataBit(Bit(v, 31 - m))
    ensures RepeatEvents(v, times)[64 * j + 2 * m + 1] == ClockPulse
  {
    WordEventAt(v, 32, m);
    if j < times - 1 {
      RepeatEventAt(v, times - 1, j, m);
    } else {
      RepeatEventsLength(v, times - 1);
    }
  }

  lemma {:induction false} RepeatEventsLength(v: bv32, times: nat)
    ensures |RepeatEvents(v, times)| == 64 * times
  {
    WordEventsLength(v, 32);
    if times > 0 {
      RepeatEventsLength(v, times - 1);
    }
  }

  /** Latch pulses of a concatenation add up. */
  lemma {:induction false} CountLatchesAppend(a: seq<Event>, b: seq<Event>)
    ensures CountLatches(a + b) == CountLatches(a) + CountLatches(b)
  {
    if b != [] {
      assert (a + b)[..|a + b| - 1] == a + b[..|b| - 1];
      CountLatchesAppend(a, b[..|b| - 1]);
    } else {
      assert a + b == a;
    }
  }

  /** Shifting packets in never pulses the latch. */
  lemma {:induction false} NoLatchInWord(v: bv32, count: nat)
    requires count <= 32
    ensures CountLatches(WordEvents(v, count)) == 0
  {
    if count > 0 {
      NoLatchInWord(v, count - 1);
      CountLatchesAppend(WordEvents(v, count - 1), [DataBit(Bit(v, 32 - count)), ClockPulse]);
      var pair := [DataBit(Bit(v, 32 - count)), ClockPulse];
      assert pair[..1][..0] == [];
      assert CountLatches(pair[..1]) == 0;
      assert pair[..|pair| - 1] == pair[..1];
    }
  }

  lemma {:induction false} NoLatchInRepeat(v: bv32, times: nat)
    ensures CountLatches(RepeatEvents(v, times)) == 0
  {
    if times > 0 {
      NoLatchInRepeat(v, times - 1);
      NoLatchInWord(v, 32);
      CountLatchesAppend(RepeatEvents(v, times - 1), PacketEvents(v));
    }
  }

  lemma {:induction false} NoLatchInBatch(ps: seq<bv32>)
    ensures CountLatches(BatchEvents(ps)) == 0
  {
    if ps != [] {
      NoLatchInBatch(ps[..|ps| - 1]);
      NoLatchInWord(ps[|ps| - 1], 32);
      CountLatchesAppend(BatchEvents(ps[..|ps| - 1]), PacketEvents(ps[|ps| - 1]));
    }
  }

  /** A batch is the packets' own event blocks, in order: block k is the events of ps[k]. */
  lemma {:induction false} BatchEventsBlock(ps: seq<bv32>, k: nat)
    requires k < |ps|
    ensures |BatchEvents(ps)| == 64 * |ps|
    ensures BatchEvents(ps)[64 * k .. 64 * k + 64] == PacketEvents(ps[k])
  {
    var init, last := ps[..|ps| - 1], ps[|ps| - 1];
    var tail := PacketEvents(last);
    WordEventsLength(last, 32);
    assert BatchEvents(ps) == BatchEvents(init) + tail;
    if |ps| == 1 {
      assert BatchEvents(init) == [];
      assert BatchEvents(ps)[0..64] == tail;
    } else {
      var head := BatchEvents(init);
      BatchEventsBlock(init, if k < |ps| - 1 then k else 0);
      if k < |ps| - 1 {
        assert (head + tail)[64 * k .. 64 * k + 64] == head[64 * k .. 64 * k + 64];
        assert ps[k] == init[k];
      } else {
        assert (head + tail)[64 * k .. 64 * k + 64] == tail;
      }
    }
  }
}
