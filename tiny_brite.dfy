/**
 * TinyBrite (TinyBrite.h, TinyBrite.cpp): the A6281 controller with its PWM
 * channels named after the LED colours. The BritePacket union is a second
 * declaration of the A6281 packet layout with green, red and blue in place of
 * channels 0, 1 and 2; its builders and sends are proved to be the A6281 ones
 * with the colours placed on those channels. The C++ class derives from
 * TinyA6281; here a BriteChain holds its A6281Chain, and the inherited
 * methods (setup, update cycles, state tracking) are called on that.
 */
module TinyBrite {
  import A6281Packet
  import ChainModel
  import TinyA6281

  /** The TINYBRITE_* constants, each an alias of a TA6281_* one. */
  const COLOR_MAXVALUE: bv32 := A6281Packet.PWM_MAXVALUE
  const CORRECTION_MAXVALUE: bv32 := A6281Packet.CORRECTION_MAXVALUE
  const COMMAND_CLOCK_800KHZ: bv8 := A6281Packet.COMMAND_CLOCK_800KHZ
  const COMMAND_CLOCK_400KHZ: bv8 := A6281Packet.COMMAND_CLOCK_400KHZ
  const COMMAND_CLOCK_200KHZ: bv8 := A6281Packet.COMMAND_CLOCK_200KHZ
  const COMMAND_CLOCK_EXT: bv8 := A6281Packet.COMMAND_CLOCK_EXT
  const AUTOUPDATE_ENABLE := A6281Packet.AUTOUPDATE_ENABLE
  const AUTOUPDATE_DISABLE := A6281Packet.AUTOUPDATE_DISABLE
  const PACKETMODE_COLOR: bv32 := A6281Packet.MODE_PWM
  const PACKETMODE_COMMAND: bv32 := A6281Packet.MODE_CORRECT

  /** Colour view: green:10, red:10, blue:10, mode_pwm:1, allocated from bit 0 up. */
  const GREEN_OFFSET: bv32 := 0
  const RED_OFFSET: bv32 := GREEN_OFFSET + A6281Packet.PWM_WIDTH
  const BLUE_OFFSET: bv32 := RED_OFFSET + A6281Packet.PWM_WIDTH
  const COLOR_MODE_OFFSET: bv32 := BLUE_OFFSET + A6281Packet.PWM_WIDTH

  /**
   * Correction view: greenDotCorrect:7, clockMode:2, (pad):1, redDotCorrect:7,
   * (pad):3, blueDotCorrect:7, (pad):1, atb0:1, atb1:1, mode_correct:1.
   */
  const GREEN_DOT_CORRECT_OFFSET: bv32 := 0
  const BRITE_CLOCK_MODE_OFFSET: bv32 := GREEN_DOT_CORRECT_OFFSET + A6281Packet.CORRECTION_WIDTH
  const RED_DOT_CORRECT_OFFSET: bv32 := BRITE_CLOCK_MODE_OFFSET + A6281Packet.CLOCK_MODE_WIDTH + 1
  const BLUE_DOT_CORRECT_OFFSET: bv32 := RED_DOT_CORRECT_OFFSET + A6281Packet.CORRECTION_WIDTH + 3
  const BRITE_ATB0_OFFSET: bv32 := BLUE_DOT_CORRECT_OFFSET + A6281Packet.CORRECTION_WIDTH + 1
  const BRITE_ATB1_OFFSET: bv32 := BRITE_ATB0_OFFSET + 1
  const COMMAND_MODE_OFFSET: bv32 := BRITE_ATB1_OFFSET + 1

  datatype ColorView = ColorView(green: bv32, red: bv32, blue: bv32, modePwm: bv32)

  function DecodeColor(v: bv32): (w: ColorView)
    ensures w.green <= COLOR_MAXVALUE && w.red <= COLOR_MAXVALUE && w.blue <= COLOR_MAXVALUE
    ensures w.modePwm <= A6281Packet.FLAG_MASK
  {
    ColorView(A6281Packet.Field(v, GREEN_OFFSET, COLOR_MAXVALUE),
              A6281Packet.Field(v, RED_OFFSET, COLOR_MAXVALUE),
              A6281Packet.Field(v, BLUE_OFFSET, COLOR_MAXVALUE),
              A6281Packet.Field(v, COLOR_MODE_OFFSET, A6281Packet.FLAG_MASK))
  }

  datatype BriteCorrectionView = BriteCorrectionView(
    greenDotCorrect: bv32, clockMode: bv32, redDotCorrect: bv32, blueDotCorrect: bv32,
    atb0: bv32, atb1: bv32, modeCorrect: bv32)

  function DecodeBriteCorrection(v: bv32): (w: BriteCorrectionView)
    ensures w.greenDotCorrect <= CORRECTION_MAXVALUE && w.redDotCorrect <= CORRECTION_MAXVALUE
    ensures w.blueDotCorrect <= CORRECTION_MAXVALUE && w.clockMode <= A6281Packet.CLOCK_MODE_MASK
    ensures w.atb0 <= A6281Packet.FLAG_MASK && w.atb1 <= A6281Packet.FLAG_MASK
    ensures w.modeCorrect <= A6281Packet.FLAG_MASK
  {
    BriteCorrectionView(A6281Packet.Field(v, GREEN_DOT_CORRECT_OFFSET, CORRECTION_MAXVALUE),
                        A6281Packet.Field(v, BRITE_CLOCK_MODE_OFFSET, A6281Packet.CLOCK_MODE_MASK),
                        A6281Packet.Field(v, RED_DOT_CORRECT_OFFSET, CORRECTION_MAXVALUE),
                        A6281Packet.Field(v, BLUE_DOT_CORRECT_OFFSET, CORRECTION_MAXVALUE),
                        A6281Packet.Field(v, BRITE_ATB0_OFFSET, A6281Packet.FLAG_MASK),
                        A6281Packet.Field(v, BRITE_ATB1_OFFSET, A6281Packet.FLAG_MASK),
                        A6281Packet.Field(v, COMMAND_MODE_OFFSET, A6281Packet.FLAG_MASK))
  }

  /**
   * The two unions declare the same bits: green, red and blue are PWM channels
   * 0, 1 and 2, and the green, red and blue corrections are dot corrections 0,
   * 1 and 2, with the clock mode, test bits and mode flag in the same places.
   */
  lemma BriteViewsAlias(v: bv32)
    ensures DecodeColor(v)
         == ColorView(A6281Packet.DecodePwm(v).pwm0, A6281Packet.DecodePwm(v).pwm1,
                      A6281Packet.DecodePwm(v).pwm2, A6281Packet.DecodePwm(v).modePwm)
    ensures DecodeBriteCorrection(v)
         == BriteCorrectionView(A6281Packet.DecodeCorrection(v).dotCorrect0, A6281Packet.DecodeCorrection(v).clockMode,
                                A6281Packet.DecodeCorrection(v).dotCorrect1, A6281Packet.DecodeCorrection(v).dotCorrect2,
                                A6281Packet.DecodeCorrection(v).atb0, A6281Packet.DecodeCorrection(v).atb1,
                                A6281Packet.DecodeCorrection(v).modeCorrect)
  {
  }

  /** The TinyBrite constants have the A6281 values. */
  lemma ConstantsAlias()
    ensures COLOR_MAXVALUE == 1023 && CORRECTION_MAXVALUE == 127
    ensures PACKETMODE_COLOR == 0 && PACKETMODE_COMMAND == 1
  {
  }

  /**
   * colorPacket(red, green, blue): a zeroed word with green, red and blue in
   * their fields, each truncated to 10 bits, and the colour mode.
   */
  function ColorPacket(red: bv32, green: bv32, blue: bv32): (r: bv32)
    ensures DecodeColor(r) == ColorView(green & COLOR_MAXVALUE, red & COLOR_MAXVALUE, blue & COLOR_MAXVALUE, PACKETMODE_COLOR)
    ensures A6281Packet.TopBit(r) == 0
  {
    A6281Packet.Place(green, GREEN_OFFSET, COLOR_MAXVALUE)
    | A6281Packet.Place(red, RED_OFFSET, COLOR_MAXVALUE)
    | A6281Packet.Place(blue, BLUE_OFFSET, COLOR_MAXVALUE)
    | A6281Packet.Place(A6281Packet.MODE_PWM, COLOR_MODE_OFFSET, A6281Packet.FLAG_MASK)
  }

  /** Each field of the colour view sits where the A6281 PWM view puts it. */
  lemma ColorPlacesAlias(red: bv32, green: bv32, blue: bv32)
    ensures A6281Packet.Place(green, GREEN_OFFSET, COLOR_MAXVALUE)
         == A6281Packet.Place(green, A6281Packet.PWM0_OFFSET, A6281Packet.PWM_MAXVALUE)
    ensures A6281Packet.Place(red, RED_OFFSET, COLOR_MAXVALUE)
         == A6281Packet.Place(red, A6281Packet.PWM1_OFFSET, A6281Packet.PWM_MAXVALUE)
    ensures A6281Packet.Place(blue, BLUE_OFFSET, COLOR_MAXVALUE)
         == A6281Packet.Place(blue, A6281Packet.PWM2_OFFSET, A6281Packet.PWM_MAXVALUE)
    ensures A6281Packet.Place(A6281Packet.MODE_PWM, COLOR_MODE_OFFSET, A6281Packet.FLAG_MASK)
         == A6281Packet.Place(A6281Packet.MODE_PWM, A6281Packet.MODE_PWM_OFFSET, A6281Packet.FLAG_MASK)
  {
    assert GREEN_OFFSET == A6281Packet.PWM0_OFFSET;
    assert RED_OFFSET == A6281Packet.PWM1_OFFSET;
    assert BLUE_OFFSET == A6281Packet.PWM2_OFFSET;
    assert COLOR_MODE_OFFSET == A6281Packet.MODE_PWM_OFFSET;
  }

  /** The colour packet written with the A6281 field positions. */
  lemma ColorPacketInA6281Places(red: bv32, green: bv32, blue: bv32)
    ensures ColorPacket(red, green, blue)
         == A6281Packet.Place(green, A6281Packet.PWM0_OFFSET, A6281Packet.PWM_MAXVALUE)
          | A6281Packet.Place(red, A6281Packet.PWM1_OFFSET, A6281Packet.PWM_MAXVALUE)
          | A6281Packet.Place(blue, A6281Packet.PWM2_OFFSET, A6281Packet.PWM_MAXVALUE)
          | A6281Packet.Place(A6281Packet.MODE_PWM, A6281Packet.MODE_PWM_OFFSET, A6281Packet.FLAG_MASK)
  {
    ColorPlacesAlias(red, green, blue);
  }

  /** A colour packet is the A6281 PWM packet with green on channel 0 and red on channel 1. */
  lemma ColorPacketIsPwmPacket(red: bv32, green: bv32, blue: bv32)
    ensures ColorPacket(red, green, blue) == A6281Packet.PwmPacket(green, red, blue)
  {
    ColorPacketInA6281Places(red, green, blue);
    A6281Packet.PwmPacketFields(green, red, blue);
  }

  /**
   * commandPacket(redCorrect, greenCorrect, blueCorrect, clockMode): a zeroed
   * word with the three corrections (7 bits each) and the clock mode (2 bits)
   * in their fields and the command mode; test bits, padding and bit 31 zero.
   */
  function CommandPacket(redCorrect: bv32, greenCorrect: bv32, blueCorrect: bv32, clockMode: bv8): (r: bv32)
    ensures DecodeBriteCorrection(r)
         == BriteCorrectionView(greenCorrect & CORRECTION_MAXVALUE, (clockMode as bv32) & A6281Packet.CLOCK_MODE_MASK,
                                redCorrect & CORRECTION_MAXVALUE, blueCorrect & CORRECTION_MAXVALUE, 0, 0, PACKETMODE_COMMAND)
    ensures r & A6281Packet.CORRECTION_PAD_MASK == 0 && A6281Packet.TopBit(r) == 0
  {
    A6281Packet.Place(greenCorrect, GREEN_DOT_CORRECT_OFFSET, CORRECTION_MAXVALUE)
    | A6281Packet.Place(redCorrect, RED_DOT_CORRECT_OFFSET, CORRECTION_MAXVALUE)
    | A6281Packet.Place(blueCorrect, BLUE_DOT_CORRECT_OFFSET, CORRECTION_MAXVALUE)
    | A6281Packet.Place(clockMode as bv32, BRITE_CLOCK_MODE_OFFSET, A6281Packet.CLOCK_MODE_MASK)
    | A6281Packet.Place(A6281Packet.MODE_CORRECT, COMMAND_MODE_OFFSET, A6281Packet.FLAG_MASK)
  }

  /** Each field of the TinyBrite correction view sits where the A6281 view puts it. */
  lemma CorrectionPlacesAlias(redCorrect: bv32, greenCorrect: bv32, blueCorrect: bv32, clockMode: bv8)
    ensures A6281Packet.Place(greenCorrect, GREEN_DOT_CORRECT_OFFSET, CORRECTION_MAXVALUE)
         == A6281Packet.Place(greenCorrect, A6281Packet.DOT_CORRECT0_OFFSET, A6281Packet.CORRECTION_MAXVALUE)
    ensures A6281Packet.Place(redCorrect, RED_DOT_CORRECT_OFFSET, CORRECTION_MAXVALUE)
         == A6281Packet.Place(redCorrect, A6281Packet.DOT_CORRECT1_OFFSET, A6281Packet.CORRECTION_MAXVALUE)
    ensures A6281Packet.Place(blueCorrect, BLUE_DOT_CORRECT_OFFSET, CORRECTION_MAXVALUE)
         == A6281Packet.Place(blueCorrect, A6281Packet.DOT_CORRECT2_OFFSET, A6281Packet.CORRECTION_MAXVALUE)
    ensures A6281Packet.Place(clockMode as bv32, BRITE_CLOCK_MODE_OFFSET, A6281Packet.CLOCK_MODE_MASK)
         == A6281Packet.Place(clockMode as bv32, A6281Packet.CLOCK_MODE_OFFSET, A6281Packet.CLOCK_MODE_MASK)
    ensures A6281Packet.Place(A6281Packet.MODE_CORRECT, COMMAND_MODE_OFFSET, A6281Packet.FLAG_MASK)
         == A6281Packet.Place(A6281Packet.MODE_CORRECT, A6281Packet.MODE_CORRECT_OFFSET, A6281Packet.FLAG_MASK)
  {
    assert GREEN_DOT_CORRECT_OFFSET == A6281Packet.DOT_CORRECT0_OFFSET;
    assert RED_DOT_CORRECT_OFFSET == A6281Packet.DOT_CORRECT1_OFFSET;
    assert BLUE_DOT_CORRECT_OFFSET == A6281Packet.DOT_CORRECT2_OFFSET;
    assert BRITE_CLOCK_MODE_OFFSET == A6281Packet.CLOCK_MODE_OFFSET;
    assert COMMAND_MODE_OFFSET == A6281Packet.MODE_CORRECT_OFFSET;
  }

  /** The TinyBrite command packet written with the A6281 field positions. */
  lemma CommandPacketInA6281Places(redCorrect: bv32, greenCorrect: bv32, blueCorrect: bv32, clockMode: bv8)
    ensures CommandPacket(redCorrect, greenCorrect, blueCorrect, clockMode)
         == A6281Packet.Place(greenCorrect, A6281Packet.DOT_CORRECT0_OFFSET, A6281Packet.CORRECTION_MAXVALUE)
          | A6281Packet.Place(redCorrect, A6281Packet.DOT_CORRECT1_OFFSET, A6281Packet.CORRECTION_MAXVALUE)
          | A6281Packet.Place(blueCorrect, A6281Packet.DOT_CORRECT2_OFFSET, A6281Packet.CORRECTION_MAXVALUE)
          | A6281Packet.Place(clockMode as bv32, A6281Packet.CLOCK_MODE_OFFSET, A6281Packet.CLOCK_MODE_MASK)
          | A6281Packet.Place(A6281Packet.MODE_CORRECT, A6281Packet.MODE_CORRECT_OFFSET, A6281Packet.FLAG_MASK)
  {
    CorrectionPlacesAlias(redCorrect, greenCorrect, blueCorrect, clockMode);
  }

  /** A TinyBrite command packet is the A6281 one with the green correction first and the red one second. */
  lemma CommandPacketIsA6281Command(redCorrect: bv32, greenCorrect: bv32, blueCorrect: bv32, clockMode: bv8)
    ensures CommandPacket(redCorrect, greenCorrect, blueCorrect, clockMode)
         == A6281Packet.CommandPacket(greenCorrect, redCorrect, blueCorrect, clockMode)
  {
    CommandPacketInA6281Places(redCorrect, greenCorrect, blueCorrect, clockMode);
    A6281Packet.CommandPacketFields(greenCorrect, redCorrect, blueCorrect, clockMode);
  }

  /** In-range colours survive a colour-packet round trip. */
  lemma ColorRoundTrip(red: bv32, green: bv32, blue: bv32)
    requires red <= COLOR_MAXVALUE && green <= COLOR_MAXVALUE && blue <= COLOR_MAXVALUE
    ensures DecodeColor(ColorPacket(red, green, blue)) == ColorView(green, red, blue, PACKETMODE_COLOR)
  {
  }

  /** A TinyBrite: an A6281 chain whose sends take colour-named packets. */
  class BriteChain {
    const driver: TinyA6281.A6281Chain

    ghost predicate Valid()
      reads this, driver, driver.stateVector
    {
      driver.Valid()
    }

    /** TinyBrite(num_brites, auto_update_cycle). */
    constructor (numBrites: ChainModel.DriverNum, autoUpdates: bool)
      ensures Valid() && fresh(driver) && driver.State() == ChainModel.Init(numBrites, autoUpdates)
    {
      driver := new TinyA6281.A6281Chain(numBrites, autoUpdates);
    }

    /** TinyBrite() with the default arguments: one device, auto-update disabled. */
    constructor Default()
      ensures Valid() && fresh(driver) && driver.State() == ChainModel.Init(1, AUTOUPDATE_DISABLE)
    {
      driver := new TinyA6281.A6281Chain.Default();
    }

    /** sendPacket(packet, num_times): the same 32-bit value and count, to the A6281 sendPacket. */
    method SendPacket(packet: bv32, numTimes: ChainModel.Uint8)
      requires Valid()
      modifies driver, driver.stateVector
      ensures Valid() && driver.stateVector == old(driver.stateVector)
      ensures driver.State() == ChainModel.SendPacket(old(driver.State()), packet, numTimes)
    {
      driver.SendPacket(packet, numTimes);
    }

    /** sendPackets(packets, numPackets): the same values and count, to the A6281 sendPackets. */
    method SendPackets(packets: array<bv32>, numPackets: ChainModel.DriverNum)
      requires Valid() && numPackets <= packets.Length && packets != driver.stateVector
      modifies driver, driver.stateVector
      ensures Valid() && driver.stateVector == old(driver.stateVector)
      ensures driver.State() == ChainModel.SendPackets(old(driver.State()), packets[..numPackets])
    {
      driver.SendPackets(packets, numPackets);
    }

    /** sendPacketToAll(packet): the same value, to the A6281 sendPacketToAll. */
    method SendPacketToAll(packet: bv32)
      requires Valid()
      modifies driver, driver.stateVector
      ensures Valid() && driver.stateVector == old(driver.stateVector)
      ensures driver.State() == ChainModel.SendPacketToAll(old(driver.State()), packet)
    {
      driver.SendPacketToAll(packet);
    }

    /** sendColor(red, green, blue): sendPacket of the colour packet, once. */
    method SendColor(red: bv32, green: bv32, blue: bv32)
      requires Valid()
      modifies driver, driver.stateVector
      ensures Valid() && driver.stateVector == old(driver.stateVector)
      ensures driver.State() == ChainModel.SendPacket(old(driver.State()), ColorPacket(red, green, blue), 1)
    {
      SendPacket(ColorPacket(red, green, blue), 1);
    }

    /** sendCommand(redDotCorrect, greenDotCorrect, blueDotCorrect, clockMode): sendPacket of the command packet, once. */
    method SendCommand(redDotCorrect: bv32, greenDotCorrect: bv32, blueDotCorrect: bv32, clockMode: bv8)
      requires Valid()
      modifies driver, driver.stateVector
      ensures Valid() && driver.stateVector == old(driver.stateVector)
      ensures driver.State()
           == ChainModel.SendPacket(old(driver.State()), CommandPacket(redDotCorrect, greenDotCorrect, blueDotCorrect, clockMode), 1)
    {
      SendPacket(CommandPacket(redDotCorrect, greenDotCorrect, blueDotCorrect, clockMode), 1);
    }
  }
}
