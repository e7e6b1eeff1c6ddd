/**
 * The 32-bit A6281 packet (includes/TinyA6281.h) and the two packet builders
 * of TinyA6281.cpp.
 *
 * The C source declares the packet as a union of an `unsigned long` and two
 * bit-field structs. Bit-field allocation order is implementation-defined in
 * C; this model assumes GCC's LSB-first allocation, under which each field
 * starts at the sum of the widths declared before it in its struct. The union
 * becomes a plain `bv32`, and each view becomes a set of shift-and-mask reads.
 */
module A6281Packet {

  /** Values of the mode flag. */
  const MODE_PWM: bv32 := 0
  const MODE_CORRECT: bv32 := 1

  /** Largest PWM value and largest dot-correction value; they are also the masks of those fields. */
  const PWM_MAXVALUE: bv32 := 1023
  const CORRECTION_MAXVALUE: bv32 := 127
  const CLOCK_MODE_MASK: bv32 := 3
  const FLAG_MASK: bv32 := 1

  /** Clock-mode selectors, written in the source with the binary literals B00, B10, B11 and B01. */
  const COMMAND_CLOCK_800KHZ: bv8 := 0
  const COMMAND_CLOCK_400KHZ: bv8 := 2
  const COMMAND_CLOCK_200KHZ: bv8 := 3
  const COMMAND_CLOCK_EXT: bv8 := 1

  const AUTOUPDATE_ENABLE := true
  const AUTOUPDATE_DISABLE := false

  /** Field widths, in declaration order. */
  const PWM_WIDTH: bv32 := 10
  const CORRECTION_WIDTH: bv32 := 7
  const CLOCK_MODE_WIDTH: bv32 := 2

  /** PWM view: pwm_0:10, pwm_1:10, pwm_2:10, mode_pwm:1. */
  const PWM0_OFFSET: bv32 := 0
  const PWM1_OFFSET: bv32 := PWM0_OFFSET + PWM_WIDTH
  const PWM2_OFFSET: bv32 := PWM1_OFFSET + PWM_WIDTH
  const MODE_PWM_OFFSET: bv32 := PWM2_OFFSET + PWM_WIDTH

  /**
   * Correction view: dotCorrect0:7, clockMode:2, (pad):1, dotCorrect1:7, (pad):3,
   * dotCorrect2:7, (pad):1, atb0:1, atb1:1, mode_correct:1.
   */
  const DOT_CORRECT0_OFFSET: bv32 := 0
  const CLOCK_MODE_OFFSET: bv32 := DOT_CORRECT0_OFFSET + CORRECTION_WIDTH
  const DOT_CORRECT1_OFFSET: bv32 := CLOCK_MODE_OFFSET + CLOCK_MODE_WIDTH + 1
  const DOT_CORRECT2_OFFSET: bv32 := DOT_CORRECT1_OFFSET + CORRECTION_WIDTH + 3
  const ATB0_OFFSET: bv32 := DOT_CORRECT2_OFFSET + CORRECTION_WIDTH + 1
  const ATB1_OFFSET: bv32 := ATB0_OFFSET + 1
  const MODE_CORRECT_OFFSET: bv32 := ATB1_OFFSET + 1

  /** Bit 31 follows the last declared field of both views; no view names it. */
  const TOP_BIT_OFFSET: bv32 := 31

  /** The bits of the correction view that belong to no named field: 9, 17-19 and 27. */
  const CORRECTION_PAD_MASK: bv32 := 0x0800_0000 | 0x000E_0000 | 0x0000_0200

  /** Reads the field of `v` at `offset` whose mask is `mask`. */
  function Field(v: bv32, offset: bv32, mask: bv32): bv32
    requires offset < 32
  {
    (v >> offset) & mask
  }

  /** Stores `x`, truncated to `mask`, into the field at `offset` of an all-zero word. */
  function Place(x: bv32, offset: bv32, mask: bv32): bv32
    requires offset < 32
  {
    (x & mask) << offset
  }

  function TopBit(v: bv32): bv32 { Field(v, TOP_BIT_OFFSET, FLAG_MASK) }

  /** The PWM view of a packet word. */
  datatype PwmView = PwmView(pwm0: bv32, pwm1: bv32, pwm2: bv32, modePwm: bv32)

  function DecodePwm(v: bv32): (w: PwmView)
    ensures w.pwm0 <= PWM_MAXVALUE && w.pwm1 <= PWM_MAXVALUE && w.pwm2 <= PWM_MAXVALUE
    ensures w.modePwm <= FLAG_MASK
  {
    PwmView(Field(v, PWM0_OFFSET, PWM_MAXVALUE),
            Field(v, PWM1_OFFSET, PWM_MAXVALUE),
            Field(v, PWM2_OFFSET, PWM_MAXVALUE),
            Field(v, MODE_PWM_OFFSET, FLAG_MASK))
  }

  /** The correction (command) view of a packet word. */
  datatype CorrectionView = CorrectionView(
    dotCorrect0: bv32, clockMode: bv32, dotCorrect1: bv32, dotCorrect2: bv32,
    atb0: bv32, atb1: bv32, modeCorrect: bv32)

  function DecodeCorrection(v: bv32): (w: CorrectionView)
    ensures w.dotCorrect0 <= CORRECTION_MAXVALUE && w.dotCorrect1 <= CORRECTION_MAXVALUE
    ensures w.dotCorrect2 <= CORRECTION_MAXVALUE && w.clockMode <= CLOCK_MODE_MASK
    ensures w.atb0 <= FLAG_MASK && w.atb1 <= FLAG_MASK && w.modeCorrect <= FLAG_MASK
  {
    CorrectionView(Field(v, DOT_CORRECT0_OFFSET, CORRECTION_MAXVALUE),
                   Field(v, CLOCK_MODE_OFFSET, CLOCK_MODE_MASK),
                   Field(v, DOT_CORRECT1_OFFSET, CORRECTION_MAXVALUE),
                   Field(v, DOT_CORRECT2_OFFSET, CORRECTION_MAXVALUE),
                   Field(v, ATB0_OFFSET, FLAG_MASK),
                   Field(v, ATB1_OFFSET, FLAG_MASK),
                   Field(v, MODE_CORRECT_OFFSET, FLAG_MASK))
  }

  /**
   * pwmPacket: a zeroed word whose three PWM fields receive the arguments, each
   * truncated to 10 bits, and whose mode flag is MODE_PWM. The `unsigned int`
   * arguments are taken as 32-bit values; a 16-bit `unsigned int` is a special case.
   */
  function PwmPacket(pwm0: bv32, pwm1: bv32, pwm2: bv32): (r: bv32)
    ensures DecodePwm(r) == PwmView(pwm0 & PWM_MAXVALUE, pwm1 & PWM_MAXVALUE, pwm2 & PWM_MAXVALUE, MODE_PWM)
    ensures TopBit(r) == 0
  {
    Place(pwm0, PWM0_OFFSET, PWM_MAXVALUE) | Place(pwm1, PWM1_OFFSET, PWM_MAXVALUE)
    | Place(pwm2, PWM2_OFFSET, PWM_MAXVALUE) | Place(MODE_PWM, MODE_PWM_OFFSET, FLAG_MASK)
  }

  /** The PWM packet as the OR of its placed fields. */
  lemma PwmPacketFields(pwm0: bv32, pwm1: bv32, pwm2: bv32)
    ensures PwmPacket(pwm0, pwm1, pwm2)
         == Place(pwm0, PWM0_OFFSET, PWM_MAXVALUE) | Place(pwm1, PWM1_OFFSET, PWM_MAXVALUE)
          | Place(pwm2, PWM2_OFFSET, PWM_MAXVALUE) | Place(MODE_PWM, MODE_PWM_OFFSET, FLAG_MASK)
  {
  }

  /**
   * commandPacket: a zeroed word whose three dot-correction fields receive the
   * first three arguments truncated to 7 bits, whose clock-mode field receives
   * `clockMode` truncated to 2 bits, and whose mode flag is MODE_CORRECT. The
   * test bits atb0/atb1, the padding and bit 31 stay zero.
   */
  function CommandPacket(correct0: bv32, correct1: bv32, correct2: bv32, clockMode: bv8): (r: bv32)
    ensures DecodeCorrection(r)
         == CorrectionView(correct0 & CORRECTION_MAXVALUE, (clockMode as bv32) & CLOCK_MODE_MASK,
                           correct1 & CORRECTION_MAXVALUE, correct2 & CORRECTION_MAXVALUE, 0, 0, MODE_CORRECT)
    ensures r & CORRECTION_PAD_MASK == 0 && TopBit(r) == 0
  {
    Place(correct0, DOT_CORRECT0_OFFSET, CORRECTION_MAXVALUE)
    | Place(correct1, DOT_CORRECT1_OFFSET, CORRECTION_MAXVALUE)
    | Place(correct2, DOT_CORRECT2_OFFSET, CORRECTION_MAXVALUE)
    | Place(clockMode as bv32, CLOCK_MODE_OFFSET, CLOCK_MODE_MASK)
    | Place(MODE_CORRECT, MODE_CORRECT_OFFSET, FLAG_MASK)
  }

  /** The command packet as the OR of its placed fields. */
  lemma CommandPacketFields(correct0: bv32, correct1: bv32, correct2: bv32, clockMode: bv8)
    ensures CommandPacket(correct0, correct1, correct2, clockMode)
         == Place(correct0, DOT_CORRECT0_OFFSET, CORRECTION_MAXVALUE)
          | Place(correct1, DOT_CORRECT1_OFFSET, CORRECTION_MAXVALUE)
          | Place(correct2, DOT_CORRECT2_OFFSET, CORRECTION_MAXVALUE)
          | Place(clockMode as bv32, CLOCK_MODE_OFFSET, CLOCK_MODE_MASK)
          | Place(MODE_CORRECT, MODE_CORRECT_OFFSET, FLAG_MASK)
  {
  }

  /** Both views keep their mode flag in bit 30, so one bit tells the views apart. */
  lemma ModeFlagIsShared(v: bv32)
    ensures MODE_PWM_OFFSET == MODE_CORRECT_OFFSET == 30
    ensures DecodePwm(v).modePwm == DecodeCorrection(v).modeCorrect
  {
  }

  /** The maxima are the field masks, so in-range channel values survive a PWM round trip. */
  lemma PwmRoundTrip(pwm0: bv32, pwm1: bv32, pwm2: bv32)
    requires pwm0 <= PWM_MAXVALUE && pwm1 <= PWM_MAXVALUE && pwm2 <= PWM_MAXVALUE
    ensures DecodePwm(PwmPacket(pwm0, pwm1, pwm2)) == PwmView(pwm0, pwm1, pwm2, MODE_PWM)
  {
  }

  /** Every word in PWM mode with bit 31 clear is the PWM packet of its own fields. */
  lemma PwmPacketOfView(v: bv32)
    requires DecodePwm(v).modePwm == MODE_PWM && TopBit(v) == 0
    ensures PwmPacket(DecodePwm(v).pwm0, DecodePwm(v).pwm1, DecodePwm(v).pwm2) == v
  {
  }

  /** In-range correction values and clock modes survive a command round trip. */
  lemma CommandRoundTrip(correct0: bv32, correct1: bv32, correct2: bv32, clockMode: bv8)
    requires correct0 <= CORRECTION_MAXVALUE && correct1 <= CORRECTION_MAXVALUE
    requires correct2 <= CORRECTION_MAXVALUE && clockMode as bv32 <= CLOCK_MODE_MASK
    ensures DecodeCorrection(CommandPacket(correct0, correct1, correct2, clockMode))
         == CorrectionView(correct0, clockMode as bv32, correct1, correct2, 0, 0, MODE_CORRECT)
  {
  }

  /**
   * Every word in correction mode whose test bits, padding and bit 31 are clear
   * is the command packet of its own fields.
   */
  lemma CommandPacketOfView(v: bv32)
    requires DecodeCorrection(v).modeCorrect == MODE_CORRECT
    requires DecodeCorrection(v).atb0 == 0 && DecodeCorrection(v).atb1 == 0
    requires v & CORRECTION_PAD_MASK == 0 && TopBit(v) == 0
    ensures CommandPacket(DecodeCorrection(v).dotCorrect0, DecodeCorrection(v).dotCorrect1,
                          DecodeCorrection(v).dotCorrect2, DecodeCorrection(v).clockMode as bv8) == v
  {
  }

  /** A PWM packet and a command packet never coincide: their mode flags differ. */
  lemma PwmAndCommandDiffer(pwm0: bv32, pwm1: bv32, pwm2: bv32,
                            correct0: bv32, correct1: bv32, correct2: bv32, clockMode: bv8)
    ensures DecodePwm(CommandPacket(correct0, correct1, correct2, clockMode)).modePwm == MODE_CORRECT
    ensures DecodeCorrection(PwmPacket(pwm0, pwm1, pwm2)).modeCorrect == MODE_PWM
    ensures PwmPacket(pwm0, pwm1, pwm2) != CommandPacket(correct0, correct1, correct2, clockMode)
  {
  }

  /** The four clock-mode selectors are distinct and fit the 2-bit field. */
  lemma ClockModesFit()
    ensures COMMAND_CLOCK_800KHZ as bv32 <= CLOCK_MODE_MASK && COMMAND_CLOCK_400KHZ as bv32 <= CLOCK_MODE_MASK
    ensures COMMAND_CLOCK_200KHZ as bv32 <= CLOCK_MODE_MASK && COMMAND_CLOCK_EXT as bv32 <= CLOCK_MODE_MASK
    ensures |{COMMAND_CLOCK_800KHZ, COMMAND_CLOCK_400KHZ, COMMAND_CLOCK_200KHZ, COMMAND_CLOCK_EXT}| == 4
  {
  }
}
