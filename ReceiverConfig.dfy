/** Compile-time configuration of the receiver (Empfaenger/Config.h): the
    WS2812B strip layout, the radio parameters that must match the sender's,
    and the receiver's copy of the group enumerations. */
module ReceiverConfig {
  import opened Types
  import SenderConfig

  // ---------------------------------------------------------------------
  // Radio: must be identical to the sender's, except the power level
  // ---------------------------------------------------------------------
  const CHANNEL: u8 := 76
  const PIPE_ADDRESS: seq<char> := ['B', '4', 'M', 'P', 'L']
  const RETRY_DELAY: u8 := 5
  const RETRY_COUNT: u8 := 15
  const PAYLOAD_SIZE: u8 := 2
  const POWER_LEVEL: SenderConfig.PowerLevel := SenderConfig.PaMin

  // ---------------------------------------------------------------------
  // LED strip: two 16-LED group bars, then three 7-segment digits
  // ---------------------------------------------------------------------
  const GROUP_AB_LEDS: u8 := 16
  const GROUP_CD_LEDS: u8 := 16
  const GROUP_AB_START: u8 := 0
  const GROUP_CD_START: u8 := 16
  const LEDS_PER_SEGMENT: u8 := 6
  const SEGMENTS_PER_DIGIT: u8 := 7
  const NUM_DIGITS: u8 := 3
  const DIGIT_START: u8 := 32
  const LEDS_PER_DIGIT: u8 := LEDS_PER_SEGMENT * SEGMENTS_PER_DIGIT
  const TOTAL_LEDS: u8 := GROUP_AB_LEDS + GROUP_CD_LEDS + NUM_DIGITS * LEDS_PER_DIGIT
  const DIGIT_1_START: u8 := DIGIT_START
  const DIGIT_10_START: u8 := DIGIT_START + LEDS_PER_DIGIT
  const DIGIT_100_START: u8 := DIGIT_START + 2 * LEDS_PER_DIGIT

  // ---------------------------------------------------------------------
  // Groups (the receiver's own copy of the enumeration values)
  // ---------------------------------------------------------------------
  const GROUP_AB_CODE: u8 := 0
  const GROUP_CD_CODE: u8 := 1
  const POS_1_CODE: u8 := 1
  const POS_2_CODE: u8 := 2

  /** The layout arithmetic: 42 LEDs per digit, 158 LEDs in all (fits uint8_t). */
  lemma LayoutSizes()
    ensures LEDS_PER_DIGIT == 42
    ensures TOTAL_LEDS == 158
    ensures DIGIT_1_START == 32 && DIGIT_10_START == 74 && DIGIT_100_START == 116
  {
  }

  /** The five windows of the strip tile [0, TOTAL_LEDS) without gaps or overlap:
      AB bar, CD bar, ones digit, tens digit, hundreds digit. */
  lemma LayoutTiles()
    ensures GROUP_AB_START == 0
    ensures GROUP_AB_START + GROUP_AB_LEDS == GROUP_CD_START
    ensures GROUP_CD_START + GROUP_CD_LEDS == DIGIT_START
    ensures DIGIT_1_START + LEDS_PER_DIGIT == DIGIT_10_START
    ensures DIGIT_10_START + LEDS_PER_DIGIT == DIGIT_100_START
    ensures DIGIT_100_START + LEDS_PER_DIGIT == TOTAL_LEDS
  {
  }

  /** Both ends of the link agree on every radio parameter except the power level. */
  lemma RadioParametersMatch()
    ensures CHANNEL == SenderConfig.CHANNEL
    ensures PIPE_ADDRESS == SenderConfig.PIPE_ADDRESS
    ensures RETRY_DELAY == SenderConfig.RETRY_DELAY
    ensures RETRY_COUNT == SenderConfig.RETRY_COUNT
    ensures PAYLOAD_SIZE == SenderConfig.PAYLOAD_SIZE
    ensures POWER_LEVEL != SenderConfig.POWER_LEVEL
  {
  }

  /** The receiver's group and position values equal the sender's encodings. */
  lemma GroupCodesMatch()
    ensures GROUP_AB_CODE == SenderConfig.GroupCode(SenderConfig.GroupAB)
    ensures GROUP_CD_CODE == SenderConfig.GroupCode(SenderConfig.GroupCD)
    ensures POS_1_CODE == SenderConfig.PositionCode(SenderConfig.Pos1)
    ensures POS_2_CODE == SenderConfig.PositionCode(SenderConfig.Pos2)
  {
  }
}
