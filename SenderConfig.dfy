/** Compile-time configuration of the hand-held sender (Sender/Config.h):
    pins, radio parameters, battery limits, timing constants, the group
    enumerations and the valid tournament settings. */
module SenderConfig {
  import opened Types

  // ---------------------------------------------------------------------
  // Pins (Arduino Nano numbering: the analog pin A0 is pin 14)
  // ---------------------------------------------------------------------
  const PIN_A0: u8 := 14
  const SPI_SCK: u8 := 13
  const SPI_MOSI: u8 := 11
  const SPI_MISO: u8 := 12
  const TFT_CS: u8 := PIN_A0 + 2
  const TFT_DC: u8 := 10
  const TFT_RST: u8 := PIN_A0 + 3
  const NRF_CE: u8 := 9
  const NRF_CSN: u8 := 8
  const BTN_LEFT: u8 := 5
  const BTN_OK: u8 := 6
  const BTN_RIGHT: u8 := 7
  const BUZZER_PIN: u8 := 2

  // ---------------------------------------------------------------------
  // Radio (nRF24L01)
  // ---------------------------------------------------------------------
  const CHANNEL: u8 := 76
  const PIPE_ADDRESS: seq<char> := ['B', '4', 'M', 'P', 'L']
  const RETRY_DELAY: u8 := 5
  const RETRY_COUNT: u8 := 15
  const PAYLOAD_SIZE: u8 := 2
  const MAX_PAYLOAD: nat := 32
  const QUALITY_TEST_PINGS: u8 := 10
  const QUALITY_TEST_DURATION_MS: u16 := 5000
  const QUALITY_TEST_INTERVAL_MS: u16 := 500

  /** The power levels of the radio driver, weakest first. */
  datatype PowerLevel = PaMin | PaLow | PaHigh | PaMax
  const POWER_LEVEL: PowerLevel := PaMax

  // ---------------------------------------------------------------------
  // Battery limits (millivolts)
  // ---------------------------------------------------------------------
  const VOLTAGE_MIN_MV: u16 := 6000
  const VOLTAGE_MAX_MV: u16 := 9600
  const VOLTAGE_LOW_MV: u16 := 6600

  // ---------------------------------------------------------------------
  // Timing (milliseconds)
  // ---------------------------------------------------------------------
  const SPLASH_DURATION_MS: u16 := 15000
  const DEBOUNCE_MS: u8 := 50
  const PREPARATION_TIME_MS: u16 := 10000
  const ALARM_THRESHOLD_MS: u16 := 2000
  const ALARM_RETRY_DELAY_MS: u16 := 200
  const ALARM_MAX_RETRIES: u8 := 3

  // ---------------------------------------------------------------------
  // Shooter groups
  // ---------------------------------------------------------------------
  datatype GroupType = GroupAB | GroupCD
  datatype Position = Pos1 | Pos2

  /** The byte value of `Groups::Type`. */
  function GroupCode(g: GroupType): (c: u8)
    ensures c <= 1
    ensures c == 0 <==> g == GroupAB
  {
    match g
    case GroupAB => 0
    case GroupCD => 1
  }

  /** The byte value of `Groups::Position`. */
  function PositionCode(p: Position): (c: u8)
    ensures 1 <= c <= 2
    ensures c == 1 <==> p == Pos1
  {
    match p
    case Pos1 => 1
    case Pos2 => 2
  }

  // ---------------------------------------------------------------------
  // Tournament settings kept in EEPROM
  // ---------------------------------------------------------------------
  const TIME_120_SEC: u8 := 120
  const TIME_240_SEC: u8 := 240
  const SHOOTERS_1_2: u8 := 2
  const SHOOTERS_3_4: u8 := 4
  const DEFAULT_TIME: u8 := TIME_120_SEC
  const DEFAULT_COUNT: u8 := SHOOTERS_1_2

  predicate ValidShootingTime(t: int) { t == TIME_120_SEC || t == TIME_240_SEC }
  predicate ValidShooterCount(n: int) { n == SHOOTERS_1_2 || n == SHOOTERS_3_4 }

  // ---------------------------------------------------------------------
  // What the configuration asserts about itself
  // ---------------------------------------------------------------------

  /** The static_asserts of `ConfigValidation`. */
  lemma ConfigValidation()
    ensures SPI_SCK == 13 && SPI_MOSI == 11 && SPI_MISO == 12
    ensures TFT_CS != NRF_CSN
    ensures BTN_LEFT != BTN_OK && BTN_LEFT != BTN_RIGHT && BTN_OK != BTN_RIGHT
    ensures PAYLOAD_SIZE as int <= MAX_PAYLOAD
  {
  }

  /** The quality test spreads its pings evenly over its duration. */
  lemma QualityTestTiming()
    ensures QUALITY_TEST_PINGS as int * QUALITY_TEST_INTERVAL_MS as int == QUALITY_TEST_DURATION_MS as int
  {
  }

  /** The battery thresholds are ordered: empty < low warning < full. */
  lemma BatteryLimitsOrdered()
    ensures VOLTAGE_MIN_MV < VOLTAGE_LOW_MV < VOLTAGE_MAX_MV
  {
  }

  /** The defaults are valid settings. */
  lemma DefaultsValid()
    ensures ValidShootingTime(DEFAULT_TIME) && ValidShooterCount(DEFAULT_COUNT)
  {
  }

  /** The group encodings: AB = 0, CD = 1, POS_1 = 1, POS_2 = 2, all distinct. */
  lemma GroupEncodings()
    ensures GroupCode(GroupAB) == 0 && GroupCode(GroupCD) == 1
    ensures PositionCode(Pos1) == 1 && PositionCode(Pos2) == 2
    ensures forall g, h :: GroupCode(g) == GroupCode(h) ==> g == h
    ensures forall p, q :: PositionCode(p) == PositionCode(q) ==> p == q
  {
  }
}
