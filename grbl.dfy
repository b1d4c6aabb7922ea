// The parts of the grblHAL controller that the keypad and pendant plugins
// read or call: machine states, realtime command bytes, alarm and status
// codes, control signals, and the decimal formatter `uitoa`.
// The numeric values are grblHAL's own (system.h, grbl.h, alarms.h); those
// headers are not part of this model.
module Grbl {

  /** sys_state_t: one bit per machine state, STATE_IDLE is zero. */
  type SysState = bv16

  const STATE_IDLE: SysState := 0
  const STATE_ALARM: SysState := 1
  const STATE_CHECK_MODE: SysState := 2
  const STATE_HOMING: SysState := 4
  const STATE_CYCLE: SysState := 8
  const STATE_HOLD: SysState := 16
  const STATE_JOG: SysState := 32
  const STATE_SAFETY_DOOR: SysState := 64
  const STATE_SLEEP: SysState := 128
  const STATE_ESTOP: SysState := 256
  const STATE_TOOL_CHANGE: SysState := 512

  // Realtime command bytes understood by the controller.
  const ASCII_CAN: char := 0x18 as char
  const CMD_RESET: char := 0x18 as char
  const CMD_FEED_HOLD_LEGACY: char := '!'
  const CMD_CYCLE_START_LEGACY: char := '~'
  const CMD_CYCLE_START: char := 0x81 as char
  const CMD_FEED_HOLD: char := 0x82 as char
  const CMD_SAFETY_DOOR: char := 0x84 as char
  const CMD_JOG_CANCEL: char := 0x85 as char
  const CMD_OPTIONAL_STOP_TOGGLE: char := 0x88 as char
  const CMD_SINGLE_BLOCK_TOGGLE: char := 0x89 as char
  const CMD_OVERRIDE_FAN0_TOGGLE: char := 0x8A as char
  const CMD_MPG_MODE_TOGGLE: char := 0x8B as char
  const CMD_OVERRIDE_FEED_RESET: char := 0x90 as char
  const CMD_OVERRIDE_FEED_COARSE_PLUS: char := 0x91 as char
  const CMD_OVERRIDE_FEED_COARSE_MINUS: char := 0x92 as char
  const CMD_OVERRIDE_FEED_FINE_PLUS: char := 0x93 as char
  const CMD_OVERRIDE_FEED_FINE_MINUS: char := 0x94 as char
  const CMD_OVERRIDE_RAPID_RESET: char := 0x95 as char
  const CMD_OVERRIDE_RAPID_MEDIUM: char := 0x96 as char
  const CMD_OVERRIDE_RAPID_LOW: char := 0x97 as char
  const CMD_OVERRIDE_SPINDLE_RESET: char := 0x99 as char
  const CMD_OVERRIDE_SPINDLE_COARSE_PLUS: char := 0x9A as char
  const CMD_OVERRIDE_SPINDLE_COARSE_MINUS: char := 0x9B as char
  const CMD_OVERRIDE_SPINDLE_FINE_PLUS: char := 0x9C as char
  const CMD_OVERRIDE_SPINDLE_FINE_MINUS: char := 0x9D as char
  const CMD_OVERRIDE_SPINDLE_STOP: char := 0x9E as char
  const CMD_OVERRIDE_COOLANT_FLOOD_TOGGLE: char := 0xA0 as char
  const CMD_OVERRIDE_COOLANT_MIST_TOGGLE: char := 0xA1 as char
  const CMD_PROBE_CONNECTED_TOGGLE: char := 0xA4 as char

  /** alarm_code_t value of Alarm_SelftestFailed. */
  const ALARM_SELFTEST_FAILED: nat := 16

  /** The status_code_t values that the unlock logic can return. */
  datatype StatusCode = StatusOK | StatusSelfTestFailed | StatusEStop | StatusCheckDoor | StatusReset

  /** The feedback messages the plugins report. */
  datatype Message = MessageAlarmUnlock

  /** The control_signals_t bits the unlock logic inspects. */
  datatype ControlSignals = ControlSignals(eStop: bool, safetyDoorAjar: bool, reset: bool)

  predicate IsNumeralChar(ch: char) {
    ('0' <= ch <= '9') || ch == '.' || ch == '-'
  }

  /** What `ftoa` and `uitoa` produce: digits, a decimal point, a sign. */
  type Numeral = s: string | forall i | 0 <= i < |s| :: IsNumeralChar(s[i])

  predicate IsDigits(s: string) {
    forall i | 0 <= i < |s| :: '0' <= s[i] <= '9'
  }

  function DigitChar(d: nat): (ch: char)
    requires d < 10
    ensures '0' <= ch <= '9' && ch as int - '0' as int == d
  {
    ('0' as int + d) as char
  }

  /** uitoa: the shortest decimal representation of n. */
  function Decimal(n: nat): (r: Numeral)
    ensures |r| >= 1 && IsDigits(r)
    ensures |r| > 1 ==> r[0] != '0'
    decreases n
  {
    if n < 10 then [DigitChar(n)] else Decimal(n / 10) + [DigitChar(n % 10)]
  }

  /** The value of a string of decimal digits. */
  function ParseDecimal(s: string): (n: nat)
    requires IsDigits(s)
  {
    if s == [] then 0
    else ParseDecimal(s[..|s| - 1]) * 10 + (s[|s| - 1] as int - '0' as int)
  }

  /** Reading back what uitoa wrote gives the number again. */
  lemma {:induction false} ParseDecimalOfDecimal(n: nat)
    ensures ParseDecimal(Decimal(n)) == n
    decreases n
  {
    var s := Decimal(n);
    if n < 10 {
      assert s[..|s| - 1] == [];
    } else {
      assert s[..|s| - 1] == Decimal(n / 10);
      ParseDecimalOfDecimal(n / 10);
    }
  }

  /** uitoa never gives two numbers the same text. */
  lemma DecimalInjective(a: nat, b: nat)
    requires Decimal(a) == Decimal(b)
    ensures a == b
  {
    ParseDecimalOfDecimal(a);
    ParseDecimalOfDecimal(b);
  }
}
