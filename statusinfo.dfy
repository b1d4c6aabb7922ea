// Decisions taken while filling a status packet: the one-byte machine state
// code, the jog mode byte (layout of jog_mode_t), and the 10 ms rate clamp
// on status sends.
module StatusInfo {
  import opened Grbl
  import opened Keys

  /** The states that get a code of their own in the status packet. */
  predicate IsReportedState(s: SysState) {
    s == STATE_ALARM || s == STATE_ESTOP || s == STATE_CYCLE || s == STATE_HOLD
    || s == STATE_TOOL_CHANGE || s == STATE_IDLE || s == STATE_HOMING || s == STATE_JOG
  }

  /** The state code sent to the pendant: Alarm and EStop 1, Cycle 2, Hold 3,
      ToolChange 4, Idle 5, Homing 6, Jog 7, anything else 254. */
  function MachineStateCode(s: SysState): (code: nat)
    ensures 1 <= code < 256
    ensures code == 254 <==> !IsReportedState(s)
  {
    if s == STATE_ALARM || s == STATE_ESTOP then 1
    else if s == STATE_CYCLE then 2
    else if s == STATE_HOLD then 3
    else if s == STATE_TOOL_CHANGE then 4
    else if s == STATE_IDLE then 5
    else if s == STATE_HOMING then 6
    else if s == STATE_JOG then 7
    else 254
  }

  /** The pendant can tell every reported state from every other one from
      its code, except that Alarm and EStop share code 1. */
  lemma MachineStateCodeDistinguishes(a: SysState, b: SysState)
    requires IsReportedState(a) && IsReportedState(b)
    requires MachineStateCode(a) == MachineStateCode(b)
    ensures a == b || ((a == STATE_ALARM || a == STATE_ESTOP) && (b == STATE_ALARM || b == STATE_ESTOP))
  {
  }

  /** The label of keypad.c's first case, `STATE_ALARM || STATE_ESTOP`:
      C's `||` yields 1, whatever the two masks are. */
  const KEYPAD_FIRST_CASE: SysState := if STATE_ALARM != 0 || STATE_ESTOP != 0 then 1 else 0

  /** keypad.c's mapping as written: its first case matches only the value 1. */
  function KeypadStateCodeAsWritten(s: SysState): (code: nat)
    ensures code == 1 <==> s == KEYPAD_FIRST_CASE
  {
    if s == KEYPAD_FIRST_CASE then 1
    else if s == STATE_CYCLE then 2
    else if s == STATE_HOLD then 3
    else if s == STATE_TOOL_CHANGE then 4
    else if s == STATE_IDLE then 5
    else if s == STATE_HOMING then 6
    else if s == STATE_JOG then 7
    else 254
  }

  /** As written, keypad.c reports EStop as an unknown state (254), where
      pendant.c and the intended mapping report 1; on every other state the
      two agree. */
  lemma KeypadEStopMisreported()
    ensures KeypadStateCodeAsWritten(STATE_ESTOP) == 254
    ensures MachineStateCode(STATE_ESTOP) == 1
    ensures forall s: SysState :: s != STATE_ESTOP ==> KeypadStateCodeAsWritten(s) == MachineStateCode(s)
  {
  }

  /** jog_mode_t packs the mode in the high nibble, the modifier in the low. */
  function PackJogMode(mode: JogMode, modifier: JogModify): (b: bv8)
    ensures b as int == 16 * JogModeValue(mode) + JogModifyValue(modifier)
  {
    var m := JogModeValue(mode) as bv8;
    var j := JogModifyValue(modifier) as bv8;
    assert m < 3 && j < 3;
    (m << 4) | j
  }

  /** The jog_mode_t.mode bit field. */
  function JogModeField(b: bv8): (mode: nat) {
    (b >> 4) as nat
  }

  /** The jog_mode_t.modifier bit field. */
  function JogModifierField(b: bv8): (modifier: nat) {
    (b & 0x0F) as nat
  }

  /** Reading the two bit fields back gives the packed mode and modifier,
      for all nine combinations. */
  lemma JogModeByteRoundTrip(mode: JogMode, modifier: JogModify)
    ensures JogModeField(PackJogMode(mode, modifier)) == JogModeValue(mode)
    ensures JogModifierField(PackJogMode(mode, modifier)) == JogModifyValue(modifier)
  {
  }

  /** Two different settings never share a jog mode byte. */
  lemma JogModeByteInjective(m1: JogMode, j1: JogModify, m2: JogMode, j2: JogModify)
    requires PackJogMode(m1, j1) == PackJogMode(m2, j2)
    ensures m1 == m2 && j1 == j2
  {
    JogModeByteRoundTrip(m1, j1);
    JogModeByteRoundTrip(m2, j2);
  }

  const TWO32: int := 0x1_0000_0000

  /** uint32_t, the type of hal.get_elapsed_ticks() and last_ms. */
  type uint32 = x: int | 0 <= x < TWO32

  /** The minimum time in ms between two status sends. */
  const STATUS_MIN_INTERVAL: nat := 10

  /** The clamp as written: `ms < last_ms + 10`, the sum taken in uint32. */
  function ThrottledAsWritten(ms: uint32, lastMs: uint32): (b: bool)
    ensures lastMs + STATUS_MIN_INTERVAL < TWO32 ==> (b <==> ms < lastMs + STATUS_MIN_INTERVAL)
    ensures lastMs + STATUS_MIN_INTERVAL >= TWO32 ==> (b <==> ms < lastMs + STATUS_MIN_INTERVAL - TWO32)
  {
    ms < (lastMs + STATUS_MIN_INTERVAL) % TWO32
  }

  /** The clamp as intended: fewer than 10 ms elapsed since the last send,
      the elapsed time taken in uint32 so that it survives the tick wrap. */
  function Throttled(ms: uint32, lastMs: uint32): (b: bool)
    ensures lastMs <= ms ==> (b <==> ms - lastMs < STATUS_MIN_INTERVAL)
    ensures ms < lastMs ==> (b <==> ms + TWO32 - lastMs < STATUS_MIN_INTERVAL)
  {
    (ms - lastMs) % TWO32 < STATUS_MIN_INTERVAL
  }

  /** The intended clamp suppresses a send exactly when less than 10 ms have
      passed since the last one, across the wrap of the tick counter too. */
  lemma ThrottledMeasuresElapsed(lastMs: uint32, elapsed: nat)
    requires elapsed < TWO32
    ensures Throttled((lastMs + elapsed) % TWO32, lastMs) <==> elapsed < STATUS_MIN_INTERVAL
  {
    var ms := (lastMs + elapsed) % TWO32;
    if lastMs + elapsed < TWO32 {
      assert ms == lastMs + elapsed;
      assert (ms - lastMs) % TWO32 == elapsed;
    } else {
      assert ms == lastMs + elapsed - TWO32;
      assert ms - lastMs == elapsed - TWO32;
      assert (ms - lastMs) % TWO32 == elapsed;
    }
  }

  /** Away from the wrap, the clamp as written is the intended one. */
  lemma ThrottleAgreesBeforeWrap(ms: uint32, lastMs: uint32)
    requires lastMs <= ms && lastMs + STATUS_MIN_INTERVAL < TWO32
    ensures ThrottledAsWritten(ms, lastMs) <==> Throttled(ms, lastMs)
  {
    assert (ms - lastMs) % TWO32 == ms - lastMs;
  }

  /** As written, once the tick counter wraps after a send at 2^32 - 100 ms,
      every tick value below 2^32 - 90 is taken as "too soon": status sends
      stop for about 49 days, although 150 ms have passed at tick 50. */
  lemma ThrottleStallsAfterWrap(ms: uint32)
    requires ms < TWO32 - 90
    ensures ThrottledAsWritten(ms, TWO32 - 100)
    ensures ms == 50 ==> !Throttled(ms, TWO32 - 100)
  {
  }
}
