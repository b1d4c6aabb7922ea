// pendant.c: the key code dispatcher of the pendant, with its own jog mode
// and jog modifier, the work coordinate system carousel and its G-code
// text, the alarm unlock decision, the status packet and the encoder count
// handler.
module Pendant {
  import opened Grbl
  import opened Keys
  import opened Host
  import opened StatusInfo

  // ---------------------------------------------------------------------
  // Work coordinate systems

  /** The G-code number map_coord_system writes for a coord_system_id_t:
      54 + id, computed in uint8_t, and from 60 on "59." followed by the
      excess (G59.1, G59.2, ...). */
  function CoordSystemText(id: nat): (r: string)
    ensures IsDigits(r) || (|r| > 3 && r[..3] == "59." && IsDigits(r[3..]))
  {
    var g5x := (id + 54) % 256;
    if g5x > 59 then "59." + Decimal(g5x - 59) else Decimal(g5x)
  }

  /** Reads the id back from a text in the form CoordSystemText writes. */
  function CoordSystemIdOf(text: string): (id: int) {
    if |text| > 3 && text[..3] == "59." && IsDigits(text[3..]) then 5 + ParseDecimal(text[3..])
    else if IsDigits(text) then ParseDecimal(text) - 54
    else -1
  }

  /** G54 to G59 for the ids 0 to 5, G59.n for the id 5 + n. */
  lemma CoordSystemTextValues(id: nat)
    requires id < 202
    ensures id <= 5 ==> CoordSystemText(id) == ['5', DigitChar(4 + id)]
    ensures id > 5 ==> CoordSystemText(id) == "59." + Decimal(id - 5)
  {
    if id <= 5 {
      assert 54 + id == 5 * 10 + (4 + id);
      assert Decimal(54 + id) == Decimal(5) + [DigitChar(4 + id)];
    }
  }

  /** Below the uint8_t wrap, the text names the id it came from. */
  lemma CoordSystemTextRoundTrip(id: nat)
    requires id < 202
    ensures CoordSystemIdOf(CoordSystemText(id)) == id
  {
    var g5x := id + 54;
    var r := CoordSystemText(id);
    if g5x > 59 {
      assert r[..3] == "59." && r[3..] == Decimal(g5x - 59);
      ParseDecimalOfDecimal(g5x - 59);
    } else {
      assert |r| == 2 by {
        CoordSystemTextValues(id);
      }
      ParseDecimalOfDecimal(g5x);
    }
  }

  /** Hence two ids below the wrap never share a text. */
  lemma CoordSystemTextInjective(a: nat, b: nat)
    requires a < 202 && b < 202
    requires CoordSystemText(a) == CoordSystemText(b)
    ensures a == b
  {
    CoordSystemTextRoundTrip(a);
    CoordSystemTextRoundTrip(b);
  }

  /** The WCS the home key selects: the next one, or G54 after the last. */
  function NextWcs(id: nat, nWcs: nat): (r: nat)
    ensures r == 0 || r == id + 1
  {
    if id + 1 < nWcs then id + 1 else 0
  }

  /** k presses of the home key. */
  function NextWcsPresses(id: nat, nWcs: nat, k: nat): (r: nat)
    decreases k
  {
    if k == 0 then id else NextWcs(NextWcsPresses(id, nWcs, k - 1), nWcs)
  }

  /** A multiple of n strictly between -n and n is zero. */
  lemma SmallMultiple(d: int, n: int)
    requires n > 0 && -n < d * n < n
    ensures d == 0
  {
  }

  /** The remainder modulo n is the r of any x == q * n + r with r < n. */
  lemma ModOfDecomposition(x: int, n: int, q: int, r: int)
    requires n > 0 && 0 <= r < n && x == q * n + r
    ensures x % n == r
  {
    var q0, r0 := x / n, x % n;
    assert x == q0 * n + r0;
    assert (q - q0) * n == r0 - r;
    SmallMultiple(q - q0, n);
  }

  /** Adding one to x moves its remainder modulo n up by one, or back to 0. */
  lemma ModSuccessor(x: nat, n: nat)
    requires n > 0
    ensures (x + 1) % n == if x % n + 1 < n then x % n + 1 else 0
  {
    var q, p := x / n, x % n;
    if p + 1 < n {
      ModOfDecomposition(x + 1, n, q, p + 1);
    } else {
      ModOfDecomposition(x + 1, n, q + 1, 0);
    }
  }

  /** From a valid id the carousel steps by one modulo the number of
      systems, so nWcs presses come back to the system it started at. */
  lemma {:induction false} NextWcsCycles(id: nat, nWcs: nat, k: nat)
    requires id < nWcs
    ensures NextWcsPresses(id, nWcs, k) == (id + k) % nWcs
    decreases k
  {
    if k > 0 {
      NextWcsCycles(id, nWcs, k - 1);
      ModSuccessor(id + k - 1, nWcs);
    }
  }

  // ---------------------------------------------------------------------
  // Unlock

  /** What disable_lock returns, and the host calls it makes. */
  datatype Unlock = Unlock(status: StatusCode, actions: seq<Action>)

  /** The host calls of a successful unlock. */
  const UNLOCK_ACTIONS: seq<Action> := [FeedbackMessage(MessageAlarmUnlock), StateSet(STATE_IDLE)]

  /** The test `state & (STATE_ALARM|STATE_ESTOP)`. */
  function InAlarmOrEStop(state: SysState): (b: bool)
    ensures b <==> (state & STATE_ALARM != 0 || state & STATE_ESTOP != 0)
    ensures state == STATE_ALARM || state == STATE_ESTOP ==> b
    ensures state == STATE_IDLE || state == STATE_CYCLE || state == STATE_JOG ==> !b
  {
    state & (STATE_ALARM | STATE_ESTOP) != 0
  }

  /** disable_lock: only in Alarm or EStop; blocked, in this order, by a
      failed self test, an active EStop input, an open safety door and an
      active reset input; otherwise reports the unlock and goes idle. */
  function DisableLock(state: SysState, alarm: nat, signals: ControlSignals): (r: Unlock)
    ensures !InAlarmOrEStop(state) ==> r == Unlock(StatusOK, [])
    ensures r.actions == [] || (r.actions == UNLOCK_ACTIONS && r.status == StatusOK)
  {
    if InAlarmOrEStop(state) then
      if alarm == ALARM_SELFTEST_FAILED then Unlock(StatusSelfTestFailed, [])
      else if signals.eStop then Unlock(StatusEStop, [])
      else if signals.safetyDoorAjar then Unlock(StatusCheckDoor, [])
      else if signals.reset then Unlock(StatusReset, [])
      else Unlock(StatusOK, UNLOCK_ACTIONS)
    else Unlock(StatusOK, [])
  }

  /** The conditions that block an unlock, each with its status, in the
      order of their priority. */
  function Inhibitors(alarm: nat, signals: ControlSignals): (inh: seq<StatusCode>)
    ensures |inh| <= 4 && StatusOK !in inh
  {
    (if alarm == ALARM_SELFTEST_FAILED then [StatusSelfTestFailed] else [])
    + (if signals.eStop then [StatusEStop] else [])
    + (if signals.safetyDoorAjar then [StatusCheckDoor] else [])
    + (if signals.reset then [StatusReset] else [])
  }

  /** The unlock in terms of the blocking conditions: in Alarm or EStop the
      first one that holds decides the status, and the unlock happens
      exactly when none holds. */
  lemma DisableLockByInhibitors(state: SysState, alarm: nat, signals: ControlSignals)
    requires InAlarmOrEStop(state)
    ensures var r := DisableLock(state, alarm, signals);
      var inh := Inhibitors(alarm, signals);
      && (inh != [] ==> r == Unlock(inh[0], []))
      && (inh == [] <==> r.actions == UNLOCK_ACTIONS)
      && (inh == [] ==> r.status == StatusOK)
  {
  }

  /** A blocked unlock never reports success. */
  lemma DisableLockBlockedFails(state: SysState, alarm: nat, signals: ControlSignals)
    requires InAlarmOrEStop(state) && Inhibitors(alarm, signals) != []
    ensures DisableLock(state, alarm, signals).status != StatusOK
    ensures DisableLock(state, alarm, signals).actions == []
  {
    var inh := Inhibitors(alarm, signals);
    assert inh[0] in {StatusSelfTestFailed, StatusEStop, StatusCheckDoor, StatusReset};
  }

  /** The unlock leaves the machine idle, where a second unlock does
      nothing. */
  lemma DisableLockIdempotent(alarm: nat, signals: ControlSignals)
    ensures DisableLock(STATE_IDLE, alarm, signals) == Unlock(StatusOK, [])
  {
  }

  // ---------------------------------------------------------------------
  // Key codes

  /** What process_keycode's switch makes of a key code. */
  datatype PendantKey =
    | Attach
    | Macro(index: nat)
    | SpindleOn
    | ChangeWcs
    | UnlockKey
    | Reset
    | FeedOverride(cmd: char)
    | AccessoryOverride(cmd: char)
    | Realtime(cmd: char)
    | MpgToggle
    | SetJogMode(mode: JogMode)
    | CycleJogMode
    | CycleJogModify
    | Home
    | Unhandled

  predicate IsFeedOverrideCode(k: char) {
    k in {CMD_OVERRIDE_FEED_RESET, CMD_OVERRIDE_FEED_COARSE_PLUS, CMD_OVERRIDE_FEED_COARSE_MINUS,
          CMD_OVERRIDE_FEED_FINE_PLUS, CMD_OVERRIDE_FEED_FINE_MINUS,
          CMD_OVERRIDE_RAPID_RESET, CMD_OVERRIDE_RAPID_MEDIUM, CMD_OVERRIDE_RAPID_LOW}
  }

  predicate IsAccessoryOverrideCode(k: char) {
    k in {CMD_OVERRIDE_FAN0_TOGGLE, CMD_OVERRIDE_COOLANT_FLOOD_TOGGLE, CMD_OVERRIDE_COOLANT_MIST_TOGGLE,
          CMD_OVERRIDE_SPINDLE_RESET, CMD_OVERRIDE_SPINDLE_COARSE_PLUS, CMD_OVERRIDE_SPINDLE_COARSE_MINUS,
          CMD_OVERRIDE_SPINDLE_FINE_PLUS, CMD_OVERRIDE_SPINDLE_FINE_MINUS, CMD_OVERRIDE_SPINDLE_STOP}
  }

  predicate IsRealtimeCode(k: char) {
    k in {CMD_SAFETY_DOOR, CMD_OPTIONAL_STOP_TOGGLE, CMD_SINGLE_BLOCK_TOGGLE, CMD_PROBE_CONNECTED_TOGGLE}
  }

  /** The macro keys and the macro each one runs. */
  function MacroOf(k: char): (i: int)
    ensures -1 <= i <= 6 && i != 4
  {
    if k == MACROUP then 0
    else if k == MACROLEFT then 1
    else if k == MACRODOWN then 2
    else if k == MACRORIGHT then 3
    else if k == MACRORAISE then 5
    else if k == MACROLOWER then 6
    else -1
  }

  /** Every case label of process_keycode's switch. */
  predicate IsListedCode(k: char) {
    k == '?' || MacroOf(k) >= 0 || k == SPINON || k == MACROHOME || k == UNLOCK || k == RESET
    || k == 'M' || k == 'C' || k == CMD_FEED_HOLD_LEGACY || k == CMD_CYCLE_START_LEGACY
    || k == CMD_MPG_MODE_TOGGLE || '0' <= k <= '2' || k == 'h' || k == 'm' || k == 'H'
    || IsFeedOverrideCode(k) || IsAccessoryOverrideCode(k) || IsRealtimeCode(k)
  }

  /** The case labels of process_keycode's switch. */
  function ClassifyPendant(k: char): (key: PendantKey)
    ensures key.Unhandled? <==> !IsListedCode(k)
    ensures key.Macro? <==> MacroOf(k) >= 0
    ensures key.Macro? ==> key.index == MacroOf(k)
  {
    if k == '?' then Attach
    else if k == MACROUP then Macro(0)
    else if k == MACRODOWN then Macro(2)
    else if k == MACROLEFT then Macro(1)
    else if k == MACRORIGHT then Macro(3)
    else if k == SPINON then SpindleOn
    else if k == MACROHOME then ChangeWcs
    else if k == UNLOCK then UnlockKey
    else if k == RESET then Reset
    else if k == 'M' then AccessoryOverride(CMD_OVERRIDE_COOLANT_MIST_TOGGLE)
    else if k == 'C' then AccessoryOverride(CMD_OVERRIDE_COOLANT_FLOOD_TOGGLE)
    else if k == CMD_FEED_HOLD_LEGACY then Realtime(CMD_FEED_HOLD)
    else if k == CMD_CYCLE_START_LEGACY then Realtime(CMD_CYCLE_START)
    else if k == CMD_MPG_MODE_TOGGLE then MpgToggle
    else if '0' <= k <= '2' then SetJogMode(JogModeOfDigit(k))
    else if k == 'h' then CycleJogMode
    else if k == 'm' then CycleJogModify
    else if k == 'H' then Home
    else if IsFeedOverrideCode(k) then FeedOverride(k)
    else if IsAccessoryOverrideCode(k) then AccessoryOverride(k)
    else if IsRealtimeCode(k) then Realtime(k)
    else if k == MACRORAISE then Macro(5)
    else if k == MACROLOWER then Macro(6)
    else Unhandled
  }

  /** What process_keycode reads from the host. */
  datatype PendantContext = PendantContext(
    /** state_get() */
    state: SysState,
    /** sys.alarm */
    alarm: nat,
    /** hal.control.get_state() */
    signals: ControlSignals,
    /** hal.spindle.get_state().on */
    spindleOn: bool,
    /** gc_state.modal.coord_system.id */
    coordSystemId: nat,
    /** N_WorkCoordinateSystems */
    nWcs: nat,
    /** hal.driver_cap.mpg_mode */
    mpgCapable: bool,
    /** hal.stream.type == StreamType_MPG */
    streamIsMpg: bool,
    /** keypad.on_jogmode_changed is set */
    jogModeHook: bool,
    /** keypad.on_jogmodify_changed is set */
    jogModifyHook: bool)

  /** The outcome of one key: host calls, new jog mode and modifier, and the
      text left in the local `command` buffer. */
  datatype PendantResponse = PendantResponse(
    actions: seq<Action>, mode: JogMode, modifier: JogModify, command: string)

  function PendantRespond(key: PendantKey, mode: JogMode, modifier: JogModify, ctx: PendantContext): (r: PendantResponse)
    ensures r.mode != mode ==> key.SetJogMode? || key.CycleJogMode?
    ensures r.modifier != modifier ==> key.CycleJogModify?
    ensures r.command != "" ==> key.SpindleOn? || key.ChangeWcs? || key.Home?
    ensures |r.actions| <= 2 && (|r.actions| == 2 ==> key.UnlockKey?)
  {
    match key
    case Attach => PendantResponse([], mode, modifier, "")
    case Macro(i) => PendantResponse([ExecuteMacro(i)], mode, modifier, "")
    case SpindleOn =>
      if !ctx.spindleOn then PendantResponse([ExecuteMacro(4)], mode, modifier, "")
      else PendantResponse([], mode, modifier, "M05")
    case ChangeWcs =>
      PendantResponse([], mode, modifier, "G" + CoordSystemText(NextWcs(ctx.coordSystemId, ctx.nWcs)))
    case UnlockKey =>
      PendantResponse(DisableLock(ctx.state, ctx.alarm, ctx.signals).actions, mode, modifier, "")
    case Reset => PendantResponse([EnqueueRealtime(CMD_RESET)], mode, modifier, "")
    case FeedOverride(c) => PendantResponse([EnqueueFeedOverride(c)], mode, modifier, "")
    case AccessoryOverride(c) => PendantResponse([EnqueueAccessoryOverride(c)], mode, modifier, "")
    case Realtime(c) => PendantResponse([EnqueueRealtime(c)], mode, modifier, "")
    case MpgToggle =>
      PendantResponse(if ctx.mpgCapable then [MpgEnable(!ctx.streamIsMpg)] else [], mode, modifier, "")
    case SetJogMode(m) => PendantResponse([], m, modifier, "")
    case CycleJogMode =>
      var m := NextJogMode(mode);
      PendantResponse(if ctx.jogModeHook then [JogModeChanged(m)] else [], m, modifier, "")
    case CycleJogModify =>
      var j := NextJogModify(modifier);
      PendantResponse(if ctx.jogModifyHook then [JogModifyChanged(j)] else [], mode, j, "")
    case Home => PendantResponse([], mode, modifier, "$H")
    case Unhandled => PendantResponse([], mode, modifier, "")
  }

  /** The macro keys run their macro and nothing else. */
  lemma MacroKeys(k: char, mode: JogMode, modifier: JogModify, ctx: PendantContext)
    requires MacroOf(k) >= 0
    ensures PendantRespond(ClassifyPendant(k), mode, modifier, ctx)
         == PendantResponse([ExecuteMacro(MacroOf(k))], mode, modifier, "")
    ensures k == MACROUP ==> MacroOf(k) == 0
    ensures k == MACROLEFT ==> MacroOf(k) == 1
    ensures k == MACRODOWN ==> MacroOf(k) == 2
    ensures k == MACRORIGHT ==> MacroOf(k) == 3
    ensures k == MACRORAISE ==> MacroOf(k) == 5
    ensures k == MACROLOWER ==> MacroOf(k) == 6
  {
  }

  /** The spindle key runs macro 4 to start a stopped spindle; on a running
      one it only writes "M05" into the local buffer. */
  lemma SpindleKey(mode: JogMode, modifier: JogModify, ctx: PendantContext)
    ensures var r := PendantRespond(ClassifyPendant(SPINON), mode, modifier, ctx);
      && (!ctx.spindleOn ==> r.actions == [ExecuteMacro(4)] && r.command == "")
      && (ctx.spindleOn ==> r.actions == [] && r.command == "M05")
  {
  }

  /** The home key writes the G-code of the next work coordinate system. */
  lemma HomeKeySelectsNextWcs(mode: JogMode, modifier: JogModify, ctx: PendantContext)
    requires ctx.coordSystemId < ctx.nWcs < 202
    ensures var r := PendantRespond(ClassifyPendant(MACROHOME), mode, modifier, ctx);
      && r.actions == []
      && r.command[..1] == "G"
      && CoordSystemIdOf(r.command[1..]) == (ctx.coordSystemId + 1) % ctx.nWcs
  {
    var next := NextWcs(ctx.coordSystemId, ctx.nWcs);
    NextWcsCycles(ctx.coordSystemId, ctx.nWcs, 1);
    CoordSystemTextRoundTrip(next);
    var r := PendantRespond(ClassifyPendant(MACROHOME), mode, modifier, ctx);
    assert r.command[1..] == CoordSystemText(next);
  }

  /** Override and realtime codes reach the controller unchanged. */
  lemma PassThroughVerbatim(k: char, mode: JogMode, modifier: JogModify, ctx: PendantContext)
    requires IsFeedOverrideCode(k) || IsAccessoryOverrideCode(k) || IsRealtimeCode(k)
    ensures var r := PendantRespond(ClassifyPendant(k), mode, modifier, ctx);
      && r.mode == mode && r.modifier == modifier && r.command == ""
      && (IsFeedOverrideCode(k) ==> r.actions == [EnqueueFeedOverride(k)])
      && (IsAccessoryOverrideCode(k) ==> r.actions == [EnqueueAccessoryOverride(k)])
      && (IsRealtimeCode(k) ==> r.actions == [EnqueueRealtime(k)])
  {
  }

  /** The attach code '?' and every code the switch does not list do
      nothing at all. */
  lemma UnlistedDoNothing(k: char, mode: JogMode, modifier: JogModify, ctx: PendantContext)
    requires k == '?' || !IsListedCode(k)
    ensures PendantRespond(ClassifyPendant(k), mode, modifier, ctx) == PendantResponse([], mode, modifier, "")
  {
  }

  /** No key forwards G-code: the command buffer is local and never sent. */
  lemma NoKeyForwardsGcode(key: PendantKey, mode: JogMode, modifier: JogModify, ctx: PendantContext)
    ensures NoGcode(PendantRespond(key, mode, modifier, ctx).actions)
  {
    if key.UnlockKey? {
      var d := DisableLock(ctx.state, ctx.alarm, ctx.signals);
      assert d.actions == [] || d.actions == UNLOCK_ACTIONS;
    }
  }

  /** 'm' steps the modifier around x1, x0.1, x0.01 and fires its hook; the
      jog mode keys act on the mode alone, the hook firing only for 'h'. */
  lemma JogCarousels(mode: JogMode, modifier: JogModify, ctx: PendantContext)
    ensures PendantRespond(ClassifyPendant('m'), mode, modifier, ctx)
         == PendantResponse(if ctx.jogModifyHook then [JogModifyChanged(NextJogModify(modifier))] else [],
                            mode, NextJogModify(modifier), "")
    ensures PendantRespond(ClassifyPendant('h'), mode, modifier, ctx)
         == PendantResponse(if ctx.jogModeHook then [JogModeChanged(NextJogMode(mode))] else [],
                            NextJogMode(mode), modifier, "")
    ensures forall k | '0' <= k <= '2' ::
      PendantRespond(ClassifyPendant(k), mode, modifier, ctx) == PendantResponse([], JogModeOfDigit(k), modifier, "")
  {
  }

  // ---------------------------------------------------------------------
  // Status packet

  /** The fields of pendant.c's Machine_status_packet that the decisions
      set; positions, feed rate and jog step size are left out. */
  datatype PendantStatusPacket = PendantStatusPacket(
    address: nat, machineState: nat, coolantState: nat, feedOverride: nat,
    spindleOverride: nat, spindleStop: nat, spindleRpm: int, alarm: nat,
    homeState: bv8, jogMode: bv8, aCoordinate: real, currentWcs: nat)

  /** The value written to a_coordinate before the rate clamp. */
  const A_COORDINATE_SENTINEL: real := 65535.0

  /** What prepare_status_info reads from the host. */
  datatype StatusInputs = StatusInputs(
    /** state_get() */
    state: SysState,
    /** hal.coolant.get_state() */
    coolantState: nat,
    /** sys.override.feed_rate, spindle_rpm, spindle_stop.value */
    feedOverride: nat, spindleOverride: nat, spindleStop: nat,
    /** sys.spindle_rpm */
    sysRpm: int,
    /** hal.spindle.cap.variable */
    spindleVariable: bool,
    /** hal.spindle.get_data is set */
    hasGetData: bool,
    /** hal.spindle.get_data(SpindleData_RPM)->rpm */
    measuredRpm: int,
    /** sys.alarm */
    alarm: nat,
    /** sys.homing.mask and sys.homed.mask */
    homingMask: bv8, homedMask: bv8,
    /** the A value the position conversion yields, or the no-axis constant */
    aCoordinate: real,
    /** gc_state.modal.coord_system.id */
    coordSystemId: nat)

  /** The statics of pendant.c and the packet it fills. */
  class Pendant {
    var jogMode: JogMode
    var jogModify: JogModify
    /** the static `last_ms` of prepare_status_info */
    var lastMs: uint32
    /** the static `buf` that map_coord_system writes and returns */
    var coordBuf: string
    /** the packet behind `status_ptr` */
    var status: PendantStatusPacket
    /** the encoder deltas (static `deltas`), in mm */
    var deltaX: real
    var deltaY: real
    var deltaZ: real
    var deltaA: real
    /** the host calls made so far */
    var trace: seq<Action>

    /** The statics as the program starts: Fast mode, x1, all zero. */
    constructor ()
      ensures jogMode == Fast && jogModify == Modify1 && lastMs == 0 && trace == []
      ensures deltaX == 0.0 && deltaY == 0.0 && deltaZ == 0.0 && deltaA == 0.0
    {
      jogMode, jogModify := Fast, Modify1;
      lastMs := 0;
      coordBuf := "";
      status := PendantStatusPacket(0, 0, 0, 0, 0, 0, 0, 0, 0, 0, 0.0, 0);
      deltaX, deltaY, deltaZ, deltaA := 0.0, 0.0, 0.0, 0.0;
      trace := [];
    }

    /** map_coord_system: the G-code number of a WCS id, written into the
        shared static buffer, which is returned. */
    method MapCoordSystem(id: nat) returns (r: string)
      modifies this`coordBuf
      ensures r == coordBuf == CoordSystemText(id)
    {
      var g5x := (id + 54) % 256;
      coordBuf := Decimal(if g5x > 59 then 59 else g5x);
      if g5x > 59 {
        coordBuf := coordBuf + ".";
        coordBuf := coordBuf + Decimal(g5x - 59);
      }
      r := coordBuf;
    }

    /** process_keycode: act on one key code; returns what is left in the
        local command buffer, which the source never sends. */
    method ProcessKeycode(keycode: char, ctx: PendantContext) returns (command: string)
      modifies this`jogMode, this`jogModify, this`trace, this`coordBuf
      ensures var r := PendantRespond(ClassifyPendant(keycode), old(jogMode), old(jogModify), ctx);
        && jogMode == r.mode && jogModify == r.modifier
        && trace == old(trace) + r.actions && command == r.command
      ensures NoGcode(trace[|old(trace)|..])
      ensures keycode != '\0' && ClassifyPendant(keycode).ChangeWcs? ==>
        coordBuf == CoordSystemText(NextWcs(ctx.coordSystemId, ctx.nWcs))
      ensures !(keycode != '\0' && ClassifyPendant(keycode).ChangeWcs?) ==> coordBuf == old(coordBuf)
    {
      command := "";
      var key := ClassifyPendant(keycode);
      NoKeyForwardsGcode(key, jogMode, jogModify, ctx);
      if keycode != '\0' {
        match key {
          case Attach =>
          case Macro(i) =>
            trace := trace + [ExecuteMacro(i)];
          case SpindleOn =>
            if !ctx.spindleOn {
              trace := trace + [ExecuteMacro(4)];
            } else {
              command := "M05";
            }
          case ChangeWcs =>
            var text;
            if ctx.coordSystemId < ctx.nWcs - 1 {
              text := MapCoordSystem(ctx.coordSystemId + 1);
            } else {
              text := MapCoordSystem(0);
            }
            command := "G" + text;
          case UnlockKey =>
            var lock := DisableLock(ctx.state, ctx.alarm, ctx.signals);
            trace := trace + lock.actions;
          case Reset =>
            trace := trace + [EnqueueRealtime(CMD_RESET)];
          case FeedOverride(c) =>
            trace := trace + [EnqueueFeedOverride(c)];
          case AccessoryOverride(c) =>
            trace := trace + [EnqueueAccessoryOverride(c)];
          case Realtime(c) =>
            trace := trace + [EnqueueRealtime(c)];
          case MpgToggle =>
            if ctx.mpgCapable {
              trace := trace + [MpgEnable(!ctx.streamIsMpg)];
            }
          case SetJogMode(m) =>
            jogMode := m;
          case CycleJogMode =>
            jogMode := NextJogMode(jogMode);
            if ctx.jogModeHook {
              trace := trace + [JogModeChanged(jogMode)];
            }
          case CycleJogModify =>
            jogModify := NextJogModify(jogModify);
            if ctx.jogModifyHook {
              trace := trace + [JogModifyChanged(jogModify)];
            }
          case Home =>
            command := "$H";
          case Unhandled =>
        }
      }
    }

    /** prepare_status_info: unless a send happened less than 10 ms ago,
        fill the packet, send it and remember the time. */
    method PrepareStatusInfo(ms: uint32, inputs: StatusInputs)
      modifies this`status, this`lastMs, this`trace
      ensures Throttled(ms, old(lastMs)) ==>
        && status == old(status).(aCoordinate := A_COORDINATE_SENTINEL)
        && lastMs == old(lastMs) && trace == old(trace)
      ensures !Throttled(ms, old(lastMs)) ==>
        && status == PendantStatusPacket(
             1, MachineStateCode(inputs.state), inputs.coolantState, inputs.feedOverride,
             inputs.spindleOverride, inputs.spindleStop, inputs.sysRpm, inputs.alarm % 256,
             inputs.homingMask & inputs.homedMask, PackJogMode(jogMode, jogModify),
             inputs.aCoordinate, inputs.coordSystemId)
        && lastMs == ms && trace == old(trace) + [StatusPacketSent]
      ensures Throttled(ms, lastMs)
    {
      status := status.(aCoordinate := A_COORDINATE_SENTINEL);
      if Throttled(ms, lastMs) {
        return;
      }
      status := status.(address := 1);
      status := status.(machineState := MachineStateCode(inputs.state));
      status := status.(coolantState := inputs.coolantState);
      status := status.(feedOverride := inputs.feedOverride);
      status := status.(spindleOverride := inputs.spindleOverride);
      status := status.(spindleStop := inputs.spindleStop);
      if inputs.spindleVariable {
        status := status.(spindleRpm := inputs.sysRpm);
        if inputs.hasGetData {
          status := status.(spindleRpm := inputs.measuredRpm);
        }
      } else {
        status := status.(spindleRpm := inputs.sysRpm);
      }
      status := status.(spindleRpm := inputs.sysRpm);
      status := status.(alarm := inputs.alarm % 256);
      status := status.(homeState := inputs.homingMask & inputs.homedMask);
      status := status.(jogMode := PackJogMode(jogMode, jogModify));
      status := status.(aCoordinate := inputs.aCoordinate);
      status := status.(currentWcs := inputs.coordSystemId);
      trace := trace + [StatusPacketSent];
      lastMs := ms;
    }

    /** process_count_info: with cmd_process set, record the per-axis
        encoder deltas in mm; it sends nothing and returns cmd_process. */
    method ProcessCountInfo(cmdProcess: bool, prev: CountPacket, count: CountPacket, hasAAxis: bool)
      returns (r: bool)
      modifies this`deltaX, this`deltaY, this`deltaZ, this`deltaA
      ensures r == cmdProcess && trace == old(trace)
      ensures !cmdProcess ==>
        deltaX == old(deltaX) && deltaY == old(deltaY) && deltaZ == old(deltaZ) && deltaA == old(deltaA)
      ensures cmdProcess ==>
        && deltaX == CountDelta(prev.x, count.x) && deltaY == CountDelta(prev.y, count.y)
        && deltaZ == CountDelta(prev.z, count.z)
        && deltaA == (if hasAAxis then CountDelta(prev.a, count.a) else old(deltaA))
    {
      if cmdProcess {
        deltaX := CountDelta(prev.x, count.x);
        deltaY := CountDelta(prev.y, count.y);
        deltaZ := CountDelta(prev.z, count.z);
        if hasAAxis {
          deltaA := CountDelta(prev.a, count.a);
        }
        // The jog the deltas would start is commented out in the source:
        // neither branch of the test on the deltas does anything.
      }
      r := cmdProcess;
    }
  }

  /** The axis readings of a Pendant_count_packet, in thousandths of a mm. */
  datatype CountPacket = CountPacket(x: real, y: real, z: real, a: real)

  /** `(float)(count - previous) / 1000`, taken exactly. */
  function CountDelta(previous: real, count: real): (d: real)
    ensures (d == 0.0) <==> previous == count
    ensures (d > 0.0) <==> count > previous
    ensures d * 1000.0 == count - previous
  {
    (count - previous) / 1000.0
  }

  /** Two key presses: 'm' three times brings the modifier back, and a key
      that is not listed changes nothing. */
  method CarouselClient(ctx: PendantContext)
  {
    var p := new Pendant();
    var c1 := p.ProcessKeycode('m', ctx);
    var c2 := p.ProcessKeycode('m', ctx);
    var c3 := p.ProcessKeycode('m', ctx);
    assert p.jogModify == Modify1 && p.jogMode == Fast;
    var t := p.trace;
    var c4 := p.ProcessKeycode('Z', ctx);
    assert p.trace == t && c4 == "";
  }

  /** Two status sends in the same millisecond: only the first goes out. */
  method StatusClampClient(ms: uint32, inputs: StatusInputs)
  {
    var p := new Pendant();
    p.PrepareStatusInfo(ms, inputs);
    var t := p.trace;
    p.PrepareStatusInfo(ms, inputs);
    assert p.trace == t && p.status.aCoordinate == A_COORDINATE_SENTINEL;
  }
}
