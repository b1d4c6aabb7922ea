// keypad.c: the key-code ring filled from interrupt context and drained by
// the foreground translator, the cancel/release flags, the translation of
// one key code into a controller action or a jog line, the status packet
// and the jog setting defaults.
module Keypad {
  import opened Grbl
  import opened Keys
  import opened Host
  import opened JogText
  import opened StatusInfo

  /** jog_settings_t: speeds in mm/min, distances in mm. */
  datatype JogSettings = JogSettings(
    stepSpeed: real, slowSpeed: real, fastSpeed: real,
    stepDistance: real, slowDistance: real, fastDistance: real)

  /** The values keypad_settings_restore writes. */
  const DEFAULT_JOG_SETTINGS: JogSettings := JogSettings(100.0, 600.0, 3000.0, 0.25, 500.0, 3000.0)

  /** keypad.c's Machine_status_packet (all fields uint8_t). */
  datatype KeypadStatusPacket = KeypadStatusPacket(
    address: nat, machineState: nat, alarm: nat, homeState: bv8,
    feedOverride: nat, spindleOverride: nat, spindleStop: nat, coolantState: nat)

  /** What the translator reads from the host while handling one key. */
  datatype KeyContext = KeyContext(
    /** keypad.on_keypress_preview; a host without one is `(_, _) => false` */
    preview: (char, SysState) -> bool,
    /** keypad.on_jogmode_changed is set */
    jogModeHook: bool,
    /** hal.driver_cap.mpg_mode */
    mpgCapable: bool,
    /** hal.stream.type == StreamType_MPG */
    streamIsMpg: bool,
    /** gc_state.modal.units_imperial */
    unitsImperial: bool,
    /** ftoa(value, decimals) */
    ftoa: (real, nat) -> Numeral,
    /** what grbl.enqueue_gcode answers */
    gcodeAccepted: bool)

  /** The axis template of each jog key, "" for any other key. */
  function JogTemplate(k: char): (t: string) {
    if k == JOG_XR then "X?F"
    else if k == JOG_XL then "X-?F"
    else if k == JOG_YF then "Y?F"
    else if k == JOG_YB then "Y-?F"
    else if k == JOG_ZU then "Z?F"
    else if k == JOG_ZD then "Z-?F"
    else if k == JOG_XRYF then "X?Y?F"
    else if k == JOG_XRYB then "X?Y-?F"
    else if k == JOG_XLYF then "X-?Y?F"
    else if k == JOG_XLYB then "X-?Y-?F"
    else if k == JOG_XRZU then "X?Z?F"
    else if k == JOG_XRZD then "X?Z-?F"
    else if k == JOG_XLZU then "X-?Z?F"
    else if k == JOG_XLZD then "X-?Z-?F"
    else ""
  }

  predicate IsJogKey(k: char) {
    k in {JOG_XR, JOG_XL, JOG_YF, JOG_YB, JOG_ZU, JOG_ZD,
          JOG_XRYF, JOG_XRYB, JOG_XLYF, JOG_XLYB, JOG_XRZU, JOG_XRZD, JOG_XLZU, JOG_XLZD}
  }

  /** What the translator's switch makes of a key code. */
  datatype KeypadKey =
    | StatusRequest
    | FeedOverride(cmd: char)
    | AccessoryOverride(cmd: char)
    | Realtime(cmd: char)
    | MpgToggle
    | SetJogMode(mode: JogMode)
    | CycleJogMode
    | Home
    | Jog(template: string)
    | Unhandled

  /** Every case label of keypad_process_keypress's switch. */
  predicate IsKeypadListedCode(k: char) {
    k == '?'
    || k in {CMD_OVERRIDE_FEED_COARSE_PLUS, CMD_OVERRIDE_FEED_COARSE_MINUS, CMD_OVERRIDE_FEED_RESET}
    || k in {CMD_OVERRIDE_SPINDLE_COARSE_PLUS, CMD_OVERRIDE_SPINDLE_COARSE_MINUS,
             CMD_OVERRIDE_SPINDLE_RESET, CMD_OVERRIDE_SPINDLE_STOP}
    || k == 'M' || k == 'C' || k == CMD_FEED_HOLD_LEGACY || k == CMD_OVERRIDE_FAN0_TOGGLE
    || k == CMD_CYCLE_START_LEGACY || k == CMD_MPG_MODE_TOGGLE
    || '0' <= k <= '2' || k == 'h' || k == 'H' || IsJogKey(k)
  }

  /** The case labels of keypad_process_keypress's switch. */
  function Classify(k: char): (key: KeypadKey)
    ensures key.Unhandled? <==> !IsKeypadListedCode(k)
    ensures key.Jog? <==> IsJogKey(k)
    ensures key.Jog? ==> key.template == JogTemplate(k) && '?' in key.template
                         && key.template[|key.template| - 1] == 'F'
    ensures key.SetJogMode? <==> '0' <= k <= '2'
    ensures key.CycleJogMode? <==> k == 'h'
    ensures key.Home? <==> k == 'H'
  {
    if k == '?' then StatusRequest
    else if k == CMD_OVERRIDE_FEED_COARSE_PLUS then FeedOverride(CMD_OVERRIDE_FEED_COARSE_PLUS)
    else if k == CMD_OVERRIDE_FEED_COARSE_MINUS then FeedOverride(CMD_OVERRIDE_FEED_COARSE_MINUS)
    else if k == CMD_OVERRIDE_FEED_RESET then FeedOverride(CMD_OVERRIDE_FEED_RESET)
    else if k == CMD_OVERRIDE_SPINDLE_COARSE_PLUS then AccessoryOverride(CMD_OVERRIDE_SPINDLE_COARSE_PLUS)
    else if k == CMD_OVERRIDE_SPINDLE_COARSE_MINUS then AccessoryOverride(CMD_OVERRIDE_SPINDLE_COARSE_MINUS)
    else if k == CMD_OVERRIDE_SPINDLE_RESET then AccessoryOverride(CMD_OVERRIDE_SPINDLE_RESET)
    else if k == CMD_OVERRIDE_SPINDLE_STOP then AccessoryOverride(CMD_OVERRIDE_SPINDLE_STOP)
    else if k == 'M' then AccessoryOverride(CMD_OVERRIDE_COOLANT_MIST_TOGGLE)
    else if k == 'C' then AccessoryOverride(CMD_OVERRIDE_COOLANT_FLOOD_TOGGLE)
    else if k == CMD_FEED_HOLD_LEGACY then Realtime(CMD_FEED_HOLD)
    else if k == CMD_OVERRIDE_FAN0_TOGGLE then Realtime(CMD_OVERRIDE_FAN0_TOGGLE)
    else if k == CMD_CYCLE_START_LEGACY then Realtime(CMD_CYCLE_START)
    else if k == CMD_MPG_MODE_TOGGLE then MpgToggle
    else if '0' <= k <= '2' then SetJogMode(JogModeOfDigit(k))
    else if k == 'h' then CycleJogMode
    else if k == 'H' then Home
    else if IsJogKey(k) then Jog(JogTemplate(k))
    else Unhandled
  }

  /** The distance text a jog in the given mode substitutes for '?'. */
  function JogDistance(mode: JogMode, jog: JogSettings, ctx: KeyContext): (d: Numeral)
    ensures '?' !in d
  {
    var d := match mode
      case Slow => ctx.ftoa(jog.slowDistance, 0)
      case Step => ctx.ftoa(jog.stepDistance, if ctx.unitsImperial then 4 else 3)
      case Fast => ctx.ftoa(jog.fastDistance, 0);
    NumeralHasNoPlaceholder(d);
    d
  }

  /** The speed text a jog in the given mode appends. */
  function JogSpeed(mode: JogMode, jog: JogSettings, ctx: KeyContext): (v: Numeral)
    ensures '?' !in v
  {
    var v := match mode
      case Slow => ctx.ftoa(jog.slowSpeed, 0)
      case Step => ctx.ftoa(jog.stepSpeed, 0)
      case Fast => ctx.ftoa(jog.fastSpeed, 0);
    NumeralHasNoPlaceholder(v);
    v
  }

  /** The outcome of one key before the enqueue gate: host calls made in the
      switch, the new jog mode, and the command built ("" for none). */
  datatype Response = Response(actions: seq<Action>, mode: JogMode, command: string)

  function Respond(key: KeypadKey, mode: JogMode, jog: JogSettings, ctx: KeyContext): (r: Response)
    ensures r.mode != mode ==> key.SetJogMode? || key.CycleJogMode?
    ensures r.command == "" || r.command == "$H" || IsJogCommand(r.command)
  {
    match key
    case StatusRequest => Response([ScheduleStatusSend(1)], mode, "")
    case FeedOverride(c) => Response([EnqueueFeedOverride(c)], mode, "")
    case AccessoryOverride(c) => Response([EnqueueAccessoryOverride(c)], mode, "")
    case Realtime(c) => Response([EnqueueRealtime(c)], mode, "")
    case MpgToggle => Response(if ctx.mpgCapable then [MpgEnable(!ctx.streamIsMpg)] else [], mode, "")
    case SetJogMode(m) => Response([], m, "")
    case CycleJogMode =>
      var m := NextJogMode(mode);
      Response(if ctx.jogModeHook then [JogModeChanged(m)] else [], m, "")
    case Home => Response([], mode, "$H")
    case Jog(t) =>
      JogLineShape(t, JogDistance(mode, jog, ctx), JogSpeed(mode, jog, ctx));
      Response([], mode, JogLine(t, JogDistance(mode, jog, ctx), JogSpeed(mode, jog, ctx)))
    case Unhandled => Response([], mode, "")
  }

  /** The gate `!(jogCommand && keyreleased)` on a non-empty command. */
  function Forwarded(command: string, keyreleased: bool): (b: bool)
    ensures b ==> command != ""
    ensures !keyreleased ==> (b <==> command != "")
    ensures !IsJogCommand(command) ==> (b <==> command != "")
  {
    command != "" && !(IsJogCommand(command) && keyreleased)
  }

  /** The command the switch itself starts, before distance and speed. */
  function RawCommand(key: KeypadKey): (cmd: string) {
    match key
    case Home => "$H"
    case Jog(t) => JogCommand(t)
    case _ => ""
  }

  /** The command of a response is the switch's command, completed with the
      mode's distance and speed exactly when it is a jog command. */
  lemma RespondCommand(key: KeypadKey, mode: JogMode, jog: JogSettings, ctx: KeyContext)
    ensures var raw := RawCommand(key);
      Respond(key, mode, jog, ctx).command
      == if IsJogCommand(raw)
         then ReplaceAll(raw, '?', JogDistance(mode, jog, ctx)) + JogSpeed(mode, jog, ctx)
         else raw
    ensures (Respond(key, mode, jog, ctx).command == "") == (RawCommand(key) == "")
    ensures IsJogCommand(Respond(key, mode, jog, ctx).command) == IsJogCommand(RawCommand(key))
  {
    if key.Jog? {
      JogLineShape(key.template, JogDistance(mode, jog, ctx), JogSpeed(mode, jog, ctx));
    }
  }

  /** One key causes at most one downstream call: either one host call from
      the switch, or a built command, never both. */
  lemma RespondSingleEffect(key: KeypadKey, mode: JogMode, jog: JogSettings, ctx: KeyContext)
    ensures |Respond(key, mode, jog, ctx).actions| <= 1
    ensures Respond(key, mode, jog, ctx).actions != [] ==> Respond(key, mode, jog, ctx).command == ""
  {
  }

  /** A jog key builds "$J=G91G21", its template with every '?' replaced by
      the mode's distance, and the mode's speed; the line holds no '?'. */
  lemma JogKeyBuildsJogLine(k: char, mode: JogMode, jog: JogSettings, ctx: KeyContext)
    requires IsJogKey(k)
    ensures Respond(Classify(k), mode, jog, ctx)
         == Response([], mode, JOG_PREFIX + ReplaceAll(JogTemplate(k), '?', JogDistance(mode, jog, ctx))
                                + JogSpeed(mode, jog, ctx))
    ensures '?' !in Respond(Classify(k), mode, jog, ctx).command
    ensures IsJogCommand(Respond(Classify(k), mode, jog, ctx).command)
  {
    JogLineShape(JogTemplate(k), JogDistance(mode, jog, ctx), JogSpeed(mode, jog, ctx));
  }

  /** A jog line goes to the controller only while the key is held; "$H"
      goes regardless of the key state. */
  lemma ForwardingGate(k: char, mode: JogMode, jog: JogSettings, ctx: KeyContext, keyreleased: bool)
    requires IsJogKey(k) || k == 'H'
    ensures Forwarded(Respond(Classify(k), mode, jog, ctx).command, keyreleased)
        <==> (k == 'H' || !keyreleased)
  {
    if IsJogKey(k) {
      JogKeyBuildsJogLine(k, mode, jog, ctx);
    }
  }

  /** A code the switch does not list builds nothing, calls nothing and
      keeps the jog mode. */
  lemma UnlistedCodesDoNothing(k: char, mode: JogMode, jog: JogSettings, ctx: KeyContext, keyreleased: bool)
    requires !IsKeypadListedCode(k)
    ensures Respond(Classify(k), mode, jog, ctx) == Response([], mode, "")
    ensures !Forwarded(Respond(Classify(k), mode, jog, ctx).command, keyreleased)
  {
  }

  /** 'h' steps the mode around Step, Fast, Slow and fires the hook; '0' to
      '2' set the mode directly without it; no other key changes the mode. */
  lemma KeypadJogModeKeys(mode: JogMode, jog: JogSettings, ctx: KeyContext)
    ensures Respond(Classify('h'), mode, jog, ctx)
         == Response(if ctx.jogModeHook then [JogModeChanged(NextJogMode(mode))] else [], NextJogMode(mode), "")
    ensures forall k | '0' <= k <= '2' ::
      Respond(Classify(k), mode, jog, ctx) == Response([], JogModeOfDigit(k), "")
    ensures forall k | !('0' <= k <= '2') && k != 'h' :: Respond(Classify(k), mode, jog, ctx).mode == mode
  {
  }

  /** 'R' in Fast mode, with distance and speed formatted as "3000",
      yields "$J=G91G21X3000F3000". */
  lemma FastJogRight(jog: JogSettings, ctx: KeyContext)
    requires ctx.ftoa(jog.fastDistance, 0) == "3000" && ctx.ftoa(jog.fastSpeed, 0) == "3000"
    ensures Respond(Classify(JOG_XR), Fast, jog, ctx).command == "$J=G91G21X3000F3000"
  {
    JogKeyBuildsJogLine(JOG_XR, Fast, jog, ctx);
    assert "X?F" == ['X'] + (['?'] + ['F']);
    ReplaceAllConcat(['X'], ['?'] + ['F'], '?', "3000");
    ReplaceAllConcat(['?'], ['F'], '?', "3000");
  }

  /** The ring's next index: `(i + 1) & (KEYBUF_SIZE - 1)`, taken in uint32. */
  function RingNext(i: nat): (r: nat)
    requires i < KEYBUF_SIZE
    ensures r == (i + 1) % KEYBUF_SIZE
  {
    (((i + 1) as bv32) & ((KEYBUF_SIZE - 1) as bv32)) as nat
  }

  /** The codes of a ring slot array `a` from `tail` up to, not including,
      `head`, wrapping around the end. */
  ghost function Window(a: seq<char>, tail: nat, head: nat): (s: seq<char>)
    requires |a| == KEYBUF_SIZE && tail < KEYBUF_SIZE && head < KEYBUF_SIZE
    ensures |s| == (head - tail) % KEYBUF_SIZE
  {
    if tail <= head then a[tail..head] else a[tail..] + a[..head]
  }

  /** Storing at `head` and advancing it appends to the window, unless the
      advanced head would meet the tail. */
  lemma WindowPush(a: seq<char>, tail: nat, head: nat, c: char)
    requires |a| == KEYBUF_SIZE && tail < KEYBUF_SIZE && head < KEYBUF_SIZE
    requires (head + 1) % KEYBUF_SIZE != tail
    ensures |Window(a, tail, head)| < KEYBUF_SIZE - 1
    ensures Window(a[head := c], tail, (head + 1) % KEYBUF_SIZE) == Window(a, tail, head) + [c]
  {
    var b := a[head := c];
    if tail <= head {
      if head == KEYBUF_SIZE - 1 {
        assert b[tail..] == a[tail..head] + [c];
      } else {
        assert b[tail..head + 1] == a[tail..head] + [c];
      }
    } else {
      assert b[tail..] == a[tail..];
      assert b[..head + 1] == a[..head] + [c];
    }
  }

  /** The module state of keypad.c. */
  class Keypad {
    /** keybuf: an 8-slot ring, `head` written by the producers, `tail` by the consumer */
    var buf: array<char>
    var head: nat
    var tail: nat
    var jogging: bool
    var keyreleased: bool
    var jogMode: JogMode
    var jog: JogSettings
    /** non-zero once the settings got NVS space: gates scheduling the translator */
    const nvsAddress: nat
    var status: KeypadStatusPacket
    /** the host calls made so far */
    var trace: seq<Action>

    ghost predicate Valid()
      reads this`buf, this`head, this`tail
    {
      buf.Length == KEYBUF_SIZE && head < KEYBUF_SIZE && tail < KEYBUF_SIZE
    }

    /** The codes waiting in the ring, oldest first. */
    ghost function Contents(): (s: seq<char>)
      reads this`buf, this`head, this`tail, buf
      requires Valid()
      ensures |s| < KEYBUF_SIZE
    {
      Window(buf[..], tail, head)
    }

    /** keypad_init's view of the statics: an empty zeroed ring, no jog
        running, the key released, Fast mode, settings as loaded. */
    constructor (nvsAddress: nat, jog: JogSettings)
      ensures Valid() && fresh(buf) && Contents() == []
      ensures !jogging && keyreleased && jogMode == Fast
      ensures this.jog == jog && this.nvsAddress == nvsAddress && trace == []
    {
      buf := new char[KEYBUF_SIZE](_ => '\0');
      head, tail := 0, 0;
      jogging, keyreleased := false, true;
      jogMode := Fast;
      this.jog := jog;
      this.nvsAddress := nvsAddress;
      status := KeypadStatusPacket(0, 0, 0, 0, 0, 0, 0, 0);
      trace := [];
    }

    /** keypad_get_keycode: 0 from an empty ring, else the oldest code. */
    method GetKeycode() returns (c: char)
      requires Valid()
      modifies this`tail
      ensures Valid()
      ensures old(Contents()) == [] ==> c == '\0' && tail == old(tail)
      ensures old(Contents()) != [] ==> c == old(Contents())[0] && tail == RingNext(old(tail))
      ensures Contents() == if old(Contents()) == [] then [] else old(Contents())[1..]
    {
      c := '\0';
      var bptr := tail;
      if bptr != head {
        c := buf[bptr];
        tail := RingNext(bptr);
      }
    }

    /** keypad_enqueue_keycode: a cancel code flushes the ring and cancels a
        running jog; any other code is appended unless the ring is full. */
    method EnqueueKeycode(c: char) returns (r: bool)
      requires Valid()
      modifies this`head, this`tail, this`keyreleased, this`jogging, this`trace, buf
      ensures Valid() && r
      ensures c == CMD_JOG_CANCEL || c == ASCII_CAN ==>
        && Contents() == [] && head == old(head) && keyreleased && !jogging
        && trace == old(trace) + (if old(jogging) then [EnqueueRealtime(CMD_JOG_CANCEL)] else [])
      ensures c != CMD_JOG_CANCEL && c != ASCII_CAN && |old(Contents())| == KEYBUF_SIZE - 1 ==>
        && Contents() == old(Contents()) && head == old(head) && tail == old(tail)
        && keyreleased == old(keyreleased) && jogging == old(jogging) && trace == old(trace)
      ensures c != CMD_JOG_CANCEL && c != ASCII_CAN && |old(Contents())| < KEYBUF_SIZE - 1 ==>
        && Contents() == old(Contents()) + [c] && head == RingNext(old(head)) && tail == old(tail)
        && !keyreleased && jogging == old(jogging)
        && trace == old(trace) + (if nvsAddress != 0 then [ScheduleKeypress] else [])
    {
      var bptr := RingNext(head);
      if c == CMD_JOG_CANCEL || c == ASCII_CAN {
        keyreleased := true;
        if jogging {
          jogging := false;
          trace := trace + [EnqueueRealtime(CMD_JOG_CANCEL)];
        }
        tail := head;
      } else if bptr != tail {
        Push(c);
        keyreleased := false;
        if nvsAddress != 0 {
          trace := trace + [ScheduleKeypress];
        }
      }
      r := true;
    }

    /** i2c_enqueue_keycode: append unless full, with no cancel handling. */
    method I2cEnqueueKeycode(c: char)
      requires Valid()
      modifies this`head, this`trace, buf
      ensures Valid() && tail == old(tail)
      ensures |old(Contents())| == KEYBUF_SIZE - 1 ==>
        Contents() == old(Contents()) && head == old(head) && trace == old(trace)
      ensures |old(Contents())| < KEYBUF_SIZE - 1 ==>
        && Contents() == old(Contents()) + [c] && head == RingNext(old(head))
        && trace == old(trace) + (if nvsAddress != 0 then [ScheduleKeypress] else [])
    {
      var bptr := RingNext(head);
      if bptr != tail {
        Push(c);
        if nvsAddress != 0 {
          trace := trace + [ScheduleKeypress];
        }
      }
    }

    /** The store shared by both producers: store at head, then advance head. */
    method Push(c: char)
      requires Valid() && RingNext(head) != tail
      modifies this`head, buf
      ensures Valid() && tail == old(tail) && head == RingNext(old(head))
      ensures |old(Contents())| < KEYBUF_SIZE - 1
      ensures Contents() == old(Contents()) + [c]
    {
      ghost var a := buf[..];
      var h := head;
      buf[h] := c;
      assert buf[..] == a[h := c];
      head := RingNext(h);
      WindowPush(a, tail, h, c);
    }

    /** keypad_strobe_handler: a key press asks for the key code over I2C;
        a release flushes the ring and cancels a running jog. */
    method StrobeHandler(keydown: bool) returns (r: bool)
      requires Valid()
      modifies this`tail, this`keyreleased, this`jogging, this`trace
      ensures Valid() && r && keyreleased == !keydown
      ensures keydown ==>
        tail == old(tail) && jogging == old(jogging) && trace == old(trace) + [KeycodeReadRequested]
      ensures !keydown ==>
        && Contents() == [] && !jogging
        && trace == old(trace) + (if old(jogging) then [EnqueueRealtime(CMD_JOG_CANCEL)] else [])
    {
      keyreleased := !keydown;
      if keydown {
        trace := trace + [KeycodeReadRequested];
      } else if jogging {
        jogging := false;
        trace := trace + [EnqueueRealtime(CMD_JOG_CANCEL)];
        tail := head;
      } else {
        tail := head;
      }
      r := true;
    }

    /** keypad_process_keypress: take one code off the ring and act on it. */
    method ProcessKeypress(state: SysState, ctx: KeyContext)
      requires Valid()
      modifies this`tail, this`jogMode, this`jogging, this`trace
      ensures Valid()
      ensures Contents() == if old(Contents()) == [] then [] else old(Contents())[1..]
      ensures
        var k := if old(Contents()) == [] then '\0' else old(Contents())[0];
        if state == STATE_ESTOP || k == '\0' || ctx.preview(k, state) then
          jogMode == old(jogMode) && jogging == old(jogging) && trace == old(trace)
        else
          var resp := Respond(Classify(k), old(jogMode), jog, ctx);
          var fwd := Forwarded(resp.command, keyreleased);
          && jogMode == resp.mode
          && trace == old(trace) + resp.actions + (if fwd then [EnqueueGcode(resp.command)] else [])
          && jogging == (old(jogging) || (fwd && IsJogCommand(resp.command) && ctx.gcodeAccepted))
    {
      var keycode := GetKeycode();
      if state == STATE_ESTOP {
        return;
      }
      if keycode != '\0' && !ctx.preview(keycode, state) {
        Translate(keycode, ctx);
      }
    }

    /** The body of keypad_process_keypress for a code that survived the
        EStop test and the preview hook. */
    method Translate(keycode: char, ctx: KeyContext)
      modifies this`jogMode, this`jogging, this`trace
      ensures
        var resp := Respond(Classify(keycode), old(jogMode), jog, ctx);
        var fwd := Forwarded(resp.command, keyreleased);
        && jogMode == resp.mode
        && trace == old(trace) + resp.actions + (if fwd then [EnqueueGcode(resp.command)] else [])
        && jogging == (old(jogging) || (fwd && IsJogCommand(resp.command) && ctx.gcodeAccepted))
    {
      var key := Classify(keycode);
      RespondCommand(key, jogMode, jog, ctx);
      var command := Switch(key, ctx);
      if command != "" {
        var jogCommand := IsJogCommand(command);
        if jogCommand {
          command := AddDistanceAndSpeed(command, jogMode, ctx);
        }
        if !(jogCommand && keyreleased) {
          var addedGcode := ctx.gcodeAccepted;
          trace := trace + [EnqueueGcode(command)];
          jogging := jogging || (jogCommand && addedGcode);
        }
      }
    }

    /** The switch of keypad_process_keypress: the host calls and jog mode
        change of one key, and the command it starts ("" for none). */
    method Switch(key: KeypadKey, ctx: KeyContext) returns (command: string)
      modifies this`jogMode, this`trace
      ensures jogMode == Respond(key, old(jogMode), jog, ctx).mode
      ensures trace == old(trace) + Respond(key, old(jogMode), jog, ctx).actions
      ensures command == RawCommand(key)
    {
      command := "";
      match key {
        case StatusRequest =>
          trace := trace + [ScheduleStatusSend(1)];
        case FeedOverride(cmd) =>
          trace := trace + [EnqueueFeedOverride(cmd)];
        case AccessoryOverride(cmd) =>
          trace := trace + [EnqueueAccessoryOverride(cmd)];
        case Realtime(cmd) =>
          trace := trace + [EnqueueRealtime(cmd)];
        case MpgToggle =>
          if ctx.mpgCapable {
            trace := trace + [MpgEnable(!ctx.streamIsMpg)];
          }
        case SetJogMode(m) =>
          jogMode := m;
        case CycleJogMode =>
          jogMode := NextJogMode(jogMode);
          if ctx.jogModeHook {
            trace := trace + [JogModeChanged(jogMode)];
          }
        case Home =>
          command := "$H";
        case Jog(t) =>
          command := JogCommand(t);
        case Unhandled =>
      }
    }

    /** Substitute the mode's distance for every '?' and append its speed. */
    method AddDistanceAndSpeed(command: string, mode: JogMode, ctx: KeyContext) returns (line: string)
      ensures line == ReplaceAll(command, '?', JogDistance(mode, jog, ctx)) + JogSpeed(mode, jog, ctx)
      ensures '?' !in line
    {
      var distance, speed;
      match mode {
        case Slow =>
          distance, speed := ctx.ftoa(jog.slowDistance, 0), ctx.ftoa(jog.slowSpeed, 0);
        case Step =>
          distance := ctx.ftoa(jog.stepDistance, if ctx.unitsImperial then 4 else 3);
          speed := ctx.ftoa(jog.stepSpeed, 0);
        case Fast =>
          distance, speed := ctx.ftoa(jog.fastDistance, 0), ctx.ftoa(jog.fastSpeed, 0);
      }
      NumeralHasNoPlaceholder(distance);
      NumeralHasNoPlaceholder(speed);
      line := Strrepl(command, '?', distance);
      line := line + speed;
    }

    /** send_status_info: fill the packet and send it to the keypad. */
    method SendStatusInfo(state: SysState, coolantState: nat, feedOverride: nat, spindleOverride: nat,
                          spindleStop: nat, alarm: nat, homingMask: bv8, homedMask: bv8)
      modifies this`status, this`trace
      ensures status == KeypadStatusPacket(
        1, MachineStateCode(state), alarm % 256, homingMask & homedMask,
        feedOverride % 256, spindleOverride % 256, spindleStop % 256, coolantState % 256)
      ensures status.homeState & homingMask == status.homeState && status.homeState & homedMask == status.homeState
      ensures trace == old(trace) + [StatusPacketSent]
    {
      status := status.(address := 1);
      status := status.(machineState := MachineStateCode(state));
      status := status.(coolantState := coolantState % 256);
      status := status.(feedOverride := feedOverride % 256);
      status := status.(spindleOverride := spindleOverride % 256);
      status := status.(spindleStop := spindleStop % 256);
      status := status.(alarm := alarm % 256);
      status := status.(homeState := homingMask & homedMask);
      trace := trace + [StatusPacketSent];
    }

    /** keypad_settings_restore: the default jog settings, saved to NVS. */
    method SettingsRestore()
      modifies this`jog, this`trace
      ensures jog == DEFAULT_JOG_SETTINGS
      ensures jog.stepDistance < jog.slowDistance < jog.fastDistance
      ensures jog.stepSpeed < jog.slowSpeed < jog.fastSpeed
      ensures trace == old(trace) + [JogSettingsSaved]
    {
      jog := JogSettings(100.0, 600.0, 3000.0, 0.25, 500.0, 3000.0);
      trace := trace + [JogSettingsSaved];
    }
  }

  /** A client of the ring: codes come out in the order they went in. */
  method RingFifoClient(nvsAddress: nat)
  {
    var kp := new Keypad(nvsAddress, DEFAULT_JOG_SETTINGS);
    kp.I2cEnqueueKeycode('a');
    assert kp.Contents() == ['a'];
    kp.I2cEnqueueKeycode('b');
    assert kp.Contents() == ['a', 'b'];
    var x := kp.GetKeycode();
    assert x == 'a' && kp.Contents() == ['b'];
    var y := kp.GetKeycode();
    assert y == 'b' && kp.Contents() == [];
    var z := kp.GetKeycode();
    assert z == '\0';
  }

  /** A client of the cancel path: two cancels in a row send the jog cancel
      at most once, and leave the ring empty and the key released. */
  method DoubleCancelClient(kp: Keypad)
    requires kp.Valid()
    modifies kp, kp.buf
  {
    var r1 := kp.EnqueueKeycode(CMD_JOG_CANCEL);
    var t := kp.trace;
    var r2 := kp.EnqueueKeycode(CMD_JOG_CANCEL);
    assert kp.trace == t && kp.Contents() == [] && !kp.jogging && kp.keyreleased;
  }
}
