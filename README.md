# I2C keypad and pendant plugin for grblHAL, modelled in Dafny

The plugin connects a keypad (keypad.c) and a jog pendant (pendant.c) to the
grblHAL CNC controller. This project models its sequential core and proves
its properties:

- **The key code ring of keypad.c.** It is an 8-slot array with `head` and `tail` indices. Interrupt-side producers fill it and the foreground consumer drains it.
- **The cancel and release flags.** `jogging` and `keyreleased` are kept up to date by the enqueue and strobe handlers.
- **The keypad translator.**
  - It takes one code off the ring and picks a status request (scheduling `send_status_info`), an override, a realtime command, an MPG toggle or a jog mode change.
  - Otherwise it builds a command: `$H`, or a jog line made of `$J=G91G21`, an axis template whose `?` placeholders are replaced by the mode's distance, and the mode's speed.
  - It forwards a jog line only while the key is still held.
- **The pendant's key dispatcher.**
  - It runs macros for the macro keys.
  - It forwards overrides and realtime codes unchanged.
  - For the WCS key it builds the G-code of the next work coordinate system (text from `map_coord_system`) but never sends it; the same holds for `$H` and `M05`.
  - It unlocks after an alarm (`disable_lock`) and resets the controller.
  - It drives the pendant's own jog mode and jog modifier.
- **The status packets.** Both files fill one. The pendant's version is held back by a 10 ms rate clamp.

### How the host is represented

- Every call into grblHAL or the driver is recorded as an `Action` in a trace instead of being performed (module `Host`). This covers enqueueing G-code, realtime commands and overrides, running a macro, setting the state, reporting a message, the jog hooks, scheduling a foreground call, an I2C transfer and an NVS write.
- Everything the code reads from the host is a parameter:
  - the machine state, the alarm, the control signals and the spindle state;
  - the active coordinate system;
  - the capabilities, and whether the hooks are set;
  - the tick counter;
  - what `enqueue_gcode` answers.
- `ftoa` is a parameter, a function from a value and a number of decimals to a `Numeral`: a string of digits, `.` and `-`.
- `uitoa` is `Grbl.Decimal`.
- The grblHAL constants used come from grblHAL's grbl.h, system.h and alarms.h. Those headers are not part of this model. The constants are:
  - the `STATE_*` bit masks;
  - the `CMD_*` realtime bytes;
  - `ASCII_CAN` = 0x18, which is also `CMD_RESET` and the keypad's `MACROUP`;
  - `Alarm_SelftestFailed` = 16.
- Key codes are `char`s, read as unsigned bytes.

### Modules

| module | file | contents |
|---|---|---|
| `Grbl` | grbl.dfy | controller constants, status codes, `uitoa` |
| `Keys` | keys.dfy | keypad.h key codes, jog modes, the two carousels |
| `Host` | host.dfy | the action trace |
| `JogText` | jogtext.dfy | `strrepl` and `jog_command`, which keypad.c and pendant.c both define identically |
| `StatusInfo` | statusinfo.dfy | the state code map, the jog mode byte, the rate clamp |
| `Keypad` | keypad.dfy | class `Keypad`: ring, flags, translator, status packet, defaults |
| `Pendant` | pendant.dfy | class `Pendant`: dispatcher, WCS text, unlock, status packet, count handler |

### State codes

- Both files write 254 for a state outside the table (keypad.c:207-208, pendant.c:278-279).
- keypad.c:186's case label evaluates to 1, so only Alarm gets code 1 there (see Findings).

## Model

| member | source | states |
|---|---|---|
| `Grbl.Decimal` | pendant.c:83-86 | uitoa's text is a non-empty digit string without a leading zero |
| `Grbl.ParseDecimalOfDecimal` | pendant.c:83-86 | reading back uitoa's digits gives the number again |
| `Grbl.DecimalInjective` | pendant.c:83-86 | two numbers never get the same uitoa text |
| `Keys.JogModeOfDigit` | keypad.c:288-292 | `(jogmode_t)(keycode - '0')` gives the mode whose enum value is the digit |
| `Keys.NextJogMode` | keypad.c:294-298 | every 'h' press changes the mode; pendant.c:411 is the same carousel |
| `Keys.NextJogModify` | pendant.c:416-420 | every 'm' press changes the modifier |
| `Keys.NextJogModeCycles` | keypad.c:294-298 | the 'h' carousel Step→Fast→Slow→Step changes the mode on every press and returns after three presses; it adds one modulo 3 |
| `Keys.NextJogModifyCycles` | pendant.c:416-420 | the 'm' carousel x0.01→x1→x0.1→x0.01, the same way |
| `JogText.ReplaceAllConcat` | keypad.c:161-174 | substituting a placeholder distributes over concatenation |
| `JogText.ReplaceAllIdentity` | keypad.c:161-174 | a string without the placeholder is unchanged |
| `JogText.ReplaceAllRemoves` | keypad.c:161-174 | no placeholder survives when the replacement holds none |
| `JogText.LastIndex` | keypad.c:164 | strrchr: the index of the last occurrence, with nothing like it after it, or -1 exactly when there is none |
| `JogText.LastIndexBeforeSuffix` | keypad.c:170 | the next placeholder found lies before the part already replaced |
| `JogText.SpliceStep` | keypad.c:167-169 | one splice at the last placeholder extends the replaced suffix and keeps it free of placeholders |
| `JogText.Strrepl` | keypad.c:161-174 | the loop's result is every placeholder replaced, and none is left; pendant.c:64-77 is the same function |
| `JogText.JogCommand` | keypad.c:176-179 | the command passes the `$J` test that keypad.c:364 applies, and holds a '?' exactly when its template does; pendant.c:92-95 is the same function |
| `JogText.JogLine` | keypad.c:364-380 | the mode's speed text ends the finished jog line |
| `JogText.NumeralHasNoPlaceholder` | keypad.c:366-378 | the formatted distance never holds '?', so strrepl's loop ends |
| `JogText.JogLineShape` | keypad.c:361-380 | a jog line is prefix + substituted template + speed, holds no '?', and passes the `$J` test |
| `StatusInfo.MachineStateCode` | pendant.c:253-281 | the state code is between 1 and 255, and is 254 exactly for a state not in the table |
| `StatusInfo.MachineStateCodeDistinguishes` | pendant.c:253-281 | two reported states share a code only when both are Alarm or EStop |
| `StatusInfo.KeypadStateCodeAsWritten` | keypad.c:185-209 | keypad.c's switch as written: code 1 is sent exactly for state value 1 |
| `StatusInfo.KeypadEStopMisreported` | keypad.c:186 | as written EStop gets 254 instead of 1; every other state gets the intended code |
| `StatusInfo.PackJogMode` | pendant.c:298 | the jog mode byte is 16 × mode + modifier |
| `StatusInfo.JogModeByteRoundTrip` | keypad.h:94-100 | the `mode` and `modifier` bit fields of jog_mode_t read back what was packed, for all nine combinations |
| `StatusInfo.JogModeByteInjective` | keypad.h:94-100 | different settings never share a byte |
| `StatusInfo.ThrottledAsWritten` | pendant.c:224-225 | the clamp as written: `ms < last_ms + 10` with the sum wrapping at 2^32 |
| `StatusInfo.Throttled` | pendant.c:224-225 | the corrected clamp: fewer than 10 ms elapsed since the last send, counting across the wrap |
| `StatusInfo.ThrottledMeasuresElapsed` | pendant.c:224-225 | the corrected clamp holds a send back exactly when fewer than 10 ms have passed, also across the tick wrap |
| `StatusInfo.ThrottleAgreesBeforeWrap` | pendant.c:224-225 | away from the wrap the clamp as written and the corrected one agree |
| `StatusInfo.ThrottleStallsAfterWrap` | pendant.c:224-225 | as written, after a send at 2^32−100 ms every tick below 2^32−90 is "too soon", including tick 50, 150 ms later |
| `Keypad.Classify` | keypad.c:234-358 | exactly the codes with a case label are handled; the jog keys, with templates that contain '?' and end in 'F', are exactly those classed as jogs; '0'–'2', 'h' and 'H' are exactly those classed as set-mode, cycle-mode and home |
| `Keypad.JogDistance` | keypad.c:366-379 | the distance text substituted for '?' holds no '?', whichever setting the mode selects, so strrepl ends |
| `Keypad.JogSpeed` | keypad.c:366-379 | the appended speed text holds no '?', whichever setting the mode selects |
| `Keypad.Respond` | keypad.c:234-380 | only the set-mode and cycle-mode keys change the jog mode; the command built is "", "$H" or a line that passes the `$J` test |
| `Keypad.Forwarded` | keypad.c:361-382 | only a non-empty command is forwarded; while the key is held, or for a command that is not a jog, every non-empty command is |
| `Keypad.KeypadJogModeKeys` | keypad.c:288-298 | 'h' cycles the mode and fires on_jogmode_changed; '0'–'2' set the mode without the hook; every other key keeps the mode |
| `Keypad.RespondCommand` | keypad.c:361-380 | a response's command is the switch's command completed with distance and speed exactly when it starts with `$J` |
| `Keypad.RespondSingleEffect` | keypad.c:234-358 | one key makes at most one host call in the switch, and never together with a command |
| `Keypad.JogKeyBuildsJogLine` | keypad.c:304-380 | a jog key builds prefix + template with the mode's distance + the mode's speed, holds no '?' and does not change the mode |
| `Keypad.ForwardingGate` | keypad.c:382-385 | a jog line is forwarded only while the key is held; "$H" always is |
| `Keypad.UnlistedCodesDoNothing` | keypad.c:234-358 | a code with no case label builds nothing, calls nothing, keeps the mode and forwards nothing |
| `Keypad.FastJogRight` | keypad.c:304-306 | 'R' in Fast mode with distance and speed "3000" gives "$J=G91G21X3000F3000" |
| `Keypad.RingNext` | keypad.c:400 | `(i + 1) & (KEYBUF_SIZE - 1)` is `(i + 1) mod 8` |
| `Keypad.Window` | keypad.c:51-55 | the ring holds `(head − tail) mod 8` codes |
| `Keypad.WindowPush` | keypad.c:409-411 | storing at head and advancing it appends the code when the ring is not full, which leaves at most 7 codes |
| `Keypad.Keypad.Contents` | keypad.c:51-55 | the ring never holds more than 7 codes |
| `Keypad.Keypad.constructor` | keypad.c:80-83 | the statics start with an empty ring, no jog, the key released and Fast mode |
| `Keypad.Keypad.GetKeycode` | keypad.c:148-158 | an empty ring gives 0 and is unchanged; otherwise the oldest code comes out and tail advances mod 8 |
| `Keypad.Keypad.EnqueueKeycode` | keypad.c:398-419 | a cancel flushes the ring, releases the key and sends one jog cancel iff a jog ran; when the ring is full the code is dropped; otherwise it is appended, the key is pressed and the translator is scheduled iff NVS space was allocated; always returns true |
| `Keypad.Keypad.I2cEnqueueKeycode` | keypad.c:423-434 | append unless full, scheduling the translator iff NVS space was allocated |
| `Keypad.Keypad.Push` | keypad.c:409-411 | the store appends the code to the contents and leaves tail alone |
| `Keypad.Keypad.StrobeHandler` | keypad.c:436-453 | `keyreleased` becomes `!keydown`; a press requests a read; a release flushes the ring and sends the jog cancel only if a jog ran |
| `Keypad.Keypad.ProcessKeypress` | keypad.c:221-388 | one code is always taken off the ring; in EStop, with no code, or when the preview hook takes it, nothing else happens; otherwise the mode, the host calls, the forwarded line and `jogging` follow the key's response and the gate |
| `Keypad.Keypad.Translate` | keypad.c:234-386 | the switch, the jog completion and the gate together: `jogging` only ever becomes true, and only for an accepted jog line |
| `Keypad.Keypad.Switch` | keypad.c:234-358 | the switch's host calls and mode change, and the command it starts |
| `Keypad.Keypad.AddDistanceAndSpeed` | keypad.c:364-380 | Slow uses the slow settings, Step the step ones (4 or 3 decimals), any other mode the fast ones; no '?' is left |
| `Keypad.Keypad.SendStatusInfo` | keypad.c:181-219 | the packet holds address 1, the state code, the uint8 truncations of the readings and the homed-and-homing axes, and one send is recorded; it uses the corrected state map, which gives EStop 1 where keypad.c:186 gives 254 (see Findings) |
| `Keypad.Keypad.SettingsRestore` | keypad.c:117-127 | the defaults are 100/600/3000 mm/min and 0.25/500/3000 mm, ordered step < slow < fast, and they are saved |
| `Pendant.CoordSystemText` | pendant.c:79-90 | the text is a number, or "59." followed by a number |
| `Pendant.CoordSystemTextValues` | pendant.c:79-90 | ids 0–5 give "54"–"59", id 5 + n gives "59.n" |
| `Pendant.CoordSystemTextRoundTrip` | pendant.c:79-90 | below the uint8 wrap, the text names the id it came from |
| `Pendant.CoordSystemTextInjective` | pendant.c:79-90 | two ids below the wrap never share a text |
| `Pendant.NextWcs` | pendant.c:371-374 | the next WCS is the following id or G54 |
| `Pendant.NextWcsCycles` | pendant.c:371-374 | from a valid id, k presses step k places modulo the number of systems |
| `Pendant.InAlarmOrEStop` | pendant.c:101 | the test holds exactly when the Alarm or the EStop bit is set, so in Alarm and EStop and not in Idle, Cycle or Jog |
| `Pendant.Inhibitors` | pendant.c:105-116 | at most the four blocking conditions, none of them OK |
| `Pendant.DisableLock` | pendant.c:97-124 | outside Alarm and EStop nothing happens and the result is OK; the only host calls are the unlock message and going idle, with OK |
| `Pendant.DisableLockByInhibitors` | pendant.c:101-120 | in Alarm or EStop the first blocking condition in priority order decides the status; the unlock happens iff none holds |
| `Pendant.DisableLockBlockedFails` | pendant.c:105-116 | a blocked unlock never reports OK and calls nothing |
| `Pendant.DisableLockIdempotent` | pendant.c:101-121 | after the unlock the machine is idle, where another unlock does nothing |
| `Pendant.MacroOf` | pendant.c:344-359 | macro indices lie in 0–6, with 4 reserved for the spindle key |
| `Pendant.PendantRespond` | pendant.c:337-466 | only the mode keys change the jog mode, only 'm' the modifier, only the spindle, WCS and home keys fill the command buffer, and only the unlock makes two host calls |
| `Pendant.ClassifyPendant` | pendant.c:337-466 | exactly the listed codes are handled, and the macro keys are exactly those with a macro index |
| `Pendant.MacroKeys` | pendant.c:344-359 | UP, LEFT, DOWN, RIGHT, RAISE and LOWER run macros 0, 1, 2, 3, 5 and 6 and do nothing else; pendant.c:457-463 gives the last two |
| `Pendant.SpindleKey` | pendant.c:360-369 | a stopped spindle runs macro 4; a running one only gets "M05" in the buffer |
| `Pendant.HomeKeySelectsNextWcs` | pendant.c:370-375 | the home key writes "G" and the text of `(id + 1) mod N_WorkCoordinateSystems` |
| `Pendant.PassThroughVerbatim` | pendant.c:427-455 | override and realtime codes reach the controller unchanged and change nothing else |
| `Pendant.UnlistedDoNothing` | pendant.c:339-343 | the attach code and every unlisted code do nothing |
| `Pendant.NoKeyForwardsGcode` | pendant.c:329-468 | no key sends G-code: the command buffer is never forwarded |
| `Pendant.JogCarousels` | pendant.c:404-420 | 'm' cycles the modifier and fires its hook; 'h' cycles the mode and fires its hook; '0'–'2' set the mode without a hook |
| `Pendant.Pendant.constructor` | pendant.c:53-54 | the statics start in Fast mode with modifier x1 |
| `Pendant.Pendant.MapCoordSystem` | pendant.c:79-90 | the static buffer and the returned text are the WCS text |
| `Pendant.Pendant.ProcessKeycode` | pendant.c:329-468 | the mode, the modifier, the host calls and the command buffer follow the key's response; no G-code is recorded; the WCS key leaves the next system's text in the static coordinate buffer, every other key leaves that buffer alone |
| `Pendant.Pendant.PrepareStatusInfo` | pendant.c:211-327 | within 10 ms of the last send only the a_coordinate sentinel is written; otherwise the packet holds the state code, the readings, `spindle_rpm = sys.spindle_rpm` whatever the spindle reports, the packed jog byte and the WCS, one send is recorded and the time is remembered; it uses the corrected clamp, which measures elapsed time across the tick wrap where pendant.c:224 stalls (see Findings) |
| `Pendant.Pendant.ProcessCountInfo` | pendant.c:126-209 | returns `cmd_process`, records the deltas only when it is set, and sends nothing |
| `Pendant.CountDelta` | pendant.c:153-158 | a delta is zero exactly when the reading did not change, positive exactly when it grew, and 1/1000 of the change |

## Left out

- I2C transport, the strobe interrupt claim and the attach handshake. Sends and reads are recorded as trace entries.
- Concurrency between the interrupt handlers and the foreground. Each handler is one atomic method call, and `volatile` is not modelled.
- Floating point. `ftoa` is a parameter, and reals are exact.
- The pendant packet's positions, work offsets, feed rate and `jog_stepsize`, and the jog modifier factor that only feeds `jog_stepsize`. These are float arithmetic on host data. `a_coordinate` is kept only as the sentinel written before the rate clamp, plus the value supplied by the host.
- Pendant.CountDelta: computes exactly on reals, not in single precision.
- The C buffer sizes (`command[35]`, `tmp[30]`) and the overflows they allow on long replacements.
- JogText.Strrepl: requires that the replacement holds no placeholder. When the replacement itself holds the placeholder, the source never terminates (or overruns `tmp[30]`); its callers pass formatted numbers, which never hold one.
- NVS load and save, settings registration, `onReportOptions`, `keypad_init` and its hook chaining, and the `hal.delay_ms` callbacks. Scheduling and saving are single trace entries.
- What runs behind the recorded calls.
  - Macro execution, the override queues, `stream_mpg_enable` and `state_set` are not part of this model.
  - The keypad preview hook is a parameter.
- The packed wire layouts and `sizeof` of the packet structs. The pendant's `Machine_status_packet` and `Pendant_count_packet` are not part of this model, so their fields are unbounded numbers. Only the casts the code writes (`(uint8_t)`) are applied.
- The pendant.h button bitmasks, which no code decodes.
- The two-argument `process_count_info` that pendant.h declares. The model follows the three-argument definition in pendant.c.
- Keypad.Keypad.SendStatusInfo: uses the corrected state map (see Findings), so it sends 1 for EStop where keypad.c:186 as written sends 254; `StatusInfo.KeypadStateCodeAsWritten` is the map as written.
- Pendant.Pendant.PrepareStatusInfo: uses the corrected clamp (see Findings), so after the tick wrap it sends where pendant.c:224 as written holds back; `StatusInfo.ThrottledAsWritten` is the clamp as written.
- Pendant.Pendant.MapCoordSystem: models the static buffer as a field. Callers that keep an earlier result while a later call overwrites it are not modelled.

## Findings

| source | as written | input that shows it | evidently intended | confidence | as-written member | corrected member |
|---|---|---|---|---|---|---|
| keypad.c:186 | `case STATE_ALARM \|\| STATE_ESTOP:`. C evaluates the label to 1, so only Alarm matches. | state EStop (256) gets code 254 | Alarm and EStop both send 1, as pendant.c:254-259 does | high; not executed | `StatusInfo.KeypadEStopMisreported` | `StatusInfo.MachineStateCode` (used by `Keypad.Keypad.SendStatusInfo`) |
| pendant.c:224 | `ms < last_ms + 10` on uint32 tick values | last send at 2^32−100 ms, now tick 50: every send is held back until the tick reaches 2^32−90 again, about 49.7 days later | hold back only while `ms − last_ms` (mod 2^32) is below 10 | high; not executed | `StatusInfo.ThrottleStallsAfterWrap` | `StatusInfo.ThrottledMeasuresElapsed` (the clamp `Pendant.Pendant.PrepareStatusInfo` uses) |
