// What the plugins ask of the controller, recorded as a trace of actions
// instead of being performed: each entry stands for one call into grblHAL
// or the driver (enqueue_gcode, enqueue_realtime_command, the override
// enqueuers, execute_macro, state_set, feedback_message, the jog hooks,
// scheduling a foreground call, an I2C transfer, an NVS write).
module Host {
  import opened Grbl
  import opened Keys

  datatype Action =
    | EnqueueGcode(line: string)
    | EnqueueRealtime(cmd: char)
    | EnqueueFeedOverride(cmd: char)
    | EnqueueAccessoryOverride(cmd: char)
    | ExecuteMacro(index: nat)
    | StateSet(state: SysState)
    | FeedbackMessage(msg: Message)
    | MpgEnable(on: bool)
    | JogModeChanged(mode: JogMode)
    | JogModifyChanged(modifier: JogModify)
    /** protocol_enqueue_rt_command(keypad_process_keypress) */
    | ScheduleKeypress
    /** hal.delay_ms(ms, send_status_info) */
    | ScheduleStatusSend(delayMs: nat)
    /** I2C_GetKeycode: a read whose completion calls i2c_enqueue_keycode */
    | KeycodeReadRequested
    /** I2C_Send / I2C_PendantWrite of the status packet */
    | StatusPacketSent
    /** memcpy_to_nvs of the jog settings */
    | JogSettingsSaved

  /** A trace segment that forwards no G-code line. */
  predicate NoGcode(actions: seq<Action>) {
    forall i | 0 <= i < |actions| :: !actions[i].EnqueueGcode?
  }
}
