# Servo calibration sequencers

This project models the two calibration programs of a small robot with
seven hobby servos, which are driven by a 16-channel PCA9685 PWM board.
Each program walks the servos one at a time, first through a LOW phase and
then through a HIGH phase. In each phase the operator moves the servo with
movement commands: `a`/`d` step by 10, `z`/`c` step by 1, and every step
saturates at a bound. The operator then confirms the position with `n`,
and it is stored in a per-servo `[low, high]` table. Confirmed position
number k goes to slot k = 2 * servo + phase of the table.

- `calibrate_servos.py` has a `ServoCalibrator` object that reads single
  keys.
  - Positions are pulse widths in [150, 600], starting at 400.
  - A position is written to the driver as `position << 4`.
  - `q` aborts the run.
  - A confirm keeps the current position for the next phase and the next
    servo.
  - At the end the program prints a `SERVO_LIMITS` table keyed by
    snake-cased servo names, and `cleanup()` zeroes all 16 channels.
- `code2o.py` keeps the driver and the `preset` table at module level.
  `calibration()` reads whole lines and strips them.
  - Positions are 12-bit values in [0, 4095].
  - A position is written as `int((position / 4096) * 65535)`.
  - There is no quit command.
  - Every confirm reseeds the position from the table entry of the next
    slot.
  - After calibration, channels 0 to 6 are zeroed and the driver is
    released.
  - `soft_start` ramps a channel up in steps of 10.

Modules:

- `Pwm` (pwm.dfy) is the driver.
  - A `Driver` class holds an array of 16 duty registers, the PWM
    frequency and a `released` flag set by `deinit()`.
  - It also keeps a ghost log of every duty write, so that properties can
    speak about the order of writes.
- `Saturation` (saturation.dfy) has the one-sided steps `max(lo, p - step)`
  and `min(hi, p + step)`.
- `Tables` (tables.dfy) has the `[low, high]` table.
  - A pair is a `Limits` value.
  - `Store` is the in-place assignment `preset[s][ph] = v`.
  - `Cell` reads a slot in calibration order.
- `Text` (text.dfy) has decimal rendering (`str(int)`) and Python's
  `str.strip()`.
- `CalibrateServos` (calibrate_servos.dfy) has two parts:
  - a specification, made of a `State` value, the effect of one key (`Key`)
    and a whole session (`Run`, `Confirmed`), with lemmas about sessions;
  - the class `ServoCalibrator`, whose methods are proved to follow that
    specification.
- `Code2o` (code2o.dfy) has the same two parts for `calibration()`:
  - the specification is `State`, `Command`, `Run` and `Confirmed`;
  - the class `Rig` holds the module-level driver and the module-level
    `preset`, and the locals of `calibration()` are method locals.

The keyboard of each program becomes a parameter. It is a sequence of
characters for `calibrate_servos.py` and a sequence of lines for
`code2o.py`. The input can run out while servos remain. The programs would
then block and wait. The model reports this as the status `AwaitingInput`,
together with the state reached.

Three behaviours of the code a reader might not expect:

- In `calibrate_servos.py` a confirm does not reseed the position. The next
  phase starts where the last one was confirmed.
- In `code2o.py` the largest position, 4095, is written as duty 65519 and
  not as the register maximum 65535. Only position 4096 would give 65535,
  and the commands never reach it.
- `code2o.py` defines `soft_start` but never calls it.

## Model

| member | source | states |
|---|---|---|
| CalibrateServos.PulseToDuty | calibrate_servos.py:68 | `position << 4` is 16 times the position. For positions in [150, 600] it is a valid duty, between 2400 and 9600. |
| CalibrateServos.PulseToDutyStrictlyMonotone | calibrate_servos.py:68 | Distinct positions are written as distinct duties, at least 16 apart and in the same order. |
| CalibrateServos.Initial | calibrate_servos.py:59-63 | The state after `__init__` satisfies the calibrator invariant and starts at slot 0, the LOW phase of servo 0. |
| CalibrateServos.ServoCalibrator.constructor | calibrate_servos.py:53-63 | The driver is at 50 Hz with zeroed registers and no writes. Every pair is `[300, 500]`, the servo is 0, the phase is LOW and the position is 400. |
| CalibrateServos.Pulse | calibrate_servos.py:65-69 | `set_servo_pulse` keeps the invariant, the slot and the table. |
| CalibrateServos.ServoCalibrator.SetServoPulse | calibrate_servos.py:65-69 | The duty `p << 4` is written to the current servo's channel, and only to it. Then the position becomes `p`. |
| CalibrateServos.Enter | calibrate_servos.py:95-104 | At the top of the outer loop, a remaining servo's channel is set to the current position, and that one write is logged. Nothing else changes, and once every servo is done nothing changes at all. |
| CalibrateServos.Confirm | calibrate_servos.py:114-123 | `n` stores the position in the cell of the current slot and advances by exactly one slot. LOW moves to HIGH on the same servo, and HIGH moves to LOW on the next servo. The position and the driver are unchanged. |
| CalibrateServos.Key | calibrate_servos.py:106-132 | One key keeps the position in [150, 600], and the servo index never decreases. `n` stores the position in the current slot, advances one slot and keeps the position. A movement key sets the position to its saturated target and leaves the table. Any other key changes nothing. |
| CalibrateServos.Target | calibrate_servos.py:125-132 | `a` and `z` never raise the position and `d` and `c` never lower it. `a`/`d` move it by at most 10 and `z`/`c` by at most 1, and a position in [150, 600] stays there. Any other key asks for the current position. |
| CalibrateServos.KeyWrites | calibrate_servos.py:104-132 | A movement key writes the duty of its target to the current servo's channel and to no other. After `n`, the outer loop writes the unchanged position to the next phase's channel, or nothing once the last servo is done. Any other key writes nothing. |
| CalibrateServos.KeyCell | calibrate_servos.py:114-123 | A key changes at most the table cell of the current slot, and only `n` changes it. |
| Saturation.StepsStayInRange | calibrate_servos.py:125-132 | A step from inside the bounds stays inside. It moves by at most the step, it is exact when it does not cross a bound, and it stays put at the bound it would cross. |
| Saturation.Down | code2o.py:73 | `max(lo, p - step)`: exactly `p - step` when that is at least `lo`, and otherwise `lo`. |
| Saturation.Up | code2o.py:76 | `min(hi, p + step)`: exactly `p + step` when that is at most `hi`, and otherwise `hi`. |
| CalibrateServos.Run | calibrate_servos.py:95-132 | A session keeps the invariant and never moves to an earlier servo. It completes exactly when every servo is done. |
| CalibrateServos.ConfirmedSlots | calibrate_servos.py:95-123 | The slots a session writes are consecutive from the slot it started at, so no slot is written twice. The session ends at the slot after the last one written. |
| CalibrateServos.RunTable | calibrate_servos.py:95-123 | Each slot written in a session holds the position confirmed for it. Every other slot keeps its old value. |
| CalibrateServos.CompletedWritesEverySlot | calibrate_servos.py:95-123 | A completed session has written each remaining slot exactly once, in order. |
| CalibrateServos.RunEnds | calibrate_servos.py:106-123 | A completed session read no `q` and ended on the `n` that finished the last servo. An aborted session ended on its first `q`. A waiting session read every key and saw no `q`. |
| CalibrateServos.ConfirmsComplete | calibrate_servos.py:95-123 | Keys that are all `n` complete the session after exactly the 2 * SERVOS - p remaining confirms. |
| CalibrateServos.ConfirmsOnlyRecordStart | calibrate_servos.py:114-123 | Because the position is not reseeded, a session of `n` keys alone records the starting position in every slot it writes. |
| CalibrateServos.QuitStops | calibrate_servos.py:109-112 | `q` ends the session on that key, in the state it was in. |
| CalibrateServos.ServoCalibrator.HandleKey | calibrate_servos.py:109-132 | One pass of the inner loop body for a key other than `q` acts as `Key` does. |
| CalibrateServos.ServoCalibrator.ReadPhase | calibrate_servos.py:106-132 | The inner loop stops after exactly one `n` and has then advanced one slot. It also stops on `q` or when the keys run out, and in each case the session ends as `Run` says. |
| CalibrateServos.ServoCalibrator.Session | calibrate_servos.py:95-132 | The outer loop's status, key count and final fields and registers are those of `Run`. |
| CalibrateServos.ServoCalibrator.Calibrate | calibrate_servos.py:85-135 | `calibrate()` ends in the state `Run` gives. On completion the table is printed. On completion or abort all 16 channels are zeroed and the driver is released. A waiting run touches neither. |
| CalibrateServos.SnakeName | calibrate_servos.py:142 | `replace(" ", "_").lower()` keeps the length. Each space becomes `_`, each upper-case ASCII letter becomes its lower-case letter, and every other character stays in place. |
| CalibrateServos.SnakeNameIdempotent | calibrate_servos.py:142 | Applying the name transform twice is applying it once. |
| CalibrateServos.HeadServoKeys | calibrate_servos.py:42-44 | The head and upper-neck entries are printed as `head_rotation` and `neck_top_joint`. |
| CalibrateServos.NeckServoKeys | calibrate_servos.py:45 | The lower-neck entry is printed as `neck_bottom_joint`. |
| CalibrateServos.EyeServoKeys | calibrate_servos.py:46-47 | The eye entries are printed as `eye_right` and `eye_left`. |
| CalibrateServos.ArmServoKeys | calibrate_servos.py:48-49 | The arm entries are printed as `arm_left` and `arm_right`. |
| CalibrateServos.ServoKey | calibrate_servos.py:142 | A servo's printed key is as long as its name and holds no space and no upper-case letter. |
| CalibrateServos.ServoKeysDistinct | calibrate_servos.py:140-144 | Distinct servos get distinct keys, so the printed dictionary keeps all seven entries. |
| CalibrateServos.LimitLine | calibrate_servos.py:143 | An entry line opens with four spaces and the quoted key, and it closes with `),`. |
| CalibrateServos.LimitLineInjective | calibrate_servos.py:143 | Two entry lines for the same key are equal only when they show the same low and the same high value. |
| CalibrateServos.ServoCalibrator.OutputResults | calibrate_servos.py:137-144 | The first table line is `SERVO_LIMITS = {`. It comes first, then one line per servo in index order with its key and its `(low, high)` pair, then `}`. |
| CalibrateServos.ServoCalibrator.Cleanup | calibrate_servos.py:146-150 | All 16 channels are set to zero in channel order, whichever servos were visited. Then the driver is released. |
| Pwm.Driver.SetDuty | calibrate_servos.py:68 | A duty assignment changes that channel's register and no other, and it is logged. |
| Pwm.Driver.Deinit | calibrate_servos.py:150 | `deinit()` marks the driver released. It keeps the frequency and issues no write. |
| Tables.Store | calibrate_servos.py:117-120 | `preset[s][ph] = v` sets that entry to `v`. The other entry of the pair and every other pair keep their values. |
| Text.Decimal | calibrate_servos.py:143 | `str(n)` is a non-empty string of decimal digits with no leading zero. |
| Text.DecimalRoundTrip | calibrate_servos.py:143 | Reading the printed digits back gives the number. |
| Text.DecimalInjective | code2o.py:104 | Distinct values are printed as distinct strings. |
| Text.DecimalPrefix | code2o.py:104 | A number printed in front of text that does not start with a digit can be read back, together with the text after it. |
| Code2o.PresetInRange | code2o.py:11-19 | The start-up table has seven pairs, all within [0, 4095]. |
| Code2o.Rig.constructor | code2o.py:11-47 | Loading the module gives the start-up table and a driver at 60 Hz with zeroed registers. |
| Code2o.ToDuty | code2o.py:50-51 | The scaled duty is the floor of position * 65535 / 4096 and lies in [0, 65535]. |
| Code2o.ToDutyClosedForm | code2o.py:51 | Every position p from 1 to 4096 is written as 16 * p - 1. |
| Code2o.ToDutyStrictlyMonotone | code2o.py:51 | A larger position gives a strictly larger duty. A step of 1 adds 16 duty units, or 15 from position 0. |
| Code2o.ToDutyEnds | code2o.py:51 | 0 maps to 0, and 4095 maps to 65519. Only 4096 maps to 65535. |
| Code2o.Rig.ChangeServoPosition | code2o.py:50-51 | One write of the scaled duty to that channel. No other register changes. |
| Code2o.Ramp | code2o.py:55 | `range(start, stop, 10)` lies in [start, stop). |
| Code2o.RampShape | code2o.py:55 | `range(start, stop, 10)` has ceil((stop - start) / 10) elements, and element k is start + 10 * k. |
| Code2o.Writes | code2o.py:55-56 | Calling `change_servo_position(channel, x)` for each value in turn issues one write per value, in order, each to `channel` with the scaled duty of that value. |
| Code2o.SoftStartValues | code2o.py:54-57 | `soft_start(ch, p)` passes 0, 10, 20, … These are strictly increasing and all below p, with ceil(p / 10) of them, or none when p <= 0. |
| Code2o.Rig.SoftStart | code2o.py:54-57 | The writes are exactly those of the ramp, in order, all to the given channel. The channel ends at the duty of the largest multiple of 10 below the target. |
| Code2o.Begin | code2o.py:61-63 | `calibration()` starts at slot 0, with the position seeded from `preset[0][0]`. |
| Code2o.Move | code2o.py:72-83 | A movement keeps the invariant, the slot and the table. |
| Code2o.Confirm | code2o.py:84-96 | `n` stores the position in the cell of the current slot and advances one slot: phase 0 to 1, or phase 1 to phase 0 of the next servo. After it, the position is the table entry of the new slot, except after the last servo. The driver is unchanged. |
| Code2o.Command | code2o.py:71-97 | A stripped line keeps the position in [0, 4095], and the servo never decreases. A movement sets the position to its saturated target and writes it to the current servo's channel only. `n` stores, advances and reseeds, and writes nothing. Any other text changes nothing. |
| Code2o.Target | code2o.py:72-83 | `a` and `z` never raise the position and `d` and `c` never lower it. `a`/`d` move it by at most 10 and `z`/`c` by at most 1, and a position in [0, 4095] stays there. Any other text asks for the current position. |
| Code2o.CommandCell | code2o.py:84-85 | A line changes at most the table cell of the current slot, and only `n` changes it. |
| Code2o.Commands | code2o.py:71 | Each line read is compared after `strip()`. |
| Text.Strip | code2o.py:71 | `strip()` never lengthens a string. It is empty exactly when the line is all whitespace, and otherwise it neither starts nor ends with whitespace. |
| Text.SpaceClasses | code2o.py:71 | For the whitespace test `strip()` uses, blank, tab, newline and carriage return are whitespace, and digits and ASCII letters are not. |
| Code2o.PaddedCommand | code2o.py:71 | A command surrounded by whitespace is read as the command itself. |
| Text.StripRemovesPadding | code2o.py:71 | `strip()` removes exactly the whitespace around a text that neither starts nor ends with whitespace. |
| Text.StripIdempotent | code2o.py:71 | Stripping twice is stripping once. |
| Code2o.IgnoredLine | code2o.py:70-83 | A line that strips to anything but a command is consumed and changes nothing. |
| Code2o.Run | code2o.py:66-100 | A session keeps the invariant and never moves to an earlier servo. It completes exactly when every servo is done, and if it does not complete it has read every line. |
| Code2o.ConfirmedSlots | code2o.py:66-100 | The slots a session writes are consecutive from its start, so none is written twice. The session ends at the slot after the last one written. |
| Code2o.RunTable | code2o.py:66-100 | Each slot written holds the position confirmed for it. Every other slot keeps its old value. |
| Code2o.CompletedWritesEverySlot | code2o.py:66-100 | A completed session has written each remaining slot exactly once, and the last line it read was `n`. |
| Code2o.ConfirmsComplete | code2o.py:66-100 | Lines that are all `n` complete the session after exactly the 2 * SERVOS - p remaining confirms. |
| Code2o.ConfirmsKeepTable | code2o.py:84-96 | Because of reseeding, a session of `n` lines alone leaves the table exactly as it was. |
| Code2o.ContinuesRun | code2o.py:66-100 | The loop invariant `Continues` holds exactly when the rest of the lines run as `Run` says. |
| Code2o.Rig.Apply | code2o.py:71-97 | One pass of the inner loop body acts as `Command` does, and it reports a confirm exactly for `n`. |
| Code2o.Rig.ReadCommands | code2o.py:70-97 | The inner loop stops after exactly one confirm and has then advanced one slot. Otherwise the lines ran out and the session is waiting. |
| Code2o.Rig.Calibration | code2o.py:60-104 | `calibration()` leaves the table, the registers and the write log that `Run` gives from the seeded start. On completion it prints the heading and one line per servo in index order. |
| Code2o.ValueLine | code2o.py:104 | A result line starts with `Servo ` followed by the printed index. |
| Code2o.ValueLineInjective | code2o.py:104 | Two result lines are equal only for the same index and the same low and high values. |
| Code2o.Rig.CalibratedValues | code2o.py:102-104 | The heading comes first, then `Servo idx: Low = l, High = h` for each servo in index order. |
| Code2o.Rig.Shutdown | code2o.py:109-112 | Channels 0 to 6 are set to zero in order, and channels 7 to 15 keep their duty. Then the driver is released. |

## Left out

- Terminal input is not modelled: raw-mode key capture (`get_char`, termios, tty) and `input()` with its prompt. The keys or lines are passed in as a sequence.
- Bus and board setup is not modelled (`busio.I2C`, the `PCA9685` constructor). The driver is an array of 16 duty registers with a frequency field and a `released` flag.
- `time.sleep` in `soft_start` is left out. Timing has no effect on the state.
- When input runs out, reading would block or raise `EOFError`. The model reports `AwaitingInput` instead.
- `KeyboardInterrupt` handling around `calibrate()` is left out. It is asynchronous.
- Prompts, legends, the `Calibration complete!` message before the table, the `Position:` echo, the `[Confirmed Position: …]` echo and the abort messages are not modelled. Nor are the per-phase descriptions of `SERVO_INFO` and the `messages1`/`messages2` texts. Only the printed result tables are modelled.
- `restpos` in code2o.py is never used.
- CalibrateServos.ServoCalibrator.SetServoPulse: the `except ValueError` path is not modelled. The method requires a position in [150, 600], which is all the loop ever passes. The duties there (2400 to 9600) are valid register values.
- Code2o.Rig.SoftStart: requires a target of at most 4096, so that every ramp value has a duty within the register range.
- CalibrateServos.LowerChar: lower-cases ASCII letters only. The servo names are ASCII.
- CalibrateServos.ServoCalibrator.Calibrate: in the script `cleanup()` runs inside the loop on `q`. Here it runs after `Session` returns `Aborted`. Nothing happens in between, so the final state is the same.
- Code2o.Rig.Calibration: every line is stripped before the loops read it. Stripping depends only on the line, so the commands compared are the same.
- Code2o.Rig.Calibration: the shutdown loop after `calibration()` is the separate method `Shutdown`. It is not chained after `Calibration`.
- The driver is assumed to start with zeroed registers. Both programs only write to it.
- The `released` flag records `deinit()`. It does not forbid later writes.
- code1.py is not part of this model. It is a float-based demo sweep with sleeps.
