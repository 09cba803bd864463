# Twigo balance bot: a Dafny model of the control core

Twigo is a two-wheeled self-balancing robot on an STM32. An MPU6050 interrupt
delivers a pitch sample. A plausibility filter accepts or rejects it. On each
accepted sample the main loop runs one PID step on the pitch. It snaps small
commands up to the motors' starting PWM and drives both wheels through a
TB6612 dual H-bridge with one signed command. An HC-05 Bluetooth module gives
a debug console: a line buffer filled byte by byte from the UART interrupt,
and a small command language (`get`, `P <v>`, `I <v>`, `D <v>`, `T <v>`) that
reports the state or tunes one PID field. The HC-05 driver configures the
module with AT commands.

The model covers four source files, one Dafny module each:

- `Balance` (`balance_control.dfy`) models the balance controller.
  - The PID record is a datatype with a specification function `PidStep`. The global `balance_pid` is a class `Pid` whose methods update it field by field, as `PID_Calculate` does. `Pid.Calculate` is proved equal to `PidStep`. Each phase method is proved equal to its phase function, and each part of `PID_Init` to its field update.
  - `BalanceLoop` holds the controller globals: the interrupt's sample filter and the control step driving the motors.
- `Tb6612` (`tb6612.dfy`) models the motor driver.
  - The class `Driver` holds the two stored speeds.
  - Ghost state holds the direction pins, the PWM start flag and the history of every value written to each compare register.
  - The ramp loops are `while` loops proved against ramp functions `AccelRamp` and `DecelRamp`.
- `Bluetooth` (`bluetooth_debug.dfy`) models the debug console.
  - It covers the 128-byte receive buffer as an `array<char>` with its state machine, trailing CR/LF stripping, command classification, and the dispatch that tunes one PID field.
  - Replies are kept as a ghost log of `Reply` values.
- `Hc05` (`hc05.dfy`) models the HC-05 driver.
  - It covers the baud table and its lookups in both directions, role coercion, the AT exchange with its "OK"/"ok" acceptance rule, and `GetConfig`'s four queries with their early exit.
- `CStrings` (`cstrings.dfy`) holds NUL-terminated strings and `strstr`. `Wrappers` (`wrappers.dfy`) holds `Option`.

Modelling conventions:
- Floats are exact reals.
- Bytes are characters with the same code. A C string is the prefix before the first NUL.
- `uint16_t` is a subtype of `int`, with its wrap-around written out where the source can wrap.
- The UART is an oracle. Each exchange is a value saying whether the transmit succeeded and which bytes, if any, were received.
- `sscanf` is an oracle function from the text to an optional value.
- `HAL_Delay` and the GPIO toggles are no-ops.
- The sensor read is an input pair (status, pitch).

One would expect a first sample exactly on target to give an output of about 0, and a following 9° sample to drive both motors forward. The code does neither.
- `last_current` starts at 0, so the first sample's derivative sees a 10° jump within one period. The output saturates at -80.
- The anti-windup freeze then keys on that saturated output, so the second sample gives -46.
The model follows the code; `Balance.StartupSamples` proves both values.

## Model

| member | source | states |
|---|---|---|
| `Balance.Clamp` | App/Balance/balance_control.c:131-132 | upper limit first, then lower: the result is in [lo, hi] when lo <= hi, is x inside the range, hi above it, lo below it (lo wins when the limits cross) |
| `Balance.DeadbandError` | App/Balance/balance_control.c:97-100 | the stored error is exactly 0 when abs(target - current) < deadband, and target - current otherwise |
| `Balance.NextIntegral` | App/Balance/balance_control.c:103-116 | the integral is cleared when abs(error) >= 5; it is frozen while the previous output sits at a limit; otherwise it lies within [min_out/ki, max_out/ki] whenever those bounds are ordered |
| `Balance.FilteredDiff` | App/Balance/balance_control.c:120-123 | with no motion since the last sample, the filtered derivative just decays by the factor alpha |
| `Balance.FilterBetween` | App/Balance/balance_control.c:120-123 | for alpha in [0, 1], the new filtered derivative lies between the previous filtered value and the raw derivative of the negated measurement |
| `Balance.PidStep` | App/Balance/balance_control.c:95-139 | one PID_Calculate on the record. Covered: the deadband error; the integral reset at abs(error) >= 5; the freeze when the previous output is at a limit; otherwise the integral clamped to [min_out/ki, max_out/ki]; the low-pass derivative of the negated measurement; the output clamp to [min_out, max_out] when min_out <= max_out; last_err = error and last_current = current; every other field unchanged |
| `Balance.PidStepByPhases` | App/Balance/balance_control.c:96-136 | the step equals its five numbered parts applied in order (error, integral, derivative, output, history) |
| `Balance.StepKeepsIntegralBounded` | App/Balance/balance_control.c:105-113 | with ki > 0 and min_out <= 0 <= max_out, one step keeps the integral in [min_out/ki, max_out/ki] and keeps that configuration |
| `Balance.RunStaysBounded` | App/Balance/balance_control.c:102-132 | over any sequence of samples, the integral stays in its bounds, the output stays in [min_out, max_out], and the gains, target, limits and period do not change |
| `Balance.SaturatedStepFreezes` | App/Balance/balance_control.c:105-113 | when the previous output sits at a limit and the error is below the separation threshold, the integral does not move |
| `Balance.RestIsFixedPoint` | App/Balance/balance_control.c:95-139 | a record at rest (on target within the deadband, no motion, no filtered derivative) reaches, in one step, a record that the same sample leaves unchanged, with output clamp(ki * integral) |
| `Balance.InitialRecord` | App/Balance/balance_control.c:47-65 | the PID_Init record has ki > 0, a nonzero period, limits around 0 and a bounded integral, and leaves `output` as it was |
| `Balance.StartupSamples` | App/Balance/balance_control.c:95-139 | from the PID_Init record, a first sample of 10° gives output -80 and a second of 9° gives -46 |
| `Balance.MotorStartThreshold` | App/Balance/balance_control.c:38-44 | 0 stays 0; 0 < abs(p) < 30 becomes ±30 with p's sign; abs(p) >= 30 is unchanged; the sign is kept both ways; the result is 0 or has magnitude at least 30 |
| `Balance.ThresholdIdempotent` | App/Balance/balance_control.c:38-44 | snapping twice equals snapping once |
| `Balance.Trunc` | App/Balance/balance_control.c:151 | the float-to-integer cast truncates toward zero |
| `Balance.MotorCommand` | App/Balance/balance_control.c:150-151 | the integer command is 0 exactly when the PID output is 0, has the output's sign both ways, has magnitude at least 30 when nonzero, and fits int16 when the output does |
| `Balance.Accepts` | App/Balance/balance_control.c:26-28 | a sample is accepted exactly when the read returns 0 and the pitch lies strictly within 5° of the last accepted pitch |
| `Balance.Pid.constructor` | App/Balance/balance_control.c:6 | the global record starts zero-filled |
| `Balance.Pid.Init` | App/Balance/balance_control.c:47-65 | the record afterwards is InitialRecord with the old output |
| `Balance.Pid.InitGains` | App/Balance/balance_control.c:49-52 | sets kp, ki, kd and the target; the other fields are unchanged |
| `Balance.Pid.InitLimits` | App/Balance/balance_control.c:56-61 | sets the output limits, the period, alpha and the deadband; the other fields are unchanged |
| `Balance.Pid.InitHistory` | App/Balance/balance_control.c:53-63 | clears error, last_err, integral, last_current and diff_filtered; the other fields are unchanged |
| `Balance.Pid.Calculate` | App/Balance/balance_control.c:95-139 | the in-place update leaves exactly PidStep of the old record and returns the new output |
| `Balance.Pid.ApplyDeadband` | App/Balance/balance_control.c:97-100 | step 1 in place: the record becomes ErrorPhase of the old one |
| `Balance.Pid.UpdateIntegral` | App/Balance/balance_control.c:103-116 | step 2 in place: the record becomes IntegralPhase of the old one |
| `Balance.Pid.UpdateDerivative` | App/Balance/balance_control.c:120-123 | step 3 in place: the record becomes DerivativePhase of the old one |
| `Balance.Pid.UpdateOutput` | App/Balance/balance_control.c:126-132 | steps 4 and 5 in place: the record becomes OutputPhase of the old one |
| `Balance.BalanceLoop.constructor` | App/Balance/balance_control.c:6-8 | the pitch, the ready flag and the filter's last valid pitch start at zero |
| `Balance.BalanceLoop.BalanceInit` | App/Balance/balance_control.c:76-92 | both motors are stopped at speed 0 and the PID record is the PID_Init record |
| `Balance.BalanceLoop.SampleInterrupt` | App/Balance/balance_control.c:20-35 | another pin changes nothing. The sensor pin always overwrites current_pitch. last_valid_pitch and data_ready are updated only when the read status is 0 and the pitch is within 5° of the last valid one; otherwise both are kept |
| `Balance.BalanceLoop.FilteredSampleInterrupt` | App/Balance/balance_control.c:26-31 | the corrected filter (see Findings): acceptance as in the source, but a rejected sample leaves current_pitch at the last accepted pitch, so after any sensor interrupt current_pitch equals last_valid_pitch |
| `Balance.BalanceLoop.Control` | App/Balance/balance_control.c:142-172 | with no fresh sample nothing changes. Otherwise the flag is cleared and the record becomes PidStep of the old one. Both motors get the same direction and the speed min(abs(command), PWM_MAX). A zero command hard-stops both. The speed is 0 exactly when the snapped output is 0 |
| `Balance.RejectedSampleIsControlled` | App/Balance/balance_control.c:26-31 | as written: after an accepted 1.0 and a rejected 50.0, the control step runs PID_Calculate on 50.0 |
| `Balance.RejectedSampleIsHeld` | App/Balance/balance_control.c:143-147 | with the corrected filter, the same two samples make the control step run on the accepted 1.0 |
| `Tb6612.AccelRamp` | App/Motor/tb6612.c:108-115 | a start at or above the target writes nothing; otherwise the last speed written is the target |
| `Tb6612.AccelRampShape` | App/Motor/tb6612.c:108-112 | the speeds written strictly increase and lie in (start, target] |
| `Tb6612.DecelRamp` | App/Motor/tb6612.c:136-143 | a start at or below the target writes nothing; otherwise the last speed written is the target |
| `Tb6612.DecelRampShape` | App/Motor/tb6612.c:136-140 | the speeds written strictly decrease and lie in [target, start) |
| `Tb6612.NoWrapFrom` | App/Motor/tb6612.c:137 | the no-wrap condition of a deceleration: it holds for any target of at least step-1, and when it holds and the speed is above the target, the step does not exceed the speed |
| `Tb6612.DecelStepAsWritten` | App/Motor/tb6612.c:137-140 | the source's uint16 decrement and clamp; when step <= speed it is the saturating step |
| `Tb6612.DecelIterate` | App/Motor/tb6612.c:136-143 | any number of as-written loop iterations: a speed at or below the target stays put; from above the target the speed never passes below the target, even through wrap-around; without wrap-around it never rises |
| `Tb6612.DecelStepsAgreeWithoutWrap` | App/Motor/tb6612.c:137-140 | under the no-wrap condition the source's step is the first speed of DecelRamp, and the condition carries over to the next speed |
| `Tb6612.DecelTarget` | App/Motor/tb6612.c:131-133 | a target above PWM_MAX becomes 0; any other is kept |
| `Tb6612.NoWrapToZero` | App/Motor/tb6612.c:136-137 | decelerating to 0, no subtraction wraps exactly when the step divides the speed |
| `Tb6612.Store` | App/Motor/tb6612.c:74-88 | SetSpeed on the channels: the selected motor stores and writes min(speed, PWM_MAX), the other motor is unchanged, and a selector other than A or B changes nothing |
| `Tb6612.StoreAllEffect` | App/Motor/tb6612.c:74-88 | writing in-range speeds one by one appends them to the selected register's history, leaves the last one stored and leaves the other motor alone |
| `Tb6612.AccelEffect` | App/Motor/tb6612.c:100-115 | the whole acceleration ramp: the selected motor's history is extended by AccelRamp and it ends at max(start, target); the other motor is unchanged |
| `Tb6612.DecelEffect` | App/Motor/tb6612.c:128-143 | the whole deceleration ramp: the selected motor's history is extended by DecelRamp and it ends at min(start, target); the other motor is unchanged |
| `Tb6612.Driver.constructor` | App/Motor/tb6612.c:7-8 | both stored speeds start at 0 |
| `Tb6612.Driver.CurrentSpeed` | App/Motor/tb6612.c:188-194 | motor A's speed for MOTOR_A, motor B's for any other selector, never above PWM_MAX |
| `Tb6612.Driver.SetDirection` | App/Motor/tb6612.c:34-66 | FORWARD (1,0), BACKWARD (0,1), STOP (0,0) on the selected motor's pins only; speeds and registers unchanged |
| `Tb6612.Driver.SetSpeed` | App/Motor/tb6612.c:74-88 | the channels become Store of the old ones; pins unchanged |
| `Tb6612.Driver.Init` | App/Motor/tb6612.c:14-26 | both motors at STOP and speed 0, PWM started, one 0 written to each register |
| `Tb6612.Driver.SmoothAccelerate` | App/Motor/tb6612.c:98-116 | the registers receive exactly AccelRamp(start, min(target, PWM_MAX)); the motor ends at the larger of its start and that target; the other motor and all pins unchanged |
| `Tb6612.Driver.SmoothDecelerate` | App/Motor/tb6612.c:126-144 | the registers receive exactly DecelRamp(start, DecelTarget(target)); the motor ends at the smaller of its start and that target; the other motor and all pins unchanged |
| `Tb6612.Driver.SoftStop` | App/Motor/tb6612.c:153-156 | the motor decelerates through DecelRamp to 0 and ends at STOP; the other motor untouched |
| `Tb6612.Driver.HardStop` | App/Motor/tb6612.c:163-166 | the motor is at speed 0 and STOP; the other motor's pins untouched |
| `Tb6612.Driver.Brake` | App/Motor/tb6612.c:173-181 | the selected motor's pins are (1,1); speeds, registers and the other motor unchanged |
| `Tb6612.SoftStopWrapJumpsToMax` | App/Motor/tb6612.c:136-141 | from speed 50 with step 30 the second decrement wraps to 65526, which SetSpeed writes as PWM_MAX |
| `Tb6612.OddStaysOdd` | App/Motor/tb6612.c:136-140 | decrementing by 2 as the source does keeps an odd speed odd, through wrap-around |
| `Tb6612.SoftStopNeverEnds` | App/Motor/tb6612.c:136-143 | a soft stop from 51 with step 2 is still above 0 after any number of iterations |
| `Bluetooth.GetCmdType` | App/Comm/bluetooth_debug.c:29-42 | GET_INFO exactly for "get"; SET_P/I/D/TARGET exactly for the prefixes "P ", "I ", "D ", "T "; a setter has at least two bytes |
| `Bluetooth.NearMissesAreUnknown` | App/Comm/bluetooth_debug.c:29-42 | "getx", "get ", "P", "p 1" and "" are UNKNOWN; "P 1.5" is SET_P and "T -2" is SET_TARGET |
| `Bluetooth.TrimmedLength` | App/Comm/bluetooth_debug.c:103-111 | at most the input length, and the last kept byte is not CR or LF |
| `Bluetooth.TrimRemovesOnlyTrailingNewlines` | App/Comm/bluetooth_debug.c:103-111 | every removed byte is CR or LF, so only the trailing run goes |
| `Bluetooth.TrimWithoutNewlines` | App/Comm/bluetooth_debug.c:103-111 | a buffer holding no CR or LF keeps its whole length |
| `Bluetooth.SetParam` | App/Comm/bluetooth_debug.c:56-81 | a parsed value goes to exactly the field the command names; a parse failure or a non-setter changes nothing; only kp, ki, kd or target can change |
| `Bluetooth.ArgumentText` | App/Comm/bluetooth_debug.c:135 | the argument handed to handle_param_set is the text after the two-byte prefix: prefix and argument make up the command |
| `Bluetooth.ParamReplies` | App/Comm/bluetooth_debug.c:56-82 | a parse failure replies with the format error; a parsed setter acknowledges its value |
| `Bluetooth.Tune` | App/Comm/bluetooth_debug.c:126-145 | only a setter command changes the PID record, through SetParam on the text after its prefix |
| `Bluetooth.Replies` | App/Comm/bluetooth_debug.c:120-145 | the command is echoed first, then the status for "get", the usage text for an unknown command, or the setter's reply |
| `Bluetooth.BluetoothDebug.constructor` | App/Comm/bluetooth_debug.c:14-15 | an all-zero buffer with length 0 |
| `Bluetooth.BluetoothDebug.EffectiveLength` | App/Comm/bluetooth_debug.c:103-111 | the loop's result is TrimmedLength of the first `len` bytes |
| `Bluetooth.BluetoothDebug.Status` | App/Comm/bluetooth_debug.c:86-98 | the get report carries kp, ki, kd, the target, current_pitch and both stored motor speeds, which are at most PWM_MAX |
| `Bluetooth.BluetoothDebug.HandleParamSet` | App/Comm/bluetooth_debug.c:51-83 | the record becomes SetParam with the scanned value; the replies are ParamReplies |
| `Bluetooth.BluetoothDebug.ParseCommand` | App/Comm/bluetooth_debug.c:101-146 | the only buffer change is a NUL at the trimmed length, or at 127 when the trimmed length is 128; the replies and the record follow the terminated text |
| `Bluetooth.BluetoothDebug.Dispatch` | App/Comm/bluetooth_debug.c:120-145 | appends Replies(text) with the status before the call; the record becomes Tune(text) |
| `Bluetooth.BluetoothDebug.Flush` | App/Comm/bluetooth_debug.c:159-162 | the pending line is parsed whole, then the length is 0 and all 128 bytes are NUL |
| `Bluetooth.BluetoothDebug.RxCallback` | App/Comm/bluetooth_debug.c:149-178 | another UART, or a line end with nothing pending, changes nothing. An ordinary byte with fewer than 127 stored is appended. A line end with data is parsed and the buffer cleared. A byte at a full buffer is also parsed and cleared, and that byte is dropped. The buffer invariant (length <= 127, zero tail, no line ends) is kept |
| `CStrings.HasSubstring` | App/Comm/hc05.c:96 | strstr finds the pattern exactly when it occurs at some index |
| `Hc05.BaudTableShape` | App/Comm/hc05.c:10-21 | ten entries, strictly increasing (hence distinct) rates, and entry i carries the digit i |
| `Hc05.BaudIndexFrom` | App/Comm/hc05.c:183-184 | the lookup finds the first index at or after `from` with the rate, or reports that none has it |
| `Hc05.BaudIndex` | App/Comm/hc05.c:183-185 | the index SetBaudRate settles on carries the rate asked for; no index is found exactly when no table entry has that rate |
| `Hc05.BaudRoundTrip` | App/Comm/hc05.c:129-130 | a found index reads back as the rate looked up, and every listed rate's lookup returns its own index |
| `Hc05.BaudIndexFindsListed` | App/Comm/hc05.c:183-190 | the lookup succeeds exactly for the listed rates |
| `Hc05.CoerceRole` | App/Comm/hc05.c:202 | any role above 1 becomes 0; 0 and 1 are kept |
| `Hc05.RoleCommandIsOneOfTwo` | App/Comm/hc05.c:202-204 | the role command is always "AT+ROLE0\r\n" or "AT+ROLE1\r\n" |
| `Hc05.RoleCommand` | App/Comm/hc05.c:204 | `AT+ROLE%d` formats role 0 as "AT+ROLE0\r\n" and role 1 as "AT+ROLE1\r\n" |
| `Hc05.BaudCommand` | App/Comm/hc05.c:185 | the command for table entry i is "AT+BAUD" followed by the digit of i and CR LF |
| `Hc05.Accepted` | App/Comm/hc05.c:96 | a reply is accepted exactly when "OK" or "ok" occurs in it at some index |
| `Hc05.AcceptanceExamples` | App/Comm/hc05.c:96-100 | "Ok" and "oK" are rejected; "OK" and "ok" are accepted anywhere in the reply |
| `Hc05.ResponseBuffer` | App/Comm/hc05.c:83-93 | the buffer has length resp_len. After a receive its first min(received, resp_len-1) bytes are the received ones and every byte after them is NUL, the last one included. Without a receive it is all NUL |
| `Hc05.ResponseText` | App/Comm/hc05.c:91-96 | the reply text is the C string of the received bytes, or empty when nothing was received |
| `Hc05.AtStatus` | App/Comm/hc05.c:77-101 | ERROR for a zero length or no command; OK exactly when sent, received and accepted; TIMEOUT exactly when sent and nothing received; never NOT_CONNECTED. The receive is whatever reply arrived, the corrected reading (see Findings) |
| `Hc05.HalReceive` | App/Comm/hc05.c:91 | as written: the receive completes exactly when at least resp_len-1 bytes arrive, and then yields the first resp_len-1 of them |
| `Hc05.ShortReplyTimesOut` | App/Comm/hc05.c:91-93 | as written, a four-byte "OK\r\n" to AT+ROLE0 with a 32-byte buffer gives TIMEOUT; with the reply as received it gives OK |
| `Hc05.BaudAfterQuery` | App/Comm/hc05.c:126-134 | the corrected rule (see Findings), which the model uses: the baud rate changes only to the table entry of a scanned index inside [0, 10); a reply without a number, or an index outside the table, leaves it unchanged |
| `Hc05.BaudAfterQueryAsWritten` | App/Comm/hc05.c:127-131 | as written: a scanned index behaves as in the corrected rule, and a reply without a number behaves as if the stale stack value had been scanned |
| `Hc05.UnscannedIndexChangesBaud` | App/Comm/hc05.c:127-131 | as written, a reply without a number, with a stale index of 2, turns 38400 into 9600; the corrected rule keeps 38400 |
| `Hc05.ApplyQuery` | App/Comm/hc05.c:111-141 | each query writes only its own field |
| `Hc05.Succeeding` | App/Comm/hc05.c:112-143 | counts the queries that succeed before the first failure: all before it are OK and the one at it is not |
| `Hc05.QueriedKeepsLaterFields` | App/Comm/hc05.c:112-141 | after an exit at query n, the fields of query n and after are untouched |
| `Hc05.BadIndexKeepsBaud` | App/Comm/hc05.c:129-131 | a scanned index outside [0, 10) leaves the configuration unchanged |
| `Hc05.FailedQueryOutcome` | App/Comm/hc05.c:112-141 | stopping at a failed query gives ERROR with exactly the earlier queries applied |
| `Hc05.AllQueriesOutcome` | App/Comm/hc05.c:108-144 | four answered queries give OK with all four applied |
| `Hc05.Hc05Link.constructor` | App/Comm/hc05.c:4 | nothing has been transmitted |
| `Hc05.Hc05Link.Init` | App/Comm/hc05.c:35-38 | stores the UART handle |
| `Hc05.Hc05Link.SendATCommand` | App/Comm/hc05.c:77-101 | returns AtStatus. With a zero length or no command it transmits nothing and leaves the buffer alone. Otherwise it clears resp_len bytes, transmits the command and fills in the received bytes |
| `Hc05.Hc05Link.SetBaudRate` | App/Comm/hc05.c:177-191 | an unlisted rate returns ERROR without transmitting; a listed rate sends "AT+BAUD<d>\r\n" with its index's digit and returns that exchange's status |
| `Hc05.Hc05Link.SetRole` | App/Comm/hc05.c:198-206 | sends the command of the coerced role and returns the exchange's status |
| `Hc05.Hc05Link.GetConfig` | App/Comm/hc05.c:108-144 | the queries run in order up to the first that fails. Exactly the answered ones are applied. The status is OK exactly when all four answer, ERROR otherwise. The commands sent are the answered queries plus the failing one |
| `Hc05.Hc05Link.QueryStep` | App/Comm/hc05.c:112-141 | one query: either OK with the configuration advanced by that query, or the ERROR outcome of GetConfig |
| `Hc05.Hc05Link.Query` | App/Comm/hc05.c:112-116 | sends one query; only on OK is its reply scanned into the configuration |
| `Hc05.Hc05Link.ScanInto` | App/Comm/hc05.c:111-141 | the scan of query q writes the field of that query only |

## Left out

- HAL peripheral I/O is not modelled. This covers the GPIO writes and the LED toggle, the TIM PWM start and compare writes, the UART transmit and receive, NVIC, the EXTI flag clear and `HAL_Delay`. Pins and compare registers are ghost state. The UART is an oracle value. Delays are no-ops.
- The MPU6050 DMP driver is foreign code. Its read is the input pair (status, pitch). `Balance_Init`'s unbounded retry of the sensor initialisation and `MPU6050_Interrupt_Init` are left out.
- IEEE-754 behaviour is not modelled: rounding, NaN, infinities and `fabs` of NaN. Floats are exact reals, and decimal constants such as 0.03 are taken at their exact decimal value.
- Balance.PidStep: requires ki != 0 and Ts != 0. These are the divisions the source performs; the model does not give them a value.
- Balance.BalanceLoop.Control: requires both output limits to lie within int16. Then the cast of the clamped output is defined.
- Balance.BalanceLoop.Control: requires ki != 0 and Ts != 0. The console command `I 0` can set ki to 0. The source then divides in floating point: `max_out / ki` is +inf and `min_out / ki` is -inf, so the integral clamp does nothing. `ki * integral` is 0, so the step is a plain PD step. The model does not cover that case.
- Interleaving of the interrupts with the main loop is not modelled. The sample callback, the UART callback and `Balance_Control` are separate sequential steps.
- `App/Balance/encoder.c` and `App/Comm/oled_debug.c` are not part of this model.
- The unused globals `speed_pid`, `turn_pid`, `target_speed`, `target_yaw` and the encoder speeds are not part of this model.
- The `snprintf` reply texts are not modelled. Replies are `Reply` values. The 64-byte truncation of the echo and of the acknowledgements is not modelled.
- `sscanf` is an oracle. So is the capacity of `config->name[32]` and `config->pin[8]`, which an unbounded `%s` can overflow.
- `HC05_SendData` (App/Comm/hc05.c:47-52) is not modelled. It only transmits and maps the HAL result to OK or ERROR.
- `HC05_SendString` (App/Comm/bluetooth_debug.c:45-48) is not modelled. It passes a non-NULL string to `HC05_SendData`. The console's replies are logged as `Reply` values instead.
- `HC05_ReceiveData` (App/Comm/hc05.c:61-66) is not modelled. It only receives and maps a failure to TIMEOUT.
- `HC05_SetName`, `HC05_SetPin` and `HC05_Reset` (App/Comm/hc05.c:151-157, 164-170, 212-215) are not modelled. Each formats one command and goes through `HC05_SendATCommand`, which `Hc05.Hc05Link.SendATCommand` models.
- `Bluetooth_Debug_Init` is not modelled. It calls `HC05_Init`, which `Hc05.Hc05Link.Init` models, then arms the receive interrupt and sends the greeting text.
- The re-arming of the UART receive interrupt at the end of `HC05_RxCallback` is not modelled.
- Hc05.Hc05Link.SendATCommand: a completed receive is any reply, truncated to resp_len-1 bytes. The source's HAL receive waits for exactly resp_len-1 bytes and otherwise times out. `Hc05.HalReceive` models that, and Findings shows what it does to short replies.
- Tb6612.Driver.SmoothAccelerate: requires 0 < step. With step 0 the source loops forever whenever the speed is below the target.
- Tb6612.Driver.SmoothAccelerate: requires PWM_MAX + step to fit in uint16. Then `current_speed += step` cannot wrap.
- Tb6612.Driver.SmoothDecelerate: requires 0 < step and that no `current_speed -= step` wraps below 0. With a wrap the source writes full PWM or never ends; Findings shows both.
- Tb6612.Driver.SoftStop: requires the step to divide the current speed. Tb6612.NoWrapToZero proves this is the no-wrap condition towards 0.
- Balance.BalanceLoop.SampleInterrupt: assumes the driver writes the pitch even when the read fails. The source passes `&current_pitch` to the driver, and the driver is not part of this model.
- Hc05.Hc05Link.GetConfig: an "OK" baud reply without a number follows the corrected rule `Hc05.BaudAfterQuery` and keeps the rate. The source reads the uninitialised `baud_idx` there; Findings shows the as-written rule.
- Hc05.ApplyQuery: the baud query follows the corrected rule `Hc05.BaudAfterQuery`, for the same reason as GetConfig.
- Hc05.Hc05Link.ScanInto: the baud scan writes only when `%d` matched, for the same reason as GetConfig.

## Findings

| source | as written | input that shows it | evidently intended | confidence | as-written member | corrected member |
|---|---|---|---|---|---|---|
| App/Motor/tb6612.c:137-138 | `current_speed -= step` on a uint16 wraps below 0 to a large value that the clamp to the target does not catch | soft stop from speed 50 with step 30: 50, 20, then 65526, which SetSpeed writes as PWM_MAX | a saturating decrement that stops at the target | not executed | `Tb6612.SoftStopWrapJumpsToMax` | `Tb6612.DecelRamp` |
| App/Motor/tb6612.c:136-143 | once the decrement wraps, the loop may never reach the target | soft stop from speed 51 with step 2: the speed stays odd forever, so it never reaches 0 | the ramp ends at the target for every positive step | not executed | `Tb6612.SoftStopNeverEnds` | `Tb6612.DecelRamp` |
| App/Comm/hc05.c:127-131 | `baud_idx` is read even when `%d` matched nothing, so an uninitialised stack value can select a baud rate | an "OK" reply without a number, with a stale value of 2, turns a stored 38400 into 9600 | a reply without a number leaves `baud_rate` unchanged | not executed | `Hc05.UnscannedIndexChangesBaud` | `Hc05.BaudAfterQuery` |
| App/Balance/balance_control.c:26-31 | a read rejected as a jump has already replaced `current_pitch`, and `data_ready` still stands from an earlier accepted sample | two sensor interrupts before the control loop runs: 1.0 is accepted, then 50.0 is rejected; the next PID_Calculate runs on 50.0 | a rejected read falls back on the last valid pitch, as the comment at line 27 says | not executed | `Balance.RejectedSampleIsControlled` | `Balance.BalanceLoop.FilteredSampleInterrupt` |
| App/Comm/hc05.c:91-93 | `HAL_UART_Receive` is asked for exactly resp_len-1 bytes, so a reply shorter than that times out | SetRole(0) with the module answering "OK\r\n": 4 bytes against the 31 a 32-byte buffer waits for, so TIMEOUT instead of OK | the reply the module sends, however short, is checked for OK | not executed | `Hc05.ShortReplyTimesOut` | `Hc05.AtStatus` |
