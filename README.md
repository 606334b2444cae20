# TinyG temperature controller and controller dispatch, in Dafny

This project models two parts of the TinyG firmware and proves properties of them.

1. **The Kinen temperature-controller board** (`firmware/temperature/tinyg_tc.c`). It covers:
   - the `device`, `heater`, `pid` and `sensor` structs;
   - the timer tick with its 10 ms / 100 ms / 1 s down-counters;
   - the thermocouple sensor state machine, including `_sensor_sample`'s variance-checked retry loop;
   - the PID regulator;
   - the heater state machine with its ambient and regulation time-outs;
   - the timer 2 PWM compare values;
   - the two-entry `_controller` DISPATCH loop.

   Each C struct is a Dafny class with the struct's fields. Each function that changes a struct is a method that ensures the new state (`View()`) equals a pure specification function of the old state. The properties are proved as lemmas about those specification functions.

2. **The top level of the motion controller** (`firmware/tinyg/controller.cpp`). It covers:
   - the magic-number integrity assertions;
   - `controller_init` and the `tg_*_source` setters;
   - the gate tasks and idlers;
   - the first-character routing in `_command_dispatch`;
   - the nineteen-entry `_controller_HSM` task list, run under the DISPATCH rule: tasks run in priority order, and the first one returning EAGAIN ends the pass.

   The part of `cs`/`cfg` this file touches is a class, `ControllerStructs`, with methods for the in-place operations. The pass itself is stated over `World` values (controller state, environment, recorded effects), so the task list can be a sequence.

The DISPATCH rule is shared by both files. `Dispatch.Pass` defines one pass over any sequence of tasks. `Dispatch.RunPass` is the early-return loop, proved equal to `Pass`. The lemmas about `Pass` state short-circuiting and fall-through by position.

Hardware and other modules are parameters:
- **Sensor conversions.** The ADC conversions a sensor callback reads are a `seq<int>`.
- **Timer interrupt.** The timer interrupt is a method that sets `tick_flag`.
- **Other modules' tasks.** The statuses of the other modules' tasks are fields of an `Env`.
- **Calls into other modules.** Calls such as `cm_hard_alarm`, the parsers and the LED are appended as `Effect`s.
- **Header constants.** The constants of the headers are not part of this model. Each numeric constant is a field of `TcConfig.Constants` or `Controller.Limits`. The enumerated states and codes (HEATER_OFF, SENSOR_READING_COMPLETE, SENSOR_IS_READING and the rest) are datatype constructors, so they are distinct by construction (see `TcHeater.HeaterInit` and `TcSensor.SensorInit` under "## Left out"). `Constants.Valid()` states what the code relies on:
  - `0 < SENSOR_SAMPLES_PER_READING <= 255`;
  - `0 <= SENSOR_RETRIES <= 255`;
  - `PID_DT > 0`;
  - `PID_MIN_OUTPUT <= PID_MAX_OUTPUT`;
  - `HOTTER_THAN_THE_SUN > SURFACE_OF_THE_SUN`;
  - a positive timer clock;
  - `0 <= PWM_MIN_RES <= PWM_MAX_RES <= 255`.

Temperatures and PID terms are `real`. A `(uint8_t)` cast of a double is truncation toward zero. For a value outside 0..255, C leaves the conversion undefined; the model reduces it modulo 256 (see `ToU8` under "## Left out"). The `int8_t` sample counter wraps from 127 to -128.

Where the code differs from what its comments or names suggest, the model follows the code:
- **`_sensor_sample` return value.** When every variance test fails, it returns `HOTTER_THAN_THE_SUN`, although its header comment says `ABSOLUTE_ZERO`.
- **`heater_on` and the timer.** `heater_on` does not reset `regulation_timer`.
- **Frozen readings.** `sensor_start_temperature_reading` clears only `samples`. Once a reading is complete, `sensor_callback` returns at once on every later tick, so the temperature the heater regulates on is never refreshed (`TcTick.CompletedReadingIsFrozen`).
- **`HEATER_AT_TARGET`.** Nothing sets it.
- **Restart after a shutdown.** `heater_on` after a shutdown sets `HEATER_HEATING`, but the sensor stays off, so the heater never regulates again (`TcHeater.RestartAfterShutdownStalls`).
- **Readings of more than 127 samples.** `sensor.samples` is an `int8_t` (line 354 increments it). With SENSOR_SAMPLES_PER_READING above 127 the count wraps to -128 before it reaches the target, so a reading never completes and the heater never gets data (`TcSensor.WideReadingNeverCompletes`).
- **A sensor shut down by bad readings.** The sensor's shutdown is not a heater fault. `heater_callback` treats SENSOR_SHUTDOWN like a sensor without data and returns before it advances `regulation_timer` (lines 197-199). A heating heater whose sensor has shut down therefore stays HEATING. It records no fault code, its timer is frozen, and neither time-out can fire (`TcHeater.SensorShutdownStallsHeating`, `TcTick.SensorShutdownNeverTimesOut`).
- **`pwm_set_duty` and OCR2A.** `pwm_set_duty` reloads OCR2A from the unclamped period `pwm_freq`, not from the clamped value `pwm_set_freq` wrote.

## Model

| member | source | states |
|---|---|---|
| TcConfig.Abs | firmware/temperature/tinyg_tc.c:255 | fabs, as in the integral gate (line 255) and the variance test (line 415): non-negative and equal to the argument or its negation |
| TcDevice.Trunc | firmware/temperature/tinyg_tc.c:494 | a double-to-integer conversion, as in the `(uint8_t)` casts at lines 494, 519 and 521, truncates toward zero: the result is within one of the argument, on its side of zero |
| TcDevice.ToU8 | firmware/temperature/tinyg_tc.c:519 | the `(uint8_t)` cast (lines 494, 519, 521) lands in 0..255 and is the integer part of any argument already in 0..255 |
| TcDevice.PeriodToU8 | firmware/temperature/tinyg_tc.c:521 | the `(uint8_t)` cast of the saved period is an 8-bit value and the integer part of any period in 0..255 |
| TcDevice.PeriodOf | firmware/temperature/tinyg_tc.c:488 | the period `F_CPU / PWM_PRESCALE / freq` is unbounded exactly for frequency 0, is `pwmClock / freq` for any other frequency, and is positive for a positive frequency |
| TcDevice.FrequencyCompare | firmware/temperature/tinyg_tc.c:489-495 | OCR2A is clamped to [PWM_MIN_RES, PWM_MAX_RES]: the minimum below the range, the maximum at or above it, the truncated period inside |
| TcDevice.DutyCompare | firmware/temperature/tinyg_tc.c:514-520 | OCR2B is 255 for duty <= 0, 0 for duty > 100, and otherwise the truncation of `OCR2A * (1 - duty/100)`, never above OCR2A |
| TcDevice.DutyCompareNonIncreasing | firmware/temperature/tinyg_tc.c:514-520 | a larger duty cycle never gives a larger OCR2B |
| TcDevice.PwmInit | firmware/temperature/tinyg_tc.c:456-466 | pwm_init clears OCR2A and OCR2B to 0 and the saved period to 0 |
| TcDevice.PwmSetFreq | firmware/temperature/tinyg_tc.c:486-497 | pwm_set_freq saves the period `F_CPU / PWM_PRESCALE / freq`, loads OCR2A with the clamped compare value of that period (FrequencyCompare: within [PWM_MIN_RES, PWM_MAX_RES]) and leaves OCR2B alone |
| TcDevice.PwmSetDuty | firmware/temperature/tinyg_tc.c:512-523 | pwm_set_duty keeps the period and sets OCR2B to the duty compare value of the old OCR2A: 255 for duty <= 0, 0 for duty > 100, and otherwise the integer part of `OCR2A * (1 - duty/100)`, never above OCR2A. It then reloads OCR2A from the `(uint8_t)` of the saved period |
| TcDevice.PwmOn | firmware/temperature/tinyg_tc.c:468-473 | pwm_on saves the period of its frequency, leaves OCR2A as the cast of that period, and sets OCR2B to the duty compare value of the clamped OCR2A that pwm_set_freq wrote (255 for a non-positive duty) |
| TcDevice.PwmOff | firmware/temperature/tinyg_tc.c:475-478 | pwm_off leaves the output fully off (OCR2B 255), OCR2A 0 and an unbounded period |
| TcDevice.Countdown | firmware/temperature/tinyg_tc.c:556-565 | one tick runs the 100 ms handler iff its counter was 1 and the 1 s handler iff both were 1; reached counters reload to 10, the others drop by one, and both stay in 1..10 |
| TcDevice.CountdownN | firmware/temperature/tinyg_tc.c:556-565 | any number of ticks keeps both counters in 1..10 |
| TcDevice.CadenceFromReset | firmware/temperature/tinyg_tc.c:534-566 | from tick_init's counters, n ticks run the 100 ms handler n/10 times and the 1 s handler n/100 times, once per ten 100 ms runs |
| TcDevice.Device.constructor | firmware/temperature/tinyg_tc.c:116-126 | device_init: counters 10 and 10, flag clear, PWM as pwm_init leaves it |
| TcDevice.Device.SetTickFlag | firmware/temperature/tinyg_tc.c:544-548 | the timer interrupt sets the tick flag and changes nothing else |
| TcDevice.Device.PwmInitialize | firmware/temperature/tinyg_tc.c:456-466 | the PWM state after it is PwmInit; the tick state is unchanged |
| TcDevice.Device.SetFreq | firmware/temperature/tinyg_tc.c:486-497 | the PWM state after it is PwmSetFreq of the old one; the status is SC_OK |
| TcDevice.Device.SetDuty | firmware/temperature/tinyg_tc.c:512-523 | the PWM state after it is PwmSetDuty of the old one; the status is SC_OK |
| TcDevice.Device.PwmOnWith | firmware/temperature/tinyg_tc.c:468-473 | the PWM state after it is PwmOn |
| TcDevice.Device.PwmStop | firmware/temperature/tinyg_tc.c:475-478 | the PWM state after it is PwmOff |
| TcPid.PidInit | firmware/temperature/tinyg_tc.c:228-238 | pid_init gives a valid regulator that is on, with PID_DT, the three gains and both output limits from the constants, and every other field zero |
| TcPid.PidReset | firmware/temperature/tinyg_tc.c:240-244 | pid_reset zeroes the integral and previous error and changes nothing else |
| TcPid.Saturate | firmware/temperature/tinyg_tc.c:263-267 | the saturation filter returns a value in [min, max]: the input inside the range, the nearer bound outside it |
| TcPid.Terms | firmware/temperature/tinyg_tc.c:261 | the unsaturated output Kp*error + Ki*integral + Kd*derivative, of the values given |
| TcPid.PidCalculate | firmware/temperature/tinyg_tc.c:246-270 | off: returns 0 and changes nothing. On: records setpoint and temperature, error = setpoint - temperature, the integral grows by error*dt exactly when abs(error) > PID_EPSILON, derivative = (error - prev_error)/dt, the output is the P+I+D sum saturated into [output_min, output_max], prev_error equals the new error, and the gains and limits are kept |
| TcPid.PidRepeat | firmware/temperature/tinyg_tc.c:246-270 | repeated calls keep the tuning and a valid regulator |
| TcPid.SteadyStateHoldsIntegral | firmware/temperature/tinyg_tc.c:253-260 | within PID_EPSILON of the setpoint the integral never moves; from the second call on, the derivative is 0 and the output is the saturated P+I value |
| TcPid.CalculateAtRest | firmware/temperature/tinyg_tc.c:253-267 | one call with zero error change has zero derivative and the saturated P+I output |
| TcPid.Pid.constructor | firmware/temperature/tinyg_tc.c:228-238 | the struct after pid_init is PidInit |
| TcPid.Pid.Reset | firmware/temperature/tinyg_tc.c:240-244 | the struct after pid_reset is PidReset of the old one |
| TcPid.Pid.Calculate | firmware/temperature/tinyg_tc.c:246-270 | the returned value and the new struct are PidCalculate of the old struct |
| TcSensor.SensorInit | firmware/temperature/tinyg_tc.c:283-293 | sensor_init gives a sensor with no data, no code, no samples, temperature ABSOLUTE_ZERO, a zero accumulator and previous sample, and samples_per_reading, retries, variance and both threshold temperatures from the constants |
| TcSensor.SensorTemperature | firmware/temperature/tinyg_tc.c:305-311 | sensor_get_temperature is the reading in SENSOR_HAS_DATA and SURFACE_OF_THE_SUN in every other state |
| TcSensor.Int8Increment | firmware/temperature/tinyg_tc.c:354 | `++sensor.samples` on an int8_t is the increment modulo 256, in -128..127 |
| TcSensor.Calibrate | firmware/temperature/tinyg_tc.c:403 | the SAMPLE macro: a raw conversion times SENSOR_SLOPE plus SENSOR_OFFSET |
| TcSensor.Within | firmware/temperature/tinyg_tc.c:415 | the variance test: the sample is strictly closer than the variance to the previous one |
| TcSensor.FirstWithin | firmware/temperature/tinyg_tc.c:414-420 | the index of the first conversion within the variance of the previous sample, or the number of checks if none is |
| TcSensor.SampleOutcome | firmware/temperature/tinyg_tc.c:406-423 | a new period takes the first conversion. Otherwise the first of `retries` conversions within variance is returned and becomes previous_temp; if none is, HOTTER_THAN_THE_SUN is returned and previous_temp is kept |
| TcSensor.ReadingCode | firmware/temperature/tinyg_tc.c:360-369 | a completed reading is DISCONNECTED iff above the disconnect threshold, NO_POWER iff otherwise below the no-power threshold, and COMPLETE iff between them |
| TcSensor.ReadingState | firmware/temperature/tinyg_tc.c:361-368 | a completed reading has data exactly when its code is COMPLETE, and no data otherwise |
| TcSensor.BeginReading | firmware/temperature/tinyg_tc.c:339-343 | a zero sample count opens a reading (accumulator 0, SENSOR_IS_READING); otherwise nothing changes |
| TcSensor.AddSample | firmware/temperature/tinyg_tc.c:345-369 | a sample above SURFACE_OF_THE_SUN shuts the sensor down with BAD_READINGS and leaves the accumulator alone. Otherwise it is accumulated; the samples_per_reading-th sample sets the temperature to the mean and classifies it |
| TcSensor.SensorCallback | firmware/temperature/tinyg_tc.c:328-370 | off, shut down, or a completed reading: nothing changes. Only bad readings shut the sensor down. HAS_DATA always comes with a COMPLETE code. While a reading is open, the result is AddSample of the sample SampleOutcome takes, after BeginReading |
| TcSensor.BadReadingsShutDown | firmware/temperature/tinyg_tc.c:345-349 | when all retries fail the variance test, the sensor shuts down with BAD_READINGS and its accumulator, count and previous_temp are kept |
| TcSensor.Callbacks | firmware/temperature/tinyg_tc.c:328-370 | successive callbacks keep a valid sensor with its settings |
| TcSensor.ReadingAccumulates | firmware/temperature/tinyg_tc.c:339-352 | with fewer than samples_per_reading steady samples, the reading is in progress and the accumulator is exactly their sum |
| TcSensor.ReadingCompletes | firmware/temperature/tinyg_tc.c:328-370 | after exactly samples_per_reading steady samples, the temperature is their mean and the code and state are its classification |
| TcSensor.SteadyPrefix | firmware/temperature/tinyg_tc.c:339-352 | a steady run splits into a steady prefix and a last call that fits it |
| TcSensor.LastSampleCompletes | firmware/temperature/tinyg_tc.c:352-369 | the call that brings the last sample completes the reading with the mean |
| TcSensor.WideReadingNeverCompletes | firmware/temperature/tinyg_tc.c:354 | with samples_per_reading above 127 the int8_t count wraps first, so no sequence of callbacks completes a reading, writes the temperature or gives a sensor data |
| TcSensor.Sensor.constructor | firmware/temperature/tinyg_tc.c:283-293 | the struct after sensor_init is SensorInit |
| TcSensor.Sensor.On | firmware/temperature/tinyg_tc.c:295-298 | sensor_on changes nothing |
| TcSensor.Sensor.Off | firmware/temperature/tinyg_tc.c:300-303 | sensor_off sets SENSOR_OFF and changes nothing else |
| TcSensor.Sensor.GetTemperature | firmware/temperature/tinyg_tc.c:305-311 | sensor_get_temperature is SensorTemperature of the struct |
| TcSensor.Sensor.GetState | firmware/temperature/tinyg_tc.c:313 | sensor_get_state is the state field |
| TcSensor.Sensor.GetCode | firmware/temperature/tinyg_tc.c:314 | sensor_get_code is the code field |
| TcSensor.Sensor.StartTemperatureReading | firmware/temperature/tinyg_tc.c:315 | sensor_start_temperature_reading clears only the sample count |
| TcSensor.Sensor.Sample | firmware/temperature/tinyg_tc.c:403-423 | the retry loop returns the value and leaves the previous_temp that SampleOutcome gives, reading the conversions in order |
| TcSensor.Sensor.Callback | firmware/temperature/tinyg_tc.c:328-370 | the struct after sensor_callback is SensorCallback of the old one |
| TcSensor.Sensor.Accumulate | firmware/temperature/tinyg_tc.c:345-369 | the struct after the accumulation step is AddSample of the old one |
| TcHeater.HeaterInit | firmware/temperature/tinyg_tc.c:153-166 | heater_init: heater off with no code, zero timer, temperature and setpoint, both time-outs and both limit temperatures from the constants, then sensor_init and pid_init, PWM untouched |
| TcHeater.HeaterOn | firmware/temperature/tinyg_tc.c:168-180 | a heating heater is left alone. Otherwise the new setpoint is stored, HEATING is set, the PID history is reset with its tuning kept, the PWM is pwm_on(PWM_FREQUENCY, 0) with the output off, and the timer is kept |
| TcHeater.SwitchOff | firmware/temperature/tinyg_tc.c:182-188 | heater_off forces the output off, turns the sensor off and records state and code |
| TcHeater.HeaterExceptions | firmware/temperature/tinyg_tc.c:205-217 | the timer advances by HEATER_TICK_SECONDS; then the ambient time-out shuts down first, the regulation time-out second, and otherwise the heater keeps heating |
| TcHeater.HeaterCallback | firmware/temperature/tinyg_tc.c:190-219 | off or shut down: no change. No sensor data: only samples cleared. With data: PID output into the duty cycle; while heating the result is the exception checks of that regulated state. A new shutdown only comes from a time-out while heating, with the output off and the sensor off |
| TcHeater.HeaterOnIdempotent | firmware/temperature/tinyg_tc.c:171-173 | a second heater_on changes nothing, whatever its setpoint |
| TcHeater.HeaterRepeat | firmware/temperature/tinyg_tc.c:190-219 | repeated callbacks keep the limits and a valid system |
| TcHeater.ShutdownIsSticky | firmware/temperature/tinyg_tc.c:193 | a shut-down heater stays exactly as it is under any number of callbacks |
| TcHeater.SensorShutdownStallsHeating | firmware/temperature/tinyg_tc.c:190-199 | from HEATING with a shut-down sensor, any number of heater callbacks leave the heater's state, code and regulation timer, the PID and the PWM unchanged |
| TcHeater.AmbientTimeoutLatches | firmware/temperature/tinyg_tc.c:205-211 | below ambient, each callback adds one tick to the timer; the heater heats while the timer is within the ambient time-out and shuts down with AMBIENT_TIMED_OUT once it passes it |
| TcHeater.Elapsed | firmware/temperature/tinyg_tc.c:206 | the timer after n ticks is its start plus n times HEATER_TICK_SECONDS |
| TcHeater.LatchStep | firmware/temperature/tinyg_tc.c:205-211 | one more callback keeps the latched-after description true for an advanced timer |
| TcHeater.HeatingStep | firmware/temperature/tinyg_tc.c:190-211 | one callback below ambient either keeps heating with the timer advanced or shuts down with AMBIENT_TIMED_OUT |
| TcHeater.RestartAfterShutdownStalls | firmware/temperature/tinyg_tc.c:168-199 | heater_on after a shutdown reports HEATING, but every later callback leaves the output off and the sensor off |
| TcHeater.Heater.constructor | firmware/temperature/tinyg_tc.c:153-166 | the structs after heater_init are HeaterInit |
| TcHeater.Heater.On | firmware/temperature/tinyg_tc.c:168-180 | the structs after heater_on are HeaterOn of the old ones |
| TcHeater.Heater.Off | firmware/temperature/tinyg_tc.c:182-188 | the structs after heater_off are SwitchOff of the old ones |
| TcHeater.Heater.Exceptions | firmware/temperature/tinyg_tc.c:205-217 | the structs after the exception checks are HeaterExceptions of the old ones |
| TcHeater.Heater.Callback | firmware/temperature/tinyg_tc.c:190-219 | the structs after heater_callback are HeaterCallback of the old ones; the tick counters are untouched |
| TcTick.BoardInit | firmware/temperature/tinyg_tc.c:99-100 | device_init and heater_init: flag clear, both counters 10 (the start CadenceFromReset counts from), and the heater system HeaterInit over pwm_init's registers, so the heater is off and the sensor without data |
| TcTick.TickStep | firmware/temperature/tinyg_tc.c:550-582 | SC_NOOP iff the flag is clear, and then nothing changes. Otherwise: SC_OK, the flag cleared, the counters counted down, sensor_callback run, and heater_callback run iff the 100 ms counter reached 0 |
| TcTick.ControllerPass | firmware/temperature/tinyg_tc.c:138-143 | an EAGAIN from kinen_callback skips tick_callback; any other status lets it run |
| TcTick.ControllerIsDispatch | firmware/temperature/tinyg_tc.c:138-143 | `_controller` is the DISPATCH pass over [kinen_callback, tick_callback], with the trace of statuses it returns |
| TcTick.Ticks | firmware/temperature/tinyg_tc.c:544-566 | successive interrupts and tick callbacks keep a valid board and the sensor settings |
| TcTick.CompletedReadingIsFrozen | firmware/temperature/tinyg_tc.c:315-336 | once a reading is complete, every later tick keeps its code and temperature; the sensor keeps its data until it is turned off |
| TcTick.SensorShutdownNeverTimesOut | firmware/temperature/tinyg_tc.c:190-199 | on the board, after any ticks, a heating heater with a sensor shut down by bad readings is still heating with its code, timer, PID and PWM unchanged, and the sensor stays shut down with its code |
| TcTick.TinyTc.constructor | firmware/temperature/tinyg_tc.c:99-100 | the board after device_init and heater_init is BoardInit |
| TcTick.TinyTc.Interrupt | firmware/temperature/tinyg_tc.c:544-548 | the interrupt sets the tick flag and changes nothing else |
| TcTick.TinyTc.TickCallback | firmware/temperature/tinyg_tc.c:550-582 | the status and board after tick_callback are TickStep of the old board |
| TcTick.TinyTc.Controller | firmware/temperature/tinyg_tc.c:138-143 | the board after `_controller` is ControllerPass of the old board |
| Dispatch.Pass | firmware/tinyg/controller.cpp:158-202 | a pass runs at most its tasks; only the last status run may be EAGAIN, and the pass stops early only on EAGAIN |
| Dispatch.RunFirstShift | firmware/tinyg/controller.cpp:158 | running n tasks is running the first and then n - 1 of the rest |
| Dispatch.PassPrefix | firmware/tinyg/controller.cpp:158-202 | the trace of a pass is the statuses of the tasks in list order, each run on what the tasks before it left |
| Dispatch.ShortCircuit | firmware/tinyg/controller.cpp:158-202 | when the task at position k is the first to return EAGAIN, exactly tasks 0..k run and none after |
| Dispatch.FallThrough | firmware/tinyg/controller.cpp:158-202 | when no task returns EAGAIN, every task runs exactly once, in list order |
| Dispatch.PassStep | firmware/tinyg/controller.cpp:158 | a pass from position i is one DISPATCH on task i followed by the pass from i + 1 |
| Dispatch.RunPass | firmware/tinyg/controller.cpp:158-202 | the early-return driver loop computes exactly Pass |
| Controller.InitAssertions | firmware/tinyg/controller.cpp:111-120 | controller_init_assertions sets all six magic fields to MAGICNUM and nothing else |
| Controller.TestAssertions | firmware/tinyg/controller.cpp:122-130 | STAT_OK iff all six magic fields equal MAGICNUM, otherwise STAT_CONTROLLER_ASSERTION_FAILURE |
| Controller.InitAssertionsPass | firmware/tinyg/controller.cpp:111-130 | after controller_init_assertions the test passes, and corrupting a magic field makes it fail |
| Controller.ResetSource | firmware/tinyg/controller.cpp:317 | tg_reset_source sets the primary source to the default one and nothing else |
| Controller.ControllerInit | firmware/tinyg/controller.cpp:81-104 | controller_init leaves integrity intact, clears the line length and request flags, and makes std_in the default and primary source |
| Controller.ShutdownIdler | firmware/tinyg/controller.cpp:285-294 | EAGAIN iff in MACHINE_SHUTDOWN, otherwise OK with no change; in shutdown the LED toggles and the timer re-arms only once the timer has passed |
| Controller.NormalIdler | firmware/tinyg/controller.cpp:296-305 | `_normal_idler` returns STAT_OK and changes nothing |
| Controller.SyncToPlanner | firmware/tinyg/controller.cpp:334-340 | EAGAIN iff free planner buffers < PLANNER_BUFFER_HEADROOM, otherwise OK |
| Controller.SyncToTxBuffer | firmware/tinyg/controller.cpp:326-332 | EAGAIN iff the USB TX count >= XOFF_TX_LO_WATER_MARK, otherwise OK |
| Controller.LimitSwitchHandler | firmware/tinyg/controller.cpp:357-365 | NOOP iff in MACHINE_ALARM or no switch thrown; otherwise a hard alarm with STAT_LIMIT_SWITCH_HIT, which is returned |
| Controller.AssertionResults | firmware/tinyg/controller.cpp:374-379 | six checks, the controller's own first |
| Controller.FirstFailure | firmware/tinyg/controller.cpp:368-379 | the position of the first non-OK status: all before it are OK |
| Controller.SystemAssertions | firmware/tinyg/controller.cpp:368-381 | OK iff every check passes. Otherwise it returns the first failing check's code, after only OK checks, and raises one hard alarm with it |
| Controller.CorruptionAlarmsFirst | firmware/tinyg/controller.cpp:374 | a corrupted controller struct is reported, and alarmed, before any other module's check |
| Controller.ToUpper | firmware/tinyg/controller.cpp:239 | toupper shifts exactly the lower-case ASCII letters |
| Controller.FirstChar | firmware/tinyg/controller.cpp:239 | the character switched on: the upper-cased first character, or NUL for an empty line |
| Controller.Prefix | firmware/tinyg/controller.cpp:263 | strncpy copies the first n characters, or the whole line if it is shorter |
| Controller.WrapGcode | firmware/tinyg/controller.cpp:263-264 | the `{"gc":"..."}` wrapper is ten characters longer than the copied prefix |
| Controller.WrapRoundTrip | firmware/tinyg/controller.cpp:263-264 | the wrapped text holds the line whole when it fits in INPUT_BUFFER_LEN - 8, and otherwise its first INPUT_BUFFER_LEN - 8 characters |
| Controller.Route | firmware/tinyg/controller.cpp:239-271 | `!`, `%` and `~` request feedhold, queue flush and cycle start; NUL answers only outside JSON mode; `$ ? H` set text mode for the text parser; `{` sets JSON mode for the JSON parser; anything else is G-code, wrapped in JSON mode; only comm_mode changes |
| Controller.CommandDispatch | firmware/tinyg/controller.cpp:213-272 | a completed line records its length, is routed and gives STAT_OK; STAT_EOF reports end of file and resets to the default source; any other status is returned with no change |
| Controller.LowerCaseHelpIsText | firmware/tinyg/controller.cpp:242-258 | a line starting with `h` is routed like `H`, to the text parser in text mode |
| Controller.RunTask | firmware/tinyg/controller.cpp:173-201 | no task of the list changes the environment it reads |
| Controller.HsmOrder | firmware/tinyg/controller.cpp:174-201 | the DISPATCH list of `_controller_HSM` in its priority order |
| Controller.HsmOrderPositions | firmware/tinyg/controller.cpp:174-201 | nineteen tasks: reset and bootloader first, the shutdown idler third, the planner and TX gates just before the baud task and the command reader, the normal idler last |
| Controller.HsmPass | firmware/tinyg/controller.cpp:158-202 | one pass runs at most the nineteen tasks |
| Controller.EnvFixed | firmware/tinyg/controller.cpp:158-202 | the environment is the same at every point of a pass |
| Controller.ShutdownStarvesLowerTasks | firmware/tinyg/controller.cpp:173-176 | in MACHINE_SHUTDOWN only the reset and bootloader handlers run before the shutdown idler ends the pass |
| Controller.CommandDispatchIsGated | firmware/tinyg/controller.cpp:175-199 | a command is read only when not shut down, with PLANNER_BUFFER_HEADROOM free planner buffers and the TX queue below its low-water mark |
| Controller.GatePassed | firmware/tinyg/controller.cpp:175-196 | a gate task that ran before the last task of a pass was open |
| Controller.ClearTaskDoesNotBlock | firmware/tinyg/controller.cpp:173-201 | with every gate open and no collaborator returning EAGAIN, no task returns EAGAIN |
| Controller.AllClearRunsEveryTask | firmware/tinyg/controller.cpp:158-202 | then all nineteen tasks run, once each, in list order |
| Controller.ControllerStructs.constructor | firmware/tinyg/controller.cpp:55 | the globals `controller_t cs` (and the fields of `cfg` and `nvStr` the file uses) start zeroed, and in text mode taking TEXT_MODE as 0 (see "## Left out") |
| Controller.ControllerStructs.Store | firmware/tinyg/controller.cpp:158-202 | writes a controller state back into the structs, field for field |
| Controller.ControllerStructs.InitAssertionsInPlace | firmware/tinyg/controller.cpp:111-120 | the structs after controller_init_assertions are InitAssertions of the old ones |
| Controller.ControllerStructs.Test | firmware/tinyg/controller.cpp:122-130 | controller_test_assertions on the structs returns STAT_OK exactly when all six magic fields are intact, and the assertion-failure status otherwise |
| Controller.ControllerStructs.Init | firmware/tinyg/controller.cpp:81-104 | the structs after controller_init are ControllerInit of the old ones |
| Controller.ControllerStructs.ResetSourceInPlace | firmware/tinyg/controller.cpp:317 | the structs after tg_reset_source are ResetSource of the old ones |
| Controller.ControllerStructs.SetPrimarySource | firmware/tinyg/controller.cpp:318 | tg_set_primary_source changes only the primary source |
| Controller.ControllerStructs.SetSecondarySource | firmware/tinyg/controller.cpp:319 | tg_set_secondary_source changes only the secondary source |
| Controller.ControllerStructs.CommandDispatchInPlace | firmware/tinyg/controller.cpp:213-272 | the status, new structs and calls of `_command_dispatch` are those of CommandDispatch |
| Controller.ControllerStructs.HsmPassInPlace | firmware/tinyg/controller.cpp:158-202 | the statuses, new structs and calls of one `_controller_HSM` pass are those of HsmPass |

## Left out

- Hardware registers: the port, ADC and timer register setup in `device_init`, `adc_init`, `pwm_init` and `tick_init`, and the `TCNT0` reload in the interrupt. OCR2A and OCR2B are plain integers.
- `adc_read`'s busy-wait conversion is not modelled. The conversions a call reads are an input sequence.
- The LED functions are not modelled, nor the LED toggle in `tick_1sec`, which is commented out anyway.
- `main`'s endless `_controller` loop and its `heater_on(140)` test call are left out. Each pass and each call is modelled on its own.
- The timer interrupt as a concurrent writer of `tick_flag`: it is a method that sets the flag between calls.
- Floating point: temperatures, PID terms, the PWM period and `fabs` are `real`. There is no IEEE-754 rounding.
- The period `F_CPU / PWM_PRESCALE / 0` that `pwm_off` computes is modelled as an unbounded period whose `(uint8_t)` cast is 0. These are the IEEE infinity and the out-of-range conversion, which C leaves undefined.
- `F_CPU / PWM_PRESCALE`: taken as one constant, the timer 2 clock.
- The header constants are parameters, so the model does not pin their values. `Constants.Valid()` states the assumptions listed above.
- Kinen: `kinen_init`, `kinen_callback` and the `device_read_byte`/`device_write_byte` byte array belong to the protocol layer. `kinen_callback` is an input status of `_controller`, and `device_reset` is an empty function.
- Commented-out code is not modelled. This covers `_sync_to_time`, `poll_switches`, `switch_debounce_callback`, the alternative anti-windup condition in `pid_calculate` and `_normal_idler`'s LED code.
- The unit-test block under `__UNIT_TEST_TC` is not modelled: it makes no assertions.
- The PID struct's `code` field: no function in the file reads or writes it.
- Other modules called from controller.cpp are not part of this model. This covers:
  - the hard-reset, bootloader, feedhold, planner, stepper, report, arc, homing, jogging, probe and baud callbacks, and the other modules' `*_test_assertions`;
  - `cm_get_machine_state`, `get_limit_switch_thrown` and `mp_get_planner_buffers_available`;
  - `xio_get_tx_bufcount_usart`, `SysTickTimer_getValue` and `xio_gets`.

  Their results are fields of `Env`, fixed for one pass.
- `cm_hard_alarm` is recorded as an effect and returns its argument. The canonical machine's alarm handling is not part of this model.
- The parsers and output calls of `_command_dispatch` are recorded as effects carrying their input line, and their results are not modelled. This covers `text_parser`, `json_parser`, `gc_gcode_parser`, `text_response`, `rpt_exception`, `fprintf_P` and the `cm_request_*` calls.
- `Controller.CommandDispatch`: the `while (true)` around `xio_gets` runs its body at most once, so each pass sees one `xio_gets` result.
- `Controller.CommandDispatch`: `cs.bufp` and `cs.saved_buf` are not modelled. The saved copy of the line is taken to be the line itself, so it ignores the SAVED_BUFFER_LEN - 1 cut.
- TcHeater.HeaterInit: heater_init never sets `heater.state` or `heater.code`. Both come from the `memset` to 0 (tinyg_tc.c:156). The enum values are in tinyg_tc.h, which is not part of this model, so the model takes HEATER_OFF as 0 and the heater's no-code value as 0. The behaviour depends on this: if HEATER_OFF were not 0, `heater_callback` would not skip a heater that was never started (line 193).
- TcSensor.SensorInit: sensor_init never sets `sensor.code`, which comes from the `memset` to 0 (tinyg_tc.c:285). The model takes the sensor's no-code value as 0 and every other code as distinct from it. If SENSOR_READING_COMPLETE were 0, `sensor_callback` would return at once on every tick from init (line 336).
- `Controller.ControllerStructs.constructor`: the zeroed `cs` starts in text mode only if `cfg` is zeroed too and TEXT_MODE is 0. Neither `cfg` nor TEXT_MODE is defined in controller.cpp, so the model takes both as given.
- ToU8: converting a finite double outside 0..255 to `uint8_t` is undefined in C. The model chooses truncation reduced modulo 256. `pwm_set_duty` reaches this through the unclamped period at line 521, so for such periods the model's OCR2A is one possible outcome, not the C semantics.
- `Controller.WrapGcode`: `strncpy` into `cs.out_buf` leaves no terminator when the line is longer than INPUT_BUFFER_LEN - 8. The model takes the cut prefix as the wrapped text. The `sprintf` writing back into the input buffer is taken to fit.
- controller_init does more than `Controller.ControllerInit` models: it also sets the firmware build and version fields, the hardware platform, the job id and `cs.state`, and calls `xio_set_stdin`/`stdout`/`stderr`.
- Comm modes other than text and JSON are not modelled. The machine states are collapsed to shutdown, alarm and the rest.
- `Controller.SystemAssertions`: the other modules' checks are pure input statuses, so "later checks are not evaluated" is not observable. The contract states the first failure and the single alarm instead.
- `Controller.ControllerStructs.HsmPassInPlace`: the pass is computed on `World` values and stored back, so the in-place updates are not interleaved with the tasks.
