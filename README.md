# Humidistat: firmware command loop and host control cycle

This project models the core of the Humidistat, a closed-loop humidity controller. It has two programs:

- **The microcontroller firmware** (`src_mcu/src/main.cpp`). It reads one-line serial commands that request actuator states: valve 1, valve 2 and the pump. It can run a timed "burst" of the actuators. Each pass of `loop()` grants the requested states by writing only the pins that changed, and reports when anything changed. A strict-interval tick, once every 1000 ms, reads the two BME280 sensors and reports the full state as one tab-separated line of ten numbers.
- **The host** (`src_python/humidistat_qdev.py`, `src_python/main.py`). It holds the command strings, the actuator profiles, the control configuration and the `State` record. Once per interval, `DAQ_function` decodes the firmware's line into `State`. It then classifies the humidity error into a dead, fine or coarse band. In automatic mode it requests a profile (coarse band), all-off (dead band), or one timed burst per update period (fine band).

Modules:

- `Numeric`: floats that may be NaN, and `uint32_t` wrap-around arithmetic for the millisecond clock.
- `Ascii`: decimal digits, used by `atoi` and by the burst command's length.
- `Firmware`: the firmware. It has two forms:
  - the state of `loop()` as a value (`Machine`), with one `loop()` call as a function (`LoopSpec`);
  - the class `Board`, whose methods update the globals and static locals in place. Each method is proved against those functions.
- `FirmwareProperties`: what the parsers, the dispatch, the burst, the grant step and the tick guarantee.
- `Qdev`: the host device layer.
- `Daq`: the acquisition function. It has a functional specification (`Decode`, `Classify`, `ControlStep`) and a method that updates `State` in place.
- `DaqProperties`: the control mechanism's guarantees.
- `Protocol`: the two programs connected. The host's command strings decode on the firmware to the commands they stand for, and the firmware's report decodes on the host to the firmware's state.

Hardware and foreign calls are modelled as recorded events:
- a pin write becomes `PinWrite`;
- a serial line becomes `IdReply` or `Report`;
- a sensor (re)connection becomes `ConnectSensors`;
- a host request to the device layer becomes an `Action`.

`millis()`, `time.perf_counter()`, the sensor readings, the incoming command and the host's reply are all parameters.

Facts about the code that the model keeps as they are:

- **Band and mode names.** `main.py` imports `ControlBand` and reads `ControlMode.Auto`. `humidistat_qdev.py` defines no `ControlBand`, and its `ControlMode` has the members `Manual`, `Auto_Coarse`, `Auto_Fine` and `Auto_Dead` (humidistat_qdev.py:20-26). The model uses the mode {Manual, Auto} and the band {Coarse, Fine, Dead}, as `main.py` reads them.
- **Control attributes.** `State.__init__` (humidistat_qdev.py:42-58) never creates `control_band`, `control_band_prev` or `t_burst`. Each is an `Option`, `None` until first assigned, and reading a `None` one is the outcome `Raised` (`AttributeError`). Starting from a freshly constructed `State`, a manual cycle inside the fine band records Fine as the previous band without creating `t_burst`, so the first automatic cycle still inside the fine band raises at main.py:171 (`DaqProperties.SwitchingToAutoInsideFineBandRaises`). If an earlier automatic fine-band cycle left a `t_burst` behind, the same switch does not raise: no all-off is requested, and a burst fires at once when that old timer is more than the update period behind (`DaqProperties.SwitchingToAutoInsideFineBandKeepsStaleTimer`).
- **Auto to Manual.** `DAQ_function` requests nothing when the mode is Manual, so switching from Auto to Manual leaves the actuators as the last automatic cycle set them (`DaqProperties.ManualRequestsNothing`).
- **The poll `"?"`.** `DAQ_function` queries with `"?"` (main.py:99), but the firmware's dispatch has no such command. It ignores the poll (`Unknown`) and reports on its own.
- **C strings.** The firmware's command is a C string: `strlen`, `strcmp` and `atoi` stop at the first NUL. The model keeps the whole received buffer and applies `Strlen` and `CStr` where the code does, so a NUL ends the command (`FirmwareProperties.NulEndsTheCommand`).

## Model

| member | source | states |
|---|---|---|
| Numeric.Sub | src_python/main.py:140 | the humidity error is NaN exactly when the humidity or the setpoint is NaN, and otherwise adds back to the humidity |
| Numeric.Div | src_python/main.py:124-126 | the unit conversions keep NaN as NaN and otherwise multiply back to the raw value |
| Numeric.ElapsedSurvivesRollover | src_mcu/src/main.cpp:265 | `now - t_burst` on `uint32_t` gives the true elapsed time across a wrap of the millisecond clock |
| Firmware.Strlen | src_mcu/src/main.cpp:158-172 | `strlen` counts the characters before the first NUL: none of them is NUL, and the next one is NUL or the end |
| Firmware.StrlenReaches | src_mcu/src/main.cpp:159 | the test `strlen(strIn) > iPos` holds exactly when no NUL comes at or before index `iPos` |
| Firmware.ParseBoolInString | src_mcu/src/main.cpp:158-164 | `parseBoolInString` is true exactly when the character at the index is '1' and no NUL comes before it; past the end it is false |
| Firmware.ParseIntInString | src_mcu/src/main.cpp:166-172 | `parseIntInString` is `atoi` of the suffix from the index when no NUL comes before it, and 0 past the end of the C string |
| Firmware.Atoi | src_mcu/src/main.cpp:168 | `atoi` of a string that starts with no white space, sign or digit (a NUL included) is 0; the read-back lemmas below give its value |
| Firmware.ParseCommand | src_mcu/src/main.cpp:221-261 | the if-else chain: "id?" and "r" match the whole C string; "a", "b", "v1", "v2" and "p" match a prefix; each command kind is taken exactly when its own test matches; no command matches two tests, so their order never matters |
| Firmware.Dispatch | src_mcu/src/main.cpp:217-262 | handling one serial command changes only the requests and the burst variables, and writes no pin and sends no report; "id?" only sends the identity reply and "r" only reconnects the sensors, leaving the state unchanged |
| Firmware.EndBurst | src_mcu/src/main.cpp:264-270 | a burst that has run its length (wrapping `uint32_t` difference) ends with every actuator requested off; otherwise nothing changes |
| Firmware.PinWrites | src_mcu/src/main.cpp:273-288 | the three compare-and-write steps write each pin whose field differs, at the requested level, exactly once, and write no other pin and no other level |
| Firmware.Grant | src_mcu/src/main.cpp:272-291 | after granting, state equals request; with nothing changed there are no events; otherwise the changed pins are written as `PinWrites` states and exactly one report of the granted state follows, last |
| Firmware.Acquire | src_mcu/src/main.cpp:293-297 | the tick fires exactly when `now - tick >= 1000` (wrapping), at most once per call: `tick` advances by exactly 1000, the readings are replaced and one report is sent; the actuators are untouched; otherwise nothing changes |
| Firmware.ReportValues | src_mcu/src/main.cpp:120-142 | a report holds ten fields, the elapsed time first and the three actuator fields as 0 or 1 |
| Firmware.Settle | src_mcu/src/main.cpp:264-297 | after the burst check, the grant step and the tick, the actual actuator states equal the requested ones |
| Firmware.LoopSpec | src_mcu/src/main.cpp:206-305 | after every `loop()` call the actuators are in their requested states and the static locals are initialised |
| Firmware.Board.constructor | src_mcu/src/main.cpp:178-200 | `setup()` drives the three pins low, connects the sensors and stores a first reading; nothing is requested and no burst runs |
| Firmware.Board.SendReport | src_mcu/src/main.cpp:120-142 | `report` appends one line holding the elapsed time since `t_0`, the actuator states and the six readings, in print order |
| Firmware.Board.MeasureAndReport | src_mcu/src/main.cpp:107-118 | `measure_and_report` stores the new readings and then reports them |
| Firmware.Board.Start | src_mcu/src/main.cpp:208-210 | the first `loop()` call sets `t_0` and `tick` to `now`; later calls change nothing |
| Firmware.Board.ProcessCommand | src_mcu/src/main.cpp:217-262 | the dispatch of one serial command changes the state and emits events exactly as `Dispatch` says |
| Firmware.Board.EndBurstIfDue | src_mcu/src/main.cpp:264-270 | an expired burst ends and requests every actuator off; otherwise nothing changes |
| Firmware.Board.WritePins | src_mcu/src/main.cpp:272-288 | the three compare-and-write steps: the actual states become the requested ones, the pin writes are those of the changed fields, and the result says whether any field changed |
| Firmware.Board.GrantRequests | src_mcu/src/main.cpp:272-291 | pins are written for the changed fields only and one report follows if any changed, exactly as `Grant` says |
| Firmware.Board.AcquireIfDue | src_mcu/src/main.cpp:293-297 | when a period has passed, `tick` advances by exactly one period and the state is measured and reported |
| Firmware.Board.Finish | src_mcu/src/main.cpp:264-297 | the second half of `loop()` changes the state and emits events exactly as `Settle` says |
| Firmware.Board.Loop | src_mcu/src/main.cpp:206-305 | one `loop()` call changes the state and appends events exactly as `LoopSpec` says, and leaves the actual states equal to the requested ones |
| Firmware.DigitRun | src_mcu/src/main.cpp:168 | the digit scan of `atoi` covers only digits and stops at the first non-digit or the end |
| FirmwareProperties.ParseBoolInStringReadsOneCharacter | src_mcu/src/main.cpp:158-164 | after characters that are not NUL, the flag at an index is true exactly when the character there is '1' |
| FirmwareProperties.ParsersPastTheEnd | src_mcu/src/main.cpp:158-172 | at or past the end of the C string the parsers give false and 0 |
| FirmwareProperties.DigitRunOfDigits | src_mcu/src/main.cpp:168 | `atoi` consumes exactly the digits of a number and stops at the first non-digit |
| FirmwareProperties.LeadingValueOfDigits | src_mcu/src/main.cpp:168 | the digits `atoi` consumes are worth their decimal value |
| FirmwareProperties.AtoiOfDigits | src_mcu/src/main.cpp:168 | `atoi` of digits followed by a non-digit or the end is the value of the digits |
| FirmwareProperties.AtoiOfNegatedDigits | src_mcu/src/main.cpp:168 | the same with a leading minus sign gives the negated value |
| Ascii.Decimal | src_mcu/src/main.cpp:168 | a natural number written in decimal is a non-empty run of digits with no leading zero |
| Ascii.DecimalRoundTrip | src_mcu/src/main.cpp:168 | the digits of `Decimal(n)` are worth `n` again |
| FirmwareProperties.AtoiOfDecimal | src_mcu/src/main.cpp:168 | `atoi` reads back a number written by `Ascii.Decimal`, with or without a minus sign, and ignores what follows it |
| FirmwareProperties.AtoiOfSignedDecimal | src_mcu/src/main.cpp:168 | `atoi` reads back any integer written in decimal |
| FirmwareProperties.ParseIntInStringOfSuffix | src_mcu/src/main.cpp:166-172 | `parseIntInString` at an index inside the command is `atoi` of the rest of the command |
| FirmwareProperties.ParseIntInStringOfDecimal | src_mcu/src/main.cpp:166-172 | `parseIntInString` at an index gives the integer written from that index |
| FirmwareProperties.SkipSpacesBeforeNul | src_mcu/src/main.cpp:168 | the white-space skipping of `atoi` stops at a NUL |
| FirmwareProperties.DigitRunBeforeNul | src_mcu/src/main.cpp:168 | the digit scan of `atoi` stops at a NUL |
| FirmwareProperties.LeadingValueBeforeNul | src_mcu/src/main.cpp:168 | the digits read before a NUL are worth the same whatever follows the NUL |
| FirmwareProperties.AtoiStopsAtNul | src_mcu/src/main.cpp:168 | `atoi` gives the same value whatever follows a NUL |
| FirmwareProperties.StrlenBeforeNul | src_mcu/src/main.cpp:159 | `strlen` of a buffer is the length before its first NUL, and the C string is that prefix |
| FirmwareProperties.ParseBoolBeforeNul | src_mcu/src/main.cpp:158-164 | `parseBoolInString` reads the same flag up to a NUL and false after it |
| FirmwareProperties.ParseIntBeforeNul | src_mcu/src/main.cpp:166-172 | `parseIntInString` reads the same number up to a NUL and 0 after it |
| FirmwareProperties.NulEndsTheCommand | src_mcu/src/main.cpp:221-261 | whatever follows a NUL in the received command is ignored, so "a\0" + "11" requests all off and "r\0" + anything reconnects the sensors |
| FirmwareProperties.UnmatchedCommandIsIgnored | src_mcu/src/main.cpp:221-261 | a command whose C string is not "id?" or "r" and that starts with none of the prefixes, the host's poll "?" included, changes nothing and emits nothing |
| FirmwareProperties.SingleActuatorCommands | src_mcu/src/main.cpp:246-256 | "v1", "v2" and "p" change only their own request field, set from the character after the prefix |
| FirmwareProperties.SetAllAndBurstCommands | src_mcu/src/main.cpp:224-244 | for a command without NUL, "a" and "b" set all three requests from indices 1 to 3; "b" also starts a burst now, with its length read from index 4 as `uint32_t`; `NulEndsTheCommand` covers commands with a NUL |
| FirmwareProperties.ExpiredBurstSwitchesAllOff | src_mcu/src/main.cpp:264-270 | once a burst has run its length, every actuator ends off in that same call, whatever was requested during the burst, unless that call receives a new burst command |
| FirmwareProperties.RunningBurstHolds | src_mcu/src/main.cpp:264-270 | before its length has elapsed, a burst keeps running and the requested states are kept |
| FirmwareProperties.ZeroLengthBurstIsCancelled | src_mcu/src/main.cpp:242-270 | a burst of length 0 is cancelled before it is granted; all actuators end off, and no pin is written if they were already off |
| FirmwareProperties.BurstCommandStarts | src_mcu/src/main.cpp:233-291 | a burst whose length converted to `uint32_t` is non-zero (a negative `atoi` value included) switches on exactly its profile and keeps running from `now` for that converted length |
| FirmwareProperties.Valve1CommandTakesEffect | src_mcu/src/main.cpp:246-291 | outside an expiring burst, a "v1" command decides valve 1's state at the end of that `loop()` call |
| FirmwareProperties.GrantReportsGrantedState | src_mcu/src/main.cpp:272-291 | the report of the grant step shows the states just granted |
| FirmwareProperties.AcquireReportsState | src_mcu/src/main.cpp:293-297 | the tick leaves the actuators alone, and its report shows their states |
| FirmwareProperties.SettleReportsFinalState | src_mcu/src/main.cpp:264-297 | every report after the dispatch shows the actuator states the call ends with |
| FirmwareProperties.ReportsCarryFinalState | src_mcu/src/main.cpp:206-305 | every report sent during one `loop()` call shows the actuator states that the call ends with |
| FirmwareProperties.LateTickStaysDue | src_mcu/src/main.cpp:294-295 | strict-interval time keeping: after a delay of two or more periods the next tick is still due, so the missed ticks are caught up one per call |
| Qdev.State.constructor | src_python/humidistat_qdev.py:42-58 | a new `State` has NaN readings, every actuator off, a NaN setpoint and manual mode, and none of the control attributes |
| Qdev.EncodeBurst | src_mcu/src/main.cpp:233-238 | a burst command is "b", then the flags of valve 1, valve 2 and the pump at indices 1 to 3, then the length in decimal (`Ascii.SignedDecimal`) from index 4 |
| Qdev.OnOffPairsDifferInLastCharacter | src_python/humidistat_qdev.py:109-125 | the strings of `TurnValve1On`/`Off`, `TurnValve2On`/`Off` and `TurnPumpOn`/`Off` (the `turn_*` methods) pair up so that each pair differs only in the last character: '1' for on, '0' for off |
| Qdev.DefaultConfigShape | src_python/humidistat_qdev.py:29-78 | `NewActuatorManager()` enables nothing; `DefaultConfig()` has the increase profile {valve 1, pump}, the decrease profile {valve 2, pump}, period 10 s and lengths 500 / 1000 ms; its dead band lies strictly inside its fine band and both straddle zero |
| Daq.Decode | src_python/main.py:107-133 | the reply is decoded exactly when it holds ten values |
| Daq.ControlHumidity | src_python/main.py:139 | the controlling humidity is `humi_1` when `act_on_sensor_no == 1`, and `humi_2` for any other value |
| Daq.Classify | src_python/main.py:142-147 | Dead exactly inside the open dead band; Fine exactly inside the open fine band but outside the dead band; a NaN error is Coarse |
| Daq.FineStep | src_python/main.py:161-178 | the fine-band branch raises exactly when it reads a missing `control_band_prev`, or a missing `t_burst` while staying in Fine, and then changes nothing and requests nothing; otherwise it records Fine as the previous band and leaves a timer that is now or not overdue |
| Daq.ControlStep | src_python/main.py:138-186 | one control step never fails; it always records the band of the error; a completed step records that band as the previous one and a raising step leaves the previous band; in manual mode nothing is requested and the timer is kept |
| Daq.ApplyProfile | src_python/main.py:151-159 | a profile is requested as valve 1, valve 2 and pump, in that order |
| Daq.Unpack | src_python/main.py:108-123 | the ten values are unpacked into the sample fields in order, the actuator fields as booleans; nothing else changes |
| Daq.StoreReadings | src_python/main.py:107-136 | the stored readings are the decoded reply, with the firmware's time replaced by the PC's clock; the control attributes, setpoint and mode are untouched |
| Daq.FineBand | src_python/main.py:161-178 | the fine-band branch updates the control attributes and makes requests exactly as `FineStep` says |
| Daq.ControlCycle | src_python/main.py:138-186 | the control part of one cycle updates the control attributes and makes requests exactly as `ControlStep` says |
| Daq.DaqFunction | src_python/main.py:87-201 | a reply that cannot be unpacked returns False and changes nothing; otherwise the readings are stored and control runs as `ControlStep` says; setpoint and mode never change |
| DaqProperties.BandsPartitionErrors | src_python/main.py:142-147 | with the dead band inside the fine band, Dead, Fine and Coarse are exactly the errors inside the dead band, inside the fine band but not the dead band, and outside the fine band (NaN included) |
| DaqProperties.BoundsFallOutward | src_python/main.py:142-147 | the band intervals are open, so an error exactly on a bound falls in the wider band |
| DaqProperties.DefaultBandsByMagnitude | src_python/main.py:142-147 | with the default configuration: Dead below 0.5 %RH of error, Fine from 0.5 up to 2, Coarse from 2 |
| DaqProperties.NaNMeansCoarseAndDecrease | src_python/main.py:140-159 | a NaN humidity or setpoint gives the Coarse band and, in automatic mode, the decrease profile |
| DaqProperties.ManualRequestsNothing | src_python/main.py:149 | in manual mode nothing is requested, and the band and previous band are still updated |
| DaqProperties.CoarseAppliesProfile | src_python/main.py:151-159 | in the coarse band, every cycle applies the increase profile below the setpoint and the decrease profile otherwise |
| DaqProperties.DeadSwitchesAllOff | src_python/main.py:180-184 | in the dead band every actuator is switched off, every cycle |
| DaqProperties.EnteringFineRestartsTimer | src_python/main.py:161-169 | entering the fine band restarts the burst timer now and switches every actuator off |
| DaqProperties.FineBurstsAfterPeriod | src_python/main.py:171-178 | staying in the fine band, a burst towards the setpoint fires exactly when more than the update period has passed, and the timer then restarts |
| DaqProperties.RaisesOnlyOnMissingAttribute | src_python/main.py:161-171 | the cycle raises exactly when, in automatic mode and the fine band, it reads a control attribute that no earlier cycle created; nothing has been requested then |
| DaqProperties.SwitchingToAutoInsideFineBandRaises | src_python/main.py:161-186 | from a freshly constructed `State`, a manual cycle inside the fine band, followed by an automatic one still inside it, raises on the missing burst timer |
| DaqProperties.SwitchingToAutoInsideFineBandKeepsStaleTimer | src_python/main.py:161-178 | with a `t_burst` left by an earlier automatic fine-band cycle, a manual fine-band cycle followed by an automatic one does not raise: no all-off, and a burst at once when the old timer is more than the period behind |
| DaqProperties.QuietWithinPeriod | src_python/main.py:171-178 | while the humidity stays in the fine band and the update period has not passed, a run of cycles requests nothing and keeps the timer |
| DaqProperties.BurstsAreSpaced | src_python/main.py:171-178 | two consecutive bursts in the fine band are more than the update period apart |
| Protocol.TurnCommandsDecode | src_python/humidistat_qdev.py:109-125 | each `turn_*` string ("v11", "v10", "v21", "v20", "p1", "p0") is read by the firmware as the command for that actuator at the intended level |
| Protocol.EncodeBurstDecodes | src_mcu/src/main.cpp:233-244 | a burst string of "b", three flags and a decimal length is read by the firmware as a burst of that profile and length |
| Protocol.EncodedActionsDecode | src_python/main.py:151-184 | every request of the control mechanism, once encoded by `EncodeAction`, is read by the firmware as the command it stands for |
| Protocol.BurstValveCommandsAsWritten | src_python/humidistat_qdev.py:127-131 | `BurstValve1` ("b1") is read as a 0 ms burst of valve 1 and `BurstValve2` ("b2") as a 0 ms burst of nothing, so each only switches every actuator off |
| Protocol.EncodedBurstOpensProfile | src_mcu/src/main.cpp:233-270 | a well-formed burst of positive length switches on exactly its profile, and the burst keeps running |
| Protocol.ReportDecodes | src_python/main.py:107-126 | the host decodes the firmware's report to the firmware's actuator states and readings, with the time in s and the pressures in mbar |
| Protocol.ValveOnIsReportedOn | src_mcu/src/main.cpp:246-297 | after "v11" (outside an expiring burst), valve 1 is on and every report sent in that call decodes on the host with valve 1 on |

## Left out

- The LED (NeoPixel) handling in `measure_and_report`, `setup()` and the end of `loop()`: it changes no modelled state.
- Line framing and tokenising by the serial libraries: `DvG_SerialCommand` on the firmware, and `query_ascii_values` splitting on tabs on the host. Both are foreign code. The firmware receives one command string and the host receives the list of numbers, or `None` on an I/O error.
- How `Serial.print` renders numbers: 2 decimals for humidity and temperature, 0 for pressure. Floating-point rounding in general is also left out: `Float` values are exact reals or NaN, so `ReportDecodes` holds up to that rounding.
- `Atoi`: `atoi` overflow is undefined behaviour in C. The model takes the exact value, which the burst then converts to `uint32_t` modulo 2^32.
- `connect_BME280_sensors` and `read_BME280_sensors`: the retries, delays and diagnostics are foreign I/O. A (re)connection is recorded as one `ConnectSensors` event, and readings are an input.
- The BME280 read-out and its timing limits are not modelled.
- The three `time.perf_counter()` calls of one cycle are modelled as one clock value `now`.
- `DAQ_function`'s date strings, `dprint` diagnostics, chart updates (`appendData`) and file logging: display and I/O only.
- `QDeviceIO` threading and the worker machinery of `Humidistat_qdev` are not modelled.
- `set_valve_1`, `set_valve_2`, `set_pump`, `burst_incr_RH` and `burst_decr_RH` are not defined in `humidistat_qdev.py`. They are modelled as `Action`s, and `Qdev.EncodeAction` gives them the wire form that the firmware's protocol defines.
- `DaqProperties.EnteringFineRestartsTimer` assumes a non-negative burst update period. With a negative one, a burst would also fire in the entering cycle (see `FineStep`).
- The GUI (`humidistat_gui.py`) is not part of this model.

## Findings

| source | as written | input that shows it | evidently intended | confidence | as-written member | corrected member |
|---|---|---|---|---|---|---|
| src_python/humidistat_qdev.py:127-131 | `burst_valve_1` sends "b1" and `burst_valve_2` sends "b2". The firmware reads a burst as "b", three flags, then the length from index 4, so both are 0 ms bursts, and "b2" enables no actuator at all | "b1" or "b2" received in any `loop()` call: every actuator ends off | a burst command "b" + three flags + length in ms, e.g. "b100500" for valve 1 for 500 ms, which switches on the profile and runs for that length | medium, not executed (neither method is called in main.py or humidistat_gui.py) | Protocol.BurstValveCommandsAsWritten | Protocol.EncodedBurstOpensProfile |
