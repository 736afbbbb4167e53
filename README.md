# TDK Lambda G30 controller, modelled in Dafny

This project models the control library for the TDK Lambda G30 programmable
DC power supply. A `TDKLambdaG30` session owns one transport port. It keeps
track of whether it is connected and whether the output is on. It enforces
client-side voltage and current ceilings. It turns every operation into
newline-terminated SCPI-style text lines written to the port, and it reads
back replies that it trims and parses as numbers where needed.

The model has these modules:

- `Wrappers`: `Option`, `Result` and `Outcome`. A thrown `G30Exception` becomes an `Err` or `Fail` carrying a `Fault`.
- `G30Types`: the configuration record and its defaults, the initial ceilings, and the `Fault` kinds with their messages.
- `PowerSupply`: the vendor-neutral interface. It covers the vendor enumeration, the status and capability records with their defaults, and the two base-class operations that always throw.
- `Text`: `trim` over the characters space, tab, line feed and carriage return.
- `Decimal`: the `"%.3f"` rendering that `std::fixed` with precision 3 produces, and a `strtod`-style reading of a decimal prefix that stands for `std::stod`. Numbers are Dafny `real`s.
- `Transport`: the `ICommunication` port as a scripted double, class `Port`. It has an open flag and a log of written lines. It has a queue of scripted replies, where a reply is a line or a remote hang-up. It also logs the timeout of every read. `PortState` is a snapshot of a port, and `Wrote` and `Exchanged` describe what happened to it between two snapshots.
- `Codec`: the command set, including how commands are framed and how set-point lines are formatted. It also covers validation, how replies are decoded, how the status bits are decoded, and the ramp plan.
- `Controller`: the session as class `TdkLambdaG30`. Every method's contract says exactly which lines it wrote, which replies it consumed with which timeouts, and what it returned. This is also stated when the session refuses with "not connected" and changes nothing.

Sleeps, sockets and the clock are outside the model. The port's reads are
scripted, so the device's answers are parameters of each scenario.

## Model

| member | source | states |
|---|---|---|
| G30Types.DefaultConfig | include/tdk_lambda_g30.h:82-94 | The default configuration has an empty address, TCP port 8003 and a 1000 ms timeout. That timeout is the read's default timeout argument. |
| G30Types.What | src/tdk_lambda_g30.cpp:302 | Every exception message is non-empty. A failed connection's message ends with its cause's message. A failed parse quotes the raw reply between single quotes at the end of its message (line 663). |
| PowerSupply.DefaultStatus | include/power_supply_interface.h:52-71 | A fresh status record has every flag false. |
| PowerSupply.DefaultCapabilities | include/power_supply_interface.h:76-97 | Fresh capabilities have zero ceilings, one channel and no supported feature. |
| PowerSupply.BaseSetOverVoltageProtection | include/power_supply_interface.h:255-258 | The base implementation always fails with "OVP not supported by this power supply". |
| PowerSupply.BaseClearProtection | include/power_supply_interface.h:264-266 | The base implementation always fails with "Protection clear not supported by this power supply". |
| Text.Trim | src/tdk_lambda_g30.cpp:667-674 | The result is the input with its leading and trailing run of space, tab, LF and CR removed. It is empty exactly when the input is all such characters, and it neither starts nor ends with one. |
| Text.TrimPadded | src/tdk_lambda_g30.cpp:667-674 | Trimming text t padded on both sides with trim characters gives back t, when t has no trim character at its edges. |
| Text.TrimIdempotent | src/tdk_lambda_g30.cpp:667-674 | Trimming twice is the same as trimming once. |
| Transport.Answer | src/tdk_lambda_g30.cpp:129-184 | A read on an open port returns the next scripted line. It returns "" when nothing is left (a timeout with no data), and fails with "connection closed by remote host" on a hang-up. |
| Transport.Rest | src/tdk_lambda_g30.cpp:129-184 | A read consumes a line. A hang-up stays in the queue, so the script is unchanged exactly when it is empty or starts with a hang-up. |
| Transport.HangupIsFinal | src/tdk_lambda_g30.cpp:173-176 | Once the remote side has hung up, every later read fails the same way. |
| Transport.Port.Write | src/tdk_lambda_g30.cpp:111-127 | Writing to a closed port fails with "not open" and sends nothing. Otherwise it appends the data to the log and returns its length. |
| Transport.Port.Read | src/tdk_lambda_g30.cpp:129-184 | Reading a closed port fails with "not open". Otherwise the result is `Answer` of the queue and the queue becomes `Rest` of it. Either way the timeout is logged. |
| Transport.Port.Close | src/tdk_lambda_g30.cpp:190-200 | Afterwards the port is closed whether or not it was open, and nothing else changes. |
| Decimal.ParseNumber | src/tdk_lambda_g30.cpp:658-665 | `std::stod` succeeds exactly when the text lexes as an optionally signed decimal prefix after leading white space. |
| Decimal.FormatFixed3 | src/tdk_lambda_g30.cpp:357-359 | The "%.3f" text of a value has '-' first exactly when the value is negative, and it ends in '.' and exactly three digits. The same encoding is used at lines 420-422 and 494-496. |
| Decimal.FormatThenParse | src/tdk_lambda_g30.cpp:357-359 | Reading back the three-decimal text of x gives x rounded to three decimals, with ties to even. |
| Decimal.LetterLedIsNotANumber | src/tdk_lambda_g30.cpp:658-665 | Under the decimal-only reader, text that starts with a letter (such as "ERR" or "OFF") is not a number. |
| Decimal.DigitsValueAppend | src/tdk_lambda_g30.cpp:357-359 | The value of concatenated digit strings is the first one's value shifted by the second one's length, plus the second one's value. |
| Codec.Frame | src/tdk_lambda_g30.cpp:606-609 | The framed command ends in '\n', and a line feed is added exactly when the command does not already end in one. |
| Codec.FrameIdempotent | src/tdk_lambda_g30.cpp:606-609 | Framing an already framed command changes nothing. |
| Codec.SetLine | src/tdk_lambda_g30.cpp:357-359 | A set-point line is longer than its prefix plus one character and ends in '\n'. |
| Codec.FixedTextIsOneLine | src/tdk_lambda_g30.cpp:357-359 | The three-decimal text holds no line feed. |
| Codec.SetLineCarriesValue | src/tdk_lambda_g30.cpp:357-359 | A set-point line is the prefix, then a text that reads back as the value rounded to three decimals, then '\n'. That text holds no line feed, so the line's only line feed is the last character. |
| Codec.SetLineExample | src/tdk_lambda_g30.cpp:357-359 | setVoltage(12.5) writes "VOLT 12.500\n". |
| Codec.Validate | src/tdk_lambda_g30.cpp:638-656 | A value passes exactly when 0 <= value <= limit. A negative value fails as negative first, and a value above the limit fails as above the limit. |
| Codec.ParseNumericResponse | src/tdk_lambda_g30.cpp:658-665 | The result succeeds exactly when the trimmed reply parses, with the parsed value. A failure carries the reply as passed in. |
| Codec.EchoedValueParses | src/tdk_lambda_g30.cpp:658-665 | A reply that is a three-decimal value, padded with trim characters, parses as that value rounded. |
| Codec.NonNumericReplyFails | src/tdk_lambda_g30.cpp:658-665 | Under the decimal-only reader, a padded reply that starts with a letter fails to parse, and the error carries the reply. |
| Codec.QueryResult | src/tdk_lambda_g30.cpp:629-631 | A failed read is passed on. A successful one comes back as the trim of the reply, so it is no longer and has no edge white space. |
| Codec.QueryResultOfPadded | src/tdk_lambda_g30.cpp:629-631 | A reply that is a clean text padded on both sides by trim characters comes back as exactly that text. |
| Codec.NumericResult | src/tdk_lambda_g30.cpp:365-375 | A failed query is passed on. Otherwise the reply is trimmed and parsed, and a parse failure names the trimmed reply. |
| Codec.NumericResultOfPadded | src/tdk_lambda_g30.cpp:365-375 | A numeric query whose reply is a clean text padded by trim characters gives what parsing that text gives. |
| Codec.EchoedReplyReads | src/tdk_lambda_g30.cpp:365-375 | A numeric query whose reply is a padded three-decimal value reads that value rounded. |
| Codec.TrimCharacterized | src/tdk_lambda_g30.cpp:667-674 | Trimming gives a non-empty t with clean edges exactly when the text is t padded with trim characters. |
| Codec.OutputStateOf | src/tdk_lambda_g30.cpp:334 | The output counts as on exactly when the reply is "1" or "ON" padded with trim characters. |
| Codec.OutputOnExample | src/tdk_lambda_g30.cpp:328-335 | " ON \r\n" means on. |
| Codec.OutputOffExample | src/tdk_lambda_g30.cpp:328-335 | "OFF\n" means off. |
| Codec.OutputResult | src/tdk_lambda_g30.cpp:328-335 | A failed "OUTP?" query is passed on. Otherwise the result is whether the reply means on. |
| Codec.TruncateToInt | src/tdk_lambda_g30.cpp:542 | static_cast<int> truncates toward zero. |
| Codec.Pow2Add | src/tdk_lambda_g30.cpp:544-546 | Bit j + k is bit j shifted left by k places: the power of two for j + k is the product of those for j and k. |
| Codec.StatusMasks | src/tdk_lambda_g30.cpp:544-546 | The masks 0x01, 0x02 and 0x10 are bits 0, 1 and 4, the bits that `DecodeStatus` reads. |
| Codec.DecodeStatus | src/tdk_lambda_g30.cpp:542-546 | OVP, OCP and over-temperature are bits 0x01, 0x02 and 0x10 of the status value. No other field is set. |
| Codec.DecodeStatusExamples | src/tdk_lambda_g30.cpp:542-546 | 0x13 sets all three flags and 4 sets none. -1 (two's complement) sets all three. |
| Codec.StatusOf | src/tdk_lambda_g30.cpp:528-555 | When "OUTP?" fails, the default status is returned. When only "STAT:QUES?" fails, the status has just the output state. Otherwise it also has the decoded bits of the truncated value. |
| Codec.StatusUntouchedFields | src/tdk_lambda_g30.cpp:528-555 | getStatus never reports over-power, remote sensing, CC or CV. |
| Codec.RampSteps | src/tdk_lambda_g30.cpp:396-397 | The step count is |target - start| / rate * 10, which is non-negative and zero exactly when there is no distance. |
| Codec.RampCount | src/tdk_lambda_g30.cpp:401 | The loop runs floor(steps) times. |
| Codec.RampIncrement | src/tdk_lambda_g30.cpp:399 | The increment is zero when there is no distance, and otherwise it points towards the target. |
| Codec.RampIncrementSpans | src/tdk_lambda_g30.cpp:396-398 | steps times the increment is exactly target - start. |
| Codec.RampIncrementIsTenthOfRate | src/tdk_lambda_g30.cpp:396-398 | Each intermediate step moves by rate / 10 towards the target. |
| Codec.Advance | src/tdk_lambda_g30.cpp:401-402 | The loop produces exactly n set-points, and the first is one increment beyond the start. |
| Codec.AdvanceAt | src/tdk_lambda_g30.cpp:401-405 | The k-th intermediate set-point is start + (k + 1) times the increment. |
| Codec.AdvanceStep | src/tdk_lambda_g30.cpp:402 | Each intermediate set-point is the one before it (or the start) plus the increment. |
| Codec.RampPlan | src/tdk_lambda_g30.cpp:389-408 | The plan has floor(steps) + 1 set-points, and the last is the target. |
| Codec.RampPlanBetween | src/tdk_lambda_g30.cpp:389-408 | In exact arithmetic, every set-point of the ramp lies between the start and the target. |
| Codec.RampJumpsBounded | src/tdk_lambda_g30.cpp:389-408 | Consecutive set-points, from the value read back to the final target, differ by at most rate / 10. |
| Codec.LastJumpBounded | src/tdk_lambda_g30.cpp:401-407 | The final exact set moves strictly less than one step from the last intermediate value. |
| Codec.RampExample | src/tdk_lambda_g30.cpp:389-408 | A ramp from 5.0 to 15.0 at rate 2.0 has 50 intermediate set-points, 0.2 apart. |
| Codec.RampPlanValid | src/tdk_lambda_g30.cpp:389-408 | In exact arithmetic, when the start and the target both pass validation, every set-point of the ramp passes, so the whole plan is written. |
| Codec.SetLinesSnoc | src/tdk_lambda_g30.cpp:401-405 | Writing one more set-point appends exactly its line. |
| Codec.FirstInvalid | src/tdk_lambda_g30.cpp:401-407 | This is the index of the first set-point that validation refuses: all before it pass, and the one at it fails. |
| Codec.FirstInvalidSnoc | src/tdk_lambda_g30.cpp:401-407 | Appending the target moves the first refusal only when every earlier set-point passed. |
| Codec.FirstInvalidAt | src/tdk_lambda_g30.cpp:401-407 | An index where every earlier set-point passes and the set-point itself fails is the first refusal. |
| Controller.RampOutcome | src/tdk_lambda_g30.cpp:401-407 | A ramp passes exactly when no set-point is refused. Otherwise it fails with the first refusal. |
| Controller.WroteOneMore | src/tdk_lambda_g30.cpp:401-405 | The lines of i set-points followed by the line of the next one are the lines of i + 1 set-points. |
| Controller.RampStep | src/tdk_lambda_g30.cpp:401-405 | A passing set appends its line. A refused set ends the ramp at the first refusal with that refusal as its outcome. |
| Controller.RampStepsDone | src/tdk_lambda_g30.cpp:401-405 | When every intermediate set-point passed, they were all written and the ramp so far passed. |
| Controller.RampCut | src/tdk_lambda_g30.cpp:401-407 | A ramp cut among the intermediate set-points never reaches the final set, and its outcome is unchanged. |
| Controller.RampTail | src/tdk_lambda_g30.cpp:407 | After all intermediate set-points, the final set of the target completes the ramp's lines and decides its outcome. |
| Controller.PowerOf | src/tdk_lambda_g30.cpp:473-484 | The power is voltage times current when both readings succeed. Otherwise it is the first failure, voltage first. |
| Controller.PowerOfReadings | src/tdk_lambda_g30.cpp:481-483 | The first reply is the voltage and the second the current, and the power is their product. |
| Controller.QueryGuardAsWritten | src/tdk_lambda_g30.cpp:520-523 | The guard as written dereferences the port exactly when there is no port. |
| Controller.QueryGuard | src/tdk_lambda_g30.cpp:617-620 | The corrected guard never dereferences a null port, and it goes on exactly when a port exists and is open. |
| Controller.MovedFromQueryDereferencesNull | src/tdk_lambda_g30.cpp:520-523 | On a moved-from controller the written guard dereferences null where the corrected one refuses. |
| Controller.QueryGuardAgreesWithPort | src/tdk_lambda_g30.cpp:617-620 | Whenever a port exists, the corrected guard decides exactly as the written one. |
| Controller.TdkLambdaG30.constructor | src/tdk_lambda_g30.cpp:230-238 | A new session holds the injected port and config. It is disconnected with the output off and the initial ceilings of 30 V and 56 A. |
| Controller.TdkLambdaG30.IsConnected | src/tdk_lambda_g30.cpp:313-315 | The session is connected exactly when its flag is set and its port exists and is open. |
| Controller.TdkLambdaG30.Connect | src/tdk_lambda_g30.cpp:276-304 | When already connected, nothing happens. With no open port, it fails and nothing changes. Otherwise it writes "*IDN?" and reads one reply. On a non-empty identification it connects, writes "*RST" and "*CLS", and the output is off. On an empty or failed one it closes the port, stays disconnected and fails with the cause. |
| Controller.TdkLambdaG30.Disconnect | src/tdk_lambda_g30.cpp:306-311 | The port, if any, ends up closed with its logs untouched, and the session is disconnected. |
| Controller.TdkLambdaG30.Destroy | src/tdk_lambda_g30.cpp:240-249 | A connected session writes "OUTP OFF", closes the port and ends disconnected. Otherwise nothing changes. |
| Controller.TdkLambdaG30.Move | src/tdk_lambda_g30.cpp:251-260 | The new session takes over the port and all state. The source keeps no port and is disconnected. |
| Controller.TdkLambdaG30.MoveAssign | src/tdk_lambda_g30.cpp:262-274 | This works as the move constructor does, and self-assignment changes nothing. |
| Controller.TdkLambdaG30.EnableOutput | src/tdk_lambda_g30.cpp:317-326 | When connected, it writes exactly "OUTP ON" or "OUTP OFF" and records the state. Otherwise it fails with "not connected" and nothing changes. |
| Controller.TdkLambdaG30.IsOutputEnabled | src/tdk_lambda_g30.cpp:328-335 | When connected, it writes "OUTP?", consumes one reply and answers whether it means on. Otherwise it fails and nothing changes. |
| Controller.TdkLambdaG30.Reset | src/tdk_lambda_g30.cpp:337-345 | When connected, it writes exactly "*RST" and records the output as off. Otherwise it fails and nothing changes. |
| Controller.TdkLambdaG30.SetLevel | src/tdk_lambda_g30.cpp:347-363 | A value outside [0, ceiling] fails before any I/O. A valid one fails when disconnected, and otherwise exactly its set line is written. |
| Controller.TdkLambdaG30.SetVoltage | src/tdk_lambda_g30.cpp:347-363 | This is SetLevel for "VOLT " against the voltage ceiling. |
| Controller.TdkLambdaG30.SetCurrent | src/tdk_lambda_g30.cpp:410-426 | This is SetLevel for "CURR " against the current ceiling. |
| Controller.TdkLambdaG30.QueryNumber | src/tdk_lambda_g30.cpp:365-375 | When connected, it writes the framed query, consumes one reply and parses it trimmed. Otherwise it fails and nothing changes. |
| Controller.TdkLambdaG30.GetVoltage | src/tdk_lambda_g30.cpp:365-375 | This is a numeric query "VOLT?". |
| Controller.TdkLambdaG30.GetCurrent | src/tdk_lambda_g30.cpp:428-438 | This is a numeric query "CURR?". |
| Controller.TdkLambdaG30.MeasureVoltage | src/tdk_lambda_g30.cpp:377-387 | This is a numeric query "MEAS:VOLT?". |
| Controller.TdkLambdaG30.MeasureCurrent | src/tdk_lambda_g30.cpp:440-450 | This is a numeric query "MEAS:CURR?". |
| Controller.TdkLambdaG30.MeasurePower | src/tdk_lambda_g30.cpp:473-484 | It sends "MEAS:VOLT?", and sends "MEAS:CURR?" only after a good voltage reading. The result is their product or the first failure. |
| Controller.TdkLambdaG30.RampLevel | src/tdk_lambda_g30.cpp:389-408 | The target is validated, then the rate, then the connection, all before any I/O. Then it writes the set-point query and the plan's set lines up to the first refusal, and the outcome is that refusal or a pass. |
| Controller.TdkLambdaG30.RampFrom | src/tdk_lambda_g30.cpp:401-407 | The intermediate set-points and then the target are written up to the first refusal. |
| Controller.TdkLambdaG30.Advancing | src/tdk_lambda_g30.cpp:401-405 | The loop writes the intermediate set lines up to the first refusal and stops there. |
| Controller.TdkLambdaG30.SetVoltageWithRamp | src/tdk_lambda_g30.cpp:389-408 | This is RampLevel for voltage. |
| Controller.TdkLambdaG30.SetCurrentWithRamp | src/tdk_lambda_g30.cpp:452-471 | This is RampLevel for current. |
| Controller.TdkLambdaG30.SetOverVoltageProtection | src/tdk_lambda_g30.cpp:486-500 | When connected, it writes exactly "VOLT:PROT " and the level with three decimals, and the level is not validated. Otherwise it fails and nothing changes. |
| Controller.TdkLambdaG30.GetOverVoltageProtection | src/tdk_lambda_g30.cpp:502-509 | This is a numeric query "VOLT:PROT?". |
| Controller.TdkLambdaG30.ClearProtection | src/tdk_lambda_g30.cpp:511-518 | When connected, it writes exactly "*CLS". Otherwise it fails and nothing changes. |
| Controller.TdkLambdaG30.GetIdentification | src/tdk_lambda_g30.cpp:520-526 | With an open port, connected or not, it writes "*IDN?" and returns the trimmed reply. Otherwise it fails and nothing changes. |
| Controller.TdkLambdaG30.GetStatus | src/tdk_lambda_g30.cpp:528-555 | It sends "OUTP?", and sends "STAT:QUES?" only after a good answer. A failure is swallowed into the status filled in so far. It refuses when disconnected. |
| Controller.TdkLambdaG30.CheckError | src/tdk_lambda_g30.cpp:557-563 | When connected, it writes "SYST:ERR?" and returns the trimmed reply. Otherwise it fails and nothing changes. |
| Controller.TdkLambdaG30.GetCapabilities | src/tdk_lambda_g30.cpp:565-577 | The present ceilings are returned, with their product as the power ceiling, which is positive. There is one channel, OVP and OCP are supported, and nothing else is. |
| Controller.TdkLambdaG30.GetVendor | src/tdk_lambda_g30.cpp:579-581 | The vendor is TDK Lambda. |
| Controller.TdkLambdaG30.GetModel | src/tdk_lambda_g30.cpp:583-585 | The model is "G30". |
| Controller.TdkLambdaG30.GetMaxVoltage | include/tdk_lambda_g30.h:337 | This is the voltage ceiling, which is always positive. |
| Controller.TdkLambdaG30.GetMaxCurrent | include/tdk_lambda_g30.h:343 | This is the current ceiling, which is always positive. |
| Controller.TdkLambdaG30.SetMaxVoltage | src/tdk_lambda_g30.cpp:587-592 | A ceiling that is not positive is refused and the old one kept. Otherwise it is set. |
| Controller.TdkLambdaG30.SetMaxCurrent | src/tdk_lambda_g30.cpp:594-599 | A ceiling that is not positive is refused and the old one kept. Otherwise it is set. |
| Controller.TdkLambdaG30.SendCommand | src/tdk_lambda_g30.cpp:601-615 | When connected, it writes exactly the framed command, reads nothing and answers "OK". Otherwise it fails and nothing changes. |
| Controller.TdkLambdaG30.SendQuery | src/tdk_lambda_g30.cpp:617-632 | With an open port, it writes the framed query, consumes one reply with the configured timeout and returns it trimmed. Otherwise it fails and nothing changes. |

## Left out

- Sockets, the `inet_pton` address parsing and the timing loop of the TCP port (src/tdk_lambda_g30.cpp:60-215): the scripted `Transport.Port` stands in for them. A send failure on an open socket and partial reads split across polls are not modelled.
- The sleeps after each command and between ramp steps: they take time and have no other observable effect.
- The error handler (`setErrorHandler`, `defaultErrorHandler`): only its effect on control flow is modelled. getStatus passes the failure to the handler and returns the partial status. The destructor ignores the failure without calling the handler. connect closes the port and rethrows the failure wrapped as `ConnectionFailed`. What the handler prints is not modelled.
- Exception message texts that embed `std::to_string` of a value (the above-the-limit messages, the TCP connect failure): the model keeps the fault kind and the quantity, not the formatted number.
- IEEE 754 doubles: values are exact reals. Rounding in `steps`, in the increment and in `currentVoltage += stepVoltage` is therefore not modelled. Neither are infinities and NaN.
- Codec.RampPlanBetween: the source accumulates the set-point in doubles, so it can overshoot the target. Take a ramp from 0 V to 30 V at 1 V/s. Then `steps` is 300 and `stepVoltage` is 0.1, and after 300 additions of 0.1 the set-point exceeds 30 by rounding. The exact-arithmetic plan stays between start and target.
- Codec.RampPlanValid: for the same 0 V to 30 V ramp at 1 V/s under the 30 V ceiling, the source's last intermediate set-point exceeds 30. `validateVoltage` refuses it, so the source throws after 299 set lines and never sends the final `setVoltage(30)`. The model writes all 300 intermediate set lines and the final one, and passes.
- Decimal.LetterLedIsNotANumber and Codec.NonNumericReplyFails: `std::stod` reads "inf", "infinity" and "nan" in any letter case as numbers. These two lemmas hold of the decimal-only reader, not of such replies.
- Decimal.ParseNumber: `std::stod`'s hexadecimal, "inf" and "nan" forms and its `out_of_range` failure are not modelled. Only decimal text is read.
- Codec.RampIncrement: when the read-back value equals the target, the source divides 0 by 0 and gets NaN. The model uses 0. The loop runs zero times in that case, so nothing written differs.
- Codec.RampCount: `static_cast<int>(steps)` overflowing `int` for a huge ramp is not modelled. The count is the unbounded floor.
- Codec.TruncateToInt: casting a status value outside the `int` range is undefined in C++ and is not modelled. The truncation is unbounded.
- The constructor that builds its own TCP port from a config, and the `createG30Ethernet` factory: they only create a socket-backed port, which is outside the model. The injected-port constructor is modelled.
- `dynamic_cast<TcpPort*>` and `open()` in connect: opening a socket is outside the model. A connect on a port that is not open fails with "not connected", as its identification query does.
- The catch branches in connect around reset and clearProtection (src/tdk_lambda_g30.cpp:297-303): in the source they are reached when a write throws, for example on a TCP send failure. In the model a write on an open port never fails (see the first line of this section), so the model has no such branch.
- Controller.TdkLambdaG30.MoveAssign: releasing the port the target held before is not modelled. The model drops the reference.
- The moved-from `G30Config` string of the move operations: the source object keeps its config in the model.
- Controller.TdkLambdaG30.SendCommand and SendQuery require a non-empty command. `cmd.back()` on an empty string is undefined behaviour in the source.
- `PowerSupplyFactory` (include/power_supply_interface.h:290-321) and the Keysight skeleton: they are not part of the G30 controller. The `ConnectionType` enumeration (include/power_supply_interface.h:42) is used only by them, so it is left out too.
- The `channel` arguments: the G30 ignores them.

## Findings

| source | as written | input that shows it | evidently intended | confidence | as-written member | corrected member |
|---|---|---|---|---|---|---|
| src/tdk_lambda_g30.cpp:520-523, 617-620 | The guard `!isConnected() && !commPort_->isOpen()` evaluates `commPort_->isOpen()` whenever the session is not connected, including when `commPort_` is null. | Move a controller into another one. Then call `getIdentification()`, `sendQuery(...)` or `connect()` on the moved-from controller. `isConnected()` is false, so the null port is dereferenced. | Refuse with "not connected" when there is no port, as every other guard does through `isConnected()`. | not executed | Controller.QueryGuardAsWritten, Controller.MovedFromQueryDereferencesNull | Controller.QueryGuard, used by Controller.TdkLambdaG30.SendQuery |
