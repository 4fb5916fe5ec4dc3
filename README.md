# Espresso machine controller: a Dafny model

This project models the control core of a Python espresso machine controller (a
Rancilio Silvia conversion). The core has four parts:

- **the simulated machine** (`SerialManager` in `serialcom/mock_serial_manager.py`).
  It stands in for the Arduino firmware. It is a six-state machine:
  IDLE, HEATING_BREW, HEATING_STEAM, BREWING, STEAMING and FLUSHING. It
  answers one command line at a time over the serial protocol. Every 100 ms
  it drives its heater and pump, and every 250 ms it sends a `DATA:` telemetry
  line;
- **the safety supervisor** (`SafetyManager`). It checks each temperature
  reading against 160 °C, warning above 150 °C. Every second it checks for a
  silent serial line (10 s) and for brew (300 s) and steam (600 s) phases
  that run too long;
- **the thermostat** (`TemperatureController`). It holds clamped brew and
  steam setpoints and a mode string, and runs a hysteresis loop with a 2 °C
  band;
- **the controller facade** (`CoffeeController` in `qml_backend.py`). It sits
  between the user interface, the machine, the supervisor and the thermostat:
  - it decodes the machine's lines;
  - it guards the user's intents (start brew, begin brew, steam, flush, stop,
    setpoints);
  - it carries out emergency stops.

Modules:

| file | module | what it holds |
|---|---|---|
| `Numbers.dfy` | `Numbers` | `max(lo, min(hi, x))` and `int()` of a float |
| `Text.dfy` | `Text` | the Python string built-ins the core uses: `strip`, `split`, `int`, `float`, `str`, `{:02}` |
| `Protocol.dfy` | `Protocol` | command lines, replies, decoding of command lines and of `DATA:` lines |
| `MockSerial.dfy` | `MockSerial` | the simulated machine: transition functions on the value `Machine`, and the class `SerialManager` proved against them |
| `Safety.dfy` | `Safety` | the supervisor's checks, and the class `SafetyManager` |
| `Thermostat.dfy` | `Thermostat` | the hysteresis loop, and the class `TemperatureController` |
| `Backend.dfy` | `Backend` | the facade: the value `Facade` with one function per operation, and the class `CoffeeController` proved against them |

Each stateful part is modelled the same way:

1. Its state is a value.
2. Each operation is a pure function on that value, and the properties are
   proved about those functions.
3. A class mirrors the Python object. Each method's postcondition says that
   the object's new state is the matching function applied to its old state.

The wall clock is an explicit parameter (`now` in seconds, `nowMs` in
milliseconds). The simulator's random draws are a parameter (`Draws`)
constrained to the ranges the source draws from.

The facade does not call the machine. Its serial collaborator is the log
`sent` of the commands it hands over, in order. Its signals to the user
interface are the log `notices`.

As the code has it, and as the model states it:

- the communication timeout fires at every check for as long as the line
  stays silent (`Safety.TimeoutsRefire`);
- the facade caches the machine state from a `DATA:` line before the
  temperature check, so a refused reading still updates it. A `STATUS` line
  leaves it as it was (`Backend.DataCachedBeforeCheck`, `Backend.Received`);
- `startSteam` and `startFlush` check the connection only
  (`Backend.SteamStarted`, `Backend.FlushStarted`);
- an emergency stop keeps the cached state and the brew clock's start time
  (`Backend.EmergencyStopped`);
- no command of the simulator sets STEAMING: START_STEAM leads to
  HEATING_STEAM (`MockSerial.StartOnlyFromIdle`);
- in IDLE the simulator's water temperature stays where it is, because
  `_control_heater(0)` returns before the cooling step (`MockSerial.Tick`);
- the simulator takes steam setpoints from 60 °C, and the facade and the
  thermostat clamp them to [110, 150] before they are sent
  (`MockSerial.SetTempInRangeOnly`, `Backend.TemperaturesSet`).

The supervisor's signals reach the facade synchronously. In the middle of a
periodic check, handling one stop clears both phase timers. The later
conditions of the same check therefore see them cleared, and one check stops
the machine at most once (`Backend.Supervised`).

The machine prints its status dump as `STATUS:state=…,temp=…` without
whitespace. The facade splits a `STATUS` line at whitespace and needs six
words, so it ignores the machine's own status dump
(`Backend.SpacelessStatusIgnored`).

## Model

| member | source | states |
|---|---|---|
| Numbers.Clamp | silvia/temperature_controller.py:21-25 | `max(lo, min(hi, x))` lies in [lo, hi], is x itself inside the range, and is the nearer bound outside it |
| Numbers.ClampIdempotent | silvia/qml_backend.py:77-81 | clamping an already clamped value changes nothing, so the facade's clamp followed by the thermostat's is one clamp |
| Numbers.ClampIsNearest | silvia/temperature_controller.py:21-25 | no point of [lo, hi] is closer to x than the clamped value |
| Numbers.Trunc | silvia/qml_backend.py:260 | `int()` of a float truncates toward zero: the result is within 1 of x, on x's side of zero |
| Text.Strip | silvia/serialcom/mock_serial_manager.py:55 | `str.strip()`: the result has no whitespace at either end, is empty exactly when the input is all whitespace, and leaves an unpadded string as it is |
| Text.StripTrims | silvia/serialcom/mock_serial_manager.py:55 | `str.strip()` returns a slice of the input with only whitespace before and after it |
| Text.NatDigits | silvia/qml_backend.py:263 | `str(n)`: digits only, denoting n, with no leading zero |
| Text.IntText | silvia/qml_backend.py:84-85 | `str(n)`: the digits of n for n ≥ 0; a minus sign and the digits of -n for n < 0 |
| Text.IntTextWord | silvia/qml_backend.py:84-85 | `str(n)` is one whitespace-free word |
| Text.ParseInt | silvia/qml_backend.py:188 | `int(s)` succeeds exactly when the stripped text is a non-empty run of ASCII digits, optionally behind one sign; a negative result needs a minus sign |
| Text.ParseIntText | silvia/qml_backend.py:188 | `int(str(n)) == n` |
| Text.ParseFloat | silvia/serialcom/mock_serial_manager.py:59 | `float(s)` fails on all-whitespace text, and a negative result needs a minus sign |
| Text.ParseFloatOfInt | silvia/serialcom/mock_serial_manager.py:59 | `float(str(n)) == n` for an integer n |
| Text.TenthsText | silvia/qml_backend.py:84-85 | the printed one-decimal number starts and ends with a digit and has its point second from the end |
| Text.TenthsRoundTrip | silvia/serialcom/mock_serial_manager.py:59 | `float()` of a printed one-decimal float gives back that float |
| Text.UnsignedLiteral | silvia/serialcom/mock_serial_manager.py:59 | a numeral that starts and ends with a digit reads under `float()` as its exact decimal value (floats are exact reals here) |
| Text.NegativeLiteral | silvia/serialcom/mock_serial_manager.py:59 | the same numeral behind a minus sign reads as the negated value |
| Text.Pad2 | silvia/qml_backend.py:263 | `f"{n:02}"` has at least two characters; for n ≥ 0 they are digits denoting n; below 100 there are exactly two |
| Text.Split | silvia/qml_backend.py:186 | `str.split(sep)` gives one more piece than there are separators, no piece holds the separator, and joining the pieces gives the input back |
| Text.SplitJoin | silvia/qml_backend.py:186 | splitting separator-free pieces joined by the separator gives back the pieces |
| Text.Words | silvia/qml_backend.py:224 | `str.split()` gives only non-empty whitespace-free pieces, and none exactly when the input is all whitespace |
| Text.WordsUnwords | silvia/qml_backend.py:224 | words joined by single spaces split back into exactly those words |
| Text.WordsPrefix | silvia/qml_backend.py:224 | a word followed by nothing or by whitespace is the first piece |
| Text.WordsAfterSpace | silvia/qml_backend.py:224 | whitespace in front of a line does not change its pieces |
| Text.SingleWord | silvia/qml_backend.py:224-225 | a non-empty string without whitespace splits into itself alone |
| Protocol.Lookup | silvia/serialcom/mock_serial_manager.py:74-122 | a found command is the command of an entry whose line is exactly the input; no such entry means nothing is found |
| Protocol.Decode | silvia/serialcom/mock_serial_manager.py:55-125 | a line reads as blank exactly when it is all whitespace |
| Protocol.DecodeKeyword | silvia/serialcom/mock_serial_manager.py:74-122 | every argument-free command is read back from its own keyword line |
| Protocol.DecodeKeywordAt | silvia/serialcom/mock_serial_manager.py:96 | every keyword line, including BREW_NOW, reads as its command |
| Protocol.LookupFinds | silvia/serialcom/mock_serial_manager.py:74-122 | the first entry with the given line decides the lookup |
| Protocol.DecodeSetTempLine | silvia/serialcom/mock_serial_manager.py:58-73 | `SET_TEMP <zone> <t>` with a printed one-decimal t reads as that zone and temperature |
| Protocol.DecodeSetTemp | silvia/serialcom/mock_serial_manager.py:58-67 | a SET_TEMP line for a zone whose argument ends in a digit is read as that zone's argument, whatever `float()` makes of it |
| Protocol.SetTempLineArgument | silvia/qml_backend.py:84-85 | the line the controller prints for a one-decimal setpoint is read as that zone's argument, the printed number |
| Protocol.TenthsArgument | silvia/serialcom/mock_serial_manager.py:59-67 | a printed one-decimal number as a zone's argument is a SET_TEMP command for that zone and value |
| Protocol.DecodeData | silvia/qml_backend.py:182-187 | a `DATA:` line with fewer than six commas is dropped |
| Protocol.DecodeFields | silvia/qml_backend.py:187-195 | fewer than seven fields give nothing |
| Protocol.DecodeFieldsAccepts | silvia/qml_backend.py:187-195 | the fields decode exactly when there are at least seven and the first seven, and the eighth when present, all pass `int()` or `float()`; one rejected field drops the whole line |
| Protocol.DecodeJoinedData | silvia/qml_backend.py:185-186 | a `DATA:` line made by joining comma-free fields decodes exactly those fields |
| Protocol.DecodeParsedFields | silvia/qml_backend.py:187-195 | fields that parse as a reading's numbers decode to it; a missing eighth field gives brew time 0 |
| Protocol.StateName | silvia/qml_backend.py:198-199 | states 0-5 get their names, 6 and above "UNKNOWN", -6..-1 count from the end, and below -6 the lookup fails |
| MockSerial.Code | silvia/serialcom/mock_serial_manager.py:9-14 | the state numbers are 0-5, IDLE is 0 and BREWING is 3 |
| MockSerial.CodeInjective | silvia/serialcom/mock_serial_manager.py:9-14 | different states have different numbers |
| MockSerial.Init | silvia/serialcom/mock_serial_manager.py:16-31 | a new machine is disconnected and IDLE, with 93/130 °C setpoints and water at 25 °C |
| MockSerial.PumpPercent | silvia/serialcom/mock_serial_manager.py:208 | the pump percentage truncates toward zero: for a power ≥ 0 it is the exact percentage rounded down, for a negative power rounded up, and a power in 0..255 gives 0..100 |
| MockSerial.Halted | silvia/serialcom/mock_serial_manager.py:195-200 | stopping leaves the machine IDLE, pump, heater and valve off, the brew timer cleared, and everything else unchanged |
| MockSerial.HaltedIdempotent | silvia/serialcom/mock_serial_manager.py:195-200 | stopping a stopped machine changes nothing |
| MockSerial.Handle | silvia/serialcom/mock_serial_manager.py:51-125 | a disconnected machine ignores every line and replies nothing; a connected one is silent exactly on a blank line; no line changes the connection |
| MockSerial.Execute | silvia/serialcom/mock_serial_manager.py:58-125 | no command connects or disconnects the machine, and only a blank request gets no reply; the table's guards and replies are stated by the lemmas below |
| MockSerial.InitConsistent | silvia/serialcom/mock_serial_manager.py:16-31 | a new machine satisfies the machine invariant |
| MockSerial.ExecuteRefusal | silvia/serialcom/mock_serial_manager.py:58-125 | any request answered with an ERROR line, with no reply, or with a raised error leaves the machine unchanged |
| MockSerial.RefusalChangesNothing | silvia/serialcom/mock_serial_manager.py:51-125 | a line answered with an ERROR line, with no reply, or with a raised `float()` error leaves the machine unchanged |
| MockSerial.HandleConsistent | silvia/serialcom/mock_serial_manager.py:51-125 | every command line preserves the machine invariant: setpoints in range, valve open only when brewing or flushing, heater on only when heating or brewing, brew timer set only when brewing |
| MockSerial.StartOnlyFromIdle | silvia/serialcom/mock_serial_manager.py:74-94 | START_BREW, START_STEAM and START_FLUSH are answered OK exactly when the machine is IDLE, and then move it to HEATING_BREW, HEATING_STEAM or FLUSHING (the last with the valve open) and change nothing else; otherwise they answer ERROR:NOT_IDLE and change nothing |
| MockSerial.BeginBrewOnlyWhenHeated | silvia/serialcom/mock_serial_manager.py:96-104 | BEGIN_BREW starts brewing from HEATING_BREW with the valve open, the scales tared and the timer set to now, and changes nothing else; from any other state it answers ERROR:INVALID_STATE_FOR_BREW_NOW and changes nothing |
| Protocol.BrewNowSpelling | silvia/serialcom/mock_serial_manager.py:96 | the lines BREW_NOW and BEGIN_BREW both read as the one command BEGIN_BREW |
| MockSerial.StopAlwaysHalts | silvia/serialcom/mock_serial_manager.py:106-122 | STOP and ABORT halt the machine from any state with an OK reply, and repeating one later gives the same machine and reply |
| MockSerial.SetTempInRangeOnly | silvia/serialcom/mock_serial_manager.py:58-72 | a SET_TEMP line changes the setpoint exactly when the value lies in the zone's range, and otherwise answers the zone's OUT_OF_RANGE error |
| MockSerial.SetTempAnyValue | silvia/serialcom/mock_serial_manager.py:58-72 | for any value `float()` gives, SET_TEMP sets the zone's target and answers OK exactly inside the zone's range, and otherwise answers OUT_OF_RANGE and changes nothing |
| MockSerial.BlankAndUnknownLines | silvia/serialcom/mock_serial_manager.py:124-125 | a blank line gets no reply; any other unknown line gets ERROR:UNKNOWN_COMMAND; neither changes the machine |
| MockSerial.Heat | silvia/serialcom/mock_serial_manager.py:148-171 | a target of 0 only switches the heater off; otherwise the heater is on exactly when the target is more than 0.5 °C above the water, and the water stays in [20, 160]; only the heater and the water temperature change |
| MockSerial.WarmsOnlyIfOn | silvia/serialcom/mock_serial_manager.py:148-171 | for every target, the water warms only when the heater is on |
| MockSerial.WarmsOnlyWhenOn | silvia/serialcom/mock_serial_manager.py:148-171 | from at least 20 °C and for targets up to 158 °C, the water warms exactly when the heater is on |
| MockSerial.Pump | silvia/serialcom/mock_serial_manager.py:173-178 | the pump runs exactly when enabled in BREWING or FLUSHING; only the pump changes |
| MockSerial.Sense | silvia/serialcom/mock_serial_manager.py:180-193 | pressure stays in [0, 12] bar; weight is capped at 50 g when brewing and lies in [-1, 1] g otherwise; only the two sensors change |
| MockSerial.Tick | silvia/serialcom/mock_serial_manager.py:127-146 | the state, setpoints, connection and brew timer are unchanged; in IDLE the heater and pump stop, the valve closes and the water keeps its temperature; HEATING_BREW and BREWING heat toward the brew setpoint, HEATING_STEAM and STEAMING toward the steam setpoint; BREWING and FLUSHING run the pump at the drawn power (50..255); FLUSHING leaves the heater and water alone; no state outside IDLE moves the valve; pressure stays in [0, 12] |
| MockSerial.TickConsistent | silvia/serialcom/mock_serial_manager.py:127-146 | a tick preserves the machine invariant |
| MockSerial.TickWarmsOnlyWhenOn | silvia/serialcom/mock_serial_manager.py:127-171 | over a tick the water warms only if the heater is on afterwards |
| MockSerial.BrewSeconds | silvia/serialcom/mock_serial_manager.py:204-206 | the brew time is 0 unless the machine is brewing with its timer set, and then the whole seconds since the timer started |
| MockSerial.Telemetry | silvia/serialcom/mock_serial_manager.py:202-211 | the `DATA:` fields: state number, temperature, pressure, weight, pump percentage `PumpPercent(pumpPower)` (0..100 for a power in 0..255), valve and heater as 0/1, brew seconds |
| MockSerial.ScriptBrewLine | silvia/test_compatibility.py:31 | the line `SET_TEMP BREW 93` reads as the brew setpoint 93 |
| MockSerial.ScriptSteamLine | silvia/test_compatibility.py:32 | the line `SET_TEMP STEAM 130` reads as the steam setpoint 130 |
| MockSerial.ScriptHotLine | silvia/test_compatibility.py:33 | the line `SET_TEMP BREW 200` reads as the brew setpoint 200 |
| MockSerial.UnknownScriptLine | silvia/test_compatibility.py:50 | the line `INVALID_CMD` reads as an unrecognised command |
| MockSerial.Replay | silvia/serialcom/mock_serial_manager.py:51-53 | one reply per line sent; a disconnected machine replies nothing to any of them |
| MockSerial.ExecuteAll | silvia/serialcom/mock_serial_manager.py:58-125 | one reply per request carried out |
| MockSerial.After | silvia/serialcom/mock_serial_manager.py:58-125 | carrying out requests never changes the connection |
| MockSerial.ExecuteAllAppend | silvia/serialcom/mock_serial_manager.py:58-125 | carrying out two runs of requests is the first run, then the second from the machine the first left |
| MockSerial.ReplayReads | silvia/serialcom/mock_serial_manager.py:51-125 | a connected machine answers lines as it answers the requests read from them |
| MockSerial.TempsRun | silvia/test_compatibility.py:31-33 | from any machine the script's setpoints get OK, OK and BREW_TEMP_OUT_OF_RANGE, and leave the setpoints at 93 and 130 |
| MockSerial.BrewRun | silvia/test_compatibility.py:36-38 | from IDLE, START_BREW, BEGIN_BREW and STOP get their three OKs and end in IDLE |
| MockSerial.SteamRun | silvia/test_compatibility.py:40-41 | from IDLE, START_STEAM and STOP get their OKs and end in IDLE |
| MockSerial.FlushRun | silvia/test_compatibility.py:43-44 | from IDLE, START_FLUSH and STOP get their OKs and end in IDLE |
| MockSerial.UtilityRun | silvia/test_compatibility.py:47-50 | TARE_SCALES, PING, ABORT and an unknown command get OK, PONG, OK and UNKNOWN_COMMAND from any machine |
| MockSerial.ScriptRun | silvia/test_compatibility.py:29-51 | the script's fourteen commands, carried out in order on a started machine, get exactly the replies it expects |
| MockSerial.CompatibilityVectors | silvia/test_compatibility.py:29-51 | any lines that read as the script's lines, sent in order to a started machine, get exactly the replies the script expects |
| MockSerial.WholeNumberLine | silvia/qml_backend.py:84-85 | a SET_TEMP line with a whole number, as the clamp to 60 or 110 prints it, reads as that number |
| MockSerial.SerialManager.constructor | silvia/serialcom/mock_serial_manager.py:16-31 | the new object's fields are the initial machine |
| MockSerial.SerialManager.Start | silvia/serialcom/mock_serial_manager.py:40-44 | connects and answers READY |
| MockSerial.SerialManager.Stop | silvia/serialcom/mock_serial_manager.py:46-49 | disconnects, leaving every other field |
| MockSerial.SerialManager.SendCommand | silvia/serialcom/mock_serial_manager.py:51-125 | the fields and the reply are those of `Handle`, and the machine invariant is preserved |
| MockSerial.SerialManager.Perform | silvia/serialcom/mock_serial_manager.py:58-125 | the fields and the reply are those of `Execute` |
| MockSerial.SerialManager.Run | silvia/serialcom/mock_serial_manager.py:58-122 | for a recognised command, the fields and the reply are those of `Execute` |
| MockSerial.SerialManager.UpdateSystem | silvia/serialcom/mock_serial_manager.py:127-146 | the fields become those of `Tick`, and the machine invariant is preserved |
| MockSerial.SerialManager.ControlHeater | silvia/serialcom/mock_serial_manager.py:148-171 | the fields become those of `Heat` |
| MockSerial.SerialManager.ControlPump | silvia/serialcom/mock_serial_manager.py:173-178 | the fields become those of `Pump` |
| MockSerial.SerialManager.UpdateSensors | silvia/serialcom/mock_serial_manager.py:180-193 | the fields become those of `Sense` |
| MockSerial.SerialManager.StopCurrentOperation | silvia/serialcom/mock_serial_manager.py:195-200 | the fields become those of `Halted` |
| MockSerial.SerialManager.SendTelemetry | silvia/serialcom/mock_serial_manager.py:202-211 | the reading is `Telemetry` of the current fields |
| MockSerial.Report | silvia/serialcom/mock_serial_manager.py:213-217 | the status dump's fields are the machine's, the pump percentage is `PumpPercent(pumpPower)`, lies in 0..100 for a power in 0..255 and is 0 exactly below power 3 |
| MockSerial.Started | silvia/serialcom/mock_serial_manager.py:40-44 | a started machine is connected and answers every line except a blank one |
| MockSerial.SerialManager.SendStatus | silvia/serialcom/mock_serial_manager.py:213-217 | the report is that of the current fields |
| Safety.CheckTemperature | silvia/safety_manager.py:39-45 | a reading is refused exactly when above 160 °C, then with exactly one emergency stop; above 150 °C it passes with a warning; otherwise silently |
| Safety.OverheatStopsOnce | silvia/safety_manager.py:39-45 | a reading brings an emergency stop exactly when it is refused, and at most one signal |
| Safety.Alarms | silvia/safety_manager.py:47-60 | each of the three timeouts is requested exactly when its condition holds, at most once, and the first request is the communication timeout if due, else the brew timeout if due, else the steam timeout; a cleared or 0.0 start time never fires |
| Safety.FreshDataNoTimeout | silvia/safety_manager.py:24-25 | right after fresh data the line is not considered silent |
| Safety.TimeoutsRefire | silvia/safety_manager.py:47-60 | a due timeout is requested again at every later check until it is reset |
| Safety.ClearedTimerSilent | silvia/safety_manager.py:33-37 | a cleared timer never brings its timeout |
| Safety.SafetyManager.constructor | silvia/safety_manager.py:8-17 | the data timestamp is now and both timers are clear |
| Safety.SafetyManager.UpdateDataTimestamp | silvia/safety_manager.py:24-25 | sets the data timestamp only |
| Safety.SafetyManager.StartBrewTimer | silvia/safety_manager.py:27-28 | sets the brew timer only |
| Safety.SafetyManager.StartSteamTimer | silvia/safety_manager.py:30-31 | sets the steam timer only |
| Safety.SafetyManager.StopBrewTimer | silvia/safety_manager.py:33-34 | clears the brew timer only |
| Safety.SafetyManager.StopSteamTimer | silvia/safety_manager.py:36-37 | clears the steam timer only |
| Safety.SafetyManager.SafetyCheck | silvia/safety_manager.py:47-60 | the stops requested are `Alarms` of the current fields, in order |
| Thermostat.Target | silvia/temperature_controller.py:40 | the brew target in mode BREW, the steam target in every other mode |
| Thermostat.Switch | silvia/temperature_controller.py:49-52 | the heater ends in the requested state, with a signal exactly when it changed |
| Thermostat.SwitchIdempotent | silvia/temperature_controller.py:49-52 | switching again to the same state changes and signals nothing |
| Thermostat.Regulate | silvia/temperature_controller.py:36-47 | in IDLE nothing happens; the heater goes on exactly when off and more than 2 °C below target, and off, with targetReached, exactly when on and at or above target; a signal is sent exactly when the heater changes |
| Thermostat.BandIsQuiet | silvia/temperature_controller.py:43-47 | inside [target - 2, target) the loop changes nothing |
| Thermostat.RegulateIdempotent | silvia/temperature_controller.py:36-47 | running the loop again at the same temperature changes nothing |
| Thermostat.TemperatureController.constructor | silvia/temperature_controller.py:7-14 | setpoints 93/130 °C, water at 25 °C, mode IDLE, heater off |
| Thermostat.TemperatureController.SetBrewTarget | silvia/temperature_controller.py:21-22 | the brew setpoint is the clamp to [60, 110]; nothing else changes |
| Thermostat.TemperatureController.SetSteamTarget | silvia/temperature_controller.py:24-25 | the steam setpoint is the clamp to [110, 150]; nothing else changes |
| Thermostat.TemperatureController.UpdateTemperature | silvia/temperature_controller.py:27-28 | sets the water temperature only |
| Thermostat.TemperatureController.SetMode | silvia/temperature_controller.py:30-34 | sets the mode; IDLE switches the heater off as `Switch` does |
| Thermostat.TemperatureController.ControlLoop | silvia/temperature_controller.py:36-47 | the heater and signals are those of `Regulate` for the current mode and target |
| Thermostat.TemperatureController.SetHeater | silvia/temperature_controller.py:49-52 | the heater and signals are those of `Switch` |
| Thermostat.TemperatureController.Status | silvia/temperature_controller.py:54-61 | the active target, and a distance to it that is never negative; with setpoints within their limits the target lies in [60, 150] |
| Backend.Initial | silvia/qml_backend.py:26-72 | a new facade is connected exactly when the serial link started, reports that, and is IDLE with nothing sent |
| Backend.Relay | silvia/qml_backend.py:283-288 | heater changes become heating notices with the same value, in order, and a reached target becomes nothing: there are no notices exactly when there is no heater change |
| Backend.RelayAppend | silvia/qml_backend.py:283-288 | the notices for two runs of signals are those of the first followed by those of the second |
| Backend.ModeSet | silvia/temperature_controller.py:30-34 | IDLE switches the heater off and signals it only if it was on; other modes change only the mode |
| Backend.EmergencyStopped | silvia/qml_backend.py:265-277 | the report comes first, followed only by a heater-off notice when the heater was on; ABORT is sent when connected; the heater is off, both timers and the clock stop; state, brew start, setpoints and data timestamp are unchanged |
| Backend.EmergencyStopSilencesTimers | silvia/qml_backend.py:274-276 | after an emergency stop only the communication timeout can fire again |
| Backend.EmergencyStopRepeats | silvia/qml_backend.py:265-277 | a second emergency stop only adds its report and its ABORT |
| Backend.React | silvia/qml_backend.py:44-45 | a supervisor signal changes neither the connection, the cached state, the thermostat's temperature nor the data timestamp |
| Backend.Dispatch | silvia/qml_backend.py:44-45 | no signals change nothing, and signals never change the connection, cached state or data timestamp |
| Backend.Accepted | silvia/qml_backend.py:204-218 | the supervisor's verdict does not touch the connection, cached state or data timestamp |
| Backend.OverheatNotForwarded | silvia/qml_backend.py:204-218 | above 160 °C the reading is an emergency stop and is neither given to the thermostat nor shown; otherwise it is both |
| Backend.HeatingOnlyAfter | silvia/qml_backend.py:268-274 | after its report, an emergency stop signals only heater changes |
| Backend.AcceptedSendsNothing | silvia/qml_backend.py:204-209 | an accepted reading sends nothing to the machine |
| Backend.DecodeLegacy | silvia/qml_backend.py:224-231 | fewer than six words give nothing; with six or more, a status comes back exactly when words 3-5 pass `float()` and word 6 passes `int()`, and it holds word 2 and those numbers |
| Backend.LegacyRoundTrip | silvia/qml_backend.py:224-231 | a status line printed with whole numbers reads back as the state and the numbers printed |
| Backend.SixWords | silvia/qml_backend.py:224 | six words joined by spaces split back into those six |
| Backend.LegacyFields | silvia/qml_backend.py:224-231 | six words whose last four read as numbers give those numbers |
| Backend.Received | silvia/qml_backend.py:178-255 | every line refreshes the data timestamp; only `DATA:` lines change the cached state; an ERROR line is reported as it is; other lines change nothing else |
| Backend.MalformedDataIgnored | silvia/qml_backend.py:184-199 | a `DATA:` line with fewer than seven fields, or with a state number below -6, changes nothing but the timestamp |
| Backend.SpacelessStatusIgnored | silvia/qml_backend.py:222-225 | a STATUS line without whitespace, like the machine's status dump, changes nothing but the timestamp |
| Backend.DataCachedBeforeCheck | silvia/qml_backend.py:197-209 | a decoded `DATA:` line caches its state even when its temperature is refused; a refused temperature sends ABORT when connected and is not given to the thermostat |
| Backend.TemperaturesSet | silvia/qml_backend.py:75-88 | the setpoints are clamped to [60, 110] and [110, 150], unchanged inside them, and both sent in order when connected |
| Backend.SetpointsAccepted | silvia/qml_backend.py:75-85 | the machine accepts both setpoints the facade sends, answering OK to each |
| Backend.BrewStarted | silvia/qml_backend.py:90-105 | START_BREW is sent exactly when connected and the cached state is IDLE; otherwise the matching error is reported and nothing else changes |
| Backend.BrewBegun | silvia/qml_backend.py:107-121 | when connected, TARE_SCALES then BEGIN_BREW are sent, the brew clock starts, and nothing else changes; otherwise only an error is reported |
| Backend.BrewStopped | silvia/qml_backend.py:123-140 | STOP when connected; the heater is off (with its notice when it was on), the brew timer, start time and clock are cleared, 00:00 is shown, and nothing else changes |
| Backend.SteamStarted | silvia/qml_backend.py:142-152 | START_STEAM is sent exactly when connected, whatever the cached state |
| Backend.SteamStopped | silvia/qml_backend.py:154-161 | STOP when connected; the heater is off (with its notice when it was on), the steam timer is cleared, and nothing else changes |
| Backend.FlushStarted | silvia/qml_backend.py:163-170 | START_FLUSH is sent exactly when connected, whatever the cached state |
| Backend.FlushStopped | silvia/qml_backend.py:172-176 | STOP when connected, nothing else |
| Backend.ConnectionChecked | silvia/qml_backend.py:290-295 | PING and a connection signal when connected, nothing else changed; nothing at all otherwise |
| Backend.ThermostatRan | silvia/temperature_controller.py:36-47 | the heater follows `Regulate`; exactly one heating notice is added when it changes, none otherwise; nothing is sent and nothing else changes; IDLE changes nothing |
| Backend.Supervised | silvia/safety_manager.py:47-60 | wired to the facade, one periodic check stops the machine once, for the first alarm the supervisor alone would raise, and does nothing without alarms |
| Backend.Clock | silvia/qml_backend.py:261-263 | the clock text has at least five characters and, for seconds in 0..99 (the source's are below 60), a colon third from the end |
| Backend.ClockRoundTrip | silvia/qml_backend.py:257-263 | the clock text reads back as minutes * 60 + seconds, and ends in the seconds as two digits |
| Backend.ParseClockOf | silvia/qml_backend.py:263 | two colon-free numerals around a colon read as minutes and seconds |
| Backend.ParsePad2 | silvia/qml_backend.py:263 | a padded natural number reads back as itself and holds no colon |
| Backend.BrewTimeShown | silvia/qml_backend.py:257-263 | with a start time, exactly one brew-time notice is appended and nothing else changes; without one, nothing changes |
| Backend.BrewTimeSplit | silvia/qml_backend.py:259-263 | the notice's text splits the whole seconds elapsed into minutes and seconds below 60 |
| Backend.CoffeeController.constructor | silvia/qml_backend.py:26-72 | the facade is `Initial`, with a new supervisor and thermostat |
| Backend.CoffeeController.HandleSerialData | silvia/qml_backend.py:178-255 | the facade becomes `Received` |
| Backend.CoffeeController.ReadData | silvia/qml_backend.py:182-221 | after the timestamp is refreshed, the DATA branch leaves the facade as `Received` does |
| Backend.CoffeeController.ReadStatus | silvia/qml_backend.py:222-250 | after the timestamp is refreshed, the STATUS branch leaves the facade as `Received` does |
| Backend.CoffeeController.ProcessReading | silvia/qml_backend.py:204-218 | the facade becomes `Accepted` |
| Backend.CoffeeController.DispatchEvents | silvia/qml_backend.py:44-45 | the facade becomes `Dispatch`, signal by signal |
| Backend.CoffeeController.Deliver | silvia/qml_backend.py:265-281 | the facade becomes `React` |
| Backend.CoffeeController.EmergencyStop | silvia/qml_backend.py:265-277 | the facade becomes `EmergencyStopped` |
| Backend.CoffeeController.ManualEmergencyStop | silvia/qml_backend.py:346-349 | the facade becomes `EmergencyStopped` for the manual reason |
| Backend.CoffeeController.SwitchMode | silvia/temperature_controller.py:30-34 | the facade becomes `ModeSet` |
| Backend.CoffeeController.SetTemperatures | silvia/qml_backend.py:75-88 | the facade becomes `TemperaturesSet` |
| Backend.CoffeeController.StartBrew | silvia/qml_backend.py:90-105 | the facade becomes `BrewStarted` |
| Backend.CoffeeController.BeginBrew | silvia/qml_backend.py:107-121 | the facade becomes `BrewBegun` |
| Backend.CoffeeController.StopBrew | silvia/qml_backend.py:123-140 | the facade becomes `BrewStopped` |
| Backend.CoffeeController.StartSteam | silvia/qml_backend.py:142-152 | the facade becomes `SteamStarted` |
| Backend.CoffeeController.StopSteam | silvia/qml_backend.py:154-161 | the facade becomes `SteamStopped` |
| Backend.CoffeeController.StartFlush | silvia/qml_backend.py:163-170 | the facade becomes `FlushStarted` |
| Backend.CoffeeController.StopFlush | silvia/qml_backend.py:172-176 | the facade becomes `FlushStopped` |
| Backend.CoffeeController.CheckConnection | silvia/qml_backend.py:290-295 | the facade becomes `ConnectionChecked` |
| Backend.CoffeeController.RunThermostat | silvia/temperature_controller.py:36-47 | the facade becomes `ThermostatRan` |
| Backend.CoffeeController.Supervise | silvia/safety_manager.py:47-60 | the facade becomes `Supervised`, each stop handled as it is signalled |
| Backend.CoffeeController.UpdateBrewTime | silvia/qml_backend.py:257-263 | the facade becomes `BrewTimeShown` |

## Left out

- Qt timers, signals and slots: each timer callback is an operation the caller invokes. Each signal is an entry in `notices`, and each slot is called synchronously in emission order.
- The wall clock, `time.time()`, and `random`: they are parameters. The draws are constrained to the source's ranges.
- The facade's serial collaborator is the log `sent`. The simulator's reply to each command is not fed back into the facade, because in the source it re-enters `_handle_serial_data` synchronously from inside `send_command`. The two halves are connected by `Backend.SetpointsAccepted` and by the decoding lemmas.
- Text formatting of floats: `{:.1f}`, `{:.2f}` and `repr` in general, including the `DATA:` and `STATUS:` lines the simulator prints. Numbers in lines are treated as already parsed. Printing is covered only for one-decimal and whole numbers (`Protocol.DecodeSetTempLine`, `MockSerial.WholeNumberLine`).
- `float()` of exponent, `inf`, `nan` and underscore literals, and `int()` of underscore literals: the model's `float()` and `int()` reject them. The source never produces them.
- `Backend.Received`: an exception raised by a signal handler after the state is cached is not modelled. The source's `except` clause would catch it.
- `MockSerial.PumpPercent`: computed exactly as `power * 100 / 255` truncated toward zero. The source goes through `power / 255.0 * 100` in floating point, which can round below an exact integer.
- `Text.ParseInt`, `Text.ParseFloat`: only the ASCII digits 0-9 are accepted. Python's `int()` and `float()` also accept every other Unicode decimal digit; the controller and the simulator only ever print ASCII digits.
- Python floats are exact reals throughout the model: `Text.ParseFloat` (so `Text.UnsignedLiteral`) gives a numeral's exact decimal value rather than the nearest double, and the SET_TEMP range test, the clamps, the hysteresis comparisons and the supervisor's time differences compare exact values.
- `MockSerial.Heat`: floating-point rounding of the temperature arithmetic is not modelled; reals are exact.
- Reconnection (`_attempt_reconnection`), the exception path of `_check_connection`, and shutdown (`_shutdown`): they restart or tear down the serial object and the process.
- Logging (`DataLogger`) and the brew-session record written by `stopBrew`: they write files only.
- The text of the error, warning and emergency-stop messages: each is a datatype value naming its cause.
- The real serial manager (`serialcom/real_serial_manager.py`) and the graphical interface (`gui/`) are not part of this model.
- `Backend.ClockRoundTrip`: stated over the minutes and seconds the source computes before formatting, not over the elapsed seconds. `Backend.BrewTimeSplit` states that those are the elapsed seconds split at 60.
- `Text.TenthsText`: prints only non-negative numbers. The controller clamps every setpoint it sends to 60–150 °C (silvia/qml_backend.py:75-85), so a negative SET_TEMP argument is covered only for whole numbers (`Text.ParseFloatOfInt`).
