/** The controller facade between the user interface, the machine, the safety
    supervisor and the thermostat. It reads the lines the machine sends,
    guards the user's intents, clamps setpoints, and carries out emergency
    stops.

    The serial collaborator is the log `sent` of the commands handed to it,
    in order; the signals to the user interface are the log `notices`. The
    pure functions below give the state of the facade and of its two
    collaborators (`Facade`) after each operation; the class
    `CoffeeController` carries them out on the objects. */
module Backend {
  import opened Text
  import opened Numbers
  import opened Protocol
  import opened Safety
  import opened Thermostat
  import MockSerial

  /** The text of an `errorOccurred` signal. */
  datatype Message =
    | NotConnected(action: string)  // "Cannot <action> - not connected"
    | NotIdle                       // "Cannot start brew - machine not idle"
    | Emergency(reason: Reason)     // "EMERGENCY STOP: <reason>"
    | MachineError(line: string)    // an ERROR line from the machine, as received

  /** A signal to the user interface. */
  datatype Notice =
    | StateChanged(name: string)
    | TemperatureChanged(temp: real)
    | PressureChanged(pressure: real)
    | WeightChanged(weight: real)
    | BrewTimeChanged(text: string)
    | ErrorOccurred(message: Message)
    | WarningIssued(temp: real)
    | HeatingChanged(on: bool)
    | ConnectionChanged(up: bool)

  /** The facade's own fields and those of its collaborators that it reads
      or changes. */
  datatype Facade = Facade(
    connected: bool,
    currentState: string,
    brewStart: Option<real>,
    clockRunning: bool,
    sent: seq<Command>,
    notices: seq<Notice>,
    mode: string,
    heating: bool,
    brewTarget: real,
    steamTarget: real,
    thermoTemp: real,
    lastData: real,
    brewTimer: Option<real>,
    steamTimer: Option<real>)

  /** The facade right after construction at time `now`; `serialUp` is
      whether starting the serial link succeeded. */
  function Initial(now: real, serialUp: bool): (f: Facade)
    ensures f.connected == serialUp && f.currentState == "IDLE" && f.sent == []
    ensures f.notices == [ConnectionChanged(serialUp)]
    ensures f.mode == "IDLE" && !f.heating && f.brewTimer == None && f.steamTimer == None
  {
    Facade(serialUp, "IDLE", None, false, [], [ConnectionChanged(serialUp)],
           "IDLE", false, 93.0, 130.0, 25.0, now, None, None)
  }

  /** The thermostat's heater signals as the facade passes them on; a
      reached target is only logged. */
  function Relay(events: seq<ThermoEvent>): (ns: seq<Notice>)
    ensures |ns| <= |events|
    ensures forall i :: 0 <= i < |ns| ==> ns[i].HeatingChanged?
    ensures ns == [] <==> forall i :: 0 <= i < |events| ==> !events[i].HeaterChanged?
    ensures |events| == 1 ==> ns == (if events[0].HeaterChanged? then [HeatingChanged(events[0].on)] else [])
  {
    if events == [] then []
    else
      var rest := Relay(events[1..]);
      if events[0].HeaterChanged? then [HeatingChanged(events[0].on)] + rest else rest
  }

  /** Relaying keeps the order of the signals: the notices for two runs of
      signals are those of the first run followed by those of the second. */
  lemma {:induction false} RelayAppend(a: seq<ThermoEvent>, b: seq<ThermoEvent>)
    ensures Relay(a + b) == Relay(a) + Relay(b)
    decreases |a|
  {
    if a == [] {
      assert a + b == b;
    } else {
      assert (a + b)[0] == a[0] && (a + b)[1..] == a[1..] + b;
      RelayAppend(a[1..], b);
    }
  }

  /** `temp_controller.set_mode(mode)` seen from the facade. */
  function ModeSet(f: Facade, mode: string): (g: Facade)
    ensures g.mode == mode
    ensures mode == "IDLE" ==> !g.heating && g.notices == f.notices + (if f.heating then [HeatingChanged(false)] else [])
    ensures mode != "IDLE" ==> g == f.(mode := mode)
    ensures g == f.(mode := mode, heating := g.heating, notices := g.notices)
  {
    var r := if mode == "IDLE" then Switch(f.heating, false) else Regulation(f.heating, []);
    f.(mode := mode, heating := r.heating, notices := f.notices + Relay(r.events))
  }

  /** `_emergency_stop(reason)`: report, send ABORT if connected, put the
      thermostat in IDLE, clear both safety timers and stop the brew clock.
      The cached state and the brew start time are left as they were. */
  function EmergencyStopped(f: Facade, reason: Reason): (g: Facade)
    ensures g.sent == f.sent + (if f.connected then [Abort] else [])
    ensures g.mode == "IDLE" && !g.heating
    ensures g.brewTimer == None && g.steamTimer == None && !g.clockRunning
    ensures |g.notices| > |f.notices| && g.notices[..|f.notices| + 1] == f.notices + [ErrorOccurred(Emergency(reason))]
    ensures g.connected == f.connected && g.currentState == f.currentState && g.brewStart == f.brewStart
    ensures g.brewTarget == f.brewTarget && g.steamTarget == f.steamTarget
    ensures g.thermoTemp == f.thermoTemp && g.lastData == f.lastData
    ensures g.notices == f.notices + [ErrorOccurred(Emergency(reason))] + (if f.heating then [HeatingChanged(false)] else [])
  {
    var reported := f.(notices := f.notices + [ErrorOccurred(Emergency(reason))]);
    var aborted := if f.connected then reported.(sent := f.sent + [Abort]) else reported;
    var idle := ModeSet(aborted, "IDLE");
    assert idle.notices[..|f.notices| + 1] == reported.notices;
    idle.(brewTimer := None, steamTimer := None, clockRunning := false)
  }

  /** After an emergency stop the supervisor's brew and steam timeouts are
      silent; only the communication timeout can fire again, and it does at
      every later check while the line stays silent. */
  lemma EmergencyStopSilencesTimers(f: Facade, reason: Reason, now: real)
    ensures var g := EmergencyStopped(f, reason);
      Alarms(now, g.lastData, g.brewTimer, g.steamTimer)
        == (if now - f.lastData > CommTimeout then [EmergencyStop(CommunicationTimeout)] else [])
  {
  }

  /** A second emergency stop changes the controller only by its report, its
      ABORT and nothing else: the heater is already off and the timers are
      already clear. */
  lemma EmergencyStopRepeats(f: Facade, first: Reason, second: Reason)
    ensures var g := EmergencyStopped(f, first);
      EmergencyStopped(g, second)
        == g.(notices := g.notices + [ErrorOccurred(Emergency(second))],
              sent := g.sent + (if f.connected then [Abort] else []))
  {
  }

  /** What the facade does with one signal of the supervisor. */
  function React(f: Facade, e: Event): (g: Facade)
    ensures g.connected == f.connected && g.currentState == f.currentState
    ensures g.thermoTemp == f.thermoTemp && g.lastData == f.lastData
  {
    match e
    case EmergencyStop(reason) => EmergencyStopped(f, reason)
    case Warning(temp) => f.(notices := f.notices + [WarningIssued(temp)])
  }

  /** The supervisor's signals, handled in the order they are sent. */
  function Dispatch(f: Facade, events: seq<Event>): (g: Facade)
    ensures events == [] ==> g == f
    ensures g.connected == f.connected && g.currentState == f.currentState
    ensures g.thermoTemp == f.thermoTemp && g.lastData == f.lastData
  {
    if events == [] then f else React(Dispatch(f, events[..|events| - 1]), events[|events| - 1])
  }

  /** A temperature reading that reached the facade: the supervisor checks it
      first; a refused reading goes no further, an accepted one is passed to
      the thermostat and shown. */
  function Accepted(f: Facade, name: string, temp: real, pressure: real, weight: real): (g: Facade)
    ensures g.connected == f.connected && g.currentState == f.currentState && g.lastData == f.lastData
  {
    var verdict := CheckTemperature(temp);
    var g := Dispatch(f, verdict.events);
    if !verdict.ok then g
    else g.(thermoTemp := temp,
            notices := g.notices + [StateChanged(name), TemperatureChanged(temp), PressureChanged(pressure), WeightChanged(weight)])
  }

  /** A reading above the limit is never passed to the thermostat nor shown;
      the facade stops the machine instead. A reading within the limit is. */
  lemma OverheatNotForwarded(f: Facade, name: string, temp: real, pressure: real, weight: real)
    ensures var g := Accepted(f, name, temp, pressure, weight);
      && (temp > MaxTemp ==>
            g == EmergencyStopped(f, Overheat(temp))
            && g.thermoTemp == f.thermoTemp
            && TemperatureChanged(temp) !in g.notices[|f.notices|..])
      && (temp <= MaxTemp ==> g.thermoTemp == temp && g.notices[|g.notices| - 3] == TemperatureChanged(temp))
  {
    var g := Accepted(f, name, temp, pressure, weight);
    if temp > MaxTemp {
      assert [EmergencyStop(Overheat(temp))][..0] == [];
      var added := g.notices[|f.notices|..];
      forall k | 0 <= k < |added|
        ensures added[k] != TemperatureChanged(temp)
      {
        assert added[k] == g.notices[|f.notices| + k];
        if k == 0 {
          assert g.notices[..|f.notices| + 1][|f.notices|] == g.notices[|f.notices|];
        } else {
          HeatingOnlyAfter(f, Overheat(temp), |f.notices| + k);
        }
      }
    }
  }

  /** After the report, an emergency stop adds heater notices only. */
  lemma HeatingOnlyAfter(f: Facade, reason: Reason, k: nat)
    requires |f.notices| < k < |EmergencyStopped(f, reason).notices|
    ensures EmergencyStopped(f, reason).notices[k].HeatingChanged?
  {
    var reported := f.(notices := f.notices + [ErrorOccurred(Emergency(reason))]);
    var aborted := if f.connected then reported.(sent := f.sent + [Abort]) else reported;
    var idle := ModeSet(aborted, "IDLE");
    assert EmergencyStopped(f, reason).notices == idle.notices;
    assert f.heating && idle.notices == reported.notices + [HeatingChanged(false)];
  }

  /** The fields of a legacy `STATUS` line: words 1 to 5 once split at
      whitespace. */
  datatype LegacyStatus = LegacyStatus(state: string, temp: real, pressure: real, weight: real, pump: int)

  /** The facade's reading of a legacy `STATUS` line: six words or more, the
      third to fifth as `float()` and the sixth as `int()`. */
  function DecodeLegacy(line: string): (r: Option<LegacyStatus>)
    ensures |Words(line)| < 6 ==> r == None
    ensures var ws := Words(line);
      |ws| >= 6 ==>
        (r.Some? <==> ParseFloat(ws[2]).Some? && ParseFloat(ws[3]).Some? && ParseFloat(ws[4]).Some? && ParseInt(ws[5]).Some?)
    ensures var ws := Words(line);
      r.Some? ==>
        r.value == LegacyStatus(ws[1], ParseFloat(ws[2]).value, ParseFloat(ws[3]).value, ParseFloat(ws[4]).value, ParseInt(ws[5]).value)
  {
    var ws := Words(line);
    if |ws| < 6 then None
    else
      match (ParseFloat(ws[2]), ParseFloat(ws[3]), ParseFloat(ws[4]), ParseInt(ws[5]))
      case (Some(temp), Some(pressure), Some(weight), Some(pump)) => Some(LegacyStatus(ws[1], temp, pressure, weight, pump))
      case _ => None
  }

  /** A legacy status line printed as `" ".join` of the tag, the state and
      whole numbers is read back as those values. */
  lemma LegacyRoundTrip(tag: string, state: string, temp: int, pressure: int, weight: int, pump: int)
    requires IsWord(tag) && IsWord(state)
    ensures DecodeLegacy(Unwords([tag, state, IntText(temp), IntText(pressure), IntText(weight), IntText(pump)]))
         == Some(LegacyStatus(state, temp as real, pressure as real, weight as real, pump))
  {
    var t, p, w, u := IntText(temp), IntText(pressure), IntText(weight), IntText(pump);
    IntTextWord(temp);
    IntTextWord(pressure);
    IntTextWord(weight);
    IntTextWord(pump);
    SixWords(tag, state, t, p, w, u);
    ParseFloatOfInt(temp);
    ParseFloatOfInt(pressure);
    ParseFloatOfInt(weight);
    ParseIntText(pump);
    LegacyFields(Unwords([tag, state, t, p, w, u]), tag, state, t, p, w, u,
                 temp as real, pressure as real, weight as real, pump);
  }

  /** Six words joined by spaces split back into those six. */
  lemma SixWords(a: string, b: string, c: string, d: string, e: string, f: string)
    requires IsWord(a) && IsWord(b) && IsWord(c) && IsWord(d) && IsWord(e) && IsWord(f)
    ensures Words(Unwords([a, b, c, d, e, f])) == [a, b, c, d, e, f]
  {
    var ws := [a, b, c, d, e, f];
    assert forall i :: 0 <= i < |ws| ==> IsWord(ws[i]);
    WordsUnwords(ws);
  }

  /** Six words whose third to sixth read as numbers give those numbers. */
  lemma LegacyFields(line: string, tag: string, state: string, t: string, p: string, w: string, u: string,
                     temp: real, pressure: real, weight: real, pump: int)
    requires Words(line) == [tag, state, t, p, w, u]
    requires ParseFloat(t) == Some(temp) && ParseFloat(p) == Some(pressure)
    requires ParseFloat(w) == Some(weight) && ParseInt(u) == Some(pump)
    ensures DecodeLegacy(line) == Some(LegacyStatus(state, temp, pressure, weight, pump))
  {
  }

  /** `_handle_serial_data(line)` at time `now`: refresh the supervisor's
      data timestamp, then act on DATA, STATUS and ERROR lines; a DATA line
      that decodes caches its state name before the temperature is checked.
      Lines that fail to decode are dropped. */
  function Received(f: Facade, line: string, now: real): (g: Facade)
    ensures g.lastData == now && g.connected == f.connected
    ensures !(DataPrefix <= line) ==> g.currentState == f.currentState
    ensures !(DataPrefix <= line) && !("STATUS" <= line) && "ERROR" <= line ==>
      g == f.(lastData := now, notices := f.notices + [ErrorOccurred(MachineError(line))])
    ensures !(DataPrefix <= line) && !("STATUS" <= line) && !("ERROR" <= line) ==> g == f.(lastData := now)
  {
    var stamped := f.(lastData := now);
    if DataPrefix <= line then
      match DecodeData(line)
      case None => stamped
      case Some(r) =>
        match StateName(r.stateIndex)
        case None => stamped
        case Some(name) => Accepted(stamped.(currentState := name), name, r.temp, r.pressure, r.weight)
    else if "STATUS" <= line then
      match DecodeLegacy(line)
      case None => stamped
      case Some(s) => Accepted(stamped, s.state, s.temp, s.pressure, s.weight)
    else if "ERROR" <= line then stamped.(notices := stamped.notices + [ErrorOccurred(MachineError(line))])
    else stamped
  }

  /** A DATA line with fewer than seven fields, or with a state number below
      -6, changes nothing but the data timestamp. */
  lemma MalformedDataIgnored(f: Facade, line: string, now: real)
    requires DataPrefix <= line
    requires Occurrences(line[|DataPrefix|..], ',') < 6
          || (DecodeData(line).Some? && DecodeData(line).value.stateIndex < -6)
    ensures Received(f, line, now) == f.(lastData := now)
  {
  }

  /** The machine prints its status dump without whitespace, so a STATUS
      line of that kind is one word and the facade only refreshes its data
      timestamp. */
  lemma SpacelessStatusIgnored(f: Facade, line: string, now: real)
    requires "STATUS" <= line && IsWord(line)
    ensures Received(f, line, now) == f.(lastData := now)
  {
    SingleWord(line);
  }

  /** A decoded DATA line caches its state name even when its temperature is
      then refused; only an accepted temperature reaches the thermostat. */
  lemma DataCachedBeforeCheck(f: Facade, line: string, now: real, r: Reading, name: string)
    requires DataPrefix <= line && DecodeData(line) == Some(r) && StateName(r.stateIndex) == Some(name)
    ensures var g := Received(f, line, now);
      && g.currentState == name
      && (r.temp > MaxTemp ==> g.thermoTemp == f.thermoTemp && g.sent == f.sent + (if f.connected then [Abort] else []))
      && (r.temp <= MaxTemp ==> g.thermoTemp == r.temp && g.sent == f.sent)
  {
    var stamped := f.(lastData := now).(currentState := name);
    OverheatNotForwarded(stamped, name, r.temp, r.pressure, r.weight);
    if r.temp <= MaxTemp {
      AcceptedSendsNothing(stamped, name, r.temp, r.pressure, r.weight);
    }
  }

  lemma AcceptedSendsNothing(f: Facade, name: string, temp: real, pressure: real, weight: real)
    requires temp <= MaxTemp
    ensures Accepted(f, name, temp, pressure, weight).sent == f.sent
  {
    var v := CheckTemperature(temp);
    if v.events != [] {
      assert v.events == [Warning(temp)] && v.events[..0] == [];
    }
  }

  /** `setTemperatures`: the brew setpoint clamped to [60, 110] and the steam
      setpoint to [110, 150], given to the thermostat, and sent when
      connected. */
  function TemperaturesSet(f: Facade, brew: real, steam: real): (g: Facade)
    ensures BrewLow <= g.brewTarget <= BrewHigh && SteamLow <= g.steamTarget <= SteamHigh
    ensures BrewLow <= brew <= BrewHigh ==> g.brewTarget == brew
    ensures SteamLow <= steam <= SteamHigh ==> g.steamTarget == steam
    ensures g.sent == f.sent + (if f.connected then [SetTemp(Brew, g.brewTarget), SetTemp(Steam, g.steamTarget)] else [])
    ensures g == f.(brewTarget := g.brewTarget, steamTarget := g.steamTarget, sent := g.sent)
  {
    var b := Clamp(BrewLow, BrewHigh, brew);
    var s := Clamp(SteamLow, SteamHigh, steam);
    ClampIdempotent(BrewLow, BrewHigh, brew);
    ClampIdempotent(SteamLow, SteamHigh, steam);
    f.(brewTarget := Clamp(BrewLow, BrewHigh, b), steamTarget := Clamp(SteamLow, SteamHigh, s),
       sent := if f.connected then f.sent + [SetTemp(Brew, b), SetTemp(Steam, s)] else f.sent)
  }

  /** The setpoints the facade sends are always inside the ranges the
      machine accepts, so the machine sets both and answers OK. */
  lemma SetpointsAccepted(f: Facade, brew: real, steam: real, m: MockSerial.Machine, nowMs: int)
    ensures var g := TemperaturesSet(f, brew, steam);
      var first := MockSerial.Execute(m, Known(SetTemp(Brew, g.brewTarget)), nowMs);
      var second := MockSerial.Execute(first.machine, Known(SetTemp(Steam, g.steamTarget)), nowMs);
      && first.reply == MockSerial.Emit(Ok("BREW_TEMP_SET"))
      && second.reply == MockSerial.Emit(Ok("STEAM_TEMP_SET"))
      && second.machine == m.(brewTemp := g.brewTarget, steamTemp := g.steamTarget)
  {
  }

  /** `startBrew`: only when connected and the machine was last seen IDLE. */
  function BrewStarted(f: Facade, now: real): (g: Facade)
    ensures g.sent != f.sent <==> f.connected && f.currentState == "IDLE"
    ensures f.connected && f.currentState == "IDLE" ==>
      g == f.(mode := "BREW", brewTimer := Some(now), sent := f.sent + [StartBrew])
    ensures !f.connected ==> g == f.(notices := f.notices + [ErrorOccurred(NotConnected("start brew"))])
    ensures f.connected && f.currentState != "IDLE" ==> g == f.(notices := f.notices + [ErrorOccurred(NotIdle)])
  {
    if !f.connected then f.(notices := f.notices + [ErrorOccurred(NotConnected("start brew"))])
    else if f.currentState != "IDLE" then f.(notices := f.notices + [ErrorOccurred(NotIdle)])
    else ModeSet(f, "BREW").(brewTimer := Some(now), sent := f.sent + [StartBrew])
  }

  /** `beginBrew`: TARE_SCALES then BEGIN_BREW, and the brew clock starts;
      only the connection is checked. */
  function BrewBegun(f: Facade, now: real): (g: Facade)
    ensures f.connected ==> g.sent == f.sent + [TareScales, BeginBrew] && g.brewStart == Some(now) && g.clockRunning
    ensures g == f.(sent := g.sent, brewStart := g.brewStart, clockRunning := g.clockRunning, notices := g.notices)
    ensures f.connected ==> g.notices == f.notices
    ensures !f.connected ==> g == f.(notices := f.notices + [ErrorOccurred(NotConnected("begin brew"))])
  {
    if !f.connected then f.(notices := f.notices + [ErrorOccurred(NotConnected("begin brew"))])
    else f.(sent := f.sent + [TareScales, BeginBrew], brewStart := Some(now), clockRunning := true)
  }

  /** `stopBrew`: STOP when connected; the thermostat goes IDLE, the brew
      timer and clock are cleared, and the display shows 00:00. */
  function BrewStopped(f: Facade): (g: Facade)
    ensures g.sent == f.sent + (if f.connected then [Stop] else [])
    ensures g.mode == "IDLE" && !g.heating && g.brewTimer == None && g.brewStart == None && !g.clockRunning
    ensures g.steamTimer == f.steamTimer && |g.notices| > 0 && g.notices[|g.notices| - 1] == BrewTimeChanged("00:00")
    ensures g == f.(sent := f.sent + (if f.connected then [Stop] else []), mode := "IDLE", heating := false,
                    brewTimer := None, brewStart := None, clockRunning := false,
                    notices := f.notices + (if f.heating then [HeatingChanged(false)] else []) + [BrewTimeChanged("00:00")])
  {
    var stopped := if f.connected then f.(sent := f.sent + [Stop]) else f;
    var idle := ModeSet(stopped, "IDLE");
    idle.(brewTimer := None, clockRunning := false, brewStart := None,
          notices := idle.notices + [BrewTimeChanged("00:00")])
  }

  /** `startSteam`: only the connection is checked. */
  function SteamStarted(f: Facade, now: real): (g: Facade)
    ensures g.sent != f.sent <==> f.connected
    ensures f.connected ==> g == f.(mode := "STEAM", steamTimer := Some(now), sent := f.sent + [StartSteam])
    ensures !f.connected ==> g == f.(notices := f.notices + [ErrorOccurred(NotConnected("start steam"))])
  {
    if !f.connected then f.(notices := f.notices + [ErrorOccurred(NotConnected("start steam"))])
    else ModeSet(f, "STEAM").(steamTimer := Some(now), sent := f.sent + [StartSteam])
  }

  /** `stopSteam`: STOP when connected; the thermostat goes IDLE and the
      steam timer is cleared. */
  function SteamStopped(f: Facade): (g: Facade)
    ensures g.sent == f.sent + (if f.connected then [Stop] else [])
    ensures g.mode == "IDLE" && !g.heating && g.steamTimer == None && g.brewTimer == f.brewTimer
    ensures g == f.(sent := f.sent + (if f.connected then [Stop] else []), mode := "IDLE", heating := false,
                    steamTimer := None, notices := f.notices + (if f.heating then [HeatingChanged(false)] else []))
  {
    var stopped := if f.connected then f.(sent := f.sent + [Stop]) else f;
    ModeSet(stopped, "IDLE").(steamTimer := None)
  }

  /** `startFlush`: only the connection is checked. */
  function FlushStarted(f: Facade): (g: Facade)
    ensures g.sent != f.sent <==> f.connected
    ensures f.connected ==> g == f.(sent := f.sent + [StartFlush])
    ensures !f.connected ==> g == f.(notices := f.notices + [ErrorOccurred(NotConnected("start flush"))])
  {
    if !f.connected then f.(notices := f.notices + [ErrorOccurred(NotConnected("start flush"))])
    else f.(sent := f.sent + [StartFlush])
  }

  /** `stopFlush`: STOP when connected, nothing else. */
  function FlushStopped(f: Facade): (g: Facade)
    ensures g == f.(sent := f.sent + (if f.connected then [Stop] else []))
  {
    if f.connected then f.(sent := f.sent + [Stop]) else f
  }

  /** `_check_connection`: PING when connected. */
  function ConnectionChecked(f: Facade): (g: Facade)
    ensures !f.connected ==> g == f
    ensures f.connected ==> g == f.(sent := f.sent + [Ping], notices := f.notices + [ConnectionChanged(true)])
  {
    if f.connected then f.(sent := f.sent + [Ping], notices := f.notices + [ConnectionChanged(true)]) else f
  }

  /** The thermostat's own loop, with its heater signals passed on. */
  function ThermostatRan(f: Facade): (g: Facade)
    ensures g.sent == f.sent && g.mode == f.mode
    ensures g.heating == Regulate(f.mode, f.heating, f.thermoTemp, Target(f.mode, f.brewTarget, f.steamTarget)).heating
    ensures f.mode == "IDLE" ==> g == f
    ensures g.notices == f.notices + (if g.heating != f.heating then [HeatingChanged(g.heating)] else [])
    ensures g == f.(heating := g.heating, notices := g.notices)
  {
    var r := Regulate(f.mode, f.heating, f.thermoTemp, Target(f.mode, f.brewTarget, f.steamTarget));
    f.(heating := r.heating, notices := f.notices + Relay(r.events))
  }

  /** The supervisor's periodic check as the facade experiences it: each
      stop is handled as soon as it is signalled, and handling it clears
      both phase timers, so the later conditions of the same check see them
      cleared. Wired so, one check stops the machine at most once, for the
      first alarm the supervisor alone would raise, and does nothing when it
      would raise none. */
  function Supervised(f: Facade, now: real): (g: Facade)
    ensures var alarms := Alarms(now, f.lastData, f.brewTimer, f.steamTimer);
      && (alarms == [] ==> g == f)
      && (alarms != [] ==> g == EmergencyStopped(f, alarms[0].reason))
  {
    var afterComm := if now - f.lastData > CommTimeout then EmergencyStopped(f, CommunicationTimeout) else f;
    var afterBrew :=
      if Armed(afterComm.brewTimer) && now - afterComm.brewTimer.value > MaxBrewTime
      then EmergencyStopped(afterComm, BrewTimeout) else afterComm;
    if Armed(afterBrew.steamTimer) && now - afterBrew.steamTimer.value > MaxSteamTime
    then EmergencyStopped(afterBrew, SteamTimeout) else afterBrew
  }

  /** `f"{minutes:02}:{seconds:02}"`, the text of the brew clock. */
  function Clock(minutes: int, seconds: int): (text: string)
    ensures |text| >= 5
    ensures 0 <= seconds < 100 ==> text[|text| - 3] == ':'
  {
    Pad2(minutes) + ":" + Pad2(seconds)
  }

  /** Reading an `mm:ss` text back as seconds. */
  function ParseClock(text: string): Option<int> {
    var parts := Split(text, ':');
    if |parts| != 2 then None
    else
      match (ParseInt(parts[0]), ParseInt(parts[1]))
      case (Some(m), Some(s)) => Some(m * 60 + s)
      case _ => None
  }

  /** The brew clock reads back as the seconds it shows, and its last two
      characters are the seconds as two digits. */
  lemma ClockRoundTrip(minutes: nat, seconds: nat)
    requires seconds < 60
    ensures var text := Clock(minutes, seconds);
      && ParseClock(text) == Some(minutes * 60 + seconds)
      && var secs := text[|text| - 2..]; |secs| == 2 && AllDigits(secs) && DigitsValue(secs) == seconds
  {
    var m, s := Pad2(minutes), Pad2(seconds);
    ParsePad2(minutes);
    ParsePad2(seconds);
    ParseClockOf(m, s, minutes, seconds);
    assert Clock(minutes, seconds)[|Clock(minutes, seconds)| - 2..] == s;
  }

  /** Two colon-free numerals around one colon read as minutes and seconds. */
  lemma ParseClockOf(minutes: string, seconds: string, m: int, s: int)
    requires ':' !in minutes && ':' !in seconds
    requires ParseInt(minutes) == Some(m) && ParseInt(seconds) == Some(s)
    ensures ParseClock(minutes + ":" + seconds) == Some(m * 60 + s)
  {
    SplitTwo(minutes, seconds);
  }

  lemma SplitTwo(minutes: string, seconds: string)
    requires ':' !in minutes && ':' !in seconds
    ensures Split(minutes + ":" + seconds, ':') == [minutes, seconds]
  {
    var parts := [minutes, seconds];
    assert Join(parts[1..], ':') == seconds;
    SplitJoin(parts, ':');
  }

  /** A padded natural number reads back as itself and holds no colon. */
  lemma ParsePad2(n: nat)
    ensures ParseInt(Pad2(n)) == Some(n)
    ensures ':' !in Pad2(n)
  {
    var t := Pad2(n);
    assert IsDigit(t[0]) && IsDigit(t[|t| - 1]);
    StripNumeral(t);
  }

  /** `_update_brew_time`: while the brew clock holds a start time, show the
      whole seconds elapsed as minutes and seconds. */
  function BrewTimeShown(f: Facade, now: real): (g: Facade)
    ensures !Armed(f.brewStart) ==> g == f
    ensures Armed(f.brewStart) ==> exists text :: g == f.(notices := f.notices + [BrewTimeChanged(text)])
  {
    if Armed(f.brewStart) then
      var elapsed := Trunc(now - f.brewStart.value);
      f.(notices := f.notices + [BrewTimeChanged(Clock(elapsed / 60, elapsed % 60))])
    else f
  }

  /** The text shown splits the whole seconds elapsed into minutes and
      seconds below 60. */
  lemma BrewTimeSplit(f: Facade, now: real)
    requires Armed(f.brewStart)
    ensures exists minutes, seconds ::
      && 0 <= seconds < 60
      && minutes * 60 + seconds == Trunc(now - f.brewStart.value)
      && BrewTimeShown(f, now) == f.(notices := f.notices + [BrewTimeChanged(Clock(minutes, seconds))])
  {
    var elapsed := Trunc(now - f.brewStart.value);
    var minutes, seconds := elapsed / 60, elapsed % 60;
    assert minutes * 60 + seconds == elapsed;
    assert BrewTimeShown(f, now) == f.(notices := f.notices + [BrewTimeChanged(Clock(minutes, seconds))]);
  }

  /** The controller object, holding its supervisor and thermostat. */
  class CoffeeController {
    const safety: SafetyManager
    const thermo: TemperatureController
    var connected: bool
    var currentState: string
    var brewStart: Option<real>
    var clockRunning: bool
    var sent: seq<Command>
    var notices: seq<Notice>

    /** The facade as one value. */
    function Snapshot(): Facade
      reads this, safety, thermo
    {
      Facade(connected, currentState, brewStart, clockRunning, sent, notices,
             thermo.mode, thermo.heating, thermo.brewTarget, thermo.steamTarget, thermo.currentTemp,
             safety.lastDataTime, safety.brewStartTime, safety.steamStartTime)
    }

    constructor(now: real, serialUp: bool)
      ensures Snapshot() == Initial(now, serialUp)
      ensures fresh(safety) && fresh(thermo)
    {
      safety := new SafetyManager(now);
      thermo := new TemperatureController();
      connected := serialUp;
      currentState := "IDLE";
      brewStart := None;
      clockRunning := false;
      sent := [];
      notices := [ConnectionChanged(serialUp)];
    }

    /** `_handle_serial_data`. */
    method HandleSerialData(line: string, now: real)
      modifies this, safety, thermo
      ensures Snapshot() == Received(old(Snapshot()), line, now)
    {
      safety.UpdateDataTimestamp(now);
      if DataPrefix <= line {
        ReadData(line, now);
      } else if "STATUS" <= line {
        ReadStatus(line, now);
      } else if "ERROR" <= line {
        notices := notices + [ErrorOccurred(MachineError(line))];
      }
    }

    /** The DATA branch of `_handle_serial_data`, once the data timestamp is
        refreshed. */
    method ReadData(line: string, now: real)
      requires DataPrefix <= line && safety.lastDataTime == now
      modifies this, safety, thermo
      ensures Snapshot() == Received(old(Snapshot()), line, now)
    {
      var data := DecodeData(line);
      if data.Some? {
        var r := data.value;
        var name := StateName(r.stateIndex);
        if name.Some? {
          currentState := name.value;
          ProcessReading(name.value, r.temp, r.pressure, r.weight);
        }
      }
    }

    /** The legacy STATUS branch of `_handle_serial_data`, once the data
        timestamp is refreshed. */
    method ReadStatus(line: string, now: real)
      requires !(DataPrefix <= line) && "STATUS" <= line && safety.lastDataTime == now
      modifies this, safety, thermo
      ensures Snapshot() == Received(old(Snapshot()), line, now)
    {
      var status := DecodeLegacy(line);
      if status.Some? {
        var s := status.value;
        ProcessReading(s.state, s.temp, s.pressure, s.weight);
      }
    }

    /** The part of `_handle_serial_data` shared by DATA and STATUS lines. */
    method ProcessReading(name: string, temp: real, pressure: real, weight: real)
      modifies this, safety, thermo
      ensures Snapshot() == Accepted(old(Snapshot()), name, temp, pressure, weight)
    {
      var verdict := CheckTemperature(temp);
      DispatchEvents(verdict.events);
      if !verdict.ok {
        return;
      }
      thermo.UpdateTemperature(temp);
      notices := notices + [StateChanged(name), TemperatureChanged(temp), PressureChanged(pressure), WeightChanged(weight)];
    }

    /** The supervisor's signals, delivered one by one to their slots. */
    method DispatchEvents(events: seq<Event>)
      modifies this, safety, thermo
      ensures Snapshot() == Dispatch(old(Snapshot()), events)
    {
      var i := 0;
      while i < |events|
        invariant 0 <= i <= |events|
        invariant Snapshot() == Dispatch(old(Snapshot()), events[..i])
      {
        assert events[..i + 1][..i] == events[..i];
        Deliver(events[i]);
        i := i + 1;
      }
      assert events[..i] == events;
    }

    /** One signal of the supervisor: `_emergency_stop` or `_handle_warning`. */
    method Deliver(e: Event)
      modifies this, safety, thermo
      ensures Snapshot() == React(old(Snapshot()), e)
    {
      match e
      case EmergencyStop(reason) => EmergencyStop(reason);
      case Warning(temp) => notices := notices + [WarningIssued(temp)];
    }

    /** `_emergency_stop`. */
    method EmergencyStop(reason: Reason)
      modifies this, safety, thermo
      ensures Snapshot() == EmergencyStopped(old(Snapshot()), reason)
    {
      notices := notices + [ErrorOccurred(Emergency(reason))];
      if connected {
        sent := sent + [Abort];
      }
      SwitchMode("IDLE");
      safety.StopBrewTimer();
      safety.StopSteamTimer();
      clockRunning := false;
    }

    /** `emergencyStop`: the user's emergency button. */
    method ManualEmergencyStop()
      modifies this, safety, thermo
      ensures Snapshot() == EmergencyStopped(old(Snapshot()), Manual)
    {
      EmergencyStop(Manual);
    }

    /** `temp_controller.set_mode`, with the heater signal passed on. */
    method SwitchMode(mode: string)
      modifies this, thermo
      ensures Snapshot() == ModeSet(old(Snapshot()), mode)
    {
      var events := thermo.SetMode(mode);
      notices := notices + Relay(events);
    }

    /** `setTemperatures`. */
    method SetTemperatures(brew: real, steam: real)
      modifies this, thermo
      ensures Snapshot() == TemperaturesSet(old(Snapshot()), brew, steam)
    {
      var b := Clamp(BrewLow, BrewHigh, brew);
      var s := Clamp(SteamLow, SteamHigh, steam);
      thermo.SetBrewTarget(b);
      thermo.SetSteamTarget(s);
      if connected {
        sent := sent + [SetTemp(Brew, b), SetTemp(Steam, s)];
      }
    }

    /** `startBrew`. */
    method StartBrew(now: real)
      modifies this, safety, thermo
      ensures Snapshot() == BrewStarted(old(Snapshot()), now)
    {
      if !connected {
        notices := notices + [ErrorOccurred(NotConnected("start brew"))];
        return;
      }
      if currentState != "IDLE" {
        notices := notices + [ErrorOccurred(NotIdle)];
        return;
      }
      SwitchMode("BREW");
      safety.StartBrewTimer(now);
      sent := sent + [Command.StartBrew];
    }

    /** `beginBrew`. */
    method BeginBrew(now: real)
      modifies this
      ensures Snapshot() == BrewBegun(old(Snapshot()), now)
    {
      if !connected {
        notices := notices + [ErrorOccurred(NotConnected("begin brew"))];
        return;
      }
      sent := sent + [TareScales, Command.BeginBrew];
      brewStart := Some(now);
      clockRunning := true;
    }

    /** `stopBrew`. */
    method StopBrew()
      modifies this, safety, thermo
      ensures Snapshot() == BrewStopped(old(Snapshot()))
    {
      if connected {
        sent := sent + [Stop];
      }
      SwitchMode("IDLE");
      safety.StopBrewTimer();
      clockRunning := false;
      brewStart := None;
      notices := notices + [BrewTimeChanged("00:00")];
    }

    /** `startSteam`. */
    method StartSteam(now: real)
      modifies this, safety, thermo
      ensures Snapshot() == SteamStarted(old(Snapshot()), now)
    {
      if !connected {
        notices := notices + [ErrorOccurred(NotConnected("start steam"))];
        return;
      }
      SwitchMode("STEAM");
      safety.StartSteamTimer(now);
      sent := sent + [Command.StartSteam];
    }

    /** `stopSteam`. */
    method StopSteam()
      modifies this, safety, thermo
      ensures Snapshot() == SteamStopped(old(Snapshot()))
    {
      if connected {
        sent := sent + [Stop];
      }
      SwitchMode("IDLE");
      safety.StopSteamTimer();
    }

    /** `startFlush`. */
    method StartFlush()
      modifies this
      ensures Snapshot() == FlushStarted(old(Snapshot()))
    {
      if !connected {
        notices := notices + [ErrorOccurred(NotConnected("start flush"))];
        return;
      }
      sent := sent + [Command.StartFlush];
    }

    /** `stopFlush`. */
    method StopFlush()
      modifies this
      ensures Snapshot() == FlushStopped(old(Snapshot()))
    {
      if connected {
        sent := sent + [Stop];
      }
    }

    /** `_check_connection`. */
    method CheckConnection()
      modifies this
      ensures Snapshot() == ConnectionChecked(old(Snapshot()))
    {
      if connected {
        sent := sent + [Ping];
        notices := notices + [ConnectionChanged(true)];
      }
    }

    /** One run of the thermostat's loop, its signals passed on. */
    method RunThermostat()
      modifies this, thermo
      ensures Snapshot() == ThermostatRan(old(Snapshot()))
    {
      var events := thermo.ControlLoop();
      notices := notices + Relay(events);
    }

    /** One run of the supervisor's periodic check, each stop delivered as
      it is signalled. */
    method Supervise(now: real)
      modifies this, safety, thermo
      ensures Snapshot() == Supervised(old(Snapshot()), now)
    {
      if now - safety.lastDataTime > CommTimeout {
        EmergencyStop(CommunicationTimeout);
      }
      if Armed(safety.brewStartTime) && now - safety.brewStartTime.value > MaxBrewTime {
        EmergencyStop(BrewTimeout);
      }
      if Armed(safety.steamStartTime) && now - safety.steamStartTime.value > MaxSteamTime {
        EmergencyStop(SteamTimeout);
      }
    }

    /** `_update_brew_time`. */
    method UpdateBrewTime(now: real)
      modifies this
      ensures Snapshot() == BrewTimeShown(old(Snapshot()), now)
    {
      if Armed(brewStart) {
        var elapsed := Trunc(now - brewStart.value);
        var minutes := elapsed / 60;
        var seconds := elapsed % 60;
        notices := notices + [BrewTimeChanged(Clock(minutes, seconds))];
      }
    }
  }
}
