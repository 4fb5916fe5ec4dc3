/** The simulated espresso machine that stands in for the Arduino firmware:
    a six-state machine that interprets one command line at a time, replies
    with exactly one line (or none), and on every tick drives its heater and
    pump by fixed per-state rules.

    The state of the machine is described twice: as the value `Machine`, on
    which the transition functions `Handle` and `Tick` are written and the
    properties are proved, and as the class `SerialManager`, whose fields the
    methods update in place and whose every method is proved to move its
    fields exactly as the matching function says. */
module MockSerial {
  import opened Text
  import opened Numbers
  import opened Protocol

  datatype MachineState = Idle | HeatingBrew | HeatingSteam | Brewing | Steaming | Flushing

  /** The number the firmware uses for a state (the `STATE_*` constants). */
  function Code(s: MachineState): (n: nat)
    ensures n < 6
    ensures s == Idle <==> n == 0
    ensures s == Brewing <==> n == 3
  {
    match s
    case Idle => 0
    case HeatingBrew => 1
    case HeatingSteam => 2
    case Brewing => 3
    case Steaming => 4
    case Flushing => 5
  }

  /** Different states are sent as different numbers. */
  lemma CodeInjective(s: MachineState, t: MachineState)
    ensures Code(s) == Code(t) ==> s == t
  {
  }

  /** Every field of the simulated machine. */
  datatype Machine = Machine(
    connected: bool,
    state: MachineState,
    brewTemp: real,
    steamTemp: real,
    currentTemp: real,
    pressure: real,
    weight: real,
    pumpPower: int,
    valveOpen: bool,
    heaterOn: bool,
    brewTimer: int,
    scalesTared: bool)

  /** A freshly built, not yet started machine. */
  function Init(): (m: Machine)
    ensures !m.connected && m.state == Idle
    ensures m.brewTemp == 93.0 && m.steamTemp == 130.0 && m.currentTemp == 25.0
    ensures m.pumpPower == 0 && !m.valveOpen && !m.heaterOn && m.brewTimer == 0 && !m.scalesTared
  {
    Machine(false, Idle, 93.0, 130.0, 25.0, 0.0, 0.0, 0, false, false, 0, false)
  }

  /** What a command produces on the reply line: nothing, the ValueError
      that `float()` raises out of the command handler, or one reply. */
  datatype Reply = Silent | Raised | Emit(response: Response)

  datatype Outcome = Outcome(machine: Machine, reply: Reply)

  /** The status dump sent for GET_STATUS. */
  function Report(m: Machine): (r: StatusReport)
    ensures r.state == Code(m.state) && r.temp == m.currentTemp
    ensures r.brewTemp == m.brewTemp && r.steamTemp == m.steamTemp
    ensures r.pressure == m.pressure && r.weight == m.weight
    ensures 0 <= m.pumpPower <= 255 ==> 0 <= r.pumpPercent <= 100
    ensures 0 <= m.pumpPower ==> (r.pumpPercent == 0 <==> m.pumpPower < 3)
    ensures r.pumpPercent == PumpPercent(m.pumpPower)
    ensures r.valve == m.valveOpen && r.heater == m.heaterOn
  {
    StatusReport(Code(m.state), m.currentTemp, m.brewTemp, m.steamTemp, m.pressure, m.weight,
                 PumpPercent(m.pumpPower), m.valveOpen, m.heaterOn)
  }

  /** `int(power / 255 * 100)`: the pump power as a whole percentage,
      truncated toward zero; a power in 0..255 gives 0..100. */
  function PumpPercent(power: int): (p: int)
    ensures 0 <= power <= 255 ==> 0 <= p <= 100
    ensures power >= 0 ==> p * 255 <= power * 100 < (p + 1) * 255
    ensures power < 0 ==> -p * 255 <= -power * 100 < (-p + 1) * 255
  {
    if power >= 0 then power * 100 / 255 else -((-power) * 100 / 255)
  }

  /** `_stop_current_operation`: back to Idle with every actuator off. */
  function Halted(m: Machine): (h: Machine)
    ensures h.state == Idle && h.pumpPower == 0 && !h.heaterOn && !h.valveOpen && h.brewTimer == 0
    ensures h.connected == m.connected && h.brewTemp == m.brewTemp && h.steamTemp == m.steamTemp
    ensures h.currentTemp == m.currentTemp && h.pressure == m.pressure && h.weight == m.weight
    ensures h.scalesTared == m.scalesTared
  {
    m.(state := Idle, pumpPower := 0, heaterOn := false, valveOpen := false, brewTimer := 0)
  }

  /** Halting a halted machine changes nothing. */
  lemma HaltedIdempotent(m: Machine)
    ensures Halted(Halted(m)) == Halted(m)
  {
  }

  /** `send_command`: ignored while disconnected; otherwise the stripped line
      is read (see `Protocol.Decode`) and carried out. `nowMs` is the
      millisecond clock the brew timer is started from. */
  function Handle(m: Machine, line: string, nowMs: int): (o: Outcome)
    ensures !m.connected ==> o == Outcome(m, Silent)
    ensures m.connected ==> (o.reply == Silent <==> Decode(line) == Blank)
    ensures o.machine.connected == m.connected
  {
    if !m.connected then Outcome(m, Silent) else Execute(m, Decode(line), nowMs)
  }

  /** One decoded command, carried out on a connected machine. */
  function Execute(m: Machine, request: Request, nowMs: int): (o: Outcome)
    ensures o.machine.connected == m.connected
    ensures o.reply == Silent <==> request == Blank
  {
    match request
    case Blank => Outcome(m, Silent)
    case Unrecognised => Outcome(m, Emit(Error("UNKNOWN_COMMAND")))
    case BadNumber(_) => Outcome(m, Raised)
    case Known(command) =>
      match command
      case SetTemp(Brew, v) =>
        if 60.0 <= v <= 110.0 then Outcome(m.(brewTemp := v), Emit(Ok("BREW_TEMP_SET")))
        else Outcome(m, Emit(Error("BREW_TEMP_OUT_OF_RANGE")))
      case SetTemp(Steam, v) =>
        if 60.0 <= v <= 150.0 then Outcome(m.(steamTemp := v), Emit(Ok("STEAM_TEMP_SET")))
        else Outcome(m, Emit(Error("STEAM_TEMP_OUT_OF_RANGE")))
      case StartBrew =>
        if m.state == Idle then Outcome(m.(state := HeatingBrew), Emit(Ok("BREW_STARTED")))
        else Outcome(m, Emit(Error("NOT_IDLE")))
      case StartSteam =>
        if m.state == Idle then Outcome(m.(state := HeatingSteam), Emit(Ok("STEAM_STARTED")))
        else Outcome(m, Emit(Error("NOT_IDLE")))
      case StartFlush =>
        if m.state == Idle then Outcome(m.(state := Flushing, valveOpen := true), Emit(Ok("FLUSH_STARTED")))
        else Outcome(m, Emit(Error("NOT_IDLE")))
      case BeginBrew =>
        if m.state == HeatingBrew then
          Outcome(m.(state := Brewing, brewTimer := nowMs, scalesTared := true, valveOpen := true),
                  Emit(Ok("BREWING_STARTED")))
        else Outcome(m, Emit(Error("INVALID_STATE_FOR_BREW_NOW")))
      case Stop => Outcome(Halted(m), Emit(Ok("STOPPED")))
      case TareScales => Outcome(m.(scalesTared := true), Emit(Ok("SCALES_TARED")))
      case GetStatus =>
        Outcome(m, Emit(Status(Report(m))))
      case Ping => Outcome(m, Emit(Pong))
      case Abort => Outcome(Halted(m), Emit(Ok("ABORTED")))
  }

  /** The facts every reachable machine satisfies. */
  predicate Consistent(m: Machine) {
    && 60.0 <= m.brewTemp <= 110.0
    && 60.0 <= m.steamTemp <= 150.0
    && 20.0 <= m.currentTemp <= 160.0
    && 0.0 <= m.pressure <= 12.0
    && m.state != Steaming
    && (m.pumpPower == 0 || ((m.state == Brewing || m.state == Flushing) && 50 <= m.pumpPower <= 255))
    && (m.valveOpen ==> m.state == Brewing || m.state == Flushing)
    && (m.heaterOn ==> m.state == HeatingBrew || m.state == HeatingSteam || m.state == Brewing)
    && (m.brewTimer != 0 ==> m.state == Brewing)
  }

  lemma InitConsistent()
    ensures Consistent(Init())
  {
  }

  /** A refused command (an error reply, no reply at all, or a raised
      error) leaves every field as it was. */
  lemma RefusalChangesNothing(m: Machine, line: string, nowMs: int)
    ensures var o := Handle(m, line, nowMs);
      (o.reply.Silent? || o.reply.Raised? || (o.reply.Emit? && o.reply.response.Error?)) ==> o.machine == m
  {
    if m.connected {
      ExecuteRefusal(m, Decode(line), nowMs);
    }
  }

  /** Any request the machine refuses, whatever reply it gives, changes nothing. */
  lemma ExecuteRefusal(m: Machine, request: Request, nowMs: int)
    ensures var o := Execute(m, request, nowMs);
      (o.reply.Silent? || o.reply.Raised? || (o.reply.Emit? && o.reply.response.Error?)) ==> o.machine == m
  {
  }

  /** Any command keeps a consistent machine consistent. */
  lemma HandleConsistent(m: Machine, line: string, nowMs: int)
    requires Consistent(m)
    ensures Consistent(Handle(m, line, nowMs).machine)
  {
    if m.connected {
      ExecuteConsistent(m, Decode(line), nowMs);
    }
  }

  lemma ExecuteConsistent(m: Machine, request: Request, nowMs: int)
    requires Consistent(m)
    ensures Consistent(Execute(m, request, nowMs).machine)
  {
    if request.Known? {
      CommandConsistent(m, request.command, nowMs);
    }
  }

  lemma CommandConsistent(m: Machine, c: Command, nowMs: int)
    requires Consistent(m)
    ensures Consistent(Execute(m, Known(c), nowMs).machine)
  {
    if c.SetTemp? {
      SetTempConsistent(m, c.zone, c.celsius, nowMs);
    } else if c == StartBrew || c == StartSteam || c == StartFlush || c == BeginBrew {
      StartConsistent(m, c, nowMs);
    } else {
      UtilityConsistent(m, c, nowMs);
    }
  }

  lemma SetTempConsistent(m: Machine, zone: Zone, v: real, nowMs: int)
    requires Consistent(m)
    ensures Consistent(Execute(m, Known(SetTemp(zone, v)), nowMs).machine)
  {
  }

  lemma StartConsistent(m: Machine, c: Command, nowMs: int)
    requires Consistent(m) && (c == StartBrew || c == StartSteam || c == StartFlush || c == BeginBrew)
    ensures Consistent(Execute(m, Known(c), nowMs).machine)
  {
  }

  lemma UtilityConsistent(m: Machine, c: Command, nowMs: int)
    requires Consistent(m) && (c == Stop || c == Abort || c == TareScales || c == GetStatus || c == Ping)
    ensures Consistent(Execute(m, Known(c), nowMs).machine)
  {
    if c == Stop || c == Abort {
      assert Execute(m, Known(c), nowMs).machine == Halted(m);
    }
  }

  /** START_BREW, START_STEAM and START_FLUSH work from Idle only; elsewhere
      the reply is ERROR:NOT_IDLE and nothing changes. */
  lemma StartOnlyFromIdle(m: Machine, c: Command, nowMs: int)
    requires c == StartBrew || c == StartSteam || c == StartFlush
    ensures var o := Execute(m, Known(c), nowMs);
      && (o.reply.Emit? && o.reply.response.Ok? <==> m.state == Idle)
      && (m.state != Idle ==> o == Outcome(m, Emit(Error("NOT_IDLE"))))
      && (m.state == Idle ==>
            o.machine.state == (if c == StartBrew then HeatingBrew else if c == StartSteam then HeatingSteam else Flushing)
            && o.machine.valveOpen == (c == StartFlush || m.valveOpen)
            && o.machine == m.(state := o.machine.state, valveOpen := o.machine.valveOpen))
  {
  }

  /** BEGIN_BREW (which the line BREW_NOW also names, see
      `Protocol.BrewNowSpelling`) works from HeatingBrew only: the brew starts
      with the scales tared, the valve open and the timer set. */
  lemma BeginBrewOnlyWhenHeated(m: Machine, nowMs: int)
    ensures var o := Execute(m, Known(BeginBrew), nowMs);
      && (m.state == HeatingBrew ==>
            o.reply == Emit(Ok("BREWING_STARTED"))
            && o.machine == m.(state := Brewing, brewTimer := nowMs, scalesTared := true, valveOpen := true))
      && (m.state != HeatingBrew ==> o == Outcome(m, Emit(Error("INVALID_STATE_FOR_BREW_NOW"))))
  {
  }

  /** STOP and ABORT work from every state, always reply OK and leave the
      machine halted; carrying them out twice is the same as once. */
  lemma StopAlwaysHalts(m: Machine, c: Command, nowMs: int, laterMs: int)
    requires c == Stop || c == Abort
    ensures var o := Execute(m, Known(c), nowMs);
      && o.machine == Halted(m)
      && o.reply == Emit(Ok(if c == Stop then "STOPPED" else "ABORTED"))
      && Execute(o.machine, Known(c), laterMs) == o
  {
    HaltedIdempotent(m);
  }

  /** A SET_TEMP line changes its zone's target exactly when the value is in
      the accepted range, and nothing else; an out-of-range value gets the
      zone's OUT_OF_RANGE error. */
  lemma SetTempInRangeOnly(m: Machine, zone: Zone, tenths: nat, nowMs: int)
    requires m.connected
    ensures var v := tenths as real / 10.0;
      var hi := if zone == Brew then 110.0 else 150.0;
      var o := Handle(m, SetTempLine(zone, tenths), nowMs);
      && (60.0 <= v <= hi ==>
            o.machine == (if zone == Brew then m.(brewTemp := v) else m.(steamTemp := v))
            && o.reply == Emit(Ok(if zone == Brew then "BREW_TEMP_SET" else "STEAM_TEMP_SET")))
      && (!(60.0 <= v <= hi) ==>
            o == Outcome(m, Emit(Error(if zone == Brew then "BREW_TEMP_OUT_OF_RANGE" else "STEAM_TEMP_OUT_OF_RANGE"))))
  {
    DecodeSetTempLine(zone, tenths);
  }

  /** SET_TEMP with any value, as read from its line: the zone's target
      becomes the value exactly when it is in the accepted range, and nothing
      else changes; otherwise the zone's OUT_OF_RANGE error and no change. */
  lemma SetTempAnyValue(m: Machine, zone: Zone, v: real, nowMs: int)
    ensures var hi := if zone == Brew then 110.0 else 150.0;
      var o := Execute(m, Known(SetTemp(zone, v)), nowMs);
      && (60.0 <= v <= hi ==>
            o.machine == (if zone == Brew then m.(brewTemp := v) else m.(steamTemp := v))
            && o.reply == Emit(Ok(if zone == Brew then "BREW_TEMP_SET" else "STEAM_TEMP_SET")))
      && (!(60.0 <= v <= hi) ==>
            o == Outcome(m, Emit(Error(if zone == Brew then "BREW_TEMP_OUT_OF_RANGE" else "STEAM_TEMP_OUT_OF_RANGE"))))
  {
  }

  /** A line that is blank once stripped gets no reply; any other line that
      names no command gets ERROR:UNKNOWN_COMMAND; neither changes anything. */
  lemma BlankAndUnknownLines(m: Machine, line: string, nowMs: int)
    requires m.connected
    ensures var o := Handle(m, line, nowMs);
      && ((forall k :: 0 <= k < |line| ==> IsSpace(line[k])) ==> o == Outcome(m, Silent))
      && (Decode(line) == Unrecognised ==> o == Outcome(m, Emit(Error("UNKNOWN_COMMAND"))))
  {
  }

  /** The random quantities one tick draws, one per `random` call of the
      simulator; `Drawn` holds when each lies in the range it is drawn from. */
  datatype Draws = Draws(
    heatFast: real, heatMedium: real, heatSlow: real, cooling: real,
    pump: int, pressureBrewing: real, pressureIdle: real,
    weightNoise: real, weightIdle: real)

  predicate Drawn(d: Draws) {
    && 0.5 <= d.heatFast <= 2.0
    && 0.2 <= d.heatMedium <= 1.0
    && 0.1 <= d.heatSlow <= 0.5
    && 0.1 <= d.cooling <= 0.3
    && 50 <= d.pump <= 255
    && 6.0 <= d.pressureBrewing <= 12.0
    && 0.0 <= d.pressureIdle <= 1.0
    && -2.0 <= d.weightNoise <= 2.0
    && -1.0 <= d.weightIdle <= 1.0
  }

  /** `_control_heater`: a zero target switches the heater off and returns at
      once; otherwise three bands of the gap to the target switch it on with a
      large, medium or small warming step, a heater left off lets the water
      cool above 25 degrees, and the result is clamped to [20, 160]. */
  function Heat(m: Machine, target: real, d: Draws): (h: Machine)
    requires Drawn(d)
    ensures target == 0.0 ==> h == m.(heaterOn := false)
    ensures target != 0.0 ==> (h.heaterOn <==> target - m.currentTemp > 0.5)
    ensures target != 0.0 ==> 20.0 <= h.currentTemp <= 160.0
    ensures h == m.(heaterOn := h.heaterOn, currentTemp := h.currentTemp)
  {
    if target == 0.0 then m.(heaterOn := false)
    else
      var gap := target - m.currentTemp;
      var on := gap > 0.5;
      var warmed := m.currentTemp + (if gap > 5.0 then d.heatFast else if gap > 1.0 then d.heatMedium else if on then d.heatSlow else 0.0);
      var cooled := if !on && warmed > 25.0 then warmed - d.cooling else warmed;
      m.(heaterOn := on, currentTemp := Clamp(20.0, 160.0, cooled))
  }

  /** Whatever the target, the water warms only while the heater is on. */
  lemma WarmsOnlyIfOn(m: Machine, target: real, d: Draws)
    requires Drawn(d) && 20.0 <= m.currentTemp
    ensures var h := Heat(m, target, d);
      h.currentTemp > m.currentTemp ==> h.heaterOn
  {
  }

  /** Below the clamp's ceiling, the water warms exactly when the heater is
      on. */
  lemma WarmsOnlyWhenOn(m: Machine, target: real, d: Draws)
    requires Drawn(d) && 20.0 <= m.currentTemp && target <= 158.0
    ensures var h := Heat(m, target, d);
      && (h.currentTemp > m.currentTemp ==> h.heaterOn)
      && (h.heaterOn ==> h.currentTemp > m.currentTemp)
  {
  }

  /** `_control_pump`: a random power while enabled in Brewing or Flushing,
      otherwise off. */
  function Pump(m: Machine, enable: bool, draw: int): (p: Machine)
    requires 50 <= draw <= 255
    ensures p.pumpPower != 0 <==> enable && (m.state == Brewing || m.state == Flushing)
    ensures p == m.(pumpPower := p.pumpPower)
  {
    if enable && (m.state == Brewing || m.state == Flushing) then m.(pumpPower := draw)
    else m.(pumpPower := 0)
  }

  /** `_update_sensors`: brewing pressure while the pump runs in Brewing, idle
      pressure otherwise; in Brewing the cup weight grows with the seconds
      since the brew timer started, capped at 50 g. */
  function Sense(m: Machine, d: Draws, nowMs: int): (s: Machine)
    requires Drawn(d)
    ensures 0.0 <= s.pressure <= 12.0
    ensures s.state == Brewing ==> s.weight <= 50.0
    ensures s.state != Brewing ==> -1.0 <= s.weight <= 1.0
    ensures s == m.(pressure := s.pressure, weight := s.weight)
  {
    var pressure := if m.state == Brewing && m.pumpPower > 0 then d.pressureBrewing else d.pressureIdle;
    var elapsed := if m.brewTimer > 0 then (nowMs - m.brewTimer) as real / 1000.0 else 0.0;
    var weight := if m.state == Brewing then (if elapsed * 0.8 + d.weightNoise < 50.0 then elapsed * 0.8 + d.weightNoise else 50.0)
                  else d.weightIdle;
    m.(pressure := pressure, weight := weight)
  }

  /** `_update_system`: the per-state actuator rules, then the sensors. The
      heating states and Brewing heat toward their zone's setpoint, Brewing
      and Flushing run the pump at the drawn power, Idle switches everything
      off without touching the water, and no state moves an actuator its rule
      does not name. */
  function Tick(m: Machine, d: Draws, nowMs: int): (t: Machine)
    requires Drawn(d)
    ensures t.state == m.state && t.connected == m.connected && t.scalesTared == m.scalesTared
    ensures t.brewTemp == m.brewTemp && t.steamTemp == m.steamTemp && t.brewTimer == m.brewTimer
    ensures m.state == Idle ==> !t.heaterOn && t.pumpPower == 0 && !t.valveOpen && t.currentTemp == m.currentTemp
    ensures m.state == HeatingBrew || m.state == Brewing ==>
      t.heaterOn == Heat(m, m.brewTemp, d).heaterOn && t.currentTemp == Heat(m, m.brewTemp, d).currentTemp
    ensures m.state == HeatingSteam || m.state == Steaming ==>
      t.heaterOn == Heat(m, m.steamTemp, d).heaterOn && t.currentTemp == Heat(m, m.steamTemp, d).currentTemp
    ensures m.state == Brewing || m.state == Flushing ==> t.pumpPower == d.pump && 50 <= t.pumpPower <= 255
    ensures m.state != Idle ==> t.valveOpen == m.valveOpen
    ensures m.state == HeatingBrew || m.state == HeatingSteam || m.state == Steaming ==> t.pumpPower == m.pumpPower
    ensures m.state == Flushing ==> t.heaterOn == m.heaterOn && t.currentTemp == m.currentTemp
    ensures 0.0 <= t.pressure <= 12.0
  {
    var actuated :=
      match m.state
      case HeatingBrew => Heat(m, m.brewTemp, d)
      case HeatingSteam => Heat(m, m.steamTemp, d)
      case Brewing => Pump(Heat(m, m.brewTemp, d), true, d.pump)
      case Steaming => Heat(m, m.steamTemp, d)
      case Flushing => Pump(m, true, d.pump)
      case Idle => Pump(Heat(m, 0.0, d), false, d.pump).(valveOpen := false);
    Sense(actuated, d, nowMs)
  }

  /** A tick keeps a consistent machine consistent: in particular the pump
      runs only in Brewing or Flushing, at a power in [50, 255], and the
      temperature stays in [20, 160]. */
  lemma TickConsistent(m: Machine, d: Draws, nowMs: int)
    requires Consistent(m) && Drawn(d)
    ensures Consistent(Tick(m, d, nowMs))
  {
  }

  /** The water temperature only rises while the heater is on. */
  lemma TickWarmsOnlyWhenOn(m: Machine, d: Draws, nowMs: int)
    requires Consistent(m) && Drawn(d)
    ensures var t := Tick(m, d, nowMs);
      t.currentTemp > m.currentTemp ==> t.heaterOn
  {
    if m.state == HeatingBrew || m.state == Brewing {
      WarmsOnlyWhenOn(m, m.brewTemp, d);
    } else if m.state == HeatingSteam {
      WarmsOnlyWhenOn(m, m.steamTemp, d);
    }
  }

  /** Whole seconds since the brew timer started, reported only while
      brewing with a set timer. */
  function BrewSeconds(m: Machine, nowMs: int): (s: int)
    ensures !(m.state == Brewing && m.brewTimer > 0) ==> s == 0
    ensures m.state == Brewing && m.brewTimer > 0 && nowMs >= m.brewTimer ==>
      0 <= s && s * 1000 <= nowMs - m.brewTimer < (s + 1) * 1000
  {
    if m.state == Brewing && m.brewTimer > 0 then (nowMs - m.brewTimer) / 1000 else 0
  }

  /** The numbers of the telemetry line `_send_telemetry` sends. */
  function Telemetry(m: Machine, nowMs: int): (r: Reading)
    ensures r.stateIndex == Code(m.state) && r.temp == m.currentTemp
    ensures r.pressure == m.pressure && r.weight == m.weight
    ensures 0 <= m.pumpPower <= 255 ==> 0 <= r.pumpPercent <= 100
    ensures r.pumpPercent == PumpPercent(m.pumpPower)
    ensures r.valve == (if m.valveOpen then 1 else 0) && r.heater == (if m.heaterOn then 1 else 0)
    ensures r.brewTime == BrewSeconds(m, nowMs)
  {
    Reading(Code(m.state), m.currentTemp, m.pressure, m.weight, PumpPercent(m.pumpPower),
            if m.valveOpen then 1 else 0, if m.heaterOn then 1 else 0, BrewSeconds(m, nowMs))
  }

  /** The machine that answers commands: `start()` connects it. */
  function Started(m: Machine): (s: Machine)
    ensures s.connected
    ensures forall line, nowMs :: Handle(s, line, nowMs).reply == Silent <==> Decode(line) == Blank
  {
    m.(connected := true)
  }

  /** The script's first SET_TEMP line carries 93, printed as `str()` prints
      it, and reads as that brew setpoint. */
  lemma ScriptBrewLine()
    ensures Decode("SET_TEMP BREW 93") == Known(SetTemp(Brew, 93.0))
  {
    assert DigitChar(9) == '9' && DigitChar(3) == '3';
    assert IntText(93) == "93";
    WholeNumberLine(Brew, 93);
    assert BrewPrefix + IntText(93) == "SET_TEMP BREW 93";
  }

  /** The script's out-of-range SET_TEMP line carries 200 and reads as that
      brew setpoint. */
  lemma ScriptHotLine()
    ensures Decode("SET_TEMP BREW 200") == Known(SetTemp(Brew, 200.0))
  {
    assert DigitChar(2) == '2' && DigitChar(0) == '0';
    assert IntText(200) == "200";
    WholeNumberLine(Brew, 200);
    assert BrewPrefix + IntText(200) == "SET_TEMP BREW 200";
  }

  /** The script's steam SET_TEMP line carries 130 and reads as that setpoint. */
  lemma ScriptSteamLine()
    ensures Decode("SET_TEMP STEAM 130") == Known(SetTemp(Steam, 130.0))
  {
    assert DigitChar(1) == '1' && DigitChar(3) == '3' && DigitChar(0) == '0';
    assert IntText(130) == "130";
    WholeNumberLine(Steam, 130);
    assert SteamPrefix + IntText(130) == "SET_TEMP STEAM 130";
  }

  /** The script's last line names no command. */
  lemma UnknownScriptLine()
    ensures Decode("INVALID_CMD") == Unrecognised
  {
    var bad := "INVALID_CMD";
    assert Strip(bad) == bad by {
      assert !IsSpace(bad[0]) && !IsSpace(bad[|bad| - 1]);
    }
    assert !(BrewPrefix <= bad) && !(SteamPrefix <= bad) by {
      assert bad[0] != BrewPrefix[0];
    }
    assert forall i :: 0 <= i < |Keywords| ==> Keywords[i].0 != bad;
  }

  /** The replies to a sequence of command lines sent one after the other. */
  function Replay(m: Machine, lines: seq<string>, nowMs: int): (replies: seq<Reply>)
    ensures |replies| == |lines|
    ensures !m.connected ==> forall i :: 0 <= i < |replies| ==> replies[i] == Silent
    decreases |lines|
  {
    if lines == [] then []
    else
      var o := Handle(m, lines[0], nowMs);
      [o.reply] + Replay(o.machine, lines[1..], nowMs)
  }

  /** The replies to a sequence of decoded requests carried out one after the
      other. */
  function ExecuteAll(m: Machine, requests: seq<Request>, nowMs: int): (replies: seq<Reply>)
    ensures |replies| == |requests|
    decreases |requests|
  {
    if requests == [] then []
    else
      var o := Execute(m, requests[0], nowMs);
      [o.reply] + ExecuteAll(o.machine, requests[1..], nowMs)
  }

  /** The machine after a sequence of decoded requests. */
  function After(m: Machine, requests: seq<Request>, nowMs: int): (a: Machine)
    ensures a.connected == m.connected
    decreases |requests|
  {
    if requests == [] then m else After(Execute(m, requests[0], nowMs).machine, requests[1..], nowMs)
  }

  /** Carrying out two sequences of requests is carrying out the first, then
      the second from where the first left the machine. */
  lemma {:induction false} ExecuteAllAppend(m: Machine, a: seq<Request>, b: seq<Request>, nowMs: int)
    ensures ExecuteAll(m, a + b, nowMs) == ExecuteAll(m, a, nowMs) + ExecuteAll(After(m, a, nowMs), b, nowMs)
    ensures After(m, a + b, nowMs) == After(After(m, a, nowMs), b, nowMs)
    decreases |a|
  {
    if a == [] {
      assert a + b == b;
    } else {
      assert (a + b)[0] == a[0] && (a + b)[1..] == a[1..] + b;
      var o := Execute(m, a[0], nowMs);
      ExecuteAllAppend(o.machine, a[1..], b, nowMs);
      assert ExecuteAll(m, a + b, nowMs) == [o.reply] + ExecuteAll(o.machine, a[1..] + b, nowMs);
      assert ExecuteAll(m, a, nowMs) == [o.reply] + ExecuteAll(o.machine, a[1..], nowMs);
      assert After(m, a, nowMs) == After(o.machine, a[1..], nowMs);
    }
  }

  /** A connected machine answers a sequence of lines as it answers the
      requests it reads from them. */
  lemma {:induction false} ReplayReads(m: Machine, lines: seq<string>, requests: seq<Request>, nowMs: int)
    requires m.connected && |lines| == |requests|
    requires forall i :: 0 <= i < |lines| ==> Decode(lines[i]) == requests[i]
    ensures Replay(m, lines, nowMs) == ExecuteAll(m, requests, nowMs)
    decreases |lines|
  {
    if lines != [] {
      var o := Execute(m, requests[0], nowMs);
      assert Handle(m, lines[0], nowMs) == o;
      ReplayReads(o.machine, lines[1..], requests[1..], nowMs);
    }
  }

  /** The sections of the compatibility script, as the machine reads their
      lines: setpoints carrying 93, 130 and 200 (`ScriptBrewLine`,
      `ScriptSteamLine`, `ScriptHotLine`), a brew, a steam and a flush cycle
      of keyword lines (`DecodeKeyword`), and the utility lines ending in
      `INVALID_CMD` (`UnknownScriptLine`). */
  const ScriptTemps: seq<Request> := [Known(SetTemp(Brew, 93.0)), Known(SetTemp(Steam, 130.0)), Known(SetTemp(Brew, 200.0))]
  const ScriptBrew: seq<Request> := [Known(StartBrew), Known(BeginBrew), Known(Stop)]
  const ScriptSteam: seq<Request> := [Known(StartSteam), Known(Stop)]
  const ScriptFlush: seq<Request> := [Known(StartFlush), Known(Stop)]
  const ScriptUtility: seq<Request> := [Known(TareScales), Known(Ping), Known(Abort), Unrecognised]
  const ScriptRequests: seq<Request> := ScriptTemps + ScriptBrew + ScriptSteam + ScriptFlush + ScriptUtility

  /** The replies the compatibility script expects, section by section. */
  const TempReplies: seq<Reply> := [Emit(Ok("BREW_TEMP_SET")), Emit(Ok("STEAM_TEMP_SET")), Emit(Error("BREW_TEMP_OUT_OF_RANGE"))]
  const BrewReplies: seq<Reply> := [Emit(Ok("BREW_STARTED")), Emit(Ok("BREWING_STARTED")), Emit(Ok("STOPPED"))]
  const SteamReplies: seq<Reply> := [Emit(Ok("STEAM_STARTED")), Emit(Ok("STOPPED"))]
  const FlushReplies: seq<Reply> := [Emit(Ok("FLUSH_STARTED")), Emit(Ok("STOPPED"))]
  const UtilityReplies: seq<Reply> := [Emit(Ok("SCALES_TARED")), Emit(Pong), Emit(Ok("ABORTED")), Emit(Error("UNKNOWN_COMMAND"))]
  const ScriptReplies: seq<Reply> := TempReplies + BrewReplies + SteamReplies + FlushReplies + UtilityReplies

  /** The setpoint section: 93 and 130 are taken, 200 is refused. */
  lemma TempsRun(m: Machine, nowMs: int)
    ensures ExecuteAll(m, ScriptTemps, nowMs) == TempReplies
    ensures After(m, ScriptTemps, nowMs) == m.(brewTemp := 93.0, steamTemp := 130.0)
  {
    var m1 := m.(brewTemp := 93.0);
    var m2 := m1.(steamTemp := 130.0);
    assert ExecuteAll(m2, ScriptTemps[2..], nowMs) == TempReplies[2..];
    assert ExecuteAll(m1, ScriptTemps[1..], nowMs) == TempReplies[1..];
  }

  /** A brew cycle from Idle ends Idle with every reply OK. */
  lemma BrewRun(m: Machine, nowMs: int)
    requires m.state == Idle
    ensures ExecuteAll(m, ScriptBrew, nowMs) == BrewReplies
    ensures After(m, ScriptBrew, nowMs).state == Idle
  {
    var m1 := m.(state := HeatingBrew);
    var m2 := m1.(state := Brewing, brewTimer := nowMs, scalesTared := true, valveOpen := true);
    assert ExecuteAll(m2, ScriptBrew[2..], nowMs) == BrewReplies[2..];
    assert ExecuteAll(m1, ScriptBrew[1..], nowMs) == BrewReplies[1..];
    assert After(m2, ScriptBrew[2..], nowMs).state == Idle;
  }

  /** A steam cycle from Idle ends Idle with every reply OK. */
  lemma SteamRun(m: Machine, nowMs: int)
    requires m.state == Idle
    ensures ExecuteAll(m, ScriptSteam, nowMs) == SteamReplies
    ensures After(m, ScriptSteam, nowMs).state == Idle
  {
    var m1 := m.(state := HeatingSteam);
    assert ExecuteAll(m1, ScriptSteam[1..], nowMs) == SteamReplies[1..];
    assert After(m1, ScriptSteam[1..], nowMs).state == Idle;
  }

  /** A flush cycle from Idle ends Idle with every reply OK. */
  lemma FlushRun(m: Machine, nowMs: int)
    requires m.state == Idle
    ensures ExecuteAll(m, ScriptFlush, nowMs) == FlushReplies
    ensures After(m, ScriptFlush, nowMs).state == Idle
  {
    var m1 := m.(state := Flushing, valveOpen := true);
    assert ExecuteAll(m1, ScriptFlush[1..], nowMs) == FlushReplies[1..];
    assert After(m1, ScriptFlush[1..], nowMs).state == Idle;
  }

  /** The utility section gets its replies from any machine. */
  lemma UtilityRun(m: Machine, nowMs: int)
    ensures ExecuteAll(m, ScriptUtility, nowMs) == UtilityReplies
  {
    var m1 := m.(scalesTared := true);
    var m3 := Halted(m1);
    assert ExecuteAll(m3, ScriptUtility[3..], nowMs) == UtilityReplies[3..];
    assert ExecuteAll(m1, ScriptUtility[2..], nowMs) == UtilityReplies[2..];
    assert ExecuteAll(m1, ScriptUtility[1..], nowMs) == UtilityReplies[1..];
  }

  /** The script's commands, carried out one after the other on a freshly
      started machine, get the replies the script expects. */
  lemma ScriptRun(nowMs: int)
    ensures ExecuteAll(Started(Init()), ScriptRequests, nowMs) == ScriptReplies
  {
    var m0 := Started(Init());
    var a := ScriptTemps;
    var b := a + ScriptBrew;
    var c := b + ScriptSteam;
    var d := c + ScriptFlush;
    TempsRun(m0, nowMs);
    ExecuteAllAppend(m0, a, ScriptBrew, nowMs);
    BrewRun(After(m0, a, nowMs), nowMs);
    ExecuteAllAppend(m0, b, ScriptSteam, nowMs);
    SteamRun(After(m0, b, nowMs), nowMs);
    ExecuteAllAppend(m0, c, ScriptFlush, nowMs);
    FlushRun(After(m0, c, nowMs), nowMs);
    ExecuteAllAppend(m0, d, ScriptUtility, nowMs);
    UtilityRun(After(m0, d, nowMs), nowMs);
  }

  /** The lines of the compatibility script, sent one after the other to a
      freshly started machine, get exactly the replies the script expects:
      any lines that read as the script's lines do (see `ScriptRequests`). */
  lemma CompatibilityVectors(nowMs: int, lines: seq<string>)
    requires |lines| == |ScriptRequests|
    requires forall i :: 0 <= i < |lines| ==> Decode(lines[i]) == ScriptRequests[i]
    ensures Replay(Started(Init()), lines, nowMs) == ScriptReplies
  {
    ReplayReads(Started(Init()), lines, ScriptRequests, nowMs);
    ScriptRun(nowMs);
  }

  /** A SET_TEMP line carrying a whole number reads as that number. */
  lemma WholeNumberLine(zone: Zone, n: nat)
    ensures Decode((if zone == Brew then BrewPrefix else SteamPrefix) + IntText(n)) == Known(SetTemp(zone, n as real))
  {
    ParseFloatOfInt(n);
    DecodeSetTemp(zone, IntText(n));
  }

  /** The simulator object: its fields are the machine's, updated in place
      by each command and each tick. */
  class SerialManager {
    var connected: bool
    var state: MachineState
    var brewTemp: real
    var steamTemp: real
    var currentTemp: real
    var pressure: real
    var weight: real
    var pumpPower: int
    var valveOpen: bool
    var heaterOn: bool
    var brewTimer: int
    var scalesTared: bool

    /** The fields, read as one machine value. */
    function Snapshot(): Machine
      reads this
    {
      Machine(connected, state, brewTemp, steamTemp, currentTemp, pressure, weight,
              pumpPower, valveOpen, heaterOn, brewTimer, scalesTared)
    }

    constructor()
      ensures Snapshot() == Init()
    {
      connected := false;
      state := Idle;
      brewTemp := 93.0;
      steamTemp := 130.0;
      currentTemp := 25.0;
      pressure := 0.0;
      weight := 0.0;
      pumpPower := 0;
      valveOpen := false;
      heaterOn := false;
      brewTimer := 0;
      scalesTared := false;
    }

    /** `start()`: connect and announce READY. */
    method Start() returns (reply: Response)
      modifies this
      ensures Snapshot() == Started(old(Snapshot())) && reply == Ready
    {
      connected := true;
      reply := Ready;
    }

    /** `stop()`: disconnect; later commands are ignored. */
    method Stop()
      modifies this
      ensures Snapshot() == old(Snapshot()).(connected := false)
    {
      connected := false;
    }

    /** `send_command`. */
    method SendCommand(line: string, nowMs: int) returns (reply: Reply)
      modifies this
      ensures Snapshot() == Handle(old(Snapshot()), line, nowMs).machine
      ensures reply == Handle(old(Snapshot()), line, nowMs).reply
      ensures Consistent(old(Snapshot())) ==> Consistent(Snapshot())
    {
      if Consistent(Snapshot()) {
        HandleConsistent(Snapshot(), line, nowMs);
      }
      if !connected {
        return Silent;
      }
      reply := Perform(Decode(line), nowMs);
    }

    /** The branch of `send_command` that a decoded line selects. */
    method Perform(request: Request, nowMs: int) returns (reply: Reply)
      modifies this
      ensures Snapshot() == Execute(old(Snapshot()), request, nowMs).machine
      ensures reply == Execute(old(Snapshot()), request, nowMs).reply
    {
      match request
      case Blank => reply := Silent;
      case Unrecognised => reply := Emit(Error("UNKNOWN_COMMAND"));
      case BadNumber(_) => reply := Raised;
      case Known(command) => reply := Run(command, nowMs);
    }

    /** The branch of `send_command` that a recognised command selects. */
    method Run(command: Command, nowMs: int) returns (reply: Reply)
      modifies this
      ensures Snapshot() == Execute(old(Snapshot()), Known(command), nowMs).machine
      ensures reply == Execute(old(Snapshot()), Known(command), nowMs).reply
    {
      match command
      case SetTemp(Brew, v) =>
        if 60.0 <= v <= 110.0 {
          brewTemp := v;
          reply := Emit(Ok("BREW_TEMP_SET"));
        } else {
          reply := Emit(Error("BREW_TEMP_OUT_OF_RANGE"));
        }
      case SetTemp(Steam, v) =>
        if 60.0 <= v <= 150.0 {
          steamTemp := v;
          reply := Emit(Ok("STEAM_TEMP_SET"));
        } else {
          reply := Emit(Error("STEAM_TEMP_OUT_OF_RANGE"));
        }
      case StartBrew =>
        if state == Idle {
          state := HeatingBrew;
          reply := Emit(Ok("BREW_STARTED"));
        } else {
          reply := Emit(Error("NOT_IDLE"));
        }
      case StartSteam =>
        if state == Idle {
          state := HeatingSteam;
          reply := Emit(Ok("STEAM_STARTED"));
        } else {
          reply := Emit(Error("NOT_IDLE"));
        }
      case StartFlush =>
        if state == Idle {
          state := Flushing;
          valveOpen := true;
          reply := Emit(Ok("FLUSH_STARTED"));
        } else {
          reply := Emit(Error("NOT_IDLE"));
        }
      case BeginBrew =>
        if state == HeatingBrew {
          state := Brewing;
          brewTimer := nowMs;
          scalesTared := true;
          valveOpen := true;
          reply := Emit(Ok("BREWING_STARTED"));
        } else {
          reply := Emit(Error("INVALID_STATE_FOR_BREW_NOW"));
        }
      case Stop =>
        StopCurrentOperation();
        reply := Emit(Ok("STOPPED"));
      case TareScales =>
        scalesTared := true;
        reply := Emit(Ok("SCALES_TARED"));
      case GetStatus =>
        var report := SendStatus();
        reply := Emit(Status(report));
      case Ping => reply := Emit(Pong);
      case Abort =>
        StopCurrentOperation();
        reply := Emit(Ok("ABORTED"));
    }

    /** `_update_system`: one tick with the given random draws. */
    method UpdateSystem(d: Draws, nowMs: int)
      requires Drawn(d)
      modifies this
      ensures Snapshot() == Tick(old(Snapshot()), d, nowMs)
      ensures Consistent(old(Snapshot())) ==> Consistent(Snapshot())
    {
      ghost var m := Snapshot();
      if Consistent(m) {
        TickConsistent(m, d, nowMs);
      }
      match state {
        case HeatingBrew => ControlHeater(brewTemp, d);
        case HeatingSteam => ControlHeater(steamTemp, d);
        case Brewing =>
          ControlHeater(brewTemp, d);
          ControlPump(true, d.pump);
        case Steaming => ControlHeater(steamTemp, d);
        case Flushing => ControlPump(true, d.pump);
        case Idle =>
          ControlHeater(0.0, d);
          ControlPump(false, d.pump);
          valveOpen := false;
      }
      UpdateSensors(d, nowMs);
    }

    /** `_control_heater`. */
    method ControlHeater(target: real, d: Draws)
      requires Drawn(d)
      modifies this
      ensures Snapshot() == Heat(old(Snapshot()), target, d)
    {
      if target == 0.0 {
        heaterOn := false;
        return;
      }
      var gap := target - currentTemp;
      if gap > 5.0 {
        heaterOn := true;
        currentTemp := currentTemp + d.heatFast;
      } else if gap > 1.0 {
        heaterOn := true;
        currentTemp := currentTemp + d.heatMedium;
      } else if gap > 0.5 {
        heaterOn := true;
        currentTemp := currentTemp + d.heatSlow;
      } else {
        heaterOn := false;
      }
      if !heaterOn && currentTemp > 25.0 {
        currentTemp := currentTemp - d.cooling;
      }
      currentTemp := Clamp(20.0, 160.0, currentTemp);
    }

    /** `_control_pump`. */
    method ControlPump(enable: bool, draw: int)
      requires 50 <= draw <= 255
      modifies this
      ensures Snapshot() == Pump(old(Snapshot()), enable, draw)
    {
      if enable && (state == Brewing || state == Flushing) {
        pumpPower := draw;
      } else {
        pumpPower := 0;
      }
    }

    /** `_update_sensors`. */
    method UpdateSensors(d: Draws, nowMs: int)
      requires Drawn(d)
      modifies this
      ensures Snapshot() == Sense(old(Snapshot()), d, nowMs)
    {
      if state == Brewing && pumpPower > 0 {
        pressure := d.pressureBrewing;
      } else {
        pressure := d.pressureIdle;
      }
      if state == Brewing {
        var elapsed := if brewTimer > 0 then (nowMs - brewTimer) as real / 1000.0 else 0.0;
        var w := elapsed * 0.8 + d.weightNoise;
        weight := if w < 50.0 then w else 50.0;
      } else {
        weight := d.weightIdle;
      }
    }

    /** `_stop_current_operation`. */
    method StopCurrentOperation()
      modifies this
      ensures Snapshot() == Halted(old(Snapshot()))
    {
      state := Idle;
      pumpPower := 0;
      heaterOn := false;
      valveOpen := false;
      brewTimer := 0;
    }

    /** `_send_telemetry`: the numbers of the DATA line. */
    method SendTelemetry(nowMs: int) returns (r: Reading)
      ensures r == Telemetry(Snapshot(), nowMs)
      ensures 0 <= pumpPower <= 255 ==> 0 <= r.pumpPercent <= 100
    {
      var brewTimeSec := 0;
      if state == Brewing && brewTimer > 0 {
        brewTimeSec := (nowMs - brewTimer) / 1000;
      }
      var pumpPercent := if pumpPower >= 0 then pumpPower * 100 / 255 else -((-pumpPower) * 100 / 255);
      r := Reading(Code(state), currentTemp, pressure, weight, pumpPercent,
                   if valveOpen then 1 else 0, if heaterOn then 1 else 0, brewTimeSec);
    }

    /** `_send_status`: the fields of the STATUS line. */
    method SendStatus() returns (r: StatusReport)
      ensures r == Report(Snapshot())
      ensures 0 <= pumpPower <= 255 ==> 0 <= r.pumpPercent <= 100
    {
      var pumpPercent := if pumpPower >= 0 then pumpPower * 100 / 255 else -((-pumpPower) * 100 / 255);
      r := StatusReport(Code(state), currentTemp, brewTemp, steamTemp, pressure, weight,
                        pumpPercent, valveOpen, heaterOn);
    }
  }
}
