/** The controller-side thermostat: clamped setpoints, a mode string, and a
    hysteresis loop that switches the heater on two degrees below the target
    and off at the target, signalling only real changes. */
module Thermostat {
  import opened Numbers

  const Hysteresis: real := 2.0
  const BrewLow: real := 60.0
  const BrewHigh: real := 110.0
  const SteamLow: real := 110.0
  const SteamHigh: real := 150.0

  /** A signal of the thermostat: `heaterStateChanged` or `targetReached`. */
  datatype ThermoEvent = HeaterChanged(on: bool) | TargetReached(mode: string)

  /** The heater state after one step and the signals the step sent. */
  datatype Regulation = Regulation(heating: bool, events: seq<ThermoEvent>)

  /** The setpoint the loop regulates to: the brew target in mode BREW, the
      steam target in every other mode. */
  function Target(mode: string, brewTarget: real, steamTarget: real): (t: real)
    ensures mode == "BREW" ==> t == brewTarget
    ensures mode != "BREW" ==> t == steamTarget
  {
    if mode == "BREW" then brewTarget else steamTarget
  }

  /** `_set_heater`: signals only when the state actually changes. */
  function Switch(heating: bool, on: bool): (r: Regulation)
    ensures r.heating == on
    ensures r.events == [] <==> heating == on
    ensures r.events != [] ==> r.events == [HeaterChanged(on)]
  {
    if heating != on then Regulation(on, [HeaterChanged(on)]) else Regulation(heating, [])
  }

  /** Switching the heater to the state it was just switched to changes and
      signals nothing. */
  lemma SwitchIdempotent(heating: bool, on: bool)
    ensures Switch(Switch(heating, on).heating, on) == Regulation(on, [])
  {
  }

  /** `_control_loop`: in IDLE nothing happens; otherwise the heater goes on
      when it is off and the water is more than the hysteresis below the
      target, and goes off, with `targetReached`, when it is on and the
      target is reached. */
  function Regulate(mode: string, heating: bool, current: real, target: real): (r: Regulation)
    ensures mode == "IDLE" ==> r == Regulation(heating, [])
    ensures r.events == [] <==> r.heating == heating
    ensures mode != "IDLE" && !heating ==> (r.heating <==> current < target - Hysteresis)
    ensures mode != "IDLE" && heating ==> (!r.heating <==> current >= target)
    ensures r.heating != heating ==> r.events[0] == HeaterChanged(r.heating)
    ensures r.heating != heating && !r.heating ==> r.events == [HeaterChanged(false), TargetReached(mode)]
  {
    if mode == "IDLE" then Regulation(heating, [])
    else if !heating && current < target - Hysteresis then Switch(heating, true)
    else if heating && current >= target then
      var off := Switch(heating, false);
      Regulation(off.heating, off.events + [TargetReached(mode)])
    else Regulation(heating, [])
  }

  /** Inside the band [target - 2, target) the loop changes nothing, whether
      the heater is on or off. */
  lemma BandIsQuiet(mode: string, heating: bool, current: real, target: real)
    requires target - Hysteresis <= current < target
    ensures Regulate(mode, heating, current, target) == Regulation(heating, [])
  {
  }

  /** Running the loop again at the same temperature changes nothing more. */
  lemma RegulateIdempotent(mode: string, heating: bool, current: real, target: real)
    ensures var once := Regulate(mode, heating, current, target);
      Regulate(mode, once.heating, current, target) == Regulation(once.heating, [])
  {
  }

  /** What `get_status` reports. */
  datatype ThermoStatus = ThermoStatus(
    currentTemp: real, targetTemp: real, mode: string, heating: bool, tempDiff: real)

  /** The thermostat object. */
  class TemperatureController {
    var brewTarget: real
    var steamTarget: real
    var currentTemp: real
    var mode: string
    var heating: bool

    /** The setpoints lie within their safety limits. */
    predicate Valid()
      reads this
    {
      BrewLow <= brewTarget <= BrewHigh && SteamLow <= steamTarget <= SteamHigh
    }

    constructor()
      ensures brewTarget == 93.0 && steamTarget == 130.0 && currentTemp == 25.0
      ensures mode == "IDLE" && !heating
      ensures Valid()
    {
      brewTarget := 93.0;
      steamTarget := 130.0;
      currentTemp := 25.0;
      mode := "IDLE";
      heating := false;
    }

    /** `set_brew_target`: the value clamped to [60, 110]. */
    method SetBrewTarget(temp: real)
      modifies this
      ensures brewTarget == Clamp(BrewLow, BrewHigh, temp)
      ensures steamTarget == old(steamTarget) && currentTemp == old(currentTemp)
      ensures mode == old(mode) && heating == old(heating)
      ensures old(Valid()) ==> Valid()
    {
      brewTarget := Clamp(BrewLow, BrewHigh, temp);
    }

    /** `set_steam_target`: the value clamped to [110, 150]. */
    method SetSteamTarget(temp: real)
      modifies this
      ensures steamTarget == Clamp(SteamLow, SteamHigh, temp)
      ensures brewTarget == old(brewTarget) && currentTemp == old(currentTemp)
      ensures mode == old(mode) && heating == old(heating)
      ensures old(Valid()) ==> Valid()
    {
      steamTarget := Clamp(SteamLow, SteamHigh, temp);
    }

    /** `update_temperature`. */
    method UpdateTemperature(temp: real)
      modifies this
      ensures currentTemp == temp
      ensures brewTarget == old(brewTarget) && steamTarget == old(steamTarget)
      ensures mode == old(mode) && heating == old(heating)
    {
      currentTemp := temp;
    }

    /** `set_mode`: IDLE switches the heater off; any other mode leaves it. */
    method SetMode(newMode: string) returns (events: seq<ThermoEvent>)
      modifies this
      ensures mode == newMode
      ensures newMode == "IDLE" ==> Regulation(heating, events) == Switch(old(heating), false)
      ensures newMode != "IDLE" ==> heating == old(heating) && events == []
      ensures brewTarget == old(brewTarget) && steamTarget == old(steamTarget) && currentTemp == old(currentTemp)
    {
      mode := newMode;
      events := [];
      if newMode == "IDLE" {
        events := SetHeater(false);
      }
    }

    /** `_control_loop`. */
    method ControlLoop() returns (events: seq<ThermoEvent>)
      modifies this
      ensures Regulation(heating, events) == Regulate(mode, old(heating), currentTemp, Target(mode, brewTarget, steamTarget))
      ensures brewTarget == old(brewTarget) && steamTarget == old(steamTarget)
      ensures currentTemp == old(currentTemp) && mode == old(mode)
    {
      events := [];
      if mode == "IDLE" {
        return;
      }
      var target := if mode == "BREW" then brewTarget else steamTarget;
      if !heating && currentTemp < target - Hysteresis {
        events := SetHeater(true);
      } else if heating && currentTemp >= target {
        events := SetHeater(false);
        events := events + [TargetReached(mode)];
      }
    }

    /** `_set_heater`. */
    method SetHeater(on: bool) returns (events: seq<ThermoEvent>)
      modifies this
      ensures Regulation(heating, events) == Switch(old(heating), on)
      ensures brewTarget == old(brewTarget) && steamTarget == old(steamTarget)
      ensures currentTemp == old(currentTemp) && mode == old(mode)
    {
      events := [];
      if heating != on {
        heating := on;
        events := [HeaterChanged(on)];
      }
    }

    /** `get_status`: the distance to the active target is never negative
      and is the gap between the water and that target; while the setpoints
      are within their limits, so is the target reported. */
    function Status(): (s: ThermoStatus)
      reads this
      ensures s.targetTemp == Target(mode, brewTarget, steamTarget)
      ensures s.currentTemp == currentTemp && s.mode == mode && s.heating == heating
      ensures s.tempDiff >= 0.0
      ensures s.tempDiff == currentTemp - s.targetTemp || s.tempDiff == s.targetTemp - currentTemp
      ensures Valid() ==> BrewLow <= s.targetTemp <= SteamHigh
    {
      var target := Target(mode, brewTarget, steamTarget);
      ThermoStatus(currentTemp, target, mode, heating,
                   if currentTemp >= target then currentTemp - target else target - currentTemp)
    }
  }
}
