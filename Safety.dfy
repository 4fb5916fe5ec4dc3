/** The safety supervisor: a threshold check on each temperature reading,
    and a periodic check for a silent serial line and for a brew or steam
    phase that runs too long. The wall clock is the explicit parameter
    `now` (seconds). */
module Safety {
  import opened Text

  const MaxTemp: real := 160.0
  const WarnTemp: real := MaxTemp - 10.0
  const MaxBrewTime: real := 300.0
  const MaxSteamTime: real := 600.0
  const CommTimeout: real := 10.0

  /** Why an emergency stop is requested; `Manual` is the user's emergency
      button on the controller, the others come from this supervisor. */
  datatype Reason = Overheat(temp: real) | CommunicationTimeout | BrewTimeout | SteamTimeout | Manual

  /** A signal of the supervisor: `emergencyStop` or `warningIssued`. */
  datatype Event = EmergencyStop(reason: Reason) | Warning(temp: real)

  /** The answer of `check_temperature` and the signals it sends. */
  datatype TempVerdict = TempVerdict(ok: bool, events: seq<Event>)

  /** `check_temperature`: above 160 degrees the reading is refused with one
      emergency stop; above 150 it passes with a warning; otherwise it
      passes silently. */
  function CheckTemperature(temp: real): (v: TempVerdict)
    ensures !v.ok <==> temp > MaxTemp
    ensures !v.ok ==> v.events == [EmergencyStop(Overheat(temp))]
    ensures WarnTemp < temp <= MaxTemp ==> v.events == [Warning(temp)]
    ensures temp <= WarnTemp ==> v.events == []
  {
    if temp > MaxTemp then TempVerdict(false, [EmergencyStop(Overheat(temp))])
    else if temp > WarnTemp then TempVerdict(true, [Warning(temp)])
    else TempVerdict(true, [])
  }

  /** A reading brings an emergency stop exactly when it is refused, and then
      exactly one. */
  lemma OverheatStopsOnce(temp: real)
    ensures var v := CheckTemperature(temp);
      && ((exists i :: 0 <= i < |v.events| && v.events[i].EmergencyStop?) <==> !v.ok)
      && |v.events| <= 1
  {
    var v := CheckTemperature(temp);
    if !v.ok {
      assert v.events[0].EmergencyStop?;
    }
  }

  /** A phase timer counts when it holds a start time Python reads as true:
      a cleared timer (`None`) and a start time of 0.0 both do not. */
  predicate Armed(start: Option<real>) {
    start.Some? && start.value != 0.0
  }

  /** `_safety_check` at time `now`: the stops it requests, in the order it
      requests them. */
  function Alarms(now: real, lastData: real, brewStart: Option<real>, steamStart: Option<real>): (events: seq<Event>)
    ensures |events| <= 3
    ensures forall i :: 0 <= i < |events| ==> events[i].EmergencyStop?
    ensures EmergencyStop(CommunicationTimeout) in events <==> now - lastData > CommTimeout
    ensures EmergencyStop(BrewTimeout) in events <==> Armed(brewStart) && now - brewStart.value > MaxBrewTime
    ensures EmergencyStop(SteamTimeout) in events <==> Armed(steamStart) && now - steamStart.value > MaxSteamTime
    ensures forall i, j :: 0 <= i < j < |events| ==> events[i] != events[j]
    ensures |events| > 0 ==> events[0] == EmergencyStop(
      if now - lastData > CommTimeout then CommunicationTimeout
      else if Armed(brewStart) && now - brewStart.value > MaxBrewTime then BrewTimeout
      else SteamTimeout)
  {
    (if now - lastData > CommTimeout then [EmergencyStop(CommunicationTimeout)] else [])
    + (if Armed(brewStart) && now - brewStart.value > MaxBrewTime then [EmergencyStop(BrewTimeout)] else [])
    + (if Armed(steamStart) && now - steamStart.value > MaxSteamTime then [EmergencyStop(SteamTimeout)] else [])
  }

  /** Right after fresh data the line is not considered silent. */
  lemma FreshDataNoTimeout(now: real, brewStart: Option<real>, steamStart: Option<real>)
    ensures EmergencyStop(CommunicationTimeout) !in Alarms(now, now, brewStart, steamStart)
  {
  }

  /** A timeout, once due, is requested again at every later check until the
      data timestamp or the timer is reset: there is no once-only latch. */
  lemma TimeoutsRefire(now: real, later: real, lastData: real, brewStart: Option<real>, steamStart: Option<real>)
    requires now <= later
    ensures forall e :: e in Alarms(now, lastData, brewStart, steamStart) ==> e in Alarms(later, lastData, brewStart, steamStart)
  {
    var early := Alarms(now, lastData, brewStart, steamStart);
    forall e | e in early
      ensures e in Alarms(later, lastData, brewStart, steamStart)
    {
      assert e.EmergencyStop? && (e.reason == CommunicationTimeout || e.reason == BrewTimeout || e.reason == SteamTimeout);
    }
  }

  /** A cleared timer never brings its timeout, whatever the time. */
  lemma ClearedTimerSilent(now: real, lastData: real, start: Option<real>)
    ensures EmergencyStop(BrewTimeout) !in Alarms(now, lastData, None, start)
    ensures EmergencyStop(SteamTimeout) !in Alarms(now, lastData, start, None)
  {
  }

  /** The supervisor object: the time of the last data and the start times
      of the brew and steam phases, set and cleared by explicit calls. */
  class SafetyManager {
    var lastDataTime: real
    var brewStartTime: Option<real>
    var steamStartTime: Option<real>

    constructor(now: real)
      ensures lastDataTime == now && brewStartTime == None && steamStartTime == None
    {
      lastDataTime := now;
      brewStartTime := None;
      steamStartTime := None;
    }

    /** `update_data_timestamp`. */
    method UpdateDataTimestamp(now: real)
      modifies this
      ensures lastDataTime == now
      ensures brewStartTime == old(brewStartTime) && steamStartTime == old(steamStartTime)
    {
      lastDataTime := now;
    }

    /** `start_brew_timer`. */
    method StartBrewTimer(now: real)
      modifies this
      ensures brewStartTime == Some(now)
      ensures lastDataTime == old(lastDataTime) && steamStartTime == old(steamStartTime)
    {
      brewStartTime := Some(now);
    }

    /** `start_steam_timer`. */
    method StartSteamTimer(now: real)
      modifies this
      ensures steamStartTime == Some(now)
      ensures lastDataTime == old(lastDataTime) && brewStartTime == old(brewStartTime)
    {
      steamStartTime := Some(now);
    }

    /** `stop_brew_timer`: clears the brew timer only. */
    method StopBrewTimer()
      modifies this
      ensures brewStartTime == None
      ensures lastDataTime == old(lastDataTime) && steamStartTime == old(steamStartTime)
    {
      brewStartTime := None;
    }

    /** `stop_steam_timer`: clears the steam timer only. */
    method StopSteamTimer()
      modifies this
      ensures steamStartTime == None
      ensures lastDataTime == old(lastDataTime) && brewStartTime == old(brewStartTime)
    {
      steamStartTime := None;
    }

    /** `_safety_check`: the stops requested at time `now`. */
    method SafetyCheck(now: real) returns (events: seq<Event>)
      ensures events == Alarms(now, lastDataTime, brewStartTime, steamStartTime)
    {
      events := [];
      if now - lastDataTime > CommTimeout {
        events := events + [EmergencyStop(CommunicationTimeout)];
      }
      if Armed(brewStartTime) && now - brewStartTime.value > MaxBrewTime {
        events := events + [EmergencyStop(BrewTimeout)];
      }
      if Armed(steamStartTime) && now - steamStartTime.value > MaxSteamTime {
        events := events + [EmergencyStop(SteamTimeout)];
      }
    }
  }
}
