/** The serial line protocol between the controller and the machine: the
    command lines the machine accepts, the replies it gives, and the DATA
    telemetry line the controller decodes. Numbers inside lines are read with
    the `int()`/`float()` models of module Text. */
module Protocol {
  import opened Text

  datatype Zone = Brew | Steam

  /** One command of the line protocol. */
  datatype Command =
    | SetTemp(zone: Zone, celsius: real)
    | StartBrew
    | BeginBrew
    | StartSteam
    | StartFlush
    | Stop
    | TareScales
    | GetStatus
    | Ping
    | Abort

  /** How the machine reads one received command line. */
  datatype Request =
    | Blank                  // nothing is left once the line is stripped
    | Unrecognised           // something is left, but no command matches
    | BadNumber(zone: Zone)  // a SET_TEMP line whose number `float()` rejects
    | Known(command: Command)

  const BrewPrefix: string := "SET_TEMP BREW "
  const SteamPrefix: string := "SET_TEMP STEAM "

  /** The line that carries a command without an argument. */
  function Keyword(c: Command): string
    requires !c.SetTemp?
  {
    match c
    case StartBrew => "START_BREW"
    case BeginBrew => "BEGIN_BREW"
    case StartSteam => "START_STEAM"
    case StartFlush => "START_FLUSH"
    case Stop => "STOP"
    case TareScales => "TARE_SCALES"
    case GetStatus => "GET_STATUS"
    case Ping => "PING"
    case Abort => "ABORT"
  }

  /** The line `SET_TEMP <zone> <t/10>` for a temperature with one decimal. */
  function SetTempLine(zone: Zone, tenths: nat): string {
    (if zone == Brew then BrewPrefix else SteamPrefix) + TenthsText(tenths)
  }

  function Argument(zone: Zone, text: string): Request {
    match ParseFloat(text)
    case None => BadNumber(zone)
    case Some(v) => Known(SetTemp(zone, v))
  }

  /** The argument-free command lines in the order the machine tests them;
      BREW_NOW is a second spelling of BEGIN_BREW. */
  const Keywords: seq<(string, Command)> := [
    ("START_BREW", StartBrew), ("START_STEAM", StartSteam), ("START_FLUSH", StartFlush),
    ("BEGIN_BREW", BeginBrew), ("BREW_NOW", BeginBrew),
    ("STOP", Stop), ("TARE_SCALES", TareScales), ("GET_STATUS", GetStatus),
    ("PING", Ping), ("ABORT", Abort)]

  /** The command of the first entry whose line is exactly `cmd`. */
  function Lookup(cmd: string, table: seq<(string, Command)>): (r: Option<Command>)
    ensures r.Some? ==> (cmd, r.value) in table
    ensures (forall i :: 0 <= i < |table| ==> table[i].0 != cmd) ==> r == None
  {
    if table == [] then None
    else if table[0].0 == cmd then Some(table[0].1)
    else
      var r := Lookup(cmd, table[1..]);
      assert r.Some? ==> table[1..][0] == table[1];
      r
  }

  /** The simulator's reading of a command line: strip it, then test the
      SET_TEMP prefixes and the exact keywords in the order the machine does. */
  function Decode(line: string): (r: Request)
    ensures r == Blank <==> forall k :: 0 <= k < |line| ==> IsSpace(line[k])
  {
    var cmd := Strip(line);
    if BrewPrefix <= cmd then Argument(Brew, cmd[|BrewPrefix|..])
    else if SteamPrefix <= cmd then Argument(Steam, cmd[|SteamPrefix|..])
    else
      match Lookup(cmd, Keywords)
      case Some(c) => Known(c)
      case None => if |cmd| > 0 then Unrecognised else Blank
  }

  /** Every argument-free command is read back from its own keyword. */
  lemma DecodeKeyword(c: Command)
    requires !c.SetTemp?
    ensures Decode(Keyword(c)) == Known(c)
  {
    DecodeKeywordAt(KeywordIndex(c));
  }

  /** Where a command's own keyword sits in the keyword table. */
  function KeywordIndex(c: Command): (i: nat)
    requires !c.SetTemp?
    ensures i < |Keywords| && Keywords[i] == (Keyword(c), c)
  {
    match c
    case StartBrew => 0 case StartSteam => 1 case StartFlush => 2 case BeginBrew => 3
    case Stop => 5 case TareScales => 6 case GetStatus => 7 case Ping => 8 case Abort => 9
  }

  /** Each line of the keyword table is read as its own command. */
  lemma DecodeKeywordAt(i: nat)
    requires i < |Keywords|
    ensures Decode(Keywords[i].0) == Known(Keywords[i].1)
  {
    var k := Keywords[i].0;
    assert Strip(k) == k by {
      assert !IsSpace(k[0]) && !IsSpace(k[|k| - 1]);
    }
    assert !(BrewPrefix <= k) && !(SteamPrefix <= k) by {
      assert |k| < |BrewPrefix| < |SteamPrefix|;
    }
    KeywordsDistinct(i);
    LookupFinds(k, Keywords, i);
  }

  /** BREW_NOW is a second spelling of BEGIN_BREW. */
  lemma BrewNowSpelling()
    ensures Decode("BREW_NOW") == Known(BeginBrew)
    ensures Decode("BEGIN_BREW") == Known(BeginBrew)
  {
    DecodeKeywordAt(3);
    DecodeKeywordAt(4);
  }

  lemma KeywordsDistinct(i: nat)
    requires i < |Keywords|
    ensures forall j :: 0 <= j < i ==> Keywords[j].0 != Keywords[i].0
  {
  }

  /** The first entry with the given line decides the lookup. */
  lemma {:induction false} LookupFinds(cmd: string, table: seq<(string, Command)>, i: nat)
    requires i < |table| && table[i].0 == cmd
    requires forall j :: 0 <= j < i ==> table[j].0 != cmd
    ensures Lookup(cmd, table) == Some(table[i].1)
  {
    if i > 0 {
      LookupFinds(cmd, table[1..], i - 1);
    }
  }

  /** A SET_TEMP line with a one-decimal temperature is read back as that
      temperature in that zone. */
  lemma DecodeSetTempLine(zone: Zone, tenths: nat)
    ensures Decode(SetTempLine(zone, tenths)) == Known(SetTemp(zone, tenths as real / 10.0))
  {
    SetTempLineArgument(zone, tenths);
    TenthsArgument(zone, tenths);
  }

  /** The printed setpoint line is read as its zone's argument. */
  lemma SetTempLineArgument(zone: Zone, tenths: nat)
    ensures Decode(SetTempLine(zone, tenths)) == Argument(zone, TenthsText(tenths))
  {
    var line := SetTempLine(zone, tenths);
    DecodeSetTemp(zone, TenthsText(tenths));
  }

  /** A printed one-decimal number, as a zone's argument, sets that value. */
  lemma TenthsArgument(zone: Zone, tenths: nat)
    ensures Argument(zone, TenthsText(tenths)) == Known(SetTemp(zone, tenths as real / 10.0))
  {
    TenthsRoundTrip(tenths);
  }

  /** A SET_TEMP line whose argument ends in a digit is read as that zone's
      argument. */
  lemma DecodeSetTemp(zone: Zone, number: string)
    requires |number| > 0 && IsDigit(number[|number| - 1])
    ensures Decode((if zone == Brew then BrewPrefix else SteamPrefix) + number) == Argument(zone, number)
  {
    var prefix := if zone == Brew then BrewPrefix else SteamPrefix;
    var line := prefix + number;
    StripSetTempLine(prefix, number);
    assert line[|prefix|..] == number;
    if zone == Brew {
      DecodeBrewArgument(line);
    } else {
      DecodeSteamArgument(line);
    }
  }

  lemma StripSetTempLine(prefix: string, number: string)
    requires prefix == BrewPrefix || prefix == SteamPrefix
    requires |number| > 0 && IsDigit(number[|number| - 1])
    ensures Strip(prefix + number) == prefix + number
  {
    var line := prefix + number;
    assert line[|line| - 1] == number[|number| - 1];
    assert !IsSpace(line[0]) && !IsSpace(line[|line| - 1]);
  }

  lemma DecodeBrewArgument(line: string)
    requires Strip(line) == line && BrewPrefix <= line
    ensures Decode(line) == Argument(Brew, line[|BrewPrefix|..])
  {
  }

  lemma DecodeSteamArgument(line: string)
    requires Strip(line) == line && SteamPrefix <= line
    ensures Decode(line) == Argument(Steam, line[|SteamPrefix|..])
  {
    assert line[9] != BrewPrefix[9];
  }

  /** What the machine sends back. */
  datatype Response =
    | Ready
    | Ok(tag: string)
    | Error(tag: string)
    | Pong
    | Status(report: StatusReport)

  /** The fields of a `STATUS:` line; how the machine prints its numbers
      is not part of this model. */
  datatype StatusReport = StatusReport(
    state: nat, temp: real, brewTemp: real, steamTemp: real,
    pressure: real, weight: real, pumpPercent: int, valve: bool, heater: bool)

  /** The fields of a `DATA:` line once they are read as numbers. */
  datatype Reading = Reading(
    stateIndex: int, temp: real, pressure: real, weight: real,
    pumpPercent: int, valve: int, heater: int, brewTime: int)

  const DataPrefix: string := "DATA:"

  /** The controller's reading of a `DATA:` line: split the rest at commas;
      fewer than seven fields, or a field `int()`/`float()` rejects, gives
      nothing; the eighth field (brew time) is 0 when absent and fields past
      the eighth are ignored. */
  function DecodeData(line: string): (r: Option<Reading>)
    requires DataPrefix <= line
    ensures Occurrences(line[|DataPrefix|..], ',') < 6 ==> r == None
  {
    DecodeFields(Split(line[|DataPrefix|..], ','))
  }

  /** The numbers of the comma-separated fields of a `DATA:` line. */
  function DecodeFields(fields: seq<string>): (r: Option<Reading>)
    ensures |fields| < 7 ==> r == None
  {
    if |fields| < 7 then None
    else
      var state, temp, pressure, weight := ParseInt(fields[0]), ParseFloat(fields[1]), ParseFloat(fields[2]), ParseFloat(fields[3]);
      var pump, valve, heater := ParseInt(fields[4]), ParseInt(fields[5]), ParseInt(fields[6]);
      var brew := if |fields| > 7 then ParseInt(fields[7]) else Some(0);
      if state.Some? && temp.Some? && pressure.Some? && weight.Some? && pump.Some? && valve.Some? && heater.Some? && brew.Some? then
        Some(Reading(state.value, temp.value, pressure.value, weight.value, pump.value, valve.value, heater.value, brew.value))
      else None
  }

  /** The fields decode exactly when there are at least seven and each of
      the first seven, and the eighth when present, passes `int()` or
      `float()`; a single field either rejects drops the whole line. */
  lemma DecodeFieldsAccepts(fields: seq<string>)
    ensures DecodeFields(fields).Some? <==>
      && |fields| >= 7
      && ParseInt(fields[0]).Some? && ParseFloat(fields[1]).Some?
      && ParseFloat(fields[2]).Some? && ParseFloat(fields[3]).Some?
      && ParseInt(fields[4]).Some? && ParseInt(fields[5]).Some? && ParseInt(fields[6]).Some?
      && (|fields| > 7 ==> ParseInt(fields[7]).Some?)
  {
  }

  /** A `DATA:` line built by joining comma-free fields decodes those very
      fields: the split at commas gives them back. */
  lemma DecodeJoinedData(fields: seq<string>)
    requires |fields| > 0
    requires forall i :: 0 <= i < |fields| ==> ',' !in fields[i]
    ensures DecodeData(DataPrefix + Join(fields, ',')) == DecodeFields(fields)
  {
    var line := DataPrefix + Join(fields, ',');
    assert line[|DataPrefix|..] == Join(fields, ',');
    SplitJoin(fields, ',');
  }

  /** Fields that each read as the matching number of a reading decode to it. */
  lemma DecodeParsedFields(f: seq<string>, r: Reading)
    requires |f| >= 7
    requires ParseInt(f[0]) == Some(r.stateIndex)
    requires ParseFloat(f[1]) == Some(r.temp) && ParseFloat(f[2]) == Some(r.pressure) && ParseFloat(f[3]) == Some(r.weight)
    requires ParseInt(f[4]) == Some(r.pumpPercent) && ParseInt(f[5]) == Some(r.valve) && ParseInt(f[6]) == Some(r.heater)
    requires if |f| > 7 then ParseInt(f[7]) == Some(r.brewTime) else r.brewTime == 0
    ensures DecodeFields(f) == Some(r)
  {
  }

  /** The machine's state names, indexed by state number. */
  const StateNames: seq<string> := ["IDLE", "HEATING_BREW", "HEATING_STEAM", "BREWING", "STEAMING", "FLUSHING"]

  /** Python's `xs[i]`: negative indices count from the end, and an index
      outside both ranges raises IndexError (`None`). */
  function PyIndex<T>(xs: seq<T>, i: int): Option<T> {
    if 0 <= i < |xs| then Some(xs[i])
    else if -|xs| <= i < 0 then Some(xs[|xs| + i])
    else None
  }

  /** The controller's name for a state number: numbers from 6 up are
      "UNKNOWN", numbers below 6 index the name list the Python way. */
  function StateName(index: int): (r: Option<string>)
    ensures 0 <= index < 6 ==> r == Some(StateNames[index])
    ensures index >= 6 ==> r == Some("UNKNOWN")
    ensures -6 <= index < 0 ==> r == Some(StateNames[index + 6])
    ensures r == None <==> index < -6
  {
    if index < |StateNames| then PyIndex(StateNames, index) else Some("UNKNOWN")
  }
}
