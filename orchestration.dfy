/**
 * `calculate_human_design`: the birth minute parsed from the request, then
 * the chart (from the ephemeris, or the seeded fallback lists when the
 * ephemeris fails), the simulated centers, and every classification read
 * off them. The MD5 digests of the seed strings are parameters.
 */
module Orchestration {
  import opened Wrappers
  import opened Text
  import opened Centers
  import opened Channels
  import opened Motion
  import opened Chart
  import opened Classify
  import opened Decision

  // ---------------------------------------------------------------------------
  // The birth minute

  /** A valid `datetime.datetime(year, month, day, hour, minute)`. */
  datatype Minute = Minute(year: int, month: int, day: int, hour: int, minute: int)

  /** Why the birth minute is refused; every one of them is answered with an error dict. */
  datatype TimeError =
    | NotAnInteger    // some part of the time does not parse with `int()`
    | NotTwoParts     // the time does not split into exactly two parts on ':'
    | TimeOutOfRange  // the hour is not in 0..23 or the minute not in 0..59
    | NoSuchDate      // `datetime` refuses the year, month or day

  predicate IsLeapYear(year: int)
  {
    year % 4 == 0 && (year % 100 != 0 || year % 400 == 0)
  }

  function DaysInMonth(year: int, month: int): (days: int)
    requires 1 <= month <= 12
    ensures 28 <= days <= 31
  {
    if month == 2 then (if IsLeapYear(year) then 29 else 28)
    else if month == 4 || month == 6 || month == 9 || month == 11 then 30
    else 31
  }

  /** The dates `datetime` accepts: years 1 to 9999 of the proleptic Gregorian calendar. */
  predicate ValidDate(year: int, month: int, day: int)
  {
    1 <= year <= 9999 && 1 <= month <= 12 && 1 <= day <= DaysInMonth(year, month)
  }

  /** `list(map(parse, parts))`: every part parsed, or None at the first one `parse` refuses. */
  function ParseAll(parse: string -> Option<int>, parts: seq<string>): Option<seq<int>>
  {
    if parts == [] then Some([])
    else
      match parse(parts[0])
      case None => None
      case Some(v) =>
        match ParseAll(parse, parts[1..])
        case None => None
        case Some(rest) => Some([v] + rest)
  }

  /** `list(map(int, parts))`. */
  function ParseParts(parts: seq<string>): Option<seq<int>>
  {
    ParseAll(PyInt, parts)
  }

  /** The parts parse exactly when each of them does, into one value per part. */
  lemma {:induction false} ParseAllSpec(parse: string -> Option<int>, parts: seq<string>)
    ensures ParseAll(parse, parts).Some? <==> forall i | 0 <= i < |parts| :: parse(parts[i]).Some?
    ensures ParseAll(parse, parts).Some? ==>
      |ParseAll(parse, parts).value| == |parts| &&
      forall i | 0 <= i < |parts| :: parse(parts[i]) == Some(ParseAll(parse, parts).value[i])
  {
    if parts != [] {
      ParseAllSpec(parse, parts[1..]);
      assert forall i | 1 <= i < |parts| :: parts[i] == parts[1..][i - 1];
      if parse(parts[0]).Some? && ParseAll(parse, parts[1..]).Some? {
        var values := ParseAll(parse, parts).value;
        assert forall i | 1 <= i < |parts| :: values[i] == ParseAll(parse, parts[1..]).value[i - 1];
      }
    }
  }

  /** Whatever the parts, a parsed list has one value per part. */
  lemma {:induction false} ParseAllLength(parse: string -> Option<int>, parts: seq<string>)
    ensures ParseAll(parse, parts).Some? ==> |ParseAll(parse, parts).value| == |parts|
  {
    if parts != [] {
      ParseAllLength(parse, parts[1..]);
    }
  }

  /** The checks after the split: parse every part, demand two, range-check hour and minute, build the date. */
  function MinuteFrom(parse: string -> Option<int>, year: int, month: int, day: int, parts: seq<string>): Result<Minute, TimeError>
  {
    match ParseAll(parse, parts)
    case None => Failure(NotAnInteger)
    case Some(values) =>
      if |values| != 2 then Failure(NotTwoParts)
      else if !(0 <= values[0] < 24 && 0 <= values[1] < 60) then Failure(TimeOutOfRange)
      else if !ValidDate(year, month, day) then Failure(NoSuchDate)
      else Success(Minute(year, month, day, values[0], values[1]))
  }

  /** The `try` block of `calculate_human_design`: split the time on ':', then check the parts with `int()`. */
  function ParseBirthMinute(year: int, month: int, day: int, timeStr: string): Result<Minute, TimeError>
  {
    MinuteFrom(PyInt, year, month, day, Split(timeStr, ':'))
  }

  /**
   * The parts are accepted exactly when they are two integers, the hour in
   * 0..23 and the minute in 0..59, and the date is valid; the minute then
   * holds exactly those values.
   */
  lemma MinuteFromSpec(parse: string -> Option<int>, year: int, month: int, day: int, parts: seq<string>)
    ensures MinuteFrom(parse, year, month, day, parts).Success? <==>
      && |parts| == 2 && parse(parts[0]).Some? && parse(parts[1]).Some?
      && 0 <= parse(parts[0]).value < 24 && 0 <= parse(parts[1]).value < 60
      && ValidDate(year, month, day)
    ensures MinuteFrom(parse, year, month, day, parts).Success? ==>
      MinuteFrom(parse, year, month, day, parts).value ==
        Minute(year, month, day, parse(parts[0]).value, parse(parts[1]).value)
  {
    if |parts| == 2 {
      assert parts[1..][0] == parts[1] && parts[1..][1..] == [];
      assert ParseAll(parse, parts[1..][1..]) == Some([]);
    } else {
      ParseAllLength(parse, parts);
    }
  }

  /** A time written as f"{hour}:{minute}" for a valid minute parses back to that minute. */
  lemma {:induction false} ParseBirthMinuteRoundTrip(m: Minute)
    requires ValidDate(m.year, m.month, m.day) && 0 <= m.hour < 24 && 0 <= m.minute < 60
    ensures ParseBirthMinute(m.year, m.month, m.day, IntToString(m.hour) + ":" + IntToString(m.minute)) == Success(m)
  {
    var h, n := IntToString(m.hour), IntToString(m.minute);
    IntToStringChars(m.hour);
    IntToStringChars(m.minute);
    assert h + ":" + n == h + [':'] + n;
    SplitPair(h, n, ':');
    SmallFits(m.hour);
    SmallFits(m.minute);
    PyIntOfIntToString(m.hour);
    PyIntOfIntToString(m.minute);
    MinuteFromSpec(PyInt, m.year, m.month, m.day, [h, n]);
  }

  // ---------------------------------------------------------------------------
  // The chart lists

  /**
   * The MD5 digests, as integers, of the seed strings built from the birth
   * minute: the one `simulate_gate_activations` hashes, and the one
   * `generate_planet_gate_line` hashes for a body in the Personality
   * (`true`) or the Design (`false`) list.
   */
  datatype Digests = Digests(centers: Minute -> nat, planet: (Minute, string, bool) -> nat)

  /** The two lists of a chart: read from the ephemeris, or generated from seeds when it fails. */
  datatype ChartLists =
    | Observed(personality: seq<Reading>, design: seq<Reading>)
    | Generated(generatedPersonality: seq<FallbackReading>, generatedDesign: seq<FallbackReading>)

  /** `generate_personality_list` / `generate_design_list` for a minute. */
  function FallbackLists(digests: Digests, m: Minute): ChartLists
  {
    Generated(FallbackList(name => digests.planet(m, name, true)), FallbackList(name => digests.planet(m, name, false)))
  }

  /** The planet names and lines of a list, in order. */
  function ObservedLines(readings: seq<Reading>): (lines: seq<(string, int)>)
    ensures |lines| == |readings|
    ensures forall i | 0 <= i < |readings| :: lines[i] == (readings[i].planet, readings[i].line)
  {
    seq(|readings|, i requires 0 <= i < |readings| => (readings[i].planet, readings[i].line))
  }

  function GeneratedLines(readings: seq<FallbackReading>): (lines: seq<(string, int)>)
    ensures |lines| == |readings|
    ensures forall i | 0 <= i < |readings| :: lines[i] == (readings[i].planet, readings[i].line)
  {
    seq(|readings|, i requires 0 <= i < |readings| => (readings[i].planet, readings[i].line))
  }

  /** `next((p for p in lst if p['planet'] == 'Sun'), None)`, keeping only its line. */
  function SunLine(lines: seq<(string, int)>): (r: Option<int>)
    ensures r.Some? <==> exists i | 0 <= i < |lines| :: lines[i].0 == "Sun"
  {
    if lines == [] then None
    else if lines[0].0 == "Sun" then Some(lines[0].1)
    else
      var rest := SunLine(lines[1..]);
      assert forall i | 1 <= i < |lines| :: lines[i] == lines[1..][i - 1];
      rest
  }

  /** The Sun line of a list that starts with the Sun is the first entry's line. */
  lemma SunLineFirst(lines: seq<(string, int)>)
    requires |lines| > 0 && lines[0].0 == "Sun"
    ensures SunLine(lines) == Some(lines[0].1)
  {
  }

  /** The profile of a chart, or "N/A" when a list has no Sun entry. */
  function ProfileOf(personality: seq<(string, int)>, design: seq<(string, int)>): string
  {
    match (SunLine(personality), SunLine(design))
    case (Some(p), Some(d)) => CalculateProfile(p, d)
    case _ => "N/A"
  }

  /** Lists that start with the Sun give the profile of their first lines, never "N/A". */
  lemma ProfileFromFirst(personality: seq<(string, int)>, design: seq<(string, int)>)
    requires |personality| > 0 && personality[0].0 == "Sun" && |design| > 0 && design[0].0 == "Sun"
    ensures ProfileOf(personality, design) == CalculateProfile(personality[0].1, design[0].1)
  {
    SunLineFirst(personality);
    SunLineFirst(design);
  }

  /** The planet names and lines of both lists. */
  function Lines(lists: ChartLists): (seq<(string, int)>, seq<(string, int)>)
  {
    match lists
    case Observed(p, d) => (ObservedLines(p), ObservedLines(d))
    case Generated(p, d) => (GeneratedLines(p), GeneratedLines(d))
  }

  /** The gates of both lists, for the channel calculation. */
  function ListGates(lists: ChartLists): (seq<int>, seq<int>)
  {
    match lists
    case Observed(p, d) =>
      (seq(|p|, i requires 0 <= i < |p| => p[i].gate), seq(|d|, i requires 0 <= i < |d| => d[i].gate))
    case Generated(p, d) =>
      (seq(|p|, i requires 0 <= i < |p| => p[i].gate), seq(|d|, i requires 0 <= i < |d| => d[i].gate))
  }

  // ---------------------------------------------------------------------------
  // calculate_human_design (Netlify function)

  /** The result dict of the Netlify `calculate_human_design`. */
  datatype Report = Report(
    input: Minute, profile: string, typeName: string, strategy: string, decisionMode: string,
    authority: string, notSelf: string, centers: CenterState, lists: ChartLists)

  /** The chart lists: the readings of every body at birth and at the design date, or the fallback lists. */
  function ChartOf(sky: Option<(Ephemeris, real)>, digests: Digests, m: Minute): ChartLists
  {
    match sky
    case Some((eph, birthJd)) =>
      Observed(Readings(eph, birthJd, |PLANETS|),
               Readings(eph, DesignSearch.DesignDate(SunOf(eph), birthJd, DivideThenWrap), |PLANETS|))
    case None => FallbackLists(digests, m)
  }

  /**
   * The report for a minute, its simulated centers and its chart lists:
   * each field computed from the centers (or the lists, for the profile)
   * as `calculate_human_design` combines them, the decision mode with no
   * defined channels.
   */
  ghost function ReportOf(m: Minute, state: CenterState, lists: ChartLists): Report
  {
    var (personality, design) := Lines(lists);
    var typeName := TypeName(Netlify, TypeOf(state));
    Report(m, ProfileOf(personality, design), typeName, Strategy(Netlify, TypeOf(state)),
           ModeLabel(ComponentCount(state, [])), DetermineAuthority(state, Netlify),
           NotSelfTheme(typeName), state, lists)
  }

  /**
   * `calculate_human_design`: `sky` is the ephemeris and the birth Julian
   * day, or None when the ephemeris calculation raises and the fallback
   * lists are used instead.
   */
  method CalculateHumanDesign(year: int, month: int, day: int, timeStr: string,
                              sky: Option<(Ephemeris, real)>, digests: Digests)
    returns (r: Result<Report, TimeError>)
    ensures r.Failure? <==> ParseBirthMinute(year, month, day, timeStr).Failure?
    ensures r.Failure? ==> r.error == ParseBirthMinute(year, month, day, timeStr).error
    ensures r.Success? ==>
      var m := ParseBirthMinute(year, month, day, timeStr).value;
      r.value == ReportOf(m, SimulatedCenters(digests.centers(m)), ChartOf(sky, digests, m))
  {
    var parsed := ParseBirthMinute(year, month, day, timeStr);
    if parsed.Failure? {
      return Failure(parsed.error);
    }
    var m := parsed.value;
    var lists := BuildChart(sky, digests, m);
    var state := SimulateGateActivations(digests.centers(m));
    var report := ClassifyChart(m, state, lists);
    r := Success(report);
  }

  /** Step 1: the lists from the ephemeris, or the fallback lists. */
  method BuildChart(sky: Option<(Ephemeris, real)>, digests: Digests, m: Minute) returns (lists: ChartLists)
    ensures lists == ChartOf(sky, digests, m)
  {
    if sky.Some? {
      var (eph, birthJd) := sky.value;
      var personality, design := GetPlanetPositions(eph, birthJd, DivideThenWrap);
      lists := Observed(personality, design);
    } else {
      lists := FallbackLists(digests, m);
    }
  }

  /** Steps 3 to 7: profile, type and strategy, authority, decision mode, not-self theme. */
  method ClassifyChart(m: Minute, state: CenterState, lists: ChartLists) returns (report: Report)
    ensures report == ReportOf(m, state, lists)
  {
    var (personalityLines, designLines) := Lines(lists);
    var profile := ProfileOf(personalityLines, designLines);
    var typeName, strategy := DetermineType(state, Netlify);
    var authority := DetermineAuthority(state, Netlify);
    var (personalityGates, designGates) := ListGates(lists);
    var mode := CalculateDecisionMode(state, Some([]), personalityGates, designGates);
    var notSelf := NotSelfTheme(typeName);
    report := Report(m, profile, typeName, strategy, mode, authority, notSelf, state, lists);
  }

  /** Both lists of a chart start with the Sun. */
  lemma ChartStartsWithSun(sky: Option<(Ephemeris, real)>, digests: Digests, m: Minute)
    ensures var (personality, design) := Lines(ChartOf(sky, digests, m));
      |personality| == |design| == |PLANETS| && personality[0].0 == "Sun" && design[0].0 == "Sun"
  {
    SunFirst();
    match sky
    case Some((eph, birthJd)) =>
      var designJd := DesignSearch.DesignDate(SunOf(eph), birthJd, DivideThenWrap);
      var p := Readings(eph, birthJd, |PLANETS|);
      var d := Readings(eph, designJd, |PLANETS|);
      assert p[0].planet == "Sun" && d[0].planet == "Sun";
      assert ObservedLines(p)[0].0 == "Sun" && ObservedLines(d)[0].0 == "Sun";
    case None =>
      var p := FallbackList(name => digests.planet(m, name, true));
      var d := FallbackList(name => digests.planet(m, name, false));
      assert p[0] == GeneratePlanetGateLine(digests.planet(m, PLANETS[0], true), PLANETS[0]);
      assert d[0] == GeneratePlanetGateLine(digests.planet(m, PLANETS[0], false), PLANETS[0]);
      assert GeneratedLines(p)[0].0 == "Sun" && GeneratedLines(d)[0].0 == "Sun";
  }

  /** The profile is read off the two Sun entries, the first of each list, and is never "N/A". */
  lemma NetlifyProfile(sky: Option<(Ephemeris, real)>, digests: Digests, m: Minute, state: CenterState)
    ensures var lists := ChartOf(sky, digests, m);
      ReportOf(m, state, lists).profile == CalculateProfile(Lines(lists).0[0].1, Lines(lists).1[0].1)
  {
    var lists := ChartOf(sky, digests, m);
    ChartStartsWithSun(sky, digests, m);
    ProfileFromFirst(Lines(lists).0, Lines(lists).1);
  }

  /**
   * The type, and with it the not-self theme, is decided by the seed: a
   * seed that clears every center (seed % 100 < 5) gives a Reflector, with
   * the Environmental authority, and no other seed does.
   */
  lemma NetlifyType(seed: nat)
    ensures var state := SimulatedCenters(seed);
      && NotSelfTheme(TypeName(Netlify, TypeOf(state))) == ThemeOf(TypeOf(state))
      && (TypeOf(state) == Reflector <==> seed % 100 < 5)
      && (seed % 100 < 5 ==> AuthorityOf(state) == Environmental)
  {
    var state := SimulatedCenters(seed);
    NotSelfOfType(Netlify, TypeOf(state));
    SimulatedCount(seed);
    TypeClassification(state);
    if seed % 100 < 5 {
      ReflectorIsEnvironmental(state);
    }
  }

  /**
   * With no channels passed, every defined center is its own component: the
   * decision mode is 無定義 when the seed clears every center, 三分定義 when
   * exactly three are defined (seed % 5 == 0), and 四分定義 otherwise.
   */
  lemma NetlifyDecisionMode(seed: nat)
    ensures ModeLabel(ComponentCount(SimulatedCenters(seed), [])) ==
      if seed % 100 < 5 then "無定義" else if seed % 5 == 0 then "三分定義" else "四分定義"
  {
    var state := SimulatedCenters(seed);
    SimulatedCount(seed);
    NoChannelsCount(state);
    var count := ComponentCount(state, []);
    if seed % 100 < 5 {
      assert count == 0;
    } else if seed % 5 == 0 {
      assert count == 3;
    } else {
      assert count >= 4;
    }
  }
}
