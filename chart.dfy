/**
 * Chart assembly: the position and daily speed of each of the thirteen
 * bodies, the Earth and the South Node derived from the Sun and the North
 * Node, and the two lists of readings (Personality at birth, Design at the
 * design date). The ephemeris is a parameter: `eph(b, jd)` is the ecliptic
 * longitude of body `b` at Julian day `jd`.
 */
module Chart {
  import opened Wrappers
  import opened Text
  import opened Mandala
  import opened Motion
  import opened DesignSearch
  import Solver

  /** The bodies the ephemeris is asked about. */
  datatype Body = Sun | Moon | Mercury | Venus | Mars | Jupiter | Saturn | Uranus | Neptune | Pluto | TrueNode

  type Ephemeris = (Body, real) -> real

  /** The thirteen names, in the order every chart lists them. */
  const PLANETS: seq<string> := [
    "Sun", "Earth", "Moon", "North Node", "South Node", "Mercury", "Venus",
    "Mars", "Jupiter", "Saturn", "Uranus", "Neptune", "Pluto"
  ]

  datatype Position = Position(longitude: real, speed: real)

  /** Degrees per day from samples 0.001 day either side, divided before the ±180 correction. */
  function BodySpeed(eph: Ephemeris, b: Body, jd: real): real
  {
    SampledMotion(DivideThenWrap, eph(b, jd - TIME_STEP), eph(b, jd + TIME_STEP))
  }

  /** A body read straight from the ephemeris. */
  function Direct(eph: Ephemeris, b: Body, jd: real): Position
  {
    Position(eph(b, jd), BodySpeed(eph, b, jd))
  }

  /** The point opposite a body: 180° further on, moving the other way. */
  function Opposite(eph: Ephemeris, b: Body, jd: real): Position
  {
    Position(Mod360(eph(b, jd) + 180.0), -BodySpeed(eph, b, jd))
  }

  /** `get_planet_position_and_speed`; an unknown name is an error. */
  function PlanetPositionAndSpeed(eph: Ephemeris, jd: real, name: string): Result<Position, string>
  {
    if name == "Sun" then Success(Direct(eph, Sun, jd))
    else if name == "Earth" then Success(Opposite(eph, Sun, jd))
    else if name == "Moon" then Success(Direct(eph, Moon, jd))
    else if name == "Mercury" then Success(Direct(eph, Mercury, jd))
    else if name == "Venus" then Success(Direct(eph, Venus, jd))
    else if name == "Mars" then Success(Direct(eph, Mars, jd))
    else if name == "Jupiter" then Success(Direct(eph, Jupiter, jd))
    else if name == "Saturn" then Success(Direct(eph, Saturn, jd))
    else if name == "Uranus" then Success(Direct(eph, Uranus, jd))
    else if name == "Neptune" then Success(Direct(eph, Neptune, jd))
    else if name == "Pluto" then Success(Direct(eph, Pluto, jd))
    else if name == "North Node" then Success(Direct(eph, TrueNode, jd))
    else if name == "South Node" then Success(Opposite(eph, TrueNode, jd))
    else Failure("未知的行星名稱: " + name)
  }

  /** Exactly the thirteen chart names are known; any other name is refused. */
  lemma KnownNames(eph: Ephemeris, jd: real, name: string)
    ensures PlanetPositionAndSpeed(eph, jd, name).Success? <==> name in PLANETS
  {
  }

  /**
   * The point opposite a body is half a turn further on, moves at the
   * negated speed, and so lies on the gate and line of the longitude half a
   * turn on.
   */
  lemma {:induction false} OppositeFacts(eph: Ephemeris, b: Body, jd: real)
    ensures Opposite(eph, b, jd).longitude == Mod360(Direct(eph, b, jd).longitude + 180.0)
    ensures Opposite(eph, b, jd).speed == -Direct(eph, b, jd).speed
    ensures DegreesToGateLine(Opposite(eph, b, jd).longitude) == DegreesToGateLine(Direct(eph, b, jd).longitude + 180.0)
  {
    var x := eph(b, jd) + 180.0;
    var k := (x / 360.0).Floor;
    assert Mod360(x) == x + 360.0 * ((-k) as real);
    GateLinePeriodic(x, -k);
  }

  /** The Earth is the Sun's opposite and the South Node the North Node's. */
  lemma DerivedBodies(eph: Ephemeris, jd: real)
    ensures PlanetPositionAndSpeed(eph, jd, "Earth") == Success(Opposite(eph, Sun, jd))
    ensures PlanetPositionAndSpeed(eph, jd, "Sun") == Success(Direct(eph, Sun, jd))
    ensures PlanetPositionAndSpeed(eph, jd, "South Node") == Success(Opposite(eph, TrueNode, jd))
    ensures PlanetPositionAndSpeed(eph, jd, "North Node") == Success(Direct(eph, TrueNode, jd))
  {
  }

  // ---------------------------------------------------------------------------
  // Gate names.

  /** `GATE_SIGNS.get(gate, f"卦{gate}")`: the hexagram name of a gate. */
  function GateSign(gate: int): string
  {
    match gate
    case 1 => "創始" case 2 => "方向" case 3 => "秩序" case 4 => "青年"
    case 5 => "等待" case 6 => "衝突" case 7 => "軍隊" case 8 => "團結"
    case 9 => "小畜" case 10 => "履" case 11 => "泰" case 12 => "否"
    case 13 => "同人" case 14 => "大有" case 15 => "謙" case 16 => "豫"
    case 17 => "隨" case 18 => "蠱" case 19 => "臨" case 20 => "觀"
    case 21 => "噬嗑" case 22 => "賁" case 23 => "剝" case 24 => "復"
    case 25 => "無妄" case 26 => "大畜" case 27 => "頤" case 28 => "大過"
    case 29 => "坎" case 30 => "離" case 31 => "咸" case 32 => "恆"
    case 33 => "遯" case 34 => "大壯" case 35 => "晉" case 36 => "明夷"
    case 37 => "家人" case 38 => "睽" case 39 => "蹇" case 40 => "解"
    case 41 => "損" case 42 => "益" case 43 => "夬" case 44 => "姤"
    case 45 => "萃" case 46 => "升" case 47 => "困" case 48 => "井"
    case 49 => "革" case 50 => "鼎" case 51 => "震" case 52 => "艮"
    case 53 => "漸" case 54 => "歸妹" case 55 => "豐" case 56 => "旅"
    case 57 => "巽" case 58 => "兌" case 59 => "渙" case 60 => "節"
    case 61 => "中孚" case 62 => "小過" case 63 => "既濟" case 64 => "未濟"
    case _ => "卦" + IntToString(gate)
  }

  /** Every gate from 1 to 64 has its own name; the "卦" fallback never shows. */
  lemma GateSignNamed(gate: int)
    requires 1 <= gate <= 64
    ensures |GateSign(gate)| > 0 && GateSign(gate)[0] != '卦'
  {
    if gate <= 16 {} else if gate <= 32 {} else if gate <= 48 {} else {}
  }

  // ---------------------------------------------------------------------------
  // Readings.

  /** One entry of a Personality or Design list. */
  datatype Reading = Reading(
    planet: string, gate: int, line: int, gateLine: string, sign: string,
    longitude: real, constellationSymbol: string, arrowDirection: string)

  /** The `gate.line` label, f"{gate}.{line}". */
  function GateLineLabel(gate: int, line: int): string
  {
    IntToString(gate) + "." + IntToString(line)
  }

  /** The reading of a body at a position. */
  function ReadingOf(name: string, pos: Position): Reading
  {
    var gl := DegreesToGateLine(pos.longitude);
    Reading(name, gl.gate, gl.line, GateLineLabel(gl.gate, gl.line), GateSign(gl.gate),
            pos.longitude, FirstSignFrom(Mod360(pos.longitude), 0),
            GetDignityArrow(pos.longitude, pos.speed, gl.gate, gl.line))
  }

  /** The reading of a chart body at `jd`. */
  function ReadingAt(eph: Ephemeris, jd: real, name: string): Reading
    requires name in PLANETS
  {
    KnownNames(eph, jd, name);
    ReadingOf(name, PlanetPositionAndSpeed(eph, jd, name).value)
  }

  /**
   * A reading names its body, has a gate in 1..64 and a line in 1..6 taken
   * from the body's longitude, a gate name from the table, and a label that
   * splits at '.' back into the gate and the line.
   */
  lemma {:induction false} ReadingFacts(name: string, pos: Position)
    ensures var r := ReadingOf(name, pos);
      && r.planet == name && r.longitude == pos.longitude
      && 1 <= r.gate <= 64 && 1 <= r.line <= 6
      && GateLine(r.gate, r.line) == DegreesToGateLine(pos.longitude)
      && r.sign == GateSign(r.gate)
      && |Split(r.gateLine, '.')| == 2
      && PyInt(Split(r.gateLine, '.')[0]) == Some(r.gate)
      && PyInt(Split(r.gateLine, '.')[1]) == Some(r.line)
  {
    var gl := DegreesToGateLine(pos.longitude);
    GateSignNamed(gl.gate);
    SmallFits(gl.gate);
    SmallFits(gl.line);
    LabelSplits(gl.gate, gl.line);
  }

  /** f"{gate}.{line}" splits at '.' into the two numbers again. */
  lemma {:induction false} LabelSplits(gate: int, line: int)
    requires FitsStrDigits(gate) && FitsStrDigits(line)
    ensures Split(GateLineLabel(gate, line), '.') == [IntToString(gate), IntToString(line)]
    ensures PyInt(IntToString(gate)) == Some(gate) && PyInt(IntToString(line)) == Some(line)
  {
    IntToStringChars(gate);
    IntToStringChars(line);
    SplitPair(IntToString(gate), IntToString(line), '.');
    assert GateLineLabel(gate, line) == IntToString(gate) + ['.'] + IntToString(line);
    PyIntOfIntToString(gate);
    PyIntOfIntToString(line);
  }

  /** The Sun's longitude over time, as the design-date search reads it. */
  function SunOf(eph: Ephemeris): real -> real
  {
    jd => eph(Sun, jd)
  }

  /** The reading of one body at `jd`, as the loop of `get_planet_positions` builds it. */
  method Observe(eph: Ephemeris, jd: real, name: string) returns (r: Reading)
    requires name in PLANETS
    ensures r == ReadingAt(eph, jd, name)
  {
    KnownNames(eph, jd, name);
    var pos := PlanetPositionAndSpeed(eph, jd, name).value;
    var gl := DegreesToGateLine(pos.longitude);
    var zodiac := LongitudeToZodiac(pos.longitude);
    var arrow := GetDignityArrow(pos.longitude, pos.speed, gl.gate, gl.line);
    r := Reading(name, gl.gate, gl.line, GateLineLabel(gl.gate, gl.line), GateSign(gl.gate),
                 pos.longitude, zodiac, arrow);
  }

  /** The readings of the first `n` bodies of PLANETS at `jd`, in order. */
  function Readings(eph: Ephemeris, jd: real, n: nat): seq<Reading>
    requires n <= |PLANETS|
  {
    seq(n, k requires 0 <= k < n => ReadingAt(eph, jd, PLANETS[k]))
  }

  /**
   * `get_planet_positions` from the birth Julian day: the design date, then
   * one Personality and one Design reading per body, in PLANETS order. The
   * design-date solver's wrap order is a parameter (it differs between the
   * two copies of the code).
   */
  method GetPlanetPositions(eph: Ephemeris, birthJd: real, order: MotionOrder)
    returns (personality: seq<Reading>, design: seq<Reading>)
    ensures personality == Readings(eph, birthJd, |PLANETS|)
    ensures design == Readings(eph, DesignDate(SunOf(eph), birthJd, order), |PLANETS|)
  {
    var designJd := Solver.CalculateDesignDate(SunOf(eph), birthJd, order);
    personality, design := [], [];
    var i := 0;
    while i < |PLANETS|
      invariant 0 <= i <= |PLANETS|
      invariant personality == Readings(eph, birthJd, i) && design == Readings(eph, designJd, i)
    {
      var p := Observe(eph, birthJd, PLANETS[i]);
      var d := Observe(eph, designJd, PLANETS[i]);
      ReadingsSnoc(eph, birthJd, i);
      ReadingsSnoc(eph, designJd, i);
      personality := personality + [p];
      design := design + [d];
      i := i + 1;
    }
  }

  /** One more body, one more reading at the end. */
  lemma ReadingsSnoc(eph: Ephemeris, jd: real, i: nat)
    requires i < |PLANETS|
    ensures Readings(eph, jd, i + 1) == Readings(eph, jd, i) + [ReadingAt(eph, jd, PLANETS[i])]
  {
  }

  /** The Sun entry of a list built by GetPlanetPositions is its first one. */
  lemma SunFirst()
    ensures PLANETS[0] == "Sun" && forall i | 1 <= i < |PLANETS| :: PLANETS[i] != "Sun"
  {
  }

  // ---------------------------------------------------------------------------
  // The fallback lists, used when the ephemeris fails.

  /** One entry of a fallback list: the fields a reading has, without the longitude. */
  datatype FallbackReading = FallbackReading(planet: string, gate: int, line: int, gateLine: string, sign: string)

  /** `generate_planet_gate_line` with the MD5 digest of its seed string given as `seed`. */
  function GeneratePlanetGateLine(seed: nat, name: string): FallbackReading
  {
    var gate := seed % 64 + 1;
    var line := seed % 6 + 1;
    FallbackReading(name, gate, line, GateLineLabel(gate, line), GateSign(gate))
  }

  /**
   * A fallback gate is in 1..64 and its line in 1..6; since 64 and 6 are
   * both even, the gate and the line always have the same parity.
   */
  lemma {:induction false} FallbackRange(seed: nat, name: string)
    ensures var r := GeneratePlanetGateLine(seed, name);
      1 <= r.gate <= 64 && 1 <= r.line <= 6 && (r.gate - r.line) % 2 == 0
  {
    var q, p := seed / 64, seed / 6;
    assert seed == 64 * q + seed % 64 && seed == 6 * p + seed % 6;
    assert seed % 64 - seed % 6 == 2 * (3 * p - 32 * q);
  }

  /** Every gate and line of the same parity is produced by some seed. */
  lemma {:induction false} FallbackReachable(gate: int, line: int, name: string)
    requires 1 <= gate <= 64 && 1 <= line <= 6 && (gate - line) % 2 == 0
    ensures exists seed: nat :: GeneratePlanetGateLine(seed, name).gate == gate && GeneratePlanetGateLine(seed, name).line == line
  {
    // seed = gate - 1 + 64 k is gate - 1 modulo 64, and 64 k is 4 k modulo 6
    var a, r := (gate - 1) / 6, (gate - 1) % 6;
    var t := line - 1 - r;
    assert t % 2 == 0 by {
      assert gate - 1 == 6 * a + r;
    }
    // 4 k - t is a multiple of 6: k and the multiple for each even t in [-4, 4]
    var k := if t == -4 || t == 2 then 2 else if t == -2 || t == 4 then 1 else 0;
    var c := if t == -4 then 2 else if t == -2 || t == 2 then 1 else 0;
    var seed: nat := gate - 1 + 64 * k;
    assert seed == 6 * (a + 10 * k + c) + (line - 1);
    ModOfMultiple(6, a + 10 * k + c, line - 1);
    ModOfMultiple(64, k, gate - 1);
    assert seed % 6 == line - 1 && seed % 64 == gate - 1;
    var g := GeneratePlanetGateLine(seed, name);
    assert g.gate == seed % 64 + 1 && g.line == seed % 6 + 1;
  }

  lemma ModOfMultiple(n: int, m: int, x: int)
    requires 0 <= x < n
    ensures (n * m + x) % n == x
  {
    var y := n * m + x;
    var d := y / n - m;
    assert n * d == n * (y / n) - n * m;
    assert n * d == x - y % n;
    MultipleBounds(n, d);
  }

  /** A non-zero multiple of `n` is at least `n` away from zero. */
  lemma MultipleBounds(n: int, d: int)
    requires n > 0
    ensures d >= 1 ==> n * d >= n
    ensures d <= -1 ==> n * d <= -n
  {
    if d >= 1 {
      assert n * d == n * (d - 1) + n;
    } else if d <= -1 {
      assert n * d == n * (d + 1) - n;
    }
  }

  /** `generate_personality_list` / `generate_design_list`: one fallback entry per body, seeded per body. */
  function FallbackList(seedOf: string -> nat): (r: seq<FallbackReading>)
    ensures |r| == |PLANETS|
  {
    seq(|PLANETS|, i requires 0 <= i < |PLANETS| => GeneratePlanetGateLine(seedOf(PLANETS[i]), PLANETS[i]))
  }
}
