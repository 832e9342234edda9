/**
 * The longitude-to-symbol layer: which of the 64 gates and 6 lines of the
 * Human Design mandala an ecliptic longitude falls in, which zodiac sign
 * it lies in, and the dignity arrow drawn beside a planet.
 *
 * Longitudes are exact reals. Python's float `%` with a positive modulus is
 * floor-based, so it is written out as `Mod360` and `ModGate`; `int()`
 * truncates toward zero and is written out as `Trunc`. The constants
 * GATE_DEGREE (5.625) and LINE_DEGREE (0.9375) appear as literals inside
 * formulas so that the arithmetic stays linear.
 */
module Mandala {

  /**
   * Python's `x % 360.0`: floor-based, so the result lies in [0, 360) for
   * every x and differs from x by a whole number of turns.
   */
  function Mod360(x: real): (r: real)
    ensures 0.0 <= r < 360.0
    ensures x == r + 360.0 * ((x / 360.0).Floor as real)
  {
    x - 360.0 * ((x / 360.0).Floor as real)
  }

  /** Python's `x % GATE_DEGREE`, the position inside a gate: in [0, 5.625). */
  function ModGate(x: real): (r: real)
    ensures 0.0 <= r < 5.625
    ensures x == r + 5.625 * ((x / 5.625).Floor as real)
  {
    x - 5.625 * ((x / 5.625).Floor as real)
  }

  /** Python's `int(x)` on a float: truncation toward zero. */
  function Trunc(x: real): (n: int)
    ensures x >= 0.0 ==> n as real <= x < n as real + 1.0
    ensures x < 0.0 ==> n as real - 1.0 < x <= n as real
  {
    if x >= 0.0 then x.Floor else -((-x).Floor)
  }

  lemma FloorShift(y: real, k: int)
    ensures (y + k as real).Floor == y.Floor + k
  {
  }

  /** Adding whole turns does not change `x % 360.0`. */
  lemma {:induction false} Mod360Shift(x: real, k: int)
    ensures Mod360(x + 360.0 * (k as real)) == Mod360(x)
  {
    var y := x + 360.0 * (k as real);
    assert y / 360.0 == x / 360.0 + k as real;
    FloorShift(x / 360.0, k);
    assert (y / 360.0).Floor == (x / 360.0).Floor + k;
  }

  /** `x % 360.0` is `x` itself when `x` already lies in [0, 360). */
  lemma Mod360InRange(x: real)
    requires 0.0 <= x < 360.0
    ensures Mod360(x) == x
  {
  }

  /** Values that differ by a whole number of turns have the same residue. */
  lemma {:induction false} Mod360Congruent(x: real, y: real, k: int)
    requires x == y + 360.0 * (k as real)
    ensures Mod360(x) == Mod360(y)
  {
    Mod360Shift(y, k);
  }

  const ARIES_0_OFFSET: real := 58.0
  const GATE_DEGREE: real := 5.625  // 360 / 64
  const LINE_DEGREE: real := 0.9375  // GATE_DEGREE / 6

  /**
   * MANDALA_GATE_SEQUENCE, the mandala order of the gates starting from
   * gate 41 at the mandala's origin: entry i is the gate in the i-th 5.625°
   * slice.
   */
  function MandalaGate(i: int): int
  {
    match i
    case 0 => 41 case 1 => 19 case 2 => 13 case 3 => 49
    case 4 => 30 case 5 => 55 case 6 => 37 case 7 => 63
    case 8 => 22 case 9 => 36 case 10 => 25 case 11 => 17
    case 12 => 21 case 13 => 51 case 14 => 42 case 15 => 3
    case 16 => 27 case 17 => 24 case 18 => 2 case 19 => 23
    case 20 => 8 case 21 => 20 case 22 => 16 case 23 => 35
    case 24 => 45 case 25 => 12 case 26 => 15 case 27 => 52
    case 28 => 39 case 29 => 53 case 30 => 62 case 31 => 56
    case 32 => 31 case 33 => 33 case 34 => 7 case 35 => 4
    case 36 => 29 case 37 => 59 case 38 => 40 case 39 => 64
    case 40 => 47 case 41 => 6 case 42 => 46 case 43 => 18
    case 44 => 48 case 45 => 57 case 46 => 32 case 47 => 50
    case 48 => 28 case 49 => 44 case 50 => 1 case 51 => 43
    case 52 => 14 case 53 => 34 case 54 => 9 case 55 => 5
    case 56 => 26 case 57 => 11 case 58 => 10 case 59 => 58
    case 60 => 38 case 61 => 54 case 62 => 61 case 63 => 60
    case _ => 0
  }

  /** The slice of the mandala that holds gate g: the inverse of MandalaGate. */
  function MandalaPosition(g: int): int
  {
    match g
    case 1 => 50 case 2 => 18 case 3 => 15 case 4 => 35
    case 5 => 55 case 6 => 41 case 7 => 34 case 8 => 20
    case 9 => 54 case 10 => 58 case 11 => 57 case 12 => 25
    case 13 => 2 case 14 => 52 case 15 => 26 case 16 => 22
    case 17 => 11 case 18 => 43 case 19 => 1 case 20 => 21
    case 21 => 12 case 22 => 8 case 23 => 19 case 24 => 17
    case 25 => 10 case 26 => 56 case 27 => 16 case 28 => 48
    case 29 => 36 case 30 => 4 case 31 => 32 case 32 => 46
    case 33 => 33 case 34 => 53 case 35 => 23 case 36 => 9
    case 37 => 6 case 38 => 60 case 39 => 28 case 40 => 38
    case 41 => 0 case 42 => 14 case 43 => 51 case 44 => 49
    case 45 => 24 case 46 => 42 case 47 => 40 case 48 => 44
    case 49 => 3 case 50 => 47 case 51 => 13 case 52 => 27
    case 53 => 29 case 54 => 61 case 55 => 5 case 56 => 31
    case 57 => 45 case 58 => 59 case 59 => 37 case 60 => 63
    case 61 => 62 case 62 => 30 case 63 => 7 case 64 => 39
    case _ => -1
  }

  /** Every slice holds one of the gates 1 .. 64, and MandalaPosition finds it again. */
  lemma MandalaGateInverse()
    ensures forall i | 0 <= i < 64 :: 1 <= MandalaGate(i) <= 64 && MandalaPosition(MandalaGate(i)) == i
  {
    forall i | 0 <= i < 64
      ensures 1 <= MandalaGate(i) <= 64 && MandalaPosition(MandalaGate(i)) == i
    {
      if i < 16 {} else if i < 32 {} else if i < 48 {} else {}
    }
  }

  /** Every gate 1 .. 64 lies in exactly one slice: the mandala order is a permutation. */
  lemma MandalaPositionInverse()
    ensures forall g | 1 <= g <= 64 :: 0 <= MandalaPosition(g) < 64 && MandalaGate(MandalaPosition(g)) == g
  {
    forall g | 1 <= g <= 64
      ensures 0 <= MandalaPosition(g) < 64 && MandalaGate(MandalaPosition(g)) == g
    {
      if g <= 16 {} else if g <= 32 {} else if g <= 48 {} else {}
    }
  }

  datatype GateLine = GateLine(gate: int, line: int)

  /** `degrees_to_gate_line`: the gate and line an ecliptic longitude falls in. */
  function DegreesToGateLine(longitude: real): (r: GateLine)
    ensures 1 <= r.gate <= 64 && 1 <= r.line <= 6
  {
    var lon0 := Mod360(longitude);
    var lon := if lon0 < 0.0 then lon0 + 360.0 else lon0;
    var adjusted := Mod360(lon + ARIES_0_OFFSET);
    var gateIndex := Trunc(adjusted / 5.625) % 64;
    MandalaGateInverse();
    var gate := MandalaGate(gateIndex);
    var gatePosition := ModGate(adjusted);
    var line := Trunc(gatePosition / 0.9375) + 1;
    GateLine(gate, if line > 6 then 6 else if line < 1 then 1 else line)
  }

  /** The mapping only sees the longitude modulo a full turn. */
  lemma {:induction false} GateLinePeriodic(longitude: real, k: int)
    ensures DegreesToGateLine(longitude + 360.0 * (k as real)) == DegreesToGateLine(longitude)
  {
    Mod360Shift(longitude, k);
  }

  /** The longitude at which line `line` of gate `gate` begins. */
  function GateLineStart(gate: int, line: int): (lon: real)
    requires 1 <= gate <= 64 && 1 <= line <= 6
    ensures 0.0 <= lon < 360.0
  {
    MandalaPositionInverse();
    var index := MandalaPosition(gate);
    Mod360(index as real * 5.625 + (line - 1) as real * 0.9375 - ARIES_0_OFFSET)
  }

  /** The gate and line of a mandala position `a` in [0, 360) measured from gate 41. */
  lemma {:induction false} AdjustedToGateLine(a: real, index: int, line: int, offset: real)
    requires 0 <= index < 64 && 1 <= line <= 6 && 0.0 <= offset < 0.9375
    requires a == index as real * 5.625 + (line - 1) as real * 0.9375 + offset
    ensures 0.0 <= a < 360.0
    ensures Trunc(a / 5.625) % 64 == index
    ensures Trunc(ModGate(a) / 0.9375) + 1 == line
  {
    var within := (line - 1) as real * 0.9375 + offset;
    assert a / 5.625 == index as real + within / 5.625;
    assert (a / 5.625).Floor == index;
    assert ModGate(a) == within;
    assert within / 0.9375 == (line - 1) as real + offset / 0.9375;
  }

  /**
   * Every gate and line owns the arc of width LINE_DEGREE that starts at
   * GateLineStart: each longitude on it maps back to that gate and line.
   */
  lemma {:induction false} GateLineArc(gate: int, line: int, offset: real)
    requires 1 <= gate <= 64 && 1 <= line <= 6
    requires 0.0 <= offset < 0.9375
    ensures DegreesToGateLine(GateLineStart(gate, line) + offset) == GateLine(gate, line)
  {
    MandalaPositionInverse();
    MandalaGateInverse();
    var index := MandalaPosition(gate);
    var a := index as real * 5.625 + (line - 1) as real * 0.9375 + offset;
    AdjustedToGateLine(a, index, line, offset);
    var lon := GateLineStart(gate, line) + offset;
    // lon + 58 and a differ by a whole number of turns, and so do lon and lon % 360
    var base := index as real * 5.625 + (line - 1) as real * 0.9375 - ARIES_0_OFFSET;
    var k := (base / 360.0).Floor;
    assert lon + ARIES_0_OFFSET == a - 360.0 * (k as real);
    var j := (lon / 360.0).Floor;
    assert Mod360(lon) + ARIES_0_OFFSET == a - 360.0 * ((k + j) as real);
    Mod360Congruent(Mod360(lon) + ARIES_0_OFFSET, a, -(k + j));
    Mod360InRange(a);
  }

  // The anchors quoted for the mandala: 0° is gate 25, 180° gate 46 and 302°
  // gate 41 line 1. Each follows from the arc of the gate and line it falls on.

  lemma AnchorZero()
    ensures DegreesToGateLine(0.0).gate == 25
  {
    assert GateLineStart(25, 2) == 359.1875;
    GateLineArc(25, 2, 0.8125);
    var lon := GateLineStart(25, 2) + 0.8125;
    assert lon == 0.0 + 360.0 * (1 as real);
    GateLinePeriodic(0.0, 1);
  }

  lemma AnchorHalfTurn()
    ensures DegreesToGateLine(180.0).gate == 46
  {
    assert GateLineStart(46, 2) == 179.1875;
    GateLineArc(46, 2, 0.8125);
    var lon := GateLineStart(46, 2) + 0.8125;
    assert lon == 180.0;
  }

  lemma AnchorGate41()
    ensures DegreesToGateLine(302.0) == GateLine(41, 1)
  {
    assert (-58.0 / 360.0).Floor == -1;
    assert GateLineStart(41, 1) == Mod360(-58.0) == 302.0;
    GateLineArc(41, 1, 0.0);
    var lon := GateLineStart(41, 1) + 0.0;
    assert lon == 302.0;
  }

  // ---------------------------------------------------------------------------
  // Zodiac signs.

  datatype ZodiacSign = ZodiacSign(symbol: string, start: int, end: int)

  /** The twelve signs, thirty degrees each, from Aries at 0°. */
  const ZODIAC_SIGNS: seq<ZodiacSign> := [
    ZodiacSign("♈", 0, 30), ZodiacSign("♉", 30, 60), ZodiacSign("♊", 60, 90),
    ZodiacSign("♋", 90, 120), ZodiacSign("♌", 120, 150), ZodiacSign("♍", 150, 180),
    ZodiacSign("♎", 180, 210), ZodiacSign("♏", 210, 240), ZodiacSign("♐", 240, 270),
    ZodiacSign("♑", 270, 300), ZodiacSign("♒", 300, 330), ZodiacSign("♓", 330, 360)
  ]

  lemma ZodiacBands()
    ensures |ZODIAC_SIGNS| == 12
    ensures forall k | 0 <= k < 12 :: ZODIAC_SIGNS[k].start == 30 * k && ZODIAC_SIGNS[k].end == 30 * k + 30
  {
  }

  /** The symbol of the first sign from `i` on whose band holds `lon`; Aries if none does. */
  function FirstSignFrom(lon: real, i: nat): (symbol: string)
    requires i <= |ZODIAC_SIGNS|
    decreases |ZODIAC_SIGNS| - i
  {
    if i == |ZODIAC_SIGNS| then ZODIAC_SIGNS[0].symbol
    else if ZODIAC_SIGNS[i].start as real <= lon < ZODIAC_SIGNS[i].end as real then ZODIAC_SIGNS[i].symbol
    else FirstSignFrom(lon, i + 1)
  }

  /**
   * `longitude_to_zodiac`: the first sign whose band holds the longitude
   * reduced to [0, 360), with Aries as the fallback.
   */
  method LongitudeToZodiac(longitude: real) returns (symbol: string)
    ensures symbol == FirstSignFrom(Mod360(longitude), 0)
    ensures symbol == ZODIAC_SIGNS[(Mod360(longitude) / 30.0).Floor].symbol
  {
    ZodiacBand(longitude);
    var lon := Mod360(longitude);
    if lon < 0.0 {
      lon := lon + 360.0;
    }
    var i := 0;
    while i < |ZODIAC_SIGNS|
      invariant 0 <= i <= |ZODIAC_SIGNS|
      invariant FirstSignFrom(lon, i) == FirstSignFrom(lon, 0)
    {
      var sign := ZODIAC_SIGNS[i];
      if sign.start as real <= lon < sign.end as real {
        return sign.symbol;
      }
      i := i + 1;
    }
    return ZODIAC_SIGNS[0].symbol;
  }

  /**
   * The sign found is the one numbered floor(lon / 30) for the longitude
   * reduced to [0, 360), so the Aries fallback is never reached.
   */
  lemma {:induction false} ZodiacBand(longitude: real)
    ensures FirstSignFrom(Mod360(longitude), 0) == ZODIAC_SIGNS[(Mod360(longitude) / 30.0).Floor].symbol
  {
    ZodiacBands();
    var lon := Mod360(longitude);
    var k := (lon / 30.0).Floor;
    assert 0 <= k < 12;
    BandSearch(lon, 0, k);
  }

  lemma {:induction false} BandSearch(lon: real, i: nat, k: int)
    requires 0.0 <= lon < 360.0 && k == (lon / 30.0).Floor && i <= k
    ensures FirstSignFrom(lon, i) == ZODIAC_SIGNS[k].symbol
    decreases k - i
  {
    ZodiacBands();
    if i < k {
      BandSearch(lon, i + 1, k);
    }
  }

  // ---------------------------------------------------------------------------
  // Dignity arrows.

  const ARROW_UP := "▲"
  const ARROW_DOWN := "▼"

  /**
   * `get_dignity_arrow`: retrograde beyond the 0.001°/day threshold always
   * draws the down arrow, direct motion in lines 4-6 the up arrow, anything
   * else no arrow.
   */
  function GetDignityArrow(longitude: real, speed: real, gate: int, line: int): (r: string)
    ensures r == ARROW_DOWN <==> speed < -0.001
    ensures r == ARROW_UP <==> speed > 0.001 && line >= 4
    ensures r == "" <==> -0.001 <= speed && (speed <= 0.001 || line < 4)
  {
    if speed < -0.001 then ARROW_DOWN
    else if speed > 0.001 && line >= 4 then ARROW_UP
    else ""
  }
}
