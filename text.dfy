/**
 * Decimal rendering and parsing of integers, substring tests and splitting,
 * the string operations the calculator relies on (f-string interpolation of
 * integers, Python `int(str)`, `in` on strings, `str.split`).
 */
module Text {
  import opened Wrappers

  predicate IsDigit(c: char) { '0' <= c <= '9' }

  function DigitValue(c: char): (d: nat)
    requires IsDigit(c)
    ensures d < 10
  {
    (c as int) - ('0' as int)
  }

  function DigitChar(d: nat): (c: char)
    requires d < 10
    ensures IsDigit(c) && DigitValue(c) == d
  {
    (('0' as int) + d) as char
  }

  /** Decimal digits of `n`, most significant first, no leading zero (f"{n}"). */
  function NatToString(n: nat): (s: string)
    decreases n
  {
    if n < 10 then [DigitChar(n)] else NatToString(n / 10) + [DigitChar(n % 10)]
  }

  predicate AllDigits(s: string) { forall i | 0 <= i < |s| :: IsDigit(s[i]) }

  /** Value of a string of decimal digits. */
  function DigitsValue(s: string): nat
    requires AllDigits(s)
  {
    if s == [] then 0 else DigitsValue(s[..|s| - 1]) * 10 + DigitValue(s[|s| - 1])
  }

  lemma {:induction false} NatToStringDigits(n: nat)
    ensures |NatToString(n)| > 0 && AllDigits(NatToString(n))
    ensures DigitsValue(NatToString(n)) == n
    ensures NatToString(n)[0] != '0' || n == 0
    decreases n
  {
    if n >= 10 {
      NatToStringDigits(n / 10);
      var s := NatToString(n);
      assert s[..|s| - 1] == NatToString(n / 10);
    }
  }

  /** f"{i}" for an integer: a minus sign, then the digits of the magnitude. */
  function IntToString(i: int): (s: string)
  {
    if i < 0 then "-" + NatToString(-i) else NatToString(i)
  }

  // ---------------------------------------------------------------------------
  // Python `int(str)`: every non-ASCII whitespace character is first read as a
  // space and every non-ASCII decimal digit as its ASCII digit; then
  // surrounding ASCII whitespace, an optional sign, and decimal digits with
  // single underscores allowed between digits.

  /** The whitespace `int()` strips once the text is ASCII (C's `isspace`). */
  predicate IsSpace(c: char)
  {
    c == ' ' || c == '\t' || c == '\n' || c == '\r' || c == '\U{0B}' || c == '\U{0C}'
  }

  /** The characters from U+007F up that `str.isspace()` holds for (Unicode 15.0). */
  predicate IsWideSpace(c: char)
  {
    || c == '\U{85}' || c == '\U{A0}' || c == '\U{1680}'
    || ('\U{2000}' <= c <= '\U{200A}')
    || c == '\U{2028}' || c == '\U{2029}' || c == '\U{202F}' || c == '\U{205F}' || c == '\U{3000}'
  }

  /** How many scripts beyond ASCII have decimal digits (Unicode 15.0). */
  const SCRIPTS := 67

  /** The zero of the `k`-th of those scripts, in code point order. */
  function ScriptZero(k: nat): int
    requires k < SCRIPTS
  {
    match k
    case 0 => 0x660
    case 1 => 0x6F0
    case 2 => 0x7C0
    case 3 => 0x966
    case 4 => 0x9E6
    case 5 => 0xA66
    case 6 => 0xAE6
    case 7 => 0xB66
    case 8 => 0xBE6
    case 9 => 0xC66
    case 10 => 0xCE6
    case 11 => 0xD66
    case 12 => 0xDE6
    case 13 => 0xE50
    case 14 => 0xED0
    case 15 => 0xF20
    case 16 => 0x1040
    case 17 => 0x1090
    case 18 => 0x17E0
    case 19 => 0x1810
    case 20 => 0x1946
    case 21 => 0x19D0
    case 22 => 0x1A80
    case 23 => 0x1A90
    case 24 => 0x1B50
    case 25 => 0x1BB0
    case 26 => 0x1C40
    case 27 => 0x1C50
    case 28 => 0xA620
    case 29 => 0xA8D0
    case 30 => 0xA900
    case 31 => 0xA9D0
    case 32 => 0xA9F0
    case 33 => 0xAA50
    case 34 => 0xABF0
    case 35 => 0xFF10
    case 36 => 0x104A0
    case 37 => 0x10D30
    case 38 => 0x11066
    case 39 => 0x110F0
    case 40 => 0x11136
    case 41 => 0x111D0
    case 42 => 0x112F0
    case 43 => 0x11450
    case 44 => 0x114D0
    case 45 => 0x11650
    case 46 => 0x116C0
    case 47 => 0x11730
    case 48 => 0x118E0
    case 49 => 0x11950
    case 50 => 0x11C50
    case 51 => 0x11D50
    case 52 => 0x11DA0
    case 53 => 0x11F50
    case 54 => 0x16A60
    case 55 => 0x16AC0
    case 56 => 0x16B50
    case 57 => 0x1D7CE
    case 58 => 0x1D7D8
    case 59 => 0x1D7E2
    case 60 => 0x1D7EC
    case 61 => 0x1D7F6
    case 62 => 0x1E140
    case 63 => 0x1E2F0
    case 64 => 0x1E4F0
    case 65 => 0x1E950
    case 66 => 0x1FBF0
    case _ => 0x1FBF0
  }

  /**
   * The decimal value of `n` in scripts `lo` to `hi - 1`, or -1, by binary
   * search: each script's digits are the ten code points from its zero.
   */
  function DecimalIn(n: int, lo: nat, hi: nat): (d: int)
    requires lo < hi <= SCRIPTS
    ensures -1 <= d < 10
    decreases hi - lo
  {
    if hi - lo == 1 then
      (if ScriptZero(lo) <= n < ScriptZero(lo) + 10 then n - ScriptZero(lo) else -1)
    else
      var mid := (lo + hi) / 2;
      if n < ScriptZero(mid) then DecimalIn(n, lo, mid) else DecimalIn(n, mid, hi)
  }

  /**
   * `unicodedata.decimal` of a code point from U+0080 up, with -1 for a
   * character that is not a decimal digit.
   */
  function DecimalDigit(n: int): (d: int)
    ensures -1 <= d < 10
  {
    DecimalIn(n, 0, SCRIPTS)
  }

  /**
   * One character of the text `int()` parses: below U+007F unchanged, a
   * wide space becomes ' ', a decimal digit its ASCII digit, anything else
   * '?' (which no parse accepts).
   */
  function AsciiChar(c: char): char
  {
    if c < '\U{7F}' then c
    else if IsWideSpace(c) then ' '
    else if DecimalDigit(c as int) >= 0 then DigitChar(DecimalDigit(c as int))
    else '?'
  }

  function ToAscii(s: string): string
  {
    seq(|s|, i requires 0 <= i < |s| => AsciiChar(s[i]))
  }

  function StripLeft(s: string): (r: string)
    ensures |r| <= |s| && (r == [] || !IsSpace(r[0]))
    ensures r == s[|s| - |r|..]
  {
    if s != [] && IsSpace(s[0]) then StripLeft(s[1..]) else s
  }

  function StripRight(s: string): (r: string)
    ensures |r| <= |s| && (r == [] || !IsSpace(r[|r| - 1]))
    ensures r == s[..|r|]
  {
    if s != [] && IsSpace(s[|s| - 1]) then StripRight(s[..|s| - 1]) else s
  }

  /** `str.strip()` of an ASCII text. */
  function Strip(s: string): string
  {
    StripRight(StripLeft(s))
  }

  /** Digits separated by single underscores, starting and ending with a digit. */
  predicate WellFormedDigits(s: string)
  {
    && |s| > 0 && IsDigit(s[0]) && IsDigit(s[|s| - 1])
    && (forall i | 0 <= i < |s| :: IsDigit(s[i]) || s[i] == '_')
    && (forall i | 0 <= i < |s| - 1 :: !(s[i] == '_' && s[i + 1] == '_'))
  }

  function RemoveUnderscores(s: string): (r: string)
    ensures (forall i | 0 <= i < |s| :: IsDigit(s[i]) || s[i] == '_') ==> AllDigits(r)
  {
    if s == [] then []
    else (if s[0] == '_' then [] else [s[0]]) + RemoveUnderscores(s[1..])
  }

  /**
   * `sys.int_max_str_digits` as Python 3.12 sets it by default: `int()`
   * refuses a decimal text of more digits, leading zeros included, and
   * `str()` refuses to write an integer of more digits.
   */
  const MAX_STR_DIGITS := 4300

  /**
   * The value of an unsigned digit string with underscores, if well formed
   * and of at most MAX_STR_DIGITS digits (underscores do not count).
   */
  function ParseUnsigned(b: string): (r: Option<int>)
    ensures r.Some? ==> r.value >= 0
  {
    if WellFormedDigits(b) && |RemoveUnderscores(b)| <= MAX_STR_DIGITS then
      Some(DigitsValue(RemoveUnderscores(b)) as int)
    else
      None
  }

  /** The value of an optionally signed digit string, if well formed. */
  function ParseSigned(t: string): (r: Option<int>)
  {
    if |t| > 0 && (t[0] == '-' || t[0] == '+') then
      match ParseUnsigned(t[1..])
      case None => None
      case Some(v) => Some(if t[0] == '-' then -v else v)
    else
      ParseUnsigned(t)
  }

  /** The value of `int(s)`, or None where Python raises ValueError. */
  function PyInt(s: string): (r: Option<int>)
  {
    ParseSigned(Strip(ToAscii(s)))
  }

  lemma {:induction false} RemoveUnderscoresOfDigits(s: string)
    requires AllDigits(s)
    ensures RemoveUnderscores(s) == s
  {
    if s != [] {
      RemoveUnderscoresOfDigits(s[1..]);
    }
  }

  lemma StripUnpadded(s: string)
    requires |s| > 0 && !IsSpace(s[0]) && !IsSpace(s[|s| - 1])
    ensures Strip(s) == s
  {
  }

  lemma DigitsWellFormed(d: string)
    requires |d| > 0 && AllDigits(d)
    ensures WellFormedDigits(d)
  {
  }

  /** A digit string is read with its value exactly when it is not longer than the limit. */
  lemma ParseUnsignedDigits(d: string)
    requires |d| > 0 && AllDigits(d)
    ensures ParseUnsigned(d) == if |d| <= MAX_STR_DIGITS then Some(DigitsValue(d) as int) else None
  {
    RemoveUnderscoresOfDigits(d);
    DigitsWellFormed(d);
  }

  /** `int()` leaves a text below U+007F as it is before parsing. */
  lemma AsciiUnchanged(s: string)
    requires forall i | 0 <= i < |s| :: s[i] < '\U{7F}'
    ensures ToAscii(s) == s
  {
  }

  /** A well-formed digit string is ASCII. */
  lemma UnsignedAscii(d: string)
    requires ParseUnsigned(d).Some?
    ensures forall i | 0 <= i < |d| :: d[i] < '\U{7F}'
  {
  }

  lemma PyIntUnsigned(d: string, v: int)
    requires |d| > 0 && !IsSpace(d[0]) && !IsSpace(d[|d| - 1]) && d[0] != '-' && d[0] != '+'
    requires ParseUnsigned(d) == Some(v)
    ensures PyInt(d) == Some(v)
  {
    UnsignedAscii(d);
    AsciiUnchanged(d);
    StripUnpadded(d);
  }

  lemma PyIntNegative(d: string, v: int)
    requires |d| > 0 && !IsSpace(d[|d| - 1]) && ParseUnsigned(d) == Some(v)
    ensures PyInt("-" + d) == Some(-v)
  {
    var s := "-" + d;
    assert s[|s| - 1] == d[|d| - 1];
    UnsignedAscii(d);
    assert forall i | 0 <= i < |s| :: s[i] < '\U{7F}' by {
      assert forall i | 1 <= i < |s| :: s[i] == d[i - 1];
    }
    AsciiUnchanged(s);
    StripUnpadded(s);
    assert PyInt(s) == ParseSigned(s);
    assert s[1..] == d && s[0] == '-';
    assert ParseSigned(s) == Some(-v);
  }

  /** Whether `str()` writes `i` at all: its magnitude has at most MAX_STR_DIGITS digits. */
  predicate FitsStrDigits(i: int)
  {
    |NatToString(if i < 0 then -i else i)| <= MAX_STR_DIGITS
  }

  /** A natural number has at most one digit more than its value. */
  lemma {:induction false} NatToStringLength(n: nat)
    ensures |NatToString(n)| <= n + 1
    decreases n
  {
    if n >= 10 {
      NatToStringLength(n / 10);
    }
  }

  /** Every integer of magnitude below MAX_STR_DIGITS is written by `str()`. */
  lemma SmallFits(i: int)
    requires -MAX_STR_DIGITS < i < MAX_STR_DIGITS
    ensures FitsStrDigits(i)
  {
    NatToStringLength(if i < 0 then -i else i);
  }

  /** The digits `str()` writes for a magnitude within the limit are read back as it. */
  lemma MagnitudeParses(n: nat)
    requires |NatToString(n)| <= MAX_STR_DIGITS
    ensures |NatToString(n)| > 0 && ParseUnsigned(NatToString(n)) == Some(n)
    ensures !IsSpace(NatToString(n)[0]) && !IsSpace(NatToString(n)[|NatToString(n)| - 1])
  {
    NatToStringDigits(n);
    ParseUnsignedDigits(NatToString(n));
  }

  /** Parsing an integer rendered by an f-string gives the integer back. */
  lemma {:induction false} PyIntOfIntToString(i: int)
    requires FitsStrDigits(i)
    ensures PyInt(IntToString(i)) == Some(i)
  {
    var n: nat := if i < 0 then -i else i;
    var d := NatToString(n);
    MagnitudeParses(n);
    if i < 0 {
      PyIntNegative(d, n);
    } else {
      PyIntUnsigned(d, n);
    }
  }
  /**
   * A padded digit string is read with its value exactly when it has at
   * most MAX_STR_DIGITS digits; one digit more, even a leading zero, makes
   * `int()` refuse it.
   */
  lemma PyIntDigitLimit(d: string)
    requires |d| > 0 && AllDigits(d)
    ensures PyInt(d) == if |d| <= MAX_STR_DIGITS then Some(DigitsValue(d) as int) else None
  {
    ParseUnsignedDigits(d);
    AsciiUnchanged(d);
    StripUnpadded(d);
  }


  lemma ZerosApartFrom(lo: nat, hi: nat)
    requires lo <= hi <= SCRIPTS - 1 && hi - lo <= 12
    ensures forall j | lo <= j < hi :: ScriptZero(j) + 10 <= ScriptZero(j + 1)
  {
  }

  /** The scripts' zeros are in order and at least ten apart. */
  lemma ZerosApart()
    ensures forall j | 0 <= j < SCRIPTS - 1 :: ScriptZero(j) + 10 <= ScriptZero(j + 1)
  {
    ZerosApartFrom(0, 12);
    ZerosApartFrom(12, 24);
    ZerosApartFrom(24, 36);
    ZerosApartFrom(36, 48);
    ZerosApartFrom(48, 60);
    ZerosApartFrom(60, 66);
  }

  /** Every digit of every script is above ASCII and clear of the surrogates. */
  lemma ZerosInRange()
    ensures forall j | 0 <= j < SCRIPTS ::
      (0x80 <= ScriptZero(j) && ScriptZero(j) + 10 <= 0xD800) || (0xE000 <= ScriptZero(j) && ScriptZero(j) + 10 <= 0x11_0000)
  {
  }

  lemma {:induction false} ZeroOrder(j: nat, m: nat)
    requires j < m < SCRIPTS
    ensures ScriptZero(j) + 10 <= ScriptZero(m)
    decreases m - j
  {
    ZerosApart();
    if j + 1 < m {
      ZeroOrder(j + 1, m);
    }
  }

  /** Digit `k` of script `j` is found by the search over any scripts that include `j`. */
  lemma {:induction false} DecimalInScript(j: nat, k: int, lo: nat, hi: nat)
    requires lo <= j < hi <= SCRIPTS && 0 <= k < 10
    ensures DecimalIn(ScriptZero(j) + k, lo, hi) == k
    decreases hi - lo
  {
    if hi - lo > 1 {
      var mid := (lo + hi) / 2;
      if j < mid {
        ZeroOrder(j, mid);
        DecimalInScript(j, k, lo, mid);
      } else {
        if mid < j {
          ZeroOrder(mid, j);
        }
        DecimalInScript(j, k, mid, hi);
      }
    }
  }

  /** A code point in no script's run of ten is not a decimal digit. */
  lemma {:induction false} DecimalInOutside(n: int, lo: nat, hi: nat)
    requires lo < hi <= SCRIPTS
    requires forall j | lo <= j < hi :: !(ScriptZero(j) <= n < ScriptZero(j) + 10)
    ensures DecimalIn(n, lo, hi) == -1
    decreases hi - lo
  {
    if hi - lo > 1 {
      var mid := (lo + hi) / 2;
      if n < ScriptZero(mid) {
        DecimalInOutside(n, lo, mid);
      } else {
        DecimalInOutside(n, mid, hi);
      }
    }
  }

  /** The ten digits of every script have the decimal values 0 to 9. */
  lemma ScriptDigits(j: nat, k: int)
    requires j < SCRIPTS && 0 <= k < 10
    ensures DecimalDigit(ScriptZero(j) + k) == k
  {
    DecimalInScript(j, k, 0, SCRIPTS);
  }

  /** No wide space is a decimal digit. */
  lemma WideSpaceNotDigit(c: char)
    requires IsWideSpace(c)
    ensures DecimalDigit(c as int) == -1
  {
    forall j | 0 <= j < SCRIPTS
      ensures !(ScriptZero(j) <= c as int < ScriptZero(j) + 10)
    {
    }
    DecimalInOutside(c as int, 0, SCRIPTS);
  }

  /** Digit `k` of a script reads as the ASCII digit `k`. */
  lemma AsciiCharOfDigit(c: char, j: nat, k: int)
    requires j < SCRIPTS && 0 <= k < 10 && c as int == ScriptZero(j) + k
    ensures AsciiChar(c) == DigitChar(k)
  {
    ScriptDigits(j, k);
    ZerosInRange();
    if IsWideSpace(c) {
      WideSpaceNotDigit(c);
    }
  }

  /**
   * A decimal numeral written in the digits of any script `j` reads as the
   * same number as its ASCII twin `d`.
   */
  lemma PyIntOtherScript(d: string, j: nat, s: string)
    requires AllDigits(d) && j < SCRIPTS
    requires |s| == |d| && forall i | 0 <= i < |s| :: s[i] as int == ScriptZero(j) + DigitValue(d[i])
    ensures PyInt(s) == PyInt(d)
  {
    forall i | 0 <= i < |s|
      ensures ToAscii(s)[i] == d[i]
    {
      AsciiCharOfDigit(s[i], j, DigitValue(d[i]));
    }
    assert ToAscii(s) == d;
    AsciiUnchanged(d);
  }

  /** Every character of `s` is whitespace to `int()`. */
  predicate AllSpace(s: string)
  {
    forall i | 0 <= i < |s| :: IsSpace(s[i]) || IsWideSpace(s[i])
  }

  lemma {:induction false} StripLeftSpaces(sp: string, y: string)
    requires forall i | 0 <= i < |sp| :: IsSpace(sp[i])
    ensures StripLeft(sp + y) == StripLeft(y)
  {
    if sp != [] {
      assert (sp + y)[0] == sp[0] && (sp + y)[1..] == sp[1..] + y;
      StripLeftSpaces(sp[1..], y);
    } else {
      assert sp + y == y;
    }
  }

  lemma {:induction false} StripRightSpaces(y: string, sp: string)
    requires forall i | 0 <= i < |sp| :: IsSpace(sp[i])
    ensures StripRight(y + sp) == StripRight(y)
  {
    if sp != [] {
      var shorter := sp[..|sp| - 1];
      assert (y + sp)[|y + sp| - 1] == sp[|sp| - 1];
      assert (y + sp)[..|y + sp| - 1] == y + shorter;
      StripRightSpaces(y, shorter);
    } else {
      assert y + sp == y;
    }
  }

  lemma {:induction false} StripLeftAppend(x: string, y: string)
    ensures StripLeft(x + y) == if StripLeft(x) == [] then StripLeft(y) else StripLeft(x) + y
  {
    if x != [] {
      assert (x + y)[0] == x[0] && (x + y)[1..] == x[1..] + y;
      if IsSpace(x[0]) {
        StripLeftAppend(x[1..], y);
      }
    } else {
      assert x + y == y;
    }
  }

  /** `str.strip()` removes ASCII whitespace added round a text. */
  lemma StripPadded(a: string, b: string, c: string)
    requires forall i | 0 <= i < |a| :: IsSpace(a[i])
    requires forall i | 0 <= i < |c| :: IsSpace(c[i])
    ensures Strip(a + b + c) == Strip(b)
  {
    assert a + b + c == a + (b + c);
    StripLeftSpaces(a, b + c);
    StripLeftAppend(b, c);
    if StripLeft(b) == [] {
      StripLeftSpaces(c, []);
      assert c + [] == c;
    } else {
      StripRightSpaces(StripLeft(b), c);
    }
  }

  lemma ToAsciiAppend(x: string, y: string)
    ensures ToAscii(x + y) == ToAscii(x) + ToAscii(y)
  {
  }

  /** Whitespace of any script becomes ASCII whitespace. */
  lemma ToAsciiSpaces(s: string)
    requires AllSpace(s)
    ensures forall i | 0 <= i < |ToAscii(s)| :: IsSpace(ToAscii(s)[i])
  {
  }

  /** Whitespace of any script round a text leaves `int()` of it unchanged. */
  lemma PyIntPadded(before: string, s: string, after: string)
    requires AllSpace(before) && AllSpace(after)
    ensures PyInt(before + s + after) == PyInt(s)
  {
    ToAsciiAppend(before, s);
    ToAsciiAppend(before + s, after);
    ToAsciiSpaces(before);
    ToAsciiSpaces(after);
    StripPadded(ToAscii(before), ToAscii(s), ToAscii(after));
  }

  /** `int("\u00a05")`, a no-break space before the digit, is 5. */
  lemma PyIntNoBreakSpaceInput(s: string)
    requires s == "\U{A0}5"
    ensures PyInt(s) == Some(5)
  {
    var five := [s[1]];
    assert five[..0] == [];
    PyIntDigitLimit(five);
    assert s == [s[0]] + five + [];
    PyIntPadded([s[0]], five, []);
  }

  /** `int("\u30005")`, an ideographic space before the digit, is 5. */
  lemma PyIntIdeographicSpaceInput(s: string)
    requires s == "\U{3000}5"
    ensures PyInt(s) == Some(5)
  {
    var five := [s[1]];
    assert five[..0] == [];
    PyIntDigitLimit(five);
    assert s == [s[0]] + five + [];
    PyIntPadded([s[0]], five, []);
  }

  lemma PyIntTwelve(ascii: string)
    requires ascii == "12"
    ensures PyInt(ascii) == Some(12)
  {
    var one := ascii[..1];
    assert one == [ascii[0]] && ascii[..|ascii| - 1] == one;
    assert DigitsValue(one) == 1 by {
      assert one[..|one| - 1] == [];
    }
    assert DigitsValue(ascii) == 12;
    ParseUnsignedDigits(ascii);
    PyIntUnsigned(ascii, 12);
  }

  lemma FullwidthTwelve(s: string, ascii: string)
    requires s == "\U{FF11}\U{FF12}" && ascii == "12"
    ensures 35 < SCRIPTS && forall i | 0 <= i < |s| :: s[i] as int == ScriptZero(35) + DigitValue(ascii[i])
  {
    assert ScriptZero(35) == 0xFF10;
    forall i | 0 <= i < |s|
      ensures s[i] as int == ScriptZero(35) + DigitValue(ascii[i])
    {
      if i == 0 {
      } else {
        assert i == 1;
      }
    }
  }

  /** `int("１２")`, in fullwidth digits, is `int("12")`, which is 12. */
  lemma PyIntFullwidthInput(s: string, ascii: string)
    requires s == "\U{FF11}\U{FF12}" && ascii == "12"
    ensures PyInt(s) == PyInt(ascii) == Some(12)
  {
    PyIntTwelve(ascii);
    FullwidthTwelve(s, ascii);
    PyIntOtherScript(ascii, 35, s);
  }

  /** An f-string of an integer holds only a minus sign and digits. */
  lemma {:induction false} IntToStringChars(i: int)
    ensures forall k | 0 <= k < |IntToString(i)| :: IntToString(i)[k] == '-' || IsDigit(IntToString(i)[k])
  {
    var n: nat := if i < 0 then -i else i;
    NatToStringDigits(n);
  }

  // ---------------------------------------------------------------------------
  // Substrings.

  predicate OccursAt(s: string, sub: string, i: nat)
  {
    i + |sub| <= |s| && s[i..i + |sub|] == sub
  }

  /** Whether `sub` occurs in `s` at `i` or later; computed position by position. */
  predicate ContainsFrom(s: string, sub: string, i: nat)
    decreases |s| - i
  {
    if i + |sub| > |s| then false else OccursAt(s, sub, i) || ContainsFrom(s, sub, i + 1)
  }

  /** Python's `sub in s`. */
  predicate Contains(s: string, sub: string)
  {
    ContainsFrom(s, sub, 0)
  }

  /** The scan finds `sub` exactly when it occurs at some position. */
  lemma {:induction false} ContainsFromIff(s: string, sub: string, i: nat)
    ensures ContainsFrom(s, sub, i) <==> exists j: nat | i <= j <= |s| :: OccursAt(s, sub, j)
    decreases |s| - i
  {
    if i + |sub| <= |s| {
      ContainsFromIff(s, sub, i + 1);
      if !OccursAt(s, sub, i) && !ContainsFrom(s, sub, i + 1) {
        forall j: nat | i <= j <= |s| ensures !OccursAt(s, sub, j) {
          if j == i {} else {}
        }
      }
    }
  }

  /** A string cannot contain a substring one of whose characters it lacks. */
  lemma {:induction false} AbsentChar(s: string, sub: string, j: nat)
    requires j < |sub| && sub[j] !in s
    ensures !Contains(s, sub)
  {
    ContainsFromIff(s, sub, 0);
    forall i: nat | i <= |s| ensures !OccursAt(s, sub, i) {
      if i + |sub| <= |s| {
        assert s[i..i + |sub|][j] == s[i + j];
      }
    }
  }

  /** An occurrence at some position is found by the scan. */
  lemma ContainsAt(s: string, sub: string, j: nat)
    requires OccursAt(s, sub, j)
    ensures Contains(s, sub)
  {
    ContainsFromIff(s, sub, 0);
  }

  /**
   * A string does not contain `sub` when no window of its length both starts
   * and ends with the characters `sub` starts and ends with.
   */
  lemma {:induction false} NoWindow(s: string, sub: string)
    requires |sub| > 0
    requires forall j | 0 <= j <= |s| - |sub| :: s[j] != sub[0] || s[j + |sub| - 1] != sub[|sub| - 1]
    ensures !Contains(s, sub)
  {
    ContainsFromIff(s, sub, 0);
    forall i: nat | i <= |s| ensures !OccursAt(s, sub, i) {
      if i + |sub| <= |s| {
        assert s[i..i + |sub|][0] == s[i];
        assert s[i..i + |sub|][|sub| - 1] == s[i + |sub| - 1];
      }
    }
  }

  predicate StartsWith(s: string, prefix: string)
  {
    |prefix| <= |s| && s[..|prefix|] == prefix
  }

  // ---------------------------------------------------------------------------
  // Python's `str.split(sep)` for a one-character separator.

  /** Index of the first `sep` in `s`, or |s| when there is none. */
  function FirstIndex(s: string, sep: char): (k: nat)
    ensures k <= |s|
    ensures forall i | 0 <= i < k :: s[i] != sep
    ensures k < |s| ==> s[k] == sep
  {
    if s == [] then 0 else if s[0] == sep then 0 else 1 + FirstIndex(s[1..], sep)
  }

  function Split(s: string, sep: char): (parts: seq<string>)
    ensures |parts| > 0
    decreases |s|
  {
    var k := FirstIndex(s, sep);
    if k == |s| then [s] else [s[..k]] + Split(s[k + 1..], sep)
  }

  function Join(parts: seq<string>, sep: char): string
  {
    if |parts| <= 1 then (if parts == [] then "" else parts[0])
    else parts[0] + [sep] + Join(parts[1..], sep)
  }

  /** Two separator-free strings joined by the separator split back into the two. */
  lemma {:induction false} SplitPair(a: string, b: string, sep: char)
    requires sep !in a && sep !in b
    ensures Split(a + [sep] + b, sep) == [a, b]
  {
    var s := a + [sep] + b;
    assert s[|a|] == sep;
    assert forall i | 0 <= i < |a| :: s[i] == a[i];
    assert FirstIndex(s, sep) == |a| by {
      FirstIndexIs(s, sep, |a|);
    }
    assert s[..|a|] == a && s[|a| + 1..] == b;
    FirstIndexIs(b, sep, |b|);
  }

  /** The first separator is at `k` when `s[k]` is one and none comes before it. */
  lemma {:induction false} FirstIndexIs(s: string, sep: char, k: nat)
    requires k <= |s| && (k < |s| ==> s[k] == sep)
    requires forall i | 0 <= i < k :: s[i] != sep
    ensures FirstIndex(s, sep) == k
    decreases k
  {
    if k > 0 {
      FirstIndexIs(s[1..], sep, k - 1);
    }
  }

  /** Splitting undoes joining: no part loses or gains a character. */
  lemma {:induction false} JoinSplit(s: string, sep: char)
    ensures Join(Split(s, sep), sep) == s
    ensures forall p | p in Split(s, sep) :: sep !in p
    decreases |s|
  {
    var k := FirstIndex(s, sep);
    if k < |s| {
      JoinSplit(s[k + 1..], sep);
      assert s == s[..k] + [sep] + s[k + 1..];
    }
  }
}
