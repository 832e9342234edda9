/**
 * The replacement template of Python's `re.sub`: the string is read once,
 * before any search, into literal text and group references. A backslash
 * introduces an escape: `\\` and the control escapes stand for one
 * character, `\1`..`\99` for a group, `\0`, `\0o` and three octal digits
 * for a character, a backslash before any other ASCII letter is an error,
 * and before anything else it is kept with the character.
 */
module Template {
  import opened Wrappers
  import opened Escape

  datatype Piece = Lit(text: string) | Group(index: nat)

  datatype TemplateError =
    | TrailingBackslash               // the template ends in a single backslash
    | BadEscape(letter: char)         // a backslash before an ASCII letter with no meaning
    | InvalidGroupReference(index: nat)
    | OctalOutOfRange(value: nat)     // three octal digits above 0o377
    | NamedGroup                      // `\g<...>`, whose reading is not modelled

  predicate IsDigit(c: char) { '0' <= c <= '9' }

  predicate IsOctDigit(c: char) { '0' <= c <= '7' }

  predicate IsAsciiLetter(c: char) { 'a' <= c <= 'z' || 'A' <= c <= 'Z' }

  function DigitValue(c: char): (v: nat)
    requires IsDigit(c)
    ensures v < 10 && (IsOctDigit(c) ==> v < 8)
  {
    c as int - '0' as int
  }

  /** The one-letter escapes a template understands, and `\\`. */
  function ControlEscape(c: char): Option<char>
  {
    match c
    case 'a' => Some(7 as char)
    case 'b' => Some(8 as char)
    case 'f' => Some(12 as char)
    case 'n' => Some(10 as char)
    case 'r' => Some(13 as char)
    case 't' => Some(9 as char)
    case 'v' => Some(11 as char)
    case '\\' => Some('\\')
    case _ => None
  }

  /** `pieces` before what `rest` parses to, or the error of `rest`. */
  function Then(pieces: seq<Piece>, rest: Result<seq<Piece>, TemplateError>): Result<seq<Piece>, TemplateError>
  {
    match rest
    case Failure(e) => Failure(e)
    case Success(more) => Success(pieces + more)
  }

  lemma ThenThen(a: seq<Piece>, b: seq<Piece>, r: Result<seq<Piece>, TemplateError>)
    ensures Then(a, Then(b, r)) == Then(a + b, r)
  {
    if r.Success? {
      assert a + (b + r.value) == (a + b) + r.value;
    }
  }

  /** Every group a piece refers to is one of the pattern's `groups` groups. */
  predicate GroupsWithin(pieces: seq<Piece>, groups: int)
  {
    forall i | 0 <= i < |pieces| :: pieces[i].Group? ==> 1 <= pieces[i].index <= groups
  }

  /**
   * The template `t` of a pattern with `groups` groups, read from the left:
   * a group reference must name an existing group; two digits after the
   * backslash make one group number unless, both octal, a third octal digit
   * follows, which makes a character.
   */
  function Parse(t: string, groups: nat): (r: Result<seq<Piece>, TemplateError>)
    ensures r.Success? ==> GroupsWithin(r.value, groups)
    decreases |t|
  {
    if t == [] then Success([])
    else if t[0] != '\\' then Then([Lit([t[0]])], Parse(t[1..], groups))
    else if |t| == 1 then Failure(TrailingBackslash)
    else
      var c := t[1];
      if c == 'g' then Failure(NamedGroup)
      else if c == '0' then
        // up to two more octal digits
        var n := if |t| > 2 && IsOctDigit(t[2]) then (if |t| > 3 && IsOctDigit(t[3]) then 2 else 1) else 0;
        var value := if n == 0 then 0 else if n == 1 then DigitValue(t[2]) else 8 * DigitValue(t[2]) + DigitValue(t[3]);
        Then([Lit([value as char])], Parse(t[2 + n..], groups))
      else if IsDigit(c) then
        if |t| > 2 && IsDigit(t[2]) then
          if IsOctDigit(c) && IsOctDigit(t[2]) && |t| > 3 && IsOctDigit(t[3]) then
            var value := 64 * DigitValue(c) + 8 * DigitValue(t[2]) + DigitValue(t[3]);
            if value > 255 then Failure(OctalOutOfRange(value))
            else Then([Lit([value as char])], Parse(t[4..], groups))
          else
            var index := 10 * DigitValue(c) + DigitValue(t[2]);
            if index > groups then Failure(InvalidGroupReference(index))
            else Then([Group(index)], Parse(t[3..], groups))
        else
          var index := DigitValue(c);
          if index > groups then Failure(InvalidGroupReference(index))
          else Then([Group(index)], Parse(t[2..], groups))
      else
        match ControlEscape(c)
        case Some(e) => Then([Lit([e])], Parse(t[2..], groups))
        case None =>
          if IsAsciiLetter(c) then Failure(BadEscape(c))
          else Then([Lit(['\\', c])], Parse(t[2..], groups))
  }

  /** The text a template writes for a match whose groups are `values` (group 0 first). */
  function Expand(pieces: seq<Piece>, values: seq<string>): string
    requires GroupsWithin(pieces, |values| - 1)
  {
    if pieces == [] then ""
    else
      (match pieces[0] case Lit(s) => s case Group(i) => values[i])
      + Expand(pieces[1..], values)
  }

  /** The text of the pieces is the text of each part. */
  lemma {:induction false} ExpandAppend(a: seq<Piece>, b: seq<Piece>, values: seq<string>)
    requires GroupsWithin(a, |values| - 1) && GroupsWithin(b, |values| - 1)
    ensures GroupsWithin(a + b, |values| - 1)
    ensures Expand(a + b, values) == Expand(a, values) + Expand(b, values)
  {
    if a != [] {
      var head := match a[0] case Lit(s) => s case Group(i) => values[i];
      assert (a + b)[0] == a[0] && (a + b)[1..] == a[1..] + b;
      calc {
        Expand(a + b, values);
        head + Expand(a[1..] + b, values);
        { ExpandAppend(a[1..], b, values); }
        head + (Expand(a[1..], values) + Expand(b, values));
        Expand(a, values) + Expand(b, values);
      }
    } else {
      assert a + b == b;
    }
  }

  /** A backslash and a non-zero digit, with no digit after them, refer to that group. */
  lemma ParseGroup(k: char, rest: string, groups: nat)
    requires '1' <= k <= '9' && (rest == [] || !IsDigit(rest[0]))
    ensures Parse(['\\', k] + rest, groups) ==
      if DigitValue(k) > groups then Failure(InvalidGroupReference(DigitValue(k)))
      else Then([Group(DigitValue(k))], Parse(rest, groups))
  {
    assert (['\\', k] + rest)[2..] == rest;
  }

  /** Two digits after a backslash, not three octal ones, refer to a group numbered by both. */
  lemma ParseTwoDigitGroup(d1: char, d2: char, rest: string, groups: nat)
    requires '1' <= d1 <= '9' && IsDigit(d2)
    requires !(IsOctDigit(d1) && IsOctDigit(d2) && rest != [] && IsOctDigit(rest[0]))
    ensures var index := 10 * DigitValue(d1) + DigitValue(d2);
      Parse(['\\', d1, d2] + rest, groups) ==
        if index > groups then Failure(InvalidGroupReference(index))
        else Then([Group(index)], Parse(rest, groups))
  {
    assert (['\\', d1, d2] + rest)[3..] == rest;
  }

  /** Three octal digits after a backslash, the first not zero, make one character. */
  lemma ParseOctal(d1: char, d2: char, d3: char, rest: string, groups: nat)
    requires '1' <= d1 <= '7' && IsOctDigit(d2) && IsOctDigit(d3)
    ensures var value := 64 * DigitValue(d1) + 8 * DigitValue(d2) + DigitValue(d3);
      Parse(['\\', d1, d2, d3] + rest, groups) ==
        if value > 255 then Failure(OctalOutOfRange(value))
        else Then([Lit([value as char])], Parse(rest, groups))
  {
    assert (['\\', d1, d2, d3] + rest)[4..] == rest;
  }

  // ---------------------------------------------------------------------------
  // What the template makes of an escaped CSV

  /**
   * The pieces an escaped CSV becomes: the doubled backslash is read back
   * as one backslash, the backslash before a backtick or a '$' is kept.
   */
  function WrittenPieces(s: string): seq<Piece>
  {
    if s == [] then []
    else
      [if s[0] == '\\' then Lit("\\")
       else if s[0] == '`' then Lit("\\`")
       else if s[0] == '$' && |s| > 1 && s[1] == '{' then Lit("\\$")
       else Lit([s[0]])]
      + WrittenPieces(s[1..])
  }

  /** What the template writes into the file for the CSV `s`: one backslash fewer per CSV backslash. */
  function WrittenBody(s: string): string
  {
    if s == [] then []
    else
      (if s[0] == '\\' then "\\"
       else if s[0] == '`' then "\\`"
       else if s[0] == '$' && |s| > 1 && s[1] == '{' then "\\$"
       else [s[0]])
      + WrittenBody(s[1..])
  }

  lemma {:induction false} WrittenPiecesLiteral(s: string, values: seq<string>)
    requires |values| > 0
    ensures GroupsWithin(WrittenPieces(s), |values| - 1)
    ensures Expand(WrittenPieces(s), values) == WrittenBody(s)
  {
    if s != [] {
      WrittenPiecesLiteral(s[1..], values);
    }
  }

  /** A backslash before a backslash, a backtick or a '$' is read as one piece. */
  lemma ParseEscape(c: char, u: string, groups: nat)
    requires c == '\\' || c == '`' || c == '$'
    ensures Parse(['\\', c] + u, groups) == Then([if c == '\\' then Lit("\\") else Lit(['\\', c])], Parse(u, groups))
  {
    assert (['\\', c] + u)[2..] == u;
  }

  /** Any character but a backslash is read as itself. */
  lemma ParsePlain(c: char, u: string, groups: nat)
    requires c != '\\'
    ensures Parse([c] + u, groups) == Then([Lit([c])], Parse(u, groups))
  {
    assert ([c] + u)[1..] == u;
  }

  /** One escaped character of the CSV, as the template reads it. */
  lemma ParseEscapedHead(s: string, rest: string, groups: nat)
    requires s != []
    ensures Parse(Escaped(s) + rest, groups) == Then(WrittenPieces(s)[..1], Parse(Escaped(s[1..]) + rest, groups))
  {
    if s[0] == '\\' || s[0] == '`' || (s[0] == '$' && |s| > 1 && s[1] == '{') {
      assert Escaped(s) + rest == ['\\', s[0]] + (Escaped(s[1..]) + rest);
      ParseEscape(s[0], Escaped(s[1..]) + rest, groups);
    } else {
      assert Escaped(s) + rest == [s[0]] + (Escaped(s[1..]) + rest);
      ParsePlain(s[0], Escaped(s[1..]) + rest, groups);
    }
  }

  /** The template reads an escaped CSV as the pieces of its written body, then goes on. */
  lemma {:induction false} ParseEscaped(s: string, rest: string, groups: nat)
    ensures Parse(Escaped(s) + rest, groups) == Then(WrittenPieces(s), Parse(rest, groups))
    decreases |s|
  {
    if s != [] {
      ParseEscapedHead(s, rest, groups);
      ParseEscaped(s[1..], rest, groups);
      assert WrittenPieces(s) == WrittenPieces(s)[..1] + WrittenPieces(s[1..]);
      ThenThen(WrittenPieces(s)[..1], WrittenPieces(s[1..]), Parse(rest, groups));
    } else {
      assert Escaped(s) + rest == rest;
      var r := Parse(rest, groups);
      if r.Success? {
        assert WrittenPieces(s) + r.value == r.value;
      }
    }
  }

  /** Only a CSV without backslashes is written as it was escaped. */
  lemma {:induction false} WrittenBodyKeepsEscape(s: string)
    ensures WrittenBody(s) == Escaped(s) <==> CountChar(s, '\\') == 0
    decreases |s|
  {
    if s != [] {
      WrittenBodyKeepsEscape(s[1..]);
      WrittenBodyLength(s[1..]);
      EscapedLength(s[1..]);
      if s[0] == '\\' {
        assert |WrittenBody(s)| != |Escaped(s)|;
      }
    }
  }

  /** The written body is longer than the CSV by the backticks and "${" only. */
  lemma {:induction false} WrittenBodyLength(s: string)
    ensures |WrittenBody(s)| == |s| + CountChar(s, '`') + CountDollarBrace(s)
    decreases |s|
  {
    if s != [] {
      WrittenBodyLength(s[1..]);
    }
  }
}
