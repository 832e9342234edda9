/**
 * The escape chain every embed script applies to the CSV text before it is
 * placed inside a JavaScript template literal: backslashes doubled, then a
 * backslash put before every backtick and every "${". The template literal
 * reads the body back with its own escapes.
 */
module Escape {
  import opened Wrappers

  // ---------------------------------------------------------------------------
  // str.replace

  /** `s.replace(pat, repl)`: every non-overlapping occurrence, from the left. */
  function Replace(s: string, pat: string, repl: string): string
    requires |pat| > 0
    decreases |s|
  {
    if |s| < |pat| then s
    else if s[..|pat|] == pat then repl + Replace(s[|pat|..], pat, repl)
    else [s[0]] + Replace(s[1..], pat, repl)
  }

  /** A first character that cannot start `pat` is copied as it is. */
  lemma ReplaceHead(c: char, rest: string, pat: string, repl: string)
    requires |pat| > 0 && c != pat[0]
    ensures Replace([c] + rest, pat, repl) == [c] + Replace(rest, pat, repl)
  {
    var s := [c] + rest;
    assert s[1..] == rest;
    if |s| >= |pat| {
      assert s[..|pat|][0] == c;
    }
  }

  /** A one-character pattern: the first character, replaced or kept, then the rest. */
  lemma ReplaceCharStep(s: string, x: char, repl: string)
    requires s != []
    ensures Replace(s, [x], repl) == (if s[0] == x then repl else [s[0]]) + Replace(s[1..], [x], repl)
  {
    assert s[..1] == [s[0]];
  }

  /** A one-character pattern is replaced in each part separately. */
  lemma {:induction false} ReplaceCharAppend(a: string, b: string, x: char, repl: string)
    ensures Replace(a + b, [x], repl) == Replace(a, [x], repl) + Replace(b, [x], repl)
  {
    if a != [] {
      var head := if a[0] == x then repl else [a[0]];
      calc {
        Replace(a + b, [x], repl);
        { ReplaceCharStep(a + b, x, repl); assert (a + b)[1..] == a[1..] + b; }
        head + Replace(a[1..] + b, [x], repl);
        { ReplaceCharAppend(a[1..], b, x, repl); }
        head + (Replace(a[1..], [x], repl) + Replace(b, [x], repl));
        { ReplaceCharStep(a, x, repl); }
        Replace(a, [x], repl) + Replace(b, [x], repl);
      }
    } else {
      assert a + b == b;
    }
  }

  // ---------------------------------------------------------------------------
  // The escape chain

  /** `csv.replace('\\', '\\\\').replace('`', '\\`').replace('${', '\\${')`. */
  function EscapeCsv(csv: string): string
  {
    Replace(Replace(Replace(csv, "\\", "\\\\"), "`", "\\`"), "${", "\\${")
  }

  /**
   * The escape read one character of the CSV at a time: a backslash becomes
   * two, a backtick gets a backslash before it, and so does a '$' that a '{'
   * follows.
   */
  function Escaped(s: string): string
    decreases |s|
  {
    if s == [] then []
    else if s[0] == '\\' then "\\\\" + Escaped(s[1..])
    else if s[0] == '`' then "\\`" + Escaped(s[1..])
    else if s[0] == '$' && |s| > 1 && s[1] == '{' then "\\$" + Escaped(s[1..])
    else [s[0]] + Escaped(s[1..])
  }

  /** The first two replacements, one character at a time. */
  function FirstTwo(s: string): string
  {
    if s == [] then []
    else (if s[0] == '\\' then "\\\\" else if s[0] == '`' then "\\`" else [s[0]]) + FirstTwo(s[1..])
  }

  lemma {:induction false} FirstReplacement(s: string)
    ensures Replace(s, "\\", "\\\\") == DoubledBackslashes(s)
  {
    if s != [] {
      FirstReplacement(s[1..]);
      assert s[..1] == [s[0]];
    }
  }

  /** The backslash doubling, one character at a time. */
  function DoubledBackslashes(s: string): string
  {
    if s == [] then [] else (if s[0] == '\\' then "\\\\" else [s[0]]) + DoubledBackslashes(s[1..])
  }

  lemma {:induction false} SecondReplacement(s: string)
    ensures Replace(DoubledBackslashes(s), "`", "\\`") == FirstTwo(s)
  {
    if s != [] {
      SecondReplacement(s[1..]);
      var head := if s[0] == '\\' then "\\\\" else [s[0]];
      ReplaceCharAppend(head, DoubledBackslashes(s[1..]), '`', "\\`");
      if s[0] == '\\' {
        ReplaceHead('\\', "\\", "`", "\\`");
        ReplaceHead('\\', "", "`", "\\`");
      } else if s[0] == '`' {
        assert Replace(head, "`", "\\`") == "\\`" + Replace("", "`", "\\`");
      } else {
        ReplaceHead(s[0], "", "`", "\\`");
      }
    }
  }

  /** After the first two replacements a text starts with a backslash or with its own first character. */
  lemma FirstTwoHead(s: string)
    requires s != []
    ensures FirstTwo(s)[0] == (if s[0] == '\\' || s[0] == '`' then '\\' else s[0])
  {
  }

  /** A "${" of the CSV gets its backslash. */
  lemma ThirdReplacementBrace(rest: string)
    ensures Replace("${" + FirstTwo(rest), "${", "\\${") == "\\${" + Replace(FirstTwo(rest), "${", "\\${")
  {
    var t := "${" + FirstTwo(rest);
    assert t[..2] == "${" && t[2..] == FirstTwo(rest);
  }

  /** A '$' without a '{' after it is copied. */
  lemma ThirdReplacementDollar(rest: string)
    requires rest == [] || rest[0] != '{'
    ensures Replace("$" + FirstTwo(rest), "${", "\\${") == "$" + Replace(FirstTwo(rest), "${", "\\${")
  {
    var t := "$" + FirstTwo(rest);
    if rest != [] {
      FirstTwoHead(rest);
      assert t[..2] != "${" by {
        assert t[1] == FirstTwo(rest)[0];
      }
      assert t[1..] == FirstTwo(rest);
    }
  }

  /** What the first two replacements escaped passes the third unchanged. */
  lemma ThirdReplacementEscaped(x: char, t: string)
    requires x == '\\' || x == '`'
    ensures Replace(['\\', x] + t, "${", "\\${") == ['\\', x] + Replace(t, "${", "\\${")
  {
    assert ['\\', x] + t == ['\\'] + ([x] + t);
    ReplaceHead('\\', [x] + t, "${", "\\${");
    ReplaceHead(x, t, "${", "\\${");
  }

  /** A backslash or a backtick of the CSV, escaped by the first two replacements, passes the third. */
  lemma ThirdStepEscaped(s: string)
    requires s != [] && (s[0] == '\\' || s[0] == '`')
    requires Replace(FirstTwo(s[1..]), "${", "\\${") == Escaped(s[1..])
    ensures Replace(FirstTwo(s), "${", "\\${") == Escaped(s)
  {
    assert FirstTwo(s) == ['\\', s[0]] + FirstTwo(s[1..]);
    ThirdReplacementEscaped(s[0], FirstTwo(s[1..]));
  }

  /** The escaped "${" read as the escaped '$' followed by the '{'. */
  lemma EscapedBraceLead(t: string)
    ensures "\\${" + t == "\\$" + ("{" + t)
  {
    var lead: string := "\\$";
    assert "\\${" == lead + "{";
    assert (lead + "{") + t == lead + ("{" + t);
  }

  /** A "${" of the CSV gets its backslash from the third replacement. */
  lemma ThirdStepBrace(s: string)
    requires |s| > 1 && s[0] == '$' && s[1] == '{'
    requires Replace(FirstTwo(s[2..]), "${", "\\${") == Escaped(s[2..])
    ensures Replace(FirstTwo(s), "${", "\\${") == Escaped(s)
  {
    var rest, tail := s[1..], s[2..];
    assert rest[1..] == tail;
    assert FirstTwo(rest) == "{" + FirstTwo(tail);
    assert FirstTwo(s) == "$" + FirstTwo(rest);
    assert Escaped(rest) == "{" + Escaped(tail);
    assert Escaped(s) == "\\$" + Escaped(rest);
    calc {
      Replace(FirstTwo(s), "${", "\\${");
      { assert FirstTwo(s) == "${" + FirstTwo(tail); }
      Replace("${" + FirstTwo(tail), "${", "\\${");
      { ThirdReplacementBrace(tail); }
      "\\${" + Replace(FirstTwo(tail), "${", "\\${");
      "\\${" + Escaped(tail);
      { EscapedBraceLead(Escaped(tail)); }
      Escaped(s);
    }
  }

  /** Any other character passes all three replacements as it is. */
  lemma ThirdStepPlain(s: string)
    requires s != [] && s[0] != '\\' && s[0] != '`' && !(s[0] == '$' && |s| > 1 && s[1] == '{')
    requires Replace(FirstTwo(s[1..]), "${", "\\${") == Escaped(s[1..])
    ensures Replace(FirstTwo(s), "${", "\\${") == Escaped(s)
  {
    var rest := s[1..];
    assert FirstTwo(s) == [s[0]] + FirstTwo(rest);
    if s[0] == '$' {
      ThirdReplacementDollar(rest);
    } else {
      ReplaceHead(s[0], FirstTwo(rest), "${", "\\${");
    }
  }

  lemma {:induction false} ThirdReplacement(s: string)
    ensures Replace(FirstTwo(s), "${", "\\${") == Escaped(s)
    decreases |s|
  {
    if s != [] {
      if s[0] == '\\' || s[0] == '`' {
        ThirdReplacement(s[1..]);
        ThirdStepEscaped(s);
      } else if s[0] == '$' && |s| > 1 && s[1] == '{' {
        ThirdReplacement(s[2..]);
        ThirdStepBrace(s);
      } else {
        ThirdReplacement(s[1..]);
        ThirdStepPlain(s);
      }
    }
  }

  /** The chain of three replacements is the character-by-character escape. */
  lemma EscapeCsvIsEscaped(csv: string)
    ensures EscapeCsv(csv) == Escaped(csv)
  {
    FirstReplacement(csv);
    SecondReplacement(csv);
    ThirdReplacement(csv);
  }

  // ---------------------------------------------------------------------------
  // Reading a template literal back

  /**
   * The string a template literal body stands for, reading `\\`, `\``
   * and `\$` as the escaped character and `\n` as a newline; None for a
   * bare backtick (which would end the literal), a bare "${" (which would
   * start a substitution), or any other escape (whose meaning is not
   * modelled).
   */
  function Decode(t: string): Option<string>
    decreases |t|
  {
    if t == [] then Some([])
    else if t[0] == '\\' then
      if |t| >= 2 && (t[1] == '\\' || t[1] == '`' || t[1] == '$' || t[1] == 'n') then
        match Decode(t[2..])
        case None => None
        case Some(rest) => Some([if t[1] == 'n' then '\n' else t[1]] + rest)
      else None
    else if t[0] == '`' then None
    else if t[0] == '$' && |t| >= 2 && t[1] == '{' then None
    else
      match Decode(t[1..])
      case None => None
      case Some(rest) => Some([t[0]] + rest)
  }

  /** The escaped text starts with a backslash exactly where a character was escaped. */
  lemma EscapedHead(s: string)
    requires s != []
    ensures Escaped(s)[0] ==
      (if s[0] == '\\' || s[0] == '`' || (s[0] == '$' && |s| > 1 && s[1] == '{') then '\\' else s[0])
  {
  }

  /** An escape of the three kinds reads as its character. */
  lemma DecodeEscape(c: char, t: string)
    requires c == '\\' || c == '`' || c == '$'
    ensures Decode(['\\', c] + t) == (match Decode(t) case None => None case Some(r) => Some([c] + r))
  {
    assert (['\\', c] + t)[2..] == t;
  }

  /** A plain character reads as itself. */
  lemma DecodePlain(c: char, t: string)
    requires c != '\\' && c != '`' && (c == '$' ==> t == [] || t[0] != '{')
    ensures Decode([c] + t) == (match Decode(t) case None => None case Some(r) => Some([c] + r))
  {
    assert ([c] + t)[1..] == t;
  }

  /**
   * The escaped CSV is a well-formed template literal body (no bare
   * backtick, no bare "${") and stands for exactly the CSV.
   */
  lemma {:induction false} DecodeEscaped(s: string)
    ensures Decode(Escaped(s)) == Some(s)
    decreases |s|
  {
    if s != [] {
      DecodeEscaped(s[1..]);
      if s[0] == '\\' || s[0] == '`' || (s[0] == '$' && |s| > 1 && s[1] == '{') {
        assert Escaped(s) == ['\\', s[0]] + Escaped(s[1..]);
        DecodeEscape(s[0], Escaped(s[1..]));
      } else {
        assert Escaped(s) == [s[0]] + Escaped(s[1..]);
        if s[0] == '$' && |s| > 1 {
          EscapedHead(s[1..]);
        }
        DecodePlain(s[0], Escaped(s[1..]));
      }
      assert [s[0]] + s[1..] == s;
    }
  }

  /** The escape chain of the scripts round-trips through the template literal. */
  lemma EscapeRoundTrip(csv: string)
    ensures Decode(EscapeCsv(csv)) == Some(csv)
  {
    EscapeCsvIsEscaped(csv);
    DecodeEscaped(csv);
  }

  // ---------------------------------------------------------------------------
  // Lengths

  function CountChar(s: string, c: char): nat
  {
    if s == [] then 0 else (if s[0] == c then 1 else 0) + CountChar(s[1..], c)
  }

  /** `s.count("${")`. */
  function CountDollarBrace(s: string): nat
  {
    if |s| < 2 then 0 else (if s[0] == '$' && s[1] == '{' then 1 else 0) + CountDollarBrace(s[1..])
  }

  /** The escaped text is longer by one character per backslash, per backtick and per "${". */
  lemma {:induction false} EscapedLength(s: string)
    ensures |Escaped(s)| == |s| + CountChar(s, '\\') + CountChar(s, '`') + CountDollarBrace(s)
    decreases |s|
  {
    if s != [] {
      EscapedLength(s[1..]);
    }
  }

  /** The two lengths the scripts print differ by exactly the added backslashes. */
  lemma EscapeCsvLength(csv: string)
    ensures |EscapeCsv(csv)| == |csv| + CountChar(csv, '\\') + CountChar(csv, '`') + CountDollarBrace(csv)
  {
    EscapeCsvIsEscaped(csv);
    EscapedLength(csv);
  }
}
