/**
 * The scripts that put the gene-key CSV into the page: each escapes the CSV
 * for a JavaScript template literal and either writes it between the
 * delimiters of `const EMBEDDED_CSV_DATA = `...`;` with `re.sub`, or emits
 * that declaration as a snippet. File reading and writing and the progress
 * messages are left out; the texts are parameters.
 */
module Embed {
  import opened Wrappers
  import opened Escape
  import opened Template
  import opened Splice

  const OPEN: string := "const EMBEDDED_CSV_DATA = `"
  const CLOSE: string := "`;"

  /** `(const EMBEDDED_CSV_DATA = `).*?(`;)` */
  const DELIMITERS: Pattern := Pattern(OPEN, CLOSE, false)

  /** `(const EMBEDDED_CSV_DATA = `)(.*?)(`;)` */
  const DELIMITERS_AND_BODY: Pattern := Pattern(OPEN, CLOSE, true)

  /** `r"\1" + escaped + r"\2"` */
  function EmbedTemplate(csv: string): string
  {
    "\\1" + EscapeCsv(csv) + "\\2"
  }

  /** `r'\1' + escaped + r'\3'` */
  function UpdateTemplate(csv: string): string
  {
    "\\1" + EscapeCsv(csv) + "\\3"
  }

  /** The page the splicing scripts write: `re.sub(pattern, r"\1" + escaped + r"\2", html, flags=re.DOTALL)`. */
  function EmbedCsv(csv: string, html: string): Result<string, TemplateError>
  {
    ReSub(DELIMITERS, EmbedTemplate(csv), html)
  }

  /** The page `update_embedded_csv` writes, with the body captured as a third group. */
  function UpdateEmbeddedCsv(csv: string, html: string): Result<string, TemplateError>
  {
    ReSub(DELIMITERS_AND_BODY, UpdateTemplate(csv), html)
  }

  /** The page written, and whether the success message (rather than the warning) is printed. */
  datatype Outcome = Outcome(html: string, replaced: bool)

  /** `run_embed`: splice, then report a replacement exactly when the page changed. */
  function RunEmbed(csv: string, html: string): Result<Outcome, TemplateError>
  {
    match EmbedCsv(csv, html)
    case Failure(e) => Failure(e)
    case Success(page) => Success(Outcome(page, page != html))
  }

  /** The first line and the indentation of the snippet `embed_csv` writes. */
  const SNIPPET_LEAD: string := "        // 嵌入的CSV數據（用於Vercel部署，避免中文文件名問題）\n        "

  /** `embed_csv`: the declaration of the escaped CSV, as a snippet. */
  function EmbeddedJs(csv: string): string
  {
    SNIPPET_LEAD + OPEN + EscapeCsv(csv) + CLOSE
  }

  /**
   * The splice the scripts evidently intend: the escaped CSV written between
   * the delimiters as it is, as `re.sub` does with a replacement function
   * (`lambda m: m.group(1) + escaped + m.group(2)`) instead of a template.
   */
  function EmbedCsvExact(csv: string, html: string): string
  {
    ReplaceBodies(html, OPEN, CLOSE, EscapeCsv(csv))
  }

  // ---------------------------------------------------------------------------
  // Reading the templates

  /** The pieces both templates read into, for a CSV that does not start with a digit. */
  lemma TemplateReads(csv: string, k: char, groups: nat)
    requires csv == [] || !IsDigit(csv[0])
    requires '1' <= k <= '9' && DigitValue(k) <= groups
    ensures Parse("\\1" + EscapeCsv(csv) + ['\\', k], groups)
      == Success([Group(1)] + WrittenPieces(csv) + [Group(DigitValue(k))])
  {
    EscapeCsvIsEscaped(csv);
    var u := Escaped(csv) + ['\\', k];
    assert "\\1" + EscapeCsv(csv) + ['\\', k] == "\\1" + u;
    if csv != [] {
      EscapedHead(csv);
    }
    assert u[0] == '\\' || u[0] == csv[0];
    ParseGroup('1', u, groups);
    ParseEscaped(csv, ['\\', k], groups);
    ParseGroup(k, [], groups);
    assert ['\\', k] + [] == ['\\', k];
    assert [Group(DigitValue(k))] + [] == [Group(DigitValue(k))];
    assert [Group(1)] + (WrittenPieces(csv) + [Group(DigitValue(k))]) == [Group(1)] + WrittenPieces(csv) + [Group(DigitValue(k))];
  }

  /** Those pieces write the delimiters around the written body. */
  lemma WrittenDelimited(p: Pattern, csv: string)
    ensures Delimited(p, [Group(1)] + WrittenPieces(csv) + [Group(GroupCount(p))], WrittenBody(csv))
  {
    var pieces := [Group(1)] + WrittenPieces(csv) + [Group(GroupCount(p))];
    assert pieces[1..|pieces| - 1] == WrittenPieces(csv);
    WrittenPiecesLiteral(csv, [""]);
  }

  // ---------------------------------------------------------------------------
  // What the scripts write

  /**
   * For a CSV that does not start with a digit, the splicing scripts replace
   * the body of every declaration with the written body, keeping the
   * delimiters and everything else.
   */
  lemma EmbedWritesBody(csv: string, html: string)
    requires csv == [] || !IsDigit(csv[0])
    ensures EmbedCsv(csv, html) == Success(ReplaceBodies(html, OPEN, CLOSE, WrittenBody(csv)))
  {
    assert EmbedTemplate(csv) == "\\1" + EscapeCsv(csv) + ['\\', '2'];
    DelimitedTemplateWrites(DELIMITERS, csv, '2', html);
  }

  /** `update_embedded_csv` writes the same page as the other splicing scripts. */
  lemma UpdateAgreesWithEmbed(csv: string, html: string)
    requires csv == [] || !IsDigit(csv[0])
    ensures UpdateEmbeddedCsv(csv, html) == EmbedCsv(csv, html)
  {
    EmbedWritesBody(csv, html);
    assert UpdateTemplate(csv) == "\\1" + EscapeCsv(csv) + ['\\', '3'];
    DelimitedTemplateWrites(DELIMITERS_AND_BODY, csv, '3', html);
  }

  /** `\1`, the escaped CSV and a reference to the closing group write the written body between the delimiters. */
  lemma DelimitedTemplateWrites(p: Pattern, csv: string, k: char, html: string)
    requires |p.close| > 0 && (csv == [] || !IsDigit(csv[0]))
    requires '1' <= k <= '9' && DigitValue(k) == GroupCount(p)
    ensures ReSub(p, "\\1" + EscapeCsv(csv) + ['\\', k], html) == Success(ReplaceBodies(html, p.open, p.close, WrittenBody(csv)))
  {
    var pieces := [Group(1)] + WrittenPieces(csv) + [Group(GroupCount(p))];
    TemplateReads(csv, k, GroupCount(p));
    WrittenDelimited(p, csv);
    ReSubReplacesBodies(p, "\\1" + EscapeCsv(csv) + ['\\', k], html, pieces, WrittenBody(csv));
  }

  /** A page without the opening text comes back unchanged, and `run_embed` warns. */
  lemma NoDeclarationWarns(csv: string, html: string)
    requires csv == [] || !IsDigit(csv[0])
    requires forall i | 0 <= i :: !OccursAt(html, OPEN, i)
    ensures RunEmbed(csv, html) == Success(Outcome(html, false))
  {
    EmbedWritesBody(csv, html);
    NoMatchUnchanged(html, OPEN, CLOSE, WrittenBody(csv));
  }

  /**
   * `run_embed` also warns that nothing matched when the declaration
   * already holds the written body: the message reports an unchanged page,
   * not a missing declaration.
   */
  lemma CurrentBodyWarns(csv: string, a: string, c: string)
    requires csv == [] || !IsDigit(csv[0])
    requires forall i | 0 <= i < |a| :: !OccursAt(a + OPEN + WrittenBody(csv) + CLOSE + c, OPEN, i)
    requires forall j | 0 <= j < |WrittenBody(csv)| :: !OccursAt(WrittenBody(csv) + CLOSE, CLOSE, j)
    requires forall i | 0 <= i :: !OccursAt(c, OPEN, i)
    ensures var html := a + OPEN + WrittenBody(csv) + CLOSE + c;
      RunEmbed(csv, html) == Success(Outcome(html, false))
  {
    var html := a + OPEN + WrittenBody(csv) + CLOSE + c;
    EmbedWritesBody(csv, html);
    ReplaceOne(a, WrittenBody(csv), c, OPEN, CLOSE, WrittenBody(csv));
  }

  /** `run_embed` reports a replacement exactly when the page it writes differs from the one it read. */
  lemma RunEmbedReports(csv: string, html: string)
    ensures match RunEmbed(csv, html)
      case Failure(e) => EmbedCsv(csv, html) == Failure(e)
      case Success(o) => EmbedCsv(csv, html) == Success(o.html) && (o.replaced <==> o.html != html)
  {
  }

  // ---------------------------------------------------------------------------
  // What the template does to the CSV, and the splice that writes it as escaped

  /** Text between the same fixed parts is determined by the whole. */
  lemma FramedEqual(a: string, open: string, x: string, y: string, close: string, c: string)
    ensures a + open + x + close + c == a + open + y + close + c <==> x == y
  {
    var n := |a| + |open|;
    if a + open + x + close + c == a + open + y + close + c {
      assert |x| == |y|;
      assert x == (a + open + x + close + c)[n..n + |x|];
      assert y == (a + open + y + close + c)[n..n + |y|];
    }
  }

  /**
   * In a page with one declaration, the splicing scripts write the escaped
   * CSV exactly when it holds no backslash: otherwise the template reads each
   * doubled backslash back as one.
   */
  lemma EmbedDropsBackslashes(csv: string, a: string, b: string, c: string)
    requires csv == [] || !IsDigit(csv[0])
    requires forall i | 0 <= i < |a| :: !OccursAt(a + OPEN + b + CLOSE + c, OPEN, i)
    requires forall j | 0 <= j < |b| :: !OccursAt(b + CLOSE, CLOSE, j)
    requires forall i | 0 <= i :: !OccursAt(c, OPEN, i)
    ensures var html := a + OPEN + b + CLOSE + c;
      && EmbedCsv(csv, html) == Success(a + OPEN + WrittenBody(csv) + CLOSE + c)
      && (EmbedCsv(csv, html) == Success(EmbedCsvExact(csv, html)) <==> CountChar(csv, '\\') == 0)
  {
    var html := a + OPEN + b + CLOSE + c;
    EmbedWritesBody(csv, html);
    ReplaceOne(a, b, c, OPEN, CLOSE, WrittenBody(csv));
    ReplaceOne(a, b, c, OPEN, CLOSE, EscapeCsv(csv));
    EscapeCsvIsEscaped(csv);
    WrittenBodyKeepsEscape(csv);
    FramedEqual(a, OPEN, WrittenBody(csv), EscapeCsv(csv), CLOSE, c);
  }

  /**
   * The CSV `\n` (a backslash and an 'n') is escaped to `\\n`, but the
   * template writes `\n` into the page, which the literal reads as a
   * newline instead of the CSV.
   */
  lemma BackslashCollapsed()
    ensures EscapeCsv("\\n") == "\\\\n"
    ensures EmbedCsv("\\n", OPEN + CLOSE) == Success(OPEN + "\\n" + CLOSE)
    ensures Decode(EscapeCsv("\\n")) == Some("\\n") && Decode("\\n") == Some("\n")
  {
    BackslashNText();
    EmptyDeclarationWrites("\\n");
  }

  /** A literal whose text after an escaped backslash does not read has no reading. */
  lemma EscapedBackslashThenFails(t: string)
    requires |t| >= 2 && t[0] == '\\' && t[1] == '\\' && Decode(t[2..]) == None
    ensures Decode(t) == None
  {
  }

  /** An escaped backslash alone reads as one backslash. */
  lemma EscapedBackslashReads(t: string)
    requires |t| == 2 && t[0] == '\\' && t[1] == '\\'
    ensures Decode(t) == Some("\\")
  {
    assert t[2..] == [] && Decode(t[2..]) == Some([]);
    assert [t[1]] + [] == "\\";
  }

  lemma BacktickWritten(csv: string)
    requires csv == "\\`"
    ensures |WrittenBody(csv)| == 3 && WrittenBody(csv)[0] == '\\' && WrittenBody(csv)[1] == '\\'
    ensures WrittenBody(csv)[2..] == "`"
  {
    var rest := csv[1..];
    assert csv[0] == '\\' && rest[0] == '`' && rest[1..] == [];
    assert WrittenBody(rest) == "\\`" + WrittenBody(rest[1..]);
    assert WrittenBody(csv) == "\\" + WrittenBody(rest);
  }

  lemma InterpolationWritten(csv: string)
    requires csv == "\\${"
    ensures |WrittenBody(csv)| == 4 && WrittenBody(csv)[0] == '\\' && WrittenBody(csv)[1] == '\\'
    ensures WrittenBody(csv)[2..] == "${"
  {
    var rest := csv[1..];
    var tail := rest[1..];
    assert csv[0] == '\\' && rest[0] == '$' && rest[1] == '{' && tail[0] == '{' && tail[1..] == [];
    assert WrittenBody(tail) == "{" + WrittenBody(tail[1..]);
    assert WrittenBody(rest) == "\\$" + WrittenBody(tail);
    assert WrittenBody(csv) == "\\" + WrittenBody(rest);
  }

  /**
   * A CSV backslash before a backtick ends the page's literal early: the
   * escaped `\\` then `\`` is written as `\\` then a bare backtick, so
   * the literal reads one backslash and closes at the backtick.
   */
  lemma BacktickClosesLiteral(csv: string)
    requires csv == "\\`"
    ensures EmbedCsv(csv, OPEN + CLOSE) == Success(OPEN + WrittenBody(csv) + CLOSE)
    ensures |WrittenBody(csv)| == 3 && WrittenBody(csv)[2] == '`'
    ensures Decode(WrittenBody(csv)[..2]) == Some("\\")
    ensures Decode(WrittenBody(csv)) == None
  {
    EmptyDeclarationWrites(csv);
    var written := WrittenBody(csv);
    BacktickWritten(csv);
    EscapedBackslashReads(written[..2]);
    EscapedBackslashThenFails(written);
  }

  /**
   * A CSV backslash before `${` opens an interpolation in the page: the
   * escaped `\\` then `\${` is written as `\\` then `${`.
   */
  lemma InterpolationOpened(csv: string)
    requires csv == "\\${"
    ensures EmbedCsv(csv, OPEN + CLOSE) == Success(OPEN + WrittenBody(csv) + CLOSE)
    ensures |WrittenBody(csv)| == 4 && WrittenBody(csv)[2..] == "${"
    ensures Decode(WrittenBody(csv)[..2]) == Some("\\")
    ensures Decode(WrittenBody(csv)) == None
  {
    EmptyDeclarationWrites(csv);
    var written := WrittenBody(csv);
    InterpolationWritten(csv);
    EscapedBackslashReads(written[..2]);
    EscapedBackslashThenFails(written);
  }

  /** The literal `\n` stands for a newline. */
  lemma NewlineEscapeReads(t: string)
    requires t == "\\n"
    ensures Decode(t) == Some("\n")
  {
    assert t[0] == '\\' && t[1] == 'n' && t[2..] == [] && Decode(t[2..]) == Some([]);
    assert ['\n'] + [] == "\n";
  }

  /** The texts of the CSV `\n`: escaped, written, and read back. */
  lemma BackslashNText()
    ensures EscapeCsv("\\n") == "\\\\n" && WrittenBody("\\n") == "\\n"
    ensures Decode(EscapeCsv("\\n")) == Some("\\n") && Decode("\\n") == Some("\n")
  {
    var csv := "\\n";
    EscapeCsvIsEscaped(csv);
    assert csv[1..] == "n";
    EscapeRoundTrip(csv);
    NewlineEscapeReads(csv);
  }

  /** Into an empty declaration the splicing scripts write the written body. */
  lemma EmptyDeclarationWrites(csv: string)
    requires csv == [] || !IsDigit(csv[0])
    ensures EmbedCsv(csv, OPEN + CLOSE) == Success(OPEN + WrittenBody(csv) + CLOSE)
  {
    EmbedWritesBody(csv, OPEN + CLOSE);
    ReplaceEmpty(OPEN, CLOSE, WrittenBody(csv));
  }

  /**
   * A CSV that starts with a digit joins the `\1` before it: the template
   * either fails or starts with a character instead of the opening text.
   */
  lemma DigitFirstTemplate(csv: string)
    requires csv != [] && IsDigit(csv[0])
    ensures var r := Parse(EmbedTemplate(csv), 2);
      r.Failure? || (r.value != [] && r.value[0].Lit?)
  {
    EscapeCsvIsEscaped(csv);
    EscapedHead(csv);
    var t := EmbedTemplate(csv);
    assert t[0] == '\\' && t[1] == '1' && |t| > 3 && t[2] == csv[0];
    assert DigitValue('1') == 1;
    if IsOctDigit(t[2]) && IsOctDigit(t[3]) {
      var v := 64 + 8 * DigitValue(t[2]) + DigitValue(t[3]);
      var rest := Parse(t[4..], 2);
      if v <= 255 && rest.Success? {
        assert Parse(t, 2).value == [Lit([v as char])] + rest.value;
      }
    } else {
      assert 10 * DigitValue('1') + DigitValue(t[2]) > 2;
    }
  }

  /** The CSV "5" makes the template refer to group 15, and no page is written. */
  lemma DigitFirstFails(html: string)
    ensures EmbedCsv("5", html) == Failure(InvalidGroupReference(15))
  {
    EscapeCsvIsEscaped("5");
    assert EmbedTemplate("5") == ['\\', '1', '5'] + "\\2";
    ParseTwoDigitGroup('1', '5', "\\2", 2);
  }

  /** The CSV "12" makes `\112` the character 'J': the opening text and the CSV are lost. */
  lemma DigitFirstRewrites()
    ensures EmbedCsv("12", OPEN + CLOSE) == Success("J" + CLOSE)
  {
    TwelveTemplate();
    TwelveWrites();
    ReSubEmpty(DELIMITERS, EmbedTemplate("12"), [Lit("J"), Group(2)]);
  }

  /** Those pieces write 'J' and the closing text. */
  lemma TwelveWrites()
    ensures Expand([Lit("J"), Group(2)], Values(DELIMITERS, "")) == "J" + CLOSE
  {
    var pieces := [Lit("J"), Group(2)];
    var values := Values(DELIMITERS, "");
    assert values[2] == CLOSE;
    assert pieces[1..] == [Group(2)] && pieces[1..][1..] == [];
    assert Expand(pieces[1..], values) == CLOSE + "";
  }

  /** `\112\2`: the character 'J', then group 2. */
  lemma TwelveTemplate()
    ensures Parse(EmbedTemplate("12"), 2) == Success([Lit("J"), Group(2)])
  {
    EscapeCsvIsEscaped("12");
    var t, u := EmbedTemplate("12"), "\\2";
    assert t == ['\\', '1', '1', '2'] + u;
    ParseOctal('1', '1', '2', u, 2);
    assert (74 as char) == 'J';
    assert u == ['\\', '2'] + [];
    ParseGroup('2', [], 2);
    assert DigitValue('2') == 2;
    assert Parse([], 2) == Success([]);
    assert [Group(2)] + [] == [Group(2)];
    assert Parse(u, 2) == Success([Group(2)]);
    assert [Lit("J")] + [Group(2)] == [Lit("J"), Group(2)];
  }

  /**
   * The corrected splice writes the escaped CSV, whatever it holds, into the
   * one declaration of the page, and the literal reads back as the CSV.
   */
  lemma ExactEmbedRoundTrip(csv: string, a: string, b: string, c: string)
    requires forall i | 0 <= i < |a| :: !OccursAt(a + OPEN + b + CLOSE + c, OPEN, i)
    requires forall j | 0 <= j < |b| :: !OccursAt(b + CLOSE, CLOSE, j)
    requires forall i | 0 <= i :: !OccursAt(c, OPEN, i)
    ensures EmbedCsvExact(csv, a + OPEN + b + CLOSE + c) == a + OPEN + EscapeCsv(csv) + CLOSE + c
    ensures Decode(EscapeCsv(csv)) == Some(csv)
  {
    ReplaceOne(a, b, c, OPEN, CLOSE, EscapeCsv(csv));
    EscapeRoundTrip(csv);
  }

  /** Where the template does no harm, the scripts write what the corrected splice writes. */
  lemma EmbedAgreesWithExact(csv: string, html: string)
    requires csv == [] || !IsDigit(csv[0])
    requires CountChar(csv, '\\') == 0
    ensures EmbedCsv(csv, html) == Success(EmbedCsvExact(csv, html))
  {
    EmbedWritesBody(csv, html);
    EscapeCsvIsEscaped(csv);
    WrittenBodyKeepsEscape(csv);
  }

  /**
   * `embed_csv`'s snippet is the declaration the corrected splice writes
   * into an empty one, after the comment line and the indentation.
   */
  lemma SnippetIsExactDeclaration(csv: string)
    ensures EmbeddedJs(csv) == SNIPPET_LEAD + EmbedCsvExact(csv, OPEN + CLOSE)
    ensures Decode(EscapeCsv(csv)) == Some(csv)
  {
    ReplaceEmpty(OPEN, CLOSE, EscapeCsv(csv));
    EscapeRoundTrip(csv);
  }
}
