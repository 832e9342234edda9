/**
 * `re.sub` with the pattern the embed scripts use: an opening text, the
 * shortest stretch of any characters (DOTALL), then a closing text. The
 * search goes from the left; after a match it resumes where the match
 * ended, and every match is replaced by the expanded template.
 */
module Splice {
  import opened Wrappers
  import opened Template

  /** `w` occurs in `s` starting at `i`. */
  predicate OccursAt(s: string, w: string, i: int)
  {
    0 <= i && i + |w| <= |s| && s[i..i + |w|] == w
  }

  /** A match: the opening text starts at `start`, the closing text at `bodyEnd`. */
  datatype Match = Match(start: nat, bodyEnd: nat)

  /** The first place at or after `k` where `close` occurs: the lazy `.*?` stops there. */
  function FindClose(s: string, close: string, k: nat): (r: Option<nat>)
    ensures r.Some? ==> k <= r.value && r.value + |close| <= |s|
    decreases |s| - k
  {
    if k + |close| > |s| then None
    else if OccursAt(s, close, k) then Some(k)
    else FindClose(s, close, k + 1)
  }

  /** FindClose finds the first occurrence at or after `k`, and none exactly when there is none. */
  lemma {:induction false} FindCloseSpec(s: string, close: string, k: nat)
    ensures var r := FindClose(s, close, k);
      && (r.Some? ==> OccursAt(s, close, r.value) && forall j | k <= j < r.value :: !OccursAt(s, close, j))
      && (r.None? ==> forall j | k <= j :: !OccursAt(s, close, j))
    decreases |s| - k
  {
    if k + |close| <= |s| && !OccursAt(s, close, k) {
      FindCloseSpec(s, close, k + 1);
    }
  }

  /** The closing text found is the first one after `k`. */
  lemma FindCloseFirst(s: string, close: string, k: nat, j: nat)
    requires k <= j && OccursAt(s, close, j)
    requires forall i | k <= i < j :: !OccursAt(s, close, i)
    ensures FindClose(s, close, k) == Some(j)
  {
    FindCloseSpec(s, close, k);
    var r := FindClose(s, close, k);
    assert r.Some? && r.value <= j;
  }

  /** The match the pattern makes when tried at `i`, if any. */
  function MatchAt(s: string, open: string, close: string, i: nat): (r: Option<Match>)
    ensures r.Some? ==> r.value.start == i && i + |open| <= r.value.bodyEnd && r.value.bodyEnd + |close| <= |s|
  {
    if OccursAt(s, open, i) then
      match FindClose(s, close, i + |open|)
      case None => None
      case Some(j) => Some(Match(i, j))
    else None
  }

  /** The leftmost match at or after `from`. */
  function Search(s: string, open: string, close: string, from: nat): (r: Option<Match>)
    ensures r.Some? ==> from <= r.value.start && r.value.start + |open| <= r.value.bodyEnd
    ensures r.Some? ==> r.value.bodyEnd + |close| <= |s|
    decreases |s| - from
  {
    if MatchAt(s, open, close, from).Some? then MatchAt(s, open, close, from)
    else if from >= |s| then None
    else Search(s, open, close, from + 1)
  }

  /** Search finds the match at the leftmost place where the pattern matches, and none when it matches nowhere. */
  lemma {:induction false} SearchSpec(s: string, open: string, close: string, from: nat)
    ensures var r := Search(s, open, close, from);
      && (r.Some? ==> MatchAt(s, open, close, r.value.start) == r)
      && (r.Some? ==> forall i | from <= i < r.value.start :: MatchAt(s, open, close, i).None?)
      && (r.None? ==> forall i | from <= i :: MatchAt(s, open, close, i).None?)
    decreases |s| - from
  {
    if MatchAt(s, open, close, from).None? && from < |s| {
      SearchSpec(s, open, close, from + 1);
    }
  }

  /** The matches `re.sub` replaces, from the left, each search resuming where the last match ended. */
  function Matches(s: string, open: string, close: string, from: nat): (ms: seq<Match>)
    requires |close| > 0 && from <= |s|
    ensures Ordered(ms, from, |open|, |close|, |s|)
    decreases |s| - from
  {
    match Search(s, open, close, from)
    case None => []
    case Some(m) => [m] + Matches(s, open, close, m.bodyEnd + |close|)
  }

  /** Matches lie in order after `from`, each with room for its delimiters, none past the end. */
  predicate Ordered(ms: seq<Match>, from: nat, openLength: nat, closeLength: nat, n: nat)
    decreases |ms|
  {
    ms == [] ||
    (&& from <= ms[0].start
     && ms[0].start + openLength <= ms[0].bodyEnd
     && ms[0].bodyEnd + closeLength <= n
     && Ordered(ms[1..], ms[0].bodyEnd + closeLength, openLength, closeLength, n))
  }

  /**
   * The text with every match replaced: the text between matches is kept,
   * and a match whose body is `b` becomes `f(b)`.
   */
  function SpliceOver(s: string, ms: seq<Match>, from: nat, openLength: nat, closeLength: nat, f: string -> string): string
    requires from <= |s| && Ordered(ms, from, openLength, closeLength, |s|)
    decreases |ms|
  {
    if ms == [] then s[from..]
    else
      s[from..ms[0].start] + f(s[ms[0].start + openLength..ms[0].bodyEnd])
      + SpliceOver(s, ms[1..], ms[0].bodyEnd + closeLength, openLength, closeLength, f)
  }

  /** Replacements that agree on every body make the same text. */
  lemma {:induction false} SpliceOverAgree(s: string, ms: seq<Match>, from: nat, openLength: nat, closeLength: nat, f: string -> string, g: string -> string)
    requires from <= |s| && Ordered(ms, from, openLength, closeLength, |s|)
    requires forall b :: f(b) == g(b)
    ensures SpliceOver(s, ms, from, openLength, closeLength, f) == SpliceOver(s, ms, from, openLength, closeLength, g)
    decreases |ms|
  {
    if ms != [] {
      var m, next := ms[0], ms[0].bodyEnd + closeLength;
      var b := s[m.start + openLength..m.bodyEnd];
      SpliceOverAgree(s, ms[1..], next, openLength, closeLength, f, g);
      SpliceOverStep(s, ms, from, openLength, closeLength, f);
      SpliceOverStep(s, ms, from, openLength, closeLength, g);
      assert f(b) == g(b);
    }
  }

  /** The text before the first match, its replacement, then the rest spliced. */
  lemma SpliceOverStep(s: string, ms: seq<Match>, from: nat, openLength: nat, closeLength: nat, f: string -> string)
    requires from <= |s| && Ordered(ms, from, openLength, closeLength, |s|) && ms != []
    ensures SpliceOver(s, ms, from, openLength, closeLength, f) ==
      s[from..ms[0].start] + f(s[ms[0].start + openLength..ms[0].bodyEnd])
      + SpliceOver(s, ms[1..], ms[0].bodyEnd + closeLength, openLength, closeLength, f)
  {
  }

  /** One match: the text before it, its replacement, the text after it. */
  lemma SpliceSingle(s: string, m: Match, openLength: nat, closeLength: nat, f: string -> string)
    requires Ordered([m], 0, openLength, closeLength, |s|)
    ensures SpliceOver(s, [m], 0, openLength, closeLength, f)
      == s[..m.start] + f(s[m.start + openLength..m.bodyEnd]) + s[m.bodyEnd + closeLength..]
  {
    assert [m][1..] == [];
  }

  /**
   * The reference: every match has its body replaced by `body`; the
   * delimiters and all text between matches are kept.
   */
  function ReplaceBodies(s: string, open: string, close: string, body: string): string
    requires |close| > 0
  {
    SpliceOver(s, Matches(s, open, close, 0), 0, |open|, |close|, b => open + body + close)
  }

  // ---------------------------------------------------------------------------
  // re.sub

  /**
   * A pattern `(open).*?(close)`, or `(open)(.*?)(close)` when the body is
   * captured too.
   */
  datatype Pattern = Pattern(open: string, close: string, capturesBody: bool)

  function GroupCount(p: Pattern): nat
  {
    if p.capturesBody then 3 else 2
  }

  /** The group values of a match whose body is `b`, group 0 first. */
  function Values(p: Pattern, b: string): (v: seq<string>)
    ensures |v| == GroupCount(p) + 1
  {
    [p.open + b + p.close, p.open] + (if p.capturesBody then [b] else []) + [p.close]
  }

  /**
   * `re.sub(pattern, template, s, flags=re.DOTALL)`: the template is read
   * first, and a bad one raises; then every match becomes the template's
   * text for its groups.
   */
  function ReSub(p: Pattern, template: string, s: string): Result<string, TemplateError>
    requires |p.close| > 0
  {
    match Parse(template, GroupCount(p))
    case Failure(e) => Failure(e)
    case Success(pieces) =>
      Success(SpliceOver(s, Matches(s, p.open, p.close, 0), 0, |p.open|, |p.close|, b => Expand(pieces, Values(p, b))))
  }

  /**
   * A template of the form `\1`, literal text, then a reference to the
   * closing group: it writes the delimiters around `body` whatever the
   * old body was.
   */
  predicate Delimited(p: Pattern, pieces: seq<Piece>, body: string)
  {
    && |pieces| >= 2
    && pieces[0] == Group(1)
    && pieces[|pieces| - 1] == Group(GroupCount(p))
    && GroupsWithin(pieces[1..|pieces| - 1], 0)
    && Expand(pieces[1..|pieces| - 1], [""]) == body
  }

  /** Literal pieces write the same text whatever the groups. */
  lemma {:induction false} ExpandLiteral(pieces: seq<Piece>, v: seq<string>, w: seq<string>)
    requires GroupsWithin(pieces, 0) && |v| > 0 && |w| > 0
    ensures Expand(pieces, v) == Expand(pieces, w)
  {
    if pieces != [] {
      ExpandLiteral(pieces[1..], v, w);
    }
  }

  /** A delimited template writes the delimiters around its text, whatever the match. */
  lemma ExpandDelimited(p: Pattern, pieces: seq<Piece>, body: string, b: string)
    requires Delimited(p, pieces, body)
    ensures GroupsWithin(pieces, GroupCount(p))
    ensures Expand(pieces, Values(p, b)) == p.open + body + p.close
  {
    var mid := pieces[1..|pieces| - 1];
    var first, last := pieces[0], pieces[|pieces| - 1];
    var v := Values(p, b);
    ExpandLiteral(mid, v, [""]);
    assert pieces == [first] + (mid + [last]);
    assert Expand([first], v) == p.open by {
      assert v[1] == p.open;
    }
    assert Expand([last], v) == p.close by {
      assert v[GroupCount(p)] == p.close;
    }
    ExpandAppend(mid, [last], v);
    ExpandAppend([first], mid + [last], v);
    calc {
      Expand(pieces, v);
      Expand([first], v) + Expand(mid + [last], v);
      Expand([first], v) + (Expand(mid, v) + Expand([last], v));
      p.open + (body + p.close);
    }
  }

  /** `re.sub` with a delimited template succeeds and writes the reference replacement. */
  lemma ReSubReplacesBodies(p: Pattern, template: string, s: string, pieces: seq<Piece>, body: string)
    requires |p.close| > 0
    requires Parse(template, GroupCount(p)) == Success(pieces) && Delimited(p, pieces, body)
    ensures ReSub(p, template, s) == Success(ReplaceBodies(s, p.open, p.close, body))
  {
    ExpandDelimited(p, pieces, body, "");
    var f := b => Expand(pieces, Values(p, b));
    var g := b => p.open + body + p.close;
    forall b
      ensures f(b) == g(b)
    {
      ExpandDelimited(p, pieces, body, b);
    }
    SpliceOverAgree(s, Matches(s, p.open, p.close, 0), 0, |p.open|, |p.close|, f, g);
  }

  // ---------------------------------------------------------------------------
  // Properties of the reference replacement

  /** Without an opening text there is no match, and the text is left as it is. */
  lemma NoMatchUnchanged(s: string, open: string, close: string, body: string)
    requires |close| > 0
    requires forall i | 0 <= i :: !OccursAt(s, open, i)
    ensures ReplaceBodies(s, open, close, body) == s
  {
    SearchSpec(s, open, close, 0);
    var r := Search(s, open, close, 0);
    assert r.Some? ==> OccursAt(s, open, r.value.start);
  }

  /** An occurrence after a prefix is an occurrence in the rest. */
  lemma OccursInTail(a: string, c: string, w: string, i: int)
    requires |a| <= i
    ensures OccursAt(a + c, w, i) <==> OccursAt(c, w, i - |a|)
  {
    if 0 <= i - |a| && i + |w| <= |a + c| {
      assert (a + c)[i..i + |w|] == c[i - |a|..i - |a| + |w|];
    }
  }

  /** Without an opening text from `from` on, no match is left. */
  lemma NoMatchesFrom(s: string, open: string, close: string, from: nat)
    requires |close| > 0 && from <= |s|
    requires forall i | from <= i :: !OccursAt(s, open, i)
    ensures Matches(s, open, close, from) == []
  {
    SearchSpec(s, open, close, from);
    var r := Search(s, open, close, from);
    MatchAtOccurs(s, open, close, if r.Some? then r.value.start else from);
  }

  /** A match starts with the opening text. */
  lemma MatchAtOccurs(s: string, open: string, close: string, i: nat)
    ensures MatchAt(s, open, close, i).Some? ==> OccursAt(s, open, i)
  {
  }

  /** An occurrence inside the middle part is an occurrence in that part. */
  lemma OccursInMiddle(x: string, y: string, z: string, w: string, j: nat)
    requires j + |w| <= |y|
    ensures OccursAt(x + y + z, w, |x| + j) <==> OccursAt(y, w, j)
  {
    assert (x + y + z)[|x| + j..|x| + j + |w|] == y[j..j + |w|];
  }

  /** The first opening text, and the first closing text after it, make the first match. */
  lemma FirstMatch(s: string, open: string, close: string, start: nat, bodyEnd: nat)
    requires OccursAt(s, open, start) && OccursAt(s, close, bodyEnd) && start + |open| <= bodyEnd
    requires forall i | 0 <= i < start :: !OccursAt(s, open, i)
    requires forall j | start + |open| <= j < bodyEnd :: !OccursAt(s, close, j)
    ensures Search(s, open, close, 0) == Some(Match(start, bodyEnd))
  {
    FindCloseFirst(s, close, start + |open|, bodyEnd);
    assert MatchAt(s, open, close, start) == Some(Match(start, bodyEnd));
    var r := Search(s, open, close, 0);
    SearchSpec(s, open, close, 0);
    assert r.Some?;
    assert OccursAt(s, open, r.value.start);
  }

  /** A match with no opening text after it is the last one. */
  lemma LastMatch(s: string, open: string, close: string, from: nat, m: Match)
    requires |close| > 0 && from <= |s| && Search(s, open, close, from) == Some(m)
    requires forall i | m.bodyEnd + |close| <= i :: !OccursAt(s, open, i)
    ensures Matches(s, open, close, from) == [m]
  {
    var after := m.bodyEnd + |close|;
    NoMatchesFrom(s, open, close, after);
    assert Matches(s, open, close, from) == [m] + Matches(s, open, close, after);
  }

  /** The match in a text holding one opening text, with the first closing text after it ending `b`. */
  lemma OneMatch(a: string, b: string, c: string, open: string, close: string)
    requires |close| > 0
    requires forall i | 0 <= i < |a| :: !OccursAt(a + open + b + close + c, open, i)
    requires forall j | 0 <= j < |b| :: !OccursAt(b + close, close, j)
    requires forall i | 0 <= i :: !OccursAt(c, open, i)
    ensures Matches(a + open + b + close + c, open, close, 0) == [Match(|a|, |a| + |open| + |b|)]
  {
    var s := a + open + b + close + c;
    var start, bodyEnd := |a|, |a| + |open| + |b|;
    assert s == (a + open) + (b + close) + c;
    assert s[start..start + |open|] == open;
    assert s[bodyEnd..bodyEnd + |close|] == close;
    forall j | start + |open| <= j < bodyEnd
      ensures !OccursAt(s, close, j)
    {
      OccursInMiddle(a + open, b + close, c, close, j - start - |open|);
    }
    forall i | bodyEnd + |close| <= i
      ensures !OccursAt(s, open, i)
    {
      assert s == (a + open + b + close) + c;
      OccursInTail(a + open + b + close, c, open, i);
    }
    FirstMatch(s, open, close, start, bodyEnd);
    LastMatch(s, open, close, 0, Match(start, bodyEnd));
  }

  /**
   * A text holding one opening text (with nothing that could start a match
   * before it) and, after it, the closing text at the end of `b`: the body
   * `b` is replaced, and `a`, the delimiters and `c` are kept.
   */
  lemma ReplaceOne(a: string, b: string, c: string, open: string, close: string, body: string)
    requires |close| > 0
    requires forall i | 0 <= i < |a| :: !OccursAt(a + open + b + close + c, open, i)
    requires forall j | 0 <= j < |b| :: !OccursAt(b + close, close, j)
    requires forall i | 0 <= i :: !OccursAt(c, open, i)
    ensures ReplaceBodies(a + open + b + close + c, open, close, body) == a + open + body + close + c
  {
    var s := a + open + b + close + c;
    OneMatch(a, b, c, open, close);
    var m := Match(|a|, |a| + |open| + |b|);
    var after := m.bodyEnd + |close|;
    assert s[..m.start] == a && s[after..] == c;
    var f := b => open + body + close;
    SpliceSingle(s, m, |open|, |close|, f);
    assert s[m.start + |open|..m.bodyEnd] == b;
  }

  /** An empty declaration gets the body between its delimiters. */
  lemma ReplaceEmpty(open: string, close: string, body: string)
    requires |open| > 0 && |close| > 0
    ensures ReplaceBodies(open + close, open, close, body) == open + body + close
  {
    assert open + close == "" + open + "" + close + "";
    ReplaceOne("", "", "", open, close, body);
    assert "" + open + body + close + "" == open + body + close;
  }

  /** `re.sub` on a text with one match: the template's text for that match, between the kept `a` and `c`. */
  lemma ReSubOne(p: Pattern, template: string, pieces: seq<Piece>, a: string, b: string, c: string)
    requires |p.close| > 0 && Parse(template, GroupCount(p)) == Success(pieces)
    requires forall i | 0 <= i < |a| :: !OccursAt(a + p.open + b + p.close + c, p.open, i)
    requires forall j | 0 <= j < |b| :: !OccursAt(b + p.close, p.close, j)
    requires forall i | 0 <= i :: !OccursAt(c, p.open, i)
    ensures ReSub(p, template, a + p.open + b + p.close + c) == Success(a + Expand(pieces, Values(p, b)) + c)
  {
    var s := a + p.open + b + p.close + c;
    OneMatch(a, b, c, p.open, p.close);
    var m := Match(|a|, |a| + |p.open| + |b|);
    var after := m.bodyEnd + |p.close|;
    assert s[..m.start] == a && s[after..] == c && s[m.start + |p.open|..m.bodyEnd] == b;
    var f := b => Expand(pieces, Values(p, b));
    SpliceSingle(s, m, |p.open|, |p.close|, f);
  }

  /** `re.sub` on an empty declaration: the template's text for an empty body. */
  lemma ReSubEmpty(p: Pattern, template: string, pieces: seq<Piece>)
    requires |p.open| > 0 && |p.close| > 0 && Parse(template, GroupCount(p)) == Success(pieces)
    ensures ReSub(p, template, p.open + p.close) == Success(Expand(pieces, Values(p, "")))
  {
    assert p.open + p.close == "" + p.open + "" + p.close + "";
    ReSubOne(p, template, pieces, "", "", "");
    var x := Expand(pieces, Values(p, ""));
    assert "" + x + "" == x;
  }
}
