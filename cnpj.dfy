/**
 * Normalising and extracting Brazilian company identifiers (CNPJ).
 *
 * `normalize_cnpj` keeps the digits of a value; `extract_cnpjs_from_text` runs
 * `re.findall` with the pattern `\d{2}\.?\d{3}\.?\d{3}\/?\d{4}-?\d{2}` and
 * normalises every match.
 *
 * The pattern is written here as a list of tokens. `Accepts` is the language of
 * such a list: what a regular-expression engine may match, with every optional
 * character either taken or skipped. `MatchTokens` is a greedy matcher that
 * never backtracks. `MatchTokensExact` proves the two agree whenever every
 * optional character is a non-digit followed by a digit run: at a given start
 * there is then at most one match, and backtracking cannot change it.
 */
module CnpjText {
  import opened Wrappers
  import opened Text

  /** `normalize_cnpj`: a falsy value (None or "") gives "", anything else its digits. */
  function NormalizeCnpj(value: Option<string>): (r: string)
    ensures AllDigits(r)
    ensures value.None? ==> r == ""
    ensures value.Some? ==> r == Digits(value.value)
  {
    match value
    case None => ""
    case Some(s) => if s == "" then "" else Digits(s)
  }

  /** Normalising an already normalised value changes nothing. */
  lemma NormalizeIdempotent(value: Option<string>)
    ensures NormalizeCnpj(Some(NormalizeCnpj(value))) == NormalizeCnpj(value)
  {
    if value.Some? {
      DigitsIdempotent(value.value);
    }
  }

  /** One element of a regular expression made of `\d{n}` and `c?` only. */
  datatype Token = DigitRun(n: nat) | OptionalChar(c: char)

  /** `\d{2}\.?\d{3}\.?\d{3}\/?\d{4}-?\d{2}` */
  const CnpjPattern: seq<Token> := [
    DigitRun(2), OptionalChar('.'), DigitRun(3), OptionalChar('.'), DigitRun(3),
    OptionalChar('/'), DigitRun(4), OptionalChar('-'), DigitRun(2)]

  /** Number of digits every match of `p` holds. */
  function DigitCount(p: seq<Token>): nat {
    if p == [] then 0
    else (if p[0].DigitRun? then p[0].n else 0) + DigitCount(p[1..])
  }

  /** Every optional character is a non-digit and is followed by a non-empty digit run. */
  predicate Deterministic(p: seq<Token>) {
    forall k :: 0 <= k < |p| && p[k].OptionalChar? ==>
      !IsDigit(p[k].c) && k + 1 < |p| && p[k + 1].DigitRun? && p[k + 1].n > 0
  }

  /** The whole of `t` is in the language of `p`. */
  ghost predicate Accepts(p: seq<Token>, t: string)
    decreases |p|
  {
    if p == [] then t == []
    else match p[0]
      case DigitRun(n) => n <= |t| && AllDigits(t[..n]) && Accepts(p[1..], t[n..])
      case OptionalChar(c) =>
        Accepts(p[1..], t) || (t != [] && t[0] == c && Accepts(p[1..], t[1..]))
  }

  /** Greedy, non-backtracking match of `p` in `s` from index `i`; the index where it ends. */
  function MatchTokens(p: seq<Token>, s: string, i: nat): (r: Option<nat>)
    requires i <= |s|
    ensures r.Some? ==> i + DigitCount(p) <= r.value <= |s|
    decreases |p|
  {
    if p == [] then Some(i)
    else match p[0]
      case DigitRun(n) =>
        if i + n <= |s| && AllDigits(s[i..i + n]) then MatchTokens(p[1..], s, i + n) else None
      case OptionalChar(c) =>
        if i < |s| && s[i] == c then MatchTokens(p[1..], s, i + 1) else MatchTokens(p[1..], s, i)
  }

  lemma DeterministicTail(p: seq<Token>)
    requires p != [] && Deterministic(p)
    ensures Deterministic(p[1..])
  {
    forall k | 0 <= k < |p[1..]| && p[1..][k].OptionalChar?
      ensures !IsDigit(p[1..][k].c) && k + 1 < |p[1..]| && p[1..][k + 1].DigitRun? && p[1..][k + 1].n > 0
    {
      assert p[1..][k] == p[k + 1];
    }
  }

  /** What a pattern that starts with a non-empty digit run accepts starts with a digit. */
  lemma AcceptsStartsWithDigit(p: seq<Token>, t: string)
    requires p != [] && p[0].DigitRun? && p[0].n > 0 && Accepts(p, t)
    ensures t != [] && IsDigit(t[0])
  {
    assert t[..p[0].n][0] == t[0];
  }

  /**
   * The greedy matcher ends at `e` exactly when `s[i..e]` is in the language of
   * `p`: for a deterministic pattern the match from `i` is unique.
   */
  lemma {:induction false} MatchTokensExact(p: seq<Token>, s: string, i: nat, e: nat)
    requires Deterministic(p) && i <= e <= |s|
    ensures MatchTokens(p, s, i) == Some(e) <==> Accepts(p, s[i..e])
    decreases |p|
  {
    var t := s[i..e];
    if p == [] {
    } else {
      DeterministicTail(p);
      match p[0]
      case DigitRun(n) =>
        if i + n <= e {
          assert t[..n] == s[i..i + n];
          assert t[n..] == s[i + n..e];
          MatchTokensExact(p[1..], s, i + n, e);
        }
      case OptionalChar(c) =>
        assert p[1].DigitRun? && p[1].n > 0;
        assert p[1..][0] == p[1];
        if Accepts(p[1..], t) {
          AcceptsStartsWithDigit(p[1..], t);
        }
        if t != [] && t[0] == c && Accepts(p[1..], t[1..]) {
          assert t[0] == s[i];
        }
        if i < |s| && s[i] == c {
          if i + 1 <= e {
            assert t[0] == s[i];
            assert t[1..] == s[i + 1..e];
            MatchTokensExact(p[1..], s, i + 1, e);
          }
        } else {
          if t != [] {
            assert t[0] == s[i];
          }
          MatchTokensExact(p[1..], s, i, e);
        }
    }
  }

  /** Every match of a deterministic pattern holds exactly `DigitCount(p)` digits. */
  lemma {:induction false} AcceptedDigits(p: seq<Token>, t: string)
    requires Deterministic(p) && Accepts(p, t)
    ensures |Digits(t)| == DigitCount(p)
    decreases |p|
  {
    if p != [] {
      DeterministicTail(p);
      match p[0]
      case DigitRun(n) =>
        assert t == t[..n] + t[n..];
        DigitsAppend(t[..n], t[n..]);
        DigitsFixpoint(t[..n]);
        AcceptedDigits(p[1..], t[n..]);
      case OptionalChar(c) =>
        if Accepts(p[1..], t) {
          AcceptedDigits(p[1..], t);
        } else {
          assert t == [t[0]] + t[1..];
          DigitsAppend([t[0]], t[1..]);
          DigitsOfNonDigits([t[0]]);
          AcceptedDigits(p[1..], t[1..]);
        }
    }
  }

  lemma CnpjPatternShape()
    ensures Deterministic(CnpjPattern)
    ensures DigitCount(CnpjPattern) == 14
  {
    CnpjPatternDeterministic();
    CnpjPatternDigits();
  }

  lemma CnpjPatternDeterministic()
    ensures Deterministic(CnpjPattern)
  {
    forall k | 0 <= k < |CnpjPattern| && CnpjPattern[k].OptionalChar?
      ensures !IsDigit(CnpjPattern[k].c) && k + 1 < |CnpjPattern| && CnpjPattern[k + 1].DigitRun? && CnpjPattern[k + 1].n > 0
    {
      assert k == 1 || k == 3 || k == 5 || k == 7;
    }
  }

  lemma CnpjPatternDigits()
    ensures DigitCount(CnpjPattern) == 14
  {
    var p := CnpjPattern;
    assert DigitCount(p[8..]) == 2;
    assert DigitCount(p[7..]) == 2 by { assert p[7..][1..] == p[8..]; }
    assert DigitCount(p[6..]) == 6 by { assert p[6..][1..] == p[7..]; }
    assert DigitCount(p[5..]) == 6 by { assert p[5..][1..] == p[6..]; }
    assert DigitCount(p[4..]) == 9 by { assert p[4..][1..] == p[5..]; }
    assert DigitCount(p[3..]) == 9 by { assert p[3..][1..] == p[4..]; }
    assert DigitCount(p[2..]) == 12 by { assert p[2..][1..] == p[3..]; }
    assert DigitCount(p[1..]) == 12 by { assert p[1..][1..] == p[2..]; }
    assert p[1..] == p[0..][1..];
  }

  /** Where `re.match` of the CNPJ pattern at index `i` of `s` ends, if it matches. */
  function MatchAt(s: string, i: nat): (r: Option<nat>)
    requires i <= |s|
    ensures r.Some? ==> i + 14 <= r.value <= |s|
  {
    CnpjPatternShape();
    // bound to a variable so that the verifier does not unroll the matcher over the literal
    var pattern := CnpjPattern;
    MatchTokens(pattern, s, i)
  }

  /** A match: `s[start..end]`. */
  datatype Span = Span(start: nat, end: nat)

  /** `s[span.start..span.end]` is a match of the pattern. */
  predicate IsMatch(s: string, span: Span) {
    span.start < span.end <= |s| && MatchAt(s, span.start) == Some(span.end)
  }

  /** Index `p` lies inside one of `spans`. */
  predicate Covered(spans: seq<Span>, p: int) {
    exists k :: 0 <= k < |spans| && spans[k].start <= p < spans[k].end
  }

  /**
   * What `re.findall` returns when it starts at `pos`: matches, from `pos` on,
   * left to right and not overlapping, such that every position where the
   * pattern matches lies inside one of them.
   */
  predicate FindAllFrom(s: string, pos: nat, spans: seq<Span>) {
    && (forall k :: 0 <= k < |spans| ==> pos <= spans[k].start && IsMatch(s, spans[k]))
    && (forall k :: 0 < k < |spans| ==> spans[k - 1].end <= spans[k].start)
    && (forall p :: pos <= p <= |s| && MatchAt(s, p).Some? ==> Covered(spans, p))
  }

  /**
   * `re.findall` from index `pos`: try a match at `pos`; on success record it
   * and resume at its end, otherwise resume at `pos + 1`.
   */
  function Scan(s: string, pos: nat): (spans: seq<Span>)
    requires pos <= |s|
    decreases |s| - pos
  {
    if pos == |s| then []
    else match MatchAt(s, pos)
      case Some(e) => [Span(pos, e)] + Scan(s, e)
      case None => Scan(s, pos + 1)
  }

  /** `Scan` is `re.findall`: its spans are exactly the leftmost non-overlapping matches. */
  lemma {:induction false} ScanFindsAll(s: string, pos: nat)
    requires pos <= |s|
    ensures FindAllFrom(s, pos, Scan(s, pos))
    decreases |s| - pos
  {
    if pos < |s| {
      match MatchAt(s, pos)
      case Some(e) =>
        ScanFindsAll(s, e);
        ScanFindsAllAfterMatch(s, pos, e);
      case None =>
        ScanFindsAll(s, pos + 1);
        ScanFindsAllAfterMiss(s, pos);
    }
  }

  lemma ScanFindsAllAfterMiss(s: string, pos: nat)
    requires pos < |s| && MatchAt(s, pos).None?
    requires FindAllFrom(s, pos + 1, Scan(s, pos + 1))
    ensures FindAllFrom(s, pos, Scan(s, pos))
  {
    ScanStepMiss(s, pos);
  }

  lemma ScanFindsAllAfterMatch(s: string, pos: nat, e: nat)
    requires pos < |s| && MatchAt(s, pos) == Some(e)
    requires FindAllFrom(s, e, Scan(s, e))
    ensures FindAllFrom(s, pos, Scan(s, pos))
  {
    ScanStepMatch(s, pos, e);
    ScanCons(s, pos, e, Scan(s, e));
  }

  lemma ScanCons(s: string, pos: nat, e: nat, rest: seq<Span>)
    requires pos <= |s| && MatchAt(s, pos) == Some(e) && FindAllFrom(s, e, rest)
    ensures FindAllFrom(s, pos, [Span(pos, e)] + rest)
  {
    ScanConsMatches(s, pos, e, rest);
    ScanConsOrdered(pos, e, rest);
    ScanConsCovers(s, pos, e, rest);
  }

  lemma ScanConsMatches(s: string, pos: nat, e: nat, rest: seq<Span>)
    requires pos <= |s| && MatchAt(s, pos) == Some(e)
    requires forall k :: 0 <= k < |rest| ==> e <= rest[k].start && IsMatch(s, rest[k])
    ensures var spans := [Span(pos, e)] + rest;
      forall k :: 0 <= k < |spans| ==> pos <= spans[k].start && IsMatch(s, spans[k])
  {
    var spans := [Span(pos, e)] + rest;
    forall k | 0 <= k < |spans|
      ensures pos <= spans[k].start && IsMatch(s, spans[k])
    {
      if k > 0 {
        assert spans[k] == rest[k - 1];
      }
    }
  }

  lemma ScanConsOrdered(pos: nat, e: nat, rest: seq<Span>)
    requires forall k :: 0 <= k < |rest| ==> e <= rest[k].start
    requires forall k :: 0 < k < |rest| ==> rest[k - 1].end <= rest[k].start
    ensures var spans := [Span(pos, e)] + rest;
      forall k :: 0 < k < |spans| ==> spans[k - 1].end <= spans[k].start
  {
    var spans := [Span(pos, e)] + rest;
    forall k | 0 < k < |spans|
      ensures spans[k - 1].end <= spans[k].start
    {
      assert spans[k] == rest[k - 1];
      if k > 1 {
        assert spans[k - 1] == rest[k - 2];
      }
    }
  }

  lemma ScanConsCovers(s: string, pos: nat, e: nat, rest: seq<Span>)
    requires pos <= |s| && MatchAt(s, pos) == Some(e)
    requires forall p :: e <= p <= |s| && MatchAt(s, p).Some? ==> Covered(rest, p)
    ensures forall p :: pos <= p <= |s| && MatchAt(s, p).Some? ==> Covered([Span(pos, e)] + rest, p)
  {
    var spans := [Span(pos, e)] + rest;
    forall p | pos <= p <= |s| && MatchAt(s, p).Some?
      ensures Covered(spans, p)
    {
      if p < e {
        assert spans[0].start <= p < spans[0].end;
      } else {
        var k :| 0 <= k < |rest| && rest[k].start <= p < rest[k].end;
        assert spans[k + 1] == rest[k];
      }
    }
  }

  /** One step of `re.findall` where no match starts at `pos`. */
  lemma ScanStepMiss(s: string, pos: nat)
    requires pos < |s| && MatchAt(s, pos).None?
    ensures Scan(s, pos) == Scan(s, pos + 1)
  {
  }

  /** One step of `re.findall` where a match starts at `pos` and ends at `e`. */
  lemma ScanStepMatch(s: string, pos: nat, e: nat)
    requires pos < |s| && MatchAt(s, pos) == Some(e)
    ensures Scan(s, pos) == [Span(pos, e)] + Scan(s, e)
  {
  }

  /** `extract_cnpjs_from_text`: the normalised matches, in order, duplicates kept. */
  function ExtractCnpjs(text: string): (cnpjs: seq<string>)
    ensures forall k :: 0 <= k < |cnpjs| ==> |cnpjs[k]| == 14 && AllDigits(cnpjs[k])
  {
    ScanFindsAll(text, 0);
    Lexemes(text, Scan(text, 0))
  }

  /** The normalised text of each match, in order. */
  function Lexemes(text: string, spans: seq<Span>): (cnpjs: seq<string>)
    requires forall k :: 0 <= k < |spans| ==> IsMatch(text, spans[k])
    ensures |cnpjs| == |spans|
    ensures forall k :: 0 <= k < |cnpjs| ==> |cnpjs[k]| == 14 && AllDigits(cnpjs[k])
  {
    if spans == [] then []
    else
      assert IsMatch(text, spans[0]);
      [Lexeme(text, spans[0])] + Lexemes(text, spans[1..])
  }

  lemma {:induction false} LexemesDigits(text: string, spans: seq<Span>)
    requires forall k :: 0 <= k < |spans| ==> IsMatch(text, spans[k])
    ensures forall k :: 0 <= k < |spans| ==>
      Lexemes(text, spans)[k] == Digits(text[spans[k].start..spans[k].end])
  {
    if spans != [] {
      assert IsMatch(text, spans[0]);
      LexemesDigits(text, spans[1..]);
      forall k | 0 <= k < |spans|
        ensures Lexemes(text, spans)[k] == Digits(text[spans[k].start..spans[k].end])
      {
        if k > 0 {
          assert spans[k] == spans[1..][k - 1];
        }
      }
    }
  }

  /** The normalised text of one match: its fourteen digits. */
  function Lexeme(text: string, span: Span): (cnpj: string)
    requires span.start <= |text| && MatchAt(text, span.start) == Some(span.end)
    ensures |cnpj| == 14 && AllDigits(cnpj)
  {
    CnpjPatternShape();
    MatchTokensExact(CnpjPattern, text, span.start, span.end);
    AcceptedDigits(CnpjPattern, text[span.start..span.end]);
    NormalizeCnpj(Some(text[span.start..span.end]))
  }

  /** The pattern matches nowhere in `text` exactly when nothing is extracted. */
  lemma ExtractNothingIff(text: string)
    ensures ExtractCnpjs(text) == [] <==> forall p :: 0 <= p <= |text| ==> MatchAt(text, p).None?
  {
    ScanFindsAll(text, 0);
    var spans := Scan(text, 0);
    if spans != [] {
      assert IsMatch(text, spans[0]);
    }
  }

  /** A match cannot start at a character that is not a digit. */
  lemma NoMatchAtNonDigit(s: string, p: nat)
    requires p < |s| && !IsDigit(s[p])
    ensures MatchAt(s, p).None?
  {
    if p + 2 <= |s| {
      assert s[p..p + 2][0] == s[p];
    }
  }

  /** An optional separator, present or not. */
  function Separator(c: char, present: bool): string {
    if present then [c] else []
  }

  /**
   * The fourteen digits `d` written as `NN.NNN.NNN/NNNN-NN`, each of the four
   * separators present or left out.
   */
  function Formatted(d: string, dot1: bool, dot2: bool, slash: bool, dash: bool): string
    requires |d| == 14
  {
    d[..2] + (Separator('.', dot1) + (d[2..5] + (Separator('.', dot2) + (d[5..8] +
      (Separator('/', slash) + (d[8..12] + (Separator('-', dash) + d[12..])))))))
  }

  lemma AcceptsDigitRun(p: seq<Token>, ds: string, t: string)
    requires p != [] && p[0] == DigitRun(|ds|) && AllDigits(ds) && Accepts(p[1..], t)
    ensures Accepts(p, ds + t)
  {
    assert (ds + t)[..|ds|] == ds;
    assert (ds + t)[|ds|..] == t;
  }

  lemma AcceptsSeparator(p: seq<Token>, c: char, present: bool, t: string)
    requires p != [] && p[0] == OptionalChar(c) && Accepts(p[1..], t)
    ensures Accepts(p, Separator(c, present) + t)
  {
    if present {
      assert ([c] + t)[1..] == t;
    } else {
      assert [] + t == t;
    }
  }

  /** Every way of writing a CNPJ with or without its separators is a match. */
  lemma {:induction false} FormattedAccepted(d: string, dot1: bool, dot2: bool, slash: bool, dash: bool)
    requires |d| == 14 && AllDigits(d)
    ensures IsCnpjText(Formatted(d, dot1, dot2, slash, dash))
  {
    var P := CnpjPattern;
    FormattedTailAccepted(d, slash, dash);
    var t4 := d[5..8] + (Separator('/', slash) + (d[8..12] + (Separator('-', dash) + d[12..])));
    assert P[3..][1..] == P[4..];
    AcceptsSeparator(P[3..], '.', dot2, t4);
    var t3 := Separator('.', dot2) + t4;
    assert P[2..][1..] == P[3..] && AllDigits(d[2..5]);
    AcceptsDigitRun(P[2..], d[2..5], t3);
    var t2 := d[2..5] + t3;
    assert P[1..][1..] == P[2..];
    AcceptsSeparator(P[1..], '.', dot1, t2);
    var t1 := Separator('.', dot1) + t2;
    assert P[0..] == P && P[1..] == P[0..][1..] && AllDigits(d[..2]);
    AcceptsDigitRun(P, d[..2], t1);
  }

  /** The second half of a CNPJ, from its third group of digits on, in any accepted style. */
  lemma {:induction false} FormattedTailAccepted(d: string, slash: bool, dash: bool)
    requires |d| == 14 && AllDigits(d)
    ensures Accepts(CnpjPattern[4..], d[5..8] + (Separator('/', slash) + (d[8..12] + (Separator('-', dash) + d[12..]))))
  {
    var P := CnpjPattern;
    assert P[8..][1..] == [];
    assert AllDigits(d[12..]);
    assert Accepts(P[8..][1..], []);
    assert d[12..] + [] == d[12..];
    AcceptsDigitRun(P[8..], d[12..], []);
    assert P[7..][1..] == P[8..];
    AcceptsSeparator(P[7..], '-', dash, d[12..]);
    var t7 := Separator('-', dash) + d[12..];
    assert P[6..][1..] == P[7..] && AllDigits(d[8..12]);
    AcceptsDigitRun(P[6..], d[8..12], t7);
    var t6 := d[8..12] + t7;
    assert P[5..][1..] == P[6..];
    AcceptsSeparator(P[5..], '/', slash, t6);
    var t5 := Separator('/', slash) + t6;
    assert P[4..][1..] == P[5..] && AllDigits(d[5..8]);
    AcceptsDigitRun(P[4..], d[5..8], t5);
  }

  lemma DigitsAfterSeparator(c: char, present: bool, t: string)
    requires !IsDigit(c)
    ensures Digits(Separator(c, present) + t) == Digits(t)
  {
    DigitsAppend(Separator(c, present), t);
    DigitsOfNonDigits(Separator(c, present));
  }

  lemma DigitsAfterDigits(ds: string, t: string)
    requires AllDigits(ds)
    ensures Digits(ds + t) == ds + Digits(t)
  {
    DigitsAppend(ds, t);
    DigitsFixpoint(ds);
  }

  /** Whatever separators are written, the digits of a formatted CNPJ are `d`. */
  lemma FormattedDigits(d: string, dot1: bool, dot2: bool, slash: bool, dash: bool)
    requires |d| == 14 && AllDigits(d)
    ensures Digits(Formatted(d, dot1, dot2, slash, dash)) == d
  {
    var t4 := d[5..8] + (Separator('/', slash) + (d[8..12] + (Separator('-', dash) + d[12..])));
    FormattedTailDigits(d, slash, dash);
    var t3 := Separator('.', dot2) + t4;
    DigitsAfterSeparator('.', dot2, t4);
    var t2 := d[2..5] + t3;
    assert AllDigits(d[2..5]);
    DigitsAfterDigits(d[2..5], t3);
    var t1 := Separator('.', dot1) + t2;
    DigitsAfterSeparator('.', dot1, t2);
    assert AllDigits(d[..2]);
    DigitsAfterDigits(d[..2], t1);
    assert Formatted(d, dot1, dot2, slash, dash) == d[..2] + t1;
    assert d[..2] + (d[2..5] + d[5..]) == d;
  }

  /** The digits of the second half of a formatted CNPJ, from its third group on. */
  lemma FormattedTailDigits(d: string, slash: bool, dash: bool)
    requires |d| == 14 && AllDigits(d)
    ensures Digits(d[5..8] + (Separator('/', slash) + (d[8..12] + (Separator('-', dash) + d[12..])))) == d[5..]
  {
    var t7 := Separator('-', dash) + d[12..];
    DigitsAfterSeparator('-', dash, d[12..]);
    assert AllDigits(d[12..]);
    DigitsFixpoint(d[12..]);
    var t6 := d[8..12] + t7;
    assert AllDigits(d[8..12]);
    DigitsAfterDigits(d[8..12], t7);
    var t5 := Separator('/', slash) + t6;
    DigitsAfterSeparator('/', slash, t6);
    assert AllDigits(d[5..8]);
    DigitsAfterDigits(d[5..8], t5);
    assert d[5..8] + (d[8..12] + d[12..]) == d[5..];
  }

  /**
   * `t` as a whole is written the way the CNPJ pattern describes. (The pattern is
   * bound to a variable so that the verifier does not unroll `Accepts` over it.)
   */
  ghost predicate IsCnpjText(t: string) {
    var pattern := CnpjPattern;
    Accepts(pattern, t)
  }

  /** The match at `i` ends at `e` exactly when `s[i..e]` is in the language of the pattern. */
  lemma MatchAtExact(s: string, i: nat, e: nat)
    requires i <= e <= |s|
    ensures MatchAt(s, i) == Some(e) <==> IsCnpjText(s[i..e])
  {
    CnpjPatternShape();
    MatchTokensExact(CnpjPattern, s, i, e);
  }

  /** A CNPJ written in any accepted style at `s[pos..e]` is the match at `pos`. */
  lemma FormattedMatchAt(s: string, pos: nat, e: nat, d: string, dot1: bool, dot2: bool, slash: bool, dash: bool)
    requires |d| == 14 && AllDigits(d)
    requires pos <= e <= |s| && s[pos..e] == Formatted(d, dot1, dot2, slash, dash)
    ensures MatchAt(s, pos) == Some(e) && Digits(s[pos..e]) == d
  {
    FormattedAccepted(d, dot1, dot2, slash, dash);
    FormattedDigits(d, dot1, dot2, slash, dash);
    MatchAtExact(s, pos, e);
  }

  /** `re.findall` steps over characters that are not digits. */
  lemma {:induction false} ScanSkipsNonDigits(s: string, lo: nat, hi: nat)
    requires lo <= hi <= |s|
    requires forall p :: lo <= p < hi ==> !IsDigit(s[p])
    ensures Scan(s, lo) == Scan(s, hi)
    decreases hi - lo
  {
    if lo < hi {
      NoMatchAtNonDigit(s, lo);
      ScanStepMiss(s, lo);
      ScanSkipsNonDigits(s, lo + 1, hi);
    }
  }

  /** The CNPJs extracted from `text` are the digits of the spans `re.findall` reports. */
  lemma ExtractedDigits(text: string)
    ensures |ExtractCnpjs(text)| == |Scan(text, 0)|
    ensures var spans := Scan(text, 0);
      forall k :: 0 <= k < |spans| ==>
        spans[k].start <= spans[k].end <= |text| &&
        ExtractCnpjs(text)[k] == Digits(text[spans[k].start..spans[k].end])
  {
    ScanFindsAll(text, 0);
    LexemesDigits(text, Scan(text, 0));
  }

  /** Two matches with only non-digits between them are the only spans reported. */
  lemma ScanTwoMatches(s: string, e1: nat, e2: nat)
    requires e1 <= e2 <= |s| && MatchAt(s, 0) == Some(e1) && MatchAt(s, e2) == Some(|s|)
    requires forall p :: e1 <= p < e2 ==> !IsDigit(s[p])
    ensures Scan(s, 0) == [Span(0, e1), Span(e2, |s|)]
  {
    ScanStepMatch(s, 0, e1);
    ScanSkipsNonDigits(s, e1, e2);
    ScanStepMatch(s, e2, |s|);
    assert Scan(s, |s|) == [];
  }

  /** When `re.findall` reports two spans, the CNPJs extracted are their digits. */
  lemma ExtractFromTwoSpans(s: string, e1: nat, e2: nat, d1: string, d2: string)
    requires e1 <= e2 <= |s| && Scan(s, 0) == [Span(0, e1), Span(e2, |s|)]
    requires Digits(s[0..e1]) == d1 && Digits(s[e2..|s|]) == d2
    ensures ExtractCnpjs(s) == [d1, d2]
  {
    ExtractedDigits(s);
  }

  /** CNPJs written in accepted styles at `s[..e1]` and `s[e2..]`, with no digit between, are all that is extracted. */
  lemma ExtractTwoAt(s: string, e1: nat, e2: nat, d1: string, d2: string, f1: (bool, bool, bool, bool), f2: (bool, bool, bool, bool))
    requires |d1| == 14 && AllDigits(d1) && |d2| == 14 && AllDigits(d2)
    requires e1 <= e2 <= |s|
    requires s[0..e1] == Formatted(d1, f1.0, f1.1, f1.2, f1.3) && s[e2..|s|] == Formatted(d2, f2.0, f2.1, f2.2, f2.3)
    requires forall p :: e1 <= p < e2 ==> !IsDigit(s[p])
    ensures ExtractCnpjs(s) == [d1, d2]
  {
    FormattedMatchAt(s, 0, e1, d1, f1.0, f1.1, f1.2, f1.3);
    FormattedMatchAt(s, e2, |s|, d2, f2.0, f2.1, f2.2, f2.3);
    ScanTwoMatches(s, e1, e2);
    ExtractFromTwoSpans(s, e1, e2, d1, d2);
  }

  /**
   * Two CNPJs, written in any of the accepted styles and separated by text
   * without digits, come out as both their digit strings, in order; when the
   * two are the same CNPJ it is reported twice.
   */
  lemma ExtractTwo(d1: string, d2: string, sep: string, f1: (bool, bool, bool, bool), f2: (bool, bool, bool, bool))
    requires |d1| == 14 && AllDigits(d1) && |d2| == 14 && AllDigits(d2)
    requires forall k :: 0 <= k < |sep| ==> !IsDigit(sep[k])
    ensures ExtractCnpjs(Formatted(d1, f1.0, f1.1, f1.2, f1.3) + sep + Formatted(d2, f2.0, f2.1, f2.2, f2.3)) == [d1, d2]
  {
    var x := Formatted(d1, f1.0, f1.1, f1.2, f1.3);
    var y := Formatted(d2, f2.0, f2.1, f2.2, f2.3);
    var s := x + sep + y;
    JoinedParts(x, sep, y);
    ExtractTwoAt(s, |x|, |x| + |sep|, d1, d2, f1, f2);
  }

  /** The pieces of `x + sep + y`, located by index. */
  lemma JoinedParts(x: string, sep: string, y: string)
    ensures var s := x + sep + y;
      && s[0..|x|] == x && s[|x| + |sep|..|s|] == y
      && forall p :: |x| <= p < |x| + |sep| ==> s[p] == sep[p - |x|]
  {
  }

  /** A CNPJ alone, in any accepted style, extracts as its fourteen digits. */
  lemma ExtractOne(d: string, dot1: bool, dot2: bool, slash: bool, dash: bool)
    requires |d| == 14 && AllDigits(d)
    ensures ExtractCnpjs(Formatted(d, dot1, dot2, slash, dash)) == [d]
  {
    var s := Formatted(d, dot1, dot2, slash, dash);
    assert s[0..|s|] == s;
    FormattedMatchAt(s, 0, |s|, d, dot1, dot2, slash, dash);
    ScanStepMatch(s, 0, |s|);
    assert Scan(s, |s|) == [];
    assert Scan(s, 0) == [Span(0, |s|)];
    ExtractedDigits(s);
    assert ExtractCnpjs(s)[0] == d;
  }
}
