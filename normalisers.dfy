/**
 * The scripts' text-to-number cleaners. Each is a rewrite of the cell text
 * into a cleaned string, followed by Python's float() (Numbers.ParseFloat).
 * They disagree on Brazilian amounts such as "1.234,56", so each one is
 * kept apart and the disagreement is stated as lemmas.
 */
module Normalisers {
  import opened Wrappers
  import opened Strings
  import opened Numbers

  predicate IsSignedNumericChar(c: char) { IsDigit(c) || c == ',' || c == '.' || c == '-' }
  predicate IsUnsignedNumericChar(c: char) { IsDigitLike(c) || c == ',' || c == '.' }
  predicate IsDotNumericChar(c: char) { IsDigit(c) || c == '.' || c == '-' }
  predicate IsDotDigitChar(c: char) { IsDigit(c) || c == '.' }

  // ---------------------------------------------------------------- filter facts

  /** Filtering by a weaker predicate first does not change what a stronger filter keeps. */
  lemma {:induction false} FilterFilter(s: string, outer: char -> bool, inner: char -> bool)
    requires forall c :: inner(c) ==> outer(c)
    ensures Filter(Filter(s, outer), inner) == Filter(s, inner)
    decreases |s|
  {
    if s != [] {
      FilterFilter(s[1..], outer, inner);
      var head := if outer(s[0]) then [s[0]] else [];
      FilterAppend(head, Filter(s[1..], outer), inner);
      assert Filter(head, inner) == (if inner(s[0]) then [s[0]] else []);
    }
  }

  /** Replacing a character that a filter drops by another it drops is invisible to the filter. */
  lemma {:induction false} FilterReplaceChar(s: string, a: char, b: char, keep: char -> bool)
    requires !keep(a) && !keep(b)
    ensures Filter(ReplaceChar(s, a, b), keep) == Filter(s, keep)
    decreases |s|
  {
    if s != [] {
      assert ReplaceChar(s, a, b)[1..] == ReplaceChar(s[1..], a, b);
      FilterReplaceChar(s[1..], a, b, keep);
    }
  }

  lemma {:induction false} ReplaceCharAbsent(s: string, a: char, b: char)
    requires a !in s
    ensures ReplaceChar(s, a, b) == s
  {
  }

  lemma ReplaceCharBack(s: string, a: char, b: char)
    requires b !in s
    ensures ReplaceChar(ReplaceChar(s, a, b), b, a) == s
  {
  }

  // ---------------------------------------------------------------- keep the last '.'

  /**
   * When several '.' remain, every '.' but the last is deleted
   * (''.join(parts[:-1]) + '.' + parts[-1]).
   */
  function KeepLastDot(s: string): (r: string)
  {
    var parts := Split(s, '.');
    if Count(s, '.') > 1 then Concat(parts[..|parts| - 1]) + "." + parts[|parts| - 1] else s
  }

  /** The text after the last '.' (all of `s` when there is none). */
  function LastDotPart(s: string): string
  {
    Split(s, '.')[Count(s, '.')]
  }

  /** The text before the last '.', with its own dots deleted. */
  function BeforeLastDot(s: string): string
  {
    var parts := Split(s, '.');
    Concat(parts[..|parts| - 1])
  }

  lemma KeepLastDotShape(s: string)
    requires Count(s, '.') > 1
    ensures '.' !in BeforeLastDot(s) && '.' !in LastDotPart(s)
    ensures BeforeLastDot(s) + LastDotPart(s) == RemoveChar(s, '.')
    ensures KeepLastDot(s) == BeforeLastDot(s) + "." + LastDotPart(s)
  {
    PartsHaveNoDot(s);
    PartsJoinWithoutDots(s);
  }

  lemma PartsHaveNoDot(s: string)
    requires Count(s, '.') > 1
    ensures '.' !in BeforeLastDot(s) && '.' !in LastDotPart(s)
  {
    var parts := Split(s, '.');
    ConcatNoChar(parts[..|parts| - 1], '.');
  }

  lemma PartsJoinWithoutDots(s: string)
    requires Count(s, '.') > 1
    ensures BeforeLastDot(s) + LastDotPart(s) == RemoveChar(s, '.')
  {
    var parts := Split(s, '.');
    ConcatInitLast(parts);
    RemoveCharIsConcatSplit(s, '.');
  }

  lemma ConcatInitLast(parts: seq<string>)
    requires |parts| > 0
    ensures Concat(parts[..|parts| - 1]) + parts[|parts| - 1] == Concat(parts)
  {
    var n := |parts|;
    assert parts == parts[..n - 1] + [parts[n - 1]];
    ConcatAppend(parts[..n - 1], [parts[n - 1]]);
    assert Concat([parts[n - 1]]) == parts[n - 1];
  }

  /** At most one '.' survives KeepLastDot. */
  lemma KeepLastDotOneDot(s: string)
    ensures Count(KeepLastDot(s), '.') <= 1
  {
    if Count(s, '.') > 1 {
      KeepLastDotShape(s);
      var last, init := LastDotPart(s), BeforeLastDot(s);
      CountAbsent(init, '.');
      CountAbsent(last, '.');
      CountAppend(init + ".", last, '.');
      CountAppend(init, ".", '.');
    }
  }

  /** KeepLastDot deletes '.' characters and nothing else. */
  lemma KeepLastDotKeepsOthers(s: string)
    ensures RemoveChar(KeepLastDot(s), '.') == RemoveChar(s, '.')
  {
    if Count(s, '.') > 1 {
      KeepLastDotShape(s);
      RemoveDotOfJoin(BeforeLastDot(s), LastDotPart(s));
    }
  }

  lemma RemoveDotOfJoin(a: string, b: string)
    requires '.' !in a && '.' !in b
    ensures RemoveChar(a + "." + b, '.') == a + b
  {
    var d := ".";
    RemoveCharAppend(a, d, '.');
    assert RemoveChar(d, '.') == [];
    RemoveCharAbsent(a, '.');
    assert RemoveChar(a + d, '.') == a;
    RemoveCharAppend(a + d, b, '.');
    RemoveCharAbsent(b, '.');
  }

  /** The digits after the last '.' stay after the one '.' that KeepLastDot leaves. */
  lemma KeepLastDotKeepsFraction(s: string)
    ensures LastDotPart(KeepLastDot(s)) == LastDotPart(s)
  {
    if Count(s, '.') > 1 {
      KeepLastDotShape(s);
      var last, init := LastDotPart(s), BeforeLastDot(s);
      SplitAtSepHere(init, last);
      KeepLastDotOneDot(s);
    }
  }

  lemma SplitAtSepHere(a: string, b: string)
    requires '.' !in a && '.' !in b
    ensures Split(a + "." + b, '.') == [a, b]
  {
    SplitAtSep(a, b, '.');
    SplitNoSep(b, '.');
    assert a + "." + b == a + ['.'] + b;
  }

  // ---------------------------------------------------------------- signed cleaner

  /** re.sub(r"[^\d,.\-]", "", s) followed by .replace(",", "."). */
  function SignedNumericText(s: string): (r: string)
    ensures forall i :: 0 <= i < |r| ==> IsDotNumericChar(r[i])
    ensures Filter(r, IsDigit) == Filter(s, IsDigit)
  {
    var kept := Filter(s, IsSignedNumericChar);
    FilterReplaceChar(kept, ',', '.', IsDigit);
    FilterFilter(s, IsSignedNumericChar, IsDigit);
    ReplaceChar(kept, ',', '.')
  }

  /**
   * to_float of parse_xml_tiktok.py and to_num of merge_amazon.py: a missing
   * cell, or cleaned text that float() refuses, reads as 0.0.
   */
  function SignedAmountOrZero(cell: Option<string>): real
  {
    match cell
    case None => 0.0
    case Some(s) => ParseFloat(SignedNumericText(s)).GetOr(0.0)
  }

  /** `pd.to_numeric(errors="coerce").fillna(0)`: text float() accepts, else 0. */
  function NumericOrZero(cell: Option<string>): real
  {
    if cell.None? then 0.0 else ParseFloat(cell.value).GetOr(0.0)
  }

  /** limpar_valores of tratamento_marketplaces.py: the same rewrite on astype(str) text, NaN when to_numeric refuses. */
  function SignedAmountOrNaN(cell: Option<string>): Option<real>
  {
    ParseFloat(SignedNumericText(cell.GetOr("nan")))
  }

  // ---------------------------------------------------------------- unsigned cleaner

  /**
   * limpar_valor of amz.py and blz.py: drop "R$", spaces and no-break spaces,
   * keep what str.isdigit() accepts (superscripts included), ',' and '.', keep
   * the last '.', and turn ',' into '.' only when no '.' is left.
   */
  function UnsignedAmountText(s: string): (r: string)
    ensures forall i :: 0 <= i < |r| ==> IsUnsignedNumericChar(r[i])
  {
    var noCurrency := ReplaceAll(s, "R$", "");
    var noSpace := RemoveChar(RemoveChar(noCurrency, ' '), '\U{00A0}');
    var kept := Filter(noSpace, IsUnsignedNumericChar);
    var oneDot := KeepLastDot(kept);
    KeepLastDotChars(kept);
    if ',' in oneDot && '.' !in oneDot then ReplaceChar(oneDot, ',', '.') else oneDot
  }

  lemma KeepLastDotChars(s: string)
    requires forall i :: 0 <= i < |s| ==> IsUnsignedNumericChar(s[i])
    ensures forall i :: 0 <= i < |KeepLastDot(s)| ==> IsUnsignedNumericChar(KeepLastDot(s)[i])
  {
    var r := KeepLastDot(s);
    forall i | 0 <= i < |r| ensures IsUnsignedNumericChar(r[i]) {
      if r[i] != '.' {
        KeepLastDotKeepsOthers(s);
        RemovedCharIn(r, '.', i);
        RemoveCharSubset(s, '.', r[i]);
      }
    }
  }

  /** A kept character survives character removal. */
  lemma {:induction false} RemovedCharIn(s: string, c: char, i: nat)
    requires i < |s| && s[i] != c
    ensures s[i] in RemoveChar(s, c)
    decreases |s|
  {
    if i > 0 {
      RemovedCharIn(s[1..], c, i - 1);
    }
  }

  /** Character removal adds no character. */
  lemma {:induction false} RemoveCharSubset(s: string, c: char, x: char)
    requires x in RemoveChar(s, c)
    ensures x in s
    decreases |s|
  {
    if s != [] && !(s[0] == x) {
      assert RemoveChar(s, c) == (if s[0] != c then [s[0]] else []) + RemoveChar(s[1..], c);
      RemoveCharSubset(s[1..], c, x);
    }
  }

  /** limpar_valor of amz.py and blz.py: a missing cell, or text float() refuses, reads as 0.0; nothing reads negative. */
  function UnsignedAmountOrZero(cell: Option<string>): (r: real)
    ensures r >= 0.0
  {
    match cell
    case None => 0.0
    case Some(s) =>
      var t := UnsignedAmountText(s);
      match ParseFloat(t)
      case None => 0.0
      case Some(v) =>
        UnsignedHasNoMinus(t);
        ParseFloatUnsigned(t);
        v
  }

  /** isdigit() keeps a superscript that float() then refuses: "1²,50" reads as 0.0. */
  lemma UnsignedSuperscriptRefused()
    ensures UnsignedAmountText("1\U{00B2},50") == "1\U{00B2}.50"
    ensures UnsignedAmountOrZero(Some("1\U{00B2},50")) == 0.0
  {
    SuperscriptCleaned("1\U{00B2},50");
    SuperscriptUnread("1\U{00B2}.50");
  }

  lemma SuperscriptCleaned(s: string)
    requires s == "1\U{00B2},50"
    ensures UnsignedAmountText(s) == "1\U{00B2}.50"
  {
    assert IsUnsignedNumericChar(s[0]) && IsUnsignedNumericChar(s[1]) && IsUnsignedNumericChar(s[2]);
    assert IsUnsignedNumericChar(s[3]) && IsUnsignedNumericChar(s[4]);
    assert s[2] == ',' && '.' !in s;
    CountAbsent(s, '.');
    UnsignedCleanerKeeps(s);
    var d := ReplaceChar(s, ',', '.');
    assert d[0] == '1' && d[1] == '\U{00B2}' && d[2] == '.' && d[3] == '5' && d[4] == '0';
    assert d == "1\U{00B2}.50";
  }

  lemma SuperscriptUnread(d: string)
    requires d == "1\U{00B2}.50"
    ensures ParseFloat(d) == None
  {
    TrimUntouched(d);
    var body := SplitSign(Trim(d)).1;
    assert body == d;
    var a, b := "1\U{00B2}", "50";
    assert a + "." + b == d;
    SplitAtSep(a, b, '.');
    SplitNoSep(b, '.');
    assert !IsDigit(a[1]);
  }

  lemma UnsignedHasNoMinus(t: string)
    requires forall i :: 0 <= i < |t| ==> IsUnsignedNumericChar(t[i])
    ensures '-' !in t
  {
  }

  // ---------------------------------------------------------------- dot-decimal cleaner

  /**
   * normalizar_numero of padronizador_final.py: strip, turn ',' into '.', keep
   * digits, '.' and '-', then keep only the last '.'.
   */
  function DotDecimalText(s: string): (r: string)
    ensures Count(r, '.') <= 1
    ensures forall i :: 0 <= i < |r| ==> IsDotNumericChar(r[i])
  {
    var kept := Filter(ReplaceChar(Trim(s), ',', '.'), IsDotNumericChar);
    KeepLastDotOneDot(kept);
    KeepLastDotDotNumeric(kept);
    KeepLastDot(kept)
  }

  lemma KeepLastDotDotNumeric(s: string)
    requires forall i :: 0 <= i < |s| ==> IsDotNumericChar(s[i])
    ensures forall i :: 0 <= i < |KeepLastDot(s)| ==> IsDotNumericChar(KeepLastDot(s)[i])
  {
    var r := KeepLastDot(s);
    forall i | 0 <= i < |r| ensures IsDotNumericChar(r[i]) {
      if r[i] != '.' {
        KeepLastDotKeepsOthers(s);
        RemovedCharIn(r, '.', i);
        RemoveCharSubset(s, '.', r[i]);
      }
    }
  }

  /**
   * The whole of normalizar_numero: NaN stays NaN (None), text float() refuses
   * gives NaN, and anything else is rounded to hundredths, returned here as a
   * whole number of hundredths.
   */
  function NormalizeNumberCents(cell: Option<string>): (r: Option<int>)
    ensures cell.None? ==> r.None?
    ensures cell.Some? ==> (r.Some? <==> ParseFloat(DotDecimalText(cell.value)).Some?)
  {
    match cell
    case None => None
    case Some(s) =>
      match ParseFloat(DotDecimalText(s))
      case None => None
      case Some(v) => Some(RoundCents(v))
  }

  // ---------------------------------------------------------------- round trips on well-formed amounts

  predicate DecimalChars(s: string)
  {
    forall i :: 0 <= i < |s| ==> IsDigit(s[i]) || s[i] == '.'
  }

  /** An amount written as "units.cc" with ',' in place of '.', as Brazilian exports write it. */
  function CommaCents(m: nat): string
  {
    ReplaceChar(FormatUnsignedCents(m), '.', ',')
  }

  lemma CentsTextShape(m: nat)
    ensures DecimalChars(FormatUnsignedCents(m))
    ensures Count(FormatUnsignedCents(m), '.') == 1
  {
    var ip, fp := NatToString(m / 100), TwoDigits(m % 100);
    assert FormatUnsignedCents(m) == ip + "." + fp;
    AllDigitsNoChar(ip, '.');
    AllDigitsNoChar(fp, '.');
    CountAbsent(ip, '.');
    CountAbsent(fp, '.');
    CountAppend(ip + ".", fp, '.');
    CountAppend(ip, ".", '.');
  }

  lemma NoPatternWithoutFirstChar(s: string, pat: string)
    requires pat != [] && pat[0] !in s
    ensures !Contains(s, pat)
  {
    ContainsIff(s, pat);
  }

  /** float() of the plain text, read by the signed cleaner, in both decimal styles. */
  lemma SignedAmountReadsCents(m: nat)
    ensures SignedAmountOrZero(Some(FormatUnsignedCents(m))) == m as real / 100.0
    ensures SignedAmountOrZero(Some(CommaCents(m))) == m as real / 100.0
  {
    var f := FormatUnsignedCents(m);
    CentsTextShape(m);
    FilterKeepsAll(f, IsSignedNumericChar);
    ReplaceCharAbsent(f, ',', '.');
    FormatUnsignedCentsRoundTrip(m);
    var t := CommaCents(m);
    FilterKeepsAll(t, IsSignedNumericChar);
    ReplaceCharBack(f, '.', ',');
  }

  /** The unsigned cleaner reads both decimal styles of a well-formed amount. */
  lemma UnsignedAmountReadsCents(m: nat)
    ensures UnsignedAmountOrZero(Some(FormatUnsignedCents(m))) == m as real / 100.0
    ensures UnsignedAmountOrZero(Some(CommaCents(m))) == m as real / 100.0
  {
    UnsignedTextOfCents(m);
    UnsignedTextOfCommaCents(m);
    FormatUnsignedCentsRoundTrip(m);
  }

  lemma UnsignedTextOfCents(m: nat)
    ensures UnsignedAmountText(FormatUnsignedCents(m)) == FormatUnsignedCents(m)
  {
    var f := FormatUnsignedCents(m);
    CentsTextShape(m);
    UnsignedCleanerKeeps(f);
    CountPresent(f, '.');
  }

  lemma UnsignedTextOfCommaCents(m: nat)
    ensures UnsignedAmountText(CommaCents(m)) == FormatUnsignedCents(m)
  {
    var f := FormatUnsignedCents(m);
    var t := CommaCents(m);
    CentsTextShape(m);
    CountPresent(f, '.');
    var k :| 0 <= k < |f| && f[k] == '.';
    assert t[k] == ',';
    assert DecimalCommaChars(t);
    assert '.' !in t;
    CountAbsent(t, '.');
    UnsignedCleanerKeeps(t);
    ReplaceCharBack(f, '.', ',');
  }

  predicate DecimalCommaChars(s: string)
  {
    forall i :: 0 <= i < |s| ==> IsDigit(s[i]) || s[i] == '.' || s[i] == ','
  }

  /** Text made only of isdigit() characters, ',' and at most one '.' passes the first steps of the unsigned cleaner unchanged. */
  lemma UnsignedCleanerKeeps(s: string)
    requires forall i :: 0 <= i < |s| ==> IsUnsignedNumericChar(s[i])
    requires Count(s, '.') <= 1
    ensures KeepLastDot(Filter(RemoveChar(RemoveChar(ReplaceAll(s, "R$", ""), ' '), '\U{00A0}'), IsUnsignedNumericChar)) == s
  {
    CleanerFilterKeeps(s);
    var kept := Filter(RemoveChar(RemoveChar(ReplaceAll(s, "R$", ""), ' '), '\U{00A0}'), IsUnsignedNumericChar);
    assert kept == s;
    assert KeepLastDot(kept) == kept;
  }

  lemma CleanerFilterKeeps(s: string)
    requires forall i :: 0 <= i < |s| ==> IsUnsignedNumericChar(s[i])
    ensures Filter(RemoveChar(RemoveChar(ReplaceAll(s, "R$", ""), ' '), '\U{00A0}'), IsUnsignedNumericChar) == s
  {
    NoCurrencyToRemove(s);
    NoSpaceToRemove(s);
    FilterKeepsAll(s, IsUnsignedNumericChar);
  }

  lemma NoCurrencyToRemove(s: string)
    requires forall i :: 0 <= i < |s| ==> IsUnsignedNumericChar(s[i])
    ensures ReplaceAll(s, "R$", "") == s
  {
    assert 'R' !in s by {
      forall i | 0 <= i < |s| ensures s[i] != 'R' {
        assert IsUnsignedNumericChar(s[i]);
      }
    }
    NoPatternWithoutFirstChar(s, "R$");
    ReplaceAllAbsent(s, "R$", "");
  }

  lemma NoSpaceToRemove(s: string)
    requires forall i :: 0 <= i < |s| ==> IsUnsignedNumericChar(s[i])
    ensures RemoveChar(RemoveChar(s, ' '), '\U{00A0}') == s
  {
    assert ' ' !in s && '\U{00A0}' !in s by {
      forall i | 0 <= i < |s| ensures s[i] != ' ' && s[i] != '\U{00A0}' {
        assert IsUnsignedNumericChar(s[i]);
      }
    }
    RemoveCharAbsent(s, ' ');
    RemoveCharAbsent(s, '\U{00A0}');
  }

  lemma ExactCentsRound(m: nat)
    ensures RoundCents(m as real / 100.0) == m
  {
    assert (m as real / 100.0) * 100.0 == m as real;
  }

  lemma DotTextOfCents(m: nat)
    ensures DotDecimalText(FormatUnsignedCents(m)) == FormatUnsignedCents(m)
  {
    var f := FormatUnsignedCents(m);
    CentsTextShape(m);
    TrimUntouched(f);
    ReplaceCharAbsent(f, ',', '.');
    FilterKeepsAll(f, IsDotNumericChar);
  }

  lemma DotTextOfCommaCents(m: nat)
    ensures DotDecimalText(CommaCents(m)) == FormatUnsignedCents(m)
  {
    var f := FormatUnsignedCents(m);
    var t := CommaCents(m);
    CentsTextShape(m);
    ReplaceCharBack(f, '.', ',');
    assert t[0] == f[0] && t[|t| - 1] == f[|f| - 1];
    TrimUntouched(t);
    FilterKeepsAll(f, IsDotNumericChar);
  }
}

