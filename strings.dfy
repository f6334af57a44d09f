/**
 * The string operations the scripts use: Python's str.strip, str.lower,
 * str.upper, `in`, startswith, endswith, str.replace, str.split, "".join
 * and character filters built from `re.sub` with a character class.
 */
module Strings {
  import opened Wrappers

  /** Python's str.isspace(), which is what str.strip() and `\s` remove. */
  predicate IsSpace(c: char)
  {
    c == ' ' || '\t' <= c <= '\r' || '\U{001C}' <= c <= '\U{001F}' || c == '\U{0085}' || c == '\U{00A0}'
    || c == '\U{1680}' || '\U{2000}' <= c <= '\U{200A}' || c == '\U{2028}' || c == '\U{2029}' || c == '\U{202F}'
    || c == '\U{205F}' || c == '\U{3000}'
  }

  predicate IsDigit(c: char)
  {
    '0' <= c <= '9'
  }

  /** Python's str.isdigit() on ASCII and Latin-1: the ten digits and the superscripts '¹', '²' and '³'. */
  predicate IsDigitLike(c: char)
  {
    IsDigit(c) || c == '\U{00B2}' || c == '\U{00B3}' || c == '\U{00B9}'
  }

  predicate IsBlank(s: string)
  {
    forall i :: 0 <= i < |s| ==> IsSpace(s[i])
  }

  // ---------------------------------------------------------------- strip

  function TrimStart(s: string): string
    decreases |s|
  {
    if s != [] && IsSpace(s[0]) then TrimStart(s[1..]) else s
  }

  function TrimEnd(s: string): string
    decreases |s|
  {
    if s != [] && IsSpace(s[|s| - 1]) then TrimEnd(s[..|s| - 1]) else s
  }

  /** Python's str.strip() with no argument. */
  function Trim(s: string): string
  {
    TrimEnd(TrimStart(s))
  }

  /** lstrip() drops a blank prefix and stops at the first non-space character. */
  lemma {:induction false} TrimStartShape(s: string)
    ensures |TrimStart(s)| <= |s| && TrimStart(s) == s[|s| - |TrimStart(s)|..]
    ensures IsBlank(s[..|s| - |TrimStart(s)|])
    ensures TrimStart(s) == [] || !IsSpace(TrimStart(s)[0])
    decreases |s|
  {
    if s != [] && IsSpace(s[0]) {
      TrimStartShape(s[1..]);
      var k := |s| - |TrimStart(s)|;
      assert s[1..][k - 1..] == s[k..];
      var pre := s[..k];
      forall i | 0 <= i < |pre| ensures IsSpace(pre[i]) {
        if i > 0 {
          assert pre[i] == s[1..][..k - 1][i - 1];
        }
      }
    }
  }

  /** rstrip() drops a blank suffix and stops at the last non-space character. */
  lemma {:induction false} TrimEndShape(s: string)
    ensures |TrimEnd(s)| <= |s| && TrimEnd(s) == s[..|TrimEnd(s)|]
    ensures IsBlank(s[|TrimEnd(s)|..])
    ensures TrimEnd(s) == [] || !IsSpace(TrimEnd(s)[|TrimEnd(s)| - 1])
    decreases |s|
  {
    if s != [] && IsSpace(s[|s| - 1]) {
      var t := s[..|s| - 1];
      TrimEndShape(t);
      var n := |TrimEnd(s)|;
      assert t[..n] == s[..n];
      var post := s[n..];
      forall i | 0 <= i < |post| ensures IsSpace(post[i]) {
        if n + i < |s| - 1 {
          assert post[i] == t[n..][i];
        }
      }
    }
  }

  lemma TrimStartFixed(s: string)
    requires s == [] || !IsSpace(s[0])
    ensures TrimStart(s) == s
  {
  }

  lemma TrimEndFixed(s: string)
    requires s == [] || !IsSpace(s[|s| - 1])
    ensures TrimEnd(s) == s
  {
  }

  /** strip() keeps the infix `s[k..k + n]` between a blank prefix and a blank suffix, with no space at either end. */
  lemma TrimShape(s: string) returns (k: nat, n: nat)
    ensures k + n <= |s| && Trim(s) == s[k..k + n]
    ensures IsBlank(s[..k]) && IsBlank(s[k + n..])
    ensures n == 0 || (!IsSpace(s[k]) && !IsSpace(s[k + n - 1]))
  {
    var a := TrimStart(s);
    TrimStartShape(s);
    k := |s| - |a|;
    var r := TrimEnd(a);
    TrimEndShape(a);
    n := |r|;
    SuffixSlices(s, k, n);
  }

  lemma SuffixSlices(s: string, k: nat, n: nat)
    requires k + n <= |s|
    ensures s[k..][..n] == s[k..k + n] && s[k..][n..] == s[k + n..]
    ensures n > 0 ==> s[k..][0] == s[k] && s[k..][n - 1] == s[k + n - 1]
  {
  }

  /** strip() never lengthens the text and leaves no space at either end. */
  lemma TrimEnds(s: string)
    ensures |Trim(s)| <= |s|
    ensures Trim(s) == [] || (!IsSpace(Trim(s)[0]) && !IsSpace(Trim(s)[|Trim(s)| - 1]))
  {
    var k, n := TrimShape(s);
  }

  lemma TrimIdempotent(s: string)
    ensures Trim(Trim(s)) == Trim(s)
  {
    var r := Trim(s);
    TrimEnds(s);
    TrimStartFixed(r);
    TrimEndFixed(r);
  }

  /** A string is blank exactly when strip() empties it (Python's `s.strip() == ""`). */
  lemma TrimEmptyIffBlank(s: string)
    ensures Trim(s) == [] <==> IsBlank(s)
  {
    var k, n := TrimShape(s);
    if n == 0 {
      assert s == s[..k] + s[k..];
      forall i | 0 <= i < |s| ensures IsSpace(s[i]) {
        if i >= k {
          assert s[i] == s[k + n..][i - k];
        } else {
          assert s[i] == s[..k][i];
        }
      }
    } else {
      assert !IsSpace(s[k]);
    }
  }

  // ---------------------------------------------------------------- case

  /** Python's str.lower() on ASCII and Latin-1 letters. */
  function LowerChar(c: char): char
  {
    if 'A' <= c <= 'Z' || ('\U{00C0}' <= c <= '\U{00DE}' && c != '\U{00D7}') then (c as int + 32) as char else c
  }

  /**
   * Python's str.upper() on one ASCII or Latin-1 character. Most letters map to
   * one letter, but 'ß' becomes "SS", 'ÿ' becomes 'Ÿ' (U+0178) and 'µ' becomes
   * the Greek capital 'Μ' (U+039C).
   */
  function UpperChar(c: char): (r: string)
    ensures 1 <= |r| <= 2
  {
    if c == '\U{00DF}' then "SS"
    else if c == '\U{00FF}' then "\U{0178}"
    else if c == '\U{00B5}' then "\U{039C}"
    else if 'a' <= c <= 'z' || ('\U{00E0}' <= c <= '\U{00FE}' && c != '\U{00F7}') then [(c as int - 32) as char]
    else [c]
  }

  /** A character that upper() leaves as it is. */
  predicate Uncased(c: char)
  {
    UpperChar(c) == [c]
  }

  function Lower(s: string): string
  {
    seq(|s|, i requires 0 <= i < |s| => LowerChar(s[i]))
  }

  /** Python's str.upper(): each character's upper case, in order. */
  function Upper(s: string): string
    decreases |s|
  {
    if s == [] then [] else UpperChar(s[0]) + Upper(s[1..])
  }

  lemma LowerIdempotent(s: string)
    ensures Lower(Lower(s)) == Lower(s)
  {
  }

  lemma {:induction false} UpperAppend(a: string, b: string)
    ensures Upper(a + b) == Upper(a) + Upper(b)
    decreases |a|
  {
    if a == [] {
      assert a + b == b;
    } else {
      assert (a + b)[1..] == a[1..] + b;
      UpperAppend(a[1..], b);
    }
  }

  /** upper() gives at least one and at most two characters per character. */
  lemma {:induction false} UpperLength(s: string)
    ensures |s| <= |Upper(s)| <= 2 * |s|
    decreases |s|
  {
    if s != [] {
      UpperLength(s[1..]);
    }
  }

  /** What upper() writes for one character, upper() leaves alone. */
  lemma UpperCharUncased(c: char)
    ensures forall i :: 0 <= i < |UpperChar(c)| ==> Uncased(UpperChar(c)[i])
  {
  }

  /** Every character upper() writes is its own upper case. */
  lemma {:induction false} UpperUncased(s: string)
    ensures forall i :: 0 <= i < |Upper(s)| ==> Uncased(Upper(s)[i])
    decreases |s|
  {
    if s != [] {
      UpperCharUncased(s[0]);
      UpperUncased(s[1..]);
    }
  }

  /** Text whose every character is its own upper case is unchanged by upper(). */
  lemma {:induction false} UpperOfUncased(s: string)
    requires forall i :: 0 <= i < |s| ==> Uncased(s[i])
    ensures Upper(s) == s
    decreases |s|
  {
    if s != [] {
      assert Uncased(s[0]);
      UpperOfUncased(s[1..]);
      assert s == [s[0]] + s[1..];
    }
  }

  lemma UpperIdempotent(s: string)
    ensures Upper(Upper(s)) == Upper(s)
  {
    UpperUncased(s);
    UpperOfUncased(Upper(s));
  }

  lemma UpperCharKeepsSpace(c: char)
    ensures forall i :: 0 <= i < |UpperChar(c)| ==> (IsSpace(UpperChar(c)[i]) <==> IsSpace(c))
  {
  }

  lemma UpperKeepsEnds(t: string)
    requires t == [] || (!IsSpace(t[0]) && !IsSpace(t[|t| - 1]))
    ensures Upper(t) == [] <==> t == []
    ensures Upper(t) == [] || (!IsSpace(Upper(t)[0]) && !IsSpace(Upper(t)[|Upper(t)| - 1]))
  {
    UpperLength(t);
    if t != [] {
      var n := |t|;
      var last := UpperChar(t[n - 1]);
      UpperCharKeepsSpace(t[0]);
      UpperCharKeepsSpace(t[n - 1]);
      assert t == t[..n - 1] + [t[n - 1]];
      UpperAppend(t[..n - 1], [t[n - 1]]);
      assert Upper([t[n - 1]]) == last + Upper([]);
      assert Upper(t)[|Upper(t)| - 1] == last[|last| - 1];
    }
  }

  /** `str(x).strip().upper()`, the SKU normalisation shared by most scripts. */
  function NormaliseSku(s: string): (r: string)
    ensures r == [] <==> IsBlank(s)
    ensures |Trim(s)| <= |r| <= 2 * |Trim(s)|
    ensures forall i :: 0 <= i < |r| ==> Uncased(r[i]) && !('a' <= r[i] <= 'z')
    ensures r == [] || (!IsSpace(r[0]) && !IsSpace(r[|r| - 1]))
  {
    TrimEnds(s);
    TrimEmptyIffBlank(s);
    UpperKeepsEnds(Trim(s));
    UpperLength(Trim(s));
    UpperUncased(Trim(s));
    Upper(Trim(s))
  }

  /** upper() may lengthen a SKU: " ß " is normalised to "SS". */
  lemma NormaliseSkuEszett()
    ensures NormaliseSku(" \U{00DF} ") == "SS"
  {
    var t := "\U{00DF}";
    var s := " " + t + " ";
    assert s[1..] == t + " " && !IsSpace(t[0]);
    assert TrimStart(s) == t + " ";
    assert (t + " ")[..1] == t;
    assert TrimEnd(t + " ") == TrimEnd(t) == t;
    assert Upper(t) == UpperChar(t[0]) + Upper([]);
  }

  lemma NormaliseSkuIdempotent(s: string)
    ensures NormaliseSku(NormaliseSku(s)) == NormaliseSku(s)
  {
    var u := NormaliseSku(s);
    TrimStartFixed(u);
    TrimEndFixed(u);
    UpperIdempotent(Trim(s));
  }

  // ---------------------------------------------------------------- search

  predicate OccursAt(s: string, pat: string, i: int)
  {
    0 <= i && i + |pat| <= |s| && s[i..i + |pat|] == pat
  }

  /** The first index at or after `from` where `pat` occurs (Python's str.find). */
  function IndexOfFrom(s: string, pat: string, from: nat): (r: Option<nat>)
    ensures r.Some? ==> from <= r.value && OccursAt(s, pat, r.value)
    ensures r.Some? ==> forall j :: from <= j < r.value ==> !OccursAt(s, pat, j)
    ensures r.None? ==> forall j :: from <= j ==> !OccursAt(s, pat, j)
    decreases |s| - from
  {
    if from + |pat| > |s| then None
    else if s[from..from + |pat|] == pat then Some(from)
    else IndexOfFrom(s, pat, from + 1)
  }

  function IndexOf(s: string, pat: string): Option<nat>
  {
    IndexOfFrom(s, pat, 0)
  }

  /** Python's `pat in s`. */
  predicate Contains(s: string, pat: string)
  {
    IndexOf(s, pat).Some?
  }

  lemma ContainsIff(s: string, pat: string)
    ensures Contains(s, pat) <==> exists i :: OccursAt(s, pat, i)
  {
  }

  predicate StartsWith(s: string, prefix: string)
  {
    |prefix| <= |s| && s[..|prefix|] == prefix
  }

  predicate EndsWith(s: string, suffix: string)
  {
    |suffix| <= |s| && s[|s| - |suffix|..] == suffix
  }

  // ---------------------------------------------------------------- rewriting

  /** Python's str.replace(pat, rep): non-overlapping occurrences, left to right. */
  function ReplaceAll(s: string, pat: string, rep: string): string
    requires pat != []
    decreases |s|
  {
    if |s| < |pat| then s
    else if s[..|pat|] == pat then rep + ReplaceAll(s[|pat|..], pat, rep)
    else [s[0]] + ReplaceAll(s[1..], pat, rep)
  }

  lemma {:induction false} ReplaceAllAbsent(s: string, pat: string, rep: string)
    requires pat != []
    requires !Contains(s, pat)
    ensures ReplaceAll(s, pat, rep) == s
    decreases |s|
  {
    if |s| >= |pat| {
      assert !OccursAt(s, pat, 0);
      assert forall j :: 0 <= j ==> !OccursAt(s[1..], pat, j) by {
        forall j | 0 <= j ensures !OccursAt(s[1..], pat, j) {
          assert !OccursAt(s, pat, j + 1);
        }
      }
      ReplaceAllAbsent(s[1..], pat, rep);
    }
  }

  /** Python's str.replace(a, b) for one-character arguments. */
  function ReplaceChar(s: string, a: char, b: char): string
  {
    seq(|s|, i requires 0 <= i < |s| => if s[i] == a then b else s[i])
  }

  /** The characters of `s` that `keep` accepts, in order (`re.sub` with a negated class). */
  function Filter(s: string, keep: char -> bool): (r: string)
    ensures |r| <= |s|
    ensures forall i :: 0 <= i < |r| ==> keep(r[i])
    decreases |s|
  {
    if s == [] then []
    else (if keep(s[0]) then [s[0]] else []) + Filter(s[1..], keep)
  }

  lemma {:induction false} FilterAppend(s: string, t: string, keep: char -> bool)
    ensures Filter(s + t, keep) == Filter(s, keep) + Filter(t, keep)
    decreases |s|
  {
    if s != [] {
      assert (s + t)[1..] == s[1..] + t;
      FilterAppend(s[1..], t, keep);
    } else {
      assert s + t == t;
    }
  }

  lemma {:induction false} FilterKeepsAll(s: string, keep: char -> bool)
    requires forall i :: 0 <= i < |s| ==> keep(s[i])
    ensures Filter(s, keep) == s
    decreases |s|
  {
    if s != [] {
      FilterKeepsAll(s[1..], keep);
    }
  }

  /** Filtering twice with the same predicate changes nothing. */
  lemma FilterIdempotent(s: string, keep: char -> bool)
    ensures Filter(Filter(s, keep), keep) == Filter(s, keep)
  {
    FilterKeepsAll(Filter(s, keep), keep);
  }

  /** Python's str.replace(c, ""). */
  function RemoveChar(s: string, c: char): (r: string)
    ensures |r| <= |s| && c !in r
    decreases |s|
  {
    if s == [] then [] else (if s[0] == c then [] else [s[0]]) + RemoveChar(s[1..], c)
  }

  lemma {:induction false} RemoveCharAppend(s: string, t: string, c: char)
    ensures RemoveChar(s + t, c) == RemoveChar(s, c) + RemoveChar(t, c)
    decreases |s|
  {
    if s != [] {
      assert (s + t)[1..] == s[1..] + t;
      RemoveCharAppend(s[1..], t, c);
    } else {
      assert s + t == t;
    }
  }

  /** Removing a character that does not occur changes nothing. */
  lemma {:induction false} RemoveCharAbsent(s: string, c: char)
    requires c !in s
    ensures RemoveChar(s, c) == s
    decreases |s|
  {
    if s != [] {
      RemoveCharAbsent(s[1..], c);
    }
  }

  /** str.replace with a one-character pattern and an empty replacement is character removal. */
  lemma {:induction false} ReplaceAllSingleIsRemove(s: string, c: char)
    ensures ReplaceAll(s, [c], "") == RemoveChar(s, c)
    decreases |s|
  {
    if s != [] {
      ReplaceAllSingleIsRemove(s[1..], c);
    }
  }

  function Count(s: string, c: char): nat
    decreases |s|
  {
    if s == [] then 0 else (if s[0] == c then 1 else 0) + Count(s[1..], c)
  }

  // ---------------------------------------------------------------- split / join

  /** Python's s.split(sep) for a one-character separator. */
  function Split(s: string, sep: char): (parts: seq<string>)
    ensures |parts| == Count(s, sep) + 1
    ensures forall i :: 0 <= i < |parts| ==> sep !in parts[i]
    decreases |s|
  {
    if s == [] then [[]]
    else
      var rest := Split(s[1..], sep);
      if s[0] == sep then [[]] + rest else [[s[0]] + rest[0]] + rest[1..]
  }

  /** Python's sep.join(parts). */
  function Join(parts: seq<string>, sep: string): string
    decreases |parts|
  {
    if parts == [] then []
    else if |parts| == 1 then parts[0]
    else parts[0] + sep + Join(parts[1..], sep)
  }

  /** Python's "".join(parts). */
  function Concat(parts: seq<string>): string
    decreases |parts|
  {
    if parts == [] then [] else parts[0] + Concat(parts[1..])
  }

  /** Splitting and joining with the same separator gives the original string back. */
  lemma {:induction false} JoinSplit(s: string, sep: char)
    ensures Join(Split(s, sep), [sep]) == s
    decreases |s|
  {
    if s != [] {
      JoinSplit(s[1..], sep);
      var rest := Split(s[1..], sep);
      if s[0] == sep {
        assert Split(s, sep) == [[]] + rest;
      } else {
        var parts := [[s[0]] + rest[0]] + rest[1..];
        assert Split(s, sep) == parts;
        if |rest| == 1 {
          assert Join(parts, [sep]) == [s[0]] + rest[0];
        } else {
          assert parts[1..] == rest[1..];
          assert Join(parts, [sep]) == [s[0]] + rest[0] + [sep] + Join(rest[1..], [sep]);
          assert Join(rest, [sep]) == rest[0] + [sep] + Join(rest[1..], [sep]);
        }
      }
    }
  }

  lemma {:induction false} ConcatAppend(a: seq<string>, b: seq<string>)
    ensures Concat(a + b) == Concat(a) + Concat(b)
    decreases |a|
  {
    if a != [] {
      assert (a + b)[1..] == a[1..] + b;
      ConcatAppend(a[1..], b);
    } else {
      assert a + b == b;
    }
  }

  /** Removing every separator is the same as concatenating the split parts. */
  lemma {:induction false} RemoveCharIsConcatSplit(s: string, sep: char)
    ensures RemoveChar(s, sep) == Concat(Split(s, sep))
    decreases |s|
  {
    if s != [] {
      RemoveCharIsConcatSplit(s[1..], sep);
      var rest := Split(s[1..], sep);
      if s[0] == sep {
        ConcatCons([], rest);
        assert RemoveChar(s, sep) == RemoveChar(s[1..], sep);
      } else {
        ConcatCons([s[0]] + rest[0], rest[1..]);
        ConcatCons(rest[0], rest[1..]);
        assert rest == [rest[0]] + rest[1..];
        assert RemoveChar(s, sep) == [s[0]] + RemoveChar(s[1..], sep);
      }
    }
  }

  lemma ConcatCons(x: string, ys: seq<string>)
    ensures Concat([x] + ys) == x + Concat(ys)
  {
    assert ([x] + ys)[1..] == ys;
  }

  lemma {:induction false} CountAppend(s: string, t: string, c: char)
    ensures Count(s + t, c) == Count(s, c) + Count(t, c)
    decreases |s|
  {
    if s != [] {
      assert (s + t)[1..] == s[1..] + t;
      CountAppend(s[1..], t, c);
    } else {
      assert s + t == t;
    }
  }

  lemma {:induction false} CountAbsent(s: string, c: char)
    requires c !in s
    ensures Count(s, c) == 0
    decreases |s|
  {
    if s != [] {
      CountAbsent(s[1..], c);
    }
  }

  lemma {:induction false} CountPresent(s: string, c: char)
    ensures Count(s, c) > 0 <==> c in s
    decreases |s|
  {
    if s != [] {
      CountPresent(s[1..], c);
      assert c in s <==> s[0] == c || c in s[1..];
    }
  }

  lemma {:induction false} ConcatNoChar(parts: seq<string>, c: char)
    requires forall i :: 0 <= i < |parts| ==> c !in parts[i]
    ensures c !in Concat(parts)
    decreases |parts|
  {
    if parts != [] {
      ConcatNoChar(parts[1..], c);
    }
  }

  // ---------------------------------------------------------------- first separator

  /** `s.split(c, 1)[0]`: the text before the first `c`, or all of `s`. */
  function Before(s: string, c: char): string
    decreases |s|
  {
    if s == [] || s[0] == c then [] else [s[0]] + Before(s[1..], c)
  }

  /** `s.split(c, 1)[1]` when `c` occurs: the text after the first `c`. */
  function After(s: string, c: char): string
    decreases |s|
  {
    if s == [] then [] else if s[0] == c then s[1..] else After(s[1..], c)
  }

  /** The first `c` cuts `s` into a part without `c` and the rest. */
  lemma {:induction false} BeforeAfter(s: string, c: char)
    requires c in s
    ensures s == Before(s, c) + [c] + After(s, c)
    ensures c !in Before(s, c)
    decreases |s|
  {
    if s[0] != c {
      BeforeAfter(s[1..], c);
      assert s == [s[0]] + s[1..];
    }
  }

  lemma {:induction false} BeforeAbsent(s: string, c: char)
    requires c !in s
    ensures Before(s, c) == s
    decreases |s|
  {
    if s != [] {
      BeforeAbsent(s[1..], c);
    }
  }

  /** The first part of a full split is the text before the first separator. */
  lemma {:induction false} SplitFirstIsBefore(s: string, c: char)
    ensures Split(s, c)[0] == Before(s, c)
    decreases |s|
  {
    if s != [] && s[0] != c {
      SplitFirstIsBefore(s[1..], c);
    }
  }

  // ---------------------------------------------------------------- slicing

  /** Python's `s[i:j]` for 0 <= i <= j: indices past the end are clamped. */
  function Slice(s: string, i: nat, j: nat): (r: string)
    requires i <= j
    ensures |r| == (if j <= |s| then j else |s|) - (if i <= |s| then i else |s|)
    ensures forall k :: 0 <= k < |r| ==> r[k] == s[i + k]
  {
    var hi := if j <= |s| then j else |s|;
    var lo := if i <= |s| then i else |s|;
    s[lo..hi]
  }
}
