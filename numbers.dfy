/**
 * Reading and writing numbers as the scripts' Python does: int(), float(),
 * str(int), f"{n:02d}", int(x) truncation and round(x, 2).
 * Amounts are exact reals; binary floating point is not modelled.
 */
module Numbers {
  import opened Wrappers
  import opened Strings

  function DigitValue(c: char): nat
    requires IsDigit(c)
  {
    (c as int) - ('0' as int)
  }

  function DigitChar(d: nat): (c: char)
    requires d < 10
    ensures IsDigit(c) && DigitValue(c) == d
  {
    ('0' as int + d) as char
  }

  predicate AllDigits(s: string)
  {
    forall i :: 0 <= i < |s| ==> IsDigit(s[i])
  }

  /** The value of a decimal digit string, most significant digit first. */
  function DigitsValue(s: string): nat
    requires AllDigits(s)
    decreases |s|
  {
    if s == [] then 0 else DigitsValue(s[..|s| - 1]) * 10 + DigitValue(s[|s| - 1])
  }

  function Pow10(n: nat): (r: nat)
    ensures r >= 1
  {
    if n == 0 then 1 else 10 * Pow10(n - 1)
  }

  // ---------------------------------------------------------------- writing

  /** Python's str(n) for a natural number. */
  function NatToString(n: nat): (s: string)
    ensures |s| >= 1 && AllDigits(s)
    ensures s[0] == '0' ==> n == 0
    decreases n
  {
    if n < 10 then [DigitChar(n)] else NatToString(n / 10) + [DigitChar(n % 10)]
  }

  /** Python's str(i) for any integer. */
  function IntToString(i: int): string
  {
    if i < 0 then "-" + NatToString(-i) else NatToString(i)
  }

  /** Python's f"{i:02d}": at least two characters, zero-padded after any sign. */
  function ZeroPad2(i: int): (s: string)
    ensures 0 <= i < 10 ==> s == ['0', DigitChar(i)]
    ensures |s| >= 2
  {
    if 0 <= i < 10 then "0" + NatToString(i)
    else if -10 < i < 0 then "-" + NatToString(-i)
    else IntToString(i)
  }

  lemma {:induction false} DigitsValueSnoc(s: string, c: char)
    requires AllDigits(s) && IsDigit(c)
    ensures AllDigits(s + [c]) && DigitsValue(s + [c]) == DigitsValue(s) * 10 + DigitValue(c)
  {
    assert (s + [c])[..|s + [c]| - 1] == s;
  }

  /** Writing a natural number and reading it back gives the number. */
  lemma {:induction false} NatToStringRoundTrip(n: nat)
    ensures DigitsValue(NatToString(n)) == n
    decreases n
  {
    if n >= 10 {
      NatToStringRoundTrip(n / 10);
      DigitsValueSnoc(NatToString(n / 10), DigitChar(n % 10));
    } else {
      assert NatToString(n)[..0] == [];
    }
  }

  // ---------------------------------------------------------------- reading

  /** An optional leading sign: whether it was '-', and the rest of the text. */
  function SplitSign(t: string): (bool, string)
  {
    if t != [] && (t[0] == '-' || t[0] == '+') then (t[0] == '-', t[1..]) else (false, t)
  }

  /** Digits, a '.' and digits again, at least one digit in all: the unsigned part float() accepts. */
  function ParseUnsignedDecimal(body: string): (r: Option<real>)
    ensures r.Some? ==> r.value >= 0.0
  {
    var parts := Split(body, '.');
    if |parts| > 2 then None
    else
      var ip := parts[0];
      var fp := if |parts| == 2 then parts[1] else "";
      if !AllDigits(ip) || !AllDigits(fp) || |ip| + |fp| == 0 then None
      else
        var whole, frac := DigitsValue(ip) as real, DigitsValue(fp) as real / Pow10(|fp|) as real;
        assert whole >= 0.0 && frac >= 0.0;
        Some(whole + frac)
  }

  /**
   * The digits int() accepts after the sign: at least one digit, and single
   * '_' separators between digits ("1_000"); "_1", "1_" and "1__0" are refused.
   */
  predicate UnderscoredDigits(body: string)
  {
    body != [] &&
    forall i :: 0 <= i < |body| ==>
      IsDigit(body[i]) || (body[i] == '_' && 0 < i < |body| - 1 && IsDigit(body[i - 1]) && IsDigit(body[i + 1]))
  }

  /** Python's int(x) for text: surrounding whitespace, an optional sign, then digits with optional '_' separators. */
  function ParseInt(s: string): (r: Option<int>)
  {
    var signed := SplitSign(Trim(s));
    var body := signed.1;
    if !UnderscoredDigits(body) then None
    else
      var digits := Filter(body, IsDigit);
      Some(if signed.0 then -(DigitsValue(digits) as int) else DigitsValue(digits) as int)
  }

  /**
   * Python's float(x) for text made of digits, one optional '.', an optional
   * sign and surrounding whitespace: "12", "12.5", "12.", ".5"; "3,0" is refused.
   */
  function ParseFloat(s: string): (r: Option<real>)
  {
    var signed := SplitSign(Trim(s));
    match ParseUnsignedDecimal(signed.1)
    case None => None
    case Some(m) => Some(if signed.0 then -m else m)
  }

  /** Whatever strip() keeps was already in the text. */
  lemma TrimKeepsChar(s: string, c: char)
    requires c in Trim(s)
    ensures c in s
  {
    var k, n := TrimShape(s);
    var i :| 0 <= i < n && Trim(s)[i] == c;
    assert s[k + i] == c;
  }

  /** Text with no '-' never reads as a negative number. */
  lemma ParseFloatUnsigned(s: string)
    requires '-' !in s
    requires ParseFloat(s).Some?
    ensures ParseFloat(s).value >= 0.0
  {
    var t := Trim(s);
    if t != [] && t[0] == '-' {
      TrimKeepsChar(s, '-');
    }
  }

  lemma TrimUntouched(s: string)
    requires s != [] && !IsSpace(s[0]) && !IsSpace(s[|s| - 1])
    ensures Trim(s) == s
  {
    TrimStartFixed(s);
    TrimEndFixed(s);
  }

  /** Python's int(x) applied to a float: truncation toward zero. */
  function Truncate(x: real): (t: int)
    ensures x >= 0.0 ==> 0 <= t && t as real <= x < t as real + 1.0
    ensures x < 0.0 ==> t <= 0 && t as real - 1.0 < x <= t as real
  {
    if x >= 0.0 then x.Floor else -((-x).Floor)
  }

  /** Python's round(x, 2), in hundredths, with ties to the even neighbour. */
  function RoundCents(x: real): (c: int)
    ensures -0.5 <= x * 100.0 - c as real <= 0.5
    ensures (x * 100.0 - c as real == 0.5 || x * 100.0 - c as real == -0.5) ==> c % 2 == 0
  {
    var y := x * 100.0;
    var f := y.Floor;
    var d := y - f as real;
    if d < 0.5 then f else if d > 0.5 then f + 1 else if f % 2 == 0 then f else f + 1
  }

  // ---------------------------------------------------------------- round trips

  lemma {:induction false} SplitNoSep(a: string, sep: char)
    requires sep !in a
    ensures Split(a, sep) == [a]
    decreases |a|
  {
    if a != [] {
      assert a[0] != sep;
      SplitNoSep(a[1..], sep);
      assert [a[0]] + a[1..] == a;
    }
  }

  lemma {:induction false} SplitAtSep(a: string, b: string, sep: char)
    requires sep !in a
    ensures Split(a + [sep] + b, sep) == [a] + Split(b, sep)
    decreases |a|
  {
    var s := a + [sep] + b;
    if a == [] {
      assert s == [sep] + b;
      assert s[1..] == b;
    } else {
      assert s[0] == a[0] != sep;
      assert s[1..] == a[1..] + [sep] + b;
      SplitAtSep(a[1..], b, sep);
      assert [a[0]] + a[1..] == a;
    }
  }

  /** Two digits for 0..99, as f"{n:02d}" writes them. */
  function TwoDigits(n: nat): (s: string)
    requires n < 100
    ensures |s| == 2 && AllDigits(s) && DigitsValue(s) == n
  {
    var hi := [DigitChar(n / 10)];
    var s := hi + [DigitChar(n % 10)];
    assert hi[..0] == [];
    assert DigitsValue(hi) == n / 10;
    DigitsValueSnoc(hi, DigitChar(n % 10));
    s
  }

  /** A non-negative amount in hundredths written as "units.cc". */
  function FormatUnsignedCents(m: nat): (s: string)
    ensures s != [] && IsDigit(s[0]) && IsDigit(s[|s| - 1])
  {
    var ip, fp := NatToString(m / 100), TwoDigits(m % 100);
    var s := ip + "." + fp;
    assert s[0] == ip[0] && s[|s| - 1] == fp[1];
    s
  }

  lemma AllDigitsNoChar(s: string, c: char)
    requires AllDigits(s) && !IsDigit(c)
    ensures c !in s
  {
  }

  /** Text that starts and ends with a digit is left alone by strip() and has no sign. */
  lemma DigitTextSplits(body: string)
    requires body != [] && IsDigit(body[0]) && IsDigit(body[|body| - 1])
    ensures Trim(body) == body && SplitSign(body) == (false, body)
  {
    TrimUntouched(body);
  }

  /** The same text behind a '-' is read as negative. */
  lemma NegDigitTextSplits(body: string)
    requires body != [] && IsDigit(body[0]) && IsDigit(body[|body| - 1])
    ensures Trim("-" + body) == "-" + body && SplitSign("-" + body) == (true, body)
  {
    var s := "-" + body;
    assert s[|s| - 1] == body[|body| - 1];
    TrimUntouched(s);
    assert s[1..] == body;
  }

  lemma UnsignedCents(m: nat)
    ensures ParseUnsignedDecimal(FormatUnsignedCents(m)) == Some(m as real / 100.0)
  {
    var q, r := m / 100, m % 100;
    var ip := NatToString(q);
    var fp := TwoDigits(r);
    assert FormatUnsignedCents(m) == ip + ['.'] + fp;
    AllDigitsNoChar(ip, '.');
    AllDigitsNoChar(fp, '.');
    SplitAtSep(ip, fp, '.');
    SplitNoSep(fp, '.');
    NatToStringRoundTrip(q);
    assert Pow10(2) == 100;
    CentsSum(m, q, r);
  }

  lemma CentsSum(m: nat, q: nat, r: nat)
    requires m == 100 * q + r
    ensures q as real + r as real / 100 as real == m as real / 100.0
  {
  }

  /** A '-' in front of an unsigned decimal only negates its value. */
  lemma ParseFloatOfDigits(body: string, v: real)
    requires body != [] && IsDigit(body[0]) && IsDigit(body[|body| - 1])
    requires ParseUnsignedDecimal(body) == Some(v)
    ensures ParseFloat(body) == Some(v)
    ensures ParseFloat("-" + body) == Some(-v)
  {
    DigitTextSplits(body);
    ParseFloatOfSigned(body, false, body, v);
    NegDigitTextSplits(body);
    ParseFloatOfSigned("-" + body, true, body, v);
  }

  /** float() reads a digit string as its value. */
  lemma ParseFloatOfDigitText(s: string)
    requires s != [] && AllDigits(s)
    ensures ParseFloat(s) == Some(DigitsValue(s) as real)
  {
    AllDigitsNoChar(s, '.');
    SplitNoSep(s, '.');
    UnsignedDecimalOfWhole(s);
    ParseFloatOfDigits(s, DigitsValue(s) as real);
  }

  lemma UnsignedDecimalOfWhole(s: string)
    requires s != [] && AllDigits(s) && Split(s, '.') == [s]
    ensures ParseUnsignedDecimal(s) == Some(DigitsValue(s) as real)
  {
    assert DigitsValue("") == 0 && Pow10(|""|) == 1;
  }

  lemma ParseFloatOfSigned(s: string, neg: bool, body: string, v: real)
    requires Trim(s) == s && SplitSign(s) == (neg, body) && ParseUnsignedDecimal(body) == Some(v)
    ensures ParseFloat(s) == Some(if neg then -v else v)
  {
  }

  /** float() reads back every non-negative amount that FormatUnsignedCents writes. */
  lemma FormatUnsignedCentsRoundTrip(m: nat)
    ensures ParseFloat(FormatUnsignedCents(m)) == Some(m as real / 100.0)
  {
    UnsignedCents(m);
    ParseFloatOfDigits(FormatUnsignedCents(m), m as real / 100.0);
  }

  lemma ParseIntOfSigned(s: string, neg: bool, body: string)
    requires Trim(s) == s && SplitSign(s) == (neg, body) && body != [] && AllDigits(body)
    ensures ParseInt(s) == Some(if neg then -(DigitsValue(body) as int) else DigitsValue(body) as int)
  {
    FilterKeepsAll(body, IsDigit);
  }

  /** int() ignores a '_' between two digit groups: int(a + "_" + b) is the value of a + b. */
  lemma ParseIntUnderscored(a: string, b: string)
    requires a != [] && b != [] && AllDigits(a) && AllDigits(b)
    ensures AllDigits(a + b) && ParseInt(a + "_" + b) == Some(DigitsValue(a + b) as int)
  {
    var s := a + "_" + b;
    assert s[0] == a[0] && s[|s| - 1] == b[|b| - 1];
    TrimUntouched(s);
    GroupsUnderscored(a, b);
    GroupsDigits(a, b);
    var body := SplitSign(Trim(s)).1;
    assert body == s;
  }

  lemma GroupsUnderscored(a: string, b: string)
    requires a != [] && b != [] && AllDigits(a) && AllDigits(b)
    ensures UnderscoredDigits(a + "_" + b)
  {
    var s := a + "_" + b;
    forall i | 0 <= i < |s|
      ensures IsDigit(s[i]) || (s[i] == '_' && 0 < i < |s| - 1 && IsDigit(s[i - 1]) && IsDigit(s[i + 1]))
    {
      if i < |a| {
        assert s[i] == a[i];
      } else if i == |a| {
        assert s[i - 1] == a[|a| - 1] && s[i + 1] == b[0];
      } else {
        assert s[i] == b[i - |a| - 1];
      }
    }
  }

  lemma GroupsDigits(a: string, b: string)
    requires AllDigits(a) && AllDigits(b)
    ensures Filter(a + "_" + b, IsDigit) == a + b
  {
    FilterAppend(a + "_", b, IsDigit);
    FilterAppend(a, "_", IsDigit);
    FilterKeepsAll(a, IsDigit);
    FilterKeepsAll(b, IsDigit);
    assert Filter("_", IsDigit) == [];
  }

  /** int() reads "1_000" as 1000. */
  lemma ParseIntUnderscores()
    ensures ParseInt("1_000") == Some(1000)
  {
    var a, b := "1", "000";
    ParseIntUnderscored(a, b);
    assert a + "_" + b == "1_000";
    ThousandDigits(a + b);
  }

  lemma ThousandDigits(d: string)
    requires d == "1000"
    ensures AllDigits(d) && DigitsValue(d) == 1000
  {
    assert d[..3] == "100" && "100"[..2] == "10" && "10"[..1] == "1" && "1"[..0] == [];
  }

  /** int() refuses a doubled separator: "1__0" is not a number. */
  lemma ParseIntDoubledUnderscore()
    ensures ParseInt("1__0") == None
  {
    var t := "1__0";
    TrimUntouched(t);
    var body := SplitSign(Trim(t)).1;
    assert body == t;
    assert t[1] == '_' && !IsDigit(t[2]);
  }

  lemma IntToStringShape(i: int)
    ensures var m: nat := if i < 0 then -i else i;
      Trim(IntToString(i)) == IntToString(i) && SplitSign(IntToString(i)) == (i < 0, NatToString(m))
  {
    if i < 0 {
      NegDigitTextSplits(NatToString(-i));
    } else {
      DigitTextSplits(NatToString(i));
    }
  }

  /** int() reads back every integer that str() writes. */
  lemma IntToStringRoundTrip(i: int)
    ensures ParseInt(IntToString(i)) == Some(i)
  {
    var m: nat := if i < 0 then -i else i;
    IntToStringShape(i);
    NatToStringRoundTrip(m);
    ParseIntOfSigned(IntToString(i), i < 0, NatToString(m));
  }

  /** A number with k digits is written with k characters. */
  lemma {:induction false} NatToStringLength(n: nat, k: nat)
    requires k >= 1 && Pow10(k - 1) <= n < Pow10(k)
    ensures |NatToString(n)| == k
    decreases k
  {
    if k > 1 {
      assert n >= 10;
      assert Pow10(k - 1) == 10 * Pow10(k - 2);
      NatToStringLength(n / 10, k - 1);
    }
  }

  /** int() reads back every integer f"{i:02d}" writes. */
  lemma ZeroPad2RoundTrip(i: int)
    ensures ParseInt(ZeroPad2(i)) == Some(i)
  {
    if 0 <= i < 10 {
      var z := "0";
      var s := ZeroPad2(i);
      var d := DigitChar(i);
      assert s == z + [d];
      assert z[..0] == [];
      assert AllDigits(z) && DigitsValue(z) == 0;
      DigitsValueSnoc(z, d);
      DigitTextSplits(s);
      ParseIntOfSigned(s, false, s);
    } else {
      assert ZeroPad2(i) == IntToString(i);
      IntToStringRoundTrip(i);
    }
  }

  /** For 1..12, f"{i:02d}" is exactly two characters. */
  lemma ZeroPad2Month(m: int)
    requires 1 <= m <= 12
    ensures |ZeroPad2(m)| == 2
  {
    if m >= 10 {
      NatToStringLength(m, 2);
    }
  }

  /** k digits hold a value below 10^k. */
  lemma {:induction false} DigitsValueBound(s: string)
    requires AllDigits(s)
    ensures DigitsValue(s) < Pow10(|s|)
    decreases |s|
  {
    if s != [] {
      DigitsValueBound(s[..|s| - 1]);
    }
  }
}
