/**
 * The strict date formats the scripts parse and print: datetime.strptime /
 * pandas.to_datetime with "%Y-%m-%d" or "%d/%m/%Y", and strftime's
 * "%Y-%m-%d %H:%M:%S". A field is read the way the strptime regular
 * expressions read it: %Y exactly four digits, %m `1[0-2]|0[1-9]|[1-9]`,
 * %d `3[01]|[12]\d|0[1-9]|[1-9]| [1-9]`; the whole text must be consumed and
 * the day must exist in that month of the proleptic Gregorian calendar.
 */
module Dates {
  import opened Wrappers
  import opened Strings
  import opened Numbers

  datatype Date = Date(year: int, month: int, day: int)

  /** A date and a time of day, as a foreign parser hands it back. */
  datatype DateTime = DateTime(date: Date, hour: int, minute: int, second: int)

  predicate IsLeap(y: int)
  {
    y % 4 == 0 && (y % 100 != 0 || y % 400 == 0)
  }

  function DaysInMonth(y: int, m: int): (n: int)
    requires 1 <= m <= 12
    ensures 28 <= n <= 31
    ensures n == 29 <==> m == 2 && IsLeap(y)
  {
    if m == 2 then (if IsLeap(y) then 29 else 28)
    else if m == 4 || m == 6 || m == 9 || m == 11 then 30
    else 31
  }

  /** What datetime accepts: years 1..9999 and a day that exists. */
  predicate ValidDate(d: Date)
  {
    1 <= d.year <= 9999 && 1 <= d.month <= 12 && 1 <= d.day <= DaysInMonth(d.year, d.month)
  }

  // ---------------------------------------------------------------- fields

  /** %Y: exactly four digits. */
  function YearField(t: string): (r: Option<int>)
    ensures r.Some? <==> |t| == 4 && AllDigits(t)
    ensures r.Some? ==> 0 <= r.value <= 9999
  {
    if |t| == 4 && AllDigits(t) then
      YearBound(t);
      Some(DigitsValue(t))
    else None
  }

  lemma YearBound(t: string)
    requires |t| == 4 && AllDigits(t)
    ensures DigitsValue(t) <= 9999
  {
    DigitsValueBound(t);
    assert Pow10(4) == 10000;
  }

  function TwoDigitValue(a: char, b: char): (v: int)
    requires IsDigit(a) && IsDigit(b)
    ensures 0 <= v <= 99
  {
    DigitValue(a) * 10 + DigitValue(b)
  }

  /** %m: `1[0-2]|0[1-9]|[1-9]`. */
  function MonthField(t: string): (r: Option<int>)
    ensures r.Some? ==> 1 <= r.value <= 12
  {
    if |t| == 1 && '1' <= t[0] <= '9' then Some(DigitValue(t[0]))
    else if |t| == 2 && ((t[0] == '0' && '1' <= t[1] <= '9') || (t[0] == '1' && '0' <= t[1] <= '2')) then
      Some(TwoDigitValue(t[0], t[1]))
    else None
  }

  /** %d: `3[01]|[12]\d|0[1-9]|[1-9]| [1-9]`. */
  function DayField(t: string): (r: Option<int>)
    ensures r.Some? ==> 1 <= r.value <= 31
  {
    if |t| == 1 && '1' <= t[0] <= '9' then Some(DigitValue(t[0]))
    else if |t| == 2 && t[0] == ' ' && '1' <= t[1] <= '9' then Some(DigitValue(t[1]))
    else if |t| == 2 && IsDigit(t[0]) && IsDigit(t[1]) &&
      ((t[0] == '0' && t[1] != '0') || t[0] == '1' || t[0] == '2' || (t[0] == '3' && t[1] <= '1')) then
      Some(TwoDigitValue(t[0], t[1]))
    else None
  }

  /** The three fields read, checked against the calendar. */
  function Checked(y: Option<int>, m: Option<int>, d: Option<int>): (r: Option<Date>)
    ensures r.Some? <==> y.Some? && m.Some? && d.Some? && 1 <= m.value <= 12 && ValidDate(Date(y.value, m.value, d.value))
    ensures r.Some? ==> r.value == Date(y.value, m.value, d.value)
  {
    if y.Some? && m.Some? && d.Some? && 1 <= m.value <= 12 && ValidDate(Date(y.value, m.value, d.value)) then
      Some(Date(y.value, m.value, d.value))
    else None
  }

  // ---------------------------------------------------------------- parsing

  /**
   * strptime(t, "%Y-%m-%d"). No field can hold '-', so the month is the text
   * up to the next '-' and the day everything after it.
   */
  function StrptimeYmd(t: string): (r: Option<Date>)
    ensures r.Some? ==> ValidDate(r.value)
    ensures r.Some? ==> |t| >= 8 && t[4] == '-' && YearField(t[..4]) == Some(r.value.year)
  {
    if |t| < 5 || t[4] != '-' then None
    else
      var rest := t[5..];
      var d := Checked(YearField(t[..4]), MonthField(Before(rest, '-')), DayField(After(rest, '-')));
      if d.Some? && '-' in rest then
        BeforeAfter(rest, '-');
        assert |rest| >= 3;
        d
      else None
  }

  /** strptime(t, "%d/%m/%Y") (pandas.to_datetime with that format). */
  function StrptimeDmy(t: string): (r: Option<Date>)
    ensures r.Some? ==> ValidDate(r.value)
  {
    if '/' in t && '/' in After(t, '/') then
      var rest := After(t, '/');
      Checked(YearField(After(rest, '/')), MonthField(Before(rest, '/')), DayField(Before(t, '/')))
    else None
  }

  // ---------------------------------------------------------------- printing

  /** strftime's %Y as glibc writes it: the year in decimal, four digits from 1000 on. */
  function YearText(y: int): string
  {
    IntToString(y)
  }

  /** strftime("%Y-%m-%d"). */
  function FormatYmd(d: Date): string
  {
    YearText(d.year) + "-" + ZeroPad2(d.month) + "-" + ZeroPad2(d.day)
  }

  /** strftime("%d/%m/%Y"). */
  function FormatDmy(d: Date): string
  {
    ZeroPad2(d.day) + "/" + ZeroPad2(d.month) + "/" + YearText(d.year)
  }

  /** strftime("%Y-%m-%d %H:%M:%S"). */
  function FormatDateTime(dt: DateTime): string
  {
    FormatYmd(dt.date) + " " + ZeroPad2(dt.hour) + ":" + ZeroPad2(dt.minute) + ":" + ZeroPad2(dt.second)
  }

  // ---------------------------------------------------------------- round trips

  lemma ZeroPad2IsTwoDigits(n: int)
    requires 0 <= n < 100
    ensures ZeroPad2(n) == [DigitChar(n / 10), DigitChar(n % 10)]
  {
    if n >= 10 {
      assert NatToString(n / 10) == [DigitChar(n / 10)];
    }
  }

  lemma MonthFieldOfPad(m: int)
    requires 1 <= m <= 12
    ensures MonthField(ZeroPad2(m)) == Some(m)
  {
    ZeroPad2IsTwoDigits(m);
  }

  lemma DayFieldOfPad(d: int)
    requires 1 <= d <= 31
    ensures DayField(ZeroPad2(d)) == Some(d)
  {
    ZeroPad2IsTwoDigits(d);
  }

  lemma YearFieldOfText(y: int)
    requires 1000 <= y <= 9999
    ensures YearField(YearText(y)) == Some(y)
  {
    assert Pow10(3) == 1000 && Pow10(4) == 10000;
    NatToStringLength(y, 4);
    NatToStringRoundTrip(y);
  }

  /** strptime reads back every date from year 1000 on that strftime writes. */
  lemma StrptimeYmdRoundTrip(d: Date)
    requires ValidDate(d) && d.year >= 1000
    ensures StrptimeYmd(FormatYmd(d)) == Some(d)
  {
    var ys, ms, ds := YearText(d.year), ZeroPad2(d.month), ZeroPad2(d.day);
    var t := FormatYmd(d);
    YearFieldOfText(d.year);
    ZeroPad2IsTwoDigits(d.month);
    ZeroPad2IsTwoDigits(d.day);
    assert t == ys + "-" + ms + "-" + ds;
    assert t[..4] == ys && t[4] == '-';
    var rest := t[5..];
    assert rest == ms + ['-'] + ds;
    BeforeAfterAt(ms, ds, '-');
    YearFieldOfText(d.year);
    MonthFieldOfPad(d.month);
    DayFieldOfPad(d.day);
  }

  /** strptime("%d/%m/%Y") reads back every date from year 1000 on that strftime("%d/%m/%Y") writes. */
  lemma StrptimeDmyRoundTrip(d: Date)
    requires ValidDate(d) && d.year >= 1000
    ensures StrptimeDmy(FormatDmy(d)) == Some(d)
  {
    var ds, ms, ys := ZeroPad2(d.day), ZeroPad2(d.month), YearText(d.year);
    var t := FormatDmy(d);
    ZeroPad2IsTwoDigits(d.month);
    ZeroPad2IsTwoDigits(d.day);
    assert t == ds + ['/'] + (ms + ['/'] + ys);
    BeforeAfterAt(ds, ms + ['/'] + ys, '/');
    BeforeAfterAt(ms, ys, '/');
    YearFieldOfText(d.year);
    MonthFieldOfPad(d.month);
    DayFieldOfPad(d.day);
  }

  /** Cutting `a + [c] + b` at the first `c`, when `a` holds none. */
  lemma {:induction false} BeforeAfterAt(a: string, b: string, c: char)
    requires c !in a
    ensures Before(a + [c] + b, c) == a && After(a + [c] + b, c) == b
    decreases |a|
  {
    var s := a + [c] + b;
    if a == [] {
      assert s[0] == c && s[1..] == b;
    } else {
      assert s[0] == a[0] != c;
      assert s[1..] == a[1..] + [c] + b;
      BeforeAfterAt(a[1..], b, c);
      assert [a[0]] + a[1..] == a;
    }
  }
}
