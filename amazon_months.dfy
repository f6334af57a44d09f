/**
 * scripts_agora_vai/amz.py: the Amazon table carries no dates, so its rows
 * are cut, in order, into three runs in the proportion 4 : 12 : 9 (the months
 * of September 2023 to September 2025 each year covers), each run is given
 * its year and its months in rotation, the amounts are cleaned, and the rows
 * are grouped by SKU, description, year and month.
 */
module AmazonMonths {
  import opened Wrappers
  import opened Strings
  import opened Numbers
  import opened Normalisers
  import opened Frames
  import opened GroupBy

  // ---------------------------------------------------------------- vendas

  /**
   * `astype(str).str.replace('.', '').str.replace(',', '.').astype(float).astype(int)`
   * on one cell: every '.' is taken for a thousands separator. A cell float()
   * refuses, NaN included, stops the script.
   */
  function UnitsOf(cell: Option<string>): (r: Result<int>)
    ensures r.Success? ==> exists v :: ParseFloat(ReplaceChar(RemoveChar(cell.GetOr("nan"), '.'), ',', '.')) == Some(v) && r.value == Truncate(v)
  {
    match ParseFloat(ReplaceChar(RemoveChar(cell.GetOr("nan"), '.'), ',', '.'))
    case None => Failure("ValueError: could not convert vendas to float")
    case Some(v) => Success(Truncate(v))
  }

  /**
   * Every '.' is taken for a thousands separator: a count written with digits
   * and dots reads as the whole number its digits spell.
   */
  lemma UnitsOfDotted(s: string)
    requires forall i :: 0 <= i < |s| ==> IsDigit(s[i]) || s[i] == '.'
    requires RemoveChar(s, '.') != []
    ensures AllDigits(RemoveChar(s, '.'))
    ensures UnitsOf(Some(s)) == Success(DigitsValue(RemoveChar(s, '.')))
  {
    var t := RemoveChar(s, '.');
    forall i | 0 <= i < |t| ensures IsDigit(t[i]) {
      RemoveCharSubset(s, '.', t[i]);
    }
    AllDigitsNoChar(t, ',');
    ReplaceCharAbsent(t, ',', '.');
    ParseFloatOfDigitText(t);
  }

  /** "1.234" reads as 1234. */
  lemma UnitsOfThousands()
    ensures UnitsOf(Some("1.234")) == Success(1234)
  {
    var s := "1.234";
    assert IsDigit(s[0]) && s[1] == '.' && IsDigit(s[2]) && IsDigit(s[3]) && IsDigit(s[4]);
    DotRemoved();
    UnitsOfDotted(s);
    DigitsOfThousands();
  }

  lemma DotRemoved()
    ensures RemoveChar("1.234", '.') == "1234"
  {
    var s := "1.234";
    assert s[0] == '1' && s[1..] == ".234";
    LeadingDotRemoved();
  }

  lemma LeadingDotRemoved()
    ensures RemoveChar(".234", '.') == "234"
  {
    var t := ".234";
    assert t[0] == '.' && t[1..] == "234";
    RemoveCharAbsent("234", '.');
  }

  lemma DigitsOfThousands()
    ensures AllDigits("1234") && DigitsValue("1234") == 1234
  {
    assert "1234"[..3] == "123" && "123"[..2] == "12" && "12"[..1] == "1";
    assert DigitsValue("1") == 1;
    assert DigitsValue("12") == 12;
    assert DigitsValue("123") == 123;
  }

  // ---------------------------------------------------------------- the three runs

  /** The months each year covers: September to December 2023, all of 2024, January to September 2025. */
  const Parts: seq<nat> := [4, 12, 9]

  /** tamanhos: the floor of each part's share of `n`, the last one taking what the first two leave. */
  function Sizes(n: nat): seq<int>
  {
    var first := n * Parts[0] / 25;
    var second := n * Parts[1] / 25;
    [first, second, n - (first + second)]
  }

  /** The three sizes are never negative, add up to the number of rows, and the first two are their floors. */
  lemma SizesPartition(n: nat)
    ensures |Sizes(n)| == 3
    ensures forall k :: 0 <= k < 3 ==> Sizes(n)[k] >= 0
    ensures Sizes(n)[0] + Sizes(n)[1] + Sizes(n)[2] == n
    ensures Sizes(n)[0] * 25 <= 4 * n < (Sizes(n)[0] + 1) * 25
    ensures Sizes(n)[1] * 25 <= 12 * n < (Sizes(n)[1] + 1) * 25
    ensures Sizes(n)[2] * 25 >= 9 * n
  {
    var a, b := n * 4 / 25, n * 12 / 25;
    assert a * 25 <= n * 4 && b * 25 <= n * 12;
  }

  /** The list comprehension and the in-place adjustment of its last element. */
  method ComputeSizes(n: nat) returns (t: array<int>)
    ensures fresh(t) && t[..] == Sizes(n)
  {
    t := new int[3];
    for k := 0 to 3
      invariant forall j :: 0 <= j < k ==> t[j] == n * Parts[j] / 25
    {
      t[k] := n * Parts[k] / 25;
    }
    t[2] := n - (t[0] + t[1]);
  }

  /** df.iloc of the three runs. */
  function Runs<T>(rows: seq<T>): (r: (seq<T>, seq<T>, seq<T>))
    ensures r.0 + r.1 + r.2 == rows
    ensures |r.0| == Sizes(|rows|)[0] && |r.1| == Sizes(|rows|)[1] && |r.2| == Sizes(|rows|)[2]
  {
    SizesPartition(|rows|);
    var s := Sizes(|rows|);
    var a, b := s[0], s[0] + s[1];
    assert rows[..a] + rows[a..b] + rows[b..] == rows;
    (rows[..a], rows[a..b], rows[b..])
  }

  // ---------------------------------------------------------------- atribuir_mes_ano

  /** `xs * k`: the list repeated `k` times. */
  function Repeat(xs: seq<int>, k: nat): (r: seq<int>)
    ensures |r| == k * |xs|
  {
    if k == 0 then [] else xs + Repeat(xs, k - 1)
  }

  /** meses_repetidos: the months repeated ceil(n / len(meses)) times, cut to `n`. */
  function Rotation(meses: seq<int>, n: nat): seq<int>
    requires meses != []
  {
    var reps := (n + |meses| - 1) / |meses|;
    RepeatLength(|meses|, n);
    Repeat(meses, reps)[..n]
  }

  lemma RepeatLength(m: nat, n: nat)
    requires m > 0
    ensures ((n + m - 1) / m) * m >= n
  {
    var q := (n + m - 1) / m;
    assert n + m - 1 < (q + 1) * m;
  }

  /** Stepping back by one whole period keeps the remainder. */
  lemma ModStep(i: nat, m: nat)
    requires 0 < m <= i
    ensures (i - m) % m == i % m
  {
    var q, r := i / m, i % m;
    assert i == q * m + r;
    assert i - m == (q - 1) * m + r;
    RemainderUnique(i - m, m, q - 1, r);
  }

  /** A quotient and a remainder in [0, m) are the only ones. */
  lemma RemainderUnique(n: int, m: int, q: int, r: int)
    requires m > 0 && 0 <= r < m && n == q * m + r
    ensures n % m == r
  {
    var q', r' := n / m, n % m;
    assert (q - q') * m == r' - r;
    if q > q' {
      MulAtLeast(q - q', m);
    } else if q < q' {
      MulAtLeast(q' - q, m);
    }
  }

  lemma {:induction false} MulAtLeast(k: int, m: int)
    requires k >= 1 && m > 0
    ensures k * m >= m
    decreases k
  {
    if k > 1 {
      MulAtLeast(k - 1, m);
      assert k * m == (k - 1) * m + m;
    }
  }

  /** Each element of a repetition is the element at its index modulo the length. */
  lemma {:induction false} RepeatAt(xs: seq<int>, k: nat, i: nat)
    requires xs != [] && i < |Repeat(xs, k)|
    ensures Repeat(xs, k)[i] == xs[i % |xs|]
    decreases k
  {
    if i >= |xs| {
      RepeatAt(xs, k - 1, i - |xs|);
      ModStep(i, |xs|);
    }
  }

  /** Row `i` of a run gets the months in rotation: month number i mod len(meses) of the list. */
  lemma RotationAt(meses: seq<int>, n: nat, i: nat)
    requires meses != [] && i < n
    ensures |Rotation(meses, n)| == n
    ensures Rotation(meses, n)[i] == meses[i % |meses|]
  {
    var reps := (n + |meses| - 1) / |meses|;
    RepeatLength(|meses|, n);
    RepeatAt(meses, reps, i);
  }

  function Range(lo: int, hi: int): (r: seq<int>)
    requires lo <= hi
    ensures |r| == hi - lo && forall k :: 0 <= k < |r| ==> r[k] == lo + k
    decreases hi - lo
  {
    if lo == hi then [] else [lo] + Range(lo + 1, hi)
  }

  /** The year and the month row `i` of the concatenated table receives. */
  function YearMonthOf(n: nat, i: nat): (r: (int, int))
    requires i < n
  {
    var s := Sizes(n);
    SizesPartition(n);
    if i < s[0] then (2023, Rotation(Range(9, 13), s[0])[i])
    else if i < s[0] + s[1] then (2024, Rotation(Range(1, 13), s[1])[i - s[0]])
    else (2025, Rotation(Range(1, 10), s[2])[i - s[0] - s[1]])
  }

  /** 2023 rows fall in September to December, 2024 rows in any month, 2025 rows in January to September. */
  lemma YearMonthRanges(n: nat, i: nat)
    requires i < n
    ensures YearMonthOf(n, i).0 == 2023 ==> 9 <= YearMonthOf(n, i).1 <= 12
    ensures YearMonthOf(n, i).0 == 2024 ==> 1 <= YearMonthOf(n, i).1 <= 12
    ensures YearMonthOf(n, i).0 == 2025 ==> 1 <= YearMonthOf(n, i).1 <= 9
    ensures 2023 <= YearMonthOf(n, i).0 <= 2025
  {
    var s := Sizes(n);
    SizesPartition(n);
    if i < s[0] {
      RotationAt(Range(9, 13), s[0], i);
    } else if i < s[0] + s[1] {
      RotationAt(Range(1, 13), s[1], i - s[0]);
    } else {
      RotationAt(Range(1, 10), s[2], i - s[0] - s[1]);
    }
  }

  /** Within a run the months cycle: two rows a full cycle apart get the same month. */
  lemma RotationPeriodic(meses: seq<int>, n: nat, i: nat)
    requires meses != [] && i + |meses| < n
    ensures Rotation(meses, n)[i + |meses|] == Rotation(meses, n)[i]
  {
    RotationAt(meses, n, i);
    RotationAt(meses, n, i + |meses|);
    ModStep(i + |meses|, |meses|);
  }

  // ---------------------------------------------------------------- grouping

  datatype AmzKey = AmzKey(sku: string, descricao: string, ano: int, mes: int)

  /** The grouping key of row `i`: its SKU, description, year and month; rows missing SKU or description have none. */
  function KeyOf(s: Sheet, i: nat): Option<AmzKey>
    requires i < |s.rows|
  {
    var row := s.rows[i];
    var ym := YearMonthOf(|s.rows|, i);
    var sku, desc := CellOf(s.header, row, "sku"), CellOf(s.header, row, "descricao");
    if sku.Some? && desc.Some? then Some(AmzKey(sku.value, desc.value, ym.0, ym.1)) else None
  }

  /** The cleaned valor_total of row `i`. */
  function ValueOf(s: Sheet, i: nat): real
    requires i < |s.rows|
  {
    UnsignedAmountOrZero(CellOf(s.header, s.rows[i], "valor_total"))
  }

  /** The vendas count of row `i`, or the error that stops the script. */
  function UnitsAt(s: Sheet, i: nat): Result<int>
    requires i < |s.rows|
  {
    UnitsOf(CellOf(s.header, s.rows[i], "vendas"))
  }

  /** The test under which a row's vendas cell stops the script. */
  function VendasFails(header: seq<string>): seq<Option<string>> -> bool
  {
    row => UnitsOf(CellOf(header, row, "vendas")).Failure?
  }

  /** Row `i` as the grouping sees it, once its count has been read. */
  function EntryAt(s: Sheet, i: nat): Entry<AmzKey>
    requires i < |s.rows| && UnitsAt(s, i).Success?
  {
    Entry(KeyOf(s, i), UnitsAt(s, i).value as real, ValueOf(s, i))
  }

  /**
   * The rows as the grouping sees them, or the error of the first row whose
   * vendas cell float() refuses.
   */
  function Entries(s: Sheet): (r: Result<seq<Entry<AmzKey>>>)
    ensures r.Success? <==> forall i :: 0 <= i < |s.rows| ==> UnitsAt(s, i).Success?
    ensures r.Success? ==> |r.value| == |s.rows| && forall i :: 0 <= i < |s.rows| ==> r.value[i] == EntryAt(s, i)
    ensures r.Failure? ==> exists i :: 0 <= i < |s.rows| && UnitsAt(s, i) == Failure(r.error)
  {
    match FirstIndex(s.rows, VendasFails(s.header))
    case Some(i) => Failure(UnitsAt(s, i).error)
    case None =>
      assert forall i :: 0 <= i < |s.rows| ==> !VendasFails(s.header)(s.rows[i]);
      Success(seq(|s.rows|, i requires 0 <= i < |s.rows| => EntryAt(s, i)))
  }

  /** The whole script: the grouped table, or the error that stops it (a missing column or an unreadable count). */
  function Process(s: Sheet): (r: Result<map<AmzKey, Sums>>)
    ensures r.Success? ==> forall k :: k in r.value ==> InPeriod(k)
    ensures r.Success? ==> forall k :: k in r.value ==> r.value[k].b >= 0.0
  {
    if "vendas" !in s.header then Failure("KeyError: vendas")
    else
      match Entries(s)
      case Failure(e) => Failure(e)
      case Success(es) =>
        if "valor_total" !in s.header || "sku" !in s.header || "descricao" !in s.header then
          Failure("KeyError: a grouping or summed column is missing")
        else
          EntriesGroups(s, es);
          Success(Aggregate(es))
  }

  /** September 2023 to September 2025. */
  predicate InPeriod(k: AmzKey)
  {
    2023 <= k.ano <= 2025 && 1 <= k.mes <= 12 && (k.ano == 2023 ==> 9 <= k.mes) && (k.ano == 2025 ==> k.mes <= 9)
  }

  /** A row's key, when it has one, lies in the period. */
  lemma KeyInPeriod(s: Sheet, i: nat)
    requires i < |s.rows| && KeyOf(s, i).Some?
    ensures InPeriod(KeyOf(s, i).value)
  {
    YearMonthRanges(|s.rows|, i);
  }

  /** Every group of the entries falls in the period and has a non-negative value. */
  lemma EntriesGroups(s: Sheet, es: seq<Entry<AmzKey>>)
    requires Entries(s) == Success(es)
    ensures forall k :: k in Aggregate(es) ==> InPeriod(k) && Aggregate(es)[k].b >= 0.0
  {
    AggregateIsGroupSum(es);
    forall i | 0 <= i < |es| ensures es[i].b >= 0.0 {
      assert es[i].b == ValueOf(s, i);
    }
    forall k | k in Aggregate(es)
      ensures InPeriod(k) && Aggregate(es)[k].b >= 0.0
    {
      var i :| 0 <= i < |es| && es[i].key == Some(k);
      assert es[i].key == KeyOf(s, i);
      KeyInPeriod(s, i);
      GroupSecondNonNegative(es, k);
    }
  }
}
