/**
 * scripts_agora_vai/blz.py: the Beleza na Web table. Its headers are trimmed
 * and lower-cased, and each role (SKU, description, date, units, value) is the
 * first column whose name contains one of the role's markers. The script then
 * overwrites columns in place: the date column becomes Timestamps, ano and mes
 * are read from it, the units column becomes ints and the value column floats,
 * both through limpar_valor. The rows are grouped by SKU, description, year and
 * month. When one column serves two roles, a later step reads what an earlier
 * step wrote there.
 */
module BelezaNaWeb {
  import opened Wrappers
  import opened Strings
  import opened Numbers
  import opened Normalisers
  import opened Frames
  import opened Dates
  import opened GroupBy

  /** The markers of each role, in the order the script detects them. */
  const SkuMarkers: seq<string> := ["sku"]
  const DescMarkers: seq<string> := ["desc", "produto", "nome"]
  const DateMarkers: seq<string> := ["data"]
  const UnitsMarkers: seq<string> := ["venda"]
  const ValueMarkers: seq<string> := ["valor"]

  /** The column index of each role. */
  datatype Roles = Roles(sku: nat, desc: nat, date: nat, units: nat, value: nat)

  /** The five `next(...)` detections and the ValueError raised when one of them finds nothing. */
  function DetectRoles(header: seq<string>): (r: Result<Roles>)
    ensures r.Success? ==>
      (FirstPassing(header, ContainsAny(SkuMarkers), r.value.sku) && FirstPassing(header, ContainsAny(DescMarkers), r.value.desc) &&
       FirstPassing(header, ContainsAny(DateMarkers), r.value.date) && FirstPassing(header, ContainsAny(UnitsMarkers), r.value.units) &&
       FirstPassing(header, ContainsAny(ValueMarkers), r.value.value))
    ensures r.Failure? ==>
      (NonePass(header, ContainsAny(SkuMarkers)) || NonePass(header, ContainsAny(DescMarkers)) || NonePass(header, ContainsAny(DateMarkers)) ||
       NonePass(header, ContainsAny(UnitsMarkers)) || NonePass(header, ContainsAny(ValueMarkers)))
  {
    var sku := FirstIndex(header, ContainsAny(SkuMarkers));
    var desc := FirstIndex(header, ContainsAny(DescMarkers));
    var date := FirstIndex(header, ContainsAny(DateMarkers));
    var units := FirstIndex(header, ContainsAny(UnitsMarkers));
    var value := FirstIndex(header, ContainsAny(ValueMarkers));
    if sku.None? || desc.None? || date.None? || units.None? || value.None? then
      Failure("ValueError: could not identify the columns")
    else
      Success(Roles(sku.value, desc.value, date.value, units.value, value.value))
  }

  // ---------------------------------------------------------------- cells

  /** A cell as the steps leave it: NaN or NaT, text as read, a Timestamp, an int or a float. */
  datatype Value = Missing | Text(t: string) | Stamp(d: Date) | Whole(n: int) | Real(x: real)

  function ReadCell(cell: Option<string>): Value
  {
    match cell
    case None => Missing
    case Some(t) => Text(t)
  }

  function ReadRow(row: seq<Option<string>>): (r: seq<Value>)
    ensures |r| == |row| && forall j :: 0 <= j < |row| ==> r[j] == ReadCell(row[j])
  {
    seq(|row|, j requires 0 <= j < |row| => ReadCell(row[j]))
  }

  /**
   * `pd.to_datetime(format='%d/%m/%Y', errors='coerce')` on a cell as read
   * (the only cells it is given): a Timestamp for a dd/mm/yyyy day, NaT otherwise.
   */
  function ToDate(v: Value): (r: Value)
    ensures r.Missing? || r.Stamp?
    ensures r.Stamp? <==> v.Text? && StrptimeDmy(v.t).Some?
    ensures r.Stamp? ==> StrptimeDmy(v.t) == Some(r.d)
  {
    if v.Text? && StrptimeDmy(v.t).Some? then Stamp(StrptimeDmy(v.t).value) else Missing
  }

  /** `str()` of a midnight Timestamp: "YYYY-MM-DD 00:00:00". */
  function StampText(d: Date): string
  {
    IntToString(d.year) + "-" + ZeroPad2(d.month) + "-" + ZeroPad2(d.day) + " 00:00:00"
  }

  /**
   * limpar_valor on a cell: NaN and NaT read 0.0; text, a Timestamp and an
   * int go through `str()` and the unsigned cleaner. No step of the script
   * cleans a float, which keeps its value here.
   */
  function Limpar(v: Value): (r: real)
    ensures !v.Real? ==> r >= 0.0
  {
    match v
    case Missing => 0.0
    case Text(t) => UnsignedAmountOrZero(Some(t))
    case Stamp(d) => UnsignedAmountOrZero(Some(StampText(d)))
    case Whole(n) => UnsignedAmountOrZero(Some(IntToString(n)))
    case Real(x) => x
  }

  /** `.apply(limpar_valor).astype(int)` on one cell. */
  function CleanWhole(v: Value): Value
  {
    Whole(Truncate(Limpar(v)))
  }

  /** `.apply(limpar_valor)` on one cell. */
  function CleanReal(v: Value): Value
  {
    Real(Limpar(v))
  }

  /** limpar_valor reads back an int that `astype(int)` wrote. */
  lemma LimparReadsWhole(n: nat)
    ensures Limpar(Whole(n)) == n as real
  {
    var s := NatToString(n);
    var t := IntToString(n);
    assert t == s;
    assert Limpar(Whole(n)) == UnsignedAmountOrZero(Some(t));
    UnsignedOfDigits(s);
    NatToStringRoundTrip(n);
  }

  /** limpar_valor reads a digit string as its value. */
  lemma UnsignedOfDigits(s: string)
    requires s != [] && AllDigits(s)
    ensures UnsignedAmountOrZero(Some(s)) == DigitsValue(s) as real
  {
    UnsignedTextOfDigits(s);
    ParseFloatOfDigitText(s);
  }

  /** The unsigned cleaner leaves a digit string as it is. */
  lemma UnsignedTextOfDigits(s: string)
    requires AllDigits(s)
    ensures UnsignedAmountText(s) == s
  {
    AllDigitsNoChar(s, '.');
    AllDigitsNoChar(s, ',');
    CountAbsent(s, '.');
    assert DecimalCommaChars(s);
    UnsignedCleanerKeeps(s);
  }

  /** The cell of column `j`; a short row reads as NaN. */
  function ValueAt(row: seq<Value>, j: nat): Value
  {
    if j < |row| then row[j] else Missing
  }

  /** `df[col] = f(df[col])` on one row: the cell of column `j` is rewritten, the others are kept. */
  function Step(row: seq<Value>, j: nat, f: Value -> Value): (r: seq<Value>)
    ensures |r| == |row|
    ensures forall k :: 0 <= k < |row| ==> r[k] == if k == j then f(row[k]) else row[k]
  {
    if j < |row| then row[j := f(row[j])] else row
  }

  /** The number a summed cell holds; after lines 47 and 48 the units and value columns hold only numbers. */
  function Num(v: Value): real
  {
    match v
    case Whole(n) => n as real
    case Real(x) => x
    case _ => 0.0
  }

  // ---------------------------------------------------------------- one row through the steps

  /** A row after line 26: only the date column is converted. */
  function Dated(row: seq<Option<string>>, roles: Roles): seq<Value>
  {
    Step(ReadRow(row), roles.date, ToDate)
  }

  /** A row after lines 26, 47 and 48, in that order. */
  function Converted(row: seq<Option<string>>, roles: Roles): seq<Value>
  {
    Step(Step(Dated(row, roles), roles.units, CleanWhole), roles.value, CleanReal)
  }

  /** The Timestamp lines 27 and 28 read ano and mes from; None for NaT. */
  function StampOf(v: Value): Option<Date>
  {
    if v.Stamp? then Some(v.d) else None
  }

  function When(row: seq<Option<string>>, roles: Roles): Option<Date>
  {
    StampOf(ValueAt(Dated(row, roles), roles.date))
  }

  function Year(d: Option<Date>): Option<int>
  {
    if d.Some? then Some(d.value.year) else None
  }

  function Month(d: Option<Date>): Option<int>
  {
    if d.Some? then Some(d.value.month) else None
  }

  /** The date as the row holds it: its cell read as dd/mm/yyyy, None for NaN or a refused text. */
  function RawDate(row: seq<Option<string>>, roles: Roles): Option<Date>
  {
    match CellAt(row, roles.date)
    case None => None
    case Some(t) => StrptimeDmy(t)
  }

  // ---------------------------------------------------------------- grouping

  datatype BlzKey = BlzKey(sku: Value, desc: Value, ano: int, mes: int)

  /** A row as the groupby sees it: a NaN in the SKU, description, ano or mes puts it in no group. */
  function RowEntry(row: seq<Value>, ano: Option<int>, mes: Option<int>, roles: Roles): Entry<BlzKey>
  {
    var sku, desc := ValueAt(row, roles.sku), ValueAt(row, roles.desc);
    Entry(
      if !sku.Missing? && !desc.Missing? && ano.Some? && mes.Some? then Some(BlzKey(sku, desc, ano.value, mes.value)) else None,
      Num(ValueAt(row, roles.units)), Num(ValueAt(row, roles.value)))
  }

  /** A row as read, through the script's steps: its units are a whole non-negative number and its value is non-negative. */
  function EntryOf(row: seq<Option<string>>, roles: Roles): (e: Entry<BlzKey>)
    ensures e.a >= 0.0 && e.b >= 0.0
    ensures e.a == (e.a.Floor as real)
  {
    ConvertedNumbers(row, roles);
    RowEntry(Converted(row, roles), Year(When(row, roles)), Month(When(row, roles)), roles)
  }

  lemma ConvertedNumbers(row: seq<Option<string>>, roles: Roles)
    ensures var c := Converted(row, roles);
      Num(ValueAt(c, roles.units)) >= 0.0 && Num(ValueAt(c, roles.units)) == Num(ValueAt(c, roles.units)).Floor as real &&
      Num(ValueAt(c, roles.value)) >= 0.0
  {
    var d := Dated(row, roles);
    var c := Converted(row, roles);
    if roles.units < |row| {
      var u := d[roles.units];
      assert !u.Real?;
      var n := Truncate(Limpar(u));
      if roles.value == roles.units {
        LimparReadsWhole(n);
        assert c[roles.units] == Real(n as real);
      } else {
        assert c[roles.units] == Whole(n);
      }
    }
    if roles.value < |row| {
      var u := Step(d, roles.units, CleanWhole)[roles.value];
      assert !u.Real?;
      assert c[roles.value] == Real(Limpar(u));
    }
  }

  /** The whole script: the grouped table, or the ValueError raised when a role is undetected. */
  function Process(s: Sheet): (r: Result<map<BlzKey, Sums>>)
    ensures r.Failure? <==> DetectRoles(CleanHeader(s.header)).Failure?
    ensures r.Success? ==> forall k :: k in r.value ==> r.value[k].a >= 0.0 && r.value[k].b >= 0.0
  {
    match DetectRoles(CleanHeader(s.header))
    case Failure(e) => Failure(e)
    case Success(roles) =>
      var es := Entries(s.rows, roles);
      AggregateNonNegative(es);
      Success(Aggregate(es))
  }

  function Entries(rows: seq<seq<Option<string>>>, roles: Roles): (es: seq<Entry<BlzKey>>)
    ensures |es| == |rows| && forall i :: 0 <= i < |rows| ==> es[i] == EntryOf(rows[i], roles)
  {
    seq(|rows|, i requires 0 <= i < |rows| => EntryOf(rows[i], roles))
  }

  // ---------------------------------------------------------------- what a row's entry reads

  /**
   * With the date, units and value in three columns of their own, and the
   * SKU and description in none of those, each role reads its own cell as
   * read: the SKU and description texts, the day the date cell gives, the
   * truncated limpar_valor of the units and the limpar_valor of the value.
   */
  lemma DistinctRolesReadRaw(row: seq<Option<string>>, roles: Roles)
    requires roles.units != roles.value && roles.units != roles.date && roles.value != roles.date
    requires roles.sku != roles.date && roles.sku != roles.units && roles.sku != roles.value
    requires roles.desc != roles.date && roles.desc != roles.units && roles.desc != roles.value
    ensures EntryOf(row, roles).a == Truncate(UnsignedAmountOrZero(CellAt(row, roles.units))) as real
    ensures EntryOf(row, roles).b == UnsignedAmountOrZero(CellAt(row, roles.value))
    ensures EntryOf(row, roles).key.Some? <==>
      CellAt(row, roles.sku).Some? && CellAt(row, roles.desc).Some? && RawDate(row, roles).Some?
    ensures EntryOf(row, roles).key.Some? ==>
      EntryOf(row, roles).key.value ==
        BlzKey(Text(CellAt(row, roles.sku).value), Text(CellAt(row, roles.desc).value), RawDate(row, roles).value.year, RawDate(row, roles).value.month)
  {
    var c := Converted(row, roles);
    UnitsNum(row, roles);
    ValueNum(row, roles);
    KeptCellAt(row, roles, roles.sku);
    KeptCellAt(row, roles, roles.desc);
    WhenIsRawDate(row, roles);
    assert EntryOf(row, roles) == RowEntry(c, Year(When(row, roles)), Month(When(row, roles)), roles);
  }

  /** The date the steps read ano and mes from is the date cell as read. */
  lemma WhenIsRawDate(row: seq<Option<string>>, roles: Roles)
    ensures When(row, roles) == RawDate(row, roles)
  {
    if roles.date < |row| {
      assert Dated(row, roles)[roles.date] == ToDate(ReadCell(row[roles.date]));
    }
  }

  /** A column no step converts keeps its cell as read. */
  lemma KeptCellAt(row: seq<Option<string>>, roles: Roles, j: nat)
    requires j != roles.date && j != roles.units && j != roles.value
    ensures ValueAt(Converted(row, roles), j) == ReadCell(CellAt(row, j))
  {
    if j < |row| {
      assert Dated(row, roles)[j] == ReadCell(row[j]);
    }
  }

  lemma UnitsNum(row: seq<Option<string>>, roles: Roles)
    requires roles.units != roles.value && roles.units != roles.date
    ensures Num(ValueAt(Converted(row, roles), roles.units)) == Truncate(UnsignedAmountOrZero(CellAt(row, roles.units))) as real
  {
    if roles.units < |row| {
      assert Dated(row, roles)[roles.units] == ReadCell(row[roles.units]);
      assert Converted(row, roles)[roles.units] == CleanWhole(ReadCell(row[roles.units]));
    }
  }

  lemma ValueNum(row: seq<Option<string>>, roles: Roles)
    requires roles.units != roles.value && roles.value != roles.date
    ensures Num(ValueAt(Converted(row, roles), roles.value)) == UnsignedAmountOrZero(CellAt(row, roles.value))
  {
    if roles.value < |row| {
      assert Dated(row, roles)[roles.value] == ReadCell(row[roles.value]);
      assert Converted(row, roles)[roles.value] == CleanReal(ReadCell(row[roles.value]));
    }
  }

  /**
   * A column serving as both units and value (a header such as "valor
   * venda") is cleaned twice: line 48 cleans the ints line 47 wrote, so the
   * value is the truncated units, not the amount the cell held ("12,50" gives
   * 12 units and a value of 12.0).
   */
  lemma SharedUnitsValue(row: seq<Option<string>>, roles: Roles)
    requires roles.units == roles.value
    ensures EntryOf(row, roles).b == EntryOf(row, roles).a
    ensures roles.units != roles.date ==> EntryOf(row, roles).a == Truncate(UnsignedAmountOrZero(CellAt(row, roles.units))) as real
  {
    var d := Dated(row, roles);
    var c := Converted(row, roles);
    if roles.units < |row| {
      var n := Truncate(Limpar(d[roles.units]));
      assert !d[roles.units].Real?;
      LimparReadsWhole(n);
      assert c[roles.units] == Real(n as real);
      if roles.units != roles.date {
        assert d[roles.units] == ReadCell(row[roles.units]);
      }
    }
  }

  /** The same for an amount written with a decimal comma: the value keeps only the whole part. */
  lemma SharedUnitsValueCents(row: seq<Option<string>>, roles: Roles, m: nat)
    requires roles.units == roles.value && roles.units != roles.date
    requires CellAt(row, roles.units) == Some(CommaCents(m))
    ensures EntryOf(row, roles).b == (m / 100) as real
  {
    SharedUnitsValue(row, roles);
    var x := UnsignedAmountOrZero(CellAt(row, roles.units));
    UnsignedAmountReadsCents(m);
    assert x == m as real / 100.0;
    CentsFloor(m);
    assert Truncate(x) == m / 100;
  }

  lemma CentsFloor(m: nat)
    ensures Truncate(m as real / 100.0) == m / 100
  {
    var q := m / 100;
    assert q as real <= m as real / 100.0 < q as real + 1.0;
  }

  /**
   * A column serving as both date and units (a header such as "data da
   * venda") is cleaned after line 26 made it Timestamps: the units are the
   * digits of the Timestamp's text, and 0 for NaT.
   */
  lemma SharedDateUnits(row: seq<Option<string>>, roles: Roles)
    requires roles.date == roles.units && roles.value != roles.units
    ensures EntryOf(row, roles).a ==
      match RawDate(row, roles)
      case None => 0.0
      case Some(d) => Truncate(UnsignedAmountOrZero(Some(StampText(d)))) as real
  {
    var d := Dated(row, roles);
    var c := Converted(row, roles);
    WhenIsRawDate(row, roles);
    if roles.units < |row| {
      assert c[roles.units] == CleanWhole(d[roles.units]);
    }
  }

  // ---------------------------------------------------------------- where the groups come from

  /**
   * Every group comes from a row whose SKU and description cells, after the
   * steps, are the group's, and whose date cell as read is a dd/mm/yyyy
   * calendar day of the group's year and month.
   */
  lemma GroupsComeFromRows(s: Sheet, roles: Roles, k: BlzKey)
    requires DetectRoles(CleanHeader(s.header)) == Success(roles)
    requires Process(s).Success? && k in Process(s).value
    ensures exists i :: 0 <= i < |s.rows| && RowHasKey(s.rows[i], roles, k)
  {
    var es := Entries(s.rows, roles);
    assert Process(s).value == Aggregate(es);
    AggregateIsGroupSum(es);
    var i :| 0 <= i < |es| && es[i].key == Some(k);
    KeyedRow(s.rows[i], roles, k);
  }

  lemma KeyedRow(row: seq<Option<string>>, roles: Roles, k: BlzKey)
    requires EntryOf(row, roles).key == Some(k)
    ensures RowHasKey(row, roles, k)
  {
    WhenIsRawDate(row, roles);
  }

  /** The row's cells give key `k`, and its date cell is a real calendar day of k's year and month. */
  predicate RowHasKey(row: seq<Option<string>>, roles: Roles, k: BlzKey)
  {
    var c := Converted(row, roles);
    ValueAt(c, roles.sku) == k.sku && ValueAt(c, roles.desc) == k.desc &&
    RawDate(row, roles).Some? && ValidDate(RawDate(row, roles).value) &&
    RawDate(row, roles).value.year == k.ano && RawDate(row, roles).value.month == k.mes
  }

  /** Every group's month is a calendar month. */
  lemma GroupMonths(s: Sheet, roles: Roles, k: BlzKey)
    requires DetectRoles(CleanHeader(s.header)) == Success(roles)
    requires Process(s).Success? && k in Process(s).value
    ensures 1 <= k.mes <= 12
  {
    GroupsComeFromRows(s, roles, k);
  }

  // ---------------------------------------------------------------- the DataFrame, in place

  function ReadRows(rows: seq<seq<Option<string>>>): (r: seq<seq<Value>>)
    ensures |r| == |rows| && forall i :: 0 <= i < |rows| ==> r[i] == ReadRow(rows[i])
  {
    seq(|rows|, i requires 0 <= i < |rows| => ReadRow(rows[i]))
  }

  /** `df[col] = f(df[col])` on every row. */
  function MapColumn(rows: seq<seq<Value>>, j: nat, f: Value -> Value): (r: seq<seq<Value>>)
    ensures |r| == |rows| && forall i :: 0 <= i < |rows| ==> r[i] == Step(rows[i], j, f)
  {
    seq(|rows|, i requires 0 <= i < |rows| => Step(rows[i], j, f))
  }

  /** `df[col].dt.year` and `df[col].dt.month`, NaN for NaT. */
  function Years(rows: seq<seq<Value>>, j: nat): (r: seq<Option<int>>)
    ensures |r| == |rows| && forall i :: 0 <= i < |rows| ==> r[i] == Year(StampOf(ValueAt(rows[i], j)))
  {
    seq(|rows|, i requires 0 <= i < |rows| => Year(StampOf(ValueAt(rows[i], j))))
  }

  function Months(rows: seq<seq<Value>>, j: nat): (r: seq<Option<int>>)
    ensures |r| == |rows| && forall i :: 0 <= i < |rows| ==> r[i] == Month(StampOf(ValueAt(rows[i], j)))
  {
    seq(|rows|, i requires 0 <= i < |rows| => Month(StampOf(ValueAt(rows[i], j))))
  }

  /** The DataFrame the script overwrites column by column, with its ano and mes columns. */
  class Table {
    var header: seq<string>
    var rows: seq<seq<Value>>
    var anos: seq<Option<int>>
    var meses: seq<Option<int>>

    /** `pd.read_excel`, then the names stripped and lower-cased; ano and mes are not there yet. */
    constructor (s: Sheet)
      ensures header == CleanHeader(s.header) && rows == ReadRows(s.rows) && anos == [] && meses == []
    {
      header, rows, anos, meses := CleanHeader(s.header), ReadRows(s.rows), [], [];
    }

    /** `df[col] = f(df[col])`. */
    method Convert(j: nat, f: Value -> Value)
      modifies this
      ensures rows == MapColumn(old(rows), j, f)
      ensures header == old(header) && anos == old(anos) && meses == old(meses)
    {
      rows := MapColumn(rows, j, f);
    }

    /** `df['ano'] = df[col].dt.year` and `df['mes'] = df[col].dt.month`. */
    method AddYearMonth(j: nat)
      modifies this
      ensures anos == Years(rows, j) && meses == Months(rows, j)
      ensures header == old(header) && rows == old(rows)
    {
      anos, meses := Years(rows, j), Months(rows, j);
    }
  }

  /** The groupby's view of the table: each row's cells with its ano and mes. */
  function TableEntries(rows: seq<seq<Value>>, anos: seq<Option<int>>, meses: seq<Option<int>>, roles: Roles): seq<Entry<BlzKey>>
    requires |anos| == |rows| && |meses| == |rows|
  {
    seq(|rows|, i requires 0 <= i < |rows| => RowEntry(rows[i], anos[i], meses[i], roles))
  }

  /** The script's statements in order, on the table overwritten in place. */
  method Run(s: Sheet) returns (r: Result<map<BlzKey, Sums>>)
    ensures r == Process(s)
  {
    var df := new Table(s);
    var detected := DetectRoles(df.header);
    if detected.Failure? {
      return Failure(detected.error);
    }
    var roles := detected.value;
    df.Convert(roles.date, ToDate);
    ghost var dated := df.rows;
    df.AddYearMonth(roles.date);
    df.Convert(roles.units, CleanWhole);
    df.Convert(roles.value, CleanReal);
    var es := TableEntries(df.rows, df.anos, df.meses, roles);
    forall i | 0 <= i < |s.rows|
      ensures es[i] == EntryOf(s.rows[i], roles)
    {
      assert dated[i] == Dated(s.rows[i], roles);
      assert df.rows[i] == Converted(s.rows[i], roles);
    }
    assert es == Entries(s.rows, roles);
    r := Success(Aggregate(es));
  }
}
