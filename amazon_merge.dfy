/**
 * scripts/merge_amazon.py: the Amazon order report. Headers are trimmed and
 * lower-cased, five roles are detected by name, dates give year and month
 * (0 and 0 when they do not parse), rows whose cleaned total is not positive
 * are dropped, and the rest are summed per SKU, product, year, month and
 * channel, with an average unit price that never divides by zero.
 */
module AmazonMerge {
  import opened Wrappers
  import opened Strings
  import opened Numbers
  import opened Normalisers
  import opened Frames
  import opened Dates
  import opened GroupBy

  /** `c.startswith("sku")`. */
  function SkuHeader(): string -> bool
  {
    c => StartsWith(c, "sku")
  }

  const DateMarkers: seq<string> := ["data", "order date"]
  const ProductMarkers: seq<string> := ["produto", "product"]
  const UnitsMarkers: seq<string> := ["quantidade", "units"]
  const TotalMarkers: seq<string> := ["total", "amount"]

  /** The column index of each role. */
  datatype Roles = Roles(date: nat, sku: nat, product: nat, units: nat, total: nat)

  /**
   * The five `next(...)` detections; `df[[...]]` with an undetected role
   * (None) raises KeyError.
   */
  function DetectRoles(header: seq<string>): (r: Result<Roles>)
    ensures r.Success? ==>
      (FirstPassing(header, ContainsAny(DateMarkers), r.value.date) && FirstPassing(header, SkuHeader(), r.value.sku) &&
       FirstPassing(header, ContainsAny(ProductMarkers), r.value.product) &&
       FirstPassing(header, ContainsAny(UnitsMarkers), r.value.units) &&
       FirstPassing(header, ContainsAny(TotalMarkers), r.value.total))
    ensures r.Failure? ==>
      (NonePass(header, ContainsAny(DateMarkers)) || NonePass(header, SkuHeader()) ||
       NonePass(header, ContainsAny(ProductMarkers)) || NonePass(header, ContainsAny(UnitsMarkers)) ||
       NonePass(header, ContainsAny(TotalMarkers)))
  {
    var date := FirstIndex(header, ContainsAny(DateMarkers));
    var sku := FirstIndex(header, SkuHeader());
    var product := FirstIndex(header, ContainsAny(ProductMarkers));
    var units := FirstIndex(header, ContainsAny(UnitsMarkers));
    var total := FirstIndex(header, ContainsAny(TotalMarkers));
    if date.None? || sku.None? || product.None? || units.None? || total.None? then
      Failure("KeyError: [None] not in index")
    else
      Success(Roles(date.value, sku.value, product.value, units.value, total.value))
  }

  /** The grouping key; canal is always "amazon". */
  datatype MergeKey = MergeKey(sku: string, produto: string, ano: int, mes: int, canal: string)

  /**
   * Year and month of a date cell. `to_datetime(errors="coerce")` guesses the
   * format, so the parser is the caller's `parse`; NaT gives 0 and 0 (fillna(0)).
   */
  function YearMonth(cell: Option<string>, parse: string -> Option<Date>): (int, int)
  {
    if cell.None? then (0, 0)
    else match parse(cell.value)
      case None => (0, 0)
      case Some(d) => (d.year, d.month)
  }

  /** The row's key: SKU stripped and upper-cased, product stripped, NaN written as "nan" by astype(str). */
  function KeyOf(row: seq<Option<string>>, roles: Roles, parse: string -> Option<Date>): (k: MergeKey)
    ensures k.canal == "amazon"
  {
    var ym := YearMonth(CellAt(row, roles.date), parse);
    MergeKey(Upper(Trim(CellAt(row, roles.sku).GetOr("nan"))), Trim(CellAt(row, roles.product).GetOr("nan")),
      ym.0, ym.1, "amazon")
  }

  /** `to_num` of the total column. */
  function TotalOf(row: seq<Option<string>>, roles: Roles): real
  {
    SignedAmountOrZero(CellAt(row, roles.total))
  }

  /** `df[df["valor_total"] > 0]`, the survivors as grouping entries. */
  function Kept(rows: seq<seq<Option<string>>>, roles: Roles, parse: string -> Option<Date>): (es: seq<Entry<MergeKey>>)
    ensures |es| <= |rows|
    ensures forall i :: 0 <= i < |es| ==> es[i].key.Some? && es[i].key.value.canal == "amazon" && es[i].b > 0.0
    decreases |rows|
  {
    if rows == [] then []
    else
      var rest := Kept(rows[..|rows| - 1], roles, parse);
      var row := rows[|rows| - 1];
      if TotalOf(row, roles) > 0.0 then
        rest + [Entry(Some(KeyOf(row, roles, parse)), NumericOrZero(CellAt(row, roles.units)), TotalOf(row, roles))]
      else rest
  }

  /** The rows that survive the filter are exactly those with a positive total. */
  lemma {:induction false} KeptCount(rows: seq<seq<Option<string>>>, roles: Roles, parse: string -> Option<Date>)
    ensures |Kept(rows, roles, parse)| == |Positive(rows, roles)|
    decreases |rows|
  {
    if rows != [] {
      var init := rows[..|rows| - 1];
      KeptCount(init, roles, parse);
      PositiveSnoc(rows, roles);
      if TotalOf(rows[|rows| - 1], roles) > 0.0 {
        AddFresh(Positive(init, roles), |init|);
      }
    }
  }

  lemma AddFresh(s: set<nat>, x: nat)
    requires x !in s
    ensures |s + {x}| == |s| + 1
  {
  }

  /** The indices of the rows whose total is positive. */
  function Positive(rows: seq<seq<Option<string>>>, roles: Roles): set<nat>
  {
    set i: nat | i < |rows| && TotalOf(rows[i], roles) > 0.0
  }

  lemma PositiveSnoc(rows: seq<seq<Option<string>>>, roles: Roles)
    requires rows != []
    ensures var init, last := rows[..|rows| - 1], rows[|rows| - 1];
      Positive(rows, roles) == Positive(init, roles) + (if TotalOf(last, roles) > 0.0 then {|init|} else {}) &&
      |init| !in Positive(init, roles)
  {
    var init := rows[..|rows| - 1];
    assert forall i :: 0 <= i < |init| ==> init[i] == rows[i];
  }

  /** One output row: the key, the sums and valor_unitario_medio. */
  datatype OutputRow = OutputRow(key: MergeKey, vendas: real, valorTotal: real, valorUnitarioMedio: real)

  /** `valor_total / vendas.replace(0, 1)`. */
  function AveragePrice(s: Sums): (r: real)
    ensures s.a != 0.0 ==> r * s.a == s.b
    ensures s.a == 0.0 ==> r == s.b
  {
    s.b / (if s.a == 0.0 then 1.0 else s.a)
  }

  /** The whole script: the grouped table, or the KeyError of an undetected role. */
  function Process(s: Sheet, parse: string -> Option<Date>): (r: Result<map<MergeKey, Sums>>)
    ensures r.Failure? <==> DetectRoles(CleanHeader(s.header)).Failure?
    ensures r.Success? ==> forall k :: k in r.value ==> k.canal == "amazon" && r.value[k].b > 0.0
  {
    match DetectRoles(CleanHeader(s.header))
    case Failure(e) => Failure(e)
    case Success(roles) =>
      var es := Kept(s.rows, roles, parse);
      KeptGroups(es);
      Success(Aggregate(es))
  }

  /** Grouping rows of positive total, all of channel "amazon", gives groups of that channel with a positive total. */
  lemma KeptGroups(es: seq<Entry<MergeKey>>)
    requires forall i :: 0 <= i < |es| ==> es[i].key.Some? && es[i].key.value.canal == "amazon" && es[i].b > 0.0
    ensures forall k :: k in Aggregate(es) ==> k.canal == "amazon" && Aggregate(es)[k].b > 0.0
  {
    AggregatePositive(es);
    forall k | k in Aggregate(es) ensures k.canal == "amazon" {
      AggregateKeys(es, k);
    }
  }

  /** Each output row's average price times its units (0 read as 1) gives back its total, which is positive. */
  function Output(m: map<MergeKey, Sums>, k: MergeKey): (o: OutputRow)
    requires k in m
    ensures o.key == k && o.vendas == m[k].a && o.valorTotal == m[k].b
    ensures o.valorUnitarioMedio * (if o.vendas == 0.0 then 1.0 else o.vendas) == o.valorTotal
  {
    OutputRow(k, m[k].a, m[k].b, AveragePrice(m[k]))
  }
}
