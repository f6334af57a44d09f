/**
 * scripts/merge_csv_marketplaces.py: three processed tables (Tiny ERP,
 * marketplaces, TikTok Shop) are loaded, each one that fails to load being
 * empty; in each, the sku column is normalised in place and every missing
 * base column is added as empty; the tables are concatenated, rows with no
 * sku dropped, and the rest summed per SKU, product, channel, year and month
 * with an average unit price.
 */
module MergeCsvMarketplaces {
  import opened Wrappers
  import opened Strings
  import opened Numbers
  import opened Frames
  import opened Normalisers
  import opened GroupBy

  /** cols_base, in the script's order. */
  const BaseColumns: seq<string> := ["sku", "produto", "vendas", "valor_total", "ano", "mes", "canal"]

  /** A table read by read_csv has one cell per column in every row. */
  predicate WellFormed(s: Sheet)
  {
    forall i :: 0 <= i < |s.rows| ==> |s.rows[i]| == |s.header|
  }

  /** A source that fails to load becomes `pd.DataFrame()`. */
  function LoadedOrEmpty(loaded: Option<Sheet>): (s: Sheet)
    ensures WellFormed(s) <== loaded.None? || WellFormed(loaded.value)
    ensures loaded.None? ==> s.header == [] && s.rows == []
  {
    if loaded.None? then Sheet([], []) else loaded.value
  }

  // ---------------------------------------------------------------- sku normalisation

  /** `astype(str).str.strip().str.upper()` of one cell: NaN is written "nan" first, so no cell stays missing. */
  function NormalisedSkuCell(c: Option<string>): (r: Option<string>)
    ensures r.Some?
  {
    Some(NormaliseSku(c.GetOr("nan")))
  }

  /** Row `row` with its cell `j` replaced by `f` of it. */
  function MapCell(row: seq<Option<string>>, j: nat, f: Option<string> -> Option<string>): (r: seq<Option<string>>)
    ensures |r| == |row|
    ensures forall k :: 0 <= k < |row| && k != j ==> r[k] == row[k]
    ensures j < |row| ==> r[j] == f(row[j])
  {
    if j < |row| then row[j := f(row[j])] else row
  }

  /** The rows after `df["sku"] = f(df["sku"])`, or unchanged when there is no sku column. */
  function SkuMapped(header: seq<string>, rows: seq<seq<Option<string>>>, f: Option<string> -> Option<string>): (r: seq<seq<Option<string>>>)
    ensures |r| == |rows| && forall i :: 0 <= i < |rows| ==> |r[i]| == |rows[i]|
  {
    match FirstIndex(header, NameIs("sku"))
    case None => rows
    case Some(j) => seq(|rows|, i requires 0 <= i < |rows| => MapCell(rows[i], j, f))
  }

  // ---------------------------------------------------------------- missing columns

  /** The header after `if col not in df.columns: df[col] = None` for each wanted column, in order. */
  function WithColumns(header: seq<string>, wanted: seq<string>): (r: seq<string>)
    ensures |r| >= |header| && r[..|header|] == header
    ensures forall c :: c in wanted ==> c in r
    ensures forall c :: c in r ==> c in header || c in wanted
    decreases |wanted|
  {
    if wanted == [] then header
    else
      var init := WithColumns(header, wanted[..|wanted| - 1]);
      var c := wanted[|wanted| - 1];
      assert forall x :: x in wanted ==> x in wanted[..|wanted| - 1] || x == c;
      if c in init then init
      else
        assert (init + [c])[..|header|] == init[..|header|];
        init + [c]
  }

  function Nones(k: nat): (r: seq<Option<string>>)
    ensures |r| == k && forall i :: 0 <= i < k ==> r[i].None?
  {
    seq(k, _ => None)
  }

  /** Each row with `k` empty cells appended for the added columns. */
  function Padded(rows: seq<seq<Option<string>>>, k: nat): (r: seq<seq<Option<string>>>)
    ensures |r| == |rows| && forall i :: 0 <= i < |rows| ==> r[i] == rows[i] + Nones(k)
  {
    seq(|rows|, i requires 0 <= i < |rows| => rows[i] + Nones(k))
  }

  /** The first loop's effect on one table, with `f` normalising its sku cells. */
  function SkuStep(s: Sheet, f: Option<string> -> Option<string>): (r: Sheet)
    ensures WellFormed(s) ==> WellFormed(r)
  {
    Sheet(s.header, SkuMapped(s.header, s.rows, f))
  }

  /** A table with the missing `wanted` columns added, empty. */
  function Widened(s: Sheet, wanted: seq<string>): (r: Sheet)
    requires WellFormed(s)
    ensures WellFormed(r)
    ensures forall c :: c in wanted ==> c in r.header
  {
    var header := WithColumns(s.header, wanted);
    var r := Sheet(header, Padded(s.rows, |header| - |s.header|));
    assert WellFormed(r);
    r
  }

  /** The second loop's effect on one table: the missing base columns added, empty. */
  function ColumnStep(s: Sheet): (r: Sheet)
    requires WellFormed(s)
    ensures WellFormed(r)
    ensures forall c :: c in BaseColumns ==> c in r.header
  {
    Widened(s, BaseColumns)
  }

  /** `df[col] = None` on the rows: one more empty cell in each. */
  function AppendNone(rows: seq<seq<Option<string>>>): (r: seq<seq<Option<string>>>)
    ensures |r| == |rows| && forall i :: 0 <= i < |rows| ==> r[i] == rows[i] + [None]
  {
    seq(|rows|, i requires 0 <= i < |rows| => rows[i] + [None])
  }

  lemma PaddedSucc(rows: seq<seq<Option<string>>>, n: nat)
    ensures AppendNone(Padded(rows, n)) == Padded(rows, n + 1)
  {
    assert Nones(n) + [None] == Nones(n + 1);
    forall i | 0 <= i < |rows| ensures AppendNone(Padded(rows, n))[i] == Padded(rows, n + 1)[i] {
      assert (rows[i] + Nones(n)) + [None] == rows[i] + (Nones(n) + [None]);
    }
  }

  /** Nothing wanted, nothing added. */
  lemma WidenedNone(s: Sheet)
    requires WellFormed(s)
    ensures Widened(s, []) == s
  {
    assert Nones(0) == [];
    assert forall i :: 0 <= i < |s.rows| ==> s.rows[i] + Nones(0) == s.rows[i];
  }

  /** One more wanted column is added, empty, unless the table already has it. */
  lemma WidenedStep(s: Sheet, wanted: seq<string>, k: nat)
    requires WellFormed(s) && k < |wanted|
    ensures var w := Widened(s, wanted[..k]);
      Widened(s, wanted[..k + 1]) == if wanted[k] in w.header then w else Sheet(w.header + [wanted[k]], AppendNone(w.rows))
  {
    assert wanted[..k + 1][..k] == wanted[..k];
    var h := WithColumns(s.header, wanted[..k]);
    PaddedSucc(s.rows, |h| - |s.header|);
  }

  /** One table after both loops of the script, with `f` normalising its sku cells. */
  function StandardisedWith(s: Sheet, f: Option<string> -> Option<string>): Sheet
    requires WellFormed(s)
  {
    ColumnStep(SkuStep(s, f))
  }

  function Standardised(s: Sheet): Sheet
    requires WellFormed(s)
  {
    StandardisedWith(s, NormalisedSkuCell)
  }

  // ---------------------------------------------------------------- the tables, in place

  /** One of the three DataFrames the script updates in place. */
  class Table {
    var header: seq<string>
    var rows: seq<seq<Option<string>>>

    function Snapshot(): Sheet
      reads this
    {
      Sheet(header, rows)
    }

    constructor (s: Sheet)
      ensures Snapshot() == s
    {
      header, rows := s.header, s.rows;
    }

    /** `df["sku"] = df["sku"].astype(str).str.strip().str.upper()` when "sku" is a column. */
    method NormaliseSkuColumn(f: Option<string> -> Option<string>)
      modifies this
      ensures Snapshot() == SkuStep(old(Snapshot()), f)
    {
      rows := SkuMapped(header, rows, f);
    }

    /** `for col in wanted: if col not in df.columns: df[col] = None`. */
    method AddMissing(wanted: seq<string>)
      modifies this
      requires WellFormed(Snapshot())
      ensures Snapshot() == Widened(old(Snapshot()), wanted)
    {
      ghost var s := Snapshot();
      WidenedNone(s);
      for k := 0 to |wanted|
        invariant Snapshot() == Widened(s, wanted[..k])
      {
        WidenedStep(s, wanted, k);
        if wanted[k] !in header {
          header := header + [wanted[k]];
          rows := AppendNone(rows);
        }
      }
      assert wanted[..|wanted|] == wanted;
    }
  }

  /** The first loop, `for df in [...]: df["sku"] = ...`, over distinct tables. */
  method NormaliseAll(tables: seq<Table>, f: Option<string> -> Option<string>)
    requires forall i, j :: 0 <= i < j < |tables| ==> tables[i] != tables[j]
    modifies set t | t in tables
    ensures forall j :: 0 <= j < |tables| ==> tables[j].Snapshot() == SkuStep(old(tables[j].Snapshot()), f)
  {
    for i := 0 to |tables|
      invariant forall j :: 0 <= j < i ==> tables[j].Snapshot() == SkuStep(old(tables[j].Snapshot()), f)
      invariant forall j :: i <= j < |tables| ==> tables[j].Snapshot() == old(tables[j].Snapshot())
    {
      tables[i].NormaliseSkuColumn(f);
    }
  }

  /** The second loop, `for df in [...]: for col in cols_base: ...`, over distinct tables. */
  method PadAll(tables: seq<Table>, wanted: seq<string>)
    requires forall i, j :: 0 <= i < j < |tables| ==> tables[i] != tables[j]
    requires forall i :: 0 <= i < |tables| ==> WellFormed(tables[i].Snapshot())
    modifies set t | t in tables
    ensures forall j :: 0 <= j < |tables| ==>
      WellFormed(old(tables[j].Snapshot())) && tables[j].Snapshot() == Widened(old(tables[j].Snapshot()), wanted)
  {
    for i := 0 to |tables|
      invariant forall j :: 0 <= j < i ==> tables[j].Snapshot() == Widened(old(tables[j].Snapshot()), wanted)
      invariant forall j :: i <= j < |tables| ==> tables[j].Snapshot() == old(tables[j].Snapshot())
    {
      tables[i].AddMissing(wanted);
    }
  }

  /** Both loops: every table ends up standardised, each one on its own rows. */
  method StandardiseAll(tables: seq<Table>)
    requires forall i, j :: 0 <= i < j < |tables| ==> tables[i] != tables[j]
    requires forall i :: 0 <= i < |tables| ==> WellFormed(tables[i].Snapshot())
    modifies set t | t in tables
    ensures forall i :: 0 <= i < |tables| ==>
      WellFormed(old(tables[i].Snapshot())) && tables[i].Snapshot() == Standardised(old(tables[i].Snapshot()))
  {
    NormaliseAll(tables, NormalisedSkuCell);
    PadAll(tables, BaseColumns);
  }

  // ---------------------------------------------------------------- concat, dropna, groupby

  /** A concatenated row, read by column name. */
  datatype Line = Line(sku: Option<string>, produto: Option<string>, vendas: Option<string>, valorTotal: Option<string>,
    ano: Option<string>, mes: Option<string>, canal: Option<string>)

  function LineOf(header: seq<string>, row: seq<Option<string>>): Line
  {
    Line(CellOf(header, row, "sku"), CellOf(header, row, "produto"), CellOf(header, row, "vendas"),
      CellOf(header, row, "valor_total"), CellOf(header, row, "ano"), CellOf(header, row, "mes"), CellOf(header, row, "canal"))
  }

  function LinesOf(s: Sheet): (r: seq<Line>)
    ensures |r| == |s.rows| && forall i :: 0 <= i < |s.rows| ==> r[i] == LineOf(s.header, s.rows[i])
  {
    seq(|s.rows|, i requires 0 <= i < |s.rows| => LineOf(s.header, s.rows[i]))
  }

  /** `pd.concat(tables, ignore_index=True)`: the rows of each table in turn, aligned by column name. */
  function Concatenated(tables: seq<Sheet>): seq<Line>
  {
    Flatten(seq(|tables|, i requires 0 <= i < |tables| => LinesOf(tables[i])))
  }

  /** `dropna(subset=["sku"])`, keeping the order. */
  function KeepSku(lines: seq<Line>): (r: seq<Line>)
    ensures |r| <= |lines|
    ensures forall i :: 0 <= i < |r| ==> r[i].sku.Some? && r[i] in lines
    ensures forall i :: 0 <= i < |lines| && lines[i].sku.Some? ==> lines[i] in r
    decreases |lines|
  {
    if lines == [] then []
    else
      var init := KeepSku(lines[..|lines| - 1]);
      var l := lines[|lines| - 1];
      assert forall i :: 0 <= i < |lines| - 1 ==> lines[..|lines| - 1][i] == lines[i];
      if l.sku.Some? then init + [l] else init
  }

  /**
   * The filter works line by line and keeps the order: the lines of a
   * concatenation are kept as the lines of each part, one after the other.
   * With the one-line case, this fixes the result as the lines that have a
   * SKU, in their original order.
   */
  lemma {:induction false} KeepSkuAppend(a: seq<Line>, b: seq<Line>)
    ensures KeepSku(a + b) == KeepSku(a) + KeepSku(b)
    ensures |b| == 1 ==> KeepSku(b) == (if b[0].sku.Some? then b else [])
    decreases |b|
  {
    if b == [] {
      assert a + b == a;
    } else {
      var b' := b[..|b| - 1];
      assert (a + b)[..|a + b| - 1] == a + b';
      assert (a + b)[|a + b| - 1] == b[|b| - 1];
      KeepSkuAppend(a, b');
      if |b| == 1 {
        assert b' == [];
      }
    }
  }

  /** The consolidation key, in the script's groupby order. */
  datatype ConsKey = ConsKey(sku: string, produto: string, canal: string, ano: string, mes: string)

  /** A row as the groupby sees it: rows with any key cell missing fall in no group. */
  function EntryOf(l: Line): (e: Entry<ConsKey>)
    ensures e.key.Some? <==> l.sku.Some? && l.produto.Some? && l.canal.Some? && l.ano.Some? && l.mes.Some?
    ensures e.key.Some? ==> e.key.value == ConsKey(l.sku.value, l.produto.value, l.canal.value, l.ano.value, l.mes.value)
  {
    var key := if l.sku.Some? && l.produto.Some? && l.canal.Some? && l.ano.Some? && l.mes.Some? then
      Some(ConsKey(l.sku.value, l.produto.value, l.canal.value, l.ano.value, l.mes.value)) else None;
    Entry(key, NumericOrZero(l.vendas), NumericOrZero(l.valorTotal))
  }

  function Entries(lines: seq<Line>): (es: seq<Entry<ConsKey>>)
    ensures |es| == |lines| && forall i :: 0 <= i < |lines| ==> es[i] == EntryOf(lines[i])
  {
    seq(|lines|, i requires 0 <= i < |lines| => EntryOf(lines[i]))
  }

  /** The consolidated table: vendas and valor_total summed per key. */
  function Consolidated(tables: seq<Sheet>): map<ConsKey, Sums>
  {
    Aggregate(Entries(KeepSku(Concatenated(tables))))
  }

  /** One output row: the key, the sums and `valor_total / vendas` (no value when vendas is 0). */
  datatype OutputRow = OutputRow(key: ConsKey, vendas: real, valorTotal: real, valorUnitarioMedio: Option<real>)

  function Output(m: map<ConsKey, Sums>, k: ConsKey): (o: OutputRow)
    requires k in m
    ensures o.key == k && o.vendas == m[k].a && o.valorTotal == m[k].b
    ensures o.valorUnitarioMedio.Some? <==> o.vendas != 0.0
    ensures o.valorUnitarioMedio.Some? ==> o.valorUnitarioMedio.value * o.vendas == o.valorTotal
  {
    OutputRow(k, m[k].a, m[k].b, MeanPrice(m[k]))
  }

  /** The whole script: load, standardise the three tables in place, concatenate and consolidate. */
  method Run(tiny: Option<Sheet>, market: Option<Sheet>, tiktok: Option<Sheet>) returns (table: map<ConsKey, Sums>)
    requires tiny.Some? ==> WellFormed(tiny.value)
    requires market.Some? ==> WellFormed(market.value)
    requires tiktok.Some? ==> WellFormed(tiktok.value)
    ensures table == Consolidated([Standardised(LoadedOrEmpty(tiny)), Standardised(LoadedOrEmpty(market)),
      Standardised(LoadedOrEmpty(tiktok))])
  {
    var s1, s2, s3 := LoadedOrEmpty(tiny), LoadedOrEmpty(market), LoadedOrEmpty(tiktok);
    var t1 := new Table(s1);
    var t2 := new Table(s2);
    var t3 := new Table(s3);
    var ts := [t1, t2, t3];
    StandardiseAll(ts);
    assert ts[0] == t1 && ts[1] == t2 && ts[2] == t3;
    var standardised := [t1.Snapshot(), t2.Snapshot(), t3.Snapshot()];
    assert standardised == [Standardised(s1), Standardised(s2), Standardised(s3)];
    table := Consolidated(standardised);
  }

  // ---------------------------------------------------------------- what reaches the groupby

  /** Padding a row for new columns leaves every lookup by name as it was. */
  lemma CellOfPadded(header: seq<string>, extra: seq<string>, row: seq<Option<string>>, name: string)
    requires |row| == |header|
    ensures CellOf(header + extra, row + Nones(|extra|), name) == CellOf(header, row, name)
  {
    var h := header + extra;
    match FirstIndex(header, NameIs(name))
    case Some(j) =>
      FirstIndexAt(h, NameIs(name), j);
    case None =>
      var r := FirstIndex(h, NameIs(name));
      if r.Some? {
        assert r.value >= |header|;
      }
  }

  /** The line a row of a standardised table gives: its own cells, its sku passed through `f` when the table has that column. */
  lemma StandardisedLine(s: Sheet, f: Option<string> -> Option<string>, i: nat)
    requires WellFormed(s) && i < |s.rows|
    ensures var t := StandardisedWith(s, f);
      i < |t.rows| && LineOf(t.header, t.rows[i]) == LineOf(s.header, SkuMapped(s.header, s.rows, f)[i])
  {
    var header := WithColumns(s.header, BaseColumns);
    var extra := header[|s.header|..];
    assert header == s.header + extra;
    var row := SkuMapped(s.header, s.rows, f)[i];
    assert StandardisedWith(s, f).rows[i] == row + Nones(|extra|);
    CellOfPadded(s.header, extra, row, "sku");
    CellOfPadded(s.header, extra, row, "produto");
    CellOfPadded(s.header, extra, row, "vendas");
    CellOfPadded(s.header, extra, row, "valor_total");
    CellOfPadded(s.header, extra, row, "ano");
    CellOfPadded(s.header, extra, row, "mes");
    CellOfPadded(s.header, extra, row, "canal");
  }

  /** The sku a row reaches the dropna with: `f` of its own sku cell, or nothing when the table has no sku column. */
  lemma SkuReachingDropna(s: Sheet, f: Option<string> -> Option<string>, i: nat)
    requires WellFormed(s) && i < |s.rows|
    ensures var t := StandardisedWith(s, f);
      i < |t.rows| &&
      LineOf(t.header, t.rows[i]).sku == if "sku" in s.header then f(CellOf(s.header, s.rows[i], "sku")) else None
  {
    StandardisedLine(s, f, i);
    var row := SkuMapped(s.header, s.rows, f)[i];
    match FirstIndex(s.header, NameIs("sku"))
    case None =>
    case Some(j) =>
      assert row == MapCell(s.rows[i], j, f);
  }

  /** A table without a sku column contributes no row after dropna. */
  lemma NoSkuColumnDropsAll(s: Sheet)
    requires WellFormed(s) && "sku" !in s.header
    ensures KeepSku(LinesOf(Standardised(s))) == []
  {
    var lines := LinesOf(Standardised(s));
    forall i | 0 <= i < |lines| ensures lines[i].sku.None? {
      SkuReachingDropna(s, NormalisedSkuCell, i);
    }
    KeepSkuNone(lines);
  }

  lemma {:induction false} KeepSkuNone(lines: seq<Line>)
    requires forall i :: 0 <= i < |lines| ==> lines[i].sku.None?
    ensures KeepSku(lines) == []
    decreases |lines|
  {
    if lines != [] {
      KeepSkuNone(lines[..|lines| - 1]);
    }
  }

  lemma {:induction false} KeepSkuAll(lines: seq<Line>)
    requires forall i :: 0 <= i < |lines| ==> lines[i].sku.Some?
    ensures KeepSku(lines) == lines
    decreases |lines|
  {
    if lines != [] {
      KeepSkuAll(lines[..|lines| - 1]);
    }
  }

  /**
   * As written, a table with a sku column loses no row to the dropna: an
   * empty sku cell has become the text "NAN" before it.
   */
  lemma MissingSkuKept(s: Sheet, i: nat)
    requires WellFormed(s) && "sku" in s.header && i < |s.rows| && CellOf(s.header, s.rows[i], "sku").None?
    ensures KeepSku(LinesOf(Standardised(s))) == LinesOf(Standardised(s))
    ensures LinesOf(Standardised(s))[i].sku == Some("NAN")
  {
    var lines := LinesOf(Standardised(s));
    forall k | 0 <= k < |lines| ensures lines[k].sku.Some? {
      SkuReachingDropna(s, NormalisedSkuCell, k);
    }
    KeepSkuAll(lines);
    SkuReachingDropna(s, NormalisedSkuCell, i);
    NanUpper();
  }

  lemma NanUpper()
    ensures NormaliseSku("nan") == "NAN"
  {
    TrimUntouched("nan");
    assert Upper("nan") == "NAN";
  }

  /** The sku normalisation the dropna evidently expects: a missing cell stays missing. */
  function CorrectedSkuCell(c: Option<string>): (r: Option<string>)
    ensures r.Some? <==> c.Some?
    ensures r.Some? ==> r.value == NormaliseSku(c.value)
  {
    if c.None? then None else Some(NormaliseSku(c.value))
  }

  /** With it, a row reaches the groupby exactly when it had a sku. */
  lemma CorrectedDropsMissingSku(s: Sheet, i: nat)
    requires WellFormed(s) && i < |s.rows|
    ensures var t := StandardisedWith(s, CorrectedSkuCell);
      i < |t.rows| && (LineOf(t.header, t.rows[i]).sku.Some? <==> CellOf(s.header, s.rows[i], "sku").Some?)
  {
    SkuReachingDropna(s, CorrectedSkuCell, i);
  }

  /** No amount is lost in the consolidation beyond rows with a key cell missing. */
  lemma ConsolidationConserves(tables: seq<Sheet>)
    ensures TableTotal(Consolidated(tables)) == KeptTotal(Entries(KeepSku(Concatenated(tables))))
  {
    AggregateConserves(Entries(KeepSku(Concatenated(tables))));
  }
}
