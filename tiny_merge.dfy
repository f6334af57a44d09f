/**
 * scripts/merge_marketplaces_tiny.py: the Tiny ERP items and the marketplace
 * table are joined on SKU. The Tiny SKU column is found by a case-insensitive
 * name search and renamed "sku"; SKUs are normalised on both sides; the
 * marketplace rows are left-joined with the Tiny rows; revenue columns are
 * filled with 0 where missing, and every row gets the total marketplace
 * revenue of its SKU, summed over the joined table.
 */
module MergeTinyMarketplaces {
  import opened Wrappers
  import opened Strings
  import opened Normalisers
  import opened Frames
  import opened Numbers
  import opened MergeCsvMarketplaces

  // ---------------------------------------------------------------- the sku column of tiny

  /** possiveis_colunas_sku, in the script's order. */
  const SkuCandidates: seq<string> := ["sku", "SKU", "codigo", "Código", "codigo_produto", "codigo produto", "id_produto"]

  /** `[p.lower() for p in possiveis_colunas_sku]`. */
  const LoweredCandidates: seq<string> := ["sku", "sku", "codigo", "código", "codigo_produto", "codigo produto", "id_produto"]

  /** The list the loop compares against is the candidates lower-cased, one by one. */
  lemma LoweredCandidatesAreLower()
    ensures |LoweredCandidates| == |SkuCandidates|
    ensures forall i :: 0 <= i < |SkuCandidates| ==> LoweredCandidates[i] == Lower(SkuCandidates[i])
  {
    assert Lower("sku") == "sku";
    assert Lower("SKU") == "sku";
    assert Lower("codigo") == "codigo";
    assert Lower("Código") == "código";
    assert Lower("codigo_produto") == "codigo_produto";
    assert Lower("codigo produto") == "codigo produto";
    assert Lower("id_produto") == "id_produto";
  }

  /** `c.strip().lower() in [p.lower() for p in possiveis_colunas_sku]`. */
  predicate IsSkuName(c: string)
  {
    Lower(Trim(c)) in LoweredCandidates
  }

  function SkuName(): string -> bool
  {
    c => IsSkuName(c)
  }

  /**
   * The loop `for c in tiny.columns: if ...: col_sku_tiny = c; break`: the
   * first matching column, or None when no column matches. The name found is
   * never empty, so `if not col_sku_tiny` stops exactly when nothing matched.
   */
  method FindSkuColumn(columns: seq<string>) returns (col: Option<nat>)
    ensures col.Some? ==> FirstPassing(columns, SkuName(), col.value) && columns[col.value] != []
    ensures col.None? ==> NonePass(columns, SkuName())
  {
    col := None;
    for i := 0 to |columns|
      invariant col.None?
      invariant forall k :: 0 <= k < i ==> !IsSkuName(columns[k])
    {
      if IsSkuName(columns[i]) {
        col := Some(i);
        return;
      }
    }
  }

  /** `rename(columns={from: to})`: every column named `from` is named `to`. */
  function Renamed(header: seq<string>, from: string, to: string): (r: seq<string>)
    ensures |r| == |header|
    ensures forall i :: 0 <= i < |header| ==> r[i] == (if header[i] == from then to else header[i])
  {
    seq(|header|, i requires 0 <= i < |header| => if header[i] == from then to else header[i])
  }

  // ---------------------------------------------------------------- the left join

  /** The indices of the tiny columns other than the join key, in order. */
  function KeptColumns(th: seq<string>): (r: seq<nat>)
    ensures forall k :: 0 <= k < |r| ==> r[k] < |th| && th[r[k]] != "sku"
    ensures forall i :: 0 <= i < |th| && th[i] != "sku" ==> i in r
    decreases |th|
  {
    if th == [] then []
    else
      var init := KeptColumns(th[..|th| - 1]);
      if th[|th| - 1] == "sku" then init else init + [|th| - 1]
  }

  /** The market names in the joined table: the ones tiny shares, other than sku, get "_market". */
  function MarketHeader(mh: seq<string>, th: seq<string>): (r: seq<string>)
    ensures |r| == |mh|
    ensures forall i :: 0 <= i < |mh| ==> r[i] == (if mh[i] != "sku" && mh[i] in th then mh[i] + "_market" else mh[i])
  {
    seq(|mh|, i requires 0 <= i < |mh| => if mh[i] != "sku" && mh[i] in th then mh[i] + "_market" else mh[i])
  }

  /** The tiny names in the joined table: sku dropped, the ones market shares get "_tiny". */
  function TinyHeader(mh: seq<string>, th: seq<string>): (r: seq<string>)
    ensures |r| == |KeptColumns(th)|
    ensures forall k :: 0 <= k < |r| ==> r[k] == th[KeptColumns(th)[k]] || r[k] == th[KeptColumns(th)[k]] + "_tiny"
  {
    var kept := KeptColumns(th);
    seq(|kept|, k requires 0 <= k < |kept| => var c := th[kept[k]]; if c in mh then c + "_tiny" else c)
  }

  /** The header pd.merge(market, tiny, on="sku", how="left", suffixes=("_market", "_tiny")) produces. */
  function JoinHeader(mh: seq<string>, th: seq<string>): seq<string>
  {
    MarketHeader(mh, th) + TinyHeader(mh, th)
  }

  /** A tiny row's cells other than its sku, in the order of TinyHeader. */
  function TinyCells(th: seq<string>, row: seq<Option<string>>): (r: seq<Option<string>>)
    ensures |r| == |KeptColumns(th)|
  {
    var kept := KeptColumns(th);
    seq(|kept|, k requires 0 <= k < |kept| => CellAt(row, kept[k]))
  }

  /** The tiny rows whose sku equals `key`, in tiny's order. */
  function Matching(th: seq<string>, trows: seq<seq<Option<string>>>, key: Option<string>): (r: seq<seq<Option<string>>>)
    ensures |r| <= |trows|
    ensures forall k :: 0 <= k < |r| ==> r[k] in trows && CellOf(th, r[k], "sku") == key
    decreases |trows|
  {
    if trows == [] then []
    else
      var init := Matching(th, trows[..|trows| - 1], key);
      var t := trows[|trows| - 1];
      if CellOf(th, t, "sku") == key then init + [t] else init
  }

  /** How many joined rows one market row of sku `key` becomes: its tiny matches, or one row when there is none. */
  function Weight(th: seq<string>, trows: seq<seq<Option<string>>>, key: Option<string>): nat
  {
    var n := |Matching(th, trows, key)|;
    if n == 0 then 1 else n
  }

  /**
   * The joined rows of one market row: the row followed by the cells of
   * each matching tiny row in turn, or by empty cells when none matches.
   */
  function RowsFor(mh: seq<string>, th: seq<string>, trows: seq<seq<Option<string>>>, mrow: seq<Option<string>>): (r: seq<seq<Option<string>>>)
    ensures |r| == Weight(th, trows, CellOf(mh, mrow, "sku")) && |r| >= 1
    ensures forall k :: 0 <= k < |r| ==> |r[k]| == |mrow| + |KeptColumns(th)| && r[k][..|mrow|] == mrow
  {
    var ms := Matching(th, trows, CellOf(mh, mrow, "sku"));
    if ms == [] then
      var x := mrow + Nones(|KeptColumns(th)|);
      assert x[..|mrow|] == mrow;
      [x]
    else
      var r := seq(|ms|, k requires 0 <= k < |ms| => mrow + TinyCells(th, ms[k]));
      assert forall k :: 0 <= k < |ms| ==> r[k][..|mrow|] == mrow;
      r
  }

  /** The rows of the left join: each market row in order, expanded by its matches. */
  function JoinRows(mh: seq<string>, th: seq<string>, trows: seq<seq<Option<string>>>, mrows: seq<seq<Option<string>>>): (r: seq<seq<Option<string>>>)
    ensures |r| >= |mrows|
    decreases |mrows|
  {
    if mrows == [] then []
    else JoinRows(mh, th, trows, mrows[..|mrows| - 1]) + RowsFor(mh, th, trows, mrows[|mrows| - 1])
  }

  function LeftJoin(m: Sheet, t: Sheet): Sheet
  {
    Sheet(JoinHeader(m.header, t.header), JoinRows(m.header, t.header, t.rows, m.rows))
  }

  /** `row` begins with the cells of `mrow`. */
  predicate Extends(row: seq<Option<string>>, mrow: seq<Option<string>>)
  {
    |mrow| <= |row| && row[..|mrow|] == mrow
  }

  /** The left join keeps every market row: each one begins at least one joined row. */
  lemma {:induction false} JoinKeepsMarketRows(mh: seq<string>, th: seq<string>, trows: seq<seq<Option<string>>>, mrows: seq<seq<Option<string>>>)
    ensures forall i :: 0 <= i < |mrows| ==>
      exists k :: 0 <= k < |JoinRows(mh, th, trows, mrows)| && Extends(JoinRows(mh, th, trows, mrows)[k], mrows[i])
    decreases |mrows|
  {
    if mrows != [] {
      var init, last := mrows[..|mrows| - 1], mrows[|mrows| - 1];
      JoinKeepsMarketRows(mh, th, trows, init);
      var a, b := JoinRows(mh, th, trows, init), RowsFor(mh, th, trows, last);
      var r := a + b;
      assert r == JoinRows(mh, th, trows, mrows);
      forall i | 0 <= i < |mrows| ensures exists k :: 0 <= k < |r| && Extends(r[k], mrows[i]) {
        if i < |init| {
          assert mrows[i] == init[i];
          var k :| 0 <= k < |a| && Extends(a[k], init[i]);
          assert r[k] == a[k];
        } else {
          assert Extends(b[0], last);
          assert r[|a|] == b[0];
        }
      }
    }
  }

  /** Every joined row begins with a market row: the join adds no row of its own. */
  lemma {:induction false} JoinRowsFromMarket(mh: seq<string>, th: seq<string>, trows: seq<seq<Option<string>>>, mrows: seq<seq<Option<string>>>)
    ensures forall k :: 0 <= k < |JoinRows(mh, th, trows, mrows)| ==>
      exists i :: 0 <= i < |mrows| && Extends(JoinRows(mh, th, trows, mrows)[k], mrows[i])
    decreases |mrows|
  {
    if mrows != [] {
      var init, last := mrows[..|mrows| - 1], mrows[|mrows| - 1];
      JoinRowsFromMarket(mh, th, trows, init);
      var a, b := JoinRows(mh, th, trows, init), RowsFor(mh, th, trows, last);
      var r := a + b;
      assert r == JoinRows(mh, th, trows, mrows);
      forall k | 0 <= k < |r| ensures exists i :: 0 <= i < |mrows| && Extends(r[k], mrows[i]) {
        if k < |a| {
          assert r[k] == a[k];
          var i :| 0 <= i < |init| && Extends(a[k], init[i]);
          assert mrows[i] == init[i];
        } else {
          assert r[k] == b[k - |a|];
          assert Extends(b[k - |a|], last);
          assert Extends(r[k], mrows[|mrows| - 1]);
        }
      }
    } else {
      assert JoinRows(mh, th, trows, mrows) == [];
    }
  }

  // ---------------------------------------------------------------- columns assigned on merged

  /** `fillna(0)` on one cell. */
  function FillZero(c: Option<string>): (r: Option<string>)
    ensures r.Some? && (c.Some? ==> r == c)
  {
    if c.None? then Some("0") else c
  }

  /** `df[name] = cells`: the existing column overwritten, or a new column appended. */
  function SetColumn(s: Sheet, name: string, cells: seq<Option<string>>): (r: Sheet)
    requires |cells| == |s.rows|
    ensures |r.rows| == |s.rows| && s.header <= r.header
  {
    match FirstIndex(s.header, NameIs(name))
    case Some(j) => Sheet(s.header, seq(|s.rows|, i requires 0 <= i < |s.rows| => MapCell(s.rows[i], j, _ => cells[i])))
    case None => Sheet(s.header + [name], seq(|s.rows|, i requires 0 <= i < |s.rows| => s.rows[i] + [cells[i]]))
  }

  /** The column `from`, NaN read as 0. */
  function FilledCells(s: Sheet, from: string): (r: seq<Option<string>>)
    ensures |r| == |s.rows|
  {
    seq(|s.rows|, i requires 0 <= i < |s.rows| => FillZero(CellOf(s.header, s.rows[i], from)))
  }

  /** `if from in merged.columns: merged[to] = merged[from].fillna(0)`. */
  function Filled(s: Sheet, from: string, to: string): (r: Sheet)
    ensures |r.rows| == |s.rows| && s.header <= r.header
  {
    if from in s.header then SetColumn(s, to, FilledCells(s, from)) else s
  }

  /** The assigned column reads back as the source column with NaN set to 0, on every row. */
  lemma FilledReadsBack(s: Sheet, from: string, to: string)
    requires WellFormed(s) && from in s.header
    ensures forall i :: 0 <= i < |s.rows| ==>
      CellOf(Filled(s, from, to).header, Filled(s, from, to).rows[i], to) == FillZero(CellOf(s.header, s.rows[i], from))
  {
    var r := Filled(s, from, to);
    var cells := FilledCells(s, from);
    match FirstIndex(s.header, NameIs(to))
    case Some(j) =>
      forall i | 0 <= i < |s.rows| ensures CellOf(r.header, r.rows[i], to) == cells[i] {
        assert r.rows[i] == MapCell(s.rows[i], j, _ => cells[i]);
      }
    case None =>
      FirstIndexAt(s.header + [to], NameIs(to), |s.header|);
      forall i | 0 <= i < |s.rows| ensures CellOf(r.header, r.rows[i], to) == cells[i] {
        assert r.rows[i] == s.rows[i] + [cells[i]];
      }
  }

  /** Assigning a column leaves every other column's cells, and the table's shape, as they were. */
  lemma FilledKeeps(s: Sheet, from: string, to: string, name: string)
    requires WellFormed(s) && name != to
    ensures WellFormed(Filled(s, from, to))
    ensures forall i :: 0 <= i < |s.rows| ==>
      CellOf(Filled(s, from, to).header, Filled(s, from, to).rows[i], name) == CellOf(s.header, s.rows[i], name)
  {
    var r := Filled(s, from, to);
    if from in s.header {
      var cells := FilledCells(s, from);
      match FirstIndex(s.header, NameIs(to))
      case Some(j) =>
        forall i | 0 <= i < |s.rows| ensures CellOf(r.header, r.rows[i], name) == CellOf(s.header, s.rows[i], name) {
          assert r.rows[i] == MapCell(s.rows[i], j, _ => cells[i]);
          match FirstIndex(s.header, NameIs(name))
          case None =>
          case Some(n) => assert n != j;
        }
      case None =>
        FirstIndexExtend(s.header, to, name);
        forall i | 0 <= i < |s.rows| ensures CellOf(r.header, r.rows[i], name) == CellOf(s.header, s.rows[i], name) {
          assert r.rows[i] == s.rows[i] + [cells[i]];
        }
    }
  }

  /** Appending a column named `to` does not move the first column of any other name. */
  lemma FirstIndexExtend(header: seq<string>, to: string, name: string)
    requires name != to
    ensures FirstIndex(header + [to], NameIs(name)) == FirstIndex(header, NameIs(name))
  {
    match FirstIndex(header, NameIs(name))
    case Some(j) => FirstIndexAt(header + [to], NameIs(name), j);
    case None => FirstIndexNone(header + [to], NameIs(name));
  }

  // ---------------------------------------------------------------- revenue per sku

  /** The sum, over the rows whose key is `key`, of their amounts: `groupby(key)[value].sum()` for one group. */
  function TotalBy(rows: seq<seq<Option<string>>>, kf: seq<Option<string>> -> Option<string>, vf: seq<Option<string>> -> real, key: Option<string>): real
    decreases |rows|
  {
    if rows == [] then 0.0
    else
      var last := rows[|rows| - 1];
      TotalBy(rows[..|rows| - 1], kf, vf, key) + (if kf(last) == key then vf(last) else 0.0)
  }

  /** A column's cell, by name. */
  function ColumnOf(header: seq<string>, name: string): seq<Option<string>> -> Option<string>
  {
    row => CellOf(header, row, name)
  }

  /** A column's amount, by name: NaN is skipped by sum(), so counts as 0. */
  function AmountOf(header: seq<string>, name: string): seq<Option<string>> -> real
  {
    row => NumericOrZero(CellOf(header, row, name))
  }

  function At(j: nat): seq<Option<string>> -> Option<string>
  {
    row => CellAt(row, j)
  }

  /** A column's amount, by position, as `amount` reads a cell. */
  function AmountAt(j: nat, amount: Option<string> -> real): seq<Option<string>> -> real
  {
    row => amount(CellAt(row, j))
  }

  /**
   * faturamento_total_canais as written: for each row, the sum of
   * valor_total_market over all rows of the joined table with its sku
   * (None for a row with no sku, which groupby leaves out).
   */
  function Faturamento(s: Sheet): (r: seq<Option<real>>)
    ensures |r| == |s.rows|
    ensures forall k :: 0 <= k < |s.rows| ==> (r[k].Some? <==> CellOf(s.header, s.rows[k], "sku").Some?)
  {
    seq(|s.rows|, k requires 0 <= k < |s.rows| =>
      var key := CellOf(s.header, s.rows[k], "sku");
      if key.None? then None
      else Some(TotalBy(s.rows, ColumnOf(s.header, "sku"), AmountOf(s.header, "valor_total_market"), key)))
  }

  lemma {:induction false} TotalByAppend(a: seq<seq<Option<string>>>, b: seq<seq<Option<string>>>,
                                          kf: seq<Option<string>> -> Option<string>, vf: seq<Option<string>> -> real, key: Option<string>)
    ensures TotalBy(a + b, kf, vf, key) == TotalBy(a, kf, vf, key) + TotalBy(b, kf, vf, key)
    decreases |b|
  {
    if b == [] {
      assert a + b == a;
    } else {
      var init := b[..|b| - 1];
      assert (a + b)[..|a + b| - 1] == a + init;
      TotalByAppend(a, init, kf, vf, key);
    }
  }

  /** Sums over two tables agree when their rows agree, one by one, on key and amount. */
  lemma {:induction false} TotalByCongruent(r1: seq<seq<Option<string>>>, kf1: seq<Option<string>> -> Option<string>, vf1: seq<Option<string>> -> real,
                                             r2: seq<seq<Option<string>>>, kf2: seq<Option<string>> -> Option<string>, vf2: seq<Option<string>> -> real,
                                             key: Option<string>)
    requires |r1| == |r2|
    requires forall i :: 0 <= i < |r1| ==> kf1(r1[i]) == kf2(r2[i]) && vf1(r1[i]) == vf2(r2[i])
    ensures TotalBy(r1, kf1, vf1, key) == TotalBy(r2, kf2, vf2, key)
    decreases |r1|
  {
    if r1 != [] {
      TotalByCongruent(r1[..|r1| - 1], kf1, vf1, r2[..|r2| - 1], kf2, vf2, key);
    }
  }

  /** `n` copies of `v` added up: n·v, without multiplication. */
  function Times(n: nat, v: real): (r: real)
  {
    if n == 0 then 0.0 else Times(n - 1, v) + v
  }

  lemma {:induction false} TimesPlus(n: nat, x: real, v: real)
    ensures Times(n, x + v) == Times(n, x) + Times(n, v)
  {
    if n > 0 {
      TimesPlus(n - 1, x, v);
    }
  }

  /** The arithmetic of one step of JoinTotal. */
  lemma SumStep(j: real, ta: real, tb: real, w: nat, x: real, v: real, t: real)
    requires j == ta + tb && ta == Times(w, x) && tb == Times(w, v) && t == x + v
    ensures j == Times(w, t)
  {
    TimesPlus(w, x, v);
  }

  lemma {:induction false} TimesZero(n: nat)
    ensures Times(n, 0.0) == 0.0
  {
    if n > 0 {
      TimesZero(n - 1);
    }
  }

  /** Times is multiplication. */
  lemma {:induction false} TimesIsProduct(n: nat, v: real)
    ensures Times(n, v) == n as real * v
  {
    if n > 0 {
      TimesIsProduct(n - 1, v);
      assert (n - 1) as real * v + v == n as real * v;
    }
  }

  /** Rows that all carry the same key and amount sum to that amount times their number, in that key's group. */
  lemma {:induction false} TotalByUniform(rows: seq<seq<Option<string>>>, kf: seq<Option<string>> -> Option<string>, vf: seq<Option<string>> -> real,
                                           key: Option<string>, x: Option<string>, v: real)
    requires forall i :: 0 <= i < |rows| ==> kf(rows[i]) == x && vf(rows[i]) == v
    ensures TotalBy(rows, kf, vf, key) == if x == key then Times(|rows|, v) else 0.0
    decreases |rows|
  {
    if rows != [] {
      TotalByUniform(rows[..|rows| - 1], kf, vf, key, x, v);
    }
  }

  /** Rows that all begin with `mrow` count its amount once each in its sku's group. */
  lemma ExtendsTotal(rows: seq<seq<Option<string>>>, mrow: seq<Option<string>>, jm: nat, jv: nat, amount: Option<string> -> real, key: Option<string>)
    requires jm < |mrow| && jv < |mrow|
    requires forall i :: 0 <= i < |rows| ==> Extends(rows[i], mrow)
    ensures TotalBy(rows, At(jm), AmountAt(jv, amount), key) ==
            if CellAt(mrow, jm) == key then Times(|rows|, amount(CellAt(mrow, jv))) else 0.0
  {
    ExtendsAgree(rows, mrow, jm, jv, amount);
    TotalByUniform(rows, At(jm), AmountAt(jv, amount), key, CellAt(mrow, jm), amount(CellAt(mrow, jv)));
  }

  /** Rows that begin with `mrow` have its cells in its columns. */
  lemma ExtendsAgree(rows: seq<seq<Option<string>>>, mrow: seq<Option<string>>, jm: nat, jv: nat, amount: Option<string> -> real)
    requires jm < |mrow| && jv < |mrow|
    requires forall i :: 0 <= i < |rows| ==> Extends(rows[i], mrow)
    ensures forall i :: 0 <= i < |rows| ==> At(jm)(rows[i]) == CellAt(mrow, jm) && AmountAt(jv, amount)(rows[i]) == amount(CellAt(mrow, jv))
  {
    forall i | 0 <= i < |rows| ensures CellAt(rows[i], jm) == CellAt(mrow, jm) && CellAt(rows[i], jv) == CellAt(mrow, jv) {
      assert rows[i][jm] == rows[i][..|mrow|][jm];
      assert rows[i][jv] == rows[i][..|mrow|][jv];
    }
  }

  /** The joined rows of one market row add its amount to its sku's group once per row. */
  lemma RowsForTotal(mh: seq<string>, th: seq<string>, trows: seq<seq<Option<string>>>, mrow: seq<Option<string>>,
                     jm: nat, jv: nat, amount: Option<string> -> real, key: Option<string>)
    requires FirstIndex(mh, NameIs("sku")) == Some(jm) && jv < |mh| && |mrow| == |mh|
    ensures TotalBy(RowsFor(mh, th, trows, mrow), At(jm), AmountAt(jv, amount), key) ==
            if CellAt(mrow, jm) == key then Times(Weight(th, trows, key), amount(CellAt(mrow, jv))) else 0.0
  {
    var b := RowsFor(mh, th, trows, mrow);
    assert CellOf(mh, mrow, "sku") == CellAt(mrow, jm);
    assert forall i :: 0 <= i < |b| ==> Extends(b[i], mrow);
    CountedTotal(b, mrow, jm, jv, amount, key, Weight(th, trows, CellAt(mrow, jm)));
  }

  /** ExtendsTotal, with the number of rows given. */
  lemma CountedTotal(rows: seq<seq<Option<string>>>, mrow: seq<Option<string>>, jm: nat, jv: nat, amount: Option<string> -> real,
                     key: Option<string>, n: nat)
    requires jm < |mrow| && jv < |mrow| && |rows| == n
    requires forall i :: 0 <= i < |rows| ==> Extends(rows[i], mrow)
    ensures TotalBy(rows, At(jm), AmountAt(jv, amount), key) ==
            if CellAt(mrow, jm) == key then Times(n, amount(CellAt(mrow, jv))) else 0.0
  {
    ExtendsTotal(rows, mrow, jm, jv, amount, key);
  }

  /**
   * In the joined rows, a sku's revenue is its market revenue counted once
   * per tiny row of that sku (once when tiny has none).
   */
  lemma {:induction false} JoinTotal(mh: seq<string>, th: seq<string>, trows: seq<seq<Option<string>>>, mrows: seq<seq<Option<string>>>,
                                      jm: nat, jv: nat, amount: Option<string> -> real, key: Option<string>)
    requires FirstIndex(mh, NameIs("sku")) == Some(jm) && jv < |mh|
    requires forall i :: 0 <= i < |mrows| ==> |mrows[i]| == |mh|
    ensures TotalBy(JoinRows(mh, th, trows, mrows), At(jm), AmountAt(jv, amount), key) ==
            Times(Weight(th, trows, key), TotalBy(mrows, At(jm), AmountAt(jv, amount), key))
    decreases |mrows|
  {
    if mrows != [] {
      var init, last := mrows[..|mrows| - 1], mrows[|mrows| - 1];
      var w := Weight(th, trows, key);
      var a, b := JoinRows(mh, th, trows, init), RowsFor(mh, th, trows, last);
      assert JoinRows(mh, th, trows, mrows) == a + b;
      JoinTotal(mh, th, trows, init, jm, jv, amount, key);
      TotalByAppend(a, b, At(jm), AmountAt(jv, amount), key);
      RowsForTotal(mh, th, trows, last, jm, jv, amount, key);
      var x := TotalBy(init, At(jm), AmountAt(jv, amount), key);
      var v := if CellAt(last, jm) == key then amount(CellAt(last, jv)) else 0.0;
      assert TotalBy(mrows, At(jm), AmountAt(jv, amount), key) == x + v;
      TimesPlus(w, x, v);
      if CellAt(last, jm) != key {
        TimesZero(w);
      }
      assert TotalBy(b, At(jm), AmountAt(jv, amount), key) == Times(w, v);
      SumStep(TotalBy(a + b, At(jm), AmountAt(jv, amount), key), TotalBy(a, At(jm), AmountAt(jv, amount), key),
              TotalBy(b, At(jm), AmountAt(jv, amount), key), w, x, v, TotalBy(mrows, At(jm), AmountAt(jv, amount), key));
    } else {
      TimesZero(Weight(th, trows, key));
    }
  }

  /** The join puts the market columns first, so their names are found where they were. */
  lemma JoinHeaderSku(mh: seq<string>, th: seq<string>, jm: nat)
    requires FirstIndex(mh, NameIs("sku")) == Some(jm)
    ensures FirstIndex(JoinHeader(mh, th), NameIs("sku")) == Some(jm)
  {
    var h := JoinHeader(mh, th);
    forall k | 0 <= k < jm ensures h[k] != "sku" {
      assert h[k] == MarketHeader(mh, th)[k];
      if mh[k] != "sku" && mh[k] in th {
        assert |h[k]| == |mh[k]| + 7;
      }
    }
    assert h[jm] == MarketHeader(mh, th)[jm];
    FirstIndexAt(h, NameIs("sku"), jm);
  }

  /** `x + suffix` names only the column `x`. */
  lemma SuffixInjective(x: string, y: string, suffix: string)
    requires x + suffix == y + suffix
    ensures x == y
  {
    assert x == (x + suffix)[..|x|];
  }

  /** A market column tiny shares is found, suffixed, where it was. */
  lemma JoinHeaderShared(mh: seq<string>, th: seq<string>, base: string, j: nat)
    requires FirstIndex(mh, NameIs(base)) == Some(j) && base in th && base != "sku"
    requires base + "_market" !in mh
    ensures FirstIndex(JoinHeader(mh, th), NameIs(base + "_market")) == Some(j)
  {
    var h, name := JoinHeader(mh, th), base + "_market";
    forall k | 0 <= k < j ensures h[k] != name {
      assert h[k] == MarketHeader(mh, th)[k];
      if h[k] == name && mh[k] != "sku" && mh[k] in th {
        SuffixInjective(mh[k], base, "_market");
      }
    }
    assert h[j] == MarketHeader(mh, th)[j];
    FirstIndexAt(h, NameIs(name), j);
  }

  /**
   * A suffixed market name is in the joined header exactly when both tables
   * have the column (when neither already has the suffixed name).
   */
  lemma SharedColumnPresent(mh: seq<string>, th: seq<string>, base: string)
    requires base != "sku" && base + "_market" !in mh && base + "_market" !in th
    ensures base + "_market" in JoinHeader(mh, th) <==> base in mh && base in th
  {
    var h, name := JoinHeader(mh, th), base + "_market";
    if base in mh && base in th {
      var j :| 0 <= j < |mh| && mh[j] == base;
      assert h[j] == MarketHeader(mh, th)[j];
    }
    if name in h {
      TinyNamesNotMarket(mh, th, base);
      var k :| 0 <= k < |h| && h[k] == name;
      assert k < |mh|;
      assert h[k] == MarketHeader(mh, th)[k];
      if mh[k] != "sku" && mh[k] in th {
        SuffixInjective(mh[k], base, "_market");
      }
    }
  }

  /** No tiny name of the joined header is `base + "_market"` when tiny itself has no such column. */
  lemma TinyNamesNotMarket(mh: seq<string>, th: seq<string>, base: string)
    requires base + "_market" !in th
    ensures forall k :: |mh| <= k < |JoinHeader(mh, th)| ==> JoinHeader(mh, th)[k] != base + "_market"
  {
    var h, name := JoinHeader(mh, th), base + "_market";
    assert name[|name| - 1] == 't';
    forall k | |mh| <= k < |h| ensures h[k] != name {
      var c := th[KeptColumns(th)[k - |mh|]];
      assert h[k] == TinyHeader(mh, th)[k - |mh|];
      assert (c + "_tiny")[|c + "_tiny"| - 1] == 'y';
    }
  }

  /** receita_total and faturamento_total_canais exist exactly when both tables have valor_total. */
  lemma MarketValorColumn(mh: seq<string>, th: seq<string>)
    requires "valor_total_market" !in mh && "valor_total_market" !in th
    ensures "valor_total_market" in JoinHeader(mh, th) <==> "valor_total" in mh && "valor_total" in th
  {
    ValorMarketName();
    SharedColumnPresent(mh, th, "valor_total");
  }

  /** The name pandas gives market's valor_total when tiny has one too. */
  lemma ValorMarketName()
    ensures "valor_total" + "_market" == "valor_total_market"
  {
  }

  // ---------------------------------------------------------------- the script

  /** The tiny table after `rename(columns={col_sku_tiny: "sku"})` and the sku normalisation. */
  function PreparedTiny(tiny: Sheet, j: nat): Sheet
    requires j < |tiny.header|
  {
    var th := Renamed(tiny.header, tiny.header[j], "sku");
    Sheet(th, SkuMapped(th, tiny.rows, NormalisedSkuCell))
  }

  /** The market table after the sku normalisation. */
  function PreparedMarket(market: Sheet): Sheet
  {
    Sheet(market.header, SkuMapped(market.header, market.rows, NormalisedSkuCell))
  }

  /** The joined table the script writes, and the faturamento_total_canais column when it is created. */
  datatype Consolidated = Consolidated(table: Sheet, faturamento: Option<seq<Option<real>>>)

  /** The joined table with receita_total and receita_tiny, and faturamento_total_canais. */
  function Finish(joined: Sheet): Consolidated
  {
    var s := Filled(Filled(joined, "valor_total_market", "receita_total"), "valor_total_tiny", "receita_tiny");
    Consolidated(s, if "valor_total_market" in s.header then Some(Faturamento(s)) else None)
  }

  /**
   * The whole script: the consolidated table, or the stop before merging
   * (no tiny column is a SKU candidate; market has no sku column, where
   * `market["sku"]` raises KeyError).
   */
  function Consolidate(tiny: Sheet, market: Sheet): (r: Result<Consolidated>)
    ensures r.Failure? <==> NonePass(tiny.header, SkuName()) || "sku" !in market.header
    ensures r.Success? ==> |r.value.table.rows| >= |market.rows|
  {
    match FirstIndex(tiny.header, SkuName())
    case None => Failure("no SKU column in tiny")
    case Some(j) =>
      if "sku" !in market.header then Failure("KeyError: 'sku'")
      else Success(Finish(LeftJoin(PreparedMarket(market), PreparedTiny(tiny, j))))
  }

  /** A table the script updates in place. */
  class Frame {
    var header: seq<string>
    var rows: seq<seq<Option<string>>>

    function Snapshot(): Sheet
      reads this
    {
      Sheet(header, rows)
    }

    constructor (s: Sheet)
      ensures Snapshot() == s
    {
      header, rows := s.header, s.rows;
    }

    /** `rename(columns={from: to}, inplace=True)`. */
    method Rename(from: string, to: string)
      modifies this
      ensures header == Renamed(old(header), from, to) && rows == old(rows)
    {
      header := Renamed(header, from, to);
    }

    /**
     * `df["sku"] = df["sku"].astype(str).str.strip().str.upper()`; false,
     * with nothing changed, when there is no sku column (KeyError).
     */
    method NormaliseSkuColumn() returns (ok: bool)
      modifies this
      ensures ok <==> "sku" in old(header)
      ensures header == old(header)
      ensures ok ==> rows == SkuMapped(old(header), old(rows), NormalisedSkuCell)
      ensures !ok ==> rows == old(rows)
    {
      ok := "sku" in header;
      if ok {
        rows := SkuMapped(header, rows, NormalisedSkuCell);
      }
    }

    /** `if source in df.columns: df[target] = df[source].fillna(0)`. */
    method FillFrom(source: string, target: string)
      modifies this
      ensures Snapshot() == Filled(old(Snapshot()), source, target)
    {
      var s := Snapshot();
      var f := Filled(s, source, target);
      header, rows := f.header, f.rows;
    }
  }

  /** The script's steps in order, on tables updated in place. */
  method Run(tiny: Sheet, market: Sheet) returns (r: Result<Consolidated>)
    ensures r == Consolidate(tiny, market)
  {
    var col := FindSkuColumn(tiny.header);
    if col.None? {
      FirstIndexNone(tiny.header, SkuName());
      return Failure("no SKU column in tiny");
    }
    FirstIndexAt(tiny.header, SkuName(), col.value);
    var t := new Frame(tiny);
    t.Rename(tiny.header[col.value], "sku");
    var okTiny := t.NormaliseSkuColumn();
    var m := new Frame(market);
    var okMarket := m.NormaliseSkuColumn();
    if !okMarket {
      return Failure("KeyError: 'sku'");
    }
    assert t.Snapshot() == PreparedTiny(tiny, col.value);
    var merged := new Frame(LeftJoin(m.Snapshot(), t.Snapshot()));
    merged.FillFrom("valor_total_market", "receita_total");
    merged.FillFrom("valor_total_tiny", "receita_tiny");
    var faturamento: Option<seq<Option<real>>> := None;
    if "valor_total_market" in merged.header {
      faturamento := Some(Faturamento(merged.Snapshot()));
    }
    r := Success(Consolidated(merged.Snapshot(), faturamento));
  }

  // ---------------------------------------------------------------- faturamento_total_canais, as written and as intended

  /** A sku's revenue in the marketplace table alone: `market.groupby("sku")["valor_total"].sum()` for one group. */
  function MarketRevenue(m: Sheet, key: Option<string>): real
  {
    TotalBy(m.rows, ColumnOf(m.header, "sku"), AmountOf(m.header, "valor_total"), key)
  }

  /** The joined rows are as wide as the joined header. */
  lemma {:induction false} JoinRowsWidth(mh: seq<string>, th: seq<string>, trows: seq<seq<Option<string>>>, mrows: seq<seq<Option<string>>>)
    requires forall i :: 0 <= i < |mrows| ==> |mrows[i]| == |mh|
    ensures forall k :: 0 <= k < |JoinRows(mh, th, trows, mrows)| ==> |JoinRows(mh, th, trows, mrows)[k]| == |mh| + |KeptColumns(th)|
    decreases |mrows|
  {
    if mrows != [] {
      var init, last := mrows[..|mrows| - 1], mrows[|mrows| - 1];
      JoinRowsWidth(mh, th, trows, init);
      var a, b := JoinRows(mh, th, trows, init), RowsFor(mh, th, trows, last);
      assert JoinRows(mh, th, trows, mrows) == a + b;
    } else {
      assert JoinRows(mh, th, trows, mrows) == [];
    }
  }

  lemma JoinWellFormed(m: Sheet, t: Sheet)
    requires WellFormed(m)
    ensures WellFormed(LeftJoin(m, t))
  {
    JoinRowsWidth(m.header, t.header, t.rows, m.rows);
  }

  /** The sku normalisation keeps every row as wide as it was. */
  lemma PreparedWellFormed(market: Sheet)
    requires WellFormed(market)
    ensures WellFormed(PreparedMarket(market))
  {
  }

  /** "valor_total" is not a name the sku search accepts. */
  lemma ValorTotalNotSku()
    ensures !IsSkuName("valor_total")
  {
    TrimUntouched("valor_total");
    assert |Lower("valor_total")| == 11;
  }

  /** Renaming the sku column of tiny keeps its valor_total column and adds no valor_total_market. */
  lemma TinyKeepsValorTotal(tiny: Sheet, j: nat)
    requires FirstIndex(tiny.header, SkuName()) == Some(j)
    requires "valor_total" in tiny.header && "valor_total_market" !in tiny.header
    ensures "valor_total" in PreparedTiny(tiny, j).header && "valor_total_market" !in PreparedTiny(tiny, j).header
  {
    var th := Renamed(tiny.header, tiny.header[j], "sku");
    assert SkuName()(tiny.header[j]);
    ValorTotalNotSku();
    var i :| 0 <= i < |tiny.header| && tiny.header[i] == "valor_total";
    assert th[i] == "valor_total";
  }

  /**
   * With valor_total in both tables, the joined table has sku where market has
   * it and valor_total_market where market has valor_total.
   */
  lemma JoinedColumns(tiny: Sheet, market: Sheet, j: nat, jm: nat, jv: nat)
    requires FirstIndex(tiny.header, SkuName()) == Some(j)
    requires FirstIndex(market.header, NameIs("sku")) == Some(jm) && FirstIndex(market.header, NameIs("valor_total")) == Some(jv)
    requires "valor_total" in tiny.header
    requires "valor_total_market" !in market.header && "valor_total_market" !in tiny.header
    ensures var h := LeftJoin(PreparedMarket(market), PreparedTiny(tiny, j)).header;
      FirstIndex(h, NameIs("sku")) == Some(jm) && FirstIndex(h, NameIs("valor_total_market")) == Some(jv)
  {
    var mh, th := market.header, PreparedTiny(tiny, j).header;
    TinyKeepsValorTotal(tiny, j);
    ValorMarketName();
    JoinHeaderSku(mh, th, jm);
    JoinHeaderShared(mh, th, "valor_total", jv);
  }

  /** receita_total and receita_tiny leave the sku and valor_total_market cells as they were. */
  lemma FinishedColumns(joined: Sheet, jm: nat, jv: nat)
    requires WellFormed(joined)
    requires FirstIndex(joined.header, NameIs("sku")) == Some(jm) && FirstIndex(joined.header, NameIs("valor_total_market")) == Some(jv)
    ensures var s := Finish(joined).table;
      |s.rows| == |joined.rows| && "valor_total_market" in s.header &&
      forall i :: 0 <= i < |s.rows| ==>
        CellOf(s.header, s.rows[i], "sku") == CellAt(joined.rows[i], jm) &&
        CellOf(s.header, s.rows[i], "valor_total_market") == CellAt(joined.rows[i], jv)
  {
    var s1 := Filled(joined, "valor_total_market", "receita_total");
    FilledKeeps(joined, "valor_total_market", "receita_total", "sku");
    FilledKeeps(joined, "valor_total_market", "receita_total", "valor_total_market");
    FilledKeeps(s1, "valor_total_tiny", "receita_tiny", "sku");
    FilledKeeps(s1, "valor_total_tiny", "receita_tiny", "valor_total_market");
    var s := Filled(s1, "valor_total_tiny", "receita_tiny");
    assert s.header[jv] == joined.header[jv];
  }

  /** The consolidated table has the joined rows, with the sku where the marketplace table had it. */
  lemma ConsolidatedRows(tiny: Sheet, market: Sheet, j: nat, jm: nat, jv: nat)
    requires FirstIndex(tiny.header, SkuName()) == Some(j) && WellFormed(market)
    requires FirstIndex(market.header, NameIs("sku")) == Some(jm) && FirstIndex(market.header, NameIs("valor_total")) == Some(jv)
    requires "valor_total" in tiny.header
    requires "valor_total_market" !in market.header && "valor_total_market" !in tiny.header
    ensures Consolidate(tiny, market).Success?
    ensures var s, joined := Consolidate(tiny, market).value.table, LeftJoin(PreparedMarket(market), PreparedTiny(tiny, j));
      |s.rows| == |joined.rows| && forall i :: 0 <= i < |s.rows| ==> CellOf(s.header, s.rows[i], "sku") == CellAt(joined.rows[i], jm)
  {
    var m, t := PreparedMarket(market), PreparedTiny(tiny, j);
    var joined := LeftJoin(m, t);
    assert Consolidate(tiny, market) == Success(Finish(joined));
    JoinedColumns(tiny, market, j, jm, jv);
    PreparedWellFormed(market);
    JoinWellFormed(m, t);
    FinishedColumns(joined, jm, jv);
  }

  /** In the finished table, a sku's valor_total_market sum is its marketplace revenue counted once per joined row. */
  lemma FinishedTotal(tiny: Sheet, market: Sheet, j: nat, jm: nat, jv: nat, key: Option<string>)
    requires FirstIndex(tiny.header, SkuName()) == Some(j) && WellFormed(market)
    requires FirstIndex(market.header, NameIs("sku")) == Some(jm) && FirstIndex(market.header, NameIs("valor_total")) == Some(jv)
    requires "valor_total" in tiny.header
    requires "valor_total_market" !in market.header && "valor_total_market" !in tiny.header
    ensures var s, t := Finish(LeftJoin(PreparedMarket(market), PreparedTiny(tiny, j))).table, PreparedTiny(tiny, j);
      TotalBy(s.rows, ColumnOf(s.header, "sku"), AmountOf(s.header, "valor_total_market"), key) ==
      Times(Weight(t.header, t.rows, key), MarketRevenue(PreparedMarket(market), key))
  {
    var m, t := PreparedMarket(market), PreparedTiny(tiny, j);
    var joined := LeftJoin(m, t);
    JoinedColumns(tiny, market, j, jm, jv);
    PreparedWellFormed(market);
    JoinWellFormed(m, t);
    FinishedSum(joined, jm, jv, key);
    JoinTotal(m.header, t.header, t.rows, m.rows, jm, jv, NumericOrZero, key);
    MarketSum(m, jm, jv, key);
  }

  /** The sums of the finished table are those of the joined one, read by position. */
  lemma FinishedSum(joined: Sheet, jm: nat, jv: nat, key: Option<string>)
    requires WellFormed(joined)
    requires FirstIndex(joined.header, NameIs("sku")) == Some(jm) && FirstIndex(joined.header, NameIs("valor_total_market")) == Some(jv)
    ensures var s := Finish(joined).table;
      TotalBy(s.rows, ColumnOf(s.header, "sku"), AmountOf(s.header, "valor_total_market"), key) ==
      TotalBy(joined.rows, At(jm), AmountAt(jv, NumericOrZero), key)
  {
    var s := Finish(joined).table;
    FinishedColumns(joined, jm, jv);
    TotalByCongruent(s.rows, ColumnOf(s.header, "sku"), AmountOf(s.header, "valor_total_market"),
                     joined.rows, At(jm), AmountAt(jv, NumericOrZero), key);
  }

  /** MarketRevenue, read by position. */
  lemma MarketSum(m: Sheet, jm: nat, jv: nat, key: Option<string>)
    requires FirstIndex(m.header, NameIs("sku")) == Some(jm) && FirstIndex(m.header, NameIs("valor_total")) == Some(jv)
    ensures TotalBy(m.rows, At(jm), AmountAt(jv, NumericOrZero), key) == MarketRevenue(m, key)
  {
    TotalByCongruent(m.rows, At(jm), AmountAt(jv, NumericOrZero), m.rows, ColumnOf(m.header, "sku"), AmountOf(m.header, "valor_total"), key);
  }

  /**
   * faturamento_total_canais as written: when both tables have valor_total,
   * each row gets its sku's marketplace revenue multiplied by the number of
   * Tiny rows with that sku (by one when there is none), because the sum runs
   * over the joined table, where each marketplace row is repeated once per match.
   */
  lemma FaturamentoInflated(tiny: Sheet, market: Sheet, j: nat)
    requires FirstIndex(tiny.header, SkuName()) == Some(j) && WellFormed(market)
    requires "sku" in market.header && "valor_total" in market.header && "valor_total" in tiny.header
    requires "valor_total_market" !in market.header && "valor_total_market" !in tiny.header
    ensures Consolidate(tiny, market).Success?
    ensures var c, t := Consolidate(tiny, market).value, PreparedTiny(tiny, j);
      c.faturamento.Some? && |c.faturamento.value| == |c.table.rows| &&
      forall k :: 0 <= k < |c.table.rows| ==>
        var key := CellOf(c.table.header, c.table.rows[k], "sku");
        c.faturamento.value[k] == if key.None? then None else Some(Times(Weight(t.header, t.rows, key), MarketRevenue(PreparedMarket(market), key)))
  {
    var jm :| FirstIndex(market.header, NameIs("sku")) == Some(jm);
    var jv :| FirstIndex(market.header, NameIs("valor_total")) == Some(jv);
    var m, t := PreparedMarket(market), PreparedTiny(tiny, j);
    var c := Finish(LeftJoin(m, t));
    assert Consolidate(tiny, market) == Success(c);
    FinishedFaturamento(tiny, market, j, jm, jv);
    forall k | 0 <= k < |c.table.rows|
      ensures var key := CellOf(c.table.header, c.table.rows[k], "sku");
        c.faturamento.value[k] == if key.None? then None else Some(Times(Weight(t.header, t.rows, key), MarketRevenue(m, key)))
    {
      FaturamentoAt(c.table, k);
      FinishedTotal(tiny, market, j, jm, jv, CellOf(c.table.header, c.table.rows[k], "sku"));
    }
  }

  /** With both valor_total columns, the finished table carries faturamento_total_canais. */
  lemma FinishedFaturamento(tiny: Sheet, market: Sheet, j: nat, jm: nat, jv: nat)
    requires FirstIndex(tiny.header, SkuName()) == Some(j) && WellFormed(market)
    requires FirstIndex(market.header, NameIs("sku")) == Some(jm) && FirstIndex(market.header, NameIs("valor_total")) == Some(jv)
    requires "valor_total" in tiny.header
    requires "valor_total_market" !in market.header && "valor_total_market" !in tiny.header
    ensures var c := Finish(LeftJoin(PreparedMarket(market), PreparedTiny(tiny, j)));
      c.faturamento == Some(Faturamento(c.table))
  {
    var m, t := PreparedMarket(market), PreparedTiny(tiny, j);
    var joined := LeftJoin(m, t);
    JoinedColumns(tiny, market, j, jm, jv);
    PreparedWellFormed(market);
    JoinWellFormed(m, t);
    FinishedColumns(joined, jm, jv);
  }

  /** Row `k` of faturamento_total_canais: the revenue summed over the rows with its sku, nothing for a row without one. */
  lemma FaturamentoAt(s: Sheet, k: nat)
    requires k < |s.rows|
    ensures var key := CellOf(s.header, s.rows[k], "sku");
      Faturamento(s)[k] == if key.None? then None else Some(TotalBy(s.rows, ColumnOf(s.header, "sku"), AmountOf(s.header, "valor_total_market"), key))
  {
  }

  /**
   * faturamento_total_canais as evidently intended: each row's sku revenue
   * summed over the marketplace table, before the merge repeats its rows.
   */
  function CorrectedFaturamento(m: Sheet, s: Sheet): (r: seq<Option<real>>)
    ensures |r| == |s.rows|
  {
    seq(|s.rows|, k requires 0 <= k < |s.rows| =>
      var key := CellOf(s.header, s.rows[k], "sku");
      if key.None? then None else Some(MarketRevenue(m, key)))
  }

  /** Finish, with the per-sku revenue taken from the marketplace table `m`. */
  function CorrectedFinish(m: Sheet, joined: Sheet): Consolidated
  {
    var s := Filled(Filled(joined, "valor_total_market", "receita_total"), "valor_total_tiny", "receita_tiny");
    Consolidated(s, if "valor_total_market" in s.header then Some(CorrectedFaturamento(m, s)) else None)
  }

  /** Consolidate with faturamento_total_canais counting each marketplace sale once. */
  function ConsolidateCorrected(tiny: Sheet, market: Sheet): (r: Result<Consolidated>)
    ensures r.Failure? <==> Consolidate(tiny, market).Failure?
    ensures r.Success? ==> r.value.table == Consolidate(tiny, market).value.table
  {
    match FirstIndex(tiny.header, SkuName())
    case None => Failure("no SKU column in tiny")
    case Some(j) =>
      if "sku" !in market.header then Failure("KeyError: 'sku'")
      else
        var m := PreparedMarket(market);
        Success(CorrectedFinish(m, LeftJoin(m, PreparedTiny(tiny, j))))
  }

  /** n copies of x add up to x exactly when n is 1 or x is 0. */
  lemma TimesOnce(n: nat, x: real)
    requires n >= 1
    ensures Times(n, x) == x <==> n == 1 || x == 0.0
  {
    TimesIsProduct(n, x);
    assert n as real * x - x == (n as real - 1.0) * x;
  }

  /**
   * The corrected column gives each row its sku's marketplace revenue, and
   * agrees with the column as written exactly on the rows whose sku has at
   * most one Tiny row (or no revenue).
   */
  lemma CorrectedCountsOnce(tiny: Sheet, market: Sheet, j: nat)
    requires FirstIndex(tiny.header, SkuName()) == Some(j) && WellFormed(market)
    requires "sku" in market.header && "valor_total" in market.header && "valor_total" in tiny.header
    requires "valor_total_market" !in market.header && "valor_total_market" !in tiny.header
    ensures Consolidate(tiny, market).Success? && ConsolidateCorrected(tiny, market).Success?
    ensures var c, d, t := Consolidate(tiny, market).value, ConsolidateCorrected(tiny, market).value, PreparedTiny(tiny, j);
      c.faturamento.Some? && d.faturamento.Some? && |d.faturamento.value| == |c.faturamento.value| == |c.table.rows| &&
      forall k :: 0 <= k < |c.table.rows| ==>
        var key := CellOf(c.table.header, c.table.rows[k], "sku");
        key.Some? ==>
          d.faturamento.value[k] == Some(MarketRevenue(PreparedMarket(market), key)) &&
          (d.faturamento.value[k] == c.faturamento.value[k] <==>
             |Matching(t.header, t.rows, key)| <= 1 || MarketRevenue(PreparedMarket(market), key) == 0.0)
  {
    FaturamentoInflated(tiny, market, j);
    var m, t := PreparedMarket(market), PreparedTiny(tiny, j);
    var c, d := Consolidate(tiny, market).value, ConsolidateCorrected(tiny, market).value;
    assert d == CorrectedFinish(m, LeftJoin(m, t));
    assert d.faturamento == Some(CorrectedFaturamento(m, c.table));
    forall k | 0 <= k < |c.table.rows| && CellOf(c.table.header, c.table.rows[k], "sku").Some?
      ensures var key := CellOf(c.table.header, c.table.rows[k], "sku");
        d.faturamento.value[k] == Some(MarketRevenue(m, key)) &&
        (d.faturamento.value[k] == c.faturamento.value[k] <==> |Matching(t.header, t.rows, key)| <= 1 || MarketRevenue(m, key) == 0.0)
    {
      var key := CellOf(c.table.header, c.table.rows[k], "sku");
      assert d.faturamento.value[k] == Some(MarketRevenue(m, key));
      TimesOnce(Weight(t.header, t.rows, key), MarketRevenue(m, key));
    }
  }

  // ---------------------------------------------------------------- one SKU sold once, with two Tiny rows

  const ExampleMarket: Sheet := Sheet(["sku", "valor_total"], [[Some("A"), Some("10")]])
  const ExampleTiny: Sheet := Sheet(["sku", "valor_total"], [[Some("A"), Some("4")], [Some("A"), Some("6")]])

  lemma ExampleSkuColumn()
    ensures FirstIndex(ExampleTiny.header, SkuName()) == Some(0)
  {
    TrimUntouched("sku");
    assert Lower("sku") == "sku";
    assert SkuName()(ExampleTiny.header[0]);
    FirstIndexAt(ExampleTiny.header, SkuName(), 0);
  }

  lemma ExampleSkuNormal()
    ensures NormaliseSku("A") == "A"
  {
    TrimUntouched("A");
    assert Upper("A") == "A";
  }

  lemma ExampleRevenueText()
    ensures NumericOrZero(Some("10")) == 10.0
  {
    SplitNoSep("10", '.');
    assert "10"[..1] == "1";
    assert DigitsValue("10") == 10;
    assert ParseUnsignedDecimal("10") == Some(10.0);
    ParseFloatOfDigits("10", 10.0);
  }

  /** The example tables after the sku normalisation are as given. */
  lemma ExamplePrepared()
    ensures PreparedMarket(ExampleMarket) == ExampleMarket
    ensures PreparedTiny(ExampleTiny, 0) == ExampleTiny
  {
    ExampleSkuNormal();
    FirstIndexAt(ExampleMarket.header, NameIs("sku"), 0);
    assert Renamed(ExampleTiny.header, "sku", "sku") == ExampleTiny.header;
    assert NormalisedSkuCell(Some("A")) == Some("A");
    var mr, tr := ExampleMarket.rows, ExampleTiny.rows;
    assert MapCell(mr[0], 0, NormalisedSkuCell) == mr[0];
    assert MapCell(tr[0], 0, NormalisedSkuCell) == tr[0] && MapCell(tr[1], 0, NormalisedSkuCell) == tr[1];
    assert SkuMapped(ExampleMarket.header, mr, NormalisedSkuCell) == mr;
    assert SkuMapped(ExampleTiny.header, tr, NormalisedSkuCell) == tr;
  }

  /** Both Tiny rows match the one sale. */
  lemma ExampleWeight()
    ensures Weight(ExampleTiny.header, ExampleTiny.rows, Some("A")) == 2
  {
    var th, trows := ExampleTiny.header, ExampleTiny.rows;
    FirstIndexAt(th, NameIs("sku"), 0);
    assert CellOf(th, trows[0], "sku") == Some("A") && CellOf(th, trows[1], "sku") == Some("A");
    assert trows[..1][..0] == [];
    assert Matching(th, trows[..1], Some("A")) == [trows[0]];
  }

  /** The sale is 10. */
  lemma ExampleRevenue()
    ensures MarketRevenue(ExampleMarket, Some("A")) == 10.0
  {
    var m := ExampleMarket;
    FirstIndexAt(m.header, NameIs("sku"), 0);
    FirstIndexAt(m.header, NameIs("valor_total"), 1);
    ExampleRevenueText();
    assert m.rows[..0] == [];
  }

  /** The left join repeats the sale once per Tiny row. */
  lemma ExampleJoinRows()
    ensures var rows := LeftJoin(ExampleMarket, ExampleTiny).rows;
      |rows| == 2 && CellAt(rows[0], 0) == Some("A") && CellAt(rows[1], 0) == Some("A")
  {
    var m, t := ExampleMarket, ExampleTiny;
    FirstIndexAt(m.header, NameIs("sku"), 0);
    assert CellOf(m.header, m.rows[0], "sku") == Some("A");
    ExampleWeight();
    assert m.rows[..0] == [];
    var rows := RowsFor(m.header, t.header, t.rows, m.rows[0]);
    assert LeftJoin(m, t).rows == rows;
    assert rows[0][..1] == [Some("A")] && rows[1][..1] == [Some("A")];
  }

  /** The joined table has the sale twice, and its sku on both rows. */
  lemma ExampleJoined()
    ensures Consolidate(ExampleTiny, ExampleMarket).Success?
    ensures var s := Consolidate(ExampleTiny, ExampleMarket).value.table;
      |s.rows| == 2 && CellOf(s.header, s.rows[0], "sku") == Some("A") && CellOf(s.header, s.rows[1], "sku") == Some("A")
  {
    var m, t := ExampleMarket, ExampleTiny;
    ExampleSkuColumn();
    FirstIndexAt(m.header, NameIs("sku"), 0);
    FirstIndexAt(m.header, NameIs("valor_total"), 1);
    ConsolidatedRows(t, m, 0, 0, 1);
    ExamplePrepared();
    ExampleJoinRows();
  }

  /** The example meets the hypotheses of FaturamentoInflated and CorrectedCountsOnce. */
  lemma ExampleHypotheses()
    ensures FirstIndex(ExampleTiny.header, SkuName()) == Some(0) && WellFormed(ExampleMarket)
    ensures "sku" in ExampleMarket.header && "valor_total" in ExampleMarket.header && "valor_total" in ExampleTiny.header
    ensures "valor_total_market" !in ExampleMarket.header && "valor_total_market" !in ExampleTiny.header
  {
    ExampleSkuColumn();
  }

  /**
   * As written: one sale of 10 whose sku has two Tiny rows reads as a
   * faturamento_total_canais of 20 on both joined rows.
   */
  lemma FaturamentoDoubleCounted()
    ensures Consolidate(ExampleTiny, ExampleMarket).Success?
    ensures Consolidate(ExampleTiny, ExampleMarket).value.faturamento == Some([Some(20.0), Some(20.0)])
  {
    ExampleHypotheses();
    ExamplePrepared();
    ExampleJoined();
    ExampleWeight();
    ExampleRevenue();
    FaturamentoInflated(ExampleTiny, ExampleMarket, 0);
    var f := Consolidate(ExampleTiny, ExampleMarket).value.faturamento.value;
    assert Times(2, 10.0) == 20.0;
    assert f[0] == Some(20.0) && f[1] == Some(20.0);
    TwoRows(f, 20.0);
  }

  /** Corrected, the same tables read 10 on both rows: the sale counts once. */
  lemma CorrectedCountsSaleOnce()
    ensures ConsolidateCorrected(ExampleTiny, ExampleMarket).Success?
    ensures ConsolidateCorrected(ExampleTiny, ExampleMarket).value.faturamento == Some([Some(10.0), Some(10.0)])
  {
    ExampleHypotheses();
    ExamplePrepared();
    ExampleJoined();
    ExampleRevenue();
    CorrectedCountsOnce(ExampleTiny, ExampleMarket, 0);
    var g := ConsolidateCorrected(ExampleTiny, ExampleMarket).value.faturamento.value;
    assert g[0] == Some(10.0) && g[1] == Some(10.0);
    TwoRows(g, 10.0);
  }

  lemma TwoRows(f: seq<Option<real>>, v: real)
    requires |f| == 2 && f[0] == Some(v) && f[1] == Some(v)
    ensures f == [Some(v), Some(v)]
  {
  }
}
