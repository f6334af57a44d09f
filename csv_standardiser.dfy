/**
 * The three marketplace exports rewritten by dados/csv_marketplaces/padronizador.py.
 * Shopee: headers stripped and lower-cased, one trailing ".0" dropped from
 * every SKU, the value column rounded to cents. Beleza na Web: dates written
 * day first, every '*' removed from the SKU. Mercado Livre: the
 * " - d/m/yyyy" suffix removed from product names, rows with no value at all
 * dropped. Reading and writing the files are left to the caller: each
 * standardiser takes the table as read and returns the table it writes.
 */
module CsvMarketplaceStandardiser {
  import opened Wrappers
  import opened Strings
  import opened Numbers
  import opened Frames
  import opened Dates

  // ---------------------------------------------------------------- columns

  /** `df[col] = f(df[col])` for the column at index `j`; every other cell is untouched. */
  function MapColumn(rows: seq<seq<Option<string>>>, j: nat, f: Option<string> -> Option<string>): (r: seq<seq<Option<string>>>)
    ensures |r| == |rows|
    ensures forall i :: 0 <= i < |rows| ==> |r[i]| == |rows[i]|
    ensures forall i, k :: 0 <= i < |rows| && 0 <= k < |rows[i]| ==> r[i][k] == if k == j then f(rows[i][k]) else rows[i][k]
  {
    seq(|rows|, i requires 0 <= i < |rows| => if j < |rows[i]| then rows[i][j := f(rows[i][j])] else rows[i])
  }

  // ---------------------------------------------------------------- Shopee

  predicate MentionsSku(c: string)
  {
    Contains(c, "sku")
  }

  predicate MentionsValor(c: string)
  {
    Contains(c, "valor")
  }

  /**
   * `re.sub(r'\.0$', '', s)`. Without MULTILINE, `$` matches at the very end
   * and just before a final newline; the two cannot both follow a ".0", so
   * at most one ".0" goes.
   */
  function StripTrailingZero(s: string): (r: string)
    ensures r == s <==> !EndsWith(s, ".0") && !EndsWith(s, ".0\n")
    ensures |r| == |s| || |r| == |s| - 2
  {
    if EndsWith(s, ".0") then s[..|s| - 2]
    else if EndsWith(s, ".0\n") then s[..|s| - 3] + "\n"
    else s
  }

  /** A SKU read as a float ("123.0") gets its integer text back. */
  lemma StripTrailingZeroAppended(s: string)
    ensures StripTrailingZero(s + ".0") == s
  {
    assert (s + ".0")[|s|..] == ".0";
    assert (s + ".0")[..|s|] == s;
  }

  /** Only one ".0" is removed: "1.0.0" becomes "1.0". */
  lemma StripTrailingZeroOnce(s: string)
    ensures StripTrailingZero(s + ".0" + ".0") == s + ".0"
  {
    var t := s + ".0";
    assert t + ".0" == s + ".0" + ".0";
    StripTrailingZeroAppended(t);
  }

  /** `astype(str).str.replace(r'\.0$', '', regex=True)` of one cell: NaN is written "nan" first. */
  function ShopeeSkuCell(c: Option<string>): (r: Option<string>)
    ensures r.Some?
  {
    Some(StripTrailingZero(c.GetOr("nan")))
  }

  /** `pd.to_numeric(errors='coerce').round(2)` of one cell, in whole hundredths; None is NaN. */
  function ShopeeValorCents(c: Option<string>): (r: Option<int>)
    ensures r.Some? <==> c.Some? && ParseFloat(c.value).Some?
    ensures r.Some? ==> -0.5 <= ParseFloat(c.value).value * 100.0 - r.value as real <= 0.5
  {
    match c
    case None => None
    case Some(s) =>
      match ParseFloat(s)
      case None => None
      case Some(v) => Some(RoundCents(v))
  }

  /** Rounding an amount that is already a whole number of hundredths keeps it. */
  lemma RoundCentsExact(n: int)
    ensures RoundCents(n as real / 100.0) == n
  {
    var y := n as real / 100.0 * 100.0;
    assert y == n as real;
    assert y.Floor == n;
  }

  /** The value column, as a whole number of hundredths per row. */
  function ValorColumn(rows: seq<seq<Option<string>>>, j: nat): (r: seq<Option<int>>)
    ensures |r| == |rows| && forall i :: 0 <= i < |rows| ==> r[i] == ShopeeValorCents(CellAt(rows[i], j))
  {
    seq(|rows|, i requires 0 <= i < |rows| => ShopeeValorCents(CellAt(rows[i], j)))
  }

  /** What padronizar_shopee writes: the table, and the rounded value column when there is one. */
  datatype ShopeeOutput = ShopeeOutput(table: Sheet, valorCents: Option<seq<Option<int>>>)

  function SkuColumnRewritten(rows: seq<seq<Option<string>>>, col: Option<nat>): seq<seq<Option<string>>>
  {
    match col
    case None => rows
    case Some(j) => MapColumn(rows, j, ShopeeSkuCell)
  }

  function StandardiseShopee(s: Sheet): (r: ShopeeOutput)
    ensures r.table.header == CleanHeader(s.header) && |r.table.rows| == |s.rows|
    ensures r.valorCents.Some? <==> exists c :: c in CleanHeader(s.header) && MentionsValor(c)
  {
    var h := CleanHeader(s.header);
    var rows := SkuColumnRewritten(s.rows, FirstIndex(h, MentionsSku));
    var valor := FirstIndex(h, MentionsValor);
    if valor.None? then
      FirstIndexNone(h, MentionsValor);
      ShopeeOutput(Sheet(h, rows), None)
    else
      FirstIndexAt(h, MentionsValor, valor.value);
      ShopeeOutput(Sheet(h, rows), Some(ValorColumn(rows, valor.value)))
  }

  /**
   * The SKU column is the first cleaned header containing "sku": its cells
   * lose one trailing ".0", every other cell is kept; without such a header
   * no cell changes.
   */
  lemma ShopeeSkuCells(s: Sheet, i: nat, k: nat)
    requires i < |s.rows| && k < |s.rows[i]|
    ensures |StandardiseShopee(s).table.rows[i]| == |s.rows[i]|
    ensures FirstPassing(CleanHeader(s.header), MentionsSku, k) ==>
      StandardiseShopee(s).table.rows[i][k] == Some(StripTrailingZero(s.rows[i][k].GetOr("nan")))
    ensures !FirstPassing(CleanHeader(s.header), MentionsSku, k) ==> StandardiseShopee(s).table.rows[i][k] == s.rows[i][k]
  {
    var h := CleanHeader(s.header);
    match FirstIndex(h, MentionsSku)
    case None =>
      FirstIndexNone(h, MentionsSku);
    case Some(j) =>
      FirstIndexAt(h, MentionsSku, j);
  }

  /**
   * The value column is the first cleaned header containing "valor", read
   * after the SKU rewrite (a header holding both words is rewritten first):
   * each row's amount is within half a cent of the number its text reads as.
   */
  lemma ShopeeValorRounded(s: Sheet, v: nat, i: nat)
    requires FirstPassing(CleanHeader(s.header), MentionsValor, v) && i < |s.rows|
    requires !MentionsSku(CleanHeader(s.header)[v])
    ensures StandardiseShopee(s).valorCents.Some?
    ensures StandardiseShopee(s).valorCents.value[i] == ShopeeValorCents(CellAt(s.rows[i], v))
  {
    var h := CleanHeader(s.header);
    FirstIndexAt(h, MentionsValor, v);
    if v < |s.rows[i]| {
      ShopeeSkuCells(s, i, v);
    }
  }

  // ---------------------------------------------------------------- Beleza na Web

  /**
   * `pd.to_datetime(errors='coerce').dt.strftime('%d/%m/%Y')` of one cell:
   * what the parser does not read becomes NaT, which strftime writes as NaN.
   */
  function BlzDateCell(toDatetime: string -> Option<Date>, c: Option<string>): (r: Option<string>)
    ensures r.Some? <==> c.Some? && toDatetime(c.value).Some?
  {
    match c
    case None => None
    case Some(t) =>
      match toDatetime(t)
      case None => None
      case Some(d) => Some(FormatDmy(d))
  }

  /** The rewritten date reads back, day first, as the date the parser saw. */
  lemma BlzDateReadsBack(toDatetime: string -> Option<Date>, t: string, d: Date)
    requires toDatetime(t) == Some(d) && ValidDate(d) && d.year >= 1000
    ensures BlzDateCell(toDatetime, Some(t)) == Some(FormatDmy(d))
    ensures StrptimeDmy(BlzDateCell(toDatetime, Some(t)).value) == Some(d)
  {
    StrptimeDmyRoundTrip(d);
  }

  /** `astype(str).str.replace('*', '', regex=False).str.strip()` of one cell. */
  function BlzSkuCell(c: Option<string>): (r: Option<string>)
    ensures r.Some? && '*' !in r.value && Trim(r.value) == r.value
  {
    var t := RemoveChar(c.GetOr("nan"), '*');
    TrimIdempotent(t);
    TrimStarFree(t);
    Some(Trim(t))
  }

  /** strip() never brings a character back. */
  lemma TrimStarFree(t: string)
    requires '*' !in t
    ensures '*' !in Trim(t)
  {
    if '*' in Trim(t) {
      var i :| 0 <= i < |Trim(t)| && Trim(t)[i] == '*';
      TrimKeepsChar(t, '*');
    }
  }

  /** Cleaning a SKU twice is cleaning it once. */
  lemma BlzSkuIdempotent(c: Option<string>)
    ensures BlzSkuCell(BlzSkuCell(c)) == BlzSkuCell(c)
  {
    var r := BlzSkuCell(c).value;
    RemoveCharAbsent(r, '*');
  }

  function NamedColumnRewritten(s: Sheet, name: string, f: Option<string> -> Option<string>): (r: Sheet)
    ensures r.header == s.header && |r.rows| == |s.rows|
  {
    match FirstIndex(s.header, NameIs(name))
    case None => s
    case Some(j) => Sheet(s.header, MapColumn(s.rows, j, f))
  }

  /** What padronizar_blz writes: the date column rewritten, then the SKU column. */
  function StandardiseBlz(toDatetime: string -> Option<Date>, s: Sheet): (r: Sheet)
    ensures r.header == s.header && |r.rows| == |s.rows|
  {
    NamedColumnRewritten(NamedColumnRewritten(s, "data", c => BlzDateCell(toDatetime, c)), "sku", BlzSkuCell)
  }

  /** Every cell of "data" and "sku" is rewritten; the others are kept. */
  lemma BlzCells(toDatetime: string -> Option<Date>, s: Sheet, i: nat, k: nat)
    requires i < |s.rows| && k < |s.rows[i]| && k < |s.header|
    ensures |StandardiseBlz(toDatetime, s).rows[i]| == |s.rows[i]|
    ensures FirstPassing(s.header, NameIs("data"), k) ==>
      StandardiseBlz(toDatetime, s).rows[i][k] == BlzDateCell(toDatetime, s.rows[i][k])
    ensures FirstPassing(s.header, NameIs("sku"), k) ==> StandardiseBlz(toDatetime, s).rows[i][k] == BlzSkuCell(s.rows[i][k])
    ensures s.header[k] != "data" && s.header[k] != "sku" ==> StandardiseBlz(toDatetime, s).rows[i][k] == s.rows[i][k]
  {
    var dated := NamedColumnRewritten(s, "data", c => BlzDateCell(toDatetime, c));
    match FirstIndex(s.header, NameIs("data"))
    case None => FirstIndexNone(s.header, NameIs("data"));
    case Some(j) => FirstIndexAt(s.header, NameIs("data"), j);
    match FirstIndex(s.header, NameIs("sku"))
    case None => FirstIndexNone(s.header, NameIs("sku"));
    case Some(j) => FirstIndexAt(s.header, NameIs("sku"), j);
  }

  // ---------------------------------------------------------------- Mercado Livre: the date suffix

  /** `[-–]`: a hyphen or an en dash. */
  predicate IsDash(c: char)
  {
    c == '-' || c == '\U{2013}'
  }

  /** Where a run of `\s` starting at `i` ends (`\s*`, greedy). */
  function SpacesEnd(s: string, i: nat): (j: nat)
    requires i <= |s|
    ensures i <= j <= |s|
    ensures forall k :: i <= k < j ==> IsSpace(s[k])
    ensures j == |s| || !IsSpace(s[j])
    decreases |s| - i
  {
    if i < |s| && IsSpace(s[i]) then SpacesEnd(s, i + 1) else i
  }

  /** Where a run of at most `most` digits starting at `i` ends (`\d{1,most}`, greedy). */
  function DigitsEnd(s: string, i: nat, most: nat): (j: nat)
    requires i <= |s|
    ensures i <= j <= |s| && j - i <= most
    ensures forall k :: i <= k < j ==> IsDigit(s[k])
    ensures j - i == most || j == |s| || !IsDigit(s[j])
    decreases most
  {
    if most > 0 && i < |s| && IsDigit(s[i]) then DigitsEnd(s, i + 1, most - 1) else i
  }

  /**
   * `s[..e]` is one text the pattern `\s*[-–]\s*\d{1,2}/\d{1,2}/\d{2,4}`
   * describes, with the dash at `a`, the day digits from `b` to `c`, the
   * slashes at `c` and `d`, and the year digits from `d + 1` to `e`.
   */
  predicate Fragment(s: string, a: nat, b: nat, c: nat, d: nat, e: nat)
  {
    a < b < c < d < e <= |s|
    && (forall k :: 0 <= k < a ==> IsSpace(s[k]))
    && IsDash(s[a])
    && (forall k :: a < k < b ==> IsSpace(s[k]))
    && c - b <= 2 && (forall k :: b <= k < c ==> IsDigit(s[k])) && s[c] == '/'
    && 1 <= d - c - 1 <= 2 && (forall k :: c < k < d ==> IsDigit(s[k])) && s[d] == '/'
    && 2 <= e - d - 1 <= 4 && (forall k :: d < k < e ==> IsDigit(s[k]))
  }

  /** The year digits stop where the pattern's greedy `\d{2,4}` stops. */
  predicate Longest(s: string, d: nat, e: nat)
  {
    e - d - 1 == 4 || e >= |s| || !IsDigit(s[e])
  }

  /**
   * The end of the pattern's match at the start of `s`, if there is one.
   * `\s` never matches a dash, a digit or '/', so no backtracking can find a
   * match the greedy reading misses.
   */
  function MatchDateAt(s: string): (r: Option<nat>)
    ensures r.Some? ==> exists a, b, c, d :: Fragment(s, a, b, c, d, r.value) && Longest(s, d, r.value)
  {
    var a := SpacesEnd(s, 0);
    if a == |s| || !IsDash(s[a]) then None else MatchAfterDash(s, a)
  }

  /** The rest of the match once the dash at `a` is found: spaces, then the day and its slash. */
  function MatchAfterDash(s: string, a: nat): (r: Option<nat>)
    requires a < |s| && IsDash(s[a]) && forall k :: 0 <= k < a ==> IsSpace(s[k])
    ensures r.Some? ==> exists b, c, d :: Fragment(s, a, b, c, d, r.value) && Longest(s, d, r.value)
  {
    var b := SpacesEnd(s, a + 1);
    var c := DigitsEnd(s, b, 2);
    if c == b || c == |s| || s[c] != '/' then None else MatchAfterDay(s, a, b, c)
  }

  /** The rest of the match once the day ends at the slash at `c`: the month, its slash and the year. */
  function MatchAfterDay(s: string, a: nat, b: nat, c: nat): (r: Option<nat>)
    requires a < b < c < |s| && IsDash(s[a]) && s[c] == '/' && c - b <= 2
    requires (forall k :: 0 <= k < a ==> IsSpace(s[k])) && (forall k :: a < k < b ==> IsSpace(s[k]))
    requires forall k :: b <= k < c ==> IsDigit(s[k])
    ensures r.Some? ==> exists d :: Fragment(s, a, b, c, d, r.value) && Longest(s, d, r.value)
  {
    var d := DigitsEnd(s, c + 1, 2);
    if d == c + 1 || d == |s| || s[d] != '/' then None
    else
      var e := DigitsEnd(s, d + 1, 4);
      if e - d - 1 < 2 then None
      else
        assert Fragment(s, a, b, c, d, e) && Longest(s, d, e);
        Some(e)
  }

  /** Conversely, every text the pattern describes is matched, up to its greedy end. */
  lemma MatchDateAtFragment(s: string, a: nat, b: nat, c: nat, d: nat, e: nat)
    requires Fragment(s, a, b, c, d, e) && Longest(s, d, e)
    ensures MatchDateAt(s) == Some(e)
  {
    SpacesEndAt(s, 0, a);
    MatchAfterDashFragment(s, a, b, c, d, e);
  }

  lemma MatchAfterDashFragment(s: string, a: nat, b: nat, c: nat, d: nat, e: nat)
    requires Fragment(s, a, b, c, d, e) && Longest(s, d, e)
    ensures MatchAfterDash(s, a) == Some(e)
  {
    assert IsDigit(s[b]);
    SpacesEndAt(s, a + 1, b);
    assert s[c] == '/';
    DigitsEndAt(s, b, c, 2);
    MatchAfterDayFragment(s, a, b, c, d, e);
  }

  lemma MatchAfterDayFragment(s: string, a: nat, b: nat, c: nat, d: nat, e: nat)
    requires Fragment(s, a, b, c, d, e) && Longest(s, d, e)
    ensures MatchAfterDay(s, a, b, c) == Some(e)
  {
    assert s[d] == '/';
    DigitsEndAt(s, c + 1, d, 2);
    DigitsEndAt(s, d + 1, e, 4);
  }

  /** A run of spaces from `i` to a non-space at `j` is what SpacesEnd finds. */
  lemma {:induction false} SpacesEndAt(s: string, i: nat, j: nat)
    requires i <= j <= |s| && (forall k :: i <= k < j ==> IsSpace(s[k])) && (j == |s| || !IsSpace(s[j]))
    ensures SpacesEnd(s, i) == j
    decreases j - i
  {
    if i < j {
      SpacesEndAt(s, i + 1, j);
    }
  }

  /** A run of digits from `i` to `j`, stopped by a non-digit or by the bound, is what DigitsEnd finds. */
  lemma {:induction false} DigitsEndAt(s: string, i: nat, j: nat, most: nat)
    requires i <= j <= |s| && j - i <= most && (forall k :: i <= k < j ==> IsDigit(s[k]))
    requires j - i == most || j == |s| || !IsDigit(s[j])
    ensures DigitsEnd(s, i, most) == j
    decreases j - i
  {
    if i < j {
      DigitsEndAt(s, i + 1, j, most - 1);
    }
  }

  /**
   * `re.sub(r'\s*[-–]\s*\d{1,2}/\d{1,2}/\d{2,4}', '', s)`: scanning left to
   * right, a match starting at the current position is dropped and the scan
   * goes on after it; otherwise the character is kept.
   */
  function RemoveDates(s: string): (r: string)
    ensures |r| <= |s|
    decreases |s|
  {
    if s == [] then []
    else
      match MatchDateAt(s)
      case Some(e) => RemoveDates(s[e..])
      case None => [s[0]] + RemoveDates(s[1..])
  }

  /** A product name with no dash is left as it is. */
  lemma {:induction false} RemoveDatesNoDash(s: string)
    requires forall k :: 0 <= k < |s| ==> !IsDash(s[k])
    ensures RemoveDates(s) == s
    decreases |s|
  {
    if s != [] {
      assert MatchDateAt(s).None?;
      RemoveDatesNoDash(s[1..]);
    }
  }

  /** No match starts inside a name that holds no dash and does not end in a space. */
  lemma NoMatchInName(p: string, t: string)
    requires p != [] && !IsSpace(p[|p| - 1])
    requires forall k :: 0 <= k < |p| ==> !IsDash(p[k])
    ensures MatchDateAt(p + t).None?
  {
    var s := p + t;
    assert forall k :: 0 <= k < |p| ==> s[k] == p[k];
    assert !IsSpace(s[|p| - 1]);
  }

  lemma ConsAppend(p: string, t: string)
    requires p != []
    ensures (p + t)[0] == p[0] && (p + t)[1..] == p[1..] + t && [p[0]] + p[1..] == p
  {
  }

  /** Where no match starts, the first character is kept. */
  lemma RemoveDatesKeep(s: string)
    requires s != [] && MatchDateAt(s).None?
    ensures RemoveDates(s) == [s[0]] + RemoveDates(s[1..])
  {
  }

  /** A text that is one date fragment is removed entirely. */
  lemma RemoveDatesWholeFragment(t: string, a: nat, b: nat, c: nat, d: nat)
    requires Fragment(t, a, b, c, d, |t|)
    ensures RemoveDates(t) == []
  {
    MatchDateAtFragment(t, a, b, c, d, |t|);
    assert t[|t|..] == [];
  }

  /**
   * A date suffix is removed in full, with the spaces before its dash, from a
   * name that holds no dash of its own: "Produto XYZ - 12/10/2025" becomes
   * "Produto XYZ".
   */
  lemma {:induction false} RemoveDatesSuffix(p: string, t: string, a: nat, b: nat, c: nat, d: nat)
    requires p == [] || !IsSpace(p[|p| - 1])
    requires forall k :: 0 <= k < |p| ==> !IsDash(p[k])
    requires Fragment(t, a, b, c, d, |t|)
    ensures RemoveDates(p + t) == p
    decreases |p|
  {
    if p == [] {
      assert p + t == t;
      RemoveDatesWholeFragment(t, a, b, c, d);
    } else {
      var q := p[1..];
      assert q == [] || q[|q| - 1] == p[|p| - 1];
      assert forall k :: 0 <= k < |q| ==> q[k] == p[k + 1];
      RemoveDatesSuffix(q, t, a, b, c, d);
      NoMatchInName(p, t);
      RemoveDatesKeep(p + t);
      ConsAppend(p, t);
    }
  }

  /** The example of padronizador.py's own comment. */
  lemma RemoveDatesExample()
    ensures RemoveDates("Produto XYZ" + " - 12/10/2025") == "Produto XYZ"
  {
    var t := " - 12/10/2025";
    assert Fragment(t, 1, 3, 5, 8, 13);
    RemoveDatesSuffix("Produto XYZ", t, 1, 3, 5, 8);
  }

  /** `str.replace(pattern, '', regex=True)` of one cell: NaN stays NaN. */
  function ProdutoCell(c: Option<string>): (r: Option<string>)
    ensures r.Some? <==> c.Some?
  {
    match c
    case None => None
    case Some(t) => Some(RemoveDates(t))
  }

  // ---------------------------------------------------------------- Mercado Livre: empty rows

  /** Some cell of the row holds a value. */
  predicate HasValue(row: seq<Option<string>>)
  {
    exists k :: 0 <= k < |row| && row[k].Some?
  }

  /** `dropna(how='all')`: the rows with at least one value, in their order. */
  function DropEmptyRows(rows: seq<seq<Option<string>>>): (r: seq<seq<Option<string>>>)
    ensures |r| <= |rows|
    ensures forall x :: x in r <==> x in rows && HasValue(x)
    decreases |rows|
  {
    if rows == [] then []
    else (if HasValue(rows[0]) then [rows[0]] else []) + DropEmptyRows(rows[1..])
  }

  /** Dropping works row by row, so the kept rows stay in their order. */
  lemma {:induction false} DropEmptyRowsAppend(x: seq<seq<Option<string>>>, y: seq<seq<Option<string>>>)
    ensures DropEmptyRows(x + y) == DropEmptyRows(x) + DropEmptyRows(y)
    decreases |x|
  {
    if x == [] {
      assert x + y == y;
    } else {
      assert (x + y)[1..] == x[1..] + y;
      DropEmptyRowsAppend(x[1..], y);
    }
  }

  /** A table with no empty row loses nothing. */
  lemma {:induction false} DropEmptyRowsKeepsFull(rows: seq<seq<Option<string>>>)
    requires forall i :: 0 <= i < |rows| ==> HasValue(rows[i])
    ensures DropEmptyRows(rows) == rows
    decreases |rows|
  {
    if rows != [] {
      DropEmptyRowsKeepsFull(rows[1..]);
    }
  }

  /** What padronizar_mercadolivre writes: dates cut from produto, then empty rows dropped. */
  function StandardiseMeli(s: Sheet): (r: Sheet)
    ensures r.header == s.header && |r.rows| <= |s.rows|
  {
    var t := NamedColumnRewritten(s, "produto", ProdutoCell);
    Sheet(t.header, DropEmptyRows(t.rows))
  }

  /**
   * A row is written exactly when it has a value; cutting dates from
   * produto never empties a row, since a product name stays a value.
   */
  lemma MeliKeepsRows(s: Sheet, i: nat)
    requires i < |s.rows|
    ensures NamedColumnRewritten(s, "produto", ProdutoCell).rows[i] in StandardiseMeli(s).rows <==> HasValue(s.rows[i])
  {
    var t := NamedColumnRewritten(s, "produto", ProdutoCell);
    var row, out := s.rows[i], t.rows[i];
    assert |out| == |row|;
    match FirstIndex(s.header, NameIs("produto"))
    case None =>
    case Some(j) =>
      assert forall k :: 0 <= k < |row| ==> (out[k].Some? <==> row[k].Some?);
  }

  // ---------------------------------------------------------------- the DataFrames, in place

  /** A DataFrame the script rewrites column by column. */
  class Table {
    var header: seq<string>
    var rows: seq<seq<Option<string>>>

    function Snapshot(): Sheet
      reads this
    {
      Sheet(header, rows)
    }

    constructor (s: Sheet)
      ensures Snapshot() == s
    {
      header, rows := s.header, s.rows;
    }

    /** `df.columns = df.columns.str.strip().str.lower()`. */
    method CleanColumns()
      modifies this
      ensures header == CleanHeader(old(header)) && rows == old(rows)
    {
      header := CleanHeader(header);
    }

    /** `df[df.columns[j]] = f(df[df.columns[j]])`. */
    method Rewrite(j: nat, f: Option<string> -> Option<string>)
      modifies this
      ensures header == old(header) && rows == MapColumn(old(rows), j, f)
    {
      rows := MapColumn(rows, j, f);
    }

    /** `if name in df.columns: df[name] = f(df[name])`. */
    method RewriteNamed(name: string, f: Option<string> -> Option<string>)
      modifies this
      ensures Snapshot() == NamedColumnRewritten(old(Snapshot()), name, f)
    {
      var j := FirstIndex(header, NameIs(name));
      if j.Some? {
        Rewrite(j.value, f);
      }
    }

    /** `df = df.dropna(how='all')`. */
    method DropEmpty()
      modifies this
      ensures header == old(header) && rows == DropEmptyRows(old(rows))
    {
      rows := DropEmptyRows(rows);
    }
  }

  /** padronizar_shopee on the table read with `dtype=str`. */
  method PadronizarShopee(s: Sheet) returns (r: ShopeeOutput)
    ensures r == StandardiseShopee(s)
  {
    var df := new Table(s);
    df.CleanColumns();
    var colSku := FirstIndex(df.header, MentionsSku);
    var colValor := FirstIndex(df.header, MentionsValor);
    if colSku.Some? {
      df.Rewrite(colSku.value, ShopeeSkuCell);
    }
    var valor := None;
    if colValor.Some? {
      valor := Some(ValorColumn(df.rows, colValor.value));
    }
    r := ShopeeOutput(df.Snapshot(), valor);
  }

  /** padronizar_blz on the workbook read with `dtype=str`. */
  method PadronizarBlz(toDatetime: string -> Option<Date>, s: Sheet) returns (r: Sheet)
    ensures r == StandardiseBlz(toDatetime, s)
  {
    var df := new Table(s);
    df.RewriteNamed("data", c => BlzDateCell(toDatetime, c));
    df.RewriteNamed("sku", BlzSkuCell);
    r := df.Snapshot();
  }

  /** padronizar_mercadolivre on the table read with `dtype=str`. */
  method PadronizarMercadoLivre(s: Sheet) returns (r: Sheet)
    ensures r == StandardiseMeli(s)
  {
    var df := new Table(s);
    df.RewriteNamed("produto", ProdutoCell);
    df.DropEmpty();
    r := df.Snapshot();
  }
}
