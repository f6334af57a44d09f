/**
 * scripts_agora_vai/ml.py: the standardised Mercado Livre export becomes one
 * row per sale with a long description text. The headers are cleaned, the
 * date is split into month and year, SKUs lose every ".0", and descricao is
 * assembled from the SKU, the product's description column, the month, the
 * year, the sales count and the amount. The table is held the way the
 * script uses it: columns in order, each name mapping to its cells.
 */
module MlDescriptions {
  import opened Wrappers
  import opened Strings
  import opened Numbers
  import opened Frames
  import opened Dates
  import CatalogueStandardiser

  // ---------------------------------------------------------------- header

  const Bom: char := '\U{FEFF}'

  /** `c.strip().lower().replace(' ', '').replace('\ufeff', '')`. */
  function MlColumnName(c: string): (r: string)
    ensures ' ' !in r && Bom !in r
  {
    var noSpace := RemoveChar(Lower(Trim(c)), ' ');
    var r := RemoveChar(noSpace, Bom);
    assert ' ' !in r by {
      forall i | 0 <= i < |r| ensures r[i] != ' ' {
        CatalogueStandardiser.RemoveCharFrom(noSpace, Bom, i);
      }
    }
    r
  }

  function MlHeader(columns: seq<string>): (r: seq<string>)
    ensures |r| == |columns| && forall i :: 0 <= i < |columns| ==> r[i] == MlColumnName(columns[i])
  {
    seq(|columns|, i requires 0 <= i < |columns| => MlColumnName(columns[i]))
  }

  /** A name with no whitespace, no upper case and no byte-order mark. */
  predicate IsMlName(c: string)
  {
    forall i :: 0 <= i < |c| ==> !IsSpace(c[i]) && LowerChar(c[i]) == c[i] && c[i] != Bom
  }

  /** Names that are already clean are left alone. */
  lemma MlColumnNameKeepsClean(c: string)
    requires IsMlName(c)
    ensures MlColumnName(c) == c
  {
    CatalogueStandardiser.TrimNoSpace(c);
    assert Lower(c) == c;
    assert ' ' !in c;
    RemoveCharAbsent(c, ' ');
    RemoveCharAbsent(c, Bom);
  }

  /** The byte-order mark a UTF-8 export leaves on its first header is removed. */
  lemma MlColumnNameBom()
    ensures MlColumnName([Bom] + "Data ") == "data"
  {
    BomTrim();
    BomLower();
    RemoveCharAbsent([Bom] + "data", ' ');
    RemoveCharAppend([Bom], "data", Bom);
    RemoveCharAbsent("data", Bom);
    assert RemoveChar([Bom], Bom) == [];
  }

  lemma BomTrim()
    ensures Trim([Bom] + "Data ") == [Bom] + "Data"
  {
    var d := [Bom] + "Data";
    var c := d + " ";
    assert c == [Bom] + "Data ";
    assert !IsSpace(Bom);
    assert TrimStart(c) == c;
    assert c[..|c| - 1] == d;
    assert TrimEnd(c) == TrimEnd(d);
    TrimUntouched(d);
  }

  lemma BomLower()
    ensures Lower([Bom] + "Data") == [Bom] + "data"
  {
  }

  // ---------------------------------------------------------------- cells

  /** `astype(str).str.replace('.0', '', regex=False).str.strip()` of one SKU; NaN is "nan". */
  function MlSkuCell(c: Option<string>): (r: Option<string>)
    ensures r.Some?
  {
    Some(Trim(ReplaceAll(c.GetOr("nan"), ".0", "")))
  }

  /** A SKU with no ".0" in it is only stripped. */
  lemma MlSkuCellNoDotZero(t: string)
    requires !Contains(t, ".0")
    ensures MlSkuCell(Some(t)) == Some(Trim(t))
  {
    ReplaceAllAbsent(t, ".0", "");
  }

  /** Every ".0" goes, not only a trailing one: "7.05" becomes "75". */
  lemma MlSkuCellInner()
    ensures MlSkuCell(Some("7.05")) == Some("75")
  {
    assert ReplaceAll("5", ".0", "") == "5";
    assert ".05"[..2] == ".0" && ".05"[2..] == "5";
    assert ReplaceAll(".05", ".0", "") == "" + "5";
    assert "7.05"[..2] != ".0" && "7.05"[1..] == ".05";
    assert ReplaceAll("7.05", ".0", "") == "7" + "5";
    assert "7" + "5" == "75";
    TrimUntouched("75");
  }

  /** Python's str.zfill(2): zeros go in front, after a leading sign. */
  function Zfill2(s: string): (r: string)
    ensures |r| == if |s| >= 2 then |s| else 2
  {
    if |s| >= 2 then s
    else if s == [] then "00"
    else if s[0] == '+' || s[0] == '-' then [s[0]] + "0"
    else "0" + s
  }

  /** zfill(2) of str(m) is f"{m:02d}", for every integer. */
  lemma Zfill2IntToString(m: int)
    ensures Zfill2(IntToString(m)) == ZeroPad2(m)
  {
    if m >= 10 {
      assert |NatToString(m / 10)| >= 1;
    } else if m <= -10 {
      assert |IntToString(m)| >= 2;
    }
  }

  /**
   * `str()` of a month or year taken from `.dt`: an integer, unless some
   * date of the column is NaT, when pandas holds the column as floats and
   * writes "10.0". A missing date reads as NaN.
   */
  function DatePartCell(d: Option<Date>, part: Date -> int, floats: bool): (r: Option<string>)
    ensures r.Some? <==> d.Some?
  {
    match d
    case None => None
    case Some(v) => Some(IntToString(part(v)) + (if floats then ".0" else ""))
  }

  function Month(d: Date): int
  {
    d.month
  }

  function Year(d: Date): int
  {
    d.year
  }

  /** The text of the descricao column for one row, from the `astype(str)` of each part. */
  function DescricaoText(sku: string, desc: string, mes: string, ano: string, vendas: string, valor: string): string
  {
    sku + " - " + desc + " - mes " + Zfill2(mes) + " - ano " + ano + " - " + vendas + " vendas - " + valor + "reais de valor_total"
  }

  // ---------------------------------------------------------------- columns by name

  /** The DataFrame: column names in order, and each name's cells. */
  datatype Frame = Frame(columns: seq<string>, data: map<string, seq<Option<string>>>)

  /** Every listed name has cells and every name with cells is listed. */
  ghost predicate Consistent(f: Frame)
  {
    forall c :: c in f.columns <==> c in f.data
  }

  /** The cells of column `name` of a sheet, from its first column of that name. */
  function ColumnCells(s: Sheet, name: string): (r: seq<Option<string>>)
    ensures |r| == |s.rows| && forall i :: 0 <= i < |s.rows| ==> r[i] == CellOf(s.header, s.rows[i], name)
  {
    seq(|s.rows|, i requires 0 <= i < |s.rows| => CellOf(s.header, s.rows[i], name))
  }

  function FromSheet(s: Sheet): (f: Frame)
    ensures Consistent(f)
  {
    Frame(s.header, map c | c in s.header :: ColumnCells(s, c))
  }

  /** `df[name] = cells`: an existing column is overwritten in place, a new one goes last. */
  function Assigned(f: Frame, name: string, cells: seq<Option<string>>): (r: Frame)
    ensures Consistent(f) ==> Consistent(r)
    ensures r.data == f.data[name := cells]
  {
    Frame(if name in f.columns then f.columns else f.columns + [name], f.data[name := cells])
  }

  /** The names other than `name`, in order. */
  function Without(xs: seq<string>, name: string): (r: seq<string>)
    ensures forall c :: c in r <==> c in xs && c != name
    decreases |xs|
  {
    if xs == [] then []
    else (if xs[0] == name then [] else [xs[0]]) + Without(xs[1..], name)
  }

  /** `df.drop(columns=[name], inplace=True)`. */
  function Dropped(f: Frame, name: string): (r: Frame)
    ensures Consistent(f) ==> Consistent(r)
    ensures r.data == f.data - {name}
  {
    Frame(Without(f.columns, name), f.data - {name})
  }

  /** `next((c for c in columns if p(c)), None)`. */
  function FirstName(xs: seq<string>, p: string -> bool): (r: Option<string>)
    ensures r.Some? ==> r.value in xs && p(r.value)
    ensures r.None? <==> forall c :: c in xs ==> !p(c)
    decreases |xs|
  {
    if xs == [] then None
    else if p(xs[0]) then Some(xs[0])
    else FirstName(xs[1..], p)
  }

  /** A name the test rejects does not change which name is found first, wherever it is appended. */
  lemma {:induction false} FirstNameAppend(xs: seq<string>, y: string, p: string -> bool)
    requires !p(y)
    ensures FirstName(xs + [y], p) == FirstName(xs, p)
    decreases |xs|
  {
    if xs == [] {
      assert FirstName([y][1..], p) == None;
    } else {
      assert (xs + [y])[1..] == xs[1..] + [y];
      FirstNameAppend(xs[1..], y, p);
    }
  }

  lemma FirstNameCons(x: string, ys: seq<string>, p: string -> bool)
    ensures FirstName([x] + ys, p) == if p(x) then Some(x) else FirstName(ys, p)
  {
    assert ([x] + ys)[1..] == ys;
  }

  /** Dropping a name the test rejects does not change which name is found first. */
  lemma {:induction false} FirstNameWithout(xs: seq<string>, y: string, p: string -> bool)
    requires !p(y)
    ensures FirstName(Without(xs, y), p) == FirstName(xs, p)
    decreases |xs|
  {
    if xs == [] {
      assert Without(xs, y) == [];
    } else {
      FirstNameWithout(xs[1..], y, p);
      if xs[0] != y {
        assert Without(xs, y) == [xs[0]] + Without(xs[1..], y);
        FirstNameCons(xs[0], Without(xs[1..], y), p);
        assert FirstName(xs, p) == if p(xs[0]) then Some(xs[0]) else FirstName(xs[1..], p);
      } else {
        assert Without(xs, y) == Without(xs[1..], y);
        assert FirstName(xs, p) == FirstName(xs[1..], p);
      }
    }
  }

  /** `df[names]`: the listed columns, in that order. */
  function Selected(f: Frame, names: seq<string>, n: nat): (r: Sheet)
    requires forall k :: 0 <= k < |names| ==> names[k] in f.data
    ensures r.header == names && |r.rows| == n
    ensures forall i :: 0 <= i < n ==> |r.rows[i]| == |names|
  {
    Sheet(names, seq(n, i requires 0 <= i < n => seq(|names|, k requires 0 <= k < |names| => CellAt(f.data[names[k]], i))))
  }

  // ---------------------------------------------------------------- the script

  /** `'descricao' in c or 'produto' in c or 'nome' in c`. */
  predicate MentionsDescription(c: string)
  {
    Contains(c, "descricao") || Contains(c, "produto") || Contains(c, "nome")
  }

  /** `pd.to_datetime(df['data'].astype(str).str.strip(), dayfirst=True, errors='coerce')`. */
  function ParsedDates(toDatetime: string -> Option<Date>, cells: seq<Option<string>>): (r: seq<Option<Date>>)
    ensures |r| == |cells| && forall i :: 0 <= i < |cells| ==> r[i] == toDatetime(Trim(cells[i].GetOr("nan")))
  {
    seq(|cells|, i requires 0 <= i < |cells| => toDatetime(Trim(cells[i].GetOr("nan"))))
  }

  /** Some date of the column is NaT. */
  predicate AnyMissing(dates: seq<Option<Date>>)
  {
    exists i :: 0 <= i < |dates| && dates[i].None?
  }

  function PartCells(dates: seq<Option<Date>>, part: Date -> int, floats: bool): (r: seq<Option<string>>)
    ensures |r| == |dates| && forall i :: 0 <= i < |dates| ==> r[i] == DatePartCell(dates[i], part, floats)
  {
    seq(|dates|, i requires 0 <= i < |dates| => DatePartCell(dates[i], part, floats))
  }

  function SkuCells(cells: seq<Option<string>>): (r: seq<Option<string>>)
    ensures |r| == |cells| && forall i :: 0 <= i < |cells| ==> r[i] == MlSkuCell(cells[i])
  {
    seq(|cells|, i requires 0 <= i < |cells| => MlSkuCell(cells[i]))
  }

  /** The descricao column: the six parts of every row joined, each through `astype(str)`. */
  function DescricaoCells(n: nat, sku: seq<Option<string>>, desc: seq<Option<string>>, mes: seq<Option<string>>,
                          ano: seq<Option<string>>, vendas: seq<Option<string>>, valor: seq<Option<string>>): (r: seq<Option<string>>)
    ensures |r| == n && forall i :: 0 <= i < n ==> r[i].Some?
  {
    seq(n, i requires 0 <= i < n => Some(DescricaoText(CellAt(sku, i).GetOr("nan"), CellAt(desc, i).GetOr("nan"),
      CellAt(mes, i).GetOr("nan"), CellAt(ano, i).GetOr("nan"), CellAt(vendas, i).GetOr("nan"), CellAt(valor, i).GetOr("nan"))))
  }

  /** The columns the script writes, in order. */
  function OutputColumns(): seq<string>
  {
    ["sku", "descricao", "ano", "mes", "vendas", "valor_total"]
  }

  /** The frame after the month and year columns are added and data is dropped. */
  function WithMonthYear(f: Frame, dates: seq<Option<Date>>, floats: bool): (r: Frame)
    ensures Consistent(f) ==> Consistent(r)
    ensures r.data == f.data["mes" := PartCells(dates, Month, floats)]["ano" := PartCells(dates, Year, floats)] - {"data"}
  {
    Dropped(Assigned(Assigned(f, "mes", PartCells(dates, Month, floats)), "ano", PartCells(dates, Year, floats)), "data")
  }

  /** The descricao column assembled and the six output columns selected. */
  function Described(f: Frame, desc: string, n: nat): (r: Result<Sheet>)
    requires "sku" in f.data && "mes" in f.data && "ano" in f.data && desc in f.data
    ensures r.Success? ==> r.value.header == OutputColumns() && |r.value.rows| == n
    ensures r.Success? ==> forall i :: 0 <= i < n ==> |r.value.rows[i]| == 6
  {
    if "vendas" !in f.data then Failure("KeyError: 'vendas'")
    else if "valor_total" !in f.data then Failure("KeyError: 'valor_total'")
    else
      var cells := DescricaoCells(n, f.data["sku"], f.data[desc], f.data["mes"], f.data["ano"], f.data["vendas"], f.data["valor_total"]);
      var f3 := Assigned(f, "descricao", cells);
      assert forall k :: 0 <= k < 6 ==> OutputColumns()[k] in f3.data;
      Success(Selected(f3, OutputColumns(), n))
  }

  /** The description column found, the descricao column assembled and the output selected. */
  function Finished(f: Frame, n: nat): (r: Result<Sheet>)
    requires "sku" in f.data && "mes" in f.data && "ano" in f.data && Consistent(f)
    ensures r.Success? ==> r.value.header == OutputColumns() && |r.value.rows| == n
    ensures r.Success? ==> forall i :: 0 <= i < n ==> |r.value.rows[i]| == 6
  {
    match FirstName(f.columns, MentionsDescription)
    case None => Failure("ValueError: Coluna de descrição não encontrada")
    case Some(desc) => Described(f, desc, n)
  }

  /** The table as read with `sep=';'`, its header cleaned (`df.columns = [...]`). */
  function Read(s: Sheet): (f: Frame)
    ensures Consistent(f) && f.columns == MlHeader(s.header)
    ensures forall c :: c in f.data ==> f.data[c] == ColumnCells(Sheet(MlHeader(s.header), s.rows), c)
  {
    FromSheet(Sheet(MlHeader(s.header), s.rows))
  }

  /** Row `i`'s date as the script parses it. */
  function RowDate(toDatetime: string -> Option<Date>, s: Sheet, i: nat): Option<Date>
    requires i < |s.rows|
  {
    toDatetime(Trim(CellOf(MlHeader(s.header), s.rows[i], "data").GetOr("nan")))
  }

  /** Some row's date does not parse, which makes pandas hold month and year as floats. */
  predicate SomeDateMissing(toDatetime: string -> Option<Date>, s: Sheet)
  {
    exists j :: 0 <= j < |s.rows| && RowDate(toDatetime, s, j).None?
  }

  /** The parsed data column. */
  function DateColumn(toDatetime: string -> Option<Date>, s: Sheet): (r: seq<Option<Date>>)
    requires "data" in Read(s).data
    ensures |r| == |s.rows| && forall j :: 0 <= j < |s.rows| ==> r[j] == RowDate(toDatetime, s, j)
  {
    ParsedDates(toDatetime, Read(s).data["data"])
  }

  /** The column holds a NaT exactly when some row's date does not parse. */
  lemma DatesMissing(toDatetime: string -> Option<Date>, s: Sheet)
    requires "data" in Read(s).data
    ensures AnyMissing(DateColumn(toDatetime, s)) == SomeDateMissing(toDatetime, s)
  {
    var dates := DateColumn(toDatetime, s);
    if SomeDateMissing(toDatetime, s) {
      var j :| 0 <= j < |s.rows| && RowDate(toDatetime, s, j).None?;
      assert dates[j].None?;
    }
  }

  /** The frame once mes and ano are assigned and data is dropped. */
  function Dated(toDatetime: string -> Option<Date>, s: Sheet, floats: bool): (f: Frame)
    requires "data" in Read(s).data
    ensures Consistent(f)
    ensures f.data == Read(s).data["mes" := PartCells(DateColumn(toDatetime, s), Month, floats)]["ano" := PartCells(DateColumn(toDatetime, s), Year, floats)] - {"data"}
  {
    WithMonthYear(Read(s), DateColumn(toDatetime, s), floats)
  }

  /** The frame once the SKU column is rewritten. */
  function Skued(toDatetime: string -> Option<Date>, s: Sheet, floats: bool): (f: Frame)
    requires "data" in Read(s).data && "sku" in Dated(toDatetime, s, floats).data
    ensures Consistent(f) && "mes" in f.data && "ano" in f.data && "sku" in f.data
    ensures f.data == Dated(toDatetime, s, floats).data["sku" := SkuCells(Dated(toDatetime, s, floats).data["sku"])]
  {
    var d := Dated(toDatetime, s, floats);
    assert "mes" in d.data && "ano" in d.data;
    var f := Assigned(d, "sku", SkuCells(d.data["sku"]));
    assert f.data == d.data["sku" := SkuCells(d.data["sku"])];
    f
  }

  /**
   * The whole script on the table read with `sep=';'`, with its cells as
   * `astype(str)` writes them. `integerParts` chooses how month and year are
   * held: false is what pandas does (floats once any date is NaT), true
   * keeps them integers.
   */
  function MlProcessWith(toDatetime: string -> Option<Date>, s: Sheet, integerParts: bool): (r: Result<Sheet>)
    ensures r.Success? ==> r.value.header == OutputColumns() && |r.value.rows| == |s.rows|
    ensures r.Success? ==> forall i :: 0 <= i < |s.rows| ==> |r.value.rows[i]| == 6
  {
    if "data" !in Read(s).data then Failure("KeyError: 'data'")
    else
      var floats := !integerParts && SomeDateMissing(toDatetime, s);
      if "sku" !in Dated(toDatetime, s, floats).data then Failure("KeyError: 'sku'")
      else
        Finished(Skued(toDatetime, s, floats), |s.rows|)
  }

  /** ml.py as written. */
  function MlProcess(toDatetime: string -> Option<Date>, s: Sheet): (r: Result<Sheet>)
    ensures r.Success? ==> r.value.header == OutputColumns() && |r.value.rows| == |s.rows|
    ensures r.Success? ==> forall i :: 0 <= i < |s.rows| ==> |r.value.rows[i]| == 6
  {
    MlProcessWith(toDatetime, s, false)
  }

  /** ml.py with month and year kept as integers. */
  function MlProcessCorrected(toDatetime: string -> Option<Date>, s: Sheet): (r: Result<Sheet>)
    ensures r.Success? ==> r.value.header == OutputColumns() && |r.value.rows| == |s.rows|
    ensures r.Success? ==> forall i :: 0 <= i < |s.rows| ==> |r.value.rows[i]| == 6
  {
    MlProcessWith(toDatetime, s, true)
  }

  // ---------------------------------------------------------------- what the script writes

  /** A pattern holding a character the name lacks does not occur in it. */
  lemma NotContainsChar(s: string, pat: string, c: char)
    requires c in pat && c !in s
    ensures !Contains(s, pat)
  {
    ContainsIff(s, pat);
    var k :| 0 <= k < |pat| && pat[k] == c;
    forall i ensures !OccursAt(s, pat, i) {

    }
  }

  /** A name without 'e' and 'p', and without 'n' or 'm', mentions no description word. */
  lemma NotDescription(c: string)
    requires 'e' !in c && 'p' !in c && ('n' !in c || 'm' !in c)
    ensures !MentionsDescription(c)
  {
    assert "descricao"[1] == 'e';
    assert "produto"[0] == 'p';
    assert "nome"[0] == 'n' && "nome"[2] == 'm';
    NotContainsChar(c, "descricao", 'e');
    NotContainsChar(c, "produto", 'p');
    if 'n' !in c {
      NotContainsChar(c, "nome", 'n');
    } else {
      NotContainsChar(c, "nome", 'm');
    }
  }

  /** mes and vendas hold an 'e' but mention no description word either. */
  lemma MesVendasNotDescriptions()
    ensures !MentionsDescription("mes") && !MentionsDescription("vendas")
  {
    assert "descricao"[5] == 'i' && "descricao"[0] == 'd';
    assert "produto"[0] == 'p';
    assert "nome"[0] == 'n' && "nome"[2] == 'm';
    NotContainsChar("mes", "produto", 'p');
    NotContainsChar("mes", "descricao", 'd');
    NotContainsChar("mes", "nome", 'n');
    NotContainsChar("vendas", "produto", 'p');
    NotContainsChar("vendas", "descricao", 'i');
    NotContainsChar("vendas", "nome", 'm');
  }

  /** The names the script reads or adds, other than a description column, pass no description test. */
  lemma FixedNamesNotDescriptions()
    ensures !MentionsDescription("mes") && !MentionsDescription("ano") && !MentionsDescription("data")
    ensures !MentionsDescription("sku") && !MentionsDescription("vendas") && !MentionsDescription("valor_total")
  {
    MesVendasNotDescriptions();
    NotDescription("ano");
    NotDescription("data");
    NotDescription("sku");
    NotDescription("valor_total");
  }

  /** Which names the frame holds once data is replaced by mes and ano. */
  lemma DatedNames(toDatetime: string -> Option<Date>, s: Sheet, floats: bool)
    requires "data" in Read(s).data
    ensures forall c :: c in Dated(toDatetime, s, floats).data <==> (c in MlHeader(s.header) || c == "mes" || c == "ano") && c != "data"
  {
  }

  /**
   * The script stops exactly when the cleaned header lacks data, sku, a
   * description column, vendas or valor_total: KeyError for a missing
   * name, ValueError for the description column.
   */
  lemma MlFailsExactly(toDatetime: string -> Option<Date>, s: Sheet, integerParts: bool)
    ensures MlProcessWith(toDatetime, s, integerParts).Failure? <==>
      "data" !in MlHeader(s.header) || "sku" !in MlHeader(s.header) || FirstName(MlHeader(s.header), MentionsDescription).None? ||
      "vendas" !in MlHeader(s.header) || "valor_total" !in MlHeader(s.header)
  {
    var h := MlHeader(s.header);
    NamesDistinct();
    if "data" in h {
      var floats := !integerParts && SomeDateMissing(toDatetime, s);
      DatedNames(toDatetime, s, floats);
      if "sku" in h {
        MlFailsWithSku(toDatetime, s, integerParts);
      } else {
        assert "sku" !in Dated(toDatetime, s, floats).data;
      }
    } else {
      assert "data" !in Read(s).data;
    }
  }

  /** With its date and SKU columns present, the script fails exactly when the description, vendas or valor_total column is missing. */
  lemma MlFailsWithSku(toDatetime: string -> Option<Date>, s: Sheet, integerParts: bool)
    requires "data" in MlHeader(s.header) && "sku" in MlHeader(s.header)
    ensures MlProcessWith(toDatetime, s, integerParts).Failure? <==>
      FirstName(MlHeader(s.header), MentionsDescription).None? ||
      "vendas" !in MlHeader(s.header) || "valor_total" !in MlHeader(s.header)
  {
    var h := MlHeader(s.header);
    NamesDistinct();
    var floats := !integerParts && SomeDateMissing(toDatetime, s);
    DatedNames(toDatetime, s, floats);
    FixedNamesNotDescriptions();
    SkuedFirstDescription(toDatetime, s, floats);
    var f := Skued(toDatetime, s, floats);
    if FirstName(h, MentionsDescription).Some? {
      var desc := FirstName(h, MentionsDescription).value;
      MlProcessStages(toDatetime, s, integerParts);
      DescribedFails(f, desc, |s.rows|);
      assert "vendas" in f.data <==> "vendas" in h;
      assert "valor_total" in f.data <==> "valor_total" in h;
    } else {
      assert MlProcessWith(toDatetime, s, integerParts).Failure?;
    }
  }

  /** vendas and valor_total are none of the names the script adds, rewrites or drops. */
  lemma NamesDistinct()
    ensures "vendas" != "sku" && "vendas" != "data" && "vendas" != "mes" && "vendas" != "ano"
    ensures "valor_total" != "sku" && "valor_total" != "data" && "valor_total" != "mes" && "valor_total" != "ano"
    ensures "sku" != "data" && "sku" != "mes" && "sku" != "ano" && "mes" != "data" && "ano" != "data" && "mes" != "ano"
  {
    assert |"vendas"| == 6 && |"valor_total"| == 11 && |"sku"| == 3 && |"data"| == 4 && |"mes"| == 3 && |"ano"| == 3;
    assert "sku"[0] == 's' && "mes"[0] == 'm' && "ano"[0] == 'a';
  }

  /** The stages the script goes through, when it gets as far as the description column. */
  lemma MlProcessStages(toDatetime: string -> Option<Date>, s: Sheet, integerParts: bool)
    requires "data" in Read(s).data
    requires "sku" in Dated(toDatetime, s, !integerParts && SomeDateMissing(toDatetime, s)).data
    requires FirstName(Skued(toDatetime, s, !integerParts && SomeDateMissing(toDatetime, s)).columns, MentionsDescription).Some?
    ensures var f := Skued(toDatetime, s, !integerParts && SomeDateMissing(toDatetime, s));
      MlProcessWith(toDatetime, s, integerParts) == Described(f, FirstName(f.columns, MentionsDescription).value, |s.rows|)
  {
  }

  /** The last step, when every column it reads is there. */
  lemma DescribedIs(f: Frame, desc: string, n: nat)
    requires "sku" in f.data && "mes" in f.data && "ano" in f.data && desc in f.data
    requires "vendas" in f.data && "valor_total" in f.data
    ensures Described(f, desc, n) ==
      Success(Selected(Assigned(f, "descricao", DescricaoCells(n, f.data["sku"], f.data[desc], f.data["mes"], f.data["ano"], f.data["vendas"], f.data["valor_total"])),
                       OutputColumns(), n))
  {
  }

  /** The last step stops exactly on a missing vendas or valor_total column. */
  lemma DescribedFails(f: Frame, desc: string, n: nat)
    requires "sku" in f.data && "mes" in f.data && "ano" in f.data && desc in f.data
    ensures Described(f, desc, n).Failure? <==> "vendas" !in f.data || "valor_total" !in f.data
  {
  }

  /** The script's column order (data dropped, mes and ano appended) leaves the first description column first. */
  lemma SkuedFirstDescription(toDatetime: string -> Option<Date>, s: Sheet, floats: bool)
    requires "data" in Read(s).data && "sku" in Dated(toDatetime, s, floats).data
    ensures FirstName(Skued(toDatetime, s, floats).columns, MentionsDescription) == FirstName(MlHeader(s.header), MentionsDescription)
  {
    FixedNamesNotDescriptions();
    var dates := DateColumn(toDatetime, s);
    var r := Read(s);
    var a := Assigned(r, "mes", PartCells(dates, Month, floats));
    var b := Assigned(a, "ano", PartCells(dates, Year, floats));
    if "mes" !in r.columns {
      FirstNameAppend(r.columns, "mes", MentionsDescription);
    }
    if "ano" !in a.columns {
      FirstNameAppend(a.columns, "ano", MentionsDescription);
    }
    FirstNameWithout(b.columns, "data", MentionsDescription);
    assert Dated(toDatetime, s, floats).columns == Without(b.columns, "data");
  }

  /** Row `i` of the columns the script has rewritten by then. */
  lemma SkuedSku(toDatetime: string -> Option<Date>, s: Sheet, floats: bool, i: nat)
    requires "data" in Read(s).data && "sku" in Dated(toDatetime, s, floats).data && i < |s.rows|
    ensures CellAt(Skued(toDatetime, s, floats).data["sku"], i) == MlSkuCell(CellOf(MlHeader(s.header), s.rows[i], "sku"))
  {
    NamesDistinct();
    DatedKeeps(toDatetime, s, floats, "sku");
    ReadCell(s, "sku", i);
  }

  /** Adding mes and ano and dropping data leaves every other column as it was read. */
  lemma DatedKeeps(toDatetime: string -> Option<Date>, s: Sheet, floats: bool, c: string)
    requires "data" in Read(s).data && c in Dated(toDatetime, s, floats).data && c != "mes" && c != "ano"
    ensures c in Read(s).data && Dated(toDatetime, s, floats).data[c] == Read(s).data[c]
  {
  }

  /** Row `i` of a column as read. */
  lemma ReadCell(s: Sheet, c: string, i: nat)
    requires c in Read(s).data && i < |s.rows|
    ensures |Read(s).data[c]| == |s.rows| && Read(s).data[c][i] == CellOf(MlHeader(s.header), s.rows[i], c)
  {
  }

  lemma SkuedDate(toDatetime: string -> Option<Date>, s: Sheet, floats: bool, i: nat)
    requires "data" in Read(s).data && "sku" in Dated(toDatetime, s, floats).data && i < |s.rows|
    ensures CellAt(Skued(toDatetime, s, floats).data["mes"], i) == DatePartCell(RowDate(toDatetime, s, i), Month, floats)
    ensures CellAt(Skued(toDatetime, s, floats).data["ano"], i) == DatePartCell(RowDate(toDatetime, s, i), Year, floats)
  {
    NamesDistinct();
  }

  /** Row `i` of a column the script has not touched by then. */
  lemma SkuedOther(toDatetime: string -> Option<Date>, s: Sheet, floats: bool, c: string, i: nat)
    requires "data" in Read(s).data && "sku" in Dated(toDatetime, s, floats).data && i < |s.rows|
    requires c in MlHeader(s.header) && c != "sku" && c != "mes" && c != "ano" && c != "data"
    ensures c in Skued(toDatetime, s, floats).data
    ensures CellAt(Skued(toDatetime, s, floats).data[c], i) == CellOf(MlHeader(s.header), s.rows[i], c)
  {
    assert Skued(toDatetime, s, floats).data[c] == Read(s).data[c];
  }

  /** Row `i` of the selection: the six cells, descricao assembled from the others. */
  lemma DescribedRow(f: Frame, desc: string, n: nat, i: nat)
    requires "sku" in f.data && "mes" in f.data && "ano" in f.data && desc in f.data
    requires "vendas" in f.data && "valor_total" in f.data && i < n
    requires desc != "sku" && desc != "ano" && desc != "mes" && desc != "vendas" && desc != "valor_total"
    ensures Described(f, desc, n).Success?
    ensures Described(f, desc, n).value.rows[i] ==
      [CellAt(f.data["sku"], i),
       Some(DescricaoText(CellAt(f.data["sku"], i).GetOr("nan"), CellAt(f.data[desc], i).GetOr("nan"),
                          CellAt(f.data["mes"], i).GetOr("nan"), CellAt(f.data["ano"], i).GetOr("nan"),
                          CellAt(f.data["vendas"], i).GetOr("nan"), CellAt(f.data["valor_total"], i).GetOr("nan"))),
       CellAt(f.data["ano"], i), CellAt(f.data["mes"], i), CellAt(f.data["vendas"], i), CellAt(f.data["valor_total"], i)]
  {
    var row := Described(f, desc, n).value.rows[i];
    assert |row| == 6;
  }

  /** One written row, from the row read. */
  function RowOut(h: seq<string>, row: seq<Option<string>>, date: Option<Date>, floats: bool, desc: string): (r: seq<Option<string>>)
    ensures |r| == 6 && r[0].Some? && r[1].Some?
  {
    var sku := MlSkuCell(CellOf(h, row, "sku"));
    var mes := DatePartCell(date, Month, floats);
    var ano := DatePartCell(date, Year, floats);
    var vendas := CellOf(h, row, "vendas");
    var valor := CellOf(h, row, "valor_total");
    [sku, Some(DescricaoText(sku.value, CellOf(h, row, desc).GetOr("nan"), mes.GetOr("nan"), ano.GetOr("nan"), vendas.GetOr("nan"), valor.GetOr("nan"))),
     ano, mes, vendas, valor]
  }

  /**
   * Each written row, from the row read: the SKU cleaned, descricao
   * assembled from the first column whose cleaned name mentions descricao,
   * produto or nome, month and year from the parsed date, vendas and
   * valor_total as they were.
   */
  lemma MlRow(toDatetime: string -> Option<Date>, s: Sheet, integerParts: bool, i: nat)
    requires MlProcessWith(toDatetime, s, integerParts).Success? && i < |s.rows|
    ensures FirstName(MlHeader(s.header), MentionsDescription).Some?
    ensures MlProcessWith(toDatetime, s, integerParts).value.rows[i] ==
      RowOut(MlHeader(s.header), s.rows[i], RowDate(toDatetime, s, i), !integerParts && SomeDateMissing(toDatetime, s),
             FirstName(MlHeader(s.header), MentionsDescription).value)
  {
    var h := MlHeader(s.header);
    var floats := !integerParts && SomeDateMissing(toDatetime, s);
    NamesDistinct();
    MlFailsExactly(toDatetime, s, integerParts);
    DatedNames(toDatetime, s, floats);
    SkuedFirstDescription(toDatetime, s, floats);
    FixedNamesNotDescriptions();
    var f := Skued(toDatetime, s, floats);
    var desc := FirstName(h, MentionsDescription).value;
    SkuedOther(toDatetime, s, floats, desc, i);
    SkuedOther(toDatetime, s, floats, "vendas", i);
    SkuedOther(toDatetime, s, floats, "valor_total", i);
    SkuedSku(toDatetime, s, floats, i);
    SkuedDate(toDatetime, s, floats, i);
    DescribedRow(f, desc, |s.rows|, i);
    MlProcessStages(toDatetime, s, integerParts);
  }

  // ---------------------------------------------------------------- month and year written as floats

  /** The text descricao is meant to hold: month zero-padded to two digits, year as an integer. */
  function IntendedDescricao(sku: string, desc: string, d: Date, vendas: string, valor: string): string
  {
    sku + " - " + desc + " - mes " + ZeroPad2(d.month) + " - ano " + IntToString(d.year) + " - " + vendas + " vendas - " + valor + "reais de valor_total"
  }

  /** With integer parts, a dated row's descricao is the intended one. */
  lemma RowOutIntended(h: seq<string>, row: seq<Option<string>>, d: Date, desc: string)
    ensures RowOut(h, row, Some(d), false, desc)[3] == Some(IntToString(d.month))
    ensures RowOut(h, row, Some(d), false, desc)[2] == Some(IntToString(d.year))
    ensures RowOut(h, row, Some(d), false, desc)[1] ==
      Some(IntendedDescricao(RowOut(h, row, Some(d), false, desc)[0].value, CellOf(h, row, desc).GetOr("nan"), d,
                             CellOf(h, row, "vendas").GetOr("nan"), CellOf(h, row, "valor_total").GetOr("nan")))
  {
    Zfill2IntToString(d.month);
    assert IntToString(d.month) + "" == IntToString(d.month);
    assert IntToString(d.year) + "" == IntToString(d.year);
  }

  /** With float parts, a dated row's month and year carry ".0" and descricao is longer than intended. */
  lemma RowOutFloat(h: seq<string>, row: seq<Option<string>>, d: Date, desc: string)
    requires 1 <= d.month <= 12
    ensures RowOut(h, row, Some(d), true, desc)[3] == Some(IntToString(d.month) + ".0")
    ensures RowOut(h, row, Some(d), true, desc)[2] == Some(IntToString(d.year) + ".0")
    ensures |RowOut(h, row, Some(d), true, desc)[1].value| >
      |IntendedDescricao(RowOut(h, row, Some(d), true, desc)[0].value, CellOf(h, row, desc).GetOr("nan"), d,
                         CellOf(h, row, "vendas").GetOr("nan"), CellOf(h, row, "valor_total").GetOr("nan"))|
  {
    ZeroPad2Month(d.month);
    assert |IntToString(d.month)| >= 1;
    assert |Zfill2(IntToString(d.month) + ".0")| >= 3;
  }

  /**
   * As written: once any date of the file fails to parse, every month and
   * year is written as a float, so a January sale reads "mes 1.0 - ano
   * 2025.0" and no dated row carries the intended description.
   */
  lemma MlMonthWrittenAsFloat(toDatetime: string -> Option<Date>, s: Sheet, i: nat, d: Date)
    requires MlProcess(toDatetime, s).Success? && i < |s.rows|
    requires RowDate(toDatetime, s, i) == Some(d) && 1 <= d.month <= 12
    requires SomeDateMissing(toDatetime, s)
    ensures FirstName(MlHeader(s.header), MentionsDescription).Some?
    ensures MlProcess(toDatetime, s).value.rows[i] == RowOut(MlHeader(s.header), s.rows[i], Some(d), true, FirstName(MlHeader(s.header), MentionsDescription).value)
    ensures MlProcess(toDatetime, s).value.rows[i][3] == Some(IntToString(d.month) + ".0")
    ensures MlProcess(toDatetime, s).value.rows[i][2] == Some(IntToString(d.year) + ".0")
    ensures MlProcess(toDatetime, s).value.rows[i][1].Some?
  {
    MlRow(toDatetime, s, false, i);
    RowOutFloat(MlHeader(s.header), s.rows[i], d, FirstName(MlHeader(s.header), MentionsDescription).value);
  }

  /** The float month is not zero-padded: zfill(2) leaves "1.0" as it is, where "01" was meant. */
  lemma FloatMonthNotPadded()
    ensures DatePartCell(Some(Date(2025, 1, 5)), Month, true) == Some("1.0")
    ensures Zfill2("1.0") == "1.0" && ZeroPad2(1) == "01"
  {
    assert DigitChar(1) == '1';
    assert NatToString(1) == "1";
    assert IntToString(1) == "1";
    assert Month(Date(2025, 1, 5)) == 1;
    assert "1" + ".0" == "1.0";
  }

  /** Corrected: every dated row gets the intended description, whatever the other rows hold. */
  lemma MlCorrectedDescricao(toDatetime: string -> Option<Date>, s: Sheet, i: nat, d: Date)
    requires MlProcessCorrected(toDatetime, s).Success? && i < |s.rows|
    requires RowDate(toDatetime, s, i) == Some(d)
    ensures FirstName(MlHeader(s.header), MentionsDescription).Some?
    ensures MlProcessCorrected(toDatetime, s).value.rows[i] == RowOut(MlHeader(s.header), s.rows[i], Some(d), false, FirstName(MlHeader(s.header), MentionsDescription).value)
    ensures MlProcessCorrected(toDatetime, s).value.rows[i][3] == Some(IntToString(d.month))
    ensures MlProcessCorrected(toDatetime, s).value.rows[i][2] == Some(IntToString(d.year))
  {
    MlRow(toDatetime, s, true, i);
    RowOutIntended(MlHeader(s.header), s.rows[i], d, FirstName(MlHeader(s.header), MentionsDescription).value);
  }

  /** When every date parses, the script as written and the corrected one write the same table. */
  lemma MlAgreesWhenDatesParse(toDatetime: string -> Option<Date>, s: Sheet)
    requires !SomeDateMissing(toDatetime, s)
    ensures MlProcess(toDatetime, s) == MlProcessCorrected(toDatetime, s)
  {
  }

  // ---------------------------------------------------------------- the DataFrame, in place

  /** The DataFrame the script updates column by column. */
  class DataFrame {
    var columns: seq<string>
    var data: map<string, seq<Option<string>>>

    function Snapshot(): Frame
      reads this
    {
      Frame(columns, data)
    }

    constructor (s: Sheet)
      ensures Snapshot() == FromSheet(s)
    {
      var f := FromSheet(s);
      columns, data := f.columns, f.data;
    }

    /** `df[name] = cells`. */
    method Assign(name: string, cells: seq<Option<string>>)
      modifies this
      ensures Snapshot() == Assigned(old(Snapshot()), name, cells)
    {
      if name !in columns {
        columns := columns + [name];
      }
      data := data[name := cells];
    }

    /** `df.drop(columns=[name], inplace=True)`. */
    method Drop(name: string)
      modifies this
      ensures Snapshot() == Dropped(old(Snapshot()), name)
    {
      columns := Without(columns, name);
      data := data - {name};
    }
  }

  /** The script's statements in order, on the DataFrame updated in place. */
  method RunMl(toDatetime: string -> Option<Date>, s: Sheet) returns (r: Result<Sheet>)
    ensures r == MlProcess(toDatetime, s)
  {
    var n := |s.rows|;
    var df := new DataFrame(Sheet(MlHeader(s.header), s.rows));
    NamesDistinct();
    assert df.Snapshot() == Read(s);
    if "data" !in df.data {
      return Failure("KeyError: 'data'");
    }
    var dates := ParsedDates(toDatetime, df.data["data"]);
    var floats := AnyMissing(dates);
    DatesMissing(toDatetime, s);
    df.Assign("mes", PartCells(dates, Month, floats));
    df.Assign("ano", PartCells(dates, Year, floats));
    df.Drop("data");
    assert df.Snapshot() == Dated(toDatetime, s, floats);
    if "sku" !in df.data {
      return Failure("KeyError: 'sku'");
    }
    df.Assign("sku", SkuCells(df.data["sku"]));
    assert df.Snapshot() == Skued(toDatetime, s, floats);
    r := FinishMl(df, n);
  }

  /** From the search for the description column to the selection of the output columns. */
  method FinishMl(df: DataFrame, n: nat) returns (r: Result<Sheet>)
    requires "sku" in df.data && "mes" in df.data && "ano" in df.data && Consistent(df.Snapshot())
    modifies df
    ensures r == Finished(old(df.Snapshot()), n)
  {
    var colDesc := FirstName(df.columns, MentionsDescription);
    if colDesc.None? {
      return Failure("ValueError: Coluna de descrição não encontrada");
    }
    if "vendas" !in df.data {
      return Failure("KeyError: 'vendas'");
    }
    if "valor_total" !in df.data {
      return Failure("KeyError: 'valor_total'");
    }
    ghost var f := df.Snapshot();
    DescribedIs(f, colDesc.value, n);
    df.Assign("descricao", DescricaoCells(n, df.data["sku"], df.data[colDesc.value], df.data["mes"], df.data["ano"],
                                          df.data["vendas"], df.data["valor_total"]));
    r := Success(Selected(df.Snapshot(), OutputColumns(), n));
  }
}
