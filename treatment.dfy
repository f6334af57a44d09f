/**
 * scripts/tratamento_marketplaces.py: every marketplace export whose file
 * name names a channel and a year is read (a workbook sheet by sheet, a
 * delimited file with a sniffed or a ';' separator), its header is brought to
 * the six field names the later scripts expect, the amounts are cleaned, and
 * every row is stamped with the year, month and channel its file name gives.
 */
module MarketplaceTreatment {
  import opened Wrappers
  import opened Strings
  import opened Numbers
  import opened Normalisers
  import opened Frames

  // ---------------------------------------------------------------- header names

  /** Each field the script writes, with the header names it accepts, in the order it tries them. */
  const Fields: seq<(string, seq<string>)> := [
    ("sku", ["sku", "SKU", "Código", "Cod Produto", "Product ID", "product_id", "cod_produto", "codigo do produto"]),
    ("produto", ["produto", "Product Name", "nome", "Descrição", "product_title", "nome do produto"]),
    ("vendas", ["vendas", "Qtde Vendida", "Quantidade", "units_sold", "Qtd", "qtd vendida"]),
    ("valor_total", ["valor_total", "faturamento", "receita", "Valor Total", "valor_bruto", "total_revenue", "total"]),
    ("visualizacoes", ["visualizacoes", "views", "impressions", "Visualizações", "visualizações"]),
    ("devolucoes", ["devolucoes", "returns", "cancelamentos", "Cancelamentos"])
  ]

  /** `name in df.columns`, as a test on names. */
  function PresentIn(cols: seq<string>): string -> bool
  {
    a => a in cols
  }

  /** df.rename(columns={from: to}): every column called `from` is renamed. */
  function RenameAll(cols: seq<string>, from: string, to: string): seq<string>
  {
    seq(|cols|, i requires 0 <= i < |cols| => if cols[i] == from then to else cols[i])
  }

  /** One field of the mapping: the first of its names that the header holds is renamed, and no other. */
  function RenameField(cols: seq<string>, field: (string, seq<string>)): (r: seq<string>)
    ensures |r| == |cols|
    ensures forall i :: 0 <= i < |cols| ==> r[i] == cols[i] || (r[i] == field.0 && cols[i] in field.1)
    ensures (exists a :: a in field.1 && a in cols) ==> field.0 in r
  {
    match FirstIndex(field.1, PresentIn(cols))
    case None => cols
    case Some(j) =>
      var r := RenameAll(cols, field.1[j], field.0);
      var i :| 0 <= i < |cols| && cols[i] == field.1[j];
      assert r[i] == field.0;
      r
  }

  /** The fields of `fields` applied in order. */
  function RenamedBy(cols: seq<string>, fields: seq<(string, seq<string>)>): seq<string>
    decreases |fields|
  {
    if fields == [] then cols
    else RenameField(RenamedBy(cols, fields[..|fields| - 1]), fields[|fields| - 1])
  }

  /** Applying one more field renames the result of the fields before it. */
  lemma RenamedByStep(cols: seq<string>, fields: seq<(string, seq<string>)>, f: nat)
    requires f < |fields|
    ensures RenamedBy(cols, fields[..f + 1]) == RenameField(RenamedBy(cols, fields[..f]), fields[f])
  {
    assert fields[..f + 1][..f] == fields[..f];
  }

  function Trimmed(cols: seq<string>): seq<string>
  {
    seq(|cols|, i requires 0 <= i < |cols| => Trim(cols[i]))
  }

  /** normalizar_colunas: strip every header name, then rename field by field. */
  function NormalizedHeader(cols: seq<string>): seq<string>
  {
    RenamedBy(Trimmed(cols), Fields)
  }

  predicate IsAlias(fields: seq<(string, seq<string>)>, c: string)
  {
    exists f :: 0 <= f < |fields| && c in fields[f].1
  }

  predicate IsCanonical(fields: seq<(string, seq<string>)>, c: string)
  {
    exists f :: 0 <= f < |fields| && c == fields[f].0
  }

  /** Renaming keeps the width, and a renamed column was one of the accepted names and is now a field name. */
  lemma {:induction false} RenamedByShape(cols: seq<string>, fields: seq<(string, seq<string>)>)
    ensures |RenamedBy(cols, fields)| == |cols|
    ensures forall i :: 0 <= i < |cols| ==>
      (RenamedBy(cols, fields)[i] == cols[i] ||
       (IsCanonical(fields, RenamedBy(cols, fields)[i]) && IsAlias(fields, cols[i])))
    decreases |fields|
  {
    if fields != [] {
      var init := fields[..|fields| - 1];
      var f := fields[|fields| - 1];
      RenamedByShape(cols, init);
      var mid := RenamedBy(cols, init);
      var r := RenameField(mid, f);
      forall i | 0 <= i < |cols|
        ensures r[i] == cols[i] || (IsCanonical(fields, r[i]) && IsAlias(fields, cols[i]))
      {
        if mid[i] != cols[i] {
          var g :| 0 <= g < |init| && cols[i] in init[g].1;
          assert fields[g] == init[g];
          var h :| 0 <= h < |init| && mid[i] == init[h].0;
          assert fields[h] == init[h];
        }
        if r[i] != mid[i] {
          assert r[i] == fields[|fields| - 1].0;
          if mid[i] == cols[i] {
            assert cols[i] in fields[|fields| - 1].1;
          }
        }
      }
    }
  }

  /** Every normalised name is the stripped original or a field name that the stripped original stood for. */
  lemma NormalizedHeaderShape(cols: seq<string>)
    ensures |NormalizedHeader(cols)| == |cols|
    ensures forall i :: 0 <= i < |cols| ==>
      (NormalizedHeader(cols)[i] == Trim(cols[i]) ||
       (IsCanonical(Fields, NormalizedHeader(cols)[i]) && IsAlias(Fields, Trim(cols[i]))))
  {
    RenamedByShape(Trimmed(cols), Fields);
  }

  /** A field whose own name comes first among its names leaves a header that already has that name alone. */
  lemma CanonicalNameKept(cols: seq<string>, field: (string, seq<string>))
    requires field.1 != [] && field.1[0] == field.0
    requires field.0 in cols
    ensures RenameField(cols, field) == cols
  {
    assert PresentIn(cols)(field.1[0]);
  }

  /** Every field of the script lists its own name first. */
  lemma FieldsListOwnNameFirst()
    ensures forall f :: 0 <= f < |Fields| ==> Fields[f].1 != [] && Fields[f].1[0] == Fields[f].0
  {
  }

  /** The search for a field's first accepted name, as the script's inner loop does it. */
  method FindAlias(cols: seq<string>, aliases: seq<string>) returns (r: Option<nat>)
    ensures r == FirstIndex(aliases, PresentIn(cols))
  {
    var j := 0;
    while j < |aliases|
      invariant 0 <= j <= |aliases|
      invariant forall k :: 0 <= k < j ==> aliases[k] !in cols
    {
      if aliases[j] in cols {
        FirstIndexAt(aliases, PresentIn(cols), j);
        return Some(j);
      }
      j := j + 1;
    }
    FirstIndexNone(aliases, PresentIn(cols));
    return None;
  }

  /** df.rename(columns={from: to}, inplace=True). */
  method RenameInPlace(cols: array<string>, from: string, to: string)
    modifies cols
    ensures cols[..] == RenameAll(old(cols[..]), from, to)
  {
    for i := 0 to cols.Length
      invariant forall k :: 0 <= k < i ==> cols[k] == (if old(cols[k]) == from then to else old(cols[k]))
      invariant forall k :: i <= k < cols.Length ==> cols[k] == old(cols[k])
    {
      if cols[i] == from {
        cols[i] := to;
      }
    }
  }

  /** normalizar_colunas on the header in place: strip every name, then each field's first accepted name becomes the field's name. */
  method NormalizeColumns(cols: array<string>)
    modifies cols
    ensures cols[..] == NormalizedHeader(old(cols[..]))
  {
    for i := 0 to cols.Length
      invariant forall k :: 0 <= k < i ==> cols[k] == Trim(old(cols[k]))
      invariant forall k :: i <= k < cols.Length ==> cols[k] == old(cols[k])
    {
      cols[i] := Trim(cols[i]);
    }
    ghost var trimmed := cols[..];
    assert trimmed == Trimmed(old(cols[..]));
    for f := 0 to |Fields|
      invariant cols[..] == RenamedBy(trimmed, Fields[..f])
    {
      ghost var before := cols[..];
      var field := Fields[f];
      var found := FindAlias(cols[..], field.1);
      if found.Some? {
        RenameInPlace(cols, field.1[found.value], field.0);
      }
      assert cols[..] == RenameField(before, field);
      RenamedByStep(trimmed, Fields, f);
    }
    assert Fields[..|Fields|] == Fields;
  }

  // ---------------------------------------------------------------- file names

  /** A "20dd" at index `i`: the regular expression `20\d{2}`. */
  predicate YearAt(s: string, i: int)
  {
    0 <= i && i + 4 <= |s| && s[i] == '2' && s[i + 1] == '0' && IsDigit(s[i + 2]) && IsDigit(s[i + 3])
  }

  /** re.search(r'20\d{2}', s) from index `from`: the leftmost match. */
  function FindYear(s: string, from: nat): (r: Option<nat>)
    ensures r.Some? ==> from <= r.value && YearAt(s, r.value)
    ensures r.Some? ==> forall j :: from <= j < r.value ==> !YearAt(s, j)
    ensures r.None? ==> forall j :: from <= j ==> !YearAt(s, j)
    decreases |s| - from
  {
    if from + 4 > |s| then None
    else if YearAt(s, from) then Some(from)
    else FindYear(s, from + 1)
  }

  /** The month abbreviations, in the order the script tries them. */
  const Months: seq<string> := ["jan", "fev", "mar", "abr", "mai", "jun", "jul", "ago", "set", "out", "nov", "dez"]

  function ContainedIn(s: string): string -> bool
  {
    pat => Contains(s, pat)
  }

  /**
   * extrair_ano_mes: the year of the leftmost "20dd" of the lower-cased name,
   * and the month of the first abbreviation in calendar order that the name
   * holds anywhere.
   */
  function YearMonth(name: string): (r: (Option<int>, Option<int>))
    ensures r.0.Some? <==> exists i :: YearAt(name, i)
    ensures r.0.Some? ==> 2000 <= r.0.value <= 2099
    ensures r.1.Some? ==>
      (1 <= r.1.value <= 12 && Contains(Lower(name), Months[r.1.value - 1]) &&
       forall m :: 0 <= m < r.1.value - 1 ==> !Contains(Lower(name), Months[m]))
    ensures r.1.None? ==> forall m :: 0 <= m < |Months| ==> !Contains(Lower(name), Months[m])
  {
    var lower := Lower(name);
    LowerKeepsYears(name);
    var year := match FindYear(lower, 0)
      case None => None
      case Some(i) => Some(2000 + TwoDigitValue(lower[i + 2], lower[i + 3]));
    var month := match FirstIndex(Months, ContainedIn(lower))
      case None => None
      case Some(m) => Some(m + 1);
    (year, month)
  }

  function TwoDigitValue(a: char, b: char): (v: int)
    requires IsDigit(a) && IsDigit(b)
    ensures 0 <= v <= 99
  {
    DigitValue(a) * 10 + DigitValue(b)
  }

  /** Lower-casing moves no digit: the years of a name are those of its lower-cased form. */
  lemma LowerKeepsYears(name: string)
    ensures forall i :: YearAt(Lower(name), i) <==> YearAt(name, i)
  {
  }

  /** identificar_canal: the first channel whose markers the lower-cased name holds, in the script's order. */
  function Channel(name: string): (r: Option<string>)
    ensures r.Some? ==> r.value in Channels
  {
    var n := Lower(name);
    if Contains(n, "meli") || Contains(n, "ml") || Contains(n, "mercado") then Some("mercadolivre")
    else if Contains(n, "amazon") then Some("amazon")
    else if Contains(n, "tiktok") then Some("tiktok")
    else if Contains(n, "blz") || Contains(n, "beleza") then Some("beleza_na_web")
    else if Contains(n, "shopee") then Some("shopee")
    else None
  }

  const Channels: set<string> := {"mercadolivre", "amazon", "tiktok", "beleza_na_web", "shopee"}

  /** Each marker, alone in a name, gives its channel; "ml" wins over every other marker. */
  lemma ChannelMarkers(name: string)
    ensures Contains(Lower(name), "ml") ==> Channel(name) == Some("mercadolivre")
    ensures Contains(Lower(name), "shopee") ==> Channel(name).Some?
    ensures Channel(name).None? <==>
      (!Contains(Lower(name), "meli") && !Contains(Lower(name), "ml") &&
       !Contains(Lower(name), "mercado") && !Contains(Lower(name), "amazon") && !Contains(Lower(name), "tiktok") &&
       !Contains(Lower(name), "blz") && !Contains(Lower(name), "beleza") && !Contains(Lower(name), "shopee"))
  {
  }

  /** The channel names the script writes are recognised as themselves. */
  lemma ChannelOfChannel(c: string)
    requires c in Channels
    ensures Channel(c) == Some(c)
  {
    if c == "amazon" { AmazonChannel(); }
    else if c == "tiktok" { TiktokChannel(); }
    else if c == "beleza_na_web" { BelezaChannel(c); }
    else if c == "shopee" { ShopeeChannel(); }
    else { MercadoChannel(); }
  }

  lemma MercadoChannel()
    ensures Channel("mercadolivre") == Some("mercadolivre")
  {
    var n := "mercadolivre";
    LowerOfLowerCase(n);
    assert OccursAt(n, "mercado", 0);
  }

  lemma AmazonChannel()
    ensures Channel("amazon") == Some("amazon")
  {
    var n := "amazon";
    LowerOfLowerCase(n);
    MissingChar(n, "meli", 'l');
    MissingChar(n, "ml", 'l');
    MissingChar(n, "mercado", 'c');
    assert OccursAt(n, "amazon", 0);
  }

  lemma TiktokChannel()
    ensures Channel("tiktok") == Some("tiktok")
  {
    var n := "tiktok";
    LowerOfLowerCase(n);
    NoPatternWithoutFirstChar(n, "meli");
    NoPatternWithoutFirstChar(n, "ml");
    NoPatternWithoutFirstChar(n, "mercado");
    NoPatternWithoutFirstChar(n, "amazon");
    assert OccursAt(n, "tiktok", 0);
  }

  lemma BelezaChannel(n: string)
    requires n == "beleza_na_web"
    ensures Channel(n) == Some(n)
  {
    BelezaMarkers(n);
    BelezaWhen(n);
  }

  lemma BelezaMarkers(n: string)
    requires n == "beleza_na_web"
    ensures Lower(n) == n
    ensures !Contains(n, "meli") && !Contains(n, "ml") && !Contains(n, "mercado")
    ensures !Contains(n, "amazon") && !Contains(n, "tiktok") && Contains(n, "beleza")
  {
    LowerOfLowerCase(n);
    NoPatternWithoutFirstChar(n, "meli");
    NoPatternWithoutFirstChar(n, "ml");
    NoPatternWithoutFirstChar(n, "mercado");
    MissingChar(n, "amazon", 'm');
    NoPatternWithoutFirstChar(n, "tiktok");
    assert OccursAt(n, "beleza", 0);
    ContainsIff(n, "beleza");
  }

  lemma BelezaWhen(name: string)
    requires !Contains(Lower(name), "meli") && !Contains(Lower(name), "ml") && !Contains(Lower(name), "mercado")
    requires !Contains(Lower(name), "amazon") && !Contains(Lower(name), "tiktok") && Contains(Lower(name), "beleza")
    ensures Channel(name) == Some("beleza_na_web")
  {
  }

  lemma ShopeeChannel()
    ensures Channel("shopee") == Some("shopee")
  {
    var n := "shopee";
    LowerOfLowerCase(n);
    ShopeeLacksOtherMarkers();
    assert OccursAt(n, "shopee", 0);
    ContainsIff(n, "shopee");
    ShopeeWhen(n);
  }

  lemma ShopeeWhen(name: string)
    requires !Contains(Lower(name), "meli") && !Contains(Lower(name), "ml") && !Contains(Lower(name), "mercado")
    requires !Contains(Lower(name), "amazon") && !Contains(Lower(name), "tiktok")
    requires !Contains(Lower(name), "blz") && !Contains(Lower(name), "beleza") && Contains(Lower(name), "shopee")
    ensures Channel(name) == Some("shopee")
  {
  }

  lemma ShopeeLacksOtherMarkers()
    ensures !Contains("shopee", "meli") && !Contains("shopee", "ml") && !Contains("shopee", "mercado")
    ensures !Contains("shopee", "amazon") && !Contains("shopee", "tiktok")
    ensures !Contains("shopee", "blz") && !Contains("shopee", "beleza")
  {
    var n := "shopee";
    NoPatternWithoutFirstChar(n, "meli");
    NoPatternWithoutFirstChar(n, "ml");
    NoPatternWithoutFirstChar(n, "mercado");
    NoPatternWithoutFirstChar(n, "amazon");
    NoPatternWithoutFirstChar(n, "tiktok");
    NoPatternWithoutFirstChar(n, "blz");
    NoPatternWithoutFirstChar(n, "beleza");
  }

  /** Lower-casing leaves text with no capital letter alone. */
  lemma LowerOfLowerCase(s: string)
    requires forall i :: 0 <= i < |s| ==> 'a' <= s[i] <= 'z' || s[i] == '_'
    ensures Lower(s) == s
  {
  }

  /** A pattern holding a character that `s` lacks does not occur in `s`. */
  lemma MissingChar(s: string, pat: string, c: char)
    requires c in pat && c !in s
    ensures !Contains(s, pat)
  {
    ContainsIff(s, pat);
  }

  // ---------------------------------------------------------------- loading

  /** The index of the last '.' of `s`. */
  function LastDot(s: string): (r: Option<nat>)
    ensures r.Some? ==> r.value < |s| && s[r.value] == '.' && '.' !in s[r.value + 1..]
    ensures r.None? ==> '.' !in s
    decreases |s|
  {
    if s == [] then None
    else if s[|s| - 1] == '.' then Some(|s| - 1)
    else
      var r := LastDot(s[..|s| - 1]);
      if r.Some? then
        assert s[r.value + 1..] == s[..|s| - 1][r.value + 1..] + [s[|s| - 1]];
        r
      else
        assert s == s[..|s| - 1] + [s[|s| - 1]];
        None
  }

  /** pathlib's Path.suffix: from the last '.' on, unless that '.' starts or ends the name. */
  function PathSuffix(name: string): (r: string)
    ensures r != [] ==> r[0] == '.' && '.' !in r[1..] && EndsWith(name, r) && |r| < |name|
  {
    match LastDot(name)
    case None => ""
    case Some(i) =>
      if 0 < i < |name| - 1 then
        assert name[i..][1..] == name[i + 1..];
        name[i..]
      else ""
  }

  /** One sheet of a workbook: its name, and its table, or None when read_excel raised on it. */
  datatype SheetRead = SheetRead(name: string, table: Option<Sheet>)

  /**
   * One file of the input folders, with what each reader the script may call
   * gives for it: pd.ExcelFile (None when it raises), read_csv with a sniffed
   * separator and read_csv with ';' (None when they raise).
   */
  datatype InputFile = InputFile(name: string, workbook: Option<seq<SheetRead>>, sniffed: Option<Sheet>, semicolon: Option<Sheet>)

  /** Sheet `k` reads, and passes the Mercado Livre name test. */
  predicate KeptAt(canal: string, sheets: seq<SheetRead>, k: int)
  {
    0 <= k < |sheets| && sheets[k].table.Some? &&
    (canal == "mercadolivre" ==> Contains(Lower(sheets[k].name), "negócio"))
  }

  /** The sheets carregar_arquivo keeps: those that read, and for Mercado Livre only those named "negócio". */
  function KeptSheets(canal: string, sheets: seq<SheetRead>): (r: seq<Sheet>)
    ensures |r| <= |sheets|
    ensures forall t :: t in r ==> exists k :: KeptAt(canal, sheets, k) && sheets[k].table == Some(t)
  {
    if sheets == [] then []
    else
      var rest := KeptSheets(canal, sheets[1..]);
      var s := sheets[0];
      forall t | t in rest
        ensures exists k :: KeptAt(canal, sheets, k) && sheets[k].table == Some(t)
      {
        var k :| KeptAt(canal, sheets[1..], k) && sheets[1..][k].table == Some(t);
        assert sheets[k + 1] == sheets[1..][k];
        assert KeptAt(canal, sheets, k + 1);
      }
      if (canal == "mercadolivre" && !Contains(Lower(s.name), "negócio")) || s.table.None? then rest
      else
        assert KeptAt(canal, sheets, 0);
        [s.table.value] + rest
  }

  /** The names of `b` that `a` lacks, in order: the columns pd.concat appends. */
  function NewNames(a: seq<string>, b: seq<string>): (r: seq<string>)
    ensures forall c :: c in r <==> c in b && c !in a
    decreases |b|
  {
    if b == [] then []
    else (if b[0] in a then [] else [b[0]]) + NewNames(a, b[1..])
  }

  /** The header pd.concat gives: the columns of each table in turn, each name the first time it appears. */
  function UnionHeader(ss: seq<Sheet>): (r: seq<string>)
    ensures forall k, c :: 0 <= k < |ss| && c in ss[k].header ==> c in r
    decreases |ss|
  {
    if ss == [] then []
    else
      var init := UnionHeader(ss[..|ss| - 1]);
      var r := init + NewNames(init, ss[|ss| - 1].header);
      assert forall k, c :: 0 <= k < |ss| - 1 && c in ss[k].header ==> c in init by {
        forall k, c | 0 <= k < |ss| - 1 && c in ss[k].header ensures c in init {
          assert ss[..|ss| - 1][k] == ss[k];
        }
      }
      r
  }

  /** One row re-laid onto `into`: each column takes the row's cell of that name, NaN when it had none. */
  function Project(header: seq<string>, row: seq<Option<string>>, into: seq<string>): (r: seq<Option<string>>)
    ensures |r| == |into|
  {
    seq(|into|, j requires 0 <= j < |into| => CellOf(header, row, into[j]))
  }

  function ProjectRows(s: Sheet, into: seq<string>): seq<seq<Option<string>>>
  {
    seq(|s.rows|, i requires 0 <= i < |s.rows| => Project(s.header, s.rows[i], into))
  }

  function StackRows(ss: seq<Sheet>, into: seq<string>): seq<seq<Option<string>>>
    decreases |ss|
  {
    if ss == [] then [] else StackRows(ss[..|ss| - 1], into) + ProjectRows(ss[|ss| - 1], into)
  }

  /** pd.concat(frames, ignore_index=True): the union header, and the rows of each table in turn. */
  function ConcatSheets(ss: seq<Sheet>): Sheet
  {
    var h := UnionHeader(ss);
    Sheet(h, StackRows(ss, h))
  }

  function RowCount(ss: seq<Sheet>): nat
    decreases |ss|
  {
    if ss == [] then 0 else RowCount(ss[..|ss| - 1]) + |ss[|ss| - 1].rows|
  }

  /** Concatenation neither loses nor invents rows. */
  lemma {:induction false} ConcatRowCount(ss: seq<Sheet>)
    ensures |ConcatSheets(ss).rows| == RowCount(ss)
  {
    StackRowCount(ss, UnionHeader(ss));
  }

  lemma {:induction false} StackRowCount(ss: seq<Sheet>, into: seq<string>)
    ensures |StackRows(ss, into)| == RowCount(ss)
    decreases |ss|
  {
    if ss != [] {
      StackRowCount(ss[..|ss| - 1], into);
    }
  }

  /** A re-laid row reads, under every name of the new header, what it read under that name before. */
  lemma ProjectKeepsCells(header: seq<string>, row: seq<Option<string>>, into: seq<string>, name: string)
    requires name in into
    ensures CellOf(into, Project(header, row, into), name) == CellOf(header, row, name)
  {
    var j := FirstIndex(into, c => c == name);
    assert into[j.value] == name;
  }

  /** carregar_arquivo: the kept sheets of a workbook concatenated, or a delimited file read with a sniffed, then a ';', separator. */
  function Load(f: InputFile, canal: string): (r: Result<Sheet>)
    ensures PathSuffix(f.name) != ".xlsx" && PathSuffix(f.name) != ".xls" ==>
      (r.Success? <==> f.sniffed.Some? || f.semicolon.Some?)
    ensures (PathSuffix(f.name) == ".xlsx" || PathSuffix(f.name) == ".xls") && f.workbook.Some? ==>
      r.Success? && r.value.header == UnionHeader(KeptSheets(canal, f.workbook.value))
  {
    if PathSuffix(f.name) == ".xlsx" || PathSuffix(f.name) == ".xls" then
      match f.workbook
      case None => Failure("the file is not a workbook")
      case Some(sheets) =>
        var kept := KeptSheets(canal, sheets);
        if kept == [] then Success(Sheet([], [])) else Success(ConcatSheets(kept))
    else if f.sniffed.Some? then Success(f.sniffed.value)
    else if f.semicolon.Some? then Success(f.semicolon.value)
    else Failure("read_csv failed with both separators")
  }

  // ---------------------------------------------------------------- rows

  /** A row of the consolidated table, in the order of colunas_ordenadas. */
  datatype Record = Record(
    sku: Option<string>, produto: Option<string>,
    vendas: Option<real>, valorTotal: Option<real>, visualizacoes: Option<real>, devolucoes: Option<real>,
    ano: Option<int>, mes: Option<int>, canal: string)

  /** limpar_valores on one column, or the NaN the script pads a missing column with. */
  function Amount(header: seq<string>, row: seq<Option<string>>, name: string): (r: Option<real>)
    ensures name !in header ==> r.None?
    ensures name in header ==> r == SignedAmountOrNaN(CellOf(header, row, name))
  {
    if name in header then SignedAmountOrNaN(CellOf(header, row, name)) else None
  }

  /** One row under the normalised header, stamped with the file's year, month and channel. */
  function RecordOf(header: seq<string>, row: seq<Option<string>>, ym: (Option<int>, Option<int>), canal: string): (r: Record)
    ensures r.ano == ym.0 && r.mes == ym.1 && r.canal == canal
    ensures "sku" !in header ==> r.sku.None?
    ensures "produto" !in header ==> r.produto.None?
    ensures "vendas" !in header ==> r.vendas.None?
    ensures "valor_total" !in header ==> r.valorTotal.None?
    ensures "visualizacoes" !in header ==> r.visualizacoes.None?
    ensures "devolucoes" !in header ==> r.devolucoes.None?
  {
    Record(CellOf(header, row, "sku"), CellOf(header, row, "produto"),
      Amount(header, row, "vendas"), Amount(header, row, "valor_total"),
      Amount(header, row, "visualizacoes"), Amount(header, row, "devolucoes"),
      ym.0, ym.1, canal)
  }

  /** The rows of one file under its normalised header, each stamped with the same year, month and channel. */
  function StampRows(header: seq<string>, rows: seq<seq<Option<string>>>, ym: (Option<int>, Option<int>), canal: string): (r: seq<Record>)
    ensures |r| == |rows|
    ensures forall k :: 0 <= k < |r| ==> r[k].canal == canal && (r[k].ano, r[k].mes) == ym
  {
    seq(|rows|, i requires 0 <= i < |rows| => RecordOf(header, rows[i], ym, canal))
  }

  /** One file through the loop body: None when it is skipped. */
  function FileRecords(f: InputFile): (r: Option<seq<Record>>)
    ensures r.Some? ==> Channel(f.name).Some? && (exists i :: YearAt(f.name, i))
    ensures r.Some? ==> forall k :: 0 <= k < |r.value| ==> Stamped(r.value[k], f.name)
  {
    match Channel(f.name)
    case None => None
    case Some(canal) =>
      var y := FindYear(f.name, 0);
      if y.None? then None
      else
        assert YearAt(f.name, y.value);
        var ym := YearMonth(f.name);
        assert ym.0.Some?;
        match Load(f, canal)
        case Failure(_) => None
        case Success(s) =>
          if EmptySheet(s) then None
          else Some(StampRows(NormalizedHeader(s.header), s.rows, ym, canal))
  }

  /** A row carries the channel of its file's name, that name's year, and its month when it has one. */
  predicate Stamped(r: Record, name: string)
  {
    Some(r.canal) == Channel(name) && r.ano.Some? && (r.ano, r.mes) == YearMonth(name)
  }

  /** The frames the loop appends to frames_total, in file order. */
  function Imported(files: seq<InputFile>): seq<seq<Record>>
    decreases |files|
  {
    if files == [] then []
    else
      var init := Imported(files[..|files| - 1]);
      match FileRecords(files[|files| - 1])
      case None => init
      case Some(rows) => init + [rows]
  }

  /** The table written to marketplaces.csv, or None when no file was imported. */
  function Consolidated(files: seq<InputFile>): Option<seq<Record>>
  {
    var frames := Imported(files);
    if frames == [] then None else Some(Flatten(frames))
  }

  /** Every row of the consolidated table has a year from 2000 to 2099, a month from 1 to 12 or none, and a known channel. */
  lemma {:induction false} ConsolidatedStamped(files: seq<InputFile>)
    ensures Consolidated(files).Some? ==> forall r :: r in Consolidated(files).value ==>
      r.canal in Channels && r.ano.Some? && 2000 <= r.ano.value <= 2099 && (r.mes.Some? ==> 1 <= r.mes.value <= 12)
  {
    ImportedStamped(files);
    forall r | r in Flatten(Imported(files))
      ensures r.canal in Channels && r.ano.Some? && 2000 <= r.ano.value <= 2099 && (r.mes.Some? ==> 1 <= r.mes.value <= 12)
    {
      var f :| f in files && Stamped(r, f.name);
      var ym := YearMonth(f.name);
    }
  }

  /** The row comes from one of `files`. */
  predicate StampedBy(r: Record, files: seq<InputFile>)
  {
    exists f :: f in files && Stamped(r, f.name)
  }

  lemma {:induction false} ImportedStamped(files: seq<InputFile>)
    ensures forall r :: r in Flatten(Imported(files)) ==> StampedBy(r, files)
    decreases |files|
  {
    if files != [] {
      var init := files[..|files| - 1];
      var last := files[|files| - 1];
      ImportedStamped(init);
      var before := Flatten(Imported(init));
      forall r | r in before ensures StampedBy(r, files) {
        var f :| f in init && Stamped(r, f.name);
        assert f in files;
      }
      var fr := FileRecords(last);
      if fr.Some? {
        var frames := Imported(init) + [fr.value];
        assert frames[..|frames| - 1] == Imported(init);
        assert Flatten(Imported(files)) == before + fr.value;
        forall k | 0 <= k < |fr.value| ensures StampedBy(fr.value[k], files) {
          assert Stamped(fr.value[k], last.name);
        }
      }
    }
  }

  /** One pass of the script's loop, as a method that appends each imported frame. */
  method Treat(files: seq<InputFile>) returns (out: Option<seq<Record>>)
    ensures out == Consolidated(files)
  {
    var frames: seq<seq<Record>> := [];
    for i := 0 to |files|
      invariant frames == Imported(files[..i])
    {
      var rows := FileRecords(files[i]);
      if rows.Some? {
        frames := frames + [rows.value];
      }
      assert files[..i + 1][..i] == files[..i];
    }
    assert files[..|files|] == files;
    if frames == [] {
      out := None;
    } else {
      out := Some(Flatten(frames));
    }
  }
}
