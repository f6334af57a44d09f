/**
 * scripts_complementar/padronizador.py: the product names of a Mercado Livre
 * table are replaced by the descriptions of a product database, looked up by
 * SKU. Headers of both tables are cleaned; the reader picks a CSV separator
 * or re-reads a workbook that holds CSV text; the writer picks the format
 * from the extension. The file system and pandas' readers and writers are
 * parameters: whether the path exists, and what each reading or writing
 * attempt gives.
 */
module CatalogueStandardiser {
  import opened Wrappers
  import opened Strings
  import opened Numbers
  import opened Frames

  // ---------------------------------------------------------------- limpar_colunas

  function NotSpace(c: char): bool
  {
    !IsSpace(c)
  }

  /** `re.sub(r'\s+', '', c).lower().strip().replace('"', '').replace("'", "")`. */
  function CleanColumnName(c: string): string
  {
    RemoveChar(RemoveChar(Trim(Lower(Filter(c, NotSpace))), '"'), '\'')
  }

  /** A cleaned name: no whitespace, no quote, nothing lower() would change. */
  predicate IsCleanName(s: string)
  {
    forall i :: 0 <= i < |s| ==> !IsSpace(s[i]) && s[i] != '"' && s[i] != '\'' && LowerChar(s[i]) == s[i]
  }

  /**
   * The loop of limpar_colunas: one cleaned name per column, in order, so the
   * column count is unchanged.
   */
  method CleanColumns(columns: seq<string>) returns (novas: seq<string>)
    ensures |novas| == |columns|
    ensures forall i :: 0 <= i < |columns| ==> novas[i] == CleanColumnName(columns[i])
  {
    novas := [];
    for i := 0 to |columns|
      invariant |novas| == i
      invariant forall k :: 0 <= k < i ==> novas[k] == CleanColumnName(columns[k])
    {
      novas := novas + [CleanColumnName(columns[i])];
    }
  }

  /** The header limpar_colunas gives. */
  function CleanedHeader(columns: seq<string>): (r: seq<string>)
    ensures |r| == |columns| && forall i :: 0 <= i < |columns| ==> r[i] == CleanColumnName(columns[i])
  {
    seq(|columns|, i requires 0 <= i < |columns| => CleanColumnName(columns[i]))
  }

  lemma LowerCharKeepsSpace(c: char)
    ensures IsSpace(LowerChar(c)) <==> IsSpace(c)
  {
    if 'A' <= c <= 'Z' || ('\U{00C0}' <= c <= '\U{00DE}' && c != '\U{00D7}') {
      assert !IsSpace(c) && !IsSpace(LowerChar(c));
    }
  }

  /** Every character that survives RemoveChar was in the text. */
  lemma {:induction false} RemoveCharFrom(s: string, c: char, i: nat)
    requires i < |RemoveChar(s, c)|
    ensures exists k :: 0 <= k < |s| && s[k] == RemoveChar(s, c)[i]
    decreases |s|
  {
    if s[0] == c {
      RemoveCharFrom(s[1..], c, i);
      var k :| 0 <= k < |s[1..]| && s[1..][k] == RemoveChar(s[1..], c)[i];
      assert s[k + 1] == s[1..][k];
    } else if i > 0 {
      RemoveCharFrom(s[1..], c, i - 1);
      var k :| 0 <= k < |s[1..]| && s[1..][k] == RemoveChar(s[1..], c)[i - 1];
      assert s[k + 1] == s[1..][k];
    } else {
      assert RemoveChar(s, c)[0] == s[0];
    }
  }

  /** Removing a character keeps a name clean. */
  lemma RemoveCharClean(s: string, c: char)
    requires forall i :: 0 <= i < |s| ==> !IsSpace(s[i]) && LowerChar(s[i]) == s[i]
    ensures forall i :: 0 <= i < |RemoveChar(s, c)| ==> !IsSpace(RemoveChar(s, c)[i]) && LowerChar(RemoveChar(s, c)[i]) == RemoveChar(s, c)[i]
  {
    forall i | 0 <= i < |RemoveChar(s, c)|
      ensures !IsSpace(RemoveChar(s, c)[i]) && LowerChar(RemoveChar(s, c)[i]) == RemoveChar(s, c)[i]
    {
      RemoveCharFrom(s, c, i);
    }
  }

  /** Text without whitespace is what strip() leaves of it. */
  lemma TrimNoSpace(s: string)
    requires forall i :: 0 <= i < |s| ==> !IsSpace(s[i])
    ensures Trim(s) == s
  {
    if s != [] {
      TrimUntouched(s);
    }
  }

  /** Every cleaned name is clean. */
  lemma CleanColumnNameIsClean(c: string)
    ensures IsCleanName(CleanColumnName(c))
  {
    var f := Filter(c, NotSpace);
    var l := Lower(f);
    forall i | 0 <= i < |l| ensures !IsSpace(l[i]) && LowerChar(l[i]) == l[i] {
      LowerCharKeepsSpace(f[i]);
    }
    TrimNoSpace(l);
    RemoveCharClean(l, '"');
    var q := RemoveChar(l, '"');
    RemoveCharClean(q, '\'');
    var r := RemoveChar(q, '\'');
    forall i | 0 <= i < |r| ensures r[i] != '"' {
      RemoveCharFrom(q, '\'', i);
    }
  }

  /** Cleaning a clean name changes nothing, so limpar_colunas is idempotent. */
  lemma CleanColumnNameIdempotent(c: string)
    ensures CleanColumnName(CleanColumnName(c)) == CleanColumnName(c)
  {
    var r := CleanColumnName(c);
    CleanColumnNameIsClean(c);
    FilterKeepsAll(r, NotSpace);
    assert Lower(r) == r;
    TrimNoSpace(r);
    RemoveCharAbsent(r, '"');
    RemoveCharAbsent(r, '\'');
  }

  // ---------------------------------------------------------------- os.path.splitext

  predicate IsPathSeparator(c: char)
  {
    c == '\\' || c == '/'
  }

  /** The last index whose character passes `p`, or -1 (Python's str.rfind for one character). */
  function LastIndex(s: string, p: char -> bool): (r: int)
    ensures -1 <= r < |s|
    ensures r >= 0 ==> p(s[r])
    ensures forall k :: r < k < |s| ==> !p(s[k])
    decreases |s|
  {
    if s == [] then -1
    else if p(s[|s| - 1]) then |s| - 1
    else LastIndex(s[..|s| - 1], p)
  }

  function IsDot(c: char): bool
  {
    c == '.'
  }

  /**
   * The extension os.path.splitext gives on Windows: from the last '.' of the
   * last path component, when that component has something other than dots
   * before it; otherwise "".
   */
  function Extension(path: string): (r: string)
    ensures r == [] || (EndsWith(path, r) && r[0] == '.' && forall k :: 0 < k < |r| ==> r[k] != '.' && !IsPathSeparator(r[k]))
  {
    var sep := LastIndex(path, IsPathSeparator);
    var dot := LastIndex(path, IsDot);
    if dot > sep && exists k :: sep < k < dot && path[k] != '.' then path[dot..] else ""
  }

  /** A name with a dot after an ordinary character has the extension from its last dot. */
  lemma ExtensionOfName(stem: string, ext: string)
    requires stem != [] && stem[0] != '.' && forall k :: 0 <= k < |stem| ==> !IsPathSeparator(stem[k])
    requires forall k :: 0 <= k < |ext| ==> ext[k] != '.' && !IsPathSeparator(ext[k])
    ensures Extension(stem + "." + ext) == "." + ext
  {
    var path := stem + "." + ext;
    var sep, dot := LastIndex(path, IsPathSeparator), LastIndex(path, IsDot);
    assert path[|stem|] == '.';
    forall k | |stem| < k < |path| ensures path[k] != '.' {
      assert path[k] == ext[k - |stem| - 1];
    }
    assert dot == |stem|;
    forall k | 0 <= k < |path| ensures !IsPathSeparator(path[k]) {
      if k < |stem| {
        assert path[k] == stem[k];
      } else if k > |stem| {
        assert path[k] == ext[k - |stem| - 1];
      }
    }
    assert sep == -1;
    assert path[0] == stem[0];
    assert path[dot..] == "." + ext;
  }

  // ---------------------------------------------------------------- ler_arquivo_flexivel

  /** What reading a file gives: a table, or the exception that escapes. */
  datatype Loaded =
    | Loaded(sheet: Sheet)
    | NotFound                  // FileNotFoundError
    | Unsupported(ext: string)  // ValueError("Formato não suportado")
    | ReadFailed                // the CSV reader's own exception
    | BadWorkbook               // ValueError("Erro ao ler ...")

  function CsvExtension(): string { ".csv" }

  predicate IsWorkbookExtension(ext: string)
  {
    ext == ".xls" || ext == ".xlsx"
  }

  /**
   * ler_arquivo_flexivel. `present` is os.path.exists; `semicolon`, `comma`
   * and `workbook` are what read_csv(sep=";"), read_csv(sep=",") and
   * read_excel give (None when they raise).
   */
  function ReadFlexible(path: string, present: bool, semicolon: Option<Sheet>, comma: Option<Sheet>, workbook: Option<Sheet>): (r: Loaded)
    ensures r.NotFound? <==> !present
    ensures r.Unsupported? <==> present && Lower(Extension(path)) != CsvExtension() && !IsWorkbookExtension(Lower(Extension(path)))
    ensures r.Unsupported? ==> r.ext == Lower(Extension(path))
    ensures r.ReadFailed? ==> Lower(Extension(path)) == CsvExtension()
    ensures r.BadWorkbook? ==> IsWorkbookExtension(Lower(Extension(path)))
  {
    if !present then NotFound
    else
      var ext := Lower(Extension(path));
      if ext == CsvExtension() then ReadCsv(semicolon, comma)
      else if IsWorkbookExtension(ext) then ReadWorkbook(semicolon, comma, workbook)
      else Unsupported(ext)
  }

  /**
   * The CSV branch: the ';' reading unless it failed or gave one column; then
   * the ',' reading, whose exception escapes.
   */
  function ReadCsv(semicolon: Option<Sheet>, comma: Option<Sheet>): (r: Loaded)
    ensures r.Loaded? || r.ReadFailed?
    ensures semicolon.Some? && |semicolon.value.header| != 1 ==> r == Loaded(semicolon.value)
    ensures (semicolon.None? || |semicolon.value.header| == 1) ==> (r.Loaded? <==> comma.Some?) && (r.Loaded? ==> r.sheet == comma.value)
  {
    match semicolon
    case Some(s) =>
      if |s.header| == 1 then (if comma.Some? then Loaded(comma.value) else ReadFailed)
      else Loaded(s)
    case None => if comma.Some? then Loaded(comma.value) else ReadFailed
  }

  /** A workbook holding CSV text: one column whose name contains the separator. */
  predicate OneColumnWith(s: Sheet, sep: char)
  {
    |s.header| == 1 && sep in s.header[0]
  }

  /**
   * The workbook branch: a one-column workbook whose header contains ',' is
   * re-read with ',' (checked first), one whose header contains ';' with ';';
   * any failure becomes ValueError.
   */
  function ReadWorkbook(semicolon: Option<Sheet>, comma: Option<Sheet>, workbook: Option<Sheet>): (r: Loaded)
    ensures r.Loaded? || r.BadWorkbook?
    ensures workbook.None? ==> r.BadWorkbook?
    ensures workbook.Some? && OneColumnWith(workbook.value, ',') ==>
      (r.Loaded? <==> comma.Some?) && (r.Loaded? ==> r.sheet == comma.value)
    ensures workbook.Some? && !OneColumnWith(workbook.value, ',') && OneColumnWith(workbook.value, ';') ==>
      (r.Loaded? <==> semicolon.Some?) && (r.Loaded? ==> r.sheet == semicolon.value)
    ensures workbook.Some? && !OneColumnWith(workbook.value, ',') && !OneColumnWith(workbook.value, ';') ==>
      r == Loaded(workbook.value)
  {
    match workbook
    case None => BadWorkbook
    case Some(w) =>
      if OneColumnWith(w, ',') then (if comma.Some? then Loaded(comma.value) else BadWorkbook)
      else if OneColumnWith(w, ';') then (if semicolon.Some? then Loaded(semicolon.value) else BadWorkbook)
      else Loaded(w)
  }

  // ---------------------------------------------------------------- salvar_arquivo

  /** What writing a file does. */
  datatype Saved = SavedCsv(sep: char) | SavedWorkbook | SaveFailed | SaveUnsupported(ext: string)

  /**
   * salvar_arquivo: CSV with ';', or with ',' when that raised; a workbook for
   * .xls/.xlsx; ValueError for anything else. The flags say whether each
   * writer succeeds.
   */
  function SaveFlexible(path: string, semicolonOk: bool, commaOk: bool, workbookOk: bool): (r: Saved)
    ensures r.SavedCsv? ==> Lower(Extension(path)) == CsvExtension() && (r.sep == ';' <==> semicolonOk) && (r.sep == ',' <==> !semicolonOk)
    ensures r.SavedWorkbook? <==> IsWorkbookExtension(Lower(Extension(path))) && workbookOk
    ensures r.SaveUnsupported? <==> Lower(Extension(path)) != CsvExtension() && !IsWorkbookExtension(Lower(Extension(path)))
    ensures r.SaveFailed? <==> (Lower(Extension(path)) == CsvExtension() && !semicolonOk && !commaOk) ||
                               (IsWorkbookExtension(Lower(Extension(path))) && !workbookOk)
  {
    var ext := Lower(Extension(path));
    if ext == CsvExtension() then
      if semicolonOk then SavedCsv(';') else if commaOk then SavedCsv(',') else SaveFailed
    else if IsWorkbookExtension(ext) then
      if workbookOk then SavedWorkbook else SaveFailed
    else SaveUnsupported(ext)
  }

  // ---------------------------------------------------------------- mapa_sku

  /**
   * `dict(zip(skus, descs))`: each sku mapped to a description, a later pair
   * replacing an earlier one. A missing cell (NaN) is a key like any other.
   */
  function SkuTable(skus: seq<Option<string>>, descs: seq<Option<string>>): (m: map<Option<string>, Option<string>>)
    requires |skus| == |descs|
    ensures forall k :: k in m <==> k in skus
    decreases |skus|
  {
    if skus == [] then map[]
    else
      var n := |skus| - 1;
      SkuTable(skus[..n], descs[..n])[skus[n] := descs[n]]
  }

  /** For a duplicated sku the last description wins. */
  lemma {:induction false} SkuTableLastWins(skus: seq<Option<string>>, descs: seq<Option<string>>, i: nat)
    requires |skus| == |descs| && i < |skus|
    requires forall k :: i < k < |skus| ==> skus[k] != skus[i]
    ensures skus[i] in SkuTable(skus, descs) && SkuTable(skus, descs)[skus[i]] == descs[i]
    decreases |skus|
  {
    var n := |skus| - 1;
    if i < n {
      SkuTableLastWins(skus[..n], descs[..n], i);
    }
  }

  /** `mapa_sku.get(s, "REVISAR")`. */
  function Lookup(m: map<Option<string>, Option<string>>, sku: Option<string>): (r: Option<string>)
    ensures sku in m ==> r == m[sku]
    ensures sku !in m ==> r == Some("REVISAR")
  {
    if sku in m then m[sku] else Some("REVISAR")
  }

  /** A column's cells, by name. */
  function Column(s: Sheet, name: string): (r: seq<Option<string>>)
    ensures |r| == |s.rows| && forall i :: 0 <= i < |s.rows| ==> r[i] == CellOf(s.header, s.rows[i], name)
  {
    seq(|s.rows|, i requires 0 <= i < |s.rows| => CellOf(s.header, s.rows[i], name))
  }

  /**
   * The script after reading: both headers cleaned; KeyError when banco lacks
   * sku or descricao, or destino lacks sku or produto; otherwise destino with
   * every produto cell replaced by the looked-up description.
   */
  function Standardise(banco: Sheet, destino: Sheet): (r: Result<Sheet>)
    ensures r.Failure? <==>
      "sku" !in CleanedHeader(banco.header) || "descricao" !in CleanedHeader(banco.header) ||
      "sku" !in CleanedHeader(destino.header) || "produto" !in CleanedHeader(destino.header)
    ensures r.Success? ==> r.value.header == CleanedHeader(destino.header) && |r.value.rows| == |destino.rows|
  {
    var b := Sheet(CleanedHeader(banco.header), banco.rows);
    var d := Sheet(CleanedHeader(destino.header), destino.rows);
    if "sku" !in b.header || "descricao" !in b.header then Failure("KeyError: banco lacks sku or descricao")
    else if "sku" !in d.header || "produto" !in d.header then Failure("KeyError: destino lacks sku or produto")
    else
      var m := SkuTable(Column(b, "sku"), Column(b, "descricao"));
      Success(Sheet(d.header, seq(|d.rows|, i requires 0 <= i < |d.rows| => Relabelled(d.header, d.rows[i], m))))
  }

  /** `destino["produto"] = destino["sku"].apply(lambda s: mapa_sku.get(s, "REVISAR"))` on one row. */
  function Relabelled(h: seq<string>, row: seq<Option<string>>, m: map<Option<string>, Option<string>>): (r: seq<Option<string>>)
    requires "produto" in h
    ensures |r| == |row|
  {
    var p := FirstIndex(h, NameIs("produto")).value;
    if p < |row| then row[p := Lookup(m, CellOf(h, row, "sku"))] else row
  }

  /** The row keeps every cell but produto, which reads back as the looked-up description. */
  lemma RelabelledCells(h: seq<string>, row: seq<Option<string>>, m: map<Option<string>, Option<string>>)
    requires "produto" in h && |row| == |h|
    ensures forall j :: 0 <= j < |h| && h[j] != "produto" ==> Relabelled(h, row, m)[j] == row[j]
    ensures CellOf(h, Relabelled(h, row, m), "produto") == Lookup(m, CellOf(h, row, "sku"))
  {
  }

  /** Row `k` is the last one whose sku is `sku`. */
  predicate IsLastWith(skus: seq<Option<string>>, k: nat, sku: Option<string>)
  {
    k < |skus| && skus[k] == sku && forall l :: k < l < |skus| ==> skus[l] != sku
  }

  /** Each destino row keeps every cell but produto, which becomes the looked-up description. */
  lemma StandardiseCells(banco: Sheet, destino: Sheet, i: nat)
    requires Standardise(banco, destino).Success? && i < |destino.rows|
    requires |destino.rows[i]| == |destino.header|
    ensures var out, h := Standardise(banco, destino).value, CleanedHeader(destino.header);
      var b := Sheet(CleanedHeader(banco.header), banco.rows);
      |out.rows[i]| == |destino.rows[i]| &&
      (forall j :: 0 <= j < |h| && h[j] != "produto" ==> out.rows[i][j] == destino.rows[i][j]) &&
      CellOf(h, out.rows[i], "produto") == Lookup(SkuTable(Column(b, "sku"), Column(b, "descricao")), CellOf(h, destino.rows[i], "sku"))
  {
    var h := CleanedHeader(destino.header);
    var b := Sheet(CleanedHeader(banco.header), banco.rows);
    var m := SkuTable(Column(b, "sku"), Column(b, "descricao"));
    assert Standardise(banco, destino).value.rows[i] == Relabelled(h, destino.rows[i], m);
    RelabelledCells(h, destino.rows[i], m);
  }

  /**
   * The description a sku gets: that of the last banco row with the sku, or
   * "REVISAR" when banco has none.
   */
  lemma LookupLastOrRevisar(skus: seq<Option<string>>, descs: seq<Option<string>>, sku: Option<string>)
    requires |skus| == |descs|
    ensures sku !in skus ==> Lookup(SkuTable(skus, descs), sku) == Some("REVISAR")
    ensures forall k: nat :: IsLastWith(skus, k, sku) ==> Lookup(SkuTable(skus, descs), sku) == descs[k]
  {
    forall k: nat | IsLastWith(skus, k, sku) ensures Lookup(SkuTable(skus, descs), sku) == descs[k] {
      SkuTableLastWins(skus, descs, k);
    }
  }
}
