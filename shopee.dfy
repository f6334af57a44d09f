/**
 * scripts/merge_shopee.py: every Shopee workbook found is read; its stripped
 * headers are mapped onto five fields by a chain of name tests, a workbook
 * lacking a field or failing a conversion is skipped, and the rows of the
 * others are summed per SKU, product, year, month and channel.
 */
module ShopeeMerge {
  import opened Wrappers
  import opened Strings
  import opened Numbers
  import opened Normalisers
  import opened Frames
  import opened Dates
  import opened GroupBy

  // ---------------------------------------------------------------- col_mapeadas

  /** The header chosen for each field, None while no header has been chosen. */
  datatype Mapping = Mapping(sku: Option<string>, produto: Option<string>, vendas: Option<string>,
                             valorTotal: Option<string>, data: Option<string>)

  const Unmapped := Mapping(None, None, None, None, None)

  /** The name tests of the if/elif chain, on the lower-cased header. */
  datatype Tests = Tests(principal: bool, skuPrefix: bool, produto: bool, quantidade: bool, valorTotal: bool, dataCriacao: bool)

  function TestsOf(c: string): Tests
  {
    var low := Lower(c);
    Tests(Contains(low, "sku") && Contains(low, "principal"), StartsWith(low, "sku"), Contains(low, "produto"),
      Contains(low, "quantidade"), Contains(low, "valor total"), Contains(low, "data de criação"))
  }

  /** The field a header is assigned to. */
  datatype Field = SkuField | ProdutoField | VendasField | ValorField | DataField | NoField

  /** The if/elif chain on a header's tests, given whether a sku header has been chosen already. */
  function Branch(t: Tests, skuChosen: bool): Field
  {
    if t.principal then SkuField
    else if t.skuPrefix && !skuChosen then SkuField
    else if t.produto then ProdutoField
    else if t.quantidade then VendasField
    else if t.valorTotal then ValorField
    else if t.dataCriacao then DataField
    else NoField
  }

  /**
   * What each branch tests: a header reaches the sku branch exactly when it
   * names the principal SKU or starts with "sku" before any sku header was
   * chosen, and reaches another field's branch only when it carries that
   * field's words and none of an earlier branch's.
   */
  lemma BranchMeaning(t: Tests, skuChosen: bool)
    ensures Branch(t, skuChosen) == SkuField <==> t.principal || (t.skuPrefix && !skuChosen)
    ensures Branch(t, skuChosen) == ProdutoField ==> t.produto
    ensures Branch(t, skuChosen) == VendasField ==> t.quantidade && !t.produto
    ensures Branch(t, skuChosen) == ValorField ==> t.valorTotal && !t.produto && !t.quantidade
    ensures Branch(t, skuChosen) == DataField ==> t.dataCriacao && !t.produto && !t.quantidade && !t.valorTotal
    ensures Branch(t, skuChosen) == NoField ==> !t.produto && !t.quantidade && !t.valorTotal && !t.dataCriacao
  {
  }

  /** Having chosen a sku header only changes where headers starting with "sku" go. */
  lemma BranchStable(t: Tests, skuChosen: bool)
    ensures Branch(t, skuChosen) == SkuField ==> Branch(t, false) == SkuField
    ensures Branch(t, skuChosen) != SkuField ==> Branch(t, true) == Branch(t, skuChosen)
  {
  }

  /** One pass of the loop body over header `c`, whose name tests are `tests(c)` (TestsOf in the script). */
  function Step(m: Mapping, c: string, tests: string -> Tests): Mapping
  {
    match Branch(tests(c), m.sku.Some?)
    case SkuField => m.(sku := Some(c))
    case ProdutoField => m.(produto := Some(c))
    case VendasField => m.(vendas := Some(c))
    case ValorField => m.(valorTotal := Some(c))
    case DataField => m.(data := Some(c))
    case NoField => m
  }

  /**
   * The mapping after the loop over `cols`. Every chosen header is one of
   * `cols` and reaches its field's branch.
   */
  function Mapped(cols: seq<string>, tests: string -> Tests): (m: Mapping)
    ensures m.sku.Some? ==> m.sku.value in cols && Branch(tests(m.sku.value), false) == SkuField
    ensures m.produto.Some? ==> m.produto.value in cols && Branch(tests(m.produto.value), true) == ProdutoField
    ensures m.vendas.Some? ==> m.vendas.value in cols && Branch(tests(m.vendas.value), true) == VendasField
    ensures m.valorTotal.Some? ==> m.valorTotal.value in cols && Branch(tests(m.valorTotal.value), true) == ValorField
    ensures m.data.Some? ==> m.data.value in cols && Branch(tests(m.data.value), true) == DataField
    decreases |cols|
  {
    if cols == [] then Unmapped
    else
      var init, c := Mapped(cols[..|cols| - 1], tests), cols[|cols| - 1];
      assert cols == cols[..|cols| - 1] + [c];
      BranchStable(tests(c), init.sku.Some?);
      Step(init, c, tests)
  }

  /** The loop `for c in colunas` filling col_mapeadas. */
  method MapColumns(colunas: seq<string>) returns (m: Mapping)
    ensures m == Mapped(colunas, TestsOf)
  {
    m := Unmapped;
    for i := 0 to |colunas|
      invariant m == Mapped(colunas[..i], TestsOf)
    {
      assert colunas[..i + 1][..i] == colunas[..i];
      m := Step(m, colunas[i], TestsOf);
    }
    assert colunas[..|colunas|] == colunas;
  }

  /** The last principal-SKU header wins, whatever headers starting with "sku" come before or after it. */
  lemma {:induction false} LastPrincipalWins(cols: seq<string>, tests: string -> Tests, j: nat)
    requires j < |cols| && tests(cols[j]).principal
    requires forall k :: j < k < |cols| ==> !tests(cols[k]).principal
    ensures Mapped(cols, tests).sku == Some(cols[j])
    decreases |cols|
  {
    if j < |cols| - 1 {
      var init := cols[..|cols| - 1];
      LastPrincipalWins(init, tests, j);
    }
  }

  /** The headers starting with "sku". */
  function SkuPrefixed(tests: string -> Tests): string -> bool
  {
    c => tests(c).skuPrefix
  }

  /** Without a principal-SKU header, the sku field is the first header starting with "sku", if any. */
  lemma {:induction false} FirstSkuPrefixWins(cols: seq<string>, tests: string -> Tests)
    requires forall k :: 0 <= k < |cols| ==> !tests(cols[k]).principal
    ensures forall j: nat :: FirstPassing(cols, SkuPrefixed(tests), j) ==> Mapped(cols, tests).sku == Some(cols[j])
    ensures NonePass(cols, SkuPrefixed(tests)) ==> Mapped(cols, tests).sku.None?
    decreases |cols|
  {
    if cols != [] {
      var init := cols[..|cols| - 1];
      FirstSkuPrefixWins(init, tests);
      forall j: nat | FirstPassing(cols, SkuPrefixed(tests), j) ensures Mapped(cols, tests).sku == Some(cols[j]) {
        if j < |init| {
          assert FirstPassing(init, SkuPrefixed(tests), j);
        } else {
          assert NonePass(init, SkuPrefixed(tests));
        }
      }
      if NonePass(cols, SkuPrefixed(tests)) {
        assert NonePass(init, SkuPrefixed(tests));
      }
    }
  }

  /** The last header naming "produto" is the produto field, unless it is a sku header. */
  lemma {:induction false} LastProdutoWins(cols: seq<string>, tests: string -> Tests, j: nat)
    requires j < |cols| && tests(cols[j]).produto && !tests(cols[j]).principal && !tests(cols[j]).skuPrefix
    requires forall k :: j < k < |cols| ==> !tests(cols[k]).produto
    ensures Mapped(cols, tests).produto == Some(cols[j])
    decreases |cols|
  {
    if j < |cols| - 1 {
      LastProdutoWins(cols[..|cols| - 1], tests, j);
    }
  }

  /** `all(col_mapeadas.values())`. */
  predicate Complete(m: Mapping)
  {
    m.sku.Some? && m.produto.Some? && m.vendas.Some? && m.valorTotal.Some? && m.data.Some?
  }

  // ---------------------------------------------------------------- one workbook

  /** A workbook as found by rglob: its name, and its first sheet, None when read_excel fails. */
  datatype ShopeeFile = ShopeeFile(name: string, table: Option<Sheet>)

  /** The grouping key; canal is always "shopee". */
  datatype ShopeeKey = ShopeeKey(sku: string, produto: string, ano: int, mes: int, canal: string)

  /** `df.columns.str.strip()`. */
  function Stripped(cols: seq<string>): (r: seq<string>)
    ensures |r| == |cols| && forall i :: 0 <= i < |cols| ==> r[i] == Trim(cols[i])
  {
    seq(|cols|, i requires 0 <= i < |cols| => Trim(cols[i]))
  }

  /** The valor_total rewrite: keep [0-9,.-], ',' to '.', then astype(float), which raises on refusal (NaN reads "nan", hence ""). */
  function Valor(cell: Option<string>): Option<real>
  {
    ParseFloat(SignedNumericText(cell.GetOr("nan")))
  }

  /** One row of df_limpo as the grouping sees it; an unparsable date gives NaN year and month, so no group. */
  function RowEntry(s: Sheet, m: Mapping, row: seq<Option<string>>, v: real, parse: string -> Option<Date>): (e: Entry<ShopeeKey>)
    requires Complete(m)
    ensures e.key.Some? ==> e.key.value.canal == "shopee"
  {
    var date := CellOf(s.header, row, m.data.value);
    var d := if date.None? then None else parse(date.value);
    var sku := Upper(Trim(CellOf(s.header, row, m.sku.value).GetOr("nan")));
    var produto := Trim(CellOf(s.header, row, m.produto.value).GetOr("nan"));
    Entry(if d.None? then None else Some(ShopeeKey(sku, produto, d.value.year, d.value.month, "shopee")),
      NumericOrZero(CellOf(s.header, row, m.vendas.value)), v)
  }

  /** Every chosen header names a column of the workbook as read, so `df[list(...)]` finds it. */
  predicate Selectable(header: seq<string>, m: Mapping)
    requires Complete(m)
  {
    m.sku.value in header && m.produto.value in header && m.vendas.value in header &&
    m.valorTotal.value in header && m.data.value in header
  }

  /** The row whose valor_total makes astype(float) raise. */
  function ValorFails(s: Sheet, m: Mapping): seq<Option<string>> -> bool
    requires Complete(m)
  {
    row => Valor(CellOf(s.header, row, m.valorTotal.value)).None?
  }

  /** The rows of df_limpo once the columns are chosen, or None when a valor_total cell makes astype(float) raise. */
  function SheetEntries(s: Sheet, m: Mapping, parse: string -> Option<Date>): (r: Option<seq<Entry<ShopeeKey>>>)
    requires Complete(m)
    ensures r.Some? <==> NonePass(s.rows, ValorFails(s, m))
    ensures r.Some? ==> |r.value| == |s.rows|
    ensures r.Some? ==> forall i :: 0 <= i < |r.value| && r.value[i].key.Some? ==> r.value[i].key.value.canal == "shopee"
  {
    match FirstIndex(s.rows, ValorFails(s, m))
    case Some(_) => None
    case None =>
      Some(seq(|s.rows|, i requires 0 <= i < |s.rows| =>
        RowEntry(s, m, s.rows[i], Valor(CellOf(s.header, s.rows[i], m.valorTotal.value)).GetOr(0.0), parse)))
  }

  /**
   * The body of the try block: the rows of df_limpo, or None when the
   * workbook is skipped (unreadable, a field unmapped, a chosen name missing
   * from the raw header, or a valor_total cell float() refuses).
   */
  function FileEntries(f: ShopeeFile, parse: string -> Option<Date>): (r: Option<seq<Entry<ShopeeKey>>>)
    ensures r.Some? <==>
      (f.table.Some? && Complete(Mapped(Stripped(f.table.value.header), TestsOf)) &&
       Selectable(f.table.value.header, Mapped(Stripped(f.table.value.header), TestsOf)) &&
       NonePass(f.table.value.rows, ValorFails(f.table.value, Mapped(Stripped(f.table.value.header), TestsOf))))
    ensures r.Some? ==> |r.value| == |f.table.value.rows|
    ensures r.Some? ==> forall i :: 0 <= i < |r.value| && r.value[i].key.Some? ==> r.value[i].key.value.canal == "shopee"
  {
    if f.table.None? then None
    else
      var s := f.table.value;
      var m := Mapped(Stripped(s.header), TestsOf);
      if !Complete(m) || !Selectable(s.header, m) then None
      else SheetEntries(s, m, parse)
  }

  // ---------------------------------------------------------------- the loop over files

  /** `dados` after the loop over `files`. */
  function Collected(files: seq<ShopeeFile>, parse: string -> Option<Date>): seq<seq<Entry<ShopeeKey>>>
    decreases |files|
  {
    if files == [] then []
    else
      var init := Collected(files[..|files| - 1], parse);
      match FileEntries(files[|files| - 1], parse)
      case None => init
      case Some(rows) => init + [rows]
  }

  /** The grouped table, or None when the script exits early (no workbook found, or none imported). */
  function Merged(files: seq<ShopeeFile>, parse: string -> Option<Date>): Option<map<ShopeeKey, Sums>>
  {
    var dados := Collected(files, parse);
    if files == [] || dados == [] then None else Some(Aggregate(Flatten(dados)))
  }

  /** The script's loop, which appends each workbook's rows and goes on past the ones it skips. */
  method Merge(files: seq<ShopeeFile>, parse: string -> Option<Date>) returns (r: Option<map<ShopeeKey, Sums>>)
    ensures r == Merged(files, parse)
  {
    if files == [] {
      return None;
    }
    var dados: seq<seq<Entry<ShopeeKey>>> := [];
    for i := 0 to |files|
      invariant dados == Collected(files[..i], parse)
    {
      CollectedNext(files, i, parse);
      var rows := FileEntries(files[i], parse);
      if rows.Some? {
        dados := dados + [rows.value];
      }
    }
    assert files[..|files|] == files;
    if dados == [] {
      return None;
    }
    r := Some(Aggregate(Flatten(dados)));
  }

  lemma CollectedNext(files: seq<ShopeeFile>, i: nat, parse: string -> Option<Date>)
    requires i < |files|
    ensures Collected(files[..i + 1], parse) ==
      (match FileEntries(files[i], parse)
       case None => Collected(files[..i], parse)
       case Some(rows) => Collected(files[..i], parse) + [rows])
  {
    assert files[..i + 1][..i] == files[..i];
  }

  /** Every row collected carries the channel "shopee". */
  lemma {:induction false} CollectedShopee(files: seq<ShopeeFile>, parse: string -> Option<Date>)
    ensures forall e :: e in Flatten(Collected(files, parse)) && e.key.Some? ==> e.key.value.canal == "shopee"
    decreases |files|
  {
    if files != [] {
      CollectedShopee(files[..|files| - 1], parse);
    }
  }

  /** Every group of the merged table is a Shopee group. */
  lemma MergedShopee(files: seq<ShopeeFile>, parse: string -> Option<Date>, k: ShopeeKey)
    requires Merged(files, parse).Some? && k in Merged(files, parse).value
    ensures k.canal == "shopee"
  {
    var es := Flatten(Collected(files, parse));
    CollectedShopee(files, parse);
    AggregateKeys(es, k);
  }

  /** A workbook that is skipped leaves `dados` as it was. */
  lemma SkippedFileChangesNothing(files: seq<ShopeeFile>, f: ShopeeFile, parse: string -> Option<Date>)
    requires FileEntries(f, parse).None?
    ensures Collected(files + [f], parse) == Collected(files, parse)
  {
    assert (files + [f])[..|files|] == files;
  }

  /** valor_unitario_medio: defined (not inf or NaN) exactly when the group sold a non-zero quantity. */
  function UnitPrice(m: map<ShopeeKey, Sums>, k: ShopeeKey): (r: Option<real>)
    requires k in m
    ensures r.Some? <==> m[k].a != 0.0
    ensures r.Some? ==> r.value * m[k].a == m[k].b
  {
    MeanPrice(m[k])
  }
}
