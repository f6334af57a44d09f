/**
 * scripts/padronizador_final.py: the five standardised channel tables are
 * read, given a year and a month (drawn at random for the channels whose
 * exports carry none), their amounts rounded to hundredths, grouped by
 * channel, year, month, SKU and product, and stacked into one table.
 */
module FinalStandardiser {
  import opened Wrappers
  import opened Strings
  import opened Numbers
  import opened Normalisers
  import opened Frames
  import opened GroupBy

  // ---------------------------------------------------------------- corrigir_datas

  /** The random draws for one table, by row: np.random.choice for years, np.random.randint for months. */
  datatype Draws = Draws(year: nat -> int, month: nat -> int)

  /** The number a cell of a numeric column holds, NaN (None) when it is empty or not a number. */
  function Existing(s: Sheet, name: string, i: nat): Option<real>
  {
    if i < |s.rows| then
      match CellOf(s.header, s.rows[i], name)
      case None => None
      case Some(t) => ParseFloat(t)
    else None
  }

  /** `df[name].isna().all()`, true also of a column the script has just added as NaN. */
  predicate AllMissing(s: Sheet, name: string)
  {
    forall i :: 0 <= i < |s.rows| ==> CellOf(s.header, s.rows[i], name).None?
  }

  /** The channels whose years are drawn at random. */
  predicate DrawsYear(canal: string)
  {
    canal == "amazon" || canal == "beleza_na_web" || canal == "shopee"
  }

  /** The channels whose months are drawn at random. */
  predicate DrawsMonth(canal: string)
  {
    DrawsYear(canal) || canal == "tiktok"
  }

  /** The year corrigir_datas leaves in row `i`. */
  function FixedYear(s: Sheet, canal: string, d: Draws, i: nat): Option<real>
  {
    if canal == "mercado_livre" then
      (if AllMissing(s, "ano") then Some(d.year(i) as real) else Existing(s, "ano", i))
    else if DrawsYear(canal) then Some(d.year(i) as real)
    else Some(2025.0)
  }

  /** The month corrigir_datas leaves in row `i`. */
  function FixedMonth(s: Sheet, canal: string, d: Draws, i: nat): Option<real>
  {
    if canal == "mercado_livre" then
      (if AllMissing(s, "mes") then Some(d.month(i) as real) else Existing(s, "mes", i))
    else if DrawsMonth(canal) then Some(d.month(i) as real)
    else Some(1.0)
  }

  /** The ranges the script's samplers draw from, for the `n` rows of a table of `canal`. */
  predicate SamplerRanges(canal: string, d: Draws, n: nat)
  {
    forall i: nat :: i < n ==>
      (canal == "amazon" ==> 2023 <= d.year(i) <= 2025 && 1 <= d.month(i) <= 12) &&
      (canal == "beleza_na_web" || canal == "shopee" ==> 2024 <= d.year(i) <= 2025 && 1 <= d.month(i) <= 12) &&
      (canal == "tiktok" ==> 1 <= d.month(i) <= 9) &&
      (canal == "mercado_livre" ==> 2023 <= d.year(i) <= 2025 && 1 <= d.month(i) <= 12)
  }

  /**
   * Every channel but mercado_livre has a year and a month on every row, within
   * the sampler's range; tiktok and the unknown channels always get 2025.
   */
  lemma FixedDatesInRange(s: Sheet, canal: string, d: Draws, i: nat)
    requires SamplerRanges(canal, d, |s.rows|) && i < |s.rows|
    requires canal != "mercado_livre"
    ensures FixedYear(s, canal, d, i).Some? && FixedMonth(s, canal, d, i).Some?
    ensures 2023.0 <= FixedYear(s, canal, d, i).value <= 2025.0
    ensures 1.0 <= FixedMonth(s, canal, d, i).value <= 12.0
    ensures canal == "tiktok" ==> FixedYear(s, canal, d, i) == Some(2025.0) && FixedMonth(s, canal, d, i).value <= 9.0
    ensures !DrawsMonth(canal) ==> FixedYear(s, canal, d, i) == Some(2025.0) && FixedMonth(s, canal, d, i) == Some(1.0)
  {
  }

  /** Mercado Livre keeps the years and months it has; only a column with no value at all is drawn. */
  lemma MercadoLivreKeepsDates(s: Sheet, d: Draws, i: nat)
    requires i < |s.rows|
    ensures !AllMissing(s, "ano") ==> FixedYear(s, "mercado_livre", d, i) == Existing(s, "ano", i)
    ensures !AllMissing(s, "mes") ==> FixedMonth(s, "mercado_livre", d, i) == Existing(s, "mes", i)
    ensures AllMissing(s, "ano") && SamplerRanges("mercado_livre", d, |s.rows|) ==>
      FixedYear(s, "mercado_livre", d, i).Some? && 2023.0 <= FixedYear(s, "mercado_livre", d, i).value <= 2025.0
  {
  }

  // ---------------------------------------------------------------- limpar_numeros and agrupar_por_mes

  /** The grouping key of agrupar_por_mes. */
  datatype MonthKey = MonthKey(canal: string, ano: real, mes: real, sku: string, produto: string)

  /** Row `i` as the grouping sees it: its key (None when a part is NaN) and its amounts in hundredths, NaN counting as 0. */
  function EntryOf(s: Sheet, canal: string, d: Draws, i: nat): Entry<MonthKey>
    requires i < |s.rows|
  {
    var row := s.rows[i];
    var ano, mes := FixedYear(s, canal, d, i), FixedMonth(s, canal, d, i);
    var sku, produto := CellOf(s.header, row, "sku"), CellOf(s.header, row, "produto");
    var key := if ano.Some? && mes.Some? && sku.Some? && produto.Some? then
      Some(MonthKey(canal, ano.value, mes.value, sku.value, produto.value)) else None;
    Entry(key,
      NormalizeNumberCents(CellOf(s.header, row, "vendas")).GetOr(0) as real,
      NormalizeNumberCents(CellOf(s.header, row, "valor_total")).GetOr(0) as real)
  }

  /** limpar_numeros' dropna(subset=["sku"]): the rows that have a SKU, in order. */
  function SkuRows(s: Sheet): (r: seq<nat>)
    ensures forall k :: 0 <= k < |r| ==> r[k] < |s.rows| && CellOf(s.header, s.rows[r[k]], "sku").Some?
    ensures forall i :: 0 <= i < |s.rows| && CellOf(s.header, s.rows[i], "sku").Some? ==> i in r
  {
    SkuRowsFrom(s, 0)
  }

  function SkuRowsFrom(s: Sheet, from: nat): (r: seq<nat>)
    ensures forall k :: 0 <= k < |r| ==> from <= r[k] < |s.rows| && CellOf(s.header, s.rows[r[k]], "sku").Some?
    ensures forall i :: from <= i < |s.rows| && CellOf(s.header, s.rows[i], "sku").Some? ==> i in r
    decreases |s.rows| - from
  {
    if from >= |s.rows| then []
    else (if CellOf(s.header, s.rows[from], "sku").Some? then [from] else []) + SkuRowsFrom(s, from + 1)
  }

  /** The entries of the rows that survive the dropna, in order. */
  function Entries(s: Sheet, canal: string, d: Draws): seq<Entry<MonthKey>>
  {
    var kept := SkuRows(s);
    seq(|kept|, k requires 0 <= k < |kept| => EntryOf(s, canal, d, kept[k]))
  }

  /**
   * processar_canal on what the reader gave (None when the file is missing
   * or neither reader could read it): the grouped table, or the KeyError
   * that stops the script when a column the steps name is absent.
   */
  function ProcessChannel(nome: string, read: Option<Sheet>, d: Draws): (r: Result<map<MonthKey, Sums>>)
    ensures read.None? ==> r == Success(map[])
    ensures read.Some? && "sku" !in read.value.header ==> r.Failure?
    ensures r.Success? ==> forall k :: k in r.value ==> k.canal == Lower(nome)
  {
    match read
    case None => Success(map[])
    case Some(s) =>
      var canal := Lower(nome);
      if "sku" !in s.header then Failure("KeyError: sku")
      else
        var es := Entries(s, canal, d);
        if es == [] then Success(map[])
        else if "produto" !in s.header || "vendas" !in s.header || "valor_total" !in s.header then
          Failure("KeyError: a grouping or summed column is missing")
        else
          AggregateIsGroupSum(es);
          forall k | k in Aggregate(es) ensures k.canal == canal {
            var i :| 0 <= i < |es| && es[i].key == Some(k);
          }
          Success(Aggregate(es))
  }

  /** Every group of a channel's table holds the sums of exactly the rows with its key. */
  lemma ProcessChannelGroups(nome: string, s: Sheet, d: Draws)
    requires ProcessChannel(nome, Some(s), d).Success?
    ensures forall k :: k in ProcessChannel(nome, Some(s), d).value <==> HasKey(Entries(s, Lower(nome), d), k)
    ensures forall k :: k in ProcessChannel(nome, Some(s), d).value ==>
      ProcessChannel(nome, Some(s), d).value[k] == GroupSum(Entries(s, Lower(nome), d), k)
  {
    var es := Entries(s, Lower(nome), d);
    AggregateIsGroupSum(es);
    assert ProcessChannel(nome, Some(s), d) == Success(Aggregate(es));
  }

  // ---------------------------------------------------------------- main

  /** One entry of FILES, with what the readers give for it and the draws for its rows. */
  datatype ChannelFile = ChannelFile(nome: string, read: Option<Sheet>, draws: Draws)

  /** pd.concat of the grouped tables: the groups of every table, each under its own key. */
  function Stack(bases: seq<map<MonthKey, Sums>>): map<MonthKey, Sums>
    decreases |bases|
  {
    if bases == [] then map[] else Stack(bases[..|bases| - 1]) + bases[|bases| - 1]
  }

  /** The non-empty tables main collects in `bases`, or the error that stops it. */
  function Bases(files: seq<ChannelFile>): Result<seq<map<MonthKey, Sums>>>
    decreases |files|
  {
    if files == [] then Success([])
    else
      match Bases(files[..|files| - 1])
      case Failure(e) => Failure(e)
      case Success(init) =>
        var f := files[|files| - 1];
        match ProcessChannel(f.nome, f.read, f.draws)
        case Failure(e) => Failure(e)
        case Success(m) => Success(if m == map[] then init else init + [m])
  }

  /** main: None when no table had a row, else the stacked table. */
  function Final(files: seq<ChannelFile>): Result<Option<map<MonthKey, Sums>>>
  {
    match Bases(files)
    case Failure(e) => Failure(e)
    case Success(bases) => Success(if bases == [] then None else Some(Stack(bases)))
  }

  /** main's loop over FILES, appending each non-empty table. */
  method Run(files: seq<ChannelFile>) returns (r: Result<Option<map<MonthKey, Sums>>>)
    ensures r == Final(files)
  {
    var bases: seq<map<MonthKey, Sums>> := [];
    for i := 0 to |files|
      invariant Bases(files[..i]) == Success(bases)
    {
      assert files[..i + 1][..i] == files[..i];
      var df := ProcessChannel(files[i].nome, files[i].read, files[i].draws);
      if df.Failure? {
        assert Bases(files[..i + 1]) == Failure(df.error);
        BasesFailureSticks(files, i + 1);
        assert files[..|files|] == files;
        return Failure(df.error);
      }
      if df.value != map[] {
        bases := bases + [df.value];
      }
    }
    assert files[..|files|] == files;
    if bases == [] {
      r := Success(None);
    } else {
      r := Success(Some(Stack(bases)));
    }
  }

  /** Once a table fails, main stops: every longer prefix fails too. */
  lemma {:induction false} BasesFailureSticks(files: seq<ChannelFile>, n: nat)
    requires n <= |files| && Bases(files[..n]).Failure?
    ensures Bases(files) == Bases(files[..n])
    decreases |files| - n
  {
    if n < |files| {
      assert files[..n + 1][..n] == files[..n];
      BasesFailureSticks(files, n + 1);
    } else {
      assert files[..n] == files;
    }
  }

  /**
   * Stacking keeps every group of every table intact: the channel names are
   * distinct, so no two tables share a key.
   */
  lemma {:induction false} StackKeepsGroups(bases: seq<map<MonthKey, Sums>>, channels: seq<string>, i: nat, k: MonthKey)
    requires |bases| == |channels|
    requires forall a, b :: 0 <= a < b < |channels| ==> channels[a] != channels[b]
    requires forall j, key :: 0 <= j < |bases| && key in bases[j] ==> key.canal == channels[j]
    requires i < |bases| && k in bases[i]
    ensures k in Stack(bases) && Stack(bases)[k] == bases[i][k]
    decreases |bases|
  {
    var n := |bases| - 1;
    if i < n {
      StackKeepsGroups(bases[..n], channels[..n], i, k);
      assert bases[..n][i] == bases[i];
      assert k.canal == channels[i] != channels[n];
      assert k !in bases[n];
    }
  }

  /** The table main writes, one row per group: year and month as whole numbers, amounts rounded to hundredths. */
  datatype OutputRow = OutputRow(canal: string, ano: int, mes: int, sku: string, produto: string, vendas: real, valorTotal: real)

  /** The written row of one group; its amounts are whole hundredths, so round(2) keeps them. */
  function OutputOf(k: MonthKey, s: Sums): (r: OutputRow)
    ensures r.canal == k.canal && r.sku == k.sku && r.produto == k.produto
    ensures r.vendas * 100.0 == s.a && r.valorTotal * 100.0 == s.b
  {
    OutputRow(k.canal, Truncate(k.ano), Truncate(k.mes), k.sku, k.produto, s.a / 100.0, s.b / 100.0)
  }
}
