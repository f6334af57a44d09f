/**
 * scripts/merge_meli.py: the Mercado Livre sales workbook. Header names are
 * cleaned, five of them are required, dates are rewritten as dd/mm/yyyy,
 * rows with no date or no SKU are dropped, and the rest are summed per date
 * and SKU under a label naming SKU, units and date.
 */
module MercadoLivreMerge {
  import opened Wrappers
  import opened Strings
  import opened Numbers
  import opened Normalisers
  import opened Frames
  import opened Dates
  import opened GroupBy

  // ---------------------------------------------------------------- names

  /** Every character of `cs` removed from `s`, one after the other (chained str.replace(c, "")). */
  function RemoveChars(s: string, cs: seq<char>): (r: string)
    ensures forall k :: 0 <= k < |cs| ==> cs[k] !in r
    decreases |cs|
  {
    if cs == [] then s
    else
      var inner := RemoveChars(s, cs[..|cs| - 1]);
      var r := RemoveChar(inner, cs[|cs| - 1]);
      assert forall k :: 0 <= k < |cs| ==> cs[k] !in r by {
        forall k | 0 <= k < |cs| - 1 ensures cs[k] !in r {
          assert cs[..|cs| - 1][k] == cs[k];
          if cs[k] in r {
            RemoveCharSubset(inner, cs[|cs| - 1], cs[k]);
            assert false;
          }
        }
      }
      r
  }

  /** The characters limpar_nome_coluna deletes, in its order. */
  const NameJunk: seq<char> := [' ', '(', ')', '.', '-', '/']

  /**
   * limpar_nome_coluna: transliterated (unidecode, the caller's `translit`),
   * lower-cased, and cleared of spaces, parentheses, dots, hyphens and slashes.
   */
  function CleanName(col: string, translit: string -> string): (r: string)
    ensures forall c :: c in NameJunk ==> c !in r
  {
    RemoveChars(Lower(translit(col)), NameJunk)
  }

  /** limpar_sku: NaN stays missing; text is stripped and loses every single quote. */
  function CleanSku(cell: Option<string>): (r: Option<string>)
    ensures r.Some? <==> cell.Some?
    ensures r.Some? ==> '\'' !in r.value && r.value == RemoveChar(Trim(cell.value), '\'')
  {
    match cell
    case None => None
    case Some(s) => Some(RemoveChar(Trim(s), '\''))
  }

  // ---------------------------------------------------------------- converter_data_flex

  /** The hour markers removed, in the script's order. */
  function DropHourMarkers(t: string): string
  {
    ReplaceAll(ReplaceAll(ReplaceAll(ReplaceAll(t, "hs.", ""), "hs", ""), "hrs.", ""), "hrs", "")
  }

  /** `texto.split()[0]` on stripped text: everything before the first whitespace. */
  function FirstToken(t: string): (r: string)
    ensures |r| <= |t| && r == t[..|r|]
    ensures forall i :: 0 <= i < |r| ==> !IsSpace(r[i])
    ensures |r| < |t| ==> IsSpace(t[|r|])
    decreases |t|
  {
    if t == [] || IsSpace(t[0]) then [] else [t[0]] + FirstToken(t[1..])
  }

  /** The text the conversion tries: markers gone, stripped, and cut to its first token when it has a space and a '/'. */
  function Prepared(t: string): string
  {
    var u := Trim(DropHourMarkers(t));
    if ' ' in u && '/' in u then FirstToken(u) else u
  }

  /**
   * `dia, mes, ano = texto.split("/")[:3]` and the f-string: day and month
   * zero-padded to two digits, the year text kept; None where the unpacking
   * or int() raises.
   */
  function SlashDate(t: string): (r: Option<string>)
    ensures r.Some? ==> '/' in r.value
  {
    if '/' !in t then None
    else
      var p := Split(t, '/');
      if |p| < 3 then None
      else match (ParseInt(p[0]), ParseInt(p[1]))
        case (Some(d), Some(m)) =>
          var x := ZeroPad2(d) + "/" + ZeroPad2(m) + "/" + p[2];
          assert x[|ZeroPad2(d)|] == '/';
          Some(x)
        case _ => None
  }

  /**
   * converter_data_flex: None for a missing or blank cell; otherwise the
   * slash form, else the Portuguese dateparser (the caller's `parser`)
   * written as dd/mm/yyyy, else None.
   */
  function ConvertDate(cell: Option<string>, parser: string -> Option<Date>): (r: Option<string>)
    ensures cell.None? || Lower(Trim(cell.value)) == [] ==> r.None?
    ensures r.Some? ==> '/' in r.value
  {
    if cell.None? then None
    else
      var t := Lower(Trim(cell.value));
      if t == [] then None
      else
        var u := Prepared(t);
        match SlashDate(u)
        case Some(x) => Some(x)
        case None =>
          match parser(u)
          case None => None
          case Some(d) =>
            assert FormatDmy(d)[|ZeroPad2(d.day)|] == '/';
            Some(FormatDmy(d))
  }

  lemma ZeroPad2NoSlash(i: int)
    ensures '/' !in ZeroPad2(i)
  {
    var m: nat := if i < 0 then -i else i;
    var digits := NatToString(m);
    AllDigitsNoChar(digits, '/');
    assert ZeroPad2(i) == (if 0 <= i < 10 then "0" else if i < 0 then "-" else "") + digits;
  }

  /**
   * The slash form keeps the values: its three '/'-separated parts read back
   * as the day and month int() read, and the year text unchanged.
   */
  lemma SlashDateReadsBack(u: string, d: int, m: int)
    requires '/' in u && |Split(u, '/')| >= 3
    requires ParseInt(Split(u, '/')[0]) == Some(d) && ParseInt(Split(u, '/')[1]) == Some(m)
    ensures SlashDate(u).Some?
    ensures Split(SlashDate(u).value, '/') == [ZeroPad2(d), ZeroPad2(m), Split(u, '/')[2]]
    ensures ParseInt(ZeroPad2(d)) == Some(d) && ParseInt(ZeroPad2(m)) == Some(m)
  {
    var y := Split(u, '/')[2];
    SlashDateOf(u, d, m);
    var a, b := ZeroPad2(d), ZeroPad2(m);
    assert SlashDate(u).value == a + "/" + b + "/" + y;
    ZeroPad2NoSlash(d);
    ZeroPad2NoSlash(m);
    SplitParts(a, b, y);
    SplitNoSep(y, '/');
    ZeroPad2RoundTrip(d);
    ZeroPad2RoundTrip(m);
  }

  lemma SlashDateOf(u: string, d: int, m: int)
    requires '/' in u && |Split(u, '/')| >= 3
    requires ParseInt(Split(u, '/')[0]) == Some(d) && ParseInt(Split(u, '/')[1]) == Some(m)
    ensures SlashDate(u) == Some(ZeroPad2(d) + "/" + ZeroPad2(m) + "/" + Split(u, '/')[2])
  {
  }

  /** Three slash-free fields joined by '/' split back into those fields. */
  lemma SplitParts(a: string, b: string, y: string)
    requires '/' !in a && '/' !in b
    ensures Split(a + "/" + b + "/" + y, '/') == [a, b] + Split(y, '/')
  {
    assert a + "/" + b + "/" + y == a + ['/'] + (b + ['/'] + y);
    SplitAtSep(a, b + ['/'] + y, '/');
    SplitAtSep(b, y, '/');
  }

  /** A date that dateparser finds is written so that strptime("%d/%m/%Y") reads it back. */
  lemma ParsedDateReadsBack(u: string, parser: string -> Option<Date>, d: Date)
    requires SlashDate(u).None? && parser(u) == Some(d) && ValidDate(d) && d.year >= 1000
    ensures StrptimeDmy(FormatDmy(d)) == Some(d)
  {
    StrptimeDmyRoundTrip(d);
  }

  // ---------------------------------------------------------------- main

  /** The mapa keys: the cleaned names of the five required columns. */
  const Required: seq<string> := ["datadavenda", "sku", "titulodoanuncio", "unidades", "totalbrl"]

  datatype MeliKey = MeliKey(data: string, sku: string)

  /** A row after cleaning: its (date, SKU) key when both are present, units and total. */
  function RowEntry(header: seq<string>, row: seq<Option<string>>, parser: string -> Option<Date>): (e: Entry<MeliKey>)
    ensures e.key.Some? ==> '\'' !in e.key.value.sku && '/' in e.key.value.data
  {
    var data := ConvertDate(CellOf(header, row, "datadavenda"), parser);
    var sku := CleanSku(CellOf(header, row, "sku"));
    Entry(if data.Some? && sku.Some? then Some(MeliKey(data.value, sku.value)) else None,
      NumericOrZero(CellOf(header, row, "unidades")), NumericOrZero(CellOf(header, row, "totalbrl")))
  }

  function Entries(header: seq<string>, rows: seq<seq<Option<string>>>, parser: string -> Option<Date>): (es: seq<Entry<MeliKey>>)
    ensures |es| == |rows| && forall i :: 0 <= i < |rows| ==> es[i] == RowEntry(header, rows[i], parser)
  {
    seq(|rows|, i requires 0 <= i < |rows| => RowEntry(header, rows[i], parser))
  }

  /** A row survives dropna(subset=['data', 'sku']). */
  predicate Valid(e: Entry<MeliKey>)
  {
    e.key.Some?
  }

  /**
   * main: the grouped table, or the reason it stops without writing (a
   * required column missing after cleaning, or no row left after dropna).
   */
  function Process(s: Sheet, translit: string -> string, parser: string -> Option<Date>): (r: Result<map<MeliKey, Sums>>)
    ensures r.Failure? <==>
      (exists c :: c in Required && c !in CleanHeaderNames(s.header, translit)) ||
      NonePass(Entries(CleanHeaderNames(s.header, translit), s.rows, parser), Valid)
    ensures r.Success? ==> r.value != map[]
    ensures r.Success? ==> forall k :: k in r.value ==> '\'' !in k.sku && '/' in k.data
  {
    var header := CleanHeaderNames(s.header, translit);
    if exists c :: c in Required && c !in header then Failure("missing columns")
    else
      var es := Entries(header, s.rows, parser);
      match FirstIndex(es, Valid)
      case None => Failure("no valid rows")
      case Some(i) =>
        KeptGroups(es, i);
        Success(Aggregate(es))
  }

  /**
   * Grouping cleaned rows, one of them kept, gives at least one group, and
   * every group's SKU is quote-free and its date has the dd/mm/yyyy slash.
   */
  lemma KeptGroups(es: seq<Entry<MeliKey>>, i: nat)
    requires i < |es| && es[i].key.Some?
    requires forall j :: 0 <= j < |es| && es[j].key.Some? ==> '\'' !in es[j].key.value.sku && '/' in es[j].key.value.data
    ensures Aggregate(es) != map[]
    ensures forall k :: k in Aggregate(es) ==> '\'' !in k.sku && '/' in k.data
  {
    AggregateIsGroupSum(es);
    assert es[i].key.value in Aggregate(es);
    forall k | k in Aggregate(es) ensures '\'' !in k.sku && '/' in k.data {
      AggregateKeys(es, k);
    }
  }

  /** `df.columns = [limpar_nome_coluna(c) for c in df.columns]`. */
  function CleanHeaderNames(cols: seq<string>, translit: string -> string): (r: seq<string>)
    ensures |r| == |cols| && forall i :: 0 <= i < |cols| ==> r[i] == CleanName(cols[i], translit)
  {
    seq(|cols|, i requires 0 <= i < |cols| => CleanName(cols[i], translit))
  }

  /** The produto label: `f"{sku} - {int(vendas)}un - {data}"`. */
  function Label(k: MeliKey, s: Sums): string
  {
    k.sku + " - " + IntToString(Truncate(s.a)) + "un - " + k.data
  }

  /** The label starts with the SKU, ends with the date, and its count reads back as int(vendas). */
  lemma LabelParts(k: MeliKey, s: Sums)
    ensures exists n :: Label(k, s) == k.sku + " - " + n + "un - " + k.data && ParseInt(n) == Some(Truncate(s.a))
  {
    IntToStringRoundTrip(Truncate(s.a));
  }
}
