/**
 * scripts/parse_xml_tiktok.py: TikTok Shop NF-e invoices read into line
 * items, first through the document's default namespace and, when that finds
 * nothing, again on the tree with every namespace stripped; then the items of
 * all files are consolidated per SKU, product, year, month and channel.
 */
module TiktokInvoices {
  import opened Wrappers
  import opened Strings
  import opened Numbers
  import opened Normalisers
  import opened XmlTree
  import opened GroupBy
  import Frames

  /** One line item, the dict the extractors append. */
  datatype Record = Record(
    sku: Option<string>, produto: Option<string>,
    vendas: real, valorTotal: real, valorUnitario: real,
    ano: Option<int>, mes: Option<int>,
    visualizacoes: int, devolucoes: int, canal: string)

  // ---------------------------------------------------------------- namespace detection

  /** detect_default_namespace: the URI of a root tag written `{uri}local`. */
  function DefaultNamespace(rootTag: string): (r: Option<string>)
    ensures r.Some? <==> |rootTag| >= 1 && rootTag[0] == '{' && '}' in rootTag
    ensures r.Some? ==> '}' !in r.value
  {
    if |rootTag| >= 1 && rootTag[0] == '{' && '}' in rootTag then
      assert '}' in rootTag[1..] by {
        var i :| 0 <= i < |rootTag| && rootTag[i] == '}';
        assert rootTag[1..][i - 1] == '}';
      }
      BeforeAfter(rootTag[1..], '}');
      Some(Before(rootTag[1..], '}'))
    else None
  }

  /** A detected URI is exactly what sits between the leading '{' and the first '}'. */
  lemma DefaultNamespaceShape(rootTag: string)
    requires DefaultNamespace(rootTag).Some?
    ensures exists local :: rootTag == "{" + DefaultNamespace(rootTag).value + "}" + local
  {
    var t := rootTag[1..];
    assert '}' in t by {
      var i :| 0 <= i < |rootTag| && rootTag[i] == '}';
      assert t[i - 1] == '}';
    }
    BeforeAfter(t, '}');
    assert rootTag == "{" + Before(t, '}') + "}" + After(t, '}');
  }

  /** The tag ElementTree gives a root in namespace `uri` yields `uri` back. */
  lemma DefaultNamespaceOfQName(uri: string, local: string)
    requires uri != [] && '}' !in uri
    ensures DefaultNamespace(QName(uri, local)) == Some(uri)
  {
    var tag := "{" + uri + "}" + local;
    var t := tag[1..];
    assert t == uri + "}" + local;
    assert tag[1 + |uri|] == '}';
    SplitAtSep(uri, local, '}');
    SplitFirstIsBefore(t, '}');
  }

  // ---------------------------------------------------------------- values and dates

  /**
   * to_float: keep digits, ',', '.' and '-', turn ',' into '.', and read the
   * result; a missing text, or one float() refuses, gives 0.0.
   */
  function ToFloat(x: Option<string>): (r: real)
    ensures x.None? ==> r == 0.0
    ensures x.Some? && ParseFloat(SignedNumericText(x.value)).Some? ==> r == ParseFloat(SignedNumericText(x.value)).value
    ensures x.Some? && ParseFloat(SignedNumericText(x.value)).None? ==> r == 0.0
  {
    SignedAmountOrZero(x)
  }

  /** The tag test `ns:local` with `ns` bound to `uri`; with `uri` empty it is the plain tag `local`. */
  function Name(uri: string, local: string): Matcher
  {
    Exact(QName(uri, local))
  }

  function IdePath(uri: string, field: string): seq<Step>
  {
    [Descendant(Name(uri, "ide")), Child(Name(uri, field))]
  }

  /** `node.text[:10] if node is not None and node.text else None`. */
  function DateOf(node: Option<Element>): (r: Option<string>)
    ensures r.Some? <==> node.Some? && node.value.text.Some? && node.value.text.value != []
    ensures r.Some? ==> 1 <= |r.value| <= 10 && |r.value| <= |node.value.text.value|
    ensures r.Some? ==> r.value == node.value.text.value[..|r.value|]
  {
    if node.Some? && node.value.text.Some? && node.value.text.value != [] then
      var t := node.value.text.value;
      Some(Slice(t, 0, 10))
    else None
  }

  /**
   * The date of the namespaced extractor: `.//ns:ide/ns:dhEmi`, falling back
   * to `.//ns:ide/ns:dEmi` when that node is missing or has no text.
   */
  function NamespacedDate(root: Element, uri: string): (r: Option<string>)
    ensures var dh := Find(root, IdePath(uri, "dhEmi"));
      dh.Some? && dh.value.text.Some? ==> r == DateOf(dh)
    ensures var dh := Find(root, IdePath(uri, "dhEmi"));
      dh.None? || dh.value.text.None? ==> r == DateOf(Find(root, IdePath(uri, "dEmi")))
  {
    var dh := Find(root, IdePath(uri, "dhEmi"));
    if dh.None? || dh.value.text.None? then DateOf(Find(root, IdePath(uri, "dEmi"))) else DateOf(dh)
  }

  /**
   * The date of the stripped extractor: `.//dhEmi` anywhere, falling back to
   * `.//dEmi` only when no dhEmi node exists.
   */
  function StrippedDate(root: Element): (r: Option<string>)
    ensures Find(root, [Descendant(Exact("dhEmi"))]).Some? ==> r == DateOf(Find(root, [Descendant(Exact("dhEmi"))]))
    ensures Find(root, [Descendant(Exact("dhEmi"))]).None? ==> r == DateOf(Find(root, [Descendant(Exact("dEmi"))]))
  {
    var dh := Find(root, [Descendant(Exact("dhEmi"))]);
    if dh.None? then DateOf(Find(root, [Descendant(Exact("dEmi"))])) else DateOf(dh)
  }

  /**
   * `int(data[:4]) if data else None` and `int(data[5:7]) if data else None`:
   * the year and month of every item; int() refusing its text raises.
   */
  function YearMonth(data: Option<string>): (r: Result<(Option<int>, Option<int>)>)
    ensures data.None? || data.value == [] ==> r == Success((None, None))
    ensures data.Some? && data.value != [] ==>
      (r.Success? <==> ParseInt(Slice(data.value, 0, 4)).Some? && ParseInt(Slice(data.value, 5, 7)).Some?)
    ensures data.Some? && data.value != [] && r.Success? ==>
      r.value == (ParseInt(Slice(data.value, 0, 4)), ParseInt(Slice(data.value, 5, 7)))
  {
    if data.None? || data.value == [] then Success((None, None))
    else
      var y := ParseInt(Slice(data.value, 0, 4));
      var m := ParseInt(Slice(data.value, 5, 7));
      if y.None? || m.None? then Failure("ValueError") else Success((y, m))
  }

  /** An ISO date "YYYY-MM-..." gives its year and month. */
  lemma YearMonthOfIsoDate(y: int, m: int, rest: string)
    requires 1000 <= y <= 9999 && 1 <= m <= 12
    ensures YearMonth(Some(IntToString(y) + "-" + ZeroPad2(m) + rest)) == Success((Some(y), Some(m)))
  {
    var ys, ms := IntToString(y), ZeroPad2(m);
    var d := ys + "-" + ms + rest;
    NatToStringLength(y, 4);
    ZeroPad2Month(m);
    assert Slice(d, 0, 4) == ys;
    assert Slice(d, 5, 7) == ms;
    IntToStringRoundTrip(y);
    ZeroPad2RoundTrip(m);
  }

  // ---------------------------------------------------------------- items

  /** `prod.findtext("ns:<local>")`: the text of the named child, "" when it has none, None when absent. */
  function Field(prod: Element, uri: string, local: string): Option<string>
  {
    match FirstMatching(Name(uri, local), prod.children)
    case None => None
    case Some(x) => Some(x.text.GetOr(""))
  }

  /** Field is ElementTree's findtext with a one-step child path and no default. */
  lemma FieldIsFindText(prod: Element, uri: string, local: string)
    ensures Field(prod, uri, local) == FindText(prod, [Child(Name(uri, local))], None)
  {
    FindChild(prod, Name(uri, local));
  }

  /** `str(sku).strip().upper() if sku else None`. */
  function SkuOf(text: Option<string>): (r: Option<string>)
    ensures r.Some? <==> text.Some? && text.value != []
    ensures r.Some? ==> r.value == NormaliseSku(text.value)
  {
    if text.Some? && text.value != [] then Some(NormaliseSku(text.value)) else None
  }

  /** The record one `prod` element yields, given the document's year and month. */
  function ItemOf(prod: Element, uri: string, when: (Option<int>, Option<int>)): (r: Record)
    ensures r.canal == "tiktok" && r.visualizacoes == 0 && r.devolucoes == 0
    ensures r.sku == SkuOf(Field(prod, uri, "cProd")) && r.produto == Field(prod, uri, "xProd")
    ensures r.vendas == ToFloat(Field(prod, uri, "qCom")) && r.valorTotal == ToFloat(Field(prod, uri, "vProd"))
    ensures r.valorUnitario == ToFloat(Field(prod, uri, "vUnCom"))
    ensures r.ano == when.0 && r.mes == when.1
  {
    Record(
      SkuOf(Field(prod, uri, "cProd")), Field(prod, uri, "xProd"),
      ToFloat(Field(prod, uri, "qCom")), ToFloat(Field(prod, uri, "vProd")), ToFloat(Field(prod, uri, "vUnCom")),
      when.0, when.1, 0, 0, "tiktok")
  }

  /** `det.find("ns:prod")`. */
  function ProdOf(det: Element, uri: string): Option<Element>
  {
    FirstMatching(Name(uri, "prod"), det.children)
  }

  /** ProdOf is ElementTree's find with a one-step child path. */
  lemma ProdOfIsFind(det: Element, uri: string)
    ensures ProdOf(det, uri) == Find(det, [Child(Name(uri, "prod"))])
  {
    FindChild(det, Name(uri, "prod"));
  }

  /** The `prod` of every `det` that has one, in document order; the others are skipped. */
  function Prods(dets: seq<Element>, uri: string): seq<Element>
    decreases |dets|
  {
    if dets == [] then []
    else
      var last := ProdOf(dets[|dets| - 1], uri);
      Prods(dets[..|dets| - 1], uri) + (if last.Some? then [last.value] else [])
  }

  /** Each part of a document contributes its own prods, in order: none is lost, repeated or moved. */
  lemma {:induction false} ProdsAppend(a: seq<Element>, b: seq<Element>, uri: string)
    ensures Prods(a + b, uri) == Prods(a, uri) + Prods(b, uri)
    decreases |b|
  {
    if b == [] {
      assert a + b == a;
    } else {
      var b0 := b[..|b| - 1];
      assert (a + b)[..|a + b| - 1] == a + b0;
      assert (a + b)[|a + b| - 1] == b[|b| - 1];
      ProdsAppend(a, b0, uri);
    }
  }

  /** A `det` with a prod yields exactly that prod; one without yields nothing. */
  lemma ProdsSingle(det: Element, uri: string)
    ensures ProdOf(det, uri).Some? ==> Prods([det], uri) == [ProdOf(det, uri).value]
    ensures ProdOf(det, uri).None? ==> Prods([det], uri) == []
  {
    assert [det][..0] == [];
  }

  function Items(prods: seq<Element>, uri: string, when: (Option<int>, Option<int>)): (r: seq<Record>)
    ensures |r| == |prods|
    ensures forall i :: 0 <= i < |r| ==> r[i] == ItemOf(prods[i], uri, when)
  {
    seq(|prods|, i requires 0 <= i < |prods| => ItemOf(prods[i], uri, when))
  }

  /** The year and month stamped on items; only read when the document has an item. */
  function WhenOf(data: Option<string>): (Option<int>, Option<int>)
  {
    match YearMonth(data)
    case Success(when) => when
    case Failure(_) => (None, None)
  }

  lemma ItemsSnoc(prods: seq<Element>, p: Element, uri: string, when: (Option<int>, Option<int>))
    ensures Items(prods + [p], uri, when) == Items(prods, uri, when) + [ItemOf(p, uri, when)]
  {
  }

  /**
   * The records an extractor returns for the `det` elements it found: one per
   * prod, in order; the first record's int() on a malformed date raises, so
   * a malformed date fails the document only when it has an item.
   */
  function Extracted(dets: seq<Element>, uri: string, data: Option<string>): (r: Result<seq<Record>>)
    ensures r.Failure? <==> Prods(dets, uri) != [] && YearMonth(data).Failure?
    ensures r.Success? ==> r.value == Items(Prods(dets, uri), uri, WhenOf(data))
  {
    var prods := Prods(dets, uri);
    if prods == [] then Success([])
    else
      match YearMonth(data)
      case Failure(e) => Failure(e)
      case Success(when) => Success(Items(prods, uri, when))
  }

  /** One more det adds its prod, if it has one, at the end. */
  lemma ProdsStep(dets: seq<Element>, i: nat, uri: string)
    requires i < |dets|
    ensures Prods(dets[..i + 1], uri) == Prods(dets[..i], uri) + (if ProdOf(dets[i], uri).Some? then [ProdOf(dets[i], uri).value] else [])
  {
    var pre := dets[..i + 1];
    assert pre[..|pre| - 1] == dets[..i] && pre[|pre| - 1] == dets[i];
  }

  /** A document whose first i+1 dets hold a prod has a prod. */
  lemma ProdsPrefix(dets: seq<Element>, n: nat, uri: string)
    requires n <= |dets| && Prods(dets[..n], uri) != []
    ensures Prods(dets, uri) != []
  {
    var front, back := dets[..n], dets[n..];
    assert front + back == dets;
    ProdsAppend(front, back, uri);
    assert |Prods(dets, uri)| == |Prods(front, uri)| + |Prods(back, uri)|;
  }

  /** One more det adds the record of its prod, if it has one, at the end. */
  lemma ItemsStep(dets: seq<Element>, i: nat, uri: string, when: (Option<int>, Option<int>))
    requires i < |dets|
    ensures var prod := ProdOf(dets[i], uri);
      Items(Prods(dets[..i + 1], uri), uri, when) ==
      Items(Prods(dets[..i], uri), uri, when) + (if prod.Some? then [ItemOf(prod.value, uri, when)] else [])
  {
    ProdsStep(dets, i, uri);
    var prod := ProdOf(dets[i], uri);
    if prod.Some? {
      ItemsSnoc(Prods(dets[..i], uri), prod.value, uri, when);
    }
  }

  /** A document with a prod and a malformed date raises the date's error. */
  lemma ExtractedFails(dets: seq<Element>, uri: string, data: Option<string>)
    requires Prods(dets, uri) != [] && YearMonth(data).Failure?
    ensures Extracted(dets, uri, data) == Failure(YearMonth(data).error)
  {
  }

  /** The records gathered over every det are the extraction. */
  lemma ExtractedGathered(dets: seq<Element>, uri: string, data: Option<string>, registros: seq<Record>)
    requires Prods(dets, uri) != [] ==> YearMonth(data).Success?
    requires registros == Items(Prods(dets, uri), uri, WhenOf(data))
    ensures Extracted(dets, uri, data) == Success(registros)
  {
    if Prods(dets, uri) == [] {
      assert registros == [];
    }
  }

  /** The loop of both extractors: one record appended per det that has a prod. */
  method ExtractRecords(dets: seq<Element>, uri: string, data: Option<string>) returns (r: Result<seq<Record>>)
    ensures r == Extracted(dets, uri, data)
  {
    var registros: seq<Record> := [];
    var i := 0;
    while i < |dets|
      invariant 0 <= i <= |dets|
      invariant Prods(dets[..i], uri) != [] ==> YearMonth(data).Success?
      invariant registros == Items(Prods(dets[..i], uri), uri, WhenOf(data))
    {
      var prod := ProdOf(dets[i], uri);
      ProdsStep(dets, i, uri);
      ItemsStep(dets, i, uri, WhenOf(data));
      if prod.Some? {
        var when := YearMonth(data);
        if when.Failure? {
          ProdsPrefix(dets, i + 1, uri);
          ExtractedFails(dets, uri, data);
          return Failure(when.error);
        }
        assert WhenOf(data) == when.value;
        registros := registros + [ItemOf(prod.value, uri, when.value)];
      }
      i := i + 1;
    }
    assert dets[..i] == dets;
    ExtractedGathered(dets, uri, data, registros);
    r := Success(registros);
  }

  /** extract_with_namespace on a parsed tree. */
  function WithNamespace(root: Element): Result<seq<Record>>
  {
    match DefaultNamespace(root.tag)
    case None => Success([])
    case Some(uri) =>
      if uri == [] then Success([])
      else Extracted(FindAll(root, [Descendant(Name(uri, "det"))]), uri, NamespacedDate(root, uri))
  }

  method ExtractWithNamespace(root: Element) returns (r: Result<seq<Record>>)
    ensures r == WithNamespace(root)
    ensures DefaultNamespace(root.tag).None? || DefaultNamespace(root.tag) == Some("") ==> r == Success([])
  {
    var ns := DefaultNamespace(root.tag);
    if ns.None? || ns.value == [] {
      return Success([]);
    }
    var uri := ns.value;
    r := ExtractRecords(FindAll(root, [Descendant(Name(uri, "det"))]), uri, NamespacedDate(root, uri));
  }

  /** extract_without_namespace: the same search by plain tags, on the stripped tree. */
  function WithoutNamespace(root: Element): Result<seq<Record>>
  {
    var s := StripTree(root);
    Extracted(FindAll(s, [Descendant(Name("", "det"))]), "", StrippedDate(s))
  }

  method ExtractWithoutNamespace(root: Element) returns (r: Result<seq<Record>>)
    ensures r == WithoutNamespace(root)
  {
    var s := StripTree(root);
    r := ExtractRecords(FindAll(s, [Descendant(Name("", "det"))]), "", StrippedDate(s));
  }

  /** Every extracted record has canal "tiktok", no views, no returns and a normalised or missing SKU. */
  lemma ExtractedRecords(dets: seq<Element>, uri: string, data: Option<string>)
    requires Extracted(dets, uri, data).Success?
    ensures var rs := Extracted(dets, uri, data).value;
      |rs| == |Prods(dets, uri)| &&
      forall i :: 0 <= i < |rs| ==>
        rs[i].canal == "tiktok" && rs[i].visualizacoes == 0 && rs[i].devolucoes == 0 &&
        (rs[i].sku.Some? ==> NormaliseSku(rs[i].sku.value) == rs[i].sku.value) &&
        (rs[i].ano.Some? <==> data.Some? && data.value != [])
  {
    var rs := Extracted(dets, uri, data).value;
    var prods := Prods(dets, uri);
    forall i | 0 <= i < |rs|
      ensures rs[i].sku.Some? ==> NormaliseSku(rs[i].sku.value) == rs[i].sku.value
      ensures rs[i].ano.Some? <==> data.Some? && data.value != []
    {
      var t := Field(prods[i], uri, "cProd");
      if t.Some? && t.value != [] {
        NormaliseSkuIdempotent(t.value);
      }
    }
  }

  // ---------------------------------------------------------------- main

  /** What one file contributes: nothing when it could not be parsed; the stripped pass only when the first found nothing. */
  function FileRows(tree: Option<Element>): (r: Result<seq<Record>>)
    ensures tree.None? ==> r == Success([])
    ensures tree.Some? && WithNamespace(tree.value).Success? && WithNamespace(tree.value).value != [] ==> r == WithNamespace(tree.value)
    ensures tree.Some? && WithNamespace(tree.value) == Success([]) ==> r == WithoutNamespace(tree.value)
  {
    match tree
    case None => Success([])
    case Some(root) =>
      match WithNamespace(root)
      case Failure(e) => Failure(e)
      case Success(rows) => if rows != [] then Success(rows) else WithoutNamespace(root)
  }

  /** `all_rows` after the loop over the files. */
  function AllRows(trees: seq<Option<Element>>): Result<seq<Record>>
    decreases |trees|
  {
    if trees == [] then Success([])
    else
      match AllRows(trees[..|trees| - 1])
      case Failure(e) => Failure(e)
      case Success(rows) =>
        match FileRows(trees[|trees| - 1])
        case Failure(e) => Failure(e)
        case Success(more) => Success(rows + more)
  }

  /** The consolidation key (sku, produto, ano, mes, canal); None when any part is NaN. */
  datatype SaleKey = SaleKey(sku: string, produto: string, ano: int, mes: int, canal: string)

  /** After dropna(subset=["sku"]) and the second strip/upper, the row as the groupby sees it. */
  function EntryOf(r: Record): (e: Entry<SaleKey>)
    ensures e.key.Some? <==> r.sku.Some? && r.produto.Some? && r.ano.Some? && r.mes.Some?
    ensures e.a == r.vendas && e.b == r.valorTotal
  {
    if r.sku.Some? && r.produto.Some? && r.ano.Some? && r.mes.Some? then
      Entry(Some(SaleKey(NormaliseSku(r.sku.value), r.produto.value, r.ano.value, r.mes.value, r.canal)), r.vendas, r.valorTotal)
    else Entry(None, r.vendas, r.valorTotal)
  }

  function Entries(rows: seq<Record>): (es: seq<Entry<SaleKey>>)
    ensures |es| == |rows|
    ensures forall i :: 0 <= i < |es| ==> es[i] == EntryOf(rows[i])
  {
    seq(|rows|, i requires 0 <= i < |rows| => EntryOf(rows[i]))
  }

  /** One row of tiktok_market.csv. */
  datatype Line = Line(vendas: real, valorTotal: real, valorUnitarioMedio: Option<real>)

  function Consolidate(rows: seq<Record>): map<SaleKey, Line>
  {
    var groups := Aggregate(Entries(rows));
    map k | k in groups :: Line(groups[k].a, groups[k].b, MeanPrice(groups[k]))
  }

  /**
   * The run over all parsed files: Failure when an int() raised, None when no
   * row was extracted (nothing is written), the consolidated table otherwise.
   */
  function Outcome(trees: seq<Option<Element>>): Result<Option<map<SaleKey, Line>>>
  {
    match AllRows(trees)
    case Failure(e) => Failure(e)
    case Success(rows) => if rows == [] then Success(None) else Success(Some(Consolidate(rows)))
  }

  /** One pass of main's loop body: parse result in, rows out. */
  method ReadFile(tree: Option<Element>) returns (rows: Result<seq<Record>>)
    ensures rows == FileRows(tree)
  {
    match tree {
      case None =>
        rows := Success([]);
      case Some(root) =>
        rows := ExtractWithNamespace(root);
        if rows.Success? && rows.value == [] {
          rows := ExtractWithoutNamespace(root);
        }
    }
  }

  lemma AllRowsStep(trees: seq<Option<Element>>, i: nat, sofar: seq<Record>, more: seq<Record>)
    requires i < |trees| && AllRows(trees[..i]) == Success(sofar) && FileRows(trees[i]) == Success(more)
    ensures AllRows(trees[..i + 1]) == Success(sofar + more)
  {
    Frames.PrefixSnoc(trees, i);
    AllRowsSnoc(trees[..i], trees[i], sofar, more);
  }

  lemma AllRowsSnoc(init: seq<Option<Element>>, tree: Option<Element>, sofar: seq<Record>, more: seq<Record>)
    requires AllRows(init) == Success(sofar) && FileRows(tree) == Success(more)
    ensures AllRows(init + [tree]) == Success(sofar + more)
  {
    var all := init + [tree];
    assert all[..|all| - 1] == init;
  }

  method Run(trees: seq<Option<Element>>) returns (r: Result<Option<map<SaleKey, Line>>>)
    ensures r == Outcome(trees)
  {
    var allRows: seq<Record> := [];
    var i := 0;
    while i < |trees|
      invariant 0 <= i <= |trees|
      invariant AllRows(trees[..i]) == Success(allRows)
    {
      var rows := ReadFile(trees[i]);
      if rows.Failure? {
        FileFailure(trees, i, allRows, rows.error);
        return Failure(rows.error);
      }
      AllRowsStep(trees, i, allRows, rows.value);
      allRows := allRows + rows.value;
      i := i + 1;
    }
    assert trees[..i] == trees;
    if allRows == [] {
      return Success(None);
    }
    r := Success(Some(Consolidate(allRows)));
  }

  /** Once a file raises, the whole run fails with that exception. */
  lemma {:induction false} AllRowsFailure(trees: seq<Option<Element>>, n: nat, e: string)
    requires 1 <= n <= |trees| && AllRows(trees[..n]) == Failure(e)
    ensures AllRows(trees) == Failure(e)
    decreases |trees| - n
  {
    if n < |trees| {
      var pre := trees[..n + 1];
      assert pre[..|pre| - 1] == trees[..n];
      AllRowsFailure(trees, n + 1, e);
    } else {
      assert trees[..n] == trees;
    }
  }

  lemma FileFailure(trees: seq<Option<Element>>, i: nat, sofar: seq<Record>, e: string)
    requires i < |trees| && AllRows(trees[..i]) == Success(sofar) && FileRows(trees[i]) == Failure(e)
    ensures Outcome(trees) == Failure(e)
  {
    var pre := trees[..i + 1];
    assert pre[..|pre| - 1] == trees[..i] && pre[|pre| - 1] == trees[i];
    AllRowsFailure(trees, i + 1, e);
  }

  /**
   * Each consolidated line holds the sums of vendas and valor_total over the
   * rows with that key, and a key appears exactly when some row carries it.
   */
  lemma ConsolidateSums(rows: seq<Record>, k: SaleKey)
    ensures k in Consolidate(rows) <==> exists i :: 0 <= i < |rows| && EntryOf(rows[i]).key == Some(k)
    ensures k in Consolidate(rows) ==>
      Consolidate(rows)[k].vendas == GroupSum(Entries(rows), k).a &&
      Consolidate(rows)[k].valorTotal == GroupSum(Entries(rows), k).b
  {
    var es := Entries(rows);
    AggregateIsGroupSum(es);
    if HasKey(es, k) {
      var i :| 0 <= i < |es| && es[i].key == Some(k);
      assert EntryOf(rows[i]).key == Some(k);
    }
    if exists i :: 0 <= i < |rows| && EntryOf(rows[i]).key == Some(k) {
      var i :| 0 <= i < |rows| && EntryOf(rows[i]).key == Some(k);
      assert es[i].key == Some(k);
    }
  }

  /** The order in which files and items are read does not change the table. */
  lemma ConsolidateOrderFree(rows: seq<Record>, other: seq<Record>)
    requires multiset(rows) == multiset(other)
    ensures Consolidate(rows) == Consolidate(other)
  {
    var es, os := Entries(rows), Entries(other);
    assert multiset(es) == multiset(os) by {
      EntriesMultiset(rows, other);
    }
    AggregatePermutation(es, os);
  }

  lemma EntriesAppend(a: seq<Record>, b: seq<Record>)
    ensures Entries(a + b) == Entries(a) + Entries(b)
  {
  }

  lemma {:induction false} EntriesMultiset(rows: seq<Record>, other: seq<Record>)
    requires multiset(rows) == multiset(other)
    ensures multiset(Entries(rows)) == multiset(Entries(other))
    decreases |rows|
  {
    if rows != [] {
      var n := |rows| - 1;
      var x := rows[n];
      assert x in multiset(other);
      var i :| 0 <= i < |other| && other[i] == x;
      var pre, post := other[..i], other[i + 1..];
      assert other == pre + [x] + post;
      assert rows == rows[..n] + [x];
      assert multiset(rows[..n]) == multiset(pre + post) by {
        assert multiset(rows[..n]) == multiset(rows) - multiset{x};
        assert multiset(pre + post) == multiset(other) - multiset{x};
      }
      EntriesMultiset(rows[..n], pre + post);
      EntriesAppend(rows[..n], [x]);
      EntriesAppend(pre + [x], post);
      EntriesAppend(pre, [x]);
      EntriesAppend(pre, post);
      var a, p, q, e := Entries(rows[..n]), Entries(pre), Entries(post), Entries([x]);
      assert Entries(rows) == a + e;
      assert Entries(other) == p + e + q;
      assert multiset(a) == multiset(p) + multiset(q);
      MultisetConcat3(a, e, p, q);
    } else {
      assert other == [];
    }
  }

  lemma MultisetConcat3<T>(a: seq<T>, e: seq<T>, p: seq<T>, q: seq<T>)
    requires multiset(a) == multiset(p) + multiset(q)
    ensures multiset(a + e) == multiset(p + e + q)
  {
    assert multiset(a + e) == multiset(a) + multiset(e);
    assert multiset(p + e + q) == multiset(p + e) + multiset(q);
  }
}
