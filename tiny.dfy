/**
 * scripts/parse_xml_tiny.py: NF-e invoices exported by Tiny read into three
 * tables (sales headers, customers, line items). Every search uses the `{*}`
 * namespace wildcard, so the documents' default namespace does not matter.
 * dateutil's parser is foreign code and is a parameter here: it maps a text
 * to the date and time it reads, or to None where it raises.
 */
module TinyInvoices {
  import opened Wrappers
  import opened Strings
  import opened Numbers
  import opened XmlTree
  import opened Dates
  import opened Frames

  // ---------------------------------------------------------------- helpers

  /** `.//{*}local` */
  function Desc(local: string): seq<Step>
  {
    [Descendant(AnyNs(local))]
  }

  /** find(elem, path): None when there is no element to search. */
  function FindIn(elem: Option<Element>, path: seq<Step>): Option<Element>
  {
    if elem.None? then None else Find(elem.value, path)
  }

  /** ftext(elem, path) with its default None. */
  function TextIn(elem: Option<Element>, path: seq<Step>): Option<string>
  {
    if elem.None? then None else FindText(elem.value, path, None)
  }

  /** find(elem, ".//{*}local"), read as the first proper descendant with that local name. */
  function DescIn(elem: Option<Element>, local: string): (r: Option<Element>)
  {
    if elem.None? then None else FirstMatching(AnyNs(local), Iter(elem.value)[1..])
  }

  /** ftext(elem, ".//{*}local"), read through DescIn. */
  function DescText(elem: Option<Element>, local: string): Option<string>
  {
    match DescIn(elem, local)
    case None => None
    case Some(x) => Some(x.text.GetOr(""))
  }

  lemma DescInIsFindIn(elem: Option<Element>, local: string)
    ensures DescIn(elem, local) == FindIn(elem, Desc(local))
  {
    if elem.Some? {
      FindDescendant(elem.value, AnyNs(local));
    }
  }

  lemma DescTextIsTextIn(elem: Option<Element>, local: string)
    ensures DescText(elem, local) == TextIn(elem, Desc(local))
  {
    DescInIsFindIn(elem, local);
  }

  /** `v is not None and str(v).strip() != ""` */
  predicate NonEmpty(v: Option<string>)
  {
    v.Some? && Trim(v.value) != []
  }

  /** first_nonempty: the first value that is not None and not blank, unmodified. */
  function FirstNonEmpty(vals: seq<Option<string>>): (r: Option<string>)
    ensures r.Some? ==> NonEmpty(r)
  {
    if vals == [] then None
    else if NonEmpty(vals[0]) then vals[0]
    else FirstNonEmpty(vals[1..])
  }

  /** The value first_nonempty returns is the first non-blank one, or None when all are blank. */
  lemma {:induction false} FirstNonEmptyIsFirst(vals: seq<Option<string>>)
    ensures FirstNonEmpty(vals).None? <==> forall i :: 0 <= i < |vals| ==> !NonEmpty(vals[i])
    ensures FirstNonEmpty(vals).Some? ==>
      exists i :: 0 <= i < |vals| && vals[i] == FirstNonEmpty(vals) && forall j :: 0 <= j < i ==> !NonEmpty(vals[j])
    decreases |vals|
  {
    if vals != [] && !NonEmpty(vals[0]) {
      var rest := vals[1..];
      FirstNonEmptyIsFirst(rest);
      if FirstNonEmpty(rest).Some? {
        var i :| 0 <= i < |rest| && rest[i] == FirstNonEmpty(rest) && forall j :: 0 <= j < i ==> !NonEmpty(rest[j]);
        assert vals[i + 1] == rest[i];
        forall j | 0 <= j < i + 1 ensures !NonEmpty(vals[j]) {
          if j > 0 {
            assert vals[j] == rest[j - 1];
          }
        }
      } else {
        forall i | 0 <= i < |vals| ensures !NonEmpty(vals[i]) {
          if i > 0 {
            assert vals[i] == rest[i - 1];
          }
        }
      }
    } else if vals != [] {
      assert vals[0] == FirstNonEmpty(vals);
    }
  }

  /** With two candidates: the first when it is non-blank, else the second when it is, else None. */
  lemma FirstOfTwo(a: Option<string>, b: Option<string>)
    ensures NonEmpty(a) ==> FirstNonEmpty([a, b]) == a
    ensures !NonEmpty(a) && NonEmpty(b) ==> FirstNonEmpty([a, b]) == b
    ensures !NonEmpty(a) && !NonEmpty(b) ==> FirstNonEmpty([a, b]) == None
  {
    var s := [a, b];
    var t := [b];
    assert s[1..] == t && t[1..] == [];
    assert !NonEmpty(b) ==> FirstNonEmpty(t) == FirstNonEmpty([]);
  }

  /** to_float: None stays None; otherwise strip, ',' to '.', float(), and None where float() raises. */
  function ToFloat(x: Option<string>): (r: Option<real>)
    ensures x.None? ==> r.None?
  {
    if x.None? then None else ParseFloat(ReplaceChar(Trim(x.value), ',', '.'))
  }

  /** to_int: None stays None; otherwise int() of the stripped text, None where it raises. */
  function ToInt(x: Option<string>): (r: Option<int>)
    ensures x.None? ==> r.None?
  {
    if x.None? then None else ParseInt(Trim(x.value))
  }

  /** A decimal comma reads like a decimal point. */
  lemma ToFloatOfCommaCents(m: nat)
    ensures var s := FormatUnsignedCents(m);
      ToFloat(Some(ReplaceChar(s, '.', ','))) == Some(m as real / 100.0)
  {
    var s := FormatUnsignedCents(m);
    var c := ReplaceChar(s, '.', ',');
    assert c[0] == s[0] && c[|c| - 1] == s[|s| - 1];
    TrimUntouched(c);
    assert ',' !in s by {
      var q, r := m / 100, m % 100;
      assert s == NatToString(q) + ['.'] + TwoDigits(r);
      AllDigitsNoChar(NatToString(q), ',');
      AllDigitsNoChar(TwoDigits(r), ',');
    }
    assert ReplaceChar(c, ',', '.') == s;
    FormatUnsignedCentsRoundTrip(m);
  }

  /** int() reads back every integer str() writes. */
  lemma ToIntRoundTrip(i: int)
    ensures ToInt(Some(IntToString(i))) == Some(i)
  {
    IntToStringShape(i);
    IntToStringRoundTrip(i);
  }

  // ---------------------------------------------------------------- dates

  /**
   * to_date_iso: None for None or blank text; what dateutil reads, written
   * "%Y-%m-%d %H:%M:%S"; failing that, a date "%Y-%m-%d" read from the first
   * ten characters of the stripped text, written with time 00:00:00.
   */
  function ToDateIso(x: Option<string>, dtparse: string -> Option<DateTime>): (r: Option<string>)
    ensures x.None? || IsBlank(x.value) ==> r.None?
  {
    TrimEmptyIffBlank(x.GetOr(""));
    if x.None? || Trim(x.value) == [] then
      None
    else
      match dtparse(x.value)
      case Some(dt) => Some(FormatDateTime(dt))
      case None =>
        match StrptimeYmd(Slice(Trim(x.value), 0, 10))
        case Some(d) => Some(FormatYmd(d) + " 00:00:00")
        case None => None
  }

  /** When dateutil refuses the text, a result is always a real date at midnight. */
  lemma ToDateIsoFallback(x: Option<string>, dtparse: string -> Option<DateTime>)
    requires x.Some? && dtparse(x.value).None? && ToDateIso(x, dtparse).Some?
    ensures exists d :: ValidDate(d) && ToDateIso(x, dtparse).value == FormatYmd(d) + " 00:00:00"
  {
    var d := StrptimeYmd(Slice(Trim(x.value), 0, 10)).value;
    assert ValidDate(d);
  }

  lemma FormatYmdShape(d: Date)
    requires ValidDate(d) && d.year >= 1000
    ensures |FormatYmd(d)| == 10 && IsDigit(FormatYmd(d)[0])
  {
    YearFieldOfText(d.year);
    ZeroPad2IsTwoDigits(d.month);
    ZeroPad2IsTwoDigits(d.day);
  }

  /**
   * A "YYYY-MM-DD" date followed by anything that does not end in blank space
   * ("2024-01-25T10:30:00-03:00") comes back at midnight when dateutil refuses it.
   */
  lemma ToDateIsoOfIsoDate(d: Date, rest: string, dtparse: string -> Option<DateTime>)
    requires ValidDate(d) && d.year >= 1000
    requires rest == [] || !IsSpace(rest[|rest| - 1])
    requires dtparse(FormatYmd(d) + rest).None?
    ensures ToDateIso(Some(FormatYmd(d) + rest), dtparse) == Some(FormatYmd(d) + " 00:00:00")
  {
    var f := FormatYmd(d);
    var x := f + rest;
    FormatYmdShape(d);
    assert x[0] == f[0];
    assert !IsSpace(x[|x| - 1]) by {
      if rest == [] {
        assert x[|x| - 1] == f[9];
        ZeroPad2IsTwoDigits(d.day);
        assert f[9] == ZeroPad2(d.day)[1];
      } else {
        assert x[|x| - 1] == rest[|rest| - 1];
      }
    }
    TrimUntouched(x);
    assert Slice(x, 0, 10) == f;
    StrptimeYmdRoundTrip(d);
  }

  // ---------------------------------------------------------------- header

  /** The sales-table row of one invoice. */
  datatype Header = Header(
    idNota: Option<string>, modelo: Option<string>, serie: Option<string>, numeroNota: Option<string>,
    dataEmissao: Option<string>,
    cnpjEmitente: Option<string>, nomeEmitente: Option<string>,
    cpfCliente: Option<string>, cnpjCliente: Option<string>,
    valorTotal: Option<real>, valorProdutos: Option<real>, valorFrete: Option<real>,
    valorIcms: Option<real>, valorIpi: Option<real>, valorDesconto: Option<real>,
    formaPgto: Option<string>)

  /**
   * The invoice id: infNFe's "Id" attribute, with every "NFe" removed when it
   * starts with "NFe"; None with no infNFe or no attribute.
   */
  function InvoiceId(infNFe: Option<Element>): (r: Option<string>)
    ensures infNFe.None? || "Id" !in infNFe.value.attrs ==> r.None?
    ensures infNFe.Some? && "Id" in infNFe.value.attrs && !StartsWith(infNFe.value.attrs["Id"], "NFe") ==>
      r == Some(infNFe.value.attrs["Id"])
  {
    if infNFe.None? || "Id" !in infNFe.value.attrs then None
    else
      var id := infNFe.value.attrs["Id"];
      if id != [] && StartsWith(id, "NFe") then Some(ReplaceAll(id, "NFe", "")) else Some(id)
  }

  /** An access key written "NFe" + digits gives the bare digits. */
  lemma InvoiceIdOfKey(infNFe: Element, key: string)
    requires "Id" in infNFe.attrs && infNFe.attrs["Id"] == "NFe" + key && AllDigits(key)
    ensures InvoiceId(Some(infNFe)) == Some(key)
  {
    var id := "NFe" + key;
    assert id[..3] == "NFe" && id[3..] == key;
    forall i | 0 <= i && i + 3 <= |key| ensures !OccursAt(key, "NFe", i) {
      assert key[i..i + 3][0] == key[i];
      assert IsDigit(key[i]);
    }
    ContainsIff(key, "NFe");
    ReplaceAllAbsent(key, "NFe", "");
    assert ReplaceAll(id, "NFe", "") == ReplaceAll(key, "NFe", "");
  }

  function InfNFe(root: Element): Option<Element>
  {
    Find(root, Desc("infNFe"))
  }

  /** The text of `.//{*}local` under infNFe's `.//{*}ide`. */
  function IdeText(root: Element, local: string): Option<string>
  {
    TextIn(FindIn(InfNFe(root), Desc("ide")), Desc(local))
  }

  /** The text of `.//{*}local` under infNFe's `.//{*}total/{*}ICMSTot`. */
  function TotalText(root: Element, local: string): Option<string>
  {
    TextIn(FindIn(InfNFe(root), [Descendant(AnyNs("total")), Child(AnyNs("ICMSTot"))]), Desc(local))
  }

  function DestText(root: Element, local: string): Option<string>
  {
    TextIn(FindIn(InfNFe(root), Desc("dest")), Desc(local))
  }

  function DetPagText(root: Element): Option<string>
  {
    TextIn(InfNFe(root), [Descendant(AnyNs("pag")), Child(AnyNs("detPag")), Child(AnyNs("tPag"))])
  }

  function PagText(root: Element): Option<string>
  {
    TextIn(InfNFe(root), [Descendant(AnyNs("pag")), Child(AnyNs("tPag"))])
  }

  /** parse_header. */
  function ParseHeader(root: Element, dtparse: string -> Option<DateTime>): Header
  {
    var inf := InfNFe(root);
    var emit := FindIn(inf, Desc("emit"));
    Header(
      InvoiceId(inf), IdeText(root, "mod"), IdeText(root, "serie"), IdeText(root, "nNF"),
      ToDateIso(FirstNonEmpty([IdeText(root, "dhEmi"), IdeText(root, "dEmi")]), dtparse),
      TextIn(emit, Desc("CNPJ")), TextIn(emit, Desc("xNome")),
      DestText(root, "CPF"), DestText(root, "CNPJ"),
      ToFloat(TotalText(root, "vNF")), ToFloat(TotalText(root, "vProd")), ToFloat(TotalText(root, "vFrete")),
      ToFloat(TotalText(root, "vICMS")), ToFloat(TotalText(root, "vIPI")), ToFloat(TotalText(root, "vDesc")),
      FirstNonEmpty([DetPagText(root), PagText(root)]))
  }

  /** A document with no infNFe gives a header with every field empty, the id included. */
  lemma HeaderWithoutInfNFe(root: Element, dtparse: string -> Option<DateTime>)
    requires InfNFe(root).None?
    ensures ParseHeader(root, dtparse) ==
      Header(None, None, None, None, None, None, None, None, None, None, None, None, None, None, None, None)
  {
    FirstOfTwo(None, None);
  }

  /** The emission date is read from dhEmi when that has text. */
  lemma HeaderDateFromDhEmi(root: Element, dtparse: string -> Option<DateTime>)
    requires NonEmpty(IdeText(root, "dhEmi"))
    ensures ParseHeader(root, dtparse).dataEmissao == ToDateIso(IdeText(root, "dhEmi"), dtparse)
  {
    FirstOfTwo(IdeText(root, "dhEmi"), IdeText(root, "dEmi"));
  }

  /** When dhEmi is missing or blank, the emission date is read from dEmi. */
  lemma HeaderDateFromDEmi(root: Element, dtparse: string -> Option<DateTime>)
    requires !NonEmpty(IdeText(root, "dhEmi"))
    ensures ParseHeader(root, dtparse).dataEmissao == ToDateIso(IdeText(root, "dEmi"), dtparse)
  {
    var b := IdeText(root, "dEmi");
    FirstOfTwo(IdeText(root, "dhEmi"), b);
    if !NonEmpty(b) && b.Some? {
      TrimEmptyIffBlank(b.value);
    }
  }

  /** The payment type prefers pag/detPag/tPag and falls back to pag/tPag. */
  lemma HeaderPayment(root: Element, dtparse: string -> Option<DateTime>)
    ensures NonEmpty(DetPagText(root)) ==> ParseHeader(root, dtparse).formaPgto == DetPagText(root)
    ensures !NonEmpty(DetPagText(root)) && NonEmpty(PagText(root)) ==>
      ParseHeader(root, dtparse).formaPgto == PagText(root)
    ensures !NonEmpty(DetPagText(root)) && !NonEmpty(PagText(root)) ==> ParseHeader(root, dtparse).formaPgto.None?
  {
    FirstOfTwo(DetPagText(root), PagText(root));
  }

  // ---------------------------------------------------------------- customer

  datatype Customer = Customer(
    idNota: Option<string>, nomeCliente: Option<string>, cpfCnpj: Option<string>,
    endereco: Option<string>, numero: Option<string>, bairro: Option<string>,
    cidade: Option<string>, uf: Option<string>, cep: Option<string>)

  /** parse_customer: the buyer's name, document and address, stamped with the invoice id. */
  function ParseCustomer(root: Element, idNota: Option<string>): (c: Customer)
    ensures c.idNota == idNota
  {
    var dest := FindIn(InfNFe(root), Desc("dest"));
    var end := FindIn(dest, Desc("enderDest"));
    Customer(
      idNota, TextIn(dest, Desc("xNome")),
      FirstNonEmpty([TextIn(dest, Desc("CPF")), TextIn(dest, Desc("CNPJ"))]),
      TextIn(end, Desc("xLgr")), TextIn(end, Desc("nro")), TextIn(end, Desc("xBairro")),
      TextIn(end, Desc("xMun")), TextIn(end, Desc("UF")), TextIn(end, Desc("CEP")))
  }

  /** The customer document is the CPF when it has text, otherwise the CNPJ when that has. */
  lemma CustomerDocument(root: Element, idNota: Option<string>)
    ensures NonEmpty(DestText(root, "CPF")) ==> ParseCustomer(root, idNota).cpfCnpj == DestText(root, "CPF")
    ensures !NonEmpty(DestText(root, "CPF")) && NonEmpty(DestText(root, "CNPJ")) ==>
      ParseCustomer(root, idNota).cpfCnpj == DestText(root, "CNPJ")
    ensures !NonEmpty(DestText(root, "CPF")) && !NonEmpty(DestText(root, "CNPJ")) ==>
      ParseCustomer(root, idNota).cpfCnpj.None?
  {
    FirstOfTwo(DestText(root, "CPF"), DestText(root, "CNPJ"));
  }

  // ---------------------------------------------------------------- items

  datatype Item = Item(
    idNota: Option<string>, codigoProduto: Option<string>, nomeProduto: Option<string>,
    ncm: Option<string>, cfop: Option<string>,
    quantidade: Option<real>, valorUnitario: Option<real>, valorTotalItem: Option<real>,
    cstIcms: Option<string>, aliquotaIcms: Option<real>)

  /** One `det`, read through its `.//{*}prod` and the `.//{*}ICMS` under `.//{*}imposto`. */
  function ItemOf(det: Element, idNota: Option<string>): (it: Item)
    ensures it.idNota == idNota
  {
    var prod := DescIn(Some(det), "prod");
    var icms := DescIn(DescIn(Some(det), "imposto"), "ICMS");
    Item(
      idNota, DescText(prod, "cProd"), DescText(prod, "xProd"),
      DescText(prod, "NCM"), DescText(prod, "CFOP"),
      ToFloat(DescText(prod, "qCom")), ToFloat(DescText(prod, "vUnCom")), ToFloat(DescText(prod, "vProd")),
      DescText(icms, "CST"), ToFloat(DescText(icms, "pICMS")))
  }

  /** Each field of an item is the ftext of its `.//{*}` search under the det's prod, or under its imposto's ICMS. */
  lemma ItemOfIsFindText(det: Element, idNota: Option<string>)
    ensures var prod := Find(det, Desc("prod"));
      var icms := FindIn(Find(det, Desc("imposto")), Desc("ICMS"));
      var it := ItemOf(det, idNota);
      it.codigoProduto == TextIn(prod, Desc("cProd")) && it.nomeProduto == TextIn(prod, Desc("xProd")) &&
      it.ncm == TextIn(prod, Desc("NCM")) && it.cfop == TextIn(prod, Desc("CFOP")) &&
      it.quantidade == ToFloat(TextIn(prod, Desc("qCom"))) && it.valorUnitario == ToFloat(TextIn(prod, Desc("vUnCom"))) &&
      it.valorTotalItem == ToFloat(TextIn(prod, Desc("vProd"))) &&
      it.cstIcms == TextIn(icms, Desc("CST")) && it.aliquotaIcms == ToFloat(TextIn(icms, Desc("pICMS")))
  {
    DescInIsFindIn(Some(det), "prod");
    DescInIsFindIn(Some(det), "imposto");
    var prod := DescIn(Some(det), "prod");
    var icms := DescIn(DescIn(Some(det), "imposto"), "ICMS");
    DescInIsFindIn(DescIn(Some(det), "imposto"), "ICMS");
    DescTextIsTextIn(prod, "cProd");
    DescTextIsTextIn(prod, "xProd");
    DescTextIsTextIn(prod, "NCM");
    DescTextIsTextIn(prod, "CFOP");
    DescTextIsTextIn(prod, "qCom");
    DescTextIsTextIn(prod, "vUnCom");
    DescTextIsTextIn(prod, "vProd");
    DescTextIsTextIn(icms, "CST");
    DescTextIsTextIn(icms, "pICMS");
  }

  /** The `det` elements under infNFe, none without it. */
  function Dets(root: Element): seq<Element>
  {
    if InfNFe(root).None? then [] else FindAll(InfNFe(root).value, Desc("det"))
  }

  /** One item per `det`, in document order, each with the invoice id. */
  function Items(dets: seq<Element>, idNota: Option<string>): (r: seq<Item>)
    ensures |r| == |dets|
    ensures forall i :: 0 <= i < |r| ==> r[i].idNota == idNota
  {
    seq(|dets|, i requires 0 <= i < |dets| => ItemOf(dets[i], idNota))
  }

  /** The items parse_items returns: none without infNFe. */
  function ItemsOf(root: Element, idNota: Option<string>): (r: seq<Item>)
    ensures InfNFe(root).None? ==> r == []
    ensures |r| == |Dets(root)|
    ensures forall i :: 0 <= i < |r| ==> r[i].idNota == idNota
  {
    Items(Dets(root), idNota)
  }

  lemma ItemsPrefix(dets: seq<Element>, idNota: Option<string>, i: nat)
    requires i < |dets|
    ensures Items(dets, idNota)[..i + 1] == Items(dets, idNota)[..i] + [ItemOf(dets[i], idNota)]
  {
    ItemsAt(dets, idNota, i);
    PrefixSnoc(Items(dets, idNota), i);
  }

  lemma ItemsAt(dets: seq<Element>, idNota: Option<string>, i: nat)
    requires i < |dets|
    ensures Items(dets, idNota)[i] == ItemOf(dets[i], idNota)
  {
  }

  /** parse_items: the loop over `.//{*}det` appending one item each. */
  method ParseItems(root: Element, idNota: Option<string>) returns (items: seq<Item>)
    ensures items == ItemsOf(root, idNota)
  {
    var inf := InfNFe(root);
    if inf.None? {
      return [];
    }
    var dets := FindAll(inf.value, Desc("det"));
    items := [];
    for i := 0 to |dets|
      invariant items == Items(dets, idNota)[..i]
    {
      ItemsPrefix(dets, idNota, i);
      items := items + [ItemOf(dets[i], idNota)];
    }
    assert Items(dets, idNota)[..|dets|] == Items(dets, idNota);
  }

  // ---------------------------------------------------------------- run

  /** What parse_xml_file returns for one document. */
  datatype Parsed = Parsed(header: Header, customer: Customer, items: seq<Item>)

  function ParseFile(root: Element, dtparse: string -> Option<DateTime>): (p: Parsed)
    ensures p.customer.idNota == p.header.idNota
    ensures forall i :: 0 <= i < |p.items| ==> p.items[i].idNota == p.header.idNota
  {
    var h := ParseHeader(root, dtparse);
    Parsed(h, ParseCustomer(root, h.idNota), ItemsOf(root, h.idNota))
  }

  /** `not h.get("id_nota")`: the id is None or empty. */
  predicate Unidentified(h: Header)
  {
    h.idNota.None? || h.idNota.value == []
  }

  /** The lists run accumulates, and the count of skipped files. */
  datatype Batch = Batch(headers: seq<Header>, customers: seq<Customer>, items: seq<Item>, skipped: nat)

  /**
   * run's loop over the files, each given as its parsed root or None where
   * ET.parse raised: a file that fails or has no id is counted in `skipped`;
   * every other file adds its header, its customer and its items.
   */
  function Collect(files: seq<Option<Element>>, dtparse: string -> Option<DateTime>): (b: Batch)
    ensures |b.headers| + b.skipped == |files| && |b.customers| == |b.headers|
    ensures forall i :: 0 <= i < |b.headers| ==> !Unidentified(b.headers[i])
    decreases |files|
  {
    if files == [] then Batch([], [], [], 0)
    else
      var prev := Collect(files[..|files| - 1], dtparse);
      var r := AddFile(prev, files[|files| - 1], dtparse);
      assert forall i :: 0 <= i < |r.headers| ==> !Unidentified(r.headers[i]) by {
        forall i | 0 <= i < |r.headers| ensures !Unidentified(r.headers[i]) {
          if i < |prev.headers| {
            assert r.headers[i] == prev.headers[i];
          }
        }
      }
      r
  }

  /** One pass of run's loop body. */
  function AddFile(b: Batch, f: Option<Element>, dtparse: string -> Option<DateTime>): (r: Batch)
    ensures f.None? ==> r == b.(skipped := b.skipped + 1)
    ensures r.skipped == b.skipped + 1 || (r.skipped == b.skipped && f.Some? &&
      r.headers == b.headers + [ParseFile(f.value, dtparse).header] && !Unidentified(ParseFile(f.value, dtparse).header))
    ensures r.skipped == b.skipped + 1 ==> r.headers == b.headers && r.customers == b.customers && r.items == b.items
    ensures |r.customers| - |b.customers| == |r.headers| - |b.headers|
  {
    if f.None? then b.(skipped := b.skipped + 1)
    else
      var p := ParseFile(f.value, dtparse);
      if Unidentified(p.header) then b.(skipped := b.skipped + 1)
      else Batch(b.headers + [p.header], b.customers + [p.customer], b.items + p.items, b.skipped)
  }

  /** Some header of `headers` has id `id`. */
  predicate HasHeader(headers: seq<Header>, id: Option<string>)
  {
    exists j :: 0 <= j < |headers| && headers[j].idNota == id
  }

  /** Every item of `items` carries the id of some header of `headers`. */
  predicate ItemsBelong(items: seq<Item>, headers: seq<Header>)
  {
    forall i :: 0 <= i < |items| ==> HasHeader(headers, items[i].idNota)
  }

  lemma ItemsBelongSnoc(items: seq<Item>, headers: seq<Header>, more: seq<Item>, h: Header)
    requires ItemsBelong(items, headers)
    requires forall i :: 0 <= i < |more| ==> more[i].idNota == h.idNota
    ensures ItemsBelong(items + more, headers + [h])
  {
    var hs := headers + [h];
    var its := items + more;
    forall i | 0 <= i < |its| ensures HasHeader(hs, its[i].idNota) {
      if i < |items| {
        var j :| 0 <= j < |headers| && headers[j].idNota == items[i].idNota;
        assert hs[j] == headers[j];
      } else {
        assert its[i] == more[i - |items|];
        assert hs[|headers|] == h;
      }
    }
  }

  /** Every collected item belongs to a collected header. */
  lemma {:induction false} CollectItemsHaveHeaders(files: seq<Option<Element>>, dtparse: string -> Option<DateTime>)
    ensures ItemsBelong(Collect(files, dtparse).items, Collect(files, dtparse).headers)
    decreases |files|
  {
    if files != [] {
      var init := files[..|files| - 1];
      var b := Collect(init, dtparse);
      CollectItemsHaveHeaders(init, dtparse);
      var f := files[|files| - 1];
      if f.Some? {
        var p := ParseFile(f.value, dtparse);
        assert Collect(files, dtparse) == AddFile(b, f, dtparse);
        if !Unidentified(p.header) {
          ItemsBelongSnoc(b.items, b.headers, p.items, p.header);
        }
      }
    }
  }

  /** The tables run writes: headers deduplicated by id, customers by (id, document). */
  datatype Tables = Tables(vendas: seq<Header>, clientes: seq<Customer>, produtos: seq<Item>, skipped: nat)

  function HeaderKey(h: Header): Option<string>
  {
    h.idNota
  }

  function CustomerKey(c: Customer): (Option<string>, Option<string>)
  {
    (c.idNota, c.cpfCnpj)
  }

  function Tabulate(b: Batch): Tables
  {
    Tables(DropDuplicates(b.headers, HeaderKey), DropDuplicates(b.customers, CustomerKey), b.items, b.skipped)
  }

  /** Each id appears once in the sales table, as the first header read with it. */
  lemma SalesTableFirstPerId(files: seq<Option<Element>>, dtparse: string -> Option<DateTime>, id: Option<string>)
    ensures var t := Tabulate(Collect(files, dtparse));
      DistinctKeys(t.vendas, HeaderKey) &&
      (KeyIn(t.vendas, HeaderKey, id) <==> KeyIn(Collect(files, dtparse).headers, HeaderKey, id)) &&
      t.vendas == FirstOccurrences(Collect(files, dtparse).headers, HeaderKey)
  {
    var hs := Collect(files, dtparse).headers;
    DropDuplicatesDistinct(hs, HeaderKey);
    DropDuplicatesKeys(hs, HeaderKey, id);
    DropDuplicatesIsFirstOccurrences(hs, HeaderKey);
  }

  lemma CollectStep(files: seq<Option<Element>>, i: nat, dtparse: string -> Option<DateTime>)
    requires i < |files|
    ensures Collect(files[..i + 1], dtparse) == AddFile(Collect(files[..i], dtparse), files[i], dtparse)
  {
    var pre := files[..i + 1];
    assert pre[..|pre| - 1] == files[..i] && pre[|pre| - 1] == files[i];
  }

  /** The body of run's loop for one file. */
  method ReadFile(b: Batch, f: Option<Element>, dtparse: string -> Option<DateTime>) returns (r: Batch)
    ensures r == AddFile(b, f, dtparse)
  {
    match f {
      case None =>
        r := b.(skipped := b.skipped + 1);
      case Some(root) =>
        var h := ParseHeader(root, dtparse);
        var c := ParseCustomer(root, h.idNota);
        var it := ParseItems(root, h.idNota);
        if Unidentified(h) {
          r := b.(skipped := b.skipped + 1);
        } else {
          r := Batch(b.headers + [h], b.customers + [c], b.items + it, b.skipped);
        }
    }
  }

  /** The error pandas raises when a frame built from an empty list is asked for its id_nota column. */
  const KeyErrorIdNota := "KeyError: 'id_nota'"

  /**
   * How run ends: `sys.exit(0)` before reading anything when there is no
   * file; a KeyError with nothing written, or with the three tables already
   * written; or every table written, tiny_merged included.
   */
  datatype Outcome = NoFiles | Raised(error: string, written: Option<Tables>) | Written(tables: Tables)

  /**
   * run as a whole. `pd.DataFrame([])` has no columns, so the
   * `drop_duplicates(subset=["id_nota"])` of the sales table raises when no
   * header was collected, before any file is written; and the merge `on="id_nota"`
   * raises when no item was collected, after the three tables are written.
   */
  function RunOutcome(files: seq<Option<Element>>, dtparse: string -> Option<DateTime>): (r: Outcome)
    ensures r.NoFiles? <==> files == []
    ensures r.Raised? ==> r.error == KeyErrorIdNota
    ensures (r.Raised? && r.written.None?) <==> files != [] && Collect(files, dtparse).skipped == |files|
    ensures (r.Raised? && r.written.Some?) <==> Collect(files, dtparse).skipped < |files| && Collect(files, dtparse).items == []
    ensures r.Written? ==> Collect(files, dtparse).items != [] && r.tables.vendas != [] && r.tables.produtos != []
    ensures r.Written? ==> r.tables == Tabulate(Collect(files, dtparse))
    ensures r.Raised? && r.written.Some? ==> r.written.value == Tabulate(Collect(files, dtparse))
  {
    if files == [] then NoFiles
    else
      var b := Collect(files, dtparse);
      if b.headers == [] then Raised(KeyErrorIdNota, None)
      else
        var t := Tabulate(b);
        DropDuplicatesKeys(b.headers, HeaderKey, b.headers[0].idNota);
        if b.items == [] then Raised(KeyErrorIdNota, Some(t)) else Written(t)
  }

  /** A run in which no file parses ends in the KeyError, with nothing written. */
  lemma UnreadableFilesRaise(files: seq<Option<Element>>, dtparse: string -> Option<DateTime>)
    requires files != [] && forall i :: 0 <= i < |files| ==> files[i].None?
    ensures RunOutcome(files, dtparse) == Raised(KeyErrorIdNota, None)
  {
    UnreadableFilesSkipped(files, dtparse);
  }

  lemma {:induction false} UnreadableFilesSkipped(files: seq<Option<Element>>, dtparse: string -> Option<DateTime>)
    requires forall i :: 0 <= i < |files| ==> files[i].None?
    ensures Collect(files, dtparse).skipped == |files|
    decreases |files|
  {
    if files != [] {
      var init := files[..|files| - 1];
      assert forall i :: 0 <= i < |init| ==> init[i] == files[i];
      UnreadableFilesSkipped(init, dtparse);
    }
  }

  /** run: the loop, then the deduplication of the sales and customer tables, and the two places it raises. */
  method Run(files: seq<Option<Element>>, dtparse: string -> Option<DateTime>) returns (r: Outcome)
    ensures r == RunOutcome(files, dtparse)
  {
    if |files| == 0 {
      return NoFiles;
    }
    var b := Batch([], [], [], 0);
    for i := 0 to |files|
      invariant Collect(files[..i], dtparse) == b
    {
      CollectStep(files, i, dtparse);
      b := ReadFile(b, files[i], dtparse);
    }
    assert files[..|files|] == files;
    if |b.headers| == 0 {
      return Raised(KeyErrorIdNota, None);
    }
    var t := Tables(DropDuplicates(b.headers, HeaderKey), DropDuplicates(b.customers, CustomerKey), b.items, b.skipped);
    if |b.items| == 0 {
      r := Raised(KeyErrorIdNota, Some(t));
    } else {
      r := Written(t);
    }
  }
}
