/**
 * scripts_complementar/organizador_xml.py: NF-e numbers listed in a text
 * file are normalised (stripped, leading zeros removed), each XML file's
 * `nNF` is read in the root's namespace and normalised the same way, and the
 * files whose number is listed are moved; the run counts the files it
 * examined and the ones it moved.
 */
module XmlOrganiser {
  import opened Wrappers
  import opened Strings
  import opened Numbers
  import opened XmlTree

  // ---------------------------------------------------------------- normalizar_numero

  predicate AllZeros(s: string)
  {
    forall i :: 0 <= i < |s| ==> s[i] == '0'
  }

  /** `s.lstrip("0")`. */
  function StripLeadingZeros(s: string): (r: string)
    ensures |r| <= |s| && r == s[|s| - |r|..] && AllZeros(s[..|s| - |r|])
    ensures r == [] || r[0] != '0'
    decreases |s|
  {
    if s != [] && s[0] == '0' then
      var r := StripLeadingZeros(s[1..]);
      assert s[..|s| - |r|] == [s[0]] + s[1..][..|s[1..]| - |r|];
      r
    else s
  }

  /**
   * normalizar_numero: "" for None or "", otherwise the stripped text without
   * its leading zeros, "0" when nothing is left. Only the number "0" starts
   * with '0'.
   */
  function NormaliseNumber(n: Option<string>): (r: string)
    ensures r == [] <==> n.None? || n.value == []
    ensures r != [] ==> (r[0] == '0' <==> r == "0")
    ensures n.Some? && n.value != [] ==>
      var t := Trim(n.value);
      (r == "0" && AllZeros(t)) || (r != "0" && |r| <= |t| && t == t[..|t| - |r|] + r && AllZeros(t[..|t| - |r|]))
  {
    if n.None? || n.value == [] then ""
    else
      var t := StripLeadingZeros(Trim(n.value));
      if t == [] then
        assert Trim(n.value)[..|Trim(n.value)| - 0] == Trim(n.value);
        "0"
      else t
  }

  /** Text with no surrounding whitespace and no leading zero (or "0" itself) is its own normal form. */
  lemma NormalFormFixed(r: string)
    requires Trim(r) == r && (r == [] || r[0] != '0' || r == "0")
    ensures NormaliseNumber(Some(r)) == r
  {
    if r != [] {
      var t := StripLeadingZeros(Trim(r));
      assert t == StripLeadingZeros(r);
      if r[0] != '0' {
        assert t == r;
      } else {
        assert r == "0" && r[1..] == [];
        assert t == [];
      }
    }
  }

  /**
   * Normalisation applied to its own result gives the result back when that
   * result has no surrounding whitespace (a number written with digits only).
   */
  lemma NormaliseIdempotentWhenTrimmed(s: string)
    requires Trim(NormaliseNumber(Some(s))) == NormaliseNumber(Some(s))
    ensures NormaliseNumber(Some(NormaliseNumber(Some(s)))) == NormaliseNumber(Some(s))
  {
    NormalFormFixed(NormaliseNumber(Some(s)));
  }

  /** Without that condition it is not idempotent: "0 5" gives " 5", which gives "5". */
  lemma NormaliseNotIdempotent()
    ensures NormaliseNumber(Some("0 5")) == " 5"
    ensures NormaliseNumber(Some(" 5")) == "5"
  {
    var a, b, c := "0 5", " 5", "5";
    assert a[0] == '0' && a[1..] == b;
    assert b[0] == ' ' && b[1..] == c;
    TrimUntouched(a);
    assert StripLeadingZeros(b) == b;
    assert StripLeadingZeros(a) == b;
    TrimStartFixed(c);
    assert TrimStart(b) == c;
    TrimEndFixed(c);
    assert Trim(b) == c;
    assert StripLeadingZeros(c) == c;
  }

  // ---------------------------------------------------------------- value of a digit string

  lemma {:induction false} ZerosValue(z: string)
    requires AllZeros(z)
    ensures AllDigits(z) && DigitsValue(z) == 0
    decreases |z|
  {
    if z != [] {
      ZerosValue(z[..|z| - 1]);
    }
  }

  /** Leading zeros do not change the value of a digit string. */
  lemma {:induction false} ZerosPrefixValue(z: string, t: string)
    requires AllZeros(z) && AllDigits(t)
    ensures AllDigits(z + t) && DigitsValue(z + t) == DigitsValue(t)
    decreases |t|
  {
    ZerosValue(z);
    if t == [] {
      assert z + t == z;
    } else {
      var p := t[..|t| - 1];
      ZerosPrefixValue(z, p);
      assert z + t == (z + p) + [t[|t| - 1]];
      assert t == p + [t[|t| - 1]];
      DigitsValueSnoc(z + p, t[|t| - 1]);
      DigitsValueSnoc(p, t[|t| - 1]);
    }
  }

  /** A digit string with no leading zero is worth at least 1. */
  lemma {:induction false} CanonicalPositive(t: string)
    requires t != [] && AllDigits(t) && t[0] != '0'
    ensures DigitsValue(t) >= 1
    decreases |t|
  {
    if |t| > 1 {
      CanonicalPositive(t[..|t| - 1]);
    }
  }

  /** A digit string with no leading zero (or "0") is how str() writes its value. */
  lemma {:induction false} CanonicalIsNatToString(t: string)
    requires t != [] && AllDigits(t) && (t[0] != '0' || t == "0")
    ensures NatToString(DigitsValue(t)) == t
    decreases |t|
  {
    var c := t[|t| - 1];
    var d := DigitValue(c);
    if |t| == 1 {
      assert t == [c];
      assert DigitsValue(t) == DigitsValue(t[..0]) * 10 + d;
      assert DigitChar(d) == c;
    } else {
      var p := t[..|t| - 1];
      assert p[0] == t[0];
      CanonicalIsNatToString(p);
      CanonicalPositive(p);
      var v := DigitsValue(t);
      assert v == DigitsValue(p) * 10 + d;
      assert v / 10 == DigitsValue(p) && v % 10 == d;
      assert DigitChar(d) == c;
      assert t == p + [c];
    }
  }

  /** Digits-only text: Trim leaves it alone, and its normal form has its value. */
  lemma NormalFormValue(a: string)
    requires a != [] && AllDigits(a)
    ensures var r := NormaliseNumber(Some(a));
      AllDigits(r) && r != [] && (r[0] != '0' || r == "0") && DigitsValue(r) == DigitsValue(a)
  {
    assert !IsSpace(a[0]) && !IsSpace(a[|a| - 1]);
    TrimUntouched(a);
    var t := StripLeadingZeros(a);
    var z := a[..|a| - |t|];
    assert a == z + t;
    ZerosPrefixValue(z, t);
    if t == [] {
      ZerosValue(a);
      assert DigitsValue("0") == DigitsValue("0"[..0]) * 10 + 0;
    } else {
      assert forall i :: 0 <= i < |t| ==> t[i] == a[|z| + i];
    }
  }

  /**
   * Two numbers written with digits only normalise to the same text exactly
   * when they have the same value, so the match ignores zero padding and
   * nothing else.
   */
  lemma SameNormalFormIffSameValue(a: string, b: string)
    requires a != [] && AllDigits(a) && b != [] && AllDigits(b)
    ensures NormaliseNumber(Some(a)) == NormaliseNumber(Some(b)) <==> DigitsValue(a) == DigitsValue(b)
  {
    NormalFormValue(a);
    NormalFormValue(b);
    var ra, rb := NormaliseNumber(Some(a)), NormaliseNumber(Some(b));
    CanonicalIsNatToString(ra);
    CanonicalIsNatToString(rb);
  }

  // ---------------------------------------------------------------- reading the lists

  /** `set(normalizar_numero(l) for l in lines if l.strip())`. */
  function Targets(lines: seq<string>): (r: set<string>)
    ensures [] !in r
    ensures forall i :: 0 <= i < |lines| && Trim(lines[i]) != [] ==> NormaliseNumber(Some(lines[i])) in r
    ensures forall t :: t in r ==> exists i :: 0 <= i < |lines| && Trim(lines[i]) != [] && NormaliseNumber(Some(lines[i])) == t
  {
    set i | 0 <= i < |lines| && Trim(lines[i]) != [] :: NormaliseNumber(Some(lines[i]))
  }

  /** `str.strip(c)`: every leading and trailing `c` removed. */
  function StripCharBoth(s: string, c: char): (r: string)
    ensures r == [] || (r[0] != c && r[|r| - 1] != c)
    decreases |s|
  {
    if s != [] && s[0] == c then StripCharBoth(s[1..], c)
    else if s != [] && s[|s| - 1] == c then StripCharBoth(s[..|s| - 1], c)
    else s
  }

  /** `root.tag.split('}')[0].strip('{')`: the namespace URI of a `{uri}local` tag. */
  function NamespaceOf(tag: string): (r: string)
    ensures '}' !in r
  {
    var b := Before(tag, '}');
    var r := StripCharBoth(b, '{');
    assert '}' !in b by {
      if '}' in tag { BeforeAfter(tag, '}'); } else { BeforeAbsent(tag, '}'); }
    }
    StripCharBothSubset(b, '{', '}');
    r
  }

  lemma {:induction false} StripCharBothSubset(s: string, c: char, x: char)
    requires x !in s
    ensures x !in StripCharBoth(s, c)
    decreases |s|
  {
    if s != [] && s[0] == c {
      StripCharBothSubset(s[1..], c, x);
    } else if s != [] && s[|s| - 1] == c {
      StripCharBothSubset(s[..|s| - 1], c, x);
    }
  }

  /** Clark notation round trip: the namespace of `{uri}local` is `uri` when `uri` has no brace. */
  lemma NamespaceOfQualified(uri: string, local: string)
    requires '}' !in uri && '{' !in uri
    ensures NamespaceOf("{" + uri + "}" + local) == uri
  {
    var tag := "{" + uri + "}" + local;
    assert tag == ("{" + uri) + ['}'] + local;
    BeforeOfJoin("{" + uri, local, '}');
    var b := "{" + uri;
    assert StripCharBoth(b, '{') == StripCharBoth(b[1..], '{');
    assert b[1..] == uri;
    StripCharBothAbsent(uri, '{');
  }

  lemma {:induction false} BeforeOfJoin(a: string, b: string, c: char)
    requires c !in a
    ensures Before(a + [c] + b, c) == a
    decreases |a|
  {
    if a != [] {
      assert (a + [c] + b)[1..] == a[1..] + [c] + b;
      BeforeOfJoin(a[1..], b, c);
      assert a == [a[0]] + a[1..];
    }
  }

  lemma StripCharBothAbsent(s: string, c: char)
    requires c !in s
    ensures StripCharBoth(s, c) == s
  {
  }

  /**
   * extrair_numero_nfe: the normalised text of the first `nNF` below the
   * root in the root's namespace; None when the file did not parse, when
   * there is no such element, or when its text is missing or empty.
   */
  function ExtractNumber(doc: Option<Element>): (r: Option<string>)
    ensures r.Some? ==> r.value != []
    ensures r.Some? <==>
      doc.Some? && Find(doc.value, NnfPath(doc.value)).Some? &&
      Find(doc.value, NnfPath(doc.value)).value.text.Some? && Find(doc.value, NnfPath(doc.value)).value.text.value != []
    ensures r.Some? ==> r.value == NormaliseNumber(Find(doc.value, NnfPath(doc.value)).value.text)
  {
    match doc
    case None => None
    case Some(root) =>
      match Find(root, NnfPath(root))
      case None => None
      case Some(x) => if x.text.None? || x.text.value == [] then None else Some(NormaliseNumber(x.text))
  }

  /** `.//nfe:nNF` with `nfe` bound to the root's namespace. */
  function NnfPath(root: Element): seq<Step>
  {
    [Descendant(Exact(QName(NamespaceOf(root.tag), "nNF")))]
  }

  // ---------------------------------------------------------------- the loop

  /** A directory entry: its name and its parsed tree (None when ET.parse fails). */
  datatype XmlFile = XmlFile(name: string, doc: Option<Element>)

  /** `arquivo.lower().endswith('.xml')`. */
  predicate IsXmlName(name: string)
  {
    EndsWith(Lower(name), ".xml")
  }

  /** Whether a file is moved: an XML name, a number, and the number listed. */
  predicate Matched(f: XmlFile, targets: set<string>)
  {
    IsXmlName(f.name) && ExtractNumber(f.doc).Some? && ExtractNumber(f.doc).value in targets
  }

  /** The number of examined files. */
  function Examined(files: seq<XmlFile>): (n: nat)
    ensures n <= |files|
  {
    if files == [] then 0 else Examined(files[..|files| - 1]) + (if IsXmlName(files[|files| - 1].name) then 1 else 0)
  }

  function MatchedBy(targets: set<string>): XmlFile -> bool
  {
    f => Matched(f, targets)
  }

  /** The names of the files `keep` accepts, in directory order. */
  function NamesWhere(files: seq<XmlFile>, keep: XmlFile -> bool): (r: seq<string>)
    ensures |r| <= |files|
  {
    if files == [] then []
    else
      var f := files[|files| - 1];
      NamesWhere(files[..|files| - 1], keep) + (if keep(f) then [f.name] else [])
  }

  /** A name is among the kept ones exactly when some file with that name is kept. */
  lemma {:induction false} NamesWhereIff(files: seq<XmlFile>, keep: XmlFile -> bool, name: string)
    ensures name in NamesWhere(files, keep) <==> exists i :: 0 <= i < |files| && files[i].name == name && keep(files[i])
    decreases |files|
  {
    if files != [] {
      var init := files[..|files| - 1];
      NamesWhereIff(init, keep, name);
      if name in NamesWhere(init, keep) {
        var i :| 0 <= i < |init| && init[i].name == name && keep(init[i]);
        assert files[i] == init[i];
      }
      if exists i :: 0 <= i < |files| && files[i].name == name && keep(files[i]) {
        var i :| 0 <= i < |files| && files[i].name == name && keep(files[i]);
        if i < |init| {
          assert init[i] == files[i];
        }
      }
    }
  }

  /** Only examined files are moved. */
  lemma {:induction false} MovedAreExamined(files: seq<XmlFile>, targets: set<string>)
    ensures |NamesWhere(files, MatchedBy(targets))| <= Examined(files)
    decreases |files|
  {
    if files != [] {
      MovedAreExamined(files[..|files| - 1], targets);
    }
  }

  /** A file is moved exactly when its name ends in ".xml" and its normalised nNF is listed. */
  lemma MovedIff(files: seq<XmlFile>, targets: set<string>, name: string)
    ensures name in NamesWhere(files, MatchedBy(targets)) <==>
      exists i :: 0 <= i < |files| && files[i].name == name && IsXmlName(name) &&
        ExtractNumber(files[i].doc).Some? && ExtractNumber(files[i].doc).value in targets
  {
    NamesWhereIff(files, MatchedBy(targets), name);
  }

  /**
   * The main loop: `checados` counts every examined XML file, including
   * those without a number; `movidos` counts the matches; the returned names
   * are the files moved (none in a dry run).
   */
  method Organise(files: seq<XmlFile>, targets: set<string>, dryRun: bool) returns (movidos: nat, checados: nat, moved: seq<string>)
    ensures checados == Examined(files)
    ensures movidos == |NamesWhere(files, MatchedBy(targets))| && movidos <= checados
    ensures moved == if dryRun then [] else NamesWhere(files, MatchedBy(targets))
  {
    movidos, checados, moved := 0, 0, [];
    for i := 0 to |files|
      invariant checados == Examined(files[..i])
      invariant movidos == |NamesWhere(files[..i], MatchedBy(targets))|
      invariant moved == if dryRun then [] else NamesWhere(files[..i], MatchedBy(targets))
    {
      assert files[..i + 1][..i] == files[..i];
      var f := files[i];
      if !IsXmlName(f.name) {
        continue;
      }
      var numero := ExtractNumber(f.doc);
      checados := checados + 1;
      if numero.None? || numero.value == [] {
        continue;
      }
      if numero.value in targets {
        if !dryRun {
          moved := moved + [f.name];
        }
        movidos := movidos + 1;
      }
    }
    assert files[..|files|] == files;
    MovedAreExamined(files, targets);
  }
}
