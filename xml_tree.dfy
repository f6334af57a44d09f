/**
 * The parsed XML tree as ElementTree presents it, and the part of
 * ElementPath the scripts use: `find`, `findall` and `findtext` over child
 * steps (`a/b`) and descendant steps (`.//a`), with tags written either
 * exactly (`{uri}local` or `local`) or with the `{*}` namespace wildcard.
 *
 * ElementTree keeps a namespaced tag in Clark notation, `{uri}local`; an
 * unprefixed element inherits the default namespace (section 6.2 of W3C
 * Namespaces in XML 1.0), so in an NF-e every tag carries the same `{uri}`.
 */
module XmlTree {
  import opened Wrappers
  import opened Strings

  datatype Element = Element(tag: string, text: Option<string>, attrs: map<string, string>, children: seq<Element>)

  /** A tag test of ElementPath: an exact tag, or `{*}local` (any namespace or none). */
  datatype Matcher = Exact(name: string) | AnyNs(local: string)

  /** One location step: `tag` selects matching children, `.//tag` matching proper descendants. */
  datatype Step = Child(m: Matcher) | Descendant(m: Matcher)

  predicate Matches(m: Matcher, tag: string)
  {
    match m
    case Exact(n) => tag == n
    case AnyNs(l) => tag == l || EndsWith(tag, "}" + l)
  }

  /**
   * The tag a prefixed name `p:local` stands for once `p` is bound to `uri`;
   * ElementPath reads `{}local` as plain `local`.
   */
  function QName(uri: string, local: string): (r: string)
    ensures uri == [] ==> r == local
    ensures uri != [] ==> r == "{" + uri + "}" + local
  {
    if uri == [] then local else "{" + uri + "}" + local
  }

  // ---------------------------------------------------------------- iteration

  /** Element.iter(): the element and all its descendants in document (pre-)order. */
  function Iter(e: Element): (r: seq<Element>)
    ensures |r| >= 1 && r[0] == e
    decreases e
  {
    [e] + IterSeq(e.children)
  }

  function IterSeq(es: seq<Element>): seq<Element>
    decreases es
  {
    if es == [] then [] else Iter(es[0]) + IterSeq(es[1..])
  }

  /** The elements of `es` that `m` accepts, in order. */
  function Matching(m: Matcher, es: seq<Element>): (r: seq<Element>)
    ensures |r| <= |es|
    ensures forall i :: 0 <= i < |r| ==> Matches(m, r[i].tag) && r[i] in es
  {
    if es == [] then []
    else (if Matches(m, es[0].tag) then [es[0]] else []) + Matching(m, es[1..])
  }

  /** One step applied to every element of the current selection, results concatenated in order. */
  function Select(ctx: seq<Element>, step: Step): seq<Element>
  {
    if ctx == [] then []
    else
      var here := match step
        case Child(m) => Matching(m, ctx[0].children)
        case Descendant(m) => Matching(m, Iter(ctx[0])[1..]);
      here + Select(ctx[1..], step)
  }

  function SelectPath(ctx: seq<Element>, path: seq<Step>): seq<Element>
    decreases |path|
  {
    if path == [] then ctx else SelectPath(Select(ctx, path[0]), path[1..])
  }

  /** Element.findall(path). */
  function FindAll(e: Element, path: seq<Step>): seq<Element>
  {
    SelectPath([e], path)
  }

  /** Element.find(path): the first element findall would return. */
  function Find(e: Element, path: seq<Step>): (r: Option<Element>)
    ensures r.None? <==> FindAll(e, path) == []
    ensures r.Some? ==> r.value == FindAll(e, path)[0]
  {
    var all := FindAll(e, path);
    if all == [] then None else Some(all[0])
  }

  /**
   * Element.findtext(path, default): the default when nothing is found,
   * the found element's text otherwise, "" when that element has none.
   */
  function FindText(e: Element, path: seq<Step>, default: Option<string>): (r: Option<string>)
    ensures Find(e, path).None? ==> r == default
    ensures Find(e, path).Some? ==> r == Some(Find(e, path).value.text.GetOr(""))
  {
    match Find(e, path)
    case None => default
    case Some(x) => Some(x.text.GetOr(""))
  }

  lemma OneStep(e: Element, step: Step)
    ensures FindAll(e, [step]) == Select([e], step)
  {
    assert [step][1..] == [];
    assert SelectPath([e], [step]) == SelectPath(Select([e], step), []);
  }

  /** A `.//tag` search from one element is the matching part of its proper descendants, in document order. */
  lemma DescendantSearch(e: Element, m: Matcher)
    ensures FindAll(e, [Descendant(m)]) == Matching(m, Iter(e)[1..])
  {
    OneStep(e, Descendant(m));
    assert Select([e], Descendant(m)) == Matching(m, Iter(e)[1..]) + Select([], Descendant(m));
  }

  /** A one-step child search is the matching part of the children, in order. */
  lemma ChildSearch(e: Element, m: Matcher)
    ensures FindAll(e, [Child(m)]) == Matching(m, e.children)
  {
    OneStep(e, Child(m));
    assert Select([e], Child(m)) == Matching(m, e.children) + Select([], Child(m));
  }

  /** The first element of `es` that `m` accepts. */
  function FirstMatching(m: Matcher, es: seq<Element>): Option<Element>
    decreases |es|
  {
    if es == [] then None
    else if Matches(m, es[0].tag) then Some(es[0])
    else FirstMatching(m, es[1..])
  }

  lemma {:induction false} FirstMatchingIsFirst(m: Matcher, es: seq<Element>)
    ensures Matching(m, es) == [] ==> FirstMatching(m, es) == None
    ensures Matching(m, es) != [] ==> FirstMatching(m, es) == Some(Matching(m, es)[0])
    decreases |es|
  {
    if es != [] {
      FirstMatchingIsFirst(m, es[1..]);
    }
  }

  /** `e.find(tag)` for a one-step child path is the first child the step accepts. */
  lemma FindChild(e: Element, m: Matcher)
    ensures Find(e, [Child(m)]) == FirstMatching(m, e.children)
  {
    ChildSearch(e, m);
    FirstMatchingIsFirst(m, e.children);
  }

  /** `e.find(".//tag")` is the first proper descendant, in document order, that the step accepts. */
  lemma FindDescendant(e: Element, m: Matcher)
    ensures Find(e, [Descendant(m)]) == FirstMatching(m, Iter(e)[1..])
  {
    DescendantSearch(e, m);
    FirstMatchingIsFirst(m, Iter(e)[1..]);
  }

  // ---------------------------------------------------------------- namespace stripping

  /** `tag.split('}', 1)[1]` for a tag holding '}', the tag itself otherwise. */
  function StripTag(tag: string): string
  {
    if '}' in tag then After(tag, '}') else tag
  }

  /** A stripped tag is what follows the first '}', and a tag without '}' is kept. */
  lemma StripTagShape(tag: string)
    ensures '}' !in tag ==> StripTag(tag) == tag
    ensures '}' in tag ==> exists pre :: '}' !in pre && tag == pre + "}" + StripTag(tag)
  {
    if '}' in tag {
      BeforeAfter(tag, '}');
      var pre := Before(tag, '}');
      assert tag == pre + "}" + StripTag(tag);
    }
  }

  /** The tree strip_namespace_inplace leaves behind: every tag stripped, nothing else touched. */
  function StripTree(e: Element): (r: Element)
    ensures r.tag == StripTag(e.tag) && r.text == e.text && r.attrs == e.attrs
    ensures |r.children| == |e.children|
    decreases e
  {
    Element(StripTag(e.tag), e.text, e.attrs, StripForest(e.children))
  }

  function StripForest(es: seq<Element>): (r: seq<Element>)
    ensures |r| == |es|
    decreases es
  {
    if es == [] then [] else [StripTree(es[0])] + StripForest(es[1..])
  }

  lemma {:induction false} StripForestAt(es: seq<Element>, i: nat)
    requires i < |es|
    ensures StripForest(es)[i] == StripTree(es[i])
    decreases es
  {
    if i > 0 {
      StripForestAt(es[1..], i - 1);
    }
  }

  /** The tags of a sequence of elements, in order. */
  function Tags(es: seq<Element>): (r: seq<string>)
    ensures |r| == |es|
  {
    seq(|es|, i requires 0 <= i < |es| => es[i].tag)
  }

  function StripTags(tags: seq<string>): (r: seq<string>)
    ensures |r| == |tags|
  {
    seq(|tags|, i requires 0 <= i < |tags| => StripTag(tags[i]))
  }

  lemma StripTagsAppend(a: seq<string>, b: seq<string>)
    ensures StripTags(a + b) == StripTags(a) + StripTags(b)
  {
  }

  lemma TagsAppend(a: seq<Element>, b: seq<Element>)
    ensures Tags(a + b) == Tags(a) + Tags(b)
  {
  }

  /** Iterating the stripped tree meets the stripped tags, in the order elem.iter() visits them. */
  lemma {:induction false} StripTreeTags(e: Element)
    ensures Tags(Iter(StripTree(e))) == StripTags(Tags(Iter(e)))
    decreases e
  {
    StripForestTags(e.children);
    var s := StripTree(e);
    TagsAppend([s], IterSeq(s.children));
    TagsAppend([e], IterSeq(e.children));
    StripTagsAppend(Tags([e]), Tags(IterSeq(e.children)));
  }

  lemma {:induction false} StripForestTags(es: seq<Element>)
    ensures Tags(IterSeq(StripForest(es))) == StripTags(Tags(IterSeq(es)))
    decreases es
  {
    if es != [] {
      StripTreeTags(es[0]);
      StripForestTags(es[1..]);
      var ss := StripForest(es);
      assert ss[0] == StripTree(es[0]) && ss[1..] == StripForest(es[1..]);
      TagsAppend(Iter(ss[0]), IterSeq(ss[1..]));
      TagsAppend(Iter(es[0]), IterSeq(es[1..]));
      StripTagsAppend(Tags(Iter(es[0])), Tags(IterSeq(es[1..])));
    }
  }

  /**
   * strip_namespace_inplace: the loop over elem.iter() rewriting each tag
   * holding '}'. The nodes are visited in iteration order, so the method
   * works on their tags in that order.
   */
  method StripNamespaceInPlace(tags: array<string>)
    modifies tags
    ensures tags[..] == StripTags(old(tags[..]))
  {
    var i := 0;
    while i < tags.Length
      invariant 0 <= i <= tags.Length
      invariant forall k :: 0 <= k < i ==> tags[k] == StripTag(old(tags[k]))
      invariant forall k :: i <= k < tags.Length ==> tags[k] == old(tags[k])
    {
      if '}' in tags[i] {
        tags[i] := After(tags[i], '}');
      }
      i := i + 1;
    }
  }
}
