/** What the HTML strategies read from a parsed page. BeautifulSoup's parsing
    and tree search are not part of this model: a page is given as the
    results of the queries the strategies make, in document order, and the
    filters the source passes to those queries are applied here. */
module Pages {
  import opened Wrappers
  import opened Sequences

  /** An `<h1>`..`<h6>` element: its level and its `get_text(strip=True)`. */
  datatype Heading = Heading(level: nat, text: string)

  /** An `<a>` element as the strategies see it:
      - `href`: the attribute, `None` when absent;
      - `text`: `get_text(strip=True)`;
      - `headings`: the heading elements inside it, in document order;
      - `liDatetime`: the `datetime` attribute of the first `<time>` in the
        nearest enclosing `<li>`, `None` when any of these is missing;
      - `parentHeading`: the text of the first h1..h5 in the nearest
        enclosing `<div>`, `<li>` or `<article>`, `None` when there is none. */
  datatype Anchor = Anchor(
    href: Option<string>,
    text: string,
    headings: seq<Heading>,
    liDatetime: Option<string>,
    parentHeading: Option<string>)

  /** A block element (`<ol>`, `<ul>`, `<div>`, `<section>`, `<article>` or a
      heading):
      - `classAttr`: its class attribute, `None` when absent;
      - `text`: `get_text(strip=True)`;
      - `anchors`: the `<a>` elements inside it, in document order;
      - `heading`: the text of the first h1..h5 inside it;
      - `datetime`: the `datetime` attribute of the first `<time>` inside it,
        `None` when there is no `<time>` or it has no such attribute. */
  datatype Element = Element(
    classAttr: Option<string>,
    text: string,
    anchors: seq<Anchor>,
    heading: Option<string>,
    datetime: Option<string>)

  /** `find('a', href=p)`: the first anchor whose href passes `p`. */
  function FindAnchor(anchors: seq<Anchor>, p: Option<string> -> bool): (r: Option<Anchor>)
    ensures r.Some? ==> exists i :: 0 <= i < |anchors| && anchors[i] == r.value && p(anchors[i].href)
                                    && forall j :: 0 <= j < i ==> !p(anchors[j].href)
    ensures r.None? ==> forall a :: a in anchors ==> !p(a.href)
  {
    if anchors == [] then None
    else if p(anchors[0].href) then Some(anchors[0])
    else FindAnchor(anchors[1..], p)
  }

  /** `find_all('a', href=p)`: every anchor whose href passes `p`, in
      document order, each as many times as it occurs. */
  function FindAllAnchors(anchors: seq<Anchor>, p: Option<string> -> bool): (r: seq<Anchor>)
    ensures IsSubsequence(r, anchors)
    ensures forall a :: a in r <==> a in anchors && p(a.href)
    ensures forall a :: multiset(r)[a] == if p(a.href) then multiset(anchors)[a] else 0
  {
    if anchors == [] then []
    else
      var rest := FindAllAnchors(anchors[1..], p);
      assert anchors == [anchors[0]] + anchors[1..];
      assert forall a :: a in anchors <==> a == anchors[0] || a in anchors[1..];
      if p(anchors[0].href) then [anchors[0]] + rest else rest
  }

  /** `find(['h<lo>', ..., 'h<hi>'])`: the first heading whose level is in
      `lo..hi`. */
  function FindHeading(headings: seq<Heading>, lo: nat, hi: nat): (r: Option<Heading>)
    ensures r.Some? ==> exists i :: 0 <= i < |headings| && headings[i] == r.value && lo <= headings[i].level <= hi
                                    && forall j :: 0 <= j < i ==> !(lo <= headings[j].level <= hi)
    ensures r.None? ==> forall h :: h in headings ==> !(lo <= h.level <= hi)
  {
    if headings == [] then None
    else if lo <= headings[0].level <= hi then Some(headings[0])
    else FindHeading(headings[1..], lo, hi)
  }
}
