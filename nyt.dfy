/** `NYTReporterScraper.parse_top_article` and its three strategies
    (src/scrapers.py). */
module NytScraper {
  import opened Wrappers
  import opened Text
  import opened Models
  import opened Pages
  import opened Fallback

  /** The origin that '/'-prefixed hrefs are resolved against. */
  const Origin := "https://www.nytimes.com"

  /** What the three strategies query on a reporter page:
      every `<ol>`, every `<div>`, `<section>` and `<article>`, and every
      `<a>`, each in document order. */
  datatype NytPage = NytPage(
    orderedLists: seq<Element>,
    containers: seq<Element>,
    anchors: seq<Anchor>)

  /** `if url.startswith('/'): url = 'https://www.nytimes.com' + url`. */
  function Absolutize(href: string): (url: string)
    ensures StartsWith(href, "/") ==> url == Origin + href
    ensures !StartsWith(href, "/") ==> url == href
  {
    if StartsWith(href, "/") then Origin + href else href
  }

  /** Strategy 1's link filter: a site-relative href containing "/20". */
  predicate ListHref(href: Option<string>) {
    href.Some? && href.value != "" && Contains(href.value, "/20") && StartsWith(href.value, "/")
  }

  /** Strategy 2's link filter: an href containing "/20". */
  predicate DatedHref(href: Option<string>) {
    href.Some? && href.value != "" && Contains(href.value, "/20")
  }

  /** Strategy 3's link filter: an href containing "/20" and "/". */
  predicate ArticleHref(href: Option<string>) {
    href.Some? && href.value != "" && Contains(href.value, "/20") && Contains(href.value, "/")
  }

  /** The year segments strategy 3 insists on. */
  predicate HasYear(href: string) {
    Contains(href, "/2024/") || Contains(href, "/2025/") || Contains(href, "/2026/")
  }

  /** `link.find('h3') or link.find('h2') or link.find('h4')`. */
  function ListTitle(headings: seq<Heading>): (r: Option<Heading>)
    ensures r.Some? ==> r.value in headings && r.value.level in {2, 3, 4}
    ensures r.None? <==> forall h :: h in headings ==> h.level !in {2, 3, 4}
    ensures (exists h :: h in headings && h.level == 3) ==> r.Some? && r.value.level == 3
    ensures (forall h :: h in headings ==> h.level != 3) && (exists h :: h in headings && h.level == 2) ==>
              r.Some? && r.value.level == 2
    ensures r.Some? ==> exists i :: 0 <= i < |headings| && headings[i] == r.value
                                    && forall j :: 0 <= j < i ==> headings[j].level != r.value.level
  {
    var h3 := FindHeading(headings, 3, 3);
    if h3.Some? then h3
    else
      var h2 := FindHeading(headings, 2, 2);
      if h2.Some? then h2 else FindHeading(headings, 4, 4)
  }

  // ---------------------------------------------------------------- strategy 1

  /** Strategy 1 on one `<ol>`: its first site-relative dated link, if that
      link holds an h3/h2/h4 title. There is no length check on that title. */
  function ListCandidate(ol: Element): Option<Article>
  {
    var link := FindAnchor(ol.anchors, ListHref);
    if link.None? || link.value.href.None? || link.value.href.value == "" then None
    else
      var titleElem := ListTitle(link.value.headings);
      if titleElem.None? then None
      else Some(Article(titleElem.value.text, Absolutize(link.value.href.value), link.value.liDatetime))
  }

  /** `_parse_strategy_1`. */
  method ParseStrategy1(page: NytPage) returns (r: Option<Article>)
    ensures r == FirstSome(page.orderedLists, ListCandidate)
  {
    var lists := page.orderedLists;
    var i := 0;
    while i < |lists|
      invariant 0 <= i <= |lists|
      invariant FirstSome(lists[i..], ListCandidate) == FirstSome(lists, ListCandidate)
    {
      FirstSomeStep(lists, ListCandidate, i);
      var link := FindAnchor(lists[i].anchors, ListHref);
      if link.Some? && link.value.href.Some? && link.value.href.value != "" {
        var titleElem := ListTitle(link.value.headings);
        if titleElem.Some? {
          var title := titleElem.value.text;
          var url := link.value.href.value;
          if StartsWith(url, "/") {
            url := Origin + url;
          }
          return Some(Article(title, url, link.value.liDatetime));
        }
      }
      i := i + 1;
    }
    return None;
  }

  // ---------------------------------------------------------------- strategy 2

  /** A dated link together with the container it was found in. */
  datatype LinkIn = LinkIn(container: Element, link: Anchor)

  /** The links of one container, each paired with it. */
  function Pairs(c: Element, links: seq<Anchor>): (r: seq<LinkIn>)
    ensures |r| == |links| && forall k :: 0 <= k < |links| ==> r[k] == LinkIn(c, links[k])
    ensures forall a :: a in links ==> LinkIn(c, a) in r
  {
    seq(|links|, k requires 0 <= k < |links| => LinkIn(c, links[k]))
  }

  /** The dated links of one container, in document order, each paired
      with it: what the inner loop visits. */
  function DatedLinks(c: Element): (r: seq<LinkIn>)
    ensures forall a :: a in c.anchors && DatedHref(a.href) ==> LinkIn(c, a) in r
  {
    Pairs(c, FindAllAnchors(c.anchors, DatedHref))
  }

  /** The order in which strategy 2's nested loops visit links: container by
      container, the dated links of each in document order. */
  function ContainerLinks(containers: seq<Element>): (r: seq<LinkIn>)
    ensures forall p :: p in r ==> p.container in containers && p.link in p.container.anchors && DatedHref(p.link.href)
    ensures forall c, a :: c in containers && a in c.anchors && DatedHref(a.href) ==> LinkIn(c, a) in r
  {
    if containers == [] then []
    else DatedLinks(containers[0]) + ContainerLinks(containers[1..])
  }

  /** Strategy 2 on one link: its first h1..h5 title, if longer than 10
      characters; the time comes from the container. */
  function ContainerCandidate(p: LinkIn): Option<Article>
  {
    if p.link.href.None? || p.link.href.value == "" then None
    else
      var titleElem := FindHeading(p.link.headings, 1, 5);
      if titleElem.None? || |titleElem.value.text| <= 10 then None
      else Some(Article(titleElem.value.text, Absolutize(p.link.href.value), p.container.datetime))
  }

  /** The visit order splits over consecutive runs of containers: all links
      of the earlier containers come before any link of the later ones. */
  lemma {:induction false} ContainerLinksAppend(a: seq<Element>, b: seq<Element>)
    ensures ContainerLinks(a + b) == ContainerLinks(a) + ContainerLinks(b)
  {
    if a == [] {
      assert a + b == b;
    } else {
      calc {
        ContainerLinks(a + b);
        { assert (a + b)[0] == a[0] && (a + b)[1..] == a[1..] + b; }
        DatedLinks(a[0]) + ContainerLinks(a[1..] + b);
        { ContainerLinksAppend(a[1..], b); }
        DatedLinks(a[0]) + (ContainerLinks(a[1..]) + ContainerLinks(b));
        (DatedLinks(a[0]) + ContainerLinks(a[1..])) + ContainerLinks(b);
      }
    }
  }

  /** The inner loop of `_parse_strategy_2`: the first acceptable dated
      link of one container. */
  method SearchContainer(c: Element) returns (r: Option<Article>)
    ensures r == FirstSome(DatedLinks(c), ContainerCandidate)
  {
    var links := FindAllAnchors(c.anchors, DatedHref);
    var j := 0;
    while j < |links|
      invariant 0 <= j <= |links|
      invariant FirstSome(DatedLinks(c)[j..], ContainerCandidate) == FirstSome(DatedLinks(c), ContainerCandidate)
    {
      FirstSomeStep(DatedLinks(c), ContainerCandidate, j);
      var link := links[j];
      if link.href.None? || link.href.value == "" {
        j := j + 1;
        continue;
      }
      var titleElem := FindHeading(link.headings, 1, 5);
      if titleElem.Some? {
        var title := titleElem.value.text;
        if |title| > 10 {
          var url := link.href.value;
          if StartsWith(url, "/") {
            url := Origin + url;
          }
          return Some(Article(title, url, c.datetime));
        }
      }
      j := j + 1;
    }
    assert DatedLinks(c)[j..] == [];
    return None;
  }

  /** `_parse_strategy_2`: the outer loop over containers. */
  method ParseStrategy2(page: NytPage) returns (r: Option<Article>)
    ensures r == FirstSome(ContainerLinks(page.containers), ContainerCandidate)
  {
    var cs := page.containers;
    var i := 0;
    while i < |cs|
      invariant 0 <= i <= |cs|
      invariant FirstSome(ContainerLinks(cs[i..]), ContainerCandidate) == FirstSome(ContainerLinks(cs), ContainerCandidate)
    {
      assert cs[i..][0] == cs[i] && cs[i..][1..] == cs[i + 1..];
      FirstSomeAppend(DatedLinks(cs[i]), ContainerLinks(cs[i + 1..]), ContainerCandidate);
      r := SearchContainer(cs[i]);
      if r.Some? {
        return r;
      }
      i := i + 1;
    }
    assert cs[i..] == [];
    return None;
  }

  // ---------------------------------------------------------------- strategy 3

  /** Strategy 3 on one link: a link with a 2024-2026 year segment whose text,
      or failing that the nearest block's heading, is longer than 10
      characters. The parent heading is consulted only when the link text is
      empty or shorter than 10 characters. */
  function LinkCandidate(link: Anchor): Option<Article>
  {
    var href := if link.href.Some? then link.href.value else "";
    if !HasYear(href) then None
    else
      var title :=
        if link.text == "" || |link.text| < 10 then
          if link.parentHeading.Some? then link.parentHeading.value else link.text
        else link.text;
      if title != "" && |title| > 10 then Some(Article(title, Absolutize(href), None)) else None
  }

  /** `_parse_strategy_3`. */
  method ParseStrategy3(page: NytPage) returns (r: Option<Article>)
    ensures r == FirstSome(FindAllAnchors(page.anchors, ArticleHref), LinkCandidate)
  {
    var links := FindAllAnchors(page.anchors, ArticleHref);
    var i := 0;
    while i < |links|
      invariant 0 <= i <= |links|
      invariant FirstSome(links[i..], LinkCandidate) == FirstSome(links, LinkCandidate)
    {
      FirstSomeStep(links, LinkCandidate, i);
      var link := links[i];
      var href := if link.href.Some? then link.href.value else "";
      if !(Contains(href, "/2024/") || Contains(href, "/2025/") || Contains(href, "/2026/")) {
        i := i + 1;
        continue;
      }
      var title := link.text;
      if title == "" || |title| < 10 {
        if link.parentHeading.Some? {
          title := link.parentHeading.value;
        }
      }
      if title != "" && |title| > 10 {
        var url := href;
        if StartsWith(url, "/") {
          url := Origin + url;
        }
        return Some(Article(title, url, None));
      }
      i := i + 1;
    }
    return None;
  }

  // ---------------------------------------------------------------- the chain

  /** `s1 or s2 or s3`: the first strategy that finds an article decides. */
  function TopArticle(page: NytPage): Option<Article> {
    var s1 := FirstSome(page.orderedLists, ListCandidate);
    if s1.Some? then s1
    else
      var s2 := FirstSome(ContainerLinks(page.containers), ContainerCandidate);
      if s2.Some? then s2
      else FirstSome(FindAllAnchors(page.anchors, ArticleHref), LinkCandidate)
  }

  /** `NYTReporterScraper.parse_top_article`. */
  method ParseTopArticle(page: NytPage) returns (r: Option<Article>)
    ensures r == TopArticle(page)
  {
    r := ParseStrategy1(page);
    if r.None? {
      r := ParseStrategy2(page);
      if r.None? {
        r := ParseStrategy3(page);
      }
    }
  }

  /** Once strategy 1 finds an article, the containers and the loose links
      of the page are not consulted. */
  lemma LaterStrategiesIgnored(page: NytPage, containers: seq<Element>, anchors: seq<Anchor>)
    requires FirstSome(page.orderedLists, ListCandidate).Some?
    ensures TopArticle(page.(containers := containers, anchors := anchors)) == TopArticle(page)
  {
  }

  /** A list's article comes from its first site-relative dated link, with
      the origin prefixed, the link's h3/h2/h4 as title and the time of the
      enclosing item; when that first link has no such heading, the list
      yields nothing, whatever links follow. */
  lemma ListCandidateShape(ol: Element)
    ensures var r := ListCandidate(ol);
            var link := FindAnchor(ol.anchors, ListHref);
            r.Some? ==> && link.Some? && link.value.href.Some?
                        && r.value.url == Origin + link.value.href.value
                        && r.value.publishedTime == link.value.liDatetime
                        && ListTitle(link.value.headings).Some?
                        && ListTitle(link.value.headings).value.text == r.value.title
    ensures var link := FindAnchor(ol.anchors, ListHref);
            link.None? || ListTitle(link.value.headings).None? ==> ListCandidate(ol).None?
  {
  }

  /** A container link is taken only with an h1..h5 title longer than 10
      characters; its URL is absolutised and its time is the container's. */
  lemma ContainerCandidateShape(p: LinkIn)
    ensures var r := ContainerCandidate(p);
            r.Some? ==> p.link.href.Some? && |r.value.title| > 10
                        && r.value.url == Absolutize(p.link.href.value)
                        && r.value.publishedTime == p.container.datetime
                        && FindHeading(p.link.headings, 1, 5).Some? && FindHeading(p.link.headings, 1, 5).value.text == r.value.title
  {
  }

  /** Strategy 3 takes a link only with a year segment and a title longer
      than 10 characters, from its text or its parent's heading, and gives
      no time. */
  lemma LinkCandidateShape(link: Anchor)
    ensures var r := LinkCandidate(link);
            r.Some? ==> link.href.Some? && HasYear(link.href.value)
                        && |r.value.title| > 10 && r.value.publishedTime.None?
                        && r.value.url == Absolutize(link.href.value)
                        && (r.value.title == link.text || Some(r.value.title) == link.parentHeading)
  {
  }

  /** `link` is one of the page's anchors: inside an `<ol>`, inside a
      container, or among all the page's links. */
  predicate OnPage(page: NytPage, link: Anchor) {
    || link in page.anchors
    || (exists ol :: ol in page.orderedLists && link in ol.anchors)
    || (exists c :: c in page.containers && link in c.anchors)
  }

  /** Every article the NYT parser returns has a URL absolutized from the
      href of one of the page's anchors, holding '/20'; strategy 3's
      articles come from the page's links with a year segment, and carry a
      title longer than 10 characters and no timestamp. */
  lemma TopArticleShape(page: NytPage)
    ensures var r := TopArticle(page);
            r.Some? ==> exists link :: OnPage(page, link) && link.href.Some?
                                       && Contains(link.href.value, "/20") && r.value.url == Absolutize(link.href.value)
    ensures var s3 := FirstSome(FindAllAnchors(page.anchors, ArticleHref), LinkCandidate);
            s3.Some? ==> |s3.value.title| > 10 && s3.value.publishedTime.None?
                         && exists link :: link in page.anchors && link.href.Some? && HasYear(link.href.value)
                                           && s3.value.url == Absolutize(link.href.value)
  {
    Strategy3Source(page);
    if FirstSome(page.orderedLists, ListCandidate).Some? {
      Strategy1Source(page);
    } else if FirstSome(ContainerLinks(page.containers), ContainerCandidate).Some? {
      Strategy2Source(page);
    }
  }

  /** Strategy 1's article comes from a dated link inside one of the lists. */
  lemma Strategy1Source(page: NytPage)
    requires FirstSome(page.orderedLists, ListCandidate).Some?
    ensures var r := FirstSome(page.orderedLists, ListCandidate).value;
            exists link :: OnPage(page, link) && link.href.Some?
                           && Contains(link.href.value, "/20") && r.url == Absolutize(link.href.value)
  {
    var s1 := FirstSome(page.orderedLists, ListCandidate);
    FirstSomeIsFirstSuccess(page.orderedLists, ListCandidate);
    var i :| 0 <= i < |page.orderedLists| && s1 == ListCandidate(page.orderedLists[i]);
    var ol := page.orderedLists[i];
    ListCandidateShape(ol);
    var link := FindAnchor(ol.anchors, ListHref).value;
    assert link in ol.anchors;
    assert OnPage(page, link);
    assert s1.value.url == Absolutize(link.href.value);
  }

  /** Strategy 2's article comes from a dated link inside one of the containers. */
  lemma Strategy2Source(page: NytPage)
    requires FirstSome(ContainerLinks(page.containers), ContainerCandidate).Some?
    ensures var r := FirstSome(ContainerLinks(page.containers), ContainerCandidate).value;
            exists link :: OnPage(page, link) && link.href.Some?
                           && Contains(link.href.value, "/20") && r.url == Absolutize(link.href.value)
  {
    var links := ContainerLinks(page.containers);
    FirstSomeIsFirstSuccess(links, ContainerCandidate);
    var i :| 0 <= i < |links| && FirstSome(links, ContainerCandidate) == ContainerCandidate(links[i]);
    var p := links[i];
    ContainerCandidateShape(p);
    assert p in links;
    assert OnPage(page, p.link);
  }

  /** Strategy 3's article comes from one of the page's links with a year
      segment, has a title longer than 10 characters and no timestamp. */
  lemma Strategy3Source(page: NytPage)
    ensures var s3 := FirstSome(FindAllAnchors(page.anchors, ArticleHref), LinkCandidate);
            s3.Some? ==> |s3.value.title| > 10 && s3.value.publishedTime.None?
                         && exists link :: link in page.anchors && link.href.Some? && HasYear(link.href.value)
                                           && Contains(link.href.value, "/20") && s3.value.url == Absolutize(link.href.value)
  {
    var links := FindAllAnchors(page.anchors, ArticleHref);
    FirstSomeIsFirstSuccess(links, LinkCandidate);
    if FirstSome(links, LinkCandidate).Some? {
      var i :| 0 <= i < |links| && FirstSome(links, LinkCandidate) == LinkCandidate(links[i]);
      LinkCandidateShape(links[i]);
      assert links[i] in links;
    }
  }

  /** A link text of exactly 10 characters is neither accepted nor replaced by
      the parent heading, however long that heading is. */
  lemma TenCharacterLinkTextRejected(link: Anchor)
    requires |link.text| == 10
    ensures LinkCandidate(link).None?
  {
  }

  /** Strategy 1 accepts a title of any length, the empty one included. */
  lemma ListTitleHasNoLengthCheck()
    ensures var link := Anchor(Some("/2025/01/01/a.html"), "", [Heading(3, "")], None, None);
            ListCandidate(Element(None, "", [link], None, None))
              == Some(Article("", Origin + "/2025/01/01/a.html", None))
  {
    var href := "/2025/01/01/a.html";
    assert OccursAt(href, "/20", 0);
    ContainsAt(href, "/20", 0);
  }
}
