/** `GenericHTMLScraper.parse_top_article` (src/scrapers.py): three
    strategies, tried in order, for generically structured blog indexes. */
module GenericScraper {
  import opened Wrappers
  import opened Text
  import opened Models
  import opened Pages
  import opened Fallback
  import opened Sequences

  /** What the strategies query: every `<ol>`, `<ul>` and `<div>`, every
      `<article>`, and every `<h1>`, `<h2>` and `<h3>`, each in document order. */
  datatype GenericPage = GenericPage(
    blocks: seq<Element>,
    articles: seq<Element>,
    headings: seq<Element>)

  /** `urljoin(base, href)`: resolving a reference against the page URL
      (section 5.2 of RFC 3986), which is not part of this model. */
  type UrlJoin = (string, string) -> string

  /** Strategy 3 reads at most this many headings (`limit=10`). */
  const HeadingLimit := 10

  /** Strategy 1's class filter: the class mentions post, article or entry,
      in any case. BeautifulSoup tests each class of the attribute on its
      own; as none of the three words holds a space, testing the whole
      attribute gives the same answer. */
  predicate ListClass(classAttr: Option<string>) {
    classAttr.Some? && classAttr.value != ""
    && (Contains(Lower(classAttr.value), "post") || Contains(Lower(classAttr.value), "article")
        || Contains(Lower(classAttr.value), "entry"))
  }

  /** The link filter of every strategy: an href longer than 5 characters. */
  predicate LongHref(href: Option<string>) {
    href.Some? && href.value != "" && |href.value| > 5
  }

  /** Hrefs no strategy follows: fragments and pseudo-URLs. */
  const PseudoLinks: seq<string> := ["#", "mailto:", "javascript:"]

  /** Hrefs strategy 1 also refuses: the social-share domains. */
  const ShareLinks: seq<string> := PseudoLinks + ["facebook.com", "twitter.com", "linkedin.com"]

  /** `any(skip in s for skip in needles)`. */
  predicate ContainsAny(s: string, needles: seq<string>) {
    needles != [] && (Contains(s, needles[0]) || ContainsAny(s, needles[1..]))
  }

  /** A chosen link before resolution: its href, its title and its time. */
  datatype Pick = Pick(href: string, title: string, time: Option<string>)

  /** `urljoin(base_url, href)` on the chosen link, which becomes the article. */
  function Resolve(urljoin: UrlJoin, baseUrl: string, pick: Option<Pick>): (r: Option<Article>)
    ensures r.Some? <==> pick.Some?
    ensures r.Some? ==> r.value.url == urljoin(baseUrl, pick.value.href)
                        && r.value.title == pick.value.title && r.value.publishedTime == pick.value.time
  {
    if pick.Some? then Some(Article(pick.value.title, urljoin(baseUrl, pick.value.href), pick.value.time))
    else None
  }

  /** `find_all(['ol', 'ul', 'div'], class_=...)`: the blocks whose class
      passes, in document order, each as many times as it occurs. */
  function ListBlocks(blocks: seq<Element>): (r: seq<Element>)
    ensures IsSubsequence(r, blocks)
    ensures forall e :: e in r <==> e in blocks && ListClass(e.classAttr)
    ensures forall e :: multiset(r)[e] == if ListClass(e.classAttr) then multiset(blocks)[e] else 0
  {
    if blocks == [] then []
    else
      var rest := ListBlocks(blocks[1..]);
      assert blocks == [blocks[0]] + blocks[1..];
      assert forall e :: e in blocks <==> e == blocks[0] || e in blocks[1..];
      if ListClass(blocks[0].classAttr) then [blocks[0]] + rest else rest
  }

  /** Strategy 1 on one block: its first long link, unless it is a pseudo or
      share link; the title is the link's first h1..h5, else its text. */
  function ListCandidate(e: Element): Option<Pick>
  {
    var link := FindAnchor(e.anchors, LongHref);
    if link.None? || link.value.href.None? || link.value.href.value == "" then None
    else
      var href := link.value.href.value;
      if ContainsAny(Lower(href), ShareLinks) then None
      else
        var titleElem := FindHeading(link.value.headings, 1, 5);
        var title := if titleElem.None? then link.value.text else titleElem.value.text;
        if title != "" && |title| > 10 then Some(Pick(href, title, e.datetime)) else None
  }

  /** Strategy 2 on one `<article>`: its first long link, unless it is a
      pseudo link, titled by the article's first h1..h5. */
  function ArticleCandidate(e: Element): Option<Pick>
  {
    var link := FindAnchor(e.anchors, LongHref);
    if link.None? || link.value.href.None? || link.value.href.value == "" then None
    else
      var href := link.value.href.value;
      if ContainsAny(Lower(href), PseudoLinks) then None
      else if e.heading.None? then None
      else if |e.heading.value| > 10 then Some(Pick(href, e.heading.value, e.datetime))
      else None
  }

  /** Strategy 3 on one heading: its first long link, unless it is a pseudo
      link, titled by the heading's own text, with no time. */
  function HeadingCandidate(h: Element): Option<Pick>
  {
    var link := FindAnchor(h.anchors, LongHref);
    if link.None? || link.value.href.None? || link.value.href.value == "" then None
    else
      var href := link.value.href.value;
      if ContainsAny(Lower(href), PseudoLinks) then None
      else if |h.text| > 10 then Some(Pick(href, h.text, None))
      else None
  }

  /** The headings strategy 3 reads: the first ten. */
  function FirstHeadings(headings: seq<Element>): (r: seq<Element>)
    ensures r <= headings
    ensures |r| == if |headings| < HeadingLimit then |headings| else HeadingLimit
  {
    if |headings| <= HeadingLimit then headings else headings[..HeadingLimit]
  }

  /** The link the three strategies choose, the first that finds one deciding. */
  function TopPick(page: GenericPage): Option<Pick> {
    var s1 := FirstSome(ListBlocks(page.blocks), ListCandidate);
    if s1.Some? then s1
    else
      var s2 := FirstSome(page.articles, ArticleCandidate);
      if s2.Some? then s2
      else FirstSome(FirstHeadings(page.headings), HeadingCandidate)
  }

  /** The body of the first `for` loop on one block: its first long link,
      skipped when it is a pseudo or share link, titled by its first h1..h5
      or else its text. */
  method SearchBlock(e: Element) returns (r: Option<Pick>)
    ensures r == ListCandidate(e)
  {
    var link := FindAnchor(e.anchors, LongHref);
    if link.None? || link.value.href.None? || link.value.href.value == "" {
      return None;
    }
    var href := link.value.href.value;
    if ContainsAny(Lower(href), ShareLinks) {
      return None;
    }
    var titleElem := FindHeading(link.value.headings, 1, 5);
    var title;
    if titleElem.None? {
      title := link.value.text;
    } else {
      title := titleElem.value.text;
    }
    if title != "" && |title| > 10 {
      return Some(Pick(href, title, e.datetime));
    }
    return None;
  }

  /** The first `for` loop of `parse_top_article`: blocks whose class names
      a post, article or entry. */
  method ListStrategy(page: GenericPage) returns (r: Option<Pick>)
    ensures r == FirstSome(ListBlocks(page.blocks), ListCandidate)
  {
    var lists := ListBlocks(page.blocks);
    var i := 0;
    while i < |lists|
      invariant 0 <= i <= |lists|
      invariant FirstSome(lists[i..], ListCandidate) == FirstSome(lists, ListCandidate)
    {
      FirstSomeStep(lists, ListCandidate, i);
      r := SearchBlock(lists[i]);
      if r.Some? {
        return r;
      }
      i := i + 1;
    }
    return None;
  }

  /** The second `for` loop: `<article>` elements. */
  method ArticleStrategy(page: GenericPage) returns (r: Option<Pick>)
    ensures r == FirstSome(page.articles, ArticleCandidate)
  {
    var articles := page.articles;
    var i := 0;
    while i < |articles|
      invariant 0 <= i <= |articles|
      invariant FirstSome(articles[i..], ArticleCandidate) == FirstSome(articles, ArticleCandidate)
    {
      FirstSomeStep(articles, ArticleCandidate, i);
      var link := FindAnchor(articles[i].anchors, LongHref);
      if link.Some? && link.value.href.Some? && link.value.href.value != "" {
        var href := link.value.href.value;
        if ContainsAny(Lower(href), PseudoLinks) {
          i := i + 1;
          continue;
        }
        var titleElem := articles[i].heading;
        if titleElem.Some? && |titleElem.value| > 10 {
          return Some(Pick(href, titleElem.value, articles[i].datetime));
        }
      }
      i := i + 1;
    }
    return None;
  }

  /** The third `for` loop: the first ten headings holding a link. */
  method HeadingStrategy(page: GenericPage) returns (r: Option<Pick>)
    ensures r == FirstSome(FirstHeadings(page.headings), HeadingCandidate)
  {
    var headings := FirstHeadings(page.headings);
    var i := 0;
    while i < |headings|
      invariant 0 <= i <= |headings|
      invariant FirstSome(headings[i..], HeadingCandidate) == FirstSome(headings, HeadingCandidate)
    {
      FirstSomeStep(headings, HeadingCandidate, i);
      var link := FindAnchor(headings[i].anchors, LongHref);
      if link.Some? && link.value.href.Some? && link.value.href.value != "" {
        var href := link.value.href.value;
        if ContainsAny(Lower(href), PseudoLinks) {
          i := i + 1;
          continue;
        }
        if |headings[i].text| > 10 {
          return Some(Pick(href, headings[i].text, None));
        }
      }
      i := i + 1;
    }
    return None;
  }

  /** `GenericHTMLScraper.parse_top_article(html, base_url)`: the three
      strategies in order, the first that finds a link deciding; its href
      is resolved against the page URL. */
  method ParseTopArticle(page: GenericPage, baseUrl: string, urljoin: UrlJoin) returns (r: Option<Article>)
    ensures r == Resolve(urljoin, baseUrl, TopPick(page))
  {
    var pick := ListStrategy(page);
    if pick.None? {
      pick := ArticleStrategy(page);
    }
    if pick.None? {
      pick := HeadingStrategy(page);
    }
    if pick.None? {
      return None;
    }
    var url := urljoin(baseUrl, pick.value.href);
    return Some(Article(pick.value.title, url, pick.value.time));
  }

  /** A block's pick is its first long link, unless that link is a pseudo or
      share link, in which case the block yields nothing whatever links
      follow; the title is the link's first h1..h5, or else its text, and is
      longer than 10 characters; the time is the block's. */
  lemma ListCandidateShape(e: Element)
    ensures var r := ListCandidate(e);
            var link := FindAnchor(e.anchors, LongHref);
            r.Some? ==> && link.Some? && link.value.href == Some(r.value.href)
                        && !ContainsAny(Lower(r.value.href), ShareLinks) && |r.value.title| > 10
                        && r.value.time == e.datetime
                        && var h := FindHeading(link.value.headings, 1, 5);
                           r.value.title == if h.Some? then h.value.text else link.value.text
    ensures var link := FindAnchor(e.anchors, LongHref);
            link.None? || ContainsAny(Lower(link.value.href.value), ShareLinks) ==> ListCandidate(e).None?
  {
  }

  /** An `<article>`'s pick is its first long link, unless that link is a
      pseudo link, in which case the element yields nothing whatever links
      follow; it is titled by the article's heading of more than 10
      characters and timed by the article. */
  lemma ArticleCandidateShape(e: Element)
    ensures var r := ArticleCandidate(e);
            var link := FindAnchor(e.anchors, LongHref);
            r.Some? ==> && link.Some? && link.value.href == Some(r.value.href)
                        && !ContainsAny(Lower(r.value.href), PseudoLinks) && |r.value.title| > 10
                        && Some(r.value.title) == e.heading && r.value.time == e.datetime
    ensures var link := FindAnchor(e.anchors, LongHref);
            link.None? || ContainsAny(Lower(link.value.href.value), PseudoLinks) ==> ArticleCandidate(e).None?
  {
  }

  /** A heading's pick is its first long link, unless that link is a pseudo
      link, in which case the heading yields nothing whatever links follow;
      it is titled by the heading's text of more than 10 characters, with no
      time. */
  lemma HeadingCandidateShape(h: Element)
    ensures var r := HeadingCandidate(h);
            var link := FindAnchor(h.anchors, LongHref);
            r.Some? ==> && link.Some? && link.value.href == Some(r.value.href)
                        && !ContainsAny(Lower(r.value.href), PseudoLinks) && |r.value.title| > 10
                        && r.value.title == h.text && r.value.time.None?
    ensures var link := FindAnchor(h.anchors, LongHref);
            link.None? || ContainsAny(Lower(link.value.href.value), PseudoLinks) ==> HeadingCandidate(h).None?
  {
  }

  /** Whatever strategy wins, the article's URL is the resolution of a page
      href free of fragments and pseudo-URLs, and its title is longer than
      10 characters. */
  lemma TopPickShape(page: GenericPage)
    ensures var p := TopPick(page);
            p.Some? ==> !ContainsAny(Lower(p.value.href), PseudoLinks) && |p.value.title| > 10
  {
    var ok := (p: Pick) => !ContainsAny(Lower(p.href), PseudoLinks) && |p.title| > 10;
    forall e | e in ListBlocks(page.blocks) && ListCandidate(e).Some?
      ensures ok(ListCandidate(e).value)
    {
      ListCandidateShape(e);
      ShareLinksCoverPseudoLinks(Lower(ListCandidate(e).value.href));
    }
    forall e | e in page.articles && ArticleCandidate(e).Some?
      ensures ok(ArticleCandidate(e).value)
    {
      ArticleCandidateShape(e);
    }
    forall h | h in FirstHeadings(page.headings) && HeadingCandidate(h).Some?
      ensures ok(HeadingCandidate(h).value)
    {
      HeadingCandidateShape(h);
    }
    FirstSomeKeeps(ListBlocks(page.blocks), ListCandidate, ok);
    FirstSomeKeeps(page.articles, ArticleCandidate, ok);
    FirstSomeKeeps(FirstHeadings(page.headings), HeadingCandidate, ok);
  }

  /** A href strategy 1 accepts is one strategies 2 and 3 would accept too. */
  lemma ShareLinksCoverPseudoLinks(s: string)
    ensures ContainsAny(s, PseudoLinks) ==> ContainsAny(s, ShareLinks)
  {
    ContainsAnyPrefix(s, PseudoLinks, ["facebook.com", "twitter.com", "linkedin.com"]);
  }

  /** A needle list extended at the end matches whatever it matched before. */
  lemma {:induction false} ContainsAnyPrefix(s: string, needles: seq<string>, more: seq<string>)
    ensures ContainsAny(s, needles) ==> ContainsAny(s, needles + more)
  {
    if needles != [] {
      assert (needles + more)[1..] == needles[1..] + more;
      ContainsAnyPrefix(s, needles[1..], more);
    }
  }

  /** Headings after the tenth are never read. */
  lemma HeadingsAfterTenthIgnored(page: GenericPage, more: seq<Element>)
    requires |page.headings| >= HeadingLimit
    ensures TopPick(page.(headings := page.headings + more)) == TopPick(page)
  {
    assert (page.headings + more)[..HeadingLimit] == page.headings[..HeadingLimit];
    assert FirstHeadings(page.headings + more) == FirstHeadings(page.headings);
  }
}
