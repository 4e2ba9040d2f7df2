/** Scraper selection, the conditional fetch shared by the three scrapers,
    and their `scrape` methods (src/scrapers.py). */
module Scrapers {
  import opened Wrappers
  import opened Text
  import opened Models
  import NytScraper
  import RssScraper
  import GenericScraper

  /** The three scraper classes. */
  datatype ScraperKind = RssFeed | NytReporter | GenericHtml

  /** The URL rule for feeds: `/rss/` anywhere in the lower-cased URL, or a
      `.rss` or `.xml` ending, compared case-sensitively. */
  predicate IsFeedUrl(url: string) {
    Contains(Lower(url), "/rss/") || EndsWith(url, ".rss") || EndsWith(url, ".xml")
  }

  /** The URL rule for New York Times reporter pages. */
  predicate IsReporterUrl(url: string) {
    Contains(url, "nytimes.com/by/")
  }

  /** The URL rule for the generic blog indexes. */
  predicate IsBlogUrl(url: string) {
    Contains(url, "gijn.org") || Contains(url, "datawrapper.de")
  }

  /** `get_scraper(url)`: the first rule that matches decides; with no match
      it raises `ValueError`, whose message names the URL. */
  function GetScraper(url: string): (r: Result<ScraperKind, string>)
    ensures IsFeedUrl(url) ==> r == Ok(RssFeed)
    ensures !IsFeedUrl(url) && IsReporterUrl(url) ==> r == Ok(NytReporter)
    ensures !IsFeedUrl(url) && !IsReporterUrl(url) && IsBlogUrl(url) ==> r == Ok(GenericHtml)
    ensures r.Err? <==> !IsFeedUrl(url) && !IsReporterUrl(url) && !IsBlogUrl(url)
    ensures r.Err? ==> r.error == "No scraper available for URL: " + url
  {
    if IsFeedUrl(url) then Ok(RssFeed)
    else if IsReporterUrl(url) then Ok(NytReporter)
    else if IsBlogUrl(url) then Ok(GenericHtml)
    else Err("No scraper available for URL: " + url)
  }

  /** A feed rule beats the other two, whatever else the URL mentions. */
  lemma FeedRuleComesFirst(prefix: string, suffix: string)
    ensures GetScraper(prefix + "nytimes.com/by/" + suffix + ".xml") == Ok(RssFeed)
  {
    var url := prefix + "nytimes.com/by/" + suffix + ".xml";
    assert url[|url| - 4..] == ".xml";
  }

  /** Request headers of one call. */
  type Headers = map<string, string>

  /** The request header names of the two conditional requests
      (sections 13.1.2 and 13.1.3 of RFC 9110). */
  const IfNoneMatch := "If-None-Match"
  const IfModifiedSince := "If-Modified-Since"

  /** Python truthiness of an optional string. */
  predicate Present(o: Option<string>) {
    o.Some? && o.value != ""
  }

  /** The headers `fetch_page`/`fetch_feed` send: a validator is sent exactly
      when the caller holds a non-empty one, and only these two headers. */
  function ConditionalHeaders(etag: Option<string>, lastModified: Option<string>): (h: Headers)
    ensures IfNoneMatch in h <==> Present(etag)
    ensures IfModifiedSince in h <==> Present(lastModified)
    ensures IfNoneMatch in h ==> h[IfNoneMatch] == etag.value
    ensures IfModifiedSince in h ==> h[IfModifiedSince] == lastModified.value
    ensures forall k :: k in h ==> k == IfNoneMatch || k == IfModifiedSince
  {
    var h1: Headers := if Present(etag) then map[IfNoneMatch := etag.value] else map[];
    if Present(lastModified) then h1[IfModifiedSince := lastModified.value] else h1
  }

  /** A response body, as the three parsers would see it: the query results
      for the NYT parser and the generic parser, and the entries the feed
      parser finds. Only the one of the chosen scraper is read. */
  datatype Body = Body(nyt: NytScraper.NytPage, generic: GenericScraper.GenericPage, feed: RssScraper.Feed)

  /** What the network does with one GET: a response with its status, body
      and caching headers, a timeout, or another request failure. */
  datatype Reply =
    | Answered(status: int, body: Body, etag: Option<string>, lastModified: Option<string>)
    | TimedOut
    | Failed(detail: string)

  /** The network, as a function of the URL and the request headers. */
  type Web = (string, Headers) -> Reply

  /** `REQUEST_TIMEOUT`, in seconds. */
  const RequestTimeout := 15

  /** `ScraperError`, by cause. */
  datatype ScraperError = HttpStatus(code: int) | Timeout | RequestFailed(detail: string) {
    /** `str(e)`. */
    function Message(): (m: string)
      ensures HttpStatus? ==> m == "HTTP " + IntToString(code)
      ensures Timeout? ==> m == "Request timeout after 15s"
      ensures RequestFailed? ==> m == "Request failed: " + detail
    {
      match this
      case HttpStatus(code) => "HTTP " + IntToString(code)
      case Timeout => "Request timeout after " + IntToString(RequestTimeout) + "s"
      case RequestFailed(detail) => "Request failed: " + detail
    }
  }

  /** What a fetch hands back: the body (`None` when not modified) and the
      validators to keep for the next request. */
  datatype Fetched = Fetched(body: Option<Body>, etag: Option<string>, lastModified: Option<string>)

  /** The outcome of `fetch_page`/`fetch_feed` for a given network. */
  function Fetch(url: string, etag: Option<string>, lastModified: Option<string>, web: Web): (r: Result<Fetched, ScraperError>)
    ensures var reply := web(url, ConditionalHeaders(etag, lastModified));
            && (reply.Answered? && reply.status == 304 ==> r == Ok(Fetched(None, etag, lastModified)))
            && (reply.Answered? && reply.status == 200 ==>
                  r == Ok(Fetched(Some(reply.body), reply.etag, reply.lastModified)))
            && (reply.Answered? && reply.status != 304 && reply.status != 200 ==> r == Err(HttpStatus(reply.status)))
            && (reply.TimedOut? ==> r == Err(Timeout))
            && (reply.Failed? ==> r == Err(RequestFailed(reply.detail)))
  {
    match web(url, ConditionalHeaders(etag, lastModified))
    case Answered(status, body, newEtag, newLastModified) =>
      if status == 304 then Ok(Fetched(None, etag, lastModified))
      else if status != 200 then Err(HttpStatus(status))
      else Ok(Fetched(Some(body), newEtag, newLastModified))
    case TimedOut => Err(Timeout)
    case Failed(detail) => Err(RequestFailed(detail))
  }

  /** `fetch_page`/`fetch_feed`: the headers dictionary is filled in place,
      the request made once, and the status dispatched. */
  method FetchPage(url: string, etag: Option<string>, lastModified: Option<string>, web: Web)
    returns (r: Result<Fetched, ScraperError>)
    ensures r == Fetch(url, etag, lastModified, web)
  {
    var headers: Headers := map[];
    if Present(etag) {
      headers := headers[IfNoneMatch := etag.value];
    }
    if Present(lastModified) {
      headers := headers[IfModifiedSince := lastModified.value];
    }
    assert headers == ConditionalHeaders(etag, lastModified);
    var reply := web(url, headers);
    if reply.TimedOut? {
      return Err(Timeout);
    } else if reply.Failed? {
      return Err(RequestFailed(reply.detail));
    }
    if reply.status == 304 {
      return Ok(Fetched(None, etag, lastModified));
    }
    if reply.status != 200 {
      return Err(HttpStatus(reply.status));
    }
    return Ok(Fetched(Some(reply.body), reply.etag, reply.lastModified));
  }

  /** A not-modified answer hands back exactly the validators the caller
      sent, never `None`s. */
  lemma NotModifiedKeepsCallerValidators(url: string, etag: Option<string>, lastModified: Option<string>, web: Web)
    requires var reply := web(url, ConditionalHeaders(etag, lastModified));
             reply.Answered? && reply.status == 304
    ensures Fetch(url, etag, lastModified, web).Ok?
    ensures Fetch(url, etag, lastModified, web).value.etag == etag
    ensures Fetch(url, etag, lastModified, web).value.lastModified == lastModified
  {
  }

  /** What a `scrape` call returns: the top article (`None` when not
      modified or when the parser found none) and the validators. */
  datatype Scraped = Scraped(article: Option<Article>, etag: Option<string>, lastModified: Option<string>)

  /** The parser of each scraper, applied to a fetched body. */
  function ParseBody(kind: ScraperKind, body: Body, url: string, urljoin: GenericScraper.UrlJoin): Option<Article> {
    match kind
    case RssFeed => RssScraper.ParseTopArticle(body.feed)
    case NytReporter => NytScraper.TopArticle(body.nyt)
    case GenericHtml => GenericScraper.Resolve(urljoin, url, GenericScraper.TopPick(body.generic))
  }

  /** The outcome of `scrape`: fetch, and parse only when a body came back. */
  function ScrapeResult(kind: ScraperKind, url: string, etag: Option<string>, lastModified: Option<string>,
                        web: Web, urljoin: GenericScraper.UrlJoin): (r: Result<Scraped, ScraperError>)
    ensures Fetch(url, etag, lastModified, web).Err? <==> r.Err?
    ensures r.Err? ==> r.error == Fetch(url, etag, lastModified, web).error
    ensures r.Ok? ==> r.value.etag == Fetch(url, etag, lastModified, web).value.etag
                      && r.value.lastModified == Fetch(url, etag, lastModified, web).value.lastModified
  {
    var fetched :- Fetch(url, etag, lastModified, web);
    if fetched.body.None? then Ok(Scraped(None, fetched.etag, fetched.lastModified))
    else Ok(Scraped(ParseBody(kind, fetched.body.value, url, urljoin), fetched.etag, fetched.lastModified))
  }

  /** `scrape` of each scraper class. `parsed` tells whether the parser ran
      (and the politeness delay, which is not part of this model, followed). */
  method Scrape(kind: ScraperKind, url: string, etag: Option<string>, lastModified: Option<string>,
                web: Web, urljoin: GenericScraper.UrlJoin)
    returns (r: Result<Scraped, ScraperError>, parsed: bool)
    ensures r == ScrapeResult(kind, url, etag, lastModified, web, urljoin)
    ensures parsed <==> Fetch(url, etag, lastModified, web).Ok? && Fetch(url, etag, lastModified, web).value.body.Some?
  {
    var fetched := FetchPage(url, etag, lastModified, web);
    if fetched.Err? {
      return Err(fetched.error), false;
    }
    var page := fetched.value;
    if page.body.None? {
      return Ok(Scraped(None, page.etag, page.lastModified)), false;
    }
    var body := page.body.value;
    var article;
    match kind {
      case RssFeed =>
        article := RssScraper.ParseTopArticle(body.feed);
      case NytReporter =>
        article := NytScraper.ParseTopArticle(body.nyt);
      case GenericHtml =>
        article := GenericScraper.ParseTopArticle(body.generic, url, urljoin);
    }
    return Ok(Scraped(article, page.etag, page.lastModified)), true;
  }

  /** Not modified: whatever the scraper and whatever the body, no parsing,
      no article and the caller's validators. */
  lemma NotModifiedSkipsParsing(kind: ScraperKind, url: string, etag: Option<string>, lastModified: Option<string>,
                                web: Web, urljoin: GenericScraper.UrlJoin)
    requires var reply := web(url, ConditionalHeaders(etag, lastModified));
             reply.Answered? && reply.status == 304
    ensures ScrapeResult(kind, url, etag, lastModified, web, urljoin) == Ok(Scraped(None, etag, lastModified))
  {
  }

  /** A successful fetch with a body always carries the response's own
      validators into the result, even when they are absent. */
  lemma FreshValidatorsReplaceOld(kind: ScraperKind, url: string, etag: Option<string>, lastModified: Option<string>,
                                  web: Web, urljoin: GenericScraper.UrlJoin)
    requires var reply := web(url, ConditionalHeaders(etag, lastModified));
             reply.Answered? && reply.status == 200
    ensures var reply := web(url, ConditionalHeaders(etag, lastModified));
            ScrapeResult(kind, url, etag, lastModified, web, urljoin)
              == Ok(Scraped(ParseBody(kind, reply.body, url, urljoin), reply.etag, reply.lastModified))
  {
  }
}
