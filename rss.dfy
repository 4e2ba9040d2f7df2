/** `RSSScraper.parse_top_article` (src/scrapers.py). feedparser's parsing
    is not part of this model: a feed is given as its entries. */
module RssScraper {
  import opened Wrappers
  import opened Text
  import opened Models

  /** One feed entry, as feedparser exposes it:
      - `title`, `link`: the keys, `None` when absent;
      - `publishedParsed`, `updatedParsed`: `strftime('%Y-%m-%dT%H:%M:%SZ', ...)`
        of the parsed time, `None` when feedparser has none (the formatting
        itself is not part of this model);
      - `published`, `updated`: the raw strings, `None` when the attribute is
        absent. */
  datatype FeedEntry = FeedEntry(
    title: Option<string>,
    link: Option<string>,
    publishedParsed: Option<string>,
    updatedParsed: Option<string>,
    published: Option<string>,
    updated: Option<string>)

  /** A parsed feed: its entries, most recent first. */
  datatype Feed = Feed(entries: seq<FeedEntry>)

  /** The link that is never taken for an article. */
  const WashingtonPostHome := "https://www.washingtonpost.com"

  /** `entry.get(key, '')`. */
  function OrEmpty(o: Option<string>): string {
    if o.Some? then o.value else ""
  }

  /** The timestamp of an entry: the parsed published time, else the parsed
      updated time, else the raw published string, else the raw updated
      string, whichever is first present. */
  function EntryTimestamp(e: FeedEntry): (t: Option<string>)
    ensures e.publishedParsed.Some? ==> t == e.publishedParsed
    ensures e.publishedParsed.None? && e.updatedParsed.Some? ==> t == e.updatedParsed
    ensures e.publishedParsed.None? && e.updatedParsed.None? && e.published.Some? ==> t == e.published
    ensures e.publishedParsed.None? && e.updatedParsed.None? && e.published.None? ==> t == e.updated
  {
    if e.publishedParsed.Some? then e.publishedParsed
    else if e.updatedParsed.Some? then e.updatedParsed
    else if e.published.Some? then e.published
    else e.updated
  }

  /** `RSSScraper.parse_top_article`: the first entry, when its stripped title
      and link are non-empty and the link is not the Washington Post home page. */
  function ParseTopArticle(feed: Feed): (r: Option<Article>)
    ensures feed.entries == [] ==> r.None?
    ensures feed.entries != [] ==>
              var e := feed.entries[0];
              var title := Strip(OrEmpty(e.title));
              var link := Strip(OrEmpty(e.link));
              (r.Some? <==> title != "" && link != "" && link != WashingtonPostHome)
              && (r.Some? ==> r.value == Article(title, link, EntryTimestamp(e)))
  {
    if feed.entries == [] then None
    else
      var entry := feed.entries[0];
      var title := Strip(OrEmpty(entry.title));
      if title == "" then None
      else
        var url := Strip(OrEmpty(entry.link));
        if url == "" then None
        else if url == WashingtonPostHome then None
        else Some(Article(title, url, EntryTimestamp(entry)))
  }

  /** Only the first entry is read: later entries never change the result. */
  lemma OnlyFirstEntryMatters(e: FeedEntry, rest: seq<FeedEntry>)
    ensures ParseTopArticle(Feed([e] + rest)) == ParseTopArticle(Feed([e]))
  {
  }

  /** A title or link made only of whitespace yields no article. */
  lemma BlankFieldsYieldNothing(e: FeedEntry, rest: seq<FeedEntry>)
    requires forall i :: 0 <= i < |OrEmpty(e.title)| ==> IsSpace(OrEmpty(e.title)[i])
    ensures ParseTopArticle(Feed([e] + rest)).None?
  {
    StripBlank(OrEmpty(e.title));
  }

  /** The article's title and URL never start or end with whitespace. */
  lemma ArticleFieldsAreStripped(feed: Feed)
    requires ParseTopArticle(feed).Some?
    ensures var a := ParseTopArticle(feed).value;
            a.title != "" && !IsSpace(a.title[0]) && !IsSpace(a.title[|a.title| - 1])
            && a.url != "" && !IsSpace(a.url[0]) && !IsSpace(a.url[|a.url| - 1])
  {
    var e := feed.entries[0];
    StripEnds(OrEmpty(e.title));
    StripEnds(OrEmpty(e.link));
  }
}
