# new-article-notifications, change detection in Dafny

This project models the change-detection engine of new-article-notifications.
The bot watches article listings: New York Times reporter pages, RSS feeds,
and the GIJN and Datawrapper blog indexes. For each enabled source it loads
the stored baseline and picks a scraper by URL. It fetches the listing with
conditional request headers (sections 13.1.2 and 13.1.3 of RFC 9110) and
extracts the top article. It then compares the article's URL with the
baseline, posts a Discord webhook message when the URL changed, and saves
the updated state. The run fails when every source failed, or at once, with
the remaining sources unchecked, when a state file is not UTF-8 or does not
hold a JSON object (or holds a truthy `last_article` that is not one). A
state file holding corrupt JSON, or one that cannot be opened, loads as a
fresh state instead.

The modules follow the Python modules:

- `Models`: `Article`, whose equality is by URL, and `SourceState`, with their dictionary forms. `Json` holds the decoded JSON values and Python truthiness.
- `Config`: the source id from a URL path, and the enabled-source filter.
- `Pages` and `Fallback`: what the HTML strategies read from a page, and the first-success chain the strategies form.
- `NytScraper`, `RssScraper` and `GenericScraper`: the three parsers. The HTML strategies are loops proved equal to first-success functions.
- `Scrapers`: `get_scraper`, the conditional fetch and `scrape`.
- `StateStore`: a `StateManager` class over a map from source id to the content of its state file.
- `Notifications`: the webhook payload and `send`.
- `CheckArticles`: `check_source` as a method that updates the loaded state step by step and saves it once, specified by a transition function. It also holds the exit-code rule of `main`.
- `Text`: the Python `str` operations used (`in`, `lower`, `strip`, `rstrip`, `split`, `str(int)`).

Parsing is abstract. A page is the result of the queries each strategy makes. A feed is its list of entries. A response is a status, a body and two caching headers. The network, the webhook, `urljoin` and the clock are inputs.

Where the code differs from what its docstrings or a reader would expect, the model follows the code:

- On a 304 answer the fetchers return the caller's own validators. Their docstrings say `(None, None, None)`.
- NYT strategy 1 accepts a title of any length, the empty one included.
- A scrape that returns no article keeps `error_count` and `last_error` as they were.
- NYT strategy 3 takes the parent heading only for link text shorter than 10 characters. It accepts only titles longer than 10, so link text of exactly 10 characters is rejected outright (`NytScraper.TenCharacterLinkTextRejected`).

## Model

| member | source | states |
|---|---|---|
| Models.EqualsIsUrlIdentity | src/models.py:14-18 | two articles are equal iff their URLs are equal; title and time are ignored |
| Models.EqualsIsEquivalence | src/models.py:14-18 | article equality is reflexive, symmetric and transitive |
| Models.ArticleFromDict | src/models.py:28-35 | decoding succeeds iff the record is an object with string title and url and a published_time that is absent, null or a string; a missing title or url is a key error, title checked first; an absent or null published_time gives None; otherwise the fields are read as stored |
| Models.ArticleRoundTrip | src/models.py:20-35 | decoding an encoded article gives back the same title, url and published_time |
| Models.StateFromDict | src/models.py:61-76 | decoding succeeds iff the record is an object with a string source_id, a falsy or decodable last_article, optional fields that are absent, null or strings, and an error_count that is absent or a number; a falsy last_article is no baseline; error_count defaults to 0 and the optional fields to None |
| Models.StateRoundTrip | src/models.py:49-76 | decoding an encoded state gives back every field, including the baseline article field by field |
| Models.MinimalRecordIsFresh | src/models.py:38-47 | a record holding only source_id decodes to the constructor's defaults |
| Models.FalsyBaselineIsAbsent | src/models.py:64-66 | a null, false, zero or empty last_article decodes to no baseline |
| Config.ExtractSourceId | src/config.py:38-50 | the id is never empty and never holds '/'; it is "unknown" when the path minus trailing slashes is empty, else the segment after its last '/' |
| Config.TrailingSlashesIgnored | src/config.py:49 | appending slashes to the path does not change the id |
| Config.SlashOnlyPathIsUnknown | src/config.py:49-50 | an empty or all-slash path gives "unknown" |
| Config.GetEnabledSources | src/config.py:36 | the result is a subsequence of the sources; every kept source is enabled; each enabled source keeps its multiplicity |
| Config.EnabledMembership | src/config.py:36 | a source is kept iff it is listed and its enabled value is absent or truthy |
| Fallback.FirstSomeIsFirstSuccess | src/scrapers.py:126-153 | a first-success chain fails iff every step fails, and otherwise yields the result of a step all of whose predecessors failed |
| NytScraper.Absolutize | src/scrapers.py:136-137 | an href starting with '/' gets the nytimes.com origin prefixed; any other href is kept |
| NytScraper.ListTitle | src/scrapers.py:130 | the title element is a level 2, 3 or 4 heading of the link: an h3 whenever there is one, else an h2 whenever there is one, always the first heading of its level, and absent iff there is none |
| NytScraper.ListCandidateShape | src/scrapers.py:126-151 | a list's article comes from the first link `find` returns with '/20' in a '/'-rooted href: origin prefixed, its h3/h2/h4 as title, the time of the enclosing item; when that first link has no such heading the list yields nothing |
| NytScraper.ParseStrategy1 | src/scrapers.py:119-153 | the loop over ordered lists returns the first list's candidate, or None when none has one |
| NytScraper.ContainerLinks | src/scrapers.py:158-163 | the visit order of the nested loops: it holds every link with '/20' in the href of every container, paired with that container, and nothing else |
| NytScraper.ContainerLinksAppend | src/scrapers.py:158-163 | the links of earlier containers all come before those of later ones |
| NytScraper.ContainerCandidateShape | src/scrapers.py:163-184 | a link is taken only with an h1..h5 title longer than 10 characters; its URL is absolutised and its time is the container's |
| NytScraper.SearchContainer | src/scrapers.py:162-184 | the inner loop returns the first acceptable dated link of one container |
| NytScraper.ParseStrategy2 | src/scrapers.py:155-186 | the outer loop returns the first acceptable link over all containers in order |
| NytScraper.LinkCandidateShape | src/scrapers.py:193-218 | an accepted link has a year segment /2024/, /2025/ or /2026/, a title longer than 10 taken from its text or its parent's heading, an absolutised URL and no time |
| NytScraper.ParseStrategy3 | src/scrapers.py:188-220 | the loop returns the first acceptable link among those with '/20' in the href |
| NytScraper.ParseTopArticle | src/scrapers.py:96-117 | the parser returns strategy 1's article, else strategy 2's, else strategy 3's |
| NytScraper.LaterStrategiesIgnored | src/scrapers.py:108-117 | once strategy 1 finds an article, the rest of the page cannot change the result |
| NytScraper.TopArticleShape | src/scrapers.py:119-220 | every returned URL absolutises the href, holding '/20', of an anchor of the page; a strategy 3 article comes from a page link with a year segment, has a title longer than 10 and no time |
| NytScraper.Strategy1Source | src/scrapers.py:126-151 | a strategy 1 article's URL absolutises a '/20' href of an anchor inside one of the page's lists |
| NytScraper.Strategy2Source | src/scrapers.py:158-184 | a strategy 2 article's URL absolutises a '/20' href of an anchor inside one of the page's containers |
| NytScraper.Strategy3Source | src/scrapers.py:193-218 | a strategy 3 article comes from a page link with a year segment, has a title longer than 10 and no time |
| NytScraper.TenCharacterLinkTextRejected | src/scrapers.py:200-209 | link text of exactly 10 characters is neither replaced by the parent heading nor accepted |
| NytScraper.ListTitleHasNoLengthCheck | src/scrapers.py:130-151 | strategy 1 accepts an empty title |
| RssScraper.EntryTimestamp | src/scrapers.py:367-378 | the time is the parsed published time, else the parsed updated time, else the raw published string, else the raw updated string |
| RssScraper.ParseTopArticle | src/scrapers.py:326-384 | no entries gives None; otherwise an article exists iff entry 0's stripped title and link are non-empty and the link is not the Washington Post home page, and it is built from entry 0 |
| RssScraper.OnlyFirstEntryMatters | src/scrapers.py:348-349 | entries after the first never change the result |
| RssScraper.BlankFieldsYieldNothing | src/scrapers.py:352-354 | a missing or all-whitespace title gives None |
| RssScraper.ArticleFieldsAreStripped | src/scrapers.py:352-359 | the returned title and URL are non-empty and neither starts nor ends with whitespace |
| GenericScraper.Resolve | src/scrapers.py:523 | the article's URL is urljoin of the page URL and the chosen href; title and time are the chosen ones |
| GenericScraper.ListBlocks | src/scrapers.py:505 | the blocks kept are those whose class mentions post, article or entry in any case, in document order, each as many times as it occurs |
| GenericScraper.ListCandidateShape | src/scrapers.py:506-533 | a block's pick is the first link `find` returns with an href longer than 5; if that href holds '#', 'mailto:', 'javascript:' or a share domain the block yields nothing; the title is the link's first h1..h5, else its text, and is longer than 10; the time is the block's |
| GenericScraper.ArticleCandidateShape | src/scrapers.py:537-556 | an article element's pick is its first long link; if that href holds '#', 'mailto:' or 'javascript:' the element yields nothing; the title is the element's heading, longer than 10, and the time the element's |
| GenericScraper.HeadingCandidateShape | src/scrapers.py:560-574 | a heading's pick is its first long link; if that href holds '#', 'mailto:' or 'javascript:' the heading yields nothing; the title is the heading text, longer than 10, with no time |
| GenericScraper.FirstHeadings | src/scrapers.py:559 | strategy 3 reads the first 10 headings in order, or all of them when there are fewer |
| GenericScraper.SearchBlock | src/scrapers.py:506-533 | the loop body on one block computes that block's candidate: its first long link unless refused, titled by its first h1..h5 or else its text |
| GenericScraper.ListStrategy | src/scrapers.py:504-533 | the first loop returns the first block's candidate, skipping blocks whose link is refused |
| GenericScraper.ArticleStrategy | src/scrapers.py:535-556 | the second loop returns the first article element's candidate |
| GenericScraper.HeadingStrategy | src/scrapers.py:558-574 | the third loop returns the first candidate among the first 10 headings |
| GenericScraper.ParseTopArticle | src/scrapers.py:491-576 | the parser returns the first strategy's pick, resolved against the page URL, or None |
| GenericScraper.TopPickShape | src/scrapers.py:511-568 | whichever strategy wins, the href holds no '#', 'mailto:' or 'javascript:' and the title is longer than 10 |
| GenericScraper.HeadingsAfterTenthIgnored | src/scrapers.py:559 | headings after the tenth never change the result |
| Scrapers.GetScraper | src/scrapers.py:613-635 | the feed rule wins, then the NYT rule, then the blog rule; an error naming the URL iff no rule matches |
| Scrapers.FeedRuleComesFirst | src/scrapers.py:626-629 | a URL ending in .xml is a feed even when it names a NYT reporter page |
| Scrapers.ConditionalHeaders | src/scrapers.py:62-66 | If-None-Match is sent iff the etag is non-empty, If-Modified-Since iff last_modified is non-empty, each with the caller's value, and nothing else |
| Scrapers.ScraperError.Message | src/scrapers.py:82-94 | the messages "HTTP <code>", "Request timeout after 15s" and "Request failed: <detail>" |
| Scrapers.Fetch | src/scrapers.py:42-94 | 304 gives no body and the caller's validators; 200 the body and the response's validators; another status an error naming it; timeouts and failures their errors |
| Scrapers.FetchPage | src/scrapers.py:42-94 | the method that fills the headers in place and dispatches on the reply computes Fetch |
| Scrapers.NotModifiedKeepsCallerValidators | src/scrapers.py:77-79 | a 304 hands back exactly the validators sent, not None |
| Scrapers.ScrapeResult | src/scrapers.py:222-254 | scrape fails iff the fetch fails, with its error, and always returns the fetch's validators |
| Scrapers.Scrape | src/scrapers.py:222-254 | the method computes ScrapeResult and runs the parser iff the fetch returned a body |
| Scrapers.NotModifiedSkipsParsing | src/scrapers.py:241-246 | on 304 every scraper returns no article and the caller's validators, whatever the body |
| Scrapers.FreshValidatorsReplaceOld | src/scrapers.py:86-89 | on 200 the result carries the parse of the body and the response's own validators |
| StateStore.LoadFrom | src/state_manager.py:27-47 | a missing file, a file `open` or `json.load` rejects, or a record without a required key loads as the fresh default for the id; a decodable record loads as its decoded state; a file that is not UTF-8 or a record that is not an object raises |
| StateStore.Stamp | src/state_manager.py:57-58 | saving sets last_checked to the current time with a 'Z' and changes nothing else |
| StateStore.Persist | src/state_manager.py:55-64 | a write touches only the state's own file: stored on success, unchanged if open fails, truncated JSON or, when the cut splits a character, invalid UTF-8 if it fails mid-write |
| StateStore.StateManager.constructor | src/state_manager.py:14-21 | the manager starts over the given directory content |
| StateStore.StateManager.LoadState | src/state_manager.py:27-47 | load_state returns LoadFrom's state or raises its error |
| StateStore.StateManager.SaveState | src/state_manager.py:49-64 | save_state stamps the state, writes only its own file, swallows a failed write and logs one save |
| StateStore.SaveThenLoad | src/state_manager.py:58-62 | loading after a successful save gives back the stamped state, every field included |
| StateStore.SaveLeavesOthers | src/state_manager.py:55-62 | saving one source never changes what another source loads |
| StateStore.TruncatedWriteLoadsFresh | src/state_manager.py:41-47 | after a write that fails mid-file the source loads as fresh, unless the cut split a character, when the load raises `UnicodeDecodeError` |
| StateStore.RecordWithoutIdLoadsFresh | src/state_manager.py:41-47 | a record lacking source_id, whose last_article is falsy or an object, loads as the fresh default |
| StateStore.NonObjectRecordRaises | src/models.py:62-69 | a record, or a truthy last_article, that is not a JSON object makes the load raise rather than start fresh |
| StateStore.LoadedIdIsRequested | src/state_manager.py:36-47 | the loaded state has the requested id unless its file names another |
| Notifications.Branding | src/notifications.py:83-91 | a nytimes.com URL gets the NYT glyph and black, else washingtonpost.com gets its glyph and 0x14171A, else the newspaper and blurple |
| Notifications.Payload | src/notifications.py:83-131 | one embed; the fields are Title, then URL as the markdown link "[View Article](<url>)", then Published iff the time is non-empty; a footer "Previous: <title>" iff there is a previous article; both headlines start with the site's glyph and name the source; the colour is the site's |
| Notifications.BuildMessage | src/notifications.py:72-131 | the method that appends fields and adds the footer in place builds Payload |
| Notifications.Send | src/notifications.py:33-70 | posts iff enabled, i.e. the webhook URL is non-empty; succeeds iff the post answers 204; every other status or error is False |
| Notifications.NytBrandingComesFirst | src/notifications.py:86-91 | a URL naming both sites gets the NYT branding |
| CheckArticles.OutcomeOf | check_articles.py:36-46 | an unsupported URL is an unexpected error; a scraper error carries its message; otherwise the scrape's article and validators |
| CheckArticles.Attempt | check_articles.py:36-46 | choosing a scraper and scraping, with raised errors caught, yields OutcomeOf |
| CheckArticles.Update | check_articles.py:48-122 | the in-place field updates compute Transition; a payload is posted iff enabled and the URL differs from an existing baseline |
| CheckArticles.Transition | check_articles.py:48-122 | an error adds 1 to error_count and sets last_error, leaving baseline and validators; a return replaces the validators; no article keeps the error fields; an article resets them and becomes the baseline unless the URL is the same |
| CheckArticles.CheckSource | check_articles.py:13-122 | a load error escapes with no save and no post; otherwise one save on every path, of the stamped transition; success iff scraping returned; a payload is posted iff enabled and the URL differs from an existing baseline |
| CheckArticles.SuccessCount | check_articles.py:165-166 | the success count is the number of true results, and the fail count the number of false ones |
| CheckArticles.NoSuccessIffAllFailed | check_articles.py:165-166 | no success iff every check failed |
| CheckArticles.ExitCode | check_articles.py:180-186 | the status is 1 iff there was a check and all failed, else 0 |
| CheckArticles.RunChecks | check_articles.py:125-190 | no enabled source gives 0; sources are checked and saved once each, in order; a load error ends the run with 1 and the rest unchecked; otherwise the status is 1 iff all checks failed |
| CheckArticles.ConsecutiveFailures | check_articles.py:108-122 | n failures in a row add n to error_count and keep the baseline and validators |
| CheckArticles.BaselinePersists | check_articles.py:66-101 | once a baseline exists no outcome clears it |
| CheckArticles.SameArticleNotifiesOnce | check_articles.py:66-101 | the same article seen twice in a row does not notify the second time |
| CheckArticles.RetitledArticleKeepsBaseline | check_articles.py:95-101 | a same-URL article with another title keeps the stored baseline and does not notify |
| CheckArticles.NotificationScenarios | test_notification_logic.py:69-119 | first run records a baseline without notifying; same URL is quiet; a new URL notifies and replaces; not-modified is quiet and keeps the baseline |

## Left out

- The HTTP layer (sessions, timeouts, redirects, user agent): a fetch is a function from URL and request headers to a reply, and the webhook a function from payload to outcome. A run therefore sees one reply per URL and headers.
- The politeness sleep after parsing: `Scrapers.Scrape` only reports whether the parser ran, which is when the sleep happens.
- BeautifulSoup and feedparser: a page is the results of the queries the strategies make, and a feed is its entries. Parser exceptions inside `scrape` are not modelled.
- `urlparse` and `urljoin`: the URL path is part of the source entry, and `urljoin` is an input.
- `time.strftime` on parsed feed times and `datetime.utcnow()`: feed times are given as formatted strings and the save time as an input string.
- JSON encoding and the file system: the state directory is a map from source id to file content, with unreadable content as its own case. Reading the configuration file, the fatal path of `main` (a configuration that cannot be read, a source without `url`) and `get_notifier`'s environment lookup are not modelled.
- All logging with `print`, and the summary `main` prints.
- Text.Lower: lower-cases ASCII letters only, because Python's full Unicode case mapping has no counterpart here. This affects the '/rss/' test of `Scrapers.GetScraper` and the skip lists and class filter of `GenericScraper`.
- Json.Value: numbers are integers, because the state records only hold integer counts.
- Models.StateFromDict: a field of another JSON type than expected (a null or non-string title, a non-integer error_count) is a decode error and loads as fresh, because Python would keep such a value. A record or `last_article` that is not an object is the exception: its error escapes `load_state` (`StateStore.NonObjectRecordRaises`).
- Models.Article.Equals: compares articles with articles only, because comparing an article with another type never happens in the core.
- Scrapers.FetchPage: one method stands for the three identical `fetch_page`/`fetch_feed` methods (src/scrapers.py:42-94, 272-324, 437-489).
- CheckArticles.RunChecks: states how many saves happen, when the run aborts and the exit-code rule, but not how each result relates to that source's outcome, because that would mean replaying the store across all earlier sources.
