/** `check_source` and the exit-code rule of `main` (check_articles.py): the
    per-source change detector and the run over all enabled sources. */
module CheckArticles {
  import opened Wrappers
  import opened Models
  import opened StateStore
  import opened Notifications
  import Config
  import Scrapers
  import GenericScraper

  /** How `get_scraper(...)` followed by `scrape(...)` ends: it returns an
      article (or `None`) with validators, raises `ScraperError`, or raises
      anything else (here: the `ValueError` of an unsupported URL). */
  datatype Outcome =
    | Returned(article: Option<Article>, etag: Option<string>, lastModified: Option<string>)
    | ScraperRaised(message: string)
    | OtherRaised(message: string)

  /** Everything outside the process: the network, the webhook, and
      `urljoin` for the generic scraper. */
  datatype Environment = Environment(web: Scrapers.Web, webhook: Webhook, urljoin: GenericScraper.UrlJoin)

  /** The outcome of choosing a scraper for `url` and scraping it with the
      stored validators. */
  function OutcomeOf(url: string, etag: Option<string>, lastModified: Option<string>, env: Environment): (o: Outcome)
    ensures Scrapers.GetScraper(url).Err? ==> o == OtherRaised(Scrapers.GetScraper(url).error)
    ensures Scrapers.GetScraper(url).Ok? ==>
              var r := Scrapers.ScrapeResult(Scrapers.GetScraper(url).value, url, etag, lastModified, env.web, env.urljoin);
              && (r.Err? ==> o == ScraperRaised(r.error.Message()))
              && (r.Ok? ==> o == Returned(r.value.article, r.value.etag, r.value.lastModified))
  {
    match Scrapers.GetScraper(url)
    case Err(message) => OtherRaised(message)
    case Ok(kind) =>
      match Scrapers.ScrapeResult(kind, url, etag, lastModified, env.web, env.urljoin)
      case Err(e) => ScraperRaised(e.Message())
      case Ok(s) => Returned(s.article, s.etag, s.lastModified)
  }

  /** The change `check_source` makes to the loaded state for an outcome,
      before `save_state` stamps it. */
  function Transition(s: SourceState, o: Outcome): (t: SourceState)
    ensures t.sourceId == s.sourceId && t.lastChecked == s.lastChecked
    // A raised error: one more error, its message, nothing else touched.
    ensures !o.Returned? ==> t.errorCount == s.errorCount + 1 && t.lastArticle == s.lastArticle
                             && t.etag == s.etag && t.lastModified == s.lastModified
    ensures o.ScraperRaised? ==> t.lastError == Some(o.message)
    ensures o.OtherRaised? ==> t.lastError == Some("Unexpected: " + o.message)
    // A return: the validators are replaced, found article or not.
    ensures o.Returned? ==> t.etag == o.etag && t.lastModified == o.lastModified
    // No article: baseline and error fields kept.
    ensures o.Returned? && o.article.None? ==>
              t.lastArticle == s.lastArticle && t.errorCount == s.errorCount && t.lastError == s.lastError
    // An article: the error fields reset, and the baseline is the stored
    // article when it has the same URL, the new one otherwise.
    ensures o.Returned? && o.article.Some? ==> t.errorCount == 0 && t.lastError.None?
    ensures o.Returned? && o.article.Some? && s.lastArticle.Some? && s.lastArticle.value.Equals(o.article.value) ==>
              t.lastArticle == s.lastArticle
    ensures o.Returned? && o.article.Some? && (s.lastArticle.None? || !s.lastArticle.value.Equals(o.article.value)) ==>
              t.lastArticle == o.article
    // A baseline, once set, is never cleared.
    ensures s.lastArticle.Some? ==> t.lastArticle.Some?
  {
    match o
    case ScraperRaised(message) =>
      s.(errorCount := s.errorCount + 1, lastError := Some(message))
    case OtherRaised(message) =>
      s.(errorCount := s.errorCount + 1, lastError := Some("Unexpected: " + message))
    case Returned(article, etag, lastModified) =>
      var updated := s.(etag := etag, lastModified := lastModified);
      if article.None? then updated
      else if s.lastArticle.None? || !s.lastArticle.value.Equals(article.value) then
        updated.(lastArticle := article, errorCount := 0, lastError := None)
      else updated.(errorCount := 0, lastError := None)
  }

  /** The outcome is a new article: there is a baseline and the URL differs. */
  predicate Notifies(s: SourceState, o: Outcome) {
    o.Returned? && o.article.Some? && s.lastArticle.Some? && !s.lastArticle.value.Equals(o.article.value)
  }

  /** The `try` block of `check_source` up to the return of `scrape`: choose
      a scraper and scrape with the stored validators; what is raised is
      caught as an outcome. */
  method Attempt(url: string, etag: Option<string>, lastModified: Option<string>, env: Environment)
    returns (o: Outcome)
    ensures o == OutcomeOf(url, etag, lastModified, env)
  {
    var kind := Scrapers.GetScraper(url);
    if kind.Err? {
      return OtherRaised(kind.error);
    }
    var scraped, _ := Scrapers.Scrape(kind.value, url, etag, lastModified, env.web, env.urljoin);
    if scraped.Err? {
      return ScraperRaised(scraped.error.Message());
    }
    return Returned(scraped.value.article, scraped.value.etag, scraped.value.lastModified);
  }

  /** The field-by-field updates `check_source` makes to the loaded state
      for an outcome, and the notification it sends for a new article. */
  method Update(state: SourceState, o: Outcome, sourceId: string, notifier: Notifier, webhook: Webhook)
    returns (next: SourceState, posted: Option<Message>)
    ensures next == Transition(state, o)
    ensures posted.Some? <==> notifier.IsEnabled() && Notifies(state, o)
    ensures posted.Some? ==> posted.value == Payload(sourceId, o.article.value, state.lastArticle)
  {
    next := state;
    posted := None;
    match o {
      case ScraperRaised(message) =>
        next := next.(errorCount := next.errorCount + 1);
        next := next.(lastError := Some(message));
      case OtherRaised(message) =>
        next := next.(errorCount := next.errorCount + 1);
        next := next.(lastError := Some("Unexpected: " + message));
      case Returned(article, etag, lastModified) =>
        next := next.(etag := etag);
        next := next.(lastModified := lastModified);
        if article.Some? {
          if next.lastArticle.None? {
            next := next.(lastArticle := article);
          } else if !next.lastArticle.value.Equals(article.value) {
            if notifier.IsEnabled() {
              var _, sent := Send(notifier, webhook, sourceId, article.value, next.lastArticle);
              posted := sent;
            }
            next := next.(lastArticle := article);
          }
          next := next.(errorCount := 0);
          next := next.(lastError := None);
        }
    }
  }

  /** `check_source(source, state_manager, notifier)`. `now` is the clock at
      the save and `w` how the write ends. When loading the state raises,
      which happens before the `try`, the error escapes and nothing else
      happens. Otherwise the loaded state is updated and saved exactly once
      on every path; the check succeeds exactly when scraping returned; a
      payload is posted at most once, only for a new article and only when
      the notifier is enabled. */
  method CheckSource(source: Config.SourceEntry, store: StateManager, notifier: Notifier, env: Environment,
                     now: string, w: WriteOutcome)
    returns (checked: Result<bool, LoadError>, posted: Option<Message>)
    modifies store
    ensures var loaded := LoadFrom(old(store.files), Config.ExtractSourceId(source.url));
            loaded.Err? ==> && checked == Err(loaded.error) && posted.None?
                            && store.files == old(store.files) && store.saved == old(store.saved)
    ensures var id := Config.ExtractSourceId(source.url);
            var loaded := LoadFrom(old(store.files), id);
            loaded.Ok? ==>
              var before := loaded.value;
              var o := OutcomeOf(source.url.text, before.etag, before.lastModified, env);
              var after := Stamp(Transition(before, o), now);
              && store.saved == old(store.saved) + [after]
              && store.files == Persist(old(store.files), after, w)
              && checked == Ok(o.Returned?)
              && (posted.Some? <==> notifier.IsEnabled() && Notifies(before, o))
              && (posted.Some? ==> posted.value == Payload(id, o.article.value, before.lastArticle))
  {
    var id := Config.ExtractSourceId(source.url);
    var loaded := store.LoadState(id);
    if loaded.Err? {
      return Err(loaded.error), None;
    }
    var state := loaded.value;
    var outcome := Attempt(source.url.text, state.etag, state.lastModified, env);
    var updated;
    updated, posted := Update(state, outcome, id, notifier, env.webhook);
    var _ := store.SaveState(updated, now, w);
    checked := Ok(outcome.Returned?);
  }

  /** `sum(1 for _, success in results if success)`. */
  function SuccessCount(results: seq<bool>): (n: nat)
    ensures n == multiset(results)[true]
    ensures |results| - n == multiset(results)[false]
  {
    if results == [] then 0
    else
      var init := results[..|results| - 1];
      assert results == init + [results[|results| - 1]];
      SuccessCount(init) + (if results[|results| - 1] then 1 else 0)
  }

  /** No check succeeded exactly when every check failed. */
  lemma {:induction false} NoSuccessIffAllFailed(results: seq<bool>)
    ensures SuccessCount(results) == 0 <==> forall i :: 0 <= i < |results| ==> !results[i]
  {
    if results != [] {
      var init := results[..|results| - 1];
      NoSuccessIffAllFailed(init);
      assert forall i :: 0 <= i < |init| ==> init[i] == results[i];
    }
  }

  /** The exit status of `main` for the checks' results: 1 exactly when
      there was at least one check and all of them failed. */
  function ExitCode(results: seq<bool>): (code: int)
    ensures code == 0 || code == 1
    ensures code == 1 <==> results != [] && forall i :: 0 <= i < |results| ==> !results[i]
  {
    NoSuccessIffAllFailed(results);
    if results == [] then 0
    else if |results| - SuccessCount(results) == |results| then 1
    else 0
  }

  /** `main`, from the configured sources on: checks every enabled source in
      order, source `i` saved at `clock(i)` with write outcome `disk(i)`,
      and returns the exit status with the results of the checks made.
      An error escaping `check_source` reaches `main`'s `except Exception`:
      the status is 1 and the remaining sources are not checked. */
  method RunChecks(sources: seq<Config.SourceEntry>, store: StateManager, notifier: Notifier, env: Environment,
                   clock: nat -> string, disk: nat -> WriteOutcome)
    returns (code: int, results: seq<bool>)
    modifies store
    ensures var enabled := Config.GetEnabledSources(sources);
            && |results| <= |enabled|
            && |store.saved| == |old(store.saved)| + |results|
            && (|results| == |enabled| ==> code == ExitCode(results))
            && (|results| < |enabled| ==>
                  code == 1 && LoadFrom(store.files, Config.ExtractSourceId(enabled[|results|].url)).Err?)
    ensures Config.GetEnabledSources(sources) == [] ==> code == 0 && results == []
    ensures code == 1 <==> |results| < |Config.GetEnabledSources(sources)|
                           || (results != [] && forall i :: 0 <= i < |results| ==> !results[i])
  {
    var enabled := Config.GetEnabledSources(sources);
    if enabled == [] {
      return 0, [];
    }
    results := [];
    var i := 0;
    while i < |enabled|
      invariant 0 <= i <= |enabled| && |results| == i
      invariant |store.saved| == |old(store.saved)| + i
    {
      var checked, _ := CheckSource(enabled[i], store, notifier, env, clock(i), disk(i));
      if checked.Err? {
        return 1, results;
      }
      results := results + [checked.value];
      i := i + 1;
    }
    var successCount := SuccessCount(results);
    var failCount := |results| - successCount;
    NoSuccessIffAllFailed(results);
    if failCount == |results| {
      return 1, results;
    }
    return 0, results;
  }

  /** The state after a series of runs with the given outcomes (saves and
      their stamps aside). */
  function Replay(s: SourceState, os: seq<Outcome>): SourceState
    decreases |os|
  {
    if os == [] then s else Replay(Transition(s, os[0]), os[1..])
  }

  /** Consecutive failures count up one by one and leave the baseline and
      the validators alone. */
  lemma {:induction false} ConsecutiveFailures(s: SourceState, os: seq<Outcome>)
    requires forall i :: 0 <= i < |os| ==> !os[i].Returned?
    ensures Replay(s, os).errorCount == s.errorCount + |os|
    ensures Replay(s, os).lastArticle == s.lastArticle
    ensures Replay(s, os).etag == s.etag && Replay(s, os).lastModified == s.lastModified
    decreases |os|
  {
    if os != [] {
      ConsecutiveFailures(Transition(s, os[0]), os[1..]);
    }
  }

  /** Once a baseline exists, no series of outcomes removes it. */
  lemma {:induction false} BaselinePersists(s: SourceState, os: seq<Outcome>)
    requires s.lastArticle.Some?
    ensures Replay(s, os).lastArticle.Some?
    decreases |os|
  {
    if os != [] {
      BaselinePersists(Transition(s, os[0]), os[1..]);
    }
  }

  /** The same article seen twice in a row notifies at most the first time. */
  lemma SameArticleNotifiesOnce(s: SourceState, a: Article, etag: Option<string>, lastModified: Option<string>)
    ensures !Notifies(Transition(s, Returned(Some(a), etag, lastModified)), Returned(Some(a), etag, lastModified))
  {
  }

  /** After a new article is recorded, a later sighting of an article with
      the same URL (even retitled) keeps the recorded one. */
  lemma RetitledArticleKeepsBaseline(s: SourceState, a: Article, b: Article, o1: Outcome, o2: Outcome)
    requires o1 == Returned(Some(a), None, None) && o2 == Returned(Some(b), None, None) && a.url == b.url
    ensures Transition(Transition(s, o1), o2).lastArticle == Transition(s, o1).lastArticle
    ensures !Notifies(Transition(s, o1), o2)
  {
  }

  /** The four decision scenarios of the notification walkthrough: first
      run, same URL, new URL, not modified. */
  lemma NotificationScenarios()
    ensures var a1 := Article("First Article", "https://example.com/article-1", Some("2025-01-28T10:00:00Z"));
            var first := Returned(Some(a1), None, None);
            !Notifies(FreshState("test-1"), first) && Transition(FreshState("test-1"), first).lastArticle == Some(a1)
    ensures var old1 := Article("Old Article", "https://example.com/article-1", Some("2025-01-28T10:00:00Z"));
            var s := FreshState("test-2").(lastArticle := Some(old1));
            !Notifies(s, Returned(Some(old1), None, None))
    ensures var old1 := Article("Old Article", "https://example.com/article-1", Some("2025-01-28T10:00:00Z"));
            var new2 := Article("New Article", "https://example.com/article-2", Some("2025-01-28T12:00:00Z"));
            var s := FreshState("test-3").(lastArticle := Some(old1));
            Notifies(s, Returned(Some(new2), None, None))
            && Transition(s, Returned(Some(new2), None, None)).lastArticle == Some(new2)
    ensures var old1 := Article("Old Article", "https://example.com/article-1", Some("2025-01-28T10:00:00Z"));
            var s := FreshState("test-4").(lastArticle := Some(old1));
            !Notifies(s, Returned(None, None, None))
            && Transition(s, Returned(None, None, None)).lastArticle == Some(old1)
  {
    assert "https://example.com/article-1" != "https://example.com/article-2" by {
      assert "https://example.com/article-1"[28] != "https://example.com/article-2"[28];
    }
  }
}
