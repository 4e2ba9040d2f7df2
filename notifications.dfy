/** `DiscordNotifier` (src/notifications.py): the webhook payload for a new
    article and the decision whether a post succeeded. */
module Notifications {
  import opened Wrappers
  import opened Text
  import opened Models

  /** A notifier and its webhook URL (`None` when none is configured; reading
      it from the environment is not part of this model). */
  datatype Notifier = Notifier(webhookUrl: Option<string>) {
    /** `is_enabled()`: a non-empty webhook URL is configured. */
    predicate IsEnabled() {
      webhookUrl.Some? && webhookUrl.value != ""
    }
  }

  /** The site glyphs: newspaper, Statue of Liberty, classical building. */
  const NewspaperEmoji := "\U{1F4F0}"
  const LibertyEmoji := "\U{1F5FD}"
  const CapitolEmoji := "\U{1F3DB}\U{FE0F}"

  /** The embed colours: Discord blurple, black, dark slate. */
  const DefaultColor := 0x5865F2
  const NytColor := 0x000000
  const WapoColor := 0x14171A

  /** One embed field; every field here is not inline. */
  datatype Field = Field(name: string, value: string, inline: bool)

  /** The embed; `footer` is the footer text, absent when there is none. */
  datatype Embed = Embed(title: string, color: int, fields: seq<Field>, footer: Option<string>)

  /** The JSON payload posted to the webhook. */
  datatype Message = Message(content: string, embeds: seq<Embed>)

  /** The branding of an article: glyph and colour by the site in its URL,
      New York Times first. */
  function Branding(url: string): (b: (string, int))
    ensures Contains(url, "nytimes.com") ==> b == (LibertyEmoji, NytColor)
    ensures !Contains(url, "nytimes.com") && Contains(url, "washingtonpost.com") ==> b == (CapitolEmoji, WapoColor)
    ensures !Contains(url, "nytimes.com") && !Contains(url, "washingtonpost.com") ==> b == (NewspaperEmoji, DefaultColor)
  {
    if Contains(url, "nytimes.com") then (LibertyEmoji, NytColor)
    else if Contains(url, "washingtonpost.com") then (CapitolEmoji, WapoColor)
    else (NewspaperEmoji, DefaultColor)
  }

  /** The payload for a new article: one embed whose fields are Title, then
      URL as a markdown link, then Published exactly when the article has a
      non-empty time; a footer naming the previous title exactly when there
      is a previous article; both headlines open with the site's glyph and
      name the source, and the colour is the site's. */
  function Payload(sourceId: string, article: Article, previous: Option<Article>): (m: Message)
    ensures |m.embeds| == 1
    ensures Contains(m.content, sourceId) && Contains(m.embeds[0].title, sourceId)
    ensures var fs := m.embeds[0].fields;
            && 2 <= |fs| <= 3
            && fs[0] == Field("Title", article.title, false)
            && fs[1] == Field("URL", "[View Article](" + article.url + ")", false)
            && (|fs| == 3 <==> article.publishedTime.Some? && article.publishedTime.value != "")
            && (|fs| == 3 ==> fs[2] == Field("Published", article.publishedTime.value, false))
    ensures m.embeds[0].footer.Some? <==> previous.Some?
    ensures previous.Some? ==> m.embeds[0].footer == Some("Previous: " + previous.value.title)
    ensures StartsWith(m.content, Branding(article.url).0) && StartsWith(m.embeds[0].title, Branding(article.url).0)
    ensures m.embeds[0].color == Branding(article.url).1
  {
    var (emoji, color) := Branding(article.url);
    var base := [Field("Title", article.title, false), Field("URL", "[View Article](" + article.url + ")", false)];
    var fields :=
      if article.publishedTime.Some? && article.publishedTime.value != "" then
        base + [Field("Published", article.publishedTime.value, false)]
      else base;
    var footer := if previous.Some? then Some("Previous: " + previous.value.title) else None;
    ContainsPart(emoji + " New article from ", sourceId, "");
    assert emoji + " New article from " + sourceId + "" == emoji + " New article from " + sourceId;
    ContainsPart(emoji + " New Article: ", sourceId, "");
    assert emoji + " New Article: " + sourceId + "" == emoji + " New Article: " + sourceId;
    Message(emoji + " New article from " + sourceId,
            [Embed(emoji + " New Article: " + sourceId, color, fields, footer)])
  }

  /** `_build_message`: the fields list is built and extended in place and
      the footer added to the embed afterwards. */
  method BuildMessage(sourceId: string, article: Article, previous: Option<Article>) returns (m: Message)
    ensures m == Payload(sourceId, article, previous)
  {
    var emoji := NewspaperEmoji;
    var color := DefaultColor;
    if Contains(article.url, "nytimes.com") {
      emoji := LibertyEmoji;
      color := NytColor;
    } else if Contains(article.url, "washingtonpost.com") {
      emoji := CapitolEmoji;
      color := WapoColor;
    }
    var fields := [Field("Title", article.title, false), Field("URL", "[View Article](" + article.url + ")", false)];
    if article.publishedTime.Some? && article.publishedTime.value != "" {
      fields := fields + [Field("Published", article.publishedTime.value, false)];
    }
    var embed := Embed(emoji + " New Article: " + sourceId, color, fields, None);
    if previous.Some? {
      embed := embed.(footer := Some("Previous: " + previous.value.title));
    }
    m := Message(emoji + " New article from " + sourceId, [embed]);
  }

  /** How the POST to the webhook ends: a response with its status, a
      `requests` exception, or any other exception. */
  datatype PostOutcome = Status(code: int) | RequestError(message: string) | OtherError(message: string)

  /** The webhook, as a function of the payload. */
  type Webhook = Message -> PostOutcome

  /** `send(source_id, article, previous)`: posts at most once, only when
      enabled, and reports success exactly on a 204; no outcome escapes as
      an error. `posted` is the payload sent, if any. */
  method Send(notifier: Notifier, webhook: Webhook, sourceId: string, article: Article, previous: Option<Article>)
    returns (ok: bool, posted: Option<Message>)
    ensures posted.Some? <==> notifier.IsEnabled()
    ensures posted.Some? ==> posted.value == Payload(sourceId, article, previous)
    ensures ok <==> posted.Some? && webhook(posted.value) == Status(204)
  {
    if !notifier.IsEnabled() {
      return false, None;
    }
    var message := BuildMessage(sourceId, article, previous);
    var outcome := webhook(message);
    match outcome {
      case Status(code) =>
        ok := code == 204;
      case RequestError(_) =>
        ok := false;
      case OtherError(_) =>
        ok := false;
    }
    posted := Some(message);
  }

  /** A New York Times article keeps its branding even when its URL also
      mentions the Washington Post. */
  lemma NytBrandingComesFirst(prefix: string, middle: string, suffix: string)
    ensures Branding(prefix + "nytimes.com" + middle + "washingtonpost.com" + suffix) == (LibertyEmoji, NytColor)
  {
    ContainsPart(prefix, "nytimes.com", middle + "washingtonpost.com" + suffix);
    assert prefix + "nytimes.com" + (middle + "washingtonpost.com" + suffix)
        == prefix + "nytimes.com" + middle + "washingtonpost.com" + suffix;
  }
}
