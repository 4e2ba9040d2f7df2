/** Source identity and the enabled-source filter (src/config.py). Reading
    the configuration file is not part of this model: the source list is
    given. */
module Config {
  import opened Wrappers
  import opened Json
  import opened Text
  import opened Sequences

  /** A source URL as written, with the path component `urlparse` gives for
      it (`urlparse` itself is not part of this model). */
  datatype Url = Url(text: string, path: string)

  /** One entry of the `sources` list: its URL and the value of its
      `enabled` key, `None` when the key is absent. */
  datatype SourceEntry = SourceEntry(url: Url, enabled: Option<Value>)

  /** The id of a source whose path has no segment. */
  const UnknownId := "unknown"

  /** `Config.extract_source_id`: the last '/'-separated segment of the path
      once trailing slashes are stripped, or "unknown" when nothing is left. */
  function ExtractSourceId(url: Url): (id: string)
    ensures id != "" && '/' !in id
    ensures RStripChar(url.path, '/') == "" ==> id == UnknownId
    ensures var p := RStripChar(url.path, '/');
            p != "" ==> |id| <= |p| && id == p[|p| - |id|..] && (|id| < |p| ==> p[|p| - |id| - 1] == '/')
  {
    var p := RStripChar(url.path, '/');
    if p != "" then LastSegment(p, '/') else UnknownId
  }

  /** Trailing slashes on the path never change the id. */
  lemma TrailingSlashesIgnored(url: Url, k: nat)
    ensures ExtractSourceId(url.(path := url.path + Repeat('/', k))) == ExtractSourceId(url)
  {
    RStripCharRepeat(url.path, '/', k);
  }

  /** An empty path, or one made only of slashes, gives "unknown". */
  lemma SlashOnlyPathIsUnknown(url: Url)
    requires forall i :: 0 <= i < |url.path| ==> url.path[i] == '/'
    ensures ExtractSourceId(url) == UnknownId
  {
  }

  /** `s.get('enabled', True)`: an absent key counts as enabled. */
  predicate IsEnabled(s: SourceEntry) {
    s.enabled.None? || Truthy(s.enabled.value)
  }

  /** `Config.get_enabled_sources`: the enabled entries, in their order, each
      as many times as it occurs. */
  function GetEnabledSources(sources: seq<SourceEntry>): (r: seq<SourceEntry>)
    ensures IsSubsequence(r, sources)
    ensures forall s :: s in r ==> IsEnabled(s)
    ensures forall s :: multiset(r)[s] == if IsEnabled(s) then multiset(sources)[s] else 0
  {
    if sources == [] then []
    else
      var rest := GetEnabledSources(sources[1..]);
      assert sources == [sources[0]] + sources[1..];
      if IsEnabled(sources[0]) then [sources[0]] + rest else rest
  }

  /** A source is kept exactly when it is listed and enabled. */
  lemma EnabledMembership(sources: seq<SourceEntry>, s: SourceEntry)
    ensures s in GetEnabledSources(sources) <==> s in sources && IsEnabled(s)
  {
    var r := GetEnabledSources(sources);
    assert s in r <==> multiset(r)[s] > 0;
    assert s in sources <==> multiset(sources)[s] > 0;
  }
}
