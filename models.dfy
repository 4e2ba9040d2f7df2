/** The article and per-source state records, and their dictionary form
    (src/models.py). */
module Models {
  import opened Wrappers
  import opened Json

  /** One item of a listing. */
  datatype Article = Article(title: string, url: string, publishedTime: Option<string>) {

    /** `Article.__eq__`: the URL alone decides identity. */
    predicate Equals(other: Article) {
      url == other.url
    }

    /** `Article.to_dict`. */
    function ToDict(): Value {
      Obj(map["title" := Str(title), "url" := Str(url), "published_time" := Nullable(publishedTime)])
    }
  }

  /** The persisted baseline of one monitored source. */
  datatype SourceState = SourceState(
    sourceId: string,
    lastArticle: Option<Article>,
    lastChecked: Option<string>,
    etag: Option<string>,
    lastModified: Option<string>,
    errorCount: int,
    lastError: Option<string>)
  {
    /** `SourceState.to_dict`. */
    function ToDict(): Value {
      Obj(map[
        "source_id" := Str(sourceId),
        "last_article" := if lastArticle.Some? then lastArticle.value.ToDict() else Null,
        "last_checked" := Nullable(lastChecked),
        "etag" := Nullable(etag),
        "last_modified" := Nullable(lastModified),
        "error_count" := Num(errorCount),
        "last_error" := Nullable(lastError)])
    }
  }

  /** `SourceState(source_id=id)`: the constructor's defaults. */
  function FreshState(sourceId: string): SourceState {
    SourceState(sourceId, None, None, None, None, 0, None)
  }

  /** Why a record does not decode. `KeyError` is `MissingKey`; a record that
      is not an object, or a field of the wrong JSON type, is the rest. */
  datatype DecodeError = NotAnObject | MissingKey(key: string) | WrongType(key: string)

  /** An optional string as JSON: `None` is `null`. */
  function Nullable(o: Option<string>): Value {
    if o.Some? then Str(o.value) else Null
  }

  /** The optional string `o` is what `data.get(key)` reads from `f`. */
  predicate ReadsAs(f: map<string, Value>, key: string, o: Option<string>) {
    && (o.None? <==> key !in f || f[key] == Null)
    && (o.Some? ==> key in f && f[key] == Str(o.value))
  }

  /** `data.get(key)` finds what an optional string field may hold: nothing,
      `null` or a string. */
  predicate OptionalStr(f: map<string, Value>, key: string) {
    key !in f || f[key].Null? || f[key].Str?
  }

  /** `data[key]` where a string is expected. */
  function Required(f: map<string, Value>, key: string): (r: Result<string, DecodeError>)
    ensures key !in f ==> r == Err(MissingKey(key))
    ensures r.Ok? ==> key in f && f[key] == Str(r.value)
  {
    if key !in f then Err(MissingKey(key))
    else if f[key].Str? then Ok(f[key].s)
    else Err(WrongType(key))
  }

  /** `data.get(key)` where a string or `None` is expected. */
  function Optional(f: map<string, Value>, key: string): (r: Result<Option<string>, DecodeError>)
    ensures r.Ok? ==> ReadsAs(f, key, r.value)
    ensures r.Err? ==> key in f && !f[key].Null? && !f[key].Str?
  {
    if key !in f || f[key].Null? then Ok(None)
    else if f[key].Str? then Ok(Some(f[key].s))
    else Err(WrongType(key))
  }

  /** `Article.from_dict`: `title` and `url` are mandatory, `published_time`
      defaults to `None`. */
  function ArticleFromDict(v: Value): (r: Result<Article, DecodeError>)
    ensures !v.Obj? ==> r == Err(NotAnObject)
    ensures v.Obj? && "title" !in v.fields ==> r == Err(MissingKey("title"))
    ensures v.Obj? && "title" in v.fields && "url" !in v.fields ==> r == Err(MissingKey("url"))
    ensures r.Ok? ==> v.Obj? && v.fields["title"] == Str(r.value.title) && v.fields["url"] == Str(r.value.url)
    ensures r.Ok? ==> ReadsAs(v.fields, "published_time", r.value.publishedTime)
    // Decoding succeeds exactly for an object with string title and url whose
    // published_time, if present, is null or a string.
    ensures r.Ok? <==> v.Obj? && "title" in v.fields && v.fields["title"].Str?
                       && "url" in v.fields && v.fields["url"].Str?
                       && OptionalStr(v.fields, "published_time")
  {
    if !v.Obj? then Err(NotAnObject)
    else
      var f := v.fields;
      if "title" !in f then Err(MissingKey("title"))
      else if "url" !in f then Err(MissingKey("url"))
      else
        var title :- Required(f, "title");
        var url :- Required(f, "url");
        var publishedTime :- Optional(f, "published_time");
        Ok(Article(title, url, publishedTime))
  }

  /** `SourceState.from_dict`: `source_id` is mandatory, `last_article` is
      decoded only when truthy, `error_count` defaults to 0 and the other
      fields to `None`. */
  function StateFromDict(v: Value): (r: Result<SourceState, DecodeError>)
    ensures !v.Obj? ==> r == Err(NotAnObject)
    ensures v.Obj? && "source_id" !in v.fields ==> r.Err?
    ensures r.Ok? ==> v.Obj? && v.fields["source_id"] == Str(r.value.sourceId)
    ensures r.Ok? ==> (r.value.lastArticle.None? <==>
                         "last_article" !in v.fields || !Truthy(v.fields["last_article"]))
    ensures r.Ok? && r.value.lastArticle.Some? ==>
              ArticleFromDict(v.fields["last_article"]) == Ok(r.value.lastArticle.value)
    ensures r.Ok? ==> ReadsAs(v.fields, "last_checked", r.value.lastChecked)
                      && ReadsAs(v.fields, "etag", r.value.etag)
                      && ReadsAs(v.fields, "last_modified", r.value.lastModified)
                      && ReadsAs(v.fields, "last_error", r.value.lastError)
    ensures r.Ok? ==> ("error_count" !in v.fields ==> r.value.errorCount == 0)
                      && ("error_count" in v.fields ==> v.fields["error_count"] == Num(r.value.errorCount))
    // Decoding succeeds exactly for an object with a string source_id, a
    // falsy or decodable last_article, optional string fields that are
    // absent, null or strings, and an error_count that is absent or a number.
    ensures r.Ok? <==> && v.Obj? && "source_id" in v.fields && v.fields["source_id"].Str?
                       && ("last_article" in v.fields && Truthy(v.fields["last_article"]) ==>
                             ArticleFromDict(v.fields["last_article"]).Ok?)
                       && OptionalStr(v.fields, "last_checked") && OptionalStr(v.fields, "etag")
                       && OptionalStr(v.fields, "last_modified") && OptionalStr(v.fields, "last_error")
                       && ("error_count" !in v.fields || v.fields["error_count"].Num?)
  {
    if !v.Obj? then Err(NotAnObject)
    else
      var f := v.fields;
      var lastArticle :-
        if "last_article" in f && Truthy(f["last_article"]) then
          var a :- ArticleFromDict(f["last_article"]);
          Ok(Some(a))
        else Ok(None);
      var sourceId :- Required(f, "source_id");
      var lastChecked :- Optional(f, "last_checked");
      var etag :- Optional(f, "etag");
      var lastModified :- Optional(f, "last_modified");
      var errorCount :-
        if "error_count" !in f then Ok(0)
        else if f["error_count"].Num? then Ok(f["error_count"].n)
        else Err(WrongType("error_count"));
      var lastError :- Optional(f, "last_error");
      Ok(SourceState(sourceId, lastArticle, lastChecked, etag, lastModified, errorCount, lastError))
  }

  /** Equality compares URLs only: title and timestamp drift are ignored. */
  lemma EqualsIsUrlIdentity(t1: string, t2: string, u1: string, u2: string, p1: Option<string>, p2: Option<string>)
    ensures Article(t1, u1, p1).Equals(Article(t2, u2, p2)) <==> u1 == u2
  {
  }

  /** Article equality is an equivalence relation. */
  lemma EqualsIsEquivalence()
    ensures forall a: Article :: a.Equals(a)
    ensures forall a: Article, b: Article :: a.Equals(b) ==> b.Equals(a)
    ensures forall a: Article, b: Article, c: Article :: a.Equals(b) && b.Equals(c) ==> a.Equals(c)
  {
  }

  /** Decoding an encoded article gives it back, field by field. */
  lemma ArticleRoundTrip(a: Article)
    ensures ArticleFromDict(a.ToDict()) == Ok(a)
  {
    var f := a.ToDict().fields;
    assert f["title"] == Str(a.title) && f["url"] == Str(a.url);
    assert Optional(f, "published_time") == Ok(a.publishedTime);
  }

  /** Decoding an encoded state gives it back, every field included. */
  lemma StateRoundTrip(s: SourceState)
    ensures StateFromDict(s.ToDict()) == Ok(s)
  {
    var f := s.ToDict().fields;
    if s.lastArticle.Some? {
      ArticleRoundTrip(s.lastArticle.value);
      assert Truthy(f["last_article"]) by {
        assert "title" in s.lastArticle.value.ToDict().fields;
      }
    }
    assert Required(f, "source_id") == Ok(s.sourceId);
    assert Optional(f, "last_checked") == Ok(s.lastChecked);
    assert Optional(f, "etag") == Ok(s.etag);
    assert Optional(f, "last_modified") == Ok(s.lastModified);
    assert Optional(f, "last_error") == Ok(s.lastError);
  }

  /** A record holding only `source_id` decodes to the fresh state for that id. */
  lemma MinimalRecordIsFresh(id: string)
    ensures StateFromDict(Obj(map["source_id" := Str(id)])) == Ok(FreshState(id))
  {
  }

  /** An absent, `null` or empty `last_article` decodes to no baseline. */
  lemma FalsyBaselineIsAbsent(id: string, la: Value)
    requires !Truthy(la)
    ensures StateFromDict(Obj(map["source_id" := Str(id), "last_article" := la])) == Ok(FreshState(id))
  {
  }
}
