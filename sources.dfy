/** The source list the search routes attach to an answer: the documents and
    citations of each Perplexity payload, then the first three articles of each
    news payload. */
module Sources {
  import opened PyText
  import opened PyJson
  import opened Collect

  /** The `Source` model: two optional strings. */
  datatype Source = Source(title: Option<string>, url: Option<string>)

  /** `extract_perplexity_content`: the first choice's message content, or `""`
      when there is no choice. */
  function ExtractPerplexityContent(response: Json): Outcome<Json> {
    var hasChoices :- In("choices", response);
    if !hasChoices then Ok(Str(""))
    else
      var choices :- Index(response, "choices");
      var n :- Len(choices);
      if n == 0 then Ok(Str(""))
      else
        var first :- At(choices, 0);
        var message :- Index(first, "message");
        Index(message, "content")
  }

  /** A payload without choices, or with an empty list of them, gives `""`. */
  lemma PerplexityContent(fields: Fields)
    ensures "choices" !in Keys(fields) ==> ExtractPerplexityContent(Obj(fields)) == Ok(Str(""))
    ensures Lookup(fields, "choices") == Some(Arr([])) ==> ExtractPerplexityContent(Obj(fields)) == Ok(Str(""))
  {
  }

  /** A payload with a first choice gives that choice's message content. */
  lemma PerplexityFirstChoice(fields: Fields, choices: seq<Json>, first: Fields, message: Fields)
    requires Lookup(fields, "choices") == Some(Arr(choices)) && |choices| > 0
    requires choices[0] == Obj(first) && Lookup(first, "message") == Some(Obj(message))
    requires "content" in Keys(message)
    ensures ExtractPerplexityContent(Obj(fields)) == Ok(Lookup(message, "content").value)
  {
    assert In("choices", Obj(fields)) == Ok(true);
    assert Index(Obj(fields), "choices") == Ok(Arr(choices));
    assert Len(Arr(choices)) == Ok(|choices|);
    assert At(Arr(choices), 0) == Ok(Obj(first));
    assert Index(Obj(first), "message") == Ok(Obj(message));
  }

  /** `Source(title=..., url=...)`: pydantic accepts a string or null for each. */
  function MakeSource(title: Json, url: Json): Outcome<Source> {
    var t :- OptionalStr(title);
    var u :- OptionalStr(url);
    Ok(Source(t, u))
  }

  /** The source a context document becomes: the title falls back to the url
      and then to "Unknown Source"; the url falls back to `""`. */
  function DocSource(doc: Json): Outcome<seq<Source>> {
    var fallback :- Get(doc, "url", Str("Unknown Source"));
    var title :- Get(doc, "title", fallback);
    var url :- Get(doc, "url", Str(""));
    var s :- MakeSource(title, url);
    Ok([s])
  }

  /** `s.url == citation`: a string url equals a string citation with the same
      text, a missing url equals `null`, and nothing equals any other value. */
  predicate UrlIs(s: Source, citation: Json) {
    match citation
    case Str(c) => s.url == Some(c)
    case Null => s.url.None?
    case _ => false
  }

  /** `any(s.url == citation for s in sources)`. */
  predicate Cited(sources: seq<Source>, citation: Json) {
    exists i :: 0 <= i < |sources| && UrlIs(sources[i], citation)
  }

  /** The citation loop: a citation whose url is not yet listed is appended with
      itself as title and url. */
  function WithCitations(base: seq<Source>, citations: seq<Json>): (r: Outcome<seq<Source>>)
    ensures r.Ok? ==> base <= r.value
    ensures r.Ok? ==> forall j :: |base| <= j < |r.value| ==> r.value[j].title == r.value[j].url
    ensures r.Ok? ==> forall i, j :: 0 <= i < j < |r.value| && |base| <= j ==> r.value[i].url != r.value[j].url
    decreases |citations|
  {
    if citations == [] then Ok(base)
    else
      var n := |citations| - 1;
      var sources :- WithCitations(base, citations[..n]);
      var c := citations[n];
      if Cited(sources, c) then Ok(sources)
      else
        var s :- MakeSource(c, c);
        assert forall i :: 0 <= i < |sources| ==> sources[i].url != s.url by {
          forall i | 0 <= i < |sources| ensures sources[i].url != s.url {
            assert !UrlIs(sources[i], c);
          }
        }
        Ok(sources + [s])
  }

  /** The documents of the first choice's message context, or none. */
  function Documents(message: Json): Outcome<seq<Json>> {
    var hasContext :- In("context", message);
    if !hasContext then Ok([])
    else
      var context :- Index(message, "context");
      var hasDocuments :- In("documents", context);
      if !hasDocuments then Ok([])
      else
        var documents :- Index(context, "documents");
        Iterate(documents)
  }

  /** The citations of the payload, or none. */
  function Citations(response: Json): Outcome<seq<Json>> {
    var hasCitations :- In("citations", response);
    if !hasCitations then Ok([])
    else
      var citations :- Index(response, "citations");
      Iterate(citations)
  }

  /** The first choice's message, when there is a choice. */
  function FirstMessage(response: Json): Outcome<Option<Json>> {
    var hasChoices :- In("choices", response);
    if !hasChoices then Ok(None)
    else
      var choices :- Index(response, "choices");
      var n :- Len(choices);
      if n == 0 then Ok(None)
      else
        var first :- At(choices, 0);
        var message :- Index(first, "message");
        Ok(Some(message))
  }

  /** `extract_perplexity_sources`. */
  function PerplexitySources(response: Json): Outcome<seq<Source>> {
    var message :- FirstMessage(response);
    if message.None? then Ok([])
    else
      var docs :- Documents(message.value);
      var listed :- ConcatMap(docs, DocSource);
      var citations :- Citations(response);
      WithCitations(listed, citations)
  }

  /** The document loop then the citation loop of `extract_perplexity_sources`. */
  method CollectPerplexitySources(response: Json) returns (r: Outcome<seq<Source>>)
    ensures r == PerplexitySources(response)
  {
    var message :- FirstMessage(response);
    if message.None? {
      return Ok([]);
    }
    var docs :- Documents(message.value);
    var listed :- AppendDocuments(docs);
    var citations :- Citations(response);
    r := AppendCitations(listed, citations);
  }

  /** The document loop: one source per document. */
  method AppendDocuments(docs: seq<Json>) returns (r: Outcome<seq<Source>>)
    ensures r == ConcatMap(docs, DocSource)
  {
    var sources: seq<Source> := [];
    var i := 0;
    while i < |docs|
      invariant 0 <= i <= |docs|
      invariant ConcatMap(docs[..i], DocSource) == Ok(sources)
    {
      var s := DocSource(docs[i]);
      if s.Raised? {
        ConcatMapStop(docs, i, DocSource);
        return Raised(s.error);
      }
      ConcatMapExtend(docs, i, DocSource, sources);
      sources := sources + s.value;
      i := i + 1;
    }
    assert docs[..i] == docs;
    r := Ok(sources);
  }

  /** The citation loop: `sources` grows while it is searched. */
  method AppendCitations(listed: seq<Source>, citations: seq<Json>) returns (r: Outcome<seq<Source>>)
    ensures r == WithCitations(listed, citations)
  {
    var sources := listed;
    var j := 0;
    while j < |citations|
      invariant 0 <= j <= |citations|
      invariant WithCitations(listed, citations[..j]) == Ok(sources)
    {
      assert citations[..j + 1][..j] == citations[..j];
      var c := citations[j];
      if !Cited(sources, c) {
        var s := MakeSource(c, c);
        if s.Raised? {
          CitationsRaisedPrefix(listed, citations, j + 1);
          return Raised(s.error);
        }
        sources := sources + [s.value];
      }
      j := j + 1;
    }
    assert citations[..j] == citations;
    r := Ok(sources);
  }

  /** Once the citation loop has raised on a prefix, it raises on the whole list. */
  lemma {:induction false} CitationsRaisedPrefix(listed: seq<Source>, citations: seq<Json>, j: nat)
    requires j <= |citations| && WithCitations(listed, citations[..j]).Raised?
    ensures WithCitations(listed, citations) == WithCitations(listed, citations[..j])
    decreases |citations| - j
  {
    if j == |citations| {
      assert citations[..j] == citations;
    } else {
      assert citations[..j + 1][..j] == citations[..j];
      CitationsRaisedPrefix(listed, citations, j + 1);
    }
  }

  /** A document that is a dictionary of string fields becomes one source whose
      title is its title, else its url, else "Unknown Source", and whose url is
      its url, else `""`. */
  lemma DocSourceDefaults(doc: Fields)
    requires forall k :: k in Keys(doc) && (k == "title" || k == "url") ==> Lookup(doc, k).value.Str?
    ensures DocSource(Obj(doc)) == Ok([Source(
      Some(if "title" in Keys(doc) then Lookup(doc, "title").value.s
           else if "url" in Keys(doc) then Lookup(doc, "url").value.s
           else "Unknown Source"),
      Some(if "url" in Keys(doc) then Lookup(doc, "url").value.s else ""))])
  {
  }

  /** Every citation that is a string or null ends up listed: either it was
      already there or it was appended. */
  lemma {:induction false} CitationsListed(base: seq<Source>, citations: seq<Json>, k: nat)
    requires k < |citations| && WithCitations(base, citations).Ok?
    ensures Cited(WithCitations(base, citations).value, citations[k])
    decreases |citations|
  {
    var n := |citations| - 1;
    var sources := WithCitations(base, citations[..n]).value;
    var r := WithCitations(base, citations).value;
    assert sources <= r;
    if k < n {
      CitationsListed(base, citations[..n], k);
      var i :| 0 <= i < |sources| && UrlIs(sources[i], citations[..n][k]);
      assert r[i] == sources[i];
    } else if !Cited(sources, citations[n]) {
      var c := citations[n];
      assert r == sources + [MakeSource(c, c).value];
      assert UrlIs(r[|sources|], c);
    }
  }

  /** A citation that is neither a string nor null fails validation. */
  lemma CitationRejected(base: seq<Source>, citations: seq<Json>, k: nat)
    requires k < |citations| && !citations[k].Str? && !citations[k].Null?
    ensures WithCitations(base, citations).Raised?
  {
    if WithCitations(base, citations).Ok? {
      CitationsListed(base, citations, k);
    }
  }

  // ---------------------------------------------------------------------------
  // extract_sources

  const PERPLEXITY_KEYS: seq<string> := ["perplexity_sonar", "perplexity_deep_research"]

  /** The first loop of `extract_sources` on one entry: a Perplexity payload
      without an `"error"` key contributes its sources. */
  function PerplexityEntry(e: (string, Json)): Outcome<seq<Source>> {
    if e.0 !in PERPLEXITY_KEYS then Ok([])
    else
      var failed :- In("error", e.1);
      if failed then Ok([]) else PerplexitySources(e.1)
  }

  /** A news article as a source: title "News Article" and url `""` by default. */
  function ArticleSource(item: Json): Outcome<seq<Source>> {
    var title :- Get(item, "title", Str("News Article"));
    var url :- Get(item, "article_url", Str(""));
    var s :- MakeSource(title, url);
    Ok([s])
  }

  /** The second loop on one entry: a key containing `_news` whose payload has
      `results` contributes its first three articles. */
  function NewsEntry(e: (string, Json)): Outcome<seq<Source>> {
    if !Contains(e.0, "_news") then Ok([])
    else
      var hasResults :- In("results", e.1);
      if !hasResults then Ok([])
      else
        var results :- Index(e.1, "results");
        var top :- Take(results, 3);
        var items :- Iterate(top);
        ConcatMap(items, ArticleSource)
  }

  /** `extract_sources`: the Perplexity sources of every entry, then the news
      sources of every entry, in dictionary order. */
  function ExtractSources(apiResults: Fields): Outcome<seq<Source>> {
    var perplexity :- ConcatMap(apiResults, PerplexityEntry);
    var news :- ConcatMap(apiResults, NewsEntry);
    Ok(perplexity + news)
  }

  /** The two loops of `extract_sources`. */
  method CollectSources(apiResults: Fields) returns (r: Outcome<seq<Source>>)
    ensures r == ExtractSources(apiResults)
  {
    var perplexity :- PerplexityLoop(apiResults);
    var news :- NewsLoop(apiResults);
    r := Ok(perplexity + news);
  }

  /** The first loop: `sources.extend(extract_perplexity_sources(value))`. */
  method PerplexityLoop(apiResults: Fields) returns (r: Outcome<seq<Source>>)
    ensures r == ConcatMap(apiResults, PerplexityEntry)
  {
    var sources: seq<Source> := [];
    var i := 0;
    while i < |apiResults|
      invariant 0 <= i <= |apiResults|
      invariant ConcatMap(apiResults[..i], PerplexityEntry) == Ok(sources)
    {
      var (key, value) := apiResults[i];
      var found: Outcome<seq<Source>> := Ok([]);
      if key in PERPLEXITY_KEYS {
        var failed := In("error", value);
        if failed.Raised? {
          found := Raised(failed.error);
        } else if !failed.value {
          found := CollectPerplexitySources(value);
        }
      }
      assert found == PerplexityEntry(apiResults[i]);
      if found.Raised? {
        ConcatMapStop(apiResults, i, PerplexityEntry);
        return Raised(found.error);
      }
      ConcatMapExtend(apiResults, i, PerplexityEntry, sources);
      sources := sources + found.value;
      i := i + 1;
    }
    assert apiResults[..i] == apiResults;
    r := Ok(sources);
  }

  /** The second loop: up to three `sources.append(...)` per news entry. */
  method NewsLoop(apiResults: Fields) returns (r: Outcome<seq<Source>>)
    ensures r == ConcatMap(apiResults, NewsEntry)
  {
    var sources: seq<Source> := [];
    var i := 0;
    while i < |apiResults|
      invariant 0 <= i <= |apiResults|
      invariant ConcatMap(apiResults[..i], NewsEntry) == Ok(sources)
    {
      var found := NewsEntry(apiResults[i]);
      if found.Raised? {
        ConcatMapStop(apiResults, i, NewsEntry);
        return Raised(found.error);
      }
      ConcatMapExtend(apiResults, i, NewsEntry, sources);
      sources := sources + found.value;
      i := i + 1;
    }
    assert apiResults[..i] == apiResults;
    r := Ok(sources);
  }

  /** An entry a news key contributes holds at most three sources. */
  lemma NewsEntryBound(e: (string, Json))
    ensures NewsEntry(e).Ok? ==> |NewsEntry(e).value| <= 3
    ensures !Contains(e.0, "_news") ==> NewsEntry(e) == Ok([])
  {
    if Contains(e.0, "_news") && NewsEntry(e).Ok? && In("results", e.1) == Ok(true) {
      var results := Index(e.1, "results").value;
      TakeBound(results, 3);
      var top := Take(results, 3).value;
      var items := Iterate(top).value;
      assert |items| <= 3;
      ConcatMapLength(items, ArticleSource);
    }
  }

  lemma {:induction false} ConcatMapLength(items: seq<Json>, f: Json -> Outcome<seq<Source>>)
    requires forall x :: f(x).Ok? ==> |f(x).value| <= 1
    ensures ConcatMap(items, f).Ok? ==> |ConcatMap(items, f).value| <= |items|
    decreases |items|
  {
    if items != [] {
      ConcatMapLength(items[..|items| - 1], f);
    }
  }

  lemma ArticleSourceSingle(x: Json)
    ensures ArticleSource(x).Ok? ==> |ArticleSource(x).value| <= 1
  {
  }

  /** The articles of a news payload whose results are dictionaries with string
      titles and urls: the first three, in order, with the defaults. */
  lemma NewsEntryArticles(key: string, fields: Fields, items: seq<Json>)
    requires Contains(key, "_news") && Lookup(fields, "results") == Some(Arr(items))
    requires forall x :: x in items ==> ValidArticle(x)
    ensures var top := if |items| <= 3 then items else items[..3];
      NewsEntry((key, Obj(fields))) == Ok(Project(top, ArticleOf))
  {
    var top := if |items| <= 3 then items else items[..3];
    NewsEntryTop(key, fields, items);
    assert forall x :: x in top ==> x in items;
    ArticlesMapped(top);
  }

  lemma NewsEntryTop(key: string, fields: Fields, items: seq<Json>)
    requires Contains(key, "_news") && Lookup(fields, "results") == Some(Arr(items))
    ensures NewsEntry((key, Obj(fields))) == ConcatMap(if |items| <= 3 then items else items[..3], ArticleSource)
  {
    assert In("results", Obj(fields)) == Ok(true);
    assert Index(Obj(fields), "results") == Ok(Arr(items));
  }

  lemma ArticlesMapped(top: seq<Json>)
    requires forall x :: x in top ==> ValidArticle(x)
    ensures ConcatMap(top, ArticleSource) == Ok(Project(top, ArticleOf))
  {
    forall x | x in top ensures ArticleSource(x) == Ok([ArticleOf(x)]) {
      ArticleAccepted(x);
    }
    ConcatMapSingletons(top, ArticleSource, ArticleOf);
  }

  lemma ArticleAccepted(x: Json)
    requires ValidArticle(x)
    ensures ArticleSource(x) == Ok([ArticleOf(x)])
  {
  }

  /** A news item whose title and url, when present, are strings. */
  predicate ValidArticle(x: Json) {
    && x.Obj?
    && (Lookup(x.fields, "title").Some? ==> Lookup(x.fields, "title").value.Str?)
    && (Lookup(x.fields, "article_url").Some? ==> Lookup(x.fields, "article_url").value.Str?)
  }

  /** The source a valid news item becomes. */
  function ArticleOf(x: Json): Source {
    var f := if x.Obj? then x.fields else [];
    Source(
      Some(match Lookup(f, "title") case Some(Str(t)) => t case _ => "News Article"),
      Some(match Lookup(f, "article_url") case Some(Str(u)) => u case _ => ""))
  }

  /** A Perplexity entry whose payload carries `"error"` contributes nothing, to
      either loop. */
  lemma ErrorEntrySkipped(e: (string, Json))
    requires e.0 in PERPLEXITY_KEYS && In("error", e.1) == Ok(true)
    ensures PerplexityEntry(e) == Ok([]) && NewsEntry(e) == Ok([])
  {
    NewsKeyAbsent(e.0);
  }

  /** Neither Perplexity key contains `_news` (neither has a `w`). */
  lemma NewsKeyAbsent(key: string)
    requires key in PERPLEXITY_KEYS
    ensures !Contains(key, "_news")
  {
    assert 'w' !in key;
    MissingLetter("_news", key, 3);
  }

  /** A string lacking one of the needle's characters does not contain it. */
  lemma MissingLetter(needle: string, hay: string, k: nat)
    requires k < |needle| && needle[k] !in hay
    ensures !Contains(hay, needle)
  {
    forall i: nat | i <= |hay| ensures !OccursAt(needle, hay, i) {
      if i + |needle| <= |hay| {
        assert hay[i..i + |needle|][k] == hay[i + k];
      }
    }
  }

  predicate Kept(e: (string, Json)) {
    !(e.0 in PERPLEXITY_KEYS && In("error", e.1) == Ok(true))
  }

  /** Dropping the failed Perplexity entries leaves the sources unchanged. */
  lemma SourcesSkipErrors(apiResults: Fields)
    ensures ExtractSources(Filter(apiResults, Kept)) == ExtractSources(apiResults)
  {
    forall e | e in apiResults && !Kept(e) ensures PerplexityEntry(e) == Ok([]) && NewsEntry(e) == Ok([]) {
      ErrorEntrySkipped(e);
    }
    ConcatMapFilter(apiResults, PerplexityEntry, Kept);
    ConcatMapFilter(apiResults, NewsEntry, Kept);
  }

  // ---------------------------------------------------------------------------
  // Sources in the cache

  /** `s.__dict__`, as the response cache stores it. */
  function SourceJson(s: Source): Json {
    Obj([("title", OptionalStrToJson(s.title)), ("url", OptionalStrToJson(s.url))])
  }

  /** `Source(**d)`: a dictionary whose `title` and `url` are strings or null
      (absent ones default to null; other keys are ignored). */
  function SourceFromJson(v: Json): Outcome<seq<Source>> {
    if !v.Obj? then Raised(TypeError("argument after ** must be a mapping, not " + TypeName(v)))
    else
      var s :- MakeSource(Field(v.fields, "title"), Field(v.fields, "url"));
      Ok([s])
  }

  function Field(fields: Fields, k: string): Json {
    match Lookup(fields, k)
    case Some(x) => x
    case None => Null
  }

  function SourcesJson(sources: seq<Source>): (r: Json)
    ensures r.Arr? && |r.items| == |sources|
  {
    Arr(Project(sources, SourceJson))
  }

  /** A source list written to the cache reads back as the same list. */
  lemma SourcesRoundTrip(sources: seq<Source>)
    ensures ConcatMap(SourcesJson(sources).items, SourceFromJson) == Ok(sources)
  {
    var items := SourcesJson(sources).items;
    forall x | x in items ensures SourceFromJson(x) == Ok([SourceBack(x)]) {
      var i :| 0 <= i < |items| && items[i] == x;
      assert x == SourceJson(sources[i]);
      SourceRoundTrip(sources[i]);
    }
    ConcatMapSingletons(items, SourceFromJson, SourceBack);
    forall i | 0 <= i < |items| ensures Project(items, SourceBack)[i] == sources[i] {
      assert items[i] == SourceJson(sources[i]);
      SourceRoundTrip(sources[i]);
    }
    assert Project(items, SourceBack) == sources;
  }

  /** The source a cached dictionary stands for. */
  function SourceBack(v: Json): Source {
    if v.Obj? then Source(OptionalBack(Field(v.fields, "title")), OptionalBack(Field(v.fields, "url")))
    else Source(None, None)
  }

  function OptionalBack(v: Json): Option<string> {
    if v.Str? then Some(v.s) else None
  }

  lemma SourceRoundTrip(s: Source)
    ensures SourceFromJson(SourceJson(s)) == Ok([s]) && SourceBack(SourceJson(s)) == s
  {
    var fs := SourceJson(s).fields;
    assert Lookup(fs, "title") == Some(OptionalStrToJson(s.title));
    assert Lookup(fs, "url") == Some(OptionalStrToJson(s.url));
  }
}
