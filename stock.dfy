/** The market-data REST routes of stock.py: the latest price with its change,
    the company news list and the historical bars. */
module StockRoutes {
  import opened PyJson
  import opened Collect
  import opened Reshape

  // ---------------------------------------------------------------------------
  // Price

  /** `StockPriceResponse`. */
  datatype PriceResponse = PriceResponse(ticker: string, price: real, change: Option<real>, changePercent: Option<real>, data: Json)

  /** A response that reports `detail` as the error, with a zero price. */
  function PriceError(ticker: string, detail: Json): PriceResponse {
    PriceResponse(ticker, 0.0, None, None, Obj([("error", detail)]))
  }

  /** The price response the `try` body builds from a provider payload. */
  function PriceBody(ticker: string, response: Json): Outcome<PriceResponse> {
    var hasError :- In("error", response);
    if hasError then
      var detail :- Index(response, "error");
      Ok(PriceError(ticker, detail))
    else
      var hasResults :- In("results", response);
      if !hasResults then Ok(PriceError(ticker, Str("No results found")))
      else
        var results :- Index(response, "results");
        var n :- Len(results);
        if n == 0 then Ok(PriceError(ticker, Str("No results found")))
        else
          var first :- At(results, 0);
          BarPrice(ticker, first)
  }

  /** The price, change and percentage read from the first bar. */
  function BarPrice(ticker: string, first: Json): Outcome<PriceResponse> {
    var close :- Get(first, "c", Num(0.0));
    var open :- Get(first, "o", Num(0.0));
    var change :- Sub(close, open);
    // The guard reads `o` with default 0, the divisor with default 1.0.
    var percent := if NonZero(open) then change / NumValue(open) * 100.0 else 0.0;
    Ok(PriceResponse(ticker, NumValue(close), Some(change), Some(percent), first))
  }

  /** `GET /stock/price/{ticker}`: any exception becomes a zero price with the
      exception's text as the error. */
  function GetStockPrice(ticker: string, response: Outcome<Json>): (r: PriceResponse)
    ensures r.ticker == ticker
    ensures r.change.Some? <==> r.changePercent.Some?
    ensures r.change.None? ==> r.price == 0.0 && r.data.Obj? && Keys(r.data.fields) == ["error"]
    ensures r.change.Some? ==> r.data.Obj?
  {
    match response
    case Raised(e) => PriceError(ticker, Str(e.message))
    case Ok(v) =>
      match PriceBody(ticker, v)
      case Ok(x) => x
      case Raised(e) => PriceError(ticker, Str(e.message))
  }

  /** A provider error is passed through with a zero price. */
  lemma PriceProviderError(ticker: string, fields: Fields)
    requires "error" in Keys(fields)
    ensures GetStockPrice(ticker, Ok(Obj(fields))) == PriceError(ticker, Lookup(fields, "error").value)
  {
  }

  /** Missing or empty `results` give a zero price and "No results found". */
  lemma PriceNoResults(ticker: string, fields: Fields)
    requires "error" !in Keys(fields)
    requires "results" !in Keys(fields) || Lookup(fields, "results") == Some(Arr([]))
    ensures GetStockPrice(ticker, Ok(Obj(fields))) == PriceError(ticker, Str("No results found"))
  {
  }

  /** A failed call gives a zero price with the exception's text. */
  lemma PriceCallFailed(ticker: string, e: Exn)
    ensures GetStockPrice(ticker, Raised(e)) == PriceError(ticker, Str(e.message))
  {
  }

  /** A price field that is absent (read as `default`) or a number. */
  function PriceField(first: Fields, k: string, default: real): Option<real> {
    match Lookup(first, k)
    case None => Some(default)
    case Some(v) => if IsNumeric(v) then Some(NumValue(v)) else None
  }

  /** With a non-empty `results` list whose first bar has numeric (or absent) close
      and open, the price is the close, the change is close minus open, the
      percentage is taken against a nonzero open only, and `data` is the bar. */
  lemma PriceFromFirstResult(ticker: string, fields: Fields, results: seq<Json>, first: Fields)
    requires "error" !in Keys(fields)
    requires Lookup(fields, "results") == Some(Arr(results)) && |results| > 0 && results[0] == Obj(first)
    requires PriceField(first, "c", 0.0).Some? && PriceField(first, "o", 0.0).Some?
    ensures var close, open := PriceField(first, "c", 0.0).value, PriceField(first, "o", 0.0).value;
      GetStockPrice(ticker, Ok(Obj(fields))) ==
        PriceResponse(ticker, close, Some(close - open),
          Some(if open != 0.0 then (close - open) / open * 100.0 else 0.0), Obj(first))
  {
    assert PriceBody(ticker, Obj(fields)) == BarPrice(ticker, Obj(first));
    BarPriceNumeric(ticker, first);
  }

  lemma BarPriceNumeric(ticker: string, first: Fields)
    requires PriceField(first, "c", 0.0).Some? && PriceField(first, "o", 0.0).Some?
    ensures var close, open := PriceField(first, "c", 0.0).value, PriceField(first, "o", 0.0).value;
      BarPrice(ticker, Obj(first)) ==
        Ok(PriceResponse(ticker, close, Some(close - open),
          Some(if open != 0.0 then (close - open) / open * 100.0 else 0.0), Obj(first)))
  {
  }

  // ---------------------------------------------------------------------------
  // News

  /** `NewsItem`. */
  datatype NewsItem = NewsItem(title: string, url: string, published: string, description: Option<string>)

  datatype NewsResponse = NewsResponse(ticker: string, news: seq<NewsItem>)

  /** One provider article as a `NewsItem`, fields defaulting to `""`. */
  function NewsItemOf(item: Json): Outcome<seq<NewsItem>> {
    var title :- Get(item, "title", Str(""));
    var url :- Get(item, "article_url", Str(""));
    var published :- Get(item, "published_utc", Str(""));
    var description :- Get(item, "description", Str(""));
    var t :- RequiredStr(title);
    var u :- RequiredStr(url);
    var p :- RequiredStr(published);
    var d :- OptionalStr(description);
    Ok([NewsItem(t, u, p, d)])
  }

  /** The results the loop visits, or none without `results`. */
  function NewsResults(response: Json): Outcome<seq<Json>> {
    var has :- In("results", response);
    if !has then Ok([])
    else
      var results :- Index(response, "results");
      Iterate(results)
  }

  /** `GET /stock/news/{ticker}`: one item per result; any exception empties the list. */
  function StockNews(ticker: string, response: Outcome<Json>): (r: NewsResponse)
    ensures r.ticker == ticker && (response.Raised? ==> r.news == [])
  {
    if response.Raised? then NewsResponse(ticker, [])
    else
      match NewsResults(response.value)
      case Raised(_) => NewsResponse(ticker, [])
      case Ok(items) =>
        match ConcatMap(items, NewsItemOf)
        case Ok(news) => NewsResponse(ticker, news)
        case Raised(_) => NewsResponse(ticker, [])
  }

  /** The news handler, appending one item per result. */
  method GetStockNews(ticker: string, response: Outcome<Json>) returns (r: NewsResponse)
    ensures r == StockNews(ticker, response)
  {
    if response.Raised? {
      return NewsResponse(ticker, []);
    }
    var found := NewsResults(response.value);
    if found.Raised? {
      return NewsResponse(ticker, []);
    }
    var items := found.value;
    var news: seq<NewsItem> := [];
    var i := 0;
    while i < |items|
      invariant 0 <= i <= |items|
      invariant ConcatMap(items[..i], NewsItemOf) == Ok(news)
    {
      var item := NewsItemOf(items[i]);
      ConcatMapStep(items, i, NewsItemOf);
      if item.Raised? {
        ConcatMapRaisedPrefix(items, i + 1, NewsItemOf);
        return NewsResponse(ticker, []);
      }
      news := news + item.value;
      i := i + 1;
    }
    assert items[..i] == items;
    r := NewsResponse(ticker, news);
  }

  /** A string field read with default `""`. */
  function TextField(item: Fields, k: string): string {
    match Lookup(item, k)
    case Some(Str(s)) => s
    case _ => ""
  }

  /** The description: a string, null, or `""` when absent. */
  function DescriptionField(item: Fields): Option<string> {
    match Lookup(item, "description")
    case Some(Str(s)) => Some(s)
    case Some(_) => None
    case None => Some("")
  }

  predicate TextOrAbsent(item: Fields, k: string) {
    match Lookup(item, k)
    case None => true
    case Some(v) => v.Str?
  }

  /** An article the `NewsItem` model accepts. */
  predicate ValidArticle(item: Json) {
    && item.Obj?
    && TextOrAbsent(item.fields, "title") && TextOrAbsent(item.fields, "article_url")
    && TextOrAbsent(item.fields, "published_utc")
    && (Lookup(item.fields, "description").None? || Lookup(item.fields, "description").value.Str?
        || Lookup(item.fields, "description").value.Null?)
  }

  /** The item an accepted article becomes: `url` comes from `article_url`. */
  function ArticleItem(item: Json): NewsItem {
    var f := if item.Obj? then item.fields else [];
    NewsItem(TextField(f, "title"), TextField(f, "article_url"), TextField(f, "published_utc"), DescriptionField(f))
  }

  lemma ArticleAccepted(item: Json)
    requires ValidArticle(item)
    ensures NewsItemOf(item) == Ok([ArticleItem(item)])
  {
    var f := item.fields;
    TextRead(f, "title");
    TextRead(f, "article_url");
    TextRead(f, "published_utc");
  }

  /** A text field that is absent or a string reads, with default `""`, as
      `TextField`. */
  lemma TextRead(f: Fields, k: string)
    requires TextOrAbsent(f, k)
    ensures Get(Obj(f), k, Str("")).Ok? && RequiredStr(Get(Obj(f), k, Str("")).value) == Ok(TextField(f, k))
  {
  }

  /** When every result is an accepted article, the news list has one item per
      result, in order, each read from its article. */
  lemma NewsOnePerResult(ticker: string, fields: Fields, items: seq<Json>)
    requires Lookup(fields, "results") == Some(Arr(items))
    requires forall x :: x in items ==> ValidArticle(x)
    ensures var news := StockNews(ticker, Ok(Obj(fields))).news;
      |news| == |items| && forall i :: 0 <= i < |items| ==> news[i] == ArticleItem(items[i])
  {
    assert NewsResults(Obj(fields)) == Ok(items);
    ArticlesMapped(items);
    assert StockNews(ticker, Ok(Obj(fields))).news == Project(items, ArticleItem);
  }

  lemma ArticlesMapped(items: seq<Json>)
    requires forall x :: x in items ==> ValidArticle(x)
    ensures ConcatMap(items, NewsItemOf) == Ok(Project(items, ArticleItem))
  {
    forall x | x in items ensures NewsItemOf(x) == Ok([ArticleItem(x)]) {
      ArticleAccepted(x);
    }
    ConcatMapSingletons(items, NewsItemOf, ArticleItem);
  }

  /** One article the model rejects empties the whole list. */
  lemma NewsAllOrNothing(ticker: string, fields: Fields, items: seq<Json>, i: nat)
    requires Lookup(fields, "results") == Some(Arr(items))
    requires i < |items| && NewsItemOf(items[i]).Raised?
    ensures StockNews(ticker, Ok(Obj(fields))).news == []
  {
    ConcatMapSomeRaised(items, NewsItemOf, i);
  }

  /** Without `results` the list is empty. */
  lemma NewsWithoutResults(ticker: string, fields: Fields)
    requires "results" !in Keys(fields)
    ensures StockNews(ticker, Ok(Obj(fields))).news == []
  {
  }

  // ---------------------------------------------------------------------------
  // Historical bars

  /** `GET /stock/historical/{ticker}`: the `results` list, or `[]`. */
  function GetHistoricalPrices(ticker: string, response: Outcome<Json>): Listing {
    ResultsListing(ticker, response)
  }

  /** A `results` list of dictionaries is returned unchanged. */
  lemma HistoricalUnchanged(ticker: string, fields: Fields, bars: seq<Json>)
    requires Lookup(fields, "results") == Some(Arr(bars)) && forall x :: x in bars ==> x.Obj?
    ensures GetHistoricalPrices(ticker, Ok(Obj(fields))).items == bars
  {
    ReshapedSelects(ticker, fields, ["results"], 0);
  }
}
