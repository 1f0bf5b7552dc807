/** The heuristic query analysis of query_analyzer.py: ticker extraction, the
    simple-query classifier and the canned fast-path replies. */
module QueryAnalyzer {
  import opened PyText
  import opened PyJson
  import opened Collect

  // ---------------------------------------------------------------------------
  // Ticker extraction

  /** A regex word character (`\w`), restricted to ASCII. */
  predicate IsWordChar(c: char) {
    ('a' <= c <= 'z') || ('A' <= c <= 'Z') || ('0' <= c <= '9') || c == '_'
  }

  predicate IsUpperLetter(c: char) {
    'A' <= c <= 'Z'
  }

  /** Short uppercase words that are ordinary English, not tickers. */
  const COMMON_WORDS: set<string> := {"I", "A", "AN", "THE", "AND", "OR", "FOR", "TO", "IN", "ON", "AT", "BY", "OF"}

  /** A word `[A-Z]{1,5}` that is not a common word. */
  predicate IsTicker(w: string) {
    1 <= |w| <= 5 && (forall k :: 0 <= k < |w| ==> IsUpperLetter(w[k])) && w !in COMMON_WORDS
  }

  /** The end of the run of word characters that starts at `i`. */
  function WordRunEnd(s: string, i: nat): (j: nat)
    requires i <= |s|
    ensures i <= j <= |s|
    ensures forall k :: i <= k < j ==> IsWordChar(s[k])
    ensures j == |s| || !IsWordChar(s[j])
    decreases |s| - i
  {
    if i == |s| || !IsWordChar(s[i]) then i else WordRunEnd(s, i + 1)
  }

  /** The tickers in `s[i..]`, where `i` is not inside a word. `\b[A-Z]{1,5}\b`
      matches exactly the words made of one to five uppercase letters: inside a
      word `\b` fails, and a longer or mixed word leaves no boundary after the
      letters. */
  function TickersFrom(s: string, i: nat): seq<string>
    requires i <= |s|
    decreases |s| - i
  {
    if i == |s| then []
    else if !IsWordChar(s[i]) then TickersFrom(s, i + 1)
    else
      var j := WordRunEnd(s, i);
      (if IsTicker(s[i..j]) then [s[i..j]] else []) + TickersFrom(s, j)
  }

  /** `extract_ticker_symbols`. */
  function ExtractTickerSymbols(query: string): seq<string> {
    TickersFrom(query, 0)
  }

  /** `w` occurs in `s` at `i` as a whole word. */
  predicate WholeWordAt(s: string, i: nat, w: string) {
    && w != []
    && OccursAt(w, s, i)
    && (forall k :: 0 <= k < |w| ==> IsWordChar(w[k]))
    && (i == 0 || !IsWordChar(s[i - 1]))
    && (i + |w| == |s| || !IsWordChar(s[i + |w|]))
  }

  lemma WholeWordRun(s: string, i: nat, w: string)
    requires WholeWordAt(s, i, w)
    ensures WordRunEnd(s, i) == i + |w| && s[i..i + |w|] == w
  {
    WordRunEndFrom(s, i, i + |w|);
  }

  lemma {:induction false} WordRunEndFrom(s: string, i: nat, j: nat)
    requires i <= j <= |s| && (forall k :: i <= k < j ==> IsWordChar(s[k])) && (j == |s| || !IsWordChar(s[j]))
    ensures WordRunEnd(s, i) == j
    decreases j - i
  {
    if i < j {
      WordRunEndFrom(s, i + 1, j);
    }
  }

  /** Position `i` is not strictly inside a word. */
  predicate OutsideWord(s: string, i: nat)
    requires i <= |s|
  {
    i == 0 || i == |s| || !IsWordChar(s[i - 1]) || !IsWordChar(s[i])
  }

  /** Every extracted ticker is a whole word of the query made of one to five
      uppercase letters and not a common word. */
  lemma {:induction false} TickersAreWholeWords(s: string, i: nat)
    requires i <= |s| && OutsideWord(s, i)
    ensures forall t :: t in TickersFrom(s, i) ==> IsTicker(t) && exists k: nat :: i <= k <= |s| && WholeWordAt(s, k, t)
    decreases |s| - i
  {
    if i < |s| {
      if !IsWordChar(s[i]) {
        TickersAreWholeWords(s, i + 1);
      } else {
        var j := WordRunEnd(s, i);
        TickersAreWholeWords(s, j);
        forall t | t in TickersFrom(s, i) ensures IsTicker(t) && exists k: nat :: i <= k <= |s| && WholeWordAt(s, k, t) {
          if IsTicker(s[i..j]) && t == s[i..j] {
            assert WholeWordAt(s, i, t);
          } else {
            assert t in TickersFrom(s, j);
          }
        }
      }
    }
  }

  /** Every whole word of the query that is a ticker is extracted. */
  lemma {:induction false} WholeWordsAreTickers(s: string, i: nat, k: nat, t: string)
    requires i <= k <= |s| && OutsideWord(s, i)
    requires WholeWordAt(s, k, t) && IsTicker(t)
    ensures t in TickersFrom(s, i)
    decreases |s| - i
  {
    if !IsWordChar(s[i]) {
      WholeWordsAreTickers(s, i + 1, k, t);
    } else if i == k {
      WholeWordRun(s, k, t);
    } else {
      var j := WordRunEnd(s, i);
      // A word cannot start strictly inside the word at `i`.
      assert j <= k by {
        assert k > i && !IsWordChar(s[k - 1]);
      }
      WholeWordsAreTickers(s, j, k, t);
    }
  }

  /** Both directions: `t` is extracted exactly when it occurs as a whole word and
      is made of one to five uppercase letters outside the common words. */
  lemma ExtractTickersExactly(query: string, t: string)
    ensures t in ExtractTickerSymbols(query) <==> IsTicker(t) && exists k: nat :: k <= |query| && WholeWordAt(query, k, t)
  {
    TickersAreWholeWords(query, 0);
    if IsTicker(t) && exists k: nat :: k <= |query| && WholeWordAt(query, k, t) {
      var k: nat :| k <= |query| && WholeWordAt(query, k, t);
      WholeWordsAreTickers(query, 0, k, t);
    }
  }

  /** A reference listing that scans every position of `s` from `k` on and keeps
      the ticker that occurs there as a whole word, if any: the tickers in order
      of appearance, each occurrence listed. */
  ghost function TickersByPosition(s: string, k: nat): seq<string>
    requires k <= |s|
    decreases |s| - k
  {
    if k == |s| then []
    else
      (if exists w :: WholeWordAt(s, k, w) && IsTicker(w)
       then [var w :| WholeWordAt(s, k, w) && IsTicker(w); w]
       else [])
      + TickersByPosition(s, k + 1)
  }

  /** `re.findall` order: the extracted list is the reference listing, so the
      tickers come in order of appearance and repeated tickers are kept. */
  lemma TickersInOrder(query: string)
    ensures ExtractTickerSymbols(query) == TickersByPosition(query, 0)
  {
    TickersFromByPosition(query, 0);
  }

  lemma {:induction false} TickersFromByPosition(s: string, i: nat)
    requires i <= |s| && OutsideWord(s, i)
    ensures TickersFrom(s, i) == TickersByPosition(s, i)
    decreases |s| - i
  {
    if i < |s| {
      if !IsWordChar(s[i]) {
        assert !exists w :: WholeWordAt(s, i, w) && IsTicker(w);
        TickersFromByPosition(s, i + 1);
      } else {
        var j := WordRunEnd(s, i);
        var word := s[i..j];
        assert WholeWordAt(s, i, word);
        forall w | WholeWordAt(s, i, w) ensures w == word {
          WholeWordRun(s, i, w);
        }
        NoWordStartsInside(s, i, i + 1, j);
        TickersFromByPosition(s, j);
      }
    }
  }

  /** No word starts strictly inside the run of word characters `s[i..j]`. */
  lemma {:induction false} NoWordStartsInside(s: string, i: nat, k: nat, j: nat)
    requires i < k <= j <= |s| && forall m :: i <= m < j ==> IsWordChar(s[m])
    ensures TickersByPosition(s, k) == TickersByPosition(s, j)
    decreases j - k
  {
    if k < j {
      assert !exists w :: WholeWordAt(s, k, w) && IsTicker(w) by {
        assert IsWordChar(s[k - 1]);
      }
      NoWordStartsInside(s, i, k + 1, j);
    }
  }

  // ---------------------------------------------------------------------------
  // The simple-query classifier

  datatype Category = PriceQuery | NewsQuery | FinancialsQuery | InsiderQuery

  /** The categories in the order they are tried. */
  const CATEGORIES: seq<Category> := [PriceQuery, NewsQuery, FinancialsQuery, InsiderQuery]

  function CategoryName(c: Category): string {
    match c
    case PriceQuery => "price"
    case NewsQuery => "news"
    case FinancialsQuery => "financials"
    case InsiderQuery => "insider"
  }

  /** How many patterns each category has. */
  function PatternCount(c: Category): nat {
    if c == PriceQuery then 4 else 3
  }

  /** The `index`-th pattern of a category. */
  datatype Pattern = Pattern(category: Category, index: nat)

  /** `re.search(pattern, query, re.IGNORECASE)`: group 1 of the match, if any. */
  type Search = (Pattern, string) -> Option<string>

  datatype Classification = Classification(simple: bool, category: Option<Category>, ticker: Option<string>)

  /** The first pattern of `c`, from the `i`-th on, that matches. */
  function MatchIn(c: Category, i: nat, query: string, search: Search): (r: Option<(nat, string)>)
    ensures r.Some? ==> i <= r.value.0 < PatternCount(c) && search(Pattern(c, r.value.0), query) == Some(r.value.1)
    ensures r.Some? ==> forall k :: i <= k < r.value.0 ==> search(Pattern(c, k), query).None?
    ensures r.None? ==> forall k :: i <= k < PatternCount(c) ==> search(Pattern(c, k), query).None?
    decreases PatternCount(c) - i
  {
    if i >= PatternCount(c) then None
    else
      match search(Pattern(c, i), query)
      case Some(g) => Some((i, g))
      case None => MatchIn(c, i + 1, query, search)
  }

  /** The first category of `cats` with a matching pattern. */
  function Classify(cats: seq<Category>, query: string, search: Search): Classification
    decreases |cats|
  {
    if cats == [] then Classification(false, None, None)
    else
      match MatchIn(cats[0], 0, query, search)
      case Some((_, g)) => Classification(true, Some(cats[0]), Some(g))
      case None => Classify(cats[1..], query, search)
  }

  /** `is_simple_query`. */
  function IsSimpleQuery(query: string, search: Search): Classification {
    Classify(CATEGORIES, Strip(query), search)
  }

  /** Whether some pattern of `c` matches. */
  predicate Matches(c: Category, query: string, search: Search) {
    exists k :: 0 <= k < PatternCount(c) && search(Pattern(c, k), query).Some?
  }

  lemma {:induction false} ClassifyPriority(cats: seq<Category>, query: string, search: Search)
    ensures var r := Classify(cats, query, search);
      && (r.simple <==> exists n :: 0 <= n < |cats| && Matches(cats[n], query, search))
      && (!r.simple ==> r.category.None? && r.ticker.None?)
      && (r.simple ==> exists n, k ::
            && 0 <= n < |cats| && 0 <= k < PatternCount(cats[n])
            && r.category == Some(cats[n]) && r.ticker.Some? && r.ticker == search(Pattern(cats[n], k), query)
            && (forall m :: 0 <= m < n ==> !Matches(cats[m], query, search))
            && (forall k' :: 0 <= k' < k ==> search(Pattern(cats[n], k'), query).None?))
    decreases |cats|
  {
    if cats != [] {
      ClassifyPriority(cats[1..], query, search);
      var m := MatchIn(cats[0], 0, query, search);
      if m.Some? {
        var r := Classify(cats, query, search);
        assert Matches(cats[0], query, search);
        assert r.category == Some(cats[0]) && r.ticker == Some(m.value.1);
      } else {
        assert !Matches(cats[0], query, search);
        var r := Classify(cats, query, search);
        if r.simple {
          var n, k :| && 0 <= n < |cats[1..]| && 0 <= k < PatternCount(cats[1..][n])
            && r.category == Some(cats[1..][n]) && r.ticker.Some? && r.ticker == search(Pattern(cats[1..][n], k), query)
            && (forall m :: 0 <= m < n ==> !Matches(cats[1..][m], query, search))
            && (forall k' :: 0 <= k' < k ==> search(Pattern(cats[1..][n], k'), query).None?);
          assert cats[n + 1] == cats[1..][n];
          assert forall m :: 0 <= m < n + 1 ==> !Matches(cats[m], query, search) by {
            forall m | 0 <= m < n + 1 ensures !Matches(cats[m], query, search) {
              if m > 0 { assert cats[m] == cats[1..][m - 1]; }
            }
          }
        }
        forall n | 0 <= n < |cats| && Matches(cats[n], query, search) ensures r.simple {
          assert n > 0 && cats[n] == cats[1..][n - 1];
        }
      }
    }
  }

  /** The stripped query is classified by the first category, in the order price,
      news, financials, insider, that has a matching pattern, and within it by the
      first matching pattern; with no match the answer is `(False, None, None)`. */
  lemma SimpleQueryPriority(query: string, search: Search)
    ensures var r := IsSimpleQuery(query, search);
      && (r.simple <==> exists n :: 0 <= n < 4 && Matches(CATEGORIES[n], Strip(query), search))
      && (!r.simple ==> r == Classification(false, None, None))
      && (r.simple ==> exists n, k ::
            && 0 <= n < 4 && 0 <= k < PatternCount(CATEGORIES[n])
            && r.category == Some(CATEGORIES[n]) && r.ticker.Some?
            && search(Pattern(CATEGORIES[n], k), Strip(query)) == Some(r.ticker.value)
            && (forall m :: 0 <= m < n ==> !Matches(CATEGORIES[m], Strip(query), search))
            && (forall k' :: 0 <= k' < k ==> search(Pattern(CATEGORIES[n], k'), Strip(query)).None?))
  {
    ClassifyPriority(CATEGORIES, Strip(query), search);
  }

  // ---------------------------------------------------------------------------
  // Fast-path replies

  const NA: Json := Str("N/A")

  /** How the price moved since the open. */
  datatype Change = Moved(amount: real, percent: real, up: bool) | Unchanged

  datatype NewsBrief = NewsBrief(title: Json, published: Json, url: Json, summary: Json)

  /** The canned replies, with the values they show. */
  datatype FastReply =
    | PriceReport(ticker: string, close: Json, open: Json, high: Json, low: Json, volume: Json, change: Change)
    | NoPrice(ticker: string)
    | NewsReport(ticker: string, briefs: seq<NewsBrief>)
    | NoNews(ticker: string)
    | FinancialsNote(ticker: string)
    | InsiderNote(ticker: string)
    | GenericReply(ticker: string)

  /** `f"{v:.2f}"`. */
  function Fixed2(v: Json): Outcome<Json> {
    if IsNumeric(v) then Ok(v)
    else if v.Str? then Raised(Exn("Unknown format code 'f' for object of type 'str'"))
    else Raised(TypeError("unsupported format string passed to " + TypeName(v) + ".__format__"))
  }

  /** `f"{v:,}"`. */
  function Grouped(v: Json): Outcome<Json> {
    if IsNumeric(v) then Ok(v)
    else if v.Str? then Raised(Exn("Cannot specify ',' with 's'."))
    else Raised(TypeError("unsupported format string passed to " + TypeName(v) + ".__format__"))
  }

  /** The change since the open, when both prices are there. */
  function ChangeOf(close: Json, open: Json): Outcome<Change> {
    if close != NA && open != NA then
      var amount :- Sub(close, open);
      var percent := if NonZero(open) then amount / NumValue(open) * 100.0 else 0.0;
      Ok(Moved(amount, percent, amount > 0.0))
    else Ok(Unchanged)
  }

  /** The first result of a quote: `"results" in data and data["results"]`. */
  function FirstResult(data: Json): Outcome<Option<Json>> {
    var has :- In("results", data);
    if !has then Ok(None)
    else
      var results :- Index(data, "results");
      if !Truthy(results) then Ok(None)
      else
        var first :- At(results, 0);
        Ok(Some(first))
  }

  /** The values a quote shows: close, open, high, low and volume, each `N/A`
      when absent. */
  datatype Quote = Quote(close: Json, open: Json, high: Json, low: Json, volume: Json)

  function QuoteOf(r: Json): Outcome<Quote> {
    var close :- Get(r, "c", NA);
    var open :- Get(r, "o", NA);
    var high :- Get(r, "h", NA);
    var low :- Get(r, "l", NA);
    var volume :- Get(r, "v", NA);
    Ok(Quote(close, open, high, low, volume))
  }

  /** The price reply as the code computes it: every shown value is formatted as a
      number, so a missing price raises. */
  function PriceReply(ticker: string, data: Json): Outcome<FastReply> {
    var first :- FirstResult(data);
    if first.None? then Ok(NoPrice(ticker))
    else
      var q :- QuoteOf(first.value);
      Report(ticker, q)
  }

  function Report(ticker: string, q: Quote): Outcome<FastReply> {
    var change :- ChangeOf(q.close, q.open);
    var _ :- Fixed2(q.close);
    var _ :- Fixed2(q.open);
    var _ :- Fixed2(q.high);
    var _ :- Fixed2(q.low);
    var _ :- Grouped(q.volume);
    Ok(PriceReport(ticker, q.close, q.open, q.high, q.low, q.volume, change))
  }

  /** `f"{v:.2f}"` as the unchanged branch evidently expects it: a missing value is
      shown as `N/A`. */
  function Fixed2OrNA(v: Json): Outcome<Json> {
    if v == NA then Ok(v) else Fixed2(v)
  }

  function GroupedOrNA(v: Json): Outcome<Json> {
    if v == NA then Ok(v) else Grouped(v)
  }

  /** The price reply with missing values shown as `N/A`. */
  function PriceReplyCorrected(ticker: string, data: Json): Outcome<FastReply> {
    var first :- FirstResult(data);
    if first.None? then Ok(NoPrice(ticker))
    else
      var q :- QuoteOf(first.value);
      ReportCorrected(ticker, q)
  }

  function ReportCorrected(ticker: string, q: Quote): Outcome<FastReply> {
    var change :- ChangeOf(q.close, q.open);
    var _ :- Fixed2OrNA(q.close);
    var _ :- Fixed2OrNA(q.open);
    var _ :- Fixed2OrNA(q.high);
    var _ :- Fixed2OrNA(q.low);
    var _ :- GroupedOrNA(q.volume);
    Ok(PriceReport(ticker, q.close, q.open, q.high, q.low, q.volume, change))
  }

  /** One news item: `description[:200]`, with the stated defaults. */
  function Brief(item: Json): Outcome<seq<NewsBrief>> {
    var title :- Get(item, "title", Str("No title"));
    var published :- Get(item, "published_utc", NA);
    var url :- Get(item, "article_url", Str("#"));
    var description :- Get(item, "description", Str("No description available."));
    var summary :- Take(description, 200);
    Ok([NewsBrief(title, published, url, summary)])
  }

  /** The news items shown: the first three results. */
  function NewsItems(data: Json): Outcome<Option<seq<Json>>> {
    var has :- In("results", data);
    if !has then Ok(None)
    else
      var results :- Index(data, "results");
      if !Truthy(results) then Ok(None)
      else
        var top :- Take(results, 3);
        var items :- Iterate(top);
        Ok(Some(items))
  }

  function NewsReply(ticker: string, data: Json): Outcome<FastReply> {
    var items :- NewsItems(data);
    if items.None? then Ok(NoNews(ticker))
    else
      var briefs :- ConcatMap(items.value, Brief);
      Ok(NewsReport(ticker, briefs))
  }

  /** `get_fast_path_response`, with the price reply as the code computes it. */
  function FastPath(queryType: string, ticker: string, data: Json): Outcome<FastReply> {
    if queryType == "price" then PriceReply(ticker, data)
    else if queryType == "news" then NewsReply(ticker, data)
    else if queryType == "financials" then Ok(FinancialsNote(ticker))
    else if queryType == "insider" then Ok(InsiderNote(ticker))
    else Ok(GenericReply(ticker))
  }

  /** The news branch, building the reply item by item. */
  method NewsBranch(ticker: string, data: Json) returns (r: Outcome<FastReply>)
    ensures r == NewsReply(ticker, data)
  {
    var found :- NewsItems(data);
    if found.None? {
      return Ok(NoNews(ticker));
    }
    var items := found.value;
    var briefs: seq<NewsBrief> := [];
    var i := 0;
    while i < |items|
      invariant 0 <= i <= |items|
      invariant ConcatMap(items[..i], Brief) == Ok(briefs)
    {
      var b := Brief(items[i]);
      ConcatMapStep(items, i, Brief);
      if b.Raised? {
        ConcatMapRaisedPrefix(items, i + 1, Brief);
        return Raised(b.error);
      }
      briefs := briefs + b.value;
      i := i + 1;
    }
    assert items[..i] == items;
    r := Ok(NewsReport(ticker, briefs));
  }

  /** `get_fast_path_response`. */
  method GetFastPathResponse(queryType: string, ticker: string, data: Json) returns (r: Outcome<FastReply>)
    ensures r == FastPath(queryType, ticker, data)
  {
    if queryType == "price" {
      r := PriceReply(ticker, data);
    } else if queryType == "news" {
      r := NewsBranch(ticker, data);
    } else if queryType == "financials" {
      r := Ok(FinancialsNote(ticker));
    } else if queryType == "insider" {
      r := Ok(InsiderNote(ticker));
    } else {
      r := Ok(GenericReply(ticker));
    }
  }

  // ---------------------------------------------------------------------------
  // Properties of the fast path

  /** Without results, the price and news replies are the apologies naming the
      ticker; any other query type gets its fixed note. */
  lemma FastPathFallbacks(queryType: string, ticker: string, data: Json)
    ensures FirstResult(data) == Ok(None) && queryType == "price" ==> FastPath(queryType, ticker, data) == Ok(NoPrice(ticker))
    ensures FirstResult(data) == Ok(None) && queryType == "news" ==> FastPath(queryType, ticker, data) == Ok(NoNews(ticker))
    ensures queryType !in {"price", "news", "financials", "insider"} ==> FastPath(queryType, ticker, data) == Ok(GenericReply(ticker))
  {
  }

  /** A reported move is `close - open`, its percentage is taken against a nonzero
      open only, and it reads "up" exactly when the change is positive. */
  lemma PriceMove(ticker: string, data: Json)
    requires PriceReply(ticker, data).Ok? && PriceReply(ticker, data).value.PriceReport?
    ensures var rep := PriceReply(ticker, data).value;
      && rep.change.Moved?
      && IsNumeric(rep.close) && IsNumeric(rep.open)
      && rep.change.amount == NumValue(rep.close) - NumValue(rep.open)
      && rep.change.percent == (if NumValue(rep.open) != 0.0 then rep.change.amount / NumValue(rep.open) * 100.0 else 0.0)
      && (rep.change.up <==> rep.change.amount > 0.0)
  {
    var q := ReportedQuote(ticker, data);
    ReportMove(ticker, q);
  }

  /** A price report comes from the first result's quote. */
  lemma ReportedQuote(ticker: string, data: Json) returns (q: Quote)
    requires PriceReply(ticker, data).Ok? && PriceReply(ticker, data).value.PriceReport?
    ensures FirstResult(data).Ok? && FirstResult(data).value.Some?
    ensures QuoteOf(FirstResult(data).value.value) == Ok(q)
    ensures PriceReply(ticker, data) == Report(ticker, q)
  {
    q := QuoteOf(FirstResult(data).value.value).value;
  }

  lemma ReportMove(ticker: string, q: Quote)
    requires Report(ticker, q).Ok?
    ensures var rep := Report(ticker, q).value;
      && rep.change.Moved?
      && IsNumeric(rep.close) && IsNumeric(rep.open)
      && rep.change.amount == NumValue(rep.close) - NumValue(rep.open)
      && rep.change.percent == (if NumValue(rep.open) != 0.0 then rep.change.amount / NumValue(rep.open) * 100.0 else 0.0)
      && (rep.change.up <==> rep.change.amount > 0.0)
  {
  }

  /** As written, the "unchanged" branch never produces a reply: when the close or
      the open is missing, formatting it as a number raises. */
  lemma UnchangedNeverReported(ticker: string, data: Json)
    ensures PriceReply(ticker, data).Ok? && PriceReply(ticker, data).value.PriceReport? ==>
      !PriceReply(ticker, data).value.change.Unchanged?
  {
    if PriceReply(ticker, data).Ok? && PriceReply(ticker, data).value.PriceReport? {
      PriceMove(ticker, data);
    }
  }

  /** A quote without an opening price. */
  const QUOTE_WITHOUT_OPEN: Json :=
    Obj([("results", Arr([Obj([("c", Num(150.0))])]))])

  /** The quote without an opening price raises instead of being reported as
      unchanged. */
  lemma MissingOpenRaises()
    ensures ChangeOf(Num(150.0), NA) == Ok(Unchanged)
    ensures PriceReply("AAPL", QUOTE_WITHOUT_OPEN) == Raised(Exn("Unknown format code 'f' for object of type 'str'"))
  {
    QuoteWithoutOpenFields();
  }

  lemma QuoteWithoutOpenFields()
    ensures FirstResult(QUOTE_WITHOUT_OPEN) == Ok(Some(Obj([("c", Num(150.0))])))
    ensures var r := Obj([("c", Num(150.0))]);
      Get(r, "c", NA) == Ok(Num(150.0)) && Get(r, "o", NA) == Ok(NA) && Get(r, "h", NA) == Ok(NA)
      && Get(r, "l", NA) == Ok(NA) && Get(r, "v", NA) == Ok(NA)
  {
    var fs := [("results", Arr([Obj([("c", Num(150.0))])]))];
    assert Keys(fs) == ["results"];
    assert Lookup(fs, "results") == Some(Arr([Obj([("c", Num(150.0))])]));
    var gs := [("c", Num(150.0))];
    assert Keys(gs) == ["c"];
    assert Lookup(gs, "c") == Some(Num(150.0));
    assert "o" != "c" && "h" != "c" && "l" != "c" && "v" != "c";
  }

  /** Showing missing values as N/A changes no reply the code already gives. */
  lemma CorrectedAgreesWhereDefined(ticker: string, data: Json)
    ensures PriceReply(ticker, data).Ok? ==> PriceReplyCorrected(ticker, data) == PriceReply(ticker, data)
  {
    if PriceReply(ticker, data).Ok? && FirstResult(data).value.Some? {
      var q := QuoteOf(FirstResult(data).value.value).value;
      ReportCorrectedAgrees(ticker, q);
    }
  }

  lemma ReportCorrectedAgrees(ticker: string, q: Quote)
    ensures Report(ticker, q).Ok? ==> ReportCorrected(ticker, q) == Report(ticker, q)
  {
  }

  /** With missing values shown as N/A, a quote is reported as unchanged exactly
      when its close or its open is missing. */
  lemma CorrectedReportsUnchanged(ticker: string, data: Json)
    ensures PriceReplyCorrected(ticker, data).Ok? && PriceReplyCorrected(ticker, data).value.PriceReport? ==>
      var rep := PriceReplyCorrected(ticker, data).value;
      rep.change.Unchanged? <==> rep.close == NA || rep.open == NA
  {
    if PriceReplyCorrected(ticker, data).Ok? && PriceReplyCorrected(ticker, data).value.PriceReport? {
      var q := QuoteOf(FirstResult(data).value.value).value;
      ReportCorrectedUnchanged(ticker, q);
    }
  }

  lemma ReportCorrectedUnchanged(ticker: string, q: Quote)
    ensures ReportCorrected(ticker, q).Ok? ==>
      var rep := ReportCorrected(ticker, q).value;
      rep.change.Unchanged? <==> rep.close == NA || rep.open == NA
  {
  }

  /** The quote without an opening price is now reported, as unchanged. */
  lemma CorrectedReportsMissingOpen()
    ensures PriceReplyCorrected("AAPL", QUOTE_WITHOUT_OPEN) ==
      Ok(PriceReport("AAPL", Num(150.0), NA, NA, NA, NA, Unchanged))
  {
    QuoteWithoutOpenFields();
  }

  /** The news reply lists at most three items, in order, each summary cut to 200
      characters (or elements). */
  lemma NewsReplyBounds(ticker: string, data: Json)
    requires NewsReply(ticker, data).Ok? && NewsReply(ticker, data).value.NewsReport?
    ensures var rep := NewsReply(ticker, data).value;
      && |rep.briefs| <= 3
      && forall b :: b in rep.briefs ==> ShortSummary(b)
  {
    var items := NewsItems(data).value.value;
    NewsItemsAtMostThree(data);
    assert NewsReply(ticker, data) == Ok(NewsReport(ticker, ConcatMap(items, Brief).value));
    BriefsCount(items);
    BriefsShort(items);
  }

  /** A summary of at most 200 characters (or elements). */
  predicate ShortSummary(b: NewsBrief) {
    (b.summary.Str? && |b.summary.s| <= 200) || (b.summary.Arr? && |b.summary.items| <= 200)
  }

  lemma BriefsShort(items: seq<Json>)
    ensures ConcatMap(items, Brief).Ok? ==> forall b :: b in ConcatMap(items, Brief).value ==> ShortSummary(b)
  {
    forall x | x in items && Brief(x).Ok? ensures forall b :: b in Brief(x).value ==> ShortSummary(b) {
      BriefShort(x);
    }
    ConcatMapAll(items, Brief, ShortSummary);
  }

  lemma BriefShort(item: Json)
    requires Brief(item).Ok?
    ensures forall b :: b in Brief(item).value ==> ShortSummary(b)
  {
    var description := Get(item, "description", Str("No description available.")).value;
    TakeBound(description, 200);
  }

  lemma NewsItemsAtMostThree(data: Json)
    ensures NewsItems(data).Ok? && NewsItems(data).value.Some? ==> |NewsItems(data).value.value| <= 3
  {
    if NewsItems(data).Ok? && NewsItems(data).value.Some? {
      var results := Index(data, "results").value;
      assert Take(results, 3).Ok? && Iterate(Take(results, 3).value).Ok?;
    }
  }

  lemma {:induction false} BriefsCount(items: seq<Json>)
    ensures ConcatMap(items, Brief).Ok? ==> |ConcatMap(items, Brief).value| == |items|
    decreases |items|
  {
    if items != [] {
      BriefsCount(items[..|items| - 1]);
    }
  }
}
