/** The data digest the insight prompt carries (`_format_data_for_prompt` in
    openai_service.py). The text is modelled as the sequence of lines the method
    writes, each an abstract `Piece` holding the values the line shows; how a piece
    is rendered (markdown, `{:,}` thousands separators, "...") is left out. The
    method makes six passes over the merged results, one per section, and every
    pass visits every entry in dict order. */
module PromptDigest {
  import opened PyText
  import opened PyJson
  import opened Collect

  type Entry = (string, Json)

  /** The three statement lists a financials payload may carry. */
  datatype Statement = Income | Balance | CashFlow

  function StatementsKey(k: Statement): string {
    match k
    case Income => "income_statements"
    case Balance => "balance_sheets"
    case CashFlow => "cash_flow_statements"
  }

  /** The metrics shown for each kind of statement, in the order shown. */
  function KeyMetrics(k: Statement): seq<string> {
    match k
    case Income => ["total_revenue", "gross_profit", "operating_income", "net_income", "earnings_per_share"]
    case Balance => ["total_assets", "total_liabilities", "total_equity", "cash_and_equivalents", "total_debt"]
    case CashFlow => ["operating_cash_flow", "investing_cash_flow", "financing_cash_flow", "free_cash_flow", "capital_expenditures"]
  }

  const NA: Json := Str("N/A")

  /** One line (or block of lines) of the digest. */
  datatype Piece =
    // Perplexity answers
    | SearchHeading(deep: bool)
    | SearchContent(text: string)
    | SourcesHeading
    | Citation(number: nat, citation: Json)
    | SourcesEnd
    // stock prices
    | PriceHeading(ticker: string)
    | PriceQuote(close: Json, open: Json, high: Json, low: Json, volume: Json)
    // news
    | NewsHeading(ticker: string)
    | NewsLine(title: Json, published: Json)
    | NewsSummary(summary: Json)
    // financial statements
    | FinancialsHeading(ticker: string)
    | StatementsHeading(kind: Statement)
    | FiscalYear(kind: Statement, year: Json)
    | Metric(kind: Statement, name: string, amount: Json)
    | StatementEnd
    | NoFinancials(ticker: string)
    // SEC filings
    | FilingsHeading(ticker: string)
    | FilingLine(form: Json, filed: Json)
    | FilingDescription(description: Json)
    | FilingUrl(url: Json)
    | FilingEnd
    | NoFilings(ticker: string)
    // insider trades
    | TradesHeading(ticker: string)
    | TradesIntro
    | TradeLine(insider: Json, role: Option<Json>, transaction: Json, shares: Json, price: Option<Json>, date: Json)
    | SharesOwned(before: Json, after: Json)
    | TradesEnd
    | NoTrades(ticker: string)

  /** The section a piece belongs to, in the order the six passes run. */
  function Rank(p: Piece): nat {
    match p
    case SearchHeading(_) => 0
    case SearchContent(_) => 0
    case SourcesHeading => 0
    case Citation(_, _) => 0
    case SourcesEnd => 0
    case PriceHeading(_) => 1
    case PriceQuote(_, _, _, _, _) => 1
    case NewsHeading(_) => 2
    case NewsLine(_, _) => 2
    case NewsSummary(_) => 2
    case FinancialsHeading(_) => 3
    case StatementsHeading(_) => 3
    case FiscalYear(_, _) => 3
    case Metric(_, _, _) => 3
    case StatementEnd => 3
    case NoFinancials(_) => 3
    case FilingsHeading(_) => 4
    case FilingLine(_, _) => 4
    case FilingDescription(_) => 4
    case FilingUrl(_) => 4
    case FilingEnd => 4
    case NoFilings(_) => 4
    case TradesHeading(_) => 5
    case TradesIntro => 5
    case TradeLine(_, _, _, _, _, _) => 5
    case SharesOwned(_, _) => 5
    case TradesEnd => 5
    case NoTrades(_) => 5
  }

  /** `content + "\n\n"`: only a string can be concatenated with a string. */
  function AsText(v: Json): Outcome<string> {
    if v.Str? then Ok(v.s)
    else Raised(TypeError("unsupported operand type(s) for +: '" + TypeName(v) + "' and 'str'"))
  }

  /** `f"{v:,}"`: the thousands separator is only defined for numbers. */
  function Thousands(v: Json): Outcome<Json> {
    if IsNumeric(v) then Ok(v)
    else if v.Str? then Raised(Exn("Cannot specify ',' with 's'."))
    else Raised(TypeError("unsupported format string passed to " + TypeName(v) + ".__format__"))
  }

  /** `"error" in value`, the guard every pass applies first. */
  function HasError(v: Json): Outcome<bool> {
    In("error", v)
  }

  // ---------------------------------------------------------------------------
  // Pass 1: Perplexity answers

  function Citations(cs: seq<Json>): seq<Piece> {
    seq(|cs|, i requires 0 <= i < |cs| => Citation(i + 1, cs[i]))
  }

  function SearchSection(e: Entry): Outcome<seq<Piece>> {
    var (key, value) := e;
    if key != "perplexity_sonar" && key != "perplexity_deep_research" then Ok([])
    else
      var err :- HasError(value);
      if err then Ok([])
      else
        var hasChoices :- In("choices", value);
        if !hasChoices then Ok([])
        else
          var choices :- Index(value, "choices");
          var n :- Len(choices);
          if n == 0 then Ok([])
          else
            var first :- At(choices, 0);
            var message :- Index(first, "message");
            var content :- Index(message, "content");
            var text :- AsText(content);
            var head := [SearchHeading(key == "perplexity_deep_research"), SearchContent(text)];
            var hasCitations :- In("citations", value);
            if !hasCitations then Ok(head)
            else
              var list :- Index(value, "citations");
              var cs :- Iterate(list);
              Ok(head + [SourcesHeading] + Citations(cs) + [SourcesEnd])
  }

  // ---------------------------------------------------------------------------
  // Pass 2: stock prices

  function PriceSection(e: Entry): Outcome<seq<Piece>> {
    var (key, value) := e;
    if !Contains(key, "_price") then Ok([])
    else
      var err :- HasError(value);
      if err then Ok([])
      else
        var heading := [PriceHeading(BeforeUnderscore(key))];
        var has :- In("results", value);
        if !has then Ok(heading)
        else
          var results :- Index(value, "results");
          if !Truthy(results) then Ok(heading)
          else
            var r :- At(results, 0);
            var c :- Get(r, "c", NA);
            var o :- Get(r, "o", NA);
            var h :- Get(r, "h", NA);
            var l :- Get(r, "l", NA);
            var v :- Get(r, "v", NA);
            Ok(heading + [PriceQuote(c, o, h, l, v)])
  }

  // ---------------------------------------------------------------------------
  // Pass 3: news

  function NewsItem(news: Json): Outcome<seq<Piece>> {
    var title :- Get(news, "title", Str("No title"));
    var published :- Get(news, "published_utc", NA);
    var description :- Get(news, "description", Null);
    if !Truthy(description) then Ok([NewsLine(title, published)])
    else
      var summary :- Take(description, 150);
      Ok([NewsLine(title, published), NewsSummary(summary)])
  }

  function NewsSection(e: Entry): Outcome<seq<Piece>> {
    var (key, value) := e;
    if !Contains(key, "_news") then Ok([])
    else
      var err :- HasError(value);
      if err then Ok([])
      else
        var heading := [NewsHeading(BeforeUnderscore(key))];
        var has :- In("results", value);
        if !has then Ok(heading)
        else
          var results :- Index(value, "results");
          var top :- Take(results, 3);
          var items :- Iterate(top);
          var lines :- ConcatMap(items, NewsItem);
          Ok(heading + lines)
  }

  // ---------------------------------------------------------------------------
  // Pass 4: financial statements

  /** `if metric in statement`: the metric's line, its amount formatted with `{:,}`. */
  function MetricLine(kind: Statement, statement: Json, metric: string): Outcome<seq<Piece>> {
    var present :- In(metric, statement);
    if !present then Ok([])
    else
      var amount :- Index(statement, metric);
      var shown :- Thousands(amount);
      Ok([Metric(kind, metric, shown)])
  }

  /** The lines of the metrics of `names`, in order. */
  function Metrics(kind: Statement, statement: Json, names: seq<string>): Outcome<seq<Piece>>
    decreases |names|
  {
    if names == [] then Ok([])
    else
      var front :- Metrics(kind, statement, names[..|names| - 1]);
      var last :- MetricLine(kind, statement, names[|names| - 1]);
      Ok(front + last)
  }

  function StatementLines(kind: Statement, statement: Json): Outcome<seq<Piece>> {
    var year :- Get(statement, "fiscal_year", NA);
    var metrics :- Metrics(kind, statement, KeyMetrics(kind));
    Ok([FiscalYear(kind, year)] + metrics + [StatementEnd])
  }

  function StatementStep(kind: Statement): Json -> Outcome<seq<Piece>> {
    s => StatementLines(kind, s)
  }

  /** One statement block: shown only when its list is present and non-empty,
      and then with at most its first two statements. */
  function StatementBlock(financials: Json, kind: Statement): Outcome<seq<Piece>> {
    var has :- In(StatementsKey(kind), financials);
    if !has then Ok([])
    else
      var list :- Index(financials, StatementsKey(kind));
      if !Truthy(list) then Ok([])
      else
        var top :- Take(list, 2);
        var statements :- Iterate(top);
        var lines :- ConcatMap(statements, StatementStep(kind));
        Ok([StatementsHeading(kind)] + lines)
  }

  function FinancialsSection(e: Entry): Outcome<seq<Piece>> {
    var (key, value) := e;
    if !Contains(key, "_financials") then Ok([])
    else
      var err :- HasError(value);
      if err then Ok([])
      else
        var ticker := BeforeUnderscore(key);
        var has :- In("financials", value);
        if !has then Ok([FinancialsHeading(ticker), NoFinancials(ticker)])
        else
          var financials :- Index(value, "financials");
          var income :- StatementBlock(financials, Income);
          var balance :- StatementBlock(financials, Balance);
          var cashFlow :- StatementBlock(financials, CashFlow);
          Ok([FinancialsHeading(ticker)] + income + balance + cashFlow)
  }

  // ---------------------------------------------------------------------------
  // Pass 5: SEC filings

  function FilingItem(filing: Json): Outcome<seq<Piece>> {
    var form :- Get(filing, "form_type", NA);
    var filed :- Get(filing, "filing_date", NA);
    var description :- Get(filing, "description", Null);
    var url :- Get(filing, "url", Null);
    Ok(FilingLines(form, filed, description, url))
  }

  /** The lines of one filing: the description and the link only when truthy. */
  function FilingLines(form: Json, filed: Json, description: Json, url: Json): seq<Piece> {
    [FilingLine(form, filed)]
    + (if Truthy(description) then [FilingDescription(description)] else [])
    + (if Truthy(url) then [FilingUrl(url)] else [])
    + [FilingEnd]
  }

  function FilingsSection(e: Entry): Outcome<seq<Piece>> {
    var (key, value) := e;
    if !Contains(key, "_sec_filings") then Ok([])
    else
      var err :- HasError(value);
      if err then Ok([])
      else
        var ticker := BeforeUnderscore(key);
        var has :- In("filings", value);
        var filings :- if has then Index(value, "filings") else Ok(Null);
        if !Truthy(filings) then Ok([FilingsHeading(ticker), NoFilings(ticker)])
        else
          var top :- Take(filings, 3);
          var items :- Iterate(top);
          var lines :- ConcatMap(items, FilingItem);
          Ok([FilingsHeading(ticker)] + lines)
  }

  // ---------------------------------------------------------------------------
  // Pass 6: insider trades

  /** `trade.get(primary, trade.get(fallback, d))`. */
  function GetEither(trade: Json, primary: string, fallback: string, d: Json): Outcome<Json> {
    var second :- Get(trade, fallback, d);
    Get(trade, primary, second)
  }

  /** The name, title, transaction, shares, price and date of a trade, each read
      under its primary key or its fallback. */
  function TradeValues(trade: Json): Outcome<(Json, Json, Json, Json, Json, Json)> {
    var name :- GetEither(trade, "name", "insider_name", Str("Unknown"));
    var title :- GetEither(trade, "title", "insider_title", Str(""));
    var shares :- GetEither(trade, "shares", "share_count", NA);
    var price :- GetEither(trade, "price", "share_price", NA);
    var date :- GetEither(trade, "trade_date", "transaction_date", NA);
    var kind :- GetEither(trade, "transaction_type", "transaction_code", Str(""));
    Ok((name, title, kind, shares, price, date))
  }

  /** The line of one trade: the role and price are shown only when truthy. */
  function TradeSummary(trade: Json): Outcome<Piece> {
    var values :- TradeValues(trade);
    Ok(TradeLineOf(values))
  }

  function TradeLineOf(values: (Json, Json, Json, Json, Json, Json)): Piece {
    var (name, title, kind, shares, price, date) := values;
    TradeLine(name, if Truthy(title) then Some(title) else None, kind, shares,
              if Truthy(price) then Some(price) else None, date)
  }

  /** The holdings line, shown only when both holdings are truthy. */
  function Holdings(trade: Json): Outcome<seq<Piece>> {
    var before :- Get(trade, "shares_owned_before", Null);
    var after :- Get(trade, "shares_owned_after", Null);
    Ok(if Truthy(before) && Truthy(after) then [SharesOwned(before, after)] else [])
  }

  function TradeItem(trade: Json): Outcome<seq<Piece>> {
    var line :- TradeSummary(trade);
    var holdings :- Holdings(trade);
    Ok([line] + holdings)
  }

  function TradesSection(e: Entry): Outcome<seq<Piece>> {
    var (key, value) := e;
    if !Contains(key, "_insider_trades") then Ok([])
    else
      var err :- HasError(value);
      if err then Ok([])
      else
        var ticker := BeforeUnderscore(key);
        var has :- In("results", value);
        var results :- if has then Index(value, "results") else Ok(Null);
        if !Truthy(results) then Ok([TradesHeading(ticker), NoTrades(ticker)])
        else
          var top :- Take(results, 5);
          var items :- Iterate(top);
          var lines :- ConcatMap(items, TradeItem);
          Ok([TradesHeading(ticker), TradesIntro] + lines + [TradesEnd])
  }

  // ---------------------------------------------------------------------------
  // The whole digest

  datatype Section = SearchPass | PricePass | NewsPass | FinancialsPass | FilingsPass | TradesPass

  function Pass(sec: Section): Entry -> Outcome<seq<Piece>> {
    match sec
    case SearchPass => SearchSection
    case PricePass => PriceSection
    case NewsPass => NewsSection
    case FinancialsPass => FinancialsSection
    case FilingsPass => FilingsSection
    case TradesPass => TradesSection
  }

  function PassRank(sec: Section): nat {
    match sec
    case SearchPass => 0
    case PricePass => 1
    case NewsPass => 2
    case FinancialsPass => 3
    case FilingsPass => 4
    case TradesPass => 5
  }

  /** The digest of the merged results: the six passes in order, or the first
      exception one of them raises. */
  function Digest(data: seq<Entry>): Outcome<seq<Piece>> {
    var search :- ConcatMap(data, Pass(SearchPass));
    var prices :- ConcatMap(data, Pass(PricePass));
    var news :- ConcatMap(data, Pass(NewsPass));
    var financials :- ConcatMap(data, Pass(FinancialsPass));
    var filings :- ConcatMap(data, Pass(FilingsPass));
    var trades :- ConcatMap(data, Pass(TradesPass));
    Ok(search + prices + news + financials + filings + trades)
  }

  // ---------------------------------------------------------------------------
  // The loops

  /** `for x in items: text += step(x)`, for a step without a loop of its own. */
  method CollectEach<T>(items: seq<T>, step: T -> Outcome<seq<Piece>>) returns (r: Outcome<seq<Piece>>)
    ensures r == ConcatMap(items, step)
  {
    var acc: seq<Piece> := [];
    var i := 0;
    while i < |items|
      invariant 0 <= i <= |items|
      invariant ConcatMap(items[..i], step) == Ok(acc)
    {
      var p := step(items[i]);
      ConcatMapStep(items, i, step);
      if p.Raised? {
        ConcatMapRaisedPrefix(items, i + 1, step);
        return Raised(p.error);
      }
      acc := acc + p.value;
      i := i + 1;
    }
    assert items[..i] == items;
    r := Ok(acc);
  }

  /** The citation loop, `for i, citation in enumerate(...)`. */
  method CitationLines(cs: seq<Json>) returns (lines: seq<Piece>)
    ensures lines == Citations(cs)
  {
    lines := [];
    var i := 0;
    while i < |cs|
      invariant 0 <= i <= |cs|
      invariant lines == Citations(cs[..i])
    {
      assert Citations(cs[..i + 1]) == Citations(cs[..i]) + [Citation(i + 1, cs[i])];
      lines := lines + [Citation(i + 1, cs[i])];
      i := i + 1;
    }
    assert cs[..i] == cs;
  }

  method SearchEntry(e: Entry) returns (r: Outcome<seq<Piece>>)
    ensures r == SearchSection(e)
  {
    var (key, value) := e;
    if key != "perplexity_sonar" && key != "perplexity_deep_research" {
      return Ok([]);
    }
    var err :- HasError(value);
    if err {
      return Ok([]);
    }
    var hasChoices :- In("choices", value);
    if !hasChoices {
      return Ok([]);
    }
    var choices :- Index(value, "choices");
    var n :- Len(choices);
    if n == 0 {
      return Ok([]);
    }
    var first :- At(choices, 0);
    var message :- Index(first, "message");
    var content :- Index(message, "content");
    var text :- AsText(content);
    var lines := [SearchHeading(key == "perplexity_deep_research"), SearchContent(text)];
    var hasCitations :- In("citations", value);
    if hasCitations {
      var list :- Index(value, "citations");
      var cs :- Iterate(list);
      var cited := CitationLines(cs);
      lines := lines + [SourcesHeading] + cited + [SourcesEnd];
    }
    r := Ok(lines);
  }

  method NewsEntry(e: Entry) returns (r: Outcome<seq<Piece>>)
    ensures r == NewsSection(e)
  {
    var (key, value) := e;
    if !Contains(key, "_news") {
      return Ok([]);
    }
    var err :- HasError(value);
    if err {
      return Ok([]);
    }
    var lines := [NewsHeading(BeforeUnderscore(key))];
    var has :- In("results", value);
    if has {
      var results :- Index(value, "results");
      var top :- Take(results, 3);
      var items :- Iterate(top);
      var each :- CollectEach(items, NewsItem);
      lines := lines + each;
    }
    r := Ok(lines);
  }

  /** The metric loop of one statement. */
  method MetricLines(kind: Statement, statement: Json, names: seq<string>) returns (r: Outcome<seq<Piece>>)
    ensures r == Metrics(kind, statement, names)
  {
    var acc: seq<Piece> := [];
    var i := 0;
    while i < |names|
      invariant 0 <= i <= |names|
      invariant Metrics(kind, statement, names[..i]) == Ok(acc)
    {
      assert names[..i + 1][..i] == names[..i];
      var p := MetricLine(kind, statement, names[i]);
      if p.Raised? {
        MetricsRaisedPrefix(kind, statement, names, i + 1);
        return Raised(p.error);
      }
      acc := acc + p.value;
      i := i + 1;
    }
    assert names[..i] == names;
    r := Ok(acc);
  }

  lemma {:induction false} MetricsRaisedPrefix(kind: Statement, statement: Json, names: seq<string>, i: nat)
    requires i <= |names| && Metrics(kind, statement, names[..i]).Raised?
    ensures Metrics(kind, statement, names) == Metrics(kind, statement, names[..i])
    decreases |names| - i
  {
    if i == |names| {
      assert names[..i] == names;
    } else {
      assert names[..i + 1][..i] == names[..i];
      MetricsRaisedPrefix(kind, statement, names, i + 1);
    }
  }

  method StatementEntry(kind: Statement, statement: Json) returns (r: Outcome<seq<Piece>>)
    ensures r == StatementStep(kind)(statement)
  {
    var year :- Get(statement, "fiscal_year", NA);
    var metrics :- MetricLines(kind, statement, KeyMetrics(kind));
    r := Ok([FiscalYear(kind, year)] + metrics + [StatementEnd]);
  }

  /** The loop over the first two statements of one kind. */
  method StatementBlockEntry(financials: Json, kind: Statement) returns (r: Outcome<seq<Piece>>)
    ensures r == StatementBlock(financials, kind)
  {
    var has :- In(StatementsKey(kind), financials);
    if !has {
      return Ok([]);
    }
    var list :- Index(financials, StatementsKey(kind));
    if !Truthy(list) {
      return Ok([]);
    }
    var top :- Take(list, 2);
    var statements :- Iterate(top);
    var acc: seq<Piece> := [];
    var i := 0;
    while i < |statements|
      invariant 0 <= i <= |statements|
      invariant ConcatMap(statements[..i], StatementStep(kind)) == Ok(acc)
    {
      var p := StatementEntry(kind, statements[i]);
      ConcatMapStep(statements, i, StatementStep(kind));
      if p.Raised? {
        ConcatMapRaisedPrefix(statements, i + 1, StatementStep(kind));
        return Raised(p.error);
      }
      acc := acc + p.value;
      i := i + 1;
    }
    assert statements[..i] == statements;
    r := Ok([StatementsHeading(kind)] + acc);
  }

  method FinancialsEntry(e: Entry) returns (r: Outcome<seq<Piece>>)
    ensures r == FinancialsSection(e)
  {
    var (key, value) := e;
    if !Contains(key, "_financials") {
      return Ok([]);
    }
    var err :- HasError(value);
    if err {
      return Ok([]);
    }
    var ticker := BeforeUnderscore(key);
    var has :- In("financials", value);
    if !has {
      return Ok([FinancialsHeading(ticker), NoFinancials(ticker)]);
    }
    var financials :- Index(value, "financials");
    var income :- StatementBlockEntry(financials, Income);
    var balance :- StatementBlockEntry(financials, Balance);
    var cashFlow :- StatementBlockEntry(financials, CashFlow);
    r := Ok([FinancialsHeading(ticker)] + income + balance + cashFlow);
  }

  method FilingsEntry(e: Entry) returns (r: Outcome<seq<Piece>>)
    ensures r == FilingsSection(e)
  {
    var (key, value) := e;
    if !Contains(key, "_sec_filings") {
      return Ok([]);
    }
    var err :- HasError(value);
    if err {
      return Ok([]);
    }
    var ticker := BeforeUnderscore(key);
    var has :- In("filings", value);
    var filings := Null;
    if has {
      filings :- Index(value, "filings");
    }
    if !Truthy(filings) {
      return Ok([FilingsHeading(ticker), NoFilings(ticker)]);
    }
    var top :- Take(filings, 3);
    var items :- Iterate(top);
    var lines :- CollectEach(items, FilingItem);
    r := Ok([FilingsHeading(ticker)] + lines);
  }

  method TradesEntry(e: Entry) returns (r: Outcome<seq<Piece>>)
    ensures r == TradesSection(e)
  {
    var (key, value) := e;
    if !Contains(key, "_insider_trades") {
      return Ok([]);
    }
    var err :- HasError(value);
    if err {
      return Ok([]);
    }
    var ticker := BeforeUnderscore(key);
    var has :- In("results", value);
    var results := Null;
    if has {
      results :- Index(value, "results");
    }
    if !Truthy(results) {
      return Ok([TradesHeading(ticker), NoTrades(ticker)]);
    }
    var top :- Take(results, 5);
    var items :- Iterate(top);
    var lines :- CollectEach(items, TradeItem);
    r := Ok([TradesHeading(ticker), TradesIntro] + lines + [TradesEnd]);
  }

  method PassEntry(sec: Section, e: Entry) returns (r: Outcome<seq<Piece>>)
    ensures r == Pass(sec)(e)
  {
    match sec
    case SearchPass => r := SearchEntry(e);
    case PricePass => r := PriceSection(e);
    case NewsPass => r := NewsEntry(e);
    case FinancialsPass => r := FinancialsEntry(e);
    case FilingsPass => r := FilingsEntry(e);
    case TradesPass => r := TradesEntry(e);
  }

  /** One pass, `for key, value in data.items(): ...`. */
  method RunPass(data: seq<Entry>, sec: Section) returns (r: Outcome<seq<Piece>>)
    ensures r == ConcatMap(data, Pass(sec))
  {
    var acc: seq<Piece> := [];
    var i := 0;
    while i < |data|
      invariant 0 <= i <= |data|
      invariant ConcatMap(data[..i], Pass(sec)) == Ok(acc)
    {
      var p := PassEntry(sec, data[i]);
      ConcatMapStep(data, i, Pass(sec));
      if p.Raised? {
        ConcatMapRaisedPrefix(data, i + 1, Pass(sec));
        return Raised(p.error);
      }
      acc := acc + p.value;
      i := i + 1;
    }
    assert data[..i] == data;
    r := Ok(acc);
  }

  /** `_format_data_for_prompt`. */
  method FormatDataForPrompt(data: seq<Entry>) returns (r: Outcome<seq<Piece>>)
    ensures r == Digest(data)
  {
    var search :- RunPass(data, SearchPass);
    var prices :- RunPass(data, PricePass);
    var news :- RunPass(data, NewsPass);
    var financials :- RunPass(data, FinancialsPass);
    var filings :- RunPass(data, FilingsPass);
    var trades :- RunPass(data, TradesPass);
    r := Ok(search + prices + news + financials + filings + trades);
  }

  // ---------------------------------------------------------------------------
  // Properties of the digest

  /** A slice of at most `n` characters or elements. */
  predicate Truncated(v: Json, n: nat) {
    (v.Str? && |v.s| <= n) || (v.Arr? && |v.items| <= n)
  }

  /** What every line of the digest respects: summaries cut to 150 characters,
      only allow-listed metrics with numeric amounts, optional parts shown only
      when truthy. */
  predicate WellFormed(p: Piece) {
    && (p.NewsSummary? ==> Truncated(p.summary, 150))
    && (p.Metric? ==> p.name in KeyMetrics(p.kind) && IsNumeric(p.amount))
    && (p.FilingDescription? ==> Truthy(p.description))
    && (p.FilingUrl? ==> Truthy(p.url))
    && (p.TradeLine? ==> (p.role.Some? ==> Truthy(p.role.value)) && (p.price.Some? ==> Truthy(p.price.value)))
    && (p.SharesOwned? ==> Truthy(p.before) && Truthy(p.after))
  }

  /** A well-formed line of section `r`. */
  predicate InSection(r: nat, p: Piece) {
    WellFormed(p) && Rank(p) == r
  }

  /** Every line of `ps` is a well-formed line of section `r`. */
  predicate AllIn(ps: seq<Piece>, r: nat) {
    forall p :: p in ps ==> InSection(r, p)
  }

  /** The lines of a loop lie in section `r` when those of every step do. */
  lemma LinesInSection<T>(items: seq<T>, f: T -> Outcome<seq<Piece>>, r: nat)
    requires forall x :: x in items && f(x).Ok? ==> AllIn(f(x).value, r)
    ensures ConcatMap(items, f).Ok? ==> AllIn(ConcatMap(items, f).value, r)
  {
    var inSection := (p: Piece) => InSection(r, p);
    forall x | x in items && f(x).Ok? ensures forall y :: y in f(x).value ==> inSection(y) {
      assert AllIn(f(x).value, r);
    }
    ConcatMapAll(items, f, inSection);
  }

  lemma MetricLineInSection(kind: Statement, statement: Json, name: string)
    requires name in KeyMetrics(kind)
    ensures MetricLine(kind, statement, name).Ok? ==>
      forall p :: p in MetricLine(kind, statement, name).value ==> p.Metric? && InSection(3, p)
  {
    var r := MetricLine(kind, statement, name);
    if r.Ok? && In(name, statement) == Ok(true) {
      var shown := Thousands(Index(statement, name).value).value;
      assert r.value == [Metric(kind, name, shown)];
      assert InSection(3, Metric(kind, name, shown));
    }
  }

  lemma {:induction false} MetricsInSection(kind: Statement, statement: Json, names: seq<string>)
    requires forall n :: n in names ==> n in KeyMetrics(kind)
    ensures Metrics(kind, statement, names).Ok? ==>
      forall p :: p in Metrics(kind, statement, names).value ==> p.Metric? && InSection(3, p)
    decreases |names|
  {
    if names != [] && Metrics(kind, statement, names).Ok? {
      var init, name := names[..|names| - 1], names[|names| - 1];
      assert forall n :: n in init ==> n in names;
      MetricsInSection(kind, statement, init);
      assert name in names;
      MetricLineInSection(kind, statement, name);
      var front, last := Metrics(kind, statement, init).value, MetricLine(kind, statement, name).value;
      assert Metrics(kind, statement, names).value == front + last;
    }
  }

  lemma StatementStepInSection(kind: Statement, statement: Json)
    ensures StatementStep(kind)(statement).Ok? ==> AllIn(StatementStep(kind)(statement).value, 3)
  {
    if StatementStep(kind)(statement).Ok? {
      var year := Get(statement, "fiscal_year", NA).value;
      var metrics := Metrics(kind, statement, KeyMetrics(kind)).value;
      MetricsInSection(kind, statement, KeyMetrics(kind));
      assert StatementStep(kind)(statement).value == [FiscalYear(kind, year)] + metrics + [StatementEnd];
      assert InSection(3, FiscalYear(kind, year)) && InSection(3, StatementEnd);
    }
  }

  /** The statements the loop of one block visits: none when the block is not
      shown. */
  function BlockStatements(financials: Json, kind: Statement): seq<Json> {
    match In(StatementsKey(kind), financials)
    case Ok(true) =>
      (match Index(financials, StatementsKey(kind))
       case Ok(list) =>
         if !Truthy(list) then []
         else
           (match Take(list, 2)
            case Ok(top) => (match Iterate(top) case Ok(xs) => xs case _ => [])
            case _ => [])
       case _ => [])
    case _ => []
  }

  /** A block is empty, or its heading followed by the lines of at most two
      statements. */
  lemma StatementBlockLines(financials: Json, kind: Statement)
    requires StatementBlock(financials, kind).Ok?
    ensures |BlockStatements(financials, kind)| <= 2
    ensures var lines := ConcatMap(BlockStatements(financials, kind), StatementStep(kind));
      || StatementBlock(financials, kind).value == []
      || (lines.Ok? && StatementBlock(financials, kind).value == [StatementsHeading(kind)] + lines.value)
  {
    var r := StatementBlock(financials, kind);
    if In(StatementsKey(kind), financials) == Ok(true) {
      var list := Index(financials, StatementsKey(kind)).value;
      if Truthy(list) {
        TakeIterate(list, 2);
        assert BlockStatements(financials, kind) == Iterate(Take(list, 2).value).value;
      }
    }
  }

  lemma StatementBlockInSection(financials: Json, kind: Statement)
    ensures StatementBlock(financials, kind).Ok? ==> AllIn(StatementBlock(financials, kind).value, 3)
  {
    if StatementBlock(financials, kind).Ok? {
      StatementBlockLines(financials, kind);
      var statements := BlockStatements(financials, kind);
      forall s | s in statements && StatementStep(kind)(s).Ok?
        ensures AllIn(StatementStep(kind)(s).value, 3)
      {
        StatementStepInSection(kind, s);
      }
      LinesInSection(statements, StatementStep(kind), 3);
      assert InSection(3, StatementsHeading(kind));
    }
  }

  lemma SearchInSection(e: Entry)
    ensures SearchSection(e).Ok? ==> AllIn(SearchSection(e).value, 0)
  {
    var (key, value) := e;
    var r := SearchSection(e);
    if r.Ok? && (key == "perplexity_sonar" || key == "perplexity_deep_research")
      && HasError(value) == Ok(false) && In("choices", value) == Ok(true)
    {
      var choices := Index(value, "choices").value;
      if Len(choices).value != 0 {
        var message := Index(At(choices, 0).value, "message").value;
        var text := AsText(Index(message, "content").value).value;
        var deep := key == "perplexity_deep_research";
        if In("citations", value) == Ok(true) {
          var cs := Iterate(Index(value, "citations").value).value;
          SearchPiecesInSection(deep, text, cs);
          assert r.value == [SearchHeading(deep), SearchContent(text)] + [SourcesHeading] + Citations(cs) + [SourcesEnd];
        } else {
          SearchPiecesInSection(deep, text, []);
          assert r.value == [SearchHeading(deep), SearchContent(text)];
        }
      }
    }
  }

  lemma SearchPiecesInSection(deep: bool, text: string, cs: seq<Json>)
    ensures AllIn([SearchHeading(deep), SearchContent(text)], 0)
    ensures AllIn([SearchHeading(deep), SearchContent(text)] + [SourcesHeading] + Citations(cs) + [SourcesEnd], 0)
  {
    var all := [SearchHeading(deep), SearchContent(text)] + [SourcesHeading] + Citations(cs) + [SourcesEnd];
    forall p | p in all ensures InSection(0, p) {
      if p in Citations(cs) {
        var i :| 0 <= i < |cs| && Citations(cs)[i] == p;
      }
    }
  }

  lemma PriceInSection(e: Entry)
    ensures PriceSection(e).Ok? ==> AllIn(PriceSection(e).value, 1)
  {
  }

  lemma NewsItemInSection(x: Json)
    ensures NewsItem(x).Ok? ==> AllIn(NewsItem(x).value, 2)
  {
    if NewsItem(x).Ok? {
      var title := Get(x, "title", Str("No title")).value;
      var published := Get(x, "published_utc", NA).value;
      var description := Get(x, "description", Null).value;
      assert InSection(2, NewsLine(title, published));
      if Truthy(description) {
        var summary := Take(description, 150).value;
        assert NewsItem(x).value == [NewsLine(title, published), NewsSummary(summary)];
        assert InSection(2, NewsSummary(summary));
      } else {
        assert NewsItem(x).value == [NewsLine(title, published)];
      }
    }
  }

  lemma NewsInSection(e: Entry)
    ensures NewsSection(e).Ok? ==> AllIn(NewsSection(e).value, 2)
  {
    var (key, value) := e;
    var r := NewsSection(e);
    if r.Ok? && Contains(key, "_news") && HasError(value) == Ok(false) {
      var heading := [NewsHeading(BeforeUnderscore(key))];
      assert AllIn(heading, 2);
      if In("results", value) == Ok(true) {
        var items := Iterate(Take(Index(value, "results").value, 3).value).value;
        forall x | x in items && NewsItem(x).Ok? ensures AllIn(NewsItem(x).value, 2) {
          NewsItemInSection(x);
        }
        LinesInSection(items, NewsItem, 2);
        assert r.value == heading + ConcatMap(items, NewsItem).value;
      }
    }
  }

  lemma FinancialsInSection(e: Entry)
    ensures FinancialsSection(e).Ok? ==> AllIn(FinancialsSection(e).value, 3)
  {
    var (key, value) := e;
    var r := FinancialsSection(e);
    if r.Ok? && Contains(key, "_financials") && HasError(value) == Ok(false) {
      var ticker := BeforeUnderscore(key);
      assert InSection(3, FinancialsHeading(ticker));
      if In("financials", value) == Ok(true) {
        var financials := Index(value, "financials").value;
        StatementBlockInSection(financials, Income);
        StatementBlockInSection(financials, Balance);
        StatementBlockInSection(financials, CashFlow);
        var a := StatementBlock(financials, Income).value;
        var b := StatementBlock(financials, Balance).value;
        var c := StatementBlock(financials, CashFlow).value;
        assert r.value == [FinancialsHeading(ticker)] + a + b + c;
      } else {
        assert r.value == [FinancialsHeading(ticker), NoFinancials(ticker)];
        assert InSection(3, NoFinancials(ticker));
      }
    }
  }

  lemma FilingItemInSection(x: Json)
    ensures FilingItem(x).Ok? ==> AllIn(FilingItem(x).value, 4)
  {
    if FilingItem(x).Ok? {
      var form := Get(x, "form_type", NA).value;
      var filed := Get(x, "filing_date", NA).value;
      var description := Get(x, "description", Null).value;
      var url := Get(x, "url", Null).value;
      assert FilingItem(x).value == FilingLines(form, filed, description, url);
      FilingLinesInSection(form, filed, description, url);
    }
  }

  lemma FilingLinesInSection(form: Json, filed: Json, description: Json, url: Json)
    ensures AllIn(FilingLines(form, filed, description, url), 4)
  {
  }

  lemma FilingsInSection(e: Entry)
    ensures FilingsSection(e).Ok? ==> AllIn(FilingsSection(e).value, 4)
  {
    var (key, value) := e;
    var r := FilingsSection(e);
    if r.Ok? && Contains(key, "_sec_filings") && HasError(value) == Ok(false) {
      var ticker := BeforeUnderscore(key);
      assert InSection(4, FilingsHeading(ticker));
      var filings := if In("filings", value) == Ok(true) then Index(value, "filings").value else Null;
      if Truthy(filings) {
        var items := Iterate(Take(filings, 3).value).value;
        forall x | x in items && FilingItem(x).Ok? ensures AllIn(FilingItem(x).value, 4) {
          FilingItemInSection(x);
        }
        LinesInSection(items, FilingItem, 4);
        assert r.value == [FilingsHeading(ticker)] + ConcatMap(items, FilingItem).value;
      } else {
        assert r.value == [FilingsHeading(ticker), NoFilings(ticker)];
        assert InSection(4, NoFilings(ticker));
      }
    }
  }

  lemma TradeSummaryInSection(x: Json)
    ensures TradeSummary(x).Ok? ==> InSection(5, TradeSummary(x).value)
  {
    if TradeSummary(x).Ok? {
      var values := TradeValues(x).value;
      assert TradeSummary(x).value == TradeLineOf(values);
      TradeLineInSection(values);
    }
  }

  lemma TradeLineInSection(values: (Json, Json, Json, Json, Json, Json))
    ensures InSection(5, TradeLineOf(values))
  {
    var line := TradeLineOf(values);
    assert Rank(line) == 5;
    assert WellFormed(line);
  }

  lemma HoldingsInSection(x: Json)
    ensures Holdings(x).Ok? ==> AllIn(Holdings(x).value, 5)
  {
    if Holdings(x).Ok? {
      var before := Get(x, "shares_owned_before", Null).value;
      var after := Get(x, "shares_owned_after", Null).value;
      if Truthy(before) && Truthy(after) {
        assert Holdings(x).value == [SharesOwned(before, after)];
        assert InSection(5, SharesOwned(before, after));
      } else {
        assert Holdings(x).value == [];
      }
    }
  }

  lemma TradeItemInSection(x: Json)
    ensures TradeItem(x).Ok? ==> AllIn(TradeItem(x).value, 5)
  {
    if TradeItem(x).Ok? {
      TradeSummaryInSection(x);
      HoldingsInSection(x);
      var line, holdings := TradeSummary(x).value, Holdings(x).value;
      assert TradeItem(x).value == [line] + holdings;
    }
  }

  lemma TradesInSection(e: Entry)
    ensures TradesSection(e).Ok? ==> AllIn(TradesSection(e).value, 5)
  {
    var (key, value) := e;
    var r := TradesSection(e);
    if r.Ok? && Contains(key, "_insider_trades") && HasError(value) == Ok(false) {
      var ticker := BeforeUnderscore(key);
      TradeFramesInSection(ticker);
      var results := if In("results", value) == Ok(true) then Index(value, "results").value else Null;
      if Truthy(results) {
        var items := Iterate(Take(results, 5).value).value;
        forall x | x in items && TradeItem(x).Ok? ensures AllIn(TradeItem(x).value, 5) {
          TradeItemInSection(x);
        }
        LinesInSection(items, TradeItem, 5);
        var lines := ConcatMap(items, TradeItem).value;
        assert r.value == [TradesHeading(ticker), TradesIntro] + lines + [TradesEnd];
      } else {
        assert r.value == [TradesHeading(ticker), NoTrades(ticker)];
      }
    }
  }

  lemma TradeFramesInSection(ticker: string)
    ensures InSection(5, TradesHeading(ticker)) && InSection(5, TradesIntro)
    ensures InSection(5, TradesEnd) && InSection(5, NoTrades(ticker))
  {
  }

  /** Every line a pass writes belongs to that pass's section and is well formed. */
  lemma PassInSection(sec: Section, e: Entry)
    ensures Pass(sec)(e).Ok? ==> AllIn(Pass(sec)(e).value, PassRank(sec))
  {
    match sec
    case SearchPass => SearchInSection(e);
    case PricePass => PriceInSection(e);
    case NewsPass => NewsInSection(e);
    case FinancialsPass => FinancialsInSection(e);
    case FilingsPass => FilingsInSection(e);
    case TradesPass => TradesInSection(e);
  }

  lemma RunInSection(data: seq<Entry>, sec: Section)
    ensures ConcatMap(data, Pass(sec)).Ok? ==> AllIn(ConcatMap(data, Pass(sec)).value, PassRank(sec))
  {
    forall e | e in data && Pass(sec)(e).Ok? ensures AllIn(Pass(sec)(e).value, PassRank(sec)) {
      PassInSection(sec, e);
    }
    LinesInSection(data, Pass(sec), PassRank(sec));
  }

  predicate Ordered(ps: seq<Piece>) {
    forall i, j :: 0 <= i < j < |ps| ==> Rank(ps[i]) <= Rank(ps[j])
  }

  lemma AppendSection(a: seq<Piece>, b: seq<Piece>, r: nat)
    requires Ordered(a) && forall p :: p in a ==> Rank(p) <= r
    requires AllIn(b, r)
    ensures Ordered(a + b) && forall p :: p in a + b ==> Rank(p) <= r
  {
    forall i, j | 0 <= i < j < |a + b| ensures Rank((a + b)[i]) <= Rank((a + b)[j]) {
      if j < |a| {
        assert (a + b)[i] == a[i] && (a + b)[j] == a[j];
      } else if i < |a| {
        assert (a + b)[i] in a && (a + b)[j] == b[j - |a|];
        assert b[j - |a|] in b;
      } else {
        assert (a + b)[i] == b[i - |a|] && (a + b)[j] == b[j - |a|];
        assert b[i - |a|] in b && b[j - |a|] in b;
      }
    }
  }

  /** Whatever the order of the merged results, the digest lists the Perplexity
      answers first, then prices, news, financial statements, SEC filings and
      insider trades; and each of its lines is well formed. */
  lemma DigestOrderedAndWellFormed(data: seq<Entry>)
    ensures Digest(data).Ok? ==> Ordered(Digest(data).value)
    ensures Digest(data).Ok? ==> forall p :: p in Digest(data).value ==> WellFormed(p)
  {
    if Digest(data).Ok? {
      var s0 := ConcatMap(data, Pass(SearchPass)).value;
      var s1 := ConcatMap(data, Pass(PricePass)).value;
      var s2 := ConcatMap(data, Pass(NewsPass)).value;
      var s3 := ConcatMap(data, Pass(FinancialsPass)).value;
      var s4 := ConcatMap(data, Pass(FilingsPass)).value;
      var s5 := ConcatMap(data, Pass(TradesPass)).value;
      RunInSection(data, SearchPass);
      RunInSection(data, PricePass);
      RunInSection(data, NewsPass);
      RunInSection(data, FinancialsPass);
      RunInSection(data, FilingsPass);
      RunInSection(data, TradesPass);
      assert Digest(data).value == s0 + s1 + s2 + s3 + s4 + s5;
      SectionsOrdered(s0, s1, s2, s3, s4, s5);
      SectionsWellFormed(s0, s1, s2, s3, s4, s5);
    }
  }

  lemma SectionsOrdered(s0: seq<Piece>, s1: seq<Piece>, s2: seq<Piece>, s3: seq<Piece>, s4: seq<Piece>, s5: seq<Piece>)
    requires AllIn(s0, 0) && AllIn(s1, 1) && AllIn(s2, 2) && AllIn(s3, 3) && AllIn(s4, 4) && AllIn(s5, 5)
    ensures Ordered(s0 + s1 + s2 + s3 + s4 + s5)
  {
    AppendSection([], s0, 0);
    assert [] + s0 == s0;
    AppendSection(s0, s1, 1);
    AppendSection(s0 + s1, s2, 2);
    AppendSection(s0 + s1 + s2, s3, 3);
    AppendSection(s0 + s1 + s2 + s3, s4, 4);
    AppendSection(s0 + s1 + s2 + s3 + s4, s5, 5);
  }

  lemma SectionsWellFormed(s0: seq<Piece>, s1: seq<Piece>, s2: seq<Piece>, s3: seq<Piece>, s4: seq<Piece>, s5: seq<Piece>)
    requires AllIn(s0, 0) && AllIn(s1, 1) && AllIn(s2, 2) && AllIn(s3, 3) && AllIn(s4, 4) && AllIn(s5, 5)
    ensures forall p :: p in s0 + s1 + s2 + s3 + s4 + s5 ==> WellFormed(p)
  {
    forall p | p in s0 + s1 + s2 + s3 + s4 + s5 ensures WellFormed(p) {
      assert p in s0 || p in s1 || p in s2 || p in s3 || p in s4 || p in s5;
      assert InSection(0, p) || InSection(1, p) || InSection(2, p) || InSection(3, p) || InSection(4, p) || InSection(5, p);
    }
  }

  /** Whether an entry of the merged results is a provider failure. */
  predicate Failed(e: Entry) {
    HasError(e.1) == Ok(true)
  }

  predicate Succeeded(e: Entry) {
    !Failed(e)
  }

  /** Entries carrying an `"error"` key contribute nothing: the digest of the
      results is the digest of the results without them. */
  lemma DigestSkipsErrors(data: seq<Entry>)
    ensures Digest(Filter(data, Succeeded)) == Digest(data)
  {
    PassSkipsErrors(data, SearchPass);
    PassSkipsErrors(data, PricePass);
    PassSkipsErrors(data, NewsPass);
    PassSkipsErrors(data, FinancialsPass);
    PassSkipsErrors(data, FilingsPass);
    PassSkipsErrors(data, TradesPass);
  }

  lemma PassSkipsErrors(data: seq<Entry>, sec: Section)
    ensures ConcatMap(Filter(data, Succeeded), Pass(sec)) == ConcatMap(data, Pass(sec))
  {
    forall e | e in data && !Succeeded(e) ensures Pass(sec)(e) == Ok([]) {
      FailedEntryEmpty(sec, e);
    }
    ConcatMapFilter(data, Pass(sec), Succeeded);
  }

  /** Every pass writes nothing for an entry with an `"error"` key. */
  lemma FailedEntryEmpty(sec: Section, e: Entry)
    requires Failed(e)
    ensures Pass(sec)(e) == Ok([])
  {
  }

  predicate IsNewsLine(p: Piece) { p.NewsLine? }
  predicate IsFilingLine(p: Piece) { p.FilingLine? }
  predicate IsTradeLine(p: Piece) { p.TradeLine? }
  function IsYearOf(kind: Statement): Piece -> bool {
    (p: Piece) => p.FiscalYear? && p.kind == kind
  }

  /** `x[:n]` iterates over at most `n` items. */
  lemma TakeIterate(v: Json, n: nat)
    requires Take(v, n).Ok? && Iterate(Take(v, n).value).Ok?
    ensures |Iterate(Take(v, n).value).value| <= n
  {
  }

  /** A news entry lists at most three articles. */
  lemma NewsAtMostThree(e: Entry)
    ensures NewsSection(e).Ok? ==> Count(NewsSection(e).value, IsNewsLine) <= 3
  {
    var (key, value) := e;
    if NewsSection(e).Ok? && Contains(key, "_news") && HasError(value) == Ok(false) && In("results", value) == Ok(true) {
      var top := Take(Index(value, "results").value, 3).value;
      var items := Iterate(top).value;
      TakeIterate(Index(value, "results").value, 3);
      forall x | x in items && NewsItem(x).Ok? ensures Count(NewsItem(x).value, IsNewsLine) <= 1 {
        var ps := NewsItem(x).value;
        CountSingle(ps[0], IsNewsLine);
        if |ps| == 2 {
          CountSingle(ps[1], IsNewsLine);
          CountAppend([ps[0]], [ps[1]], IsNewsLine);
          assert ps == [ps[0]] + [ps[1]];
        } else {
          assert ps == [ps[0]];
        }
      }
      ConcatMapCount(items, NewsItem, IsNewsLine, 1);
      var heading := [NewsHeading(BeforeUnderscore(key))];
      CountSingle(heading[0], IsNewsLine);
      CountAppend(heading, ConcatMap(items, NewsItem).value, IsNewsLine);
    } else if NewsSection(e).Ok? {
      var ps := NewsSection(e).value;
      CountNone(ps, IsNewsLine);
    }
  }

  lemma StatementLinesCount(kind: Statement, k: Statement, statement: Json)
    ensures StatementStep(kind)(statement).Ok? ==>
      Count(StatementStep(kind)(statement).value, IsYearOf(k)) <= if k == kind then 1 else 0
  {
    var r := StatementStep(kind)(statement);
    if r.Ok? {
      var year := Get(statement, "fiscal_year", NA).value;
      var metrics := Metrics(kind, statement, KeyMetrics(kind)).value;
      MetricsInSection(kind, statement, KeyMetrics(kind));
      assert r.value == [FiscalYear(kind, year)] + metrics + [StatementEnd];
      CountNone(metrics, IsYearOf(k));
      CountAppend([FiscalYear(kind, year)], metrics + [StatementEnd], IsYearOf(k));
      CountNone(metrics + [StatementEnd], IsYearOf(k));
      CountSingle(FiscalYear(kind, year), IsYearOf(k));
      assert r.value == [FiscalYear(kind, year)] + (metrics + [StatementEnd]);
    }
  }

  lemma StatementBlockCount(financials: Json, kind: Statement, k: Statement)
    ensures StatementBlock(financials, kind).Ok? ==>
      Count(StatementBlock(financials, kind).value, IsYearOf(k)) <= if k == kind then 2 else 0
  {
    var r := StatementBlock(financials, kind);
    if r.Ok? {
      StatementBlockLines(financials, kind);
      var statements := BlockStatements(financials, kind);
      StatementsCount(statements, kind, k);
      if r.value != [] {
        var lines := ConcatMap(statements, StatementStep(kind)).value;
        CountFramed([StatementsHeading(kind)], lines, [], IsYearOf(k));
        assert [StatementsHeading(kind)] + lines + [] == r.value;
      }
    }
  }

  /** At most two statements show at most two fiscal years, all of their kind. */
  lemma StatementsCount(statements: seq<Json>, kind: Statement, k: Statement)
    requires |statements| <= 2
    ensures ConcatMap(statements, StatementStep(kind)).Ok? ==>
      Count(ConcatMap(statements, StatementStep(kind)).value, IsYearOf(k)) <= if k == kind then 2 else 0
  {
    var m := if k == kind then 1 else 0;
    forall s | s in statements && StatementStep(kind)(s).Ok?
      ensures Count(StatementStep(kind)(s).value, IsYearOf(k)) <= m
    {
      StatementLinesCount(kind, k, s);
    }
    ConcatMapCount(statements, StatementStep(kind), IsYearOf(k), m);
  }

  /** A financials entry shows at most two statements of each kind. */
  lemma StatementsAtMostTwo(e: Entry, k: Statement)
    ensures FinancialsSection(e).Ok? ==> Count(FinancialsSection(e).value, IsYearOf(k)) <= 2
  {
    var (key, value) := e;
    var r := FinancialsSection(e);
    if r.Ok? {
      if Contains(key, "_financials") && HasError(value) == Ok(false) && In("financials", value) == Ok(true) {
        var financials := Index(value, "financials").value;
        var a := StatementBlock(financials, Income).value;
        var b := StatementBlock(financials, Balance).value;
        var c := StatementBlock(financials, CashFlow).value;
        StatementBlockCount(financials, Income, k);
        StatementBlockCount(financials, Balance, k);
        StatementBlockCount(financials, CashFlow, k);
        var h := [FinancialsHeading(BeforeUnderscore(key))];
        assert r.value == h + a + b + c;
        CountSingle(h[0], IsYearOf(k));
        CountAppend(h, a, IsYearOf(k));
        CountAppend(h + a, b, IsYearOf(k));
        CountAppend(h + a + b, c, IsYearOf(k));
      } else {
        CountNone(r.value, IsYearOf(k));
      }
    }
  }

  lemma FilingItemCount(x: Json)
    ensures FilingItem(x).Ok? ==> Count(FilingItem(x).value, IsFilingLine) == 1
  {
    if FilingItem(x).Ok? {
      var ps := FilingItem(x).value;
      CountFramed([], [ps[0]], ps[1..], IsFilingLine);
      assert [] + [ps[0]] + ps[1..] == ps;
      CountSingle(ps[0], IsFilingLine);
    }
  }

  /** A filings entry lists at most three filings. */
  lemma FilingsAtMostThree(e: Entry)
    ensures FilingsSection(e).Ok? ==> Count(FilingsSection(e).value, IsFilingLine) <= 3
  {
    var (key, value) := e;
    var r := FilingsSection(e);
    if r.Ok? {
      var filings := if In("filings", value) == Ok(true) && Index(value, "filings").Ok? then Index(value, "filings").value else Null;
      if Contains(key, "_sec_filings") && HasError(value) == Ok(false) && Truthy(filings) {
        var items := Iterate(Take(filings, 3).value).value;
        TakeIterate(filings, 3);
        forall x | x in items && FilingItem(x).Ok? ensures Count(FilingItem(x).value, IsFilingLine) <= 1 {
          FilingItemCount(x);
        }
        ConcatMapCount(items, FilingItem, IsFilingLine, 1);
        var lines := ConcatMap(items, FilingItem).value;
        assert r.value == [FilingsHeading(BeforeUnderscore(key))] + lines + [];
        CountFramed([FilingsHeading(BeforeUnderscore(key))], lines, [], IsFilingLine);
      } else {
        CountNone(r.value, IsFilingLine);
      }
    }
  }

  lemma TradeItemCount(x: Json)
    ensures TradeItem(x).Ok? ==> Count(TradeItem(x).value, IsTradeLine) == 1
  {
    if TradeItem(x).Ok? {
      var ps := TradeItem(x).value;
      assert ps == [TradeSummary(x).value] + Holdings(x).value;
      CountFramed([], [ps[0]], ps[1..], IsTradeLine);
      assert [] + [ps[0]] + ps[1..] == ps;
      CountSingle(ps[0], IsTradeLine);
    }
  }

  /** An insider-trades entry lists at most five trades. */
  lemma TradesAtMostFive(e: Entry)
    ensures TradesSection(e).Ok? ==> Count(TradesSection(e).value, IsTradeLine) <= 5
  {
    var (key, value) := e;
    var r := TradesSection(e);
    if r.Ok? {
      var results := if In("results", value) == Ok(true) && Index(value, "results").Ok? then Index(value, "results").value else Null;
      if Contains(key, "_insider_trades") && HasError(value) == Ok(false) && Truthy(results) {
        var items := Iterate(Take(results, 5).value).value;
        TakeIterate(results, 5);
        forall x | x in items && TradeItem(x).Ok? ensures Count(TradeItem(x).value, IsTradeLine) <= 1 {
          TradeItemCount(x);
        }
        ConcatMapCount(items, TradeItem, IsTradeLine, 1);
        var lines := ConcatMap(items, TradeItem).value;
        assert r.value == [TradesHeading(BeforeUnderscore(key)), TradesIntro] + lines + [TradesEnd] by {
          assert Take(results, 5).Ok? && Iterate(Take(results, 5).value).Ok?;
        }
        CountFramed([TradesHeading(BeforeUnderscore(key)), TradesIntro], lines, [TradesEnd], IsTradeLine);
      } else {
        CountNone(r.value, IsTradeLine);
      }
    }
  }
}
