/** The financial-data REST routes of financials.py. Each handler receives the
    provider's payload (or the exception its call raised) and reshapes it. */
module FinancialsRoutes {
  import opened PyJson
  import opened Reshape

  const INSIDER_KEYS: seq<string> := ["insider_trades", "results"]
  const FILINGS_KEYS: seq<string> := ["filings", "results"]
  const OWNERSHIP_KEYS: seq<string> := ["institutional_ownership", "results"]

  /** `GET /financials/{ticker}`: the `results` list, or `[]`. */
  function GetCompanyFinancials(ticker: string, response: Outcome<Json>): Listing {
    ResultsListing(ticker, response)
  }

  /** `GET /insider-trades/{ticker}`. */
  function GetInsiderTrades(ticker: string, response: Outcome<Json>): (r: Listing)
    ensures r.ticker == ticker && (response.Raised? ==> r.items == [])
    ensures forall x :: x in r.items ==> x.Obj?
  {
    Reshaped(ticker, response, INSIDER_KEYS)
  }

  /** `GET /sec-filings/{ticker}`. */
  function GetSecFilings(ticker: string, response: Outcome<Json>): (r: Listing)
    ensures r.ticker == ticker && (response.Raised? ==> r.items == [])
    ensures forall x :: x in r.items ==> x.Obj?
  {
    Reshaped(ticker, response, FILINGS_KEYS)
  }

  /** `GET /institutional-ownership/{ticker}`. */
  function GetInstitutionalOwnership(ticker: string, response: Outcome<Json>): (r: Listing)
    ensures r.ticker == ticker && (response.Raised? ==> r.items == [])
    ensures forall x :: x in r.items ==> x.Obj?
  {
    Reshaped(ticker, response, OWNERSHIP_KEYS)
  }

  /** Each of the three handlers prefers its own key, falls back to `results`, and
      otherwise returns `[]`. */
  lemma FallbackHandlers(ticker: string, fields: Fields)
    ensures var r := GetInsiderTrades(ticker, Ok(Obj(fields))).items;
      && ("insider_trades" in Keys(fields) ==> r == Records(Lookup(fields, "insider_trades").value))
      && ("insider_trades" !in Keys(fields) && "results" in Keys(fields) ==> r == Records(Lookup(fields, "results").value))
      && ("insider_trades" !in Keys(fields) && "results" !in Keys(fields) ==> r == [])
    ensures var r := GetSecFilings(ticker, Ok(Obj(fields))).items;
      && ("filings" in Keys(fields) ==> r == Records(Lookup(fields, "filings").value))
      && ("filings" !in Keys(fields) && "results" in Keys(fields) ==> r == Records(Lookup(fields, "results").value))
      && ("filings" !in Keys(fields) && "results" !in Keys(fields) ==> r == [])
    ensures var r := GetInstitutionalOwnership(ticker, Ok(Obj(fields))).items;
      && ("institutional_ownership" in Keys(fields) ==> r == Records(Lookup(fields, "institutional_ownership").value))
      && ("institutional_ownership" !in Keys(fields) && "results" in Keys(fields) ==> r == Records(Lookup(fields, "results").value))
      && ("institutional_ownership" !in Keys(fields) && "results" !in Keys(fields) ==> r == [])
  {
    PreferThenResults(ticker, fields, INSIDER_KEYS);
    PreferThenResults(ticker, fields, FILINGS_KEYS);
    PreferThenResults(ticker, fields, OWNERSHIP_KEYS);
  }

  lemma PreferThenResults(ticker: string, fields: Fields, keys: seq<string>)
    requires |keys| == 2
    ensures var r := Reshaped(ticker, Ok(Obj(fields)), keys).items;
      && (keys[0] in Keys(fields) ==> r == Records(Lookup(fields, keys[0]).value))
      && (keys[0] !in Keys(fields) && keys[1] in Keys(fields) ==> r == Records(Lookup(fields, keys[1]).value))
      && (keys[0] !in Keys(fields) && keys[1] !in Keys(fields) ==> r == [])
  {
    if keys[0] in Keys(fields) {
      ReshapedSelects(ticker, fields, keys, 0);
    } else if keys[1] in Keys(fields) {
      ReshapedSelects(ticker, fields, keys, 1);
    } else {
      ReshapedSelects(ticker, fields, keys, 2);
    }
  }

  /** `GET /financials/{ticker}` on a dictionary: the records under `results`. */
  lemma CompanyFinancialsResults(ticker: string, fields: Fields)
    requires "results" in Keys(fields)
    ensures GetCompanyFinancials(ticker, Ok(Obj(fields))).items == Records(Lookup(fields, "results").value)
  {
    ReshapedSelects(ticker, fields, ["results"], 0);
  }

  // ---------------------------------------------------------------------------
  // Financial statements

  /** `financials.extend(f[k])` if `k in f`. */
  function Extended(acc: seq<Json>, f: Json, k: string): Outcome<seq<Json>> {
    var has :- In(k, f);
    if !has then Ok(acc)
    else
      var block :- Index(f, k);
      var xs :- Iterate(block);
      Ok(acc + xs)
  }

  /** The list the statements handler builds before validation. */
  function StatementsPayload(response: Json): Outcome<Json> {
    var hasFinancials :- In("financials", response);
    if hasFinancials then
      var f :- Index(response, "financials");
      var a :- Extended([], f, "income_statements");
      var b :- Extended(a, f, "balance_sheets");
      var c :- Extended(b, f, "cash_flow_statements");
      Ok(Arr(c))
    else Pick(response, ["results"])
  }

  /** `GET /financials/statements/{ticker}`. */
  function FinancialStatements(ticker: string, response: Outcome<Json>): (r: Listing)
    ensures r.ticker == ticker && (response.Raised? ==> r.items == [])
    ensures forall x :: x in r.items ==> x.Obj?
  {
    match response
    case Raised(e) => Validated(ticker, Raised(e))
    case Ok(v) => Validated(ticker, StatementsPayload(v))
  }

  /** The statements handler, extending the list block by block. */
  method CollectStatements(response: Json) returns (r: Outcome<Json>)
    ensures r == StatementsPayload(response)
  {
    var hasFinancials :- In("financials", response);
    if !hasFinancials {
      // `in` did not raise on this payload, so it does not raise now.
      if In("results", response).value {
        r := Index(response, "results");
      } else {
        r := Ok(Arr([]));
      }
      return;
    }
    var financials: seq<Json> := [];
    var f :- Index(response, "financials");
    var hasIncome :- In("income_statements", f);
    if hasIncome {
      var block :- Index(f, "income_statements");
      var xs :- Iterate(block);
      financials := financials + xs;
    }
    var hasBalance :- In("balance_sheets", f);
    if hasBalance {
      var block :- Index(f, "balance_sheets");
      var xs :- Iterate(block);
      financials := financials + xs;
    }
    var hasCashFlow :- In("cash_flow_statements", f);
    if hasCashFlow {
      var block :- Index(f, "cash_flow_statements");
      var xs :- Iterate(block);
      financials := financials + xs;
    }
    r := Ok(Arr(financials));
  }

  method GetFinancialStatements(ticker: string, response: Outcome<Json>) returns (r: Listing)
    ensures r == FinancialStatements(ticker, response)
  {
    if response.Raised? {
      return Listing(ticker, []);
    }
    var payload := CollectStatements(response.value);
    r := Validated(ticker, payload);
  }

  /** The elements of a statement block, or nothing when the block is absent. */
  function Block(f: Fields, k: string): seq<Json> {
    match Lookup(f, k)
    case Some(Arr(xs)) => xs
    case _ => []
  }

  /** A statement block that is absent or a list of dictionaries. */
  predicate WellFormedBlock(f: Fields, k: string) {
    match Lookup(f, k)
    case None => true
    case Some(v) => v.Arr? && forall x :: x in v.items ==> x.Obj?
  }

  lemma ExtendedBlock(acc: seq<Json>, f: Fields, k: string)
    requires WellFormedBlock(f, k)
    ensures Extended(acc, Obj(f), k) == Ok(acc + Block(f, k))
  {
    if k !in Keys(f) {
      assert acc + [] == acc;
    }
  }

  /** With a `financials` dictionary whose blocks are lists of dictionaries, the
      result is the income statements, then the balance sheets, then the cash-flow
      statements, each block contributing only when present. */
  lemma StatementsConcatenated(ticker: string, fields: Fields, f: Fields)
    requires Lookup(fields, "financials") == Some(Obj(f))
    requires WellFormedBlock(f, "income_statements") && WellFormedBlock(f, "balance_sheets")
    requires WellFormedBlock(f, "cash_flow_statements")
    ensures FinancialStatements(ticker, Ok(Obj(fields))).items ==
      Block(f, "income_statements") + Block(f, "balance_sheets") + Block(f, "cash_flow_statements")
  {
    var c := Block(f, "income_statements") + Block(f, "balance_sheets") + Block(f, "cash_flow_statements");
    StatementsPayloadBlocks(fields, f);
    assert forall x :: x in c ==> x.Obj?;
    assert ListOfDicts(Arr(c)) == Ok(c);
  }

  lemma StatementsPayloadBlocks(fields: Fields, f: Fields)
    requires Lookup(fields, "financials") == Some(Obj(f))
    requires WellFormedBlock(f, "income_statements") && WellFormedBlock(f, "balance_sheets")
    requires WellFormedBlock(f, "cash_flow_statements")
    ensures StatementsPayload(Obj(fields)) ==
      Ok(Arr(Block(f, "income_statements") + Block(f, "balance_sheets") + Block(f, "cash_flow_statements")))
  {
    ExtendedBlock([], f, "income_statements");
    var a := Block(f, "income_statements");
    assert [] + a == a;
    ExtendedBlock(a, f, "balance_sheets");
    var b := a + Block(f, "balance_sheets");
    ExtendedBlock(b, f, "cash_flow_statements");
  }

  /** Without a `financials` key the statements handler falls back to `results`,
      and with neither key it returns `[]`. */
  lemma StatementsFallback(ticker: string, fields: Fields)
    requires "financials" !in Keys(fields)
    ensures "results" in Keys(fields) ==> FinancialStatements(ticker, Ok(Obj(fields))).items == Records(Lookup(fields, "results").value)
    ensures "results" !in Keys(fields) ==> FinancialStatements(ticker, Ok(Obj(fields))).items == []
  {
    assert StatementsPayload(Obj(fields)) == Pick(Obj(fields), ["results"]);
    if "results" in Keys(fields) {
      ReshapedSelects(ticker, fields, ["results"], 0);
    } else {
      ReshapedSelects(ticker, fields, ["results"], 1);
    }
  }
}
