/** The reshaping every REST route applies to a provider payload: pick the list
    under the first of a few keys that is present, validate it as a list of
    dictionaries, echo the ticker, and fall back to an empty list on any
    exception (a failed call, a failed lookup or a failed validation). */
module Reshape {
  import opened PyJson

  /** A response made of the requested ticker and a list of records. */
  datatype Listing = Listing(ticker: string, items: seq<Json>)

  /** `response[k]` for the first `k` of `keys` with `k in response`, else `[]`. */
  function Pick(response: Json, keys: seq<string>): Outcome<Json>
    decreases |keys|
  {
    if keys == [] then Ok(Arr([]))
    else
      var has :- In(keys[0], response);
      if has then Index(response, keys[0]) else Pick(response, keys[1..])
  }

  /** Building the response model inside the `try`: a payload that raised or does
      not validate gives the empty list. */
  function Validated(ticker: string, payload: Outcome<Json>): (r: Listing)
    ensures r.ticker == ticker
    ensures forall x :: x in r.items ==> x.Obj?
    ensures r.items == [] || payload == Ok(Arr(r.items))
  {
    if payload.Raised? then Listing(ticker, [])
    else
      match ListOfDicts(payload.value)
      case Ok(items) => Listing(ticker, items)
      case Raised(_) => Listing(ticker, [])
  }

  /** A handler that selects the first present key of `keys`. */
  function Reshaped(ticker: string, response: Outcome<Json>, keys: seq<string>): (r: Listing)
    ensures r.ticker == ticker
    ensures response.Raised? ==> r.items == []
    ensures forall x :: x in r.items ==> x.Obj?
  {
    match response
    case Raised(e) => Validated(ticker, Raised(e))
    case Ok(v) => Validated(ticker, Pick(v, keys))
  }

  /** A handler that returns the `results` list, or `[]`. */
  function ResultsListing(ticker: string, response: Outcome<Json>): (r: Listing)
    ensures r.ticker == ticker && (response.Raised? ==> r.items == [])
    ensures response.Ok? && response.value.Obj? && "results" !in Keys(response.value.fields) ==> r.items == []
  {
    Reshaped(ticker, response, ["results"])
  }

  /** The records of a value: its elements when it is a list of dictionaries. */
  function Records(v: Json): seq<Json> {
    if v.Arr? && forall x :: x in v.items ==> x.Obj? then v.items else []
  }

  /** On a dictionary payload, the handler returns the records under the first of
      `keys` that is present, and the empty list when none is. */
  lemma {:induction false} ReshapedSelects(ticker: string, fields: Fields, keys: seq<string>, i: nat)
    requires i <= |keys| && forall j :: 0 <= j < i ==> keys[j] !in Keys(fields)
    requires i < |keys| ==> keys[i] in Keys(fields)
    ensures i == |keys| ==> Reshaped(ticker, Ok(Obj(fields)), keys).items == []
    ensures i < |keys| ==> Reshaped(ticker, Ok(Obj(fields)), keys).items == Records(Lookup(fields, keys[i]).value)
    decreases i
  {
    if i > 0 {
      assert keys[0] !in Keys(fields);
      ReshapedSelects(ticker, fields, keys[1..], i - 1);
      assert Pick(Obj(fields), keys) == Pick(Obj(fields), keys[1..]);
    }
  }
}
