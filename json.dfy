/** JSON values as the backend handles them (provider payloads, LLM plans, cache
    entries), together with the parts of Python's dynamic semantics the code relies
    on when it touches them: `k in v`, `v[k]`, `v[0]`, `v.get(k, d)`, `len(v)`,
    `v[:n]`, iteration, item assignment and truthiness. Each operation that can
    raise in Python returns `Raised` with the text `str(e)` would give. */
module PyJson {
  import opened PyText

  datatype Option<+T> = None | Some(value: T)

  /** A JSON value. Objects keep their keys in insertion order, as Python dicts do;
      lookups use the first entry with a key. Integers and floats are both `Num`. */
  datatype Json =
    | Null
    | Bool(b: bool)
    | Num(n: real)
    | Str(s: string)
    | Arr(items: seq<Json>)
    | Obj(fields: seq<(string, Json)>)

  /** A raised Python exception, identified by the text `str(e)` gives. */
  datatype Exn = Exn(message: string)

  /** The result of a Python expression that may raise. */
  datatype Outcome<+T> = Ok(value: T) | Raised(error: Exn) {
    predicate IsFailure() { Raised? }
    function PropagateFailure<U>(): Outcome<U> requires Raised? { Raised(error) }
    function Extract(): T requires Ok? { value }
  }

  function TypeName(v: Json): string {
    match v
    case Null => "NoneType"
    case Bool(_) => "bool"
    case Num(_) => "float"
    case Str(_) => "str"
    case Arr(_) => "list"
    case Obj(_) => "dict"
  }

  function TypeError(text: string): Exn { Exn(text) }

  // ---------------------------------------------------------------------------
  // Ordered dictionaries

  type Fields = seq<(string, Json)>

  function Keys(fields: Fields): seq<string> {
    seq(|fields|, i requires 0 <= i < |fields| => fields[i].0)
  }

  function Lookup(fields: Fields, k: string): (r: Option<Json>)
    ensures r.None? <==> k !in Keys(fields)
    ensures r.Some? ==> (k, r.value) in fields
  {
    if fields == [] then None
    else if fields[0].0 == k then
      assert Keys(fields)[0] == k;
      Some(fields[0].1)
    else
      var r := Lookup(fields[1..], k);
      assert Keys(fields) == [fields[0].0] + Keys(fields[1..]);
      r
  }

  /** `d[k] = v` on a dict: the first entry for `k` is updated where it stands,
      a new key goes at the end. */
  function Put(fields: Fields, k: string, v: Json): (r: Fields)
    ensures Keys(r) == if k in Keys(fields) then Keys(fields) else Keys(fields) + [k]
  {
    if fields == [] then [(k, v)]
    else
      assert fields == [fields[0]] + fields[1..];
      KeysCons(fields[0], fields[1..]);
      if fields[0].0 == k then
        KeysCons((k, v), fields[1..]);
        [(k, v)] + fields[1..]
      else
        var rest := Put(fields[1..], k, v);
        KeysCons(fields[0], rest);
        [fields[0]] + rest
  }

  lemma KeysCons(x: (string, Json), rest: Fields)
    ensures Keys([x] + rest) == [x.0] + Keys(rest)
  {
  }

  /** After `d[k] = v`, `d[k]` is `v` and every other key reads as before. */
  lemma {:induction false} PutLookup(fields: Fields, k: string, v: Json, k': string)
    ensures Lookup(Put(fields, k, v), k') == if k' == k then Some(v) else Lookup(fields, k')
  {
    if fields != [] && fields[0].0 != k {
      PutLookup(fields[1..], k, v, k');
    }
  }

  /** The first entry with a key is the one a lookup finds. */
  lemma {:induction false} LookupFirst(fields: Fields, i: nat)
    requires i < |fields| && forall j :: 0 <= j < i ==> fields[j].0 != fields[i].0
    ensures Lookup(fields, fields[i].0) == Some(fields[i].1)
  {
    if i > 0 {
      LookupFirst(fields[1..], i - 1);
    }
  }

  // ---------------------------------------------------------------------------
  // Python operations on JSON values

  /** Python truthiness. */
  predicate Truthy(v: Json) {
    match v
    case Null => false
    case Bool(b) => b
    case Num(n) => n != 0.0
    case Str(s) => s != []
    case Arr(items) => items != []
    case Obj(fields) => fields != []
  }

  /** `k in v` for a string `k`: key membership for a dict, substring for a string,
      element equality for a list; anything else raises. */
  function In(k: string, v: Json): Outcome<bool> {
    match v
    case Obj(fields) => Ok(k in Keys(fields))
    case Str(s) => Ok(Contains(s, k))
    case Arr(items) => Ok(Str(k) in items)
    case _ => Raised(TypeError("argument of type '" + TypeName(v) + "' is not iterable"))
  }

  /** `v[k]` for a string key. */
  function Index(v: Json, k: string): Outcome<Json> {
    match v
    case Obj(fields) =>
      (match Lookup(fields, k)
       case Some(x) => Ok(x)
       case None => Raised(Exn("'" + k + "'")))
    case Arr(_) => Raised(TypeError("list indices must be integers or slices, not str"))
    case Str(_) => Raised(TypeError("string indices must be integers, not 'str'"))
    case _ => Raised(TypeError("'" + TypeName(v) + "' object is not subscriptable"))
  }

  /** `v[i]` for a non-negative integer index. */
  function At(v: Json, i: nat): Outcome<Json> {
    match v
    case Arr(items) => if i < |items| then Ok(items[i]) else Raised(Exn("list index out of range"))
    case Str(s) => if i < |s| then Ok(Str([s[i]])) else Raised(Exn("string index out of range"))
    case Obj(_) => Raised(Exn(NatToString(i)))
    case _ => Raised(TypeError("'" + TypeName(v) + "' object is not subscriptable"))
  }

  /** `v.get(k, d)`: only dicts have `get`. */
  function Get(v: Json, k: string, d: Json): Outcome<Json> {
    match v
    case Obj(fields) =>
      (match Lookup(fields, k)
       case Some(x) => Ok(x)
       case None => Ok(d))
    case _ => Raised(Exn("'" + TypeName(v) + "' object has no attribute 'get'"))
  }

  /** `len(v)`. */
  function Len(v: Json): Outcome<nat> {
    match v
    case Str(s) => Ok(|s|)
    case Arr(items) => Ok(|items|)
    case Obj(fields) => Ok(|fields|)
    case _ => Raised(TypeError("object of type '" + TypeName(v) + "' has no len()"))
  }

  /** `v[:n]`. */
  function Take(v: Json, n: nat): Outcome<Json> {
    match v
    case Str(s) => Ok(Str(if |s| <= n then s else s[..n]))
    case Arr(items) => Ok(Arr(if |items| <= n then items else items[..n]))
    case Obj(_) => Raised(TypeError("unhashable type: 'slice'"))
    case _ => Raised(TypeError("'" + TypeName(v) + "' object is not subscriptable"))
  }

  /** What `for x in v` visits: list elements, dict keys, or one-character strings. */
  function Iterate(v: Json): Outcome<seq<Json>> {
    match v
    case Arr(items) => Ok(items)
    case Obj(fields) => Ok(seq(|fields|, i requires 0 <= i < |fields| => Str(fields[i].0)))
    case Str(s) => Ok(seq(|s|, i requires 0 <= i < |s| => Str([s[i]])))
    case _ => Raised(TypeError("'" + TypeName(v) + "' object is not iterable"))
  }

  /** `v[k] = x` for a string key. */
  function SetItem(v: Json, k: string, x: Json): Outcome<Json> {
    match v
    case Obj(fields) => Ok(Obj(Put(fields, k, x)))
    case Arr(_) => Raised(TypeError("list indices must be integers or slices, not str"))
    case _ => Raised(TypeError("'" + TypeName(v) + "' object does not support item assignment"))
  }

  /** Numbers and booleans (a Python bool is an int) take part in arithmetic. */
  predicate IsNumeric(v: Json) {
    v.Num? || v.Bool?
  }

  function NumValue(v: Json): real
    requires IsNumeric(v)
  {
    if v.Num? then v.n else if v.b then 1.0 else 0.0
  }

  /** `a - b`. */
  function Sub(a: Json, b: Json): Outcome<real> {
    if IsNumeric(a) && IsNumeric(b) then Ok(NumValue(a) - NumValue(b))
    else Raised(TypeError("unsupported operand type(s) for -: '" + TypeName(a) + "' and '" + TypeName(b) + "'"))
  }

  /** `v != 0`. */
  predicate NonZero(v: Json) {
    !IsNumeric(v) || NumValue(v) != 0.0
  }

  /** A pydantic `str` field. */
  function RequiredStr(v: Json): Outcome<string> {
    if v.Str? then Ok(v.s) else Raised(Exn("1 validation error: Input should be a valid string"))
  }

  /** A pydantic `Optional[Dict[str, Any]]` field. */
  function OptionalDict(v: Json): Outcome<Option<Fields>> {
    match v
    case Obj(fields) => Ok(Some(fields))
    case Null => Ok(None)
    case _ => Raised(Exn("1 validation error: Input should be a valid dictionary"))
  }

  /** A pydantic `Optional[str]` field: a string or null, anything else fails validation. */
  function OptionalStr(v: Json): Outcome<Option<string>> {
    match v
    case Str(s) => Ok(Some(s))
    case Null => Ok(None)
    case _ => Raised(Exn("1 validation error: Input should be a valid string"))
  }

  function OptionalStrToJson(o: Option<string>): Json {
    match o
    case Some(s) => Str(s)
    case None => Null
  }

  /** A pydantic `List[Dict[str, Any]]` field. */
  function ListOfDicts(v: Json): Outcome<seq<Json>> {
    if v.Arr? && forall x :: x in v.items ==> x.Obj? then Ok(v.items)
    else Raised(Exn("1 validation error: Input should be a valid list of dictionaries"))
  }

  function NatToString(n: nat): string
    decreases n
  {
    var d := ['0', '1', '2', '3', '4', '5', '6', '7', '8', '9'][n % 10];
    if n < 10 then [d] else NatToString(n / 10) + [d]
  }

  // ---------------------------------------------------------------------------
  // Facts about the operations

  /** `v.get(k, d)` on a dict agrees with `k in v` and `v[k]`. */
  lemma GetAgreesWithIndex(v: Json, k: string, d: Json)
    requires v.Obj?
    ensures In(k, v) == Ok(true) ==> Get(v, k, d) == Index(v, k)
    ensures In(k, v) == Ok(false) ==> Get(v, k, d) == Ok(d) && Index(v, k).Raised?
  {
  }

  /** Slicing never yields more than `n` elements or characters, and keeps a prefix. */
  lemma TakeBound(v: Json, n: nat)
    ensures Take(v, n).Ok? <==> v.Str? || v.Arr?
    ensures Take(v, n).Ok? && v.Arr? ==> Take(v, n).value.Arr? && |Take(v, n).value.items| <= n && Take(v, n).value.items <= v.items
    ensures Take(v, n).Ok? && v.Str? ==> Take(v, n).value.Str? && |Take(v, n).value.s| <= n && Take(v, n).value.s <= v.s
  {
  }
}
