/** The LLM-facing service of openai_service.py: per-session conversation history,
    the API plan the planner prompt yields (extraction of the JSON reply and
    completion of its required fields), and the insight call. The chat-completion
    endpoint is a parameter `llm`, the prompt wording is abstract, and
    `json.loads` is a parameter `parse`. */
module OpenAI {
  import opened PyText
  import opened PyJson
  import opened PromptDigest

  /** One stored turn, `{"role": role, "content": content}`. */
  datatype Message = Message(role: string, content: Json)

  datatype Prompt = PlannerPrompt | InsightPrompt

  /** A message sent to the chat endpoint. */
  datatype ChatMessage =
    | SystemPrompt(prompt: Prompt)
    | Turn(message: Message)
    | DataMessage(digest: seq<Piece>)

  datatype ChatRequest = ChatRequest(messages: seq<ChatMessage>, temperature: real, maxTokens: nat)

  /** The chat-completion endpoint: a reply text, or the exception the client raises. */
  type Llm = ChatRequest -> Outcome<string>

  /** The most recent turns a session keeps. */
  const HISTORY_LIMIT: nat := 20
  /** How many recent turns a prompt carries. */
  const PROMPT_HISTORY: int := 10

  /** `generate_response`: a failed call is turned into an error text. */
  function Reply(llm: Llm, request: ChatRequest): (r: string)
    ensures llm(request).Ok? ==> r == llm(request).value
    ensures llm(request).Raised? ==> r == "Error: " + llm(request).error.message
  {
    match llm(request)
    case Ok(text) => text
    case Raised(e) => "Error: " + e.message
  }

  // ---------------------------------------------------------------------------
  // Conversation history

  type History = map<string, seq<Message>>

  /** The history after `if session_id not in history: history[session_id] = []`. */
  function Opened(h: History, sid: string): (r: History)
    ensures sid in r && forall s :: s in h ==> s in r && r[s] == h[s]
    ensures forall s :: s in r ==> s in h || s == sid
    ensures sid !in h ==> r[sid] == []
  {
    if sid in h then h else h[sid := []]
  }

  /** `turns[-n:]` with Python's negative-index slicing: the last `n` turns when `n`
      is positive, every turn when `n` is zero (`-0` is `0`), and all but the
      first `-n` when `n` is negative. */
  function Recent(turns: seq<Message>, n: int): seq<Message> {
    if n > 0 then (if n >= |turns| then turns else turns[|turns| - n..])
    else if -n >= |turns| then []
    else turns[-n..]
  }

  /** The last `n` elements of `s`, or all of it. */
  function LastN<T>(s: seq<T>, n: nat): (r: seq<T>)
    ensures |r| == if |s| <= n then |s| else n
    ensures forall i :: 0 <= i < |r| ==> r[i] == s[|s| - |r| + i]
  {
    if |s| <= n then s else s[|s| - n..]
  }

  /** The history after `add_to_conversation(sid, message)`. */
  function Added(h: History, sid: string, m: Message): History {
    var turns := Opened(h, sid)[sid] + [m];
    h[sid := if |turns| > HISTORY_LIMIT then turns[|turns| - HISTORY_LIMIT..] else turns]
  }

  /** Each session keeps at most the twenty most recent turns. */
  predicate Bounded(h: History) {
    forall s :: s in h ==> |h[s]| <= HISTORY_LIMIT
  }

  /** What `get_conversation_history` returns: a suffix of the session, in order,
      of exactly `min(n, len)` turns when `n` is positive. */
  lemma RecentIsSuffix(turns: seq<Message>, n: int)
    ensures |Recent(turns, n)| <= |turns|
    ensures Recent(turns, n) == turns[|turns| - |Recent(turns, n)|..]
    ensures n > 0 ==> |Recent(turns, n)| == if n < |turns| then n else |turns|
    ensures n == 0 ==> Recent(turns, n) == turns
  {
  }

  /** One append: the new turn comes last, the session keeps its twenty most
      recent turns, and every other session is unchanged. */
  lemma AddedAppends(h: History, sid: string, m: Message)
    ensures var r := Added(h, sid, m);
      && sid in r && r[sid] == LastN(Opened(h, sid)[sid] + [m], HISTORY_LIMIT)
      && r[sid][|r[sid]| - 1] == m
      && (forall s :: s in h && s != sid ==> s in r && r[s] == h[s])
      && (forall s :: s in r ==> s in h || s == sid)
      && (Bounded(h) ==> Bounded(r))
  {
  }

  /** The history after a sequence of appends to one session. */
  function AddedAll(h: History, sid: string, ms: seq<Message>): History
    decreases |ms|
  {
    if ms == [] then h else AddedAll(Added(h, sid, ms[0]), sid, ms[1..])
  }

  lemma LastNAppend<T>(s: seq<T>, t: seq<T>, n: nat)
    ensures LastN(LastN(s, n) + t, n) == LastN(s + t, n)
  {
    var a, b := LastN(LastN(s, n) + t, n), LastN(s + t, n);
    assert |a| == |b|;
    forall i | 0 <= i < |a| ensures a[i] == b[i] {
      var u := LastN(s, n) + t;
      var k := |u| - |a| + i;
      if k >= |LastN(s, n)| {
        assert u[k] == t[k - |LastN(s, n)|];
        assert (s + t)[|s + t| - |b| + i] == t[k - |LastN(s, n)|];
      } else {
        assert u[k] == s[|s| - |LastN(s, n)| + k];
      }
    }
  }

  /** Truncating after every append keeps exactly the twenty most recent turns of
      the whole conversation, and leaves every other session alone. */
  lemma {:induction false} AddedAllKeepsMostRecent(h: History, sid: string, ms: seq<Message>)
    requires ms != []
    ensures sid in AddedAll(h, sid, ms)
    ensures AddedAll(h, sid, ms)[sid] == LastN(Opened(h, sid)[sid] + ms, HISTORY_LIMIT)
    decreases |ms|, 1
  {
    if |ms| == 1 {
      AddedAllKeepsMostRecentOne(h, sid, ms);
    } else {
      AddedAllUnfold(h, sid, ms);
      AddedAllKeepsMostRecentStep(h, sid, ms);
    }
  }

  lemma AddedAllUnfold(h: History, sid: string, ms: seq<Message>)
    requires ms != []
    ensures AddedAll(h, sid, ms) == AddedAll(Added(h, sid, ms[0]), sid, ms[1..])
  {
  }

  lemma AddedAllKeepsMostRecentOne(h: History, sid: string, ms: seq<Message>)
    requires |ms| == 1
    ensures sid in AddedAll(h, sid, ms)
    ensures AddedAll(h, sid, ms)[sid] == LastN(Opened(h, sid)[sid] + ms, HISTORY_LIMIT)
  {
    assert AddedAll(h, sid, ms) == Added(h, sid, ms[0]);
    AddedAppends(h, sid, ms[0]);
    assert ms == [ms[0]];
  }

  /** The step of `AddedAllKeepsMostRecent`: the turns after the first one. */
  lemma {:induction false} AddedAllKeepsMostRecentStep(h: History, sid: string, ms: seq<Message>)
    requires |ms| > 1
    ensures sid in AddedAll(Added(h, sid, ms[0]), sid, ms[1..])
    ensures AddedAll(Added(h, sid, ms[0]), sid, ms[1..])[sid] == LastN(Opened(h, sid)[sid] + ms, HISTORY_LIMIT)
    decreases |ms|, 0
  {
    var h' := Added(h, sid, ms[0]);
    var before := Opened(h, sid)[sid];
    assert sid in h' && h'[sid] == LastN(before + [ms[0]], HISTORY_LIMIT) by {
      AddedAppends(h, sid, ms[0]);
    }
    assert Opened(h', sid) == h';
    AddedAllKeepsMostRecent(h', sid, ms[1..]);
    LastNShift(before, ms, HISTORY_LIMIT);
  }

  lemma LastNShift<T>(before: seq<T>, ms: seq<T>, n: nat)
    requires ms != []
    ensures LastN(LastN(before + [ms[0]], n) + ms[1..], n) == LastN(before + ms, n)
  {
    assert before + [ms[0]] + ms[1..] == before + ms;
    LastNAppend(before + [ms[0]], ms[1..], n);
  }

  lemma {:induction false} AddedAllOthers(h: History, sid: string, ms: seq<Message>, s: string)
    requires s in h && s != sid
    ensures s in AddedAll(h, sid, ms) && AddedAll(h, sid, ms)[s] == h[s]
    decreases |ms|
  {
    if ms != [] {
      AddedAppends(h, sid, ms[0]);
      AddedAllOthers(Added(h, sid, ms[0]), sid, ms[1..], s);
    }
  }

  // ---------------------------------------------------------------------------
  // Extracting the plan from the planner's reply

  const OPEN_JSON: string := "```json\n"
  const OPEN_PLAIN: string := "```\n"
  const CLOSE: string := "\n```"

  /** Where the content of a fence opened at `i` starts, `(?:json)?\n` preferring
      the `json` tag. */
  function OpenAt(s: string, i: nat): Option<nat> {
    if OccursAt(OPEN_JSON, s, i) then Some(i + |OPEN_JSON|)
    else if OccursAt(OPEN_PLAIN, s, i) then Some(i + |OPEN_PLAIN|)
    else None
  }

  /** The first closing fence at or after `c`: the lazy `(.*?)` stops there. */
  function CloseFrom(s: string, c: nat): (r: Option<nat>)
    requires c <= |s|
    ensures r.Some? ==> c <= r.value <= |s| && OccursAt(CLOSE, s, r.value)
    ensures r.Some? ==> forall k :: c <= k < r.value ==> !OccursAt(CLOSE, s, k)
    ensures r.None? ==> forall k :: c <= k <= |s| ==> !OccursAt(CLOSE, s, k)
    decreases |s| - c
  {
    if OccursAt(CLOSE, s, c) then Some(c)
    else if c == |s| then None
    else CloseFrom(s, c + 1)
  }

  /** The fenced block matched at position `i`, if one starts there. */
  function FenceAt(s: string, i: nat): Option<string> {
    match OpenAt(s, i)
    case None => None
    case Some(c) =>
      if c > |s| then None
      else
        match CloseFrom(s, c)
        case None => None
        case Some(j) => Some(s[c..j])
  }

  /** The leftmost position at or after `i` where a fenced block matches. */
  function FenceStart(s: string, i: nat): (r: Option<nat>)
    requires i <= |s|
    ensures r.Some? ==> i <= r.value <= |s| && FenceAt(s, r.value).Some?
    ensures r.Some? ==> forall k :: i <= k < r.value ==> FenceAt(s, k).None?
    ensures r.None? ==> forall k :: i <= k <= |s| ==> FenceAt(s, k).None?
    decreases |s| - i
  {
    if FenceAt(s, i).Some? then Some(i)
    else if i == |s| then None
    else FenceStart(s, i + 1)
  }

  /** Group 1 of ``` re.search(r'```(?:json)?\n(.*?)\n```', s, re.DOTALL) ```. */
  function FencedBlock(s: string): Option<string> {
    match FenceStart(s, 0)
    case None => None
    case Some(i) => FenceAt(s, i)
  }

  /** The first index at or after `i` holding `c`. */
  function FirstIndex(s: string, c: char, i: nat): (r: Option<nat>)
    requires i <= |s|
    ensures r.Some? ==> i <= r.value < |s| && s[r.value] == c && forall k :: i <= k < r.value ==> s[k] != c
    ensures r.None? ==> forall k :: i <= k < |s| ==> s[k] != c
    decreases |s| - i
  {
    if i == |s| then None else if s[i] == c then Some(i) else FirstIndex(s, c, i + 1)
  }

  /** The last index below `n` holding `c`. */
  function LastIndex(s: string, c: char, n: nat): (r: Option<nat>)
    requires n <= |s|
    ensures r.Some? ==> r.value < n && s[r.value] == c && forall k :: r.value < k < n ==> s[k] != c
    ensures r.None? ==> forall k :: 0 <= k < n ==> s[k] != c
  {
    if n == 0 then None else if s[n - 1] == c then Some(n - 1) else LastIndex(s, c, n - 1)
  }

  /** Group 1 of `re.search(r'({.*})', s, re.DOTALL)`: from the first `{` to the
      last `}` after it. */
  function InlineObject(s: string): (r: Option<string>)
    ensures r.Some? ==> |r.value| >= 2 && r.value[0] == '{' && r.value[|r.value| - 1] == '}'
    ensures r.None? ==> forall i, j :: 0 <= i < j < |s| && s[i] == '{' ==> s[j] != '}'
  {
    match FirstIndex(s, '{', 0)
    case None => None
    case Some(i) =>
      match LastIndex(s, '}', |s|)
      case None => None
      case Some(j) => if j > i then Some(s[i..j + 1]) else None
  }

  // ---------------------------------------------------------------------------
  // Completing the plan

  /** The fields every plan must carry, in the order they are checked. */
  const REQUIRED: seq<string> := [
    "call_perplexity_sonar", "call_perplexity_deep_research",
    "need_stock_price", "need_financials", "need_insider_trades",
    "need_sec_filings", "tickers", "reasoning"]

  /** The value a missing required field receives. */
  function Default(field: string): Json {
    if field == "tickers" then Arr([])
    else if field == "reasoning" then Str("No reasoning provided.")
    else Bool(false)
  }

  /** The plan used when the reply cannot be used: Perplexity Sonar only. */
  function FallbackPlan(reasoning: string): (r: Json)
    ensures r.Obj? && Keys(r.fields) == REQUIRED
  {
    Obj([("call_perplexity_sonar", Bool(true)), ("call_perplexity_deep_research", Bool(false)),
         ("need_stock_price", Bool(false)), ("need_financials", Bool(false)),
         ("need_insider_trades", Bool(false)), ("need_sec_filings", Bool(false)),
         ("tickers", Arr([])), ("reasoning", Str(reasoning))])
  }

  const NO_JSON_REASONING: string := "Failed to parse API plan, using default."

  function ErrorPlan(message: string): Json {
    FallbackPlan("Error parsing API plan: " + message)
  }

  /** `for field in fields: if field not in plan: plan[field] = default`. */
  function FillFrom(plan: Json, fields: seq<string>): Outcome<Json>
    decreases |fields|
  {
    if fields == [] then Ok(plan)
    else
      var present :- In(fields[0], plan);
      var next :- if present then Ok(plan) else SetItem(plan, fields[0], Default(fields[0]));
      FillFrom(next, fields[1..])
  }

  /** What `json.loads` makes of the reply: the fenced block if there is one, else
      the inline object, else the no-JSON fallback plan. */
  function ParsedReply(reply: string, parse: string -> Outcome<Json>): Outcome<Json> {
    match FencedBlock(reply)
    case Some(block) => parse(block)
    case None =>
      match InlineObject(reply)
      case Some(inline) => parse(inline)
      case None => Ok(FallbackPlan(NO_JSON_REASONING))
  }

  /** The plan `analyze_query` returns for a reply: any exception while parsing or
      completing becomes the error plan. */
  function PlanFromReply(reply: string, parse: string -> Outcome<Json>): Json {
    var filled := match ParsedReply(reply, parse)
      case Ok(plan) => FillFrom(plan, REQUIRED)
      case Raised(e) => Raised(e);
    match filled
    case Ok(plan) => plan
    case Raised(e) => ErrorPlan(e.message)
  }

  // ---------------------------------------------------------------------------
  // Properties of plan completion

  /** Completing a dict never fails; it keeps every field already there, with its
      value and place, and appends each missing field with its default. */
  lemma {:induction false} FillDict(v: Json, fs: seq<string>)
    requires v.Obj?
    ensures FillFrom(v, fs).Ok? && FillFrom(v, fs).value.Obj?
    ensures var p := FillFrom(v, fs).value.fields;
      && Keys(v.fields) <= Keys(p)
      && (forall f :: f in fs ==> f in Keys(p))
      && (forall k :: k in Keys(v.fields) ==> Lookup(p, k) == Lookup(v.fields, k))
      && (forall f :: f in fs && f !in Keys(v.fields) ==> Lookup(p, f) == Some(Default(f)))
    decreases |fs|
  {
    if fs != [] {
      var f0 := fs[0];
      var next := if f0 in Keys(v.fields) then v else Obj(Put(v.fields, f0, Default(f0)));
      assert FillFrom(v, fs) == FillFrom(next, fs[1..]);
      FillDict(next, fs[1..]);
      var p := FillFrom(v, fs).value.fields;
      forall k | k in Keys(v.fields) ensures Lookup(next.fields, k) == Lookup(v.fields, k) {
        if f0 !in Keys(v.fields) {
          PutLookup(v.fields, f0, Default(f0), k);
        }
      }
      if f0 !in Keys(v.fields) {
        PutLookup(v.fields, f0, Default(f0), f0);
      }
      assert Lookup(next.fields, f0).Some?;
      forall f | f in fs && f !in Keys(v.fields) ensures Lookup(p, f) == Some(Default(f)) {
        if f != f0 {
          assert f in fs[1..];
        }
      }
    }
  }

  /** Completing anything but a dict either raises or leaves it as it was, which
      happens only when every field already tests as `in` it. */
  lemma {:induction false} FillNonDict(v: Json, fs: seq<string>)
    requires !v.Obj? && FillFrom(v, fs).Ok?
    ensures FillFrom(v, fs).value == v
    ensures forall f :: f in fs ==> In(f, v) == Ok(true)
    decreases |fs|
  {
    if fs != [] {
      assert In(fs[0], v) == Ok(true);
      FillNonDict(v, fs[1..]);
    }
  }

  /** Whatever the planner replies and whatever `json.loads` makes of it, the plan
      carries every required field. */
  lemma PlanComplete(reply: string, parse: string -> Outcome<Json>)
    ensures forall f :: f in REQUIRED ==> In(f, PlanFromReply(reply, parse)) == Ok(true)
  {
    var parsed := ParsedReply(reply, parse);
    if parsed.Ok? {
      var v := parsed.value;
      if v.Obj? {
        FillDict(v, REQUIRED);
      } else if FillFrom(v, REQUIRED).Ok? {
        FillNonDict(v, REQUIRED);
      }
    }
  }

  /** A reply whose JSON is a dict yields that dict, every field it has kept with
      its value, and each missing required field added with its default. */
  lemma PlanKeepsParsedFields(reply: string, parse: string -> Outcome<Json>)
    requires ParsedReply(reply, parse).Ok? && ParsedReply(reply, parse).value.Obj?
    ensures var given := ParsedReply(reply, parse).value.fields;
      var plan := PlanFromReply(reply, parse);
      && plan.Obj?
      && Keys(given) <= Keys(plan.fields)
      && (forall k :: k in Keys(given) ==> Lookup(plan.fields, k) == Lookup(given, k))
      && (forall f :: f in REQUIRED && f !in Keys(given) ==> Lookup(plan.fields, f) == Some(Default(f)))
  {
    FillDict(ParsedReply(reply, parse).value, REQUIRED);
  }

  /** A fenced block is preferred to an inline object; with neither, the plan is
      the Sonar-only fallback. */
  lemma ReplyExtractionOrder(reply: string, parse: string -> Outcome<Json>)
    ensures FencedBlock(reply).Some? ==> ParsedReply(reply, parse) == parse(FencedBlock(reply).value)
    ensures FencedBlock(reply).None? && InlineObject(reply).Some? ==>
      ParsedReply(reply, parse) == parse(InlineObject(reply).value)
    ensures FencedBlock(reply).None? && InlineObject(reply).None? ==>
      PlanFromReply(reply, parse) == FallbackPlan(NO_JSON_REASONING)
  {
    if FencedBlock(reply).None? && InlineObject(reply).None? {
      var v := FallbackPlan(NO_JSON_REASONING);
      assert ParsedReply(reply, parse) == Ok(v);
      FillKeepsComplete(v, REQUIRED);
    }
  }

  /** Completing a dict that already has every field changes nothing. */
  lemma {:induction false} FillKeepsComplete(v: Json, fs: seq<string>)
    requires v.Obj? && forall f :: f in fs ==> f in Keys(v.fields)
    ensures FillFrom(v, fs) == Ok(v)
    decreases |fs|
  {
    if fs != [] {
      assert fs[0] in fs;
      assert forall f :: f in fs[1..] ==> f in fs;
      FillKeepsComplete(v, fs[1..]);
    }
  }

  /** An exception from `json.loads` (or from completing what it returned) never
      escapes: the plan is the Sonar-only fallback whose reasoning names the
      error. */
  lemma ParseErrorGivesFallback(reply: string, parse: string -> Outcome<Json>)
    requires ParsedReply(reply, parse).Raised?
    ensures PlanFromReply(reply, parse) == ErrorPlan(ParsedReply(reply, parse).error.message)
    ensures var plan := PlanFromReply(reply, parse);
      && Lookup(plan.fields, "call_perplexity_sonar") == Some(Bool(true))
      && Lookup(plan.fields, "tickers") == Some(Arr([]))
      && Lookup(plan.fields, "reasoning") == Some(Str("Error parsing API plan: " + ParsedReply(reply, parse).error.message))
  {
    FallbackPlanFields("Error parsing API plan: " + ParsedReply(reply, parse).error.message);
  }

  /** The flags, tickers and reasoning of a fallback plan. */
  lemma FallbackPlanFields(reasoning: string)
    ensures var fs := FallbackPlan(reasoning).fields;
      && Lookup(fs, "call_perplexity_sonar") == Some(Bool(true))
      && Lookup(fs, "call_perplexity_deep_research") == Some(Bool(false))
      && Lookup(fs, "need_stock_price") == Some(Bool(false))
      && Lookup(fs, "need_financials") == Some(Bool(false))
      && Lookup(fs, "need_insider_trades") == Some(Bool(false))
      && Lookup(fs, "need_sec_filings") == Some(Bool(false))
      && Lookup(fs, "tickers") == Some(Arr([]))
      && Lookup(fs, "reasoning") == Some(Str(reasoning))
  {
    var fs := FallbackPlan(reasoning).fields;
    LookupRequired(fs, 0);
    LookupRequired(fs, 1);
    LookupRequired(fs, 2);
    LookupRequired(fs, 3);
    LookupRequired(fs, 4);
    LookupRequired(fs, 5);
    LookupRequired(fs, 6);
    LookupRequired(fs, 7);
  }

  lemma LookupRequired(fs: Fields, i: nat)
    requires |fs| == |REQUIRED| && i < |fs| && forall j :: 0 <= j < |fs| ==> fs[j].0 == REQUIRED[j]
    ensures Lookup(fs, REQUIRED[i]) == Some(fs[i].1)
  {
    RequiredDistinct();
    LookupFirst(fs, i);
  }

  /** No required field is listed twice. */
  lemma RequiredDistinct()
    ensures forall i, j :: 0 <= j < i < |REQUIRED| ==> REQUIRED[j] != REQUIRED[i]
  {
    assert REQUIRED[0][5] == 'p' && REQUIRED[1][5] == 'p';
    assert |REQUIRED[0]| == 21 && |REQUIRED[1]| == 29;
    assert REQUIRED[2][5] == 's' && REQUIRED[3][5] == 'f' && REQUIRED[4][5] == 'i' && REQUIRED[5][5] == 's';
    assert REQUIRED[2][6] == 't' && REQUIRED[5][6] == 'e';
    assert REQUIRED[6][0] == 't' && REQUIRED[7][0] == 'r' && REQUIRED[0][0] == 'c' && REQUIRED[2][0] == 'n';
  }

  /** The leftmost fence wins, and its content is the shortest one that ends at a
      closing fence. */
  lemma FencedBlockIsLeftmostShortest(s: string)
    requires FencedBlock(s).Some?
    ensures exists i: nat, c: nat, j: nat | i <= c <= j <= |s| ::
      && FenceStart(s, 0) == Some(i) && OpenAt(s, i) == Some(c)
      && FencedBlock(s).value == s[c..j] && OccursAt(CLOSE, s, j)
      && (forall k :: c <= k < j ==> !OccursAt(CLOSE, s, k))
      && (forall k :: 0 <= k < i ==> FenceAt(s, k).None?)
  {
    var i := FenceStart(s, 0).value;
    var c := OpenAt(s, i).value;
    var j := CloseFrom(s, c).value;
    assert FencedBlock(s).value == s[c..j];
  }

  // ---------------------------------------------------------------------------
  // The service

  class OpenAIService {
    var history: History

    constructor()
      ensures history == map[]
    {
      history := map[];
    }

    /** `get_conversation_history`. */
    method GetConversationHistory(sid: string, maxMessages: int) returns (r: seq<Message>)
      modifies this
      ensures history == Opened(old(history), sid)
      ensures r == Recent(history[sid], maxMessages)
    {
      if sid !in history {
        history := history[sid := []];
      }
      var turns := history[sid];
      if maxMessages > 0 {
        r := if maxMessages >= |turns| then turns else turns[|turns| - maxMessages..];
      } else {
        r := if -maxMessages >= |turns| then [] else turns[-maxMessages..];
      }
    }

    /** `add_to_conversation`. */
    method AddToConversation(sid: string, role: string, content: Json)
      modifies this
      ensures history == Added(old(history), sid, Message(role, content))
      ensures Bounded(old(history)) ==> Bounded(history)
    {
      if sid !in history {
        history := history[sid := []];
      }
      var turns := history[sid] + [Message(role, content)];
      if |turns| > HISTORY_LIMIT {
        turns := turns[|turns| - HISTORY_LIMIT..];
      }
      history := history[sid := turns];
    }

    /** The fill loop of `analyze_query`. */
    static method FillRequired(plan: Json) returns (r: Outcome<Json>)
      ensures r == FillFrom(plan, REQUIRED)
    {
      var current := plan;
      var i := 0;
      while i < |REQUIRED|
        invariant 0 <= i <= |REQUIRED|
        invariant FillFrom(current, REQUIRED[i..]) == FillFrom(plan, REQUIRED)
      {
        var field := REQUIRED[i];
        assert REQUIRED[i..][1..] == REQUIRED[i + 1..];
        var present :- In(field, current);
        if !present {
          current :- SetItem(current, field, Default(field));
        }
        i := i + 1;
      }
      r := Ok(current);
    }

    /** `analyze_query`: ask the planner, then extract and complete its plan. */
    method AnalyzeQuery(query: string, sid: string, llm: Llm, parse: string -> Outcome<Json>)
      returns (plan: Json)
      modifies this
      ensures history == Opened(old(history), sid)
      ensures plan == PlanFromReply(Reply(llm, PlannerRequest(Recent(history[sid], PROMPT_HISTORY), query)), parse)
    {
      var recent := GetConversationHistory(sid, PROMPT_HISTORY);
      var reply := Reply(llm, PlannerRequest(recent, query));
      var parsed: Outcome<Json>;
      var block := FencedBlock(reply);
      if block.Some? {
        parsed := parse(block.value);
      } else {
        var inline := InlineObject(reply);
        if inline.Some? {
          parsed := parse(inline.value);
        } else {
          parsed := Ok(FallbackPlan(NO_JSON_REASONING));
        }
      }
      if parsed.Raised? {
        return ErrorPlan(parsed.error.message);
      }
      var filled := FillRequired(parsed.value);
      if filled.Raised? {
        return ErrorPlan(filled.error.message);
      }
      plan := filled.value;
    }

    /** `generate_financial_insight`: the digest of the data goes to the model
        after the recent turns and the question; the reply (or the error text) is
        recorded as one assistant turn. A digest that raises propagates. */
    method GenerateFinancialInsight(query: string, data: seq<Entry>, sid: string, llm: Llm)
      returns (r: Outcome<string>)
      modifies this
      ensures Digest(data).Raised? ==> r == Raised(Digest(data).error) && history == Opened(old(history), sid)
      ensures Digest(data).Ok? ==>
        && r == Ok(Reply(llm, InsightRequest(Recent(Opened(old(history), sid)[sid], PROMPT_HISTORY), query, Digest(data).value)))
        && history == Added(old(history), sid, Message("assistant", Str(r.value)))
    {
      var recent := GetConversationHistory(sid, PROMPT_HISTORY);
      var digest :- FormatDataForPrompt(data);
      var reply := Reply(llm, InsightRequest(recent, query, digest));
      AddToConversation(sid, "assistant", Str(reply));
      r := Ok(reply);
    }
  }

  function Turns(ms: seq<Message>): seq<ChatMessage> {
    seq(|ms|, i requires 0 <= i < |ms| => Turn(ms[i]))
  }

  /** The planner call: instructions, recent turns, the question; temperature 0.3
      and the default limit of 1500 tokens. */
  function PlannerRequest(recent: seq<Message>, query: string): ChatRequest {
    ChatRequest([SystemPrompt(PlannerPrompt)] + Turns(recent) + [Turn(Message("user", Str(query)))], 0.3, 1500)
  }

  /** The insight call: instructions, recent turns, the question, the data digest;
      temperature 0.5 and at most 2000 tokens. */
  function InsightRequest(recent: seq<Message>, query: string, digest: seq<Piece>): ChatRequest {
    ChatRequest([SystemPrompt(InsightPrompt)] + Turns(recent) + [Turn(Message("user", Str(query))), DataMessage(digest)], 0.5, 2000)
  }
}
