/** The two search routes of search.py. `POST /search` answers a question in one
    response; `POST /search/stream` reports its progress as a sequence of events.
    Both record the question in the conversation, answer from the response cache
    when they can, and otherwise plan with the language model, fan out to the
    data providers, merge their results, ask the model for the insight, collect
    the sources and schedule two cache writes. Any exception becomes an error
    answer. Everything outside the route (the model, the providers, the clock, the
    identifiers it draws) is a parameter, and the deferred cache writes are
    recorded in a trace and applied by `RunBackground`. */
module SearchRoute {
  import opened PyJson
  import opened Collect
  import opened FanOut
  import opened Sources
  import opened OpenAI
  import PromptDigest
  import RedisCache

  /** `SearchRequest`; `mode` defaults to `sonar`. */
  datatype SearchRequest = SearchRequest(query: string, mode: string, sessionId: Option<string>)

  /** A request that gives only the question. */
  function DefaultRequest(query: string): SearchRequest {
    SearchRequest(query, "sonar", None)
  }

  /** `SearchResponse`. */
  datatype SearchResponse = SearchResponse(answer: string, sources: Option<seq<Source>>, data: Option<Fields>, sessionId: Option<string>)

  /** What lies outside the route: the identifier `uuid4` gives for a new session
      and the one it gives in the error handler, the time and reachability of the
      cache server, the language model, the JSON parser and the providers. */
  datatype Env = Env(
    freshSid: string, errorSid: string,
    now: int, cacheDown: bool,
    llm: Llm, parse: string -> Outcome<Json>,
    fetch: Task -> Outcome<Json>)

  /** A cache write scheduled as a background task. */
  datatype CacheWrite = PlanWrite(query: string, plan: Json) | ResponseWrite(query: string, response: Json)

  /** The provider calls a request makes, in task order, and the cache writes it
      schedules, in order. */
  datatype Trace = Trace(calls: seq<Task>, writes: seq<CacheWrite>)

  /** What serving a request amounts to: the answer or the exception that ends the
      `try` block, the trace, and the conversation history afterwards. */
  datatype Run = Run(result: Outcome<SearchResponse>, trace: Trace, history: History)

  // ---------------------------------------------------------------------------
  // Specification of one request

  /** `request.session_id or str(uuid.uuid4())`: an absent or empty identifier is
      replaced. */
  function SessionId(given: Option<string>, drawn: string): (r: string)
    ensures given.Some? && given.value != [] ==> r == given.value
    ensures given.None? || given.value == [] ==> r == drawn
  {
    if given.Some? && given.value != [] then given.value else drawn
  }

  function SessionFor(req: SearchRequest, env: Env): string {
    SessionId(req.sessionId, env.freshSid)
  }

  /** The response cache lookup: nothing when the service is disabled or the server
      cannot be reached. */
  function CachedFor(enabled: bool, md5: string -> string, store: RedisCache.Store, q: string, env: Env): Option<Json> {
    if enabled && !env.cacheDown then RedisCache.Fetch(store, RedisCache.CacheKey(RedisCache.RESPONSE_PREFIX, q, md5), env.now)
    else None
  }

  /** The cached dictionary a fresh answer is stored as; sources are stored as
      their `__dict__`. */
  function CachedForm(answer: string, sources: seq<Source>, data: Fields): Json {
    Obj([("answer", Str(answer)), ("sources", SourcesJson(sources)), ("data", Obj(data))])
  }

  /** The response built from a cached dictionary once its `answer` was read: each
      listed source through `Source(**source)`, `data` as stored, and the model's
      validation of `answer` as a string and `data` as a dictionary or null. */
  function HitResponse(cached: Json, answer: Json, sid: string): Outcome<SearchResponse> {
    var listed :- Get(cached, "sources", Arr([]));
    var items :- Iterate(listed);
    var sources :- ConcatMap(items, SourceFromJson);
    var data :- Get(cached, "data", Null);
    var a :- RequiredStr(answer);
    var d :- OptionalDict(data);
    Ok(SearchResponse(a, Some(sources), d, Some(sid)))
  }

  /** A cache hit, on the history that already holds the question: the cached
      answer is recorded as the assistant's turn before the response is built. */
  function Hit(h: History, sid: string, cached: Json): Run {
    match Index(cached, "answer")
    case Raised(e) => Run(Raised(e), Trace([], []), h)
    case Ok(answer) => Run(HitResponse(cached, answer, sid), Trace([], []), Added(h, sid, Message("assistant", answer)))
  }

  /** The results dictionary of a task list: the gathered outcomes merged under
      the task keys. */
  function ApiResults(jobs: seq<Job>, fetch: Task -> Outcome<Json>): Fields {
    Merged(KeysOf(jobs), Gather(TasksOf(jobs), fetch))
  }

  /** The plan the planner call yields on history `h`. */
  function PlanOf(h: History, q: string, sid: string, env: Env): Json {
    PlanFromReply(Reply(env.llm, PlannerRequest(Recent(Opened(h, sid)[sid], PROMPT_HISTORY), q)), env.parse)
  }

  /** A cache miss, on the history that already holds the question. The plan write
      runs after the response, so it stores the plan as the deep-research override
      left it. The insight prompt sees the same recent turns as the planner. */
  function Missed(h: History, q: string, mode: string, sid: string, env: Env, variant: Variant): Run {
    Answered(Opened(h, sid), q, mode, sid, env, variant, PlanOf(h, q, sid, env))
  }

  /** The miss from the point the plan is known: the fan-out, the insight call and
      the sources. */
  function Answered(h: History, q: string, mode: string, sid: string, env: Env, variant: Variant, plan: Json): Run {
    var writes := [PlanWrite(q, PlanAfter(plan, mode))];
    match Dispatched(plan, mode, q, variant)
    case Raised(e) => Run(Raised(e), Trace([], writes), Opened(h, sid))
    case Ok(jobs) => Insight(h, q, sid, env, jobs, writes)
  }

  /** The miss from the point the plan has been overridden. */
  function Planned(h: History, q: string, mode: string, sid: string, env: Env, variant: Variant, current: Json): Run {
    var writes := [PlanWrite(q, current)];
    match Jobs(current, mode, q, variant)
    case Raised(e) => Run(Raised(e), Trace([], writes), Opened(h, sid))
    case Ok(jobs) => Insight(h, q, sid, env, jobs, writes)
  }

  /** The miss from the point the task list is known. */
  function Insight(h: History, q: string, sid: string, env: Env, jobs: seq<Job>, writes: seq<CacheWrite>): Run {
    var h1 := Opened(h, sid);
    var api := ApiResults(jobs, env.fetch);
    match PromptDigest.Digest(api)
    case Raised(e) => Run(Raised(e), Trace(TasksOf(jobs), writes), h1)
    case Ok(digest) =>
      var answer := Reply(env.llm, InsightRequest(Recent(h1[sid], PROMPT_HISTORY), q, digest));
      var h2 := Added(h1, sid, Message("assistant", Str(answer)));
      match ExtractSources(api)
      case Raised(e) => Run(Raised(e), Trace(TasksOf(jobs), writes), h2)
      case Ok(sources) =>
        Run(Ok(SearchResponse(answer, Some(sources), Some(api), Some(sid))),
          Trace(TasksOf(jobs), writes + [ResponseWrite(q, CachedForm(answer, sources, api))]), h2)
  }

  /** Whether a cache lookup counts as a hit: `if cached_response:`. */
  predicate IsHit(cached: Option<Json>) {
    cached.Some? && Truthy(cached.value)
  }

  /** One request from the start of the `try` block: the question is recorded,
      then the cached answer or a fresh one is produced. */
  function Served(h0: History, req: SearchRequest, cached: Option<Json>, env: Env, variant: Variant): Run {
    var sid := SessionFor(req, env);
    var h := Added(h0, sid, Message("user", Str(req.query)));
    if IsHit(cached) then Hit(h, sid, cached.value) else Missed(h, req.query, req.mode, sid, env, variant)
  }

  const ERROR_PREFIX: string := "An error occurred while processing your request: "

  /** The `except` branch's response: the exception's text, no sources, no data,
      and a session identifier drawn afresh when the request had none. */
  function ErrorResponse(e: Exn, req: SearchRequest, env: Env): SearchResponse {
    SearchResponse(ERROR_PREFIX + e.message, Some([]), None, Some(SessionId(req.sessionId, env.errorSid)))
  }

  /** What the route returns for the outcome of its `try` block. */
  function Respond(result: Outcome<SearchResponse>, req: SearchRequest, env: Env): SearchResponse {
    match result
    case Ok(r) => r
    case Raised(e) => ErrorResponse(e, req, env)
  }

  // ---------------------------------------------------------------------------
  // The plain route

  /** `POST /search`. */
  method Search(req: SearchRequest, openai: OpenAIService, redis: RedisCache.RedisService, env: Env)
    returns (resp: SearchResponse, trace: Trace)
    modifies openai
    ensures var run := Served(old(openai.history), req, CachedFor(redis.enabled, redis.md5, redis.client.entries, req.query, env), env, Plain);
      resp == Respond(run.result, req, env) && trace == run.trace && openai.history == run.history
  {
    var sid := SessionId(req.sessionId, env.freshSid);
    openai.AddToConversation(sid, "user", Str(req.query));
    var cached := redis.GetQueryResponse(req.query, env.now, env.cacheDown);
    var result;
    if cached.Some? && Truthy(cached.value) {
      result := AnswerFromCache(openai, sid, cached.value);
      trace := Trace([], []);
    } else {
      result, trace := AnswerFresh(openai, req.query, req.mode, sid, env);
    }
    resp := Respond(result, req, env);
  }

  /** The cache-hit branch. */
  method AnswerFromCache(openai: OpenAIService, sid: string, cached: Json) returns (result: Outcome<SearchResponse>)
    modifies openai
    ensures var run := Hit(old(openai.history), sid, cached);
      result == run.result && openai.history == run.history
  {
    var answer :- Index(cached, "answer");
    openai.AddToConversation(sid, "assistant", answer);
    var listed :- Get(cached, "sources", Arr([]));
    var items :- Iterate(listed);
    var sources :- ConcatMap(items, SourceFromJson);
    var data :- Get(cached, "data", Null);
    var a :- RequiredStr(answer);
    var d :- OptionalDict(data);
    result := Ok(SearchResponse(a, Some(sources), d, Some(sid)));
  }

  /** The cache-miss branch: plan, fan out, merge, ask for the insight, collect
      the sources. */
  method AnswerFresh(openai: OpenAIService, q: string, mode: string, sid: string, env: Env)
    returns (result: Outcome<SearchResponse>, trace: Trace)
    modifies openai
    ensures var run := Missed(old(openai.history), q, mode, sid, env, Plain);
      result == run.result && trace == run.trace && openai.history == run.history
  {
    ghost var h := old(openai.history);
    var plan := openai.AnalyzeQuery(q, sid, env.llm, env.parse);
    assert plan == PlanOf(h, q, sid, env);
    var batch, planNow := BuildTasks(plan, mode, q, Plain);
    var writes := [PlanWrite(q, planNow)];
    if batch.Raised? {
      return Raised(batch.error), Trace([], writes);
    }
    ghost var jobs := Dispatched(plan, mode, q, Plain).value;
    var tasks := batch.value.tasks;
    var apiResults := Gathered(batch.value, env.fetch, jobs);
    var insight := openai.GenerateFinancialInsight(q, apiResults, sid, env.llm);
    if insight.Raised? {
      return Raised(insight.error), Trace(tasks, writes);
    }
    var sources := CollectSources(apiResults);
    if sources.Raised? {
      return Raised(sources.error), Trace(tasks, writes);
    }
    writes := writes + [ResponseWrite(q, CachedForm(insight.value, sources.value, apiResults))];
    result := Ok(SearchResponse(insight.value, Some(sources.value), Some(apiResults), Some(sid)));
    trace := Trace(tasks, writes);
  }

  /** `if tasks:` gather the calls and merge their outcomes; otherwise `{}`. */
  method Gathered(batch: Batch, fetch: Task -> Outcome<Json>, ghost jobs: seq<Job>) returns (apiResults: Fields)
    requires Aligned(jobs, batch)
    ensures apiResults == ApiResults(jobs, fetch)
  {
    if |batch.tasks| > 0 {
      var results := Gather(batch.tasks, fetch);
      apiResults := MergeResults(batch.keys, results);
    } else {
      apiResults := [];
    }
  }

  // ---------------------------------------------------------------------------
  // The background cache writes

  /** The store after one scheduled write. */
  function Write(store: RedisCache.Store, md5: string -> string, w: CacheWrite, now: int): RedisCache.Store {
    match w
    case PlanWrite(q, plan) =>
      RedisCache.Stored(store, RedisCache.CacheKey(RedisCache.PLAN_PREFIX, q, md5), plan, RedisCache.PLAN_TTL, now)
    case ResponseWrite(q, response) =>
      RedisCache.Stored(store, RedisCache.CacheKey(RedisCache.RESPONSE_PREFIX, q, md5), response, RedisCache.RESPONSE_TTL, now)
  }

  /** The store after the scheduled writes, in order. */
  function Applied(store: RedisCache.Store, md5: string -> string, writes: seq<CacheWrite>, now: int): RedisCache.Store
    decreases |writes|
  {
    if writes == [] then store else Applied(Write(store, md5, writes[0], now), md5, writes[1..], now)
  }

  /** Running the background tasks once the response has been sent, each with its
      default time-to-live. */
  method RunBackground(redis: RedisCache.RedisService, writes: seq<CacheWrite>, now: int, down: bool)
    modifies redis.client
    ensures redis.client.entries ==
      if redis.enabled && !down then Applied(old(redis.client.entries), redis.md5, writes, now)
      else old(redis.client.entries)
  {
    var i := 0;
    while i < |writes|
      invariant 0 <= i <= |writes|
      invariant redis.enabled && !down ==>
        Applied(redis.client.entries, redis.md5, writes[i..], now) == Applied(old(redis.client.entries), redis.md5, writes, now)
      invariant !(redis.enabled && !down) ==> redis.client.entries == old(redis.client.entries)
    {
      assert writes[i..][1..] == writes[i + 1..];
      var ok;
      match writes[i] {
        case PlanWrite(q, plan) =>
          ok := redis.SetApiPlan(q, plan, RedisCache.PLAN_TTL, now, down);
        case ResponseWrite(q, response) =>
          ok := redis.SetQueryResponse(q, response, RedisCache.RESPONSE_TTL, now, down);
      }
      i := i + 1;
    }
  }

  // ---------------------------------------------------------------------------
  // Properties of the plain route

  /** Every response carries a session identifier and a source list. An error
      response holds the exception's text, no sources and no data, and keeps the
      request's own identifier when it has one. */
  lemma ResponseShape(result: Outcome<SearchResponse>, req: SearchRequest, env: Env, h0: History, cached: Option<Json>, variant: Variant)
    requires result == Served(h0, req, cached, env, variant).result
    ensures var r := Respond(result, req, env); r.sessionId.Some? && r.sources.Some?
    ensures result.Raised? ==> (Respond(result, req, env) ==
      SearchResponse(ERROR_PREFIX + result.error.message, Some([]), None, Some(SessionId(req.sessionId, env.errorSid))))
    ensures result.Ok? ==> result.value.sessionId == Some(SessionFor(req, env))
  {
    ServedShape(h0, req, cached, env, variant);
  }

  /** The response's session identifier is the request's own when that is
      non-empty; otherwise it is the one drawn for the request when an answer was
      produced, and one drawn afresh after an exception. An answer names a session
      the history holds. */
  lemma SessionEchoed(h0: History, req: SearchRequest, cached: Option<Json>, env: Env, variant: Variant)
    ensures var run := Served(h0, req, cached, env, variant);
      var r := Respond(run.result, req, env);
      && (req.sessionId.Some? && req.sessionId.value != [] ==> r.sessionId == req.sessionId)
      && (req.sessionId.None? || req.sessionId.value == [] ==>
            r.sessionId == Some(if run.result.Ok? then env.freshSid else env.errorSid))
      && (run.result.Ok? ==> r.sessionId.value in run.history)
  {
    var run := Served(h0, req, cached, env, variant);
    ResponseShape(run.result, req, env, h0, cached, variant);
    var sid := SessionFor(req, env);
    var h := Added(h0, sid, Message("user", Str(req.query)));
    if !IsHit(cached) {
      var plan := PlanOf(h, req.query, sid, env);
      match Dispatched(plan, req.mode, req.query, variant)
      case Raised(_) =>
      case Ok(jobs) =>
        assert run == Insight(Opened(h, sid), req.query, sid, env, jobs, [PlanWrite(req.query, PlanAfter(plan, req.mode))]);
    }
  }

  /** An answer carries the session identifier and a source list. */
  predicate Shaped(result: Outcome<SearchResponse>, sid: string) {
    result.Ok? ==> result.value.sessionId == Some(sid) && result.value.sources.Some?
  }

  lemma ServedShape(h0: History, req: SearchRequest, cached: Option<Json>, env: Env, variant: Variant)
    ensures Shaped(Served(h0, req, cached, env, variant).result, SessionFor(req, env))
  {
    var sid := SessionFor(req, env);
    var h := Added(h0, sid, Message("user", Str(req.query)));
    if IsHit(cached) {
      assert Served(h0, req, cached, env, variant) == Hit(h, sid, cached.value);
    } else {
      assert Served(h0, req, cached, env, variant) == Missed(h, req.query, req.mode, sid, env, variant);
      AnsweredShape(Opened(h, sid), req.query, req.mode, sid, env, variant, PlanOf(h, req.query, sid, env));
    }
  }

  lemma AnsweredShape(h: History, q: string, mode: string, sid: string, env: Env, variant: Variant, plan: Json)
    ensures Shaped(Answered(h, q, mode, sid, env, variant, plan).result, sid)
  {
    match Dispatched(plan, mode, q, variant)
    case Raised(e) =>
    case Ok(jobs) => InsightShape(h, q, sid, env, jobs, [PlanWrite(q, PlanAfter(plan, mode))]);
  }

  lemma InsightShape(h: History, q: string, sid: string, env: Env, jobs: seq<Job>, writes: seq<CacheWrite>)
    ensures Shaped(Insight(h, q, sid, env, jobs, writes).result, sid)
  {
  }

  /** A hit calls no provider and schedules no write; when the cached answer can
      be read, the session gains the question and then that answer. */
  lemma HitIsQuiet(h0: History, req: SearchRequest, cached: Json, env: Env, variant: Variant)
    requires Truthy(cached)
    ensures var run := Served(h0, req, Some(cached), env, variant);
      && run.trace == Trace([], [])
      && (Index(cached, "answer").Ok? ==>
            run.history == AddedAll(h0, SessionFor(req, env),
              [Message("user", Str(req.query)), Message("assistant", Index(cached, "answer").value)]))
      && (Index(cached, "answer").Raised? ==>
            run.history == AddedAll(h0, SessionFor(req, env), [Message("user", Str(req.query))]))
  {
    var sid := SessionFor(req, env);
    var user := Message("user", Str(req.query));
    var h := Added(h0, sid, user);
    assert Served(h0, req, Some(cached), env, variant) == Hit(h, sid, cached);
    assert [user][1..] == [];
    assert AddedAll(h0, sid, [user]) == AddedAll(h, sid, []) == h;
    if Index(cached, "answer").Ok? {
      var reply := Message("assistant", Index(cached, "answer").value);
      assert [user, reply][1..] == [reply];
      assert [reply][1..] == [];
      assert AddedAll(h0, sid, [user, reply]) == AddedAll(h, sid, [reply]) == AddedAll(Added(h, sid, reply), sid, []);
    }
  }

  /** A miss schedules the plan write first, holding the plan as overridden, and
      the response write second exactly when an answer was produced; it calls the
      providers of every task the plan yields, in task order, unless building the
      task list raised. */
  lemma MissTrace(h0: History, req: SearchRequest, cached: Option<Json>, env: Env, variant: Variant)
    requires !IsHit(cached)
    ensures var run := Served(h0, req, cached, env, variant);
      var sid := SessionFor(req, env);
      var h := Added(h0, sid, Message("user", Str(req.query)));
      var plan := PlanOf(h, req.query, sid, env);
      var d := Dispatched(plan, req.mode, req.query, variant);
      && (run.result.Ok? ==> run.result.value.sources.Some? && run.result.value.data.Some?)
      && 1 <= |run.trace.writes| <= 2
      && run.trace.writes[0] == PlanWrite(req.query, PlanAfter(plan, req.mode))
      && (|run.trace.writes| == 2 <==> run.result.Ok?)
      && (run.result.Ok? ==> (run.trace.writes[1] ==
            ResponseWrite(req.query, CachedForm(run.result.value.answer, run.result.value.sources.value, run.result.value.data.value))))
      && (d.Raised? ==> run.trace.calls == [] && run.result == Raised(d.error))
      && (d.Ok? ==> run.trace.calls == TasksOf(d.value))
  {
  }

  /** A fresh answer's data has exactly one entry per task key; a task whose call
      raised leaves `{"error": ...}` under its key, unless a later task reuses
      the key. */
  lemma FreshData(h0: History, req: SearchRequest, cached: Option<Json>, env: Env, variant: Variant, i: nat)
    requires !IsHit(cached)
    requires Served(h0, req, cached, env, variant).result.Ok?
    ensures var sid := SessionFor(req, env);
      var h := Added(h0, sid, Message("user", Str(req.query)));
      var jobs := Dispatched(PlanOf(h, req.query, sid, env), req.mode, req.query, variant).value;
      var data := Served(h0, req, cached, env, variant).result.value.data.value;
      && data == ApiResults(jobs, env.fetch)
      && (forall k :: k in Keys(data) <==> k in KeysOf(jobs))
      && (i < |jobs| && (forall j :: i < j < |jobs| ==> jobs[j].key != jobs[i].key) ==>
            Lookup(data, jobs[i].key) == Some(Slot(env.fetch(jobs[i].task))))
  {
    var sid := SessionFor(req, env);
    var h := Added(h0, sid, Message("user", Str(req.query)));
    var jobs := Dispatched(PlanOf(h, req.query, sid, env), req.mode, req.query, variant).value;
    var keys, results := KeysOf(jobs), Gather(TasksOf(jobs), env.fetch);
    forall k ensures k in Keys(Merged(keys, results)) <==> k in keys {
      MergedKeys(keys, results, k);
    }
    if i < |jobs| && (forall j :: i < j < |jobs| ==> jobs[j].key != jobs[i].key) {
      MergedLookup(keys, results, i);
    }
  }

  /** The dictionary a fresh answer is cached as reads back, through the hit
      branch, as the same answer, sources and data under the new session. */
  lemma CachedFormReadsBack(h: History, sid: string, answer: string, sources: seq<Source>, data: Fields)
    ensures Truthy(CachedForm(answer, sources, data))
    ensures Index(CachedForm(answer, sources, data), "answer") == Ok(Str(answer))
    ensures Hit(h, sid, CachedForm(answer, sources, data)).result ==
      Ok(SearchResponse(answer, Some(sources), Some(data), Some(sid)))
  {
    CachedFormLookups(answer, sources, data);
    HitResponseReadsBack(answer, sources, data, sid);
  }

  lemma CachedFormLookups(answer: string, sources: seq<Source>, data: Fields)
    ensures var fs := CachedForm(answer, sources, data).fields;
      && Lookup(fs, "answer") == Some(Str(answer))
      && Lookup(fs, "sources") == Some(SourcesJson(sources))
      && Lookup(fs, "data") == Some(Obj(data))
  {
    var fs := CachedForm(answer, sources, data).fields;
    var tail := fs[1..][1..];
    assert tail == [("data", Obj(data))];
    assert Lookup(tail, "data") == Some(Obj(data));
    assert Lookup(fs[1..], "data") == Lookup(tail, "data");
  }

  lemma HitResponseReadsBack(answer: string, sources: seq<Source>, data: Fields, sid: string)
    ensures HitResponse(CachedForm(answer, sources, data), Str(answer), sid) ==
      Ok(SearchResponse(answer, Some(sources), Some(data), Some(sid)))
  {
    var c := CachedForm(answer, sources, data);
    CachedFormLookups(answer, sources, data);
    assert Get(c, "sources", Arr([])) == Ok(SourcesJson(sources));
    assert Iterate(SourcesJson(sources)) == Ok(SourcesJson(sources).items);
    SourcesRoundTrip(sources);
    assert Get(c, "data", Null) == Ok(Obj(data));
  }

  /** Once the writes of a fresh answer have run, the same question (up to case
      and spacing) asked before the response expires is answered from the cache
      with the same answer, sources and data, under the asker's session. */
  lemma RepeatedQuestionIsCached(
    h0: History, req: SearchRequest, cached: Option<Json>, env: Env, variant: Variant,
    store: RedisCache.Store, md5: string -> string, t: int,
    h0': History, req': SearchRequest, env': Env, variant': Variant, t': int)
    requires !IsHit(cached) && Served(h0, req, cached, env, variant).result.Ok?
    requires RedisCache.NormalizeQuery(req'.query) == RedisCache.NormalizeQuery(req.query)
    requires t <= t' < t + RedisCache.RESPONSE_TTL
    ensures var r := Served(h0, req, cached, env, variant).result.value;
      var store' := Applied(store, md5, Served(h0, req, cached, env, variant).trace.writes, t);
      var cached' := RedisCache.Fetch(store', RedisCache.CacheKey(RedisCache.RESPONSE_PREFIX, req'.query, md5), t');
      && cached' == Some(CachedForm(r.answer, r.sources.value, r.data.value))
      && Served(h0', req', cached', env', variant').result == Ok(r.(sessionId := Some(SessionFor(req', env'))))
  {
    var run := Served(h0, req, cached, env, variant);
    var r := run.result.value;
    MissTrace(h0, req, cached, env, variant);
    StoredAfterWrites(run, req.query, store, md5, t, req'.query, t');
    ServedFromForm(h0', req', env', variant', r.answer, r.sources.value, r.data.value);
  }

  /** After the writes of a fresh answer, the response key of the same question
      holds the answer's cached form until it expires. */
  lemma StoredAfterWrites(run: Run, q: string, store: RedisCache.Store, md5: string -> string, t: int, q': string, t': int)
    requires run.result.Ok? && run.result.value.sources.Some? && run.result.value.data.Some?
    requires var r := run.result.value;
      |run.trace.writes| == 2 && run.trace.writes[1] == ResponseWrite(q, CachedForm(r.answer, r.sources.value, r.data.value))
    requires RedisCache.NormalizeQuery(q') == RedisCache.NormalizeQuery(q)
    requires t <= t' < t + RedisCache.RESPONSE_TTL
    ensures var r := run.result.value;
      RedisCache.Fetch(Applied(store, md5, run.trace.writes, t), RedisCache.CacheKey(RedisCache.RESPONSE_PREFIX, q', md5), t')
        == Some(CachedForm(r.answer, r.sources.value, r.data.value))
  {
    var r := run.result.value;
    var form := CachedForm(r.answer, r.sources.value, r.data.value);
    var writes := run.trace.writes;
    assert writes == [writes[0], ResponseWrite(q, form)];
    ResponseWriteLast(store, md5, writes[0], q, form, t, q', t');
  }

  /** A response write that comes last is what the same question reads back
      until it expires. */
  lemma ResponseWriteLast(store: RedisCache.Store, md5: string -> string, w0: CacheWrite, q: string, form: Json, t: int, q': string, t': int)
    requires RedisCache.NormalizeQuery(q') == RedisCache.NormalizeQuery(q)
    requires t <= t' < t + RedisCache.RESPONSE_TTL
    ensures RedisCache.Fetch(Applied(store, md5, [w0, ResponseWrite(q, form)], t), RedisCache.CacheKey(RedisCache.RESPONSE_PREFIX, q', md5), t')
      == Some(form)
  {
    AppliedTwo(store, md5, w0, ResponseWrite(q, form), t);
    var key := RedisCache.CacheKey(RedisCache.RESPONSE_PREFIX, q, md5);
    assert RedisCache.CacheKey(RedisCache.RESPONSE_PREFIX, q', md5) == key;
    var store' := Applied(store, md5, [w0, ResponseWrite(q, form)], t);
    assert key in store' && store'[key] == RedisCache.Entry(form, t + RedisCache.RESPONSE_TTL);
  }

  /** A request served from a cached form gets the stored answer, sources and data
      under its own session. */
  lemma ServedFromForm(h0: History, req: SearchRequest, env: Env, variant: Variant, answer: string, sources: seq<Source>, data: Fields)
    ensures Served(h0, req, Some(CachedForm(answer, sources, data)), env, variant).result ==
      Ok(SearchResponse(answer, Some(sources), Some(data), Some(SessionFor(req, env))))
  {
    var sid := SessionFor(req, env);
    var h := Added(h0, sid, Message("user", Str(req.query)));
    CachedFormReadsBack(h, sid, answer, sources, data);
    assert Served(h0, req, Some(CachedForm(answer, sources, data)), env, variant) == Hit(h, sid, CachedForm(answer, sources, data));
  }

  lemma AppliedTwo(store: RedisCache.Store, md5: string -> string, w0: CacheWrite, w1: CacheWrite, t: int)
    ensures Applied(store, md5, [w0, w1], t) == Write(Write(store, md5, w0, t), md5, w1, t)
  {
    assert [w0, w1][1..] == [w1];
    assert [w1][1..] == [];
    var s1 := Write(store, md5, w0, t);
    assert Applied(store, md5, [w0, w1], t) == Applied(s1, md5, [w1], t);
    assert Applied(s1, md5, [w1], t) == Applied(Write(s1, md5, w1, t), md5, [], t);
  }

  /** A request that gives only the question searches with sonar first. */
  lemma DefaultRequestSearchesSonar(query: string, h0: History, env: Env, variant: Variant)
    ensures var req := DefaultRequest(query);
      var sid := SessionFor(req, env);
      var h := Added(h0, sid, Message("user", Str(query)));
      var d := Dispatched(PlanOf(h, query, sid, env), "sonar", query, variant);
      && sid == env.freshSid
      && (d.Ok? ==> |d.value| > 0 && d.value[0] == Job(SONAR_JOB_KEY, Task(PerplexitySonar, query)))
  {
    var req := DefaultRequest(query);
    var sid := SessionFor(req, env);
    var h := Added(h0, sid, Message("user", Str(query)));
    SonarModeFirst(PlanOf(h, query, sid, env), query, variant);
  }

  // ---------------------------------------------------------------------------
  // The streaming route

  /** One line of the NDJSON stream. */
  datatype Event =
    | Status(text: string, session: Option<string>)
    | ResultEvent(answer: Json, sources: Json, sid: string)
    | ErrorEvent(message: string, sid: string)

  /** With streaming disabled the route answers as `POST /search` does. */
  datatype StreamReply = Fallback(response: SearchResponse) | Stream(events: seq<Event>)

  const PROCESSING: string := "Processing your query..."
  const ANALYZING: string := "Analyzing your query..."
  const DEEP_ACTIVATED: string := "Deep Research mode activated. This may take longer..."
  const GATHERING: string := "Gathering financial data..."
  const GENERATING: string := "Analyzing data and generating insights..."

  /** The status line announced just before a task is enqueued. */
  function StatusOf(t: Task): string {
    match t.provider
    case PerplexitySonar => "Searching for latest market information..."
    case PerplexityDeepResearch => "Conducting deep financial research..."
    case PolygonPrice => "Fetching stock price for " + t.arg + "..."
    case DatasetsStatements => "Retrieving financial statements for " + t.arg + "..."
    case PolygonInsider => "Checking insider trades for " + t.arg + "..."
    case DatasetsInsider => "Checking insider trades for " + t.arg + "..."
    case DatasetsFilings => "Retrieving SEC filings for " + t.arg + "..."
    case PolygonNews => "Fetching latest news for " + t.arg + "..."
  }

  function Statuses(tasks: seq<Task>): (r: seq<Event>)
    ensures |r| == |tasks| && forall i :: 0 <= i < |r| ==> r[i] == Status(StatusOf(tasks[i]), None)
  {
    Project(tasks, (t: Task) => Status(StatusOf(t), None))
  }

  /** The error line of the `except` branch. */
  function Failure(e: Exn, req: SearchRequest, env: Env): Event {
    ErrorEvent(ERROR_PREFIX + e.message, SessionId(req.sessionId, env.errorSid))
  }

  /** A stream is status lines and then exactly one result or error line. */
  predicate Closed(events: seq<Event>) {
    && |events| >= 1
    && (forall i :: 0 <= i < |events| - 1 ==> events[i].Status?)
    && !events[|events| - 1].Status?
  }

  /** The stream of a cache hit after its first status line. */
  function HitEvents(cached: Json, req: SearchRequest, env: Env): seq<Event> {
    match Index(cached, "answer")
    case Raised(e) => [Failure(e, req, env)]
    case Ok(answer) =>
      match Get(cached, "sources", Arr([]))
      case Raised(e) => [Failure(e, req, env)]
      case Ok(sources) => [ResultEvent(answer, sources, SessionFor(req, env))]
  }

  /** The status lines before the fan-out. */
  function Announced(mode: string): seq<Event> {
    [Status(ANALYZING, None)]
      + (if mode == "deep_research" then [Status(DEEP_ACTIVATED, None)] else [])
      + [Status(GATHERING, None)]
  }

  /** The stream of a fresh answer after its announcements: one status per task in
      task order, then the result with the sources as dictionaries. */
  function FreshTail(calls: seq<Task>, answer: string, sources: seq<Source>, sid: string): seq<Event> {
    (Statuses(calls) + [Status(GENERATING, None)]) + [ResultEvent(Str(answer), SourcesJson(sources), sid)]
  }

  /** `POST /search/stream`. `enableStreaming` is the `ENABLE_STREAMING` setting. */
  method StreamSearch(req: SearchRequest, openai: OpenAIService, redis: RedisCache.RedisService, env: Env, enableStreaming: bool)
    returns (reply: StreamReply, trace: Trace)
    modifies openai
    ensures var cached := CachedFor(redis.enabled, redis.md5, redis.client.entries, req.query, env);
      var run := Served(old(openai.history), req, cached, env, if enableStreaming then Streaming else Plain);
      && trace == run.trace && openai.history == run.history
      && (!enableStreaming ==> reply == Fallback(Respond(run.result, req, env)))
      && (enableStreaming ==> reply.Stream? && StreamOf(reply.events, req, cached, env, old(openai.history), run))
  {
    if !enableStreaming {
      var response;
      response, trace := Search(req, openai, redis, env);
      reply := Fallback(response);
    } else {
      var events;
      events, trace := StreamEvents(req, openai, redis, env);
      reply := Stream(events);
    }
  }

  /** The stream of a request: it opens with the processing line that carries the
      session; a hit then sends the cached answer and its stored sources, a fresh
      answer sends the announcements, one status per provider call and the result,
      and an exception ends the stream with the error line. */
  ghost predicate StreamOf(events: seq<Event>, req: SearchRequest, cached: Option<Json>, env: Env, h0: History, run: Run) {
    var sid := SessionFor(req, env);
    var opening := [Status(PROCESSING, Some(sid))];
    var h := Added(h0, sid, Message("user", Str(req.query)));
    && Closed(events) && events[0] == opening[0]
    && (IsHit(cached) ==> events == opening + HitEvents(cached.value, req, env))
    && (!IsHit(cached) && run.result.Ok? ==>
          && run.result.value.sources.Some?
          && events == opening + (Announced(req.mode)
               + FreshTail(run.trace.calls, run.result.value.answer, run.result.value.sources.value, sid)))
    && (!IsHit(cached) && run.result.Raised? ==> events[|events| - 1] == Failure(run.result.error, req, env))
    && (!IsHit(cached) ==> FailedMiss(events[1..], req, env, sid, Opened(h, sid), PlanOf(h, req.query, sid, env)))
  }

  /** The stream of a miss that raises, from the planner's plan on: a failed
      override closes it right after the first announcement; otherwise the
      announcements come first, then one status per task enqueued before the
      exception, the generating status when the insight step was reached, and
      the error line. */
  ghost predicate FailedMiss(events: seq<Event>, req: SearchRequest, env: Env, sid: string, h: History, plan: Json) {
    var mode, q := req.mode, req.query;
    match Override(plan, mode)
    case Raised(e) => events == [Status(ANALYZING, None), Failure(e, req, env)]
    case Ok(current) =>
      var run := Planned(h, q, mode, sid, env, Streaming, current);
      run.result.Raised? ==> events == Announced(mode) + FailedTail(TasksOf(JobsEnqueued(current, mode, q, Streaming)),
        Jobs(current, mode, q, Streaming).Ok?, run.result.error, req, env)
  }

  /** The event stream of `stream_generator`. */
  method StreamEvents(req: SearchRequest, openai: OpenAIService, redis: RedisCache.RedisService, env: Env)
    returns (events: seq<Event>, trace: Trace)
    modifies openai
    ensures var cached := CachedFor(redis.enabled, redis.md5, redis.client.entries, req.query, env);
      var run := Served(old(openai.history), req, cached, env, Streaming);
      trace == run.trace && openai.history == run.history && StreamOf(events, req, cached, env, old(openai.history), run)
  {
    ghost var h0 := openai.history;
    var sid := SessionId(req.sessionId, env.freshSid);
    openai.AddToConversation(sid, "user", Str(req.query));
    ghost var h := openai.history;
    var first := [Status(PROCESSING, Some(sid))];
    var cached := redis.GetQueryResponse(req.query, env.now, env.cacheDown);
    ghost var run := Served(h0, req, cached, env, Streaming);
    var rest;
    if cached.Some? && Truthy(cached.value) {
      assert run == Hit(h, sid, cached.value);
      rest := StreamFromCache(openai, req, env, sid, cached.value);
      trace := Trace([], []);
      HitStream(rest, req, cached, env, h0, run);
    } else {
      assert run == Missed(h, req.query, req.mode, sid, env, Streaming);
      rest, trace := StreamFresh(openai, req, env, sid);
      FreshStream(rest, trace, openai.history, req, cached, env, h0, run);
    }
    events := first + rest;
  }

  /** The stream of a hit: the processing line, then the cached answer. */
  lemma HitStream(rest: seq<Event>, req: SearchRequest, cached: Option<Json>, env: Env, h0: History, run: Run)
    requires IsHit(cached) && rest == HitEvents(cached.value, req, env) && Closed(rest)
    ensures StreamOf([Status(PROCESSING, Some(SessionFor(req, env)))] + rest, req, cached, env, h0, run)
  {
    StatusesThenClosed([Status(PROCESSING, Some(SessionFor(req, env)))], rest);
  }

  /** The stream of a miss: the processing line, then the fresh answer's lines. */
  lemma FreshStream(rest: seq<Event>, trace: Trace, history: History, req: SearchRequest, cached: Option<Json>, env: Env, h0: History, run: Run)
    requires !IsHit(cached) && MissStream(rest, trace, history, run, req, env, SessionFor(req, env))
    requires var sid := SessionFor(req, env);
      var h := Added(h0, sid, Message("user", Str(req.query)));
      FailedMiss(rest, req, env, sid, Opened(h, sid), PlanOf(h, req.query, sid, env))
    ensures StreamOf([Status(PROCESSING, Some(SessionFor(req, env)))] + rest, req, cached, env, h0, run)
  {
    var events := [Status(PROCESSING, Some(SessionFor(req, env)))] + rest;
    assert events[1..] == rest;
    StatusesThenClosed([Status(PROCESSING, Some(SessionFor(req, env)))], rest);
  }

  /** Status lines followed by a closed stream make a closed stream with the same
      last line. */
  lemma StatusesThenClosed(statuses: seq<Event>, rest: seq<Event>)
    requires forall e :: e in statuses ==> e.Status?
    requires Closed(rest)
    ensures Closed(statuses + rest) && (statuses + rest)[|statuses + rest| - 1] == rest[|rest| - 1]
  {
    var e := statuses + rest;
    forall i | 0 <= i < |e| - 1 ensures e[i].Status? {
      if i >= |statuses| {
        assert e[i] == rest[i - |statuses|];
      } else {
        assert e[i] in statuses;
      }
    }
  }

  /** The cache-hit branch of the stream. */
  method StreamFromCache(openai: OpenAIService, req: SearchRequest, env: Env, sid: string, cached: Json)
    returns (events: seq<Event>)
    requires sid == SessionFor(req, env)
    modifies openai
    ensures events == HitEvents(cached, req, env) && Closed(events)
    ensures openai.history == Hit(old(openai.history), sid, cached).history
  {
    var answer := Index(cached, "answer");
    if answer.Raised? {
      return [Failure(answer.error, req, env)];
    }
    openai.AddToConversation(sid, "assistant", answer.value);
    var sources := Get(cached, "sources", Arr([]));
    if sources.Raised? {
      return [Failure(sources.error, req, env)];
    }
    events := [ResultEvent(answer.value, sources.value, sid)];
  }

  /** The cache-miss branch of the stream: the planner call, then the rest. */
  method StreamFresh(openai: OpenAIService, req: SearchRequest, env: Env, sid: string)
    returns (events: seq<Event>, trace: Trace)
    modifies openai
    ensures MissStream(events, trace, openai.history, Missed(old(openai.history), req.query, req.mode, sid, env, Streaming), req, env, sid)
    ensures FailedMiss(events, req, env, sid, Opened(old(openai.history), sid), PlanOf(old(openai.history), req.query, sid, env))
  {
    var plan := openai.AnalyzeQuery(req.query, sid, env.llm, env.parse);
    events, trace := StreamPlanned(openai, req, env, sid, plan);
  }

  /** The stream once the plan is known: the announcements, the override, then
      the fan-out. */
  method StreamPlanned(openai: OpenAIService, req: SearchRequest, env: Env, sid: string, plan: Json)
    returns (events: seq<Event>, trace: Trace)
    requires sid in openai.history
    modifies openai
    ensures MissStream(events, trace, openai.history, Answered(old(openai.history), req.query, req.mode, sid, env, Streaming, plan), req, env, sid)
    ensures FailedMiss(events, req, env, sid, old(openai.history), plan)
  {
    ghost var h := openai.history;
    var q, mode := req.query, req.mode;
    var current := plan;
    if mode == "deep_research" {
      var overridden := SetItem(plan, "call_perplexity_deep_research", Bool(true));
      if overridden.Raised? {
        AnsweredOverrideRaised(h, q, mode, sid, env, Streaming, plan);
        var failure := Failure(overridden.error, req, env);
        events, trace := [Status(ANALYZING, None), failure], Trace([], [PlanWrite(q, plan)]);
        OverrideFailedStream(failure, Answered(h, q, mode, sid, env, Streaming, plan), req, env, sid);
        return;
      }
      current := overridden.value;
    }
    AnsweredAfterOverride(h, q, mode, sid, env, Streaming, plan, current);
    ghost var run := Planned(h, q, mode, sid, env, Streaming, current);
    var tail;
    tail, trace := StreamAnswer(openai, req, env, sid, current);
    AnnouncedStream(tail, trace, openai.history, run, req, env, sid);
    events := Announced(mode) + tail;
  }

  /** The announcements followed by the fan-out's lines. */
  lemma AnnouncedStream(tail: seq<Event>, trace: Trace, history: History, run: Run, req: SearchRequest, env: Env, sid: string)
    requires InsightStream(tail, trace, history, run, req, env, sid)
    ensures MissStream(Announced(req.mode) + tail, trace, history, run, req, env, sid)
  {
    StatusesThenClosed(Announced(req.mode), tail);
  }

  /** A miss whose override raised ends with that exception, after the plan write. */
  lemma AnsweredOverrideRaised(h: History, q: string, mode: string, sid: string, env: Env, variant: Variant, plan: Json)
    requires Override(plan, mode).Raised?
    ensures Answered(h, q, mode, sid, env, variant, plan) ==
      Run(Raised(Override(plan, mode).error), Trace([], [PlanWrite(q, plan)]), Opened(h, sid))
  {
  }

  /** A miss whose override succeeded goes on with the task list of the overridden
      plan. */
  lemma AnsweredAfterOverride(h: History, q: string, mode: string, sid: string, env: Env, variant: Variant, plan: Json, current: Json)
    requires Override(plan, mode) == Ok(current)
    ensures Answered(h, q, mode, sid, env, variant, plan) == Planned(h, q, mode, sid, env, variant, current)
  {
  }

  /** The events, trace and history of a miss agree with `run`: the
      announcements, the status lines and the result, or a closing error line. */
  ghost predicate MissStream(events: seq<Event>, trace: Trace, history: History, run: Run, req: SearchRequest, env: Env, sid: string) {
    && Closed(events) && trace == run.trace && history == run.history
    && (run.result.Ok? ==>
          && run.result.value.sources.Some?
          && events == Announced(req.mode) + FreshTail(run.trace.calls, run.result.value.answer, run.result.value.sources.value, sid))
    && (run.result.Raised? ==> events[|events| - 1] == Failure(run.result.error, req, env))
  }

  /** A failed override closes the stream right after the first announcement. */
  lemma OverrideFailedStream(failure: Event, run: Run, req: SearchRequest, env: Env, sid: string)
    requires run.result.Raised? && failure == Failure(run.result.error, req, env)
    ensures MissStream([Status(ANALYZING, None), failure], run.trace, run.history, run, req, env, sid)
  {
    ClosedBy([Status(ANALYZING, None)], failure);
  }

  /** The events, trace and history of a stream that reaches the insight step
      agree with `run`: the status lines and the result, or a closing error line. */
  ghost predicate InsightStream(events: seq<Event>, trace: Trace, history: History, run: Run, req: SearchRequest, env: Env, sid: string) {
    && Closed(events) && trace == run.trace && history == run.history
    && (run.result.Ok? ==>
          && run.result.value.sources.Some?
          && events == FreshTail(run.trace.calls, run.result.value.answer, run.result.value.sources.value, sid))
    && (run.result.Raised? ==> events[|events| - 1] == Failure(run.result.error, req, env))
  }

  /** The lines of a stream that fails once the plan is known: one status per task
      enqueued before the exception, the generating status when the insight step
      was reached, and the error line. */
  function FailedTail(enqueued: seq<Task>, reachedInsight: bool, e: Exn, req: SearchRequest, env: Env): seq<Event> {
    Statuses(enqueued) + (if reachedInsight then [Status(GENERATING, None)] else []) + [Failure(e, req, env)]
  }

  /** The fan-out of the stream, once the plan is known and overridden: the status
      lines that precede an exception are those of the tasks enqueued before it. */
  method StreamAnswer(openai: OpenAIService, req: SearchRequest, env: Env, sid: string, current: Json)
    returns (events: seq<Event>, trace: Trace)
    requires sid in openai.history
    modifies openai
    ensures InsightStream(events, trace, openai.history, Planned(old(openai.history), req.query, req.mode, sid, env, Streaming, current), req, env, sid)
    ensures var run := Planned(old(openai.history), req.query, req.mode, sid, env, Streaming, current);
      run.result.Raised? ==> events == FailedTail(TasksOf(JobsEnqueued(current, req.mode, req.query, Streaming)),
        Jobs(current, req.mode, req.query, Streaming).Ok?, run.result.error, req, env)
  {
    ghost var h := openai.history;
    var q, mode := req.query, req.mode;
    var batch, enqueued := DispatchTasks(current, mode, q, Streaming);
    var announced := Statuses(enqueued.tasks);
    var writes := [PlanWrite(q, current)];
    if batch.Raised? {
      var failure := Failure(batch.error, req, env);
      ClosedBy(announced, failure);
      assert Opened(h, sid) == h;
      return announced + [failure], Trace([], writes);
    }
    EnqueuedAll(current, mode, q, Streaming);
    events, trace := StreamInsight(openai, req, env, sid, batch.value, writes, Jobs(current, mode, q, Streaming).value);
  }

  /** The gathering, the insight call and the sources of the stream. */
  method StreamInsight(openai: OpenAIService, req: SearchRequest, env: Env, sid: string, batch: Batch, writes: seq<CacheWrite>, ghost jobs: seq<Job>)
    returns (events: seq<Event>, trace: Trace)
    requires Aligned(jobs, batch)
    requires sid in openai.history
    modifies openai
    ensures InsightStream(events, trace, openai.history, Insight(old(openai.history), req.query, sid, env, jobs, writes), req, env, sid)
    ensures var run := Insight(old(openai.history), req.query, sid, env, jobs, writes);
      run.result.Raised? ==> events == FailedTail(batch.tasks, true, run.result.error, req, env)
  {
    var q := req.query;
    var tasks := batch.tasks;
    var apiResults := Gathered(batch, env.fetch, jobs);
    var waiting := Statuses(tasks) + [Status(GENERATING, None)];
    assert forall e :: e in waiting ==> e.Status?;
    var insight := openai.GenerateFinancialInsight(q, apiResults, sid, env.llm);
    if insight.Raised? {
      var failure := Failure(insight.error, req, env);
      ClosedBy(waiting, failure);
      return waiting + [failure], Trace(tasks, writes);
    }
    var sources := CollectSources(apiResults);
    if sources.Raised? {
      var failure := Failure(sources.error, req, env);
      ClosedBy(waiting, failure);
      return waiting + [failure], Trace(tasks, writes);
    }
    var result := ResultEvent(Str(insight.value), SourcesJson(sources.value), sid);
    ClosedBy(waiting, result);
    events := waiting + [result];
    trace := Trace(tasks, writes + [ResponseWrite(q, CachedForm(insight.value, sources.value, apiResults))]);
  }

  /** Status lines closed by a result or error line make a closed stream. */
  lemma ClosedBy(statuses: seq<Event>, last: Event)
    requires forall e :: e in statuses ==> e.Status?
    requires !last.Status?
    ensures Closed(statuses + [last])
  {
    var events := statuses + [last];
    forall i | 0 <= i < |events| - 1 ensures events[i].Status? {
      assert events[i] == statuses[i];
    }
  }
}
