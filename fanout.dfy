/** The fan-out step of the search routes: from the planner's dictionary, the
    request mode and the plan's tickers, the list of provider calls to make
    (`tasks`) with the result key of each (`task_keys`), and the fold of the
    calls' outcomes into `api_results`. */
module FanOut {
  import opened PyText
  import opened PyJson
  import opened Collect

  /** The provider operation a task calls. */
  datatype Provider =
    | PerplexitySonar | PerplexityDeepResearch
    | PolygonPrice | PolygonInsider | PolygonNews
    | DatasetsStatements | DatasetsInsider | DatasetsFilings

  /** A provider call on the query or on an upper-cased ticker. */
  datatype Task = Task(provider: Provider, arg: string)

  /** A task with the key its result is stored under. */
  datatype Job = Job(key: string, task: Task)

  /** The plain route and the streaming route differ in their insider-trades provider. */
  datatype Variant = Plain | Streaming

  function InsiderProvider(variant: Variant): Provider {
    if variant == Plain then PolygonInsider else DatasetsInsider
  }

  /** `api_plan.get(k, False)`, read as a condition. */
  function Flag(plan: Json, k: string): Outcome<bool> {
    var v :- Get(plan, k, Bool(false));
    Ok(Truthy(v))
  }

  /** The deep-research mode sets the plan's flag in place. */
  function Override(plan: Json, mode: string): Outcome<Json> {
    if mode == "deep_research" then SetItem(plan, "call_perplexity_deep_research", Bool(true)) else Ok(plan)
  }

  /** The plan as it stands after the override was attempted. */
  function PlanAfter(plan: Json, mode: string): Json {
    match Override(plan, mode)
    case Ok(p) => p
    case Raised(_) => plan
  }

  const SONAR_JOB_KEY := "perplexity_sonar"
  const DEEP_JOB_KEY := "perplexity_deep_research"

  /** The Perplexity tasks: sonar when the mode is `sonar` or the plan asks for
      it, then deep research likewise. */
  function PerplexityJobs(plan: Json, mode: string, query: string): Outcome<seq<Job>> {
    var sonar :- if mode == "sonar" then Ok(true) else Flag(plan, "call_perplexity_sonar");
    var deep :- if mode == "deep_research" then Ok(true) else Flag(plan, "call_perplexity_deep_research");
    Ok((if sonar then [Job(SONAR_JOB_KEY, Task(PerplexitySonar, query))] else [])
      + (if deep then [Job(DEEP_JOB_KEY, Task(PerplexityDeepResearch, query))] else []))
  }

  function Maybe(on: bool, key: string, task: Task): seq<Job> {
    if on then [Job(key, task)] else []
  }

  /** The plan's five per-ticker flags. */
  datatype TickerFlags = TickerFlags(price: bool, financials: bool, insider: bool, filings: bool, news: bool)

  /** The flags as the loop reads them, with `api_plan.get(k, False)`. */
  function ReadFlags(plan: Json): Outcome<TickerFlags> {
    var price :- Flag(plan, "need_stock_price");
    var financials :- Flag(plan, "need_financials");
    var insider :- Flag(plan, "need_insider_trades");
    var filings :- Flag(plan, "need_sec_filings");
    var news :- Flag(plan, "call_perplexity_sonar");
    Ok(TickerFlags(price, financials, insider, filings, news))
  }

  /** The tasks for the upper-cased ticker `t`. */
  function TickerJobsFor(t: string, f: TickerFlags, variant: Variant): seq<Job> {
    Maybe(f.price, t + "_price", Task(PolygonPrice, t))
      + Maybe(f.financials, t + "_financials", Task(DatasetsStatements, t))
      + Maybe(f.insider, t + "_insider_trades", Task(InsiderProvider(variant), t))
      + Maybe(f.filings, t + "_sec_filings", Task(DatasetsFilings, t))
      + Maybe(f.news, t + "_news", Task(PolygonNews, t))
  }

  /** The tasks for one ticker of the plan: `ticker.upper()`, then the flags. */
  function TickerJobs(plan: Json, variant: Variant, ticker: Json): Outcome<seq<Job>> {
    if !ticker.Str? then Raised(Exn("'" + TypeName(ticker) + "' object has no attribute 'upper'"))
    else
      var f :- ReadFlags(plan);
      Ok(TickerJobsFor(ToUpper(ticker.s), f, variant))
  }

  function TickerStep(plan: Json, variant: Variant): Json -> Outcome<seq<Job>> {
    (t: Json) => TickerJobs(plan, variant, t)
  }

  /** The tickers the loop visits: `api_plan.get("tickers", [])`. */
  function Tickers(plan: Json): Outcome<seq<Json>> {
    var v :- Get(plan, "tickers", Arr([]));
    Iterate(v)
  }

  /** All tasks for an (already overridden) plan, in the order they are enqueued. */
  function Jobs(plan: Json, mode: string, query: string, variant: Variant): Outcome<seq<Job>> {
    var head :- PerplexityJobs(plan, mode, query);
    var tickers :- Tickers(plan);
    var rest :- ConcatMap(tickers, TickerStep(plan, variant));
    Ok(head + rest)
  }

  /** The tasks the route has appended when task building stops: all of them, or,
      when a flag read or `ticker.upper()` raises, those appended before it. */
  function JobsEnqueued(plan: Json, mode: string, query: string, variant: Variant): seq<Job> {
    match PerplexityJobs(plan, mode, query)
    case Raised(_) => SonarJobs(plan, mode, query)
    case Ok(head) =>
      match Tickers(plan)
      case Raised(_) => head
      case Ok(tickers) => head + ConcatMapDone(tickers, TickerStep(plan, variant))
  }

  /** The sonar task, once its condition has been read. */
  function SonarJobs(plan: Json, mode: string, query: string): seq<Job> {
    match (if mode == "sonar" then Ok(true) else Flag(plan, "call_perplexity_sonar"))
    case Ok(sonar) => Maybe(sonar, SONAR_JOB_KEY, Task(PerplexitySonar, query))
    case Raised(_) => []
  }

  /** Task building that does not raise has enqueued the whole task list. */
  lemma EnqueuedAll(plan: Json, mode: string, query: string, variant: Variant)
    requires Jobs(plan, mode, query, variant).Ok?
    ensures JobsEnqueued(plan, mode, query, variant) == Jobs(plan, mode, query, variant).value
  {
    ConcatMapDoneOk(Tickers(plan).value, TickerStep(plan, variant));
  }

  /** A ticker that is not a string stops task building: the Perplexity tasks and
      the tasks of the tickers before it stay enqueued, and the exception is the
      failed `upper()`. */
  lemma EnqueuedBeforeTicker(plan: Json, mode: string, query: string, variant: Variant, tickers: seq<Json>, i: nat, done: seq<Job>)
    requires PerplexityJobs(plan, mode, query).Ok? && Tickers(plan) == Ok(tickers)
    requires i < |tickers| && !tickers[i].Str?
    requires ConcatMap(tickers[..i], TickerStep(plan, variant)) == Ok(done)
    ensures JobsEnqueued(plan, mode, query, variant) == PerplexityJobs(plan, mode, query).value + done
    ensures Jobs(plan, mode, query, variant) == Raised(Exn("'" + TypeName(tickers[i]) + "' object has no attribute 'upper'"))
  {
    var step := TickerStep(plan, variant);
    assert step(tickers[i]).Raised?;
    ConcatMapDoneAt(tickers, i, step, done);
    ConcatMapStop(tickers, i, step);
  }

  /** The override followed by the task list. */
  function Dispatched(plan: Json, mode: string, query: string, variant: Variant): Outcome<seq<Job>> {
    var p :- Override(plan, mode);
    Jobs(p, mode, query, variant)
  }

  /** The two parallel lists the route builds. */
  datatype Batch = Batch(tasks: seq<Task>, keys: seq<string>)

  /** `tasks` and `task_keys` hold the jobs' tasks and keys, position by position. */
  predicate Aligned(jobs: seq<Job>, b: Batch) {
    b.tasks == TasksOf(jobs) && b.keys == KeysOf(jobs)
  }

  function KeysOf(jobs: seq<Job>): seq<string> {
    Project(jobs, (j: Job) => j.key)
  }

  function TasksOf(jobs: seq<Job>): seq<Task> {
    Project(jobs, (j: Job) => j.task)
  }

  lemma AlignedAppend(jobs: seq<Job>, more: seq<Job>, b: Batch)
    requires Aligned(jobs, b)
    ensures Aligned(jobs + more, Batch(b.tasks + TasksOf(more), b.keys + KeysOf(more)))
  {
    ProjectAppend(jobs, more, (j: Job) => j.task);
    ProjectAppend(jobs, more, (j: Job) => j.key);
  }

  lemma AppendAssoc(a: seq<Job>, b: seq<Job>, c: seq<Job>)
    ensures a + b + c == a + (b + c)
  {
  }

  /** One conditional append: `more` holds the job appended, if any. */
  lemma Pushed(tasks: seq<Task>, keys: seq<string>, js: seq<Job>, more: seq<Job>, tasks': seq<Task>, keys': seq<string>)
    requires |more| <= 1
    requires |more| == 0 ==> tasks' == tasks + TasksOf(js) && keys' == keys + KeysOf(js)
    requires |more| == 1 ==> tasks' == tasks + TasksOf(js) + [more[0].task] && keys' == keys + KeysOf(js) + [more[0].key]
    ensures tasks' == tasks + TasksOf(js + more) && keys' == keys + KeysOf(js + more)
  {
    ProjectAppend(js, more, (j: Job) => j.task);
    ProjectAppend(js, more, (j: Job) => j.key);
  }

  /** The body of the ticker loop: the five conditional appends to both lists. */
  method AppendTickerTasks(tasks: seq<Task>, keys: seq<string>, t: string, f: TickerFlags, variant: Variant)
    returns (tasks': seq<Task>, keys': seq<string>)
    ensures tasks' == tasks + TasksOf(TickerJobsFor(t, f, variant))
    ensures keys' == keys + KeysOf(TickerJobsFor(t, f, variant))
  {
    var a := Maybe(f.price, t + "_price", Task(PolygonPrice, t));
    var b := Maybe(f.financials, t + "_financials", Task(DatasetsStatements, t));
    var c := Maybe(f.insider, t + "_insider_trades", Task(InsiderProvider(variant), t));
    var d := Maybe(f.filings, t + "_sec_filings", Task(DatasetsFilings, t));
    var e := Maybe(f.news, t + "_news", Task(PolygonNews, t));
    tasks', keys' := tasks, keys;
    if f.price {
      tasks', keys' := tasks' + [Task(PolygonPrice, t)], keys' + [t + "_price"];
    }
    Pushed(tasks, keys, [], a, tasks', keys');
    if f.financials {
      tasks', keys' := tasks' + [Task(DatasetsStatements, t)], keys' + [t + "_financials"];
    }
    Pushed(tasks, keys, a, b, tasks', keys');
    if f.insider {
      tasks', keys' := tasks' + [Task(InsiderProvider(variant), t)], keys' + [t + "_insider_trades"];
    }
    Pushed(tasks, keys, a + b, c, tasks', keys');
    if f.filings {
      tasks', keys' := tasks' + [Task(DatasetsFilings, t)], keys' + [t + "_sec_filings"];
    }
    Pushed(tasks, keys, a + b + c, d, tasks', keys');
    if f.news {
      tasks', keys' := tasks' + [Task(PolygonNews, t)], keys' + [t + "_news"];
    }
    Pushed(tasks, keys, a + b + c + d, e, tasks', keys');
  }

  /** The two Perplexity appends. `enqueued` is what the lists hold when the
      method returns, including when a flag read raises midway. */
  method PerplexityTasks(plan: Json, mode: string, query: string) returns (r: Outcome<Batch>, enqueued: Batch)
    ensures r.Raised? <==> PerplexityJobs(plan, mode, query).Raised?
    ensures r.Raised? ==> r.error == PerplexityJobs(plan, mode, query).error
    ensures r.Ok? ==> Aligned(PerplexityJobs(plan, mode, query).value, r.value) && enqueued == r.value
    ensures r.Raised? ==> Aligned(SonarJobs(plan, mode, query), enqueued)
  {
    var tasks: seq<Task> := [];
    var keys: seq<string> := [];
    enqueued := Batch(tasks, keys);
    var sonar :- if mode == "sonar" then Ok(true) else Flag(plan, "call_perplexity_sonar");
    var a := Maybe(sonar, SONAR_JOB_KEY, Task(PerplexitySonar, query));
    if sonar {
      tasks, keys := tasks + [Task(PerplexitySonar, query)], keys + [SONAR_JOB_KEY];
    }
    Pushed([], [], [], a, tasks, keys);
    enqueued := Batch(tasks, keys);
    var deep :- if mode == "deep_research" then Ok(true) else Flag(plan, "call_perplexity_deep_research");
    var b := Maybe(deep, DEEP_JOB_KEY, Task(PerplexityDeepResearch, query));
    if deep {
      tasks, keys := tasks + [Task(PerplexityDeepResearch, query)], keys + [DEEP_JOB_KEY];
    }
    Pushed([], [], a, b, tasks, keys);
    assert a + b == PerplexityJobs(plan, mode, query).value;
    enqueued := Batch(tasks, keys);
    r := Ok(enqueued);
  }

  /** One pass of the ticker loop: `ticker.upper()`, the flags, the five appends. */
  method AppendTicker(plan: Json, variant: Variant, ticker: Json, b: Batch, ghost jobs: seq<Job>) returns (r: Outcome<Batch>)
    requires Aligned(jobs, b)
    ensures r.Raised? <==> TickerJobs(plan, variant, ticker).Raised?
    ensures r.Raised? ==> r.error == TickerJobs(plan, variant, ticker).error
    ensures r.Ok? ==> Aligned(jobs + TickerJobs(plan, variant, ticker).value, r.value)
  {
    if !ticker.Str? {
      return Raised(Exn("'" + TypeName(ticker) + "' object has no attribute 'upper'"));
    }
    var t := ToUpper(ticker.s);
    var f :- ReadFlags(plan);
    AlignedAppend(jobs, TickerJobsFor(t, f, variant), b);
    var tasks, keys := AppendTickerTasks(b.tasks, b.keys, t, f, variant);
    r := Ok(Batch(tasks, keys));
  }

  /** Pass `i` of the ticker loop, with what it means for the loop's outcome. */
  method TickerPass(plan: Json, variant: Variant, tickers: seq<Json>, i: nat, b: Batch, ghost headJobs: seq<Job>, ghost done: seq<Job>)
    returns (next: Outcome<Batch>, ghost done': seq<Job>)
    requires i < |tickers| && ConcatMap(tickers[..i], TickerStep(plan, variant)) == Ok(done)
    requires Aligned(headJobs + done, b)
    ensures next.Raised? ==> ConcatMap(tickers, TickerStep(plan, variant)) == Raised(next.error)
    ensures next.Raised? ==> ConcatMapDone(tickers, TickerStep(plan, variant)) == done
    ensures next.Ok? ==> ConcatMap(tickers[..i + 1], TickerStep(plan, variant)) == Ok(done')
    ensures next.Ok? ==> Aligned(headJobs + done', next.value)
  {
    ghost var step := TickerStep(plan, variant);
    next := AppendTicker(plan, variant, tickers[i], b, headJobs + done);
    ghost var jobs := TickerJobs(plan, variant, tickers[i]);
    assert step(tickers[i]) == jobs;
    if next.Raised? {
      ConcatMapStop(tickers, i, step);
      ConcatMapDoneAt(tickers, i, step, done);
      return next, done;
    }
    ConcatMapExtend(tickers, i, step, done);
    done' := done + jobs.value;
    AppendAssoc(headJobs, done, jobs.value);
  }

  /** The loop over the tickers, appending each ticker's tasks to both lists. */
  method AppendAllTickers(plan: Json, variant: Variant, tickers: seq<Json>, head: Batch, ghost headJobs: seq<Job>)
    returns (r: Outcome<Batch>, enqueued: Batch)
    requires Aligned(headJobs, head)
    ensures var all := ConcatMap(tickers, TickerStep(plan, variant));
      && (r.Raised? <==> all.Raised?)
      && (r.Raised? ==> r.error == all.error)
      && (r.Ok? ==> Aligned(headJobs + all.value, r.value) && enqueued == r.value)
    ensures Aligned(headJobs + ConcatMapDone(tickers, TickerStep(plan, variant)), enqueued)
  {
    enqueued := head;
    ghost var done: seq<Job> := [];
    assert headJobs + done == headJobs;
    var i := 0;
    while i < |tickers|
      invariant 0 <= i <= |tickers|
      invariant ConcatMap(tickers[..i], TickerStep(plan, variant)) == Ok(done)
      invariant Aligned(headJobs + done, enqueued)
    {
      var next;
      next, done := TickerPass(plan, variant, tickers, i, enqueued, headJobs, done);
      if next.Raised? {
        return next, enqueued;
      }
      enqueued := next.value;
      i := i + 1;
    }
    assert tickers[..i] == tickers;
    ConcatMapDoneOk(tickers, TickerStep(plan, variant));
    r := Ok(enqueued);
  }

  /** The appends on an already overridden plan: the Perplexity tasks, then the
      ticker loop. `enqueued` holds what was appended before any exception. */
  method DispatchTasks(plan: Json, mode: string, query: string, variant: Variant) returns (r: Outcome<Batch>, enqueued: Batch)
    ensures r.Raised? <==> Jobs(plan, mode, query, variant).Raised?
    ensures r.Raised? ==> r.error == Jobs(plan, mode, query, variant).error
    ensures r.Ok? ==> Aligned(Jobs(plan, mode, query, variant).value, r.value) && enqueued == r.value
    ensures Aligned(JobsEnqueued(plan, mode, query, variant), enqueued)
  {
    var head;
    head, enqueued := PerplexityTasks(plan, mode, query);
    if head.Raised? {
      return Raised(head.error), enqueued;
    }
    var tickers :- Tickers(plan);
    r, enqueued := AppendAllTickers(plan, variant, tickers, head.value, PerplexityJobs(plan, mode, query).value);
  }

  /** The route's task building: the override, then the appends. */
  method BuildTasks(apiPlan: Json, mode: string, query: string, variant: Variant) returns (r: Outcome<Batch>, plan: Json)
    ensures plan == PlanAfter(apiPlan, mode)
    ensures r.Raised? <==> Dispatched(apiPlan, mode, query, variant).Raised?
    ensures r.Raised? ==> r.error == Dispatched(apiPlan, mode, query, variant).error
    ensures r.Ok? ==> Aligned(Dispatched(apiPlan, mode, query, variant).value, r.value)
  {
    plan := apiPlan;
    if mode == "deep_research" {
      plan :- SetItem(apiPlan, "call_perplexity_deep_research", Bool(true));
    }
    assert Override(apiPlan, mode) == Ok(plan);
    var enqueued;
    r, enqueued := DispatchTasks(plan, mode, query, variant);
  }

  // ---------------------------------------------------------------------------
  // Gathering and merging

  /** `asyncio.gather(*tasks, return_exceptions=True)`: one outcome per task, in
      task order; `fetch` stands for the providers. */
  function Gather(tasks: seq<Task>, fetch: Task -> Outcome<Json>): (r: seq<Outcome<Json>>)
    ensures |r| == |tasks| && forall i :: 0 <= i < |tasks| ==> r[i] == fetch(tasks[i])
  {
    Project(tasks, fetch)
  }

  /** What a result slot holds: the payload, or `{"error": str(exc)}`. */
  function Slot(result: Outcome<Json>): Json {
    match result
    case Ok(v) => v
    case Raised(e) => Obj([("error", Str(e.message))])
  }

  /** `api_results` after the merge loop. */
  function Merged(keys: seq<string>, results: seq<Outcome<Json>>): Fields
    requires |keys| == |results|
    decreases |keys|
  {
    if keys == [] then []
    else
      var n := |keys| - 1;
      Put(Merged(keys[..n], results[..n]), keys[n], Slot(results[n]))
  }

  /** The merge loop over the gathered results. */
  method MergeResults(keys: seq<string>, results: seq<Outcome<Json>>) returns (apiResults: Fields)
    requires |keys| == |results|
    ensures apiResults == Merged(keys, results)
  {
    apiResults := [];
    var i := 0;
    while i < |results|
      invariant 0 <= i <= |results|
      invariant apiResults == Merged(keys[..i], results[..i])
    {
      assert keys[..i + 1][..i] == keys[..i] && results[..i + 1][..i] == results[..i];
      assert Merged(keys[..i + 1], results[..i + 1]) == Put(apiResults, keys[i], Slot(results[i]));
      if results[i].Raised? {
        apiResults := Put(apiResults, keys[i], Obj([("error", Str(results[i].error.message))]));
      } else {
        apiResults := Put(apiResults, keys[i], results[i].value);
      }
      i := i + 1;
    }
    assert keys[..i] == keys && results[..i] == results;
  }

  /** The merged dictionary has exactly the task keys. */
  lemma {:induction false} MergedKeys(keys: seq<string>, results: seq<Outcome<Json>>, k: string)
    requires |keys| == |results|
    ensures k in Keys(Merged(keys, results)) <==> k in keys
    decreases |keys|
  {
    if keys != [] {
      var n := |keys| - 1;
      MergedKeys(keys[..n], results[..n], k);
      assert keys == keys[..n] + [keys[n]];
    }
  }

  /** Each key reads as the slot of the last task with that key: a failed task
      leaves `{"error": ...}` in its own slot and nowhere else, and a repeated key
      keeps the later result. */
  lemma {:induction false} MergedLookup(keys: seq<string>, results: seq<Outcome<Json>>, i: nat)
    requires |keys| == |results| && i < |keys|
    requires forall j :: i < j < |keys| ==> keys[j] != keys[i]
    ensures Lookup(Merged(keys, results), keys[i]) == Some(Slot(results[i]))
    decreases |keys|, 1
  {
    var n := |keys| - 1;
    PutLookup(Merged(keys[..n], results[..n]), keys[n], Slot(results[n]), keys[i]);
    if i < n {
      MergedLookupBefore(keys, results, i);
    }
  }

  /** A key not repeated later reads the same before the last task is merged. */
  lemma {:induction false} MergedLookupBefore(keys: seq<string>, results: seq<Outcome<Json>>, i: nat)
    requires |keys| == |results| && i < |keys| - 1
    requires forall j :: i < j < |keys| ==> keys[j] != keys[i]
    ensures Lookup(Merged(keys[..|keys| - 1], results[..|keys| - 1]), keys[i]) == Some(Slot(results[i]))
    decreases |keys|, 0
  {
    var n := |keys| - 1;
    var ks, rs := keys[..n], results[..n];
    LastKeyInPrefix(keys, i);
    MergedLookup(ks, rs, i);
    assert rs[i] == results[i];
  }

  /** A key not repeated after index `i` is not repeated there in a prefix. */
  lemma LastKeyInPrefix(keys: seq<string>, i: nat)
    requires i < |keys| - 1
    requires forall j :: i < j < |keys| ==> keys[j] != keys[i]
    ensures var ks := keys[..|keys| - 1]; ks[i] == keys[i] && forall j :: i < j < |ks| ==> ks[j] != ks[i]
  {
  }

  // ---------------------------------------------------------------------------
  // Properties of the task list

  /** The task-list suffix of each per-ticker provider. */
  function Suffix(p: Provider): string {
    match p
    case PolygonPrice => "_price"
    case DatasetsStatements => "_financials"
    case PolygonInsider => "_insider_trades"
    case DatasetsInsider => "_insider_trades"
    case DatasetsFilings => "_sec_filings"
    case PolygonNews => "_news"
    case _ => ""
  }

  /** The position of each per-ticker provider in the enqueue order. */
  function SuffixRank(p: Provider): nat {
    match p
    case PolygonPrice => 0
    case DatasetsStatements => 1
    case PolygonInsider => 2
    case DatasetsInsider => 2
    case DatasetsFilings => 3
    case PolygonNews => 4
    case _ => 5
  }

  predicate HasProvider(jobs: seq<Job>, p: Provider) {
    exists i :: 0 <= i < |jobs| && jobs[i].task.provider == p
  }

  /** For a string ticker `t` (upper-cased to `T`), every task is on `T` under the
      key `T` plus its suffix; the tasks come in the order price, financials,
      insider trades, SEC filings, news; and each is present exactly when its
      flag is set, news following the plan's `call_perplexity_sonar` rather than
      the mode. */
  lemma TickerJobsShape(t: string, f: TickerFlags, variant: Variant)
    ensures var jobs := TickerJobsFor(t, f, variant);
      && (forall i :: 0 <= i < |jobs| ==> jobs[i].task.arg == t && jobs[i].key == t + Suffix(jobs[i].task.provider))
      && (forall i, j :: 0 <= i < j < |jobs| ==> SuffixRank(jobs[i].task.provider) < SuffixRank(jobs[j].task.provider))
      && (HasProvider(jobs, PolygonPrice) <==> f.price)
      && (HasProvider(jobs, DatasetsStatements) <==> f.financials)
      && (HasProvider(jobs, InsiderProvider(variant)) <==> f.insider)
      && (HasProvider(jobs, DatasetsFilings) <==> f.filings)
      && (HasProvider(jobs, PolygonNews) <==> f.news)
  {
    TickerJobsKeys(t, f, variant);
    var a := Maybe(f.price, t + "_price", Task(PolygonPrice, t));
    var b := Maybe(f.financials, t + "_financials", Task(DatasetsStatements, t));
    var c := Maybe(f.insider, t + "_insider_trades", Task(InsiderProvider(variant), t));
    var d := Maybe(f.filings, t + "_sec_filings", Task(DatasetsFilings, t));
    var e := Maybe(f.news, t + "_news", Task(PolygonNews, t));
    RankedConcat(a, b, c, d, e, TickerJobsFor(t, f, variant));
    TickerProviders(t, f, variant);
  }

  lemma TickerJobsKeys(t: string, f: TickerFlags, variant: Variant)
    ensures var jobs := TickerJobsFor(t, f, variant);
      forall i :: 0 <= i < |jobs| ==> jobs[i].task.arg == t && jobs[i].key == t + Suffix(jobs[i].task.provider)
  {
    var jobs := TickerJobsFor(t, f, variant);
    forall i | 0 <= i < |jobs| ensures jobs[i].task.arg == t && jobs[i].key == t + Suffix(jobs[i].task.provider) {
      var a := Maybe(f.price, t + "_price", Task(PolygonPrice, t));
      var b := Maybe(f.financials, t + "_financials", Task(DatasetsStatements, t));
      var c := Maybe(f.insider, t + "_insider_trades", Task(InsiderProvider(variant), t));
      var d := Maybe(f.filings, t + "_sec_filings", Task(DatasetsFilings, t));
      var e := Maybe(f.news, t + "_news", Task(PolygonNews, t));
      assert jobs[i] in a || jobs[i] in b || jobs[i] in c || jobs[i] in d || jobs[i] in e;
    }
  }

  lemma TickerProviders(t: string, f: TickerFlags, variant: Variant)
    ensures var jobs := TickerJobsFor(t, f, variant);
      && (HasProvider(jobs, PolygonPrice) <==> f.price)
      && (HasProvider(jobs, DatasetsStatements) <==> f.financials)
      && (HasProvider(jobs, InsiderProvider(variant)) <==> f.insider)
      && (HasProvider(jobs, DatasetsFilings) <==> f.filings)
      && (HasProvider(jobs, PolygonNews) <==> f.news)
  {
    var a := Maybe(f.price, t + "_price", Task(PolygonPrice, t));
    var b := Maybe(f.financials, t + "_financials", Task(DatasetsStatements, t));
    var c := Maybe(f.insider, t + "_insider_trades", Task(InsiderProvider(variant), t));
    var d := Maybe(f.filings, t + "_sec_filings", Task(DatasetsFilings, t));
    var e := Maybe(f.news, t + "_news", Task(PolygonNews, t));
    ProvidersOf(a, b, c, d, e, TickerJobsFor(t, f, variant));
    MaybeProvider(f.price, t + "_price", Task(PolygonPrice, t));
    MaybeProvider(f.financials, t + "_financials", Task(DatasetsStatements, t));
    MaybeProvider(f.insider, t + "_insider_trades", Task(InsiderProvider(variant), t));
    MaybeProvider(f.filings, t + "_sec_filings", Task(DatasetsFilings, t));
    MaybeProvider(f.news, t + "_news", Task(PolygonNews, t));
  }

  lemma MaybeProvider(on: bool, key: string, task: Task)
    ensures forall p :: HasProvider(Maybe(on, key, task), p) <==> on && task.provider == p
  {
    if on {
      assert Maybe(on, key, task)[0].task == task;
    }
  }

  lemma ProvidersOf(a: seq<Job>, b: seq<Job>, c: seq<Job>, d: seq<Job>, e: seq<Job>, jobs: seq<Job>)
    requires jobs == a + b + c + d + e
    ensures forall p :: HasProvider(jobs, p) <==>
      HasProvider(a, p) || HasProvider(b, p) || HasProvider(c, p) || HasProvider(d, p) || HasProvider(e, p)
  {
    forall p ensures HasProvider(jobs, p) <==>
      HasProvider(a, p) || HasProvider(b, p) || HasProvider(c, p) || HasProvider(d, p) || HasProvider(e, p)
    {
      if HasProvider(jobs, p) {
        var i :| 0 <= i < |jobs| && jobs[i].task.provider == p;
        if i < |a| { assert a[i] == jobs[i]; }
        else if i < |a| + |b| { assert b[i - |a|] == jobs[i]; }
        else if i < |a| + |b| + |c| { assert c[i - |a| - |b|] == jobs[i]; }
        else if i < |a| + |b| + |c| + |d| { assert d[i - |a| - |b| - |c|] == jobs[i]; }
        else { assert e[i - |a| - |b| - |c| - |d|] == jobs[i]; }
      }
      if HasProvider(a, p) { var i :| 0 <= i < |a| && a[i].task.provider == p; assert jobs[i] == a[i]; }
      if HasProvider(b, p) { var i :| 0 <= i < |b| && b[i].task.provider == p; assert jobs[|a| + i] == b[i]; }
      if HasProvider(c, p) { var i :| 0 <= i < |c| && c[i].task.provider == p; assert jobs[|a| + |b| + i] == c[i]; }
      if HasProvider(d, p) { var i :| 0 <= i < |d| && d[i].task.provider == p; assert jobs[|a| + |b| + |c| + i] == d[i]; }
      if HasProvider(e, p) { var i :| 0 <= i < |e| && e[i].task.provider == p; assert jobs[|a| + |b| + |c| + |d| + i] == e[i]; }
    }
  }

  /** Each block of the concatenation has at most one job and a larger rank than
      the blocks before it, so ranks increase along the list. */
  lemma RankedConcat(a: seq<Job>, b: seq<Job>, c: seq<Job>, d: seq<Job>, e: seq<Job>, jobs: seq<Job>)
    requires jobs == a + b + c + d + e
    requires |a| <= 1 && |b| <= 1 && |c| <= 1 && |d| <= 1 && |e| <= 1
    requires forall x :: x in a ==> SuffixRank(x.task.provider) == 0
    requires forall x :: x in b ==> SuffixRank(x.task.provider) == 1
    requires forall x :: x in c ==> SuffixRank(x.task.provider) == 2
    requires forall x :: x in d ==> SuffixRank(x.task.provider) == 3
    requires forall x :: x in e ==> SuffixRank(x.task.provider) == 4
    ensures forall i, j :: 0 <= i < j < |jobs| ==> SuffixRank(jobs[i].task.provider) < SuffixRank(jobs[j].task.provider)
  {
    forall i, j | 0 <= i < j < |jobs| ensures SuffixRank(jobs[i].task.provider) < SuffixRank(jobs[j].task.provider) {
      var block := (k: int) requires 0 <= k < |jobs| =>
        if k < |a| then 0 else if k < |a| + |b| then 1 else if k < |a| + |b| + |c| then 2
        else if k < |a| + |b| + |c| + |d| then 3 else 4;
      assert forall k :: 0 <= k < |jobs| ==> SuffixRank(jobs[k].task.provider) == block(k) by {
        forall k | 0 <= k < |jobs| ensures SuffixRank(jobs[k].task.provider) == block(k) {
          if k < |a| { assert jobs[k] in a; }
          else if k < |a| + |b| { assert jobs[k] == b[k - |a|]; assert jobs[k] in b; }
          else if k < |a| + |b| + |c| { assert jobs[k] == c[k - |a| - |b|]; assert jobs[k] in c; }
          else if k < |a| + |b| + |c| + |d| { assert jobs[k] == d[k - |a| - |b| - |c|]; assert jobs[k] in d; }
          else { assert jobs[k] == e[k - |a| - |b| - |c| - |d|]; assert jobs[k] in e; }
        }
      }
    }
  }

  /** In mode `deep_research` on a dictionary plan, the plan's flag is set and the
      deep-research task is enqueued, after the sonar task if any and before every
      ticker task. */
  lemma DeepResearchForced(plan: Json, query: string, variant: Variant)
    requires plan.Obj?
    ensures var p := Override(plan, "deep_research");
      p.Ok? && p.value.Obj? && Lookup(p.value.fields, "call_perplexity_deep_research") == Some(Bool(true))
    ensures var d := Dispatched(plan, "deep_research", query, variant);
      d.Ok? ==> exists i :: 0 <= i <= 1 && i < |d.value| && d.value[i] == Job(DEEP_JOB_KEY, Task(PerplexityDeepResearch, query))
  {
    var p := Override(plan, "deep_research").value;
    PutLookup(plan.fields, "call_perplexity_deep_research", Bool(true), "call_perplexity_deep_research");
    var d := Dispatched(plan, "deep_research", query, variant);
    if d.Ok? {
      assert d == Jobs(p, "deep_research", query, variant);
      JobsStartWithHead(p, "deep_research", query, variant);
      var head := PerplexityJobs(p, "deep_research", query).value;
      DeepJobLast(p, query);
      var i := |head| - 1;
      assert d.value[i] == head[i];
    }
  }

  /** The task list starts with the Perplexity tasks. */
  lemma JobsStartWithHead(plan: Json, mode: string, query: string, variant: Variant)
    requires Jobs(plan, mode, query, variant).Ok?
    ensures PerplexityJobs(plan, mode, query).Ok?
    ensures PerplexityJobs(plan, mode, query).value <= Jobs(plan, mode, query, variant).value
  {
  }

  /** In mode `deep_research` the Perplexity tasks end with the deep-research task,
      at index 0 or 1. */
  lemma DeepJobLast(plan: Json, query: string)
    requires PerplexityJobs(plan, "deep_research", query).Ok?
    ensures var head := PerplexityJobs(plan, "deep_research", query).value;
      1 <= |head| <= 2 && head[|head| - 1] == Job(DEEP_JOB_KEY, Task(PerplexityDeepResearch, query))
  {
  }

  /** In the default mode `sonar` the sonar task is enqueued whatever the plan
      says, and it is the first task. */
  lemma SonarModeFirst(plan: Json, query: string, variant: Variant)
    ensures var d := Dispatched(plan, "sonar", query, variant);
      d.Ok? ==> |d.value| > 0 && d.value[0] == Job(SONAR_JOB_KEY, Task(PerplexitySonar, query))
  {
    var d := Dispatched(plan, "sonar", query, variant);
    if d.Ok? {
      var head := PerplexityJobs(plan, "sonar", query).value;
      assert d.value[..|head|] == head;
    }
  }

  /** The streaming route enqueues the same keys, and fails in the same way, as
      the plain route; only the insider-trades provider differs. */
  lemma VariantsSameKeys(plan: Json, mode: string, query: string)
    ensures SameUpTo(Dispatched(plan, mode, query, Plain), Dispatched(plan, mode, query, Streaming), (j: Job) => j.key)
  {
    var h := (j: Job) => j.key;
    match Override(plan, mode)
    case Raised(_) =>
    case Ok(p) =>
      match PerplexityJobs(p, mode, query)
      case Raised(_) =>
      case Ok(head) =>
        match Tickers(p)
        case Raised(_) =>
        case Ok(tickers) =>
          forall x | x in tickers ensures SameUpTo(TickerStep(p, Plain)(x), TickerStep(p, Streaming)(x), h) {
            TickerVariants(p, x);
          }
          ConcatMapSameUpTo(tickers, TickerStep(p, Plain), TickerStep(p, Streaming), h);
          var a := ConcatMap(tickers, TickerStep(p, Plain));
          var b := ConcatMap(tickers, TickerStep(p, Streaming));
          if a.Ok? {
            assert Project(head + a.value, h) == Project(head, h) + Project(a.value, h);
            assert Project(head + b.value, h) == Project(head, h) + Project(b.value, h);
          }
  }

  lemma TickerVariants(plan: Json, x: Json)
    ensures SameUpTo(TickerJobs(plan, Plain, x), TickerJobs(plan, Streaming, x), (j: Job) => j.key)
  {
    var h := (j: Job) => j.key;
    if x.Str? && ReadFlags(plan).Ok? {
      var t, f := ToUpper(x.s), ReadFlags(plan).value;
      var a, b := TickerJobsFor(t, f, Plain), TickerJobsFor(t, f, Streaming);
      assert |a| == |b| && forall i :: 0 <= i < |a| ==> a[i].key == b[i].key;
    }
  }
}
