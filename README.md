# A verified model of the financial-question backend

The backend answers free-text financial questions. A `POST /search` request (or
its streaming twin `POST /search/stream`) goes through these steps:

1. It records the question in the session's conversation history.
2. It looks for a cached answer in Redis.
3. Otherwise it asks a language model for an *API plan*: which providers to call
   and for which tickers.
4. It fans the plan out into provider tasks (Perplexity, Polygon.io,
   FinancialDatasets.ai) and merges their outcomes into `api_results`.
5. It turns those results into a data digest for a second model call.
6. It extracts the sources and schedules the answer for caching.

REST routes reshape raw provider payloads for prices, news, statements, insider
trades, filings and ownership. A heuristic analyzer extracts tickers, classifies
simple questions and formats fast-path replies.

This project models that core in Dafny and proves what it promises:

| Module | File | Models |
|---|---|---|
| `PyJson` | `json.dfy` | JSON values with insertion-ordered objects, plus the Python operations the code applies to them (`in`, `[]`, `.get`, `len`, slicing, iteration, item assignment, truthiness, the response models' validation). Each can raise, through an `Outcome` type. |
| `PyText` | `text.dfy` | `str.split()`, `' '.join`, `strip`, ASCII case mapping, substring search. |
| `Collect` | `collect.dfy` | "Append each step's output or stop at the first exception" (`ConcatMap`), with `Filter`, `Count` and `Project`. |
| `RedisCache` | `cache.dfy` | `RedisService` over a shared expiring store (`RedisStore`). |
| `OpenAI` | `openai_service.dfy` | The conversation history, plan extraction and completion, and the insight call. |
| `PromptDigest` | `digest.dfy` | `_format_data_for_prompt`. |
| `FanOut` | `fanout.dfy` | Plan → tasks and keys → merged results. |
| `Sources` | `sources.dfy` | Perplexity content and source extraction. |
| `SearchRoute` | `search.dfy` | Both search routes: history, cache, plan, fan-out, insight, cache writes and the event stream. |
| `QueryAnalyzer` | `query_analyzer.dfy` | Ticker extraction, simple-query classification, fast-path replies. |
| `Reshape`, `FinancialsRoutes`, `StockRoutes` | `reshape.dfy`, `financials.dfy`, `stock.dfy` | The REST reshaping routes. |

Where the code mutates state, the model does too:

- the conversation history is a `map` field of the `OpenAIService` class;
- the Redis server is a `RedisStore` object whose `entries` the setters reassign;
- the loops that grow `tasks`, `task_keys`, `api_results`, `sources`, the digest
  and the statement list are `while` loops.

Each such method is proved equal to a specification function. The properties are
proved about those functions.

All source paths below are relative to the repository root.

## Model

| member | source | states |
|---|---|---|
| RedisCache.RedisService.constructor | backend/app/services/redis_service.py:8-20 | The service is built enabled or disabled, on a given server and digest function. |
| RedisCache.RedisService.GetApiPlan | backend/app/services/redis_service.py:41-64 | Disabled or unreachable gives None. Otherwise it returns the live entry under the `api_plan` key of the normalised query, or None. |
| RedisCache.RedisService.GetQueryResponse | backend/app/services/redis_service.py:93-116 | Same as the plan getter, under the `query_response` key. |
| RedisCache.RedisService.SetApiPlan | backend/app/services/redis_service.py:66-91 | Returns true exactly when enabled, reachable and the TTL is positive; only then is the plan stored under its key with that expiry, and otherwise the store is unchanged. |
| RedisCache.RedisService.SetQueryResponse | backend/app/services/redis_service.py:118-143 | Same as the plan setter, under the `query_response` key. |
| RedisCache.RedisService.Read | backend/app/services/redis_service.py:51-64 | The shared gated read both getters use. |
| RedisCache.RedisService.Write | backend/app/services/redis_service.py:78-91 | The shared gated `SETEX` both setters use. |
| RedisCache.NormalizeQuery | backend/app/services/redis_service.py:34 | `' '.join(query.lower().split())`. NormalizeIdempotent and NormalizedIsSingleSpaced state its properties. |
| RedisCache.CacheKey | backend/app/services/redis_service.py:22-39 | `prefix:md5(normalised query)`. CacheKeyIgnoresCase, CacheKeyIgnoresSpacing and PlanAndResponseKeysDiffer state its properties. |
| RedisCache.ResponseRoundTrip | backend/app/services/redis_service.py:118-143 | A response stored for `q` reads back for any `q'` with the same normalisation strictly before 1800 s have passed, and not after. |
| RedisCache.PlanAndResponseKeysDiffer | backend/app/services/redis_service.py:39 | A plan key and a response key are never equal, whatever the queries and the digest. |
| RedisCache.CacheKeyIgnoresCase | backend/app/services/redis_service.py:33-39 | Changing the case of one letter of the query leaves the key unchanged. |
| RedisCache.CacheKeyIgnoresSpacing | backend/app/services/redis_service.py:33-39 | Replacing a whitespace run by another (non-empty inside, any at the ends) leaves the key unchanged. |
| RedisCache.SpacingInvariant | backend/app/services/redis_service.py:34 | Lower-casing then splitting ignores a whitespace run between two parts. |
| RedisCache.NormalizeIdempotent | backend/app/services/redis_service.py:34 | Normalising a normalised query changes nothing. |
| RedisCache.NormalizedIsSingleSpaced | backend/app/services/redis_service.py:34 | A normalised query has no leading, trailing or doubled space and no other whitespace. |
| PyText.SplitWords | backend/app/services/redis_service.py:34 | Every word `split()` yields is non-empty, contains no whitespace and uses only characters of the input. |
| PyText.SplitJoin | backend/app/services/redis_service.py:34 | Splitting the single-space join of space-free words gives the words back. |
| OpenAI.Opened | backend/app/services/openai_service.py:48-49 | Opening a session adds it with an empty list if absent and leaves every existing session as it was. |
| OpenAI.LastN | backend/app/services/openai_service.py:72-73 | The result has length `min(n, len)` and holds the last elements in order. |
| OpenAI.RecentIsSuffix | backend/app/services/openai_service.py:51-52 | `turns[-n:]` is a suffix of the session. For positive `n` it holds `min(n, len)` turns; for `n == 0` it holds all of them. |
| OpenAI.AddedAppends | backend/app/services/openai_service.py:54-73 | Adding a turn makes it the session's last turn and keeps only the 20 most recent. Other sessions are unchanged and the 20-turn bound is preserved. |
| OpenAI.AddedAllKeepsMostRecent | backend/app/services/openai_service.py:54-73 | After several additions the session holds the last 20 of its old turns followed by the new ones. |
| OpenAI.AddedAllOthers | backend/app/services/openai_service.py:54-73 | Additions to one session never change another. |
| OpenAI.CloseFrom | backend/app/services/openai_service.py:135 | The first closing fence at or after a position, or None when there is none; the lazy `.*?` stops there. |
| OpenAI.FenceStart | backend/app/services/openai_service.py:135 | The leftmost position where a fenced block matches, or None when none does. |
| OpenAI.FencedBlockIsLeftmostShortest | backend/app/services/openai_service.py:135-137 | The extracted block starts at the leftmost opening fence that has a match and ends at the first closing fence after it. |
| OpenAI.FirstIndex | backend/app/services/openai_service.py:140 | The first occurrence of a character at or after a position, or None. |
| OpenAI.LastIndex | backend/app/services/openai_service.py:140 | The last occurrence of a character before a bound, or None. |
| OpenAI.InlineObject | backend/app/services/openai_service.py:140-142 | The greedy `{.*}` match starts with `{` and ends with `}`. None means no `{` is ever followed by a `}`. |
| OpenAI.FallbackPlan | backend/app/services/openai_service.py:145-154 | The default plan's keys are exactly the 8 required fields, in order. |
| OpenAI.FallbackPlanFields | backend/app/services/openai_service.py:145-154 | Sonar is true, the other five flags are false, `tickers` is `[]` and `reasoning` is the given text. |
| OpenAI.RequiredDistinct | backend/app/services/openai_service.py:157-161 | The 8 required field names are pairwise distinct. |
| OpenAI.FillDict | backend/app/services/openai_service.py:163-170 | Completing a dict never raises. Every present field keeps its value and every missing field gets its default (`[]`, "No reasoning provided.", False). |
| OpenAI.FillNonDict | backend/app/services/openai_service.py:163-170 | A non-dict plan survives completion only if `field in plan` holds for every field, and is then returned unchanged. |
| OpenAI.FillKeepsComplete | backend/app/services/openai_service.py:163-172 | A dict that already has every field is returned unchanged. |
| OpenAI.PlanComplete | backend/app/services/openai_service.py:156-172 | Whatever the reply and the parser, every required field is `in` the returned plan. |
| OpenAI.PlanKeepsParsedFields | backend/app/services/openai_service.py:156-172 | Fields the model supplied keep their values; missing required fields take their defaults. |
| OpenAI.ReplyExtractionOrder | backend/app/services/openai_service.py:133-154 | A fenced block is parsed if there is one, else the inline object, else the default plan is used. |
| OpenAI.ParseErrorGivesFallback | backend/app/services/openai_service.py:174-186 | A parse exception gives the default flags, `[]` tickers and reasoning "Error parsing API plan: " plus the message. |
| OpenAI.OpenAIService.constructor | backend/app/services/openai_service.py:11 | A new service starts with an empty history. |
| OpenAI.OpenAIService.GetConversationHistory | backend/app/services/openai_service.py:37-52 | Opens the session, and returns the session's `[-max_messages:]`. |
| OpenAI.OpenAIService.AddToConversation | backend/app/services/openai_service.py:54-73 | The history becomes `Added` of the old one and stays within 20 turns per session. |
| OpenAI.OpenAIService.FillRequired | backend/app/services/openai_service.py:163-170 | The in-place fill loop computes the plan completion. |
| OpenAI.OpenAIService.AnalyzeQuery | backend/app/services/openai_service.py:75-186 | Only opens the session. The plan is the completed extraction of the reply to a prompt holding the last 10 turns and the question. |
| OpenAI.OpenAIService.GenerateFinancialInsight | backend/app/services/openai_service.py:188-245 | A digest exception propagates with only the session opened. Otherwise the reply is returned and appended as exactly one assistant turn, an `"Error: "` reply included. |
| PromptDigest.FormatDataForPrompt | backend/app/services/openai_service.py:247-414 | The six loops compute the digest: the six passes concatenated, or the first exception one raises. |
| PromptDigest.Digest | backend/app/services/openai_service.py:247-413 | The digest as a function of the results: each entry's pieces, in dictionary order. `FormatDataForPrompt` is proved to compute it. |
| PromptDigest.RunPass | backend/app/services/openai_service.py:252-412 | One loop over the results dict computes that section's pass over every entry in dict order. |
| PromptDigest.PassEntry | backend/app/services/openai_service.py:252-412 | The body of one section's loop on one entry. |
| PromptDigest.SearchEntry | backend/app/services/openai_service.py:252-265 | One Perplexity entry gives its heading, content and numbered citations. |
| PromptDigest.CitationLines | backend/app/services/openai_service.py:263-264 | One numbered line per citation, in order. |
| PromptDigest.NewsEntry | backend/app/services/openai_service.py:282-292 | One news entry gives a heading and then a block for each of its first three results. |
| PromptDigest.MetricLines | backend/app/services/openai_service.py:316-319 | One line per allow-listed metric that the statement contains, in list order. |
| PromptDigest.StatementEntry | backend/app/services/openai_service.py:306-320 | One statement gives its fiscal-year line and its metric lines. |
| PromptDigest.StatementBlockEntry | backend/app/services/openai_service.py:304-320 | One statement block gives nothing, or its heading and at most two statements. |
| PromptDigest.FinancialsEntry | backend/app/services/openai_service.py:295-360 | One financials entry gives its three blocks in order, or the "No detailed financial data" line. |
| PromptDigest.FilingsEntry | backend/app/services/openai_service.py:363-377 | One filings entry gives its first three filings, or the "No SEC filings" line. |
| PromptDigest.TradesEntry | backend/app/services/openai_service.py:380-412 | One trades entry gives its first five trades, or the "No insider trade data" line. |
| PromptDigest.DigestOrderedAndWellFormed | backend/app/services/openai_service.py:247-414 | Sections appear in the order Perplexity, price, news, financials, filings, insider, whatever the dict order. Every line is well formed: summary ≤ 150 characters, only allow-listed numeric metrics, filing description and url and trade title and price shown only when truthy, before→after only when both are truthy. |
| PromptDigest.SearchInSection | backend/app/services/openai_service.py:252-265 | Every Perplexity line is a well-formed line of the first section. |
| PromptDigest.PriceInSection | backend/app/services/openai_service.py:268-279 | Every price line belongs to the price section. |
| PromptDigest.NewsInSection | backend/app/services/openai_service.py:282-292 | Every news line belongs to the news section, and every summary is at most 150 characters. |
| PromptDigest.FinancialsInSection | backend/app/services/openai_service.py:295-360 | Every financials line belongs to its section, and metrics are allow-listed and numeric. |
| PromptDigest.FilingsInSection | backend/app/services/openai_service.py:363-377 | Filing description and url lines appear only for truthy values. |
| PromptDigest.TradesInSection | backend/app/services/openai_service.py:380-412 | Title, price and holdings parts appear only for truthy values. |
| PromptDigest.DigestSkipsErrors | backend/app/services/openai_service.py:252-412 | Dropping every entry with an `"error"` key leaves the digest unchanged. |
| PromptDigest.FailedEntryEmpty | backend/app/services/openai_service.py:253 | An entry with an `"error"` key contributes nothing to any section. |
| PromptDigest.NewsAtMostThree | backend/app/services/openai_service.py:288-292 | A news entry shows at most 3 articles. |
| PromptDigest.StatementBlockLines | backend/app/services/openai_service.py:304-320 | A statement block shows at most two statements, each after the block heading. |
| PromptDigest.StatementBlockCount | backend/app/services/openai_service.py:304-320 | A block has at most 2 fiscal-year lines of its own kind and none of another kind. |
| PromptDigest.StatementsAtMostTwo | backend/app/services/openai_service.py:304-358 | A financials entry shows at most 2 statements of each kind. |
| PromptDigest.FilingsAtMostThree | backend/app/services/openai_service.py:368-375 | A filings entry shows at most 3 filings. |
| PromptDigest.TradesAtMostFive | backend/app/services/openai_service.py:385-410 | An insider entry shows at most 5 trades. |
| FanOut.BuildTasks | backend/app/api/routes/search.py:159-199 | The plan ends as the override left it. The two lists, or the exception, are those of the overridden plan's task list. |
| FanOut.Jobs | backend/app/api/routes/search.py:163-199 | The task list of a plan: the Perplexity tasks, then each ticker's tasks in plan order, or the first exception. |
| FanOut.TickerJobs | backend/app/api/routes/search.py:176-199 | One ticker's tasks: `upper()` of the ticker, then the five flag-gated tasks. |
| FanOut.JobsEnqueued | backend/app/api/routes/search.py:163-199 | The tasks appended when the list is built or its building stops: all of them, or those appended before the exception. |
| FanOut.EnqueuedAll | backend/app/api/routes/search.py:163-199 | When building the list raises nothing, the enqueued tasks are the whole task list. |
| FanOut.EnqueuedBeforeTicker | backend/app/api/routes/search.py:176-181 | When the i-th ticker is not a string, the enqueued tasks are the Perplexity tasks plus those of the tickers before it, and the exception is `'<type>' object has no attribute 'upper'`. |
| FanOut.DispatchTasks | backend/app/api/routes/search.py:163-199 | `tasks` and `task_keys` hold the task list's tasks and keys position by position, so their lengths are equal. An exception is the one the list raises, and the lists then hold the tasks and keys enqueued before it. |
| FanOut.PerplexityTasks | backend/app/api/routes/search.py:163-170 | The sonar task, then the deep-research task, each when the mode or the plan's flag asks for it. |
| FanOut.AppendTicker | backend/app/api/routes/search.py:176-199 | One ticker's tasks are appended, or the exception its `upper()` or flag reads raise is returned. |
| FanOut.AppendAllTickers | backend/app/api/routes/search.py:176-199 | The ticker loop appends every ticker's tasks in plan order, or stops at the first exception. |
| FanOut.TickerPass | backend/app/api/routes/search.py:176-199 | One pass of the ticker loop extends the lists by that ticker's tasks. |
| FanOut.AppendTickerTasks | backend/app/api/routes/search.py:180-199 | The five conditional appends add exactly that ticker's tasks and keys. |
| FanOut.TickerJobsShape | backend/app/api/routes/search.py:176-199 | Every task is on the upper-cased ticker `T`, keyed `T` plus its suffix. The order is price, financials, insider, filings, news. Each task is present iff its flag is set; news follows `call_perplexity_sonar`, not the mode. |
| FanOut.TickerJobsKeys | backend/app/api/routes/search.py:176-199 | Every per-ticker key is the upper-cased ticker followed by the provider's suffix. |
| FanOut.TickerProviders | backend/app/api/routes/search.py:180-199 | Each per-ticker provider is present exactly when its flag is set. |
| FanOut.DeepResearchForced | backend/app/api/routes/search.py:160-170 | In deep-research mode a dict plan gets the flag set to true, and the deep-research task is among the first two tasks. |
| FanOut.SonarModeFirst | backend/app/api/routes/search.py:164-166 | In sonar mode the first task is the sonar search, whatever the plan says. |
| FanOut.VariantsSameKeys | backend/app/api/routes/search.py:188-190 | Plain and streaming task lists have the same keys and fail alike. Only the insider provider differs (search.py:354). |
| FanOut.TickerVariants | backend/app/api/routes/search.py:352-355 | Per ticker, the two variants give the same keys. |
| FanOut.Gather | backend/app/api/routes/search.py:202-203 | One outcome per task, position by position. |
| FanOut.MergeResults | backend/app/api/routes/search.py:205-211 | The merge loop computes `api_results`. |
| FanOut.MergedKeys | backend/app/api/routes/search.py:205-211 | The merged dict's keys are exactly the task keys. |
| FanOut.MergedLookup | backend/app/api/routes/search.py:205-211 | A key's last occurrence maps to that task's payload, or to `{"error": msg}` if it raised. Other failures do not affect it, and a duplicate keeps the later result. |
| Sources.ExtractPerplexityContent | backend/app/api/routes/search.py:52-56 | The first choice's message content, `""` without choices, or the exception a missing key or a wrong type raises. PerplexityContent and PerplexityFirstChoice state its cases. |
| Sources.PerplexitySources | backend/app/api/routes/search.py:58-84 | The first choice's context documents, then the citations not already listed. CitationsListed and DocSourceDefaults state its properties. |
| Sources.ExtractSources | backend/app/api/routes/search.py:86-105 | The Perplexity entries' sources, then the first three articles of each news entry. `CollectSources` is proved to compute it. |
| Sources.PerplexityContent | backend/app/api/routes/search.py:52-56 | No `choices`, or an empty list of them, gives `""`. |
| Sources.PerplexityFirstChoice | backend/app/api/routes/search.py:54-55 | When the first choice is a dictionary whose `message` holds `content`, the result is that content, whatever other keys the choice and the message carry. |
| Sources.CollectPerplexitySources | backend/app/api/routes/search.py:58-84 | The document loop and then the citation loop compute the Perplexity sources. |
| Sources.AppendDocuments | backend/app/api/routes/search.py:67-72 | The document loop gives one source per document, in order. |
| Sources.AppendCitations | backend/app/api/routes/search.py:75-82 | The citation loop computes the de-duplicated extension. |
| Sources.WithCitations | backend/app/api/routes/search.py:75-82 | The document sources stay as a prefix. Each added citation has title equal to url, and no added url repeats an earlier one. |
| Sources.CitationsListed | backend/app/api/routes/search.py:75-82 | After the loop, every citation is some source's url. |
| Sources.CitationRejected | backend/app/api/routes/search.py:78-82 | A citation that is neither a string nor null fails the `Source` model and raises. |
| Sources.DocSourceDefaults | backend/app/api/routes/search.py:69-72 | Title falls back to the url and then to "Unknown Source". The url falls back to `""`. |
| Sources.CollectSources | backend/app/api/routes/search.py:86-105 | The two loops compute the Perplexity sources of all entries followed by the news sources of all entries. |
| Sources.PerplexityLoop | backend/app/api/routes/search.py:90-94 | The first loop, in dict order. |
| Sources.NewsLoop | backend/app/api/routes/search.py:97-103 | The second loop, in dict order. |
| Sources.NewsEntryBound | backend/app/api/routes/search.py:97-103 | A news entry contributes at most 3 sources, and a key without `_news` contributes none. |
| Sources.NewsEntryArticles | backend/app/api/routes/search.py:98-103 | A news entry with valid articles contributes exactly its first three, titled "News Article" and with url `""` by default. |
| Sources.ErrorEntrySkipped | backend/app/api/routes/search.py:92 | A Perplexity entry with `"error"` contributes nothing to either loop. |
| Sources.SourcesSkipErrors | backend/app/api/routes/search.py:91-94 | Dropping failed Perplexity entries leaves the sources unchanged. |
| Sources.SourcesJson | backend/app/api/routes/search.py:223 | The cached list has one dictionary per source. |
| Sources.SourcesRoundTrip | backend/app/api/routes/search.py:139 | `Source(**d)` over the cached `__dict__`s gives back the same sources. |
| Sources.SourceRoundTrip | backend/app/api/routes/search.py:139 | The same for one source. |
| SearchRoute.Served | backend/app/api/routes/search.py:120-230 | One request: the question is recorded, then the cached answer or a fresh one. The lemmas below state its properties. |
| SearchRoute.Hit | backend/app/api/routes/search.py:132-142 | The cache-hit branch: the cached answer is recorded, then the response is built from the cached dictionary. |
| SearchRoute.Missed | backend/app/api/routes/search.py:144-230 | The cache-miss branch: the planner call, then the rest of the answer. |
| SearchRoute.Answered | backend/app/api/routes/search.py:147-230 | The miss once the plan is known: the plan write, the override, the fan-out, the insight call and the sources. |
| SearchRoute.Insight | backend/app/api/routes/search.py:213-230 | The insight call, the sources and the response write. |
| SearchRoute.SessionEchoed | backend/app/api/routes/search.py:125-237 | A non-empty session id in the request comes back in the response. Without one, the response carries the id drawn for the request when an answer is produced, and an id drawn afresh after an exception. An answer names a session that the history holds. |
| SearchRoute.Search | backend/app/api/routes/search.py:107-238 | The response, the cache writes and the provider calls match the request run. The history is the run's history and an exception becomes the error response. |
| SearchRoute.AnswerFromCache | backend/app/api/routes/search.py:131-142 | On a hit, the cached answer is recorded as the assistant turn and the cached response is returned. |
| SearchRoute.AnswerFresh | backend/app/api/routes/search.py:144-231 | On a miss, the result, trace and history are those of plan, fan-out, insight and sources. |
| SearchRoute.Gathered | backend/app/api/routes/search.py:201-211 | Gathering and merging the aligned lists gives the task list's results dict. |
| SearchRoute.RunBackground | backend/app/api/routes/search.py:147-152 | The recorded writes are applied in order when the cache is enabled and reachable; otherwise the store is unchanged. |
| SearchRoute.ResponseShape | backend/app/api/routes/search.py:226-238 | The route always returns a session id and a sources list. An exception gives its text after the fixed prefix, with empty sources and no data. |
| SearchRoute.ServedShape | backend/app/api/routes/search.py:137-142 | A successful run's response carries the request's session id and a sources list. |
| SearchRoute.HitIsQuiet | backend/app/api/routes/search.py:128-142 | A hit calls no provider and schedules no write. It appends the user turn and then the assistant turn, or only the user turn if reading `answer` raised. |
| SearchRoute.MissTrace | backend/app/api/routes/search.py:145-224 | A miss writes the overridden plan first. It writes the response form second exactly when it succeeds. It calls exactly the dispatched tasks, or none when dispatch raised. |
| SearchRoute.FreshData | backend/app/api/routes/search.py:202-231 | A fresh response's `data` is the merged results, keyed exactly by the task keys, with each last-occurring key holding its task's slot. |
| SearchRoute.CachedFormReadsBack | backend/app/api/routes/search.py:219-224 | The cached form is truthy, its `answer` reads back, and a hit on it rebuilds the same response. |
| SearchRoute.HitResponseReadsBack | backend/app/api/routes/search.py:137-142 | A response built from the cached form equals the fresh one. |
| SearchRoute.RepeatedQuestionIsCached | backend/app/api/routes/search.py:131-142 | After a successful miss and its writes, the same question up to case and spacing, asked before 1800 s, is a hit. It returns the same answer, sources and data under the new session id. |
| SearchRoute.DefaultRequestSearchesSonar | backend/app/api/routes/search.py:23 | A request with default mode and no session uses a fresh session id, and its first task is the sonar search. |
| SearchRoute.Statuses | backend/app/api/routes/search.py:337-366 | One status line per task, in task order, naming the ticker. |
| SearchRoute.StreamSearch | backend/app/api/routes/search.py:240-415 | With streaming disabled, it returns the plain route's response. With streaming enabled, it returns the event stream of `StreamEvents`. |
| SearchRoute.StreamEvents | backend/app/api/routes/search.py:266-410 | The stream opens with the session's processing line and ends in exactly one result or error line. A hit then has its one closing line. A successful miss lists the announcements, one status per task, "generating" and the result with the sources. A failed miss lists the announcements, one status per task enqueued before the exception, "generating" if the fan-out finished, and the error line; a failed override has only "Analyzing" before the error line. |
| SearchRoute.StreamFromCache | backend/app/api/routes/search.py:285-297 | A hit emits the cached answer and its sources as one closing line, or the error line. |
| SearchRoute.StreamFresh | backend/app/api/routes/search.py:299-402 | A miss streams the announcements and the fresh tail. It has the same trace and history as the plain route. |
| SearchRoute.FailedMiss | backend/app/api/routes/search.py:302-410 | The stream of a miss that raises, from the plan on: a failed override closes after "Analyzing"; otherwise the announcements, the statuses of the tasks enqueued before the exception, "generating" if the fan-out finished, and the error line. |
| SearchRoute.StreamPlanned | backend/app/api/routes/search.py:302-366 | Once the plan is known, the stream follows the override. A failed override closes right after "Analyzing". Any other failure gives the announcements, the statuses of the enqueued tasks and the error line. |
| SearchRoute.StreamAnswer | backend/app/api/routes/search.py:323-402 | After the override, the stream is one status per task, "generating" and the result. On an exception it is one status per task enqueued before it, "generating" only if the fan-out finished, and the error line. |
| SearchRoute.StreamInsight | backend/app/api/routes/search.py:368-402 | After the fan-out come the task statuses, the "generating" status and the result line, or, on an exception, the error line right after "generating". |
| SearchRoute.HitStream | backend/app/api/routes/search.py:278-297 | A hit stream is the processing line and the hit line. |
| SearchRoute.AnnouncedStream | backend/app/api/routes/search.py:300-321 | The announcements are "Analyzing", "Deep Research mode activated" in that mode only, then "Gathering". |
| SearchRoute.AnsweredAfterOverride | backend/app/api/routes/search.py:160-161 | After a successful override the miss proceeds from the overridden plan, which is also the one cached. |
| SearchRoute.AnsweredOverrideRaised | backend/app/api/routes/search.py:160-161 | A failed override raises after scheduling the plan write. |
| SearchRoute.OverrideFailedStream | backend/app/api/routes/search.py:317-318 | A failed override gives "Analyzing" and then the error line. |
| QueryAnalyzer.ExtractTickerSymbols | backend/app/utils/query_analyzer.py:30-47 | The whole words of one to five uppercase letters, without the stop words. ExtractTickersExactly and TickersInOrder state its properties. |
| QueryAnalyzer.ExtractTickersExactly | backend/app/utils/query_analyzer.py:41-47 | A word is extracted iff it is a whole word of 1–5 uppercase letters occurring in the query and is not a stop word. |
| QueryAnalyzer.TickersAreWholeWords | backend/app/utils/query_analyzer.py:41-45 | Every extracted word is a ticker-shaped whole word of the query. |
| QueryAnalyzer.WholeWordsAreTickers | backend/app/utils/query_analyzer.py:41-45 | Every ticker-shaped whole word is extracted. |
| QueryAnalyzer.TickersInOrder | backend/app/utils/query_analyzer.py:41-47 | The extracted list is the list of whole-word tickers taken position by position through the query: in order of appearance, with repeats kept. |
| QueryAnalyzer.IsSimpleQuery | backend/app/utils/query_analyzer.py:49-88 | The first category whose patterns match, with the matched ticker. SimpleQueryPriority states its order. |
| QueryAnalyzer.MatchIn | backend/app/utils/query_analyzer.py:65-68 | The first matching pattern of a category, or None when none matches. |
| QueryAnalyzer.ClassifyPriority | backend/app/utils/query_analyzer.py:64-88 | Simple iff some category matches. The result is the first matching category and that category's first matching pattern's group, else `(False, None, None)`. |
| QueryAnalyzer.SimpleQueryPriority | backend/app/utils/query_analyzer.py:62-88 | The same, on the stripped query and in the order price, news, financials, insider. |
| QueryAnalyzer.GetFastPathResponse | backend/app/utils/query_analyzer.py:90-164 | The branching computes the fast-path reply. |
| QueryAnalyzer.FastPath | backend/app/utils/query_analyzer.py:90-164 | The fast-path reply chosen by query type, with the price branch as written. FastPathFallbacks and NewsReplyBounds state its properties. |
| QueryAnalyzer.PriceReply | backend/app/utils/query_analyzer.py:102-135 | The price branch as written. PriceMove and UnchangedNeverReported state its properties. |
| QueryAnalyzer.NewsBranch | backend/app/utils/query_analyzer.py:137-156 | The `+=` loop builds the news reply. |
| QueryAnalyzer.FastPathFallbacks | backend/app/utils/query_analyzer.py:102-164 | Missing or empty results give the "couldn't find" replies. An unknown type gives the generic reply. |
| QueryAnalyzer.PriceMove | backend/app/utils/query_analyzer.py:111-116 | Every price report has a move. The change is `c - o`, the percent is against a nonzero open (else 0), and it is "up" iff the change is positive. |
| QueryAnalyzer.UnchangedNeverReported | backend/app/utils/query_analyzer.py:117-127 | As written, the "unchanged" branch can never produce a report (see Findings). |
| QueryAnalyzer.MissingOpenRaises | backend/app/utils/query_analyzer.py:117-127 | As written, a bar without `o` selects "unchanged" and then raises formatting `"N/A"` with `:.2f`. |
| QueryAnalyzer.QuoteWithoutOpenFields | backend/app/utils/query_analyzer.py:103-109 | The witness bar reads as close 150 with the rest `"N/A"`. |
| QueryAnalyzer.CorrectedAgreesWhereDefined | backend/app/utils/query_analyzer.py:102-133 | The corrected reply equals the written one wherever the written one succeeds. |
| QueryAnalyzer.CorrectedReportsUnchanged | backend/app/utils/query_analyzer.py:112-119 | In the corrected reply, "unchanged" is reported iff close or open is missing. |
| QueryAnalyzer.CorrectedReportsMissingOpen | backend/app/utils/query_analyzer.py:117-133 | The corrected reply reports the witness bar as unchanged with `N/A` values. |
| QueryAnalyzer.NewsReplyBounds | backend/app/utils/query_analyzer.py:139-154 | A news report lists at most 3 items, each summary at most 200 characters. |
| QueryAnalyzer.NewsItemsAtMostThree | backend/app/utils/query_analyzer.py:139 | At most three results are shown. |
| QueryAnalyzer.BriefsCount | backend/app/utils/query_analyzer.py:142-151 | One brief per shown item. |
| QueryAnalyzer.BriefsShort | backend/app/utils/query_analyzer.py:150 | Every summary is at most 200 long. |
| Reshape.Validated | backend/app/api/routes/financials.py:10-24 | The response model accepts a list of dicts as is. Anything else becomes the handler's `[]`. The ticker is echoed. |
| Reshape.Reshaped | backend/app/api/routes/financials.py:103-121 | Key-preference reshaping echoes the ticker, gives `[]` on an exception and returns only dicts. |
| Reshape.ResultsListing | backend/app/api/routes/financials.py:33-57 | The handler shape both `/financials/{ticker}` and `/stock/historical/{ticker}` (stock.py:107-132) have: it echoes the ticker, and gives `[]` on an exception or without `results`. |
| Reshape.ReshapedSelects | backend/app/api/routes/financials.py:106-111 | The records under the first present key are returned, or `[]` when no key is present. |
| FinancialsRoutes.GetCompanyFinancials | backend/app/api/routes/financials.py:33-57 | `ResultsListing`. CompanyFinancialsResults states what it returns. |
| FinancialsRoutes.CompanyFinancialsResults | backend/app/api/routes/financials.py:45-47 | With `results`, its records are returned. |
| FinancialsRoutes.GetInsiderTrades | backend/app/api/routes/financials.py:94-121 | Echoes the ticker, `[]` on an exception, only dicts. |
| FinancialsRoutes.GetSecFilings | backend/app/api/routes/financials.py:123-151 | Same, for filings. |
| FinancialsRoutes.GetInstitutionalOwnership | backend/app/api/routes/financials.py:153-179 | Same, for ownership. |
| FinancialsRoutes.FallbackHandlers | backend/app/api/routes/financials.py:106-169 | Each handler prefers its own key (`insider_trades`, `filings`, `institutional_ownership`), falls back to `results`, else `[]`. |
| FinancialsRoutes.FinancialStatements | backend/app/api/routes/financials.py:59-92 | Echoes the ticker, `[]` on an exception, only dicts. |
| FinancialsRoutes.CollectStatements | backend/app/api/routes/financials.py:71-83 | The successive `extend` calls compute the statement list. |
| FinancialsRoutes.GetFinancialStatements | backend/app/api/routes/financials.py:59-92 | The handler computes the statements response. |
| FinancialsRoutes.StatementsConcatenated | backend/app/api/routes/financials.py:73-80 | With `financials`, the output is income statements, then balance sheets, then cash-flow statements, each block only if present. |
| FinancialsRoutes.StatementsFallback | backend/app/api/routes/financials.py:81-82 | Without `financials`, the output is the `results` records, else `[]`. |
| StockRoutes.GetStockPrice | backend/app/api/routes/stock.py:34-73 | Echoes the ticker, and gives change and percent together. Without them, the price is 0.0 and `data` is `{"error": ...}`. |
| StockRoutes.PriceProviderError | backend/app/api/routes/stock.py:45-50 | A provider `error` gives price 0.0 with that error as `data`. |
| StockRoutes.PriceNoResults | backend/app/api/routes/stock.py:53-67 | Missing or empty `results` gives "No results found". |
| StockRoutes.PriceCallFailed | backend/app/api/routes/stock.py:68-73 | An exception gives price 0.0 with its text. |
| StockRoutes.PriceFromFirstResult | backend/app/api/routes/stock.py:53-61 | The first bar gives price `c` (default 0), change `c - o`, percent against a nonzero `o` only, and `data` is the bar. |
| StockRoutes.StockNews | backend/app/api/routes/stock.py:75-105 | Echoes the ticker, and gives `[]` on an exception. |
| StockRoutes.GetStockNews | backend/app/api/routes/stock.py:84-105 | The append loop computes the news response. |
| StockRoutes.NewsOnePerResult | backend/app/api/routes/stock.py:87-95 | One item per result, in order. `url` comes from `article_url` and missing fields become `""`. |
| StockRoutes.ArticleAccepted | backend/app/api/routes/stock.py:90-95 | A valid article becomes its item. |
| StockRoutes.NewsAllOrNothing | backend/app/api/routes/stock.py:84-105 | One article the model rejects empties the whole list. |
| StockRoutes.NewsWithoutResults | backend/app/api/routes/stock.py:87-88 | Without `results`, the list is empty. |
| StockRoutes.GetHistoricalPrices | backend/app/api/routes/stock.py:107-132 | `ResultsListing`. HistoricalUnchanged states what it returns. |
| StockRoutes.HistoricalUnchanged | backend/app/api/routes/stock.py:120-126 | A list of bars is returned unchanged. |

## Left out

- The language model: `generate_response` is the `Llm` parameter of `Reply`. The prompts' wording is abstract.
- A `None` message content from `generate_response` (`backend/app/services/openai_service.py:32`) is not modelled: the `Llm` parameter returns a string or an exception, so no answer is ever `None`.
- `json.loads` on the extracted plan text is a parser parameter. The two extraction regexes are modelled exactly.
- The 13 regular expressions of `is_simple_query` are an abstract `Search` parameter. The model keeps the order they are tried in and what each returns.
- MD5 is a function parameter. Cache keys are compared as `prefix:digest(normalised)` without assuming the digest is injective.
- The cache server is an expiring map. The `json.dumps`/`json.loads` round-trip of a stored value is taken as the identity. A connection error is a `down` flag, and the clock is a parameter.
- Case folding covers ASCII letters only. Whitespace follows `str.isspace`.
- `\w` and `\b` in the ticker pattern are ASCII-only in the model (`IsWordChar`). Python treats non-ASCII letters as word characters, so a run such as "ÉAB" yields no ticker there but "AB" in the model.
- The `uuid4` draws are parameters (`freshSid`, `errorSid`), and so is `ENABLE_STREAMING`.
- `asyncio.gather` is a sequence of per-task outcomes in task order. No concurrency is modelled.
- Background tasks are recorded cache writes, applied after the response by `RunBackground`.
- The NDJSON encoding of events and the `StreamingResponse` are not modelled; events are records.
- The Perplexity, Polygon.io and FinancialDatasets.ai HTTP clients are the `fetch` parameter: a payload or an exception per task. The provider-side `{"error": ...}` payloads are ordinary payloads.
- Ints and floats are one `Num(real)`. Float rounding is not modelled, and neither is the text of `:.2f`, `{:,}` or `str()` on numbers. The digest is a sequence of `Piece` records carrying the values each line shows, not the rendered text.
- FastAPI response-model validation is approximated: strings, optional strings, lists of dicts and optional dicts are checked, and no coercion is done. Exception texts are approximations of Python's.
- History across requests: the code injects a new `OpenAIService` per request (`backend/app/api/routes/search.py:37-38`), so the history a request sees starts from that service's state. The model follows the code and takes the history as the `openai` object passed in.
- `extract_perplexity_content` and the query analyzer are not called by the search routes (`backend/app/api/routes/search.py:9`). They are modelled on their own.
- `PolygonService.get_financials`, `get_company_news` limits, `form_type` and the Query bounds of the REST routes are provider arguments. They are not modelled.

## Findings

| source | as written | input that shows it | evidently intended | confidence | as-written member | corrected member |
|---|---|---|---|---|---|---|
| backend/app/utils/query_analyzer.py:112-129 | When close or open is missing, the price branch sets the change to "N/A" / "unchanged". It then formats every value, `"N/A"` included, with `:.2f`, which raises `ValueError`. So the "unchanged" reply is never produced, and a bar without `o` crashes the fast path. | `{"results": [{"c": 150.0}]}` with query type `price` | Missing values are shown as `N/A` and the reply reports the price as unchanged | high (not executed) | QueryAnalyzer.UnchangedNeverReported, QueryAnalyzer.MissingOpenRaises | QueryAnalyzer.PriceReplyCorrected, proved by QueryAnalyzer.CorrectedReportsUnchanged and QueryAnalyzer.CorrectedReportsMissingOpen |
