# Stock-analysis assistant: coordination and retrieval core in Dafny

This project models the decision-making core of a multi-agent stock-analysis
assistant. A supervisor agent hands a ticker and a question to three
specialists (financial, market, valuation). A retrieval service grounds the
financial specialist in indexed financial-report PDFs. The language model,
Chroma, the embedding model, PDF parsing and the text splitter are outside
the model. What they answer is passed in as data or as function parameters.
What remains is the state machine of the retrieval service, the document
loading loop, the supervisor's glue code, the valuation tools' guards and the
pure helpers of the HTTP layer.

Modules, one per source file:

- `Valuation` (`valuation.dfy`) covers `src/tools/valuation.py`. It models the
  P/E and perpetuity-growth DCF tools over `real`, with their rejection branches.
- `FinancialTools` (`financial.dfy`) covers `src/tools/financial.py`. Its two
  tools each do one retrieval and wrap the result in a report header.
- `DocumentLoader` (`loader.dfy`) covers `src/rag/loader.py`. It walks the PDF
  files, skips files that fail to load and tags each page with a company id.
- `Rag` (`retriever.dfy`) covers `src/rag/retriever.py`. The class `RAGSystem`
  has the fields `vectorstore` and `retriever`. Its methods `Initialize` and
  `Retrieve` are specified against the pure step functions `InitializeStep`
  and `RetrieveStep`, and the lemmas are about those functions.
- `Supervisor` (`supervisor.dfy`) covers `src/agents/supervisor.py`. It has the
  specialist tools, the cached supervisor (the class `SupervisorCache` stands
  for the module-level `_supervisor`), the scope list, the prompt, and the
  extraction of the final result.
- `Api` (`api.dfy`) covers the pure decisions in `main.py`.
- `Wrappers` and `Text` (`wrappers.dfy`, `text.dfy`) are helpers: Option and
  Result, substring tests, decimal rendering, join and flatten.

Collaborators and how they appear:

- A language-model agent's `invoke` is a parameter `invoke: string -> Reply`.
  It maps the user message to the agent's message list or to the exception
  it raised.
- Chroma is a `Backend` value. It says whether the persisted directory exists,
  whether reopening the store raises, and what a similarity search returns or
  raises. A vector store is an opaque handle that only records how it was
  obtained.
- The PDF directory is a `PdfDirectory` value. It holds the files in glob
  order, and each file carries the outcome of loading it. The splitter is a
  parameter `split: seq<Doc> -> seq<Doc>`.
- The `{:.2f}` rendering of a float is a parameter `render: real -> string`.
- A raised exception is `Failure(message)` wherever the source re-raises it.

The code is simpler than a reader might expect in these places, and the model follows the code:

- The code never builds a structured recommendation enum. `main.py` labels
  a result "买入" when the analysis text contains that word and "持有"
  otherwise. `Api.Recommendation` models exactly that heuristic.
- No coordination step calls specialists according to the scope flags. The
  flags only change the "分析范围" line of the supervisor's prompt. An empty
  flag set gives the text "全面分析", and the language model decides which
  specialists to call. So the model makes no claim about how many
  specialists run.
- A specialist failure becomes a plain error string
  ("错误：<role>分析失败 - <msg>"), not a structured result.
- The lazy singleton is an unguarded check-then-create. The model claims
  "created at most once" only for sequential use. A creation that raises
  leaves the cache empty, so the next call tries again.
- A rebuild is `Chroma.from_documents` into the same directory. Whether that
  replaces or extends the earlier collection is library behaviour. The model
  makes no full-replace claim.

## Model

| member | source | states |
|---|---|---|
| Valuation.PeRatio | src/tools/valuation.py:6-8 | The ratio is defined exactly when eps > 0, eps = 0 included in the rejection, and then ratio × eps = price. |
| Valuation.PeRatioTool | src/tools/valuation.py:4-9 | The rejection text "无法计算：每股收益为负" comes back exactly when eps ≤ 0. Otherwise the output starts with the ticker and reports price / eps. |
| Valuation.ReportIsNotRejection | src/tools/valuation.py:7-9 | A report that starts with a ticker followed by a space can never equal the rejection text, whatever the ticker is. |
| Valuation.IntrinsicValue | src/tools/valuation.py:14-16 | The value is defined exactly when discount rate > growth rate, so the denominator is strictly positive. Then value × (r − g) = fcf × (1 + g). |
| Valuation.IntrinsicValueTool | src/tools/valuation.py:12-17 | "折现率必须大于增长率" comes back exactly when discount rate ≤ growth rate. Otherwise the output is the labelled value. |
| Valuation.PeRatioExamples | src/tools/valuation.py:6-9 | 150 / 10 gives 15. eps = 0 is rejected. |
| Valuation.IntrinsicValueExamples | src/tools/valuation.py:14-16 | Equal rates (3%, 3%) are rejected. fcf 100 at g = 2%, r = 10% gives 1275. |
| Valuation.IntrinsicValueIncreasesWithGrowth | src/tools/valuation.py:16 | Take positive cash flow and r > −1. A higher growth rate below r gives a strictly higher value. |
| Valuation.IntrinsicValueDecreasesWithDiscount | src/tools/valuation.py:16 | Take positive cash flow and g > −1. A higher discount rate gives a strictly lower value. |
| FinancialTools.RetrievalQuery | src/tools/financial.py:7 | The retrieval query is the ticker, then one space, then the topic, both verbatim. |
| FinancialTools.StatementsReport | src/tools/financial.py:8 | The report contains the ticker and the question. It ends with the retrieved context verbatim, and its header does not depend on the context. |
| FinancialTools.MetricsReport | src/tools/financial.py:14 | The report contains "ticker metric". It ends with the retrieved context verbatim, and its header does not depend on the context. |
| FinancialTools.ReportsKeepContext | src/tools/financial.py:5-14 | For a fixed ticker and topic, distinct contexts give distinct reports. The report loses nothing of what was retrieved, "" included. |
| FinancialTools.AnalyzeFinancialStatements | src/tools/financial.py:4-8 | Calls the retrieval service exactly once (its call counter rises by one), for "ticker query". The new service state is that retrieval step's, and the report is the fixed header followed by its answer. |
| FinancialTools.ExtractKeyMetrics | src/tools/financial.py:10-14 | Calls the retrieval service exactly once (its call counter rises by one), for "ticker metric". The new service state is that retrieval step's, and the report is the fixed header followed by its answer. |
| DocumentLoader.CompanyId | src/rag/loader.py:29 | The company id is a prefix of the stem and contains no "_". It is the whole stem or stops right before the first "_". |
| DocumentLoader.CompanyIdUnique | src/rag/loader.py:29 | Those three properties determine the company id uniquely. |
| DocumentLoader.FilePagesTagged | src/rag/loader.py:23-31 | A failed file gives no pages. A loaded file gives each of its pages once, in order, with its text kept and the same company id set in its metadata. |
| DocumentLoader.AccumulatedAppend | src/rag/loader.py:22-31 | Pages are accumulated in file order and then in page order within each file. |
| DocumentLoader.FailedFileSkipped | src/rag/loader.py:23-33 | A file whose load raises contributes nothing, and the files after it still contribute. |
| DocumentLoader.AccumulatedTagged | src/rag/loader.py:28-31 | Every accumulated page has a company entry equal to the company id of one of the listed files. |
| DocumentLoader.TagPages | src/rag/loader.py:28-29 | The loop sets the company entry of every page to the given id and changes nothing else. |
| DocumentLoader.LoadAllPdfs | src/rag/loader.py:14-35 | A missing directory gives []. Otherwise the splitter is applied once to the whole accumulated page list. |
| Rag.ContextAppend | src/rag/retriever.py:96-99 | The context of a + b is the context of a followed by that of b, whose numbering continues after a's. |
| Rag.BlockAt | src/rag/retriever.py:96-99 | There is exactly one block per retrieved chunk. Chunk i's block is numbered first + i and stands between the blocks of the chunks before and after it. |
| Rag.ContextEmptyIff | src/rag/retriever.py:91-99 | The formatted context is "" exactly when no chunk was retrieved. |
| Rag.FormatContext | src/rag/retriever.py:95-99 | The loop builds the blocks "\n=== 文档 i [company or Unknown] ===\n" + content + "\n", numbered from 1 in returned order. |
| Rag.Answer | src/rag/retriever.py:87-102 | The answer is "" exactly when the search raises or finds nothing. Otherwise it is the formatted context. |
| Rag.RetrieveStep | src/rag/retriever.py:67-106 | A retriever in place is used without a reload. With no retriever and no persisted directory, the result is "" and both fields stay unset. A failed reopen also gives "" with no change. A successful reload installs the reopened store with k = 5. Any non-empty answer comes from a search on the retriever now in place. |
| Rag.InitializeStep | src/rag/retriever.py:33-65 | No documents gives "没有可用的 PDF 文件" and no field changes, so an existing retriever survives. A failed build gives "初始化失败: " + msg and no change. A successful build sets both fields with k = 5, and the message contains the chunk count. |
| Rag.LoadedStateIsStable | src/rag/retriever.py:71 | Once a retriever is set, any series of later queries leaves the fields as they are. |
| Rag.ReloadAtMostOnce | src/rag/retriever.py:71-82 | The state installed by the first query that sets a retriever is the state after every later query. |
| Rag.QueryAfterBuild | src/rag/retriever.py:41-55 | After a successful build, a query searches the built store with k = 5 and never consults the persisted directory. |
| Rag.RAGSystem.constructor | src/rag/retriever.py:17-31 | A new service has neither a store nor a retriever. |
| Rag.RAGSystem.Initialize | src/rag/retriever.py:33-65 | Runs the loader, then updates the fields and returns the message as InitializeStep says. |
| Rag.RAGSystem.Retrieve | src/rag/retriever.py:67-106 | Updates the fields and returns the context as RetrieveStep says, and counts one call. It never raises. |
| Supervisor.Reframe | src/agents/supervisor.py:27-36 | Each specialist's message is a role-specific reframing. It contains the ticker and ends with the question verbatim. |
| Supervisor.ReframesDiffer | src/agents/supervisor.py:27-102 | The three roles turn the same ticker and question into three different messages. |
| Supervisor.SpecialistText | src/agents/supervisor.py:38-45 | A raised error gives "错误：<role>分析失败 - <msg>". An empty message list gives "<role>分析无结果". Otherwise the result is the last message's content. |
| Supervisor.CallSpecialist | src/agents/supervisor.py:15-111 | The result is always a string, taken from the reply to the reframed message. An exception gives the role's error text. |
| Supervisor.CallSpecialistDependsOnlyOnReply | src/agents/supervisor.py:27-45 | Two agents that answer the reframed message alike give the same tool result. |
| Supervisor.Preferences | src/agents/supervisor.py:194-200 | The list holds "财务状况分析", "市场动向分析" and "价值评估分析" exactly for the true flags, each once, in that fixed order. |
| Supervisor.BuildPreferences | src/agents/supervisor.py:194-200 | The appending code builds that same list. |
| Supervisor.ScopeText | src/agents/supervisor.py:211 | With no labels the scope line is "全面分析". A single label is the line itself, and every chosen label appears in the line. |
| Supervisor.ScopeIsWholeIffNoFlags | src/agents/supervisor.py:211 | The scope text is "全面分析" exactly when all three flags are false. |
| Supervisor.FinancialInScopeIff | src/agents/supervisor.py:194-211 | "财务状况分析" appears in the scope line exactly when include_financial is true. |
| Supervisor.MarketInScopeIff | src/agents/supervisor.py:194-211 | "市场动向分析" appears in the scope line exactly when include_market is true. |
| Supervisor.ValuationInScopeIff | src/agents/supervisor.py:194-211 | "价值评估分析" appears in the scope line exactly when include_valuation is true. |
| Supervisor.FullPrompt | src/agents/supervisor.py:203-225 | The supervisor prompt contains the ticker, the question and the scope text verbatim. |
| Supervisor.AnalysisPromptCarriesRequest | src/agents/supervisor.py:203-211 | For every flag combination, the prompt sent carries the ticker, the question and the scope line built from the flags. |
| Supervisor.FinalResult | src/agents/supervisor.py:240-253 | An exception comes back as a failure with its message and is never converted. An empty message list gives exactly "分析失败：没有得到响应". Otherwise the result is the last message's content. |
| Supervisor.SupervisorAgent.constructor | src/agents/supervisor.py:116-130 | The supervisor agent is bound to the three specialist tools. |
| Supervisor.SupervisorCache.constructor | src/agents/supervisor.py:134 | The cache starts empty. |
| Supervisor.SupervisorCache.GetSupervisor | src/agents/supervisor.py:137-149 | The agent is created only when the cache is empty, at most once in total, and every later call returns the cached instance. If creation raises, the exception is returned, the cache stays empty and nothing is counted as created, so the next call tries again. |
| Supervisor.SupervisorIsShared | src/agents/supervisor.py:137-149 | For any cache: once a call has returned an agent, the next call returns that same agent. After a failed creation, a next call whose creation does not raise succeeds. |
| Supervisor.SupervisorCache.AnalyzeStockInvestment | src/agents/supervisor.py:152-253 | A cached supervisor is kept. If the cache is empty and creation raises, that exception is the outcome, the supervisor is not invoked and the cache stays empty. Otherwise the cache holds the supervisor, it is invoked exactly once (its invocation counter rises by one) on the prompt built from the ticker, the question and the flags, and the outcome is the final result or the exception raised by the call. |
| Supervisor.ReadReply | src/agents/supervisor.py:239-253 | Reading the reply gives the final result: the last message, the no-response text, or the raised exception. |
| Supervisor.SupervisorCache.QuickAnalyze | src/agents/supervisor.py:257-274 | The full analysis with all three flags true, with the same guarantees: a cached supervisor is kept, at most one is ever created, a raising creation is the outcome without an invocation, and otherwise the supervisor is invoked exactly once. |
| Api.EndpointFlags | main.py:161-299 | /api/analyze turns all three flags on. Each single-role endpoint turns on its own flag and no other. |
| Api.EndpointScopes | main.py:158-300 | /api/analyze passes three flags and each single-role endpoint one. Each single-role endpoint's scope line is its own analysis label, and no endpoint gets the "全面分析" fallback. |
| Api.Recommendation | main.py:174 | The label is "买入" exactly when the analysis contains "买入" as a substring, and "持有" otherwise. |
| Api.AnalysisResponse | main.py:169-176 | The response copies ticker, query and analysis, carries that recommendation, and always has target_price = None. |
| Api.RagQueryString | main.py:341 | With a non-empty ticker, the query string is ticker + " " + query, the same as the financial tools build. Otherwise, including an empty ticker, it is the query alone. |
| Api.RagResults | main.py:349 | The results are never empty: "未找到相关财报信息" replaces "", and any other context passes through unchanged. |
| Api.AnalyzeEndpoint | main.py:158-300 | Each endpoint's result is the analysis outcome for its fixed flags. The cached supervisor is kept, at most one is created, a raising creation is the outcome, and otherwise the supervisor is invoked exactly once. |
| Api.RagQuery | main.py:337-351 | Exactly one retrieval (the call counter rises by one) for the composed query string. Its answer goes through the fallback. |

## Left out

- Language-model calls (`invoke`, `ChatOpenAI`) are parameters, and whether `create_agent` raises is the parameter `createError`. The model cannot know which specialists the supervisor's model decides to call.
- The Chroma store, the embeddings, similarity ranking, tie-breaking, `k`-limiting of search results and the persistence layout are library behaviour. The search is an arbitrary function of the handle and the query.
- Rag.RAGSystem.Initialize: exceptions raised by the loader itself (the directory walk, the splitter) and by `as_retriever` are not modelled. Only a failure of `Chroma.from_documents` becomes "初始化失败: ...".
- Rag.RAGSystem.Retrieve: an exception from `as_retriever` after a successful reopen is not modelled. Reopening and searching may fail. The formatting loop cannot fail in the model.
- DocumentLoader.LoadAllPdfs: PDF parsing, the glob walk and `RecursiveCharacterTextSplitter` (chunk size 1000, overlap 200) are inputs or parameters. The in-place update of shared `doc.metadata` dictionaries becomes a value update, so aliasing between page objects is not captured.
- The `print` of a failed file's name is output only and is not modelled.
- Float formatting (`{:.2f}`) and IEEE arithmetic are not modelled. Values are exact reals, and the rendering is a parameter.
- The HTTP layer outside the listed decisions is not modelled: routing, CORS, lifespan, logging, `datetime.now()` timestamps, and the mapping of exceptions to HTTP 500 responses.
- The three specialist agents' own lazy singletons (`get_financial_analyst` and the others) follow the same pattern as `get_supervisor`. Only that one is modelled.
- `src/tools/market.py` holds fixed stub strings and is not part of this model. Neither are configuration loading and the pydantic records, beyond the constants and the response shape used here.
- Concurrency is not modelled. The handlers are `async` but take no locks, and the singleton claim holds for sequential use only.
