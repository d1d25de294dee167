/** The pure decisions of the HTTP layer (main.py): the scope flags each
    analysis endpoint passes, the recommendation label, the RAG query string
    and the empty-result fallback. Routing, timestamps and the mapping of
    exceptions to HTTP 500 responses are not part of this model. */
module Api {
  import opened Wrappers
  import opened Text
  import opened Rag
  import opened Supervisor
  import FinancialTools

  const Buy: string := "买入"
  const Hold: string := "持有"
  const NoReportFound: string := "未找到相关财报信息"

  /** The four analysis endpoints. */
  datatype Endpoint = AnalyzeAll | AnalyzeFinancial | AnalyzeMarket | AnalyzeValuation

  datatype Flags = Flags(financial: bool, market: bool, valuation: bool)

  /** The include flags each endpoint passes to `analyze_stock_investment`. */
  function EndpointFlags(e: Endpoint): (f: Flags)
    ensures f.financial <==> e == AnalyzeAll || e == AnalyzeFinancial
    ensures f.market <==> e == AnalyzeAll || e == AnalyzeMarket
    ensures f.valuation <==> e == AnalyzeAll || e == AnalyzeValuation
  {
    match e
    case AnalyzeAll => Flags(true, true, true)
    case AnalyzeFinancial => Flags(true, false, false)
    case AnalyzeMarket => Flags(false, true, false)
    case AnalyzeValuation => Flags(false, false, true)
  }

  function CountOn(f: Flags): nat {
    (if f.financial then 1 else 0) + (if f.market then 1 else 0) + (if f.valuation then 1 else 0)
  }

  /** The scope line of the prompt an endpoint's analysis sends. */
  function EndpointScope(e: Endpoint): string {
    ScopeText(Preferences(EndpointFlags(e).financial, EndpointFlags(e).market, EndpointFlags(e).valuation))
  }

  /** `/api/analyze` asks for every analysis; each single-role endpoint asks
      for exactly its own, so its scope line names that analysis alone. */
  lemma EndpointScopes(e: Endpoint)
    ensures e == AnalyzeAll <==> CountOn(EndpointFlags(e)) == 3
    ensures e != AnalyzeAll <==> CountOn(EndpointFlags(e)) == 1
    ensures e == AnalyzeFinancial ==> EndpointScope(e) == FinancialScope
    ensures e == AnalyzeMarket ==> EndpointScope(e) == MarketScope
    ensures e == AnalyzeValuation ==> EndpointScope(e) == ValuationScope
    ensures EndpointScope(e) != WholeScope
  {
  }

  /** The recommendation label: "买入" exactly when the analysis mentions
      "买入" anywhere, otherwise "持有". */
  function Recommendation(analysis: string): (verdict: string)
    ensures verdict == Buy <==> Contains(analysis, Buy)
    ensures verdict == Buy || verdict == Hold
  {
    if Contains(analysis, Buy) then Buy else Hold
  }

  /** The `/api/analyze` response body (its timestamp left aside). */
  datatype StockAnalysisResponse = StockAnalysisResponse(
    stockTicker: string, query: string, analysis: string,
    recommendation: Option<string>, targetPrice: Option<real>)

  function AnalysisResponse(ticker: string, query: string, analysis: string): (resp: StockAnalysisResponse)
    ensures resp.stockTicker == ticker && resp.query == query && resp.analysis == analysis
    ensures resp.recommendation == Some(Recommendation(analysis))
    ensures resp.targetPrice == None
  {
    StockAnalysisResponse(ticker, query, analysis, Some(Recommendation(analysis)), None)
  }

  /** The query string of `/api/rag/query`: the ticker, a space and the
      query when a non-empty ticker is given, else the query alone. */
  function RagQueryString(query: string, ticker: Option<string>): (q: string)
    ensures ticker.None? || ticker.value == "" ==> q == query
    ensures ticker.Some? && ticker.value != "" ==> q == FinancialTools.RetrievalQuery(ticker.value, query)
    ensures EndsWith(q, query)
  {
    match ticker
    case Some(t) => if t != "" then t + " " + query else query
    case None => query
  }

  /** The "results" field of `/api/rag/query`: never empty, and the context
      itself whenever something was retrieved. */
  function RagResults(context: string): (results: string)
    ensures results != ""
    ensures context != "" ==> results == context
    ensures context == "" ==> results == NoReportFound
  {
    if context != "" then context else NoReportFound
  }

  /** An analysis endpoint: run the coordinated analysis with the endpoint's
      flags; an exception comes back as a failure. */
  method AnalyzeEndpoint(cache: SupervisorCache, e: Endpoint, ticker: string, query: string,
                         createError: Option<string>, invoke: string -> Reply)
    returns (outcome: Result<string, string>)
    requires cache.Valid()
    modifies cache
    ensures cache.Valid() && cache.creations <= 1
    ensures old(cache.supervisor) != null ==> cache.supervisor == old(cache.supervisor)
    ensures old(cache.supervisor) == null && createError.Some? ==>
      cache.supervisor == null && outcome == Failure(createError.value)
      && cache.invocations == old(cache.invocations)
    ensures old(cache.supervisor) != null || createError.None? ==>
      cache.supervisor != null && cache.invocations == old(cache.invocations) + 1
      && outcome == AnalysisOutcome(ticker, query,
        EndpointFlags(e).financial, EndpointFlags(e).market, EndpointFlags(e).valuation, invoke)
  {
    match e {
      case AnalyzeAll =>
        outcome := cache.AnalyzeStockInvestment(ticker, query, true, true, true, createError, invoke);
      case AnalyzeFinancial =>
        outcome := cache.AnalyzeStockInvestment(ticker, query, true, false, false, createError, invoke);
      case AnalyzeMarket =>
        outcome := cache.AnalyzeStockInvestment(ticker, query, false, true, false, createError, invoke);
      case AnalyzeValuation =>
        outcome := cache.AnalyzeStockInvestment(ticker, query, false, false, true, createError, invoke);
    }
  }

  /** `/api/rag/query`: one retrieval for the composed query string, with the
      fallback text in place of an empty answer. */
  method RagQuery(rag: RAGSystem, query: string, ticker: Option<string>, backend: Backend)
    returns (results: string)
    modifies rag
    ensures var (s, context) := RetrieveStep(old(rag.State()), RagQueryString(query, ticker), backend);
      rag.State() == s && results == RagResults(context)
    ensures rag.retrievals == old(rag.retrievals) + 1
    ensures results != ""
  {
    var context := rag.Retrieve(RagQueryString(query, ticker), backend);
    results := RagResults(context);
  }
}
