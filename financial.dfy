/** The financial specialist's two tools (src/tools/financial.py): each asks
    the retrieval service once and wraps what comes back in a fixed header. */
module FinancialTools {
  import opened Text
  import opened Rag

  /** The retrieval query both tools send: ticker, a space, then the topic. */
  function RetrievalQuery(ticker: string, topic: string): (q: string)
    ensures ticker <= q && EndsWith(q, topic) && |q| == |ticker| + 1 + |topic|
    ensures q[|ticker|] == ' '
  {
    ticker + " " + topic
  }

  /** The report of `analyze_financial_statements` around a retrieved context. */
  function StatementsReport(ticker: string, query: string, context: string): (r: string)
    ensures EndsWith(r, context)
    ensures Contains(r, ticker) && Contains(r, query)
    ensures r[..|r| - |context|] == StatementsHeader(ticker, query)
  {
    var r := StatementsHeader(ticker, query) + context;
    var p1 := "财务分析\n";
    var p2 := p1 + ticker + "\n问题: ";
    assert r == p1 + ticker + ("\n问题: " + query + "\n\n相关数据:\n" + context);
    ContainsInfix(p1, ticker, "\n问题: " + query + "\n\n相关数据:\n" + context);
    assert r == p2 + query + ("\n\n相关数据:\n" + context);
    ContainsInfix(p2, query, "\n\n相关数据:\n" + context);
    r
  }

  function StatementsHeader(ticker: string, query: string): string {
    "财务分析\n" + ticker + "\n问题: " + query + "\n\n相关数据:\n"
  }

  /** The report of `extract_key_metrics` around a retrieved context. */
  function MetricsReport(ticker: string, metricType: string, context: string): (r: string)
    ensures EndsWith(r, context)
    ensures Contains(r, ticker + " " + metricType)
    ensures r[..|r| - |context|] == MetricsHeader(ticker, metricType)
  {
    var r := MetricsHeader(ticker, metricType) + context;
    assert r == "关键指标\n" + (ticker + " " + metricType) + ("\n\n数据:\n" + context);
    ContainsInfix("关键指标\n", ticker + " " + metricType, "\n\n数据:\n" + context);
    r
  }

  function MetricsHeader(ticker: string, metricType: string): string {
    "关键指标\n" + ticker + " " + metricType + "\n\n数据:\n"
  }

  /** The header does not depend on what was retrieved, so a report gives
      back exactly the context it was built from. */
  lemma ReportsKeepContext(ticker: string, topic: string, c1: string, c2: string)
    ensures StatementsReport(ticker, topic, c1) == StatementsReport(ticker, topic, c2) ==> c1 == c2
    ensures MetricsReport(ticker, topic, c1) == MetricsReport(ticker, topic, c2) ==> c1 == c2
  {
  }

  /** `analyze_financial_statements`: one retrieval for "ticker query",
      whose result (possibly "") ends the report. */
  method AnalyzeFinancialStatements(rag: RAGSystem, ticker: string, query: string, backend: Backend)
    returns (report: string)
    modifies rag
    ensures var (s, context) := RetrieveStep(old(rag.State()), RetrievalQuery(ticker, query), backend);
      rag.State() == s && report == StatementsReport(ticker, query, context)
    ensures rag.retrievals == old(rag.retrievals) + 1
  {
    var context := rag.Retrieve(RetrievalQuery(ticker, query), backend);
    report := StatementsHeader(ticker, query) + context;
  }

  /** `extract_key_metrics`: one retrieval for "ticker metric", whose result
      (possibly "") ends the report. */
  method ExtractKeyMetrics(rag: RAGSystem, ticker: string, metricType: string, backend: Backend)
    returns (report: string)
    modifies rag
    ensures var (s, context) := RetrieveStep(old(rag.State()), RetrievalQuery(ticker, metricType), backend);
      rag.State() == s && report == MetricsReport(ticker, metricType, context)
    ensures rag.retrievals == old(rag.retrievals) + 1
  {
    var context := rag.Retrieve(RetrievalQuery(ticker, metricType), backend);
    report := MetricsHeader(ticker, metricType) + context;
  }
}
