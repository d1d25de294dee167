/** The coordination glue of src/agents/supervisor.py: the three specialist
    tools, the cached supervisor agent, and the analysis entry points. The
    language-model agents are collaborators: what an agent's `invoke`
    returns for a given user message is the caller-supplied `invoke`. */
module Supervisor {
  import opened Wrappers
  import opened Text

  datatype Role = Financial | Market | Valuation

  /** One chat message; only its content is read. */
  datatype Message = Message(content: string)

  /** What an agent's `invoke` gives back: the list under "messages" (an
      absent key reads as the empty list), or the exception it raised. */
  datatype Reply = Replied(messages: seq<Message>) | Raised(error: string)

  /** The role's name as it appears in the tools' fallback and error texts. */
  function RoleName(role: Role): string {
    match role
    case Financial => "财务"
    case Market => "市场"
    case Valuation => "估值"
  }

  /** The user message each specialist receives: a role-specific reframing
      of the question that keeps the ticker and the question verbatim. */
  function Reframe(role: Role, ticker: string, query: string): (prompt: string)
    ensures Contains(prompt, ticker) && Contains(prompt, query)
    ensures EndsWith(prompt, query)
  {
    var (before, between) := match role
      case Financial => ("对 ", " 进行财务分析：")
      case Market => ("分析 ", " 的市场情况：")
      case Valuation => ("评估 ", " 的价值：");
    ContainsInfix(before, ticker, between + query);
    ContainsInfix(before + ticker + between, query, "");
    assert before + ticker + between + query == before + ticker + (between + query);
    assert before + ticker + between + query + "" == before + ticker + between + query;
    before + ticker + between + query
  }

  /** Each role reframes the same question differently. */
  lemma ReframesDiffer(r1: Role, r2: Role, ticker: string, query: string)
    requires r1 != r2
    ensures Reframe(r1, ticker, query) != Reframe(r2, ticker, query)
  {
    assert Reframe(r1, ticker, query)[0] != Reframe(r2, ticker, query)[0];
  }

  /** The text a specialist tool returns for a reply: the last message's
      content, the role's "no result" text, or the role's error text. */
  function SpecialistText(role: Role, reply: Reply): (text: string)
    ensures reply.Raised? ==> text == "错误：" + RoleName(role) + "分析失败 - " + reply.error
    ensures reply == Replied([]) ==> text == RoleName(role) + "分析无结果"
    ensures reply.Replied? && reply.messages != [] ==>
      text == reply.messages[|reply.messages| - 1].content
  {
    match reply
    case Raised(e) => "错误：" + RoleName(role) + "分析失败 - " + e
    case Replied(messages) =>
      if messages != [] then messages[|messages| - 1].content else RoleName(role) + "分析无结果"
  }

  /** `call_financial_analyst`, `call_market_analyst`, `call_valuation_expert`:
      invoke the role's agent once on the reframed question. The result is
      always a string; a raised exception becomes the role's error text. */
  function CallSpecialist(role: Role, ticker: string, query: string, invoke: string -> Reply): (text: string)
    ensures invoke(Reframe(role, ticker, query)).Raised? ==>
      "错误：" + RoleName(role) + "分析失败 - " <= text
    ensures text == SpecialistText(role, invoke(Reframe(role, ticker, query)))
  {
    var reply := invoke(Reframe(role, ticker, query));
    SpecialistText(role, reply)
  }

  /** The outcome depends on the question only through the reframed message:
      two agents that answer that message alike give the same text. */
  lemma CallSpecialistDependsOnlyOnReply(role: Role, ticker: string, query: string, i1: string -> Reply, i2: string -> Reply)
    requires i1(Reframe(role, ticker, query)) == i2(Reframe(role, ticker, query))
    ensures CallSpecialist(role, ticker, query, i1) == CallSpecialist(role, ticker, query, i2)
  {
  }

  const FinancialScope: string := "财务状况分析"
  const MarketScope: string := "市场动向分析"
  const ValuationScope: string := "价值评估分析"
  const WholeScope: string := "全面分析"
  const NoResponse: string := "分析失败：没有得到响应"

  /** The position of a scope label in the fixed order. */
  function ScopeRank(name: string): int {
    if name == FinancialScope then 0
    else if name == MarketScope then 1
    else if name == ValuationScope then 2
    else -1
  }

  /** The analysis-preference list for three flags. */
  function Preferences(financial: bool, market: bool, valuation: bool): (prefs: seq<string>)
    ensures FinancialScope in prefs <==> financial
    ensures MarketScope in prefs <==> market
    ensures ValuationScope in prefs <==> valuation
    ensures forall i | 0 <= i < |prefs| :: ScopeRank(prefs[i]) >= 0
    ensures forall i, j | 0 <= i < j < |prefs| :: ScopeRank(prefs[i]) < ScopeRank(prefs[j])
  {
    (if financial then [FinancialScope] else [])
      + (if market then [MarketScope] else [])
      + (if valuation then [ValuationScope] else [])
  }

  /** The preference list as `analyze_stock_investment` builds it, by appending. */
  method BuildPreferences(financial: bool, market: bool, valuation: bool) returns (prefs: seq<string>)
    ensures prefs == Preferences(financial, market, valuation)
  {
    prefs := [];
    if financial {
      prefs := prefs + [FinancialScope];
    }
    if market {
      prefs := prefs + [MarketScope];
    }
    if valuation {
      prefs := prefs + [ValuationScope];
    }
  }

  /** The "分析范围" line: the labels joined by ", ", or "全面分析" for none. */
  function ScopeText(prefs: seq<string>): (scope: string)
    ensures prefs == [] ==> scope == WholeScope
    ensures |prefs| == 1 ==> scope == prefs[0]
    ensures forall p | p in prefs :: Contains(scope, p)
  {
    if prefs == [] then WholeScope else Join(prefs, ", ")
  }

  /** The fallback text appears exactly when every flag is off. */
  lemma ScopeIsWholeIffNoFlags(financial: bool, market: bool, valuation: bool)
    ensures ScopeText(Preferences(financial, market, valuation)) == WholeScope
      <==> !financial && !market && !valuation
  {
  }

  /** A label whose first character is in no chosen label, not in ", " and
      not in the fallback text is absent from the scope line. */
  lemma LabelAbsent(prefs: seq<string>, name: string)
    requires name != [] && name[0] !in ", " && name[0] !in WholeScope
    requires forall p | p in prefs :: name[0] !in p
    ensures !Contains(ScopeText(prefs), name)
  {
    if prefs != [] {
      JoinAvoids(prefs, ", ", name[0]);
    }
    MissingFirstChar(ScopeText(prefs), name);
  }

  /** "财务状况分析" is in the scope line exactly when financial analysis is asked for. */
  lemma FinancialInScopeIff(financial: bool, market: bool, valuation: bool)
    ensures Contains(ScopeText(Preferences(financial, market, valuation)), FinancialScope) <==> financial
  {
    if !financial {
      LabelAbsent(Preferences(financial, market, valuation), FinancialScope);
    }
  }

  /** "市场动向分析" is in the scope line exactly when market analysis is asked for. */
  lemma MarketInScopeIff(financial: bool, market: bool, valuation: bool)
    ensures Contains(ScopeText(Preferences(financial, market, valuation)), MarketScope) <==> market
  {
    if !market {
      LabelAbsent(Preferences(financial, market, valuation), MarketScope);
    }
  }

  /** "价值评估分析" is in the scope line exactly when valuation is asked for. */
  lemma ValuationInScopeIff(financial: bool, market: bool, valuation: bool)
    ensures Contains(ScopeText(Preferences(financial, market, valuation)), ValuationScope) <==> valuation
  {
    if !valuation {
      LabelAbsent(Preferences(financial, market, valuation), ValuationScope);
    }
  }

  const PromptHead: string := "\n========================================\n股票投资分析请求\n========================================\n\n股票代码: "
  const QueryLabel: string := "\n用户问题: "
  const ScopeLabel: string := "\n\n分析范围: "
  const PromptTail: string := "\n\n========================================\n请根据用户偏好调用相应的分析代理，然后综合所有信息提供投资建议。\n\n最终建议应包含以下内容：\n1. 财务评分（1-10分）\n2. 市场评分（1-10分）\n3. 估值评分（1-10分）\n4. 综合建议（强烈买入/买入/持有/卖出/强烈卖出）\n5. 目标价格范围\n6. 关键风险\n7. 投资时间框架建议\n========================================\n"

  /** The full prompt given to the supervisor agent. */
  function FullPrompt(ticker: string, query: string, scope: string): (prompt: string)
    ensures Contains(prompt, ticker) && Contains(prompt, query) && Contains(prompt, scope)
  {
    ContainsFields(PromptHead, ticker, QueryLabel, query, ScopeLabel, scope, PromptTail);
    PromptHead + ticker + QueryLabel + query + ScopeLabel + scope + PromptTail
  }

  /** The prompt `analyze_stock_investment` sends for a request. */
  function AnalysisPrompt(ticker: string, query: string, financial: bool, market: bool, valuation: bool): string {
    FullPrompt(ticker, query, ScopeText(Preferences(financial, market, valuation)))
  }

  /** The text taken from the supervisor's reply: the last message's content,
      or the explicit "no response" text; a raised exception is passed on. */
  function FinalResult(reply: Reply): (r: Result<string, string>)
    ensures r.Failure? <==> reply.Raised?
    ensures reply.Raised? ==> r.error == reply.error
    ensures reply.Replied? && reply.messages == [] ==> r == Success(NoResponse)
    ensures reply.Replied? && reply.messages != [] ==>
      r == Success(reply.messages[|reply.messages| - 1].content)
  {
    match reply
    case Raised(e) => Failure(e)
    case Replied(messages) =>
      if messages != [] then Success(messages[|messages| - 1].content) else Success(NoResponse)
  }

  /** How `analyze_stock_investment` reads the supervisor's reply, step by
      step; proved equal to FinalResult, and kept apart from the analysis
      method so that method's proof stays small. */
  method ReadReply(reply: Reply) returns (outcome: Result<string, string>)
    ensures outcome == FinalResult(reply)
  {
    match reply {
      case Raised(e) =>
        outcome := Failure(e);
      case Replied(messages) =>
        if messages != [] {
          outcome := Success(messages[|messages| - 1].content);
        } else {
          outcome := Success(NoResponse);
        }
    }
  }

  /** What `analyze_stock_investment` returns or raises. */
  function AnalysisOutcome(ticker: string, query: string, financial: bool, market: bool, valuation: bool,
                           invoke: string -> Reply): Result<string, string>
  {
    FinalResult(invoke(AnalysisPrompt(ticker, query, financial, market, valuation)))
  }

  /** The prompt always carries the ticker, the question and the scope line verbatim. */
  lemma AnalysisPromptCarriesRequest(ticker: string, query: string, f: bool, m: bool, v: bool)
    ensures Contains(AnalysisPrompt(ticker, query, f, m, v), ticker)
    ensures Contains(AnalysisPrompt(ticker, query, f, m, v), query)
    ensures Contains(AnalysisPrompt(ticker, query, f, m, v), ScopeText(Preferences(f, m, v)))
  {
  }

  /** The supervisor agent: `create_agent` bound to the three specialist tools. */
  class SupervisorAgent {
    const tools: seq<Role>

    /** `create_supervisor_agent`. */
    constructor ()
      ensures tools == [Financial, Market, Valuation]
    {
      tools := [Financial, Market, Valuation];
    }
  }

  /** The module-level cache `_supervisor`, and the entry points that use it. */
  class SupervisorCache {
    var supervisor: SupervisorAgent?
    /** How many times `create_supervisor_agent` has run. */
    ghost var creations: nat
    /** How many times the supervisor agent has been invoked. */
    ghost var invocations: nat

    ghost predicate Valid()
      reads this
    {
      && creations == (if supervisor == null then 0 else 1)
      && (supervisor != null ==> supervisor.tools == [Financial, Market, Valuation])
    }

    constructor ()
      ensures Valid() && supervisor == null && invocations == 0
    {
      supervisor := null;
      creations := 0;
      invocations := 0;
    }

    /** `get_supervisor`: create the agent on first use, then always return
        the cached one. `createError` is what `create_supervisor_agent` raises
        if it is called now: on a raise the cache stays empty, so the next
        call tries again. */
    method GetSupervisor(createError: Option<string>) returns (agent: Result<SupervisorAgent, string>)
      requires Valid()
      modifies this
      ensures Valid() && creations <= 1 && invocations == old(invocations)
      ensures agent.Success? <==> supervisor != null
      ensures agent.Success? ==> supervisor == agent.value && agent.value.tools == [Financial, Market, Valuation]
      ensures old(supervisor) != null ==> agent == Success(old(supervisor)) && creations == old(creations)
      ensures old(supervisor) == null && createError.Some? ==>
        agent == Failure(createError.value) && creations == old(creations)
      ensures old(supervisor) == null && createError.None? ==>
        agent.Success? && fresh(agent.value) && creations == old(creations) + 1
    {
      if supervisor == null {
        if createError.Some? {
          return Failure(createError.value);
        }
        supervisor := new SupervisorAgent();
        creations := creations + 1;
      }
      agent := Success(supervisor);
    }

    /** `analyze_stock_investment`: fetch the cached supervisor, build the
        prompt from the ticker, the question and the scope flags, invoke the
        supervisor once and return the last message; an exception raised on
        the way, by the creation of the supervisor or by its invocation, is
        passed on to the caller. */
    method AnalyzeStockInvestment(ticker: string, query: string, financial: bool, market: bool, valuation: bool,
                                  createError: Option<string>, invoke: string -> Reply)
      returns (outcome: Result<string, string>)
      requires Valid()
      modifies this
      ensures Valid() && creations <= 1
      ensures old(supervisor) != null ==> supervisor == old(supervisor)
      ensures old(supervisor) == null && createError.Some? ==>
        supervisor == null && outcome == Failure(createError.value) && invocations == old(invocations)
      ensures old(supervisor) != null || createError.None? ==>
        supervisor != null && invocations == old(invocations) + 1
        && outcome == AnalysisOutcome(ticker, query, financial, market, valuation, invoke)
    {
      var agent := GetSupervisor(createError);
      if agent.Failure? {
        return Failure(agent.error);
      }
      var prefs := BuildPreferences(financial, market, valuation);
      var scope := ScopeText(prefs);
      var prompt := FullPrompt(ticker, query, scope);
      var reply := invoke(prompt);
      invocations := invocations + 1;
      outcome := ReadReply(reply);
    }

    /** `quick_analyze`: the full analysis with every scope flag on. */
    method QuickAnalyze(ticker: string, query: string, createError: Option<string>, invoke: string -> Reply)
      returns (outcome: Result<string, string>)
      requires Valid()
      modifies this
      ensures Valid() && creations <= 1
      ensures old(supervisor) != null ==> supervisor == old(supervisor)
      ensures old(supervisor) == null && createError.Some? ==>
        supervisor == null && outcome == Failure(createError.value) && invocations == old(invocations)
      ensures old(supervisor) != null || createError.None? ==>
        supervisor != null && invocations == old(invocations) + 1
        && outcome == AnalysisOutcome(ticker, query, true, true, true, invoke)
    {
      outcome := AnalyzeStockInvestment(ticker, query, true, true, true, createError, invoke);
    }
  }

  /** Two uses of one cache share one supervisor: whatever the cache held
      before, two successful calls return the same agent, and a failed first
      creation is retried by the second call. */
  method SupervisorIsShared(cache: SupervisorCache, firstError: Option<string>, secondError: Option<string>)
    returns (first: Result<SupervisorAgent, string>, second: Result<SupervisorAgent, string>)
    requires cache.Valid()
    modifies cache
    ensures cache.Valid() && cache.creations <= 1
    ensures first.Success? ==> second == first
    ensures first.Failure? && secondError.None? ==> second.Success?
    ensures second.Success? ==> second.value.tools == [Financial, Market, Valuation]
  {
    first := cache.GetSupervisor(firstError);
    second := cache.GetSupervisor(secondError);
  }
}
