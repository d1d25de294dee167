/** The valuation specialist's two numeric tools (src/tools/valuation.py).
    Amounts are modelled as `real`; the two-decimal rendering of the result
    is the caller-supplied `render`. */
module Valuation {
  import opened Wrappers
  import opened Text

  /** Returned by the P/E tool when earnings per share is zero or negative. */
  const NonPositiveEpsMessage: string := "无法计算：每股收益为负"
  /** Returned by the DCF tool when the discount rate does not exceed the growth rate. */
  const RateOrderMessage: string := "折现率必须大于增长率"
  const PeLabel: string := " PE比率: "
  const IntrinsicValueLabel: string := "内在价值: $"

  /** The price/earnings ratio, undefined unless earnings per share is positive. */
  function PeRatio(price: real, eps: real): (pe: Option<real>)
    ensures pe.Some? <==> eps > 0.0
    ensures pe.Some? ==> pe.value * eps == price
  {
    if eps <= 0.0 then None else Some(price / eps)
  }

  /** `calculate_pe_ratio`: the rejection text, or the ticker followed by the ratio. */
  function PeRatioTool(ticker: string, price: real, eps: real, render: real -> string): (r: string)
    ensures r == NonPositiveEpsMessage <==> eps <= 0.0
    ensures eps > 0.0 ==> ticker <= r && r == ticker + PeLabel + render(PeRatio(price, eps).value)
  {
    match PeRatio(price, eps)
    case None => NonPositiveEpsMessage
    case Some(pe) =>
      var r := ticker + PeLabel + render(pe);
      assert r != NonPositiveEpsMessage by { ReportIsNotRejection(ticker, PeLabel + render(pe)); }
      r
  }

  /** A ticker-prefixed report can never be mistaken for the rejection text:
      the rejection text has no space, the report has one right after the ticker. */
  lemma ReportIsNotRejection(ticker: string, rest: string)
    requires rest != [] && rest[0] == ' '
    ensures ticker + rest != NonPositiveEpsMessage
  {
    var r := ticker + rest;
    assert r[|ticker|] == ' ';
    if |r| == |NonPositiveEpsMessage| {
      assert forall i | 0 <= i < |NonPositiveEpsMessage| :: NonPositiveEpsMessage[i] != ' ';
    }
  }

  /** Perpetuity-growth discounted cash flow: fcf * (1 + g) / (r - g), defined only for r > g. */
  function IntrinsicValue(fcf: real, growthRate: real, discountRate: real): (v: Option<real>)
    ensures v.Some? <==> discountRate > growthRate
    ensures v.Some? ==> v.value * (discountRate - growthRate) == fcf * (1.0 + growthRate)
  {
    if discountRate <= growthRate then None
    else Some(fcf * (1.0 + growthRate) / (discountRate - growthRate))
  }

  /** `calculate_intrinsic_value`: the rejection text, or the labelled value. */
  function IntrinsicValueTool(fcf: real, growthRate: real, discountRate: real, render: real -> string): (r: string)
    ensures r == RateOrderMessage <==> discountRate <= growthRate
    ensures discountRate > growthRate ==>
      r == IntrinsicValueLabel + render(IntrinsicValue(fcf, growthRate, discountRate).value)
  {
    match IntrinsicValue(fcf, growthRate, discountRate)
    case None => RateOrderMessage
    case Some(v) =>
      var r := IntrinsicValueLabel + render(v);
      assert r[0] != RateOrderMessage[0];
      r
  }

  /** The worked examples: P/E of 150 at eps 10 is 15, at eps 0 it is undefined. */
  lemma PeRatioExamples()
    ensures PeRatio(150.0, 10.0) == Some(15.0)
    ensures PeRatio(150.0, 0.0) == None
  {
  }

  /** The worked examples: equal rates are rejected; fcf 100, g 2%, r 10% is worth 1275. */
  lemma IntrinsicValueExamples()
    ensures IntrinsicValue(100.0, 0.03, 0.03) == None
    ensures IntrinsicValue(100.0, 0.02, 0.10) == Some(1275.0)
  {
  }

  /** With positive cash flow and a discount rate above -100%, a higher growth
      rate (still below the discount rate) gives a strictly higher value. */
  lemma IntrinsicValueIncreasesWithGrowth(fcf: real, g1: real, g2: real, discountRate: real)
    requires fcf > 0.0 && discountRate > -1.0
    requires g1 < g2 < discountRate
    ensures IntrinsicValue(fcf, g1, discountRate).value < IntrinsicValue(fcf, g2, discountRate).value
  {
    var d1, d2 := discountRate - g1, discountRate - g2;
    assert (1.0 + g1) * d2 < (1.0 + g2) * d1 by {
      assert (1.0 + g2) * d1 - (1.0 + g1) * d2 == (g2 - g1) * (1.0 + discountRate);
      MulPositive(g2 - g1, 1.0 + discountRate);
    }
    MulStrictlyMonotone(fcf, (1.0 + g1) * d2, (1.0 + g2) * d1);
    assert fcf * (1.0 + g1) * d2 < fcf * (1.0 + g2) * d1;
    FractionLess(fcf * (1.0 + g1), d1, fcf * (1.0 + g2), d2);
  }

  /** With positive cash flow and growth above -100%, a higher discount rate
      gives a strictly lower value. */
  lemma IntrinsicValueDecreasesWithDiscount(fcf: real, growthRate: real, r1: real, r2: real)
    requires fcf > 0.0 && growthRate > -1.0
    requires growthRate < r1 < r2
    ensures IntrinsicValue(fcf, growthRate, r2).value < IntrinsicValue(fcf, growthRate, r1).value
  {
    var n := fcf * (1.0 + growthRate);
    var d1, d2 := r1 - growthRate, r2 - growthRate;
    MulPositive(fcf, 1.0 + growthRate);
    MulStrictlyMonotone(n, d1, d2);
    FractionLess(n, d2, n, d1);
  }

  /** a/b < c/d for positive denominators when a*d < c*b. */
  lemma FractionLess(a: real, b: real, c: real, d: real)
    requires b > 0.0 && d > 0.0 && a * d < c * b
    ensures a / b < c / d
  {
    var x, y := a / b, c / d;
    assert x * b == a && y * d == c;
    MulPositive(b, d);
    assert x * (b * d) == a * d;
    assert y * (b * d) == c * b;
    CancelPositive(x, y, b * d);
  }

  lemma MulPositive(a: real, b: real)
    requires a > 0.0 && b > 0.0
    ensures a * b > 0.0
  {
  }

  lemma MulStrictlyMonotone(k: real, x: real, y: real)
    requires k > 0.0 && x < y
    ensures k * x < k * y
  {
    MulPositive(k, y - x);
  }

  lemma CancelPositive(x: real, y: real, p: real)
    requires p > 0.0 && x * p < y * p
    ensures x < y
  {
    if x >= y {
      if x > y { MulStrictlyMonotone(p, y, x); }
    }
  }
}
