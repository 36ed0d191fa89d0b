/**
 * The quotation pricing formula of the application (calculate_financials in
 * app.py). Amounts are exact reals: the source rounds each output to two
 * decimals for display, which this model leaves out.
 *
 * From a cost price the formula derives the sales distribution cost (SDC,
 * 3% of cost) and the standard variable cost (SVC = cost + SDC). The sales
 * price is then chosen so that, after two fixed fees of 3.8% and 3% of the
 * sales price and the target profit share, exactly SVC remains.
 */
module Pricing {

  /** The four figures calculate_financials returns. */
  datatype Financials = Financials(sdc: real, svc: real, salesPrice: real, opProfitVal: real)

  /** Share of the sales price left for SVC once both fees and the profit are taken. */
  function Denominator(targetProfitPercent: real): real
  {
    1.0 - 0.038 - targetProfitPercent / 100.0 - 0.03
  }

  /**
   * calculate_financials. A denominator of zero or below is not an error:
   * the sales price (and with it the operating profit) is then 0.
   */
  function CalculateFinancials(costPrice: real, targetProfitPercent: real := 10.0): (f: Financials)
    ensures f.sdc == costPrice * 0.03 && f.svc == costPrice + f.sdc
    ensures f.svc == costPrice * 1.03
    ensures Denominator(targetProfitPercent) <= 0.0 ==> f.salesPrice == 0.0 && f.opProfitVal == 0.0
  {
    var sdc := costPrice * 0.03;
    var svc := costPrice + sdc;
    var profitDecimal := targetProfitPercent / 100.0;
    var denominator := 1.0 - 0.038 - profitDecimal - 0.03;
    var salesPrice := if denominator <= 0.0 then 0.0 else svc / denominator;
    Financials(sdc, svc, salesPrice, salesPrice * profitDecimal)
  }

  /**
   * The price leaves exactly SVC once the fees and the profit share are
   * taken, and the operating profit is that profit share of the price.
   */
  lemma SalesPriceLeavesSvc(costPrice: real, targetProfitPercent: real)
    ensures var f := CalculateFinancials(costPrice, targetProfitPercent);
            && (Denominator(targetProfitPercent) > 0.0
                ==> f.salesPrice * Denominator(targetProfitPercent) == f.svc)
            && f.opProfitVal == f.salesPrice * (targetProfitPercent / 100.0)
  {
  }

  /** With a positive denominator the sales price is SVC / (0.932 - p/100). */
  lemma SalesPriceFormula(costPrice: real, targetProfitPercent: real)
    requires Denominator(targetProfitPercent) > 0.0
    ensures CalculateFinancials(costPrice, targetProfitPercent).salesPrice
            == (costPrice * 1.03) / (0.932 - targetProfitPercent / 100.0)
  {
  }

  /**
   * The sales price splits into SVC, the two fees and the operating profit:
   * whenever the formula gives a price at all, that price covers its costs.
   */
  lemma SalesPriceDecomposition(costPrice: real, targetProfitPercent: real)
    requires Denominator(targetProfitPercent) > 0.0
    ensures var f := CalculateFinancials(costPrice, targetProfitPercent);
            f.salesPrice == f.svc + f.salesPrice * 0.038 + f.salesPrice * 0.03 + f.opProfitVal
  {
  }

  /** For a non-negative cost and profit, a positive denominator gives a price of at least SVC. */
  lemma SalesPriceCoversSvc(costPrice: real, targetProfitPercent: real)
    requires costPrice >= 0.0 && targetProfitPercent >= 0.0
    requires Denominator(targetProfitPercent) > 0.0
    ensures CalculateFinancials(costPrice, targetProfitPercent).salesPrice
            >= CalculateFinancials(costPrice, targetProfitPercent).svc
  {
  }

  /** Asking for more profit never lowers the price, as long as the denominator stays positive. */
  lemma SalesPriceMonotoneInProfit(costPrice: real, lowPercent: real, highPercent: real)
    requires costPrice >= 0.0 && lowPercent <= highPercent
    requires Denominator(highPercent) > 0.0
    ensures CalculateFinancials(costPrice, lowPercent).salesPrice
            <= CalculateFinancials(costPrice, highPercent).salesPrice
  {
    var lo := CalculateFinancials(costPrice, lowPercent);
    var hi := CalculateFinancials(costPrice, highPercent);
    var dl := Denominator(lowPercent);
    var dh := Denominator(highPercent);
    assert 0.0 < dh <= dl;
    assert hi.salesPrice == hi.svc / dh && hi.salesPrice >= 0.0;
    assert lo.salesPrice == hi.salesPrice * (dh / dl);
    assert dh / dl <= 1.0;
    assert hi.salesPrice * (dh / dl) <= hi.salesPrice;
  }

  /**
   * The default-profit worked example: cost 45 at 10% gives SDC 1.35,
   * SVC 46.35, a denominator of 0.832 and a sales price of about 55.71.
   */
  lemma WorkedExample()
    ensures Denominator(10.0) == 0.832
    ensures var f := CalculateFinancials(45.0);
            f.sdc == 1.35 && f.svc == 46.35 && 55.70 < f.salesPrice < 55.72
            && 5.57 < f.opProfitVal < 5.58
  {
  }
}
