/**
 * The shared financial calculation of `utils/calculator.ts`: from an income, a number of
 * dependents and one province's figures to the totals, balance, ratios and status the dashboard
 * and the comparison widget show, the five-band analysis of the income-to-expense ratio, and
 * the difference between two calculation results.
 */
module Calculator {
  import opened Wrappers
  import opened Numbers
  import opened Types

  /** The sign of the balance: surplus above zero, deficit below, neutral at zero and for NaN. */
  function StatusOf(balance: Amount): (s: FinancialStatus)
    ensures s == Surplus <==> Positive(balance)
    ensures s == Deficit <==> Negative(balance)
    ensures s == Neutral <==> (balance.NaN? || balance == Finite(0.0))
  {
    if Positive(balance) then Surplus
    else if Negative(balance) then Deficit
    else Neutral
  }

  /** `(x / d) * 100` when `d > 0`, and 0 otherwise. */
  function PercentOf(x: Amount, d: Amount): (r: Amount)
    ensures Positive(d) ==> (r.NaN? <==> x.NaN?)
    ensures Positive(d) && x.Finite? ==> r.value * d.value == x.value * 100.0
    ensures !Positive(d) ==> r == Finite(0.0)
  {
    if Positive(d) then Scale(DivBy(x, d.value), 100.0) else Finite(0.0)
  }

  /**
   * `calculateFinancials`. There is no result when the province is missing or its per-capita
   * expenditure is exactly zero; a NaN per-capita figure gets through that guard.
   */
  function CalculateFinancials(income: real, dependents: real, provinceData: Option<ProvinceData>)
    : (r: Option<CalculationResult>)
    ensures r.None? <==> provinceData.None? || provinceData.value.expenditurePerCapita == Finite(0.0)
    ensures r.Some? ==> r.value == ProvinceFinancials(income, dependents, provinceData.value)
  {
    match provinceData
    case None => None
    case Some(p) =>
      if p.expenditurePerCapita == Finite(0.0) then None
      else Some(ProvinceFinancials(income, dependents, p))
  }

  /** The figures `calculateFinancials` reports for a province that passed its guard. */
  function ProvinceFinancials(income: real, dependents: real, p: ProvinceData): (res: CalculationResult)
    // the total is the per-capita figure times the dependents, and NaN when that figure is
    ensures res.totalExpense.NaN? <==> p.expenditurePerCapita.NaN?
    ensures res.totalExpense.Finite? ==> res.totalExpense.value == p.expenditurePerCapita.value * dependents
    // balance and total add up to the income
    ensures res.balance.NaN? <==> res.totalExpense.NaN?
    ensures res.balance.Finite? ==> res.balance.value + res.totalExpense.value == income
    // the status is the sign of the balance
    ensures res.status == Surplus <==> res.totalExpense.Finite? && income > res.totalExpense.value
    ensures res.status == Deficit <==> res.totalExpense.Finite? && income < res.totalExpense.value
    // both percentages are relative to a positive total, and zero without one
    ensures Positive(res.totalExpense) ==>
      && res.incomeVsExpenseRatio.Finite? && res.balancePercentage.Finite?
      && res.incomeVsExpenseRatio.value * res.totalExpense.value == income * 100.0
      && res.incomeVsExpenseRatio.value - res.balancePercentage.value == 100.0
    ensures !Positive(res.totalExpense) ==>
      res.balancePercentage == Finite(0.0) && res.incomeVsExpenseRatio == Finite(0.0)
    // the wage comparison is relative to a positive UMP, and zero without one
    ensures res.umpComparison.Finite?
    ensures p.ump > 0.0 ==> res.umpComparison.value * p.ump == income * 100.0
    ensures p.ump <= 0.0 ==> res.umpComparison.value == 0.0
    // the per-capita figures are passed on, missing sub-figures as zero
    ensures res.monthlyPerCapita == p.expenditurePerCapita
    ensures res.expenditureFood == OrZero(p.expenditureFood)
    ensures res.expenditureNonFood == OrZero(p.expenditureNonFood)
  {
    var totalExpense := Scale(p.expenditurePerCapita, dependents);
    var balance := Sub(Finite(income), totalExpense);
    var balancePercentage := PercentOf(balance, totalExpense);
    var umpComparison := WageComparison(income, p.ump);
    var ratio := PercentOf(Finite(income), totalExpense);
    RatioMinusPercentage(income, totalExpense, balance, ratio, balancePercentage);
    CalculationResult(
      totalExpense, balance, balancePercentage, umpComparison, ratio, StatusOf(balance),
      p.expenditurePerCapita, OrZero(p.expenditureFood), OrZero(p.expenditureNonFood))
  }

  /** `(income / ump) * 100` when `ump > 0`, and 0 otherwise. */
  function WageComparison(income: real, ump: real): (r: Amount)
    ensures r.Finite?
    ensures ump > 0.0 ==> r.value * ump == income * 100.0
    ensures ump <= 0.0 ==> r.value == 0.0
  {
    if ump > 0.0 then Finite(income / ump * 100.0) else Finite(0.0)
  }

  /** With a positive total, the income ratio exceeds the balance percentage by exactly 100. */
  lemma RatioMinusPercentage(income: real, total: Amount, balance: Amount, ratio: Amount, pct: Amount)
    requires balance == Sub(Finite(income), total)
    requires ratio == PercentOf(Finite(income), total) && pct == PercentOf(balance, total)
    ensures Positive(total) ==> ratio.value - pct.value == 100.0
  {
    if Positive(total) {
      var t, x, y := total.value, ratio.value, pct.value;
      assert x * t == income * 100.0;
      assert y * t == (income - t) * 100.0;
      assert (x - y) * t == x * t - y * t;
      assert (x - y - 100.0) * t == 0.0;
    }
  }

  /** A household earning 5,000,000 with two dependents where a person needs 2,000,000 a month. */
  lemma WorkedExample(p: ProvinceData)
    requires p.expenditurePerCapita == Finite(2000000.0) && p.ump == 4000000.0
    ensures CalculateFinancials(5000000.0, 2.0, Some(p)).Some?
    ensures var res := CalculateFinancials(5000000.0, 2.0, Some(p)).value;
      && res.totalExpense == Finite(4000000.0)
      && res.balance == Finite(1000000.0)
      && res.status == Surplus
      && res.incomeVsExpenseRatio == Finite(125.0)
      && res.balancePercentage == Finite(25.0)
      && res.umpComparison == Finite(125.0)
  {
    var res := CalculateFinancials(5000000.0, 2.0, Some(p)).value;
    assert res.incomeVsExpenseRatio.value * 4000000.0 == 500000000.0;
    assert res.umpComparison.value * 4000000.0 == 500000000.0;
  }

  /** A per-capita figure that did not parse leaves only the percentages defined, as zero. */
  lemma UnparsedExpenditure(income: real, dependents: real, p: ProvinceData)
    requires p.expenditurePerCapita.NaN?
    ensures var r := CalculateFinancials(income, dependents, Some(p));
      && r.Some?
      && r.value.totalExpense.NaN? && r.value.balance.NaN?
      && r.value.status == Neutral
      && r.value.balancePercentage == Finite(0.0) && r.value.incomeVsExpenseRatio == Finite(0.0)
  {
  }

  // ----- getAnalysisText -----

  /** The five verdicts on the income-to-expense ratio, from best to worst. */
  datatype Analysis = VerySound | Sound | Adequate | NeedsAttention | Critical

  /** Better verdicts rank higher. */
  function Rank(a: Analysis): nat {
    match a
    case VerySound => 4
    case Sound => 3
    case Adequate => 2
    case NeedsAttention => 1
    case Critical => 0
  }

  /** `getAnalysisText`: the verdict for a ratio given in percent. */
  function GetAnalysisText(ratio: Number): (a: Analysis)
    ensures a == VerySound <==> AtLeast(ratio, 150.0)
    ensures a == Sound <==> AtLeast(ratio, 120.0) && Below(ratio, 150.0)
    ensures a == Adequate <==> AtLeast(ratio, 100.0) && Below(ratio, 120.0)
    ensures a == NeedsAttention <==> AtLeast(ratio, 80.0) && Below(ratio, 100.0)
    ensures a == Critical <==> ratio.NaN? || Below(ratio, 80.0)
  {
    if AtLeast(ratio, 150.0) then VerySound
    else if AtLeast(ratio, 120.0) then Sound
    else if AtLeast(ratio, 100.0) then Adequate
    else if AtLeast(ratio, 80.0) then NeedsAttention
    else Critical
  }

  /** A higher ratio never earns a worse verdict. */
  lemma AnalysisMonotone(x: real, y: real)
    requires x <= y
    ensures Rank(GetAnalysisText(Finite(x))) <= Rank(GetAnalysisText(Finite(y)))
  {
  }

  /** An income that exactly covers the expense is adequate, and a surplus never reads as critical. */
  lemma AnalysisOfCalculation(income: real, dependents: real, p: ProvinceData)
    requires CalculateFinancials(income, dependents, Some(p)).Some?
    requires Positive(CalculateFinancials(income, dependents, Some(p)).value.totalExpense)
    ensures var res := CalculateFinancials(income, dependents, Some(p)).value;
      && (res.status == Neutral ==> GetAnalysisText(res.incomeVsExpenseRatio) == Adequate)
      && (res.status == Surplus ==> Rank(GetAnalysisText(res.incomeVsExpenseRatio)) >= Rank(Adequate))
      && (res.status == Deficit ==> Rank(GetAnalysisText(res.incomeVsExpenseRatio)) < Rank(Adequate))
  {
    var res := CalculateFinancials(income, dependents, Some(p)).value;
    var t := res.totalExpense.value;
    var q := res.incomeVsExpenseRatio.value;
    assert q * t == income * 100.0;
    if income == t {
      assert q == 100.0;
    } else if income > t {
      assert q * t > t * 100.0;
      assert q > 100.0;
    } else {
      assert q * t < t * 100.0;
      assert q < 100.0;
    }
  }

  // ----- calculateComparisonInsight -----

  /** `calculateComparisonInsight`: how moving from `origin` to `target` changes the figures. */
  function CalculateComparisonInsight(origin: CalculationResult, target: CalculationResult)
    : (r: ComparisonInsight)
    ensures r.diffSurplus == Sub(target.balance, origin.balance)
    ensures r.isBetter <==> target.balance.Finite? && origin.balance.Finite?
                            && target.balance.value > origin.balance.value
    ensures Positive(origin.totalExpense) && target.totalExpense.Finite? ==>
      r.percentageChange.Finite? &&
      r.percentageChange.value * origin.totalExpense.value
        == (target.totalExpense.value - origin.totalExpense.value) * 100.0
    ensures Positive(origin.totalExpense) && target.totalExpense.NaN? ==> r.percentageChange.NaN?
    ensures !Positive(origin.totalExpense) ==> r.percentageChange == Finite(0.0)
    ensures r.diffExpenditure == Sub(target.monthlyPerCapita, origin.monthlyPerCapita)
  {
    var diffSurplus := Sub(target.balance, origin.balance);
    ComparisonInsight(
      diffSurplus,
      Positive(diffSurplus),
      PercentOf(Sub(target.totalExpense, origin.totalExpense), origin.totalExpense),
      Sub(target.monthlyPerCapita, origin.monthlyPerCapita))
  }

  /** Swapping the two results negates both differences, and at most one direction is better. */
  lemma ComparisonSwap(a: CalculationResult, b: CalculationResult)
    ensures CalculateComparisonInsight(b, a).diffSurplus == Neg(CalculateComparisonInsight(a, b).diffSurplus)
    ensures CalculateComparisonInsight(b, a).diffExpenditure
         == Neg(CalculateComparisonInsight(a, b).diffExpenditure)
    ensures !(CalculateComparisonInsight(a, b).isBetter && CalculateComparisonInsight(b, a).isBetter)
  {
  }

  /** Comparing a finite result with itself shows no change at all. */
  lemma ComparisonWithItself(a: CalculationResult)
    requires a.balance.Finite? && a.totalExpense.Finite? && a.monthlyPerCapita.Finite?
    ensures CalculateComparisonInsight(a, a) == ComparisonInsight(Finite(0.0), false, Finite(0.0), Finite(0.0))
  {
    if Positive(a.totalExpense) {
      assert CalculateComparisonInsight(a, a).percentageChange.value * a.totalExpense.value == 0.0;
    }
  }

  /** A move from a 4,000,000 to a 4,500,000 total is a 12.5 percent rise in costs. */
  lemma ComparisonExample(origin: CalculationResult, target: CalculationResult)
    requires origin.totalExpense == Finite(4000000.0) && target.totalExpense == Finite(4500000.0)
    ensures CalculateComparisonInsight(origin, target).percentageChange == Finite(12.5)
  {
    assert CalculateComparisonInsight(origin, target).percentageChange.value * 4000000.0 == 50000000.0;
  }
}
