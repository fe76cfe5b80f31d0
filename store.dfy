/**
 * The calculator store of `stores/calculator.ts`: the user's inputs and the loaded province
 * figures, the values derived from them (the selected province, the calculation, whether it is
 * ready, the analysis shown under it), and the actions that change the inputs.
 */
module CalculatorStore {
  import opened Wrappers
  import opened Numbers
  import opened Types
  import Calculator

  /** A snapshot of the store's state. */
  datatype CalculatorState = CalculatorState(
    income: real,
    dependents: int,
    selectedProvinceId: Option<string>,
    selectedProvinceName: string,
    provinceData: map<string, ProvinceData>,
    isLoading: bool,
    isDataLoaded: bool,
    error: Option<string>)

  /** The state before any action. */
  const InitialState := CalculatorState(0.0, 1, None, "", map[], false, false, None)

  /** What every action keeps: a non-negative income and at least one dependent. */
  predicate Valid(s: CalculatorState) {
    s.income >= 0.0 && s.dependents >= 1
  }

  /** `currentProvinceData`: the figures of the selected province, if one is selected and known. */
  function CurrentProvinceData(s: CalculatorState): (r: Option<ProvinceData>)
    ensures r.Some? <==> s.selectedProvinceId.Some? && s.selectedProvinceId.value != ""
                         && s.selectedProvinceId.value in s.provinceData
    ensures r.Some? ==> r.value == s.provinceData[s.selectedProvinceId.value]
  {
    match s.selectedProvinceId
    case None => None
    case Some(id) => if id != "" && id in s.provinceData then Some(s.provinceData[id]) else None
  }

  /**
   * `calculationResult`. There is no result without a known province, a positive income and a
   * positive number of dependents, or when the per-capita figure is zero or negative; a NaN
   * per-capita figure gets through that guard.
   */
  function CalculationResultOf(s: CalculatorState): (r: Option<CalculationResult>)
    ensures r.None? <==>
      || CurrentProvinceData(s).None? || s.income <= 0.0 || s.dependents <= 0
      || Below(CurrentProvinceData(s).value.expenditurePerCapita, 0.0)
      || CurrentProvinceData(s).value.expenditurePerCapita == Finite(0.0)
    ensures r.Some? ==> r.value == StoreCalculation(s.income, s.dependents as real, CurrentProvinceData(s).value)
  {
    match CurrentProvinceData(s)
    case None => None
    case Some(p) =>
      var pc := p.expenditurePerCapita;
      if s.income <= 0.0 || s.dependents <= 0 then None
      else if pc.Finite? && pc.value <= 0.0 then None
      else Some(StoreCalculation(s.income, s.dependents as real, p))
  }

  /**
   * The figures `calculationResult` derives once its guards have passed. The three percentages
   * are stated by `StorePercentages`.
   */
  function StoreCalculation(income: real, d: real, p: ProvinceData): (res: CalculationResult)
    requires income > 0.0 && d > 0.0
    requires p.expenditurePerCapita.Finite? ==> p.expenditurePerCapita.value > 0.0
    // the total is the per-capita figure times the dependents: positive, or NaN with that figure
    ensures res.totalExpense.NaN? <==> p.expenditurePerCapita.NaN?
    ensures res.totalExpense.Finite? ==>
      res.totalExpense.value == p.expenditurePerCapita.value * d && res.totalExpense.value > 0.0
    // balance and total add up to the income, and the balance is taken relative to the income
    ensures res.balance.NaN? <==> res.totalExpense.NaN?
    ensures res.balance.Finite? ==> res.balance.value + res.totalExpense.value == income
    // the status is the sign of the balance
    ensures res.status == Surplus <==> res.totalExpense.Finite? && income > res.totalExpense.value
    ensures res.status == Deficit <==> res.totalExpense.Finite? && income < res.totalExpense.value
    // the per-capita figure is passed on; the food figures are scaled to the household
    ensures res.monthlyPerCapita == p.expenditurePerCapita
    ensures res.expenditureFood == OrZero(p.expenditureFood) * d
    ensures res.expenditureNonFood == OrZero(p.expenditureNonFood) * d
  {
    var totalExpense := HouseholdTotal(p.expenditurePerCapita, d);
    var balance := Sub(Finite(income), totalExpense);
    CalculationResult(
      totalExpense, balance, PercentOfIncome(balance, income), UmpComparison(income, p.ump),
      IncomeRatio(income, totalExpense), Calculator.StatusOf(balance), p.expenditurePerCapita,
      OrZero(p.expenditureFood) * d, OrZero(p.expenditureNonFood) * d)
  }

  /**
   * The three percentages of the store's calculation: the balance relative to the income, the
   * income relative to the UMP (infinite for a zero UMP) and relative to the total; with a NaN
   * per-capita figure the first and the last are NaN.
   */
  lemma StorePercentages(income: real, d: real, p: ProvinceData)
    requires income > 0.0 && d > 0.0
    requires p.expenditurePerCapita.Finite? ==> p.expenditurePerCapita.value > 0.0
    ensures var res := StoreCalculation(income, d, p);
      && (res.balancePercentage.NaN? <==> res.balance.NaN?)
      && (res.balance.Finite? ==> res.balancePercentage.value * income == res.balance.value * 100.0)
    ensures var res := StoreCalculation(income, d, p);
      && (res.umpComparison.Infinity? <==> p.ump == 0.0)
      && (p.ump != 0.0 ==> res.umpComparison.Finite? && res.umpComparison.value * p.ump == income * 100.0)
    ensures var res := StoreCalculation(income, d, p);
      && (res.incomeVsExpenseRatio.NaN? <==> res.totalExpense.NaN?)
      && (res.totalExpense.Finite? ==>
            res.incomeVsExpenseRatio.value * res.totalExpense.value == income * 100.0)
  {
  }

  /** `perCapita * dependents` for a per-capita figure that is positive or NaN. */
  function HouseholdTotal(pc: Amount, d: real): (t: Amount)
    requires pc.Finite? ==> pc.value > 0.0
    requires d > 0.0
    ensures t.NaN? <==> pc.NaN?
    ensures t.Finite? ==> t.value == pc.value * d && t.value > 0.0
  {
    match pc
    case NaN => NaN
    case Finite(v) => assert v * d > 0.0; Finite(v * d)
  }

  /** `(balance / income) * 100` for a positive income. */
  function PercentOfIncome(balance: Amount, income: real): (r: Amount)
    requires income > 0.0
    ensures r.NaN? <==> balance.NaN?
    ensures balance.Finite? ==> r.value * income == balance.value * 100.0
  {
    Scale(DivBy(balance, income), 100.0)
  }

  /** `(income / ump) * 100`, which is infinite for a zero UMP and a positive income. */
  function UmpComparison(income: real, ump: real): (r: Number)
    ensures r.Infinity? <==> ump == 0.0
    ensures ump != 0.0 ==> r.Finite? && r.value * ump == income * 100.0
  {
    if ump == 0.0 then Infinity else Finite(income / ump * 100.0)
  }

  /** `(income / total) * 100` for a total that is positive or NaN. */
  function IncomeRatio(income: real, total: Amount): (r: Amount)
    requires total.Finite? ==> total.value > 0.0
    ensures r.NaN? <==> total.NaN?
    ensures total.Finite? ==> r.value * total.value == income * 100.0
  {
    match total
    case NaN => NaN
    case Finite(t) => Finite(income / t * 100.0)
  }

  /**
   * `isCalculationReady`: a province is selected and known, and every input is positive; the
   * `|| 0` makes a per-capita figure that did not parse count as 0, so it must be a number.
   */
  function IsCalculationReady(s: CalculatorState): (ready: bool)
    ensures ready ==> s.income > 0.0 && s.dependents > 0 && CurrentProvinceData(s).Some?
    ensures CurrentProvinceData(s).Some? ==>
      (ready <==> s.income > 0.0 && s.dependents > 0
                  && CurrentProvinceData(s).value.expenditurePerCapita.Finite?
                  && CurrentProvinceData(s).value.expenditurePerCapita.value > 0.0)
  {
    var current := CurrentProvinceData(s);
    && s.selectedProvinceId.Some?
    && s.income > 0.0
    && s.dependents > 0
    && current.Some?
    && OrZero(current.value.expenditurePerCapita) > 0.0
  }

  /**
   * The store is ready exactly when it has a result whose per-capita figure is a number; a NaN
   * figure yields a result although the store does not report itself ready.
   */
  lemma ReadyIffResult(s: CalculatorState)
    ensures IsCalculationReady(s) <==>
      CalculationResultOf(s).Some? && !CurrentProvinceData(s).value.expenditurePerCapita.NaN?
  {
  }

  /** A selected province whose per-capita figure did not parse: a result, but not ready. */
  lemma ResultWithoutReadiness(s: CalculatorState)
    requires s.income > 0.0 && s.dependents > 0
    requires CurrentProvinceData(s).Some? && CurrentProvinceData(s).value.expenditurePerCapita.NaN?
    ensures CalculationResultOf(s).Some? && !IsCalculationReady(s)
    ensures CalculationResultOf(s).value.status == Neutral
  {
  }

  /**
   * Where both calculations have a result, a finite per-capita figure and a positive UMP, the
   * store and `calculateFinancials` agree on every shared figure except two: the store takes the
   * balance percentage relative to the income rather than the total, and scales the food figures
   * to the household.
   */
  lemma StoreAgreesWithCalculator(income: real, d: real, p: ProvinceData)
    requires income > 0.0 && d > 0.0
    requires p.expenditurePerCapita.Finite? && p.expenditurePerCapita.value > 0.0
    requires p.ump > 0.0
    ensures var mine := StoreCalculation(income, d, p);
      var theirs := Calculator.CalculateFinancials(income, d, Some(p));
      && theirs.Some?
      && mine.totalExpense == theirs.value.totalExpense
      && mine.balance == theirs.value.balance
      && mine.status == theirs.value.status
      && mine.umpComparison == theirs.value.umpComparison
      && mine.incomeVsExpenseRatio == theirs.value.incomeVsExpenseRatio
      && mine.monthlyPerCapita == theirs.value.monthlyPerCapita
      && mine.balancePercentage.value * income
         == theirs.value.balancePercentage.value * theirs.value.totalExpense.value
      && mine.expenditureFood == OrZero(p.expenditureFood) * d
      && theirs.value.expenditureFood == OrZero(p.expenditureFood)
  {
    AgreeOnTotals(income, d, p);
    AgreeOnPercentages(income, d, p);
  }

  lemma AgreeOnTotals(income: real, d: real, p: ProvinceData)
    requires income > 0.0 && d > 0.0
    requires p.expenditurePerCapita.Finite? && p.expenditurePerCapita.value > 0.0
    ensures StoreCalculation(income, d, p).totalExpense == Calculator.ProvinceFinancials(income, d, p).totalExpense
    ensures StoreCalculation(income, d, p).balance == Calculator.ProvinceFinancials(income, d, p).balance
    ensures StoreCalculation(income, d, p).status == Calculator.ProvinceFinancials(income, d, p).status
    ensures StoreCalculation(income, d, p).monthlyPerCapita == Calculator.ProvinceFinancials(income, d, p).monthlyPerCapita
    ensures StoreCalculation(income, d, p).expenditureFood == OrZero(p.expenditureFood) * d
    ensures Calculator.ProvinceFinancials(income, d, p).expenditureFood == OrZero(p.expenditureFood)
  {
    AgreeOnBalance(income, d, p);
  }

  lemma AgreeOnBalance(income: real, d: real, p: ProvinceData)
    requires income > 0.0 && d > 0.0
    requires p.expenditurePerCapita.Finite? && p.expenditurePerCapita.value > 0.0
    ensures StoreCalculation(income, d, p).balance == Calculator.ProvinceFinancials(income, d, p).balance
    ensures StoreCalculation(income, d, p).status == Calculator.ProvinceFinancials(income, d, p).status
  {
    StoreBalance(income, d, p);
    CalculatorBalance(income, d, p);
  }

  /** The store's balance is the income less the household total, and its status that sign. */
  lemma StoreBalance(income: real, d: real, p: ProvinceData)
    requires income > 0.0 && d > 0.0
    requires p.expenditurePerCapita.Finite? && p.expenditurePerCapita.value > 0.0
    ensures StoreCalculation(income, d, p).balance == Finite(income - p.expenditurePerCapita.value * d)
    ensures StoreCalculation(income, d, p).status
      == Calculator.StatusOf(Finite(income - p.expenditurePerCapita.value * d))
  {
  }

  /** The calculator's balance is the income less the household total, and its status that sign. */
  lemma CalculatorBalance(income: real, d: real, p: ProvinceData)
    requires p.expenditurePerCapita.Finite?
    ensures Calculator.ProvinceFinancials(income, d, p).balance
      == Finite(income - p.expenditurePerCapita.value * d)
    ensures Calculator.ProvinceFinancials(income, d, p).status
      == Calculator.StatusOf(Finite(income - p.expenditurePerCapita.value * d))
  {
  }

  lemma AgreeOnPercentages(income: real, d: real, p: ProvinceData)
    requires income > 0.0 && d > 0.0
    requires p.expenditurePerCapita.Finite? && p.expenditurePerCapita.value > 0.0
    requires p.ump > 0.0
    ensures StoreCalculation(income, d, p).umpComparison == Calculator.ProvinceFinancials(income, d, p).umpComparison
    ensures StoreCalculation(income, d, p).incomeVsExpenseRatio
      == Calculator.ProvinceFinancials(income, d, p).incomeVsExpenseRatio
    ensures StoreCalculation(income, d, p).balancePercentage.value * income
      == Calculator.ProvinceFinancials(income, d, p).balancePercentage.value
         * Calculator.ProvinceFinancials(income, d, p).totalExpense.value
  {
    AgreeOnTotals(income, d, p);
    StorePercentages(income, d, p);
    var mine := StoreCalculation(income, d, p);
    var theirs := Calculator.ProvinceFinancials(income, d, p);
    var t := mine.totalExpense.value;
    SamePercentage(mine.incomeVsExpenseRatio.value, theirs.incomeVsExpenseRatio.value, t, income);
    SamePercentage(mine.umpComparison.value, theirs.umpComparison.value, p.ump, income);
    BalanceShare(theirs.incomeVsExpenseRatio.value, theirs.balancePercentage.value, t, income,
                 theirs.balance.value);
  }

  /** A ratio that exceeds the balance share by 100 puts the balance share at `balance * 100`. */
  lemma BalanceShare(ratio: real, pct: real, t: real, income: real, balance: real)
    requires ratio * t == income * 100.0 && ratio - pct == 100.0 && balance + t == income
    ensures pct * t == balance * 100.0
  {
    assert pct * t == ratio * t - 100.0 * t;
  }

  /** Two percentages of the same amount relative to the same positive base are equal. */
  lemma SamePercentage(x: real, y: real, base: real, amount: real)
    requires base > 0.0
    requires x * base == amount * 100.0 && y * base == amount * 100.0
    ensures x == y
  {
    assert (x - y) * base == x * base - y * base;
  }

  /**
   * An income ratio taken relative to a positive total is above, at or below 100 exactly when
   * the income is above, at or below the total.
   */
  lemma RatioAgainstHundred(q: real, t: real, income: real)
    requires t > 0.0 && q * t == income * 100.0
    ensures q > 100.0 <==> income > t
    ensures q < 100.0 <==> income < t
  {
    var e := q - 100.0;
    assert e * t == q * t - 100.0 * t;
    assert e * t == (income - t) * 100.0;
    if e > 0.0 {
      assert e * t > 0.0;
    } else if e < 0.0 {
      assert (-e) * t > 0.0;
    }
  }

  // ----- analysisText -----

  /**
   * The texts `analysisText` can show: none without a result, the deficit warning (which quotes
   * the ratio and the dependents), and three verdicts on a surplus or an even balance.
   */
  datatype AnalysisText = NoText | DeficitText(ratio: Amount, dependents: int) | ThinMargin | Healthy | VeryGood

  /** `analysisText`: no text without a result, otherwise the text for that result. */
  function AnalysisTextOf(s: CalculatorState): (t: AnalysisText)
    ensures t == NoText <==> CalculationResultOf(s).None?
    ensures CalculationResultOf(s).Some? ==> t == TextFor(CalculationResultOf(s).value, s.dependents)
  {
    match CalculationResultOf(s)
    case None => NoText
    case Some(res) => TextFor(res, s.dependents)
  }

  /**
   * The text for one result: the deficit warning for a deficit, otherwise a verdict by the
   * income ratio, where a NaN ratio falls through every comparison to the best verdict.
   */
  function TextFor(res: CalculationResult, dependents: int): (t: AnalysisText)
    ensures t != NoText
    ensures t.DeficitText? <==> res.status == Deficit
    ensures t.DeficitText? ==> t == DeficitText(res.incomeVsExpenseRatio, dependents)
    ensures res.status != Deficit ==>
      && (t == ThinMargin <==> Below(res.incomeVsExpenseRatio, 120.0))
      && (t == Healthy <==> AtLeast(res.incomeVsExpenseRatio, 120.0) && Below(res.incomeVsExpenseRatio, 150.0))
      && (t == VeryGood <==> !Below(res.incomeVsExpenseRatio, 150.0))
  {
    var ratio := res.incomeVsExpenseRatio;
    if res.status == Deficit then DeficitText(ratio, dependents)
    else if Below(ratio, 120.0) then ThinMargin
    else if Below(ratio, 150.0) then Healthy
    else VeryGood
  }

  /**
   * With a finite per-capita figure, the store's text is the shared five-band analysis with the
   * two lowest bands merged into the deficit warning.
   */
  lemma AnalysisTextAgrees(income: real, d: real, p: ProvinceData, dependents: int)
    requires income > 0.0 && d > 0.0
    requires p.expenditurePerCapita.Finite? && p.expenditurePerCapita.value > 0.0
    ensures var res := StoreCalculation(income, d, p);
      var t := TextFor(res, dependents);
      var a := Calculator.GetAnalysisText(res.incomeVsExpenseRatio);
      && (t.DeficitText? <==> Calculator.Rank(a) < Calculator.Rank(Calculator.Adequate))
      && (t == ThinMargin <==> a == Calculator.Adequate)
      && (t == Healthy <==> a == Calculator.Sound)
      && (t == VeryGood <==> a == Calculator.VerySound)
  {
    StorePercentages(income, d, p);
    var res := StoreCalculation(income, d, p);
    RatioAgainstHundred(res.incomeVsExpenseRatio.value, res.totalExpense.value, income);
  }

  /** A per-capita figure that did not parse makes the store praise the household's finances. */
  lemma UnparsedFigureReadsVeryGood(s: CalculatorState)
    requires s.income > 0.0 && s.dependents > 0
    requires CurrentProvinceData(s).Some? && CurrentProvinceData(s).value.expenditurePerCapita.NaN?
    ensures AnalysisTextOf(s) == VeryGood
  {
    StorePercentages(s.income, s.dependents as real, CurrentProvinceData(s).value);
  }

  /** The store object whose actions the pages call. */
  class CalculatorStore {
    var income: real
    var dependents: int
    var selectedProvinceId: Option<string>
    var selectedProvinceName: string
    var provinceData: map<string, ProvinceData>
    var isLoading: bool
    var isDataLoaded: bool
    var error: Option<string>

    function State(): CalculatorState
      reads this
    {
      CalculatorState(income, dependents, selectedProvinceId, selectedProvinceName,
                      provinceData, isLoading, isDataLoaded, error)
    }

    constructor()
      ensures State() == InitialState && Valid(State())
      ensures CalculationResultOf(State()).None?
    {
      income, dependents := 0.0, 1;
      selectedProvinceId, selectedProvinceName := None, "";
      provinceData := map[];
      isLoading, isDataLoaded := false, false;
      error := None;
    }

    /** `setIncome`: a negative income is stored as zero. */
    method SetIncome(value: real)
      requires Valid(State())
      modifies this
      ensures State() == old(State()).(income := if value > 0.0 then value else 0.0)
      ensures Valid(State())
      ensures value <= 0.0 ==> CalculationResultOf(State()).None?
    {
      income := if 0.0 >= value then 0.0 else value;
    }

    /** `setDependents`: the value is rounded down, and anything below one is stored as one. */
    method SetDependents(value: real)
      requires Valid(State())
      modifies this
      ensures State() == old(State()).(dependents := if value.Floor >= 1 then value.Floor else 1)
      ensures Valid(State())
      ensures dependents as real <= value || value < 1.0
      ensures value >= 1.0 ==> value < dependents as real + 1.0
    {
      dependents := if 1 >= value.Floor then 1 else value.Floor;
    }

    /** `selectProvince`. */
    method SelectProvince(provinceId: string, provinceName: string)
      requires Valid(State())
      modifies this
      ensures State() == old(State()).(selectedProvinceId := Some(provinceId), selectedProvinceName := provinceName)
      ensures Valid(State())
    {
      selectedProvinceId := Some(provinceId);
      selectedProvinceName := provinceName;
    }

    /** `setProvinceData`: the figures are replaced and marked as loaded. */
    method SetProvinceData(data: map<string, ProvinceData>)
      requires Valid(State())
      modifies this
      ensures State() == old(State()).(provinceData := data, isDataLoaded := true)
      ensures Valid(State())
    {
      provinceData := data;
      isDataLoaded := true;
    }

    /** `setLoading`. */
    method SetLoading(value: bool)
      requires Valid(State())
      modifies this
      ensures State() == old(State()).(isLoading := value)
      ensures Valid(State())
    {
      isLoading := value;
    }

    /** `setError`. */
    method SetError(e: Option<string>)
      requires Valid(State())
      modifies this
      ensures State() == old(State()).(error := e)
      ensures Valid(State())
    {
      error := e;
    }

    /**
     * `reset`: the inputs, the selection and the error return to their initial values; the
     * loaded figures and the loading flags stay.
     */
    method Reset()
      modifies this
      ensures State() == InitialState.(provinceData := old(provinceData), isLoading := old(isLoading),
                                       isDataLoaded := old(isDataLoaded))
      ensures Valid(State())
      ensures CalculationResultOf(State()).None? && AnalysisTextOf(State()) == NoText
    {
      income, dependents := 0.0, 1;
      selectedProvinceId, selectedProvinceName := None, "";
      error := None;
    }
  }
}
