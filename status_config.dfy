/**
 * How `composables/useStatusConfig.ts` dresses a financial status for display: the style classes,
 * icon and label of each status, the colour of the ratio bar and of the balance, and the width of
 * the ratio bar.
 */
module StatusConfig {
  import opened Numbers
  import opened Types
  import Calculator

  datatype Icon = TrendingUp | TrendingDown | Minus

  /** The styling of one status: background, text and border classes, an icon and a label. */
  datatype StatusConfigItem = StatusConfigItem(bg: string, text: string, border: string, icon: Icon, labelText: string)

  /** `STATUS_CONFIGS[status]`. */
  function GetStatusConfig(status: FinancialStatus): (c: StatusConfigItem)
    ensures c.icon == TrendingUp <==> status == Surplus
    ensures c.icon == TrendingDown <==> status == Deficit
    ensures c.icon == Minus <==> status == Neutral
  {
    match status
    case Surplus => StatusConfigItem("bg-surplus-light", "text-surplus-dark", "border-surplus/20", TrendingUp, "Surplus (Lebih)")
    case Deficit => StatusConfigItem("bg-deficit-light", "text-deficit-dark", "border-deficit/20", TrendingDown, "Defisit (Kurang)")
    case Neutral => StatusConfigItem("bg-gray-100", "text-gray-700", "border-gray-200", Minus, "Seimbang")
  }

  /** No two statuses share a label or a background. */
  lemma StatusLabelsDistinct(a: FinancialStatus, b: FinancialStatus)
    requires a != b
    ensures GetStatusConfig(a).labelText != GetStatusConfig(b).labelText
    ensures GetStatusConfig(a).bg != GetStatusConfig(b).bg
  {
    var sa, sb := GetStatusConfig(a), GetStatusConfig(b);
    assert |sa.labelText| != |sb.labelText|;
    assert sa.bg[3] != sb.bg[3];
  }

  /** `getProgressBarColor`: green from 100 percent, the primary colour from 80, red below. */
  function GetProgressBarColor(ratio: Number): (color: string)
    ensures color == "bg-surplus" <==> AtLeast(ratio, 100.0)
    ensures color == "bg-primary-400" <==> AtLeast(ratio, 80.0) && !AtLeast(ratio, 100.0)
    ensures color == "bg-deficit" <==> !AtLeast(ratio, 80.0)
  {
    if AtLeast(ratio, 100.0) then "bg-surplus"
    else if AtLeast(ratio, 80.0) then "bg-primary-400"
    else "bg-deficit"
  }

  /**
   * The bar colour follows the written analysis of the same ratio: green exactly when the
   * analysis is adequate or better, the primary colour when it asks for attention, red when it
   * is critical.
   */
  lemma BarColorMatchesAnalysis(ratio: Number)
    ensures var a := Calculator.GetAnalysisText(ratio);
      && (GetProgressBarColor(ratio) == "bg-surplus" <==> Calculator.Rank(a) >= Calculator.Rank(Calculator.Adequate))
      && (GetProgressBarColor(ratio) == "bg-primary-400" <==> a == Calculator.NeedsAttention)
      && (GetProgressBarColor(ratio) == "bg-deficit" <==> a == Calculator.Critical)
  {
  }

  /** `getBalanceColor`: the surplus text colour for a balance of zero or more. */
  function GetBalanceColor(balance: Number): (color: string)
    ensures color == GetStatusConfig(Surplus).text <==> AtLeast(balance, 0.0)
    ensures color == GetStatusConfig(Deficit).text <==> !AtLeast(balance, 0.0)
  {
    if AtLeast(balance, 0.0) then "text-surplus-dark" else "text-deficit-dark"
  }

  /** `getBalanceBgColor`: the surplus background for a balance of zero or more. */
  function GetBalanceBgColor(balance: Number): (color: string)
    ensures color == GetStatusConfig(Surplus).bg <==> AtLeast(balance, 0.0)
    ensures color == GetStatusConfig(Deficit).bg <==> !AtLeast(balance, 0.0)
  {
    if AtLeast(balance, 0.0) then "bg-surplus-light" else "bg-deficit-light"
  }

  /**
   * The balance colours agree with the status colours for every non-zero finite balance; a
   * balance of exactly zero is coloured as a surplus although its status is neutral, and a NaN
   * balance is coloured as a deficit although its status is neutral too.
   */
  lemma BalanceColorsMatchStatus(balance: Amount)
    ensures balance.Finite? && balance.value != 0.0 ==>
      var c := GetStatusConfig(Calculator.StatusOf(balance));
      GetBalanceColor(balance) == c.text && GetBalanceBgColor(balance) == c.bg
    ensures balance == Finite(0.0) ==>
      Calculator.StatusOf(balance) == Neutral && GetBalanceColor(balance) == GetStatusConfig(Surplus).text
    ensures balance.NaN? ==>
      Calculator.StatusOf(balance) == Neutral && GetBalanceColor(balance) == GetStatusConfig(Deficit).text
  {
  }

  /** `calculateProgressWidth`: `Math.min(ratio, max)`, where the default `max` is 100. */
  function CalculateProgressWidth(ratio: Number, max: real := 100.0): (width: Number)
    ensures width.NaN? <==> ratio.NaN?
    ensures !width.NaN? ==> width.Finite? && width.value <= max
    ensures ratio.Finite? && ratio.value <= max ==> width == ratio
    ensures AtLeast(ratio, max) ==> width == Finite(max)
  {
    match ratio
    case NaN => NaN
    case Infinity => Finite(max)
    case Finite(v) => Finite(if v <= max then v else max)
  }

  /** The width never shrinks as the ratio grows, and never exceeds 100 by default. */
  lemma ProgressWidthMonotone(x: real, y: real)
    requires x <= y
    ensures CalculateProgressWidth(Finite(x)).value <= CalculateProgressWidth(Finite(y)).value
    ensures CalculateProgressWidth(Finite(y)).value <= 100.0
  {
  }
}
