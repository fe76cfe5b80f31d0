/** The records the program passes between its parts (the shapes of `types/index.ts`). */
module Types {
  import opened Numbers

  /** One row of the wage table: a province, its spellings and its regional minimum wage (UMP). */
  datatype UmpDataItem = UmpDataItem(id: string, name: string, aliases: seq<string>, ump: real, year: int)

  /** What is known about one province: its name, the three expenditure figures and its UMP. */
  datatype ProvinceData = ProvinceData(
    name: string,
    expenditurePerCapita: Amount,
    expenditureFood: Amount,
    expenditureNonFood: Amount,
    ump: real)

  /** An entry of the province drop-down. */
  datatype ProvinceOption = ProvinceOption(id: string, name: string, expenditure: real, ump: real)

  datatype FinancialStatus = Surplus | Deficit | Neutral

  datatype CalculationResult = CalculationResult(
    totalExpense: Amount,
    balance: Amount,
    balancePercentage: Amount,
    umpComparison: Number,
    incomeVsExpenseRatio: Amount,
    status: FinancialStatus,
    monthlyPerCapita: Amount,
    expenditureFood: real,
    expenditureNonFood: real)

  datatype ComparisonInsight = ComparisonInsight(
    diffSurplus: Amount,
    isBetter: bool,
    percentageChange: Amount,
    diffExpenditure: Amount)
}
