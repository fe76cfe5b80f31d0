# Cost-of-living calculator for the Indonesian provinces, in Dafny

This project models the core logic of a web calculator. The calculator compares a household's
monthly income with the living costs of one of Indonesia's 38 provinces. The model covers:

- **Wage table and name matcher** (`utils/constants.ts`). The table holds each province's
  regional minimum wage (UMP). `UMP_MAP` indexes it by id. The matcher normalises a free-text
  name, then tries three tiers in order, taking the first hit in table order: exact name, exact
  alias, then containment either way.
- **Expenditure ingestion** (`composables/useExpenditureData.ts`). One zero-expenditure record
  is seeded per table entry. The rows of the statistics table, already parsed, are folded over
  those records. Cells are parsed by the `parseFloat` rule. The drop-down list is the provinces
  with a positive per-capita figure, ordered by name.
- **Financial calculation** (`utils/calculator.ts`). This covers totals, balance, the two
  percentages, the wage comparison and the sign status. It also covers the five-band analysis of
  the income ratio and the comparison of two results.
- **Calculator store** (`stores/calculator.ts`). This is the older calculation with its own
  guards, the readiness flag and the analysis text. Its actions are a class whose methods keep
  the inputs valid.
- **Map feature names** (`composables/useGeoJson.ts`). This covers picking the name property,
  the slug used as an id, normalisation of the fetched features, and lookup by id.
- **Formatting helpers and status styling** (`utils/formatters.ts`,
  `composables/useStatusConfig.ts`).

JavaScript numbers are modelled as `Numbers.Number`. A number is a finite `real`, or NaN, or
positive infinity. NaN is what `parseFloat` returns for a cell without digits. Infinity is what
the store's wage comparison gives for a zero UMP. Both flow through the arithmetic as JavaScript
lets them: `=== 0` and `<= 0` are both false for NaN, and `x || 0` turns NaN into 0. Integer
widths play no part. Money is exact `real` arithmetic.

Some behaviour of the code differs from what its own comments and names suggest. The model follows the code:

- A cell written `"Rp 1.234.567"` is read as 1.234, not 1234567. Periods survive the character
  filter, and `parseFloat` stops at the second one (`ExpenditureData.RupiahWithSeparators`).
- Normalising a name is not idempotent. Periods are removed after whitespace is collapsed, so
  `"A . B"` becomes `"A  B"` (`Constants.NormalizeNotIdempotent`). Resolving a name and
  resolving its normalised form can therefore differ.
- A per-capita figure that did not parse (NaN) gets past both calculators' guards.
  `calculateFinancials` then reports zero percentages. The store reports a result full of NaN,
  is not "ready", and shows the best analysis text (`CalculatorStore.ResultWithoutReadiness`,
  `CalculatorStore.UnparsedFigureReadsVeryGood`).
- A balance of exactly zero has the neutral status but is coloured as a surplus
  (`StatusConfig.BalanceColorsMatchStatus`).

## Model

| member | source | states |
|---|---|---|
| Constants.IndexById | utils/constants.ts:54-60 | the `reduce` building `UMP_MAP` has exactly the ids of the items as keys |
| Constants.IndexByIdLastWins | utils/constants.ts:54-60 | an item no later item shares its id with is the one filed under that id |
| Constants.NormalizeForMatching | utils/constants.ts:65-71 | the normal form is no longer than the input, has no lower-case letter, no period, and no whitespace other than the plain space |
| Constants.NormalizeKeepsSignificant | utils/constants.ts:65-71 | without its spaces, the normal form is exactly the upper-cased name with all whitespace and periods removed: no other character is lost, added or reordered |
| Constants.NormalizeJoin | utils/constants.ts:65-71 | two words with a whitespace run of any length and kind between them normalise separately and are joined by exactly one space |
| Ascii.SpaceRunJoin | utils/constants.ts:69 | `replace(/\s+/g, sep)`: a maximal whitespace run between two parts becomes exactly one separator, and the parts are collapsed on their own |
| Ascii.SpaceRunsAppend | utils/constants.ts:69 | `replace(/\s+/g, sep)` distributes over a concatenation whose cut is not inside a whitespace run |
| Ascii.RetainSpaceRuns | utils/constants.ts:69 | collapsing whitespace runs keeps every non-whitespace character other than the separator, in order |
| Ascii.RetainTrim | utils/constants.ts:68 | `trim` removes no character other than whitespace |
| Constants.NormalizeTidy | utils/constants.ts:65-71 | on a string that is already trimmed and single-spaced, normalising only upper-cases it and drops periods |
| Constants.BlankNormalizesToEmpty | utils/constants.ts:65-71 | empty and whitespace-only names normalise to the empty string |
| Constants.NormalizeNotIdempotent | utils/constants.ts:65-71 | `"A . B"` normalises to `"A  B"` (two spaces), and normalising again gives `"A B"` |
| Constants.MatchIndex | utils/constants.ts:79-97 | the three `find` tiers: the chosen entry matches at some tier, no entry matches at a better tier, none earlier at the same tier; no result exactly when no entry matches at any tier |
| Constants.MatchSoleExact | utils/constants.ts:79-91 | an input matching exactly one entry by name or alias resolves to that entry, whatever containment would pick |
| Constants.MatchFirstPartial | utils/constants.ts:93-97 | with no exact match, the first entry matching by containment wins |
| Constants.MatchEmpty | utils/constants.ts:93-97 | when no spelling normalises to `""`, the empty input resolves to the first entry |
| Constants.ResolveIn | utils/constants.ts:76-100 | the resolver of `getUmpByProvinceName`, on any table: a result is an element of the table; undefined exactly when no entry matches the normalised name at any tier |
| Constants.GetUmpByProvinceName | utils/constants.ts:76-100 | on the shipped table: a result is an entry of `UMP_DATA`; undefined exactly when no entry matches the normalised name at any tier |
| UmpTable.TableWellFormed | utils/constants.ts:10-49 | 38 entries, every UMP positive, ids pairwise distinct |
| UmpTable.UmpMapIsTable | utils/constants.ts:54-60 | `UMP_MAP` has exactly the table's ids as keys and maps each id to its own entry |
| UmpTable.SpellingUnique | utils/constants.ts:11-48 | no normalised name or alias of one entry is a normalised name or alias of another |
| UmpTable.ResolvesOwnName | utils/constants.ts:76-100 | every entry's name resolves back to that entry |
| UmpTable.ResolvesOwnAlias | utils/constants.ts:76-100 | every alias of every entry resolves back to that entry |
| UmpTable.ResolvesBlank | utils/constants.ts:94-97 | the empty input and every whitespace-only input resolve to the first entry, Aceh |
| UmpTable.DottedYogyakarta | utils/constants.ts:65-71 | `"D.I. YOGYAKARTA"` normalises to `"DI YOGYAKARTA"` |
| UmpTable.DottedYogyakartaResolves | utils/constants.ts:86-91 | `"D.I. YOGYAKARTA"` resolves to di-yogyakarta |
| UmpTable.PapuaBaratDayaResolves | utils/constants.ts:79-84 | `"Papua Barat Daya"` resolves to papua-barat-daya by name, although the earlier Papua Barat is contained in it |
| UmpTable.KalimantanResolves | utils/constants.ts:94-97 | `"KALIMANTAN"` matches only by containment and resolves to the first such entry, Kalimantan Barat |
| Numbers.OrZero | utils/calculator.ts:49-50 | `x \|\| 0` keeps a finite value and turns NaN into 0 |
| Calculator.StatusOf | utils/calculator.ts:37-39 | surplus exactly for a positive balance, deficit exactly for a negative one, neutral for zero and NaN |
| Calculator.PercentOf | utils/calculator.ts:33-35 | the guarded percentage: `r * d = x * 100` for a positive base, NaN only from NaN, 0 without a positive base |
| Calculator.CalculateFinancials | utils/calculator.ts:23-52 | null exactly for a missing province or a per-capita figure of exactly 0, so NaN gets through; otherwise the figures of `ProvinceFinancials` |
| Calculator.ProvinceFinancials | utils/calculator.ts:31-51 | total is the per-capita figure times the dependents, NaN exactly with a NaN figure; balance plus total is the income; status by sign; ratio and percentage relative to a positive total and 0 otherwise, differing by exactly 100; finite wage comparison; figures passed on with missing ones as 0 |
| Calculator.WageComparison | utils/calculator.ts:34 | always finite: `r * ump = income * 100` for a positive UMP, 0 otherwise |
| Calculator.RatioMinusPercentage | utils/calculator.ts:33-35 | with a positive total, the income ratio exceeds the balance percentage by exactly 100 |
| Calculator.WorkedExample | utils/calculator.ts:31-39 | 5,000,000 income, two dependents and 2,000,000 per capita give total 4,000,000, balance 1,000,000, surplus, ratio 125, percentage 25 |
| Calculator.UnparsedExpenditure | utils/calculator.ts:27-39 | a NaN per-capita figure passes the guard and yields a NaN total and balance, neutral status and zero percentages |
| Calculator.GetAnalysisText | utils/calculator.ts:60-74 | the five bands with inclusive lower bounds 150, 120, 100 and 80, NaN falling into the lowest |
| Calculator.AnalysisMonotone | utils/calculator.ts:60-74 | a higher ratio never gets a worse verdict |
| Calculator.AnalysisOfCalculation | utils/calculator.ts:60-74 | for a calculated result: balance zero reads adequate, a surplus at least adequate, a deficit below adequate |
| Calculator.CalculateComparisonInsight | utils/calculator.ts:97-118 | surplus difference is target minus origin; better exactly when the target balance is larger; cost change relative to a positive origin total (NaN when the target total is NaN) and 0 otherwise; per-capita difference |
| Calculator.ComparisonSwap | utils/calculator.ts:101-110 | swapping the results negates both differences, and both directions are never better |
| Calculator.ComparisonWithItself | utils/calculator.ts:101-110 | comparing a finite result with itself gives 0, false, 0, 0 |
| Calculator.ComparisonExample | utils/calculator.ts:106-108 | origin total 4,000,000 and target 4,500,000 give a 12.5 percent change |
| Decimal.DigitsRoundTrip | utils/formatters.ts:35 | reading back the decimal digits of a count gives the count |
| Decimal.LeadingZeroIgnored | utils/formatters.ts:35 | a leading zero does not change a digit string's value |
| Decimal.ParseFloatResidue | composables/useExpenditureData.ts:71-81 | `parseFloat` on a string of digits and periods: NaN exactly when it starts with neither a digit nor a period followed by a digit; otherwise a non-negative value |
| Decimal.ResidueValue | composables/useExpenditureData.ts:71-81 | a residue `w . f rest`, with `w` and `f` digit runs not both empty and `rest` empty or starting at the next period, is read as `w` plus `f` over its power of ten |
| Decimal.ParseFloatOfDigits | composables/useExpenditureData.ts:71-81 | a string of digits alone is read as the whole number it spells |
| Decimal.ParseFloatRoundTrip | composables/useExpenditureData.ts:71-81 | reading back the digits of a count gives the count |
| ExpenditureData.ParseCell | composables/useExpenditureData.ts:71-81 | a number cell is taken as is; a missing, empty or `false` cell is 0; a `true` cell is NaN; a string keeps only digits and periods, is NaN exactly when that residue has no leading number, and is otherwise non-negative |
| ExpenditureData.CellValue | composables/useExpenditureData.ts:71-81 | a string whose digits and periods are `w . f rest` reads as `w` plus `f` over its power of ten, also when `w` is empty |
| ExpenditureData.CellWhole | composables/useExpenditureData.ts:71-81 | a string whose digits and periods are a digit run `w` alone reads as `w` |
| ExpenditureData.HalfWithoutWhole | composables/useExpenditureData.ts:71-81 | `".5"` reads as 0.5 |
| ExpenditureData.CellOfDigits | composables/useExpenditureData.ts:71-81 | a cell spelling a count in digits reads as that count |
| ExpenditureData.MinusSignDropped | composables/useExpenditureData.ts:71-81 | a leading minus sign is filtered out, so a negative cell reads as its absolute value |
| ExpenditureData.DashIsNaN | composables/useExpenditureData.ts:71-81 | a cell `"-"` reads as NaN |
| ExpenditureData.RupiahWithSeparators | composables/useExpenditureData.ts:71-81 | `"Rp 1.234.567"` reads as 1.234 |
| ExpenditureData.Seed | composables/useExpenditureData.ts:19-27 | a seeded record copies name and UMP and has all three figures 0 |
| ExpenditureData.SeedMap | composables/useExpenditureData.ts:16-31 | the seeded record has exactly the table's ids as keys |
| ExpenditureData.SeedMapOfTable | composables/useExpenditureData.ts:16-31 | for the shipped table, each of the 38 ids holds its entry's name and UMP and zero expenditure |
| ExpenditureData.RowTarget | composables/useExpenditureData.ts:63-85 | a row updates an id exactly when its trimmed `Provinsi` is present, non-empty, not `Indonesia`, resolves, and the id is a key of the record |
| ExpenditureData.WithFigures | composables/useExpenditureData.ts:86-91 | the three figures come from the `Jumlah`, `Makanan` and `Bukan Makanan` cells; name and UMP are kept |
| ExpenditureData.ApplyRow | composables/useExpenditureData.ts:62-93 | one row: keys, names and UMPs kept; an untargeted row changes nothing; a targeted row changes only its record |
| ExpenditureData.ApplyRows | composables/useExpenditureData.ts:60-95 | the whole loop keeps the key set, every name and every UMP |
| ExpenditureData.Untargeted | composables/useExpenditureData.ts:62-93 | a province no row targets keeps its record |
| ExpenditureData.LastRowWins | composables/useExpenditureData.ts:86-91 | of several rows naming one province, the last decides its figures |
| ExpenditureData.DkiJakartaRow | composables/useExpenditureData.ts:84-91 | a `"DKI Jakarta"` row with food 1,000,000, non-food 1,500,000 and total 2,500,000, applied to the seeded record, gives dki-jakarta exactly those three figures with its name and UMP 5,067,381 |
| ExpenditureData.Eligible | composables/useExpenditureData.ts:109-116 | an option is listed exactly when it is the option of an entry with a positive per-capita figure |
| ExpenditureData.SortByName | composables/useExpenditureData.ts:117 | the sort returns a permutation ordered by name |
| ExpenditureData.GetProvinceList | composables/useExpenditureData.ts:108-118 | ordered by name, a permutation of the eligible options, containing exactly the options of the entries with a positive per-capita figure |
| ExpenditureData.ProvinceListOfRecord | composables/useExpenditureData.ts:108-118 | a province of the record is offered exactly when its per-capita figure is positive, with its own option |
| ExpenditureData.ExpenditureStore.constructor | composables/useExpenditureData.ts:11 | the record starts empty |
| ExpenditureData.ExpenditureStore.InitializeProvinceData | composables/useExpenditureData.ts:16-31 | the loop builds the seeded record and stores it |
| ExpenditureData.ExpenditureStore.LoadExpenditureData | composables/useExpenditureData.ts:60-96 | seeding then the row loop gives the rows applied in order to the seeded record, which is stored |
| GeoJson.Or | composables/useGeoJson.ts:21-26 | `a \|\| b` on strings: `a` when non-empty, else `b` |
| GeoJson.GetProvinceName | composables/useGeoJson.ts:20-28 | the first non-empty of `Propinsi`, `PROVINSI`, `provinsi`, `name`, else `''`, trimmed |
| GeoJson.BlankPropinsiWins | composables/useGeoJson.ts:20-28 | a blank `Propinsi` wins over a proper `PROVINSI` and yields `''` |
| GeoJson.GenerateProvinceId | composables/useGeoJson.ts:33-38 | a slug is no longer than the name and holds only lower-case letters, digits and hyphens |
| GeoJson.SlugKeepsLettersDigits | composables/useGeoJson.ts:33-38 | without its hyphens, the slug is exactly the lower-case letters and digits of the lower-cased name, in order |
| GeoJson.SlugJoin | composables/useGeoJson.ts:33-38 | a maximal whitespace run between two parts of a name becomes exactly one hyphen, each part slugged on its own |
| GeoJson.SlugIdempotent | composables/useGeoJson.ts:33-38 | the slug of a slug is the slug itself |
| GeoJson.SlugOfDkiJakarta | composables/useGeoJson.ts:33-38 | `"DKI JAKARTA"` becomes `"dki-jakarta"` |
| GeoJson.SlugOfYogyakarta | composables/useGeoJson.ts:33-38 | `"D.I. Yogyakarta"` becomes `"di-yogyakarta"` |
| GeoJson.SlugOfBangkaBelitung | composables/useGeoJson.ts:33-38 | `"Kepulauan Bangka Belitung"` becomes `"kepulauan-bangka-belitung"`, not the table id `"bangka-belitung"` |
| GeoJson.NormalizeProperties | composables/useGeoJson.ts:58-66 | existing properties are kept; the name and its slug are added |
| GeoJson.NormalizeFeatures | composables/useGeoJson.ts:57-67 | same count and order, same geometry, each feature's properties normalised |
| GeoJson.NormalizeTwice | composables/useGeoJson.ts:57-67 | normalising already normalised features changes nothing |
| GeoJson.NonEmptyNames | composables/useGeoJson.ts:97-99 | a name is listed exactly when some feature's normalised name is that non-empty string |
| GeoJson.NonEmptyNamesOne | composables/useGeoJson.ts:97-99 | one feature contributes its normalised name exactly when that name is non-empty |
| GeoJson.NonEmptyNamesAppend | composables/useGeoJson.ts:97-99 | the names of two runs of features are the first run's names followed by the second's, so the list keeps feature order |
| GeoJson.GeoJsonStore.constructor | composables/useGeoJson.ts:13 | nothing is loaded at first |
| GeoJson.GeoJsonStore.FetchGeoJson | composables/useGeoJson.ts:54-70 | the fetched features are normalised and stored |
| GeoJson.GeoJsonStore.GetFeatureById | composables/useGeoJson.ts:83-89 | nothing before loading; otherwise the first feature with that normalised id, and none exactly when no feature has it |
| GeoJson.GeoJsonStore.GetAllProvinceNames | composables/useGeoJson.ts:94-100 | nothing before loading; otherwise `NonEmptyNames` of the loaded features, none of them empty |
| GeoJson.LoadedFeatureFound | composables/useGeoJson.ts:83-89 | after loading, every feature is found under the slug of its own name |
| GeoJson.LoadedNames | composables/useGeoJson.ts:94-100 | after loading, the names listed are exactly the non-empty names of the fetched features |
| CalculatorStore.CurrentProvinceData | stores/calculator.ts:25-28 | the selected province's record, when an id is selected, non-empty and known |
| CalculatorStore.CalculationResultOf | stores/calculator.ts:33-41 | no result exactly without a known province, with income or dependents not positive, or with a finite per-capita figure not positive; otherwise the store calculation |
| CalculatorStore.StoreCalculation | stores/calculator.ts:43-69 | total is per capita times dependents, positive or NaN; balance plus total is the income; status by sign; per-capita figure passed on; food figures, missing ones as 0, scaled by the dependents |
| CalculatorStore.StorePercentages | stores/calculator.ts:46-48 | balance percentage relative to the income, NaN exactly with a NaN balance; wage comparison infinite exactly for a zero UMP, otherwise `r * ump = income * 100`; ratio relative to the total, NaN exactly with a NaN total |
| CalculatorStore.HouseholdTotal | stores/calculator.ts:44 | a positive per-capita figure gives a positive total; NaN gives NaN |
| CalculatorStore.PercentOfIncome | stores/calculator.ts:46 | `r * income = balance * 100`, NaN only from NaN |
| CalculatorStore.UmpComparison | stores/calculator.ts:47 | infinite exactly for a zero UMP, otherwise `r * ump = income * 100` |
| CalculatorStore.IncomeRatio | stores/calculator.ts:48 | `r * total = income * 100`, NaN exactly for a NaN total |
| CalculatorStore.IsCalculationReady | stores/calculator.ts:75-83 | ready only with a positive income, at least one dependent and a known province; for a known province, ready exactly when those hold and its per-capita figure is a positive number, NaN counting as 0 |
| CalculatorStore.ReadyIffResult | stores/calculator.ts:75-83 | the store is ready exactly when it has a result whose per-capita figure is not NaN |
| CalculatorStore.ResultWithoutReadiness | stores/calculator.ts:75-83 | a NaN per-capita figure gives a neutral result while the store is not ready |
| CalculatorStore.StoreAgreesWithCalculator | stores/calculator.ts:43-57 | for a finite per-capita figure and a positive UMP, total, balance, status, wage comparison, ratio and per-capita figure equal those of `calculateFinancials`; the balance percentages differ only in their base, and the food figure is scaled by the dependents |
| CalculatorStore.RatioAgainstHundred | stores/calculator.ts:94-102 | a ratio relative to a positive total is above or below 100 exactly when the income is above or below the total |
| CalculatorStore.AnalysisTextOf | stores/calculator.ts:88-90 | no text exactly without a result, otherwise the text for the result |
| CalculatorStore.TextFor | stores/calculator.ts:92-102 | the deficit text exactly for a deficit, quoting ratio and dependents; otherwise bands below 120, below 150, and the rest (NaN included) |
| CalculatorStore.AnalysisTextAgrees | stores/calculator.ts:94-102 | for a finite per-capita figure, the store's texts are the shared five bands with the two lowest merged into the deficit text |
| CalculatorStore.UnparsedFigureReadsVeryGood | stores/calculator.ts:88-103 | a NaN per-capita figure makes the store show the best text |
| CalculatorStore.CalculatorStore.constructor | stores/calculator.ts:10-19 | the initial state: income 0, one dependent, nothing selected, no records, flags false, no error |
| CalculatorStore.CalculatorStore.SetIncome | stores/calculator.ts:107-109 | income becomes `max(0, v)`, nothing else changes, the state stays valid; a non-positive value leaves no result |
| CalculatorStore.CalculatorStore.SetDependents | stores/calculator.ts:111-113 | dependents become `max(1, floor(v))`, nothing else changes, the state stays valid |
| CalculatorStore.CalculatorStore.SelectProvince | stores/calculator.ts:115-118 | exactly the selected id and name change |
| CalculatorStore.CalculatorStore.SetProvinceData | stores/calculator.ts:120-123 | exactly the records and the loaded flag change, the flag to true |
| CalculatorStore.CalculatorStore.SetLoading | stores/calculator.ts:125-127 | exactly the loading flag changes |
| CalculatorStore.CalculatorStore.SetError | stores/calculator.ts:129-131 | exactly the error changes |
| CalculatorStore.CalculatorStore.Reset | stores/calculator.ts:133-139 | income, dependents, selection and error return to their initial values; records and flags are kept; there is no result and no text |
| Formatters.ParseCurrency | utils/formatters.ts:33-36 | the value of the input's digits in order; 0 when there are none |
| Formatters.ParseCurrencyRoundTrip | utils/formatters.ts:33-36 | reading back the digits of a count gives the count |
| Formatters.SeparatorIgnored | utils/formatters.ts:34 | inserting a non-digit anywhere changes nothing |
| Formatters.LeadingZeroesIgnored | utils/formatters.ts:35 | a leading zero changes nothing |
| Formatters.RupiahExample | utils/formatters.ts:33-36 | `"Rp1.500.000"` reads as 1500000 |
| Formatters.NegativeExample | utils/formatters.ts:33-36 | `"-5"` reads as 5 |
| Formatters.Clamp | utils/formatters.ts:55-57 | in `[lo, hi]` when `lo <= hi`; the value itself when already in range; `hi` when `lo > hi` |
| Formatters.ClampIdempotent | utils/formatters.ts:55-57 | clamping twice is clamping once |
| Formatters.ClampOutside | utils/formatters.ts:55-57 | below the range gives `lo`, above it gives `hi` |
| StatusConfig.GetStatusConfig | composables/useStatusConfig.ts:50-52 | each status has its own icon: rising for surplus, falling for deficit, flat for neutral |
| StatusConfig.StatusLabelsDistinct | composables/useStatusConfig.ts:19-41 | two different statuses never share a label or a background |
| StatusConfig.GetProgressBarColor | composables/useStatusConfig.ts:57-61 | surplus colour from 100, primary in `[80, 100)`, deficit below 80 and for NaN |
| StatusConfig.BarColorMatchesAnalysis | composables/useStatusConfig.ts:57-61 | the bar colour follows the five-band analysis of the same ratio |
| StatusConfig.GetBalanceColor | composables/useStatusConfig.ts:66-68 | the surplus text colour exactly for a balance of zero or more |
| StatusConfig.GetBalanceBgColor | composables/useStatusConfig.ts:73-75 | the surplus background exactly for a balance of zero or more |
| StatusConfig.BalanceColorsMatchStatus | composables/useStatusConfig.ts:66-75 | for a non-zero finite balance the colours are those of its status; zero is coloured surplus and NaN deficit, both with neutral status |
| StatusConfig.CalculateProgressWidth | composables/useStatusConfig.ts:80-83 | `min(ratio, max)`: never above `max`, the ratio itself up to `max`, NaN only from NaN |
| StatusConfig.ProgressWidthMonotone | composables/useStatusConfig.ts:80-83 | the width grows with the ratio and never exceeds 100 by default |

## Left out

- Network and file access (`fetch` of the CSV file and of the map data, `response.ok`, `.text()`, `.json()`) and the CSV library (`Papa.parse`). The model takes already-parsed rows and already-decoded features as parameters, and leaves out the error paths those calls throw on.
- Vue `ref`, `readonly` and `computed`, and Pinia `defineStore`, are not modelled. State is plain fields and the getters are functions of a state snapshot.
- The `isLoading` and `error` refs of the two composables are not modelled. The store's own `isLoading` and `error` fields are modelled.
- IEEE-754 rounding, overflow and the 2^53 precision limit of `parseInt` are not modelled: arithmetic is exact `real` and `nat` arithmetic. NaN and infinity are modelled where the code can produce them.
- `Intl.NumberFormat` (`formatCurrency`, `formatNumber`) and `toFixed` (`formatPercentage`, and the ratio quoted in the store's deficit text) are not modelled. The deficit text carries the ratio and the dependents as values.
- ExpenditureData.NameLe: `localeCompare(…, 'id')` is replaced by lexicographic order on character codes. The sort is proved ordered by that relation and a permutation of the eligible options.
- ExpenditureData.GetProvinceList: the key order of `Object.entries` is not modelled; the entries are a parameter.
- Unicode case mapping and the full JavaScript `\s` class are not modelled. Case mapping and whitespace are ASCII only.
- The wording of the analysis texts is not modelled; each text is an enum value. The style class strings and labels of the status configuration are modelled as written, and the icon components are an enum.
- A cell that the CSV library's dynamic typing turns into a `Date` is not representable. Its string depends on the time zone of the browser. Numbers, the booleans `true` and `false`, strings, and empty or absent cells (`null` or missing) are modelled.
- A `Provinsi` cell that the CSV library types as a number (on which `.trim()` would throw) is not representable: `Provinsi` is an optional string.
- ExpenditureData.ApplyRow, ExpenditureData.ApplyRows: the resolver is a parameter, and the load method passes `Constants.GetUmpByProvinceName`. This keeps the fold's proofs independent of the matcher's definition.
- CalculatorStore.CalculatorStore.SetDependents: `dependents` is an `int` field. A non-finite argument (NaN, infinity), which `Math.floor` would pass through, is not representable as a `real`.
- CalculatorStore.CalculatorStore.SetIncome: a NaN argument, which `Math.max(0, NaN)` would store, is not representable as a `real`. The income is therefore always a number.
- The comparison fields that `types/index.ts` declares in the store's state type are not modelled, because the store never initialises or uses them.
- `formatPercentage` and the display-only parts of `calculateProgressWidth` (the `%` suffix) are not modelled. The width is returned as a number.
