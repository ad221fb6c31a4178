# LVTShift policy analysis in Dafny

This project models the analysis core of LVTShift's `policy_analysis.py`, a
toolkit for studying land-value-tax shifts on a table of parcels. It proves
properties of that model. The modelled operations are:

- **The exemption allocator** (`_compute_adjusted_values`). It turns raw land
  and improvement values into non-exempt (taxable) values. A partial exemption
  amount comes off the improvements first and the rest off the land, each
  clipped at 0. A nonzero full-exemption flag then zeroes both values.
- **Vacant-land analysis** (`analyze_vacant_land`). It covers the parcels of
  the vacant property type: their adjusted land total, mean and share of the
  city's adjusted land. It also gives breakdowns by neighbourhood and zoning,
  and owner concentration (the value held by the top 5% and top 10% of owners).
- **Parking-lot analysis** (`analyze_parking_lots`). For each lot it computes
  the improvement-to-land ratio. It reports the underutilized lots (land at or
  above a threshold, ratio at or below a maximum) and their development
  potential at the citywide ratio. It also summarizes the lots by land-value
  tier.
- **Land by improvement share** (`analyze_land_by_improvement_share`). It puts
  each parcel into one of four bands of improvement / (land + improvement),
  computed from full values. Each band reports its non-exempt land total and
  that total's percentage of all non-exempt land.
- **Development tax penalty** (`calculate_development_tax_penalty`). This is
  the present value of a tax on improvements over a number of years,
  computed with the annuity formula. It is compared with the improvement
  total and converted into housing units.
- **Summary by property category** (`analyze_property_values_by_category`).
  For each category it gives land and improvement totals, the parcel count and
  the improvement-to-land ratio. With exemption columns it adds exemption and
  non-exempt totals and fully exempt counts. Rows are sorted by land total,
  largest first.

The table model (`table.dfy`) treats a DataFrame as a set of column names and
a sequence of rows. Each row maps a column to a cell: `Num`, `Text` or `Null`.
`ToNumber` models `pd.to_numeric(..., errors='coerce').fillna(0)`. A
vectorised operation is a function over sequences, and a boolean mask selects
rows with `Select`. A group-by (`grouping.dfy`) yields the distinct
non-missing keys in order of first appearance, with per-key sums and counts.
Results are sorted by an insertion sort that is proved to return a sorted
permutation of its input.

Where the source would raise an exception, the model has a precondition. This
covers a missing required column, a text cell that would be summed or
compared, and a negative power of 0. Where the source yields an infinity or a
NaN, the model returns `None`, except where the source itself replaces them
with 0. Where the source returns its `{"error": ...}` marker, the model returns
`Error(message)`.

Points where the code, rather than its documentation, is followed:

- The allocator treats every nonzero flag as fully exempt. The fully exempt
  count of the category summary counts only flags equal to 1
  (`CategorySummary.FlagTwoZeroedButNotCounted`).
- The housing-unit estimate always reads the column `improvement_value`,
  whatever improvement column is passed.
- The top-5% and top-10% owner counts are `int(n * 0.05)` and `int(n * 0.10)`
  with a floor of 1, modelled as `n / 20` and `n / 10`.
- The improvement-share percentages use a base of 1 when the non-exempt land
  total is not positive.

## Model

| member | source | states |
|---|---|---|
| Exemptions.Clip | policy_analysis.py:46-51 | `.clip(lower=0)`: a non-negative input is kept and a negative input becomes 0, so the result is at least 0 and at least the input |
| Exemptions.Allocate | policy_analysis.py:19-59 | A nonzero flag zeroes both values whatever the partial amount. Without exemption columns the values pass through. An amount no larger than the improvements reduces only the improvements. A larger amount zeroes them and takes the excess off the land, clipped at 0. Without an improvement column the whole amount comes off the land |
| Exemptions.AllocateBounded | policy_analysis.py:41-58 | With non-negative raw values and amount, each adjusted value lies between 0 and its raw value |
| Exemptions.AllocateNonNegative | policy_analysis.py:41-58 | Non-negative raw values give non-negative adjusted values, whatever the amount's sign |
| Exemptions.AllocateExamples | policy_analysis.py:13-16 | Worked examples: an amount exceeding the improvements; a flagged parcel whose partial amount is ignored; a parcel with nothing left |
| Exemptions.AdjustRow | policy_analysis.py:19-59 | The allocator on one row: each optional column is read only when it is named and present, and the improvement result exists exactly when the improvement column is present |
| Exemptions.AdjustRowCases | policy_analysis.py:19-59 | On one row: a nonzero flag in a present flag column zeroes both values; with neither exemption column present the coerced values pass through; non-negative raw values stay non-negative |
| Exemptions.ComputeAdjustedValues | policy_analysis.py:6-59 | One adjusted pair per row, equal to the allocation of that row. The improvement result exists exactly when the improvement column is named and present |
| Exemptions.AdjustedNonNegative | policy_analysis.py:19-59 | Non-negative raw columns give non-negative adjusted columns |
| Exemptions.AdjustedValuesOfFiltered | policy_analysis.py:118-123 | Adjusting a filtered table gives the filtered adjusted values of the whole table |
| Table.ToNumber | policy_analysis.py:19 | `pd.to_numeric(errors='coerce').fillna(0)`: a number is kept, and text or a missing value becomes 0 |
| Table.MatchMask | policy_analysis.py:109 | `df[col] == identifier`: one entry per row, true exactly when the row's cell is that text |
| Table.Mean | policy_analysis.py:128 | `.mean()` is defined exactly on a non-empty column, and mean × length = sum |
| Table.RatioOrZero | policy_analysis.py:257 | A ratio with infinities and NaN replaced by 0: 0 for a zero denominator, otherwise ratio × denominator = numerator |
| Grouping.GroupKeys | policy_analysis.py:142 | The group keys are exactly the non-missing keys of the column, each once |
| Grouping.GroupSum | policy_analysis.py:629-635 | `groupby().sum()` of one group: the sum over the rows with that key, and 0 for a key that does not occur |
| Grouping.GroupCount | policy_analysis.py:629-635 | `groupby().size()` of one group: 0 exactly for a key that does not occur |
| Grouping.GroupCountPositive | policy_analysis.py:142-145 | Every reported group has at least one row |
| Grouping.GroupTotalsConserved | policy_analysis.py:164-166 | The group sums add up to the sum over the rows whose key is not missing |
| Grouping.SortDescending | policy_analysis.py:146 | `sort_values(ascending=False)` returns a permutation of its input, sorted by the score, largest first |
| Grouping.SumByPermutation | policy_analysis.py:168 | Reordering rows does not change a column total |
| Grouping.TakeSumMonotone | policy_analysis.py:178-179 | For non-negative values, a longer `head(k)` sums to more, and never more than the whole |
| Grouping.TopShareOfWhole | policy_analysis.py:178-179 | The first k of n values sorted descending sum to at least k/n of the total |
| VacantLand.PercentOf | policy_analysis.py:133-136 | The percentage is 0 when the total is not positive. Otherwise percentage × total = part × 100, and the percentage is non-negative for a non-negative part |
| VacantLand.PercentOfBounded | policy_analysis.py:133-136 | A part between 0 and the total gives a percentage in [0, 100] |
| VacantLand.PercentOfMonotone | policy_analysis.py:183-191 | A larger part never gives a smaller percentage |
| VacantLand.OwnerTable | policy_analysis.py:161-168 | The owner table is a permutation of the per-owner rows, sorted by total value, largest first |
| VacantLand.Breakdown | policy_analysis.py:139-158 | The breakdown rows are a permutation of the per-key statistics rows, sorted by total value, largest first |
| VacantLand.StatsRowOfKey | policy_analysis.py:139-158 | The statistics row of a key in the column has that key, count ≥ 1, the group's count and sum, and average × count = total |
| VacantLand.BreakdownRows | policy_analysis.py:139-158 | Every breakdown row belongs to a key that occurs in the column. Its count (≥ 1) and total are that group's, and its average is total / count |
| VacantLand.BreakdownTotalsConserved | policy_analysis.py:139-158 | The breakdown totals add up to the value of the parcels whose key is not missing |
| VacantLand.TopCounts | policy_analysis.py:175-177 | 1 ≤ top-5% count ≤ top-10% count ≤ number of owners. Each count is the truncated 5% or 10% of the owners, or 1 |
| VacantLand.TopCountsOfThreeOwners | policy_analysis.py:175-177 | Three owners give one owner in each top group |
| VacantLand.ConcentrationOf | policy_analysis.py:173-192 | The group sizes are those of TopCounts. Each group's value is the sum of the first that many owner totals. Each share × vacant total = value × 100 when the total is positive; otherwise both shares are 0 |
| VacantLand.Report | policy_analysis.py:118-192 | The parcel count is the number of vacant rows. The total is the city's adjusted land summed over the vacant rows, the average is total / count, and the city share is that total as a percentage of all adjusted land. Each breakdown exists exactly when its column is given and present, and is then the breakdown of the vacant rows' adjusted land by that column. The top-owner table and the concentration metrics exist exactly when the owner column is given and present. The top-owner table is then the first 10 rows of the owner table, and the metrics are computed from that table against the vacant total |
| VacantLand.AnalyzeVacantLand | policy_analysis.py:109-113 | The error marker, with its exact message, is returned exactly when no parcel has the vacant type |
| VacantLand.DefaultNoVacantLand | policy_analysis.py:62-113 | With the default parameters, a table with only a residential parcel yields the error marker for `prop_use_desc == 'Vacant Land'` |
| VacantLand.VacantShareOfCityBounded | policy_analysis.py:118-136 | With non-negative raw values the vacant total is non-negative and its share of the city total lies in [0, 100] |
| VacantLand.OwnerTotalsConserved | policy_analysis.py:161-168 | The owner totals add up to the vacant land of the parcels with a non-missing owner |
| VacantLand.OwnerTotalsNonNegative | policy_analysis.py:164-166 | Non-negative land values give non-negative owner totals |
| VacantLand.ConcentrationOrdered | policy_analysis.py:175-192 | 0 ≤ top-5% value ≤ top-10% value ≤ vacant total, and 0 ≤ top-5% share ≤ top-10% share ≤ 100 |
| VacantLand.TopOwnersShare | policy_analysis.py:168-179 | In the sorted owner table, the k largest owners hold at least k/n of the value of all n owners |
| ParkingLots.Ratios | policy_analysis.py:257 | One ratio per lot. Ratio × land = improvements where the land is nonzero. The ratio is 0 where the land is 0, replacing the infinity or NaN |
| ParkingLots.UnderutilizedMask | policy_analysis.py:270-273 | One mask entry per lot |
| ParkingLots.UnderutilizedByValues | policy_analysis.py:270-273 | With a positive threshold, a lot is underutilized exactly when its land reaches the threshold and its improvements are at most the maximum ratio × its land |
| ParkingLots.UnderutilizedLots | policy_analysis.py:270-284 | The count and the land and improvement totals are those of the lots the underutilized mask selects, and average × count = land total |
| ParkingLots.UnderutilizedOf | policy_analysis.py:274-284 | The count is the number of selected lots. The land and improvement totals are the sums over the selected lots. With none selected every figure is 0; otherwise average × count = land total |
| ParkingLots.DefaultUnderutilizedExample | policy_analysis.py:197-284 | With the default thresholds (50,000 and 0.1), of lots with land 60,000, 40,000 and 80,000 and improvements 5,000, 0 and 20,000, only the first is underutilized |
| ParkingLots.CitywideRatio | policy_analysis.py:288-292 | A positive city land total gives ratio × land = improvements; any other land total gives 0 |
| ParkingLots.CityRatio | policy_analysis.py:288-292 | The citywide ratio over the whole table's adjusted values: ratio × land total = improvement total when the land total is positive, otherwise 0 |
| ParkingLots.PotentialOf | policy_analysis.py:293-301 | The current value is the underutilized improvement total. The potential is the underutilized land × the citywide ratio. Untapped + current = potential |
| ParkingLots.TierOf | policy_analysis.py:304-306 | `pd.cut` with right-closed bins: a value has a tier exactly when it is positive, and that tier is the one whose bin contains it |
| ParkingLots.TierRow | policy_analysis.py:313-317 | A tier's count, land total, mean land and mean ratio are those of the lots in its bin. The means exist exactly when the count is positive |
| ParkingLots.TierTable | policy_analysis.py:313-318 | Five rows, one per tier in tier order, empty tiers included |
| ParkingLots.ReportOf | policy_analysis.py:255-318 | The lot count, the land and improvement totals, the mean land and the mean ratio are those of the lots' values. The underutilized figures and the tier table are those of the lots. Development potential exists exactly when some lot is underutilized, and is then computed at the citywide ratio |
| ParkingLots.Report | policy_analysis.py:241-301 | The lot count is the number of parking rows. The land and improvement totals are the city's adjusted values summed over the parking rows. Development potential exists exactly when some lot is underutilized, and then uses the citywide ratio of the whole table |
| ParkingLots.AnalyzeParkingLots | policy_analysis.py:241-245 | The error marker, with its exact message, is returned exactly when no parcel has the parking type; otherwise at least one lot is reported |
| ParkingLots.SelectedAtLeast | policy_analysis.py:270-281 | If every selected lot has land ≥ t, the land total is ≥ count × t and the mean is ≥ t |
| ParkingLots.UnderutilizedAboveThreshold | policy_analysis.py:270-281 | The underutilized land total is at least threshold × count, and their mean is at least the threshold |
| ParkingLots.SelectedScaledBound | policy_analysis.py:270-282 | Per-lot improvements ≤ c × land carries over to the selected totals |
| ParkingLots.UnderutilizedImprovementBounded | policy_analysis.py:270-282 | With a positive threshold, underutilized improvements ≤ maximum ratio × underutilized land |
| ParkingLots.UntappedNonNegative | policy_analysis.py:286-301 | With a positive threshold and a maximum ratio no higher than the citywide ratio, the untapped development value is not negative |
| ParkingLots.TiersPartitionCount | policy_analysis.py:304-306 | The five tier counts add up to the number of lots with positive land |
| ParkingLots.TierCountsPartitionLots | policy_analysis.py:304-318 | The tier table's counts add up to the number of lots with positive land |
| ImprovementShare.ShareOf | policy_analysis.py:356-358 | The share exists exactly when land + improvement ≠ 0, and share × total = improvement |
| ImprovementShare.InCategory | policy_analysis.py:372-377 | A parcel in any category has a nonzero total value. It has zero improvements exactly when its improvements are 0 and its land is positive |
| ImprovementShare.CategoriesDisjoint | policy_analysis.py:372-377 | No parcel falls in two categories |
| ImprovementShare.CategoryByValues | policy_analysis.py:372-377 | For a positive total each category is a band of improvement relative to total: 0, (0, 10%), [10%, 25%), [25%, 50%) |
| ImprovementShare.Denominator | policy_analysis.py:379-382 | The base is positive: the non-exempt land total when positive, otherwise 1 |
| ImprovementShare.Percent | policy_analysis.py:388 | percentage × base = part × 100 |
| ImprovementShare.CategoryRow | policy_analysis.py:384-394 | Name, count and adjusted land of the non-exempt rows in the category, and land as a percentage of the base |
| ImprovementShare.Summarize | policy_analysis.py:379-405 | The total is the non-exempt adjusted land. There are four category rows, in the source's order, over the same base |
| ImprovementShare.CategoryCountsBounded | policy_analysis.py:384-401 | The category counts add up to at most the number of non-exempt parcels |
| ImprovementShare.CategoryLandBounded | policy_analysis.py:384-401 | With non-negative adjusted land, the category land totals add up to at most the non-exempt total |
| ImprovementShare.SharesNonNegative | policy_analysis.py:384-394 | With non-negative adjusted land every category's land and share is non-negative |
| ImprovementShare.SharesAtMostHundred | policy_analysis.py:379-401 | With non-negative adjusted land the four shares add up to at most 100 |
| ImprovementShare.NonExemptMask | policy_analysis.py:364-370 | Without a usable flag column every row is kept. With one, a row is kept exactly when it is not fully exempt (flag = 0) |
| ImprovementShare.AnalyzeLandByImprovementShare | policy_analysis.py:346-407 | The reported total is the adjusted land of the rows not fully exempt. There are four categories. Each is the category row over the coerced full values, the adjusted land and the non-exempt rows, with the total's base |
| ImprovementShare.DroppedRowsHaveNoLand | policy_analysis.py:361-370 | A row dropped as fully exempt already has adjusted land 0 |
| ImprovementShare.DefaultOneParcel | policy_analysis.py:323-407 | With the default columns, a parcel with land 100 and improvements 5 is the one parcel under 10%, and that category holds 100% of the land |
| ImprovementShare.FullyExemptExcluded | policy_analysis.py:364-370 | A row with a nonzero flag is counted in no category |
| ImprovementShare.AnalysisSharesAtMostHundred | policy_analysis.py:346-407 | With non-negative raw values the analysis's shares add up to at most 100 |
| DevelopmentTax.Npv | policy_analysis.py:452-456 | Without discounting the NPV is annual × years. Otherwise NPV × r = annual × (1 − (1 + r)^−years). A zero annual tax gives 0 |
| DevelopmentTax.Percentage | policy_analysis.py:459 | A percentage exists exactly when the divisor is nonzero, and then percentage × divisor = dividend × 100 |
| DevelopmentTax.ResidentialMask | policy_analysis.py:468 | A row counts as having improvements exactly when its `improvement_value` is a number above 0 |
| DevelopmentTax.Quotient | policy_analysis.py:459-473 | A quotient exists exactly when the divisor is nonzero (otherwise infinity or NaN), and quotient × divisor = dividend |
| DevelopmentTax.DiscountedSumClosed | policy_analysis.py:451-456 | r × (sum of n payments discounted by (1 + r)^t) = annual × (1 − (1 + r)^−n) |
| DevelopmentTax.NpvIsDiscountedSum | policy_analysis.py:451-456 | The annuity formula, including the undiscounted case r = 0, equals the sum of the payments discounted year by year |
| DevelopmentTax.DiscountedSumBounded | policy_analysis.py:451-456 | With a non-negative rate and tax, the discounted sum lies between 0 and the undiscounted total |
| DevelopmentTax.NpvBounded | policy_analysis.py:451-456 | With a non-negative rate and tax, 0 ≤ NPV ≤ annual tax × years |
| DevelopmentTax.CalculateDevelopmentTaxPenalty | policy_analysis.py:445-482 | The report echoes the millage and discount rates as percentages, and the years, cost per square foot and unit size as given. The total is the improvement column's sum with missing values skipped. The annual tax is total × millage, the NPV is the annuity of that tax, and the unit cost is cost per square foot × unit size. The percentage exists exactly when the total is nonzero and the lost units exactly when the unit cost is nonzero; each then satisfies its defining product. Current units are 1.5 × the parcels with positive `improvement_value`. The percentage lost exists exactly when the lost units exist and current units are nonzero, and then percentage × current units = lost units × 100 |
| DevelopmentTax.DefaultPenaltyNpv | policy_analysis.py:410-456 | With the default parameters and non-negative improvements, the NPV is the sum of 30 payments discounted at 5%, and lies between 0 and 30 years of tax |
| CategorySummary.RowOf | policy_analysis.py:629-675 | A category's row has its count, its land and improvement sums, and ratio × land = improvements (ratio 0 for zero land). Exemption and non-exempt totals exist exactly when their inputs do, and are then the category's sums. The non-exempt ratio × non-exempt land = non-exempt improvements, and the ratio is 0 for zero non-exempt land. The fully exempt count is not reported exactly without flags. Otherwise it is the number of the category's parcels flagged 1, with a count of 0 shown as the missing value |
| CategorySummary.FlaggedOneMask | policy_analysis.py:674 | `flag == 1`: one entry per row, true exactly when the flag equals 1, so a flag of 2 is not counted |
| CategorySummary.Summarize | policy_analysis.py:629-681 | The rows are a permutation of the per-category rows, sorted by land total, largest first |
| CategorySummary.RowOfSummary | policy_analysis.py:629-675 | Every row is the summary of its own category, and that category occurs in the data |
| CategorySummary.RowsAreCategories | policy_analysis.py:629-635 | Every row's category is non-missing and occurs in the data, with at least one parcel |
| CategorySummary.EveryCategoryListed | policy_analysis.py:629-635 | Every non-missing category of the data has a row |
| CategorySummary.CategoriesDistinct | policy_analysis.py:629-635 | No category has two rows |
| CategorySummary.LandTotalsConserved | policy_analysis.py:629-635 | The land totals of the rows add up to the land of all parcels with a non-missing category |
| CategorySummary.CountsConserved | policy_analysis.py:629-635 | The row counts add up to the number of parcels with a non-missing category |
| CategorySummary.FullyExemptWithinCount | policy_analysis.py:672-675 | The fully exempt count is absent exactly without a flag column. When present it lies between 1 and the category's parcel count |
| CategorySummary.NonExemptWithinRawTotals | policy_analysis.py:647-670 | When each adjusted value is at most its raw value, each category's non-exempt totals are at most its raw totals |
| CategorySummary.InputOf | policy_analysis.py:618-656 | One entry per row: the category cell, the coerced land and improvement values, and, when their columns are given, the coerced exemption amounts and flags. The adjusted values exist exactly when an exemption or flag column is given, and are then the allocator's result for each row |
| CategorySummary.AnalyzePropertyValuesByCategory | policy_analysis.py:618-683 | One row per non-missing category, sorted by land total, largest first |
| CategorySummary.NonExemptWithinRaw | policy_analysis.py:647-670 | With non-negative raw values and amounts, each category's non-exempt land and improvements lie between 0 and its raw totals |
| CategorySummary.FlagTwoZeroedButNotCounted | policy_analysis.py:674 | A single parcel flagged 2 gets non-exempt totals of 0, yet its category reports no fully exempt parcel |

## Left out

- Medians (`median_vacant_land_value`, the breakdowns' `median_value`): they are not modelled and have no field in the reports.
- `.round(2)` and `.round(3)` of the breakdown and tier tables: values are exact reals. The owner concentration therefore sums unrounded owner totals.
- The `criteria` string of the parking analysis, the `interpretation` texts, the `notes` string and the `analysis_parameters` formatting are left out. The rates are kept as percentages.
- The `print_*` functions, `cloud_utils.py` and `census_utils.py`: output and I/O only, outside the analysis core.
- Floating point: values are exact reals. Overflow, rounding, and the difference between NaN and infinity are not modelled, apart from the `None` results for a zero divisor.
- Ties in `sort_values`: pandas' sort is not stable, so rows with equal totals may come out in another order than the insertion sort's.
- Category keys that mix numbers and text: pandas may refuse to sort such group keys, but the model groups them like any other keys.
- Text cells in a column that the development penalty sums or compares: the source fails or concatenates, so the model requires that there are none.
- ParkingLots.Report: states the lot count, the totals and the potential's ratio. The means, underutilized figures and tiers come from ParkingLots.ReportOf over the lots' adjusted values.
- ParkingLots.UnderutilizedImprovementBounded: needs a positive land threshold. With a threshold of 0 or less, a lot with zero land has ratio 0 and can be underutilized while it has improvements.
- CategorySummary.AnalyzePropertyValuesByCategory: states sortedness and the rows' content. The `fully_exempt_count` column is `NoneFlagged` where pandas holds NaN.
- Negative raw values: the non-negativity and bound lemmas require non-negative raw land and improvement values. Without an exemption column or flag, a negative land value passes through the allocator unchanged.
- Numeric text: a cell holding numeric-looking text (`"1200"`) would be parsed by `pd.to_numeric`. The model assumes such cells are already `Num`, and treats every `Text` cell as non-numeric.
- ParkingLots.TierTable: lists every tier, empty ones included. This follows pandas' `observed=False` default for grouping by a categorical column.
