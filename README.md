# GWaB irrigation water budget, modelled in Dafny

GWaB recommends monthly irrigation for a field. Its core is `calc_irrigation`
(`src/calculate.py`). It takes a table of monthly reference
evapotranspiration (`month`, `ET0`), a vegetation factor `pNDVI`, the season's
rain, the winter irrigation, a range of irrigation months, an irrigation
factor and a unit-conversion factor. It returns the same rows with `ET0`
masked to the season and converted, plus four new columns:

- actual evapotranspiration `ETa`;
- the recommended `irrigation`, which includes a fixed July→August/September
  redistribution;
- the running, zero-clipped soil-water balance `SW1`;
- a `drought`/`safe` alert.

The project has three modules:

- `Series` (`series.dfy`): column sums and scalar scaling, with the lemmas
  for running totals, scaling and single-row updates.
- `Calculate` (`calculate.dfy`): the data model (`Climate`, the input
  table; `Params`, the scalar arguments; `Frame`, the returned table;
  `Alert`), one pure function per column, and the imperative method
  `CalcIrrigation`. That method copies the columns into arrays and rewrites
  them in place in the order `calc_irrigation` uses: mask, scale, ETa, need, factor,
  redistribution, running balance, alert. Each step of the Python code is its own method
  with a loop. `CalcIrrigation` is proved to return exactly
  `IrrigationTable`, the table the column functions define.
- `CalculateProperties` (`properties.dfy`): the properties of that table,
  and how the app rescales the factor to match a water allocation.

All arithmetic is on mathematical reals.

## Model

| member | source | states |
|---|---|---|
| `Calculate.CalcIrrigation` | src/calculate.py:5-38 | Copying the table into arrays and rewriting its columns step by step gives exactly the table `IrrigationTable` defines. The only requirement is aligned columns and a month-7 row. |
| `Calculate.IrrigationTable` | src/calculate.py:6-38 | The result keeps the input rows in the input order, with the `month` column unchanged. Every column has one entry per input row. |
| `Calculate.ZeroInactive` | src/calculate.py:13-14 | In place: each row whose month is in neither 3..10 nor the irrigation months gets `ET0` 0. No other row changes. |
| `Calculate.ScaleInPlace` | src/calculate.py:15 | In place: every row of a column is multiplied by the scalar. The same method is used for the irrigation factor at line 26. |
| `Calculate.ActualEtColumn` | src/calculate.py:16 | A fresh column holding `ET0 * pNDVI / 0.7` for each row. |
| `Calculate.IrrigationColumn` | src/calculate.py:19-25 | A fresh column of zeros. Each irrigation month gets `ETa - swi` clipped at 0. When the range is empty, no row is selected. |
| `Calculate.FirstIndex` | src/calculate.py:29 | The position of the first row holding the month, and no earlier row holds it. This is `.iloc[0]`. |
| `Calculate.RedistributePeak` | src/calculate.py:29-32 | In place: a fifth of the first July row's value is taken from every month-7 row. Month-8 rows gain 40% of it and month-9 rows 60%. |
| `Calculate.RunningBalance` | src/calculate.py:35 | A loop with two accumulators computes `max(0, rain_eff - cumsum(ETa) + cumsum(irrigation))` row by row. |
| `Calculate.AlertColumn` | src/calculate.py:36 | A fresh column: `Drought` where `SW1` is 0, otherwise `Safe`. |
| `Series.Sum` | src/calculate.py:19 | A column's `.sum()`, adding its rows in order; the empty column sums to 0. Its properties are the lemmas below. |
| `Series.SumNonNegative` | src/calculate.py:19 | A column with no negative row has a non-negative sum. |
| `Series.Scale` | src/calculate.py:15 | `df[col] *= c`: every row multiplied by the same scalar; the contract keeps the column's length. Line 26 uses it for the irrigation factor. |
| `Series.ScaleRows` | src/calculate.py:15 | Scaling by 1 leaves a column unchanged. With a non-negative factor, a non-negative column stays non-negative. |
| `Calculate.EffectiveRain` | src/calculate.py:7 | `rain_eff`: 80% of the season's rain in display units, plus the winter irrigation. |
| `CalculateProperties.EffectiveRainBounds` | src/calculate.py:7 | For non-negative rain and unit scale, `m_winter <= rain_eff <= rain*cf + m_winter`. |
| `Calculate.IsActive` | src/calculate.py:13 | `is_active`: the month is in 3..10 (`range(3, 11)`) or among the irrigation months. |
| `CalculateProperties.ActiveMonths` | src/calculate.py:13 | Every irrigation month is active. When the irrigation range lies inside 3..10, the active months are exactly 3..10. |
| `Calculate.InIrrigationMonths` | src/calculate.py:10-24 | `isin(irr_mnts)`: the month lies in `m_start..m_end`, so an empty range holds no month. Lines 13, 19 and 24 each test it. |
| `Calculate.MaskInactive` | src/calculate.py:13-14 | `df.loc[~is_active, 'ET0'] = 0`: a column of the same length, where active rows keep their `ET0` and inactive rows are 0. |
| `CalculateProperties.MaskInactiveRows` | src/calculate.py:13-14 | Active rows keep their `ET0` and inactive rows are 0. So a non-negative `ET0` column stays non-negative. |
| `Calculate.AdjustedEt0` | src/calculate.py:13-15 | The returned `ET0` column: the masked column times `conversion_factor`, one entry per row. |
| `CalculateProperties.AdjustedEt0Rows` | src/calculate.py:13-15 | An inactive month's adjusted `ET0` is 0 whatever the unit. A non-negative table stays non-negative under a non-negative unit scale. |
| `Calculate.ActualEt` | src/calculate.py:16 | `df['ETa'] = df['ET0'] * pNDVI / 0.7` row by row, one entry per row. |
| `CalculateProperties.ActualEtRows` | src/calculate.py:16 | In every row, `0.7 * ETa == pNDVI * ET0`. Non-negative `ET0` and `pNDVI` give a non-negative `ETa`. |
| `Calculate.TableEta` | src/calculate.py:13-16 | The returned `ETa` column: `ActualEt` of the masked and converted `ET0`, one entry per row. |
| `Calculate.IrrigationMonthCount` | src/calculate.py:10-20 | `len(irr_mnts)`: `m_end - m_start + 1`, or 0 when `m_start > m_end`. |
| `CalculateProperties.IrrigationMonthCountRange` | src/calculate.py:10-20 | The count is 0 exactly when the range is empty. Every irrigation month lies among that many consecutive months from `m_start`. A range within 1..12 has at most 12 months. |
| `Calculate.OffRangeColumn` | src/calculate.py:19 | The rows `eta_off_season` adds: `ETa` outside the irrigation months and 0 inside them, one entry per row, so its `Sum` is the selection's `.sum()`. |
| `Calculate.Swi` | src/calculate.py:19-20 | `swi`: the effective rain, less the `ETa` of the months outside the range and `50*cf`, divided by the month count. Its caller guarantees a non-empty range (see Left out). |
| `Calculate.Clip` | src/calculate.py:25 | `.clip(lower=0)` of one value: negative values become 0. |
| `Calculate.IrrigationNeed` | src/calculate.py:23-25 | The `irrigation` column before the factor: 0 outside the irrigation months, `ETa - swi` clipped at 0 inside them. |
| `CalculateProperties.IrrigationNeedRows` | src/calculate.py:23-25 | The need is never negative and is 0 outside the irrigation months. Inside them it is at least `ETa - swi`, and it equals either that or 0. |
| `Calculate.FactoredIrrigation` | src/calculate.py:26 | `df['irrigation'] *= irrigation_factor` applied to the need, one entry per row. |
| `CalculateProperties.FactoredIrrigationRows` | src/calculate.py:26 | The factored column sums to the factor times the total need. With a non-negative factor, no row is negative. |
| `Calculate.Irrigation` | src/calculate.py:23-32 | The returned `irrigation` column: the factored need after the peak-summer redistribution, one entry per row. Its properties are `IrrigationBeforeRedistribution`, `RedistributionCalendar` and `IrrigationLinear`. |
| `Calculate.Redistribute` | src/calculate.py:29-32 | With `vst` a fifth of the first month-7 row: every month-7 row loses `vst`, every month-8 row gains `0.4*vst`, every month-9 row gains `0.6*vst`, and the other rows keep their value. |
| `CalculateProperties.RedistributeRows` | src/calculate.py:29-32 | Only months 7, 8 and 9 change. The first July row keeps 80% of its value. A July value of 0 changes no row. |
| `Calculate.SoilWater` | src/calculate.py:35 | `SW1`: row by row, `rain_eff` minus the running `ETa` total plus the running irrigation total, clipped at 0. |
| `CalculateProperties.SoilWaterRows` | src/calculate.py:35 | `SW1` is never negative and never below the unclipped balance. Wherever it is positive, it equals that balance. |
| `Calculate.Alerts` | src/calculate.py:36 | `np.where(SW1 == 0, 'drought', 'safe')` row by row, one entry per row. |
| `CalculateProperties.AlertsRows` | src/calculate.py:36 | A row is `Drought` exactly when its `SW1` is 0. |
| `CalculateProperties.TotalIrrigation` | GWaB_app.py:104 | `total_irrigation = df_irrigation['irrigation'].sum()`: the sum of the returned `irrigation` column. |
| `CalculateProperties.TotalIrrigationCalendar` | GWaB_app.py:104 | On the 12-month table, the total is the factor times the total clipped need, so a non-negative factor gives a non-negative total. |
| `CalculateProperties.SeasonalMasking` | src/calculate.py:13-15 | Both ways: an inactive month's output `ET0` is 0, and an active month's is its input `ET0 * conversion_factor`. |
| `CalculateProperties.OffSeasonMonths` | src/calculate.py:13-15 | With irrigation months (4,9) on the 12-month table, months 1, 2, 11 and 12 have `ET0 == 0`. Months 3..10 keep `ET0 * conversion_factor`. |
| `CalculateProperties.ActualEtFormula` | src/calculate.py:13-16 | In every row of the table, `ETa == ET0adj * pNDVI / 0.7`, with no condition. Only the signs are conditional: when `ET0`, `pNDVI` and the unit scale are non-negative, the adjusted `ET0` and `ETa` are non-negative. |
| `CalculateProperties.SwiShare` | src/calculate.py:7-20 | `swi` multiplied by `m_end - m_start + 1` gives back `rain*cf*0.8 + m_winter`, minus the `ETa` of the months outside the range, minus `50*cf`. |
| `CalculateProperties.FullYearSwi` | src/calculate.py:19-20 | With irrigation range (1,12) on the 12-month table, the off-range `ETa` sum is 0 and `swi == (rain_eff - 50*cf)/12`. |
| `CalculateProperties.IrrigationBeforeRedistribution` | src/calculate.py:23-26 | Before the redistribution, an irrigation month holds the factor times `max(ETa - swi, 0)`, and its range is non-empty. Any other month holds 0. |
| `CalculateProperties.JulyIndex` | src/calculate.py:29 | On the 12-month table, the month-7 row read by `.iloc[0]` is the seventh row. |
| `CalculateProperties.RedistributionCalendar` | src/calculate.py:29-32 | On the 12-month table, July becomes `0.8*v`. August gains `0.4*vst` and September `0.6*vst`, where `vst = 0.2*v`. The other nine months are unchanged, and the July–September sum and the annual sum are conserved. |
| `CalculateProperties.RedistributeScale` | src/calculate.py:29-32 | Redistributing a scaled column gives the scaled redistribution. |
| `CalculateProperties.FactorOnlyScalesNeed` | src/calculate.py:13-25 | `ETa` and the clipped need do not depend on `irrigation_factor`. |
| `CalculateProperties.IrrigationLinear` | src/calculate.py:25-32 | Each month's final irrigation equals `irrigation_factor` times its final irrigation at factor 1. |
| `CalculateProperties.TotalLinear` | src/calculate.py:25-32 | The annual irrigation total equals `irrigation_factor` times the total at factor 1. |
| `CalculateProperties.IrrigationNonNegative` | src/calculate.py:25-32 | On the 12-month table, with `irrigation_factor >= 0`, every month's final irrigation is `>= 0`. |
| `CalculateProperties.AnnualTotalConserved` | src/calculate.py:26-32 | On the 12-month table, the redistribution leaves the annual irrigation total equal to the factored total. |
| `CalculateProperties.RedistributionNoOpWithoutJuly` | src/calculate.py:24-32 | On the 12-month table, if July is not an irrigation month, the final irrigation equals the factored need. The redistribution is then a no-op. |
| `CalculateProperties.LateSummerReceivesJulyWater` | src/calculate.py:24-32 | With range (3,7), August and September have no need of their own. They still end with `0.08*v` and `0.12*v`, where `v` is July's factored need. |
| `CalculateProperties.BalanceAndAlert` | src/calculate.py:35-36 | `SW1[m] = max(0, rain_eff - Σ_{k≤m} ETa[k] + Σ_{k≤m} irrigation[k])`, so `SW1 >= 0`. The alert is `Drought` exactly when that sum is `<= 0`, and `Safe` exactly when `SW1 > 0`. |
| `CalculateProperties.BalanceRunningTotal` | src/calculate.py:35 | The unclipped balance starts at `rain_eff - ETa[1] + irrigation[1]`. Each later month subtracts its `ETa` and adds its irrigation to the previous month's balance. |
| `CalculateProperties.AllocationRescaling` | GWaB_app.py:102-115 | If the factor-1 total `T` is positive, recomputing with `irrigation_factor = m_irrigation / T` makes the new total exactly `m_irrigation`. |
| `CalculateProperties.ExampleEta` | src/calculate.py:13-16 | Example: `ET0` 100 everywhere, `pNDVI` 0.5, range (3,10), unit scale 1. `ETa` is 500/7 in months 3..10 and 0 elsewhere. |
| `CalculateProperties.ExampleNeed` | src/calculate.py:19-26 | In the same example, `swi = -6.25`. Each month in 3..10 needs `500/7 + 6.25` and every other month needs 0. |
| `CalculateProperties.ExampleIrrigation` | src/calculate.py:29-32 | In the same example, July keeps `0.8*(500/7 + 6.25)`. January and February stay at 0. |
| `CalculateProperties.ExampleBalance` | src/calculate.py:35-36 | In the same example, January has `SW1 == 0` and `Drought`. March has `SW1 == 6.25` and `Safe`. |

## Left out

- `GWaB_app.py` as a user interface: the map, the geocoder, the sliders, the plots, and the display rounding to one decimal or to the nearest 5. Only the rescaling arithmetic at lines 102-115 is modelled, as `AllocationRescaling`.
- The vegetation transform `pNDVI = 0.8*(1 - exp(-3*ndvi))`: it is floating-point transcendental, so `pNDVI` is an input real.
- `get_GEE.py`: Earth Engine calls, caching and the date windows are network I/O. Its outputs are inputs here: the 12-row ET0 table and the rain total.
- IEEE-754 floating point: the model uses exact reals. In particular the test `SW1 == 0` is exact after the clip.
- Input validation: the code does not check its table or its range. The model follows the code. `CalcIrrigation` accepts any ints for the range. With `m_start > m_end`, `calc_irrigation` divides by `len([]) == 0`; numpy yields inf or nan without raising, and the masked assignment then selects no row. The model therefore gives zero irrigation and never uses `swi` in that case. A range reaching outside 1..12 keeps the Python code's divisor `m_end - m_start + 1`.
- `IrrigationNonNegative`, `RedistributionCalendar`, `AnnualTotalConserved`, `RedistributionNoOpWithoutJuly`, `LateSummerReceivesJulyWater`, `FullYearSwi`, `OffSeasonMonths`: these assume the 12-row calendar table that `get_et0` produces (`get_GEE.py:72-83`). If a table repeated month 7, `calc_irrigation` would subtract the first July row's fifth from every July row, and these properties could fail. The model computes that case but proves nothing about it.
- The missing-July error: `.iloc[0]` at `src/calculate.py:29` raises `IndexError` when the table has no month-7 row. `WellFormed` requires a month-7 row, so this error path is not modelled. `get_et0` always returns months 1..12 (`get_GEE.py:72-83`), so the app never reaches it.
- `AllocationRescaling`: requires a positive factor-1 total. When that total is 0, the app divides by zero (`GWaB_app.py:111`); that path is not modelled.
- `AllocationRescaling`: the app's guard `if m_irrigation > 0` (`GWaB_app.py:110`) is not modelled. With an allocation of 0 the app keeps the factor-1 table. The lemma still holds for every allocation: a zero allocation gives factor 0 and a total of 0.
- The `alert` column's strings `'drought'`/`'safe'` are the two constructors of `Alert`. `m_winter` is a real, though the app's slider gives an integer.
