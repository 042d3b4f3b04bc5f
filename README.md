# Household solar tariff model

This project models the arithmetic of a script that estimates what a household
would pay, and how much of its load would be renewable, if it installed nine
solar panels. The input is the customer's table of 15-minute interval readings
in time order. Each reading gives solar output, installed panel count, load,
the grid renewable share, and import and export prices. The script adds one
column per derived quantity and would then print four totals and a fifth
line that holds no value. As written it stops before that: two of its lines
raise (see "## Left out"). The model describes the script with those two
lines removed.

- `tariff.dfy` (module `Tariff`): the constants of the run, the `Reading`
  record, and every per-row formula. This covers rescaled solar power, the
  pre-solar price and renewable energy, interval cost, export income, solar
  energy and renewable fraction. Cost and export income are tied to a
  reference definition: the energy bought from the grid is the positive part
  of `(load − scaled) / 4`, and the energy sold is the positive part of
  `(scaled − load) / 4`.
- `dataframe.dfy` (module `DataFrame`): the table as columns. `DeriveColumns`
  performs the script's column assignments in their order, including the three
  masked in-place writes (`df.loc[mask, col] = …`). It is proved equal to
  `Derived`, which defines each column by its per-row formula. The
  renewable-fraction column is created by a masked write, so until the
  complementary write fills it, the rows the first write skipped hold NaN.
  The second write's right-hand side is evaluated for every row, so it is
  non-finite where the load is zero. So the column is a column of cells, and
  a cell is non-finite exactly in a non-excess row with a zero load. Every
  other column, and every total but the mean, needs only a nonzero panel
  count in each row.
- `summary.dfy` (module `Summary`): the sums and the mean behind the lines the
  script would print, and lemmas about them.

Conventions of the model:

- Numbers are Dafny `real`.
- The division by the recorded panel count is a precondition (`Scalable`).
- The division by the load in non-excess rows is not a precondition of the
  table. It gives a non-finite cell of the renewable-fraction column. Only
  that fraction's own lemmas and the mean require it away (`Computable`).
- The grid renewable share is used exactly as recorded, without dividing by
  100. So the renewable fraction lies in [0, 1] only when that share does.

The script's strict test `load − scaled < 0` decides every branch. An interval
whose load is exactly matched by solar is not an excess interval.

The script has no battery simulation: its battery line is a placeholder. Its
reported total omits both the export income and the battery cost. A zero load
outside an excess interval is a division by zero, not a fully renewable
interval. This model follows the script on each of these points.

## Model

| member | source | states |
|---|---|---|
| `Tariff.PowerAfterScaling` | model.py:29 | the rescaled power `p` satisfies `p × NumberOfPanels = pv_totalPower_kW × 9`, and is defined only for a nonzero recorded panel count |
| `Tariff.SolarEnergyFor15m` | model.py:54 | the per-panel-then-rescaled solar energy is exactly a quarter of the rescaled power |
| `Tariff.CostFor15m` | model.py:41-45 | interval cost is the import price times the energy bought from the grid, which is zero in excess intervals; it is nonnegative at a nonnegative import price |
| `Tariff.ExportIncome` | model.py:48-51 | export income is the export price times the energy sold to the grid, which is zero outside excess intervals; it is nonnegative at a nonnegative export price |
| `Tariff.EnergyBalance` | model.py:44 | energy bought minus energy sold equals load energy minus solar energy; both are nonnegative and at most one is nonzero; the row is in the excess mask exactly when energy is sold |
| `Tariff.CostCases` | model.py:41-45 | cost is 0 in excess intervals and `importPrice × (load − scaled) / 4` otherwise; at a positive import price it is 0 exactly when load ≤ scaled solar |
| `Tariff.ExportIncomeCases` | model.py:44-51 | export income is 0 outside excess intervals and `(scaled − load) / 4 × exportPrice` in them; at a positive export price it is positive exactly in excess intervals |
| `Tariff.CostAndExportExclusive` | model.py:41-51 | in no interval are both the cost and the export income nonzero |
| `Tariff.BalancedInterval` | model.py:41-51 | when load equals scaled solar the strict test fails, so the row is not excess, and both cost and export income are 0 |
| `Tariff.PriceBeforeSolarIsHourly` | model.py:32 | for a nonnegative load, the pre-solar price column is four times the interval cost the same load would have with no solar |
| `Tariff.PreSolarRenewableEnergy` | model.py:35 | for a positive load and no solar, the renewable fraction times the load energy is the pre-solar renewable-energy column |
| `Tariff.HomeRenewableFraction` | model.py:57-59 | the fraction is 1 in excess intervals; otherwise it times the load energy equals solar energy plus the grid share of the energy bought |
| `Tariff.RenewableFractionBounds` | model.py:57-59 | suppose the grid share is in [0, 1], solar output is nonnegative and the panel count is positive; then the fraction lies in [0, 1], and outside excess intervals the load is positive and the fraction is at least scaled / load |
| `DataFrame.FractionCell` | model.py:57-59 | the fraction cell is finite exactly when the row is excess or its load is nonzero, and then holds the renewable fraction |
| `DataFrame.Quotient` | model.py:58-59 | a float division of a column is finite exactly when the divisor is nonzero, and then times the divisor gives the numerator |
| `DataFrame.DeriveColumns` | model.py:29-59 | the script's assignments, with the cost overwritten under the excess mask, export income zero-filled and then masked-assigned, and the renewable fraction built by two complementary masked writes, leave every column equal to its per-row formula; a fraction cell is left non-finite exactly in a non-excess row with a zero load |
| `Summary.SumAppend` | model.py:67-70 | appending a value to a column adds it to the column's sum |
| `Summary.PowerConsumedAppend` | model.py:68 | a reading appended to the table adds its load energy to the energy consumed, which therefore does not decrease for a nonnegative load |
| `Summary.PowerGeneratedAppend` | model.py:69 | a reading appended to the table adds its solar energy to the energy generated, which therefore does not decrease for nonnegative solar output and panel count |
| `Summary.PowerGeneratedIsScaledPowerOverFour` | model.py:69 | the energy generated is the sum of the rescaled power column divided by 4 |
| `Summary.TotalCostAtLeastPanelCost` | model.py:67 | the reported total is at least the panel cost of 9 × 80 when every import price is nonnegative |
| `Summary.PercentageRenewableBounds` | model.py:70 | for a nonempty table of readings with grid share in [0, 1], nonnegative solar and a finite fraction in each row, the fraction column has no non-finite cell and its mean lies in [0, 1] |
| `Summary.ReportedTotalIgnoresExport` | model.py:67 | for one excess interval the reported total is 720 while the net cost is 719.975 |
| `Summary.NetCostIsPanelsPlusNetBills` | model.py:67 | the net cost is the panel cost plus, for every interval, the energy bought times its price less the energy sold times its price |

## Findings

| source | as written | input that shows it | evidently intended | confidence | as-written member | corrected member |
|---|---|---|---|---|---|---|
| model.py:67 | the line labelled "Total cost after export" would print the panel cost plus the summed interval costs, with export income not subtracted | one interval of 2 kW solar (9 of 9 panels), 1 kW load, import 0.3, export 0.1 NZD/kWh, grid share 0.5: 720 would be printed, while the cost after export is 719.975 | panel cost plus summed costs minus summed export income | medium, not executed | `Summary.ReportedTotalIgnoresExport` | `Summary.NetCostIsPanelsPlusNetBills` |

`Summary.TotalCostAfterExport` models that line as written.
`Summary.NetCostAfterExport` is the corrected figure. Its property, proved in
`Summary.NetCostIsPanelsPlusNetBills`, is that it equals the panel cost plus
every interval's net bill against the grid.

## Left out

- Reading the CSV, dropping duplicates (the result is never used), selecting
  customer 25, parsing timestamps and sorting (model.py:5-16). These are pandas
  I/O. The model takes the already filtered, ordered readings as a `seq`.
  Customer id and timestamp are not fields of `Reading`.
- The script as written never reaches its totals. model.py:38 assigns a
  two-column frame to one column, which pandas rejects with an error.
  model.py:61 reads a column that does not exist, and tests a whole Series in
  an `if`; both raise. The model describes the script with lines 38 and 61
  deleted. Lines 41-71 then run as modelled.
- Writing the output CSV (model.py:64) and the print formatting (model.py:67-71).
  The four figures those lines would print are modelled as functions of the table.
- The "total cost before solar" line (model.py:71) would print an empty tuple. It
  computes no value.
- `pvSuppliedToLoad` (model.py:38) assigns a two-column frame to one column. It
  defines no per-row value and pandas rejects it.
- The battery: `stored_battery_energy` (model.py:61) reads a column that does not
  exist and tests a whole Series in an `if`; it is a placeholder. No
  state-of-charge recurrence is modelled. `batteryEfficiency`, `numberOfBatteries`,
  `batteryCapacity` and `costOfBatteries` (model.py:18, 21, 23, 26) feed
  no column and no printed figure.
- Floating point: rounding, and the different association of the rescaling at
  model.py:29 and model.py:54, are not modelled. Over the reals those two
  agree. NaN and infinity appear only where a masked write stores them or skips
  them. The divisions by zero are preconditions.
- `Summary.PercentageRenewable`: pandas' `mean` skips NaN cells, lets an
  infinity through, and gives NaN for an empty column. The model requires a
  nonempty column with no non-finite cell. `Computable` on every row
  guarantees the latter.
- The unused imports `mmap` and `numpy` (model.py:1, model.py:3).
