/**
 * The four summary figures the script would print for the whole table: total
 * cost, energy consumed, energy generated and the mean renewable fraction.
 */
module Summary {
  import opened Tariff
  import opened DataFrame

  /** `column.sum()` */
  function Sum(xs: seq<real>): real
  {
    if xs == [] then 0.0 else xs[0] + Sum(xs[1..])
  }

  /** `column.mean()`, which the script only takes of a nonempty column. */
  function Mean(xs: seq<real>): real
    requires xs != []
  {
    Sum(xs) / (|xs| as real)
  }

  /** `df['load_power_kW']` */
  function Loads(rows: seq<Reading>): seq<real>
  {
    seq(|rows|, i requires 0 <= i < |rows| => rows[i].loadPowerKW)
  }

  /** The "total cost after export" line: panel cost plus the interval costs. */
  function TotalCostAfterExport(df: Frame): real
  {
    (CostOfPanels as real) + Sum(df.costFor15m)
  }

  /** The "power consumed" line: the load column summed, as energy. */
  function PowerConsumed(df: Frame): real
  {
    Sum(Loads(df.rows)) / IntervalsPerHour
  }

  /** The "power generated" line: the solar-energy column summed. */
  function PowerGenerated(df: Frame): real
  {
    Sum(df.solarEnergyFor15m)
  }

  /** Every cell of a column holds a finite number. */
  predicate AllFinite(cells: seq<Cell>)
  {
    forall i :: 0 <= i < |cells| ==> cells[i].Finite?
  }

  /** The numbers of a column with no NaN or infinity in it. */
  function Values(cells: seq<Cell>): seq<real>
    requires AllFinite(cells)
  {
    seq(|cells|, i requires 0 <= i < |cells| => cells[i].value)
  }

  /** The "percentage renewable" line: the mean of the per-interval fractions. */
  function PercentageRenewable(df: Frame): real
    requires df.homeRenewableFraction != [] && AllFinite(df.homeRenewableFraction)
  {
    Mean(Values(df.homeRenewableFraction))
  }

  /** Appending one value adds it to the sum. */
  lemma {:induction false} SumAppend(xs: seq<real>, x: real)
    ensures Sum(xs + [x]) == Sum(xs) + x
  {
    if xs != [] {
      assert (xs + [x])[1..] == xs[1..] + [x];
      SumAppend(xs[1..], x);
    }
  }

  /** A sum of values each at least `lo` is at least `|xs| * lo`. */
  lemma {:induction false} SumAtLeast(xs: seq<real>, lo: real)
    requires forall i :: 0 <= i < |xs| ==> lo <= xs[i]
    ensures (|xs| as real) * lo <= Sum(xs)
  {
    if xs != [] {
      SumAtLeast(xs[1..], lo);
    }
  }

  /** A sum of values each at most `hi` is at most `|xs| * hi`. */
  lemma {:induction false} SumAtMost(xs: seq<real>, hi: real)
    requires forall i :: 0 <= i < |xs| ==> xs[i] <= hi
    ensures Sum(xs) <= (|xs| as real) * hi
  {
    if xs != [] {
      SumAtMost(xs[1..], hi);
    }
  }

  /** Summing quarters is a quarter of the sum. */
  lemma {:induction false} SumOfQuarters(xs: seq<real>, ys: seq<real>)
    requires |xs| == |ys|
    requires forall i :: 0 <= i < |ys| ==> ys[i] == xs[i] / IntervalsPerHour
    ensures Sum(ys) == Sum(xs) / IntervalsPerHour
  {
    if xs != [] {
      SumOfQuarters(xs[1..], ys[1..]);
    }
  }

  /** The sum of pointwise differences is the difference of the sums. */
  lemma {:induction false} SumOfDifferences(xs: seq<real>, ys: seq<real>, zs: seq<real>)
    requires |xs| == |ys| == |zs|
    requires forall i :: 0 <= i < |zs| ==> zs[i] == xs[i] - ys[i]
    ensures Sum(zs) == Sum(xs) - Sum(ys)
  {
    if xs != [] {
      SumOfDifferences(xs[1..], ys[1..], zs[1..]);
    }
  }

  /** Appending a reading appends one entry to each column. */
  lemma DerivedAppend(rows: seq<Reading>, r: Reading)
    requires AllScalable(rows) && Scalable(r)
    ensures AllScalable(rows + [r])
    ensures Loads(rows + [r]) == Loads(rows) + [r.loadPowerKW]
    ensures Derived(rows + [r]).solarEnergyFor15m == Derived(rows).solarEnergyFor15m + [SolarEnergyFor15m(r)]
  {
  }

  /** Energy generated is the rescaled power column summed, as energy. */
  lemma PowerGeneratedIsScaledPowerOverFour(rows: seq<Reading>)
    requires AllScalable(rows)
    ensures PowerGenerated(Derived(rows)) == Sum(Derived(rows).powerAfterScaling) / IntervalsPerHour
  {
    var df := Derived(rows);
    SumOfQuarters(df.powerAfterScaling, df.solarEnergyFor15m);
  }

  /** One more reading adds its load energy to the energy consumed. */
  lemma PowerConsumedAppend(rows: seq<Reading>, r: Reading)
    requires AllScalable(rows) && Scalable(r)
    ensures AllScalable(rows + [r])
    ensures PowerConsumed(Derived(rows + [r])) == PowerConsumed(Derived(rows)) + LoadEnergy(r)
    ensures r.loadPowerKW >= 0.0 ==> PowerConsumed(Derived(rows + [r])) >= PowerConsumed(Derived(rows))
  {
    DerivedAppend(rows, r);
    SumAppend(Loads(rows), r.loadPowerKW);
  }

  /** One more reading adds its solar energy to the energy generated. */
  lemma PowerGeneratedAppend(rows: seq<Reading>, r: Reading)
    requires AllScalable(rows) && Scalable(r)
    ensures AllScalable(rows + [r])
    ensures PowerGenerated(Derived(rows + [r])) == PowerGenerated(Derived(rows)) + SolarEnergyFor15m(r)
    ensures r.pvTotalPowerKW >= 0.0 && r.numberOfPanels > 0 ==>
      PowerGenerated(Derived(rows + [r])) >= PowerGenerated(Derived(rows))
  {
    DerivedAppend(rows, r);
    SumAppend(Derived(rows).solarEnergyFor15m, SolarEnergyFor15m(r));
  }

  /** At nonnegative import prices the reported total is at least the panel cost. */
  lemma TotalCostAtLeastPanelCost(rows: seq<Reading>)
    requires AllScalable(rows)
    requires forall i :: 0 <= i < |rows| ==> rows[i].priceGridImport >= 0.0
    ensures TotalCostAfterExport(Derived(rows)) >= CostOfPanels as real
  {
    SumAtLeast(Derived(rows).costFor15m, 0.0);
  }

  /** A reading whose grid share is in [0, 1] and whose solar output is nonnegative. */
  predicate PhysicalReading(r: Reading)
  {
    Computable(r) && 0.0 <= r.gridRenewableFractionPct <= 1.0
    && r.pvTotalPowerKW >= 0.0 && r.numberOfPanels > 0
  }

  /** The mean renewable fraction of physical readings lies in [0, 1]. */
  lemma PercentageRenewableBounds(rows: seq<Reading>)
    requires rows != []
    requires forall i :: 0 <= i < |rows| ==> PhysicalReading(rows[i])
    ensures AllScalable(rows) && AllFinite(Derived(rows).homeRenewableFraction)
    ensures 0.0 <= PercentageRenewable(Derived(rows)) <= 1.0
  {
    var cells := Derived(rows).homeRenewableFraction;
    assert AllFinite(cells);
    var fs := Values(cells);
    forall i | 0 <= i < |fs|
      ensures 0.0 <= fs[i] <= 1.0
    {
      RenewableFractionBounds(rows[i]);
    }
    SumAtLeast(fs, 0.0);
    SumAtMost(fs, 1.0);
  }

  /** Net cost: panel cost plus the interval costs, less the export income. */
  function NetCostAfterExport(df: Frame): real
  {
    (CostOfPanels as real) + Sum(df.costFor15m) - Sum(df.exportIncome)
  }

  /** What one interval adds to the bill: energy bought less energy sold, at their prices. */
  function NetBill(r: Reading): real
    requires Scalable(r)
  {
    r.priceGridImport * GridImportEnergy(r) - r.priceGridExport * GridExportEnergy(r)
  }

  /** The net cost is the panel cost plus the net bill of every interval. */
  lemma NetCostIsPanelsPlusNetBills(rows: seq<Reading>)
    requires AllScalable(rows)
    ensures NetCostAfterExport(Derived(rows))
      == (CostOfPanels as real) + Sum(seq(|rows|, i requires 0 <= i < |rows| => NetBill(rows[i])))
  {
    var df := Derived(rows);
    SumOfDifferences(df.costFor15m, df.exportIncome,
      seq(|rows|, i requires 0 <= i < |rows| => NetBill(rows[i])));
  }

  /** One interval of 2 kW rescaled solar against a 1 kW load, sold at 0.1 NZD per kWh. */
  lemma ReportedTotalIgnoresExport()
    ensures AllScalable([Reading(2.0, 9, 1.0, 0.5, 0.3, 0.1)])
    ensures TotalCostAfterExport(Derived([Reading(2.0, 9, 1.0, 0.5, 0.3, 0.1)])) == 720.0
    ensures NetCostAfterExport(Derived([Reading(2.0, 9, 1.0, 0.5, 0.3, 0.1)])) == 719.975
  {
  }
}
