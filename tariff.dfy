/**
 * Per-interval tariff and energy arithmetic of the household solar model.
 *
 * One `Reading` is one row of the customer's table: the power values of one
 * 15-minute interval. Every derived column of the table is a total function of
 * one reading and the constants of the run, defined here, together with the
 * properties those formulas promise.
 */
module Tariff {

  /** Panel count of the hypothetical installation. */
  const NewNumberOfPanels: int := 9

  /** Price of one panel, NZD. */
  const PanelUnitCost: int := 80

  /** What the panels cost in all, NZD. */
  const CostOfPanels: int := NewNumberOfPanels * PanelUnitCost

  /** A power held for one 15-minute interval delivers power / 4 of energy (kW to kWh). */
  const IntervalsPerHour: real := 4.0

  /** One 15-minute interval of one customer. */
  datatype Reading = Reading(
    pvTotalPowerKW: real,            // solar output of the installed array, kW
    numberOfPanels: int,             // panels the customer has installed
    loadPowerKW: real,               // household load, kW
    gridRenewableFractionPct: real,  // grid renewable share, used as recorded
    priceGridImport: real,           // NZD per kWh bought
    priceGridExport: real)           // NZD per kWh sold

  /** The row can be rescaled: its recorded panel count is not zero. */
  predicate Scalable(r: Reading)
  {
    r.numberOfPanels != 0
  }

  /** Solar output rescaled to the hypothetical panel count, kW. */
  function PowerAfterScaling(r: Reading): (p: real)
    requires Scalable(r)
    ensures p * (r.numberOfPanels as real) == r.pvTotalPowerKW * (NewNumberOfPanels as real)
  {
    (r.pvTotalPowerKW * (NewNumberOfPanels as real)) / (r.numberOfPanels as real)
  }

  /** Energy drawn by the household in the interval, kWh. */
  function LoadEnergy(r: Reading): real
  {
    r.loadPowerKW / IntervalsPerHour
  }

  /**
   * Energy the rescaled panels generate in the interval, kWh. The column is
   * computed per-panel first and then rescaled, which over the reals is a
   * quarter of the rescaled power.
   */
  function SolarEnergyFor15m(r: Reading): (e: real)
    requires Scalable(r)
    ensures IntervalsPerHour * e == PowerAfterScaling(r)
  {
    ((r.pvTotalPowerKW / (r.numberOfPanels as real)) * (NewNumberOfPanels as real)) / IntervalsPerHour
  }

  /** The mask of the script: rescaled solar output strictly exceeds the load. */
  predicate HasExcessPower(r: Reading)
    requires Scalable(r)
  {
    r.loadPowerKW - PowerAfterScaling(r) < 0.0
  }

  /** Load price before solar: import price times load power, with no interval factor. */
  function PriceBeforeSolar(r: Reading): real
  {
    r.priceGridImport * r.loadPowerKW
  }

  /** Renewable energy delivered to the load before solar, kWh. */
  function Energy2LoadPreSolar(r: Reading): real
  {
    r.gridRenewableFractionPct * r.loadPowerKW / IntervalsPerHour
  }

  /** The positive part of a real. */
  function Positive(x: real): real
  {
    if x > 0.0 then x else 0.0
  }

  /** Reference definition: energy the grid must supply in the interval, kWh. */
  function GridImportEnergy(r: Reading): real
    requires Scalable(r)
  {
    Positive(r.loadPowerKW - PowerAfterScaling(r)) / IntervalsPerHour
  }

  /** Reference definition: energy the panels send back to the grid in the interval, kWh. */
  function GridExportEnergy(r: Reading): real
    requires Scalable(r)
  {
    Positive(PowerAfterScaling(r) - r.loadPowerKW) / IntervalsPerHour
  }

  /** What the cost column holds for every row before the excess rows are overwritten. */
  function CostBeforeMask(r: Reading): real
    requires Scalable(r)
  {
    r.priceGridImport * ((r.loadPowerKW - PowerAfterScaling(r)) / IntervalsPerHour)
  }

  /** Cost of the interval: the unmasked cost, replaced by 0 in excess intervals. */
  function CostFor15m(r: Reading): (c: real)
    requires Scalable(r)
    ensures c == r.priceGridImport * GridImportEnergy(r)
    ensures r.priceGridImport >= 0.0 ==> c >= 0.0
  {
    if HasExcessPower(r) then 0.0 else CostBeforeMask(r)
  }

  /** The right-hand side of the export-income assignment, evaluated for any row. */
  function SurplusIncome(r: Reading): real
    requires Scalable(r)
  {
    ((PowerAfterScaling(r) - r.loadPowerKW) / IntervalsPerHour) * r.priceGridExport
  }

  /** Export income of the interval: zero, except in excess intervals. */
  function ExportIncome(r: Reading): (e: real)
    requires Scalable(r)
    ensures e == r.priceGridExport * GridExportEnergy(r)
    ensures r.priceGridExport >= 0.0 ==> e >= 0.0
  {
    if HasExcessPower(r) then SurplusIncome(r) else 0.0
  }

  /** Energy balance of one interval against the grid. */
  lemma EnergyBalance(r: Reading)
    requires Scalable(r)
    ensures GridImportEnergy(r) >= 0.0 && GridExportEnergy(r) >= 0.0
    ensures GridImportEnergy(r) - GridExportEnergy(r) == LoadEnergy(r) - SolarEnergyFor15m(r)
    ensures GridImportEnergy(r) == 0.0 || GridExportEnergy(r) == 0.0
    ensures HasExcessPower(r) <==> GridExportEnergy(r) > 0.0
  {
  }

  /** The two cases of the cost column, and when it is zero at a positive price. */
  lemma CostCases(r: Reading)
    requires Scalable(r)
    ensures HasExcessPower(r) ==> CostFor15m(r) == 0.0
    ensures !HasExcessPower(r) ==>
      CostFor15m(r) == r.priceGridImport * (r.loadPowerKW - PowerAfterScaling(r)) / IntervalsPerHour
    ensures r.priceGridImport > 0.0 ==> (CostFor15m(r) == 0.0 <==> r.loadPowerKW <= PowerAfterScaling(r))
  {
  }

  /** The two cases of the export-income column. */
  lemma ExportIncomeCases(r: Reading)
    requires Scalable(r)
    ensures !HasExcessPower(r) ==> ExportIncome(r) == 0.0
    ensures HasExcessPower(r) ==>
      ExportIncome(r) == (PowerAfterScaling(r) - r.loadPowerKW) / IntervalsPerHour * r.priceGridExport
    ensures r.priceGridExport > 0.0 ==> (ExportIncome(r) > 0.0 <==> HasExcessPower(r))
  {
  }

  /** An interval never both costs and earns. */
  lemma CostAndExportExclusive(r: Reading)
    requires Scalable(r)
    ensures CostFor15m(r) == 0.0 || ExportIncome(r) == 0.0
  {
  }

  /** A load exactly matched by solar is not an excess interval: it neither costs nor earns. */
  lemma BalancedInterval(r: Reading)
    requires Scalable(r)
    requires r.loadPowerKW == PowerAfterScaling(r)
    ensures !HasExcessPower(r)
    ensures CostFor15m(r) == 0.0 && ExportIncome(r) == 0.0
  {
  }

  /** The pre-solar price is four times the interval cost the same load would have without solar. */
  lemma PriceBeforeSolarIsHourly(r: Reading)
    requires Scalable(r) && r.loadPowerKW >= 0.0
    ensures PriceBeforeSolar(r) == IntervalsPerHour * CostFor15m(r.(pvTotalPowerKW := 0.0))
  {
  }

  /** The renewable fraction is finite: scalable, and a non-excess row has a nonzero load. */
  predicate Computable(r: Reading)
  {
    Scalable(r) && (HasExcessPower(r) || r.loadPowerKW != 0.0)
  }

  /** Numerator of the blended renewable fraction: solar plus the grid's share of the rest. */
  function BlendedNumerator(r: Reading): real
    requires Scalable(r)
  {
    PowerAfterScaling(r) + (r.loadPowerKW - PowerAfterScaling(r)) * r.gridRenewableFractionPct
  }

  /** Renewable fraction of the load: 1 in excess intervals, otherwise the blend over the load. */
  function HomeRenewableFraction(r: Reading): (f: real)
    requires Computable(r)
    ensures HasExcessPower(r) ==> f == 1.0
    ensures !HasExcessPower(r) ==>
      f * LoadEnergy(r) == SolarEnergyFor15m(r) + r.gridRenewableFractionPct * GridImportEnergy(r)
  {
    if HasExcessPower(r) then 1.0 else BlendedNumerator(r) / r.loadPowerKW
  }

  /** A share in [0, 1] of a nonnegative amount lies between zero and the amount. */
  lemma ShareOfNonnegative(d: real, g: real)
    requires d >= 0.0 && 0.0 <= g <= 1.0
    ensures 0.0 <= d * g <= d
  {
    assert d - d * g == d * (1.0 - g);
  }

  /** Dividing by a positive real keeps the order. */
  lemma DivideKeepsOrder(x: real, y: real, l: real)
    requires l > 0.0 && x <= y
    ensures x / l <= y / l
  {
    assert y / l - x / l == (y - x) / l;
  }

  /** Solar `p` plus a share `g` of the rest of a positive load `l`, over `l`, lies in [p / l, 1]. */
  lemma BlendBounds(p: real, l: real, g: real)
    requires 0.0 <= p <= l && l > 0.0 && 0.0 <= g <= 1.0
    ensures 0.0 <= p / l <= (p + (l - p) * g) / l <= 1.0
  {
    ShareOfNonnegative(l - p, g);
    DivideKeepsOrder(0.0, p, l);
    DivideKeepsOrder(p, p + (l - p) * g, l);
    DivideKeepsOrder(p + (l - p) * g, l, l);
  }

  /** Rescaling a nonnegative output to a positive panel count gives a nonnegative power. */
  lemma ScaledPowerNonnegative(r: Reading)
    requires r.pvTotalPowerKW >= 0.0 && r.numberOfPanels > 0
    ensures PowerAfterScaling(r) >= 0.0
  {
    assert r.pvTotalPowerKW * (NewNumberOfPanels as real) >= 0.0;
  }

  /** With a grid share in [0, 1] and nonnegative solar, the fraction lies in [scaled / load, 1]. */
  lemma RenewableFractionBounds(r: Reading)
    requires Computable(r)
    requires 0.0 <= r.gridRenewableFractionPct <= 1.0
    requires r.pvTotalPowerKW >= 0.0 && r.numberOfPanels > 0
    ensures 0.0 <= HomeRenewableFraction(r) <= 1.0
    ensures !HasExcessPower(r) ==>
      r.loadPowerKW > 0.0 && PowerAfterScaling(r) / r.loadPowerKW <= HomeRenewableFraction(r)
  {
    ScaledPowerNonnegative(r);
    if !HasExcessPower(r) {
      var p, l, g := PowerAfterScaling(r), r.loadPowerKW, r.gridRenewableFractionPct;
      BlendBounds(p, l, g);
      assert HomeRenewableFraction(r) == (p + (l - p) * g) / l;
    }
  }

  /** Without solar, the renewable energy served is the pre-solar renewable column. */
  lemma PreSolarRenewableEnergy(r: Reading)
    requires Scalable(r) && r.loadPowerKW > 0.0
    ensures Computable(r.(pvTotalPowerKW := 0.0))
    ensures HomeRenewableFraction(r.(pvTotalPowerKW := 0.0)) * LoadEnergy(r) == Energy2LoadPreSolar(r)
  {
  }
}
