/**
 * The customer's table as the script leaves it: the readings in time order and
 * one column per derived quantity, with the masked in-place writes that build
 * the cost, export-income and renewable-fraction columns.
 */
module DataFrame {
  import opened Tariff

  /** A cell of a float column: a finite number, or the NaN/infinity pandas holds. */
  datatype Cell = NonFinite | Finite(value: real)

  /** The table after the derived columns have been added. */
  datatype Frame = Frame(
    rows: seq<Reading>,
    powerAfterScaling: seq<real>,
    priceBeforeSolar: seq<real>,
    energy2loadPreSolar: seq<real>,
    costFor15m: seq<real>,
    exportIncome: seq<real>,
    solarEnergyFor15m: seq<real>,
    homeRenewableFraction: seq<Cell>)

  /** Every row can be rescaled: no recorded panel count is zero. */
  predicate AllScalable(rows: seq<Reading>)
  {
    forall i :: 0 <= i < |rows| ==> Scalable(rows[i])
  }

  /** Every row can have all its columns computed without a division by zero. */
  predicate AllComputable(rows: seq<Reading>)
  {
    forall i :: 0 <= i < |rows| ==> Computable(rows[i])
  }

  /** `df.loc[mask, column] = values`: rows where the mask holds take the new value. */
  function MaskedAssign<T>(column: seq<T>, mask: seq<bool>, values: seq<T>): seq<T>
    requires |column| == |mask| == |values|
  {
    seq(|column|, i requires 0 <= i < |column| => if mask[i] then values[i] else column[i])
  }

  /** `~mask` */
  function Not(mask: seq<bool>): seq<bool>
  {
    seq(|mask|, i requires 0 <= i < |mask| => !mask[i])
  }

  /** Division as the float column computes it: a zero divisor gives a non-finite cell. */
  function Quotient(numerator: real, denominator: real): (c: Cell)
    ensures c.Finite? <==> denominator != 0.0
    ensures c.Finite? ==> c.value * denominator == numerator
  {
    if denominator == 0.0 then NonFinite else Finite(numerator / denominator)
  }

  /**
   * The renewable-fraction cell of one row: 1 in excess intervals, otherwise
   * the blend over the load, which is non-finite for a zero load.
   */
  function FractionCell(r: Reading): (c: Cell)
    requires Scalable(r)
    ensures c.Finite? <==> Computable(r)
    ensures c.Finite? ==> c.value == HomeRenewableFraction(r)
  {
    if HasExcessPower(r) then Finite(1.0) else Quotient(BlendedNumerator(r), r.loadPowerKW)
  }

  /** The table specified row by row: each column is its per-row formula. */
  function Derived(rows: seq<Reading>): Frame
    requires AllScalable(rows)
  {
    var n := |rows|;
    Frame(rows,
      seq(n, i requires 0 <= i < n => PowerAfterScaling(rows[i])),
      seq(n, i requires 0 <= i < n => PriceBeforeSolar(rows[i])),
      seq(n, i requires 0 <= i < n => Energy2LoadPreSolar(rows[i])),
      seq(n, i requires 0 <= i < n => CostFor15m(rows[i])),
      seq(n, i requires 0 <= i < n => ExportIncome(rows[i])),
      seq(n, i requires 0 <= i < n => SolarEnergyFor15m(rows[i])),
      seq(n, i requires 0 <= i < n => FractionCell(rows[i])))
  }

  /**
   * The column assignments of the script, in their order, with the masked
   * writes done as the script does them: whole-column right-hand sides,
   * of which only the rows the mask selects are stored.
   */
  method DeriveColumns(rows: seq<Reading>) returns (df: Frame)
    requires AllScalable(rows)
    ensures df == Derived(rows)
    ensures |df.homeRenewableFraction| == |rows|
    ensures forall i :: 0 <= i < |rows| ==>
      (df.homeRenewableFraction[i].Finite? <==> Computable(rows[i]))
  {
    var n := |rows|;
    var powerAfterScaling := seq(n, i requires 0 <= i < n => PowerAfterScaling(rows[i]));
    var priceBeforeSolar := seq(n, i requires 0 <= i < n => PriceBeforeSolar(rows[i]));
    var energy2loadPreSolar := seq(n, i requires 0 <= i < n => Energy2LoadPreSolar(rows[i]));

    var costFor15m := seq(n, i requires 0 <= i < n => CostBeforeMask(rows[i]));
    var hasExcessPower := seq(n, i requires 0 <= i < n => HasExcessPower(rows[i]));
    costFor15m := MaskedAssign(costFor15m, hasExcessPower, seq(n, _ => 0.0));

    var exportIncome := seq(n, _ => 0.0);
    exportIncome := MaskedAssign(exportIncome, hasExcessPower,
      seq(n, i requires 0 <= i < n => SurplusIncome(rows[i])));

    var solarEnergyFor15m := seq(n, i requires 0 <= i < n => SolarEnergyFor15m(rows[i]));

    // The first masked write creates the column; the rows it skips hold NaN.
    var fraction := MaskedAssign(seq(n, _ => NonFinite), hasExcessPower, seq(n, _ => Finite(1.0)));
    fraction := MaskedAssign(fraction, Not(hasExcessPower),
      seq(n, i requires 0 <= i < n => Quotient(BlendedNumerator(rows[i]), rows[i].loadPowerKW)));

    df := Frame(rows, powerAfterScaling, priceBeforeSolar, energy2loadPreSolar,
      costFor15m, exportIncome, solarEnergyFor15m, fraction);
  }
}
