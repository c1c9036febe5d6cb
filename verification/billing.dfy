/** The billing engine: the monthly bill under the net-billing regime.
    Imports are rated progressively over slabs (or flat by time of use),
    exports are credited at the buy-back price, and the two are netted in money. */
module Billing {
  import opened Types
  import opened Tariffs

  // ---------------------------------------------------------------------------
  // Progressive slab rating, as pure recursive functions over the slab index.
  // ---------------------------------------------------------------------------

  /** Units billed at slab `s` when `remaining` units are still unbilled:
      min(remaining, max - min + 1), or all of them at the open top slab. */
  function Take(remaining: nat, s: TariffSlab): (t: nat)
    requires ValidSlab(s)
    ensures t <= remaining
    ensures remaining > 0 ==> t > 0
    ensures s.max.Finite? ==> t <= s.max.n - s.min + 1
    ensures t == remaining || (s.max.Finite? && t == s.max.n - s.min + 1)
  {
    match s.max
    case Unbounded => remaining
    case Finite(m) => if remaining <= m - s.min + 1 then remaining else m - s.min + 1
  }

  /** Units still unbilled once the slab walk that starts at slab `i` with
      `remaining` units stops (no units left, or no slabs left). */
  function Leftover(slabs: seq<TariffSlab>, i: nat, remaining: nat): (left: nat)
    requires ValidSlabs(slabs) && i <= |slabs|
    ensures left <= remaining
    ensures i == |slabs| ==> left == remaining
    decreases |slabs| - i
  {
    if remaining == 0 || i == |slabs| then remaining
    else Leftover(slabs, i + 1, remaining - Take(remaining, slabs[i]))
  }

  /** Energy charged by the slab walk that starts at slab `i` with `remaining` units. */
  function ChargeFrom(slabs: seq<TariffSlab>, i: nat, remaining: nat): real
    requires ValidSlabs(slabs) && i <= |slabs|
    decreases |slabs| - i
  {
    if remaining == 0 || i == |slabs| then 0.0
    else
      var t := Take(remaining, slabs[i]);
      Amount(t, slabs[i].rate) + ChargeFrom(slabs, i + 1, remaining - t)
  }

  /** The energy charge for `units` units: the slab walk from the first slab,
      plus any units left after the last slab at the last slab's rate. */
  function EnergyCharge(slabs: seq<TariffSlab>, units: nat): real
    requires |slabs| > 0 && ValidSlabs(slabs)
  {
    ChargeFrom(slabs, 0, units) + Amount(Leftover(slabs, 0, units), slabs[|slabs| - 1].rate)
  }

  // ---------------------------------------------------------------------------
  // Breakdown lines.
  // ---------------------------------------------------------------------------

  function DigitChar(d: nat): char
    requires d < 10
  {
    "0123456789"[d]
  }

  /** Decimal rendering of a unit count, as a template literal prints it. */
  function NatToString(n: nat): (s: string)
    ensures |s| > 0
  {
    if n < 10 then [DigitChar(n)] else NatToString(n / 10) + [DigitChar(n % 10)]
  }

  /** "<kind> <min>-<max>", or "<kind> <min>-Above" for the open top slab. */
  function SlabLabel(kind: string, s: TariffSlab): string
  {
    kind + " " + NatToString(s.min) + "-" +
    (match s.max
     case Finite(m) => NatToString(m)
     case Unbounded => "Above")
  }

  /** The label of every slab of a table, in table order. */
  function SlabLabels(slabs: seq<TariffSlab>, kind: string): (labels: seq<string>)
    ensures |labels| == |slabs|
  {
    if slabs == [] then [] else [SlabLabel(kind, slabs[0])] + SlabLabels(slabs[1..], kind)
  }

  /** Entry `j` of the table's labels is slab `j`'s label. */
  lemma {:induction false} SlabLabelAt(slabs: seq<TariffSlab>, kind: string, j: nat)
    requires j < |slabs|
    ensures SlabLabels(slabs, kind)[j] == SlabLabel(kind, slabs[j])
  {
    if j > 0 {
      SlabLabelAt(slabs[1..], kind, j - 1);
    }
  }

  /** The breakdown line for `units` units billed at slab `s`, titled `title`. */
  function SlabLine(title: string, s: TariffSlab, units: nat): LineItem
  {
    LineItem(title, units, Amount(units, s.rate))
  }

  /** The lines the slab walk from slab `i` emits: one per slab it reaches,
      labelled from `labels`. */
  function SlabLines(slabs: seq<TariffSlab>, labels: seq<string>, i: nat, remaining: nat): (lines: seq<LineItem>)
    requires ValidSlabs(slabs) && |labels| == |slabs| && i <= |slabs|
    ensures |lines| <= |slabs| - i
    decreases |slabs| - i
  {
    if remaining == 0 || i == |slabs| then []
    else
      var t := Take(remaining, slabs[i]);
      [SlabLine(labels[i], slabs[i], t)] + SlabLines(slabs, labels, i + 1, remaining - t)
  }

  /** The "Extra" line for the units no slab absorbed, billed at the last
      slab's rate; none when every unit was absorbed. */
  function ExtraLines(slabs: seq<TariffSlab>, kind: string, units: nat): seq<LineItem>
    requires |slabs| > 0 && ValidSlabs(slabs)
  {
    var left := Leftover(slabs, 0, units);
    if left > 0 then [LineItem(kind + " Extra", left, Amount(left, slabs[|slabs| - 1].rate))] else []
  }

  /** The slab lines, then the "Extra" line if any. */
  function EnergyLines(slabs: seq<TariffSlab>, kind: string, units: nat): seq<LineItem>
    requires |slabs| > 0 && ValidSlabs(slabs)
  {
    SlabLines(slabs, SlabLabels(slabs, kind), 0, units) + ExtraLines(slabs, kind, units)
  }

  // ---------------------------------------------------------------------------
  // Fixed-charge lookup (the first slab whose range contains the count).
  // ---------------------------------------------------------------------------

  /** Index of the first slab at or after `k` that contains `units`. */
  function FindIndex(slabs: seq<TariffSlab>, units: nat, k: nat): (r: Option<nat>)
    requires k <= |slabs|
    ensures r.Some? ==> k <= r.value < |slabs| && Contains(slabs[r.value], units)
    ensures r.Some? ==> forall l :: k <= l < r.value ==> !Contains(slabs[l], units)
    ensures r.None? ==> forall l :: k <= l < |slabs| ==> !Contains(slabs[l], units)
    decreases |slabs| - k
  {
    if k == |slabs| then None
    else if Contains(slabs[k], units) then Some(k)
    else FindIndex(slabs, units, k + 1)
  }

  /** The first slab whose range contains `units`, if any. */
  function FindSlab(slabs: seq<TariffSlab>, units: nat): (r: Option<TariffSlab>)
    ensures r.Some? ==> r.value in slabs && Contains(r.value, units)
    ensures r.None? ==> forall l :: 0 <= l < |slabs| ==> !Contains(slabs[l], units)
  {
    match FindIndex(slabs, units, 0)
    case Some(j) => Some(slabs[j])
    case None => None
  }

  /** The fixed charge for a month of `units`: that of the slab containing it, else 0. */
  function FixedChargeFor(slabs: seq<TariffSlab>, units: nat): real
  {
    match FindSlab(slabs, units)
    case Some(s) => s.fixedCharge
    case None => 0.0
  }

  // ---------------------------------------------------------------------------
  // The bill.
  // ---------------------------------------------------------------------------

  /** The rate table of a slab category. */
  function SlabsFor(ct: ConsumerType): seq<TariffSlab>
  {
    if ct == Protected then ProtectedSlabs else ResidentialSlabs
  }

  /** Both slab categories bill from a well-formed table with never-decreasing
      fixed charges and no negative charge. */
  lemma SlabsForShape(ct: ConsumerType)
    ensures WellFormedTable(SlabsFor(ct)) && FixedChargesNondecreasing(SlabsFor(ct)) && NonNegativeCharges(SlabsFor(ct))
  {
    ProtectedTableShape();
    ResidentialWellFormed();
    ResidentialCharges();
  }

  /** The word that starts every breakdown label of a slab category. */
  function KindLabel(ct: ConsumerType): string
  {
    if ct == Protected then "Protected" else "Unprotected"
  }

  /** The two time-of-use lines. */
  function TouLines(st: AppState): seq<LineItem>
  {
    [LineItem("Peak Units", st.importPeakUnits, Amount(st.importPeakUnits, TouRates.peak)),
     LineItem("Off-Peak Units", st.importOffPeakUnits, Amount(st.importOffPeakUnits, TouRates.offPeak))]
  }

  /** Cost per imported unit: the total import cost over the units, or 0 when
      there is no positive cost or no unit to divide by. */
  function EffectiveRate(cost: real, units: nat): (r: real)
    ensures cost <= 0.0 || units == 0 ==> r == 0.0
  {
    if cost > 0.0 && units > 0 then cost / units as real else 0.0
  }

  /** A positive effective rate, charged on every imported unit, gives back the cost. */
  lemma EffectiveRateRecoversCost(cost: real, units: nat)
    requires cost > 0.0 && units > 0
    ensures EffectiveRate(cost, units) > 0.0
    ensures EffectiveRate(cost, units) * units as real == cost
  {
  }

  /** What a JavaScript division yields: a number or positive infinity. */
  datatype Quotient = Value(v: real) | Infinity

  /** The effective-rate expression as the source writes it: the guard tests
      only the cost, so a positive cost over zero units divides by zero. */
  function EffectiveRateAsWritten(cost: real, units: nat): (q: Quotient)
    ensures q.Infinity? <==> cost > 0.0 && units == 0
    ensures q.Value? ==> q.v == EffectiveRate(cost, units)
  {
    if cost > 0.0 then (if units == 0 then Infinity else Value(cost / units as real))
    else Value(0.0)
  }

  /** Energy charge of the month, before any fixed charge. */
  function ImportEnergy(st: AppState): real
  {
    if st.consumerType == TimeOfUse then
      Amount(st.importPeakUnits, TouRates.peak) + Amount(st.importOffPeakUnits, TouRates.offPeak)
    else
      SlabsForShape(st.consumerType);
      EnergyCharge(SlabsFor(st.consumerType), st.importUnits)
  }

  /** Fixed charge of the month: flat for time of use, else keyed to the total units. */
  function FixedCharges(st: AppState): real
  {
    if st.consumerType == TimeOfUse then TouRates.fixedMonthly
    else FixedChargeFor(SlabsFor(st.consumerType), st.importUnits)
  }

  /** The breakdown lines of the month. */
  function Breakdown(st: AppState): seq<LineItem>
  {
    if st.consumerType == TimeOfUse then TouLines(st)
    else
      SlabsForShape(st.consumerType);
      EnergyLines(SlabsFor(st.consumerType), KindLabel(st.consumerType), st.importUnits)
  }

  /** The imported units the category reads, as one figure. */
  function TotalImportUnits(st: AppState): nat
  {
    if st.consumerType == TimeOfUse then st.importPeakUnits + st.importOffPeakUnits else st.importUnits
  }

  /** The bill assembled from the import side's energy charge, fixed charge and lines. */
  function Assemble(st: AppState, energy: real, fixed: real, lines: seq<LineItem>): CalculationResult
  {
    var total := energy + fixed;
    var credit := Amount(st.exportUnits, st.naepp);
    CalculationResult(total, credit, total - credit, fixed, TotalImportUnits(st), st.exportUnits,
                      EffectiveRate(total, TotalImportUnits(st)), Some(lines))
  }

  /** The reference definition of the current-regime bill. */
  function Bill(st: AppState): CalculationResult
  {
    Assemble(st, ImportEnergy(st), FixedCharges(st), Breakdown(st))
  }

  /** One step of the slab walk: slab `i` takes its share and appends its
      line to the lines `done` so far; the rest walks on from slab `i + 1`. */
  lemma WalkStep(slabs: seq<TariffSlab>, labels: seq<string>, i: nat, remaining: nat, done: seq<LineItem>)
    requires ValidSlabs(slabs) && |labels| == |slabs| && i < |slabs| && remaining > 0
    ensures var t := Take(remaining, slabs[i]);
      && done + SlabLines(slabs, labels, i, remaining)
         == (done + [SlabLine(labels[i], slabs[i], t)]) + SlabLines(slabs, labels, i + 1, remaining - t)
      && ChargeFrom(slabs, i, remaining) == SlabLine(labels[i], slabs[i], t).cost + ChargeFrom(slabs, i + 1, remaining - t)
      && Leftover(slabs, i, remaining) == Leftover(slabs, i + 1, remaining - t)
  {
    var t := Take(remaining, slabs[i]);
    assert SlabLines(slabs, labels, i, remaining) == [SlabLine(labels[i], slabs[i], t)] + SlabLines(slabs, labels, i + 1, remaining - t);
  }

  /** The progressive walk: bills min(remaining, slab width) units at each
      slab in ascending order, one line per slab reached, and then any units
      left after the last slab at the last slab's rate on an "Extra" line. */
  method RateSlabs(slabs: seq<TariffSlab>, kind: string, units: nat) returns (importCost: real, breakdown: seq<LineItem>)
    requires |slabs| > 0 && ValidSlabs(slabs)
    ensures importCost == EnergyCharge(slabs, units)
    ensures breakdown == EnergyLines(slabs, kind, units)
  {
    importCost := 0.0;
    breakdown := [];
    var remaining := units;
    var i := 0;
    ghost var labels := SlabLabels(slabs, kind);
    ghost var charge, lines, left := ChargeFrom(slabs, 0, units), SlabLines(slabs, labels, 0, units), Leftover(slabs, 0, units);

    while remaining > 0 && i < |slabs|
      invariant i <= |slabs|
      invariant importCost + ChargeFrom(slabs, i, remaining) == charge
      invariant breakdown + SlabLines(slabs, labels, i, remaining) == lines
      invariant Leftover(slabs, i, remaining) == left
      decreases |slabs| - i
    {
      var slab := slabs[i];
      var slabUnits := Take(remaining, slab);
      var line := SlabLine(SlabLabel(kind, slab), slab, slabUnits);
      SlabLabelAt(slabs, kind, i);
      WalkStep(slabs, labels, i, remaining, breakdown);
      importCost := importCost + line.cost;
      breakdown := breakdown + [line];
      remaining := remaining - slabUnits;
      i := i + 1;
    }
    assert SlabLines(slabs, labels, i, remaining) == [] && breakdown == lines;
    assert ChargeFrom(slabs, i, remaining) == 0.0 && importCost == charge;
    assert remaining == left;
    assert EnergyCharge(slabs, units) == charge + Amount(left, slabs[|slabs| - 1].rate);

    if remaining > 0 {
      var lastSlab := slabs[|slabs| - 1];
      var costExtra := Amount(remaining, lastSlab.rate);
      assert costExtra == Amount(left, slabs[|slabs| - 1].rate);
      importCost := importCost + costExtra;
      breakdown := breakdown + [LineItem(kind + " Extra", remaining, costExtra)];
    } else {
      assert Amount(left, slabs[|slabs| - 1].rate) == 0.0;
    }
  }

  /** The slab categories' import side: the category picks its table, the
      fixed charge comes from the slab holding the month's total, and the
      energy is rated progressively. */
  method RateSlabCategory(st: AppState) returns (importCost: real, fixedCharges: real, breakdown: seq<LineItem>)
    requires st.consumerType != TimeOfUse
    ensures importCost == ImportEnergy(st) && fixedCharges == FixedCharges(st) && breakdown == Breakdown(st)
  {
    fixedCharges := 0.0;
    var slabs := ResidentialSlabs;
    var kind := "Unprotected";
    if st.consumerType == Protected {
      slabs := ProtectedSlabs;
      kind := "Protected";
    }
    SlabsForShape(st.consumerType);

    var fixedSlab := FindSlab(slabs, st.importUnits);
    if fixedSlab.Some? {
      fixedCharges := fixedSlab.value.fixedCharge;
    }

    importCost, breakdown := RateSlabs(slabs, kind, st.importUnits);
    assert slabs == SlabsFor(st.consumerType) && kind == KindLabel(st.consumerType);
  }

  /** The import side of the bill: energy charge, fixed charge and breakdown,
      by flat time-of-use pricing or by the category's slab table. */
  method RateImport(st: AppState) returns (importCost: real, fixedCharges: real, breakdown: seq<LineItem>)
    ensures importCost == ImportEnergy(st) && fixedCharges == FixedCharges(st) && breakdown == Breakdown(st)
  {
    if st.consumerType == TimeOfUse {
      var peakCost := Amount(st.importPeakUnits, TouRates.peak);
      var offPeakCost := Amount(st.importOffPeakUnits, TouRates.offPeak);
      importCost := peakCost + offPeakCost;
      fixedCharges := TouRates.fixedMonthly;
      breakdown := [];
      breakdown := breakdown + [LineItem("Peak Units", st.importPeakUnits, peakCost)];
      breakdown := breakdown + [LineItem("Off-Peak Units", st.importOffPeakUnits, offPeakCost)];
    } else {
      importCost, fixedCharges, breakdown := RateSlabCategory(st);
    }
  }

  /** The export side and the totals: credits the export at the buy-back
      price and nets it against the import cost in money. */
  method Settle(st: AppState, importCost: real, fixedCharges: real, breakdown: seq<LineItem>)
    returns (result: CalculationResult)
    ensures result == Assemble(st, importCost, fixedCharges, breakdown)
  {
    var exportCredit := Amount(st.exportUnits, st.naepp);
    var totalImportCost := importCost + fixedCharges;
    var netPayable := totalImportCost - exportCredit;
    var totalImportUnits :=
      if st.consumerType == TimeOfUse then st.importPeakUnits + st.importOffPeakUnits else st.importUnits;
    result := CalculationResult(totalImportCost, exportCredit, netPayable, fixedCharges,
                                totalImportUnits, st.exportUnits,
                                EffectiveRate(totalImportCost, totalImportUnits), Some(breakdown));
  }

  /** The engine's single entry point. */
  method CalculateBill(st: AppState) returns (result: CalculationResult)
    ensures result == Bill(st)
  {
    var importCost, fixedCharges, breakdown := RateImport(st);
    result := Settle(st, importCost, fixedCharges, breakdown);
  }
}
