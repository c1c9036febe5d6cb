/** The three-way policy comparison shown beside the bill: no solar at all,
    the legacy net-metering regime (export offsets import unit for unit
    before any pricing), and the current net-billing result. */
module Comparison {
  import opened Types
  import opened Tariffs
  import opened Billing

  /** The three scenarios and the verdicts drawn from them. */
  datatype Scenarios = Scenarios(
    noSolar: real,
    oldPolicy: real,
    newPolicy: real,
    difference: real,
    isWorseOff: bool,
    isNewPolicyCredit: bool)

  /** max(0, x). */
  function Max0(x: int): nat
  {
    if x > 0 then x else 0
  }

  /** Time-of-use units left to bill after the legacy offset. */
  datatype TouNet = TouNet(peak: nat, offPeak: nat)

  /** Legacy time of use: export offsets off-peak units first and only what
      is left of it offsets peak units. */
  function TouNetUnits(st: AppState): (n: TouNet)
    ensures n.peak <= st.importPeakUnits && n.offPeak <= st.importOffPeakUnits
    ensures n.peak < st.importPeakUnits ==> n.offPeak == 0
    ensures var offset := (st.importPeakUnits - n.peak) + (st.importOffPeakUnits - n.offPeak);
      offset == if st.exportUnits < st.importPeakUnits + st.importOffPeakUnits
                then st.exportUnits else st.importPeakUnits + st.importOffPeakUnits
  {
    var remainingExport := Max0(st.exportUnits - st.importOffPeakUnits);
    var netOffPeak := Max0(st.importOffPeakUnits - st.exportUnits);
    var netPeakUnits := Max0(st.importPeakUnits - remainingExport);
    TouNet(netPeakUnits, netOffPeak)
  }

  /** Legacy time-of-use bill: the net units at the flat rates plus the
      flat monthly charge. */
  function LegacyTouBill(st: AppState): real
  {
    var n := TouNetUnits(st);
    Amount(n.peak, TouRates.peak) + Amount(n.offPeak, TouRates.offPeak) + TouRates.fixedMonthly
  }

  /** Imported less exported units; negative when the export is larger. */
  function NetUnits(st: AppState): int
  {
    st.importUnits - st.exportUnits
  }

  /** Legacy slab bill: nothing when the net is not positive, otherwise the
      fixed charge of the slab holding the net plus the progressive energy
      charge of the net. */
  function LegacySlabBill(st: AppState): real
    requires st.consumerType != TimeOfUse
  {
    var net := NetUnits(st);
    if net <= 0 then 0.0
    else
      SlabsForShape(st.consumerType);
      FixedChargeFor(SlabsFor(st.consumerType), net) + EnergyCharge(SlabsFor(st.consumerType), net)
  }

  /** The legacy bill of the month. */
  function OldPolicyBill(st: AppState): real
  {
    if st.consumerType == TimeOfUse then LegacyTouBill(st) else LegacySlabBill(st)
  }

  /** The reference definition of the comparison for a bill `result`
      computed from the profile `st`. */
  function Compare(result: CalculationResult, st: AppState): Scenarios
  {
    var oldPolicy := OldPolicyBill(st);
    var difference := result.netPayable - oldPolicy;
    Scenarios(result.importCost, oldPolicy, result.netPayable, difference, difference > 0.0, result.netPayable < 0.0)
  }

  /** The legacy slab computation: the fixed charge of the slab holding the
      net units, then the same progressive walk as the engine with the same
      fallback for units left after the last slab. */
  method LegacySlabCost(slabs: seq<TariffSlab>, netUnits: nat) returns (cost: real)
    requires |slabs| > 0 && ValidSlabs(slabs)
    ensures cost == FixedChargeFor(slabs, netUnits) + EnergyCharge(slabs, netUnits)
  {
    var remaining := netUnits;
    cost := 0.0;
    var i := 0;

    var applicableSlab := FindSlab(slabs, netUnits);
    if applicableSlab.Some? {
      cost := cost + applicableSlab.value.fixedCharge;
    }
    ghost var start := cost;

    while remaining > 0 && i < |slabs|
      invariant i <= |slabs|
      invariant cost + ChargeFrom(slabs, i, remaining) == start + ChargeFrom(slabs, 0, netUnits)
      invariant Leftover(slabs, i, remaining) == Leftover(slabs, 0, netUnits)
      decreases |slabs| - i
    {
      var slab := slabs[i];
      var consume := Take(remaining, slab);
      cost := cost + Amount(consume, slab.rate);
      remaining := remaining - consume;
      i := i + 1;
    }
    assert remaining == Leftover(slabs, 0, netUnits);
    if remaining > 0 {
      cost := cost + Amount(remaining, slabs[|slabs| - 1].rate);
    } else {
      assert Amount(remaining, slabs[|slabs| - 1].rate) == 0.0;
    }
  }

  /** The legacy bill of a slab category: nothing when the export covers
      the import, otherwise the category's table applied to the net units. */
  method LegacySlabCategory(st: AppState) returns (oldPolicy: real)
    requires st.consumerType != TimeOfUse
    ensures oldPolicy == LegacySlabBill(st)
  {
    var netUnits := st.importUnits - st.exportUnits;
    if netUnits <= 0 {
      oldPolicy := 0.0;
    } else {
      var slabs := if st.consumerType == Protected then ProtectedSlabs else ResidentialSlabs;
      SlabsForShape(st.consumerType);
      oldPolicy := LegacySlabCost(slabs, netUnits);
      assert slabs == SlabsFor(st.consumerType) && netUnits == NetUnits(st);
    }
  }

  /** The legacy bill of the month, computed as the comparison panel does. */
  method LegacyBill(st: AppState) returns (oldPolicy: real)
    ensures oldPolicy == OldPolicyBill(st)
  {
    if st.consumerType == TimeOfUse {
      var remainingExport := Max0(st.exportUnits - st.importOffPeakUnits);
      var netOffPeak := Max0(st.importOffPeakUnits - st.exportUnits);
      var netPeakUnits := Max0(st.importPeakUnits - remainingExport);
      oldPolicy := Amount(netPeakUnits, TouRates.peak) + Amount(netOffPeak, TouRates.offPeak) + TouRates.fixedMonthly;
    } else {
      oldPolicy := LegacySlabCategory(st);
    }
  }

  /** The comparison panel's figures for the bill `result` of profile `st`. */
  method ComparePolicies(result: CalculationResult, st: AppState) returns (c: Scenarios)
    ensures c == Compare(result, st)
  {
    var noSolar := result.importCost;
    var oldPolicy := LegacyBill(st);
    var newPolicy := result.netPayable;
    var difference := newPolicy - oldPolicy;
    var isWorseOff := difference > 0.0;
    var isNewPolicyCredit := newPolicy < 0.0;
    c := Scenarios(noSolar, oldPolicy, newPolicy, difference, isWorseOff, isNewPolicyCredit);
  }
}
