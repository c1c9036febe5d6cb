/** What the comparison promises: the legacy regime bills the net units
    exactly as the engine would bill a month importing only them, exports
    never raise the legacy bill, a month without export compares even, and
    the verdicts read the figures correctly. */
module ComparisonLaws {
  import opened Types
  import opened Tariffs
  import opened Billing
  import opened SlabWalkLaws
  import opened BillProperties
  import opened Comparison

  /** Against the engine's own bill: "no solar" is the import cost, the new
      policy nets the export credit in money, and the two verdicts say
      whether net billing costs more than net metering and whether the
      export credit exceeds the import cost. */
  lemma ScenariosOfBill(st: AppState)
    ensures var c := Compare(Bill(st), st);
      && c.noSolar == Bill(st).importCost
      && c.newPolicy == c.noSolar - Amount(st.exportUnits, st.naepp)
      && c.difference == c.newPolicy - c.oldPolicy
      && (c.isWorseOff <==> c.newPolicy > c.oldPolicy)
      && (c.isNewPolicyCredit <==> Amount(st.exportUnits, st.naepp) > c.noSolar)
  {
    AssembledFields(st, ImportEnergy(st), FixedCharges(st), Breakdown(st));
  }

  /** Legacy slab billing is unit-for-unit offset: with more import than
      export it bills the net units as the engine bills a month importing
      only them. */
  lemma LegacySlabBillsNet(st: AppState)
    requires st.consumerType != TimeOfUse && st.importUnits > st.exportUnits
    ensures OldPolicyBill(st) == Bill(st.(importUnits := st.importUnits - st.exportUnits)).importCost
  {
    var st' := st.(importUnits := st.importUnits - st.exportUnits);
    AssembledFields(st', ImportEnergy(st'), FixedCharges(st'), Breakdown(st'));
  }

  /** Legacy slab billing charges nothing once the export covers the import. */
  lemma LegacyExportCoversImport(st: AppState)
    requires st.consumerType != TimeOfUse && st.exportUnits >= st.importUnits
    ensures OldPolicyBill(st) == 0.0
  {
  }

  /** Legacy time of use bills the net peak and off-peak units as the engine
      bills a month importing only them, fixed charge included. */
  lemma LegacyTouBillsNet(st: AppState)
    requires st.consumerType == TimeOfUse
    ensures var n := TouNetUnits(st);
      OldPolicyBill(st) == Bill(st.(importPeakUnits := n.peak, importOffPeakUnits := n.offPeak)).importCost
  {
    var n := TouNetUnits(st);
    var st' := st.(importPeakUnits := n.peak, importOffPeakUnits := n.offPeak);
    AssembledFields(st', ImportEnergy(st'), FixedCharges(st'), Breakdown(st'));
  }

  /** More units never cost less at a non-negative price. */
  lemma AmountMonotone(n: nat, m: nat, perUnit: real)
    requires n <= m && perUnit >= 0.0
    ensures Amount(n, perUnit) <= Amount(m, perUnit)
  {
    assert Amount(m, perUnit) - Amount(n, perUnit) == (m - n) as real * perUnit;
  }

  /** A slab category bills no negative amount for any month. */
  lemma SlabChargesNonNegative(ct: ConsumerType, units: nat)
    requires ct != TimeOfUse
    ensures FixedChargeFor(SlabsFor(ct), units) >= 0.0
    ensures EnergyCharge(SlabsFor(ct), units) >= 0.0
  {
    var slabs := SlabsFor(ct);
    SlabsForShape(ct);
    FixedChargeMonotone(slabs, 0, units);
    FixedChargeAtZero(slabs);
    EnergyChargeMonotone(slabs, 0, units);
    assert ChargeFrom(slabs, 0, 0) == 0.0;
    OpenTopAbsorbsAll(slabs, 0, 0);
  }

  /** Legacy slab billing: more export never raises the bill. */
  lemma LegacySlabExportNeverHurts(st: AppState, more: nat)
    requires st.consumerType != TimeOfUse
    ensures OldPolicyBill(st.(exportUnits := st.exportUnits + more)) <= OldPolicyBill(st)
  {
    var st' := st.(exportUnits := st.exportUnits + more);
    var slabs := SlabsFor(st.consumerType);
    SlabsForShape(st.consumerType);
    if NetUnits(st') > 0 {
      EnergyChargeMonotone(slabs, NetUnits(st'), NetUnits(st));
      FixedChargeMonotone(slabs, NetUnits(st'), NetUnits(st));
    } else if NetUnits(st) > 0 {
      SlabChargesNonNegative(st.consumerType, NetUnits(st));
    }
  }

  /** Legacy time of use: more export never raises the bill. */
  lemma LegacyTouExportNeverHurts(st: AppState, more: nat)
    requires st.consumerType == TimeOfUse
    ensures OldPolicyBill(st.(exportUnits := st.exportUnits + more)) <= OldPolicyBill(st)
  {
    var st' := st.(exportUnits := st.exportUnits + more);
    var n, n' := TouNetUnits(st), TouNetUnits(st');
    assert n'.peak <= n.peak && n'.offPeak <= n.offPeak;
    AmountMonotone(n'.peak, n.peak, TouRates.peak);
    AmountMonotone(n'.offPeak, n.offPeak, TouRates.offPeak);
  }

  /** Without export the two regimes agree: the legacy bill is the import
      cost, the comparison shows no difference and no one is worse off. */
  lemma NoExportComparesEven(st: AppState)
    requires st.exportUnits == 0
    ensures var c := Compare(Bill(st), st);
      c.oldPolicy == c.noSolar == c.newPolicy && c.difference == 0.0 && !c.isWorseOff
  {
    ScenariosOfBill(st);
    if st.consumerType == TimeOfUse {
      LegacyTouBillsNet(st);
      var n := TouNetUnits(st);
      assert st.(importPeakUnits := n.peak, importOffPeakUnits := n.offPeak) == st;
    } else if st.importUnits == 0 {
      NoImportNoCharge(st);
    } else {
      LegacySlabBillsNet(st);
      assert st.(importUnits := st.importUnits - st.exportUnits) == st;
    }
  }

  /** Legacy time of use always carries the 1000 fixed charge: the bill is
      at least 1000, and exactly 1000 once the export covers all import,
      unlike the slab categories, which then bill nothing. */
  lemma LegacyTouFloor(st: AppState)
    requires st.consumerType == TimeOfUse
    ensures OldPolicyBill(st) >= 1000.0
    ensures st.exportUnits >= st.importPeakUnits + st.importOffPeakUnits ==> OldPolicyBill(st) == 1000.0
  {
    var n := TouNetUnits(st);
    AmountMonotone(0, n.peak, TouRates.peak);
    AmountMonotone(0, n.offPeak, TouRates.offPeak);
  }

  /** A worked time-of-use month: 350 exported units cancel all 300
      off-peak units and 50 of the 200 peak units, leaving 150 peak units
      at 46.85 plus the 1000 fixed charge. */
  lemma TouLegacyMonth(st: AppState)
    requires st.consumerType == TimeOfUse
    requires st.importPeakUnits == 200 && st.importOffPeakUnits == 300 && st.exportUnits == 350
    ensures TouNetUnits(st) == TouNet(150, 0)
    ensures OldPolicyBill(st) == 8027.5
  {
  }

  /** The worked unprotected month compared: the legacy regime bills only
      the 100 net units (2244, no fixed charge), so net billing at 5204
      leaves the consumer 2960 worse off. */
  lemma UnprotectedMonthCompared(st: AppState)
    requires st.consumerType == Unprotected && st.importUnits == 450
    requires st.exportUnits == 350 && st.naepp == 27.0
    ensures var c := Compare(Bill(st), st);
      && c.noSolar == 14654.0 && c.oldPolicy == 2244.0 && c.newPolicy == 5204.0
      && c.difference == 2960.0 && c.isWorseOff && !c.isNewPolicyCredit
  {
    UnprotectedMonth(st);
    var slabs := ResidentialSlabs;
    ResidentialWellFormed();
    assert EnergyCharge(slabs, 100) == 2244.0 by {
      WalkWithinSlab(slabs, 0, 100);
      OpenTopAbsorbsAll(slabs, 0, 100);
    }
    FixedChargeOfContainingSlab(slabs, 0, 100);
  }
}
