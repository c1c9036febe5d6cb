/** Properties of the whole bill: how its fields relate, which inputs each
    category reads, how it grows with consumption, and worked months. */
module BillProperties {
  import opened Types
  import opened Tariffs
  import opened Billing
  import opened SlabWalkLaws

  /** The import side's lines hold every imported unit and their costs make
      the energy charge. */
  lemma ImportSideTotals(st: AppState)
    ensures TotalUnits(Breakdown(st)) == TotalImportUnits(st)
    ensures TotalCost(Breakdown(st)) == ImportEnergy(st)
  {
    if st.consumerType == TimeOfUse {
      var lines := TouLines(st);
      assert lines == [lines[0]] + [lines[1]];
      TotalsOfConcat([lines[0]], [lines[1]]);
      SingletonTotals(lines[0]);
      SingletonTotals(lines[1]);
    } else {
      SlabsForShape(st.consumerType);
      BreakdownCoversAllUnits(SlabsFor(st.consumerType), KindLabel(st.consumerType), st.importUnits);
    }
  }

  /** How the assembled fields relate, whatever the import side produced. */
  lemma AssembledFields(st: AppState, energy: real, fixed: real, lines: seq<LineItem>)
    ensures var b := Assemble(st, energy, fixed, lines);
      && b.slabBreakdown == Some(lines)
      && b.importCost == fixed + energy
      && b.fixedCharges == fixed
      && b.netPayable == b.importCost - b.exportCredit
      && b.exportCredit == Amount(st.exportUnits, st.naepp)
      && b.totalImportUnits == TotalImportUnits(st)
      && b.totalExportUnits == st.exportUnits
      && b.effectiveRate == EffectiveRate(b.importCost, b.totalImportUnits)
  {
  }

  /** The import side reads the category and that category's unit counts only. */
  lemma ImportSideReads(st: AppState, st': AppState)
    requires st'.consumerType == st.consumerType
    requires st.consumerType == TimeOfUse ==>
      st'.importPeakUnits == st.importPeakUnits && st'.importOffPeakUnits == st.importOffPeakUnits
    requires st.consumerType != TimeOfUse ==> st'.importUnits == st.importUnits
    ensures ImportEnergy(st') == ImportEnergy(st) && FixedCharges(st') == FixedCharges(st)
    ensures Breakdown(st') == Breakdown(st) && TotalImportUnits(st') == TotalImportUnits(st)
  {
  }

  /** The fields of a bill agree with one another: the breakdown is always
      present, its lines hold every imported unit and their costs plus the
      fixed charge make the import cost, and the net is the import cost less
      the export credit, in money. */
  lemma BillFieldsAgree(st: AppState)
    ensures Bill(st).slabBreakdown.Some?
    ensures TotalUnits(Bill(st).slabBreakdown.value) == Bill(st).totalImportUnits
    ensures Bill(st).importCost == Bill(st).fixedCharges + TotalCost(Bill(st).slabBreakdown.value)
    ensures Bill(st).netPayable == Bill(st).importCost - Bill(st).exportCredit
    ensures Bill(st).exportCredit == Amount(st.exportUnits, st.naepp)
    ensures Bill(st).totalExportUnits == st.exportUnits
    ensures Bill(st).effectiveRate == EffectiveRate(Bill(st).importCost, Bill(st).totalImportUnits)
  {
    ImportSideTotals(st);
    AssembledFields(st, ImportEnergy(st), FixedCharges(st), Breakdown(st));
  }

  /** Time of use: a peak line and an off-peak line at the flat rates, and
      the flat monthly charge of 1000 whatever the consumption. */
  lemma TimeOfUseBill(st: AppState)
    requires st.consumerType == TimeOfUse
    ensures Bill(st).fixedCharges == 1000.0
    ensures Bill(st).slabBreakdown == Some([
      LineItem("Peak Units", st.importPeakUnits, Amount(st.importPeakUnits, 46.85)),
      LineItem("Off-Peak Units", st.importOffPeakUnits, Amount(st.importOffPeakUnits, 40.53))])
    ensures Bill(st).importCost == Amount(st.importPeakUnits, 46.85) + Amount(st.importOffPeakUnits, 40.53) + 1000.0
    ensures Bill(st).totalImportUnits == st.importPeakUnits + st.importOffPeakUnits
  {
  }

  /** Slab categories: the fixed charge is that of the slab holding the month's total. */
  lemma SlabCategoryFixedCharge(st: AppState, j: nat)
    requires st.consumerType != TimeOfUse
    requires j < |SlabsFor(st.consumerType)| && Contains(SlabsFor(st.consumerType)[j], st.importUnits)
    ensures Bill(st).fixedCharges == SlabsFor(st.consumerType)[j].fixedCharge
  {
    SlabsForShape(st.consumerType);
    FixedChargeOfContainingSlab(SlabsFor(st.consumerType), j, st.importUnits);
  }

  /** Slab categories: the breakdown is the slab lines alone (the open top
      slab leaves nothing for the fallback), and line `j` belongs to slab `j`. */
  lemma SlabCategoryBreakdown(st: AppState)
    requires st.consumerType != TimeOfUse
    ensures var labels := SlabLabels(SlabsFor(st.consumerType), KindLabel(st.consumerType));
      && Breakdown(st) == SlabLines(SlabsFor(st.consumerType), labels, 0, st.importUnits)
      && LinesFollowSlabs(Breakdown(st), SlabsFor(st.consumerType), labels, 0)
  {
    var slabs := SlabsFor(st.consumerType);
    SlabsForShape(st.consumerType);
    NoExtraWithOpenTop(slabs, KindLabel(st.consumerType), st.importUnits);
    SlabLinesShape(slabs, SlabLabels(slabs, KindLabel(st.consumerType)), 0, st.importUnits);
  }

  /** A slab-category month without import costs nothing and lists no line. */
  lemma NoImportNoCharge(st: AppState)
    requires st.consumerType != TimeOfUse && st.importUnits == 0
    ensures Bill(st).importCost == 0.0 && Bill(st).fixedCharges == 0.0
    ensures Bill(st).slabBreakdown == Some([])
  {
    var slabs := SlabsFor(st.consumerType);
    SlabsForShape(st.consumerType);
    FixedChargeAtZero(slabs);
    NoExtraWithOpenTop(slabs, KindLabel(st.consumerType), 0);
  }

  /** Protected consumers never pay a fixed charge. */
  lemma ProtectedPaysNoFixedCharge(st: AppState)
    requires st.consumerType == Protected
    ensures Bill(st).fixedCharges == 0.0
  {
    ProtectedTableShape();
    var r := FindSlab(ProtectedSlabs, st.importUnits);
    if r.Some? {
      var k :| 0 <= k < |ProtectedSlabs| && ProtectedSlabs[k] == r.value;
    }
  }

  /** For a slab category, a month with more import never costs less. */
  lemma ImportCostMonotone(st: AppState, more: nat)
    requires st.consumerType != TimeOfUse
    ensures Bill(st).importCost <= Bill(st.(importUnits := st.importUnits + more)).importCost
  {
    var st' := st.(importUnits := st.importUnits + more);
    var slabs := SlabsFor(st.consumerType);
    SlabsForShape(st.consumerType);
    AssembledFields(st, ImportEnergy(st), FixedCharges(st), Breakdown(st));
    AssembledFields(st', ImportEnergy(st'), FixedCharges(st'), Breakdown(st'));
    EnergyChargeMonotone(slabs, st.importUnits, st'.importUnits);
    FixedChargeMonotone(slabs, st.importUnits, st'.importUnits);
  }

  /** The bill reads only the inputs of its category: the sanctioned load
      never, the peak and off-peak counts only for time of use, the import
      count only for the slab categories. */
  lemma InputsReadByCategory(st: AppState, st': AppState)
    requires st'.consumerType == st.consumerType
    requires st'.exportUnits == st.exportUnits && st'.naepp == st.naepp
    requires st.consumerType == TimeOfUse ==>
      st'.importPeakUnits == st.importPeakUnits && st'.importOffPeakUnits == st.importOffPeakUnits
    requires st.consumerType != TimeOfUse ==> st'.importUnits == st.importUnits
    ensures Bill(st') == Bill(st)
  {
    ImportSideReads(st, st');
  }

  /** Net billing nets in money: changing the export leaves the import side
      of the bill untouched. */
  lemma ExportLeavesImportSide(st: AppState, exported: nat)
    ensures Bill(st.(exportUnits := exported)).importCost == Bill(st).importCost
    ensures Bill(st.(exportUnits := exported)).fixedCharges == Bill(st).fixedCharges
    ensures Bill(st.(exportUnits := exported)).slabBreakdown == Bill(st).slabBreakdown
    ensures Bill(st.(exportUnits := exported)).effectiveRate == Bill(st).effectiveRate
  {
    var st' := st.(exportUnits := exported);
    ImportSideReads(st, st');
    AssembledFields(st, ImportEnergy(st), FixedCharges(st), Breakdown(st));
    AssembledFields(st', ImportEnergy(st), FixedCharges(st), Breakdown(st));
  }

  /** Net billing nets in money: the net is the unchanged import cost less
      the export credited at the buy-back price. */
  lemma ExportCreditsNet(st: AppState, exported: nat)
    ensures Bill(st.(exportUnits := exported)).exportCredit == Amount(exported, st.naepp)
    ensures Bill(st.(exportUnits := exported)).netPayable == Bill(st).importCost - Amount(exported, st.naepp)
  {
    var st' := st.(exportUnits := exported);
    ImportSideReads(st, st');
    AssembledFields(st, ImportEnergy(st), FixedCharges(st), Breakdown(st));
    AssembledFields(st', ImportEnergy(st), FixedCharges(st), Breakdown(st));
    assert st'.exportUnits == exported && st'.naepp == st.naepp;
  }

  /** A time-of-use month with no import still carries the 1000 fixed charge,
      so the expression as written divides a positive cost by zero units;
      the bill's effective rate is 0 instead. */
  lemma TimeOfUseZeroImportDividesByZero(st: AppState)
    requires st.consumerType == TimeOfUse && st.importPeakUnits == 0 && st.importOffPeakUnits == 0
    ensures Bill(st).importCost == 1000.0 && Bill(st).totalImportUnits == 0
    ensures EffectiveRateAsWritten(Bill(st).importCost, Bill(st).totalImportUnits) == Infinity
    ensures Bill(st).effectiveRate == 0.0
  {
  }

  /** The unprotected table's third to fifth slabs take 250 units as 100,
      100 and 50, for 9119. */
  lemma UnprotectedWalkFrom201()
    ensures ChargeFrom(ResidentialSlabs, 2, 250) == 9119.0
  {
    var s := ResidentialSlabs;
    ResidentialWellFormed();
    assert ChargeFrom(s, 4, 50) == 2010.0 by {
      WalkWithinSlab(s, 4, 50);
    }
    assert ChargeFrom(s, 3, 150) == 3799.0 + 2010.0 by {
      WalkPastSlab(s, 3, 150);
    }
    WalkPastSlab(s, 2, 250);
  }

  /** The unprotected table bills 450 units 14254: four full slabs of 100
      and 50 units of the fifth. */
  lemma UnprotectedEnergyAt450()
    ensures EnergyCharge(ResidentialSlabs, 450) == 14254.0
  {
    var s := ResidentialSlabs;
    ResidentialWellFormed();
    UnprotectedWalkFrom201();
    assert ChargeFrom(s, 1, 350) == 2891.0 + 9119.0 by {
      WalkPastSlab(s, 1, 350);
    }
    assert ChargeFrom(s, 0, 450) == 2244.0 + 12010.0 by {
      WalkPastSlab(s, 0, 450);
    }
    OpenTopAbsorbsAll(s, 0, 450);
  }

  /** A worked unprotected month: 450 units imported fill the first four
      slabs and 50 units of the fifth, whose fixed charge of 400 applies;
      350 units exported at 27 are credited 9450. */
  lemma UnprotectedMonth(st: AppState)
    requires st.consumerType == Unprotected && st.importUnits == 450
    requires st.exportUnits == 350 && st.naepp == 27.0
    ensures Bill(st).fixedCharges == 400.0
    ensures Bill(st).importCost == 14654.0
    ensures Bill(st).exportCredit == 9450.0
    ensures Bill(st).netPayable == 5204.0
  {
    assert ImportEnergy(st) == 14254.0 by {
      UnprotectedEnergyAt450();
    }
    assert FixedCharges(st) == 400.0 by {
      ResidentialWellFormed();
      FixedChargeOfContainingSlab(ResidentialSlabs, 4, 450);
    }
    AssembledFields(st, ImportEnergy(st), FixedCharges(st), Breakdown(st));
  }

  /** The protected table bills 250 units 3477: its two protected slabs in
      full and 50 units in the open fallback slab. */
  lemma ProtectedEnergyAt250()
    ensures EnergyCharge(ProtectedSlabs, 250) == 3477.0
  {
    var s := ProtectedSlabs;
    ProtectedTableShape();
    assert ChargeFrom(s, 2, 50) == 1122.0 by {
      WalkWithinSlab(s, 2, 50);
    }
    assert ChargeFrom(s, 1, 150) == 1301.0 + 1122.0 by {
      WalkPastSlab(s, 1, 150);
    }
    assert ChargeFrom(s, 0, 250) == 1054.0 + 2423.0 by {
      WalkPastSlab(s, 0, 250);
    }
    OpenTopAbsorbsAll(s, 0, 250);
  }

  /** The decimal renderings of the protected table's bounds. */
  lemma ProtectedBoundsPrinted()
    ensures NatToString(1) == "1" && NatToString(100) == "100" && NatToString(101) == "101"
    ensures NatToString(200) == "200" && NatToString(201) == "201"
  {
    assert NatToString(10) == "10" && NatToString(20) == "20";
  }

  /** A three-slab table's labels, slab by slab. */
  lemma LabelsOfThreeSlabs(slabs: seq<TariffSlab>, kind: string)
    requires |slabs| == 3
    ensures SlabLabels(slabs, kind) == [SlabLabel(kind, slabs[0]), SlabLabel(kind, slabs[1]), SlabLabel(kind, slabs[2])]
  {
    SlabLabelAt(slabs, kind, 0);
    SlabLabelAt(slabs, kind, 1);
    SlabLabelAt(slabs, kind, 2);
  }

  /** The protected table's breakdown labels. */
  lemma ProtectedLabels()
    ensures SlabLabels(ProtectedSlabs, "Protected") == ["Protected 1-100", "Protected 101-200", "Protected 201-Above"]
  {
    var s := ProtectedSlabs;
    ProtectedBoundsPrinted();
    LabelsOfThreeSlabs(s, "Protected");
    assert SlabLabel("Protected", s[0]) == "Protected 1-100";
    assert SlabLabel("Protected", s[1]) == "Protected 101-200";
    assert SlabLabel("Protected", s[2]) == "Protected 201-Above";
  }

  /** The protected table splits 250 units 100, 100 and 50. */
  lemma ProtectedLinesAt250(labels: seq<string>)
    requires |labels| == 3
    ensures SlabLines(ProtectedSlabs, labels, 0, 250) ==
      [SlabLine(labels[0], ProtectedSlabs[0], 100), SlabLine(labels[1], ProtectedSlabs[1], 100),
       SlabLine(labels[2], ProtectedSlabs[2], 50)]
  {
    var s := ProtectedSlabs;
    ProtectedTableShape();
    assert SlabLines(s, labels, 2, 50) == [SlabLine(labels[2], s[2], 50)] + SlabLines(s, labels, 3, 0);
    assert SlabLines(s, labels, 1, 150) == [SlabLine(labels[1], s[1], 100)] + SlabLines(s, labels, 2, 50);
    assert SlabLines(s, labels, 0, 250) == [SlabLine(labels[0], s[0], 100)] + SlabLines(s, labels, 1, 150);
  }

  /** A worked protected month beyond the protected limit: 250 units fill
      the two protected slabs and put 50 units in the open fallback slab,
      with no fixed charge and no "Extra" line. */
  lemma ProtectedMonthAboveLimit(st: AppState)
    requires st.consumerType == Protected && st.importUnits == 250
    ensures Bill(st).fixedCharges == 0.0
    ensures Bill(st).importCost == 3477.0
    ensures Bill(st).slabBreakdown == Some([
      SlabLine("Protected 1-100", ProtectedSlabs[0], 100),
      SlabLine("Protected 101-200", ProtectedSlabs[1], 100),
      SlabLine("Protected 201-Above", ProtectedSlabs[2], 50)])
  {
    assert ImportEnergy(st) == 3477.0 by {
      ProtectedEnergyAt250();
    }
    assert FixedCharges(st) == 0.0 by {
      ProtectedPaysNoFixedCharge(st);
    }
    assert Breakdown(st) == [
      SlabLine("Protected 1-100", ProtectedSlabs[0], 100),
      SlabLine("Protected 101-200", ProtectedSlabs[1], 100),
      SlabLine("Protected 201-Above", ProtectedSlabs[2], 50)] by {
      ProtectedTableShape();
      NoExtraWithOpenTop(ProtectedSlabs, "Protected", 250);
      ProtectedLabels();
      ProtectedLinesAt250(SlabLabels(ProtectedSlabs, "Protected"));
    }
    AssembledFields(st, ImportEnergy(st), FixedCharges(st), Breakdown(st));
  }
}
