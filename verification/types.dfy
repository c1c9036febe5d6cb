/** Data shapes shared by the billing engine and the policy comparator. */
module Types {

  datatype Option<T> = None | Some(value: T)

  /** The consumer category; it selects which rate table applies. */
  datatype ConsumerType = Protected | Unprotected | TimeOfUse

  /** Upper end of a slab: a unit count, or open-ended for the top slab. */
  datatype Bound = Finite(n: nat) | Unbounded

  /** One slab of a progressive tariff: units in [min, max] are billed at `rate`;
      `fixedCharge` applies when the month's total falls in this slab. */
  datatype TariffSlab = TariffSlab(min: nat, max: Bound, rate: real, fixedCharge: real)

  /** The slab's range test, `units >= min && units <= max` (an open top always holds). */
  predicate Contains(s: TariffSlab, units: nat)
  {
    units >= s.min && (s.max.Finite? ==> units <= s.max.n)
  }

  /** The money for `units` units at `perUnit` each. */
  function Amount(units: nat, perUnit: real): real
  {
    units as real * perUnit
  }

  /** One more unit adds one more unit price. */
  lemma AmountStep(units: nat, perUnit: real)
    ensures Amount(units + 1, perUnit) == Amount(units, perUnit) + perUnit
  {
  }

  /** One disclosure line of the bill. */
  datatype LineItem = LineItem(slab: string, units: nat, cost: real)

  /** The bill under the current net-billing regime. `importCost` already
      includes `fixedCharges`; `netPayable` is signed (negative is a credit). */
  datatype CalculationResult = CalculationResult(
    importCost: real,
    exportCredit: real,
    netPayable: real,
    fixedCharges: real,
    totalImportUnits: nat,
    totalExportUnits: nat,
    effectiveRate: real,
    slabBreakdown: Option<seq<LineItem>>)

  /** The consumption profile. `importUnits` is read for slab categories,
      the peak/off-peak pair for time-of-use; `sanctionedLoad` is carried
      but never read by the engine. */
  datatype AppState = AppState(
    consumerType: ConsumerType,
    sanctionedLoad: real,
    importUnits: nat,
    importPeakUnits: nat,
    importOffPeakUnits: nat,
    exportUnits: nat,
    naepp: real)

  /** Sum of the units over breakdown lines. */
  function TotalUnits(lines: seq<LineItem>): nat
  {
    if lines == [] then 0 else lines[0].units + TotalUnits(lines[1..])
  }

  /** Sum of the costs over breakdown lines. */
  function TotalCost(lines: seq<LineItem>): real
  {
    if lines == [] then 0.0 else lines[0].cost + TotalCost(lines[1..])
  }

  lemma {:induction false} TotalsOfConcat(a: seq<LineItem>, b: seq<LineItem>)
    ensures TotalUnits(a + b) == TotalUnits(a) + TotalUnits(b)
    ensures TotalCost(a + b) == TotalCost(a) + TotalCost(b)
  {
    if a != [] {
      assert (a + b)[1..] == a[1..] + b;
      TotalsOfConcat(a[1..], b);
    } else {
      assert a + b == b;
    }
  }
}
