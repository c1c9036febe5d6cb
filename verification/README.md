# NEPRA prosumer bill: a verified model of the billing engine

This project models the core of a calculator for residential solar
prosumers under Pakistan's 2025 net-billing regime. The calculator turns a
month's consumption profile into a bill. Imported units are rated either
progressively over slabs (the protected and unprotected residential tariffs)
or flat by time of use. Each slab has its own fixed charge. Exported units
are credited at the national average energy purchase price (NAEPP), and the
import cost and the export credit are netted in money. A comparison panel
sets that bill beside two others: no solar at all, and the legacy
net-metering regime, where export offsets import unit for unit before any
pricing.

Modules:

- `Types` (`types.dfy`): the consumer category, slabs, breakdown lines, the
  consumption profile and the result record. It also defines `Amount`
  (units times a per-unit price) and the line totals.
- `Tariffs` (`tariffs.dfy`): the rate tables and the shape every table
  has. Each table is contiguous from 1 and open at the top. The protected
  and unprotected rates rise strictly, and the fixed charges never fall.
- `Billing` (`billing.dfy`): the engine.
  - `CalculateBill` is imperative, like the source. It calls `RateImport`,
    then `RateSlabCategory` and `RateSlabs` with the slab-walk loop, then
    `Settle`.
  - It is proved equal to the reference function `Bill`.
  - `Bill` is built from recursive specification functions of the slab
    walk: `Take`, `Leftover`, `ChargeFrom`, `SlabLines` and
    `EnergyCharge`.
- `SlabWalkLaws` (`slab_walk_laws.dfy`): what the walk and the fixed-charge
  lookup promise:
  - conservation of units and money;
  - slabs are filled in order;
  - each unit is billed at the rate of its own slab;
  - the charge is monotone and convex;
  - the fixed charge is that of the slab holding the total.
- `BillProperties` (`bill_properties.dfy`): properties of the whole bill:
  - the fields agree with one another;
  - which inputs each category reads;
  - export leaves the import side alone;
  - monotonicity;
  - worked months.
- `Comparison` (`comparison.dfy`): the three-scenario comparison.
  `ComparePolicies` and its legacy slab loop are imperative, like the
  source. They are proved equal to the reference function `Compare`.
- `ComparisonLaws` (`comparison_laws.dfy`): how the comparison relates to
  the engine.
  - The legacy regime bills the net units exactly as the engine bills a
    month that imports only those units.
  - More export never raises the legacy bill.
  - A month without export compares even.

Money and rates are `real`, and unit counts are `nat`. The open top of a
slab (`max: Infinity` in the source) is `Bound.Unbounded`.

The code's `importCost` field already includes the fixed charges, so
`netPayable` is that field less the export credit (see `Billing.Assemble`).
The effective-rate guard tests the cost, not the unit count (see Findings).

## Model

| member | source | states |
|---|---|---|
| Billing.CalculateBill | utils/calculations.ts:4-99 | The result of the imperative engine is exactly the reference bill `Bill(st)`. That bill's properties are proved in `BillProperties`. |
| Billing.RateImport | utils/calculations.ts:10-80 | The import side returns the category's energy charge, fixed charge and breakdown. Time of use gives two flat-rate lines, and the slab categories use their table. |
| Billing.RateSlabCategory | utils/calculations.ts:28-80 | The category picks its table and label word. The fixed charge comes from the slab holding the month's total, and the energy is rated by the slab walk. |
| Billing.RateSlabs | utils/calculations.ts:39-79 | The slab-walk loop and its fallback produce exactly `EnergyCharge` and `EnergyLines`. The loop invariants tie the running cost, the lines and the leftover to the recursive walk. |
| Billing.Settle | utils/calculations.ts:82-98 | The export is credited at the NAEPP and netted in money. Every field of the result is that of `Assemble`. |
| Billing.Take | utils/calculations.ts:51-53 | A slab never takes more than the remaining units nor more than its own width, and it takes at least one unit while any remain. It takes either all the remaining units or, for a finite slab, exactly its width: the minimum of the two. |
| Billing.Leftover | utils/calculations.ts:49-66 | The walk never leaves more than it started with. Once past the last slab, everything that remains is left over. |
| Billing.SlabLines | utils/calculations.ts:49-66 | The walk from slab `i` emits at most one line per remaining slab. |
| Billing.SlabLabels | utils/calculations.ts:59 | Every slab of a table has exactly one label. |
| Billing.SlabLabelAt | utils/calculations.ts:59 | Label `j` is `"<kind> <min>-<max>"` for slab `j`, with `Above` for the open top. |
| Billing.NatToString | utils/calculations.ts:59 | A printed unit count is never empty. |
| Billing.FindIndex | utils/calculations.ts:44 | The lookup returns the first slab whose range contains the count, or reports that no slab does. |
| Billing.FindSlab | utils/calculations.ts:44 | A slab that is found belongs to the table and contains the count. When none is found, no slab contains it. |
| Billing.SlabsForShape | utils/calculations.ts:30-36 | Both slab categories bill from a well-formed table with never-decreasing fixed charges and no negative charge. |
| Billing.WalkStep | utils/calculations.ts:49-66 | One loop iteration appends slab `i`'s line and cost and hands the rest of the walk to slab `i + 1`. |
| Billing.EffectiveRate | utils/calculations.ts:96 | The cost per imported unit is 0 when there is no positive cost or no unit to divide by. |
| Billing.EffectiveRateRecoversCost | utils/calculations.ts:96 | A positive effective rate charged on every imported unit gives back exactly the import cost. |
| Billing.EffectiveRateAsWritten | utils/calculations.ts:96 | The expression as written yields infinity exactly when the cost is positive and the units are zero. Otherwise it agrees with `EffectiveRate`. |
| Tariffs.ProtectedTableShape | constants.ts:6-11 | The protected table is contiguous from 1 and open at the top, its rates rise strictly, and every fixed charge is 0. |
| Tariffs.ResidentialWellFormed | constants.ts:14-23 | The unprotected table is contiguous from 1 and open at the top. |
| Tariffs.ResidentialRatesIncrease | constants.ts:14-23 | The unprotected rates rise strictly from slab to slab. |
| Tariffs.ResidentialCharges | constants.ts:14-23 | The unprotected fixed charges never decrease, and no rate or charge is negative. |
| Tariffs.TouRatesShape | constants.ts:26-30 | The peak rate exceeds the off-peak rate, which is positive. The monthly fixed charge is 1000. |
| Tariffs.SlabsAscending | constants.ts:14-23 | In a well-formed table, every earlier slab ends below every later slab's start. |
| Tariffs.WellFormedCovers | utils/calculations.ts:44 | Every count from 1 upwards lies in some slab of a well-formed table. |
| Tariffs.SlabIndexMonotone | utils/calculations.ts:44 | A count lies in at most one slab, and a larger count never lies in an earlier slab. |
| Tariffs.FixedChargeOrdered | constants.ts:14-23 | Fixed charges that never fall between neighbours never fall along the table. |
| SlabWalkLaws.NatToStringDecimal | utils/calculations.ts:59 | Labels print counts in plain decimal: digits only, no leading zero, and the digits denote exactly the count. |
| SlabWalkLaws.SlabWalkConserves | utils/calculations.ts:49-66 | The units on the walk's lines plus the leftover are all the units, and the line costs sum to the walk's charge. |
| SlabWalkLaws.ExtraLinesTotals | utils/calculations.ts:68-79 | The "Extra" line holds exactly the leftover units, billed at the last slab's rate. |
| SlabWalkLaws.BreakdownCoversAllUnits | utils/calculations.ts:49-79 | The breakdown accounts for every imported unit, and its costs sum to the energy charge. |
| SlabWalkLaws.SlabLinesShape | utils/calculations.ts:58-62 | Line `j` of the walk belongs to slab `i + j`: it has that slab's label, at least one unit and no more than the slab's width, and its units at that slab's rate. |
| SlabWalkLaws.SlabsFilledInOrder | utils/calculations.ts:49-66 | Every line but the last bills its slab's full width, so slabs are filled in ascending order. |
| SlabWalkLaws.LeftoverOnlyPastLastSlab | utils/calculations.ts:68-69 | Units are left for the fallback only when the walk has reached every slab. |
| SlabWalkLaws.OpenTopAbsorbsAll | utils/calculations.ts:51-53 | An open-ended top slab absorbs whatever reaches it. |
| SlabWalkLaws.LeftoverBeyondCapacity | utils/calculations.ts:68-79 | For a table with no open top, the fallback gets exactly the units beyond the table's capacity. |
| SlabWalkLaws.NoExtraWithOpenTop | utils/calculations.ts:68-79 | With an open top slab there is no "Extra" line, and the energy charge is the walk's charge. |
| SlabWalkLaws.WalkWithinSlab | utils/calculations.ts:53-54 | While the units fit in slab `i`, every unit costs that slab's rate. |
| SlabWalkLaws.WalkPastSlab | utils/calculations.ts:49-66 | A full slab bills its width, and the walk continues at the next slab with the rest. |
| SlabWalkLaws.WalkMarginalUnit | utils/calculations.ts:49-66 | From any slab, one more unit costs the rate of the slab that holds that unit. |
| SlabWalkLaws.MarginalUnitRate | utils/calculations.ts:49-79 | Progressive billing: the unit that takes a month from `n` to `n + 1` costs the rate of the slab containing `n + 1`. |
| SlabWalkLaws.EnergyChargeMonotone | utils/calculations.ts:49-79 | In a well-formed table with no negative rate, more units never cost less energy. |
| SlabWalkLaws.RateOrdered | constants.ts:14-23 | Rates that rise between neighbours rise along the whole table. |
| SlabWalkLaws.MarginalRateRises | utils/calculations.ts:49-79 | With rising rates, a later unit is never billed below an earlier one, so the energy charge is convex. |
| SlabWalkLaws.FixedChargeOfContainingSlab | utils/calculations.ts:43-47 | In a well-formed table the lookup finds the one slab holding the total, and the fixed charge is that slab's. |
| SlabWalkLaws.FixedChargeAtZero | utils/calculations.ts:43-47 | No slab holds zero units, so a month without import has no fixed charge. |
| SlabWalkLaws.FixedChargeMonotone | utils/calculations.ts:43-47 | With never-decreasing fixed charges, a bigger month never has a smaller fixed charge. |
| BillProperties.ImportSideTotals | utils/calculations.ts:10-80 | For every category, the breakdown's units are the imported units and its costs are the energy charge. |
| BillProperties.AssembledFields | utils/calculations.ts:82-98 | The import cost includes the fixed charge, and the net is the import cost less the export credit. The unit totals come from the category's counts. |
| BillProperties.ImportSideReads | utils/calculations.ts:10-80 | The import side reads only the category and that category's unit counts. |
| BillProperties.BillFieldsAgree | utils/calculations.ts:82-98 | The breakdown is always present and its lines hold every imported unit. The line costs plus the fixed charge make the import cost, and the net is the import cost less the credit. |
| BillProperties.TimeOfUseBill | utils/calculations.ts:10-26 | Time of use gives a peak line at 46.85 and an off-peak line at 40.53, plus a flat charge of 1000 whatever the consumption. |
| BillProperties.SlabCategoryFixedCharge | utils/calculations.ts:43-47 | For a slab category, the bill's fixed charge is that of the slab holding the month's total. |
| BillProperties.SlabCategoryBreakdown | utils/calculations.ts:49-79 | For a slab category, the breakdown is the slab lines alone, and line `j` belongs to slab `j`. |
| BillProperties.NoImportNoCharge | utils/calculations.ts:39-79 | A slab-category month without import costs nothing and lists no line. |
| BillProperties.ProtectedPaysNoFixedCharge | utils/calculations.ts:43-47 | Protected consumers never pay a fixed charge. |
| BillProperties.ImportCostMonotone | utils/calculations.ts:39-86 | For a slab category, a month with more import never costs less. |
| BillProperties.InputsReadByCategory | utils/calculations.ts:4-99 | The bill depends only on its category's inputs. The sanctioned load is never read. |
| BillProperties.ExportLeavesImportSide | utils/calculations.ts:83-87 | Changing the export changes neither the import cost, the fixed charge, the breakdown nor the effective rate. |
| BillProperties.ExportCreditsNet | utils/calculations.ts:83-87 | The net is the unchanged import cost less the export times the NAEPP. |
| BillProperties.TimeOfUseZeroImportDividesByZero | utils/calculations.ts:96 | A time-of-use month with no import costs 1000 over 0 units. The expression as written gives infinity, and the model's bill gives 0. |
| BillProperties.UnprotectedEnergyAt450 | utils/calculations.ts:49-66 | The unprotected table bills 450 units 14254. |
| BillProperties.UnprotectedMonth | utils/calculations.ts:39-87 | Unprotected, 450 imported and 350 exported at 27: fixed charge 400, import cost 14654, credit 9450, net 5204. |
| BillProperties.ProtectedEnergyAt250 | utils/calculations.ts:49-66 | The protected table bills 250 units 3477. |
| BillProperties.ProtectedLabels | utils/calculations.ts:59 | The protected labels read "Protected 1-100", "Protected 101-200" and "Protected 201-Above". |
| BillProperties.ProtectedMonthAboveLimit | utils/calculations.ts:39-79 | Protected with 250 units: the third slab takes 50 units, the cost is 3477, and there is no fixed charge and no "Extra" line. |
| Comparison.TouNetUnits | components/PolicyComparison.tsx:31-33 | Export offsets off-peak units first. Peak units are offset only once off-peak is exhausted. Exactly min(export, total import) units are offset. |
| Comparison.LegacySlabCost | components/PolicyComparison.tsx:43-64 | The legacy slab loop and its fallback cost the net units' fixed charge plus their progressive energy charge. |
| Comparison.LegacySlabCategory | components/PolicyComparison.tsx:36-66 | A slab category's legacy bill is 0 when the net is not positive. Otherwise it is the category's table applied to the net. |
| Comparison.LegacyBill | components/PolicyComparison.tsx:23-66 | The legacy computation equals the reference `OldPolicyBill`. |
| Comparison.ComparePolicies | components/PolicyComparison.tsx:17-73 | The panel's figures and verdicts equal the reference `Compare`. |
| ComparisonLaws.ScenariosOfBill | components/PolicyComparison.tsx:17-73 | "No solar" is the import cost, and the new policy nets the export credit in money. "Worse off" means net billing costs more than net metering. "Credit" means the export credit exceeds the import cost. |
| ComparisonLaws.LegacySlabBillsNet | components/PolicyComparison.tsx:36-66 | Legacy slab billing charges the net units exactly what the engine charges a month that imports only them. |
| ComparisonLaws.LegacyExportCoversImport | components/PolicyComparison.tsx:38-41 | Legacy slab billing charges nothing once the export covers the import. |
| ComparisonLaws.LegacyTouBillsNet | components/PolicyComparison.tsx:25-35 | Legacy time of use charges the net peak and off-peak units what the engine charges for them, the fixed charge included. |
| ComparisonLaws.SlabChargesNonNegative | components/PolicyComparison.tsx:49-62 | No slab-category month has a negative fixed or energy charge. |
| ComparisonLaws.LegacySlabExportNeverHurts | components/PolicyComparison.tsx:36-66 | Under legacy slab billing, more export never raises the bill. |
| ComparisonLaws.LegacyTouExportNeverHurts | components/PolicyComparison.tsx:25-35 | Under legacy time of use, more export never raises the bill. |
| ComparisonLaws.NoExportComparesEven | components/PolicyComparison.tsx:17-73 | Without export, all three scenarios agree, the difference is 0 and no one is worse off. |
| ComparisonLaws.LegacyTouFloor | components/PolicyComparison.tsx:25-35 | The legacy time-of-use bill always carries the 1000 fixed charge. It is at least 1000, and exactly 1000 once the export covers all import, whereas a slab category then bills nothing. |
| ComparisonLaws.TouLegacyMonth | components/PolicyComparison.tsx:25-35 | Time of use with 200 peak, 300 off-peak and 350 exported leaves 150 peak units, so the legacy bill is 8027.5. |
| ComparisonLaws.UnprotectedMonthCompared | components/PolicyComparison.tsx:17-73 | The 450/350 unprotected month: the legacy bill is 2244 against 5204 under net billing, so the consumer is 2960 worse off and not in credit. |

## Left out

- Billing.CalculateBill: for a time-of-use month without import, the bill carries an effective rate of 0. The source yields positive infinity there (see Findings).
- Billing.Settle: the effective rate it records is the corrected `EffectiveRate`, which is 0 over zero units. Line 96 of utils/calculations.ts as written is `EffectiveRateAsWritten`, which gives positive infinity for a positive cost over zero units (see Findings).
- Rendering: the JSX of the comparison panel (components/PolicyComparison.tsx:75-167) and currency formatting are presentation only.
- The `netPeak` estimate at components/PolicyComparison.tsx:28 is not modelled. It is computed and never read, so it changes no figure.
- Floating point: money is exact `real` arithmetic, so the model has no IEEE rounding of products and sums.
- Unit counts are natural numbers. The input form turns fractional and non-numeric entries into whole numbers, and the range sliders start at 0, but the number fields set no minimum, so a negative count typed there reaches the engine, which does not validate it. The model leaves negative counts to the caller.
- The breakdown is optional in the result type, but the engine always supplies it. The model says so (`Some`) and does not model an absent breakdown.
- The input form, the application shell, the charts, the slab detail table and the presenter overlay (App.tsx, components/InputCard.tsx, components/Visualization.tsx, components/SlabDetail.tsx, components/PresenterOverlay.tsx, components/ResultCards.tsx) are not part of this model.
- `DEFAULT_NAEPP` (constants.ts:33) is recorded as `Tariffs.DefaultNaepp`. The engine reads the NAEPP from the profile, so no property depends on the default.

## Findings

| source | as written | input that shows it | evidently intended | confidence | as-written member | corrected member |
|---|---|---|---|---|---|---|
| utils/calculations.ts:96 | The effective rate divides the import cost by the unit total whenever the cost is positive. | Time of use with 0 peak and 0 off-peak units: the cost is the 1000 fixed charge and the unit total is 0, so the division yields Infinity (`BillProperties.TimeOfUseZeroImportDividesByZero`). | 0 when there is no unit to divide by. | not executed | Billing.EffectiveRateAsWritten | Billing.EffectiveRate |
