# Jua Smart Solar Advisor — the sizing, costing and validation core in Dafny

Jua Smart Solar Advisor is a Streamlit application that recommends rooftop
solar systems for Kenyan households. Behind its pages sits a deterministic
pipeline, and this project models that pipeline:

- The tiered EPRA electricity tariff bill. Lifeline, Ordinary 1 and Ordinary 2
  bands are walked in order, then pass-through charges and VAT are added.
- System sizing from monthly consumption and irradiance, with panels rounded
  up to whole 450 W modules.
- The itemised system price: panels, inverter from the catalogue or a fallback,
  VAT, mounting, safety kit, labour and balance of system.
- Battery bank sizing: depth of discharge by chemistry, and the 12/24/48 V
  series step. Lithium uses kWh packs or Ah units, and Lead-Acid/Gel uses
  12 V units of at most 200 Ah. Parallel strings, unit price, and lifecycle
  cost with geometrically cheaper replacements.
- The quick ROI estimate (upfront cost, generation, capped savings, payback,
  25-year NPV at 8%), the irradiance lookup, the appliance load table and the
  custom-appliance total of the front end.
- Two rule-based validators of a generated recommendation. One scores sizing,
  payback, price per watt and irradiance into a confidence and a star rating.
  The other applies four technical, price and physics rules and lists their
  errors in order.

Layout, one module per source file:

| file | module | models |
|---|---|---|
| common.dfy | `Common` | Option, Python's `math.ceil`, `int()`, `**`, `in` on strings, `str(n)`, and `dict.get` on a parsed recommendation |
| cost_calculator.dfy | `CostCalculator` | utils/cost_calculator.py |
| battery_calculator.dfy | `BatteryCalculator` | utils/battery_calculator.py |
| app.dfy | `App` | `get_ghi_for_location`, `calculate_appliance_load`, `calculate_quick_roi`, the custom-appliance loop and the battery sizing inputs of app.py |
| accuracy_validator.dfy | `AccuracyValidator` | utils/accuracy_validator.py |
| data_validator.dfy | `DataValidator` | utils/data_validator.py |

All quantities are exact `real`s.

- Python's `int()` on a float is `Common.Trunc` (toward zero), `math.ceil` is
  `Common.Ceil`, and `round` is `AccuracyValidator.RoundHalfEven`, which ties
  to even.
- A falsy Python input is modelled by what makes it falsy: an absent tariff,
  catalogue or assumptions dict is `None` or `false`, and an empty
  recommendation is the empty map.
- The loops of the source are methods proved equal to a specification function:
  - `CostCalculator.TariffCost` is the tier walk, with its early `break`.
  - `App.GhiForLocation` is the first-match lookup.
  - `App.TotalMonthlyConsumption` is the custom-appliance accumulator.
  - `BatteryCalculator.CompareBatteryTypes` fills the comparison dict.
  - The four `validate_*` checks append warnings step by step.
  - `DataValidator.ValidateRecommendation` appends errors.
- The properties are proved about those functions.

The model keeps the source's quirks as written:

- Fractional consumption inside the gaps (30, 31) and (100, 101) of the
  standard table goes unbilled.
- The Ah-based battery paths report the capacity of one series position only,
  while the kWh path counts every pack.
- The battery price tests `battery_type == 'Lithium'` exactly, but the depth of
  discharge tests `'Lithium' in battery_type`. So "Lithium (LiFePO4)" gets the
  lithium depth of discharge and the Lead-Acid price.
- The accuracy validator reads `total_upfront_cost_ksh` (see Findings).

## Model

| member | source | states |
|---|---|---|
| `Common.Ceil` | utils/cost_calculator.py:105 | `math.ceil`: the least integer not below its argument |
| `Common.Trunc` | utils/battery_calculator.py:128 | `int()` on a float: truncation toward zero, with the bracketing bounds on each sign |
| `Common.Pow` | utils/battery_calculator.py:244 | `b ** n` is positive for a positive base, at most 1 for a base in (0, 1], at least 1 for a base of at least 1 |
| `Common.NatToString` | utils/battery_calculator.py:113 | `str(n)` is a non-empty string of decimal digits |
| `Common.NatToStringRoundTrip` | utils/battery_calculator.py:113 | reading back the digits of `str(n)` gives `n` |
| `Common.Field` | utils/accuracy_validator.py:159-164 | `rec.get(section, {}).get(key, 0)`: the stored value when both keys exist, 0 otherwise |
| `CostCalculator.TierQuantity` | utils/cost_calculator.py:43-54 | kWh billed in a band: Lifeline the consumption up to its upper bound, Ordinary 1 the remainder up to `max − 30`, Ordinary 2 all of the remainder, any other band the remainder up to its width `max − min + 1` |
| `CostCalculator.WalkTiers` | utils/cost_calculator.py:36-63 | the tier walk stops once nothing is left to bill: from a state with nothing left, the tiers change nothing |
| `CostCalculator.Bill` | utils/cost_calculator.py:24-78 | no tariff data gives `(0, 0, "N/A")`; otherwise the category is the walk's, the total is `(walked base cost + consumption × pass-through) × (1 + VAT)` with defaults 5.5 and 0.16, and the effective rate times the consumption is the total when the consumption is positive, else the rate is 0 |
| `CostCalculator.TariffCost` | utils/cost_calculator.py:19-78 | the imperative bill with its tier loop equals the bill function |
| `CostCalculator.WalkTariffTiers` | utils/cost_calculator.py:31-63 | the `for` loop with early `break` computes the recursive tier walk from nothing billed and the "Unknown" category |
| `CostCalculator.WalkStep` | utils/cost_calculator.py:36-63 | one loop iteration: an unreached or exhausted tier is skipped, a billing tier updates cost, remainder and category and stops the walk when nothing is left |
| `CostCalculator.ZeroConsumptionBill` | utils/cost_calculator.py:31-78 | 0 kWh bills `(0, 0, "Unknown")` for any table and charges |
| `CostCalculator.WalkSnoc` | utils/cost_calculator.py:36-63 | walking one more tier is one more step: that tier bills or is passed over, as it would be on its own |
| `CostCalculator.CategoryIsLastBillingTier` | utils/cost_calculator.py:33-60 | for any table: when no tier bills on reaching it the walk leaves its start unchanged; otherwise the category is the name of the last tier that billed |
| `CostCalculator.BillCategory` | utils/cost_calculator.py:33-60 | a bill's category is "Unknown" when no tier bills, otherwise the name of the last tier that billed |
| `CostCalculator.UnreachedTierIsInert` | utils/cost_calculator.py:41-42 | a tier whose lower bound exceeds the consumption can be removed without changing the walk |
| `CostCalculator.StandardTableWalk` | utils/cost_calculator.py:41-55 | on the Lifeline [0,30] / Ordinary 1 [31,100] / Ordinary 2 [101,…] table the base cost is `min(c,30)·r1 + min(c−30,70)·r2 (from 31 kWh) + (c−100)·r3 (from 101 kWh)`, the unbilled remainder is the gap fraction, and the category is the last band reached |
| `CostCalculator.StandardTableBillsWholeKwh` | utils/cost_calculator.py:41-59 | whole-kWh consumption is billed completely by the standard table |
| `CostCalculator.StandardTableExamples` | utils/cost_calculator.py:209-216 | 25, 80 and 150 kWh fall in Lifeline, Ordinary 1 and Ordinary 2 |
| `CostCalculator.PanelCount` | utils/cost_calculator.py:104-109 | at least one panel, enough 450 W panels to reach the requested watts, and one fewer would not |
| `CostCalculator.PanelCountMonotone` | utils/cost_calculator.py:105 | a larger system never gets fewer panels |
| `CostCalculator.SmallestSuitable` | utils/cost_calculator.py:116-118 | no index iff no inverter suits; otherwise a suitable inverter of least `capacity_kw` (missing read as 999), the first such in catalogue order |
| `CostCalculator.FallbackInverterCapacity` | utils/cost_calculator.py:124-128 | the fallback capacity: 1.5 kW up to 1.5 kW, 3 kW up to 3 kW, 5 kW up to 5 kW, else the next whole kW; it always covers the request |
| `CostCalculator.ChooseInverter` | utils/cost_calculator.py:116-128 | the capacity covers the request; with no suitable inverter the fallback price and size; otherwise the price and capacity (each defaulting as the source does) of a suitable entry of least `capacity_kw`, the first such in catalogue order |
| `CostCalculator.Itemise` | utils/cost_calculator.py:130-157 | the breakdown satisfies every line-item formula and its total is their sum |
| `CostCalculator.TotalClosedForm` | utils/cost_calculator.py:130-154 | a valid breakdown totals `23430 × panels + 1.24 × inverter cost + 19000` |
| `CostCalculator.SystemCostOf` | utils/cost_calculator.py:80-157 | missing catalogue or assumptions give `(0, 0, {})`; otherwise a valid breakdown whose fitted kW and inverter capacity cover the request, with `PanelCount(kW)` panels and cost per watt `total / fitted watts` |
| `BatteryCalculator.BatteryRequirements` | utils/battery_calculator.py:6-33 | hourly use is a 24th of daily use; backup energy is two days of use for an off-grid system, else hourly use × backup hours |
| `BatteryCalculator.DepthOfDischarge` | utils/battery_calculator.py:50-59 | an override wins; otherwise 0.9 iff the type contains "Lithium", 0.6 iff it contains "Gel" but not "Lithium", else 0.5 |
| `BatteryCalculator.VoltageFor` | utils/battery_calculator.py:61-70 | 12 V per series unit; 1 in series iff no size or under 1.5 kW, 4 iff at least 5 kW, else 2 |
| `BatteryCalculator.VoltageMonotone` | utils/battery_calculator.py:61-70 | a larger system never gets a lower voltage |
| `BatteryCalculator.SmallestAtLeast` | utils/battery_calculator.py:87-88 | `min` of the sizes at least the need: none iff no size qualifies, else the least qualifying size |
| `BatteryCalculator.StandardSize` | utils/battery_calculator.py:87-88 | the least qualifying size when one exists (no qualifying size is smaller), else the default |
| `BatteryCalculator.LithiumUnitAh` | utils/battery_calculator.py:120-124 | a standard lithium size covering any need up to 300 Ah |
| `BatteryCalculator.LithiumUnitAhIsSmallest` | utils/battery_calculator.py:124 | the lithium unit is the smallest standard size covering the need, 300 Ah by default |
| `BatteryCalculator.LeadUnitAh` | utils/battery_calculator.py:154-160 | a standard Lead-Acid size covering any need up to 200 Ah |
| `BatteryCalculator.LeadUnitAhIsSmallest` | utils/battery_calculator.py:160 | the Lead-Acid unit is the smallest standard size covering the need, 200 Ah by default |
| `BatteryCalculator.PackKwh` | utils/battery_calculator.py:86-88 | a standard pack size covering any per-string share up to 20.48 kWh |
| `BatteryCalculator.PackKwhIsSmallest` | utils/battery_calculator.py:87-88 | the pack is the smallest standard size covering the share, 20.48 kWh by default |
| `BatteryCalculator.CoverByTrunc` | utils/battery_calculator.py:128 | `int(need / unit) + 1` units cover the need |
| `BatteryCalculator.AhStrings` | utils/battery_calculator.py:127-130 | one string when one unit holds the need; otherwise `int(need / unit) + 1` strings, which cover the need |
| `BatteryCalculator.PackStrings` | utils/battery_calculator.py:91-92 | `max(1, int(x/d) + (1 if x % d > 0))` is the ceiling: enough strings, and one fewer would not do |
| `BatteryCalculator.CeilingByRemainder` | utils/battery_calculator.py:91-92 | truncation plus one for a positive remainder covers `x` and is minimal |
| `BatteryCalculator.ConfigLabel` | utils/battery_calculator.py:113 | the label ends in "S" and contains "P" iff there is more than one parallel string |
| `BatteryCalculator.ConfigLabelReadsBack` | utils/battery_calculator.py:113 | the digits before "P" read back as the parallel count and those before the final "S" as the series count; with one string the digits before "S" are the series count |
| `BatteryCalculator.PackBankCovers` | utils/battery_calculator.py:91-94 | strings that cover the total also cover it counted pack by pack |
| `BatteryCalculator.LithiumPackSpec` | utils/battery_calculator.py:84-115 | from 2.5 kWh: the standard pack chosen for one series position's share of the total, at system voltage, `series × parallel` packs whose total covers the need, parallel strings by ceiling, Ah by `int(kWh·1000/V)` |
| `BatteryCalculator.AhBankCovers` | utils/battery_calculator.py:123-133 | enough Ah at 12 V covers the kWh the Ah figure came from |
| `BatteryCalculator.LithiumAhSpec` | utils/battery_calculator.py:116-149 | under 2.5 kWh: 12 V units of the standard lithium size chosen for the need, in one string, reported capacity covering the need |
| `BatteryCalculator.LeadAcidSpec` | utils/battery_calculator.py:151-191 | 12 V units; past 200 Ah, 200 Ah units in `int(need/200)+1` strings; otherwise one string of the standard lead size chosen for the need; reported capacity covers the need |
| `BatteryCalculator.BatterySpecs` | utils/battery_calculator.py:37-191 | consistent bookkeeping (units = series × parallel, usable = total × DoD, label, voltage), the chemistry's DoD, the voltage step, kWh packs iff lithium with at least 2.5 kWh, total capacity covering `backup / DoD`, and for each path its unit (the standard size chosen for the need) and its string count |
| `BatteryCalculator.SpecsUseSmallestStandardUnit` | utils/battery_calculator.py:84-160 | on every path the unit is the smallest standard size that holds the need (a pack for one series position's share; Lead-Acid and Gel up to 200 Ah), or the table's default when none does |
| `BatteryCalculator.UsableCoversBackup` | utils/battery_calculator.py:72-76 | the usable capacity covers the backup energy |
| `BatteryCalculator.UsableCovers` | utils/battery_calculator.py:102 | a total covering `energy / DoD` leaves a usable part covering the energy |
| `BatteryCalculator.AhBankBySeries` | utils/battery_calculator.py:174-175 | the capacity of every unit fitted is the series count times that of one string position |
| `BatteryCalculator.AhPathsOmitSeries` | utils/battery_calculator.py:132-133 | on an Ah path, the capacity of all units fitted is `series ×` the reported capacity |
| `BatteryCalculator.LeadAcidExampleDispatch` | utils/battery_calculator.py:50-76 | 1.2 kWh of Lead-Acid on 2 kW takes the Lead-Acid path at DoD 0.5, 24 V, 2.4 kWh |
| `BatteryCalculator.AhPathExample` | utils/battery_calculator.py:160-175 | that bank is two 200 Ah units in series, reported as 2.4 kWh though 4.8 kWh is fitted |
| `BatteryCalculator.ExactMultipleOverProvisions` | utils/battery_calculator.py:164-166 | a 4.8 kWh Lead-Acid total at 12 V needs 400 Ah and gets three 200 Ah strings where two cover it |
| `BatteryCalculator.LeadAcidStrings` | utils/battery_calculator.py:164-166 | ceiling division: the fewest 200 Ah strings covering the need, never more than `int(need/200)+1` |
| `BatteryCalculator.CeilingAtMostTruncPlusOne` | utils/battery_calculator.py:166 | the ceiling of `x/d` is at most `int(x/d) + 1` |
| `BatteryCalculator.ExactMultipleCorrected` | utils/battery_calculator.py:164-166 | with ceiling division 400 Ah takes two strings |
| `BatteryCalculator.BatteryCost` | utils/battery_calculator.py:196-222 | initial cost is capacity × rate; exactly "Lithium" prices at 50,000/kWh, 6000 cycles, 10 years, every other type at 20,000/kWh, 1500 cycles, 3 years |
| `BatteryCalculator.BatteryCostMonotone` | utils/battery_calculator.py:204-215 | more capacity never costs less |
| `BatteryCalculator.LiFePO4PricedAsLeadAcid` | utils/battery_calculator.py:206-213 | "Lithium (LiFePO4)" gets the lithium DoD of 0.9 but the Lead-Acid price and cycle life |
| `BatteryCalculator.ReplacementSum` | utils/battery_calculator.py:243-245 | the replacement sum is 0 with no replacements |
| `BatteryCalculator.ReplacementSumClosedForm` | utils/battery_calculator.py:243-245 | `Σ_{i=1..n} a·0.9^i = 9a(1 − 0.9^n)` |
| `BatteryCalculator.ReplacementSumBounds` | utils/battery_calculator.py:243-245 | replacements cost between 0 and 9 times the initial cost |
| `BatteryCalculator.MaintenanceRate` | utils/battery_calculator.py:248 | 0.5% a year iff the type is exactly "Lithium", else 2% |
| `BatteryCalculator.LifecycleCost` | utils/battery_calculator.py:225-267 | `int(cycles / cycle life)` replacements, their geometric cost, maintenance for the period, the total as the sum, cost per year and levelised cost per kWh cycled (0 without cycling) |
| `BatteryCalculator.ReplacementsAreWholeCycleLives` | utils/battery_calculator.py:239-240 | the replacements are the whole cycle lives contained in the total cycles |
| `BatteryCalculator.LifecycleBounds` | utils/battery_calculator.py:243-253 | the lifecycle total lies between the initial cost and ten times it plus maintenance |
| `BatteryCalculator.LithiumNeedsFewerReplacements` | utils/battery_calculator.py:240 | a 6000-cycle battery never needs more replacements than a 1500-cycle one |
| `BatteryCalculator.Report` | utils/battery_calculator.py:280-289 | the report of one chemistry is its specification at the default DoD with no system size, the price of that specification, and its lifecycle cost |
| `BatteryCalculator.ReportAll` | utils/battery_calculator.py:279-289 | the loop fills exactly one entry per type, each the type's report |
| `BatteryCalculator.CompareBatteryTypes` | utils/battery_calculator.py:270-298 | entries for "Lithium" and "Lead-Acid", savings = Lead-Acid total − Lithium total, and "Lithium" is better iff those savings are positive |
| `App.GhiForLocation` | app.py:226-234 | 5.2 for data that is not a dict; the first county entry naming the location (its irradiance or 5.2); without a match, the location's record or 5.2 |
| `App.ApplianceTable` | app.py:238-245 | the fourteen listed appliances and nothing else have an entry; every entry has positive power; the water pump runs 500 W for the given hours, every other entry between 0 and 24 hours a day |
| `App.ItemKwh` | app.py:248-251 | an unknown appliance or a non-positive count adds nothing; otherwise watts × hours × count / 1000 kWh a day, never negative for a non-negative pump time |
| `App.DailyApplianceKwh` | app.py:247-252 | the daily sum over the appliances is never negative for a non-negative pump time |
| `App.ApplianceLoad` | app.py:236-254 | no appliances give no load, and the monthly load is never negative for a non-negative pump time |
| `App.ApplianceLoadAppend` | app.py:247-252 | the daily load of two appliance lists is the sum of their loads |
| `App.UnknownOrUnusedIgnored` | app.py:250 | an unknown appliance or a non-positive count adds nothing |
| `App.SingleApplianceKwh` | app.py:247-252 | a one-line appliance dict has exactly that line's daily kWh, so with `ApplianceLoadAppend` the load of any list is the sum of its lines |
| `App.WaterPumpUsesPumpHours` | app.py:236-241 | the water pump runs 500 W for the given pump hours |
| `App.TotalMonthlyConsumption` | app.py:650-661 | the loop accumulates the custom appliances' monthly kWh and the total adds it to the table load |
| `App.CustomMatchesCatalogue` | app.py:653-659 | a custom appliance with a catalogue item's power and hours adds the same monthly kWh as one unit of that item |
| `App.CustomKwh` | app.py:653-659 | a custom appliance adds `power × hours × 30.44 / 1000` kWh a month, never negative for non-negative power and hours |
| `App.YieldPerKw` | app.py:259-260 | the yield per installed kW is 284.7 kWh a year per kWh/m²/day of irradiance |
| `App.SystemSizeKw` | app.py:258-262 | `max(0.5, annual consumption / yield per kW)` under a positive yield: at least that ratio, exactly 0.5 kW when the ratio is at most 0.5 and the ratio above it; 1 kW without a positive yield |
| `App.SizedSystemCoversConsumption` | app.py:258-271 | any system at least the sized kW generates the annual consumption |
| `App.AnnuityFactor` | app.py:277 | `Σ_{t=1..n} 1/1.08^t` lies in [0, n] |
| `App.DiscountedSavings` | app.py:277 | non-negative savings discount to between 0 and n × savings |
| `App.DiscountStep` | app.py:277 | one year's non-negative saving discounted by a factor of at least 1 lies between 0 and the saving |
| `App.DiscountedSavingsLinear` | app.py:277 | the discounted sum is the savings times the annuity factor |
| `App.Npv` | app.py:276-277 | for non-negative savings the 25-year NPV lies between `−upfront` and `−upfront + 25 × savings` |
| `App.AnnualGeneration` | app.py:271 | generation is never negative for a non-negative size and irradiance, and 1 kW generates the yield per kW |
| `App.AnnualSavings` | app.py:272 | savings are capped at consumption × rate and equal generation × rate below it |
| `App.PaybackYears` | app.py:273 | infinite iff savings are not positive, otherwise years × savings = upfront |
| `App.QuickRoi` | app.py:256-290 | the size, price and breakdown from the cost calculator, upfront = solar + battery, generation on the fitted kW, savings, payback and NPV all from the same upfront and savings |
| `App.ActualKw` | app.py:266 | the breakdown's fitted kW when there is a breakdown, else the requested kW |
| `App.ActualKwCoversSize` | app.py:263-266 | the kW generation is computed on is at least the sized kW |
| `App.GenerationCoversConsumption` | app.py:262-271 | with positive irradiance the estimated generation covers the annual consumption |
| `App.SavingsAreFullConsumption` | app.py:258-272 | with positive irradiance the savings are the whole consumption at the tariff rate |
| `App.AppBackupEnergy` | app.py:720-721 | the front end's backup energy equals the battery calculator's for a system that is not off-grid |
| `App.EstimatedSystemKw` | app.py:725-726 | `max(0.5, annual consumption / yield per kW)`: at least that ratio, exactly 0.5 kW when the ratio is at most 0.5, the ratio above it |
| `App.EstimateMatchesSystemSize` | app.py:725-726 | with positive irradiance that estimate is the quick ROI's system size |
| `AccuracyValidator.Clamp01` | utils/accuracy_validator.py:36 | `max(0, min(1, x))` lies in [0, 1] and keeps values already there |
| `AccuracyValidator.Coverage` | utils/accuracy_validator.py:11-17 | coverage times the annual consumption is the expected generation `kW × GHI × 365 × 0.75` for a positive consumption, else 0 |
| `AccuracyValidator.SizingCheck` | utils/accuracy_validator.py:17-36 | valid iff coverage in [0.9, 1.2], iff the only warning is the positive one; confidence 1 iff coverage in [0.7, 1.5]; at most one warning |
| `AccuracyValidator.ValidateSystemSizing` | utils/accuracy_validator.py:6-36 | the step-by-step check equals the band definition |
| `AccuracyValidator.PaybackCheck` | utils/accuracy_validator.py:47-59 | valid iff 3 ≤ years ≤ 15; confidence 1 iff in [5, 10], never below 0.4; silent only in [3,5) and (10,15]; a message is positive iff valid |
| `AccuracyValidator.ValidatePaybackPeriod` | utils/accuracy_validator.py:39-59 | the step-by-step check equals the band definition |
| `AccuracyValidator.CostCheck` | utils/accuracy_validator.py:71-85 | valid iff 55 ≤ KSh/W ≤ 150; confidence 1 iff in [70, 110], never below 0.5; silent only in [55,70) and (110,150]; a message is positive iff valid |
| `AccuracyValidator.ValidateCostPerWatt` | utils/accuracy_validator.py:62-85 | the step-by-step check equals the band definition |
| `AccuracyValidator.GhiCheck` | utils/accuracy_validator.py:97-109 | exactly one message, positive iff GHI ≥ 4.5; valid iff GHI ≥ 4.0; confidence 1 iff GHI ≥ 5.5 |
| `AccuracyValidator.ValidateGhiLocation` | utils/accuracy_validator.py:88-109 | the step-by-step check equals the band definition |
| `AccuracyValidator.OverallConfidence` | utils/accuracy_validator.py:112-131 | `(0.5, "Moderate", "orange")` for no results, else the mean confidence, with "High" iff ≥ 0.85, "Good" iff in [0.7, 0.85), "Moderate" iff in [0.5, 0.7), "Low" iff below 0.5, and the matching colour |
| `AccuracyValidator.SumConfidenceBounds` | utils/accuracy_validator.py:122 | scores in [lo, hi] sum to between n·lo and n·hi |
| `AccuracyValidator.OverallWithinUnitInterval` | utils/accuracy_validator.py:122 | scores in [0, 1] average to a value in [0, 1] |
| `AccuracyValidator.RoundHalfEven` | utils/accuracy_validator.py:139 | the nearest integer, ties to the even one |
| `AccuracyValidator.Repeat` | utils/accuracy_validator.py:140 | `c * n` has `max(n, 0)` copies of `c` |
| `AccuracyValidator.ConfidenceStars` | utils/accuracy_validator.py:134-140 | the first `round(5c)` characters are filled stars and the rest empty; five characters for a confidence in [0, 1] |
| `AccuracyValidator.CostPerWatt` | utils/accuracy_validator.py:166 | the price per watt times the watts is the total cost for a positive size, else 0 |
| `AccuracyValidator.CostPerWattRead` | utils/accuracy_validator.py:159-166 | the price per watt read from a given key of the financial section (`total_upfront_cost_ksh` as written, `upfront_cost_ksh` in the schema): times the watts it gives that key's value for a positive size, and 0 when the key is missing |
| `AccuracyValidator.ValidateWithCostPerWatt` | utils/accuracy_validator.py:168-200 | the four checks in order, their warnings concatenated in that order, the overall confidence, band and colour of those results, their stars, a confidence in [0, 1] and five stars |
| `AccuracyValidator.ValidateRecommendation` | utils/accuracy_validator.py:143-200 | reading missing keys as 0 and the price per watt from `total_upfront_cost_ksh / (kW × 1000)`: the four checks in order, their warnings concatenated in that order, the overall confidence, band and colour of those results, their stars, a confidence in [0, 1] and five stars |
| `AccuracyValidator.SchemaCostIgnored` | utils/accuracy_validator.py:164-166 | a recommendation without `total_upfront_cost_ksh` reads 0 KSh/W and is flagged too low, whatever its price |
| `AccuracyValidator.SchemaExampleFlaggedTooLow` | prompts/system_prompts.py:70 | a schema-shaped 3 kW, 300,000 KSh recommendation costs 100 KSh/W yet is flagged too low |
| `AccuracyValidator.SchemaCostRead` | prompts/system_prompts.py:70 | read from `upfront_cost_ksh`, the price per watt recovers the recommendation's own cost, and a typical price passes at full confidence |
| `AccuracyValidator.ValidateRecommendationFromSchema` | utils/accuracy_validator.py:162-166 | the same four checks, warnings, overall result and stars with the price per watt read from the schema's `upfront_cost_ksh` |
| `DataValidator.PriceRange` | utils/data_validator.py:40 | the assumptions' price range, [55, 120] when absent |
| `DataValidator.Losses` | utils/data_validator.py:50 | the assumptions' loss fraction, 0.15 when absent |
| `DataValidator.SizeRuleFires` | utils/data_validator.py:26-30 | with a positive panel count and rating, the rule fires iff the recommended size differs from panels × watts by more than 5% of it; never otherwise |
| `DataValidator.InverterRuleFires` | utils/data_validator.py:32-35 | with positive sizes, the rule fires iff the inverter-to-array ratio is below 1.1 or above 1.3; never otherwise |
| `DataValidator.PriceRuleFires` | utils/data_validator.py:37-44 | a positive price per watt fires the rule iff it lies outside the range; a non-positive one never does |
| `DataValidator.PhysicsRuleFires` | utils/data_validator.py:46-57 | fires only for positive irradiance, size and target; with a positive maximum, iff the target exceeds the maximum `kW × GHI × 365 × (1 − losses)` by a ratio above 1.05 |
| `DataValidator.CompareRatio` | utils/data_validator.py:34 | comparing a ratio with a bound is comparing the numerator with the bound times a positive denominator |
| `DataValidator.FieldsOf` | utils/data_validator.py:20-49 | each of the seven fields the rules read comes from its own section and key (`panel_count`, `panel_wattage_w`, `required_system_size_kw`, `inverter_size_kw`, `target_annual_generation_kwh` of `system_sizing`; `cost_per_watt_ksh` of `financial_analysis`; `ghi_kwh_m2_day` of `location_analysis`), 0 when missing |
| `DataValidator.ValidateRecommendation` | utils/data_validator.py:12-59 | exactly one "missing inputs" error when the recommendation is empty or the catalogue or assumptions are absent; otherwise the appended errors are those of the four rules in order |
| `DataValidator.RuleErrors` | utils/data_validator.py:26-57 | at most four errors, each from one of the four rules, never the missing-input error |
| `DataValidator.RuleErrorsMembership` | utils/data_validator.py:26-57 | each rule's error is reported iff that rule fires, and no "missing inputs" error is |
| `DataValidator.RuleErrorsCountAndOrder` | utils/data_validator.py:14-59 | one error per rule that fires, in the order size, inverter, price, physics |
| `DataValidator.NoErrorsIffNoRuleFires` | utils/data_validator.py:14-59 | the error list is empty iff no rule fires |
| `DataValidator.ZeroFieldsPass` | utils/data_validator.py:27-53 | with panel count, size and price all zero or missing, no rule fires |
| `DataValidator.ExactSizingPasses` | utils/data_validator.py:27-34 | an array sized exactly from its panels with an inverter 1.2 times that size passes both technical rules |

## Left out

- The Streamlit pages, CSS, session state, navigation, export formatting and
  `load_all_data` of app.py are user interface and file I/O. The module-level
  data they load (`GHI_DATA`, `EQUIPMENT_CATALOG`, `ASSUMPTIONS`) become
  parameters.
- The chat page's Gemini/OpenRouter calls, utils/gemini_handler.py,
  utils/nasa_power_api.py, utils/Kenya_Solar_Atlas_Data.py and
  utils/visualizations.py are network, raster and chart code, and are not part
  of this model. config.py, prompts/system_prompts.py and Untitled-1.py hold
  constants and strings only.
- `load_json_data` in both utility files and their `__main__` blocks are file
  I/O and printing.
- Floating-point rounding is not modelled: every quantity is an exact real.
- Warning and error messages are datatype constructors carrying the values they
  quote. Their text and number formatting are not modelled.
- The `percentage` entries of the cost breakdown are display values and are
  left out. So is the unused `panels` list of the catalogue.
- `calculate_overall_confidence` drops results shorter than three entries. Every
  result modelled is a triple, so that filter is not represented.
- The `except` branch of the accuracy validator's `validate_recommendation` is
  left out. Missing keys read as 0 instead.
- Appliance counts are a sequence of (name, count) pairs rather than a dict.
  The lemmas hold for any order, and for repeated names too.
- The data validator only tests the catalogue for emptiness. It is a boolean
  here. Of calculate_system_cost's assumptions only their presence matters,
  which is also a boolean.
- JSON values of other types than numbers in a recommendation are not modelled.
- BatteryCalculator.BatterySpecs: requires a depth-of-discharge override other
  than 0, where the source raises ZeroDivisionError.
- BatteryCalculator.LifecycleCost: requires a non-zero cycle life and period,
  where the source raises ZeroDivisionError.
- BatteryCalculator.CompareBatteryTypes: requires a non-zero period, for the
  same reason. So do BatteryCalculator.ReportAll and BatteryCalculator.Report.
- App.EstimatedSystemKw: requires non-zero irradiance, where the source raises
  ZeroDivisionError.

## Findings

| source | as written | input that shows it | evidently intended | confidence | as-written member | corrected member |
|---|---|---|---|---|---|---|
| utils/accuracy_validator.py:164 | the price per watt is read from `financial_analysis.total_upfront_cost_ksh`, but the recommendation schema (prompts/system_prompts.py:70) emits `upfront_cost_ksh`, so the price reads 0 KSh/W | a schema-shaped recommendation of 3 kW for 300,000 KSh (100 KSh/W) is flagged "too low" at confidence 0.5 | read `upfront_cost_ksh`, so that recommendation passes as a typical price at confidence 1 | high; not executed | `AccuracyValidator.SchemaCostIgnored` | `AccuracyValidator.SchemaCostRead` |
| utils/battery_calculator.py:166 | past 200 Ah, Lead-Acid/Gel banks get `int(need / 200) + 1` parallel strings | 2.4 kWh of Lead-Acid backup on a 12 V system (4.8 kWh total at DoD 0.5) needs exactly 400 Ah and gets three 200 Ah strings | ceiling division, two strings | medium; not executed | `BatteryCalculator.ExactMultipleOverProvisions` | `BatteryCalculator.LeadAcidStrings` |

The validator and sizing functions above keep the code's behaviour, because
they describe what the application does. The corrected definitions sit beside
them:

- `AccuracyValidator.ValidateRecommendationFromSchema` validates with the
  schema's key.
- `BatteryCalculator.LeadAcidStrings` gives the string count by ceiling
  division.
