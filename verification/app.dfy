/** The calculation helpers of the Streamlit front end (app.py): irradiance
    lookup, appliance load, the quick ROI estimate, and the battery sizing
    inputs derived from monthly consumption. */
module App {
  import opened Common
  import opened CostCalculator
  import opened BatteryCalculator

  // ---------------------------------------------------------------------------
  // Irradiance lookup
  // ---------------------------------------------------------------------------

  const DefaultGhi: real := 5.2

  /** One entry of the "counties" list; either key may be missing. */
  datatype CountyEntry = CountyEntry(county: Option<string>, irradiance: Option<real>)

  /** The loaded irradiance data: something other than a dict, or a dict with an
      optional "counties" list and per-location records, each of which may lack
      its `ghi_kwh_m2_day` value. */
  datatype GhiData =
    | NotADict
    | GhiTable(counties: Option<seq<CountyEntry>>, records: map<string, Option<real>>)

  /** `GHI_DATA.get(location, {}).get("ghi_kwh_m2_day", 5.2)`. */
  function RecordGhi(records: map<string, Option<real>>, location: string): real {
    if location in records then records[location].GetOr(DefaultGhi) else DefaultGhi
  }

  /** `get_ghi_for_location`: the first county entry naming the location wins
      (its irradiance, or 5.2 when that is missing); without a match, the
      location's record; 5.2 when the data is not a dict. */
  method GhiForLocation(data: GhiData, location: string) returns (ghi: real)
    ensures data.NotADict? ==> ghi == DefaultGhi
    ensures data.GhiTable? && data.counties.Some? ==>
      var cs := data.counties.value;
      (exists i :: 0 <= i < |cs| && cs[i].county == Some(location)) ==>
        exists i :: 0 <= i < |cs| && cs[i].county == Some(location)
          && (forall j :: 0 <= j < i ==> cs[j].county != Some(location))
          && ghi == cs[i].irradiance.GetOr(DefaultGhi)
    ensures data.GhiTable? ==>
      (data.counties.None? || forall i :: 0 <= i < |data.counties.value| ==> data.counties.value[i].county != Some(location)) ==>
        ghi == RecordGhi(data.records, location)
  {
    if data.NotADict? {
      return DefaultGhi;
    }
    if data.counties.Some? {
      var cs := data.counties.value;
      var i := 0;
      while i < |cs|
        invariant 0 <= i <= |cs|
        invariant forall j :: 0 <= j < i ==> cs[j].county != Some(location)
      {
        if cs[i].county == Some(location) {
          return cs[i].irradiance.GetOr(DefaultGhi);
        }
        i := i + 1;
      }
    }
    return RecordGhi(data.records, location);
  }

  // ---------------------------------------------------------------------------
  // Appliance load
  // ---------------------------------------------------------------------------

  const DaysPerMonth: real := 30.44

  datatype ApplianceSpec = ApplianceSpec(watts: real, hoursPerDay: real)

  /** The fourteen appliances of the table. */
  const ApplianceNames: set<string> := {
    "Fridge", "Freezer", "TV", "LED Lights", "Laptop", "Router", "Phone Chargers",
    "Water Pump", "Air Conditioner", "Iron", "Washing Machine", "Microwave",
    "Electric Stove", "Water Heater"}

  /** The appliance table: power in watts and daily hours of use; the water
      pump runs for the hours the caller gives. */
  function ApplianceTable(name: string, pumpHours: real): (r: Option<ApplianceSpec>)
    ensures r.Some? <==> name in ApplianceNames
    ensures r.Some? ==> r.value.watts > 0.0
    ensures name == "Water Pump" ==> r == Some(ApplianceSpec(500.0, pumpHours))
    ensures r.Some? && name != "Water Pump" ==> 0.0 < r.value.hoursPerDay <= 24.0
  {
    match name
    case "Fridge" => Some(ApplianceSpec(150.0, 24.0))
    case "Freezer" => Some(ApplianceSpec(150.0, 24.0))
    case "TV" => Some(ApplianceSpec(80.0, 4.0))
    case "LED Lights" => Some(ApplianceSpec(10.0, 5.0))
    case "Laptop" => Some(ApplianceSpec(60.0, 6.0))
    case "Router" => Some(ApplianceSpec(10.0, 24.0))
    case "Phone Chargers" => Some(ApplianceSpec(30.0, 3.0))
    case "Water Pump" => Some(ApplianceSpec(500.0, pumpHours))
    case "Air Conditioner" => Some(ApplianceSpec(1500.0, 8.0))
    case "Iron" => Some(ApplianceSpec(1000.0, 0.3))
    case "Washing Machine" => Some(ApplianceSpec(500.0, 0.4))
    case "Microwave" => Some(ApplianceSpec(800.0, 0.5))
    case "Electric Stove" => Some(ApplianceSpec(2000.0, 1.0))
    case "Water Heater" => Some(ApplianceSpec(1500.0, 0.5))
    case _ => None
  }

  /** Daily kWh of `count` units of one appliance; unknown names and
      non-positive counts contribute nothing. */
  function ItemKwh(name: string, count: int, pumpHours: real): (k: real)
    ensures ApplianceTable(name, pumpHours).None? || count <= 0 ==> k == 0.0
    ensures ApplianceTable(name, pumpHours).Some? && count > 0 ==>
      var spec := ApplianceTable(name, pumpHours).value;
      k * 1000.0 == spec.watts * spec.hoursPerDay * count as real
    ensures pumpHours >= 0.0 ==> k >= 0.0
  {
    match ApplianceTable(name, pumpHours)
    case Some(spec) =>
      if count > 0 then
        var wh := spec.watts * spec.hoursPerDay;
        assert pumpHours >= 0.0 ==> wh >= 0.0;
        assert pumpHours >= 0.0 ==> wh * count as real >= 0.0;
        wh * count as real / 1000.0
      else 0.0
    case None => 0.0
  }

  /** The generator sum over the appliance counts, in order; never negative
      for a non-negative pump time. */
  function DailyApplianceKwh(items: seq<(string, int)>, pumpHours: real): (kwh: real)
    ensures pumpHours >= 0.0 ==> kwh >= 0.0
    decreases |items|
  {
    if items == [] then 0.0
    else
      var last := items[|items| - 1];
      DailyApplianceKwh(items[..|items| - 1], pumpHours) + ItemKwh(last.0, last.1, pumpHours)
  }

  /** `calculate_appliance_load`: monthly kWh at 30.44 days a month. */
  function ApplianceLoad(items: seq<(string, int)>, pumpHours: real): (monthly: real)
    ensures items == [] ==> monthly == 0.0
    ensures pumpHours >= 0.0 ==> monthly >= 0.0
  {
    DailyApplianceKwh(items, pumpHours) * DaysPerMonth
  }

  /** The load of two lists of appliances is the sum of their loads. */
  lemma {:induction false} ApplianceLoadAppend(a: seq<(string, int)>, b: seq<(string, int)>, pumpHours: real)
    ensures DailyApplianceKwh(a + b, pumpHours) == DailyApplianceKwh(a, pumpHours) + DailyApplianceKwh(b, pumpHours)
    decreases |b|
  {
    if b == [] {
      assert a + b == a;
    } else {
      var b' := b[..|b| - 1];
      assert (a + b)[..|a + b| - 1] == a + b';
      assert (a + b)[|a + b| - 1] == b[|b| - 1];
      ApplianceLoadAppend(a, b', pumpHours);
    }
  }

  /** An unknown appliance or a zero count leaves the load unchanged. */
  lemma UnknownOrUnusedIgnored(items: seq<(string, int)>, name: string, count: int, pumpHours: real)
    requires ApplianceTable(name, pumpHours).None? || count <= 0
    ensures ApplianceLoad(items + [(name, count)], pumpHours) == ApplianceLoad(items, pumpHours)
  {
    assert (items + [(name, count)])[..|items|] == items;
  }

  /** One line of the appliance dict contributes exactly its own daily kWh;
      with ApplianceLoadAppend this gives the load of any list as the sum of
      its lines. */
  lemma SingleApplianceKwh(name: string, count: int, pumpHours: real)
    ensures DailyApplianceKwh([(name, count)], pumpHours) == ItemKwh(name, count, pumpHours)
  {
    assert [(name, count)][..0] == [];
  }

  /** The water pump is the one entry whose hours come from the caller. */
  lemma WaterPumpUsesPumpHours(count: int, pumpHours: real)
    requires count > 0
    ensures DailyApplianceKwh([("Water Pump", count)], pumpHours) == 500.0 * pumpHours * count as real / 1000.0
  {
    SingleApplianceKwh("Water Pump", count, pumpHours);
  }

  /** A user-entered appliance: watts and hours per day. */
  datatype CustomAppliance = CustomAppliance(power: real, hours: real)

  /** Monthly kWh of one custom appliance. */
  function CustomKwh(c: CustomAppliance): (kwh: real)
    ensures kwh * 1000.0 == c.power * c.hours * DaysPerMonth
    ensures c.power >= 0.0 && c.hours >= 0.0 ==> kwh >= 0.0
  {
    assert c.power >= 0.0 && c.hours >= 0.0 ==> c.power * c.hours >= 0.0;
    c.power * c.hours / 1000.0 * DaysPerMonth
  }

  /** The custom appliances' monthly kWh, summed in order. */
  function CustomConsumption(customs: seq<CustomAppliance>): real
    decreases |customs|
  {
    if customs == [] then 0.0 else CustomConsumption(customs[..|customs| - 1]) + CustomKwh(customs[|customs| - 1])
  }

  /** The monthly consumption shown to the user: the catalogue load (water pump
      at two hours) plus every custom appliance. */
  method TotalMonthlyConsumption(items: seq<(string, int)>, customs: seq<CustomAppliance>) returns (monthly: real, custom: real)
    ensures custom == CustomConsumption(customs)
    ensures monthly == ApplianceLoad(items, 2.0) + custom
  {
    var base := ApplianceLoad(items, 2.0);
    custom := 0.0;
    for i := 0 to |customs|
      invariant custom == CustomConsumption(customs[..i])
    {
      assert customs[..i + 1][..i] == customs[..i];
      var dailyKwh := customs[i].power * customs[i].hours / 1000.0;
      custom := custom + dailyKwh * DaysPerMonth;
    }
    assert customs[..|customs|] == customs;
    monthly := base + custom;
  }

  /** A custom appliance entered with a catalogue appliance's power and hours
      adds the same monthly load as the catalogue entry. */
  lemma CustomMatchesCatalogue(name: string, pumpHours: real)
    requires ApplianceTable(name, pumpHours).Some?
    ensures var spec := ApplianceTable(name, pumpHours).value;
      CustomConsumption([CustomAppliance(spec.watts, spec.hoursPerDay)]) == ApplianceLoad([(name, 1)], pumpHours)
  {
    var spec := ApplianceTable(name, pumpHours).value;
    var wh := spec.watts * spec.hoursPerDay;
    assert [CustomAppliance(spec.watts, spec.hoursPerDay)][..0] == [];
    assert [(name, 1)][..0] == [];
    assert CustomConsumption([CustomAppliance(spec.watts, spec.hoursPerDay)]) == wh / 1000.0 * DaysPerMonth;
    assert ItemKwh(name, 1, pumpHours) == wh * 1.0 / 1000.0;
    assert DailyApplianceKwh([(name, 1)], pumpHours) == ItemKwh(name, 1, pumpHours);
  }

  // ---------------------------------------------------------------------------
  // Quick ROI
  // ---------------------------------------------------------------------------

  /** Annual kWh per installed kW: irradiance × 15% efficiency × 0.80
      performance ratio × 6.5 m² per kW × 365 days. */
  function YieldPerKw(ghi: real): (y: real)
    ensures y == 284.7 * ghi
  {
    ghi * 0.15 * 0.80 * 6.5 * 365.0
  }

  /** The system size for a monthly consumption: enough to produce the annual
      consumption, at least 0.5 kW; 1 kW when the yield is not positive. */
  function SystemSizeKw(monthlyKwh: real, ghi: real): (kw: real)
    ensures kw >= 0.5
    ensures YieldPerKw(ghi) > 0.0 && monthlyKwh * 12.0 / YieldPerKw(ghi) <= 0.5 ==> kw == 0.5
    ensures YieldPerKw(ghi) <= 0.0 ==> kw == 1.0
    ensures YieldPerKw(ghi) > 0.0 ==> kw >= monthlyKwh * 12.0 / YieldPerKw(ghi)
    ensures YieldPerKw(ghi) > 0.0 && monthlyKwh * 12.0 / YieldPerKw(ghi) > 0.5 ==> kw == monthlyKwh * 12.0 / YieldPerKw(ghi)
  {
    var annualYield := YieldPerKw(ghi);
    Max(0.5, if annualYield > 0.0 then monthlyKwh * 12.0 / annualYield else 1.0)
  }

  /** The sized system produces at least the annual consumption. */
  lemma SizedSystemCoversConsumption(monthlyKwh: real, ghi: real, actualKw: real)
    requires YieldPerKw(ghi) > 0.0 && actualKw >= SystemSizeKw(monthlyKwh, ghi)
    ensures AnnualGeneration(actualKw, ghi) >= monthlyKwh * 12.0
  {
    var y := YieldPerKw(ghi);
    ScaleLessEq(monthlyKwh * 12.0 / y, actualKw, y);
  }

  datatype Payback = Finite(years: real) | Infinite

  /** `sum(savings / 1.08 ** t for t in range(1, n + 1))`: for a non-negative
      saving, between nothing and the undiscounted `n × savings`. */
  function DiscountedSavings(savings: real, n: nat): (d: real)
    ensures savings >= 0.0 ==> 0.0 <= d <= n as real * savings
    decreases n
  {
    if n == 0 then 0.0
    else
      var p := Pow(1.08, n);
      DiscountStep(savings, p);
      DiscountedSavings(savings, n - 1) + savings / p
  }

  /** One year's saving discounted by a factor of at least 1. */
  lemma DiscountStep(savings: real, p: real)
    requires p >= 1.0
    ensures savings >= 0.0 ==> 0.0 <= savings / p <= savings
  {
    if savings >= 0.0 {
      ScaleLessEq(1.0, p, savings / p);
    }
  }

  /** The 25-year net present value at an 8% discount rate: for a non-negative
      saving, between minus the upfront cost and the undiscounted 25-year
      saving minus the upfront cost. */
  function Npv(upfront: real, savings: real): (npv: real)
    ensures savings >= 0.0 ==> -upfront <= npv <= -upfront + 25.0 * savings
  {
    -upfront + DiscountedSavings(savings, 25)
  }

  /** `sum(1 / 1.08 ** t for t in range(1, n + 1))`. */
  function AnnuityFactor(n: nat): (f: real)
    ensures 0.0 <= f <= n as real
    decreases n
  {
    if n == 0 then 0.0
    else
      var p := Pow(1.08, n);
      assert 1.0 / p <= 1.0;
      AnnuityFactor(n - 1) + 1.0 / p
  }

  /** Discounting is linear in the yearly saving. */
  lemma {:induction false} DiscountedSavingsLinear(savings: real, n: nat)
    ensures DiscountedSavings(savings, n) == savings * AnnuityFactor(n)
    decreases n
  {
    if n > 0 {
      DiscountedSavingsLinear(savings, n - 1);
      var p := Pow(1.08, n);
      var a := AnnuityFactor(n - 1);
      assert DiscountedSavings(savings, n) == DiscountedSavings(savings, n - 1) + savings / p;
      assert AnnuityFactor(n) == a + 1.0 / p;
      assert savings / p == savings * (1.0 / p);
      assert savings * (a + 1.0 / p) == savings * a + savings * (1.0 / p);
    }
  }

  /** Annual kWh generated by `kw` of panels. */
  function AnnualGeneration(kw: real, ghi: real): (kwh: real)
    ensures kw >= 0.0 && ghi >= 0.0 ==> kwh >= 0.0
    ensures kw == 1.0 ==> kwh == YieldPerKw(ghi)
  {
    var y := YieldPerKw(ghi);
    assert kw >= 0.0 && y >= 0.0 ==> kw * y >= 0.0;
    kw * y
  }

  /** Savings value the generation that is used, at most the consumption. */
  function AnnualSavings(generation: real, annualKwh: real, rate: real): (s: real)
    ensures rate >= 0.0 ==> s <= annualKwh * rate
    ensures generation >= annualKwh ==> s == annualKwh * rate
    ensures generation <= annualKwh ==> s == generation * rate
  {
    var used := Min(generation, annualKwh);
    assert rate >= 0.0 ==> used * rate <= annualKwh * rate by {
      if rate >= 0.0 { ScaleLessEq(used, annualKwh, rate); }
    }
    used * rate
  }

  /** Years to recover the upfront cost; infinite without positive savings. */
  function PaybackYears(upfront: real, savings: real): (p: Payback)
    ensures p.Infinite? <==> savings <= 0.0
    ensures p.Finite? ==> p.years * savings == upfront
    ensures p.Finite? && upfront >= 0.0 ==> p.years >= 0.0
  {
    if savings > 0.0 then Finite(upfront / savings) else Infinite
  }

  datatype RoiEstimate = RoiEstimate(
    systemKw: real,
    solarCost: real,
    batteryCost: real,
    upfrontCost: real,
    costPerWatt: real,
    breakdown: Option<CostBreakdown>,
    annualGeneration: real,
    annualSavings: real,
    payback: Payback,
    npv: real)

  /** `cost_breakdown.get('actual_system_kw', system_kw)`. */
  function ActualKw(breakdown: Option<CostBreakdown>, systemKw: real): (kw: real)
    ensures breakdown.Some? ==> kw == breakdown.value.actualSystemKw
    ensures breakdown.None? ==> kw == systemKw
  {
    if breakdown.Some? then breakdown.value.actualSystemKw else systemKw
  }

  /** `calculate_quick_roi`: size the system, price it, and estimate generation
      on the panels actually fitted (the requested size when the price has no
      breakdown), savings capped by consumption, payback and NPV, all from the
      same upfront cost and savings that are reported. */
  function QuickRoi(monthlyKwh: real, ghi: real, rate: real, batteryCost: real,
                    catalog: Option<Catalog>, haveAssumptions: bool): (r: RoiEstimate)
    ensures r.systemKw == SystemSizeKw(monthlyKwh, ghi) && r.systemKw >= 0.5
    ensures var priced := SystemCostOf(r.systemKw, catalog, haveAssumptions);
      r.solarCost == priced.total && r.costPerWatt == priced.costPerWatt && r.breakdown == priced.breakdown
    ensures r.batteryCost == batteryCost && r.upfrontCost == r.solarCost + r.batteryCost
    ensures r.annualGeneration == AnnualGeneration(ActualKw(r.breakdown, r.systemKw), ghi)
    ensures r.annualSavings == AnnualSavings(r.annualGeneration, monthlyKwh * 12.0, rate)
    ensures r.payback == PaybackYears(r.upfrontCost, r.annualSavings)
    ensures r.npv == Npv(r.upfrontCost, r.annualSavings)
  {
    var annualKwh := monthlyKwh * 12.0;
    var systemKw := SystemSizeKw(monthlyKwh, ghi);
    var priced := SystemCostOf(systemKw, catalog, haveAssumptions);
    var upfront := priced.total + batteryCost;
    var generation := AnnualGeneration(ActualKw(priced.breakdown, systemKw), ghi);
    var savings := AnnualSavings(generation, annualKwh, rate);
    RoiEstimate(systemKw, priced.total, batteryCost, upfront, priced.costPerWatt, priced.breakdown,
                generation, savings, PaybackYears(upfront, savings), Npv(upfront, savings))
  }

  /** The fitted system is never smaller than the size asked for. */
  lemma ActualKwCoversSize(monthlyKwh: real, ghi: real, catalog: Option<Catalog>, haveAssumptions: bool)
    ensures var kw := SystemSizeKw(monthlyKwh, ghi);
      ActualKw(SystemCostOf(kw, catalog, haveAssumptions).breakdown, kw) >= kw
  {
  }

  /** Under positive irradiance the fitted system generates at least the
      annual consumption. */
  lemma GenerationCoversConsumption(monthlyKwh: real, ghi: real, catalog: Option<Catalog>, haveAssumptions: bool)
    requires ghi > 0.0
    ensures var kw := SystemSizeKw(monthlyKwh, ghi);
      AnnualGeneration(ActualKw(SystemCostOf(kw, catalog, haveAssumptions).breakdown, kw), ghi) >= monthlyKwh * 12.0
  {
    var kw := SystemSizeKw(monthlyKwh, ghi);
    var actualKw := ActualKw(SystemCostOf(kw, catalog, haveAssumptions).breakdown, kw);
    ActualKwCoversSize(monthlyKwh, ghi, catalog, haveAssumptions);
    assert YieldPerKw(ghi) > 0.0;
    SizedSystemCoversConsumption(monthlyKwh, ghi, actualKw);
  }

  /** Under positive irradiance the system is sized to cover the consumption, so
      the savings are the whole consumption at the tariff rate. */
  lemma SavingsAreFullConsumption(monthlyKwh: real, ghi: real, rate: real, batteryCost: real,
                                  catalog: Option<Catalog>, haveAssumptions: bool)
    requires ghi > 0.0
    ensures QuickRoi(monthlyKwh, ghi, rate, batteryCost, catalog, haveAssumptions).annualSavings == monthlyKwh * 12.0 * rate
  {
    GenerationCoversConsumption(monthlyKwh, ghi, catalog, haveAssumptions);
  }

  // ---------------------------------------------------------------------------
  // Battery sizing inputs
  // ---------------------------------------------------------------------------

  /** Backup energy from monthly consumption: the average hourly draw for the
      chosen number of hours, which is the battery calculator's backup energy
      for a system that is not off-grid. */
  function AppBackupEnergy(monthlyKwh: real, backupHours: real): (kwh: real)
    ensures kwh == BatteryRequirements(monthlyKwh / DaysPerMonth, backupHours, "Hybrid").backupEnergyKwh
  {
    MissingCharNotContained("Hybrid", "Off-grid", 'O');
    (monthlyKwh / DaysPerMonth) / 24.0 * backupHours
  }

  /** The system size used to pick the battery voltage. Zero irradiance divides
      by zero in the source and is excluded. */
  function EstimatedSystemKw(monthlyKwh: real, ghi: real): (kw: real)
    requires ghi != 0.0
    ensures kw >= 0.5
    ensures kw >= monthlyKwh * 12.0 / YieldPerKw(ghi)
    ensures monthlyKwh * 12.0 / YieldPerKw(ghi) <= 0.5 ==> kw == 0.5
    ensures monthlyKwh * 12.0 / YieldPerKw(ghi) > 0.5 ==> kw == monthlyKwh * 12.0 / YieldPerKw(ghi)
  {
    Max(0.5, (monthlyKwh * 12.0) / (ghi * 0.15 * 0.80 * 6.5 * 365.0))
  }

  /** Under positive irradiance the estimate is the quick-ROI system size. */
  lemma EstimateMatchesSystemSize(monthlyKwh: real, ghi: real)
    requires ghi > 0.0
    ensures EstimatedSystemKw(monthlyKwh, ghi) == SystemSizeKw(monthlyKwh, ghi)
  {
  }
}
