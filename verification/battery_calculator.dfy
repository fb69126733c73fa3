/** Battery bank sizing, pricing and lifecycle cost (utils/battery_calculator.py). */
module BatteryCalculator {
  import opened Common

  // ---------------------------------------------------------------------------
  // Backup energy
  // ---------------------------------------------------------------------------

  datatype Requirements = Requirements(backupEnergyKwh: real, hourlyConsumption: real, backupHours: real)

  /** `calculate_battery_requirements`: the hours of backup at the average hourly
      draw, replaced by two days of autonomy when the system type mentions "Off-grid". */
  function BatteryRequirements(dailyKwh: real, backupHours: real, systemType: string): (r: Requirements)
    ensures r.hourlyConsumption * 24.0 == dailyKwh
    ensures r.backupHours == backupHours
    ensures Contains(systemType, "Off-grid") ==> r.backupEnergyKwh == 2.0 * dailyKwh
    ensures !Contains(systemType, "Off-grid") ==> r.backupEnergyKwh * 24.0 == dailyKwh * backupHours
  {
    var hourly := dailyKwh / 24.0;
    var energy := if Contains(systemType, "Off-grid") then dailyKwh * 2.0 else hourly * backupHours;
    Requirements(energy, hourly, backupHours)
  }

  // ---------------------------------------------------------------------------
  // Specifications of the bank
  // ---------------------------------------------------------------------------

  /** Default depth of discharge by chemistry (substring tests), unless overridden. */
  function DepthOfDischarge(batteryType: string, dodOverride: Option<real>): (d: real)
    ensures dodOverride.Some? ==> d == dodOverride.value
    ensures dodOverride.None? ==> d == 0.9 || d == 0.6 || d == 0.5
    ensures dodOverride.None? ==> (d == 0.9 <==> Contains(batteryType, "Lithium"))
    ensures dodOverride.None? ==> (d == 0.6 <==> !Contains(batteryType, "Lithium") && Contains(batteryType, "Gel"))
  {
    match dodOverride
    case Some(v) => v
    case None =>
      if Contains(batteryType, "Lithium") then 0.9
      else if Contains(batteryType, "Gel") then 0.6
      else 0.5
  }

  /** System voltage and batteries per series string. */
  datatype Topology = Topology(voltage: int, series: int)

  /** The voltage step function: below 1.5 kW (or unknown) 12 V, below 5 kW 24 V,
      otherwise 48 V, built from 12 V units in series. */
  function VoltageFor(systemKw: Option<real>): (t: Topology)
    ensures t.voltage == 12 * t.series
    ensures t.series == 1 || t.series == 2 || t.series == 4
    ensures t.series == 1 <==> (systemKw.None? || systemKw.value < 1.5)
    ensures t.series == 4 <==> (systemKw.Some? && systemKw.value >= 5.0)
  {
    if systemKw.None? || systemKw.value < 1.5 then Topology(12, 1)
    else if systemKw.value < 5.0 then Topology(24, 2)
    else Topology(48, 4)
  }

  /** A larger system never gets a lower voltage. */
  lemma VoltageMonotone(kw1: real, kw2: real)
    requires kw1 <= kw2
    ensures VoltageFor(Some(kw1)).voltage <= VoltageFor(Some(kw2)).voltage
  {
  }

  const PackSizesKwh: seq<real> := [2.56, 5.12, 7.68, 10.24, 15.36, 20.48]
  const LithiumAhSizes: seq<real> := [50.0, 100.0, 150.0, 200.0, 300.0]
  const LeadAhSizes: seq<real> := [50.0, 80.0, 100.0, 120.0, 150.0, 200.0]

  /** Python's `min([s for s in sizes if s >= need])`, `None` when nothing qualifies. */
  function SmallestAtLeast(sizes: seq<real>, need: real): (r: Option<real>)
    ensures r.None? <==> forall i :: 0 <= i < |sizes| ==> sizes[i] < need
    ensures r.Some? ==>
      && r.value in sizes
      && r.value >= need
      && forall i :: 0 <= i < |sizes| && sizes[i] >= need ==> r.value <= sizes[i]
    decreases |sizes|
  {
    if sizes == [] then None
    else
      var rest := SmallestAtLeast(sizes[1..], need);
      if sizes[0] >= need && (rest.None? || sizes[0] <= rest.value) then Some(sizes[0])
      else rest
  }

  /** The smallest standard size at least `need`, or `fallback` when none is. */
  function StandardSize(sizes: seq<real>, need: real, fallback: real): (r: real)
    ensures (exists i :: 0 <= i < |sizes| && sizes[i] >= need) ==> r in sizes && r >= need
    ensures forall i :: 0 <= i < |sizes| && sizes[i] >= need ==> r <= sizes[i]
    ensures (forall i :: 0 <= i < |sizes| ==> sizes[i] < need) ==> r == fallback
  {
    SmallestAtLeast(sizes, need).GetOr(fallback)
  }

  // The three tables, each choice written as a chain of thresholds; the lemmas
  // after each show the chain is exactly the minimum over the table.

  /** Per-unit Ah of an Ah-rated lithium bank (default 300 Ah). */
  function LithiumUnitAh(needAh: real): (u: real)
    ensures u in LithiumAhSizes
    ensures needAh <= 300.0 ==> needAh <= u
  {
    if needAh <= 50.0 then 50.0 else if needAh <= 100.0 then 100.0 else if needAh <= 150.0 then 150.0
    else if needAh <= 200.0 then 200.0 else 300.0
  }

  lemma LithiumUnitAhIsSmallest(needAh: real)
    ensures LithiumUnitAh(needAh) == StandardSize(LithiumAhSizes, needAh, 300.0)
  {
  }

  /** Per-unit Ah of a Lead-Acid or Gel bank before the 200 Ah cap (default 200 Ah). */
  function LeadUnitAh(needAh: real): (u: real)
    ensures u in LeadAhSizes
    ensures needAh <= 200.0 ==> needAh <= u
  {
    if needAh <= 50.0 then 50.0 else if needAh <= 80.0 then 80.0 else if needAh <= 100.0 then 100.0
    else if needAh <= 120.0 then 120.0 else if needAh <= 150.0 then 150.0 else 200.0
  }

  lemma LeadUnitAhIsSmallest(needAh: real)
    ensures LeadUnitAh(needAh) == StandardSize(LeadAhSizes, needAh, 200.0)
  {
  }

  /** kWh of one lithium pack for a series position's share (default 20.48 kWh). */
  function PackKwh(shareKwh: real): (u: real)
    ensures u in PackSizesKwh
    ensures shareKwh <= 20.48 ==> shareKwh <= u
  {
    if shareKwh <= 2.56 then 2.56 else if shareKwh <= 5.12 then 5.12 else if shareKwh <= 7.68 then 7.68
    else if shareKwh <= 10.24 then 10.24 else if shareKwh <= 15.36 then 15.36 else 20.48
  }

  lemma PackKwhIsSmallest(shareKwh: real)
    ensures PackKwh(shareKwh) == StandardSize(PackSizesKwh, shareKwh, 20.48)
  {
  }

  /** `a < b` scales by a positive factor. */
  lemma ScaleLess(a: real, b: real, c: real)
    requires a < b && c > 0.0
    ensures a * c < b * c
  {
  }

  /** `int(need / unit) + 1` units of `unit` exceed `need`. */
  lemma CoverByTrunc(need: real, unit: real)
    requires 0.0 < unit < need
    ensures (Trunc(need / unit) + 1) as real * unit > need
  {
    var q := need / unit;
    assert q * unit == need;
    assert q > 0.0;
    var f := Trunc(q);
    assert q < f as real + 1.0;
    ScaleLess(q, f as real + 1.0, unit);
    assert (f + 1) as real == f as real + 1.0;
  }

  /** Parallel strings in the Ah-based paths: one when a single unit holds the
      need, otherwise `int(need / unit) + 1`. */
  function AhStrings(needAh: real, unitAh: real): (p: int)
    requires unitAh > 0.0
    ensures p >= 1
    ensures p as real * unitAh >= needAh
    ensures needAh <= unitAh ==> p == 1
    ensures unitAh < needAh ==> p == Trunc(needAh / unitAh) + 1 && p as real * unitAh > needAh
  {
    if unitAh < needAh then
      CoverByTrunc(needAh, unitAh);
      Trunc(needAh / unitAh) + 1
    else 1
  }

  /** Parallel strings of kWh packs: `max(1, int(x / d) + (1 if x % d > 0 else 0))`,
      where Python's `x % d` on positive floats is `x - d * floor(x / d)`. */
  function PackStrings(x: real, d: real): (p: int)
    requires x > 0.0 && d > 0.0
    ensures p >= 1
    ensures p as real * d >= x
    ensures (p - 1) as real * d < x
  {
    var q := x / d;
    var n := Trunc(q) + (if x - d * q.Floor as real > 0.0 then 1 else 0);
    CeilingByRemainder(x, d);
    if n > 1 then n else 1
  }

  /** The pack-count formula is the ceiling of `x / d`. */
  lemma CeilingByRemainder(x: real, d: real)
    requires x > 0.0 && d > 0.0
    ensures var q := x / d;
      var n := Trunc(q) + (if x - d * q.Floor as real > 0.0 then 1 else 0);
      var p := if n > 1 then n else 1;
      p as real * d >= x && (p - 1) as real * d < x
  {
    var q := x / d;
    assert q * d == x;
    var f := q.Floor;
    var fd := f as real * d;
    if f as real < q {
      ScaleLess(f as real, q, d);
      ScaleLess(q, f as real + 1.0, d);
      assert x - d * q.Floor as real > 0.0;
      assert f >= 0;
      calc {
        x;
        q * d;
      <
        (f as real + 1.0) * d;
        fd + d;
      }
      assert (f + 1) as real * d == fd + d;
    } else {
      assert f >= 1 by {
        if f <= 0 { ScaleLess(f as real, 1.0, d); }
      }
      assert f as real == q;
      assert fd == x;
    }
  }

  /** `(a * s) * p` regrouped as the source multiplies it. */
  lemma Regroup(a: real, s: int, p: int)
    ensures a * (s * p) as real == p as real * (a * s as real)
  {
  }

  /** Python's `f"{p}P{s}S"` when `p > 1`, else `f"{s}S"`. */
  function ConfigLabel(parallel: nat, series: nat): (text: string)
    ensures |text| >= 2 && text[|text| - 1] == 'S'
    ensures 'P' in text <==> parallel > 1
  {
    var s := NatToString(series);
    if parallel > 1 then
      var p := NatToString(parallel);
      assert (p + "P" + s + "S")[|p|] == 'P';
      p + "P" + s + "S"
    else
      s + "S"
  }

  /** The label reads back: the digits before 'P' are the parallel count and
      the digits before the final 'S' the series count. */
  lemma ConfigLabelReadsBack(parallel: nat, series: nat)
    ensures var text := ConfigLabel(parallel, series);
      && (parallel > 1 ==>
          exists k :: 0 < k < |text| - 1 && text[k] == 'P'
            && IsDigits(text[..k]) && DigitsValue(text[..k]) == parallel
            && IsDigits(text[k + 1..|text| - 1]) && DigitsValue(text[k + 1..|text| - 1]) == series)
      && (parallel <= 1 ==> IsDigits(text[..|text| - 1]) && DigitsValue(text[..|text| - 1]) == series)
  {
    var s := NatToString(series);
    NatToStringRoundTrip(series);
    var text := ConfigLabel(parallel, series);
    if parallel > 1 {
      var p := NatToString(parallel);
      NatToStringRoundTrip(parallel);
      assert text == p + "P" + s + "S";
      assert text[|p|] == 'P';
      assert text[..|p|] == p && text[|p| + 1..|text| - 1] == s;
    } else {
      assert text[..|text| - 1] == s;
    }
  }

  datatype BatterySpec = BatterySpec(
    totalCapacityKwh: real,
    usableCapacityKwh: real,
    capacityAh: real,
    recommendedAh: real,
    recommendedKwh: Option<real>,
    systemVoltage: int,
    unitVoltage: int,
    series: int,
    parallel: int,
    totalBatteries: int,
    dod: real,
    batteryType: string,
    configuration: string,
    isKwhBased: bool)

  /** A topology the voltage step function can produce. */
  predicate ValidTopology(t: Topology) {
    t.series >= 1 && t.voltage == 12 * t.series
  }

  /** `actual_total_kwh * dod`: the part of the bank's capacity that may be drawn. */
  function UsableKwh(totalKwh: real, dod: real): real {
    totalKwh * dod
  }

  /** The bookkeeping every specification keeps, whichever path produced it. */
  predicate Consistent(r: BatterySpec) {
    && r.series >= 1 && r.parallel >= 1
    && r.totalBatteries == r.series * r.parallel
    && r.usableCapacityKwh == UsableKwh(r.totalCapacityKwh, r.dod)
    && r.configuration == ConfigLabel(r.parallel, r.series)
    && r.systemVoltage == 12 * r.series
  }

  /** kWh of one series string of packs. */
  function StringKwh(packKwh: real, series: int): real {
    packKwh * series as real
  }

  /** kWh of `batteries` packs of `packKwh` each. */
  function PackBankKwh(packKwh: real, batteries: int): real {
    packKwh * batteries as real
  }

  /** Whole strings that cover the total also cover it counted pack by pack. */
  lemma PackBankCovers(packKwh: real, series: int, parallel: int, totalKwh: real)
    requires parallel as real * StringKwh(packKwh, series) >= totalKwh
    ensures PackBankKwh(packKwh, series * parallel) >= totalKwh
  {
    Regroup(packKwh, series, parallel);
  }

  /** Lithium packs rated in kWh (required total at least 2.5 kWh): the smallest
      standard pack holding one series position's share, and enough parallel
      strings to cover the total. The reported capacity counts every pack. */
  function LithiumPackSpec(totalKwh: real, dod: real, batteryType: string, t: Topology): (r: BatterySpec)
    requires totalKwh >= 2.5 && ValidTopology(t)
    ensures Consistent(r)
    ensures r.isKwhBased && r.unitVoltage == r.systemVoltage && r.series == t.series
    ensures r.recommendedKwh.Some? && r.recommendedKwh.value in PackSizesKwh
    ensures r.recommendedKwh.value == PackKwh(totalKwh / t.series as real)
    ensures r.totalCapacityKwh == PackBankKwh(r.recommendedKwh.value, r.totalBatteries)
    ensures r.totalCapacityKwh >= totalKwh
    ensures r.parallel == PackStrings(totalKwh, StringKwh(r.recommendedKwh.value, r.series))
    ensures r.capacityAh == r.recommendedAh == Trunc(r.recommendedKwh.value * 1000.0 / r.systemVoltage as real) as real
  {
    var pack := PackKwh(totalKwh / t.series as real);
    var stringKwh := StringKwh(pack, t.series);
    var parallel := PackStrings(totalKwh, stringKwh);
    var batteries := t.series * parallel;
    PackBankCovers(pack, t.series, parallel, totalKwh);
    var actual := PackBankKwh(pack, batteries);
    var ah := Trunc(pack * 1000.0 / t.voltage as real) as real;
    BatterySpec(actual, UsableKwh(actual, dod), ah, ah, Some(pack), t.voltage, t.voltage, t.series, parallel,
                batteries, dod, batteryType, ConfigLabel(parallel, t.series), true)
  }

  /** `(unit * 12 * parallel) / 1000`: the kWh of `parallel` 12 V units of `unit` Ah. */
  function AhBankKwh(unitAh: real, parallel: int): real {
    unitAh * 12.0 * parallel as real / 1000.0
  }

  /** Enough Ah at 12 V covers the kWh the Ah figure was derived from. */
  lemma AhBankCovers(unitAh: real, parallel: int, needAh: real, totalKwh: real)
    requires needAh == totalKwh * 1000.0 / 12.0
    requires parallel as real * unitAh >= needAh
    ensures AhBankKwh(unitAh, parallel) >= totalKwh
  {
    calc {
      AhBankKwh(unitAh, parallel);
      (parallel as real * unitAh) * 12.0 / 1000.0;
    >=
      needAh * 12.0 / 1000.0;
      totalKwh;
    }
  }

  /** Lithium units rated in Ah (required total below 2.5 kWh): the smallest
      standard size holding the need at 12 V. The reported capacity counts one
      series position only. */
  function LithiumAhSpec(totalKwh: real, dod: real, batteryType: string, t: Topology): (r: BatterySpec)
    requires totalKwh < 2.5 && ValidTopology(t)
    ensures Consistent(r)
    ensures !r.isKwhBased && r.unitVoltage == 12 && r.series == t.series && r.recommendedKwh.None?
    ensures r.recommendedAh in LithiumAhSizes && r.recommendedAh >= r.capacityAh
    ensures r.recommendedAh == LithiumUnitAh(r.capacityAh)
    ensures r.capacityAh * 12.0 == totalKwh * 1000.0
    ensures r.parallel == 1
    ensures r.totalCapacityKwh == AhBankKwh(r.recommendedAh, r.parallel)
    ensures r.totalCapacityKwh >= totalKwh
  {
    var needAh := totalKwh * 1000.0 / 12.0;
    var unitAh := LithiumUnitAh(needAh);
    var parallel := AhStrings(needAh, unitAh);
    AhBankCovers(unitAh, parallel, needAh, totalKwh);
    var actual := AhBankKwh(unitAh, parallel);
    BatterySpec(actual, UsableKwh(actual, dod), needAh, unitAh, None, t.voltage, 12, t.series, parallel,
                t.series * parallel, dod, batteryType, ConfigLabel(parallel, t.series), false)
  }

  /** Lead-Acid and Gel: 12 V units of at most 200 Ah; past 200 Ah, 200 Ah units
      in `int(need / 200) + 1` parallel strings. The reported capacity counts one
      series position only. */
  function LeadAcidSpec(totalKwh: real, dod: real, batteryType: string, t: Topology): (r: BatterySpec)
    requires ValidTopology(t)
    ensures Consistent(r)
    ensures !r.isKwhBased && r.unitVoltage == 12 && r.series == t.series && r.recommendedKwh.None?
    ensures r.recommendedAh in LeadAhSizes
    ensures r.capacityAh * 12.0 == totalKwh * 1000.0
    ensures r.capacityAh > 200.0 ==> r.recommendedAh == 200.0 && r.parallel == Trunc(r.capacityAh / 200.0) + 1
    ensures r.capacityAh <= 200.0 ==> r.parallel == 1 && r.recommendedAh >= r.capacityAh
    ensures r.capacityAh <= 200.0 ==> r.recommendedAh == LeadUnitAh(r.capacityAh)
    ensures r.totalCapacityKwh == AhBankKwh(r.recommendedAh, r.parallel)
    ensures r.totalCapacityKwh >= totalKwh
  {
    var needAh := totalKwh * 1000.0 / 12.0;
    var smallest := LeadUnitAh(needAh);
    var unitAh := if needAh > 200.0 then 200.0 else smallest;
    var parallel := if needAh > 200.0 then
        CoverByTrunc(needAh, 200.0);
        Trunc(needAh / 200.0) + 1
      else AhStrings(needAh, smallest);
    AhBankCovers(unitAh, parallel, needAh, totalKwh);
    var actual := AhBankKwh(unitAh, parallel);
    BatterySpec(actual, UsableKwh(actual, dod), needAh, unitAh, None, t.voltage, 12, t.series, parallel,
                t.series * parallel, dod, batteryType, ConfigLabel(parallel, t.series), false)
  }

  /** `calculate_battery_specs`: the depth of discharge, the voltage step, the
      total capacity `backup / dod`, then the lithium kWh, lithium Ah or
      Lead-Acid/Gel path. A zero depth-of-discharge override divides by zero in
      the source and is excluded. */
  function BatterySpecs(energyKwh: real, batteryType: string, dodOverride: Option<real>, systemKw: Option<real>): (r: BatterySpec)
    requires dodOverride != Some(0.0)
    ensures Consistent(r)
    ensures r.dod == DepthOfDischarge(batteryType, dodOverride) && r.batteryType == batteryType
    ensures r.series == VoltageFor(systemKw).series && r.systemVoltage == VoltageFor(systemKw).voltage
    ensures r.isKwhBased <==> Contains(batteryType, "Lithium") && energyKwh / r.dod >= 2.5
    ensures r.totalCapacityKwh >= energyKwh / r.dod
    ensures r.isKwhBased ==> r.unitVoltage == r.systemVoltage && r.recommendedKwh.Some?
    ensures !r.isKwhBased ==> r.unitVoltage == 12 && r.recommendedKwh.None?
    ensures !r.isKwhBased ==> r.capacityAh * 12.0 == energyKwh / r.dod * 1000.0
    ensures !r.isKwhBased ==> r.totalCapacityKwh == AhBankKwh(r.recommendedAh, r.parallel)
    ensures r.isKwhBased ==> r.totalCapacityKwh == PackBankKwh(r.recommendedKwh.value, r.totalBatteries)
    ensures r.isKwhBased ==>
      && r.recommendedKwh.value == PackKwh(energyKwh / r.dod / r.series as real)
      && r.parallel == PackStrings(energyKwh / r.dod, StringKwh(r.recommendedKwh.value, r.series))
    ensures !r.isKwhBased && Contains(batteryType, "Lithium") ==>
      r.recommendedAh == LithiumUnitAh(r.capacityAh) && r.parallel == 1
    ensures !Contains(batteryType, "Lithium") && r.capacityAh <= 200.0 ==>
      r.recommendedAh == LeadUnitAh(r.capacityAh) && r.parallel == 1
    ensures !Contains(batteryType, "Lithium") && r.capacityAh > 200.0 ==>
      r.recommendedAh == 200.0 && r.parallel == Trunc(r.capacityAh / 200.0) + 1
  {
    var dod := DepthOfDischarge(batteryType, dodOverride);
    var t := VoltageFor(systemKw);
    var totalKwh := energyKwh / dod;
    if Contains(batteryType, "Lithium") then
      if totalKwh >= 2.5 then LithiumPackSpec(totalKwh, dod, batteryType, t)
      else LithiumAhSpec(totalKwh, dod, batteryType, t)
    else
      LeadAcidSpec(totalKwh, dod, batteryType, t)
  }

  /** Every path fits the smallest standard unit that holds what one unit must
      hold: a pack for one series position's share of the total, an Ah unit
      for the need at 12 V (Lead-Acid and Gel up to 200 Ah). */
  lemma SpecsUseSmallestStandardUnit(energyKwh: real, batteryType: string, dodOverride: Option<real>, systemKw: Option<real>)
    requires dodOverride != Some(0.0)
    ensures var r := BatterySpecs(energyKwh, batteryType, dodOverride, systemKw);
      && (r.isKwhBased ==>
          r.recommendedKwh.value == StandardSize(PackSizesKwh, energyKwh / r.dod / r.series as real, 20.48))
      && (!r.isKwhBased && Contains(batteryType, "Lithium") ==>
          r.recommendedAh == StandardSize(LithiumAhSizes, r.capacityAh, 300.0))
      && (!Contains(batteryType, "Lithium") && r.capacityAh <= 200.0 ==>
          r.recommendedAh == StandardSize(LeadAhSizes, r.capacityAh, 200.0))
  {
    var r := BatterySpecs(energyKwh, batteryType, dodOverride, systemKw);
    PackKwhIsSmallest(energyKwh / r.dod / r.series as real);
    LithiumUnitAhIsSmallest(r.capacityAh);
    LeadUnitAhIsSmallest(r.capacityAh);
  }

  /** `a <= b` scales by a non-negative factor. */
  lemma ScaleLessEq(a: real, b: real, c: real)
    requires a <= b && c >= 0.0
    ensures a * c <= b * c
  {
  }

  /** With a positive depth of discharge, the usable part of the bank covers the
      backup energy asked for. */
  lemma UsableCoversBackup(energyKwh: real, batteryType: string, dodOverride: Option<real>, systemKw: Option<real>)
    requires dodOverride != Some(0.0)
    requires DepthOfDischarge(batteryType, dodOverride) > 0.0
    ensures BatterySpecs(energyKwh, batteryType, dodOverride, systemKw).usableCapacityKwh >= energyKwh
  {
    var r := BatterySpecs(energyKwh, batteryType, dodOverride, systemKw);
    UsableCovers(r.totalCapacityKwh, r.dod, energyKwh);
  }

  lemma UsableCovers(totalKwh: real, dod: real, energyKwh: real)
    requires dod > 0.0 && totalKwh >= energyKwh / dod
    ensures UsableKwh(totalKwh, dod) >= energyKwh
  {
    ScaleLessEq(energyKwh / dod, totalKwh, dod);
  }

  /** `s` series positions of a bank whose capacity counts one position. */
  lemma AhBankBySeries(unitAh: real, series: int, parallel: int)
    ensures AhBankKwh(unitAh, series * parallel) == series as real * AhBankKwh(unitAh, parallel)
  {
    assert (series * parallel) as real == series as real * parallel as real;
  }

  /** The Ah-rated paths report the capacity of one series position: the units
      actually fitted hold `series` times the reported kWh (the kWh path, by
      contrast, reports every pack; see `BatterySpecs`). */
  lemma AhPathsOmitSeries(r: BatterySpec)
    requires r.totalBatteries == r.series * r.parallel
    requires r.totalCapacityKwh == AhBankKwh(r.recommendedAh, r.parallel)
    ensures AhBankKwh(r.recommendedAh, r.totalBatteries) == r.series as real * r.totalCapacityKwh
  {
    AhBankBySeries(r.recommendedAh, r.series, r.parallel);
  }

  /** Past 200 Ah the Lead-Acid path counts `int(need / 200) + 1` strings, one
      more than needed when the need is an exact multiple of 200 Ah: 4.8 kWh at
      12 V needs 400 Ah, which two 200 Ah strings cover, yet three are fitted. */
  lemma ExactMultipleOverProvisions()
    ensures var r := LeadAcidSpec(4.8, 0.5, "Lead-Acid", Topology(12, 1));
      && r.capacityAh == 400.0 && r.recommendedAh == 200.0 && r.parallel == 3
      && 2.0 * r.recommendedAh >= r.capacityAh
  {
    var r := LeadAcidSpec(4.8, 0.5, "Lead-Acid", Topology(12, 1));
    assert r.capacityAh == 400.0;
    assert Trunc(400.0 / 200.0) == 2;
  }

  /** Parallel 200 Ah strings by ceiling division: the fewest strings that
      cover the need. */
  function LeadAcidStrings(capacityAh: real): (p: int)
    requires capacityAh > 0.0
    ensures p >= 1 && p as real * 200.0 >= capacityAh
    ensures (p - 1) as real * 200.0 < capacityAh
    ensures p <= Trunc(capacityAh / 200.0) + 1
  {
    CeilingAtMostTruncPlusOne(capacityAh, 200.0);
    PackStrings(capacityAh, 200.0)
  }

  /** The ceiling never exceeds floor plus one. */
  lemma CeilingAtMostTruncPlusOne(x: real, d: real)
    requires x > 0.0 && d > 0.0
    ensures PackStrings(x, d) <= Trunc(x / d) + 1
  {
    var p := PackStrings(x, d);
    var n := Trunc(x / d);
    if p > n + 1 {
      if x <= d {
        ScaleLessEq(1.0, (p - 1) as real, d);
      } else {
        CoverByTrunc(x, d);
        ScaleLessEq((n + 1) as real, (p - 1) as real, d);
      }
    }
  }

  /** With ceiling division, 400 Ah takes two strings. */
  lemma ExactMultipleCorrected()
    ensures LeadAcidStrings(400.0) == 2
  {
  }

  /** On a 2 kW (24 V) system, 1.2 kWh of Lead-Acid backup is two 200 Ah units in
      series (4.8 kWh fitted) reported as 2.4 kWh. */
  lemma AhPathExample()
    ensures var r := BatterySpecs(1.2, "Lead-Acid", None, Some(2.0));
      && r.series == 2 && r.parallel == 1 && r.totalBatteries == 2
      && r.recommendedAh == 200.0 && r.totalCapacityKwh == 2.4
      && AhBankKwh(r.recommendedAh, r.totalBatteries) == 4.8
  {
    LeadAcidExampleDispatch();
    var r := LeadAcidSpec(2.4, 0.5, "Lead-Acid", Topology(24, 2));
    assert LeadUnitAh(2.4 * 1000.0 / 12.0) == 200.0;
    assert r.parallel == 1;
    AhBankBySeries(200.0, 2, 1);
  }

  lemma LeadAcidExampleDispatch()
    ensures BatterySpecs(1.2, "Lead-Acid", None, Some(2.0)) == LeadAcidSpec(2.4, 0.5, "Lead-Acid", Topology(24, 2))
  {
    MissingCharNotContained("Lead-Acid", "Lithium", 'h');
    MissingCharNotContained("Lead-Acid", "Gel", 'G');
    assert DepthOfDischarge("Lead-Acid", None) == 0.5;
    assert VoltageFor(Some(2.0)) == Topology(24, 2);
    assert 1.2 / 0.5 == 2.4;
  }

  /** A string lacking one of `part`'s characters does not contain `part`. */
  lemma {:induction false} MissingCharNotContained(s: string, part: string, c: char)
    requires c in part && c !in s
    ensures !Contains(s, part)
    decreases |s|
  {
    if |s| > 0 {
      MissingCharNotContained(s[1..], part, c);
    }
  }

  // ---------------------------------------------------------------------------
  // Price and lifecycle
  // ---------------------------------------------------------------------------

  datatype CostData = CostData(initialCost: real, costPerKwh: real, cycleLife: int, warrantyYears: int)

  /** `calculate_battery_cost`: lithium prices, cycle life and warranty apply only
      when the type is exactly "Lithium"; every other type is priced as Lead-Acid. */
  function BatteryCost(spec: BatterySpec, batteryType: string): (c: CostData)
    ensures c.initialCost == spec.totalCapacityKwh * c.costPerKwh
    ensures batteryType == "Lithium" ==> c.costPerKwh == 50000.0 && c.cycleLife == 6000 && c.warrantyYears == 10
    ensures batteryType != "Lithium" ==> c.costPerKwh == 20000.0 && c.cycleLife == 1500 && c.warrantyYears == 3
  {
    var (rate, cycles, warranty) := if batteryType == "Lithium" then (50000.0, 6000, 10) else (20000.0, 1500, 3);
    CostData(spec.totalCapacityKwh * rate, rate, cycles, warranty)
  }

  /** A larger bank of the same type never costs less. */
  lemma BatteryCostMonotone(s1: BatterySpec, s2: BatterySpec, batteryType: string)
    requires s1.totalCapacityKwh <= s2.totalCapacityKwh
    ensures BatteryCost(s1, batteryType).initialCost <= BatteryCost(s2, batteryType).initialCost
  {
    var rate := BatteryCost(s1, batteryType).costPerKwh;
    ScaleLessEq(s1.totalCapacityKwh, s2.totalCapacityKwh, rate);
  }

  /** "Lithium (LiFePO4)" is lithium for the depth of discharge (a substring
      test) but Lead-Acid for the price (an exact comparison). */
  lemma LiFePO4PricedAsLeadAcid(energyKwh: real)
    ensures var r := BatterySpecs(energyKwh, "Lithium (LiFePO4)", None, None);
      && r.dod == 0.9
      && BatteryCost(r, "Lithium (LiFePO4)").costPerKwh == 20000.0
      && BatteryCost(r, "Lithium (LiFePO4)").cycleLife == 1500
  {
    assert StartsWith("Lithium (LiFePO4)", "Lithium");
  }

  /** `sum(initial * 0.9 ** i for i in range(1, n + 1))`: each replacement costs
      10% less than the one before. No terms when `n <= 0`. */
  function ReplacementSum(initialCost: real, n: int): (s: real)
    ensures n <= 0 ==> s == 0.0
    decreases n
  {
    if n <= 0 then 0.0 else ReplacementSum(initialCost, n - 1) + initialCost * Pow(0.9, n)
  }

  /** The geometric series in closed form: `9 * initial * (1 - 0.9^n)`. */
  lemma {:induction false} ReplacementSumClosedForm(initialCost: real, n: nat)
    ensures ReplacementSum(initialCost, n) == 9.0 * initialCost * (1.0 - Pow(0.9, n))
    decreases n
  {
    if n > 0 {
      ReplacementSumClosedForm(initialCost, n - 1);
      var p := Pow(0.9, n - 1);
      var ap := initialCost * p;
      assert initialCost * Pow(0.9, n) == 0.9 * ap;
      assert 9.0 * initialCost * (1.0 - p) == 9.0 * initialCost - 9.0 * ap;
      assert 9.0 * initialCost * (1.0 - Pow(0.9, n)) == 9.0 * initialCost - 8.1 * ap;
    }
  }

  /** However many replacements, together they cost less than nine first purchases. */
  lemma ReplacementSumBounds(initialCost: real, n: nat)
    requires initialCost >= 0.0
    ensures 0.0 <= ReplacementSum(initialCost, n) <= 9.0 * initialCost
  {
    ReplacementSumClosedForm(initialCost, n);
    var p := Pow(0.9, n);
    assert 0.0 < p <= 1.0;
    ScaleLessEq(0.0, 1.0 - p, 9.0 * initialCost);
    ScaleLessEq(1.0 - p, 1.0, 9.0 * initialCost);
  }

  datatype Lifecycle = Lifecycle(
    initialCost: real,
    replacementsNeeded: int,
    replacementCost: real,
    maintenanceCost: real,
    totalLifecycleCost: real,
    levelizedCostPerKwh: real,
    costPerYear: real)

  /** Annual maintenance as a share of the purchase: 0.5% when the
      specification's type is exactly "Lithium", 2% otherwise. */
  function MaintenanceRate(batteryType: string): (rate: real)
    ensures rate == 0.005 <==> batteryType == "Lithium"
    ensures rate == 0.005 || rate == 0.02
  {
    if batteryType == "Lithium" then 0.005 else 0.02
  }

  /** `usable_capacity * total_cycles`: the kWh drawn over the period. */
  function KwhCycled(usableKwh: real, totalCycles: real): real {
    usableKwh * totalCycles
  }

  /** `daily_cycles * 365 * years`. */
  function TotalCycles(dailyCycles: real, years: int): real {
    dailyCycles * 365.0 * years as real
  }

  /** `calculate_lifecycle_cost`: purchases and replacements over the period
      (`int(total_cycles / cycle_life)` replacements), maintenance, and the
      cost spread per year and per kWh cycled. A zero cycle life or period
      divides by zero in the source and is excluded. */
  function LifecycleCost(cost: CostData, spec: BatterySpec, dailyCycles: real, years: int): (r: Lifecycle)
    requires cost.cycleLife != 0 && years != 0
    ensures r.initialCost == cost.initialCost
    ensures r.replacementsNeeded == Trunc(TotalCycles(dailyCycles, years) / cost.cycleLife as real)
    ensures r.replacementCost == ReplacementSum(cost.initialCost, r.replacementsNeeded)
    ensures r.maintenanceCost == cost.initialCost * MaintenanceRate(spec.batteryType) * years as real
    ensures r.totalLifecycleCost == r.initialCost + r.replacementCost + r.maintenanceCost
    ensures r.costPerYear * years as real == r.totalLifecycleCost
    ensures KwhCycled(spec.usableCapacityKwh, TotalCycles(dailyCycles, years)) > 0.0 ==>
      r.levelizedCostPerKwh * KwhCycled(spec.usableCapacityKwh, TotalCycles(dailyCycles, years)) == r.totalLifecycleCost
    ensures KwhCycled(spec.usableCapacityKwh, TotalCycles(dailyCycles, years)) <= 0.0 ==> r.levelizedCostPerKwh == 0.0
  {
    var totalCycles := TotalCycles(dailyCycles, years);
    var replacements := Trunc(totalCycles / cost.cycleLife as real);
    var replacementCost := ReplacementSum(cost.initialCost, replacements);
    var maintenance := cost.initialCost * MaintenanceRate(spec.batteryType) * years as real;
    var total := cost.initialCost + replacementCost + maintenance;
    var kwhCycled := KwhCycled(spec.usableCapacityKwh, totalCycles);
    var levelized := if kwhCycled > 0.0 then total / kwhCycled else 0.0;
    Lifecycle(cost.initialCost, replacements, replacementCost, maintenance, total, levelized, total / years as real)
  }

  /** The replacement count is the number of whole cycle lives the period uses up. */
  lemma ReplacementsAreWholeCycleLives(cycles: real, cycleLife: int)
    requires cycles >= 0.0 && cycleLife > 0
    ensures var n := Trunc(cycles / cycleLife as real);
      n >= 0 && n as real * cycleLife as real <= cycles < (n + 1) as real * cycleLife as real
  {
    var q := cycles / cycleLife as real;
    var n := Trunc(q);
    var life := cycleLife as real;
    assert q * life == cycles;
    ScaleLessEq(n as real, q, life);
    ScaleLess(q, (n + 1) as real, life);
    calc {
      cycles;
      q * life;
    <
      (n + 1) as real * life;
    }
  }

  /** With a non-negative purchase price and a positive period, the lifecycle
      cost is at least the purchase and at most ten purchases plus maintenance. */
  lemma LifecycleBounds(cost: CostData, spec: BatterySpec, dailyCycles: real, years: int)
    requires cost.cycleLife != 0 && years > 0 && cost.initialCost >= 0.0
    ensures var r := LifecycleCost(cost, spec, dailyCycles, years);
      cost.initialCost <= r.totalLifecycleCost <= 10.0 * cost.initialCost + r.maintenanceCost
      && r.maintenanceCost >= 0.0
  {
    var r := LifecycleCost(cost, spec, dailyCycles, years);
    if r.replacementsNeeded >= 0 {
      ReplacementSumBounds(cost.initialCost, r.replacementsNeeded);
    }
    var m := cost.initialCost * MaintenanceRate(spec.batteryType);
    ScaleLessEq(0.0, cost.initialCost, MaintenanceRate(spec.batteryType));
    ScaleLessEq(0.0, m, years as real);
  }

  /** Lithium's cycle life never needs more replacements than Lead-Acid's for
      the same use. */
  lemma LithiumNeedsFewerReplacements(cycles: real)
    requires cycles >= 0.0
    ensures Trunc(cycles / 6000.0) <= Trunc(cycles / 1500.0)
  {
  }

  // ---------------------------------------------------------------------------
  // Comparing chemistries
  // ---------------------------------------------------------------------------

  datatype TypeReport = TypeReport(specs: BatterySpec, costs: CostData, lifecycle: Lifecycle)

  datatype Comparison = Comparison(reports: map<string, TypeReport>, savingsWithLithium: real, roiBetter: string)

  /** Specifications, price and lifecycle of one chemistry at the default depth
      of discharge and the 12 V topology. */
  function Report(energyKwh: real, batteryType: string, dailyCycles: real, years: int): (t: TypeReport)
    requires years != 0
    ensures t.specs == BatterySpecs(energyKwh, batteryType, None, None)
    ensures t.costs == BatteryCost(t.specs, batteryType)
    ensures t.lifecycle == LifecycleCost(t.costs, t.specs, dailyCycles, years)
    ensures t.specs.batteryType == batteryType && t.lifecycle.initialCost == t.costs.initialCost
  {
    var specs := BatterySpecs(energyKwh, batteryType, None, None);
    var costs := BatteryCost(specs, batteryType);
    TypeReport(specs, costs, LifecycleCost(costs, specs, dailyCycles, years))
  }

  /** The loop of `compare_battery_types`: one report per listed chemistry,
      filled into the dictionary in order. */
  method ReportAll(types: seq<string>, energyKwh: real, dailyCycles: real, years: int)
    returns (reports: map<string, TypeReport>)
    requires years != 0
    ensures reports.Keys == set j | 0 <= j < |types| :: types[j]
    ensures forall k :: k in reports ==> reports[k] == Report(energyKwh, k, dailyCycles, years)
  {
    reports := map[];
    for i := 0 to |types|
      invariant reports.Keys == set j | 0 <= j < i :: types[j]
      invariant forall k :: k in reports ==> reports[k] == Report(energyKwh, k, dailyCycles, years)
    {
      reports := reports[types[i] := Report(energyKwh, types[i], dailyCycles, years)];
    }
  }

  /** `compare_battery_types`: one report per chemistry, the lifecycle saving of
      Lithium over Lead-Acid, and the chemistry with the lower lifecycle cost
      (Lead-Acid on a tie). */
  method CompareBatteryTypes(energyKwh: real, dailyCycles: real, years: int) returns (c: Comparison)
    requires years != 0
    ensures c.reports.Keys == {"Lithium", "Lead-Acid"}
    ensures forall k :: k in c.reports ==> c.reports[k] == Report(energyKwh, k, dailyCycles, years)
    ensures c.savingsWithLithium ==
      c.reports["Lead-Acid"].lifecycle.totalLifecycleCost - c.reports["Lithium"].lifecycle.totalLifecycleCost
    ensures c.roiBetter == "Lithium" || c.roiBetter == "Lead-Acid"
    ensures c.roiBetter == "Lithium" <==> c.savingsWithLithium > 0.0
  {
    var types := ["Lithium", "Lead-Acid"];
    var reports := ReportAll(types, energyKwh, dailyCycles, years);
    assert types[0] in reports && types[1] in reports;
    assert reports.Keys == {"Lithium", "Lead-Acid"};
    var lithiumTotal := reports["Lithium"].lifecycle.totalLifecycleCost;
    var leadAcidTotal := reports["Lead-Acid"].lifecycle.totalLifecycleCost;
    var better := if lithiumTotal < leadAcidTotal then "Lithium" else "Lead-Acid";
    c := Comparison(reports, leadAcidTotal - lithiumTotal, better);
  }
}
