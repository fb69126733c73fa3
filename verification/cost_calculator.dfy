/** Tiered tariff billing and the itemised upfront cost of a solar system
    (utils/cost_calculator.py). */
module CostCalculator {
  import opened Common

  // ---------------------------------------------------------------------------
  // Tariff billing
  // ---------------------------------------------------------------------------

  /** One domestic tariff band: `{name, range_kwh: [min, max], base_rate_ksh_per_kwh}`. */
  datatype Tier = Tier(name: string, minKwh: real, maxKwh: real, rate: real)

  /** The parsed tariff record. A missing `tariffs.domestic` list reads as `[]`,
      a missing pass-through charge or VAT rate as `None`. Absent or empty
      tariff data (Python-falsy) is `None` at the call site. */
  datatype TariffData = TariffData(domestic: seq<Tier>, passThrough: Option<real>, vatRate: Option<real>)

  /** The loop state of the tier walk: running base cost, consumption not yet
      billed, and the current category label. */
  datatype Walk = Walk(baseCost: real, remaining: real, category: string)

  /** `(total_monthly_cost, effective_rate, tariff_category)`. */
  datatype TariffResult = TariffResult(totalCost: real, effectiveRate: real, category: string)

  const DefaultPassThrough: real := 5.5
  const DefaultVatRate: real := 0.16

  /** kWh billed in tier `t` when `remaining` of `consumption` is still unbilled:
      Lifeline, Ordinary 1 and Ordinary 2 have their own rules, any other
      name bills at most the width `max - min + 1` of its band. */
  function TierQuantity(t: Tier, consumption: real, remaining: real): (q: real)
    ensures t.name == "Lifeline" ==> q <= consumption && q <= t.maxKwh && (q == consumption || q == t.maxKwh)
    ensures t.name == "Ordinary 1" ==> q <= remaining && q <= t.maxKwh - 30.0 && (q == remaining || q == t.maxKwh - 30.0)
    ensures t.name == "Ordinary 2" ==> q == remaining
    ensures t.name !in {"Lifeline", "Ordinary 1", "Ordinary 2"} ==>
      q <= remaining && q <= t.maxKwh - t.minKwh + 1.0 && (q == remaining || q == t.maxKwh - t.minKwh + 1.0)
  {
    if t.name == "Lifeline" then Min(consumption, t.maxKwh)
    else if t.name == "Ordinary 1" then Min(remaining, t.maxKwh - 30.0)
    else if t.name == "Ordinary 2" then remaining
    else Min(remaining, t.maxKwh - t.minKwh + 1.0)
  }

  /** A tier bills when consumption reaches its lower bound and something is
      still unbilled. */
  predicate Bills(t: Tier, consumption: real, w: Walk) {
    consumption >= t.minKwh && w.remaining > 0.0
  }

  function BillTier(t: Tier, consumption: real, w: Walk): Walk {
    var q := TierQuantity(t, consumption, w.remaining);
    Walk(w.baseCost + q * t.rate, w.remaining - q, t.name)
  }

  /** The tier walk: tiers in order, stopping as soon as nothing remains
      unbilled; once nothing is left, the remaining tiers change nothing. */
  function WalkTiers(tiers: seq<Tier>, consumption: real, w: Walk): (r: Walk)
    ensures w.remaining <= 0.0 ==> r == w
    decreases |tiers|
  {
    if tiers == [] then w
    else if Bills(tiers[0], consumption, w) then
      var next := BillTier(tiers[0], consumption, w);
      if next.remaining <= 0.0 then next else WalkTiers(tiers[1..], consumption, next)
    else WalkTiers(tiers[1..], consumption, w)
  }

  function StartWalk(consumption: real): Walk {
    Walk(0.0, consumption, "Unknown")
  }

  /** The bill: missing data bills nothing under "N/A"; otherwise the walk's
      base cost plus the pass-through charge (5.5 KSh/kWh unless given),
      grossed up by VAT (16% unless given), and an effective rate that
      recovers the total from the consumption. */
  function Bill(consumption: real, tariff: Option<TariffData>): (r: TariffResult)
    ensures tariff.None? ==> r == TariffResult(0.0, 0.0, "N/A")
    ensures tariff.Some? ==>
      var w := WalkTiers(tariff.value.domestic, consumption, StartWalk(consumption));
      var pass := tariff.value.passThrough.GetOr(DefaultPassThrough);
      var vat := tariff.value.vatRate.GetOr(DefaultVatRate);
      && r.category == w.category
      && r.totalCost == (w.baseCost + consumption * pass) * (1.0 + vat)
      && (consumption > 0.0 ==> r.effectiveRate * consumption == r.totalCost)
      && (consumption <= 0.0 ==> r.effectiveRate == 0.0)
  {
    match tariff
    case None => TariffResult(0.0, 0.0, "N/A")
    case Some(data) =>
      var w := WalkTiers(data.domestic, consumption, StartWalk(consumption));
      var subtotal := w.baseCost + consumption * data.passThrough.GetOr(DefaultPassThrough);
      var total := subtotal + subtotal * data.vatRate.GetOr(DefaultVatRate);
      TariffResult(total, if consumption > 0.0 then total / consumption else 0.0, w.category)
  }

  /** `calculate_tariff_cost`: missing data short-circuits to "N/A"; otherwise
      the tier walk, then pass-through charge and VAT. */
  method TariffCost(consumption: real, tariff: Option<TariffData>) returns (r: TariffResult)
    ensures r == Bill(consumption, tariff)
  {
    if tariff.None? {
      return TariffResult(0.0, 0.0, "N/A");
    }
    var passThrough := tariff.value.passThrough.GetOr(DefaultPassThrough);
    var vatRate := tariff.value.vatRate.GetOr(DefaultVatRate);

    var w := WalkTariffTiers(tariff.value.domestic, consumption);

    var passThroughCost := consumption * passThrough;
    var subtotal := w.baseCost + passThroughCost;
    var vat := subtotal * vatRate;
    var total := subtotal + vat;
    var effectiveRate := if consumption > 0.0 then total / consumption else 0.0;
    r := TariffResult(total, effectiveRate, w.category);
  }

  /** The `for tier in tariffs` loop of `calculate_tariff_cost`: it keeps the
      running base cost, the unbilled consumption and the category label, and
      leaves the loop as soon as nothing remains unbilled. */
  method WalkTariffTiers(tiers: seq<Tier>, consumption: real) returns (w: Walk)
    ensures w == WalkTiers(tiers, consumption, StartWalk(consumption))
  {
    var totalBase := 0.0;
    var remaining := consumption;
    var category := "Unknown";
    ghost var goal := WalkTiers(tiers, consumption, StartWalk(consumption));

    var i := 0;
    while i < |tiers|
      invariant 0 <= i <= |tiers|
      invariant WalkTiers(tiers[i..], consumption, Walk(totalBase, remaining, category)) == goal
    {
      var tier := tiers[i];
      ghost var before := Walk(totalBase, remaining, category);
      WalkStep(tiers, i, consumption, before);
      if consumption >= tier.minKwh {
        if remaining > 0.0 {
          var inTier := Min(remaining, tier.maxKwh - tier.minKwh + 1.0);
          if tier.name == "Lifeline" {
            inTier := Min(consumption, tier.maxKwh);
          } else if tier.name == "Ordinary 1" {
            inTier := Min(remaining, tier.maxKwh - 30.0);
          } else if tier.name == "Ordinary 2" {
            inTier := remaining;
          }
          assert inTier == TierQuantity(tier, consumption, remaining);
          assert BillTier(tier, consumption, before) == Walk(totalBase + inTier * tier.rate, remaining - inTier, tier.name);
          totalBase := totalBase + inTier * tier.rate;
          remaining := remaining - inTier;
          category := tier.name;
          if remaining <= 0.0 {
            break;
          }
        }
      }
      i := i + 1;
    }
    w := Walk(totalBase, remaining, category);
  }

  /** One step of the walk, seen from position `i` of the tier list. */
  lemma WalkStep(tiers: seq<Tier>, i: nat, consumption: real, w: Walk)
    requires i < |tiers|
    ensures WalkTiers(tiers[i..], consumption, w) ==
      if Bills(tiers[i], consumption, w) then
        var next := BillTier(tiers[i], consumption, w);
        if next.remaining <= 0.0 then next else WalkTiers(tiers[i + 1..], consumption, next)
      else WalkTiers(tiers[i + 1..], consumption, w)
  {
    assert tiers[i..][0] == tiers[i] && tiers[i..][1..] == tiers[i + 1..];
  }

  /** Zero consumption bills nothing and keeps the "Unknown" category. */
  lemma ZeroConsumptionBill(data: TariffData)
    ensures Bill(0.0, Some(data)) ==
      TariffResult(0.0, 0.0, "Unknown")
  {
  }

  /** A tier on its own: billed when it bills, passed over otherwise. */
  function Step(t: Tier, consumption: real, w: Walk): Walk {
    if Bills(t, consumption, w) then BillTier(t, consumption, w) else w
  }

  /** The walk one tier longer is one more step: a walk that stopped early has
      nothing left, so no later tier bills. */
  lemma {:induction false} WalkSnoc(tiers: seq<Tier>, t: Tier, consumption: real, w: Walk)
    ensures WalkTiers(tiers + [t], consumption, w) == Step(t, consumption, WalkTiers(tiers, consumption, w))
    decreases |tiers|
  {
    if tiers == [] {
      assert [] + [t] == [t];
      assert [t][1..] == [];
    } else {
      assert (tiers + [t])[0] == tiers[0];
      assert (tiers + [t])[1..] == tiers[1..] + [t];
      if Bills(tiers[0], consumption, w) {
        var next := BillTier(tiers[0], consumption, w);
        if next.remaining > 0.0 {
          WalkSnoc(tiers[1..], t, consumption, next);
        }
      } else {
        WalkSnoc(tiers[1..], t, consumption, w);
      }
    }
  }

  /** Tier `i` bills when the walk reaches it. */
  predicate BillsAt(tiers: seq<Tier>, consumption: real, w: Walk, i: nat)
    requires i < |tiers|
  {
    Bills(tiers[i], consumption, WalkTiers(tiers[..i], consumption, w))
  }

  /** When no tier bills, the walk leaves its start unchanged; otherwise its
      category is the name of the last tier that billed. */
  lemma {:induction false} CategoryIsLastBillingTier(tiers: seq<Tier>, consumption: real, w: Walk)
    ensures (forall i :: 0 <= i < |tiers| ==> !BillsAt(tiers, consumption, w, i)) ==>
      WalkTiers(tiers, consumption, w) == w
    ensures (exists i :: 0 <= i < |tiers| && BillsAt(tiers, consumption, w, i)) ==>
      exists i :: 0 <= i < |tiers| && BillsAt(tiers, consumption, w, i)
        && WalkTiers(tiers, consumption, w).category == tiers[i].name
        && forall j :: i < j < |tiers| ==> !BillsAt(tiers, consumption, w, j)
    decreases |tiers|
  {
    if tiers != [] {
      var n := |tiers| - 1;
      var front := tiers[..n];
      assert tiers == front + [tiers[n]];
      WalkSnoc(front, tiers[n], consumption, w);
      CategoryIsLastBillingTier(front, consumption, w);
      forall i | 0 <= i < n
        ensures BillsAt(tiers, consumption, w, i) <==> BillsAt(front, consumption, w, i)
      {
        assert tiers[..i] == front[..i];
      }
      if !BillsAt(tiers, consumption, w, n) {
        if exists i :: 0 <= i < |tiers| && BillsAt(tiers, consumption, w, i) {
          var k :| 0 <= k < |tiers| && BillsAt(tiers, consumption, w, k);
          assert BillsAt(front, consumption, w, k);
        }
      }
    }
  }

  /** A bill stays in the "Unknown" category when no tier bills; otherwise its
      category is the name of the last tier that billed. */
  lemma BillCategory(consumption: real, data: TariffData)
    ensures var c := Bill(consumption, Some(data)).category;
      var start := StartWalk(consumption);
      && ((forall i :: 0 <= i < |data.domestic| ==> !BillsAt(data.domestic, consumption, start, i)) ==> c == "Unknown")
      && ((exists i :: 0 <= i < |data.domestic| && BillsAt(data.domestic, consumption, start, i)) ==>
          exists i :: 0 <= i < |data.domestic| && BillsAt(data.domestic, consumption, start, i)
            && c == data.domestic[i].name
            && forall j :: i < j < |data.domestic| ==> !BillsAt(data.domestic, consumption, start, j))
  {
    CategoryIsLastBillingTier(data.domestic, consumption, StartWalk(consumption));
  }

  /** A tier whose lower bound lies above the consumption can be removed from
      the table without changing the walk. */
  lemma {:induction false} UnreachedTierIsInert(before: seq<Tier>, t: Tier, after: seq<Tier>, consumption: real, w: Walk)
    requires t.minKwh > consumption
    ensures WalkTiers(before + [t] + after, consumption, w) == WalkTiers(before + after, consumption, w)
    decreases |before|
  {
    if before == [] {
      assert before + [t] + after == [t] + after;
      assert ([t] + after)[1..] == after;
      assert before + after == after;
    } else {
      assert (before + [t] + after)[0] == before[0];
      assert (before + [t] + after)[1..] == before[1..] + [t] + after;
      assert (before + after)[0] == before[0];
      assert (before + after)[1..] == before[1..] + after;
      if Bills(before[0], consumption, w) {
        var next := BillTier(before[0], consumption, w);
        if next.remaining > 0.0 {
          UnreachedTierIsInert(before[1..], t, after, consumption, next);
        }
      } else {
        UnreachedTierIsInert(before[1..], t, after, consumption, w);
      }
    }
  }

  // ---------------------------------------------------------------------------
  // The standard domestic table: Lifeline [0,30], Ordinary 1 [31,100], Ordinary 2 [101, top]
  // ---------------------------------------------------------------------------

  function StandardTable(lifeline: real, ordinary1: real, ordinary2: real, top: real): seq<Tier> {
    [Tier("Lifeline", 0.0, 30.0, lifeline),
     Tier("Ordinary 1", 31.0, 100.0, ordinary1),
     Tier("Ordinary 2", 101.0, top, ordinary2)]
  }

  /** kWh of `c` that the standard table leaves unbilled: the fraction inside
      the gaps (30, 31) and (100, 101) between the integer band bounds. */
  function StandardUnbilled(c: real): real {
    if 30.0 < c < 31.0 then c - 30.0
    else if 100.0 < c < 101.0 then c - 100.0
    else 0.0
  }

  /** The walk over the standard table, band by band: Lifeline bills `min(c, 30)`,
      Ordinary 1 bills `min(c - 30, 70)` from 31 kWh, Ordinary 2 the rest from
      101 kWh; what stays unbilled is exactly the gap fraction. */
  lemma StandardTableWalk(c: real, r1: real, r2: real, r3: real, top: real)
    requires c >= 0.0
    ensures var w := WalkTiers(StandardTable(r1, r2, r3, top), c, StartWalk(c));
      && w.baseCost == Min(c, 30.0) * r1
                       + (if c >= 31.0 then Min(c - 30.0, 70.0) else 0.0) * r2
                       + (if c >= 101.0 then c - 100.0 else 0.0) * r3
      && w.remaining == StandardUnbilled(c)
      && w.category == (if c == 0.0 then "Unknown"
                        else if c < 31.0 then "Lifeline"
                        else if c < 101.0 then "Ordinary 1"
                        else "Ordinary 2")
  {
    var ts := StandardTable(r1, r2, r3, top);
    var w0 := StartWalk(c);
    if c != 0.0 {
      var w1 := BillTier(ts[0], c, w0);
      assert w1 == Walk(Min(c, 30.0) * r1, c - Min(c, 30.0), "Lifeline");
      if c <= 30.0 {
        assert WalkTiers(ts, c, w0) == w1;
      } else {
        assert WalkTiers(ts, c, w0) == WalkTiers(ts[1..], c, w1);
        if c < 31.0 {
          assert WalkTiers(ts[1..], c, w1) == WalkTiers(ts[2..], c, w1);
          assert WalkTiers(ts[2..], c, w1) == WalkTiers(ts[3..], c, w1);
        } else {
          var w2 := BillTier(ts[1], c, w1);
          assert w2 == Walk(30.0 * r1 + Min(c - 30.0, 70.0) * r2, c - 30.0 - Min(c - 30.0, 70.0), "Ordinary 1");
          if c <= 100.0 {
            assert WalkTiers(ts[1..], c, w1) == w2;
          } else {
            assert WalkTiers(ts[1..], c, w1) == WalkTiers(ts[2..], c, w2);
            if c < 101.0 {
              assert WalkTiers(ts[2..], c, w2) == WalkTiers(ts[3..], c, w2);
            } else {
              assert WalkTiers(ts[2..], c, w2) == BillTier(ts[2], c, w2);
            }
          }
        }
      }
    }
  }

  /** For whole-kWh consumption the billed band quantities add up to the consumption. */
  lemma StandardTableBillsWholeKwh(n: nat, r1: real, r2: real, r3: real, top: real)
    ensures WalkTiers(StandardTable(r1, r2, r3, top), n as real, StartWalk(n as real)).remaining == 0.0
  {
    StandardTableWalk(n as real, r1, r2, r3, top);
  }

  /** The categories the source's own examples expect: 25 kWh is Lifeline,
      80 kWh Ordinary 1, 150 kWh Ordinary 2. */
  lemma StandardTableExamples(r1: real, r2: real, r3: real, top: real, pass: Option<real>, vat: Option<real>)
    ensures Bill(25.0, Some(TariffData(StandardTable(r1, r2, r3, top), pass, vat))).category == "Lifeline"
    ensures Bill(80.0, Some(TariffData(StandardTable(r1, r2, r3, top), pass, vat))).category == "Ordinary 1"
    ensures Bill(150.0, Some(TariffData(StandardTable(r1, r2, r3, top), pass, vat))).category == "Ordinary 2"
  {
    StandardTableWalk(25.0, r1, r2, r3, top);
    StandardTableWalk(80.0, r1, r2, r3, top);
    StandardTableWalk(150.0, r1, r2, r3, top);
  }

  // ---------------------------------------------------------------------------
  // System cost
  // ---------------------------------------------------------------------------

  /** An inverter catalogue entry; either key may be missing. */
  datatype Inverter = Inverter(capacityKw: Option<real>, priceKsh: Option<real>)

  /** The equipment catalogue; a missing `inverters` list reads as `[]`. */
  datatype Catalog = Catalog(inverters: seq<Inverter>)

  datatype CostBreakdown = CostBreakdown(
    panelCount: int,
    panelWattage: int,
    panelCost: real,
    inverterCapacityKw: real,
    inverterCost: real,
    vat: real,
    mounting: real,
    safety: real,
    installation: real,
    bos: real,
    total: real,
    actualSystemKw: real)

  /** `(total_cost, cost_per_watt, breakdown)`; the empty breakdown `{}` is `None`. */
  datatype SystemCost = SystemCost(total: real, costPerWatt: real, breakdown: Option<CostBreakdown>)

  const PanelWattage: int := 450
  const PanelRatePerWatt: real := 35.0
  const EquipmentVatRate: real := 0.16
  const MountingPerPanel: real := 3000.0
  const SafetyCost: real := 3500.0 + 6000.0 + 4500.0
  const LabourBase: real := 5000.0
  const LabourPerKw: real := 2000.0
  const BosRate: real := 0.08
  const FallbackInverterPerKw: real := 25000.0

  /** Whole 450 W panels for `kw`: the fewest that reach the requested watts, at least one. */
  function PanelCount(kw: real): (n: int)
    ensures n >= 1
    ensures (n * PanelWattage) as real >= kw * 1000.0
    ensures n == 1 || ((n - 1) * PanelWattage) as real < kw * 1000.0
  {
    var c := Ceil(kw * 1000.0 / PanelWattage as real);
    if c > 1 then c else 1
  }

  /** `inv.get("capacity_kw", 0) >= kw`: the filter of suitable inverters. */
  predicate Suits(inv: Inverter, kw: real) {
    inv.capacityKw.GetOr(0.0) >= kw
  }

  /** `inv.get("capacity_kw", 999)`: the key the smallest suitable inverter is chosen by. */
  function SizeKey(inv: Inverter): real {
    inv.capacityKw.GetOr(999.0)
  }

  /** Index of Python's `min(suitable, key=SizeKey)`: the first suitable entry
      of least key, or `None` when nothing suits. */
  function SmallestSuitable(invs: seq<Inverter>, kw: real): (r: Option<nat>)
    ensures r.None? <==> forall j :: 0 <= j < |invs| ==> !Suits(invs[j], kw)
    ensures r.Some? ==>
      && r.value < |invs|
      && Suits(invs[r.value], kw)
      && (forall j :: 0 <= j < |invs| && Suits(invs[j], kw) ==> SizeKey(invs[r.value]) <= SizeKey(invs[j]))
      && (forall j :: 0 <= j < r.value && Suits(invs[j], kw) ==> SizeKey(invs[j]) > SizeKey(invs[r.value]))
    decreases |invs|
  {
    if invs == [] then None
    else
      var rest := SmallestSuitable(invs[1..], kw);
      if Suits(invs[0], kw) && (rest.None? || SizeKey(invs[0]) <= SizeKey(invs[1..][rest.value])) then Some(0)
      else if rest.Some? then Some(rest.value + 1)
      else None
  }

  /** Inverter size when nothing in the catalogue suits: the 1.5 / 3 / 5 kW steps,
      then whole kW. */
  function FallbackInverterCapacity(kw: real): (c: real)
    ensures c >= kw
    ensures kw <= 1.5 ==> c == 1.5
    ensures 1.5 < kw <= 3.0 ==> c == 3.0
    ensures 3.0 < kw <= 5.0 ==> c == 5.0
    ensures kw > 5.0 ==> c == Ceil(kw) as real && c < kw + 1.0
  {
    if kw <= 1.5 then 1.5
    else if kw <= 3.0 then 3.0
    else if kw <= 5.0 then 5.0
    else Ceil(kw) as real
  }

  datatype InverterChoice = InverterChoice(cost: real, capacityKw: real)

  /** The inverter priced for `kw`: the smallest suitable catalogue entry, the
      first of them on a tie (missing price: 25,000 KSh per kW; missing capacity: `kw`), else the
      per-kW fallback price with a stepped capacity. */
  function ChooseInverter(invs: seq<Inverter>, kw: real): (c: InverterChoice)
    ensures c.capacityKw >= kw
    ensures (forall j :: 0 <= j < |invs| ==> !Suits(invs[j], kw)) ==>
      c == InverterChoice(kw * FallbackInverterPerKw, FallbackInverterCapacity(kw))
    ensures (exists j :: 0 <= j < |invs| && Suits(invs[j], kw)) ==>
      exists j :: 0 <= j < |invs| && Suits(invs[j], kw)
        && (forall k :: 0 <= k < |invs| && Suits(invs[k], kw) ==> SizeKey(invs[j]) <= SizeKey(invs[k]))
        && (forall k :: 0 <= k < j && Suits(invs[k], kw) ==> SizeKey(invs[k]) > SizeKey(invs[j]))
        && c == InverterChoice(invs[j].priceKsh.GetOr(kw * FallbackInverterPerKw), invs[j].capacityKw.GetOr(kw))
  {
    match SmallestSuitable(invs, kw)
    case Some(i) =>
      InverterChoice(invs[i].priceKsh.GetOr(kw * FallbackInverterPerKw), invs[i].capacityKw.GetOr(kw))
    case None =>
      InverterChoice(kw * FallbackInverterPerKw, FallbackInverterCapacity(kw))
  }

  /** The invariants every produced breakdown keeps. */
  ghost predicate ValidBreakdown(b: CostBreakdown) {
    && b.panelCount >= 1
    && b.panelWattage == PanelWattage
    && b.actualSystemKw == (b.panelCount * b.panelWattage) as real / 1000.0
    && b.panelCost == (b.panelCount * b.panelWattage) as real * PanelRatePerWatt
    && b.vat == (b.panelCost + b.inverterCost) * EquipmentVatRate
    && b.mounting == b.panelCount as real * MountingPerPanel
    && b.safety == SafetyCost
    && b.installation == LabourBase + b.actualSystemKw * LabourPerKw
    && b.bos == (b.panelCost + b.inverterCost) * BosRate
    && b.total == b.panelCost + b.inverterCost + b.vat + b.mounting + b.installation + b.bos + b.safety
  }

  /** `calculate_system_cost`. */
  function SystemCostOf(kw: real, catalog: Option<Catalog>, haveAssumptions: bool): (r: SystemCost)
    ensures (catalog.None? || !haveAssumptions) ==> r == SystemCost(0.0, 0.0, None)
    ensures catalog.Some? && haveAssumptions ==>
      && r.breakdown.Some?
      && ValidBreakdown(r.breakdown.value)
      && r.total == r.breakdown.value.total
      && r.breakdown.value.actualSystemKw >= kw
      && r.breakdown.value.inverterCapacityKw >= kw
      && r.breakdown.value.panelCount == PanelCount(kw)
      && r.breakdown.value == Itemise(PanelCount(kw), ChooseInverter(catalog.value.inverters, kw))
      && r.costPerWatt == r.total / (PanelCount(kw) * PanelWattage) as real
  {
    if catalog.None? || !haveAssumptions then SystemCost(0.0, 0.0, None)
    else
      var b := Itemise(PanelCount(kw), ChooseInverter(catalog.value.inverters, kw));
      var watts := (b.panelCount * PanelWattage) as real;
      SystemCost(b.total, if watts > 0.0 then b.total / watts else 0.0, Some(b))
  }

  /** The seven cost items for a panel count and a chosen inverter. */
  function Itemise(count: int, inverter: InverterChoice): (b: CostBreakdown)
    requires count >= 1
    ensures ValidBreakdown(b)
    ensures b.panelCount == count && b.inverterCost == inverter.cost && b.inverterCapacityKw == inverter.capacityKw
  {
    var watts := (count * PanelWattage) as real;
    var panelCost := watts * PanelRatePerWatt;
    var equipment := panelCost + inverter.cost;
    var vat := equipment * EquipmentVatRate;
    var mounting := count as real * MountingPerPanel;
    var actualKw := watts / 1000.0;
    var labour := LabourBase + actualKw * LabourPerKw;
    var bos := equipment * BosRate;
    var total := equipment + vat + mounting + labour + bos + SafetyCost;
    CostBreakdown(count, PanelWattage, panelCost, inverter.capacityKw, inverter.cost,
                  vat, mounting, SafetyCost, labour, bos, total, actualKw)
  }

  /** The total in closed form: 23,430 KSh per panel (panel, VAT and BOS on it,
      mounting, labour), 1.24 times the inverter price, and 19,000 KSh fixed. */
  lemma TotalClosedForm(b: CostBreakdown)
    requires ValidBreakdown(b)
    ensures b.total == 23430.0 * b.panelCount as real + 1.24 * b.inverterCost + 19000.0
  {
  }

  /** A larger request never buys fewer panels. */
  lemma PanelCountMonotone(kw1: real, kw2: real)
    requires kw1 <= kw2
    ensures PanelCount(kw1) <= PanelCount(kw2)
  {
  }
}
