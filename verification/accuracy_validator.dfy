/** Rule-based checks of a generated recommendation: sizing, payback, price per
    watt and irradiance, each giving a validity flag, warnings and a confidence
    score, combined into an overall confidence and a star rating
    (utils/accuracy_validator.py). */
module AccuracyValidator {
  import opened Common

  /** The warning messages, by kind; the values they quote are kept. */
  datatype Warning =
    | Oversized(coverage: real)
    | Undersized(coverage: real)
    | OptimalSizing(coverage: real)
    | PaybackTooOptimistic
    | PaybackTooLong
    | PaybackRealistic
    | CostTooLow
    | CostAboveMarket
    | CostTypical
    | LowSolar(location: string, ghi: real)
    | ExcellentSolar(location: string, ghi: real)
    | GoodSolar(location: string, ghi: real)

  /** The messages marked with a check mark rather than a warning sign. */
  predicate IsPositive(w: Warning) {
    w.OptimalSizing? || w.PaybackRealistic? || w.CostTypical? || w.ExcellentSolar? || w.GoodSolar?
  }

  /** `(is_valid, warnings, confidence)`. */
  datatype Validation = Validation(valid: bool, warnings: seq<Warning>, confidence: real)

  function Clamp01(x: real): (y: real)
    ensures 0.0 <= y <= 1.0
    ensures 0.0 <= x <= 1.0 ==> y == x
  {
    Max(0.0, Min(1.0, x))
  }

  // ---------------------------------------------------------------------------
  // System sizing
  // ---------------------------------------------------------------------------

  /** Expected generation (irradiance × 365 × 0.75 per kW) over annual
      consumption; 0 when the consumption is not positive. */
  function Coverage(systemKw: real, monthlyKwh: real, ghi: real): (c: real)
    ensures monthlyKwh > 0.0 ==> c * (monthlyKwh * 12.0) == systemKw * (ghi * 365.0 * 0.75)
    ensures monthlyKwh <= 0.0 ==> c == 0.0
  {
    var annual := monthlyKwh * 12.0;
    var expected := systemKw * (ghi * 365.0 * 0.75);
    if annual > 0.0 then expected / annual else 0.0
  }

  /** The sizing check by coverage band: above 1.5 oversized, below 0.7
      undersized, within [0.9, 1.2] optimal, otherwise silent. */
  function SizingCheck(coverage: real): (v: Validation)
    ensures v.valid <==> 0.9 <= coverage <= 1.2
    ensures v.valid <==> |v.warnings| == 1 && IsPositive(v.warnings[0])
    ensures 0.0 <= v.confidence <= 1.0
    ensures v.confidence == 1.0 <==> 0.7 <= coverage <= 1.5
    ensures |v.warnings| <= 1
  {
    if coverage > 1.5 then Validation(false, [Oversized(coverage)], 0.8)
    else if coverage < 0.7 then Validation(false, [Undersized(coverage)], 0.85)
    else if 0.9 <= coverage <= 1.2 then Validation(true, [OptimalSizing(coverage)], 1.0)
    else Validation(false, [], 1.0)
  }

  /** `validate_system_sizing`: up to three warnings appended in turn, the
      confidence lowered per warning and clamped to [0, 1]; valid when the
      only warning is the positive one. */
  method ValidateSystemSizing(systemKw: real, monthlyKwh: real, ghi: real) returns (v: Validation)
    ensures v == SizingCheck(Coverage(systemKw, monthlyKwh, ghi))
  {
    var coverage := Coverage(systemKw, monthlyKwh, ghi);
    var warnings: seq<Warning> := [];
    var confidence := 1.0;
    if coverage > 1.5 {
      warnings := warnings + [Oversized(coverage)];
      confidence := confidence - 0.2;
    }
    if coverage < 0.7 {
      warnings := warnings + [Undersized(coverage)];
      confidence := confidence - 0.15;
    }
    if 0.9 <= coverage <= 1.2 {
      warnings := warnings + [OptimalSizing(coverage)];
    }
    var valid := |warnings| == 1 && IsPositive(warnings[0]);
    v := Validation(valid, warnings, Clamp01(confidence));
  }

  // ---------------------------------------------------------------------------
  // Payback, price per watt, irradiance
  // ---------------------------------------------------------------------------

  /** The payback check by band: below 3 years too optimistic, above 15 too
      long, [5, 10] realistic, otherwise silent at 0.8. */
  function PaybackCheck(years: real): (v: Validation)
    ensures v.valid <==> 3.0 <= years <= 15.0
    ensures v.confidence == 1.0 <==> 5.0 <= years <= 10.0
    ensures 0.4 <= v.confidence <= 1.0
    ensures |v.warnings| <= 1
    ensures v.warnings == [] <==> (3.0 <= years < 5.0 || 10.0 < years <= 15.0)
    ensures forall w :: w in v.warnings ==> (IsPositive(w) <==> v.valid)
  {
    var valid := 3.0 <= years <= 15.0;
    if years < 3.0 then Validation(valid, [PaybackTooOptimistic], 0.4)
    else if years > 15.0 then Validation(valid, [PaybackTooLong], 0.5)
    else if 5.0 <= years <= 10.0 then Validation(valid, [PaybackRealistic], 1.0)
    else Validation(valid, [], 0.8)
  }

  /** `validate_payback_period`. */
  method ValidatePaybackPeriod(years: real) returns (v: Validation)
    ensures v == PaybackCheck(years)
  {
    var warnings: seq<Warning> := [];
    var confidence := 1.0;
    if years < 3.0 {
      warnings := warnings + [PaybackTooOptimistic];
      confidence := 0.4;
    } else if years > 15.0 {
      warnings := warnings + [PaybackTooLong];
      confidence := 0.5;
    } else if 5.0 <= years <= 10.0 {
      warnings := warnings + [PaybackRealistic];
      confidence := 1.0;
    } else {
      confidence := 0.8;
    }
    v := Validation(3.0 <= years <= 15.0, warnings, confidence);
  }

  /** The price check by band: below 55 KSh/W too low, above 150 above market,
      [70, 110] typical, otherwise silent at 0.8. */
  function CostCheck(costPerWatt: real): (v: Validation)
    ensures v.valid <==> 55.0 <= costPerWatt <= 150.0
    ensures v.confidence == 1.0 <==> 70.0 <= costPerWatt <= 110.0
    ensures 0.5 <= v.confidence <= 1.0
    ensures |v.warnings| <= 1
    ensures v.warnings == [] <==> (55.0 <= costPerWatt < 70.0 || 110.0 < costPerWatt <= 150.0)
    ensures forall w :: w in v.warnings ==> (IsPositive(w) <==> v.valid)
  {
    var valid := 55.0 <= costPerWatt <= 150.0;
    if costPerWatt < 55.0 then Validation(valid, [CostTooLow], 0.5)
    else if costPerWatt > 150.0 then Validation(valid, [CostAboveMarket], 0.6)
    else if 70.0 <= costPerWatt <= 110.0 then Validation(valid, [CostTypical], 1.0)
    else Validation(valid, [], 0.8)
  }

  /** `validate_cost_per_watt`. */
  method ValidateCostPerWatt(costPerWatt: real) returns (v: Validation)
    ensures v == CostCheck(costPerWatt)
  {
    var warnings: seq<Warning> := [];
    var confidence := 1.0;
    if costPerWatt < 55.0 {
      warnings := warnings + [CostTooLow];
      confidence := 0.5;
    } else if costPerWatt > 150.0 {
      warnings := warnings + [CostAboveMarket];
      confidence := 0.6;
    } else if 70.0 <= costPerWatt <= 110.0 {
      warnings := warnings + [CostTypical];
      confidence := 1.0;
    } else {
      confidence := 0.8;
    }
    var valid := 55.0 <= costPerWatt <= 150.0;
    v := Validation(valid, warnings, confidence);
  }

  /** The irradiance check: always one message, low below 4.5, excellent from
      5.5, good in between; valid from 4.0 (so 4.0 to 4.5 is valid yet low). */
  function GhiCheck(ghi: real, location: string): (v: Validation)
    ensures |v.warnings| == 1
    ensures v.valid <==> ghi >= 4.0
    ensures IsPositive(v.warnings[0]) <==> ghi >= 4.5
    ensures 0.7 <= v.confidence <= 1.0
    ensures v.confidence == 1.0 <==> ghi >= 5.5
  {
    if ghi < 4.5 then Validation(ghi >= 4.0, [LowSolar(location, ghi)], 0.7)
    else if ghi >= 5.5 then Validation(true, [ExcellentSolar(location, ghi)], 1.0)
    else Validation(true, [GoodSolar(location, ghi)], 0.9)
  }

  /** `validate_ghi_location`. */
  method ValidateGhiLocation(ghi: real, location: string) returns (v: Validation)
    ensures v == GhiCheck(ghi, location)
  {
    var warnings: seq<Warning> := [];
    var confidence := 1.0;
    if ghi < 4.5 {
      warnings := warnings + [LowSolar(location, ghi)];
      confidence := 0.7;
    } else if ghi >= 5.5 {
      warnings := warnings + [ExcellentSolar(location, ghi)];
      confidence := 1.0;
    } else {
      warnings := warnings + [GoodSolar(location, ghi)];
      confidence := 0.9;
    }
    var valid := ghi >= 4.0;
    v := Validation(valid, warnings, confidence);
  }

  // ---------------------------------------------------------------------------
  // Overall confidence and stars
  // ---------------------------------------------------------------------------

  datatype Overall = Overall(confidence: real, level: string, color: string)

  function SumConfidence(results: seq<Validation>): real
    decreases |results|
  {
    if results == [] then 0.0 else SumConfidence(results[..|results| - 1]) + results[|results| - 1].confidence
  }

  /** `calculate_overall_confidence`: the mean confidence and its band; 0.5
      "Moderate" when there is nothing to average. */
  function OverallConfidence(results: seq<Validation>): (o: Overall)
    ensures results == [] ==> o == Overall(0.5, "Moderate", "orange")
    ensures results != [] ==> o.confidence * |results| as real == SumConfidence(results)
    ensures o.level == "High" <==> o.confidence >= 0.85
    ensures o.level == "Good" <==> 0.7 <= o.confidence < 0.85
    ensures o.level == "Moderate" <==> 0.5 <= o.confidence < 0.7
    ensures o.level == "Low" <==> o.confidence < 0.5
    ensures o.color == (if o.level == "High" then "green" else if o.level == "Good" then "lightgreen"
                        else if o.level == "Moderate" then "orange" else "red")
  {
    if results == [] then Overall(0.5, "Moderate", "orange")
    else
      var overall := SumConfidence(results) / |results| as real;
      if overall >= 0.85 then Overall(overall, "High", "green")
      else if overall >= 0.7 then Overall(overall, "Good", "lightgreen")
      else if overall >= 0.5 then Overall(overall, "Moderate", "orange")
      else Overall(overall, "Low", "red")
  }

  /** Confidences in [lo, hi] sum to between `n·lo` and `n·hi`. */
  lemma {:induction false} SumConfidenceBounds(results: seq<Validation>, lo: real, hi: real)
    requires forall i :: 0 <= i < |results| ==> lo <= results[i].confidence <= hi
    ensures |results| as real * lo <= SumConfidence(results) <= |results| as real * hi
    decreases |results|
  {
    if results != [] {
      SumConfidenceBounds(results[..|results| - 1], lo, hi);
    }
  }

  /** The mean of scores in [0, 1] lies in [0, 1]. */
  lemma OverallWithinUnitInterval(results: seq<Validation>)
    requires forall i :: 0 <= i < |results| ==> 0.0 <= results[i].confidence <= 1.0
    ensures 0.0 <= OverallConfidence(results).confidence <= 1.0
  {
    if results != [] {
      SumConfidenceBounds(results, 0.0, 1.0);
    }
  }

  /** Python's `round` to an integer: nearest, ties to the even neighbour. */
  function RoundHalfEven(x: real): (n: int)
    ensures x - 0.5 <= n as real <= x + 0.5
    ensures (n as real - x == 0.5 || x - n as real == 0.5) ==> n % 2 == 0
  {
    var f := x.Floor;
    var d := x - f as real;
    if d < 0.5 then f
    else if d > 0.5 then f + 1
    else if f % 2 == 0 then f
    else f + 1
  }

  /** `c * n` on a one-character string: empty for `n <= 0`. */
  function Repeat(c: char, n: int): (s: string)
    ensures |s| == (if n > 0 then n else 0)
    ensures forall i :: 0 <= i < |s| ==> s[i] == c
    decreases n
  {
    if n <= 0 then "" else [c] + Repeat(c, n - 1)
  }

  const FilledStar: char := '\U{2B50}'
  const EmptyStar: char := '\U{2606}'

  /** `get_confidence_stars`: `round(confidence × 5)` filled stars, then empty
      stars up to five. */
  function ConfidenceStars(confidence: real): (s: string)
    ensures var k := RoundHalfEven(confidence * 5.0);
      && |s| == (if k > 0 then k else 0) + (if 5 - k > 0 then 5 - k else 0)
      && forall i :: 0 <= i < |s| ==> (i < k ==> s[i] == FilledStar) && (i >= k ==> s[i] == EmptyStar)
    ensures 0.0 <= confidence <= 1.0 ==> |s| == 5
  {
    var k := RoundHalfEven(confidence * 5.0);
    Repeat(FilledStar, k) + Repeat(EmptyStar, 5 - k)
  }

  // ---------------------------------------------------------------------------
  // The whole recommendation
  // ---------------------------------------------------------------------------

  datatype Results = Results(
    validations: seq<Validation>,
    warnings: seq<Warning>,
    overallConfidence: real,
    confidenceLevel: string,
    confidenceStars: string,
    color: string)

  /** `total / (kW × 1000)`, or 0 without a positive size. */
  function CostPerWatt(totalCost: real, systemKw: real): (cpw: real)
    ensures systemKw > 0.0 ==> cpw * (systemKw * 1000.0) == totalCost
    ensures systemKw <= 0.0 ==> cpw == 0.0
  {
    if systemKw > 0.0 then totalCost / (systemKw * 1000.0) else 0.0
  }

  /** The key `validate_recommendation` reads the total from, and the key the
      recommendation schema (prompts/system_prompts.py:70) writes it under. */
  const TotalCostKey := "total_upfront_cost_ksh"
  const SchemaCostKey := "upfront_cost_ksh"

  /** The price per watt read from the financial section's `costKey`: the total
      under that key over the recommended size in watts, 0 without either. */
  function CostPerWattRead(rec: Record, costKey: string): (cpw: real)
    ensures Field(rec, "system_sizing", "required_system_size_kw") > 0.0 ==>
      cpw * (Field(rec, "system_sizing", "required_system_size_kw") * 1000.0)
        == Field(rec, "financial_analysis", costKey)
    ensures "financial_analysis" !in rec || costKey !in rec["financial_analysis"] ==> cpw == 0.0
  {
    CostPerWatt(Field(rec, "financial_analysis", costKey),
                Field(rec, "system_sizing", "required_system_size_kw"))
  }

  /** What `validate_recommendation` reports for a given price per watt: the
      four checks in order, their warnings concatenated in that order, and the
      overall confidence, band, colour and stars. */
  predicate Reports(r: Results, rec: Record, costPerWatt: real, monthlyKwh: real, ghi: real, location: string) {
    && r.validations == [
         SizingCheck(Coverage(Field(rec, "system_sizing", "required_system_size_kw"), monthlyKwh, ghi)),
         PaybackCheck(Field(rec, "financial_analysis", "payback_period_years")),
         CostCheck(costPerWatt),
         GhiCheck(ghi, location)]
    && r.warnings == r.validations[0].warnings + r.validations[1].warnings
                     + r.validations[2].warnings + r.validations[3].warnings
    && Overall(r.overallConfidence, r.confidenceLevel, r.color) == OverallConfidence(r.validations)
    && r.confidenceStars == ConfidenceStars(r.overallConfidence)
  }

  /** The four checks in order, their warnings concatenated in that order, and
      the overall confidence, band, stars and colour, for a given price per watt. */
  method ValidateWithCostPerWatt(rec: Record, costPerWatt: real, monthlyKwh: real, ghi: real, location: string)
    returns (r: Results)
    ensures Reports(r, rec, costPerWatt, monthlyKwh, ghi, location)
    ensures 0.0 <= r.overallConfidence <= 1.0 && |r.confidenceStars| == 5
  {
    var systemKw := Field(rec, "system_sizing", "required_system_size_kw");
    var payback := Field(rec, "financial_analysis", "payback_period_years");
    var validations: seq<Validation> := [];
    var warnings: seq<Warning> := [];

    var sizing := ValidateSystemSizing(systemKw, monthlyKwh, ghi);
    validations := validations + [sizing];
    warnings := warnings + sizing.warnings;

    var paybackCheck := ValidatePaybackPeriod(payback);
    validations := validations + [paybackCheck];
    warnings := warnings + paybackCheck.warnings;

    var cost := ValidateCostPerWatt(costPerWatt);
    validations := validations + [cost];
    warnings := warnings + cost.warnings;

    var ghiCheck := ValidateGhiLocation(ghi, location);
    validations := validations + [ghiCheck];
    warnings := warnings + ghiCheck.warnings;

    var overall := OverallConfidence(validations);
    OverallWithinUnitInterval(validations);
    r := Results(validations, warnings, overall.confidence, overall.level, ConfidenceStars(overall.confidence), overall.color);
  }

  /** `validate_recommendation`, reading missing sections and keys as 0 and the
      price from `total_upfront_cost_ksh`. */
  method ValidateRecommendation(rec: Record, monthlyKwh: real, ghi: real, location: string) returns (r: Results)
    ensures Reports(r, rec, CostPerWattRead(rec, TotalCostKey), monthlyKwh, ghi, location)
    ensures 0.0 <= r.overallConfidence <= 1.0 && |r.confidenceStars| == 5
  {
    r := ValidateWithCostPerWatt(rec, CostPerWattRead(rec, TotalCostKey), monthlyKwh, ghi, location);
  }

  /** The same validation with the price read from the schema's key. */
  method ValidateRecommendationFromSchema(rec: Record, monthlyKwh: real, ghi: real, location: string) returns (r: Results)
    ensures Reports(r, rec, CostPerWattRead(rec, SchemaCostKey), monthlyKwh, ghi, location)
    ensures 0.0 <= r.overallConfidence <= 1.0 && |r.confidenceStars| == 5
  {
    r := ValidateWithCostPerWatt(rec, CostPerWattRead(rec, SchemaCostKey), monthlyKwh, ghi, location);
  }

  /** A recommendation shaped as the schema asks: 3 kW for 300,000 KSh. */
  function SchemaExample(): Record {
    map["system_sizing" := map["required_system_size_kw" := 3.0],
        "financial_analysis" := map["upfront_cost_ksh" := 300000.0, "payback_period_years" := 7.5]]
  }

  /** As written, a recommendation that follows the schema never supplies
      `total_upfront_cost_ksh`, so its price reads as 0 KSh/W and is always
      flagged too low, whatever it costs. */
  lemma SchemaCostIgnored(rec: Record)
    requires "financial_analysis" in rec && TotalCostKey !in rec["financial_analysis"]
    ensures CostPerWattRead(rec, TotalCostKey) == 0.0
    ensures CostCheck(CostPerWattRead(rec, TotalCostKey)) == Validation(false, [CostTooLow], 0.5)
  {
  }

  /** The schema example costs 100 KSh/W, a typical price, yet is flagged as
      too low as written. */
  lemma SchemaExampleFlaggedTooLow()
    ensures CostCheck(CostPerWattRead(SchemaExample(), TotalCostKey)).warnings == [CostTooLow]
    ensures CostPerWattRead(SchemaExample(), SchemaCostKey) == 100.0
  {
    SchemaCostIgnored(SchemaExample());
  }

  /** Read from the schema's key, the price check sees the recommendation's own
      price: a typical price is accepted with full confidence. */
  lemma SchemaCostRead(rec: Record)
    requires "financial_analysis" in rec && "upfront_cost_ksh" in rec["financial_analysis"]
    requires "system_sizing" in rec && "required_system_size_kw" in rec["system_sizing"]
    requires rec["system_sizing"]["required_system_size_kw"] > 0.0
    ensures CostPerWattRead(rec, SchemaCostKey) * rec["system_sizing"]["required_system_size_kw"] * 1000.0
            == rec["financial_analysis"]["upfront_cost_ksh"]
    ensures 70.0 <= CostPerWattRead(rec, SchemaCostKey) <= 110.0 ==>
            CostCheck(CostPerWattRead(rec, SchemaCostKey)) == Validation(true, [CostTypical], 1.0)
  {
    var kw := rec["system_sizing"]["required_system_size_kw"];
    var total := rec["financial_analysis"]["upfront_cost_ksh"];
    assert CostPerWattRead(rec, SchemaCostKey) == total / (kw * 1000.0);
  }
}
