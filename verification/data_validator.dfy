/** Technical, price and physics checks of a generated recommendation against
    the catalogue and baseline assumptions, producing an ordered error list
    (utils/data_validator.py). */
module DataValidator {
  import opened Common

  /** The two baseline assumptions the checks consult; an absent key is `None`. */
  datatype Assumptions = Assumptions(costRange: Option<(real, real)>, systemLosses: Option<real>)

  /** The error messages, by kind, with the values they quote. */
  datatype DataError =
    | MissingInputs
    | SizeMismatch(calculatedKw: real, recommendedKw: real)
    | InverterRatio(systemKw: real, inverterKw: real)
    | PriceOutOfRange(costPerWatt: real, low: real, high: real)
    | PhysicsViolation(annualGeneration: real, maxPossible: real)

  /** Position of each rule in the order the checks run. */
  function Rank(e: DataError): nat {
    match e
    case MissingInputs => 0
    case SizeMismatch(_, _) => 1
    case InverterRatio(_, _) => 2
    case PriceOutOfRange(_, _, _) => 3
    case PhysicsViolation(_, _) => 4
  }

  /** The installation price range, [55, 120] KSh/W when not given. */
  function PriceRange(a: Assumptions): (range: (real, real))
    ensures a.costRange.None? ==> range == (55.0, 120.0)
    ensures a.costRange.Some? ==> range == a.costRange.value
  {
    a.costRange.GetOr((55.0, 120.0))
  }

  /** The loss fraction, 0.15 when not given. */
  function Losses(a: Assumptions): (losses: real)
    ensures a.systemLosses.None? ==> losses == 0.15
    ensures a.systemLosses.Some? ==> losses == a.systemLosses.value
  {
    a.systemLosses.GetOr(0.15)
  }

  /** Array capacity in kW from the panel count and the panel rating in W. */
  function PanelArrayKw(count: real, wattage: real): real {
    count * wattage / 1000.0
  }

  /** Rule 1: a positive panel count and rating whose array size is not within
      5% of the recommended size. */
  predicate SizeRuleFires(count: real, wattage: real, systemKw: real): (fires: bool)
    ensures fires ==> count > 0.0 && wattage > 0.0
    ensures count > 0.0 && wattage > 0.0 ==>
      PanelArrayKw(count, wattage) > 0.0 &&
      (fires <==> systemKw - PanelArrayKw(count, wattage) > 0.05 * PanelArrayKw(count, wattage)
                  || PanelArrayKw(count, wattage) - systemKw > 0.05 * PanelArrayKw(count, wattage))
  {
    assert count > 0.0 && wattage > 0.0 ==> count * wattage > 0.0;
    count > 0.0 && wattage > 0.0 &&
    !(0.95 * PanelArrayKw(count, wattage) <= systemKw <= 1.05 * PanelArrayKw(count, wattage))
  }

  /** Rule 2: positive sizes whose inverter is not 1.1 to 1.3 times the array. */
  predicate InverterRuleFires(systemKw: real, inverterKw: real): (fires: bool)
    ensures fires ==> systemKw > 0.0 && inverterKw > 0.0
    ensures systemKw > 0.0 && inverterKw > 0.0 ==>
      (fires <==> inverterKw / systemKw < 1.1 || inverterKw / systemKw > 1.3)
  {
    CompareRatio(inverterKw, systemKw, 1.1);
    CompareRatio(inverterKw, systemKw, 1.3);
    systemKw > 0.0 && inverterKw > 0.0 && !(1.1 * systemKw <= inverterKw <= 1.3 * systemKw)
  }

  /** Rule 3: a positive price per watt outside the range. */
  predicate PriceRuleFires(costPerWatt: real, range: (real, real)): (fires: bool)
    ensures costPerWatt <= 0.0 ==> !fires
    ensures costPerWatt > 0.0 ==> (fires <==> costPerWatt < range.0 || range.1 < costPerWatt)
  {
    costPerWatt > 0.0 && !(range.0 <= costPerWatt <= range.1)
  }

  /** `kW × GHI × 365 × (1 − losses)`: the most a year of sun can yield. */
  function MaxPossibleGeneration(systemKw: real, ghi: real, losses: real): real {
    systemKw * ghi * 365.0 * (1.0 - losses)
  }

  /** Rule 4: positive irradiance, size and target whose target exceeds the
      theoretical maximum by more than 5%. */
  predicate PhysicsRuleFires(ghi: real, systemKw: real, annualGen: real, losses: real): (fires: bool)
    ensures fires ==> ghi > 0.0 && systemKw > 0.0 && annualGen > 0.0
    ensures ghi > 0.0 && systemKw > 0.0 && annualGen > 0.0 && MaxPossibleGeneration(systemKw, ghi, losses) > 0.0 ==>
      (fires <==> annualGen / MaxPossibleGeneration(systemKw, ghi, losses) > 1.05)
  {
    CompareRatio(annualGen, MaxPossibleGeneration(systemKw, ghi, losses), 1.05);
    ghi > 0.0 && systemKw > 0.0 && annualGen > 0.0 &&
    annualGen > MaxPossibleGeneration(systemKw, ghi, losses) * 1.05
  }

  /** Comparing a ratio with `k` is comparing the numerator with `k` times a
      positive denominator. */
  lemma CompareRatio(x: real, y: real, k: real)
    ensures y > 0.0 ==> (x / y < k <==> x < k * y)
    ensures y > 0.0 ==> (x / y > k <==> x > k * y)
  {
    if y > 0.0 {
      var q := x / y;
      assert q * y == x;
      assert q < k ==> q * y < k * y;
      assert q > k ==> q * y > k * y;
      assert q >= k ==> q * y >= k * y;
      assert q <= k ==> q * y <= k * y;
    }
  }

  /** The falsy inputs: an empty recommendation, an absent or empty catalogue,
      absent or empty assumptions. */
  predicate MissingInput(rec: Record, catalogPresent: bool, assumptions: Option<Assumptions>) {
    rec == map[] || !catalogPresent || assumptions.None?
  }

  /** Errors listed in the order their checks run, each kind at most once. */
  predicate InRuleOrder(errors: seq<DataError>) {
    forall i, j :: 0 <= i < j < |errors| ==> Rank(errors[i]) < Rank(errors[j])
  }

  function Indicator(b: bool): nat {
    if b then 1 else 0
  }

  /** The seven numeric fields the rules read, each 0 when absent. */
  datatype Fields = Fields(
    panelCount: real, panelWattage: real, systemKw: real, inverterKw: real,
    costPerWatt: real, ghi: real, annualGeneration: real)

  function FieldsOf(rec: Record): (f: Fields)
    ensures f.panelCount == Field(rec, "system_sizing", "panel_count")
    ensures f.panelWattage == Field(rec, "system_sizing", "panel_wattage_w")
    ensures f.inverterKw == Field(rec, "system_sizing", "inverter_size_kw")
    ensures f.annualGeneration == Field(rec, "system_sizing", "target_annual_generation_kwh")
    ensures f.systemKw == Field(rec, "system_sizing", "required_system_size_kw")
    ensures f.costPerWatt == Field(rec, "financial_analysis", "cost_per_watt_ksh")
    ensures f.ghi == Field(rec, "location_analysis", "ghi_kwh_m2_day")
  {
    Fields(
      Field(rec, "system_sizing", "panel_count"),
      Field(rec, "system_sizing", "panel_wattage_w"),
      Field(rec, "system_sizing", "required_system_size_kw"),
      Field(rec, "system_sizing", "inverter_size_kw"),
      Field(rec, "financial_analysis", "cost_per_watt_ksh"),
      Field(rec, "location_analysis", "ghi_kwh_m2_day"),
      Field(rec, "system_sizing", "target_annual_generation_kwh"))
  }

  function SizeErrors(f: Fields): seq<DataError> {
    if SizeRuleFires(f.panelCount, f.panelWattage, f.systemKw)
    then [SizeMismatch(PanelArrayKw(f.panelCount, f.panelWattage), f.systemKw)] else []
  }

  function InverterErrors(f: Fields): seq<DataError> {
    if InverterRuleFires(f.systemKw, f.inverterKw) then [InverterRatio(f.systemKw, f.inverterKw)] else []
  }

  function PriceErrors(f: Fields, a: Assumptions): seq<DataError> {
    var range := PriceRange(a);
    if PriceRuleFires(f.costPerWatt, range) then [PriceOutOfRange(f.costPerWatt, range.0, range.1)] else []
  }

  function PhysicsErrors(f: Fields, a: Assumptions): seq<DataError> {
    if PhysicsRuleFires(f.ghi, f.systemKw, f.annualGeneration, Losses(a))
    then [PhysicsViolation(f.annualGeneration, MaxPossibleGeneration(f.systemKw, f.ghi, Losses(a)))] else []
  }

  /** The error list the four rules produce, in rule order. */
  function RuleErrors(f: Fields, a: Assumptions): (errors: seq<DataError>)
    ensures |errors| <= 4
    ensures forall e :: e in errors ==> 1 <= Rank(e) <= 4
  {
    SizeErrors(f) + InverterErrors(f) + PriceErrors(f, a) + PhysicsErrors(f, a)
  }

  /** `validate_recommendation`: a single error for falsy inputs; otherwise
      the four rules run in order, each appending its error when it fires. */
  method ValidateRecommendation(rec: Record, catalogPresent: bool, assumptions: Option<Assumptions>)
    returns (errors: seq<DataError>)
    ensures MissingInput(rec, catalogPresent, assumptions) ==> errors == [MissingInputs]
    ensures !MissingInput(rec, catalogPresent, assumptions) ==>
      errors == RuleErrors(FieldsOf(rec), assumptions.value)
  {
    errors := [];
    if MissingInput(rec, catalogPresent, assumptions) {
      errors := errors + [MissingInputs];
      return;
    }
    var a := assumptions.value;
    ghost var f := FieldsOf(rec);

    var count := Field(rec, "system_sizing", "panel_count");
    var wattage := Field(rec, "system_sizing", "panel_wattage_w");
    var kw := Field(rec, "system_sizing", "required_system_size_kw");
    var inverter := Field(rec, "system_sizing", "inverter_size_kw");

    if count > 0.0 && wattage > 0.0 {
      var calculated := PanelArrayKw(count, wattage);
      if !(0.95 * calculated <= kw <= 1.05 * calculated) {
        errors := errors + [SizeMismatch(calculated, kw)];
      }
    }
    assert errors == SizeErrors(f);

    if kw > 0.0 && inverter > 0.0 {
      if !(1.1 * kw <= inverter <= 1.3 * kw) {
        errors := errors + [InverterRatio(kw, inverter)];
      }
    }
    assert errors == SizeErrors(f) + InverterErrors(f);

    var cpw := Field(rec, "financial_analysis", "cost_per_watt_ksh");
    var range := PriceRange(a);
    if cpw > 0.0 && !(range.0 <= cpw <= range.1) {
      errors := errors + [PriceOutOfRange(cpw, range.0, range.1)];
    }
    assert errors == SizeErrors(f) + InverterErrors(f) + PriceErrors(f, a);

    var ghi := Field(rec, "location_analysis", "ghi_kwh_m2_day");
    var gen := Field(rec, "system_sizing", "target_annual_generation_kwh");
    var losses := Losses(a);
    if ghi > 0.0 && kw > 0.0 && gen > 0.0 {
      var maxPossible := MaxPossibleGeneration(kw, ghi, losses);
      if gen > maxPossible * 1.05 {
        errors := errors + [PhysicsViolation(gen, maxPossible)];
      }
    }
  }

  /** Each rule's error is present exactly when the rule fires, and nothing
      else is reported. */
  lemma RuleErrorsMembership(f: Fields, a: Assumptions)
    ensures var errors := RuleErrors(f, a);
      && (SizeMismatch(PanelArrayKw(f.panelCount, f.panelWattage), f.systemKw) in errors
          <==> SizeRuleFires(f.panelCount, f.panelWattage, f.systemKw))
      && (InverterRatio(f.systemKw, f.inverterKw) in errors <==> InverterRuleFires(f.systemKw, f.inverterKw))
      && (PriceOutOfRange(f.costPerWatt, PriceRange(a).0, PriceRange(a).1) in errors
          <==> PriceRuleFires(f.costPerWatt, PriceRange(a)))
      && (PhysicsViolation(f.annualGeneration, MaxPossibleGeneration(f.systemKw, f.ghi, Losses(a))) in errors
          <==> PhysicsRuleFires(f.ghi, f.systemKw, f.annualGeneration, Losses(a)))
      && MissingInputs !in errors
  {
    var s1, s2, s3, s4 := SizeErrors(f), InverterErrors(f), PriceErrors(f, a), PhysicsErrors(f, a);
    RuleErrorRanks(f, a);
    MemberByRank(s1, s2, s3, s4, SizeMismatch(PanelArrayKw(f.panelCount, f.panelWattage), f.systemKw));
    MemberByRank(s1, s2, s3, s4, InverterRatio(f.systemKw, f.inverterKw));
    MemberByRank(s1, s2, s3, s4, PriceOutOfRange(f.costPerWatt, PriceRange(a).0, PriceRange(a).1));
    MemberByRank(s1, s2, s3, s4, PhysicsViolation(f.annualGeneration, MaxPossibleGeneration(f.systemKw, f.ghi, Losses(a))));
    MemberByRank(s1, s2, s3, s4, MissingInputs);
  }

  /** One error per rule that fires, listed in rule order. */
  lemma RuleErrorsCountAndOrder(f: Fields, a: Assumptions)
    ensures var errors := RuleErrors(f, a);
      && |errors| == Indicator(SizeRuleFires(f.panelCount, f.panelWattage, f.systemKw))
                     + Indicator(InverterRuleFires(f.systemKw, f.inverterKw))
                     + Indicator(PriceRuleFires(f.costPerWatt, PriceRange(a)))
                     + Indicator(PhysicsRuleFires(f.ghi, f.systemKw, f.annualGeneration, Losses(a)))
      && InRuleOrder(errors)
  {
    var s1, s2, s3, s4 := SizeErrors(f), InverterErrors(f), PriceErrors(f, a), PhysicsErrors(f, a);
    RuleErrorRanks(f, a);
    OrderedConcat(s1, s2);
    OrderedConcat(s1 + s2, s3);
    OrderedConcat(s1 + s2 + s3, s4);
  }

  lemma RuleErrorRanks(f: Fields, a: Assumptions)
    ensures forall e :: e in SizeErrors(f) ==> Rank(e) == 1
    ensures forall e :: e in InverterErrors(f) ==> Rank(e) == 2
    ensures forall e :: e in PriceErrors(f, a) ==> Rank(e) == 3
    ensures forall e :: e in PhysicsErrors(f, a) ==> Rank(e) == 4
  {
  }

  /** In four lists each holding errors of one rank, an error can only be
      found in the list of its own rank. */
  lemma MemberByRank(s1: seq<DataError>, s2: seq<DataError>, s3: seq<DataError>, s4: seq<DataError>, e: DataError)
    requires forall x :: x in s1 ==> Rank(x) == 1
    requires forall x :: x in s2 ==> Rank(x) == 2
    requires forall x :: x in s3 ==> Rank(x) == 3
    requires forall x :: x in s4 ==> Rank(x) == 4
    ensures e in s1 + s2 + s3 + s4 <==>
      (Rank(e) == 1 && e in s1) || (Rank(e) == 2 && e in s2) || (Rank(e) == 3 && e in s3) || (Rank(e) == 4 && e in s4)
  {
  }

  /** Two lists in rule order, every rank of the first below every rank of the
      second, concatenate to a list in rule order. */
  lemma OrderedConcat(xs: seq<DataError>, ys: seq<DataError>)
    requires |xs| <= 1 || InRuleOrder(xs)
    requires InRuleOrder(xs) && InRuleOrder(ys)
    requires forall x, y :: x in xs && y in ys ==> Rank(x) < Rank(y)
    ensures InRuleOrder(xs + ys)
  {
    var zs := xs + ys;
    forall i, j | 0 <= i < j < |zs|
      ensures Rank(zs[i]) < Rank(zs[j])
    {
      if i < |xs| && j >= |xs| {
        assert zs[i] in xs && zs[j] in ys;
      } else if i < |xs| {
        assert zs[i] == xs[i] && zs[j] == xs[j];
      } else {
        assert zs[i] == ys[i - |xs|] && zs[j] == ys[j - |xs|];
      }
    }
  }

  /** With every input present, an empty list means no rule fired, and the
      other way round. */
  lemma NoErrorsIffNoRuleFires(f: Fields, a: Assumptions)
    ensures RuleErrors(f, a) == [] <==>
      && !SizeRuleFires(f.panelCount, f.panelWattage, f.systemKw)
      && !InverterRuleFires(f.systemKw, f.inverterKw)
      && !PriceRuleFires(f.costPerWatt, PriceRange(a))
      && !PhysicsRuleFires(f.ghi, f.systemKw, f.annualGeneration, Losses(a))
  {
    RuleErrorsCountAndOrder(f, a);
  }

  /** A recommendation whose size and price fields are all zero or absent
      triggers none of the rules, whatever the assumptions. */
  lemma ZeroFieldsPass(rec: Record, a: Assumptions)
    requires Field(rec, "system_sizing", "panel_count") <= 0.0
    requires Field(rec, "system_sizing", "required_system_size_kw") <= 0.0
    requires Field(rec, "financial_analysis", "cost_per_watt_ksh") <= 0.0
    ensures !SizeRuleFires(Field(rec, "system_sizing", "panel_count"), Field(rec, "system_sizing", "panel_wattage_w"),
                           Field(rec, "system_sizing", "required_system_size_kw"))
    ensures !InverterRuleFires(Field(rec, "system_sizing", "required_system_size_kw"),
                               Field(rec, "system_sizing", "inverter_size_kw"))
    ensures !PriceRuleFires(Field(rec, "financial_analysis", "cost_per_watt_ksh"), PriceRange(a))
    ensures !PhysicsRuleFires(Field(rec, "location_analysis", "ghi_kwh_m2_day"),
                              Field(rec, "system_sizing", "required_system_size_kw"),
                              Field(rec, "system_sizing", "target_annual_generation_kwh"), Losses(a))
  {
  }

  /** An array sized exactly from its panels, with an inverter 1.2 times that
      size, passes both technical rules. */
  lemma ExactSizingPasses(count: real, wattage: real)
    requires count > 0.0 && wattage > 0.0
    ensures PanelArrayKw(count, wattage) > 0.0
    ensures !SizeRuleFires(count, wattage, PanelArrayKw(count, wattage))
    ensures !InverterRuleFires(PanelArrayKw(count, wattage), 1.2 * PanelArrayKw(count, wattage))
  {
    assert count * wattage > 0.0;
  }
}
