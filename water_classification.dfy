/** The water-type classifier: five threshold predicates checked in the fixed
    priority order 5, 4, 3, 1, 2; the first that holds names the water type. */
module WaterClassification {
  import opened Common
  import opened Quality

  datatype Severity = VeryLow | Low | Medium | High | VeryHigh
  {
    /** The severity's position on the scale, 1 (very_low) to 5 (very_high). */
    function Rank(): (k: int)
      ensures 1 <= k <= 5
    {
      match this
      case VeryLow => 1
      case Low => 2
      case Medium => 3
      case High => 4
      case VeryHigh => 5
    }

    /** The string the catalogue stores for the severity. */
    function Name(): string
    {
      match this
      case VeryLow => "very_low"
      case Low => "low"
      case Medium => "medium"
      case High => "high"
      case VeryHigh => "very_high"
    }
  }

  /** One entry of the water-type catalogue with its standard treatment train. */
  datatype WaterTypeDef = WaterTypeDef(
    id: int,
    code: string,
    displayLabel: string,  // the source field `label`
    severity: Severity,
    badgeColor: string,
    description: string,
    primary: seq<string>,
    secondary: seq<string>,
    tertiary: seq<string>)

  const Type1: WaterTypeDef := WaterTypeDef(
    1, "TYPE_1", "Type 1 – Drinking / Potable Water", VeryLow, "emerald",
    "High-quality water suitable for drinking after polishing and disinfection.",
    ["Screening", "Sedimentation", "Coagulation–Flocculation"],
    ["Rapid Sand Filtration", "Pressure Filtration"],
    ["Activated Carbon Filtration", "UV / Chlorination", "Reverse Osmosis (if TDS slightly high)"])

  const Type2: WaterTypeDef := WaterTypeDef(
    2, "TYPE_2", "Type 2 – Domestic / General Use Water", Low, "sky",
    "Water suitable for washing, bathing and household use but not for direct drinking.",
    ["Screening", "Sedimentation / Grit Removal", "Coagulation–Flocculation"],
    ["Biological Filtration / Trickling Filter", "Aeration + Basic Activated Sludge"],
    ["Fine Filtration", "Disinfection (UV or Chlorine)"])

  const Type3: WaterTypeDef := WaterTypeDef(
    3, "TYPE_3", "Type 3 – Industrial Wastewater", Medium, "amber",
    "Industrial effluent with moderate to high TDS / organics that requires structured treatment.",
    ["Equalization Tank", "Oil & Grease Trap", "Coagulation–Flocculation", "Primary Clarifier"],
    ["Activated Sludge Process", "Aeration Tank", "MBBR / SBR Reactor"],
    ["Advanced Oxidation (AOP: Ozone, UV + H₂O₂)", "Activated Carbon Filter", "RO / Nano-filtration (if high TDS)"])

  const Type4: WaterTypeDef := WaterTypeDef(
    4, "TYPE_4", "Type 4 – Municipal / Sewage Wastewater", High, "orange",
    "Untreated or partially treated urban sewage with high BOD, COD and suspended solids.",
    ["Screening", "Grit Chamber", "Primary Settling"],
    ["Activated Sludge", "Trickling Filter / Oxidation Ponds", "MBBR"],
    ["Sand + Carbon Filtration", "Chlorination / UV", "Nutrient Removal (N & P)"])

  const Type5: WaterTypeDef := WaterTypeDef(
    5, "TYPE_5", "Type 5 – Heavily Polluted / Toxic Water", VeryHigh, "rose",
    "Red alert category: heavily contaminated water that needs advanced and often multi-stage treatment.",
    ["Chemical Precipitation (heavy metals)", "Oil / Grease Separation", "Neutralization Tank",
     "High-dose Coagulation–Flocculation"],
    ["High-strength Biological Reactor", "MBR (Membrane Bioreactor)", "SBR (Sequencing Batch Reactor)"],
    ["RO / Multi-stage RO", "Advanced Oxidation (AOP)", "Activated Carbon Adsorption", "Ion Exchange",
     "Zero Liquid Discharge (ZLD) – optional"])

  /** The catalogue, keyed by code. */
  const WaterTypeDefs: map<string, WaterTypeDef> :=
    map["TYPE_1" := Type1, "TYPE_2" := Type2, "TYPE_3" := Type3, "TYPE_4" := Type4, "TYPE_5" := Type5]

  /** The code of type k: "TYPE_" followed by the digit k. */
  function TypeCode(k: int): string
    requires 1 <= k <= 5
  {
    "TYPE_" + [('0' as int + k) as char]
  }

  /** The catalogue entry of type k. */
  function DefFor(k: int): (d: WaterTypeDef)
    requires 1 <= k <= 5
    ensures d.id == k
  {
    match k
    case 1 => Type1
    case 2 => Type2
    case 3 => Type3
    case 4 => Type4
    case 5 => Type5
  }

  /** Entry TYPE_k has id k and code "TYPE_k", and its severity is the k-th
      on the scale, so severities run very_low to very_high as k goes 1 to 5. */
  lemma CatalogueWellFormed(k: int)
    requires 1 <= k <= 5
    ensures TypeCode(k) in WaterTypeDefs
    ensures WaterTypeDefs[TypeCode(k)] == DefFor(k)
    ensures DefFor(k).code == TypeCode(k)
    ensures DefFor(k).severity.Rank() == k
  {
    assert TypeCode(1) == "TYPE_1";
    assert TypeCode(2) == "TYPE_2";
    assert TypeCode(3) == "TYPE_3";
    assert TypeCode(4) == "TYPE_4";
    assert TypeCode(5) == "TYPE_5";
  }

  // ---- The five predicates ----

  /** Type 1, potable: every band of the strict conjunction holds. A potable sample is never
      red-alert and wins no Type 3 or Type 4 vote, so the cascade reaches its Type 1 check. */
  predicate IsType1(q: Sample): (b: bool)
    ensures b ==> !IsType5(q) && !Type4Vote(q) && !Type3Vote(q)
  {
    CountSix(Type4Checks(q));
    CountSix(Type3Checks(q));
    q.pH >= 6.5 && q.pH <= 8.5 && q.tds < 500.0 && q.turbidity < 1.0 &&
    q.bod < 2.0 && q.cod < 10.0 && q.tn < 1.0 && q.temperature < 35.0
  }

  /** Type 2, domestic: every band of the looser conjunction holds. A domestic sample is never
      red-alert and wins no Type 3 or Type 4 vote. */
  predicate IsType2(q: Sample): (b: bool)
    ensures b ==> !IsType5(q) && !Type4Vote(q) && !Type3Vote(q)
  {
    CountSix(Type4Checks(q));
    CountSix(Type3Checks(q));
    q.pH >= 6.0 && q.pH <= 9.0 && q.tds < 1500.0 && q.turbidity < 5.0 &&
    q.bod < 5.0 && q.cod < 20.0 && q.tn < 5.0 && q.temperature < 40.0
  }

  /** Type 5, red alert: any single extreme is enough. Apart from a temperature above 60 °C,
      each extreme lies beyond the matching Type 4 threshold, so it casts a "high" vote. */
  predicate IsType5(q: Sample): (b: bool)
    ensures b && q.temperature <= 60.0 ==> CountHolding(Type4Checks(q)) >= 1
  {
    CountSix(Type4Checks(q));
    q.bod > 80.0 || q.cod > 400.0 || q.tds > 5000.0 || q.turbidity > 200.0 ||
    q.temperature > 60.0 || q.tn > 50.0
  }

  /** Votes needed by the Type 3 and Type 4 checks. */
  const VoteThreshold: nat := 3

  /** The six "high" checks of Type 4 (sewage-like), in source order. */
  function Type4Checks(q: Sample): (c: seq<bool>)
    ensures |c| == 6
  {
    [ q.bod > 30.0,
      q.cod > 250.0,
      q.turbidity > 50.0,
      q.tds > 500.0,
      q.tn > 20.0,
      q.temperature >= 30.0 && q.temperature <= 45.0 ]
  }

  /** The six "moderately elevated" band checks of Type 3 (industrial), in source order. */
  function Type3Checks(q: Sample): (c: seq<bool>)
    ensures |c| == 6
  {
    [ q.tds >= 1500.0 && q.tds <= 5000.0,
      q.turbidity >= 5.0 && q.turbidity <= 50.0,
      q.bod >= 5.0 && q.bod <= 30.0,
      q.cod >= 20.0 && q.cod <= 250.0,
      q.tn >= 5.0 && q.tn <= 40.0,
      q.temperature >= 40.0 && q.temperature <= 60.0 ]
  }

  /** Type 4 holds when at least three of its six checks hold. Nitrogen and temperature alone
      never suffice: one of the BOD, COD, turbidity and TDS checks must hold. */
  predicate Type4Vote(q: Sample): (b: bool)
    ensures b ==> q.bod > 30.0 || q.cod > 250.0 || q.turbidity > 50.0 || q.tds > 500.0
  {
    CountSix(Type4Checks(q));
    CountHolding(Type4Checks(q)) >= VoteThreshold
  }

  /** Type 3 holds when at least three of its six checks hold. Nitrogen and temperature alone
      never suffice: one of the TDS, turbidity, BOD and COD bands must hold. */
  predicate Type3Vote(q: Sample): (b: bool)
    ensures b ==> (1500.0 <= q.tds <= 5000.0) || (5.0 <= q.turbidity <= 50.0) ||
                  (5.0 <= q.bod <= 30.0) || (20.0 <= q.cod <= 250.0)
  {
    CountSix(Type3Checks(q));
    CountHolding(Type3Checks(q)) >= VoteThreshold
  }

  /** The score of a six-check table: one point per check that holds. */
  lemma {:induction false} CountSix(c: seq<bool>)
    requires |c| == 6
    ensures CountHolding(c) ==
      (if c[0] then 1 else 0) + (if c[1] then 1 else 0) + (if c[2] then 1 else 0) +
      (if c[3] then 1 else 0) + (if c[4] then 1 else 0) + (if c[5] then 1 else 0)
  {
    var c1, c2, c3, c4, c5 := c[1..], c[2..], c[3..], c[4..], c[5..];
    assert c1[1..] == c2 && c2[1..] == c3 && c3[1..] == c4 && c4[1..] == c5 && c5[1..] == [];
    assert CountHolding(c5) == (if c[5] then 1 else 0);
    assert CountHolding(c4) == (if c[4] then 1 else 0) + CountHolding(c5);
    assert CountHolding(c3) == (if c[3] then 1 else 0) + CountHolding(c4);
    assert CountHolding(c2) == (if c[2] then 1 else 0) + CountHolding(c3);
    assert CountHolding(c1) == (if c[1] then 1 else 0) + CountHolding(c2);
  }

  /** isType4: counts the "high" parameters one by one and compares the score with 3. */
  method IsType4(q: Sample) returns (isType4: bool)
    ensures isType4 <==> CountHolding(Type4Checks(q)) >= 3
  {
    var score := 0;
    if q.bod > 30.0 { score := score + 1; }
    if q.cod > 250.0 { score := score + 1; }
    if q.turbidity > 50.0 { score := score + 1; }
    if q.tds > 500.0 { score := score + 1; }
    if q.tn > 20.0 { score := score + 1; }
    if q.temperature >= 30.0 && q.temperature <= 45.0 { score := score + 1; }
    CountSix(Type4Checks(q));
    isType4 := score >= 3;
  }

  /** isType3: counts the moderately elevated parameters one by one and compares the score with 3. */
  method IsType3(q: Sample) returns (isType3: bool)
    ensures isType3 <==> CountHolding(Type3Checks(q)) >= 3
  {
    var score := 0;
    if q.tds >= 1500.0 && q.tds <= 5000.0 { score := score + 1; }
    if q.turbidity >= 5.0 && q.turbidity <= 50.0 { score := score + 1; }
    if q.bod >= 5.0 && q.bod <= 30.0 { score := score + 1; }
    if q.cod >= 20.0 && q.cod <= 250.0 { score := score + 1; }
    if q.tn >= 5.0 && q.tn <= 40.0 { score := score + 1; }
    if q.temperature >= 40.0 && q.temperature <= 60.0 { score := score + 1; }
    CountSix(Type3Checks(q));
    isType3 := score >= 3;
  }

  // ---- The classifier ----

  /** Whether the predicate of type k holds of q. */
  predicate HoldsFor(k: int, q: Sample)
  {
    (k == 1 && IsType1(q)) || (k == 2 && IsType2(q)) || (k == 3 && Type3Vote(q)) ||
    (k == 4 && Type4Vote(q)) || (k == 5 && IsType5(q))
  }

  /** classifyWaterType: the priority cascade 5, 4, 3, 1, 2; null when nothing holds. */
  function ClassifyWaterType(q: Sample): (r: Option<WaterTypeDef>)
    ensures IsType5(q) ==> r == Some(Type5)
    ensures r.Some? ==> 1 <= r.value.id <= 5 && r.value == DefFor(r.value.id) && HoldsFor(r.value.id, q)
    ensures r.None? <==> forall k :: 1 <= k <= 5 ==> !HoldsFor(k, q)
  {
    if IsType5(q) then assert HoldsFor(5, q); Some(Type5)
    else if Type4Vote(q) then assert HoldsFor(4, q); Some(Type4)
    else if Type3Vote(q) then assert HoldsFor(3, q); Some(Type3)
    else if IsType1(q) then assert HoldsFor(1, q); Some(Type1)
    else if IsType2(q) then assert HoldsFor(2, q); Some(Type2)
    else None
  }

  /** The visible priority order of the cascade. */
  const Priority: seq<int> := [5, 4, 3, 1, 2]

  /** The first type in `order` whose predicate holds. */
  function FirstHolding(order: seq<int>, q: Sample): (r: Option<int>)
    ensures r.Some? ==> exists i :: 0 <= i < |order| && order[i] == r.value && HoldsFor(r.value, q) &&
                          forall j :: 0 <= j < i ==> !HoldsFor(order[j], q)
    ensures r.None? <==> forall i :: 0 <= i < |order| ==> !HoldsFor(order[i], q)
  {
    if order == [] then None
    else if HoldsFor(order[0], q) then Some(order[0])
    else
      var rest := FirstHolding(order[1..], q);
      if rest.Some? then
        ghost var i :| 0 <= i < |order[1..]| && order[1..][i] == rest.value && HoldsFor(rest.value, q) &&
                       forall j :: 0 <= j < i ==> !HoldsFor(order[1..][j], q);
        assert order[i + 1] == rest.value;
        rest
      else
        rest
  }

  /** The cascade returns the definition of the first type, in the order 5, 4, 3, 1, 2,
      whose predicate holds, and null exactly when none holds. */
  lemma ClassifyIsFirstMatch(q: Sample)
    ensures ClassifyWaterType(q) == (match FirstHolding(Priority, q)
                                     case None => None
                                     case Some(k) => if 1 <= k <= 5 then Some(DefFor(k)) else None)
  {
    assert [5, 4, 3, 1, 2][1..] == [4, 3, 1, 2];
    assert [4, 3, 1, 2][1..] == [3, 1, 2];
    assert [3, 1, 2][1..] == [1, 2];
    assert [1, 2][1..] == [2];
    assert [2][1..] == [];
    assert FirstHolding([2], q) == if HoldsFor(2, q) then Some(2) else None;
    assert FirstHolding([1, 2], q) == if HoldsFor(1, q) then Some(1) else FirstHolding([2], q);
    assert FirstHolding([3, 1, 2], q) == if HoldsFor(3, q) then Some(3) else FirstHolding([1, 2], q);
    assert FirstHolding([4, 3, 1, 2], q) == if HoldsFor(4, q) then Some(4) else FirstHolding([3, 1, 2], q);
    assert FirstHolding(Priority, q) == if HoldsFor(5, q) then Some(5) else FirstHolding([4, 3, 1, 2], q);
  }

  /** Every sample inside the Type 1 bands is inside the Type 2 bands, so TYPE_2
      is only ever returned for samples that fail the Type 1 check. */
  lemma Type1WithinType2(q: Sample)
    ensures IsType1(q) ==> IsType2(q)
    ensures ClassifyWaterType(q) == Some(Type2) ==> !IsType1(q) && IsType2(q)
  {
  }

  /** A single extreme decides: BOD above 80 alone gives TYPE_5, whatever else holds. */
  lemma HighBodAloneIsType5(q: Sample)
    requires q.bod > 80.0
    ensures ClassifyWaterType(q) == Some(Type5)
  {
  }

  /** A sample just inside every Type 1 band classifies as TYPE_1. */
  lemma BoundaryPotableExample()
    ensures ClassifyWaterType(Sample(7.0, 499.0, 0.9, 1.9, 9.0, 0.9, 34.0, false)) == Some(Type1)
  {
    var q := Sample(7.0, 499.0, 0.9, 1.9, 9.0, 0.9, 34.0, false);
    CountSix(Type4Checks(q));
    CountSix(Type3Checks(q));
  }

  /** A sample in the Type 1 bands but with BOD 90 is caught as TYPE_5 first. */
  lemma PotableBandsButHighBodExample()
    ensures ClassifyWaterType(Sample(7.0, 100.0, 0.5, 90.0, 5.0, 0.5, 20.0, false)) == Some(Type5)
  {
  }

  /** A moderately loaded sample (BOD 10, COD 50, TN 8) wins three Type 3 votes. */
  lemma ModerateLoadExample()
    ensures ClassifyWaterType(Sample(7.0, 1000.0, 3.0, 10.0, 50.0, 8.0, 25.0, false)) == Some(Type3)
  {
    var q := Sample(7.0, 1000.0, 3.0, 10.0, 50.0, 8.0, 25.0, false);
    CountSix(Type4Checks(q));
    CountSix(Type3Checks(q));
  }
}
