/** The chemical selector: independent threshold rules, each appending one
    (chemical, reason) recommendation; nothing is deduplicated. */
module ChemicalLogic {
  import opened Common
  import opened Quality

  /** The chemicals the selector can name; Name() is the string the source uses. */
  datatype Chemical = PAC | Alum | FerricChloride | Polymer | LimeSulfide | Urea | DAP | UV | Chlorine
  {
    function Name(): string
    {
      match this
      case PAC => "PAC"
      case Alum => "Alum"
      case FerricChloride => "Ferric Chloride"
      case Polymer => "Polymer"
      case LimeSulfide => "Lime + Sulfide Precipitation"
      case Urea => "Urea"
      case DAP => "DAP"
      case UV => "UV"
      case Chlorine => "Chlorine"
    }
  }

  /** Why a chemical is recommended; Text() is the reason string of the source. */
  datatype Reason =
    | HighTurbidity | ModerateTurbidity | LowPh | HighTds | VeryLowTurbidity
    | HeavyMetalsPresent | LowNitrogen | LowPhosphorus | ClearWater | TurbidWater
  {
    function Text(): string
    {
      match this
      case HighTurbidity => "High turbidity > 100 NTU"
      case ModerateTurbidity => "Moderate turbidity 20–100 NTU"
      case LowPh => "Low pH (<6) – alum becomes ineffective"
      case HighTds => "High TDS – ferric works better in saline water"
      case VeryLowTurbidity => "Very low turbidity requires polymer bridging"
      case HeavyMetalsPresent => "Heavy metals present → precipitation required"
      case LowNitrogen => "Low nitrogen for biological growth"
      case LowPhosphorus => "Low phosphorus for biological treatment"
      case ClearWater => "Very clear water suitable for UV disinfection"
      case TurbidWater => "Turbidity > 1 NTU → UV not reliable"
    }
  }

  datatype Recommendation = Recommendation(chemical: Chemical, reason: Reason)

  const PacHighTurbidity := Recommendation(PAC, HighTurbidity)
  const AlumModerateTurbidity := Recommendation(Alum, ModerateTurbidity)
  const PacLowPh := Recommendation(PAC, LowPh)
  const FerricForTds := Recommendation(FerricChloride, HighTds)
  const PolymerBridging := Recommendation(Polymer, VeryLowTurbidity)
  const LimeForMetals := Recommendation(LimeSulfide, HeavyMetalsPresent)
  const UreaNutrient := Recommendation(Urea, LowNitrogen)
  const DapNutrient := Recommendation(DAP, LowPhosphorus)
  const UvDisinfection := Recommendation(UV, ClearWater)
  const ChlorineDisinfection := Recommendation(Chlorine, TurbidWater)

  /** Rule k of the selector, in source order; each else-if pair appears as two
      rules with complementary conditions. */
  function RuleAt(w: Sample, k: nat): Rule<Recommendation>
    requires k < 10
  {
    match k
    case 0 => Rule(w.turbidity > 100.0, PacHighTurbidity)
    case 1 => Rule(!(w.turbidity > 100.0) && w.turbidity > 20.0, AlumModerateTurbidity)
    case 2 => Rule(w.pH < 6.0, PacLowPh)
    case 3 => Rule(w.tds > 500.0, FerricForTds)
    case 4 => Rule(w.turbidity < 10.0, PolymerBridging)
    case 5 => Rule(w.heavyMetals, LimeForMetals)
    case 6 => Rule(w.bod > 30.0 && w.tn < 10.0, UreaNutrient)
    case 7 => Rule(w.bod > 30.0 && w.tn < 3.0, DapNutrient)
    case 8 => Rule(w.turbidity < 1.0, UvDisinfection)
    case 9 => Rule(!(w.turbidity < 1.0), ChlorineDisinfection)
  }

  /** The whole rule table. */
  function ChemicalRules(w: Sample): (rules: seq<Rule<Recommendation>>)
    ensures |rules| == 10
    ensures forall k :: 0 <= k < 10 ==> rules[k] == RuleAt(w, k)
  {
    seq(10, k requires 0 <= k < 10 => RuleAt(w, k))
  }

  /** What the first k rules select, built the way the selector pushes. */
  function SelectedUpTo(w: Sample, k: nat): seq<Recommendation>
    requires k <= 10
  {
    if k == 0 then [] else SelectedUpTo(w, k - 1) + Contribution(RuleAt(w, k - 1))
  }

  /** The recommendations selected for w: what all ten rules contribute, in order. */
  function Selected(w: Sample): seq<Recommendation>
  {
    SelectedUpTo(w, 10)
  }

  /** The push-by-push build agrees with the rule table. */
  lemma {:induction false} SelectedUpToIsFired(w: Sample, k: nat)
    requires k <= 10
    ensures SelectedUpTo(w, k) == Fired(ChemicalRules(w)[..k])
  {
    if k == 0 {
      assert ChemicalRules(w)[..0] == [];
    } else {
      SelectedUpToIsFired(w, k - 1);
      FiredPrefix(ChemicalRules(w), k - 1);
    }
  }

  /** The selection is the entries of the rules of the table that fire. */
  lemma SelectedIsTable(w: Sample)
    ensures Selected(w) == Fired(ChemicalRules(w))
  {
    SelectedUpToIsFired(w, 10);
    assert ChemicalRules(w)[..10] == ChemicalRules(w);
  }

  /** chemicalSelectionLogic: pushes one entry per rule that holds, in source
      order; SelectedShape and the lemmas below say what that list looks like. */
  method ChemicalSelectionLogic(w: Sample) returns (chemicals: seq<Recommendation>)
    ensures chemicals == Selected(w)
  {
    chemicals := [];
    if w.turbidity > 100.0 {
      chemicals := chemicals + [PacHighTurbidity];
    } else if w.turbidity > 20.0 {
      chemicals := chemicals + [AlumModerateTurbidity];
    }
    SelectedFirstTwo(w, chemicals);
    ghost var before := chemicals;
    if w.pH < 6.0 { chemicals := chemicals + [PacLowPh]; }
    SelectedStep(w, 2, before, chemicals);
    before := chemicals;
    if w.tds > 500.0 { chemicals := chemicals + [FerricForTds]; }
    SelectedStep(w, 3, before, chemicals);
    before := chemicals;
    if w.turbidity < 10.0 { chemicals := chemicals + [PolymerBridging]; }
    SelectedStep(w, 4, before, chemicals);
    before := chemicals;
    if w.heavyMetals { chemicals := chemicals + [LimeForMetals]; }
    SelectedStep(w, 5, before, chemicals);
    before := chemicals;
    if w.bod > 30.0 && w.tn < 10.0 { chemicals := chemicals + [UreaNutrient]; }
    SelectedStep(w, 6, before, chemicals);
    before := chemicals;
    if w.bod > 30.0 && w.tn < 3.0 { chemicals := chemicals + [DapNutrient]; }
    SelectedStep(w, 7, before, chemicals);
    before := chemicals;
    if w.turbidity < 1.0 {
      chemicals := chemicals + [UvDisinfection];
    } else {
      chemicals := chemicals + [ChlorineDisinfection];
    }
    SelectedLastTwo(w, before, chemicals);
  }

  /** The two turbidity coagulant rules exclude each other, so at most one of their entries is pushed. */
  lemma SelectedFirstTwo(w: Sample, chemicals: seq<Recommendation>)
    requires chemicals == if w.turbidity > 100.0 then [PacHighTurbidity]
                          else if w.turbidity > 20.0 then [AlumModerateTurbidity] else []
    ensures chemicals == SelectedUpTo(w, 2)
  {
    assert SelectedUpTo(w, 1) == [] + Contribution(RuleAt(w, 0));
    assert SelectedUpTo(w, 2) == SelectedUpTo(w, 1) + Contribution(RuleAt(w, 1));
  }

  /** Rule k pushes its entry after what the first k rules selected. */
  lemma SelectedStep(w: Sample, k: nat, before: seq<Recommendation>, after: seq<Recommendation>)
    requires 2 <= k < 8 && before == SelectedUpTo(w, k)
    requires after == before + Contribution(RuleAt(w, k))
    ensures after == SelectedUpTo(w, k + 1)
  {
  }

  /** The two disinfection rules exclude each other, so exactly one disinfectant is pushed. */
  lemma SelectedLastTwo(w: Sample, before: seq<Recommendation>, after: seq<Recommendation>)
    requires before == SelectedUpTo(w, 8)
    requires after == before + [if w.turbidity < 1.0 then UvDisinfection else ChlorineDisinfection]
    ensures after == Selected(w)
  {
    assert SelectedUpTo(w, 9) == before + Contribution(RuleAt(w, 8));
    assert SelectedUpTo(w, 10) == SelectedUpTo(w, 9) + Contribution(RuleAt(w, 9));
  }

  /** How many recommendations name `chemical`. */
  function CountChemical(recs: seq<Recommendation>, chemical: Chemical): (n: nat)
    ensures n <= |recs|
  {
    if recs == [] then 0
    else (if recs[0].chemical == chemical then 1 else 0) + CountChemical(recs[1..], chemical)
  }

  lemma {:induction false} CountChemicalAppend(a: seq<Recommendation>, b: seq<Recommendation>, chemical: Chemical)
    ensures CountChemical(a + b, chemical) == CountChemical(a, chemical) + CountChemical(b, chemical)
  {
    if a == [] {
      assert a + b == b;
    } else {
      assert (a + b)[1..] == a[1..] + b;
      CountChemicalAppend(a[1..], b, chemical);
    }
  }

  /** The selection is the first eight rules' entries followed by exactly one disinfectant,
      and it holds between 1 and 7 entries. */
  lemma SelectedShape(w: Sample)
    ensures Selected(w) == SelectedUpTo(w, 8) + [if w.turbidity < 1.0 then UvDisinfection else ChlorineDisinfection]
    ensures 1 <= |Selected(w)| <= 7
  {
    assert SelectedUpTo(w, 10) == SelectedUpTo(w, 9) + Contribution(RuleAt(w, 9));
    assert SelectedUpTo(w, 9) == SelectedUpTo(w, 8) + Contribution(RuleAt(w, 8));
    LengthStep(w, 0); LengthStep(w, 1); LengthStep(w, 2); LengthStep(w, 3);
    LengthStep(w, 4); LengthStep(w, 5); LengthStep(w, 6); LengthStep(w, 7);
  }

  /** Each rule adds one entry when it fires and none otherwise. */
  lemma LengthStep(w: Sample, k: nat)
    requires k < 10
    ensures |SelectedUpTo(w, k + 1)| == |SelectedUpTo(w, k)| + if RuleAt(w, k).fires then 1 else 0
  {
  }

  /** Counting over the first k + 1 rules adds what rule k contributes. */
  lemma CountStep(w: Sample, k: nat, chemical: Chemical)
    requires k < 10
    ensures CountChemical(SelectedUpTo(w, k + 1), chemical) ==
            CountChemical(SelectedUpTo(w, k), chemical) + CountChemical(Contribution(RuleAt(w, k)), chemical)
  {
    CountChemicalAppend(SelectedUpTo(w, k), Contribution(RuleAt(w, k)), chemical);
  }

  /** The count of a chemical in the selection, rule by rule. */
  lemma CountByRule(w: Sample, chemical: Chemical)
    ensures CountChemical(Selected(w), chemical) ==
      CountChemical(Contribution(RuleAt(w, 0)), chemical) + CountChemical(Contribution(RuleAt(w, 1)), chemical) +
      CountChemical(Contribution(RuleAt(w, 2)), chemical) + CountChemical(Contribution(RuleAt(w, 3)), chemical) +
      CountChemical(Contribution(RuleAt(w, 4)), chemical) + CountChemical(Contribution(RuleAt(w, 5)), chemical) +
      CountChemical(Contribution(RuleAt(w, 6)), chemical) + CountChemical(Contribution(RuleAt(w, 7)), chemical) +
      CountChemical(Contribution(RuleAt(w, 8)), chemical) + CountChemical(Contribution(RuleAt(w, 9)), chemical)
  {
    CountStep(w, 0, chemical); CountStep(w, 1, chemical); CountStep(w, 2, chemical);
    CountStep(w, 3, chemical); CountStep(w, 4, chemical); CountStep(w, 5, chemical);
    CountStep(w, 6, chemical); CountStep(w, 7, chemical); CountStep(w, 8, chemical);
    CountStep(w, 9, chemical);
  }

  /** Membership in the selection is decided by the one rule that carries the entry. */
  lemma SelectedMember(w: Sample, r: Recommendation)
    ensures r in Selected(w) <==> 0 <= RuleRank(r) < 10 && RuleAt(w, RuleRank(r)).fires &&
                                  RuleAt(w, RuleRank(r)).entry == r
  {
    SelectedIsTable(w);
    var rs := ChemicalRules(w);
    forall i | 0 <= i < 10 ensures RuleRank(rs[i].entry) == i { }
    FiredMember(rs, r);
  }

  /** Exactly one disinfectant is chosen: UV when turbidity is below 1 NTU, Chlorine otherwise. */
  lemma ExactlyOneDisinfectant(w: Sample)
    ensures CountChemical(Selected(w), UV) + CountChemical(Selected(w), Chlorine) == 1
    ensures UvDisinfection in Selected(w) <==> w.turbidity < 1.0
    ensures ChlorineDisinfection in Selected(w) <==> !(w.turbidity < 1.0)
  {
    SelectedMember(w, UvDisinfection);
    SelectedMember(w, ChlorineDisinfection);
    UvCount(w);
    ChlorineCount(w);
  }

  /** No rule before the disinfection rules names a disinfectant. */
  lemma {:induction false} NoDisinfectantBefore(w: Sample, k: nat, chemical: Chemical)
    requires k <= 8
    requires chemical == UV || chemical == Chlorine
    ensures CountChemical(SelectedUpTo(w, k), chemical) == 0
  {
    if k > 0 {
      NoDisinfectantBefore(w, k - 1, chemical);
      CountStep(w, k - 1, chemical);
    }
  }

  /** UV is named once when turbidity is below 1 NTU and never otherwise. */
  lemma UvCount(w: Sample)
    ensures CountChemical(Selected(w), UV) == if w.turbidity < 1.0 then 1 else 0
  {
    SelectedShape(w);
    NoDisinfectantBefore(w, 8, UV);
    CountChemicalAppend(SelectedUpTo(w, 8), [if w.turbidity < 1.0 then UvDisinfection else ChlorineDisinfection], UV);
  }

  /** Chlorine is named once when turbidity is at least 1 NTU and never otherwise. */
  lemma ChlorineCount(w: Sample)
    ensures CountChemical(Selected(w), Chlorine) == if w.turbidity < 1.0 then 0 else 1
  {
    SelectedShape(w);
    NoDisinfectantBefore(w, 8, Chlorine);
    CountChemicalAppend(SelectedUpTo(w, 8), [if w.turbidity < 1.0 then UvDisinfection else ChlorineDisinfection], Chlorine);
  }

  /** At most one turbidity coagulant: PAC above 100 NTU, otherwise Alum in (20, 100]. */
  lemma AtMostOneCoagulant(w: Sample)
    ensures PacHighTurbidity in Selected(w) <==> w.turbidity > 100.0
    ensures AlumModerateTurbidity in Selected(w) <==> 20.0 < w.turbidity <= 100.0
    ensures !(PacHighTurbidity in Selected(w) && AlumModerateTurbidity in Selected(w))
  {
    SelectedMember(w, PacHighTurbidity);
    SelectedMember(w, AlumModerateTurbidity);
  }

  /** PAC is recommended twice (high turbidity and low pH) when both hold: no deduplication. */
  lemma PacListedTwice(w: Sample)
    requires w.turbidity > 100.0 && w.pH < 6.0
    ensures CountChemical(Selected(w), PAC) == 2
  {
    CountByRule(w, PAC);
  }

  /** DAP is only recommended together with Urea. */
  lemma DapImpliesUrea(w: Sample)
    ensures DapNutrient in Selected(w) ==> UreaNutrient in Selected(w)
  {
    SelectedMember(w, DapNutrient);
    SelectedMember(w, UreaNutrient);
  }

  /** UV implies Polymer (both need clear water), and Polymer never comes with Alum. */
  lemma UvImpliesPolymer(w: Sample)
    ensures UvDisinfection in Selected(w) ==> PolymerBridging in Selected(w)
    ensures !(PolymerBridging in Selected(w) && AlumModerateTurbidity in Selected(w))
  {
    SelectedMember(w, UvDisinfection);
    SelectedMember(w, PolymerBridging);
    SelectedMember(w, AlumModerateTurbidity);
  }

  /** Position of a recommendation in the rule order (-1 for none of them). */
  function RuleRank(r: Recommendation): int
  {
    if r == PacHighTurbidity then 0
    else if r == AlumModerateTurbidity then 1
    else if r == PacLowPh then 2
    else if r == FerricForTds then 3
    else if r == PolymerBridging then 4
    else if r == LimeForMetals then 5
    else if r == UreaNutrient then 6
    else if r == DapNutrient then 7
    else if r == UvDisinfection then 8
    else if r == ChlorineDisinfection then 9
    else -1
  }

  /** Entries appear in rule order: coagulant, low-pH PAC, Ferric Chloride, Polymer,
      Lime + Sulfide, Urea, DAP, disinfectant. */
  lemma SelectedInRuleOrder(w: Sample)
    ensures forall i, j :: 0 <= i < j < |Selected(w)| ==> RuleRank(Selected(w)[i]) < RuleRank(Selected(w)[j])
  {
    SelectedIsTable(w);
    var rs := ChemicalRules(w);
    forall i | 0 <= i < 10 ensures RuleRank(rs[i].entry) == i { }
    FiredOrdered(rs, RuleRank);
  }
}
