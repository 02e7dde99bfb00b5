/** The equipment selector: a three-stage plan (primary, secondary, tertiary)
    whose lists are grown by independent threshold rules. */
module EquipmentLogic {
  import opened Common
  import opened Quality

  /** The units the selector can name; Name() is the string the source uses. */
  datatype Equipment =
    | BarScreen | CoarseScreen | PrecipitationUnit | FlashMixer
    | HighStrengthReactor | AerationTank
    | ReverseOsmosis | NanoFiltration | AdvancedOxidation | CarbonFilter
  {
    function Name(): string
    {
      match this
      case BarScreen => "Bar Screen + Fine Mechanical Screen"
      case CoarseScreen => "Coarse Screen"
      case PrecipitationUnit => "Chemical Precipitation Unit"
      case FlashMixer => "Coagulation + Flocculation with Flash Mixer"
      case HighStrengthReactor => "High-Strength Biological Reactor (MBR/SBR)"
      case AerationTank => "Aeration Tank + Blowers"
      case ReverseOsmosis => "RO (Reverse Osmosis)"
      case NanoFiltration => "Nano-filtration"
      case AdvancedOxidation => "Advanced Oxidation (UV + H2O2 / Ozone)"
      case CarbonFilter => "Activated Carbon Filter"
    }
  }

  /** The three lists of the returned equipment object. */
  datatype Plan = Plan(primary: seq<Equipment>, secondary: seq<Equipment>, tertiary: seq<Equipment>)

  /** Primary-stage rules in source order (the if/else appears as two complementary rules). */
  function PrimaryRules(w: Sample): seq<Rule<Equipment>>
  {
    [ Rule(w.turbidity > 100.0, BarScreen),
      Rule(!(w.turbidity > 100.0), CoarseScreen),
      Rule(w.heavyMetals, PrecipitationUnit),
      Rule(w.cod > 300.0, FlashMixer) ]
  }

  /** Secondary-stage rules in source order. */
  function SecondaryRules(w: Sample): seq<Rule<Equipment>>
  {
    [ Rule(w.bod > 80.0 || w.cod > 400.0, HighStrengthReactor),
      Rule(w.bod > 30.0, AerationTank) ]
  }

  /** Tertiary-stage rules in source order; the carbon filter is unconditional. */
  function TertiaryRules(w: Sample): seq<Rule<Equipment>>
  {
    [ Rule(w.tds > 5000.0, ReverseOsmosis),
      Rule(!(w.tds > 5000.0) && w.tds > 1500.0, NanoFiltration),
      Rule(w.cod > 250.0, AdvancedOxidation),
      Rule(true, CarbonFilter) ]
  }

  /** The plan the rule tables select for w. */
  function Planned(w: Sample): Plan
  {
    Plan(Fired(PrimaryRules(w)), Fired(SecondaryRules(w)), Fired(TertiaryRules(w)))
  }

  /** The entries of a four-rule table, one rule at a time. */
  lemma FiredFour<T>(rs: seq<Rule<T>>)
    requires |rs| == 4
    ensures Fired(rs) == Contribution(rs[0]) + Contribution(rs[1]) + Contribution(rs[2]) + Contribution(rs[3])
  {
    FiredFrom(rs, 0); FiredFrom(rs, 1); FiredFrom(rs, 2); FiredFrom(rs, 3);
    assert rs[0..] == rs;
    assert rs[4..] == [];
  }

  /** The entries of a two-rule table, one rule at a time. */
  lemma FiredTwo<T>(rs: seq<Rule<T>>)
    requires |rs| == 2
    ensures Fired(rs) == Contribution(rs[0]) + Contribution(rs[1])
  {
    FiredFrom(rs, 0); FiredFrom(rs, 1);
    assert rs[0..] == rs;
    assert rs[2..] == [];
  }

  /** equipmentSelectionLogic: pushes onto the three lists rule by rule. */
  method EquipmentSelectionLogic(w: Sample) returns (equipment: Plan)
    ensures equipment == Planned(w)
  {
    var primary: seq<Equipment> := [];
    var secondary: seq<Equipment> := [];
    var tertiary: seq<Equipment> := [];
    ghost var p := PrimaryRules(w);
    ghost var q := SecondaryRules(w);
    ghost var t := TertiaryRules(w);
    FiredFour(p);
    FiredTwo(q);
    FiredFour(t);

    if w.turbidity > 100.0 {
      primary := primary + [BarScreen];
    } else {
      primary := primary + [CoarseScreen];
    }
    assert primary == Contribution(p[0]) + Contribution(p[1]);
    if w.heavyMetals {
      primary := primary + [PrecipitationUnit];
    }
    assert primary == Contribution(p[0]) + Contribution(p[1]) + Contribution(p[2]);
    if w.cod > 300.0 {
      primary := primary + [FlashMixer];
    }
    assert primary == Fired(p);

    if w.bod > 80.0 || w.cod > 400.0 {
      secondary := secondary + [HighStrengthReactor];
    }
    assert secondary == Contribution(q[0]);
    if w.bod > 30.0 {
      secondary := secondary + [AerationTank];
    }
    assert secondary == Fired(q);

    if w.tds > 5000.0 {
      tertiary := tertiary + [ReverseOsmosis];
    } else if w.tds > 1500.0 {
      tertiary := tertiary + [NanoFiltration];
    }
    assert tertiary == Contribution(t[0]) + Contribution(t[1]);
    if w.cod > 250.0 {
      tertiary := tertiary + [AdvancedOxidation];
    }
    assert tertiary == Contribution(t[0]) + Contribution(t[1]) + Contribution(t[2]);
    tertiary := tertiary + [CarbonFilter];
    assert tertiary == Fired(t);

    equipment := Plan(primary, secondary, tertiary);
  }

  /** The primary stage opens with the bar screen above 100 NTU and the coarse screen otherwise. */
  lemma PrimaryStartsWithScreen(w: Sample)
    ensures |Planned(w).primary| >= 1
    ensures Planned(w).primary[0] == if w.turbidity > 100.0 then BarScreen else CoarseScreen
  {
    FiredFour(PrimaryRules(w));
  }

  /** The tertiary stage always ends with the activated carbon filter. */
  lemma TertiaryEndsWithCarbon(w: Sample)
    ensures |Planned(w).tertiary| >= 1
    ensures Planned(w).tertiary[|Planned(w).tertiary| - 1] == CarbonFilter
  {
    FiredFour(TertiaryRules(w));
  }

  /** RO exactly above 5000 mg/L TDS, nano-filtration exactly in (1500, 5000], never both. */
  lemma OneMembraneAtMost(w: Sample)
    ensures ReverseOsmosis in Planned(w).tertiary <==> w.tds > 5000.0
    ensures NanoFiltration in Planned(w).tertiary <==> 1500.0 < w.tds <= 5000.0
    ensures !(ReverseOsmosis in Planned(w).tertiary && NanoFiltration in Planned(w).tertiary)
  {
    FiredFour(TertiaryRules(w));
  }

  /** Stage sizes: primary 1 to 3 units, secondary at most 2, tertiary 1 to 3. */
  lemma StageSizes(w: Sample)
    ensures 1 <= |Planned(w).primary| <= 3
    ensures |Planned(w).secondary| <= 2
    ensures 1 <= |Planned(w).tertiary| <= 3
  {
    FiredFour(PrimaryRules(w));
    FiredFour(TertiaryRules(w));
  }

  /** BOD above 80 mg/L needs both secondary units; BOD at most 30 and COD at most 400 need none. */
  lemma SecondaryByLoad(w: Sample)
    ensures w.bod > 80.0 ==> Planned(w).secondary == [HighStrengthReactor, AerationTank]
    ensures w.bod <= 30.0 && w.cod <= 400.0 ==> Planned(w).secondary == []
  {
    FiredTwo(SecondaryRules(w));
  }

  /** The flash mixer (COD above 300) always comes with advanced oxidation (COD above 250). */
  lemma FlashMixerImpliesOxidation(w: Sample)
    ensures FlashMixer in Planned(w).primary ==> AdvancedOxidation in Planned(w).tertiary
  {
    FiredFour(PrimaryRules(w));
    FiredFour(TertiaryRules(w));
  }

  /** The plan reads only TDS, turbidity, BOD, COD and the heavy-metals flag:
      temperature, pH and TN make no difference. */
  lemma IgnoresTemperatureAndPh(w1: Sample, w2: Sample)
    requires w1.tds == w2.tds && w1.turbidity == w2.turbidity && w1.bod == w2.bod
    requires w1.cod == w2.cod && w1.heavyMetals == w2.heavyMetals
    ensures Planned(w1) == Planned(w2)
  {
    assert PrimaryRules(w1) == PrimaryRules(w2);
    assert SecondaryRules(w1) == SecondaryRules(w2);
    assert TertiaryRules(w1) == TertiaryRules(w2);
  }
}
