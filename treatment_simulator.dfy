/** The treatment simulator: the influent's turbidity, BOD and total nitrogen pass through
    the primary, secondary and tertiary stages, each removing a percentage of what is left. */
module TreatmentSimulator {
  import opened Common

  /** The influent form; temperature and the heavy-metals flag may be missing (null). */
  datatype Influent = Influent(
    pH: real, tds: real, turbidity: real, bod: real, cod: real, tn: real,
    temperature: Option<real>, heavyMetals: Option<bool>,
    flow: real, totalVolume: real, reusePurpose: string)

  /** The three tracked parameters, unrounded. */
  datatype Load = Load(turbidity: real, bod: real, tn: real)

  /** Removal percentages of one stage. */
  datatype Efficiency = Efficiency(turbidity: real, bod: real, tn: real)

  datatype StageEfficiencies = StageEfficiencies(primary: Efficiency, secondary: Efficiency, tertiary: Efficiency)

  /** One row of the results table, rounded the way Math.round rounds. */
  datatype ResultRow = ResultRow(stageLabel: string, turbidity: int, bod: int, tn: int)

  const StageNames: seq<string> := ["primary", "secondary", "tertiary"]

  /** The form's initial efficiencies. */
  const DefaultEfficiencies := StageEfficiencies(
    Efficiency(60.0, 30.0, 5.0), Efficiency(20.0, 70.0, 40.0), Efficiency(90.0, 90.0, 80.0))

  /** `eff[stage]` for the stage at position k of the stage order. */
  function StageAt(eff: StageEfficiencies, k: nat): Efficiency
    requires k < 3
  {
    match k
    case 0 => eff.primary
    case 1 => eff.secondary
    case _ => eff.tertiary
  }

  /** Every removal percentage lies in the slider range 0..100. */
  predicate InRange(e: Efficiency)
  {
    0.0 <= e.turbidity <= 100.0 && 0.0 <= e.bod <= 100.0 && 0.0 <= e.tn <= 100.0
  }

  predicate AllInRange(eff: StageEfficiencies)
  {
    InRange(eff.primary) && InRange(eff.secondary) && InRange(eff.tertiary)
  }

  predicate NonNegative(x: Load)
  {
    x.turbidity >= 0.0 && x.bod >= 0.0 && x.tn >= 0.0
  }

  /** One stage: each parameter keeps (1 - removal/100) of its previous value. */
  function ApplyStage(x: Load, e: Efficiency): Load
  {
    Load(x.turbidity * (1.0 - e.turbidity / 100.0), x.bod * (1.0 - e.bod / 100.0), x.tn * (1.0 - e.tn / 100.0))
  }

  /** The fraction of each parameter the first k stages keep: the product of their (1 - removal/100). */
  function KeptAfter(eff: StageEfficiencies, k: nat): (f: Load)
    requires k <= 3
  {
    if k == 0 then Load(1.0, 1.0, 1.0)
    else
      var f, e := KeptAfter(eff, k - 1), StageAt(eff, k - 1);
      Load(f.turbidity * (1.0 - e.turbidity / 100.0), f.bod * (1.0 - e.bod / 100.0), f.tn * (1.0 - e.tn / 100.0))
  }

  /** The unrounded load after the first k stages: the influent scaled by the fraction those stages keep. */
  function LoadAfter(x: Load, eff: StageEfficiencies, k: nat): (r: Load)
    requires k <= 3
    ensures var f := KeptAfter(eff, k);
      r == Load(x.turbidity * f.turbidity, x.bod * f.bod, x.tn * f.tn)
  {
    if k == 0 then x
    else
      var y, e, f := LoadAfter(x, eff, k - 1), StageAt(eff, k - 1), KeptAfter(eff, k - 1);
      MulAssoc(x.turbidity, f.turbidity, 1.0 - e.turbidity / 100.0);
      MulAssoc(x.bod, f.bod, 1.0 - e.bod / 100.0);
      MulAssoc(x.tn, f.tn, 1.0 - e.tn / 100.0);
      ApplyStage(y, e)
  }

  lemma MulAssoc(a: real, b: real, c: real)
    ensures (a * b) * c == a * (b * c)
  {
  }

  /** `charAt(0).toUpperCase() + slice(1)`: only the case of the first letter may change, and it is
      not left lower-case. */
  function Capitalize(s: string): (r: string)
    ensures |r| == |s|
    ensures forall i :: 0 <= i < |s| ==> ToLower(r[i]) == ToLower(s[i])
    ensures s != [] ==> !IsLower(r[0]) && r[1..] == s[1..]
  {
    if s == [] then [] else LowerOfUpper(s[0]); [ToUpper(s[0])] + s[1..]
  }

  /** The label of row k: the influent, then each stage name capitalised. */
  function RowLabel(k: nat): string
    requires k <= 3
  {
    if k == 0 then "Influent" else Capitalize(StageNames[k - 1])
  }

  /** The four rows are labelled Influent, Primary, Secondary and Tertiary, in that order. */
  lemma RowLabelsInOrder()
    ensures RowLabel(0) == "Influent" && RowLabel(1) == "Primary"
    ensures RowLabel(2) == "Secondary" && RowLabel(3) == "Tertiary"
  {
    assert Capitalize("primary") == "Primary";
    assert Capitalize("secondary") == "Secondary";
    assert Capitalize("tertiary") == "Tertiary";
  }

  function RowOf(name: string, x: Load): ResultRow
  {
    ResultRow(name, Round(x.turbidity), Round(x.bod), Round(x.tn))
  }

  function InfluentLoad(influent: Influent): Load
  {
    Load(influent.turbidity, influent.bod, influent.tn)
  }

  /** simulate: the influent row, then one row per stage in stage order, each rounding the
      unrounded load carried over from the previous stage. */
  method Simulate(influent: Influent, eff: StageEfficiencies) returns (results: seq<ResultRow>)
    ensures |results| == 4
    ensures forall k :: 0 <= k < 4 ==> results[k] == RowOf(RowLabel(k), LoadAfter(InfluentLoad(influent), eff, k))
  {
    var x := InfluentLoad(influent);
    var out := x;
    results := [RowOf("Influent", out)];
    var i := 0;
    while i < |StageNames|
      invariant 0 <= i <= 3
      invariant out == LoadAfter(x, eff, i)
      invariant results == ExpectedRows(x, eff, i + 1)
    {
      var stage := StageNames[i];
      var e := StageAt(eff, i);
      ghost var before := out;
      out := Load(out.turbidity * (1.0 - e.turbidity / 100.0),
                  out.bod * (1.0 - e.bod / 100.0),
                  out.tn * (1.0 - e.tn / 100.0));
      assert out == ApplyStage(before, e);
      assert Capitalize(stage) == RowLabel(i + 1);
      results := results + [RowOf(Capitalize(stage), out)];
      i := i + 1;
    }
    ExpectedRowsAt(x, eff, 4);
  }

  /** The first n rows of the results table: the influent row, then one row per stage. */
  function ExpectedRows(x: Load, eff: StageEfficiencies, n: nat): seq<ResultRow>
    requires n <= 4
  {
    if n == 0 then [] else ExpectedRows(x, eff, n - 1) + [RowOf(RowLabel(n - 1), LoadAfter(x, eff, n - 1))]
  }

  /** Row k of the first n rows is labelled as row k and rounds the load after k stages. */
  lemma {:induction false} ExpectedRowsAt(x: Load, eff: StageEfficiencies, n: nat)
    requires n <= 4
    ensures |ExpectedRows(x, eff, n)| == n
    ensures forall k :: 0 <= k < n ==> ExpectedRows(x, eff, n)[k] == RowOf(RowLabel(k), LoadAfter(x, eff, k))
  {
    if n > 0 {
      ExpectedRowsAt(x, eff, n - 1);
    }
  }

  /** preview: the last row of the simulation, i.e. the tertiary effluent. */
  method Preview(influent: Influent, eff: StageEfficiencies) returns (row: ResultRow)
    ensures row == RowOf("Tertiary", LoadAfter(InfluentLoad(influent), eff, 3))
  {
    var r := Simulate(influent, eff);
    row := r[|r| - 1];
    RowLabelsInOrder();
  }

  /** Within the slider range a stage never raises a non-negative value nor makes it negative. */
  lemma StageNonIncreasing(x: Load, e: Efficiency)
    requires NonNegative(x) && InRange(e)
    ensures var y := ApplyStage(x, e);
      NonNegative(y) && y.turbidity <= x.turbidity && y.bod <= x.bod && y.tn <= x.tn
  {
    var y := ApplyStage(x, e);
    MulFraction(x.turbidity, e.turbidity);
    MulFraction(x.bod, e.bod);
    MulFraction(x.tn, e.tn);
  }

  lemma MulFraction(v: real, p: real)
    requires v >= 0.0 && 0.0 <= p <= 100.0
    ensures 0.0 <= v * (1.0 - p / 100.0) <= v
  {
    var f := 1.0 - p / 100.0;
    assert 0.0 <= f <= 1.0;
    assert v * f <= v * 1.0;
  }

  /** With efficiencies in range and a non-negative influent, no stage raises any parameter,
      and the rounded rows never rise either. */
  lemma {:induction false} LoadsNonIncreasing(x: Load, eff: StageEfficiencies, k: nat)
    requires NonNegative(x) && AllInRange(eff) && k < 3
    ensures NonNegative(LoadAfter(x, eff, k))
    ensures var a, b := LoadAfter(x, eff, k), LoadAfter(x, eff, k + 1);
      b.turbidity <= a.turbidity && b.bod <= a.bod && b.tn <= a.tn
    ensures var a, b := RowOf(RowLabel(k), LoadAfter(x, eff, k)), RowOf(RowLabel(k + 1), LoadAfter(x, eff, k + 1));
      b.turbidity <= a.turbidity && b.bod <= a.bod && b.tn <= a.tn
  {
    if k > 0 {
      LoadsNonIncreasing(x, eff, k - 1);
      StageNonIncreasing(LoadAfter(x, eff, k - 1), StageAt(eff, k - 1));
    }
    var a := LoadAfter(x, eff, k);
    StageNonIncreasing(a, StageAt(eff, k));
    var b := LoadAfter(x, eff, k + 1);
    RoundMonotone(b.turbidity, a.turbidity);
    RoundMonotone(b.bod, a.bod);
    RoundMonotone(b.tn, a.tn);
  }

  /** Zero removal in every stage carries the influent through unchanged. */
  lemma {:induction false} ZeroEfficiencyKeepsLoad(x: Load, eff: StageEfficiencies, k: nat)
    requires eff == StageEfficiencies(Efficiency(0.0, 0.0, 0.0), Efficiency(0.0, 0.0, 0.0), Efficiency(0.0, 0.0, 0.0))
    requires k <= 3
    ensures LoadAfter(x, eff, k) == x
  {
    if k > 0 {
      ZeroEfficiencyKeepsLoad(x, eff, k - 1);
    }
  }

  /** Full turbidity removal in stage j leaves zero turbidity in every later row. */
  lemma {:induction false} FullRemovalStaysRemoved(x: Load, eff: StageEfficiencies, j: nat, k: nat)
    requires j < k <= 3 && StageAt(eff, j).turbidity == 100.0
    ensures LoadAfter(x, eff, k).turbidity == 0.0
  {
    if k - 1 > j {
      FullRemovalStaysRemoved(x, eff, j, k - 1);
    }
  }

  /** Per stage and per parameter: 0 % removal keeps the value and 100 % removal leaves nothing. */
  lemma StageZeroAndFull(x: Load, e: Efficiency)
    ensures e.turbidity == 0.0 ==> ApplyStage(x, e).turbidity == x.turbidity
    ensures e.bod == 0.0 ==> ApplyStage(x, e).bod == x.bod
    ensures e.tn == 0.0 ==> ApplyStage(x, e).tn == x.tn
    ensures e.turbidity == 100.0 ==> ApplyStage(x, e).turbidity == 0.0
    ensures e.bod == 100.0 ==> ApplyStage(x, e).bod == 0.0
    ensures e.tn == 100.0 ==> ApplyStage(x, e).tn == 0.0
  {
  }

  /** Full BOD removal in stage j leaves zero BOD in every later row. */
  lemma {:induction false} FullBodRemovalStaysRemoved(x: Load, eff: StageEfficiencies, j: nat, k: nat)
    requires j < k <= 3 && StageAt(eff, j).bod == 100.0
    ensures LoadAfter(x, eff, k).bod == 0.0
  {
    if k - 1 > j {
      FullBodRemovalStaysRemoved(x, eff, j, k - 1);
    }
  }

  /** Full nitrogen removal in stage j leaves zero TN in every later row. */
  lemma {:induction false} FullTnRemovalStaysRemoved(x: Load, eff: StageEfficiencies, j: nat, k: nat)
    requires j < k <= 3 && StageAt(eff, j).tn == 100.0
    ensures LoadAfter(x, eff, k).tn == 0.0
  {
    if k - 1 > j {
      FullTnRemovalStaysRemoved(x, eff, j, k - 1);
    }
  }

  /** The default efficiencies take 120 NTU of influent turbidity down to about 4 NTU. */
  lemma DefaultTurbidityExample(x: Load)
    requires x.turbidity == 120.0
    ensures LoadAfter(x, DefaultEfficiencies, 3).turbidity == 3.84
  {
    assert LoadAfter(x, DefaultEfficiencies, 1).turbidity == 48.0;
    assert LoadAfter(x, DefaultEfficiencies, 2).turbidity == 38.4;
  }

  // ---- Request payload ----

  datatype HeavyMetals = HeavyMetals(present: bool)

  /** The water quality sent to the recommendation service (total nitrogen is not sent). */
  datatype QualityPayload = QualityPayload(
    pH: real, tds: real, bod: real, cod: real, turbidity: real, temperature: real, heavyMetals: HeavyMetals)

  /** The payload built in the simulate handler: temperature defaults to 25 and the heavy-metals
      flag to false when missing. */
  function PayloadOf(influent: Influent): (p: QualityPayload)
    ensures p.pH == influent.pH && p.tds == influent.tds && p.turbidity == influent.turbidity
    ensures p.bod == influent.bod && p.cod == influent.cod
    ensures influent.temperature.None? ==> p.temperature == 25.0
    ensures influent.temperature.Some? ==> p.temperature == influent.temperature.value
    ensures p.heavyMetals.present <==> influent.heavyMetals == Some(true)
  {
    QualityPayload(
      influent.pH, influent.tds, influent.bod, influent.cod, influent.turbidity,
      if influent.temperature.Some? then influent.temperature.value else 25.0,
      HeavyMetals(if influent.heavyMetals.Some? then influent.heavyMetals.value else false))
  }

  /** The payload depends only on the sent fields: total nitrogen, flow, volume and reuse purpose
      do not reach it. */
  lemma PayloadOmitsUnsentFields(a: Influent, b: Influent)
    requires a.pH == b.pH && a.tds == b.tds && a.bod == b.bod && a.cod == b.cod && a.turbidity == b.turbidity
    requires a.temperature == b.temperature && a.heavyMetals == b.heavyMetals
    ensures PayloadOf(a) == PayloadOf(b)
  {
  }
}
