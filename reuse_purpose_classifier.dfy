/** The reuse-purpose classifier: a stable partition of a ten-entry limit table
    into the purposes the treated effluent meets and those it does not. */
module ReusePurposeClassifier {
  import opened Common

  /** Upper limits on final turbidity (NTU), BOD and total nitrogen (mg/L). */
  datatype Limits = Limits(turbidity: real, bod: real, tn: real)

  /** One reuse purpose of the table; allowed entries are reported with these same fields. */
  datatype Purpose = Purpose(name: string, limits: Limits, useCase: string)

  /** For each parameter, the measured value when it exceeds the limit, null otherwise. */
  datatype Failures = Failures(turbidity: Option<real>, bod: Option<real>, tn: Option<real>)

  /** A purpose the water does not meet, with the values that broke its limits. */
  datatype Rejection = Rejection(name: string, useCase: string, limits: Limits, failures: Failures)

  datatype Classification = Classification(allowed: seq<Purpose>, notAllowed: seq<Rejection>)

  /** The limit table, from the strictest purpose to the most lenient. */
  const Purposes: seq<Purpose> := [
    Purpose("Indirect Potable Reuse (Advanced)", Limits(1.0, 3.0, 5.0), "Blending with raw water source"),
    Purpose("Groundwater Recharge", Limits(5.0, 5.0, 10.0), "Recharge wells, aquifers"),
    Purpose("River / Surface Discharge", Limits(5.0, 10.0, 10.0), "Discharge into rivers/lakes"),
    Purpose("Industrial Process Water", Limits(5.0, 10.0, 10.0), "Manufacturing, washing, cooling"),
    Purpose("Cooling Tower Make-up", Limits(5.0, 10.0, 10.0), "Power plants, HVAC systems"),
    Purpose("Toilet Flushing", Limits(10.0, 10.0, 10.0), "Residential & commercial toilets"),
    Purpose("Gardening / Landscaping", Limits(10.0, 10.0, 10.0), "Parks, lawns, plantations"),
    Purpose("Firefighting Storage", Limits(10.0, 20.0, 15.0), "Emergency fire water tanks"),
    Purpose("Construction Use", Limits(10.0, 20.0, 15.0), "Concrete mixing, curing"),
    Purpose("Road Washing / Dust Control", Limits(10.0, 20.0, 15.0), "Streets, highways, dust suppression")
  ]

  /** The water meets a purpose when every parameter is at or below its limit. */
  predicate Meets(p: Purpose, turbidity: real, bod: real, tn: real)
  {
    turbidity <= p.limits.turbidity && bod <= p.limits.bod && tn <= p.limits.tn
  }

  /** The failure record of a purpose: which measured values exceed which limits. */
  function FailuresOf(p: Purpose, turbidity: real, bod: real, tn: real): (f: Failures)
    ensures f.turbidity.Some? <==> turbidity > p.limits.turbidity
    ensures f.bod.Some? <==> bod > p.limits.bod
    ensures f.tn.Some? <==> tn > p.limits.tn
    ensures f.turbidity.Some? ==> f.turbidity.value == turbidity
    ensures f.bod.Some? ==> f.bod.value == bod
    ensures f.tn.Some? ==> f.tn.value == tn
    ensures !Meets(p, turbidity, bod, tn) <==> (f.turbidity.Some? || f.bod.Some? || f.tn.Some?)
  {
    Failures(
      if turbidity > p.limits.turbidity then Some(turbidity) else None,
      if bod > p.limits.bod then Some(bod) else None,
      if tn > p.limits.tn then Some(tn) else None)
  }

  function Reject(p: Purpose, turbidity: real, bod: real, tn: real): Rejection
  {
    Rejection(p.name, p.useCase, p.limits, FailuresOf(p, turbidity, bod, tn))
  }

  /** The purposes of `ps` the water meets, in table order. */
  function AllowedOf(ps: seq<Purpose>, turbidity: real, bod: real, tn: real): seq<Purpose>
  {
    if ps == [] then []
    else
      var last := ps[|ps| - 1];
      AllowedOf(ps[..|ps| - 1], turbidity, bod, tn) + (if Meets(last, turbidity, bod, tn) then [last] else [])
  }

  /** The rejections for the purposes of `ps` the water does not meet, in table order. */
  function NotAllowedOf(ps: seq<Purpose>, turbidity: real, bod: real, tn: real): seq<Rejection>
  {
    if ps == [] then []
    else
      var last := ps[|ps| - 1];
      NotAllowedOf(ps[..|ps| - 1], turbidity, bod, tn) +
        (if Meets(last, turbidity, bod, tn) then [] else [Reject(last, turbidity, bod, tn)])
  }

  /** The rejections of every purpose of `ps`, in order. */
  function RejectAll(ps: seq<Purpose>, turbidity: real, bod: real, tn: real): (rs: seq<Rejection>)
    ensures |rs| == |ps|
    ensures forall i :: 0 <= i < |ps| ==> rs[i] == Reject(ps[i], turbidity, bod, tn)
  {
    if ps == [] then [] else RejectAll(ps[..|ps| - 1], turbidity, bod, tn) + [Reject(ps[|ps| - 1], turbidity, bod, tn)]
  }

  /** classifyReusePurposes: one pass over the table, each purpose pushed onto exactly one list. */
  method ClassifyReusePurposes(turbidity: real, bod: real, tn: real) returns (r: Classification)
    ensures r.allowed == AllowedOf(Purposes, turbidity, bod, tn)
    ensures r.notAllowed == NotAllowedOf(Purposes, turbidity, bod, tn)
  {
    var allowed: seq<Purpose> := [];
    var notAllowed: seq<Rejection> := [];
    var i := 0;
    while i < |Purposes|
      invariant 0 <= i <= |Purposes|
      invariant allowed == AllowedOf(Purposes[..i], turbidity, bod, tn)
      invariant notAllowed == NotAllowedOf(Purposes[..i], turbidity, bod, tn)
    {
      var purpose := Purposes[i];
      var meetsLimits := turbidity <= purpose.limits.turbidity && bod <= purpose.limits.bod && tn <= purpose.limits.tn;
      if meetsLimits {
        allowed := allowed + [purpose];
      } else {
        notAllowed := notAllowed + [Rejection(purpose.name, purpose.useCase, purpose.limits,
          Failures(
            if turbidity > purpose.limits.turbidity then Some(turbidity) else None,
            if bod > purpose.limits.bod then Some(bod) else None,
            if tn > purpose.limits.tn then Some(tn) else None))];
      }
      assert Purposes[..i + 1][..i] == Purposes[..i];
      i := i + 1;
    }
    assert Purposes[..|Purposes|] == Purposes;
    r := Classification(allowed, notAllowed);
  }

  /** Every purpose lands in exactly one of the two lists. */
  lemma {:induction false} PartitionSizes(ps: seq<Purpose>, turbidity: real, bod: real, tn: real)
    ensures |AllowedOf(ps, turbidity, bod, tn)| + |NotAllowedOf(ps, turbidity, bod, tn)| == |ps|
  {
    if ps != [] {
      PartitionSizes(ps[..|ps| - 1], turbidity, bod, tn);
    }
  }

  /** A purpose is allowed exactly when it is in the table and its limits are met (inclusively). */
  lemma {:induction false} AllowedMember(ps: seq<Purpose>, turbidity: real, bod: real, tn: real, p: Purpose)
    ensures p in AllowedOf(ps, turbidity, bod, tn) <==> p in ps && Meets(p, turbidity, bod, tn)
  {
    if ps != [] {
      var init := ps[..|ps| - 1];
      AllowedMember(init, turbidity, bod, tn, p);
      assert ps == init + [ps[|ps| - 1]];
    }
  }

  /** Every rejection carries at least one failure, and it belongs to a table entry the water does not meet. */
  lemma {:induction false} RejectionsExplained(ps: seq<Purpose>, turbidity: real, bod: real, tn: real, x: Rejection)
    requires x in NotAllowedOf(ps, turbidity, bod, tn)
    ensures x.failures.turbidity.Some? || x.failures.bod.Some? || x.failures.tn.Some?
    ensures exists p :: p in ps && !Meets(p, turbidity, bod, tn) && x == Reject(p, turbidity, bod, tn)
  {
    var init := ps[..|ps| - 1];
    var last := ps[|ps| - 1];
    if x in NotAllowedOf(init, turbidity, bod, tn) {
      RejectionsExplained(init, turbidity, bod, tn, x);
      var p :| p in init && !Meets(p, turbidity, bod, tn) && x == Reject(p, turbidity, bod, tn);
      assert p in ps;
    } else {
      assert last in ps;
    }
  }

  /** Limits never decrease down a table. */
  predicate LimitsNonDecreasing(ps: seq<Purpose>)
  {
    forall i, j :: 0 <= i <= j < |ps| ==>
      ps[i].limits.turbidity <= ps[j].limits.turbidity &&
      ps[i].limits.bod <= ps[j].limits.bod &&
      ps[i].limits.tn <= ps[j].limits.tn
  }

  /** One instance of LimitsNonDecreasing. */
  lemma LimitsAt(ps: seq<Purpose>, i: nat, j: nat)
    requires LimitsNonDecreasing(ps) && i <= j < |ps|
    ensures ps[i].limits.turbidity <= ps[j].limits.turbidity
    ensures ps[i].limits.bod <= ps[j].limits.bod
    ensures ps[i].limits.tn <= ps[j].limits.tn
  {
  }

  /** The table's limits never decrease from one purpose to the next. */
  lemma PurposesLimitsNonDecreasing()
    ensures LimitsNonDecreasing(Purposes)
  {
  }

  /** Dropping the last purpose keeps the limits non-decreasing. */
  lemma NonDecreasingInit(ps: seq<Purpose>)
    requires ps != [] && LimitsNonDecreasing(ps)
    ensures LimitsNonDecreasing(ps[..|ps| - 1])
  {
    var init := ps[..|ps| - 1];
    forall i, j | 0 <= i <= j < |init|
      ensures init[i].limits.turbidity <= init[j].limits.turbidity &&
              init[i].limits.bod <= init[j].limits.bod && init[i].limits.tn <= init[j].limits.tn
    {
      assert init[i] == ps[i] && init[j] == ps[j];
    }
  }

  /** With non-decreasing limits, the allowed purposes are a suffix of the table and the
      rejected ones the complementary prefix, both in table order. */
  lemma {:induction false} AllowedIsSuffix(ps: seq<Purpose>, turbidity: real, bod: real, tn: real)
    requires LimitsNonDecreasing(ps)
    ensures var k := |NotAllowedOf(ps, turbidity, bod, tn)|;
      k <= |ps| &&
      AllowedOf(ps, turbidity, bod, tn) == ps[k..] &&
      NotAllowedOf(ps, turbidity, bod, tn) == RejectAll(ps[..k], turbidity, bod, tn)
  {
    if ps != [] {
      var init := ps[..|ps| - 1];
      var last := ps[|ps| - 1];
      NonDecreasingInit(ps);
      AllowedIsSuffix(init, turbidity, bod, tn);
      if Meets(last, turbidity, bod, tn) {
        SuffixGrows(ps, turbidity, bod, tn);
      } else {
        assert ps == init + [last];
        NoneMet(init, turbidity, bod, tn, last);
        PartitionSizes(init, turbidity, bod, tn);
        assert NotAllowedOf(ps, turbidity, bod, tn) == RejectAll(ps, turbidity, bod, tn);
      }
    }
  }

  /** The step of AllowedIsSuffix when the last purpose is met. */
  lemma SuffixGrows(ps: seq<Purpose>, turbidity: real, bod: real, tn: real)
    requires ps != [] && Meets(ps[|ps| - 1], turbidity, bod, tn)
    requires var init := ps[..|ps| - 1];
      var k := |NotAllowedOf(init, turbidity, bod, tn)|;
      k <= |init| &&
      AllowedOf(init, turbidity, bod, tn) == init[k..] &&
      NotAllowedOf(init, turbidity, bod, tn) == RejectAll(init[..k], turbidity, bod, tn)
    ensures var k := |NotAllowedOf(ps, turbidity, bod, tn)|;
      k <= |ps| &&
      AllowedOf(ps, turbidity, bod, tn) == ps[k..] &&
      NotAllowedOf(ps, turbidity, bod, tn) == RejectAll(ps[..k], turbidity, bod, tn)
  {
    var init := ps[..|ps| - 1];
    var k := |NotAllowedOf(init, turbidity, bod, tn)|;
    assert NotAllowedOf(ps, turbidity, bod, tn) == NotAllowedOf(init, turbidity, bod, tn);
    assert ps[k..] == init[k..] + [ps[|ps| - 1]];
    assert ps[..k] == init[..k];
  }

  /** Below a purpose the water does not meet, with non-decreasing limits, nothing is met:
      every entry of `init` is rejected. */
  lemma {:induction false} NoneMet(init: seq<Purpose>, turbidity: real, bod: real, tn: real, last: Purpose)
    requires LimitsNonDecreasing(init + [last])
    requires !Meets(last, turbidity, bod, tn)
    ensures |NotAllowedOf(init, turbidity, bod, tn)| == |init|
  {
    PartitionSizes(init, turbidity, bod, tn);
    if AllowedOf(init, turbidity, bod, tn) != [] {
      var p := AllowedOf(init, turbidity, bod, tn)[0];
      AllowedMember(init, turbidity, bod, tn, p);
      var i :| 0 <= i < |init| && init[i] == p;
      LimitsAt(init + [last], i, |init|);
      assert false;
    }
  }

  /** When the water meets every purpose of `ps`, all are allowed and none rejected. */
  lemma {:induction false} AllMet(ps: seq<Purpose>, turbidity: real, bod: real, tn: real)
    requires forall i :: 0 <= i < |ps| ==> Meets(ps[i], turbidity, bod, tn)
    ensures AllowedOf(ps, turbidity, bod, tn) == ps
    ensures NotAllowedOf(ps, turbidity, bod, tn) == []
  {
    if ps != [] {
      AllMet(ps[..|ps| - 1], turbidity, bod, tn);
    }
  }

  /** When the water meets no purpose of `ps`, none is allowed and each is rejected in order. */
  lemma {:induction false} NoneMetAtAll(ps: seq<Purpose>, turbidity: real, bod: real, tn: real)
    requires forall i :: 0 <= i < |ps| ==> !Meets(ps[i], turbidity, bod, tn)
    ensures AllowedOf(ps, turbidity, bod, tn) == []
    ensures NotAllowedOf(ps, turbidity, bod, tn) == RejectAll(ps, turbidity, bod, tn)
  {
    if ps != [] {
      NoneMetAtAll(ps[..|ps| - 1], turbidity, bod, tn);
    }
  }

  /** For the table itself: the allowed purposes are always its last entries and the rejected
      ones its first entries, and the two lists together hold all ten purposes. */
  lemma TableSplitsIntoPrefixAndSuffix(turbidity: real, bod: real, tn: real)
    ensures var k := |NotAllowedOf(Purposes, turbidity, bod, tn)|;
      k <= 10 &&
      AllowedOf(Purposes, turbidity, bod, tn) == Purposes[k..] &&
      NotAllowedOf(Purposes, turbidity, bod, tn) == RejectAll(Purposes[..k], turbidity, bod, tn)
  {
    PurposesLimitsNonDecreasing();
    AllowedIsSuffix(Purposes, turbidity, bod, tn);
  }

  /** Very clean effluent (0.8 NTU, 2 mg/L BOD, 4 mg/L TN) is fit for all ten purposes. */
  lemma CleanEffluentExample(turbidity: real, bod: real, tn: real)
    requires turbidity == 0.8 && bod == 2.0 && tn == 4.0
    ensures AllowedOf(Purposes, turbidity, bod, tn) == Purposes
    ensures NotAllowedOf(Purposes, turbidity, bod, tn) == []
  {
    PurposesLimitsNonDecreasing();
    AllMet(Purposes, turbidity, bod, tn);
  }

  /** Poor effluent (15 NTU, 25 mg/L BOD, 20 mg/L TN) is fit for none, and every failure
      record names all three parameters. */
  lemma PoorEffluentExample(turbidity: real, bod: real, tn: real)
    requires turbidity == 15.0 && bod == 25.0 && tn == 20.0
    ensures AllowedOf(Purposes, turbidity, bod, tn) == []
    ensures NotAllowedOf(Purposes, turbidity, bod, tn) == RejectAll(Purposes, turbidity, bod, tn)
    ensures forall i :: 0 <= i < |Purposes| ==>
              NotAllowedOf(Purposes, turbidity, bod, tn)[i].failures == Failures(Some(15.0), Some(25.0), Some(20.0))
  {
    PurposesLimitsNonDecreasing();
    NoneMetAtAll(Purposes, turbidity, bod, tn);
  }
}
