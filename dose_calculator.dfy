/** The dose calculator: fixed threshold and linear formulas, rounded the way
    Math.round rounds. */
module DoseCalculator {
  import opened Common
  import opened Quality

  /** The returned dose object (mg/L, except the polymer and antiscalant flags-as-doses). */
  datatype Doses = Doses(alum: int, pac: int, polymer: int, chlorine: int, antiscalant: int, ozone: int)

  /** calculateDoses: alum and chlorine grow linearly, PAC only above 100 NTU, ozone only above
      250 mg/L COD; polymer and antiscalant are fixed doses switched by a threshold. */
  function CalculateDoses(w: Sample): (d: Doses)
    ensures d.polymer == 1 <==> w.turbidity < 10.0
    ensures d.polymer == 0 <==> !(w.turbidity < 10.0)
    ensures d.antiscalant == 4 <==> w.tds > 1500.0
    ensures d.antiscalant == 0 <==> !(w.tds > 1500.0)
    ensures w.turbidity <= 100.0 ==> d.pac == 0
    ensures w.cod <= 250.0 ==> d.ozone == 0
    ensures w.turbidity >= 0.0 && w.bod >= 0.0 && w.cod >= 0.0 ==>
              d.alum >= 0 && d.pac >= 0 && d.polymer >= 0 && d.chlorine >= 0 && d.antiscalant >= 0 && d.ozone >= 0
  {
    Doses(
      Round(w.turbidity * 0.3),
      Round(if w.turbidity > 100.0 then w.turbidity * 0.5 else 0.0),
      if w.turbidity < 10.0 then 1 else 0,
      Round(w.bod * 0.1),
      if w.tds > 1500.0 then 4 else 0,
      if w.cod > 250.0 then Round(w.cod * 0.2) else 0)
  }

  /** Each dose reads one input: alum, PAC and polymer the turbidity, chlorine the BOD,
      antiscalant the TDS and ozone the COD. */
  lemma EachDoseReadsOneInput(w1: Sample, w2: Sample)
    ensures w1.turbidity == w2.turbidity ==>
              CalculateDoses(w1).alum == CalculateDoses(w2).alum &&
              CalculateDoses(w1).pac == CalculateDoses(w2).pac &&
              CalculateDoses(w1).polymer == CalculateDoses(w2).polymer
    ensures w1.bod == w2.bod ==> CalculateDoses(w1).chlorine == CalculateDoses(w2).chlorine
    ensures w1.tds == w2.tds ==> CalculateDoses(w1).antiscalant == CalculateDoses(w2).antiscalant
    ensures w1.cod == w2.cod ==> CalculateDoses(w1).ozone == CalculateDoses(w2).ozone
  {
  }

  /** More turbidity never lowers the alum dose; more BOD never lowers the chlorine dose. */
  lemma {:induction false} DosesMonotone(w1: Sample, w2: Sample)
    ensures w1.turbidity <= w2.turbidity ==> CalculateDoses(w1).alum <= CalculateDoses(w2).alum
    ensures w1.bod <= w2.bod ==> CalculateDoses(w1).chlorine <= CalculateDoses(w2).chlorine
  {
    if w1.turbidity <= w2.turbidity {
      RoundMonotone(w1.turbidity * 0.3, w2.turbidity * 0.3);
    }
    if w1.bod <= w2.bod {
      RoundMonotone(w1.bod * 0.1, w2.bod * 0.1);
    }
  }

  /** 50 NTU with no BOD, COD or TDS needs 15 mg/L alum and nothing else. */
  lemma ModerateTurbidityExample(w: Sample)
    requires w.turbidity == 50.0 && w.cod == 0.0 && w.bod == 0.0 && w.tds == 0.0
    ensures CalculateDoses(w) == Doses(15, 0, 0, 0, 0, 0)
  {
    assert Round(15.0) == 15;
  }
}
