/** The process-flow diagram: a catalogue of five treatment trains and the choice of which
    ones to show for a classified water type. */
module ProcessFlowDiagram {
  import opened Common

  datatype TrainEntry = TrainEntry(id: int, name: string, subtitle: string, color: string, steps: seq<string>)

  /** The five treatment trains, in display order. */
  const Catalogue: seq<TrainEntry> := [
    TrainEntry(1, "Type 1 – Drinking / Potable Water", "High-quality polishing & disinfection",
      "from-blue-500 to-cyan-500",
      ["Screening", "Coagulation & Flocculation", "Sedimentation", "Filtration (Sand/Carbon)",
       "Activated Carbon Polishing", "Disinfection (UV/Chlorination)"]),
    TrainEntry(2, "Type 2 – Domestic / Grey Water", "Typical STP train for reuse",
      "from-green-500 to-emerald-500",
      ["Screening", "Oil & Grease Removal", "Equalization Tank", "Coagulation–Flocculation",
       "Primary Clarification", "Aeration (Biological Treatment)", "Secondary Clarifier",
       "Filtration", "Disinfection"]),
    TrainEntry(3, "Type 3 – Treated Wastewater (Recycle Grade)", "MBR-centric advanced treatment",
      "from-amber-500 to-orange-500",
      ["Screening", "Grit Chamber", "Equalization", "Biological Reactor", "Membrane Bioreactor (MBR)",
       "Activated Carbon Filter", "Disinfection"]),
    TrainEntry(4, "Type 4 – Industrial Effluent", "High TDS / heavy metal focus",
      "from-rose-500 to-pink-500",
      ["Screening", "Neutralization Tank", "Chemical Precipitation", "Heavy Metal Removal",
       "Filter Press", "Carbon Filter", "RO Treatment"]),
    TrainEntry(5, "Type 5 – High Organic Load Wastewater", "Anaerobic + aerobic combo",
      "from-violet-500 to-purple-500",
      ["Screening", "Anaerobic Reactor", "Biogas Handling", "Aeration Tank", "Secondary Clarifier",
       "Sludge Handling", "Tertiary Filtration"])
  ]

  /** Entry k carries id k + 1 and every train starts with screening. */
  lemma CatalogueWellFormed()
    ensures |Catalogue| == 5
    ensures forall k :: 0 <= k < 5 ==> Catalogue[k].id == k + 1
    ensures forall k :: 0 <= k < 5 ==> |Catalogue[k].steps| > 0 && Catalogue[k].steps[0] == "Screening"
  {
  }

  /** The selected water type. `id` stands for `String(id)`, the text the component matches on, so a
      numeric id such as 3 appears as "3"; it is None when missing and "" is the other falsy id.
      The label is not modelled: the component falls back to it only for a falsy id, which has
      already shown every train by then. */
  datatype Selection = Selection(id: Option<string>)

  /** The leading run of digits of s. */
  function DigitPrefix(s: string): (r: string)
    ensures |r| <= |s| && r == s[..|r|]
    ensures forall i :: 0 <= i < |r| ==> IsDigit(r[i])
    ensures |r| < |s| ==> !IsDigit(s[|r|])
  {
    if s != [] && IsDigit(s[0]) then [s[0]] + DigitPrefix(s[1..]) else []
  }

  /** The first match of /(\d+)/: the first maximal run of digits, None when s has no digit. */
  function FirstDigitRun(s: string): (r: Option<string>)
    ensures r.None? <==> forall i :: 0 <= i < |s| ==> !IsDigit(s[i])
    ensures r.Some? ==> r.value != [] && forall i :: 0 <= i < |r.value| ==> IsDigit(r.value[i])
  {
    if s == [] then None
    else if IsDigit(s[0]) then Some(DigitPrefix(s))
    else FirstDigitRun(s[1..])
  }

  /** parseInt of a run of decimal digits. */
  function DigitsValue(s: string): (n: nat)
    requires forall i :: 0 <= i < |s| ==> IsDigit(s[i])
    ensures s == [] ==> n == 0
    ensures |s| == 1 ==> n == s[0] as int - '0' as int
    ensures n < Pow10(|s|)
  {
    if s == [] then 0
    else
      assert IsDigit(s[|s| - 1]);
      DigitsValue(s[..|s| - 1]) * 10 + (s[|s| - 1] as int - '0' as int)
  }

  /** 10 to the power k. */
  function Pow10(k: nat): (p: nat)
    ensures p >= 1
  {
    if k == 0 then 1 else 10 * Pow10(k - 1)
  }

  /** Appending a digit multiplies the value so far by ten and adds the digit. */
  lemma DigitsValueAppend(s: string, c: char)
    requires forall i :: 0 <= i < |s| ==> IsDigit(s[i])
    requires IsDigit(c)
    ensures DigitsValue(s + [c]) == 10 * DigitsValue(s) + (c as int - '0' as int)
  {
    assert (s + [c])[..|s|] == s;
  }

  /** The type number named by an id, None when the id has no digits. */
  function TypeNumber(id: string): (n: Option<nat>)
    ensures n.None? <==> forall i :: 0 <= i < |id| ==> !IsDigit(id[i])
  {
    var m := FirstDigitRun(id);
    if m.None? then None else Some(DigitsValue(m.value))
  }

  /** The entries with the given id, in catalogue order (the filter). */
  function WithId(entries: seq<TrainEntry>, id: int): (r: seq<TrainEntry>)
    ensures |r| <= |entries|
    ensures forall e :: e in r <==> e in entries && e.id == id
  {
    if entries == [] then []
    else (if entries[0].id == id then [entries[0]] else []) + WithId(entries[1..], id)
  }

  /** getDisplayedWaterTypes: all trains without a selection; the train numbered by the id's first
      digit run when that number is 1..5; all trains otherwise. */
  function Displayed(waterType: Option<Selection>): (shown: seq<TrainEntry>)
    ensures shown == Catalogue || (|shown| == 1 && shown[0] in Catalogue)
  {
    if waterType.None? || waterType.value.id.None? || waterType.value.id.value == "" then Catalogue
    else
      var n := TypeNumber(waterType.value.id.value);
      if n.Some? && n.value != 0 && 1 <= n.value <= 5 then WithIdSingle(n.value); WithId(Catalogue, n.value)
      else Catalogue
  }

  /** `showingAllTypes`: the count of displayed trains equals the catalogue's, which happens exactly
      when the whole catalogue is displayed. */
  predicate ShowingAllTypes(waterType: Option<Selection>): (all: bool)
    ensures all <==> Displayed(waterType) == Catalogue
  {
    |Displayed(waterType)| == |Catalogue|
  }

  /** a is obtained from b by dropping elements, keeping the order of the rest. */
  predicate IsSubsequence<T(==)>(a: seq<T>, b: seq<T>)
    decreases |b|
  {
    if a == [] then true
    else if b == [] then false
    else if a[0] == b[0] then IsSubsequence(a[1..], b[1..])
    else IsSubsequence(a, b[1..])
  }

  lemma {:induction false} SubsequenceOfItself<T>(a: seq<T>)
    ensures IsSubsequence(a, a)
  {
    if a != [] {
      SubsequenceOfItself(a[1..]);
    }
  }

  /** Filtering keeps a sub-sequence. */
  lemma {:induction false} WithIdIsSubsequence(entries: seq<TrainEntry>, id: int)
    ensures IsSubsequence(WithId(entries, id), entries)
  {
    if entries != [] {
      WithIdIsSubsequence(entries[1..], id);
      var rest := WithId(entries[1..], id);
      if entries[0].id == id {
        assert WithId(entries, id) == [entries[0]] + rest;
        assert ([entries[0]] + rest)[1..] == rest;
      } else {
        assert WithId(entries, id) == rest;
        if rest != [] {
          assert rest[0] in rest;
          assert rest[0] != entries[0];
        }
      }
    }
  }

  /** The displayed trains are always a sub-sequence of the catalogue, in catalogue order. */
  lemma DisplayedIsSubsequence(waterType: Option<Selection>)
    ensures IsSubsequence(Displayed(waterType), Catalogue)
  {
    SubsequenceOfItself(Catalogue);
    var d := Displayed(waterType);
    if d != Catalogue {
      var n := TypeNumber(waterType.value.id.value);
      WithIdIsSubsequence(Catalogue, n.value);
    }
  }

  /** A selected number k in 1..5 shows exactly the one train with id k. */
  lemma SelectedNumberShowsOne(waterType: Option<Selection>, k: nat)
    requires waterType.Some? && waterType.value.id.Some? && waterType.value.id.value != ""
    requires TypeNumber(waterType.value.id.value) == Some(k) && 1 <= k <= 5
    ensures Displayed(waterType) == [Catalogue[k - 1]]
    ensures !ShowingAllTypes(waterType)
  {
    WithIdSingle(k);
  }

  /** Filtering for an id that only entry j carries leaves exactly that entry. */
  lemma {:induction false} WithIdUnique(entries: seq<TrainEntry>, id: int, j: nat)
    requires j < |entries|
    requires forall i :: 0 <= i < |entries| ==> (entries[i].id == id <==> i == j)
    ensures WithId(entries, id) == [entries[j]]
  {
    if j == 0 {
      WithIdNone(entries[1..], id);
    } else {
      forall i | 0 <= i < |entries[1..]| ensures entries[1..][i].id == id <==> i == j - 1 {
        assert entries[1..][i] == entries[i + 1];
      }
      WithIdUnique(entries[1..], id, j - 1);
      assert entries[1..][j - 1] == entries[j];
    }
  }

  /** Filtering for an id no entry carries leaves nothing. */
  lemma {:induction false} WithIdNone(entries: seq<TrainEntry>, id: int)
    requires forall i :: 0 <= i < |entries| ==> entries[i].id != id
    ensures WithId(entries, id) == []
  {
    if entries != [] {
      assert entries[0].id != id;
      forall i | 0 <= i < |entries[1..]| ensures entries[1..][i].id != id {
        assert entries[1..][i] == entries[i + 1];
      }
      WithIdNone(entries[1..], id);
    }
  }

  /** Each id 1..5 filters the catalogue down to its own entry. */
  lemma WithIdSingle(k: nat)
    requires 1 <= k <= 5
    ensures WithId(Catalogue, k) == [Catalogue[k - 1]]
  {
    CatalogueWellFormed();
    WithIdUnique(Catalogue, k, k - 1);
  }

  /** The first digit run starts at the first digit. */
  lemma {:induction false} FirstDigitRunAt(s: string, k: nat)
    requires k < |s| && IsDigit(s[k])
    requires forall i :: 0 <= i < k ==> !IsDigit(s[i])
    ensures FirstDigitRun(s) == Some(DigitPrefix(s[k..]))
  {
    if k > 0 {
      assert !IsDigit(s[0]);
      forall i | 0 <= i < k - 1 ensures !IsDigit(s[1..][i]) {
        assert s[1..][i] == s[i + 1];
      }
      FirstDigitRunAt(s[1..], k - 1);
      assert s[1..][k - 1..] == s[k..];
    }
  }

  /** No selection, a falsy id, an id without digits or a number outside 1..5 shows every train. */
  lemma UnmatchedShowsAll(waterType: Option<Selection>)
    requires waterType.None? || waterType.value.id.None? || waterType.value.id.value == "" ||
             TypeNumber(waterType.value.id.value).None? ||
             !(1 <= TypeNumber(waterType.value.id.value).value <= 5)
    ensures Displayed(waterType) == Catalogue
    ensures ShowingAllTypes(waterType)
  {
  }

  /** All five trains are shown exactly when the display is the whole catalogue; otherwise a single
      train is shown, so the heading's first entry exists. */
  lemma ShowingAllIffWholeCatalogue(waterType: Option<Selection>)
    ensures ShowingAllTypes(waterType) <==> Displayed(waterType) == Catalogue
    ensures !ShowingAllTypes(waterType) ==> |Displayed(waterType)| == 1
  {
    if Displayed(waterType) != Catalogue {
      var n := TypeNumber(waterType.value.id.value);
      WithIdSingle(n.value);
    }
  }

  /** "TYPE_12" names no catalogue entry, so every train is shown. */
  lemma TwoDigitTypeShowsAll(waterType: Option<Selection>)
    requires waterType == Some(Selection(Some("TYPE_12")))
    ensures ShowingAllTypes(waterType)
  {
    FirstDigitRunAt("TYPE_12", 5);
    assert "TYPE_12"[5..] == "12";
    assert DigitPrefix("12") == "12";
    assert DigitsValue("12") == 12 by {
      assert "12"[..1] == "1";
    }
  }

  /** "TYPE_3" shows only the recycle-grade train. */
  lemma TypeThreeShowsOne(waterType: Option<Selection>)
    requires waterType == Some(Selection(Some("TYPE_3")))
    ensures Displayed(waterType) == [Catalogue[2]]
  {
    FirstDigitRunAt("TYPE_3", 5);
    assert "TYPE_3"[5..] == "3";
    assert DigitPrefix("3") == "3";
    assert DigitsValue("3") == 3;
    assert TypeNumber("TYPE_3") == Some(3);
    SelectedNumberShowsOne(waterType, 3);
  }
}
