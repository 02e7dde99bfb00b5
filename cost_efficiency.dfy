/** The cost-efficiency calculator: a table of dose rows priced per kilogram,
    manual doses typed in by the user, and the cost totals that compare the
    manual doses with the simulator's doses. */
module CostEfficiency {
  import opened Common

  // ---- Price lookup ----

  const AlumPrice: real := 12.0
  const PacPrice: real := 15.0
  const PolymerPrice: real := 160.0
  const ChlorinePrice: real := 20.0
  const AntiscalantPrice: real := 50.0
  const OzonePrice: real := 50.0
  const FallbackPrice: real := 50.0

  /** getPriceForKey: the first keyword the lower-cased key contains decides the price,
      in the order alum/coagulant, pac, polymer, chlorine, antiscalant, ozone. */
  function PriceForKey(key: string): (price: real)
    ensures price in {12.0, 15.0, 20.0, 50.0, 160.0}
    ensures Contains(LowerString(key), "alum") ==> price == AlumPrice
    ensures price == PacPrice <==>
              !Contains(LowerString(key), "alum") && !Contains(LowerString(key), "coagulant") &&
              Contains(LowerString(key), "pac")
  {
    var k := LowerString(key);
    if Contains(k, "alum") || Contains(k, "coagulant") then AlumPrice
    else if Contains(k, "pac") then PacPrice
    else if Contains(k, "polymer") then PolymerPrice
    else if Contains(k, "chlorine") then ChlorinePrice
    else if Contains(k, "antiscalant") then AntiscalantPrice
    else if Contains(k, "ozone") then OzonePrice
    else FallbackPrice
  }

  /** One step of the ordered lookup: the keywords it looks for and the price it gives. */
  datatype PriceRule = PriceRule(keywords: seq<string>, price: real)

  /** The lookup's steps, in the order they are tried. */
  const PriceRules: seq<PriceRule> := [
    PriceRule(["alum", "coagulant"], AlumPrice), PriceRule(["pac"], PacPrice),
    PriceRule(["polymer"], PolymerPrice), PriceRule(["chlorine"], ChlorinePrice),
    PriceRule(["antiscalant"], AntiscalantPrice), PriceRule(["ozone"], OzonePrice)]

  /** `k` contains at least one of the keywords. */
  predicate Mentions(k: string, keywords: seq<string>)
  {
    exists j :: 0 <= j < |keywords| && Contains(k, keywords[j])
  }

  /** The price of the first step whose keywords `k` mentions, the fallback when no step matches. */
  function FirstMatchPrice(k: string, rules: seq<PriceRule>): (price: real)
    ensures (forall i :: 0 <= i < |rules| ==> !Mentions(k, rules[i].keywords)) ==> price == FallbackPrice
    ensures forall i :: (0 <= i < |rules| && Mentions(k, rules[i].keywords) &&
                         (forall j :: 0 <= j < i ==> !Mentions(k, rules[j].keywords))) ==> price == rules[i].price
  {
    if rules == [] then FallbackPrice
    else if Mentions(k, rules[0].keywords) then rules[0].price
    else
      var price := FirstMatchPrice(k, rules[1..]);
      assert forall i :: 1 <= i < |rules| ==> rules[i] == rules[1..][i - 1];
      price
  }

  /** Mentioning a one- or two-keyword list is containing one of its keywords. */
  lemma MentionsSmall(k: string, keywords: seq<string>)
    requires 1 <= |keywords| <= 2
    ensures Mentions(k, keywords) <==> Contains(k, keywords[0]) || (|keywords| == 2 && Contains(k, keywords[1]))
  {
  }

  /** The if-chain is the ordered keyword table: the first step whose keyword the lower-cased key
      contains decides the price, and a key containing none costs the fallback. */
  lemma PriceIsFirstMatch(key: string)
    ensures PriceForKey(key) == FirstMatchPrice(LowerString(key), PriceRules)
  {
    var k := LowerString(key);
    var r := PriceRules;
    assert r[1..] == r[1..2] + r[2..];
    forall i | 0 <= i < |r|
      ensures Mentions(k, r[i].keywords) <==>
                (Contains(k, r[i].keywords[0]) || (|r[i].keywords| == 2 && Contains(k, r[i].keywords[1])))
    {
      MentionsSmall(k, r[i].keywords);
    }
    assert FirstMatchPrice(k, r[5..]) == if Contains(k, "ozone") then OzonePrice else FallbackPrice;
    assert FirstMatchPrice(k, r[4..]) == if Contains(k, "antiscalant") then AntiscalantPrice else FirstMatchPrice(k, r[5..]) by {
      assert r[4..][1..] == r[5..];
    }
    assert FirstMatchPrice(k, r[3..]) == if Contains(k, "chlorine") then ChlorinePrice else FirstMatchPrice(k, r[4..]) by {
      assert r[3..][1..] == r[4..];
    }
    assert FirstMatchPrice(k, r[2..]) == if Contains(k, "polymer") then PolymerPrice else FirstMatchPrice(k, r[3..]) by {
      assert r[2..][1..] == r[3..];
    }
    assert FirstMatchPrice(k, r[1..]) == if Contains(k, "pac") then PacPrice else FirstMatchPrice(k, r[2..]) by {
      assert r[1..][1..] == r[2..];
    }
  }

  /** A key mentioning "coagulant" is priced as alum, whatever else it mentions. */
  lemma CoagulantCostsAlum(key: string)
    requires Contains(LowerString(key), "coagulant")
    ensures PriceForKey(key) == AlumPrice
  {
  }

  /** A key containing none of the keywords costs the fallback price. */
  lemma UnmatchedKeyCostsFallback(key: string)
    requires !Contains(LowerString(key), "alum") && !Contains(LowerString(key), "coagulant")
    requires !Contains(LowerString(key), "pac") && !Contains(LowerString(key), "polymer")
    requires !Contains(LowerString(key), "chlorine") && !Contains(LowerString(key), "antiscalant")
    requires !Contains(LowerString(key), "ozone")
    ensures PriceForKey(key) == FallbackPrice
  {
  }

  /** The lookup ignores letter case. */
  lemma PriceIgnoresCase(key: string)
    ensures PriceForKey(LowerString(key)) == PriceForKey(key)
  {
    LowerStringIdempotent(key);
  }

  /** A key naming both alum and PAC is priced as alum: the first keyword wins. */
  lemma AlumBeforePac()
    ensures PriceForKey("alumPac") == AlumPrice
  {
    assert LowerString("alumPac") == "alumpac";
    assert StartsWith("alumpac", "alum");
  }

  // ---- Labels ----

  /** The characters String.prototype.trim removes: white space and line terminators. */
  predicate IsJsSpace(c: char)
  {
    c == ' ' || c == '\t' || c == '\n' || c == '\U{000B}' || c == '\U{000C}' || c == '\r' ||
    c == '\U{00A0}' || c == '\U{1680}' || ('\U{2000}' <= c <= '\U{200A}') || c == '\U{2028}' ||
    c == '\U{2029}' || c == '\U{202F}' || c == '\U{205F}' || c == '\U{3000}' || c == '\U{FEFF}'
  }

  /** `replace(/_/g, " ")`. */
  function UnderscoresToSpaces(s: string): (r: string)
    ensures |r| == |s|
    ensures forall i :: 0 <= i < |s| ==> r[i] == (if s[i] == '_' then ' ' else s[i])
  {
    if s == [] then [] else [if s[0] == '_' then ' ' else s[0]] + UnderscoresToSpaces(s[1..])
  }

  /** "dose" in any letter case starts at position i of s. */
  predicate DoseAt(s: string, i: int)
  {
    0 <= i && i + 4 <= |s| && ToLower(s[i]) == 'd' && ToLower(s[i + 1]) == 'o' &&
    ToLower(s[i + 2]) == 's' && ToLower(s[i + 3]) == 'e'
  }

  /** "dose" in any letter case occurs somewhere in s. */
  predicate HasDose(s: string)
    decreases |s|
  {
    DoseAt(s, 0) || (s != [] && HasDose(s[1..]))
  }

  /** HasDose is `/dose/i.test`: the lower-cased text contains "dose". */
  lemma {:induction false} HasDoseIsContains(s: string)
    ensures HasDose(s) <==> Contains(LowerString(s), "dose")
    decreases |s|
  {
    var k := LowerString(s);
    if |s| >= 4 {
      assert k[..4] == [ToLower(s[0]), ToLower(s[1]), ToLower(s[2]), ToLower(s[3])];
    }
    if s != [] {
      assert k[1..] == LowerString(s[1..]);
      HasDoseIsContains(s[1..]);
    }
  }

  /** `replace(/dose/gi, "")`: every occurrence of "dose" in any letter case, scanned left to right;
      text without an occurrence is kept, text with one gets shorter. */
  function RemoveDose(s: string): (r: string)
    ensures |r| <= |s|
    ensures !HasDose(s) ==> r == s
    ensures HasDose(s) ==> |r| < |s|
    decreases |s|
  {
    if DoseAt(s, 0) then RemoveDose(s[4..])
    else if s == [] then []
    else [s[0]] + RemoveDose(s[1..])
  }

  /** Removing occurrences introduces no character the text did not have. */
  lemma {:induction false} RemoveDoseKeepsCharacters(s: string)
    ensures forall i :: 0 <= i < |RemoveDose(s)| ==> RemoveDose(s)[i] in s
    decreases |s|
  {
    if DoseAt(s, 0) {
      RemoveDoseKeepsCharacters(s[4..]);
    } else if s != [] {
      RemoveDoseKeepsCharacters(s[1..]);
    }
  }

  /** An occurrence at the start is dropped. */
  lemma RemoveDoseSkip(s: string)
    requires DoseAt(s, 0)
    ensures RemoveDose(s) == RemoveDose(s[4..])
  {
  }

  /** Text without an occurrence at the start keeps its first character. */
  lemma RemoveDoseKeep(s: string)
    requires s != [] && !DoseAt(s, 0)
    ensures RemoveDose(s) == [s[0]] + RemoveDose(s[1..])
  {
  }

  /** The replacement does not rescan the text it produces: removing the inner "dose" of
      "ddoseose" leaves a new "dose". */
  lemma RemoveDoseDoesNotRescan()
    ensures RemoveDose("ddoseose") == "dose"
  {
    RemoveDoseKeep("ddoseose");
    assert "ddoseose"[1..] == "doseose";
    RemoveDoseSkip("doseose");
    assert "doseose"[4..] == "ose";
    assert !HasDose("ose");
  }

  /** The number of blank characters `s` starts with. */
  function LeadingBlanks(s: string): (n: nat)
    ensures n <= |s|
    ensures forall i :: 0 <= i < n ==> IsJsSpace(s[i])
    ensures n < |s| ==> !IsJsSpace(s[n])
  {
    if s != [] && IsJsSpace(s[0]) then 1 + LeadingBlanks(s[1..]) else 0
  }

  /** The number of blank characters `s` ends with. */
  function TrailingBlanks(s: string): (n: nat)
    ensures n <= |s|
    ensures forall i :: |s| - n <= i < |s| ==> IsJsSpace(s[i])
    ensures n < |s| ==> !IsJsSpace(s[|s| - 1 - n])
  {
    if s != [] && IsJsSpace(s[|s| - 1]) then 1 + TrailingBlanks(s[..|s| - 1]) else 0
  }

  /** `trim()`: the text between its leading and its trailing blank characters. Only blank
      characters are cut off at the two ends and neither end of the result is blank; text without
      blank ends is kept and all-blank text becomes empty. */
  function Trim(s: string): (r: string)
    ensures |r| <= |s|
    ensures r != [] ==> !IsJsSpace(r[0]) && !IsJsSpace(r[|r| - 1])
    ensures s != [] && !IsJsSpace(s[0]) && !IsJsSpace(s[|s| - 1]) ==> r == s
    ensures (forall i :: 0 <= i < |s| ==> IsJsSpace(s[i])) ==> r == []
    ensures exists a, b :: 0 <= a <= b <= |s| && r == s[a..b] &&
              (forall i :: 0 <= i < a ==> IsJsSpace(s[i])) && (forall i :: b <= i < |s| ==> IsJsSpace(s[i]))
  {
    var a := LeadingBlanks(s);
    if a == |s| then
      assert s[a..a] == [];
      []
    else
      var b := |s| - TrailingBlanks(s);
      assert a < b by {
        assert !IsJsSpace(s[a]);
      }
      s[a..b]
  }

  /** `replace(/\b\w/g, toUpperCase)`: a word character that starts a word is upper-cased. */
  function CapitalizeWords(s: string): (r: string)
    ensures |r| == |s|
    ensures forall i :: 0 <= i < |s| ==> (IsWordChar(r[i]) <==> IsWordChar(s[i]))
    ensures forall i :: 0 <= i < |s| ==> ToLower(r[i]) == ToLower(s[i])
    ensures forall i :: 0 <= i < |s| && IsWordStart(s, i) ==> !IsLower(r[i])
    ensures forall i :: 0 <= i < |s| && !IsWordStart(s, i) ==> r[i] == s[i]
  {
    LowerOfUpperAll(s);
    seq(|s|, i requires 0 <= i < |s| => if IsWordStart(s, i) then ToUpper(s[i]) else s[i])
  }

  /** Position i of s is a word character with no word character just before it (`\b\w`). */
  predicate IsWordStart(s: string, i: nat)
    requires i < |s|
  {
    IsWordChar(s[i]) && (i == 0 || !IsWordChar(s[i - 1]))
  }

  lemma LowerOfUpperAll(s: string)
    ensures forall i :: 0 <= i < |s| ==> ToLower(ToUpper(s[i])) == ToLower(s[i])
  {
    forall i | 0 <= i < |s| ensures ToLower(ToUpper(s[i])) == ToLower(s[i]) {
      LowerOfUpper(s[i]);
    }
  }

  /** prettifyKey: "PAC" for any key mentioning pac; otherwise underscores become spaces,
      "dose" is dropped in any case, the result is trimmed and each word capitalised. */
  function PrettifyKey(key: string): (shown: string)
    ensures Contains(LowerString(key), "pac") ==> shown == "PAC"
    ensures !Contains(LowerString(key), "pac") ==> |shown| <= |key|
  {
    if Contains(LowerString(key), "pac") then "PAC"
    else CapitalizeWords(Trim(RemoveDose(UnderscoresToSpaces(key))))
  }

  /** Capitalising words keeps non-blank ends non-blank and leaves no lower-case first letter. */
  lemma CapitalizeKeepsEnds(t: string)
    requires t != [] && !IsJsSpace(t[0]) && !IsJsSpace(t[|t| - 1])
    ensures var r := CapitalizeWords(t);
      !IsJsSpace(r[0]) && !IsJsSpace(r[|r| - 1]) && !IsLower(r[0])
  {
    var r := CapitalizeWords(t);
    assert IsWordChar(r[0]) || r[0] == t[0];
    assert IsWordChar(r[|r| - 1]) || r[|r| - 1] == t[|t| - 1];
  }

  /** A label never starts or ends with blank space, and its first character is not a lower-case letter. */
  lemma LabelShape(key: string)
    ensures var shown := PrettifyKey(key);
      shown != [] ==> !IsJsSpace(shown[0]) && !IsJsSpace(shown[|shown| - 1]) && !IsLower(shown[0])
  {
    if !Contains(LowerString(key), "pac") {
      CapitalizedTrimShape(RemoveDose(UnderscoresToSpaces(key)));
    }
  }

  /** A trimmed, capitalised text has no blank end and no lower-case first letter. */
  lemma CapitalizedTrimShape(x: string)
    ensures var shown := CapitalizeWords(Trim(x));
      shown != [] ==> !IsJsSpace(shown[0]) && !IsJsSpace(shown[|shown| - 1]) && !IsLower(shown[0])
  {
    var t := Trim(x);
    if t != [] {
      CapitalizeKeepsEnds(t);
    }
  }

  /** `sub` occurs in `s` starting at position i. */
  predicate OccursAt(s: string, sub: string, i: int)
  {
    0 <= i && i + |sub| <= |s| && s[i..i + |sub|] == sub
  }

  /** A text in which `sub` occurs nowhere does not contain it. */
  lemma {:induction false} NoOccurrenceNoContains(s: string, sub: string)
    requires forall i :: !OccursAt(s, sub, i)
    ensures !Contains(s, sub)
    decreases |s|
  {
    assert !OccursAt(s, sub, 0);
    if |sub| <= |s| {
      assert s[..|sub|] == s[0..|sub|];
    }
    if s != [] {
      forall i | OccursAt(s[1..], sub, i)
        ensures OccursAt(s, sub, i + 1)
      {
        assert s[1..][i..i + |sub|] == s[i + 1..i + 1 + |sub|];
      }
      NoOccurrenceNoContains(s[1..], sub);
    }
  }

  /** A "p" followed by an "a", in any letter case, at position i of k. */
  predicate PaAt(k: string, i: int)
  {
    0 <= i && i + 1 < |k| && ToLower(k[i]) == 'p' && ToLower(k[i + 1]) == 'a'
  }

  /** A key in which no "p" is followed by an "a" does not mention pac. */
  lemma NoPacKey(key: string)
    requires forall i :: 0 <= i < |key| ==> !PaAt(key, i)
    ensures !Contains(LowerString(key), "pac")
  {
    var k := LowerString(key);
    forall i | 0 <= i <= |k| - 3
      ensures !OccursAt(k, "pac", i)
    {
      assert !PaAt(key, i);
      if ToLower(key[i]) != 'p' {
        assert k[i..i + 3][0] != "pac"[0];
      } else {
        assert k[i..i + 3][1] != "pac"[1];
      }
    }
    NoOccurrenceNoContains(k, "pac");
  }

  /** Text with no "d" in any case before `s` keeps it. */
  lemma {:induction false} RemoveDoseAfter(p: string, s: string)
    requires forall i :: 0 <= i < |p| ==> p[i] != 'd' && p[i] != 'D'
    ensures RemoveDose(p + s) == p + RemoveDose(s)
  {
    if p == [] {
      assert p + s == s;
    } else {
      RemoveDoseAfterFirst(p, s);
      forall i | 0 <= i < |p[1..]|
        ensures p[1..][i] != 'd' && p[1..][i] != 'D'
      {
        assert p[1..][i] == p[i + 1];
      }
      RemoveDoseAfter(p[1..], s);
      assert [p[0]] + (p[1..] + RemoveDose(s)) == p + RemoveDose(s) by {
        assert p == [p[0]] + p[1..];
      }
    }
  }

  /** One step of RemoveDoseAfter: a first character other than "d" or "D" is kept. */
  lemma RemoveDoseAfterFirst(p: string, s: string)
    requires p != [] && p[0] != 'd' && p[0] != 'D'
    ensures RemoveDose(p + s) == [p[0]] + RemoveDose(p[1..] + s)
  {
    var t := p + s;
    assert t[0] == p[0];
    RemoveDoseKeep(t);
    assert t[1..] == p[1..] + s;
  }

  /** "alumDose" loses its "Dose". */
  lemma RemoveDoseExample()
    ensures RemoveDose("alumDose") == "alum"
  {
    assert "alumDose" == "alum" + "Dose";
    RemoveDoseAfter("alum", "Dose");
    RemoveDoseSkip("Dose");
    assert "Dose"[4..] == "";
  }

  /** A single word is capitalised at its first character only. */
  lemma CapitalizeOneWord(w: string)
    requires w != [] && forall i :: 0 <= i < |w| ==> IsWordChar(w[i])
    ensures CapitalizeWords(w) == [ToUpper(w[0])] + w[1..]
  {
    var r := CapitalizeWords(w);
    var c := [ToUpper(w[0])] + w[1..];
    forall i | 0 <= i < |w|
      ensures r[i] == c[i]
    {
      if i > 0 {
        assert IsWordChar(w[i - 1]);
        assert !IsWordStart(w, i);
      }
    }
  }

  /** A word of lower-case letters without "d" in which no "p" is followed by "a". */
  predicate PlainWord(w: string)
  {
    w != [] && (forall i :: 0 <= i < |w| ==> IsLower(w[i]) && w[i] != 'd') &&
    forall i :: 0 <= i < |w| ==> !PaAt(w, i)
  }

  /** A plain word followed by a suffix without "p" or "a" does not mention pac. */
  lemma PlainWordNotPac(w: string, suffix: string)
    requires PlainWord(w)
    requires forall j :: 0 <= j < |suffix| ==> ToLower(suffix[j]) != 'p' && ToLower(suffix[j]) != 'a'
    ensures !Contains(LowerString(w + suffix), "pac")
  {
    var k := w + suffix;
    forall i | 0 <= i < |k|
      ensures !PaAt(k, i)
    {
      if i + 1 < |w| {
        assert !PaAt(w, i);
        assert k[i] == w[i] && k[i + 1] == w[i + 1];
      } else if i < |w| {
        assert k[i] == w[i];
        if i + 1 < |k| {
          assert k[i + 1] == suffix[0];
        }
      } else {
        assert k[i] == suffix[i - |w|];
      }
    }
    NoPacKey(k);
  }

  /** Replacing underscores works piece by piece. */
  lemma {:induction false} UnderscoresConcat(a: string, b: string)
    ensures UnderscoresToSpaces(a + b) == UnderscoresToSpaces(a) + UnderscoresToSpaces(b)
  {
    if a == [] {
      assert a + b == b;
    } else {
      assert (a + b)[0] == a[0];
      assert (a + b)[1..] == a[1..] + b;
      UnderscoresConcat(a[1..], b);
    }
  }

  /** A plain word has no underscore to replace. */
  lemma PlainWordNoUnderscore(w: string)
    requires PlainWord(w)
    ensures UnderscoresToSpaces(w) == w
  {
  }

  /** A plain word has no blank end to trim. */
  lemma PlainWordTrimmed(w: string)
    requires PlainWord(w)
    ensures Trim(w) == w
  {
  }

  /** A plain word is capitalised at its first letter. */
  lemma PlainWordCapitalized(w: string)
    requires PlainWord(w)
    ensures CapitalizeWords(w) == [ToUpper(w[0])] + w[1..]
  {
    CapitalizeOneWord(w);
  }

  /** A camel-case key "<word>Dose" is labelled as its word, capitalised. */
  lemma CamelDoseLabel(w: string)
    requires PlainWord(w)
    ensures PrettifyKey(w + "Dose") == [ToUpper(w[0])] + w[1..]
  {
    PlainWordNotPac(w, "Dose");
    calc {
      PrettifyKey(w + "Dose");
      CapitalizeWords(Trim(RemoveDose(UnderscoresToSpaces(w + "Dose"))));
      { UnderscoresConcat(w, "Dose");
        PlainWordNoUnderscore(w);
        assert UnderscoresToSpaces("Dose") == "Dose"; }
      CapitalizeWords(Trim(RemoveDose(w + "Dose")));
      { RemoveDoseAfter(w, "Dose");
        RemoveDoseSkip("Dose");
        assert "Dose"[4..] == [];
        assert w + [] == w; }
      CapitalizeWords(Trim(w));
      { PlainWordTrimmed(w); }
      CapitalizeWords(w);
      { PlainWordCapitalized(w); }
      [ToUpper(w[0])] + w[1..];
    }
  }

  /** Trimming a plain word followed by a space drops the space. */
  lemma PlainWordSpaceTrimmed(w: string)
    requires PlainWord(w)
    ensures Trim(w + " ") == w
  {
    var x := w + " ";
    assert x[0] == w[0] && IsLower(w[0]);
    assert LeadingBlanks(x) == 0;
    assert x[..|x| - 1] == w;
    assert IsLower(w[|w| - 1]);
    assert TrailingBlanks(x) == 1 + TrailingBlanks(w) == 1;
    assert x[0..|w|] == w;
  }

  /** In "<word>_dose" the underscore becomes a space. */
  lemma SnakeUnderscore(w: string)
    requires PlainWord(w)
    ensures UnderscoresToSpaces(w + "_dose") == (w + " ") + "dose"
  {
    UnderscoresConcat(w, "_dose");
    PlainWordNoUnderscore(w);
    assert UnderscoresToSpaces("_dose") == " dose";
    assert w + " dose" == (w + " ") + "dose";
  }

  /** "<word> dose" loses its "dose" and keeps the space. */
  lemma SnakeRemoveDose(w: string)
    requires PlainWord(w)
    ensures RemoveDose((w + " ") + "dose") == w + " "
  {
    var x := w + " ";
    assert forall i :: 0 <= i < |x| ==> x[i] != 'd' && x[i] != 'D';
    RemoveDoseAfter(x, "dose");
    RemoveDoseSkip("dose");
    assert "dose"[4..] == [];
    assert x + [] == x;
  }

  /** A snake-case key "<word>_dose" is labelled as its word, capitalised: the underscore becomes
      a space that trimming drops. */
  lemma SnakeDoseLabel(w: string)
    requires PlainWord(w)
    ensures PrettifyKey(w + "_dose") == [ToUpper(w[0])] + w[1..]
  {
    PlainWordNotPac(w, "_dose");
    SnakeUnderscore(w);
    SnakeRemoveDose(w);
    PlainWordSpaceTrimmed(w);
    PlainWordCapitalized(w);
  }

  /** "alum" and "polymer" are plain words, capitalised as "Alum" and "Polymer". */
  lemma ExampleWordsPlain()
    ensures PlainWord("alum") && PlainWord("polymer")
    ensures [ToUpper("alum"[0])] + "alum"[1..] == "Alum"
    ensures [ToUpper("polymer"[0])] + "polymer"[1..] == "Polymer"
  {
    assert "alum"[1..] == "lum";
    assert "polymer"[1..] == "olymer";
  }

  /** A camel-case key built from the word "alum", both given as variables, is shown as "Alum". */
  lemma AlumDoseLabelOf(w: string, key: string)
    requires w == "alum" && key == w + "Dose"
    ensures PrettifyKey(key) == "Alum"
  {
    ExampleWordsPlain();
    CamelDoseLabel(w);
  }

  /** "alumDose" is shown as "Alum". */
  lemma AlumDoseLabel()
    ensures PrettifyKey("alumDose") == "Alum"
  {
    AlumDoseLabelOf("alum", "alumDose");
  }

  /** A snake-case key built from the word "polymer", both given as variables, is shown as "Polymer". */
  lemma PolymerDoseLabelOf(w: string, key: string)
    requires w == "polymer" && key == w + "_dose"
    ensures PrettifyKey(key) == "Polymer"
  {
    ExampleWordsPlain();
    SnakeDoseLabel(w);
  }

  /** "polymer_dose" is shown as "Polymer". */
  lemma PolymerDoseLabel()
    ensures PrettifyKey("polymer_dose") == "Polymer"
  {
    PolymerDoseLabelOf("polymer", "polymer_dose");
  }

  // ---- Rows ----

  /** One table row; `manualDose` is the number the typed text parses to, None when it does not parse. */
  datatype Row = Row(
    id: int, key: string, displayLabel: string, systemDose: real,
    manualDose: Option<real>, pricePerKg: real, unit: string)

  /** The row for the dose entry at position idx; a non-numeric dose counts as 0. */
  function RowFor(idx: nat, key: string, value: Option<real>): Row
  {
    Row(idx + 1, key, PrettifyKey(key), if value.Some? then value.value else 0.0, None, PriceForKey(key), "mg/L")
  }

  /** The rows for the dose entries, numbered from `first`. */
  function RowsFrom(first: nat, entries: seq<(string, Option<real>)>): (rows: seq<Row>)
    decreases |entries|
    ensures |rows| == |entries|
    ensures forall i :: 0 <= i < |entries| ==> rows[i] == RowFor(first + i, entries[i].0, entries[i].1)
  {
    if entries == [] then [] else [RowFor(first, entries[0].0, entries[0].1)] + RowsFrom(first + 1, entries[1..])
  }

  /** The rows built from the dose object; None stands for a missing or non-object value. */
  function BuildRows(doses: Option<seq<(string, Option<real>)>>): (rows: seq<Row>)
    ensures doses.None? ==> rows == []
    ensures doses.Some? ==> |rows| == |doses.value|
    ensures doses.Some? ==> forall i :: 0 <= i < |rows| ==>
      rows[i].id == i + 1 && rows[i].key == doses.value[i].0 && rows[i].manualDose.None? &&
      rows[i].pricePerKg == PriceForKey(rows[i].key) &&
      (doses.value[i].1.None? ==> rows[i].systemDose == 0.0) &&
      (doses.value[i].1.Some? ==> rows[i].systemDose == doses.value[i].1.value) &&
      rows[i].displayLabel == PrettifyKey(rows[i].key)
  {
    if doses.None? then [] else RowsFrom(0, doses.value)
  }

  /** The rows with the manual dose of every row carrying `key` replaced. */
  function WithManual(rows: seq<Row>, key: string, value: Option<real>): (r: seq<Row>)
    ensures |r| == |rows|
    ensures forall i :: 0 <= i < |rows| ==>
      r[i] == if rows[i].key == key then rows[i].(manualDose := value) else rows[i]
  {
    if rows == [] then []
    else [if rows[0].key == key then rows[0].(manualDose := value) else rows[0]] + WithManual(rows[1..], key, value)
  }

  // ---- Totals ----

  datatype Totals = Totals(currentCost: real, optimizedCost: real, savings: real, efficiency: real)

  /** mg/L to kg/day: flow / 1000 for a positive flow, 0 when the flow is missing or not positive. */
  function MassFactor(flow: Option<real>): (m: real)
    ensures m >= 0.0
    ensures m == 0.0 <==> flow.None? || flow.value <= 0.0
  {
    if flow.Some? && flow.value > 0.0 then flow.value / 1000.0 else 0.0
  }

  /** A manual dose that does not parse counts as 0. */
  function SafeManual(row: Row): real
  {
    if row.manualDose.Some? then row.manualDose.value else 0.0
  }

  /** Cost of the manual doses over the rows. */
  function ManualCost(rows: seq<Row>, massFactor: real): real
  {
    if rows == [] then 0.0
    else
      var last := rows[|rows| - 1];
      ManualCost(rows[..|rows| - 1], massFactor) + SafeManual(last) * massFactor * last.pricePerKg
  }

  /** Cost of the simulator's doses over the rows. */
  function SystemCost(rows: seq<Row>, massFactor: real): real
  {
    if rows == [] then 0.0
    else
      var last := rows[|rows| - 1];
      SystemCost(rows[..|rows| - 1], massFactor) + last.systemDose * massFactor * last.pricePerKg
  }

  /** Some row has a manual dose above zero. */
  predicate AnyManual(rows: seq<Row>)
  {
    exists i :: 0 <= i < |rows| && rows[i].manualDose.Some? && rows[i].manualDose.value > 0.0
  }

  /** The totals the calculator shows for the rows and the flow. */
  function TotalsOf(rows: seq<Row>, flow: Option<real>): (t: Totals)
    ensures MassFactor(flow) == 0.0 ==> t == Totals(0.0, 0.0, 0.0, 0.0)
    ensures t.currentCost == ManualCost(rows, MassFactor(flow)) && t.optimizedCost == SystemCost(rows, MassFactor(flow))
    ensures t.savings == (if AnyManual(rows) then t.currentCost - t.optimizedCost else 0.0)
    ensures t.efficiency == (if AnyManual(rows) && t.currentCost > 0.0 then t.savings / t.currentCost * 100.0 else 0.0)
  {
    ZeroMassCosts(rows, MassFactor(flow));
    var m := MassFactor(flow);
    if m == 0.0 then Totals(0.0, 0.0, 0.0, 0.0)
    else
      var current := ManualCost(rows, m);
      var optimized := SystemCost(rows, m);
      if !AnyManual(rows) then Totals(current, optimized, 0.0, 0.0)
      else Totals(current, optimized, current - optimized,
                  if current > 0.0 then (current - optimized) / current * 100.0 else 0.0)
  }

  /** With a zero mass factor every cost is zero. */
  lemma {:induction false} ZeroMassCosts(rows: seq<Row>, massFactor: real)
    ensures massFactor == 0.0 ==> ManualCost(rows, massFactor) == 0.0 && SystemCost(rows, massFactor) == 0.0
  {
    if rows != [] {
      ZeroMassCosts(rows[..|rows| - 1], massFactor);
    }
  }

  /** The `totals` computation: one pass over the rows accumulating both costs and whether
      any manual dose was entered. */
  method ComputeTotals(rows: seq<Row>, flow: Option<real>) returns (t: Totals)
    ensures t == TotalsOf(rows, flow)
    ensures MassFactor(flow) == 0.0 ==> t == Totals(0.0, 0.0, 0.0, 0.0)
    ensures !AnyManual(rows) ==> t.savings == 0.0 && t.efficiency == 0.0
  {
    var massFactor := MassFactor(flow);
    if massFactor == 0.0 {
      return Totals(0.0, 0.0, 0.0, 0.0);
    }
    var currentCost := 0.0;
    var optimizedCost := 0.0;
    var manualEntered := false;
    var i := 0;
    while i < |rows|
      invariant 0 <= i <= |rows|
      invariant currentCost == ManualCost(rows[..i], massFactor)
      invariant optimizedCost == SystemCost(rows[..i], massFactor)
      invariant manualEntered <==> AnyManual(rows[..i])
    {
      var row := rows[i];
      var manual := row.manualDose;
      if manual.Some? && manual.value > 0.0 {
        manualEntered := true;
      }
      var safeManualDose := if manual.Some? then manual.value else 0.0;
      currentCost := currentCost + safeManualDose * massFactor * row.pricePerKg;
      optimizedCost := optimizedCost + row.systemDose * massFactor * row.pricePerKg;
      assert rows[..i + 1][..i] == rows[..i];
      assert AnyManual(rows[..i + 1]) <==> AnyManual(rows[..i]) || (manual.Some? && manual.value > 0.0) by {
        var p := rows[..i + 1];
        if AnyManual(rows[..i]) {
          var j :| 0 <= j < i && rows[..i][j].manualDose.Some? && rows[..i][j].manualDose.value > 0.0;
          assert p[j] == rows[..i][j];
        }
        if AnyManual(p) {
          var j :| 0 <= j < i + 1 && p[j].manualDose.Some? && p[j].manualDose.value > 0.0;
          if j < i { assert rows[..i][j] == p[j]; }
        }
        assert p[i] == row;
      }
      i := i + 1;
    }
    assert rows[..|rows|] == rows;
    var savings := currentCost - optimizedCost;
    var efficiency := if currentCost > 0.0 then (savings / currentCost) * 100.0 else 0.0;
    if !manualEntered {
      savings := 0.0;
      efficiency := 0.0;
    }
    t := Totals(currentCost, optimizedCost, savings, efficiency);
  }

  /** With non-negative simulator doses and a non-negative mass factor, the optimised cost is non-negative. */
  lemma {:induction false} SystemCostNonNegative(rows: seq<Row>, massFactor: real)
    requires massFactor >= 0.0
    requires forall i :: 0 <= i < |rows| ==> rows[i].systemDose >= 0.0 && rows[i].pricePerKg >= 0.0
    ensures SystemCost(rows, massFactor) >= 0.0
  {
    if rows != [] {
      var last := rows[|rows| - 1];
      SystemCostNonNegative(rows[..|rows| - 1], massFactor);
      assert last.systemDose * massFactor >= 0.0;
      assert last.systemDose * massFactor * last.pricePerKg >= 0.0;
    }
  }

  /** Efficiency never exceeds 100 %, and a positive saving shows a positive efficiency,
      when the simulator's doses are non-negative (prices always are). */
  lemma EfficiencyBounded(rows: seq<Row>, flow: Option<real>)
    requires forall i :: 0 <= i < |rows| ==> rows[i].systemDose >= 0.0 && rows[i].pricePerKg >= 0.0
    ensures TotalsOf(rows, flow).efficiency <= 100.0
    ensures TotalsOf(rows, flow).savings > 0.0 ==> TotalsOf(rows, flow).efficiency > 0.0
  {
    var m := MassFactor(flow);
    SystemCostNonNegative(rows, m);
    var c, o := ManualCost(rows, m), SystemCost(rows, m);
    if c > 0.0 {
      assert (c - o) / c <= 1.0;
    }
  }

  /** Every row priced by a catalogue key has a positive price. */
  lemma BuiltRowsPricesPositive(doses: Option<seq<(string, Option<real>)>>)
    ensures forall i :: 0 <= i < |BuildRows(doses)| ==> BuildRows(doses)[i].pricePerKg > 0.0
  {
  }

  /** The calculator's row state, rebuilt when the doses change and edited one key at a time. */
  class Calculator {
    var rows: seq<Row>

    constructor ()
      ensures rows == []
    {
      rows := [];
    }

    /** The effect that rebuilds the rows whenever the dose object changes. */
    method OnDosesChanged(doses: Option<seq<(string, Option<real>)>>)
      modifies this
      ensures rows == BuildRows(doses)
    {
      rows := BuildRows(doses);
    }

    /** handleManualChange: only the manual dose of rows with that key changes. */
    method HandleManualChange(key: string, value: Option<real>)
      modifies this
      ensures rows == WithManual(old(rows), key, value)
      ensures |rows| == |old(rows)|
      ensures forall i :: 0 <= i < |rows| && old(rows)[i].key != key ==> rows[i] == old(rows)[i]
    {
      rows := WithManual(rows, key, value);
    }
  }
}
