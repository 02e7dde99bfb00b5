/** Small shared vocabulary: optional values, JavaScript's rounding, ASCII
    string helpers and the rule tables the selectors are specified with. */
module Common {

  /** A value that may be missing (JavaScript's null / undefined / NaN). */
  datatype Option<+T> = None | Some(value: T)

  /** Math.round on the reals: the nearest integer, halves rounding up. */
  function Round(x: real): (r: int)
    ensures r as real - 0.5 <= x < r as real + 0.5
  {
    (x + 0.5).Floor
  }

  /** Rounding never reverses the order of two values. */
  lemma RoundMonotone(x: real, y: real)
    requires x <= y
    ensures Round(x) <= Round(y)
  {
  }

  /** Rounding a non-negative value gives a non-negative integer. */
  lemma RoundNonNegative(x: real)
    requires 0.0 <= x
    ensures 0 <= Round(x)
  {
  }

  // ---- ASCII character helpers (JavaScript's case mapping beyond ASCII is not modelled) ----

  predicate IsUpper(c: char) { 'A' <= c <= 'Z' }
  predicate IsLower(c: char) { 'a' <= c <= 'z' }
  predicate IsDigit(c: char) { '0' <= c <= '9' }

  /** The regular-expression class \w: ASCII letters, digits and underscore. */
  predicate IsWordChar(c: char) { IsUpper(c) || IsLower(c) || IsDigit(c) || c == '_' }

  function ToLower(c: char): (d: char)
    ensures IsUpper(c) ==> IsLower(d)
    ensures !IsUpper(c) ==> d == c
  {
    if IsUpper(c) then (c as int + 32) as char else c
  }

  function ToUpper(c: char): (d: char)
    ensures IsLower(c) ==> IsUpper(d)
    ensures !IsLower(c) ==> d == c
  {
    if IsLower(c) then (c as int - 32) as char else c
  }

  /** Upper-casing a character does not change its lower-case form. */
  lemma LowerOfUpper(c: char)
    ensures ToLower(ToUpper(c)) == ToLower(c)
  {
  }

  /** String.prototype.toLowerCase on ASCII. */
  function LowerString(s: string): (r: string)
    ensures |r| == |s|
    ensures forall i :: 0 <= i < |s| ==> r[i] == ToLower(s[i])
  {
    if s == [] then [] else [ToLower(s[0])] + LowerString(s[1..])
  }

  /** Lower-casing twice is lower-casing once. */
  lemma LowerStringIdempotent(s: string)
    ensures LowerString(LowerString(s)) == LowerString(s)
  {
    var l := LowerString(s);
    assert forall i :: 0 <= i < |s| ==> LowerString(l)[i] == l[i];
  }

  /** `s` starts with `p`. */
  predicate StartsWith(s: string, p: string)
  {
    |p| <= |s| && s[..|p|] == p
  }

  /** String.prototype.includes: `sub` occurs somewhere in `s`. */
  predicate Contains(s: string, sub: string)
    decreases |s|
  {
    StartsWith(s, sub) || (s != [] && Contains(s[1..], sub))
  }

  // ---- Rule tables ----

  /** One rule of a rule table: the entry it contributes and whether its condition holds. */
  datatype Rule<T> = Rule(fires: bool, entry: T)

  /** What a single rule contributes: its entry when it fires, nothing otherwise. */
  function Contribution<T>(r: Rule<T>): (s: seq<T>)
    ensures |s| <= 1
  {
    if r.fires then [r.entry] else []
  }

  /** The entries of the rules that fire, in table order (duplicates kept). */
  function Fired<T>(rules: seq<Rule<T>>): (r: seq<T>)
    ensures |r| <= |rules|
  {
    if rules == [] then [] else Contribution(rules[0]) + Fired(rules[1..])
  }

  /** Unfolds Fired one rule at a position k of a table. */
  lemma FiredFrom<T>(rules: seq<Rule<T>>, k: nat)
    requires k < |rules|
    ensures Fired(rules[k..]) == Contribution(rules[k]) + Fired(rules[k + 1..])
  {
    assert rules[k..][1..] == rules[k + 1..];
  }

  /** Extends a prefix of a table by one rule. */
  lemma FiredPrefix<T>(rules: seq<Rule<T>>, k: nat)
    requires k < |rules|
    ensures Fired(rules[..k + 1]) == Fired(rules[..k]) + Contribution(rules[k])
  {
    assert rules[..k + 1] == rules[..k] + [rules[k]];
    FiredAppend(rules[..k], [rules[k]]);
    assert [rules[k]][1..] == [];
  }

  /** An entry is fired exactly when some rule carrying it fires. */
  lemma {:induction false} FiredMember<T>(rules: seq<Rule<T>>, x: T)
    ensures x in Fired(rules) <==> exists i :: 0 <= i < |rules| && rules[i].fires && rules[i].entry == x
  {
    if exists i :: 0 <= i < |rules| && rules[i].fires && rules[i].entry == x {
      var i :| 0 <= i < |rules| && rules[i].fires && rules[i].entry == x;
      FiredContains(rules, i);
    }
    if rules != [] && x in Fired(rules) {
      FiredMember(rules[1..], x);
      if x !in Contribution(rules[0]) {
        var i :| 0 <= i < |rules[1..]| && rules[1..][i].fires && rules[1..][i].entry == x;
        assert rules[i + 1] == rules[1..][i];
      }
    }
  }

  /** Every rule that fires contributes its entry. */
  lemma {:induction false} FiredContains<T>(rules: seq<Rule<T>>, i: nat)
    requires i < |rules| && rules[i].fires
    ensures rules[i].entry in Fired(rules)
  {
    if i > 0 {
      FiredContains(rules[1..], i - 1);
    }
  }

  /** A table whose entries are strictly ordered by `rank` yields entries strictly ordered by `rank`. */
  lemma {:induction false} FiredOrdered<T>(rules: seq<Rule<T>>, rank: T -> int)
    requires forall i, j :: 0 <= i < j < |rules| ==> rank(rules[i].entry) < rank(rules[j].entry)
    ensures forall i, j :: 0 <= i < j < |Fired(rules)| ==> rank(Fired(rules)[i]) < rank(Fired(rules)[j])
  {
    if rules != [] {
      FiredOrdered(rules[1..], rank);
      var rest := Fired(rules[1..]);
      forall x | x in rest
        ensures rank(rules[0].entry) < rank(x)
      {
        FiredMember(rules[1..], x);
        var i :| 0 <= i < |rules[1..]| && rules[1..][i].fires && rules[1..][i].entry == x;
        assert rules[1..][i] == rules[i + 1];
      }
    }
  }

  /** Fired distributes over concatenation of tables. */
  lemma {:induction false} FiredAppend<T>(a: seq<Rule<T>>, b: seq<Rule<T>>)
    ensures Fired(a + b) == Fired(a) + Fired(b)
  {
    if a != [] {
      assert (a + b)[0] == a[0];
      assert (a + b)[1..] == a[1..] + b;
      FiredAppend(a[1..], b);
      var head := if a[0].fires then [a[0].entry] else [];
      assert Fired(a + b) == head + (Fired(a[1..]) + Fired(b));
    } else {
      assert a + b == b;
    }
  }

  /** How many entries of a sequence hold (a vote count). */
  function CountHolding(checks: seq<bool>): (n: nat)
    ensures n <= |checks|
    ensures n == |checks| <==> forall i :: 0 <= i < |checks| ==> checks[i]
    ensures n == 0 <==> forall i :: 0 <= i < |checks| ==> !checks[i]
  {
    if checks == [] then 0
    else (if checks[0] then 1 else 0) + CountHolding(checks[1..])
  }

  /** The count of a table extended by one check. */
  lemma {:induction false} CountHoldingSnoc(checks: seq<bool>, b: bool)
    ensures CountHolding(checks + [b]) == CountHolding(checks) + (if b then 1 else 0)
  {
    if checks != [] {
      assert (checks + [b])[1..] == checks[1..] + [b];
      CountHoldingSnoc(checks[1..], b);
    }
  }
}
