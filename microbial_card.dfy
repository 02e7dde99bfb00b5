/** The microbial card: the status of a scheduled lab check and the badge that shows it. */
module MicrobialCard {
  import opened Common
  import opened MockApi

  datatype Status = Normal | Alert | Critical
  {
    /** The status key used to look up the badge. */
    function Key(): string
    {
      match this
      case Normal => "normal"
      case Alert => "alert"
      case Critical => "critical"
    }
  }

  /** E. coli above this count is critical. */
  const EcoliLimit: real := 20.0
  /** Virus units above this count are critical. */
  const VirusLimit: real := 3.0

  /** A lab result over either limit. */
  predicate OverLimit(r: BioResult)
  {
    r.ecoli > EcoliLimit || r.virus > VirusLimit
  }

  /** The card's status: alert while no result is in, critical when a count is over its limit,
      normal otherwise. */
  function StatusOf(item: BioSnapshot): (s: Status)
    ensures s == Alert <==> item.result.None?
    ensures s == Critical <==> item.result.Some? && OverLimit(item.result.value)
    ensures s == Normal <==> item.result.Some? && item.result.value.ecoli <= EcoliLimit && item.result.value.virus <= VirusLimit
  {
    if item.result.None? then Alert
    else if item.result.value.ecoli > 20.0 || item.result.value.virus > 3.0 then Critical
    else Normal
  }

  /** Raising either count never moves a result from critical back to normal. */
  lemma CriticalIsUpwardClosed(item: BioSnapshot, r1: BioResult, r2: BioResult)
    requires r1.ecoli <= r2.ecoli && r1.virus <= r2.virus
    ensures StatusOf(item.(result := Some(r1))) == Critical ==> StatusOf(item.(result := Some(r2))) == Critical
    ensures StatusOf(item.(result := Some(r2))) == Normal ==> StatusOf(item.(result := Some(r1))) == Normal
  {
  }

  /** The limits themselves are still normal. */
  lemma BoundaryIsNormal(item: BioSnapshot)
    requires item.result == Some(BioResult(20.0, 3.0))
    ensures StatusOf(item) == Normal
  {
  }

  datatype BadgeStyle = BadgeStyle(bg: string, text: string)

  /** The badge table of the status badge: a plain object literal with three own keys. */
  const Badges: map<string, BadgeStyle> := map[
    "normal" := BadgeStyle("bg-green-100 text-green-700", "Normal"),
    "alert" := BadgeStyle("bg-yellow-100 text-yellow-700", "Alert"),
    "critical" := BadgeStyle("bg-red-100 text-red-700", "Critical")]

  /** The property names every plain object inherits from Object.prototype. Looking one of them up
      on the table yields a truthy function (or the prototype itself) without `bg` or `label`. */
  const InheritedNames: set<string> := {
    "constructor", "hasOwnProperty", "isPrototypeOf", "propertyIsEnumerable", "toString",
    "toLocaleString", "valueOf", "__proto__", "__defineGetter__", "__defineSetter__",
    "__lookupGetter__", "__lookupSetter__"}

  /** StatusBadge's `map[level] || map.normal`: an own entry, else an inherited member, else the
      normal entry. None stands for an inherited member, whose `bg` and `label` are undefined, so
      the badge renders without colour and without text. */
  function BadgeFor(level: string): (b: Option<BadgeStyle>)
    ensures b.None? <==> level in InheritedNames
    ensures b.Some? ==> b.value in Badges.Values
    ensures b.Some? && level !in Badges ==> b.value.text == "Normal"
  {
    if level in Badges then Some(Badges[level])
    else if level in InheritedNames then None
    else Some(Badges["normal"])
  }

  /** Every status has its own badge, whose text is the status name capitalised; the one call site
      therefore never renders an empty badge. */
  lemma BadgeShowsStatus(s: Status)
    ensures s.Key() in Badges
    ensures BadgeFor(s.Key()).Some?
    ensures BadgeFor(s.Key()).value.text == (match s case Normal => "Normal" case Alert => "Alert" case Critical => "Critical")
  {
  }

  /** A level that is neither a table key nor an inherited name shows the green normal badge. */
  lemma UnknownLevelShowsNormal(level: string)
    requires level != "normal" && level != "alert" && level != "critical"
    requires level !in InheritedNames
    ensures BadgeFor(level) == Some(BadgeStyle("bg-green-100 text-green-700", "Normal"))
  {
  }

  /** An inherited name such as "toString" renders an empty badge instead of the normal one. */
  lemma InheritedNameShowsEmptyBadge(level: string)
    requires level in InheritedNames
    ensures BadgeFor(level).None?
    ensures BadgeFor(level) != BadgeFor("normal")
  {
  }
}
