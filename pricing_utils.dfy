/** Regional-train detection: the product categories and line-name patterns
    that mark a regional train, which the Deutschlandticket price estimate
    relies on. */
module PricingUtils {
  import opened Wrappers
  import opened Strings
  import opened Journeys

  /** The regional product categories, lower case. */
  const RegionalProducts: set<string> := {"regional", "regionalbahn", "regionalexpress", "sbahn", "suburban"}

  /** The anchored pattern `^p\s*\d+` on s: s starts with p, then optional
      white space, then a digit (one digit settles `\d+`). */
  predicate PrefixThenNumber(s: string, p: string) {
    StartsWith(s, p) && var rest := DropWhile(s[|p|..], IsSpace); rest != [] && IsDigit(rest[0])
  }

  /** One of `/^re\s*\d+/`, `/^rb\s*\d+/`, `/^s\s*\d+/`, `/^s-bahn/` matches the
      lower-cased line name. */
  predicate MatchesRegionalPattern(name: string) {
    PrefixThenNumber(name, "re") || PrefixThenNumber(name, "rb") || PrefixThenNumber(name, "s")
    || StartsWith(name, "s-bahn")
  }

  /** `isRegionalTrain` */
  predicate IsRegionalTrain(leg: Option<Leg>) {
    if leg.None? || leg.value.walking || leg.value.line.None? then false
    else
      var line := leg.value.line.value;
      var product := if line.product.Some? then Lower(line.product.value) else "";
      if product != "" && product in RegionalProducts then true
      else MatchesRegionalPattern(if line.name.Some? then Lower(line.name.value) else "")
  }

  /** The lower-cased product of a leg's line, `""` when there is none. */
  function ProductOf(leg: Leg): (r: string)
    ensures leg.line.Some? && leg.line.value.product.Some? ==> r == Lower(leg.line.value.product.value)
    ensures leg.line.None? || leg.line.value.product.None? ==> r == ""
  {
    if leg.line.Some? && leg.line.value.product.Some? then Lower(leg.line.value.product.value) else ""
  }

  /** The lower-cased name of a leg's line, `""` when there is none. */
  function LineNameOf(leg: Leg): (r: string)
    ensures leg.line.Some? && leg.line.value.name.Some? ==> r == Lower(leg.line.value.name.value)
    ensures leg.line.None? || leg.line.value.name.None? ==> r == ""
  {
    if leg.line.Some? && leg.line.value.name.Some? then Lower(leg.line.value.name.value) else ""
  }

  /** The three outcomes of `isRegionalTrain`: no train, a regional product, or
      the verdict of the line-name patterns. */
  lemma RegionalTrainCases(leg: Option<Leg>)
    ensures leg.None? || leg.value.walking || leg.value.line.None? ==> !IsRegionalTrain(leg)
    ensures leg.Some? && !leg.value.walking && leg.value.line.Some? && ProductOf(leg.value) in RegionalProducts
            ==> IsRegionalTrain(leg)
    ensures leg.Some? && !leg.value.walking && leg.value.line.Some? && ProductOf(leg.value) !in RegionalProducts
            ==> (IsRegionalTrain(leg) <==> MatchesRegionalPattern(LineNameOf(leg.value)))
  {
  }

  /** Lower-cases the line name and product of a leg. */
  function LowerLine(leg: Leg): (r: Leg)
    ensures r.walking == leg.walking && r.line.Some? == leg.line.Some?
  {
    match leg.line
    case None => leg
    case Some(l) =>
      var name := if l.name.Some? then Some(Lower(l.name.value)) else None;
      var product := if l.product.Some? then Some(Lower(l.product.value)) else None;
      leg.(line := Some(Line(name, product)))
  }

  /** The test ignores letter case in line names and products. */
  lemma RegionalTrainIgnoresCase(leg: Leg)
    ensures IsRegionalTrain(Some(LowerLine(leg))) == IsRegionalTrain(Some(leg))
  {
    if leg.line.Some? {
      var l := leg.line.value;
      if l.name.Some? { LowerIdempotent(l.name.value); }
      if l.product.Some? { LowerIdempotent(l.product.value); }
    }
  }
}
