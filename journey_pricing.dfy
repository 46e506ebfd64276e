/** The price record the cards and the split page show for one journey: which
    of its rides the Deutschlandticket covers, whether it is regional, and the
    original, saved and final price. Prices are cents; the ticket's monthly
    price of 49 euros is 4900, the fallback long-distance price of 89 euros is
    8900. */
module JourneyPricing {
  import opened Wrappers
  import opened Journeys
  import opened JourneyUtils
  import opened PricingUtils
  import opened TicketUtils
  import Dedup

  const TicketPrice: int := 4900
  const LongDistanceFallback: int := 8900

  /** One ride with its coverage verdict, product and regional flag. */
  datatype LegAnalysis = LegAnalysis(leg: TrainLeg, isCovered: bool, trainType: string, isRegional: bool)

  /** The record `calculateJourneyPricing` returns. `totalPrice` and
      `legAnalysis` are absent where the source leaves them out. */
  datatype PricingRecord = PricingRecord(
    hasRegionalTrains: bool,
    isOnlyRegionalTrains: bool,
    totalPrice: Option<int>,
    originalPrice: real,
    deutschlandTicketSavings: real,
    finalPrice: int,
    isFullyCovered: bool,
    hasPartialCoverage: bool,
    coveredLegs: seq<LegAnalysis>,
    uncoveredLegs: seq<LegAnalysis>,
    legAnalysis: Option<seq<LegAnalysis>>,
    cannotShowPrice: bool)

  /** Every ride of the journey is covered (true for a journey without rides). */
  predicate AllCovered(t: seq<TrainLeg>, has: bool) {
    forall i :: 0 <= i < |t| ==> IsLegCovered(t[i].leg, has)
  }

  /** Some ride is regional. */
  predicate AnyRegional(t: seq<TrainLeg>) {
    exists i :: 0 <= i < |t| && IsRegionalTrain(Some(t[i].leg))
  }

  /** There is a ride and every ride is regional. */
  predicate OnlyRegional(t: seq<TrainLeg>) {
    |t| > 0 && forall i :: 0 <= i < |t| ==> IsRegionalTrain(Some(t[i].leg))
  }

  function Analyse(t: TrainLeg, has: bool): LegAnalysis {
    var product := if t.leg.line.Some? then t.leg.line.value.product else None;
    LegAnalysis(t, IsLegCovered(t.leg, has), Or(product, "unknown"), IsRegionalTrain(Some(t.leg)))
  }

  /** `trainLegs.map(...)` */
  function AnalyseAll(t: seq<TrainLeg>, has: bool): (r: seq<LegAnalysis>)
    ensures |r| == |t|
    ensures forall i :: 0 <= i < |t| ==> r[i] == Analyse(t[i], has)
  {
    seq(|t|, i requires 0 <= i < |t| => Analyse(t[i], has))
  }

  predicate Covered(a: LegAnalysis) {
    a.isCovered
  }

  predicate Uncovered(a: LegAnalysis) {
    !a.isCovered
  }

  /** The original price under partial coverage: the API price scaled up by
      `1 / (1 - 0.6 * covered / rides)`. */
  function PartialOriginal(apiPrice: int, covered: nat, rides: nat): (r: real)
    requires 0 < covered < rides
    ensures apiPrice > 0 ==> r > apiPrice as real
  {
    var ratio := covered as real / rides as real;
    RatioBounds(covered, rides);
    var d := 1.0 - ratio * 0.6;
    var r := apiPrice as real / d;
    ScaleUp(apiPrice as real, d);
    r
  }

  lemma RatioBounds(covered: nat, rides: nat)
    requires 0 < covered < rides
    ensures 0.0 < covered as real / rides as real < 1.0
  {
    var q := covered as real / rides as real;
    assert q * rides as real == covered as real;
  }

  /** Dividing a positive amount by a factor below 1 makes it larger. */
  lemma ScaleUp(a: real, d: real)
    requires 0.0 < d < 1.0
    ensures a > 0.0 ==> a / d > a
  {
    if a > 0.0 {
      DivMul(a, d);
      ProductAbove(a, d, a / d);
    }
  }

  lemma DivMul(a: real, d: real)
    requires d != 0.0
    ensures (a / d) * d == a
  {
  }

  lemma ProductAbove(a: real, d: real, r: real)
    requires 0.0 < d < 1.0 && a > 0.0 && r * d == a
    ensures r > a
  {
    PositiveFactor(r, d);
    var e := 1.0 - d;
    Distribute(r, d, e);
    MulPositive(r, e);
    var x := r * d;
    var z := r * e;
    assert z == r - x && z > 0.0 && x == a;
  }

  lemma Distribute(r: real, d: real, e: real)
    requires e == 1.0 - d
    ensures r * e == r - r * d
  {
  }

  lemma MulPositive(x: real, y: real)
    requires x > 0.0 && y > 0.0
    ensures x * y > 0.0
  {
  }

  lemma PositiveFactor(r: real, d: real)
    requires d > 0.0 && r * d > 0.0
    ensures r > 0.0
  {
  }

  /** `calculateJourneyPricing` */
  function CalculateJourneyPricing(journey: Journey, has: bool): (r: PricingRecord)
    ensures var t := GetJourneyLegsWithTransfers(journey);
      r.hasRegionalTrains == AnyRegional(t) && r.isOnlyRegionalTrains == OnlyRegional(t)
  {
    var t := GetJourneyLegsWithTransfers(journey);
    var fully := AllCovered(t, has);
    var regional := AnyRegional(t);
    var onlyRegional := OnlyRegional(t);
    if !HasAmount(journey.price) then
      if has && fully then
        PricingRecord(regional, onlyRegional, Some(0), 0.0, 0.0, 0, true, false, [], [], None, false)
      else
        var estimate := if has && (regional || fully) then TicketPrice else 0;
        PricingRecord(regional, onlyRegional, Some(estimate), estimate as real, 0.0, estimate,
          has && fully, false, [], [], None, !has && regional)
    else
      var apiPrice := journey.price.value;
      var analysis := AnalyseAll(t, has);
      var covered := Dedup.Filter(analysis, Covered);
      var uncovered := Dedup.Filter(analysis, Uncovered);
      var partial := |covered| > 0 && |uncovered| > 0;
      Dedup.FilterComplement(analysis, Covered, Uncovered);
      var original: real :=
        if has && fully then (if apiPrice > 0 then apiPrice else if regional then TicketPrice else LongDistanceFallback) as real
        else if has && partial then (if apiPrice > 0 then PartialOriginal(apiPrice, |covered|, |t|) else TicketPrice as real)
        else apiPrice as real;
      var savings: real :=
        if has && fully then original
        else if has && partial then original - apiPrice as real
        else 0.0;
      var final := if has && fully then 0 else apiPrice;
      PricingRecord(regional, onlyRegional, None, original, savings, final, fully, partial,
        covered, uncovered, Some(analysis), false)
  }

  /** Coverage flags: full coverage is "every ride covered", vacuous without
      rides; only-regional needs a ride. */
  lemma CoverageFlags(journey: Journey, has: bool)
    ensures var t := GetJourneyLegsWithTransfers(journey);
      var r := CalculateJourneyPricing(journey, has);
      (HasAmount(journey.price) ==> r.isFullyCovered == AllCovered(t, has))
      && (!HasAmount(journey.price) ==> r.isFullyCovered == (has && AllCovered(t, has)))
      && (t == [] ==> AllCovered(t, has) && !r.isOnlyRegionalTrains)
  {
  }

  /** Without an API price, with the ticket and every ride covered: nothing to pay. */
  lemma UnpricedFullyCovered(journey: Journey, has: bool)
    requires !HasAmount(journey.price) && has && AllCovered(GetJourneyLegsWithTransfers(journey), has)
    ensures var r := CalculateJourneyPricing(journey, has);
      r.totalPrice == Some(0) && r.originalPrice == 0.0 && r.finalPrice == 0 && r.isFullyCovered
      && r.deutschlandTicketSavings == 0.0 && !r.cannotShowPrice
  {
  }

  /** Without an API price otherwise: the estimate is the ticket price exactly
      when the ticket is held and a ride is regional, and the price cannot be
      shown exactly when there is no ticket and a ride is regional. */
  lemma UnpricedEstimate(journey: Journey, has: bool)
    requires !HasAmount(journey.price)
    requires !(has && AllCovered(GetJourneyLegsWithTransfers(journey), has))
    ensures var t := GetJourneyLegsWithTransfers(journey);
      var r := CalculateJourneyPricing(journey, has);
      r.finalPrice == (if has && AnyRegional(t) then TicketPrice else 0)
      && r.totalPrice == Some(r.finalPrice) && r.originalPrice == r.finalPrice as real
      && r.deutschlandTicketSavings == 0.0
      && (r.cannotShowPrice <==> !has && AnyRegional(t))
      && !r.isFullyCovered && !r.hasPartialCoverage
  {
  }

  /** With an API price the covered and uncovered rides split the analysis in
      order, and partial coverage means both parts are non-empty. */
  lemma PricedPartition(journey: Journey, has: bool)
    requires HasAmount(journey.price)
    ensures var t := GetJourneyLegsWithTransfers(journey);
      var r := CalculateJourneyPricing(journey, has);
      r.legAnalysis == Some(AnalyseAll(t, has))
      && r.coveredLegs == Dedup.Filter(r.legAnalysis.value, Covered)
      && r.uncoveredLegs == Dedup.Filter(r.legAnalysis.value, Uncovered)
      && |r.coveredLegs| + |r.uncoveredLegs| == |t|
      && (r.hasPartialCoverage <==> r.coveredLegs != [] && r.uncoveredLegs != [])
      && (r.isFullyCovered <==> r.uncoveredLegs == [])
      && !(r.isFullyCovered && r.hasPartialCoverage)
  {
    var t := GetJourneyLegsWithTransfers(journey);
    var a := AnalyseAll(t, has);
    Dedup.FilterComplement(a, Covered, Uncovered);
    assert AllCovered(t, has) <==> forall i :: 0 <= i < |a| ==> Covered(a[i]);
  }

  /** With an API price and no ticket, or a ticket that covers no ride of a
      journey with rides: the API price stands and nothing is saved. */
  lemma PricedWithoutCoverage(journey: Journey, has: bool)
    requires HasAmount(journey.price)
    requires !has || CalculateJourneyPricing(journey, has).coveredLegs == []
    requires GetJourneyLegsWithTransfers(journey) != [] || !has
    ensures var r := CalculateJourneyPricing(journey, has);
      r.finalPrice == journey.price.value && r.originalPrice == journey.price.value as real
      && r.deutschlandTicketSavings == 0.0
  {
    PricedPartition(journey, has);
  }

  /** With an API price, the ticket and every ride covered: the final price is
      0 and the whole (positive) original price is saved. */
  lemma PricedFullyCovered(journey: Journey)
    requires HasAmount(journey.price) && AllCovered(GetJourneyLegsWithTransfers(journey), true)
    ensures var r := CalculateJourneyPricing(journey, true);
      r.finalPrice == 0 && r.deutschlandTicketSavings == r.originalPrice && r.originalPrice > 0.0
      && (journey.price.value > 0 ==> r.originalPrice == journey.price.value as real)
  {
  }

  /** With an API price, the ticket and partial coverage: the API price is
      still paid, and a positive API price yields a positive saving. */
  lemma PricedPartial(journey: Journey)
    requires HasAmount(journey.price)
    requires CalculateJourneyPricing(journey, true).hasPartialCoverage
    ensures var r := CalculateJourneyPricing(journey, true);
      r.finalPrice == journey.price.value
      && r.deutschlandTicketSavings == r.originalPrice - journey.price.value as real
      && (journey.price.value > 0 ==> r.deutschlandTicketSavings > 0.0)
  {
    PricedPartition(journey, true);
  }
}
