/** The split page's price view of each split option: which segments can be
    priced, what the traveller pays on top of a Deutschlandticket, the saving
    against the original journey, and which options are shown at all.
    Prices are cents. */
module SplitOptions {
  import opened Wrappers
  import opened Journeys
  import opened JourneyUtils
  import opened PricingUtils
  import opened TicketUtils
  import opened JourneyPricing
  import Sorting
  import Dedup

  /** A split option as the page receives it. `segments` is `None` when the
      option carries none. */
  datatype SplitOption = SplitOption(segments: Option<seq<Journey>>, totalPrice: Option<int>, savings: Option<int>)

  /** The fields `calculateSplitOptionPricing` adds to an option. An option
      without segments does not get `hasFlixTrains`; it reads as false. */
  datatype OptionPricing = OptionPricing(
    isFullyCovered: bool,
    hasRegionalTrains: bool,
    hasFlixTrains: bool,
    cannotShowPrice: bool,
    hasPartialPricing: bool,
    segmentsWithoutPricing: seq<nat>,
    adjustedTotalPrice: int,
    adjustedSavings: int)

  // ---------------------------------------------------------------------------
  // Facts about one segment

  /** `segment.price && segment.price.amount > 0` */
  predicate PositivePrice(p: Option<int>) {
    p.Some? && p.value > 0
  }

  /** Some ride of the segment is a FlixTrain. */
  predicate HasFlix(seg: Journey) {
    var t := GetJourneyLegsWithTransfers(seg);
    exists i :: 0 <= i < |t| && IsFlixTrain(t[i].leg)
  }

  /** Some ride of the segment has a regional product (the product alone
      decides here, not the line name). */
  predicate SegmentRegional(seg: Journey) {
    var t := GetJourneyLegsWithTransfers(seg);
    exists i :: 0 <= i < |t| && ProductOf(t[i].leg) in RegionalProducts
  }

  /** The ticket covers every ride of the segment. */
  predicate SegmentCovered(seg: Journey, has: bool) {
    AllCovered(GetJourneyLegsWithTransfers(seg), has)
  }

  /** A segment has no usable price: none above 0, or a FlixTrain ride. */
  predicate Unpriced(seg: Journey) {
    !PositivePrice(seg.price) || HasFlix(seg)
  }

  // ---------------------------------------------------------------------------
  // The loops' specifications, over the first n segments

  /** The indices of the unpriced segments among the first n. */
  function UnpricedUpTo(segs: seq<Journey>, n: nat): seq<nat>
    requires n <= |segs|
  {
    Dedup.IndicesWhere(segs, Unpriced, n)
  }

  /** The number of priced segments among the first n. */
  function PricedCount(segs: seq<Journey>, n: nat): nat
    requires n <= |segs|
  {
    Dedup.CountOutside(segs, Unpriced, n)
  }

  /** The prices above 0 of the segments among the first n the ticket does not cover. */
  function UncoveredSum(segs: seq<Journey>, has: bool, n: nat): int
    requires n <= |segs|
  {
    if n == 0 then 0
    else
      var p := AmountOrZero(segs[n - 1].price);
      UncoveredSum(segs, has, n - 1) + (if !SegmentCovered(segs[n - 1], has) && p > 0 then p else 0)
  }

  /** The prices of the priced segments among the first n. */
  function PricedSum(segs: seq<Journey>, n: nat): int
    requires n <= |segs|
  {
    if n == 0 then 0 else PricedSum(segs, n - 1) + (if Unpriced(segs[n - 1]) then 0 else AmountOrZero(segs[n - 1].price))
  }

  predicate AllSegmentsCovered(segs: seq<Journey>, has: bool) {
    forall i :: 0 <= i < |segs| ==> SegmentCovered(segs[i], has)
  }

  predicate AnySegmentRegional(segs: seq<Journey>) {
    exists i :: 0 <= i < |segs| && SegmentRegional(segs[i])
  }

  predicate AnySegmentFlix(segs: seq<Journey>) {
    exists i :: 0 <= i < |segs| && HasFlix(segs[i])
  }

  function Max(a: int, b: int): int {
    if a >= b then a else b
  }

  /** The pricing of one option, given the original journey if the page has
      one and whether the traveller holds the ticket. */
  function Pricing(o: SplitOption, original: Option<Journey>, has: bool): OptionPricing {
    if o.segments.None? then
      OptionPricing(false, false, false, false, false, [], AmountOrZero(o.totalPrice), AmountOrZero(o.savings))
    else
      var segs := o.segments.value;
      var priced := PricedCount(segs, |segs|);
      var partial := !has && 0 < priced < |segs|;
      var total :=
        if original.None? then AmountOrZero(o.totalPrice)
        else if has then UncoveredSum(segs, has, |segs|)
        else if partial then PricedSum(segs, |segs|)
        else AmountOrZero(o.totalPrice);
      OptionPricing(
        has && AllSegmentsCovered(segs, has),
        AnySegmentRegional(segs),
        AnySegmentFlix(segs),
        !has && priced == 0,
        partial,
        if has then [] else UnpricedUpTo(segs, |segs|),
        total,
        if original.None? then AmountOrZero(o.savings) else Max(0, AmountOrZero(original.value.price) - total))
  }

  // ---------------------------------------------------------------------------
  // The computation

  /** `calculateSplitOptionPricing` */
  method CalculateSplitOptionPricing(o: SplitOption, original: Option<Journey>, has: bool) returns (p: OptionPricing)
    ensures p == Pricing(o, original, has)
  {
    if o.segments.None? {
      return OptionPricing(false, false, false, false, false, [], AmountOrZero(o.totalPrice), AmountOrZero(o.savings));
    }
    var segs := o.segments.value;
    var regional := AnySegmentRegional(segs);
    var flix := AnySegmentFlix(segs);
    var cannotShowPrice := false;
    var hasPartialPricing := false;
    var segmentsWithoutPricing: seq<nat> := [];
    var allSegmentsCovered := AllSegmentsCovered(segs, has);
    if !has {
      var segmentsWithPrice;
      segmentsWithoutPricing, segmentsWithPrice := CountPricedSegments(segs);
      cannotShowPrice := segmentsWithPrice == 0;
      hasPartialPricing := segmentsWithPrice > 0 && segmentsWithPrice < |segs|;
    }
    var adjustedTotalPrice := AmountOrZero(o.totalPrice);
    var adjustedSavings := AmountOrZero(o.savings);
    if original.Some? {
      var originalApiPrice := AmountOrZero(original.value.price);
      if has {
        adjustedTotalPrice := SumUncovered(segs, has);
      } else if hasPartialPricing {
        adjustedTotalPrice := SumPriced(segs, segmentsWithoutPricing);
      }
      adjustedSavings := Max(0, originalApiPrice - adjustedTotalPrice);
    }
    p := OptionPricing(allSegmentsCovered && has, regional, flix, cannotShowPrice, hasPartialPricing,
                       segmentsWithoutPricing, adjustedTotalPrice, adjustedSavings);
  }

  /** The `forEach` that lists the unpriced segments and counts the priced ones. */
  method CountPricedSegments(segs: seq<Journey>) returns (without: seq<nat>, withPrice: nat)
    ensures without == UnpricedUpTo(segs, |segs|) && withPrice == PricedCount(segs, |segs|)
  {
    without := [];
    withPrice := 0;
    var i := 0;
    while i < |segs|
      invariant 0 <= i <= |segs|
      invariant without == UnpricedUpTo(segs, i) && withPrice == PricedCount(segs, i)
    {
      var hasPrice := PositivePrice(segs[i].price);
      var segmentHasFlixTrain := HasFlix(segs[i]);
      if !hasPrice || segmentHasFlixTrain {
        without := without + [i];
      } else {
        withPrice := withPrice + 1;
      }
      i := i + 1;
    }
  }

  /** The loop that adds up what the ticket does not cover. */
  method SumUncovered(segs: seq<Journey>, has: bool) returns (total: int)
    ensures total == UncoveredSum(segs, has, |segs|)
  {
    total := 0;
    var i := 0;
    while i < |segs|
      invariant 0 <= i <= |segs|
      invariant total == UncoveredSum(segs, has, i)
    {
      var segmentCovered := SegmentCovered(segs[i], has);
      var segmentPrice := AmountOrZero(segs[i].price);
      if !segmentCovered && segmentPrice > 0 {
        total := total + segmentPrice;
      }
      i := i + 1;
    }
  }

  /** The loop that adds up the segments not listed as unpriced. */
  method SumPriced(segs: seq<Journey>, without: seq<nat>) returns (total: int)
    requires without == UnpricedUpTo(segs, |segs|)
    ensures total == PricedSum(segs, |segs|)
  {
    UnpricedMembers(segs, |segs|);
    total := 0;
    var i := 0;
    while i < |segs|
      invariant 0 <= i <= |segs|
      invariant total == PricedSum(segs, i)
    {
      if i !in without {
        total := total + AmountOrZero(segs[i].price);
      }
      i := i + 1;
    }
  }

  // ---------------------------------------------------------------------------
  // Properties of the pricing

  /** The unpriced list holds exactly the unpriced indices, in increasing
      order, and with the priced count it accounts for every segment. */
  lemma UnpricedMembers(segs: seq<Journey>, n: nat)
    requires n <= |segs|
    ensures forall k :: k in UnpricedUpTo(segs, n) <==> 0 <= k < n && Unpriced(segs[k])
    ensures forall i, j :: 0 <= i < j < |UnpricedUpTo(segs, n)| ==> UnpricedUpTo(segs, n)[i] < UnpricedUpTo(segs, n)[j]
    ensures |UnpricedUpTo(segs, n)| + PricedCount(segs, n) == n
  {
    Dedup.IndicesWhereMembers(segs, Unpriced, n);
  }

  /** No priced segment among the first n exactly when the count is 0; every
      one priced exactly when the count is n. */
  lemma PricedCountExtremes(segs: seq<Journey>, n: nat)
    requires n <= |segs|
    ensures PricedCount(segs, n) <= n
    ensures PricedCount(segs, n) == 0 <==> forall k :: 0 <= k < n ==> Unpriced(segs[k])
    ensures PricedCount(segs, n) == n <==> forall k :: 0 <= k < n ==> !Unpriced(segs[k])
  {
    CountOutsideExtremes(segs, Unpriced, n);
  }

  lemma {:induction false} CountOutsideExtremes<T>(s: seq<T>, P: T -> bool, n: nat)
    requires n <= |s|
    ensures Dedup.CountOutside(s, P, n) <= n
    ensures Dedup.CountOutside(s, P, n) == 0 <==> forall k :: 0 <= k < n ==> P(s[k])
    ensures Dedup.CountOutside(s, P, n) == n <==> forall k :: 0 <= k < n ==> !P(s[k])
  {
    if n > 0 {
      CountOutsideExtremes(s, P, n - 1);
    }
  }

  /** An option without segments gets all flags false and keeps its own
      price and saving (0 when missing). */
  lemma NoSegments(o: SplitOption, original: Option<Journey>, has: bool)
    requires o.segments.None?
    ensures var r := Pricing(o, original, has);
      !r.isFullyCovered && !r.hasRegionalTrains && !r.cannotShowPrice && !r.hasPartialPricing
      && r.segmentsWithoutPricing == []
      && r.adjustedTotalPrice == AmountOrZero(o.totalPrice) && r.adjustedSavings == AmountOrZero(o.savings)
  {
  }

  /** Without the ticket: the unpriced list holds exactly the segments without a
      price above 0 or with a FlixTrain ride; the price cannot be shown exactly
      when no segment is priced; pricing is partial exactly when some segments
      are priced and some are not. */
  lemma WithoutTicket(o: SplitOption, original: Option<Journey>)
    requires o.segments.Some?
    ensures var segs := o.segments.value;
      var r := Pricing(o, original, false);
      (forall k :: k in r.segmentsWithoutPricing <==> 0 <= k < |segs| && Unpriced(segs[k]))
      && (r.cannotShowPrice <==> forall k :: 0 <= k < |segs| ==> Unpriced(segs[k]))
      && (r.hasPartialPricing <==>
            (exists k :: 0 <= k < |segs| && !Unpriced(segs[k])) && (exists k :: 0 <= k < |segs| && Unpriced(segs[k])))
  {
    var segs := o.segments.value;
    UnpricedMembers(segs, |segs|);
    PricedCountExtremes(segs, |segs|);
  }

  /** Under partial pricing with an original journey, the total is the sum of
      the priced segments, which is above 0. */
  lemma PartialTotal(o: SplitOption, original: Journey)
    requires Pricing(o, Some(original), false).hasPartialPricing
    ensures var r := Pricing(o, Some(original), false);
      r.adjustedTotalPrice == PricedSum(o.segments.value, |o.segments.value|) && r.adjustedTotalPrice > 0
  {
    var segs := o.segments.value;
    PricedSumPositive(segs, |segs|);
  }

  lemma {:induction false} PricedSumPositive(segs: seq<Journey>, n: nat)
    requires n <= |segs|
    ensures PricedSum(segs, n) >= 0
    ensures PricedCount(segs, n) > 0 ==> PricedSum(segs, n) > 0
  {
    if n > 0 {
      PricedSumPositive(segs, n - 1);
    }
  }

  /** With the ticket: no price warning, no unpriced list, and with an
      original journey the total is what the ticket leaves uncovered, 0 when
      every segment is covered. */
  lemma WithTicket(o: SplitOption, original: Option<Journey>)
    requires o.segments.Some?
    ensures var r := Pricing(o, original, true);
      !r.cannotShowPrice && !r.hasPartialPricing && r.segmentsWithoutPricing == []
      && (original.Some? ==> r.adjustedTotalPrice == UncoveredSum(o.segments.value, true, |o.segments.value|))
      && (original.Some? && r.isFullyCovered ==> r.adjustedTotalPrice == 0)
      && (original.Some? ==> r.adjustedTotalPrice >= 0)
  {
    var segs := o.segments.value;
    UncoveredSumFacts(segs, |segs|);
  }

  lemma {:induction false} UncoveredSumFacts(segs: seq<Journey>, n: nat)
    requires n <= |segs|
    ensures UncoveredSum(segs, true, n) >= 0
    ensures (forall i :: 0 <= i < n ==> SegmentCovered(segs[i], true)) ==> UncoveredSum(segs, true, n) == 0
  {
    if n > 0 {
      UncoveredSumFacts(segs, n - 1);
    }
  }

  /** With an original journey the saving is the original price minus the
      adjusted total, floored at 0: never negative, and positive only when the
      split is cheaper. */
  lemma SavingsNeverNegative(o: SplitOption, original: Journey, has: bool)
    requires o.segments.Some?
    ensures var r := Pricing(o, Some(original), has);
      r.adjustedSavings >= 0
      && r.adjustedSavings == Max(0, AmountOrZero(original.price) - r.adjustedTotalPrice)
      && (r.adjustedSavings > 0 <==> r.adjustedTotalPrice < AmountOrZero(original.price))
  {
  }

  /** Fully covered means: the ticket is held, the option has segments, and
      the ticket covers every ride of every segment. */
  lemma FullyCoveredMeaning(o: SplitOption, original: Option<Journey>, has: bool)
    ensures Pricing(o, original, has).isFullyCovered <==>
      has && o.segments.Some?
      && forall i, k :: 0 <= i < |o.segments.value| && 0 <= k < |GetJourneyLegsWithTransfers(o.segments.value[i])| ==>
           IsLegCovered(GetJourneyLegsWithTransfers(o.segments.value[i])[k].leg, has)
  {
  }

  // ---------------------------------------------------------------------------
  // Which options to show

  /** An option with its pricing. */
  datatype PricedOption = PricedOption(option: SplitOption, pricing: OptionPricing)

  /** Complete pricing: neither missing nor partial. */
  predicate Complete(p: PricedOption) {
    !p.pricing.cannotShowPrice && !p.pricing.hasPartialPricing
  }

  /** `-adjustedSavings`: ascending on it is the source's descending sort. */
  function NegAdjustedSavings(p: PricedOption): int {
    -p.pricing.adjustedSavings
  }

  function WithPricing(options: seq<SplitOption>, original: Option<Journey>, has: bool): (r: seq<PricedOption>)
    ensures |r| == |options|
    ensures forall i :: 0 <= i < |options| ==> r[i] == PricedOption(options[i], Pricing(options[i], original, has))
  {
    seq(|options|, i requires 0 <= i < |options| => PricedOption(options[i], Pricing(options[i], original, has)))
  }

  /** The options ranked by adjusted saving, highest first. */
  function Ranked(options: seq<SplitOption>, original: Option<Journey>, has: bool): (r: seq<PricedOption>)
    ensures |r| == |options|
  {
    Sorting.SortByLength(WithPricing(options, original, has), NegAdjustedSavings);
    Sorting.SortBy(WithPricing(options, original, has), NegAdjustedSavings)
  }

  /** The index of the first complete option, or |s| when none is complete. */
  function FirstComplete(s: seq<PricedOption>): (k: nat)
    ensures k <= |s|
    ensures k < |s| ==> Complete(s[k])
    ensures forall i :: 0 <= i < k ==> !Complete(s[i])
  {
    if s == [] then 0 else if Complete(s[0]) then 0 else 1 + FirstComplete(s[1..])
  }

  /** What `getOptionsToShow` returns. */
  function OptionsToShow(options: seq<SplitOption>, original: Option<Journey>, has: bool): seq<PricedOption> {
    if |options| == 0 then []
    else
      var sorted := Ranked(options, original, has);
      if has || Complete(sorted[0]) then [sorted[0]]
      else
        var k := FirstComplete(sorted);
        if k < |sorted| then sorted[..k + 1] else sorted
  }

  /** `getOptionsToShow` */
  method GetOptionsToShow(options: seq<SplitOption>, original: Option<Journey>, has: bool) returns (shown: seq<PricedOption>)
    ensures shown == OptionsToShow(options, original, has)
  {
    if |options| == 0 {
      return [];
    }
    var optionsWithPricing := PriceAll(options, original, has);
    var sortedOptions := Sorting.SortBy(optionsWithPricing, NegAdjustedSavings);
    assert sortedOptions == Ranked(options, original, has);
    if has {
      return [sortedOptions[0]];
    }
    var bestOption := sortedOptions[0];
    if Complete(bestOption) {
      return [bestOption];
    }
    shown := ThroughFirstComplete(sortedOptions);
  }

  /** The loop of `getOptionsToShow` that collects the ranked options up to
      and including the first complete one, or all of them when none is. */
  method ThroughFirstComplete(sortedOptions: seq<PricedOption>) returns (shown: seq<PricedOption>)
    ensures var k := FirstComplete(sortedOptions);
      shown == if k < |sortedOptions| then sortedOptions[..k + 1] else sortedOptions
  {
    shown := [];
    var foundCompleteOption := false;
    var j := 0;
    while j < |sortedOptions|
      invariant 0 <= j <= |sortedOptions|
      invariant shown == sortedOptions[..j]
      invariant forall m :: 0 <= m < j ==> !Complete(sortedOptions[m])
      invariant !foundCompleteOption
    {
      shown := shown + [sortedOptions[j]];
      if Complete(sortedOptions[j]) {
        foundCompleteOption := true;
        break;
      }
      j := j + 1;
    }
    if !foundCompleteOption {
      shown := sortedOptions;
    }
  }

  /** The ranking orders by adjusted saving, highest first, and is a
      permutation of the priced options. */
  lemma RankedOrder(options: seq<SplitOption>, original: Option<Journey>, has: bool)
    ensures var sorted := Ranked(options, original, has);
      (forall i, j :: 0 <= i < j < |sorted| ==> sorted[i].pricing.adjustedSavings >= sorted[j].pricing.adjustedSavings)
      && multiset(sorted) == multiset(WithPricing(options, original, has))
  {
    var w := WithPricing(options, original, has);
    Sorting.SortByCorrect(w, NegAdjustedSavings);
    var sorted := Ranked(options, original, has);
    assert forall i, j :: 0 <= i < j < |sorted| ==> NegAdjustedSavings(sorted[i]) <= NegAdjustedSavings(sorted[j]);
  }

  /** `splitOptions.map(...)` with the pricing of each option. */
  method PriceAll(options: seq<SplitOption>, original: Option<Journey>, has: bool) returns (priced: seq<PricedOption>)
    ensures priced == WithPricing(options, original, has)
  {
    priced := [];
    var i := 0;
    while i < |options|
      invariant 0 <= i <= |options|
      invariant priced == WithPricing(options[..i], original, has)
    {
      var pricing := CalculateSplitOptionPricing(options[i], original, has);
      priced := priced + [PricedOption(options[i], pricing)];
      i := i + 1;
    }
    assert options[..i] == options;
  }

  /** The shown options: none exactly when there are none; otherwise a prefix
      of the ranking; a single option with the ticket; otherwise the prefix up
      to and with the first complete option, or every option when none is
      complete. */
  lemma OptionsToShowShape(options: seq<SplitOption>, original: Option<Journey>, has: bool)
    ensures var r := OptionsToShow(options, original, has);
      var sorted := Ranked(options, original, has);
      (r == [] <==> options == [])
      && |r| <= |sorted| && r == sorted[..|r|]
      && (has && r != [] ==> |r| == 1)
      && (!has && r != [] ==>
            (forall i :: 0 <= i < |r| - 1 ==> !Complete(r[i]))
            && (Complete(r[|r| - 1]) || r == sorted))
  {
    var sorted := Ranked(options, original, has);
    if options != [] {
      assert sorted[..|sorted|] == sorted;
    }
  }

  // ---------------------------------------------------------------------------
  // Changes

  /** The sum of `legs.length - 1` over the first n segments. */
  function ChangesWithin(segs: seq<Journey>, n: nat): int
    requires n <= |segs|
  {
    if n == 0 then 0 else ChangesWithin(segs, n - 1) + |segs[n - 1].legs| - 1
  }

  /** The number of legs of the first n segments. */
  function LegCount(segs: seq<Journey>, n: nat): nat
    requires n <= |segs|
  {
    if n == 0 then 0 else LegCount(segs, n - 1) + |segs[n - 1].legs|
  }

  /** `totalChanges`: the changes inside the segments plus one between each
      two segments. */
  function TotalChanges(segs: seq<Journey>): int {
    ChangesWithin(segs, |segs|) + (|segs| - 1)
  }

  lemma {:induction false} ChangesWithinLegCount(segs: seq<Journey>, n: nat)
    requires n <= |segs|
    ensures ChangesWithin(segs, n) == LegCount(segs, n) - n
  {
    if n > 0 {
      ChangesWithinLegCount(segs, n - 1);
    }
  }

  /** The changes of a split option are its legs minus one: every leg after
      the first begins with a change. */
  lemma TotalChangesIsLegsMinusOne(segs: seq<Journey>)
    ensures TotalChanges(segs) == LegCount(segs, |segs|) - 1
  {
    ChangesWithinLegCount(segs, |segs|);
  }
}
