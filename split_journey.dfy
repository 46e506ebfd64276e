/** The split-ticket engine behind `POST /api/split-journey`: for every interior
    stop of the booked journey it asks the journey gateway for the two halves
    (origin to stop, stop to destination), keeps the splits whose two tickets
    cost less than the through ticket, and answers with them ranked by saving,
    either as one JSON answer or as a stream of progress events.

    The gateway (`client.journeys` of the provider library) is a function
    parameter from (from id, to id, options, departure) to a list of journeys
    or a failure. Prices are cents, timestamps milliseconds. */
module SplitJourney {
  import opened Wrappers
  import opened Strings
  import opened Journeys
  import Dedup
  import Sorting

  /** `MIN_SINGLE_SAVINGS_FACTOR`: a split is kept when its price is below the
      original price times this factor. */
  const MinSingleSavingsFactor: int := 1
  /** `TIME_TOLERANCE_MS` */
  const TimeToleranceMs: int := 60000
  /** `DEFAULT_BATCH_SIZE` */
  const DefaultBatchSize: nat := 1

  // ---------------------------------------------------------------------------
  // Query options

  /** The BahnCard discount the provider applies. */
  datatype LoyaltyCard = BahnCard(discount: int, travelClass: Option<int>)

  /** The search options every gateway call carries (besides its departure). */
  datatype QueryOptions = QueryOptions(
    results: int,
    stopovers: bool,
    firstClass: bool,
    loyaltyCard: Option<LoyaltyCard>,
    age: Option<int>,
    deutschlandTicketDiscount: bool)

  /** `parseInt(s, 10)` of an optional string; `parseInt(undefined)` is NaN. */
  function ParseOptional(s: Option<string>): Option<int> {
    if s.Some? then ParseInt(s.value) else None
  }

  /** `buildQueryOptions`. The age is taken only when the request carried a
      number, so it arrives here as an optional number. */
  function BuildQueryOptions(bahnCard: Option<string>, hasDeutschlandTicket: bool, passengerAge: Option<int>, travelClass: Option<string>): (o: QueryOptions)
    ensures o.results == 1 && o.stopovers
    ensures o.firstClass <==> ParseInt(Or(travelClass, "2")) == Some(1)
    ensures o.loyaltyCard.Some? <==>
      Truthy(bahnCard) && bahnCard.value != "none" && ParseInt(bahnCard.value) in {Some(25), Some(50), Some(100)}
    ensures o.loyaltyCard.Some? ==>
      Some(o.loyaltyCard.value.discount) == ParseInt(bahnCard.value)
      && o.loyaltyCard.value.travelClass == ParseInt(Or(travelClass, "2"))
    ensures o.age == passengerAge
    ensures o.deutschlandTicketDiscount == hasDeutschlandTicket
  {
    var travelClassNumber := ParseInt(Or(travelClass, "2"));
    var discount := ParseOptional(bahnCard);
    var card :=
      if Truthy(bahnCard) && bahnCard.value != "none" && discount.Some? && discount.value in [25, 50, 100]
      then Some(BahnCard(discount.value, travelClassNumber))
      else None;
    QueryOptions(1, true, travelClassNumber == Some(1), card, passengerAge, hasDeutschlandTicket)
  }

  // ---------------------------------------------------------------------------
  // Split candidates

  /** A station of a split: the stop's id and name. */
  datatype StationRef = StationRef(id: Option<string>, name: Option<string>)

  /** A split candidate: an interior stopover where one can leave and re-board. */
  datatype SplitPoint = SplitPoint(
    station: StationRef,
    arrival: int,
    departure: int,
    trainLine: Option<Line>,
    loadFactor: Option<string>,
    legIndex: nat,
    stopIndex: nat)

  /** Candidates are told apart by stop id, the key of the extractor's `Map`. */
  function StationKey(p: SplitPoint): Option<string> {
    p.station.id
  }

  /** The very first stop of the journey and the very last are never split points. */
  predicate IsEndpoint(legs: seq<Leg>, legIndex: nat, stops: seq<Stopover>, stopIndex: nat) {
    (legIndex == 0 && stopIndex == 0) || (legIndex == |legs| - 1 && stopIndex == |stops| - 1)
  }

  /** The candidate stopover `stops[k]` of `legs[li]` gives, if any. */
  function CandidateAt(legs: seq<Leg>, li: nat, stops: seq<Stopover>, k: nat): Option<SplitPoint>
    requires li < |legs| && k < |stops|
  {
    var s := stops[k];
    if IsEndpoint(legs, li, stops, k) then None
    else if s.arrival.None? || s.departure.None? || s.stop.None? then None
    else Some(SplitPoint(StationRef(s.stop.value.id, s.stop.value.name), s.arrival.value, s.departure.value,
                         legs[li].line, s.loadFactor, li, k))
  }

  /** The candidates of the first k stopovers of `legs[li]`. */
  function StopCandidates(legs: seq<Leg>, li: nat, stops: seq<Stopover>, k: nat): seq<SplitPoint>
    requires li < |legs| && k <= |stops|
  {
    if k == 0 then []
    else
      var c := CandidateAt(legs, li, stops, k - 1);
      StopCandidates(legs, li, stops, k - 1) + (if c.Some? then [c.value] else [])
  }

  /** The candidates of one leg: none from a walk or a leg without stopovers. */
  function LegCandidates(legs: seq<Leg>, li: nat): seq<SplitPoint>
    requires li < |legs|
  {
    var leg := legs[li];
    if leg.walking || leg.stopovers.None? then []
    else StopCandidates(legs, li, leg.stopovers.value, |leg.stopovers.value|)
  }

  /** Every candidate of the first n legs, repeats included, in leg/stop order. */
  function Candidates(legs: seq<Leg>, n: nat): seq<SplitPoint>
    requires n <= |legs|
  {
    if n == 0 then [] else Candidates(legs, n - 1) + LegCandidates(legs, n - 1)
  }

  /** What makes a split point legitimate: it comes from a non-walking leg with
      stopovers, from a stopover with arrival, departure and stop, which is not
      the journey's first or last stop. */
  predicate WellFormedPoint(legs: seq<Leg>, p: SplitPoint) {
    p.legIndex < |legs| && !legs[p.legIndex].walking && legs[p.legIndex].stopovers.Some?
    && var stops := legs[p.legIndex].stopovers.value;
    p.stopIndex < |stops| && !IsEndpoint(legs, p.legIndex, stops, p.stopIndex)
    && var s := stops[p.stopIndex];
    s.arrival == Some(p.arrival) && s.departure == Some(p.departure) && s.stop.Some?
    && p.station == StationRef(s.stop.value.id, s.stop.value.name)
    && p.trainLine == legs[p.legIndex].line
  }

  lemma {:induction false} StopCandidatesWellFormed(legs: seq<Leg>, li: nat, k: nat)
    requires li < |legs| && !legs[li].walking && legs[li].stopovers.Some?
    requires k <= |legs[li].stopovers.value|
    ensures forall p :: p in StopCandidates(legs, li, legs[li].stopovers.value, k) ==> WellFormedPoint(legs, p) && p.legIndex == li
  {
    if k > 0 {
      StopCandidatesWellFormed(legs, li, k - 1);
    }
  }

  /** No candidate comes from a walk, a leg without stopovers, the first stop
      of the first leg or the last stop of the last leg, or a stopover missing
      its arrival, departure or stop. */
  lemma {:induction false} CandidatesWellFormed(legs: seq<Leg>, n: nat)
    requires n <= |legs|
    ensures forall p :: p in Candidates(legs, n) ==> WellFormedPoint(legs, p) && p.legIndex < n
  {
    if n > 0 {
      CandidatesWellFormed(legs, n - 1);
      var leg := legs[n - 1];
      if !leg.walking && leg.stopovers.Some? {
        StopCandidatesWellFormed(legs, n - 1, |leg.stopovers.value|);
      }
    }
  }

  /** Every eligible stopover is a candidate: a well-formed point of a leg
      among the first n appears in `Candidates`. */
  lemma {:induction false} CandidatesComplete(legs: seq<Leg>, n: nat, li: nat, k: nat)
    requires li < n <= |legs| && !legs[li].walking && legs[li].stopovers.Some?
    requires k < |legs[li].stopovers.value|
    requires CandidateAt(legs, li, legs[li].stopovers.value, k).Some?
    ensures CandidateAt(legs, li, legs[li].stopovers.value, k).value in Candidates(legs, n)
  {
    var stops := legs[li].stopovers.value;
    var c := CandidateAt(legs, li, stops, k).value;
    var front := Candidates(legs, n - 1);
    var last := LegCandidates(legs, n - 1);
    assert Candidates(legs, n) == front + last;
    if li == n - 1 {
      StopCandidatesContain(legs, li, stops, |stops|, k);
      assert last == StopCandidates(legs, li, stops, |stops|);
      assert c in last;
    } else {
      CandidatesComplete(legs, n - 1, li, k);
      assert c in front;
    }
  }

  lemma {:induction false} StopCandidatesContain(legs: seq<Leg>, li: nat, stops: seq<Stopover>, m: nat, k: nat)
    requires li < |legs| && k < m <= |stops|
    requires CandidateAt(legs, li, stops, k).Some?
    ensures CandidateAt(legs, li, stops, k).value in StopCandidates(legs, li, stops, m)
  {
    if k < m - 1 {
      StopCandidatesContain(legs, li, stops, m - 1, k);
    }
  }

  /** `extractSplitPoints`: walks the legs and their stopovers in order and
      records a candidate under its stop id unless that id is already taken. */
  method ExtractSplitPoints(journey: Journey) returns (points: seq<SplitPoint>)
    ensures points == Dedup.KeepFirst(Candidates(journey.legs, |journey.legs|), StationKey)
  {
    var legs := journey.legs;
    var seen: set<Option<string>> := {};
    points := [];
    var li := 0;
    while li < |legs|
      invariant 0 <= li <= |legs|
      invariant points == Dedup.KeepFirst(Candidates(legs, li), StationKey)
      invariant seen == Dedup.Keys(Candidates(legs, li), StationKey)
    {
      points, seen := ScanLeg(legs, li, points, seen);
      li := li + 1;
    }
  }

  /** One turn of the outer loop of `extractSplitPoints`: the stopovers of
      `legs[li]`, unless it is a walk or has none. */
  method ScanLeg(legs: seq<Leg>, li: nat, points0: seq<SplitPoint>, seen0: set<Option<string>>)
    returns (points: seq<SplitPoint>, seen: set<Option<string>>)
    requires li < |legs|
    requires points0 == Dedup.KeepFirst(Candidates(legs, li), StationKey)
    requires seen0 == Dedup.Keys(Candidates(legs, li), StationKey)
    ensures points == Dedup.KeepFirst(Candidates(legs, li + 1), StationKey)
    ensures seen == Dedup.Keys(Candidates(legs, li + 1), StationKey)
  {
    points, seen := points0, seen0;
    var leg := legs[li];
    ghost var before := Candidates(legs, li);
    CandidatesStep(legs, li);
    if !leg.walking && leg.stopovers.Some? {
      points, seen := ScanStopovers(legs, li, leg.stopovers.value, points, seen, before);
    }
  }

  /** The inner loop of `extractSplitPoints` over the stopovers of `legs[li]`,
      continuing the keep-first walk over the candidates `visited` so far. */
  method ScanStopovers(legs: seq<Leg>, li: nat, stops: seq<Stopover>, points0: seq<SplitPoint>, seen0: set<Option<string>>, ghost visited0: seq<SplitPoint>)
    returns (points: seq<SplitPoint>, seen: set<Option<string>>)
    requires li < |legs|
    requires points0 == Dedup.KeepFirst(visited0, StationKey) && seen0 == Dedup.Keys(visited0, StationKey)
    ensures points == Dedup.KeepFirst(visited0 + StopCandidates(legs, li, stops, |stops|), StationKey)
    ensures seen == Dedup.Keys(visited0 + StopCandidates(legs, li, stops, |stops|), StationKey)
  {
    points, seen := points0, seen0;
    ghost var visited := visited0;
    var k := 0;
    while k < |stops|
      invariant 0 <= k <= |stops|
      invariant visited == visited0 + StopCandidates(legs, li, stops, k)
      invariant points == Dedup.KeepFirst(visited, StationKey)
      invariant seen == Dedup.Keys(visited, StationKey)
    {
      ghost var c := CandidateAt(legs, li, stops, k);
      points, seen := VisitStop(legs, li, stops, k, points, seen, visited);
      StopCandidatesStep(legs, li, stops, k, visited0);
      visited := visited + (if c.Some? then [c.value] else []);
      k := k + 1;
    }
  }

  /** One stopover of the inner loop: its candidate, if any, is recorded
      unless its stop id is already taken. */
  method VisitStop(legs: seq<Leg>, li: nat, stops: seq<Stopover>, k: nat,
                   points0: seq<SplitPoint>, seen0: set<Option<string>>, ghost visited: seq<SplitPoint>)
    returns (points: seq<SplitPoint>, seen: set<Option<string>>)
    requires li < |legs| && k < |stops|
    requires points0 == Dedup.KeepFirst(visited, StationKey) && seen0 == Dedup.Keys(visited, StationKey)
    ensures var c := CandidateAt(legs, li, stops, k);
      var next := visited + (if c.Some? then [c.value] else []);
      points == Dedup.KeepFirst(next, StationKey) && seen == Dedup.Keys(next, StationKey)
  {
    points, seen := points0, seen0;
    var c := CandidateAt(legs, li, stops, k);
    if c.Some? {
      var p := c.value;
      KeepFirstStep(visited, p, StationKey, points, seen);
      if StationKey(p) !in seen {
        seen := seen + {StationKey(p)};
        points := points + [p];
      }
    } else {
      assert visited + [] == visited;
    }
  }

  lemma StopCandidatesStep(legs: seq<Leg>, li: nat, stops: seq<Stopover>, k: nat, prefix: seq<SplitPoint>)
    requires li < |legs| && k < |stops|
    ensures var c := CandidateAt(legs, li, stops, k);
      prefix + StopCandidates(legs, li, stops, k + 1)
      == prefix + StopCandidates(legs, li, stops, k) + (if c.Some? then [c.value] else [])
  {
  }

  lemma CandidatesStep(legs: seq<Leg>, li: nat)
    requires li < |legs|
    ensures var leg := legs[li];
      Candidates(legs, li + 1) ==
        if leg.walking || leg.stopovers.None? then Candidates(legs, li)
        else Candidates(legs, li) + StopCandidates(legs, li, leg.stopovers.value, |leg.stopovers.value|)
  {
  }

  /** One step of keep-first: a new element stays exactly when its key is new. */
  lemma KeepFirstStep<T, K>(s: seq<T>, x: T, key: T -> K, kept: seq<T>, seen: set<K>)
    requires kept == Dedup.KeepFirst(s, key) && seen == Dedup.Keys(s, key)
    ensures Dedup.KeepFirst(s + [x], key) == if key(x) in seen then kept else kept + [x]
    ensures Dedup.Keys(s + [x], key) == seen + {key(x)}
  {
    assert (s + [x])[..|s|] == s;
    Dedup.KeepFirstKeys(s, key);
    Dedup.KeysAppend(s, x, key);
  }

  /** The extracted candidates: one per stop id, the first in leg/stop order,
      every one of them legitimate. */
  lemma ExtractedPoints(journey: Journey)
    ensures var points := Dedup.KeepFirst(Candidates(journey.legs, |journey.legs|), StationKey);
      Dedup.DistinctKeys(points, StationKey)
      && Dedup.IsSubsequence(points, Candidates(journey.legs, |journey.legs|))
      && Dedup.Keys(points, StationKey) == Dedup.Keys(Candidates(journey.legs, |journey.legs|), StationKey)
      && forall p :: p in points ==> WellFormedPoint(journey.legs, p)
  {
    var all := Candidates(journey.legs, |journey.legs|);
    Dedup.KeepFirstDistinct(all, StationKey);
    Dedup.KeepFirstSubsequence(all, StationKey);
    Dedup.KeepFirstKeys(all, StationKey);
    CandidatesWellFormed(journey.legs, |journey.legs|);
    Dedup.KeepFirstMembers(all, StationKey);
  }

  // ---------------------------------------------------------------------------
  // Matching a segment search to the wanted train

  /** What `findMatchingJourney` can do: find nothing, find a journey, or throw
      (a result without legs has no `legs[0]`). */
  datatype Match = NoMatch | Matched(journey: Journey) | Crashed

  /** The journey's first leg departs within the tolerance of the target; an
      absent time on either side (an invalid date) never matches. */
  predicate WithinTolerance(j: Journey, target: Option<int>) {
    |j.legs| > 0 && target.Some? && j.legs[0].departure.Some? && Abs(j.legs[0].departure.value - target.value) <= TimeToleranceMs
  }

  /** j is one `find` passes over: it has legs and departs outside the window. */
  predicate Passed(j: Journey, target: Option<int>) {
    |j.legs| > 0 && !WithinTolerance(j, target)
  }

  /** `findMatchingJourney`: the first result departing within the tolerance. */
  function FindMatchingJourney(journeys: seq<Journey>, target: Option<int>): Match {
    if journeys == [] then NoMatch
    else if |journeys[0].legs| == 0 then Crashed
    else if WithinTolerance(journeys[0], target) then Matched(journeys[0])
    else FindMatchingJourney(journeys[1..], target)
  }

  /** No match when every result is passed over; a match departs within the
      window and is the first result not passed over; a crash comes from the
      first result not passed over having no legs. */
  lemma {:induction false} FindMatchingJourneySpec(journeys: seq<Journey>, target: Option<int>)
    ensures var r := FindMatchingJourney(journeys, target);
      (journeys == [] ==> r == NoMatch)
      && (r.NoMatch? <==> forall i :: 0 <= i < |journeys| ==> Passed(journeys[i], target))
      && (r.Matched? ==> WithinTolerance(r.journey, target))
      && (r.Matched? ==>
            exists i :: 0 <= i < |journeys| && journeys[i] == r.journey && forall k :: 0 <= k < i ==> Passed(journeys[k], target))
      && (r.Crashed? ==>
            exists i :: 0 <= i < |journeys| && |journeys[i].legs| == 0 && forall k :: 0 <= k < i ==> Passed(journeys[k], target))
  {
    if journeys != [] && |journeys[0].legs| > 0 && !WithinTolerance(journeys[0], target) {
      var rest := journeys[1..];
      FindMatchingJourneySpec(rest, target);
      assert forall k :: 1 <= k < |journeys| ==> journeys[k] == rest[k - 1];
      var r := FindMatchingJourney(rest, target);
      if r.Matched? {
        var i :| 0 <= i < |rest| && rest[i] == r.journey && forall k :: 0 <= k < i ==> Passed(rest[k], target);
        assert journeys[i + 1] == r.journey && forall k :: 0 <= k < i + 1 ==> Passed(journeys[k], target);
      }
      if r.Crashed? {
        var i :| 0 <= i < |rest| && |rest[i].legs| == 0 && forall k :: 0 <= k < i ==> Passed(rest[k], target);
        assert |journeys[i + 1].legs| == 0 && forall k :: 0 <= k < i + 1 ==> Passed(journeys[k], target);
      }
    }
  }

  /** The window is closed: a minute off matches, a minute and a millisecond does not. */
  lemma ToleranceBoundary(j: Journey, t: int)
    requires |j.legs| > 0 && j.legs[0].departure.Some?
    ensures j.legs[0].departure.value - t == 60000 ==> WithinTolerance(j, Some(t))
    ensures j.legs[0].departure.value - t == 60001 ==> !WithinTolerance(j, Some(t))
    ensures t - j.legs[0].departure.value == 60001 ==> !WithinTolerance(j, Some(t))
  {
  }

  // ---------------------------------------------------------------------------
  // One split

  /** The answer of one gateway call. */
  datatype GatewayReply = Failed | Reply(journeys: seq<Journey>)

  type Gateway = (Option<string>, Option<string>, QueryOptions, Option<int>) -> GatewayReply

  datatype TrainInfo = TrainInfo(line: string, product: string)

  /** A profitable split, as `createSplitResult` builds it. The display-only
      `savingsPercentage` is not part of the model. */
  datatype SplitResult = SplitResult(
    kind: string,
    splitStations: seq<StationRef>,
    segments: seq<Journey>,
    totalPrice: int,
    originalPrice: int,
    savings: int,
    trainInfo: TrainInfo)

  /** `createSplitResult` */
  function CreateSplitResult(kind: string, stations: seq<StationRef>, segments: seq<Journey>, totalPrice: int, originalPrice: int, trainLine: Option<Line>): (r: SplitResult)
    ensures r.kind == "same-train-" + kind + "-split"
    ensures r.savings + r.totalPrice == r.originalPrice
    ensures r.savings > 0 <==> totalPrice < originalPrice
    ensures r.trainInfo.line != "" && r.trainInfo.product != ""
    ensures trainLine.None? ==> r.trainInfo == TrainInfo("Unknown", "Unknown")
    ensures r.splitStations == stations && r.segments == segments
    ensures r.totalPrice == totalPrice && r.originalPrice == originalPrice
    ensures trainLine.Some? && Truthy(trainLine.value.name) ==> r.trainInfo.line == trainLine.value.name.value
    ensures trainLine.Some? && !Truthy(trainLine.value.name) ==> r.trainInfo.line == "Unknown"
    ensures trainLine.Some? && Truthy(trainLine.value.product) ==> r.trainInfo.product == trainLine.value.product.value
    ensures trainLine.Some? && !Truthy(trainLine.value.product) ==> r.trainInfo.product == "Unknown"
  {
    var line := if trainLine.Some? then Or(trainLine.value.name, "Unknown") else "Unknown";
    var product := if trainLine.Some? then Or(trainLine.value.product, "Unknown") else "Unknown";
    SplitResult("same-train-" + kind + "-split", stations, segments, totalPrice, originalPrice, originalPrice - totalPrice, TrainInfo(line, product))
  }

  /** What one split attempt gives: a thrown error, nothing worth offering, or a split. */
  datatype SplitOutcome = Threw | NoSplit | Found(result: SplitResult)

  /** `analyzeSingleSplit`: search both halves, pinning the first to the booked
      departure and the second to the candidate's departure, take the matching
      train of each, and offer the split when it costs something and less than
      the booked ticket. A failed call, a missing origin or destination, or a
      result without legs throws. */
  function AnalyzeSingleSplit(original: Journey, sp: SplitPoint, options: QueryOptions, originalPrice: int, gateway: Gateway): (r: SplitOutcome)
    ensures r.Found? ==> 0 < r.result.totalPrice < originalPrice && r.result.savings > 0
    ensures r.Found? ==> r.result.savings == originalPrice - r.result.totalPrice
    ensures r.Found? ==> r.result.splitStations == [sp.station] && |r.result.segments| == 2
    ensures r.Found? ==> r.result.totalPrice == AmountOrZero(r.result.segments[0].price) + AmountOrZero(r.result.segments[1].price)
    ensures |original.legs| == 0 ==> r == Threw
  {
    if |original.legs| == 0 then Threw
    else
      var origin := original.legs[0].origin;
      var destination := original.legs[|original.legs| - 1].destination;
      var originalDeparture := original.legs[0].departure;
      if origin.None? || destination.None? then Threw
      else
        var first := gateway(origin.value.id, sp.station.id, options, originalDeparture);
        var second := gateway(sp.station.id, destination.value.id, options, Some(sp.departure));
        if first.Failed? || second.Failed? then Threw
        else
          match FindMatchingJourney(first.journeys, originalDeparture)
          case Crashed => Threw
          case NoMatch => NoSplit
          case Matched(j1) =>
            match FindMatchingJourney(second.journeys, Some(sp.departure))
            case Crashed => Threw
            case NoMatch => NoSplit
            case Matched(j2) =>
              var total := AmountOrZero(j1.price) + AmountOrZero(j2.price);
              if total > 0 && total < originalPrice then
                Found(CreateSplitResult("single", [sp.station], [j1, j2], total, originalPrice, sp.trainLine))
              else NoSplit
  }

  /** A split is offered exactly when both halves found their train and the
      two prices, a missing one counted as 0, add up to something between 0 and
      the booked price; the halves are then the matched trains. */
  lemma SplitGate(original: Journey, sp: SplitPoint, options: QueryOptions, originalPrice: int, gateway: Gateway)
    requires |original.legs| > 0
    requires original.legs[0].origin.Some? && original.legs[|original.legs| - 1].destination.Some?
    ensures var first := gateway(original.legs[0].origin.value.id, sp.station.id, options, original.legs[0].departure);
      var second := gateway(sp.station.id, original.legs[|original.legs| - 1].destination.value.id, options, Some(sp.departure));
      var r := AnalyzeSingleSplit(original, sp, options, originalPrice, gateway);
      r.Found? <==>
        first.Reply? && second.Reply?
        && FindMatchingJourney(first.journeys, original.legs[0].departure).Matched?
        && FindMatchingJourney(second.journeys, Some(sp.departure)).Matched?
        && var p := AmountOrZero(FindMatchingJourney(first.journeys, original.legs[0].departure).journey.price)
                  + AmountOrZero(FindMatchingJourney(second.journeys, Some(sp.departure)).journey.price);
        0 < p < originalPrice
        && r.result.segments == [FindMatchingJourney(first.journeys, original.legs[0].departure).journey,
                                 FindMatchingJourney(second.journeys, Some(sp.departure)).journey]
  {
  }

  // ---------------------------------------------------------------------------
  // All splits

  /** The split as the analyser keeps it: found and under the savings factor. */
  predicate Keep(o: SplitOutcome, originalPrice: int) {
    o.Found? && o.result.totalPrice < originalPrice * MinSingleSavingsFactor
  }

  /** The splits kept from the first n candidates, in candidate order. */
  function Kept(original: Journey, points: seq<SplitPoint>, options: QueryOptions, originalPrice: int, gateway: Gateway, n: nat): seq<SplitResult>
    requires n <= |points|
  {
    if n == 0 then []
    else
      var o := AnalyzeSingleSplit(original, points[n - 1], options, originalPrice, gateway);
      Kept(original, points, options, originalPrice, gateway, n - 1) + (if Keep(o, originalPrice) then [o.result] else [])
  }

  lemma KeptStep(original: Journey, points: seq<SplitPoint>, options: QueryOptions, originalPrice: int, gateway: Gateway, i: nat)
    requires i < |points|
    ensures var o := AnalyzeSingleSplit(original, points[i], options, originalPrice, gateway);
      Kept(original, points, options, originalPrice, gateway, i + 1)
      == Kept(original, points, options, originalPrice, gateway, i) + (if Keep(o, originalPrice) then [o.result] else [])
  {
  }

  /** The splits found among the first n candidates, in candidate order. */
  function FoundSplits(original: Journey, points: seq<SplitPoint>, options: QueryOptions, originalPrice: int, gateway: Gateway, n: nat): seq<SplitResult>
    requires n <= |points|
  {
    if n == 0 then []
    else
      var o := AnalyzeSingleSplit(original, points[n - 1], options, originalPrice, gateway);
      FoundSplits(original, points, options, originalPrice, gateway, n - 1) + (if o.Found? then [o.result] else [])
  }

  /** With a factor of 1 the second price check repeats the gate: every found
      split is kept, and every kept split saves money. */
  lemma {:induction false} KeptIsFound(original: Journey, points: seq<SplitPoint>, options: QueryOptions, originalPrice: int, gateway: Gateway, n: nat)
    requires n <= |points|
    ensures Kept(original, points, options, originalPrice, gateway, n) == FoundSplits(original, points, options, originalPrice, gateway, n)
    ensures forall r :: r in Kept(original, points, options, originalPrice, gateway, n) ==> r.savings > 0 && r.totalPrice > 0
  {
    if n > 0 {
      KeptIsFound(original, points, options, originalPrice, gateway, n - 1);
      var o := AnalyzeSingleSplit(original, points[n - 1], options, originalPrice, gateway);
      var before := Kept(original, points, options, originalPrice, gateway, n - 1);
      KeptStep(original, points, options, originalPrice, gateway, n - 1);
      KeepIsFound(o, originalPrice);
    }
  }

  /** A found split is cheaper than the original, so with a factor of 1 the
      keep test is the found test. */
  lemma KeepIsFound(o: SplitOutcome, originalPrice: int)
    requires o.Found? ==> 0 < o.result.totalPrice < originalPrice && o.result.savings > 0
    ensures Keep(o, originalPrice) <==> o.Found?
  {
  }

  /** The text of a progress event. */
  datatype ProgressMessage =
    | AnalysisStarted                     // "Analyse gestartet..."
    | Checking(station: Option<string>)   // "Prüfe <station>..."
    | CheckedCount(done: nat, total: nat) // "<done>/<total> Stationen geprüft"
    | AnalysisFinished                    // "Analyse abgeschlossen"

  datatype Progress = Progress(checked: nat, total: nat, message: ProgressMessage, currentStation: Option<string>)

  /** The two progress reports for candidate i of the streaming loop. */
  function ProgressPair(points: seq<SplitPoint>, i: nat): seq<Progress>
    requires i < |points|
  {
    var name := points[i].station.name;
    [Progress(i, |points|, Checking(name), name),
     Progress(i + 1, |points|, if i + 1 == |points| then AnalysisFinished else CheckedCount(i + 1, |points|), name)]
  }

  /** The progress reports of the first n candidates. */
  function ProgressEvents(points: seq<SplitPoint>, n: nat): seq<Progress>
    requires n <= |points|
  {
    if n == 0 then [] else ProgressEvents(points, n - 1) + ProgressPair(points, n - 1)
  }

  /** Candidate i reports `checked = i` and then `checked = i + 1`, both out of
      the number of candidates; after the last one the message says the
      analysis is finished. */
  lemma {:induction false} ProgressEventsShape(points: seq<SplitPoint>, n: nat)
    requires n <= |points|
    ensures |ProgressEvents(points, n)| == 2 * n
    ensures forall i :: 0 <= i < n ==>
      ProgressEvents(points, n)[2 * i].checked == i && ProgressEvents(points, n)[2 * i + 1].checked == i + 1
    ensures forall e :: e in ProgressEvents(points, n) ==> e.total == |points|
    ensures n == |points| > 0 ==> ProgressEvents(points, n)[2 * n - 1].message == AnalysisFinished
  {
    if n > 0 {
      ProgressEventsShape(points, n - 1);
      var p := ProgressEvents(points, n - 1);
      assert ProgressEvents(points, n) == p + ProgressPair(points, n - 1);
      assert forall i :: 0 <= i < n - 1 ==> ProgressEvents(points, n)[2 * i] == p[2 * i] && ProgressEvents(points, n)[2 * i + 1] == p[2 * i + 1];
    }
  }

  /** `analyzeSplitPoints` with a progress callback: one candidate at a time,
      reporting before and after each; a thrown attempt is swallowed. */
  method AnalyzeSplitPointsStreaming(original: Journey, points: seq<SplitPoint>, options: QueryOptions, originalPrice: int, gateway: Gateway)
    returns (kept: seq<SplitResult>, events: seq<Progress>)
    ensures kept == Kept(original, points, options, originalPrice, gateway, |points|)
    ensures events == ProgressEvents(points, |points|)
  {
    kept := [];
    events := [];
    var i := 0;
    while i < |points|
      invariant 0 <= i <= |points|
      invariant kept == Kept(original, points, options, originalPrice, gateway, i)
      invariant events == ProgressEvents(points, i)
    {
      var sp := points[i];
      var before := Progress(i, |points|, Checking(sp.station.name), sp.station.name);
      events := events + [before];
      kept := CheckCandidate(original, points, options, originalPrice, gateway, i, kept);
      var message := if i + 1 == |points| then AnalysisFinished else CheckedCount(i + 1, |points|);
      var after := Progress(i + 1, |points|, message, sp.station.name);
      ProgressStep(points, i);
      events := events + [after];
      i := i + 1;
    }
  }

  /** The reports of one more candidate: its "checking" report, then its
      "checked" report. */
  lemma ProgressStep(points: seq<SplitPoint>, i: nat)
    requires i < |points|
    ensures var name := points[i].station.name;
      var message := if i + 1 == |points| then AnalysisFinished else CheckedCount(i + 1, |points|);
      ProgressEvents(points, i + 1)
      == ProgressEvents(points, i) + [Progress(i, |points|, Checking(name), name)] + [Progress(i + 1, |points|, message, name)]
  {
    var e := ProgressEvents(points, i);
    assert ProgressEvents(points, i + 1) == e + ProgressPair(points, i);
  }

  /** One candidate of the streaming loop: analysed, and kept when it saves
      enough. */
  method CheckCandidate(original: Journey, points: seq<SplitPoint>, options: QueryOptions, originalPrice: int, gateway: Gateway,
                        i: nat, kept0: seq<SplitResult>)
    returns (kept: seq<SplitResult>)
    requires i < |points|
    requires kept0 == Kept(original, points, options, originalPrice, gateway, i)
    ensures kept == Kept(original, points, options, originalPrice, gateway, i + 1)
  {
    kept := kept0;
    var option := AnalyzeSingleSplit(original, points[i], options, originalPrice, gateway);
    if Keep(option, originalPrice) {
      kept := kept + [option.result];
    }
    KeptStep(original, points, options, originalPrice, gateway, i);
  }

  /** `analyzeSplitPoints` without a callback: slices of `batchSize`
      candidates, each slice settled as a whole and its kept splits appended
      in slice order. */
  method AnalyzeSplitPointsBatched(original: Journey, points: seq<SplitPoint>, options: QueryOptions, originalPrice: int, gateway: Gateway, batchSize: nat)
    returns (kept: seq<SplitResult>)
    requires batchSize >= 1
    ensures kept == Kept(original, points, options, originalPrice, gateway, |points|)
  {
    kept := [];
    var i := 0;
    while i < |points|
      invariant 0 <= i <= |points|
      invariant kept == Kept(original, points, options, originalPrice, gateway, i)
      decreases |points| - i
    {
      var end := if i + batchSize < |points| then i + batchSize else |points|;
      kept := SettleBatch(original, points, options, originalPrice, gateway, i, end, kept);
      i := end;
    }
  }

  /** `Promise.allSettled` over the batch `points.slice(start, end)`: the outcome
      of each candidate, in candidate order. */
  function Settle(original: Journey, points: seq<SplitPoint>, start: nat, end: nat, options: QueryOptions, originalPrice: int, gateway: Gateway): (r: seq<SplitOutcome>)
    requires start <= end <= |points|
    ensures |r| == end - start
  {
    seq(end - start, k requires 0 <= k < end - start => AnalyzeSingleSplit(original, points[start + k], options, originalPrice, gateway))
  }

  /** The k-th outcome of a batch is that of candidate start + k. */
  lemma SettleAt(original: Journey, points: seq<SplitPoint>, start: nat, end: nat, options: QueryOptions, originalPrice: int, gateway: Gateway, k: nat)
    requires start <= end <= |points| && k < end - start
    ensures Settle(original, points, start, end, options, originalPrice, gateway)[k]
      == AnalyzeSingleSplit(original, points[start + k], options, originalPrice, gateway)
  {
  }

  /** One batch: all its candidates settled, then its kept splits appended. */
  method SettleBatch(original: Journey, points: seq<SplitPoint>, options: QueryOptions, originalPrice: int, gateway: Gateway,
                     start: nat, end: nat, kept0: seq<SplitResult>)
    returns (kept: seq<SplitResult>)
    requires start <= end <= |points|
    requires kept0 == Kept(original, points, options, originalPrice, gateway, start)
    ensures kept == Kept(original, points, options, originalPrice, gateway, end)
  {
    var settled := Settle(original, points, start, end, options, originalPrice, gateway);
    assert start + |settled| == end;
    kept := KeepSettled(original, points, options, originalPrice, gateway, start, settled, kept0);
  }

  /** Walks one settled batch in order, keeping the profitable splits. */
  method KeepSettled(original: Journey, points: seq<SplitPoint>, options: QueryOptions, originalPrice: int, gateway: Gateway,
                     start: nat, settled: seq<SplitOutcome>, kept0: seq<SplitResult>)
    returns (kept: seq<SplitResult>)
    requires start + |settled| <= |points|
    requires settled == Settle(original, points, start, start + |settled|, options, originalPrice, gateway)
    requires kept0 == Kept(original, points, options, originalPrice, gateway, start)
    ensures kept == Kept(original, points, options, originalPrice, gateway, start + |settled|)
  {
    kept := kept0;
    var k := 0;
    while k < |settled|
      invariant 0 <= k <= |settled|
      invariant kept == Kept(original, points, options, originalPrice, gateway, start + k)
    {
      if Keep(settled[k], originalPrice) {
        kept := kept + [settled[k].result];
      }
      KeptSettledStep(original, points, options, originalPrice, gateway, start, settled, k);
      k := k + 1;
    }
  }

  /** The k-th settled outcome of a batch is the next candidate's. */
  lemma KeptSettledStep(original: Journey, points: seq<SplitPoint>, options: QueryOptions, originalPrice: int, gateway: Gateway,
                        start: nat, settled: seq<SplitOutcome>, k: nat)
    requires start + |settled| <= |points| && k < |settled|
    requires settled == Settle(original, points, start, start + |settled|, options, originalPrice, gateway)
    ensures Kept(original, points, options, originalPrice, gateway, start + k + 1)
      == Kept(original, points, options, originalPrice, gateway, start + k) + (if Keep(settled[k], originalPrice) then [settled[k].result] else [])
  {
    SettleAt(original, points, start, start + |settled|, options, originalPrice, gateway, k);
    KeptStep(original, points, options, originalPrice, gateway, start + k);
  }

  // ---------------------------------------------------------------------------
  // The route

  /** `-savings`: sorting ascending on it is `sort((a, b) => b.savings - a.savings)`. */
  function NegSavings(r: SplitResult): int {
    -r.savings
  }

  /** The final ranking: highest saving first, the same splits, ties in
      candidate order. */
  lemma RankedBySavings(s: seq<SplitResult>)
    ensures var t := Sorting.SortBy(s, NegSavings);
      (forall i, j :: 0 <= i < j < |t| ==> t[i].savings >= t[j].savings)
      && multiset(t) == multiset(s)
  {
    Sorting.SortByCorrect(s, NegSavings);
    var t := Sorting.SortBy(s, NegSavings);
    assert forall i, j :: 0 <= i < j < |t| ==> NegSavings(t[i]) <= NegSavings(t[j]);
  }

  /** One event of the event stream. */
  datatype StreamEvent =
    | ProgressEvent(progress: Progress)
    | Complete(splitOptions: seq<SplitResult>, originalPrice: int)
    | Error(error: string)

  function AsEvents(p: seq<Progress>): (r: seq<StreamEvent>)
    ensures |r| == |p| && forall i :: 0 <= i < |p| ==> r[i] == ProgressEvent(p[i])
  {
    seq(|p|, i requires 0 <= i < |p| => ProgressEvent(p[i]))
  }

  /** The request body of the route. A journey without `legs` is `None`. */
  datatype SplitRequest = SplitRequest(
    originalJourney: Option<Journey>,
    bahnCard: Option<string>,
    hasDeutschlandTicket: bool,
    passengerAge: Option<int>,
    travelClass: Option<string>,
    useStreaming: bool)

  /** The streamed answer: a start report, two reports per candidate, then the
      ranked splits. Nothing in the stream's body can throw, so its error event
      never occurs. */
  method HandleStreamingResponse(original: Journey, points: seq<SplitPoint>, req: SplitRequest, gateway: Gateway)
    returns (events: seq<StreamEvent>)
    ensures var options := BuildQueryOptions(req.bahnCard, req.hasDeutschlandTicket, req.passengerAge, req.travelClass);
      var price := AmountOrZero(original.price);
      events == [ProgressEvent(Progress(0, |points|, AnalysisStarted, None))]
        + AsEvents(ProgressEvents(points, |points|))
        + [Complete(Sorting.SortBy(Kept(original, points, options, price, gateway, |points|), NegSavings), price)]
    ensures |events| == 2 * |points| + 2
    ensures forall i :: 0 <= i < |events| - 1 ==> events[i].ProgressEvent?
    ensures events[|events| - 1].Complete? && forall e :: e in events ==> !e.Error?
  {
    var options := BuildQueryOptions(req.bahnCard, req.hasDeutschlandTicket, req.passengerAge, req.travelClass);
    var price := AmountOrZero(original.price);
    events := [ProgressEvent(Progress(0, |points|, AnalysisStarted, None))];
    var kept, progress := AnalyzeSplitPointsStreaming(original, points, options, price, gateway);
    ProgressEventsShape(points, |points|);
    var last := Complete(Sorting.SortBy(kept, NegSavings), price);
    StreamLayout(events[0], progress, last);
    events := events + AsEvents(progress) + [last];
  }

  lemma StreamLayout(first: StreamEvent, p: seq<Progress>, last: StreamEvent)
    requires first.ProgressEvent? && last.Complete?
    ensures var e := [first] + AsEvents(p) + [last];
      |e| == |p| + 2 && (forall i :: 0 <= i < |e| - 1 ==> e[i].ProgressEvent?)
      && e[|e| - 1].Complete? && forall x :: x in e ==> !x.Error?
  {
    var e := [first] + AsEvents(p) + [last];
    assert forall i :: 1 <= i < |e| - 1 ==> e[i] == AsEvents(p)[i - 1];
  }

  /** The answers of the route. */
  datatype SplitResponse =
    | MissingJourney                                          // 400 "Missing originalJourney"
    | NoSplitPoints                                           // success, no split options
    | Analysed(splitOptions: seq<SplitResult>, originalPrice: int)
    | EventStream(events: seq<StreamEvent>)

  /** `POST /api/split-journey` */
  method Post(req: SplitRequest, gateway: Gateway) returns (resp: SplitResponse)
    ensures req.originalJourney.None? <==> resp == MissingJourney
    ensures req.originalJourney.Some? ==>
      var j := req.originalJourney.value;
      var points := Dedup.KeepFirst(Candidates(j.legs, |j.legs|), StationKey);
      var options := BuildQueryOptions(req.bahnCard, req.hasDeutschlandTicket, req.passengerAge, req.travelClass);
      var price := AmountOrZero(j.price);
      (resp == NoSplitPoints <==> points == [])
      && (points != [] && !req.useStreaming ==>
            resp == Analysed(Sorting.SortBy(Kept(j, points, options, price, gateway, |points|), NegSavings), price))
      && (points != [] && req.useStreaming ==> resp.EventStream? && |resp.events| == 2 * |points| + 2)
      && (points != [] && req.useStreaming ==>
            resp == EventStream([ProgressEvent(Progress(0, |points|, AnalysisStarted, None))]
              + AsEvents(ProgressEvents(points, |points|))
              + [Complete(Sorting.SortBy(Kept(j, points, options, price, gateway, |points|), NegSavings), price)]))
  {
    if req.originalJourney.None? {
      return MissingJourney;
    }
    var j := req.originalJourney.value;
    var points := ExtractSplitPoints(j);
    if |points| == 0 {
      return NoSplitPoints;
    }
    if req.useStreaming {
      var events := HandleStreamingResponse(j, points, req, gateway);
      return EventStream(events);
    }
    var options := BuildQueryOptions(req.bahnCard, req.hasDeutschlandTicket, req.passengerAge, req.travelClass);
    var price := AmountOrZero(j.price);
    var kept := AnalyzeSplitPointsBatched(j, points, options, price, gateway, DefaultBatchSize);
    resp := Analysed(Sorting.SortBy(kept, NegSavings), price);
  }
}
