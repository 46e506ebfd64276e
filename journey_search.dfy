/** `GET /api/journeys`: validates the query, builds the provider options, asks
    the provider for journeys and, when an exact departure was asked for, keeps
    only the journeys that match origin, destination and departure to the
    minute, without duplicates and cheapest first. Without a departure it drops
    legless journeys and duplicates and orders by departure.

    The provider call is a function parameter, and so are the clock and date
    parsing (`new Date(departure)`). */
module JourneySearch {
  import opened Wrappers
  import opened Strings
  import opened Journeys
  import Dedup
  import Sorting
  import SplitJourney
  import ApiCounter

  /** The query parameters the route reads; an absent parameter is `None`. */
  datatype SearchParams = SearchParams(
    from: Option<string>,
    to: Option<string>,
    departure: Option<string>,
    results: Option<string>,
    bahnCard: Option<string>,
    hasDeutschlandTicket: Option<string>,
    passengerAge: Option<string>,
    travelClass: Option<string>)

  /** `new Date(s)`: a time, or an Invalid Date for text the parser rejects. */
  type DateParser = string -> Option<int>

  /** The options handed to the provider. `results` is `None` where `parseInt`
      gives NaN; `departure` is present iff the request named one, holding
      `None` for an Invalid Date. `deutschlandTicketConnectionsOnly` is set
      (to false) only with the ticket. */
  datatype SearchOptions = SearchOptions(
    results: Option<int>,
    stopovers: bool,
    notOnlyFastRoutes: bool,
    remarks: bool,
    transfers: int,
    firstClass: bool,
    departure: Option<Option<int>>,
    loyaltyCard: Option<SplitJourney.LoyaltyCard>,
    age: Option<int>,
    deutschlandTicketDiscount: bool,
    deutschlandTicketConnectionsOnly: Option<bool>)

  /** The provider call: journeys from one station id to another, or a throw. */
  type Provider = (string, string, SearchOptions) -> Option<seq<Journey>>

  /** The answer of the route. */
  datatype JourneysResponse =
    | BadRequest(error: string)
    | ServerError(error: string)
    | Success(journeys: seq<Journey>)

  const MissingStations := "Missing required parameters: from and to station IDs"
  const PastDeparture := "Departure time cannot be in the past"
  const FetchFailed := "Failed to fetch journeys"
  /** The 60 000 ms tolerance of the exact-match filter (`timeDifference <= 60000`). */
  const ExactTolerance: int := 60000

  /** The input checks: both station ids present, and a parsable departure not
      before now. An unparsable departure passes, as `Invalid Date < now` is false. */
  function Validate(p: SearchParams, now: int, parseDate: DateParser): (r: Option<string>)
    ensures r == Some(MissingStations) <==> !Truthy(p.from) || !Truthy(p.to)
    ensures r == Some(PastDeparture) <==>
      Truthy(p.from) && Truthy(p.to) && Truthy(p.departure)
      && parseDate(p.departure.value).Some? && parseDate(p.departure.value).value < now
    ensures r.None? || r == Some(MissingStations) || r == Some(PastDeparture)
  {
    if !Truthy(p.from) || !Truthy(p.to) then Some(MissingStations)
    else if Truthy(p.departure) then
      var d := parseDate(p.departure.value);
      if d.Some? && d.value < now then Some(PastDeparture) else None
    else None
  }

  /** The option object of the route. */
  function BuildSearchOptions(p: SearchParams, parseDate: DateParser): (o: SearchOptions)
    ensures Truthy(p.departure) ==> o.results == Some(5)
    ensures !Truthy(p.departure) && !Truthy(p.results) ==> o.results == Some(10)
    ensures !Truthy(p.departure) && Truthy(p.results) ==> o.results == ParseInt(p.results.value)
    ensures o.notOnlyFastRoutes <==> !Truthy(p.departure)
    ensures o.stopovers && o.remarks && o.transfers == -1
    ensures o.firstClass <==> ParseInt(Or(p.travelClass, "2")) == Some(1)
    ensures o.departure.Some? <==> Truthy(p.departure)
    ensures o.departure.Some? ==> o.departure.value == parseDate(p.departure.value)
    ensures o.loyaltyCard.Some? <==>
      Truthy(p.bahnCard) && p.bahnCard.value != "none" && ParseInt(p.bahnCard.value) in {Some(25), Some(50), Some(100)}
    ensures o.loyaltyCard.Some? ==>
      Some(o.loyaltyCard.value.discount) == ParseInt(p.bahnCard.value)
      && o.loyaltyCard.value.travelClass == ParseInt(Or(p.travelClass, "2"))
    ensures o.age.Some? <==> Truthy(p.passengerAge) && ParseInt(p.passengerAge.value).Some?
    ensures o.age.Some? ==> o.age == ParseInt(p.passengerAge.value)
    ensures o.deutschlandTicketDiscount <==> p.hasDeutschlandTicket == Some("true")
    ensures o.deutschlandTicketConnectionsOnly == (if o.deutschlandTicketDiscount then Some(false) else None)
  {
    var hasDeparture := Truthy(p.departure);
    var travelClass := ParseInt(Or(p.travelClass, "2"));
    var results := if hasDeparture then Some(5) else if Truthy(p.results) then ParseInt(p.results.value) else Some(10);
    var discount := SplitJourney.ParseOptional(p.bahnCard);
    var card :=
      if Truthy(p.bahnCard) && p.bahnCard.value != "none" && discount.Some? && discount.value in [25, 50, 100]
      then Some(SplitJourney.BahnCard(discount.value, travelClass))
      else None;
    var age := if Truthy(p.passengerAge) then ParseInt(p.passengerAge.value) else None;
    var ticket := p.hasDeutschlandTicket == Some("true");
    SearchOptions(results, true, !hasDeparture, true, -1, travelClass == Some(1),
      if hasDeparture then Some(parseDate(p.departure.value)) else None,
      card, age, ticket, if ticket then Some(false) else None)
  }

  // ---------------------------------------------------------------------------
  // Exact matches

  /** An exact match starts at `from`, ends at `to` and departs within a minute
      of the target. A journey without legs, a missing id and a missing or
      unparsable time never match. */
  predicate ExactMatch(j: Journey, from: string, to: string, target: Option<int>) {
    |j.legs| > 0
    && j.legs[0].origin.Some? && j.legs[0].origin.value.id == Some(from)
    && j.legs[|j.legs| - 1].destination.Some? && j.legs[|j.legs| - 1].destination.value.id == Some(to)
    && target.Some? && j.legs[0].departure.Some?
    && Abs(j.legs[0].departure.value - target.value) <= ExactTolerance
  }

  function IsExact(from: string, to: string, target: Option<int>): Journey -> bool {
    j => ExactMatch(j, from, to, target)
  }

  // ---------------------------------------------------------------------------
  // Deduplication

  /** One leg of the signature: line name or `"walk"`, origin id, destination
      id, departure. */
  datatype LegSignature = LegSignature(line: string, originId: Option<string>, destinationId: Option<string>, departure: Option<int>)

  /** The dedup key: the leg signatures and the price, a price of 0 and a
      missing price both being `"no-price"`. */
  datatype JourneyKey = JourneyKey(legs: seq<LegSignature>, price: Option<int>)

  function SignatureOf(leg: Leg): LegSignature {
    LegSignature(
      if leg.line.Some? then Or(leg.line.value.name, "walk") else "walk",
      if leg.origin.Some? then leg.origin.value.id else None,
      if leg.destination.Some? then leg.destination.value.id else None,
      leg.departure)
  }

  function Key(j: Journey): (k: JourneyKey)
    ensures |k.legs| == |j.legs|
  {
    JourneyKey(seq(|j.legs|, i requires 0 <= i < |j.legs| => SignatureOf(j.legs[i])),
               if HasAmount(j.price) then j.price else None)
  }

  /** Two journeys over the same legs share their key exactly when their
      prices agree once 0 and missing are identified. */
  lemma KeyIdentifiesFreePrices(a: Journey, b: Journey)
    requires a.legs == b.legs
    ensures Key(a) == Key(b) <==> AmountOrZero(a.price) == AmountOrZero(b.price)
  {
  }

  predicate HasLegs(j: Journey) {
    |j.legs| > 0
  }

  predicate Any(j: Journey) {
    true
  }

  /** `price?.amount || 0` as sort key. */
  function PriceKey(j: Journey): int {
    AmountOrZero(j.price)
  }

  /** The first leg's departure as sort key. A journey whose first leg has no
      departure sorts as time 0. */
  function DepartureKey(j: Journey): int {
    if FirstDeparture(j).Some? then FirstDeparture(j).value else 0
  }

  /** The journeys the route answers with, given the provider's list. */
  function SelectJourneys(all: seq<Journey>, from: string, to: string, departure: Option<Option<int>>): seq<Journey> {
    if departure.Some? && |all| > 0 then
      var exact := Dedup.Filter(all, IsExact(from, to, departure.value));
      if |exact| > 0 then Sorting.SortBy(Dedup.FilterFirstIndex(exact, Any, Key, |exact|), PriceKey)
      else all
    else
      Sorting.SortBy(Dedup.FilterFirstIndex(all, HasLegs, Key, |all|), DepartureKey)
  }

  /** With a departure and at least one exact match: the answer holds the first
      journey of each key among the exact matches, every one an exact match,
      ordered by price ascending with missing as 0; the dedup is a subsequence
      of the matches with distinct keys. */
  lemma ExactAnswer(all: seq<Journey>, from: string, to: string, target: Option<int>)
    requires |Dedup.Filter(all, IsExact(from, to, target))| > 0
    ensures var exact := Dedup.Filter(all, IsExact(from, to, target));
      var unique := Dedup.KeepFirst(exact, Key);
      var r := SelectJourneys(all, from, to, Some(target));
      r == Sorting.SortBy(unique, PriceKey)
      && multiset(r) == multiset(unique)
      && (forall i, j :: 0 <= i < j < |r| ==> AmountOrZero(r[i].price) <= AmountOrZero(r[j].price))
      && Dedup.DistinctKeys(unique, Key)
      && Dedup.IsSubsequence(unique, exact)
      && (forall x :: x in r ==> x in all && ExactMatch(x, from, to, target))
  {
    var exact := Dedup.Filter(all, IsExact(from, to, target));
    var unique := Dedup.KeepFirst(exact, Key);
    ExactSelect(all, from, to, target);
    var r := Sorting.SortBy(unique, PriceKey);
    Sorting.SortByCorrect(unique, PriceKey);
    Dedup.KeepFirstDistinct(exact, Key);
    Dedup.KeepFirstSubsequence(exact, Key);
    ExactMembers(all, from, to, target, r);
  }

  lemma ExactSelect(all: seq<Journey>, from: string, to: string, target: Option<int>)
    requires |Dedup.Filter(all, IsExact(from, to, target))| > 0
    ensures var exact := Dedup.Filter(all, IsExact(from, to, target));
      SelectJourneys(all, from, to, Some(target)) == Sorting.SortBy(Dedup.KeepFirst(exact, Key), PriceKey)
  {
    var exact := Dedup.Filter(all, IsExact(from, to, target));
    SelectExactBranch(all, from, to, target);
    AnyDedup(exact);
  }

  lemma SelectExactBranch(all: seq<Journey>, from: string, to: string, target: Option<int>)
    requires |Dedup.Filter(all, IsExact(from, to, target))| > 0
    ensures var exact := Dedup.Filter(all, IsExact(from, to, target));
      SelectJourneys(all, from, to, Some(target)) == Sorting.SortBy(Dedup.FilterFirstIndex(exact, Any, Key, |exact|), PriceKey)
  {
  }

  lemma AnyDedup(s: seq<Journey>)
    ensures Dedup.FilterFirstIndex(s, Any, Key, |s|) == Dedup.KeepFirst(s, Key)
  {
    Dedup.FilterAll(s, Any);
    assert s[..|s|] == s;
    Dedup.FilterFirstIndexIsKeepFirst(s, Any, Key, |s|);
  }

  lemma ExactMembers(all: seq<Journey>, from: string, to: string, target: Option<int>, r: seq<Journey>)
    requires multiset(r) == multiset(Dedup.KeepFirst(Dedup.Filter(all, IsExact(from, to, target)), Key))
    ensures forall x :: x in r ==> x in all && ExactMatch(x, from, to, target)
  {
    var exact := Dedup.Filter(all, IsExact(from, to, target));
    Dedup.FilterContains(all, IsExact(from, to, target));
    Dedup.KeepFirstMembers(exact, Key);
    forall x | x in r ensures x in all && ExactMatch(x, from, to, target) {
      assert x in multiset(r);
    }
  }

  /** With a departure but no exact match: the provider's list is answered unchanged. */
  lemma ExactFallback(all: seq<Journey>, from: string, to: string, target: Option<int>)
    requires Dedup.Filter(all, IsExact(from, to, target)) == []
    ensures SelectJourneys(all, from, to, Some(target)) == all
  {
  }

  /** Without a departure: legless journeys are dropped, the first journey of
      each key is kept, and the answer is ordered by first departure. */
  lemma {:induction false} OpenAnswer(all: seq<Journey>, from: string, to: string)
    ensures var unique := Dedup.KeepFirst(Dedup.Filter(all, HasLegs), Key);
      var r := SelectJourneys(all, from, to, None);
      r == Sorting.SortBy(unique, DepartureKey)
      && multiset(r) == multiset(unique)
      && (forall i, j :: 0 <= i < j < |r| ==> DepartureKey(r[i]) <= DepartureKey(r[j]))
      && Dedup.DistinctKeys(unique, Key)
      && (forall x :: x in r ==> x in all && |x.legs| > 0)
  {
    var legged := Dedup.Filter(all, HasLegs);
    var unique := Dedup.KeepFirst(legged, Key);
    assert all[..|all|] == all;
    Dedup.FilterFirstIndexIsKeepFirst(all, HasLegs, Key, |all|);
    assert SelectJourneys(all, from, to, None) == Sorting.SortBy(unique, DepartureKey);
    Sorting.SortByCorrect(unique, DepartureKey);
    Dedup.KeepFirstDistinct(legged, Key);
    Dedup.FilterContains(all, HasLegs);
    Dedup.KeepFirstMembers(legged, Key);
    var r := Sorting.SortBy(unique, DepartureKey);
    forall x | x in r ensures x in all && |x.legs| > 0 {
      assert x in multiset(r);
    }
  }

  /** The dedup of either branch is idempotent: applied to its own output it
      changes nothing. */
  lemma DedupIdempotent(s: seq<Journey>, ok: Journey -> bool)
    ensures var d := Dedup.KeepFirst(Dedup.Filter(s, ok), Key);
      Dedup.FilterFirstIndex(d, Any, Key, |d|) == d
  {
    var d := Dedup.KeepFirst(Dedup.Filter(s, ok), Key);
    Dedup.FilterFirstIndexIsKeepFirst(d, Any, Key, |d|);
    assert d[..|d|] == d;
    Dedup.FilterAll(d, Any);
    Dedup.KeepFirstIdempotent(Dedup.Filter(s, ok), Key);
  }

  // ---------------------------------------------------------------------------
  // The route

  /** `GET`: the counter is reset on entry and counts the one provider call. */
  method Get(p: SearchParams, now: int, parseDate: DateParser, provider: Provider, counter: ApiCounter.Counter)
    returns (resp: JourneysResponse)
    requires counter.Valid()
    modifies counter
    ensures counter.Valid()
    ensures var v := Validate(p, now, parseDate);
      var o := BuildSearchOptions(p, parseDate);
      if v.Some? then resp == BadRequest(v.value) && counter.apiCallCount == 0
      else
        counter.apiCallCount == 1 && counter.requestTimes == [now]
        && var reply := provider(p.from.value, p.to.value, o);
        if reply.None? then resp == ServerError(FetchFailed)
        else resp == Success(SelectJourneys(reply.value, p.from.value, p.to.value, o.departure))
  {
    counter.Reset();
    var invalid := Validate(p, now, parseDate);
    if invalid.Some? {
      return BadRequest(invalid.value);
    }
    var options := BuildSearchOptions(p, parseDate);
    var _, _ := counter.Increment(now);
    var reply := provider(p.from.value, p.to.value, options);
    if reply.None? {
      return ServerError(FetchFailed);
    }
    var allJourneys := reply.value;
    if options.departure.Some? && |allJourneys| > 0 {
      var exact := Dedup.Filter(allJourneys, IsExact(p.from.value, p.to.value, options.departure.value));
      if |exact| > 0 {
        var unique := Dedup.FilterFirstIndex(exact, Any, Key, |exact|);
        allJourneys := Sorting.SortBy(unique, PriceKey);
      }
    } else {
      var unique := Dedup.FilterFirstIndex(allJourneys, HasLegs, Key, |allJourneys|);
      allJourneys := Sorting.SortBy(unique, DepartureKey);
    }
    resp := Success(allJourneys);
  }
}
