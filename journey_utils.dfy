/** Journey helpers shared by the pages and the pricing code: duration text,
    line and station labels, walking-transfer minutes, the train legs of a
    journey, and the checks and query the client performs before it asks the
    server for journeys. */
module JourneyUtils {
  import opened Wrappers
  import opened Strings
  import opened Journeys
  import Dedup

  /** What `formatDuration` shows. */
  datatype DurationText = UnknownDuration | InvalidDuration | LongJourney | HoursMinutes(hours: int, minutes: int)

  /** Arrival of the last leg minus departure of the first, when the journey
      has legs and both times present. */
  function Span(j: Journey): Option<int> {
    if |j.legs| == 0 then None
    else
      var dep := j.legs[0].departure;
      var arr := j.legs[|j.legs| - 1].arrival;
      if dep.None? || arr.None? then None else Some(arr.value - dep.value)
  }

  const DayMs: int := 24 * 60 * 60 * 1000

  /** The duration of a journey as whole hours and minutes, floored to the minute. */
  function FormatDuration(j: Journey): (r: DurationText)
    ensures r == UnknownDuration <==> Span(j).None?
    ensures r == InvalidDuration <==> Span(j).Some? && Span(j).value < 0
    ensures r == LongJourney <==> Span(j).Some? && Span(j).value > DayMs
    ensures r.HoursMinutes? ==>
      var d := Span(j).value;
      0 <= r.minutes < 60 && 0 <= r.hours <= 24
      && (r.hours * 60 + r.minutes) * 60000 <= d < (r.hours * 60 + r.minutes + 1) * 60000
  {
    match Span(j)
    case None => UnknownDuration
    case Some(diff) =>
      if diff < 0 then InvalidDuration
      else if diff > DayMs then LongJourney
      else
        var minutes := diff / 60000;
        HoursMinutes(minutes / 60, minutes % 60)
  }

  /** `getLineInfo`: no label for a walking leg; otherwise the line name, the
      product, or `"Unknown"`, whichever is first non-empty. */
  function GetLineInfo(leg: Leg): (r: Option<string>)
    ensures r.None? <==> leg.walking
    ensures r.Some? ==> r.value != ""
    ensures r.Some? && leg.line.Some? && Truthy(leg.line.value.name) ==> r.value == leg.line.value.name.value
    ensures r.Some? && leg.line.Some? && !Truthy(leg.line.value.name) && Truthy(leg.line.value.product) ==> r.value == leg.line.value.product.value
    ensures r.Some? && (leg.line.None? || !(Truthy(leg.line.value.name) || Truthy(leg.line.value.product))) ==> r.value == "Unknown"
  {
    if leg.walking then None
    else if leg.line.None? then Some("Unknown")
    else Some(Or(leg.line.value.name, Or(leg.line.value.product, "Unknown")))
  }

  /** `getStationName`: the nested station's name, else the stop's own name,
      else `"Unknown"`; never empty. */
  function GetStationName(stop: Option<Stop>): (r: string)
    ensures r != ""
    ensures stop.Some? && Truthy(stop.value.station) ==> r == stop.value.station.value
    ensures stop.Some? && !Truthy(stop.value.station) && Truthy(stop.value.name) ==> r == stop.value.name.value
    ensures stop.None? || !(Truthy(stop.value.station) || Truthy(stop.value.name)) ==> r == "Unknown"
  {
    if stop.None? then "Unknown" else Or(stop.value.station, Or(stop.value.name, "Unknown"))
  }

  /** `calculateTransferTime`: the minutes of a walking leg, rounded half up
      (`Math.round`); 0 for a ride or a leg missing a time. */
  function CalculateTransferTime(leg: Leg): (r: int)
    ensures !leg.walking || leg.departure.None? || leg.arrival.None? ==> r == 0
    ensures leg.walking && leg.departure.Some? && leg.arrival.Some? ==>
      var d := leg.arrival.value - leg.departure.value;
      r * 60000 - 30000 <= d < r * 60000 + 30000
  {
    if !leg.walking || leg.departure.None? || leg.arrival.None? then 0
    else (leg.arrival.value - leg.departure.value + 30000) / 60000
  }

  /** A ride with the walking time that follows it. */
  datatype TrainLeg = TrainLeg(leg: Leg, transferTimeAfter: int)

  /** The transfer time after legs[i]: the next leg's minutes when the next leg
      is a walk, else 0. */
  function TransferAfter(legs: seq<Leg>, i: nat): int
    requires i < |legs|
  {
    if i + 1 < |legs| && legs[i + 1].walking then CalculateTransferTime(legs[i + 1]) else 0
  }

  /** The rides among the first n legs, each with its transfer time after it. */
  function TrainLegsUpTo(legs: seq<Leg>, n: nat): seq<TrainLeg>
    requires n <= |legs|
  {
    if n == 0 then []
    else
      TrainLegsUpTo(legs, n - 1)
      + (if legs[n - 1].walking then [] else [TrainLeg(legs[n - 1], TransferAfter(legs, n - 1))])
  }

  /** `getJourneyLegsWithTransfers` */
  function GetJourneyLegsWithTransfers(j: Journey): seq<TrainLeg> {
    TrainLegsUpTo(j.legs, |j.legs|)
  }

  predicate IsRide(leg: Leg) {
    !leg.walking
  }

  function LegsOf(t: seq<TrainLeg>): seq<Leg> {
    if t == [] then [] else LegsOf(t[..|t| - 1]) + [t[|t| - 1].leg]
  }

  lemma {:induction false} TrainLegsUpToRides(legs: seq<Leg>, n: nat)
    requires n <= |legs|
    ensures LegsOf(TrainLegsUpTo(legs, n)) == Dedup.Filter(legs[..n], IsRide)
    ensures forall i :: 0 <= i < |TrainLegsUpTo(legs, n)| ==> !TrainLegsUpTo(legs, n)[i].leg.walking
    ensures var ix := Dedup.IndicesWhere(legs, IsRide, n); var t := TrainLegsUpTo(legs, n);
      |t| == |ix| && forall k :: 0 <= k < |t| ==> t[k] == TrainLeg(legs[ix[k]], TransferAfter(legs, ix[k]))
  {
    if n > 0 {
      TrainLegsUpToRides(legs, n - 1);
      assert Dedup.IndicesWhere(legs, IsRide, n) == Dedup.IndicesWhere(legs, IsRide, n - 1) + (if IsRide(legs[n - 1]) then [n - 1] else []);
      assert legs[..n][..n - 1] == legs[..n - 1];
      var p := TrainLegsUpTo(legs, n - 1);
      var s := legs[..n];
      assert s[|s| - 1] == legs[n - 1];
      if !legs[n - 1].walking {
        var t := p + [TrainLeg(legs[n - 1], TransferAfter(legs, n - 1))];
        assert t[..|t| - 1] == p;
        assert Dedup.Filter(s, IsRide) == Dedup.Filter(legs[..n - 1], IsRide) + [legs[n - 1]];
      } else {
        assert TrainLegsUpTo(legs, n) == p;
        assert Dedup.Filter(s, IsRide) == Dedup.Filter(legs[..n - 1], IsRide);
      }
    }
  }

  /** The train legs are exactly the journey's rides, in order, with no walk
      among them. The k-th of them is the k-th ride of the journey, and the
      transfer time after it is the walking time of the next leg when that
      leg is a walk, else 0. */
  lemma TrainLegsAreRides(j: Journey)
    ensures LegsOf(GetJourneyLegsWithTransfers(j)) == Dedup.Filter(j.legs, IsRide)
    ensures forall i :: 0 <= i < |GetJourneyLegsWithTransfers(j)| ==> !GetJourneyLegsWithTransfers(j)[i].leg.walking
    ensures var ix := Dedup.IndicesWhere(j.legs, IsRide, |j.legs|); var t := GetJourneyLegsWithTransfers(j);
      |t| == |ix|
      && (forall i :: i in ix <==> 0 <= i < |j.legs| && !j.legs[i].walking)
      && (forall a, b :: 0 <= a < b < |ix| ==> ix[a] < ix[b])
      && forall k :: 0 <= k < |t| ==>
        t[k].leg == j.legs[ix[k]]
        && t[k].transferTimeAfter ==
          (if ix[k] + 1 < |j.legs| && j.legs[ix[k] + 1].walking then CalculateTransferTime(j.legs[ix[k] + 1]) else 0)
  {
    TrainLegsUpToRides(j.legs, |j.legs|);
    Dedup.IndicesWhereMembers(j.legs, IsRide, |j.legs|);
    assert j.legs[..|j.legs|] == j.legs;
  }

  /** What the search form hands to `searchForJourneys`. */
  datatype JourneyData = JourneyData(
    fromStationId: Option<string>,
    toStationId: Option<string>,
    date: Option<string>,
    time: Option<string>,
    bahnCard: Option<string>,
    hasDeutschlandTicket: bool,
    passengerAge: Option<string>,
    travelClass: Option<string>)

  /** `validateJourneyData` */
  predicate ValidateJourneyData(d: JourneyData) {
    Truthy(d.fromStationId) && Truthy(d.toStationId)
  }

  const IncompleteJourneyData := "Unvollständige Reisedaten: Start- und Zielbahnhof erforderlich"

  /** The query `searchForJourneys` sends, one field per parameter it may append. */
  datatype SearchQuery = SearchQuery(
    from: string,
    to: string,
    departure: Option<string>,
    bahnCard: Option<string>,
    hasDeutschlandTicket: bool,
    passengerAge: Option<string>,
    travelClass: Option<string>)

  /** `passengerAge.trim()`, or `""` without an age. */
  function TrimmedAge(age: Option<string>): (r: string)
    ensures Trim(r) == r
    ensures age.Some? ==> r == Trim(age.value)
    ensures age.None? ==> r == ""
  {
    if age.Some? then TrimIdempotent(age.value); Trim(age.value) else ""
  }

  /** The part of `searchForJourneys` before the request: it throws when a
      station id is missing, and otherwise decides which query parameters to
      send. The request and the handling of the answer are the network's. */
  function PrepareSearch(d: JourneyData): (r: Result<SearchQuery>)
    ensures r.Err? <==> !ValidateJourneyData(d)
    ensures r.Err? ==> r.message == IncompleteJourneyData
    ensures r.Ok? ==> r.value.from == d.fromStationId.value && r.value.to == d.toStationId.value
    ensures r.Ok? ==> (r.value.departure.Some? <==> Truthy(d.date) && Truthy(d.time))
    ensures r.Ok? && r.value.departure.Some? ==> r.value.departure.value == d.date.value + "T" + d.time.value + ":00"
    ensures r.Ok? ==> (r.value.bahnCard.Some? <==> Truthy(d.bahnCard) && d.bahnCard.value != "none")
    ensures r.Ok? ==> r.value.hasDeutschlandTicket == d.hasDeutschlandTicket
    ensures r.Ok? && r.value.passengerAge.Some? ==> r.value.passengerAge.value != "" && Trim(r.value.passengerAge.value) == r.value.passengerAge.value
    ensures r.Ok? && d.passengerAge.Some? && Trim(d.passengerAge.value) != "" ==> r.value.passengerAge == Some(Trim(d.passengerAge.value))
    ensures r.Ok? ==> (r.value.travelClass.Some? <==> Truthy(d.travelClass))
    ensures r.Ok? && r.value.bahnCard.Some? ==> r.value.bahnCard == d.bahnCard
    ensures r.Ok? && r.value.travelClass.Some? ==> r.value.travelClass == d.travelClass
    ensures r.Ok? ==> (r.value.passengerAge.Some? <==> d.passengerAge.Some? && Trim(d.passengerAge.value) != "")
  {
    if !Truthy(d.fromStationId) || !Truthy(d.toStationId) then Err(IncompleteJourneyData)
    else
      var age := TrimmedAge(d.passengerAge);
      Ok(SearchQuery(
        d.fromStationId.value,
        d.toStationId.value,
        if Truthy(d.date) && Truthy(d.time) then Some(d.date.value + "T" + d.time.value + ":00") else None,
        if Truthy(d.bahnCard) && d.bahnCard.value != "none" then d.bahnCard else None,
        d.hasDeutschlandTicket,
        if age != "" then Some(age) else None,
        if Truthy(d.travelClass) then d.travelClass else None))
  }
}
