/** The records the journey-search provider returns (itineraries, legs,
    stopovers, stations, lines, prices), and the JavaScript truthiness rules the
    application applies to their optional fields. Timestamps are integer
    milliseconds; prices are integer cents. A field the provider may leave out
    is an `Option`. */
module Journeys {
  import opened Wrappers

  /** A station or stop: provider id, display name, and the name of the
      enclosing station object when the provider nests one (`stop.station.name`). */
  datatype Stop = Stop(id: Option<string>, name: Option<string>, station: Option<string>)

  /** A train line: its name (`"ICE 1076"`, `"RE 5"`) and product category
      (`"nationalExpress"`, `"regional"`, ...). */
  datatype Line = Line(name: Option<string>, product: Option<string>)

  /** A point along a leg with its own times. */
  datatype Stopover = Stopover(stop: Option<Stop>, arrival: Option<int>, departure: Option<int>, loadFactor: Option<string>)

  /** One ride or one walking transfer. */
  datatype Leg = Leg(
    origin: Option<Stop>,
    destination: Option<Stop>,
    departure: Option<int>,
    arrival: Option<int>,
    line: Option<Line>,
    walking: bool,
    stopovers: Option<seq<Stopover>>)

  /** An itinerary: its legs and its price in cents, if the provider priced it. */
  datatype Journey = Journey(legs: seq<Leg>, price: Option<int>)

  /** JavaScript truthiness of an optional string: present and not empty. */
  predicate Truthy(s: Option<string>) {
    s.Some? && s.value != ""
  }

  /** `s || fallback` for an optional string. */
  function Or(s: Option<string>, fallback: string): (r: string)
    ensures fallback != "" ==> r != ""
    ensures Truthy(s) ==> r == s.value
    ensures !Truthy(s) ==> r == fallback
  {
    if Truthy(s) then s.value else fallback
  }

  /** `price?.amount || 0`: a missing price and a price of 0 both count as 0. */
  function AmountOrZero(price: Option<int>): (r: int)
    ensures price.None? ==> r == 0
    ensures price.Some? ==> r == price.value
  {
    if price.Some? then price.value else 0
  }

  /** `!!price?.amount`: a price is present and not 0. */
  predicate HasAmount(price: Option<int>) {
    price.Some? && price.value != 0
  }

  /** The departure of the journey's first leg, if it has legs and that leg has a departure. */
  function FirstDeparture(j: Journey): Option<int> {
    if |j.legs| == 0 then None else j.legs[0].departure
  }

  /** `|a - b|` */
  function Abs(x: int): nat {
    if x < 0 then -x else x
  }
}
