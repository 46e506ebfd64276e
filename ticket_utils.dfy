/** Deutschlandticket coverage of a single leg: the IC/ICE routes on which the
    ticket is valid, FlixTrain detection, and the per-leg verdict. */
module TicketUtils {
  import opened Wrappers
  import opened Strings
  import opened Journeys
  import opened JourneyUtils
  import opened PricingUtils

  /** A long-distance route on which the ticket is valid, with the train
      patterns it is limited to (`None` or an empty list: every train). */
  datatype IcRoute = IcRoute(name: string, stations: seq<string>, trains: Option<seq<string>>)

  const IcRoutes: seq<IcRoute> := [
    IcRoute("Berlin - BER - Elsterwerda",
      ["Berlin Hbf", "Flughafen BER Terminal 1-2", "BER", "Doberlug-Kirchhain", "Elsterwerda"],
      Some(["IC", "ICE 1076"])),
    IcRoute("Berlin - Prenzlau",
      ["Berlin Südkreuz", "Berlin Spandau", "Berlin Gesundbrunnen", "Prenzlau"],
      Some(["IC", "ICE"])),
    IcRoute("Potsdam - Berlin - Cottbus",
      ["Potsdam", "Berlin Hbf", "Cottbus"],
      Some(["IC 2431", "IC 2432"])),
    IcRoute("Dresden - Freiberg - Chemnitz",
      ["Dresden", "Freiberg", "Chemnitz"],
      None),
    IcRoute("Dortmund - Siegen - Dillenburg",
      ["Dortmund Hbf", "Witten Hbf", "Iserlohn-Letmathe", "Altena (Westf)", "Werdohl", "Plettenberg",
       "Finnentrop", "Lennestadt-Grevenbrück", "Lennestadt-Altenhundem", "Kreuztal", "Siegen-Weidenau",
       "Siegen Hbf", "Dillenburg"],
      Some(["IC 2223", "IC 2225", "IC 2229", "IC 2323", "IC 2325", "IC 2327", "IC 2222", "IC 2224",
            "IC 2226", "IC 2320", "IC 2324", "IC 2326", "IC 2328"])),
    IcRoute("Bremen - Oldenburg - Emden - Norddeich",
      ["Bremen Hbf", "Delmenhorst", "Hude", "Oldenburg(Oldb)Hbf", "Bad Zwischenahn", "Westerstede-Ocholt",
       "Augustfehn", "Leer(Ostfriesl)", "Emden Hbf"],
      None),
    IcRoute("Rostock - Stralsund",
      ["Rostock", "Ribnitz-Damgarten", "Velgast", "Stralsund"],
      None),
    IcRoute("Erfurt - Weimar - Jena - Gera",
      ["Erfurt", "Weimar", "Jena", "Gera"],
      None),
    IcRoute("Stuttgart - Horb - Singen - Konstanz",
      ["Stuttgart", "Horb", "Singen", "Konstanz"],
      None)
  ]

  /** The long-distance product categories, lower case. */
  predicate IsNationalProduct(product: string) {
    product == "national" || product == "nationalexpress"
  }

  /** A lower-cased station name lies on a route when it contains one of the
      route's lower-cased station names or is contained in one. */
  predicate OnRoute(stations: seq<string>, station: string) {
    exists i :: 0 <= i < |stations| && (Contains(station, Lower(stations[i])) || Contains(Lower(stations[i]), station))
  }

  /** A route's train pattern against the upper-cased line name: `"IC"` matches
      IC but not ICE trains, `"ICE"` any ICE, anything else by substring. */
  predicate TrainPatternMatches(pattern: string, lineName: string) {
    if pattern == "IC" then Contains(lineName, "IC") && !Contains(lineName, "ICE")
    else if pattern == "ICE" then Contains(lineName, "ICE")
    else Contains(lineName, pattern)
  }

  /** The route lets the train run on it: no train list, or a pattern matches. */
  predicate TrainAllowed(trains: Option<seq<string>>, lineName: string) {
    trains.None? || |trains.value| == 0
    || exists i :: 0 <= i < |trains.value| && TrainPatternMatches(trains.value[i], lineName)
  }

  predicate RouteCovers(route: IcRoute, origin: string, destination: string, lineName: string) {
    OnRoute(route.stations, origin) && OnRoute(route.stations, destination) && TrainAllowed(route.trains, lineName)
  }

  /** The upper-cased line name of a leg, `""` without a line or a name. */
  function UpperLineName(leg: Leg): string {
    if leg.line.Some? && leg.line.value.name.Some? then Upper(leg.line.value.name.value) else ""
  }

  /** `isICRouteCoveredByDeutschlandTicket`: a long-distance leg whose origin
      and destination both lie on one listed route, on a train that route
      allows. */
  predicate IsICRouteCovered(leg: Leg) {
    if leg.line.None? || leg.origin.None? || leg.destination.None? then false
    else if !IsNationalProduct(ProductOf(leg)) then false
    else
      var origin := Lower(GetStationName(leg.origin));
      var destination := Lower(GetStationName(leg.destination));
      exists i :: 0 <= i < |IcRoutes| && RouteCovers(IcRoutes[i], origin, destination, UpperLineName(leg))
  }

  /** `isFlixTrain`: `FLX` or `FLIXTRAIN` occurs in the upper-cased name followed
      by the upper-cased product. */
  predicate IsFlixTrain(leg: Leg) {
    if leg.line.None? then false
    else
      var l := leg.line.value;
      var text := (if l.name.Some? then Upper(l.name.value) else "") + (if l.product.Some? then Upper(l.product.value) else "");
      Contains(text, "FLX") || Contains(text, "FLIXTRAIN")
  }

  /** `isLegCoveredByDeutschlandTicket` */
  predicate IsLegCovered(leg: Leg, hasDeutschlandTicket: bool) {
    if !hasDeutschlandTicket then false
    else if leg.walking then true
    else if leg.line.None? || IsFlixTrain(leg) then false
    else !IsNationalProduct(ProductOf(leg)) || IsICRouteCovered(leg)
  }

  /** A leg is on a listed IC route exactly when it has a line, an origin, a
      destination and a long-distance product, and some route holds both
      stations and allows the train. */
  lemma IcRouteNeeds(leg: Leg)
    ensures IsICRouteCovered(leg) <==>
      leg.line.Some? && leg.origin.Some? && leg.destination.Some? && IsNationalProduct(ProductOf(leg))
      && (exists i :: 0 <= i < |IcRoutes|
            && OnRoute(IcRoutes[i].stations, Lower(GetStationName(leg.origin)))
            && OnRoute(IcRoutes[i].stations, Lower(GetStationName(leg.destination)))
            && TrainAllowed(IcRoutes[i].trains, UpperLineName(leg)))
    ensures IsICRouteCovered(leg) ==>
      leg.line.Some? && leg.origin.Some? && leg.destination.Some? && IsNationalProduct(ProductOf(leg))
    ensures IsICRouteCovered(leg) ==>
      exists i :: 0 <= i < |IcRoutes|
        && OnRoute(IcRoutes[i].stations, Lower(GetStationName(leg.origin)))
        && OnRoute(IcRoutes[i].stations, Lower(GetStationName(leg.destination)))
        && TrainAllowed(IcRoutes[i].trains, UpperLineName(leg))
  {
  }

  /** The pattern `"IC"` never admits an ICE. */
  lemma IcPatternExcludesIce(lineName: string)
    requires TrainPatternMatches("IC", lineName)
    ensures !Contains(lineName, "ICE")
  {
  }

  /** Without the ticket nothing is covered; with it every walk is, and no
      FlixTrain or leg without a line is. */
  lemma CoverageBasics(leg: Leg, has: bool)
    ensures !has ==> !IsLegCovered(leg, has)
    ensures has && leg.walking ==> IsLegCovered(leg, has)
    ensures !leg.walking && (leg.line.None? || IsFlixTrain(leg)) ==> !IsLegCovered(leg, has)
  {
  }

  /** With the ticket, a ride that is neither a FlixTrain nor long-distance is
      covered; a long-distance ride is covered exactly when its IC/ICE route is. */
  lemma CoverageOfRides(leg: Leg)
    requires !leg.walking && leg.line.Some? && !IsFlixTrain(leg)
    ensures !IsNationalProduct(ProductOf(leg)) ==> IsLegCovered(leg, true)
    ensures IsNationalProduct(ProductOf(leg)) ==> (IsLegCovered(leg, true) <==> IsICRouteCovered(leg))
  {
  }

  /** A ride whose product is regional is covered with the ticket unless it is a
      FlixTrain. */
  lemma RegionalProductCovered(leg: Leg)
    requires !leg.walking && leg.line.Some? && !IsFlixTrain(leg)
    requires ProductOf(leg) in RegionalProducts
    ensures IsLegCovered(leg, true)
    ensures IsRegionalTrain(Some(leg))
  {
  }
}
