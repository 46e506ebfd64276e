/** The journey card: how many changes a journey has and where, how its
    price and class are labelled, and which duration it shows. The labels are
    datatypes; how each is written out is noted on its constructor. */
module JourneyCard {
  import opened Wrappers
  import opened Strings
  import opened Journeys
  import JourneyUtils
  import Dedup
  import DiscountPage

  // ---------------------------------------------------------------------------
  // Changes

  /** `journey.legs?.filter((leg) => !leg.walking)` */
  function NonWalkingLegs(j: Journey): seq<Leg> {
    Dedup.Filter(j.legs, JourneyUtils.IsRide)
  }

  /** `Math.max(0, nonWalkingLegs.length - 1)`: one change between each two
      rides, never negative, and never more than the page counts over all
      legs. */
  function TransferCount(j: Journey): (r: nat)
    ensures r == 0 <==> |NonWalkingLegs(j)| <= 1
    ensures r > 0 ==> r + 1 == |NonWalkingLegs(j)|
    ensures r <= DiscountPage.GetChangesCount(Some(j))
  {
    var n := |NonWalkingLegs(j)|;
    if n > 1 then n - 1 else 0
  }

  /** `currentLeg.destination?.name || nextLeg.origin?.name` */
  function TransferStation(current: Leg, next: Leg): Option<string> {
    if current.destination.Some? && Truthy(current.destination.value.name) then current.destination.value.name
    else if next.origin.Some? then next.origin.value.name
    else None
  }

  /** The non-empty station names between the first n + 1 rides, in order. */
  function Names(rides: seq<Leg>, n: nat): (r: seq<string>)
    requires n < |rides|
    ensures |r| <= n
    ensures forall i :: 0 <= i < |r| ==> r[i] != ""
  {
    if n == 0 then []
    else
      var s := TransferStation(rides[n - 1], rides[n]);
      Names(rides, n - 1) + (if Truthy(s) then [s.value] else [])
  }

  /** A station name is its own key. */
  function Id(s: string): string {
    s
  }

  /** The transfer stations the card lists: each name between two rides,
      the first time it occurs. */
  function Stations(j: Journey): seq<string> {
    var rides := NonWalkingLegs(j);
    if |rides| > 1 then Dedup.KeepFirst(Names(rides, |rides| - 1), Id) else []
  }

  /** The listed stations are pairwise distinct, non-empty, in the order of
      their first occurrence, and no more than the changes; every non-empty
      name between two rides is listed. */
  lemma StationsShape(j: Journey)
    ensures var s := Stations(j);
      (forall a, b :: 0 <= a < b < |s| ==> s[a] != s[b])
      && (forall i :: 0 <= i < |s| ==> s[i] != "")
      && |s| <= TransferCount(j)
    ensures var rides := NonWalkingLegs(j);
      |rides| > 1 ==>
        Dedup.IsSubsequence(Stations(j), Names(rides, |rides| - 1))
        && forall x :: x in Stations(j) <==> x in Names(rides, |rides| - 1)
  {
    var rides := NonWalkingLegs(j);
    if |rides| > 1 {
      var names := Names(rides, |rides| - 1);
      Dedup.KeepFirstDistinct(names, Id);
      Dedup.KeepFirstSubsequence(names, Id);
      Dedup.KeepFirstMembers(names, Id);
      assert forall i :: 0 <= i < |Stations(j)| ==> Stations(j)[i] in names;
      Dedup.KeepFirstKeys(names, Id);
      SubsequenceShorter(Stations(j), names);
      KeysAreMembers(Stations(j));
      KeysAreMembers(names);
    }
  }

  /** With the identity as key, the keys of a list are its members. */
  lemma KeysAreMembers(s: seq<string>)
    ensures forall x :: x in Dedup.Keys(s, Id) <==> x in s
  {
    forall x | x in s
      ensures x in Dedup.Keys(s, Id)
    {
      var i :| 0 <= i < |s| && s[i] == x;
      assert Id(s[i]) == x;
    }
  }

  /** A subsequence is no longer than the sequence. */
  lemma {:induction false} SubsequenceShorter(a: seq<string>, b: seq<string>)
    requires Dedup.IsSubsequence(a, b)
    ensures |a| <= |b|
    decreases |b|
  {
    if a != [] {
      if a[|a| - 1] == b[|b| - 1] && Dedup.IsSubsequence(a[..|a| - 1], b[..|b| - 1]) {
        SubsequenceShorter(a[..|a| - 1], b[..|b| - 1]);
      } else {
        SubsequenceShorter(a, b[..|b| - 1]);
      }
    }
  }

  /** Appending a name keeps the list as it is when the name is already
      listed, and appends it otherwise. */
  lemma KeepFirstStep(names: seq<string>, x: string)
    ensures Dedup.KeepFirst(names + [x], Id) ==
      var r := Dedup.KeepFirst(names, Id);
      if x in r then r else r + [x]
  {
    var t := names + [x];
    assert t[..|t| - 1] == names;
    KeysAreMembers(Dedup.KeepFirst(names, Id));
  }

  /** One turn of the card's loop: the station between ride i and ride
      i + 1 is pushed when it is set and not yet listed. */
  lemma LoopStep(rides: seq<Leg>, i: nat)
    requires i + 1 < |rides|
    ensures var r := Dedup.KeepFirst(Names(rides, i), Id);
      var s := TransferStation(rides[i], rides[i + 1]);
      Dedup.KeepFirst(Names(rides, i + 1), Id) == if Truthy(s) && s.value !in r then r + [s.value] else r
  {
    var s := TransferStation(rides[i], rides[i + 1]);
    if Truthy(s) {
      KeepFirstStep(Names(rides, i), s.value);
    } else {
      assert Names(rides, i) + [] == Names(rides, i);
      assert Names(rides, i + 1) == Names(rides, i);
    }
  }

  /** The `for` loop that fills `transferStations`, pushing a station only
      when it is set and not yet listed. */
  method TransferStations(j: Journey) returns (transferStations: seq<string>)
    ensures transferStations == Stations(j)
    ensures forall a, b :: 0 <= a < b < |transferStations| ==> transferStations[a] != transferStations[b]
    ensures |transferStations| <= TransferCount(j)
  {
    var nonWalkingLegs := NonWalkingLegs(j);
    transferStations := [];
    if |nonWalkingLegs| > 1 {
      for i := 0 to |nonWalkingLegs| - 1
        invariant transferStations == Dedup.KeepFirst(Names(nonWalkingLegs, i), Id)
      {
        LoopStep(nonWalkingLegs, i);
        var currentLeg := nonWalkingLegs[i];
        var nextLeg := nonWalkingLegs[i + 1];
        var transferStation := TransferStation(currentLeg, nextLeg);
        if Truthy(transferStation) && transferStation.value !in transferStations {
          transferStations := transferStations + [transferStation.value];
        }
      }
    }
    StationsShape(j);
  }

  // ---------------------------------------------------------------------------
  // Price and class

  /** What the card shows as the price. */
  datatype PriceLabel =
    | Euros(cents: int)   // `€` and the amount with two decimals (`toFixed(2)`)
    | PriceOnRequest      // "Price on request"

  /** `priceDisplay`: a missing price and a price of 0 are both "on request". */
  function PriceDisplay(j: Journey): (r: PriceLabel)
    ensures r.PriceOnRequest? <==> !HasAmount(j.price)
    ensures r.Euros? ==> r.cents == j.price.value && r.cents != 0
  {
    if HasAmount(j.price) then Euros(j.price.value) else PriceOnRequest
  }

  /** `classDisplay`: first class for exactly the class "1". */
  function ClassDisplay(travelClass: Option<string>): (r: string)
    ensures r == "1st Class" <==> travelClass == Some("1")
    ensures r == "1st Class" || r == "2nd Class"
  {
    if travelClass == Some("1") then "1st Class" else "2nd Class"
  }

  // ---------------------------------------------------------------------------
  // Duration

  /** `journey.duration`: a string such as "PT1H30M", or an object with the
      departure and arrival times (milliseconds; `None` where missing). */
  datatype DurationValue = DurationString(text: string) | DurationObject(departure: Option<int>, arrival: Option<int>)

  /** What a duration is shown as. */
  datatype DurationShown =
    | Unknown                               // "Unknown"
    | Parts(hourDigits: string, minuteDigits: string) // hours + "h " + minutes + "m", as matched
    | Elapsed(hours: int, minutes: int)     // the same, from numbers
    | AsGiven(text: string)                 // the string itself
    | DurationUnknown                       // "Duration unknown"
    | Unavailable                           // "Duration unavailable"

  /** JavaScript truthiness of the duration: an absent one or an empty
      string is falsy, an object is not. */
  predicate Present(d: Option<DurationValue>) {
    d.Some? && !(d.value.DurationString? && d.value.text == "")
  }

  /** The digits of a group `(\d+X)` at the start of s: the whole run of
      digits, when it is not empty and X follows it. */
  function Group(s: string, unit: char): (r: Option<string>)
    ensures r.Some? ==> r.value != [] && |r.value| < |s| && s[..|r.value|] == r.value && s[|r.value|] == unit
    ensures r.Some? ==> forall i :: 0 <= i < |r.value| ==> IsDigit(r.value[i])
  {
    var digits := TakeWhile(s, IsDigit);
    if digits != [] && |digits| < |s| && s[|digits|] == unit then Some(digits) else None
  }

  /** A non-empty run of decimal digits. */
  predicate DigitRun(d: string) {
    d != [] && forall i :: 0 <= i < |d| ==> IsDigit(d[i])
  }

  /** The text a matched group `(\d+X)` covers: its digits and the unit. */
  function Piece(g: Option<string>, unit: char): string {
    if g.Some? then g.value + [unit] else ""
  }

  /** `match[k] ? match[k].replace(X, "") : "0"` */
  function DigitsOr0(g: Option<string>): string {
    if g.Some? then g.value else "0"
  }

  /** `duration.match(/PT(\d+H)?(\d+M)?/)`: at the first "PT" the match
      always succeeds, with the hour digits and the minute digits where
      present; without "PT" there is no match. The groups are digit runs
      that follow the "PT" directly, hours before minutes; which runs they
      are exactly is stated by IsoMatchGroups. */
  function IsoMatch(s: string): (r: Option<(Option<string>, Option<string>)>)
    ensures r.None? <==> IndexOf(s, "PT").None?
    ensures r.Some? ==> StartsWith(s[IndexOf(s, "PT").value + 2..], Piece(r.value.0, 'H') + Piece(r.value.1, 'M'))
    ensures r.Some? ==> (r.value.0.Some? ==> DigitRun(r.value.0.value)) && (r.value.1.Some? ==> DigitRun(r.value.1.value))
  {
    match IndexOf(s, "PT")
    case None => None
    case Some(i) =>
      var after := s[i + 2..];
      var hours := Group(after, 'H');
      var rest := after[|Piece(hours, 'H')|..];
      var minutes := Group(rest, 'M');
      GroupPiece(after, 'H');
      GroupPiece(rest, 'M');
      StartsConcat(after, Piece(hours, 'H'), Piece(minutes, 'M'));
      Some((hours, minutes))
  }

  /** A group, when there is one, is where the text starts. */
  lemma GroupPiece(s: string, unit: char)
    ensures StartsWith(s, Piece(Group(s, unit), unit))
  {
    var g := Group(s, unit);
    if g.Some? {
      assert s[..|g.value| + 1] == g.value + [unit];
    }
  }

  lemma StartsConcat(s: string, a: string, b: string)
    requires StartsWith(s, a) && StartsWith(s[|a|..], b)
    ensures StartsWith(s, a + b)
  {
    assert s[..|a| + |b|] == s[..|a|] + s[|a|..][..|b|];
  }

  /** `diffMins = Math.floor(diffMs / 60000)`, then `Math.floor(diffMins / 60)`
      hours and `diffMins % 60` minutes, the remainder truncated as in
      JavaScript. A span that is not negative splits exactly into hours and
      minutes below 60; a negative one has negative hours and minutes in
      (-60, 0]. */
  function SplitSpan(departure: int, arrival: int): (r: DurationShown)
    ensures r.Elapsed?
    ensures var mins := (arrival - departure) / 60000;
      mins * 60000 <= arrival - departure < (mins + 1) * 60000
      && (mins >= 0 ==> 0 <= r.minutes < 60 && r.hours * 60 + r.minutes == mins)
      && (mins < 0 ==> r.hours < 0 && -60 < r.minutes <= 0)
    ensures var mins := (arrival - departure) / 60000;
      r.hours * 60 <= mins < (r.hours + 1) * 60
      && (mins >= 0 ==> r.minutes == mins % 60)
      && (mins < 0 ==> r.minutes == -((-mins) % 60))
  {
    var diffMins := (arrival - departure) / 60000;
    Elapsed(diffMins / 60, DiscountPage.JsRem(diffMins, 60))
  }

  /** `formatDuration` as written. It calls `duration.match` before it looks
      at the type, and an object has no `match` method: every object throws
      a `TypeError` there, so the branch for objects is never reached. */
  function FormatDurationAsWritten(d: Option<DurationValue>): (r: Result<DurationShown>)
    ensures Present(d) && d.value.DurationObject? ==> r.Err?
    ensures !(Present(d) && d.value.DurationObject?) ==> r == Ok(FormatDuration(d))
  {
    if !Present(d) then Ok(Unknown)
    else
      match d.value
      case DurationObject(_, _) => Err("duration.match is not a function")
      case DurationString(s) => Ok(FormatDuration(d))
  }

  /** An object with both times makes the card throw instead of showing the
      time between them. */
  lemma ObjectDurationThrows()
    ensures FormatDurationAsWritten(Some(DurationObject(Some(60000), Some(5460000)))).Err?
    ensures FormatDuration(Some(DurationObject(Some(60000), Some(5460000)))) == Elapsed(1, 30)
  {
  }

  /** `formatDuration` as its object branch intends it: absent or empty
      gives "Unknown"; a string with "PT" gives its hour and minute digits,
      each "0" where missing; an object with both times gives the time
      between them; another string is kept when it contains "h"; anything
      else is "Duration unknown". */
  function FormatDuration(d: Option<DurationValue>): (r: DurationShown)
    ensures r == Unknown <==> !Present(d)
    ensures r.Parts? ==>
      (d.value.DurationString? && IsoMatch(d.value.text).Some?
      && r.hourDigits != "" && r.minuteDigits != ""
      && (forall i :: 0 <= i < |r.hourDigits| ==> IsDigit(r.hourDigits[i]))
      && (forall i :: 0 <= i < |r.minuteDigits| ==> IsDigit(r.minuteDigits[i])))
    ensures Present(d) && d.value.DurationString? && IsoMatch(d.value.text).Some? ==> r.Parts?
    ensures r.AsGiven? ==> (d.value.DurationString? && r.text == d.value.text && Contains(r.text, "h")
      && IsoMatch(r.text).None?)
    ensures r.Elapsed? ==> d.value.DurationObject? && d.value.departure.Some? && d.value.arrival.Some?
    ensures Present(d) && d.value.DurationString? && IsoMatch(d.value.text).Some? ==>
      r == Parts(DigitsOr0(IsoMatch(d.value.text).value.0), DigitsOr0(IsoMatch(d.value.text).value.1))
    ensures Present(d) && d.value.DurationString? && IsoMatch(d.value.text).None? ==>
      r == (if Contains(d.value.text, "h") then AsGiven(d.value.text) else DurationUnknown)
    ensures Present(d) && d.value.DurationObject? && d.value.departure.Some? && d.value.arrival.Some? ==>
      r == SplitSpan(d.value.departure.value, d.value.arrival.value)
    ensures Present(d) && d.value.DurationObject? && (d.value.departure.None? || d.value.arrival.None?) ==>
      r == DurationUnknown
    ensures r != Unavailable
  {
    if !Present(d) then Unknown
    else
      match d.value
      case DurationString(s) =>
        (match IsoMatch(s)
         case Some(groups) =>
           AllDigits("0");
           Parts(DigitsOr0(groups.0), DigitsOr0(groups.1))
         case None => if Contains(s, "h") then AsGiven(s) else DurationUnknown)
      case DurationObject(departure, arrival) =>
        if departure.Some? && arrival.Some? then SplitSpan(departure.value, arrival.value) else DurationUnknown
  }

  lemma AllDigits(s: string)
    requires s == "0"
    ensures forall i :: 0 <= i < |s| ==> IsDigit(s[i])
  {
    assert s[0] == '0';
  }

  /** A string that starts with "PT" matches there. */
  lemma MatchAtStart(s: string)
    requires StartsWith(s, "PT")
    ensures IndexOf(s, "PT") == Some(0)
  {
    assert s[0..] == s;
  }

  /** A run of digits followed by the unit is a group. */
  lemma GroupOf(digits: string, unit: char, rest: string)
    requires digits != [] && forall i :: 0 <= i < |digits| ==> IsDigit(digits[i])
    requires !IsDigit(unit)
    ensures Group(digits + [unit] + rest, unit) == Some(digits)
    ensures (digits + [unit] + rest)[|digits| + 1..] == rest
  {
    var s := digits + [unit] + rest;
    assert s == digits + ([unit] + rest);
    TakeWhileDigits(digits, [unit] + rest);
  }

  /** A "PT" that does not occur earlier stays the first one whatever
      follows it. */
  lemma FirstPT(pre: string, tail: string)
    requires IndexOf(pre + "PT", "PT") == Some(|pre|)
    ensures IndexOf(pre + "PT" + tail, "PT") == Some(|pre|)
  {
    var w := pre + "PT" + tail;
    assert w[|pre|..][..2] == "PT";
    forall j | 0 <= j < |pre|
      ensures !StartsWith(w[j..], "PT")
    {
      assert !StartsWith((pre + "PT")[j..], "PT");
      assert w[j..][..2] == (pre + "PT")[j..][..2];
    }
  }

  /** A present group is the digit run before its unit. */
  lemma PieceGroup(g: Option<string>, unit: char, rest: string)
    requires g.Some? ==> DigitRun(g.value)
    requires !IsDigit(unit)
    requires g.None? ==> Group(rest, unit).None?
    ensures Group(Piece(g, unit) + rest, unit) == g
    ensures (Piece(g, unit) + rest)[|Piece(g, unit)|..] == rest
  {
    if g.Some? {
      GroupOf(g.value, unit, rest);
    } else {
      assert Piece(g, unit) + rest == rest;
    }
  }

  /** Minute digits are not an hour group. */
  lemma MinutesAreNoHours(m: string, rest: string)
    requires DigitRun(m)
    ensures Group(m + ['M'] + rest, 'H').None?
  {
    assert m + ['M'] + rest == m + (['M'] + rest);
    TakeWhileDigits(m, ['M'] + rest);
  }

  /** The groups read right after "PT" are the given digit runs. */
  lemma GroupsAfter(hours: Option<string>, minutes: Option<string>, rest: string)
    requires hours.Some? ==> DigitRun(hours.value)
    requires minutes.Some? ==> DigitRun(minutes.value)
    requires minutes.None? ==> Group(rest, 'M').None?
    requires hours.None? && minutes.None? ==> Group(rest, 'H').None?
    ensures var after := Piece(hours, 'H') + Piece(minutes, 'M') + rest;
      Group(after, 'H') == hours && Group(after[|Piece(hours, 'H')|..], 'M') == minutes
  {
    var afterH := Piece(minutes, 'M') + rest;
    assert Piece(hours, 'H') + Piece(minutes, 'M') + rest == Piece(hours, 'H') + afterH;
    PieceGroup(minutes, 'M', rest);
    if hours.None? && minutes.Some? {
      MinutesAreNoHours(minutes.value, rest);
    }
    PieceGroup(hours, 'H', afterH);
  }

  /** The groups of the match are exactly the digit runs before "H" and
      before "M" right after the first "PT" (each absent when its run is),
      and the card shows them with "0" for an absent one. */
  lemma IsoMatchGroups(pre: string, hours: Option<string>, minutes: Option<string>, rest: string)
    requires IndexOf(pre + "PT", "PT") == Some(|pre|)
    requires hours.Some? ==> DigitRun(hours.value)
    requires minutes.Some? ==> DigitRun(minutes.value)
    requires minutes.None? ==> Group(rest, 'M').None?
    requires hours.None? && minutes.None? ==> Group(rest, 'H').None?
    ensures var s := pre + "PT" + Piece(hours, 'H') + Piece(minutes, 'M') + rest;
      IsoMatch(s) == Some((hours, minutes))
      && FormatDuration(Some(DurationString(s))) == Parts(DigitsOr0(hours), DigitsOr0(minutes))
  {
    var tail := Piece(hours, 'H') + Piece(minutes, 'M') + rest;
    var s := pre + "PT" + Piece(hours, 'H') + Piece(minutes, 'M') + rest;
    assert IsoMatch(s) == Some((hours, minutes)) by {
      assert s == pre + "PT" + tail;
      FirstPT(pre, tail);
      GroupsAfter(hours, minutes, rest);
      MatchAt(s, |pre|, tail);
    }
    ShownParts(s);
  }

  /** A string with a match shows its groups. */
  lemma ShownParts(s: string)
    requires IsoMatch(s).Some?
    ensures FormatDuration(Some(DurationString(s))) == Parts(DigitsOr0(IsoMatch(s).value.0), DigitsOr0(IsoMatch(s).value.1))
  {
  }

  /** The match at a known first "PT" reads its groups from the text after it. */
  lemma MatchAt(s: string, i: nat, tail: string)
    requires IndexOf(s, "PT") == Some(i) && i + 2 <= |s| && s[i + 2..] == tail
    ensures IsoMatch(s) == Some((Group(tail, 'H'), Group(tail[|Piece(Group(tail, 'H'), 'H')|..], 'M')))
  {
  }

  /** "PT1H30M" is one hour and thirty minutes. */
  lemma IsoHoursAndMinutes()
    ensures FormatDuration(Some(DurationString("PT1H30M"))) == Parts("1", "30")
  {
    var s := "PT1H30M";
    assert StartsWith(s, "PT");
    MatchAtStart(s);
    assert s[2..] == "1" + ['H'] + "30M";
    GroupOf("1", 'H', "30M");
    assert "30M" == "30" + ['M'] + "";
    GroupOf("30", 'M', "");
  }

  /** "PT45M" has no hour group, so the hours are "0". */
  lemma IsoMinutesOnly()
    ensures FormatDuration(Some(DurationString("PT45M"))) == Parts("0", "45")
  {
    var s := "PT45M";
    assert StartsWith(s, "PT");
    MatchAtStart(s);
    assert s[2..] == "45" + ['M'] + "";
    GroupOf("45", 'M', "");
    assert Group("45M", 'H') == None by {
      TakeWhileDigits("45", "M");
      assert "45M" == "45" + "M";
    }
  }

  /** The duration line of the card: the formatted duration when it is
      known, else the time from the first departure to the last arrival,
      else "Duration unavailable". */
  function CardDuration(duration: Option<DurationValue>, j: Journey): (r: DurationShown)
    ensures r != Unknown && r != DurationUnknown
    ensures r == Unavailable <==>
      (!Present(duration) || FormatDuration(duration) == DurationUnknown)
      && (j.legs == [] || j.legs[0].departure.None? || j.legs[|j.legs| - 1].arrival.None?)
    ensures Present(duration) && FormatDuration(duration) != DurationUnknown ==> r == FormatDuration(duration)
    ensures ((!Present(duration) || FormatDuration(duration) == DurationUnknown)
      && j.legs != [] && j.legs[0].departure.Some? && j.legs[|j.legs| - 1].arrival.Some?) ==>
      r == SplitSpan(j.legs[0].departure.value, j.legs[|j.legs| - 1].arrival.value)
  {
    var formatted := if Present(duration) then FormatDuration(duration) else Unknown;
    if formatted != Unknown && formatted != DurationUnknown then formatted
    else
      var departure := if j.legs == [] then None else j.legs[0].departure;
      var arrival := if j.legs == [] then None else j.legs[|j.legs| - 1].arrival;
      if departure.Some? && arrival.Some? then SplitSpan(departure.value, arrival.value) else Unavailable
  }

  /** The card's fallback agrees with the split-ticket page's duration on
      the hours whenever the journey does not run backwards. */
  lemma FallbackMatchesPage(j: Journey)
    requires j.legs != [] && j.legs[0].departure.Some? && j.legs[|j.legs| - 1].arrival.Some?
    requires j.legs[0].departure.value <= j.legs[|j.legs| - 1].arrival.value
    ensures var r := CardDuration(None, j);
      var p := DiscountPage.FormatDuration(j);
      r.Elapsed? && p.Duration? && r.hours == p.hours && r.minutes == p.minutes
  {
    var d := j.legs[|j.legs| - 1].arrival.value - j.legs[0].departure.value;
    var mins := d / 60000;
    var r := CardDuration(None, j);
    var p := DiscountPage.FormatDuration(j);
    assert r.hours * 60 + r.minutes == mins && 0 <= r.minutes < 60;
    assert p.hours * 3600000 + p.minutes * 60000 <= d < p.hours * 3600000 + (p.minutes + 1) * 60000;
    assert 0 <= p.minutes < 60;
    SameSplit(d, r.hours, r.minutes, p.hours, p.minutes);
  }

  /** Two ways of writing a span as whole hours and minutes agree. */
  lemma SameSplit(d: int, h1: int, m1: int, h2: int, m2: int)
    requires 0 <= m1 < 60 && 0 <= m2 < 60
    requires (h1 * 60 + m1) * 60000 <= d < (h1 * 60 + m1 + 1) * 60000
    requires h2 * 3600000 + m2 * 60000 <= d < h2 * 3600000 + (m2 + 1) * 60000
    ensures h1 == h2 && m1 == m2
  {
    var a := h1 * 60 + m1;
    var b := h2 * 60 + m2;
    assert a * 60000 <= d < (a + 1) * 60000;
    assert b * 60000 <= d < (b + 1) * 60000;
    assert a == b;
  }
}
