/** Deep links into the booking site's journey search: the date normaliser,
    the station descriptor (`A=1@O=...@L=...`), and the two builders that
    serialise a search as `&`-joined `key=value` parts after
    `https://www.bahn.de/buchung/fahrplan/suche#`. `encodeURIComponent` is
    modelled explicitly (UTF-8, percent-encoded, hex in upper case). */
module CreateUrl {
  import opened Wrappers
  import opened Strings
  import opened Journeys

  // ---------------------------------------------------------------------------
  // encodeURIComponent

  /** The characters `encodeURIComponent` leaves as they are. */
  predicate Unreserved(c: char) {
    ('A' <= c <= 'Z') || ('a' <= c <= 'z') || ('0' <= c <= '9') || c in "-_.!~*'()"
  }

  /** A character `encodeURIComponent` can produce. */
  predicate UrlSafe(c: char) {
    Unreserved(c) || c == '%'
  }

  function HexDigit(n: int): (c: char)
    requires 0 <= n < 16
    ensures Unreserved(c)
  {
    "0123456789ABCDEF"[n]
  }

  /** `%XY` for one byte. */
  function PercentByte(b: int): (r: string)
    requires 0 <= b < 256
    ensures |r| == 3 && r[0] == '%' && forall i :: 0 <= i < 3 ==> UrlSafe(r[i])
  {
    ['%', HexDigit(b / 16), HexDigit(b % 16)]
  }

  /** The UTF-8 bytes of a character. */
  function Utf8(c: char): (bytes: seq<int>)
    ensures 1 <= |bytes| <= 4
    ensures forall i :: 0 <= i < |bytes| ==> 0 <= bytes[i] < 256
  {
    var n := c as int;
    if n < 0x80 then [n]
    else if n < 0x800 then [0xC0 + n / 64, 0x80 + n % 64]
    else if n < 0x10000 then [0xE0 + n / 4096, 0x80 + (n / 64) % 64, 0x80 + n % 64]
    else [0xF0 + n / 262144, 0x80 + (n / 4096) % 64, 0x80 + (n / 64) % 64, 0x80 + n % 64]
  }

  function PercentBytes(bytes: seq<int>): (r: string)
    requires forall i :: 0 <= i < |bytes| ==> 0 <= bytes[i] < 256
    ensures |r| == 3 * |bytes|
    ensures |bytes| > 0 ==> r[0] == '%'
    ensures forall i :: 0 <= i < |r| ==> UrlSafe(r[i])
  {
    if bytes == [] then "" else PercentBytes(bytes[..|bytes| - 1]) + PercentByte(bytes[|bytes| - 1])
  }

  function EncodeChar(c: char): (r: string)
    ensures forall i :: 0 <= i < |r| ==> UrlSafe(r[i])
    ensures Unreserved(c) ==> r == [c]
    ensures !Unreserved(c) ==> |r| >= 3 && r[0] == '%'
  {
    if Unreserved(c) then [c] else PercentBytes(Utf8(c))
  }

  /** `encodeURIComponent(s)`: only unreserved characters and `%` come out, so
      no `&`, `=`, `@` or `#` survives. */
  function Encode(s: string): (r: string)
    ensures forall i :: 0 <= i < |r| ==> UrlSafe(r[i])
    ensures |r| >= |s|
  {
    if s == [] then "" else Encode(s[..|s| - 1]) + EncodeChar(s[|s| - 1])
  }

  /** Text without reserved characters is left as it is. */
  lemma {:induction false} EncodeUnreserved(s: string)
    requires forall i :: 0 <= i < |s| ==> Unreserved(s[i])
    ensures Encode(s) == s
  {
    if s != [] {
      var front := s[..|s| - 1];
      var last := s[|s| - 1];
      EncodeUnreserved(front);
      assert Unreserved(last);
      assert EncodeChar(last) == [last];
      assert Encode(s) == Encode(front) + EncodeChar(last);
      assert s == front + [last];
    }
  }

  /** `${v}` of an optional value. */
  function Show(v: Option<string>): string {
    if v.Some? then v.value else "undefined"
  }

  // ---------------------------------------------------------------------------
  // formatDate

  /** What `formatDate` receives: a string, or any other value, which it
      returns unchanged and which then prints as `rendered`. */
  datatype DateArg = Text(s: string) | NonText(rendered: string)

  /** `/\+\d{2}:\d{2}$/` */
  predicate EndsWithOffset(s: string) {
    |s| >= 6 && s[|s| - 6] == '+' && IsDigit(s[|s| - 5]) && IsDigit(s[|s| - 4])
    && s[|s| - 3] == ':' && IsDigit(s[|s| - 2]) && IsDigit(s[|s| - 1])
  }

  /** `/T\d{2}:\d{2}$/` */
  predicate EndsWithHourMinute(s: string) {
    |s| >= 6 && s[|s| - 6] == 'T' && IsDigit(s[|s| - 5]) && IsDigit(s[|s| - 4])
    && s[|s| - 3] == ':' && IsDigit(s[|s| - 2]) && IsDigit(s[|s| - 1])
  }

  /** `/\.\d{3}/` anchored at the start of s. */
  predicate MillisAt(s: string) {
    |s| >= 4 && s[0] == '.' && IsDigit(s[1]) && IsDigit(s[2]) && IsDigit(s[3])
  }

  function StripOffset(s: string): (r: string)
    ensures 'T' in s ==> 'T' in r
  {
    if EndsWithOffset(s) then
      assert forall i :: |s| - 6 <= i < |s| ==> s[i] != 'T';
      s[..|s| - 6]
    else s
  }

  function StripZ(s: string): (r: string)
    ensures 'T' in s ==> 'T' in r
  {
    if |s| > 0 && s[|s| - 1] == 'Z' then s[..|s| - 1] else s
  }

  /** Removes the leftmost `.ddd`. */
  function StripMillis(s: string): (r: string)
    ensures 'T' in s ==> 'T' in r
  {
    var m := FindFrom(s, MillisAt, 0);
    if m.Some? then
      var k := m.value;
      assert forall i :: k <= i < k + 4 ==> s[i] == s[k..][i - k];
      assert forall i :: 0 <= i < k ==> s[i] == (s[..k] + s[k + 4..])[i];
      assert forall i :: k + 4 <= i < |s| ==> s[i] == (s[..k] + s[k + 4..])[i - 4];
      s[..k] + s[k + 4..]
    else s
  }

  /** The date with offset, `Z` and milliseconds removed. */
  function DatePart(s: string): (r: string)
    ensures 'T' in s ==> 'T' in r
  {
    StripMillis(StripZ(StripOffset(s)))
  }

  /** `formatDate` on a string: the date of `DatePart`, completed with seconds
      `:58` when it stops at the minute and with the time `T08:32:58` when it
      has none. The result always has a time and never stops at the minute. */
  function FormatDate(s: string): (r: string)
    ensures 'T' in r
    ensures !EndsWithHourMinute(r)
    ensures StartsWith(r, DatePart(s))
    ensures 'T' !in DatePart(s) ==> r == DatePart(s) + "T08:32:58"
    ensures EndsWithHourMinute(DatePart(s)) ==> r == DatePart(s) + ":58"
    ensures 'T' in DatePart(s) && !EndsWithHourMinute(DatePart(s)) ==> r == DatePart(s)
  {
    var formatted := DatePart(s);
    var withSeconds := if EndsWithHourMinute(formatted) then formatted + ":58" else formatted;
    assert 'T' in formatted ==> 'T' in withSeconds;
    assert EndsWithHourMinute(formatted) ==> 'T' in formatted by {
      if EndsWithHourMinute(formatted) { assert formatted[|formatted| - 6] == 'T'; }
    }
    var r := if 'T' !in withSeconds then withSeconds + "T08:32:58" else withSeconds;
    assert 'T' in r by {
      if 'T' !in withSeconds { assert r[|withSeconds|] == 'T'; }
    }
    assert !EndsWithHourMinute(r) by {
      if EndsWithHourMinute(formatted) {
        assert r[|r| - 6] == formatted[|formatted| - 3];
      } else if 'T' !in withSeconds {
        assert r[|r| - 6] == ':';
      }
    }
    r
  }

  function FormatDateArg(d: DateArg): string {
    match d
    case Text(s) => FormatDate(s)
    case NonText(r) => r
  }

  /** `YYYY-MM-DDTHH:MM:SS` */
  predicate IsLocalSeconds(s: string) {
    |s| == 19
    && (forall i | i in {0, 1, 2, 3, 5, 6, 8, 9, 11, 12, 14, 15, 17, 18} :: 0 <= i < |s| && IsDigit(s[i]))
    && s[4] == '-' && s[7] == '-' && s[10] == 'T' && s[13] == ':' && s[16] == ':'
  }

  lemma NoMillisInLocal(s: string)
    requires IsLocalSeconds(s)
    ensures FindFrom(s, MillisAt, 0).None?
  {
    forall j | 0 <= j <= |s| ensures !MillisAt(s[j..]) {
      if j < |s| { assert s[j..][0] == s[j]; }
    }
  }

  /** A local timestamp to the second is left as it is. */
  lemma FormatDateKeepsLocal(s: string)
    requires IsLocalSeconds(s)
    ensures FormatDate(s) == s
  {
    NoMillisInLocal(s);
    assert s[10] == 'T';
  }

  /** A `-HH:MM` offset is not stripped: only a `+` offset is. */
  lemma FormatDateKeepsMinusOffset(local: string, offset: string)
    requires IsLocalSeconds(local)
    requires |offset| == 6 && offset[0] == '-' && EndsWithOffset(['+'] + offset[1..])
    ensures FormatDate(local + offset) == local + offset
  {
    var s := local + offset;
    assert !EndsWithOffset(s) by { assert s[|s| - 6] == '-'; }
    assert StripZ(s) == s by { assert s[|s| - 1] == (['+'] + offset[1..])[5]; }
    forall j | 0 <= j <= |s| ensures !MillisAt(s[j..]) {
      if j < |s| {
        assert s[j..][0] == s[j];
        if j >= 19 { assert s[j] == offset[j - 19]; assert s[j] == (['+'] + offset[1..])[j - 19] || j == 19; }
      }
    }
    assert DatePart(s) == s;
    assert s[10] == 'T';
    assert !EndsWithHourMinute(s) by { assert s[|s| - 6] == '-'; }
  }

  /** A full timestamp with milliseconds and a `+HH:MM` offset keeps its local
      date and time to the second. */
  lemma FormatDateDropsMillisAndOffset(local: string, millis: string, offset: string)
    requires IsLocalSeconds(local) && MillisAt(millis) && |millis| == 4 && EndsWithOffset(offset) && |offset| == 6
    ensures FormatDate(local + millis + offset) == local
  {
    var s := local + millis + offset;
    assert EndsWithOffset(s);
    assert s[..|s| - 6] == local + millis;
    var t := local + millis;
    assert !(|t| > 0 && t[|t| - 1] == 'Z');
    assert StripZ(t) == t;
    assert MillisAt(t[19..]) by { assert t[19..] == millis; }
    forall j | 0 <= j < 19 ensures !MillisAt(t[j..]) {
      assert t[j..][0] == local[j];
    }
    assert FindFrom(t, MillisAt, 0) == Some(19);
    assert t[..19] + t[23..] == local;
    FormatDateKeepsLocal(local);
  }

  // ---------------------------------------------------------------------------
  // Station descriptors

  /** A station as the URL builders read it. Coordinates hold the text of the
      numbers (`"0"` for zero). */
  datatype UrlStation = UrlStation(
    id: Option<string>,
    stationId: Option<string>,
    uicCode: Option<string>,
    evaId: Option<string>,
    name: Option<string>,
    x: Option<string>,
    y: Option<string>,
    longitude: Option<string>,
    latitude: Option<string>)

  /** `a ?? b` */
  function Coalesce(a: Option<string>, b: Option<string>): Option<string> {
    if a.Some? then a else b
  }

  /** JavaScript truthiness of a number given by its text. */
  predicate NumTruthy(n: Option<string>) {
    n.Some? && n.value != "0" && n.value != "NaN"
  }

  /** `a || b` on numbers. */
  function NumOr(a: Option<string>, b: Option<string>): Option<string> {
    if NumTruthy(a) then a else b
  }

  const DescriptorKeys: seq<string> := ["A", "O", "X", "Y", "U", "L", "B", "p", "i"]

  /** The text after `i=`: `U×` and the id padded with zeros to nine places. */
  function PaddedId(id: string): (r: string)
    ensures |r| >= 11 && r[..2] == "U×" && EndsWith(r, id)
    ensures |r| == 2 + (if |id| >= 9 then |id| else 9)
    ensures forall i :: 2 <= i < |r| - |id| ==> r[i] == '0'
  {
    var p := PadStart(id, 9, '0');
    assert (("U×" + p)[2..]) == p;
    "U×" + p
  }

  lemma PaddedIdFree(id: string, c: char)
    requires c != 'U' && c != '×' && c != '0' && Free(id, c)
    ensures Free(PaddedId(id), c)
  {
    var p := PadStart(id, 9, '0');
    forall i | 0 <= i < |p| ensures p[i] != c {
      if i >= |p| - |id| {
        assert p[i] == p[|p| - |id|..][i - (|p| - |id|)];
      }
    }
    var r := PaddedId(id);
    assert r == "U×" + p;
    forall i | 0 <= i < |r| ensures r[i] != c {
      if i >= 2 { assert r[i] == p[i - 2]; }
    }
  }

  function DescriptorValues(name: string, id: string, x: string, y: string): seq<string> {
    ["1", name, x, y, "80", id, "1", "1750104613", PaddedId(id)]
  }

  function Entries(keys: seq<string>, values: seq<string>): (r: seq<string>)
    requires |keys| == |values|
    ensures |r| == |keys| && forall k :: 0 <= k < |keys| ==> r[k] == keys[k] + "=" + values[k]
  {
    seq(|keys|, k requires 0 <= k < |keys| => keys[k] + "=" + values[k])
  }

  /** The unencoded descriptor `A=1@O=<name>@X=<x>@Y=<y>@U=80@L=<id>@B=1@p=1750104613@i=U×<id>`. */
  function StationString(name: string, id: string, x: string, y: string): string {
    Join(Entries(DescriptorKeys, DescriptorValues(name, id, x, y)), "@")
  }

  /** s holds no c. */
  predicate Free(s: string, c: char) {
    forall i :: 0 <= i < |s| ==> s[i] != c
  }

  /** No entry `key=value` holds c when no key and no value does. */
  lemma EntriesFree(keys: seq<string>, values: seq<string>, c: char)
    requires |keys| == |values| && c != '='
    requires forall k :: 0 <= k < |keys| ==> Free(keys[k], c) && Free(values[k], c)
    ensures var e := Entries(keys, values);
      forall k, i :: 0 <= k < |e| && 0 <= i < |e[k]| ==> e[k][i] != c
  {
    var e := Entries(keys, values);
    forall k, i | 0 <= k < |e| && 0 <= i < |e[k]| ensures e[k][i] != c {
      assert e[k] == keys[k] + "=" + values[k];
      if i < |keys[k]| {
        assert e[k][i] == keys[k][i];
      } else if i > |keys[k]| {
        assert e[k][i] == values[k][i - |keys[k]| - 1];
      }
    }
  }

  lemma LiteralsFree()
    ensures forall k :: 0 <= k < 9 ==> Free(DescriptorKeys[k], '@')
    ensures Free("1", '@') && Free("80", '@') && Free("1750104613", '@')
  {
  }

  lemma DescriptorFree(name: string, id: string, x: string, y: string)
    requires Free(name, '@') && Free(id, '@') && Free(x, '@') && Free(y, '@')
    ensures forall k :: 0 <= k < 9 ==> Free(DescriptorKeys[k], '@') && Free(DescriptorValues(name, id, x, y)[k], '@')
  {
    LiteralsFree();
    PaddedIdFree(id, '@');
    var v := DescriptorValues(name, id, x, y);
    assert v[0] == "1" && v[4] == "80" && v[6] == "1" && v[7] == "1750104613" && v[8] == PaddedId(id);
  }

  /** Read back on `@`, the descriptor holds its nine keys in their fixed
      order, each with its value, as long as no value holds an `@`. */
  lemma StationStringEntries(name: string, id: string, x: string, y: string)
    requires Free(name, '@') && Free(id, '@') && Free(x, '@') && Free(y, '@')
    ensures var parts := Split(StationString(name, id, x, y), '@');
      var values := DescriptorValues(name, id, x, y);
      |parts| == 9 && forall k :: 0 <= k < 9 ==> parts[k] == DescriptorKeys[k] + "=" + values[k]
  {
    var values := DescriptorValues(name, id, x, y);
    DescriptorFree(name, id, x, y);
    EntriesFree(DescriptorKeys, values, '@');
    SplitJoin(Entries(DescriptorKeys, values), '@');
  }

  /** `createStationId`: the encoded descriptor. */
  function CreateStationId(name: Option<string>, id: Option<string>, x: string, y: string): (r: string)
    ensures forall i :: 0 <= i < |r| ==> UrlSafe(r[i])
  {
    Encode(StationString(Show(name), Show(id), x, y))
  }

  // ---------------------------------------------------------------------------
  // Accepting a station id

  /** `PROBLEMATIC_STATION_IDS`: ids the provider resolves to another station. */
  const ProblematicStationIds: map<string, string> := map["8002235" := "Senden"]

  /** `shouldUseStationId` */
  predicate ShouldUseStationId(id: Option<string>, name: Option<string>) {
    Truthy(id) && Truthy(name)
    && (id.value in ProblematicStationIds ==> Contains(Lower(name.value), Lower(ProblematicStationIds[id.value])))
  }

  /** The problematic id is refused for any station whose name does not name
      the station the id really stands for, and accepted for one that does. */
  lemma ProblematicIdRefused(name: string)
    ensures ShouldUseStationId(Some("8002235"), Some(name)) <==> name != "" && Contains(Lower(name), Lower("Senden"))
  {
  }

  /** `station.id || station.stationId || station.uicCode || station.evaId` */
  function ChosenId(s: UrlStation): Option<string> {
    if Truthy(s.id) then s.id
    else if Truthy(s.stationId) then s.stationId
    else if Truthy(s.uicCode) then s.uicCode
    else s.evaId
  }

  /** The id `addStationId` uses, when it uses one. */
  function AcceptedId(s: UrlStation): (r: Option<string>)
    ensures r.Some? <==> Truthy(ChosenId(s)) && ShouldUseStationId(ChosenId(s), s.name)
    ensures r.Some? ==> r == ChosenId(s) && r.value != ""
  {
    var id := ChosenId(s);
    if Truthy(id) && ShouldUseStationId(id, s.name) then id else None
  }

  /** The `<type>oid=` part `addStationId` pushes for an accepted id. */
  function OidPart(s: UrlStation, kind: string, id: string): string {
    kind + "oid=" + CreateStationId(s.name, Some(id), Show(Coalesce(NumOr(s.longitude, s.x), Some(""))), Show(Coalesce(NumOr(s.latitude, s.y), Some(""))))
  }

  /** A growing list of URL parts, the `parts` array the builders push onto. */
  class PartList {
    var items: seq<string>

    constructor (initial: seq<string>)
      ensures items == initial
    {
      items := initial;
    }

    method Push(part: string)
      modifies this
      ensures items == old(items) + [part]
    {
      items := items + [part];
    }

    /** `push(...ps)` */
    method PushAll(ps: seq<string>)
      modifies this
      ensures items == old(items) + ps
    {
      var k := 0;
      while k < |ps|
        invariant 0 <= k <= |ps|
        invariant items == old(items) + ps[..k]
      {
        items := items + [ps[k]];
        assert ps[..k + 1] == ps[..k] + [ps[k]];
        k := k + 1;
      }
      assert ps[..k] == ps;
    }
  }

  /** `addStationId`: pushes one `<kind>oid=` part and answers the id when the
      station has an id that may be used; otherwise leaves the parts alone and
      answers null. */
  method AddStationId(station: UrlStation, kind: string, parts: PartList) returns (id: Option<string>)
    modifies parts
    ensures id == AcceptedId(station)
    ensures parts.items == old(parts.items) + OidParts(station, kind)
  {
    var stationId := ChosenId(station);
    if Truthy(stationId) && ShouldUseStationId(stationId, station.name) {
      parts.Push(OidPart(station, kind, stationId.value));
      return stationId;
    }
    return None;
  }

  // ---------------------------------------------------------------------------
  // The builders

  const SearchBase := "https://www.bahn.de/buchung/fahrplan/suche#"

  /** The fixed parts after the date. */
  const TailParts: seq<string> := ["hza=D", "hz=%5B%5D", "ar=false", "s=false", "d=false",
    "vm=00,01,02,03,04,05,06,07,08,09", "fm=false", "bp=false", "dlt=false", "dltv=false"]

  function HeadParts(from: string, to: string, travelClass: string): seq<string> {
    ["sts=true", "so=" + Encode(from), "zo=" + Encode(to), "kl=" + travelClass, "r=13:16:KLASSENLOS:1"]
  }

  /** One leg of a segment as the segment builder reads it. */
  datatype UrlLeg = UrlLeg(origin: Option<UrlStation>, destination: Option<UrlStation>, departure: DateArg)

  const MissingLegs := "Invalid segment: missing legs data"
  /** Reading `name` of a missing origin or destination throws a TypeError. */
  const MissingStop := "TypeError"

  /** The parts of a segment search, given both stations. */
  function SegmentParts(o: UrlStation, d: UrlStation, date: DateArg, travelClass: string): seq<string> {
    HeadParts(Show(o.name), Show(d.name), travelClass)
    + OidParts(o, "s") + OidParts(d, "z")
    + ["sot=ST", "zot=ST"]
    + EiParts(o, "soei=") + EiParts(d, "zoei=")
    + (["hd=" + FormatDateArg(date)] + TailParts)
  }

  /** The `<kind>oid=` part of a station whose id is accepted. */
  function OidParts(s: UrlStation, kind: string): seq<string> {
    var id := AcceptedId(s);
    if id.Some? then [OidPart(s, kind, id.value)] else []
  }

  /** The `key` part (`soei=` or `zoei=`) of a named station whose id is accepted. */
  function EiParts(s: UrlStation, key: string): seq<string> {
    var id := AcceptedId(s);
    if id.Some? && Truthy(s.name) then [key + id.value] else []
  }

  /** `createSegmentSearchUrl`, with `travelClass` defaulting to 2. */
  method CreateSegmentSearchUrl(legs: seq<UrlLeg>, travelClassArg: Option<string>) returns (r: Result<string>)
    ensures |legs| == 0 ==> r == Err(MissingLegs)
    ensures |legs| > 0 && (legs[0].origin.None? || legs[|legs| - 1].destination.None?) ==> r == Err(MissingStop)
    ensures r.Ok? <==> |legs| > 0 && legs[0].origin.Some? && legs[|legs| - 1].destination.Some?
    ensures r.Ok? ==>
      r.value == SearchBase + Join(SegmentParts(legs[0].origin.value, legs[|legs| - 1].destination.value,
                                                legs[0].departure, if travelClassArg.Some? then travelClassArg.value else "2"), "&")
  {
    if |legs| == 0 {
      return Err(MissingLegs);
    }
    var travelClass := if travelClassArg.Some? then travelClassArg.value else "2";
    var firstLeg := legs[0];
    var lastLeg := legs[|legs| - 1];
    var cleanDate := FormatDateArg(firstLeg.departure);
    if firstLeg.origin.None? || lastLeg.destination.None? {
      return Err(MissingStop);
    }
    var origin := firstLeg.origin.value;
    var destination := lastLeg.destination.value;
    var parts := new PartList(HeadParts(Show(origin.name), Show(destination.name), travelClass));
    ghost var p := parts.items;
    var originId := AddStationId(origin, "s", parts);
    var destId := AddStationId(destination, "z", parts);
    parts.PushAll(["sot=ST", "zot=ST"]);
    p := p + OidParts(origin, "s") + OidParts(destination, "z") + ["sot=ST", "zot=ST"];
    assert parts.items == p;
    if originId.Some? && Truthy(origin.name) {
      parts.Push("soei=" + originId.value);
      assert EiParts(origin, "soei=") == ["soei=" + originId.value];
    } else {
      assert EiParts(origin, "soei=") == [];
    }
    p := p + EiParts(origin, "soei=");
    assert parts.items == p;
    if destId.Some? && Truthy(destination.name) {
      parts.Push("zoei=" + destId.value);
      assert EiParts(destination, "zoei=") == ["zoei=" + destId.value];
    } else {
      assert EiParts(destination, "zoei=") == [];
    }
    p := p + EiParts(destination, "zoei=");
    assert parts.items == p;
    parts.PushAll(["hd=" + cleanDate] + TailParts);
    r := Ok(SearchBase + Join(parts.items, "&"));
  }

  /** Some part begins with p. */
  predicate HasPart(parts: seq<string>, p: string) {
    exists k :: 0 <= k < |parts| && StartsWith(parts[k], p)
  }

  lemma HasPartConcat(a: seq<string>, b: seq<string>, p: string)
    ensures HasPart(a + b, p) <==> HasPart(a, p) || HasPart(b, p)
  {
    if HasPart(a + b, p) {
      var k :| 0 <= k < |a + b| && StartsWith((a + b)[k], p);
      if k >= |a| { assert (a + b)[k] == b[k - |a|]; } else { assert (a + b)[k] == a[k]; }
    }
    if HasPart(a, p) {
      var k :| 0 <= k < |a| && StartsWith(a[k], p);
      assert (a + b)[k] == a[k];
    }
    if HasPart(b, p) {
      var k :| 0 <= k < |b| && StartsWith(b[k], p);
      assert (a + b)[|a| + k] == b[k];
    }
  }

  /** A part that differs from p at some position before p ends does not
      begin with p. */
  lemma Differs(part: string, p: string, i: nat)
    requires i < |part| && i < |p| && part[i] != p[i]
    ensures !StartsWith(part, p)
  {
    if |p| <= |part| {
      assert part[..|p|][i] == part[i];
    }
  }

  /** The keys this part of the model asks about (`soei`, `zoei`, `sooid`,
      `zooid`): `so` or `zo` followed by more key, unlike the fixed parts'
      keys `so`, `zo`, `sot` and `zot`. */
  predicate LongKey(p: string) {
    |p| >= 3 && (p[0] == 's' || p[0] == 'z') && p[1] == 'o' && p[2] != '=' && p[2] != 't'
  }

  /** a + b begins with a. */
  lemma StartsWithConcat(a: string, b: string)
    ensures StartsWith(a + b, a)
  {
    assert (a + b)[..|a|] == a;
  }

  lemma HeadFree(from: string, to: string, travelClass: string, p: string)
    requires LongKey(p)
    ensures !HasPart(HeadParts(from, to, travelClass), p)
  {
    var h := HeadParts(from, to, travelClass);
    forall k | 0 <= k < |h| ensures !StartsWith(h[k], p) {
      if k == 0 { Differs(h[k], p, 1); }
      else if k == 1 || k == 2 { assert h[k][2] == '='; Differs(h[k], p, 2); }
      else { Differs(h[k], p, 0); }
    }
  }

  lemma StopTypesFree(p: string)
    requires LongKey(p)
    ensures !HasPart(["sot=ST", "zot=ST"], p)
  {
    var m := ["sot=ST", "zot=ST"];
    forall k | 0 <= k < |m| ensures !StartsWith(m[k], p) {
      Differs(m[k], p, 2);
    }
  }

  lemma DateTailFree(date: string, p: string)
    requires LongKey(p)
    ensures !HasPart(["hd=" + date] + TailParts, p)
  {
    var t := ["hd=" + date] + TailParts;
    forall k | 0 <= k < |t| ensures !StartsWith(t[k], p) {
      if k == 4 { Differs(t[k], p, 1); } else { Differs(t[k], p, 0); }
    }
  }

  /** An `oid` part never begins with a key whose third letter is not `i`. */
  lemma OidPartsFree(s: UrlStation, kind: string, p: string)
    requires |kind| == 1 && |p| >= 3 && p[2] != 'i'
    ensures !HasPart(OidParts(s, kind), p)
  {
    var ps := OidParts(s, kind);
    if ps != [] {
      var id := AcceptedId(s).value;
      var rest := CreateStationId(s.name, Some(id), Show(Coalesce(NumOr(s.longitude, s.x), Some(""))), Show(Coalesce(NumOr(s.latitude, s.y), Some(""))));
      assert ps[0] == kind + "oid=" + rest;
      OidKeyThird(kind, rest);
      Differs(ps[0], p, 2);
    }
  }

  lemma OidKeyThird(kind: string, rest: string)
    requires |kind| == 1
    ensures |kind + "oid=" + rest| > 2 && (kind + "oid=" + rest)[2] == 'i'
  {
    assert (kind + "oid=" + rest)[2] == "oid="[1];
  }

  /** The `oei` part of a station begins with an `oei` key exactly for its own key. */
  lemma EiPartsKeys(s: UrlStation, key: string, p: string)
    requires |key| == 5 && key[1..] == "oei=" && |p| == 5 && p[1..] == "oei="
    ensures HasPart(EiParts(s, key), p) <==> AcceptedId(s).Some? && Truthy(s.name) && p[0] == key[0]
  {
    var ps := EiParts(s, key);
    if ps != [] {
      var id := AcceptedId(s).value;
      assert ps[0] == key + id;
      if p[0] == key[0] {
        assert p == key by {
          forall i | 0 <= i < 5 ensures p[i] == key[i] {
            if i > 0 { assert p[i] == p[1..][i - 1] && key[i] == key[1..][i - 1]; }
          }
        }
        StartsWithConcat(key, id);
      } else {
        Differs(ps[0], p, 0);
      }
    }
  }

  /** Seven pieces of parts of which only the fifth and sixth can hold p. */
  lemma OnlyMiddle(a: seq<string>, b: seq<string>, c: seq<string>, d: seq<string>,
                   e: seq<string>, f: seq<string>, g: seq<string>, p: string)
    requires !HasPart(a, p) && !HasPart(b, p) && !HasPart(c, p) && !HasPart(d, p) && !HasPart(g, p)
    ensures HasPart(a + b + c + d + e + f + g, p) <==> HasPart(e, p) || HasPart(f, p)
  {
    HasPartConcat(a, b, p);
    HasPartConcat(a + b, c, p);
    HasPartConcat(a + b + c, d, p);
    HasPartConcat(a + b + c + d, e, p);
    HasPartConcat(a + b + c + d + e, f, p);
    HasPartConcat(a + b + c + d + e + f, g, p);
  }

  /** Any `oei` key is in the segment search exactly when that end's station
      id was accepted and the station has a name. */
  lemma SegmentEiKey(o: UrlStation, d: UrlStation, date: DateArg, travelClass: string, p: string)
    requires |p| == 5 && p[1..] == "oei=" && (p[0] == 's' || p[0] == 'z')
    ensures HasPart(SegmentParts(o, d, date, travelClass), p)
      <==> (p[0] == 's' && AcceptedId(o).Some? && Truthy(o.name)) || (p[0] == 'z' && AcceptedId(d).Some? && Truthy(d.name))
  {
    assert LongKey(p) && p[2] == 'e';
    HeadFree(Show(o.name), Show(d.name), travelClass, p);
    StopTypesFree(p);
    DateTailFree(FormatDateArg(date), p);
    OidPartsFree(o, "s", p);
    OidPartsFree(d, "z", p);
    EiPartsKeys(o, "soei=", p);
    EiPartsKeys(d, "zoei=", p);
    OnlyMiddle(HeadParts(Show(o.name), Show(d.name), travelClass), OidParts(o, "s"), OidParts(d, "z"),
      ["sot=ST", "zot=ST"], EiParts(o, "soei="), EiParts(d, "zoei="), ["hd=" + FormatDateArg(date)] + TailParts, p);
  }

  /** `soei=` and `zoei=` are in the segment search exactly when that end's
      station id was accepted and the station has a name. */
  lemma SegmentEiParts(o: UrlStation, d: UrlStation, date: DateArg, travelClass: string)
    ensures var parts := SegmentParts(o, d, date, travelClass);
      (HasPart(parts, "soei=") <==> AcceptedId(o).Some? && Truthy(o.name))
      && (HasPart(parts, "zoei=") <==> AcceptedId(d).Some? && Truthy(d.name))
  {
    SegmentEiKey(o, d, date, travelClass, "soei=");
    SegmentEiKey(o, d, date, travelClass, "zoei=");
  }

  /** Every segment search begins with the search page's address, and its
      fragment reads back on `&` into exactly its parts, provided the raw
      values (ids, class, date) hold no `&`. */
  lemma SegmentUrlReadsBack(o: UrlStation, d: UrlStation, date: DateArg, travelClass: string)
    requires var parts := SegmentParts(o, d, date, travelClass);
      forall k :: 0 <= k < |parts| ==> '&' !in parts[k]
    ensures var parts := SegmentParts(o, d, date, travelClass);
      var url := SearchBase + Join(parts, "&");
      StartsWith(url, SearchBase) && Split(url[|SearchBase|..], '&') == parts
  {
    var parts := SegmentParts(o, d, date, travelClass);
    forall k, i | 0 <= k < |parts| && 0 <= i < |parts[k]| ensures parts[k][i] != '&' {
      assert parts[k][i] in parts[k];
    }
    SplitJoin(parts, '&');
    var url := SearchBase + Join(parts, "&");
    assert url[|SearchBase|..] == Join(parts, "&");
  }

  /** The parts `addStation` of `createDBSearchUrl` adds for one station: none
      without an id, else the descriptor and the raw id. */
  function DbStationParts(prefix: string, s: Option<UrlStation>): seq<string> {
    if s.None? || !Truthy(s.value.id) then []
    else
      var st := s.value;
      [prefix + "oid=" + CreateStationId(st.name, st.id, Show(Coalesce(Coalesce(st.x, st.longitude), Some(""))),
                                               Show(Coalesce(Coalesce(st.y, st.latitude), Some("")))),
       prefix + "ei=" + st.id.value]
  }

  function DbParts(from: string, to: string, date: DateArg, travelClass: string, fromStation: Option<UrlStation>, toStation: Option<UrlStation>): seq<string> {
    HeadParts(from, to, travelClass) + DbStationParts("so", fromStation) + DbStationParts("zo", toStation)
    + ["sot=ST", "zot=ST"] + (["hd=" + FormatDateArg(date)] + TailParts)
  }

  /** `createDBSearchUrl`, with the class defaulting to 2. */
  method CreateDBSearchUrl(from: string, to: string, date: DateArg, travelClassArg: Option<string>,
                           fromStation: Option<UrlStation>, toStation: Option<UrlStation>) returns (url: string)
    ensures url == SearchBase + Join(DbParts(from, to, date, if travelClassArg.Some? then travelClassArg.value else "2", fromStation, toStation), "&")
  {
    var travelClass := if travelClassArg.Some? then travelClassArg.value else "2";
    var formattedDate := FormatDateArg(date);
    var parts := new PartList(HeadParts(from, to, travelClass));
    AddStation("so", fromStation, parts);
    AddStation("zo", toStation, parts);
    parts.PushAll(["sot=ST", "zot=ST"]);
    parts.PushAll(["hd=" + formattedDate] + TailParts);
    ghost var expected := DbParts(from, to, date, travelClass, fromStation, toStation);
    assert parts.items == expected;
    url := SearchBase + Join(parts.items, "&");
  }

  /** The `addStation` closure of `createDBSearchUrl`. */
  method AddStation(prefix: string, station: Option<UrlStation>, parts: PartList)
    modifies parts
    ensures parts.items == old(parts.items) + DbStationParts(prefix, station)
  {
    if station.None? || !Truthy(station.value.id) {
      return;
    }
    var st := station.value;
    parts.Push(prefix + "oid=" + CreateStationId(st.name, st.id, Show(Coalesce(Coalesce(st.x, st.longitude), Some(""))),
                                                 Show(Coalesce(Coalesce(st.y, st.latitude), Some("")))));
    parts.Push(prefix + "ei=" + st.id.value);
  }

  /** Five pieces of parts of which only the second and third can hold p. */
  lemma OnlySecondThird(a: seq<string>, b: seq<string>, c: seq<string>, d: seq<string>, e: seq<string>, p: string)
    requires !HasPart(a, p) && !HasPart(d, p) && !HasPart(e, p)
    ensures HasPart(a + b + c + d + e, p) <==> HasPart(b, p) || HasPart(c, p)
  {
    HasPartConcat(a, b, p);
    HasPartConcat(a + b, c, p);
    HasPartConcat(a + b + c, d, p);
    HasPartConcat(a + b + c + d, e, p);
  }

  /** Two strings that agree on their first two characters and the rest. */
  lemma TwoThenRest(p: string, prefix: string, suffix: string)
    requires |prefix| == 2 && |p| >= 2 && p[0] == prefix[0] && p[1] == prefix[1] && p[2..] == suffix
    ensures p == prefix + suffix
  {
    assert p == p[..2] + p[2..];
    assert p[..2] == prefix;
  }

  /** The parts of one station begin with an `oid` key exactly for its own
      prefix, and only when the station has an id. */
  lemma StationPartsKeys(prefix: string, s: Option<UrlStation>, p: string)
    requires |prefix| == 2 && prefix[1] == 'o' && |p| == 6 && p[1] == 'o' && p[2..] == "oid="
    ensures HasPart(DbStationParts(prefix, s), p) <==> s.Some? && Truthy(s.value.id) && p[0] == prefix[0]
  {
    var ps := DbStationParts(prefix, s);
    if ps != [] {
      var st := s.value;
      var rest := CreateStationId(st.name, st.id, Show(Coalesce(Coalesce(st.x, st.longitude), Some(""))),
                                  Show(Coalesce(Coalesce(st.y, st.latitude), Some(""))));
      var oid := prefix + "oid=";
      assert ps[0] == oid + rest;
      var ei := prefix + "ei=";
      assert ps[1] == ei + st.id.value;
      assert ei[2] == 'e';
      Differs(ps[1], p, 2);
      if p[0] == prefix[0] {
        TwoThenRest(p, prefix, "oid=");
        StartsWithConcat(oid, rest);
      } else {
        Differs(ps[0], p, 0);
      }
    }
  }

  /** Any `oid` key is in the search link exactly when the station of that
      end has an id. */
  lemma DbOidKey(from: string, to: string, date: DateArg, travelClass: string,
                 fromStation: Option<UrlStation>, toStation: Option<UrlStation>, p: string)
    requires |p| == 6 && (p[0] == 's' || p[0] == 'z') && p[1] == 'o' && p[2..] == "oid="
    ensures HasPart(DbParts(from, to, date, travelClass, fromStation, toStation), p)
      <==> (p[0] == 's' && fromStation.Some? && Truthy(fromStation.value.id))
           || (p[0] == 'z' && toStation.Some? && Truthy(toStation.value.id))
  {
    assert p[2] == p[2..][0] == 'o';
    HeadFree(from, to, travelClass, p);
    StopTypesFree(p);
    DateTailFree(FormatDateArg(date), p);
    StationPartsKeys("so", fromStation, p);
    StationPartsKeys("zo", toStation, p);
    OnlySecondThird(HeadParts(from, to, travelClass), DbStationParts("so", fromStation), DbStationParts("zo", toStation),
      ["sot=ST", "zot=ST"], ["hd=" + FormatDateArg(date)] + TailParts, p);
  }

  /** The search link carries a station's descriptor exactly when that station
      has an id. */
  lemma DbStationDescriptors(from: string, to: string, date: DateArg, travelClass: string, fromStation: Option<UrlStation>, toStation: Option<UrlStation>)
    ensures var parts := DbParts(from, to, date, travelClass, fromStation, toStation);
      (HasPart(parts, "sooid=") <==> fromStation.Some? && Truthy(fromStation.value.id))
      && (HasPart(parts, "zooid=") <==> toStation.Some? && Truthy(toStation.value.id))
  {
    DbOidKey(from, to, date, travelClass, fromStation, toStation, "sooid=");
    DbOidKey(from, to, date, travelClass, fromStation, toStation, "zooid=");
  }
}
