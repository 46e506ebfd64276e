/** Reading a booking-site link back into a journey: the first `key=value`
    matches in the fragment, then the query string, which overrides the
    fragment, and finally the travel class forced to 1 or 2. Parsing the URL
    (`new URL`) and `decodeURIComponent` are parameters; a decoder answers
    `None` where `decodeURIComponent` throws. */
module ParseUrl {
  import opened Wrappers
  import opened Strings
  import opened Journeys

  /** What `new URL(url)` yields: the fragment (with its `#`, or empty) and the
      query's key/value pairs, already decoded, in order. */
  datatype UrlParts = UrlParts(hash: string, query: seq<(string, string)>)

  /** `new URL`: `None` where it throws. */
  type UrlParser = string -> Option<UrlParts>

  /** `decodeURIComponent`: `None` where it throws. */
  type Decoder = string -> Option<string>

  /** The `details` record; `travelClass` is `class`, `None` for null or NaN. */
  datatype Fields = Fields(
    fromStation: Option<string>,
    fromStationId: Option<string>,
    toStation: Option<string>,
    toStationId: Option<string>,
    date: Option<string>,
    time: Option<string>,
    travelClass: Option<int>)

  const Blank := Fields(None, None, None, None, None, None, None)

  /** What `extractJourneyDetails` returns: the details or `{error, details}`. */
  datatype Extracted = Details(fields: Fields) | ExtractError(error: string, details: string)

  const ExtractFailed := "Failed to extract journey details"
  /** The messages of the two errors the extraction can meet. */
  const InvalidUrl := "Invalid URL"
  const UriMalformed := "URI malformed"

  // ---------------------------------------------------------------------------
  // First matches of `/key([^...]+)/`

  predicate IsAmp(c: char) {
    c == '&'
  }

  predicate IsAt(c: char) {
    c == '@'
  }

  predicate NotDigit(c: char) {
    !IsDigit(c)
  }

  /** `/key[^Stop]/` matches at position j: key, then a character outside Stop. */
  predicate MatchHere(s: string, j: nat, key: string, Stop: char -> bool)
    requires j <= |s|
  {
    |s| - j > |key| && s[j..j + |key|] == key && !Stop(s[j + |key|])
  }

  /** The leftmost match at or after `from`. */
  function MatchFrom(s: string, key: string, Stop: char -> bool, from: nat): (r: Option<nat>)
    requires from <= |s|
    decreases |s| - from
    ensures r.Some? ==> from <= r.value < |s| && MatchHere(s, r.value, key, Stop)
    ensures r.Some? ==> forall j :: from <= j < r.value ==> !MatchHere(s, j, key, Stop)
    ensures r.None? ==> forall j :: from <= j <= |s| ==> !MatchHere(s, j, key, Stop)
  {
    if from == |s| then None
    else if MatchHere(s, from, key, Stop) then Some(from)
    else MatchFrom(s, key, Stop, from + 1)
  }

  /** The first capture group of `s.match(/key([^Stop]+)/)`. */
  function Capture(s: string, key: string, Stop: char -> bool): (r: Option<string>)
    ensures r.Some? ==> r.value != ""
  {
    match MatchFrom(s, key, Stop, 0)
    case None => None
    case Some(j) =>
      var c := TakeWhile(s[j + |key|..], c => !Stop(c));
      assert s[j + |key|..][0] == s[j + |key|];
      Some(c)
  }

  /** The capture is what the regular expression captures: nothing when no
      position matches; otherwise the leftmost match, its run of characters
      outside Stop taken as far as it goes. */
  lemma CaptureMeaning(s: string, key: string, Stop: char -> bool)
    ensures var r := Capture(s, key, Stop);
      (r.None? <==> forall j :: 0 <= j <= |s| ==> !MatchHere(s, j, key, Stop))
      && (r.Some? ==>
        var j := MatchFrom(s, key, Stop, 0).value;
        var start := j + |key|;
        (forall i :: 0 <= i < j ==> !MatchHere(s, i, key, Stop))
        && s[j..start] == key
        && start + |r.value| <= |s| && s[start..start + |r.value|] == r.value
        && (forall i :: 0 <= i < |r.value| ==> !Stop(r.value[i]))
        && (start + |r.value| == |s| || Stop(s[start + |r.value|])))
  {
    var r := Capture(s, key, Stop);
    if r.Some? {
      var j := MatchFrom(s, key, Stop, 0).value;
      var t := s[j + |key|..];
      assert s[j + |key|..j + |key| + |r.value|] == t[..|r.value|];
    }
  }

  // ---------------------------------------------------------------------------
  // Station values

  /** `extractStationId`: the digits after the first `@L=` followed by a digit. */
  function StationId(v: Option<string>): (r: Option<string>)
    ensures !Truthy(v) ==> r.None?
    ensures r.Some? ==> r.value != "" && forall i :: 0 <= i < |r.value| ==> IsDigit(r.value[i])
  {
    if !Truthy(v) then None else Capture(v.value, "@L=", NotDigit)
  }

  /** A capture occurs in the text right after its key. */
  lemma CaptureOccurs(s: string, key: string, Stop: char -> bool)
    ensures Capture(s, key, Stop).Some? ==> Contains(s, key + Capture(s, key, Stop).value)
  {
    var r := Capture(s, key, Stop);
    if r.Some? {
      var j := MatchFrom(s, key, Stop, 0).value;
      var t := s[j + |key|..];
      assert r.value == t[..|r.value|];
      SliceConcat(s, j, key, r.value);
      ContainsStart(s, j, key + r.value);
    }
  }

  /** Two pieces laid side by side at position i start the text from i. */
  lemma SliceConcat(s: string, i: nat, a: string, b: string)
    requires i + |a| + |b| <= |s|
    requires s[i..i + |a|] == a && s[i + |a|..][..|b|] == b
    ensures StartsWith(s[i..], a + b)
  {
    assert s[i..][..|a| + |b|] == s[i..i + |a|] + s[i + |a|..][..|b|];
  }

  /** The id found occurs right after an `@L=` in the value, and no id is
      found exactly when no `@L=` in it is followed by a digit. */
  lemma StationIdOccurs(v: string)
    requires v != ""
    ensures var r := StationId(Some(v));
      (r.Some? ==> Contains(v, "@L=" + r.value))
      && (r.None? <==> forall j :: 0 <= j <= |v| ==> !MatchHere(v, j, "@L=", NotDigit))
  {
    CaptureOccurs(v, "@L=", NotDigit);
  }

  /** A string contains what starts at one of its positions. */
  lemma ContainsStart(s: string, j: nat, t: string)
    requires j <= |s| && StartsWith(s[j..], t)
    ensures Contains(s, t)
  {
    assert Contains(s[j..], t);
    ContainsSuffix(s, j, t);
  }

  /** `s.split(t)[0]`: s up to its first occurrence of t. */
  function BeforeFirst(s: string, t: string): (r: string)
    ensures StartsWith(s, r)
    ensures IndexOf(s, t).None? ==> r == s
    ensures IndexOf(s, t).Some? ==> StartsWith(s[|r|..], t) && forall j :: 0 <= j < |r| ==> !StartsWith(s[j..], t)
  {
    match IndexOf(s, t)
    case None => s
    case Some(i) =>
      assert s[i..][..|t|] == s[i..i + |t|];
      s[..i]
  }

  /** `decodeURIComponent(raw).replace(/\+/g, " ").trim()` */
  function CleanName(raw: string, decode: Decoder): Result<string> {
    match decode(raw)
    case None => Err(UriMalformed)
    case Some(d) => Ok(Trim(ReplaceChar(d, '+', ' ')))
  }

  /** `extractStationName`: the decoded text after the first `@O=` up to the
      next `@`, else the decoded text before the first `@L=`; pluses become
      spaces and the result is trimmed. */
  function StationName(v: Option<string>, decode: Decoder): Result<Option<string>> {
    if !Truthy(v) then Ok(None)
    else
      var o := Capture(v.value, "@O=", IsAt);
      var raw := if o.Some? then o.value else BeforeFirst(v.value, "@L=");
      match CleanName(raw, decode)
      case Err(m) => Err(m)
      case Ok(n) => Ok(Some(n))
  }

  /** A cleaned name holds no `+` and no white space at either end. */
  lemma CleanNameShape(raw: string, decode: Decoder)
    requires CleanName(raw, decode).Ok?
    ensures var n := CleanName(raw, decode).value;
      Trim(n) == n && forall i :: 0 <= i < |n| ==> n[i] != '+'
  {
    var d := ReplaceChar(decode(raw).value, '+', ' ');
    TrimIdempotent(d);
    TrimKeeps(d, '+');
  }

  /** A station name is the cleaned `@O=` capture, else the cleaned text
      before `@L=`; it fails exactly when decoding that text fails, and a
      name, when there is one, is trimmed and holds no `+`. */
  lemma StationNameMeaning(v: string, decode: Decoder)
    requires v != ""
    ensures var o := Capture(v, "@O=", IsAt);
      var raw := if o.Some? then o.value else BeforeFirst(v, "@L=");
      var r := StationName(Some(v), decode);
      (r.Err? <==> decode(raw).None?)
      && (r.Err? ==> r.message == UriMalformed)
      && (r.Ok? ==> r.value == Some(Trim(ReplaceChar(decode(raw).value, '+', ' '))))
      && (r.Ok? ==> Trim(r.value.value) == r.value.value && forall i :: 0 <= i < |r.value.value| ==> r.value.value[i] != '+')
  {
    var o := Capture(v, "@O=", IsAt);
    var raw := if o.Some? then o.value else BeforeFirst(v, "@L=");
    assert Truthy(Some(v));
    if decode(raw).Some? {
      CleanNameShape(raw, decode);
      assert StationName(Some(v), decode) == Ok(Some(CleanName(raw, decode).value));
    } else {
      assert StationName(Some(v), decode) == Err(UriMalformed);
    }
  }

  // ---------------------------------------------------------------------------
  // Dates and times

  /** `s.replace(t, "")`: drops the first occurrence of t. */
  function RemoveFirst(s: string, t: string): (r: string)
    ensures IndexOf(s, t).None? ==> r == s
    ensures IndexOf(s, t).Some? ==> |r| + |t| == |s|
    ensures IndexOf(s, t).Some? ==> var i := IndexOf(s, t).value; r == s[..i] + s[i + |t|..]
  {
    match IndexOf(s, t)
    case None => s
    case Some(i) => s[..i] + s[i + |t|..]
  }

  /** With a separator in it, the split has a second piece, and the first piece
      is the text before the first separator. */
  lemma {:induction false} SplitAtSeparator(s: string, sep: char)
    requires sep in s
    ensures |Split(s, sep)| >= 2
    ensures |Split(s, sep)[0]| < |s| && s[..|Split(s, sep)[0]| + 1] == Split(s, sep)[0] + [sep]
  {
    if s[0] != sep {
      assert sep in s[1..] by {
        var k :| 0 <= k < |s| && s[k] == sep;
        assert s[1..][k - 1] == sep;
      }
      SplitAtSeparator(s[1..], sep);
      var rest := Split(s[1..], sep);
      assert Split(s, sep)[0] == [s[0]] + rest[0];
      assert s[..|rest[0]| + 2] == [s[0]] + s[1..][..|rest[0]| + 1];
    }
  }

  predicate NotT(c: char) {
    c != 'T'
  }

  /** The first piece of a split at `T` is the longest prefix without `T`. */
  lemma {:induction false} SplitFirstT(s: string)
    ensures Split(s, 'T')[0] == TakeWhile(s, NotT)
  {
    if s != [] {
      SplitFirstT(s[1..]);
    }
  }

  /** The second piece of a split at `T` is the first piece of what follows
      the first `T`. */
  lemma {:induction false} SplitSecondT(s: string)
    requires 'T' in s
    ensures |Split(s, 'T')| >= 2
    ensures |Split(s, 'T')[0]| < |s|
    ensures Split(s, 'T')[1] == Split(s[|Split(s, 'T')[0]| + 1..], 'T')[0]
  {
    SplitAtSeparator(s, 'T');
    if s[0] != 'T' {
      assert 'T' in s[1..] by {
        var k :| 0 <= k < |s| && s[k] == 'T';
        assert s[1..][k - 1] == 'T';
      }
      SplitSecondT(s[1..]);
      var rest := Split(s[1..], 'T');
      assert Split(s, 'T')[0] == [s[0]] + rest[0];
      assert s[1..][|rest[0]| + 1..] == s[|rest[0]| + 2..];
    }
  }

  /** The hash `hd` value: the date before the first `T`, and the time after
      it (its first `:00` removed) when that is not empty. The time is the
      longest run without `T` after the first `T`. */
  function DateAndTime(v: string): (r: (Option<string>, Option<string>))
    ensures r.0.Some? && 'T' !in r.0.value
    ensures 'T' !in v ==> r == (Some(v), None)
    ensures 'T' in v ==> StartsWith(v, r.0.value + "T")
    ensures 'T' in v ==> var piece := TakeWhile(v[|r.0.value| + 1..], NotT);
      r.1 == (if piece != "" then Some(RemoveFirst(piece, ":00")) else None)
  {
    if 'T' in v then
      SplitAtSeparator(v, 'T');
      SplitSecondT(v);
      SplitFirstT(v[|Split(v, 'T')[0]| + 1..]);
      var pieces := Split(v, 'T');
      assert forall i :: 0 <= i < |pieces[0]| ==> pieces[0][i] != 'T';
      (Some(pieces[0]), if pieces[1] != "" then Some(RemoveFirst(pieces[1], ":00")) else None)
    else (Some(v), None)
  }

  // ---------------------------------------------------------------------------
  // The fragment and the query

  /** The decoded capture of `key` in the fragment, or `None` without a match. */
  function HashValue(hash: string, key: string, decode: Decoder): (r: Result<Option<string>>)
    ensures Capture(hash, key, IsAmp).None? ==> r == Ok(None)
    ensures Capture(hash, key, IsAmp).Some? ==>
      (r.Err? <==> decode(Capture(hash, key, IsAmp).value).None?)
      && (r.Ok? ==> r.value == decode(Capture(hash, key, IsAmp).value))
      && (r.Err? ==> r.message == UriMalformed)
  {
    match Capture(hash, key, IsAmp)
    case None => Ok(None)
    case Some(c) => if decode(c).None? then Err(UriMalformed) else Ok(decode(c))
  }

  /** A `soid`/`zoid` capture of the fragment: its id and name, both `None`
      without a match. */
  function HashStation(hash: string, key: string, decode: Decoder): (r: Result<(Option<string>, Option<string>)>)
    ensures r.Err? ==> r.message == UriMalformed
    ensures Capture(hash, key, IsAmp).None? ==> r == Ok((None, None))
    ensures Capture(hash, key, IsAmp).Some? && decode(Capture(hash, key, IsAmp).value).None? ==> r.Err?
    ensures Capture(hash, key, IsAmp).Some? && decode(Capture(hash, key, IsAmp).value).Some? ==>
      var v := decode(Capture(hash, key, IsAmp).value);
      (r.Ok? <==> StationName(v, decode).Ok?)
      && (r.Ok? ==> r.value == (StationId(v), StationName(v, decode).value))
  {
    match HashValue(hash, key, decode)
    case Err(m) => Err(m)
    case Ok(v) =>
      if v.None? then Ok((None, None))
      else
        match StationName(v, decode)
        case Err(m) => Err(m)
        case Ok(n) => Ok((StationId(v), n))
  }

  /** The fragment's date and time: `hd` split at its `T`, and `ht` only
      when `hd` gave no time. */
  function HashDateTime(hash: string, decode: Decoder): (r: Result<(Option<string>, Option<string>)>)
    ensures r.Err? ==> r.message == UriMalformed
    ensures HashValue(hash, "hd=", decode).Err? ==> r.Err?
    ensures HashValue(hash, "hd=", decode).Ok? && r.Ok? ==>
      var hd := HashValue(hash, "hd=", decode).value;
      r.value.0 == (if hd.Some? then DateAndTime(hd.value).0 else None)
    ensures HashValue(hash, "hd=", decode).Ok? && r.Ok? ==>
      var hd := HashValue(hash, "hd=", decode).value;
      var hdTime := if hd.Some? then DateAndTime(hd.value).1 else None;
      var ht := HashValue(hash, "ht=", decode);
      (Truthy(hdTime) ==> r.value.1 == hdTime)
      && (!Truthy(hdTime) && ht.Ok? && ht.value.Some? ==> r.value.1 == ht.value)
      && (!Truthy(hdTime) && ht.Ok? && ht.value.None? ==> r.value.1 == hdTime)
  {
    match HashValue(hash, "hd=", decode)
    case Err(m) => Err(m)
    case Ok(hd) =>
      var dt := if hd.Some? then DateAndTime(hd.value) else (None, None);
      if Truthy(dt.1) then Ok(dt)
      else
        match HashValue(hash, "ht=", decode)
        case Err(m) => Err(m)
        case Ok(t) => Ok((dt.0, if t.Some? then t else dt.1))
  }

  /** The legacy `so`/`zo` name, read only when the name is still empty. */
  function HashFallback(hash: string, key: string, name: Option<string>, decode: Decoder): (r: Result<Option<string>>)
    ensures r.Err? ==> r.message == UriMalformed
    ensures Truthy(name) ==> r == Ok(name)
  {
    if Truthy(name) then Ok(name)
    else
      match HashValue(hash, key, decode)
      case Err(m) => Err(m)
      case Ok(v) => Ok(if v.Some? then v else name)
  }

  /** What the fragment alone gives: every field from the first match of its
      key, names falling back on `so`/`zo` only when still empty, and the
      time from `hd` taking precedence over `ht`. A decoding that fails makes
      it fail. */
  function HashFields(hash: string, decode: Decoder): (r: Result<Fields>)
    ensures r.Err? ==> r.message == UriMalformed
  {
    if hash == "" then Ok(Blank)
    else
      var from := HashStation(hash, "soid=", decode);
      var to := HashStation(hash, "zoid=", decode);
      var dt := HashDateTime(hash, decode);
      if from.Err? || to.Err? || dt.Err? then Err(UriMalformed)
      else
        var fromName := HashFallback(hash, "so=", from.value.1, decode);
        var toName := HashFallback(hash, "zo=", to.value.1, decode);
        if fromName.Err? || toName.Err? then Err(UriMalformed)
        else
          var kl := Capture(hash, "kl=", IsAmp);
          Ok(Fields(fromName.value, from.value.0, toName.value, to.value.0, dt.value.0, dt.value.1,
                    if kl.Some? then ParseInt(kl.value) else None))
  }

  /** `searchParams.get(key)`: the first value of key. */
  function Get(q: seq<(string, string)>, key: string): (r: Option<string>)
    ensures r.Some? <==> exists i :: 0 <= i < |q| && q[i].0 == key
    ensures r.Some? ==> exists i :: 0 <= i < |q| && q[i] == (key, r.value) && forall j :: 0 <= j < i ==> q[j].0 != key
  {
    if q == [] then None
    else if q[0].0 == key then Some(q[0].1)
    else
      var r := Get(q[1..], key);
      assert forall i :: 1 <= i < |q| ==> q[i] == q[1..][i - 1];
      assert r.Some? ==> exists i :: 1 <= i < |q| && q[i] == (key, r.value) && forall j :: 0 <= j < i ==> q[j].0 != key by {
        if r.Some? {
          var k :| 0 <= k < |q[1..]| && q[1..][k] == (key, r.value) && forall j :: 0 <= j < k ==> q[1..][j].0 != key;
          assert q[k + 1] == (key, r.value);
          assert forall j :: 0 <= j < k + 1 ==> q[j].0 != key by {
            forall j | 0 <= j < k + 1 ensures q[j].0 != key {
              if j > 0 { assert q[j] == q[1..][j - 1]; }
            }
          }
        }
      }
      r
  }

  /** `searchParams.has(key)` */
  predicate Has(q: seq<(string, string)>, key: string) {
    Get(q, key).Some?
  }

  /** A `soid`/`zoid` query value replaces a station's id and name. */
  function QueryStation(q: seq<(string, string)>, key: string, id: Option<string>, name: Option<string>, decode: Decoder)
    : (r: Result<(Option<string>, Option<string>)>)
    ensures r.Err? ==> r.message == UriMalformed
    ensures !Has(q, key) ==> r == Ok((id, name))
    ensures Has(q, key) ==> (r.Ok? <==> StationName(Get(q, key), decode).Ok?)
    ensures Has(q, key) && r.Ok? ==> r.value == (StationId(Get(q, key)), StationName(Get(q, key), decode).value)
  {
    if !Has(q, key) then Ok((id, name))
    else
      match StationName(Get(q, key), decode)
      case Err(m) => Err(m)
      case Ok(n) => Ok((StationId(Get(q, key)), n))
  }

  /** What the query makes of the fragment's fields: `soid`, `zoid`, `hd`,
      `ht` and `kl` replace them where present, `so`/`zo` fill names that are
      still empty. */
  function QueryFields(f: Fields, q: seq<(string, string)>, decode: Decoder): (r: Result<Fields>)
    ensures r.Err? ==> r.message == UriMalformed
    ensures var from := QueryStation(q, "soid", f.fromStationId, f.fromStation, decode);
      var to := QueryStation(q, "zoid", f.toStationId, f.toStation, decode);
      (r.Ok? <==> from.Ok? && to.Ok?)
      && (r.Ok? ==> r.value.fromStationId == from.value.0 && r.value.toStationId == to.value.0)
      && (r.Ok? && (Truthy(from.value.1) || !Has(q, "so")) ==> r.value.fromStation == from.value.1)
      && (r.Ok? && !Truthy(from.value.1) && Has(q, "so") ==> r.value.fromStation == Get(q, "so"))
      && (r.Ok? && (Truthy(to.value.1) || !Has(q, "zo")) ==> r.value.toStation == to.value.1)
      && (r.Ok? && !Truthy(to.value.1) && Has(q, "zo") ==> r.value.toStation == Get(q, "zo"))
    ensures r.Ok? ==> (Has(q, "hd") ==> r.value.date == Get(q, "hd")) && (!Has(q, "hd") ==> r.value.date == f.date)
    ensures r.Ok? ==> (Has(q, "ht") ==> r.value.time == Get(q, "ht")) && (!Has(q, "ht") ==> r.value.time == f.time)
    ensures r.Ok? ==> ((Has(q, "kl") ==> r.value.travelClass == ParseInt(Get(q, "kl").value))
      && (!Has(q, "kl") ==> r.value.travelClass == f.travelClass))
  {
    var from := QueryStation(q, "soid", f.fromStationId, f.fromStation, decode);
    var to := QueryStation(q, "zoid", f.toStationId, f.toStation, decode);
    if from.Err? || to.Err? then Err(UriMalformed)
    else
      Ok(Fields(
        if Has(q, "so") && !Truthy(from.value.1) then Get(q, "so") else from.value.1,
        from.value.0,
        if Has(q, "zo") && !Truthy(to.value.1) then Get(q, "zo") else to.value.1,
        to.value.0,
        if Has(q, "hd") then Get(q, "hd") else f.date,
        if Has(q, "ht") then Get(q, "ht") else f.time,
        if Has(q, "kl") then ParseInt(Get(q, "kl").value) else f.travelClass))
  }

  /** A class of 1 or 2 stays, anything else (null, NaN, 0, 3...) becomes 2. */
  function Normalise(f: Fields): (r: Fields)
    ensures r.travelClass == Some(1) || r.travelClass == Some(2)
    ensures r.travelClass == Some(1) <==> f.travelClass == Some(1)
    ensures r == f.(travelClass := r.travelClass)
  {
    if f.travelClass == Some(1) || f.travelClass == Some(2) then f else f.(travelClass := Some(2))
  }

  /** The whole extraction, as a function of the link and the two oracles. */
  function Extract(url: string, parse: UrlParser, decode: Decoder): Extracted {
    match parse(url)
    case None => ExtractError(ExtractFailed, InvalidUrl)
    case Some(u) =>
      match HashFields(u.hash, decode)
      case Err(m) => ExtractError(ExtractFailed, m)
      case Ok(f) =>
        match QueryFields(f, u.query, decode)
        case Err(m) => ExtractError(ExtractFailed, m)
        case Ok(g) => Details(Normalise(g))
  }

  // ---------------------------------------------------------------------------
  // The imperative extraction

  /** The `soidMatch`/`zoidMatch` step of the fragment block: decode the
      capture, then read its id and name. */
  method ReadHashStation(hash: string, key: string, decode: Decoder) returns (r: Result<(Option<string>, Option<string>)>)
    ensures r == HashStation(hash, key, decode)
  {
    var m := Capture(hash, key, IsAmp);
    if m.None? {
      return Ok((None, None));
    }
    var value := decode(m.value);
    if value.None? {
      return Err(UriMalformed);
    }
    var id := StationId(value);
    var name := StationName(value, decode);
    if name.Err? {
      return Err(name.message);
    }
    return Ok((id, name.value));
  }

  /** The `dateMatch`/`timeMatch` step of the fragment block. */
  method ReadHashDateTime(hash: string, decode: Decoder) returns (r: Result<(Option<string>, Option<string>)>)
    ensures r == HashDateTime(hash, decode)
  {
    var date: Option<string> := None;
    var time: Option<string> := None;
    var dateMatch := Capture(hash, "hd=", IsAmp);
    var timeMatch := Capture(hash, "ht=", IsAmp);
    if dateMatch.Some? {
      var dateValue := decode(dateMatch.value);
      if dateValue.None? {
        return Err(UriMalformed);
      }
      if 'T' in dateValue.value {
        SplitAtSeparator(dateValue.value, 'T');
        var pieces := Split(dateValue.value, 'T');
        date := Some(pieces[0]);
        if pieces[1] != "" && !Truthy(time) {
          time := Some(RemoveFirst(pieces[1], ":00"));
        }
      } else {
        date := dateValue;
      }
    }
    assert (date, time) == (if dateMatch.Some? then DateAndTime(decode(dateMatch.value).value) else (None, None));
    if timeMatch.Some? && !Truthy(time) {
      var timeValue := decode(timeMatch.value);
      if timeValue.None? {
        return Err(UriMalformed);
      }
      time := timeValue;
    }
    return Ok((date, time));
  }

  /** A legacy `so`/`zo` step of the fragment block. */
  method ReadHashFallback(hash: string, key: string, name: Option<string>, decode: Decoder) returns (r: Result<Option<string>>)
    ensures r == HashFallback(hash, key, name, decode)
  {
    var m := Capture(hash, key, IsAmp);
    if m.Some? && !Truthy(name) {
      var v := decode(m.value);
      if v.None? {
        return Err(UriMalformed);
      }
      return Ok(v);
    }
    return Ok(name);
  }

  /** The `if (hash) { ... }` block of `extractJourneyDetails`. */
  method ReadHash(hash: string, decode: Decoder) returns (r: Result<Fields>)
    ensures r == HashFields(hash, decode)
  {
    var details := Blank;
    if hash == "" {
      return Ok(details);
    }
    var from := ReadHashStation(hash, "soid=", decode);
    if from.Err? {
      return Err(UriMalformed);
    }
    var to := ReadHashStation(hash, "zoid=", decode);
    if to.Err? {
      return Err(UriMalformed);
    }
    var dt := ReadHashDateTime(hash, decode);
    if dt.Err? {
      return Err(UriMalformed);
    }
    var classMatch := Capture(hash, "kl=", IsAmp);
    details := Fields(from.value.1, from.value.0, to.value.1, to.value.0, dt.value.0, dt.value.1,
                      if classMatch.Some? then ParseInt(classMatch.value) else None);
    var fromName := ReadHashFallback(hash, "so=", details.fromStation, decode);
    if fromName.Err? {
      return Err(UriMalformed);
    }
    var toName := ReadHashFallback(hash, "zo=", details.toStation, decode);
    if toName.Err? {
      return Err(UriMalformed);
    }
    details := details.(fromStation := fromName.value, toStation := toName.value);
    return Ok(details);
  }

  /** A `soid`/`zoid` step of the search-parameter block. */
  method ReadQueryStation(q: seq<(string, string)>, key: string, id: Option<string>, name: Option<string>, decode: Decoder)
    returns (r: Result<(Option<string>, Option<string>)>)
    ensures r == QueryStation(q, key, id, name, decode)
  {
    if !Has(q, key) {
      return Ok((id, name));
    }
    var value := Get(q, key);
    var newId := StationId(value);
    var newName := StationName(value, decode);
    if newName.Err? {
      return Err(newName.message);
    }
    return Ok((newId, newName.value));
  }

  /** The search-parameter block of `extractJourneyDetails`. */
  method ReadQuery(f: Fields, q: seq<(string, string)>, decode: Decoder) returns (r: Result<Fields>)
    ensures r == QueryFields(f, q, decode)
  {
    var details := f;
    var from := ReadQueryStation(q, "soid", details.fromStationId, details.fromStation, decode);
    if from.Err? {
      return Err(UriMalformed);
    }
    details := details.(fromStationId := from.value.0, fromStation := from.value.1);
    var to := ReadQueryStation(q, "zoid", details.toStationId, details.toStation, decode);
    if to.Err? {
      return Err(UriMalformed);
    }
    details := details.(toStationId := to.value.0, toStation := to.value.1);
    if Has(q, "hd") {
      details := details.(date := Get(q, "hd"));
    }
    if Has(q, "ht") {
      details := details.(time := Get(q, "ht"));
    }
    if Has(q, "kl") {
      details := details.(travelClass := ParseInt(Get(q, "kl").value));
    }
    if Has(q, "so") && !Truthy(details.fromStation) {
      details := details.(fromStation := Get(q, "so"));
    }
    if Has(q, "zo") && !Truthy(details.toStation) {
      details := details.(toStation := Get(q, "zo"));
    }
    return Ok(details);
  }

  /** `extractJourneyDetails` */
  method ExtractJourneyDetails(url: string, parse: UrlParser, decode: Decoder) returns (r: Extracted)
    ensures r == Extract(url, parse, decode)
  {
    var urlObj := parse(url);
    if urlObj.None? {
      return ExtractError(ExtractFailed, InvalidUrl);
    }
    var fromHash := ReadHash(urlObj.value.hash, decode);
    if fromHash.Err? {
      return ExtractError(ExtractFailed, fromHash.message);
    }
    var details := ReadQuery(fromHash.value, urlObj.value.query, decode);
    if details.Err? {
      return ExtractError(ExtractFailed, details.message);
    }
    var d := details.value;
    if d.travelClass.Some? && d.travelClass.value != 0 && (d.travelClass.value == 1 || d.travelClass.value == 2) {
    } else {
      d := d.(travelClass := Some(2));
    }
    return Details(d);
  }

  // ---------------------------------------------------------------------------
  // Properties

  /** The class of a successful extraction is 1 or 2, and 1 exactly when the
      last `kl` read (the query's if it has one, else the fragment's) parses
      to 1. */
  lemma ClassIsOneOrTwo(url: string, parse: UrlParser, decode: Decoder)
    requires Extract(url, parse, decode).Details?
    ensures var c := Extract(url, parse, decode).fields.travelClass;
      var u := parse(url).value;
      var hashClass := if u.hash != "" && Capture(u.hash, "kl=", IsAmp).Some? then ParseInt(Capture(u.hash, "kl=", IsAmp).value) else None;
      (c == Some(1) || c == Some(2))
      && (c == Some(1) <==> (if Has(u.query, "kl") then ParseInt(Get(u.query, "kl").value) else hashClass) == Some(1))
  {
  }

  /** A link `new URL` refuses gives the error record. */
  lemma UnparsableUrl(url: string, parse: UrlParser, decode: Decoder)
    requires parse(url).None?
    ensures Extract(url, parse, decode) == ExtractError(ExtractFailed, InvalidUrl)
  {
  }

  /** A decoder that never throws. */
  ghost predicate Total(decode: Decoder) {
    forall s :: decode(s).Some?
  }

  lemma StationNameTotal(v: Option<string>, decode: Decoder)
    requires Total(decode)
    ensures StationName(v, decode).Ok?
  {
    if Truthy(v) {
      var o := Capture(v.value, "@O=", IsAt);
      var raw := if o.Some? then o.value else BeforeFirst(v.value, "@L=");
      assert decode(raw).Some?;
    }
  }

  lemma HashValueTotal(hash: string, key: string, decode: Decoder)
    requires Total(decode)
    ensures HashValue(hash, key, decode).Ok?
  {
    var c := Capture(hash, key, IsAmp);
    if c.Some? {
      assert decode(c.value).Some?;
    }
  }

  lemma HashFieldsTotal(hash: string, decode: Decoder)
    requires Total(decode)
    ensures HashFields(hash, decode).Ok?
  {
    if hash != "" {
      HashValueTotal(hash, "soid=", decode);
      StationNameTotal(HashValue(hash, "soid=", decode).value, decode);
      HashValueTotal(hash, "zoid=", decode);
      StationNameTotal(HashValue(hash, "zoid=", decode).value, decode);
      HashValueTotal(hash, "hd=", decode);
      HashValueTotal(hash, "ht=", decode);
      HashValueTotal(hash, "so=", decode);
      HashValueTotal(hash, "zo=", decode);
      assert HashStation(hash, "soid=", decode).Ok?;
      assert HashStation(hash, "zoid=", decode).Ok?;
      assert HashDateTime(hash, decode).Ok?;
    }
  }

  lemma QueryFieldsTotal(f: Fields, q: seq<(string, string)>, decode: Decoder)
    requires Total(decode)
    ensures QueryFields(f, q, decode).Ok?
  {
    StationNameTotal(Get(q, "soid"), decode);
    StationNameTotal(Get(q, "zoid"), decode);
  }

  /** Without decoding errors, every link `new URL` accepts gives details. */
  lemma NoErrorWithoutDecodingErrors(url: string, parse: UrlParser, decode: Decoder)
    requires parse(url).Some?
    requires Total(decode)
    ensures Extract(url, parse, decode).Details?
  {
    var u := parse(url).value;
    HashFieldsTotal(u.hash, decode);
    QueryFieldsTotal(HashFields(u.hash, decode).value, u.query, decode);
  }

  /** The query's `soid`, `zoid`, `hd`, `ht` and `kl` win over the fragment:
      where the query has them, the fields do not depend on the fragment. */
  lemma QueryOverridesHash(url: string, parse: UrlParser, decode: Decoder)
    requires Extract(url, parse, decode).Details?
    ensures var f := Extract(url, parse, decode).fields;
      var q := parse(url).value.query;
      (Has(q, "soid") ==> f.fromStationId == StationId(Get(q, "soid")))
      && (Has(q, "zoid") ==> f.toStationId == StationId(Get(q, "zoid")))
      && (Has(q, "hd") ==> f.date == Get(q, "hd"))
      && (Has(q, "ht") ==> f.time == Get(q, "ht"))
      && (Has(q, "soid") && Truthy(StationName(Get(q, "soid"), decode).value) ==> f.fromStation == StationName(Get(q, "soid"), decode).value)
      && (Has(q, "zoid") && Truthy(StationName(Get(q, "zoid"), decode).value) ==> f.toStation == StationName(Get(q, "zoid"), decode).value)
      && (Has(q, "kl") ==> (f.travelClass == Some(1) <==> ParseInt(Get(q, "kl").value) == Some(1)))
  {
  }

  /** Without the query's keys, the fields are the fragment's. */
  lemma HashWithoutQuery(hash: string, decode: Decoder)
    requires HashFields(hash, decode).Ok?
    ensures QueryFields(HashFields(hash, decode).value, [], decode) == Ok(HashFields(hash, decode).value)
  {
  }

  /** The fragment's `hd`: its date is the text before the first `T`, and with
      a non-empty time after the `T` that time wins over `ht`. */
  lemma HashDate(hash: string, decode: Decoder)
    requires hash != "" && HashFields(hash, decode).Ok?
    requires Capture(hash, "hd=", IsAmp).Some?
    ensures var v := decode(Capture(hash, "hd=", IsAmp).value).value;
      var f := HashFields(hash, decode).value;
      f.date.Some? && 'T' !in f.date.value
      && ('T' in v ==> StartsWith(v, f.date.value + "T"))
      && ('T' !in v ==> f.date == Some(v))
      && (Truthy(DateAndTime(v).1) ==> f.time == DateAndTime(v).1)
      && (!Truthy(DateAndTime(v).1) && Capture(hash, "ht=", IsAmp).Some? ==>
            f.time == decode(Capture(hash, "ht=", IsAmp).value))
  {
  }

  /** The legacy `so` of the fragment names the origin only when `soid` gave
      no name. */
  lemma LegacyNameOnlyWhenMissing(hash: string, decode: Decoder)
    requires hash != "" && HashFields(hash, decode).Ok?
    ensures var soid := HashValue(hash, "soid=", decode).value;
      var name := StationName(soid, decode).value;
      var f := HashFields(hash, decode).value;
      (Truthy(name) ==> f.fromStation == name)
      && (!Truthy(name) && Capture(hash, "so=", IsAmp).Some? ==> f.fromStation == decode(Capture(hash, "so=", IsAmp).value))
  {
  }

  /** The query's `so` names the origin, and `zo` the destination, only when
      the name is still empty: a non-empty name decoded from `soid` is kept,
      while an empty one (or one missing from the fragment when `soid` is
      absent) gives way to `so`. */
  lemma QueryLegacyNameOnlyWhenMissing(f: Fields, q: seq<(string, string)>, decode: Decoder)
    requires QueryFields(f, q, decode).Ok?
    ensures var g := QueryFields(f, q, decode).value;
      (Has(q, "soid") ==>
        StationName(Get(q, "soid"), decode).Ok?
        && var n := StationName(Get(q, "soid"), decode).value;
        g.fromStation == if Has(q, "so") && !Truthy(n) then Get(q, "so") else n)
      && (!Has(q, "soid") ==>
        g.fromStation == if Has(q, "so") && !Truthy(f.fromStation) then Get(q, "so") else f.fromStation)
    ensures var g := QueryFields(f, q, decode).value;
      (Has(q, "zoid") ==>
        StationName(Get(q, "zoid"), decode).Ok?
        && var n := StationName(Get(q, "zoid"), decode).value;
        g.toStation == if Has(q, "zo") && !Truthy(n) then Get(q, "zo") else n)
      && (!Has(q, "zoid") ==>
        g.toStation == if Has(q, "zo") && !Truthy(f.toStation) then Get(q, "zo") else f.toStation)
  {
  }

  // ---------------------------------------------------------------------------
  // The route

  /** The answer of `POST`. */
  datatype ParseResponse =
    | MissingUrl                      // 400
    | Parsed(journeyDetails: Extracted) // success
    | ParseFailed(details: string)    // 500, with the error `ParseFailedMessage`

  const MissingUrlMessage := "Missing required parameter: url"
  const ParseFailedMessage := "Failed to parse URL"

  /** `POST`: `body` is the request's `url`, or the error reading the JSON
      body threw; `resolve` is the headless browser, `None` where it fails,
      in which case the link is read as given. */
  method Post(body: Result<Option<string>>, resolve: string -> Option<string>, parse: UrlParser, decode: Decoder)
    returns (r: ParseResponse)
    ensures body.Err? ==> r == ParseFailed(body.message)
    ensures body.Ok? && !Truthy(body.value) ==> r == MissingUrl
    ensures body.Ok? && Truthy(body.value) ==>
      var url := body.value.value;
      r == Parsed(Extract(if resolve(url).Some? then resolve(url).value else url, parse, decode))
  {
    if body.Err? {
      return ParseFailed(body.message);
    }
    var url := body.value;
    if !Truthy(url) {
      return MissingUrl;
    }
    var finalUrl := resolve(url.value);
    var target := if finalUrl.Some? then finalUrl.value else url.value;
    var details := ExtractJourneyDetails(target, parse, decode);
    return Parsed(details);
  }
}
