/** The search form: it finds a Deutsche Bahn booking link in the text the
    user pasted, checks that the link is a booking link, and hands it with
    the form's settings to the split-ticket page. `new URL` is a parameter;
    the router push is the query the form builds. */
module SearchForm {
  import opened Wrappers
  import opened Strings
  import opened Journeys
  import ParseUrl
  import DiscountPage

  /** `ERROR_MESSAGES` */
  const EmptyUrl := "Please enter text containing a DB booking URL or paste a direct DB booking link"
  const InvalidUrl := "No valid DB booking URL found. Please paste text containing a Deutsche Bahn booking link (from bahn.de with /buchung/start path) or check that your URL is correct."

  // ---------------------------------------------------------------------------
  // Booking links

  /** The parts of a `URL` object the form looks at. */
  datatype Location = Location(hostname: string, pathname: string, searchParams: seq<(string, string)>)

  /** `new URL(url)`: `None` where the constructor throws. */
  type LocationParser = string -> Option<Location>

  /** `requiredParams` and `commonParams` */
  const RequiredParams: seq<string> := ["vbid"]
  const CommonParams: seq<string> := ["ot", "rt", "dt", "so", "zo"]

  /** `params.some((param) => searchParams.has(param))` */
  predicate HasAny(q: seq<(string, string)>, params: seq<string>) {
    exists i :: 0 <= i < |params| && ParseUrl.Has(q, params[i])
  }

  /** `isValidDBBookingUrl` */
  predicate IsValidDBBookingUrl(url: string, parse: LocationParser) {
    match parse(url)
    case None => false
    case Some(u) =>
      if !Contains(u.hostname, "bahn.de") then false
      else if !Contains(u.pathname, "/buchung/start") then false
      else if !HasAny(u.searchParams, RequiredParams) then HasAny(u.searchParams, CommonParams)
      else true
  }

  /** Some of the listed parameters is present: `vbid` for the required
      list, one of `ot`, `rt`, `dt`, `so`, `zo` for the common one. */
  lemma HasAnyListed(q: seq<(string, string)>)
    ensures HasAny(q, RequiredParams) <==> ParseUrl.Has(q, "vbid")
    ensures HasAny(q, CommonParams) <==> (ParseUrl.Has(q, "ot") || ParseUrl.Has(q, "rt")
      || ParseUrl.Has(q, "dt") || ParseUrl.Has(q, "so") || ParseUrl.Has(q, "zo"))
  {
    assert RequiredParams[0] == "vbid";
    assert CommonParams[0] == "ot" && CommonParams[1] == "rt" && CommonParams[2] == "dt";
    assert CommonParams[3] == "so" && CommonParams[4] == "zo";
  }

  /** A valid link parses, is on a `bahn.de` host and has a `/buchung/start`
      path; such a link is valid exactly when it has `vbid` or one of the
      station and time parameters. So `vbid` makes it valid whatever else it
      holds, and a link without parameters is never valid. */
  lemma ValidityRule(url: string, parse: LocationParser)
    ensures IsValidDBBookingUrl(url, parse) ==> (parse(url).Some? && Contains(parse(url).value.hostname, "bahn.de")
      && Contains(parse(url).value.pathname, "/buchung/start"))
    ensures (parse(url).Some? && Contains(parse(url).value.hostname, "bahn.de")
      && Contains(parse(url).value.pathname, "/buchung/start")) ==>
      var q := parse(url).value.searchParams;
      (IsValidDBBookingUrl(url, parse) <==> (ParseUrl.Has(q, "vbid") || ParseUrl.Has(q, "ot") || ParseUrl.Has(q, "rt")
        || ParseUrl.Has(q, "dt") || ParseUrl.Has(q, "so") || ParseUrl.Has(q, "zo")))
    ensures parse(url).Some? && parse(url).value.searchParams == [] ==> !IsValidDBBookingUrl(url, parse)
  {
    if parse(url).Some? {
      HasAnyListed(parse(url).value.searchParams);
    }
  }

  // ---------------------------------------------------------------------------
  // Finding links in text

  /** c is the lower-case ASCII letter l or its upper-case form: how the `i`
      flag compares letters. */
  predicate Letter(c: char, l: char) {
    c == l || c as int == l as int - 32
  }

  predicate NotSpace(c: char) {
    !IsSpace(c)
  }

  /** The length of a match of `https?://` (ignoring case) at the start of s,
      0 where there is none. */
  function SchemeLength(s: string): (r: nat)
    ensures r == 0 || r == 7 || r == 8
    ensures r <= |s|
    ensures r > 0 ==> (Letter(s[0], 'h') && Letter(s[1], 't') && Letter(s[2], 't') && Letter(s[3], 'p')
      && s[r - 3] == ':' && s[r - 2] == '/' && s[r - 1] == '/')
  {
    if |s| >= 4 && Letter(s[0], 'h') && Letter(s[1], 't') && Letter(s[2], 't') && Letter(s[3], 'p') then
      if |s| >= 8 && Letter(s[4], 's') && s[5] == ':' && s[6] == '/' && s[7] == '/' then 8
      else if |s| >= 7 && s[4] == ':' && s[5] == '/' && s[6] == '/' then 7
      else 0
    else 0
  }

  /** The length of the match of `https?:\/\/[^\s\n\r]+` at the start of s:
      the scheme and the longest run of non-space characters after it, which
      must not be empty; 0 where there is no match. */
  function MatchLength(s: string): (r: nat)
    ensures r <= |s|
    ensures r > 0 ==> SchemeLength(s) > 0 && r > SchemeLength(s)
    ensures r > 0 ==> forall i :: SchemeLength(s) <= i < r ==> !IsSpace(s[i])
    ensures r > 0 && r < |s| ==> IsSpace(s[r])
  {
    var n := SchemeLength(s);
    if n == 0 then 0
    else
      var run := TakeWhile(s[n..], NotSpace);
      if run == [] then 0 else n + |run|
  }

  /** `text.match(urlRegex)` with the `g` flag: the matches from left to
      right, each search starting where the previous match ended. */
  function UrlMatches(s: string): seq<string>
    decreases |s|
  {
    if s == [] then []
    else
      var n := MatchLength(s);
      if n > 0 then [s[..n]] + UrlMatches(s[n..]) else UrlMatches(s[1..])
  }

  /** Every match is an `http://` or `https://` link without whitespace, with
      something after the scheme, cut out of the text. */
  lemma {:induction false} MatchShape(s: string)
    ensures forall m :: m in UrlMatches(s) ==>
      SchemeLength(m) > 0 && |m| > SchemeLength(m) && (forall i :: 0 <= i < |m| ==> !IsSpace(m[i]))
  {
    if s != [] {
      var n := MatchLength(s);
      if n > 0 {
        MatchShape(s[n..]);
        MatchPiece(s);
        assert UrlMatches(s) == [s[..n]] + UrlMatches(s[n..]);
      } else {
        MatchShape(s[1..]);
        assert UrlMatches(s) == UrlMatches(s[1..]);
      }
    }
  }

  /** The match at the start of s is a link without whitespace. */
  lemma MatchPiece(s: string)
    requires MatchLength(s) > 0
    ensures var m := s[..MatchLength(s)];
      SchemeLength(m) > 0 && |m| > SchemeLength(m) && (forall i :: 0 <= i < |m| ==> !IsSpace(m[i]))
  {
    var m := s[..MatchLength(s)];
    var n := SchemeLength(s);
    assert SchemeLength(m) == n;
    forall i | 0 <= i < |m|
      ensures !IsSpace(m[i])
    {
      assert m[i] == s[i];
      if i < n {
        SchemeNotSpace(s, i);
      }
    }
  }

  /** The characters of a scheme are letters, `:` and `/`, none of them space. */
  lemma SchemeNotSpace(s: string, i: nat)
    requires i < SchemeLength(s)
    ensures !IsSpace(s[i])
  {
    var c := s[i] as int;
    assert 0x2F <= c <= 0x3A || 0x41 <= c <= 0x7A;
  }

  /** What `replace(/[.,;!?\s]*$/, "")` removes: sentence punctuation and
      whitespace. */
  predicate Trailing(c: char) {
    c == '.' || c == ',' || c == ';' || c == '!' || c == '?' || IsSpace(c)
  }

  /** A match without its trailing punctuation: a prefix of it that keeps the
      scheme and does not end in punctuation. */
  function Strip(m: string): (r: string)
    ensures |r| <= |m| && r == m[..|r|]
    ensures r != [] ==> !Trailing(r[|r| - 1])
    ensures forall i :: |r| <= i < |m| ==> Trailing(m[i])
    ensures SchemeLength(m) > 0 ==> |r| >= SchemeLength(m)
  {
    var r := DropWhileEnd(m, Trailing);
    assert SchemeLength(m) > 0 ==> !Trailing(m[SchemeLength(m) - 1]);
    r
  }

  /** A check on a candidate link: `isValidDBBookingUrl` with the browser's
      URL parser, as `extractUrlFromText` receives it through `useCallback`. */
  type Check = string -> bool

  /** `isValidDBBookingUrl` as such a check. */
  function Valid(parse: LocationParser): Check {
    u => IsValidDBBookingUrl(u, parse)
  }

  /** The index of the first match that passes the check once stripped,
      searching from `from`. */
  function FirstValid(ms: seq<string>, valid: Check, from: nat): (r: Option<nat>)
    requires from <= |ms|
    decreases |ms| - from
    ensures r.Some? ==> from <= r.value < |ms| && valid(Strip(ms[r.value]))
    ensures r.Some? ==> forall j :: from <= j < r.value ==> !valid(Strip(ms[j]))
    ensures r.None? ==> forall j :: from <= j < |ms| ==> !valid(Strip(ms[j]))
  {
    if from == |ms| then None
    else if valid(Strip(ms[from])) then Some(from)
    else FirstValid(ms, valid, from + 1)
  }

  /** The choice `extractUrlFromText` makes between the matches and the
      trimmed text: the first match that passes the check once stripped, else
      the trimmed text when it starts with `http` and passes, else nothing.
      Whatever it returns passes the check; it returns nothing exactly when
      no candidate passes; the first passing match wins over later ones and
      over the text. */
  function Choose(ms: seq<string>, trimmed: string, valid: Check): (r: Option<string>)
    ensures r.Some? ==> valid(r.value)
    ensures r.None? <==> ((forall j :: 0 <= j < |ms| ==> !valid(Strip(ms[j])))
      && !(StartsWith(trimmed, "http") && valid(trimmed)))
    ensures forall k :: (0 <= k < |ms| && valid(Strip(ms[k]))
      && (forall j :: 0 <= j < k ==> !valid(Strip(ms[j])))) ==> r == Some(Strip(ms[k]))
    ensures r.Some? && (forall j :: 0 <= j < |ms| ==> !valid(Strip(ms[j]))) ==> r == Some(trimmed)
  {
    match FirstValid(ms, valid, 0)
    case Some(i) => Some(Strip(ms[i]))
    case None => if StartsWith(trimmed, "http") && valid(trimmed) then Some(trimmed) else None
  }

  /** `extractUrlFromText` as a function of the text. */
  function ExtractUrl(text: string, valid: Check): Option<string> {
    Choose(UrlMatches(text), Trim(text), valid)
  }

  /** u starts with `http`, ignoring case. */
  predicate HttpStart(u: string) {
    |u| >= 4 && Letter(u[0], 'h') && Letter(u[1], 't') && Letter(u[2], 't') && Letter(u[3], 'p')
  }

  /** A stripped match still starts with its scheme. */
  lemma StrippedMatchIsHttp(s: string, i: nat)
    requires i < |UrlMatches(s)|
    ensures HttpStart(Strip(UrlMatches(s)[i]))
  {
    MatchShape(s);
    var m := UrlMatches(s)[i];
    assert m in UrlMatches(s);
    var r := Strip(m);
    assert r[0] == m[0] && r[1] == m[1] && r[2] == m[2] && r[3] == m[3];
  }

  /** A link found in the text starts with `http`, ignoring case. */
  lemma ExtractedIsHttp(text: string, valid: Check)
    ensures ExtractUrl(text, valid).Some? ==> HttpStart(ExtractUrl(text, valid).value)
  {
    var ms := UrlMatches(text);
    forall i | 0 <= i < |ms|
      ensures HttpStart(Strip(ms[i]))
    {
      StrippedMatchIsHttp(text, i);
    }
    ChooseIsHttp(ms, Trim(text), valid);
  }

  lemma ChooseIsHttp(ms: seq<string>, trimmed: string, valid: Check)
    requires forall i :: 0 <= i < |ms| ==> HttpStart(Strip(ms[i]))
    ensures Choose(ms, trimmed, valid).Some? ==> HttpStart(Choose(ms, trimmed, valid).value)
  {
    if FirstValid(ms, valid, 0).None? && StartsWith(trimmed, "http") {
      assert trimmed[..4] == "http";
      assert trimmed[0] == 'h' && trimmed[1] == 't' && trimmed[2] == 't' && trimmed[3] == 'p';
    }
  }

  /** `extractUrlFromText`: the loop over the matches with its early return. */
  method ExtractUrlFromText(text: string, valid: Check) returns (r: Option<string>)
    ensures r == ExtractUrl(text, valid)
  {
    var matches := UrlMatches(text);
    if |matches| > 0 {
      var i := 0;
      while i < |matches|
        invariant 0 <= i <= |matches|
        invariant forall j :: 0 <= j < i ==> !valid(Strip(matches[j]))
      {
        var foundUrl := matches[i];
        foundUrl := Strip(foundUrl);
        if valid(foundUrl) {
          return Some(foundUrl);
        }
        i := i + 1;
      }
    }
    var trimmedText := Trim(text);
    if StartsWith(trimmedText, "http") && valid(trimmedText) {
      return Some(trimmedText);
    }
    return None;
  }

  // ---------------------------------------------------------------------------
  // Submitting

  /** The settings the form sends with the link. */
  datatype FormData = FormData(bahnCard: string, hasDeutschlandTicket: bool, passengerAge: string, travelClass: string)

  /** `INITIAL_FORM_STATE`, as far as it is sent. */
  const InitialForm := FormData("none", true, "", "2")

  /** `toString()` of a boolean. */
  function BoolText(b: bool): string {
    if b then "true" else "false"
  }

  /** What submitting does: an error shown under the field, or a move to the
      split-ticket page with this query. */
  datatype Submission = Rejected(error: string) | Navigate(query: seq<(string, string)>)

  /** The validation branches of `handleUrlSubmit` and the query it builds,
      given the trimmed input and the link `extractUrlFromText` found in it:
      blank input is rejected as empty, input without a link as invalid, and
      otherwise the form navigates with the link and its settings, which the
      split-ticket page reads back with `searchParams.get`. */
  function Submit(trimmed: string, extracted: Option<string>, form: FormData): (r: Submission)
    ensures trimmed == "" ==> r == Rejected(EmptyUrl)
    ensures trimmed != "" && extracted.None? ==> r == Rejected(InvalidUrl)
    ensures r.Navigate? <==> trimmed != "" && extracted.Some?
    ensures r.Navigate? ==>
      ParseUrl.Get(r.query, "url") == extracted
      && ParseUrl.Get(r.query, "bahnCard") == Some(form.bahnCard)
      && (ParseUrl.Get(r.query, "hasDeutschlandTicket") == Some("true") <==> form.hasDeutschlandTicket)
      && ParseUrl.Get(r.query, "passengerAge") == Some(form.passengerAge)
      && ParseUrl.Get(r.query, "travelClass") == Some(form.travelClass)
  {
    if trimmed == "" then Rejected(EmptyUrl)
    else
      match extracted
      case None => Rejected(InvalidUrl)
      case Some(u) =>
        QueryReadsBack(u, form);
        Navigate(SubmitQuery(u, form))
  }

  /** `new URLSearchParams({...})`, in the order of its keys. */
  function SubmitQuery(u: string, form: FormData): seq<(string, string)> {
    [("url", u), ("bahnCard", form.bahnCard), ("hasDeutschlandTicket", BoolText(form.hasDeutschlandTicket)),
     ("passengerAge", form.passengerAge), ("travelClass", form.travelClass)]
  }

  lemma QueryReadsBack(u: string, form: FormData)
    ensures var q := SubmitQuery(u, form);
      ParseUrl.Get(q, "url") == Some(u) && ParseUrl.Get(q, "bahnCard") == Some(form.bahnCard)
      && ParseUrl.Get(q, "hasDeutschlandTicket") == Some(BoolText(form.hasDeutschlandTicket))
      && ParseUrl.Get(q, "passengerAge") == Some(form.passengerAge)
      && ParseUrl.Get(q, "travelClass") == Some(form.travelClass)
  {
    var q := SubmitQuery(u, form);
    assert ParseUrl.Get(q[4..], "travelClass") == Some(form.travelClass);
    assert ParseUrl.Get(q[3..], "travelClass") == Some(form.travelClass);
    assert ParseUrl.Get(q[3..], "passengerAge") == Some(form.passengerAge);
    assert ParseUrl.Get(q[2..], "passengerAge") == Some(form.passengerAge);
    assert ParseUrl.Get(q[2..], "travelClass") == Some(form.travelClass);
    assert ParseUrl.Get(q[1..], "travelClass") == Some(form.travelClass);
    assert ParseUrl.Get(q[1..], "passengerAge") == Some(form.passengerAge);
    assert ParseUrl.Get(q[2..], "hasDeutschlandTicket") == Some(BoolText(form.hasDeutschlandTicket));
    assert ParseUrl.Get(q[1..], "hasDeutschlandTicket") == Some(BoolText(form.hasDeutschlandTicket));
  }

  /** `handleUrlSubmit`; `valid` is the check `extractUrlFromText` uses. */
  function HandleUrlSubmit(url: string, form: FormData, valid: Check): Submission {
    Submit(Trim(url), ExtractUrl(url, valid), form)
  }

  /** Whatever the form navigates with gets the split-ticket page past its
      missing-link check with a valid booking link, and the page reads the
      form's ticket and BahnCard settings back. */
  lemma SubmitFeedsDiscountPage(url: string, form: FormData, parse: LocationParser, ex: ParseUrl.Extracted)
    requires HandleUrlSubmit(url, form, Valid(parse)).Navigate?
    ensures var q := HandleUrlSubmit(url, form, Valid(parse)).query;
      Truthy(ParseUrl.Get(q, "url"))
      && IsValidDBBookingUrl(ParseUrl.Get(q, "url").value, parse)
      && DiscountPage.JourneyDataFrom(ex, q).hasDeutschlandTicket == form.hasDeutschlandTicket
      && DiscountPage.JourneyDataFrom(ex, q).bahnCard == Some(Or(Some(form.bahnCard), "none"))
  {
    var e := ExtractUrl(url, Valid(parse));
    assert e.Some? && Valid(parse)(e.value);
    ExtractedIsHttp(url, Valid(parse));
  }
}
