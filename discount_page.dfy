/** The split-ticket page: it reads the booking link from its own query,
    has the link parsed, searches for the journey, and then reads the
    analysis as an event stream, line by line, updating what the page shows.
    The network answers (`fetch`, the stream's chunks, `JSON.parse`) are
    parameters; React's state setters are the fields of `Discount`. */
module DiscountPage {
  import opened Wrappers
  import opened Strings
  import opened Journeys
  import JourneyUtils
  import ParseUrl
  import SplitJourney

  /** `STATUS` */
  datatype Status = Loading | Selecting | Analyzing | Done | Error

  /** `LOADING_MESSAGES` */
  const ParsingMessage := "Wir analysieren die URL..."
  const SearchingMessage := "Wir suchen nach deiner Verbindung..."
  const AnalyzingMessage := "Analysiere Split-Ticket Optionen..."
  const SingleJourneyMessage := "Wir haben eine Verbindung gefunden und suchen nach Split-Ticket Optionen..."
  const InitialMessage := "Wir extrahieren deine Reisedaten..."

  const AnalysisFailed := "Failed to analyze split options"
  const AnalysisFallback := "Fehler bei der Analyse der Split-Optionen."
  const NoUrlMessage := "No URL provided for parsing."
  const IncompleteMessage := "Unvollständige Reisedaten nach der URL-Analyse"
  const NoJourneyData := "Reisedaten nicht gefunden, um Split-Analyse zu starten."
  const DoneMessage := "Analyse abgeschlossen"

  // ---------------------------------------------------------------------------
  // Display helpers

  /** What `formatDuration` shows: nothing without legs, `NaNh NaNm` when a
      time is missing, else hours and minutes. */
  datatype DurationLabel = NoDuration | NaNDuration | Duration(hours: int, minutes: int)

  /** `a % b` in JavaScript: the remainder takes the sign of a. */
  function JsRem(a: int, b: int): (r: int)
    requires b > 0
    ensures a >= 0 ==> r == a % b
    ensures a < 0 ==> -b < r <= 0 && r == -((-a) % b)
  {
    if a >= 0 then a % b else -((-a) % b)
  }

  /** `formatDuration`: the span from the first departure to the last arrival,
      hours and minutes each rounded down (`Math.floor`). */
  function FormatDuration(j: Journey): (r: DurationLabel)
    ensures r.NoDuration? <==> j.legs == []
    ensures r.NaNDuration? <==> j.legs != [] && (j.legs[0].departure.None? || j.legs[|j.legs| - 1].arrival.None?)
    ensures r.Duration? ==>
      var d := j.legs[|j.legs| - 1].arrival.value - j.legs[0].departure.value;
      r.hours * 3600000 <= d < (r.hours + 1) * 3600000
      && -60 <= r.minutes < 60
      && r.minutes * 60000 <= JsRem(d, 3600000) < (r.minutes + 1) * 60000
      && (d >= 0 ==> 0 <= r.minutes && r.hours * 3600000 + r.minutes * 60000 <= d < r.hours * 3600000 + (r.minutes + 1) * 60000)
  {
    if j.legs == [] then NoDuration
    else
      var dep := j.legs[0].departure;
      var arr := j.legs[|j.legs| - 1].arrival;
      if dep.None? || arr.None? then NaNDuration
      else
        var d := arr.value - dep.value;
        Duration(d / 3600000, JsRem(d, 3600000) / 60000)
  }

  /** `getChangesCount`: one change fewer than legs, never negative. */
  function GetChangesCount(j: Option<Journey>): (r: nat)
    ensures j.None? || j.value.legs == [] ==> r == 0
    ensures j.Some? && j.value.legs != [] ==> r + 1 == |j.value.legs|
  {
    if j.None? || |j.value.legs| == 0 then 0 else |j.value.legs| - 1
  }

  /** `isLoading` */
  predicate LoadingStatus(s: Status) {
    s == Status.Loading || s == Analyzing
  }

  // ---------------------------------------------------------------------------
  // The page's state

  /** The progress shown under the message. */
  datatype ProgressInfo = ProgressInfo(checked: int, total: int, currentStation: Option<string>)

  /** Everything the page keeps with `useState`. */
  datatype Page = Page(
    status: Status,
    journeys: seq<Journey>,
    extractedData: Option<JourneyUtils.JourneyData>,
    error: string,
    selectedJourney: Option<Journey>,
    splitOptions: Option<seq<SplitJourney.SplitResult>>,
    loadingMessage: Option<string>,
    progressInfo: Option<ProgressInfo>)

  /** The initial `useState` values. */
  const Initial := Page(Status.Loading, [], None, "", None, None, Some(InitialMessage), None)

  /** The journey choice and the journey data agree between two states. */
  predicate SameRecord(a: Page, b: Page) {
    a.journeys == b.journeys && a.extractedData == b.extractedData && a.selectedJourney == b.selectedJourney
  }

  /** The page holds journey data with both station ids. */
  predicate HasValidData(p: Page) {
    p.extractedData.Some? && JourneyUtils.ValidateJourneyData(p.extractedData.value)
  }

  /** A `throw` inside a `try` whose `catch` shows the error:
      `setError(err.message); setStatus(STATUS.ERROR)`. */
  function Thrown(p: Page, message: string): (r: Page)
    ensures r.status == Error && r.error == message
    ensures r == p.(status := r.status, error := r.error)
  {
    p.(error := message, status := Error)
  }

  // ---------------------------------------------------------------------------
  // The event stream

  /** The parsed payload of a `data: ` line, by its `type`. */
  datatype SseData =
    | ProgressData(checked: int, total: int, currentStation: Option<string>, message: Option<string>)
    | CompleteData(splitOptions: Option<seq<SplitJourney.SplitResult>>)
    | ErrorData(error: Option<string>)
    | OtherData

  /** `JSON.parse`: `None` where it throws. */
  type EventParser = string -> Option<SseData>

  const DataPrefix := "data: "

  /** The complete lines of a text: every piece of `split("\n")` but the last. */
  function Lines(text: string): seq<string> {
    var p := Split(text, '\n');
    p[..|p| - 1]
  }

  /** What `lines.pop()` keeps in the buffer: the piece after the last newline. */
  function Rest(text: string): string {
    var p := Split(text, '\n');
    p[|p| - 1]
  }

  /** A line announces the end of the analysis. */
  predicate IsComplete(line: string, parse: EventParser) {
    StartsWith(line, DataPrefix) && parse(line[6..]).Some? && parse(line[6..]).value.CompleteData?
  }

  /** The options a `complete` line carries: `data.splitOptions || []`. */
  function CompleteOptions(line: string, parse: EventParser): (r: seq<SplitJourney.SplitResult>)
    requires IsComplete(line, parse)
    ensures var o := parse(line[6..]).value.splitOptions;
      (o.Some? ==> r == o.value) && (o.None? ==> r == [])
  {
    var o := parse(line[6..]).value.splitOptions;
    if o.Some? then o.value else []
  }

  /** The options of the last `complete` line of a run, if any. */
  function LastOptions(lines: seq<string>, parse: EventParser): (r: Option<seq<SplitJourney.SplitResult>>)
    ensures r.Some? <==> exists i :: 0 <= i < |lines| && IsComplete(lines[i], parse)
    ensures r.Some? ==>
      exists i :: 0 <= i < |lines| && IsComplete(lines[i], parse)
        && r.value == CompleteOptions(lines[i], parse)
        && forall j :: i < j < |lines| ==> !IsComplete(lines[j], parse)
  {
    if lines == [] then None
    else
      var init := lines[..|lines| - 1];
      assert forall i :: 0 <= i < |init| ==> init[i] == lines[i];
      if IsComplete(lines[|lines| - 1], parse) then Some(CompleteOptions(lines[|lines| - 1], parse))
      else LastOptions(init, parse)
  }

  /** What one line of the stream does to the page. Lines that do not start
      with `data: `, payloads that do not parse, `error` events (whose throw
      the per-line `catch` swallows) and unknown types leave it as it was;
      only the status, the message, the progress and the options can change. */
  function Dispatch(v: Page, line: string, parse: EventParser): (r: Page)
    ensures r == v.(status := r.status, loadingMessage := r.loadingMessage,
                    progressInfo := r.progressInfo, splitOptions := r.splitOptions)
    ensures r != v ==> (StartsWith(line, DataPrefix) && parse(line[6..]).Some?
      && (parse(line[6..]).value.ProgressData? || parse(line[6..]).value.CompleteData?))
    ensures r.status != v.status ==> r.status == Done && IsComplete(line, parse)
    ensures IsComplete(line, parse) ==> r.status == Done && r.progressInfo.None? && r.splitOptions.Some?
    ensures v.splitOptions.Some? ==> r.splitOptions.Some?
    ensures StartsWith(line, DataPrefix) && parse(line[6..]).Some? && parse(line[6..]).value.ProgressData? ==>
      var d := parse(line[6..]).value;
      r.progressInfo == Some(ProgressInfo(d.checked, d.total, d.currentStation))
      && r.loadingMessage == d.message && r.splitOptions == v.splitOptions && r.status == v.status
    ensures IsComplete(line, parse) ==> r.splitOptions == Some(CompleteOptions(line, parse))
    ensures !IsComplete(line, parse) ==> r.splitOptions == v.splitOptions
  {
    if !StartsWith(line, DataPrefix) then v
    else
      match parse(line[6..])
      case None => v
      case Some(data) =>
        match data
        case ProgressData(checked, total, station, message) =>
          v.(progressInfo := Some(ProgressInfo(checked, total, station)), loadingMessage := message)
        case CompleteData(options) =>
          v.(splitOptions := Some(if options.Some? then options.value else []), status := Done, progressInfo := None)
        case ErrorData(_) => v
        case OtherData => v
  }

  /** The lines processed in order: the error and the journey record stay,
      and the status either stays or becomes `DONE`. */
  function DispatchAll(v: Page, lines: seq<string>, parse: EventParser): (r: Page)
    ensures SameRecord(r, v) && r.error == v.error
    ensures r.status == v.status || r.status == Done
  {
    if lines == [] then v else Dispatch(DispatchAll(v, lines[..|lines| - 1], parse), lines[|lines| - 1], parse)
  }

  /** Processing two runs of lines is processing their concatenation. */
  lemma {:induction false} DispatchAllAppend(v: Page, a: seq<string>, b: seq<string>, parse: EventParser)
    ensures DispatchAll(v, a + b, parse) == DispatchAll(DispatchAll(v, a, parse), b, parse)
  {
    if b != [] {
      DispatchAllAppend(v, a, b[..|b| - 1], parse);
      assert (a + b)[..|a + b| - 1] == a + b[..|b| - 1];
    } else {
      assert a + b == a;
    }
  }

  /** Appending a chunk to the text: the complete lines are the old ones
      followed by those of the old buffer plus the chunk, and the buffer is
      what the old buffer plus the chunk leaves over. So reading the stream
      chunk by chunk reads the same lines as reading it whole. */
  lemma StreamStep(t: string, c: string)
    ensures Lines(t + c) == Lines(t) + Lines(Rest(t) + c)
    ensures Rest(t + c) == Rest(Rest(t) + c)
  {
    SplitAppend(t, c, '\n');
    var p := Split(t, '\n');
    var q := Split(Rest(t) + c, '\n');
    assert (p[..|p| - 1] + q)[..|p| - 1 + |q| - 1] == p[..|p| - 1] + q[..|q| - 1];
  }

  /** One more chunk read: the lines of the buffer plus the chunk continue
      the lines read so far, and leave the buffer of the longer text. */
  lemma ChunkStep(v: Page, chunks: seq<string>, k: nat, parse: EventParser)
    requires k < |chunks|
    ensures var before := Concat(chunks[..k]);
      Rest(Rest(before) + chunks[k]) == Rest(Concat(chunks[..k + 1]))
      && DispatchAll(DispatchAll(v, Lines(before), parse), Lines(Rest(before) + chunks[k]), parse)
         == DispatchAll(v, Lines(Concat(chunks[..k + 1])), parse)
  {
    var before := Concat(chunks[..k]);
    assert chunks[..k + 1][..k] == chunks[..k];
    assert Concat(chunks[..k + 1]) == before + chunks[k];
    StreamStep(before, chunks[k]);
    DispatchAllAppend(v, Lines(before), Lines(Rest(before) + chunks[k]), parse);
  }

  /** The buffer is the text after the last newline: a tail of the text with
      no newline in it, preceded by a newline unless it is the whole text. */
  lemma RestIsTail(text: string)
    ensures var r := Rest(text);
      EndsWith(text, r) && (forall i :: 0 <= i < |r| ==> r[i] != '\n')
      && (Lines(text) == [] ==> r == text)
      && (Lines(text) != [] ==> |r| < |text| && text[|text| - |r| - 1] == '\n')
  {
    var p := Split(text, '\n');
    var r := p[|p| - 1];
    assert r == Rest(text);
    JoinSplit(text, '\n');
    assert forall i :: 0 <= i < |r| ==> r[i] != '\n';
    if |p| == 1 {
      assert Lines(text) == [];
      assert Join(p, "\n") == r;
    } else {
      assert Lines(text) != [];
      JoinLast(p, "\n");
      TailAfter(text, Join(p[..|p| - 1], "\n"), '\n', r);
    }
  }

  /** The text after a character is a tail of the text, preceded by it. */
  lemma TailAfter(text: string, front: string, c: char, r: string)
    requires text == front + [c] + r
    ensures EndsWith(text, r) && |r| < |text| && text[|text| - |r| - 1] == c
  {
    assert text[|front|] == c;
    assert text[|front| + 1..] == r;
  }

  /** Joining with a separator puts the separator before the last piece. */
  lemma {:induction false} JoinLast(parts: seq<string>, sep: string)
    requires |parts| >= 2
    ensures Join(parts, sep) == Join(parts[..|parts| - 1], sep) + sep + parts[|parts| - 1]
  {
    if |parts| > 2 {
      JoinLast(parts[1..], sep);
      assert parts[1..][..|parts| - 2] == parts[..|parts| - 1][1..];
    }
  }

  /** The complete lines and the buffer, joined with newlines, are the text:
      nothing is lost and nothing is added. */
  lemma LinesAndRest(text: string)
    ensures Join(Lines(text) + [Rest(text)], "\n") == text
    ensures forall k, i :: 0 <= k < |Lines(text)| && 0 <= i < |Lines(text)[k]| ==> Lines(text)[k][i] != '\n'
  {
    var p := Split(text, '\n');
    assert Lines(text) + [Rest(text)] == p;
    JoinSplit(text, '\n');
    forall k, i | 0 <= k < |Lines(text)| && 0 <= i < |Lines(text)[k]|
      ensures Lines(text)[k][i] != '\n'
    {
      assert Lines(text)[k] == p[k];
    }
  }

  /** A stream ends in `DONE` exactly when one of its complete lines is a
      `complete` event, and then it holds split options; otherwise the
      status stays as it was. */
  lemma {:induction false} StreamStatus(v: Page, lines: seq<string>, parse: EventParser)
    ensures DispatchAll(v, lines, parse).status ==
      if exists i :: 0 <= i < |lines| && IsComplete(lines[i], parse) then Done else v.status
    ensures (exists i :: 0 <= i < |lines| && IsComplete(lines[i], parse)) ==> DispatchAll(v, lines, parse).splitOptions.Some?
    ensures DispatchAll(v, lines, parse).splitOptions ==
      if LastOptions(lines, parse).Some? then LastOptions(lines, parse) else v.splitOptions
  {
    if lines != [] {
      var init := lines[..|lines| - 1];
      StreamStatus(v, init, parse);
      assert forall i :: 0 <= i < |init| ==> init[i] == lines[i];
      if IsComplete(lines[|lines| - 1], parse) {
        assert IsComplete(lines[|lines| - 1], parse);
      } else if exists i :: 0 <= i < |lines| && IsComplete(lines[i], parse) {
        var i :| 0 <= i < |lines| && IsComplete(lines[i], parse);
        assert IsComplete(init[i], parse);
      }
    }
  }

  // ---------------------------------------------------------------------------
  // The analysis

  /** What the stream's reader may meet. */
  datatype AnalysisResponse =
    | NetworkError(message: string)                       // `fetch` throws
    | NotOk                                               // `!response.ok`
    | Body(chunks: seq<string>, failure: Option<string>)  // the decoded chunks; a failing `read()` after them

  /** The outer `catch` of `analyzeSplitOptions`. */
  function Failed(v: Page, message: string): (r: Page)
    ensures r.status == Error && r.progressInfo.None? && r.error != ""
    ensures r.error == (if message != "" then message else AnalysisFallback)
    ensures r == v.(status := r.status, error := r.error, progressInfo := r.progressInfo)
  {
    v.(error := if message != "" then message else AnalysisFallback, status := Error, progressInfo := None)
  }

  /** `analyzeSplitOptions` as a function of the page and the answer: the
      journey record is kept; the page ends in error exactly when the request
      or the stream failed, and otherwise analysing or done. */
  function Analysis(v: Page, resp: AnalysisResponse, parse: EventParser): (r: Page)
    ensures SameRecord(r, v)
    ensures r.status == Error <==> !(resp.Body? && resp.failure.None?)
    ensures r.status == Analyzing || r.status == Done || r.status == Error
  {
    var started := v.(status := Analyzing, loadingMessage := Some(AnalyzingMessage), progressInfo := None);
    match resp
    case NetworkError(m) => Failed(started, m)
    case NotOk => Failed(started, AnalysisFailed)
    case Body(chunks, failure) =>
      var after := DispatchAll(started, Lines(Concat(chunks)), parse);
      if failure.Some? then Failed(after, failure.value) else after
  }

  /** A stream without a failure ends `DONE`, with split options, exactly
      when one of its lines is a `complete` event; otherwise the page stays
      analysing, with its spinner on. */
  lemma StreamOutcome(v: Page, chunks: seq<string>, parse: EventParser)
    ensures var r := Analysis(v, Body(chunks, None), parse);
      var lines := Lines(Concat(chunks));
      if exists i :: 0 <= i < |lines| && IsComplete(lines[i], parse)
      then r.status == Done && r.splitOptions.Some? && !LoadingStatus(r.status)
        && r.splitOptions == LastOptions(lines, parse)
      else r.status == Analyzing && LoadingStatus(r.status) && r.splitOptions == v.splitOptions
  {
    var started := v.(status := Analyzing, loadingMessage := Some(AnalyzingMessage), progressInfo := None);
    StreamStatus(started, Lines(Concat(chunks)), parse);
  }

  /** The request body `analyzeSplitOptions` sends. */
  function AnalysisRequest(journey: Journey, d: JourneyUtils.JourneyData): (r: SplitJourney.SplitRequest)
    ensures r.originalJourney == Some(journey) && r.useStreaming
    ensures r.hasDeutschlandTicket == d.hasDeutschlandTicket
    ensures r.bahnCard.Some? && r.bahnCard.value != "" && r.travelClass.Some? && r.travelClass.value != ""
    ensures Truthy(d.bahnCard) ==> r.bahnCard == d.bahnCard
    ensures !Truthy(d.bahnCard) ==> r.bahnCard == Some("none")
    ensures Truthy(d.travelClass) ==> r.travelClass == d.travelClass
    ensures !Truthy(d.travelClass) ==> r.travelClass == Some("2")
    ensures (d.passengerAge.None? || Trim(d.passengerAge.value) == "") ==> r.passengerAge.None?
    ensures r.passengerAge.Some? ==> ParseInt(Trim(d.passengerAge.value)) == r.passengerAge
    ensures d.passengerAge.Some? && Trim(d.passengerAge.value) != "" ==> r.passengerAge == ParseInt(Trim(d.passengerAge.value))
  {
    var age := if d.passengerAge.Some? && Trim(d.passengerAge.value) != "" then ParseInt(Trim(d.passengerAge.value)) else None;
    SplitJourney.SplitRequest(Some(journey), Some(Or(d.bahnCard, "none")), d.hasDeutschlandTicket, age,
      Some(Or(d.travelClass, "2")), true)
  }

  // ---------------------------------------------------------------------------
  // Before the analysis

  /** `journeyDetails.class?.toString()`: absent for a missing class. */
  function ClassText(c: Option<int>): (r: Option<string>)
    ensures c.Some? ==> r.Some? && r.value != "" && ParseInt(r.value) == c
    ensures c.None? ==> r.None?
  {
    if c.Some? then IntTextParses(c.value); Some(IntText(c.value)) else None
  }

  /** The journey data the page builds from the parsed link and its own query.
      An error record has none of the journey fields. */
  function JourneyDataFrom(ex: ParseUrl.Extracted, query: seq<(string, string)>): (r: JourneyUtils.JourneyData)
    ensures ex.ExtractError? ==> r.fromStationId.None? && r.toStationId.None?
    ensures ex.Details? ==> (r.fromStationId == ex.fields.fromStationId && r.toStationId == ex.fields.toStationId
      && r.date == ex.fields.date && r.time == ex.fields.time)
    ensures r.bahnCard.Some? && r.bahnCard.value != "" && r.travelClass.Some? && r.travelClass.value != ""
    ensures var b := ParseUrl.Get(query, "bahnCard");
      r.bahnCard == if Truthy(b) then b else Some("none")
    ensures var a := ParseUrl.Get(query, "passengerAge");
      r.passengerAge == if Truthy(a) then a else Some("")
    ensures ex.Details? && ex.fields.travelClass.Some? ==> r.travelClass == ClassText(ex.fields.travelClass)
    ensures (ex.ExtractError? || ex.fields.travelClass.None?) ==>
      var c := ParseUrl.Get(query, "travelClass");
      r.travelClass == if Truthy(c) then c else Some("2")
    ensures r.hasDeutschlandTicket <==> ParseUrl.Get(query, "hasDeutschlandTicket") == Some("true")
  {
    var f := if ex.Details? then ex.fields else ParseUrl.Blank;
    var classText := ClassText(f.travelClass);
    JourneyUtils.JourneyData(
      f.fromStationId,
      f.toStationId,
      f.date,
      f.time,
      Some(Or(ParseUrl.Get(query, "bahnCard"), "none")),
      ParseUrl.Get(query, "hasDeutschlandTicket") == Some("true"),
      Some(Or(ParseUrl.Get(query, "passengerAge"), "")),
      Some(Or(classText, Or(ParseUrl.Get(query, "travelClass"), "2"))))
  }

  /** `handleJourneySelect`: the chosen journey is analysed with the stored
      journey data, or the page reports that there is none. */
  function Select(p: Page, journey: Journey, analyse: SplitJourney.SplitRequest -> AnalysisResponse,
                  parse: EventParser): (r: Page)
    ensures r.selectedJourney == Some(journey) && r.journeys == p.journeys && r.extractedData == p.extractedData
    ensures p.extractedData.None? ==> r.status == Error && r.error == NoJourneyData && r.splitOptions.None?
    ensures p.extractedData.Some? ==>
      var resp := analyse(AnalysisRequest(journey, p.extractedData.value));
      (r.status == Error <==> !(resp.Body? && resp.failure.None?))
  {
    var chosen := p.(selectedJourney := Some(journey), splitOptions := None);
    if p.extractedData.Some? then Analysis(chosen, analyse(AnalysisRequest(journey, p.extractedData.value)), parse)
    else Thrown(chosen, NoJourneyData)
  }

  /** The branch of `initializeFlow` on the journeys found: one is analysed at
      once, several are offered for selection, none ends the flow. */
  function Branch(p: Page, found: seq<Journey>, d: JourneyUtils.JourneyData,
                  analyse: SplitJourney.SplitRequest -> AnalysisResponse, parse: EventParser): (r: Page)
    ensures r.extractedData == p.extractedData
    ensures r.status == Selecting <==> |found| > 1
    ensures |found| > 1 ==> r.journeys == found && r.selectedJourney == p.selectedJourney
    ensures |found| == 0 ==> r.status == Done && r.journeys == [] && r.selectedJourney == p.selectedJourney
    ensures |found| == 1 ==> r.selectedJourney == Some(found[0]) && r.journeys == p.journeys
  {
    if |found| == 1 then
      Analysis(p.(loadingMessage := Some(SingleJourneyMessage), selectedJourney := Some(found[0])),
               analyse(AnalysisRequest(found[0], d)), parse)
    else if |found| > 1 then p.(journeys := found, status := Selecting)
    else p.(journeys := [], status := Done)
  }

  /** `searchForJourneys(journeyData)`: the journeys found, or the error it
      threw. The query it sends is `JourneyUtils.PrepareSearch` of the data;
      the request and the answer are the network's. */
  type SearchOracle = JourneyUtils.JourneyData -> Result<seq<Journey>>

  /** `initializeFlow` once the link is parsed. */
  function AfterParse(p: Page, ex: ParseUrl.Extracted, query: seq<(string, string)>,
                      search: SearchOracle,
                      analyse: SplitJourney.SplitRequest -> AnalysisResponse, parse: EventParser): Page
  {
    var d := JourneyDataFrom(ex, query);
    var stored := p.(extractedData := Some(d));
    if !JourneyUtils.ValidateJourneyData(d) then Thrown(stored, IncompleteMessage)
    else
      var searching := stored.(loadingMessage := Some(SearchingMessage));
      match search(d)
      case Err(m) => Thrown(searching, m)
      case Ok(found) => Branch(searching, found, d, analyse, parse)
  }

  /** `initializeFlow` as a function of the page. `query` is the page's own
      query string; `parseUrl` is the parse route's answer, or the error
      `fetch` or `json()` threw. */
  function Flow(p: Page, query: seq<(string, string)>, parseUrl: string -> Result<ParseUrl.ParseResponse>,
                search: SearchOracle,
                analyse: SplitJourney.SplitRequest -> AnalysisResponse, parse: EventParser): Page
  {
    var url := ParseUrl.Get(query, "url");
    if !Truthy(url) then Thrown(p, NoUrlMessage)
    else
      var parsing := p.(loadingMessage := Some(ParsingMessage));
      match parseUrl(url.value)
      case Err(m) => Thrown(parsing, m)
      case Ok(resp) =>
        match resp
        case MissingUrl => Thrown(parsing, ParseUrl.MissingUrlMessage)
        case ParseFailed(_) => Thrown(parsing, ParseUrl.ParseFailedMessage)
        case Parsed(ex) => AfterParse(parsing, ex, query, search, analyse, parse)
  }

  /** Whatever happens, the flow leaves the initial loading status; it offers
      a selection only of several journeys, and it touches the journey list
      or the selected journey only after journey data with both stations was
      stored. Without a link it only reports that. */
  lemma FlowOutcome(p: Page, query: seq<(string, string)>, parseUrl: string -> Result<ParseUrl.ParseResponse>,
                    search: SearchOracle,
                    analyse: SplitJourney.SplitRequest -> AnalysisResponse, parse: EventParser)
    ensures var r := Flow(p, query, parseUrl, search, analyse, parse);
      r.status != Status.Loading
      && (r.status == Selecting ==> |r.journeys| > 1 && HasValidData(r))
      && (r.journeys != p.journeys || r.selectedJourney != p.selectedJourney ==> HasValidData(r))
      && (!Truthy(ParseUrl.Get(query, "url")) ==> r == p.(error := NoUrlMessage, status := Error))
  {
    var url := ParseUrl.Get(query, "url");
    if Truthy(url) {
      var parsing := p.(loadingMessage := Some(ParsingMessage));
      var answer := parseUrl(url.value);
      if answer.Ok? && answer.value.Parsed? {
        AfterParseOutcome(parsing, answer.value.journeyDetails, query, search, analyse, parse);
        assert Flow(p, query, parseUrl, search, analyse, parse)
          == AfterParse(parsing, answer.value.journeyDetails, query, search, analyse, parse);
      }
    }
  }

  /** Once the link is parsed, the flow ends in another status than loading,
      offers a selection only of several journeys, and touches the journeys
      only after storing valid journey data. */
  lemma AfterParseOutcome(p: Page, ex: ParseUrl.Extracted, query: seq<(string, string)>,
                          search: SearchOracle,
                          analyse: SplitJourney.SplitRequest -> AnalysisResponse, parse: EventParser)
    ensures var r := AfterParse(p, ex, query, search, analyse, parse);
      r.status != Status.Loading
      && (r.status == Selecting ==> |r.journeys| > 1 && HasValidData(r))
      && (r.journeys != p.journeys || r.selectedJourney != p.selectedJourney ==> HasValidData(r))
  {
    var d := JourneyDataFrom(ex, query);
    if JourneyUtils.ValidateJourneyData(d) {
      var searching := p.(extractedData := Some(d), loadingMessage := Some(SearchingMessage));
      assert HasValidData(searching);
      var found := search(d);
      if found.Ok? {
        var r := Branch(searching, found.value, d, analyse, parse);
        assert AfterParse(p, ex, query, search, analyse, parse) == r;
        assert r.extractedData == searching.extractedData;
      }
    }
  }

  /** A link the parser could only answer with an error record never reaches
      the search: its journey data has no stations, and the page reports
      incomplete data with the journey record otherwise untouched. */
  lemma ErrorRecordStops(p: Page, query: seq<(string, string)>, parseUrl: string -> Result<ParseUrl.ParseResponse>,
                         search: SearchOracle,
                         analyse: SplitJourney.SplitRequest -> AnalysisResponse, parse: EventParser)
    requires Truthy(ParseUrl.Get(query, "url"))
    requires parseUrl(ParseUrl.Get(query, "url").value).Ok?
    requires var resp := parseUrl(ParseUrl.Get(query, "url").value).value;
      resp.Parsed? && resp.journeyDetails.ExtractError?
    ensures var r := Flow(p, query, parseUrl, search, analyse, parse);
      r.status == Error && r.error == IncompleteMessage
      && r.journeys == p.journeys && r.selectedJourney == p.selectedJourney
      && r.extractedData.Some? && r.extractedData.value.fromStationId.None?
  {
  }

  /** The flow of a link that finds one journey is the analysis of that
      journey, on the page that stored the data and selected it. */
  lemma FlowAnalysesSingle(p: Page, query: seq<(string, string)>, parseUrl: string -> Result<ParseUrl.ParseResponse>,
                           search: SearchOracle,
                           analyse: SplitJourney.SplitRequest -> AnalysisResponse, parse: EventParser,
                           ex: ParseUrl.Extracted, j: Journey)
    requires Truthy(ParseUrl.Get(query, "url"))
    requires parseUrl(ParseUrl.Get(query, "url").value) == Ok(ParseUrl.Parsed(ex))
    requires JourneyUtils.ValidateJourneyData(JourneyDataFrom(ex, query))
    requires search(JourneyDataFrom(ex, query)) == Ok([j])
    ensures var d := JourneyDataFrom(ex, query);
      Flow(p, query, parseUrl, search, analyse, parse)
      == Analysis(p.(loadingMessage := Some(SingleJourneyMessage), extractedData := Some(d), selectedJourney := Some(j)),
                  analyse(AnalysisRequest(j, d)), parse)
  {
    var d := JourneyDataFrom(ex, query);
    var parsing := p.(loadingMessage := Some(ParsingMessage));
    var searching := parsing.(extractedData := Some(d)).(loadingMessage := Some(SearchingMessage));
    assert Flow(p, query, parseUrl, search, analyse, parse) == AfterParse(parsing, ex, query, search, analyse, parse);
    assert AfterParse(parsing, ex, query, search, analyse, parse) == Branch(searching, [j], d, analyse, parse);
  }

  /** A search that finds one journey selects it and analyses it; when the
      stream holds a `complete` line and does not fail the page ends `DONE`
      with split options. */
  lemma SingleJourneyAnalysed(p: Page, query: seq<(string, string)>, parseUrl: string -> Result<ParseUrl.ParseResponse>,
                              search: SearchOracle,
                              analyse: SplitJourney.SplitRequest -> AnalysisResponse, parse: EventParser,
                              ex: ParseUrl.Extracted, j: Journey, chunks: seq<string>, line: nat)
    requires Truthy(ParseUrl.Get(query, "url"))
    requires parseUrl(ParseUrl.Get(query, "url").value) == Ok(ParseUrl.Parsed(ex))
    requires JourneyUtils.ValidateJourneyData(JourneyDataFrom(ex, query))
    requires search(JourneyDataFrom(ex, query)) == Ok([j])
    requires analyse(AnalysisRequest(j, JourneyDataFrom(ex, query))) == Body(chunks, None)
    requires line < |Lines(Concat(chunks))| && IsComplete(Lines(Concat(chunks))[line], parse)
    ensures var r := Flow(p, query, parseUrl, search, analyse, parse);
      r.status == Done && r.splitOptions.Some? && r.selectedJourney == Some(j)
      && r.splitOptions == LastOptions(Lines(Concat(chunks)), parse)
      && r.extractedData == Some(JourneyDataFrom(ex, query)) && r.journeys == p.journeys
  {
    var d := JourneyDataFrom(ex, query);
    var before := p.(loadingMessage := Some(SingleJourneyMessage), extractedData := Some(d), selectedJourney := Some(j));
    FlowAnalysesSingle(p, query, parseUrl, search, analyse, parse, ex, j);
    CompletedStream(before, chunks, parse, line);
  }

  /** A stream with a `complete` line and no failure ends `DONE`, showing the
      options of its last `complete` line, with the journey record kept. */
  lemma CompletedStream(v: Page, chunks: seq<string>, parse: EventParser, line: nat)
    requires line < |Lines(Concat(chunks))| && IsComplete(Lines(Concat(chunks))[line], parse)
    ensures var r := Analysis(v, Body(chunks, None), parse);
      r.status == Done && r.splitOptions.Some? && SameRecord(r, v)
      && r.splitOptions == LastOptions(Lines(Concat(chunks)), parse)
  {
    var lines := Lines(Concat(chunks));
    assert IsComplete(lines[line], parse);
    StreamOutcome(v, chunks, parse);
  }

  /** A link read by the parse route gives the search class "1" or "2", and
      "1" exactly when the extraction gave first class. */
  lemma ClassFromLink(url: string, parse: ParseUrl.UrlParser, decode: ParseUrl.Decoder, query: seq<(string, string)>)
    requires ParseUrl.Extract(url, parse, decode).Details?
    ensures var d := JourneyDataFrom(ParseUrl.Extract(url, parse, decode), query);
      d.travelClass == Some("1") || d.travelClass == Some("2")
    ensures var d := JourneyDataFrom(ParseUrl.Extract(url, parse, decode), query);
      d.travelClass == Some("1") <==> ParseUrl.Extract(url, parse, decode).fields.travelClass == Some(1)
  {
    ParseUrl.ClassIsOneOrTwo(url, parse, decode);
    assert NatText(1) == "1" && NatText(2) == "2";
  }

  // ---------------------------------------------------------------------------
  // The page

  class Discount {
    var status: Status
    var journeys: seq<Journey>
    var extractedData: Option<JourneyUtils.JourneyData>
    var error: string
    var selectedJourney: Option<Journey>
    var splitOptions: Option<seq<SplitJourney.SplitResult>>
    var loadingMessage: Option<string>
    var progressInfo: Option<ProgressInfo>

    /** The initial `useState` values. */
    constructor()
      ensures State() == Initial
    {
      status := Status.Loading;
      journeys := [];
      extractedData := None;
      error := "";
      selectedJourney := None;
      splitOptions := None;
      loadingMessage := Some(InitialMessage);
      progressInfo := None;
    }

    function State(): Page
      reads this
    {
      Page(status, journeys, extractedData, error, selectedJourney, splitOptions, loadingMessage, progressInfo)
    }

    /** `getStatusMessage` */
    function GetStatusMessage(): (r: Option<string>)
      reads this
      ensures status == Error || status == Done ==> r.Some? && r.value != ""
      ensures status == Error ==> EndsWith(r.value, error)
      ensures status != Error && status != Done ==> r == loadingMessage
    {
      if status == Error then Some("Fehler: " + error)
      else if status == Done then Some(DoneMessage)
      else loadingMessage
    }

    /** `isLoading`: while it holds, the page shows the running loading
        message, never a final one, and no journey list awaits a choice. */
    function IsLoading(): (loading: bool)
      reads this
      ensures loading <==> status == Status.Loading || status == Analyzing
      ensures loading ==> GetStatusMessage() == loadingMessage && status != Selecting
    {
      LoadingStatus(status)
    }

    /** One line of the stream's inner loop. */
    method HandleLine(line: string, parse: EventParser)
      modifies this
      ensures State() == Dispatch(old(State()), line, parse)
    {
      if StartsWith(line, DataPrefix) {
        var data := parse(line[6..]);
        if data.Some? {
          match data.value
          case ProgressData(checked, total, station, message) =>
            progressInfo := Some(ProgressInfo(checked, total, station));
            loadingMessage := message;
          case CompleteData(options) =>
            splitOptions := Some(if options.Some? then options.value else []);
            status := Done;
            progressInfo := None;
          case ErrorData(_) =>
          case OtherData =>
        }
      }
    }

    /** `for (const line of lines)`: the complete lines of one chunk, in order. */
    method HandleLines(lines: seq<string>, parse: EventParser)
      modifies this
      ensures State() == DispatchAll(old(State()), lines, parse)
    {
      var i := 0;
      while i < |lines|
        invariant 0 <= i <= |lines|
        invariant State() == DispatchAll(old(State()), lines[..i], parse)
      {
        HandleLine(lines[i], parse);
        assert lines[..i + 1][..i] == lines[..i];
        i := i + 1;
      }
      assert lines[..|lines|] == lines;
    }

    /** The `while (true)` loop over the stream: each chunk is appended to the
        buffer, the complete lines are handled in order, and the buffer keeps
        the piece after the last newline, which is never handled. */
    method ReadStream(chunks: seq<string>, parse: EventParser) returns (buffer: string)
      modifies this
      ensures State() == DispatchAll(old(State()), Lines(Concat(chunks)), parse)
      ensures buffer == Rest(Concat(chunks))
    {
      buffer := "";
      var k := 0;
      while k < |chunks|
        invariant 0 <= k <= |chunks|
        invariant buffer == Rest(Concat(chunks[..k]))
        invariant State() == DispatchAll(old(State()), Lines(Concat(chunks[..k])), parse)
      {
        ChunkStep(old(State()), chunks, k, parse);
        buffer := buffer + chunks[k];
        var lines := Split(buffer, '\n');
        assert lines[..|lines| - 1] == Lines(buffer) && lines[|lines| - 1] == Rest(buffer);
        buffer := lines[|lines| - 1];
        HandleLines(lines[..|lines| - 1], parse);
        k := k + 1;
      }
      assert chunks[..|chunks|] == chunks;
    }

    /** The outer `catch` of `analyzeSplitOptions`. */
    method Fail(message: string)
      modifies this
      ensures State() == Failed(old(State()), message)
    {
      error := if message != "" then message else AnalysisFallback;
      status := Error;
      progressInfo := None;
    }

    /** `analyzeSplitOptions`: `analyse` is the split route's answer to the
        request. */
    method AnalyzeSplitOptions(journey: Journey, d: JourneyUtils.JourneyData,
                               analyse: SplitJourney.SplitRequest -> AnalysisResponse, parse: EventParser)
      modifies this
      ensures State() == Analysis(old(State()), analyse(AnalysisRequest(journey, d)), parse)
    {
      status := Analyzing;
      loadingMessage := Some(AnalyzingMessage);
      progressInfo := None;
      var response := analyse(AnalysisRequest(journey, d));
      match response
      case NetworkError(m) =>
        Fail(m);
      case NotOk =>
        Fail(AnalysisFailed);
      case Body(chunks, failure) =>
        var _ := ReadStream(chunks, parse);
        if failure.Some? {
          Fail(failure.value);
        }
    }

    /** `handleJourneySelect` */
    method HandleJourneySelect(journey: Journey, analyse: SplitJourney.SplitRequest -> AnalysisResponse, parse: EventParser)
      modifies this
      ensures State() == Select(old(State()), journey, analyse, parse)
    {
      selectedJourney := Some(journey);
      splitOptions := None;
      if extractedData.Some? {
        AnalyzeSplitOptions(journey, extractedData.value, analyse, parse);
      } else {
        Stop(NoJourneyData);
      }
    }

    /** A `throw` inside `initializeFlow`, caught at its end. */
    method Stop(message: string)
      modifies this
      ensures State() == Thrown(old(State()), message)
    {
      error := message;
      status := Error;
    }

    /** `initializeFlow` */
    method InitializeFlow(query: seq<(string, string)>, parseUrl: string -> Result<ParseUrl.ParseResponse>,
                          search: SearchOracle,
                          analyse: SplitJourney.SplitRequest -> AnalysisResponse, parse: EventParser)
      modifies this
      ensures State() == Flow(old(State()), query, parseUrl, search, analyse, parse)
    {
      var url := ParseUrl.Get(query, "url");
      if !Truthy(url) {
        Stop(NoUrlMessage);
        return;
      }
      loadingMessage := Some(ParsingMessage);
      var parseResponse := parseUrl(url.value);
      if parseResponse.Err? {
        Stop(parseResponse.message);
        return;
      }
      match parseResponse.value
      case MissingUrl =>
        Stop(ParseUrl.MissingUrlMessage);
      case ParseFailed(_) =>
        Stop(ParseUrl.ParseFailedMessage);
      case Parsed(journeyDetails) =>
        SearchAndBranch(journeyDetails, query, search, analyse, parse);
    }

    /** `initializeFlow` once the link is parsed: build and check the journey
        data, search, and branch on the number of journeys found. */
    method SearchAndBranch(journeyDetails: ParseUrl.Extracted, query: seq<(string, string)>,
                           search: SearchOracle,
                           analyse: SplitJourney.SplitRequest -> AnalysisResponse, parse: EventParser)
      modifies this
      ensures State() == AfterParse(old(State()), journeyDetails, query, search, analyse, parse)
    {
      var journeyData := JourneyDataFrom(journeyDetails, query);
      extractedData := Some(journeyData);
      if !JourneyUtils.ValidateJourneyData(journeyData) {
        Stop(IncompleteMessage);
        return;
      }
      loadingMessage := Some(SearchingMessage);
      var found := search(journeyData);
      if found.Err? {
        Stop(found.message);
        return;
      }
      BranchOnFound(found.value, journeyData, analyse, parse);
    }

    /** The `if` on `foundJourneys.length`. */
    method BranchOnFound(foundJourneys: seq<Journey>, journeyData: JourneyUtils.JourneyData,
                         analyse: SplitJourney.SplitRequest -> AnalysisResponse, parse: EventParser)
      modifies this
      ensures State() == Branch(old(State()), foundJourneys, journeyData, analyse, parse)
    {
      if |foundJourneys| == 1 {
        loadingMessage := Some(SingleJourneyMessage);
        selectedJourney := Some(foundJourneys[0]);
        AnalyzeSplitOptions(foundJourneys[0], journeyData, analyse, parse);
      } else if |foundJourneys| > 1 {
        journeys := foundJourneys;
        status := Selecting;
      } else {
        journeys := [];
        status := Done;
      }
    }
  }
}
