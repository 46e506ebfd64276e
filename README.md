# BetterBahn split-ticket search, modelled in Dafny

BetterBahn looks for cheaper ways to buy a Deutsche Bahn journey. It splits the ticket at an intermediate stop that the same train passes through, and it accounts for the Deutschlandticket (the flat-rate regional pass). This project models the application's core logic and proves properties of it:

- **split-ticket engine:** split-point extraction, segment matching, the profitability gate, streaming and batched evaluation, and the event stream it produces;
- **journey search endpoint:** validation, provider options, the exact-time filter, signature dedup and the two sort orders;
- **fare rules:** Deutschlandticket coverage of a leg, regional-train detection, the single-journey pricing record, and split-option pricing and display selection;
- **journey helpers:** duration classes, line and station names, transfer times and counts, and transfer stations;
- **URL code:** the bahn.de deep-link builders, and the parser for a pasted booking link;
- **discount page:** its event-stream reader and its status machine;
- **search form:** the booking-link validity rule and URL extraction from pasted text;
- **API counter:** the sliding-window counter.

Conventions:

- Timestamps are integer milliseconds. A date that is missing or unparsable is `None`, so comparisons with it are false, as with `NaN`.
- Prices are `Option<int>` cents. The €49 and €89 constants become 4900 and 8900. `price?.amount || 0` and `|| "no-price"` treat 0 and a missing price alike, and the model does too.
- The journey provider, URL parsing, `decodeURIComponent`, `JSON.parse` and date parsing are function parameters (oracles). `encodeURIComponent` is written out over UTF-8 bytes.
- `Array.prototype.sort` with a numeric comparator is modelled by `Sorting.SortBy`. It is a stable insertion sort that returns a new sequence; the source sorts in place.
- State that the source changes in place is modelled as follows:
  - the API counter's module variables are `ApiCounter.Counter`;
  - the URL builders' `parts` array is `CreateUrl.PartList`;
  - the discount page's React state is `DiscountPage.Discount`.
- Loops in the source are `method`s with loops, each proved equal to a specification function. The properties are proved about those functions.

`Strings` holds the JavaScript string built-ins the code relies on (`includes`, `startsWith`, `trim`, `toLowerCase`, `split`, `join`, `padStart`, `parseInt`). `Dedup` holds keep-first-by-key, the one notion behind three things:

- split-point extraction;
- journey dedup;
- the transfer-station list.

`Journeys` holds the provider's records, and `Wrappers` the `Option`/`Result` types.

## Model

| member | source | states |
|---|---|---|
| ApiCounter.Status | utils/apiCounter.js:32-41 | the limit holds iff at least 60 requests are in the window; the warning holds iff 48 to 59 are; below 48 neither holds |
| ApiCounter.WindowFacts | utils/apiCounter.js:14-18 | after a request at `now` the window contains `now`; every kept time is less than 60 000 ms old; every recent time is kept; the window is an order-preserving subsequence of the old times plus `now` |
| ApiCounter.Counter.constructor | utils/apiCounter.js:2-5 | the counter starts at 0 with no request times |
| ApiCounter.Counter.Increment | utils/apiCounter.js:10-46 | the count rises by exactly 1 and the new count is returned; the times become the 60 s window after `now`; the status reported is the one for the window's size |
| ApiCounter.Counter.GetCount | utils/apiCounter.js:49-51 | returns the current count and changes nothing |
| ApiCounter.Counter.Reset | utils/apiCounter.js:54-58 | count 0 and no request times |
| PricingUtils.ProductOf | utils/pricingUtils.js:20-21 | the lower-cased product, or "" when there is no line or product |
| PricingUtils.LineNameOf | utils/pricingUtils.js:24-25 | the lower-cased line name, or "" when there is none |
| PricingUtils.RegionalTrainCases | utils/pricingUtils.js:16-26 | no leg, a walk or a leg without a line is never regional; a leg with a regional product is regional; otherwise the leg is regional iff its name matches the re/rb/s-digit or s-bahn pattern |
| PricingUtils.RegionalTrainIgnoresCase | utils/pricingUtils.js:16-26 | lower-casing the line's name and product does not change the verdict |
| TicketUtils.IcRouteNeeds | utils/deutschlandTicketUtils.js:99-127 | a leg is on a listed IC route iff it has a line, both stops and a national/nationalExpress product, and some listed route holds both station names (substring either way) and allows the train |
| TicketUtils.IcPatternExcludesIce | utils/deutschlandTicketUtils.js:118-121 | the route pattern "IC" never admits a train whose name contains ICE |
| TicketUtils.CoverageBasics | utils/deutschlandTicketUtils.js:139-142 | without the ticket nothing is covered; with it every walk is; a ride without a line or on a FlixTrain never is |
| TicketUtils.CoverageOfRides | utils/deutschlandTicketUtils.js:143-147 | a non-FlixTrain ride with a non-national product is covered; a national one is covered iff it lies on a listed IC route |
| TicketUtils.RegionalProductCovered | utils/deutschlandTicketUtils.js:139-147 | a ride with a regional product is both covered by the ticket and classified regional |
| JourneyUtils.FormatDuration | utils/journeyUtils.js:22-39 | "unknown" iff there are no legs or a time is missing (an unparsable time counts as missing, see Left out); "invalid" iff the span is negative; "long" iff the span strictly exceeds 24 h; otherwise hours and minutes with minutes below 60 and both within the span |
| JourneyUtils.GetLineInfo | utils/journeyUtils.js:42-45 | none iff the leg walks; otherwise the line name, else the product, else "Unknown" (each case stated), never empty |
| JourneyUtils.GetStationName | utils/journeyUtils.js:48-49 | `station.name`, then `name`, then "Unknown"; never empty |
| JourneyUtils.CalculateTransferTime | utils/journeyUtils.js:52-55 | 0 unless the leg walks and has both times; then the span rounded to whole minutes |
| JourneyUtils.TrainLegsUpToRides | utils/journeyUtils.js:58-70 | the legs carried along are exactly the non-walking legs of the prefix, in order; the k-th is the k-th ride with the transfer time after it |
| JourneyUtils.TrainLegsAreRides | utils/journeyUtils.js:58-70 | `getJourneyLegsWithTransfers` keeps exactly the non-walking legs, in order; the k-th entry is the k-th ride, and its `transferTimeAfter` is the next leg's transfer time when that leg walks, else 0 |
| JourneyUtils.TrimmedAge | utils/journeyUtils.js:121-122 | the trimmed age text, "" when absent; trimming it again changes nothing |
| JourneyUtils.PrepareSearch | utils/journeyUtils.js:95-127 | the search is refused, with the incomplete-data message, iff a station id is missing; otherwise it carries both ids; the departure `date + "T" + time + ":00"` is set iff date and time are both present; the BahnCard is the given value, set iff it is non-empty and not "none"; the class is the given value, set iff non-empty; the age is set iff a given age is non-empty after trimming, and is then the trimmed text; the ticket flag is passed on |
| JourneyPricing.AnalyseAll | utils/journeyPricingUtils.js:65-70 | one analysis per train leg, in order |
| JourneyPricing.PartialOriginal | utils/journeyPricingUtils.js:86-88 | for a positive price and partial coverage, the estimated original price exceeds the price paid |
| JourneyPricing.CalculateJourneyPricing | utils/journeyPricingUtils.js:7-25 | the regional flag holds iff some train leg is regional, the only-regional flag iff the train legs are non-empty and all regional |
| JourneyPricing.CoverageFlags | utils/journeyPricingUtils.js:9-18 | priced: fully covered iff every train leg is covered, vacuously so without train legs; unpriced: only when the ticket is held as well; a journey without train legs is never only-regional |
| JourneyPricing.UnpricedFullyCovered | utils/journeyPricingUtils.js:30-44 | without a price, with the ticket and full coverage: total, original and final price are 0, no savings, the price can be shown and the record says fully covered |
| JourneyPricing.UnpricedEstimate | utils/journeyPricingUtils.js:47-60 | without a price otherwise: the final price and total are €49 iff the ticket is held and there are regional trains, else 0, with no savings; the price cannot be shown iff there is no ticket and there are regional trains; neither full nor partial coverage |
| JourneyPricing.PricedPartition | utils/journeyPricingUtils.js:65-74 | one analysis per train leg; the covered and uncovered legs are the in-order filters of it and together as many as the train legs; partial coverage iff both are non-empty; full coverage iff none is uncovered; never both |
| JourneyPricing.PricedWithoutCoverage | utils/journeyPricingUtils.js:76-80 | priced without the ticket, or with the ticket but no covered leg: final price = original price = the price paid, no savings |
| JourneyPricing.PricedFullyCovered | utils/journeyPricingUtils.js:80-84 | priced with full coverage: the final price is 0 and the savings are the whole original price, which is the price paid when that is positive |
| JourneyPricing.PricedPartial | utils/journeyPricingUtils.js:85-90 | priced with partial coverage: the final price stays the price paid, and the savings are the estimated original minus it, positive for a positive price |
| JourneySearch.Validate | app/api/journeys/route.js:33-52 | missing `from`/`to` gives the missing-stations error; otherwise a departure before `now` gives the past-departure error; otherwise none |
| JourneySearch.BuildSearchOptions | app/api/journeys/route.js:55-93 | 5 results with a departure, else the `results` parameter, defaulting to 10; `notOnlyFastRoutes` iff there is no departure; first class iff the class parses to 1; a BahnCard only for 25/50/100; age only when it parses; the ticket flags iff `hasDeutschlandTicket` is "true" |
| JourneySearch.KeyIdentifiesFreePrices | app/api/journeys/route.js:149-160 | two journeys with the same legs share a key iff their prices agree once a missing price counts as 0, so 0 and "no price" collide |
| JourneySearch.ExactAnswer | app/api/journeys/route.js:119-189 | with exact matches, the answer is their first-occurrence dedup sorted ascending by price (missing = 0): a permutation of the dedup, which has distinct keys and is an order-preserving subsequence of the matches; every member is from the input and matches origin, destination and the ±60 s window |
| JourneySearch.ExactFallback | app/api/journeys/route.js:187-189 | with no exact match, the provider's list is returned unchanged |
| JourneySearch.OpenAnswer | app/api/journeys/route.js:190-229 | with no departure, legless journeys are dropped and the rest are deduplicated and sorted ascending by first departure; the answer is a permutation of that dedup with distinct keys |
| JourneySearch.DedupIdempotent | app/api/journeys/route.js:147-176 | running the `filter`/`findIndex` dedup over journeys already deduplicated returns them unchanged |
| JourneySearch.Get | app/api/journeys/route.js:16-254 | a validation error answers 400 before any provider request (count 0); otherwise the reset counter holds exactly the one request at `now`, and the answer is the fetch error or the selected journeys |
| SplitJourney.BuildQueryOptions | app/api/split-journey/route.js:98-120 | one result with stopovers; first class iff the class parses to 1; a BahnCard only for 25/50/100, tied to the class; age only when given as a number; the ticket discount as given |
| SplitJourney.CandidatesWellFormed | app/api/split-journey/route.js:125-133 | every candidate comes from a ride with stopovers, is neither the journey's first nor its last stop, and has a stop, an arrival and a departure |
| SplitJourney.CandidatesComplete | app/api/split-journey/route.js:125-133 | every stopover that qualifies appears among the candidates |
| SplitJourney.ExtractSplitPoints | app/api/split-journey/route.js:122-150 | the nested loops keep the first candidate for each stop id, in leg/stop order |
| SplitJourney.ScanLeg | app/api/split-journey/route.js:124-145 | after leg `li`, the points and seen ids are those of all candidates of legs 0..li |
| SplitJourney.ScanStopovers | app/api/split-journey/route.js:126-145 | the stopover loop extends the kept points by one leg's candidates |
| SplitJourney.VisitStop | app/api/split-journey/route.js:133-145 | one stopover: a qualifying stop with an unseen id is added; anything else changes nothing |
| SplitJourney.ExtractedPoints | app/api/split-journey/route.js:122-150 | the split points have pairwise distinct stop ids, form an order-preserving subsequence of the candidates, cover every candidate's id and are all well formed |
| SplitJourney.FindMatchingJourneySpec | app/api/split-journey/route.js:333-343 | no match on an empty list; no match iff every journey is passed over; a match is within 60 000 ms of the target and is the first journey not passed over; a legless journey reached first makes the search throw |
| SplitJourney.ToleranceBoundary | app/api/split-journey/route.js:339-340 | a difference of exactly 60 000 ms is accepted and 60 001 is not, in either direction |
| SplitJourney.CreateSplitResult | app/api/split-journey/route.js:309-331 | type "same-train-…-split"; stations, segments, total and original price are the arguments; savings + total = original, so savings are positive iff the split is cheaper; the train line and product are the line's name and product when non-empty, else "Unknown" |
| SplitJourney.AnalyzeSingleSplit | app/api/split-journey/route.js:237-307 | a found split has exactly two segments that sum (missing = 0) to a total with 0 < total < original price, and savings = original − total; a legless journey throws |
| SplitJourney.SplitGate | app/api/split-journey/route.js:272-297 | a split is found iff both segment searches match a journey (segment 1 at the original departure, segment 2 at the candidate's departure) and the prices pass the gate |
| SplitJourney.KeptIsFound | app/api/split-journey/route.js:177-213 | the results kept by the factor-1 test are exactly the found splits, all with positive savings and total |
| SplitJourney.ProgressEventsShape | app/api/split-journey/route.js:190-225 | 2C events for C candidates: candidate i reports checked = i and then i+1, all with total C, and the last says the analysis is finished |
| SplitJourney.AnalyzeSplitPointsStreaming | app/api/split-journey/route.js:190-225 | the sequential loop keeps the kept results and emits the progress events; a failed candidate adds nothing but its events |
| SplitJourney.CheckCandidate | app/api/split-journey/route.js:199-213 | one candidate extends the kept results by its outcome |
| SplitJourney.AnalyzeSplitPointsBatched | app/api/split-journey/route.js:166-188 | batches of any size ≥ 1 keep the same results as the sequential loop: exactly the fulfilled outcomes that pass the test |
| SplitJourney.SettleBatch | app/api/split-journey/route.js:166-188 | settling one slice and keeping its fulfilled values extends the kept results through the slice's end |
| SplitJourney.KeepSettled | app/api/split-journey/route.js:177-186 | the loop over settled outcomes keeps exactly the kept results of that slice |
| SplitJourney.Settle | app/api/split-journey/route.js:167-171 | one settled outcome per candidate of the slice |
| SplitJourney.SettleAt | app/api/split-journey/route.js:167-171 | the k-th settled outcome is the analysis of the slice's k-th candidate |
| SplitJourney.RankedBySavings | app/api/split-journey/route.js:85 | the ranking is a permutation of the results ordered by savings, descending |
| SplitJourney.HandleStreamingResponse | app/api/split-journey/route.js:346-435 | the stream is one initial progress event, then the 2C progress events, then one `complete` event carrying the results ranked by savings: 2C+2 events in all, no error event |
| SplitJourney.Post | app/api/split-journey/route.js:17-95 | a request without the original journey answers 400; no split point gives success with no options; the batch answer is the kept results ranked by savings with the original price; the streamed answer is the start report, two reports per candidate, then the kept results ranked by savings (2C+2 events) |
| SplitOptions.CalculateSplitOptionPricing | components/SplitOptions.js:35-163 | the loops compute the pricing record the rules below describe |
| SplitOptions.CountPricedSegments | components/SplitOptions.js:86-103 | lists, in order, the indices of the segments without a price, and counts the priced ones |
| SplitOptions.SumUncovered | components/SplitOptions.js:118-130 | sums the positive prices of the segments not fully covered |
| SplitOptions.SumPriced | components/SplitOptions.js:135-141 | sums the prices of the priced segments |
| SplitOptions.UnpricedMembers | components/SplitOptions.js:89-103 | an index is listed iff its segment lacks a positive price or has a FlixTrain leg; the list is increasing; listed plus priced = all |
| SplitOptions.PricedCountExtremes | components/SplitOptions.js:105-107 | the priced count is 0 iff no segment is priced, and all iff every segment is |
| SplitOptions.NoSegments | components/SplitOptions.js:36-47 | without segments every flag is false and the totals fall back to `totalPrice || 0` and `savings || 0` |
| SplitOptions.WithoutTicket | components/SplitOptions.js:86-107 | without the ticket an index is listed unpriced iff its segment lacks a positive price or rides a FlixTrain; the price cannot be shown iff every segment is unpriced; pricing is partial iff some segment is priced and some is not |
| SplitOptions.PartialTotal | components/SplitOptions.js:133-144 | under partial pricing the adjusted total is the sum over the priced segments only, and positive |
| SplitOptions.WithTicket | components/SplitOptions.js:82-132 | with the ticket the price can always be shown, pricing is never partial and no segment is listed unpriced; given the original journey the adjusted total is the sum of the positive prices of the segments not fully covered, 0 when all are |
| SplitOptions.SavingsNeverNegative | components/SplitOptions.js:146-149 | given the original journey, adjusted savings = max(0, original − adjusted total): never negative, and positive iff the adjusted total is below the original price |
| SplitOptions.FullyCoveredMeaning | components/SplitOptions.js:75-80 | fully covered iff the ticket is held, the option has a segment list, and every train leg of every segment is covered |
| SplitOptions.WithPricing | components/SplitOptions.js:201-204 | each option is paired with its own pricing, in order |
| SplitOptions.Ranked | components/SplitOptions.js:207-209 | the ranking keeps every option |
| SplitOptions.FirstComplete | components/SplitOptions.js:231-242 | the index of the first option with complete pricing, every earlier one incomplete |
| SplitOptions.GetOptionsToShow | components/SplitOptions.js:197-246 | the method's loop and early exit compute the selection rule below |
| SplitOptions.ThroughFirstComplete | components/SplitOptions.js:228-245 | the loop with `break` returns the prefix ending at the first complete option, or everything |
| SplitOptions.RankedOrder | components/SplitOptions.js:207-209 | the ranking is a permutation ordered by adjusted savings, descending |
| SplitOptions.PriceAll | components/SplitOptions.js:201-204 | the mapping loop pairs every option with its pricing |
| SplitOptions.OptionsToShowShape | components/SplitOptions.js:197-246 | empty input gives nothing; with the ticket, or a complete best option, only the best; otherwise the shortest prefix of the ranking ending at a complete option, or all, every earlier one being incomplete |
| SplitOptions.TotalChangesIsLegsMinusOne | components/SplitOptions.js:302-307 | Σ(legs − 1) + (segments − 1) equals the total leg count minus 1 |
| CreateUrl.Encode | utils/createUrl.js:24-25 | the encoding contains only URL-safe characters and is never shorter than the text |
| CreateUrl.EncodeUnreserved | utils/createUrl.js:24-25 | text made of unreserved characters encodes to itself |
| CreateUrl.FormatDate | utils/createUrl.js:64-73 | the result always has a time part that does not end in bare HH:MM; it is the stripped date plus ":58" when that ends in THH:MM, plus "T08:32:58" when it has no T, and the stripped date itself otherwise |
| CreateUrl.FormatDateKeepsLocal | utils/createUrl.js:66-72 | a local `YYYY-MM-DDTHH:MM:SS` passes through unchanged |
| CreateUrl.FormatDateDropsMillisAndOffset | utils/createUrl.js:66-72 | a local time with `.ddd` and a `+HH:MM` offset formats to the local time alone |
| CreateUrl.FormatDateKeepsMinusOffset | utils/createUrl.js:66-72 | a local time followed by a `-HH:MM` offset is returned unchanged: only a `+` offset is stripped |
| CreateUrl.PaddedId | utils/createUrl.js:90 | "U×" followed by the id left-padded with zeros to nine places: exactly 2 + max(9, length of id) characters, zeros between the prefix and the id, ending in the id |
| CreateUrl.StationStringEntries | utils/createUrl.js:81-93 | splitting the station string at @ gives the 9 entries A, O, X, Y, U, L, B, p, i in order, each key=value |
| CreateUrl.CreateStationId | utils/createUrl.js:80-95 | the encoded station descriptor holds only URL-safe characters |
| CreateUrl.ProblematicIdRefused | utils/createUrl.js:148-172 | id 8002235 is used iff the name is non-empty and contains "Senden", case-insensitively |
| CreateUrl.AcceptedId | utils/createUrl.js:159-178 | an id is used iff the chosen id is present and accepted, and then it is that id, non-empty |
| CreateUrl.PartList.constructor | utils/createUrl.js:110 | the part list starts with the given parts |
| CreateUrl.PartList.Push | utils/createUrl.js:110-121 | appends exactly one part |
| CreateUrl.PartList.PushAll | utils/createUrl.js:110-121 | appends the given parts in order |
| CreateUrl.AddStationId | utils/createUrl.js:174-190 | returns the accepted id; appends the `oid=` part iff there is one, else leaves `parts` unchanged |
| CreateUrl.CreateSegmentSearchUrl | utils/createUrl.js:103-136 | an error without legs or without end stations; otherwise the fragment URL built from the first origin, last destination, first departure and class (default 2) |
| CreateUrl.SegmentEiParts | utils/createUrl.js:117-121 | `soei=`/`zoei=` occur iff that station's id was accepted and its name exists |
| CreateUrl.SegmentUrlReadsBack | utils/createUrl.js:110-135 | the URL starts with the booking prefix, and splitting its fragment at & gives back exactly the parts |
| CreateUrl.CreateDBSearchUrl | utils/createUrl.js:12-57 | the URL joins the fixed parts and the station parts with &, the class defaulting to 2 |
| CreateUrl.AddStation | utils/createUrl.js:31-39 | appends the station's parts, and only for a station with an id |
| CreateUrl.DbStationDescriptors | utils/createUrl.js:31-39 | `sooid=`/`zooid=` occur iff that station is given with an id |
| ParseUrl.MatchFrom | app/api/parse-url/route.js:88-92 | the leftmost match position at or after `from`, or none when there is no match |
| ParseUrl.Capture | app/api/parse-url/route.js:88-92 | a captured value is never empty |
| ParseUrl.CaptureMeaning | app/api/parse-url/route.js:88-92 | no capture iff the key is never followed by an allowed character; otherwise the capture is the maximal run of allowed characters after the leftmost such key occurrence |
| ParseUrl.StationId | app/api/parse-url/route.js:67-71 | a non-empty run of digits, or none for a falsy value |
| ParseUrl.StationIdOccurs | app/api/parse-url/route.js:67-71 | the id returned is a digit run that follows @L= in the value; there is none iff @L= is never followed by a digit |
| ParseUrl.BeforeFirst | app/api/parse-url/route.js:79 | the text before the first occurrence of the separator, or the whole text |
| ParseUrl.CleanNameShape | app/api/parse-url/route.js:73-84 | a cleaned name is trimmed and has no '+' |
| ParseUrl.StationNameMeaning | app/api/parse-url/route.js:73-84 | the name is the decoded @O= value when one is present, else the text before @L=, with + turned into spaces and trimmed; the only error is a decoding error |
| ParseUrl.RemoveFirst | app/api/parse-url/route.js:112 | removes exactly the leftmost occurrence of the pattern, or nothing when it is absent |
| ParseUrl.DateAndTime | app/api/parse-url/route.js:106-117 | the date precedes the first T; the time is the T-free run after that T with its first ":00" removed, absent when the run is empty; there is no time without a T |
| ParseUrl.HashValue | app/api/parse-url/route.js:87-92 | an absent key gives none; a present one gives its decoded capture, or the decoding error |
| ParseUrl.HashStation | app/api/parse-url/route.js:94-104 | none without a match; a decoding error when the capture does not decode; otherwise the id and name extracted from the decoded capture |
| ParseUrl.HashDateTime | app/api/parse-url/route.js:106-121 | the date from `hd`; the time from `hd` when it is non-empty, else the decoded `ht` when present, else the empty `hd` time; its only error is a decoding error |
| ParseUrl.HashFallback | app/api/parse-url/route.js:128-135 | the legacy `so`/`zo` name is read only when no name is known |
| ParseUrl.HashFields | app/api/parse-url/route.js:87-136 | every hash error is a decoding error |
| ParseUrl.Get | app/api/parse-url/route.js:139-156 | a query parameter is found iff it occurs, and the value found is that of its first occurrence |
| ParseUrl.QueryStation | app/api/parse-url/route.js:139-148 | an absent station parameter leaves id and name as they were; a present one fails iff its name cannot be decoded, and otherwise gives the id and name read from its value |
| ParseUrl.QueryFields | app/api/parse-url/route.js:139-156 | fails, with a decoding error, iff a `soid` or `zoid` value cannot be decoded; ids come from `soid`/`zoid` when present; present `hd`, `ht` and `kl` replace date, time and class (class parsed as an integer), absent ones keep the fragment's; `so`/`zo` name a station iff the name is still empty |
| ParseUrl.QueryLegacyNameOnlyWhenMissing | app/api/parse-url/route.js:139-156 | with `soid` present its decoded name is kept when non-empty and gives way to `so` when empty; without `soid`, `so` fills only an empty fragment name; the same for `zoid`/`zo` |
| ParseUrl.Normalise | app/api/parse-url/route.js:159-163 | the class becomes 1 or 2, 1 exactly when it was 1; nothing else changes |
| ParseUrl.ReadHashStation | app/api/parse-url/route.js:94-104 | the statement sequence computes the hash station fields |
| ParseUrl.ReadHashDateTime | app/api/parse-url/route.js:106-121 | the statement sequence computes the hash date and time |
| ParseUrl.ReadHashFallback | app/api/parse-url/route.js:128-135 | the statement sequence computes the legacy name fallback |
| ParseUrl.ReadHash | app/api/parse-url/route.js:87-136 | the hash branch computes the hash fields |
| ParseUrl.ReadQueryStation | app/api/parse-url/route.js:139-148 | the statements compute one query station |
| ParseUrl.ReadQuery | app/api/parse-url/route.js:139-156 | the query branch computes the query overrides |
| ParseUrl.ExtractJourneyDetails | app/api/parse-url/route.js:50-173 | the field-by-field overwrites compute the extracted details |
| ParseUrl.ClassIsOneOrTwo | app/api/parse-url/route.js:159-163 | extracted details always carry class 1 or 2 |
| ParseUrl.UnparsableUrl | app/api/parse-url/route.js:166-172 | an unparsable URL gives the error record instead of throwing |
| ParseUrl.NoErrorWithoutDecodingErrors | app/api/parse-url/route.js:50-173 | a parsable URL whose parts all decode always yields details |
| ParseUrl.QueryOverridesHash | app/api/parse-url/route.js:139-152 | present `soid`, `zoid`, `hd` and `ht` query values replace the fragment's; a non-empty name decoded from `soid`/`zoid` replaces the fragment's name; a present `kl` decides first class by itself |
| ParseUrl.HashWithoutQuery | app/api/parse-url/route.js:139-156 | with no query parameters the hash fields stand |
| ParseUrl.HashDate | app/api/parse-url/route.js:106-121 | a fragment `hd` gives a date without T: the text before the first T, or the whole value; a non-empty time after the T wins, and otherwise a present `ht` gives the time |
| ParseUrl.LegacyNameOnlyWhenMissing | app/api/parse-url/route.js:128-135 | a non-empty name from `soid` is kept; only without one does the legacy `so` value fill the name |
| ParseUrl.Post | app/api/parse-url/route.js:6-48 | an unreadable body gives the failure answer; a missing or empty URL answers 400; otherwise the details extracted from the resolved link, or from the URL itself when it does not resolve |
| DiscountPage.JsRem | app/discount/page.js:46 | JavaScript `%`: the remainder takes the sign of the dividend |
| DiscountPage.FormatDuration | app/discount/page.js:40-48 | nothing without legs; NaN when the first departure or last arrival is missing; otherwise hours = ⌊ms/3.6e6⌋ and minutes = ⌊(ms % 3.6e6)/6e4⌋ with JavaScript's remainder, so for a non-negative span they are its hours and remaining minutes |
| DiscountPage.GetChangesCount | app/discount/page.js:51-54 | legs − 1, or 0 without a journey or legs |
| DiscountPage.Thrown | app/discount/page.js:509-512 | status error with the message; nothing else changes |
| DiscountPage.Dispatch | app/discount/page.js:400-421 | only a `data: ` line whose payload parses as progress or complete changes the page, and only status, message, progress and options; a progress line sets the progress to its checked, total and station and the message to its message, leaving status and options; a complete line sets the status to done, clears the progress and sets the options to the line's options or []; every other line leaves the options |
| DiscountPage.CompleteOptions | app/discount/page.js:411 | the options of a complete line are `data.splitOptions`, or [] when it has none |
| DiscountPage.LastOptions | app/discount/page.js:399-421 | present iff some line of the run is a complete line, and then the options of the last such line |
| DiscountPage.DispatchAll | app/discount/page.js:399-422 | the lines only ever move status to done and never touch the error text |
| DiscountPage.DispatchAllAppend | app/discount/page.js:399-422 | dispatching a + b is dispatching a, then b |
| DiscountPage.StreamStep | app/discount/page.js:395-397 | feeding a chunk to the buffer yields the same lines and leftover as reading the whole text at once |
| DiscountPage.ChunkStep | app/discount/page.js:395-399 | reading chunk k on top of the buffer gives the same leftover and the same state as reading chunks 0..k as one text |
| DiscountPage.RestIsTail | app/discount/page.js:396-397 | the buffer is a suffix of the text without newline, the whole text when there is no complete line, and otherwise preceded by a newline |
| DiscountPage.LinesAndRest | app/discount/page.js:395-397 | the lines and the leftover, joined by newlines, give the text back, and the lines hold no newline |
| DiscountPage.StreamStatus | app/discount/page.js:399-421 | after a run of lines the status is done if some line completes and is unchanged otherwise; the options are those of the last complete line, or unchanged when no line completes |
| DiscountPage.Failed | app/discount/page.js:424-429 | status error with the message, or the fallback when it is empty; progress cleared |
| DiscountPage.Analysis | app/discount/page.js:361-430 | the analysis ends in error iff the response failed; otherwise analysing or done; the journeys, selection and extracted data are kept |
| DiscountPage.StreamOutcome | app/discount/page.js:389-423 | a stream read to its end leaves the page done, not loading, with the options of the last complete line, iff some complete line was read; otherwise still analysing with the options unchanged |
| DiscountPage.CompletedStream | app/discount/page.js:389-423 | a stream with a complete line and no failure ends done, showing the options of its last complete line, with the journey record kept |
| DiscountPage.AnalysisRequest | app/discount/page.js:370-379 | the request carries the journey, streaming on and the ticket flag; the BahnCard and class are the given values when non-empty, else "none" and "2"; the age is `parseInt` of the trimmed age exactly when that is non-empty, else none |
| DiscountPage.ClassText | app/discount/page.js:478-481 | the class text reads back as the class |
| DiscountPage.JourneyDataFrom | app/discount/page.js:470-486 | station ids, date and time from the extracted details (no ids after an error record); the BahnCard is the query value or "none", the age the query value or ""; the class is the extracted class, else the query value, else "2"; the ticket flag iff the query says "true" |
| DiscountPage.Select | app/discount/page.js:432-445 | selecting records the journey and keeps the list; without extracted data the page errs with no options; otherwise it ends in error iff the analysis response failed |
| DiscountPage.Branch | app/discount/page.js:498-508 | exactly 1 journey is selected and analysed; more than 1 means selecting; 0 means done with no journeys |
| DiscountPage.FlowOutcome | app/discount/page.js:448-516 | the flow never stays loading; selecting only with more than one journey and valid data; journeys or the selection change only with valid data; no `url` query parameter gives the no-URL error and nothing else |
| DiscountPage.AfterParseOutcome | app/discount/page.js:466-508 | after parsing, the page never stays loading; selecting only with more than one journey and valid data; journeys or the selection change only with valid data |
| DiscountPage.FlowAnalysesSingle | app/discount/page.js:466-501 | a parsed link with valid data whose search finds one journey stores the data, selects that journey and ends as the analysis of it |
| DiscountPage.ErrorRecordStops | app/discount/page.js:488-492 | an error record from the parser ends in the incomplete-data error before any search, leaving journeys and selection as they were |
| DiscountPage.SingleJourneyAnalysed | app/discount/page.js:498-501 | a single found journey is selected and analysed, and a stream with a complete line ends the flow in done showing the options of the last complete line |
| DiscountPage.ClassFromLink | app/discount/page.js:478-481 | the class read from a link reaches the search as "1" or "2", "1" exactly when the link says first class |
| DiscountPage.Discount.constructor | app/discount/page.js:345-358 | the initial page state: loading, with the initial message |
| DiscountPage.Discount.GetStatusMessage | app/discount/page.js:519-523 | error and done give a final, non-empty message (the error text at its end); otherwise the loading message |
| DiscountPage.Discount.IsLoading | app/discount/page.js:525 | loading iff loading or analysing; meanwhile the loading message is shown |
| DiscountPage.Discount.HandleLine | app/discount/page.js:400-421 | the state after one line is its dispatch |
| DiscountPage.Discount.HandleLines | app/discount/page.js:399-422 | the state after the lines is their dispatch in order |
| DiscountPage.Discount.ReadStream | app/discount/page.js:389-423 | the state is the dispatch of every complete line; the buffer left is the text after the last newline |
| DiscountPage.Discount.Fail | app/discount/page.js:424-429 | the catch block's new state |
| DiscountPage.Discount.AnalyzeSplitOptions | app/discount/page.js:361-430 | the state after the analysis request and its stream |
| DiscountPage.Discount.HandleJourneySelect | app/discount/page.js:432-445 | the state after a selection |
| DiscountPage.Discount.Stop | app/discount/page.js:509-512 | the state after the flow's catch |
| DiscountPage.Discount.InitializeFlow | app/discount/page.js:448-516 | the state after the whole flow |
| DiscountPage.Discount.SearchAndBranch | app/discount/page.js:470-508 | the state after validation, search and branch |
| DiscountPage.Discount.BranchOnFound | app/discount/page.js:498-508 | the state after branching on the found journeys |
| SearchForm.HasAnyListed | components/SearchForm.js:52-60 | the required-parameter test means `vbid` occurs; the common-parameter test means one of ot, rt, dt, so, zo occurs |
| SearchForm.ValidityRule | components/SearchForm.js:44-67 | valid iff the URL parses with "bahn.de" in the host and "/buchung/start" in the path, and has `vbid` or one of the common parameters; an unparsable URL or one without parameters is invalid |
| SearchForm.SchemeLength | components/SearchForm.js:71 | a case-insensitive http:// or https:// prefix, or 0 |
| SearchForm.MatchLength | components/SearchForm.js:71 | a match is a scheme followed by a maximal run of non-space characters |
| SearchForm.MatchShape | components/SearchForm.js:71-72 | every match is a http(s) token of the text without white space |
| SearchForm.Strip | components/SearchForm.js:76 | the prefix without trailing `.,;!?` and white space |
| SearchForm.FirstValid | components/SearchForm.js:75-81 | the first match that is valid once stripped, none before it being so |
| SearchForm.Choose | components/SearchForm.js:74-89 | the first valid stripped match, else the trimmed text if valid, else none; whatever is returned is valid |
| SearchForm.StrippedMatchIsHttp | components/SearchForm.js:71-76 | a stripped match still starts with http(s):// |
| SearchForm.ExtractedIsHttp | components/SearchForm.js:69-92 | whatever is extracted starts with "http", whether a match or the trimmed text |
| SearchForm.ChooseIsHttp | components/SearchForm.js:74-89 | when every candidate starts with the scheme, any match chosen does too |
| SearchForm.ExtractUrlFromText | components/SearchForm.js:69-92 | the loop with early return computes the extraction rule |
| SearchForm.Submit | components/SearchForm.js:116-141 | empty input gives the empty-URL error; no valid URL gives the invalid-URL error; navigation happens exactly otherwise, and its query carries the URL, BahnCard, ticket flag, age and class |
| SearchForm.QueryReadsBack | components/SearchForm.js:130-137 | the discount page reads back the URL and each form field from the query |
| SearchForm.SubmitFeedsDiscountPage | components/SearchForm.js:130-140 | after a submission that navigates, the discount page finds a valid booking URL in the query and the ticket flag and BahnCard that were entered |
| JourneyCard.TransferCount | components/JourneyCard.js:160-161 | max(0, rides − 1), never above the page's change count |
| JourneyCard.Names | components/JourneyCard.js:164-176 | the names gathered for the first n ride pairs are non-empty, at most n |
| JourneyCard.StationsShape | components/JourneyCard.js:164-176 | the transfer stations are distinct, non-empty and at most the transfer count; with two or more rides they are an order-preserving subsequence of the consecutive-pair names containing every one of them |
| JourneyCard.TransferStations | components/JourneyCard.js:164-176 | the loop with membership-guarded push gives distinct stations, at most the transfer count |
| JourneyCard.PriceDisplay | components/JourneyCard.js:179-181 | "Price on request" iff the amount is falsy, 0 included |
| JourneyCard.ClassDisplay | components/JourneyCard.js:184 | "1st Class" iff the class is the string "1", else "2nd Class" |
| JourneyCard.Group | components/JourneyCard.js:19-22 | a non-empty digit run ending in the unit letter |
| JourneyCard.IsoMatch | components/JourneyCard.js:19 | the pattern matches iff "PT" occurs; the groups are digit runs that follow the first "PT" directly, hours then minutes |
| JourneyCard.IsoMatchGroups | components/JourneyCard.js:19-23 | for any text whose first "PT" is followed by optional digit runs ending in H and M, the groups are exactly those runs and the card shows them, "0" standing for an absent one |
| JourneyCard.SplitSpan | components/JourneyCard.js:31-35 | the elapsed whole minutes (rounded down) split into hours = ⌊min/60⌋ and minutes = min % 60 truncated toward zero as in JavaScript, so a negative span gives negative minutes |
| JourneyCard.FormatDurationAsWritten | components/JourneyCard.js:15-49 | the function as written: an object duration throws; every other input formats as intended |
| JourneyCard.ObjectDurationThrows | components/JourneyCard.js:19-40 | the object with departure 60 000 and arrival 5 460 000 throws as written, while the intended result is 1 h 30 min |
| JourneyCard.FormatDuration | components/JourneyCard.js:15-49 | falsy gives "Unknown"; a PT match shows its hour and minute groups, "0" where absent; an object with both times gives the elapsed split of its departure and arrival, without them "Duration unknown"; any other string is kept iff it contains "h", else "Duration unknown"; never "Duration unavailable" |
| JourneyCard.IsoHoursAndMinutes | components/JourneyCard.js:19-23 | "PT1H30M" shows as 1h 30m |
| JourneyCard.IsoMinutesOnly | components/JourneyCard.js:19-23 | "PT45M" shows as 0h 45m |
| JourneyCard.CardDuration | components/JourneyCard.js:209-235 | built on the corrected `formatDuration` (as written, an object duration makes the card throw): the formatted duration when usable, otherwise the elapsed split from the first departure to the last arrival, "Duration unavailable" only when neither exists |
| JourneyCard.FallbackMatchesPage | components/JourneyCard.js:221-230 | the card's fallback gives the same hours and minutes as the discount page's duration |
| Dedup.KeepFirstDistinct | app/api/journeys/route.js:147-176 | keep-first output has pairwise distinct keys |
| Dedup.KeepFirstIdempotent | app/api/journeys/route.js:192-222 | keep-first applied twice equals once |
| Dedup.FilterFirstIndexIsKeepFirst | app/api/journeys/route.js:192-222 | the `filter`/`findIndex` expression equals keep-first on the filtered list |
| Sorting.SortByCorrect | app/api/journeys/route.js:179-183 | the sort result is ordered by the key and is a permutation of the input |
| Sorting.SortByStable | app/api/journeys/route.js:179-183 | the elements sharing a key keep their relative order, as `Array.prototype.sort` guarantees |

## Left out

- The network and process calls become function parameters: the provider client (`client.journeys`), `fetch`, the browser used to resolve short links, and `execSync`.
- Concurrency: `Promise.all`/`Promise.allSettled` become a sequential evaluation with a per-candidate outcome, and the 100 ms delays between requests are dropped.
- Transport: `ReadableStream`, `TextEncoder`/`TextDecoder`, HTTP headers and JSON serialisation. Streamed output is a sequence of event records. The `error` event of the streaming handler comes only from failures in that transport, so in the model the stream always ends with `complete`.
- React rendering, hooks, `localStorage` and router navigation. Page state is the fields of `DiscountPage.Discount`, and navigation is the `Navigate` submission value.
- Floating point and locale formatting: `toFixed`, `toLocaleTimeString`/`toLocaleDateString`, `savingsPercentage` and the `formatTime` helpers. Display strings become datatypes holding numbers.
- JourneyPricing.PartialOriginal: the partial-coverage estimate `apiPrice / (1 − ratio·0.6)` is computed in exact reals, not IEEE doubles.
- `new Date`, `Date.now` and `new URL`/`URLSearchParams` are parameters. Dates are milliseconds, and a parsed URL is its hash text plus an ordered list of query pairs.
- Logging (`console.log`) and the `VERBOSE` flag.
- SplitJourney.AnalyzeSingleSplit: the API-counter increments inside the segment searches are not threaded through, because they only feed logging there. The counter itself is modelled and used by `JourneySearch.Get`.
- JourneySearch.Key: the dedup key is a structured value, not the concatenated string. Two journeys collide exactly when their fields agree, and the string join could in principle make distinct fields collide. The departure part of the key (`SignatureOf`) is the parsed instant in milliseconds, not the raw `departure` text: two texts for the same instant, or two different unparsable texts, give the same key here and different keys in the source.
- Sorting.SortBy: sorting returns a new sequence rather than reordering the array in place.
- JourneyPricing.CalculateJourneyPricing: its own contract states only the regional flags; coverage, the price cases and the leg partition are stated by the lemmas beside it.
- TicketUtils: `isICRouteCoveredByDeutschlandTicket`, `isFlixTrain` and `isLegCoveredByDeutschlandTicket` are predicates; what they mean is stated by the lemmas above, not by contracts of their own.
- JourneyUtils.FormatDuration: a departure or arrival text that does not parse as a date is modelled as missing, so the model answers "Unknown duration" where the source's `isNaN` test answers "Invalid duration".
- JourneyCard.CardDuration: a present but unparsable time is modelled as missing, so the model shows "Duration unavailable" where the source shows "NaNh NaNm".
- DiscountPage.FormatDuration: a missing time gives NaN in the model; the source gives NaN for `undefined` but reads a `null` time as 0 ms (`new Date(null)`), which the model does not distinguish.
- JourneySearch.DepartureKey: a journey whose first leg has no departure sorts as time 0. The source compares NaN there, an inconsistent comparator whose resulting order the JavaScript engine decides, so that order is not modelled.
- Strings.Lower: `toLowerCase`/`toUpperCase` are modelled on ASCII and Latin-1 letters only; full Unicode case mapping (for example "Ł" to "ł") is not, which can change the station comparisons of `TicketUtils.OnRoute` and `CreateUrl.ShouldUseStationId` for such names.
- Strings.ParseInt: `parseInt` is modelled as decimal. The source calls `parseInt` without a radix for `results`, `travelClass`, `bahnCard` and `passengerAge` in the journeys route and for `kl` in the link parser, where a "0x" prefix would be read as hexadecimal.
- The constant `MIN_SINGLE_SAVINGS_FACTOR` is 1 in the code although its comment mentions 0.98; the model follows the code.
- `createSegmentSearchUrl` receives its legs with departures already as text or as a non-string value; `new Date(...).toISOString()` conversions before it are not part of this model.

## Findings

| source | as written | input that shows it | evidently intended | confidence | as-written member | corrected member |
|---|---|---|---|---|---|---|
| components/JourneyCard.js:19-40 | `formatDuration` calls `duration.match` before testing for an object, so a duration object throws a TypeError and the departure/arrival branch can never run | a duration object with departure 60 000 ms and arrival 5 460 000 ms | to show the elapsed time, 1h 30m | high, not executed | JourneyCard.FormatDurationAsWritten, JourneyCard.ObjectDurationThrows | JourneyCard.FormatDuration |
