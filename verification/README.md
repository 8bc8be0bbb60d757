# Last-train taxi helper: pricing and ranking engine in Dafny

This project models the engine of a helper for people in Tokyo who have
missed the last train. Given where the user stands and where they are going,
the engine lists ways to get home, cheapest first: train, train then taxi,
or taxi all the way. Each option records its total cost and how much it saves
against a taxi for the whole trip.

The model has four parts, one module each:

- `Taxi` (`taxi.dfy`): the taxi tariff.
  - 500 yen covers the first 1.096 km.
  - Each started 0.255 km beyond that adds 100 yen.
  - An optional late-night surcharge of 20% applies, on by default.
  - The result is rounded up to ten yen.
  - Two estimators go with it: road distance from straight-line distance, and
    trip duration.
- `Stations` (`stations.dfy`): the station directory and the autocomplete
  search over it.
  - The keyword is trimmed with JavaScript's whitespace set.
  - Matches fall into three disjoint tiers: name prefix, then name substring,
    then line-name substring.
  - The tiers are concatenated and cut to `limit`, which defaults to 8.
- `MockData` (`mock_data.dfy`): the demo-mode result.
  - For the home station, the engine picks the first closest of four
    pre-authored scenarios, with a loop that replaces only on strict `<`.
  - For any other destination it synthesizes two options from the
    directory:
    - the origin is the nearest station;
    - the destination is matched by substring, with Tokyo station's
      coordinates as the fallback;
    - an intermediate station is the one nearest the midpoint;
    - prices come from the tariff.
- `SearchRoute` (`search_route.dfy`): the search endpoint.
  - It checks that lat/lng are numbers, then chooses demo mode or live mode.
  - In live mode it builds the option list:
    - at most three Google Directions routes are examined, and only when
      the status is "OK";
    - each route gives a train-only option from its transit steps, with the
      fare fallback chain;
    - the taxi-only baseline is appended;
    - the list is stable-sorted by savings, largest first.

Shared modules:

- `Types` (`types.dfy`): the result records (`RouteOption`, `TrainSegment`,
  `TaxiSegment`, `SearchResult`), `Option` for optional fields and for
  JavaScript default parameters, and the predicates used across modules:
  - `CostConsistent`: the total is the sum of the segment fares, and
    savings = taxi fare − total;
  - `ShapeMatchesKind`;
  - `SortedBySavings`.
- `GoogleMaps` (`google_maps.dfy`): the Directions response as datatypes.
- `Seqs` (`seqs.dfy`): `Array.prototype.filter`, with its positions and
  order facts.
- `OptionSort` (`option_sort.dfy`): `Array.prototype.sort` with the
  comparator `b.savings - a.savings`. It is modelled as a stable insertion
  sort and proved sorted, a permutation, and stable.

Modelling conventions:

- Distances are `real` and fares are `int`.
- `Math.ceil` is `-((-x).Floor)` and `Math.round` is `(x + 0.5).Floor`.
- The haversine distance is an uninterpreted function parameter (`Metric`).
- The scenario loop compares squared Euclidean distances. The square root
  is increasing, so the order is the same.

The model follows the code as written. In several places the demo path
departs from what the live path and the page assume: the live path sorts its
options by savings (`src/app/api/search/route.ts:115-116`), and the page
marks the first option as recommended when it saves anything
(`src/app/page.tsx:344`). The model keeps these departures
and the other behaviours of the code that are easy to miss:

- The synthesized demo result is not sorted: train-and-taxi always comes
  first, even when it saves less than nothing.
- The Roppongi scenario lists its options out of savings order.
- The Ikebukuro scenario's first option is labelled train-and-taxi but has
  no taxi segment.
- The scenario fares are not computed from the tariff: 4200 yen for 9.5 km,
  where the tariff gives 4560.
- `destName.replace("駅", "")` removes the first 駅 anywhere in the name, not
  only a trailing one.
- The intermediate station's `reduce` is seeded with the unfiltered first
  directory entry (Tokyo). The "intermediate" station can therefore be the
  origin or the destination itself (`MockData.SynthesizedTokyoToTokyo`).
- In live mode, a route without legs makes `route.legs[0].steps` throw. The
  whole request then answers 500 instead of skipping the route
  (`SearchRoute.LiveResultFails`).
- A fare of 0 counts as absent in the fallback chain
  (`SearchRoute.ResolveFareSpec`).
- A middle transit step without transit details contributes an empty label
  to the joined line name.

## Model

| member | source | states |
|---|---|---|
| Taxi.Ceil | src/lib/taxi.ts:21 | `Math.ceil`: the result is the least integer not below `x` |
| Taxi.CeilMonotone | src/lib/taxi.ts:21 | ceiling preserves `<=` |
| Taxi.CeilOfInt | src/lib/taxi.ts:31 | a whole number is its own ceiling |
| Taxi.AdditionalUnits | src/lib/taxi.ts:19-21 | at least one unit; the fewest whole 0.255 km units that, added to 1.096 km, cover the distance |
| Taxi.LateNight | src/lib/taxi.ts:7 | the surcharge flag: on when omitted, otherwise as given |
| Taxi.MeterFare | src/lib/taxi.ts:9-23 | pre-surcharge fare: 500 within 1.096 km; otherwise 500 + 100·u with u the number of started units |
| Taxi.CalculateTaxiFare | src/lib/taxi.ts:5-32 | a non-negative multiple of 10; 0 for distance <= 0; the metered fare by day; exactly 6/5 of it at night; 500 or 600 within the base distance |
| Taxi.RoundUpHundreds | src/lib/taxi.ts:26-31 | on a multiple of 100, rounding up to 10 yen is exact, with or without the 1.2 factor |
| Taxi.SurchargeDefaultsOn | src/lib/taxi.ts:7 | omitting the flag gives the night fare |
| Taxi.MeterFareMonotone | src/lib/taxi.ts:17-23 | the metered fare does not decrease with distance |
| Taxi.TaxiFareMonotone | src/lib/taxi.ts:14-31 | for a fixed flag, the fare does not decrease with distance |
| Taxi.NightFareIsSurchargedDayFare | src/lib/taxi.ts:26-31 | night fare = ⌈1.2·day/10⌉·10 = 6/5·day >= day fare |
| Taxi.BaseDistanceBoundary | src/lib/taxi.ts:9-23 | 1.096 km costs 500; 1.097 km costs 600, or 720 at night |
| Taxi.NightFareFor9_5Km | src/lib/taxi.ts:5-32 | 9.5 km is 3800 metered and 4560 at night |
| Taxi.EstimateRoadDistance | src/lib/taxi.ts:37-39 | road distance is 1.3 times the straight-line distance, so never shorter for a non-negative input and strictly longer for a positive one |
| Taxi.EstimateTaxiDuration | src/lib/taxi.ts:44-46 | the least whole minute count covering the distance at 30 km/h |
| Taxi.DurationFacts | src/lib/taxi.ts:44-46 | 30 km is 60 minutes; non-negative for a non-negative distance; at least 1 for a positive one |
| Taxi.DurationMonotone | src/lib/taxi.ts:44-46 | duration does not decrease with distance |
| Stations.SkipLeading | src/lib/stations.ts:93 | the first non-whitespace position at or after `i` (left end of `trim`) |
| Stations.SkipTrailing | src/lib/stations.ts:93 | the end of the infix once trailing whitespace is dropped (right end of `trim`) |
| Stations.Trim | src/lib/stations.ts:91-93 | `trim` returns the infix bounded by whitespace on both sides, with no whitespace at its own ends; empty exactly when the keyword is all whitespace |
| Stations.TrimUnique | src/lib/stations.ts:93 | any such infix is the one `trim` returns |
| Stations.PaddedTrimmedAt | src/lib/stations.ts:93 | padding with whitespace shifts the trimmed infix and keeps it |
| Stations.TrimIgnoresSurroundingWhitespace | src/lib/stations.ts:93 | whitespace around a keyword does not change its trim |
| Stations.StartsWith | src/lib/stations.ts:96 | `startsWith`: the empty pattern and the string itself are prefixes; a prefix occurs at offset 0 |
| Stations.Includes | src/lib/stations.ts:98 | `includes`: the empty pattern is always contained; a contained pattern is no longer than the string |
| Stations.SomeLineIncludes | src/lib/stations.ts:104 | `lines.some(l => l.includes(k))`: false for a station without lines |
| Stations.IncludesIsSubstring | src/lib/stations.ts:97-104 | `includes` holds exactly when the pattern occurs at some offset |
| Stations.StartsWithIncludes | src/lib/stations.ts:96-98 | a prefix match is also a substring match |
| Stations.Slice | src/lib/stations.ts:107 | `slice(0, limit)`: a prefix of the list, of length `limit` clamped to the list, counting back from the end for a negative limit |
| Stations.TiersPartitionMatches | src/lib/stations.ts:96-105 | the three tier predicates are pairwise disjoint, and together they hold exactly when the name or a line contains the keyword |
| Stations.SearchIn | src/lib/stations.ts:90-108 | empty for an all-whitespace keyword; at most `limit` results |
| Stations.SearchStations | src/lib/stations.ts:90-108 | same over the directory, with `limit` defaulting to 8 |
| Stations.SearchIgnoresSurroundingWhitespace | src/lib/stations.ts:93 | surrounding whitespace does not change the suggestions |
| Stations.TestsSelectTiers | src/lib/stations.ts:96-105 | each `filter` callback selects exactly the stations of its tier |
| Stations.RankedEntries | src/lib/stations.ts:96-107 | before the cut, each match is the directory entry at its recorded position, in a matching tier |
| Stations.RankedOrder | src/lib/stations.ts:96-107 | before the cut, matches are ordered by tier and then by directory position |
| Stations.RankedComplete | src/lib/stations.ts:96-107 | before the cut, every matching directory entry is listed |
| Stations.SliceKeepsRanking | src/lib/stations.ts:107 | cutting to `limit` keeps the entry and order facts |
| Stations.SearchResultRanked | src/lib/stations.ts:90-108 | suggestions are directory entries in a matching tier, ordered by tier then directory position, no position twice |
| Stations.SearchResultComplete | src/lib/stations.ts:96-107 | with a limit at least the directory size, every matching entry is suggested |
| Stations.SuggestionsMatch | src/lib/stations.ts:96-105 | each suggestion has the trimmed keyword in its name or in one of its line names |
| Stations.PrefixMatchesComeFirst | src/lib/stations.ts:96-107 | every prefix match precedes every substring-only or line-only suggestion |
| Stations.LimitTruncatesRanking | src/lib/stations.ts:107 | a smaller limit returns a prefix of a larger limit's suggestions |
| Stations.ShinjukuTrims | src/lib/stations.ts:93 | "新宿" trims to itself |
| Stations.ShinjukuTiers | src/lib/stations.ts:11-15 | 新宿 is the first directory entry whose name starts with "新宿" |
| Stations.FirstPrefixMatchSuggestedFirst | src/lib/stations.ts:96-107 | the first prefix match in directory order is the first suggestion |
| Stations.ShinjukuSuggestedFirst | src/lib/stations.ts:15 | searching "新宿" with the default limit suggests the station 新宿 first |
| MockData.SqDistance | src/lib/mock-data.ts:313-315 | the squared Euclidean distance on degrees, never negative |
| MockData.FirstClosestUnique | src/lib/mock-data.ts:309-320 | the first closest scenario is unique |
| MockData.JsRound | src/lib/mock-data.ts:358 | `Math.round`: the nearest integer, halves up |
| MockData.RoundTenth | src/lib/mock-data.ts:342 | within 0.05 of the input and a whole number of tenths |
| MockData.NearestFrom | src/lib/mock-data.ts:329-333 | the `reduce` result is the seed or one of the entries |
| MockData.NearestFromIsFirstNearest | src/lib/mock-data.ts:329-333 | the `reduce` result is no farther than the seed and every entry; ties keep the earlier one |
| MockData.NearestInTable | src/lib/mock-data.ts:329-333 | seeded with its own first entry, the reduction gives the first nearest directory entry |
| MockData.RemoveFirst | src/lib/mock-data.ts:336 | `replace("駅", "")` removes exactly the first occurrence, or nothing when there is none |
| MockData.RemovedAtCons | src/lib/mock-data.ts:336 | removal of the first occurrence past a non-matching head character |
| MockData.DestMatches | src/lib/mock-data.ts:336 | the `find` callback: a name given as the station's own name, or with 駅 appended, matches |
| MockData.FindDestination | src/lib/mock-data.ts:335-337 | None exactly when no entry matches; otherwise the first matching entry |
| MockData.DestinationLat | src/lib/mock-data.ts:339 | the matched station's latitude, or the fallback 35.6812 |
| MockData.DestinationLng | src/lib/mock-data.ts:340 | the matched station's longitude, or the fallback 139.7671 |
| MockData.FallbackIsTokyoStation | src/lib/mock-data.ts:339-340 | the fallback coordinates are those of the directory's 東京 entry |
| MockData.OriginStation | src/lib/mock-data.ts:329-333 | the origin is a directory station |
| MockData.NotEndpointSpec | src/lib/mock-data.ts:349 | the `filter` callback excludes exactly the stations named like the origin or the matched destination |
| MockData.MidStation | src/lib/mock-data.ts:348-354 | the reduce over the filtered stations returns the unfiltered seed or a directory station that is neither endpoint |
| MockData.MidStationSpec | src/lib/mock-data.ts:346-354 | the intermediate station is either the unfiltered seed, with no candidate nearer, or a candidate other than origin and destination that is strictly nearer than the seed and nearest among candidates |
| MockData.PrimaryLine | src/lib/mock-data.ts:368-370 | `lines[0]`: the origin's first line when it has one |
| MockData.DirectoryServesLines | src/lib/stations.ts:9-85 | every directory entry serves a line, so `lines[0]` is always defined on the directory |
| MockData.StraightKm | src/lib/mock-data.ts:339-341 | the metric from the user to the matched station, or to the fallback point when nothing matches |
| MockData.IntermediateStation | src/lib/mock-data.ts:346-354 | the station picked near the midpoint is a directory station |
| MockData.IntermediateStationSpec | src/lib/mock-data.ts:335-354 | for any trip, the intermediate station is the seed with no candidate nearer the midpoint of origin and destination, or the candidate other than the origin station and the destination that is strictly nearer than the seed and nearest among candidates |
| MockData.MidToDestKm | src/lib/mock-data.ts:356 | within 0.05 km of 1.3 × the distance from the intermediate station to the destination |
| MockData.TrainAndTaxiOption | src/lib/mock-data.ts:366-386 | train-and-taxi with both segments; from the origin to the intermediate station; total = train + taxi fare; savings against the taxi fare; taxi fare from the tariff at night |
| MockData.DirectTaxiOption | src/lib/mock-data.ts:387-399 | taxi-only, with total = full taxi fare and savings 0, from the origin station over the road distance |
| MockData.Synthesize | src/lib/mock-data.ts:329-403 | exactly two options, train-and-taxi then taxi-only, unsorted; both cost-consistent; full fare is the night tariff of the road distance; isDemo |
| MockData.GetMockResult | src/lib/mock-data.ts:306-404 | home destination (default 荻窪駅): the first closest scenario restamped with `now`; otherwise the synthesized result; always isDemo and cost-consistent |
| MockData.ScenariosCostConsistent | src/lib/mock-data.ts:18-285 | every pre-authored option's total is the sum of its fares, its savings are the taxi fare minus the total, and each taxi-only fare is the full fare |
| MockData.RoppongiScenarioUnsorted | src/lib/mock-data.ts:153-220 | the Roppongi options are out of savings order |
| MockData.OtherScenariosSorted | src/lib/mock-data.ts:18-150 | the Shinjuku, Shibuya and Ikebukuro options are in savings order |
| MockData.IkebukuroDirectOptionShape | src/lib/mock-data.ts:231-245 | the Ikebukuro first option is train-and-taxi without a taxi segment |
| MockData.ScenarioFaresNotFromTariff | src/lib/mock-data.ts:64-76 | the 9.5 km scenario fare is 4200 while the tariff gives 4560 |
| MockData.ShinjukuOriginSelectsShinjukuScenario | src/lib/mock-data.ts:306-325 | standing at the Shinjuku anchor selects the Shinjuku scenario |
| MockData.SynthesizedOrigin | src/lib/mock-data.ts:329-333 | the train leg, the direct taxi and the current-location label all start at the first nearest directory station |
| MockData.SynthesizedDistance | src/lib/mock-data.ts:341-358 | road distance is within 0.05 km of 1.3 × the straight-line distance; the train fare is within 0.5 yen of 20 × that distance + 150 |
| MockData.UnmatchedDestinationIsTokyo | src/lib/mock-data.ts:339-340 | no match means Tokyo station's coordinates |
| MockData.SynthesizedLegs | src/lib/mock-data.ts:341-385 | the train ends at the intermediate station at round(straight × 20 + 150); the taxi leg is priced from the intermediate station |
| MockData.IntermediateAtFirstStation | src/lib/mock-data.ts:335-354 | at the first directory station, asking for it: it is the matched destination and also the intermediate station |
| MockData.StationsAtFirstStation | src/lib/mock-data.ts:329-356 | at the first directory station, asking for it: origin, intermediate and destination coincide and both distances are 0 |
| MockData.SynthesizedAtFirstStation | src/lib/mock-data.ts:341-385 | there the train ends at that station, the full fare is 0, and the train-and-taxi option costs 150, saving -150 |
| MockData.SynthesizedTokyoToTokyo | src/lib/mock-data.ts:346-354 | from Tokyo station to 東京, the train goes to 東京 itself and the option saves -150 |
| SearchRoute.LineLabel | src/app/api/search/route.ts:76 | a step's label: the short name when non-empty, else the name, else "" when details are missing |
| SearchRoute.Join | src/app/api/search/route.ts:77 | `join`: "" for no parts, the part itself for one |
| SearchRoute.JoinShape | src/app/api/search/route.ts:75-77 | `join`: length is the parts plus separators; starts with the first part and ends with the last |
| SearchRoute.JoinConcat | src/app/api/search/route.ts:77 | `join` of two non-empty runs of parts is the join of the first, the separator, then the join of the second; so every part appears in order with exactly the separator between neighbours |
| SearchRoute.LineName | src/app/api/search/route.ts:75-77 | the labels of the transit steps joined with " → " (its contents are stated by `LineNameConcat` and `LineNameShape`) |
| SearchRoute.LineNameShape | src/app/api/search/route.ts:75-77 | empty without steps, the one label for one step, else starts with the first step's label and ends with the last's |
| SearchRoute.LineNameConcat | src/app/api/search/route.ts:75-77 | the line name of two non-empty runs of steps is the first run's name, " → ", then the second run's; appending one step appends " → " and its label |
| SearchRoute.ResolveFare | src/app/api/search/route.ts:79 | the fallback chain never yields 0 |
| SearchRoute.ResolveFareSpec | src/app/api/search/route.ts:79 | never 0; the route fare if present and non-zero, else the leg fare if so, else 250; a 0 fare counts as absent |
| SearchRoute.TransitEnds | src/app/api/search/route.ts:63-71 | the filtered transit steps are empty exactly when no step is transit |
| SearchRoute.FirstTransit | src/app/api/search/route.ts:69 | the first filtered step is the leg's first transit step |
| SearchRoute.LastTransit | src/app/api/search/route.ts:70-71 | the last filtered step is the leg's last transit step |
| SearchRoute.TrainOptionFor | src/app/api/search/route.ts:62-96 | crashes exactly when the route has no legs; a train option is train-only, cost-consistent, at the resolved fare |
| SearchRoute.RouteSkipped | src/app/api/search/route.ts:63-73 | skipped exactly when there is no transit step or the first or last transit step lacks details |
| SearchRoute.TrainOptionEndpoints | src/app/api/search/route.ts:69-94 | from/departure from the first transit step, to/arrival from the last, line = joined labels, fare = resolved fare |
| SearchRoute.ExaminedRoutes | src/app/api/search/route.ts:60-61 | the first min(3, n) routes when the status is "OK", else none |
| SearchRoute.TrainOptions | src/app/api/search/route.ts:61-97 | the options pushed by the loop, or a crash: at most one per route, all train-only and cost-consistent |
| SearchRoute.TrainOptionsCrash | src/app/api/search/route.ts:61-62 | building the train options fails exactly when some examined route has no legs |
| SearchRoute.TrainOptionsSound | src/app/api/search/route.ts:61-97 | no more train options than routes, each yielded by some route |
| SearchRoute.TrainOptionsComplete | src/app/api/search/route.ts:61-97 | every route that yields an option contributes it |
| SearchRoute.TaxiBaseline | src/app/api/search/route.ts:101-113 | taxi-only; fare = total = full fare; savings 0 |
| SearchRoute.LiveResult | src/app/api/search/route.ts:55-126 | the result record: location, destination, night-tariff full fare over the driving distance, timestamp, not demo |
| SearchRoute.BuildLiveResult | src/app/api/search/route.ts:55-126 | the loop of pushes, the baseline push and the sort give `LiveResult` |
| SearchRoute.TrainOptionsStep | src/app/api/search/route.ts:61-97 | one loop iteration extends the pushed options as the route's outcome says |
| SearchRoute.TrainOptionsPrefixCrash | src/app/api/search/route.ts:62 | a crash part way through fails the whole build |
| SearchRoute.LiveResultFails | src/app/api/search/route.ts:60-62 | live mode throws exactly when the status is "OK" and one of the first three routes has no legs |
| SearchRoute.LiveResultOrder | src/app/api/search/route.ts:55-126 | full fare from the night tariff; 1 to 4 options, sorted by savings, a permutation of trains + baseline, stable within each savings value; not demo |
| SearchRoute.LiveResultKinds | src/app/api/search/route.ts:96-116 | the baseline appears exactly once; all other options are train-only; all cost-consistent |
| SearchRoute.NoTransitOnlyBaseline | src/app/api/search/route.ts:60-116 | without an "OK" status with routes, the only option is the baseline |
| SearchRoute.TieKeepsTrainFirst | src/app/api/search/route.ts:96-116 | a train option with savings 0 stays ahead of the baseline |
| SearchRoute.LineNameExample | src/app/api/search/route.ts:75-77 | an empty short name falls back to the name; labels join with " → " |
| SearchRoute.ExampleRouteOption | src/app/api/search/route.ts:62-94 | a fareless Chuo Line route yields a 250 yen Shinjuku-to-Ogikubo option |
| SearchRoute.LiveExample | src/app/api/search/route.ts:55-126 | at 9.5 km, the train saves 4310 of 4560 and is listed before the taxi |
| SearchRoute.Post | src/app/api/search/route.ts:20-148 | non-JSON body is 500; non-number lat/lng is 400; demo mode returns the mock result; live mode returns the built result, or 500 when a provider or the build throws |
| Seqs.Filter | src/app/api/search/route.ts:63-65 | `Array.prototype.filter`: no longer than the input, and every kept element is an input element passing the test (the same call shape as src/lib/stations.ts:96-105 and src/lib/mock-data.ts:349) |
| OptionSort.Insert | src/app/api/search/route.ts:116 | inserting one option adds one to the length |
| OptionSort.SortBySavings | src/app/api/search/route.ts:116 | sorting keeps the length |
| OptionSort.InsertSorted | src/app/api/search/route.ts:116 | insertion keeps a list sorted |
| OptionSort.InsertFirst | src/app/api/search/route.ts:116 | the head after insertion is the new option or the old head |
| OptionSort.InsertPermutes | src/app/api/search/route.ts:116 | insertion adds exactly one occurrence |
| OptionSort.SwapDistinctSavings | src/app/api/search/route.ts:116 | swapping options of different savings keeps every savings class |
| OptionSort.InsertStable | src/app/api/search/route.ts:116 | insertion keeps the order within every savings class |
| OptionSort.SortSorted | src/app/api/search/route.ts:116 | the result is in non-increasing savings order |
| OptionSort.SortPermutes | src/app/api/search/route.ts:116 | the result is a permutation of the input |
| OptionSort.SortStable | src/app/api/search/route.ts:116 | options with equal savings keep their relative order |
| OptionSort.SortKeepsTieOrder | src/app/api/search/route.ts:116 | two equal-savings options keep their order |
| OptionSort.SortSpec | src/app/api/search/route.ts:116 | sorted, a permutation, and stable |

## Left out

- Each distance is an uninterpreted `Metric` parameter. The source computes
  it with the haversine formula (`src/lib/mock-data.ts:290-300`) and
  `Math.sqrt`. Trigonometry and square roots are floating-point numerics
  whose values do not affect the selection logic proved here.
- IEEE-754 doubles are not modelled: arithmetic is exact on `real`. So
  binary64 rounding in the unit count `(d - 1.096) / 0.255` is not captured.
  For 17.161 km the exact quotient is 63, so the model charges 63 units. In
  binary64 the quotient is 63.00000000000001, so the source's `Math.ceil`
  charges 64. NaN inputs are not captured either (a lat/lng of type number
  may be NaN).
- `src/lib/google-maps.ts` is reduced to its response datatypes. URL
  building and `fetch` are network I/O: the three provider answers are
  inputs, and a provider that throws is `None`. The driving distance is
  taken as given, including the 0 km the provider returns when it finds no
  route.
- The `Promise.all` concurrency of the provider calls is not modelled.
- `console.log` and the `_debug` payload of the live response are not
  modelled; the response is its status and body.
- `NextResponse` wrapping beyond status and body is not modelled.
- The `new Date().toLocaleString("ja-JP")` timestamp is a parameter `now`.
- `process.env.GOOGLE_MAPS_API_KEY` is a parameter `apiKey`.
- `HOME` comes from `src/lib/config`, which is not part of this model. The
  home station name is a parameter of `SearchRoute.Post`. `destLat`/`destLng`
  and their defaults only feed the providers, whose answers are inputs.
- `SearchRoute.Post`: a JSON body that is not an object, and a `destName`
  that is not a string, are not modelled. The body is either missing
  (invalid JSON, answered 500) or a record.
- `OptionSort.SortBySavings`: `Array.prototype.sort` sorts in place. The
  model is a functional stable insertion sort on values, so aliasing of
  the `options` array is not captured. The order it produces is the order
  ECMAScript requires of a stable sort.
- The health endpoint (`src/app/api/health/route.ts`) and the page UI
  (`src/app/page.tsx`) are outside the engine.
