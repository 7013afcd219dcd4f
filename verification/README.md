# DriveLedger analytics core in Dafny

DriveLedger records on-board-diagnostics (OBD-II) snapshots of vehicles.
A classifier labels each snapshot with a fault and a confidence, and each
vehicle is tied to an NFT. The Next.js web application turns these rows into
fleet and classifier statistics.

This project models the computations behind those statistics and proves
properties about them:

- **Routes** (`/api/fleet/overview`, `/api/fleet/stats`,
  `/api/classifier/stats`, `/api/classifier/history`): the in-memory
  aggregation in each route.
- **`lib/supabase.ts`:** the fleet statistics and the fleet overview it
  computes.
- **`utils/nft.ts`:** the OpenSea URL builder and the NFT metadata record.
- **Pages** (landing, fleet and classifier): the chart-data reducers.
- **`generate_fake_training_data.py`:** the labelling rules for generated
  training rows.

Modules:

- `Records`: the `car_data` and `car_nfts` rows, and the NFT-id-to-VIN map
  (`new Map(nfts.map(...))`, where a repeated id keeps its last VIN).
- `Lexicographic`: JavaScript's `<` on strings, which the overview uses to
  compare timestamps.
- `Tally`: the `acc[k] = (acc[k] || 0) + 1` counters.
  - A JavaScript object keeps its keys in insertion order, so a counter is a
    key sequence next to a map.
  - Includes `Object.entries` and `Object.values` of a counter, `new Set(...)`,
    and percentages.
- `Ranking`:
  - The strict-`>` reduce, where the first maximum wins.
  - `Array.prototype.sort` with a `b - a` comparator, a stable sort with the
    largest first.
- One module per route, per page, for `lib/supabase.ts`, for `utils/nft.ts`,
  and for the Python generator.

Source constructs and how they are modelled:

- **Loops and mutating reduces** (`forEach`, `reduce`, `while`) are methods
  with loop invariants.
  - The mutating callback is a method of its own, such as `AddRecord`,
    `CountFault`, `Bump` or `AddRow`.
  - Each method is proved equal to a fold function over the prefix it has
    seen.
  - The lemmas state what that fold means: counts are occurrences, the
    latest record is the one with the greatest timestamp, the keys are the
    distinct values in first-occurrence order.
- **Pure `map`/`filter`/`slice` expressions** are functions.
- **Random draws and the clock** are parameters:
  - the Python generator takes a `Draws` record with the range each draw
    satisfies;
  - the rejection loop takes a finite sequence of them;
  - the history route takes `now` in milliseconds.

## Model

| member | source | states |
|---|---|---|
| Records.NftToVin | driveledgerwebsite/src/app/api/fleet/overview/route.ts:57 | the map has exactly the NFT ids as keys |
| Records.NftToVinLastWins | driveledgerwebsite/src/app/api/fleet/overview/route.ts:57 | when an id occurs more than once, the VIN of its last row is kept |
| Records.ResolveVin | driveledgerwebsite/src/app/api/fleet/overview/route.ts:64-68 | a record has a VIN exactly when its id is in the map with a non-empty VIN, and the VIN is the mapped one |
| Records.SumConfidence | driveledgerwebsite/src/app/api/fleet/stats/route.ts:69 | the sum of n confidences in [0, 1] lies in [0, n] |
| Records.MeanConfidence | driveledgerwebsite/src/lib/supabase.ts:168-169 | the mean of confidences in [0, 1] lies in [0, 1] |
| Lexicographic.LessIrreflexive | driveledgerwebsite/src/app/api/fleet/overview/route.ts:83 | no timestamp is greater than itself |
| Lexicographic.LessAsymmetric | driveledgerwebsite/src/app/api/fleet/overview/route.ts:83 | two timestamps are never each greater than the other |
| Lexicographic.LessTransitive | driveledgerwebsite/src/app/api/fleet/overview/route.ts:83 | string comparison is transitive |
| Lexicographic.LessTotal | driveledgerwebsite/src/app/api/fleet/overview/route.ts:83 | of two different strings one is smaller |
| Tally.Percentage | driveledgerwebsite/src/app/api/fleet/stats/route.ts:55 | a count over a total, times 100, is non-negative; it is positive for a positive count and at most 100 when the count is at most the total |
| Tally.Distinct | driveledgerwebsite/src/lib/supabase.ts:141 | the distinct values have the same members as the input and are no more numerous |
| Tally.DistinctNoDuplicates | driveledgerwebsite/src/lib/supabase.ts:141 | each value appears once among the distinct values |
| Tally.DistinctAppend | driveledgerwebsite/src/app/page.tsx:72 | a new key is appended to the key order, a known key leaves it unchanged |
| Tally.Occurrences | driveledgerwebsite/src/app/page.tsx:72 | a count is positive exactly when the key occurs, and at most the input's length |
| Tally.OccurrencesAppend | driveledgerwebsite/src/app/page.tsx:72 | one more element adds one to its own count and nothing to any other |
| Tally.DistinctCountsSum | driveledgerwebsite/src/app/page.tsx:71-74 | the counts over all distinct keys add up to the number of elements |
| Tally.SetSizeIsDistinctCount | driveledgerwebsite/src/app/api/fleet/stats/route.ts:29 | a `Set` of the values has as many members as there are distinct values, at most the input's length |
| Tally.Bump | driveledgerwebsite/src/app/page.tsx:72 | one step of the counting reduce keeps the keys equal to the distinct values and each count equal to the occurrences |
| Tally.CountByKey | driveledgerwebsite/src/app/page.tsx:71-74 | the counter's keys are the distinct values in first-occurrence order; the key set is the value set, and each count is that value's number of occurrences |
| Tally.CounterEntries | driveledgerwebsite/src/app/api/fleet/stats/route.ts:49 | `Object.entries` of a counter: one pair per distinct value, in order, with its occurrences |
| Tally.CountsInOrder | driveledgerwebsite/src/app/page.tsx:80 | `Object.values`: the count of each key, in key order |
| Ranking.FirstMaxIndex | driveledgerwebsite/src/app/api/fleet/stats/route.ts:49-51 | the reduce picks an entry with the largest key, and every earlier entry has a strictly smaller key |
| Ranking.SortDesc | driveledgerwebsite/src/app/api/classifier/stats/route.ts:58 | `sort((a, b) => b.count - a.count)`, an insertion sort that places each entry after those with a key at least as large; its length is the input's, and SortDescFacts, SortDescStable and SortDescHead state that it is a stable descending permutation |
| Ranking.SortDescFacts | driveledgerwebsite/src/app/api/classifier/stats/route.ts:58 | the sort is a permutation of its input, in non-increasing key order |
| Ranking.SortDescStable | driveledgerwebsite/src/app/api/classifier/stats/route.ts:58 | entries with equal keys keep their relative order |
| Ranking.SortDescHead | driveledgerwebsite/src/lib/supabase.ts:157-159 | the first sorted entry is the one the strict-`>` reduce picks |
| Ranking.SortDescPrefixDominates | driveledgerwebsite/src/app/api/classifier/stats/route.ts:58-59 | an entry cut off by a prefix has a key no larger than any kept one |
| FleetOverviewRoute.TimestampOrNull | driveledgerwebsite/src/app/api/fleet/overview/route.ts:76 | the empty timestamp becomes null; any other is kept |
| FleetOverviewRoute.ConfidenceOrNull | driveledgerwebsite/src/app/api/fleet/overview/route.ts:77 | a zero confidence becomes null; any other is kept |
| FleetOverviewRoute.RecordsOf | driveledgerwebsite/src/app/api/fleet/overview/route.ts:64-70 | a VIN's records are as many as its occurrences among the resolved VINs, and each resolves to it |
| FleetOverviewRoute.Newer | driveledgerwebsite/src/app/api/fleet/overview/route.ts:83 | the update test: the record has a timestamp, and the kept one has none or a smaller one (used by LatestIndex and Absorb) |
| FleetOverviewRoute.LatestIndex | driveledgerwebsite/src/app/api/fleet/overview/route.ts:83-88 | which of a VIN's records the loop ends up keeping, an index into them; LatestIndexIsNewest characterises it as the earliest record with the greatest timestamp, or the first record when none has a timestamp |
| FleetOverviewRoute.LatestIndexIsNewest | driveledgerwebsite/src/app/api/fleet/overview/route.ts:83-88 | the kept record has the greatest non-empty timestamp and is the earliest with it; with no timestamps, it is the first record |
| FleetOverviewRoute.Summary | driveledgerwebsite/src/app/api/fleet/overview/route.ts:71-88 | the accumulator for a VIN after all its records: their number and the kept record's details; RollupIsSummary proves the loop's map holds it |
| FleetOverviewRoute.ToFleetVehicle | driveledgerwebsite/src/app/api/fleet/overview/route.ts:95-104 | `lastFault` is null exactly when the kept fault is empty; otherwise it carries the kept details, with missing sensor data as `{}` |
| FleetOverviewRoute.Start | driveledgerwebsite/src/app/api/fleet/overview/route.ts:71-79 | a VIN's first record gives the summary of that one record |
| FleetOverviewRoute.Absorb | driveledgerwebsite/src/app/api/fleet/overview/route.ts:80-88 | the update of an existing accumulator; SummaryAppend proves it extends Summary by one record |
| FleetOverviewRoute.SummaryAppend | driveledgerwebsite/src/app/api/fleet/overview/route.ts:80-88 | the summary of one more record is the loop body's update: count plus one, details replaced when the record is newer |
| FleetOverviewRoute.Rollup | driveledgerwebsite/src/app/api/fleet/overview/route.ts:61-90 | `vehicleMap` after the `forEach` has seen a prefix of the records; RollupIsSummary states its contents and AddRecord/GetFleetOverview are proved to compute it |
| FleetOverviewRoute.RollupStep | driveledgerwebsite/src/app/api/fleet/overview/route.ts:63-90 | one more record changes the map and the VIN order as the callback does, and leaves them unchanged when it has no VIN |
| FleetOverviewRoute.RollupIsSummary | driveledgerwebsite/src/app/api/fleet/overview/route.ts:63-90 | the map holds exactly the resolved VINs; each has its record count and its latest record's details |
| FleetOverviewRoute.IsFleetOverview | driveledgerwebsite/src/app/api/fleet/overview/route.ts:95-104 | the route's answer: one entry per distinct resolved VIN in order, each the summary of that VIN's records (the postcondition of GetFleetOverview) |
| FleetOverviewRoute.RollupResult | driveledgerwebsite/src/app/api/fleet/overview/route.ts:95-104 | mapping the map's values in insertion order gives the overview |
| FleetOverviewRoute.AddRecord | driveledgerwebsite/src/app/api/fleet/overview/route.ts:63-90 | the callback keeps the VIN order and the map equal to the rollup of the records seen |
| FleetOverviewRoute.GetFleetOverview | driveledgerwebsite/src/app/api/fleet/overview/route.ts:42-104 | no NFTs give `[]`; otherwise one entry per distinct resolved VIN, in first-resolution order, with its count and latest fault |
| FleetOverviewRoute.FaultCounts | driveledgerwebsite/src/app/api/fleet/overview/route.ts:97 | the `faultCount` of each entry, in order |
| FleetOverviewRoute.OverviewCounts | driveledgerwebsite/src/app/api/fleet/overview/route.ts:74-81 | each count is its VIN's number of records and is positive; the counts add up to the number of records that resolve |
| FleetOverviewRoute.RecordsOfConcat | driveledgerwebsite/src/app/api/fleet/overview/route.ts:63 | a VIN's records from two batches are the first batch's followed by the second's |
| FleetOverviewRoute.UnresolvedRecordIgnored | driveledgerwebsite/src/app/api/fleet/overview/route.ts:64-68 | a record without a VIN can be removed without changing the overview |
| FleetOverviewRoute.ResolvedVinsEmptyMap | driveledgerwebsite/src/app/api/fleet/overview/route.ts:42-44 | with no NFTs no record resolves |
| ClassifierStatsRoute.IsCorrect | driveledgerwebsite/src/app/api/classifier/stats/route.ts:46 | a prediction counts as correct when its confidence exceeds 0.8 |
| ClassifierStatsRoute.CorrectCount | driveledgerwebsite/src/app/api/classifier/stats/route.ts:46-47 | how many records of a fault are correct; CorrectCountBound bounds it by the fault's records |
| ClassifierStatsRoute.CorrectCountBound | driveledgerwebsite/src/app/api/classifier/stats/route.ts:44-47 | a fault's correct predictions are no more than its records |
| ClassifierStatsRoute.Tallies | driveledgerwebsite/src/app/api/classifier/stats/route.ts:40-50 | the `faultCounts` accumulator after a prefix of the records; TalliesCount states its keys and counts, and CountFault/TallyFaults are proved to compute it |
| ClassifierStatsRoute.TalliesStep | driveledgerwebsite/src/app/api/classifier/stats/route.ts:41-48 | one more record creates its fault's tally if needed, adds one to the count, and adds one to the correct count above 0.8 |
| ClassifierStatsRoute.TalliesCount | driveledgerwebsite/src/app/api/classifier/stats/route.ts:40-50 | the accumulator has exactly the occurring faults, each with its record count and its count above 0.8 |
| ClassifierStatsRoute.CountFault | driveledgerwebsite/src/app/api/classifier/stats/route.ts:41-48 | the callback keeps the key order and the tallies equal to those of the records seen |
| ClassifierStatsRoute.TallyFaults | driveledgerwebsite/src/app/api/classifier/stats/route.ts:40-50 | the keys are the distinct faults in order; each tally is (occurrences, correct count) |
| ClassifierStatsRoute.Entry | driveledgerwebsite/src/app/api/classifier/stats/route.ts:53-57 | an entry keeps the fault and count, and its accuracy is in [0, 100] when correct ≤ count |
| ClassifierStatsRoute.FaultEntries | driveledgerwebsite/src/app/api/classifier/stats/route.ts:52-57 | one entry per distinct fault in first-occurrence order, with its occurrences and its correct share as a percentage |
| ClassifierStatsRoute.RecentActivity | driveledgerwebsite/src/app/api/classifier/stats/route.ts:62-67 | the first min(10, n) records, each with `accuracy` true exactly when confidence > 0.8 |
| ClassifierStatsRoute.PermutationKeepsFaultsDistinct | driveledgerwebsite/src/app/api/classifier/stats/route.ts:58 | sorting entries with distinct faults keeps them distinct |
| ClassifierStatsRoute.TopFaults | driveledgerwebsite/src/app/api/classifier/stats/route.ts:52-59 | the entries sorted by count, largest first, cut to five; TopFaultsShape, TopFaultEntry and TopFaultsDominate state its properties |
| ClassifierStatsRoute.TopFaultsShape | driveledgerwebsite/src/app/api/classifier/stats/route.ts:52-59 | min(5, distinct faults) entries, largest count first, one per fault |
| ClassifierStatsRoute.TopFaultsAreEntries | driveledgerwebsite/src/app/api/classifier/stats/route.ts:52-59 | every top entry is one of the fault entries |
| ClassifierStatsRoute.TopFaultEntry | driveledgerwebsite/src/app/api/classifier/stats/route.ts:52-59 | a top entry's fault occurs; its count is its occurrences; its accuracy is the correct share as a percentage, in [0, 100] |
| ClassifierStatsRoute.TopFaultsDominate | driveledgerwebsite/src/app/api/classifier/stats/route.ts:58-59 | a fault left out occurs no more often than any fault kept |
| ClassifierStatsRoute.EntriesOf | driveledgerwebsite/src/app/api/classifier/stats/route.ts:52-57 | the entries built from the reduced counter are the fault entries |
| ClassifierStatsRoute.GetClassifierStats | driveledgerwebsite/src/app/api/classifier/stats/route.ts:33-73 | the total is the record count, the rate is "85.5", and the top faults and recent activity are as above |
| FleetStatsRoute.NonEmptyFaults | driveledgerwebsite/src/app/api/fleet/stats/route.ts:41-46 | the faults the reduce counts, those that are non-empty, in order; NonEmptyFaultsCount and NonEmptyFaultsNone state what it keeps |
| FleetStatsRoute.NonEmptyFaultsStep | driveledgerwebsite/src/app/api/fleet/stats/route.ts:42-44 | a record is counted only when its fault is non-empty |
| FleetStatsRoute.NonEmptyFaultsCount | driveledgerwebsite/src/app/api/fleet/stats/route.ts:41-46 | the empty fault is never counted; any other is counted as often as it occurs |
| FleetStatsRoute.NonEmptyFaultsNone | driveledgerwebsite/src/app/api/fleet/stats/route.ts:42-48 | the counter is empty exactly when every fault is empty |
| FleetStatsRoute.CountFaults | driveledgerwebsite/src/app/api/fleet/stats/route.ts:41-46 | the counter's keys are the distinct non-empty faults in order, with their occurrences |
| FleetStatsRoute.MostCommonFault | driveledgerwebsite/src/app/api/fleet/stats/route.ts:39-58 | the `mostCommonFault` value: the first entry with the largest count among the non-empty faults, with its percentage of all records; MostCommonFaultNone, MostCommonFaultIsMax and MostCommonFaultFirstOnTies characterise it |
| FleetStatsRoute.MostCommonFaultNone | driveledgerwebsite/src/app/api/fleet/stats/route.ts:39-58 | there is no most common fault exactly when no record has a non-empty fault |
| FleetStatsRoute.MostCommonFaultIsMax | driveledgerwebsite/src/app/api/fleet/stats/route.ts:49-56 | the most common fault is non-empty and occurs at least as often as any fault; its percentage of all records is in (0, 100] |
| FleetStatsRoute.MostCommonFaultFirstOnTies | driveledgerwebsite/src/app/api/fleet/stats/route.ts:49-51 | every fault first seen earlier occurs strictly less often |
| FleetStatsRoute.AverageConfidence | driveledgerwebsite/src/app/api/fleet/stats/route.ts:68-70 | 0 with no records; otherwise the mean times 100, within [0, 100] for confidences in [0, 1] |
| FleetStatsRoute.FindMostCommon | driveledgerwebsite/src/app/api/fleet/stats/route.ts:39-58 | the counting and selection block returns the most common fault above |
| FleetStatsRoute.GetFleetStats | driveledgerwebsite/src/app/api/fleet/stats/route.ts:29-75 | the vehicle count is the number of distinct VINs (at most the NFT count), with the most common fault and the average confidence |
| SupabaseLib.MostCommonFault | driveledgerwebsite/src/lib/supabase.ts:158-175 | the head of the counter entries sorted by count, with its percentage; MostCommonFaultIsMax characterises it |
| SupabaseLib.MostCommonFaultIsMax | driveledgerwebsite/src/lib/supabase.ts:157-159 | a head exists exactly when there is a fault row; it occurs most often, every earlier-first-seen fault occurs strictly less, and its percentage is in (0, 100] |
| SupabaseLib.AverageConfidence | driveledgerwebsite/src/lib/supabase.ts:168-169 | the sum over the length, or over 1 with no rows (giving 0); in [0, 1] for confidences in [0, 1] |
| SupabaseLib.GetFleetStatistics | driveledgerwebsite/src/lib/supabase.ts:141-178 | the vehicle count is the number of distinct ids (at most the row count), with the most common fault and the average confidence |
| SupabaseLib.Grouped | driveledgerwebsite/src/lib/supabase.ts:191-204 | `vehicleMap` after the `forEach` has seen a prefix of the rows; GroupedIsOverview states its contents and AddRow/GetFleetOverview are proved to compute it |
| SupabaseLib.GroupedStep | driveledgerwebsite/src/lib/supabase.ts:193-204 | one more row creates the id's entry with count 1 and that row, or adds one to its count |
| SupabaseLib.GroupedIsOverview | driveledgerwebsite/src/lib/supabase.ts:193-204 | the map holds exactly the ids that occur; each has its row count and its first row |
| SupabaseLib.AddRow | driveledgerwebsite/src/lib/supabase.ts:193-204 | the callback keeps the id order and the map equal to the grouping of the rows seen |
| SupabaseLib.IsOverview | driveledgerwebsite/src/lib/supabase.ts:191-206 | the result: one entry per distinct id in first-occurrence order, with its row count and first row (the postcondition of GetFleetOverview) |
| SupabaseLib.GetFleetOverview | driveledgerwebsite/src/lib/supabase.ts:191-206 | one entry per distinct id, in first-occurrence order, with its row count and its first row (the newest under the query's order) |
| SupabaseLib.OverviewCountsSum | driveledgerwebsite/src/lib/supabase.ts:193-204 | the fault counts add up to the number of rows |
| ClassifierHistoryRoute.TimeRange | driveledgerwebsite/src/app/api/classifier/history/route.ts:26 | a missing or empty parameter means "7d"; any other value is kept |
| ClassifierHistoryRoute.IsStartDate | driveledgerwebsite/src/app/api/classifier/history/route.ts:31-44 | the start of the window for each time range (the postcondition of StartDate) |
| ClassifierHistoryRoute.StartDate | driveledgerwebsite/src/app/api/classifier/history/route.ts:31-44 | "24h", "7d" and "30d" go back 24 hours, 7 days and 30 days from `now`; anything else starts at the epoch |
| ClassifierHistoryRoute.Transform | driveledgerwebsite/src/app/api/classifier/history/route.ts:67-79 | a record gives an entry exactly when it has a VIN; the entry copies its fields, and `actualFault` is null |
| ClassifierHistoryRoute.Transformed | driveledgerwebsite/src/app/api/classifier/history/route.ts:66-79 | the `map` step, record by record |
| ClassifierHistoryRoute.Present | driveledgerwebsite/src/app/api/classifier/history/route.ts:80 | `filter(record => record !== null)`: the non-null entries, in order |
| ClassifierHistoryRoute.PresentConcat | driveledgerwebsite/src/app/api/classifier/history/route.ts:80 | dropping the nulls of two lists is dropping those of each |
| ClassifierHistoryRoute.History | driveledgerwebsite/src/app/api/classifier/history/route.ts:66-80 | the `map` then `filter` chain; HistoryOfOne, HistoryConcat and HistoryVins characterise it, and GetHistory is proved to compute it |
| ClassifierHistoryRoute.HistoryOfOne | driveledgerwebsite/src/app/api/classifier/history/route.ts:66-80 | one record gives its entry, or nothing when it has no VIN |
| ClassifierHistoryRoute.HistoryConcat | driveledgerwebsite/src/app/api/classifier/history/route.ts:66-80 | the history keeps record order: that of two batches is the first's followed by the second's |
| ClassifierHistoryRoute.HistoryVins | driveledgerwebsite/src/app/api/classifier/history/route.ts:66-80 | one entry per record with a VIN, carrying that VIN, in order; never more entries than records |
| ClassifierHistoryRoute.GetHistory | driveledgerwebsite/src/app/api/classifier/history/route.ts:26-80 | the start date of the chosen range, and the history of the records |
| NftUtils.StripTrailingSlash | driveledgerwebsite/src/app/utils/nft.ts:5 | the result followed by the removed slash, if any, is the input |
| NftUtils.StripLeadingSlashes | driveledgerwebsite/src/app/utils/nft.ts:6 | `replace(/^\/+/, "")`, never longer than its input; StripLeadingSlashesFacts and StripLeadingSlashesIdempotent state what it removes |
| NftUtils.StripLeadingSlashesFacts | driveledgerwebsite/src/app/utils/nft.ts:6 | the result does not start with "/" and the input is some number of slashes followed by it |
| NftUtils.StripLeadingSlashesIdempotent | driveledgerwebsite/src/app/utils/nft.ts:6 | stripping twice is stripping once |
| NftUtils.OpenSeaNftUrl | driveledgerwebsite/src/app/utils/nft.ts:3-8 | `getOpenSeaNftUrl`; OpenSeaNftUrlShape, OpenSeaNftUrlIgnoresLeadingSlash and OpenSeaNftUrlInjective state its shape |
| NftUtils.OpenSeaNftUrlShape | driveledgerwebsite/src/app/utils/nft.ts:3-8 | the URL is the base, one "/", and the id without leading slashes; the part after the base does not start with "/" |
| NftUtils.OpenSeaNftUrlIgnoresLeadingSlash | driveledgerwebsite/src/app/utils/nft.ts:6-7 | a leading slash on the id does not change the URL |
| NftUtils.OpenSeaNftUrlInjective | driveledgerwebsite/src/app/utils/nft.ts:3-8 | two ids give the same URL exactly when they agree after their leading slashes |
| NftUtils.GenerateNftMetadata | driveledgerwebsite/src/app/utils/nft.ts:10-17 | the name, description and image are passed through, and there are no attributes |
| FakeTrainingData.Trunc | generate_fake_training_data.py:35 | `int()` truncates toward zero: a non-negative value rounds down to within 1 below it, a negative one rounds up to within 1 above it |
| FakeTrainingData.Clamp | generate_fake_training_data.py:25 | the clamped value lies in the bounds and is unchanged inside them |
| FakeTrainingData.Uniform | generate_fake_training_data.py:26 | a uniform draw lies between its bounds |
| FakeTrainingData.BaseReadings | generate_fake_training_data.py:23-51 | throttle is in [0, 100], and fuel level is at least 5 |
| FakeTrainingData.Condition | generate_fake_training_data.py:60-79 | the threshold test of each fault type (the `elif` condition that names it) |
| FakeTrainingData.NaturalFault | generate_fake_training_data.py:59-81 | the `elif` chain; NaturalFaultIsFirstMatch characterises it as the first fault type whose condition holds, or "none" |
| FakeTrainingData.NaturalFaultIsFirstMatch | generate_fake_training_data.py:59-81 | "none" exactly when no condition holds; otherwise the first fault type, in list order, whose condition holds |
| FakeTrainingData.NaturalFaultNeverFuelLow | generate_fake_training_data.py:26 | a base reading never yields `fuel_low` naturally, since fuel is drawn from [5, 100] |
| FakeTrainingData.WithEffectFields | generate_fake_training_data.py:84-104 | a reading with the fields that a fault's effect writes taken from another one (the frame of ApplyFaultEffect) |
| FakeTrainingData.ApplyFaultEffect | generate_fake_training_data.py:84-104 | after the effect the chosen fault's condition holds; only that fault's fields change; `throttle_stuck` sets the commanded throttle to the throttle |
| FakeTrainingData.GenerateFakeObdData | generate_fake_training_data.py:21-109 | a forced known fault is used, "random" picks the drawn one, otherwise the natural one; the code is a fault type or "none"; the verdict is "fault" exactly when the code is not "none" |
| FakeTrainingData.CountVerdict | generate_fake_training_data.py:137 | how many rows carry a verdict; CountVerdictAppend and CountVerdictTotal state how it grows and that the two verdicts partition the rows |
| FakeTrainingData.CountVerdictAppend | generate_fake_training_data.py:137 | one more row adds one to its own verdict's count |
| FakeTrainingData.CountVerdictTotal | generate_fake_training_data.py:121-137 | the OK and fault counts add up to the number of rows |
| FakeTrainingData.DrawRow | generate_fake_training_data.py:125-134 | a row is kept unless balancing rejects it; a wanted fault row is never rejected |
| FakeTrainingData.AppendRow | generate_fake_training_data.py:136-137 | appending a row keeps the counters equal to the verdict counts |
| FakeTrainingData.SaveFakeData | generate_fake_training_data.py:121-137 | at most n rows (exactly n unless the draws run out); with balancing the first n//2 are faults and the rest OK; the counters equal the verdict counts and add up to the row count |
| ClassifierPage.AccuracyChart | driveledgerwebsite/src/app/classifier/page.tsx:99-110 | labels and data are parallel lists, one per top fault, empty without stats |
| ClassifierPage.AccuracyChartOfRoute | driveledgerwebsite/src/app/classifier/page.tsx:99-110 | over the route's answer: at most 5 distinct labels, each accuracy in [0, 100] |
| ClassifierPage.Bucket | driveledgerwebsite/src/app/classifier/page.tsx:118-123 | bucket 0 exactly for ≥ 90 %, 1 for [80, 90), 2 for [70, 80), 3 for [60, 70), 4 for < 60 % |
| ClassifierPage.InBucket | driveledgerwebsite/src/app/classifier/page.tsx:117-124 | how many activities fall into a bucket; InBucketAppend and InBucketTotal state that each activity lands in exactly one |
| ClassifierPage.InBucketAppend | driveledgerwebsite/src/app/classifier/page.tsx:119-123 | each activity adds one to its own bucket and to no other |
| ClassifierPage.InBucketTotal | driveledgerwebsite/src/app/classifier/page.tsx:117-125 | the five buckets add up to the number of activities |
| ClassifierPage.ConfidenceHistogram | driveledgerwebsite/src/app/classifier/page.tsx:117-125 | five counts, each the number of recent activities in its bucket; all zero without stats |
| ClassifierPage.HistogramTotal | driveledgerwebsite/src/app/classifier/page.tsx:117-125 | the histogram adds up to the number of recent activities |
| ClassifierPage.RecentShown | driveledgerwebsite/src/app/classifier/page.tsx:241 | the first min(3, n) activities, or none without stats |
| ClassifierPage.RecentShownOfRoute | driveledgerwebsite/src/app/classifier/page.tsx:241 | over the route's answer, at most 3 activities, which are the first records |
| FleetPage.AllSensorData | driveledgerwebsite/src/app/fleet/page.tsx:98-100 | exactly the sensor maps of the vehicles with a last fault, in fleet order, at most one per vehicle; AllSensorDataOfOne and AllSensorDataConcat state it |
| FleetPage.AllSensorDataOfOne | driveledgerwebsite/src/app/fleet/page.tsx:98-100 | a vehicle contributes its sensor map exactly when it has a last fault |
| FleetPage.AllSensorDataConcat | driveledgerwebsite/src/app/fleet/page.tsx:98-100 | the maps of two batches of vehicles are the first batch's followed by the second's, so fleet order is kept |
| FleetPage.AllSensorDataEmpty | driveledgerwebsite/src/app/fleet/page.tsx:98-100 | no sensor maps exactly when no vehicle has a last fault |
| FleetPage.AllSensorDataHead | driveledgerwebsite/src/app/fleet/page.tsx:98-104 | the first sensor map is that of the first vehicle with a last fault |
| FleetPage.ProcessChartData | driveledgerwebsite/src/app/fleet/page.tsx:95-105 | null exactly for an empty fleet |
| FleetPage.ProcessChartDataMetrics | driveledgerwebsite/src/app/fleet/page.tsx:103-105 | the metrics are the keys of the first vehicle with a last fault, and none when there is no such vehicle |
| FleetPage.LastSix | driveledgerwebsite/src/app/fleet/page.tsx:126 | a suffix of the VIN of length min(6, VIN length) |
| FleetPage.UpperAscii | driveledgerwebsite/src/app/fleet/page.tsx:128 | lower-case ASCII letters map to their capitals; every other character is unchanged |
| FleetPage.MetricLabel | driveledgerwebsite/src/app/fleet/page.tsx:128 | the same length; each "_" becomes a space, and the result has no "_" and no lower-case ASCII letter |
| FleetPage.HasMetric | driveledgerwebsite/src/app/fleet/page.tsx:130 | the filter test: the vehicle has a last fault whose sensor data has the metric |
| FleetPage.MetricVehicles | driveledgerwebsite/src/app/fleet/page.tsx:130 | only vehicles whose last fault has the metric, no more than the fleet |
| FleetPage.MetricValue | driveledgerwebsite/src/app/fleet/page.tsx:131 | `sensor_data[selectedMetric]` of a vehicle that has the metric |
| FleetPage.MetricBarData | driveledgerwebsite/src/app/fleet/page.tsx:125-136 | one label per vehicle (the last six VIN characters); the dataset label is the upper-cased metric; one value per vehicle having the metric, so no more values than labels |
| FleetPage.MetricBarDataMisaligned | driveledgerwebsite/src/app/fleet/page.tsx:126-131 | a fleet where the first vehicle lacks the metric: the second vehicle's value sits under the first vehicle's label |
| FleetPage.MetricBarDataAligned | driveledgerwebsite/src/app/fleet/page.tsx:125-136 | labels and values come from the same vehicles, pairwise |
| FleetPage.AlignedAgreesWhenAllHaveMetric | driveledgerwebsite/src/app/fleet/page.tsx:126-131 | the aligned chart draws the same values, and equals the written one when every vehicle has the metric |
| FleetPage.MetricVehiclesAll | driveledgerwebsite/src/app/fleet/page.tsx:130 | when every vehicle has the metric, the filter keeps them all |
| FleetPage.ConfidenceNumber | driveledgerwebsite/src/app/fleet/page.tsx:143-145 | the number a confidence compares as, a null confidence comparing as 0 |
| FleetPage.CountWhere | driveledgerwebsite/src/app/fleet/page.tsx:143-145 | a filtered count is no more than the fleet |
| FleetPage.FaultDistribution | driveledgerwebsite/src/app/fleet/page.tsx:142-146 | three counts: high, medium and low confidence |
| FleetPage.FaultDistributionPartition | driveledgerwebsite/src/app/fleet/page.tsx:142-146 | the bands add up to the number of vehicles with a last fault (a null confidence counts as low) |
| HomePage.PieChartData | driveledgerwebsite/src/app/page.tsx:71-80 | the labels are the distinct faults, each once; the data has one count per label, its occurrences, adding up to the number of records |
| HomePage.LatestTable | driveledgerwebsite/src/app/page.tsx:183 | the first min(3, n) records, in order |
| HomePage.AccuracyLabels | driveledgerwebsite/src/app/page.tsx:101 | the timestamps of the last min(10, n) records, in input order (the feed comes newest first, so these are the ten oldest fetched, newest of them first) |
| HomePage.ConfidenceBadge | driveledgerwebsite/src/app/page.tsx:189-191 | green exactly from 90 %, yellow exactly in [70, 90), red exactly below 70 % |
| HomePage.ConfidenceBadgeMonotone | driveledgerwebsite/src/app/page.tsx:189-191 | a higher confidence never gets a worse badge |

## Left out

- Database queries, `fetch`, HTTP status codes, the `try`/`catch` 500 paths and `console.log` are not modelled.
  - Each route's queries (including their `.not(... null)` filters, the `.order` clauses and the history route's `.gte` timestamp filter) become input sequences.
  - The rows are taken in the order the query returns them.
- `ClassifierHistoryRoute.StartDate`: hours and days are fixed-length periods, in milliseconds.
  - `setDate` and `setHours` on local calendar time are not modelled.
  - Daylight-saving shifts are not modelled.
- Number formatting is left out:
  - `toFixed(1)` is not modelled. The percentages and averages are exact reals rather than rounded strings, and the `'0'` string for no confidences is the number 0.
  - `toLocaleString` and `toLocaleDateString` are not modelled. `HomePage.AccuracyLabels` gives the raw timestamps.
- In `generate_fake_training_data.py`:
  - `round(x, 2)` is not modelled: readings are exact reals.
  - `random.gauss` values are arbitrary real inputs, and the other draws are inputs constrained to their ranges.
  - The timestamp, `argparse`, the seed, the CSV writing and the final `print` are left out. With n ≤ 0 the source fails at `rows[0]`; this is not modelled.
- `FakeTrainingData.SaveFakeData`: the rejection loop runs over a finite sequence of draws, so the model also covers running out of draws. The source loops until it has n rows.
- JavaScript string semantics are simplified:
  - Strings are sequences of characters, and comparison is character by character (the source compares UTF-16 code units).
  - `FleetPage.UpperAscii` and `FleetPage.MetricLabel` upper-case ASCII letters only; other Unicode case mappings are not modelled.
- JavaScript object and key quirks are not modelled:
  - Integer-like object keys, which `Object.keys` lists first, are not modelled. Counters keep pure insertion order.
  - A `null` fault used as the key "null" is not modelled.
  - Inherited `Object.prototype` members are not modelled. The fleet page's `in` test finds them, and so do the counters' `acc[key]` lookups in fleet/stats/route.ts, classifier/stats/route.ts, supabase.ts and page.tsx. A fault named "constructor" or "toString" would therefore start from an inherited value there; the model treats every key as absent until it is set.
- Confidences and NFT ids:
  - Confidences are never null or NaN, so `curr.confidence || 0` is the confidence itself.
  - NFT ids and VINs are strings.
- The `metricAverages` of `processChartData` (fleet/page.tsx:108-115) is not modelled. It divides by the number of values found and gives NaN when there are none.
- The simulated accuracy on the landing page (page.tsx:105) uses `Math.random`. Only its x-axis labels are modelled.
- React state, effects, styling and rendering are not modelled.
- `FleetPage` takes its input in the shape the overview route returns.
  - There, a last fault always has a sensor object, so the `sensor_data` truthiness tests are always true.
  - The fleet page's own interface types are not modelled.

## Findings

| source | as written | input that shows it | evidently intended | confidence | as-written member | corrected member |
|---|---|---|---|---|---|---|
| driveledgerwebsite/src/app/fleet/page.tsx:126-131 | the x-axis labels are the VIN suffixes of every vehicle, but the bar values are only those of vehicles whose last fault has the selected metric; Chart.js pairs the k-th value with the k-th label | two vehicles, the first without a last fault and the second with `rpm` 7.0: labels are `["AAAAAA", "BBBBBB"]`, data is `[7.0]`, so the second vehicle's reading is drawn over the first vehicle's VIN (`FleetPage.MetricBarDataMisaligned`) | each bar labelled with the VIN of the vehicle whose reading it shows | medium, not executed | FleetPage.MetricBarData | FleetPage.MetricBarDataAligned |
