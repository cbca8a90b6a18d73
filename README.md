# Weather backend: a Dafny model of its data transformations

The service answers two requests from data it fetches from an upstream
weather-forecast provider:

- **forecast** checks the coordinates, fetches the daily series, and builds
  seven day records by position. Each record holds the date, weather code,
  minimum and maximum temperature, and a solar-energy estimate of 2.5 kW ×
  sunshine hours × 0.2.
- **summary** checks the coordinates, fetches the daily and the hourly
  series, and checks that the required keys are present. It then computes:
  - the minimum and maximum temperature over the whole daily lists;
  - the mean sunshine in hours;
  - an average pressure: hourly readings are grouped by the date part of
    their timestamp, at most the seven smallest dates (all of them when
    there are fewer) are kept, and the average is the mean of the kept
    dates' means, divided by the number of dates actually kept;
  - a rain label: "z opadami" when at least four daily weather codes fall in
    51..98, otherwise "bez opadów".

The model is a set of Dafny functions over plain sequences and maps, exact
`real` arithmetic and `Result` outcomes. The two loops of the source (the
forecast's record-building loop and the loop that fills the dictionary of
pressure lists) are methods with loop invariants. Each is proved equal to
the specification function the handlers use.

Modules:

- `Wrappers`: Option and Result.
- `Upstream`: the payloads, fetch outcomes and failures.
- `Coordinates`: the coordinate check.
- `Energy`: the energy estimate.
- `Stats`: sum, mean, min and max.
- `Forecast`: the forecast endpoint.
- `Dates`: date prefixes, string order and sorting.
- `Grouping`: the pressure grouping and average.
- `Rain`: the rain count and label.
- `Summary`: the summary endpoint.

A fetch is a parameter of type `Fetched`. It is either a received body, a
transport failure (the HTTP client's request error), or a status failure
(the error raised by the status check). A JSON key of the payload is an
`Option` field. A missing `daily` or `hourly` object reads as every key
absent, since the source substitutes `{}` in the summary and fails on the
first key in the forecast.

Three behaviours of the code are easy to misread; the model follows the code:

- A non-2xx upstream status is not a request error. In forecast it escapes
  the handler (`UnhandledFault`, answered 500 by the framework). In summary
  it falls into the catch-all and becomes the processing error. It does not
  become the service-unavailable error.
- The missing-data errors of the summary are swallowed by its catch-all (see
  Findings).
- The forecast does not check array lengths or key presence. A short array
  or missing key raises an exception nobody catches. The model returns
  `Err(UnhandledFault)` for it and puts no precondition on the payload.

## Model

| member | source | states |
|---|---|---|
| `Coordinates.ValidateCoordinates` | main.py:42-44 | accepts exactly when -90 ≤ lat ≤ 90 and -180 ≤ lon ≤ 180 and otherwise fails with the invalid-coordinates error |
| `Coordinates.BoundariesAccepted` | main.py:42-44 | the four corner points of the closed ranges are accepted |
| `Coordinates.JustOutsideRejected` | main.py:42-44 | any value past either bound, by any positive amount, is rejected whatever the other coordinate |
| `Energy.CalculateEnergy` | main.py:46-47 | before rounding the estimate equals sunshine seconds / 7200, i.e. half the sunshine hours |
| `Energy.EnergyExamples` | main.py:46-47 | 0 s gives 0 kWh, 3600 s gives 0.5 kWh, a full day of 86400 s gives 12 kWh |
| `Energy.EnergyMonotone` | main.py:46-47 | more sunshine never gives less energy; non-negative sunshine gives non-negative energy |
| `Stats.Min` | main.py:126 | the minimum is an element of the list and no element is below it |
| `Stats.Max` | main.py:127 | the maximum is an element of the list and no element is above it |
| `Forecast.BuildForecast` | main.py:70-80 | succeeds exactly when all five daily keys are present with at least 7 entries; then returns exactly 7 records whose record i takes date, weather code, min/max temperature from index i and energy sunshine[i]/7200; otherwise the uncaught fault |
| `Forecast.ForecastOutcome` | main.py:49-82 | invalid coordinates give the 400 error whatever was fetched; a transport failure gives the 503 error; a non-2xx status escapes uncaught; success exactly when coordinates are valid and the payload has a full week, with 7 positional records |
| `Forecast.RejectionPrecedesFetch` | main.py:51 | with invalid coordinates the outcome is the same for every fetch result |
| `Forecast.ForecastIgnoresLaterDays` | main.py:71-78 | two payloads that agree on their first seven entries give the same forecast |
| `Dates.DatePrefix` | main.py:133 | the date key is a prefix of the timestamp containing no 'T', followed in the timestamp by a 'T' unless it is the whole string |
| `Dates.DatePrefixUnique` | main.py:133 | those three properties determine the date key uniquely |
| `Dates.DatePrefixOfTimestamp` | main.py:133 | a timestamp date + "T" + time is keyed by its date |
| `Dates.SortDistinct` | main.py:137 | the result is strictly ascending in code-point order and holds exactly the elements of the input |
| `Grouping.ZipLength` | main.py:132 | zip pairs up as many readings as the shorter of the two lists holds |
| `Grouping.GroupPressures` | main.py:131-134 | the loop builds exactly the dictionary of the grouping fold, and every zipped reading is in the list of its own date |
| `Grouping.GroupingContents` | main.py:131-134 | the keys are exactly the dates that occur among the zipped timestamps; each list holds exactly that date's readings in input order and is non-empty |
| `Grouping.ReadingOnItsDate` | main.py:132-134 | every zipped reading lands in the list of its timestamp's date |
| `Grouping.GroupSizesSumToZipLength` | main.py:131-134 | the list lengths over all keys sum to min(len(time), len(pressure)) |
| `Grouping.SortedDatesAreKeys` | main.py:137 | the sorted dates are strictly ascending, are exactly the dictionary's keys and are as many as the keys |
| `Grouping.KeptDatesAreSmallest` | main.py:137 | the kept dates number min(7, number of groups), are keys, ascend strictly, and each is below every key left out |
| `Grouping.DailyMeans` | main.py:137 | one mean per kept date, each times its group's size equal to the group's sum |
| `Grouping.AveragePressure` | main.py:137-138 | an average exists exactly when at least one reading was zipped; with no groups the division by zero gives the processing error |
| `Grouping.AveragePressureFromReadings` | main.py:131-138 | each kept date's readings are non-empty, and the average equals the mean, over the kept dates in ascending order, of the mean of that date's readings in input order |
| `Grouping.TwoDateExample` | main.py:131-138 | readings 1000 and 1002 on one date and 1010 and 1020 on the next average to (1001 + 1015) / 2 = 1008 |
| `Grouping.AveragePressureBounds` | main.py:137-138 | when every zipped reading lies in [lo, hi] so does the pressure average |
| `Rain.RainDays` | main.py:140 | the count is at most the number of codes; it is 0 exactly when no code lies in 51..98 and equals the length exactly when all do |
| `Rain.Classify` | main.py:141 | the label is "z opadami" exactly when the rain count is at least 4 and "bez opadów" exactly when it is below 4 |
| `Rain.RainDaysAppend` | main.py:140 | the rain count of a concatenation is the sum of the counts |
| `Rain.InsertCode` | main.py:140-141 | inserting a code anywhere raises the count by one exactly when it is a rain code; a rain code never turns "z opadami" into "bez opadów"; another code never changes the label |
| `Rain.ThresholdExamples` | main.py:140-141 | three rain days give "bez opadów", four give "z opadami"; codes 50 and 99 do not count |
| `Summary.CheckPresence` | main.py:121-124 | passes exactly when the four daily keys and both hourly keys are present; a missing daily key gives the daily error first, else a missing hourly key the hourly error |
| `Summary.AverageSunshineHours` | main.py:128 | defined exactly for a non-empty list; the value times 3600 is the mean sunshine in seconds; an empty list gives the processing error |
| `Summary.SunshineHoursBounds` | main.py:128 | daily durations within [0, 86400] s give a mean between 0 and 24 hours |
| `Summary.Aggregate` | main.py:118-141 | missing keys give the missing-data errors before any aggregate; success exactly when keys are present, both temperature lists and the sunshine list are non-empty and a reading is zipped; the result's min/max are elements of and bounds of the whole lists, its sunshine is the mean in hours, its pressure the grouped average and its label "z opadami" exactly at ≥ 4 rain days |
| `Summary.SummaryOutcomeAsWritten` | main.py:84-154 | invalid coordinates give the 400 error whatever was fetched; a transport failure of either fetch gives the 503 error; otherwise a non-2xx status of either gives the generic processing error; two received bodies succeed exactly when the aggregation does, with its summary, and every aggregation error, missing-data ones included, becomes the generic processing error |
| `Summary.MissingDailyMessageLost` | main.py:121-154 | as written, a payload without the weather codes yields the generic processing error although the presence check produced the missing-daily-data error |
| `Summary.SummaryOutcome` | main.py:84-154 | invalid coordinates give the 400 error; a transport failure of either fetch the 503 error; otherwise a non-2xx status the processing error; two received bodies give exactly the aggregation's outcome, missing-data errors included |
| `Summary.MissingDataReported` | main.py:121-124 | with valid coordinates, a missing daily key gives the missing-daily-data error and a missing hourly key the missing-hourly-data error |
| `Summary.CorrectionOnlyRenamesErrors` | main.py:150-154 | the corrected and the as-written outcomes agree on every input except that the two missing-data errors read as the generic processing error as written |
| `Summary.RejectionPrecedesFetches` | main.py:86 | with invalid coordinates the outcome is the same for every pair of fetch results |

## Left out

- Routing, the root endpoint, CORS, query-parameter parsing and response serialisation (main.py:1-40, 49-50, 84-85) are framework code and are not modelled. This includes the coercion of fields to the declared types.
- Network I/O: the two HTTP GETs, `raise_for_status` and JSON decoding are replaced by the `Fetched` parameter. A body that fails to decode, or is not a JSON object, is not modelled.
- The two fetches of the summary are sequential awaits. Only their outcomes matter, so no ordering or concurrency is modelled.
- Energy.CalculateEnergy: the result is not rounded to 2 decimals. `round` on binary floats is not modelled; the contract states the exact value.
- Summary.AverageSunshineHours: the same rounding is left out; the exact mean is stated.
- Grouping.AveragePressure: the same rounding is left out; the exact mean of means is stated, by `Grouping.AveragePressureFromReadings`.
- Floating point in general: temperatures, durations and pressures are exact reals. Summation order, overflow, NaN and infinities are not modelled. A NaN coordinate, which the source rejects because every comparison with NaN is false, has no counterpart.
- JSON `null` entries in the series are not modelled; codes are integers and the other series are reals. In the source a `null` makes `min`, `max` or the sums raise, which becomes the processing error. A non-integer weather code is not modelled either.
- The order of the dictionary's keys is not modelled, because the source sorts the items before using them. Python's `min` returns the first of equal minima; equal reals are the same value, so this is unobservable.
- The exception detail strings and the `print` logging (main.py:115-116, 153) are not modelled. Failures are the constructors of `Upstream.Failure`.

## Findings

| source | as written | input that shows it | evidently intended | confidence | as-written member | corrected member |
|---|---|---|---|---|---|---|
| main.py:121-124, main.py:152-154 | the 500 `HTTPException`s raised for missing daily or hourly keys are raised inside the `try`. `HTTPException` is an `Exception`, so `except Exception` catches them and answers the generic "error processing data" instead | coordinates (0, 0), both fetches received, and a daily payload with no `weathercode` key | the client receives the specific missing-daily-data or missing-hourly-data error | high; not executed | `Summary.SummaryOutcomeAsWritten`, shown by `Summary.MissingDailyMessageLost` | `Summary.SummaryOutcome`, proved by `Summary.MissingDataReported` and `Summary.CorrectionOnlyRenamesErrors` |
