/**
 * The summary endpoint: validate the coordinates, fetch the daily and the
 * hourly series, check that the required keys are present, and aggregate
 * them into one weekly summary.
 */
module Summary {
  import opened Wrappers
  import opened Upstream
  import opened Coordinates
  import opened Stats
  import opened Grouping
  import opened Rain
  import Energy

  /** The summary response. */
  datatype WeeklySummary = WeeklySummary(
    avgPressure: real,
    avgSunshineHours: real,
    minTemp: real,
    maxTemp: real,
    weeklySummary: string)

  /** The four daily keys the summary reads (the daily `time` key is not among them). */
  predicate HasDailyKeys(d: DailyPayload)
  {
    d.temperatureMin.Some? && d.temperatureMax.Some? && d.sunshineDuration.Some? && d.weathercode.Some?
  }

  predicate HasHourlyKeys(h: HourlyPayload)
  {
    h.pressureMsl.Some? && h.time.Some?
  }

  /** The presence checks, daily keys first. */
  function CheckPresence(d: DailyPayload, h: HourlyPayload): (r: Result<(), Failure>)
    ensures r.Ok? <==> HasDailyKeys(d) && HasHourlyKeys(h)
    ensures !HasDailyKeys(d) ==> r == Err(MissingDailyData)
    ensures HasDailyKeys(d) && !HasHourlyKeys(h) ==> r == Err(MissingHourlyData)
  {
    if !HasDailyKeys(d) then Err(MissingDailyData)
    else if !HasHourlyKeys(h) then Err(MissingHourlyData)
    else Ok(())
  }

  /**
   * The mean daily sunshine in hours: each duration is converted to hours
   * and the conversions are averaged; an empty list divides by zero.
   */
  function AverageSunshineHours(sunshine: seq<real>): (r: Result<real, Failure>)
    ensures r.Ok? <==> sunshine != []
    ensures r.Err? ==> r.error == ProcessingError
    ensures r.Ok? ==> r.value * Energy.SecondsPerHour == Mean(sunshine)
  {
    if sunshine == [] then Err(ProcessingError)
    else
      var hours := DivideAll(sunshine, Energy.SecondsPerHour);
      MeanDivideAll(sunshine, Energy.SecondsPerHour);
      Ok(Mean(hours))
  }

  /** Durations within one day give an average of between 0 and 24 hours. */
  lemma SunshineHoursBounds(sunshine: seq<real>)
    requires sunshine != []
    requires forall i | 0 <= i < |sunshine| :: 0.0 <= sunshine[i] <= 86400.0
    ensures 0.0 <= AverageSunshineHours(sunshine).value <= 24.0
  {
    MeanBounds(sunshine, 0.0, 86400.0);
  }

  /**
   * The aggregation inside the summary's try block.  Missing keys stop it
   * before any aggregate is computed; `min` or `max` of an empty list, a
   * mean over no sunshine entries and an average over no pressure groups
   * all raise, and surface as the processing error.
   */
  function Aggregate(d: DailyPayload, h: HourlyPayload): (r: Result<WeeklySummary, Failure>)
    ensures !HasDailyKeys(d) ==> r == Err(MissingDailyData)
    ensures HasDailyKeys(d) && !HasHourlyKeys(h) ==> r == Err(MissingHourlyData)
    ensures r.Ok? <==>
      && HasDailyKeys(d) && HasHourlyKeys(h)
      && d.temperatureMin.value != [] && d.temperatureMax.value != [] && d.sunshineDuration.value != []
      && ZipLength(h.time.value, h.pressureMsl.value) > 0
    ensures r.Err? && HasDailyKeys(d) && HasHourlyKeys(h) ==> r.error == ProcessingError
    ensures r.Ok? ==>
      && r.value.minTemp in d.temperatureMin.value
      && (forall i | 0 <= i < |d.temperatureMin.value| :: r.value.minTemp <= d.temperatureMin.value[i])
      && r.value.maxTemp in d.temperatureMax.value
      && (forall i | 0 <= i < |d.temperatureMax.value| :: d.temperatureMax.value[i] <= r.value.maxTemp)
      && r.value.avgSunshineHours * Energy.SecondsPerHour == Mean(d.sunshineDuration.value)
      && r.value.avgPressure == AveragePressure(h.time.value, h.pressureMsl.value).value
      && (r.value.weeklySummary == WithPrecipitation <==> RainDays(d.weathercode.value) >= RainDaysThreshold)
      && (r.value.weeklySummary == WithoutPrecipitation <==> RainDays(d.weathercode.value) < RainDaysThreshold)
  {
    match CheckPresence(d, h)
    case Err(e) => Err(e)
    case Ok(_) =>
      var tmin := d.temperatureMin.value;
      var tmax := d.temperatureMax.value;
      if tmin == [] || tmax == [] then Err(ProcessingError)
      else
        match AverageSunshineHours(d.sunshineDuration.value)
        case Err(e) => Err(e)
        case Ok(sunshineHours) =>
          match AveragePressure(h.time.value, h.pressureMsl.value)
          case Err(e) => Err(e)
          case Ok(pressure) =>
            Ok(WeeklySummary(pressure, sunshineHours, Min(tmin), Max(tmax), Classify(d.weathercode.value)))
  }

  /**
   * The summary endpoint as written.  Invalid coordinates are rejected
   * before either fetch; a transport failure of either request becomes the
   * 503 error; a non-2xx status is not a request error and falls to the
   * catch-all.  The catch-all also catches the 500 errors raised by the
   * presence checks, so every failure of the aggregation, the two
   * missing-data errors included, leaves as the generic processing error.
   */
  function SummaryOutcomeAsWritten(lat: real, lon: real, daily: Fetched<DailyPayload>, hourly: Fetched<HourlyPayload>): (r: Result<WeeklySummary, Failure>)
    ensures !ValidCoordinates(lat, lon) ==> r == Err(InvalidCoordinates)
    ensures ValidCoordinates(lat, lon) && (daily.TransportError? || hourly.TransportError?) ==> r == Err(ExternalApiError)
    ensures (ValidCoordinates(lat, lon) && !daily.TransportError? && !hourly.TransportError?
             && (daily.StatusError? || hourly.StatusError?)) ==> r == Err(ProcessingError)
    ensures ValidCoordinates(lat, lon) && daily.Received? && hourly.Received? ==>
      && (r.Ok? <==> Aggregate(daily.body, hourly.body).Ok?)
      && (r.Ok? ==> r == Aggregate(daily.body, hourly.body))
      && (r.Err? ==> r.error == ProcessingError)
    ensures r.Err? && ValidCoordinates(lat, lon) ==> r.error in {ExternalApiError, ProcessingError}
  {
    match ValidateCoordinates(lat, lon)
    case Err(e) => Err(e)
    case Ok(_) =>
      if daily.TransportError? || hourly.TransportError? then Err(ExternalApiError)
      else if daily.StatusError? || hourly.StatusError? then Err(ProcessingError)
      else
        match Aggregate(daily.body, hourly.body)
        case Err(_) => Err(ProcessingError)
        case Ok(s) => Ok(s)
  }

  /** As written, a payload without the weather codes gets the generic error, not the missing-data one. */
  lemma MissingDailyMessageLost(h: HourlyPayload)
    ensures var d := DailyPayload(None, None, Some([10.0]), Some([20.0]), Some([3600.0]));
      && Aggregate(d, h) == Err(MissingDailyData)
      && SummaryOutcomeAsWritten(0.0, 0.0, Received(d), Received(h)) == Err(ProcessingError)
  {
  }

  /**
   * The summary endpoint with the presence checks' errors passed through
   * rather than swallowed by the catch-all; everything else as written.
   */
  function SummaryOutcome(lat: real, lon: real, daily: Fetched<DailyPayload>, hourly: Fetched<HourlyPayload>): (r: Result<WeeklySummary, Failure>)
    ensures !ValidCoordinates(lat, lon) ==> r == Err(InvalidCoordinates)
    ensures ValidCoordinates(lat, lon) && (daily.TransportError? || hourly.TransportError?) ==> r == Err(ExternalApiError)
    ensures (ValidCoordinates(lat, lon) && !daily.TransportError? && !hourly.TransportError?
             && (daily.StatusError? || hourly.StatusError?)) ==> r == Err(ProcessingError)
    ensures ValidCoordinates(lat, lon) && daily.Received? && hourly.Received? ==> r == Aggregate(daily.body, hourly.body)
  {
    match ValidateCoordinates(lat, lon)
    case Err(e) => Err(e)
    case Ok(_) =>
      if daily.TransportError? || hourly.TransportError? then Err(ExternalApiError)
      else if daily.StatusError? || hourly.StatusError? then Err(ProcessingError)
      else Aggregate(daily.body, hourly.body)
  }

  /** A payload lacking a daily key, or the hourly pressure, now gets the specific error. */
  lemma MissingDataReported(lat: real, lon: real, d: DailyPayload, h: HourlyPayload)
    requires ValidCoordinates(lat, lon)
    ensures !HasDailyKeys(d) ==> SummaryOutcome(lat, lon, Received(d), Received(h)) == Err(MissingDailyData)
    ensures HasDailyKeys(d) && !HasHourlyKeys(h) ==> SummaryOutcome(lat, lon, Received(d), Received(h)) == Err(MissingHourlyData)
  {
  }

  /**
   * The correction changes nothing but the two missing-data errors: on
   * every input the two outcomes agree up to replacing those by the
   * generic processing error.
   */
  lemma CorrectionOnlyRenamesErrors(lat: real, lon: real, daily: Fetched<DailyPayload>, hourly: Fetched<HourlyPayload>)
    ensures var fixed := SummaryOutcome(lat, lon, daily, hourly);
      var asWritten := SummaryOutcomeAsWritten(lat, lon, daily, hourly);
      && (fixed.Ok? <==> asWritten.Ok?)
      && (fixed.Ok? ==> fixed == asWritten)
      && (fixed.Err? && fixed.error !in {MissingDailyData, MissingHourlyData} ==> fixed == asWritten)
      && (fixed.Err? && fixed.error in {MissingDailyData, MissingHourlyData} ==> asWritten == Err(ProcessingError))
  {
  }

  /** Invalid coordinates are rejected whatever either fetch would have returned. */
  lemma RejectionPrecedesFetches(lat: real, lon: real,
      d1: Fetched<DailyPayload>, h1: Fetched<HourlyPayload>, d2: Fetched<DailyPayload>, h2: Fetched<HourlyPayload>)
    requires !ValidCoordinates(lat, lon)
    ensures SummaryOutcome(lat, lon, d1, h1) == SummaryOutcome(lat, lon, d2, h2) == Err(InvalidCoordinates)
  {
  }
}
