/**
 * The forecast endpoint: validate the coordinates, fetch the daily series,
 * and build one record per day for the first seven days, by position.
 */
module Forecast {
  import opened Wrappers
  import opened Upstream
  import opened Coordinates
  import opened Energy

  /** Number of days the forecast returns. */
  const ForecastDays: nat := 7

  /** One day of the forecast response. */
  datatype DailyForecast = DailyForecast(
    date: string,
    weatherCode: int,
    tempMin: real,
    tempMax: real,
    solarEnergyKwh: real)

  /** Every key the loop reads is present and its array has an entry at index `i`. */
  predicate HasDay(d: DailyPayload, i: nat)
  {
    && d.time.Some? && i < |d.time.value|
    && d.weathercode.Some? && i < |d.weathercode.value|
    && d.temperatureMin.Some? && i < |d.temperatureMin.value|
    && d.temperatureMax.Some? && i < |d.temperatureMax.value|
    && d.sunshineDuration.Some? && i < |d.sunshineDuration.value|
  }

  /** Every key is present with at least seven entries. */
  predicate HasWeek(d: DailyPayload)
  {
    HasDay(d, ForecastDays - 1)
  }

  /** The record built from index `i` of the parallel arrays. */
  function DayAt(d: DailyPayload, i: nat): DailyForecast
    requires HasDay(d, i)
  {
    DailyForecast(
      d.time.value[i],
      d.weathercode.value[i],
      d.temperatureMin.value[i],
      d.temperatureMax.value[i],
      CalculateEnergy(d.sunshineDuration.value[i]))
  }

  /**
   * The forecast built from a daily payload: seven records by position, or
   * the uncaught fault (a missing key or an index past the end of an array)
   * that the source does not handle.
   */
  function Assemble(d: DailyPayload): Result<seq<DailyForecast>, Failure>
  {
    if HasWeek(d) then Ok(seq(ForecastDays, i requires 0 <= i < ForecastDays => DayAt(d, i)))
    else Err(UnhandledFault)
  }

  /** The record-building loop: for i in 0..6, read index i of each array and append. */
  method BuildForecast(d: DailyPayload) returns (r: Result<seq<DailyForecast>, Failure>)
    ensures r == Assemble(d)
    ensures r.Ok? <==> HasWeek(d)
    ensures r.Err? ==> r.error == UnhandledFault
    ensures r.Ok? ==> |r.value| == ForecastDays
    ensures r.Ok? ==> forall i | 0 <= i < ForecastDays ::
      && r.value[i].date == d.time.value[i]
      && r.value[i].weatherCode == d.weathercode.value[i]
      && r.value[i].tempMin == d.temperatureMin.value[i]
      && r.value[i].tempMax == d.temperatureMax.value[i]
      && r.value[i].solarEnergyKwh == d.sunshineDuration.value[i] / 7200.0
  {
    var result: seq<DailyForecast> := [];
    var i: nat := 0;
    while i < ForecastDays
      invariant i <= ForecastDays
      invariant |result| == i
      invariant forall k | 0 <= k < i :: HasDay(d, k) && result[k] == DayAt(d, k)
    {
      if !HasDay(d, i) {
        assert !HasWeek(d);
        return Err(UnhandledFault);
      }
      result := result + [DayAt(d, i)];
      i := i + 1;
    }
    assert HasWeek(d);
    assert result == seq(ForecastDays, k requires 0 <= k < ForecastDays => DayAt(d, k));
    return Ok(result);
  }

  /**
   * The forecast endpoint.  Invalid coordinates are rejected before the
   * fetch; a transport failure becomes the 503 error; a non-2xx status is
   * not a request error, so it escapes the handler uncaught.
   */
  function ForecastOutcome(lat: real, lon: real, fetched: Fetched<DailyPayload>): (r: Result<seq<DailyForecast>, Failure>)
    ensures !ValidCoordinates(lat, lon) ==> r == Err(InvalidCoordinates)
    ensures ValidCoordinates(lat, lon) && fetched.TransportError? ==> r == Err(ExternalApiError)
    ensures ValidCoordinates(lat, lon) && fetched.StatusError? ==> r == Err(UnhandledFault)
    ensures ValidCoordinates(lat, lon) && fetched.Received? && !HasWeek(fetched.body) ==> r == Err(UnhandledFault)
    ensures r.Ok? <==> ValidCoordinates(lat, lon) && fetched.Received? && HasWeek(fetched.body)
    ensures r.Ok? ==> |r.value| == ForecastDays
    ensures r.Ok? ==> forall i | 0 <= i < ForecastDays :: r.value[i] == DayAt(fetched.body, i)
  {
    match ValidateCoordinates(lat, lon)
    case Err(e) => Err(e)
    case Ok(_) =>
      match fetched
      case TransportError => Err(ExternalApiError)
      case StatusError => Err(UnhandledFault)
      case Received(d) => Assemble(d)
  }

  /** Rejection on coordinates does not depend on anything the provider would return. */
  lemma RejectionPrecedesFetch(lat: real, lon: real, f1: Fetched<DailyPayload>, f2: Fetched<DailyPayload>)
    requires !ValidCoordinates(lat, lon)
    ensures ForecastOutcome(lat, lon, f1) == ForecastOutcome(lat, lon, f2) == Err(InvalidCoordinates)
  {
  }

  /** Entries beyond the seventh never affect the forecast. */
  lemma ForecastIgnoresLaterDays(d: DailyPayload, e: DailyPayload)
    requires HasWeek(d) && HasWeek(e)
    requires d.time.value[..ForecastDays] == e.time.value[..ForecastDays]
    requires d.weathercode.value[..ForecastDays] == e.weathercode.value[..ForecastDays]
    requires d.temperatureMin.value[..ForecastDays] == e.temperatureMin.value[..ForecastDays]
    requires d.temperatureMax.value[..ForecastDays] == e.temperatureMax.value[..ForecastDays]
    requires d.sunshineDuration.value[..ForecastDays] == e.sunshineDuration.value[..ForecastDays]
    ensures Assemble(d) == Assemble(e)
  {
    forall i | 0 <= i < ForecastDays
      ensures DayAt(d, i) == DayAt(e, i)
    {
      assert d.time.value[i] == d.time.value[..ForecastDays][i];
      assert e.time.value[i] == e.time.value[..ForecastDays][i];
      assert d.weathercode.value[i] == d.weathercode.value[..ForecastDays][i];
      assert e.weathercode.value[i] == e.weathercode.value[..ForecastDays][i];
      assert d.temperatureMin.value[i] == d.temperatureMin.value[..ForecastDays][i];
      assert e.temperatureMin.value[i] == e.temperatureMin.value[..ForecastDays][i];
      assert d.temperatureMax.value[i] == d.temperatureMax.value[..ForecastDays][i];
      assert e.temperatureMax.value[i] == e.temperatureMax.value[..ForecastDays][i];
      assert d.sunshineDuration.value[i] == d.sunshineDuration.value[..ForecastDays][i];
      assert e.sunshineDuration.value[i] == e.sunshineDuration.value[..ForecastDays][i];
    }
    assert Assemble(d).value == Assemble(e).value;
  }
}
