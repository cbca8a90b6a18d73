/**
 * The data the service receives from the upstream forecast provider and
 * the error outcomes a request can end with.  The HTTP exchange itself is
 * not modelled: a fetch is a parameter saying what came back.
 */
module Upstream {
  import opened Wrappers

  /**
   * The `daily` object of a provider response.  Each field is one JSON key
   * holding a parallel array; `None` means the key is absent.  A response
   * without a `daily` object at all has every field `None`.
   */
  datatype DailyPayload = DailyPayload(
    time: Option<seq<string>>,
    weathercode: Option<seq<int>>,
    temperatureMin: Option<seq<real>>,
    temperatureMax: Option<seq<real>>,
    sunshineDuration: Option<seq<real>>)

  /** The `hourly` object of a provider response (the `time` and `pressure_msl` keys). */
  datatype HourlyPayload = HourlyPayload(
    time: Option<seq<string>>,
    pressureMsl: Option<seq<real>>)

  /**
   * What one outbound request produced: a decoded body, a transport failure
   * (connection, DNS, timeout: the client raises a request error), or an
   * HTTP response whose status makes the status check raise.
   */
  datatype Fetched<+T> = Received(body: T) | TransportError | StatusError

  /** The ways a request can fail, each with the HTTP status it is answered with. */
  datatype Failure =
    | InvalidCoordinates   // 400 "Invalid coordinates"
    | ExternalApiError     // 503 "External API error"
    | MissingDailyData     // 500, daily keys absent
    | MissingHourlyData    // 500, hourly keys absent
    | ProcessingError      // 500, generic "error processing data"
    | UnhandledFault       // an exception no handler catches; the framework answers 500
}
