/** The coordinate check both endpoints run before contacting the provider. */
module Coordinates {
  import opened Wrappers
  import opened Upstream

  const MinLatitude: real := -90.0
  const MaxLatitude: real := 90.0
  const MinLongitude: real := -180.0
  const MaxLongitude: real := 180.0

  /** A latitude/longitude pair inside the closed ranges the service accepts. */
  predicate ValidCoordinates(lat: real, lon: real)
  {
    MinLatitude <= lat <= MaxLatitude && MinLongitude <= lon <= MaxLongitude
  }

  /** Passes valid coordinates and rejects any other pair with the 400 error. */
  function ValidateCoordinates(lat: real, lon: real): (r: Result<(), Failure>)
    ensures r.Ok? <==> -90.0 <= lat <= 90.0 && -180.0 <= lon <= 180.0
    ensures r.Err? ==> r.error == InvalidCoordinates
  {
    if ValidCoordinates(lat, lon) then Ok(()) else Err(InvalidCoordinates)
  }

  /** Both ends of both ranges are accepted. */
  lemma BoundariesAccepted()
    ensures ValidateCoordinates(90.0, 180.0).Ok? && ValidateCoordinates(-90.0, -180.0).Ok?
    ensures ValidateCoordinates(90.0, -180.0).Ok? && ValidateCoordinates(-90.0, 180.0).Ok?
  {
  }

  /** Any value beyond either bound, however close, is rejected. */
  lemma JustOutsideRejected(eps: real, lat: real, lon: real)
    requires eps > 0.0
    ensures ValidateCoordinates(90.0 + eps, lon) == Err(InvalidCoordinates)
    ensures ValidateCoordinates(-90.0 - eps, lon) == Err(InvalidCoordinates)
    ensures ValidateCoordinates(lat, 180.0 + eps) == Err(InvalidCoordinates)
    ensures ValidateCoordinates(lat, -180.0 - eps) == Err(InvalidCoordinates)
  {
  }
}
