/** The bounding-box check for submitted positions (an approximation of Switzerland). */
module Coordinates {

  const LatitudeOutside := "Latitude außerhalb Schweiz"
  const LongitudeOutside := "Longitude außerhalb Schweiz"

  /** Inclusive bounds: latitude 45.0 to 48.0, longitude 5.0 to 11.0. */
  predicate InSwitzerland(lat: real, lon: real) {
    45.0 <= lat <= 48.0 && 5.0 <= lon <= 11.0
  }

  /**
   * Returns whether the position is accepted and a reason. Latitude is
   * checked first, so a position outside on both axes reports the latitude.
   */
  function ValidateCoordinates(lat: real, lon: real): (r: (bool, string))
    ensures r.0 <==> InSwitzerland(lat, lon)
    ensures r.0 ==> r.1 == "OK"
    ensures !(45.0 <= lat <= 48.0) ==> r.1 == LatitudeOutside
    ensures 45.0 <= lat <= 48.0 && !(5.0 <= lon <= 11.0) ==> r.1 == LongitudeOutside
  {
    if !(45.0 <= lat <= 48.0) then (false, LatitudeOutside)
    else if !(5.0 <= lon <= 11.0) then (false, LongitudeOutside)
    else (true, "OK")
  }

  /** Both bounds are inclusive; 44.9 is just outside. */
  lemma BoundaryCases(lon: real)
    requires 5.0 <= lon <= 11.0
    ensures ValidateCoordinates(45.0, lon).0 && ValidateCoordinates(48.0, lon).0
    ensures ValidateCoordinates(44.9, lon) == (false, LatitudeOutside)
    ensures ValidateCoordinates(47.0, 11.5) == (false, LongitudeOutside)
    ensures ValidateCoordinates(50.0, 20.0) == (false, LatitudeOutside)
  {
  }
}
