/** Positions on the earth and the two geodesic primitives the analysis uses.
    The ellipsoidal computations themselves (Vincenty's distance and initial
    bearing on the WGS-84 ellipsoid) belong to a foreign library; the model
    receives them as functions in an `Earth` value. */
module Geodesy {
  import opened Common
  import opened Compass

  /** A longitude as handed to the position constructor: a number of degrees
      and the hemisphere letter that followed it ("" when there was none,
      which the constructor reads as east). */
  datatype Longitude = Longitude(degrees: real, hemisphere: string)

  /** The longitude as one signed number, east positive. */
  function SignedLongitude(l: Longitude): real {
    if l.hemisphere == "W" then -l.degrees else l.degrees
  }

  /** The latitude text is passed through to the foreign constructor as it is.
      The model treats that constructor as total: the ValueError it raises on
      an unreadable latitude or a longitude below -180 is not represented. */
  datatype Position = Position(lat: string, lon: Longitude)

  /** The normalisation step of `myLatLon`: a longitude over 180 degrees is
      reflected to 360 - value and its hemisphere letter flipped. */
  function NormalizeLongitude(l: Longitude): (r: Result<Longitude>)
    ensures l.degrees <= 180.0 ==> r == Ok(l)
    ensures l.degrees > 180.0 ==> (r.Ok? <==> IsCardinal(l.hemisphere))
    ensures r.Ok? ==> r.value.degrees <= 180.0
  {
    if l.degrees > 180.0 then
      match FlipDirection(l.hemisphere)
      case Err(e) => Err(e)
      case Ok(flipped) => Ok(Longitude(360.0 - l.degrees, flipped))
    else Ok(l)
  }

  /** Reflecting an east or west longitude keeps the point: the signed
      longitude changes by exactly one whole turn, or not at all. */
  lemma NormalizeLongitudeSamePoint(l: Longitude)
    requires l.hemisphere == "E" || l.hemisphere == "W"
    ensures NormalizeLongitude(l).Ok?
    ensures var d := SignedLongitude(NormalizeLongitude(l).value) - SignedLongitude(l);
            d == 0.0 || (l.hemisphere == "W" && d == 360.0) || (l.hemisphere == "E" && d == -360.0)
    ensures Coterminal(SignedLongitude(NormalizeLongitude(l).value), SignedLongitude(l))
  {
    if l.degrees > 180.0 {
      WholeTurns(SignedLongitude(NormalizeLongitude(l).value), SignedLongitude(l), if l.hemisphere == "W" then 1 else -1);
    } else {
      WholeTurns(SignedLongitude(l), SignedLongitude(l), 0);
    }
  }

  /** A longitude over 180 degrees with no hemisphere letter cannot be flipped. */
  lemma NormalizeLongitudeNeedsLetter(degrees: real)
    requires degrees > 180.0
    ensures NormalizeLongitude(Longitude(degrees, "")).Err?
  {
  }

  /** The hemisphere letter ending a longitude text: "E" or "W" when the text
      ends in one, "" otherwise. */
  function LonLetter(lon: string): (h: string)
    ensures h == "E" || h == "W" || h == ""
    ensures h != "" <==> |lon| > 0 && (lon[|lon| - 1] == 'E' || lon[|lon| - 1] == 'W')
    ensures h != "" ==> h == [lon[|lon| - 1]]
  {
    if |lon| > 0 && (lon[|lon| - 1] == 'E' || lon[|lon| - 1] == 'W') then [lon[|lon| - 1]] else ""
  }

  /** The number part of a longitude text: the text without its letter. */
  function LonNumber(lon: string): (n: string)
    ensures n + LonLetter(lon) == lon
  {
    lon[..|lon| - |LonLetter(lon)|]
  }

  /** `myLatLon(lat, lon)`: split a trailing E or W off the longitude text,
      read the number with `parseFloat` (Python's `float()`), normalise, and
      build the position. */
  function MyLatLon(parseFloat: string -> Option<real>, lat: string, lon: string): (r: Result<Position>)
    ensures lon == [] ==> r == Err(IndexError("string index out of range"))
    ensures lon != [] && parseFloat(LonNumber(lon)).None? ==>
              r == Err(ValueError("could not convert string to float: " + LonNumber(lon)))
    ensures lon != [] && parseFloat(LonNumber(lon)).Some? ==>
              var l := NormalizeLongitude(Longitude(parseFloat(LonNumber(lon)).value, LonLetter(lon)));
              (l.Err? ==> r == Err(l.error)) && (l.Ok? ==> r == Ok(Position(lat, l.value)))
    ensures r.Ok? ==> r.value.lat == lat && r.value.lon.degrees <= 180.0
    ensures r.Ok? ==> var h := r.value.lon.hemisphere; h == "E" || h == "W" || h == ""
  {
    if |lon| == 0 then Err(IndexError("string index out of range"))
    else
      var last := lon[|lon| - 1];
      var number, letter := if last == 'E' || last == 'W' then lon[..|lon| - 1] else lon,
                            if last == 'E' || last == 'W' then [last] else "";
      assert number == LonNumber(lon) && letter == LonLetter(lon);
      match parseFloat(number)
      case None => Err(ValueError("could not convert string to float: " + number))
      case Some(v) =>
        match NormalizeLongitude(Longitude(v, letter))
        case Err(e) => Err(e)
        case Ok(l) => Ok(Position(lat, l))
  }

  /** The doc-string example: "358.0W" and "2.0E" denote the same position. */
  lemma MyLatLonWrapsWest(parseFloat: string -> Option<real>)
    requires parseFloat("358.0") == Some(358.0) && parseFloat("2.0") == Some(2.0)
    ensures MyLatLon(parseFloat, "45.1N", "358.0W") == MyLatLon(parseFloat, "45.1N", "2.0E")
    ensures MyLatLon(parseFloat, "45.1N", "2.0E") == Ok(Position("45.1N", Longitude(2.0, "E")))
  {
    assert "358.0W"[..5] == "358.0";
    assert "2.0E"[..3] == "2.0";
  }

  /** An initial compass bearing, in degrees clockwise from north. */
  type Bearing = d: real | 0.0 <= d < 360.0

  /** A geodesic length in metres. */
  type Meters = d: real | 0.0 <= d

  /** The foreign geodesy: `distanceTo` and `bearingTo` between two positions,
      each `None` where the library raises ValueError (for instance on
      coincident points). */
  datatype Earth = Earth(
    distance: (Position, Position) -> Option<Meters>,
    bearing: (Position, Position) -> Option<Bearing>)
}
