/** `data/coordinates.js` and `data/env_variables.js`: the start-up checks
    on the configured coordinate. Each module throws when loaded with a bad
    environment; the thrown error is the `Failure` here. */
module Coordinates {
  import opened Wrappers
  import opened Js
  import opened JsNumber

  datatype CoordinateError = MissingCoordinates | InvalidCoordinates | MissingLocationLabel {
    function Message(): string {
      match this
      case MissingCoordinates =>
        "LATITUDE and LONGITUDE must be set in environment variables. Check your .env file."
      case InvalidCoordinates =>
        "Invalid coordinates: LATITUDE must be between -90 and 90, LONGITUDE between -180 and 180. Please check your .env file."
      case MissingLocationLabel => "Please add a LOCATION_LABEL to your .env file."
    }
  }

  /** `lat < -90 || lat > 90 || lon < -180 || lon > 180` on the unconverted
      strings, each compared after ToNumber. */
  predicate OutOfRange(lat: string, lon: string) {
    var x, y := ToNumber(lat), ToNumber(lon);
    LessThan(x, -90.0) || GreaterThan(x, 90.0) || LessThan(y, -180.0) || GreaterThan(y, 180.0)
  }

  /** The exports of `data/coordinates.js`: the two strings as given. */
  function CheckCoordinates(env: Env): (r: Result<Coordinate, CoordinateError>)
    ensures r.Success? ==> Lookup(env, "LATITUDE") == Some(r.value.lat) && Lookup(env, "LONGITUDE") == Some(r.value.lon)
  {
    var lat, lon := Lookup(env, "LATITUDE"), Lookup(env, "LONGITUDE");
    if !Truthy(lat) || !Truthy(lon) then Failure(MissingCoordinates)
    else if OutOfRange(lat.value, lon.value) then Failure(InvalidCoordinates)
    else Success(Coordinate(lat.value, lon.value))
  }

  datatype Coordinate = Coordinate(lat: string, lon: string)

  datatype EnvValues = EnvValues(lat: string, lon: string, location: Option<string>)

  /** The exports of `data/env_variables.js`, including its final `!lat`
      check as written. */
  function CheckEnvVariables(env: Env): (r: Result<EnvValues, CoordinateError>)
    ensures r.Success? ==> r.value.location == Lookup(env, "LOCATION")
  {
    var lat, lon, location := Lookup(env, "LATITUDE"), Lookup(env, "LONGITUDE"), Lookup(env, "LOCATION");
    if !Truthy(lat) || !Truthy(lon) then Failure(MissingCoordinates)
    else if OutOfRange(lat.value, lon.value) then Failure(InvalidCoordinates)
    else if !Truthy(lat) then Failure(MissingLocationLabel)
    else Success(EnvValues(lat.value, lon.value, location))
  }

  /** An unset or empty coordinate is rejected before the range check. */
  lemma MissingIsRejected(env: Env)
    ensures !Truthy(Lookup(env, "LATITUDE")) || !Truthy(Lookup(env, "LONGITUDE")) <==>
              CheckCoordinates(env) == Failure(MissingCoordinates)
  {
  }

  /** For numeric values the check accepts exactly the closed ranges
      [-90, 90] and [-180, 180]. */
  lemma RangeIsInclusive(env: Env, x: real, y: real)
    requires Truthy(Lookup(env, "LATITUDE")) && Truthy(Lookup(env, "LONGITUDE"))
    requires ToNumber(env["LATITUDE"]) == Finite(x) && ToNumber(env["LONGITUDE"]) == Finite(y)
    ensures CheckCoordinates(env).Success? <==> -90.0 <= x <= 90.0 && -180.0 <= y <= 180.0
  {
  }

  /** A coordinate written the usual way, a north latitude `a.b` and a
      west longitude `-c.e`, is accepted exactly when the latitude is at
      most 90 and the longitude at least -180. */
  lemma {:induction false} DecimalCoordinatesRange(env: Env, a: string, b: string, c: string, e: string)
    requires AllDigitsIn(a, 10) && AllDigitsIn(b, 10) && (a != [] || b != [])
    requires AllDigitsIn(c, 10) && AllDigitsIn(e, 10) && (c != [] || e != [])
    requires "LATITUDE" in env && env["LATITUDE"] == a + "." + b
    requires "LONGITUDE" in env && env["LONGITUDE"] == "-" + c + "." + e
    ensures CheckCoordinates(env).Success? <==> DecimalValue(a, b) <= 90.0 && DecimalValue(c, e) <= 180.0
  {
    var x, y := DecimalValue(a, b), DecimalValue(c, e);
    DecimalConversions(a + "." + b, "-" + c + "." + e, a, b, c, e);
    assert x >= 0.0 && y >= 0.0;
    RangeIsInclusive(env, x, -y);
  }

  /** What the two written coordinates convert to. */
  lemma {:induction false} DecimalConversions(lat: string, lon: string, a: string, b: string, c: string, e: string)
    requires AllDigitsIn(a, 10) && AllDigitsIn(b, 10) && (a != [] || b != [])
    requires AllDigitsIn(c, 10) && AllDigitsIn(e, 10) && (c != [] || e != [])
    requires lat == a + "." + b && lon == "-" + c + "." + e
    ensures lat != "" && lon != ""
    ensures ToNumber(lat) == Finite(DecimalValue(a, b)) && ToNumber(lon) == Finite(-DecimalValue(c, e))
  {
    ToNumberOfDecimal(a, b);
    ToNumberOfDecimal(c, e);
    assert lat[|a|] == '.' && lon[0] == '-';
  }

  /** A value that does not convert to a number is never out of range, so
      it is accepted as long as it is non-empty. */
  lemma NonNumbersPass(env: Env)
    requires Truthy(Lookup(env, "LATITUDE")) && Truthy(Lookup(env, "LONGITUDE"))
    requires ToNumber(env["LATITUDE"]) == NaN && ToNumber(env["LONGITUDE"]) == NaN
    ensures CheckCoordinates(env) == Success(Coordinate(env["LATITUDE"], env["LONGITUDE"]))
  {
  }

  /** A blank but non-empty coordinate such as " " converts to 0 and passes
      both checks. */
  lemma BlankCoordinatesPass(env: Env, w: string)
    requires w != [] && AllWhite(w)
    ensures CheckCoordinates(env["LATITUDE" := w]["LONGITUDE" := w]) == Success(Coordinate(w, w))
  {
    ToNumberOfBlank(w);
    var e := env["LATITUDE" := w]["LONGITUDE" := w];
    assert Lookup(e, "LATITUDE") == Some(w) && Lookup(e, "LONGITUDE") == Some(w);
  }

  /** The two modules make the same decision on the coordinate, and the
      `LOCATION_LABEL` error can never be raised: its condition was already
      rejected by the first check. */
  lemma EnvVariablesAgree(env: Env)
    ensures CheckEnvVariables(env) != Failure(MissingLocationLabel)
    ensures CheckEnvVariables(env).Failure? <==> CheckCoordinates(env).Failure?
    ensures CheckEnvVariables(env).Failure? ==> CheckEnvVariables(env).error == CheckCoordinates(env).error
    ensures CheckEnvVariables(env).Success? ==>
              && CheckEnvVariables(env).value.lat == CheckCoordinates(env).value.lat
              && CheckEnvVariables(env).value.lon == CheckCoordinates(env).value.lon
  {
  }
}
