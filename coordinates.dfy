/**
 * The coordinate converter: EXIF GPS tags (rational degree/minute/second triples and a
 * hemisphere reference) to a signed decimal (latitude, longitude) pair.  Python floats are
 * modelled as reals.
 */
module Coordinates {

  import opened Wrappers

  /** A (latitude, longitude) pair in signed decimal degrees. */
  datatype Coord = Coord(lat: real, lon: real)

  /** An EXIF rational as exifread exposes it: `num` over `den`. */
  datatype Rational = Rational(num: int, den: int)

  /**
   * The GPS tags `parse_gps_info` looks up: the value lists of `GPSLatitude` and `GPSLongitude`
   * and the printable text of `GPSLatitudeRef` and `GPSLongitudeRef`; `None` for a missing tag.
   */
  datatype GpsTags = GpsTags(
    latitude: Option<seq<Rational>>,
    latitudeRef: Option<string>,
    longitude: Option<seq<Rational>>,
    longitudeRef: Option<string>)

  /** Degrees plus minutes/60 plus seconds/3600, before any hemisphere sign. */
  function Magnitude(degrees: real, minutes: real, seconds: real): real {
    degrees + minutes / 60.0 + seconds / 3600.0
  }

  predicate IsSouthOrWest(direction: string) {
    direction == "S" || direction == "W"
  }

  /**
   * `dms2dd`: the sum d + m/60 + s/3600, negated when the direction is "S" or "W"; every other
   * token (including "N", "E", lower case and the empty string) leaves it as it is.
   */
  function Dms2Dd(degrees: real, minutes: real, seconds: real, direction: string): (dd: real)
    ensures dd == Magnitude(degrees, minutes, seconds) || dd == -Magnitude(degrees, minutes, seconds)
    ensures Magnitude(degrees, minutes, seconds) != 0.0 ==>
              (dd == -Magnitude(degrees, minutes, seconds) <==> IsSouthOrWest(direction))
  {
    var dd := degrees + minutes / 60.0 + seconds / 3600.0;
    if direction in ["S", "W"] then -dd else dd
  }

  /**
   * With non-negative components the sign of the result is decided by the hemisphere alone:
   * never positive for "S"/"W", never negative otherwise, and its size is always the sum.
   */
  lemma SignFollowsHemisphere(degrees: real, minutes: real, seconds: real, direction: string)
    requires degrees >= 0.0 && minutes >= 0.0 && seconds >= 0.0
    ensures IsSouthOrWest(direction) ==> Dms2Dd(degrees, minutes, seconds, direction) <= 0.0
    ensures !IsSouthOrWest(direction) ==> Dms2Dd(degrees, minutes, seconds, direction) >= 0.0
    ensures Dms2Dd(degrees, minutes, seconds, direction) == Dms2Dd(degrees, minutes, seconds, "N")
            || Dms2Dd(degrees, minutes, seconds, direction) == -Dms2Dd(degrees, minutes, seconds, "N")
  {
  }

  /** South mirrors north and west mirrors east; an unknown token behaves like north. */
  lemma HemispheresMirror(degrees: real, minutes: real, seconds: real, other: string)
    requires !IsSouthOrWest(other)
    ensures Dms2Dd(degrees, minutes, seconds, "S") == -Dms2Dd(degrees, minutes, seconds, "N")
    ensures Dms2Dd(degrees, minutes, seconds, "W") == -Dms2Dd(degrees, minutes, seconds, "E")
    ensures Dms2Dd(degrees, minutes, seconds, other) == Dms2Dd(degrees, minutes, seconds, "N")
  {
  }

  /** Two worked values: 10 degrees 30 minutes south is -10.5; the origin stays 0. */
  lemma Dms2DdExamples()
    ensures Dms2Dd(10.0, 30.0, 0.0, "S") == -10.5
    ensures Dms2Dd(0.0, 0.0, 0.0, "N") == 0.0
    ensures Dms2Dd(0.0, 0.0, 0.0, "S") == 0.0
    ensures Dms2Dd(0.0, 0.0, 0.0, "E") == 0.0
    ensures Dms2Dd(0.0, 0.0, 0.0, "W") == 0.0
  {
  }

  /** Python's `float(r.num) / float(r.den)`; `None` where the division raises. */
  function RationalValue(r: Rational): (v: Option<real>)
    ensures v.Some? <==> r.den != 0
    ensures v.Some? ==> v.value * (r.den as real) == r.num as real
  {
    if r.den == 0 then None else Some(r.num as real / r.den as real)
  }

  /**
   * `extract_dms`: the first three rationals as (d, m, s).  `None` stands for the exception the
   * code raises on a list shorter than three or a zero denominator.
   */
  function ExtractDms(values: seq<Rational>): (r: Option<(real, real, real)>)
    ensures r.Some? <==> |values| >= 3 && values[0].den != 0 && values[1].den != 0 && values[2].den != 0
    ensures r.Some? ==> r.value == (RationalValue(values[0]).value, RationalValue(values[1]).value,
                                    RationalValue(values[2]).value)
  {
    if |values| < 3 then None
    else match (RationalValue(values[0]), RationalValue(values[1]), RationalValue(values[2]))
      case (Some(d), Some(m), Some(s)) => Some((d, m, s))
      case _ => None
  }

  /** One coordinate from its value list and hemisphere, the reference defaulting to `fallback`. */
  function Axis(values: seq<Rational>, reference: Option<string>, fallback: string): Option<real> {
    match ExtractDms(values)
    case Some((d, m, s)) => Some(Dms2Dd(d, m, s, reference.GetOr(fallback)))
    case None => None
  }

  /**
   * `parse_gps_info`: a pair only when both `GPSLatitude` and `GPSLongitude` are present and
   * readable; a missing `GPSLatitudeRef` counts as "N" and a missing `GPSLongitudeRef` as "E".
   * Any exception while reading the tags yields `None`.
   */
  function ParseGpsInfo(gps: GpsTags): (r: Option<Coord>)
    ensures r.Some? <==> (&& gps.latitude.Some? && gps.longitude.Some?
                          && ExtractDms(gps.latitude.value).Some?
                          && ExtractDms(gps.longitude.value).Some?)
    ensures r.Some? ==> Some(r.value.lat) == Axis(gps.latitude.value, gps.latitudeRef, "N")
    ensures r.Some? ==> Some(r.value.lon) == Axis(gps.longitude.value, gps.longitudeRef, "E")
  {
    if gps.latitude.None? || gps.longitude.None? then None
    else
      match (Axis(gps.latitude.value, gps.latitudeRef, "N"),
             Axis(gps.longitude.value, gps.longitudeRef, "E"))
      case (Some(lat), Some(lon)) => Some(Coord(lat, lon))
      case _ => None
  }

  /**
   * Without reference tags the pair lies in the north-eastern quadrant: a missing reference is
   * "N" for the latitude and "E" for the longitude, neither of which negates.
   */
  lemma MissingReferencesMeanNorthEast(gps: GpsTags)
    requires gps.latitudeRef.None? && gps.longitudeRef.None?
    requires gps.latitude.Some? && gps.longitude.Some?
    requires forall r | r in gps.latitude.value + gps.longitude.value :: r.num >= 0 && r.den > 0
    requires ParseGpsInfo(gps).Some?
    ensures ParseGpsInfo(gps).value.lat >= 0.0 && ParseGpsInfo(gps).value.lon >= 0.0
  {
    var lat, lon := gps.latitude.value, gps.longitude.value;
    assert lat[0] in lat + lon && lat[1] in lat + lon && lat[2] in lat + lon;
    assert lon[0] in lat + lon && lon[1] in lat + lon && lon[2] in lat + lon;
    NonNegativeDms(lat);
    NonNegativeDms(lon);
  }

  /** Non-negative rationals give non-negative (d, m, s). */
  lemma NonNegativeDms(values: seq<Rational>)
    requires |values| >= 3
    requires forall i | 0 <= i < 3 :: values[i].num >= 0 && values[i].den > 0
    ensures ExtractDms(values).Some?
    ensures var (d, m, s) := ExtractDms(values).value; d >= 0.0 && m >= 0.0 && s >= 0.0
  {
    assert values[0].num >= 0 && values[0].den > 0;
    assert values[1].num >= 0 && values[1].den > 0;
    assert values[2].num >= 0 && values[2].den > 0;
  }

  /** A latitude without a longitude (or the reverse) gives no pair at all. */
  lemma OneAxisIsNotEnough(values: seq<Rational>, reference: Option<string>)
    ensures ParseGpsInfo(GpsTags(Some(values), reference, None, None)).None?
    ensures ParseGpsInfo(GpsTags(None, None, Some(values), reference)).None?
  {
  }
}
