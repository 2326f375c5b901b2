/**
 * What both variants take from the reverse geocoder's first result, and the label they build
 * from it.  The geocoder itself is an oracle: a function from the coordinate to the address
 * components of its first result, `None` when the call raised, returned no result, or the first
 * result had no components.
 */
module Geocoding {

  import opened Wrappers
  import opened Coordinates

  /** The address components the engine reads; `None` for a key the result does not carry. */
  datatype Components = Components(
    city: Option<string>,
    town: Option<string>,
    village: Option<string>,
    municipality: Option<string>,
    state: Option<string>)

  type Geocoder = Coord -> Option<Components>

  /** Python truthiness of an optional string: present and non-empty. */
  predicate Truthy(s: Option<string>) {
    s.Some? && s.value != ""
  }

  /**
   * `city or town or village or municipality`, kept only when truthy: the first non-empty of the
   * four, in that order.
   */
  function CityOf(c: Components): (city: Option<string>)
    ensures city.Some? <==> Truthy(c.city) || Truthy(c.town) || Truthy(c.village) || Truthy(c.municipality)
    ensures Truthy(c.city) ==> city == c.city
    ensures !Truthy(c.city) && Truthy(c.town) ==> city == c.town
    ensures !Truthy(c.city) && !Truthy(c.town) && Truthy(c.village) ==> city == c.village
    ensures !Truthy(c.city) && !Truthy(c.town) && !Truthy(c.village) && Truthy(c.municipality) ==> city == c.municipality
    ensures city.Some? ==> city.value != ""
  {
    if Truthy(c.city) then c.city
    else if Truthy(c.town) then c.town
    else if Truthy(c.village) then c.village
    else if Truthy(c.municipality) then c.municipality
    else None
  }

  /** The (city, state) pair a geocoder answer yields when both are present and non-empty. */
  function CityState(answer: Option<Components>): (r: Option<(string, string)>)
    ensures r.Some? <==> answer.Some? && CityOf(answer.value).Some? && Truthy(answer.value.state)
    ensures r.Some? ==> r.value == (CityOf(answer.value).value, answer.value.state.value)
    ensures r.Some? ==> r.value.0 != "" && r.value.1 != ""
  {
    if answer.None? then None
    else
      match (CityOf(answer.value), answer.value.state)
      case (Some(city), Some(state)) => if state != "" then Some((city, state)) else None
      case _ => None
  }

  /** `f"{city} - {state}"`. */
  function Label(city: string, state: string): (text: string)
    ensures |text| == |city| + 3 + |state|
    ensures text[..|city|] == city && text[|city|..|city| + 3] == " - " && text[|city| + 3..] == state
  {
    city + " - " + state
  }

  /** A composed label always contains a space. */
  lemma LabelHasSpace(city: string, state: string)
    ensures ' ' in Label(city, state)
  {
    assert Label(city, state)[|city|] == ' ';
  }

  /**
   * A geocoded label never equals either variant's "no location" sentinel, so files in a
   * geocoded bucket are never mistaken for unresolved ones.
   */
  lemma LabelIsNeverSentinel(city: string, state: string)
    ensures Label(city, state) != "No_Location"
    ensures Label(city, state) != "Sin_Ubicacion"
  {
    LabelHasSpace(city, state);
    assert ' ' !in "No_Location";
    assert ' ' !in "Sin_Ubicacion";
  }
}
