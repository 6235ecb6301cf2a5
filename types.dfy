/**
 * The record shapes shared by the discovery and story services: a query
 * location, a point of interest, a chat message and the story payload,
 * plus the Option and Result wrappers the model uses for JavaScript's
 * `undefined` and for thrown errors.
 */
module Types {

  datatype Option<T> = None | Some(value: T)

  /** A value, or the message of an error the source throws. */
  datatype Result<T> = Ok(value: T) | Err(message: string)

  /** A WGS84 position in decimal degrees. */
  datatype Location = Location(latitude: real, longitude: real)

  /**
   * A point of interest. `id` is the decimal form of the OSM element id;
   * `distance` is optional in the record type, and every POI built by
   * discovery carries a whole number of metres.
   */
  datatype Poi = Poi(
    id: string,
    name: string,
    poiType: string,
    latitude: real,
    longitude: real,
    distance: Option<int>)

  datatype Role = User | Assistant

  datatype Message = Message(role: Role, content: string)

  /**
   * What a story request returns. `nextDestination` is `None` where the
   * source leaves it `undefined` (an empty selection).
   */
  datatype StoryResponse = StoryResponse(
    selectedPois: seq<Poi>,
    story: string,
    nextDestination: Option<Poi>)

  function Min(a: int, b: int): int {
    if a <= b then a else b
  }

  /** `xs.slice(0, k)` for a non-negative `k`. */
  function Take<T>(xs: seq<T>, k: nat): (r: seq<T>)
    ensures |r| == Min(k, |xs|) && r == xs[..|r|]
  {
    xs[..Min(k, |xs|)]
  }
}
