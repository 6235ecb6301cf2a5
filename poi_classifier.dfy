/**
 * Turning raw OpenStreetMap elements into points of interest, and the
 * five-rule filter applied to them before sorting.
 *
 * Coordinates use JavaScript truthiness: a number is usable when it is
 * present and not zero, so an element lying exactly on the equator or on
 * the prime meridian is treated as having no coordinate.
 */
module PoiClassifier {
  import opened Types
  import opened JsText

  datatype Centre = Centre(lat: real, lon: real)

  /**
   * An element of an Overpass reply. Nodes carry `lat`/`lon`; ways and
   * relations carry a computed `center`. A missing `tags` object behaves
   * exactly like an empty map in every rule below, so it is one.
   */
  datatype RawElement = RawElement(
    id: int,
    kind: string,
    lat: Option<real>,
    lon: Option<real>,
    center: Option<Centre>,
    tags: map<string, string>)

  /** Great-circle distance in metres from (lat1, lon1) to (lat2, lon2). */
  type Haversine = (real, real, real, real) -> real

  const ExcludedTypes: seq<string> := [
    "traffic_signals", "crossing", "street_lamp", "tree", "waste_basket",
    "post_box", "bollard", "bench", "recycling", "bicycle_parking",
    "surveillance", "parking", "parking_entrance", "parking_space",
    "car_sharing", "bus_stop", "restaurant", "fast_food", "house",
    "residential"]

  const ValuableAmenities: seq<string> := [
    "cafe", "pub", "bar", "tourist_attraction", "poi", "poi_category",
    "monument", "historic", "park", "church", "cinema", "theatre", "museum",
    "library", "marketplace", "arts_centre", "fountain", "nightclub",
    "gallery"]

  /** The tag keys that decide a POI's type, highest priority first. */
  const TypePriority: seq<string> := [
    "shop", "tourism", "amenity", "historic", "leisure", "natural",
    "man_made", "memorial"]

  /** `element.tags?.[key]`, with the falsy cases (absent or "") read as "". */
  function Tag(tags: map<string, string>, key: string): string {
    if key in tags then tags[key] else ""
  }

  /** Truthiness of an optional JavaScript number. */
  predicate Truthy(x: Option<real>) {
    x.Some? && x.value != 0.0
  }

  /** `element.lat || (element.center && element.center.lat)` */
  function ResolvedLat(e: RawElement): Option<real> {
    if Truthy(e.lat) then e.lat
    else match e.center
      case None => None
      case Some(c) => Some(c.lat)
  }

  /** `element.lon || (element.center && element.center.lon)` */
  function ResolvedLon(e: RawElement): Option<real> {
    if Truthy(e.lon) then e.lon
    else match e.center
      case None => None
      case Some(c) => Some(c.lon)
  }

  /** `Math.round(x)`: halves go up, towards positive infinity. */
  function Round(x: real): (n: int)
    ensures n as real - 0.5 <= x < n as real + 0.5
  {
    (x + 0.5).Floor
  }

  /** The tag-priority chain that gives a POI its single type. */
  function Classify(tags: map<string, string>): string {
    if Tag(tags, "shop") != "" then Tag(tags, "shop")
    else if Tag(tags, "tourism") != "" then Tag(tags, "tourism")
    else if Tag(tags, "amenity") != "" then Tag(tags, "amenity")
    else if Tag(tags, "historic") != "" then Tag(tags, "historic")
    else if Tag(tags, "leisure") != "" then Tag(tags, "leisure")
    else if Tag(tags, "natural") != "" then Tag(tags, "natural")
    else if Tag(tags, "man_made") != "" then Tag(tags, "man_made")
    else if Tag(tags, "memorial") != "" then Tag(tags, "memorial")
    else "unknown"
  }

  /** Reference definition: the value of the first key whose tag is non-empty. */
  function FirstTruthyTag(tags: map<string, string>, keys: seq<string>): (r: string)
    ensures
      || (exists i :: 0 <= i < |keys| && Tag(tags, keys[i]) != "" && r == Tag(tags, keys[i])
            && forall j :: 0 <= j < i ==> Tag(tags, keys[j]) == "")
      || (r == "unknown" && forall i :: 0 <= i < |keys| ==> Tag(tags, keys[i]) == "")
  {
    if keys == [] then "unknown"
    else if Tag(tags, keys[0]) != "" then Tag(tags, keys[0])
    else
      var r := FirstTruthyTag(tags, keys[1..]);
      assert forall i :: 1 <= i < |keys| ==> keys[i] == keys[1..][i - 1];
      r
  }

  /** The if-chain is the first-truthy-tag rule over the priority list. */
  lemma ClassifyByPriority(tags: map<string, string>)
    ensures Classify(tags) == FirstTruthyTag(tags, TypePriority)
  {
    ClassifyIsChain(tags);
    PriorityFrom(tags, 0);
    assert TypePriority[0..] == TypePriority;
  }

  /** `Classify` spelled out is the chain over `TypePriority`. */
  lemma ClassifyIsChain(tags: map<string, string>)
    ensures Classify(tags) == ClassifyFrom(tags, 0)
  {
    var ks := TypePriority;
    assert ks[0] == "shop" && ks[1] == "tourism" && ks[2] == "amenity" && ks[3] == "historic";
    assert ks[4] == "leisure" && ks[5] == "natural" && ks[6] == "man_made" && ks[7] == "memorial";
  }

  /** The chain from position `i` on is the first-truthy-tag rule over the rest of the list. */
  lemma {:induction false} PriorityFrom(tags: map<string, string>, i: nat)
    requires i <= |TypePriority|
    ensures FirstTruthyTag(tags, TypePriority[i..]) == ClassifyFrom(tags, i)
    decreases |TypePriority| - i
  {
    if i < |TypePriority| {
      PriorityFrom(tags, i + 1);
      assert TypePriority[i..][1..] == TypePriority[i + 1..];
    }
  }

  /** `Classify` with its first `i` priority tests already failed. */
  function ClassifyFrom(tags: map<string, string>, i: nat): string
    requires i <= |TypePriority|
    decreases |TypePriority| - i
  {
    if i == |TypePriority| then "unknown"
    else if Tag(tags, TypePriority[i]) != "" then Tag(tags, TypePriority[i])
    else ClassifyFrom(tags, i + 1)
  }

  function SynthesisedName(poiType: string, distance: int): string {
    poiType + " at " + IntToString(distance) + "m"
  }

  /** `tags.name || tags.operator || `${type} at ${distance}m`` */
  function PoiName(tags: map<string, string>, poiType: string, distance: int): (r: string)
    ensures Tag(tags, "name") != "" ==> r == Tag(tags, "name")
    ensures Tag(tags, "name") == "" && Tag(tags, "operator") != "" ==> r == Tag(tags, "operator")
    ensures Tag(tags, "name") == "" && Tag(tags, "operator") == "" ==> r == SynthesisedName(poiType, distance)
  {
    if Tag(tags, "name") != "" then Tag(tags, "name")
    else if Tag(tags, "operator") != "" then Tag(tags, "operator")
    else SynthesisedName(poiType, distance)
  }

  /**
   * The `map` callback: `None` where the source returns `null` for an
   * element without a usable coordinate.
   */
  function ToPoi(origin: Location, e: RawElement, distance: Haversine): (r: Option<Poi>)
    ensures r.Some? <==>
      && ((e.lat.Some? && e.lat.value != 0.0) || (e.center.Some? && e.center.value.lat != 0.0))
      && ((e.lon.Some? && e.lon.value != 0.0) || (e.center.Some? && e.center.value.lon != 0.0))
    ensures r.Some? ==>
      && r.value.latitude == (if e.lat.Some? && e.lat.value != 0.0 then e.lat.value else e.center.value.lat)
      && r.value.longitude == (if e.lon.Some? && e.lon.value != 0.0 then e.lon.value else e.center.value.lon)
      && r.value.latitude != 0.0 && r.value.longitude != 0.0
      && r.value.id == IntToString(e.id)
      && r.value.poiType == FirstTruthyTag(e.tags, TypePriority)
      && r.value.distance == Some(Round(distance(origin.latitude, origin.longitude, r.value.latitude, r.value.longitude)))
      && r.value.name == PoiName(e.tags, r.value.poiType, r.value.distance.value)
  {
    var lat := ResolvedLat(e);
    var lon := ResolvedLon(e);
    if !Truthy(lat) || !Truthy(lon) then None
    else
      var d := Round(distance(origin.latitude, origin.longitude, lat.value, lon.value));
      var t := Classify(e.tags);
      ClassifyByPriority(e.tags);
      Some(Poi(IntToString(e.id), PoiName(e.tags, t, d), t, lat.value, lon.value, Some(d)))
  }

  /** `elements.map(toPoi).filter(Boolean)` */
  function MapElements(origin: Location, es: seq<RawElement>, distance: Haversine): (r: seq<Poi>)
    ensures |r| <= |es|
  {
    if es == [] then []
    else
      var rest := MapElements(origin, es[1..], distance);
      match ToPoi(origin, es[0], distance)
      case None => rest
      case Some(p) => [p] + rest
  }

  /** Mapping works element by element: the POIs of `u + v` are those of `u`, then those of `v`. */
  lemma {:induction false} MapElementsAppend(origin: Location, u: seq<RawElement>, v: seq<RawElement>, distance: Haversine)
    ensures MapElements(origin, u + v, distance) == MapElements(origin, u, distance) + MapElements(origin, v, distance)
  {
    if u != [] {
      assert (u + v)[1..] == u[1..] + v;
      MapElementsAppend(origin, u[1..], v, distance);
    } else {
      assert u + v == v;
    }
  }

  /** A single element maps to its POI, or to nothing when it has no usable coordinate. */
  lemma MapElementsOne(origin: Location, e: RawElement, distance: Haversine)
    ensures MapElements(origin, [e], distance) == match ToPoi(origin, e, distance)
      case None => []
      case Some(p) => [p]
  {
  }

  /** Every mapped POI is the POI of one of the elements. */
  lemma {:induction false} MappedFromElements(origin: Location, es: seq<RawElement>, distance: Haversine)
    ensures forall p :: p in MapElements(origin, es, distance) ==>
      exists e :: e in es && ToPoi(origin, e, distance) == Some(p)
  {
    if es != [] {
      MappedFromElements(origin, es[1..], distance);
      assert forall e :: e in es[1..] ==> e in es;
    }
  }

  /** Every element with a usable coordinate contributes its POI. */
  lemma {:induction false} MappedKeepsEvery(origin: Location, es: seq<RawElement>, distance: Haversine)
    ensures forall e :: e in es && ToPoi(origin, e, distance).Some? ==>
      ToPoi(origin, e, distance).value in MapElements(origin, es, distance)
  {
    if es != [] {
      MappedKeepsEvery(origin, es[1..], distance);
      assert forall e :: e in es ==> e == es[0] || e in es[1..];
    }
  }

  /** `elements.find(e => e.id.toString() === id)`: the FIRST element with that id string. */
  function FindById(es: seq<RawElement>, id: string): (r: Option<RawElement>)
    ensures r.None? <==> forall k :: 0 <= k < |es| ==> IntToString(es[k].id) != id
    ensures r.Some? ==> exists k :: 0 <= k < |es| && es[k] == r.value && IntToString(es[k].id) == id
                                     && forall j :: 0 <= j < k ==> IntToString(es[j].id) != id
  {
    if es == [] then None
    else if IntToString(es[0].id) == id then Some(es[0])
    else
      var r := FindById(es[1..], id);
      assert forall k :: 1 <= k < |es| ==> es[k] == es[1..][k - 1];
      r
  }

  /** `building` is "house" or "residential", or `residential` is "yes". */
  predicate ResidentialBuilding(e: RawElement) {
    Tag(e.tags, "building") == "house" || Tag(e.tags, "building") == "residential"
    || Tag(e.tags, "residential") == "yes"
  }

  /** The building check, made against the first element whose id matches. */
  predicate MarkedResidential(es: seq<RawElement>, p: Poi) {
    match FindById(es, p.id)
    case None => false
    case Some(e) => ResidentialBuilding(e)
  }

  /**
   * The filter callback, one rule per `return false`. Since "house" and
   * "residential" are excluded types and "amenity" is not a valuable
   * amenity, a POI passes exactly when it meets the five rules below.
   */
  predicate Keep(es: seq<RawElement>, p: Poi): (r: bool)
    ensures r <==>
      && Trim(p.name) != ""
      && p.poiType !in ExcludedTypes
      && !MarkedResidential(es, p)
      && p.poiType != "amenity"
      && |Trim(RemoveDigits(p.name))| > 2
  {
    assert "house" == ExcludedTypes[18] && "residential" == ExcludedTypes[19];
    assert "amenity" !in ValuableAmenities;
    if Trim(p.name) == "" then false
    else if p.poiType in ExcludedTypes then false
    else if p.poiType == "house" || p.poiType == "residential" then false
    else if MarkedResidential(es, p) then false
    else if p.poiType == "amenity" && p.poiType !in ValuableAmenities then false
    else |Trim(RemoveDigits(p.name))| > 2
  }

  /** `pois.filter(keep)` */
  function FilterPois(es: seq<RawElement>, ps: seq<Poi>): (r: seq<Poi>)
    ensures |r| <= |ps|
    ensures forall p :: p in r <==> p in ps && Keep(es, p)
  {
    if ps == [] then []
    else
      var rest := FilterPois(es, ps[1..]);
      assert forall p :: p in ps <==> p == ps[0] || p in ps[1..];
      if Keep(es, ps[0]) then [ps[0]] + rest else rest
  }

  /** The filter works POI by POI, keeping their order: filtering `u + v` filters `u`, then `v`. */
  lemma {:induction false} FilterPoisAppend(es: seq<RawElement>, u: seq<Poi>, v: seq<Poi>)
    ensures FilterPois(es, u + v) == FilterPois(es, u) + FilterPois(es, v)
  {
    if u != [] {
      assert (u + v)[1..] == u[1..] + v;
      FilterPoisAppend(es, u[1..], v);
    } else {
      assert u + v == v;
    }
  }

  /** A single POI is kept exactly when it passes. */
  lemma FilterPoisOne(es: seq<RawElement>, p: Poi)
    ensures FilterPois(es, [p]) == if Keep(es, p) then [p] else []
  {
  }

  /**
   * The amenity rule compares the derived type, not the amenity tag, with
   * the allow-list; "amenity" is not on it, so the rule rejects exactly
   * the POIs typed "amenity" and admits everything else.
   */
  lemma AmenityRuleRejectsExactlyAmenity(t: string)
    ensures (t == "amenity" && t !in ValuableAmenities) <==> t == "amenity"
  {
    assert "amenity" !in ValuableAmenities;
  }

  /** Removing the digits of a synthesised name removes them from its type and its number only. */
  lemma StrippedSynthesisedName(poiType: string, distance: int)
    ensures RemoveDigits(SynthesisedName(poiType, distance))
         == RemoveDigits(poiType) + " at " + RemoveDigits(IntToString(distance)) + "m"
  {
    var digits := IntToString(distance);
    RemoveDigitsAppend(poiType + " at " + digits, "m");
    RemoveDigitsAppend(poiType + " at ", digits);
    RemoveDigitsAppend(poiType, " at ");
    assert RemoveDigits(" at ") == " at ";
    assert RemoveDigits("m") == "m";
  }

  /** A synthesised name always satisfies both name rules. */
  lemma SynthesisedNamePassesNameRules(poiType: string, distance: int)
    ensures Trim(SynthesisedName(poiType, distance)) != ""
    ensures |Trim(RemoveDigits(SynthesisedName(poiType, distance)))| > 2
  {
    TrimAtLeastFour(poiType, IntToString(distance), 'm');
    StrippedSynthesisedName(poiType, distance);
    TrimAtLeastFour(RemoveDigits(poiType), RemoveDigits(IntToString(distance)), 'm');
  }

  /** With a non-negative distance oracle every mapped POI lies a non-negative whole number of metres away. */
  lemma MappedDistancesNonNegative(origin: Location, es: seq<RawElement>, distance: Haversine)
    requires forall a, b, c, d :: distance(a, b, c, d) >= 0.0
    ensures forall p :: p in MapElements(origin, es, distance) ==> p.distance.Some? && p.distance.value >= 0
  {
    MappedFromElements(origin, es, distance);
    forall p | p in MapElements(origin, es, distance)
      ensures p.distance.Some? && p.distance.value >= 0
    {
      var e :| e in es && ToPoi(origin, e, distance) == Some(p);
      var lat, lon := ResolvedLat(e), ResolvedLon(e);
      assert p.distance == Some(Round(distance(origin.latitude, origin.longitude, lat.value, lon.value)));
    }
  }
}
