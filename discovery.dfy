/**
 * Radius-expanding discovery: query the Overpass provider at a growing
 * radius until the filtered result is non-empty or the radius passes the
 * ceiling. The provider and the distance formula are parameters: the
 * provider maps a search radius (around a fixed origin) to the elements
 * of its reply, or to a failure (a network error, a non-OK status, a body
 * that is not JSON).
 */
module Discovery {
  import opened Types
  import opened PoiClassifier
  import opened DistanceSort

  const MaxRadius: int := 5000
  const RadiusStep: int := 900
  const DefaultInitialRadius: int := 500

  datatype ProviderReply = ProviderFailed | Elements(elements: seq<RawElement>)

  type Provider = int -> ProviderReply

  /** The POIs for the `elements` of one reply: map, filter, sort, cap. */
  function Pipeline(origin: Location, es: seq<RawElement>, distance: Haversine): seq<Poi> {
    CapResults(SortByDistance(FilterPois(es, MapElements(origin, es, distance))))
  }

  /**
   * Every POI of one reply is built from an element of it and passes the
   * filter; the list is sorted by distance, holds at most 30 POIs, and is
   * the first 30 of the one stable sort of the passing POIs.
   */
  lemma PipelineSound(origin: Location, es: seq<RawElement>, distance: Haversine)
    ensures var r := Pipeline(origin, es, distance);
      && |r| <= MaxResults
      && Sorted(r)
      && (forall p :: p in r ==> Keep(es, p))
      && (forall p :: p in r ==> exists e :: e in es && ToPoi(origin, e, distance) == Some(p))
    ensures forall t :: StablySorted(FilterPois(es, MapElements(origin, es, distance)), t) ==>
      Pipeline(origin, es, distance) == Take(t, MaxResults)
  {
    var passing := FilterPois(es, MapElements(origin, es, distance));
    MappedFromElements(origin, es, distance);
    SortByDistanceMembers(passing);
    forall t | StablySorted(passing, t) ensures Pipeline(origin, es, distance) == Take(t, MaxResults) {
      StableSortIsUnique(passing, t);
    }
  }

  /** `fetchPointsOfInterest(location, radius)`, which rethrows any failure. */
  function FetchPointsOfInterest(origin: Location, radius: int, provider: Provider, distance: Haversine)
    : (r: Result<seq<Poi>>)
    ensures r.Err? <==> provider(radius).ProviderFailed?
  {
    match provider(radius)
    case ProviderFailed => Err("Failed to fetch from Overpass API")
    case Elements(es) => Ok(Pipeline(origin, es, distance))
  }

  /** One query per radius, as the loop sees it. */
  type Fetcher = int -> Result<seq<Poi>>

  /** The queries the loop makes around `origin`. */
  function QueryAt(origin: Location, provider: Provider, distance: Haversine): Fetcher {
    radius => FetchPointsOfInterest(origin, radius, provider, distance)
  }

  /** The query at `radius` succeeded with at least one POI. */
  predicate Found(fetch: Fetcher, radius: int) {
    fetch(radius).Ok? && fetch(radius).value != []
  }

  /** The radii the loop may try from `r` on: r, r + 900, ... while at most 5000. */
  function Radii(r: int): (rs: seq<int>)
    ensures |rs| == if r > MaxRadius then 0 else (MaxRadius - r) / RadiusStep + 1
    ensures forall i :: 0 <= i < |rs| ==> rs[i] == r + RadiusStep * i && rs[i] <= MaxRadius
    decreases MaxRadius - r
  {
    if r > MaxRadius then [] else [r] + Radii(r + RadiusStep)
  }

  /**
   * What the loop returns when started at `radius`: nothing, or the
   * non-empty reply of one of the candidate radii.
   */
  function Discover(fetch: Fetcher, radius: int): (r: seq<Poi>)
    ensures r != [] ==> exists rad :: radius <= rad <= MaxRadius && fetch(rad) == Ok(r)
    decreases MaxRadius - radius
  {
    if radius > MaxRadius then []
    else
      match fetch(radius)
      case Ok(pois) => if pois != [] then pois else Discover(fetch, radius + RadiusStep)
      case Err(_) => Discover(fetch, radius + RadiusStep)
  }

  /**
   * The radii at which the loop calls the provider, in order: a prefix of
   * the candidate radii, so never beyond 5000.
   */
  function Attempts(fetch: Fetcher, radius: int): (r: seq<int>)
    ensures |r| <= |Radii(radius)|
    decreases MaxRadius - radius
  {
    if radius > MaxRadius then []
    else
      assert Radii(radius) == [radius] + Radii(radius + RadiusStep);
      [radius] + (if Found(fetch, radius) then [] else Attempts(fetch, radius + RadiusStep))
  }

  /**
   * `getNearbyPointsOfInterest(location, initialRadius)`. The location
   * reaches the loop only through its queries, so the loop is given them
   * as `fetch`, which the service instantiates with
   * `QueryAt(location, provider, distance)`. `queried` records the radius
   * of every provider call, in order.
   */
  method GetNearbyPointsOfInterest(fetch: Fetcher, initialRadius: int)
    returns (pois: seq<Poi>, ghost queried: seq<int>)
    ensures pois == Discover(fetch, initialRadius)
    ensures queried == Attempts(fetch, initialRadius)
  {
    var radius := initialRadius;
    pois := [];
    queried := [];
    while radius <= MaxRadius
      invariant queried + Attempts(fetch, radius) == Attempts(fetch, initialRadius)
      invariant Discover(fetch, radius) == Discover(fetch, initialRadius)
      invariant pois == []
      decreases MaxRadius - radius
    {
      ghost var before := queried;
      queried := queried + [radius];
      var reply := fetch(radius);
      if reply.Ok? {
        pois := reply.value;
        if |pois| > 0 {
          assert Attempts(fetch, radius) == [radius];
          break;
        }
      }
      // the query failed, leaving `pois` as it was, or came back empty
      assert Attempts(fetch, radius) == [radius] + Attempts(fetch, radius + RadiusStep);
      assert before + ([radius] + Attempts(fetch, radius + RadiusStep))
          == queried + Attempts(fetch, radius + RadiusStep);
      radius := radius + RadiusStep;
    }
  }

  /** The loop calls the provider at a prefix of the candidate radii. */
  lemma {:induction false} AttemptsArePrefixOfRadii(fetch: Fetcher, radius: int)
    ensures Attempts(fetch, radius) == Radii(radius)[..|Attempts(fetch, radius)|]
    decreases MaxRadius - radius
  {
    if radius <= MaxRadius && !Found(fetch, radius) {
      AttemptsArePrefixOfRadii(fetch, radius + RadiusStep);
    }
  }

  /** From the default start of 500 m the candidate radii are 500, 1400, ..., 5000. */
  lemma DefaultRadii()
    ensures Radii(DefaultInitialRadius) == [500, 1400, 2300, 3200, 4100, 5000]
  {
    var rs := Radii(DefaultInitialRadius);
    assert rs[0] == 500 && rs[1] == 1400 && rs[2] == 2300 && rs[3] == 3200 && rs[4] == 4100 && rs[5] == 5000;
  }

  /** With the default start the loop makes at most six provider calls. */
  lemma DefaultRadiusAtMostSixCalls(fetch: Fetcher)
    ensures |Attempts(fetch, DefaultInitialRadius)| <= 6
  {
  }

  /** Every call before the last failed or came back empty. */
  lemma {:induction false} EarlierCallsFoundNothing(fetch: Fetcher, radius: int)
    ensures forall i :: 0 <= i < |Attempts(fetch, radius)| - 1 ==> !Found(fetch, Attempts(fetch, radius)[i])
    decreases MaxRadius - radius
  {
    if radius <= MaxRadius && !Found(fetch, radius) {
      var next := radius + RadiusStep;
      EarlierCallsFoundNothing(fetch, next);
      var att := Attempts(fetch, radius);
      var rest := Attempts(fetch, next);
      assert att == [radius] + rest;
      forall i | 0 <= i < |att| - 1 ensures !Found(fetch, att[i]) {
        if i > 0 {
          assert att[i] == rest[i - 1];
          assert !Found(fetch, rest[i - 1]);
        } else {
          assert att[0] == radius;
        }
      }
    }
  }

  /**
   * The first radius that yields a non-empty list wins: the loop stops
   * there and returns that reply. The result is non-empty exactly when the
   * last call found something.
   */
  lemma {:induction false} FirstNonEmptyWins(fetch: Fetcher, radius: int)
    ensures var att := Attempts(fetch, radius);
      Discover(fetch, radius) != [] <==> (att != [] && Found(fetch, att[|att| - 1]))
    ensures var att := Attempts(fetch, radius);
      Discover(fetch, radius) != [] ==> fetch(att[|att| - 1]) == Ok(Discover(fetch, radius))
    decreases MaxRadius - radius
  {
    if radius <= MaxRadius && !Found(fetch, radius) {
      var next := radius + RadiusStep;
      FirstNonEmptyWins(fetch, next);
      var att := Attempts(fetch, radius);
      var rest := Attempts(fetch, next);
      assert att == [radius] + rest;
      assert Discover(fetch, radius) == Discover(fetch, next);
      if rest != [] {
        assert att[|att| - 1] == rest[|rest| - 1];
      }
    }
  }

  /** If no radius yields anything, every candidate radius is tried and the result is empty. */
  lemma {:induction false} NothingFoundTriesAll(fetch: Fetcher, radius: int)
    ensures Discover(fetch, radius) == [] ==>
      && Attempts(fetch, radius) == Radii(radius)
      && forall i :: 0 <= i < |Radii(radius)| ==> !Found(fetch, Radii(radius)[i])
    decreases MaxRadius - radius
  {
    if radius <= MaxRadius && !Found(fetch, radius) {
      var next := radius + RadiusStep;
      NothingFoundTriesAll(fetch, next);
      assert Discover(fetch, radius) == Discover(fetch, next);
      assert Radii(radius) == [radius] + Radii(next);
      forall i | 0 <= i < |Radii(radius)| && Discover(fetch, radius) == []
        ensures !Found(fetch, Radii(radius)[i])
      {
        if i > 0 {
          assert Radii(radius)[i] == Radii(next)[i - 1];
        }
      }
    }
  }

  /** A provider error is swallowed: the loop moves on to the next radius and keeps no result. */
  lemma ProviderErrorAdvances(origin: Location, radius: int, provider: Provider, distance: Haversine)
    requires radius <= MaxRadius && provider(radius).ProviderFailed?
    ensures var fetch := QueryAt(origin, provider, distance);
      && Discover(fetch, radius) == Discover(fetch, radius + RadiusStep)
      && Attempts(fetch, radius) == [radius] + Attempts(fetch, radius + RadiusStep)
  {
  }

  /** Empty at 500 m and 1400 m, non-empty at 2300 m: three calls, and the 2300 m result. */
  lemma ThirdRadiusScenario(fetch: Fetcher)
    requires !Found(fetch, 500) && !Found(fetch, 1400) && Found(fetch, 2300)
    ensures Attempts(fetch, DefaultInitialRadius) == [500, 1400, 2300]
    ensures Ok(Discover(fetch, DefaultInitialRadius)) == fetch(2300)
  {
    assert Attempts(fetch, 2300) == [2300];
    assert Attempts(fetch, 1400) == [1400, 2300];
  }

  /** A non-empty result is the reply of one of the candidate radii. */
  lemma {:induction false} DiscoverComesFromOneRadius(fetch: Fetcher, radius: int)
    ensures Discover(fetch, radius) == []
      || exists rad :: rad in Radii(radius) && fetch(rad) == Ok(Discover(fetch, radius))
    decreases MaxRadius - radius
  {
    if radius <= MaxRadius {
      var next := radius + RadiusStep;
      DiscoverComesFromOneRadius(fetch, next);
      assert Radii(radius) == [radius] + Radii(next);
    }
  }

  /**
   * Whatever the provider does, discovery returns at most 30 POIs sorted by
   * distance, each passing the filter for, and built from an element of,
   * the reply it came from.
   */
  lemma DiscoverIsFilteredSortedCapped(origin: Location, radius: int, provider: Provider, distance: Haversine)
    ensures var r := Discover(QueryAt(origin, provider, distance), radius);
      && |r| <= MaxResults && Sorted(r)
      && (r == [] || exists rad :: (rad in Radii(radius) && provider(rad).Elements?
                                    && r == Pipeline(origin, provider(rad).elements, distance)))
  {
    var fetch := QueryAt(origin, provider, distance);
    DiscoverComesFromOneRadius(fetch, radius);
    var r := Discover(fetch, radius);
    if r != [] {
      var rad :| rad in Radii(radius) && fetch(rad) == Ok(r);
      assert provider(rad).Elements? && r == Pipeline(origin, provider(rad).elements, distance);
      PipelineSound(origin, provider(rad).elements, distance);
    }
  }
}
