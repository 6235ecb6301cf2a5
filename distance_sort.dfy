/**
 * `pois.sort((a, b) => (a.distance || 0) - (b.distance || 0)).slice(0, 30)`.
 * ECMAScript's `Array.prototype.sort` is stable, so the sort is modelled
 * as a stable insertion sort on the distance key.
 */
module DistanceSort {
  import opened Types

  /** The number of POIs a discovery call returns at most. */
  const MaxResults: nat := 30

  /** `poi.distance || 0` */
  function SortKey(p: Poi): int {
    match p.distance
    case Some(d) => d
    case None => 0
  }

  predicate Sorted(s: seq<Poi>) {
    forall i, j :: 0 <= i < j < |s| ==> SortKey(s[i]) <= SortKey(s[j])
  }

  /** The POIs of `s` whose key is `k`, in their order in `s`. */
  function WithKey(s: seq<Poi>, k: int): seq<Poi> {
    if s == [] then []
    else (if SortKey(s[0]) == k then [s[0]] else []) + WithKey(s[1..], k)
  }

  /** `r` is `s` sorted by key, with POIs of equal key kept in their input order. */
  ghost predicate StablySorted(s: seq<Poi>, r: seq<Poi>) {
    && Sorted(r)
    && multiset(r) == multiset(s)
    && forall k :: WithKey(r, k) == WithKey(s, k)
  }

  /** Puts `x` before the first POI whose key is not smaller. */
  function Insert(x: Poi, s: seq<Poi>): (r: seq<Poi>)
    ensures multiset(r) == multiset(s) + multiset{x}
  {
    if s == [] || SortKey(x) <= SortKey(s[0]) then [x] + s
    else
      assert s == [s[0]] + s[1..];
      [s[0]] + Insert(x, s[1..])
  }

  /** Everything in `s` has key at least `k`. */
  predicate AllAtLeast(s: seq<Poi>, k: int) {
    forall i :: 0 <= i < |s| ==> k <= SortKey(s[i])
  }

  lemma {:induction false} InsertSorted(x: Poi, s: seq<Poi>)
    requires Sorted(s)
    ensures Sorted(Insert(x, s))
    ensures forall k :: AllAtLeast(s, k) && k <= SortKey(x) ==> AllAtLeast(Insert(x, s), k)
  {
    if s == [] || SortKey(x) <= SortKey(s[0]) {
    } else {
      var t := Insert(x, s[1..]);
      InsertSorted(x, s[1..]);
      assert AllAtLeast(s[1..], SortKey(s[0]));
      assert AllAtLeast(t, SortKey(s[0]));
      assert Insert(x, s) == [s[0]] + t;
    }
  }

  function SortByDistance(s: seq<Poi>): (r: seq<Poi>)
    ensures Sorted(r)
    ensures multiset(r) == multiset(s)
  {
    if s == [] then []
    else
      assert s == [s[0]] + s[1..];
      InsertSorted(s[0], SortByDistance(s[1..]));
      Insert(s[0], SortByDistance(s[1..]))
  }

  /** Sorting keeps exactly the POIs it was given. */
  lemma SortByDistanceMembers(s: seq<Poi>)
    ensures forall p :: p in SortByDistance(s) <==> p in s
  {
    var r := SortByDistance(s);
    forall p ensures p in r <==> p in s {
      assert p in r <==> p in multiset(r);
      assert p in s <==> p in multiset(s);
    }
  }

  lemma {:induction false} WithKeyInsert(x: Poi, s: seq<Poi>, k: int)
    ensures WithKey(Insert(x, s), k) == (if SortKey(x) == k then [x] else []) + WithKey(s, k)
  {
    if s == [] || SortKey(x) <= SortKey(s[0]) {
      assert ([x] + s)[1..] == s;
    } else {
      var t := Insert(x, s[1..]);
      assert ([s[0]] + t)[1..] == t;
      WithKeyInsert(x, s[1..], k);
    }
  }

  /** The sort is a stable sort: sorted, a permutation, and order-preserving among equal keys. */
  lemma {:induction false} SortByDistanceIsStable(s: seq<Poi>)
    ensures StablySorted(s, SortByDistance(s))
  {
    if s != [] {
      SortByDistanceIsStable(s[1..]);
      forall k ensures WithKey(SortByDistance(s), k) == WithKey(s, k) {
        WithKeyInsert(s[0], SortByDistance(s[1..]), k);
      }
    }
  }

  lemma {:induction false} WithKeyNonEmpty(s: seq<Poi>, k: int)
    requires WithKey(s, k) != []
    ensures exists i :: 0 <= i < |s| && SortKey(s[i]) == k
  {
    if SortKey(s[0]) != k {
      WithKeyNonEmpty(s[1..], k);
      var i :| 0 <= i < |s[1..]| && SortKey(s[1..][i]) == k;
      assert SortKey(s[i + 1]) == k;
    }
  }

  lemma WithKeyOfHead(s: seq<Poi>)
    requires s != []
    ensures WithKey(s, SortKey(s[0])) != []
  {
  }

  /** Two sorted sequences that agree on the POIs of every key are the same sequence. */
  lemma {:induction false} SortedSameKeysEqual(u: seq<Poi>, v: seq<Poi>)
    requires Sorted(u) && Sorted(v)
    requires forall k :: WithKey(u, k) == WithKey(v, k)
    ensures u == v
  {
    if u != [] { WithKeyOfHead(u); }
    if v != [] { WithKeyOfHead(v); }
    if u != [] && v != [] {
      var m, n := SortKey(u[0]), SortKey(v[0]);
      assert WithKey(v, m) == WithKey(u, m) != [];
      WithKeyNonEmpty(v, m);
      assert n <= m;
      assert WithKey(u, n) == WithKey(v, n) != [];
      WithKeyNonEmpty(u, n);
      assert m <= n;
      assert u[0] == WithKey(u, m)[0] == WithKey(v, m)[0] == v[0];
      forall k ensures WithKey(u[1..], k) == WithKey(v[1..], k) {
        assert WithKey(u, k) == (if k == m then [u[0]] else []) + WithKey(u[1..], k);
        assert WithKey(v, k) == (if k == m then [v[0]] else []) + WithKey(v[1..], k);
        var head := if k == m then [u[0]] else [];
        assert WithKey(u, k) == WithKey(v, k);
        assert WithKey(u[1..], k) == WithKey(u, k)[|head|..];
        assert WithKey(v[1..], k) == WithKey(v, k)[|head|..];
      }
      SortedSameKeysEqual(u[1..], v[1..]);
      assert u == [u[0]] + u[1..] && v == [v[0]] + v[1..];
    }
  }

  /** There is only one stable sort of a sequence, and it is `SortByDistance`. */
  lemma StableSortIsUnique(s: seq<Poi>, t: seq<Poi>)
    requires StablySorted(s, t)
    ensures t == SortByDistance(s)
  {
    SortByDistanceIsStable(s);
    SortedSameKeysEqual(t, SortByDistance(s));
  }

  /** `s.slice(0, 30)` */
  function CapResults(s: seq<Poi>): (r: seq<Poi>)
    ensures |r| == Min(|s|, MaxResults)
    ensures |s| <= MaxResults ==> r == s
    ensures r == s[..|r|]
    ensures Sorted(s) ==> Sorted(r)
  {
    Take(s, MaxResults)
  }
}
