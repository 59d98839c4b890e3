/**
 * The nearest-cities lookup: the city dataset sorted by distance from the
 * truck and cut to the first `limit` entries.
 *
 * Distances are compared squared: the square root is monotone on
 * non-negative reals, so squared distances order the cities exactly as
 * `math.sqrt` does.
 */
module Location {
  import opened Wrappers
  import opened Python
  import opened TelemetryModel

  /** The squared straight-line distance from `(px, py)` to the city. */
  function SquaredDistance(px: real, py: real, c: City): (d: real)
    ensures d >= 0.0
    ensures c.x == px && c.y == py ==> d == 0.0
  {
    (c.x - px) * (c.x - px) + (c.y - py) * (c.y - py)
  }

  /** Symmetric: the distance from a city to a point is the distance from the point to the city. */
  lemma SquaredDistanceSymmetric(px: real, py: real, qx: real, qy: real)
    ensures SquaredDistance(px, py, City("", qx, qy, None)) == SquaredDistance(qx, qy, City("", px, py, None))
  {
  }

  /** The sort key of a city: its squared distance from `(px, py)`. */
  function DistanceKey(px: real, py: real): City -> real {
    c => SquaredDistance(px, py, c)
  }

  predicate SortedBy(key: City -> real, s: seq<City>) {
    forall i, j :: 0 <= i < j < |s| ==> key(s[i]) <= key(s[j])
  }

  /** Places `c` before the first city with a key at least as large: later-placed equals stay behind it. */
  function Insert(key: City -> real, c: City, s: seq<City>): seq<City> {
    if s == [] then [c]
    else if key(c) <= key(s[0]) then [c] + s
    else [s[0]] + Insert(key, c, s[1..])
  }

  /** `sorted(cities, key=...)`: a stable sort. */
  function SortBy(key: City -> real, s: seq<City>): seq<City> {
    if s == [] then [] else Insert(key, s[0], SortBy(key, s[1..]))
  }

  /** `find_nearest_cities`: the first `limit` cities of the dataset sorted by distance. */
  function NearestCities(px: real, py: real, cities: seq<City>, limit: int := 5): seq<City> {
    SliceTo(SortBy(DistanceKey(px, py), cities), limit)
  }

  lemma {:induction false} InsertPermutes(key: City -> real, c: City, s: seq<City>)
    ensures multiset(Insert(key, c, s)) == multiset(s) + multiset{c}
  {
    if s != [] && key(c) > key(s[0]) {
      InsertPermutes(key, c, s[1..]);
      assert s == [s[0]] + s[1..];
    }
  }

  lemma {:induction false} InsertSorted(key: City -> real, c: City, s: seq<City>)
    requires SortedBy(key, s)
    ensures SortedBy(key, Insert(key, c, s))
  {
    if s != [] && key(c) > key(s[0]) {
      assert SortedBy(key, s[1..]);
      InsertSorted(key, c, s[1..]);
      InsertPermutes(key, c, s[1..]);
      var r := Insert(key, c, s[1..]);
      forall j | 0 <= j < |r|
        ensures key(s[0]) <= key(r[j])
      {
        assert r[j] in multiset(r);
        assert r[j] in multiset(s[1..]) + multiset{c};
        if r[j] != c {
          assert r[j] in s[1..];
        }
      }
      assert forall j :: 0 < j < |[s[0]] + r| ==> ([s[0]] + r)[j] == r[j - 1];
    }
  }

  /** The sorted dataset is ordered by the key and holds exactly the dataset's cities. */
  lemma {:induction false} SortProperties(key: City -> real, s: seq<City>)
    ensures SortedBy(key, SortBy(key, s))
    ensures multiset(SortBy(key, s)) == multiset(s)
  {
    if s != [] {
      SortProperties(key, s[1..]);
      InsertSorted(key, s[0], SortBy(key, s[1..]));
      InsertPermutes(key, s[0], SortBy(key, s[1..]));
      assert s == [s[0]] + s[1..];
    }
  }

  /** The cities of a sequence whose key is `d`, in order. */
  function WithKey(key: City -> real, d: real, s: seq<City>): seq<City> {
    if s == [] then []
    else (if key(s[0]) == d then [s[0]] else []) + WithKey(key, d, s[1..])
  }

  lemma {:induction false} InsertStable(key: City -> real, d: real, c: City, s: seq<City>)
    requires SortedBy(key, s)
    ensures WithKey(key, d, Insert(key, c, s)) == (if key(c) == d then [c] else []) + WithKey(key, d, s)
  {
    if s != [] {
      if key(c) <= key(s[0]) {
        assert ([c] + s)[1..] == s;
      } else {
        assert SortedBy(key, s[1..]);
        InsertStable(key, d, c, s[1..]);
        assert ([s[0]] + Insert(key, c, s[1..]))[1..] == Insert(key, c, s[1..]);
        if key(c) == d {
          // s[0] has a smaller key than c, so it is not among those with key d.
          assert WithKey(key, d, s) == WithKey(key, d, s[1..]);
        }
      }
    }
  }

  /** Stability: cities with the same key keep their dataset order. */
  lemma {:induction false} SortIsStable(key: City -> real, d: real, s: seq<City>)
    ensures WithKey(key, d, SortBy(key, s)) == WithKey(key, d, s)
  {
    if s != [] {
      SortIsStable(key, d, s[1..]);
      SortProperties(key, s[1..]);
      InsertStable(key, d, s[0], SortBy(key, s[1..]));
    }
  }

  /** Cities at the same distance from the truck keep their dataset order in the lookup. */
  lemma NearestCitiesStable(px: real, py: real, cities: seq<City>, limit: nat, d: real)
    requires limit >= |cities|
    ensures WithKey(DistanceKey(px, py), d, NearestCities(px, py, cities, limit))
         == WithKey(DistanceKey(px, py), d, cities)
  {
    var sorted := SortBy(DistanceKey(px, py), cities);
    SortIsStable(DistanceKey(px, py), d, cities);
    assert |sorted| == |cities| by {
      SortProperties(DistanceKey(px, py), cities);
      assert |multiset(sorted)| == |multiset(cities)|;
    }
    assert NearestCities(px, py, cities, limit) == sorted[..|sorted|] == sorted;
  }

  /**
   * The lookup returns `min(limit, |cities|)` cities, in order of distance,
   * each taken from the dataset no more often than it occurs there, and none
   * of the cities it leaves out is closer than one it returns.
   */
  lemma NearestCitiesProperties(px: real, py: real, cities: seq<City>, limit: nat)
    ensures |NearestCities(px, py, cities, limit)| == if limit <= |cities| then limit else |cities|
    ensures SortedBy(DistanceKey(px, py), NearestCities(px, py, cities, limit))
    ensures multiset(NearestCities(px, py, cities, limit)) <= multiset(cities)
    ensures var r := NearestCities(px, py, cities, limit);
            forall c, o :: c in r && o in multiset(cities) - multiset(r) ==>
              SquaredDistance(px, py, c) <= SquaredDistance(px, py, o)
  {
    var key := DistanceKey(px, py);
    var sorted := SortBy(key, cities);
    SortProperties(key, cities);
    assert |sorted| == |cities| by {
      assert |multiset(sorted)| == |multiset(cities)|;
    }
    var r := NearestCities(px, py, cities, limit);
    var k := |r|;
    assert r == sorted[..k];
    assert sorted == r + sorted[k..];
    assert multiset(sorted) == multiset(r) + multiset(sorted[k..]);
    forall c, o | c in r && o in multiset(cities) - multiset(r)
      ensures SquaredDistance(px, py, c) <= SquaredDistance(px, py, o)
    {
      var i :| 0 <= i < k && r[i] == c;
      assert o in multiset(sorted[k..]);
      var j :| 0 <= j < |sorted[k..]| && sorted[k..][j] == o;
      assert sorted[i] == c && sorted[k + j] == o;
      assert key(c) <= key(o);
    }
  }

  /** The default lookup returns at most five cities. */
  lemma DefaultLimitIsFive(px: real, py: real, cities: seq<City>)
    ensures |NearestCities(px, py, cities)| == if |cities| < 5 then |cities| else 5
  {
    NearestCitiesProperties(px, py, cities, 5);
  }
}
