/**
 * The city-proximity rule: find the nearest of the cities the telemetry
 * carries and, when it lies within 5000 metres, ask for a message about
 * approaching it.
 *
 * Distances are squared (see the Location module), so the threshold is
 * compared as 5000 squared, and the `distance` key the rule writes into a
 * city holds the squared distance.
 */
module CityProximity {
  import opened Wrappers
  import opened Python
  import opened Events
  import opened TelemetryModel
  import opened Location
  import opened TelemetryHandlers

  const Subscriptions: seq<string> := ["truck.speed"]
  const ProximityThreshold: real := 5000.0
  const SquaredThreshold: real := ProximityThreshold * ProximityThreshold

  /** No city before city `j` is as close as it (the strict `<` of the search). */
  predicate CloserThanAllBefore(key: City -> real, cities: seq<City>, j: nat)
    requires j < |cities|
  {
    forall m :: 0 <= m < j ==> key(cities[m]) > key(cities[j])
  }

  /** City `k` is the first of the closest cities. */
  predicate FirstNearest(key: City -> real, cities: seq<City>, k: nat) {
    && k < |cities|
    && (forall j :: 0 <= j < |cities| ==> key(cities[k]) <= key(cities[j]))
    && (forall j :: 0 <= j < k ==> key(cities[j]) > key(cities[k]))
  }

  /** The cities after the search: each one that became the running minimum has its distance written. */
  predicate DistancesWritten(key: City -> real, cities: seq<City>, updated: seq<City>, upTo: nat)
    requires upTo <= |cities| == |updated|
  {
    && (forall j :: 0 <= j < upTo ==>
          updated[j] == if CloserThanAllBefore(key, cities, j) then cities[j].(distance := Some(key(cities[j]))) else cities[j])
    && (forall j :: upTo <= j < |cities| ==> updated[j] == cities[j])
  }

  /**
   * `find_nearest_city`: the index of the first closest city and the cities
   * with the running minima's distances written in. On an empty list the log
   * line indexes `None` and raises `TypeError`.
   */
  method FindNearestCity(cities: seq<City>, px: real, py: real) returns (r: Result<(seq<City>, nat), PyError>)
    ensures r.Failure? <==> cities == []
    ensures r.Failure? ==> r.error.TypeError?
    ensures r.Success? ==>
              && |r.value.0| == |cities|
              && FirstNearest(DistanceKey(px, py), cities, r.value.1)
              && DistancesWritten(DistanceKey(px, py), cities, r.value.0, |cities|)
              && r.value.0[r.value.1] == cities[r.value.1].(distance := Some(SquaredDistance(px, py, cities[r.value.1])))
  {
    var key := DistanceKey(px, py);
    var minDistance: Option<real> := None;   // float("inf")
    var nearest: nat := 0;
    var updated := cities;
    for i := 0 to |cities|
      invariant |updated| == |cities|
      invariant minDistance.None? <==> i == 0
      invariant i > 0 ==> nearest < i && minDistance.value == key(cities[nearest])
      invariant i > 0 ==> forall j :: 0 <= j < i ==> key(cities[nearest]) <= key(cities[j])
      invariant i > 0 ==> forall j :: 0 <= j < nearest ==> key(cities[j]) > key(cities[nearest])
      invariant i > 0 ==> CloserThanAllBefore(key, cities, nearest)
      invariant DistancesWritten(key, cities, updated, i)
    {
      var distance := key(cities[i]);
      if minDistance.None? || distance < minDistance.value {
        assert CloserThanAllBefore(key, cities, i);
        minDistance := Some(distance);
        nearest := i;
        updated := updated[i := cities[i].(distance := Some(distance))];
      } else {
        assert !CloserThanAllBefore(key, cities, i);
      }
    }
    if minDistance.None? {
      return Failure(TypeError("'NoneType' object is not subscriptable"));
    }
    r := Success((updated, nearest));
  }

  /** The prompt that names the city. */
  function ApproachMessage(name: string): Message {
    Fixed("Generate a CONVERSATIONAL message that we are approaching " + name)
  }

  /**
   * `handle`: reading the speed raises when there is no truck; no navigation
   * or no cities returns `False`; otherwise it emits one request naming the
   * nearest city and returns `True` exactly when that city is within the
   * threshold. Also returns the cities after the distance writes.
   */
  method Handle(data: TelemetryData) returns (outcome: Outcome, cities: seq<City>)
    ensures data.truck.None? ==> outcome == Outcome(None, Raised(AttributeError("'NoneType' object has no attribute 'speed'")))
    ensures data.truck.Some? && (data.navigation.None? || data.navigation.value.nearestCities.None?
                                 || data.navigation.value.nearestCities.value == []) ==>
              outcome == Outcome(None, Returned(PyFalse))
    ensures data.truck.Some? && data.navigation.Some? && data.navigation.value.nearestCities.Some?
            && data.navigation.value.nearestCities.value != [] ==>
              var cs := data.navigation.value.nearestCities.value;
              var t := data.truck.value;
              && outcome.result in {Returned(PyTrue), Returned(PyFalse)}
              && (outcome.result == Returned(PyTrue) <==>
                    exists j :: 0 <= j < |cs| && SquaredDistance(t.coordinateX, t.coordinateY, cs[j]) <= SquaredThreshold)
              && (outcome.emission.Some? <==> outcome.result == Returned(PyTrue))
              && (outcome.emission.Some? ==>
                    exists k: nat :: FirstNearest(DistanceKey(t.coordinateX, t.coordinateY), cs, k)
                                && outcome.emission.value == (DialogueResponseRequest, ApproachMessage(cs[k].name)))
              && |cities| == |cs| && DistancesWritten(DistanceKey(t.coordinateX, t.coordinateY), cs, cities, |cs|)
  {
    cities := [];
    if data.truck.None? {
      return Outcome(None, Raised(AttributeError("'NoneType' object has no attribute 'speed'"))), cities;
    }
    if data.navigation.None? || data.navigation.value.nearestCities.None? || data.navigation.value.nearestCities.value == [] {
      return Outcome(None, Returned(PyFalse)), cities;
    }
    var cs := data.navigation.value.nearestCities.value;
    var t := data.truck.value;
    var found := FindNearestCity(cs, t.coordinateX, t.coordinateY);
    var (updated, k) := found.value;
    cities := updated;
    var d := updated[k].distance.value;
    if d <= SquaredThreshold {
      outcome := Outcome(Some((DialogueResponseRequest, ApproachMessage(updated[k].name))), Returned(PyTrue));
    } else {
      outcome := Outcome(None, Returned(PyFalse));
      assert DistanceKey(t.coordinateX, t.coordinateY)(cs[k]) > SquaredThreshold;
    }
  }
}
