/**
 * The telemetry records and the mock telemetry source.
 *
 * The records carry only the fields the rest of the model reads, in their
 * declaration order; every one of them holds a value (the declared default
 * `None` is not modelled). The mock source starts from fixed values and, on
 * each update, moves them by random amounts that the caller supplies.
 */
module TelemetryModel {
  import opened Wrappers
  import opened Python

  /** A city entry of the dataset: `Name`, `X`, `Y`, and the `distance` key a rule may write. */
  datatype City = City(name: string, x: real, y: real, distance: Option<real>)

  datatype Truck = Truck(
    speed: real,
    acceleration: real,
    engineRpm: int,
    fuel: real,
    fuelCapacity: real,
    fuelRate: real,
    wearEngine: real,
    wearTransmission: real,
    blinkerLeftActive: bool,
    blinkerRightActive: bool,
    lightsFog: int,
    wipers: bool,
    coordinateX: real,
    coordinateY: real)

  datatype Game = Game(time: string, nextRestStop: int, gamePaused: bool)

  datatype Navigation = Navigation(distance: real, time: int, nearestCities: Option<seq<City>>)

  datatype Job = Job(cargo: string, income: int, destination: string, deadlineTime: string, isSpecial: bool)

  /** One telemetry sample; each part may be absent. Trailers are not modelled. */
  datatype TelemetryData = TelemetryData(
    truck: Option<Truck>,
    game: Option<Game>,
    navigation: Option<Navigation>,
    job: Option<Job>)

  // ---------------------------------------------------------------------------
  // The mock source.

  /**
   * The random draws of one update: `uniform(-5, 5)` for speed,
   * `normalvariate(0.5, 0.1)` for acceleration, `randint(-100, 100)` for rpm,
   * and `randint(1000, 5000)`, `randint(3000, 7200)` for a new route.
   */
  datatype Draws = Draws(speedDelta: real, acceleration: real, rpmDelta: int, newDistance: int, newTime: int)

  predicate DrawsInRange(d: Draws) {
    -5.0 <= d.speedDelta <= 5.0 && -100 <= d.rpmDelta <= 100
    && 1000 <= d.newDistance <= 5000 && 3000 <= d.newTime <= 7200
  }

  function Max(a: real, b: real): real { if a >= b then a else b }
  function Min(a: real, b: real): real { if a <= b then a else b }
  function MaxInt(a: int, b: int): int { if a >= b then a else b }
  function MinInt(a: int, b: int): int { if a <= b then a else b }

  /** The fuel one update burns at `speed`. */
  function Consumed(fuelRate: real, speed: real): real { fuelRate * (speed / 100.0) * 0.1 }

  /** The engine and transmission wear one update adds at `speed`. */
  function Wear(speed: real): real { 0.001 * speed / 100.0 }

  /** What `update` changes: the truck, the navigation and the toggle counter. */
  datatype MockState = MockState(truck: Truck, navigation: Navigation, toggleCount: nat)

  /** One `update`, field by field in the source's order; later steps read the new speed. */
  function Step(s: MockState, d: Draws): MockState {
    var t := s.truck;
    var speed := Max(0.0, Min(100.0, t.speed + d.speedDelta));
    var acceleration := Max(0.0, d.acceleration);
    var rpm := MaxInt(800, MinInt(3000, t.engineRpm + d.rpmDelta));
    var x := t.coordinateX + speed * 0.1;
    var y := t.coordinateY + speed * 0.1;
    var burnt := Max(0.0, t.fuel - Consumed(t.fuelRate, speed));
    var fuel := if burnt < 50.0 then t.fuelCapacity else burnt;
    var wear := Wear(speed);
    var wearEngine := Min(100.0, t.wearEngine + wear);
    var wearTransmission := Min(100.0, t.wearTransmission + wear);
    var count := s.toggleCount + 1;
    var toggle := count % 10 == 0;
    var left := if toggle then !t.blinkerLeftActive else t.blinkerLeftActive;
    var right := if toggle then !left else t.blinkerRightActive;
    var wipers := if toggle then !t.wipers else t.wipers;
    var travelled := Max(0.0, s.navigation.distance - speed * 0.1);
    var navigation :=
      if travelled == 0.0 then s.navigation.(distance := d.newDistance as real, time := d.newTime)
      else s.navigation.(distance := travelled);
    MockState(
      t.(speed := speed, acceleration := acceleration, engineRpm := rpm,
         coordinateX := x, coordinateY := y, fuel := fuel,
         wearEngine := wearEngine, wearTransmission := wearTransmission,
         blinkerLeftActive := left, blinkerRightActive := right, wipers := wipers),
      navigation, count)
  }

  /** Speed stays in [0, 100], rpm in [800, 3000], acceleration is never negative. */
  lemma StepClampsMotion(s: MockState, d: Draws)
    ensures 0.0 <= Step(s, d).truck.speed <= 100.0
    ensures 800 <= Step(s, d).truck.engineRpm <= 3000
    ensures Step(s, d).truck.acceleration >= 0.0
    ensures -5.0 <= d.speedDelta <= 5.0 && 0.0 <= s.truck.speed <= 100.0 ==>
              s.truck.speed - 5.0 <= Step(s, d).truck.speed <= s.truck.speed + 5.0
  {
  }

  /** With a tank of at least 50 the level after an update is at least 50; only a refill raises it. */
  lemma StepKeepsFuel(s: MockState, d: Draws)
    requires s.truck.fuelCapacity >= 50.0 && s.truck.fuelRate >= 0.0
    ensures Step(s, d).truck.fuel >= 50.0
    ensures Step(s, d).truck.fuelCapacity == s.truck.fuelCapacity
    ensures Step(s, d).truck.fuel > s.truck.fuel ==> Step(s, d).truck.fuel == s.truck.fuelCapacity
  {
  }

  /** Wear never decreases and never exceeds 100. */
  lemma StepWearMonotone(s: MockState, d: Draws)
    requires s.truck.wearEngine <= 100.0 && s.truck.wearTransmission <= 100.0
    ensures s.truck.wearEngine <= Step(s, d).truck.wearEngine <= 100.0
    ensures s.truck.wearTransmission <= Step(s, d).truck.wearTransmission <= 100.0
  {
  }

  /**
   * The counter goes up by one; every tenth update flips the left blinker and
   * the wipers and sets the right blinker to the opposite of the new left one.
   * Other updates leave all three alone.
   */
  lemma StepToggles(s: MockState, d: Draws)
    ensures Step(s, d).toggleCount == s.toggleCount + 1
    ensures Step(s, d).toggleCount % 10 == 0 ==>
              Step(s, d).truck.blinkerLeftActive == !s.truck.blinkerLeftActive
              && Step(s, d).truck.blinkerRightActive == !Step(s, d).truck.blinkerLeftActive
              && Step(s, d).truck.wipers == !s.truck.wipers
    ensures Step(s, d).toggleCount % 10 != 0 ==>
              Step(s, d).truck.blinkerLeftActive == s.truck.blinkerLeftActive
              && Step(s, d).truck.blinkerRightActive == s.truck.blinkerRightActive
              && Step(s, d).truck.wipers == s.truck.wipers
  {
  }

  /** The distance to go is never negative; once it reaches 0 a new route in range is drawn. */
  lemma StepNavigation(s: MockState, d: Draws)
    requires DrawsInRange(d) && s.navigation.distance >= 0.0
    ensures Step(s, d).navigation.distance >= 0.0
    ensures s.navigation.distance - Step(s, d).truck.speed * 0.1 <= 0.0 ==>
              1000.0 <= Step(s, d).navigation.distance <= 5000.0
              && 3000 <= Step(s, d).navigation.time <= 7200
    ensures s.navigation.distance - Step(s, d).truck.speed * 0.1 > 0.0 ==>
              Step(s, d).navigation.distance == s.navigation.distance - Step(s, d).truck.speed * 0.1
              && Step(s, d).navigation.time == s.navigation.time
    ensures Step(s, d).navigation.nearestCities == s.navigation.nearestCities
  {
  }

  /** What holds of the mock source from its first value on. */
  predicate Plausible(s: MockState) {
    && 0.0 <= s.truck.speed <= 100.0
    && 800 <= s.truck.engineRpm <= 3000
    && s.truck.acceleration >= 0.0
    && s.truck.fuelCapacity == 1000.0 && s.truck.fuelRate == 30.0 && s.truck.fuel >= 50.0
    && 0.0 <= s.truck.wearEngine <= 100.0 && 0.0 <= s.truck.wearTransmission <= 100.0
    && s.navigation.distance >= 0.0
  }

  /** Any sequence of updates keeps the mock plausible. */
  lemma StepPreservesPlausible(s: MockState, d: Draws)
    requires Plausible(s) && DrawsInRange(d)
    ensures Plausible(Step(s, d))
  {
    StepClampsMotion(s, d);
    StepKeepsFuel(s, d);
    StepWearMonotone(s, d);
    StepNavigation(s, d);
  }

  class MockTelemetry {
    var truck: Truck
    var game: Game
    var navigation: Navigation
    var job: Job
    var toggleCount: nat

    function State(): MockState
      reads this
    {
      MockState(truck, navigation, toggleCount)
    }

    constructor()
      ensures truck == Truck(80.0, 0.2, 1500, 800.0, 1000.0, 30.0, 0.0, 0.0, false, false, 0, false, 2028.0, 5855.0)
      ensures game == Game("12:00", 120, false)
      ensures navigation == Navigation(5000.0, 3600, None)
      ensures job == Job("Electronics", 2000, "Berlin, Acme Corp", "2024-05-10T15:00:00", false)
      ensures toggleCount == 0
      ensures Plausible(State())
    {
      truck := Truck(80.0, 0.2, 1500, 800.0, 1000.0, 30.0, 0.0, 0.0, false, false, 0, false, 2028.0, 5855.0);
      game := Game("12:00", 120, false);
      navigation := Navigation(5000.0, 3600, None);
      job := Job("Electronics", 2000, "Berlin, Acme Corp", "2024-05-10T15:00:00", false);
      toggleCount := 0;
    }

    method Update(d: Draws)
      modifies this
      ensures State() == Step(old(State()), d)
      ensures game == old(game) && job == old(job)
    {
      var t := truck;
      var speed := Max(0.0, Min(100.0, t.speed + d.speedDelta));
      var acceleration := Max(0.0, d.acceleration);
      var rpm := MaxInt(800, MinInt(3000, t.engineRpm + d.rpmDelta));
      var x := t.coordinateX + speed * 0.1;
      var y := t.coordinateY + speed * 0.1;
      var fuel := Max(0.0, t.fuel - Consumed(t.fuelRate, speed));
      if fuel < 50.0 {
        fuel := t.fuelCapacity;
      }
      var wear := Wear(speed);
      var wearEngine := Min(100.0, t.wearEngine + wear);
      var wearTransmission := Min(100.0, t.wearTransmission + wear);
      var left, right, wipers := t.blinkerLeftActive, t.blinkerRightActive, t.wipers;
      toggleCount := toggleCount + 1;
      if toggleCount % 10 == 0 {
        left := !left;
        right := !left;
        wipers := !wipers;
      }
      truck := t.(speed := speed, acceleration := acceleration, engineRpm := rpm,
                  coordinateX := x, coordinateY := y, fuel := fuel,
                  wearEngine := wearEngine, wearTransmission := wearTransmission,
                  blinkerLeftActive := left, blinkerRightActive := right, wipers := wipers);
      var distance := Max(0.0, navigation.distance - speed * 0.1);
      if distance == 0.0 {
        navigation := navigation.(distance := d.newDistance as real, time := d.newTime);
      } else {
        navigation := navigation.(distance := distance);
      }
      ghost var st := Step(old(State()), d).truck;
      assert truck.speed == st.speed;
      assert truck.fuel == st.fuel;
      assert truck.blinkerLeftActive == st.blinkerLeftActive;
      assert truck.blinkerRightActive == st.blinkerRightActive;
      assert truck.wipers == st.wipers;
      assert truck == st;
      assert navigation == Step(old(State()), d).navigation;
    }

    /** One update, then the current records; the trailer is left out. */
    method GetTelemetryData(d: Draws) returns (data: TelemetryData)
      modifies this
      ensures State() == Step(old(State()), d)
      ensures game == old(game) && job == old(job)
      ensures data == TelemetryData(Some(truck), Some(game), Some(navigation), Some(job))
    {
      Update(d);
      data := TelemetryData(Some(truck), Some(game), Some(navigation), Some(job));
    }
  }
}
