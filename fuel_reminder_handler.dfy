/**
 * The fuel rule: decides whether the driver should refuel, from the range
 * left, the distance to go, the next rest stop and the tank level, and then
 * reminds only when the tank is below a quarter.
 *
 * Python floats are modelled as reals; dividing by zero raises
 * `ZeroDivisionError` as Python's float division does.
 */
module FuelReminder {
  import opened Wrappers
  import opened Python
  import opened Events
  import opened TelemetryModel
  import opened TelemetryHandlers
  import opened TelemetryRules

  /** The keywords the constructor passes to the base class. */
  const ConstructorKeywords: set<string> := {"event_bus", "session", "cooldown", "chance"}

  /** `a / b` on floats. */
  function Divide(a: real, b: real): (r: Result<real, PyError>)
    ensures r.Success? <==> b != 0.0
    ensures r.Success? ==> r.value * b == a
  {
    if b == 0.0 then Failure(ZeroDivisionError) else Success(a / b)
  }

  /** `fuel / fuel_rate * 100`. */
  function EstimatedRangeLeft(t: Truck): Result<real, PyError> {
    var perRate :- Divide(t.fuel, t.fuelRate);
    Success(perRate * 100.0)
  }

  /**
   * `need_to_refuel`: the checks in the source's order, each reading its
   * record only when reached; the first that holds decides.
   */
  function NeedToRefuel(data: TelemetryData): Result<bool, PyError> {
    if data.truck.None? then Failure(AttributeError("'NoneType' object has no attribute 'fuel'"))
    else
      var t := data.truck.value;
      var range :- EstimatedRangeLeft(t);
      if data.navigation.None? then Failure(AttributeError("'NoneType' object has no attribute 'distance'"))
      else if range < data.navigation.value.distance then Success(true)
      else if data.game.None? then Failure(AttributeError("'NoneType' object has no attribute 'next_rest_stop'"))
      else if data.game.value.nextRestStop as real * (t.speed / 60.0) > range then Success(true)
      else Success(t.fuel < t.fuelCapacity * 0.25)
  }

  /** With every record present and a non-zero rate, the three reasons to refuel. */
  lemma NeedToRefuelIff(data: TelemetryData)
    requires data.truck.Some? && data.navigation.Some? && data.game.Some? && data.truck.value.fuelRate != 0.0
    ensures var t := data.truck.value;
            var range := t.fuel / t.fuelRate * 100.0;
            NeedToRefuel(data) == Success(
              range < data.navigation.value.distance
              || data.game.value.nextRestStop as real * (t.speed / 60.0) > range
              || t.fuel < t.fuelCapacity * 0.25)
  {
  }

  function ReminderMessage(t: Truck, percent: real): Message {
    [Lit("Generate a message about low fuel level. Current fuel: "), Num(t.fuel),
     Lit(". Capacity: "), Num(t.fuelCapacity), Lit(". Percentage: "), Num(percent)]
  }

  /** `generate_fuel_reminder`: a reminder only when the tank is below 25 percent. */
  function GenerateFuelReminder(t: Truck): Result<Option<Message>, PyError> {
    var share :- Divide(t.fuel, t.fuelCapacity);
    var percent := share * 100.0;
    Success(if percent < 25.0 then Some(ReminderMessage(t, percent)) else None)
  }

  /** `handle`: reminds and returns `True` when refuelling is needed and there is a reminder. */
  function Handle(data: TelemetryData): Outcome {
    match NeedToRefuel(data)
    case Failure(e) => Outcome(None, Raised(e))
    case Success(false) => Outcome(None, Returned(PyFalse))
    case Success(true) =>
      match GenerateFuelReminder(data.truck.value)
      case Failure(e) => Outcome(None, Raised(e))
      case Success(None) => Outcome(None, Returned(PyFalse))
      case Success(Some(m)) => Outcome(Request(m), Returned(PyTrue))
  }

  /** Below 25 percent exactly when below a quarter of a positive capacity. */
  lemma PercentBelowQuarter(fuel: real, capacity: real)
    requires capacity > 0.0
    ensures fuel / capacity * 100.0 < 25.0 <==> fuel < capacity * 0.25
  {
    var share := fuel / capacity;
    assert fuel == share * capacity;
    if share < 0.25 {
      assert share * capacity < 0.25 * capacity;
    } else {
      assert share * capacity >= 0.25 * capacity;
    }
  }

  /**
   * With positive capacity and rate, and every record present, the rule
   * emits and returns `True` exactly when the tank is below a quarter: the
   * other reasons to refuel never produce a reminder on their own, and the
   * low-tank reason always does.
   */
  lemma HandleIffLowTank(data: TelemetryData)
    requires data.truck.Some? && data.navigation.Some? && data.game.Some?
    requires data.truck.value.fuelCapacity > 0.0 && data.truck.value.fuelRate > 0.0
    ensures var t := data.truck.value;
            Handle(data).result == Returned(PyTrue) <==> t.fuel < t.fuelCapacity * 0.25
    ensures Handle(data).emission.Some? <==> Handle(data).result == Returned(PyTrue)
    ensures Handle(data).result in {Returned(PyTrue), Returned(PyFalse)}
  {
    var t := data.truck.value;
    NeedToRefuelIff(data);
    PercentBelowQuarter(t.fuel, t.fuelCapacity);
  }

  /** A zero consumption rate raises before anything is read from the other records. */
  lemma ZeroRateRaises(data: TelemetryData)
    requires data.truck.Some? && data.truck.value.fuelRate == 0.0
    ensures Handle(data) == Outcome(None, Raised(ZeroDivisionError))
  {
  }

  /** The constructor passes `cooldown` and `chance`, which the base class does not take. */
  lemma ConstructionRaises()
    ensures BaseInit(ConstructorKeywords).Failure?
  {
    CooldownKeywordRaises(ConstructorKeywords);
  }
}
