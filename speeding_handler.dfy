/**
 * The speeding rule: comments when the truck goes faster than the highway
 * limit. Its own `register` passes a field list to `subscribe_to_fields`,
 * which takes none, so registering raises before the rule reaches the bus.
 */
module Speeding {
  import opened Wrappers
  import opened Python
  import opened Events
  import opened TelemetryModel
  import opened TelemetryHandlers
  import opened TelemetryRules

  const Cooldown: int := 1800
  const Chance: real := 1.0
  /** km/h. */
  const SpeedLimitHighway: int := 90

  function SpeedingMessage(speed: real): Message {
    [Lit("Comment about the user speeding. Current speed: "), Num(speed), Lit(" km/h, limit: 90 km/h.")]
  }

  /** `handle`: one request and `True` above the limit, `False` at or below it. */
  function Handle(data: TelemetryData): Outcome {
    if data.truck.None? then Outcome(None, Raised(AttributeError("'NoneType' object has no attribute 'speed'")))
    else if data.truck.value.speed > SpeedLimitHighway as real then
      Outcome(Request(SpeedingMessage(data.truck.value.speed)), Returned(PyTrue))
    else Outcome(None, Returned(PyFalse))
  }

  /**
   * The comparison is strict: exactly 90 km/h is not speeding. The rule
   * emits exactly when it returns `True`, and the message carries the speed.
   */
  lemma HandleIffOverLimit(data: TelemetryData)
    requires data.truck.Some?
    ensures Handle(data).result == Returned(PyTrue) <==> data.truck.value.speed > 90.0
    ensures Handle(data).result == Returned(PyFalse) <==> data.truck.value.speed <= 90.0
    ensures Handle(data).emission.Some? <==> Handle(data).result == Returned(PyTrue)
    ensures Handle(data).emission.Some? ==>
              Handle(data).emission.value.0 == DialogueResponseRequest
              && Num(data.truck.value.speed) in Handle(data).emission.value.1
  {
  }

  /**
   * `subscribe_to_fields(self)` called with `extra` positional arguments
   * besides `self`: more than none raises `TypeError`, and then nothing is
   * subscribed.
   */
  function SubscribeToFieldsCall(extra: seq<seq<string>>, subscriptions: seq<string>): (r: Result<seq<string>, PyError>)
    ensures r.Success? <==> extra == []
    ensures r.Success? ==> r.value == subscriptions
    ensures r.Failure? ==> r.error.TypeError?
  {
    if extra != [] then Failure(TypeError("subscribe_to_fields() takes 1 positional argument but 2 were given"))
    else Success(subscriptions)
  }

  /** The overriding `register`: passes `["truck.speed"]` and so never subscribes. */
  function Register(): Result<seq<string>, PyError> {
    SubscribeToFieldsCall([["truck.speed"]], [])
  }

  lemma RegisterRaises()
    ensures Register().Failure? && Register().error.TypeError?
  {
  }
}
