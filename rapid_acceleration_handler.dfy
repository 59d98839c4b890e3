/**
 * The rapid-acceleration rule: comments when the truck accelerates harder
 * than 2.5. Its `handle` returns nothing, so a fired gate is never released
 * by this rule's own answer.
 */
module RapidAcceleration {
  import opened Wrappers
  import opened Python
  import opened Events
  import opened TelemetryModel
  import opened TelemetryHandlers
  import opened TelemetryRules

  /** The keywords the constructor passes to the base class. */
  const ConstructorKeywords: set<string> := {"event_bus", "session", "cooldown", "chance"}

  const Threshold: real := 2.5

  const Instruction: string := "Generate a comment on rapid acceleration."

  /** `handle` through `inform_about_acceleration`: the comment above the threshold, and `None` in every case. */
  function Handle(data: TelemetryData): Outcome {
    if data.truck.None? then Outcome(None, Raised(AttributeError("'NoneType' object has no attribute 'acceleration'")))
    else if data.truck.value.acceleration > Threshold then Outcome(Request(Fixed(Instruction)), Returned(PyNone))
    else Outcome(None, Returned(PyNone))
  }

  /**
   * With a truck the rule emits the comment exactly above 2.5 (exactly 2.5
   * is not rapid) and always returns `None`, never `False`: the gate keeps
   * the shared flag set after every fired call, comment or not.
   */
  lemma HandleIffRapid(data: TelemetryData)
    requires data.truck.Some?
    ensures Handle(data).emission.Some? <==> data.truck.value.acceleration > 2.5
    ensures Handle(data).emission.Some? ==> Handle(data).emission.value == (DialogueResponseRequest, [Lit(Instruction)])
    ensures Handle(data).result == Returned(PyNone)
    ensures Handle(data).result != Returned(PyFalse)
  {
  }

  /** Without a truck the attribute read raises and nothing is emitted. */
  lemma MissingTruckRaises(data: TelemetryData)
    requires data.truck.None?
    ensures Handle(data).emission.None? && Handle(data).result.Raised? && Handle(data).result.error.AttributeError?
  {
  }

  /** The constructor passes `cooldown` and `chance`, which the base class does not take. */
  lemma ConstructionRaises()
    ensures BaseInit(ConstructorKeywords).Failure?
  {
    CooldownKeywordRaises(ConstructorKeywords);
  }
}
