/**
 * The greeting rule: greets the driver for the time of day on the game clock.
 */
module TimeBasedGreeting {
  import opened Wrappers
  import opened Python
  import opened Events
  import opened TelemetryModel
  import opened TelemetryHandlers
  import opened TelemetryRules

  /** The keywords the constructor passes to the base class. */
  const ConstructorKeywords: set<string> := {"event_bus", "session", "cooldown", "chance", "only_once"}

  const ProfileInstruction: string := "\n IMPORTANT: Generate BASED on YOUR co-driver profile."

  /** The greeting for an hour already read; every hour outside 6..17 is evening. */
  function Greeting(hour: int): string {
    if 6 <= hour < 12 then "Generate a good morning greeting."
    else if 12 <= hour < 18 then "Generate a good afternoon greeting."
    else "Generate a good evening greeting."
  }

  lemma GreetingRanges(hour: int)
    ensures Greeting(hour) == "Generate a good morning greeting." <==> 6 <= hour < 12
    ensures Greeting(hour) == "Generate a good afternoon greeting." <==> 12 <= hour < 18
    ensures Greeting(hour) == "Generate a good evening greeting." <==> hour < 6 || hour >= 18
  {
  }

  function GreetingMessage(hour: int): Message {
    Fixed(Greeting(hour) + ProfileInstruction)
  }

  /**
   * `handle`: greets through `greet_based_on_time` and returns `True`. The
   * clock is read first, so missing game data or an unreadable hour raise
   * before anything is emitted.
   */
  function Handle(data: TelemetryData): Outcome {
    if data.game.None? then Outcome(None, Raised(AttributeError("'NoneType' object has no attribute 'time'")))
    else
      match HourOf(data.game.value.time)
      case Failure(e) => Outcome(None, Raised(e))
      case Success(hour) => Outcome(Request(GreetingMessage(hour)), Returned(PyTrue))
  }

  /**
   * Whenever the clock reads as hour `hour`, the rule emits exactly the
   * greeting for that hour followed by the profile instruction, and returns
   * `True`; it never returns `False`.
   */
  lemma HandleAlwaysGreets(data: TelemetryData, hour: int)
    requires data.game.Some? && HourOf(data.game.value.time) == Success(hour)
    ensures Handle(data) == Outcome(Request(GreetingMessage(hour)), Returned(PyTrue))
    ensures Handle(data).emission.value.1 == [Lit(Greeting(hour) + ProfileInstruction)]
  {
  }

  /** `handle` never returns `False` or `None`: it greets or it raises. */
  lemma NeverDeclines(data: TelemetryData)
    ensures Handle(data).result.Returned? ==> Handle(data).result.value == PyTrue && Handle(data).emission.Some?
    ensures Handle(data).result.Raised? ==> Handle(data).emission.None?
  {
  }

  /** The clock `"H:MM"` greets for hour `H`. */
  lemma ClockGreeting(data: TelemetryData, h: nat, minutes: string)
    requires data.game.Some? && data.game.value.time == Decimal(h) + [':'] + minutes
    ensures Handle(data) == Outcome(Request(GreetingMessage(h)), Returned(PyTrue))
  {
    HourOfClock(h, minutes);
  }

  /** The constructor passes `cooldown` and `chance`, which the base class does not take. */
  lemma ConstructionRaises()
    ensures BaseInit(ConstructorKeywords).Failure?
  {
    CooldownKeywordRaises(ConstructorKeywords);
  }
}
