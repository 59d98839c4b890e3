/**
 * The trivia rule: one minute after start, asks for a piece of trivia on
 * every fired call, whatever the navigation data. It keeps the base class's
 * constructor, cool-down 0 and chance 1, and its `handle` returns nothing.
 */
module CulturalTrivia {
  import opened Wrappers
  import opened Python
  import opened Events
  import opened Bus
  import opened TelemetryModel
  import opened TelemetryHandlers
  import opened TelemetryRules

  const Subscriptions: seq<string> := ["navigation.distance"]
  /** Seconds after start before the first trivia. */
  const MinimumWaitTime: int := 60
  const Cooldown: int := 0
  const Chance: real := 1.0

  const TriviaMessage: string := "Resume the conversation by providing a trivia based on either your profile data or the user's profile data."

  /** `handle` through `provide_cultural_trivia`: the navigation record is passed along but never read. */
  function Handle(data: TelemetryData): Outcome {
    Outcome(Request(Fixed(TriviaMessage)), Returned(PyNone))
  }

  /**
   * The rule asks for trivia on every input, even without navigation data,
   * never raises and returns `None`, so it never releases the shared flag.
   */
  lemma HandleIgnoresData(data: TelemetryData, other: TelemetryData)
    ensures Handle(data) == Handle(other)
    ensures Handle(data).emission == Some((DialogueResponseRequest, [Lit(TriviaMessage)]))
    ensures Handle(data).result == Returned(PyNone)
  {
  }

  /**
   * With the rule's constants and a draw in [0, 1), the gate fires exactly
   * when the rule is not spent, no rule holds the flag, a minute has passed
   * since start, and time has moved on since the last emission.
   */
  lemma TriviaGate(onlyOnce: bool, hasTriggeredOnce: bool, blocked: bool,
                   now: real, startTime: real, lastEmitTime: Option<real>, sample: real)
    requires 0.0 <= sample < 1.0
    ensures Decide(onlyOnce, hasTriggeredOnce, blocked, now, startTime, MinimumWaitTime,
                   lastEmitTime, Cooldown, sample, Chance) == Fire
        <==> !(onlyOnce && hasTriggeredOnce) && !blocked && now - startTime >= 60.0
             && (lastEmitTime.None? || now > lastEmitTime.value)
  {
    ChanceBounds(onlyOnce, hasTriggeredOnce, blocked, now, startTime, MinimumWaitTime, lastEmitTime, Cooldown, sample);
  }

  /**
   * One `handle_telemetry_data` call of a trivia rule: when the gate fires,
   * the trivia is queued on the TELEMETRY queue and the shared flag stays
   * set afterwards, blocking every other rule until the prompt is answered.
   */
  method HandleTriviaData(rule: TelemetryEventHandlers, now: real, sample: real, data: TelemetryData)
      returns (r: Result<(), PyError>)
    modifies rule, rule.bus
    ensures r.Success?
    ensures old(rule.VerdictAt(now, sample)) == Fire ==>
              rule.bus.telemetryHandlersBlocked && rule.hasTriggeredOnce && rule.lastEmitTime == Some(now)
              && rule.bus.queues == old(rule.bus.queues)[Telemetry := old(rule.bus.QueueOf(Telemetry))
                                      + [QueuedEvent(DialogueResponseRequest, Prompt([Lit(TriviaMessage)]))]]
    ensures old(rule.VerdictAt(now, sample)) != Fire ==>
              rule.bus.queues == old(rule.bus.queues) && rule.lastEmitTime == old(rule.lastEmitTime)
  {
    r := rule.HandleTelemetryData(now, sample, Handle(data));
  }
}
