/**
 * The gate every telemetry rule passes through before its own check runs:
 * once-only, the shared block flag, a minimum wait after start, a cool-down
 * since the last emission and a probabilistic chance. A rule that fires
 * blocks every other rule until its prompt has been answered, unless it
 * reports that its condition did not hold.
 *
 * The clock (`time.time()`) and the random draw (`random.random()`) are
 * parameters: `now` and `sample`.
 */
module TelemetryHandlers {
  import opened Wrappers
  import opened Python
  import opened Events
  import opened Bus
  import opened TelemetrySubscriptions

  /** How one `handle_telemetry_data` call ends before the rule's own check. */
  datatype Verdict =
    | AlreadyTriggered   // a once-only rule that has fired
    | Blocked            // another rule holds the shared flag
    | TooEarly           // the minimum wait since start has not passed
    | NotDue             // cooling down or the chance draw failed: the flag is released
    | Fire               // the rule's own check runs

  /** Cooled down: never emitted, or strictly more than `cooldown` seconds since the last emission. */
  predicate CooledDown(lastEmitTime: Option<real>, now: real, cooldown: int) {
    lastEmitTime.None? || now - lastEmitTime.value > cooldown as real
  }

  /** The checks of `handle_telemetry_data`, in the order the source makes them. */
  function Decide(
    onlyOnce: bool, hasTriggeredOnce: bool, blocked: bool,
    now: real, startTime: real, minimumWaitTime: int,
    lastEmitTime: Option<real>, cooldown: int,
    sample: real, chance: real): Verdict
  {
    if hasTriggeredOnce && onlyOnce then AlreadyTriggered
    else if blocked then Blocked
    else if !(now - startTime >= minimumWaitTime as real) then TooEarly
    else if CooledDown(lastEmitTime, now, cooldown) && sample < chance then Fire
    else NotDue
  }

  /** A rule fires exactly when every one of the five conditions holds. */
  lemma DecideFiresIff(
    onlyOnce: bool, hasTriggeredOnce: bool, blocked: bool,
    now: real, startTime: real, minimumWaitTime: int,
    lastEmitTime: Option<real>, cooldown: int,
    sample: real, chance: real)
    ensures Decide(onlyOnce, hasTriggeredOnce, blocked, now, startTime, minimumWaitTime, lastEmitTime, cooldown, sample, chance) == Fire
        <==> !(onlyOnce && hasTriggeredOnce) && !blocked && now - startTime >= minimumWaitTime as real
             && CooledDown(lastEmitTime, now, cooldown) && sample < chance
  {
  }

  /** While the shared flag is set no rule fires, and the flag is left as it is. */
  lemma BlockedNeverFires(
    onlyOnce: bool, hasTriggeredOnce: bool,
    now: real, startTime: real, minimumWaitTime: int,
    lastEmitTime: Option<real>, cooldown: int,
    sample: real, chance: real)
    ensures Decide(onlyOnce, hasTriggeredOnce, true, now, startTime, minimumWaitTime, lastEmitTime, cooldown, sample, chance)
            in {AlreadyTriggered, Blocked}
  {
  }

  /**
   * With `random.random()` in [0, 1): chance 1 only ever fails on the other
   * conditions, chance 0 never fires.
   */
  lemma ChanceBounds(
    onlyOnce: bool, hasTriggeredOnce: bool, blocked: bool,
    now: real, startTime: real, minimumWaitTime: int,
    lastEmitTime: Option<real>, cooldown: int, sample: real)
    requires 0.0 <= sample < 1.0
    ensures Decide(onlyOnce, hasTriggeredOnce, blocked, now, startTime, minimumWaitTime, lastEmitTime, cooldown, sample, 0.0) != Fire
    ensures Decide(onlyOnce, hasTriggeredOnce, blocked, now, startTime, minimumWaitTime, lastEmitTime, cooldown, sample, 1.0) == Fire
        <==> !(onlyOnce && hasTriggeredOnce) && !blocked && now - startTime >= minimumWaitTime as real
             && CooledDown(lastEmitTime, now, cooldown)
  {
  }

  /** The cool-down is strict: exactly `cooldown` seconds after an emission the rule does not fire yet. */
  lemma CooldownIsStrict(
    onlyOnce: bool, hasTriggeredOnce: bool, blocked: bool,
    startTime: real, minimumWaitTime: int,
    last: real, cooldown: int, sample: real, chance: real)
    ensures Decide(onlyOnce, hasTriggeredOnce, blocked, last + cooldown as real, startTime, minimumWaitTime, Some(last), cooldown, sample, chance) != Fire
  {
  }

  /** The minimum wait is not strict: at exactly `minimumWaitTime` after start that check passes. */
  lemma MinimumWaitIsInclusive(
    onlyOnce: bool, hasTriggeredOnce: bool, blocked: bool,
    startTime: real, minimumWaitTime: int,
    lastEmitTime: Option<real>, cooldown: int, sample: real, chance: real)
    ensures Decide(onlyOnce, hasTriggeredOnce, blocked, startTime + minimumWaitTime as real, startTime, minimumWaitTime, lastEmitTime, cooldown, sample, chance) != TooEarly
  {
  }

  /** What a rule's `handle` returns, or the exception it raises. */
  datatype HandleResult = Returned(value: PyReturn) | Raised(error: PyError)

  /**
   * What a rule's own check did: the event it emitted, if any (always before
   * it returns or raises), and how it ended.
   */
  datatype Outcome = Outcome(emission: Option<(EventType, Message)>, result: HandleResult)

  class TelemetryEventHandlers {
    /** The rule object: the identity the subscription manager calls back. */
    const id: ObjectId
    const bus: EventBus
    const manager: TelemetrySubscriptionManager
    const cooldown: int
    const chance: real
    const minimumWaitTime: int
    const subscriptions: seq<string>
    const onlyOnce: bool
    const startTime: real

    var lastEmitTime: Option<real>
    var hasTriggeredOnce: bool

    /** Records the start time and subscribes the rule to its telemetry fields. */
    constructor(id: ObjectId, bus: EventBus, manager: TelemetrySubscriptionManager,
                cooldown: int, chance: real, minimumWaitTime: int, subscriptions: seq<string>,
                onlyOnce: bool, now: real)
      modifies manager
      ensures this.id == id && this.bus == bus && this.manager == manager
      ensures this.cooldown == cooldown && this.chance == chance && this.minimumWaitTime == minimumWaitTime
      ensures this.subscriptions == subscriptions && this.onlyOnce == onlyOnce && startTime == now
      ensures lastEmitTime.None? && !hasTriggeredOnce
      ensures manager.subscriptions == SubscribeAll(old(manager.subscriptions), subscriptions, id)
      ensures manager.lastKnownValues == old(manager.lastKnownValues)
    {
      this.id := id;
      this.bus := bus;
      this.manager := manager;
      this.cooldown := cooldown;
      this.chance := chance;
      this.minimumWaitTime := minimumWaitTime;
      this.subscriptions := subscriptions;
      this.onlyOnce := onlyOnce;
      startTime := now;
      lastEmitTime := None;
      hasTriggeredOnce := false;
      new;
      manager.Subscribe(Many(subscriptions), id);
    }

    /** The gate's verdict for a call at `now` with the random draw `sample`. */
    function VerdictAt(now: real, sample: real): Verdict
      reads this, bus
    {
      Decide(onlyOnce, hasTriggeredOnce, bus.telemetryHandlersBlocked, now, startTime, minimumWaitTime,
             lastEmitTime, cooldown, sample, chance)
    }

    /** Stamps the emission time and queues the prompt on the TELEMETRY queue. */
    method EmitEvent(now: real, e: EventType, message: Message)
      modifies this, bus
      ensures lastEmitTime == Some(now) && hasTriggeredOnce == old(hasTriggeredOnce)
      ensures bus.queues == old(bus.queues)[Telemetry := old(bus.QueueOf(Telemetry)) + [QueuedEvent(e, Prompt(message))]]
      ensures bus.handlers == old(bus.handlers) && bus.stateFlags == old(bus.stateFlags)
      ensures bus.telemetryHandlersBlocked == old(bus.telemetryHandlersBlocked)
    {
      lastEmitTime := Some(now);
      bus.Emit(e, Prompt(message), Telemetry);
    }

    /**
     * One `handle_telemetry_data` call. On `Fire` the flag is set before the
     * rule's check runs and released again only when the check returns
     * `False`; a check that raises leaves it set and the rule not marked as
     * triggered. On `NotDue` the flag is released.
     */
    method HandleTelemetryData(now: real, sample: real, outcome: Outcome) returns (r: Result<(), PyError>)
      modifies this, bus
      ensures old(VerdictAt(now, sample)) != Fire ==>
                r.Success? && lastEmitTime == old(lastEmitTime) && hasTriggeredOnce == old(hasTriggeredOnce)
                && bus.queues == old(bus.queues)
      ensures old(VerdictAt(now, sample)) in {AlreadyTriggered, Blocked, TooEarly} ==>
                bus.telemetryHandlersBlocked == old(bus.telemetryHandlersBlocked)
      ensures old(VerdictAt(now, sample)) == NotDue ==> !bus.telemetryHandlersBlocked
      ensures old(VerdictAt(now, sample)) == Fire && outcome.emission.Some? ==>
                var (e, message) := outcome.emission.value;
                lastEmitTime == Some(now)
                && bus.queues == old(bus.queues)[Telemetry := old(bus.QueueOf(Telemetry)) + [QueuedEvent(e, Prompt(message))]]
      ensures old(VerdictAt(now, sample)) == Fire && outcome.emission.None? ==>
                lastEmitTime == old(lastEmitTime) && bus.queues == old(bus.queues)
      ensures old(VerdictAt(now, sample)) == Fire && outcome.result.Raised? ==>
                r == Failure(outcome.result.error) && bus.telemetryHandlersBlocked
                && hasTriggeredOnce == old(hasTriggeredOnce)
      ensures old(VerdictAt(now, sample)) == Fire && outcome.result.Returned? ==>
                r.Success? && hasTriggeredOnce
                && (bus.telemetryHandlersBlocked <==> outcome.result.value != PyFalse)
      ensures bus.handlers == old(bus.handlers) && bus.stateFlags == old(bus.stateFlags)
    {
      var v := VerdictAt(now, sample);
      if v == Fire {
        bus.BlockTelemetryHandlers();
        if outcome.emission.Some? {
          EmitEvent(now, outcome.emission.value.0, outcome.emission.value.1);
        }
        match outcome.result
        case Raised(err) =>
          return Failure(err);
        case Returned(value) =>
          hasTriggeredOnce := true;
          if value == PyFalse {
            bus.UnblockTelemetryHandlers();
          }
          return Success(());
      } else if v == NotDue {
        bus.UnblockTelemetryHandlers();
      }
      r := Success(());
    }

    /** Subscribes `handle_telemetry_data` to TELEMETRY_RECEIVED. */
    method Register()
      modifies bus
      ensures bus.handlers == old(bus.handlers)[TelemetryReceived := old(bus.HandlersOf(TelemetryReceived)) + [Bound(id, "handle_telemetry_data")]]
      ensures bus.queues == old(bus.queues) && bus.stateFlags == old(bus.stateFlags)
      ensures bus.telemetryHandlersBlocked == old(bus.telemetryHandlersBlocked)
    {
      bus.Subscribe(TelemetryReceived, Bound(id, "handle_telemetry_data"));
    }

    /**
     * Unsubscribes from the bus, then from every field. The bus raises while
     * any handler is still subscribed to TELEMETRY_RECEIVED, and then the
     * fields are left subscribed.
     */
    method Unregister() returns (r: Result<(), PyError>)
      modifies bus, manager
      ensures r.Success? <==> old(bus.HandlersOf(TelemetryReceived)) == []
      ensures r.Failure? ==> r.error.TypeError? && manager.subscriptions == old(manager.subscriptions)
                             && bus.handlers == old(bus.handlers)
      ensures r.Success? ==> manager.subscriptions == UnsubscribeAll(old(manager.subscriptions), subscriptions, id)
                             && bus.handlers == old(bus.handlers)[TelemetryReceived := []]
      ensures manager.lastKnownValues == old(manager.lastKnownValues)
      ensures bus.queues == old(bus.queues) && bus.stateFlags == old(bus.stateFlags)
      ensures bus.telemetryHandlersBlocked == old(bus.telemetryHandlersBlocked)
    {
      r := bus.Unsubscribe(TelemetryReceived, Bound(id, "handle_telemetry_data"));
      if r.Failure? {
        return;
      }
      for i := 0 to |subscriptions|
        invariant manager.subscriptions == UnsubscribeAll(old(manager.subscriptions), subscriptions[..i], id)
        invariant manager.lastKnownValues == old(manager.lastKnownValues)
        invariant bus.handlers == old(bus.handlers)[TelemetryReceived := []]
        invariant bus.queues == old(bus.queues) && bus.stateFlags == old(bus.stateFlags)
        invariant bus.telemetryHandlersBlocked == old(bus.telemetryHandlersBlocked)
      {
        UnsubscribeAllSnoc(old(manager.subscriptions), subscriptions[..i], subscriptions[i], id);
        assert subscriptions[..i + 1] == subscriptions[..i] + [subscriptions[i]];
        manager.Unsubscribe(One(subscriptions[i]), id);
      }
      assert subscriptions[..|subscriptions|] == subscriptions;
    }
  }
}
