/**
 * The dynamic-session provider's interval counter: every completed request
 * calls `update_profiles`, which runs the provider's `process` once the
 * number of calls since the last run has reached the interaction interval.
 * `process` itself belongs to the concrete providers; here a call reports
 * whether it ran.
 */
module DynamicSession {
  import opened Wrappers
  import opened Python
  import opened Events
  import opened Bus

  /** One `update_profiles` call: whether `process` runs, and the new counter. */
  function Tick(counter: int, interval: int): (bool, int) {
    if counter >= interval then (true, 1) else (false, counter + 1)
  }

  /** The counter after `calls` calls. */
  function CounterAfter(counter: int, interval: int, calls: nat): int {
    if calls == 0 then counter else Tick(CounterAfter(counter, interval, calls - 1), interval).1
  }

  /** Whether call number `i` (counting from 0) runs `process`. */
  function Fires(counter: int, interval: int, i: nat): bool {
    Tick(CounterAfter(counter, interval, i), interval).0
  }

  /** The counter after `a + b` calls is the counter after `b` calls started from the one after `a`. */
  lemma {:induction false} CounterAfterCompose(counter: int, interval: int, a: nat, b: nat)
    ensures CounterAfter(counter, interval, a + b) == CounterAfter(CounterAfter(counter, interval, a), interval, b)
  {
    if b > 0 {
      CounterAfterCompose(counter, interval, a, b - 1);
    }
  }

  /** Below the interval the counter counts the calls. */
  lemma {:induction false} CounterCounts(counter: int, interval: int, calls: nat)
    requires counter + calls <= interval
    ensures CounterAfter(counter, interval, calls) == counter + calls
  {
    if calls > 0 {
      CounterCounts(counter, interval, calls - 1);
    }
  }

  /** From any counter between 1 and the interval, `interval` calls bring the counter back where it was. */
  lemma CounterCycles(counter: int, interval: int)
    requires 1 <= counter <= interval
    ensures CounterAfter(counter, interval, interval) == counter
  {
    var upTo := interval - counter;
    CounterCounts(counter, interval, upTo);
    CounterAfterCompose(counter, interval, upTo, counter);
    assert CounterAfter(counter, interval, upTo) == interval;
    CounterAfterCompose(interval, interval, 1, counter - 1);
    assert CounterAfter(interval, interval, 1) == 1;
    CounterCounts(1, interval, counter - 1);
  }

  /**
   * From counter 0 and an interval `n` of at least 1, the first `n` calls
   * do not run `process`, call `n` (counting from 0, so the (n+1)-th) does,
   * and from call 1 on the pattern repeats every `n` calls: `process` runs
   * on the (n+1)-th, (2n+1)-th, ... call.
   */
  lemma FiringSchedule(n: int, i: nat)
    requires n >= 1
    ensures i < n ==> !Fires(0, n, i)
    ensures Fires(0, n, n)
    ensures i >= 1 ==> Fires(0, n, i + n) == Fires(0, n, i)
  {
    CounterCounts(0, n, n);
    if i <= n {
      CounterCounts(0, n, i);
    }
    if i >= 1 {
      CounterAfterCompose(0, n, i, n);
      var v := CounterAfter(0, n, i);
      assert 1 <= v <= n by { CounterStaysInCycle(n, i); }
      CounterCycles(v, n);
    }
  }

  /** After the first call the counter stays between 1 and the interval. */
  lemma {:induction false} CounterStaysInCycle(n: int, i: nat)
    requires n >= 1 && i >= 1
    ensures 1 <= CounterAfter(0, n, i) <= n
  {
    if i > 1 {
      CounterStaysInCycle(n, i - 1);
    }
  }

  /** With an interval of 0 or less, every call runs `process`. */
  lemma {:induction false} NonPositiveIntervalAlwaysFires(counter: nat, interval: int, i: nat)
    requires interval <= 0
    ensures CounterAfter(counter, interval, i) >= 0
    ensures Fires(counter, interval, i)
  {
    if i > 0 {
      NonPositiveIntervalAlwaysFires(counter, interval, i - 1);
    }
  }

  class DynamicSessionProvider {
    const id: ObjectId
    const bus: EventBus
    const historySize: int
    const interactionInterval: int
    /** `total_interactions_after_last_update`. */
    var counter: int

    constructor(id: ObjectId, bus: EventBus, historySize: int, interactionInterval: int)
      ensures this.id == id && this.bus == bus
      ensures this.historySize == historySize && this.interactionInterval == interactionInterval
      ensures counter == 0
    {
      this.id := id;
      this.bus := bus;
      this.historySize := historySize;
      this.interactionInterval := interactionInterval;
      counter := 0;
    }

    function UpdateCallback(): Callback { Bound(id, "update_profiles") }

    /**
     * `update_profiles`: runs `process` iff the counter has reached the
     * interval; the counter is then reset to 0, and in either case it grows
     * by one.
     */
    method UpdateProfiles() returns (processed: bool)
      modifies this
      ensures processed <==> old(counter) >= interactionInterval
      ensures counter == if processed then 1 else old(counter) + 1
      ensures (processed, counter) == Tick(old(counter), interactionInterval)
    {
      processed := false;
      if counter >= interactionInterval {
        processed := true;
        counter := 0;
      }
      counter := counter + 1;
    }

    /** `register`: `update_profiles` on every completed request. */
    method Register()
      modifies bus
      ensures bus.handlers == old(bus.handlers)[RequestComplete := old(bus.HandlersOf(RequestComplete)) + [UpdateCallback()]]
      ensures bus.queues == old(bus.queues) && bus.stateFlags == old(bus.stateFlags)
      ensures bus.telemetryHandlersBlocked == old(bus.telemetryHandlersBlocked)
    {
      bus.Subscribe(RequestComplete, UpdateCallback());
    }

    /** `unregister`: raises `TypeError` unless nothing is subscribed to completed requests. */
    method Unregister() returns (r: Result<(), PyError>)
      modifies bus
      ensures r.Success? <==> old(bus.HandlersOf(RequestComplete)) == []
      ensures r.Success? ==> bus.handlers == old(bus.handlers)[RequestComplete := []]
      ensures r.Failure? ==> r.error.TypeError? && bus.handlers == old(bus.handlers)
    {
      r := bus.Unsubscribe(RequestComplete, UpdateCallback());
    }
  }
}
