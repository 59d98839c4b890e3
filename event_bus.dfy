/**
 * The event bus, sequentially: a handler table per event type, one FIFO queue
 * per category, the state flags, and the flag that blocks telemetry rules.
 *
 * Emitting appends to the category's queue; draining the queue pops events
 * from the front and hands each to the handlers subscribed to its type at
 * that moment, in subscription order. A handler that raises is logged and
 * the remaining handlers still run.
 */
module Bus {
  import opened Wrappers
  import opened Python
  import opened Events

  datatype QueuedEvent = QueuedEvent(event: EventType, data: Payload)

  /** One call of a handler with an event's data. */
  datatype Delivery = Delivery(handler: Callback, event: EventType, data: Payload)

  /** A defaulting lookup in the handler table (`defaultdict(list)`). */
  function Subscribers(table: map<EventType, seq<Callback>>, e: EventType): seq<Callback> {
    if e in table then table[e] else []
  }

  /** The calls that delivering one event makes: one per subscribed handler, in order. */
  function Deliver(hs: seq<Callback>, e: EventType, d: Payload): (calls: seq<Delivery>)
    ensures |calls| == |hs|
  {
    if hs == [] then [] else [Delivery(hs[0], e, d)] + Deliver(hs[1..], e, d)
  }

  /** The calls that draining a queue makes, event after event. */
  function Dispatch(q: seq<QueuedEvent>, table: map<EventType, seq<Callback>>): seq<Delivery> {
    if q == [] then []
    else Deliver(Subscribers(table, q[0].event), q[0].event, q[0].data) + Dispatch(q[1..], table)
  }

  /** The handlers that raise, in the order they were called. */
  function Raising(hs: seq<Callback>, failing: set<Callback>): (r: seq<Callback>)
    ensures forall h :: h in r <==> h in hs && h in failing
  {
    if hs == [] then []
    else (if hs[0] in failing then [hs[0]] else []) + Raising(hs[1..], failing)
  }

  lemma {:induction false} DeliverAppend(a: seq<Callback>, b: seq<Callback>, e: EventType, d: Payload)
    ensures Deliver(a + b, e, d) == Deliver(a, e, d) + Deliver(b, e, d)
  {
    if a == [] {
      assert a + b == b;
    } else {
      assert (a + b)[1..] == a[1..] + b;
      DeliverAppend(a[1..], b, e, d);
    }
  }

  lemma {:induction false} RaisingAppend(a: seq<Callback>, b: seq<Callback>, failing: set<Callback>)
    ensures Raising(a + b, failing) == Raising(a, failing) + Raising(b, failing)
  {
    if a == [] {
      assert a + b == b;
    } else {
      assert (a + b)[1..] == a[1..] + b;
      RaisingAppend(a[1..], b, failing);
    }
  }

  lemma DispatchStep(q: seq<QueuedEvent>, table: map<EventType, seq<Callback>>)
    requires q != []
    ensures Dispatch(q, table) == Deliver(Subscribers(table, q[0].event), q[0].event, q[0].data) + Dispatch(q[1..], table)
  {
  }

  /** Popping the front event moves its calls from what is left to what has been made. */
  lemma DrainStep(calls: seq<Delivery>, rest: seq<QueuedEvent>, table: map<EventType, seq<Callback>>, total: seq<Delivery>)
    requires rest != [] && calls + Dispatch(rest, table) == total
    ensures calls + Deliver(Subscribers(table, rest[0].event), rest[0].event, rest[0].data) + Dispatch(rest[1..], table) == total
  {
    var first := Deliver(Subscribers(table, rest[0].event), rest[0].event, rest[0].data);
    var later := Dispatch(rest[1..], table);
    DispatchStep(rest, table);
    assert calls + (first + later) == calls + first + later;
  }

  /** Delivery calls every subscribed handler with the event's own data, in subscription order. */
  lemma {:induction false} DeliverCallsEachHandler(hs: seq<Callback>, e: EventType, d: Payload)
    ensures forall i :: 0 <= i < |hs| ==> Deliver(hs, e, d)[i] == Delivery(hs[i], e, d)
  {
    if hs != [] {
      DeliverCallsEachHandler(hs[1..], e, d);
      assert forall i :: 0 < i < |hs| ==> Deliver(hs, e, d)[i] == Deliver(hs[1..], e, d)[i - 1];
    }
  }

  /** A handler subscribed `n` times receives each event `n` times. */
  lemma {:induction false} DeliverCountsSubscriptions(hs: seq<Callback>, e: EventType, d: Payload, h: Callback)
    ensures multiset(Deliver(hs, e, d))[Delivery(h, e, d)] == multiset(hs)[h]
  {
    if hs != [] {
      DeliverCountsSubscriptions(hs[1..], e, d, h);
      assert hs == [hs[0]] + hs[1..];
    }
  }

  /**
   * Events emitted later are delivered later: draining `q1 + q2` makes all of
   * `q1`'s calls before any of `q2`'s.
   */
  lemma {:induction false} DispatchAppend(q1: seq<QueuedEvent>, q2: seq<QueuedEvent>, table: map<EventType, seq<Callback>>)
    ensures Dispatch(q1 + q2, table) == Dispatch(q1, table) + Dispatch(q2, table)
  {
    if q1 == [] {
      assert q1 + q2 == q2;
    } else {
      assert (q1 + q2)[0] == q1[0];
      assert (q1 + q2)[1..] == q1[1..] + q2;
      DispatchAppend(q1[1..], q2, table);
    }
  }

  /** Each queued event is delivered exactly once: the calls are as many as the subscriptions of the queued events. */
  function SubscriptionCount(q: seq<QueuedEvent>, table: map<EventType, seq<Callback>>): nat {
    if q == [] then 0 else |Subscribers(table, q[0].event)| + SubscriptionCount(q[1..], table)
  }

  lemma {:induction false} DispatchSize(q: seq<QueuedEvent>, table: map<EventType, seq<Callback>>)
    ensures |Dispatch(q, table)| == SubscriptionCount(q, table)
  {
    if q != [] {
      DispatchSize(q[1..], table);
    }
  }

  class EventBus {
    var handlers: map<EventType, seq<Callback>>
    var queues: map<EventCategory, seq<QueuedEvent>>
    var stateFlags: map<EventType, bool>
    var telemetryHandlersBlocked: bool

    /** The states whose flag blocks emission (`block_emit_on_states`). */
    const blockEmitOnStates: seq<EventType> := [UserSpeechStart]

    constructor()
      ensures handlers == map[] && queues == map[] && stateFlags == map[]
      ensures !telemetryHandlersBlocked
    {
      handlers := map[];
      queues := map[];
      stateFlags := map[];
      telemetryHandlersBlocked := false;
    }

    function HandlersOf(e: EventType): seq<Callback>
      reads this
    {
      Subscribers(handlers, e)
    }

    function QueueOf(c: EventCategory): seq<QueuedEvent>
      reads this
    {
      if c in queues then queues[c] else []
    }

    /** A defaulting read of a state flag (`defaultdict(bool)`). */
    function StateOf(e: EventType): bool
      reads this
    {
      e in stateFlags && stateFlags[e]
    }

    method Subscribe(e: EventType, h: Callback)
      modifies this
      ensures handlers == old(handlers)[e := old(HandlersOf(e)) + [h]]
      ensures queues == old(queues) && stateFlags == old(stateFlags)
      ensures telemetryHandlersBlocked == old(telemetryHandlersBlocked)
    {
      handlers := handlers[e := HandlersOf(e) + [h]];
    }

    /**
     * Rebuilds the list unpacking every stored entry as a pair; the entries are
     * bare callables, so this raises unless the list is empty.
     */
    method Unsubscribe(e: EventType, h: Callback) returns (r: Result<(), PyError>)
      modifies this
      ensures r.Success? <==> old(HandlersOf(e)) == []
      ensures r.Success? ==> handlers == old(handlers)[e := []]
      ensures r.Failure? ==> r.error.TypeError? && handlers == old(handlers)
      ensures queues == old(queues) && stateFlags == old(stateFlags)
      ensures telemetryHandlersBlocked == old(telemetryHandlersBlocked)
    {
      if HandlersOf(e) == [] {
        handlers := handlers[e := []];
        r := Success(());
      } else {
        r := Failure(TypeError("cannot unpack non-iterable method object"));
      }
    }

    /** Queues `(e, data)` on the category's queue; GENERIC when no category is given. */
    method Emit(e: EventType, data: Payload, category: EventCategory := Generic)
      modifies this
      ensures queues == old(queues)[category := old(QueueOf(category)) + [QueuedEvent(e, data)]]
      ensures handlers == old(handlers) && stateFlags == old(stateFlags)
      ensures telemetryHandlersBlocked == old(telemetryHandlersBlocked)
    {
      queues := queues[category := QueueOf(category) + [QueuedEvent(e, data)]];
    }

    /**
     * Calls every handler subscribed to `e` with `data`; `failing` names the
     * handlers that raise, whose errors are logged without stopping the rest.
     */
    method HandleEvent(e: EventType, data: Payload, failing: set<Callback>) returns (calls: seq<Delivery>, errors: seq<Callback>)
      ensures calls == Deliver(HandlersOf(e), e, data)
      ensures errors == Raising(HandlersOf(e), failing)
    {
      var hs := HandlersOf(e);
      calls, errors := [], [];
      for i := 0 to |hs|
        invariant calls == Deliver(hs[..i], e, data)
        invariant errors == Raising(hs[..i], failing)
      {
        DeliverAppend(hs[..i], [hs[i]], e, data);
        RaisingAppend(hs[..i], [hs[i]], failing);
        assert hs[..i + 1] == hs[..i] + [hs[i]];
        calls := calls + [Delivery(hs[i], e, data)];
        if hs[i] in failing {
          errors := errors + [hs[i]];
        }
      }
      assert hs[..|hs|] == hs;
    }

    /** Drains one category's queue from the front, delivering each event in turn. */
    method ProcessQueue(category: EventCategory, failing: set<Callback>) returns (calls: seq<Delivery>)
      modifies this
      ensures calls == Dispatch(old(QueueOf(category)), handlers)
      ensures queues == old(queues)[category := []]
      ensures handlers == old(handlers) && stateFlags == old(stateFlags)
      ensures telemetryHandlersBlocked == old(telemetryHandlersBlocked)
    {
      var table := handlers;
      ghost var total := Dispatch(QueueOf(category), table);
      ghost var queues0 := queues;
      calls := [];
      var rest := QueueOf(category);
      queues := queues[category := rest];
      while rest != []
        invariant calls + Dispatch(rest, table) == total
        invariant queues == queues0[category := rest]
        invariant handlers == table && stateFlags == old(stateFlags)
        invariant telemetryHandlersBlocked == old(telemetryHandlersBlocked)
      {
        var next := rest[0];
        var delivered, _ := HandleEvent(next.event, next.data, failing);
        DrainStep(calls, rest, table, total);
        rest := rest[1..];
        queues := queues[category := rest];
        calls := calls + delivered;
      }
    }

    /** True exactly when a state listed in `block_emit_on_states` is active. */
    function IsBlocked(): (r: bool)
      reads this
      ensures r <==> StateOf(UserSpeechStart)
    {
      assert blockEmitOnStates[0] == UserSpeechStart && !AnyActive(blockEmitOnStates[1..]);
      AnyActive(blockEmitOnStates)
    }

    function AnyActive(states: seq<EventType>): bool
      reads this
    {
      states != [] && (StateOf(states[0]) || AnyActive(states[1..]))
    }

    method BlockTelemetryHandlers()
      modifies this
      ensures telemetryHandlersBlocked
      ensures handlers == old(handlers) && queues == old(queues) && stateFlags == old(stateFlags)
    {
      telemetryHandlersBlocked := true;
    }

    method UnblockTelemetryHandlers()
      modifies this
      ensures !telemetryHandlersBlocked
      ensures handlers == old(handlers) && queues == old(queues) && stateFlags == old(stateFlags)
    {
      telemetryHandlersBlocked := false;
    }

    method SetState(e: EventType, active: bool)
      modifies this
      ensures stateFlags == old(stateFlags)[e := active]
      ensures handlers == old(handlers) && queues == old(queues)
      ensures telemetryHandlersBlocked == old(telemetryHandlersBlocked)
    {
      stateFlags := stateFlags[e := active];
    }
  }
}
