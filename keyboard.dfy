/**
 * The keyboard manager: a registry of key-press callbacks without
 * duplicates, a dispatcher that calls every callback in registration order
 * even when some raise, and start/stop guards on the global key listener.
 */
module Keyboard {
  import opened Events
  import opened Lists
  import Bus

  /** A key as the key listener reports it: a named special key or a character. */
  datatype Key = Special(name: string) | Character(c: char)

  const Alt: Key := Special("alt")

  predicate NoDuplicates(cs: seq<Callback>) {
    forall i, j :: 0 <= i < j < |cs| ==> cs[i] != cs[j]
  }

  /** `register_callback`: appended unless already present. */
  function Registered(cs: seq<Callback>, h: Callback): seq<Callback> {
    if h in cs then cs else cs + [h]
  }

  /** `unregister_callback`: removed if present, otherwise nothing happens. */
  function Unregistered(cs: seq<Callback>, h: Callback): seq<Callback> {
    if h in cs then ListRemove(cs, h) else cs
  }

  /** Registering keeps the list free of duplicates and leaves the callback registered. */
  lemma RegisterKeepsDistinct(cs: seq<Callback>, h: Callback)
    requires NoDuplicates(cs)
    ensures NoDuplicates(Registered(cs, h))
    ensures h in Registered(cs, h)
    ensures forall g :: g in cs ==> g in Registered(cs, h)
  {
  }

  /** Dropping position `i` of a list without duplicates drops exactly `cs[i]`. */
  lemma DropAt(cs: seq<Callback>, i: nat)
    requires NoDuplicates(cs) && i < |cs|
    ensures forall g :: g in cs[..i] + cs[i + 1..] <==> g in cs && g != cs[i]
    ensures NoDuplicates(cs[..i] + cs[i + 1..])
  {
    var r := cs[..i] + cs[i + 1..];
    assert |r| == |cs| - 1;
    assert forall a :: 0 <= a < |r| ==> r[a] == cs[if a < i then a else a + 1];
    assert cs == cs[..i] + [cs[i]] + cs[i + 1..];
  }

  /** Unregistering from a list without duplicates removes exactly that callback and keeps the order of the rest. */
  lemma UnregisterRemoves(cs: seq<Callback>, h: Callback, i: nat)
    requires NoDuplicates(cs)
    requires i < |cs| && cs[i] == h
    ensures Unregistered(cs, h) == cs[..i] + cs[i + 1..]
    ensures forall g :: g in Unregistered(cs, h) <==> g in cs && g != h
    ensures NoDuplicates(Unregistered(cs, h))
  {
    assert h !in cs[..i];
    ListRemoveFirst(cs, h, i);
    DropAt(cs, i);
  }

  /** Unregistering a callback that is not registered changes nothing. */
  lemma UnregisterAbsent(cs: seq<Callback>, h: Callback)
    requires h !in cs
    ensures Unregistered(cs, h) == cs
  {
  }

  /** Registering a new callback and then unregistering it restores the list. */
  lemma RegisterThenUnregister(cs: seq<Callback>, h: Callback)
    requires h !in cs
    ensures Unregistered(Registered(cs, h), h) == cs
  {
    ListRemoveFirst(cs + [h], h, |cs|);
    assert (cs + [h])[..|cs|] == cs;
  }

  class KeyboardManager {
    var callbacks: seq<Callback>
    /** `listener.running`. */
    var running: bool

    constructor()
      ensures callbacks == [] && !running
    {
      callbacks := [];
      running := false;
    }

    /**
     * `on_press`: calls each callback with the key, in registration order;
     * the ones in `failing` raise, are logged, and the loop goes on.
     */
    method OnPress(key: Key, failing: set<Callback>) returns (called: seq<Callback>, errors: seq<Callback>)
      ensures called == callbacks
      ensures errors == Bus.Raising(callbacks, failing)
    {
      called := [];
      errors := [];
      for i := 0 to |callbacks|
        invariant called == callbacks[..i]
        invariant errors == Bus.Raising(callbacks[..i], failing)
      {
        called := called + [callbacks[i]];
        Bus.RaisingAppend(callbacks[..i], [callbacks[i]], failing);
        assert callbacks[..i + 1] == callbacks[..i] + [callbacks[i]];
        if callbacks[i] in failing {
          errors := errors + [callbacks[i]];
        }
      }
      assert callbacks[..|callbacks|] == callbacks;
    }

    method RegisterCallback(h: Callback)
      modifies this
      ensures callbacks == Registered(old(callbacks), h)
      ensures running == old(running)
    {
      if h !in callbacks {
        callbacks := callbacks + [h];
      }
    }

    method UnregisterCallback(h: Callback)
      modifies this
      ensures callbacks == Unregistered(old(callbacks), h)
      ensures running == old(running)
    {
      if h in callbacks {
        callbacks := ListRemove(callbacks, h);
      }
    }

    /** `start_listener`: starts the listener only when it is not running. */
    method StartListener() returns (started: bool)
      modifies this
      ensures started <==> !old(running)
      ensures running && callbacks == old(callbacks)
    {
      started := !running;
      if !running {
        running := true;
      }
    }

    /** `stop_listener`: stops the listener only when it is running. */
    method StopListener() returns (stopped: bool)
      modifies this
      ensures stopped <==> old(running)
      ensures !running && callbacks == old(callbacks)
    {
      stopped := running;
      if running {
        running := false;
      }
    }
  }
}
