/**
 * The audio input service: the hotkey toggles speech listening, and while the
 * user speaks the bus's `USER_SPEECH_START` state and its telemetry block are
 * on. While the co-driver speaks, input is ignored and a toggle only stops.
 *
 * The speech listener is the caller's: a toggle returns the listener call it
 * makes (`start_listening` or `stop_listening`).
 */
module AudioInput {
  import opened Wrappers
  import opened Python
  import opened Events
  import opened Keyboard
  import opened Bus

  datatype ListenerCall = StartListening | StopListening

  /** The `listening` value after a toggle. */
  function Toggled(ignoreInput: bool, listening: bool): bool {
    !ignoreInput && !listening
  }

  /** A toggle never starts listening while the co-driver speaks, and two toggles without one in between restore an idle service. */
  lemma ToggleProperties(ignoreInput: bool, listening: bool)
    ensures ignoreInput ==> !Toggled(ignoreInput, listening)
    ensures listening ==> !Toggled(ignoreInput, listening)
    ensures !ignoreInput && !listening ==> Toggled(ignoreInput, listening) && !Toggled(ignoreInput, Toggled(ignoreInput, listening))
  {
  }

  /** `_is_hotkey`: only the Alt key. */
  predicate IsHotkey(key: Key) {
    key == Alt
  }

  class AudioInputService {
    const id: ObjectId
    const bus: EventBus
    const keyboard: KeyboardManager
    const hotkey: string
    var listening: bool
    var ignoreInput: bool

    constructor(id: ObjectId, bus: EventBus, keyboard: KeyboardManager, hotkey: string := "alt")
      ensures this.id == id && this.bus == bus && this.keyboard == keyboard && this.hotkey == hotkey
      ensures !listening && !ignoreInput
    {
      this.id := id;
      this.bus := bus;
      this.keyboard := keyboard;
      this.hotkey := hotkey;
      listening := false;
      ignoreInput := false;
    }

    function OnPressCallback(): Callback { Bound(id, "on_press") }
    function PauseCallback(): Callback { Bound(id, "pause_listening") }
    function ResumeCallback(): Callback { Bound(id, "resume_listening") }

    /** `pause_listening`: the co-driver started speaking. */
    method PauseListening()
      modifies this
      ensures ignoreInput && listening == old(listening)
    {
      ignoreInput := true;
    }

    /** `resume_listening`: the co-driver stopped speaking. */
    method ResumeListening()
      modifies this
      ensures !ignoreInput && listening == old(listening)
    {
      ignoreInput := false;
    }

    /**
     * `toggle_listening`: stops when input is ignored or listening is on,
     * starts otherwise. Afterwards the bus's `USER_SPEECH_START` state and
     * its telemetry block both equal the new `listening`.
     */
    method ToggleListening() returns (call: ListenerCall)
      modifies this, bus
      ensures listening == Toggled(old(ignoreInput), old(listening))
      ensures ignoreInput == old(ignoreInput)
      ensures bus.StateOf(UserSpeechStart) == listening && bus.IsBlocked() == listening
      ensures bus.telemetryHandlersBlocked == listening
      ensures bus.stateFlags == old(bus.stateFlags)[UserSpeechStart := listening]
      ensures bus.handlers == old(bus.handlers) && bus.queues == old(bus.queues)
      ensures call == if listening then StartListening else StopListening
    {
      if ignoreInput {
        listening := false;
        bus.SetState(UserSpeechStart, false);
        bus.UnblockTelemetryHandlers();
        return StopListening;
      }
      if listening {
        listening := false;
        bus.SetState(UserSpeechStart, false);
        bus.UnblockTelemetryHandlers();
        call := StopListening;
      } else {
        listening := true;
        bus.SetState(UserSpeechStart, true);
        bus.BlockTelemetryHandlers();
        call := StartListening;
      }
    }

    /** `on_press`: toggles on the hotkey, ignores every other key. */
    method OnPress(key: Key) returns (call: Option<ListenerCall>)
      modifies this, bus
      ensures !IsHotkey(key) ==> call.None? && listening == old(listening) && ignoreInput == old(ignoreInput)
                                 && bus.stateFlags == old(bus.stateFlags)
                                 && bus.telemetryHandlersBlocked == old(bus.telemetryHandlersBlocked)
      ensures IsHotkey(key) ==> call.Some? && listening == Toggled(old(ignoreInput), old(listening))
                                && bus.StateOf(UserSpeechStart) == listening
                                && bus.telemetryHandlersBlocked == listening
      ensures ignoreInput == old(ignoreInput)
      ensures bus.handlers == old(bus.handlers) && bus.queues == old(bus.queues)
    {
      if IsHotkey(key) {
        var c := ToggleListening();
        call := Some(c);
      } else {
        call := None;
      }
    }

    /** `register`: the key callback, then pause and resume on the co-driver's speech and on the audio-input events. */
    method Register()
      modifies keyboard, bus
      ensures keyboard.callbacks == Registered(old(keyboard.callbacks), OnPressCallback())
      ensures bus.HandlersOf(CoDriverSpeechStart) == old(bus.HandlersOf(CoDriverSpeechStart)) + [PauseCallback()]
      ensures bus.HandlersOf(CoDriverSpeechEnd) == old(bus.HandlersOf(CoDriverSpeechEnd)) + [ResumeCallback()]
      ensures bus.HandlersOf(AudioInputPause) == old(bus.HandlersOf(AudioInputPause)) + [PauseCallback()]
      ensures bus.HandlersOf(AudioInputResume) == old(bus.HandlersOf(AudioInputResume)) + [ResumeCallback()]
      ensures forall e :: e !in {CoDriverSpeechStart, CoDriverSpeechEnd, AudioInputPause, AudioInputResume} ==>
                bus.HandlersOf(e) == old(bus.HandlersOf(e))
      ensures bus.queues == old(bus.queues) && bus.stateFlags == old(bus.stateFlags)
      ensures bus.telemetryHandlersBlocked == old(bus.telemetryHandlersBlocked)
    {
      keyboard.RegisterCallback(OnPressCallback());
      bus.Subscribe(CoDriverSpeechStart, PauseCallback());
      bus.Subscribe(CoDriverSpeechEnd, ResumeCallback());
      bus.Subscribe(AudioInputPause, PauseCallback());
      bus.Subscribe(AudioInputResume, ResumeCallback());
    }

    /**
     * `unregister`: the key callback, then the two co-driver subscriptions;
     * the audio-input subscriptions stay. The bus's `unsubscribe` raises on a
     * non-empty list, so the first failure ends the call.
     */
    method Unregister() returns (r: Result<(), PyError>)
      modifies keyboard, bus
      ensures keyboard.callbacks == Unregistered(old(keyboard.callbacks), OnPressCallback())
      ensures r.Success? <==> old(bus.HandlersOf(CoDriverSpeechStart)) == [] && old(bus.HandlersOf(CoDriverSpeechEnd)) == []
      ensures r.Failure? ==> r.error.TypeError?
      ensures r.Success? ==> bus.handlers == old(bus.handlers)[CoDriverSpeechStart := []][CoDriverSpeechEnd := []]
      ensures old(bus.HandlersOf(CoDriverSpeechStart)) != [] ==> bus.handlers == old(bus.handlers)
      ensures bus.HandlersOf(AudioInputPause) == old(bus.HandlersOf(AudioInputPause))
      ensures bus.HandlersOf(AudioInputResume) == old(bus.HandlersOf(AudioInputResume))
      ensures bus.queues == old(bus.queues) && bus.stateFlags == old(bus.stateFlags)
      ensures bus.telemetryHandlersBlocked == old(bus.telemetryHandlersBlocked)
    {
      keyboard.UnregisterCallback(OnPressCallback());
      r := bus.Unsubscribe(CoDriverSpeechStart, PauseCallback());
      if r.Failure? {
        return;
      }
      r := bus.Unsubscribe(CoDriverSpeechEnd, ResumeCallback());
    }
  }

  /** Registering on a fresh bus and then unregistering raises: the first co-driver list is not empty. */
  method RegisterThenUnregister(service: AudioInputService) returns (r: Result<(), PyError>)
    modifies service.keyboard, service.bus
    ensures r.Failure? && r.error.TypeError?
    ensures service.bus.HandlersOf(AudioInputPause) == old(service.bus.HandlersOf(AudioInputPause)) + [service.PauseCallback()]
  {
    service.Register();
    r := service.Unregister();
  }
}
