/**
 * The Whisper speech listener's endpointing: loud chunks are recorded,
 * quiet chunks after speech are recorded through a grace period of two
 * seconds of accumulated silence, and the first quiet chunk past it ends the
 * utterance: three bus events, transcription of the recording, stream stop.
 *
 * Each audio chunk arrives as `isLoud` (the volume test on the samples),
 * its first-channel samples and its frame count. The transcript the speech
 * model returns for the recording is an input.
 */
module Whisper {
  import opened Events
  import opened Bus

  const SampleRate: int := 44100
  const GracePeriod: real := 2.0

  /** The seconds a chunk of `frames` frames lasts. */
  function ChunkSeconds(frames: nat): real {
    frames as real / SampleRate as real
  }

  datatype ListenerState = ListenerState(
    recording: seq<real>,
    silence: real,
    speechDetected: bool,
    recordingFinished: bool,
    streamActive: bool)

  /** An event the listener emits, with the category it is queued under. */
  datatype Emitted = Emitted(event: EventType, data: Payload, category: EventCategory)

  /** `_process_audio`: a non-empty recording is transcribed and cleared; only a non-empty transcript is announced. */
  function Process(s: ListenerState, transcript: string): (ListenerState, seq<Emitted>) {
    if s.recording == [] then (s, [])
    else
      var out := if transcript != "" then [Emitted(TranscriptionComplete, Transcript(transcript), Audio)] else [];
      (s.(recording := []), out)
  }

  /** The three events that end an utterance, in order. */
  const EndOfSpeech: seq<Emitted> := [
    Emitted(UserSpeechEnd, NoData, Audio),
    Emitted(AudioInputPause, NoData, Audio),
    Emitted(RequestInProgress, NoData, Generic)]

  /** `_audio_callback` on one chunk. */
  function Chunk(s: ListenerState, isLoud: bool, samples: seq<real>, frames: nat, transcript: string): (ListenerState, seq<Emitted>) {
    if isLoud then
      (s.(silence := 0.0, speechDetected := true, recording := s.recording + samples), [])
    else if !s.speechDetected then
      (s, [])
    else
      var silence := s.silence + ChunkSeconds(frames);
      if silence <= GracePeriod then
        (s.(silence := silence, recording := s.recording + samples), [])
      else
        var ended := s.(recordingFinished := true, silence := 0.0, speechDetected := false);
        var (processed, out) := Process(ended, transcript);
        (processed.(streamActive := false), EndOfSpeech + out)
  }

  /** A quiet chunk before any speech changes nothing; a loud one always records. */
  lemma ChunkBeforeSpeech(s: ListenerState, isLoud: bool, samples: seq<real>, frames: nat, transcript: string)
    ensures !isLoud && !s.speechDetected ==> Chunk(s, isLoud, samples, frames, transcript) == (s, [])
    ensures isLoud ==> Chunk(s, isLoud, samples, frames, transcript).0.recording == s.recording + samples
    ensures isLoud ==> Chunk(s, isLoud, samples, frames, transcript).0.speechDetected
    ensures isLoud ==> Chunk(s, isLoud, samples, frames, transcript).1 == []
  {
  }

  /**
   * An utterance ends exactly when a quiet chunk after speech takes the
   * silence past the grace period; it then emits the three end events first,
   * a transcription event only for a non-empty recording and transcript,
   * and leaves the recording empty and the stream stopped.
   */
  lemma UtteranceEnds(s: ListenerState, isLoud: bool, samples: seq<real>, frames: nat, transcript: string)
    ensures var (t, out) := Chunk(s, isLoud, samples, frames, transcript);
            out != [] <==> !isLoud && s.speechDetected && s.silence + ChunkSeconds(frames) > GracePeriod
    ensures var (t, out) := Chunk(s, isLoud, samples, frames, transcript);
            out != [] ==>
              && out[..3] == EndOfSpeech
              && (|out| == 4 <==> s.recording != [] && transcript != "")
              && |out| <= 4
              && (|out| == 4 ==> out[3] == Emitted(TranscriptionComplete, Transcript(transcript), Audio))
              && t.recording == [] && !t.streamActive && !t.speechDetected && t.silence == 0.0 && t.recordingFinished
  {
  }

  datatype AudioChunk = AudioChunk(isLoud: bool, samples: seq<real>, frames: nat)

  /** Several callbacks in a row. */
  function Run(s: ListenerState, chunks: seq<AudioChunk>, transcript: string): (ListenerState, seq<Emitted>)
    decreases |chunks|
  {
    if chunks == [] then (s, [])
    else
      var c := chunks[0];
      var (t, out) := Chunk(s, c.isLoud, c.samples, c.frames, transcript);
      var (u, more) := Run(t, chunks[1..], transcript);
      (u, out + more)
  }

  function TotalSeconds(chunks: seq<AudioChunk>): real {
    if chunks == [] then 0.0 else ChunkSeconds(chunks[0].frames) + TotalSeconds(chunks[1..])
  }

  function AllSamples(chunks: seq<AudioChunk>): seq<real> {
    if chunks == [] then [] else chunks[0].samples + AllSamples(chunks[1..])
  }

  /**
   * After speech, a run of quiet chunks whose silence stays within the grace
   * period records every sample, emits nothing and keeps the utterance open.
   */
  lemma {:induction false} GracePeriodKeepsRecording(s: ListenerState, chunks: seq<AudioChunk>, transcript: string)
    requires s.speechDetected
    requires forall i :: 0 <= i < |chunks| ==> !chunks[i].isLoud
    requires s.silence + TotalSeconds(chunks) <= GracePeriod
    ensures Run(s, chunks, transcript).1 == []
    ensures Run(s, chunks, transcript).0 == s.(silence := s.silence + TotalSeconds(chunks), recording := s.recording + AllSamples(chunks))
    decreases |chunks|
  {
    if chunks != [] {
      var c := chunks[0];
      assert ChunkSeconds(c.frames) >= 0.0;
      assert TotalSeconds(chunks[1..]) >= 0.0 by { TotalSecondsNonNegative(chunks[1..]); }
      var t := Chunk(s, c.isLoud, c.samples, c.frames, transcript).0;
      assert t == s.(silence := s.silence + ChunkSeconds(c.frames), recording := s.recording + c.samples);
      GracePeriodKeepsRecording(t, chunks[1..], transcript);
      assert s.recording + c.samples + AllSamples(chunks[1..]) == s.recording + AllSamples(chunks);
    }
  }

  lemma {:induction false} TotalSecondsNonNegative(chunks: seq<AudioChunk>)
    ensures TotalSeconds(chunks) >= 0.0
    decreases |chunks|
  {
    if chunks != [] {
      TotalSecondsNonNegative(chunks[1..]);
    }
  }

  class WhisperSpeechListener {
    const bus: EventBus
    var recording: seq<real>
    var silence: real
    var speechDetected: bool
    var recordingFinished: bool
    /** `stream` is set and active. */
    var streamActive: bool

    constructor(bus: EventBus)
      ensures this.bus == bus
      ensures State() == ListenerState([], 0.0, false, false, false)
    {
      this.bus := bus;
      recording := [];
      silence := 0.0;
      speechDetected := false;
      recordingFinished := false;
      streamActive := false;
    }

    function State(): ListenerState
      reads this
    {
      ListenerState(recording, silence, speechDetected, recordingFinished, streamActive)
    }

    /** `start_listening`: stops an active stream, then resets the recording state and opens a new stream. */
    method StartListening()
      modifies this
      ensures State() == old(State()).(recording := [], silence := 0.0, speechDetected := false, streamActive := true)
    {
      if streamActive {
        StopListening();
      }
      recording := [];
      silence := 0.0;
      speechDetected := false;
      streamActive := true;
    }

    /** `stop_listening`. */
    method StopListening()
      modifies this
      ensures State() == old(State()).(streamActive := false)
    {
      streamActive := false;
    }

    /** `_process_audio`, given the transcript of the recording. */
    method ProcessAudio(transcript: string)
      modifies this, bus
      ensures State() == Process(old(State()), transcript).0
      ensures bus.queues == Enqueued(old(bus.queues), Process(old(State()), transcript).1)
      ensures bus.handlers == old(bus.handlers) && bus.stateFlags == old(bus.stateFlags)
      ensures bus.telemetryHandlersBlocked == old(bus.telemetryHandlersBlocked)
    {
      if recording != [] {
        if transcript != "" {
          bus.Emit(TranscriptionComplete, Transcript(transcript), Audio);
        }
        recording := [];
      }
    }

    /** `_audio_callback` on one chunk. */
    method AudioCallback(isLoud: bool, samples: seq<real>, frames: nat, transcript: string)
      modifies this, bus
      ensures State() == Chunk(old(State()), isLoud, samples, frames, transcript).0
      ensures bus.queues == Enqueued(old(bus.queues), Chunk(old(State()), isLoud, samples, frames, transcript).1)
      ensures bus.handlers == old(bus.handlers) && bus.stateFlags == old(bus.stateFlags)
      ensures bus.telemetryHandlersBlocked == old(bus.telemetryHandlersBlocked)
    {
      if isLoud {
        silence := 0.0;
        speechDetected := true;
        recording := recording + samples;
      } else if speechDetected {
        silence := silence + ChunkSeconds(frames);
        if silence <= GracePeriod {
          recording := recording + samples;
        } else {
          ghost var queues0 := bus.queues;
          bus.Emit(UserSpeechEnd, NoData, Audio);
          bus.Emit(AudioInputPause, NoData, Audio);
          bus.Emit(RequestInProgress, NoData, Generic);
          EndOfSpeechEnqueued(queues0);
          recordingFinished := true;
          silence := 0.0;
          speechDetected := false;
          ghost var ended := State();
          ProcessAudio(transcript);
          StopListening();
          EnqueuedAppend(queues0, EndOfSpeech, Process(ended, transcript).1);
        }
      }
    }
  }

  /** The queue of category `c` in a snapshot of the bus's queues. */
  function QueueIn(queues: map<EventCategory, seq<QueuedEvent>>, c: EventCategory): seq<QueuedEvent> {
    if c in queues then queues[c] else []
  }

  /** The bus's queues after one `emit`. */
  function Enqueue(queues: map<EventCategory, seq<QueuedEvent>>, e: Emitted): map<EventCategory, seq<QueuedEvent>> {
    queues[e.category := QueueIn(queues, e.category) + [QueuedEvent(e.event, e.data)]]
  }

  /** The bus's queues after the events were emitted in order. */
  function Enqueued(queues: map<EventCategory, seq<QueuedEvent>>, out: seq<Emitted>): map<EventCategory, seq<QueuedEvent>>
    decreases |out|
  {
    if out == [] then queues else Enqueued(Enqueue(queues, out[0]), out[1..])
  }

  lemma {:induction false} EnqueuedAppend(queues: map<EventCategory, seq<QueuedEvent>>, a: seq<Emitted>, b: seq<Emitted>)
    ensures Enqueued(queues, a + b) == Enqueued(Enqueued(queues, a), b)
    decreases |a|
  {
    if a == [] {
      assert a + b == b;
    } else {
      assert (a + b)[0] == a[0] && (a + b)[1..] == a[1..] + b;
      EnqueuedAppend(Enqueue(queues, a[0]), a[1..], b);
    }
  }

  lemma EndOfSpeechEnqueued(queues: map<EventCategory, seq<QueuedEvent>>)
    ensures Enqueued(queues, EndOfSpeech)
         == Enqueue(Enqueue(Enqueue(queues, EndOfSpeech[0]), EndOfSpeech[1]), EndOfSpeech[2])
  {
    var q1 := Enqueue(queues, EndOfSpeech[0]);
    var q2 := Enqueue(q1, EndOfSpeech[1]);
    var q3 := Enqueue(q2, EndOfSpeech[2]);
    assert EndOfSpeech[1..][0] == EndOfSpeech[1] && EndOfSpeech[1..][1..] == [EndOfSpeech[2]];
    assert Enqueued(q2, [EndOfSpeech[2]]) == Enqueued(q3, []);
  }

  /** The events of `out` queued under category `c`, in order. */
  function Filter(out: seq<Emitted>, c: EventCategory): seq<QueuedEvent> {
    if out == [] then []
    else (if out[0].category == c then [QueuedEvent(out[0].event, out[0].data)] else []) + Filter(out[1..], c)
  }

  /** The end of an utterance queues the speech-end and input-pause events on the audio queue and the request marker on the general one. */
  lemma EndOfSpeechQueues()
    ensures Filter(EndOfSpeech, Audio) == [QueuedEvent(UserSpeechEnd, NoData), QueuedEvent(AudioInputPause, NoData)]
    ensures Filter(EndOfSpeech, Generic) == [QueuedEvent(RequestInProgress, NoData)]
    ensures forall c :: c != Audio && c != Generic ==> Filter(EndOfSpeech, c) == []
  {
    assert EndOfSpeech[1..][1..][1..] == [];
  }

  /** Each queue grows by exactly the events emitted under its category, in emission order. */
  lemma {:induction false} EnqueuedFilters(queues: map<EventCategory, seq<QueuedEvent>>, out: seq<Emitted>, c: EventCategory)
    ensures QueueIn(Enqueued(queues, out), c) == QueueIn(queues, c) + Filter(out, c)
    decreases |out|
  {
    if out != [] {
      EnqueuedFilters(Enqueue(queues, out[0]), out[1..], c);
    }
  }
}
