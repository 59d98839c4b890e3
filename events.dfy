/**
 * The event vocabulary every component shares: the categories that have a
 * queue of their own, the event types, what travels with an event, and how
 * the model names the callables that subscribe to events.
 */
module Events {
  datatype EventCategory = Audio | Text | Ui | Generic | Transcription | Telemetry

  datatype EventType =
    | UserSpeechStart
    | UserSpeechEnd
    | CoDriverSpeechStart
    | CoDriverSpeechEnd
    | AudioInputPause
    | AudioInputResume
    | RequestInProgress
    | RequestComplete
    | TranscriptionComplete
    | DialogueResponseRequest
    | DialogueResponseComplete
    | TelemetryReceived

  /**
   * One piece of an f-string message: literal text, or a number the message
   * interpolates (its textual rendering is Python's float formatting).
   */
  datatype Piece = Lit(text: string) | Num(value: real)

  type Message = seq<Piece>

  /** A message that interpolates nothing. */
  function Fixed(text: string): Message {
    [Lit(text)]
  }

  /** The data an event carries: nothing, a transcript, or a prompt message. */
  datatype Payload = NoData | Transcript(text: string) | Prompt(message: Message)

  /** The identity of a Python object that owns callbacks. */
  datatype ObjectId = ObjectId(id: nat)

  /**
   * A bound method: equal exactly when both the object and the method name
   * are, as Python compares bound methods.
   */
  datatype Callback = Bound(owner: ObjectId, name: string)
}
