/**
 * The Replicate provider's request building: the configured parameters
 * with their `{{text}}` and `{{system}}` placeholders filled in, plus the
 * recent conversation rendered as text. The prediction request itself, and
 * the audio download, are not part of this model; a call returns the input
 * it would send.
 */
module Replicate {
  import opened Wrappers
  import opened Python

  const TextPlaceholder: string := "{{text}}"
  const SystemPlaceholder: string := "{{system}}"

  /** One parameter value after substitution; `system` is `None` where only `{{text}}` is substituted. */
  function Substituted(v: PyValue, text: string, system: Option<string>): PyValue {
    if PyEq(v, StrValue(TextPlaceholder)) then StrValue(text)
    else if system.Some? && PyEq(v, StrValue(SystemPlaceholder)) then StrValue(system.value)
    else v
  }

  /** The parameters after substitution: same keys in the same order, each value substituted. */
  function Substitute(params: Dict<string, PyValue>, text: string, system: Option<string>): (r: Dict<string, PyValue>)
    ensures |r| == |params|
    ensures forall i :: 0 <= i < |params| ==> r[i] == (params[i].0, Substituted(params[i].1, text, system))
  {
    if params == [] then []
    else [(params[0].0, Substituted(params[0].1, text, system))] + Substitute(params[1..], text, system)
  }

  /** Exactly the values equal to a placeholder change: `{{text}}` to the text, `{{system}}` to the system text. */
  lemma SubstitutedValues(v: PyValue, text: string, system: string)
    ensures v == StrValue(TextPlaceholder) ==> Substituted(v, text, Some(system)) == StrValue(text)
    ensures v == StrValue(SystemPlaceholder) ==> Substituted(v, text, Some(system)) == StrValue(system)
    ensures v != StrValue(TextPlaceholder) && v != StrValue(SystemPlaceholder) ==> Substituted(v, text, Some(system)) == v
    ensures Substituted(v, text, None) == if v == StrValue(TextPlaceholder) then StrValue(text) else v
  {
  }

  predicate IsPlaceholder(s: string) {
    s == TextPlaceholder || s == SystemPlaceholder
  }

  /**
   * The substitution writes into the provider's own parameters, so a later
   * call finds no placeholder left to fill (unless the text put one back).
   */
  lemma {:induction false} SubstitutionIsFinal(params: Dict<string, PyValue>, text: string, system: string, text': string, system': Option<string>)
    requires !IsPlaceholder(text) && !IsPlaceholder(system)
    ensures Substitute(Substitute(params, text, Some(system)), text', system') == Substitute(params, text, Some(system))
  {
    var once := Substitute(params, text, Some(system));
    forall i | 0 <= i < |params|
      ensures Substituted(once[i].1, text', system') == once[i].1
    {
      var v := params[i].1;
      if v == StrValue(TextPlaceholder) || v == StrValue(SystemPlaceholder) {
        assert once[i].1 == StrValue(text) || once[i].1 == StrValue(system);
      } else {
        assert once[i].1 == v;
      }
    }
  }

  /** A message of the session's interaction history. */
  datatype ChatMessage = ChatMessage(role: string, content: string)

  /** `"Co-driver: c\n"` for the assistant's messages, `"User: c\n"` for every other role. */
  function Line(m: ChatMessage): string {
    (if m.role == "assistant" then "Co-driver" else "User") + ": " + m.content + "\n"
  }

  /** The lines of the messages, in order. */
  function Render(ms: seq<ChatMessage>): string {
    if ms == [] then "" else Line(ms[0]) + Render(ms[1..])
  }

  lemma {:induction false} RenderAppend(a: seq<ChatMessage>, b: seq<ChatMessage>)
    ensures Render(a + b) == Render(a) + Render(b)
  {
    if a == [] {
      assert a + b == b;
    } else {
      assert (a + b)[1..] == a[1..] + b;
      RenderAppend(a[1..], b);
    }
  }

  /** `history[-history_size:]`. */
  function Window(history: seq<ChatMessage>, historySize: int): seq<ChatMessage> {
    SliceFrom(history, -historySize)
  }

  /**
   * A positive size keeps the last `historySize` messages (all of them when
   * there are fewer); 0 keeps the whole history, since `[-0:]` is `[0:]`; a
   * negative size drops that many messages from the front.
   */
  lemma WindowProperties(history: seq<ChatMessage>, historySize: int)
    ensures historySize == 0 ==> Window(history, historySize) == history
    ensures historySize > 0 ==>
              Window(history, historySize) == history[|history| - (if historySize < |history| then historySize else |history|)..]
    ensures historySize < 0 ==>
              Window(history, historySize) == history[(if -historySize < |history| then -historySize else |history|)..]
  {
  }

  class ReplicateProvider {
    const modelId: string
    const isStream: bool
    const historySize: int
    var params: Dict<string, PyValue>

    constructor(modelId: string, params: Dict<string, PyValue>, isStream: bool := false, historySize: int := 5)
      ensures this.modelId == modelId && this.params == params
      ensures this.isStream == isStream && this.historySize == historySize
    {
      this.modelId := modelId;
      this.params := params;
      this.isStream := isStream;
      this.historySize := historySize;
    }

    /** The loop over `parsed_params.items()` that overwrites placeholder values in place. */
    method FillPlaceholders(text: string, system: Option<string>)
      modifies this
      ensures params == Substitute(old(params), text, system)
    {
      ghost var original := params;
      var i := 0;
      while i < |params|
        invariant |params| == |original|
        invariant i <= |params|
        invariant forall j :: 0 <= j < i ==> params[j] == (original[j].0, Substituted(original[j].1, text, system))
        invariant forall j :: i <= j < |params| ==> params[j] == original[j]
      {
        var (key, value) := params[i];
        var filled := value;
        if PyEq(value, StrValue(TextPlaceholder)) {
          filled := StrValue(text);
        }
        if system.Some? && PyEq(value, StrValue(SystemPlaceholder)) {
          filled := StrValue(system.value);
        }
        params := params[i := (key, filled)];
        i := i + 1;
      }
    }

    /** The `for message in last_user_messages` loop. */
    static method RenderHistory(messages: seq<ChatMessage>) returns (conversation: string)
      ensures conversation == Render(messages)
    {
      conversation := "";
      for i := 0 to |messages|
        invariant conversation == Render(messages[..i])
      {
        RenderAppend(messages[..i], [messages[i]]);
        assert messages[..i + 1] == messages[..i] + [messages[i]];
        assert Render([messages[i]]) == Line(messages[i]) + Render([]);
        conversation := conversation + Line(messages[i]);
      }
      assert messages[..|messages|] == messages;
    }

    /**
     * `text_to_text`: fills both placeholders, then stores the rendered
     * recent history under `conversation_history`, overwriting any earlier
     * value. A session without a history raises after the substitution.
     */
    method TextToText(inputText: string, systemText: string, history: Option<seq<ChatMessage>>) returns (r: Result<Dict<string, PyValue>, PyError>)
      modifies this
      ensures history.None? ==> params == Substitute(old(params), inputText, Some(systemText)) && r.Failure? && r.error.TypeError?
      ensures history.Some? ==>
                var conversation := Render(Window(history.value, historySize));
                && params == DictSet(Substitute(old(params), inputText, Some(systemText)), "conversation_history", StrValue(conversation))
                && DictGet(params, "conversation_history") == Some(StrValue(conversation))
                && r == Success(params)
    {
      FillPlaceholders(inputText, Some(systemText));
      if history.None? {
        return Failure(TypeError("'NoneType' object is not subscriptable"));
      }
      var recent := SliceFrom(history.value, -historySize);
      var conversation := RenderHistory(recent);
      params := DictSet(params, "conversation_history", StrValue(conversation));
      r := Success(params);
    }

    /** `text_to_audio`: fills only `{{text}}`, so a `{{system}}` value stays as it is. */
    method TextToAudio(text: string) returns (input: Dict<string, PyValue>)
      modifies this
      ensures params == Substitute(old(params), text, None)
      ensures input == params
    {
      FillPlaceholders(text, None);
      input := params;
    }
  }
}
