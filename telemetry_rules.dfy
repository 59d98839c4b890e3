/**
 * What the individual telemetry rules share: the base class's constructor
 * signature, the one kind of request they emit, and the hour they read from
 * the game clock.
 */
module TelemetryRules {
  import opened Wrappers
  import opened Python
  import opened Events
  import opened TelemetryHandlers

  /** The keyword parameters of the base rule constructor. */
  const BaseParameters: set<string> := {"event_bus", "session", "telemetry_subscription_manager", "only_once"}

  /** The ones without a default. */
  const RequiredParameters: set<string> := {"event_bus", "session", "telemetry_subscription_manager"}

  /**
   * Calling the base constructor with these keyword arguments: an unknown
   * keyword or a missing required one raises `TypeError`.
   */
  function BaseInit(keywords: set<string>): (r: Result<(), PyError>)
    ensures r.Success? <==> keywords <= BaseParameters && RequiredParameters <= keywords
    ensures r.Failure? ==> r.error.TypeError?
  {
    if !(keywords <= BaseParameters) then Failure(TypeError("__init__() got an unexpected keyword argument"))
    else if !(RequiredParameters <= keywords) then Failure(TypeError("__init__() missing required positional argument"))
    else Success(())
  }

  /** A rule constructor that passes `cooldown` and `chance` to the base class always raises. */
  lemma CooldownKeywordRaises(keywords: set<string>)
    requires "cooldown" in keywords || "chance" in keywords
    ensures BaseInit(keywords).Failure? && BaseInit(keywords).error.TypeError?
  {
  }

  /** The one event a rule emits: a dialogue request carrying the prompt. */
  function Request(message: Message): Option<(EventType, Message)> {
    Some((DialogueResponseRequest, message))
  }

  /** `int(time.split(":")[0])`: the hour of the game clock. */
  function HourOf(time: string): (r: Result<int, PyError>)
    ensures r.Failure? ==> r.error.ValueError?
  {
    ParseInt(Split(time, ':')[0])
  }

  /** A clock written `H:rest`, with `H` the decimal digits of `h`, reads as hour `h`. */
  lemma HourOfClock(h: nat, rest: string)
    ensures HourOf(Decimal(h) + [':'] + rest) == Success(h)
  {
    var ds := Decimal(h);
    assert ':' !in ds by {
      forall i | 0 <= i < |ds|
        ensures ds[i] != ':'
      {
        assert IsDigit(ds[i]);
      }
    }
    SplitAtFirst(ds, ':', rest);
    ParseIntDecimal(h);
  }

  /** A clock that does not start with a digit, a sign or a space has no hour: `int` raises. */
  lemma HourOfNonNumeric(time: string)
    requires time != [] && !IsDigit(time[0]) && !IsSpace(time[0]) && time[0] != '-' && time[0] != '+' && time[0] != ':'
    ensures HourOf(time).Failure? && HourOf(time).error.ValueError?
  {
    var head := Split(time, ':')[0];
    assert head != [] && head[0] == time[0];
    TrimSpaceKeepsFirst(head);
    var t := TrimSpace(head);
    assert t[0] != '-' && t[0] != '+' && !IsDigit(t[0]);
    assert !AllDigits(t);
    assert ParseInt(head).Failure?;
  }

  /** Trimming a string whose first character is not a space keeps that character first. */
  lemma {:induction false} TrimSpaceKeepsFirst(s: string)
    requires s != [] && !IsSpace(s[0])
    ensures TrimSpace(s) != [] && TrimSpace(s)[0] == s[0]
  {
    if IsSpace(s[|s| - 1]) {
      TrimSpaceKeepsFirst(s[..|s| - 1]);
    }
  }
}
