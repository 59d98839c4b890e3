/**
 * The music rule: suggests music for the weather or, failing that, for the
 * time of day on the game clock.
 */
module MusicSuggestion {
  import opened Wrappers
  import opened Python
  import opened Events
  import opened TelemetryModel
  import opened TelemetryHandlers
  import opened TelemetryRules

  /** The keywords the constructor passes to the base class. */
  const ConstructorKeywords: set<string> := {"event_bus", "cooldown", "chance"}

  /** `get_weather_condition`. */
  function WeatherCondition(t: Truck): Option<string> {
    if t.wipers then Some("cozy rainy day")
    else if t.lightsFog != 0 then Some("misty morning")
    else None
  }

  /** The time-of-day branch of `get_time_of_day` for an hour already read. */
  function TimeOfDay(hour: int): Option<string> {
    if 6 <= hour < 12 then Some("energetic morning")
    else if 12 <= hour < 18 then Some("upbeat afternoon")
    else if 18 <= hour < 24 || 0 <= hour < 6 then Some("relaxing evening")
    else None
  }

  /** Every hour of the day has a description; hours outside 0..23 have none. */
  lemma TimeOfDayRanges(hour: int)
    ensures TimeOfDay(hour) == Some("energetic morning") <==> 6 <= hour < 12
    ensures TimeOfDay(hour) == Some("upbeat afternoon") <==> 12 <= hour < 18
    ensures TimeOfDay(hour) == Some("relaxing evening") <==> 18 <= hour < 24 || 0 <= hour < 6
    ensures TimeOfDay(hour).None? <==> hour < 0 || hour >= 24
  {
  }

  const Context: string := "Check user profile for music preferences. If not available, ask what their music tastes are. "

  function SuggestionMessage(description: string): Message {
    Fixed(Context + "Suggest " + description + " music based on the user's interest.")
  }

  /** The description chosen: the weather's if there is one, otherwise the time of day's. */
  function Description(weather: Option<string>, timeOfDay: Option<string>): Option<string> {
    if weather.Some? then weather else timeOfDay
  }

  /**
   * `generate_music_suggestion`: the weather is read first (raising without
   * a truck), then the clock (raising without game data or when the hour is
   * not a number), even when the weather already decides the suggestion.
   */
  function GenerateMusicSuggestion(truck: Option<Truck>, game: Option<Game>): Result<Option<Message>, PyError> {
    if truck.None? then Failure(AttributeError("'NoneType' object has no attribute 'wipers'"))
    else if game.None? then Failure(AttributeError("'NoneType' object has no attribute 'time'"))
    else
      var hour :- HourOf(game.value.time);
      var description := Description(WeatherCondition(truck.value), TimeOfDay(hour));
      Success(if description.Some? then Some(SuggestionMessage(description.value)) else None)
  }

  /** `handle`: one request and `True` when there is a suggestion, `False` otherwise. */
  function Handle(data: TelemetryData): Outcome {
    match GenerateMusicSuggestion(data.truck, data.game)
    case Failure(e) => Outcome(None, Raised(e))
    case Success(None) => Outcome(None, Returned(PyFalse))
    case Success(Some(m)) => Outcome(Request(m), Returned(PyTrue))
  }

  /**
   * With a truck and a readable hour: the weather takes precedence over the
   * time of day, and there is no suggestion exactly when neither has a
   * description; the rule emits and returns `True` exactly when there is one.
   */
  lemma HandleProperties(data: TelemetryData, hour: int)
    requires data.truck.Some? && data.game.Some? && HourOf(data.game.value.time) == Success(hour)
    ensures var weather := WeatherCondition(data.truck.value);
            weather.Some? ==> Handle(data) == Outcome(Request(SuggestionMessage(weather.value)), Returned(PyTrue))
    ensures var weather := WeatherCondition(data.truck.value);
            weather.None? && TimeOfDay(hour).Some? ==>
              Handle(data) == Outcome(Request(SuggestionMessage(TimeOfDay(hour).value)), Returned(PyTrue))
    ensures Handle(data).emission.None? <==> WeatherCondition(data.truck.value).None? && TimeOfDay(hour).None?
    ensures Handle(data).result == Returned(PyTrue) <==> Handle(data).emission.Some?
    ensures Handle(data).result in {Returned(PyTrue), Returned(PyFalse)}
  {
  }

  /** An hour that `int` cannot read raises `ValueError`, whatever the weather, and nothing is emitted. */
  lemma UnreadableHourRaises(data: TelemetryData)
    requires data.truck.Some? && data.game.Some? && HourOf(data.game.value.time).Failure?
    ensures Handle(data).emission.None?
    ensures Handle(data).result.Raised? && Handle(data).result.error.ValueError?
  {
  }

  /** The constructor passes `cooldown` and `chance`, which the base class does not take. */
  lemma ConstructionRaises()
    ensures BaseInit(ConstructorKeywords).Failure?
  {
    CooldownKeywordRaises(ConstructorKeywords);
  }
}
