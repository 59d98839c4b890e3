/**
 * The weather rule: reads the weather from the wipers and the fog lights,
 * and comments when it turns rainy or foggy. The last condition commented
 * on is kept in the rule, and only a comment changes it.
 */
module WeatherChange {
  import opened Wrappers
  import opened Python
  import opened Events
  import opened TelemetryModel
  import opened TelemetryHandlers
  import opened TelemetryRules

  const Subscriptions: seq<string> := ["truck.wipers", "truck.lights_fog"]
  const Cooldown: int := 3600
  const Chance: real := 0.5

  /** `determine_weather_condition`: wipers mean rain, fog lights fog; otherwise clear. */
  function DetermineWeatherCondition(t: Truck): string {
    if t.wipers then "rainy" else if t.lightsFog != 0 then "foggy" else "clear"
  }

  /** Wipers win over fog lights; the condition is clear only with both off. */
  lemma ConditionCases(t: Truck)
    ensures DetermineWeatherCondition(t) in {"rainy", "foggy", "clear"}
    ensures DetermineWeatherCondition(t) == "rainy" <==> t.wipers
    ensures DetermineWeatherCondition(t) == "foggy" <==> !t.wipers && t.lightsFog != 0
    ensures DetermineWeatherCondition(t) == "clear" <==> !t.wipers && t.lightsFog == 0
  {
  }

  function WeatherMessage(condition: string): Message {
    Fixed("Generate a comment on the changing weather conditions: now it's " + condition + ".")
  }

  /** Whether the rule comments: the condition differs from the recorded one and is not clear. */
  predicate Comments(last: Option<string>, condition: string) {
    last != Some(condition) && condition != "clear"
  }

  /** The recorded condition after one call: the new one if commented on, the old one otherwise. */
  function Recorded(last: Option<string>, condition: string): Option<string> {
    if Comments(last, condition) then Some(condition) else last
  }

  /** The number of comments over a series of calls, and the condition recorded at the end. */
  function Run(last: Option<string>, conditions: seq<string>): (nat, Option<string>)
    decreases |conditions|
  {
    if conditions == [] then (0, last)
    else
      var (n, final) := Run(Recorded(last, conditions[0]), conditions[1..]);
      (n + (if Comments(last, conditions[0]) then 1 else 0), final)
  }

  /** The recorded condition is never clear; starting from nothing it stays so. */
  lemma {:induction false} RecordedNeverClear(last: Option<string>, conditions: seq<string>)
    requires last != Some("clear")
    ensures Run(last, conditions).1 != Some("clear")
    decreases |conditions|
  {
    if conditions != [] {
      RecordedNeverClear(Recorded(last, conditions[0]), conditions[1..]);
    }
  }

  /** A condition repeated any number of times draws at most one comment. */
  lemma {:induction false} RepeatCommentsOnce(last: Option<string>, condition: string, n: nat)
    ensures Run(last, seq(n, _ => condition)).0 <= 1
    ensures n >= 1 && Comments(last, condition) ==> Run(last, seq(n, _ => condition)).0 == 1
    decreases n
  {
    if n > 0 {
      var rest := seq(n - 1, _ => condition);
      assert seq(n, _ => condition)[1..] == rest;
      assert seq(n, _ => condition)[0] == condition;
      RepeatIsSilent(Recorded(last, condition), condition, n - 1);
    }
  }

  /** Once a condition is recorded, repeating it draws no comment. */
  lemma {:induction false} RepeatIsSilent(last: Option<string>, condition: string, n: nat)
    requires last == Some(condition) || condition == "clear"
    ensures Run(last, seq(n, _ => condition)) == (0, last)
    decreases n
  {
    if n > 0 {
      assert seq(n, _ => condition)[1..] == seq(n - 1, _ => condition);
      assert seq(n, _ => condition)[0] == condition;
      RepeatIsSilent(last, condition, n - 1);
    }
  }

  /**
   * An example of the general lemmas above: clearing up is not recorded, so
   * rain, a clear spell and rain again draw one comment, because the second
   * rain matches the recorded condition.
   */
  lemma RainClearRain(rainy: string, clear: string)
    requires rainy == "rainy" && clear == "clear"
    ensures Run(None, [rainy, clear, rainy]) == (1, Some(rainy))
  {
    var cs := [rainy, clear, rainy];
    assert cs[1..] == [clear, rainy] && cs[1..][1..] == [rainy] && cs[1..][1..][1..] == [];
    assert Run(Some(rainy), [rainy]) == (0, Some(rainy));
    assert Run(Some(rainy), [clear, rainy]) == (0, Some(rainy));
  }

  class WeatherChangeHandler {
    var lastWeatherCondition: Option<string>

    constructor()
      ensures lastWeatherCondition.None?
    {
      lastWeatherCondition := None;
    }

    /**
     * `comment_on_weather`: requests a comment and returns `True` exactly
     * when the condition differs from the recorded one and is not clear, and
     * only then records it.
     */
    method CommentOnWeather(t: Truck) returns (outcome: Outcome)
      modifies this
      ensures var condition := DetermineWeatherCondition(t);
              lastWeatherCondition == Recorded(old(lastWeatherCondition), condition)
      ensures var condition := DetermineWeatherCondition(t);
              Comments(old(lastWeatherCondition), condition) ==>
                outcome == Outcome(Request(WeatherMessage(condition)), Returned(PyTrue))
      ensures !Comments(old(lastWeatherCondition), DetermineWeatherCondition(t)) ==>
                outcome == Outcome(None, Returned(PyFalse))
    {
      var current := DetermineWeatherCondition(t);
      if Some(current) != lastWeatherCondition {
        if current != "clear" {
          lastWeatherCondition := Some(current);
          return Outcome(Request(WeatherMessage(current)), Returned(PyTrue));
        }
      }
      outcome := Outcome(None, Returned(PyFalse));
    }

    /** `handle`: the weather comment; reading the wipers raises when there is no truck. */
    method Handle(data: TelemetryData) returns (outcome: Outcome)
      modifies this
      ensures data.truck.None? ==>
                outcome == Outcome(None, Raised(AttributeError("'NoneType' object has no attribute 'wipers'")))
                && lastWeatherCondition == old(lastWeatherCondition)
      ensures data.truck.Some? ==>
                var condition := DetermineWeatherCondition(data.truck.value);
                && lastWeatherCondition == Recorded(old(lastWeatherCondition), condition)
                && (outcome.emission.Some? <==> Comments(old(lastWeatherCondition), condition))
                && (outcome.result == Returned(PyTrue) <==> outcome.emission.Some?)
                && outcome.result != Returned(PyNone)
    {
      if data.truck.None? {
        return Outcome(None, Raised(AttributeError("'NoneType' object has no attribute 'wipers'")));
      }
      outcome := CommentOnWeather(data.truck.value);
    }
  }
}
