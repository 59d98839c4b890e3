/**
 * The story rule: at cruising speed, outside a pause, asks for a short
 * personal story about one of the co-driver's topics of interest, coloured
 * by the co-driver's mood and personality.
 *
 * The co-driver profile is an input. `random.choice` is a draw supplied by
 * the caller. The session's declared dynamic profile has a state but no
 * personality, so the personality is optional here, and a profile without
 * one raises `AttributeError` as the attribute read does.
 */
module PersonalStoryTime {
  import opened Wrappers
  import opened Python
  import opened Events
  import opened TelemetryModel
  import opened TelemetryHandlers
  import opened TelemetryRules

  /** The keywords the constructor passes to the base class. */
  const ConstructorKeywords: set<string> := {"event_bus", "session", "cooldown", "chance"}

  datatype Personality = Personality(humor: real, confidence: real)

  /**
   * What `compose_story` reads of the co-driver: the mood, the
   * `topics_of_interest` preference if present, and the personality if the
   * dynamic profile has one.
   */
  datatype StoryProfile = StoryProfile(mood: string, topics: Option<seq<string>>, personality: Option<Personality>)

  const LongDrive: string := "As we have a long drive ahead, ensure the story is captivating for the duration. "
  const Closing: string := "Base your story on YOUR personality (co-driver) profile and conversation with the user."

  /** `is_opportune_moment`; the pause flag is read only above 60 km/h. */
  function IsOpportuneMoment(data: TelemetryData): Result<bool, PyError> {
    if data.truck.None? then Failure(AttributeError("'NoneType' object has no attribute 'speed'"))
    else if !(data.truck.value.speed > 60.0) then Success(false)
    else if data.game.None? then Failure(AttributeError("'NoneType' object has no attribute 'game_paused'"))
    else Success(!data.game.value.gamePaused)
  }

  lemma OpportuneIff(data: TelemetryData)
    requires data.truck.Some? && data.game.Some?
    ensures IsOpportuneMoment(data) == Success(data.truck.value.speed > 60.0 && !data.game.value.gamePaused)
  {
  }

  function Opening(topic: string, mood: string): string {
    "Generate a PERSONAL REALISTIC SHORT story about " + topic + ", where the you felt " + mood + ". "
  }

  /**
   * `compose_story`: the topic is drawn first (raising on an empty list),
   * then the personality is read, then the distance to go decides the
   * long-drive sentence; the closing sentence always ends the story.
   */
  function ComposeStory(data: TelemetryData, profile: StoryProfile, draw: nat): Result<Message, PyError> {
    var topics := profile.topics.GetOr([]);
    if topics == [] then Failure(IndexError)
    else if profile.personality.None? then Failure(AttributeError("'DynamicProfile' object has no attribute 'personality'"))
    else if data.navigation.None? then Failure(AttributeError("'NoneType' object has no attribute 'distance'"))
    else
      var topic := topics[draw % |topics|];
      var p := profile.personality.value;
      Success(
        [Lit(Opening(topic, profile.mood) + "The story should reflect these traits with humor at level "), Num(p.humor),
         Lit(" and confidence at level "), Num(p.confidence), Lit(". ")]
        + (if data.navigation.value.distance > 100000.0 then [Lit(LongDrive)] else [])
        + [Lit(Closing)])
  }

  /** The final sentences differ in length from each other and from the opening of any story. */
  lemma SentenceLengths(topic: string, mood: string)
    ensures |LongDrive| == 81 && |Closing| == 87
    ensures |Opening(topic, mood) + "The story should reflect these traits with humor at level "| > 87
  {
  }

  /**
   * A composed story opens with one of the topics and the co-driver's mood,
   * carries the two personality levels, has the long-drive sentence exactly
   * when more than 100000 is left to go, and ends with the closing sentence.
   */
  lemma StoryShape(data: TelemetryData, profile: StoryProfile, draw: nat)
    requires ComposeStory(data, profile, draw).Success?
    ensures var story := ComposeStory(data, profile, draw).value;
            && |story| >= 6
            && story[|story| - 1] == Lit(Closing)
            && story[1] == Num(profile.personality.value.humor)
            && story[3] == Num(profile.personality.value.confidence)
            && (Lit(LongDrive) in story <==> data.navigation.value.distance > 100000.0)
            && exists i :: 0 <= i < |profile.topics.value|
                 && story[0] == Lit(Opening(profile.topics.value[i], profile.mood)
                                    + "The story should reflect these traits with humor at level ")
  {
    var story := ComposeStory(data, profile, draw).value;
    var topics := profile.topics.value;
    var i := draw % |topics|;
    SentenceLengths(topics[i], profile.mood);
    assert story[0] == Lit(Opening(topics[i], profile.mood) + "The story should reflect these traits with humor at level ");
    if data.navigation.value.distance > 100000.0 {
      assert story[5] == Lit(LongDrive);
    } else {
      assert |story| == 6;
      forall k | 0 <= k < |story|
        ensures story[k] != Lit(LongDrive)
      {
      }
    }
  }

  /** `handle`: the story and `True` at an opportune moment, `False` otherwise. */
  function Handle(data: TelemetryData, profile: StoryProfile, draw: nat): Outcome {
    match IsOpportuneMoment(data)
    case Failure(e) => Outcome(None, Raised(e))
    case Success(false) => Outcome(None, Returned(PyFalse))
    case Success(true) =>
      match ComposeStory(data, profile, draw)
      case Failure(e) => Outcome(None, Raised(e))
      case Success(story) => Outcome(Request(story), Returned(PyTrue))
  }

  /**
   * With a complete profile and every record present, the rule emits and
   * returns `True` exactly at an opportune moment: a composed story is never
   * empty.
   */
  lemma HandleIffOpportune(data: TelemetryData, profile: StoryProfile, draw: nat)
    requires data.truck.Some? && data.game.Some? && data.navigation.Some?
    requires profile.topics.Some? && profile.topics.value != [] && profile.personality.Some?
    ensures Handle(data, profile, draw).result == Returned(PyTrue)
            <==> data.truck.value.speed > 60.0 && !data.game.value.gamePaused
    ensures Handle(data, profile, draw).emission.Some? <==> Handle(data, profile, draw).result == Returned(PyTrue)
    ensures Handle(data, profile, draw).result in {Returned(PyTrue), Returned(PyFalse)}
  {
  }

  /**
   * Without topics the draw raises `IndexError`, and without a personality
   * the attribute read raises: at an opportune moment such a profile makes
   * the rule raise instead of telling a story.
   */
  lemma IncompleteProfileRaises(data: TelemetryData, profile: StoryProfile, draw: nat)
    requires IsOpportuneMoment(data) == Success(true)
    requires profile.topics.None? || profile.topics.value == [] || profile.personality.None?
    ensures Handle(data, profile, draw).emission.None?
    ensures Handle(data, profile, draw).result.Raised?
    ensures profile.topics.None? || profile.topics.value == [] ==> Handle(data, profile, draw).result.error == IndexError
    ensures profile.topics.Some? && profile.topics.value != [] ==> Handle(data, profile, draw).result.error.AttributeError?
  {
  }

  /** The constructor passes `cooldown` and `chance`, which the base class does not take. */
  lemma ConstructionRaises()
    ensures BaseInit(ConstructorKeywords).Failure?
  {
    CooldownKeywordRaises(ConstructorKeywords);
  }
}
