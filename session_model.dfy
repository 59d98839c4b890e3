/**
 * The parts of a session the factories read: the co-driver profile's
 * provider configurations.
 */
module SessionModel {
  import opened Wrappers
  import opened Python

  /** A text, image or audio provider's configuration. */
  datatype ProviderConfig = ProviderConfig(
    provider: string,
    modelId: Option<string>,
    params: Dict<string, PyValue>,
    historySize: Option<int>,
    isStream: Option<bool>)

  /** The dynamic-session provider's configuration. */
  datatype DynamicSessionConfig = DynamicSessionConfig(
    provider: string,
    modelId: Option<string>,
    params: Dict<string, PyValue>,
    historySize: Option<int>,
    interactionInterval: Option<int>)

  datatype ProfileConfig = ProfileConfig(
    textToText: Option<ProviderConfig>,
    textToAudio: Option<ProviderConfig>,
    imageToText: Option<ProviderConfig>,
    dynamicSession: Option<DynamicSessionConfig>)

  /** A co-driver profile; its static and dynamic parts are not read here. */
  datatype CoDriverProfile = CoDriverProfile(config: ProfileConfig)

  datatype Session = Session(sessionId: string, coDriver: Option<CoDriverProfile>)

  /** `x if x else default` for an optional integer: `None` and 0 are falsy. */
  function IntOr(x: Option<int>, default: int): (r: int)
    ensures x.None? || x == Some(0) ==> r == default
    ensures x.Some? && x.value != 0 ==> r == x.value
  {
    if x.None? || x.value == 0 then default else x.value
  }

  /** `x if x else False` for an optional flag: true exactly when it is set to true. */
  function FlagOr(x: Option<bool>): (r: bool)
    ensures r <==> x == Some(true)
  {
    if x.None? || !x.value then false else x.value
  }

  /** A non-zero default makes the result non-zero: a configured 0 never gets through. */
  lemma IntOrNeverZero(x: Option<int>, default: int)
    requires default != 0
    ensures IntOr(x, default) != 0
  {
  }
}
