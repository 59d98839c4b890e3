/**
 * The dynamic-session provider factory: reads the dynamic-session
 * configuration of the current session's co-driver, fills in the defaults,
 * and selects the provider by name.
 */
module DynamicSessionFactory {
  import opened Wrappers
  import opened Python
  import opened SessionModel

  /** The OpenAI dynamic-session provider with its constructor arguments. */
  datatype DynamicProvider = OpenAIDynamicSessionProvider(
    modelId: Option<string>,
    params: Dict<string, PyValue>,
    historySize: int,
    interactionInterval: int)

  /**
   * `get_provider`, given the session manager's current session. The spaCy
   * provider's constructor takes only a model name, so the keyword arguments
   * the factory passes make it raise `TypeError`.
   */
  function GetProvider(current: Option<Session>): (r: Result<DynamicProvider, PyError>)
    ensures current.None? ==> r.Failure? && r.error.AttributeError?
  {
    if current.None? then Failure(AttributeError("'NoneType' object has no attribute 'co_driver'"))
    else if current.value.coDriver.None? then Failure(AttributeError("'NoneType' object has no attribute 'config'"))
    else
      var config := current.value.coDriver.value.config.dynamicSession;
      if config.None? then Failure(ValueError("Configuration for dynamic session service is not defined in the co-driver's profile."))
      else
        var c := config.value;
        var historySize := IntOr(c.historySize, 5);
        var interval := IntOr(c.interactionInterval, 3);
        if c.provider == "openai" then Success(OpenAIDynamicSessionProvider(c.modelId, c.params, historySize, interval))
        else if c.provider == "spacy" then Failure(TypeError("SpacyDynamicSession.__init__() got an unexpected keyword argument 'event_bus'"))
        else Failure(ValueError("Unsupported AI provider: " + c.provider))
  }

  /**
   * Only an `"openai"` configuration yields a provider; `"spacy"` raises
   * `TypeError`, any other name or a missing configuration `ValueError`.
   * The history size defaults to 5 and the interaction interval to 3 when
   * unset or 0, so neither is ever 0.
   */
  lemma GetProviderProperties(current: Option<Session>)
    ensures var r := GetProvider(current);
            r.Success? <==> current.Some? && current.value.coDriver.Some?
                            && current.value.coDriver.value.config.dynamicSession.Some?
                            && current.value.coDriver.value.config.dynamicSession.value.provider == "openai"
    ensures var r := GetProvider(current);
            current.Some? && current.value.coDriver.Some? && current.value.coDriver.value.config.dynamicSession.Some? ==>
              var c := current.value.coDriver.value.config.dynamicSession.value;
              && (c.provider == "spacy" ==> r.Failure? && r.error.TypeError?)
              && (c.provider != "spacy" && c.provider != "openai" ==> r.Failure? && r.error.ValueError?)
              && (r.Success? ==>
                    && r.value.modelId == c.modelId && r.value.params == c.params
                    && r.value.historySize == IntOr(c.historySize, 5) && r.value.historySize != 0
                    && r.value.interactionInterval == IntOr(c.interactionInterval, 3) && r.value.interactionInterval != 0
                    && (c.interactionInterval.None? ==> r.value.interactionInterval == 3))
    ensures var r := GetProvider(current);
            current.Some? && current.value.coDriver.Some? && current.value.coDriver.value.config.dynamicSession.None? ==>
              r.Failure? && r.error.ValueError?
  {
    var r := GetProvider(current);
    if r.Success? {
      var c := current.value.coDriver.value.config.dynamicSession.value;
      IntOrNeverZero(c.historySize, 5);
      IntOrNeverZero(c.interactionInterval, 3);
    }
  }
}
