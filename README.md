# ETS2 co-driver telemetry core in Dafny

This project models the core of an AI co-driver for Euro Truck Simulator 2.
A telemetry source runs in a loop that works as follows:

- It hands out records of the truck, game, navigation and job state. The source is the game's shared-memory segment, read with a fixed binary layout, or a mock generator.
- It fills in the nearest cities.
- It passes each record to a subscription manager. That manager flattens the record into dotted paths, finds which paths changed, and calls the handlers whose glob patterns match.

Every telemetry rule sits behind a common gate: once-only, the shared "telemetry handlers blocked" flag, the minimum wait, the cooldown and a random chance, in that order. A rule that fires may queue a dialogue request on the event bus.

The speech side sets and clears the same flag:

- the hotkey toggle of the audio input service;
- the silence end-pointing of the Whisper listener;
- the keyboard callback registry.

Around these sit:

- the dynamic-session interaction counter;
- the Replicate provider's placeholder substitution and history rendering;
- the two provider factories;
- the plugin core's handler-file discovery.

The project also models the eight rules in the `disabled/` handler folder.

Modules follow the source files.

| Source file | Dafny module(s) |
|---|---|
| `event_bus.py` | `Bus` |
| `telemetry_subscription_manager.py` | `TelemetrySubscriptions`, plus the Python `dict` and `list` behaviour in `Python` and `Lists` |
| `telemetry_event_handlers.py` | `TelemetryHandlers` |
| `telemetry_data.py` | `TelemetryModel` |
| `telemetry_location_service.py` | `Location` |
| `city_proximity_handler.py` | `CityProximity` |
| `version_1_12.py` | `Layout`, `Version112Tables`, `Version112` |
| `telemetry_client_service.py` | `TelemetryClient` |
| `keyboard_manager.py` | `Keyboard` |
| `audio_input_service.py` | `AudioInput` |
| `whisper_speech_listener_provider.py` | `Whisper` |
| `dynamic_session_interface.py` | `DynamicSession` |
| `replicate_provider.py` | `Replicate` |
| `ai_provider_factory.py` | `AIProviderFactory` |
| `dynamic_session_provider_factory.py` | `DynamicSessionFactory`, with the configurations they read in `SessionModel` |
| `plugin_core.py` | `PluginCore` and `HandlersDirectory` |

Each disabled rule has its own module, with shared rule helpers in `TelemetryRules`.

The objects the source updates in place are classes with `modifies` frames:

- the bus;
- the subscription manager;
- the gate;
- the mock telemetry;
- the client;
- the keyboard manager;
- the audio input service;
- the listener;
- the dynamic-session provider;
- the Replicate provider;
- the weather rule.

Pure code is written as functions and lemmas.

Python values are modelled explicitly:

- **Exceptions.** Raised exceptions are `PyError` values inside a `Result`. Every rule's `handle` returns an `Outcome`: the request it emits, if any, and its return value (`True`, `False` or `None`), or the exception it raises.
- **Dicts and numbers.** Python dicts are insertion-ordered association lists. Floats are reals.
- **External inputs.** These are parameters:
  - the wall clock;
  - random draws;
  - the shared-memory buffer;
  - the 1.10 layout's verdict and decoded record;
  - transcripts;
  - the handler directory listing.

Where the code and its documentation disagree, the model follows the code:

- **Event bus `unsubscribe`.** It unpacks every stored handler as an `(h, c)` pair, while `subscribe` stores bare callables. So it raises `TypeError` unless the list is already empty. The audio input service's, the gate's and the dynamic-session provider's `unregister` inherit this.
- **Cooldown.** Only `emit_event` sets `last_emit_time`. A rule that fires but emits nothing does not restart its cooldown. A rule that returns anything but `False`, such as `None`, leaves the block flag set.
- **Deduplication.** The subscription manager does not deduplicate. A handler is called once per changed path and matching pattern. Lists are single leaves.
- **Mock-mode version number.** In mock mode, `get_version_number` calls a method on a plain function and raises `AttributeError`.
- **Rule constructors.** Five disabled rules pass `cooldown`/`chance` keywords that the base constructor does not take, so constructing them raises `TypeError`: music, greeting, fuel, story and rapid acceleration. The weather, speeding and trivia rules have no constructor of their own. The speeding rule's `register` raises `TypeError` instead.
- **Story rule personality.** The story rule reads a `personality` attribute that the session's declared dynamic profile does not have. The model takes the personality as optional and raises `AttributeError` without it.
- **Spacy factory branch.** The dynamic-session factory's spaCy branch passes keywords the spaCy provider does not take, so it raises `TypeError`.

## Model

Source paths are relative to the repository root.

| member | source | states |
|---|---|---|
| Bus.EventBus.constructor | src/application/event_bus.py:15-25 | The handler table, the queues and the state flags start empty, and the telemetry block flag starts clear. |
| Bus.EventBus.Subscribe | src/application/event_bus.py:35 | Appends the handler to the event's list, so duplicates are kept. Nothing else changes. |
| Bus.EventBus.Unsubscribe | src/application/event_bus.py:37-41 | Succeeds exactly when the event's list is empty and leaves it empty. Otherwise it raises `TypeError` and the table is unchanged. |
| Bus.EventBus.Emit | src/application/event_bus.py:43-50 | Appends `(event, data)` to the end of the category's queue, with GENERIC as the default category. Nothing else changes. |
| Bus.EventBus.HandleEvent | src/application/event_bus.py:79-84 | The calls made are exactly one per subscribed handler, in subscription order. The logged errors are exactly the raising handlers, and the rest still run. |
| Bus.EventBus.ProcessQueue | src/application/event_bus.py:73-77 | Drains the category's queue from the front. The calls made are the deliveries of the queued events in emission order, and the queue ends empty. |
| Bus.EventBus.IsBlocked | src/application/event_bus.py:86-90 | True exactly when the USER_SPEECH_START flag is set. No other flag matters. |
| Bus.EventBus.BlockTelemetryHandlers | src/application/event_bus.py:92-93 | Sets only the telemetry block flag. |
| Bus.EventBus.UnblockTelemetryHandlers | src/application/event_bus.py:95-96 | Clears only the telemetry block flag. |
| Bus.EventBus.SetState | src/application/event_bus.py:98-100 | Writes only the given event's state flag. |
| Bus.Deliver | src/application/event_bus.py:80-82 | There is one call per subscribed handler. |
| Bus.Raising | src/application/event_bus.py:81-84 | A handler's error is logged exactly when it is subscribed and raises. |
| Bus.DeliverAppend | src/application/event_bus.py:80-82 | Delivering to `a + b` is delivering to `a` and then to `b`. |
| Bus.RaisingAppend | src/application/event_bus.py:81-84 | The errors from `a + b` are those from `a` followed by those from `b`. |
| Bus.DeliverCallsEachHandler | src/application/event_bus.py:80-82 | The i-th call goes to the i-th subscribed handler with the event's own data. |
| Bus.DeliverCountsSubscriptions | src/application/event_bus.py:80-82 | A handler subscribed n times receives each event n times. |
| Bus.DispatchAppend | src/application/event_bus.py:73-77 | Events queued earlier are delivered before those queued later. |
| Bus.DispatchSize | src/application/event_bus.py:73-77 | Each queued event is delivered exactly once: the number of calls is the sum of the subscriptions of the queued events. |
| TelemetrySubscriptions.TelemetrySubscriptionManager.constructor | src/domain/event/telemetry/telemetry_subscription_manager.py:7-11 | There are no subscriptions and no baseline. |
| TelemetrySubscriptions.TelemetrySubscriptionManager.Subscribe | src/domain/event/telemetry/telemetry_subscription_manager.py:13-18 | A string or a list of patterns. The handler is appended to each pattern's list in turn and the baseline is untouched. |
| TelemetrySubscriptions.TelemetrySubscriptionManager.Unsubscribe | src/domain/event/telemetry/telemetry_subscription_manager.py:20-28 | A string or a list of patterns. Each pattern's step removes one occurrence, and the baseline is untouched. |
| TelemetrySubscriptions.TelemetrySubscriptionManager.FindChangedFields | src/domain/event/telemetry/telemetry_subscription_manager.py:39-47 | The changed paths and the new baseline are the change report of the flattened values against the old baseline. |
| TelemetrySubscriptions.TelemetrySubscriptionManager.NotifyHandlers | src/domain/event/telemetry/telemetry_subscription_manager.py:30-37 | A flattening error calls nobody, leaves the baseline alone and is raised. Otherwise the baseline is updated first. The handlers are called one per changed path, matching pattern and handler, in order, until the first raising handler; that call is the last one made, and its error is raised. |
| TelemetrySubscriptions.LiteralMatchesItself | src/domain/event/telemetry/telemetry_subscription_manager.py:35 | A pattern without wildcards matches exactly its own text. |
| TelemetrySubscriptions.StarMatchesEverything | src/domain/event/telemetry/telemetry_subscription_manager.py:35 | `*` matches every path, dots included. |
| TelemetrySubscriptions.PrefixStarMatchesExtensions | src/domain/event/telemetry/telemetry_subscription_manager.py:35 | `lit*` matches exactly the paths that start with `lit`. |
| TelemetrySubscriptions.PathJoin | src/domain/event/telemetry/telemetry_subscription_manager.py:53 | A joined path never starts or ends with a dot. |
| TelemetrySubscriptions.DictSetKeepsClean | src/domain/event/telemetry/telemetry_subscription_manager.py:57 | Storing a dot-free key keeps every key free of outer dots. |
| TelemetrySubscriptions.UpdateKeepsClean | src/domain/event/telemetry/telemetry_subscription_manager.py:55 | `update` of two clean dicts is clean. |
| TelemetrySubscriptions.FlattenPathsClean | src/domain/event/telemetry/telemetry_subscription_manager.py:49-58 | No flattened path has a leading or trailing dot. |
| TelemetrySubscriptions.FlattenAttrsPathsClean | src/domain/event/telemetry/telemetry_subscription_manager.py:52-57 | The loop over attributes keeps every path clean. |
| TelemetrySubscriptions.DictionaryAttributeRaises | src/domain/event/telemetry/telemetry_subscription_manager.py:52-55 | Any dict-valued attribute makes flattening raise `TypeError`, because `vars()` is applied to a dict. |
| TelemetrySubscriptions.FlattenFailsWithTypeError | src/domain/event/telemetry/telemetry_subscription_manager.py:52-55 | The only failure flattening can have is `TypeError`. |
| TelemetrySubscriptions.FlattenAttrsFailsWithTypeError | src/domain/event/telemetry/telemetry_subscription_manager.py:52-55 | The only failure the attribute loop can have is `TypeError`. |
| TelemetrySubscriptions.ListIsOneLeaf | src/domain/event/telemetry/telemetry_subscription_manager.py:54-57 | A list-valued attribute is a single leaf under its own path and is not indexed per element. |
| TelemetrySubscriptions.ChangesReportDifferences | src/domain/event/telemetry/telemetry_subscription_manager.py:43-46 | A path is reported exactly when its value differs from the baseline, where a missing baseline reads as `None`. A reported path's baseline becomes its new value, and unrelated baselines stay. |
| TelemetrySubscriptions.SecondNotificationReportsNothing | src/domain/event/telemetry/telemetry_subscription_manager.py:41-47 | Reporting the same values twice reports nothing the second time. |
| TelemetrySubscriptions.UnchangedReportsNothing | src/domain/event/telemetry/telemetry_subscription_manager.py:43-47 | Values equal to the baseline report nothing and leave the baseline as it was. |
| TelemetrySubscriptions.NewNonePathNotReported | src/domain/event/telemetry/telemetry_subscription_manager.py:44 | A never-seen path whose value is `None` is not reported. |
| TelemetrySubscriptions.MatchingHandlersExact | src/domain/event/telemetry/telemetry_subscription_manager.py:34-37 | A handler is called for a path exactly when it is subscribed under a pattern matching that path. |
| TelemetrySubscriptions.MatchingHandlersCount | src/domain/event/telemetry/telemetry_subscription_manager.py:34-37 | The calls a handler gets for one path equal its occurrences under the matching patterns, with no deduplication. |
| TelemetrySubscriptions.CallsExact | src/domain/event/telemetry/telemetry_subscription_manager.py:33-37 | A handler is called exactly when some changed path matches one of its patterns. |
| TelemetrySubscriptions.MatchingHandlersAppend | src/domain/event/telemetry/telemetry_subscription_manager.py:34-36 | Patterns are visited in table order. |
| TelemetrySubscriptions.CallsAppend | src/domain/event/telemetry/telemetry_subscription_manager.py:33 | Changed paths are visited in order. |
| TelemetrySubscriptions.CallsMade | src/domain/event/telemetry/telemetry_subscription_manager.py:33-37 | The calls made are a prefix of the full call list. Only its last call can raise, and it is the whole list unless its last call raises. |
| TelemetrySubscriptions.Propagated | src/domain/event/telemetry/telemetry_subscription_manager.py:33-37 | An error reaches the caller exactly when some called handler raises, and it is the error of a raising handler. |
| TelemetrySubscriptions.CallsMadeAppend | src/domain/event/telemetry/telemetry_subscription_manager.py:33-37 | Handlers that do not raise are called in full, and the loop goes on with the rest. |
| TelemetrySubscriptions.CallsMadeWithoutRaise | src/domain/event/telemetry/telemetry_subscription_manager.py:33-37 | When no handler raises, every call is made and the notification returns normally. |
| TelemetrySubscriptions.FirstRaiseStops | src/domain/event/telemetry/telemetry_subscription_manager.py:33-37 | A raising call inside the three loops is the last call made, and its error is the one raised. |
| TelemetrySubscriptions.SubscribeAllSnoc | src/domain/event/telemetry/telemetry_subscription_manager.py:17-18 | Subscribing to a list is subscribing to each pattern in turn. |
| TelemetrySubscriptions.UnsubscribeAllSnoc | src/domain/event/telemetry/telemetry_subscription_manager.py:24-28 | Unsubscribing from a list is unsubscribing from each pattern in turn. |
| TelemetrySubscriptions.SubscribeAppends | src/domain/event/telemetry/telemetry_subscription_manager.py:18 | Subscribing appends the handler to that pattern's list. Other patterns are unchanged. |
| TelemetrySubscriptions.UnsubscribeRemovesOne | src/domain/event/telemetry/telemetry_subscription_manager.py:25-28 | Unsubscribing removes exactly one occurrence. A list left empty is deleted, and other patterns are unchanged. |
| TelemetrySubscriptions.UnsubscribeAbsentHandler | src/domain/event/telemetry/telemetry_subscription_manager.py:22-28 | An absent handler is a no-op. On a never-registered pattern, an empty entry is left behind. |
| TelemetrySubscriptions.SubscribeThenUnsubscribe | src/domain/event/telemetry/telemetry_subscription_manager.py:13-28 | Subscribing and then unsubscribing restores the pattern's handler multiset. |
| TelemetryHandlers.TelemetryEventHandlers.constructor | src/domain/event/telemetry/handlers/telemetry_event_handlers.py:25-42 | The rule has never emitted and never triggered, and its start time is now. It subscribes to its fields with the manager. |
| TelemetryHandlers.TelemetryEventHandlers.EmitEvent | src/domain/event/telemetry/handlers/telemetry_event_handlers.py:87-97 | Sets the last emission time to now and queues the message on the TELEMETRY category. Nothing else on the bus changes. |
| TelemetryHandlers.TelemetryEventHandlers.HandleTelemetryData | src/domain/event/telemetry/handlers/telemetry_event_handlers.py:44-79 | Short of firing, nothing is emitted or marked. Once-only, blocked and too-early leave the flag as it was, and not-due clears it. On firing, the rule's emission is queued and its time recorded, and the rule is marked as triggered. The flag stays set unless the rule returns `False`. A raised error keeps the flag set and does not mark the rule. |
| TelemetryHandlers.TelemetryEventHandlers.Register | src/domain/event/telemetry/handlers/telemetry_event_handlers.py:146-152 | Appends the bound `handle_telemetry_data` to TELEMETRY_RECEIVED. |
| TelemetryHandlers.TelemetryEventHandlers.Unregister | src/domain/event/telemetry/handlers/telemetry_event_handlers.py:154-162 | The bus unsubscribe raises `TypeError` unless TELEMETRY_RECEIVED has no handlers, and the field subscriptions then stay. Otherwise every field is unsubscribed. |
| TelemetryHandlers.DecideFiresIff | src/domain/event/telemetry/handlers/telemetry_event_handlers.py:53-68 | The gate fires exactly when all of these hold: not (once-only and triggered), not blocked, the minimum wait reached, cooled down, and sample < chance. |
| TelemetryHandlers.BlockedNeverFires | src/domain/event/telemetry/handlers/telemetry_event_handlers.py:56-60 | A set block flag never lets a rule fire. |
| TelemetryHandlers.ChanceBounds | src/domain/event/telemetry/handlers/telemetry_event_handlers.py:131-140 | Chance 0 never fires. Chance 1 fires exactly when the other checks pass. |
| TelemetryHandlers.CooldownIsStrict | src/domain/event/telemetry/handlers/telemetry_event_handlers.py:121-124 | Exactly `cooldown` seconds after an emission the rule does not fire. |
| TelemetryHandlers.MinimumWaitIsInclusive | src/domain/event/telemetry/handlers/telemetry_event_handlers.py:105-110 | Exactly `minimum_wait_time` seconds after the start the wait has passed. |
| TelemetryModel.MockTelemetry.constructor | src/domain/model/telemetry_data.py:334-377 | The initial truck, game, navigation and job records and a toggle count of 0. The state is plausible. |
| TelemetryModel.MockTelemetry.Update | src/domain/model/telemetry_data.py:378-446 | The new state is one step of the drawn update. Game and job are untouched. |
| TelemetryModel.MockTelemetry.GetTelemetryData | src/domain/model/telemetry_data.py:447-451 | Performs exactly one update and returns the live records with no trailer. |
| TelemetryModel.StepClampsMotion | src/domain/model/telemetry_data.py:380-384 | After an update, speed is in [0, 100], rpm in [800, 3000] and acceleration at least 0. |
| TelemetryModel.StepKeepsFuel | src/domain/model/telemetry_data.py:391-395 | After an update, fuel is at least 50. Fuel only ever rises by being refilled to capacity. |
| TelemetryModel.StepWearMonotone | src/domain/model/telemetry_data.py:398-402 | Engine and transmission wear never decrease and never exceed 100. |
| TelemetryModel.StepToggles | src/domain/model/telemetry_data.py:405-409 | The toggle count rises by one. Every tenth update flips the left blinker and the wipers, and sets the right blinker to the negation of the left. |
| TelemetryModel.StepNavigation | src/domain/model/telemetry_data.py:412-417 | The distance stays non-negative. On arrival, the distance resets into [1000, 5000] and the time into [3000, 7200]. |
| TelemetryModel.StepPreservesPlausible | src/domain/model/telemetry_data.py:378-446 | Every update keeps the mock state plausible. |
| Location.SquaredDistance | src/domain/service/telemetry_location_service.py:44-51 | Non-negative, and zero at the city's own position. |
| Location.SquaredDistanceSymmetric | src/domain/service/telemetry_location_service.py:44-51 | Symmetric in the two points. |
| Location.SortProperties | src/domain/service/telemetry_location_service.py:35-39 | The sorted dataset is ordered by distance and is a permutation of the dataset. |
| Location.SortIsStable | src/domain/service/telemetry_location_service.py:35-39 | Cities at equal distance keep their dataset order. |
| Location.NearestCitiesStable | src/domain/service/telemetry_location_service.py:35-40 | With a limit covering the dataset, cities at equal distance keep their order in the result. |
| Location.NearestCitiesProperties | src/domain/service/telemetry_location_service.py:21-42 | The result has `min(limit, |cities|)` cities, ordered by distance, drawn from the dataset without repeats. Every omitted city is at least as far away as every returned one. |
| Location.DefaultLimitIsFive | src/domain/service/telemetry_location_service.py:22 | Without a limit, at most 5 cities are returned. |
| CityProximity.FindNearestCity | src/domain/event/telemetry/handlers/city_proximity_handler.py:52-76 | Raises `TypeError` exactly on an empty list. Otherwise the answer is the first city at the minimum distance, and every city that became the running minimum has its distance written. |
| CityProximity.Handle | src/domain/event/telemetry/handlers/city_proximity_handler.py:18-89 | A missing truck raises. Missing or empty nearest cities give `False`. Otherwise the rule returns `True`, and emits one request naming the nearest city, exactly when some city is within 5000. |
| Layout.Fields | src/domain/service/telemetry_versions/version_1_12.py:12-355 | There is one field per named entry. |
| Layout.PaddingYieldsNoField | src/domain/service/telemetry_versions/version_1_12.py:20 | A padding entry advances the offset and produces no field. |
| Layout.FirstNamed | src/domain/service/telemetry_versions/version_1_12.py:12-355 | The field found has the name asked for, and none is found exactly when no field has that name. |
| Layout.FindFieldDecodes | src/domain/service/telemetry_versions/version_1_12.py:12-355 | Looking a name up in the table finds the first field of that name. |
| Layout.FieldsInsideTable | src/domain/service/telemetry_versions/version_1_12.py:12-355 | Every field lies inside its table's span. |
| Layout.FieldsDisjoint | src/domain/service/telemetry_versions/version_1_12.py:12-355 | The fields follow one another without overlapping. |
| Layout.FieldsAndPaddingCoverTable | src/domain/service/telemetry_versions/version_1_12.py:12-355 | The field bytes plus the padding bytes make up the table's span. |
| Layout.FieldsAppend | src/domain/service/telemetry_versions/version_1_12.py:12-355 | The fields of a concatenated table are those of the first part, then those of the second shifted by the first part's span. |
| Layout.FieldsPrefixStable | src/domain/service/telemetry_versions/version_1_12.py:83-95 | Appending entries does not move the earlier fields. |
| Layout.DecodeU32 | src/domain/service/telemetry_versions/version_1_12.py:7-8 | A 4-byte unsigned value is below 2^32. |
| Layout.EncodeU32 | src/domain/service/telemetry_versions/version_1_12.py:7-8 | An encoded unsigned value takes 4 bytes. |
| Layout.DecodeEncodeU32 | src/domain/service/telemetry_versions/version_1_12.py:7-8 | Decoding an encoded value gives it back. |
| Layout.EncodeDecodeU32 | src/domain/service/telemetry_versions/version_1_12.py:7-8 | Encoding a decoded value gives the bytes back. |
| Version112.TrailerZoneEnds | src/domain/service/telemetry_versions/version_1_12.py:12-81 | The trailer zones end at 84, 152, 616, 872 and 920, and a trailer record spans 1560 bytes. |
| Version112.TelemetryZoneEnds | src/domain/service/telemetry_versions/version_1_12.py:83-350 | The telemetry zones end at 40, 500, 700, 1500, 1640, 2000, 2200, 2300, 4000, 4200, 4300, 4400 and 6000. |
| Version112.TelemetryEndsAt21600 | src/domain/service/telemetry_versions/version_1_12.py:351-354 | Ten trailer records follow at 6000, so the record ends at 21600. |
| Version112.TrailerRecordFieldsInside | src/domain/service/telemetry_versions/version_1_12.py:351-352 | Every field of each of the 10 trailer records lies inside the record. |
| Version112.SubstancesAreFixedStrings | src/domain/service/telemetry_versions/version_1_12.py:349 | Substances are 25 strings of 64 bytes, 1600 bytes in all. |
| Version112.PluginRevisionIsSeventhField | src/domain/service/telemetry_versions/version_1_12.py:84-95 | The seventh field is `telemetry_plugin_revision`, an unsigned int at offset 40. |
| Version112.VersionTagIsPluginRevision | src/domain/service/telemetry_versions/version_1_12.py:7-95 | The 4 bytes the version check reads are exactly `telemetry_plugin_revision`, and no other field overlaps them. |
| Version112.GetVersionNumber | src/domain/service/telemetry_versions/version_1_12.py:357-358 | Always 12. |
| Version112.ReadVersionTag | src/domain/service/telemetry_versions/version_1_12.py:360-361 | Raises exactly on a buffer shorter than 44 bytes. Otherwise it is the unsigned value the 4 bytes after the first 40 encode. |
| Version112.IsSameVersionIff | src/domain/service/telemetry_versions/version_1_12.py:360-361 | True exactly when bytes 40 to 43 encode 12. It raises exactly on a buffer shorter than 44 bytes. |
| TelemetryClient.TelemetryClientService.constructor | src/domain/service/telemetry_client_service.py:33-40 | The fields `__init__` sets before `init`: no segment, no version, not running, and a fresh mock. |
| TelemetryClient.TelemetryClientService.Create | src/domain/service/telemetry_client_service.py:33-61 | Construction then runs `init`, and its error escapes. Mock mode always builds, with the mock version and no segment. Without a segment it raises `ConnectionError`. A raising layout check raises, no accepting layout raises `ValueError`, and otherwise the service has the first accepting layout. A built service always has a version. |
| TelemetryClient.TelemetryClientService.Init | src/domain/service/telemetry_client_service.py:43-61 | Mock mode stores the mock version. A missing segment raises `ConnectionError`. Otherwise the version is the first accepting layout, and when none accepts and none was set it raises `ValueError`. |
| TelemetryClient.TelemetryClientService.GetData | src/domain/service/telemetry_client_service.py:67-81 | Raises `ValueError` without a version. Otherwise the record is one mock update or the decoded record, with its nearest cities overwritten by the lookup for the truck's position. |
| TelemetryClient.TelemetryClientService.GetVersionNumber | src/domain/service/telemetry_client_service.py:83-87 | 0 without a version and 12 for the 1.12 layout. The mock version raises `AttributeError`. |
| TelemetryClient.TelemetryClientService.Close | src/domain/service/telemetry_client_service.py:89-95 | Stops, and drops the segment and the version, so a second close changes nothing. |
| TelemetryClient.CloseThenGetData | src/domain/service/telemetry_client_service.py:67-95 | After `close`, `get_data` raises `ValueError`. |
| TelemetryClient.SelectionOrder | src/domain/service/telemetry_client_service.py:53-56 | The 1.10 layout is preferred. The 1.12 layout is chosen exactly when 1.10 declines and the tag is 12, and nothing is chosen when neither accepts. |
| Keyboard.KeyboardManager.constructor | src/infrastructure/input_output/keyboard_manager.py:12-17 | No callbacks and not running. |
| Keyboard.KeyboardManager.OnPress | src/infrastructure/input_output/keyboard_manager.py:19-27 | Calls every registered callback in order. The errors are exactly the raising callbacks, and the rest still run. |
| Keyboard.KeyboardManager.RegisterCallback | src/infrastructure/input_output/keyboard_manager.py:29-34 | Adds the callback only when it is absent. |
| Keyboard.KeyboardManager.UnregisterCallback | src/infrastructure/input_output/keyboard_manager.py:36-41 | Removes the callback when present and is a no-op otherwise. |
| Keyboard.KeyboardManager.StartListener | src/infrastructure/input_output/keyboard_manager.py:43-48 | Acts exactly when not running, and then runs. |
| Keyboard.KeyboardManager.StopListener | src/infrastructure/input_output/keyboard_manager.py:50-55 | Acts exactly when running, and then stops. |
| Keyboard.RegisterKeepsDistinct | src/infrastructure/input_output/keyboard_manager.py:33-34 | The registry never holds duplicates, and registering keeps every callback present. |
| Keyboard.UnregisterRemoves | src/infrastructure/input_output/keyboard_manager.py:40-41 | Removes exactly that callback and keeps the rest in order. |
| Keyboard.UnregisterAbsent | src/infrastructure/input_output/keyboard_manager.py:40 | Removing an absent callback changes nothing. |
| Keyboard.RegisterThenUnregister | src/infrastructure/input_output/keyboard_manager.py:29-41 | Registering then unregistering a new callback restores the registry. |
| AudioInput.AudioInputService.constructor | src/domain/service/audio_input_service.py:16-31 | Neither listening nor ignoring input, with the given hotkey. |
| AudioInput.AudioInputService.PauseListening | src/domain/service/audio_input_service.py:33-35 | Sets `ignore_input`. |
| AudioInput.AudioInputService.ResumeListening | src/domain/service/audio_input_service.py:37-41 | Clears `ignore_input`. |
| AudioInput.AudioInputService.ToggleListening | src/domain/service/audio_input_service.py:87-113 | Listening starts only from idle with input not ignored. Afterwards USER_SPEECH_START, `is_blocked` and the telemetry block flag all equal the new listening value. The listener is started or stopped to match. |
| AudioInput.AudioInputService.OnPress | src/domain/service/audio_input_service.py:43-57 | Only the hotkey toggles. Any other key changes nothing. |
| AudioInput.AudioInputService.Register | src/domain/service/audio_input_service.py:59-72 | Registers `on_press` with the keyboard and appends pause and resume to the four speech and audio events. |
| AudioInput.AudioInputService.Unregister | src/domain/service/audio_input_service.py:74-85 | Removes the keyboard callback. The bus unsubscribes raise `TypeError` unless the CO_DRIVER lists are empty, and AUDIO_INPUT_PAUSE/RESUME stay subscribed. |
| AudioInput.RegisterThenUnregister | src/domain/service/audio_input_service.py:59-85 | After `register`, `unregister` always raises `TypeError` and AUDIO_INPUT_PAUSE keeps the new subscription. |
| AudioInput.ToggleProperties | src/domain/service/audio_input_service.py:91-113 | Ignored input or an active session ends in not listening. From idle the toggle starts listening, and a second toggle stops it. |
| Whisper.WhisperSpeechListener.constructor | src/domain/service/speech_listener_providers/whisper_speech_listener_provider.py:21-42 | Empty recording, no silence, no speech and no stream. |
| Whisper.WhisperSpeechListener.StartListening | src/domain/service/speech_listener_providers/whisper_speech_listener_provider.py:50-73 | Resets recording, silence and speech detection, and the stream is active. |
| Whisper.WhisperSpeechListener.StopListening | src/domain/service/speech_listener_providers/whisper_speech_listener_provider.py:75-81 | Only the stream stops. |
| Whisper.WhisperSpeechListener.ProcessAudio | src/domain/service/speech_listener_providers/whisper_speech_listener_provider.py:147-175 | The new state and the queued events are those of the processing step. |
| Whisper.WhisperSpeechListener.AudioCallback | src/domain/service/speech_listener_providers/whisper_speech_listener_provider.py:83-145 | The new state and the queued events are those of the chunk step. |
| Whisper.ChunkBeforeSpeech | src/domain/service/speech_listener_providers/whisper_speech_listener_provider.py:104-114 | A quiet chunk before speech changes nothing. A loud chunk records its samples, marks speech and emits nothing. |
| Whisper.UtteranceEnds | src/domain/service/speech_listener_providers/whisper_speech_listener_provider.py:113-175 | An utterance ends exactly when a quiet chunk pushes the silence past 2 s. It emits USER_SPEECH_END, AUDIO_INPUT_PAUSE and REQUEST_IN_PROGRESS in that order, then a transcription only for a non-empty recording and transcript. The recording is cleared and the stream stopped. |
| Whisper.GracePeriodKeepsRecording | src/domain/service/speech_listener_providers/whisper_speech_listener_provider.py:115-121 | While the total silence stays within 2 s, quiet chunks add their time and samples and emit nothing. |
| Whisper.EndOfSpeechQueues | src/domain/service/speech_listener_providers/whisper_speech_listener_provider.py:124-136 | The end of speech puts USER_SPEECH_END and AUDIO_INPUT_PAUSE on AUDIO and REQUEST_IN_PROGRESS on GENERIC. Nothing goes elsewhere. |
| Whisper.EndOfSpeechEnqueued | src/domain/service/speech_listener_providers/whisper_speech_listener_provider.py:124-136 | The queue contents after the end-of-speech emits. |
| Whisper.EnqueuedAppend | src/domain/service/speech_listener_providers/whisper_speech_listener_provider.py:124-136 | Emitting `a + b` is emitting `a` and then `b`. |
| Whisper.EnqueuedFilters | src/domain/service/speech_listener_providers/whisper_speech_listener_provider.py:124-136 | Each category's queue gains exactly its own events, in order. |
| DynamicSession.DynamicSessionProvider.constructor | src/domain/service/dynamic_session_providers/dynamic_session_interface.py:16-32 | The counter starts at 0. |
| DynamicSession.DynamicSessionProvider.UpdateProfiles | src/domain/service/dynamic_session_providers/dynamic_session_interface.py:34-46 | Processes exactly when the counter has reached the interval. It then ends at 1, and otherwise grows by 1. |
| DynamicSession.DynamicSessionProvider.Register | src/domain/service/dynamic_session_providers/dynamic_session_interface.py:48-52 | Appends `update_profiles` to REQUEST_COMPLETE. |
| DynamicSession.DynamicSessionProvider.Unregister | src/domain/service/dynamic_session_providers/dynamic_session_interface.py:54-58 | Succeeds exactly when REQUEST_COMPLETE has no handlers. Otherwise it raises `TypeError`. |
| DynamicSession.CounterAfterCompose | src/domain/service/dynamic_session_providers/dynamic_session_interface.py:40-46 | `a + b` calls leave the counter as `a` calls followed by `b` calls. |
| DynamicSession.CounterCounts | src/domain/service/dynamic_session_providers/dynamic_session_interface.py:46 | Below the interval, each call adds one. |
| DynamicSession.CounterCycles | src/domain/service/dynamic_session_providers/dynamic_session_interface.py:40-46 | Within a cycle, `interval` calls bring the counter back. |
| DynamicSession.FiringSchedule | src/domain/service/dynamic_session_providers/dynamic_session_interface.py:32-46 | From 0 with interval n ≥ 1, processing happens on call n+1 and then every n calls, never before. |
| DynamicSession.CounterStaysInCycle | src/domain/service/dynamic_session_providers/dynamic_session_interface.py:40-46 | After the first call the counter stays in [1, n]. |
| DynamicSession.NonPositiveIntervalAlwaysFires | src/domain/service/dynamic_session_providers/dynamic_session_interface.py:40-42 | An interval of 0 or less processes on every call. |
| Replicate.ReplicateProvider.constructor | src/interfaces/ai_provider_interface.py:8-12 | Stores the model, the params, streaming (default off) and the history size (default 5). |
| Replicate.ReplicateProvider.FillPlaceholders | src/domain/service/ai_providers/replicate_provider.py:16-21 | The provider's own params become their substitution. |
| Replicate.ReplicateProvider.RenderHistory | src/domain/service/ai_providers/replicate_provider.py:26-30 | The accumulated text is the rendering of the messages. |
| Replicate.ReplicateProvider.TextToText | src/domain/service/ai_providers/replicate_provider.py:12-38 | Substitutes text and system into the params. A missing history raises `TypeError`. Otherwise `conversation_history` is overwritten with the rendering of the last `history_size` messages. |
| Replicate.ReplicateProvider.TextToAudio | src/domain/service/ai_providers/replicate_provider.py:40-51 | Substitutes only `{{text}}` into the params, which are the prediction input. |
| Replicate.Substitute | src/domain/service/ai_providers/replicate_provider.py:16-21 | Same keys in the same order. Each value is substituted on its own. |
| Replicate.SubstitutedValues | src/domain/service/ai_providers/replicate_provider.py:16-45 | `{{text}}` becomes the input and `{{system}}` the system text, and everything else is unchanged. Without a system text, only `{{text}}` changes. |
| Replicate.SubstitutionIsFinal | src/domain/service/ai_providers/replicate_provider.py:16-21 | After placeholder-free texts are substituted in, later substitutions change nothing. |
| Replicate.RenderAppend | src/domain/service/ai_providers/replicate_provider.py:28-30 | Messages render in order and are concatenated. |
| Replicate.WindowProperties | src/domain/service/ai_providers/replicate_provider.py:23-24 | The window is the last `history_size` messages. Size 0 gives the whole history. |
| SessionModel.IntOr | src/factories/ai_provider_factory.py:27 | `None` and 0 fall back to the default, and any other value is kept. |
| SessionModel.FlagOr | src/factories/ai_provider_factory.py:28 | Only `True` stays on. |
| SessionModel.IntOrNeverZero | src/factories/dynamic_session_provider_factory.py:21-24 | With a non-zero default, the result is never 0. |
| AIProviderFactory.KindOf | src/factories/ai_provider_factory.py:30-58 | A selected class is the one that name denotes. |
| AIProviderFactory.KindOfProviderName | src/factories/ai_provider_factory.py:30-58 | Each provider kind maps back to its name. |
| AIProviderFactory.GetProvider | src/factories/ai_provider_factory.py:14-25 | A session without a co-driver raises `AttributeError`. |
| AIProviderFactory.GetProviderProperties | src/factories/ai_provider_factory.py:14-60 | Built exactly for a configured known provider, with its model and params. The history size defaults to 5 for `None` or 0 and is never 0, and streaming is on only when set. Other failures with a co-driver are `ValueError`. |
| DynamicSessionFactory.GetProvider | src/factories/dynamic_session_provider_factory.py:12-45 | No session raises `AttributeError`. |
| DynamicSessionFactory.GetProviderProperties | src/factories/dynamic_session_provider_factory.py:12-45 | Only `openai` succeeds. `spacy` raises `TypeError`, and other names or a missing configuration raise `ValueError`. History defaults to 5 and the interval to 3, and neither is 0. |
| PluginCore.ExclusionIsRedundant | src/application/plugin_core.py:138-142 | The file filter is exactly "ends in `_handler.py`", because `telemetry_event_handlers.py` does not pass that test anyway. |
| PluginCore.ModuleNameStripsExtension | src/application/plugin_core.py:143 | The module name plus `.py` is the file name. |
| PluginCore.CapitalizeAll | src/application/plugin_core.py:148-150 | Each word is capitalized. |
| PluginCore.ConcatContains | src/application/plugin_core.py:148-150 | Joining words adds no character. |
| PluginCore.ClassNameHasNoUnderscore | src/application/plugin_core.py:148-150 | A derived class name never contains `_`. |
| PluginCore.HandlerClassesAppend | src/application/plugin_core.py:138-157 | Entries are processed in listing order. |
| PluginCore.HandlerClassesFromHandlerFiles | src/application/plugin_core.py:138-157 | Every class loaded comes from a listed `_handler.py` file. |
| PluginCore.RegisterTelemetryHandlers | src/application/plugin_core.py:138-157 | The classes instantiated and registered are those the listing yields, in order. |
| PluginCore.ModuleCall | src/application/plugin_core.py:159-182 | `register_module`/`unregister_module` return `True` exactly when the module call does not raise. |
| HandlersDirectory.CityProximityFileIsLoaded | src/application/plugin_core.py:138-142 | `city_proximity_handler.py` passes the filter. |
| HandlersDirectory.CityProximityModuleName | src/application/plugin_core.py:143 | Its module name is `city_proximity_handler`. |
| HandlersDirectory.ThreeWordClassName | src/application/plugin_core.py:148-150 | A three-word module name becomes the three capitalized words. |
| HandlersDirectory.CapitalizeLowerWord | src/application/plugin_core.py:148-150 | Capitalizing a lower-case word upper-cases only its first letter. |
| HandlersDirectory.CityProximityWords | src/application/plugin_core.py:148-150 | `city_proximity_handler` splits into `city`, `proximity` and `handler`. |
| HandlersDirectory.CityProximityCapitalized | src/application/plugin_core.py:148-150 | Those words capitalize to `CityProximityHandler`. |
| HandlersDirectory.CityProximityClassName | src/application/plugin_core.py:148-150 | The class name is `CityProximityHandler`. |
| HandlersDirectory.CityProximityHandlerNames | src/application/plugin_core.py:138-150 | The file passes the filter and gives module `city_proximity_handler` and class `CityProximityHandler`. |
| HandlersDirectory.SkippedEntry | src/application/plugin_core.py:138-142 | A filtered-out entry loads nothing. |
| HandlersDirectory.LoadedEntry | src/application/plugin_core.py:138-150 | A handler file loads exactly its derived class. |
| HandlersDirectory.ShortNameSkipped | src/application/plugin_core.py:139-140 | A name shorter than the suffix is skipped. |
| HandlersDirectory.HandlersDirectory | src/application/plugin_core.py:138-157 | The handlers folder and its two subfolders load only `CityProximityHandler`; the `disabled/` and `todo/` folders are never scanned. |
| TelemetryRules.BaseInit | src/domain/event/telemetry/handlers/telemetry_event_handlers.py:25-31 | The base constructor accepts exactly its own parameters, with the required ones present. Anything else raises `TypeError`. |
| TelemetryRules.CooldownKeywordRaises | src/domain/event/telemetry/handlers/telemetry_event_handlers.py:25-31 | Passing `cooldown` or `chance` raises `TypeError`. |
| TelemetryRules.HourOf | src/domain/event/telemetry/handlers/disabled/music_suggestion_handler.py:66 | The only failure is `ValueError`. |
| TelemetryRules.HourOfClock | src/domain/event/telemetry/handlers/disabled/time_based_greeting_handler.py:40 | The clock `"H:…"` reads as hour H. |
| TelemetryRules.HourOfNonNumeric | src/domain/event/telemetry/handlers/disabled/music_suggestion_handler.py:66 | A clock starting with a non-digit raises `ValueError`. |
| WeatherChange.WeatherChangeHandler.constructor | src/domain/event/telemetry/handlers/disabled/weather_change_handler.py:14-17 | No condition recorded yet. |
| WeatherChange.WeatherChangeHandler.CommentOnWeather | src/domain/event/telemetry/handlers/disabled/weather_change_handler.py:26-44 | Comments and returns `True` exactly when the condition differs from the recorded one and is not `clear`, and only then records it. Otherwise it returns `False`. |
| WeatherChange.WeatherChangeHandler.Handle | src/domain/event/telemetry/handlers/disabled/weather_change_handler.py:19-24 | A missing truck raises. Otherwise the rule emits exactly when it comments, returns `True` exactly then, and never returns `None`. |
| WeatherChange.ConditionCases | src/domain/event/telemetry/handlers/disabled/weather_change_handler.py:46-55 | `rainy` with wipers, else `foggy` with fog lights, else `clear`. |
| WeatherChange.RecordedNeverClear | src/domain/event/telemetry/handlers/disabled/weather_change_handler.py:32-41 | `clear` is never recorded. |
| WeatherChange.RepeatCommentsOnce | src/domain/event/telemetry/handlers/disabled/weather_change_handler.py:30-43 | A repeated condition comments at most once, and exactly once when it is new and not clear. |
| WeatherChange.RepeatIsSilent | src/domain/event/telemetry/handlers/disabled/weather_change_handler.py:30-43 | Repeating the recorded condition, or `clear`, never comments. |
| WeatherChange.RainClearRain | src/domain/event/telemetry/handlers/disabled/weather_change_handler.py:32-43 | rainy, clear, rainy gives one comment. |
| MusicSuggestion.TimeOfDayRanges | src/domain/event/telemetry/handlers/disabled/music_suggestion_handler.py:62-73 | [6,12) morning, [12,18) afternoon, [18,24) or [0,6) evening, and no description outside 0..23. |
| MusicSuggestion.HandleProperties | src/domain/event/telemetry/handlers/disabled/music_suggestion_handler.py:21-60 | Weather wins over the time of day. No suggestion exactly when neither has one. The rule emits and returns `True` exactly when there is one, and returns `False` otherwise. |
| MusicSuggestion.UnreadableHourRaises | src/domain/event/telemetry/handlers/disabled/music_suggestion_handler.py:66 | An unreadable hour raises `ValueError` whatever the weather. |
| MusicSuggestion.ConstructionRaises | src/domain/event/telemetry/handlers/disabled/music_suggestion_handler.py:18-19 | Construction raises. |
| TimeBasedGreeting.GreetingRanges | src/domain/event/telemetry/handlers/disabled/time_based_greeting_handler.py:40-46 | [6,12) morning, [12,18) afternoon, and every other integer evening. |
| TimeBasedGreeting.HandleAlwaysGreets | src/domain/event/telemetry/handlers/disabled/time_based_greeting_handler.py:27-51 | For a readable hour, the rule emits that hour's greeting followed by the profile instruction, and returns `True`. |
| TimeBasedGreeting.NeverDeclines | src/domain/event/telemetry/handlers/disabled/time_based_greeting_handler.py:27-34 | Returns only `True`, always with an emission, or raises without one. |
| TimeBasedGreeting.ClockGreeting | src/domain/event/telemetry/handlers/disabled/time_based_greeting_handler.py:36-51 | The clock `"H:MM"` greets for hour H. |
| TimeBasedGreeting.ConstructionRaises | src/domain/event/telemetry/handlers/disabled/time_based_greeting_handler.py:18-25 | Construction raises. |
| FuelReminder.Divide | src/domain/event/telemetry/handlers/disabled/fuel_reminder_handler.py:44-46 | Defined exactly for a non-zero divisor. |
| FuelReminder.NeedToRefuelIff | src/domain/event/telemetry/handlers/disabled/fuel_reminder_handler.py:35-61 | Refuel exactly when the range is below the distance, or the next rest stop is beyond the range, or the tank is below a quarter. |
| FuelReminder.PercentBelowQuarter | src/domain/event/telemetry/handlers/disabled/fuel_reminder_handler.py:57-68 | Below 25 percent is below a quarter of a positive capacity. |
| FuelReminder.HandleIffLowTank | src/domain/event/telemetry/handlers/disabled/fuel_reminder_handler.py:21-70 | With positive capacity and rate, the rule emits and returns `True` exactly when the tank is below a quarter, and returns `False` otherwise. |
| FuelReminder.ZeroRateRaises | src/domain/event/telemetry/handlers/disabled/fuel_reminder_handler.py:44-46 | A zero rate raises `ZeroDivisionError`. |
| FuelReminder.ConstructionRaises | src/domain/event/telemetry/handlers/disabled/fuel_reminder_handler.py:16-19 | Construction raises. |
| Speeding.HandleIffOverLimit | src/domain/event/telemetry/handlers/disabled/speeding_handler.py:24-38 | `True` with one request carrying the speed exactly above 90 km/h, which is strict. `False` otherwise. |
| Speeding.SubscribeToFieldsCall | src/domain/event/telemetry/handlers/disabled/speeding_handler.py:21-22 | Succeeds exactly without extra arguments. Otherwise it raises `TypeError`. |
| Speeding.RegisterRaises | src/domain/event/telemetry/handlers/disabled/speeding_handler.py:21-22 | The overriding `register` raises `TypeError`. |
| PersonalStoryTime.OpportuneIff | src/domain/event/telemetry/handlers/disabled/personal_story_time_handler.py:47-54 | Opportune exactly above 60 km/h and not paused. |
| PersonalStoryTime.StoryShape | src/domain/event/telemetry/handlers/disabled/personal_story_time_handler.py:57-82 | The story opens with a topic and the mood and carries both personality levels. It has the long-drive sentence exactly when more than 100000 remains, and it ends with the profile sentence. |
| PersonalStoryTime.HandleIffOpportune | src/domain/event/telemetry/handlers/disabled/personal_story_time_handler.py:33-45 | With a complete profile, the rule emits and returns `True` exactly at an opportune moment, and returns `False` otherwise. |
| PersonalStoryTime.IncompleteProfileRaises | src/domain/event/telemetry/handlers/disabled/personal_story_time_handler.py:57-66 | Missing topics raise `IndexError`. A missing personality raises `AttributeError`. |
| PersonalStoryTime.ConstructionRaises | src/domain/event/telemetry/handlers/disabled/personal_story_time_handler.py:21-31 | Construction raises. |
| RapidAcceleration.HandleIffRapid | src/domain/event/telemetry/handlers/disabled/rapid_acceleration_handler.py:18-30 | Emits the fixed request exactly above 2.5. It always returns `None`, never `False`. |
| RapidAcceleration.MissingTruckRaises | src/domain/event/telemetry/handlers/disabled/rapid_acceleration_handler.py:21-24 | A missing truck raises `AttributeError`. |
| RapidAcceleration.ConstructionRaises | src/domain/event/telemetry/handlers/disabled/rapid_acceleration_handler.py:13-16 | Construction raises. |
| CulturalTrivia.HandleIgnoresData | src/domain/event/telemetry/handlers/disabled/cultural_trivia_handler.py:16-32 | Always the same single fixed request and `None`, whatever the data. |
| CulturalTrivia.TriviaGate | src/domain/event/telemetry/handlers/disabled/cultural_trivia_handler.py:7-14 | With minimum wait 60, cooldown 0 and chance 1, the rule fires exactly when all of these hold: not blocked, 60 s since the start, and time moved on since its last emission. |
| CulturalTrivia.HandleTriviaData | src/domain/event/telemetry/handlers/disabled/cultural_trivia_handler.py:16-32 | Never raises. When it fires, it queues the trivia request, records the time and marks the rule, and the block flag stays set. |
| Python.PyEqReflexive | src/domain/event/telemetry/telemetry_subscription_manager.py:44 | `==` on values is reflexive. |
| Python.PyEqSymmetric | src/domain/event/telemetry/telemetry_subscription_manager.py:44 | `==` on values is symmetric. |
| Python.DictGet | src/domain/event/telemetry/telemetry_subscription_manager.py:44 | `get` finds exactly the stored keys. |
| Python.DictSet | src/domain/event/telemetry/telemetry_subscription_manager.py:45 | Storing sets that key in place, or appends a new key at the end. Other keys are unchanged. |
| Python.DictDelete | src/domain/event/telemetry/telemetry_subscription_manager.py:28 | `del` removes the key and keeps the others. |
| Python.DictSetKeepsKeysDistinct | src/domain/event/telemetry/telemetry_subscription_manager.py:45 | Storing never duplicates a key. |
| Python.SliceTo | src/domain/service/telemetry_location_service.py:40 | `s[:n]` is the first `min(n, |s|)` elements. |
| Python.SliceFrom | src/domain/service/ai_providers/replicate_provider.py:24 | `s[-n:]` is the last `min(n, |s|)` elements, and the whole list for `n == 0`. |
| Python.Split | src/application/plugin_core.py:149 | At least one part, none containing the separator. |
| Python.SplitWithoutSeparator | src/application/plugin_core.py:149 | A word without the separator is one part. |
| Python.SplitAtFirst | src/application/plugin_core.py:149 | Splitting cuts at the first separator. |
| Python.JoinSplit | src/application/plugin_core.py:149 | Joining the parts restores the string. |
| Python.Upper | src/application/plugin_core.py:149 | The result is never a lower-case ASCII letter. |
| Python.Lower | src/application/plugin_core.py:149 | The result is never an upper-case ASCII letter. |
| Python.LowerAll | src/application/plugin_core.py:149 | Lower-cases every character. |
| Python.Capitalize | src/application/plugin_core.py:149 | Upper-cases the first character and lower-cases the rest. |
| Python.Strip | src/domain/event/telemetry/telemetry_subscription_manager.py:53 | The result neither starts nor ends with the character. |
| Python.ParseInt | src/domain/event/telemetry/handlers/disabled/music_suggestion_handler.py:66 | The only failure is `ValueError`. |
| Python.DecimalValue | src/domain/event/telemetry/handlers/disabled/music_suggestion_handler.py:66 | A decimal numeral denotes its number. |
| Python.ParseIntDecimal | src/domain/event/telemetry/handlers/disabled/music_suggestion_handler.py:66 | `int` reads a decimal numeral back as its number. |
| Lists.ListRemove | src/domain/event/telemetry/telemetry_subscription_manager.py:26 | `list.remove` removes one occurrence. |
| Lists.ListRemoveFirst | src/domain/event/telemetry/telemetry_subscription_manager.py:26 | `list.remove` removes the first occurrence. |

## Left out

- Threads and locks in the event bus are left out: the spawning of workers, `is_alive`, and the unused `process_event` and `shutdown`. Queues are drained one sequential step at a time, which is concurrency only.
- The shared-memory segment, `parse_data` byte decoding, and the 1.10 layout are not modelled. That code is not available, so its verdict and decoded record are inputs.
- The layout does not decode the trailer array record by record; it is ten copies of the trailer table placed after byte 6000.
- The asynchronous polling loop, `time.sleep`, and `emit_data` are left out, because they are scheduling glue.
- `math.sqrt` is not modelled. Distances are compared squared, which orders cities the same way, and the proximity threshold 5000 is compared as 5000².
- Float formatting in messages is left out. Numbers stay as `Num` pieces of a message rather than rendered text.
- The telemetry records carry only the fields the rest of the model reads. The other dataclass fields, including those the mock sets such as `brake`, the cabin, chassis and wheel wear, `lights_dashboard`, `coordinate_z`, the rotations, `timezone_offset` and `version`, are not modelled, and the trailer records are left out.
- NotifyHandlers: the record passed in is an abstract attribute tree, not built from a `TelemetryData`. So the model does not derive the exact set of paths that `vars(telemetry_data)` yields for a real sample, which would include the unmodelled fields above.
- Capitalize: the case mapping is ASCII only. Python's `str.capitalize` also title-cases and lower-cases non-ASCII letters, so a handler file name with such letters derives a different class name. The same holds for Upper, Lower and LowerAll.
- Python's `int()` underscore separators and non-ASCII digits are not modelled. Hours are parsed as optionally signed ASCII decimals.
- fnmatch `[...]` character classes are left out, and so is Windows case folding. Matching handles `*`, `?` and literal characters; the subscription patterns in the code use only literals and `*`.
- `random`, `time.time`, and the audio volume norm are left out. They become parameters: the draws, `now`, and an `isLoud` flag.
- `importlib.import_module`, `getattr` and `os.listdir` are left out. The directory listing is an input, and a loaded class is registered by name.
- Network, NLP and audio services are left out, because they are foreign calls. This covers the OpenAI, Replicate HTTP, NLP Cloud, Edge, spaCy and Whisper transcription calls, the sound device and the speech output. A transcript is an input.
- Session persistence, pydantic schemas, and setup are left out. Only the provider configurations the factories read are modelled.
- The optional logging (`logging.*`) is left out.
- `harsh_braking_handler.py` imports modules that do not exist. `todo/cargo_care_handler.py` is empty.
