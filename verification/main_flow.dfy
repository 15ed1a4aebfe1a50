/**
 * The function-host entry point: load the settings, pick the destination, build the replica,
 * send it, and turn every failure into exactly one logged record and a raised exception.
 *
 * Sending, with the retry wrapper around it, is not modelled: its result is a parameter,
 * `None` when the replica was delivered and `Some(e)` for the exception that escaped.
 */
module ReplicationMain {
  import opened Base
  import opened Text
  import opened Constants
  import opened Messages
  import opened Errors
  import opened LoggingUtils
  import opened MessageUtils
  import opened Config
  import opened ErrorHandlers

  // ---------------------------------------------------------------------------
  // The entry point's handlers
  // ---------------------------------------------------------------------------

  // The tags and prefixes where the entry point's handlers differ from the shared ones.
  const MainServiceBusTag: string := "servicebus_error"
  const NotFoundQueueOpening: string := "Could not find destination queue '"
  const MainHttpResponsePrefix: string := "HTTP request failed during message replication: "
  const MainAzurePrefix: string := "Azure service error during message replication: "
  const MainUnexpectedPrefix: string := "Unexpected error occurred during message replication: "

  /** The entry point's `handle_*_error` functions, one row per category of the except ladder. */
  function MainHandler(c: Category, destinationQueue: string): HandlerSpec {
    match c
    case Authentication =>
      HandlerSpec(AuthenticationTag, Critical, ClientAuthenticationError, AuthenticationPrefix, false)
    case ResourceNotFound =>
      HandlerSpec(ResourceNotFoundTag, High, ResourceNotFoundError,
                  NotFoundQueueOpening + destinationQueue + NotFoundClosing, false)
    case ServiceRequest => HandlerSpec(ServiceRequestTag, High, ServiceRequestError, ServiceRequestPrefix, false)
    case ServiceBus => HandlerSpec(MainServiceBusTag, High, ServiceBusError, ServiceBusPrefix, false)
    case HttpResponse => HandlerSpec(HttpResponseTag, High, HttpResponseError, MainHttpResponsePrefix, true)
    case Azure => HandlerSpec(AzureTag, High, AzureError, MainAzurePrefix, false)
    case Unexpected => HandlerSpec(UnexpectedTag, Critical, RuntimeError, MainUnexpectedPrefix, false)
  }

  /** The severities follow the ladder: critical for authentication and unexpected errors, high for the rest. */
  lemma MainSeverityMatchesLadder(c: Category, destinationQueue: string)
    ensures MainHandler(c, destinationQueue).severity == CategorySeverity(c)
  {
  }

  /** Recognised categories are re-raised as their own class; anything else becomes a `RuntimeError`. */
  lemma MainReraisedKinds(c: Category, destinationQueue: string)
    ensures c != Unexpected ==> MainHandler(c, destinationQueue).raises == Caught(c)
    ensures c == Unexpected ==> MainHandler(c, destinationQueue).raises == RuntimeError
  {
  }

  /** Only the HTTP-response handler adds the status code here. */
  lemma MainOnlyHttpAddsStatusCode(c: Category, destinationQueue: string)
    ensures MainHandler(c, destinationQueue).withStatusCode <==> c == HttpResponse
  {
  }

  // ---------------------------------------------------------------------------
  // replicate_message_to_destination
  // ---------------------------------------------------------------------------

  /** The replica `replicate_message_to_destination` builds and hands to the sender. */
  function ReplicaFor(source: SourceMessage, ttlSeconds: int, now: UtcTime): (m: OutboundMessage)
    ensures m.correlationId == GenerateCorrelationId(source, IsoFormat(now))
    ensures m.messageId == GenerateReplicatedMessageId(GenerateCorrelationId(source, IsoFormat(now)), source.messageId)
    ensures m.timeToLive == Some(ttlSeconds)
    ensures PropReplicationTimestamp in m.applicationProperties
    ensures m.applicationProperties[PropReplicationTimestamp] == PyStr(StrForm(now))
  {
    CreateReplicatedMessage(source, GenerateCorrelationId(source, IsoFormat(now)), IntTtl(ttlSeconds), StrForm(now))
  }

  /** What one replication leaves behind: the log and what it raises. */
  datatype Replication = Replication(log: seq<LogRecord>, raised: Option<Exc>)

  /**
   * `replicate_message_to_destination`, once the replica has been sent or has failed to be:
   * a failure is routed through the except ladder to its handler, which logs once, under
   * the message's correlation id, and raises.
   */
  function ReplicateMessageToDestination(
    source: SourceMessage, destinationQueue: string, direction: string,
    now: UtcTime, sendFailure: Option<Exc>, log: seq<LogRecord>): (r: Replication)
    ensures sendFailure.None? ==> r.raised.None? && r.log == log
    ensures sendFailure.Some? ==> (
      var c := Classify(sendFailure.value);
      && |r.log| == |log| + 1 && log <= r.log
      && r.log[|log|].message == "Service Bus replication error: " + MainHandler(c, destinationQueue).tag
      && r.raised.Some?
      && r.raised.value.kind == MainHandler(c, destinationQueue).raises
      && r.raised.value.message == MainHandler(c, destinationQueue).prefix + sendFailure.value.message)
  {
    match sendFailure
    case None => Replication(log, None)
    case Some(e) =>
      var h := RunHandler(MainHandler(Classify(e), destinationQueue), e, GenerateCorrelationId(source, IsoFormat(now)),
                          direction, destinationQueue, log);
      Replication(h.log, Some(h.raised))
  }

  /** Whatever the send raises, the exception leaving the replication is never one of the relay's own classes. */
  lemma ReplicationRaisesNoRelayError(
    source: SourceMessage, destinationQueue: string, direction: string,
    now: UtcTime, sendFailure: Option<Exc>, log: seq<LogRecord>)
    ensures var r := ReplicateMessageToDestination(source, destinationQueue, direction, now, sendFailure, log);
      r.raised.Some? ==> ServiceBusReplicationError !in r.raised.value.classes && !IsKnownError(r.raised.value)
  {
    if sendFailure.Some? {
      var c := Classify(sendFailure.value);
      assert MainHandler(c, destinationQueue).raises !in
        {ServiceBusReplicationError, ConfigError, ReplicationError, ValidationError};
    }
  }

  // ---------------------------------------------------------------------------
  // orchestrate_replication
  // ---------------------------------------------------------------------------

  /** Every constructed settings value has its destination set: the model validator checks it. */
  predicate HasDestination(config: ReplicationConfig) {
    Present(GetDestinationConfig(config).connectionString) && Present(GetDestinationConfig(config).topicName)
  }

  /** The arguments `orchestrate_replication` passes on. */
  datatype ReplicateCall = ReplicateCall(
    connectionString: string, queueName: string, ttlSeconds: int, direction: string,
    maxRetryAttempts: int, baseRetryDelay: real)

  datatype Orchestration = Orchestration(call: ReplicateCall, log: seq<LogRecord>, raised: Option<Exc>)

  /** The record logged when destination validation fails. */
  function ValidationFailedRecord(e: Exc): LogRecord {
    LogRecord(Error, "Destination configuration validation failed",
              map["error_type" := PyStr("validation_error"), "error_message" := PyStr(e.message),
                  "alert_severity" := PyStr(SeverityName(High))])
  }

  /**
   * `orchestrate_replication`: forward the destination triple, the time-to-live and the
   * retry settings unchanged; a relay `ValidationError` is logged and re-raised as it is,
   * anything else propagates untouched. A settings value always has its destination set,
   * because constructing it checks that.
   */
  function OrchestrateReplication(source: SourceMessage, config: ReplicationConfig, now: UtcTime,
                                  sendFailure: Option<Exc>, log: seq<LogRecord>): (r: Orchestration)
    requires HasDestination(config)
    ensures r.raised.None? <==> sendFailure.None?
    ensures |r.log| >= |log| && log <= r.log
    ensures r.call == ReplicateCall(
      GetDestinationConfig(config).connectionString.value, GetDestinationConfig(config).topicName.value,
      TtlSeconds(config), Direction(config), config.retryConfig.maxAttempts, config.retryConfig.baseDelay)
    ensures var inner := ReplicateMessageToDestination(source, r.call.queueName, r.call.direction,
                                                       now, sendFailure, log);
      r.raised == inner.raised
      && (inner.raised.Some? && ValidationError in inner.raised.value.classes
          ==> r.log == inner.log + [ValidationFailedRecord(inner.raised.value)])
      && (inner.raised.None? || ValidationError !in inner.raised.value.classes ==> r.log == inner.log)
  {
    var d := GetDestinationConfig(config);
    var call := ReplicateCall(d.connectionString.value, d.topicName.value, TtlSeconds(config), d.direction,
                              config.retryConfig.maxAttempts, config.retryConfig.baseDelay);
    var inner := ReplicateMessageToDestination(source, call.queueName, call.direction,
                                               now, sendFailure, log);
    if inner.raised.Some? && ValidationError in inner.raised.value.classes then
      Orchestration(call, inner.log + [ValidationFailedRecord(inner.raised.value)], inner.raised)
    else
      Orchestration(call, inner.log, inner.raised)
  }

  /** Nothing inside the orchestration raises a relay `ValidationError`, so its dedicated branch never logs. */
  lemma OrchestrationNeverLogsValidation(source: SourceMessage, config: ReplicationConfig, now: UtcTime,
                                         sendFailure: Option<Exc>, log: seq<LogRecord>)
    requires HasDestination(config)
    ensures var r := OrchestrateReplication(source, config, now, sendFailure, log);
      r.log == ReplicateMessageToDestination(source, r.call.queueName, r.call.direction,
                                             now, sendFailure, log).log
  {
    var r := OrchestrateReplication(source, config, now, sendFailure, log);
    ReplicationRaisesNoRelayError(source, r.call.queueName, r.call.direction, now, sendFailure, log);
  }

  // ---------------------------------------------------------------------------
  // load_and_validate_config
  // ---------------------------------------------------------------------------

  datatype Loaded = Loaded(result: Result<ReplicationConfig, Exc>, log: seq<LogRecord>)

  /** The record logged once the settings are loaded. */
  function ConfigLoadedRecord(config: ReplicationConfig): (rec: LogRecord)
    ensures rec.level == Info
    ensures "replication_type" in rec.extra && rec.extra["replication_type"] == PyStr(TypeName(config.replicationType))
  {
    LogRecord(Info, "Replication configuration loaded successfully",
      map["replication_type" := PyStr(TypeName(config.replicationType)),
          "configuration_status" := PyStr("loaded")])
  }

  /**
   * The `ConfigError` a loading failure becomes: a pydantic validation failure is reported as
   * "Configuration validation failed: …", any other failure as "Unexpected error loading
   * configuration: …".
   */
  const ValidationFailedPrefix: string := "Configuration validation failed: "
  const UnexpectedLoadPrefix: string := "Unexpected error loading configuration: "

  function ConfigFailure(e: Exc): (f: Exc)
    ensures f.kind == ConfigError && WellFormed(f)
    ensures PydanticValidationError in e.classes ==> f.message == ValidationFailedPrefix + e.message
    ensures PydanticValidationError !in e.classes ==> f.message == UnexpectedLoadPrefix + e.message
  {
    if PydanticValidationError in e.classes then Raise(ConfigError, ValidationFailedPrefix + e.message)
    else Raise(ConfigError, UnexpectedLoadPrefix + e.message)
  }

  /** The record logged for a loading failure: high severity for validation failures, critical otherwise. */
  function ConfigFailureRecord(e: Exc): (rec: LogRecord)
    ensures rec.level == Error
    ensures rec.extra.Keys == {"error_type", "error_message", "alert_severity"}
    ensures rec.extra["error_message"] == PyStr(ConfigFailure(e).message)
    ensures PydanticValidationError in e.classes ==>
      rec.extra["error_type"] == PyStr("configuration_error") && rec.extra["alert_severity"] == PyStr("high")
    ensures PydanticValidationError !in e.classes ==>
      rec.extra["error_type"] == PyStr("unexpected_configuration_error") && rec.extra["alert_severity"] == PyStr("critical")
  {
    var message := ConfigFailure(e).message;
    if PydanticValidationError in e.classes then
      LogRecord(Error, "Configuration validation failed",
        map["error_type" := PyStr("configuration_error"), "error_message" := PyStr(message),
            "alert_severity" := PyStr(SeverityName(High))])
    else
      LogRecord(Error, "Unexpected configuration error",
        map["error_type" := PyStr("unexpected_configuration_error"), "error_message" := PyStr(message),
            "alert_severity" := PyStr(SeverityName(Critical))])
  }

  /**
   * `load_and_validate_config`, given what constructing the settings from the environment
   * yields (`BuildReplicationConfig` of the raw settings): on success log that they were
   * loaded, on failure log one error record and raise the `ConfigError` built from the failure.
   */
  function LoadAndValidateConfig(built: Result<ReplicationConfig, Exc>, log: seq<LogRecord>): (r: Loaded)
    ensures r.result.Ok? <==> built.Ok?
    ensures built.Ok? ==> r.result == built && r.log == log + [ConfigLoadedRecord(built.value)]
    ensures built.Err? ==> r.result == Err(ConfigFailure(built.error))
                           && r.log == log + [ConfigFailureRecord(built.error)]
  {
    match built
    case Ok(config) => Loaded(Ok(config), log + [ConfigLoadedRecord(config)])
    case Err(e) => Loaded(Err(ConfigFailure(e)), log + [ConfigFailureRecord(e)])
  }

  /**
   * A destination left unset is reported by the model validator, whose `ConfigError` is not
   * a pydantic validation error, so it arrives as an "unexpected" configuration error.
   */
  lemma MissingDestinationIsUnexpected(raw: RawSettings, log: seq<LogRecord>)
    requires InvalidFields(raw) == [] && BuildReplicationConfig(raw).Err?
    ensures var r := LoadAndValidateConfig(BuildReplicationConfig(raw), log);
      r.result.Err? && r.result.error.message
        == "Unexpected error loading configuration: " + BuildReplicationConfig(raw).error.message
  {
    DestinationFailureIsConfigError(raw);
    UnexpectedLoadFailure(BuildReplicationConfig(raw), log);
  }

  /** Any load failure that is not a pydantic validation error is reported as unexpected. */
  lemma UnexpectedLoadFailure(built: Result<ReplicationConfig, Exc>, log: seq<LogRecord>)
    requires built.Err? && PydanticValidationError !in built.error.classes
    ensures var r := LoadAndValidateConfig(built, log);
      r.result.Err? && r.result.error.message == "Unexpected error loading configuration: " + built.error.message
  {
  }

  // ---------------------------------------------------------------------------
  // main
  // ---------------------------------------------------------------------------

  /** The relay's own errors, which `main` re-raises unchanged. */
  predicate IsKnownError(e: Exc) {
    ConfigError in e.classes || ValidationError in e.classes || ReplicationError in e.classes
  }

  const MainStarted: LogRecord := LogRecord(Info, "Service Bus replication function started", map[])
  const MainCompleted: LogRecord := LogRecord(Info, "Service Bus replication function completed successfully", map[])

  /** The record `main` logs before re-raising. */
  function MainFailureRecord(e: Exc): (r: LogRecord)
    ensures r.level == Error
    ensures r.extra.Keys == {"error_type", "error_message", "alert_severity"}
    ensures r.extra["error_message"] == PyStr(e.message)
    ensures IsKnownError(e) <==> r.extra["alert_severity"] == PyStr(SeverityName(High))
    ensures !IsKnownError(e) <==> r.extra["alert_severity"] == PyStr(SeverityName(Critical))
    ensures IsKnownError(e) ==> r.extra["error_type"] == PyStr(ClassName(e.kind))
  {
    if IsKnownError(e) then
      LogRecord(Error, "Service Bus replication failed with known error",
        map["error_type" := PyStr(ClassName(e.kind)), "error_message" := PyStr(e.message),
            "alert_severity" := PyStr(SeverityName(High))])
    else
      LogRecord(Error, "Service Bus replication failed with unexpected error",
        map["error_type" := PyStr("unexpected_main_error"), "error_message" := PyStr(e.message),
            "alert_severity" := PyStr(SeverityName(Critical))])
  }

  /** What `main` raises for an exception that reached it. */
  const MainUnexpectedErrorPrefix: string := "Unexpected error in Service Bus replication: "

  function MainReraise(e: Exc): (r: Exc)
    ensures IsKnownError(e) ==> r == e
    ensures !IsKnownError(e) ==> (r.kind == RuntimeError && WellFormed(r)
      && r.message == MainUnexpectedErrorPrefix + e.message)
  {
    if IsKnownError(e) then e else Raise(RuntimeError, MainUnexpectedErrorPrefix + e.message)
  }

  datatype MainRun = MainRun(log: seq<LogRecord>, raised: Option<Exc>)

  /** Constructing the settings from the environment checks that the destination is set. */
  lemma BuiltSettingsHaveDestination(raw: RawSettings)
    ensures BuildReplicationConfig(raw).Ok? ==> HasDestination(BuildReplicationConfig(raw).value)
  {
  }

  /**
   * The end of `main`: log the completion when nothing escaped; otherwise log the failure
   * record and raise, unchanged for the relay's own errors and wrapped otherwise.
   */
  function MainOutcome(log: seq<LogRecord>, escaped: Option<Exc>): (r: MainRun)
    ensures r.raised.None? <==> escaped.None?
    ensures |r.log| == |log| + 1 && log <= r.log
    ensures escaped.None? ==> r.log[|log|] == MainCompleted
    ensures escaped.Some? ==> r.log[|log|] == MainFailureRecord(escaped.value)
                              && r.raised == Some(MainReraise(escaped.value))
  {
    match escaped
    case None => MainRun(log + [MainCompleted], None)
    case Some(e) => MainRun(log + [MainFailureRecord(e)], Some(MainReraise(e)))
  }

  /**
   * `main`: log the start, load the settings (`built` is what constructing them yields),
   * orchestrate, and finish.
   */
  function Main(built: Result<ReplicationConfig, Exc>, msg: SourceMessage, now: UtcTime,
                sendFailure: Option<Exc>, log: seq<LogRecord>): (r: MainRun)
    requires built.Ok? ==> HasDestination(built.value)
    ensures r.raised.None? <==> built.Ok? && sendFailure.None?
    ensures |r.log| >= |log| + 3 && log + [MainStarted] <= r.log
    ensures r.raised.Some? ==> r.log[|r.log| - 1].level == Error
    ensures r.raised.None? ==> r.log[|r.log| - 1] == MainCompleted
  {
    var log1 := log + [MainStarted];
    var loaded := LoadAndValidateConfig(built, log1);
    PrefixOfAppend(log1, log1, loaded.log[|log1|..]);
    match loaded.result
    case Err(e) =>
      var r := MainOutcome(loaded.log, Some(e));
      PrefixTransitive(log1, loaded.log, r.log);
      r
    case Ok(config) =>
      var o := OrchestrateReplication(msg, config, now, sendFailure, loaded.log);
      var r := MainOutcome(o.log, o.raised);
      PrefixTransitive(log1, loaded.log, o.log);
      PrefixTransitive(log1, o.log, r.log);
      r
  }

  /** A settings failure leaves `main` as the `ConfigError` built while loading, logged by `main` as a known error. */
  lemma ConfigFailureLeavesMainUnchanged(built: Result<ReplicationConfig, Exc>, msg: SourceMessage,
                                         now: UtcTime, sendFailure: Option<Exc>, log: seq<LogRecord>)
    requires built.Err?
    ensures var r := Main(built, msg, now, sendFailure, log);
      r.raised == Some(ConfigFailure(built.error))
      && r.log == log + [MainStarted, ConfigFailureRecord(built.error), MainFailureRecord(ConfigFailure(built.error))]
      && MainFailureRecord(ConfigFailure(built.error)).message == "Service Bus replication failed with known error"
  {
    var f := ConfigFailure(built.error);
    var log1 := log + [MainStarted];
    var loaded := LoadAndValidateConfig(built, log1);
    assert loaded.result == Err(f) && loaded.log == log1 + [ConfigFailureRecord(built.error)];
    assert ConfigError in f.classes;
    assert MainReraise(f) == f;
    assert MainOutcome(loaded.log, Some(f)).log == loaded.log + [MainFailureRecord(f)];
    assert loaded.log + [MainFailureRecord(f)] == log + [MainStarted, ConfigFailureRecord(built.error), MainFailureRecord(f)];
  }

  /**
   * A send failure is handled twice: the handler re-raises an Azure class or `RuntimeError`,
   * none of which is a relay error, so `main` wraps the handler's exception in a `RuntimeError`.
   */
  lemma SendFailureLeavesMainAsRuntimeError(config: ReplicationConfig, msg: SourceMessage, now: UtcTime,
                                            e: Exc, log: seq<LogRecord>)
    requires HasDestination(config)
    ensures var r := Main(Ok(config), msg, now, Some(e), log);
      var c := Classify(e);
      && r.raised.Some? && r.raised.value.kind == RuntimeError
      && r.raised.value.message == MainUnexpectedErrorPrefix
                                   + MainHandler(c, GetDestinationConfig(config).topicName.value).prefix + e.message
  {
    var loaded := LoadAndValidateConfig(Ok(config), log + [MainStarted]);
    var o := OrchestrateReplication(msg, config, now, Some(e), loaded.log);
    var inner := ReplicateMessageToDestination(msg, o.call.queueName, o.call.direction, now, Some(e), loaded.log);
    ReplicationRaisesNoRelayError(msg, o.call.queueName, o.call.direction, now, Some(e), loaded.log);
    assert o.raised == inner.raised;
    assert Main(Ok(config), msg, now, Some(e), log) == MainOutcome(o.log, o.raised);
  }
}
