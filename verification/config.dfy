/**
 * The validated replication settings as an immutable value, with the validators that
 * guard them and the derived values the relay reads: time-to-live, direction label and
 * destination.
 */
module Config {
  import opened Base
  import opened Text
  import opened Constants
  import opened Errors

  // ---------------------------------------------------------------------------
  // Replication type
  // ---------------------------------------------------------------------------

  datatype ReplicationType = PrimaryToSecondary | SecondaryToPrimary

  /** The value of `REPLICATION_TYPE` that selects a direction. */
  function TypeName(t: ReplicationType): string {
    match t
    case PrimaryToSecondary => TypePrimaryToSecondary
    case SecondaryToPrimary => TypeSecondaryToPrimary
  }

  /** `validate_replication_type`: only the two direction names are accepted. */
  function ValidateReplicationType(v: string): (r: Result<ReplicationType, Exc>)
    ensures r.Ok? <==> v == TypePrimaryToSecondary || v == TypeSecondaryToPrimary
    ensures r.Ok? ==> TypeName(r.value) == v
    ensures r.Err? ==> r.error.kind == ValueError
    ensures r.Err? ==> (r.error.message ==
      "Invalid replication type '" + v + "'. Must be one of: " + Join([TypePrimaryToSecondary, TypeSecondaryToPrimary], ", "))
  {
    if v == TypePrimaryToSecondary then Ok(PrimaryToSecondary)
    else if v == TypeSecondaryToPrimary then Ok(SecondaryToPrimary)
    else Err(Raise(ValueError, "Invalid replication type '" + v + "'. Must be one of: "
      + Join([TypePrimaryToSecondary, TypeSecondaryToPrimary], ", ")))
  }

  /** Every direction's name is accepted and read back as that direction. */
  lemma ReplicationTypeRoundTrip(t: ReplicationType)
    ensures ValidateReplicationType(TypeName(t)) == Ok(t)
  {
  }

  // ---------------------------------------------------------------------------
  // Nested settings and their bounds
  // ---------------------------------------------------------------------------

  datatype RetryConfig = RetryConfig(maxAttempts: int, baseDelay: real)

  /** `max_attempts` in [1, 10], `base_delay` in [0.1, 60.0]. */
  predicate ValidRetryConfig(r: RetryConfig) {
    1 <= r.maxAttempts <= 10 && 0.1 <= r.baseDelay <= 60.0
  }

  const DefaultRetryConfig: RetryConfig := RetryConfig(3, 1.0)

  datatype DeadLetterConfig = DeadLetterConfig(enabled: bool, maxDeliveryCount: int, ttlMinutes: int)

  /** `max_delivery_count` in [1, 100], `ttl_minutes` in [1, 43200] (thirty days). */
  predicate ValidDeadLetterConfig(d: DeadLetterConfig) {
    1 <= d.maxDeliveryCount <= 100 && 1 <= d.ttlMinutes <= 43200
  }

  const DefaultDeadLetterConfig: DeadLetterConfig := DeadLetterConfig(true, 3, 1440)

  const DefaultRtoMinutes: int := 10
  const DefaultDeltaMinutes: int := 2

  /** `RTO_MINUTES` in [1, 1440] and `DELTA_MINUTES` in [0, 1440]. */
  predicate ValidTiming(rtoMinutes: int, deltaMinutes: int) {
    1 <= rtoMinutes <= 1440 && 0 <= deltaMinutes <= 1440
  }

  /** The defaults satisfy their own bounds. */
  lemma DefaultsWithinBounds()
    ensures ValidRetryConfig(DefaultRetryConfig)
    ensures ValidDeadLetterConfig(DefaultDeadLetterConfig)
    ensures ValidTiming(DefaultRtoMinutes, DefaultDeltaMinutes)
  {
  }

  // ---------------------------------------------------------------------------
  // The settings value
  // ---------------------------------------------------------------------------

  /** `ReplicationConfig` once constructed. The `*Queue` fields hold topic names. */
  datatype ReplicationConfig = ReplicationConfig(
    replicationType: ReplicationType,
    primaryConnStr: Option<string>,
    primaryQueue: Option<string>,
    secondaryConnStr: Option<string>,
    secondaryQueue: Option<string>,
    primarySubscriptionPrincipal: Option<string>,
    primarySubscriptionAdditional: Option<string>,
    subscriptionList: seq<string>,
    rtoMinutes: int,
    deltaMinutes: int,
    retryConfig: RetryConfig,
    deadLetterConfig: DeadLetterConfig,
    appInsightsConnectionString: Option<string>,
    appInsightsInstrumentationKey: Option<string>
  )

  /** Every numeric field within its declared bounds. */
  predicate FieldsValid(c: ReplicationConfig) {
    ValidTiming(c.rtoMinutes, c.deltaMinutes)
    && ValidRetryConfig(c.retryConfig)
    && ValidDeadLetterConfig(c.deadLetterConfig)
  }

  /** `ttl_seconds`: the recovery-time objective plus the buffer, in seconds. */
  function TtlSeconds(c: ReplicationConfig): (ttl: int)
    ensures ttl % SecondsPerMinute == 0
    ensures ttl / SecondsPerMinute == c.rtoMinutes + c.deltaMinutes
  {
    (c.rtoMinutes + c.deltaMinutes) * SecondsPerMinute
  }

  /** Within the field bounds the time-to-live lies in [60, 172800] seconds, so it is positive. */
  lemma TtlSecondsBounds(c: ReplicationConfig)
    requires ValidTiming(c.rtoMinutes, c.deltaMinutes)
    ensures 60 <= TtlSeconds(c) <= 172800
  {
  }

  /** The defaults give twelve minutes. */
  lemma TtlSecondsDefault(c: ReplicationConfig)
    requires c.rtoMinutes == DefaultRtoMinutes && c.deltaMinutes == DefaultDeltaMinutes
    ensures TtlSeconds(c) == 720
  {
  }

  /** `direction`: the readable label of the configured direction. */
  function Direction(c: ReplicationConfig): (text: string)
    ensures c.replicationType == PrimaryToSecondary ==> text == DirectionPrimaryToSecondary
    ensures c.replicationType == SecondaryToPrimary ==> text == DirectionSecondaryToPrimary
  {
    if c.replicationType == PrimaryToSecondary then DirectionPrimaryToSecondary
    else DirectionSecondaryToPrimary
  }

  /** The label tells the two directions apart. */
  lemma DirectionIdentifiesType(c1: ReplicationConfig, c2: ReplicationConfig)
    ensures Direction(c1) == Direction(c2) <==> c1.replicationType == c2.replicationType
  {
    assert DirectionPrimaryToSecondary[0] != DirectionSecondaryToPrimary[0];
  }

  /** What `get_destination_config` hands back; the casts do not check for `None`. */
  datatype DestinationConfig = DestinationConfig(
    connectionString: Option<string>, topicName: Option<string>, direction: string)

  /** `get_destination_config`: the side messages are copied to. */
  function GetDestinationConfig(c: ReplicationConfig): (d: DestinationConfig)
    ensures d.direction == Direction(c)
    ensures c.replicationType == PrimaryToSecondary ==>
      d.connectionString == c.secondaryConnStr && d.topicName == c.secondaryQueue
    ensures c.replicationType == SecondaryToPrimary ==>
      d.connectionString == c.primaryConnStr && d.topicName == c.primaryQueue
  {
    if c.replicationType == PrimaryToSecondary then
      DestinationConfig(c.secondaryConnStr, c.secondaryQueue, Direction(c))
    else
      DestinationConfig(c.primaryConnStr, c.primaryQueue, Direction(c))
  }

  /** Environment variable naming the destination connection string. */
  function ConnectionVariable(t: ReplicationType): string {
    if t == PrimaryToSecondary then "SECONDARY_SERVICEBUS_CONN" else "PRIMARY_SERVICEBUS_CONN"
  }

  /** Environment variable naming the destination topic. */
  function TopicVariable(t: ReplicationType): string {
    if t == PrimaryToSecondary then "SECONDARY_TOPIC_NAME" else "PRIMARY_TOPIC_NAME"
  }

  /**
   * The required destination variables whose fields are unset or empty, in the order
   * connection string then topic.
   */
  function MissingVariables(c: ReplicationConfig): (missing: seq<string>)
    ensures ConnectionVariable(c.replicationType) in missing <==> !Present(GetDestinationConfig(c).connectionString)
    ensures TopicVariable(c.replicationType) in missing <==> !Present(GetDestinationConfig(c).topicName)
    ensures forall v :: v in missing ==> v == ConnectionVariable(c.replicationType) || v == TopicVariable(c.replicationType)
    ensures |missing| == 2 ==> missing == [ConnectionVariable(c.replicationType), TopicVariable(c.replicationType)]
  {
    var d := GetDestinationConfig(c);
    (if Present(d.connectionString) then [] else [ConnectionVariable(c.replicationType)])
    + (if Present(d.topicName) then [] else [TopicVariable(c.replicationType)])
  }

  /** One variable is reported per unset or empty destination field. */
  lemma MissingVariablesCount(c: ReplicationConfig)
    ensures |MissingVariables(c)| == (if Present(GetDestinationConfig(c).connectionString) then 0 else 1)
                                    + (if Present(GetDestinationConfig(c).topicName) then 0 else 1)
  {
  }

  /**
   * `validate_connection_config`: succeeds, returning the settings unchanged, exactly when
   * both destination fields are non-empty; otherwise a `ConfigError` lists the missing
   * variable names.
   */
  function ValidateConnectionConfig(c: ReplicationConfig): (r: Result<ReplicationConfig, Exc>)
    ensures r.Ok? <==> Present(GetDestinationConfig(c).connectionString) && Present(GetDestinationConfig(c).topicName)
    ensures r.Ok? ==> r.value == c
    ensures r.Err? ==> r.error.kind == ConfigError
    ensures r.Err? ==> (r.error.message ==
      "Missing required environment variables for " + TypeName(c.replicationType) + ": " + Join(MissingVariables(c), ", "))
  {
    var missing := MissingVariables(c);
    if missing != [] then
      Err(Raise(ConfigError, "Missing required environment variables for "
        + TypeName(c.replicationType) + ": " + Join(missing, ", ")))
    else Ok(c)
  }

  /** With nothing about the secondary side set, both of its variables are named, in order. */
  lemma MissingSecondaryVariables(c: ReplicationConfig)
    requires c.replicationType == PrimaryToSecondary
    requires c.secondaryConnStr == None && c.secondaryQueue == Some("")
    ensures ValidateConnectionConfig(c).Err?
    ensures MissingVariables(c) == ["SECONDARY_SERVICEBUS_CONN", "SECONDARY_TOPIC_NAME"]
  {
  }

  /** `has_app_insights_config` */
  function HasAppInsightsConfig(c: ReplicationConfig): (b: bool)
    ensures b == Truthy(PyOr(OptionalStr(c.appInsightsConnectionString), OptionalStr(c.appInsightsInstrumentationKey)))
  {
    Present(c.appInsightsConnectionString) || Present(c.appInsightsInstrumentationKey)
  }

  // ---------------------------------------------------------------------------
  // Subscription list
  // ---------------------------------------------------------------------------

  /** What `SUBSCRIPTION_LIST` may hold before validation. */
  datatype SubscriptionInput = NoSubscriptions | TextSubscriptions(text: string) | ListSubscriptions(items: seq<string>)

  /**
   * `split_subscription_list`: a falsy value gives the empty list, a string is split on
   * commas with each piece stripped and blanks dropped, a list passes through.
   */
  function SplitSubscriptionList(v: SubscriptionInput): (r: seq<string>)
    ensures v.NoSubscriptions? ==> r == []
    ensures v.ListSubscriptions? ==> r == v.items
    ensures v.TextSubscriptions? ==> forall p :: p in r ==> p != "" && Strip(p) == p && ',' !in p
    ensures v.TextSubscriptions? ==> r == StrippedNonBlank(Split(v.text, ','))
  {
    match v
    case NoSubscriptions => []
    case ListSubscriptions(items) => if items == [] then [] else items
    case TextSubscriptions(text) =>
      if text == "" then []
      else
        StrippedNonBlankAvoids(Split(text, ','), ',');
        StrippedNonBlank(Split(text, ','))
  }

  /** Writing names out comma-separated and reading them back gives the same names in order. */
  lemma SubscriptionListRoundTrip(names: seq<string>)
    requires names != []
    requires forall p :: p in names ==> p != "" && Strip(p) == p && ',' !in p
    ensures SplitSubscriptionList(TextSubscriptions(Join(names, ","))) == names
  {
    SplitJoin(names, ',');
    StrippedNonBlankNoop(names);
    assert Join(names, ",") != "" by {
      if |names| > 1 {
        assert Join(names, ",") == names[0] + "," + Join(names[1..], ",");
      }
    }
  }

  // ---------------------------------------------------------------------------
  // Construction
  // ---------------------------------------------------------------------------

  /** The settings as read from the environment, before validation (defaults applied). */
  datatype RawSettings = RawSettings(
    replicationType: string,
    primaryConnStr: Option<string>,
    primaryQueue: Option<string>,
    secondaryConnStr: Option<string>,
    secondaryQueue: Option<string>,
    primarySubscriptionPrincipal: Option<string>,
    primarySubscriptionAdditional: Option<string>,
    subscriptionList: SubscriptionInput,
    rtoMinutes: int,
    deltaMinutes: int,
    retryConfig: RetryConfig,
    deadLetterConfig: DeadLetterConfig,
    appInsightsConnectionString: Option<string>,
    appInsightsInstrumentationKey: Option<string>
  )

  /** Names of the fields whose own validators reject the raw value, in declaration order. */
  function InvalidFields(raw: RawSettings): (names: seq<string>)
    ensures names == [] <==>
      ValidateReplicationType(raw.replicationType).Ok?
      && ValidTiming(raw.rtoMinutes, raw.deltaMinutes)
      && ValidRetryConfig(raw.retryConfig)
      && ValidDeadLetterConfig(raw.deadLetterConfig)
  {
    (if ValidateReplicationType(raw.replicationType).Ok? then [] else ["replication_type"])
    + (if 1 <= raw.rtoMinutes <= 1440 then [] else ["rto_minutes"])
    + (if 0 <= raw.deltaMinutes <= 1440 then [] else ["delta_minutes"])
    + (if ValidRetryConfig(raw.retryConfig) then [] else ["retry_config"])
    + (if ValidDeadLetterConfig(raw.deadLetterConfig) then [] else ["dead_letter_config"])
  }

  /**
   * The destination pair of the raw settings is set: the secondary pair when the type is
   * named `primary_to_secondary`, the primary pair otherwise.
   */
  predicate RawDestinationPresent(raw: RawSettings) {
    if raw.replicationType == TypeName(PrimaryToSecondary) then
      Present(raw.secondaryConnStr) && Present(raw.secondaryQueue)
    else
      Present(raw.primaryConnStr) && Present(raw.primaryQueue)
  }

  /**
   * Constructing `ReplicationConfig`: every field validator runs first and any failure is
   * reported together as pydantic's validation error; only then does the model validator
   * check the destination, whose `ConfigError` escapes as it is.
   */
  function BuildReplicationConfig(raw: RawSettings): (r: Result<ReplicationConfig, Exc>)
    ensures r.Ok? ==> FieldsValid(r.value)
    ensures r.Ok? ==> TypeName(r.value.replicationType) == raw.replicationType
    ensures r.Ok? ==> Present(GetDestinationConfig(r.value).connectionString)
    ensures r.Ok? ==> Present(GetDestinationConfig(r.value).topicName)
    ensures r.Ok? ==> r.value.subscriptionList == SplitSubscriptionList(raw.subscriptionList)
    ensures r.Err? ==> r.error.kind in {PydanticValidationError, ConfigError}
    ensures r.Err? ==> r.error.classes == Ancestors(r.error.kind)
    ensures r.Err? && r.error.kind == PydanticValidationError <==> InvalidFields(raw) != []
  {
    var invalid := InvalidFields(raw);
    if invalid != [] then
      Err(Raise(PydanticValidationError, Join(invalid, ", ")))
    else
      var c := ReplicationConfig(
        ValidateReplicationType(raw.replicationType).value,
        raw.primaryConnStr, raw.primaryQueue, raw.secondaryConnStr, raw.secondaryQueue,
        raw.primarySubscriptionPrincipal, raw.primarySubscriptionAdditional,
        SplitSubscriptionList(raw.subscriptionList),
        raw.rtoMinutes, raw.deltaMinutes, raw.retryConfig, raw.deadLetterConfig,
        raw.appInsightsConnectionString, raw.appInsightsInstrumentationKey);
      ValidateConnectionConfig(c)
  }

  /** With every field valid, construction can only fail with the model validator's plain `ConfigError`. */
  lemma DestinationFailureIsConfigError(raw: RawSettings)
    requires InvalidFields(raw) == [] && BuildReplicationConfig(raw).Err?
    ensures BuildReplicationConfig(raw).error.kind == ConfigError
    ensures PydanticValidationError !in BuildReplicationConfig(raw).error.classes
  {
    assert PydanticValidationError !in Ancestors(ConfigError);
  }

  /** Construction succeeds exactly when every field is valid and the destination pair for the named type is set. */
  lemma BuildSucceedsExactly(raw: RawSettings)
    ensures BuildReplicationConfig(raw).Ok? <==> InvalidFields(raw) == [] && RawDestinationPresent(raw)
  {
  }

  /** A constructed configuration carries every raw setting other than the type and the subscription list unchanged. */
  lemma BuiltConfigPassesFieldsThrough(raw: RawSettings)
    requires BuildReplicationConfig(raw).Ok?
    ensures var c := BuildReplicationConfig(raw).value;
      && c.primaryConnStr == raw.primaryConnStr && c.primaryQueue == raw.primaryQueue
      && c.secondaryConnStr == raw.secondaryConnStr && c.secondaryQueue == raw.secondaryQueue
      && c.primarySubscriptionPrincipal == raw.primarySubscriptionPrincipal
      && c.primarySubscriptionAdditional == raw.primarySubscriptionAdditional
      && c.rtoMinutes == raw.rtoMinutes && c.deltaMinutes == raw.deltaMinutes
      && c.retryConfig == raw.retryConfig && c.deadLetterConfig == raw.deadLetterConfig
      && c.appInsightsConnectionString == raw.appInsightsConnectionString
      && c.appInsightsInstrumentationKey == raw.appInsightsInstrumentationKey
  {
  }

  /**
   * A constructed configuration always yields a usable destination and a positive
   * time-to-live within [60, 172800] seconds.
   */
  lemma BuiltConfigIsUsable(raw: RawSettings)
    requires BuildReplicationConfig(raw).Ok?
    ensures var c := BuildReplicationConfig(raw).value;
            && GetDestinationConfig(c).connectionString.Some?
            && GetDestinationConfig(c).topicName.Some?
            && 60 <= TtlSeconds(c) <= 172800
            && 1 <= c.retryConfig.maxAttempts
  {
    TtlSecondsBounds(BuildReplicationConfig(raw).value);
  }
}
