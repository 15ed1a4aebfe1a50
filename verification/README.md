# Service Bus replication — a Dafny model

This project models the message-handling core of an Azure Service Bus replication system.
The system copies messages between a primary and a secondary namespace. It has two relays:

- **The Azure Function relay** (`src/`). It is triggered by one message and does the following:
  - loads and validates its settings;
  - builds a replica of the message, with a new message id, a correlation id, three tracing
    properties and a time-to-live of RTO + delta minutes;
  - sends the replica under a retry policy;
  - on failure, classifies the exception with an `except` ladder, logs one structured
    replication-error record and raises a translated exception.
- **The batch replicator** (`replicate_servicebus_a_to_b.py`). It does the following:
  - drains a receiver in batches;
  - skips messages already flagged as replicated;
  - sends the rest as one batch with exponential back-off on `ServiceBusError`;
  - keeps running totals;
  - completes (acknowledges) messages on the source.

The Ansible filter plugin that names VMs and VMSS hosts during failover
(`ansible/filter_plugins/vm_name_filters.py`) is modelled too.

One module per source file:

| module | file | models |
|---|---|---|
| `Base`, `Text` | `base.dfy`, `text.dfy` | Option/Result, Python values (`PyValue`), truthiness, `str()`, and ASCII `strip`/`lower`/`upper`/`capitalize`/`split`/`join`. It also has a UTF-8 encoder. These are the Python primitives the source relies on. |
| `Constants`, `Messages` | `constants.dfy`, `messages.dfy` | The constants of `src/constants.py`, and the view of an SDK message that the core reads |
| `Errors` | `errors.dfy` | The exception classes of `src/exceptions.py` and the Azure classes the ladders catch. An exception carries every class it is an instance of. `Classify` is the first-match `except` ladder. |
| `MessageUtils` | `message_utils.dfy` | `src/message_utils.py`: correlation and replica ids, body processing, enhanced properties, replica construction |
| `Config` | `config.dfy` | `src/config.py`: field validators, `ReplicationConfig` construction, TTL, direction, destination |
| `Retry` | `retry.dfy` | `src/retry_utils.py`. The `with_retry` wrapper is an imperative loop proved against a specification of its calls, sleeps and log records. The module also has the two retry log records. |
| `LoggingUtils` | `logging_utils.dfy` | `src/ServiceBusReplication/logging_utils.py`: the replication-error record, correlation-id truncation, and the connection-string and secret passes of `sanitize_error_message` |
| `ErrorHandlers` | `error_handlers.dfy` | `src/shared/error_handlers.py`: one generic handler driven by a per-category table |
| `ReplicationMain` | `main_flow.dfy` | `src/main.py`: handler table, `replicate_message_to_destination`, `orchestrate_replication`, `load_and_validate_config`, `main` |
| `BatchReplicator` | `batch_replicator.dfy` | The batch relay: configuration check, skip rule, replica, one batch with back-off, the receive loop (a class holding the running totals), the completion rule |
| `VmNameFilters` | `vm_name_filters.dfy` | The filter plugin: target VM name, name-list parsing, spec filtering (an imperative loop), VMSS hostname |

Inputs that come from the outside become parameters:

- the current UTC time. The function relay takes one reading, `now`, with a date part and a time part. It renders that reading as `isoformat()` in correlation ids and as `str()` in the timestamp property. The batch relay takes the time as an ISO string, `utcNowIso`;
- the outcome of each send, either as a script indexed by attempt or as an optional failure;
- the batches a receiver yields;
- environment settings, as a record of raw values.

To check the proofs, run this in this directory (plain `dafny verify *.dfy` suffices as well):

    dafny verify --resource-limit 2000000 --warn-contradictory-assumptions *.dfy

## Model

| member | source | states |
|---|---|---|
| MessageUtils.Render | src/message_utils.py:37-95 | A clock reading rendered as its date, a separator, then its time. `isoformat()` (`IsoFormat`, line 37) uses `T` and `str()` (`StrForm`, line 95) uses a space. |
| MessageUtils.IsoAndStrDifferOnlyInSeparator | src/message_utils.py:37-95 | The two renderings of one reading have the same length and differ, in the date–time separator only |
| MessageUtils.GenerateCorrelationId | src/message_utils.py:27-41 | Returns the message's own correlation id when it is non-empty, otherwise `repl-<timestamp>`. The result is never empty. |
| MessageUtils.CorrelationPrefix | src/message_utils.py:113-115 | Returns the first eight characters of the correlation id, or the whole id when it is shorter |
| MessageUtils.GenerateReplicatedMessageId | src/message_utils.py:100-120 | Every replica id starts with the stem `repl-<prefix>`. With a non-empty original id, the rest is `-` followed by that id. Without one, the id is the stem alone. |
| MessageUtils.ReplicatedIdRoundTrip | src/message_utils.py:117-118 | Removing the stem `repl-<prefix>-` from an id built from a non-empty original id gives back the original id |
| MessageUtils.ReplicatedIdDiffersFromOriginal | src/message_utils.py:117-120 | A replica id never equals the original id and is strictly longer than a non-empty one. Without an original id it is exactly `repl-<prefix>`. |
| MessageUtils.ReplicatedIdExamples | src/message_utils.py:100-120 | Correlation id `test-correlation-id` with original `original-message-id` gives `repl-test-cor-original-message-id`; without an original it gives `repl-test-cor` |
| MessageUtils.ProcessMessageBody | src/message_utils.py:44-72 | Bytes are sent unchanged. Text is UTF-8 encoded. Any other value is sent as its `str()`, encoded. A non-empty original content type is kept. Otherwise bytes get `application/octet-stream` and everything else gets `text/plain; charset=utf-8`. The content type is never empty. |
| MessageUtils.ProcessMessageBodyExamples | src/message_utils.py:57-65 | `b"hello"` keeps its `application/json` type. Text `"hello"` becomes those five bytes with the text default. |
| MessageUtils.ProcessIntegerBodyExample | src/message_utils.py:67-72 | The integer body 12345 is sent as the bytes of `"12345"` with the text default |
| MessageUtils.CreateEnhancedProperties | src/message_utils.py:75-97 | The keys are the source's properties plus the three `x-` tracing keys. Every other source property keeps its value. The tracing keys hold the original message id (`None` stays `None`), the correlation id and the timestamp. |
| MessageUtils.TruncateTowardZero | src/message_utils.py:169-170 | `int()` of a float truncates toward zero, for both signs |
| MessageUtils.TimeToLive | src/message_utils.py:168-170 | A TTL is set only for a non-`None` number: an int as is, a float truncated, a bool as 0 or 1. Nothing is set otherwise. |
| MessageUtils.CreateReplicatedMessage | src/message_utils.py:123-173 | The body and content type come from body processing, the properties are the enhanced ones, the id is the replica id and the correlation id is the one given. Subject, session, to, reply-to, reply-to-session, partition key and scheduled time are copied. The TTL follows the guard. |
| MessageUtils.ReplicaNeverReusesSourceId | src/message_utils.py:146-149 | A replica's message id never equals the source message's id |
| MessageUtils.CorrelationSurvivesSecondHop | src/message_utils.py:37-41 | Relaying a delivered replica again keeps the first hop's correlation id, body bytes and content type |
| MessageUtils.SecondHopRecordsPreviousReplicaId | src/message_utils.py:89-97 | Relaying a delivered replica again records the replica's id as `x-original-message-id` |
| Text.StrippedNonBlank | src/config.py:187 | Every kept piece is non-empty and already stripped, and there are no more pieces than given |
| Text.StrippedNonBlankSingle | src/config.py:187 | A single piece is kept, stripped, exactly when it is not blank |
| Text.StrippedNonBlankAppend | src/config.py:187 | Cleaning a concatenation concatenates the cleaned parts, so pieces are kept in order and independently of each other |
| Text.StrippedNonBlankCons | src/config.py:187 | Cleaning a list with a first piece keeps that piece, stripped, in front exactly when it is not blank |
| Text.StrippedNonBlankAvoids | src/config.py:187 | A character absent from every piece is absent from every kept piece |
| Text.StrippedNonBlankNoop | src/config.py:187 | Pieces that are already non-empty and stripped pass through unchanged, in order |
| Text.OptionalStr | src/config.py:258 | An optional setting is truthy exactly when it is set and non-empty |
| Text.PyOr | src/config.py:258 | Python's `x or y` is `x` when `x` is truthy and `y` otherwise |
| Config.ValidateReplicationType | src/config.py:166-179 | Accepts exactly the two type names, and an accepted value reads back as that type. Any other value gives a `ValueError` whose message names the value and both allowed names. |
| Config.ReplicationTypeRoundTrip | src/config.py:166-179 | Every replication type's name validates to that type |
| Config.DefaultsWithinBounds | src/config.py:29-63 | The retry, dead-letter and RTO/delta defaults satisfy their own field bounds |
| Config.ValidRetryConfig | src/config.py:29-43 | Predicate: 1–10 attempts and a base delay of 0.1–60.0 s, the bounds of `RetryConfig`'s fields |
| Config.ValidDeadLetterConfig | src/config.py:46-63 | Predicate: 1–100 deliveries and a dead-letter TTL of 1–43200 minutes |
| Config.ValidTiming | src/config.py:123-136 | Predicate: RTO of 1–1440 minutes and delta of 0–1440 minutes |
| Config.FieldsValid | src/config.py:29-136 | Predicate: the timing, retry and dead-letter bounds all hold |
| Config.TtlSeconds | src/config.py:219-224 | The TTL is a whole number of minutes, equal to RTO + delta |
| Config.TtlSecondsBounds | src/config.py:123-136 | Within the field bounds, the TTL lies between 60 s and 172800 s |
| Config.TtlSecondsDefault | src/config.py:219-224 | The defaults (RTO 10, delta 2) give 720 s |
| Config.Direction | src/config.py:226-231 | Each replication type has its own direction label |
| Config.DirectionIdentifiesType | src/config.py:226-231 | Two configurations have the same direction label exactly when they have the same type |
| Config.GetDestinationConfig | src/config.py:233-251 | Primary-to-secondary uses the secondary connection and topic. The other type uses the primary pair. The direction label comes with both. |
| Config.MissingVariables | src/config.py:190-217 | The connection and topic variables of the destination are listed exactly when unset or empty, connection first, and nothing else is listed. |
| Config.MissingVariablesCount | src/config.py:190-217 | The list has exactly one entry per missing field |
| Config.ValidateConnectionConfig | src/config.py:190-217 | Succeeds, returning the configuration unchanged, exactly when both destination fields are non-empty. Otherwise raises `ConfigError` "Missing required environment variables for <type>: <names>". |
| Config.MissingSecondaryVariables | src/config.py:193-213 | With neither secondary setting given, both secondary variables are reported, in order |
| Config.HasAppInsightsConfig | src/config.py:253-258 | Equals the truthiness of Python's `connection_string or instrumentation_key`, each setting read as `None` or its string |
| Config.SplitSubscriptionList | src/config.py:181-188 | A falsy value gives `[]` and a list passes through. A string gives the stripped, non-blank pieces of its split at commas (`Text.StrippedNonBlank`), so every name is non-empty, stripped and comma-free. |
| Config.SubscriptionListRoundTrip | src/config.py:181-188 | Joining clean names with commas and splitting the result gives the same names in the same order |
| Config.InvalidFields | src/config.py:29-136 | Empty exactly when every field validator accepts |
| Config.RawDestinationPresent | src/config.py:190-217 | Predicate: the secondary pair is set for `primary_to_secondary`, the primary pair otherwise |
| Config.BuildReplicationConfig | src/config.py:66-217 | A pydantic error is raised exactly when a field is invalid; otherwise only a `ConfigError` can occur. A built configuration has valid fields, the requested type, a non-empty destination, and the subscription list split by the validator. |
| Config.DestinationFailureIsConfigError | src/config.py:190-217 | When every field is valid but construction fails, the error is a `ConfigError` and not a pydantic error |
| Config.BuildSucceedsExactly | src/config.py:66-217 | Construction succeeds exactly when every field validator accepts and the destination pair for the named type is set |
| Config.BuiltConfigPassesFieldsThrough | src/config.py:66-136 | A built configuration holds every other raw setting unchanged |
| Config.BuiltConfigIsUsable | src/config.py:190-224 | A built configuration has its destination set, a TTL within 60–172800 s and at least one retry attempt |
| Retry.FirstSuccess | src/retry_utils.py:35-47 | The first successful call at or after `k`: every call before it raised, and it succeeded unless it is the attempt budget |
| Retry.Calls | src/retry_utils.py:35-47 | No calls when no attempts are allowed. Otherwise 1 to `max_attempts` calls, every call but the last raised, and a count below the budget ends in a success. |
| Retry.Outcome | src/retry_utils.py:35-41 | Returns `None` exactly when no attempt is allowed. A returned value is the last call's value. A re-raise happens only after `max_attempts` calls, and it re-raises the last call's exception unchanged. |
| Retry.Delays | src/retry_utils.py:33-46 | One delay per sleep |
| Retry.DelaysElements | src/retry_utils.py:33-46 | The i-th sleep is the base delay, multiplied by the backoff factor once per earlier failure |
| Retry.DelayClosedForm | src/retry_utils.py:33-46 | The i-th delay equals `base_delay * backoff_factor^i` |
| Retry.DelaysClosedForm | src/retry_utils.py:33-46 | Every sleep of the schedule equals `base_delay * backoff_factor^i` |
| Retry.AttemptFailedRecord | src/retry_utils.py:42-44 | A failed, non-final attempt logs a warning |
| Retry.RetryFailedRecord | src/retry_utils.py:39-41 | Exhausting the attempts logs an error |
| Retry.Warnings | src/retry_utils.py:42-44 | One warning per failed, non-final attempt |
| Retry.WarningsElements | src/retry_utils.py:42-44 | The j-th warning names attempt j+1 and that attempt's exception |
| Retry.FirstNegativeDelay | src/retry_utils.py:45 | The first delay among the first n that is negative, or n: every delay before it is non-negative |
| Retry.SleepsWanted | src/retry_utils.py:39-45 | The sleeps a call asks for, one after each failed non-final call: every call before them raised |
| Retry.SleepFailure | src/retry_utils.py:45 | The sleep whose negative delay makes `time.sleep` raise `ValueError`, or the number of sleeps wanted when none does: every earlier delay is non-negative |
| Retry.RetrySpec | src/retry_utils.py:30-47 | A decorated call makes calls only within the budget. It returns `None` exactly when it makes no call. It completes one sleep between each two calls and only appends to the log. |
| Retry.WithRetry | src/retry_utils.py:30-47 | The loop's result, calls, completed sleeps and log are those of `RetrySpec` |
| Retry.LoopIsSpec | src/retry_utils.py:35-47 | From any state the loop reaches after failed calls, running it to the end gives `RetrySpec` |
| Retry.SpecOnSuccess | src/retry_utils.py:35-37 | k failures, each followed by a completed sleep, then a success: k+1 calls, k sleeps, k warnings, and the value is returned |
| Retry.SpecOnExhaustion | src/retry_utils.py:39-41 | Every call fails: `max_attempts` calls, a warning and a sleep after each but the last, then the final error record and the last exception re-raised |
| Retry.SpecOnNegativeSleep | src/retry_utils.py:42-45 | A failed non-final call whose delay is negative: its warning is logged, the sleep raises `ValueError`, and no further call is made |
| Retry.SpecWithoutAttempts | src/retry_utils.py:35 | A non-positive budget: no call, no sleep, no record, `None` |
| Retry.NonNegativeDelays | src/retry_utils.py:33-46 | A non-negative base delay and factor give non-negative delays only |
| Retry.NoSleepRaises | src/retry_utils.py:30-47 | With a non-negative base delay and factor no sleep raises: `Calls` calls, `Outcome` as the result, one sleep and one warning per failed non-final call, and a final error record exactly when it re-raises |
| Retry.NegativeBaseDelayStops | src/retry_utils.py:42-45 | A negative base delay and a failing first call, with two or more attempts allowed: one call, one warning, no sleep, and the sleep's `ValueError` escapes |
| Retry.NegativeFactorStops | src/retry_utils.py:33-46 | A positive base delay, a negative factor and two failing calls, with three or more attempts allowed: two calls, one sleep, two warnings, and the second sleep's `ValueError` escapes |
| Retry.FirstSuccessAt | src/retry_utils.py:35-37 | With k failures and then a success inside the budget, the first success is at k |
| Retry.AllRaised | src/retry_utils.py:35-41 | When every call within the budget raises, no success is found before the budget |
| Retry.FirstCallSucceeds | src/retry_utils.py:35-37 | A first call that succeeds is the only call, and its value is returned |
| Retry.SucceedsAfterFailures | src/retry_utils.py:35-47 | k failures followed by a success inside the budget make k+1 calls and return that value |
| Retry.AllAttemptsFail | src/retry_utils.py:39-41 | When every attempt fails, `max_attempts` calls are made and the last exception is re-raised unchanged |
| Retry.NoAttemptsAllowed | src/retry_utils.py:35 | A non-positive budget makes no call and returns `None` |
| Retry.EveryErrorIsRetried | src/retry_utils.py:38 | Any exception on the first call, whatever its class, leads to a second call when the budget allows |
| Retry.LogRetryAttempt | src/retry_utils.py:54-83 | Appends one warning record with the attempt number, the error message and medium severity, under the listed keys |
| Retry.LogRetryExhausted | src/retry_utils.py:86-106 | Appends one error record with the final error message and high severity, under the listed keys |
| Errors.Ancestors | src/exceptions.py:9-40 | Every exception is an `Exception`. The relay's own classes are exactly the subclasses of `ServiceBusReplicationError`. |
| Errors.Classify | src/main.py:336-367 | A caught category's class is among the exception's classes, and no earlier clause of the ladder matches |
| Errors.FirstMatchUnique | src/main.py:336-367 | Those two conditions determine the category uniquely |
| Errors.LadderOrderExamples | src/main.py:340-367 | An authentication error that is also an `HttpResponseError` is caught by the authentication clause, and a `ServiceBusError` by its own clause. `ValueError` and the relay's `ReplicationError` fall to the last clause. |
| Errors.CategorySeverity | src/main.py:121-254 | Critical exactly for authentication and unexpected errors, high for every other category |
| ReplicationMain.MainHandler | src/main.py:121-254 | Table of the entry point's seven handlers. No contract; its properties are the `Main*` lemmas below. |
| LoggingUtils.SeverityName | src/constants.py:54-57 | The four `ALERT_SEVERITY_*` strings `low`, `medium`, `high`, `critical`. No contract; `SeverityNameInjective` states that they are distinct. |
| LoggingUtils.SeverityNameInjective | src/constants.py:54-57 | Distinct severities have distinct names |
| LoggingUtils.BaseErrorContext | src/ServiceBusReplication/logging_utils.py:212-219 | The error context has exactly the six fixed keys |
| LoggingUtils.Update | src/ServiceBusReplication/logging_utils.py:221-222 | The updated context's keys are the union of both key sets |
| LoggingUtils.UpdateValues | src/ServiceBusReplication/logging_utils.py:221-222 | Additional values override the fixed ones. Keys that are not overridden keep their value. |
| LoggingUtils.LogReplicationError | src/ServiceBusReplication/logging_utils.py:197-227 | Appends exactly one error record titled "Service Bus replication error: <type>", whose keys are the six fixed ones plus the additional ones |
| LoggingUtils.LogReplicationErrorContext | src/ServiceBusReplication/logging_utils.py:212-227 | Every additional value wins. Each other fixed key holds the argument it names. |
| LoggingUtils.SlicePrefix | src/ServiceBusReplication/logging_utils.py:81 | Python's `s[:n]` is a prefix of `s`; for negative `n` it drops `-n` characters from the end |
| LoggingUtils.TruncateCorrelationId | src/ServiceBusReplication/logging_utils.py:68-81 | An id within the limit is unchanged. A longer one becomes its first `max_length` characters followed by `...`, at most `max_length + 3` characters long. |
| LoggingUtils.TruncateIdempotent | src/ServiceBusReplication/logging_utils.py:68-81 | Truncating twice equals truncating once |
| LoggingUtils.TruncateNegativeLimitExample | src/ServiceBusReplication/logging_utils.py:79-81 | A negative limit slices from the end: `("abcdef", -2)` gives `abcd...` |
| LoggingUtils.NonSemicolonRunChars | src/ServiceBusReplication/logging_utils.py:44 | The `[^;]+` scan covers no `;` and stops at a `;` or at the end |
| LoggingUtils.RunThen | src/ServiceBusReplication/logging_utils.py:44 | A field matches exactly when a non-empty run is followed by the next marker, and the match ends after the marker |
| LoggingUtils.MatchConnectionString | src/ServiceBusReplication/logging_utils.py:43-47 | A match is non-empty and ends inside the string |
| LoggingUtils.MaskConnectionStrings | src/ServiceBusReplication/logging_utils.py:43-47 | The connection-string pass. No contract; `MaskedWhereMatched`, `MaskAtMatch` and `NoEndpointUnchanged` state what it does. |
| LoggingUtils.MatchFromParts | src/ServiceBusReplication/logging_utils.py:43-47 | Where the endpoint, key-name and key pieces occur, the pattern matches and ends after the third run |
| LoggingUtils.MatchOnlyWherePieces | src/ServiceBusReplication/logging_utils.py:43-47 | The pattern matches only where those three pieces occur |
| LoggingUtils.MaskedWhereMatched | src/ServiceBusReplication/logging_utils.py:43-47 | A matched connection string is replaced by the masked one, and the pass resumes after it |
| LoggingUtils.MaskAtMatch | src/ServiceBusReplication/logging_utils.py:43-47 | Wherever the pattern matches, the output there is the masked connection string |
| LoggingUtils.NoEndpointUnchanged | src/ServiceBusReplication/logging_utils.py:43-47 | Text without `Endpoint=sb://` passes through unchanged |
| LoggingUtils.RunAtChars | src/ServiceBusReplication/logging_utils.py:50 | A base64 run is made of base64 characters and is maximal |
| LoggingUtils.PaddingLength | src/ServiceBusReplication/logging_utils.py:50 | At most two `=` are consumed after a run |
| LoggingUtils.MaskBase64 | src/ServiceBusReplication/logging_utils.py:50 | The secret pass. No contract; `MaskBase64NoLongRun` and `MaskBase64NoopWithoutLongRun` state what it does. |
| LoggingUtils.MaskBase64NoLongRun | src/ServiceBusReplication/logging_utils.py:50 | After the secret pass, no run of 20 or more base64 characters remains |
| LoggingUtils.MaskBase64NoopWithoutLongRun | src/ServiceBusReplication/logging_utils.py:50 | Text with no run of 20 or more base64 characters passes through unchanged |
| LoggingUtils.SanitizeErrorMessage | src/ServiceBusReplication/logging_utils.py:20-65 | A missing or empty message gives `""`. Otherwise the result holds no run of 20 or more base64 characters. |
| ErrorHandlers.StatusCodeValue | src/shared/error_handlers.py:97 | An integer exactly when the error carries a status code, and then that code |
| ErrorHandlers.HandlerContext | src/shared/error_handlers.py:97-107 | Holds only `status_code` for a handler that adds it, and is empty otherwise |
| ErrorHandlers.SharedHandler | src/shared/error_handlers.py:25-170 | Table of the seven `handle_*_error` functions: tag, severity, class raised, message prefix, and whether the status code is added. No contract; its properties are the `Shared*` lemmas below. |
| ErrorHandlers.RunHandler | src/shared/error_handlers.py:89-108 | Appends one error record with the handler's tag, severity, the error message, correlation id, direction and destination (plus `status_code` where the handler adds it). It then raises a new exception of the handler's class whose message is the prefix followed by the error message. |
| ErrorHandlers.HandleShared | src/shared/error_handlers.py:25-170 | Logs one record at the ladder's severity. It re-raises the caught Azure class, or `ReplicationError` for an unexpected error, with the handler's prefix. |
| ErrorHandlers.SharedSeverityMatchesLadder | src/shared/error_handlers.py:25-170 | The shared handlers' severities are critical for authentication and unexpected errors, and high otherwise |
| ErrorHandlers.SharedTagsDistinct | src/shared/error_handlers.py:25-170 | Two categories have the same error-type tag exactly when they are the same category |
| ErrorHandlers.OnlyServiceBusAddsStatusCode | src/shared/error_handlers.py:89-108 | Only the Service Bus handler adds the status code |
| ErrorHandlers.NotFoundNamesTopic | src/shared/error_handlers.py:47-66 | The not-found message names the destination topic |
| ErrorHandlers.UnexpectedBecomesReplicationError | src/shared/error_handlers.py:151-170 | An unexpected error becomes a `ReplicationError` with the unexpected prefix |
| ReplicationMain.MainSeverityMatchesLadder | src/main.py:121-254 | The entry point's handlers have the ladder's severities |
| ReplicationMain.MainReraisedKinds | src/main.py:121-254 | Each Azure handler re-raises the class it caught. The unexpected handler raises `RuntimeError`. |
| ReplicationMain.MainOnlyHttpAddsStatusCode | src/main.py:198-218 | In the entry point, only the HTTP handler adds the status code |
| ReplicationMain.ReplicaFor | src/main.py:284-310 | The replica sent uses the generated correlation id, from the `isoformat()` rendering of the clock reading, and the matching replica id. Its timestamp property holds the `str()` rendering of the same reading. Its TTL is the configured one. |
| ReplicationMain.ReplicateMessageToDestination | src/main.py:257-367 | A successful send logs nothing here. A failure logs one record tagged by the handler its class selects, and raises that handler's exception with its prefix. |
| ReplicationMain.ReplicationRaisesNoRelayError | src/main.py:336-367 | What escapes replication is never one of the relay's own exception classes |
| ReplicationMain.OrchestrateReplication | src/main.py:370-421 | Passes the destination, TTL, direction and retry settings through. It raises exactly when the send fails, and logs the validation record only for a relay `ValidationError`. |
| ReplicationMain.OrchestrationNeverLogsValidation | src/main.py:412-421 | The orchestration's `ValidationError` branch never logs, since nothing inside raises that class |
| ReplicationMain.ConfigLoadedRecord | src/main.py:62-68 | The success record is at info level and names the replication type |
| ReplicationMain.ConfigFailure | src/main.py:71-93 | Every load failure becomes a `ConfigError`. A pydantic error gets the validation prefix, anything else the unexpected prefix. |
| ReplicationMain.ConfigFailureRecord | src/main.py:71-93 | The failure record is an error with three keys, carrying the new message and a severity that depends on the failure kind |
| ReplicationMain.LoadAndValidateConfig | src/main.py:47-93 | Succeeds exactly when the configuration is built, and then logs the success record. Otherwise it raises the translated `ConfigError`. |
| ReplicationMain.UnexpectedLoadFailure | src/main.py:83-93 | Any construction failure that is not a pydantic error is re-raised with the `Unexpected error loading configuration: ` prefix over the original message |
| ReplicationMain.MissingDestinationIsUnexpected | src/main.py:83-93 | A missing destination, which passes every field check, is reported through the unexpected-error branch |
| ReplicationMain.MainReraise | src/main.py:446-468 | Known errors are re-raised unchanged. Anything else becomes a `RuntimeError` with the unexpected prefix. |
| ReplicationMain.MainFailureRecord | src/main.py:446-465 | An error record with exactly `error_type`, `error_message` and `alert_severity`. The message is the exception's text. The severity is `high` exactly for a known error and `critical` exactly otherwise. A known error's type is its class name. |
| ReplicationMain.BuiltSettingsHaveDestination | src/config.py:190-217 | A configuration that builds always has its destination |
| ReplicationMain.MainOutcome | src/main.py:437-468 | Logs the completion record when nothing escaped, otherwise the failure record for what escaped |
| ReplicationMain.Main | src/main.py:424-468 | Raises exactly when loading or sending fails. The log begins with the start record and ends with an error record on failure, or with the completion record otherwise. |
| ReplicationMain.ConfigFailureLeavesMainUnchanged | src/main.py:437-455 | A configuration failure escapes `main` as the same `ConfigError` |
| ReplicationMain.SendFailureLeavesMainAsRuntimeError | src/main.py:457-468 | A send failure escapes `main` as a `RuntimeError` |
| BatchReplicator.MissingConnections | replicate_servicebus_a_to_b.py:109 | Empty exactly when both connection strings are set |
| BatchReplicator.ValidateConfiguration | replicate_servicebus_a_to_b.py:82-116 | Passes, unchanged, exactly when the endpoints for the mode are named and both connections are set. Otherwise raises `ValueError` with the topic, queue or missing-variables message, checked in that order. |
| BatchReplicator.ShouldReplicate | replicate_servicebus_a_to_b.py:161-172 | Predicate: skipping is off, or the message's properties do not hold a truthy `replicated_from_a_to_b`. Its cases are `ShouldReplicateCases`. |
| BatchReplicator.CopyIfPresent | replicate_servicebus_a_to_b.py:203-212 | A truthy value is copied and a falsy one is left unset |
| BatchReplicator.Metadata | replicate_servicebus_a_to_b.py:185-193 | Exactly the six metadata keys. The replicated and tier-1 flags are true, the timestamp is the clock reading, the original id is the message id or `None`, the enqueued time is the message's or else the clock reading, and `rto_minutes` is the setting. |
| BatchReplicator.CreateBatchReplica | replicate_servicebus_a_to_b.py:174-214 | The body is unchanged and the TTL is RTO × 60. Without metadata the properties are the source's. With it, the keys are the source's plus the six metadata keys and every metadata key holds the metadata value. Other properties keep their values. Content type, correlation id, subject, reply-to and to are each copied exactly when truthy and left unset otherwise. |
| BatchReplicator.ReplicaIsNotReplicatedAgain | replicate_servicebus_a_to_b.py:161-193 | With metadata and skipping on, a replica read back from the destination is skipped, so there is no ping-pong |
| BatchReplicator.ShouldReplicateCases | replicate_servicebus_a_to_b.py:161-172 | Everything is replicated when skipping is off. Otherwise a message is replicated exactly when its flag is falsy. |
| BatchReplicator.ToReplicate | replicate_servicebus_a_to_b.py:222 | No longer than the batch |
| BatchReplicator.ToReplicateMembership | replicate_servicebus_a_to_b.py:222 | Holds exactly the batch's messages that should be replicated |
| BatchReplicator.SkippedOf | replicate_servicebus_a_to_b.py:223 | Its length is the skipped count |
| BatchReplicator.SkippedMembership | replicate_servicebus_a_to_b.py:334 | Holds exactly the batch's messages that should not be replicated |
| BatchReplicator.AddStats | replicate_servicebus_a_to_b.py:324-325 | Adds the counters field by field |
| BatchReplicator.FirstSettled | replicate_servicebus_a_to_b.py:233-264 | The first attempt at or after `k` that does not raise `ServiceBusError`, or the retry limit |
| BatchReplicator.SendAttempts | replicate_servicebus_a_to_b.py:233-269 | No attempt when `max_retries` ≤ 0. Otherwise 1 to `max_retries` attempts, every earlier one raised `ServiceBusError`, and a count below the limit ends in a settled attempt. |
| BatchReplicator.Waits | replicate_servicebus_a_to_b.py:266-269 | The k-th wait is 2^k seconds |
| BatchReplicator.WaitsTotal | replicate_servicebus_a_to_b.py:266-269 | After n failed attempts the batch has waited 2^(n+1) - 2 seconds in all |
| BatchReplicator.Replicas | replicate_servicebus_a_to_b.py:230 | One replica per message to replicate, in order |
| BatchReplicator.ReplicateMessagesBatch | replicate_servicebus_a_to_b.py:216-271 | The loop's counters, attempts, waits and replicas match the batch specification |
| BatchReplicator.SettledAt | replicate_servicebus_a_to_b.py:233-255 | A send that settles at attempt k+1 makes k+1 attempts |
| BatchReplicator.EveryAttemptFailed | replicate_servicebus_a_to_b.py:255-264 | When every send raises `ServiceBusError`, `max_retries` attempts are made |
| BatchReplicator.BatchStatsAccount | replicate_servicebus_a_to_b.py:216-271 | processed = replicated + skipped + failed, processed is the batch size and skipped is the flagged count |
| BatchReplicator.BatchAllOrNothing | replicate_servicebus_a_to_b.py:248-264 | A batch is either fully replicated or fully failed: one of the two counts is zero |
| BatchReplicator.AttemptsBounded | replicate_servicebus_a_to_b.py:233-269 | At most `max_retries` attempts, with one wait fewer than attempts |
| BatchReplicator.CompletedAsWritten | replicate_servicebus_a_to_b.py:328-334 | The completion rule as written: everything is completed whenever something was replicated or skipped |
| BatchReplicator.CompletedAsWrittenLosesFailedMessage | replicate_servicebus_a_to_b.py:328-337 | A batch of one flagged and one unflagged message whose sends all fail completes the unsent message |
| BatchReplicator.CompletedAsWrittenCases | replicate_servicebus_a_to_b.py:328-334 | For a batch result, the rule as written completes every message when any was replicated or skipped, and none otherwise |
| BatchReplicator.MessagesToComplete | replicate_servicebus_a_to_b.py:330-334 | The corrected completion rule: everything after a successful send, only the skipped messages otherwise |
| BatchReplicator.CompletionKeepsUndelivered | replicate_servicebus_a_to_b.py:328-337 | Under the corrected rule, a message that should have been replicated is completed only when the batch was sent |
| BatchReplicator.Completed | replicate_servicebus_a_to_b.py:328-334 | The rule as written for `AsWritten`, the intended rule for `Intended` |
| BatchReplicator.IntendedCompletesNoMore | replicate_servicebus_a_to_b.py:328-334 | Every message the intended rule completes is also completed by the rule as written |
| BatchReplicator.StatsTotals.constructor | replicate_servicebus_a_to_b.py:277 | The totals start at zero |
| BatchReplicator.StatsTotals.Add | replicate_servicebus_a_to_b.py:324-325 | The totals grow by the batch's counters |
| BatchReplicator.RunFrom | replicate_servicebus_a_to_b.py:304-337 | Specification of the receive loop: stop at the first empty batch or when a batch raises, add up the batch statistics, and complete what the rule selects. No contract of its own. |
| BatchReplicator.ProcessMessagesFromReceiver | replicate_servicebus_a_to_b.py:304-337 | The loop adds `RunFrom`'s totals to the running totals, and its completed messages and escaping error are `RunFrom`'s, under the given completion rule. With `AsWritten` it is the loop as written. |
| BatchReplicator.RunBalanced | replicate_servicebus_a_to_b.py:324-325 | The running totals keep processed = replicated + skipped + failed |
| BatchReplicator.RulesAgreeOnTotals | replicate_servicebus_a_to_b.py:304-337 | Both completion rules give the same totals and the same escaping error |
| BatchReplicator.ReceiveLoopLosesFailedMessage | replicate_servicebus_a_to_b.py:304-337 | For the mixed batch whose sends all fail, the loop as written completes the unsent message. With the intended rule only the flagged message is completed. The totals are 2 processed, 1 skipped, 1 failed. |
| VmNameFilters.NormalizeVmName | ansible/filter_plugins/vm_name_filters.py:5-11 | `None` gives `""`, and a string gives itself stripped |
| VmNameFilters.SepSplit | ansible/filter_plugins/vm_name_filters.py:18 | At least one piece, and no piece contains `-`, `_` or whitespace |
| VmNameFilters.SepSplitDropsOnlySeparators | ansible/filter_plugins/vm_name_filters.py:18 | Concatenating the pieces gives the input without its separators |
| VmNameFilters.SepRuns | ansible/filter_plugins/vm_name_filters.py:18 | The separator runs the split consumes, left to right. An input that starts with a separator has at least one. |
| VmNameFilters.SepSplitInterleaves | ansible/filter_plugins/vm_name_filters.py:18 | The input is its pieces interleaved with its runs. There is one run fewer than pieces, and every run is non-empty and made only of `-`, `_` and whitespace. Only the first and the last piece may be empty, so each run is maximal. The first piece is empty exactly when the input starts with a separator. |
| VmNameFilters.SepSplitUnique | ansible/filter_plugins/vm_name_filters.py:18 | Any such cut of the input into pieces and maximal separator runs is the one the split makes, so the pieces break exactly at the maximal runs of `[-_\s]` |
| VmNameFilters.ConsPiece | ansible/filter_plugins/vm_name_filters.py:18 | A non-separator in front of a cut joins its first piece |
| VmNameFilters.ConsLongRun | ansible/filter_plugins/vm_name_filters.py:18 | A separator in front of a cut that opens with a run lengthens that run |
| VmNameFilters.ConsShortRun | ansible/filter_plugins/vm_name_filters.py:18 | A separator in front of a cut that opens with a piece starts a new run after an empty first piece |
| VmNameFilters.Uncons | ansible/filter_plugins/vm_name_filters.py:18 | Dropping the first character of a non-empty first piece leaves a cut of the rest of the input |
| VmNameFilters.UniqueFromPiece | ansible/filter_plugins/vm_name_filters.py:18 | Uniqueness when the input starts inside the first piece |
| VmNameFilters.UniqueFromLongRun | ansible/filter_plugins/vm_name_filters.py:18 | Uniqueness when the input starts with two or more separators |
| VmNameFilters.UniqueFromShortRun | ansible/filter_plugins/vm_name_filters.py:18 | Uniqueness when the input starts with a single separator |
| VmNameFilters.SepSplitWholeExample | ansible/filter_plugins/vm_name_filters.py:18 | `"ab"` is one piece with no run |
| VmNameFilters.SepSplitEdgeRunsExample | ansible/filter_plugins/vm_name_filters.py:18 | `"--a__b "` splits into `["", "a", "b", ""]` at the runs `["--", "__", " "]`, as `re.split` does |
| VmNameFilters.CapitalizedTail | ansible/filter_plugins/vm_name_filters.py:22 | The capitalised tail has no separator and is as long as the pieces together |
| VmNameFilters.ToCamelCase | ansible/filter_plugins/vm_name_filters.py:14-23 | The result contains no `-`, `_` or whitespace |
| VmNameFilters.ConcatHead | ansible/filter_plugins/vm_name_filters.py:22 | The first `i` pieces joined are the first piece followed by the next `i - 1` pieces joined |
| VmNameFilters.HeadTailPiece | ansible/filter_plugins/vm_name_filters.py:22 | In a head followed by the capitalised tail, each piece sits at its place in the plain concatenation: the head first, then each later piece capitalised |
| VmNameFilters.LaterPiece | ansible/filter_plugins/vm_name_filters.py:22 | A piece after the first appears capitalised at its place |
| VmNameFilters.HeadPiece | ansible/filter_plugins/vm_name_filters.py:22 | The head occupies the first characters |
| VmNameFilters.CapitalizedTailPiece | ansible/filter_plugins/vm_name_filters.py:22 | Piece `i` of the capitalised tail is piece `i` capitalised, at its place in the plain concatenation |
| VmNameFilters.CamelCasePiece | ansible/filter_plugins/vm_name_filters.py:14-23 | The case pattern: the result is as long as the separator-free pieces together, the first piece appears lower-cased at the start, and every later piece appears capitalised at its place |
| VmNameFilters.CamelCaseKeepsLetters | ansible/filter_plugins/vm_name_filters.py:14-23 | Up to case, the result is the stripped input with only its separators removed |
| VmNameFilters.SourceName | ansible/filter_plugins/vm_name_filters.py:37 | No surrounding whitespace |
| VmNameFilters.OsPrefix | ansible/filter_plugins/vm_name_filters.py:39-40 | `dca` or `lnx` in lower case when the name starts with either (ignoring case), otherwise `vm` |
| VmNameFilters.TargetEnv | ansible/filter_plugins/vm_name_filters.py:42-44 | The spec's truthy `env`, otherwise `prod`, and never empty |
| VmNameFilters.DropOsPrefix | ansible/filter_plugins/vm_name_filters.py:49 | Removes a leading `dca`/`lnx` together with one following dash. Names without that prefix are unchanged. |
| VmNameFilters.TrailingDigitCount | ansible/filter_plugins/vm_name_filters.py:53 | The length of the maximal run of digits at the end |
| VmNameFilters.TrailingDigits | ansible/filter_plugins/vm_name_filters.py:53-55 | The maximal run of digits at the end, which is non-empty exactly when the name ends in a digit |
| VmNameFilters.AppSegment | ansible/filter_plugins/vm_name_filters.py:46-57 | The camel-cased application name, followed by `-<digits>` when the source ends in digits and the camel name does not. It ends in a digit whenever the source does. |
| VmNameFilters.ComputeTargetVmName | ansible/filter_plugins/vm_name_filters.py:26-59 | A non-blank override wins, stripped. Otherwise the name is `vm-<os>-<env>-<app>`. |
| VmNameFilters.TargetNameShape | ansible/filter_plugins/vm_name_filters.py:37-59 | Without an override the name starts with `vm-` and one of the three OS segments, and it ends in a digit whenever the source name does |
| VmNameFilters.NormalizedNames | ansible/filter_plugins/vm_name_filters.py:70 | Every name kept from a list is non-empty and stripped, and there are no more names than items |
| VmNameFilters.NormalizedNamesSingle | ansible/filter_plugins/vm_name_filters.py:70 | A single item is kept, normalised, exactly when its normalised name is not empty |
| VmNameFilters.NormalizedNamesAppend | ansible/filter_plugins/vm_name_filters.py:70 | Normalising a concatenation concatenates the results, so items keep their order |
| VmNameFilters.NormalizedNamesCons | ansible/filter_plugins/vm_name_filters.py:70 | An item in front is kept, normalised, in front exactly when its name is not empty |
| VmNameFilters.StrippedNonBlankClean | ansible/filter_plugins/vm_name_filters.py:79-80 | The pieces kept from a string are clean names |
| VmNameFilters.ParseNamesInput | ansible/filter_plugins/vm_name_filters.py:62-80 | `None` and blank strings give no names, and `STOP_ALL` in any case gives the token. Lists are normalised item by item. Every other result is clean names. |
| VmNameFilters.ParseScalarNames | ansible/filter_plugins/vm_name_filters.py:71-80 | Any other scalar is read through `str()`, stripped, split at commas, and its pieces stripped with the blank ones dropped |
| VmNameFilters.CommaSeparatedNamesRoundTrip | ansible/filter_plugins/vm_name_filters.py:71-80 | Joining clean, comma-free names with commas and parsing the result gives them back in order |
| VmNameFilters.ParseCommaSeparated | ansible/filter_plugins/vm_name_filters.py:71-80 | A clean string that is not `STOP_ALL` parses to its stripped, non-blank comma pieces |
| VmNameFilters.Selected | ansible/filter_plugins/vm_name_filters.py:103-109 | Never longer than the specs |
| VmNameFilters.SelectedMembership | ansible/filter_plugins/vm_name_filters.py:105-108 | Holds exactly the specs whose non-empty name was requested |
| VmNameFilters.SelectedPreservesOrder | ansible/filter_plugins/vm_name_filters.py:104-109 | Selecting from a concatenation is concatenating the selections, so the input order is kept |
| VmNameFilters.SelectByNames | ansible/filter_plugins/vm_name_filters.py:103-109 | The loop appends exactly the selected specs, in order |
| VmNameFilters.FilterVmSpecsByNames | ansible/filter_plugins/vm_name_filters.py:83-109 | Returns nothing for no names, every spec for `STOP_ALL`, otherwise the selection |
| VmNameFilters.FilterEdgeCases | ansible/filter_plugins/vm_name_filters.py:92-101 | `None`, an empty list and a blank string select nothing. `STOP_ALL` in any case returns the specs unchanged. |
| VmNameFilters.FilterSelectsByName | ansible/filter_plugins/vm_name_filters.py:103-109 | Otherwise a spec is kept exactly when its non-empty name is among the requested names |
| VmNameFilters.KeepAlnum | ansible/filter_plugins/vm_name_filters.py:132 | Only ASCII letters and digits remain, and nothing is added |
| VmNameFilters.KeepAlnumSingle | ansible/filter_plugins/vm_name_filters.py:132 | One character is kept exactly when it is an ASCII letter or digit |
| VmNameFilters.KeepAlnumAppend | ansible/filter_plugins/vm_name_filters.py:132 | Filtering a concatenation concatenates the results, so kept characters stay in order |
| VmNameFilters.MaxHostnameLength | ansible/filter_plugins/vm_name_filters.py:133-134 | 63 exactly for Linux and 9 for any other OS type |
| VmNameFilters.DefaultOsTypeIsWindows | ansible/filter_plugins/vm_name_filters.py:133-134 | Without an OS type the limit is Windows' 9 |
| VmNameFilters.NormalizedHostname | ansible/filter_plugins/vm_name_filters.py:131-132 | The normalised name starts with `vm` and is lower-case letters and digits |
| VmNameFilters.Truncate | ansible/filter_plugins/vm_name_filters.py:135 | A prefix of the string, of length exactly the smaller of `n` and its length |
| VmNameFilters.ShortHostname | ansible/filter_plugins/vm_name_filters.py:131-135 | Starts with `vm`, is lower-case alphanumeric, and is the prefix of the normalised name whose length is the smaller of the limit and that name's length |
| VmNameFilters.ComputeVmssShortHostname | ansible/filter_plugins/vm_name_filters.py:121-135 | Starts with `vm`, is lower-case alphanumeric, and is the prefix of the normalised name cut to 63 (Linux) or 9 (other) characters, or the whole name when shorter |

## Left out

- The Azure SDK and the runtime are not modelled: clients, senders, receivers, `asyncio`, `time.sleep` and logger configuration. A send's outcome, the batches a receiver yields and the current time are parameters. Sleeps appear as the list of completed delays. The `ValueError` that `time.sleep` raises for a negative delay is modelled.
- `exponential_backoff_retry`, which `src/main.py` wraps around the send, is not part of this model. The send's overall outcome is the `sendFailure` parameter of `ReplicationMain.ReplicateMessageToDestination`. `src/retry_utils.py`'s `with_retry` is modelled on its own.
- `send_message_to_destination` is not modelled: it is SDK I/O.
- `log_replication_start` and `log_replication_success` are left out, as is the debug record in `orchestrate_replication`. They are informational records with no effect on control flow.
- Environment loading (`BaseSettings`, aliases, `.env`) is not modelled. `Config.BuildReplicationConfig` starts from a record of raw settings.
- Config.BuildReplicationConfig: pydantic's error text is not modelled. The failure is identified by its kind and by the list of failing fields (`Config.InvalidFields`).
- LoggingUtils.SanitizeErrorMessage: the IP-address, e-mail and hexadecimal-token passes (lines 52-63) are not modelled. They run after the secret pass and only shorten or mask text. Its contract covers the empty case and the absence of secret-length base64 runs; the connection-string pass is specified by its own lemmas.
- Retry.AttemptFailedRecord: the text ". Retrying in {delay:.1f}s..." is not modelled, because it needs float formatting. The record's level, attempt and error are modelled.
- Retry.LogRetryAttempt: the `delay_seconds` key and the "%ss" delay text are not modelled, for the same reason.
- Delays and back-off factors are `real`. NaN and infinities are not modelled.
- `str()` of non-string bodies and values is abstracted. `OtherBody` carries the `repr` text. The UTF-8 encoder ignores lone surrogates, which Python would reject.
- `get_body()` and `.body` are treated as the same value.
- The Azure exception hierarchy is given only as the set of classes an exception belongs to. `raise ... from` chaining (`__cause__`) is not modelled.
- Each call takes a single `utcnow` reading, although the source reads the clock more than once. For example, `generate_correlation_id` and `create_enhanced_properties` each read it, so their two renderings may show different instants.
- BatchReplicator.Metadata: an enqueued time of `None` falls back to the clock reading, as a missing attribute does. In the source, a present `None` would raise `AttributeError` on `.isoformat()`.
- The batch replicator's informational log lines and the Unicode icons in them are not modelled.
- `run_replication_cycle`, `run_timed_replication`, `test_connections`, `log_summary` and the CLI entry point are not modelled: connection management and I/O.
- The receiver is modelled as a finite sequence of batches. An empty batch ends the loop.
- `filter_vm_specs_by_names` receives `vm_specs or []` as a sequence, so `None` is the empty sequence.
- The model takes every import as resolving. As written, `src/config.py:12-24` imports `DIRECTION_*` and `REPLICATION_TYPE_*` names that `src/constants.py:9-18` has commented out, and `src/main.py:41` imports `exponential_backoff_retry`, which `src/retry_utils.py` does not define. Either import fails when the module is loaded.
- Whitespace, case and digits are ASCII. Python's Unicode `str.strip`, `lower` and `\d` are not modelled.

## Notes on the code

- `with_retry` (src/retry_utils.py:35-47) retries every exception and re-raises the last one unchanged. The delay grows by a configurable `backoff_factor`.
- The handlers log `str(error)` as given (src/shared/error_handlers.py:25-170, src/main.py:121-254). Sanitising is a separate function that they do not call.
- The receive loop only ever completes messages (replicate_servicebus_a_to_b.py:335-337). It never abandons or dead-letters one. Which messages it completes is the subject of the finding below.
- The entry point's Service Bus tag is `servicebus_error` (src/main.py:189). The shared handlers use `service_bus_error` (src/shared/error_handlers.py:101).
- In the entry point, the HTTP handler adds `status_code` (src/main.py:205). In the shared handlers, the Service Bus handler adds it (src/shared/error_handlers.py:97).
- The direction labels are commented out in src/constants.py:17-18. The labels used are "Primary → Secondary" and "Secondary → Primary"; src/test_main.py:259 checks for the first of them.

## Findings

| source | as written | input that shows it | evidently intended | confidence | as-written member | corrected member |
|---|---|---|---|---|---|---|
| replicate_servicebus_a_to_b.py:328-337 | All messages of a batch are completed whenever `replicated > 0 or skipped > 0`. A batch whose send failed but which also held a skipped message therefore completes the unsent messages, which are lost. | A batch of one message flagged `replicated_from_a_to_b` and one unflagged message, with `skip_replicated` on and every send failing with `ServiceBusError` | Complete every message only after a successful send. Otherwise complete only the skipped ones, as the comments at lines 330 and 333 say. | high, not executed | BatchReplicator.CompletedAsWrittenLosesFailedMessage, BatchReplicator.ReceiveLoopLosesFailedMessage | BatchReplicator.CompletionKeepsUndelivered |
