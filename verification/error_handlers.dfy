/**
 * The error handlers. Each handler logs exactly one replication-error record and then raises;
 * what differs between handlers is a small fixed table: the error-type tag, the alert
 * severity, the class raised, the message prefix, and whether the HTTP status code is added
 * to the record. The table of the shared handlers is here; the entry point's own copy of the
 * handlers (module `ReplicationMain`) uses the same `RunHandler` with its own table.
 */
module ErrorHandlers {
  import opened Base
  import opened Text
  import opened Constants
  import opened Errors
  import opened LoggingUtils

  /** What a handler does, apart from the error it is given. */
  datatype HandlerSpec = HandlerSpec(
    tag: string,
    severity: Severity,
    raises: ExcClass,
    prefix: string,
    withStatusCode: bool)

  /** `getattr(error, "status_code", None)` as a dictionary value. */
  function StatusCodeValue(e: Exc): (v: PyValue)
    ensures e.statusCode.Some? <==> v.PyInt?
    ensures e.statusCode.Some? ==> v == PyInt(e.statusCode.value)
  {
    match e.statusCode
    case Some(code) => PyInt(code)
    case None => PyNone
  }

  /** The additional context a handler passes to the error log. */
  function HandlerContext(spec: HandlerSpec, e: Exc): (ctx: map<string, PyValue>)
    ensures spec.withStatusCode ==> ctx == map["status_code" := StatusCodeValue(e)]
    ensures !spec.withStatusCode ==> ctx == map[]
  {
    if spec.withStatusCode then map["status_code" := StatusCodeValue(e)] else map[]
  }

  /** The outcome of a handler: the log with its record appended, and the exception it raises. */
  datatype Handled = Handled(log: seq<LogRecord>, raised: Exc)

  /**
   * Run a handler on `e`: log one error record built from the arguments, then raise a new
   * exception of the handler's class whose message is the prefix followed by `str(e)`.
   */
  function RunHandler(spec: HandlerSpec, e: Exc, correlationId: string, direction: string,
                      destination: string, log: seq<LogRecord>): (h: Handled)
    ensures |h.log| == |log| + 1 && log <= h.log
    ensures h.log[|log|].level == Error
    ensures h.log[|log|].message == "Service Bus replication error: " + spec.tag
    ensures h.log[|log|].extra.Keys == ErrorContextKeys + (if spec.withStatusCode then {"status_code"} else {})
    ensures h.log[|log|].extra["error_type"] == PyStr(spec.tag)
    ensures h.log[|log|].extra["alert_severity"] == PyStr(SeverityName(spec.severity))
    ensures h.log[|log|].extra["error_message"] == PyStr(e.message)
    ensures h.log[|log|].extra["correlation_id"] == PyStr(correlationId)
    ensures h.log[|log|].extra["direction"] == PyStr(direction)
    ensures h.log[|log|].extra["destination_queue"] == PyStr(destination)
    ensures spec.withStatusCode ==> h.log[|log|].extra["status_code"] == StatusCodeValue(e)
    ensures WellFormed(h.raised) && h.raised.kind == spec.raises
    ensures h.raised.message == spec.prefix + e.message
  {
    var ctx := HandlerContext(spec, e);
    var log' := LogReplicationError(log, correlationId, spec.tag, e.message, direction, destination, spec.severity, ctx);
    LogReplicationErrorContext(log, correlationId, spec.tag, e.message, direction, destination, spec.severity, ctx);
    Handled(log', Raise(spec.raises, spec.prefix + e.message))
  }

  // ---------------------------------------------------------------------------
  // The shared handlers
  // ---------------------------------------------------------------------------

  // The error-type tags and message prefixes of the shared handlers.
  const AuthenticationTag: string := "authentication_error"
  const ResourceNotFoundTag: string := "resource_not_found"
  const ServiceRequestTag: string := "service_request_error"
  const ServiceBusTag: string := "service_bus_error"
  const HttpResponseTag: string := "http_response_error"
  const AzureTag: string := "azure_error"
  const UnexpectedTag: string := "unexpected_error"
  const AuthenticationPrefix: string := "Failed to authenticate with Service Bus: "
  const NotFoundTopicOpening: string := "Could not find destination topic '"
  const NotFoundClosing: string := "': "
  const ServiceRequestPrefix: string := "Service Bus request failed: "
  const ServiceBusPrefix: string := "Service Bus operation failed: "
  const HttpResponsePrefix: string := "HTTP request failed: "
  const AzurePrefix: string := "Azure operation failed: "
  const UnexpectedPrefix: string := "Unexpected error during message replication: "

  /** `handle_authentication_error` … `handle_unexpected_error`, one row per category. */
  function SharedHandler(c: Category, destinationTopic: string): HandlerSpec {
    match c
    case Authentication =>
      HandlerSpec(AuthenticationTag, Critical, ClientAuthenticationError, AuthenticationPrefix, false)
    case ResourceNotFound =>
      HandlerSpec(ResourceNotFoundTag, High, ResourceNotFoundError,
                  NotFoundTopicOpening + destinationTopic + NotFoundClosing, false)
    case ServiceRequest => HandlerSpec(ServiceRequestTag, High, ServiceRequestError, ServiceRequestPrefix, false)
    case ServiceBus => HandlerSpec(ServiceBusTag, High, ServiceBusError, ServiceBusPrefix, true)
    case HttpResponse => HandlerSpec(HttpResponseTag, High, HttpResponseError, HttpResponsePrefix, false)
    case Azure => HandlerSpec(AzureTag, High, AzureError, AzurePrefix, false)
    case Unexpected => HandlerSpec(UnexpectedTag, Critical, ReplicationError, UnexpectedPrefix, false)
  }

  /** The shared handler for category `c`, applied to `e`. */
  function HandleShared(c: Category, e: Exc, correlationId: string, direction: string,
                        destinationTopic: string, log: seq<LogRecord>): (h: Handled)
    ensures |h.log| == |log| + 1 && log <= h.log && h.log[|log|].level == Error
    ensures "alert_severity" in h.log[|log|].extra
         && h.log[|log|].extra["alert_severity"] == PyStr(SeverityName(CategorySeverity(c)))
    ensures c != Unexpected ==> h.raised.kind == Caught(c)
    ensures c == Unexpected ==> h.raised.kind == ReplicationError
    ensures h.raised.message == SharedHandler(c, destinationTopic).prefix + e.message
  {
    SharedSeverityMatchesLadder(c, destinationTopic);
    RunHandler(SharedHandler(c, destinationTopic), e, correlationId, direction, destinationTopic, log)
  }

  /** The shared handlers' severities are the ladder's: critical for authentication and unexpected errors, high for the rest. */
  lemma SharedSeverityMatchesLadder(c: Category, destinationTopic: string)
    ensures SharedHandler(c, destinationTopic).severity == CategorySeverity(c)
  {
  }

  /** The length of each shared handler's tag; no two categories share one. */
  function SharedTagLength(c: Category): nat {
    match c
    case Authentication => 20
    case ResourceNotFound => 18
    case ServiceRequest => 21
    case ServiceBus => 17
    case HttpResponse => 19
    case Azure => 11
    case Unexpected => 16
  }

  lemma SharedTagHasLength(c: Category, t: string)
    ensures |SharedHandler(c, t).tag| == SharedTagLength(c)
  {
  }

  /** Every category has its own tag, so the tag identifies the handler that ran. */
  lemma SharedTagsDistinct(c: Category, d: Category, t: string)
    ensures SharedHandler(c, t).tag == SharedHandler(d, t).tag <==> c == d
  {
    SharedTagHasLength(c, t);
    SharedTagHasLength(d, t);
  }

  /** Only the Service Bus handler adds the status code. */
  lemma OnlyServiceBusAddsStatusCode(c: Category, t: string)
    ensures SharedHandler(c, t).withStatusCode <==> c == ServiceBus
  {
  }

  /** The not-found message names the destination topic. */
  lemma NotFoundNamesTopic(e: Exc, correlationId: string, direction: string, topic: string, log: seq<LogRecord>)
    ensures HandleShared(ResourceNotFound, e, correlationId, direction, topic, log).raised.message
         == "Could not find destination topic '" + topic + "': " + e.message
  {
  }

  /** An unexpected error becomes a `ReplicationError`, which the entry point treats as a known error. */
  lemma UnexpectedBecomesReplicationError(e: Exc, correlationId: string, direction: string, topic: string, log: seq<LogRecord>)
    ensures var h := HandleShared(Unexpected, e, correlationId, direction, topic, log);
      ServiceBusReplicationError in h.raised.classes && ReplicationError in h.raised.classes
      && h.raised.message == "Unexpected error during message replication: " + e.message
  {
  }
}
