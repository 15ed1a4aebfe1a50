/**
 * Exceptions as values, and the fixed first-match `except` ladder that sorts a failed
 * replication into one of seven categories.
 *
 * An exception records its concrete class and the set of every class it is an instance
 * of, so an `except C` clause matches exactly when `C` is in that set. The hierarchy among
 * the Azure SDK classes is not part of this model: an Azure exception built here is an
 * instance of its own class and of `Exception` only, while one handed in from outside may
 * carry any set of classes.
 */
module Errors {
  import opened Base
  import opened Constants

  datatype ExcClass =
    | Exception
    | ValueError
    | RuntimeError
    | PydanticValidationError
      // Azure SDK classes
    | AzureError
    | ClientAuthenticationError
    | ResourceNotFoundError
    | ServiceRequestError
    | HttpResponseError
    | ServiceBusError
      // the relay's own classes
    | ServiceBusReplicationError
    | ConfigError
    | ReplicationError
    | ValidationError

  /** `type(e).__name__` */
  function ClassName(k: ExcClass): string {
    match k
    case Exception => "Exception"
    case ValueError => "ValueError"
    case RuntimeError => "RuntimeError"
    case PydanticValidationError => "ValidationError"
    case AzureError => "AzureError"
    case ClientAuthenticationError => "ClientAuthenticationError"
    case ResourceNotFoundError => "ResourceNotFoundError"
    case ServiceRequestError => "ServiceRequestError"
    case HttpResponseError => "HttpResponseError"
    case ServiceBusError => "ServiceBusError"
    case ServiceBusReplicationError => "ServiceBusReplicationError"
    case ConfigError => "ConfigError"
    case ReplicationError => "ReplicationError"
    case ValidationError => "ValidationError"
  }

  /** An exception object: concrete class, every class it is an instance of, `str()` of it, HTTP status. */
  datatype Exc = Exc(kind: ExcClass, classes: set<ExcClass>, message: string, statusCode: Option<int>)

  /** Every exception is an instance of its own class and of `Exception`. */
  predicate WellFormed(e: Exc) {
    e.kind in e.classes && Exception in e.classes
  }

  /**
   * The classes an instance of `kind` belongs to, as far as the relay's own declarations
   * show: `ConfigError`, `ReplicationError` and `ValidationError` derive from
   * `ServiceBusReplicationError`, pydantic's `ValidationError` from `ValueError`.
   */
  function Ancestors(kind: ExcClass): (r: set<ExcClass>)
    ensures kind in r && Exception in r
    ensures ServiceBusReplicationError in r <==>
      kind in {ServiceBusReplicationError, ConfigError, ReplicationError, ValidationError}
  {
    match kind
    case ConfigError | ReplicationError | ValidationError => {kind, ServiceBusReplicationError, Exception}
    case PydanticValidationError => {kind, ValueError, Exception}
    case _ => {kind, Exception}
  }

  /** `raise Kind(message)` */
  function Raise(kind: ExcClass, message: string): (e: Exc)
    ensures WellFormed(e) && e.kind == kind && e.message == message && e.statusCode.None?
  {
    Exc(kind, Ancestors(kind), message, None)
  }

  // ---------------------------------------------------------------------------
  // The except ladder
  // ---------------------------------------------------------------------------

  datatype Category =
    | Authentication
    | ResourceNotFound
    | ServiceRequest
    | ServiceBus
    | HttpResponse
    | Azure
    | Unexpected

  /** Position of a category's clause in the ladder. */
  function Rank(c: Category): nat {
    match c
    case Authentication => 0
    case ResourceNotFound => 1
    case ServiceRequest => 2
    case ServiceBus => 3
    case HttpResponse => 4
    case Azure => 5
    case Unexpected => 6
  }

  /** The class named by a category's `except` clause. */
  function Caught(c: Category): ExcClass {
    match c
    case Authentication => ClientAuthenticationError
    case ResourceNotFound => ResourceNotFoundError
    case ServiceRequest => ServiceRequestError
    case ServiceBus => ServiceBusError
    case HttpResponse => HttpResponseError
    case Azure => AzureError
    case Unexpected => Exception
  }

  /**
   * The clause that handles `e`: the first one, in ladder order, whose class `e` is an
   * instance of; `except Exception` catches whatever is left.
   */
  function Classify(e: Exc): (c: Category)
    ensures c != Unexpected ==> Caught(c) in e.classes
    ensures forall d :: Rank(d) < Rank(c) ==> Caught(d) !in e.classes
  {
    if ClientAuthenticationError in e.classes then Authentication
    else if ResourceNotFoundError in e.classes then ResourceNotFound
    else if ServiceRequestError in e.classes then ServiceRequest
    else if ServiceBusError in e.classes then ServiceBus
    else if HttpResponseError in e.classes then HttpResponse
    else if AzureError in e.classes then Azure
    else Unexpected
  }

  /** The two conditions on `Classify` pin the category down: first match is unique. */
  lemma FirstMatchUnique(e: Exc, c: Category)
    requires c != Unexpected ==> Caught(c) in e.classes
    requires forall d :: Rank(d) < Rank(c) ==> Caught(d) !in e.classes
    ensures Classify(e) == c
  {
    var k := Classify(e);
    assert Rank(k) < Rank(c) ==> Caught(k) !in e.classes;
    assert Rank(c) < Rank(k) ==> Caught(c) !in e.classes;
  }

  /**
   * Order matters: an authentication error that is also an HTTP response error is handled
   * as an authentication error, and a Service Bus error that is also an Azure error as a
   * Service Bus error.
   */
  lemma LadderOrderExamples(message: string)
    ensures Classify(Exc(ClientAuthenticationError, {ClientAuthenticationError, HttpResponseError, AzureError, Exception}, message, None))
         == Authentication
    ensures Classify(Exc(ServiceBusError, {ServiceBusError, AzureError, Exception}, message, None)) == ServiceBus
    ensures Classify(Raise(ValueError, message)) == Unexpected
    ensures Classify(Raise(ReplicationError, message)) == Unexpected
  {
  }

  /** Alert severity of a category: critical for authentication and unexpected errors, high otherwise. */
  function CategorySeverity(c: Category): (s: Severity)
    ensures s == Critical <==> c == Authentication || c == Unexpected
    ensures s != Critical ==> s == High
  {
    if c == Authentication || c == Unexpected then Critical else High
  }
}
