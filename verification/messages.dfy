/**
 * The plain view of a broker message that the relay reads. Every attribute the source code
 * reaches with `getattr(msg, name, None)` is an `Option`; the relay never changes a source message.
 */
module Messages {
  import opened Base
  import opened Text

  /** The message body as the SDK hands it over: bytes, text, or any other object. */
  datatype Body =
    | BytesBody(bytes: seq<byte>)
    | TextBody(text: string)
      /** Any other object, carried by its `str()` rendering. */
    | OtherBody(repr: string)

  datatype SourceMessage = SourceMessage(
    body: Body,
    contentType: Option<string>,
    messageId: Option<string>,
    correlationId: Option<string>,
    subject: Option<string>,
    sessionId: Option<string>,
    to: Option<string>,
    replyTo: Option<string>,
    replyToSessionId: Option<string>,
    partitionKey: Option<string>,
    scheduledEnqueueTimeUtc: Option<string>,
    enqueuedTimeUtc: Option<string>,
    applicationProperties: Option<map<string, PyValue>>
  )

  /** `getattr(msg, "application_properties", {}) or {}` */
  function PropertiesOf(m: SourceMessage): map<string, PyValue> {
    if m.applicationProperties.Some? then m.applicationProperties.value else map[]
  }
}
