/**
 * Building the replica of a source message: correlation id, new message id, body
 * normalisation, property enhancement and assembly with a guarded time-to-live.
 * Wall-clock readings (`utcnow()`) are parameters.
 */
module MessageUtils {
  import opened Base
  import opened Text
  import opened Constants
  import opened Messages

  // ---------------------------------------------------------------------------
  // Correlation and identity
  // ---------------------------------------------------------------------------

  /**
   * A reading of `datetime.datetime.utcnow()`: its date part (`YYYY-MM-DD`) and its time part
   * (`HH:MM:SS`, with `.ffffff` when the microseconds are not zero), as Python renders them.
   */
  datatype UtcTime = UtcTime(date: string, time: string)

  /** A reading rendered as its date, the separator `sep`, then its time. */
  function Render(now: UtcTime, sep: char): (s: string)
    ensures |s| == |now.date| + 1 + |now.time|
    ensures s[..|now.date|] == now.date && s[|now.date|] == sep && s[|now.date| + 1..] == now.time
  {
    now.date + [sep] + now.time
  }

  /** `now.isoformat()`: the date and the time joined by `'T'`. */
  function IsoFormat(now: UtcTime): string {
    Render(now, 'T')
  }

  /** `str(now)`: the date and the time joined by a space. */
  function StrForm(now: UtcTime): string {
    Render(now, ' ')
  }

  /**
   * The two renderings of one reading differ, and in one character only: the separator between
   * the date and the time.
   */
  lemma IsoAndStrDifferOnlyInSeparator(now: UtcTime)
    ensures IsoFormat(now) != StrForm(now)
    ensures |IsoFormat(now)| == |StrForm(now)|
    ensures forall i :: 0 <= i < |IsoFormat(now)| && i != |now.date| ==> IsoFormat(now)[i] == StrForm(now)[i]
  {
    var iso, str := IsoFormat(now), StrForm(now);
    assert iso[|now.date|] != str[|now.date|];
    forall i | 0 <= i < |iso| && i != |now.date|
      ensures iso[i] == str[i]
    {
      if i < |now.date| {
        assert iso[i] == iso[..|now.date|][i] == str[..|now.date|][i] == str[i];
      } else {
        assert iso[i] == iso[|now.date| + 1..][i - |now.date| - 1] == str[|now.date| + 1..][i - |now.date| - 1] == str[i];
      }
    }
  }

  /**
   * `generate_correlation_id`: the source's own correlation id when it has a non-empty one,
   * otherwise `"repl-"` followed by the current UTC time in ISO-8601 form.
   */
  function GenerateCorrelationId(source: SourceMessage, utcNowIso: string): (id: string)
    ensures Present(source.correlationId) ==> id == source.correlationId.value
    ensures !Present(source.correlationId) ==> id == CorrelationIdPrefix + "-" + utcNowIso
    ensures id != []
  {
    OrElse(source.correlationId, CorrelationIdPrefix + "-" + utcNowIso)
  }

  /** The first eight characters of the correlation id, or all of it when shorter. */
  function CorrelationPrefix(correlationId: string): (p: string)
    ensures |p| == if |correlationId| >= 8 then 8 else |correlationId|
    ensures p == correlationId[..|p|]
  {
    if |correlationId| >= 8 then correlationId[..8] else correlationId
  }

  /** `generate_replicated_message_id` */
  function GenerateReplicatedMessageId(correlationId: string, originalMessageId: Option<string>): (id: string)
    ensures |CorrelationIdPrefix + "-" + CorrelationPrefix(correlationId)| <= |id|
    ensures id[..|CorrelationIdPrefix + "-" + CorrelationPrefix(correlationId)|]
         == CorrelationIdPrefix + "-" + CorrelationPrefix(correlationId)
    ensures Present(originalMessageId) ==>
      id[|CorrelationIdPrefix + "-" + CorrelationPrefix(correlationId)|..] == "-" + originalMessageId.value
    ensures !Present(originalMessageId) ==> |id| == |CorrelationIdPrefix + "-" + CorrelationPrefix(correlationId)|
  {
    var stem := CorrelationIdPrefix + "-" + CorrelationPrefix(correlationId);
    if Present(originalMessageId) then stem + "-" + originalMessageId.value else stem
  }

  /**
   * The partner of `GenerateReplicatedMessageId`: recovers the original id from a replicated
   * id by dropping the `"repl-<prefix>-"` stem (what makes the origin traceable).
   */
  function OriginalMessageIdOf(correlationId: string, replicatedId: string): string {
    var stemLength := |CorrelationIdPrefix + "-" + CorrelationPrefix(correlationId) + "-"|;
    if |replicatedId| <= stemLength then "" else replicatedId[stemLength..]
  }

  /** The stem identifies the correlation and the original id is recovered after it. */
  lemma ReplicatedIdRoundTrip(correlationId: string, original: string)
    requires original != ""
    ensures OriginalMessageIdOf(correlationId, GenerateReplicatedMessageId(correlationId, Some(original))) == original
  {
  }

  /**
   * With an original id the generated id is strictly longer than it, so it can never
   * coincide with it; without one, the id is the bare stem.
   */
  lemma ReplicatedIdDiffersFromOriginal(correlationId: string, original: Option<string>)
    ensures original.Some? ==> GenerateReplicatedMessageId(correlationId, original) != original.value
    ensures Present(original) ==> |GenerateReplicatedMessageId(correlationId, original)| > |original.value|
    ensures !Present(original) ==>
      GenerateReplicatedMessageId(correlationId, original) == CorrelationIdPrefix + "-" + CorrelationPrefix(correlationId)
  {
  }

  /** The two examples of the unit tests. */
  lemma ReplicatedIdExamples()
    ensures GenerateReplicatedMessageId("test-correlation-id", Some("original-message-id"))
         == "repl-test-cor-original-message-id"
    ensures GenerateReplicatedMessageId("test-correlation-id", None) == "repl-test-cor"
  {
    var stem := CorrelationIdPrefix + "-" + CorrelationPrefix("test-correlation-id");
    assert stem == "repl-test-cor";
  }

  // ---------------------------------------------------------------------------
  // Body
  // ---------------------------------------------------------------------------

  datatype ProcessedBody = ProcessedBody(bytes: seq<byte>, contentType: string)

  /**
   * `process_message_body`: bytes pass through, text is UTF-8 encoded, anything else is
   * stringified then encoded; a missing or empty content type gets a per-kind default.
   * Total: defined for every body.
   */
  function ProcessMessageBody(body: Body, originalContentType: Option<string>): (r: ProcessedBody)
    ensures body.BytesBody? ==> r.bytes == body.bytes
    ensures body.TextBody? ==> r.bytes == EncodeUtf8(body.text)
    ensures body.OtherBody? ==> r.bytes == EncodeUtf8(body.repr)
    ensures Present(originalContentType) ==> r.contentType == originalContentType.value
    ensures !Present(originalContentType) && body.BytesBody? ==> r.contentType == ContentTypeBinary
    ensures !Present(originalContentType) && !body.BytesBody? ==> r.contentType == ContentTypeTextUtf8
    ensures r.contentType != ""
  {
    match body
    case BytesBody(b) => ProcessedBody(b, OrElse(originalContentType, ContentTypeBinary))
    case TextBody(s) => ProcessedBody(EncodeUtf8(s), OrElse(originalContentType, ContentTypeTextUtf8))
    case OtherBody(repr) => ProcessedBody(EncodeUtf8(repr), OrElse(originalContentType, ContentTypeTextUtf8))
  }

  /** The byte and text body examples: bytes kept, `"hello"` encoded as text. */
  lemma ProcessMessageBodyExamples()
    ensures ProcessMessageBody(BytesBody([104, 101, 108, 108, 111]), Some("application/json"))
         == ProcessedBody([104, 101, 108, 108, 111], "application/json")
    ensures ProcessMessageBody(TextBody("hello"), None)
         == ProcessedBody([104, 101, 108, 108, 111], ContentTypeTextUtf8)
  {
    assert IsAscii("hello");
  }

  /** The non-text body example: the integer `12345` is sent as its decimal text. */
  lemma ProcessIntegerBodyExample()
    ensures ProcessMessageBody(OtherBody(PyStrOf(PyInt(12345))), None)
         == ProcessedBody([49, 50, 51, 52, 53], ContentTypeTextUtf8)
  {
    assert NatToDecimal(1) == "1";
    assert NatToDecimal(12) == "12";
    assert NatToDecimal(123) == "123";
    assert NatToDecimal(1234) == "1234";
    assert NatToDecimal(12345) == "12345";
    assert IsAscii("12345");
  }

  // ---------------------------------------------------------------------------
  // Properties
  // ---------------------------------------------------------------------------

  /** The three keys `create_enhanced_properties` always sets. */
  const MetadataKeys: set<string> :=
    {PropOriginalMessageId, PropReplicationCorrelationId, PropReplicationTimestamp}

  /** `source_message.message_id` as a property value (`None` stays `None`). */
  function MessageIdValue(source: SourceMessage): PyValue {
    if source.messageId.Some? then PyStr(source.messageId.value) else PyNone
  }

  /**
   * `create_enhanced_properties`, with `str(utcnow())` passed in: a copy of the source's
   * properties (missing or `None` read as empty) with the three metadata keys written over it.
   */
  function CreateEnhancedProperties(source: SourceMessage, correlationId: string, timestamp: string)
    : (r: map<string, PyValue>)
    ensures r.Keys == PropertiesOf(source).Keys + MetadataKeys
    ensures forall k :: k in PropertiesOf(source) && k !in MetadataKeys ==> r[k] == PropertiesOf(source)[k]
    ensures r[PropOriginalMessageId] == MessageIdValue(source)
    ensures r[PropReplicationCorrelationId] == PyStr(correlationId)
    ensures r[PropReplicationTimestamp] == PyStr(timestamp)
  {
    PropertiesOf(source)
      [PropOriginalMessageId := MessageIdValue(source)]
      [PropReplicationCorrelationId := PyStr(correlationId)]
      [PropReplicationTimestamp := PyStr(timestamp)]
  }

  // ---------------------------------------------------------------------------
  // Assembly
  // ---------------------------------------------------------------------------

  /** The `ttl_seconds` argument as Python may receive it. */
  datatype TtlArg =
    | NoTtl
    | IntTtl(seconds: int)
    | FloatTtl(x: real)
    | BoolTtl(flag: bool)
    | NonNumericTtl

  /** Python's `int()` of a float: truncation toward zero. */
  function TruncateTowardZero(x: real): (i: int)
    ensures x >= 0.0 ==> i as real <= x < i as real + 1.0
    ensures x < 0.0 ==> i as real - 1.0 < x <= i as real
  {
    if x >= 0.0 then x.Floor else -((-x).Floor)
  }

  /**
   * The guarded time-to-live: set only for a non-`None` numeric argument (a `bool` is an
   * `int` in Python), as `timedelta(seconds=int(ttl_seconds))`.
   */
  function TimeToLive(ttl: TtlArg): (r: Option<int>)
    ensures r.None? <==> ttl.NoTtl? || ttl.NonNumericTtl?
    ensures ttl.IntTtl? ==> r == Some(ttl.seconds)
    ensures ttl.FloatTtl? ==> r == Some(TruncateTowardZero(ttl.x))
    ensures ttl.BoolTtl? ==> r == Some(if ttl.flag then 1 else 0)
  {
    match ttl
    case NoTtl => None
    case IntTtl(s) => Some(s)
    case FloatTtl(x) => Some(TruncateTowardZero(x))
    case BoolTtl(b) => Some(if b then 1 else 0)
    case NonNumericTtl => None
  }

  /** The replica handed to the destination sender. */
  datatype OutboundMessage = OutboundMessage(
    body: seq<byte>,
    applicationProperties: map<string, PyValue>,
    contentType: string,
    correlationId: string,
    subject: Option<string>,
    sessionId: Option<string>,
    to: Option<string>,
    replyTo: Option<string>,
    replyToSessionId: Option<string>,
    partitionKey: Option<string>,
    scheduledEnqueueTimeUtc: Option<string>,
    messageId: string,
    timeToLive: Option<int>
  )

  /** `create_replicated_message`, with `str(utcnow())` for the timestamp property passed in. */
  function CreateReplicatedMessage(source: SourceMessage, correlationId: string, ttl: TtlArg, timestamp: string)
    : (r: OutboundMessage)
    ensures r.body == ProcessMessageBody(source.body, source.contentType).bytes
    ensures r.contentType == ProcessMessageBody(source.body, source.contentType).contentType
    ensures r.applicationProperties == CreateEnhancedProperties(source, correlationId, timestamp)
    ensures r.messageId == GenerateReplicatedMessageId(correlationId, source.messageId)
    ensures r.correlationId == correlationId
    ensures r.subject == source.subject && r.sessionId == source.sessionId && r.to == source.to
    ensures r.replyTo == source.replyTo && r.replyToSessionId == source.replyToSessionId
    ensures r.partitionKey == source.partitionKey
    ensures r.scheduledEnqueueTimeUtc == source.scheduledEnqueueTimeUtc
    ensures r.timeToLive == TimeToLive(ttl)
  {
    var processed := ProcessMessageBody(source.body, source.contentType);
    OutboundMessage(
      processed.bytes,
      CreateEnhancedProperties(source, correlationId, timestamp),
      processed.contentType,
      correlationId,
      source.subject,
      source.sessionId,
      source.to,
      source.replyTo,
      source.replyToSessionId,
      source.partitionKey,
      source.scheduledEnqueueTimeUtc,
      GenerateReplicatedMessageId(correlationId, source.messageId),
      TimeToLive(ttl))
  }

  /** A replica never carries the exact message id of its source. */
  lemma ReplicaNeverReusesSourceId(source: SourceMessage, correlationId: string, ttl: TtlArg, timestamp: string)
    requires source.messageId.Some?
    ensures CreateReplicatedMessage(source, correlationId, ttl, timestamp).messageId != source.messageId.value
  {
    ReplicatedIdDiffersFromOriginal(correlationId, source.messageId);
  }

  /** The replica as a consumer of the destination receives it. */
  function Delivered(r: OutboundMessage, enqueuedTimeUtc: string): SourceMessage {
    SourceMessage(
      BytesBody(r.body), Some(r.contentType), Some(r.messageId), Some(r.correlationId),
      r.subject, r.sessionId, r.to, r.replyTo, r.replyToSessionId, r.partitionKey,
      r.scheduledEnqueueTimeUtc, Some(enqueuedTimeUtc), Some(r.applicationProperties))
  }

  /**
   * End-to-end tracing across hops: relaying a replica again (in whichever direction, at
   * whatever time) keeps the correlation id chosen on the first hop, and keeps the body
   * bytes and content type unchanged.
   */
  lemma CorrelationSurvivesSecondHop(
    source: SourceMessage, t1: string, ttl: TtlArg, stamp1: string, enqueued: string, t2: string, stamp2: string)
    ensures var cid := GenerateCorrelationId(source, t1);
            var first := CreateReplicatedMessage(source, cid, ttl, stamp1);
            var again := Delivered(first, enqueued);
            var second := CreateReplicatedMessage(again, GenerateCorrelationId(again, t2), ttl, stamp2);
            && GenerateCorrelationId(again, t2) == cid
            && second.correlationId == cid
            && second.body == first.body
            && second.contentType == first.contentType
  {
  }

  /** Re-relaying a replica overwrites the metadata with values describing the latest hop. */
  lemma SecondHopRecordsPreviousReplicaId(source: SourceMessage, cid: string, ttl: TtlArg, s1: string, e: string, cid2: string, s2: string)
    ensures var first := CreateReplicatedMessage(source, cid, ttl, s1);
            var second := CreateReplicatedMessage(Delivered(first, e), cid2, ttl, s2);
            second.applicationProperties[PropOriginalMessageId] == PyStr(first.messageId)
  {
  }
}
