/**
 * The stand-alone A-to-B replicator: settings validation, the loop-prevention filter, the
 * replica it builds, one batch sent with a bounded retry loop, and the receive loop that
 * accumulates statistics and completes source messages.
 *
 * Receiving and sending are abstract: the receiver is the sequence of batches it would hand
 * out, and `script(b)(j)` is what the `j`-th send attempt (from 0) of batch `b` does.
 * Waiting is recorded as the sequence of requested waits in seconds.
 */
module BatchReplicator {
  import opened Base
  import opened Text
  import opened Errors
  import opened Messages

  // ---------------------------------------------------------------------------
  // Settings
  // ---------------------------------------------------------------------------

  /** The values `load_configuration` reads from the environment. */
  datatype ReplicatorSettings = ReplicatorSettings(
    serviceBusAConn: Option<string>,
    serviceBusBConn: Option<string>,
    useTopics: bool,
    queueAName: Option<string>,
    queueBName: Option<string>,
    topicAName: Option<string>,
    topicBName: Option<string>,
    subscriptionAName: Option<string>,
    subscriptionBName: Option<string>,
    batchSize: int,
    maxRetries: int,
    replicationTimeout: int,
    ttlRtoMinutes: int,
    skipReplicated: bool,
    addMetadata: bool)

  const MissingTopicMessage: string := "Missing topic/subscription configuration"
  const MissingQueueMessage: string := "Missing queue configuration"
  const MissingVariablesPrefix: string := "Missing required environment variables: "

  /** The source and destination names the chosen mode needs are all set. */
  predicate EndpointsNamed(s: ReplicatorSettings) {
    if s.useTopics then
      Present(s.topicAName) && Present(s.topicBName) && Present(s.subscriptionAName) && Present(s.subscriptionBName)
    else
      Present(s.queueAName) && Present(s.queueBName)
  }

  /** The connection-string variables that are unset or empty, in the order they are checked. */
  function MissingConnections(s: ReplicatorSettings): (names: seq<string>)
    ensures names == [] <==> Present(s.serviceBusAConn) && Present(s.serviceBusBConn)
  {
    (if Present(s.serviceBusAConn) then [] else ["SERVICEBUS_A_CONN_STR"])
    + (if Present(s.serviceBusBConn) then [] else ["SERVICEBUS_B_CONN_STR"])
  }

  /** Python's `repr` of a list of strings: `['A', 'B']`. */
  function ListRepr(names: seq<string>): string {
    "[" + Join(seq(|names|, i requires 0 <= i < |names| => "'" + names[i] + "'"), ", ") + "]"
  }

  /**
   * `validate_configuration`: the mode's names are checked first, then the two connection
   * strings; each failure is a `ValueError`.
   */
  function ValidateConfiguration(s: ReplicatorSettings): (r: Result<ReplicatorSettings, Exc>)
    ensures r.Ok? <==> EndpointsNamed(s) && Present(s.serviceBusAConn) && Present(s.serviceBusBConn)
    ensures r.Ok? ==> r.value == s
    ensures r.Err? ==> r.error.kind == ValueError && WellFormed(r.error)
    ensures !EndpointsNamed(s) && s.useTopics ==> r == Err(Raise(ValueError, MissingTopicMessage))
    ensures !EndpointsNamed(s) && !s.useTopics ==> r == Err(Raise(ValueError, MissingQueueMessage))
    ensures EndpointsNamed(s) && r.Err? ==>
      r.error.message == MissingVariablesPrefix + ListRepr(MissingConnections(s))
  {
    if !EndpointsNamed(s) then
      Err(Raise(ValueError, if s.useTopics then MissingTopicMessage else MissingQueueMessage))
    else if MissingConnections(s) != [] then
      Err(Raise(ValueError, MissingVariablesPrefix + ListRepr(MissingConnections(s))))
    else Ok(s)
  }

  // ---------------------------------------------------------------------------
  // Loop prevention and the replica
  // ---------------------------------------------------------------------------

  const ReplicatedFlag: string := "replicated_from_a_to_b"

  /** The keys the replicator adds to a replica's application properties. */
  const MetadataKeys: set<string> :=
    {ReplicatedFlag, "replication_timestamp", "original_message_id", "original_enqueued_time",
     "tier1_replication", "rto_minutes"}

  /** `should_replicate_message`: with skipping on, a message already flagged as replicated is left alone. */
  predicate ShouldReplicate(s: ReplicatorSettings, m: SourceMessage) {
    !s.skipReplicated || !Truthy(Get(PropertiesOf(m), ReplicatedFlag))
  }

  /** The message the replicator hands to the sender. */
  datatype BatchReplica = BatchReplica(
    body: Body,
    applicationProperties: map<string, PyValue>,
    timeToLiveSeconds: int,
    contentType: Option<string>,
    correlationId: Option<string>,
    subject: Option<string>,
    replyTo: Option<string>,
    to: Option<string>)

  /** An attribute copied only when it is truthy; otherwise the new message keeps its default `None`. */
  function CopyIfPresent(v: Option<string>): (r: Option<string>)
    ensures Present(v) ==> r == v
    ensures !Present(v) ==> r.None?
  {
    if Present(v) then v else None
  }

  /** The replication metadata of `m`; `utcNowIso` stands for the clock readings. */
  function Metadata(s: ReplicatorSettings, m: SourceMessage, utcNowIso: string): (md: map<string, PyValue>)
    ensures md.Keys == MetadataKeys
    ensures md[ReplicatedFlag] == PyBool(true)
    ensures md["rto_minutes"] == PyInt(s.ttlRtoMinutes)
    ensures md["tier1_replication"] == PyBool(true)
    ensures md["replication_timestamp"] == PyStr(utcNowIso)
    ensures md["original_message_id"] == OptionalStr(m.messageId)
    ensures m.enqueuedTimeUtc.Some? ==> md["original_enqueued_time"] == PyStr(m.enqueuedTimeUtc.value)
    ensures m.enqueuedTimeUtc.None? ==> md["original_enqueued_time"] == PyStr(utcNowIso)
  {
    map[ReplicatedFlag := PyBool(true),
        "replication_timestamp" := PyStr(utcNowIso),
        "original_message_id" := (if m.messageId.Some? then PyStr(m.messageId.value) else PyNone),
        "original_enqueued_time" := PyStr(if m.enqueuedTimeUtc.Some? then m.enqueuedTimeUtc.value else utcNowIso),
        "tier1_replication" := PyBool(true),
        "rto_minutes" := PyInt(s.ttlRtoMinutes)]
  }

  /**
   * `create_replicated_message`: the same body, the source properties with the metadata merged
   * over them when enabled, a time-to-live of `ttl_rto_minutes * 60` seconds, and the five
   * header attributes copied only when truthy.
   */
  function CreateBatchReplica(s: ReplicatorSettings, m: SourceMessage, utcNowIso: string): (r: BatchReplica)
    ensures r.body == m.body
    ensures r.timeToLiveSeconds == s.ttlRtoMinutes * 60
    ensures !s.addMetadata ==> r.applicationProperties == PropertiesOf(m)
    ensures s.addMetadata ==> r.applicationProperties.Keys == PropertiesOf(m).Keys + MetadataKeys
    ensures s.addMetadata ==> r.applicationProperties[ReplicatedFlag] == PyBool(true)
    ensures forall k :: k in PropertiesOf(m) && k !in MetadataKeys ==>
      k in r.applicationProperties && r.applicationProperties[k] == PropertiesOf(m)[k]
    ensures Present(m.contentType) ==> r.contentType == m.contentType
    ensures !Present(m.contentType) ==> r.contentType.None?
    ensures Present(m.correlationId) ==> r.correlationId == m.correlationId
    ensures !Present(m.correlationId) ==> r.correlationId.None?
    ensures Present(m.subject) ==> r.subject == m.subject
    ensures !Present(m.subject) ==> r.subject.None?
    ensures Present(m.replyTo) ==> r.replyTo == m.replyTo
    ensures !Present(m.replyTo) ==> r.replyTo.None?
    ensures Present(m.to) ==> r.to == m.to
    ensures !Present(m.to) ==> r.to.None?
    ensures s.addMetadata ==> forall k :: k in MetadataKeys ==>
      r.applicationProperties[k] == Metadata(s, m, utcNowIso)[k]
  {
    var props := PropertiesOf(m);
    var merged := if s.addMetadata then props + Metadata(s, m, utcNowIso) else props;
    BatchReplica(m.body, merged, s.ttlRtoMinutes * 60,
                 CopyIfPresent(m.contentType), CopyIfPresent(m.correlationId), CopyIfPresent(m.subject),
                 CopyIfPresent(m.replyTo), CopyIfPresent(m.to))
  }

  /** The replica as a receiver on the destination side reads it back. */
  function AsReceived(r: BatchReplica, messageId: Option<string>, enqueuedTimeUtc: Option<string>): SourceMessage {
    SourceMessage(r.body, r.contentType, messageId, r.correlationId, r.subject, None, r.to, r.replyTo,
                  None, None, None, enqueuedTimeUtc, Some(r.applicationProperties))
  }

  /**
   * Loop prevention: with metadata and skipping both on, a replica fed back to the replicator
   * is never replicated again.
   */
  lemma ReplicaIsNotReplicatedAgain(s: ReplicatorSettings, m: SourceMessage, utcNowIso: string,
                                    messageId: Option<string>, enqueuedTimeUtc: Option<string>)
    requires s.addMetadata && s.skipReplicated
    ensures !ShouldReplicate(s, AsReceived(CreateBatchReplica(s, m, utcNowIso), messageId, enqueuedTimeUtc))
  {
  }

  /** With skipping off every message is replicated; with it on, exactly the unflagged ones. */
  lemma ShouldReplicateCases(s: ReplicatorSettings, m: SourceMessage)
    ensures !s.skipReplicated ==> ShouldReplicate(s, m)
    ensures s.skipReplicated ==> (ShouldReplicate(s, m) <==>
      !(m.applicationProperties.Some? && ReplicatedFlag in m.applicationProperties.value
        && Truthy(m.applicationProperties.value[ReplicatedFlag])))
  {
  }

  // ---------------------------------------------------------------------------
  // One batch
  // ---------------------------------------------------------------------------

  /** The messages of a batch to be replicated, in order. */
  function ToReplicate(s: ReplicatorSettings, messages: seq<SourceMessage>): (r: seq<SourceMessage>)
    ensures |r| <= |messages|
  {
    if messages == [] then []
    else (if ShouldReplicate(s, messages[0]) then [messages[0]] else []) + ToReplicate(s, messages[1..])
  }

  /** Exactly the messages that should be replicated are sent. */
  lemma {:induction false} ToReplicateMembership(s: ReplicatorSettings, messages: seq<SourceMessage>)
    ensures forall m :: m in ToReplicate(s, messages) <==> m in messages && ShouldReplicate(s, m)
  {
    if messages != [] {
      ToReplicateMembership(s, messages[1..]);
      assert messages == [messages[0]] + messages[1..];
    }
  }

  /** The messages of a batch that are skipped, in order. */
  function SkippedOf(s: ReplicatorSettings, messages: seq<SourceMessage>): (r: seq<SourceMessage>)
    ensures |r| == |messages| - |ToReplicate(s, messages)|
  {
    if messages == [] then []
    else (if ShouldReplicate(s, messages[0]) then [] else [messages[0]]) + SkippedOf(s, messages[1..])
  }

  /** Exactly the messages that should not be replicated are skipped. */
  lemma {:induction false} SkippedMembership(s: ReplicatorSettings, messages: seq<SourceMessage>)
    ensures forall m :: m in SkippedOf(s, messages) <==> m in messages && !ShouldReplicate(s, m)
  {
    if messages != [] {
      SkippedMembership(s, messages[1..]);
      assert messages == [messages[0]] + messages[1..];
    }
  }

  /** Per-batch statistics, the dictionary with keys processed, replicated, skipped and failed. */
  datatype Stats = Stats(processed: int, replicated: int, skipped: int, failed: int)

  const NoStats: Stats := Stats(0, 0, 0, 0)

  /** Key-wise addition of two statistics dictionaries. */
  function AddStats(a: Stats, b: Stats): (r: Stats)
    ensures r.processed == a.processed + b.processed && r.replicated == a.replicated + b.replicated
    ensures r.skipped == a.skipped + b.skipped && r.failed == a.failed + b.failed
  {
    Stats(a.processed + b.processed, a.replicated + b.replicated, a.skipped + b.skipped, a.failed + b.failed)
  }

  /** Every message is counted exactly once. */
  predicate Balanced(st: Stats) {
    st.processed == st.replicated + st.skipped + st.failed
  }

  /** What one send attempt does. */
  datatype SendResult = SendOk | SendServiceBusError(error: Exc) | SendOtherError(error: Exc)

  /** A batch either yields its statistics or lets a non-Service-Bus error escape. */
  datatype BatchOutcome = BatchStats(stats: Stats) | BatchRaised(error: Exc)

  /** The first attempt at or after `k` that does not fail with a Service Bus error, or `maxRetries`. */
  function FirstSettled(k: nat, maxRetries: nat, script: nat -> SendResult): (f: nat)
    requires k <= maxRetries
    ensures k <= f <= maxRetries
    ensures forall j :: k <= j < f ==> script(j).SendServiceBusError?
    ensures f < maxRetries ==> !script(f).SendServiceBusError?
    decreases maxRetries - k
  {
    if k == maxRetries || !script(k).SendServiceBusError? then k else FirstSettled(k + 1, maxRetries, script)
  }

  /** How many send attempts a non-empty batch makes. */
  function SendAttempts(maxRetries: int, script: nat -> SendResult): (n: nat)
    ensures maxRetries <= 0 ==> n == 0
    ensures maxRetries > 0 ==> 1 <= n <= maxRetries
    ensures forall j :: 0 <= j < n - 1 ==> script(j).SendServiceBusError?
    ensures 0 < n < maxRetries ==> !script(n - 1).SendServiceBusError?
  {
    if maxRetries <= 0 then 0
    else
      var f := FirstSettled(0, maxRetries, script);
      if f < maxRetries then f + 1 else maxRetries
  }

  /** What `replicate_messages_batch` returns or raises. */
  function BatchResult(s: ReplicatorSettings, messages: seq<SourceMessage>, script: nat -> SendResult): BatchOutcome {
    var n := |messages|;
    var f := |ToReplicate(s, messages)|;
    if n == 0 then BatchStats(NoStats)
    else if f == 0 then BatchStats(Stats(n, 0, n, 0))
    else if s.maxRetries <= 0 then BatchStats(Stats(n, 0, n - f, f))
    else
      match script(SendAttempts(s.maxRetries, script) - 1)
      case SendOk => BatchStats(Stats(n, f, n - f, 0))
      case SendOtherError(e) => BatchRaised(e)
      case SendServiceBusError(_) => BatchStats(Stats(n, 0, n - f, f))
  }

  /** How many send attempts `replicate_messages_batch` makes: none when nothing is to be replicated. */
  function BatchAttempts(s: ReplicatorSettings, messages: seq<SourceMessage>, script: nat -> SendResult): nat {
    if ToReplicate(s, messages) == [] then 0 else SendAttempts(s.maxRetries, script)
  }

  /** The waits after the first `n` failed attempts: 2, 4, …, `2^n` seconds. */
  function Waits(n: nat): (r: seq<nat>)
    ensures |r| == n
    ensures forall k :: 1 <= k <= n ==> r[k - 1] == Pow2(k)
  {
    if n == 0 then [] else Waits(n - 1) + [Pow2(n)]
  }

  /** The seconds spent in a sequence of waits. */
  function TotalWait(ws: seq<nat>): nat {
    if ws == [] then 0 else TotalWait(ws[..|ws| - 1]) + ws[|ws| - 1]
  }

  /** Exponential backoff: after `n` failed attempts the batch has waited `2^(n+1) - 2` seconds in all. */
  lemma {:induction false} WaitsTotal(n: nat)
    ensures TotalWait(Waits(n)) + 2 == Pow2(n + 1)
  {
    if n > 0 {
      WaitsTotal(n - 1);
      assert Waits(n)[..n - 1] == Waits(n - 1);
    }
  }

  /** The replicas of the messages to replicate, one per message, in order. */
  function Replicas(s: ReplicatorSettings, toSend: seq<SourceMessage>, utcNowIso: string): (r: seq<BatchReplica>)
    ensures |r| == |toSend|
    ensures forall i :: 0 <= i < |toSend| ==> r[i] == CreateBatchReplica(s, toSend[i], utcNowIso)
  {
    seq(|toSend|, i requires 0 <= i < |toSend| => CreateBatchReplica(s, toSend[i], utcNowIso))
  }

  /**
   * `replicate_messages_batch`: filter, build the replicas, and try to send them up to
   * `max_retries` times, waiting `2^attempt` seconds after each failed attempt but the last.
   * `replicas` is the batch handed to the sender (empty when nothing is sent).
   */
  method ReplicateMessagesBatch(s: ReplicatorSettings, messages: seq<SourceMessage>, utcNowIso: string,
                                script: nat -> SendResult)
    returns (outcome: BatchOutcome, replicas: seq<BatchReplica>, attempts: nat, waits: seq<nat>)
    ensures outcome == BatchResult(s, messages, script)
    ensures attempts == BatchAttempts(s, messages, script)
    ensures attempts == 0 ==> waits == []
    ensures attempts > 0 ==> waits == Waits(attempts - 1)
    ensures replicas == Replicas(s, ToReplicate(s, messages), utcNowIso)
  {
    var toSend := ToReplicate(s, messages);
    replicas := Replicas(s, toSend, utcNowIso);
    attempts, waits := 0, [];
    if |messages| == 0 {
      return BatchStats(NoStats), replicas, attempts, waits;
    }
    var skippedCount := |messages| - |toSend|;
    if toSend == [] {
      return BatchStats(Stats(|messages|, 0, skippedCount, 0)), replicas, attempts, waits;
    }
    var attempt := 1;
    while attempt <= s.maxRetries
      invariant attempt == attempts + 1 && (attempts == 0 || attempts < s.maxRetries)
      invariant forall j :: 0 <= j < attempts ==> script(j).SendServiceBusError?
      invariant waits == Waits(attempts)
      decreases s.maxRetries - attempt
    {
      var result := script(attempt - 1);
      attempts := attempts + 1;
      match result {
        case SendOk =>
          SettledAt(s.maxRetries, script, attempt - 1);
          return BatchStats(Stats(|messages|, |toSend|, skippedCount, 0)), replicas, attempts, waits;
        case SendOtherError(e) =>
          SettledAt(s.maxRetries, script, attempt - 1);
          return BatchRaised(e), replicas, attempts, waits;
        case SendServiceBusError(_) =>
          if attempt == s.maxRetries {
            EveryAttemptFailed(s.maxRetries, script);
            return BatchStats(Stats(|messages|, 0, skippedCount, |toSend|)), replicas, attempts, waits;
          }
          waits := waits + [Pow2(attempt)];
          attempt := attempt + 1;
      }
    }
    outcome := BatchStats(Stats(|messages|, 0, skippedCount, |toSend|));
  }

  /** Attempts `0..k-1` failing with Service Bus errors and attempt `k` settling: `k + 1` attempts. */
  lemma SettledAt(maxRetries: int, script: nat -> SendResult, k: nat)
    requires k < maxRetries
    requires forall j :: 0 <= j < k ==> script(j).SendServiceBusError?
    requires !script(k).SendServiceBusError?
    ensures SendAttempts(maxRetries, script) == k + 1
  {
  }

  /** When every attempt fails with a Service Bus error, all `maxRetries` attempts are made. */
  lemma EveryAttemptFailed(maxRetries: int, script: nat -> SendResult)
    requires maxRetries >= 1
    requires forall j :: 0 <= j < maxRetries ==> script(j).SendServiceBusError?
    ensures SendAttempts(maxRetries, script) == maxRetries
  {
  }

  /**
   * The counting invariant of a batch: `processed` is the batch size, every message is
   * counted once, and `skipped` is the number of messages not to replicate.
   */
  lemma BatchStatsAccount(s: ReplicatorSettings, messages: seq<SourceMessage>, script: nat -> SendResult)
    ensures var o := BatchResult(s, messages, script);
      o.BatchStats? ==>
        && o.stats.processed == |messages|
        && Balanced(o.stats)
        && o.stats.skipped == |SkippedOf(s, messages)|
  {
  }

  /**
   * All or nothing: either every message to replicate is counted as replicated and none as
   * failed, or the reverse; the first happens exactly when some attempt succeeded.
   */
  lemma BatchAllOrNothing(s: ReplicatorSettings, messages: seq<SourceMessage>, script: nat -> SendResult)
    ensures var o := BatchResult(s, messages, script);
      var f := |ToReplicate(s, messages)|;
      o.BatchStats? ==>
        && ((o.stats.replicated == f && o.stats.failed == 0) || (o.stats.replicated == 0 && o.stats.failed == f))
        && (o.stats.replicated > 0 <==> f > 0 && s.maxRetries > 0
                                        && script(SendAttempts(s.maxRetries, script) - 1).SendOk?)
  {
  }

  /** At most `max_retries` attempts, and one wait fewer than attempts. */
  lemma AttemptsBounded(s: ReplicatorSettings, messages: seq<SourceMessage>, script: nat -> SendResult)
    ensures BatchAttempts(s, messages, script) <= if s.maxRetries < 0 then 0 else s.maxRetries
    ensures |Waits(if BatchAttempts(s, messages, script) == 0 then 0 else BatchAttempts(s, messages, script) - 1)|
            < if s.maxRetries < 1 then 1 else s.maxRetries
  {
  }

  // ---------------------------------------------------------------------------
  // Completion
  // ---------------------------------------------------------------------------

  /**
   * The completion rule as written: everything when something was replicated or skipped,
   * otherwise only the skipped messages.
   */
  function CompletedAsWritten(s: ReplicatorSettings, messages: seq<SourceMessage>, st: Stats): (r: seq<SourceMessage>)
    ensures st.replicated > 0 || st.skipped > 0 ==> r == messages
  {
    if st.replicated > 0 || st.skipped > 0 then messages else SkippedOf(s, messages)
  }

  /**
   * A batch of one flagged and one unflagged message whose sends all fail with a Service Bus
   * error: the rule as written completes the unflagged message although it was never sent,
   * so it is removed from the source without a replica.
   */
  lemma CompletedAsWrittenLosesFailedMessage(flagged: SourceMessage, unflagged: SourceMessage, e: Exc)
    requires flagged.applicationProperties == Some(map[ReplicatedFlag := PyBool(true)])
    requires unflagged.applicationProperties == None
    ensures var s := ReplicatorSettings(Some("a"), Some("b"), false, Some("qa"), Some("qb"), None, None, None, None,
                                        10, 3, 300, 60, true, true);
      var script := (j: nat) => SendServiceBusError(e);
      var o := BatchResult(s, [flagged, unflagged], script);
      && o == BatchStats(Stats(2, 0, 1, 1))
      && ShouldReplicate(s, unflagged)
      && unflagged in CompletedAsWritten(s, [flagged, unflagged], o.stats)
  {
    var s := ReplicatorSettings(Some("a"), Some("b"), false, Some("qa"), Some("qb"), None, None, None, None,
                                10, 3, 300, 60, true, true);
    var script := (j: nat) => SendServiceBusError(e);
    assert ToReplicate(s, [flagged, unflagged]) == [unflagged] by {
      assert [flagged, unflagged][1..] == [unflagged];
    }
    EveryAttemptFailed(3, script);
  }

  /**
   * The rule as written, on a batch's own statistics: the whole batch when something was
   * replicated or skipped, and nothing at all otherwise.
   */
  lemma CompletedAsWrittenCases(s: ReplicatorSettings, messages: seq<SourceMessage>, script: nat -> SendResult)
    requires BatchResult(s, messages, script).BatchStats?
    ensures var st := BatchResult(s, messages, script).stats;
      st.replicated > 0 || st.skipped > 0 ==> CompletedAsWritten(s, messages, st) == messages
    ensures var st := BatchResult(s, messages, script).stats;
      st.replicated <= 0 && st.skipped <= 0 ==> CompletedAsWritten(s, messages, st) == []
  {
    BatchStatsAccount(s, messages, script);
  }

  /** The intended completion rule: everything once the batch was replicated, otherwise only the skipped messages. */
  function MessagesToComplete(s: ReplicatorSettings, messages: seq<SourceMessage>, st: Stats): (r: seq<SourceMessage>)
    ensures st.replicated > 0 ==> r == messages
    ensures st.replicated <= 0 ==> r == SkippedOf(s, messages)
  {
    if st.replicated > 0 then messages else SkippedOf(s, messages)
  }

  /**
   * No message is lost: a message that was to be replicated is completed only when its batch
   * was delivered, and every skipped message is completed.
   */
  lemma CompletionKeepsUndelivered(s: ReplicatorSettings, messages: seq<SourceMessage>, script: nat -> SendResult)
    requires BatchResult(s, messages, script).BatchStats?
    ensures var st := BatchResult(s, messages, script).stats;
      forall m :: m in MessagesToComplete(s, messages, st) ==>
        !ShouldReplicate(s, m) || (st.replicated == |ToReplicate(s, messages)| && st.failed == 0)
    ensures var st := BatchResult(s, messages, script).stats;
      forall m :: m in messages && !ShouldReplicate(s, m) ==> m in MessagesToComplete(s, messages, st)
  {
    SkippedMembership(s, messages);
  }

  /** Which completion rule a receive loop applies: the code's own, or the one its comments describe. */
  datatype CompletionRule = AsWritten | Intended

  /** The messages of one batch that a receive loop completes under `rule`. */
  function Completed(rule: CompletionRule, s: ReplicatorSettings, messages: seq<SourceMessage>, st: Stats)
    : (r: seq<SourceMessage>)
    ensures rule == AsWritten ==> r == CompletedAsWritten(s, messages, st)
    ensures rule == Intended ==> r == MessagesToComplete(s, messages, st)
  {
    match rule
    case AsWritten => CompletedAsWritten(s, messages, st)
    case Intended => MessagesToComplete(s, messages, st)
  }

  /** The intended rule completes nothing that the rule as written would leave on the source. */
  lemma IntendedCompletesNoMore(s: ReplicatorSettings, messages: seq<SourceMessage>, script: nat -> SendResult)
    requires BatchResult(s, messages, script).BatchStats?
    ensures var st := BatchResult(s, messages, script).stats;
      forall m :: m in MessagesToComplete(s, messages, st) ==> m in CompletedAsWritten(s, messages, st)
  {
    BatchStatsAccount(s, messages, script);
    SkippedMembership(s, messages);
  }

  // ---------------------------------------------------------------------------
  // The receive loop
  // ---------------------------------------------------------------------------

  /** The running totals, updated in place after every batch. */
  class StatsTotals {
    var processed: int
    var replicated: int
    var skipped: int
    var failed: int

    function Value(): Stats
      reads this
    {
      Stats(processed, replicated, skipped, failed)
    }

    constructor ()
      ensures Value() == NoStats
    {
      processed, replicated, skipped, failed := 0, 0, 0, 0;
    }

    /** `for key in total_stats: total_stats[key] += batch_stats[key]` */
    method Add(batch: Stats)
      modifies this
      ensures Value() == AddStats(old(Value()), batch)
    {
      processed := processed + batch.processed;
      replicated := replicated + batch.replicated;
      skipped := skipped + batch.skipped;
      failed := failed + batch.failed;
    }
  }

  /** What the receive loop leaves behind: the statistics it added, the completed messages, what escaped. */
  datatype ReceiverRun = ReceiverRun(totals: Stats, completed: seq<SourceMessage>, raised: Option<Exc>)

  /**
   * The receive loop from batch `i` on: it stops at the first empty batch (or when the
   * receiver has nothing more) and when a batch raises.
   */
  function RunFrom(rule: CompletionRule, s: ReplicatorSettings, batches: seq<seq<SourceMessage>>,
                   script: nat -> nat -> SendResult, i: nat): ReceiverRun
    decreases |batches| - i
  {
    if i >= |batches| || batches[i] == [] then ReceiverRun(NoStats, [], None)
    else
      match BatchResult(s, batches[i], script(i))
      case BatchRaised(e) => ReceiverRun(NoStats, [], Some(e))
      case BatchStats(st) =>
        var rest := RunFrom(rule, s, batches, script, i + 1);
        ReceiverRun(AddStats(st, rest.totals), Completed(rule, s, batches[i], st) + rest.completed, rest.raised)
  }

  /**
   * `_process_messages_from_receiver`: replicate batch after batch, add each batch's statistics
   * to the totals, and complete the messages the completion rule selects. With `AsWritten` this
   * is the loop as the code has it; with `Intended` it completes what its comments describe.
   */
  method ProcessMessagesFromReceiver(rule: CompletionRule, s: ReplicatorSettings, batches: seq<seq<SourceMessage>>,
                                     utcNowIso: string, script: nat -> nat -> SendResult, totals: StatsTotals)
    returns (completed: seq<SourceMessage>, raised: Option<Exc>)
    modifies totals
    ensures totals.Value() == AddStats(old(totals.Value()), RunFrom(rule, s, batches, script, 0).totals)
    ensures completed == RunFrom(rule, s, batches, script, 0).completed
    ensures raised == RunFrom(rule, s, batches, script, 0).raised
  {
    completed, raised := [], None;
    var i := 0;
    ghost var start := totals.Value();
    while i < |batches| && batches[i] != []
      invariant Progress(rule, s, batches, script, i, start, totals.Value(), completed)
      decreases |batches| - i
    {
      var outcome, replicas, attempts, waits := ReplicateMessagesBatch(s, batches[i], utcNowIso, script(i));
      match outcome {
        case BatchRaised(e) =>
          ProgressRaised(rule, s, batches, script, i, start, totals.Value(), completed);
          return completed, Some(e);
        case BatchStats(st) =>
          ProgressStep(rule, s, batches, script, i, start, totals.Value(), completed);
          totals.Add(st);
          completed := completed + Completed(rule, s, batches[i], st);
          i := i + 1;
      }
    }
    ProgressEnd(rule, s, batches, script, i, start, totals.Value(), completed);
  }

  /**
   * The receive loop has reached batch `i` with `current` totals and `completed` messages:
   * what is left to do, `RunFrom(i)`, completes the whole run.
   */
  ghost predicate Progress(rule: CompletionRule, s: ReplicatorSettings, batches: seq<seq<SourceMessage>>,
                           script: nat -> nat -> SendResult, i: nat, start: Stats, current: Stats, completed: seq<SourceMessage>)
  {
    var here := RunFrom(rule, s, batches, script, i);
    var whole := RunFrom(rule, s, batches, script, 0);
    && i <= |batches|
    && AddStats(current, here.totals) == AddStats(start, whole.totals)
    && completed + here.completed == whole.completed
    && here.raised == whole.raised
  }

  lemma ProgressStep(rule: CompletionRule, s: ReplicatorSettings, batches: seq<seq<SourceMessage>>,
                     script: nat -> nat -> SendResult, i: nat, start: Stats, current: Stats, completed: seq<SourceMessage>)
    requires Progress(rule, s, batches, script, i, start, current, completed)
    requires i < |batches| && batches[i] != [] && BatchResult(s, batches[i], script(i)).BatchStats?
    ensures var st := BatchResult(s, batches[i], script(i)).stats;
      Progress(rule, s, batches, script, i + 1, start, AddStats(current, st),
               completed + Completed(rule, s, batches[i], st))
  {
    var st := BatchResult(s, batches[i], script(i)).stats;
    var done := Completed(rule, s, batches[i], st);
    var here, rest := RunFrom(rule, s, batches, script, i), RunFrom(rule, s, batches, script, i + 1);
    RunFromStep(rule, s, batches, script, i);
    var whole := RunFrom(rule, s, batches, script, 0);
    ShiftOneBatch(start, current, completed, st, done, rest.totals, rest.completed, whole.totals, whole.completed);
  }

  /** Moving one batch's statistics and completions from what is left to what is done keeps the sums. */
  lemma ShiftOneBatch(start: Stats, current: Stats, completed: seq<SourceMessage>, st: Stats, done: seq<SourceMessage>,
                      restTotals: Stats, restCompleted: seq<SourceMessage>, wholeTotals: Stats,
                      wholeCompleted: seq<SourceMessage>)
    requires AddStats(current, AddStats(st, restTotals)) == AddStats(start, wholeTotals)
    requires completed + (done + restCompleted) == wholeCompleted
    ensures AddStats(AddStats(current, st), restTotals) == AddStats(start, wholeTotals)
    ensures (completed + done) + restCompleted == wholeCompleted
  {
    AddStatsAssociative(current, st, restTotals);
    assert (completed + done) + restCompleted == completed + (done + restCompleted);
  }

  /** One batch that returns statistics, followed by the rest of the loop. */
  lemma RunFromStep(rule: CompletionRule, s: ReplicatorSettings, batches: seq<seq<SourceMessage>>,
                    script: nat -> nat -> SendResult, i: nat)
    requires i < |batches| && batches[i] != [] && BatchResult(s, batches[i], script(i)).BatchStats?
    ensures var st := BatchResult(s, batches[i], script(i)).stats;
      var rest := RunFrom(rule, s, batches, script, i + 1);
      RunFrom(rule, s, batches, script, i)
        == ReceiverRun(AddStats(st, rest.totals), Completed(rule, s, batches[i], st) + rest.completed, rest.raised)
  {
  }

  lemma AddStatsAssociative(a: Stats, b: Stats, c: Stats)
    ensures AddStats(AddStats(a, b), c) == AddStats(a, AddStats(b, c))
  {
  }

  lemma ProgressRaised(rule: CompletionRule, s: ReplicatorSettings, batches: seq<seq<SourceMessage>>,
                       script: nat -> nat -> SendResult, i: nat, start: Stats, current: Stats, completed: seq<SourceMessage>)
    requires Progress(rule, s, batches, script, i, start, current, completed)
    requires i < |batches| && batches[i] != [] && BatchResult(s, batches[i], script(i)).BatchRaised?
    ensures var whole := RunFrom(rule, s, batches, script, 0);
      && current == AddStats(start, whole.totals) && completed == whole.completed
      && whole.raised == Some(BatchResult(s, batches[i], script(i)).error)
  {
    assert RunFrom(rule, s, batches, script, i) == ReceiverRun(NoStats, [], Some(BatchResult(s, batches[i], script(i)).error));
    assert completed + [] == completed;
  }

  lemma ProgressEnd(rule: CompletionRule, s: ReplicatorSettings, batches: seq<seq<SourceMessage>>,
                    script: nat -> nat -> SendResult, i: nat, start: Stats, current: Stats, completed: seq<SourceMessage>)
    requires Progress(rule, s, batches, script, i, start, current, completed)
    requires i == |batches| || batches[i] == []
    ensures var whole := RunFrom(rule, s, batches, script, 0);
      current == AddStats(start, whole.totals) && completed == whole.completed && whole.raised.None?
  {
    assert completed + [] == completed;
  }

  /** The totals of a receive loop count every received message exactly once. */
  lemma {:induction false} RunBalanced(rule: CompletionRule, s: ReplicatorSettings,
                                        batches: seq<seq<SourceMessage>>, script: nat -> nat -> SendResult, i: nat)
    ensures Balanced(RunFrom(rule, s, batches, script, i).totals)
    decreases |batches| - i
  {
    if i < |batches| && batches[i] != [] && BatchResult(s, batches[i], script(i)).BatchStats? {
      BatchStatsAccount(s, batches[i], script(i));
      RunBalanced(rule, s, batches, script, i + 1);
    }
  }

  /** Both rules add up the same totals and let the same error escape; they differ only in what is completed. */
  lemma {:induction false} RulesAgreeOnTotals(s: ReplicatorSettings, batches: seq<seq<SourceMessage>>,
                                               script: nat -> nat -> SendResult, i: nat)
    ensures RunFrom(AsWritten, s, batches, script, i).totals == RunFrom(Intended, s, batches, script, i).totals
    ensures RunFrom(AsWritten, s, batches, script, i).raised == RunFrom(Intended, s, batches, script, i).raised
    decreases |batches| - i
  {
    if i < |batches| && batches[i] != [] && BatchResult(s, batches[i], script(i)).BatchStats? {
      RulesAgreeOnTotals(s, batches, script, i + 1);
    }
  }

  /**
   * The loss, seen through the whole receive loop: a receiver that hands out the mixed batch
   * of `CompletedAsWrittenLosesFailedMessage` and then nothing, with every send failing. The
   * loop as written completes the unsent message; with the intended rule only the flagged
   * message is completed.
   */
  lemma ReceiveLoopLosesFailedMessage(flagged: SourceMessage, unflagged: SourceMessage, e: Exc)
    requires flagged.applicationProperties == Some(map[ReplicatedFlag := PyBool(true)])
    requires unflagged.applicationProperties == None
    ensures var s := ReplicatorSettings(Some("a"), Some("b"), false, Some("qa"), Some("qb"), None, None, None, None,
                                        10, 3, 300, 60, true, true);
      var script := (b: nat) => (j: nat) => SendServiceBusError(e);
      && unflagged in RunFrom(AsWritten, s, [[flagged, unflagged]], script, 0).completed
      && RunFrom(Intended, s, [[flagged, unflagged]], script, 0).completed == [flagged]
      && RunFrom(Intended, s, [[flagged, unflagged]], script, 0).totals == Stats(2, 0, 1, 1)
  {
    var s := ReplicatorSettings(Some("a"), Some("b"), false, Some("qa"), Some("qb"), None, None, None, None,
                                10, 3, 300, 60, true, true);
    var script := (b: nat) => (j: nat) => SendServiceBusError(e);
    var batch := [flagged, unflagged];
    CompletedAsWrittenLosesFailedMessage(flagged, unflagged, e);
    assert script(0) == (j: nat) => SendServiceBusError(e);
    assert BatchResult(s, batch, script(0)) == BatchStats(Stats(2, 0, 1, 1));
    assert SkippedOf(s, batch) == [flagged] by {
      assert batch[1..] == [unflagged];
      assert batch[1..][1..] == [];
    }
    assert RunFrom(Intended, s, [batch], script, 1) == ReceiverRun(NoStats, [], None);
    assert RunFrom(AsWritten, s, [batch], script, 1) == ReceiverRun(NoStats, [], None);
  }
}
