/**
 * Structured error records and the text helpers used before logging: correlation-id
 * truncation and the connection-string and base64-run masking passes of the error
 * sanitiser, written as explicit left-to-right scanners that mirror `re.sub`.
 */
module LoggingUtils {
  import opened Base
  import opened Text
  import opened Constants

  // ---------------------------------------------------------------------------
  // Log records
  // ---------------------------------------------------------------------------

  datatype Level = Debug | Info | Warning | Error

  /** One emitted record: level, message and the `extra` dictionary. */
  datatype LogRecord = LogRecord(level: Level, message: string, extra: map<string, PyValue>)

  /** The text value of an alert severity. */
  function SeverityName(s: Severity): string {
    match s
    case Low => "low"
    case Medium => "medium"
    case High => "high"
    case Critical => "critical"
  }

  /** Different severities are written differently. */
  lemma SeverityNameInjective(a: Severity, b: Severity)
    ensures SeverityName(a) == SeverityName(b) <==> a == b
  {
    if a != b {
      assert SeverityName(a)[0] != SeverityName(b)[0] || |SeverityName(a)| != |SeverityName(b)|;
    }
  }

  /** The keys every replication error record carries. */
  const ErrorContextKeys: set<string> :=
    {"correlation_id", "error_type", "error_message", "direction", "destination_queue", "alert_severity"}

  /** The context of a replication error record before the additional context is merged in. */
  function BaseErrorContext(
    correlationId: string, errorType: string, errorMessage: string, direction: string,
    destinationQueue: string, severity: Severity): (ctx: map<string, PyValue>)
    ensures ctx.Keys == ErrorContextKeys
  {
    map[
      "correlation_id" := PyStr(correlationId),
      "error_type" := PyStr(errorType),
      "error_message" := PyStr(errorMessage),
      "direction" := PyStr(direction),
      "destination_queue" := PyStr(destinationQueue),
      "alert_severity" := PyStr(SeverityName(severity))]
  }

  /** `dict.update`: keys of `extra` win. */
  function Update(base: map<string, PyValue>, extra: map<string, PyValue>): (r: map<string, PyValue>)
    ensures r.Keys == base.Keys + extra.Keys
  {
    map k | k in base.Keys + extra.Keys :: if k in extra then extra[k] else base[k]
  }

  /** After the update a key of `extra` has its value there, and any other key keeps its old value. */
  lemma UpdateValues(base: map<string, PyValue>, extra: map<string, PyValue>)
    ensures forall k :: k in extra ==> Update(base, extra)[k] == extra[k]
    ensures forall k :: k in base && k !in extra ==> Update(base, extra)[k] == base[k]
  {
  }

  /**
   * `log_replication_error`: appends exactly one error-level record whose context holds
   * the given values; a non-empty additional context is merged over it.
   */
  function LogReplicationError(
    log: seq<LogRecord>, correlationId: string, errorType: string, errorMessage: string,
    direction: string, destinationQueue: string, severity: Severity,
    additionalContext: map<string, PyValue>): (r: seq<LogRecord>)
    ensures |r| == |log| + 1 && log <= r
    ensures r[|log|].level == Error
    ensures r[|log|].message == "Service Bus replication error: " + errorType
    ensures r[|log|].extra.Keys == ErrorContextKeys + additionalContext.Keys
  {
    var ctx := BaseErrorContext(correlationId, errorType, errorMessage, direction, destinationQueue, severity);
    var merged := if additionalContext != map[] then Update(ctx, additionalContext) else ctx;
    log + [LogRecord(Error, "Service Bus replication error: " + errorType, merged)]
  }

  /** The record's context holds the additional context, and the given values under every other key. */
  lemma LogReplicationErrorContext(
    log: seq<LogRecord>, correlationId: string, errorType: string, errorMessage: string,
    direction: string, destinationQueue: string, severity: Severity,
    additionalContext: map<string, PyValue>)
    ensures var r := LogReplicationError(log, correlationId, errorType, errorMessage, direction, destinationQueue,
                                         severity, additionalContext);
      && (forall k :: k in additionalContext ==> r[|log|].extra[k] == additionalContext[k])
      && (forall k :: k in ErrorContextKeys && k !in additionalContext ==>
            r[|log|].extra[k]
              == BaseErrorContext(correlationId, errorType, errorMessage, direction, destinationQueue, severity)[k])
  {
    var ctx := BaseErrorContext(correlationId, errorType, errorMessage, direction, destinationQueue, severity);
    if additionalContext != map[] {
      UpdateValues(ctx, additionalContext);
    }
  }

  // ---------------------------------------------------------------------------
  // Correlation-id truncation
  // ---------------------------------------------------------------------------

  const DefaultTruncateLength: int := 8

  /** `s[:n]` with Python's meaning of a negative bound. */
  function SlicePrefix(s: string, n: int): (r: string)
    ensures |r| <= |s| && r == s[..|r|]
    ensures n >= 0 ==> |r| == if n <= |s| then n else |s|
    ensures n < 0 ==> |r| == if |s| + n >= 0 then |s| + n else 0
  {
    if n >= 0 then (if n <= |s| then s[..n] else s)
    else if |s| + n >= 0 then s[..|s| + n] else []
  }

  /** `truncate_correlation_id` */
  function TruncateCorrelationId(correlationId: string, maxLength: int): (r: string)
    ensures |correlationId| <= maxLength ==> r == correlationId
    ensures |correlationId| > maxLength >= 0 ==> r == correlationId[..maxLength] + "..."
    ensures maxLength >= 0 ==> |r| <= maxLength + 3
    ensures |correlationId| > maxLength ==> |r| >= 3 && r[|r| - 3..] == "..."
  {
    if |correlationId| <= maxLength then correlationId
    else SlicePrefix(correlationId, maxLength) + "..."
  }

  /** For a non-negative limit, truncating twice is truncating once. */
  lemma TruncateIdempotent(correlationId: string, maxLength: int)
    requires maxLength >= 0
    ensures TruncateCorrelationId(TruncateCorrelationId(correlationId, maxLength), maxLength)
         == TruncateCorrelationId(correlationId, maxLength)
  {
    var once := TruncateCorrelationId(correlationId, maxLength);
    if |correlationId| > maxLength {
      assert once[..maxLength] == correlationId[..maxLength];
    }
  }

  /** With a negative limit Python's slice counts from the end: `"abcdef"` with -2 gives `"abcd..."`. */
  lemma TruncateNegativeLimitExample()
    ensures TruncateCorrelationId("abcdef", -2) == "abcd..."
  {
  }

  // ---------------------------------------------------------------------------
  // Connection-string pass
  // ---------------------------------------------------------------------------

  const EndpointPrefix: string := "Endpoint=sb://"
  const KeyNameMarker: string := ";SharedAccessKeyName="
  const KeyMarker: string := ";SharedAccessKey="
  const MaskedConnectionString: string := "Endpoint=sb://***;SharedAccessKeyName=***;SharedAccessKey=***"

  /** Whether `s` continues with `p` at position `i`. */
  predicate HasAt(s: string, i: nat, p: string) {
    i <= |s| && p <= s[i..]
  }

  /** Length of the longest run of characters other than `;` starting at `i`. */
  function NonSemicolonRun(s: string, i: nat): (n: nat)
    requires i <= |s|
    ensures i + n <= |s|
    decreases |s| - i
  {
    if i == |s| || s[i] == ';' then 0 else 1 + NonSemicolonRun(s, i + 1)
  }

  /** The run holds no `;`, and it stops at a `;` unless it reaches the end. */
  lemma {:induction false} NonSemicolonRunChars(s: string, i: nat)
    requires i <= |s|
    ensures forall k :: i <= k < i + NonSemicolonRun(s, i) ==> s[k] != ';'
    ensures i + NonSemicolonRun(s, i) < |s| ==> s[i + NonSemicolonRun(s, i)] == ';'
    decreases |s| - i
  {
    if i < |s| && s[i] != ';' {
      NonSemicolonRunChars(s, i + 1);
    }
  }

  /**
   * A non-empty run of characters other than `;` at `a` followed by `marker`: where the
   * marker ends, if both are there.
   */
  function RunThen(s: string, a: nat, marker: string): (r: Option<nat>)
    requires a <= |s|
    ensures r.Some? ==> a < r.value <= |s|
    ensures r.Some? <==> NonSemicolonRun(s, a) > 0 && HasAt(s, a + NonSemicolonRun(s, a), marker)
    ensures r.Some? ==> r.value == a + NonSemicolonRun(s, a) + |marker|
  {
    var n := NonSemicolonRun(s, a);
    if n == 0 || !HasAt(s, a + n, marker) then None else Some(a + n + |marker|)
  }

  /**
   * Where a match of `Endpoint=sb://[^;]+;SharedAccessKeyName=[^;]+;SharedAccessKey=[^;]+`
   * starting at `i` ends, if there is one. Each `[^;]+` is greedy and the next literal starts
   * with `;`, so each run stops exactly at the next `;` and no backtracking can help.
   */
  function MatchConnectionString(s: string, i: nat): (e: Option<nat>)
    requires i <= |s|
    ensures e.Some? ==> i < e.value <= |s|
  {
    if !HasAt(s, i, EndpointPrefix) then None else MatchAfterEndpoint(s, i + |EndpointPrefix|)
  }

  /** The rest of the match once `Endpoint=sb://` has been read, up to position `a`. */
  function MatchAfterEndpoint(s: string, a: nat): (e: Option<nat>)
    requires a <= |s|
    ensures e.Some? ==> a < e.value <= |s|
  {
    match RunThen(s, a, KeyNameMarker)
    case None => None
    case Some(b) => MatchAfterKeyName(s, b)
  }

  /** The rest of the match once `;SharedAccessKeyName=` has been read, up to position `b`. */
  function MatchAfterKeyName(s: string, b: nat): (e: Option<nat>)
    requires b <= |s|
    ensures e.Some? ==> b < e.value <= |s|
  {
    match RunThen(s, b, KeyMarker)
    case None => None
    case Some(c) =>
      var n3 := NonSemicolonRun(s, c);
      if n3 == 0 then None else Some(c + n3)
  }

  /** `re.sub` of the connection-string pattern, scanning from position `i`. */
  function MaskConnectionStringsFrom(s: string, i: nat): string
    requires i <= |s|
    decreases |s| - i
  {
    if i == |s| then ""
    else
      match MatchConnectionString(s, i)
      case Some(e) => MaskedConnectionString + MaskConnectionStringsFrom(s, e)
      case None => [s[i]] + MaskConnectionStringsFrom(s, i + 1)
  }

  function MaskConnectionStrings(s: string): string {
    MaskConnectionStringsFrom(s, 0)
  }

  /** Where a connection string with runs of lengths `n1`, `n2`, `n3` starting at `i` ends. */
  function ConnectionStringEnd(i: nat, n1: nat, n2: nat, n3: nat): nat {
    i + |EndpointPrefix| + n1 + |KeyNameMarker| + n2 + |KeyMarker| + n3
  }

  /**
   * The three literals of the pattern sit at `i` with non-empty `;`-free runs of lengths
   * `n1`, `n2`, `n3` between and after them, each run stopping at a `;` or the end.
   */
  predicate PiecesAt(s: string, i: nat, n1: nat, n2: nat, n3: nat) {
    var a := i + |EndpointPrefix|;
    var b := a + n1 + |KeyNameMarker|;
    var c := b + n2 + |KeyMarker|;
    i <= |s| && HasAt(s, i, EndpointPrefix)
    && n1 > 0 && a <= |s| && NonSemicolonRun(s, a) == n1 && a + n1 <= |s| && HasAt(s, a + n1, KeyNameMarker)
    && n2 > 0 && b <= |s| && NonSemicolonRun(s, b) == n2 && b + n2 <= |s| && HasAt(s, b + n2, KeyMarker)
    && n3 > 0 && c <= |s| && NonSemicolonRun(s, c) == n3
  }

  /** The matcher accepts exactly where the pieces are found, and ends after the third run. */
  lemma {:induction false} MatchFromParts(s: string, i: nat, n1: nat, n2: nat, n3: nat)
    requires PiecesAt(s, i, n1, n2, n3)
    ensures MatchConnectionString(s, i) == Some(ConnectionStringEnd(i, n1, n2, n3))
  {
    var a := i + |EndpointPrefix|;
    var b := a + n1 + |KeyNameMarker|;
    EndpointStep(s, i);
    KeyNamePart(s, a, n1);
    KeyNameStep(s, a, b);
    KeyPart(s, b, n2, n3);
  }

  lemma {:induction false} EndpointStep(s: string, i: nat)
    requires i <= |s| && HasAt(s, i, EndpointPrefix)
    ensures i + |EndpointPrefix| <= |s|
    ensures MatchConnectionString(s, i) == MatchAfterEndpoint(s, i + |EndpointPrefix|)
  {
  }

  lemma {:induction false} KeyNameStep(s: string, a: nat, b: nat)
    requires a <= |s| && RunThen(s, a, KeyNameMarker) == Some(b)
    ensures b <= |s| && MatchAfterEndpoint(s, a) == MatchAfterKeyName(s, b)
  {
  }

  lemma {:induction false} KeyNamePart(s: string, a: nat, n1: nat)
    requires a <= |s| && n1 > 0 && NonSemicolonRun(s, a) == n1 && a + n1 <= |s| && HasAt(s, a + n1, KeyNameMarker)
    ensures RunThen(s, a, KeyNameMarker) == Some(a + n1 + |KeyNameMarker|)
  {
  }

  lemma {:induction false} KeyPart(s: string, b: nat, n2: nat, n3: nat)
    requires b <= |s| && n2 > 0 && NonSemicolonRun(s, b) == n2 && b + n2 <= |s| && HasAt(s, b + n2, KeyMarker)
    requires b + n2 + |KeyMarker| <= |s| && n3 > 0 && NonSemicolonRun(s, b + n2 + |KeyMarker|) == n3
    ensures MatchAfterKeyName(s, b) == Some(b + n2 + |KeyMarker| + n3)
  {
  }

  /** Conversely, the matcher accepts only where the pieces are found. */
  lemma {:induction false} MatchOnlyWherePieces(s: string, i: nat)
    requires i <= |s| && MatchConnectionString(s, i).Some?
    ensures exists n1, n2, n3 :: PiecesAt(s, i, n1, n2, n3)
                              && MatchConnectionString(s, i).value == ConnectionStringEnd(i, n1, n2, n3)
  {
    var a := i + |EndpointPrefix|;
    assert HasAt(s, i, EndpointPrefix);
    var n1 := NonSemicolonRun(s, a);
    var b := RunThen(s, a, KeyNameMarker).value;
    var n2 := NonSemicolonRun(s, b);
    var c := RunThen(s, b, KeyMarker).value;
    var n3 := NonSemicolonRun(s, c);
    assert n1 > 0 && HasAt(s, a + n1, KeyNameMarker) && b == a + n1 + |KeyNameMarker|;
    assert n2 > 0 && HasAt(s, b + n2, KeyMarker) && c == b + n2 + |KeyMarker|;
    assert n3 > 0 && MatchConnectionString(s, i).value == c + n3;
    assert PiecesAt(s, i, n1, n2, n3);
  }

  /** Where the pieces are found, the scan emits the mask and resumes after them. */
  lemma {:induction false} MaskedWhereMatched(s: string, i: nat, n1: nat, n2: nat, n3: nat)
    requires PiecesAt(s, i, n1, n2, n3)
    ensures ConnectionStringEnd(i, n1, n2, n3) <= |s|
    ensures MaskConnectionStringsFrom(s, i)
         == MaskedConnectionString + MaskConnectionStringsFrom(s, ConnectionStringEnd(i, n1, n2, n3))
  {
    MatchFromParts(s, i, n1, n2, n3);
    MaskAtMatch(s, i);
  }

  /** Where a match starts, the scan emits the mask and resumes after the match. */
  lemma {:induction false} MaskAtMatch(s: string, i: nat)
    requires i < |s| && MatchConnectionString(s, i).Some?
    ensures MaskConnectionStringsFrom(s, i)
         == MaskedConnectionString + MaskConnectionStringsFrom(s, MatchConnectionString(s, i).value)
  {
  }

  /** Text that never contains `Endpoint=sb://` passes through the connection-string pass unchanged. */
  lemma {:induction false} NoEndpointUnchanged(s: string, i: nat)
    requires i <= |s|
    requires forall k :: i <= k <= |s| ==> !HasAt(s, k, EndpointPrefix)
    ensures MaskConnectionStringsFrom(s, i) == s[i..]
    decreases |s| - i
  {
    if i < |s| {
      NoEndpointUnchanged(s, i + 1);
    }
  }

  // ---------------------------------------------------------------------------
  // Base64-run pass
  // ---------------------------------------------------------------------------

  const Redacted: string := "***REDACTED***"
  const MinSecretRun: nat := 20

  /** `[A-Za-z0-9+/]` */
  predicate IsBase64Char(c: char) {
    IsAlnum(c) || c == '+' || c == '/'
  }

  /** Length of the run of base64 characters starting at position `k` of `t`. */
  function RunAt(t: string, k: nat): (n: nat)
    requires k <= |t|
    ensures k + n <= |t|
    decreases |t| - k
  {
    if k == |t| || !IsBase64Char(t[k]) then 0 else 1 + RunAt(t, k + 1)
  }

  /** Every character of the run is a base64 character, and the run stops at one that is not. */
  lemma {:induction false} RunAtChars(t: string, k: nat)
    requires k <= |t|
    ensures forall m :: k <= m < k + RunAt(t, k) ==> IsBase64Char(t[m])
    ensures k + RunAt(t, k) < |t| ==> !IsBase64Char(t[k + RunAt(t, k)])
    decreases |t| - k
  {
    if k < |t| && IsBase64Char(t[k]) {
      RunAtChars(t, k + 1);
    }
  }

  /** Up to two `=` following position `i` (the greedy `={0,2}`). */
  function PaddingLength(s: string, i: nat): (n: nat)
    requires i <= |s|
    ensures n <= 2 && i + n <= |s|
  {
    if i < |s| && s[i] == '=' then
      if i + 1 < |s| && s[i + 1] == '=' then 2 else 1
    else 0
  }

  /**
   * `re.sub(r"[A-Za-z0-9+/]{20,}={0,2}", "***REDACTED***", s)` scanning from position `i`:
   * a match is the whole base64 run there, when it has at least 20 characters, plus its
   * padding; otherwise one character is copied and the scan moves on.
   */
  function MaskBase64From(s: string, i: nat): string
    requires i <= |s|
    decreases |s| - i
  {
    if i == |s| then ""
    else
      var n := RunAt(s, i);
      if n >= MinSecretRun then Redacted + MaskBase64From(s, i + n + PaddingLength(s, i + n))
      else [s[i]] + MaskBase64From(s, i + 1)
  }

  function MaskBase64(s: string): string {
    MaskBase64From(s, 0)
  }

  /** No position of `t` starts a base64 run of 20 or more characters. */
  predicate NoLongRun(t: string) {
    forall k :: 0 <= k < |t| ==> RunAt(t, k) < MinSecretRun
  }

  /** A run starting in `a` that meets a non-base64 character at `m` stops there. */
  lemma {:induction false} RunStopsAt(t: string, k: nat, m: nat)
    requires k <= m < |t| && !IsBase64Char(t[m])
    ensures k + RunAt(t, k) <= m
    decreases m - k
  {
    if k < m && IsBase64Char(t[k]) {
      RunStopsAt(t, k + 1, m);
    }
  }

  /** A run that stops inside `a` is not extended by what follows. */
  lemma {:induction false} RunStopsInside(a: string, b: string, k: nat)
    requires k <= |a| && k + RunAt(a, k) < |a|
    ensures RunAt(a + b, k) == RunAt(a, k)
    decreases |a| - k
  {
    if IsBase64Char(a[k]) {
      assert (a + b)[k] == a[k];
      RunStopsInside(a, b, k + 1);
    } else {
      assert (a + b)[k] == a[k];
    }
  }

  /** Runs inside `rest` are the same after anything is put in front of it. */
  lemma {:induction false} RunAfterPrefix(pre: string, rest: string, k: nat)
    requires k <= |rest|
    ensures RunAt(pre + rest, |pre| + k) == RunAt(rest, k)
    decreases |rest| - k
  {
    if k < |rest| {
      assert (pre + rest)[|pre| + k] == rest[k];
      RunAfterPrefix(pre, rest, k + 1);
    }
  }

  /** The run at the front of the output of a scan from `i`: the input's own short run, or none. */
  lemma {:induction false} MaskBase64LeadingRun(s: string, i: nat)
    requires i <= |s|
    ensures var out := MaskBase64From(s, i);
      RunAt(out, 0) == if RunAt(s, i) < MinSecretRun then RunAt(s, i) else 0
    decreases |s| - i
  {
    if i < |s| {
      var n := RunAt(s, i);
      var out := MaskBase64From(s, i);
      if n >= MinSecretRun {
        assert out[0] == '*';
      } else if IsBase64Char(s[i]) {
        var rest := MaskBase64From(s, i + 1);
        assert out == [s[i]] + rest;
        RunAfterPrefix([s[i]], rest, 0);
        MaskBase64LeadingRun(s, i + 1);
      } else {
        assert out[0] == s[i];
      }
    }
  }

  /** After the base64 pass no run of 20 or more base64 characters remains. */
  lemma {:induction false} MaskBase64NoLongRun(s: string, i: nat)
    requires i <= |s|
    ensures NoLongRun(MaskBase64From(s, i))
    decreases |s| - i
  {
    if i < |s| {
      var n := RunAt(s, i);
      if n >= MinSecretRun {
        var j := i + n + PaddingLength(s, i + n);
        MaskBase64NoLongRun(s, j);
        RedactedThenNoLongRun(MaskBase64From(s, i), MaskBase64From(s, j));
      } else {
        MaskBase64NoLongRun(s, i + 1);
        MaskBase64LeadingRun(s, i);
        CopiedThenNoLongRun(MaskBase64From(s, i), s[i], MaskBase64From(s, i + 1));
      }
    } else {
      assert MaskBase64From(s, i) == [];
    }
  }

  /** The redaction marker ends in `*`, so no run crosses it into what follows. */
  lemma {:induction false} RedactedThenNoLongRun(out: string, rest: string)
    requires NoLongRun(rest) && out == Redacted + rest
    ensures NoLongRun(out)
  {
    forall k | 0 <= k < |out| ensures RunAt(out, k) < MinSecretRun {
      if k < |Redacted| {
        assert Redacted[|Redacted| - 1] == '*';
        RunStopsAt(Redacted, k, |Redacted| - 1);
        RunStopsInside(Redacted, rest, k);
      } else {
        RunAfterPrefix(Redacted, rest, k - |Redacted|);
      }
    }
  }

  /** A copied character keeps the output free of long runs when the run it starts is short. */
  lemma {:induction false} CopiedThenNoLongRun(out: string, c: char, rest: string)
    requires NoLongRun(rest) && out == [c] + rest && RunAt(out, 0) < MinSecretRun
    ensures NoLongRun(out)
  {
    forall k | 0 <= k < |out| ensures RunAt(out, k) < MinSecretRun {
      if k > 0 {
        RunAfterPrefix([c], rest, k - 1);
      }
    }
  }

  /** Text with no long base64 run passes through the base64 pass unchanged. */
  lemma {:induction false} MaskBase64NoopWithoutLongRun(s: string, i: nat)
    requires i <= |s|
    requires forall k :: i <= k < |s| ==> RunAt(s, k) < MinSecretRun
    ensures MaskBase64From(s, i) == s[i..]
    decreases |s| - i
  {
    if i < |s| {
      MaskBase64NoopWithoutLongRun(s, i + 1);
      assert s[i..] == [s[i]] + s[i + 1..];
    }
  }

  // ---------------------------------------------------------------------------
  // The sanitiser
  // ---------------------------------------------------------------------------

  /**
   * `sanitize_error_message` up to and including the base64 pass: an empty or missing
   * message gives `""`; otherwise connection strings are masked, then long base64 runs.
   */
  function SanitizeErrorMessage(errorMessage: Option<string>): (r: string)
    ensures !Present(errorMessage) ==> r == ""
    ensures NoLongRun(r)
  {
    if !Present(errorMessage) then ""
    else
      MaskBase64NoLongRun(MaskConnectionStrings(errorMessage.value), 0);
      MaskBase64(MaskConnectionStrings(errorMessage.value))
  }
}
