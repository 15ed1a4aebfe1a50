/** Fixed strings and numbers of the replication function. */
module Constants {

  const ContentTypeBinary: string := "application/octet-stream"
  const ContentTypeTextUtf8: string := "text/plain; charset=utf-8"

  /** Keys of the replication metadata added to every replica's application properties. */
  const PropOriginalMessageId: string := "x-original-message-id"
  const PropReplicationCorrelationId: string := "x-replication-correlation-id"
  const PropReplicationTimestamp: string := "x-replication-timestamp"

  const CorrelationIdPrefix: string := "repl"
  const SecondsPerMinute: int := 60

  /** Replication directions as written in `REPLICATION_TYPE`. */
  const TypePrimaryToSecondary: string := "primary_to_secondary"
  const TypeSecondaryToPrimary: string := "secondary_to_primary"

  /** Human-readable direction labels. */
  const DirectionPrimaryToSecondary: string := "Primary \U{2192} Secondary"
  const DirectionSecondaryToPrimary: string := "Secondary \U{2192} Primary"

  /** Alert severities carried by error log records. */
  datatype Severity = Low | Medium | High | Critical
}
