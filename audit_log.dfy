/** The `audit_logs` row as the activity screens and the logger read it. */
module AuditLogs {
  import opened Common

  /** Characters that `Date.prototype.toISOString` can produce. */
  predicate IsIsoChar(c: char) {
    ('0' <= c <= '9') || c == '-' || c == ':' || c == '.' || c == 'T' || c == 'Z' || c == '+'
  }

  /** Text of an ISO-8601 timestamp as produced by `toISOString`. */
  type IsoTimestamp = s: string | forall i :: 0 <= i < |s| ==> IsIsoChar(s[i])

  /**
   * One activity-log row. `timestamp` is the row's ISO time (already in the
   * form `toISOString` gives), `createdAt` the ordering column as a number.
   */
  datatype AuditLog = AuditLog(
    id: Id,
    timestamp: Option<IsoTimestamp>,
    createdAt: int,
    userId: Option<string>,
    userEmail: Option<string>,
    action: string,
    entityType: Option<string>,
    entityId: Option<string>,
    status: Option<string>,
    details: Option<string>,
    projectId: Option<string>)
}
