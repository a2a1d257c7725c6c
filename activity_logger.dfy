/**
 * The activity logger: writing one audit row with its defaults, and reading rows
 * back through a conjunction of optional equality and date filters with a limit.
 */
module ActivityLogger {
  import opened Common
  import opened AuditLogs
  import opened ActivityLogHelpers

  // ---------------------------------------------------------------------------
  // logActivity

  /** The `audit_logs` table; ids and `created_at` are assigned by the store. */
  class AuditTrail {
    var rows: map<Id, AuditLog>

    constructor ()
      ensures rows == map[]
    {
      rows := map[];
    }
  }

  /** The parameters of `logActivity`; `None` is an omitted parameter. */
  datatype LogParams = LogParams(
    action: string,
    userId: Option<string>,
    userEmail: Option<string>,
    entityType: Option<string>,
    entityId: Option<string>,
    details: Details,
    status: Option<string>,
    projectId: Option<string>)

  /** Stand-ins for the signed-in user until authentication provides one. */
  const PlaceholderEmail := "admin@example.com"
  const PlaceholderUserId := "current-user"

  /**
   * The `details` column: objects as their JSON text (`null` is an object to `typeof`,
   * so it is stored as "null"), strings as written, a missing value as "".
   */
  function DetailsText(d: Details): (r: string)
    ensures d.Structured? ==> r == d.json
    ensures d.NullDetails? ==> r == "null"
    ensures d.Text? ==> r == d.text
    ensures d.NoDetails? ==> r == ""
  {
    match d
    case Structured(json) => json
    case NullDetails => "null"
    case Text(s) => s
    case NoDetails => ""
  }

  /**
   * The row `logActivity` inserts, stamped `now`, with the id and creation time the
   * store assigns. An omitted status is "success"; an empty or omitted user falls back
   * to the placeholders.
   */
  function LoggedRow(p: LogParams, now: IsoTimestamp, id: Id, createdAt: int): (r: AuditLog)
    ensures r.id == id && r.createdAt == createdAt && r.timestamp == Some(now) && r.action == p.action
    ensures r.status == Some(p.status.GetOr("success"))
    ensures r.userEmail == Some(OrElse(p.userEmail, PlaceholderEmail)) && r.userId == Some(OrElse(p.userId, PlaceholderUserId))
    ensures r.details == Some(DetailsText(p.details))
    ensures r.entityType == p.entityType && r.entityId == p.entityId && r.projectId == p.projectId
  {
    AuditLog(id, Some(now), createdAt, Some(OrElse(p.userId, PlaceholderUserId)),
             Some(OrElse(p.userEmail, PlaceholderEmail)), p.action, p.entityType, p.entityId,
             Some(p.status.GetOr("success")), Some(DetailsText(p.details)), p.projectId)
  }

  /** `logActivity`: the inserted row, or nothing when the insert fails (also on an id clash). */
  method LogActivity(trail: AuditTrail, p: LogParams, now: IsoTimestamp, newId: Id, createdAt: int, fail: bool)
    returns (r: Option<AuditLog>)
    modifies trail
    ensures fail || newId in old(trail.rows) ==> r == None && trail.rows == old(trail.rows)
    ensures !fail && newId !in old(trail.rows) ==>
      r == Some(LoggedRow(p, now, newId, createdAt)) && trail.rows == old(trail.rows)[newId := r.value]
  {
    if fail || newId in trail.rows {
      return None;
    }
    var row := LoggedRow(p, now, newId, createdAt);
    trail.rows := trail.rows[newId := row];
    r := Some(row);
  }

  // ---------------------------------------------------------------------------
  // getActivityLogs

  /**
   * The filter of `getActivityLogs`. Dates are instants on the `created_at` scale;
   * a limit of 0 is the same as none.
   */
  datatype LogFilter = LogFilter(
    action: Option<string>,
    userId: Option<string>,
    entityType: Option<string>,
    entityId: Option<string>,
    startDate: Option<int>,
    endDate: Option<int>,
    limit: Option<nat>)

  /** What the filter asks of a row: every supplied value matched, `created_at` within the dates. */
  predicate MatchesFilter(log: AuditLog, f: LogFilter) {
    (Truthy(f.action) ==> log.action == f.action.value)
    && (Truthy(f.userId) ==> log.userId == f.userId)
    && (Truthy(f.entityType) ==> log.entityType == f.entityType)
    && (Truthy(f.entityId) ==> log.entityId == f.entityId)
    && (f.startDate.Some? ==> f.startDate.value <= log.createdAt)
    && (f.endDate.Some? ==> log.createdAt <= f.endDate.value)
  }

  /** The columns an equality condition can test. */
  datatype Column = ActionColumn | UserIdColumn | EntityTypeColumn | EntityIdColumn

  /** One refinement of the query: `.eq`, `.gte` or `.lte` (the last two on `created_at`). */
  datatype Condition = Eq(column: Column, value: string) | AtLeast(bound: int) | AtMost(bound: int)

  /** The query as the store receives it: the conditions in order and an optional limit. */
  datatype LogQuery = LogQuery(conditions: seq<Condition>, limit: Option<nat>)

  function ColumnValue(log: AuditLog, column: Column): Option<string> {
    match column
    case ActionColumn => Some(log.action)
    case UserIdColumn => log.userId
    case EntityTypeColumn => log.entityType
    case EntityIdColumn => log.entityId
  }

  /** How the store evaluates one condition on one row. */
  predicate Holds(log: AuditLog, c: Condition) {
    match c
    case Eq(column, value) => ColumnValue(log, column) == Some(value)
    case AtLeast(bound) => bound <= log.createdAt
    case AtMost(bound) => log.createdAt <= bound
  }

  predicate HoldsAll(log: AuditLog, conditions: seq<Condition>) {
    forall i :: 0 <= i < |conditions| ==> Holds(log, conditions[i])
  }

  /** `.limit(n)`: the first `n` rows, or all of them without a limit. */
  function Limited(rows: seq<AuditLog>, limit: Option<nat>): (r: seq<AuditLog>)
    ensures limit.Some? ==> |r| <= limit.value
    ensures r <= rows
    ensures limit.Some? && limit.value < |rows| ==> |r| == limit.value
    ensures limit.None? || |rows| <= limit.value ==> r == rows
  {
    if limit.Some? && limit.value < |rows| then rows[..limit.value] else rows
  }

  /** The store's answer to a query over `table`, which it holds in `created_at` descending order. */
  function Answer(table: seq<AuditLog>, q: LogQuery): seq<AuditLog> {
    Limited(Filter(table, log => HoldsAll(log, q.conditions)), q.limit)
  }

  /** The effective limit: a given, non-zero one. */
  function LimitOf(f: LogFilter): (r: Option<nat>)
    ensures r.Some? <==> f.limit.Some? && f.limit.value != 0
  {
    if f.limit.Some? && f.limit.value != 0 then f.limit else None
  }

  /** Clause `k` of `MatchesFilter`, in the order the query applies them. */
  predicate Clause(log: AuditLog, f: LogFilter, k: nat) {
    match k
    case 0 => Truthy(f.action) ==> log.action == f.action.value
    case 1 => Truthy(f.userId) ==> log.userId == f.userId
    case 2 => Truthy(f.entityType) ==> log.entityType == f.entityType
    case 3 => Truthy(f.entityId) ==> log.entityId == f.entityId
    case 4 => f.startDate.Some? ==> f.startDate.value <= log.createdAt
    case _ => f.endDate.Some? ==> log.createdAt <= f.endDate.value
  }

  /** The query so far keeps exactly the rows meeting the first `k` clauses. */
  ghost predicate Tracks(conditions: seq<Condition>, f: LogFilter, k: nat) {
    forall log :: HoldsAll(log, conditions) <==> (forall j :: 0 <= j < k ==> Clause(log, f, j))
  }

  /** Appending a condition equivalent to clause `k` tracks one clause more. */
  lemma Extend(conditions: seq<Condition>, f: LogFilter, k: nat, c: Condition)
    requires Tracks(conditions, f, k)
    requires forall log :: Holds(log, c) <==> Clause(log, f, k)
    ensures Tracks(conditions + [c], f, k + 1)
  {
    forall log
      ensures HoldsAll(log, conditions + [c]) <==> HoldsAll(log, conditions) && Holds(log, c)
    {
      assert (conditions + [c])[|conditions|] == c;
      assert forall i :: 0 <= i < |conditions| ==> (conditions + [c])[i] == conditions[i];
    }
  }

  /** A clause every row meets needs no condition. */
  lemma Skip(conditions: seq<Condition>, f: LogFilter, k: nat)
    requires Tracks(conditions, f, k)
    requires forall log :: Clause(log, f, k)
    ensures Tracks(conditions, f, k + 1)
  {
  }

  /** Tracking all six clauses is keeping exactly the rows that match the filter. */
  lemma TracksAllClauses(conditions: seq<Condition>, f: LogFilter)
    requires Tracks(conditions, f, 6)
    ensures forall log :: HoldsAll(log, conditions) <==> MatchesFilter(log, f)
  {
    forall log
      ensures HoldsAll(log, conditions) <==> MatchesFilter(log, f)
    {
      assert (forall j :: 0 <= j < 6 ==> Clause(log, f, j)) <==>
        Clause(log, f, 0) && Clause(log, f, 1) && Clause(log, f, 2) && Clause(log, f, 3) && Clause(log, f, 4) && Clause(log, f, 5);
    }
  }

  /**
   * Builds the query of `getActivityLogs` one refinement at a time: the store then
   * keeps exactly the rows that match the filter.
   */
  method BuildLogQuery(f: LogFilter) returns (q: LogQuery)
    ensures forall log :: HoldsAll(log, q.conditions) <==> MatchesFilter(log, f)
    ensures q.limit == LimitOf(f)
  {
    var conditions: seq<Condition> := [];
    if Truthy(f.action) {
      Extend(conditions, f, 0, Eq(ActionColumn, f.action.value));
      conditions := conditions + [Eq(ActionColumn, f.action.value)];
    } else {
      Skip(conditions, f, 0);
    }
    if Truthy(f.userId) {
      Extend(conditions, f, 1, Eq(UserIdColumn, f.userId.value));
      conditions := conditions + [Eq(UserIdColumn, f.userId.value)];
    } else {
      Skip(conditions, f, 1);
    }
    if Truthy(f.entityType) {
      Extend(conditions, f, 2, Eq(EntityTypeColumn, f.entityType.value));
      conditions := conditions + [Eq(EntityTypeColumn, f.entityType.value)];
    } else {
      Skip(conditions, f, 2);
    }
    if Truthy(f.entityId) {
      Extend(conditions, f, 3, Eq(EntityIdColumn, f.entityId.value));
      conditions := conditions + [Eq(EntityIdColumn, f.entityId.value)];
    } else {
      Skip(conditions, f, 3);
    }
    if f.startDate.Some? {
      Extend(conditions, f, 4, AtLeast(f.startDate.value));
      conditions := conditions + [AtLeast(f.startDate.value)];
    } else {
      Skip(conditions, f, 4);
    }
    if f.endDate.Some? {
      Extend(conditions, f, 5, AtMost(f.endDate.value));
      conditions := conditions + [AtMost(f.endDate.value)];
    } else {
      Skip(conditions, f, 5);
    }
    var limit: Option<nat> := None;
    if f.limit.Some? && f.limit.value != 0 {
      limit := f.limit;
    }
    q := LogQuery(conditions, limit);
    TracksAllClauses(conditions, f);
  }

  /**
   * `getActivityLogs`: the table rows matching the filter, in the store's order,
   * cut to the limit; nothing when the read fails.
   */
  method GetActivityLogs(f: LogFilter, table: seq<AuditLog>, fail: bool) returns (rows: seq<AuditLog>)
    ensures fail ==> rows == []
    ensures !fail ==> rows == Limited(Filter(table, log => MatchesFilter(log, f)), LimitOf(f))
  {
    var q := BuildLogQuery(f);
    if fail {
      return [];
    }
    FilterAgrees(table, log => HoldsAll(log, q.conditions), log => MatchesFilter(log, f));
    rows := Answer(table, q);
  }

  /** Rows in `created_at` descending order, as the store returns them. */
  predicate NewestFirst(rows: seq<AuditLog>) {
    forall i, j :: 0 <= i < j < |rows| ==> rows[j].createdAt <= rows[i].createdAt
  }

  lemma {:induction false} NewestFirstFiltered(table: seq<AuditLog>, keep: AuditLog -> bool)
    requires NewestFirst(table)
    ensures NewestFirst(Filter(table, keep))
    decreases |table|
  {
    if table != [] {
      NewestFirstFiltered(table[1..], keep);
      var tail := Filter(table[1..], keep);
      assert forall x :: x in tail ==> x.createdAt <= table[0].createdAt;
    }
  }

  /**
   * What `getActivityLogs` returns: only rows of the table that match every supplied
   * filter, newest first; without a limit every match; with a limit `n` the first
   * `min(n, matches)` matches in table order, so that no match left out is newer than
   * any row returned.
   */
  lemma GetActivityLogsResult(f: LogFilter, table: seq<AuditLog>)
    requires NewestFirst(table)
    ensures var all := Filter(table, log => MatchesFilter(log, f));
      var rows := Limited(all, LimitOf(f));
      (forall x :: x in rows ==> x in table && MatchesFilter(x, f))
      && NewestFirst(rows)
      && rows <= all
      && (LimitOf(f).Some? ==> |rows| == if LimitOf(f).value < |all| then LimitOf(f).value else |all|)
      && (forall i, j :: 0 <= i < |rows| <= j < |all| ==> all[j].createdAt <= rows[i].createdAt)
      && (LimitOf(f).None? ==> forall x :: x in table && MatchesFilter(x, f) ==> x in rows)
  {
    var all := Filter(table, log => MatchesFilter(log, f));
    NewestFirstFiltered(table, log => MatchesFilter(log, f));
    var rows := Limited(all, LimitOf(f));
    forall x | x in rows
      ensures x in all
    {
      var i :| 0 <= i < |rows| && rows[i] == x;
      assert all[i] == x;
    }
    forall i, j | 0 <= i < |rows| <= j < |all|
      ensures all[j].createdAt <= rows[i].createdAt
    {
      assert rows[i] == all[i];
    }
  }

  /** `getEntityActivityLogs`: the rows about one entity. */
  method GetEntityActivityLogs(entityType: string, entityId: string, limit: Option<nat>, table: seq<AuditLog>, fail: bool)
    returns (rows: seq<AuditLog>)
    ensures fail ==> rows == []
    ensures !fail ==> rows == Limited(Filter(table, log => MatchesFilter(log, EntityFilter(entityType, entityId, limit))),
                                      LimitOf(EntityFilter(entityType, entityId, limit)))
  {
    rows := GetActivityLogs(EntityFilter(entityType, entityId, limit), table, fail);
  }

  function EntityFilter(entityType: string, entityId: string, limit: Option<nat>): LogFilter {
    LogFilter(None, None, Some(entityType), Some(entityId), None, None, limit)
  }

  /** The filter of `getUserRecentActivity`: the user, "current-user" by default, and the limit, 10 by default. */
  function RecentActivityFilter(userId: Option<string>, limit: Option<nat>): (f: LogFilter)
    ensures f.userId == Some(OrElse(userId, PlaceholderUserId)) && Truthy(f.userId)
    ensures f.limit == Some(limit.GetOr(10))
  {
    LogFilter(None, Some(OrElse(userId, PlaceholderUserId)), None, None, None, None, Some(limit.GetOr(10)))
  }

  /** `getUserRecentActivity`. */
  method GetUserRecentActivity(userId: Option<string>, limit: Option<nat>, table: seq<AuditLog>, fail: bool)
    returns (rows: seq<AuditLog>)
    ensures fail ==> rows == []
    ensures !fail ==> rows == Limited(Filter(table, log => MatchesFilter(log, RecentActivityFilter(userId, limit))),
                                      LimitOf(RecentActivityFilter(userId, limit)))
  {
    rows := GetActivityLogs(RecentActivityFilter(userId, limit), table, fail);
  }

  /** With no arguments, the recent activity is at most ten rows, all of the placeholder user. */
  lemma RecentActivityDefaults(table: seq<AuditLog>)
    ensures var rows := Limited(Filter(table, log => MatchesFilter(log, RecentActivityFilter(None, None))),
                                LimitOf(RecentActivityFilter(None, None)));
      |rows| <= 10 && forall x :: x in rows ==> x.userId == Some(PlaceholderUserId)
  {
    var f := RecentActivityFilter(None, None);
    var all := Filter(table, log => MatchesFilter(log, RecentActivityFilter(None, None)));
    var rows := Limited(all, LimitOf(f));
    forall x | x in rows
      ensures x.userId == Some(PlaceholderUserId)
    {
      var i :| 0 <= i < |rows| && rows[i] == x;
      assert all[i] == x;
      assert x in all;
      assert MatchesFilter(x, f);
    }
  }

  /** A logged row is found again by a query for its action, user and entity. */
  lemma LoggedRowIsFound(p: LogParams, now: IsoTimestamp, id: Id, createdAt: int)
    ensures MatchesFilter(LoggedRow(p, now, id, createdAt),
      LogFilter(Some(p.action), Some(OrElse(p.userId, PlaceholderUserId)), p.entityType, p.entityId,
                Some(createdAt), Some(createdAt), None))
  {
  }
}
