/**
 * The database layer: a connection check guarded by an `initialized` flag,
 * inserts into the status-history and metrics tables, and the mappings from
 * query rows back to records. The database service is not modelled: each
 * query's answer, and each insert's outcome, is a parameter; the tables hold
 * the rows the service accepted.
 */
module Database {
  import opened Wrappers
  import opened Types

  /** An error the service reports in its answer (as opposed to a rejected call). */
  datatype DbError = DbError(code: string, message: string)

  /** The "relation does not exist" code: the tables have not been created yet. */
  const TABLE_MISSING := "42P01"

  /** How the connection check answered. */
  datatype ConnectOutcome = Reachable | ConnectError(error: DbError) | ConnectRejected(message: string)

  /** How an insert settled: accepted, refused with an error, or the call itself rejected. */
  datatype WriteOutcome = Written | WriteError(error: DbError) | WriteRejected(message: string)

  /** The answer to a list query: `data` (possibly null) or an error. */
  datatype Answer<T> = Data(rows: Option<seq<T>>) | QueryFailed(error: DbError)

  /** The answer to a single-row query. */
  datatype SingleAnswer<T> = Found(row: T) | NotFound | SingleFailed(error: DbError)

  /** A row of `project_status_history`; times are milliseconds since the epoch. */
  datatype StatusRow = StatusRow(
    projectName: string,
    status: string,
    lastCheck: int,
    uptimePercentage: real,
    responseTimeMs: int,
    recordedAt: int)

  /** A status history record, as handed to callers. */
  datatype StatusHistoryRecord = StatusHistoryRecord(
    projectName: string,
    status: string,
    lastCheck: int,
    uptimePercentage: real,
    responseTimeMs: int,
    recordedAt: int)

  /** A row of `project_metrics`; `apiUsage` is None when the column is null. */
  datatype MetricsRow = MetricsRow(
    projectName: string,
    requestsPerSecond: real,
    errorRate: real,
    errorCount: real,
    apiUsage: Option<map<string, real>>,
    memoryUsagePercent: real,
    cpuUsagePercent: real,
    databaseQueryTimeMs: real,
    recordedAt: int)

  /** The row `recordStatusHistory` inserts; `isRunning` has no column. */
  function StatusRowOf(projectName: string, health: ProjectHealth, now: int): StatusRow {
    StatusRow(projectName, health.status, health.lastCheck, health.uptime, health.responseTime, now)
  }

  /** The row `recordMetrics` inserts; the reading's own name and time have no column. */
  function MetricsRowOf(projectName: string, m: ProjectMetrics, now: int): MetricsRow {
    MetricsRow(projectName, m.requestsPerSecond, m.errorRate, m.errorCount, Some(m.apiUsage),
               m.memoryUsagePercent, m.cpuUsagePercent, m.databaseQueryTime, now)
  }

  /** A status row read back as a record. */
  function StatusRecordOf(row: StatusRow): StatusHistoryRecord {
    StatusHistoryRecord(row.projectName, row.status, row.lastCheck, row.uptimePercentage, row.responseTimeMs, row.recordedAt)
  }

  /** A metrics row read back as a reading; a null `api_usage` becomes the empty map. */
  function MetricsOf(row: MetricsRow): ProjectMetrics {
    ProjectMetrics(row.projectName, row.requestsPerSecond, row.errorRate, row.errorCount,
                   row.apiUsage.GetOr(map[]), row.memoryUsagePercent, row.cpuUsagePercent,
                   row.databaseQueryTimeMs, row.recordedAt)
  }

  /**
   * A recorded health snapshot reads back with every stored field intact,
   * stamped with the time it was recorded.
   */
  lemma StatusRoundTrip(projectName: string, health: ProjectHealth, now: int)
    ensures var r := StatusRecordOf(StatusRowOf(projectName, health, now));
            && r.projectName == projectName && r.status == health.status && r.lastCheck == health.lastCheck
            && r.uptimePercentage == health.uptime && r.responseTimeMs == health.responseTime && r.recordedAt == now
  {
  }

  /**
   * A recorded reading reads back as the same reading, under the name it was
   * recorded for and stamped with the time it was recorded.
   */
  lemma MetricsRoundTrip(projectName: string, m: ProjectMetrics, now: int)
    ensures MetricsOf(MetricsRowOf(projectName, m, now)) == m.(projectName := projectName, timestamp := now)
  {
  }

  /** The set of project names among the rows. */
  function Names(rows: seq<MetricsRow>): set<string> {
    set r | r in rows :: r.projectName
  }

  /** `rows[i]` is the first row of its project. */
  predicate FirstOfItsName(rows: seq<MetricsRow>, i: int)
    requires 0 <= i < |rows|
  {
    forall k :: 0 <= k < i ==> rows[k].projectName != rows[i].projectName
  }

  class Database {
    var initialized: bool
    var statusTable: seq<StatusRow>
    var metricsTable: seq<MetricsRow>

    constructor ()
      ensures !initialized && statusTable == [] && metricsTable == []
    {
      initialized := false;
      statusTable, metricsTable := [], [];
    }

    /**
     * Once initialized, returns at once. Otherwise the connection check
     * decides: reachable, or a missing-table error, marks the database
     * initialized; any other error, and a rejected call, leave it
     * uninitialized and are swallowed.
     */
    method Initialize(outcome: ConnectOutcome)
      modifies this`initialized
      ensures old(initialized) ==> initialized
      ensures !old(initialized) ==>
                (initialized <==> outcome.Reachable? || (outcome.ConnectError? && outcome.error.code == TABLE_MISSING))
    {
      if initialized {
        return;
      }
      match outcome
      case Reachable =>
        initialized := true;
      case ConnectError(error) =>
        if error.code == TABLE_MISSING {
          initialized := true;
        }
      case ConnectRejected(_) =>
    }

    /**
     * Inserts the snapshot; an error answer is only logged. A rejected call
     * propagates to the caller, as `rejected`.
     */
    method RecordStatusHistory(projectName: string, health: ProjectHealth, now: int, outcome: WriteOutcome)
      returns (rejected: Option<string>)
      modifies this`statusTable
      ensures outcome.Written? ==> statusTable == old(statusTable) + [StatusRowOf(projectName, health, now)]
      ensures !outcome.Written? ==> statusTable == old(statusTable)
      ensures rejected.Some? <==> outcome.WriteRejected?
      ensures outcome.WriteRejected? ==> rejected.value == outcome.message
    {
      match outcome
      case Written =>
        statusTable := statusTable + [StatusRowOf(projectName, health, now)];
        rejected := None;
      case WriteError(_) =>
        rejected := None;
      case WriteRejected(message) =>
        rejected := Some(message);
    }

    /** Inserts the reading; as for status history. */
    method RecordMetrics(projectName: string, m: ProjectMetrics, now: int, outcome: WriteOutcome)
      returns (rejected: Option<string>)
      modifies this`metricsTable
      ensures outcome.Written? ==> metricsTable == old(metricsTable) + [MetricsRowOf(projectName, m, now)]
      ensures !outcome.Written? ==> metricsTable == old(metricsTable)
      ensures rejected.Some? <==> outcome.WriteRejected?
      ensures outcome.WriteRejected? ==> rejected.value == outcome.message
    {
      match outcome
      case Written =>
        metricsTable := metricsTable + [MetricsRowOf(projectName, m, now)];
        rejected := None;
      case WriteError(_) =>
        rejected := None;
      case WriteRejected(message) =>
        rejected := Some(message);
    }

    /**
     * The newest status row of a project, as a record: null (None) on an
     * error or when there is no row.
     */
    function GetLatestStatus(answer: SingleAnswer<StatusRow>): (r: Option<StatusHistoryRecord>)
      ensures r.Some? <==> answer.Found?
      ensures answer.Found? ==>
                var row := answer.row;
                && r.value.projectName == row.projectName && r.value.status == row.status
                && r.value.lastCheck == row.lastCheck && r.value.uptimePercentage == row.uptimePercentage
                && r.value.responseTimeMs == row.responseTimeMs && r.value.recordedAt == row.recordedAt
    {
      match answer
      case Found(row) => Some(StatusRecordOf(row))
      case _ => None
    }

    /**
     * The status rows of a project, one record per row in the answer's
     * order; an error answer, or null data, gives the empty list.
     */
    function GetStatusHistory(answer: Answer<StatusRow>): (r: seq<StatusHistoryRecord>)
      ensures answer.QueryFailed? || answer.rows.None? ==> r == []
      ensures answer.Data? && answer.rows.Some? ==>
                |r| == |answer.rows.value|
                && forall i :: 0 <= i < |r| ==> r[i] == StatusRecordOf(answer.rows.value[i])
    {
      match answer
      case QueryFailed(_) => []
      case Data(None) => []
      case Data(Some(rows)) => seq(|rows|, i requires 0 <= i < |rows| => StatusRecordOf(rows[i]))
    }

    /**
     * Walks the newest-first rows and keeps, for each project, the first row
     * seen: one entry per project name among the rows, holding that project's
     * first row. An error answer, or null data, gives the empty map.
     */
    method GetLatestMetricsForAll(answer: Answer<MetricsRow>) returns (latest: map<string, ProjectMetrics>)
      ensures answer.QueryFailed? || answer.rows.None? ==> latest == map[]
      ensures answer.Data? && answer.rows.Some? ==>
                && latest.Keys == Names(answer.rows.value)
                && forall i :: 0 <= i < |answer.rows.value| && FirstOfItsName(answer.rows.value, i) ==>
                     latest[answer.rows.value[i].projectName] == MetricsOf(answer.rows.value[i])
    {
      latest := map[];
      if answer.QueryFailed? || answer.rows.None? {
        return;
      }
      var rows := answer.rows.value;
      var seen: set<string> := {};
      for n := 0 to |rows|
        invariant seen == latest.Keys == Names(rows[..n])
        invariant forall i :: 0 <= i < n && FirstOfItsName(rows, i) ==> latest[rows[i].projectName] == MetricsOf(rows[i])
      {
        var row := rows[n];
        assert rows[..n + 1] == rows[..n] + [row];
        if row.projectName !in seen {
          latest := latest[row.projectName := MetricsOf(row)];
          seen := seen + {row.projectName};
        } else {
          assert !FirstOfItsName(rows, n) by {
            var r' :| r' in rows[..n] && r'.projectName == row.projectName;
            var k :| 0 <= k < n && rows[..n][k] == r';
          }
        }
      }
      assert rows[..|rows|] == rows;
    }
  }
}
