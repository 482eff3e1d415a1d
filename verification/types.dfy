/**
 * The hub's records and enumerations: projects, health and metrics
 * snapshots, event and action types, the oracle's decision, and the payloads
 * that travel on the event bus.
 */
module Types {
  import opened Wrappers

  /** The closed set of bus event types, with the string each one stands for. */
  datatype EventType =
    | ProjectHealthChanged
    | ProjectDown
    | ProjectDegraded
    | ProjectRecovered
    | MetricsCollected
    | AnomalyDetected
    | ActionTriggered
    | ActionCompleted
    | ActionFailed
    | ActionExecuted
    | AiDecision
  {
    function Value(): string {
      match this
      case ProjectHealthChanged => "project.health.changed"
      case ProjectDown => "project.down"
      case ProjectDegraded => "project.degraded"
      case ProjectRecovered => "project.recovered"
      case MetricsCollected => "metrics.collected"
      case AnomalyDetected => "anomaly_detected"
      case ActionTriggered => "action.triggered"
      case ActionCompleted => "action.completed"
      case ActionFailed => "action.failed"
      case ActionExecuted => "action_executed"
      case AiDecision => "ai_decision"
    }
  }

  /** Remediation actions, with their wire strings. */
  datatype ActionType =
    | RestartService
    | ClearCache
    | PauseService
    | RollbackDeployment
    | EscalateToHuman
  {
    function Value(): string {
      match this
      case RestartService => "restart_service"
      case ClearCache => "clear_cache"
      case PauseService => "pause_service"
      case RollbackDeployment => "rollback_deployment"
      case EscalateToHuman => "escalate_to_human"
    }
  }

  /** A monitored service; `url` is its base address, intervals are in milliseconds. */
  datatype Project = Project(
    name: string,
    url: string,
    critical: bool,
    healthCheckInterval: int,
    metricsCheckInterval: int)

  /**
   * One health reading. `status` is a string: the monitor adopts whatever
   * status the service reports, so values other than healthy, degraded and
   * down can occur. Times are milliseconds since the epoch.
   */
  datatype ProjectHealth = ProjectHealth(
    projectName: string,
    status: string,
    lastCheck: int,
    uptime: real,
    responseTime: int,
    isRunning: bool)

  /** One metrics reading; percentages are plain numbers, `apiUsage` counts calls per API. */
  datatype ProjectMetrics = ProjectMetrics(
    projectName: string,
    requestsPerSecond: real,
    errorRate: real,
    errorCount: real,
    apiUsage: map<string, real>,
    memoryUsagePercent: real,
    cpuUsagePercent: real,
    databaseQueryTime: real,
    timestamp: int)

  datatype Trigger = System | Human | AutoFixer

  /** What an action request says about its target and origin. */
  datatype ActionMetadata = ActionMetadata(
    projectId: string,
    projectName: string,
    reason: string,
    triggeredBy: Trigger,
    params: Option<map<string, string>>)

  /** The oracle's recommendation; `action` is None for "do nothing". */
  datatype AIDecision = AIDecision(
    action: Option<ActionType>,
    confidence: real,
    reasoning: string,
    alternatives: seq<string>)

  /**
   * A crossed metrics threshold with the value that crossed it (the source
   * renders it as text, e.g. "High CPU usage: 98.0%").
   */
  datatype Anomaly = HighCpu(percent: real) | HighMemory(percent: real) | HighErrorRate(percent: real)

  /**
   * Event payloads, one shape per producer; `Opaque` stands for any other
   * object, with only the three fields the bus itself looks at.
   */
  datatype Payload =
    | HealthChange(changedProject: string, oldStatus: Option<string>, newStatus: string)
    | StatusAlert(alertProject: string, alertSeverity: string, alertMessage: string)
    | MetricsReport(reportProject: string, metrics: ProjectMetrics)
    | AnomalyReport(anomalyProject: string, anomalyMetrics: ProjectMetrics, anomalies: seq<Anomaly>, anomalySeverity: string)
    | DecisionReport(decisionProject: string, decision: AIDecision)
    | ActionOutcome(actionType: ActionType, outcomeProject: string, status: string, outcomeMessage: string)
    | Opaque(projectName: Option<string>, severity: Option<string>, message: Option<string>)
  {
    /** `payload.projectName` */
    function ProjectNameField(): Option<string> {
      match this
      case HealthChange(p, _, _) => Some(p)
      case StatusAlert(p, _, _) => Some(p)
      case MetricsReport(p, _) => Some(p)
      case AnomalyReport(p, _, _, _) => Some(p)
      case DecisionReport(p, _) => Some(p)
      case ActionOutcome(_, p, _, _) => Some(p)
      case Opaque(p, _, _) => p
    }

    /** `payload.severity` */
    function SeverityField(): Option<string> {
      match this
      case StatusAlert(_, s, _) => Some(s)
      case AnomalyReport(_, _, _, s) => Some(s)
      case Opaque(_, s, _) => s
      case _ => None
    }

    /** `payload.message` */
    function MessageField(): Option<string> {
      match this
      case StatusAlert(_, _, m) => Some(m)
      case ActionOutcome(_, _, _, m) => Some(m)
      case Opaque(_, _, m) => m
      case _ => None
    }
  }

  /** A published event; `id` comes from a generator that never repeats. */
  datatype Event = Event(
    id: nat,
    eventType: EventType,
    source: string,
    timestamp: int,
    payload: Payload,
    metadata: Option<map<string, string>>)

  /** The handlers that can be registered on the bus: the agents' and any outside listener. */
  datatype HandlerId =
    | HealthChangeHandler
    | MetricsHandler
    | AnomalyHandler
    | ProjectDownHandler
    | Listener(n: nat)

  /** JavaScript truthiness of an optional string: present and non-empty. */
  predicate Truthy(s: Option<string>) {
    s.Some? && s.value != ""
  }
}
