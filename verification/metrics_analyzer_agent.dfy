/**
 * The metrics analyzer agent: checks each metrics reading against three fixed
 * thresholds and publishes one anomaly event listing every threshold crossed.
 */
module MetricsAnalyzerAgent {
  import opened Wrappers
  import opened Types
  import opened EventBus
  import opened Agents

  /** Thresholds, in percent; a reading must strictly exceed them. */
  const CPU_LIMIT: real := 80.0
  const MEMORY_LIMIT: real := 85.0
  const ERROR_RATE_LIMIT: real := 5.0

  /** The anomalies a reading shows: CPU first, then memory, then error rate. */
  ghost function Anomalies(m: ProjectMetrics): seq<Anomaly> {
    (if m.cpuUsagePercent > CPU_LIMIT then [HighCpu(m.cpuUsagePercent)] else [])
    + (if m.memoryUsagePercent > MEMORY_LIMIT then [HighMemory(m.memoryUsagePercent)] else [])
    + (if m.errorRate > ERROR_RATE_LIMIT then [HighErrorRate(m.errorRate)] else [])
  }

  /** Position of each kind of anomaly in the reported list's fixed order. */
  function Rank(a: Anomaly): nat {
    match a
    case HighCpu(_) => 0
    case HighMemory(_) => 1
    case HighErrorRate(_) => 2
  }

  /**
   * Each anomaly is reported iff its threshold is strictly exceeded, with the
   * reading's own value; there is at most one of each kind, in the fixed
   * order; so a reading at exactly 80 / 85 / 5 is not anomalous.
   */
  lemma AnomaliesSpec(m: ProjectMetrics)
    ensures var a := Anomalies(m);
            && (HighCpu(m.cpuUsagePercent) in a <==> m.cpuUsagePercent > CPU_LIMIT)
            && (HighMemory(m.memoryUsagePercent) in a <==> m.memoryUsagePercent > MEMORY_LIMIT)
            && (HighErrorRate(m.errorRate) in a <==> m.errorRate > ERROR_RATE_LIMIT)
            && (forall x :: x in a ==> x == HighCpu(m.cpuUsagePercent) || x == HighMemory(m.memoryUsagePercent) || x == HighErrorRate(m.errorRate))
            && (forall i, j :: 0 <= i < j < |a| ==> Rank(a[i]) < Rank(a[j]))
            && (a == [] <==> m.cpuUsagePercent <= CPU_LIMIT && m.memoryUsagePercent <= MEMORY_LIMIT && m.errorRate <= ERROR_RATE_LIMIT)
  {
  }

  /** The event the analyzer publishes for a reading, if any. */
  ghost function Report(payload: Payload): Option<Payload> {
    if payload.MetricsReport? && Anomalies(payload.metrics) != [] then
      Some(AnomalyReport(payload.reportProject, payload.metrics, Anomalies(payload.metrics), "warning"))
    else None
  }

  /**
   * `analyzeMetrics`: collects the anomalies of the reading and, when there
   * is at least one, publishes a single `anomaly_detected` event of severity
   * warning carrying the project, the metrics and the list.
   */
  method AnalyzeMetrics(agent: Agent, payload: Payload, now: int)
    requires agent.kind == MetricsAnalyzerKind && agent.bus.Valid()
    modifies agent.bus
    ensures agent.bus.Valid()
    ensures Report(payload).None? ==> agent.bus.Emitted([])
    ensures Report(payload).Some? ==>
              agent.bus.Emitted([Event(old(agent.bus.nextId), AnomalyDetected, agent.name, now, Report(payload).value, None)])
  {
    if !payload.MetricsReport? {
      return;
    }
    var projectName, metrics := payload.reportProject, payload.metrics;
    var anomalies: seq<Anomaly> := [];
    if metrics.cpuUsagePercent > CPU_LIMIT {
      anomalies := anomalies + [HighCpu(metrics.cpuUsagePercent)];
    }
    if metrics.memoryUsagePercent > MEMORY_LIMIT {
      anomalies := anomalies + [HighMemory(metrics.memoryUsagePercent)];
    }
    if metrics.errorRate > ERROR_RATE_LIMIT {
      anomalies := anomalies + [HighErrorRate(metrics.errorRate)];
    }
    assert anomalies == Anomalies(metrics);
    if |anomalies| > 0 {
      var _ := agent.Publish(AnomalyDetected, AnomalyReport(projectName, metrics, anomalies, "warning"), None, now);
    }
  }
}
