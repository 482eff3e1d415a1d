/**
 * The health monitor agent: listens for health changes and turns a
 * (previous status, new status) pair into at most one alert event.
 */
module HealthMonitorAgent {
  import opened Wrappers
  import opened Types
  import opened EventBus
  import opened Agents

  /** The alert a change calls for, as (type, payload), or None. */
  function AlertFor(projectName: string, oldStatus: Option<string>, newStatus: string): Option<(EventType, Payload)> {
    if newStatus == "down" then
      Some((ProjectDown, StatusAlert(projectName, "critical", "Project " + projectName + " is DOWN! Immediate attention required.")))
    else if newStatus == "degraded" then
      Some((ProjectDegraded, StatusAlert(projectName, "warning", "Project " + projectName + " is degraded.")))
    else if newStatus == "healthy" && oldStatus != Some("healthy") then
      Some((ProjectRecovered, StatusAlert(projectName, "info", "Project " + projectName + " has recovered.")))
    else None
  }

  /** The alert for an incoming payload; a payload without a new status triggers none. */
  function Alert(payload: Payload): Option<(EventType, Payload)> {
    match payload
    case HealthChange(p, oldStatus, newStatus) => AlertFor(p, oldStatus, newStatus)
    case _ => None
  }

  /**
   * The transition rules: down always alerts critical, degraded always
   * alerts warning (even degraded to degraded), healthy alerts info only
   * when the previous status was not healthy, and anything else is silent.
   * The alert carries the incoming project name.
   */
  lemma AlertRules(projectName: string, oldStatus: Option<string>, newStatus: string)
    ensures var a := AlertFor(projectName, oldStatus, newStatus);
            && (a.Some? <==> newStatus == "down" || newStatus == "degraded"
                             || (newStatus == "healthy" && oldStatus != Some("healthy")))
            && (newStatus == "down" ==> a.Some? && a.value.0 == ProjectDown && a.value.1.alertSeverity == "critical")
            && (newStatus == "degraded" ==> a.Some? && a.value.0 == ProjectDegraded && a.value.1.alertSeverity == "warning")
            && (newStatus == "healthy" && oldStatus != Some("healthy") ==>
                  a.Some? && a.value.0 == ProjectRecovered && a.value.1.alertSeverity == "info")
            && (a.Some? ==> a.value.1.StatusAlert? && a.value.1.alertProject == projectName)
  {
  }

  /**
   * The severity each alert states explicitly is the one the bus would
   * derive from the event type alone.
   */
  lemma AlertSeverityMatchesBus(projectName: string, oldStatus: Option<string>, newStatus: string, e: Event)
    requires AlertFor(projectName, oldStatus, newStatus).Some?
    requires e.eventType == AlertFor(projectName, oldStatus, newStatus).value.0
    requires !Truthy(e.payload.SeverityField())
    ensures Severity(e) == AlertFor(projectName, oldStatus, newStatus).value.1.alertSeverity
  {
    SeverityByType(e);
  }

  /** `handleHealthChange`: publishes the alert, if any, from this agent. */
  method HandleHealthChange(agent: Agent, payload: Payload, now: int)
    requires agent.kind == HealthMonitorKind && agent.bus.Valid()
    modifies agent.bus
    ensures agent.bus.Valid()
    ensures Alert(payload).None? ==> agent.bus.Emitted([])
    ensures Alert(payload).Some? ==>
              agent.bus.Emitted([Event(old(agent.bus.nextId), Alert(payload).value.0, agent.name, now, Alert(payload).value.1, None)])
  {
    if !payload.HealthChange? {
      return;
    }
    var projectName, oldStatus, newStatus := payload.changedProject, payload.oldStatus, payload.newStatus;
    if newStatus == "down" {
      var _ := agent.Publish(ProjectDown, StatusAlert(projectName, "critical", "Project " + projectName + " is DOWN! Immediate attention required."), None, now);
    } else if newStatus == "degraded" {
      var _ := agent.Publish(ProjectDegraded, StatusAlert(projectName, "warning", "Project " + projectName + " is degraded."), None, now);
    } else if newStatus == "healthy" && oldStatus != Some("healthy") {
      var _ := agent.Publish(ProjectRecovered, StatusAlert(projectName, "info", "Project " + projectName + " has recovered."), None, now);
    }
  }
}
