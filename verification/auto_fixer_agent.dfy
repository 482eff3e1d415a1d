/**
 * The auto-fixer agent: publishes the oracle's decision for every anomaly
 * report and acts on it only above a confidence threshold; restarts any
 * project reported down, unconditionally.
 */
module AutoFixerAgent {
  import opened Wrappers
  import opened Types
  import opened EventBus
  import opened Agents
  import opened ActionExecutor
  import opened ClaudeAnalyzer

  /** A decision is acted on only when its confidence is strictly above this. */
  const CONFIDENCE_THRESHOLD: real := 0.7

  /** The gate: an action is named and the confidence exceeds the threshold. */
  predicate Confident(d: AIDecision) {
    d.action.Some? && d.confidence > CONFIDENCE_THRESHOLD
  }

  /** Metadata of an auto-fixer request: the project name doubles as its id. */
  function FixMetadata(projectName: string, reason: string): (m: ActionMetadata)
    ensures m.projectId == m.projectName == projectName
    ensures m.reason == reason && m.triggeredBy == AutoFixer && m.params.None?
  {
    ActionMetadata(projectName, projectName, reason, AutoFixer, None)
  }

  /** The events an executed action adds: one success event, or nothing. */
  ghost function ExecutedEvents(id: nat, t: ActionType, metadata: ActionMetadata, now: int): seq<Event> {
    if PerformActionLogic(t) then [Event(id, ActionExecuted, "ActionExecutor", now, SuccessPayload(t, metadata), None)]
    else []
  }

  /**
   * `executeFix`: asks the executor for `action` on the project, marked as
   * coming from the auto-fixer.
   */
  method ExecuteFix(agent: Agent, executor: ActionExecutor, projectName: string, action: ActionType, reason: string, now: int)
    requires agent.kind == AutoFixerKind && agent.bus == executor.bus && agent.bus.Valid()
    modifies agent.bus, executor`requests
    ensures agent.bus.Valid()
    ensures executor.requests == old(executor.requests) + [ActionRequest(action, FixMetadata(projectName, reason))]
    ensures agent.bus.Emitted(ExecutedEvents(old(agent.bus.nextId), action, FixMetadata(projectName, reason), now))
  {
    var _ := executor.ExecuteAction(action, FixMetadata(projectName, reason), now);
  }

  /**
   * `handleProjectDown`: requests a restart of the project named in the
   * payload, whatever else the payload says.
   */
  method HandleProjectDown(agent: Agent, executor: ActionExecutor, payload: Payload, now: int)
    requires agent.kind == AutoFixerKind && agent.bus == executor.bus && agent.bus.Valid()
    requires payload.ProjectNameField().Some?
    modifies agent.bus, executor`requests
    ensures agent.bus.Valid()
    ensures var m := FixMetadata(payload.ProjectNameField().value, "Project is down");
            && executor.requests == old(executor.requests) + [ActionRequest(RestartService, m)]
            && agent.bus.Emitted([Event(old(agent.bus.nextId), ActionExecuted, "ActionExecutor", now, SuccessPayload(RestartService, m), None)])
  {
    ExecuteFix(agent, executor, payload.ProjectNameField().value, RestartService, "Project is down", now);
  }

  /**
   * `handleAnomaly`: asks the oracle about the report (its reply is
   * `reply`), publishes the resulting decision as an `ai_decision` event, and
   * then, iff the decision is confident, requests its action with the
   * reasoning as the reason.
   */
  method HandleAnomaly(agent: Agent, executor: ActionExecutor, payload: Payload,
                       reply: Reply, parse: string -> Result<AIDecision>, now: int)
    requires agent.kind == AutoFixerKind && agent.bus == executor.bus && agent.bus.Valid()
    requires payload.AnomalyReport?
    modifies agent.bus, executor`requests
    ensures agent.bus.Valid()
    ensures var p := payload.anomalyProject;
            var decision := AnalyzeSituation(p, payload.anomalies, payload.anomalyMetrics, reply, parse);
            var first := Event(old(agent.bus.nextId), AiDecision, agent.name, now, DecisionReport(p, decision), None);
            var m := FixMetadata(p, "AI Recommendation: " + decision.reasoning);
            if Confident(decision) then
              && executor.requests == old(executor.requests) + [ActionRequest(decision.action.value, m)]
              && agent.bus.Emitted([first] + ExecutedEvents(old(agent.bus.nextId) + 1, decision.action.value, m, now))
            else
              && executor.requests == old(executor.requests)
              && agent.bus.Emitted([first])
  {
    var projectName := payload.anomalyProject;
    var decision := AnalyzeSituation(projectName, payload.anomalies, payload.anomalyMetrics, reply, parse);
    ghost var published0, pending0 := agent.bus.published, agent.bus.pending;
    var first := agent.Publish(AiDecision, DecisionReport(projectName, decision), None, now);
    ghost var rest := if Confident(decision) then ExecutedEvents(old(agent.bus.nextId) + 1, decision.action.value,
                                                                 FixMetadata(projectName, "AI Recommendation: " + decision.reasoning), now)
                      else [];
    ActOnDecision(agent, executor, projectName, decision, now);
    assert published0 + [first] + rest == published0 + ([first] + rest);
    assert pending0 + [first] + rest == pending0 + ([first] + rest);
  }

  /**
   * The gate of `handleAnomaly`: iff the decision is confident, its action is
   * requested, with the reasoning as the reason; otherwise nothing happens.
   */
  method ActOnDecision(agent: Agent, executor: ActionExecutor, projectName: string, decision: AIDecision, now: int)
    requires agent.kind == AutoFixerKind && agent.bus == executor.bus && agent.bus.Valid()
    modifies agent.bus, executor`requests
    ensures agent.bus.Valid()
    ensures var m := FixMetadata(projectName, "AI Recommendation: " + decision.reasoning);
            if Confident(decision) then
              && executor.requests == old(executor.requests) + [ActionRequest(decision.action.value, m)]
              && agent.bus.Emitted(ExecutedEvents(old(agent.bus.nextId), decision.action.value, m, now))
            else
              && executor.requests == old(executor.requests)
              && agent.bus.Emitted([])
  {
    if decision.action.Some? && decision.confidence > CONFIDENCE_THRESHOLD {
      var m := FixMetadata(projectName, "AI Recommendation: " + decision.reasoning);
      var _ := executor.ExecuteAction(decision.action.value, m, now);
    } else {
      assert agent.bus.published + [] == agent.bus.published && agent.bus.pending + [] == agent.bus.pending;
    }
  }


  /**
   * Whenever the oracle cannot be reached, answers without a block, or
   * answers something that does not parse, the fallback decision fails the
   * gate: the auto-fixer then publishes the decision and acts on nothing.
   */
  lemma FailedOracleNeverActs(p: string, anomalies: seq<Anomaly>, metrics: ProjectMetrics,
                              reply: Reply, parse: string -> Result<AIDecision>)
    requires ReplyJson(reply).None? || parse(ReplyJson(reply).value).Failure?
    ensures !Confident(AnalyzeSituation(p, anomalies, metrics, reply, parse))
  {
  }

  /** Only a parsed decision can pass the gate, and then it is passed on unchanged. */
  lemma ConfidentMeansParsed(p: string, anomalies: seq<Anomaly>, metrics: ProjectMetrics,
                             reply: Reply, parse: string -> Result<AIDecision>)
    requires Confident(AnalyzeSituation(p, anomalies, metrics, reply, parse))
    ensures ReplyJson(reply).Some? && parse(ReplyJson(reply).value).Success?
    ensures AnalyzeSituation(p, anomalies, metrics, reply, parse) == parse(ReplyJson(reply).value).value
  {
    if ReplyJson(reply).None? || parse(ReplyJson(reply).value).Failure? {
      FailedOracleNeverActs(p, anomalies, metrics, reply, parse);
    }
  }
}
