/**
 * The in-process event bus: a registry from event type to an ordered list of
 * handlers plus the '*' list, synchronous delivery on publish, and a
 * fire-and-forget audit write whose project name, description and severity
 * follow fixed rules.
 */
module EventBus {
  import opened Wrappers
  import opened Types
  import Strings

  /** Where a handler is registered: one event type, or the '*' key. */
  datatype Topic = On(eventType: EventType) | Wildcard

  /** The row written to the audit table for one event. */
  datatype AuditRecord = AuditRecord(
    projectName: string,
    eventType: EventType,
    description: string,
    severity: string,
    event: Event,
    occurredAt: int)

  /** How the audit insert settled: stored, an error reported by the sink, or a rejected call. */
  datatype SinkOutcome = Stored | SinkError(code: string, message: string) | SinkRejected(message: string)

  /** The "relation does not exist" code, which the bus does not even log. */
  const TABLE_MISSING := "42P01"

  /** Project name of the audit row: `payload.projectName`, or "system" when absent or empty. */
  function AuditProjectName(e: Event): (name: string)
    ensures Truthy(e.payload.ProjectNameField()) ==> name == e.payload.ProjectNameField().value
    ensures !Truthy(e.payload.ProjectNameField()) ==> name == "system"
  {
    var p := e.payload.ProjectNameField();
    if Truthy(p) then p.value else "system"
  }

  /** `payload.message` if present, else a fixed text for metrics, else "Event <type> from <source>". */
  function Description(e: Event): (d: string)
    ensures d != ""
    ensures Truthy(e.payload.MessageField()) ==> d == e.payload.MessageField().value
    ensures !Truthy(e.payload.MessageField()) && e.eventType == MetricsCollected ==> d == "Metrics collected"
    ensures !Truthy(e.payload.MessageField()) && e.eventType != MetricsCollected ==>
              d == "Event " + e.eventType.Value() + " from " + e.source
  {
    var m := e.payload.MessageField();
    if Truthy(m) then m.value
    else if e.eventType == MetricsCollected then "Metrics collected"
    else "Event " + e.eventType.Value() + " from " + e.source
  }

  /** `payload.severity` if present, else derived from substrings of the type's string. */
  function Severity(e: Event): string {
    var s := e.payload.SeverityField();
    var t := e.eventType.Value();
    if Truthy(s) then s.value
    else if Strings.Contains(t, "down") || Strings.Contains(t, "failed") then "critical"
    else if Strings.Contains(t, "degraded") || Strings.Contains(t, "anomaly") then "warning"
    else "info"
  }

  /** The audit row for an event, stamped with the event's own time. */
  function AuditRecordOf(e: Event): AuditRecord {
    AuditRecord(AuditProjectName(e), e.eventType, Description(e), Severity(e), e, e.timestamp)
  }

  /** The type-derived severity, written out for every event type. */
  lemma SeverityByType(e: Event)
    requires !Truthy(e.payload.SeverityField())
    ensures Severity(e) == "critical" <==> e.eventType in {ProjectDown, ActionFailed}
    ensures Severity(e) == "warning" <==> e.eventType in {ProjectDegraded, AnomalyDetected}
    ensures Severity(e) == "info" <==> e.eventType !in {ProjectDown, ActionFailed, ProjectDegraded, AnomalyDetected}
  {
    ContainsDown(e.eventType);
    ContainsFailed(e.eventType);
    ContainsDegraded(e.eventType);
    ContainsAnomaly(e.eventType);
  }

  lemma ContainsDown(t: EventType)
    ensures Strings.Contains(t.Value(), "down") <==> t == ProjectDown
  {
    match t
    case ProjectHealthChanged => NotContainsChar("project.health.changed", "down", 'w');
    case ProjectDown =>
      assert "project.down" == "project." + "down" + "";
      InfixContains("project.", "down", "");
    case ProjectDegraded => NotContainsChar("project.degraded", "down", 'w');
    case ProjectRecovered => NotContainsChar("project.recovered", "down", 'w');
    case MetricsCollected => NotContainsChar("metrics.collected", "down", 'w');
    case AnomalyDetected => NotContainsChar("anomaly_detected", "down", 'w');
    case ActionTriggered => NotContainsChar("action.triggered", "down", 'w');
    case ActionCompleted => NotContainsChar("action.completed", "down", 'w');
    case ActionFailed => NotContainsChar("action.failed", "down", 'w');
    case ActionExecuted => NotContainsChar("action_executed", "down", 'w');
    case AiDecision => NotContainsChar("ai_decision", "down", 'w');
  }

  lemma ContainsFailed(t: EventType)
    ensures Strings.Contains(t.Value(), "failed") <==> t == ActionFailed
  {
    match t
    case ProjectHealthChanged => NotContainsChar("project.health.changed", "failed", 'f');
    case ProjectDown => NotContainsChar("project.down", "failed", 'f');
    case ProjectDegraded => NotContainsChar("project.degraded", "failed", 'f');
    case ProjectRecovered => NotContainsChar("project.recovered", "failed", 'f');
    case MetricsCollected => NotContainsChar("metrics.collected", "failed", 'f');
    case AnomalyDetected => NotContainsChar("anomaly_detected", "failed", 'f');
    case ActionTriggered => NotContainsChar("action.triggered", "failed", 'f');
    case ActionCompleted => NotContainsChar("action.completed", "failed", 'f');
    case ActionFailed =>
      assert "action.failed" == "action." + "failed" + "";
      InfixContains("action.", "failed", "");
    case ActionExecuted => NotContainsChar("action_executed", "failed", 'f');
    case AiDecision => NotContainsChar("ai_decision", "failed", 'f');
  }

  lemma ContainsDegraded(t: EventType)
    ensures Strings.Contains(t.Value(), "degraded") <==> t == ProjectDegraded
  {
    match t
    case ProjectDegraded =>
      assert "project.degraded" == "project." + "degraded" + "";
      InfixContains("project.", "degraded", "");
    case ProjectHealthChanged => NotContainsNear("project.health.changed", "degraded", 2);
    case ActionTriggered => NotContainsNear("action.triggered", "degraded", 4);
    case ProjectDown => NotContainsChar("project.down", "degraded", 'g');
    case ProjectRecovered => NotContainsChar("project.recovered", "degraded", 'g');
    case MetricsCollected => NotContainsChar("metrics.collected", "degraded", 'g');
    case AnomalyDetected => NotContainsChar("anomaly_detected", "degraded", 'g');
    case ActionCompleted => NotContainsChar("action.completed", "degraded", 'g');
    case ActionFailed => NotContainsChar("action.failed", "degraded", 'g');
    case ActionExecuted => NotContainsChar("action_executed", "degraded", 'g');
    case AiDecision => NotContainsChar("ai_decision", "degraded", 'g');
  }

  lemma ContainsAnomaly(t: EventType)
    ensures Strings.Contains(t.Value(), "anomaly") <==> t == AnomalyDetected
  {
    match t
    case ProjectHealthChanged => NotContainsChar("project.health.changed", "anomaly", 'y');
    case ProjectDown => NotContainsChar("project.down", "anomaly", 'y');
    case ProjectDegraded => NotContainsChar("project.degraded", "anomaly", 'y');
    case ProjectRecovered => NotContainsChar("project.recovered", "anomaly", 'y');
    case MetricsCollected => NotContainsChar("metrics.collected", "anomaly", 'y');
    case AnomalyDetected =>
      assert "anomaly_detected" == "" + "anomaly" + "_detected";
      InfixContains("", "anomaly", "_detected");
    case ActionTriggered => NotContainsChar("action.triggered", "anomaly", 'y');
    case ActionCompleted => NotContainsChar("action.completed", "anomaly", 'y');
    case ActionFailed => NotContainsChar("action.failed", "anomaly", 'y');
    case ActionExecuted => NotContainsChar("action_executed", "anomaly", 'y');
    case AiDecision => NotContainsChar("ai_decision", "anomaly", 'y');
  }

  /** Handlers registered for one event type, in registration order. */
  function Registered(listeners: map<EventType, seq<HandlerId>>, t: EventType): seq<HandlerId> {
    if t in listeners then listeners[t] else []
  }

  /** Who a publish of type `t` reaches: that type's handlers, then the '*' handlers. */
  function Deliveries(listeners: map<EventType, seq<HandlerId>>, wildcard: seq<HandlerId>, t: EventType): seq<HandlerId> {
    Registered(listeners, t) + wildcard
  }

  /** The registry after appending `h` to the list of `t`. */
  function WithHandler(listeners: map<EventType, seq<HandlerId>>, t: EventType, h: HandlerId): (r: map<EventType, seq<HandlerId>>)
    ensures Registered(r, t) == Registered(listeners, t) + [h]
    ensures forall u :: u != t ==> Registered(r, u) == Registered(listeners, u)
  {
    listeners[t := Registered(listeners, t) + [h]]
  }

  /**
   * Subscribing `h` to `t` adds exactly one delivery of `h` to every publish
   * of `t`, at the end of that type's list and before the '*' handlers, and
   * changes no other type's deliveries; so a handler subscribed twice runs twice.
   */
  lemma {:induction false} SubscribeAddsOneDelivery(
    listeners: map<EventType, seq<HandlerId>>, wildcard: seq<HandlerId>, t: EventType, h: HandlerId, u: EventType)
    ensures var after := Deliveries(WithHandler(listeners, t, h), wildcard, u);
            var before := Deliveries(listeners, wildcard, u);
            if u == t then
              after == Registered(listeners, t) + [h] + wildcard
              && multiset(after)[h] == multiset(before)[h] + 1
            else after == before
  {
    if u == t {
      var r := Registered(listeners, t);
      assert Deliveries(WithHandler(listeners, t, h), wildcard, u) == r + [h] + wildcard;
      calc {
        multiset(r + [h] + wildcard)[h];
        (multiset(r) + multiset([h]) + multiset(wildcard))[h];
        multiset(r)[h] + 1 + multiset(wildcard)[h];
        multiset(r + wildcard)[h] + 1;
      }
    }
  }

  class EventBus {
    var listeners: map<EventType, seq<HandlerId>>
    var wildcard: seq<HandlerId>
    /** Events emitted whose audit insert has not settled yet, oldest first. */
    var pending: seq<Event>
    /** Audit rows the sink accepted. */
    var audit: seq<AuditRecord>
    /** Error lines written for failed audit inserts. */
    var log: seq<string>
    var nextId: nat
    /** Every event published so far, in publish order. */
    ghost var published: seq<Event>

    ghost predicate Valid()
      reads this
    {
      && nextId == |published|
      && (forall i :: 0 <= i < |published| ==> published[i].id == i)
      && |pending| <= |published|
      && pending == published[|published| - |pending|..]
    }

    /** The bus appended `evs` to the published events and the audit queue, and changed nothing else. */
    twostate predicate Emitted(evs: seq<Event>)
      reads this
    {
      && published == old(published) + evs
      && pending == old(pending) + evs
      && nextId == old(nextId) + |evs|
      && listeners == old(listeners)
      && wildcard == old(wildcard)
      && audit == old(audit)
      && log == old(log)
    }

    constructor ()
      ensures Valid()
      ensures listeners == map[] && wildcard == []
      ensures pending == [] && audit == [] && log == [] && published == []
    {
      listeners, wildcard := map[], [];
      pending, audit, log := [], [], [];
      nextId := 0;
      published := [];
    }

    /**
     * Builds the event with a fresh id and delivers it at once to the
     * handlers of its type, then to the '*' handlers; the audit insert is
     * only queued, so its outcome cannot hold up or undo the delivery.
     */
    method Publish(t: EventType, source: string, payload: Payload, metadata: Option<map<string, string>>, now: int)
      returns (ev: Event, delivered: seq<HandlerId>)
      requires Valid()
      modifies this
      ensures Valid()
      ensures ev == Event(old(nextId), t, source, now, payload, metadata)
      ensures forall e :: e in old(published) ==> e.id != ev.id
      ensures delivered == Deliveries(old(listeners), old(wildcard), t)
      ensures Emitted([ev])
    {
      ev := Event(nextId, t, source, now, payload, metadata);
      delivered := Deliveries(listeners, wildcard, t);
      published := published + [ev];
      pending := pending + [ev];
      nextId := nextId + 1;
    }

    /** Appends `h` to the handlers of `topic`; nothing is ever de-duplicated. */
    method Subscribe(topic: Topic, h: HandlerId)
      requires Valid()
      modifies this
      ensures Valid()
      ensures topic.On? ==> listeners == WithHandler(old(listeners), topic.eventType, h) && wildcard == old(wildcard)
      ensures topic.Wildcard? ==> listeners == old(listeners) && wildcard == old(wildcard) + [h]
      ensures published == old(published) && pending == old(pending) && nextId == old(nextId)
      ensures audit == old(audit) && log == old(log)
    {
      match topic
      case On(t) => listeners := WithHandler(listeners, t, h);
      case Wildcard => wildcard := wildcard + [h];
    }

    /** Removes every handler, the '*' ones included. */
    method Close()
      requires Valid()
      modifies this
      ensures Valid()
      ensures listeners == map[] && wildcard == []
      ensures forall t :: Deliveries(listeners, wildcard, t) == []
      ensures published == old(published) && pending == old(pending) && nextId == old(nextId)
      ensures audit == old(audit) && log == old(log)
    {
      listeners, wildcard := map[], [];
    }

    /**
     * The oldest queued audit insert settles with `outcome`: a stored row is
     * kept; a sink error is logged unless it is the missing-table code; a
     * rejected call is logged. Handlers and published events are untouched.
     */
    method SettleAudit(outcome: SinkOutcome)
      requires Valid() && pending != []
      modifies this
      ensures Valid()
      ensures pending == old(pending)[1..]
      ensures outcome.Stored? ==> audit == old(audit) + [AuditRecordOf(old(pending)[0])] && log == old(log)
      ensures outcome.SinkError? ==> audit == old(audit)
      ensures outcome.SinkError? && outcome.code == TABLE_MISSING ==> log == old(log)
      ensures outcome.SinkError? && outcome.code != TABLE_MISSING ==>
                log == old(log) + ["[EventBus] Supabase insert error: " + outcome.message]
      ensures outcome.SinkRejected? ==>
                audit == old(audit) && log == old(log) + ["[EventBus] Failed to persist event to Supabase: " + outcome.message]
      ensures listeners == old(listeners) && wildcard == old(wildcard)
      ensures published == old(published) && nextId == old(nextId)
    {
      var ev := pending[0];
      pending := pending[1..];
      match outcome
      case Stored =>
        audit := audit + [AuditRecordOf(ev)];
      case SinkError(code, message) =>
        if code != TABLE_MISSING {
          log := log + ["[EventBus] Supabase insert error: " + message];
        }
      case SinkRejected(message) =>
        log := log + ["[EventBus] Failed to persist event to Supabase: " + message];
    }
  }

  /** A string made of a prefix, `sub` and a suffix contains `sub`. */
  lemma InfixContains(prefix: string, sub: string, suffix: string)
    ensures Strings.Contains(prefix + sub + suffix, sub)
  {
    var s := prefix + sub + suffix;
    assert s[|prefix|..|prefix| + |sub|] == sub;
    assert Strings.OccursAt(s, sub, |prefix|);
    Strings.ContainsAt(s, sub);
  }

  /** A string lacking one of the characters of `sub` does not contain `sub`. */
  lemma NotContainsChar(s: string, sub: string, c: char)
    requires c in sub && c !in s
    ensures !Strings.Contains(s, sub)
  {
    Strings.ContainsAt(s, sub);
  }

  /**
   * `sub` does not occur in `s` when its `k`-th character is missing from
   * every position of `s` where an occurrence would put it.
   */
  lemma NotContainsNear(s: string, sub: string, k: nat)
    requires k < |sub| <= |s|
    requires sub[k] !in s[k..|s| - |sub| + k + 1]
    ensures !Strings.Contains(s, sub)
  {
    Strings.ContainsAt(s, sub);
    forall i | 0 <= i <= |s| - |sub|
      ensures !Strings.OccursAt(s, sub, i)
    {
      assert s[i..i + |sub|][k] == s[k..|s| - |sub| + k + 1][i];
    }
  }

}
