/**
 * The agent framework: a running flag flipped by `start`/`stop`, whose
 * `onStart`/`onStop` hooks fire only on a real transition, and `publish`/
 * `subscribe` that forward to the bus with the agent's name as the source.
 * The three concrete agents differ only in what `onStart` subscribes; their
 * `onStop` hooks do nothing.
 */
module Agents {
  import opened Wrappers
  import opened Types
  import opened EventBus

  datatype AgentKind = HealthMonitorKind | MetricsAnalyzerKind | AutoFixerKind

  /** A lifecycle hook invocation, as traced by an agent. */
  datatype Hook = OnStart | OnStop

  function NameOf(kind: AgentKind): string {
    match kind
    case HealthMonitorKind => "HealthMonitorAgent"
    case MetricsAnalyzerKind => "MetricsAnalyzerAgent"
    case AutoFixerKind => "AutoFixerAgent"
  }

  /** What each agent's `onStart` registers, in order. */
  function Subscriptions(kind: AgentKind): seq<(EventType, HandlerId)> {
    match kind
    case HealthMonitorKind => [(ProjectHealthChanged, HealthChangeHandler)]
    case MetricsAnalyzerKind => [(MetricsCollected, MetricsHandler)]
    case AutoFixerKind => [(AnomalyDetected, AnomalyHandler), (ProjectDown, ProjectDownHandler)]
  }

  /** The registry after subscribing each pair of `subs` in turn. */
  function WithHandlers(listeners: map<EventType, seq<HandlerId>>, subs: seq<(EventType, HandlerId)>): map<EventType, seq<HandlerId>>
    decreases |subs|
  {
    if subs == [] then listeners
    else WithHandlers(WithHandler(listeners, subs[0].0, subs[0].1), subs[1..])
  }

  /**
   * Each agent's `onStart` adds its handler at the end of the list of each
   * type it listens to, and leaves every other type's list as it was: the
   * health monitor only `project.health.changed`, the metrics analyzer only
   * `metrics.collected`, the auto-fixer exactly `anomaly_detected` and
   * `project.down`.
   */
  lemma StartSubscriptions(kind: AgentKind, listeners: map<EventType, seq<HandlerId>>, t: EventType)
    ensures var after := Registered(WithHandlers(listeners, Subscriptions(kind)), t);
            var before := Registered(listeners, t);
            match kind
            case HealthMonitorKind =>
              after == if t == ProjectHealthChanged then before + [HealthChangeHandler] else before
            case MetricsAnalyzerKind =>
              after == if t == MetricsCollected then before + [MetricsHandler] else before
            case AutoFixerKind =>
              after == if t == AnomalyDetected then before + [AnomalyHandler]
                       else if t == ProjectDown then before + [ProjectDownHandler]
                       else before
  {
    var subs := Subscriptions(kind);
    if kind == AutoFixerKind {
      var mid := WithHandler(listeners, AnomalyDetected, AnomalyHandler);
      assert subs[1..] == [(ProjectDown, ProjectDownHandler)];
      assert subs[1..][1..] == [];
      assert WithHandlers(listeners, subs) == WithHandlers(mid, subs[1..]);
      assert WithHandlers(mid, subs[1..]) == WithHandler(mid, ProjectDown, ProjectDownHandler);
    } else {
      assert WithHandlers(listeners, subs) == WithHandler(listeners, subs[0].0, subs[0].1);
    }
  }

  class Agent {
    const kind: AgentKind
    const name: string
    const bus: EventBus
    var running: bool
    /** The lifecycle hooks called so far, in order. */
    ghost var hooks: seq<Hook>

    constructor (kind: AgentKind, bus: EventBus)
      ensures this.kind == kind && this.bus == bus && name == NameOf(kind)
      ensures !running && hooks == []
    {
      this.kind := kind;
      this.bus := bus;
      name := NameOf(kind);
      running := false;
      hooks := [];
    }

    /**
     * On a stopped agent: sets running, then calls `onStart` once, which
     * registers the agent's handlers. On a running agent: nothing at all.
     */
    method Start()
      requires bus.Valid()
      modifies this, bus
      ensures bus.Valid()
      ensures running
      ensures old(running) ==> hooks == old(hooks) && unchanged(bus)
      ensures !old(running) ==> hooks == old(hooks) + [OnStart]
      ensures !old(running) ==> bus.listeners == WithHandlers(old(bus.listeners), Subscriptions(kind))
      ensures bus.wildcard == old(bus.wildcard) && bus.published == old(bus.published)
      ensures bus.pending == old(bus.pending) && bus.nextId == old(bus.nextId)
      ensures bus.audit == old(bus.audit) && bus.log == old(bus.log)
    {
      if running {
        return;
      }
      running := true;
      OnStartHook();
    }

    /** On a running agent: clears running, then calls `onStop` once. On a stopped agent: nothing. */
    method Stop()
      modifies this
      ensures !running
      ensures old(running) ==> hooks == old(hooks) + [OnStop]
      ensures !old(running) ==> hooks == old(hooks)
    {
      if !running {
        return;
      }
      running := false;
      hooks := hooks + [OnStop];
    }

    /** `onStart`: subscribes the agent's handlers (see `Subscriptions`). */
    method OnStartHook()
      requires bus.Valid()
      modifies this`hooks, bus
      ensures bus.Valid()
      ensures hooks == old(hooks) + [OnStart]
      ensures bus.listeners == WithHandlers(old(bus.listeners), Subscriptions(kind))
      ensures bus.wildcard == old(bus.wildcard) && bus.published == old(bus.published)
      ensures bus.pending == old(bus.pending) && bus.nextId == old(bus.nextId)
      ensures bus.audit == old(bus.audit) && bus.log == old(bus.log)
    {
      hooks := hooks + [OnStart];
      ghost var before := bus.listeners;
      match kind
      case HealthMonitorKind =>
        Subscribe(ProjectHealthChanged, HealthChangeHandler);
      case MetricsAnalyzerKind =>
        Subscribe(MetricsCollected, MetricsHandler);
      case AutoFixerKind =>
        Subscribe(AnomalyDetected, AnomalyHandler);
        Subscribe(ProjectDown, ProjectDownHandler);
        ghost var subs := Subscriptions(kind);
        assert subs[1..][1..] == [];
        ghost var mid := WithHandler(before, AnomalyDetected, AnomalyHandler);
        assert WithHandlers(before, subs) == WithHandlers(mid, subs[1..]);
        assert WithHandlers(mid, subs[1..]) == WithHandlers(WithHandler(mid, ProjectDown, ProjectDownHandler), []);
    }

    /** Forwards to the bus with this agent's name as the source, payload and metadata unchanged. */
    method Publish(t: EventType, payload: Payload, metadata: Option<map<string, string>>, now: int) returns (ev: Event)
      requires bus.Valid()
      modifies bus
      ensures bus.Valid()
      ensures ev == Event(old(bus.nextId), t, name, now, payload, metadata)
      ensures bus.Emitted([ev])
    {
      var delivered;
      ev, delivered := bus.Publish(t, name, payload, metadata, now);
    }

    /** Forwards to the bus. */
    method Subscribe(t: EventType, h: HandlerId)
      requires bus.Valid()
      modifies bus
      ensures bus.Valid()
      ensures bus.listeners == WithHandler(old(bus.listeners), t, h)
      ensures bus.wildcard == old(bus.wildcard) && bus.published == old(bus.published)
      ensures bus.pending == old(bus.pending) && bus.nextId == old(bus.nextId)
      ensures bus.audit == old(bus.audit) && bus.log == old(bus.log)
    {
      bus.Subscribe(On(t), h);
    }
  }

  /**
   * Repeated starts and stops: only the first start of a stopped agent and
   * the first stop of a running one reach the hooks, and start followed by
   * stop leaves the agent stopped.
   */
  method LifecycleScenario(bus: EventBus)
    requires bus.Valid() && bus.listeners == map[]
    modifies bus
  {
    var a := new Agent(HealthMonitorKind, bus);
    a.Start();
    a.Start();
    a.Start();
    assert a.hooks == [OnStart];
    StartSubscriptions(HealthMonitorKind, map[], ProjectHealthChanged);
    assert Registered(bus.listeners, ProjectHealthChanged) == [HealthChangeHandler];
    a.Stop();
    a.Stop();
    assert !a.running && a.hooks == [OnStart, OnStop];
    a.Start();
    assert a.running && a.hooks == [OnStart, OnStop, OnStart];
  }
}
