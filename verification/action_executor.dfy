/**
 * The action executor: decides by action type whether an action succeeds,
 * and publishes one `action_executed` event per success and none per failure.
 */
module ActionExecutor {
  import opened Wrappers
  import opened Types
  import opened EventBus

  /** One call of `executeAction`, as received. */
  datatype ActionRequest = ActionRequest(actionType: ActionType, metadata: ActionMetadata)

  /**
   * `performActionLogic`: restart, clear-cache and pause succeed; rollback
   * and escalate fall through to the default branch and fail.
   */
  function PerformActionLogic(t: ActionType): (ok: bool)
    ensures ok <==> t in {RestartService, ClearCache, PauseService}
  {
    match t
    case RestartService => true
    case ClearCache => true
    case PauseService => true
    case _ => false
  }

  /** The success event's payload. */
  function SuccessPayload(t: ActionType, metadata: ActionMetadata): Payload {
    ActionOutcome(t, metadata.projectName, "success", "Successfully executed " + t.Value())
  }

  class ActionExecutor {
    const bus: EventBus
    /** Every request received so far, in order. */
    ghost var requests: seq<ActionRequest>

    constructor (bus: EventBus)
      ensures this.bus == bus && requests == []
    {
      this.bus := bus;
      requests := [];
    }

    /**
     * Runs the action and reports whether it succeeded. On success exactly one
     * `action_executed` event from "ActionExecutor" is published; on failure
     * the bus is untouched. Nothing escapes: the result is the only outcome.
     */
    method ExecuteAction(t: ActionType, metadata: ActionMetadata, now: int) returns (ok: bool)
      requires bus.Valid()
      modifies this`requests, bus
      ensures bus.Valid()
      ensures requests == old(requests) + [ActionRequest(t, metadata)]
      ensures ok == PerformActionLogic(t)
      ensures ok ==> bus.Emitted([Event(old(bus.nextId), ActionExecuted, "ActionExecutor", now, SuccessPayload(t, metadata), None)])
      ensures !ok ==> bus.Emitted([])
      ensures ok <==> |bus.published| == |old(bus.published)| + 1
    {
      requests := requests + [ActionRequest(t, metadata)];
      var success := PerformActionLogic(t);
      if success {
        var ev, delivered := bus.Publish(ActionExecuted, "ActionExecutor", SuccessPayload(t, metadata), None, now);
        return true;
      } else {
        return false;
      }
    }
  }
}
