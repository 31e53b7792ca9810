/** app/services/device_log_service.py: entry construction, the milestone map and the timeline view. */
module DeviceLog {
  import opened Wrappers
  import opened Models

  /** EVENT_MILESTONE_MAP. */
  predicate EventMilestone(event: DeviceLogEvent) {
    || event.Assigned? || event.ClientAssigned? || event.ReturnReceived? || event.AssignmentCompleted?
    || event.StatusChanged? || event.SupportOpened? || event.SupportResolved?
    || event.HandoverAccepted? || event.HandoverCompleted?
    || event.MarkedLost? || event.Retired? || event.ReturnedToClient?
  }

  /** The row `DeviceLogService.append` inserts; an explicit milestone flag overrides the map. */
  function NewEntry(
    now: Time, itemId: Id, event: DeviceLogEvent, actorId: Option<Id>, actorRole: ActorRole,
    requestId: Option<Id> := None, ticketId: Option<Id> := None, extensionId: Option<Id> := None,
    fromValue: Option<DeviceStatus> := None, toValue: Option<DeviceStatus> := None,
    milestone: Option<bool> := None): LogEntry
  {
    LogEntry(itemId, event, actorId, actorRole, requestId, ticketId, extensionId,
             fromValue, toValue, milestone.GetOr(EventMilestone(event)), now)
  }

  /** `get_timeline`: the entries of one item, optionally only the milestones, in append order. */
  function Timeline(log: seq<LogEntry>, item: Id, milestonesOnly: bool): seq<LogEntry> {
    if log == [] then []
    else
      var rest := Timeline(log[..|log| - 1], item, milestonesOnly);
      var e := log[|log| - 1];
      if e.itemId == item && (milestonesOnly ==> e.isMilestone) then rest + [e] else rest
  }
}
