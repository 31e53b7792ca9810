/** app/services/shipping_service.py. */
module ShippingService {
  import opened Wrappers
  import opened Models
  import opened Queries
  import opened Operations
  import opened Sessions

  method Ship(db: Session, rid: Id, actor: Id, now: Time) returns (r: Reply)
    modifies db
    ensures Performed(old(db.Snapshot()), PlanShip(old(db.Snapshot()), rid, actor, now), db.Snapshot(), r)
  {
    CommitOmits(db.Snapshot());
    if rid !in db.requests { return Raised(NotFound); }
    var request := db.requests[rid];
    if !request.isWfh { return Raised(Validation); }
    if request.item.None? { return Raised(Conflict); }
    var iid := request.item.value;
    if iid !in db.items { return Raised(NotFound); }
    var item := db.items[iid];
    if !item.status.Assigned? { return Raised(Conflict); }

    db.PutRequest(rid, request.(shipInitiatedAt := Some(now)));
    db.PutItem(iid, item.(status := ShippingPending), now);
    db.Append(now, iid, ShipOutboundInitiated, Some(actor), ItAdmin, requestId := Some(rid),
              fromValue := Some(DeviceStatus.Assigned), toValue := Some(ShippingPending));
    return Done;
  }

  method ConfirmDelivery(db: Session, rid: Id, actor: Id, now: Time) returns (r: Reply)
    modifies db
    ensures Performed(old(db.Snapshot()), PlanConfirmDelivery(old(db.Snapshot()), rid, actor, now), db.Snapshot(), r)
  {
    CommitOmits(db.Snapshot());
    if rid !in db.requests { return Raised(NotFound); }
    var request := db.requests[rid];
    if request.item.None? { return Raised(Conflict); }
    var iid := request.item.value;
    if iid !in db.items { return Raised(NotFound); }
    var item := db.items[iid];
    if !item.status.ShippingPending? { return Raised(Conflict); }

    db.PutRequest(rid, request.(shipCompletedAt := Some(now)));
    db.PutItem(iid, item.(status := DeviceStatus.Assigned), now);
    db.Append(now, iid, ShipOutboundCompleted, Some(actor), ItAdmin, requestId := Some(rid),
              fromValue := Some(ShippingPending), toValue := Some(DeviceStatus.Assigned));
    return Done;
  }

  lemma Regroup(log: seq<LogEntry>, a: LogEntry, b: LogEntry, rest: seq<LogEntry>)
    ensures log + [a] + [b] + rest == log + ([a, b] + rest)
  {
  }

  /** The state the flushes of `complete_return` build is the commit of its change. */
  lemma ReturnCommitted(
    s: State, rid: Id, iid: Id, next: DeviceStatus, actor: Id, now: Time, received: LogEntry, completed: LogEntry, after: State)
    requires rid in s.requests && iid in s.items
    requires received == StatusMove(now, iid, ReturnReceived, actor, s.items[iid].status, next).(requestId := Some(rid))
    requires completed == ItEntry(now, iid, AssignmentCompleted, actor).(requestId := Some(rid))
    requires after.requests == s.requests + map[rid := CompletedRequest(s.requests[rid], Some(next), actor, now)]
    requires after.items == s.items + map[iid := Touched(s.items[iid], s.items[iid].(status := next, owner := None), now)]
    requires after.extensions == s.extensions && after.users == s.users && after.categories == s.categories
    requires var open := OpenTickets(s.tickets, iid);
      && after.tickets == s.tickets + CascadeRows(s.tickets, open, now)
      && after.log == s.log + [received] + [completed] + ClosingEntries(now, iid, open)
    ensures after == Commit(s, ReturnWrites(s, rid, iid, next, actor, now))
  {
    CommitOmits(s);
    Regroup(s.log, received, completed, ClosingEntries(now, iid, OpenTickets(s.tickets, iid)));
  }

  method CompleteReturn(db: Session, rid: Id, next: DeviceStatus, actor: Id, now: Time) returns (r: Reply)
    modifies db
    ensures Performed(old(db.Snapshot()), PlanCompleteReturn(old(db.Snapshot()), rid, next, actor, now), db.Snapshot(), r)
  {
    if rid !in db.requests { return Raised(NotFound); }
    var request := db.requests[rid];
    if request.item.None? { return Raised(Conflict); }
    var iid := request.item.value;
    if iid !in db.items { return Raised(NotFound); }
    var status := db.items[iid].status;
    if !status.Assigned? && !status.ReturnShippingPending? { return Raised(Conflict); }
    Receive(db, rid, iid, next, actor, now);
    return Done;
  }

  /** The writing half of `complete_return`: the two rows, the two milestones, then the cascade. */
  method Receive(db: Session, rid: Id, iid: Id, next: DeviceStatus, actor: Id, now: Time)
    requires rid in db.requests && iid in db.items
    modifies db
    ensures db.Snapshot() == Commit(old(db.Snapshot()), ReturnWrites(old(db.Snapshot()), rid, iid, next, actor, now))
  {
    ghost var s := db.Snapshot();
    var request, item := db.requests[rid], db.items[iid];
    var fromStatus := item.status;
    request := request.(status := Completed, completedAt := Some(now), completedBy := Some(actor),
                        completedNextStatus := Some(next));
    item := item.(status := next, owner := None);
    db.PutRequest(rid, request);
    db.PutItem(iid, item, now);
    db.Append(now, iid, ReturnReceived, Some(actor), ItAdmin, requestId := Some(rid),
              fromValue := Some(fromStatus), toValue := Some(next));
    db.Append(now, iid, AssignmentCompleted, Some(actor), ItAdmin, requestId := Some(rid));
    ghost var received := StatusMove(now, iid, ReturnReceived, actor, fromStatus, next).(requestId := Some(rid));
    ghost var completed := ItEntry(now, iid, AssignmentCompleted, actor).(requestId := Some(rid));
    assert db.log == s.log + [received] + [completed];
    AutoCloseOpenSupport(db, iid, now);
    ReturnCommitted(s, rid, iid, next, actor, now, received, completed, db.Snapshot());
  }

  /** The tickets after closing those listed. */
  ghost predicate ClosedAmong(before: map<Id, Ticket>, after: map<Id, Ticket>, listed: seq<Id>, now: Time) {
    && after.Keys == before.Keys
    && forall t :: t in before ==> after[t] == if t in listed then AutoClosed(before[t], now) else before[t]
  }

  lemma ClosedOneMore(before: map<Id, Ticket>, after: map<Id, Ticket>, listed: seq<Id>, t: Id, now: Time)
    requires ClosedAmong(before, after, listed, now) && t in before && t !in listed
    ensures ClosedAmong(before, after + map[t := AutoClosed(before[t], now)], listed + [t], now)
  {
  }

  lemma ClosedAsMerge(before: map<Id, Ticket>, after: map<Id, Ticket>, listed: seq<Id>, now: Time)
    requires ClosedAmong(before, after, listed, now) && forall t :: t in listed ==> t in before
    ensures after == before + CascadeRows(before, listed, now)
  {
  }

  lemma OneMoreEntry(now: Time, iid: Id, listed: seq<Id>, t: Id)
    ensures ClosingEntries(now, iid, listed + [t]) == ClosingEntries(now, iid, listed) + [AutoClosedEntry(now, iid, t)]
  {
    assert (listed + [t])[..|listed|] == listed;
  }

  /** The loop of `_auto_close_open_support` over the tickets the query listed. */
  method CloseListed(db: Session, iid: Id, open: seq<Id>, now: Time)
    requires forall k :: 0 <= k < |open| ==> open[k] in db.tickets
    requires forall j, k :: 0 <= j < k < |open| ==> open[j] != open[k]
    modifies db`tickets, db`log
    ensures ClosedAmong(old(db.tickets), db.tickets, open, now)
    ensures db.log == old(db.log) + ClosingEntries(now, iid, open)
  {
    for k := 0 to |open|
      invariant ClosedAmong(old(db.tickets), db.tickets, open[..k], now)
      invariant db.log == old(db.log) + ClosingEntries(now, iid, open[..k])
    {
      var t := open[k];
      assert open[..k + 1] == open[..k] + [t];
      ClosedOneMore(old(db.tickets), db.tickets, open[..k], t, now);
      OneMoreEntry(now, iid, open[..k], t);
      var ticket := db.tickets[t];
      db.PutTicket(t, ticket.(status := Resolved, autoClosed := true, resolvedAt := Some(now)));
      db.Append(now, iid, SupportAutoClosed, None, System, ticketId := Some(t));
    }
    assert open[..|open|] == open;
  }

  /** `_auto_close_open_support`: resolves every open ticket of the item, in the order they were filed. */
  method AutoCloseOpenSupport(db: Session, iid: Id, now: Time)
    modifies db`tickets, db`log
    ensures var open := OpenTickets(old(db.tickets), iid);
      && db.tickets == old(db.tickets) + CascadeRows(old(db.tickets), open, now)
      && db.log == old(db.log) + ClosingEntries(now, iid, open)
  {
    var open := OpenTickets(db.tickets, iid);
    OpenTicketsAsFiled(db.tickets, iid);
    CloseListed(db, iid, open, now);
    ClosedAsMerge(old(db.tickets), db.tickets, open, now);
  }
}
