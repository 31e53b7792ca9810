/** app/services/support_service.py. */
module SupportService {
  import opened Wrappers
  import opened Models
  import opened Queries
  import opened Operations
  import opened Sessions

  method Start(db: Session, tid: Id, actor: Id, now: Time) returns (r: Reply)
    modifies db
    ensures Performed(old(db.Snapshot()), PlanStart(old(db.Snapshot()), tid, actor, now), db.Snapshot(), r)
  {
    CommitOmits(db.Snapshot());
    if tid !in db.tickets { return Raised(NotFound); }
    var ticket := db.tickets[tid];
    if !ticket.status.Open? { return Raised(Conflict); }
    db.PutTicket(tid, ticket.(status := InProgress));

    if ticket.kind.Damage? {
      if ticket.itemId !in db.items { return Raised(NotFound); }
      var item := db.items[ticket.itemId];
      var fromStatus := item.status;
      db.PutItem(ticket.itemId, item.(status := UnderRepair), now);
      db.Append(now, ticket.itemId, StatusChanged, Some(actor), ItAdmin, ticketId := Some(tid),
                fromValue := Some(fromStatus), toValue := Some(UnderRepair));
    }
    return Done;
  }

  /** `_repair_in_place`. */
  method RepairInPlace(db: Session, tid: Id, ticket: Ticket, actor: Id, now: Time) returns (r: Reply)
    requires ticket.itemId in db.items
    modifies db
    ensures Performed(old(db.Snapshot()), PlanRepair(old(db.Snapshot()), tid, ticket, actor, now), db.Snapshot(), r)
  {
    CommitOmits(db.Snapshot());
    var item := db.items[ticket.itemId];
    if !item.status.UnderRepair? { return Raised(Conflict); }
    db.PutItem(ticket.itemId, item.(status := DeviceStatus.Assigned), now);
    db.Append(now, ticket.itemId, StatusChanged, Some(actor), ItAdmin, ticketId := Some(tid),
              fromValue := Some(UnderRepair), toValue := Some(DeviceStatus.Assigned));
    return Done;
  }

  lemma TwoItems(items: map<Id, Item>, a: Id, x: Item, b: Id, y: Item)
    ensures items + map[a := x] + map[b := y] == items + map[a := x, b := y]
  {
  }

  /** `_swap`: the request is repointed, the old device released, the new one handed over. */
  method Swap(db: Session, tid: Id, ticket: Ticket, to: Id, oldNext: DeviceStatus, actor: Id, now: Time)
    returns (r: Reply)
    requires ticket.itemId in db.items
    modifies db
    ensures Performed(old(db.Snapshot()), PlanSwap(old(db.Snapshot()), tid, ticket, to, oldNext, actor, now),
                      db.Snapshot(), r)
  {
    var oldItem := db.items[ticket.itemId];
    if to == ticket.itemId { return Raised(Validation); }
    if ticket.requestId.None? { return Raised(Conflict); }
    if to !in db.items { return Raised(NotFound); }
    var newItem := db.items[to];
    if newItem.categoryId != oldItem.categoryId { return Raised(Validation); }
    if !newItem.status.Available? { return Raised(Conflict); }
    if ticket.requestId.value !in db.requests { return Raised(NotFound); }
    r := Repoint(db, tid, ticket, to, oldNext, actor, now);
  }

  /** The writing half of `_swap`: three rows flushed, then two milestone entries. */
  method Repoint(db: Session, tid: Id, ticket: Ticket, to: Id, oldNext: DeviceStatus, actor: Id, now: Time)
    returns (r: Reply)
    requires ticket.itemId in db.items && to in db.items && to != ticket.itemId
    requires ticket.requestId.Some? && ticket.requestId.value in db.requests
    modifies db
    ensures var s := old(db.Snapshot());
      var c := SwapWrites(s, tid, ticket, to, oldNext, actor, now);
      var rid := ticket.requestId.value;
      Performed(s, if Collides(s.requests, rid, c.requests[rid]) then Failure(IndexCrash) else Success(c), db.Snapshot(), r)
  {
    CommitOmits(db.Snapshot());
    var rid := ticket.requestId.value;
    var request, oldItem, newItem := db.requests[rid], db.items[ticket.itemId], db.items[to];
    request := request.(item := Some(to));
    oldItem := oldItem.(status := oldNext, owner := None);
    newItem := newItem.(status := DeviceStatus.Assigned, owner := Some(request.requester));
    db.PutRequest(rid, request);
    db.PutItem(ticket.itemId, oldItem, now);
    db.PutItem(to, newItem, now);
    ClashAfterFlush(old(db.requests), rid, request);
    if db.Clashes(rid) { return Raised(IndexCrash); }

    TwoItems(old(db.items), ticket.itemId, db.items[ticket.itemId], to, db.items[to]);
    assert db.items == old(db.items) + SwapWrites(old(db.Snapshot()), tid, ticket, to, oldNext, actor, now).items;
    db.Append(now, ticket.itemId, SwappedOut, Some(actor), ItAdmin, requestId := Some(rid), ticketId := Some(tid),
              milestone := Some(true));
    db.Append(now, to, SwappedIn, Some(actor), ItAdmin, requestId := Some(rid), ticketId := Some(tid),
              milestone := Some(true));
    return Done;
  }

  /** `_mark_lost`. */
  method MarkLost(db: Session, tid: Id, ticket: Ticket, actor: Id, now: Time) returns (r: Reply)
    requires ticket.itemId in db.items
    modifies db
    ensures Performed(old(db.Snapshot()), PlanMarkLost(old(db.Snapshot()), tid, ticket, actor, now), db.Snapshot(), r)
  {
    CommitOmits(db.Snapshot());
    if ticket.requestId.None? { return Raised(Conflict); }
    var rid := ticket.requestId.value;
    if rid !in db.requests { return Raised(NotFound); }
    var request, item := db.requests[rid], db.items[ticket.itemId];

    var fromStatus := item.status;
    db.PutItem(ticket.itemId, item.(status := DeviceStatus.Lost), now);
    request := request.(status := Completed, completedAt := Some(now), completedBy := Some(actor), completedNextStatus := None);
    db.PutRequest(rid, request);
    db.Append(now, ticket.itemId, DeviceLogEvent.MarkedLost, Some(actor), ItAdmin, requestId := Some(rid), ticketId := Some(tid),
              fromValue := Some(fromStatus), toValue := Some(DeviceStatus.Lost));
    return Done;
  }

  method Branch(db: Session, tid: Id, ticket: Ticket, action: Action, actor: Id, now: Time) returns (r: Reply)
    requires ticket.itemId in db.items
    modifies db
    ensures Performed(old(db.Snapshot()), PlanBranch(old(db.Snapshot()), tid, ticket, action, actor, now), db.Snapshot(), r)
  {
    match action {
      case DoRemote => CommitOmits(db.Snapshot()); r := Done;
      case DoRepair => r := RepairInPlace(db, tid, ticket, actor, now);
      case DoSwap(to, oldNext) => r := Swap(db, tid, ticket, to, oldNext, actor, now);
      case DoLost => r := MarkLost(db, tid, ticket, actor, now);
    }
  }

  /** No branch writes a ticket, so the closing is the only ticket row of the call. */
  lemma ClosingCommit(s: State, b: Change, tid: Id, t: Ticket, action: Action, actor: Id, now: Time, after: State)
    requires b.tickets == map[]
    requires var m := Commit(s, b);
      && after.items == m.items && after.requests == m.requests && after.extensions == m.extensions
      && after.users == m.users && after.categories == m.categories
      && after.tickets == m.tickets + map[tid := ResolvedTicket(t, action, actor, now)]
      && after.log == m.log + [ItEntry(now, t.itemId, SupportResolved, actor).(ticketId := Some(tid))]
    ensures after == Commit(s, Closing(b, tid, t, action, actor, now))
  {
    CommitOmits(s);
    assert after.log == s.log + (b.entries + [ItEntry(now, t.itemId, SupportResolved, actor).(ticketId := Some(tid))]);
  }

  method Resolve(db: Session, tid: Id, action: Action, actor: Id, now: Time) returns (r: Reply)
    modifies db
    ensures Performed(old(db.Snapshot()), PlanResolve(old(db.Snapshot()), tid, action, actor, now), db.Snapshot(), r)
  {
    ghost var s := db.Snapshot();
    if tid !in db.tickets { return Raised(NotFound); }
    var ticket := db.tickets[tid];
    if ticket.status.Resolved? { return Raised(Conflict); }
    if ticket.itemId !in db.items { return Raised(NotFound); }

    r := Branch(db, tid, ticket, action, actor, now);
    if r.Raised? { return; }
    ghost var b := PlanBranch(s, tid, ticket, action, actor, now).value;

    var closed := ticket.(status := Resolved, resolution := Some(action.Resolution()), resolvedBy := Some(actor),
                             resolvedAt := Some(now));
    if action.DoSwap? { closed := closed.(swappedTo := Some(action.to)); }
    db.PutTicket(tid, closed);
    db.Append(now, ticket.itemId, SupportResolved, Some(actor), ItAdmin, ticketId := Some(tid));
    ClosingCommit(s, b, tid, ticket, action, actor, now, db.Snapshot());
  }
}
