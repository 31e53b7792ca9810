/** app/services/assignment_service.py. */
module AssignmentService {
  import opened Wrappers
  import opened Models
  import opened Queries
  import opened Operations
  import opened Sessions

  method Assign(db: Session, rid: Id, iid: Id, from: Time, to: Time, isWfh: bool, actor: Id, now: Time) returns (r: Reply)
    modifies db
    ensures Performed(old(db.Snapshot()), PlanAssign(old(db.Snapshot()), rid, iid, from, to, isWfh, actor, now),
                      db.Snapshot(), r)
  {
    CommitOmits(db.Snapshot());
    if rid !in db.requests { return Raised(NotFound); }
    var request := db.requests[rid];
    if !request.status.PendingItApproval? { return Raised(Conflict); }
    if iid !in db.items { return Raised(NotFound); }
    var item := db.items[iid];
    if !item.status.Available? { return Raised(Conflict); }
    if item.categoryId != request.categoryId { return Raised(Validation); }
    if HasOverlap(db.requests, iid, from, to, Some(rid)) { return Raised(Conflict); }

    request := request.(item := Some(iid), assignedFrom := Some(from), assignedTo := Some(to), isWfh := isWfh);
    request := request.(decidedBy := Some(actor), decidedAt := Some(now), status := RequestStatus.Assigned);
    item := item.(status := DeviceStatus.Assigned, owner := Some(request.requester));
    db.PutRequest(rid, request);
    db.PutItem(iid, item, now);
    ClashAfterFlush(old(db.requests), rid, request);
    if db.Clashes(rid) { return Raised(IndexConflict); }

    db.Append(now, iid, DeviceLogEvent.Assigned, Some(actor), ItAdmin, requestId := Some(rid),
              fromValue := Some(Available), toValue := Some(DeviceStatus.Assigned));
    return Done;
  }

  method DirectAssign(db: Session, rid: Id, iid: Id, employee: Id, from: Time, to: Time, actor: Id, now: Time)
    returns (r: Reply)
    modifies db
    ensures Performed(old(db.Snapshot()), PlanDirectAssign(old(db.Snapshot()), rid, iid, employee, from, to, actor, now),
                      db.Snapshot(), r)
  {
    CommitOmits(db.Snapshot());
    if iid !in db.items { return Raised(NotFound); }
    var item := db.items[iid];
    if !item.ownerType.Client? { return Raised(Validation); }
    if !item.status.Available? { return Raised(Conflict); }
    if HasOverlap(db.requests, iid, from, to, None) { return Raised(Conflict); }
    if employee !in db.users { return Raised(NotFound); }
    if !db.users[employee].isActive { return Raised(Conflict); }

    var request := DirectRequest(item, iid, employee, from, to, actor, now);
    if rid in db.requests { return Raised(IndexConflict); }
    item := item.(status := DeviceStatus.Assigned, owner := Some(employee));
    db.PutRequest(rid, request);
    db.PutItem(iid, item, now);
    ClashAfterFlush(old(db.requests), rid, request);
    if db.Clashes(rid) { return Raised(IndexConflict); }

    db.Append(now, iid, ClientAssigned, Some(actor), ItAdmin, requestId := Some(rid),
              fromValue := Some(Available), toValue := Some(DeviceStatus.Assigned));
    return Done;
  }

  method UpdateBookingRange(db: Session, rid: Id, from: Time, to: Time) returns (r: Reply)
    modifies db
    ensures Performed(old(db.Snapshot()), PlanUpdateBookingRange(old(db.Snapshot()), rid, from, to), db.Snapshot(), r)
  {
    CommitOmits(db.Snapshot());
    if rid !in db.requests { return Raised(NotFound); }
    var request := db.requests[rid];
    if !request.status.Assigned? { return Raised(Conflict); }
    if request.item.None? { return Raised(AssertionCrash); }
    if HasOverlap(db.requests, request.item.value, from, to, Some(rid)) { return Raised(Conflict); }
    db.PutRequest(rid, request.(assignedFrom := Some(from), assignedTo := Some(to)));
    return Done;
  }
}
