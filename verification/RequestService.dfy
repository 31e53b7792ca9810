/** app/services/request_service.py. */
module RequestService {
  import opened Wrappers
  import opened Models
  import opened Queries
  import opened Operations
  import opened Sessions

  method Reject(db: Session, rid: Id, actor: Id, now: Time) returns (r: Reply)
    modifies db
    ensures Performed(old(db.Snapshot()), PlanReject(old(db.Snapshot()), rid, actor, now), db.Snapshot(), r)
  {
    CommitOmits(db.Snapshot());
    if rid !in db.requests { return Raised(NotFound); }
    var request := db.requests[rid];
    if !request.status.PendingItApproval? { return Raised(Conflict); }
    request := request.(status := RequestStatus.Rejected, rejectedBy := Some(ByItAdmin));
    request := request.(decidedBy := Some(actor), decidedAt := Some(now));
    db.PutRequest(rid, request);
    return Done;
  }

  method Cancel(db: Session, rid: Id, actor: Id, now: Time) returns (r: Reply)
    modifies db
    ensures Performed(old(db.Snapshot()), PlanCancel(old(db.Snapshot()), rid, actor, now), db.Snapshot(), r)
  {
    CommitOmits(db.Snapshot());
    if rid !in db.requests { return Raised(NotFound); }
    var request := db.requests[rid];
    if Terminal(request.status) { return Raised(Conflict); }
    request := request.(status := Cancelled, cancelledBy := Some(actor), cancelledAt := Some(now));
    request := request.(rejectedBy := Some(ByItAdminCancel));
    db.PutRequest(rid, request);
    return Done;
  }

  method EscalateToManager(db: Session, rid: Id, manager: Option<Id>) returns (r: Reply)
    modifies db
    ensures Performed(old(db.Snapshot()), PlanEscalate(old(db.Snapshot()), rid, manager), db.Snapshot(), r)
  {
    CommitOmits(db.Snapshot());
    if rid !in db.requests { return Raised(NotFound); }
    var request := db.requests[rid];
    if !request.status.PendingItApproval? || request.requiresMgr { return Raised(Conflict); }
    var resolved := manager;
    if resolved.None? && request.requester in db.users {
      resolved := db.users[request.requester].managerId;
    }
    request := request.(requiresMgr := true, mgrApproval := MgrApproval.Pending, manager := resolved,
                        status := PendingMgrApproval);
    db.PutRequest(rid, request);
    ClashAfterFlush(old(db.requests), rid, request);
    if resolved.Some? && resolved.value !in db.users { return Raised(ForeignKeyCrash); }
    if db.Clashes(rid) { return Raised(IndexCrash); }
    return Done;
  }
}
