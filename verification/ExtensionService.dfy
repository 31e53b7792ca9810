/** app/services/extension_service.py. */
module ExtensionService {
  import opened Wrappers
  import opened Models
  import opened Operations
  import opened Sessions

  method Approve(db: Session, xid: Id, actor: Id, now: Time) returns (r: Reply)
    modifies db
    ensures Performed(old(db.Snapshot()), PlanExtensionApprove(old(db.Snapshot()), xid, actor, now), db.Snapshot(), r)
  {
    CommitOmits(db.Snapshot());
    if xid !in db.extensions { return Raised(NotFound); }
    var extension := db.extensions[xid];
    if !extension.status.Pending? { return Raised(Conflict); }
    if !extension.mgrApproval.NotRequired? && !extension.mgrApproval.Approved? { return Raised(Conflict); }
    var rid := extension.requestId;
    if rid !in db.requests { return Raised(NotFound); }
    var parent := db.requests[rid];
    parent := parent.(assignedTo := Some(extension.extendedTo));
    db.PutRequest(rid, parent);
    db.PutExtension(xid, extension.(status := ExtensionStatus.Approved, decidedBy := Some(actor), decidedAt := Some(now)));
    if parent.item.None? { return Raised(AssertionCrash); }
    db.Append(now, parent.item.value, ExtensionApproved, Some(actor), ItAdmin, requestId := Some(rid), extensionId := Some(xid),
              milestone := Some(false));
    return Done;
  }

  method Reject(db: Session, xid: Id, actor: Id, now: Time) returns (r: Reply)
    modifies db
    ensures Performed(old(db.Snapshot()), PlanExtensionReject(old(db.Snapshot()), xid, actor, now), db.Snapshot(), r)
  {
    CommitOmits(db.Snapshot());
    if xid !in db.extensions { return Raised(NotFound); }
    var extension := db.extensions[xid];
    if !extension.status.Pending? { return Raised(Conflict); }
    var rid := extension.requestId;
    if rid !in db.requests { return Raised(NotFound); }
    var parent := db.requests[rid];
    db.PutExtension(xid, extension.(status := ExtensionStatus.Rejected, decidedBy := Some(actor), decidedAt := Some(now)));
    if parent.item.None? { return Raised(AssertionCrash); }
    db.Append(now, parent.item.value, ExtensionRejected, Some(actor), ItAdmin, requestId := Some(rid), extensionId := Some(xid),
              milestone := Some(false));
    return Done;
  }
}
