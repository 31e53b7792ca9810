/** app/services/user_service.py. */
module UserService {
  import opened Wrappers
  import opened Models
  import opened Queries
  import opened Operations
  import opened Sessions

  method Deactivate(db: Session, uid: Id) returns (r: Reply)
    modifies db
    ensures Performed(old(db.Snapshot()), PlanDeactivate(old(db.Snapshot()), uid), db.Snapshot(), r)
  {
    CommitOmits(db.Snapshot());
    if uid !in db.users { return Raised(NotFound); }
    if HoldsOrAwaits(db.items, db.requests, uid) { return Raised(Conflict); }
    db.PutUser(uid, db.users[uid].(isActive := false));
    return Done;
  }

  method Activate(db: Session, uid: Id) returns (r: Reply)
    modifies db
    ensures Performed(old(db.Snapshot()), PlanActivate(old(db.Snapshot()), uid), db.Snapshot(), r)
  {
    CommitOmits(db.Snapshot());
    if uid !in db.users { return Raised(NotFound); }
    db.PutUser(uid, db.users[uid].(isActive := true));
    return Done;
  }
}
