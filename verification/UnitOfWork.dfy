/** app/db/session.py, get_db_session: one service call is one transaction. */
module UnitOfWork {
  import opened Wrappers
  import opened Models
  import opened Operations
  import opened Sessions
  import AssignmentService
  import ShippingService
  import SupportService
  import RequestService
  import ExtensionService
  import InventoryService
  import UserService

  method DispatchMove(db: Session, op: ItOp, actor: Id, now: Time) returns (r: Reply)
    requires MovesDevices(op)
    modifies db
    ensures Performed(old(db.Snapshot()), PlanIt(old(db.Snapshot()), op, actor, now), db.Snapshot(), r)
  {
    match op {
      case Assign(rid, iid, from, to, isWfh) => r := AssignmentService.Assign(db, rid, iid, from, to, isWfh, actor, now);
      case DirectAssign(rid, iid, emp, from, to) => r := AssignmentService.DirectAssign(db, rid, iid, emp, from, to, actor, now);
      case Ship(rid) => r := ShippingService.Ship(db, rid, actor, now);
      case ConfirmDelivery(rid) => r := ShippingService.ConfirmDelivery(db, rid, actor, now);
      case CompleteReturn(rid, next) => r := ShippingService.CompleteReturn(db, rid, next, actor, now);
      case Start(tid) => r := SupportService.Start(db, tid, actor, now);
      case Resolve(tid, action) => r := SupportService.Resolve(db, tid, action, actor, now);
    }
  }

  method DispatchDesk(db: Session, op: ItOp, actor: Id, now: Time) returns (r: Reply)
    requires !MovesDevices(op)
    modifies db
    ensures Performed(old(db.Snapshot()), PlanIt(old(db.Snapshot()), op, actor, now), db.Snapshot(), r)
  {
    match op {
      case UpdateBookingRange(rid, from, to) => r := AssignmentService.UpdateBookingRange(db, rid, from, to);
      case Reject(rid) => r := RequestService.Reject(db, rid, actor, now);
      case Cancel(rid) => r := RequestService.Cancel(db, rid, actor, now);
      case Escalate(rid, manager) => r := RequestService.EscalateToManager(db, rid, manager);
      case ExtensionApprove(xid) => r := ExtensionService.Approve(db, xid, actor, now);
      case ExtensionReject(xid) => r := ExtensionService.Reject(db, xid, actor, now);
      case ChangeStatus(iid, status) => r := InventoryService.ChangeStatus(db, iid, status, actor, now);
      case CreateItem(iid, serialNo, name, category, ownerType, clientName, purchaseDate) =>
        r := InventoryService.CreateItem(db, iid, serialNo, name, category, ownerType, clientName, purchaseDate, actor, now);
      case EditItem(iid, updates) => var changes; r, changes := InventoryService.EditItem(db, iid, updates, actor, now);
      case Deactivate(uid) => r := UserService.Deactivate(db, uid);
      case Activate(uid) => r := UserService.Activate(db, uid);
    }
  }

  /** The call commits on a normal return and rolls back on any exception, however much it had written. */
  method Execute(db: Session, op: ItOp, actor: Id, now: Time) returns (r: Reply)
    modifies db
    ensures db.Snapshot() == Apply(old(db.Snapshot()), Event(It(op, actor), now))
    ensures r.Raised? ==> db.Snapshot() == old(db.Snapshot())
    ensures r.Raised? <==> Plan(old(db.Snapshot()), Event(It(op, actor), now)).Failure?
    ensures old(db.log) <= db.log
  {
    var saved := db.Snapshot();
    if MovesDevices(op) {
      r := DispatchMove(db, op, actor, now);
    } else {
      r := DispatchDesk(db, op, actor, now);
    }
    if r.Raised? {
      db.Rollback(saved);
    }
  }
}
