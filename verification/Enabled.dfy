/** When an operation succeeds in a reachable state, why it fails otherwise, and which succeed one after
    another. */
module Enabled {
  import opened Wrappers
  import opened Models
  import opened DeviceLog
  import opened Queries
  import opened Operations
  import opened Laws
  import opened Invariants
  import opened Lifecycle
  import opened Custody
  import opened Race
  import opened ForeignKeys

  /** The request's device has one of the statuses. */
  predicate DeviceIs(s: State, rid: Id, statuses: set<DeviceStatus>) {
    && rid in s.requests && s.requests[rid].item.Some?
    && s.requests[rid].item.value in s.items && s.items[s.requests[rid].item.value].status in statuses
  }

  predicate IsOpen(s: State, tid: Id) {
    tid in s.tickets && !s.tickets[tid].status.Resolved?
  }

  predicate RequestIs(s: State, rid: Id, status: RequestStatus) {
    rid in s.requests && s.requests[rid].status == status
  }

  predicate OnShelf(s: State, i: Id) {
    i in s.items && s.items[i].status.Available?
  }

  /** The ticket's request can move to the new device. */
  ghost predicate Swappable(s: State, tid: Id, to: Id)
    requires tid in s.tickets
  {
    var t := s.tickets[tid];
    && t.requestId.Some? && t.requestId.value in s.requests && t.itemId in s.items
    && to != t.itemId && OnShelf(s, to) && s.items[to].categoryId == s.items[t.itemId].categoryId
    && var status := s.requests[t.requestId.value].status;
       (Terminal(status) || !Taken(s, t.requestId.value, to, status))
  }

  ghost predicate Resolvable(s: State, tid: Id, action: Action) {
    && IsOpen(s, tid)
    && var t := s.tickets[tid];
       match action
       case DoRemote => true
       case DoRepair => t.itemId in s.items && s.items[t.itemId].status.UnderRepair?
       case DoSwap(to, _) => Swappable(s, tid, to)
       case DoLost => t.requestId.Some?
  }

  /** What the caller must find for the call to succeed. */
  ghost predicate Can(s: State, op: ItOp) {
    match op
    case Assign(rid, iid, _, _, _) =>
      && RequestIs(s, rid, PendingItApproval) && OnShelf(s, iid)
      && s.items[iid].categoryId == s.requests[rid].categoryId && !Custody.Held(s, iid)
    case DirectAssign(rid, iid, employee, _, _) =>
      && rid !in s.requests && OnShelf(s, iid) && s.items[iid].ownerType.Client? && !Custody.Held(s, iid)
      && employee in s.users && s.users[employee].isActive
    case UpdateBookingRange(rid, _, _) => RequestIs(s, rid, RequestStatus.Assigned)
    case Ship(rid) => DeviceIs(s, rid, {DeviceStatus.Assigned}) && s.requests[rid].isWfh
    case ConfirmDelivery(rid) => DeviceIs(s, rid, {ShippingPending})
    case CompleteReturn(rid, _) => DeviceIs(s, rid, {DeviceStatus.Assigned, ReturnShippingPending})
    case Start(tid) => tid in s.tickets && s.tickets[tid].status.Open?
    case Resolve(tid, action) => Resolvable(s, tid, action)
    case Reject(rid) => RequestIs(s, rid, PendingItApproval)
    case Cancel(rid) => rid in s.requests && !Terminal(s.requests[rid].status)
    case Escalate(rid, manager) =>
      && RequestIs(s, rid, PendingItApproval) && !s.requests[rid].requiresMgr && Exists(s, manager)
      && (s.requests[rid].item.Some? ==> !Taken(s, rid, s.requests[rid].item.value, PendingMgrApproval))
    case ExtensionApprove(xid) =>
      xid in s.extensions && s.extensions[xid].status.Pending? && s.extensions[xid].mgrApproval in {NotRequired, MgrApproval.Approved}
    case ExtensionReject(xid) => xid in s.extensions && s.extensions[xid].status.Pending?
    case ChangeStatus(iid, _) => iid in s.items
    case CreateItem(iid, serialNo, _, category, _, _, _) =>
      category in s.categories && iid !in s.items && forall i :: i in s.items ==> s.items[i].serialNo != serialNo
    case EditItem(iid, updates) => iid in s.items && (updates.categoryId.Some? ==> updates.categoryId.value in s.categories)
    case Deactivate(uid) =>
      && uid in s.users && (forall i :: i in s.items ==> s.items[i].owner != Some(uid))
      && (forall q :: q in s.requests && s.requests[q].requester == uid ==> Terminal(s.requests[q].status))
    case Activate(uid) => uid in s.users
  }

  // ---- The assignments: no booking at all may be on the device.

  lemma NoOverlapUnlessHeld(s: State, i: Id, from: Time, to: Time, exclude: Option<Id>)
    requires !Custody.Held(s, i)
    ensures !HasOverlap(s.requests, i, from, to, exclude)
  {
    forall q | q in s.requests ensures !BooksOver(s.requests[q], i, from, to) { assert !HeldBy(s, q, i); }
  }

  lemma CollidesIffHeld(s: State, q: Id, row: Request, i: Id)
    requires row.item == Some(i) && row.status.Assigned? && !RequestIs(s, q, RequestStatus.Assigned)
    ensures Collides(s.requests, q, row) <==> Custody.Held(s, i)
  {
    CollidesIffTaken(s, q, row, i);
    TakenIsHeld(s, q, i);
    if p :| HeldBy(s, p, i) { assert p != q; }
  }

  lemma AssignIff(s: State, rid: Id, iid: Id, from: Time, to: Time, isWfh: bool, actor: Id, now: Time)
    ensures PlanAssign(s, rid, iid, from, to, isWfh, actor, now).Success? <==> Can(s, Assign(rid, iid, from, to, isWfh))
  {
    if RequestIs(s, rid, PendingItApproval) {
      CollidesIffHeld(s, rid, AssignedRequest(s.requests[rid], iid, from, to, isWfh, actor, now), iid);
      if !Custody.Held(s, iid) { NoOverlapUnlessHeld(s, iid, from, to, Some(rid)); }
    }
  }

  lemma DirectAssignIff(s: State, rid: Id, iid: Id, emp: Id, from: Time, to: Time, actor: Id, now: Time)
    ensures PlanDirectAssign(s, rid, iid, emp, from, to, actor, now).Success? <==> Can(s, DirectAssign(rid, iid, emp, from, to))
  {
    if iid in s.items && rid !in s.requests {
      CollidesIffHeld(s, rid, DirectRequest(s.items[iid], iid, emp, from, to, actor, now), iid);
      if !Custody.Held(s, iid) { NoOverlapUnlessHeld(s, iid, from, to, None); }
    }
  }

  lemma TransitIff(s: State, op: ItOp, actor: Id, now: Time)
    requires op.Ship? || op.ConfirmDelivery? || op.CompleteReturn?
    ensures PlanIt(s, op, actor, now).Success? <==> Can(s, op)
  {
  }

  lemma StartIff(s: State, tid: Id, actor: Id, now: Time)
    requires tid in s.tickets ==> s.tickets[tid].itemId in s.items
    ensures PlanStart(s, tid, actor, now).Success? <==> Can(s, Start(tid))
  {
  }

  lemma ResolveIff(s: State, tid: Id, action: Action, actor: Id, now: Time)
    requires tid in s.tickets ==> TicketWf(s, s.tickets[tid])
    ensures PlanResolve(s, tid, action, actor, now).Success? <==> Can(s, Resolve(tid, action))
  {
    if IsOpen(s, tid) && action.DoSwap? {
      var t := s.tickets[tid];
      if t.requestId.Some? {
        var rid := t.requestId.value;
        CollidesIffTaken(s, rid, s.requests[rid].(item := Some(action.to)), action.to);
      }
    }
  }

  lemma RequestIff(s: State, op: ItOp, actor: Id, now: Time)
    requires op.Reject? || op.Cancel?
    ensures PlanIt(s, op, actor, now).Success? <==> Can(s, op)
  {
  }

  lemma EscalateIff(s: State, rid: Id, manager: Option<Id>)
    requires forall u :: u in s.users ==> Exists(s, s.users[u].managerId)
    ensures PlanEscalate(s, rid, manager).Success? <==> Can(s, Escalate(rid, manager))
  {
    if RequestIs(s, rid, PendingItApproval) {
      var r := s.requests[rid];
      var row := r.(requiresMgr := true, mgrApproval := MgrApproval.Pending, manager := ResolvedManager(s, r, manager),
                    status := PendingMgrApproval);
      if r.item.Some? { CollidesIffTaken(s, rid, row, r.item.value); }
    }
  }

  lemma ExtensionIff(s: State, op: ItOp, actor: Id, now: Time)
    requires Wf(s) && (op.ExtensionApprove? || op.ExtensionReject?)
    ensures PlanIt(s, op, actor, now).Success? <==> Can(s, op)
  {
    ParentHasDevice(s, op.xid);
  }

  lemma InventoryIff(s: State, op: ItOp, actor: Id, now: Time)
    requires op.ChangeStatus? || op.CreateItem? || op.EditItem? || op.Deactivate? || op.Activate?
    ensures PlanIt(s, op, actor, now).Success? <==> Can(s, op)
  {
  }

  /** In every reachable state an IT operation succeeds exactly if `Can` says so, whoever calls it and when. */
  lemma SucceedsIff(s: State, run: seq<Event>, op: ItOp, actor: Id, now: Time)
    requires Fresh(s) && forall u :: u in s.users ==> Exists(s, s.users[u].managerId)
    ensures PlanIt(Run(s, run), op, actor, now).Success? <==> Can(Run(s, run), op)
  {
    ReachableWf(s, run);
    ReachableKeys(s, run);
    var r := Run(s, run);
    match op
    case Assign(rid, iid, from, to, isWfh) => AssignIff(r, rid, iid, from, to, isWfh, actor, now);
    case DirectAssign(rid, iid, emp, from, to) => DirectAssignIff(r, rid, iid, emp, from, to, actor, now);
    case UpdateBookingRange(rid, from, to) => OverlapGuardIsRedundant(s, run, rid, from, to);
    case Ship(_) => TransitIff(r, op, actor, now);
    case ConfirmDelivery(_) => TransitIff(r, op, actor, now);
    case CompleteReturn(_, _) => TransitIff(r, op, actor, now);
    case Start(tid) => StartIff(r, tid, actor, now);
    case Resolve(tid, action) => ResolveIff(r, tid, action, actor, now);
    case Escalate(rid, manager) => EscalateIff(r, rid, manager);
    case Reject(_) => RequestIff(r, op, actor, now);
    case Cancel(_) => RequestIff(r, op, actor, now);
    case ExtensionApprove(_) => ExtensionIff(r, op, actor, now);
    case ExtensionReject(_) => ExtensionIff(r, op, actor, now);
    case _ => InventoryIff(r, op, actor, now);
  }

  // ---- Why it fails otherwise.

  /** A row the call looks up is not there. */
  ghost predicate Absent(s: State, op: ItOp) {
    match op
    case Assign(rid, iid, _, _, _) => rid !in s.requests || (RequestIs(s, rid, PendingItApproval) && iid !in s.items)
    case DirectAssign(_, iid, employee, from, to) =>
      || iid !in s.items
      || (OnShelf(s, iid) && s.items[iid].ownerType.Client? && !HasOverlap(s.requests, iid, from, to, None) && employee !in s.users)
    case Start(tid) => tid !in s.tickets
    case Resolve(tid, action) =>
      || tid !in s.tickets
      || (IsOpen(s, tid) && action.DoSwap? && s.tickets[tid].requestId.Some? && action.to !in s.items)
    case ExtensionApprove(xid) => xid !in s.extensions
    case ExtensionReject(xid) => xid !in s.extensions
    case ChangeStatus(iid, _) => iid !in s.items
    case CreateItem(_, _, _, category, _, _, _) => category !in s.categories
    case EditItem(iid, updates) => iid !in s.items || (updates.categoryId.Some? && updates.categoryId.value !in s.categories)
    case Deactivate(uid) => uid !in s.users
    case Activate(uid) => uid !in s.users
    case _ => op.rid !in s.requests
  }

  /** The rows are there but do not fit each other. */
  ghost predicate Unfit(s: State, op: ItOp) {
    match op
    case Assign(rid, iid, _, _, _) =>
      RequestIs(s, rid, PendingItApproval) && OnShelf(s, iid) && s.items[iid].categoryId != s.requests[rid].categoryId
    case DirectAssign(_, iid, _, _, _) => iid in s.items && s.items[iid].ownerType.Company?
    case Ship(rid) => rid in s.requests && !s.requests[rid].isWfh
    case Resolve(tid, action) =>
      && IsOpen(s, tid) && action.DoSwap?
      && var t := s.tickets[tid];
         || action.to == t.itemId
         || (t.requestId.Some? && t.itemId in s.items && action.to in s.items
             && s.items[action.to].categoryId != s.items[t.itemId].categoryId)
    case _ => false
  }

  lemma MoveErrors(s: State, op: ItOp, actor: Id, now: Time)
    requires Wf(s) && MovesDevices(op) && !op.Resolve?
    ensures PlanIt(s, op, actor, now) == Failure(NotFound) <==> Absent(s, op)
    ensures PlanIt(s, op, actor, now) == Failure(Validation) <==> Unfit(s, op)
  {
    match op
    case Ship(rid) => assert rid in s.requests ==> RequestWf(s, s.requests[rid]);
    case ConfirmDelivery(rid) => assert rid in s.requests ==> RequestWf(s, s.requests[rid]);
    case CompleteReturn(rid, _) => assert rid in s.requests ==> RequestWf(s, s.requests[rid]);
    case Start(tid) => assert tid in s.tickets ==> TicketWf(s, s.tickets[tid]);
    case _ =>
  }

  lemma ResolveErrors(s: State, tid: Id, action: Action, actor: Id, now: Time)
    requires tid in s.tickets ==> TicketWf(s, s.tickets[tid])
    ensures PlanResolve(s, tid, action, actor, now) == Failure(NotFound) <==> Absent(s, Resolve(tid, action))
    ensures PlanResolve(s, tid, action, actor, now) == Failure(Validation) <==> Unfit(s, Resolve(tid, action))
  {
  }

  lemma RequestErrors(s: State, op: ItOp, actor: Id, now: Time)
    requires op.UpdateBookingRange? || op.Reject? || op.Cancel? || op.Escalate?
    ensures PlanIt(s, op, actor, now) == Failure(NotFound) <==> Absent(s, op)
    ensures PlanIt(s, op, actor, now) == Failure(Validation) <==> Unfit(s, op)
  {
  }

  lemma DeskErrors(s: State, op: ItOp, actor: Id, now: Time)
    requires Wf(s) && !MovesDevices(op)
    ensures PlanIt(s, op, actor, now) == Failure(NotFound) <==> Absent(s, op)
    ensures PlanIt(s, op, actor, now) == Failure(Validation) <==> Unfit(s, op)
  {
    match op
    case ExtensionApprove(xid) => ParentHasDevice(s, xid);
    case ExtensionReject(xid) => ParentHasDevice(s, xid);
    case UpdateBookingRange(_, _, _) => RequestErrors(s, op, actor, now);
    case Reject(_) => RequestErrors(s, op, actor, now);
    case Cancel(_) => RequestErrors(s, op, actor, now);
    case Escalate(_, _) => RequestErrors(s, op, actor, now);
    case _ =>
  }

  /** In every reachable state a call answers "not found" exactly if a row it looks up is missing, and
      "validation failed" exactly if the rows do not fit each other. */
  lemma ErrorsMean(s: State, run: seq<Event>, op: ItOp, actor: Id, now: Time)
    requires Fresh(s)
    ensures PlanIt(Run(s, run), op, actor, now) == Failure(NotFound) <==> Absent(Run(s, run), op)
    ensures PlanIt(Run(s, run), op, actor, now) == Failure(Validation) <==> Unfit(Run(s, run), op)
  {
    ReachableWf(s, run);
    var r := Run(s, run);
    if op.Resolve? {
      assert op.tid in r.tickets ==> TicketWf(r, r.tickets[op.tid]);
      ResolveErrors(r, op.tid, op.action, actor, now);
    } else if MovesDevices(op) { MoveErrors(r, op, actor, now); }
    else { DeskErrors(r, op, actor, now); }
  }
}
