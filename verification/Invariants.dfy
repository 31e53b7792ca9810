/** Well-formedness over runs, and the law of every operation. */
module Invariants {
  import opened Wrappers
  import opened Models
  import opened DeviceLog
  import opened Queries
  import opened Operations
  import opened Laws
  import opened OperationLaws

  lemma LawfulMoves(s: State, op: ItOp, actor: Id, now: Time, c: Change)
    requires Wf(s) && MovesDevices(op) && PlanIt(s, op, actor, now) == Success(c)
    ensures Lawful(s, c, now)
  {
    match op
    case Assign(rid, iid, from, to, isWfh) =>
      AssignLaw(s, rid, iid, from, to, isWfh, actor, now, c); SimpleIsLawful(s, c, now, iid, rid, 0, 0);
    case DirectAssign(rid, iid, emp, from, to) =>
      DirectAssignLaw(s, rid, iid, emp, from, to, actor, now, c); SimpleIsLawful(s, c, now, iid, rid, 0, 0);
    case Ship(rid) =>
      ShipLaw(s, rid, actor, now, c); SimpleIsLawful(s, c, now, s.requests[rid].item.value, rid, 0, 0);
    case ConfirmDelivery(rid) =>
      ConfirmDeliveryLaw(s, rid, actor, now, c); SimpleIsLawful(s, c, now, s.requests[rid].item.value, rid, 0, 0);
    case CompleteReturn(rid, next) => CompleteReturnLaw(s, rid, next, actor, now, c);
    case Start(tid) =>
      StartLaw(s, tid, actor, now, c); SimpleIsLawful(s, c, now, s.tickets[tid].itemId, 0, tid, 0);
    case Resolve(tid, action) => ResolveLaw(s, tid, action, actor, now, c);
  }

  lemma LawfulRequests(s: State, op: ItOp, actor: Id, now: Time, c: Change)
    requires Wf(s) && (op.UpdateBookingRange? || op.Reject? || op.Cancel? || op.Escalate?)
    requires PlanIt(s, op, actor, now) == Success(c)
    ensures Lawful(s, c, now)
  {
    match op
    case UpdateBookingRange(rid, from, to) =>
      UpdateBookingRangeLaw(s, rid, from, to, now, c); SimpleIsLawful(s, c, now, 0, rid, 0, 0);
    case Reject(rid) => RejectLaw(s, rid, actor, now, c); SimpleIsLawful(s, c, now, 0, rid, 0, 0);
    case Cancel(rid) => CancelLaw(s, rid, actor, now, c); SimpleIsLawful(s, c, now, 0, rid, 0, 0);
    case Escalate(rid, manager) => EscalateLaw(s, rid, manager, now, c); SimpleIsLawful(s, c, now, 0, rid, 0, 0);
  }

  lemma LawfulDesk(s: State, op: ItOp, actor: Id, now: Time, c: Change)
    requires Wf(s) && !MovesDevices(op) && PlanIt(s, op, actor, now) == Success(c)
    ensures Lawful(s, c, now)
  {
    match op
    case ExtensionApprove(xid) =>
      ExtensionApproveLaw(s, xid, actor, now, c); SimpleIsLawful(s, c, now, 0, s.extensions[xid].requestId, 0, xid);
    case ExtensionReject(xid) =>
      ExtensionRejectLaw(s, xid, actor, now, c); SimpleIsLawful(s, c, now, 0, 0, 0, xid);
    case ChangeStatus(iid, status) =>
      ChangeStatusLaw(s, iid, status, actor, now, c); SimpleIsLawful(s, c, now, iid, 0, 0, 0);
    case CreateItem(iid, serialNo, name, category, ownerType, clientName, purchaseDate) =>
      CreateItemLaw(s, iid, serialNo, name, category, ownerType, clientName, purchaseDate, actor, now, c);
      SimpleIsLawful(s, c, now, iid, 0, 0, 0);
    case EditItem(iid, updates) => EditItemLaw(s, iid, updates, actor, now, c); SimpleIsLawful(s, c, now, iid, 0, 0, 0);
    case Deactivate(uid) => UserLaw(s, uid, now, c); SimpleIsLawful(s, c, now, 0, 0, 0, 0);
    case Activate(uid) => UserLaw(s, uid, now, c); SimpleIsLawful(s, c, now, 0, 0, 0, 0);
    case _ => LawfulRequests(s, op, actor, now, c);
  }

  lemma LawfulEnv(s: State, op: EnvOp, now: Time, c: Change)
    requires Wf(s) && PlanEnv(s, op, now) == Success(c)
    ensures Lawful(s, c, now)
  {
    match op
    case FileRequest(rid, requester, category, from, to, route, requiresMgr) =>
      FileRequestLaw(s, rid, requester, category, from, to, route, requiresMgr, now, c);
      SimpleIsLawful(s, c, now, 0, rid, 0, 0);
    case RouteRequest(rid) => RouteLaw(s, rid, now, c); SimpleIsLawful(s, c, now, 0, rid, 0, 0);
    case ManagerDecision(rid, approve) =>
      ManagerDecisionLaw(s, rid, approve, now, c); SimpleIsLawful(s, c, now, 0, rid, 0, 0);
    case FileTicket(tid, iid, requester, requestId, kind) =>
      FileTicketLaw(s, tid, iid, requester, requestId, kind, now, c); SimpleIsLawful(s, c, now, 0, 0, tid, 0);
    case FileExtension(xid, rid, extendedTo, needsManager) =>
      FileExtensionLaw(s, xid, rid, extendedTo, needsManager, now, c); SimpleIsLawful(s, c, now, 0, 0, 0, xid);
    case ExtensionManagerDecision(xid, approve) =>
      ExtensionManagerDecisionLaw(s, xid, approve, now, c); SimpleIsLawful(s, c, now, 0, 0, 0, xid);
    case InitiateReturn(rid) =>
      InitiateReturnLaw(s, rid, now, c); SimpleIsLawful(s, c, now, s.requests[rid].item.value, rid, 0, 0);
  }

  lemma EveryChangeIsLawful(s: State, e: Event, c: Change)
    requires Wf(s) && Plan(s, e) == Success(c)
    ensures Lawful(s, c, e.now)
  {
    match e.op
    case It(op, actor) =>
      if MovesDevices(op) { LawfulMoves(s, op, actor, e.now, c); } else { LawfulDesk(s, op, actor, e.now, c); }
    case Env(op) => LawfulEnv(s, op, e.now, c);
  }

  // ---- Lawful changes keep states well-formed.

  lemma RequestsStayWf(s: State, c: Change)
    requires Wf(s) && RowsLaw(s, c)
    ensures forall q :: q in Commit(s, c).requests ==> RequestWf(Commit(s, c), Commit(s, c).requests[q])
  {
    var post := Commit(s, c);
    forall q | q in post.requests ensures RequestWf(post, post.requests[q]) {
      if q in c.requests { assert RequestStep(s, post, q); } else { assert RequestWf(s, s.requests[q]); }
    }
  }

  lemma TicketsStayWf(s: State, c: Change)
    requires Wf(s) && RowsLaw(s, c)
    ensures forall t :: t in Commit(s, c).tickets ==> TicketWf(Commit(s, c), Commit(s, c).tickets[t])
  {
    var post := Commit(s, c);
    forall t | t in post.tickets ensures TicketWf(post, post.tickets[t]) {
      if t in c.tickets { assert TicketStep(s, post, t); } else { assert TicketWf(s, s.tickets[t]); }
    }
  }

  lemma ExtensionsStayWf(s: State, c: Change)
    requires Wf(s) && RowsLaw(s, c)
    ensures forall x :: x in Commit(s, c).extensions ==> ExtensionWf(Commit(s, c), Commit(s, c).extensions[x])
  {
    var post := Commit(s, c);
    forall x | x in post.extensions ensures ExtensionWf(post, post.extensions[x]) {
      if x in c.extensions {
        assert ExtensionStep(s, post, x);
      } else {
        assert ExtensionWf(s, s.extensions[x]);
        var q := s.extensions[x].requestId;
        if q in c.requests { assert RequestStep(s, post, q); }
      }
    }
  }

  lemma LogStaysWf(s: State, c: Change, now: Time)
    requires Wf(s) && EntriesLaw(s, c, now)
    ensures forall k :: 0 <= k < |Commit(s, c).log| ==> EntryWf(Commit(s, c), Commit(s, c).log[k])
  {
    var post := Commit(s, c);
    forall k | 0 <= k < |post.log| ensures EntryWf(post, post.log[k]) {
      if k < |s.log| {
        assert EntryWf(s, s.log[k]);
      } else {
        assert post.log[k] == c.entries[k - |s.log|];
      }
    }
  }

  /** The one written request collides with no other, or keeps the index key it had. */
  lemma IndexStaysOk(s: State, c: Change)
    requires Wf(s) && RowsLaw(s, c)
    ensures IndexOk(Commit(s, c).requests)
  {
    var post := Commit(s, c);
    forall q, r | q in post.requests && r in post.requests && q != r && q !in c.requests
                  && Indexed(post.requests[q]) && Indexed(post.requests[r])
      ensures post.requests[q].item != post.requests[r].item || post.requests[q].status != post.requests[r].status
    {
      if r in c.requests { assert RequestStep(s, post, r); }
    }
  }

  lemma WfStep(s: State, e: Event)
    requires Wf(s)
    ensures Wf(Apply(s, e))
  {
    match Plan(s, e)
    case Failure(_) =>
    case Success(c) =>
      EveryChangeIsLawful(s, e, c);
      RequestsStayWf(s, c);
      TicketsStayWf(s, c);
      ExtensionsStayWf(s, c);
      LogStaysWf(s, c, e.now);
      IndexStaysOk(s, c);
  }

  /** Every reachable state is well-formed: no row dangles, and the unique index holds. */
  lemma {:induction false} ReachableWf(s: State, run: seq<Event>)
    requires Fresh(s)
    ensures Wf(Run(s, run))
  {
    if run != [] {
      ReachableWf(s, run[..|run| - 1]);
      WfStep(Run(s, run[..|run| - 1]), run[|run| - 1]);
    }
  }
}
