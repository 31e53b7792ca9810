/** Every operation's change is lawful. */
module OperationLaws {
  import opened Wrappers
  import opened Models
  import opened DeviceLog
  import opened Queries
  import opened Operations
  import opened Laws

  ghost predicate OwnerKnown(s: State, iid: Id) {
    iid in s.items && s.items[iid].owner.Some? ==> s.items[iid].owner.value in s.users
  }

  ghost predicate Known(s: State, rid: Id) {
    rid in s.requests ==>
      && RequestWf(s, s.requests[rid])
      && (s.requests[rid].item.Some? ==> OwnerKnown(s, s.requests[rid].item.value))
  }

  lemma AssignLaw(s: State, rid: Id, iid: Id, from: Time, to: Time, isWfh: bool, actor: Id, now: Time, c: Change)
    requires Known(s, rid) && PlanAssign(s, rid, iid, from, to, isWfh, actor, now) == Success(c)
    ensures Simple(s, c, now, iid, rid, 0, 0)
  {
  }

  lemma DirectAssignLaw(s: State, rid: Id, iid: Id, emp: Id, from: Time, to: Time, actor: Id, now: Time, c: Change)
    requires PlanDirectAssign(s, rid, iid, emp, from, to, actor, now) == Success(c)
    ensures Simple(s, c, now, iid, rid, 0, 0)
  {
  }

  lemma UpdateBookingRangeLaw(s: State, rid: Id, from: Time, to: Time, now: Time, c: Change)
    requires Known(s, rid) && PlanUpdateBookingRange(s, rid, from, to) == Success(c)
    ensures Simple(s, c, now, 0, rid, 0, 0)
  {
  }

  lemma ShipLaw(s: State, rid: Id, actor: Id, now: Time, c: Change)
    requires Known(s, rid) && PlanShip(s, rid, actor, now) == Success(c)
    ensures Simple(s, c, now, s.requests[rid].item.value, rid, 0, 0)
  {
  }

  lemma ConfirmDeliveryLaw(s: State, rid: Id, actor: Id, now: Time, c: Change)
    requires Known(s, rid) && PlanConfirmDelivery(s, rid, actor, now) == Success(c)
    ensures Simple(s, c, now, s.requests[rid].item.value, rid, 0, 0)
  {
  }

  lemma StartDamageLaw(s: State, tid: Id, actor: Id, now: Time, c: Change)
    requires tid in s.tickets && TicketWf(s, s.tickets[tid]) && OwnerKnown(s, s.tickets[tid].itemId)
    requires s.tickets[tid].kind.Damage? && PlanStart(s, tid, actor, now) == Success(c)
    ensures Simple(s, c, now, s.tickets[tid].itemId, 0, tid, 0)
  {
  }

  lemma StartLaw(s: State, tid: Id, actor: Id, now: Time, c: Change)
    requires tid in s.tickets ==> TicketWf(s, s.tickets[tid]) && OwnerKnown(s, s.tickets[tid].itemId)
    requires PlanStart(s, tid, actor, now) == Success(c)
    ensures Simple(s, c, now, s.tickets[tid].itemId, 0, tid, 0)
  {
    if s.tickets[tid].kind.Damage? { StartDamageLaw(s, tid, actor, now, c); }
  }

  lemma RejectLaw(s: State, rid: Id, actor: Id, now: Time, c: Change)
    requires Known(s, rid) && PlanReject(s, rid, actor, now) == Success(c)
    ensures Simple(s, c, now, 0, rid, 0, 0)
  {
  }

  lemma CancelLaw(s: State, rid: Id, actor: Id, now: Time, c: Change)
    requires Known(s, rid) && PlanCancel(s, rid, actor, now) == Success(c)
    ensures Simple(s, c, now, 0, rid, 0, 0)
  {
  }

  lemma EscalateLaw(s: State, rid: Id, manager: Option<Id>, now: Time, c: Change)
    requires Known(s, rid) && PlanEscalate(s, rid, manager) == Success(c)
    ensures Simple(s, c, now, 0, rid, 0, 0)
  {
  }

  lemma ExtensionApproveLaw(s: State, xid: Id, actor: Id, now: Time, c: Change)
    requires xid in s.extensions && ExtensionWf(s, s.extensions[xid]) && Known(s, s.extensions[xid].requestId)
    requires PlanExtensionApprove(s, xid, actor, now) == Success(c)
    ensures Simple(s, c, now, 0, s.extensions[xid].requestId, 0, xid)
  {
  }

  lemma ExtensionRejectLaw(s: State, xid: Id, actor: Id, now: Time, c: Change)
    requires xid in s.extensions && ExtensionWf(s, s.extensions[xid]) && Known(s, s.extensions[xid].requestId)
    requires PlanExtensionReject(s, xid, actor, now) == Success(c)
    ensures Simple(s, c, now, 0, 0, 0, xid)
  {
  }

  lemma ChangeStatusLaw(s: State, iid: Id, status: DeviceStatus, actor: Id, now: Time, c: Change)
    requires OwnerKnown(s, iid)
    requires PlanChangeStatus(s, iid, status, actor, now) == Success(c)
    ensures Simple(s, c, now, iid, 0, 0, 0)
  {
  }

  lemma CreateItemLaw(
    s: State, iid: Id, serialNo: string, name: string, category: Id, ownerType: OwnerType,
    clientName: Option<string>, purchaseDate: Option<Time>, actor: Id, now: Time, c: Change)
    requires PlanCreateItem(s, iid, serialNo, name, category, ownerType, clientName, purchaseDate, actor, now) == Success(c)
    ensures Simple(s, c, now, iid, 0, 0, 0)
  {
  }

  lemma EditItemLaw(s: State, iid: Id, updates: ItemUpdates, actor: Id, now: Time, c: Change)
    requires OwnerKnown(s, iid)
    requires PlanEditItem(s, iid, updates, actor, now) == Success(c)
    ensures Simple(s, c, now, iid, 0, 0, 0)
  {
  }

  lemma UserLaw(s: State, uid: Id, now: Time, c: Change)
    requires PlanDeactivate(s, uid) == Success(c) || PlanActivate(s, uid) == Success(c)
    ensures Simple(s, c, now, 0, 0, 0, 0)
  {
  }

  lemma FileRequestLaw(
    s: State, rid: Id, requester: Id, category: Id, from: Time, to: Time, route: RequestStatus, requiresMgr: bool,
    now: Time, c: Change)
    requires PlanFileRequest(s, rid, requester, category, from, to, route, requiresMgr, now) == Success(c)
    ensures Simple(s, c, now, 0, rid, 0, 0)
  {
  }

  lemma RouteLaw(s: State, rid: Id, now: Time, c: Change)
    requires Known(s, rid) && PlanRoute(s, rid) == Success(c)
    ensures Simple(s, c, now, 0, rid, 0, 0)
  {
  }

  lemma ManagerDecisionLaw(s: State, rid: Id, approve: bool, now: Time, c: Change)
    requires Known(s, rid) && PlanManagerDecision(s, rid, approve) == Success(c)
    ensures Simple(s, c, now, 0, rid, 0, 0)
  {
  }

  lemma FileTicketLaw(s: State, tid: Id, iid: Id, requester: Id, requestId: Option<Id>, kind: SupportType, now: Time, c: Change)
    requires PlanFileTicket(s, tid, iid, requester, requestId, kind, now) == Success(c)
    ensures Simple(s, c, now, 0, 0, tid, 0)
  {
  }

  lemma FileExtensionLaw(s: State, xid: Id, rid: Id, extendedTo: Time, needsManager: bool, now: Time, c: Change)
    requires Known(s, rid) && PlanFileExtension(s, xid, rid, extendedTo, needsManager, now) == Success(c)
    ensures Simple(s, c, now, 0, 0, 0, xid)
  {
  }

  lemma ExtensionManagerDecisionLaw(s: State, xid: Id, approve: bool, now: Time, c: Change)
    requires xid in s.extensions ==> ExtensionWf(s, s.extensions[xid])
    requires PlanExtensionManagerDecision(s, xid, approve) == Success(c)
    ensures Simple(s, c, now, 0, 0, 0, xid)
  {
  }

  lemma InitiateReturnLaw(s: State, rid: Id, now: Time, c: Change)
    requires Known(s, rid) && PlanInitiateReturn(s, rid, now) == Success(c)
    ensures Simple(s, c, now, s.requests[rid].item.value, rid, 0, 0)
  {
  }

  // ---- Resolving a ticket: the branch, then the closing.

  lemma RepairLaw(s: State, tid: Id, t: Ticket, actor: Id, now: Time, c: Change)
    requires t.itemId in s.items && OwnerKnown(s, t.itemId) && tid in s.tickets
    requires PlanRepair(s, tid, t, actor, now) == Success(c)
    ensures Simple(s, c, now, t.itemId, 0, 0, 0)
  {
  }

  lemma MarkLostLaw(s: State, tid: Id, t: Ticket, actor: Id, now: Time, c: Change)
    requires t.itemId in s.items && OwnerKnown(s, t.itemId) && tid in s.tickets
    requires t.requestId.Some? ==> Known(s, t.requestId.value)
    requires PlanMarkLost(s, tid, t, actor, now) == Success(c)
    ensures Simple(s, c, now, t.itemId, t.requestId.value, 0, 0)
  {
  }

  lemma SwapShape(s: State, tid: Id, t: Ticket, to: Id, oldNext: DeviceStatus, actor: Id, now: Time, c: Change)
    requires t.itemId in s.items && PlanSwap(s, tid, t, to, oldNext, actor, now) == Success(c)
    ensures Shape(s, c)
  {
  }

  lemma SwapRows(s: State, tid: Id, t: Ticket, to: Id, oldNext: DeviceStatus, actor: Id, now: Time, c: Change)
    requires t.itemId in s.items
    requires t.requestId.Some? ==> Known(s, t.requestId.value)
    requires PlanSwap(s, tid, t, to, oldNext, actor, now) == Success(c)
    ensures RowsLaw(s, c)
  {
  }

  lemma SwapEntries(s: State, tid: Id, t: Ticket, to: Id, oldNext: DeviceStatus, actor: Id, now: Time, c: Change)
    requires t.itemId in s.items && tid in s.tickets
    requires PlanSwap(s, tid, t, to, oldNext, actor, now) == Success(c)
    ensures EntriesLaw(s, c, now)
  {
  }

  lemma SwapPointers(s: State, tid: Id, t: Ticket, to: Id, oldNext: DeviceStatus, actor: Id, now: Time, c: Change, q: Id)
    requires t.itemId in s.items && PlanSwap(s, tid, t, to, oldNext, actor, now) == Success(c)
    ensures PointerLaw(s, c, q)
  {
    assert Points(c.entries[1], q) <==> q == t.requestId.value;
  }

  lemma SwapFacts(s: State, tid: Id, t: Ticket, to: Id, oldNext: DeviceStatus, actor: Id, now: Time, c: Change, f: Fact)
    requires t.itemId in s.items && PlanSwap(s, tid, t, to, oldNext, actor, now) == Success(c)
    ensures FactLaw(s, c, f)
  {
  }

  lemma SwapLaw(s: State, tid: Id, t: Ticket, to: Id, oldNext: DeviceStatus, actor: Id, now: Time, c: Change)
    requires t.itemId in s.items && tid in s.tickets
    requires t.requestId.Some? ==> Known(s, t.requestId.value)
    requires PlanSwap(s, tid, t, to, oldNext, actor, now) == Success(c)
    ensures Lawful(s, c, now)
  {
    SwapShape(s, tid, t, to, oldNext, actor, now, c);
    SwapRows(s, tid, t, to, oldNext, actor, now, c);
    SwapEntries(s, tid, t, to, oldNext, actor, now, c);
    forall q ensures PointerLaw(s, c, q) { SwapPointers(s, tid, t, to, oldNext, actor, now, c, q); }
    forall f ensures FactLaw(s, c, f) { SwapFacts(s, tid, t, to, oldNext, actor, now, c, f); }
  }

  /** The change leaves every ticket to the closing that follows it. */
  ghost predicate OpensClosing(s: State, c: Change, tid: Id, t: Ticket) {
    && c.tickets == map[] && |c.entries| <= 2
    && tid in s.tickets && s.tickets[tid] == t && !t.status.Resolved? && TicketWf(s, t)
    && forall k :: 0 <= k < |c.entries| ==> !c.entries[k].event.SupportResolved? && !c.entries[k].event.SupportAutoClosed?
  }

  lemma ClosingShape(s: State, c: Change, now: Time, tid: Id, t: Ticket, action: Action, actor: Id)
    requires Shape(s, c) && OpensClosing(s, c, tid, t)
    ensures Shape(s, Closing(c, tid, t, action, actor, now))
  {
    var d := Closing(c, tid, t, action, actor, now);
    assert forall k :: 0 <= k < |c.entries| ==> d.entries[k] == c.entries[k];
    assert !Bears(d.entries[|c.entries|]);
  }

  /** The laws of request and extension rows look at users, devices and requests only. */
  lemma SameSteps(s: State, p: State, post: State)
    requires post.users == p.users && post.items == p.items && post.requests == p.requests && post.extensions == p.extensions
    ensures forall q :: q in p.requests ==> RequestStep(s, p, q) == RequestStep(s, post, q)
    ensures forall x :: x in p.extensions ==> ExtensionStep(s, p, x) == ExtensionStep(s, post, x)
  {
  }

  lemma ClosedTicketStep(s: State, c: Change, now: Time, tid: Id, t: Ticket, action: Action, actor: Id)
    requires OpensClosing(s, c, tid, t)
    ensures TicketStep(s, Commit(s, Closing(c, tid, t, action, actor, now)), tid)
  {
  }

  lemma ClosingRows(s: State, c: Change, now: Time, tid: Id, t: Ticket, action: Action, actor: Id)
    requires RowsLaw(s, c) && OpensClosing(s, c, tid, t)
    ensures RowsLaw(s, Closing(c, tid, t, action, actor, now))
  {
    ClosedTicketStep(s, c, now, tid, t, action, actor);
    SameSteps(s, Commit(s, c), Commit(s, Closing(c, tid, t, action, actor, now)));
  }

  lemma ClosingStamps(s: State, c: Change, now: Time, tid: Id, t: Ticket, action: Action, actor: Id)
    requires EntriesLaw(s, c, now) && OpensClosing(s, c, tid, t)
    ensures EntriesLaw(s, Closing(c, tid, t, action, actor, now), now)
  {
    var d := Closing(c, tid, t, action, actor, now);
    assert forall k :: 0 <= k < |c.entries| ==> d.entries[k] == c.entries[k];
  }

  lemma OneMoreForPointer(entries: seq<LogEntry>, e: LogEntry, q: Id, before: Option<Id>, after: Option<Id>)
    requires PointerRule(entries, q, before, after) && !Gives(e)
    ensures PointerRule(entries + [e], q, before, after)
  {
    assert forall k :: 0 <= k < |entries| ==> (entries + [e])[k] == entries[k];
  }

  lemma OneMoreForFact(entries: seq<LogEntry>, e: LogEntry, f: Fact, before: bool, after: bool)
    requires FactRule(entries, f, before, after) && !Records(e, f)
    ensures FactRule(entries + [e], f, before, after)
  {
    assert forall k :: 0 <= k < |entries| ==> (entries + [e])[k] == entries[k];
  }

  lemma ClosingPointers(s: State, c: Change, now: Time, tid: Id, t: Ticket, action: Action, actor: Id, q: Id)
    requires PointerLaw(s, c, q)
    ensures PointerLaw(s, Closing(c, tid, t, action, actor, now), q)
  {
    var e := ItEntry(now, t.itemId, SupportResolved, actor).(ticketId := Some(tid));
    OneMoreForPointer(c.entries, e, q, PointerIn(s, q), PointerIn(Commit(s, c), q));
  }

  /** The closing is recorded by the last entry alone. */
  lemma ClosingOwnFact(s: State, c: Change, now: Time, tid: Id, t: Ticket, action: Action, actor: Id)
    requires OpensClosing(s, c, tid, t)
    ensures FactLaw(s, Closing(c, tid, t, action, actor, now), ClosingOf(tid))
  {
    var d := Closing(c, tid, t, action, actor, now);
    assert forall k :: 0 <= k < |c.entries| ==> d.entries[k] == c.entries[k];
    assert Records(d.entries[|c.entries|], ClosingOf(tid));
  }

  lemma ClosingOtherFacts(s: State, c: Change, now: Time, tid: Id, t: Ticket, action: Action, actor: Id, f: Fact)
    requires FactLaw(s, c, f) && c.tickets == map[] && f != ClosingOf(tid)
    ensures FactLaw(s, Closing(c, tid, t, action, actor, now), f)
  {
    var e := ItEntry(now, t.itemId, SupportResolved, actor).(ticketId := Some(tid));
    OneMoreForFact(c.entries, e, f, Holds(s, f), Holds(Commit(s, c), f));
  }

  lemma ClosingLaw(s: State, c: Change, now: Time, tid: Id, t: Ticket, action: Action, actor: Id)
    requires Lawful(s, c, now) && OpensClosing(s, c, tid, t)
    ensures Lawful(s, Closing(c, tid, t, action, actor, now), now)
  {
    var d := Closing(c, tid, t, action, actor, now);
    ClosingShape(s, c, now, tid, t, action, actor);
    ClosingRows(s, c, now, tid, t, action, actor);
    ClosingStamps(s, c, now, tid, t, action, actor);
    forall q ensures PointerLaw(s, d, q) { ClosingPointers(s, c, now, tid, t, action, actor, q); }
    forall f ensures FactLaw(s, d, f) {
      if f == ClosingOf(tid) { ClosingOwnFact(s, c, now, tid, t, action, actor); }
      else { ClosingOtherFacts(s, c, now, tid, t, action, actor, f); }
    }
  }

  lemma BranchLaw(s: State, tid: Id, t: Ticket, action: Action, actor: Id, now: Time, b: Change)
    requires t.itemId in s.items && OwnerKnown(s, t.itemId) && tid in s.tickets
    requires t.requestId.Some? ==> Known(s, t.requestId.value)
    requires PlanBranch(s, tid, t, action, actor, now) == Success(b)
    ensures Lawful(s, b, now)
  {
    match action {
      case DoRemote => SimpleIsLawful(s, b, now, 0, 0, 0, 0);
      case DoRepair => RepairLaw(s, tid, t, actor, now, b); SimpleIsLawful(s, b, now, t.itemId, 0, 0, 0);
      case DoSwap(to, oldNext) => SwapLaw(s, tid, t, to, oldNext, actor, now, b);
      case DoLost => MarkLostLaw(s, tid, t, actor, now, b); SimpleIsLawful(s, b, now, t.itemId, t.requestId.value, 0, 0);
    }
  }

  lemma BranchOpensClosing(s: State, tid: Id, t: Ticket, action: Action, actor: Id, now: Time, b: Change)
    requires tid in s.tickets && s.tickets[tid] == t && !t.status.Resolved? && TicketWf(s, t)
    requires PlanBranch(s, tid, t, action, actor, now) == Success(b)
    ensures OpensClosing(s, b, tid, t)
  {
  }

  lemma ResolveLaw(s: State, tid: Id, action: Action, actor: Id, now: Time, c: Change)
    requires tid in s.tickets && TicketWf(s, s.tickets[tid]) && OwnerKnown(s, s.tickets[tid].itemId)
    requires s.tickets[tid].requestId.Some? ==> Known(s, s.tickets[tid].requestId.value)
    requires PlanResolve(s, tid, action, actor, now) == Success(c)
    ensures Lawful(s, c, now)
  {
    var t := s.tickets[tid];
    var b := PlanBranch(s, tid, t, action, actor, now).value;
    BranchLaw(s, tid, t, action, actor, now, b);
    BranchOpensClosing(s, tid, t, action, actor, now, b);
    ClosingLaw(s, b, now, tid, t, action, actor);
  }

  // ---- Completing a return: one status move, then the cascade.

  /** What a completed return writes: the request, the device, every open ticket of the device, and the
      entries RETURN_RECEIVED, ASSIGNMENT_COMPLETED and one SUPPORT_AUTO_CLOSED per ticket as filed. */
  ghost predicate ReturnChange(s: State, rid: Id, iid: Id, next: DeviceStatus, actor: Id, now: Time, c: Change) {
    var open := OpenTickets(s.tickets, iid);
    && rid in s.requests && s.requests[rid].item == Some(iid) && iid in s.items
    && c.requests == map[rid := CompletedRequest(s.requests[rid], Some(next), actor, now)]
    && c.items.Keys == {iid} && c.items[iid].status == next && c.items[iid].owner == None
    && c.extensions == map[] && c.users == map[]
    && (forall t :: t in c.tickets <==> t in open)
    && (forall t :: t in c.tickets ==> t in s.tickets && c.tickets[t] == AutoClosed(s.tickets[t], now))
    && |c.entries| == 2 + |open|
    && c.entries[0] == StatusMove(now, iid, ReturnReceived, actor, s.items[iid].status, next).(requestId := Some(rid))
    && c.entries[1] == ItEntry(now, iid, AssignmentCompleted, actor).(requestId := Some(rid))
    && (forall k :: 2 <= k < |c.entries| ==> c.entries[k] == AutoClosedEntry(now, iid, open[k - 2]))
  }

  lemma ReturnWritesChange(s: State, rid: Id, iid: Id, next: DeviceStatus, actor: Id, now: Time)
    requires rid in s.requests && s.requests[rid].item == Some(iid) && iid in s.items
    ensures ReturnChange(s, rid, iid, next, actor, now, ReturnWrites(s, rid, iid, next, actor, now))
  {
    ClosingEntriesInOrder(now, iid, OpenTickets(s.tickets, iid));
  }

  lemma ReturnChangeHolds(s: State, rid: Id, next: DeviceStatus, actor: Id, now: Time, c: Change)
    requires PlanCompleteReturn(s, rid, next, actor, now) == Success(c)
    ensures ReturnChange(s, rid, s.requests[rid].item.value, next, actor, now, c)
  {
    ReturnWritesChange(s, rid, s.requests[rid].item.value, next, actor, now);
  }

  /** What the entries of a return are about. */
  predicate ReturnedEntries(entries: seq<LogEntry>, rid: Id, iid: Id, open: seq<Id>) {
    && |entries| == 2 + |open|
    && entries[0].event.ReturnReceived? && entries[1].event.AssignmentCompleted?
    && (forall k :: 0 <= k < 2 ==>
          && entries[k].itemId == iid && entries[k].requestId == Some(rid)
          && entries[k].ticketId.None? && entries[k].extensionId.None?)
    && (forall k :: 2 <= k < |entries| ==>
          && entries[k].event.SupportAutoClosed? && entries[k].itemId == iid && entries[k].ticketId == Some(open[k - 2])
          && entries[k].requestId.None? && entries[k].extensionId.None?)
  }

  lemma ReturnEntriesAbout(s: State, rid: Id, iid: Id, next: DeviceStatus, actor: Id, now: Time, c: Change)
    requires ReturnChange(s, rid, iid, next, actor, now, c)
    ensures ReturnedEntries(c.entries, rid, iid, OpenTickets(s.tickets, iid))
  {
  }

  lemma ReturnBearsOnce(s: State, rid: Id, iid: Id, next: DeviceStatus, actor: Id, now: Time, c: Change)
    requires ReturnChange(s, rid, iid, next, actor, now, c)
    ensures forall k :: 1 <= k < |c.entries| ==> !Bears(c.entries[k])
  {
  }

  lemma ReturnShape(s: State, rid: Id, iid: Id, next: DeviceStatus, actor: Id, now: Time, c: Change)
    requires iid in s.items && c.items.Keys == {iid} && c.items[iid].status == next && c.items[iid].owner == None
    requires |c.entries| >= 2 && forall k :: 1 <= k < |c.entries| ==> !Bears(c.entries[k])
    requires c.entries[0] == StatusMove(now, iid, ReturnReceived, actor, s.items[iid].status, next).(requestId := Some(rid))
    ensures Shape(s, c)
  {
    assert EntryTells(s, Commit(s, c), c.entries[0]);
  }

  lemma ReturnRows(s: State, rid: Id, iid: Id, next: DeviceStatus, actor: Id, now: Time, c: Change)
    requires ReturnChange(s, rid, iid, next, actor, now, c) && Known(s, rid)
    requires forall t :: t in s.tickets ==> TicketWf(s, s.tickets[t])
    ensures RowsLaw(s, c)
  {
    var post := Commit(s, c);
    assert RequestStep(s, post, rid);
    forall t | t in c.tickets ensures TicketStep(s, post, t) { assert TicketWf(s, s.tickets[t]); }
  }

  lemma ReturnEntries(s: State, rid: Id, iid: Id, next: DeviceStatus, actor: Id, now: Time, c: Change)
    requires ReturnChange(s, rid, iid, next, actor, now, c)
    ensures EntriesLaw(s, c, now)
  {
    var open := OpenTickets(s.tickets, iid);
    forall k | 0 <= k < |c.entries| ensures EntryWf(Commit(s, c), c.entries[k]) && c.entries[k].occurredAt == now {
      if k >= 2 { assert open[k - 2] in open; }
    }
  }

  lemma ReturnPointers(s: State, rid: Id, iid: Id, next: DeviceStatus, actor: Id, now: Time, c: Change, q: Id)
    requires ReturnChange(s, rid, iid, next, actor, now, c)
    ensures PointerLaw(s, c, q)
  {
    assert forall k :: 0 <= k < |c.entries| ==> !Gives(c.entries[k]);
  }

  lemma ReturnFacts(s: State, rid: Id, iid: Id, next: DeviceStatus, actor: Id, now: Time, c: Change, f: Fact)
    requires ReturnChange(s, rid, iid, next, actor, now, c)
    ensures FactLaw(s, c, f)
  {
    if f.ClosingOf? {
      ReturnClosings(s, rid, iid, next, actor, now, c, f.tid);
    } else {
      assert forall k :: 0 <= k < |c.entries| ==> !Records(c.entries[k], f);
    }
  }

  lemma ReturnClosings(s: State, rid: Id, iid: Id, next: DeviceStatus, actor: Id, now: Time, c: Change, t: Id)
    requires ReturnChange(s, rid, iid, next, actor, now, c)
    ensures FactLaw(s, c, ClosingOf(t))
  {
    var f := ClosingOf(t);
    var open := OpenTickets(s.tickets, iid);
    OpenTicketsAsFiled(s.tickets, iid);
    if t in open {
      var j :| 0 <= j < |open| && open[j] == t;
      assert Records(c.entries[j + 2], f);
      forall k | 0 <= k < |c.entries| && k != j + 2 ensures !Records(c.entries[k], f) {}
    } else {
      forall k | 0 <= k < |c.entries| ensures !Records(c.entries[k], f) {}
    }
  }

  lemma CompleteReturnLaw(s: State, rid: Id, next: DeviceStatus, actor: Id, now: Time, c: Change)
    requires Known(s, rid) && (forall t :: t in s.tickets ==> TicketWf(s, s.tickets[t]))
    requires PlanCompleteReturn(s, rid, next, actor, now) == Success(c)
    ensures Lawful(s, c, now)
  {
    var iid := s.requests[rid].item.value;
    ReturnChangeHolds(s, rid, next, actor, now, c);
    ReturnBearsOnce(s, rid, iid, next, actor, now, c);
    ReturnShape(s, rid, iid, next, actor, now, c);
    ReturnRows(s, rid, iid, next, actor, now, c);
    ReturnEntries(s, rid, iid, next, actor, now, c);
    forall q ensures PointerLaw(s, c, q) { ReturnPointers(s, rid, iid, next, actor, now, c, q); }
    forall f ensures FactLaw(s, c, f) { ReturnFacts(s, rid, iid, next, actor, now, c, f); }
  }
}
