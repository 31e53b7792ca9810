/** The work flows the services are for: shipping out and back, repair, escalation. */
module Workflows {
  import opened Wrappers
  import opened Models
  import opened DeviceLog
  import opened Queries
  import opened Operations
  import opened OperationLaws
  import opened Laws
  import opened Invariants
  import opened Lifecycle
  import opened Race
  import opened Enabled

  /** The request's device has the status and the owner. */
  predicate DeviceAt(s: State, rid: Id, status: DeviceStatus, owner: Option<Id>) {
    && rid in s.requests && s.requests[rid].item.Some? && s.requests[rid].item.value in s.items
    && s.items[s.requests[rid].item.value].status == status && s.items[s.requests[rid].item.value].owner == owner
  }

  /** The request is out with its device at the given status. */
  predicate Out(s: State, rid: Id, status: DeviceStatus, owner: Option<Id>) {
    DeviceAt(s, rid, status, owner) && s.requests[rid].status.Assigned? && s.requests[rid].isWfh
  }

  function Shipping(rid: Id, actor: Id, now: Time): Event { Event(It(Ship(rid), actor), now) }

  function Delivery(rid: Id, actor: Id, now: Time): Event { Event(It(ConfirmDelivery(rid), actor), now) }

  function SendingBack(rid: Id, now: Time): Event { Event(Env(InitiateReturn(rid)), now) }

  function Return(rid: Id, next: DeviceStatus, actor: Id, now: Time): Event { Event(It(CompleteReturn(rid, next), actor), now) }

  /** While a device is being shipped nothing but a confirmed delivery is accepted for its request. */
  lemma InShippingOnlyArrives(s: State, rid: Id, owner: Option<Id>, actor: Id, next: DeviceStatus, now: Time)
    requires Out(s, rid, ShippingPending, owner)
    ensures Succeeds(s, Delivery(rid, actor, now))
    ensures !Succeeds(s, Shipping(rid, actor, now)) && !Succeeds(s, SendingBack(rid, now))
    ensures PlanCompleteReturn(s, rid, next, actor, now) == Failure(Conflict)
  {
  }

  /** Shipping takes the request out of the outbound queue and its device into shipping. */
  lemma ShipsOut(s: State, rid: Id, owner: Option<Id>, actor: Id, now: Time)
    requires Out(s, rid, DeviceStatus.Assigned, owner)
    ensures Succeeds(s, Shipping(rid, actor, now))
    ensures Out(Apply(s, Shipping(rid, actor, now)), rid, ShippingPending, owner)
    ensures !InOutboundQueue(Apply(s, Shipping(rid, actor, now)), rid)
  {
  }

  /** A confirmed delivery brings the device back to assigned, with its owner. */
  lemma Arrives(s: State, rid: Id, owner: Option<Id>, actor: Id, now: Time)
    requires Out(s, rid, ShippingPending, owner)
    ensures Succeeds(s, Delivery(rid, actor, now))
    ensures Out(Apply(s, Delivery(rid, actor, now)), rid, DeviceStatus.Assigned, owner)
  {
  }

  lemma GoesBack(s: State, rid: Id, owner: Option<Id>, now: Time)
    requires Out(s, rid, DeviceStatus.Assigned, owner)
    ensures Succeeds(s, SendingBack(rid, now))
    ensures Out(Apply(s, SendingBack(rid, now)), rid, ReturnShippingPending, owner)
  {
  }

  /** A device handed back, or on its way back, can be received into any status; it is free then and the
      request completed. */
  lemma IsReceived(s: State, rid: Id, status: DeviceStatus, owner: Option<Id>, next: DeviceStatus, actor: Id, now: Time)
    requires DeviceAt(s, rid, status, owner) && (status.Assigned? || status.ReturnShippingPending?)
    ensures Succeeds(s, Return(rid, next, actor, now))
    ensures var post := Apply(s, Return(rid, next, actor, now));
      DeviceAt(post, rid, next, None) && post.requests[rid].status.Completed?
  {
    ReturnChangeHolds(s, rid, next, actor, now, PlanCompleteReturn(s, rid, next, actor, now).value);
  }

  /** In every reachable state a return the employee started can be completed, into any status, and one that
      is still being shipped out cannot. */
  lemma StartedReturnCompletes(s: State, run: seq<Event>, rid: Id, next: DeviceStatus, actor: Id, now: Time, later: Time)
    requires Fresh(s)
    ensures Succeeds(Run(s, run), SendingBack(rid, now)) ==>
      Succeeds(Apply(Run(s, run), SendingBack(rid, now)), Return(rid, next, actor, later))
    ensures DeviceIs(Run(s, run), rid, {ShippingPending}) ==>
      PlanCompleteReturn(Run(s, run), rid, next, actor, later) == Failure(Conflict)
  {
    var r := Run(s, run);
    if Succeeds(r, SendingBack(rid, now)) { SentBackIsReturning(r, rid, now, next, actor, later); }
  }

  lemma SentBackIsReturning(s: State, rid: Id, now: Time, next: DeviceStatus, actor: Id, later: Time)
    requires Succeeds(s, SendingBack(rid, now))
    ensures Succeeds(Apply(s, SendingBack(rid, now)), Return(rid, next, actor, later))
  {
    var post := Apply(s, SendingBack(rid, now));
    assert rid in s.requests && s.requests[rid].item.Some?;
    var owner := s.items[s.requests[rid].item.value].owner;
    assert DeviceAt(post, rid, ReturnShippingPending, owner);
    IsReceived(post, rid, ReturnShippingPending, owner, next, actor, later);
  }

  /** A WFH device makes the whole round: out, delivered, sent back, received into any status. */
  lemma WfhRound(s: State, rid: Id, owner: Option<Id>, next: DeviceStatus, actor: Id, t1: Time, t2: Time, t3: Time, t4: Time)
    requires Out(s, rid, DeviceStatus.Assigned, owner)
    ensures var s1 := Apply(s, Shipping(rid, actor, t1));
      var s2 := Apply(s1, Delivery(rid, actor, t2));
      var s3 := Apply(s2, SendingBack(rid, t3));
      var s4 := Apply(s3, Return(rid, next, actor, t4));
      && Succeeds(s, Shipping(rid, actor, t1)) && Succeeds(s1, Delivery(rid, actor, t2))
      && Succeeds(s2, SendingBack(rid, t3)) && Succeeds(s3, Return(rid, next, actor, t4))
      && DeviceAt(s4, rid, next, None) && s4.requests[rid].status.Completed?
  {
    ShipsOut(s, rid, owner, actor, t1);
    var s1 := Apply(s, Shipping(rid, actor, t1));
    Arrives(s1, rid, owner, actor, t2);
    var s2 := Apply(s1, Delivery(rid, actor, t2));
    GoesBack(s2, rid, owner, t3);
    IsReceived(Apply(s2, SendingBack(rid, t3)), rid, ReturnShippingPending, owner, next, actor, t4);
  }

  /** `assign` puts the request in the outbound queue exactly if it is for work from home and was not shipped
      yet. */
  lemma AssignedIntoQueue(s: State, rid: Id, iid: Id, from: Time, to: Time, isWfh: bool, actor: Id, now: Time, c: Change)
    requires rid in s.requests && s.requests[rid].requester in s.users
    requires PlanAssign(s, rid, iid, from, to, isWfh, actor, now) == Success(c)
    ensures InOutboundQueue(Commit(s, c), rid) <==> isWfh && s.requests[rid].shipInitiatedAt.None?
  {
  }

  // ---- Repair.

  predicate DeviceOf(s: State, tid: Id, status: DeviceStatus, owner: Option<Id>) {
    && tid in s.tickets && s.tickets[tid].itemId in s.items
    && s.items[s.tickets[tid].itemId].status == status && s.items[s.tickets[tid].itemId].owner == owner
  }

  function Starting(tid: Id, actor: Id, now: Time): Event { Event(It(Start(tid), actor), now) }

  function Repairing(tid: Id, actor: Id, now: Time): Event { Event(It(Resolve(tid, DoRepair), actor), now) }

  /** Starting a ticket puts it in progress; only damage takes the device to repair. */
  lemma StartsWork(s: State, tid: Id, status: DeviceStatus, owner: Option<Id>, actor: Id, now: Time)
    requires DeviceOf(s, tid, status, owner) && s.tickets[tid].status.Open?
    ensures Succeeds(s, Starting(tid, actor, now))
    ensures var post := Apply(s, Starting(tid, actor, now));
      && DeviceOf(post, tid, if s.tickets[tid].kind.Damage? then UnderRepair else status, owner)
      && post.tickets[tid].status.InProgress? && post.requests == s.requests
    ensures var log := Apply(s, Starting(tid, actor, now)).log;
      if s.tickets[tid].kind.Damage? then |log| == |s.log| + 1 && log[|s.log|].ticketId == Some(tid) else log == s.log
  {
    assert s.requests + map[] == s.requests;
  }

  lemma GetsRepaired(s: State, tid: Id, owner: Option<Id>, actor: Id, now: Time)
    requires DeviceOf(s, tid, UnderRepair, owner) && !s.tickets[tid].status.Resolved?
    ensures Succeeds(s, Repairing(tid, actor, now))
    ensures var post := Apply(s, Repairing(tid, actor, now));
      DeviceOf(post, tid, DeviceStatus.Assigned, owner) && post.tickets[tid].status.Resolved? && post.requests == s.requests
  {
    assert s.requests + map[] == s.requests;
  }

  /** Damage repaired in place: the device goes to repair and comes back assigned to the same owner, and no
      request is touched. */
  lemma RepairCycle(s: State, tid: Id, status: DeviceStatus, owner: Option<Id>, actor: Id, now: Time, later: Time)
    requires DeviceOf(s, tid, status, owner) && s.tickets[tid].status.Open? && s.tickets[tid].kind.Damage?
    ensures var s1 := Apply(s, Starting(tid, actor, now));
      var s2 := Apply(s1, Repairing(tid, actor, later));
      && Succeeds(s, Starting(tid, actor, now)) && Succeeds(s1, Repairing(tid, actor, later))
      && DeviceOf(s2, tid, DeviceStatus.Assigned, owner) && s2.tickets[tid].status.Resolved? && s2.requests == s.requests
  {
    StartsWork(s, tid, status, owner, actor, now);
    GetsRepaired(Apply(s, Starting(tid, actor, now)), tid, owner, actor, later);
  }

  // ---- Swap.

  /** A swap names on the ticket the device it moved the tied request to; no other resolution moves a request
      or names a device. */
  lemma SwapNamesNewDevice(s: State, tid: Id, action: Action, actor: Id, now: Time, c: Change)
    requires PlanResolve(s, tid, action, actor, now) == Success(c)
    ensures var post, t := Commit(s, c), s.tickets[tid];
      && tid in post.tickets
      && (action.DoRemote? ==> post.tickets[tid].resolution == Some(RemoteResolved))
      && (action.DoRepair? ==> post.tickets[tid].resolution == Some(RepairedInPlace))
      && (action.DoSwap? ==> post.tickets[tid].resolution == Some(SupportResolution.Swapped))
      && (action.DoLost? ==> post.tickets[tid].resolution == Some(SupportResolution.MarkedLost))
      && (action.DoSwap? ==>
            && t.requestId.Some? && t.requestId.value in post.requests
            && post.tickets[tid].swappedTo == post.requests[t.requestId.value].item == Some(action.to))
      && (!action.DoSwap? ==>
            && post.tickets[tid].swappedTo == t.swappedTo
            && forall q :: q in s.requests ==> q in post.requests && post.requests[q].item == s.requests[q].item)
  {
  }

  // ---- Escalation.

  /** The manager named, or else the requester's own. */
  predicate ManagerFor(s: State, rid: Id, named: Option<Id>, manager: Option<Id>)
    requires rid in s.requests && s.requests[rid].requester in s.users
  {
    if named.Some? then manager == named else manager == s.users[s.requests[rid].requester].managerId
  }

  function Escalating(rid: Id, manager: Option<Id>, actor: Id, now: Time): Event {
    Event(It(Escalate(rid, manager), actor), now)
  }

  /** An escalated request waits for the manager named, or else the requester's own. It cannot be escalated
      again, nor assigned or rejected by IT until the manager has decided. */
  lemma EscalatedWaitsForManager(s: State, rid: Id, manager: Option<Id>, actor: Id, now: Time)
    requires rid in s.requests && s.requests[rid].requester in s.users && Succeeds(s, Escalating(rid, manager, actor, now))
    ensures var post := Apply(s, Escalating(rid, manager, actor, now));
      && RequestIs(post, rid, PendingMgrApproval) && post.requests[rid].requiresMgr && post.requests[rid].mgrApproval.Pending?
      && ManagerFor(s, rid, manager, post.requests[rid].manager)
      && (forall m, a, t :: !Succeeds(post, Escalating(rid, m, a, t)))
      && (forall i, f, t, w, a, n :: !PlanAssign(post, rid, i, f, t, w, a, n).Success?)
      && (forall a, n :: !PlanReject(post, rid, a, n).Success?)
  {
  }

  // ---- Edits.

  /** An edit sets the fields asked for and no other; asking again changes nothing and logs nothing. */
  lemma EditSetsWhatWasAsked(s: State, iid: Id, u: ItemUpdates, actor: Id, now: Time, c: Change, later: Time)
    requires PlanEditItem(s, iid, u, actor, now) == Success(c)
    ensures var a, b := s.items[iid], Commit(s, c).items[iid];
      && (if u.name.Some? then b.name == u.name.value else b.name == a.name)
      && (if u.categoryId.Some? then b.categoryId == u.categoryId.value else b.categoryId == a.categoryId)
      && (if u.clientName.Some? then b.clientName == u.clientName.value else b.clientName == a.clientName)
      && (if u.purchaseDate.Some? then b.purchaseDate == u.purchaseDate.value else b.purchaseDate == a.purchaseDate)
      && b.status == a.status && b.owner == a.owner && b.serialNo == a.serialNo && b.ownerType == a.ownerType
    ensures var again := PlanEditItem(Commit(s, c), iid, u, actor, later);
      again.Success? && again.value.entries == [] && Commit(Commit(s, c), again.value).items == Commit(s, c).items
  {
    var again := PlanEditItem(Commit(s, c), iid, u, actor, later).value;
    assert again.items == map[iid := Commit(s, c).items[iid]];
  }

  /** A created device is as asked for: free, available, and a company's device has no client. */
  lemma CreatedAsAsked(
    s: State, iid: Id, serialNo: string, name: string, category: Id, ownerType: OwnerType,
    clientName: Option<string>, purchaseDate: Option<Time>, actor: Id, now: Time, c: Change)
    requires PlanCreateItem(s, iid, serialNo, name, category, ownerType, clientName, purchaseDate, actor, now) == Success(c)
    ensures var i := Commit(s, c).items[iid];
      && i.serialNo == serialNo && i.name == name && i.categoryId == category && i.ownerType == ownerType
      && i.clientName == (if ownerType.Company? then None else clientName) && i.purchaseDate == purchaseDate
      && i.status.Available? && i.owner.None?
  {
  }
}
