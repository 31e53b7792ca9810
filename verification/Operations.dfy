/** What each operation commits, as a function of the state it starts from.

    A service call either fails or flushes a set of rows and appends log entries; `Change` is that
    unit of work. `Plan` gives the change or the failure of every operation. The IT operations are
    those of app/services; the environment operations are the employee and manager actions the
    services leave to others. */
module Operations {
  import opened Wrappers
  import opened Models
  import opened DeviceLog
  import opened Queries

  datatype Change = Change(
    items: map<Id, Item>,
    requests: map<Id, Request>,
    tickets: map<Id, Ticket>,
    extensions: map<Id, Extension>,
    users: map<Id, User>,
    entries: seq<LogEntry>)

  const NOTHING := Change(map[], map[], map[], map[], map[], [])

  function Commit(s: State, c: Change): State {
    State(s.items + c.items, s.requests + c.requests, s.tickets + c.tickets,
          s.extensions + c.extensions, s.users + c.users, s.categories, s.log + c.entries)
  }

  type Outcome = Result<Change, Error>

  /** `updated_at` moves only when the flush finds a changed column. */
  function Touched(old_: Item, new_: Item, now: Time): Item {
    if old_ == new_ then old_ else new_.(updatedAt := now)
  }

  /** The entry of an IT administrator with the map's milestone flag. */
  function ItEntry(now: Time, item: Id, event: DeviceLogEvent, actor: Id): LogEntry {
    NewEntry(now, item, event, Some(actor), ItAdmin)
  }

  // ---- app/services/assignment_service.py

  function AssignedRequest(r: Request, iid: Id, from: Time, to: Time, isWfh: bool, actor: Id, now: Time): Request {
    r.(item := Some(iid), assignedFrom := Some(from), assignedTo := Some(to), isWfh := isWfh,
       decidedBy := Some(actor), decidedAt := Some(now), status := RequestStatus.Assigned)
  }

  function DirectRequest(item: Item, iid: Id, emp: Id, from: Time, to: Time, actor: Id, now: Time): Request {
    Request(emp, item.categoryId, Some(iid), from, to, Some(from), Some(to), RequestStatus.Assigned,
            false, NotRequired, None, Some(actor), Some(now), None, None, None,
            false, None, None, None, None, None, None, true, now)
  }

  function HandedTo(item: Item, user: Id, now: Time): Item {
    Touched(item, item.(status := DeviceStatus.Assigned, owner := Some(user)), now)
  }

  function AssignWrites(s: State, rid: Id, iid: Id, from: Time, to: Time, isWfh: bool, actor: Id, now: Time): Change
    requires rid in s.requests && iid in s.items
  {
    NOTHING.(
      requests := map[rid := AssignedRequest(s.requests[rid], iid, from, to, isWfh, actor, now)],
      items := map[iid := HandedTo(s.items[iid], s.requests[rid].requester, now)],
      entries := [ItEntry(now, iid, DeviceLogEvent.Assigned, actor).(
                    requestId := Some(rid), fromValue := Some(Available), toValue := Some(DeviceStatus.Assigned))])
  }

  /** The guards `assign` checks before it writes. */
  function AssignGuards(s: State, rid: Id, iid: Id, from: Time, to: Time): Option<Error> {
    if rid !in s.requests then Some(NotFound)
    else if !s.requests[rid].status.PendingItApproval? then Some(Conflict)
    else if iid !in s.items then Some(NotFound)
    else if !s.items[iid].status.Available? then Some(Conflict)
    else if s.items[iid].categoryId != s.requests[rid].categoryId then Some(Validation)
    else if HasOverlap(s.requests, iid, from, to, Some(rid)) then Some(Conflict)
    else None
  }

  function PlanAssign(s: State, rid: Id, iid: Id, from: Time, to: Time, isWfh: bool, actor: Id, now: Time): Outcome {
    match AssignGuards(s, rid, iid, from, to)
    case Some(e) => Failure(e)
    case None =>
      var c := AssignWrites(s, rid, iid, from, to, isWfh, actor, now);
      if Collides(s.requests, rid, c.requests[rid]) then Failure(IndexConflict) else Success(c)
  }

  function DirectWrites(s: State, rid: Id, iid: Id, emp: Id, from: Time, to: Time, actor: Id, now: Time): Change
    requires iid in s.items
  {
    NOTHING.(
      requests := map[rid := DirectRequest(s.items[iid], iid, emp, from, to, actor, now)],
      items := map[iid := HandedTo(s.items[iid], emp, now)],
      entries := [ItEntry(now, iid, ClientAssigned, actor).(
                    requestId := Some(rid), fromValue := Some(Available), toValue := Some(DeviceStatus.Assigned))])
  }

  function DirectGuards(s: State, iid: Id, emp: Id, from: Time, to: Time): Option<Error> {
    if iid !in s.items then Some(NotFound)
    else if !s.items[iid].ownerType.Client? then Some(Validation)
    else if !s.items[iid].status.Available? then Some(Conflict)
    else if HasOverlap(s.requests, iid, from, to, None) then Some(Conflict)
    else if emp !in s.users then Some(NotFound)
    else if !s.users[emp].isActive then Some(Conflict)
    else None
  }

  function PlanDirectAssign(s: State, rid: Id, iid: Id, emp: Id, from: Time, to: Time, actor: Id, now: Time): Outcome {
    match DirectGuards(s, iid, emp, from, to)
    case Some(e) => Failure(e)
    case None =>
      var c := DirectWrites(s, rid, iid, emp, from, to, actor, now);
      if rid in s.requests || Collides(s.requests, rid, c.requests[rid]) then Failure(IndexConflict)
      else Success(c)
  }

  function PlanUpdateBookingRange(s: State, rid: Id, from: Time, to: Time): Outcome {
    if rid !in s.requests then Failure(NotFound)
    else
      var r := s.requests[rid];
      if !r.status.Assigned? then Failure(Conflict)
      else if r.item.None? then Failure(AssertionCrash)
      else if HasOverlap(s.requests, r.item.value, from, to, Some(rid)) then Failure(Conflict)
      else Success(NOTHING.(requests := map[rid := r.(assignedFrom := Some(from), assignedTo := Some(to))]))
  }

  // ---- app/services/shipping_service.py

  /** `_get_request_or_404` followed by `_get_assigned_item_or_404`. */
  function AssignedItemGuards(s: State, rid: Id): Option<Error> {
    if rid !in s.requests then Some(NotFound)
    else if s.requests[rid].item.None? then Some(Conflict)
    else if s.requests[rid].item.value !in s.items then Some(NotFound)
    else None
  }

  function StatusMove(now: Time, iid: Id, event: DeviceLogEvent, actor: Id, from: DeviceStatus, to: DeviceStatus): LogEntry {
    ItEntry(now, iid, event, actor).(fromValue := Some(from), toValue := Some(to))
  }

  function Moved(item: Item, status: DeviceStatus, now: Time): Item {
    Touched(item, item.(status := status), now)
  }

  function PlanShip(s: State, rid: Id, actor: Id, now: Time): Outcome {
    if rid in s.requests && !s.requests[rid].isWfh then Failure(Validation)
    else match AssignedItemGuards(s, rid)
      case Some(e) => Failure(e)
      case None =>
        var r := s.requests[rid];
        var iid := r.item.value;
        if !s.items[iid].status.Assigned? then Failure(Conflict)
        else Success(NOTHING.(
          requests := map[rid := r.(shipInitiatedAt := Some(now))],
          items := map[iid := Moved(s.items[iid], ShippingPending, now)],
          entries := [StatusMove(now, iid, ShipOutboundInitiated, actor, DeviceStatus.Assigned, ShippingPending)
                        .(requestId := Some(rid))]))
  }

  function PlanConfirmDelivery(s: State, rid: Id, actor: Id, now: Time): Outcome {
    match AssignedItemGuards(s, rid)
    case Some(e) => Failure(e)
    case None =>
      var r := s.requests[rid];
      var iid := r.item.value;
      if !s.items[iid].status.ShippingPending? then Failure(Conflict)
      else Success(NOTHING.(
        requests := map[rid := r.(shipCompletedAt := Some(now))],
        items := map[iid := Moved(s.items[iid], DeviceStatus.Assigned, now)],
        entries := [StatusMove(now, iid, ShipOutboundCompleted, actor, ShippingPending, DeviceStatus.Assigned)
                      .(requestId := Some(rid))]))
  }

  function CompletedRequest(r: Request, next: Option<DeviceStatus>, actor: Id, now: Time): Request {
    r.(status := Completed, completedAt := Some(now), completedBy := Some(actor), completedNextStatus := next)
  }

  function AutoClosed(t: Ticket, now: Time): Ticket {
    t.(status := Resolved, autoClosed := true, resolvedAt := Some(now))
  }

  function AutoClosedEntry(now: Time, iid: Id, tid: Id): LogEntry {
    NewEntry(now, iid, SupportAutoClosed, None, System).(ticketId := Some(tid))
  }

  /** One SUPPORT_AUTO_CLOSED per ticket, in the given order. */
  function ClosingEntries(now: Time, iid: Id, open: seq<Id>): seq<LogEntry> {
    if open == [] then []
    else ClosingEntries(now, iid, open[..|open| - 1]) + [AutoClosedEntry(now, iid, open[|open| - 1])]
  }

  lemma {:induction false} ClosingEntriesInOrder(now: Time, iid: Id, open: seq<Id>)
    ensures var r := ClosingEntries(now, iid, open);
      |r| == |open| && forall k :: 0 <= k < |r| ==> r[k] == AutoClosedEntry(now, iid, open[k])
  {
    if open != [] { ClosingEntriesInOrder(now, iid, open[..|open| - 1]); }
  }

  /** The rows the cascade writes: the listed tickets, closed. */
  function CascadeRows(tickets: map<Id, Ticket>, open: seq<Id>, now: Time): map<Id, Ticket>
    requires forall t :: t in open ==> t in tickets
  {
    map t | t in open :: AutoClosed(tickets[t], now)
  }

  function ReturnWrites(s: State, rid: Id, iid: Id, next: DeviceStatus, actor: Id, now: Time): Change
    requires rid in s.requests && iid in s.items
  {
    var item := s.items[iid];
    var open := OpenTickets(s.tickets, iid);
    NOTHING.(
      requests := map[rid := CompletedRequest(s.requests[rid], Some(next), actor, now)],
      items := map[iid := Touched(item, item.(status := next, owner := None), now)],
      tickets := CascadeRows(s.tickets, open, now),
      entries :=
        [StatusMove(now, iid, ReturnReceived, actor, item.status, next).(requestId := Some(rid)),
         ItEntry(now, iid, AssignmentCompleted, actor).(requestId := Some(rid))]
        + ClosingEntries(now, iid, open))
  }

  function PlanCompleteReturn(s: State, rid: Id, next: DeviceStatus, actor: Id, now: Time): Outcome {
    match AssignedItemGuards(s, rid)
    case Some(e) => Failure(e)
    case None =>
      var iid := s.requests[rid].item.value;
      var status := s.items[iid].status;
      if !status.Assigned? && !status.ReturnShippingPending? then Failure(Conflict)
      else Success(ReturnWrites(s, rid, iid, next, actor, now))
  }

  // ---- app/services/support_service.py

  /** What `resolve` is asked to do; a swap carries the two fields its schema makes mandatory. */
  datatype Action = DoRemote | DoRepair | DoSwap(to: Id, oldNext: DeviceStatus) | DoLost {
    function Resolution(): SupportResolution {
      match this
      case DoRemote => RemoteResolved
      case DoRepair => RepairedInPlace
      case DoSwap(_, _) => SupportResolution.Swapped
      case DoLost => SupportResolution.MarkedLost
    }
  }

  function PlanStart(s: State, tid: Id, actor: Id, now: Time): Outcome {
    if tid !in s.tickets then Failure(NotFound)
    else
      var t := s.tickets[tid];
      if !t.status.Open? then Failure(Conflict)
      else
        var started := NOTHING.(tickets := map[tid := t.(status := InProgress)]);
        if !t.kind.Damage? then Success(started)
        else if t.itemId !in s.items then Failure(NotFound)
        else Success(started.(
          items := map[t.itemId := Moved(s.items[t.itemId], UnderRepair, now)],
          entries := [StatusMove(now, t.itemId, StatusChanged, actor, s.items[t.itemId].status, UnderRepair)
                        .(ticketId := Some(tid))]))
  }

  function PlanRepair(s: State, tid: Id, t: Ticket, actor: Id, now: Time): Outcome
    requires t.itemId in s.items
  {
    if !s.items[t.itemId].status.UnderRepair? then Failure(Conflict)
    else Success(NOTHING.(
      items := map[t.itemId := Moved(s.items[t.itemId], DeviceStatus.Assigned, now)],
      entries := [StatusMove(now, t.itemId, StatusChanged, actor, UnderRepair, DeviceStatus.Assigned)
                    .(ticketId := Some(tid))]))
  }

  function SwapGuards(s: State, t: Ticket, to: Id): Option<Error>
    requires t.itemId in s.items
  {
    if to == t.itemId then Some(Validation)
    else if t.requestId.None? then Some(Conflict)
    else if to !in s.items then Some(NotFound)
    else if s.items[to].categoryId != s.items[t.itemId].categoryId then Some(Validation)
    else if !s.items[to].status.Available? then Some(Conflict)
    else if t.requestId.value !in s.requests then Some(NotFound)
    else None
  }

  function SwapEntry(now: Time, iid: Id, event: DeviceLogEvent, actor: Id, rid: Id, tid: Id): LogEntry {
    ItEntry(now, iid, event, actor).(requestId := Some(rid), ticketId := Some(tid), isMilestone := true)
  }

  function SwapWrites(s: State, tid: Id, t: Ticket, to: Id, oldNext: DeviceStatus, actor: Id, now: Time): Change
    requires t.itemId in s.items && to in s.items && t.requestId.Some? && t.requestId.value in s.requests
  {
    var rid := t.requestId.value;
    var r := s.requests[rid];
    var old_ := s.items[t.itemId];
    NOTHING.(
      requests := map[rid := r.(item := Some(to))],
      items := map[t.itemId := Touched(old_, old_.(status := oldNext, owner := None), now),
                   to := HandedTo(s.items[to], r.requester, now)],
      entries := [SwapEntry(now, t.itemId, SwappedOut, actor, rid, tid),
                  SwapEntry(now, to, SwappedIn, actor, rid, tid)])
  }

  function PlanSwap(s: State, tid: Id, t: Ticket, to: Id, oldNext: DeviceStatus, actor: Id, now: Time): Outcome
    requires t.itemId in s.items
  {
    match SwapGuards(s, t, to)
    case Some(e) => Failure(e)
    case None =>
      var c := SwapWrites(s, tid, t, to, oldNext, actor, now);
      var rid := t.requestId.value;
      if Collides(s.requests, rid, c.requests[rid]) then Failure(IndexCrash) else Success(c)
  }

  function PlanMarkLost(s: State, tid: Id, t: Ticket, actor: Id, now: Time): Outcome
    requires t.itemId in s.items
  {
    if t.requestId.None? then Failure(Conflict)
    else if t.requestId.value !in s.requests then Failure(NotFound)
    else
      var rid := t.requestId.value;
      Success(NOTHING.(
        requests := map[rid := CompletedRequest(s.requests[rid], None, actor, now)],
        items := map[t.itemId := Moved(s.items[t.itemId], DeviceStatus.Lost, now)],
        entries := [StatusMove(now, t.itemId, DeviceLogEvent.MarkedLost, actor, s.items[t.itemId].status,
                               DeviceStatus.Lost)
                      .(requestId := Some(rid), ticketId := Some(tid))]))
  }

  function PlanBranch(s: State, tid: Id, t: Ticket, action: Action, actor: Id, now: Time): Outcome
    requires t.itemId in s.items
  {
    match action
    case DoRemote => Success(NOTHING)
    case DoRepair => PlanRepair(s, tid, t, actor, now)
    case DoSwap(to, oldNext) => PlanSwap(s, tid, t, to, oldNext, actor, now)
    case DoLost => PlanMarkLost(s, tid, t, actor, now)
  }

  function ResolvedTicket(t: Ticket, action: Action, actor: Id, now: Time): Ticket {
    t.(status := Resolved, resolution := Some(action.Resolution()), resolvedBy := Some(actor),
       resolvedAt := Some(now), swappedTo := if action.DoSwap? then Some(action.to) else t.swappedTo)
  }

  /** The branch's change together with the closing of the ticket, which every resolution shares. */
  function Closing(c: Change, tid: Id, t: Ticket, action: Action, actor: Id, now: Time): Change {
    c.(tickets := map[tid := ResolvedTicket(t, action, actor, now)],
       entries := c.entries + [ItEntry(now, t.itemId, SupportResolved, actor).(ticketId := Some(tid))])
  }

  function PlanResolve(s: State, tid: Id, action: Action, actor: Id, now: Time): Outcome {
    if tid !in s.tickets then Failure(NotFound)
    else
      var t := s.tickets[tid];
      if t.status.Resolved? then Failure(Conflict)
      else if t.itemId !in s.items then Failure(NotFound)
      else match PlanBranch(s, tid, t, action, actor, now)
        case Failure(e) => Failure(e)
        case Success(c) => Success(Closing(c, tid, t, action, actor, now))
  }

  // ---- app/services/request_service.py

  function PlanReject(s: State, rid: Id, actor: Id, now: Time): Outcome {
    if rid !in s.requests then Failure(NotFound)
    else if !s.requests[rid].status.PendingItApproval? then Failure(Conflict)
    else Success(NOTHING.(requests := map[rid := s.requests[rid].(
      status := RequestStatus.Rejected, rejectedBy := Some(ByItAdmin), decidedBy := Some(actor), decidedAt := Some(now))]))
  }

  function PlanCancel(s: State, rid: Id, actor: Id, now: Time): Outcome {
    if rid !in s.requests then Failure(NotFound)
    else if Terminal(s.requests[rid].status) then Failure(Conflict)
    else Success(NOTHING.(requests := map[rid := s.requests[rid].(
      status := Cancelled, cancelledBy := Some(actor), cancelledAt := Some(now), rejectedBy := Some(ByItAdminCancel))]))
  }

  /** The manager asked for, or else the requester's own. */
  function ResolvedManager(s: State, r: Request, manager: Option<Id>): Option<Id> {
    if manager.Some? then manager
    else if r.requester in s.users then s.users[r.requester].managerId
    else None
  }

  function PlanEscalate(s: State, rid: Id, manager: Option<Id>): Outcome {
    if rid !in s.requests then Failure(NotFound)
    else
      var r := s.requests[rid];
      if !r.status.PendingItApproval? || r.requiresMgr then Failure(Conflict)
      else
        var m := ResolvedManager(s, r, manager);
        var row := r.(requiresMgr := true, mgrApproval := MgrApproval.Pending, manager := m, status := PendingMgrApproval);
        if m.Some? && m.value !in s.users then Failure(ForeignKeyCrash)
        else if Collides(s.requests, rid, row) then Failure(IndexCrash)
        else Success(NOTHING.(requests := map[rid := row]))
  }

  // ---- app/services/extension_service.py

  function DecisionEntry(now: Time, x: Extension, xid: Id, iid: Id, event: DeviceLogEvent, actor: Id): LogEntry {
    ItEntry(now, iid, event, actor).(requestId := Some(x.requestId), extensionId := Some(xid), isMilestone := false)
  }

  function PlanExtensionApprove(s: State, xid: Id, actor: Id, now: Time): Outcome {
    if xid !in s.extensions then Failure(NotFound)
    else
      var x := s.extensions[xid];
      if !x.status.Pending? then Failure(Conflict)
      else if !x.mgrApproval.NotRequired? && !x.mgrApproval.Approved? then Failure(Conflict)
      else if x.requestId !in s.requests then Failure(NotFound)
      else
        var r := s.requests[x.requestId];
        if r.item.None? then Failure(AssertionCrash)
        else Success(NOTHING.(
          requests := map[x.requestId := r.(assignedTo := Some(x.extendedTo))],
          extensions := map[xid := x.(status := ExtensionStatus.Approved, decidedBy := Some(actor), decidedAt := Some(now))],
          entries := [DecisionEntry(now, x, xid, r.item.value, ExtensionApproved, actor)]))
  }

  function PlanExtensionReject(s: State, xid: Id, actor: Id, now: Time): Outcome {
    if xid !in s.extensions then Failure(NotFound)
    else
      var x := s.extensions[xid];
      if !x.status.Pending? then Failure(Conflict)
      else if x.requestId !in s.requests then Failure(NotFound)
      else
        var r := s.requests[x.requestId];
        if r.item.None? then Failure(AssertionCrash)
        else Success(NOTHING.(
          extensions := map[xid := x.(status := ExtensionStatus.Rejected, decidedBy := Some(actor), decidedAt := Some(now))],
          entries := [DecisionEntry(now, x, xid, r.item.value, ExtensionRejected, actor)]))
  }

  // ---- app/services/inventory_service.py

  /** _STATUS_EVENT_MAP with its default. */
  function StatusEvent(status: DeviceStatus): DeviceLogEvent {
    match status
    case Lost => DeviceLogEvent.MarkedLost
    case Retired => DeviceLogEvent.Retired
    case ReturnedToClient => DeviceLogEvent.ReturnedToClient
    case _ => StatusChanged
  }

  function PlanChangeStatus(s: State, iid: Id, status: DeviceStatus, actor: Id, now: Time): Outcome {
    if iid !in s.items then Failure(NotFound)
    else Success(NOTHING.(
      items := map[iid := Moved(s.items[iid], status, now)],
      entries := [StatusMove(now, iid, StatusEvent(status), actor, s.items[iid].status, status)]))
  }

  function PlanCreateItem(
    s: State, iid: Id, serialNo: string, name: string, category: Id, ownerType: OwnerType,
    clientName: Option<string>, purchaseDate: Option<Time>, actor: Id, now: Time): Outcome
  {
    if category !in s.categories then Failure(NotFound)
    else if exists i :: i in s.items && s.items[i].serialNo == serialNo then Failure(Conflict)
    else if iid in s.items then Failure(IndexCrash)
    else Success(NOTHING.(
      items := map[iid := Item(serialNo, name, category, ownerType, if ownerType.Client? then clientName else None,
                               purchaseDate, Available, None, now)],
      entries := [ItEntry(now, iid, DeviceCreated, actor).(toValue := Some(Available))]))
  }

  /** The fields a PATCH may carry; `None` means the key is absent. */
  datatype ItemUpdates = ItemUpdates(
    name: Option<string>,
    categoryId: Option<Id>,
    clientName: Option<Option<string>>,
    purchaseDate: Option<Option<Time>>)

  function Edited(item: Item, u: ItemUpdates): Item {
    item.(name := u.name.GetOr(item.name), categoryId := u.categoryId.GetOr(item.categoryId),
          clientName := u.clientName.GetOr(item.clientName), purchaseDate := u.purchaseDate.GetOr(item.purchaseDate))
  }

  function PlanEditItem(s: State, iid: Id, updates: ItemUpdates, actor: Id, now: Time): Outcome {
    if iid !in s.items then Failure(NotFound)
    else if updates.categoryId.Some? && updates.categoryId.value !in s.categories then Failure(NotFound)
    else
      var item := Edited(s.items[iid], updates);
      Success(NOTHING.(
        items := map[iid := Touched(s.items[iid], item, now)],
        entries := if item == s.items[iid] then [] else [ItEntry(now, iid, DeviceEdited, actor)]))
  }

  // ---- app/services/user_service.py

  function PlanDeactivate(s: State, uid: Id): Outcome {
    if uid !in s.users then Failure(NotFound)
    else if HoldsOrAwaits(s.items, s.requests, uid) then Failure(Conflict)
    else Success(NOTHING.(users := map[uid := s.users[uid].(isActive := false)]))
  }

  function PlanActivate(s: State, uid: Id): Outcome {
    if uid !in s.users then Failure(NotFound)
    else Success(NOTHING.(users := map[uid := s.users[uid].(isActive := true)]))
  }

  // ---- Employee and manager actions: what the services assume about the rest of the system.

  function PlanFileRequest(
    s: State, rid: Id, requester: Id, category: Id, from: Time, to: Time, route: RequestStatus, requiresMgr: bool,
    now: Time): Outcome
  {
    if rid in s.requests || requester !in s.users || category !in s.categories then Failure(ForeignKeyCrash)
    else if !s.users[requester].isActive then Failure(Conflict)
    else if !(route.Requested? || (route.PendingMgrApproval? && requiresMgr) || (route.PendingItApproval? && !requiresMgr))
    then Failure(Validation)
    else Success(NOTHING.(requests := map[rid :=
      Request(requester, category, None, from, to, None, None, route, requiresMgr,
              if route.PendingMgrApproval? then MgrApproval.Pending else NotRequired, s.users[requester].managerId,
              None, None, None, None, None, false, None, None, None, None, None, None, false, now)]))
  }

  /** A request leaves REQUESTED for the queue its manager flag selects. */
  function PlanRoute(s: State, rid: Id): Outcome {
    if rid !in s.requests then Failure(NotFound)
    else
      var r := s.requests[rid];
      var row := if r.requiresMgr then r.(status := PendingMgrApproval, mgrApproval := MgrApproval.Pending)
                 else r.(status := PendingItApproval);
      if !r.status.Requested? then Failure(Conflict)
      else if Collides(s.requests, rid, row) then Failure(IndexCrash)
      else Success(NOTHING.(requests := map[rid := row]))
  }

  function PlanManagerDecision(s: State, rid: Id, approve: bool): Outcome {
    if rid !in s.requests then Failure(NotFound)
    else
      var r := s.requests[rid];
      var row := if approve then r.(status := PendingItApproval, mgrApproval := MgrApproval.Approved)
                 else r.(status := RequestStatus.Rejected, mgrApproval := MgrApproval.Rejected,
                         rejectedBy := Some(ByManager));
      if !r.status.PendingMgrApproval? then Failure(Conflict)
      else if Collides(s.requests, rid, row) then Failure(IndexCrash)
      else Success(NOTHING.(requests := map[rid := row]))
  }

  function EmployeeEntry(now: Time, item: Id, event: DeviceLogEvent, actor: Id): LogEntry {
    NewEntry(now, item, event, Some(actor), Employee)
  }

  function PlanFileTicket(s: State, tid: Id, iid: Id, requester: Id, requestId: Option<Id>, kind: SupportType, now: Time): Outcome {
    if || tid in s.tickets || iid !in s.items || requester !in s.users
       || (requestId.Some? && requestId.value !in s.requests) then Failure(ForeignKeyCrash)
    else Success(NOTHING.(
      tickets := map[tid := Ticket(iid, requester, requestId, kind, Open, None, None, now, None, None, false)],
      entries := [EmployeeEntry(now, iid, SupportOpened, requester).(requestId := requestId, ticketId := Some(tid))]))
  }

  function PlanFileExtension(s: State, xid: Id, rid: Id, extendedTo: Time, needsManager: bool, now: Time): Outcome {
    if xid in s.extensions || rid !in s.requests then Failure(ForeignKeyCrash)
    else
      var r := s.requests[rid];
      if !r.status.Assigned? || r.item.None? then Failure(Conflict)
      else Success(NOTHING.(
        extensions := map[xid := Extension(rid, r.requester, extendedTo, ExtensionStatus.Pending,
                                           if needsManager then MgrApproval.Pending else NotRequired, None, None)],
        entries := [EmployeeEntry(now, r.item.value, ExtensionRequested, r.requester)
                      .(requestId := Some(rid), extensionId := Some(xid))]))
  }

  function PlanExtensionManagerDecision(s: State, xid: Id, approve: bool): Outcome {
    if xid !in s.extensions then Failure(NotFound)
    else if !s.extensions[xid].mgrApproval.Pending? then Failure(Conflict)
    else Success(NOTHING.(extensions := map[xid := s.extensions[xid].(
      mgrApproval := if approve then MgrApproval.Approved else MgrApproval.Rejected)]))
  }

  function PlanInitiateReturn(s: State, rid: Id, now: Time): Outcome {
    match AssignedItemGuards(s, rid)
    case Some(e) => Failure(e)
    case None =>
      var r := s.requests[rid];
      var iid := r.item.value;
      if !r.status.Assigned? || !s.items[iid].status.Assigned? then Failure(Conflict)
      else Success(NOTHING.(
        requests := map[rid := r.(returnInitiatedAt := Some(now))],
        items := map[iid := Moved(s.items[iid], ReturnShippingPending, now)],
        entries := [EmployeeEntry(now, iid, ReturnShipInitiated, r.requester).(
                      requestId := Some(rid), fromValue := Some(DeviceStatus.Assigned),
                      toValue := Some(ReturnShippingPending))]))
  }

  // ---- Operations and runs

  datatype ItOp =
    | Assign(rid: Id, iid: Id, from: Time, to: Time, isWfh: bool)
    | DirectAssign(rid: Id, iid: Id, employee: Id, from: Time, to: Time)
    | UpdateBookingRange(rid: Id, from: Time, to: Time)
    | Ship(rid: Id)
    | ConfirmDelivery(rid: Id)
    | CompleteReturn(rid: Id, next: DeviceStatus)
    | Start(tid: Id)
    | Resolve(tid: Id, action: Action)
    | Reject(rid: Id)
    | Cancel(rid: Id)
    | Escalate(rid: Id, manager: Option<Id>)
    | ExtensionApprove(xid: Id)
    | ExtensionReject(xid: Id)
    | ChangeStatus(iid: Id, status: DeviceStatus)
    | CreateItem(iid: Id, serialNo: string, name: string, category: Id, ownerType: OwnerType,
                 clientName: Option<string>, purchaseDate: Option<Time>)
    | EditItem(iid: Id, updates: ItemUpdates)
    | Deactivate(uid: Id)
    | Activate(uid: Id)

  /** The operations on devices in someone's hands. */
  predicate MovesDevices(op: ItOp) {
    || op.Assign? || op.DirectAssign? || op.Ship? || op.ConfirmDelivery? || op.CompleteReturn? || op.Start? || op.Resolve?
  }

  /** What the request schemas let through to the services; they restrict nothing else here. */
  predicate Accepted(op: ItOp) {
    match op
    case ChangeStatus(_, status) => !InCustody(status)
    case CompleteReturn(_, next) => next.Available? || next.UnderRepair? || next.Retired?
    case CreateItem(_, _, _, _, ownerType, clientName, _) => ownerType.Client? ==> clientName.Some? && clientName.value != ""
    case _ => true
  }

  datatype EnvOp =
    | FileRequest(rid: Id, requester: Id, category: Id, from: Time, to: Time, route: RequestStatus, requiresMgr: bool)
    | RouteRequest(rid: Id)
    | ManagerDecision(rid: Id, approve: bool)
    | FileTicket(tid: Id, iid: Id, requester: Id, requestId: Option<Id>, kind: SupportType)
    | FileExtension(xid: Id, rid: Id, extendedTo: Time, needsManager: bool)
    | ExtensionManagerDecision(xid: Id, approve: bool)
    | InitiateReturn(rid: Id)

  datatype Op = It(it: ItOp, actor: Id) | Env(env: EnvOp)

  /** An operation and the transaction time every row and log entry of it carries. */
  datatype Event = Event(op: Op, now: Time)

  function PlanIt(s: State, op: ItOp, actor: Id, now: Time): Outcome {
    match op
    case Assign(rid, iid, from, to, isWfh) => PlanAssign(s, rid, iid, from, to, isWfh, actor, now)
    case DirectAssign(rid, iid, emp, from, to) => PlanDirectAssign(s, rid, iid, emp, from, to, actor, now)
    case UpdateBookingRange(rid, from, to) => PlanUpdateBookingRange(s, rid, from, to)
    case Ship(rid) => PlanShip(s, rid, actor, now)
    case ConfirmDelivery(rid) => PlanConfirmDelivery(s, rid, actor, now)
    case CompleteReturn(rid, next) => PlanCompleteReturn(s, rid, next, actor, now)
    case Start(tid) => PlanStart(s, tid, actor, now)
    case Resolve(tid, action) => PlanResolve(s, tid, action, actor, now)
    case Reject(rid) => PlanReject(s, rid, actor, now)
    case Cancel(rid) => PlanCancel(s, rid, actor, now)
    case Escalate(rid, manager) => PlanEscalate(s, rid, manager)
    case ExtensionApprove(xid) => PlanExtensionApprove(s, xid, actor, now)
    case ExtensionReject(xid) => PlanExtensionReject(s, xid, actor, now)
    case ChangeStatus(iid, status) => PlanChangeStatus(s, iid, status, actor, now)
    case CreateItem(iid, serialNo, name, category, ownerType, clientName, purchaseDate) =>
      PlanCreateItem(s, iid, serialNo, name, category, ownerType, clientName, purchaseDate, actor, now)
    case EditItem(iid, updates) => PlanEditItem(s, iid, updates, actor, now)
    case Deactivate(uid) => PlanDeactivate(s, uid)
    case Activate(uid) => PlanActivate(s, uid)
  }

  function PlanEnv(s: State, op: EnvOp, now: Time): Outcome {
    match op
    case FileRequest(rid, requester, category, from, to, route, requiresMgr) =>
      PlanFileRequest(s, rid, requester, category, from, to, route, requiresMgr, now)
    case RouteRequest(rid) => PlanRoute(s, rid)
    case ManagerDecision(rid, approve) => PlanManagerDecision(s, rid, approve)
    case FileTicket(tid, iid, requester, requestId, kind) => PlanFileTicket(s, tid, iid, requester, requestId, kind, now)
    case FileExtension(xid, rid, extendedTo, needsManager) => PlanFileExtension(s, xid, rid, extendedTo, needsManager, now)
    case ExtensionManagerDecision(xid, approve) => PlanExtensionManagerDecision(s, xid, approve)
    case InitiateReturn(rid) => PlanInitiateReturn(s, rid, now)
  }

  function Plan(s: State, e: Event): Outcome {
    match e.op
    case It(op, actor) => PlanIt(s, op, actor, e.now)
    case Env(op) => PlanEnv(s, op, e.now)
  }

  /** The committed state after one transaction: a failing one leaves no trace. */
  function Apply(s: State, e: Event): State {
    match Plan(s, e)
    case Success(c) => Commit(s, c)
    case Failure(_) => s
  }

  /** The committed state after a run. */
  function Run(s: State, run: seq<Event>): State {
    if run == [] then s else Apply(Run(s, run[..|run| - 1]), run[|run| - 1])
  }

  /** A database before its first device: users and categories only. */
  predicate Fresh(s: State) {
    && s.items == map[] && s.requests == map[] && s.tickets == map[] && s.extensions == map[] && s.log == []
  }
}
