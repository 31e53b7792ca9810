/** The form of a log entry: who writes which event, what it refers to, and between which statuses it moves. */
module Grammar {
  import opened Wrappers
  import opened Models
  import opened DeviceLog
  import opened Queries
  import opened Operations
  import opened Laws
  import opened OperationLaws
  import opened Invariants
  import opened Replay
  import opened Lifecycle
  import opened Race

  predicate Moves(e: LogEntry, from: DeviceStatus, to: DeviceStatus) {
    e.fromValue == Some(from) && e.toValue == Some(to)
  }

  predicate MovesNot(e: LogEntry) {
    e.fromValue.None? && e.toValue.None?
  }

  predicate Refers(e: LogEntry, request: bool, ticket: bool, extension: bool) {
    e.requestId.Some? == request && e.ticketId.Some? == ticket && e.extensionId.Some? == extension
  }

  /** The entry the event calls for. */
  predicate Form(e: LogEntry) {
    match e.event
    case DeviceCreated => e.actorRole.ItAdmin? && Refers(e, false, false, false) && e.fromValue.None? && e.toValue == Some(Available)
    case DeviceEdited => e.actorRole.ItAdmin? && Refers(e, false, false, false) && MovesNot(e)
    case Assigned => e.actorRole.ItAdmin? && Refers(e, true, false, false) && Moves(e, Available, DeviceStatus.Assigned)
    case ClientAssigned => e.actorRole.ItAdmin? && Refers(e, true, false, false) && Moves(e, Available, DeviceStatus.Assigned)
    case ShipOutboundInitiated =>
      e.actorRole.ItAdmin? && Refers(e, true, false, false) && Moves(e, DeviceStatus.Assigned, ShippingPending)
    case ShipOutboundCompleted =>
      e.actorRole.ItAdmin? && Refers(e, true, false, false) && Moves(e, ShippingPending, DeviceStatus.Assigned)
    case ReturnShipInitiated =>
      e.actorRole.Employee? && Refers(e, true, false, false) && Moves(e, DeviceStatus.Assigned, ReturnShippingPending)
    case ReturnReceived =>
      && e.actorRole.ItAdmin? && Refers(e, true, false, false) && e.toValue.Some?
      && e.fromValue in {Some(DeviceStatus.Assigned), Some(ReturnShippingPending)}
    case AssignmentCompleted => e.actorRole.ItAdmin? && Refers(e, true, false, false) && MovesNot(e)
    case StatusChanged =>
      && e.actorRole.ItAdmin? && e.fromValue.Some? && e.toValue.Some?
      && if e.ticketId.Some? then
           Refers(e, false, true, false) && (e.toValue == Some(UnderRepair) || Moves(e, UnderRepair, DeviceStatus.Assigned))
         else
           && Refers(e, false, false, false)
           && e.toValue !in {Some(DeviceStatus.Lost), Some(DeviceStatus.Retired), Some(DeviceStatus.ReturnedToClient)}
    case MarkedLost =>
      && e.actorRole.ItAdmin? && e.fromValue.Some? && e.toValue == Some(DeviceStatus.Lost)
      && (Refers(e, true, true, false) || Refers(e, false, false, false))
    case Retired =>
      e.actorRole.ItAdmin? && Refers(e, false, false, false) && e.fromValue.Some? && e.toValue == Some(DeviceStatus.Retired)
    case ReturnedToClient =>
      && e.actorRole.ItAdmin? && Refers(e, false, false, false)
      && e.fromValue.Some? && e.toValue == Some(DeviceStatus.ReturnedToClient)
    case SwappedOut => e.actorRole.ItAdmin? && Refers(e, true, true, false) && MovesNot(e)
    case SwappedIn => e.actorRole.ItAdmin? && Refers(e, true, true, false) && MovesNot(e)
    case SupportOpened => e.actorRole.Employee? && e.ticketId.Some? && e.extensionId.None? && MovesNot(e)
    case SupportResolved => e.actorRole.ItAdmin? && Refers(e, false, true, false) && MovesNot(e)
    case SupportAutoClosed => e.actorRole.System? && Refers(e, false, true, false) && MovesNot(e)
    case ExtensionRequested => e.actorRole.Employee? && Refers(e, true, false, true) && MovesNot(e)
    case ExtensionApproved => e.actorRole.ItAdmin? && Refers(e, true, false, true) && MovesNot(e)
    case ExtensionRejected => e.actorRole.ItAdmin? && Refers(e, true, false, true) && MovesNot(e)
    case _ => false
  }

  /** Entries on the device their request then points at. */
  predicate OnItsDevice(e: LogEntry) {
    || e.event.ShipOutboundInitiated? || e.event.ShipOutboundCompleted? || e.event.ReturnShipInitiated?
    || e.event.ReturnReceived? || e.event.AssignmentCompleted?
    || e.event.ExtensionRequested? || e.event.ExtensionApproved? || e.event.ExtensionRejected?
  }

  /** The entry is on the right device. */
  predicate Aimed(s: State, post: State, e: LogEntry) {
    && (OnItsDevice(e) && e.requestId.Some? ==> PointerIn(s, e.requestId.value) == Some(e.itemId))
    && (e.ticketId.Some? && !e.event.SwappedIn? ==>
          e.ticketId.value in post.tickets && post.tickets[e.ticketId.value].itemId == e.itemId)
  }

  ghost predicate FormLaw(c: Change) {
    forall k :: 0 <= k < |c.entries| ==> Form(c.entries[k])
  }

  /** Every entry is aimed, and none that relies on a device pointer follows one that moves it. */
  ghost predicate AimLaw(s: State, c: Change) {
    && (forall k :: 0 <= k < |c.entries| ==> Aimed(s, Commit(s, c), c.entries[k]))
    && (forall j, k :: 0 <= j < k < |c.entries| && OnItsDevice(c.entries[k]) ==> !Gives(c.entries[j]))
  }

  // ---- Every operation.

  lemma AssignForm(s: State, rid: Id, iid: Id, from: Time, to: Time, isWfh: bool, actor: Id, now: Time, c: Change)
    requires PlanAssign(s, rid, iid, from, to, isWfh, actor, now) == Success(c)
    ensures FormLaw(c) && AimLaw(s, c)
  {
  }

  lemma DirectAssignForm(s: State, rid: Id, iid: Id, emp: Id, from: Time, to: Time, actor: Id, now: Time, c: Change)
    requires PlanDirectAssign(s, rid, iid, emp, from, to, actor, now) == Success(c)
    ensures FormLaw(c) && AimLaw(s, c)
  {
  }

  lemma TransitForm(s: State, op: ItOp, actor: Id, now: Time, c: Change)
    requires (op.Ship? || op.ConfirmDelivery?) && PlanIt(s, op, actor, now) == Success(c)
    ensures FormLaw(c) && AimLaw(s, c)
  {
  }

  lemma StartForm(s: State, tid: Id, actor: Id, now: Time, c: Change)
    requires PlanStart(s, tid, actor, now) == Success(c)
    ensures FormLaw(c) && AimLaw(s, c)
  {
  }

  lemma ReturnForm(s: State, rid: Id, iid: Id, next: DeviceStatus, actor: Id, now: Time, c: Change)
    requires ReturnChange(s, rid, iid, next, actor, now, c)
    requires s.items[iid].status.Assigned? || s.items[iid].status.ReturnShippingPending?
    ensures FormLaw(c)
  {
    assert Form(c.entries[0]) && Form(c.entries[1]);
    forall k | 2 <= k < |c.entries| ensures Form(c.entries[k]) {}
  }

  lemma ReturnAims(s: State, rid: Id, iid: Id, next: DeviceStatus, actor: Id, now: Time, c: Change)
    requires ReturnChange(s, rid, iid, next, actor, now, c)
    ensures AimLaw(s, c)
  {
    ReturnEntriesAbout(s, rid, iid, next, actor, now, c);
    ReturnTicketsKept(s, rid, iid, next, actor, now, c);
    ReturnedAims(s, c, rid, iid, OpenTickets(s.tickets, iid));
  }

  lemma ReturnedAims(s: State, c: Change, rid: Id, iid: Id, open: seq<Id>)
    requires ReturnedEntries(c.entries, rid, iid, open) && PointerIn(s, rid) == Some(iid)
    requires forall t :: t in open ==> t in s.tickets && s.tickets[t].itemId == iid
    requires forall t :: t in s.tickets ==>
      t in Commit(s, c).tickets && Commit(s, c).tickets[t].itemId == s.tickets[t].itemId
    ensures AimLaw(s, c)
  {
    forall k | 0 <= k < |c.entries| ensures Aimed(s, Commit(s, c), c.entries[k]) && !Gives(c.entries[k]) {
      if k >= 2 { assert open[k - 2] in open; }
    }
  }

  lemma ReturnTicketsKept(s: State, rid: Id, iid: Id, next: DeviceStatus, actor: Id, now: Time, c: Change)
    requires ReturnChange(s, rid, iid, next, actor, now, c)
    ensures forall t :: t in s.tickets ==>
      t in Commit(s, c).tickets && Commit(s, c).tickets[t].itemId == s.tickets[t].itemId
  {
  }

  lemma BranchForm(s: State, tid: Id, t: Ticket, action: Action, actor: Id, now: Time, b: Change)
    requires t.itemId in s.items && PlanBranch(s, tid, t, action, actor, now) == Success(b)
    ensures FormLaw(b)
    ensures forall k :: 0 <= k < |b.entries| ==> !OnItsDevice(b.entries[k]) && b.entries[k].ticketId == Some(tid)
    ensures forall k :: 0 <= k < |b.entries| && !b.entries[k].event.SwappedIn? ==> b.entries[k].itemId == t.itemId
  {
    match action
    case DoRemote =>
    case DoRepair => assert PlanRepair(s, tid, t, actor, now) == Success(b);
    case DoSwap(to, oldNext) => SwapForm(s, tid, t, to, oldNext, actor, now, b);
    case DoLost => assert PlanMarkLost(s, tid, t, actor, now) == Success(b);
  }

  lemma SwapForm(s: State, tid: Id, t: Ticket, to: Id, oldNext: DeviceStatus, actor: Id, now: Time, c: Change)
    requires t.itemId in s.items && PlanSwap(s, tid, t, to, oldNext, actor, now) == Success(c)
    ensures |c.entries| == 2 && Form(c.entries[0]) && Form(c.entries[1])
    ensures c.entries[0].event.SwappedOut? && c.entries[1].event.SwappedIn?
    ensures c.entries[0].ticketId == Some(tid) && c.entries[1].ticketId == Some(tid)
    ensures c.entries[0].itemId == t.itemId && c.entries[1].itemId == to
  {
  }

  /** The closing adds an entry about the same ticket. */
  lemma ClosingForm(s: State, tid: Id, t: Ticket, action: Action, actor: Id, now: Time, b: Change)
    requires FormLaw(b)
    requires forall k :: 0 <= k < |b.entries| ==> !OnItsDevice(b.entries[k]) && b.entries[k].ticketId == Some(tid)
    requires forall k :: 0 <= k < |b.entries| && !b.entries[k].event.SwappedIn? ==> b.entries[k].itemId == t.itemId
    ensures FormLaw(Operations.Closing(b, tid, t, action, actor, now))
    ensures AimLaw(s, Operations.Closing(b, tid, t, action, actor, now))
  {
    var c := Operations.Closing(b, tid, t, action, actor, now);
    forall k | 0 <= k < |c.entries| ensures Form(c.entries[k]) && Aimed(s, Commit(s, c), c.entries[k]) && !OnItsDevice(c.entries[k]) {
      if k < |b.entries| { assert c.entries[k] == b.entries[k]; }
    }
  }

  lemma ResolveForm(s: State, tid: Id, action: Action, actor: Id, now: Time, c: Change)
    requires PlanResolve(s, tid, action, actor, now) == Success(c)
    ensures FormLaw(c) && AimLaw(s, c)
  {
    var t := s.tickets[tid];
    var b := PlanBranch(s, tid, t, action, actor, now).value;
    BranchForm(s, tid, t, action, actor, now, b);
    ClosingForm(s, tid, t, action, actor, now, b);
  }

  lemma ChangeStatusForm(s: State, iid: Id, status: DeviceStatus, actor: Id, now: Time, c: Change)
    requires PlanChangeStatus(s, iid, status, actor, now) == Success(c)
    ensures FormLaw(c) && AimLaw(s, c)
  {
  }

  lemma InventoryForm(s: State, op: ItOp, actor: Id, now: Time, c: Change)
    requires (op.CreateItem? || op.EditItem?) && PlanIt(s, op, actor, now) == Success(c)
    ensures FormLaw(c) && AimLaw(s, c)
  {
  }

  lemma DeskForm(s: State, op: ItOp, actor: Id, now: Time, c: Change)
    requires !MovesDevices(op) && !op.ChangeStatus? && !op.CreateItem? && !op.EditItem?
    requires PlanIt(s, op, actor, now) == Success(c)
    ensures FormLaw(c) && AimLaw(s, c)
  {
  }

  lemma FilingForm(s: State, op: EnvOp, now: Time, c: Change)
    requires (op.FileTicket? || op.FileExtension?) && PlanEnv(s, op, now) == Success(c)
    ensures FormLaw(c) && AimLaw(s, c)
  {
  }

  lemma EnvForm(s: State, op: EnvOp, now: Time, c: Change)
    requires !op.FileTicket? && !op.FileExtension? && PlanEnv(s, op, now) == Success(c)
    ensures FormLaw(c) && AimLaw(s, c)
  {
  }

  lemma EveryChangeHasForm(s: State, e: Event, c: Change)
    requires Plan(s, e) == Success(c)
    ensures FormLaw(c) && AimLaw(s, c)
  {
    match e.op
    case Env(op) =>
      if op.FileTicket? || op.FileExtension? { FilingForm(s, op, e.now, c); } else { EnvForm(s, op, e.now, c); }
    case It(op, actor) =>
      if op.CompleteReturn? {
        ReturnChangeHolds(s, op.rid, op.next, actor, e.now, c);
        ReturnForm(s, op.rid, s.requests[op.rid].item.value, op.next, actor, e.now, c);
        ReturnAims(s, op.rid, s.requests[op.rid].item.value, op.next, actor, e.now, c);
      }
      else if op.Resolve? { ResolveForm(s, op.tid, op.action, actor, e.now, c); }
      else if op.Assign? { AssignForm(s, op.rid, op.iid, op.from, op.to, op.isWfh, actor, e.now, c); }
      else if op.DirectAssign? { DirectAssignForm(s, op.rid, op.iid, op.employee, op.from, op.to, actor, e.now, c); }
      else if op.Start? { StartForm(s, op.tid, actor, e.now, c); }
      else if MovesDevices(op) { TransitForm(s, op, actor, e.now, c); }
      else if op.ChangeStatus? { ChangeStatusForm(s, op.iid, op.status, actor, e.now, c); }
      else if op.CreateItem? || op.EditItem? { InventoryForm(s, op, actor, e.now, c); }
      else { DeskForm(s, op, actor, e.now, c); }
  }

  // ---- Over runs.

  /** Every entry of every reachable log has the form its event calls for. */
  lemma {:induction false} EveryEntryHasForm(s: State, run: seq<Event>, k: nat)
    requires Fresh(s) && k < |Run(s, run).log|
    ensures Form(Run(s, run).log[k])
  {
    if run != [] {
      var before, e := Run(s, run[..|run| - 1]), run[|run| - 1];
      if k < |before.log| { EveryEntryHasForm(s, run[..|run| - 1], k); }
      else {
        EveryChangeHasForm(before, e, Plan(before, e).value);
        assert Form(Plan(before, e).value.entries[k - |before.log|]);
      }
    }
  }

  /** An entry about a ticket is on the ticket's device, except that a swap-in is on the device swapped to. */
  lemma {:induction false} TicketEntriesOnDevice(s: State, run: seq<Event>, k: nat)
    requires Fresh(s) && k < |Run(s, run).log|
    requires Run(s, run).log[k].ticketId.Some? && !Run(s, run).log[k].event.SwappedIn?
    ensures var r := Run(s, run);
      var e := r.log[k];
      e.ticketId.value in r.tickets && r.tickets[e.ticketId.value].itemId == e.itemId
  {
    if run != [] {
      var before, e := Run(s, run[..|run| - 1]), run[|run| - 1];
      WholeKeepsRows(before, e);
      if k < |before.log| { TicketEntriesOnDevice(s, run[..|run| - 1], k); }
      else {
        var c := Plan(before, e).value;
        EveryChangeHasForm(before, e, c);
        assert Aimed(before, Commit(before, c), c.entries[k - |before.log|]);
      }
    }
  }

  /** The entry, if it is about shipping, returning or extending a request, is on the device the earlier log
      last gave that request. */
  ghost predicate EntryOnDevice(log: seq<LogEntry>, k: nat)
    requires k < |log|
  {
    OnItsDevice(log[k]) ==>
      log[k].requestId.Some? && ReplayPointer(log[..k], log[k].requestId.value) == Some(log[k].itemId)
  }

  lemma {:induction false} RequestEntriesOnDevice(s: State, run: seq<Event>, k: nat)
    requires Fresh(s) && k < |Run(s, run).log|
    ensures EntryOnDevice(Run(s, run).log, k)
  {
    if run != [] {
      var before, e := run[..|run| - 1], run[|run| - 1];
      if k < |Run(s, before).log| { RequestEntriesOnDevice(s, before, k); }
      if Plan(Run(s, before), e).Success? {
        var c := Plan(Run(s, before), e).value;
        PointersTold(s, before);
        EveryChangeHasForm(Run(s, before), e, c);
        OnDeviceStep(Run(s, before), c, k);
      }
    }
  }

  lemma PointersTold(s: State, run: seq<Event>)
    requires Fresh(s)
    ensures forall q :: PointerTold(Run(s, run), q)
  {
    ReachableTold(s, run);
  }

  lemma OnDeviceStep(s: State, c: Change, k: nat)
    requires FormLaw(c) && AimLaw(s, c) && (forall q :: PointerTold(s, q)) && k < |s.log + c.entries|
    requires k < |s.log| ==> EntryOnDevice(s.log, k)
    ensures EntryOnDevice(s.log + c.entries, k)
  {
    if k < |s.log| { OldEntryStays(s.log, c.entries, k); } else { NewEntryOnDevice(s, c, k - |s.log|); }
  }

  lemma OldEntryStays(log: seq<LogEntry>, more: seq<LogEntry>, k: nat)
    requires k < |log| && EntryOnDevice(log, k)
    ensures EntryOnDevice(log + more, k)
  {
    assert (log + more)[..k] == log[..k];
  }

  lemma NewEntryOnDevice(s: State, c: Change, j: nat)
    requires FormLaw(c) && AimLaw(s, c) && j < |c.entries|
    requires c.entries[j].requestId.Some? ==> PointerTold(s, c.entries[j].requestId.value)
    ensures EntryOnDevice(s.log + c.entries, |s.log| + j)
  {
    assert Form(c.entries[j]);
    if OnItsDevice(c.entries[j]) { AimedEntry(s, c, j); }
  }

  lemma AimedEntry(s: State, c: Change, j: nat)
    requires AimLaw(s, c) && j < |c.entries| && OnItsDevice(c.entries[j]) && c.entries[j].requestId.Some?
    requires PointerTold(s, c.entries[j].requestId.value)
    ensures ReplayPointer((s.log + c.entries)[..|s.log| + j], c.entries[j].requestId.value) == Some(c.entries[j].itemId)
  {
    assert Aimed(s, Commit(s, c), c.entries[j]);
    assert (s.log + c.entries)[..|s.log| + j] == s.log + c.entries[..j];
    PointerSilent(s.log, c.entries[..j], c.entries[j].requestId.value);
  }

  // ---- Which entries an operation leaves.

  /** The events an operation logs, in order; a return is described by `Returns.ReturnLog`. */
  function Events(s: State, op: ItOp): seq<DeviceLogEvent> {
    match op
    case Assign(_, _, _, _, _) => [DeviceLogEvent.Assigned]
    case DirectAssign(_, _, _, _, _) => [ClientAssigned]
    case Ship(_) => [ShipOutboundInitiated]
    case ConfirmDelivery(_) => [ShipOutboundCompleted]
    case Start(tid) => if tid in s.tickets && s.tickets[tid].kind.Damage? then [StatusChanged] else []
    case Resolve(_, DoRemote) => [SupportResolved]
    case Resolve(_, DoRepair) => [StatusChanged, SupportResolved]
    case Resolve(_, DoSwap(_, _)) => [SwappedOut, SwappedIn, SupportResolved]
    case Resolve(_, DoLost) => [DeviceLogEvent.MarkedLost, SupportResolved]
    case ExtensionApprove(_) => [ExtensionApproved]
    case ExtensionReject(_) => [ExtensionRejected]
    case ChangeStatus(_, Lost) => [DeviceLogEvent.MarkedLost]
    case ChangeStatus(_, Retired) => [DeviceLogEvent.Retired]
    case ChangeStatus(_, ReturnedToClient) => [DeviceLogEvent.ReturnedToClient]
    case ChangeStatus(_, _) => [StatusChanged]
    case CreateItem(_, _, _, _, _, _, _) => [DeviceCreated]
    case _ => []
  }

  ghost predicate Logs(c: Change, events: seq<DeviceLogEvent>) {
    |c.entries| == |events| && forall k :: 0 <= k < |events| ==> c.entries[k].event == events[k]
  }

  lemma MovesLog(s: State, op: ItOp, actor: Id, now: Time, c: Change)
    requires MovesDevices(op) && !op.Resolve? && !op.CompleteReturn? && PlanIt(s, op, actor, now) == Success(c)
    ensures Logs(c, Events(s, op))
  {
  }

  lemma ResolveLogs(s: State, tid: Id, action: Action, actor: Id, now: Time, c: Change)
    requires PlanResolve(s, tid, action, actor, now) == Success(c)
    ensures Logs(c, Events(s, Resolve(tid, action)))
  {
  }

  lemma DeskLogs(s: State, op: ItOp, actor: Id, now: Time, c: Change)
    requires !MovesDevices(op) && !op.EditItem? && PlanIt(s, op, actor, now) == Success(c)
    ensures Logs(c, Events(s, op))
  {
  }

  /** Every IT operation but a return and an edit logs exactly these events, and the request decisions log
      none. */
  lemma LogsExactly(s: State, op: ItOp, actor: Id, now: Time, c: Change)
    requires !op.CompleteReturn? && !op.EditItem? && PlanIt(s, op, actor, now) == Success(c)
    ensures Logs(c, Events(s, op))
  {
    if op.Resolve? { ResolveLogs(s, op.tid, op.action, actor, now, c); }
    else if MovesDevices(op) { MovesLog(s, op, actor, now, c); }
    else { DeskLogs(s, op, actor, now, c); }
  }
}
