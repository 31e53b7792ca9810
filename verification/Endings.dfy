/** How a request changes status, what ends it, and what of the rows never changes. */
module Endings {
  import opened Wrappers
  import opened Models
  import opened DeviceLog
  import opened Queries
  import opened Operations
  import opened Laws
  import opened OperationLaws
  import opened Invariants
  import opened Lifecycle
  import opened Records

  // ---- The endings.

  predicate Status(s: State, q: Id, status: RequestStatus) {
    q in s.requests && s.requests[q].status == status
  }

  /** The step brings the request to the status. */
  predicate Becomes(s: State, e: Event, q: Id, status: RequestStatus) {
    Status(Apply(s, e), q, status) && !Status(s, q, status)
  }

  /** A return of the request, or the loss of a device by a ticket tied to it. */
  predicate Completes(s: State, e: Event, q: Id) {
    && e.op.It?
    && match e.op.it
       case CompleteReturn(rid, _) => rid == q
       case Resolve(tid, DoLost) => tid in s.tickets && s.tickets[tid].requestId == Some(q)
       case _ => false
  }

  predicate Cancels(e: Event, q: Id) {
    e.op.It? && e.op.it.Cancel? && e.op.it.rid == q
  }

  predicate RejectsByIt(e: Event, q: Id) {
    e.op.It? && e.op.it.Reject? && e.op.it.rid == q
  }

  predicate RefusesAsManager(e: Event, q: Id) {
    e.op.Env? && e.op.env.ManagerDecision? && e.op.env.rid == q && !e.op.env.approve
  }

  /** Who ended the request, and how, as its row says. */
  predicate Signed(r: Request, status: RequestStatus, who: Option<RejectedBy>) {
    r.status == status && r.rejectedBy == who
  }

  /** The change ends no request in a way its operation does not stand for. */
  predicate EndsOnly(s: State, c: Change, q: Id, completes: bool, cancels: bool, rejects: bool) {
    q in c.requests ==>
      && (c.requests[q].status.Completed? && !Status(s, q, Completed) ==> completes)
      && (c.requests[q].status.Cancelled? && !Status(s, q, Cancelled) ==> cancels)
      && (c.requests[q].status.Rejected? && !Status(s, q, RequestStatus.Rejected) ==> rejects)
  }

  lemma MovesEnd(s: State, op: ItOp, actor: Id, now: Time, c: Change, q: Id)
    requires MovesDevices(op) && !op.Resolve? && PlanIt(s, op, actor, now) == Success(c)
    ensures EndsOnly(s, c, q, op.CompleteReturn? && op.rid == q, false, false)
    ensures op.CompleteReturn? && op.rid == q ==> q in c.requests && c.requests[q].status.Completed?
  {
  }

  lemma ResolveEnds(s: State, tid: Id, action: Action, actor: Id, now: Time, c: Change, q: Id)
    requires PlanResolve(s, tid, action, actor, now) == Success(c)
    ensures EndsOnly(s, c, q, action.DoLost? && s.tickets[tid].requestId == Some(q), false, false)
    ensures action.DoLost? && s.tickets[tid].requestId == Some(q) ==> q in c.requests && c.requests[q].status.Completed?
  {
  }

  lemma DeskEnds(s: State, op: ItOp, actor: Id, now: Time, c: Change, q: Id)
    requires !MovesDevices(op) && PlanIt(s, op, actor, now) == Success(c)
    ensures EndsOnly(s, c, q, false, op.Cancel? && op.rid == q, op.Reject? && op.rid == q)
    ensures op.Cancel? && op.rid == q ==>
      && q in c.requests && Signed(c.requests[q], Cancelled, Some(ByItAdminCancel)) && !Status(s, q, Cancelled)
      && c.requests[q].cancelledBy == Some(actor) && c.requests[q].cancelledAt == Some(now)
    ensures op.Reject? && op.rid == q ==>
      && q in c.requests && Signed(c.requests[q], RequestStatus.Rejected, Some(ByItAdmin)) && !Status(s, q, RequestStatus.Rejected)
      && c.requests[q].decidedBy == Some(actor) && c.requests[q].decidedAt == Some(now)
  {
  }

  lemma EnvEnds(s: State, op: EnvOp, now: Time, c: Change, q: Id)
    requires PlanEnv(s, op, now) == Success(c)
    ensures EndsOnly(s, c, q, false, false, op.ManagerDecision? && op.rid == q && !op.approve)
    ensures op.ManagerDecision? && op.rid == q && !op.approve ==>
      q in c.requests && Signed(c.requests[q], RequestStatus.Rejected, Some(ByManager)) && !Status(s, q, RequestStatus.Rejected)
  {
  }

  lemma EveryEnding(s: State, e: Event, c: Change, q: Id)
    requires Plan(s, e) == Success(c)
    ensures EndsOnly(s, c, q, Completes(s, e, q), Cancels(e, q), RejectsByIt(e, q) || RefusesAsManager(e, q))
    ensures Completes(s, e, q) ==> q in c.requests && c.requests[q].status.Completed?
    ensures Cancels(e, q) || RejectsByIt(e, q) || RefusesAsManager(e, q) ==> q in c.requests
    ensures Cancels(e, q) ==> Signed(c.requests[q], Cancelled, Some(ByItAdminCancel)) && !Status(s, q, Cancelled)
    ensures Cancels(e, q) ==> c.requests[q].cancelledBy == Some(e.op.actor) && c.requests[q].cancelledAt == Some(e.now)
    ensures RejectsByIt(e, q) ==>
      Signed(c.requests[q], RequestStatus.Rejected, Some(ByItAdmin)) && !Status(s, q, RequestStatus.Rejected)
    ensures RejectsByIt(e, q) ==> c.requests[q].decidedBy == Some(e.op.actor) && c.requests[q].decidedAt == Some(e.now)
    ensures RefusesAsManager(e, q) ==>
      Signed(c.requests[q], RequestStatus.Rejected, Some(ByManager)) && !Status(s, q, RequestStatus.Rejected)
  {
    match e.op
    case Env(op) => EnvEnds(s, op, e.now, c, q);
    case It(op, actor) =>
      if op.Resolve? { ResolveEnds(s, op.tid, op.action, actor, e.now, c, q); }
      else if MovesDevices(op) { MovesEnd(s, op, actor, e.now, c, q); }
      else { DeskEnds(s, op, actor, e.now, c, q); }
  }

  /** A step completes a request exactly if it is a successful return of it, or a loss tied to it, and the
      request was not completed before. */
  lemma CompletedOnlyBy(s: State, e: Event, q: Id)
    ensures Becomes(s, e, q, Completed) <==> Succeeds(s, e) && Completes(s, e, q) && !Status(s, q, Completed)
  {
    if Succeeds(s, e) { EveryEnding(s, e, Plan(s, e).value, q); }
  }

  /** A step cancels a request exactly if it is a successful `cancel` of it, and then the row names the actor,
      the time and the IT cancellation. */
  lemma CancelledOnlyBy(s: State, e: Event, q: Id)
    ensures Becomes(s, e, q, Cancelled) <==> Succeeds(s, e) && Cancels(e, q)
    ensures Becomes(s, e, q, Cancelled) ==>
      var r := Apply(s, e).requests[q];
      r.cancelledBy == Some(e.op.actor) && r.cancelledAt == Some(e.now) && r.rejectedBy == Some(ByItAdminCancel)
  {
    if Succeeds(s, e) { EveryEnding(s, e, Plan(s, e).value, q); }
  }

  /** A step rejects a request exactly if it is a successful `reject` of it or a manager's refusal, and the row
      tells which. */
  lemma RejectedOnlyBy(s: State, e: Event, q: Id)
    ensures Becomes(s, e, q, RequestStatus.Rejected) <==> Succeeds(s, e) && (RejectsByIt(e, q) || RefusesAsManager(e, q))
    ensures Becomes(s, e, q, RequestStatus.Rejected) ==>
      var r := Apply(s, e).requests[q];
      && r.rejectedBy == Some(if e.op.It? then ByItAdmin else ByManager)
      && (e.op.It? ==> r.decidedBy == Some(e.op.actor) && r.decidedAt == Some(e.now))
  {
    if Succeeds(s, e) { EveryEnding(s, e, Plan(s, e).value, q); }
  }

  /** The entry says that the request is over. */
  predicate Closes(e: LogEntry, q: Id) {
    (e.event.AssignmentCompleted? || e.event.MarkedLost?) && e.requestId == Some(q)
  }

  /** A return or a loss is logged with the entry that closes the request. */
  lemma ReturnCloses(s: State, rid: Id, next: DeviceStatus, actor: Id, now: Time, c: Change, q: Id)
    requires PlanCompleteReturn(s, rid, next, actor, now) == Success(c)
    ensures (exists k :: 0 <= k < |c.entries| && Closes(c.entries[k], q)) <==> q == rid
  {
    ReturnChangeHolds(s, rid, next, actor, now, c);
    assert Closes(c.entries[1], rid);
  }

  lemma ResolveCloses(s: State, tid: Id, action: Action, actor: Id, now: Time, c: Change, q: Id)
    requires PlanResolve(s, tid, action, actor, now) == Success(c)
    ensures (exists k :: 0 <= k < |c.entries| && Closes(c.entries[k], q))
       <==> action.DoLost? && s.tickets[tid].requestId == Some(q)
  {
    if action.DoLost? && s.tickets[tid].requestId == Some(q) { assert Closes(c.entries[0], q); }
  }

  lemma MovesCloseNothing(s: State, op: ItOp, actor: Id, now: Time, c: Change, q: Id)
    requires !op.Resolve? && !op.CompleteReturn? && PlanIt(s, op, actor, now) == Success(c)
    ensures forall k :: 0 <= k < |c.entries| ==> !Closes(c.entries[k], q)
  {
  }

  lemma EnvClosesNothing(s: State, op: EnvOp, now: Time, c: Change, q: Id)
    requires PlanEnv(s, op, now) == Success(c)
    ensures forall k :: 0 <= k < |c.entries| ==> !Closes(c.entries[k], q)
  {
  }

  lemma ClosedWithEntry(s: State, e: Event, c: Change, q: Id)
    requires Plan(s, e) == Success(c)
    ensures (exists k :: 0 <= k < |c.entries| && Closes(c.entries[k], q)) <==> Completes(s, e, q)
  {
    match e.op
    case Env(op) => EnvClosesNothing(s, op, e.now, c, q);
    case It(op, actor) =>
      if op.Resolve? { ResolveCloses(s, op.tid, op.action, actor, e.now, c, q); }
      else if op.CompleteReturn? { ReturnCloses(s, op.rid, op.next, actor, e.now, c, q); }
      else { MovesCloseNothing(s, op, actor, e.now, c, q); }
  }

  ghost predicate HasClosing(log: seq<LogEntry>, q: Id) {
    exists k :: 0 <= k < |log| && Closes(log[k], q)
  }

  lemma HasClosingOver(log: seq<LogEntry>, more: seq<LogEntry>, q: Id)
    ensures HasClosing(log + more, q) <==> HasClosing(log, q) || HasClosing(more, q)
  {
    var all := log + more;
    if k :| 0 <= k < |all| && Closes(all[k], q) {
      if k < |log| { assert Closes(log[k], q); } else { assert Closes(more[k - |log|], q); }
    }
    if k :| 0 <= k < |log| && Closes(log[k], q) { assert Closes(all[k], q); }
    if k :| 0 <= k < |more| && Closes(more[k], q) { assert Closes(all[|log| + k], q); }
  }

  lemma ClosingStep(s: State, e: Event, q: Id)
    requires Wf(s) && (Status(s, q, Completed) <==> HasClosing(s.log, q))
    ensures Status(Apply(s, e), q, Completed) <==> HasClosing(Apply(s, e).log, q)
  {
    if Succeeds(s, e) {
      var c := Plan(s, e).value;
      ClosedWithEntry(s, e, c, q);
      CompletedOnlyBy(s, e, q);
      HasClosingOver(s.log, c.entries, q);
      if q in s.requests { StepOfRequest(s, e, q); }
    }
  }

  /** In every reachable state the completed requests are those with an ASSIGNMENT_COMPLETED or MARKED_LOST
      entry. */
  lemma {:induction false} CompletedIffClosed(s: State, run: seq<Event>, q: Id)
    requires Fresh(s)
    ensures Status(Run(s, run), q, Completed) <==> HasClosing(Run(s, run).log, q)
  {
    if run != [] {
      CompletedIffClosed(s, run[..|run| - 1], q);
      ReachableWf(s, run[..|run| - 1]);
      ClosingStep(Run(s, run[..|run| - 1]), run[|run| - 1], q);
    }
  }

  // ---- What never changes.

  /** What the employee asked for, and how the request came about. */
  predicate SameIntent(a: Request, b: Request) {
    && a.requester == b.requester && a.categoryId == b.categoryId && a.requestedFrom == b.requestedFrom
    && a.requestedTo == b.requestedTo && a.createdAt == b.createdAt && a.isClientDirect == b.isClientDirect
  }

  predicate SameDevice(a: Item, b: Item) {
    a.serialNo == b.serialNo && a.ownerType == b.ownerType
  }

  predicate SameComplaint(a: Ticket, b: Ticket) {
    && a.itemId == b.itemId && a.requester == b.requester && a.requestId == b.requestId && a.kind == b.kind
    && a.filedAt == b.filedAt
  }

  predicate SamePlea(a: Extension, b: Extension) {
    a.requestId == b.requestId && a.requester == b.requester && a.extendedTo == b.extendedTo
  }

  ghost predicate KeepsOrigins(s: State, c: Change) {
    && (forall q :: q in c.requests && q in s.requests ==> SameIntent(c.requests[q], s.requests[q]))
    && (forall i :: i in c.items && i in s.items ==> SameDevice(c.items[i], s.items[i]))
    && (forall t :: t in c.tickets && t in s.tickets ==> SameComplaint(c.tickets[t], s.tickets[t]))
    && (forall x :: x in c.extensions && x in s.extensions ==> SamePlea(c.extensions[x], s.extensions[x]))
  }

  lemma AssignKeepsOrigins(s: State, op: ItOp, actor: Id, now: Time, c: Change)
    requires (op.Assign? || op.DirectAssign?) && PlanIt(s, op, actor, now) == Success(c)
    ensures KeepsOrigins(s, c)
  {
  }

  lemma MovesKeepOrigins(s: State, op: ItOp, actor: Id, now: Time, c: Change)
    requires (op.Ship? || op.ConfirmDelivery? || op.Start?) && PlanIt(s, op, actor, now) == Success(c)
    ensures KeepsOrigins(s, c)
  {
  }

  lemma ReturnKeepsOrigins(s: State, op: ItOp, actor: Id, now: Time, c: Change)
    requires op.CompleteReturn? && PlanIt(s, op, actor, now) == Success(c)
    ensures KeepsOrigins(s, c)
  {
    assert c == ReturnWrites(s, op.rid, s.requests[op.rid].item.value, op.next, actor, now);
    ReturnWritesKeepOrigins(s, op.rid, s.requests[op.rid].item.value, op.next, actor, now, c);
  }

  lemma ReturnWritesKeepOrigins(s: State, rid: Id, iid: Id, next: DeviceStatus, actor: Id, now: Time, c: Change)
    requires rid in s.requests && iid in s.items && c == ReturnWrites(s, rid, iid, next, actor, now)
    ensures KeepsOrigins(s, c)
  {
  }

  lemma ResolveKeepsOrigins(s: State, tid: Id, action: Action, actor: Id, now: Time, c: Change)
    requires PlanResolve(s, tid, action, actor, now) == Success(c)
    ensures KeepsOrigins(s, c)
  {
  }

  lemma DeskKeepsOrigins(s: State, op: ItOp, actor: Id, now: Time, c: Change)
    requires !MovesDevices(op) && PlanIt(s, op, actor, now) == Success(c)
    ensures KeepsOrigins(s, c)
  {
  }

  lemma EnvKeepsOrigins(s: State, op: EnvOp, now: Time, c: Change)
    requires PlanEnv(s, op, now) == Success(c)
    ensures KeepsOrigins(s, c)
  {
  }

  lemma OriginsStep(s: State, e: Event)
    ensures var post := Apply(s, e);
      && (forall q :: q in s.requests ==> q in post.requests && SameIntent(post.requests[q], s.requests[q]))
      && (forall i :: i in s.items ==> i in post.items && SameDevice(post.items[i], s.items[i]))
      && (forall t :: t in s.tickets ==> t in post.tickets && SameComplaint(post.tickets[t], s.tickets[t]))
      && (forall x :: x in s.extensions ==> x in post.extensions && SamePlea(post.extensions[x], s.extensions[x]))
  {
    if Succeeds(s, e) {
      var c := Plan(s, e).value;
      match e.op {
        case Env(op) => EnvKeepsOrigins(s, op, e.now, c);
        case It(op, actor) =>
          if op.Resolve? { ResolveKeepsOrigins(s, op.tid, op.action, actor, e.now, c); }
          else if op.Assign? || op.DirectAssign? { AssignKeepsOrigins(s, op, actor, e.now, c); }
          else if op.CompleteReturn? { ReturnKeepsOrigins(s, op, actor, e.now, c); }
          else if MovesDevices(op) { MovesKeepOrigins(s, op, actor, e.now, c); }
          else { DeskKeepsOrigins(s, op, actor, e.now, c); }
      }
    }
  }

  /** No row is ever deleted. The requester, the category and the dates asked for of a request, the serial
      number and kind of owner of a device, what a ticket is about and what an extension asks for never
      change. */
  lemma {:induction false} OriginsNeverChange(s: State, run: seq<Event>, j: nat, k: nat)
    requires j <= k <= |run|
    ensures var old_, new_ := At(s, run, j), At(s, run, k);
      && (forall q :: q in old_.requests ==> q in new_.requests && SameIntent(new_.requests[q], old_.requests[q]))
      && (forall i :: i in old_.items ==> i in new_.items && SameDevice(new_.items[i], old_.items[i]))
      && (forall t :: t in old_.tickets ==> t in new_.tickets && SameComplaint(new_.tickets[t], old_.tickets[t]))
      && (forall x :: x in old_.extensions ==> x in new_.extensions && SamePlea(new_.extensions[x], old_.extensions[x]))
  {
    if j < k {
      OriginsNeverChange(s, run, j, k - 1);
      AtNext(s, run, k - 1);
      OriginsStep(At(s, run, k - 1), run[k - 1]);
    }
  }

  // ---- Serial numbers, client devices, active users.

  ghost predicate SerialsDiffer(s: State) {
    forall i, j :: i in s.items && j in s.items && i != j ==> s.items[i].serialNo != s.items[j].serialNo
  }

  /** Only `create_item` makes devices, one at a time and with a new serial number. */
  ghost predicate NewSerial(s: State, c: Change) {
    && (forall i :: i in c.items && i !in s.items ==> c.items.Keys == {i})
    && (forall i, j :: i in c.items && i !in s.items && j in s.items ==> s.items[j].serialNo != c.items[i].serialNo)
  }

  lemma MovesMakeNoDevice(s: State, op: ItOp, actor: Id, now: Time, c: Change)
    requires MovesDevices(op) && !op.Resolve? && PlanIt(s, op, actor, now) == Success(c)
    ensures c.items.Keys <= s.items.Keys
  {
  }

  lemma ResolveMakesNoDevice(s: State, tid: Id, action: Action, actor: Id, now: Time, c: Change)
    requires PlanResolve(s, tid, action, actor, now) == Success(c)
    ensures c.items.Keys <= s.items.Keys
  {
  }

  lemma DeskMakesNewDevice(s: State, op: ItOp, actor: Id, now: Time, c: Change)
    requires !MovesDevices(op) && PlanIt(s, op, actor, now) == Success(c)
    ensures NewSerial(s, c)
  {
  }

  lemma EnvMakesNoDevice(s: State, op: EnvOp, now: Time, c: Change)
    requires PlanEnv(s, op, now) == Success(c)
    ensures c.items.Keys <= s.items.Keys
  {
  }

  lemma EveryNewSerial(s: State, e: Event, c: Change)
    requires Plan(s, e) == Success(c)
    ensures NewSerial(s, c)
  {
    match e.op
    case Env(op) => EnvMakesNoDevice(s, op, e.now, c);
    case It(op, actor) =>
      if op.Resolve? { ResolveMakesNoDevice(s, op.tid, op.action, actor, e.now, c); }
      else if MovesDevices(op) { MovesMakeNoDevice(s, op, actor, e.now, c); }
      else { DeskMakesNewDevice(s, op, actor, e.now, c); }
  }

  lemma SerialsStep(s: State, e: Event)
    requires SerialsDiffer(s)
    ensures SerialsDiffer(Apply(s, e))
  {
    if Succeeds(s, e) {
      OriginsStep(s, e);
      EveryNewSerial(s, e, Plan(s, e).value);
      NewSerialKeepsApart(s, Apply(s, e), Plan(s, e).value);
    }
  }

  lemma NewSerialKeepsApart(s: State, post: State, c: Change)
    requires SerialsDiffer(s) && post == Commit(s, c) && NewSerial(s, c)
    requires forall i :: i in s.items ==> post.items[i].serialNo == s.items[i].serialNo
    ensures SerialsDiffer(post)
  {
  }

  /** No two devices ever share a serial number. */
  lemma {:induction false} SerialsAlwaysDiffer(s: State, run: seq<Event>)
    requires Fresh(s)
    ensures SerialsDiffer(Run(s, run))
  {
    if run != [] {
      SerialsAlwaysDiffer(s, run[..|run| - 1]);
      SerialsStep(Run(s, run[..|run| - 1]), run[|run| - 1]);
    }
  }

  /** The device a direct assignment is about belongs to a client. */
  lemma ItGivesClientDevices(s: State, op: ItOp, actor: Id, now: Time, c: Change, k: nat)
    requires PlanIt(s, op, actor, now) == Success(c) && k < |c.entries| && c.entries[k].event.ClientAssigned?
    requires !op.CompleteReturn? && !op.Resolve?
    ensures c.entries[k].itemId in s.items && s.items[c.entries[k].itemId].ownerType.Client?
  {
  }

  lemma ResolveGivesNoClientDevice(s: State, tid: Id, action: Action, actor: Id, now: Time, c: Change, k: nat)
    requires PlanResolve(s, tid, action, actor, now) == Success(c) && k < |c.entries|
    ensures !c.entries[k].event.ClientAssigned?
  {
  }

  lemma EnvGivesNoClientDevice(s: State, op: EnvOp, now: Time, c: Change, k: nat)
    requires PlanEnv(s, op, now) == Success(c) && k < |c.entries|
    ensures !c.entries[k].event.ClientAssigned?
  {
  }

  lemma ClientEntryStep(s: State, e: Event, c: Change, k: nat)
    requires Plan(s, e) == Success(c) && k < |c.entries| && c.entries[k].event.ClientAssigned?
    ensures c.entries[k].itemId in s.items && s.items[c.entries[k].itemId].ownerType.Client?
  {
    match e.op
    case Env(op) => EnvGivesNoClientDevice(s, op, e.now, c, k);
    case It(op, actor) =>
      if op.Resolve? { ResolveGivesNoClientDevice(s, op.tid, op.action, actor, e.now, c, k); }
      else if op.CompleteReturn? { ReturnChangeHolds(s, op.rid, op.next, actor, e.now, c); }
      else { ItGivesClientDevices(s, op, actor, e.now, c, k); }
  }

  /** The entry, if it is of a direct assignment, is on a client's device. */
  predicate OnClientDevice(s: State, e: LogEntry) {
    e.event.ClientAssigned? ==> e.itemId in s.items && s.items[e.itemId].ownerType.Client?
  }

  lemma ClientDeviceStep(s: State, c: Change, k: nat)
    requires k < |s.log + c.entries| && (k < |s.log| ==> OnClientDevice(s, s.log[k]))
    requires forall i :: i in s.items ==> i in Commit(s, c).items && SameDevice(Commit(s, c).items[i], s.items[i])
    requires forall j :: 0 <= j < |c.entries| ==> OnClientDevice(s, c.entries[j])
    ensures OnClientDevice(Commit(s, c), (s.log + c.entries)[k])
  {
  }

  lemma DevicesKeepOrigins(s: State, e: Event, c: Change)
    requires Plan(s, e) == Success(c)
    ensures forall i :: i in s.items ==> i in Commit(s, c).items && SameDevice(Commit(s, c).items[i], s.items[i])
    ensures forall j :: 0 <= j < |c.entries| ==> OnClientDevice(s, c.entries[j])
  {
    OriginsStep(s, e);
    forall j | 0 <= j < |c.entries| && c.entries[j].event.ClientAssigned? ensures OnClientDevice(s, c.entries[j]) {
      ClientEntryStep(s, e, c, j);
    }
  }

  /** Every CLIENT_ASSIGNED entry is on a client's device. */
  lemma {:induction false} DirectOnlyForClients(s: State, run: seq<Event>, k: nat)
    requires Fresh(s) && k < |Run(s, run).log|
    ensures OnClientDevice(Run(s, run), Run(s, run).log[k])
  {
    if run != [] {
      var before, e := run[..|run| - 1], run[|run| - 1];
      if k < |Run(s, before).log| { DirectOnlyForClients(s, before, k); }
      if Plan(Run(s, before), e).Success? {
        var c := Plan(Run(s, before), e).value;
        DevicesKeepOrigins(Run(s, before), e, c);
        ClientDeviceStep(Run(s, before), c, k);
      }
    }
  }

  lemma MovesLeaveUsers(s: State, op: ItOp, actor: Id, now: Time, c: Change)
    requires MovesDevices(op) && PlanIt(s, op, actor, now) == Success(c)
    ensures c.users == map[]
  {
  }

  lemma DeskLeavesUsers(s: State, op: ItOp, actor: Id, now: Time, c: Change)
    requires !MovesDevices(op) && PlanIt(s, op, actor, now) == Success(c)
    ensures if op.Activate? || op.Deactivate?
            then op.uid in s.users && c.users == map[op.uid := s.users[op.uid].(isActive := op.Activate?)]
            else c.users == map[]
  {
  }

  lemma EnvLeavesUsers(s: State, op: EnvOp, now: Time, c: Change)
    requires PlanEnv(s, op, now) == Success(c)
    ensures c.users == map[]
  {
  }

  /** A user is active after a successful `activate`, inactive after a successful `deactivate`, and otherwise
      as before; nothing else of a user ever changes. */
  lemma ActiveMovesOnlyOnRequest(s: State, e: Event, u: Id)
    requires u in s.users
    ensures u in Apply(s, e).users
    ensures Apply(s, e).users[u] == s.users[u].(isActive :=
      if Succeeds(s, e) && e.op.It? && e.op.it.Activate? && e.op.it.uid == u then true
      else if Succeeds(s, e) && e.op.It? && e.op.it.Deactivate? && e.op.it.uid == u then false
      else s.users[u].isActive)
  {
    if Succeeds(s, e) {
      var c := Plan(s, e).value;
      match e.op
      case Env(op) => EnvLeavesUsers(s, op, e.now, c);
      case It(op, actor) =>
        if MovesDevices(op) { MovesLeaveUsers(s, op, actor, e.now, c); } else { DeskLeavesUsers(s, op, actor, e.now, c); }
    }
  }

  // ---- The time of the last update.

  /** A written device is stamped exactly if it differs. */
  predicate StampsChange(s: State, c: Change, i: Id, now: Time) {
    i in c.items ==>
      if i in s.items && c.items[i].(updatedAt := s.items[i].updatedAt) == s.items[i] then c.items[i] == s.items[i]
      else c.items[i].updatedAt == now
  }

  lemma MovesStamp(s: State, op: ItOp, actor: Id, now: Time, c: Change, i: Id)
    requires MovesDevices(op) && !op.Resolve? && PlanIt(s, op, actor, now) == Success(c)
    ensures StampsChange(s, c, i, now)
  {
  }

  lemma ResolveStamps(s: State, tid: Id, action: Action, actor: Id, now: Time, c: Change, i: Id)
    requires PlanResolve(s, tid, action, actor, now) == Success(c)
    ensures StampsChange(s, c, i, now)
  {
  }

  lemma DeskStamps(s: State, op: ItOp, actor: Id, now: Time, c: Change, i: Id)
    requires !MovesDevices(op) && PlanIt(s, op, actor, now) == Success(c)
    ensures StampsChange(s, c, i, now)
  {
  }

  lemma EnvStamps(s: State, op: EnvOp, now: Time, c: Change, i: Id)
    requires PlanEnv(s, op, now) == Success(c)
    ensures StampsChange(s, c, i, now)
  {
  }

  /** `updated_at` of a device, by which suggestions are ordered, moves to the time of the transaction exactly
      when something else of the row changes. */
  lemma UpdatedWhenChanged(s: State, e: Event, i: Id)
    requires i in s.items
    ensures i in Apply(s, e).items
    ensures var a, b := s.items[i], Apply(s, e).items[i];
      if b.(updatedAt := a.updatedAt) == a then b == a else b.updatedAt == e.now
  {
    if Succeeds(s, e) {
      var c := Plan(s, e).value;
      match e.op
      case Env(op) => EnvStamps(s, op, e.now, c, i);
      case It(op, actor) =>
        if op.Resolve? { ResolveStamps(s, op.tid, op.action, actor, e.now, c, i); }
        else if MovesDevices(op) { MovesStamp(s, op, actor, e.now, c, i); }
        else { DeskStamps(s, op, actor, e.now, c, i); }
    }
  }
}
