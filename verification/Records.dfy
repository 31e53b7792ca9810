/** What a row says of the past is what the log says: who assigned, shipped, received, resolved and decided,
    when, and to what. */
module Records {
  import opened Wrappers
  import opened Models
  import opened DeviceLog
  import opened Queries
  import opened Operations
  import opened Laws
  import opened OperationLaws
  import opened Invariants
  import opened Replay

  /** The milestones of a request, a ticket or an extension that its row keeps a record of. */
  datatype Kind =
    | Given(rid: Id) | ShippedOut(rid: Id) | Delivered(rid: Id) | SentBack(rid: Id) | Ended(rid: Id)
    | Shut(tid: Id) | SwappedInto(tid: Id) | Repaired(tid: Id) | LostWith(tid: Id)
    | Decided(xid: Id)

  predicate Is(e: LogEntry, kind: Kind) {
    match kind
    case Given(q) => (e.event.Assigned? || e.event.ClientAssigned?) && e.requestId == Some(q)
    case ShippedOut(q) => e.event.ShipOutboundInitiated? && e.requestId == Some(q)
    case Delivered(q) => e.event.ShipOutboundCompleted? && e.requestId == Some(q)
    case SentBack(q) => e.event.ReturnShipInitiated? && e.requestId == Some(q)
    case Ended(q) => (e.event.ReturnReceived? || e.event.MarkedLost?) && e.requestId == Some(q)
    case Shut(t) => (e.event.SupportResolved? || e.event.SupportAutoClosed?) && e.ticketId == Some(t)
    case SwappedInto(t) => e.event.SwappedIn? && e.ticketId == Some(t)
    case Repaired(t) => e.event.StatusChanged? && e.ticketId == Some(t) && e.toValue == Some(DeviceStatus.Assigned)
    case LostWith(t) => e.event.MarkedLost? && e.ticketId == Some(t)
    case Decided(x) => (e.event.ExtensionApproved? || e.event.ExtensionRejected?) && e.extensionId == Some(x)
  }

  /** The last entry of the kind. */
  function Last(log: seq<LogEntry>, kind: Kind): Option<LogEntry> {
    if log == [] then None
    else if Is(log[|log| - 1], kind) then Some(log[|log| - 1])
    else Last(log[..|log| - 1], kind)
  }

  function TimeOf(e: Option<LogEntry>): Option<Time> {
    if e.Some? then Some(e.value.occurredAt) else None
  }

  function ActorOf(e: Option<LogEntry>): Option<Id> {
    if e.Some? then e.value.actorId else None
  }

  function ItemOf(e: Option<LogEntry>): Option<Id> {
    if e.Some? then Some(e.value.itemId) else None
  }

  predicate RequestAgrees(r: Request, kind: Kind, last: Option<LogEntry>) {
    match kind
    case Given(_) =>
      && (r.assignedFrom.Some? <==> last.Some?)
      && (r.isClientDirect <==> last.Some? && last.value.event.ClientAssigned?)
      && (last.Some? ==> r.decidedBy == ActorOf(last) && r.decidedAt == TimeOf(last))
    case ShippedOut(_) => r.shipInitiatedAt == TimeOf(last)
    case Delivered(_) => r.shipCompletedAt == TimeOf(last)
    case SentBack(_) => r.returnInitiatedAt == TimeOf(last)
    case Ended(_) =>
      && (r.status.Completed? <==> last.Some?)
      && r.completedAt == TimeOf(last) && r.completedBy == ActorOf(last)
      && r.completedNextStatus == (if last.Some? && last.value.event.ReturnReceived? then last.value.toValue else None)
    case _ => true
  }

  predicate TicketAgrees(t: Ticket, kind: Kind, last: Option<LogEntry>) {
    match kind
    case Shut(_) =>
      && (t.status.Resolved? <==> last.Some?)
      && (t.autoClosed <==> last.Some? && last.value.event.SupportAutoClosed?)
      && t.resolvedAt == TimeOf(last) && t.resolvedBy == ActorOf(last)
    case SwappedInto(_) => (t.resolution == Some(SupportResolution.Swapped) <==> last.Some?) && t.swappedTo == ItemOf(last)
    case Repaired(_) => t.resolution == Some(RepairedInPlace) <==> last.Some?
    case LostWith(_) => t.resolution == Some(SupportResolution.MarkedLost) <==> last.Some?
    case _ => true
  }

  predicate ExtensionAgrees(x: Extension, last: Option<LogEntry>) {
    && (x.status.Pending? <==> last.None?)
    && (x.status.Approved? <==> last.Some? && last.value.event.ExtensionApproved?)
    && x.decidedAt == TimeOf(last) && x.decidedBy == ActorOf(last)
  }

  predicate AboutTicket(kind: Kind) {
    kind.Shut? || kind.SwappedInto? || kind.Repaired? || kind.LostWith?
  }

  predicate AboutRequest(kind: Kind) {
    !AboutTicket(kind) && !kind.Decided?
  }

  /** The row of the kind's subject agrees with the last entry of that kind; without a row there is none. */
  predicate Agrees(s: State, kind: Kind, last: Option<LogEntry>) {
    if kind.Decided? then
      if kind.xid in s.extensions then ExtensionAgrees(s.extensions[kind.xid], last) else last.None?
    else if AboutTicket(kind) then
      if kind.tid in s.tickets then TicketAgrees(s.tickets[kind.tid], kind, last) else last.None?
    else
      if kind.rid in s.requests then RequestAgrees(s.requests[kind.rid], kind, last) else last.None?
  }

  function Later(entries: seq<LogEntry>, kind: Kind, last: Option<LogEntry>): Option<LogEntry> {
    if Last(entries, kind).Some? then Last(entries, kind) else last
  }

  /** A change keeps the agreement. */
  predicate KeepsRecord(s: State, c: Change, kind: Kind, last: Option<LogEntry>) {
    Agrees(s, kind, last) ==> Agrees(Commit(s, c), kind, Later(c.entries, kind, last))
  }

  lemma {:induction false} LastOver(log: seq<LogEntry>, more: seq<LogEntry>, kind: Kind)
    ensures Last(log + more, kind) == Later(more, kind, Last(log, kind))
  {
    if more == [] {
      assert log + more == log;
    } else {
      var all := log + more;
      assert all[..|all| - 1] == log + more[..|more| - 1];
      LastOver(log, more[..|more| - 1], kind);
    }
  }

  lemma LastOfOne(entries: seq<LogEntry>, kind: Kind)
    requires |entries| <= 1
    ensures Last(entries, kind) == if |entries| == 1 && Is(entries[0], kind) then Some(entries[0]) else None
  {
  }

  lemma LastOfTwo(entries: seq<LogEntry>, kind: Kind)
    requires |entries| == 2
    ensures Last(entries, kind) == if Is(entries[1], kind) then Some(entries[1])
                                   else if Is(entries[0], kind) then Some(entries[0]) else None
  {
    LastOfOne(entries[..1], kind);
  }

  lemma {:induction false} LastOfNone(entries: seq<LogEntry>, kind: Kind)
    requires forall k :: 0 <= k < |entries| ==> !Is(entries[k], kind)
    ensures Last(entries, kind).None?
  {
    if entries != [] { LastOfNone(entries[..|entries| - 1], kind); }
  }

  /** The last entry of a kind is one of the kind. */
  lemma {:induction false} LastIsOne(entries: seq<LogEntry>, kind: Kind)
    requires exists k :: 0 <= k < |entries| && Is(entries[k], kind)
    ensures Last(entries, kind).Some?
    ensures exists k :: 0 <= k < |entries| && Is(entries[k], kind) && Last(entries, kind) == Some(entries[k])
  {
    var n := |entries| - 1;
    if !Is(entries[n], kind) {
      var k :| 0 <= k < |entries| && Is(entries[k], kind);
      assert Is(entries[..n][k], kind);
      LastIsOne(entries[..n], kind);
      var j :| 0 <= j < n && Is(entries[..n][j], kind) && Last(entries[..n], kind) == Some(entries[..n][j]);
      assert Is(entries[j], kind);
    }
  }

  /** The change neither mentions the kind nor writes the row of its subject. */
  ghost predicate Quiet(c: Change, kind: Kind) {
    && (forall k :: 0 <= k < |c.entries| ==> !Is(c.entries[k], kind))
    && (if kind.Decided? then kind.xid !in c.extensions
        else if AboutTicket(kind) then kind.tid !in c.tickets
        else kind.rid !in c.requests)
  }

  lemma QuietKeeps(s: State, c: Change, kind: Kind, last: Option<LogEntry>)
    requires Quiet(c, kind)
    ensures KeepsRecord(s, c, kind, last)
  {
    LastOfNone(c.entries, kind);
    SameRowAgrees(s, Commit(s, c), kind, last);
  }

  lemma SameRowAgrees(s: State, post: State, kind: Kind, last: Option<LogEntry>)
    requires AboutRequest(kind) ==>
      (kind.rid in s.requests <==> kind.rid in post.requests)
      && (kind.rid in s.requests ==> post.requests[kind.rid] == s.requests[kind.rid])
    requires AboutTicket(kind) ==>
      (kind.tid in s.tickets <==> kind.tid in post.tickets)
      && (kind.tid in s.tickets ==> post.tickets[kind.tid] == s.tickets[kind.tid])
    requires kind.Decided? ==>
      (kind.xid in s.extensions <==> kind.xid in post.extensions)
      && (kind.xid in s.extensions ==> post.extensions[kind.xid] == s.extensions[kind.xid])
    ensures Agrees(s, kind, last) ==> Agrees(post, kind, last)
  {
  }

  /** A change of at most one entry: its record is that entry, if it is of the kind. */
  lemma RequestKeeps(s: State, c: Change, rid: Id, kind: Kind, last: Option<LogEntry>)
    requires |c.entries| <= 1 && AboutRequest(kind) && kind.rid == rid && rid in c.requests
    requires var e := if |c.entries| == 1 && Is(c.entries[0], kind) then Some(c.entries[0]) else last;
      Agrees(s, kind, last) ==> RequestAgrees(c.requests[rid], kind, e)
    ensures KeepsRecord(s, c, kind, last)
  {
    LastOfOne(c.entries, kind);
  }

  // ---- Every operation.

  lemma AssignKeeps(s: State, rid: Id, iid: Id, from: Time, to: Time, isWfh: bool, actor: Id, now: Time, c: Change,
                    kind: Kind, last: Option<LogEntry>)
    requires Known(s, rid) && PlanAssign(s, rid, iid, from, to, isWfh, actor, now) == Success(c)
    ensures KeepsRecord(s, c, kind, last)
  {
    if AboutRequest(kind) && kind.rid == rid { RequestKeeps(s, c, rid, kind, last); } else { QuietKeeps(s, c, kind, last); }
  }

  lemma DirectAssignKeeps(s: State, rid: Id, iid: Id, emp: Id, from: Time, to: Time, actor: Id, now: Time, c: Change,
                          kind: Kind, last: Option<LogEntry>)
    requires PlanDirectAssign(s, rid, iid, emp, from, to, actor, now) == Success(c)
    ensures KeepsRecord(s, c, kind, last)
  {
    if AboutRequest(kind) && kind.rid == rid { RequestKeeps(s, c, rid, kind, last); } else { QuietKeeps(s, c, kind, last); }
  }

  lemma ShipKeeps(s: State, rid: Id, actor: Id, now: Time, c: Change, kind: Kind, last: Option<LogEntry>)
    requires PlanShip(s, rid, actor, now) == Success(c)
    ensures KeepsRecord(s, c, kind, last)
  {
    if AboutRequest(kind) && kind.rid == rid { RequestKeeps(s, c, rid, kind, last); } else { QuietKeeps(s, c, kind, last); }
  }

  lemma ConfirmDeliveryKeeps(s: State, rid: Id, actor: Id, now: Time, c: Change, kind: Kind, last: Option<LogEntry>)
    requires PlanConfirmDelivery(s, rid, actor, now) == Success(c)
    ensures KeepsRecord(s, c, kind, last)
  {
    if AboutRequest(kind) && kind.rid == rid { RequestKeeps(s, c, rid, kind, last); } else { QuietKeeps(s, c, kind, last); }
  }

  lemma StartKeeps(s: State, tid: Id, actor: Id, now: Time, c: Change, kind: Kind, last: Option<LogEntry>)
    requires PlanStart(s, tid, actor, now) == Success(c)
    ensures KeepsRecord(s, c, kind, last)
  {
    StartSilent(s, tid, actor, now, c, kind);
    if AboutTicket(kind) && kind.tid == tid {
      LastOfNone(c.entries, kind);
      TicketUntold(s, c, kind, last);
    } else {
      QuietKeeps(s, c, kind, last);
    }
  }

  lemma StartSilent(s: State, tid: Id, actor: Id, now: Time, c: Change, kind: Kind)
    requires PlanStart(s, tid, actor, now) == Success(c)
    ensures forall k :: 0 <= k < |c.entries| ==> !Is(c.entries[k], kind)
  {
  }

  lemma UpdateBookingRangeKeeps(s: State, rid: Id, from: Time, to: Time, c: Change, kind: Kind, last: Option<LogEntry>)
    requires Known(s, rid) && PlanUpdateBookingRange(s, rid, from, to) == Success(c)
    ensures KeepsRecord(s, c, kind, last)
  {
    if AboutRequest(kind) && kind.rid == rid { RequestKeeps(s, c, rid, kind, last); } else { QuietKeeps(s, c, kind, last); }
  }

  lemma RejectKeeps(s: State, rid: Id, actor: Id, now: Time, c: Change, kind: Kind, last: Option<LogEntry>)
    requires Known(s, rid) && PlanReject(s, rid, actor, now) == Success(c)
    ensures KeepsRecord(s, c, kind, last)
  {
    if AboutRequest(kind) && kind.rid == rid { RequestKeeps(s, c, rid, kind, last); } else { QuietKeeps(s, c, kind, last); }
  }

  lemma CancelKeeps(s: State, rid: Id, actor: Id, now: Time, c: Change, kind: Kind, last: Option<LogEntry>)
    requires PlanCancel(s, rid, actor, now) == Success(c)
    ensures KeepsRecord(s, c, kind, last)
  {
    if AboutRequest(kind) && kind.rid == rid { RequestKeeps(s, c, rid, kind, last); } else { QuietKeeps(s, c, kind, last); }
  }

  lemma EscalateKeeps(s: State, rid: Id, manager: Option<Id>, c: Change, kind: Kind, last: Option<LogEntry>)
    requires PlanEscalate(s, rid, manager) == Success(c)
    ensures KeepsRecord(s, c, kind, last)
  {
    if AboutRequest(kind) && kind.rid == rid { RequestKeeps(s, c, rid, kind, last); } else { QuietKeeps(s, c, kind, last); }
  }

  lemma ExtensionApproveKeeps(s: State, xid: Id, actor: Id, now: Time, c: Change, kind: Kind, last: Option<LogEntry>)
    requires PlanExtensionApprove(s, xid, actor, now) == Success(c)
    ensures KeepsRecord(s, c, kind, last)
  {
    var rid := s.extensions[xid].requestId;
    if AboutRequest(kind) && kind.rid == rid { RequestKeeps(s, c, rid, kind, last); }
    else if kind == Decided(xid) { LastOfOne(c.entries, kind); }
    else { QuietKeeps(s, c, kind, last); }
  }

  lemma ExtensionRejectKeeps(s: State, xid: Id, actor: Id, now: Time, c: Change, kind: Kind, last: Option<LogEntry>)
    requires PlanExtensionReject(s, xid, actor, now) == Success(c)
    ensures KeepsRecord(s, c, kind, last)
  {
    if kind == Decided(xid) { LastOfOne(c.entries, kind); } else { QuietKeeps(s, c, kind, last); }
  }

  lemma OfficeIsQuiet(s: State, op: ItOp, actor: Id, now: Time, c: Change, kind: Kind)
    requires op.ChangeStatus? || op.CreateItem? || op.EditItem? || op.Deactivate? || op.Activate?
    requires PlanIt(s, op, actor, now) == Success(c)
    ensures Quiet(c, kind)
  {
  }

  lemma FileRequestKeeps(s: State, op: EnvOp, now: Time, c: Change, kind: Kind, last: Option<LogEntry>)
    requires op.FileRequest? && PlanEnv(s, op, now) == Success(c)
    ensures KeepsRecord(s, c, kind, last)
  {
    if AboutRequest(kind) && kind.rid == op.rid { RequestKeeps(s, c, op.rid, kind, last); } else { QuietKeeps(s, c, kind, last); }
  }

  lemma RouteKeeps(s: State, rid: Id, c: Change, kind: Kind, last: Option<LogEntry>)
    requires PlanRoute(s, rid) == Success(c)
    ensures KeepsRecord(s, c, kind, last)
  {
    if AboutRequest(kind) && kind.rid == rid { RequestKeeps(s, c, rid, kind, last); } else { QuietKeeps(s, c, kind, last); }
  }

  lemma ManagerDecisionKeeps(s: State, rid: Id, approve: bool, c: Change, kind: Kind, last: Option<LogEntry>)
    requires PlanManagerDecision(s, rid, approve) == Success(c)
    ensures KeepsRecord(s, c, kind, last)
  {
    if AboutRequest(kind) && kind.rid == rid { RequestKeeps(s, c, rid, kind, last); } else { QuietKeeps(s, c, kind, last); }
  }

  lemma InitiateReturnKeeps(s: State, rid: Id, now: Time, c: Change, kind: Kind, last: Option<LogEntry>)
    requires PlanInitiateReturn(s, rid, now) == Success(c)
    ensures KeepsRecord(s, c, kind, last)
  {
    if AboutRequest(kind) && kind.rid == rid { RequestKeeps(s, c, rid, kind, last); } else { QuietKeeps(s, c, kind, last); }
  }

  lemma FileTicketKeeps(s: State, op: EnvOp, now: Time, c: Change, kind: Kind, last: Option<LogEntry>)
    requires op.FileTicket? && PlanEnv(s, op, now) == Success(c)
    ensures KeepsRecord(s, c, kind, last)
  {
    if AboutTicket(kind) && kind.tid == op.tid { LastOfOne(c.entries, kind); } else { QuietKeeps(s, c, kind, last); }
  }

  lemma FileExtensionKeeps(s: State, op: EnvOp, now: Time, c: Change, kind: Kind, last: Option<LogEntry>)
    requires (op.FileExtension? || op.ExtensionManagerDecision?) && PlanEnv(s, op, now) == Success(c)
    ensures KeepsRecord(s, c, kind, last)
  {
    if kind == Decided(op.xid) { LastOfOne(c.entries, kind); } else { QuietKeeps(s, c, kind, last); }
  }

  lemma EnvKeeps(s: State, op: EnvOp, now: Time, c: Change, kind: Kind, last: Option<LogEntry>)
    requires PlanEnv(s, op, now) == Success(c)
    ensures KeepsRecord(s, c, kind, last)
  {
    match op
    case FileRequest(_, _, _, _, _, _, _) => FileRequestKeeps(s, op, now, c, kind, last);
    case RouteRequest(rid) => RouteKeeps(s, rid, c, kind, last);
    case ManagerDecision(rid, approve) => ManagerDecisionKeeps(s, rid, approve, c, kind, last);
    case InitiateReturn(rid) => InitiateReturnKeeps(s, rid, now, c, kind, last);
    case FileTicket(_, _, _, _, _) => FileTicketKeeps(s, op, now, c, kind, last);
    case _ => FileExtensionKeeps(s, op, now, c, kind, last);
  }

  // ---- A return.

  lemma ReturnKeeps(s: State, rid: Id, iid: Id, next: DeviceStatus, actor: Id, now: Time, c: Change, kind: Kind,
                    last: Option<LogEntry>)
    requires ReturnChange(s, rid, iid, next, actor, now, c)
    ensures KeepsRecord(s, c, kind, last)
  {
    if kind == Ended(rid) {
      ReturnEnds(s, rid, iid, next, actor, now, c);
    } else if kind.Shut? {
      ReturnShuts(s, rid, iid, next, actor, now, c, kind.tid, last);
    } else if AboutRequest(kind) && kind.rid == rid {
      ReturnLeaves(s, rid, iid, next, actor, now, c, kind);
    } else if AboutTicket(kind) {
      ReturnLeavesTickets(s, rid, iid, next, actor, now, c, kind, last);
    } else {
      ReturnSilent(s, rid, iid, next, actor, now, c, kind);
      QuietKeeps(s, c, kind, last);
    }
  }

  lemma ReturnSilent(s: State, rid: Id, iid: Id, next: DeviceStatus, actor: Id, now: Time, c: Change, kind: Kind)
    requires ReturnChange(s, rid, iid, next, actor, now, c) && kind != Ended(rid) && !kind.Shut?
    ensures forall k :: 0 <= k < |c.entries| ==> !Is(c.entries[k], kind)
  {
    ReturnEntriesAbout(s, rid, iid, next, actor, now, c);
    ReturnedSilent(c.entries, rid, iid, OpenTickets(s.tickets, iid), kind);
  }

  lemma ReturnedSilent(entries: seq<LogEntry>, rid: Id, iid: Id, open: seq<Id>, kind: Kind)
    requires ReturnedEntries(entries, rid, iid, open) && kind != Ended(rid) && !kind.Shut?
    ensures forall k :: 0 <= k < |entries| ==> !Is(entries[k], kind)
  {
  }

  lemma ReturnLeaves(s: State, rid: Id, iid: Id, next: DeviceStatus, actor: Id, now: Time, c: Change, kind: Kind)
    requires ReturnChange(s, rid, iid, next, actor, now, c) && AboutRequest(kind) && kind != Ended(rid) && kind.rid == rid
    ensures forall last :: KeepsRecord(s, c, kind, last)
  {
    ReturnSilent(s, rid, iid, next, actor, now, c, kind);
    LastOfNone(c.entries, kind);
  }

  lemma ReturnLeavesTickets(s: State, rid: Id, iid: Id, next: DeviceStatus, actor: Id, now: Time, c: Change, kind: Kind,
                            last: Option<LogEntry>)
    requires ReturnChange(s, rid, iid, next, actor, now, c) && AboutTicket(kind) && !kind.Shut?
    ensures KeepsRecord(s, c, kind, last)
  {
    ReturnSilent(s, rid, iid, next, actor, now, c, kind);
    LastOfNone(c.entries, kind);
    TicketUntold(s, c, kind, last);
  }

  /** Closing a ticket or starting it tells nothing of its resolution. */
  lemma TicketUntold(s: State, c: Change, kind: Kind, last: Option<LogEntry>)
    requires AboutTicket(kind) && Last(c.entries, kind).None?
    requires forall t :: t in c.tickets ==>
      && t in s.tickets && c.tickets[t].resolution == s.tickets[t].resolution && c.tickets[t].swappedTo == s.tickets[t].swappedTo
    requires kind.Shut? && kind.tid in c.tickets ==>
      var o, n := s.tickets[kind.tid], c.tickets[kind.tid];
      && n.status.Resolved? == o.status.Resolved? && n.autoClosed == o.autoClosed
      && n.resolvedAt == o.resolvedAt && n.resolvedBy == o.resolvedBy
    ensures KeepsRecord(s, c, kind, last)
  {
  }

  lemma ReturnEnds(s: State, rid: Id, iid: Id, next: DeviceStatus, actor: Id, now: Time, c: Change)
    requires ReturnChange(s, rid, iid, next, actor, now, c)
    ensures Last(c.entries, Ended(rid)) == Some(c.entries[0])
  {
    ReturnEndsAlike(s, rid, iid, next, actor, now, c);
    LastAlike(c.entries, Ended(rid), c.entries[0], 0);
  }

  lemma ReturnEndsAlike(s: State, rid: Id, iid: Id, next: DeviceStatus, actor: Id, now: Time, c: Change)
    requires ReturnChange(s, rid, iid, next, actor, now, c)
    ensures Is(c.entries[0], Ended(rid)) && forall k :: 1 <= k < |c.entries| ==> !Is(c.entries[k], Ended(rid))
  {
  }

  lemma ReturnShuts(s: State, rid: Id, iid: Id, next: DeviceStatus, actor: Id, now: Time, c: Change, t: Id,
                    last: Option<LogEntry>)
    requires ReturnChange(s, rid, iid, next, actor, now, c)
    ensures KeepsRecord(s, c, Shut(t), last)
  {
    if t in OpenTickets(s.tickets, iid) {
      ReturnShutsListed(s, rid, iid, next, actor, now, c, t);
    } else {
      ReturnShutsNoOther(s, rid, iid, next, actor, now, c, t);
      QuietKeeps(s, c, Shut(t), last);
    }
  }

  lemma ReturnShutsListed(s: State, rid: Id, iid: Id, next: DeviceStatus, actor: Id, now: Time, c: Change, t: Id)
    requires ReturnChange(s, rid, iid, next, actor, now, c) && t in OpenTickets(s.tickets, iid)
    ensures Last(c.entries, Shut(t)) == Some(AutoClosedEntry(now, iid, t))
  {
    var open := OpenTickets(s.tickets, iid);
    var j :| 0 <= j < |open| && open[j] == t;
    assert c.entries[j + 2] == AutoClosedEntry(now, iid, t);
    ReturnShutsAlike(s, rid, iid, next, actor, now, c, t);
    LastAlike(c.entries, Shut(t), AutoClosedEntry(now, iid, t), j + 2);
  }

  lemma ReturnShutsAlike(s: State, rid: Id, iid: Id, next: DeviceStatus, actor: Id, now: Time, c: Change, t: Id)
    requires ReturnChange(s, rid, iid, next, actor, now, c)
    ensures forall k :: 0 <= k < |c.entries| && Is(c.entries[k], Shut(t)) ==> c.entries[k] == AutoClosedEntry(now, iid, t)
  {
  }

  /** If all entries of the kind are the same, the last is that one. */
  lemma LastAlike(entries: seq<LogEntry>, kind: Kind, e: LogEntry, k: nat)
    requires k < |entries| && entries[k] == e && Is(e, kind)
    requires forall j :: 0 <= j < |entries| && Is(entries[j], kind) ==> entries[j] == e
    ensures Last(entries, kind) == Some(e)
  {
    assert Is(entries[k], kind);
    LastIsOne(entries, kind);
  }

  lemma ReturnShutsNoOther(s: State, rid: Id, iid: Id, next: DeviceStatus, actor: Id, now: Time, c: Change, t: Id)
    requires ReturnChange(s, rid, iid, next, actor, now, c) && t !in OpenTickets(s.tickets, iid)
    ensures Quiet(c, Shut(t))
  {
    var open := OpenTickets(s.tickets, iid);
    forall k | 0 <= k < |c.entries| ensures !Is(c.entries[k], Shut(t)) {
      if k >= 2 { assert open[k - 2] in open; }
    }
  }

  // ---- A resolution: the branch, then the closing.

  lemma BranchKeeps(s: State, tid: Id, t: Ticket, action: Action, actor: Id, now: Time, b: Change, kind: Kind,
                    last: Option<LogEntry>)
    requires t.itemId in s.items && PlanBranch(s, tid, t, action, actor, now) == Success(b) && !AboutTicket(kind)
    ensures KeepsRecord(s, b, kind, last)
  {
    match action
    case DoRemote => QuietKeeps(s, b, kind, last);
    case DoRepair => QuietKeeps(s, b, kind, last);
    case DoSwap(to, oldNext) => SwapKeepsRecord(s, tid, t, to, oldNext, actor, now, b, kind, last);
    case DoLost => LostKeepsRecord(s, tid, t, actor, now, b, kind, last);
  }

  lemma SwapKeepsRecord(s: State, tid: Id, t: Ticket, to: Id, oldNext: DeviceStatus, actor: Id, now: Time, b: Change,
                        kind: Kind, last: Option<LogEntry>)
    requires t.itemId in s.items && PlanSwap(s, tid, t, to, oldNext, actor, now) == Success(b) && !AboutTicket(kind)
    ensures KeepsRecord(s, b, kind, last)
  {
    SwapSilent(s, tid, t, to, oldNext, actor, now, b, kind);
    if AboutRequest(kind) && kind.rid == t.requestId.value { LastOfNone(b.entries, kind); }
    else { QuietKeeps(s, b, kind, last); }
  }

  lemma SwapSilent(s: State, tid: Id, t: Ticket, to: Id, oldNext: DeviceStatus, actor: Id, now: Time, b: Change, kind: Kind)
    requires t.itemId in s.items && PlanSwap(s, tid, t, to, oldNext, actor, now) == Success(b) && !AboutTicket(kind)
    ensures forall k :: 0 <= k < |b.entries| ==> !Is(b.entries[k], kind)
  {
  }

  lemma LostKeepsRecord(s: State, tid: Id, t: Ticket, actor: Id, now: Time, b: Change, kind: Kind, last: Option<LogEntry>)
    requires t.itemId in s.items && PlanMarkLost(s, tid, t, actor, now) == Success(b) && !AboutTicket(kind)
    ensures KeepsRecord(s, b, kind, last)
  {
    if AboutRequest(kind) && kind.rid == t.requestId.value { RequestKeeps(s, b, kind.rid, kind, last); }
    else { QuietKeeps(s, b, kind, last); }
  }

  /** The entry by which a branch tells its resolution, if it has one. */
  predicate Telling(b: Change, tid: Id, action: Action) {
    match action
    case DoRemote => b.entries == []
    case DoRepair =>
      && |b.entries| == 1 && Is(b.entries[0], Repaired(tid))
    case DoSwap(to, _) =>
      && |b.entries| == 2 && b.entries[0].event.SwappedOut? && Is(b.entries[1], SwappedInto(tid)) && b.entries[1].itemId == to
    case DoLost =>
      && |b.entries| == 1 && Is(b.entries[0], LostWith(tid))
  }

  lemma BranchTells(s: State, tid: Id, t: Ticket, action: Action, actor: Id, now: Time, b: Change)
    requires t.itemId in s.items && PlanBranch(s, tid, t, action, actor, now) == Success(b)
    ensures Telling(b, tid, action) && b.tickets == map[]
  {
  }

  /** A resolved ticket is marked as its branch told. */
  lemma ResolvedAgrees(t: Ticket, tid: Id, action: Action, actor: Id, now: Time, b: Change, kind: Kind,
                       last: Option<LogEntry>, e: LogEntry)
    requires Telling(b, tid, action) && !t.status.Resolved? && t.resolution.None?
    requires kind in {SwappedInto(tid), Repaired(tid), LostWith(tid)} && TicketAgrees(t, kind, last)
    requires e.event.SupportResolved?
    ensures TicketAgrees(ResolvedTicket(t, action, actor, now), kind, Later(b.entries + [e], kind, last))
  {
    LastOver(b.entries, [e], kind);
    LastOfOne([e], kind);
    BranchLast(b, tid, action, kind);
  }

  /** The last of the branch's entries of the kind is the one that tells its resolution. */
  lemma BranchLast(b: Change, tid: Id, action: Action, kind: Kind)
    requires Telling(b, tid, action) && kind in {SwappedInto(tid), Repaired(tid), LostWith(tid)}
    ensures var told := Last(b.entries, kind);
      match action
      case DoRemote => told.None?
      case DoRepair => told.Some? <==> kind == Repaired(tid)
      case DoSwap(to, _) => if kind == SwappedInto(tid) then ItemOf(told) == Some(to) else told.None?
      case DoLost => told.Some? <==> kind == LostWith(tid)
  {
    if |b.entries| == 2 { LastOfTwo(b.entries, kind); } else { LastOfOne(b.entries, kind); }
  }

  lemma ResolveKeeps(s: State, tid: Id, action: Action, actor: Id, now: Time, c: Change, kind: Kind, last: Option<LogEntry>)
    requires tid in s.tickets && TicketWf(s, s.tickets[tid])
    requires PlanResolve(s, tid, action, actor, now) == Success(c)
    ensures KeepsRecord(s, c, kind, last)
  {
    var t := s.tickets[tid];
    var b := PlanBranch(s, tid, t, action, actor, now).value;
    BranchTells(s, tid, t, action, actor, now, b);
    if !AboutTicket(kind) { BranchKeeps(s, tid, t, action, actor, now, b, kind, last); }
    ClosingKeeps(s, tid, t, action, actor, now, b, kind, last);
  }

  lemma ClosingKeeps(s: State, tid: Id, t: Ticket, action: Action, actor: Id, now: Time, b: Change, kind: Kind,
                     last: Option<LogEntry>)
    requires tid in s.tickets && s.tickets[tid] == t && TicketWf(s, t) && !t.status.Resolved?
    requires Telling(b, tid, action) && b.tickets == map[] && (!AboutTicket(kind) ==> KeepsRecord(s, b, kind, last))
    ensures KeepsRecord(s, Operations.Closing(b, tid, t, action, actor, now), kind, last)
  {
    var c := Operations.Closing(b, tid, t, action, actor, now);
    var e := ItEntry(now, t.itemId, SupportResolved, actor).(ticketId := Some(tid));
    ClosingLast(b.entries, e, kind);
    if !AboutTicket(kind) {
      OtherClosingKeeps(s, b, c, kind, last);
    } else if kind.tid != tid {
      OthersUntold(b, tid, action, kind);
      SameRowAgrees(s, Commit(s, c), kind, last);
    } else {
      TicketClosingKeeps(s, tid, t, action, actor, now, b, c, kind, last, e);
    }
  }

  lemma ClosingLast(entries: seq<LogEntry>, e: LogEntry, kind: Kind)
    ensures Last(entries + [e], kind) == if Is(e, kind) then Some(e) else Last(entries, kind)
  {
    LastOver(entries, [e], kind);
    LastOfOne([e], kind);
  }

  /** The closing leaves requests and extensions as the branch did. */
  lemma OtherClosingKeeps(s: State, b: Change, c: Change, kind: Kind, last: Option<LogEntry>)
    requires !AboutTicket(kind) && KeepsRecord(s, b, kind, last)
    requires c.requests == b.requests && c.extensions == b.extensions && Last(c.entries, kind) == Last(b.entries, kind)
    ensures KeepsRecord(s, c, kind, last)
  {
    SameRowAgrees(Commit(s, b), Commit(s, c), kind, Later(b.entries, kind, last));
  }

  lemma TicketClosingKeeps(s: State, tid: Id, t: Ticket, action: Action, actor: Id, now: Time, b: Change, c: Change,
                           kind: Kind, last: Option<LogEntry>, e: LogEntry)
    requires tid in s.tickets && s.tickets[tid] == t && TicketWf(s, t) && !t.status.Resolved?
    requires Telling(b, tid, action) && c == Operations.Closing(b, tid, t, action, actor, now)
    requires e == ItEntry(now, t.itemId, SupportResolved, actor).(ticketId := Some(tid)) && c.entries == b.entries + [e]
    requires Last(c.entries, kind) == if Is(e, kind) then Some(e) else Last(b.entries, kind)
    requires AboutTicket(kind) && kind.tid == tid
    ensures KeepsRecord(s, c, kind, last)
  {
    if !kind.Shut? && TicketAgrees(t, kind, last) { ResolvedAgrees(t, tid, action, actor, now, b, kind, last, e); }
  }

  lemma OthersUntold(b: Change, tid: Id, action: Action, kind: Kind)
    requires Telling(b, tid, action) && AboutTicket(kind) && kind.tid != tid
    ensures Last(b.entries, kind).None?
  {
    LastOfNone(b.entries, kind);
  }

  // ---- Over runs.

  lemma MovesKeepRecords(s: State, op: ItOp, actor: Id, now: Time, c: Change, kind: Kind, last: Option<LogEntry>)
    requires Wf(s) && MovesDevices(op) && PlanIt(s, op, actor, now) == Success(c)
    ensures KeepsRecord(s, c, kind, last)
  {
    match op
    case Assign(rid, iid, from, to, isWfh) => AssignKeeps(s, rid, iid, from, to, isWfh, actor, now, c, kind, last);
    case DirectAssign(rid, iid, emp, from, to) => DirectAssignKeeps(s, rid, iid, emp, from, to, actor, now, c, kind, last);
    case Ship(rid) => ShipKeeps(s, rid, actor, now, c, kind, last);
    case ConfirmDelivery(rid) => ConfirmDeliveryKeeps(s, rid, actor, now, c, kind, last);
    case CompleteReturn(rid, next) =>
      ReturnChangeHolds(s, rid, next, actor, now, c);
      ReturnKeeps(s, rid, s.requests[rid].item.value, next, actor, now, c, kind, last);
    case Start(tid) => StartKeeps(s, tid, actor, now, c, kind, last);
    case Resolve(tid, action) => ResolveKeeps(s, tid, action, actor, now, c, kind, last);
  }

  lemma DeskKeepsRecords(s: State, op: ItOp, actor: Id, now: Time, c: Change, kind: Kind, last: Option<LogEntry>)
    requires Wf(s) && !MovesDevices(op) && PlanIt(s, op, actor, now) == Success(c)
    ensures KeepsRecord(s, c, kind, last)
  {
    match op
    case UpdateBookingRange(rid, from, to) => UpdateBookingRangeKeeps(s, rid, from, to, c, kind, last);
    case Reject(rid) => RejectKeeps(s, rid, actor, now, c, kind, last);
    case Cancel(rid) => CancelKeeps(s, rid, actor, now, c, kind, last);
    case Escalate(rid, manager) => EscalateKeeps(s, rid, manager, c, kind, last);
    case ExtensionApprove(xid) => ExtensionApproveKeeps(s, xid, actor, now, c, kind, last);
    case ExtensionReject(xid) => ExtensionRejectKeeps(s, xid, actor, now, c, kind, last);
    case _ => OfficeIsQuiet(s, op, actor, now, c, kind); QuietKeeps(s, c, kind, last);
  }

  lemma RecordsStep(s: State, e: Event, c: Change, kind: Kind)
    requires Wf(s) && Plan(s, e) == Success(c) && Agrees(s, kind, Last(s.log, kind))
    ensures Agrees(Commit(s, c), kind, Last(s.log + c.entries, kind))
  {
    LastOver(s.log, c.entries, kind);
    match e.op
    case Env(op) => EnvKeeps(s, op, e.now, c, kind, Last(s.log, kind));
    case It(op, actor) =>
      if MovesDevices(op) { MovesKeepRecords(s, op, actor, e.now, c, kind, Last(s.log, kind)); }
      else { DeskKeepsRecords(s, op, actor, e.now, c, kind, Last(s.log, kind)); }
  }

  /** In every reachable state the row of every request, ticket and extension agrees with the last entry of
      each kind. */
  lemma {:induction false} RowsAgreeWithLog(s: State, run: seq<Event>, kind: Kind)
    requires Fresh(s)
    ensures Agrees(Run(s, run), kind, Last(Run(s, run).log, kind))
  {
    if run != [] {
      var before, e := Run(s, run[..|run| - 1]), run[|run| - 1];
      RowsAgreeWithLog(s, run[..|run| - 1], kind);
      ReachableWf(s, run[..|run| - 1]);
      if Plan(before, e).Success? { RecordsStep(before, e, Plan(before, e).value, kind); }
    }
  }

  // ---- What that says of requests, tickets and extensions.

  /** A request is COMPLETED exactly if the log has a return of it or a loss tied to it, and carries the time,
      the actor and the next status of the last; its shipping times are those of its shipping entries. */
  lemma RequestRecord(s: State, run: seq<Event>, q: Id)
    requires Fresh(s) && q in Run(s, run).requests
    ensures var r, log := Run(s, run).requests[q], Run(s, run).log;
      var end := Last(log, Ended(q));
      && (r.status.Completed? <==> end.Some?)
      && r.completedAt == TimeOf(end) && r.completedBy == ActorOf(end)
      && r.completedNextStatus == (if end.Some? && end.value.event.ReturnReceived? then end.value.toValue else None)
      && r.shipInitiatedAt == TimeOf(Last(log, ShippedOut(q))) && r.shipCompletedAt == TimeOf(Last(log, Delivered(q)))
      && r.returnInitiatedAt == TimeOf(Last(log, SentBack(q)))
  {
    RowsAgreeWithLog(s, run, Ended(q));
    RowsAgreeWithLog(s, run, ShippedOut(q));
    RowsAgreeWithLog(s, run, Delivered(q));
    RowsAgreeWithLog(s, run, SentBack(q));
  }

  /** A request has its assigned dates exactly if the log has its assignment, carries that entry's actor and
      time, and is marked direct exactly if the entry is. */
  lemma AssignmentRecord(s: State, run: seq<Event>, q: Id)
    requires Fresh(s) && q in Run(s, run).requests
    ensures var r, given := Run(s, run).requests[q], Last(Run(s, run).log, Given(q));
      && (r.assignedFrom.Some? <==> given.Some?)
      && (r.isClientDirect <==> given.Some? && given.value.event.ClientAssigned?)
      && (given.Some? ==> r.decidedBy == given.value.actorId && r.decidedAt == Some(given.value.occurredAt))
  {
    RowsAgreeWithLog(s, run, Given(q));
  }

  /** The resolution the log tells of a ticket. */
  function ResolutionTold(log: seq<LogEntry>, t: Id): Option<SupportResolution> {
    if Last(log, SwappedInto(t)).Some? then Some(SupportResolution.Swapped)
    else if Last(log, Repaired(t)).Some? then Some(RepairedInPlace)
    else if Last(log, LostWith(t)).Some? then Some(SupportResolution.MarkedLost)
    else if Last(log, Shut(t)).Some? && Last(log, Shut(t)).value.event.SupportResolved? then Some(RemoteResolved)
    else None
  }

  /** The log tells how every ticket was resolved, by whom and when, and to which device it was swapped: that
      of its SWAPPED_IN entry, which it has exactly if it was swapped. */
  lemma TicketRecord(s: State, run: seq<Event>, t: Id)
    requires Fresh(s) && t in Run(s, run).tickets
    ensures var r, log := Run(s, run).tickets[t], Run(s, run).log;
      && r.resolution == ResolutionTold(log, t)
      && r.swappedTo == ItemOf(Last(log, SwappedInto(t)))
      && r.resolvedAt == TimeOf(Last(log, Shut(t))) && r.resolvedBy == ActorOf(Last(log, Shut(t)))
      && (r.status.Resolved? <==> Last(log, Shut(t)).Some?)
  {
    TicketRowsAgree(s, run, t);
    ResolutionByCases(Run(s, run).tickets[t], Run(s, run).log, t);
  }

  lemma TicketRowsAgree(s: State, run: seq<Event>, t: Id)
    requires Fresh(s) && t in Run(s, run).tickets
    ensures var r, log := Run(s, run).tickets[t], Run(s, run).log;
      && TicketAgrees(r, Shut(t), Last(log, Shut(t))) && TicketAgrees(r, SwappedInto(t), Last(log, SwappedInto(t)))
      && TicketAgrees(r, Repaired(t), Last(log, Repaired(t))) && TicketAgrees(r, LostWith(t), Last(log, LostWith(t)))
      && (if r.status.Resolved? then r.autoClosed <==> r.resolution.None? else r.resolution.None?)
  {
    RowsAgreeWithLog(s, run, Shut(t));
    RowsAgreeWithLog(s, run, SwappedInto(t));
    RowsAgreeWithLog(s, run, Repaired(t));
    RowsAgreeWithLog(s, run, LostWith(t));
    ReachableWf(s, run);
    assert TicketWf(Run(s, run), Run(s, run).tickets[t]);
  }

  lemma {:induction false} LastIs(log: seq<LogEntry>, kind: Kind)
    ensures Last(log, kind).Some? ==> Is(Last(log, kind).value, kind)
  {
    if log != [] { LastIs(log[..|log| - 1], kind); }
  }

  lemma ResolutionByCases(r: Ticket, log: seq<LogEntry>, t: Id)
    requires TicketAgrees(r, Shut(t), Last(log, Shut(t))) && TicketAgrees(r, SwappedInto(t), Last(log, SwappedInto(t)))
    requires TicketAgrees(r, Repaired(t), Last(log, Repaired(t))) && TicketAgrees(r, LostWith(t), Last(log, LostWith(t)))
    requires if r.status.Resolved? then r.autoClosed <==> r.resolution.None? else r.resolution.None?
    ensures r.resolution == ResolutionTold(log, t)
  {
    LastIs(log, Shut(t));
    match r.resolution
    case None =>
    case Some(RemoteResolved) =>
    case Some(RepairedInPlace) =>
    case Some(Swapped) =>
    case Some(MarkedLost) =>
  }

  /** An extension has the status its decision entry names, with that entry's actor and time. */
  lemma ExtensionRecord(s: State, run: seq<Event>, x: Id)
    requires Fresh(s) && x in Run(s, run).extensions
    ensures var r, decision := Run(s, run).extensions[x], Last(Run(s, run).log, Decided(x));
      && (r.status.Pending? <==> decision.None?)
      && (r.status.Approved? <==> decision.Some? && decision.value.event.ExtensionApproved?)
      && r.decidedAt == TimeOf(decision) && r.decidedBy == ActorOf(decision)
  {
    RowsAgreeWithLog(s, run, Decided(x));
  }
}
