/** Requests, tickets and extensions over whole runs: progress, permanence, and what happens at most once. */
module Lifecycle {
  import opened Wrappers
  import opened Models
  import opened DeviceLog
  import opened Queries
  import opened Operations
  import opened Laws
  import opened Invariants
  import opened Replay

  predicate Succeeds(s: State, e: Event) {
    Plan(s, e).Success?
  }

  /** The state just before event `k` of a run. */
  function At(s: State, run: seq<Event>, k: nat): State
    requires k <= |run|
  {
    Run(s, run[..k])
  }

  lemma AtNext(s: State, run: seq<Event>, k: nat)
    requires k < |run|
    ensures At(s, run, k + 1) == Apply(At(s, run, k), run[k])
  {
    assert run[..k + 1][..k] == run[..k];
  }

  // ---- The log only grows.

  lemma {:induction false} LogOnlyGrows(s: State, run: seq<Event>, j: nat, k: nat)
    requires j <= k <= |run|
    ensures At(s, run, j).log <= At(s, run, k).log
  {
    if j < k {
      LogOnlyGrows(s, run, j, k - 1);
      AtNext(s, run, k - 1);
    }
  }

  // ---- One step of a request.

  lemma StepOfRequest(s: State, e: Event, q: Id)
    requires Wf(s) && q in s.requests
    ensures q in Apply(s, e).requests
    ensures Apply(s, e).requests[q] == s.requests[q] || RequestStep(s, Apply(s, e), q)
  {
    if Plan(s, e).Success? { EveryChangeIsLawful(s, e, Plan(s, e).value); }
  }

  /** Rank never rises, COMPLETED stays, and a terminal request stays terminal. */
  lemma {:induction false} ProgressOnly(s: State, run: seq<Event>, j: nat, k: nat, q: Id)
    requires Fresh(s) && j <= k <= |run| && q in At(s, run, j).requests
    ensures q in At(s, run, k).requests
    ensures Rank(At(s, run, k).requests[q]) <= Rank(At(s, run, j).requests[q])
    ensures At(s, run, j).requests[q].status.Completed? ==> At(s, run, k).requests[q].status.Completed?
    ensures Terminal(At(s, run, j).requests[q].status) ==> Terminal(At(s, run, k).requests[q].status)
  {
    if j < k {
      ProgressOnly(s, run, j, k - 1, q);
      AtNext(s, run, k - 1);
      ReachableWf(s, run[..k - 1]);
      StepOfRequest(At(s, run, k - 1), run[k - 1], q);
    }
  }

  // ---- Decisions happen at most once per request.

  datatype Decision = Escalation | Assignment | Closing

  predicate Decides(e: Event, d: Decision, q: Id) {
    e.op.It? &&
    match d
    case Escalation => e.op.it.Escalate? && e.op.it.rid == q
    case Assignment => e.op.it.Assign? && e.op.it.rid == q
    case Closing => (e.op.it.Reject? || e.op.it.Cancel?) && e.op.it.rid == q
  }

  /** The rank a request must still have for the decision, and no longer has after it. */
  function Needs(d: Decision): nat {
    match d
    case Escalation => 4
    case Assignment => 2
    case Closing => 1
  }

  lemma DecisionFalls(s: State, e: Event, d: Decision, q: Id)
    requires Decides(e, d, q) && Succeeds(s, e)
    ensures q in s.requests && q in Apply(s, e).requests
    ensures Rank(Apply(s, e).requests[q]) < Needs(d) <= Rank(s.requests[q])
  {
  }

  /** Escalate and assign each succeed at most once per request; reject and cancel at most once together. */
  lemma DecidedAtMostOnce(s: State, run: seq<Event>, d: Decision, q: Id, j: nat, k: nat)
    requires Fresh(s) && j < k < |run|
    requires Decides(run[j], d, q) && Succeeds(At(s, run, j), run[j]) && Decides(run[k], d, q)
    ensures !Succeeds(At(s, run, k), run[k])
  {
    DecisionFalls(At(s, run, j), run[j], d, q);
    AtNext(s, run, j);
    ProgressOnly(s, run, j + 1, k, q);
    if Succeeds(At(s, run, k), run[k]) { DecisionFalls(At(s, run, k), run[k], d, q); }
  }

  // ---- The outbound queue.

  /** The change gives the request its device: it was not assigned and now is. */
  predicate BecomesAssigned(s: State, c: Change, q: Id) {
    q in c.requests && c.requests[q].status.Assigned? && (q in s.requests ==> !s.requests[q].status.Assigned?)
  }

  lemma MovesRarelyAssign(s: State, op: ItOp, actor: Id, now: Time, c: Change, q: Id)
    requires MovesDevices(op) && !op.Assign? && !op.DirectAssign? && !op.Resolve?
    requires PlanIt(s, op, actor, now) == Success(c)
    ensures !BecomesAssigned(s, c, q)
  {
  }

  lemma ResolveNeverAssigns(s: State, tid: Id, action: Action, actor: Id, now: Time, c: Change, q: Id)
    requires PlanResolve(s, tid, action, actor, now) == Success(c)
    ensures !BecomesAssigned(s, c, q)
  {
  }

  lemma DeskNeverAssigns(s: State, op: ItOp, actor: Id, now: Time, c: Change, q: Id)
    requires !MovesDevices(op) && PlanIt(s, op, actor, now) == Success(c)
    ensures !BecomesAssigned(s, c, q)
  {
  }

  lemma EnvNeverAssigns(s: State, op: EnvOp, now: Time, c: Change, q: Id)
    requires PlanEnv(s, op, now) == Success(c)
    ensures !BecomesAssigned(s, c, q)
  {
  }

  lemma AssignmentsAssign(s: State, op: ItOp, actor: Id, now: Time, c: Change, q: Id)
    requires (op.Assign? || op.DirectAssign?) && PlanIt(s, op, actor, now) == Success(c) && q in c.requests
    ensures op.rid == q && (c.requests[q].isWfh <==> op.Assign? && op.isWfh)
  {
  }

  /** Only `assign` and `direct_assign` make a request assigned; only `assign` can make it WFH. */
  lemma OnlyAssignmentsAssign(s: State, e: Event, c: Change, q: Id)
    requires Plan(s, e) == Success(c) && BecomesAssigned(s, c, q)
    ensures e.op.It? && (e.op.it.Assign? || e.op.it.DirectAssign?) && e.op.it.rid == q
    ensures c.requests[q].isWfh <==> e.op.it.Assign? && e.op.it.isWfh
  {
    match e.op
    case Env(op) => EnvNeverAssigns(s, op, e.now, c, q);
    case It(op, actor) =>
      if op.Assign? || op.DirectAssign? { AssignmentsAssign(s, op, actor, e.now, c, q); }
      else if op.Resolve? { ResolveNeverAssigns(s, op.tid, op.action, actor, e.now, c, q); }
      else if MovesDevices(op) { MovesRarelyAssign(s, op, actor, e.now, c, q); }
      else { DeskNeverAssigns(s, op, actor, e.now, c, q); }
  }

  /** A request enters the WFH outbound queue only through a successful `assign` with `is_wfh`. */
  lemma QueueEntry(s: State, e: Event, q: Id)
    requires Wf(s) && !InOutboundQueue(s, q) && InOutboundQueue(Apply(s, e), q)
    ensures e.op.It? && e.op.it.Assign? && e.op.it.rid == q && e.op.it.isWfh && Succeeds(s, e)
  {
    var c := Plan(s, e).value;
    EveryChangeIsLawful(s, e, c);
    if q in c.requests { assert RequestStep(s, Apply(s, e), q); }
    OnlyAssignmentsAssign(s, e, c, q);
  }

  /** The request can no longer enter the queue. */
  predicate PastQueue(s: State, q: Id) {
    && q in s.requests
    && var r := s.requests[q];
    && !InOutboundQueue(s, q) && (r.status.Assigned? || Terminal(r.status))
  }

  lemma PastQueueStays(s: State, e: Event, post: State, q: Id)
    requires Wf(s) && PastQueue(s, q) && post == Apply(s, e)
    ensures PastQueue(post, q)
  {
    StepOfRequest(s, e, q);
    if InOutboundQueue(post, q) { QueueEntry(s, e, q); }
  }

  lemma {:induction false} PastQueueForever(s: State, run: seq<Event>, j: nat, k: nat, q: Id)
    requires Fresh(s) && j <= k <= |run| && PastQueue(At(s, run, j), q)
    ensures PastQueue(At(s, run, k), q)
  {
    if j < k {
      PastQueueForever(s, run, j, k - 1, q);
      AtNext(s, run, k - 1);
      ReachableWf(s, run[..k - 1]);
      PastQueueStays(At(s, run, k - 1), run[k - 1], At(s, run, k), q);
    }
  }

  /** Once a request has left the outbound queue it never re-enters it. */
  lemma QueueIsOneWay(s: State, run: seq<Event>, j: nat, k: nat, q: Id)
    requires Fresh(s) && j < k <= |run|
    requires InOutboundQueue(At(s, run, j), q) && !InOutboundQueue(At(s, run, j + 1), q)
    ensures !InOutboundQueue(At(s, run, k), q)
  {
    AtNext(s, run, j);
    ReachableWf(s, run[..j]);
    StepOfRequest(At(s, run, j), run[j], q);
    PastQueueForever(s, run, j + 1, k, q);
  }

  // ---- Tickets and extensions close once.

  lemma ResolvedStays(s: State, e: Event, post: State, t: Id)
    requires Wf(s) && post == Apply(s, e) && t in s.tickets && s.tickets[t].status.Resolved?
    ensures t in post.tickets && post.tickets[t] == s.tickets[t]
  {
    if Plan(s, e).Success? {
      var c := Plan(s, e).value;
      EveryChangeIsLawful(s, e, c);
      if t in c.tickets { assert TicketStep(s, post, t); }
    }
  }

  /** RESOLVED is permanent: the row never changes again. */
  lemma {:induction false} ResolvedForever(s: State, run: seq<Event>, j: nat, k: nat, t: Id)
    requires Fresh(s) && j <= k <= |run| && t in At(s, run, j).tickets && At(s, run, j).tickets[t].status.Resolved?
    ensures t in At(s, run, k).tickets && At(s, run, k).tickets[t] == At(s, run, j).tickets[t]
  {
    if j < k {
      ResolvedForever(s, run, j, k - 1, t);
      AtNext(s, run, k - 1);
      ReachableWf(s, run[..k - 1]);
      ResolvedStays(At(s, run, k - 1), run[k - 1], At(s, run, k), t);
    }
  }

  /** A resolved ticket has exactly one closing entry, an unresolved one none; it was closed by the
      cascade exactly when it names no resolution and no resolver. */
  lemma TicketsCloseOnce(s: State, run: seq<Event>, t: Id)
    requires Fresh(s) && t in Run(s, run).tickets
    ensures var r := Run(s, run);
      FactCount(r.log, ClosingOf(t)) == if r.tickets[t].status.Resolved? then 1 else 0
    ensures var ticket := Run(s, run).tickets[t];
      ticket.status.Resolved? ==>
        (ticket.autoClosed <==> ticket.resolution.None?) && (ticket.autoClosed <==> ticket.resolvedBy.None?)
  {
    ReachableTold(s, run);
    ReachableWf(s, run);
    assert FactTold(Run(s, run), ClosingOf(t));
    assert TicketWf(Run(s, run), Run(s, run).tickets[t]);
  }

  /** An extension has one decision entry exactly when it is decided. */
  lemma ExtensionsDecidedOnce(s: State, run: seq<Event>, x: Id)
    requires Fresh(s) && x in Run(s, run).extensions
    ensures var r := Run(s, run);
      FactCount(r.log, DecisionOf(x)) == if r.extensions[x].status.Pending? then 0 else 1
  {
    ReachableTold(s, run);
    assert FactTold(Run(s, run), DecisionOf(x));
  }

  // ---- The end of a booking.

  /** The operation is asked to move the end of the booking. */
  predicate MovesEnd(s: State, op: ItOp, q: Id) {
    match op
    case UpdateBookingRange(rid, _, _) => rid == q
    case ExtensionApprove(xid) => xid in s.extensions && s.extensions[xid].requestId == q
    case _ => false
  }

  predicate KeepsEnd(s: State, c: Change, q: Id) {
    q in c.requests && q in s.requests && s.requests[q].status.Assigned? ==>
      c.requests[q].assignedTo == s.requests[q].assignedTo
  }

  lemma MovesKeepEnd(s: State, op: ItOp, actor: Id, now: Time, c: Change, q: Id)
    requires MovesDevices(op) && !op.Resolve? && PlanIt(s, op, actor, now) == Success(c)
    ensures KeepsEnd(s, c, q)
  {
  }

  lemma ResolveKeepsEnd(s: State, tid: Id, action: Action, actor: Id, now: Time, c: Change, q: Id)
    requires PlanResolve(s, tid, action, actor, now) == Success(c)
    ensures KeepsEnd(s, c, q)
  {
  }

  lemma DeskKeepsEnd(s: State, op: ItOp, actor: Id, now: Time, c: Change, q: Id)
    requires !MovesDevices(op) && PlanIt(s, op, actor, now) == Success(c) && !MovesEnd(s, op, q)
    ensures KeepsEnd(s, c, q)
  {
  }

  lemma EnvKeepsEnd(s: State, op: EnvOp, now: Time, c: Change, q: Id)
    requires PlanEnv(s, op, now) == Success(c)
    ensures KeepsEnd(s, c, q)
  {
  }

  /** The end of an assigned booking moves only by `update_booking_range` on it or by approving one of its
      extensions, and then to that extension's date; rejecting an extension leaves it alone. */
  lemma EndMovesOnlyOnRequest(s: State, e: Event, q: Id)
    requires q in s.requests && s.requests[q].status.Assigned?
    ensures q in Apply(s, e).requests
    ensures var end := Apply(s, e).requests[q].assignedTo;
      end != s.requests[q].assignedTo ==>
        && e.op.It? && MovesEnd(s, e.op.it, q)
        && (e.op.it.ExtensionApprove? ==> end == Some(s.extensions[e.op.it.xid].extendedTo))
        && (e.op.it.UpdateBookingRange? ==> end == Some(e.op.it.to))
  {
    if Plan(s, e).Success? {
      var c := Plan(s, e).value;
      match e.op
      case Env(op) => EnvKeepsEnd(s, op, e.now, c, q);
      case It(op, actor) =>
        if op.Resolve? { ResolveKeepsEnd(s, op.tid, op.action, actor, e.now, c, q); }
        else if MovesDevices(op) { MovesKeepEnd(s, op, actor, e.now, c, q); }
        else if !MovesEnd(s, op, q) { DeskKeepsEnd(s, op, actor, e.now, c, q); }
    }
  }

  // ---- Guards and assertions that cannot fail.

  /** On an assigned request the overlap check of `update_booking_range` always passes: the unique index
      leaves no other booking of the device to overlap with. */
  lemma OverlapGuardIsRedundant(s: State, run: seq<Event>, rid: Id, from: Time, to: Time)
    requires Fresh(s)
    ensures var r := Run(s, run);
      PlanUpdateBookingRange(r, rid, from, to).Success? <==> rid in r.requests && r.requests[rid].status.Assigned?
  {
    ReachableWf(s, run);
    var r := Run(s, run);
    if rid in r.requests && r.requests[rid].status.Assigned? {
      assert RequestWf(r, r.requests[rid]);
      forall q | q in r.requests && q != rid ensures !BooksOver(r.requests[q], r.requests[rid].item.value, from, to) {}
    }
  }

  lemma MovesAssertNothing(s: State, op: ItOp, actor: Id, now: Time)
    requires MovesDevices(op)
    ensures PlanIt(s, op, actor, now) != Failure(AssertionCrash)
  {
  }

  lemma DeskAssertionsHold(s: State, op: ItOp, actor: Id, now: Time)
    requires Wf(s) && !MovesDevices(op)
    ensures PlanIt(s, op, actor, now) != Failure(AssertionCrash)
  {
    match op
    case UpdateBookingRange(rid, _, _) => assert rid in s.requests ==> RequestWf(s, s.requests[rid]);
    case ExtensionApprove(xid) => ParentHasDevice(s, xid);
    case ExtensionReject(xid) => ParentHasDevice(s, xid);
    case _ =>
  }

  lemma EnvAssertsNothing(s: State, op: EnvOp, now: Time)
    ensures PlanEnv(s, op, now) != Failure(AssertionCrash)
  {
  }

  /** No `assert request.assigned_item_id is not None` ever fails. */
  lemma AssertionsHold(s: State, run: seq<Event>, e: Event)
    requires Fresh(s)
    ensures Plan(Run(s, run), e) != Failure(AssertionCrash)
  {
    ReachableWf(s, run);
    var r := Run(s, run);
    match e.op
    case Env(op) => EnvAssertsNothing(r, op, e.now);
    case It(op, actor) =>
      if MovesDevices(op) { MovesAssertNothing(r, op, actor, e.now); } else { DeskAssertionsHold(r, op, actor, e.now); }
  }

  lemma ParentHasDevice(s: State, xid: Id)
    requires Wf(s)
    ensures xid in s.extensions ==>
      s.extensions[xid].requestId in s.requests && s.requests[s.extensions[xid].requestId].item.Some?
  {
    if xid in s.extensions {
      assert ExtensionWf(s, s.extensions[xid]);
      assert RequestWf(s, s.requests[s.extensions[xid].requestId]);
    }
  }
}
