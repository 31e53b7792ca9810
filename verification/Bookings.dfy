/** What a booking covers, as the overlap query sees it afterwards. */
module Bookings {
  import opened Wrappers
  import opened Models
  import opened Queries
  import opened Operations
  import opened Laws
  import opened Invariants

  /** The device is booked over [from, to) and not otherwise: the query finds an overlap with exactly the
      ranges that meet it. */
  ghost predicate BookedExactly(s: State, i: Id, from: Time, to: Time) {
    forall f, t :: HasOverlap(s.requests, i, f, t, None) <==> from < t && f < to
  }

  /** One assigned request on the device, with both dates: the query sees its range alone. */
  lemma SoleBooking(s: State, q: Id, i: Id, from: Time, to: Time)
    requires q in s.requests && s.requests[q].status.Assigned? && s.requests[q].item == Some(i)
    requires s.requests[q].assignedFrom == Some(from) && s.requests[q].assignedTo == Some(to)
    requires forall p :: p in s.requests && p != q && s.requests[p].item == Some(i) ==> !s.requests[p].status.Assigned?
    ensures BookedExactly(s, i, from, to)
  {
    forall f, t ensures HasOverlap(s.requests, i, f, t, None) <==> from < t && f < to {
      assert BooksOver(s.requests[q], i, f, t) <==> from < t && f < to;
    }
  }

  /** A request that passed the index is alone on its device. */
  lemma AloneAfterFlush(s: State, c: Change, q: Id, i: Id)
    requires c.requests.Keys == {q} && c.requests[q].status.Assigned? && c.requests[q].item == Some(i)
    requires !Collides(s.requests, q, c.requests[q])
    ensures forall p :: p in Commit(s, c).requests && p != q && Commit(s, c).requests[p].item == Some(i) ==>
      !Commit(s, c).requests[p].status.Assigned?
  {
    forall p | p in s.requests && p != q && s.requests[p].item == Some(i) ensures !s.requests[p].status.Assigned? {
      if s.requests[p].status.Assigned? { assert Indexed(s.requests[p]); }
    }
  }

  lemma AssignBooks(s: State, rid: Id, iid: Id, from: Time, to: Time, isWfh: bool, actor: Id, now: Time, c: Change)
    requires PlanAssign(s, rid, iid, from, to, isWfh, actor, now) == Success(c)
    ensures BookedExactly(Commit(s, c), iid, from, to)
  {
    AloneAfterFlush(s, c, rid, iid);
    SoleBooking(Commit(s, c), rid, iid, from, to);
  }

  lemma DirectAssignBooks(s: State, rid: Id, iid: Id, emp: Id, from: Time, to: Time, actor: Id, now: Time, c: Change)
    requires PlanDirectAssign(s, rid, iid, emp, from, to, actor, now) == Success(c)
    ensures BookedExactly(Commit(s, c), iid, from, to)
    ensures var r := Commit(s, c).requests[rid];
      && r.requester == emp && r.requestedFrom == from && r.requestedTo == to && r.categoryId == s.items[iid].categoryId
      && r.createdAt == now
  {
    AloneAfterFlush(s, c, rid, iid);
    SoleBooking(Commit(s, c), rid, iid, from, to);
  }

  /** The index leaves an assigned request alone on its device. */
  lemma AloneByIndex(s: State, q: Id, i: Id)
    requires IndexOk(s.requests) && q in s.requests && s.requests[q].status.Assigned? && s.requests[q].item == Some(i)
    ensures forall p :: p in s.requests && p != q && s.requests[p].item == Some(i) ==> !s.requests[p].status.Assigned?
  {
  }

  lemma UpdateBooks(s: State, rid: Id, from: Time, to: Time, c: Change)
    requires IndexOk(s.requests) && PlanUpdateBookingRange(s, rid, from, to) == Success(c)
    ensures BookedExactly(Commit(s, c), s.requests[rid].item.value, from, to)
  {
    var i := s.requests[rid].item.value;
    AloneByIndex(s, rid, i);
    SoleBooking(Commit(s, c), rid, i, from, to);
  }

  /** Approving an extension of an assigned request books its device up to the date asked for. */
  lemma ExtensionBooks(s: State, xid: Id, actor: Id, now: Time, c: Change)
    requires Wf(s) && PlanExtensionApprove(s, xid, actor, now) == Success(c)
    requires s.requests[s.extensions[xid].requestId].status.Assigned?
    ensures var r := s.requests[s.extensions[xid].requestId];
      r.assignedFrom.Some? && BookedExactly(Commit(s, c), r.item.value, r.assignedFrom.value, s.extensions[xid].extendedTo)
  {
    var q := s.extensions[xid].requestId;
    var r := s.requests[q];
    assert RequestWf(s, r);
    AloneByIndex(s, q, r.item.value);
    SoleBooking(Commit(s, c), q, r.item.value, r.assignedFrom.value, s.extensions[xid].extendedTo);
  }

  /** In every reachable state, whatever books a device over [from, to) leaves it booked over exactly that
      range. */
  lemma BookedAsAsked(s: State, run: seq<Event>, op: ItOp, actor: Id, now: Time)
    requires Fresh(s) && PlanIt(Run(s, run), op, actor, now).Success?
    ensures var r := Run(s, run);
      var post := Apply(r, Event(It(op, actor), now));
      match op
      case Assign(_, iid, from, to, _) => BookedExactly(post, iid, from, to)
      case DirectAssign(_, iid, _, from, to) => BookedExactly(post, iid, from, to)
      case UpdateBookingRange(rid, from, to) => BookedExactly(post, r.requests[rid].item.value, from, to)
      case _ => true
  {
    ReachableWf(s, run);
    var r := Run(s, run);
    var c := PlanIt(r, op, actor, now).value;
    match op
    case Assign(rid, iid, from, to, isWfh) => AssignBooks(r, rid, iid, from, to, isWfh, actor, now, c);
    case DirectAssign(rid, iid, emp, from, to) => DirectAssignBooks(r, rid, iid, emp, from, to, actor, now, c);
    case UpdateBookingRange(rid, from, to) => UpdateBooks(r, rid, from, to, c);
    case _ =>
  }
}
