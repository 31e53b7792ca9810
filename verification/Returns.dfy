/** The return cascade, and who writes the log. */
module Returns {
  import opened Wrappers
  import opened Models
  import opened DeviceLog
  import opened Queries
  import opened Operations
  import opened Laws
  import opened OperationLaws
  import opened Invariants
  import opened Lifecycle

  /** After a successful `complete_return` no ticket of the device is unresolved; tickets of other devices
      and tickets already resolved are untouched; the device is free and the request completed. */
  lemma ReturnCascade(s: State, rid: Id, next: DeviceStatus, actor: Id, now: Time, c: Change)
    requires PlanCompleteReturn(s, rid, next, actor, now) == Success(c)
    ensures var iid, post := s.requests[rid].item.value, Commit(s, c);
      && post.tickets.Keys == s.tickets.Keys
      && (forall t :: t in post.tickets && post.tickets[t].itemId == iid ==> post.tickets[t].status.Resolved?)
      && (forall t :: t in s.tickets && (s.tickets[t].itemId != iid || s.tickets[t].status.Resolved?) ==>
            post.tickets[t] == s.tickets[t])
      && (forall t :: t in s.tickets && s.tickets[t].itemId == iid && Unresolved(s.tickets[t]) ==>
            post.tickets[t].autoClosed && post.tickets[t].resolution == s.tickets[t].resolution)
      && iid in post.items && post.items[iid].owner == None && post.items[iid].status == next
      && post.requests[rid].status.Completed? && post.requests[rid].item == Some(iid)
  {
    ReturnChangeHolds(s, rid, next, actor, now, c);
  }

  /** The log grows by RETURN_RECEIVED, ASSIGNMENT_COMPLETED and one SUPPORT_AUTO_CLOSED per formerly open
      ticket of the device. */
  lemma ReturnLog(s: State, rid: Id, next: DeviceStatus, actor: Id, now: Time, c: Change)
    requires PlanCompleteReturn(s, rid, next, actor, now) == Success(c)
    ensures var open := OpenTickets(s.tickets, s.requests[rid].item.value);
      && Commit(s, c).log == s.log + c.entries && |c.entries| == 2 + |open|
      && c.entries[0].event.ReturnReceived? && c.entries[1].event.AssignmentCompleted?
      && forall k :: 2 <= k < |c.entries| ==>
           && c.entries[k].event.SupportAutoClosed? && c.entries[k].ticketId == Some(open[k - 2])
           && c.entries[k].actorRole.System? && c.entries[k].actorId == None
  {
    ReturnChangeHolds(s, rid, next, actor, now, c);
  }

  /** The closings name each formerly open ticket of the device once, in the order the tickets were filed. */
  lemma ReturnLogOrder(s: State, rid: Id, next: DeviceStatus, actor: Id, now: Time, c: Change)
    requires PlanCompleteReturn(s, rid, next, actor, now) == Success(c)
    ensures forall t :: t in s.tickets && s.tickets[t].itemId == s.requests[rid].item.value && Unresolved(s.tickets[t]) ==>
              exists k :: 2 <= k < |c.entries| && c.entries[k].ticketId == Some(t)
    ensures forall j, k :: 2 <= j < k < |c.entries| ==>
              var a, b := c.entries[j].ticketId, c.entries[k].ticketId;
              && a.Some? && b.Some? && a != b && a.value in s.tickets && b.value in s.tickets
              && s.tickets[a.value].filedAt <= s.tickets[b.value].filedAt
  {
    var open := OpenTickets(s.tickets, s.requests[rid].item.value);
    ReturnLog(s, rid, next, actor, now, c);
    OpenTicketsAsFiled(s.tickets, s.requests[rid].item.value);
    forall t | t in open ensures exists k :: 2 <= k < |c.entries| && c.entries[k].ticketId == Some(t) {
      var k :| 0 <= k < |open| && open[k] == t;
      assert c.entries[k + 2].ticketId == Some(t);
    }
  }

  /** Marking a device lost completes its request too, but closes no ticket except the one being resolved:
      the device is left without an open ticket exactly if it had no other. */
  lemma LossClosesOneTicket(s: State, tid: Id, actor: Id, now: Time, c: Change)
    requires PlanResolve(s, tid, DoLost, actor, now) == Success(c)
    ensures var post, iid, rid := Commit(s, c), s.tickets[tid].itemId, s.tickets[tid].requestId.value;
      && rid in post.requests && post.requests[rid].status.Completed?
      && ((forall t :: t in post.tickets && post.tickets[t].itemId == iid ==> !Unresolved(post.tickets[t]))
          <==> (forall t :: t in s.tickets && t != tid && s.tickets[t].itemId == iid ==> !Unresolved(s.tickets[t])))
  {
    var post, iid := Commit(s, c), s.tickets[tid].itemId;
    forall t | t in s.tickets && t != tid ensures t in post.tickets && post.tickets[t] == s.tickets[t] {}
    forall t | t in post.tickets ensures t in s.tickets {}
    assert !Unresolved(post.tickets[tid]);
  }

  /** Completing a return decides no extension of the request: a pending one can still be approved, and
      then moves the end of the completed booking. */
  lemma ExtensionOutlivesReturn(s: State, rid: Id, next: DeviceStatus, actor: Id, now: Time, c: Change, xid: Id, later: Time)
    requires Wf(s) && PlanCompleteReturn(s, rid, next, actor, now) == Success(c)
    requires xid in s.extensions && s.extensions[xid].requestId == rid
    ensures var post := Commit(s, c);
      && post.requests[rid].status.Completed? && post.extensions == s.extensions
      && (PlanExtensionApprove(post, xid, actor, later).Success? <==> PlanExtensionApprove(s, xid, actor, later).Success?)
  {
    assert s.extensions + map[] == s.extensions;
    assert ExtensionWf(s, s.extensions[xid]) && RequestWf(s, s.requests[rid]);
  }

  /** Nor does marking its device lost. */
  lemma ExtensionOutlivesLoss(s: State, tid: Id, actor: Id, now: Time, c: Change, xid: Id, later: Time)
    requires Wf(s) && PlanResolve(s, tid, DoLost, actor, now) == Success(c)
    requires xid in s.extensions && Some(s.extensions[xid].requestId) == s.tickets[tid].requestId
    ensures var post, rid := Commit(s, c), s.extensions[xid].requestId;
      && rid in post.requests && post.requests[rid].status.Completed? && post.extensions == s.extensions
      && (PlanExtensionApprove(post, xid, actor, later).Success? <==> PlanExtensionApprove(s, xid, actor, later).Success?)
  {
    assert s.extensions + map[] == s.extensions;
    assert ExtensionWf(s, s.extensions[xid]) && RequestWf(s, s.requests[s.extensions[xid].requestId]);
  }

  /** Across all runs the system actor, and only it, has no id, and it writes exactly the automatic closings. */
  lemma SystemWritesClosingsOnly(s: State, run: seq<Event>, k: nat)
    requires Fresh(s) && k < |Run(s, run).log|
    ensures var e := Run(s, run).log[k];
      (e.actorRole.System? <==> e.event.SupportAutoClosed?) && (e.actorId.None? <==> e.event.SupportAutoClosed?)
  {
    ReachableWf(s, run);
    assert EntryWf(Run(s, run), Run(s, run).log[k]);
  }
}
