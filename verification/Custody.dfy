/** Who holds what: on orderly runs, assigned requests and devices in custody match one to one. */
module Custody {
  import opened Wrappers
  import opened Models
  import opened DeviceLog
  import opened Queries
  import opened Operations
  import opened Laws
  import opened Invariants
  import opened Lifecycle

  predicate HeldBy(s: State, q: Id, i: Id) {
    q in s.requests && s.requests[q].status.Assigned? && s.requests[q].item == Some(i)
  }

  /** An assigned request points at a device its requester owns and that is in use, in transit or under
      repair; a request that is not yet assigned points nowhere. */
  predicate HolderOk(s: State, q: Id)
    requires q in s.requests
  {
    var r := s.requests[q];
    && (r.status.Assigned? ==>
          && r.item.Some? && r.item.value in s.items
          && s.items[r.item.value].owner == Some(r.requester)
          && (InCustody(s.items[r.item.value].status) || s.items[r.item.value].status.UnderRepair?))
    && (!r.status.Assigned? && !Terminal(r.status) ==> r.item.None?)
  }

  /** A device in custody is held by some assigned request. */
  ghost predicate ItemOk(s: State, i: Id)
    requires i in s.items
  {
    InCustody(s.items[i].status) ==> exists q :: HeldBy(s, q, i)
  }

  ghost predicate Matched(s: State) {
    && (forall q :: q in s.requests ==> HolderOk(s, q))
    && (forall i :: i in s.items ==> ItemOk(s, i))
  }

  ghost predicate Held(s: State, i: Id) {
    exists q :: HeldBy(s, q, i)
  }

  ghost predicate HeldByOther(s: State, rid: Id, i: Id) {
    exists q :: q != rid && HeldBy(s, q, i)
  }

  /** Taking request `rid` off its device strands no device but `i`. */
  predicate StrandsNothingBut(s: State, rid: Id, i: Id)
    requires rid in s.requests
  {
    var r := s.requests[rid];
    r.status.Assigned? && r.item.Some? && r.item.value in s.items && r.item != Some(i) ==>
      !InCustody(s.items[r.item.value].status)
  }

  ghost predicate OrderlySwap(s: State, t: Ticket, oldNext: DeviceStatus) {
    t.requestId.Some? && t.requestId.value in s.requests ==>
      var rid := t.requestId.value;
      && s.requests[rid].status.Assigned?
      && !InCustody(oldNext)
      && !HeldByOther(s, rid, t.itemId)
      && StrandsNothingBut(s, rid, t.itemId)
  }

  ghost predicate OrderlyLoss(s: State, t: Ticket) {
    t.requestId.Some? && t.requestId.value in s.requests ==>
      !HeldByOther(s, t.requestId.value, t.itemId) && StrandsNothingBut(s, t.requestId.value, t.itemId)
  }

  /** What the services leave unchecked and the work flow takes for granted. It can be checked before the
      call, and it is exactly what keeps the match (`MatchKeptIff`). */
  ghost predicate Orderly(s: State, e: Event) {
    e.op.It? ==>
      match e.op.it
      case CompleteReturn(rid, next) => rid in s.requests ==> s.requests[rid].status.Assigned? && !InCustody(next)
      case Resolve(tid, action) =>
        tid in s.tickets ==>
          var t := s.tickets[tid];
          (match action
           case DoRemote => true
           case DoRepair => Held(s, t.itemId)
           case DoSwap(_, oldNext) => OrderlySwap(s, t, oldNext)
           case DoLost => OrderlyLoss(s, t))
      case Cancel(rid) => rid in s.requests ==> StrandsNothing(s, rid)
      case ChangeStatus(iid, status) => if Held(s, iid) then InCustody(status) || status.UnderRepair? else !InCustody(status)
      case _ => true
  }

  /** The request is not assigned, or its device is not in custody. */
  predicate StrandsNothing(s: State, rid: Id)
    requires rid in s.requests
  {
    var r := s.requests[rid];
    r.status.Assigned? && r.item.Some? && r.item.value in s.items ==> !InCustody(s.items[r.item.value].status)
  }

  // ---- A change is judged by the requests and devices it touches.

  predicate SameHolding(s: State, post: State, i: Id) {
    i in s.items && i in post.items && post.items[i].owner == s.items[i].owner && post.items[i].status == s.items[i].status
  }

  /** Outside `rs` and `is_` nothing that matters for custody differs. */
  ghost predicate Untouched(s: State, post: State, rs: set<Id>, is_: set<Id>) {
    && (forall q :: q in post.requests && q !in rs ==> q in s.requests && post.requests[q] == s.requests[q])
    && (forall q :: q in s.requests ==> q in post.requests)
    && (forall i :: i in post.items && i !in is_ ==> SameHolding(s, post, i))
    && (forall i :: i in s.items ==> i in post.items)
  }

  /** Whoever else holds the device still does. */
  ghost predicate KeepsHolders(s: State, post: State, rs: set<Id>, i: Id)
    requires i in post.items
  {
    forall q :: q !in rs && HeldBy(s, q, i) ==>
      && i in s.items && post.items[i].owner == s.items[i].owner
      && (InCustody(post.items[i].status) || post.items[i].status.UnderRepair?)
  }

  lemma MatchedLocally(s: State, post: State, rs: set<Id>, is_: set<Id>)
    requires Matched(s) && Untouched(s, post, rs, is_)
    requires forall q :: q in rs && q in post.requests ==> HolderOk(post, q)
    requires forall i :: i in is_ && i in post.items ==> ItemOk(post, i) && KeepsHolders(s, post, rs, i)
    requires forall q, i :: q in rs && HeldBy(s, q, i) && !HeldBy(post, q, i) ==> i in is_
    ensures Matched(post)
  {
    forall q | q in post.requests ensures HolderOk(post, q) {
      if q !in rs { assert HolderOk(s, q); }
    }
    forall i | i in post.items ensures ItemOk(post, i) {
      if i !in is_ && InCustody(post.items[i].status) {
        assert ItemOk(s, i);
        var q :| HeldBy(s, q, i);
        assert HeldBy(post, q, i);
      }
    }
  }

  /** In a matched state nobody holds an available device. */
  lemma AvailableIsFree(s: State, i: Id)
    requires Matched(s) && i in s.items && s.items[i].status.Available?
    ensures forall q :: !HeldBy(s, q, i)
  {
    forall q ensures !HeldBy(s, q, i) { if q in s.requests { assert HolderOk(s, q); } }
  }

  /** Nobody but `q` holds the device. */
  ghost predicate SoleHolder(s: State, q: Id, i: Id) {
    forall p :: HeldBy(s, p, i) ==> p == q
  }

  /** The unique index: a device has one holder. */
  lemma IndexGivesSoleHolders(s: State)
    requires IndexOk(s.requests)
    ensures forall q, i :: HeldBy(s, q, i) ==> SoleHolder(s, q, i)
  {
  }

  /** What breaks the match: a device in custody that nobody holds... */
  lemma Stranded(s: State, post: State, rs: set<Id>, is_: set<Id>, i: Id)
    requires Untouched(s, post, rs, is_) && i in post.items && InCustody(post.items[i].status)
    requires forall q :: HeldBy(s, q, i) ==> q in rs
    requires forall q :: q in rs ==> !HeldBy(post, q, i)
    ensures !Matched(post)
  {
    forall q ensures !HeldBy(post, q, i) {
      if q !in rs && q in post.requests { assert HeldBy(s, q, i) <==> HeldBy(post, q, i); }
    }
    assert !ItemOk(post, i);
  }

  /** ... or a holder who does not own the device, or whose device is in no status for it. */
  lemma Usurped(post: State, q: Id, i: Id)
    requires HeldBy(post, q, i) && i in post.items
    requires post.items[i].owner == Some(post.requests[q].requester) ==>
               !InCustody(post.items[i].status) && !post.items[i].status.UnderRepair?
    ensures !Matched(post)
  {
    assert !HolderOk(post, q);
  }

  /** A change of no device and one request: the request keeps what it held, or held nothing. */
  lemma RequestMatch(s: State, c: Change, rid: Id)
    requires Matched(s) && c.items == map[] && c.requests.Keys <= {rid}
    requires rid in c.requests ==> HolderOk(Commit(s, c), rid)
    requires forall i :: HeldBy(s, rid, i) ==> HeldBy(Commit(s, c), rid, i)
    ensures Matched(Commit(s, c))
  {
    MatchedLocally(s, Commit(s, c), if rid in c.requests then {rid} else {}, {});
  }

  /** A change of no request that leaves owners and statuses alone. */
  lemma QuietMatch(s: State, c: Change)
    requires Matched(s) && c.requests == map[]
    requires forall i :: i in c.items ==> SameHolding(s, Commit(s, c), i)
    ensures Matched(Commit(s, c))
  {
    MatchedLocally(s, Commit(s, c), {}, {});
  }

  // ---- Operation by operation.

  lemma AssignMatch(s: State, rid: Id, iid: Id, from: Time, to: Time, isWfh: bool, actor: Id, now: Time, c: Change)
    requires Matched(s) && PlanAssign(s, rid, iid, from, to, isWfh, actor, now) == Success(c)
    ensures Matched(Commit(s, c))
  {
    AvailableIsFree(s, iid);
    assert HeldBy(Commit(s, c), rid, iid);
    MatchedLocally(s, Commit(s, c), {rid}, {iid});
  }

  lemma DirectAssignMatch(s: State, rid: Id, iid: Id, emp: Id, from: Time, to: Time, actor: Id, now: Time, c: Change)
    requires Matched(s) && PlanDirectAssign(s, rid, iid, emp, from, to, actor, now) == Success(c)
    ensures Matched(Commit(s, c))
  {
    AvailableIsFree(s, iid);
    assert HeldBy(Commit(s, c), rid, iid);
    MatchedLocally(s, Commit(s, c), {rid}, {iid});
  }

  /** A device in custody that moves within custody keeps its holder; so does one sent to repair. */
  lemma TransitMatch(s: State, post: State, rid: Id, iid: Id)
    requires Matched(s) && Untouched(s, post, {rid}, {iid})
    requires rid in s.requests && iid in s.items && iid in post.items && InCustody(s.items[iid].status)
    requires var r := post.requests[rid]; var o := s.requests[rid];
      r.status == o.status && r.item == o.item && r.requester == o.requester
    requires post.items[iid].owner == s.items[iid].owner
    requires InCustody(post.items[iid].status) || post.items[iid].status.UnderRepair?
    ensures Matched(post)
  {
    assert HolderOk(s, rid) && ItemOk(s, iid);
    var q :| HeldBy(s, q, iid);
    assert HeldBy(post, q, iid);
    MatchedLocally(s, post, {rid}, {iid});
  }

  lemma ShipMatch(s: State, rid: Id, actor: Id, now: Time, c: Change)
    requires Matched(s) && PlanShip(s, rid, actor, now) == Success(c)
    ensures Matched(Commit(s, c))
  {
    TransitMatch(s, Commit(s, c), rid, s.requests[rid].item.value);
  }

  lemma ConfirmDeliveryMatch(s: State, rid: Id, actor: Id, now: Time, c: Change)
    requires Matched(s) && PlanConfirmDelivery(s, rid, actor, now) == Success(c)
    ensures Matched(Commit(s, c))
  {
    TransitMatch(s, Commit(s, c), rid, s.requests[rid].item.value);
  }

  lemma InitiateReturnMatch(s: State, rid: Id, now: Time, c: Change)
    requires Matched(s) && PlanInitiateReturn(s, rid, now) == Success(c)
    ensures Matched(Commit(s, c))
  {
    TransitMatch(s, Commit(s, c), rid, s.requests[rid].item.value);
  }

  /** Request `rid` reaches a terminal status, and only devices in `is_` change. */
  ghost predicate Finished(s: State, post: State, rid: Id, is_: set<Id>) {
    && rid in s.requests && rid in post.requests && Terminal(post.requests[rid].status)
    && Untouched(s, post, {rid}, is_)
  }

  lemma CompleteReturnFinishes(s: State, rid: Id, next: DeviceStatus, actor: Id, now: Time, c: Change)
    requires PlanCompleteReturn(s, rid, next, actor, now) == Success(c)
    ensures Finished(s, Commit(s, c), rid, {s.requests[rid].item.value})
    ensures var i := s.requests[rid].item.value; var post := Commit(s, c);
      i in post.items && post.items[i].owner.None? && post.items[i].status == next
  {
  }

  /** A device handed in keeps the match exactly if the request returning it held it and it leaves custody. */
  lemma HandedInMatch(s: State, post: State, rid: Id, i: Id)
    requires Matched(s) && Finished(s, post, rid, {i}) && i in s.items && i in post.items
    requires InCustody(s.items[i].status) && post.items[i].owner.None? && s.requests[rid].item == Some(i)
    requires forall q :: HeldBy(s, q, i) ==> SoleHolder(s, q, i)
    ensures Matched(post) <==> s.requests[rid].status.Assigned? && !InCustody(post.items[i].status)
  {
    assert ItemOk(s, i);
    if !s.requests[rid].status.Assigned? {
      var q :| HeldBy(s, q, i);
      Usurped(post, q, i);
    } else {
      assert HeldBy(s, rid, i);
      if InCustody(post.items[i].status) { Stranded(s, post, {rid}, {i}, i); } else { MatchedLocally(s, post, {rid}, {i}); }
    }
  }

  /** A completed return keeps the match exactly if its request is assigned and the device leaves custody. */
  lemma CompleteReturnMatch(s: State, rid: Id, next: DeviceStatus, actor: Id, now: Time, c: Change)
    requires Wf(s) && Matched(s) && PlanCompleteReturn(s, rid, next, actor, now) == Success(c)
    ensures Matched(Commit(s, c)) <==> s.requests[rid].status.Assigned? && !InCustody(next)
  {
    CompleteReturnFinishes(s, rid, next, actor, now, c);
    IndexGivesSoleHolders(s);
    HandedInMatch(s, Commit(s, c), rid, s.requests[rid].item.value);
  }

  lemma StartMatch(s: State, tid: Id, actor: Id, now: Time, c: Change)
    requires Matched(s) && PlanStart(s, tid, actor, now) == Success(c)
    ensures Matched(Commit(s, c))
  {
    if s.tickets[tid].kind.Damage? {
      MatchedLocally(s, Commit(s, c), {}, {s.tickets[tid].itemId});
    } else {
      QuietMatch(s, c);
    }
  }

  /** A repaired device goes back to its holder, if it has one. */
  lemma RepairMatch(s: State, tid: Id, t: Ticket, actor: Id, now: Time, c: Change)
    requires t.itemId in s.items && Matched(s) && PlanRepair(s, tid, t, actor, now) == Success(c)
    ensures Matched(Commit(s, c)) <==> Held(s, t.itemId)
  {
    StatusMatch(s, Commit(s, c), t.itemId);
  }

  /** The device a request is taken off, if any. */
  function Released(s: State, rid: Id): set<Id>
    requires rid in s.requests
  {
    if s.requests[rid].status.Assigned? && s.requests[rid].item.Some? then {s.requests[rid].item.value} else {}
  }

  lemma ReleasedIsHeld(s: State, rid: Id)
    requires rid in s.requests
    ensures forall i :: i in Released(s, rid) ==> HeldBy(s, rid, i)
  {
  }

  /** The request moves from one device to an available other. */
  ghost predicate SwapEffect(s: State, post: State, rid: Id, from: Id, to: Id, oldNext: DeviceStatus) {
    && rid in s.requests && from in s.items && to in s.items && from != to && s.items[to].status.Available?
    && Untouched(s, post, {rid}, {from, to})
    && rid in post.requests && post.requests[rid] == s.requests[rid].(item := Some(to))
    && post.items[from].owner.None? && post.items[from].status == oldNext
    && post.items[to].owner == Some(s.requests[rid].requester) && post.items[to].status.Assigned?
  }

  lemma SwapHasEffect(s: State, tid: Id, t: Ticket, to: Id, oldNext: DeviceStatus, actor: Id, now: Time, c: Change)
    requires t.itemId in s.items && PlanSwap(s, tid, t, to, oldNext, actor, now) == Success(c)
    ensures t.requestId.Some? && SwapEffect(s, Commit(s, c), t.requestId.value, t.itemId, to, oldNext)
  {
  }

  lemma SwapKeeps(s: State, post: State, rid: Id, from: Id, to: Id, oldNext: DeviceStatus)
    requires Matched(s) && SwapEffect(s, post, rid, from, to, oldNext)
    requires forall i :: i in Released(s, rid) ==> SoleHolder(s, rid, i)
    requires s.requests[rid].status.Assigned? && !InCustody(oldNext)
    requires !HeldByOther(s, rid, from) && StrandsNothingBut(s, rid, from)
    ensures Matched(post)
  {
    AvailableIsFree(s, to);
    assert HolderOk(s, rid) && HeldBy(post, rid, to);
    MatchedLocally(s, post, {rid}, {from, to} + Released(s, rid));
  }

  lemma SwapBreaks(s: State, post: State, rid: Id, from: Id, to: Id, oldNext: DeviceStatus)
    requires Matched(s) && SwapEffect(s, post, rid, from, to, oldNext)
    requires forall i :: i in Released(s, rid) ==> SoleHolder(s, rid, i)
    requires s.requests[rid].status.Assigned? && !InCustody(oldNext) ==>
               HeldByOther(s, rid, from) || !StrandsNothingBut(s, rid, from)
    ensures !Matched(post)
  {
    if !s.requests[rid].status.Assigned? {
      AvailableIsFree(s, to);
      Stranded(s, post, {rid}, {from, to}, to);
    } else if q :| q != rid && HeldBy(s, q, from) {
      Usurped(post, q, from);
    } else if InCustody(oldNext) {
      Stranded(s, post, {rid}, {from, to}, from);
    } else {
      var i := s.requests[rid].item.value;
      assert i in Released(s, rid) && HolderOk(s, rid);
      AvailableIsFree(s, to);
      Stranded(s, post, {rid}, {from, to}, i);
    }
  }

  /** The request is finished and the device lost, with its owner unchanged. */
  ghost predicate LossEffect(s: State, post: State, rid: Id, i: Id) {
    && Finished(s, post, rid, {i}) && i in post.items && post.items[i].status.Lost?
  }

  lemma LossHasEffect(s: State, tid: Id, t: Ticket, actor: Id, now: Time, c: Change)
    requires t.itemId in s.items && PlanMarkLost(s, tid, t, actor, now) == Success(c)
    ensures t.requestId.Some? && LossEffect(s, Commit(s, c), t.requestId.value, t.itemId)
  {
  }

  lemma LossMatch(s: State, post: State, rid: Id, i: Id)
    requires Matched(s) && LossEffect(s, post, rid, i)
    requires forall j :: j in Released(s, rid) ==> SoleHolder(s, rid, j)
    ensures Matched(post) <==> !HeldByOther(s, rid, i) && StrandsNothingBut(s, rid, i)
  {
    assert HolderOk(s, rid);
    if q :| q != rid && HeldBy(s, q, i) {
      Usurped(post, q, i);
    } else if StrandsNothingBut(s, rid, i) {
      MatchedLocally(s, post, {rid}, {i} + Released(s, rid));
    } else {
      assert s.requests[rid].item.value in Released(s, rid);
      Stranded(s, post, {rid}, {i}, s.requests[rid].item.value);
    }
  }

  /** Closing a ticket changes nobody's custody. */
  lemma ClosingMatch(s: State, b: Change, c: Change)
    requires c.items == b.items && c.requests == b.requests
    ensures Matched(Commit(s, c)) <==> Matched(Commit(s, b))
  {
    if Matched(Commit(s, b)) { MatchedLocally(Commit(s, b), Commit(s, c), {}, {}); }
    if Matched(Commit(s, c)) { MatchedLocally(Commit(s, c), Commit(s, b), {}, {}); }
  }

  lemma BranchMatch(s: State, tid: Id, t: Ticket, action: Action, actor: Id, now: Time, b: Change)
    requires t.itemId in s.items && Wf(s) && Matched(s) && PlanBranch(s, tid, t, action, actor, now) == Success(b)
    ensures Matched(Commit(s, b)) <==>
      match action
      case DoRemote => true
      case DoRepair => Held(s, t.itemId)
      case DoSwap(_, oldNext) => OrderlySwap(s, t, oldNext)
      case DoLost => OrderlyLoss(s, t)
  {
    match action {
      case DoRemote => QuietMatch(s, b);
      case DoRepair => RepairMatch(s, tid, t, actor, now, b);
      case DoSwap(to, oldNext) =>
        var rid := t.requestId.value;
        SwapHasEffect(s, tid, t, to, oldNext, actor, now, b);
        IndexGivesSoleHolders(s);
        ReleasedIsHeld(s, rid);
        if OrderlySwap(s, t, oldNext) { SwapKeeps(s, Commit(s, b), rid, t.itemId, to, oldNext); }
        else { SwapBreaks(s, Commit(s, b), rid, t.itemId, to, oldNext); }
      case DoLost =>
        LossHasEffect(s, tid, t, actor, now, b);
        IndexGivesSoleHolders(s);
        ReleasedIsHeld(s, t.requestId.value);
        LossMatch(s, Commit(s, b), t.requestId.value, t.itemId);
    }
  }

  lemma ResolveMatch(s: State, tid: Id, action: Action, actor: Id, now: Time, c: Change)
    requires Wf(s) && Matched(s) && PlanResolve(s, tid, action, actor, now) == Success(c)
    ensures Matched(Commit(s, c)) <==> Orderly(s, Event(It(Resolve(tid, action), actor), now))
  {
    var t := s.tickets[tid];
    var b := PlanBranch(s, tid, t, action, actor, now).value;
    BranchMatch(s, tid, t, action, actor, now, b);
    ClosingMatch(s, b, c);
  }

  /** Cancelling an assigned request strands its device, unless that is under repair. */
  lemma CancelMatch(s: State, rid: Id, actor: Id, now: Time, c: Change)
    requires Wf(s) && Matched(s) && PlanCancel(s, rid, actor, now) == Success(c)
    ensures Matched(Commit(s, c)) <==> StrandsNothing(s, rid)
  {
    assert Finished(s, Commit(s, c), rid, {});
    IndexGivesSoleHolders(s);
    ReleasedIsHeld(s, rid);
    AbandonedMatch(s, Commit(s, c), rid);
  }

  lemma AbandonedMatch(s: State, post: State, rid: Id)
    requires Matched(s) && Finished(s, post, rid, {})
    requires forall i :: i in Released(s, rid) ==> SoleHolder(s, rid, i)
    ensures Matched(post) <==> StrandsNothing(s, rid)
  {
    assert HolderOk(s, rid);
    if StrandsNothing(s, rid) {
      MatchedLocally(s, post, {rid}, Released(s, rid));
    } else {
      assert s.requests[rid].item.value in Released(s, rid);
      Stranded(s, post, {rid}, {}, s.requests[rid].item.value);
    }
  }

  /** A request that stays unassigned, or an assigned one whose device and status stay. */
  lemma DeskMatch(s: State, op: ItOp, actor: Id, now: Time, c: Change)
    requires Matched(s) && PlanIt(s, op, actor, now) == Success(c)
    requires op.UpdateBookingRange? || op.Reject? || op.Escalate?
    ensures Matched(Commit(s, c))
  {
    assert HolderOk(s, op.rid);
    RequestMatch(s, c, op.rid);
  }

  lemma ExtensionMatch(s: State, op: ItOp, actor: Id, now: Time, c: Change)
    requires Matched(s) && (op.ExtensionApprove? || op.ExtensionReject?) && PlanIt(s, op, actor, now) == Success(c)
    ensures Matched(Commit(s, c))
  {
    var rid := s.extensions[op.xid].requestId;
    assert HolderOk(s, rid);
    RequestMatch(s, c, rid);
  }

  /** A device somebody holds must stay in custody or go to repair; any other must stay out of custody. */
  lemma ChangeStatusMatch(s: State, iid: Id, status: DeviceStatus, actor: Id, now: Time, c: Change)
    requires Matched(s) && PlanChangeStatus(s, iid, status, actor, now) == Success(c)
    ensures Matched(Commit(s, c)) <==> if Held(s, iid) then InCustody(status) || status.UnderRepair? else !InCustody(status)
  {
    StatusMatch(s, Commit(s, c), iid);
  }

  lemma StatusMatch(s: State, post: State, i: Id)
    requires Matched(s) && Untouched(s, post, {}, {i}) && i in s.items && i in post.items
    requires post.items[i].owner == s.items[i].owner
    ensures var status := post.items[i].status;
      Matched(post) <==> if Held(s, i) then InCustody(status) || status.UnderRepair? else !InCustody(status)
  {
    var status := post.items[i].status;
    if q :| HeldBy(s, q, i) {
      assert HeldBy(post, q, i);
      if InCustody(status) || status.UnderRepair? { MatchedLocally(s, post, {}, {i}); } else { Usurped(post, q, i); }
    } else if InCustody(status) {
      Stranded(s, post, {}, {i}, i);
    } else {
      MatchedLocally(s, post, {}, {i});
    }
  }

  lemma NewItemMatch(s: State, post: State, i: Id)
    requires Matched(s) && Untouched(s, post, {}, {i}) && i !in s.items
    requires i in post.items && !InCustody(post.items[i].status)
    ensures Matched(post)
  {
    forall q ensures !HeldBy(s, q, i) { if q in s.requests { assert HolderOk(s, q); } }
    MatchedLocally(s, post, {}, {i});
  }

  lemma CreateItemMatch(s: State, op: ItOp, actor: Id, now: Time, c: Change)
    requires Matched(s) && op.CreateItem? && PlanIt(s, op, actor, now) == Success(c)
    ensures Matched(Commit(s, c))
  {
    NewItemMatch(s, Commit(s, c), op.iid);
  }

  lemma EnvMatch(s: State, op: EnvOp, now: Time, c: Change)
    requires Matched(s) && PlanEnv(s, op, now) == Success(c)
    ensures Matched(Commit(s, c))
  {
    match op
    case FileRequest(rid, _, _, _, _, _, _) => RequestMatch(s, c, rid);
    case RouteRequest(rid) => assert HolderOk(s, rid); RequestMatch(s, c, rid);
    case ManagerDecision(rid, _) => assert HolderOk(s, rid); RequestMatch(s, c, rid);
    case InitiateReturn(rid) => InitiateReturnMatch(s, rid, now, c);
    case _ => QuietMatch(s, c);
  }

  lemma MoveMatch(s: State, op: ItOp, actor: Id, now: Time, c: Change)
    requires Wf(s) && Matched(s) && MovesDevices(op) && PlanIt(s, op, actor, now) == Success(c)
    ensures Matched(Commit(s, c)) <==> Orderly(s, Event(It(op, actor), now))
  {
    match op
    case Assign(rid, iid, from, to, isWfh) => AssignMatch(s, rid, iid, from, to, isWfh, actor, now, c);
    case DirectAssign(rid, iid, emp, from, to) => DirectAssignMatch(s, rid, iid, emp, from, to, actor, now, c);
    case Ship(rid) => ShipMatch(s, rid, actor, now, c);
    case ConfirmDelivery(rid) => ConfirmDeliveryMatch(s, rid, actor, now, c);
    case CompleteReturn(rid, next) => CompleteReturnMatch(s, rid, next, actor, now, c);
    case Start(tid) => StartMatch(s, tid, actor, now, c);
    case Resolve(tid, action) => ResolveMatch(s, tid, action, actor, now, c);
  }

  lemma OfficeMatch(s: State, op: ItOp, actor: Id, now: Time, c: Change)
    requires Wf(s) && Matched(s) && !MovesDevices(op) && PlanIt(s, op, actor, now) == Success(c)
    ensures Matched(Commit(s, c)) <==> Orderly(s, Event(It(op, actor), now))
  {
    match op
    case Cancel(rid) => CancelMatch(s, rid, actor, now, c);
    case ExtensionApprove(_) => ExtensionMatch(s, op, actor, now, c);
    case ExtensionReject(_) => ExtensionMatch(s, op, actor, now, c);
    case CreateItem(_, _, _, _, _, _, _) => CreateItemMatch(s, op, actor, now, c);
    case EditItem(_, _) => QuietMatch(s, c);
    case ChangeStatus(iid, status) => ChangeStatusMatch(s, iid, status, actor, now, c);
    case Deactivate(_) => QuietMatch(s, c);
    case Activate(_) => QuietMatch(s, c);
    case _ => DeskMatch(s, op, actor, now, c);
  }

  /** A successful operation keeps the match of requests and devices exactly if it is orderly. */
  lemma MatchKeptIff(s: State, e: Event)
    requires Wf(s) && Matched(s) && Succeeds(s, e)
    ensures Matched(Apply(s, e)) <==> Orderly(s, e)
  {
    var c := Plan(s, e).value;
    match e.op
    case Env(op) => EnvMatch(s, op, e.now, c);
    case It(op, actor) =>
      if MovesDevices(op) { MoveMatch(s, op, actor, e.now, c); } else { OfficeMatch(s, op, actor, e.now, c); }
  }

  ghost predicate OrderlyRun(s: State, run: seq<Event>) {
    forall k :: 0 <= k < |run| ==> Orderly(At(s, run, k), run[k])
  }

  lemma {:induction false} ReachableMatched(s: State, run: seq<Event>)
    requires Fresh(s) && OrderlyRun(s, run)
    ensures Matched(Run(s, run))
  {
    if run != [] {
      var n := |run| - 1;
      var before := run[..n];
      forall k | 0 <= k < |before| ensures Orderly(At(s, before, k), before[k]) {
        assert before[..k] == run[..k] && Orderly(At(s, run, k), run[k]);
      }
      ReachableMatched(s, before);
      ReachableWf(s, before);
      assert At(s, run, n) == Run(s, before);
      if Succeeds(Run(s, before), run[n]) { MatchKeptIff(Run(s, before), run[n]); }
    }
  }

  /** On orderly runs every assigned request holds a device its requester owns, no two hold the same,
      and every device in custody is held by exactly one. */
  lemma CustodyMatching(s: State, run: seq<Event>)
    requires Fresh(s) && OrderlyRun(s, run)
    ensures var r := Run(s, run);
      && (forall q :: q in r.requests && r.requests[q].status.Assigned? ==>
            && r.requests[q].item.Some? && r.requests[q].item.value in r.items
            && var d := r.items[r.requests[q].item.value];
               d.owner == Some(r.requests[q].requester) && (InCustody(d.status) || d.status.UnderRepair?))
      && (forall p, q, i :: HeldBy(r, p, i) && HeldBy(r, q, i) ==> p == q)
      && (forall i :: i in r.items && InCustody(r.items[i].status) ==> exists q :: HeldBy(r, q, i))
  {
    ReachableMatched(s, run);
    ReachableWf(s, run);
    var r := Run(s, run);
    forall q | q in r.requests ensures HolderOk(r, q) {}
    forall i | i in r.items ensures ItemOk(r, i) {}
    IndexGivesSoleHolders(r);
    forall p, q, i | HeldBy(r, p, i) && HeldBy(r, q, i) ensures p == q { assert SoleHolder(r, p, i); }
  }

  // ---- The index never fires.

  /** The identifiers the caller supplies for new rows are new. */
  predicate FreshIds(s: State, e: Event) {
    e.op.It? ==>
      (e.op.it.DirectAssign? ==> e.op.it.rid !in s.requests) && (e.op.it.CreateItem? ==> e.op.it.iid !in s.items)
  }

  lemma NoCollision(s: State, rid: Id, row: Request)
    requires Matched(s)
    requires Indexed(row) ==> row.status.Assigned? && forall q :: q != rid ==> !HeldBy(s, q, row.item.value)
    ensures !Collides(s.requests, rid, row)
  {
    forall q | q in s.requests && q != rid && Indexed(row) && Indexed(s.requests[q])
      ensures s.requests[q].item != row.item || s.requests[q].status != row.status
    {
      assert !HeldBy(s, q, row.item.value);
    }
  }

  lemma SwapCollidesNot(s: State, t: Ticket, to: Id)
    requires Matched(s) && t.itemId in s.items && SwapGuards(s, t, to).None?
    ensures var rid := t.requestId.value; !Collides(s.requests, rid, s.requests[rid].(item := Some(to)))
  {
    AvailableIsFree(s, to);
    var rid := t.requestId.value;
    var row := s.requests[rid].(item := Some(to));
    assert HolderOk(s, rid);
    forall q | q in s.requests && q != rid && Indexed(s.requests[q])
      ensures s.requests[q].item != row.item || s.requests[q].status != row.status
    {
      assert HolderOk(s, q) && !HeldBy(s, q, to);
    }
  }

  lemma MovesNeverCollide(s: State, op: ItOp, actor: Id, now: Time)
    requires Matched(s) && MovesDevices(op) && FreshIds(s, Event(It(op, actor), now))
    ensures PlanIt(s, op, actor, now) != Failure(IndexConflict) && PlanIt(s, op, actor, now) != Failure(IndexCrash)
  {
    match op
    case Assign(rid, iid, from, to, isWfh) =>
      if AssignGuards(s, rid, iid, from, to).None? {
        AvailableIsFree(s, iid);
        NoCollision(s, rid, AssignedRequest(s.requests[rid], iid, from, to, isWfh, actor, now));
      }
    case DirectAssign(rid, iid, emp, from, to) =>
      if DirectGuards(s, iid, emp, from, to).None? {
        AvailableIsFree(s, iid);
        NoCollision(s, rid, DirectRequest(s.items[iid], iid, emp, from, to, actor, now));
      }
    case Resolve(tid, action) =>
      if tid in s.tickets && s.tickets[tid].itemId in s.items && action.DoSwap?
         && SwapGuards(s, s.tickets[tid], action.to).None? {
        SwapCollidesNot(s, s.tickets[tid], action.to);
      }
    case _ =>
  }

  lemma OfficeNeverCollides(s: State, op: ItOp, actor: Id, now: Time)
    requires Matched(s) && !MovesDevices(op) && FreshIds(s, Event(It(op, actor), now))
    ensures PlanIt(s, op, actor, now) != Failure(IndexConflict) && PlanIt(s, op, actor, now) != Failure(IndexCrash)
  {
    if op.Escalate? && op.rid in s.requests { assert HolderOk(s, op.rid); }
  }

  lemma EnvNeverCollides(s: State, op: EnvOp, now: Time)
    requires Matched(s)
    ensures PlanEnv(s, op, now) != Failure(IndexConflict) && PlanEnv(s, op, now) != Failure(IndexCrash)
  {
    match op
    case RouteRequest(rid) => if rid in s.requests { assert HolderOk(s, rid); }
    case ManagerDecision(rid, _) => if rid in s.requests { assert HolderOk(s, rid); }
    case _ =>
  }

  /** After an orderly run the unique index rejects no operation: the guards already exclude every
      collision, whatever the next operation is. */
  lemma IndexNeverFires(s: State, run: seq<Event>, e: Event)
    requires Fresh(s) && OrderlyRun(s, run) && FreshIds(Run(s, run), e)
    ensures Plan(Run(s, run), e) != Failure(IndexConflict) && Plan(Run(s, run), e) != Failure(IndexCrash)
  {
    ReachableMatched(s, run);
    match e.op
    case Env(op) => EnvNeverCollides(Run(s, run), op, e.now);
    case It(op, actor) =>
      if MovesDevices(op) { MovesNeverCollide(Run(s, run), op, actor, e.now); }
      else { OfficeNeverCollides(Run(s, run), op, actor, e.now); }
  }
}
