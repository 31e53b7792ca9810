/** Reachable states in which the services do what their documents rule out: each lemma is a run from a
    fresh database. */
module Divergences {
  import opened Wrappers
  import opened Models
  import opened Queries
  import opened Operations
  import opened Sessions
  import opened Custody
  import opened Invariants
  import opened Milestones
  import opened Story

  const CANCEL := Event(It(Cancel(1), 1), 0)
  const LOSE := Event(It(Resolve(1, DoLost), 1), 0)
  const ASK_LONGER := Event(Env(FileExtension(1, 1, 20, false)), 0)
  const HAND_IN := Event(It(CompleteReturn(1, Available), 1), 0)
  const GRANT := Event(It(ExtensionApprove(1), 1), 0)
  const SHELVE := Event(It(ChangeStatus(1, Available), 1), 0)
  const NEXT_YEAR := Event(Env(FileRequest(2, 2, 0, 20, 30, PendingItApproval, false)), 0)

  /** Cancelling an assigned request leaves its device assigned, with no request that holds it. */
  lemma CancelStrandsDevice()
    ensures var s := Run(START, HANDING + [CANCEL]);
      Laptop(s, 1, DeviceStatus.Assigned, Some(1)) && !Matched(s)
  {
    ReachHandedOut();
    RunOne(START, HANDING, CANCEL);
    CancelStrands(Run(START, HANDING));
  }

  lemma CancelStrands(s: State)
    requires HandedOut(s)
    ensures Laptop(Apply(s, CANCEL), 1, DeviceStatus.Assigned, Some(1)) && !Matched(Apply(s, CANCEL))
  {
    var post := Apply(s, CANCEL);
    CommitOmits(s);
    assert post.requests.Keys == {1} && post.items == s.items;
    assert forall q :: !HeldBy(post, q, 1);
    assert !ItemOk(post, 1);
  }

  /** Marking the device lost completes its request and leaves another ticket of it open. */
  lemma LossLeavesTicketOpen()
    ensures var s := Run(START, COMPLAINING + [LOSE]);
      && 1 in s.requests && s.requests[1].status.Completed?
      && Laptop(s, 1, DeviceStatus.Lost, Some(1)) && OpenOnFirst(s, 2)
  {
    ReachComplained();
    RunOne(START, COMPLAINING, LOSE);
    var s := Run(START, COMPLAINING);
    var b := PlanMarkLost(s, 1, s.tickets[1], 1, 0).value;
    ResolveCommits(s, 1, DoLost, b);
  }

  predicate AwaitsExtension(s: State) {
    && 1 in s.extensions && s.extensions[1].requestId == 1 && s.extensions[1].extendedTo == 20
    && s.extensions[1].status.Pending? && s.extensions[1].mgrApproval.NotRequired?
  }

  predicate Extending(s: State) {
    AwaitsExtension(s) && Holding(s, 1) && Laptop(s, 1, DeviceStatus.Assigned, Some(1))
  }

  predicate Ended(s: State) {
    1 in s.requests && s.requests[1].status.Completed? && s.requests[1].item.Some?
  }

  lemma AskingLonger(s: State)
    requires HandedOut(s)
    ensures Extending(Apply(s, ASK_LONGER))
  {
    CommitOmits(s);
  }

  lemma HandingIn(s: State)
    requires Extending(s)
    ensures AwaitsExtension(Apply(s, HAND_IN)) && Ended(Apply(s, HAND_IN))
  {
    ReturnCommits(s, 1, 1, Available);
    CommitOmits(s);
  }

  lemma Granting(s: State)
    requires AwaitsExtension(s) && Ended(s)
    ensures var post := Apply(s, GRANT);
      && Ended(post) && post.requests[1].assignedTo == Some(20)
      && 1 in post.extensions && post.extensions[1].status.Approved?
  {
  }

  /** An extension still pending when its request completes is approved afterwards, and moves the end of the
      completed booking. */
  lemma ExtensionMovesCompletedBooking()
    ensures var s := Run(START, HANDING + [ASK_LONGER, HAND_IN, GRANT]);
      && 1 in s.requests && s.requests[1].status.Completed? && s.requests[1].assignedTo == Some(20)
      && 1 in s.extensions && s.extensions[1].status.Approved?
  {
    ReachHandedOut();
    RunThree(START, HANDING, ASK_LONGER, HAND_IN, GRANT);
    AskingLonger(Run(START, HANDING));
    HandingIn(Apply(Run(START, HANDING), ASK_LONGER));
    Granting(Apply(Apply(Run(START, HANDING), ASK_LONGER), HAND_IN));
  }

  predicate Shelved(s: State) {
    && People(s) && s.items.Keys == {1, 2, 3} && Holding(s, 1)
    && s.requests[1].assignedTo == Some(10) && Laptop(s, 1, Available, Some(1))
  }

  lemma Shelving(s: State)
    requires HandedOut(s)
    ensures Shelved(Apply(s, SHELVE))
  {
    CommitOmits(s);
  }

  predicate AwaitsNextYear(s: State) {
    && 1 in s.requests && s.requests.Keys == {1, 2} && Laptop(s, 1, Available, Some(1))
    && s.requests[1].status.Assigned? && s.requests[1].item == Some(1) && s.requests[1].assignedTo == Some(10)
    && s.requests[2].status.PendingItApproval? && s.requests[2].categoryId == 0 && s.requests[2].item.None?
    && s.requests[2].requestedFrom == 20 && s.requests[2].requestedTo == 30
  }

  lemma FilingNextYear(s: State)
    requires Shelved(s)
    ensures AwaitsNextYear(Apply(s, NEXT_YEAR))
  {
    CommitOmits(s);
  }

  lemma ListedButRefused(s: State)
    requires AwaitsNextYear(s)
    ensures 1 in SuggestedDevices(s, 0, 20, 30)
    ensures PlanAssign(s, 2, 1, 20, 30, false, 1, 0) == Failure(IndexConflict)
  {
    assert Indexed(s.requests[1]);
    assert !HasOverlap(s.requests, 1, 20, 30, None) && !HasOverlap(s.requests, 1, 20, 30, Some(2));
  }

  /** A device put back on the shelf by hand while its booking is active is suggested for later dates, passes
      every guard of `assign`, and is refused by the index. */
  lemma SuggestedDeviceRefused()
    ensures var s := Run(START, HANDING + [SHELVE, NEXT_YEAR]);
      1 in SuggestedDevices(s, 0, 20, 30) && PlanAssign(s, 2, 1, 20, 30, false, 1, 0) == Failure(IndexConflict)
  {
    ReachHandedOut();
    RunTwo(START, HANDING, SHELVE, NEXT_YEAR);
    Shelving(Run(START, HANDING));
    FilingNextYear(Apply(Run(START, HANDING), SHELVE));
    ListedButRefused(Run(START, HANDING + [SHELVE, NEXT_YEAR]));
  }

  const SHIP_BY_HAND := Event(It(ChangeStatus(1, ShippingPending), 1), 0)

  /** The service, unlike its request schema, takes a shipping status by hand, and the milestone view then
      shows it: it is not exact. */
  lemma TransitShownByHand()
    ensures !Accepted(SHIP_BY_HAND.op.it)
    ensures !AllExact(Run(START, STOCKING + [SHIP_BY_HAND]))
  {
    ReachStocked();
    var s := Run(START, STOCKING);
    RunOne(START, STOCKING, SHIP_BY_HAND);
    ReachableWf(START, STOCKING);
    ReachableSilence(START, STOCKING);
    forall k | 0 <= k < |STOCKING| ensures !ShipsByHand(START, STOCKING, k) {}
    ExactUpTo(START, STOCKING, |STOCKING|);
    assert STOCKING[..|STOCKING|] == STOCKING;
    ExactKeptIff(s, SHIP_BY_HAND);
  }
}
