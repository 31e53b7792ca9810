/** A run in which a deactivated user ends up owning a device.

    A request's first device is swapped for a second, which is then returned. Another ticket on the first
    device is still open; it is not closed by the return of the second. The user is deactivated, and that
    ticket is resolved by a swap. */
module DeactivationGap {
  import opened Wrappers
  import opened Models
  import opened Queries
  import opened Operations
  import opened Lifecycle
  import opened Sessions
  import opened Deactivation
  import opened Story

  const SWAP_ONE := Event(It(Resolve(1, DoSwap(2, Available)), 1), 0)
  const RETURN := Event(It(CompleteReturn(1, Available), 1), 0)
  const LEAVE := Event(It(Deactivate(1), 1), 0)
  const SWAP_TWO := Event(It(Resolve(2, DoSwap(3, Available)), 1), 0)

  const STORY: seq<Event> := COMPLAINING + [SWAP_ONE, RETURN] + [LEAVE, SWAP_TWO]

  // ---- The stages of the run.

  predicate SwappedOnce(s: State) {
    && People(s) && s.items.Keys == {1, 2, 3} && Holding(s, 2) && OpenOnFirst(s, 2)
    && Laptop(s, 1, Available, None) && Laptop(s, 2, DeviceStatus.Assigned, Some(1)) && Laptop(s, 3, Available, None)
  }

  predicate Returned(s: State) {
    && People(s) && s.items.Keys == {1, 2, 3} && OpenOnFirst(s, 2)
    && s.requests.Keys == {1} && s.requests[1].requester == 1 && s.requests[1].status.Completed?
    && Laptop(s, 1, Available, None) && Laptop(s, 2, Available, None) && Laptop(s, 3, Available, None)
  }

  predicate Left(s: State) {
    && s.items.Keys == {1, 2, 3} && OpenOnFirst(s, 2) && 1 in s.users && !s.users[1].isActive
    && s.requests.Keys == {1} && s.requests[1].requester == 1 && s.requests[1].status.Completed?
    && Laptop(s, 1, Available, None) && Laptop(s, 3, Available, None)
  }

  function FirstSwap(s: State): Change
    requires OpenOnFirst(s, 1) && 1 in s.items && 2 in s.items && 1 in s.requests
  {
    SwapWrites(s, 1, s.tickets[1], 2, Available, 1, 0)
  }

  lemma FirstSwapPasses(s: State)
    requires Complained(s)
    ensures PlanSwap(s, 1, s.tickets[1], 2, Available, 1, 0) == Success(FirstSwap(s))
  {
  }

  lemma SwappingOnce(s: State)
    requires Complained(s)
    ensures SwappedOnce(Apply(s, SWAP_ONE))
  {
    FirstSwapPasses(s);
    ResolveCommits(s, 1, DoSwap(2, Available), FirstSwap(s));
    SwappedAfter(s, Operations.Closing(FirstSwap(s), 1, s.tickets[1], DoSwap(2, Available), 1, 0));
  }

  lemma SwappedAfter(s: State, c: Change)
    requires Complained(s)
    requires c == Operations.Closing(FirstSwap(s), 1, s.tickets[1], DoSwap(2, Available), 1, 0)
    ensures SwappedOnce(Commit(s, c))
  {
    CommitOmits(s);
  }

  lemma Returning(s: State)
    requires SwappedOnce(s)
    ensures Returned(Apply(s, RETURN))
  {
    ReturnCommits(s, 1, 2, Available);
    ReturnedAfter(s, ReturnWrites(s, 1, 2, Available, 1, 0));
  }

  lemma ReturnedAfter(s: State, c: Change)
    requires SwappedOnce(s) && c == ReturnWrites(s, 1, 2, Available, 1, 0)
    ensures Returned(Commit(s, c))
  {
    assert s.users + map[] == s.users;
  }

  lemma Leaving(s: State)
    requires Returned(s)
    ensures Left(Apply(s, LEAVE))
  {
    CommitOmits(s);
    assert !HoldsOrAwaits(s.items, s.requests, 1);
  }

  lemma SwappingAgain(s: State)
    requires Left(s)
    ensures Laptop(Apply(s, SWAP_TWO), 3, DeviceStatus.Assigned, Some(1)) && Apply(s, SWAP_TWO).users == s.users
  {
    assert PlanSwap(s, 2, s.tickets[2], 3, Available, 1, 0).Success?;
    assert s.users + map[] == s.users;
  }

  /** Deactivation succeeds, and then the second swap gives the third device to the inactive user. */
  lemma InactiveUserOwnsDevice()
    ensures Fresh(START)
    ensures var s := Run(START, STORY);
      1 in s.users && !s.users[1].isActive && 3 in s.items && s.items[3].owner == Some(1) && !ActiveOnly(s)
  {
    ReachComplained();
    var run := COMPLAINING;
    RunTwo(START, run, SWAP_ONE, RETURN);
    SwappingOnce(Run(START, run));
    Returning(Apply(Run(START, run), SWAP_ONE));
    run := run + [SWAP_ONE, RETURN];
    RunTwo(START, run, LEAVE, SWAP_TWO);
    Leaving(Run(START, run));
    SwappingAgain(Apply(Run(START, run), LEAVE));
  }
}
