/** Two races from a fresh database, each step of which the services allow. */
module RaceStories {
  import opened Wrappers
  import opened Models
  import opened Queries
  import opened Operations
  import opened Sessions
  import opened Custody
  import opened Race
  import opened Story

  const FIRST := Assign(1, 1, 0, 10, false)
  const SECOND := Assign(1, 2, 0, 10, false)

  lemma FiledIsMatched(s: State)
    requires Filed(s)
    ensures Matched(s)
  {
  }

  /** Two administrators assign the one pending request to laptops 1 and 2: laptop 1 stays assigned to nobody's
      request. */
  lemma LaptopOrphaned()
    ensures Fresh(START)
    ensures var race := [Check(1, FIRST, 1), Check(2, SECOND, 1), Flush(1, 0), Flush(2, 0)];
      var db := Interleaved(World(START, map[]), Wholes(FILING) + race).db;
      && HeldBy(db, 1, 2) && 1 in db.items && db.items[1].status.Assigned? && !Custody.Held(db, 1)
  {
    ReachStocked();
    ReachFiled();
    var s := Run(START, FILING);
    FiledIsMatched(s);
    FiledIsAssignable(s, 1);
    FiledIsAssignable(s, 2);
    DoubleAssignOrphans(START, FILING, 1, 1, 2, 0, 10, 1, 0);
  }

  const ASK_TOO := Event(Env(FileRequest(2, 2, 0, 0, 10, PendingItApproval, false)), 0)
  const RETURN := Event(It(CompleteReturn(1, Available), 1), 0)
  const GIVE := Event(It(Assign(2, 2, 0, 10, false), 1), 0)
  const SWAP := Resolve(1, DoSwap(2, Available))

  predicate OneAwaits(s: State) {
    2 in s.requests && s.requests[2].requester == 2 && s.requests[2].categoryId == 0
    && s.requests[2].status.PendingItApproval? && s.requests[2].item.None?
  }

  predicate FirstRequest(s: State, status: RequestStatus) {
    && 1 in s.requests && s.requests[1].requester == 1 && s.requests[1].item == Some(1)
    && s.requests[1].status == status && s.requests.Keys == {1, 2}
  }

  /** Laptop 1 is out with an open ticket, and a second employee waits. */
  predicate Waiting(s: State) {
    && OneAwaits(s) && FirstRequest(s, RequestStatus.Assigned) && OpenOnFirst(s, 1)
    && Laptop(s, 1, DeviceStatus.Assigned, Some(1)) && Laptop(s, 2, Available, None)
  }

  /** Laptop 1 is back. */
  predicate Back(s: State) {
    OneAwaits(s) && FirstRequest(s, RequestStatus.Completed) && Laptop(s, 2, Available, None)
  }

  lemma AskingToo(s: State)
    requires Complained(s)
    ensures Waiting(Apply(s, ASK_TOO))
  {
    CommitOmits(s);
  }

  lemma ComingBack(s: State)
    requires Waiting(s)
    ensures Back(Apply(s, RETURN))
  {
    ReturnCommits(s, 1, 1, Available);
    BackAfter(s, ReturnWrites(s, 1, 1, Available, 1, 0));
  }

  lemma BackAfter(s: State, c: Change)
    requires Waiting(s) && c == ReturnWrites(s, 1, 1, Available, 1, 0)
    ensures Back(Commit(s, c))
  {
    CommitOmits(s);
  }

  lemma GivingSecond(s: State)
    requires Back(s)
    ensures var post := Apply(s, GIVE);
      && HeldBy(post, 2, 2) && post.requests[2].requester == 2
      && FirstRequest(post, RequestStatus.Completed)
  {
    assert PlanAssign(s, 2, 2, 0, 10, false, 1, 0) == Success(AssignWrites(s, 2, 2, 0, 10, false, 1, 0));
  }

  lemma SwapPasses(s: State)
    requires Waiting(s)
    ensures Passes(s, SWAP)
  {
  }

  const RUNUP: seq<Event> := COMPLAINING + [ASK_TOO]

  lemma SwapsTwo(w: World, steps: seq<Step>, db: State, op: ItOp, e1: Event, e2: Event)
    requires Interleaved(w, steps) == World(db, map[]) && Passes(db, op)
    ensures Interleaved(w, steps + [Check(1, op, 1), Whole(e1), Whole(e2)])
         == World(Apply(Apply(db, e1), e2), map[1 := Race.Held(op, 1)])
  {
    OneMoreStep(w, steps, Check(1, op, 1));
    OneMoreStep(w, steps + [Check(1, op, 1)], Whole(e1));
    OneMoreStep(w, steps + [Check(1, op, 1)] + [Whole(e1)], Whole(e2));
    assert steps + [Check(1, op, 1), Whole(e1), Whole(e2)] == steps + [Check(1, op, 1)] + [Whole(e1)] + [Whole(e2)];
  }

  lemma StolenAfter(s: State, db: State, steps: seq<Step>)
    requires Waiting(s) && Interleaved(World(START, map[]), steps) == World(db, map[1 := Race.Held(SWAP, 1)])
    requires RowsStay(s, db) && HeldBy(db, 2, 2) && db.requests[2].requester == 2
    requires FirstRequest(db, RequestStatus.Completed)
    ensures var post := Next(World(db, map[1 := Race.Held(SWAP, 1)]), Flush(1, 0)).db;
      HeldBy(post, 2, 2) && 2 in post.items && post.items[2].owner == Some(1) && !Matched(post)
  {
    SwapPasses(s);
    LoadedStays(s, db, SWAP);
    StaleSwapSteals(START, steps, 1, 0, 2);
  }

  lemma WaitingReached()
    ensures Waiting(Run(START, RUNUP))
  {
    ReachComplained();
    RunOne(START, COMPLAINING, ASK_TOO);
    AskingToo(Run(START, COMPLAINING));
  }

  lemma TwoKeepRows(s: State, e1: Event, e2: Event)
    ensures RowsStay(s, Apply(Apply(s, e1), e2))
  {
    WholeKeepsRows(s, e1);
    WholeKeepsRows(Apply(s, e1), e2);
    RowsStayOn(s, Apply(s, e1), Apply(Apply(s, e1), e2));
  }

  lemma RowsStayOn(s: State, t: State, u: State)
    requires RowsStay(s, t) && RowsStay(t, u)
    ensures RowsStay(s, u)
  {
  }

  lemma RaceFrom(s: State, steps: seq<Step>)
    requires Waiting(s) && Interleaved(World(START, map[]), steps) == World(s, map[])
    ensures var race := [Check(1, SWAP, 1), Whole(RETURN), Whole(GIVE)];
      var db := Interleaved(World(START, map[]), steps + race + [Flush(1, 0)]).db;
      HeldBy(db, 2, 2) && 2 in db.items && db.items[2].owner == Some(1) && !Matched(db)
  {
    var race := [Check(1, SWAP, 1), Whole(RETURN), Whole(GIVE)];
    var db := Apply(Apply(s, RETURN), GIVE);
    SwapPasses(s);
    SwapsTwo(World(START, map[]), steps, s, SWAP, RETURN, GIVE);
    ComingBack(s);
    GivingSecond(Apply(s, RETURN));
    TwoKeepRows(s, RETURN, GIVE);
    StolenAfter(s, db, steps + race);
    OneMoreStep(World(START, map[]), steps + race, Flush(1, 0));
  }

  /** A swap of laptop 1 for laptop 2 has passed its guards when laptop 1 comes back and laptop 2 goes to the
      second employee. Its flush still commits: laptop 2 is then owned by the first employee, while the second
      one's request holds it. */
  lemma LaptopStolen()
    ensures Fresh(START)
    ensures var race := [Check(1, SWAP, 1), Whole(RETURN), Whole(GIVE)];
      var db := Interleaved(World(START, map[]), Wholes(RUNUP) + race + [Flush(1, 0)]).db;
      && HeldBy(db, 2, 2) && 2 in db.items && db.items[2].owner == Some(1) && !Matched(db)
  {
    ReachStocked();
    WaitingReached();
    SequentialFirst(START, RUNUP);
    RaceFrom(Run(START, RUNUP), Wholes(RUNUP));
  }
}
