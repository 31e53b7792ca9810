/** Stages of short runs on three laptops and two employees, from which the counterexamples start. */
module Story {
  import opened Wrappers
  import opened Models
  import opened Queries
  import opened Operations
  import opened Sessions

  const START := State(map[], map[], map[], map[], map[1 := User(None, true), 2 := User(None, true)], {0}, [])

  function Stock(iid: Id, serialNo: string): Event {
    Event(It(CreateItem(iid, serialNo, "laptop", 0, Company, None, None), 1), 0)
  }

  const FILED := Event(Env(FileRequest(1, 1, 0, 0, 10, PendingItApproval, false)), 0)
  const ASSIGNED := Event(It(Assign(1, 1, 0, 10, false), 1), 0)
  const STOCKING: seq<Event> := [Stock(1, "a"), Stock(2, "b"), Stock(3, "c")]
  const FILING: seq<Event> := STOCKING + [FILED]
  const HANDING: seq<Event> := FILING + [ASSIGNED]
  const COMPLAINING: seq<Event> := HANDING + [Complaint(1), Complaint(2)]

  function Complaint(tid: Id): Event {
    Event(Env(FileTicket(tid, 1, 1, Some(1), Update)), 0)
  }

  predicate Laptop(s: State, i: Id, status: DeviceStatus, owner: Option<Id>) {
    i in s.items && s.items[i].categoryId == 0 && s.items[i].status == status && s.items[i].owner == owner
  }

  predicate OpenOnFirst(s: State, t: Id) {
    t in s.tickets && s.tickets[t].itemId == 1 && s.tickets[t].requestId == Some(1) && s.tickets[t].status.Open?
  }

  predicate People(s: State) {
    s.users == START.users && s.categories == {0}
  }

  predicate Holding(s: State, i: Id) {
    && s.requests.Keys == {1} && s.requests[1].requester == 1
    && s.requests[1].status.Assigned? && s.requests[1].item == Some(i)
  }

  predicate Stocked(s: State) {
    && People(s) && s.items.Keys == {1, 2, 3} && s.requests == map[] && s.tickets == map[] && s.extensions == map[]
    && Laptop(s, 1, Available, None) && Laptop(s, 2, Available, None) && Laptop(s, 3, Available, None)
  }

  predicate Filed(s: State) {
    && People(s) && s.items.Keys == {1, 2, 3} && s.tickets == map[] && s.extensions == map[]
    && Laptop(s, 1, Available, None) && Laptop(s, 2, Available, None) && Laptop(s, 3, Available, None)
    && s.requests.Keys == {1} && s.requests[1].requester == 1 && s.requests[1].categoryId == 0
    && s.requests[1].status.PendingItApproval? && s.requests[1].item.None?
  }

  predicate HandedOut(s: State) {
    && People(s) && s.items.Keys == {1, 2, 3} && Holding(s, 1) && s.requests[1].assignedTo == Some(10)
    && s.tickets == map[] && s.extensions == map[]
    && Laptop(s, 1, DeviceStatus.Assigned, Some(1)) && Laptop(s, 2, Available, None) && Laptop(s, 3, Available, None)
  }

  predicate Complained(s: State) {
    && People(s) && s.items.Keys == {1, 2, 3} && Holding(s, 1) && OpenOnFirst(s, 1) && OpenOnFirst(s, 2)
    && Laptop(s, 1, DeviceStatus.Assigned, Some(1)) && Laptop(s, 2, Available, None) && Laptop(s, 3, Available, None)
  }

  lemma StockOne(s: State, iid: Id, serialNo: string)
    requires 0 in s.categories && iid !in s.items && forall i :: i in s.items ==> s.items[i].serialNo != serialNo
    ensures var post := Apply(s, Stock(iid, serialNo));
      post == s.(items := post.items, log := post.log)
      && post.items == s.items[iid := Item(serialNo, "laptop", 0, Company, None, None, Available, None, 0)]
  {
    CommitOmits(s);
    assert PlanCreateItem(s, iid, serialNo, "laptop", 0, Company, None, None, 1, 0).Success?;
  }

  lemma Stocking()
    ensures Stocked(Apply(Apply(Apply(START, Stock(1, "a")), Stock(2, "b")), Stock(3, "c")))
  {
    StockOne(START, 1, "a");
    var s1 := Apply(START, Stock(1, "a"));
    StockOne(s1, 2, "b");
    var s2 := Apply(s1, Stock(2, "b"));
    StockOne(s2, 3, "c");
  }

  lemma FilingFirst(s: State)
    requires Stocked(s)
    ensures Filed(Apply(s, FILED))
  {
    CommitOmits(s);
    assert PlanFileRequest(s, 1, 1, 0, 0, 10, PendingItApproval, false, 0).Success?;
  }

  /** Any device can be given to the filed request. */
  lemma FiledIsAssignable(s: State, i: Id)
    requires Filed(s) && i in {1, 2, 3}
    ensures AssignGuards(s, 1, i, 0, 10).None?
    ensures PlanAssign(s, 1, i, 0, 10, false, 1, 0) == Success(AssignWrites(s, 1, i, 0, 10, false, 1, 0))
  {
  }

  lemma HandingOut(s: State)
    requires Filed(s)
    ensures HandedOut(Apply(s, ASSIGNED))
  {
    FiledIsAssignable(s, 1);
    HandedOutAfter(s, AssignWrites(s, 1, 1, 0, 10, false, 1, 0));
  }

  lemma HandedOutAfter(s: State, c: Change)
    requires Filed(s) && c == AssignWrites(s, 1, 1, 0, 10, false, 1, 0)
    ensures HandedOut(Commit(s, c))
  {
    CommitOmits(s);
  }

  lemma Complaining(s: State)
    requires HandedOut(s)
    ensures Complained(Apply(Apply(s, Complaint(1)), Complaint(2)))
  {
    assert OpenOnFirst(Apply(s, Complaint(1)), 1);
  }

  lemma ResolveCommits(s: State, tid: Id, action: Action, b: Change)
    requires tid in s.tickets && !s.tickets[tid].status.Resolved? && s.tickets[tid].itemId in s.items
    requires PlanBranch(s, tid, s.tickets[tid], action, 1, 0) == Success(b)
    ensures Apply(s, Event(It(Resolve(tid, action), 1), 0))
         == Commit(s, Operations.Closing(b, tid, s.tickets[tid], action, 1, 0))
  {
  }

  lemma ReturnCommits(s: State, rid: Id, iid: Id, next: DeviceStatus)
    requires rid in s.requests && s.requests[rid].item == Some(iid) && iid in s.items && s.items[iid].status.Assigned?
    ensures Apply(s, Event(It(CompleteReturn(rid, next), 1), 0)) == Commit(s, ReturnWrites(s, rid, iid, next, 1, 0))
  {
  }

  lemma RunOne(s: State, run: seq<Event>, a: Event)
    ensures Run(s, run + [a]) == Apply(Run(s, run), a)
  {
    assert (run + [a])[..|run|] == run;
  }

  lemma RunTwo(s: State, run: seq<Event>, a: Event, b: Event)
    ensures Run(s, run + [a, b]) == Apply(Apply(Run(s, run), a), b)
  {
    RunOne(s, run, a);
    RunOne(s, run + [a], b);
    assert run + [a, b] == run + [a] + [b];
  }

  lemma RunThree(s: State, run: seq<Event>, a: Event, b: Event, c: Event)
    ensures Run(s, run + [a, b, c]) == Apply(Apply(Apply(Run(s, run), a), b), c)
  {
    RunTwo(s, run, a, b);
    RunOne(s, run + [a, b], c);
    assert run + [a, b, c] == run + [a, b] + [c];
  }

  // ---- The stages are reached from a fresh database.

  lemma ReachStocked()
    ensures Fresh(START) && Stocked(Run(START, STOCKING))
  {
    RunThree(START, [], Stock(1, "a"), Stock(2, "b"), Stock(3, "c"));
    assert [] + STOCKING == STOCKING;
    Stocking();
  }

  lemma ReachFiled()
    ensures Filed(Run(START, FILING))
  {
    ReachStocked();
    RunOne(START, STOCKING, FILED);
    FilingFirst(Run(START, STOCKING));
  }

  lemma ReachHandedOut()
    ensures HandedOut(Run(START, HANDING))
  {
    ReachFiled();
    RunOne(START, FILING, ASSIGNED);
    HandingOut(Run(START, FILING));
  }

  lemma ReachComplained()
    ensures Complained(Run(START, COMPLAINING))
  {
    ReachHandedOut();
    RunTwo(START, HANDING, Complaint(1), Complaint(2));
    Complaining(Run(START, HANDING));
  }
}
