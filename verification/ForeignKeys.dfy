/** The foreign keys that decide nothing: categories, managers, requesters of tickets and extensions, swap
    targets. Together with `Invariants.ReachableWf` they are all the modelled ones. */
module ForeignKeys {
  import opened Wrappers
  import opened Models
  import opened Queries
  import opened Operations
  import opened Laws
  import opened Invariants

  predicate Exists(s: State, user: Option<Id>) {
    user.Some? ==> user.value in s.users
  }

  predicate ItemKeys(s: State, i: Item) {
    i.categoryId in s.categories
  }

  predicate RequestKeys(s: State, r: Request) {
    r.categoryId in s.categories && r.requester in s.users && Exists(s, r.manager)
  }

  predicate TicketKeys(s: State, t: Ticket) {
    t.requester in s.users && (t.swappedTo.Some? ==> t.swappedTo.value in s.items)
  }

  predicate ExtensionKeys(s: State, x: Extension) {
    x.requester in s.users
  }

  ghost predicate KeysOk(s: State) {
    && (forall i :: i in s.items ==> ItemKeys(s, s.items[i]))
    && (forall q :: q in s.requests ==> RequestKeys(s, s.requests[q]))
    && (forall t :: t in s.tickets ==> TicketKeys(s, s.tickets[t]))
    && (forall x :: x in s.extensions ==> ExtensionKeys(s, s.extensions[x]))
    && (forall u :: u in s.users ==> Exists(s, s.users[u].managerId))
  }

  /** The keys of the rows a change writes point at rows there were before it. */
  ghost predicate WritesKeys(s: State, c: Change) {
    && (forall i :: i in c.items ==> ItemKeys(s, c.items[i]))
    && (forall q :: q in c.requests ==> RequestKeys(s, c.requests[q]))
    && (forall t :: t in c.tickets ==> TicketKeys(s, c.tickets[t]))
    && (forall x :: x in c.extensions ==> ExtensionKeys(s, c.extensions[x]))
    && (forall u :: u in c.users ==> Exists(s, c.users[u].managerId))
  }

  lemma KeysStayOk(s: State, c: Change)
    requires KeysOk(s) && WritesKeys(s, c)
    ensures KeysOk(Commit(s, c))
  {
    var post := Commit(s, c);
    forall t | t in post.tickets ensures TicketKeys(post, post.tickets[t]) {
      assert TicketKeys(s, post.tickets[t]);
    }
    forall q | q in post.requests ensures RequestKeys(post, post.requests[q]) {
      assert RequestKeys(s, post.requests[q]);
    }
  }

  lemma AssignWritesKeys(s: State, op: ItOp, actor: Id, now: Time, c: Change)
    requires KeysOk(s) && (op.Assign? || op.DirectAssign?) && PlanIt(s, op, actor, now) == Success(c)
    ensures WritesKeys(s, c)
  {
  }

  lemma TransitWritesKeys(s: State, op: ItOp, actor: Id, now: Time, c: Change)
    requires KeysOk(s) && (op.Ship? || op.ConfirmDelivery? || op.Start?) && PlanIt(s, op, actor, now) == Success(c)
    ensures WritesKeys(s, c)
  {
  }

  lemma ReturnWritesKeys(s: State, op: ItOp, actor: Id, now: Time, c: Change)
    requires KeysOk(s) && op.CompleteReturn? && PlanIt(s, op, actor, now) == Success(c)
    ensures WritesKeys(s, c)
  {
  }

  lemma ResolveWritesKeys(s: State, tid: Id, action: Action, actor: Id, now: Time, c: Change)
    requires KeysOk(s) && PlanResolve(s, tid, action, actor, now) == Success(c)
    ensures WritesKeys(s, c)
  {
  }

  lemma DeskWritesKeys(s: State, op: ItOp, actor: Id, now: Time, c: Change)
    requires KeysOk(s) && !MovesDevices(op) && PlanIt(s, op, actor, now) == Success(c)
    ensures WritesKeys(s, c)
  {
  }

  lemma EnvWritesKeys(s: State, op: EnvOp, now: Time, c: Change)
    requires KeysOk(s) && PlanEnv(s, op, now) == Success(c)
    ensures WritesKeys(s, c)
  {
  }

  lemma KeysStep(s: State, e: Event)
    requires KeysOk(s)
    ensures KeysOk(Apply(s, e))
  {
    if Plan(s, e).Success? {
      var c := Plan(s, e).value;
      match e.op {
        case Env(op) => EnvWritesKeys(s, op, e.now, c);
        case It(op, actor) =>
          if op.Resolve? { ResolveWritesKeys(s, op.tid, op.action, actor, e.now, c); }
          else if op.Assign? || op.DirectAssign? { AssignWritesKeys(s, op, actor, e.now, c); }
          else if op.CompleteReturn? { ReturnWritesKeys(s, op, actor, e.now, c); }
          else if MovesDevices(op) { TransitWritesKeys(s, op, actor, e.now, c); }
          else { DeskWritesKeys(s, op, actor, e.now, c); }
      }
      KeysStayOk(s, c);
    }
  }

  /** If the managers of the first users exist, none of these keys ever dangles. */
  lemma {:induction false} ReachableKeys(s: State, run: seq<Event>)
    requires Fresh(s) && forall u :: u in s.users ==> Exists(s, s.users[u].managerId)
    ensures KeysOk(Run(s, run))
  {
    if run != [] {
      ReachableKeys(s, run[..|run| - 1]);
      KeysStep(Run(s, run[..|run| - 1]), run[|run| - 1]);
    }
  }
}
