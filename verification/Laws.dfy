/** What every committed change has in common, whichever operation made it.

    The laws are proved once per operation; the theorems about runs use only the laws. */
module Laws {
  import opened Wrappers
  import opened Models
  import opened DeviceLog
  import opened Queries
  import opened Operations

  // ---- Reading the log: which entries bear on the owner or the status of their item.

  predicate Gives(e: LogEntry) {
    e.event.Assigned? || e.event.ClientAssigned? || e.event.SwappedIn?
  }

  predicate Releases(e: LogEntry) {
    e.event.ReturnReceived? || e.event.SwappedOut? || e.event.DeviceCreated?
  }

  predicate Bears(e: LogEntry) {
    Gives(e) || Releases(e) || e.toValue.Some? || e.fromValue.Some?
  }

  predicate BearsFor(e: LogEntry, item: Id) {
    e.itemId == item && Bears(e)
  }

  /** The owner after an entry: the requester of the entry's request, nobody, or whoever it was. */
  function OwnerAfter(e: LogEntry, prior: Option<Id>, requests: map<Id, Request>): Option<Id> {
    if Gives(e) then
      if e.requestId.Some? && e.requestId.value in requests then Some(requests[e.requestId.value].requester) else None
    else if Releases(e) then None
    else prior
  }

  /** The status after an entry; a swapped-out entry does not record it. */
  function StatusAfter(e: LogEntry, prior: Option<DeviceStatus>): Option<DeviceStatus> {
    if e.event.SwappedOut? then None
    else if e.event.SwappedIn? then Some(DeviceStatus.Assigned)
    else if e.toValue.Some? then e.toValue
    else prior
  }

  /** The milestone view does not show the two shipping statuses. */
  function Collapse(status: DeviceStatus): DeviceStatus {
    if status.ShippingPending? || status.ReturnShippingPending? then DeviceStatus.Assigned else status
  }

  function OwnerIn(s: State, item: Id): Option<Id> {
    if item in s.items then s.items[item].owner else None
  }

  // ---- Well-formed states: the constraints the schema and the guards maintain.

  predicate RequestWf(s: State, r: Request) {
    && r.requester in s.users
    && (r.item.Some? ==> r.item.value in s.items)
    && (r.assignedFrom.Some? ==> r.item.Some?)
    && (r.status.Assigned? ==> r.assignedFrom.Some? && r.assignedTo.Some?)
    && (r.status.Requested? || r.status.PendingMgrApproval? || r.status.PendingItApproval? ==> r.assignedFrom.None?)
    && (r.status.PendingMgrApproval? ==> r.requiresMgr)
  }

  predicate TicketWf(s: State, t: Ticket) {
    && t.itemId in s.items
    && (t.requestId.Some? ==> t.requestId.value in s.requests)
    && (if t.status.Resolved? then (t.autoClosed <==> t.resolution.None?) && (t.autoClosed <==> t.resolvedBy.None?)
        else !t.autoClosed && t.resolution.None? && t.resolvedBy.None?)
  }

  predicate ExtensionWf(s: State, x: Extension) {
    x.requestId in s.requests && s.requests[x.requestId].assignedFrom.Some?
  }

  /** Foreign keys of a log row, and the rule that only an automatic closing has no human actor. */
  predicate EntryWf(s: State, e: LogEntry) {
    && e.itemId in s.items
    && (e.requestId.Some? ==> e.requestId.value in s.requests)
    && (e.ticketId.Some? ==> e.ticketId.value in s.tickets)
    && (e.extensionId.Some? ==> e.extensionId.value in s.extensions)
    && (e.actorRole.System? <==> e.event.SupportAutoClosed?)
    && (e.actorId.None? <==> e.event.SupportAutoClosed?)
  }

  /** The unique index holds: no two live requests agree on a non-null item and on their status. */
  ghost predicate IndexOk(requests: map<Id, Request>) {
    forall q, r :: q in requests && r in requests && q != r && Indexed(requests[q]) && Indexed(requests[r])
      ==> requests[q].item != requests[r].item || requests[q].status != requests[r].status
  }

  ghost predicate Wf(s: State) {
    && (forall q :: q in s.requests ==> RequestWf(s, s.requests[q]))
    && (forall i :: i in s.items && s.items[i].owner.Some? ==> s.items[i].owner.value in s.users)
    && (forall t :: t in s.tickets ==> TicketWf(s, s.tickets[t]))
    && (forall x :: x in s.extensions ==> ExtensionWf(s, s.extensions[x]))
    && (forall k :: 0 <= k < |s.log| ==> EntryWf(s, s.log[k]))
    && IndexOk(s.requests)
  }

  // ---- The laws of one committed change.

  /** The bearing entry of an item records exactly what happened to it. */
  predicate EntryTells(s: State, post: State, e: LogEntry) {
    var i := e.itemId;
    && i in post.items
    && post.items[i].owner == OwnerAfter(e, OwnerIn(s, i), post.requests)
    && (e.event.SwappedOut? || StatusAfter(e, None) == Some(post.items[i].status))
    && (e.fromValue.Some? ==> i in s.items && s.items[i].status == e.fromValue.value)
    && (!e.isMilestone ==> post.items[i].owner == OwnerIn(s, i))
    && (!e.isMilestone && i in s.items ==> Collapse(post.items[i].status) == Collapse(s.items[i].status))
  }

  /** Per item, at most one entry of the change bears on it, and without one nothing moved. */
  predicate ItemLaw(s: State, c: Change, i: Id) {
    var post := Commit(s, c);
    && (forall j, k :: 0 <= j < k < |c.entries| ==> !(BearsFor(c.entries[j], i) && BearsFor(c.entries[k], i)))
    && (forall k :: 0 <= k < |c.entries| && BearsFor(c.entries[k], i) ==> EntryTells(s, post, c.entries[k]))
    && ((forall k :: 0 <= k < |c.entries| ==> !BearsFor(c.entries[k], i)) && i in post.items ==>
          i in s.items && post.items[i].owner == s.items[i].owner && post.items[i].status == s.items[i].status)
  }

  /** The form every change has: only its first two entries can bear, and only two items can move. */
  predicate Shape(s: State, c: Change) {
    var post := Commit(s, c);
    && (forall k :: 2 <= k < |c.entries| ==> !Bears(c.entries[k]))
    && (|c.entries| > 0 && Bears(c.entries[0]) ==> EntryTells(s, post, c.entries[0]))
    && (|c.entries| > 1 && Bears(c.entries[1]) ==>
          EntryTells(s, post, c.entries[1]) && c.entries[0].itemId != c.entries[1].itemId)
    && (forall i :: i in c.items ==>
          || (|c.entries| > 0 && BearsFor(c.entries[0], i))
          || (|c.entries| > 1 && BearsFor(c.entries[1], i))
          || (i in s.items && c.items[i].owner == s.items[i].owner && c.items[i].status == s.items[i].status))
  }

  /** How far a request still has to go; 0 is a terminal status. */
  function Rank(r: Request): nat {
    match r.status
    case Requested => 5
    case PendingItApproval => if r.requiresMgr then 2 else 4
    case PendingMgrApproval => 3
    case Assigned => 1
    case _ => 0
  }

  /** A written request keeps what never changes, does not move backwards, and respects the index. */
  predicate RequestStep(s: State, post: State, q: Id)
    requires q in post.requests
  {
    var new_ := post.requests[q];
    && RequestWf(post, new_)
    && (!Collides(s.requests, q, new_)
        || (q in s.requests && new_.item == s.requests[q].item && new_.status == s.requests[q].status))
    && (q in s.requests ==>
          var old_ := s.requests[q];
          && new_.requester == old_.requester
          && Rank(new_) <= Rank(old_)
          && (old_.assignedFrom.Some? ==> new_.assignedFrom.Some?)
          && (old_.shipInitiatedAt.Some? ==> new_.shipInitiatedAt.Some?)
          && (old_.status.Assigned? ==> new_.isWfh == old_.isWfh)
          && (old_.status.Completed? ==> new_.status.Completed?))
  }

  predicate TicketStep(s: State, post: State, t: Id)
    requires t in post.tickets
  {
    var new_ := post.tickets[t];
    && TicketWf(post, new_)
    && (t in s.tickets && s.tickets[t].status.Resolved? ==> new_ == s.tickets[t])
  }

  predicate ExtensionStep(s: State, post: State, x: Id)
    requires x in post.extensions
  {
    var new_ := post.extensions[x];
    && ExtensionWf(post, new_)
    && (x in s.extensions && !s.extensions[x].status.Pending? ==> new_.status == s.extensions[x].status)
  }

  /** The entry moves its request's device pointer. */
  predicate Points(e: LogEntry, q: Id) {
    Gives(e) && e.requestId == Some(q)
  }

  function PointerIn(s: State, q: Id): Option<Id> {
    if q in s.requests then s.requests[q].item else None
  }

  /** The pointer moves exactly with the giving entry, of which there is at most one. */
  predicate PointerRule(entries: seq<LogEntry>, q: Id, before: Option<Id>, after: Option<Id>) {
    && (forall j, k :: 0 <= j < k < |entries| ==> !(Gives(entries[j]) && Gives(entries[k])))
    && (forall k :: 0 <= k < |entries| && Points(entries[k], q) ==> after == Some(entries[k].itemId))
    && ((forall k :: 0 <= k < |entries| ==> !Points(entries[k], q)) ==> after == before)
  }

  predicate PointerLaw(s: State, c: Change, q: Id) {
    PointerRule(c.entries, q, PointerIn(s, q), PointerIn(Commit(s, c), q))
  }

  // ---- Facts that are recorded once: an assignment, the closing of a ticket, the decision on an extension.

  datatype Fact = AssignmentOf(rid: Id) | ClosingOf(tid: Id) | DecisionOf(xid: Id)

  predicate Records(e: LogEntry, f: Fact) {
    match f
    case AssignmentOf(rid) => (e.event.Assigned? || e.event.ClientAssigned?) && e.requestId == Some(rid)
    case ClosingOf(tid) => (e.event.SupportResolved? || e.event.SupportAutoClosed?) && e.ticketId == Some(tid)
    case DecisionOf(xid) => (e.event.ExtensionApproved? || e.event.ExtensionRejected?) && e.extensionId == Some(xid)
  }

  predicate Holds(s: State, f: Fact) {
    match f
    case AssignmentOf(rid) => rid in s.requests && s.requests[rid].assignedFrom.Some?
    case ClosingOf(tid) => tid in s.tickets && s.tickets[tid].status.Resolved?
    case DecisionOf(xid) => xid in s.extensions && !s.extensions[xid].status.Pending?
  }

  /** A fact becomes true exactly with its record, and is recorded at most once. */
  predicate FactRule(entries: seq<LogEntry>, f: Fact, before: bool, after: bool) {
    && (forall j, k :: 0 <= j < k < |entries| ==> !(Records(entries[j], f) && Records(entries[k], f)))
    && (forall k :: 0 <= k < |entries| && Records(entries[k], f) ==> !before && after)
    && ((forall k :: 0 <= k < |entries| ==> !Records(entries[k], f)) ==> after == before)
  }

  predicate FactLaw(s: State, c: Change, f: Fact) {
    FactRule(c.entries, f, Holds(s, f), Holds(Commit(s, c), f))
  }

  /** At most one request is written, and every written row takes a legal step. */
  ghost predicate RowsLaw(s: State, c: Change) {
    var post := Commit(s, c);
    && (forall q, r :: q in c.requests && r in c.requests ==> q == r)
    && (forall i :: i in c.items && c.items[i].owner.Some? ==> c.items[i].owner.value in s.users)
    && (forall q :: q in c.requests ==> RequestStep(s, post, q))
    && (forall t :: t in c.tickets ==> TicketStep(s, post, t))
    && (forall x :: x in c.extensions ==> ExtensionStep(s, post, x))
  }

  /** Every entry is a legal row stamped with the transaction time. */
  ghost predicate EntriesLaw(s: State, c: Change, now: Time) {
    forall k :: 0 <= k < |c.entries| ==> EntryWf(Commit(s, c), c.entries[k]) && c.entries[k].occurredAt == now
  }

  /** Everything one committed change guarantees. */
  ghost predicate Lawful(s: State, c: Change, now: Time) {
    && Shape(s, c)
    && RowsLaw(s, c)
    && EntriesLaw(s, c, now)
    && (forall q :: PointerLaw(s, c, q))
    && (forall f :: FactLaw(s, c, f))
  }

  /** A change of at most one entry and at most one row per table, with its laws on just those rows. */
  ghost predicate Simple(s: State, c: Change, now: Time, i: Id, q: Id, t: Id, x: Id) {
    var post := Commit(s, c);
    && c.items.Keys <= {i} && c.requests.Keys <= {q} && c.tickets.Keys <= {t} && c.extensions.Keys <= {x}
    && (i in c.items && c.items[i].owner.Some? ==> c.items[i].owner.value in s.users)
    && (q in c.requests ==> RequestStep(s, post, q))
    && (t in c.tickets ==> TicketStep(s, post, t) && Holds(s, ClosingOf(t)) == Holds(post, ClosingOf(t)))
    && (x in c.extensions ==> ExtensionStep(s, post, x))
    && if |c.entries| == 0 then
         && (i in c.items ==> SameCustody(s, post, i))
         && PointerIn(post, q) == PointerIn(s, q)
         && Holds(s, AssignmentOf(q)) == Holds(post, AssignmentOf(q))
         && Holds(s, DecisionOf(x)) == Holds(post, DecisionOf(x))
       else
         var e := c.entries[0];
         && |c.entries| == 1 && EntryWf(post, e) && e.occurredAt == now
         && !e.event.SupportResolved? && !e.event.SupportAutoClosed?
         && (if Bears(e) then e.itemId == i && EntryTells(s, post, e) else i in c.items ==> SameCustody(s, post, i))
         && (if Gives(e)
             then e.requestId == Some(q) && PointerIn(post, q) == Some(i) && e.itemId == i
                  && !Holds(s, AssignmentOf(q)) && Holds(post, AssignmentOf(q)) && !e.event.SwappedIn?
             else PointerIn(post, q) == PointerIn(s, q) && Holds(s, AssignmentOf(q)) == Holds(post, AssignmentOf(q)))
         && (if e.event.ExtensionApproved? || e.event.ExtensionRejected?
             then e.extensionId == Some(x) && !Holds(s, DecisionOf(x)) && Holds(post, DecisionOf(x))
             else Holds(s, DecisionOf(x)) == Holds(post, DecisionOf(x)))
  }

  predicate SameCustody(s: State, post: State, i: Id) {
    i in s.items && i in post.items && post.items[i].owner == s.items[i].owner && post.items[i].status == s.items[i].status
  }

  lemma SimpleShape(s: State, c: Change, now: Time, i: Id, q: Id, t: Id, x: Id)
    requires Simple(s, c, now, i, q, t, x)
    ensures Shape(s, c)
  {
  }

  lemma SimpleRows(s: State, c: Change, now: Time, i: Id, q: Id, t: Id, x: Id)
    requires Simple(s, c, now, i, q, t, x)
    ensures RowsLaw(s, c) && EntriesLaw(s, c, now)
  {
  }

  lemma SimplePointers(s: State, c: Change, now: Time, i: Id, q: Id, t: Id, x: Id, p: Id)
    requires Simple(s, c, now, i, q, t, x)
    ensures PointerLaw(s, c, p)
  {
    if |c.entries| == 1 { assert Points(c.entries[0], p) <==> Gives(c.entries[0]) && p == q; }
  }

  lemma SimpleFacts(s: State, c: Change, now: Time, i: Id, q: Id, t: Id, x: Id, f: Fact)
    requires Simple(s, c, now, i, q, t, x)
    ensures FactLaw(s, c, f)
  {
    match f
    case AssignmentOf(p) => SimpleAssignments(s, c, now, i, q, t, x, p);
    case ClosingOf(p) => SimpleClosings(s, c, now, i, q, t, x, p);
    case DecisionOf(p) => SimpleDecisions(s, c, now, i, q, t, x, p);
  }

  lemma SimpleAssignments(s: State, c: Change, now: Time, i: Id, q: Id, t: Id, x: Id, p: Id)
    requires Simple(s, c, now, i, q, t, x)
    ensures FactLaw(s, c, AssignmentOf(p))
  {
    if |c.entries| == 1 { assert Records(c.entries[0], AssignmentOf(p)) <==> Gives(c.entries[0]) && p == q; }
  }

  lemma SimpleClosings(s: State, c: Change, now: Time, i: Id, q: Id, t: Id, x: Id, p: Id)
    requires Simple(s, c, now, i, q, t, x)
    ensures FactLaw(s, c, ClosingOf(p))
  {
    assert forall k :: 0 <= k < |c.entries| ==> !Records(c.entries[k], ClosingOf(p));
  }

  lemma SimpleDecisions(s: State, c: Change, now: Time, i: Id, q: Id, t: Id, x: Id, p: Id)
    requires Simple(s, c, now, i, q, t, x)
    ensures FactLaw(s, c, DecisionOf(p))
  {
    if |c.entries| == 1 { assert Records(c.entries[0], DecisionOf(p)) ==> p == x; }
  }

  lemma SimpleIsLawful(s: State, c: Change, now: Time, i: Id, q: Id, t: Id, x: Id)
    requires Simple(s, c, now, i, q, t, x)
    ensures Lawful(s, c, now)
  {
    SimpleShape(s, c, now, i, q, t, x);
    SimpleRows(s, c, now, i, q, t, x);
    forall p ensures PointerLaw(s, c, p) { SimplePointers(s, c, now, i, q, t, x, p); }
    forall f ensures FactLaw(s, c, f) { SimpleFacts(s, c, now, i, q, t, x, f); }
  }

  lemma ShapeGivesItemLaw(s: State, c: Change, i: Id)
    requires Shape(s, c)
    ensures ItemLaw(s, c, i)
  {
    if |c.entries| > 0 { assert c.entries[0] == c.entries[0]; }
    if |c.entries| > 1 { assert c.entries[1] == c.entries[1]; }
  }
}
