/** app/db/session.py and app/repositories/base.py: the session whose rows the services change in place. */
module Sessions {
  import opened Wrappers
  import opened Models
  import opened DeviceLog
  import opened Queries
  import opened Operations

  /** What a service call ends in: a normal return, or an exception. */
  datatype Reply = Done | Raised(error: Error)

  /** The call did what was planned: it committed the change, or raised the planned error (and then may
      leave rows half written, for the rollback to undo). */
  predicate Performed(before: State, plan: Outcome, after: State, reply: Reply) {
    match plan
    case Success(c) => reply == Done && after == Commit(before, c)
    case Failure(e) => reply == Raised(e)
  }

  lemma MergeNothing<V>(m: map<Id, V>)
    ensures m + map[] == m
  {
  }

  /** Tables a change leaves out stay as they are. */
  lemma CommitOmits(s: State)
    ensures s.items + map[] == s.items && s.requests + map[] == s.requests && s.tickets + map[] == s.tickets
    ensures s.extensions + map[] == s.extensions && s.users + map[] == s.users && s.log + [] == s.log
  {
    MergeNothing(s.items);
    MergeNothing(s.requests);
    MergeNothing(s.tickets);
    MergeNothing(s.extensions);
    MergeNothing(s.users);
  }

  /** The index check after the flush looks at the same rows as one before it. */
  lemma ClashAfterFlush(requests: map<Id, Request>, id: Id, row: Request)
    ensures Collides(requests + map[id := row], id, row) == Collides(requests, id, row)
  {
    var after := requests + map[id := row];
    assert forall q :: q in requests && q != id ==> q in after && after[q] == requests[q];
  }

  class Session {
    var items: map<Id, Item>
    var requests: map<Id, Request>
    var tickets: map<Id, Ticket>
    var extensions: map<Id, Extension>
    var users: map<Id, User>
    var categories: set<Id>
    var log: seq<LogEntry>

    constructor (s: State)
      ensures Snapshot() == s
    {
      items, requests, tickets, extensions := s.items, s.requests, s.tickets, s.extensions;
      users, categories, log := s.users, s.categories, s.log;
    }

    function Snapshot(): State
      reads this
    {
      State(items, requests, tickets, extensions, users, categories, log)
    }

    method Rollback(s: State)
      modifies this
      ensures Snapshot() == s
    {
      items, requests, tickets, extensions := s.items, s.requests, s.tickets, s.extensions;
      users, categories, log := s.users, s.categories, s.log;
    }

    method PutItem(id: Id, row: Item, now: Time)
      requires id in items
      modifies this`items
      ensures items == old(items) + map[id := Touched(old(items[id]), row, now)]
    {
      items := items[id := Touched(items[id], row, now)];
    }

    method AddItem(id: Id, row: Item)
      modifies this`items
      ensures items == old(items) + map[id := row]
    {
      items := items[id := row];
    }

    method PutRequest(id: Id, row: Request)
      modifies this`requests
      ensures requests == old(requests) + map[id := row]
    {
      requests := requests[id := row];
    }

    method PutTicket(id: Id, row: Ticket)
      modifies this`tickets
      ensures tickets == old(tickets) + map[id := row]
    {
      tickets := tickets[id := row];
    }

    method PutExtension(id: Id, row: Extension)
      modifies this`extensions
      ensures extensions == old(extensions) + map[id := row]
    {
      extensions := extensions[id := row];
    }

    method PutUser(id: Id, row: User)
      modifies this`users
      ensures users == old(users) + map[id := row]
    {
      users := users[id := row];
    }

    /** The flushed request violates the unique index against some other row. */
    predicate Clashes(id: Id)
      requires id in requests
      reads this
    {
      Collides(requests, id, requests[id])
    }

    /** `DeviceLogService.append`. */
    method Append(
      now: Time, itemId: Id, event: DeviceLogEvent, actorId: Option<Id>, actorRole: ActorRole,
      requestId: Option<Id> := None, ticketId: Option<Id> := None, extensionId: Option<Id> := None,
      fromValue: Option<DeviceStatus> := None, toValue: Option<DeviceStatus> := None,
      milestone: Option<bool> := None)
      modifies this`log
      ensures log == old(log) + [NewEntry(now, itemId, event, actorId, actorRole, requestId, ticketId, extensionId,
                                          fromValue, toValue, milestone)]
    {
      log := log + [NewEntry(now, itemId, event, actorId, actorRole, requestId, ticketId, extensionId,
                             fromValue, toValue, milestone)];
    }
  }
}
