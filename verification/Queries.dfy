/** The read-only queries of app/repositories that decide what the services do. */
module Queries {
  import opened Wrappers
  import opened Models

  /** The row occupies the partial unique index `uq_one_active_request_per_item`. */
  predicate Indexed(r: Request) {
    r.item.Some? && !Terminal(r.status)
  }

  /** Writing `row` under `rid` would violate the unique index on (assigned_item_id, status). */
  predicate Collides(requests: map<Id, Request>, rid: Id, row: Request) {
    Indexed(row) &&
    exists q :: q in requests && q != rid && Indexed(requests[q])
                && requests[q].item == row.item && requests[q].status == row.status
  }

  /** The booking is confirmed on the item and overlaps [from, to). A null date never compares true. */
  predicate BooksOver(r: Request, item: Id, from: Time, to: Time) {
    && r.item == Some(item)
    && r.status.Assigned?
    && r.assignedFrom.Some? && r.assignedFrom.value < to
    && r.assignedTo.Some? && r.assignedTo.value > from
  }

  /** `has_overlapping_assigned_booking`. */
  predicate HasOverlap(requests: map<Id, Request>, item: Id, from: Time, to: Time, exclude: Option<Id>) {
    exists q :: q in requests && BooksOver(requests[q], item, from, to) && exclude != Some(q)
  }

  /** `has_active_devices_or_requests`. */
  predicate HoldsOrAwaits(items: map<Id, Item>, requests: map<Id, Request>, user: Id) {
    || (exists i :: i in items && items[i].owner == Some(user))
    || (exists q :: q in requests && requests[q].requester == user && !Terminal(requests[q].status))
  }

  /** `list_outbound_shipping_queue` returns the request: its joins need the item and the requester. */
  predicate InOutboundQueue(s: State, rid: Id) {
    && rid in s.requests
    && var r := s.requests[rid];
    && r.isWfh && r.status.Assigned? && r.shipInitiatedAt.None?
    && r.item.Some? && r.item.value in s.items && r.requester in s.users
  }

  // ORDER BY: identifiers sorted by a two-column key. Where the key ties, SQL leaves the order open;
  // here the smaller identifier comes first.

  datatype SortKey = SortKey(major: int, minor: int)

  predicate KeyLeq(a: SortKey, b: SortKey) {
    a.major < b.major || (a.major == b.major && a.minor <= b.minor)
  }

  predicate Before(keys: map<Id, SortKey>, a: Id, b: Id)
    requires a in keys && b in keys
  {
    if keys[a] == keys[b] then a <= b else KeyLeq(keys[a], keys[b])
  }

  /** Some identifier comes before all others. */
  lemma FirstExists(ids: set<Id>, keys: map<Id, SortKey>)
    requires ids != {} && ids <= keys.Keys
    ensures exists a :: a in ids && forall b :: b in ids ==> Before(keys, a, b)
  {
    var x :| x in ids;
    if ids != {x} {
      assert ids == (ids - {x}) + {x};
      FirstExists(ids - {x}, keys);
      var a :| a in ids - {x} && forall b :: b in ids - {x} ==> Before(keys, a, b);
      if Before(keys, a, x) {
        assert forall b :: b in ids ==> Before(keys, a, b);
      } else {
        assert forall b :: b in ids ==> Before(keys, x, b);
      }
    }
  }

  function Sorted(ids: set<Id>, keys: map<Id, SortKey>): (r: seq<Id>)
    requires ids <= keys.Keys
    ensures forall a :: a in r <==> a in ids
    ensures forall j, k :: 0 <= j < k < |r| ==> r[j] != r[k] && KeyLeq(keys[r[j]], keys[r[k]])
  {
    if ids == {} then []
    else
      FirstExists(ids, keys);
      var a :| a in ids && forall b :: b in ids ==> Before(keys, a, b);
      [a] + Sorted(ids - {a}, keys)
  }

  /** `list_open_for_item`: the unresolved tickets of an item in the order they were filed. */
  function OpenTickets(tickets: map<Id, Ticket>, item: Id): (r: seq<Id>)
    ensures forall t :: t in r <==> t in tickets && tickets[t].itemId == item && Unresolved(tickets[t])
  {
    Sorted(OpenSet(tickets, item), FilingKeys(tickets))
  }

  function OpenSet(tickets: map<Id, Ticket>, item: Id): set<Id> {
    set t | t in tickets && tickets[t].itemId == item && Unresolved(tickets[t])
  }

  function FilingKeys(tickets: map<Id, Ticket>): map<Id, SortKey> {
    map t | t in tickets :: SortKey(tickets[t].filedAt, 0)
  }

  /** Each open ticket is listed once, earlier filings first. */
  lemma OpenTicketsAsFiled(tickets: map<Id, Ticket>, item: Id)
    ensures var r := OpenTickets(tickets, item);
      forall j, k :: 0 <= j < k < |r| ==>
        r[j] != r[k] && r[j] in tickets && r[k] in tickets && tickets[r[j]].filedAt <= tickets[r[k]].filedAt
  {
    var r := Sorted(OpenSet(tickets, item), FilingKeys(tickets));
    forall j, k | 0 <= j < k < |r|
      ensures r[j] != r[k] && r[j] in tickets && r[k] in tickets && tickets[r[j]].filedAt <= tickets[r[k]].filedAt
    {
      assert r[j] in OpenSet(tickets, item) && r[k] in OpenSet(tickets, item);
      assert KeyLeq(FilingKeys(tickets)[r[j]], FilingKeys(tickets)[r[k]]);
    }
  }

  /** The bookings counted by `active_bookings_count`. */
  function ActiveBookings(requests: map<Id, Request>, item: Id): set<Id> {
    set q | q in requests && requests[q].item == Some(item) && requests[q].status.Assigned?
  }

  function NewestFirst(requests: map<Id, Request>): map<Id, SortKey> {
    map q | q in requests :: SortKey(-requests[q].createdAt, 0)
  }

  /** `get_active_for_item`: the newest active booking of the item. */
  function ActiveForItem(requests: map<Id, Request>, item: Id): Option<Id> {
    var newest := Sorted(ActiveBookings(requests, item), NewestFirst(requests));
    if newest == [] then None else Some(newest[0])
  }

  /** `list_suggested_devices`: available items of the category without an overlapping booking, by
      number of active bookings, then by the time of the last update. */
  function SuggestedDevices(s: State, category: Id, from: Time, to: Time): (r: seq<Id>)
    ensures forall i :: i in r <==>
              && i in s.items && s.items[i].categoryId == category && s.items[i].status.Available?
              && !HasOverlap(s.requests, i, from, to, None)
    ensures forall j, k :: 0 <= j < k < |r| ==>
              r[j] != r[k] && KeyLeq(SuggestionKey(s, r[j]), SuggestionKey(s, r[k]))
  {
    var ids := set i | && i in s.items && s.items[i].categoryId == category && s.items[i].status.Available?
                       && !HasOverlap(s.requests, i, from, to, None);
    Sorted(ids, map i | i in s.items :: SuggestionKey(s, i))
  }

  function SuggestionKey(s: State, i: Id): SortKey
    requires i in s.items
  {
    SortKey(|ActiveBookings(s.requests, i)|, s.items[i].updatedAt)
  }
}
