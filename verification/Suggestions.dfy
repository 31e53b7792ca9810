/** `suggested_devices` against `assign`: what the list promises. */
module Suggestions {
  import opened Wrappers
  import opened Models
  import opened Queries
  import opened Operations
  import opened Laws
  import opened Invariants

  /** The unique index: a device has at most one active booking. */
  lemma BookedAtMostOnce(s: State, i: Id)
    requires Wf(s)
    ensures |ActiveBookings(s.requests, i)| <= 1
  {
    var b := ActiveBookings(s.requests, i);
    if q :| q in b {
      forall p | p in b ensures p == q {}
      assert b == {q};
    }
  }

  /** `get_active_for_item` never has to choose: it returns a request exactly if that one is assigned to the
      device. */
  lemma ActiveForItemIsExact(s: State, run: seq<Event>, i: Id, q: Id)
    requires Fresh(s)
    ensures var r := Run(s, run).requests;
      ActiveForItem(r, i) == Some(q) <==> q in r && r[q].item == Some(i) && r[q].status.Assigned?
  {
    ReachableWf(s, run);
    var r := Run(s, run).requests;
    var newest := Sorted(ActiveBookings(r, i), NewestFirst(r));
    BookedAtMostOnce(Run(s, run), i);
    if q in ActiveBookings(r, i) {
      assert ActiveBookings(r, i) == {q};
      assert newest[0] in newest;
    }
  }

  /** A pending request excludes no booking from the overlap check: it has none. */
  lemma ExclusionIsIdle(s: State, rid: Id, i: Id, from: Time, to: Time)
    requires rid in s.requests && s.requests[rid].status.PendingItApproval?
    ensures HasOverlap(s.requests, i, from, to, Some(rid)) == HasOverlap(s.requests, i, from, to, None)
  {
    if HasOverlap(s.requests, i, from, to, None) {
      var q :| q in s.requests && BooksOver(s.requests[q], i, from, to);
      assert q != rid;
    }
  }

  /** With the guards passed, the index rejects the assignment exactly if the device has a booking. */
  lemma IndexSeesBookings(s: State, rid: Id, row: Request, i: Id)
    requires rid in s.requests && s.requests[rid].status.PendingItApproval?
    requires row.status.Assigned? && row.item == Some(i)
    ensures Collides(s.requests, rid, row) <==> ActiveBookings(s.requests, i) != {}
  {
    if q :| q in ActiveBookings(s.requests, i) {
      assert q != rid && Indexed(s.requests[q]);
    }
    if Collides(s.requests, rid, row) {
      var q :| q in s.requests && q != rid && Indexed(s.requests[q])
               && s.requests[q].item == row.item && s.requests[q].status == row.status;
      assert q in ActiveBookings(s.requests, i);
    }
  }

  /** Fewer active bookings first, then the device longest untouched. */
  predicate InOrder(r: State, i: Id, j: Id) {
    && i in r.items && j in r.items
    && var a, b := |ActiveBookings(r.requests, i)|, |ActiveBookings(r.requests, j)|;
       a < b || (a == b && r.items[i].updatedAt <= r.items[j].updatedAt)
  }

  /** The suggestion list of a pending request, in every reachable state: sorted by (bookings, last
      update), without duplicates, every count 0 or 1, zero counts first. Its devices without a booking are
      exactly those `assign` accepts over the requested range; its devices with one are exactly those that pass every
      guard of `assign` and are turned away by the unique index. */
  lemma SuggestionsAreExact(s: State, run: seq<Event>, rid: Id, isWfh: bool, actor: Id, now: Time)
    requires Fresh(s)
    requires rid in Run(s, run).requests && Run(s, run).requests[rid].status.PendingItApproval?
    ensures var r := Run(s, run);
      var q := r.requests[rid];
      var list := SuggestedDevices(r, q.categoryId, q.requestedFrom, q.requestedTo);
      && (forall j, k :: 0 <= j < k < |list| ==>
            list[j] != list[k] && InOrder(r, list[j], list[k]))
      && (forall i :: i in list ==> |ActiveBookings(r.requests, i)| <= 1)
      && (forall j, k :: 0 <= j < k < |list| && |ActiveBookings(r.requests, list[k])| == 0 ==>
            |ActiveBookings(r.requests, list[j])| == 0)
      && (forall i :: PlanAssign(r, rid, i, q.requestedFrom, q.requestedTo, isWfh, actor, now).Success?
            <==> i in list && |ActiveBookings(r.requests, i)| == 0)
      && (forall i :: PlanAssign(r, rid, i, q.requestedFrom, q.requestedTo, isWfh, actor, now) == Failure(IndexConflict)
            <==> i in list && |ActiveBookings(r.requests, i)| == 1)
  {
    ReachableWf(s, run);
    var r := Run(s, run);
    var q := r.requests[rid];
    var list := SuggestedDevices(r, q.categoryId, q.requestedFrom, q.requestedTo);
    forall i ensures OneSuggestion(r, rid, i, i in list, isWfh, actor, now) {
      SuggestionIsExact(r, rid, i, isWfh, actor, now);
    }
    forall i | i in list ensures |ActiveBookings(r.requests, i)| <= 1 { BookedAtMostOnce(r, i); }
    ListInOrder(r, q.categoryId, q.requestedFrom, q.requestedTo);
  }

  lemma ListInOrder(r: State, category: Id, from: Time, to: Time)
    ensures var list := SuggestedDevices(r, category, from, to);
      forall j, k :: 0 <= j < k < |list| ==> list[j] != list[k] && InOrder(r, list[j], list[k])
  {
    var list := SuggestedDevices(r, category, from, to);
    forall j, k | 0 <= j < k < |list| ensures list[j] != list[k] && InOrder(r, list[j], list[k]) {
      assert KeyLeq(SuggestionKey(r, list[j]), SuggestionKey(r, list[k]));
    }
  }

  predicate OneSuggestion(r: State, rid: Id, i: Id, listed: bool, isWfh: bool, actor: Id, now: Time)
    requires rid in r.requests
  {
    var q := r.requests[rid];
    var plan := PlanAssign(r, rid, i, q.requestedFrom, q.requestedTo, isWfh, actor, now);
    && (plan.Success? <==> listed && |ActiveBookings(r.requests, i)| == 0)
    && (plan == Failure(IndexConflict) <==> listed && |ActiveBookings(r.requests, i)| == 1)
  }

  lemma SuggestionIsExact(r: State, rid: Id, i: Id, isWfh: bool, actor: Id, now: Time)
    requires Wf(r) && rid in r.requests && r.requests[rid].status.PendingItApproval?
    ensures var q := r.requests[rid];
      OneSuggestion(r, rid, i, i in SuggestedDevices(r, q.categoryId, q.requestedFrom, q.requestedTo), isWfh, actor, now)
  {
    var q := r.requests[rid];
    BookedAtMostOnce(r, i);
    ExclusionIsIdle(r, rid, i, q.requestedFrom, q.requestedTo);
    IndexSeesBookings(r, rid, AssignedRequest(q, i, q.requestedFrom, q.requestedTo, isWfh, actor, now), i);
  }
}
