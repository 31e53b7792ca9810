/** The log tells the live state: replaying it yields owners, statuses, device pointers and the facts
    recorded once. */
module Replay {
  import opened Wrappers
  import opened Models
  import opened DeviceLog
  import opened Queries
  import opened Operations
  import opened Laws
  import opened Invariants

  // ---- Replays of a timeline.

  function ReplayOwner(t: seq<LogEntry>, requests: map<Id, Request>): Option<Id> {
    if t == [] then None else OwnerAfter(t[|t| - 1], ReplayOwner(t[..|t| - 1], requests), requests)
  }

  /** `None` where the timeline does not tell: before the first status, and after a swap-out. */
  function ReplayStatus(t: seq<LogEntry>): Option<DeviceStatus> {
    if t == [] then None else StatusAfter(t[|t| - 1], ReplayStatus(t[..|t| - 1]))
  }

  /** The last bearing entry is a swap-out. */
  predicate EndsSwappedOut(t: seq<LogEntry>) {
    t != [] && if Bears(t[|t| - 1]) then t[|t| - 1].event.SwappedOut? else EndsSwappedOut(t[..|t| - 1])
  }

  /** No entry bears. */
  predicate SaysNothing(t: seq<LogEntry>) {
    t == [] || (!Bears(t[|t| - 1]) && SaysNothing(t[..|t| - 1]))
  }

  /** The device of the last entry that gave one to the request. */
  function ReplayPointer(log: seq<LogEntry>, q: Id): Option<Id> {
    if log == [] then None
    else
      var e := log[|log| - 1];
      if Points(e, q) then Some(e.itemId) else ReplayPointer(log[..|log| - 1], q)
  }

  function FactCount(log: seq<LogEntry>, f: Fact): nat {
    if log == [] then 0
    else FactCount(log[..|log| - 1], f) + if Records(log[|log| - 1], f) then 1 else 0
  }

  // ---- Replaying past a block of entries of which at most one matters.

  predicate Seen(e: LogEntry, i: Id, milestonesOnly: bool) {
    BearsFor(e, i) && (milestonesOnly ==> e.isMilestone)
  }

  lemma {:induction false} ReplaySilent(log: seq<LogEntry>, more: seq<LogEntry>, i: Id, m: bool, requests: map<Id, Request>)
    requires forall k :: 0 <= k < |more| ==> !Seen(more[k], i, m)
    ensures ReplayOwner(Timeline(log + more, i, m), requests) == ReplayOwner(Timeline(log, i, m), requests)
    ensures ReplayStatus(Timeline(log + more, i, m)) == ReplayStatus(Timeline(log, i, m))
    ensures EndsSwappedOut(Timeline(log + more, i, m)) == EndsSwappedOut(Timeline(log, i, m))
    ensures SaysNothing(Timeline(log + more, i, m)) == SaysNothing(Timeline(log, i, m))
  {
    if more == [] {
      assert log + more == log;
    } else {
      var all := log + more;
      assert all[..|all| - 1] == log + more[..|more| - 1];
      ReplaySilent(log, more[..|more| - 1], i, m, requests);
      var rest := Timeline(all[..|all| - 1], i, m);
      assert (rest + [all[|all| - 1]])[..|rest|] == rest;
    }
  }

  lemma ReplayOne(log: seq<LogEntry>, more: seq<LogEntry>, i: Id, m: bool, requests: map<Id, Request>, k: nat)
    requires k < |more| && Seen(more[k], i, m)
    requires forall j :: 0 <= j < |more| && j != k ==> !Seen(more[j], i, m)
    ensures ReplayOwner(Timeline(log + more, i, m), requests)
         == OwnerAfter(more[k], ReplayOwner(Timeline(log, i, m), requests), requests)
    ensures ReplayStatus(Timeline(log + more, i, m)) == StatusAfter(more[k], ReplayStatus(Timeline(log, i, m)))
    ensures EndsSwappedOut(Timeline(log + more, i, m)) == more[k].event.SwappedOut?
    ensures !SaysNothing(Timeline(log + more, i, m))
  {
    var upTo := log + more[..k] + [more[k]];
    assert upTo[..|upTo| - 1] == log + more[..k];
    ReplaySilent(log, more[..k], i, m, requests);
    var rest := Timeline(log + more[..k], i, m);
    assert (rest + [more[k]])[..|rest|] == rest;
    assert log + more == upTo + more[k + 1..];
    ReplaySilent(upTo, more[k + 1..], i, m, requests);
  }

  lemma {:induction false} PointerSilent(log: seq<LogEntry>, more: seq<LogEntry>, q: Id)
    requires forall k :: 0 <= k < |more| ==> !Points(more[k], q)
    ensures ReplayPointer(log + more, q) == ReplayPointer(log, q)
  {
    if more == [] {
      assert log + more == log;
    } else {
      assert (log + more)[..|log + more| - 1] == log + more[..|more| - 1];
      PointerSilent(log, more[..|more| - 1], q);
    }
  }

  lemma {:induction false} CountBlock(log: seq<LogEntry>, more: seq<LogEntry>, f: Fact)
    requires forall j, k :: 0 <= j < k < |more| ==> !(Records(more[j], f) && Records(more[k], f))
    ensures FactCount(log + more, f)
         == FactCount(log, f) + if exists k :: 0 <= k < |more| && Records(more[k], f) then 1 else 0
  {
    if more == [] {
      assert log + more == log;
    } else {
      var n := |more| - 1;
      assert (log + more)[..|log + more| - 1] == log + more[..n];
      CountBlock(log, more[..n], f);
      if k :| 0 <= k < n && Records(more[k], f) {
        assert Records(more[..n][k], f);
      }
    }
  }

  // ---- The invariants, and that one lawful change keeps each.

  ghost predicate OwnerTold(s: State, i: Id, m: bool) {
    ReplayOwner(Timeline(s.log, i, m), s.requests) == OwnerIn(s, i)
  }

  /** The full view tells the status or nothing; the milestone view tells it up to shipping. */
  ghost predicate StatusTold(s: State, i: Id, m: bool) {
    var told := ReplayStatus(Timeline(s.log, i, m));
    told.Some? ==>
      i in s.items && if m then Collapse(told.value) == Collapse(s.items[i].status) else told.value == s.items[i].status
  }

  /** The full view leaves the status open exactly after a swap-out. */
  ghost predicate StatusKnown(s: State, i: Id) {
    i in s.items ==> (ReplayStatus(Timeline(s.log, i, false)).None? <==> EndsSwappedOut(Timeline(s.log, i, false)))
  }

  /** Entry `k` starts from the status the earlier entries of its item end in. */
  ghost predicate Linked(log: seq<LogEntry>, k: nat)
    requires k < |log|
  {
    var told := ReplayStatus(Timeline(log[..k], log[k].itemId, false));
    log[k].fromValue.Some? && told.Some? ==> told == log[k].fromValue
  }

  ghost predicate PointerTold(s: State, q: Id) {
    ReplayPointer(s.log, q) == PointerIn(s, q)
  }

  ghost predicate FactTold(s: State, f: Fact) {
    FactCount(s.log, f) == if Holds(s, f) then 1 else 0
  }

  /** Requests keep their requester, so replays of old entries do not change. */
  lemma {:induction false} OwnerReplayStable(t: seq<LogEntry>, old_: map<Id, Request>, new_: map<Id, Request>)
    requires forall k :: 0 <= k < |t| && t[k].requestId.Some? ==> t[k].requestId.value in old_
    requires forall q :: q in old_ ==> q in new_ && new_[q].requester == old_[q].requester
    ensures ReplayOwner(t, old_) == ReplayOwner(t, new_)
  {
    if t != [] { OwnerReplayStable(t[..|t| - 1], old_, new_); }
  }

  lemma {:induction false} TimelineWithin(log: seq<LogEntry>, i: Id, m: bool)
    ensures forall k :: 0 <= k < |Timeline(log, i, m)| ==>
              Timeline(log, i, m)[k] in log && Timeline(log, i, m)[k].itemId == i
  {
    if log != [] { TimelineWithin(log[..|log| - 1], i, m); }
  }

  lemma RequestersKept(s: State, c: Change)
    requires RowsLaw(s, c)
    ensures var post := Commit(s, c);
      forall q :: q in s.requests ==> q in post.requests && post.requests[q].requester == s.requests[q].requester
  {
    forall q | q in s.requests ensures Commit(s, c).requests[q].requester == s.requests[q].requester {
      if q in c.requests { assert RequestStep(s, Commit(s, c), q); }
    }
  }

  lemma OwnerToldBefore(s: State, c: Change, i: Id, m: bool)
    requires Wf(s) && RowsLaw(s, c) && OwnerTold(s, i, m)
    ensures ReplayOwner(Timeline(s.log, i, m), Commit(s, c).requests) == OwnerIn(s, i)
  {
    TimelineWithin(s.log, i, m);
    RequestersKept(s, c);
    OwnerReplayStable(Timeline(s.log, i, m), s.requests, Commit(s, c).requests);
  }

  lemma ReplayStep(s: State, c: Change, i: Id, m: bool)
    requires ItemLaw(s, c, i)
    requires ReplayOwner(Timeline(s.log, i, m), Commit(s, c).requests) == OwnerIn(s, i) && StatusTold(s, i, m)
    requires i !in s.items ==> ReplayStatus(Timeline(s.log, i, m)).None?
    ensures OwnerTold(Commit(s, c), i, m) && StatusTold(Commit(s, c), i, m)
  {
    var post := Commit(s, c);
    if k :| 0 <= k < |c.entries| && BearsFor(c.entries[k], i) {
      assert EntryTells(s, post, c.entries[k]);
      if Seen(c.entries[k], i, m) {
        ReplayOne(s.log, c.entries, i, m, post.requests, k);
      } else {
        ReplaySilent(s.log, c.entries, i, m, post.requests);
      }
    } else {
      ReplaySilent(s.log, c.entries, i, m, post.requests);
    }
  }

  lemma StatusKnownStep(s: State, c: Change, i: Id)
    requires ItemLaw(s, c, i) && StatusKnown(s, i)
    ensures StatusKnown(Commit(s, c), i)
  {
    if k :| 0 <= k < |c.entries| && BearsFor(c.entries[k], i) {
      assert EntryTells(s, Commit(s, c), c.entries[k]);
      ReplayOne(s.log, c.entries, i, false, s.requests, k);
    } else {
      ReplaySilent(s.log, c.entries, i, false, s.requests);
    }
  }

  lemma LinkedStep(s: State, c: Change, j: nat)
    requires ItemLaw(s, c, if j < |c.entries| then c.entries[j].itemId else 0)
    requires j < |c.entries| && StatusTold(s, c.entries[j].itemId, false)
    ensures Linked(s.log + c.entries, |s.log| + j)
  {
    var e := c.entries[j];
    var log := s.log + c.entries;
    assert log[..|s.log| + j] == s.log + c.entries[..j];
    if e.fromValue.Some? {
      assert BearsFor(e, e.itemId);
      ReplaySilent(s.log, c.entries[..j], e.itemId, false, s.requests);
    }
  }

  lemma PointerStep(s: State, c: Change, q: Id)
    requires PointerLaw(s, c, q) && PointerTold(s, q)
    ensures PointerTold(Commit(s, c), q)
  {
    if k :| 0 <= k < |c.entries| && Points(c.entries[k], q) {
      var upTo := s.log + c.entries[..k + 1];
      assert s.log + c.entries == upTo + c.entries[k + 1..];
      PointerSilent(upTo, c.entries[k + 1..], q);
    } else {
      PointerSilent(s.log, c.entries, q);
    }
  }

  lemma FactStep(s: State, c: Change, f: Fact)
    requires FactLaw(s, c, f) && FactTold(s, f)
    ensures FactTold(Commit(s, c), f)
  {
    CountBlock(s.log, c.entries, f);
  }

  // ---- Over every run.

  ghost predicate Told(s: State) {
    && (forall i, m :: OwnerTold(s, i, m) && StatusTold(s, i, m))
    && (forall i :: StatusKnown(s, i))
    && (forall k :: 0 <= k < |s.log| ==> Linked(s.log, k))
    && (forall q :: PointerTold(s, q))
    && (forall f :: FactTold(s, f))
  }

  lemma {:induction false} UnmentionedItem(log: seq<LogEntry>, i: Id, m: bool)
    requires forall k :: 0 <= k < |log| ==> log[k].itemId != i
    ensures Timeline(log, i, m) == []
  {
    if log != [] { UnmentionedItem(log[..|log| - 1], i, m); }
  }

  lemma ItemToldStep(s: State, c: Change, now: Time, i: Id, m: bool)
    requires Wf(s) && Lawful(s, c, now) && OwnerTold(s, i, m) && StatusTold(s, i, m)
    ensures OwnerTold(Commit(s, c), i, m) && StatusTold(Commit(s, c), i, m)
  {
    ShapeGivesItemLaw(s, c, i);
    OwnerToldBefore(s, c, i, m);
    if i !in s.items { UnmentionedItem(s.log, i, m); }
    ReplayStep(s, c, i, m);
  }

  lemma LinksStep(s: State, c: Change, k: nat)
    requires Shape(s, c) && k < |s.log + c.entries|
    requires if k < |s.log| then Linked(s.log, k) else StatusTold(s, c.entries[k - |s.log|].itemId, false)
    ensures Linked(s.log + c.entries, k)
  {
    if k < |s.log| {
      assert (s.log + c.entries)[..k] == s.log[..k];
    } else {
      ShapeGivesItemLaw(s, c, c.entries[k - |s.log|].itemId);
      LinkedStep(s, c, k - |s.log|);
    }
  }

  lemma ToldStep(s: State, e: Event)
    requires Wf(s) && Told(s)
    ensures Told(Apply(s, e))
  {
    match Plan(s, e)
    case Failure(_) =>
    case Success(c) =>
      EveryChangeIsLawful(s, e, c);
      ToldAfter(s, c, e.now);
  }

  lemma ToldAfter(s: State, c: Change, now: Time)
    requires Wf(s) && Lawful(s, c, now) && Told(s)
    ensures Told(Commit(s, c))
  {
    var post := Commit(s, c);
    forall i, m ensures OwnerTold(post, i, m) && StatusTold(post, i, m) { ItemToldStep(s, c, now, i, m); }
    forall i ensures StatusKnown(post, i) { ShapeGivesItemLaw(s, c, i); StatusKnownStep(s, c, i); }
    forall k | 0 <= k < |post.log| ensures Linked(post.log, k) { LinksStep(s, c, k); }
    forall q ensures PointerTold(post, q) { PointerStep(s, c, q); }
    forall f ensures FactTold(post, f) { FactStep(s, c, f); }
  }

  lemma {:induction false} ReachableTold(s: State, run: seq<Event>)
    requires Fresh(s)
    ensures Told(Run(s, run))
  {
    if run != [] {
      var before := run[..|run| - 1];
      ReachableTold(s, before);
      ReachableWf(s, before);
      ToldStep(Run(s, before), run[|run| - 1]);
    }
  }

  // ---- The theorems, for every run from a fresh database and with no discipline assumed.

  /** The owner of a device is what its timeline replays to, in the full and in the milestone view. */
  lemma OwnerReplay(s: State, run: seq<Event>, i: Id, milestonesOnly: bool)
    requires Fresh(s) && i in Run(s, run).items
    ensures var r := Run(s, run);
      r.items[i].owner == ReplayOwner(Timeline(r.log, i, milestonesOnly), r.requests)
  {
    ReachableTold(s, run);
    assert OwnerTold(Run(s, run), i, milestonesOnly);
  }

  /** The full timeline replays to the status of the device, and says nothing exactly after a swap-out. */
  lemma StatusReplay(s: State, run: seq<Event>, i: Id)
    requires Fresh(s) && i in Run(s, run).items
    ensures var r := Run(s, run);
      var t := Timeline(r.log, i, false);
      ReplayStatus(t) == if EndsSwappedOut(t) then None else Some(r.items[i].status)
  {
    ReachableTold(s, run);
    assert StatusTold(Run(s, run), i, false) && StatusKnown(Run(s, run), i);
  }

  /** Every logged `from_value` is the status the earlier entries of the device end in: no gaps. */
  lemma StatusChain(s: State, run: seq<Event>, k: nat)
    requires Fresh(s) && k < |Run(s, run).log| && Run(s, run).log[k].fromValue.Some?
    ensures var log := Run(s, run).log;
      var told := ReplayStatus(Timeline(log[..k], log[k].itemId, false));
      told.Some? ==> log[k].fromValue == told
  {
    ReachableTold(s, run);
    assert Linked(Run(s, run).log, k);
  }

  /** A request points at the device of the last entry that gave it one, or nowhere. */
  lemma PointerReplay(s: State, run: seq<Event>, q: Id)
    requires Fresh(s) && q in Run(s, run).requests
    ensures var r := Run(s, run); r.requests[q].item == ReplayPointer(r.log, q)
  {
    ReachableTold(s, run);
    assert PointerTold(Run(s, run), q);
  }

  /** A request has one assignment entry if its assigned dates are set, and none otherwise. */
  lemma AssignedOnce(s: State, run: seq<Event>, q: Id)
    requires Fresh(s) && q in Run(s, run).requests
    ensures var r := Run(s, run);
      FactCount(r.log, AssignmentOf(q)) == if r.requests[q].assignedFrom.Some? then 1 else 0
  {
    ReachableTold(s, run);
    assert FactTold(Run(s, run), AssignmentOf(q));
  }
}
