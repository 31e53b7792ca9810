/** The timeline view as the database returns it: ordered by `occurred_at` only.

    All entries of one transaction share their timestamp, so the view may return them in any order.
    Replays do not depend on that order, because a transaction has at most one bearing entry per item. */
module Timelines {
  import opened Wrappers
  import opened Models
  import opened DeviceLog
  import opened Queries
  import opened Operations
  import opened Laws
  import opened Invariants
  import opened Replay

  /** Transaction times strictly increase along the run. */
  ghost predicate Ticking(run: seq<Event>) {
    forall j, k :: 0 <= j < k < |run| ==> run[j].now < run[k].now
  }

  predicate Chronological(t: seq<LogEntry>) {
    forall j, k :: 0 <= j < k < |t| ==> t[j].occurredAt <= t[k].occurredAt
  }

  /** No two bearing entries of one item share a timestamp, and no entry is later than `last`. */
  ghost predicate Separated(log: seq<LogEntry>, i: Id) {
    forall j, k :: 0 <= j < k < |log| && BearsFor(log[j], i) && BearsFor(log[k], i) ==> log[j].occurredAt < log[k].occurredAt
  }

  ghost predicate Until(log: seq<LogEntry>, last: Time) {
    forall k :: 0 <= k < |log| ==> log[k].occurredAt <= last
  }

  function Bearing(t: seq<LogEntry>): seq<LogEntry> {
    if t == [] then []
    else Bearing(t[..|t| - 1]) + if Bears(t[|t| - 1]) then [t[|t| - 1]] else []
  }

  predicate Increasing(t: seq<LogEntry>) {
    forall j, k :: 0 <= j < k < |t| ==> t[j].occurredAt < t[k].occurredAt
  }

  /** Only the bearing entries count for a replay. */
  lemma {:induction false} ReplayBearing(t: seq<LogEntry>, requests: map<Id, Request>)
    ensures ReplayOwner(t, requests) == ReplayOwner(Bearing(t), requests)
    ensures ReplayStatus(t) == ReplayStatus(Bearing(t))
  {
    if t != [] {
      var rest := t[..|t| - 1];
      ReplayBearing(rest, requests);
      var b := Bearing(rest);
      assert (b + [t[|t| - 1]])[..|b|] == b;
      assert b + [] == b;
    }
  }

  lemma {:induction false} BearingMembers(t: seq<LogEntry>)
    ensures forall e :: e in Bearing(t) <==> e in t && Bears(e)
  {
    if t != [] {
      assert t == t[..|t| - 1] + [t[|t| - 1]];
      BearingMembers(t[..|t| - 1]);
    }
  }

  lemma LastOfSame(a: seq<LogEntry>, b: seq<LogEntry>)
    requires a != [] && b != [] && Increasing(a) && Increasing(b)
    requires a[|a| - 1] in b && b[|b| - 1] in a
    ensures a[|a| - 1] == b[|b| - 1]
  {
    var j :| 0 <= j < |b| && b[j] == a[|a| - 1];
    var k :| 0 <= k < |a| && a[k] == b[|b| - 1];
  }

  lemma WithoutLast(a: seq<LogEntry>)
    requires a != [] && Increasing(a)
    ensures forall e :: e in a[..|a| - 1] <==> e in a && e != a[|a| - 1]
  {
    assert a == a[..|a| - 1] + [a[|a| - 1]];
    assert forall j :: 0 <= j < |a| - 1 ==> a[j].occurredAt < a[|a| - 1].occurredAt;
  }

  ghost predicate SameMembers(a: seq<LogEntry>, b: seq<LogEntry>) {
    forall e :: e in a <==> e in b
  }

  lemma BothEmpty(a: seq<LogEntry>, b: seq<LogEntry>)
    requires SameMembers(a, b)
    ensures |a| == 0 <==> |b| == 0
  {
    assert |a| > 0 ==> a[0] in a;
    assert |b| > 0 ==> b[0] in b;
  }

  lemma StripLast(a: seq<LogEntry>, b: seq<LogEntry>)
    requires a != [] && b != [] && Increasing(a) && Increasing(b) && SameMembers(a, b)
    ensures a[|a| - 1] == b[|b| - 1] && SameMembers(a[..|a| - 1], b[..|b| - 1])
  {
    assert a[|a| - 1] in b;
    assert b[|b| - 1] in a;
    LastOfSame(a, b);
    WithoutLast(a);
    WithoutLast(b);
    var a', b' := a[..|a| - 1], b[..|b| - 1];
    forall e ensures e in a' <==> e in b' {
      assert e in a <==> e in b;
      assert e in a' <==> e in a && e != a[|a| - 1];
    }
  }

  /** Two strictly increasing arrangements of the same entries are the same. */
  lemma {:induction false} IncreasingUnique(a: seq<LogEntry>, b: seq<LogEntry>)
    requires Increasing(a) && Increasing(b) && SameMembers(a, b)
    ensures a == b
  {
    BothEmpty(a, b);
    if a != [] {
      StripLast(a, b);
      IncreasingUnique(a[..|a| - 1], b[..|b| - 1]);
      assert a == a[..|a| - 1] + [a[|a| - 1]] && b == b[..|b| - 1] + [b[|b| - 1]];
    }
  }

  /** Bearing entries with the same time are the same, and none occurs twice. */
  ghost predicate Untied(t: seq<LogEntry>) {
    && (forall e, f :: e in t && f in t && Bears(e) && Bears(f) && e.occurredAt == f.occurredAt ==> e == f)
    && (forall e :: e in t && Bears(e) ==> multiset(t)[e] == 1)
  }

  /** A chronological timeline whose bearing entries have distinct times has them strictly increasing. */
  lemma {:induction false} BearingIncreases(t: seq<LogEntry>)
    requires Chronological(t) && Untied(t)
    ensures Increasing(Bearing(t))
  {
    if t != [] {
      var rest, e := t[..|t| - 1], t[|t| - 1];
      assert t == rest + [e];
      RestUntied(rest, e);
      BearingIncreases(rest);
      if Bears(e) {
        LastIsLater(rest, e);
        BearingMembers(rest);
        AppendLater(Bearing(rest), e);
      }
    }
  }

  lemma AppendLater(b: seq<LogEntry>, e: LogEntry)
    requires Increasing(b) && forall f :: f in b ==> f.occurredAt < e.occurredAt
    ensures Increasing(b + [e])
  {
  }

  lemma RestUntied(rest: seq<LogEntry>, e: LogEntry)
    requires Chronological(rest + [e]) && Untied(rest + [e])
    ensures Chronological(rest) && Untied(rest)
  {
    var t := rest + [e];
    forall j, k | 0 <= j < k < |rest| ensures rest[j].occurredAt <= rest[k].occurredAt {
      assert t[j] == rest[j] && t[k] == rest[k];
    }
    forall f | f in rest && Bears(f) ensures multiset(rest)[f] == 1 { assert f in t; OnceInRest(rest, e, f); }
  }

  lemma OnceInRest(rest: seq<LogEntry>, e: LogEntry, f: LogEntry)
    requires f in rest && multiset(rest + [e])[f] == 1
    ensures multiset(rest)[f] == 1
  {
  }

  lemma LastIsLater(rest: seq<LogEntry>, e: LogEntry)
    requires Chronological(rest + [e]) && Untied(rest + [e]) && Bears(e)
    ensures forall f :: f in rest && Bears(f) ==> f.occurredAt < e.occurredAt
  {
    var t := rest + [e];
    assert e in t && multiset(t)[e] == 1;
    forall f | f in rest && Bears(f) ensures f.occurredAt < e.occurredAt {
      var k :| 0 <= k < |rest| && rest[k] == f;
      assert t[k] == f && t[|rest|] == e;
    }
  }

  // ---- Runs with increasing times.

  lemma EntriesApart(s: State, c: Change, now: Time, last: Time, i: Id)
    requires ItemLaw(s, c, i) && EntriesLaw(s, c, now) && last < now
    requires Separated(s.log, i) && Chronological(s.log) && Until(s.log, last)
    ensures Separated(Commit(s, c).log, i)
  {
  }

  lemma EntriesInOrder(s: State, c: Change, now: Time, last: Time)
    requires EntriesLaw(s, c, now) && last < now && Chronological(s.log) && Until(s.log, last)
    ensures Chronological(Commit(s, c).log) && Until(Commit(s, c).log, now)
  {
  }

  lemma {:induction false} ReachableApart(s: State, run: seq<Event>, i: Id)
    requires Fresh(s) && Ticking(run)
    ensures Chronological(Run(s, run).log) && Separated(Run(s, run).log, i)
    ensures run != [] ==> Until(Run(s, run).log, run[|run| - 1].now)
    ensures run == [] ==> Run(s, run).log == []
  {
    if run != [] {
      var before, e := run[..|run| - 1], run[|run| - 1];
      var p := Run(s, before);
      ReachableApart(s, before, i);
      ReachableWf(s, before);
      if Plan(p, e).Success? {
        var c := Plan(p, e).value;
        EveryChangeIsLawful(p, e, c);
        ShapeGivesItemLaw(p, c, i);
        var last := if before == [] then e.now - 1 else before[|before| - 1].now;
        EntriesApart(p, c, e.now, last, i);
        EntriesInOrder(p, c, e.now, last);
      }
    }
  }

  // ---- Any chronological arrangement of an item's timeline replays to the same.

  predicate Arrangement(t: seq<LogEntry>, timeline: seq<LogEntry>) {
    multiset(t) == multiset(timeline) && Chronological(t)
  }

  /** Bearing entries of the timeline differ in time, so each occurs once. */
  ghost predicate BearingApart(t: seq<LogEntry>) {
    forall j, k :: 0 <= j < k < |t| && Bears(t[j]) && Bears(t[k]) ==> t[j].occurredAt < t[k].occurredAt
  }

  lemma {:induction false} TimelineApart(log: seq<LogEntry>, i: Id, m: bool)
    requires Separated(log, i)
    ensures BearingApart(Timeline(log, i, m))
    ensures forall e :: e in Timeline(log, i, m) ==> e in log && e.itemId == i
  {
    if log != [] {
      var rest := log[..|log| - 1];
      TimelineApart(rest, i, m);
      var t := Timeline(rest, i, m);
      forall j | 0 <= j < |t| && Bears(t[j]) && BearsFor(log[|log| - 1], i)
        ensures t[j].occurredAt < log[|log| - 1].occurredAt
      {
        assert t[j] in rest;
      }
    }
  }

  lemma OccursOnce(t: seq<LogEntry>, e: LogEntry)
    requires BearingApart(t) && e in t && Bears(e)
    ensures multiset(t)[e] == 1
  {
    var k :| 0 <= k < |t| && t[k] == e;
    assert t == t[..k] + [e] + t[k + 1..];
    assert e !in t[..k] && e !in t[k + 1..];
  }

  lemma ArrangedBearing(t: seq<LogEntry>, timeline: seq<LogEntry>)
    requires Arrangement(t, timeline) && BearingApart(timeline) && Chronological(timeline)
    ensures Bearing(t) == Bearing(timeline)
  {
    forall e ensures e in t <==> e in timeline { assert e in multiset(t) <==> e in multiset(timeline); }
    forall e | e in timeline && Bears(e) ensures multiset(t)[e] == 1 { OccursOnce(timeline, e); }
    BearingIncreases(t);
    forall e | e in timeline && Bears(e) ensures multiset(timeline)[e] == 1 { OccursOnce(timeline, e); }
    BearingIncreases(timeline);
    BearingMembers(t);
    BearingMembers(timeline);
    IncreasingUnique(Bearing(t), Bearing(timeline));
  }

  lemma {:induction false} TimelineChronological(log: seq<LogEntry>, i: Id, m: bool)
    requires Chronological(log)
    ensures Chronological(Timeline(log, i, m))
    ensures forall e :: e in Timeline(log, i, m) ==> e in log
  {
    if log != [] {
      var rest, last := log[..|log| - 1], log[|log| - 1];
      TimelineChronological(rest, i, m);
      var t := Timeline(rest, i, m);
      forall j | 0 <= j < |t| ensures t[j].occurredAt <= last.occurredAt { assert t[j] in rest; }
    }
  }

  /** However the database orders entries of equal time, the full and the milestone timeline replay to the live owner, and to
      the status it would replay to in append order. */
  lemma TiesDoNotMatter(s: State, run: seq<Event>, i: Id, m: bool, t: seq<LogEntry>)
    requires Fresh(s) && Ticking(run)
    requires Arrangement(t, Timeline(Run(s, run).log, i, m))
    ensures var r := Run(s, run);
      && ReplayOwner(t, r.requests) == OwnerIn(r, i)
      && ReplayStatus(t) == ReplayStatus(Timeline(r.log, i, m))
  {
    var r := Run(s, run);
    var timeline := Timeline(r.log, i, m);
    ReachableApart(s, run, i);
    TimelineApart(r.log, i, m);
    TimelineChronological(r.log, i, m);
    ArrangedBearing(t, timeline);
    ReplayBearing(t, r.requests);
    ReplayBearing(timeline, r.requests);
    ReachableTold(s, run);
    assert OwnerTold(r, i, m);
  }
}
