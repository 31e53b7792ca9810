/** The milestone view: which entries it shows, what it tells of the status, and when it tells nothing. */
module Milestones {
  import opened Wrappers
  import opened Models
  import opened DeviceLog
  import opened Queries
  import opened Operations
  import opened Laws
  import opened OperationLaws
  import opened Invariants
  import opened Replay
  import opened Lifecycle
  import opened Grammar

  predicate InTransit(status: DeviceStatus) {
    status.ShippingPending? || status.ReturnShippingPending?
  }

  /** The call sets a shipping status by hand. The schemas of both requests refuse that, the services do not. */
  predicate NamesShipping(e: Event) {
    e.op.It? &&
    match e.op.it
    case ChangeStatus(_, status) => InTransit(status)
    case CompleteReturn(_, next) => InTransit(next)
    case _ => false
  }

  /** The flag of an entry: the map's, except that a swap shows both its entries. */
  predicate Flagged(e: LogEntry) {
    e.isMilestone <==> EventMilestone(e.event) || e.event.SwappedOut? || e.event.SwappedIn?
  }

  ghost predicate FlagsOk(c: Change) {
    forall k :: 0 <= k < |c.entries| ==> Flagged(c.entries[k])
  }

  /** New devices are available. */
  ghost predicate StartsAvailable(s: State, c: Change) {
    forall i :: i in c.items && i !in s.items ==> c.items[i].status.Available?
  }

  /** No milestone of the change moves a device into transit. */
  ghost predicate HidesTransit(c: Change) {
    forall k :: 0 <= k < |c.entries| && c.entries[k].isMilestone && c.entries[k].toValue.Some? ==>
      !InTransit(c.entries[k].toValue.value)
  }

  // ---- Every operation.

  lemma MovesFlag(s: State, op: ItOp, actor: Id, now: Time, c: Change)
    requires MovesDevices(op) && !op.CompleteReturn? && !op.Resolve? && PlanIt(s, op, actor, now) == Success(c)
    ensures FlagsOk(c) && StartsAvailable(s, c) && HidesTransit(c)
  {
  }

  lemma ReturnFlags(s: State, rid: Id, next: DeviceStatus, actor: Id, now: Time, c: Change)
    requires PlanCompleteReturn(s, rid, next, actor, now) == Success(c)
    ensures FlagsOk(c) && StartsAvailable(s, c) && (!InTransit(next) ==> HidesTransit(c))
  {
    ReturnChangeHolds(s, rid, next, actor, now, c);
    ReturnChangeFlags(s, rid, s.requests[rid].item.value, next, actor, now, c);
  }

  lemma ReturnChangeFlags(s: State, rid: Id, iid: Id, next: DeviceStatus, actor: Id, now: Time, c: Change)
    requires ReturnChange(s, rid, iid, next, actor, now, c)
    ensures FlagsOk(c) && StartsAvailable(s, c) && (!InTransit(next) ==> HidesTransit(c))
  {
  }

  lemma ResolveFlags(s: State, tid: Id, action: Action, actor: Id, now: Time, c: Change)
    requires PlanResolve(s, tid, action, actor, now) == Success(c)
    ensures FlagsOk(c) && StartsAvailable(s, c) && HidesTransit(c)
  {
  }

  lemma DeskFlags(s: State, op: ItOp, actor: Id, now: Time, c: Change)
    requires !MovesDevices(op) && PlanIt(s, op, actor, now) == Success(c)
    ensures FlagsOk(c) && StartsAvailable(s, c)
    ensures (op.ChangeStatus? ==> !InTransit(op.status)) ==> HidesTransit(c)
  {
  }

  lemma EnvFlags(s: State, op: EnvOp, now: Time, c: Change)
    requires PlanEnv(s, op, now) == Success(c)
    ensures FlagsOk(c) && StartsAvailable(s, c) && HidesTransit(c)
  {
  }

  lemma EveryChangeFlags(s: State, e: Event, c: Change)
    requires Plan(s, e) == Success(c)
    ensures FlagsOk(c) && StartsAvailable(s, c) && (!NamesShipping(e) ==> HidesTransit(c))
  {
    match e.op
    case Env(op) => EnvFlags(s, op, e.now, c);
    case It(op, actor) =>
      if op.CompleteReturn? { ReturnFlags(s, op.rid, op.next, actor, e.now, c); }
      else if op.Resolve? { ResolveFlags(s, op.tid, op.action, actor, e.now, c); }
      else if MovesDevices(op) { MovesFlag(s, op, actor, e.now, c); }
      else { DeskFlags(s, op, actor, e.now, c); }
  }

  // ---- What the view tells, and when it is silent.

  function Shown(s: State, i: Id): Option<DeviceStatus> {
    ReplayStatus(Timeline(s.log, i, true))
  }

  /** Silent exactly after a swap-out, or for a device that was never given out nor moved by hand. */
  predicate SilentRightly(s: State, i: Id) {
    i in s.items ==>
      var t := Timeline(s.log, i, true);
      && (ReplayStatus(t).None? <==> EndsSwappedOut(t) || SaysNothing(t))
      && (SaysNothing(t) ==> s.items[i].status.Available?)
  }

  /** What is told is the status with transit shown as assigned. */
  predicate ToldExactly(s: State, i: Id) {
    i in s.items && Shown(s, i).Some? ==> Shown(s, i).value == Collapse(s.items[i].status)
  }

  /** One milestone bears on the device: the view tells what it says. */
  lemma SeenStep(s: State, c: Change, i: Id, k: nat)
    requires k < |c.entries| && Seen(c.entries[k], i, true) && EntryTells(s, Commit(s, c), c.entries[k])
    requires forall j :: 0 <= j < |c.entries| && j != k ==> !Seen(c.entries[j], i, true)
    ensures SilentRightly(Commit(s, c), i) && (HidesTransit(c) ==> ToldExactly(Commit(s, c), i))
  {
    ReplayOne(s.log, c.entries, i, true, s.requests, k);
  }

  /** No milestone bears on it: at most it moved within an assignment, or it is new. */
  lemma UnseenStep(s: State, c: Change, i: Id)
    requires SilentRightly(s, i) && forall k :: 0 <= k < |c.entries| ==> !Seen(c.entries[k], i, true)
    requires i in Commit(s, c).items ==>
               if i in s.items then Collapse(Commit(s, c).items[i].status) == Collapse(s.items[i].status)
               else Commit(s, c).items[i].status.Available? && Timeline(s.log, i, true) == []
    ensures SilentRightly(Commit(s, c), i) && (ToldExactly(s, i) ==> ToldExactly(Commit(s, c), i))
  {
    ReplaySilent(s.log, c.entries, i, true, s.requests);
  }

  lemma MilestoneStep(s: State, c: Change, i: Id)
    requires ItemLaw(s, c, i) && StartsAvailable(s, c) && SilentRightly(s, i)
    requires i !in s.items ==> Timeline(s.log, i, true) == []
    ensures SilentRightly(Commit(s, c), i) && (HidesTransit(c) && ToldExactly(s, i) ==> ToldExactly(Commit(s, c), i))
  {
    if k :| 0 <= k < |c.entries| && BearsFor(c.entries[k], i) {
      assert EntryTells(s, Commit(s, c), c.entries[k]);
      forall j | 0 <= j < |c.entries| && j != k ensures !Seen(c.entries[j], i, true) { assert j < k || k < j; }
      if c.entries[k].isMilestone { SeenStep(s, c, i, k); } else { UnseenStep(s, c, i); }
    } else {
      UnseenStep(s, c, i);
    }
  }

  /** A milestone that moves a device into transit is told as it stands. */
  lemma TransitShows(s: State, c: Change, k: nat)
    requires k < |c.entries| && c.entries[k].isMilestone && !c.entries[k].event.SwappedIn? && !c.entries[k].event.SwappedOut?
    requires c.entries[k].toValue.Some? && InTransit(c.entries[k].toValue.value)
    requires ItemLaw(s, c, c.entries[k].itemId)
    ensures !ToldExactly(Commit(s, c), c.entries[k].itemId)
  {
    var e := c.entries[k];
    assert BearsFor(e, e.itemId) && EntryTells(s, Commit(s, c), e);
    forall j | 0 <= j < |c.entries| && j != k ensures !Seen(c.entries[j], e.itemId, true) {
      assert j < k || k < j;
    }
    ReplayOne(s.log, c.entries, e.itemId, true, s.requests, k);
  }

  lemma ShippingIsLogged(s: State, e: Event, c: Change)
    requires NamesShipping(e) && Plan(s, e) == Success(c)
    ensures |c.entries| > 0 && c.entries[0].isMilestone && c.entries[0].toValue.Some? && InTransit(c.entries[0].toValue.value)
    ensures !c.entries[0].event.SwappedIn? && !c.entries[0].event.SwappedOut?
  {
  }

  ghost predicate AllExact(s: State) {
    forall i :: ToldExactly(s, i)
  }

  ghost predicate AllSilentRightly(s: State) {
    forall i :: SilentRightly(s, i)
  }

  lemma NewIsUnmentioned(s: State, i: Id)
    requires Wf(s) && i !in s.items
    ensures Timeline(s.log, i, true) == []
  {
    UnmentionedItem(s.log, i, true);
  }

  lemma SilenceKept(s: State, e: Event)
    requires Wf(s) && AllSilentRightly(s)
    ensures AllSilentRightly(Apply(s, e))
  {
    if Plan(s, e).Success? {
      var c := Plan(s, e).value;
      EveryChangeIsLawful(s, e, c);
      EveryChangeFlags(s, e, c);
      forall i ensures SilentRightly(Commit(s, c), i) {
        ShapeGivesItemLaw(s, c, i);
        if i !in s.items { NewIsUnmentioned(s, i); }
        MilestoneStep(s, c, i);
      }
    }
  }

  /** A successful call keeps the milestone view exact if and only if it sets no shipping status by hand. */
  lemma ExactKeptIff(s: State, e: Event)
    requires Wf(s) && AllSilentRightly(s) && AllExact(s) && Succeeds(s, e)
    ensures AllExact(Apply(s, e)) <==> !NamesShipping(e)
  {
    var c := Plan(s, e).value;
    EveryChangeIsLawful(s, e, c);
    EveryChangeFlags(s, e, c);
    if NamesShipping(e) {
      ShippingIsLogged(s, e, c);
      ShapeGivesItemLaw(s, c, c.entries[0].itemId);
      TransitShows(s, c, 0);
    } else {
      forall i ensures ToldExactly(Commit(s, c), i) {
        ShapeGivesItemLaw(s, c, i);
        if i !in s.items { NewIsUnmentioned(s, i); }
        MilestoneStep(s, c, i);
      }
    }
  }

  // ---- Over runs.

  lemma {:induction false} ReachableSilence(s: State, run: seq<Event>)
    requires Fresh(s)
    ensures AllSilentRightly(Run(s, run))
  {
    if run != [] {
      var before := run[..|run| - 1];
      ReachableSilence(s, before);
      ReachableWf(s, before);
      SilenceKept(Run(s, before), run[|run| - 1]);
    }
  }

  /** The successful call `k` of the run sets a shipping status by hand. */
  ghost predicate ShipsByHand(s: State, run: seq<Event>, k: nat)
    requires k < |run|
  {
    NamesShipping(run[k]) && Succeeds(At(s, run, k), run[k])
  }

  lemma {:induction false} ExactUpTo(s: State, run: seq<Event>, n: nat)
    requires Fresh(s) && n <= |run| && forall k :: 0 <= k < n ==> !ShipsByHand(s, run, k)
    ensures AllExact(At(s, run, n))
  {
    if n > 0 {
      ExactUpTo(s, run, n - 1);
      AtNext(s, run, n - 1);
      ReachableWf(s, run[..n - 1]);
      ReachableSilence(s, run[..n - 1]);
      assert !ShipsByHand(s, run, n - 1);
      if Succeeds(At(s, run, n - 1), run[n - 1]) { ExactKeptIff(At(s, run, n - 1), run[n - 1]); }
    }
  }

  /** The milestone view is exact at every point of a run if and only if no call of the run sets a shipping
      status by hand. */
  lemma ExactThroughoutIff(s: State, run: seq<Event>)
    requires Fresh(s)
    ensures (forall n :: 0 <= n <= |run| ==> AllExact(At(s, run, n)))
        <==> (forall k :: 0 <= k < |run| ==> !ShipsByHand(s, run, k))
  {
    if k :| 0 <= k < |run| && ShipsByHand(s, run, k) {
      if AllExact(At(s, run, k)) {
        ReachableWf(s, run[..k]);
        ReachableSilence(s, run[..k]);
        AtNext(s, run, k);
        ExactKeptIff(At(s, run, k), run[k]);
        assert !AllExact(At(s, run, k + 1));
      }
    } else {
      forall n | 0 <= n <= |run| ensures AllExact(At(s, run, n)) { ExactUpTo(s, run, n); }
    }
  }

  /** On every run of calls the schemas accept, the milestone view tells exactly the status with transit
      shown as assigned. It tells nothing exactly after a swap-out, and for a device that was never given
      out nor moved by hand; such a device is available and unowned. */
  lemma MilestoneStatus(s: State, run: seq<Event>, i: Id)
    requires Fresh(s) && (forall k :: 0 <= k < |run| && run[k].op.It? ==> Accepted(run[k].op.it))
    requires i in Run(s, run).items
    ensures var r := Run(s, run);
      var t := Timeline(r.log, i, true);
      && ReplayStatus(t) == (if EndsSwappedOut(t) || SaysNothing(t) then None else Some(Collapse(r.items[i].status)))
      && (SaysNothing(t) ==> r.items[i].status.Available? && r.items[i].owner.None?)
  {
    forall k | 0 <= k < |run| ensures !ShipsByHand(s, run, k) {}
    ExactUpTo(s, run, |run|);
    assert run[..|run|] == run;
    ReachableSilence(s, run);
    assert ToldExactly(Run(s, run), i) && SilentRightly(Run(s, run), i);
    OwnerReplay(s, run, i, true);
    if SaysNothing(Timeline(Run(s, run).log, i, true)) {
      NothingGivesNobody(Timeline(Run(s, run).log, i, true), Run(s, run).requests);
    }
  }

  lemma {:induction false} NothingGivesNobody(t: seq<LogEntry>, requests: map<Id, Request>)
    requires SaysNothing(t)
    ensures ReplayOwner(t, requests).None?
  {
    if t != [] { NothingGivesNobody(t[..|t| - 1], requests); }
  }

  /** Whatever is called, what is told agrees with the status up to transit, and silence is as above. */
  lemma MilestoneStatusOfAnyRun(s: State, run: seq<Event>, i: Id)
    requires Fresh(s) && i in Run(s, run).items
    ensures var r := Run(s, run);
      var t := Timeline(r.log, i, true);
      && (ReplayStatus(t).None? <==> EndsSwappedOut(t) || SaysNothing(t))
      && (ReplayStatus(t).Some? ==> Collapse(ReplayStatus(t).value) == Collapse(r.items[i].status))
  {
    ReachableTold(s, run);
    ReachableSilence(s, run);
    assert StatusTold(Run(s, run), i, true) && SilentRightly(Run(s, run), i);
  }

  /** In every reachable log exactly the creation, the edits, the shipping moves, the automatic closings and
      the extensions are hidden from the milestone view. */
  lemma HiddenEntries(s: State, run: seq<Event>, k: nat)
    requires Fresh(s) && k < |Run(s, run).log|
    ensures var e := Run(s, run).log[k];
      !e.isMilestone <==>
        || e.event.DeviceCreated? || e.event.DeviceEdited?
        || e.event.ShipOutboundInitiated? || e.event.ShipOutboundCompleted? || e.event.ReturnShipInitiated?
        || e.event.SupportAutoClosed?
        || e.event.ExtensionRequested? || e.event.ExtensionApproved? || e.event.ExtensionRejected?
  {
    FlagsFollowMap(s, run, k);
    EveryEntryHasForm(s, run, k);
  }

  /** In every reachable log an entry is a milestone exactly if the map says so or it belongs to a swap. */
  lemma {:induction false} FlagsFollowMap(s: State, run: seq<Event>, k: nat)
    requires Fresh(s) && k < |Run(s, run).log|
    ensures var e := Run(s, run).log[k];
      e.isMilestone <==> EventMilestone(e.event) || e.event.SwappedOut? || e.event.SwappedIn?
  {
    if run != [] {
      var before := Run(s, run[..|run| - 1]);
      if k < |before.log| { FlagsFollowMap(s, run[..|run| - 1], k); }
      if Plan(before, run[|run| - 1]).Success? {
        var c := Plan(before, run[|run| - 1]).value;
        EveryChangeFlags(before, run[|run| - 1], c);
        if k >= |before.log| { assert Flagged(c.entries[k - |before.log|]); }
      }
    }
  }
}
