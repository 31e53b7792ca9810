/** Deactivated users hold nothing and wait for nothing, although `assign` never looks at `is_active`. */
module Deactivation {
  import opened Wrappers
  import opened Models
  import opened DeviceLog
  import opened Queries
  import opened Operations
  import opened Laws
  import opened OperationLaws
  import opened Invariants
  import opened Lifecycle

  predicate Active(s: State, u: Id) {
    u in s.users && s.users[u].isActive
  }

  /** Every owner of a device and every requester of a live request is active. */
  ghost predicate ActiveOnly(s: State) {
    && (forall i :: i in s.items && s.items[i].owner.Some? ==> Active(s, s.items[i].owner.value))
    && (forall q :: q in s.requests && !Terminal(s.requests[q].status) ==> Active(s, s.requests[q].requester))
  }

  /** The ticket's request belongs to an inactive user. */
  predicate TiedToInactive(s: State, t: Ticket) {
    t.requestId.Some? && t.requestId.value in s.requests && !Active(s, s.requests[t.requestId.value].requester)
  }

  /** The operation swaps a device to an inactive user. */
  predicate SwapsToInactive(s: State, e: Event) {
    && e.op.It? && e.op.it.Resolve? && e.op.it.action.DoSwap?
    && e.op.it.tid in s.tickets && TiedToInactive(s, s.tickets[e.op.it.tid])
  }

  /** What a change must respect: users stay active, new owners and new live requests are active. */
  ghost predicate KeepsActive(s: State, c: Change) {
    && (forall u :: u in c.users ==> u in s.users && (s.users[u].isActive ==> c.users[u].isActive))
    && (forall i :: i in c.items && c.items[i].owner.Some? ==> Active(s, c.items[i].owner.value))
    && (forall q :: q in c.requests && !Terminal(c.requests[q].status) ==> Active(s, c.requests[q].requester))
  }

  lemma KeptActive(s: State, c: Change)
    requires ActiveOnly(s) && KeepsActive(s, c)
    ensures ActiveOnly(Commit(s, c))
  {
  }

  lemma AssignKeepsActive(s: State, op: ItOp, actor: Id, now: Time, c: Change)
    requires ActiveOnly(s) && (op.Assign? || op.DirectAssign?) && PlanIt(s, op, actor, now) == Success(c)
    ensures KeepsActive(s, c)
  {
  }

  lemma TransitKeepsActive(s: State, op: ItOp, actor: Id, now: Time, c: Change)
    requires ActiveOnly(s) && MovesDevices(op) && !op.Assign? && !op.DirectAssign? && !op.Resolve?
    requires PlanIt(s, op, actor, now) == Success(c)
    ensures KeepsActive(s, c)
  {
  }

  lemma ResolveKeepsActive(s: State, tid: Id, action: Action, actor: Id, now: Time, c: Change)
    requires ActiveOnly(s) && PlanResolve(s, tid, action, actor, now) == Success(c)
    requires action.DoSwap? ==> !TiedToInactive(s, s.tickets[tid])
    ensures KeepsActive(s, c)
  {
  }

  lemma DeskKeepsActive(s: State, op: ItOp, actor: Id, now: Time, c: Change)
    requires ActiveOnly(s) && !MovesDevices(op) && !op.Deactivate? && PlanIt(s, op, actor, now) == Success(c)
    ensures KeepsActive(s, c)
  {
  }

  lemma EnvKeepsActive(s: State, op: EnvOp, now: Time, c: Change)
    requires ActiveOnly(s) && PlanEnv(s, op, now) == Success(c)
    ensures KeepsActive(s, c)
  {
  }

  /** The guard of `deactivate` is exactly what the invariant needs. */
  lemma DeactivateKeepsActive(s: State, uid: Id, c: Change)
    requires ActiveOnly(s) && PlanDeactivate(s, uid) == Success(c)
    ensures ActiveOnly(Commit(s, c))
  {
  }

  /** A swap for an inactive requester hands the device to that user. */
  lemma SwapHandsOver(s: State, tid: Id, action: Action, actor: Id, now: Time, c: Change)
    requires PlanResolve(s, tid, action, actor, now) == Success(c) && action.DoSwap? && TiedToInactive(s, s.tickets[tid])
    ensures !ActiveOnly(Commit(s, c))
  {
    var post := Commit(s, c);
    assert post.items[action.to].owner == Some(s.requests[s.tickets[tid].requestId.value].requester);
  }

  /** An operation breaks the invariant exactly if it is a successful swap for an inactive requester. */
  lemma ActiveOnlyStep(s: State, e: Event)
    requires ActiveOnly(s)
    ensures ActiveOnly(Apply(s, e)) <==> !(SwapsToInactive(s, e) && Succeeds(s, e))
  {
    if Succeeds(s, e) {
      var c := Plan(s, e).value;
      match e.op
      case Env(op) => EnvKeepsActive(s, op, e.now, c); KeptActive(s, c);
      case It(op, actor) =>
        if SwapsToInactive(s, e) { SwapHandsOver(s, op.tid, op.action, actor, e.now, c); }
        else if op.Deactivate? { DeactivateKeepsActive(s, op.uid, c); }
        else {
          if op.Resolve? { ResolveKeepsActive(s, op.tid, op.action, actor, e.now, c); }
          else if op.Assign? || op.DirectAssign? { AssignKeepsActive(s, op, actor, e.now, c); }
          else if MovesDevices(op) { TransitKeepsActive(s, op, actor, e.now, c); }
          else { DeskKeepsActive(s, op, actor, e.now, c); }
          KeptActive(s, c);
        }
    }
  }

  ghost predicate NoSwapToInactive(s: State, run: seq<Event>) {
    forall k :: 0 <= k < |run| ==> !SwapsToInactive(At(s, run, k), run[k])
  }

  /** If no swap serves an inactive requester, then in every reachable state an inactive user owns no
      device and has no live request. */
  lemma {:induction false} InactiveHoldNothing(s: State, run: seq<Event>)
    requires Fresh(s) && NoSwapToInactive(s, run)
    ensures ActiveOnly(Run(s, run))
  {
    if run != [] {
      var n := |run| - 1;
      var before := run[..n];
      forall k | 0 <= k < |before| ensures !SwapsToInactive(At(s, before, k), before[k]) {
        assert before[..k] == run[..k] && before[k] == run[k];
      }
      InactiveHoldNothing(s, before);
      assert At(s, run, n) == Run(s, before);
      ActiveOnlyStep(Run(s, before), run[n]);
    }
  }

  /** In such a state a swap on a live request never serves an inactive user. */
  lemma LiveSwapsAreSafe(s: State, e: Event)
    requires ActiveOnly(s) && SwapsToInactive(s, e)
    ensures Terminal(s.requests[s.tickets[e.op.it.tid].requestId.value].status)
  {
  }

  /** A swap is asked for on a request that is still live. */
  predicate SwapsLive(s: State, e: Event) {
    e.op.It? && e.op.it.Resolve? && e.op.it.action.DoSwap? && e.op.it.tid in s.tickets ==>
      var t := s.tickets[e.op.it.tid];
      t.requestId.Some? && t.requestId.value in s.requests ==> !Terminal(s.requests[t.requestId.value].status)
  }

  /** So swapping for live requests only is enough over every run. */
  lemma {:induction false} LiveSwapsAreEnough(s: State, run: seq<Event>)
    requires Fresh(s) && forall k :: 0 <= k < |run| ==> SwapsLive(At(s, run, k), run[k])
    ensures ActiveOnly(Run(s, run))
  {
    if run != [] {
      var n := |run| - 1;
      var before := run[..n];
      forall k | 0 <= k < |before| ensures SwapsLive(At(s, before, k), before[k]) {
        assert before[..k] == run[..k] && before[k] == run[k];
      }
      LiveSwapsAreEnough(s, before);
      assert At(s, run, n) == Run(s, before);
      ActiveOnlyStep(Run(s, before), run[n]);
      if SwapsToInactive(Run(s, before), run[n]) { LiveSwapsAreSafe(Run(s, before), run[n]); }
    }
  }
}
