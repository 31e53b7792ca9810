/** Sessions that check first and commit later, interleaved in any order.

    A session runs the guards of `assign`, `direct_assign` or a swap against the committed state it sees,
    and later flushes its columns onto whatever rows are then committed. Only the unique index stands
    between two such sessions. */
module Race {
  import opened Wrappers
  import opened Models
  import opened Queries
  import opened Operations
  import opened Laws
  import opened Invariants
  import opened Custody

  datatype Held = Held(op: ItOp, actor: Id)

  datatype World = World(db: State, sessions: map<nat, Held>)

  datatype Step =
    | Check(k: nat, op: ItOp, actor: Id)   // session k passes its guards
    | Flush(k: nat, now: Time)             // session k flushes and commits, or hits the index and rolls back
    | Whole(e: Event)                      // any other transaction, start to end

  /** The rows the session loaded exist; a swap loaded two different devices. */
  predicate Loaded(s: State, op: ItOp) {
    match op
    case Assign(rid, iid, _, _, _) => rid in s.requests && iid in s.items
    case DirectAssign(_, iid, _, _, _) => iid in s.items
    case Resolve(tid, action) =>
      && action.DoSwap? && tid in s.tickets && s.tickets[tid].itemId in s.items && action.to in s.items
      && action.to != s.tickets[tid].itemId
      && s.tickets[tid].requestId.Some? && s.tickets[tid].requestId.value in s.requests
    case _ => false
  }

  /** The guards of the three racing operations pass. */
  predicate Passes(s: State, op: ItOp) {
    Loaded(s, op) &&
    match op
    case Assign(rid, iid, from, to, _) => AssignGuards(s, rid, iid, from, to).None?
    case DirectAssign(_, iid, emp, from, to) => DirectGuards(s, iid, emp, from, to).None?
    case Resolve(tid, action) => Unresolved(s.tickets[tid]) && SwapGuards(s, s.tickets[tid], action.to).None?
    case _ => false
  }

  /** The request row the flush writes. */
  function RequestKey(s: State, op: ItOp): Id
    requires Loaded(s, op)
  {
    if op.Resolve? then s.tickets[op.tid].requestId.value else op.rid
  }

  /** The columns the session set, on the rows committed now. */
  function Writes(s: State, h: Held, now: Time): Change
    requires Loaded(s, h.op)
  {
    match h.op
    case Assign(rid, iid, from, to, isWfh) => AssignWrites(s, rid, iid, from, to, isWfh, h.actor, now)
    case DirectAssign(rid, iid, emp, from, to) => DirectWrites(s, rid, iid, emp, from, to, h.actor, now)
    case Resolve(tid, action) =>
      var t := s.tickets[tid];
      Closing(SwapWrites(s, tid, t, action.to, action.oldNext, h.actor, now), tid, t, action, h.actor, now)
  }

  /** The index, or the primary key of a new request, rejects the flush. */
  predicate Rejected(s: State, h: Held, now: Time)
    requires Loaded(s, h.op)
  {
    var q := RequestKey(s, h.op);
    (h.op.DirectAssign? && q in s.requests) || Collides(s.requests, q, Writes(s, h, now).requests[q])
  }

  function Next(w: World, step: Step): World {
    match step
    case Check(k, op, actor) => if Passes(w.db, op) then w.(sessions := w.sessions[k := Held(op, actor)]) else w
    case Flush(k, now) =>
      if k !in w.sessions || !Loaded(w.db, w.sessions[k].op) then w
      else
        var h := w.sessions[k];
        var after := if Rejected(w.db, h, now) then w.db else Commit(w.db, Writes(w.db, h, now));
        World(after, w.sessions - {k})
    case Whole(e) => w.(db := Apply(w.db, e))
  }

  function Interleaved(w: World, steps: seq<Step>): World {
    if steps == [] then w else Next(Interleaved(w, steps[..|steps| - 1]), steps[|steps| - 1])
  }

  // ---- The index survives every transaction, without any other invariant.

  /** One request row is written, and it collides with no other or keeps its key. */
  ghost predicate RespectsIndex(s: State, c: Change) {
    && (forall q, r :: q in c.requests && r in c.requests ==> q == r)
    && (forall q :: q in c.requests ==>
          || !Collides(s.requests, q, c.requests[q])
          || (q in s.requests && c.requests[q].item == s.requests[q].item && c.requests[q].status == s.requests[q].status))
  }

  lemma IndexKept(s: State, c: Change)
    requires IndexOk(s.requests) && RespectsIndex(s, c)
    ensures IndexOk(Commit(s, c).requests)
  {
    var post := Commit(s, c).requests;
    forall q, r | q in post && r in post && q != r && q !in c.requests && Indexed(post[q]) && Indexed(post[r])
      ensures post[q].item != post[r].item || post[q].status != post[r].status
    {
    }
  }

  lemma MovesRespectIndex(s: State, op: ItOp, actor: Id, now: Time, c: Change)
    requires MovesDevices(op) && !op.Resolve? && PlanIt(s, op, actor, now) == Success(c)
    ensures RespectsIndex(s, c)
  {
  }

  lemma ResolveRespectsIndex(s: State, tid: Id, action: Action, actor: Id, now: Time, c: Change)
    requires PlanResolve(s, tid, action, actor, now) == Success(c)
    ensures RespectsIndex(s, c)
  {
  }

  lemma DeskRespectsIndex(s: State, op: ItOp, actor: Id, now: Time, c: Change)
    requires !MovesDevices(op) && PlanIt(s, op, actor, now) == Success(c)
    ensures RespectsIndex(s, c)
  {
  }

  lemma EnvRespectsIndex(s: State, op: EnvOp, now: Time, c: Change)
    requires PlanEnv(s, op, now) == Success(c)
    ensures RespectsIndex(s, c)
  {
  }

  lemma WholeKeepsIndex(s: State, e: Event)
    requires IndexOk(s.requests)
    ensures IndexOk(Apply(s, e).requests)
  {
    if Plan(s, e).Success? {
      var c := Plan(s, e).value;
      match e.op {
        case Env(op) => EnvRespectsIndex(s, op, e.now, c);
        case It(op, actor) =>
          if op.Resolve? { ResolveRespectsIndex(s, op.tid, op.action, actor, e.now, c); }
          else if MovesDevices(op) { MovesRespectIndex(s, op, actor, e.now, c); }
          else { DeskRespectsIndex(s, op, actor, e.now, c); }
      }
      IndexKept(s, c);
    }
  }

  lemma FlushKeepsIndex(s: State, h: Held, now: Time)
    requires IndexOk(s.requests) && Loaded(s, h.op) && !Rejected(s, h, now)
    ensures IndexOk(Commit(s, Writes(s, h, now)).requests)
  {
    IndexKept(s, Writes(s, h, now));
  }

  lemma {:induction false} IndexAlwaysHolds(s: State, steps: seq<Step>)
    requires Fresh(s)
    ensures IndexOk(Interleaved(World(s, map[]), steps).db.requests)
  {
    if steps != [] {
      var w := Interleaved(World(s, map[]), steps[..|steps| - 1]);
      IndexAlwaysHolds(s, steps[..|steps| - 1]);
      match steps[|steps| - 1]
      case Check(_, _, _) =>
      case Flush(k, now) =>
        if k in w.sessions && Loaded(w.db, w.sessions[k].op) && !Rejected(w.db, w.sessions[k], now) {
          FlushKeepsIndex(w.db, w.sessions[k], now);
        }
      case Whole(e) => WholeKeepsIndex(w.db, e);
    }
  }

  /** However sessions interleave, no committed state has two assigned requests on one device. */
  lemma RaceSafety(s: State, steps: seq<Step>, p: Id, q: Id, i: Id)
    requires Fresh(s)
    ensures var db := Interleaved(World(s, map[]), steps).db; HeldBy(db, p, i) && HeldBy(db, q, i) ==> p == q
  {
    IndexAlwaysHolds(s, steps);
  }

  // ---- What a session loaded stays there: rows are never deleted, and tickets keep what they are about.

  ghost predicate RowsStay(s: State, post: State) {
    && s.items.Keys <= post.items.Keys && s.requests.Keys <= post.requests.Keys && s.tickets.Keys <= post.tickets.Keys
    && forall t :: t in s.tickets ==>
         post.tickets[t].itemId == s.tickets[t].itemId && post.tickets[t].requestId == s.tickets[t].requestId
  }

  ghost predicate KeepsTies(s: State, c: Change) {
    forall t :: t in c.tickets && t in s.tickets ==>
      c.tickets[t].itemId == s.tickets[t].itemId && c.tickets[t].requestId == s.tickets[t].requestId
  }

  lemma ItKeepsTies(s: State, op: ItOp, actor: Id, now: Time, c: Change)
    requires !op.Resolve? && PlanIt(s, op, actor, now) == Success(c)
    ensures KeepsTies(s, c)
  {
  }

  lemma ResolveKeepsTies(s: State, tid: Id, action: Action, actor: Id, now: Time, c: Change)
    requires PlanResolve(s, tid, action, actor, now) == Success(c)
    ensures KeepsTies(s, c)
  {
  }

  lemma EnvKeepsTies(s: State, op: EnvOp, now: Time, c: Change)
    requires PlanEnv(s, op, now) == Success(c)
    ensures KeepsTies(s, c)
  {
  }

  lemma WholeKeepsRows(s: State, e: Event)
    ensures RowsStay(s, Apply(s, e))
  {
    if Plan(s, e).Success? {
      var c := Plan(s, e).value;
      match e.op
      case Env(op) => EnvKeepsTies(s, op, e.now, c);
      case It(op, actor) =>
        if op.Resolve? { ResolveKeepsTies(s, op.tid, op.action, actor, e.now, c); } else { ItKeepsTies(s, op, actor, e.now, c); }
    }
  }

  lemma FlushKeepsRows(s: State, h: Held, now: Time)
    requires Loaded(s, h.op)
    ensures RowsStay(s, Commit(s, Writes(s, h, now)))
  {
  }

  lemma LoadedStays(s: State, post: State, op: ItOp)
    requires RowsStay(s, post) && Loaded(s, op)
    ensures Loaded(post, op)
  {
  }

  ghost predicate AllLoaded(w: World) {
    forall k :: k in w.sessions ==> Loaded(w.db, w.sessions[k].op)
  }

  lemma StepKeepsLoaded(w: World, step: Step)
    requires AllLoaded(w)
    ensures AllLoaded(Next(w, step))
  {
    match step
    case Check(_, _, _) =>
    case Whole(e) =>
      WholeKeepsRows(w.db, e);
      forall k | k in w.sessions ensures Loaded(Next(w, step).db, w.sessions[k].op) {
        LoadedStays(w.db, Next(w, step).db, w.sessions[k].op);
      }
    case Flush(j, now) =>
      if j in w.sessions {
        FlushKeepsRows(w.db, w.sessions[j], now);
        forall k | k in w.sessions ensures Loaded(Next(w, step).db, w.sessions[k].op) {
          LoadedStays(w.db, Commit(w.db, Writes(w.db, w.sessions[j], now)), w.sessions[k].op);
        }
      }
  }

  /** Every session that passed its guards still has the rows it loaded. */
  lemma {:induction false} SessionsLoaded(s: State, steps: seq<Step>)
    ensures AllLoaded(Interleaved(World(s, map[]), steps))
  {
    if steps != [] {
      var before := steps[..|steps| - 1];
      SessionsLoaded(s, before);
      StepKeepsLoaded(Interleaved(World(s, map[]), before), steps[|steps| - 1]);
    }
  }

  // ---- Who loses.

  /** The device the session hands out. */
  function Target(op: ItOp): Id {
    match op
    case Assign(_, iid, _, _, _) => iid
    case DirectAssign(_, iid, _, _, _) => iid
    case Resolve(_, action) => if action.DoSwap? then action.to else 0
    case _ => 0
  }

  /** The status of the flushed request: a swap leaves it as it is now. */
  function FlushedStatus(s: State, op: ItOp): RequestStatus
    requires Loaded(s, op)
  {
    if op.Resolve? then s.requests[RequestKey(s, op)].status else RequestStatus.Assigned
  }

  /** Another request is on the device with that status. */
  ghost predicate Taken(s: State, rid: Id, i: Id, status: RequestStatus) {
    exists q :: q != rid && q in s.requests && s.requests[q].item == Some(i) && s.requests[q].status == status
  }

  /** A new request's identifier is taken, or the flushed request is live and another request is on the device
      with the same status. */
  ghost predicate Loses(s: State, op: ItOp)
    requires Loaded(s, op)
  {
    var rid := RequestKey(s, op);
    || (op.DirectAssign? && rid in s.requests)
    || (!Terminal(FlushedStatus(s, op)) && Taken(s, rid, Target(op), FlushedStatus(s, op)))
  }

  lemma FlushedRow(s: State, h: Held, now: Time)
    requires Loaded(s, h.op)
    ensures var row := Writes(s, h, now).requests[RequestKey(s, h.op)];
      row.status == FlushedStatus(s, h.op) && row.item == Some(Target(h.op))
  {
  }

  lemma CollidesIffTaken(s: State, q: Id, row: Request, i: Id)
    requires row.item == Some(i)
    ensures Collides(s.requests, q, row) <==> !Terminal(row.status) && Taken(s, q, i, row.status)
  {
    if p :| p != q && p in s.requests && s.requests[p].item == Some(i) && s.requests[p].status == row.status {
      assert !Terminal(row.status) ==> Indexed(s.requests[p]);
    }
    if Collides(s.requests, q, row) {
      var p :| p in s.requests && p != q && Indexed(s.requests[p])
               && s.requests[p].item == row.item && s.requests[p].status == row.status;
      assert Taken(s, q, i, row.status);
    }
  }

  lemma RejectedIffLoses(s: State, h: Held, now: Time)
    requires Loaded(s, h.op)
    ensures Rejected(s, h, now) <==> Loses(s, h.op)
  {
    FlushedRow(s, h, now);
    CollidesIffTaken(s, RequestKey(s, h.op), Writes(s, h, now).requests[RequestKey(s, h.op)], Target(h.op));
  }

  lemma FlushHandsOver(s: State, h: Held, now: Time)
    requires Loaded(s, h.op) && (h.op.DirectAssign? ==> RequestKey(s, h.op) !in s.requests)
    ensures var post, rid := Commit(s, Writes(s, h, now)), RequestKey(s, h.op);
      && rid in post.requests && post.requests[rid].item == Some(Target(h.op))
      && post.requests[rid].status == FlushedStatus(s, h.op)
      && Target(h.op) in post.items && post.items[Target(h.op)].owner == Some(post.requests[rid].requester)
  {
  }

  /** In every interleaving, a session that passed its guards flushes in vain exactly if `Loses` then holds.
      The loser changes nothing; the winner's request is on the device, whose owner is its requester. */
  lemma FlushLosesIff(s: State, steps: seq<Step>, k: nat, now: Time)
    requires k in Interleaved(World(s, map[]), steps).sessions
    ensures var w := Interleaved(World(s, map[]), steps);
      Loaded(w.db, w.sessions[k].op) && (Rejected(w.db, w.sessions[k], now) <==> Loses(w.db, w.sessions[k].op))
    ensures var w := Interleaved(World(s, map[]), steps);
      var op, post := w.sessions[k].op, Next(w, Flush(k, now)).db;
      var rid := RequestKey(w.db, op);
      if Loses(w.db, op) then post == w.db
      else
        && rid in post.requests && post.requests[rid].item == Some(Target(op))
        && post.requests[rid].status == FlushedStatus(w.db, op)
        && Target(op) in post.items && post.items[Target(op)].owner == Some(post.requests[rid].requester)
  {
    SessionsLoaded(s, steps);
    var w := Interleaved(World(s, map[]), steps);
    RejectedIffLoses(w.db, w.sessions[k], now);
    if !Loses(w.db, w.sessions[k].op) { FlushHandsOver(w.db, w.sessions[k], now); }
  }

  // ---- What a winner does to the match of requests and devices.

  /** The request takes the device: `assign` and `direct_assign`. */
  ghost predicate Takes(s: State, post: State, rid: Id, i: Id) {
    && Untouched(s, post, {rid}, {i}) && HeldBy(post, rid, i) && i in s.items && i in post.items
    && post.items[i].status.Assigned? && post.items[i].owner == Some(post.requests[rid].requester)
  }

  lemma AssignTakes(s: State, h: Held, now: Time)
    requires Loaded(s, h.op) && !h.op.Resolve?
    ensures Takes(s, Commit(s, Writes(s, h, now)), h.op.rid, Target(h.op))
  {
  }

  lemma TakesMatch(s: State, post: State, rid: Id, i: Id)
    requires Matched(s) && Takes(s, post, rid, i) && !HeldByOther(s, rid, i)
    requires forall q, j :: HeldBy(s, q, j) ==> SoleHolder(s, q, j)
    ensures Matched(post) <==> (rid in s.requests ==> StrandsNothingBut(s, rid, i))
  {
    if rid !in s.requests {
      MatchedLocally(s, post, {rid}, {i});
    } else {
      assert HolderOk(s, rid);
      ReleasedIsHeld(s, rid);
      if StrandsNothingBut(s, rid, i) {
        MatchedLocally(s, post, {rid}, {i} + Released(s, rid));
      } else {
        assert s.requests[rid].item.value in Released(s, rid);
        Stranded(s, post, {rid}, {i}, s.requests[rid].item.value);
      }
    }
  }

  /** A swap, whatever its request and its target have become. */
  ghost predicate SwapsOver(s: State, post: State, rid: Id, from: Id, to: Id, oldNext: DeviceStatus) {
    && rid in s.requests && from in s.items && to in s.items && from != to
    && Untouched(s, post, {rid}, {from, to})
    && rid in post.requests && post.requests[rid] == s.requests[rid].(item := Some(to))
    && post.items[from].owner.None? && post.items[from].status == oldNext
    && post.items[to].owner == Some(s.requests[rid].requester) && post.items[to].status.Assigned?
  }

  lemma SwapFlushSwaps(s: State, h: Held, now: Time)
    requires Loaded(s, h.op) && h.op.Resolve?
    ensures SwapsOver(s, Commit(s, Writes(s, h, now)), RequestKey(s, h.op), s.tickets[h.op.tid].itemId, h.op.action.to,
                      h.op.action.oldNext)
  {
  }

  /** The new device is held by a request of the same requester. */
  ghost predicate HeldForSame(s: State, rid: Id, to: Id)
    requires rid in s.requests
  {
    exists q :: HeldBy(s, q, to) && s.requests[q].requester == s.requests[rid].requester
  }

  ghost predicate OrderlySwapFlush(s: State, rid: Id, from: Id, to: Id, oldNext: DeviceStatus)
    requires rid in s.requests
  {
    && !InCustody(oldNext) && !HeldByOther(s, rid, from)
    && if s.requests[rid].status.Assigned? then s.requests[rid].item == Some(to) || StrandsNothingBut(s, rid, from)
       else Terminal(s.requests[rid].status) && HeldForSame(s, rid, to)
  }

  lemma SwapsOverKeeps(s: State, post: State, rid: Id, from: Id, to: Id, oldNext: DeviceStatus)
    requires Matched(s) && SwapsOver(s, post, rid, from, to, oldNext)
    requires forall q, j :: HeldBy(s, q, j) ==> SoleHolder(s, q, j)
    requires s.requests[rid].status.Assigned? ==> !HeldByOther(s, rid, to)
    requires OrderlySwapFlush(s, rid, from, to, oldNext)
    ensures Matched(post)
  {
    assert HolderOk(s, rid);
    ReleasedIsHeld(s, rid);
    if s.requests[rid].status.Assigned? {
      assert HeldBy(post, rid, to);
      MatchedLocally(s, post, {rid}, {from, to} + Released(s, rid));
    } else {
      var q :| HeldBy(s, q, to) && s.requests[q].requester == s.requests[rid].requester;
      assert HolderOk(s, q) && SoleHolder(s, q, to) && HeldBy(post, q, to);
      MatchedLocally(s, post, {rid}, {from, to});
    }
  }

  /** An assigned request's swap breaks the match as in one session. */
  lemma AssignedSwapBreaks(s: State, post: State, rid: Id, from: Id, to: Id, oldNext: DeviceStatus)
    requires Matched(s) && SwapsOver(s, post, rid, from, to, oldNext) && s.requests[rid].status.Assigned?
    requires forall q, j :: HeldBy(s, q, j) ==> SoleHolder(s, q, j)
    requires !OrderlySwapFlush(s, rid, from, to, oldNext)
    ensures !Matched(post)
  {
    if q :| q != rid && HeldBy(s, q, from) {
      Usurped(post, q, from);
    } else if InCustody(oldNext) {
      Stranded(s, post, {rid}, {from, to}, from);
    } else {
      var j := s.requests[rid].item.value;
      assert HeldBy(s, rid, j) && SoleHolder(s, rid, j);
      Stranded(s, post, {rid}, {from, to}, j);
    }
  }

  /** A stale request cannot hold the device it is given. */
  lemma StaleSwapBreaks(s: State, post: State, rid: Id, from: Id, to: Id, oldNext: DeviceStatus)
    requires Matched(s) && SwapsOver(s, post, rid, from, to, oldNext) && !s.requests[rid].status.Assigned?
    requires !OrderlySwapFlush(s, rid, from, to, oldNext)
    ensures !Matched(post)
  {
    if !Terminal(s.requests[rid].status) {
      assert !HolderOk(post, rid);
    } else if q :| q != rid && HeldBy(s, q, from) {
      Usurped(post, q, from);
    } else if InCustody(oldNext) {
      Stranded(s, post, {rid}, {from, to}, from);
    } else if q :| HeldBy(s, q, to) {
      assert q != rid;
      Usurped(post, q, to);
    } else {
      Stranded(s, post, {rid}, {from, to}, to);
    }
  }

  /** What keeps a winning flush from breaking the match. */
  ghost predicate OrderlyFlush(s: State, op: ItOp)
    requires Loaded(s, op)
  {
    match op
    case Assign(rid, iid, _, _, _) => StrandsNothingBut(s, rid, iid)
    case DirectAssign(_, _, _, _, _) => true
    case Resolve(tid, action) => OrderlySwapFlush(s, RequestKey(s, op), s.tickets[tid].itemId, action.to, action.oldNext)
  }

  lemma TakenIsHeld(s: State, rid: Id, i: Id)
    ensures Taken(s, rid, i, RequestStatus.Assigned) <==> HeldByOther(s, rid, i)
  {
    if q :| q != rid && q in s.requests && s.requests[q].item == Some(i) && s.requests[q].status.Assigned? {
      assert HeldBy(s, q, i);
    }
    if q :| q != rid && HeldBy(s, q, i) { assert Taken(s, rid, i, RequestStatus.Assigned); }
  }

  lemma WinnerMatch(s: State, h: Held, now: Time)
    requires IndexOk(s.requests) && Matched(s) && Loaded(s, h.op) && !Loses(s, h.op)
    ensures Matched(Commit(s, Writes(s, h, now))) <==> OrderlyFlush(s, h.op)
  {
    var post, rid := Commit(s, Writes(s, h, now)), RequestKey(s, h.op);
    IndexGivesSoleHolders(s);
    TakenIsHeld(s, rid, Target(h.op));
    if h.op.Resolve? {
      var from, to, oldNext := s.tickets[h.op.tid].itemId, h.op.action.to, h.op.action.oldNext;
      SwapFlushSwaps(s, h, now);
      if OrderlySwapFlush(s, rid, from, to, oldNext) { SwapsOverKeeps(s, post, rid, from, to, oldNext); }
      else if s.requests[rid].status.Assigned? { AssignedSwapBreaks(s, post, rid, from, to, oldNext); }
      else { StaleSwapBreaks(s, post, rid, from, to, oldNext); }
    } else {
      AssignTakes(s, h, now);
      TakesMatch(s, post, rid, Target(h.op));
    }
  }

  /** In every interleaving, from a matched state, a flush keeps the match of requests and devices if and
      only if it loses or is orderly. */
  lemma FlushKeepsMatchIff(s: State, steps: seq<Step>, k: nat, now: Time)
    requires Fresh(s) && Matched(Interleaved(World(s, map[]), steps).db)
    requires k in Interleaved(World(s, map[]), steps).sessions
    ensures var w := Interleaved(World(s, map[]), steps);
      var op := w.sessions[k].op;
      && Loaded(w.db, op)
      && (Matched(Next(w, Flush(k, now)).db) <==> Loses(w.db, op) || OrderlyFlush(w.db, op))
  {
    var w := Interleaved(World(s, map[]), steps);
    SessionsLoaded(s, steps);
    IndexAlwaysHolds(s, steps);
    RejectedIffLoses(w.db, w.sessions[k], now);
    if !Loses(w.db, w.sessions[k].op) { WinnerMatch(w.db, w.sessions[k], now); }
  }

  /** A swap whose request ended meanwhile cannot lose. If another user's request holds the new device by
      then, the flush takes the device's ownership away from that user, under a request that still holds it.
      (`Loaded` always holds, by `SessionsLoaded`; the condition needs it to be well-formed.) */
  lemma StaleSwapSteals(s: State, steps: seq<Step>, k: nat, now: Time, p: Id)
    requires k in Interleaved(World(s, map[]), steps).sessions
    requires var w := Interleaved(World(s, map[]), steps);
      var op := w.sessions[k].op;
      && op.Resolve? && Loaded(w.db, op) && Terminal(FlushedStatus(w.db, op))
      && HeldBy(w.db, p, Target(op)) && w.db.requests[p].requester != w.db.requests[RequestKey(w.db, op)].requester
    ensures var w := Interleaved(World(s, map[]), steps);
      var op, post := w.sessions[k].op, Next(w, Flush(k, now)).db;
      && HeldBy(post, p, Target(op)) && Target(op) in post.items
      && post.items[Target(op)].owner == Some(w.db.requests[RequestKey(w.db, op)].requester)
      && !Matched(post)
  {
    var w := Interleaved(World(s, map[]), steps);
    var h := w.sessions[k];
    RejectedIffLoses(w.db, h, now);
    SwapFlushSwaps(w.db, h, now);
    assert p != RequestKey(w.db, h.op);
    Usurped(Next(w, Flush(k, now)).db, p, Target(h.op));
  }

  // ---- From a sequential run into a race.

  /** The run as transactions from start to end. */
  function Wholes(run: seq<Event>): seq<Step> {
    if run == [] then [] else Wholes(run[..|run| - 1]) + [Whole(run[|run| - 1])]
  }

  lemma OneMoreStep(w: World, steps: seq<Step>, a: Step)
    ensures Interleaved(w, steps + [a]) == Next(Interleaved(w, steps), a)
  {
    assert (steps + [a])[..|steps|] == steps;
  }

  lemma {:induction false} SequentialFirst(s: State, run: seq<Event>)
    ensures Interleaved(World(s, map[]), Wholes(run)) == World(Run(s, run), map[])
  {
    if run != [] {
      var before := run[..|run| - 1];
      SequentialFirst(s, before);
      OneMoreStep(World(s, map[]), Wholes(before), Whole(run[|run| - 1]));
    }
  }

  lemma FourSteps(w: World, steps: seq<Step>, a: Step, b: Step, c: Step, d: Step)
    ensures Interleaved(w, steps + [a, b, c, d]) == Next(Next(Next(Next(Interleaved(w, steps), a), b), c), d)
  {
    OneMoreStep(w, steps, a);
    OneMoreStep(w, steps + [a], b);
    OneMoreStep(w, steps + [a] + [b], c);
    OneMoreStep(w, steps + [a] + [b] + [c], d);
    assert steps + [a, b, c, d] == steps + [a] + [b] + [c] + [d];
  }

  /** Flushing the first of two assignments of a request leaves room for the second. */
  lemma FirstFlush(s: State, rid: Id, i1: Id, i2: Id, from: Time, to: Time, actor: Id, now: Time)
    requires Matched(s) && i1 != i2
    requires AssignGuards(s, rid, i1, from, to).None? && AssignGuards(s, rid, i2, from, to).None?
    ensures var h1, h2 := Held(Assign(rid, i1, from, to, false), actor), Held(Assign(rid, i2, from, to, false), actor);
      var s1 := Commit(s, Writes(s, h1, now));
      && !Rejected(s, h1, now) && HeldBy(s1, rid, i1) && s1.items[i1].status.Assigned?
      && Loaded(s1, h2.op) && !Loses(s1, h2.op) && !StrandsNothingBut(s1, rid, i2)
      && forall q :: HeldBy(s1, q, i1) ==> q == rid
  {
    AvailableIsFree(s, i1);
    AvailableIsFree(s, i2);
    var h1 := Held(Assign(rid, i1, from, to, false), actor);
    RejectedIffLoses(s, h1, now);
    TakenIsHeld(s, rid, i1);
    TakenIsHeld(Commit(s, Writes(s, h1, now)), rid, i2);
  }

  /** Flushing the second moves the request off the first device, which nobody holds then. */
  lemma SecondFlush(s: State, h: Held, i1: Id, now: Time)
    requires h.op.Assign? && Loaded(s, h.op) && i1 in s.items && s.items[i1].status.Assigned? && i1 != h.op.iid
    requires forall q :: HeldBy(s, q, i1) ==> q == h.op.rid
    ensures var post := Commit(s, Writes(s, h, now));
      && HeldBy(post, h.op.rid, h.op.iid) && i1 in post.items && post.items[i1].status.Assigned?
      && !Custody.Held(post, i1)
  {
    var post := Commit(s, Writes(s, h, now));
    forall q ensures !HeldBy(post, q, i1) { if q != h.op.rid { assert HeldBy(post, q, i1) <==> HeldBy(s, q, i1); } }
  }

  /** The index does not protect a request from being assigned twice at once. After any sequential run that
      ends matched, two sessions that pass the guards for the same pending request and different devices
      both commit, and the first device is left assigned with no request that holds it. */
  lemma DoubleAssignOrphans(s: State, run: seq<Event>, rid: Id, i1: Id, i2: Id, from: Time, to: Time, actor: Id, now: Time)
    requires Fresh(s) && Matched(Run(s, run)) && i1 != i2
    requires AssignGuards(Run(s, run), rid, i1, from, to).None? && AssignGuards(Run(s, run), rid, i2, from, to).None?
    ensures var a, b := Assign(rid, i1, from, to, false), Assign(rid, i2, from, to, false);
      var race := [Check(1, a, actor), Check(2, b, actor), Flush(1, now), Flush(2, now)];
      var db := Interleaved(World(s, map[]), Wholes(run) + race).db;
      && HeldBy(db, rid, i2)
      && i1 in db.items && db.items[i1].status.Assigned? && !Custody.Held(db, i1) && !Matched(db)
  {
    var a, b := Assign(rid, i1, from, to, false), Assign(rid, i2, from, to, false);
    var r := Run(s, run);
    SequentialFirst(s, run);
    FourSteps(World(s, map[]), Wholes(run), Check(1, a, actor), Check(2, b, actor), Flush(1, now), Flush(2, now));
    var w := World(r, map[1 := Held(a, actor), 2 := Held(b, actor)]);
    assert Next(Next(World(r, map[]), Check(1, a, actor)), Check(2, b, actor)) == w;
    FirstFlush(r, rid, i1, i2, from, to, actor, now);
    var s1 := Commit(r, Writes(r, Held(a, actor), now));
    assert Next(w, Flush(1, now)).db == s1;
    RejectedIffLoses(s1, Held(b, actor), now);
    SecondFlush(s1, Held(b, actor), i1, now);
    assert !ItemOk(Commit(s1, Writes(s1, Held(b, actor), now)), i1);
  }
}
