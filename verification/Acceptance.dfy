/**
 Exactly when a tree cancellation is accepted.

 A new request needs every unfinished run below the root to be free; a repeated one needs a
 live ticket for every unfinished run and no other ticket. One run that fails refuses the whole.
 */
module Acceptance {
  import opened AgentTypes
  import opened Tables
  import opened Operations
  import opened CancelTree
  import opened Invariant
  import opened Progress
  import opened WorkerOps
  import opened CancelSteps
  import opened CancelScope
  import opened CancelPlans
  import R = Retrying
  import F = Forest

  /** The run can be fenced under a new operation: nobody controls it now, and it never saw the identifier. */
  predicate Free(db: Db, now: Time, r: Id, op: Id) {
    && r in db.runs
    && (db.runs[r].state.Queued? || (!Busy(db, now, r) && !KnownOp(Ops(db, r), op)))
  }

  predicate Busy(db: Db, now: Time, r: Id) {
    var active := ActiveOp(Ops(db, r));
    active.Some? && now < active.value.expiresAt
  }

  /** The caller holds the live ticket of the run. */
  predicate Backed(db: Db, now: Time, r: Id, retry: seq<CancelTicket>) {
    r in db.runs && exists i :: 0 <= i < |retry| && retry[i].run == r && CancelTicketLive(db, now, retry[i])
  }

  /** The run belongs to one of the workers and has not ended. */
  predicate Unfinished(db: Db, ws: seq<Id>, r: Id) {
    r in db.runs && db.runs[r].worker in ws && !db.runs[r].state.Terminal()
  }

  ghost predicate AllFree(db: Db, now: Time, ws: seq<Id>, op: Id) {
    forall r :: Unfinished(db, ws, r) ==> Free(db, now, r, op)
  }

  ghost predicate AllBacked(db: Db, now: Time, ws: seq<Id>, retry: seq<CancelTicket>) {
    && (forall r :: Unfinished(db, ws, r) ==> Backed(db, now, r, retry))
    && (forall i :: 0 <= i < |retry| ==> Unfinished(db, ws, retry[i].run))
  }

  // --- A new request -----------------------------------------------------------------------------

  lemma ActiveIsKnown(ops: seq<Control>, op: Id)
    requires ActiveOp(ops).Some? && ActiveOp(ops).value.op == op
    ensures KnownOp(ops, op)
  { }

  lemma FreeRun(db: Db, except: set<Id>, now: Time, r: Id, req: CancelRequest, expiresAt: Time, seed: nat)
    requires r in db.runs && !db.runs[r].state.Terminal() && now < expiresAt && req.retry == []
    requires Core(db, except) && Timely(db, now)
    ensures var out := CancelRun(db, now, r, req, expiresAt, seed);
            && (out.Done? <==> Free(db, now, r, req.op))
            && (out.Done? ==> out.value.reused == {})
  {
    hide Core, Advance, Sound, RunsCut, ActiveOp, CancelMatches, KnownOp;
    var before, active := db.runs[r], ActiveOp(Ops(db, r));
    ActiveIsCancelling(db, except, now, r);
    if before.state.Queued? {
      CancelQueued(db, except, now, r, req.op);
    } else if !Busy(db, now, r) {
      if active.Some? && active.value.op == req.op { ActiveIsKnown(Ops(db, r), req.op); }
      var control := NewControl(req.op, Cancel, FencedRow(before, now), req.leaseOwner, expiresAt, Minted(seed + r),
                                now);
      if KnownOp(Ops(db, r), req.op) {
        CancelRefused(db, except, now, r, control);
      } else {
        CancelFenced(db, except, now, r, control);
      }
    }
  }

  lemma FreeFrame(db: Db, db': Db, now: Time, r: Id, op: Id)
    requires Untouched(db, db', r)
    ensures Free(db', now, r, op) <==> Free(db, now, r, op)
  {
    hide ActiveOp, KnownOp;
  }

  lemma {:induction false} FreeRuns(db: Db, except: set<Id>, now: Time, rs: seq<Id>, req: CancelRequest,
                                    expiresAt: Time, seed: nat)
    requires forall i :: 0 <= i < |rs| ==> rs[i] in db.runs && !db.runs[rs[i]].state.Terminal()
    requires F.Distinct(rs) && now < expiresAt && req.retry == []
    requires Core(db, except) && Timely(db, now)
    ensures var out := CancelRuns(db, now, rs, req, expiresAt, seed);
            && (out.Done? <==> forall i :: 0 <= i < |rs| ==> Free(db, now, rs[i], req.op))
            && (out.Done? ==> out.value.reused == {})
  {
    hide Core, Forward, CancelRun, Cut, CancelTicketLive, Untouched, RunsCut, Sound, TicketsLive, Controlled, Free;
    if rs == [] {
    } else {
      var front, r := rs[..|rs| - 1], rs[|rs| - 1];
      assert rs == front + [r] && r !in front;
      FreeRuns(db, except, now, front, req, expiresAt, seed);
      CancelRunsCuts(db, except, now, front, req, expiresAt, seed);
      var mid := CancelRuns(db, now, front, req, expiresAt, seed);
      assert forall i :: 0 <= i < |front| ==> rs[i] == front[i];
      if mid.Done? {
        OutsideUntouched(db, mid.db, front, r, req.op);
        SoundCore(db, mid.db, except, now);
        FreeRun(mid.db, except, now, r, req, expiresAt, seed);
        FreeFrame(db, mid.db, now, r, req.op);
      }
    }
  }

  lemma PendingFree(db: Db, now: Time, w: Id, op: Id)
    ensures AllFree(db, now, [w], op) <==> forall i :: 0 <= i < |Pending(db, w)| ==>
              Free(db, now, Pending(db, w)[i], op)
  {
    hide Pending, Free;
    var rs := Pending(db, w);
    forall r ensures Unfinished(db, [w], r) <==> r in rs { PendingIff(db, w, r); }
    if AllFree(db, now, [w], op) {
      forall i | 0 <= i < |rs| ensures Free(db, now, rs[i], op) { assert Unfinished(db, [w], rs[i]); }
    }
  }

  lemma SameFree(db: Db, mid: Db, now: Time, r: Id, op: Id)
    requires SameRuns(db, mid)
    ensures Free(mid, now, r, op) <==> Free(db, now, r, op)
  {
    hide ActiveOp, KnownOp;
  }

  lemma FreeWorker(db: Db, now: Time, w: Id, req: CancelRequest, expiresAt: Time, seed: nat)
    requires w in db.workers && now < expiresAt && req.retry == [] && req.op !in db.plans
    requires db.workers[w].lifecycle.Open? ==> ChildrenClosed(db.workers, w)
    requires Core(db, {}) && Timely(db, now)
    ensures var out := CancelWorker(db, now, w, req, expiresAt, seed);
            && (out.Done? <==> AllFree(db, now, [w], req.op))
            && (out.Done? ==> out.value.reused == {})
  {
    hide Core, Forward, Pending, CancelRuns, Sound, Free, AllFree, WorkerFits, RunsCut, Controlled, TicketsLive;
    PendingFree(db, now, w, req.op);
    var rs := Pending(db, w);
    if db.workers[w].lifecycle.Open? {
      var drained := PutDrained(db, now, w);
      DrainedPending(db, now, w);
      PendingKnown(drained, w);
      PendingDistinct(drained, w);
      FreeRuns(drained, {w}, now, rs, req, expiresAt, seed);
      CancelRunsCuts(drained, {w}, now, rs, req, expiresAt, seed);
      KeepsWorkers(drained, {w}, now, rs, req.op, CancelRuns(drained, now, rs, req, expiresAt, seed));
      forall i | 0 <= i < |rs| ensures Free(drained, now, rs[i], req.op) <==> Free(db, now, rs[i], req.op) {
        SameFree(db, drained, now, rs[i], req.op);
      }
    } else {
      PendingKnown(db, w);
      PendingDistinct(db, w);
      FreeRuns(db, {}, now, rs, req, expiresAt, seed);
    }
  }

  function PutDrained(db: Db, now: Time, w: Id): Db
    requires w in db.workers
  {
    db.(workers := db.workers[w := DrainedRow(db.workers[w], now)])
  }

  lemma DrainedPending(db: Db, now: Time, w: Id)
    requires w in db.workers && db.workers[w].lifecycle.Open? && ChildrenClosed(db.workers, w)
    requires Core(db, {}) && Timely(db, now)
    ensures ValidWorker(w, DrainedRow(db.workers[w], now)) && Pending(PutDrained(db, now, w), w) == Pending(db, w)
    ensures Core(PutDrained(db, now, w), {w}) && Timely(PutDrained(db, now, w), now)
  {
    hide Core, Forward, Pending, WorkerFits;
    DrainedFits(db, now, w);
    FitsIsValid(db.workers, w, DrainedRow(db.workers[w], now));
    DrainStarts(db, now, w);
    PendingFrame(db, PutDrained(db, now, w), w);
  }

  lemma KeepsWorkers(db: Db, except: set<Id>, now: Time, rs: seq<Id>, op: Id, out: Outcome<Tally>)
    requires RunsCancelled(db, except, now, rs, op, out)
    ensures out.Done? ==> out.db.workers == db.workers
  {
    hide Sound, Cut, Untouched, Controlled, TicketsLive;
  }

  /** What the first workers leave of the later ones: their runs are as they were. */
  lemma LaterUntouched(db: Db, mid: Db, front: seq<Id>, w: Id, op: Id, now: Time, r: Id)
    requires WorkersCut(db, mid, front, op, now) && w !in front
    ensures Unfinished(mid, [w], r) <==> Unfinished(db, [w], r)
    ensures Unfinished(db, [w], r) ==> Untouched(db, mid, r)
  {
    if r in db.runs { assert Covered(db, mid, front, r, op); }
  }

  lemma LaterFree(db: Db, mid: Db, now: Time, front: seq<Id>, w: Id, op: Id)
    requires WorkersCut(db, mid, front, op, now) && w !in front
    ensures AllFree(mid, now, [w], op) <==> AllFree(db, now, [w], op)
  {
    hide WorkersCut, Untouched, Free, Unfinished;
    forall r ensures Unfinished(mid, [w], r) <==> Unfinished(db, [w], r)
             ensures Unfinished(db, [w], r) ==> (Free(mid, now, r, op) <==> Free(db, now, r, op))
    {
      LaterUntouched(db, mid, front, w, op, now, r);
      if Unfinished(db, [w], r) { FreeFrame(db, mid, now, r, op); }
    }
  }

  lemma FreeSplits(db: Db, now: Time, front: seq<Id>, w: Id, op: Id)
    ensures AllFree(db, now, front + [w], op) <==> AllFree(db, now, front, op) && AllFree(db, now, [w], op)
  {
    hide Free;
    forall r ensures Unfinished(db, front + [w], r) <==> Unfinished(db, front, r) || Unfinished(db, [w], r) { }
  }

  lemma {:induction false} FreeWorkers(db: Db, now: Time, ws: seq<Id>, req: CancelRequest, expiresAt: Time, seed: nat)
    requires F.Distinct(ws) && ChildrenListed(db.workers, ws) && now < expiresAt
    requires forall w :: w in ws ==> w in db.workers
    requires req.retry == [] && req.op !in db.plans
    requires Core(db, {}) && Timely(db, now)
    ensures var out := CancelWorkers(db, now, ws, req, expiresAt, seed);
            && (out.Done? <==> AllFree(db, now, ws, req.op))
            && (out.Done? ==> out.value.reused == {})
  {
    hide Core, Forward, CancelWorker, WorkersCut, Sound, TicketsLive, Fenced, ChildrenListed, ChildrenClosed, AllFree;
    if ws == [] {
      NothingToFree(db, now, req.op);
    } else {
      var front, w := ws[..|ws| - 1], ws[|ws| - 1];
      assert ws == front + [w] && w !in front;
      ListedFront(db.workers, front, w);
      FreeSplits(db, now, front, w, req.op);
      FreeWorkers(db, now, front, req, expiresAt, seed);
      CancelWorkersCuts(db, now, front, req, expiresAt, seed);
      var mid := CancelWorkers(db, now, front, req, expiresAt, seed);
      if mid.Done? {
        SoundCore(db, mid.db, {}, now);
        OutsideSame(db, mid.db, front, w, req.op, now);
        ChildrenAreClosed(db, mid.db, front, w, req.op, now);
        LaterFree(db, mid.db, now, front, w, req.op);
        FreeWorker(mid.db, now, w, req, expiresAt, seed);
      }
    }
  }

  lemma NothingToFree(db: Db, now: Time, op: Id)
    ensures AllFree(db, now, [], op)
  { }

  // --- A repeated request ------------------------------------------------------------------------

  /** No two tickets of a request are for the same run. */
  lemma TheTicket(retry: seq<CancelTicket>, i: nat)
    requires R.DistinctRuns(retry) && i < |retry|
    ensures FindRetry(retry, retry[i].run) == Some(retry[i])
  {
    var found := FindRetry(retry, retry[i].run);
    var k :| 0 <= k < |retry| && retry[k] == found.value;
  }

  lemma BackedRun(db: Db, now: Time, r: Id, req: CancelRequest, expiresAt: Time, seed: nat)
    requires UnderOperation(db, r, req.op) && R.DistinctRuns(req.retry) && R.OwnTickets(req, req.retry)
    requires Core(db, {}) && Timely(db, now)
    ensures CancelRun(db, now, r, req, expiresAt, seed).Done? <==> Backed(db, now, r, req.retry)
  {
    hide Core, Advance, ActiveOp, R.DistinctRuns;
    var out, active := CancelRun(db, now, r, req, expiresAt, seed), ActiveOp(Ops(db, r));
    if Backed(db, now, r, req.retry) {
      var i :| 0 <= i < |req.retry| && req.retry[i].run == r && CancelTicketLive(db, now, req.retry[i]);
      TheTicket(req.retry, i);
    }
    if out.Done? { AcceptedIsBacked(db, now, r, req, expiresAt, seed); }
  }

  lemma AcceptedIsBacked(db: Db, now: Time, r: Id, req: CancelRequest, expiresAt: Time, seed: nat)
    requires UnderOperation(db, r, req.op) && CancelRun(db, now, r, req, expiresAt, seed).Done?
    requires Core(db, {}) && Timely(db, now)
    ensures Backed(db, now, r, req.retry)
  {
    hide Core, ActiveOp, ValidRun, SameIdentity, ValidCompletion, NextCompletion, KnownOp, CancelMatches,
         CancelTicketLive;
    var found := FindRetry(req.retry, r);
    assert found.Some? && Busy(db, now, r);
    CancelReused(db, {}, now, r, found.value);
    var i :| 0 <= i < |req.retry| && req.retry[i] == found.value;
  }

  lemma {:induction false} BackedRuns(db: Db, now: Time, rs: seq<Id>, req: CancelRequest, expiresAt: Time, seed: nat)
    requires forall i :: 0 <= i < |rs| ==> UnderOperation(db, rs[i], req.op)
    requires R.DistinctRuns(req.retry) && R.OwnTickets(req, req.retry)
    requires Core(db, {}) && Timely(db, now)
    ensures CancelRuns(db, now, rs, req, expiresAt, seed).Done? <==> forall i :: 0 <= i < |rs| ==>
              Backed(db, now, rs[i], req.retry)
  {
    hide Core, CancelRun, KnownOp, Returned, Backed, R.DistinctRuns, R.OwnTickets;
    if rs == [] {
    } else {
      var front, r := rs[..|rs| - 1], rs[|rs| - 1];
      assert forall i :: 0 <= i < |front| ==> rs[i] == front[i];
      BackedRuns(db, now, front, req, expiresAt, seed);
      RetriedRuns(db, now, front, req, expiresAt, seed);
      var mid := CancelRuns(db, now, front, req, expiresAt, seed);
      if mid.Done? {
        ReturnedTables(mid, db, front, req.retry);
        BackedRun(db, now, r, req, expiresAt, seed);
      }
    }
  }

  ghost predicate RunsBacked(db: Db, now: Time, ws: seq<Id>, retry: seq<CancelTicket>) {
    forall r :: Unfinished(db, ws, r) ==> Backed(db, now, r, retry)
  }

  lemma PendingBacked(db: Db, now: Time, w: Id, retry: seq<CancelTicket>)
    ensures RunsBacked(db, now, [w], retry) <==> forall i :: 0 <= i < |Pending(db, w)| ==>
              Backed(db, now, Pending(db, w)[i], retry)
  {
    hide Pending, Backed;
    var rs := Pending(db, w);
    forall r ensures Unfinished(db, [w], r) <==> r in rs { PendingIff(db, w, r); }
    if RunsBacked(db, now, [w], retry) {
      forall i | 0 <= i < |rs| ensures Backed(db, now, rs[i], retry) { assert Unfinished(db, [w], rs[i]); }
    }
  }

  lemma BackedSplits(db: Db, now: Time, front: seq<Id>, w: Id, retry: seq<CancelTicket>)
    ensures RunsBacked(db, now, front + [w], retry) <==>
              RunsBacked(db, now, front, retry) && RunsBacked(db, now, [w], retry)
  {
    hide Backed;
    forall r ensures Unfinished(db, front + [w], r) <==> Unfinished(db, front, r) || Unfinished(db, [w], r) { }
  }

  lemma {:induction false} BackedWorkers(db: Db, now: Time, ws: seq<Id>, req: CancelRequest, expiresAt: Time, seed: nat)
    requires forall w :: w in ws ==> w in db.workers && !db.workers[w].lifecycle.Open?
    requires forall r :: r in db.runs && db.runs[r].worker in ws && !db.runs[r].state.Terminal() ==>
               UnderOperation(db, r, req.op)
    requires R.DistinctRuns(req.retry) && R.OwnTickets(req, req.retry)
    requires Core(db, {}) && Timely(db, now)
    ensures CancelWorkers(db, now, ws, req, expiresAt, seed).Done? <==> RunsBacked(db, now, ws, req.retry)
  {
    hide Core, CancelRuns, UnderOperation, Returned, Pending, AllPending, Backed, RunsBacked, R.DistinctRuns,
         R.OwnTickets;
    if ws == [] {
      NothingToBack(db, now, req.retry);
    } else {
      var front, w := ws[..|ws| - 1], ws[|ws| - 1];
      assert ws == front + [w];
      BackedSplits(db, now, front, w, req.retry);
      BackedWorkers(db, now, front, req, expiresAt, seed);
      RetriedWorkers(db, now, front, req, expiresAt, seed);
      var mid := CancelWorkers(db, now, front, req, expiresAt, seed);
      if mid.Done? {
        ReturnedTables(mid, db, AllPending(db, front), req.retry);
        var rs := Pending(db, w);
        forall i | 0 <= i < |rs| ensures UnderOperation(db, rs[i], req.op) { PendingIff(db, w, rs[i]); }
        BackedRuns(db, now, rs, req, expiresAt, seed);
        PendingBacked(db, now, w, req.retry);
      }
    }
  }

  lemma NothingToBack(db: Db, now: Time, retry: seq<CancelTicket>)
    ensures RunsBacked(db, now, [], retry)
  { }

  lemma SameSize<T>(a: set<T>, b: set<T>)
    requires a <= b
    ensures |a| == |b| <==> a == b
  {
    assert b == a + (b - a);
  }

  /** With a ticket for every unfinished run, the counts agree exactly when no ticket is left over. */
  lemma NoneLeftOver(db: Db, now: Time, ws: seq<Id>, retry: seq<CancelTicket>)
    requires RunsBacked(db, now, ws, retry) && R.DistinctRuns(retry)
    ensures |R.Members(AllPending(db, ws))| == |retry| <==> AllBacked(db, now, ws, retry)
  {
    hide AllPending, CancelTicketLive;
    var pending, given := R.Members(AllPending(db, ws)), TicketRuns(retry);
    forall r ensures r in pending <==> Unfinished(db, ws, r) { R.AllPendingIff(db, ws, r); }
    forall i, j | 0 <= i < j < |given| ensures given[i] != given[j] { assert retry[i].run != retry[j].run; }
    R.DistinctSize(given);
    forall r | r in pending ensures r in R.Members(given) {
      var i :| 0 <= i < |retry| && retry[i].run == r && CancelTicketLive(db, now, retry[i]);
      assert given[i] == r;
    }
    SameSize(pending, R.Members(given));
    if pending == R.Members(given) {
      forall i | 0 <= i < |retry| ensures Unfinished(db, ws, retry[i].run) { assert given[i] in R.Members(given); }
    } else {
      var r :| r in R.Members(given) && r !in pending;
      var i :| 0 <= i < |given| && given[i] == r;
      LeftOver(db, now, ws, retry, i);
    }
  }

  lemma LeftOver(db: Db, now: Time, ws: seq<Id>, retry: seq<CancelTicket>, i: nat)
    requires i < |retry| && !Unfinished(db, ws, retry[i].run)
    ensures !AllBacked(db, now, ws, retry)
  { }

  // --- The whole request -------------------------------------------------------------------------

  lemma NewRequestAccepted(db: Db, now: Time, root: Id, req: CancelRequest, seed: nat)
    requires RequestError(db, root, req).None? && req.op !in db.plans
    requires Inv(db) && Timely(db, now)
    ensures RequestCancelTree(db, now, root, req, seed).Done? <==> AllFree(db, now, Order(db, root), req.op)
  {
    hide Inv, Core, F.Acyclic, F.Post, F.Subtree, F.Shape, Entries, CancelWorkers, ChildrenListed, AllFree;
    AcyclicWorkers(db);
    OrderFacts(db, root);
    InvParts(db);
    LeaseLasts(now, req.leaseSeconds);
    FreeWorkers(db, now, Order(db, root), req, After(now, req.leaseSeconds), seed);
  }

  lemma RetryAccepted(db: Db, now: Time, root: Id, req: CancelRequest, seed: nat)
    requires RequestError(db, root, req).None? && req.op in db.plans
    requires Inv(db) && Timely(db, now)
    ensures RequestCancelTree(db, now, root, req, seed).Done? <==> AllBacked(db, now, Order(db, root), req.retry)
  {
    hide Core, PlansOk, PlanOk, F.Acyclic, F.Post, F.Subtree, F.Shape, Entries, CancelWorkers, UnderOperation,
         AllPending, PlanTree, Backed, AllBacked, RunsBacked,
         ProjectionOk;
    AcyclicWorkers(db);
    InvParts(db);
    var op, order, expiresAt := req.op, Order(db, root), After(now, req.leaseSeconds);
    PlansParts(db, op);
    PlanScopeClosed(db, op);
    PlanOrder(db, op, root);
    forall r | r in db.runs && db.runs[r].worker in order && !db.runs[r].state.Terminal()
      ensures UnderOperation(db, r, op)
    {
      PlannedIsUnder(db, op, r);
    }
    RetriedWorkers(db, now, order, req, expiresAt, seed);
    BackedWorkers(db, now, order, req, expiresAt, seed);
    BackedParts(db, now, order, req.retry);
    assert (set r | r in AllPending(db, order)) == R.Members(AllPending(db, order));
    if RunsBacked(db, now, order, req.retry) { NoneLeftOver(db, now, order, req.retry); }
  }

  lemma BackedParts(db: Db, now: Time, ws: seq<Id>, retry: seq<CancelTicket>)
    ensures AllBacked(db, now, ws, retry) ==> RunsBacked(db, now, ws, retry)
  { }

  /** A tree cancellation is accepted exactly when it is well formed and every unfinished run allows it. */
  lemma AcceptedIff(db: Db, now: Time, root: Id, req: CancelRequest, seed: nat)
    requires Inv(db) && Timely(db, now)
    ensures RequestCancelTree(db, now, root, req, seed).Done? <==>
              && RequestError(db, root, req).None?
              && if req.op in db.plans then AllBacked(db, now, Order(db, root), req.retry)
                 else AllFree(db, now, Order(db, root), req.op)
  {
    hide Inv, RequestError, CancelWorkers, Order, AllBacked, AllFree;
    if RequestError(db, root, req).None? {
      if req.op in db.plans {
        RetryAccepted(db, now, root, req, seed);
      } else {
        NewRequestAccepted(db, now, root, req, seed);
      }
    }
  }
}
