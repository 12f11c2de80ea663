/** Cancelling a subtree is final: nothing below it starts, is claimed or holds authority again. */
module Cancellation {
  import opened AgentTypes
  import opened Tables
  import opened Operations
  import opened CancelTree
  import opened Invariant
  import opened Progress
  import opened InvStep
  import opened CancelSteps
  import opened CancelScope
  import opened CancelPlans
  import opened Protocol
  import R = Reachable
  import F = Forest

  // --- After an accepted request -----------------------------------------------------------------

  /** The subtree is closed to new work, and what was unfinished in `db` is bound to end as cancelled. */
  ghost predicate Sealed(db: Db, scope: seq<Id>, db': Db) {
    && (forall w :: w in scope ==> w in db'.workers && !db'.workers[w].lifecycle.Open?)
    && (forall w :: w in db'.workers && db'.workers[w].parent.Some? && db'.workers[w].parent.value in scope ==>
        w in scope)
    && (forall r :: r in db'.runs && db'.runs[r].worker in scope ==>
        r in db.runs && db'.runs[r].generation == db.runs[r].generation)
    && (forall r :: r in db.runs && db.runs[r].worker in scope && !db.runs[r].state.Terminal() ==>
                      r in db'.runs && CancelBound(db'.runs[r], Ops(db', r)))
  }

  lemma CutIsBound(db: Db, db': Db, r: Id, op: Id)
    requires Cut(db, db', r, op)
    ensures CancelBound(db'.runs[r], Ops(db', r))
  { }

  lemma CutSeals(db: Db, mid: Db, t: F.Tree, op: Id, now: Time)
    requires F.Shape(db.workers, t) && WorkersCut(db, mid, F.Post(t), op, now)
    ensures Sealed(db, F.Post(t), mid)
  {
    hide F.Shape, F.Post, Cut, CancelBound;
    var scope := F.Post(t);
    forall w | w in mid.workers && mid.workers[w].parent.Some? && mid.workers[w].parent.value in scope
      ensures w in scope
    {
      F.PostClosed(db.workers, t, mid.workers[w].parent.value, w);
    }
    forall r | r in mid.runs && mid.runs[r].worker in scope
      ensures r in db.runs && mid.runs[r].generation == db.runs[r].generation
    {
      assert Covered(db, mid, scope, r, op);
      CutGeneration(db, mid, scope, op, r);
    }
    forall r | r in db.runs && db.runs[r].worker in scope && !db.runs[r].state.Terminal()
      ensures r in mid.runs && CancelBound(mid.runs[r], Ops(mid, r))
    {
      assert Covered(db, mid, scope, r, op);
      CutIsBound(db, mid, r, op);
    }
  }

  lemma CutGeneration(db: Db, db': Db, ws: seq<Id>, op: Id, r: Id)
    requires Covered(db, db', ws, r, op)
    ensures r in db'.runs && db'.runs[r].generation == db.runs[r].generation
  { }

  lemma SealedElsewhere(db: Db, scope: seq<Id>, mid: Db, db': Db)
    requires Sealed(db, scope, mid) && db'.workers == mid.workers && SameRuns(db', mid)
    ensures Sealed(db, scope, db')
  {
    hide CancelBound;
    forall r | r in mid.runs ensures Ops(db', r) == Ops(mid, r) { }
  }

  /** A closed worker's unfinished runs are bound to end as cancelled. */
  lemma ClosedIsBound(db: Db, r: Id)
    requires r in db.runs && db.runs[r].worker in db.workers && !db.workers[db.runs[r].worker].lifecycle.Open?
    requires !db.runs[r].state.Terminal() && RetiredOk(db, {})
    ensures CancelBound(db.runs[r], Ops(db, r))
  { }

  lemma RetiredParts(db: Db)
    requires Inv(db)
    ensures RetiredOk(db, {}) && KeysOk(db) && RunsOk(db)
  {
    hide RunsOk, CrossOk, ForestOk, EventsOk, WorkerTimesOk, PublicationsDistinct, PlansOk, ProjectionOk, RetiredOk,
         KeysOk;
  }

  lemma PlanSeals(db: Db, op: Id)
    requires op in db.plans && PlanOk(db, op) && RetiredOk(db, {}) && KeysOk(db)
    ensures Sealed(db, db.plans[op].workers, db)
  {
    hide F.Shape, F.Post, CancelBound, EntryOk, RetiredOk, PlanFields;
    var scope := db.plans[op].workers;
    var t :| F.Shape(db.workers, t) && t.id == db.plans[op].root && F.Post(t) == scope;
    forall w | w in db.workers && db.workers[w].parent.Some? && db.workers[w].parent.value in scope ensures w in scope {
      F.PostClosed(db.workers, t, db.workers[w].parent.value, w);
    }
    forall r | r in db.runs && db.runs[r].worker in scope && !db.runs[r].state.Terminal()
      ensures CancelBound(db.runs[r], Ops(db, r))
    {
      ClosedIsBound(db, r);
    }
  }

  /** An accepted request, new or retried, seals the subtree. */
  lemma RequestSeals(db: Db, now: Time, root: Id, req: CancelRequest, seed: nat)
    requires RequestCancelTree(db, now, root, req, seed).Done?
    requires Inv(db) && Timely(db, now)
    ensures Sealed(db, Order(db, root), RequestCancelTree(db, now, root, req, seed).db)
  {
    hide Inv, Core, F.Shape, F.Post, F.Subtree, F.Acyclic, PlanOk, PlansOk, PlanTree, Sealed, CancelWorkers, Entries,
         WorkersCut, Fenced, TicketsLive, RetiredOk, KeysOk, AllPending, RunsOk;
    var out := RequestCancelTree(db, now, root, req, seed);
    AcyclicWorkers(db);
    InvParts(db);
    if req.op in db.plans {
      RetryReturns(db, now, root, req, seed);
      PlansParts(db, req.op);
      PlanScopeClosed(db, req.op);
      PlanOrder(db, req.op, root);
      RetiredParts(db);
      PlanSeals(db, req.op);
    } else {
      NewRequestIsGood(db, now, root, req, seed);
      var mid :| WorkersCut(db, mid, Order(db, root), req.op, now)
          && out.db == Frozen(db, mid, root, Order(db, root), req, now);
      F.SubtreeShape(db.workers, root);
      CutSeals(db, mid, F.Subtree(db.workers, root), req.op, now);
      SealedElsewhere(db, Order(db, root), mid, out.db);
    }
  }

  // --- A sealed subtree stays sealed -------------------------------------------------------------

  lemma GenerationStays(db: Db, db': Db, r: Id)
    requires r in db.runs && r in db'.runs && RunForward(db.runs[r], db'.runs[r])
    requires RowOk(db.runs[r]) && !db.runs[r].state.Queued?
    ensures db'.runs[r].generation == db.runs[r].generation
  { }

  lemma NotQueued(db: Db, r: Id)
    requires r in db.runs && db.runs[r].worker in db.workers && !db.workers[db.runs[r].worker].lifecycle.Open?
    requires RunsOk(db) && RetiredOk(db, {})
    ensures RowOk(db.runs[r]) && !db.runs[r].state.Queued?
  {
    hide HistoryOk, ControlsOk, CompletionOk, Select, RowOk;
    assert RunOk(db, r);
  }

  lemma SealedRun(db: Db, scope: seq<Id>, mid: Db, db': Db, r: Id)
    requires Sealed(db, scope, mid) && Forward(mid, db') && r in db'.runs && db'.runs[r].worker in scope
    requires RunsOk(mid) && RetiredOk(mid, {})
    ensures r in db.runs && db'.runs[r].generation == db.runs[r].generation
  {
    hide RunsOk, RetiredOk, RowOk, WorkersForward, PlansForward, EventsForward, CancelBound;
    var w := db'.runs[r].worker;
    if r in mid.runs {
      assert RunEntryForward(mid, db', r);
      NotQueued(mid, r);
      GenerationStays(mid, db', r);
    }
  }

  lemma SealedForward(db: Db, scope: seq<Id>, mid: Db, db': Db)
    requires Sealed(db, scope, mid) && Forward(mid, db')
    requires Inv(mid)
    ensures Sealed(db, scope, db')
  {
    hide Inv, RunEntryForward, CancelBound, PlansForward, EventsForward;
    RetiredParts(mid);
    forall w | w in scope ensures w in db'.workers && !db'.workers[w].lifecycle.Open? {
      StaysClosed(mid.workers, db'.workers, w);
    }
    forall w | w in db'.workers && db'.workers[w].parent.Some? && db'.workers[w].parent.value in scope
      ensures w in scope
    {
      if w in mid.workers { assert WorkerForward(mid.workers[w], db'.workers[w]); }
    }
    forall r | r in db'.runs && db'.runs[r].worker in scope
      ensures r in db.runs && db'.runs[r].generation == db.runs[r].generation
    {
      SealedRun(db, scope, mid, db', r);
    }
    forall r | r in db.runs && db.runs[r].worker in scope && !db.runs[r].state.Terminal()
      ensures r in db'.runs && CancelBound(db'.runs[r], Ops(db', r))
    {
      BoundForward(mid, db', r);
    }
  }

  lemma BoundForward(db: Db, db': Db, r: Id)
    requires r in db.runs && CancelBound(db.runs[r], Ops(db, r)) && RunsForward(db, db')
    ensures r in db'.runs && CancelBound(db'.runs[r], Ops(db', r))
  {
    assert RunEntryForward(db, db', r);
  }

  // --- Finality ----------------------------------------------------------------------------------

  /** No receipt, execution permit or completion permit of the subtree is live, at any time. */
  ghost predicate NoAuthority(scope: seq<Id>, db: Db) {
    && (forall now, permit: ExecutionPermit, policy :: permit.worker in scope ==> !PermitLive(db, now, permit, policy))
    && (forall now, permit: ExecutionPermit, native :: permit.worker in scope ==>
        !NativePermitLive(db, now, permit, native))
    && (forall now, permit: CompletionPermit :: permit.run in db.runs && db.runs[permit.run].worker in scope ==>
        !CompletionPermitLive(db, now, permit))
    && (forall now, receipt: Receipt, states ::
          receipt.run in db.runs && db.runs[receipt.run].worker in scope ==>
            ReceiptError(db, now, receipt, states) != None)
  }

  /** How a run may have ended: cancelled, or interrupted because its controller could not be reached. */
  predicate EndedByCancel(run: Run) {
    run.state.Cancelled? || (run.state.Interrupted? && run.failure == Some(ControlUnavailable))
  }

  ghost predicate EndsCancelled(db: Db, scope: seq<Id>, db': Db) {
    forall r :: r in db.runs && db.runs[r].worker in scope && !db.runs[r].state.Terminal() ==>
                  && r in db'.runs
                  && (db'.runs[r].state.Cancelling? || EndedByCancel(db'.runs[r]))
                  && (db'.runs[r].state.Terminal() && r in db'.completions ==> db'.completions[r].status.Abandoned?)
  }

  lemma ClosedRunHasNoLease(db: Db, r: Id)
    requires r in db.runs && db.runs[r].worker in db.workers && !db.workers[db.runs[r].worker].lifecycle.Open?
    requires RunsOk(db) && RetiredOk(db, {})
    ensures db.runs[r].lease.None? && !db.runs[r].state.Running?
  {
    hide HistoryOk, ControlsOk, CompletionOk, Select;
    assert RunOk(db, r);
  }

  lemma SealedHasNoAuthority(db: Db, scope: seq<Id>, db': Db)
    requires Sealed(db, scope, db')
    requires Inv(db')
    ensures NoAuthority(scope, db')
  {
    hide Inv, RunsOk, RetiredOk, CancelBound;
    RetiredParts(db');
    forall r | r in db'.runs && db'.runs[r].worker in scope
      ensures db'.runs[r].lease.None? && !db'.runs[r].state.Running?
    {
      ClosedRunHasNoLease(db', r);
    }
  }

  lemma BoundEnds(run: Run, ops: seq<Control>)
    requires CancelBound(run, ops)
    ensures run.state.Cancelling? || EndedByCancel(run)
  { }

  lemma EndedCompletion(db: Db, r: Id)
    requires r in db.runs && EndedByCancel(db.runs[r]) && r in db.completions && RunsOk(db)
    ensures db.completions[r].status.Abandoned?
  {
    hide HistoryOk, ControlsOk, Select, RowOk;
    assert RunOk(db, r);
  }

  lemma SealedEnds(db: Db, scope: seq<Id>, db': Db)
    requires Sealed(db, scope, db')
    requires Inv(db')
    ensures EndsCancelled(db, scope, db')
  {
    hide Inv, RunsOk, RetiredOk, CancelBound, EndedByCancel;
    RetiredParts(db');
    forall r | r in db.runs && db.runs[r].worker in scope && !db.runs[r].state.Terminal()
      ensures r in db'.runs && (db'.runs[r].state.Cancelling? || EndedByCancel(db'.runs[r]))
      ensures db'.runs[r].state.Terminal() && r in db'.completions ==> db'.completions[r].status.Abandoned?
    {
      BoundEnds(db'.runs[r], Ops(db', r));
      if db'.runs[r].state.Terminal() && r in db'.completions { EndedCompletion(db', r); }
    }
  }

  /**
   Once a tree cancellation is accepted, and whatever is called afterwards by anyone, the
   subtree gains no worker, no run and no claim, nothing in it holds live authority, and every
   run that was unfinished ends cancelled or uncontrollable, its completion abandoned.
   */
  lemma CancellationIsFinal(s: Store, o: Owner, clock: Time, root: Id, req: CancelRequest, seed: nat, calls: seq<Call>)
    requires Verdict(s, Call(o, clock, OpCancelTree(root, req, seed))).Done?
    requires R.StoreInv(s)
    ensures var db, scope := Part(s, o), Order(Part(s, o), root);
            var db' := Part(Play(Step(s, Call(o, clock, OpCancelTree(root, req, seed))), calls), o);
            Sealed(db, scope, db') && NoAuthority(scope, db') && EndsCancelled(db, scope, db')
  {
    hide Inv, Sealed, NoAuthority, EndsCancelled, RequestCancelTree, Order, Forward, R.QueueDense, Play, Now;
    var call := Call(o, clock, OpCancelTree(root, req, seed));
    var db, scope, s1 := Part(s, o), Order(Part(s, o), root), Step(s, call);
    R.PartInv(s, o);
    R.NowIsTimely(db, clock);
    RequestSeals(db, Now(db, clock), root, req, seed);
    R.StepKeeps(s, call);
    R.PlayKeeps(s1, calls);
    R.PartInv(s1, o);
    R.PartInv(Play(s1, calls), o);
    SealedForward(db, scope, Part(s1, o), Part(Play(s1, calls), o));
    SealedHasNoAuthority(db, scope, Part(Play(s1, calls), o));
    SealedEnds(db, scope, Part(Play(s1, calls), o));
  }
}
