/** The frozen plan of a cancel request: what it records, and that it keeps holding. */
module CancelPlans {
  import opened AgentTypes
  import opened Tables
  import opened Operations
  import opened CancelTree
  import opened Invariant
  import opened Progress
  import opened InvStep
  import opened WorkerOps
  import opened TableOps
  import opened CancelSteps
  import opened CancelScope
  import F = Forest

  // --- The entries -------------------------------------------------------------------------------

  lemma {:induction false} EntriesForIff(db: Db, rs: seq<Id>, e: PlanEntry)
    ensures e in EntriesFor(db, rs) <==> e.run in rs && e.run in db.runs && e == EntryFor(db, e.run)
  {
    if rs == [] {
    } else {
      EntriesForIff(db, rs[1..], e);
      assert rs == [rs[0]] + rs[1..];
    }
  }

  /** A plan lists exactly the unfinished runs of its workers. */
  lemma {:induction false} EntriesIff(db: Db, ws: seq<Id>, e: PlanEntry)
    ensures e in Entries(db, ws) <==>
              e.run in db.runs && db.runs[e.run].worker in ws && !db.runs[e.run].state.Terminal()
                  && e == EntryFor(db, e.run)
  {
    hide Pending, EntriesFor;
    if ws == [] {
    } else {
      EntriesIff(db, ws[1..], e);
      EntriesForIff(db, Pending(db, ws[0]), e);
      PendingIff(db, ws[0], e.run);
      assert ws == [ws[0]] + ws[1..];
    }
  }

  // --- A new plan --------------------------------------------------------------------------------

  lemma CutTree(db: Db, db': Db, ws: seq<Id>, op: Id, now: Time, t: F.Tree)
    requires WorkersCut(db, db', ws, op, now) && F.Shape(db.workers, t)
    ensures F.Shape(db'.workers, t)
  {
    hide Covered, F.Children, F.Shape;
    forall x | x in F.Post(t) ensures x in db'.workers && F.Children(db'.workers, x) == F.Children(db.workers, x) {
      F.PostInWorkers(db.workers, t, x);
      forall c | c in db.workers
        ensures db'.workers[c].parent == db.workers[c].parent && db'.workers[c].createdAt == db.workers[c].createdAt { }
      F.ChildrenFrame(db.workers, db'.workers, x);
    }
    F.ShapeFrame(db.workers, db'.workers, t);
  }

  lemma CutEntryOk(db: Db, db': Db, plan: Plan, op: Id, now: Time, e: PlanEntry)
    requires WorkersCut(db, db', plan.workers, op, now) && e in Entries(db, plan.workers)
    ensures EntryOk(db', op, plan, e)
  {
    hide Entries;
    EntriesIff(db, plan.workers, e);
    assert Covered(db, db', plan.workers, e.run, op);
    if !db.runs[e.run].state.Queued? {
      var ops := Ops(db', e.run);
      assert ops[|ops| - 1].op == op;
    }
  }

  lemma CutIsListed(db: Db, db': Db, ws: seq<Id>, op: Id, now: Time, r: Id)
    requires WorkersCut(db, db', ws, op, now) && r in db'.runs && db'.runs[r].worker in ws
             && !db'.runs[r].state.Terminal()
    ensures PlanEntry(db'.runs[r].worker, r, ControllerCancel) in Entries(db, ws)
  {
    hide Entries;
    assert Covered(db, db', ws, r, op);
    EntriesIff(db, ws, EntryFor(db, r));
  }

  predicate PlanBounds(order: seq<Id>, entries: seq<PlanEntry>, req: CancelRequest) {
    1 <= |order| <= MAX_TOPOLOGY_NODES && |entries| <= MAX_TREE_CANCEL_RUNS && ValidLease(req.leaseSeconds)
  }

  /** The tables after the request, with the plan in place. */
  function Frozen(db: Db, mid: Db, root: Id, order: seq<Id>, req: CancelRequest, now: Time): Db {
    mid.(plans := mid.plans[req.op := NewPlan(root, order, Entries(db, order), req, now)])
  }

  lemma NewPlanOk(db: Db, mid: Db, t: F.Tree, req: CancelRequest, now: Time)
    requires PlanBounds(F.Post(t), Entries(db, F.Post(t)), req)
    requires F.Shape(db.workers, t) && WorkersCut(db, mid, F.Post(t), req.op, now)
    ensures PlanOk(Frozen(db, mid, t.id, F.Post(t), req, now), req.op)
  {
    hide F.Post, F.Shape, Entries, EntryOk, Covered;
    var order := F.Post(t);
    var db' := Frozen(db, mid, t.id, order, req, now);
    var plan := db'.plans[req.op];
    CutTree(db, mid, order, req.op, now, t);
    assert PlanTree(db'.workers, plan);
    forall i | 0 <= i < |plan.entries| ensures EntryOk(db', req.op, plan, plan.entries[i]) {
      CutEntryOk(db, mid, plan, req.op, now, plan.entries[i]);
      EntryElsewhere(mid, db', req.op, plan, plan.entries[i]);
    }
    forall r | r in db'.runs && db'.runs[r].worker in plan.workers && !db'.runs[r].state.Terminal()
      ensures PlanEntry(db'.runs[r].worker, r, ControllerCancel) in plan.entries
    {
      CutIsListed(db, mid, order, req.op, now, r);
    }
  }

  lemma EntryElsewhere(db: Db, db': Db, op: Id, plan: Plan, e: PlanEntry)
    requires EntryOk(db, op, plan, e) && db'.runs == db.runs && db'.controls == db.controls
    ensures EntryOk(db', op, plan, e)
  { }

  lemma OldOperation(db: Db, mid: Db, r: Id, i: nat)
    requires r in db.runs && r in mid.runs && i < |Ops(db, r)| && RunEntryForward(db, mid, r)
    requires PlansOk(db)
    ensures i < |Ops(mid, r)| && Planned(db, r, Ops(mid, r)[i]) && mid.runs[r].worker == db.runs[r].worker
  {
    hide PlanOk;
    assert ControlForward(Ops(db, r)[i], Ops(mid, r)[i]);
    assert Planned(db, r, Ops(db, r)[i]);
  }

  lemma NewOperation(db: Db, mid: Db, order: seq<Id>, op: Id, now: Time, r: Id, i: nat)
    requires WorkersCut(db, mid, order, op, now) && r in mid.runs && |Ops(db, r)| <= i < |Ops(mid, r)|
    ensures PlanEntry(mid.runs[r].worker, r, ControllerCancel) in Entries(db, order) && Ops(mid, r)[i].op == op
  {
    hide Entries, Covered;
    assert Covered(db, mid, order, r, op);
    CoveredNewOperation(db, mid, order, op, r, i);
    CutIsListed(db, mid, order, op, now, r);
  }

  lemma CoveredNewOperation(db: Db, db': Db, ws: seq<Id>, op: Id, r: Id, i: nat)
    requires Covered(db, db', ws, r, op) && |Ops(db, r)| <= i < |Ops(db', r)|
    ensures r in db'.runs && db'.runs[r].worker in ws && db'.runs[r].state.Cancelling? && Ops(db', r)[i].op == op
  { }

  lemma KnownRun(db: Db, mid: Db, order: seq<Id>, op: Id, now: Time, r: Id)
    requires WorkersCut(db, mid, order, op, now) && r in mid.runs && Forward(db, mid)
    ensures r in db.runs && RunEntryForward(db, mid, r)
  { }

  /** Every cancel operation on record still belongs to a plan that lists its run. */
  lemma CutPlanned(db: Db, mid: Db, root: Id, order: seq<Id>, req: CancelRequest, now: Time, r: Id, i: nat)
    requires req.op !in db.plans && WorkersCut(db, mid, order, req.op, now)
    requires r in mid.runs && i < |Ops(mid, r)|
    requires PlansOk(db) && Forward(db, mid)
    ensures Planned(Frozen(db, mid, root, order, req, now), r, Ops(mid, r)[i])
  {
    hide PlansOk, Entries, Forward, RunEntryForward, WorkersCut;
    KnownRun(db, mid, order, req.op, now, r);
    CutPlans(db, mid, order, req.op, now);
    if i < |Ops(db, r)| {
      OldOperation(db, mid, r, i);
    } else {
      NewOperation(db, mid, order, req.op, now, r, i);
    }
  }

  lemma PlansCore(db: Db, db': Db)
    requires Core(db, {}) && db' == db.(plans := db'.plans) && PlansForward(db.plans, db'.plans)
    ensures Core(db', {}) && Forward(db, db')
  {
    hide RunsOk, CrossOk, ForestOk, PublicationsDistinct, EventsOk, RetiredOk, RunsForward, WorkersForward, Select;
    RunsUnaffected(db, db');
    EventsSame(db, db');
    RetiredSame(db, db', {});
    RunsEntriesForward(db, db');
    WorkersReflexive(db.workers);
    assert db'.events[..|db.events|] == db.events;
  }

  lemma NewPlansOk(db: Db, mid: Db, t: F.Tree, req: CancelRequest, now: Time)
    requires PlanBounds(F.Post(t), Entries(db, F.Post(t)), req) && req.op !in db.plans
    requires F.Shape(db.workers, t) && WorkersCut(db, mid, F.Post(t), req.op, now)
    requires PlansOk(db) && Forward(db, mid) && Forward(db, Frozen(db, mid, t.id, F.Post(t), req, now))
    ensures PlansOk(Frozen(db, mid, t.id, F.Post(t), req, now))
  {
    hide F.Post, F.Shape, Entries, WorkersCut, PlanOk, Planned, Forward;
    var db' := Frozen(db, mid, t.id, F.Post(t), req, now);
    CutPlans(db, mid, F.Post(t), req.op, now);
    forall op | op in db'.plans ensures PlanOk(db', op) {
      if op == req.op { NewPlanOk(db, mid, t, req, now); } else { PlanFrame(db, db', op); }
    }
    forall r, i | r in db'.runs && 0 <= i < |Ops(db', r)| ensures Planned(db', r, Ops(db', r)[i]) {
      CutPlanned(db, mid, t.id, F.Post(t), req, now, r, i);
    }
  }

  lemma CutPlans(db: Db, mid: Db, ws: seq<Id>, op: Id, now: Time)
    requires WorkersCut(db, mid, ws, op, now)
    ensures mid.plans == db.plans && mid.progress == db.progress && mid.dispositions == db.dispositions
  { }

  /** Freezing a new plan over the cut subtree keeps the whole invariant. */
  lemma FrozenIsGood(db: Db, mid: Db, t: F.Tree, req: CancelRequest, now: Time)
    requires PlanBounds(F.Post(t), Entries(db, F.Post(t)), req) && req.op !in db.plans
    requires F.Shape(db.workers, t) && WorkersCut(db, mid, F.Post(t), req.op, now)
    requires Sound(db, mid, {}, now) && Inv(db)
    ensures var db' := Frozen(db, mid, t.id, F.Post(t), req, now);
            Inv(db') && Forward(db, db') && Timely(db', now)
  {
    hide F.Post, F.Shape, Entries, WorkersCut, Core, PlansOk, ProjectionOk, WorkersForward, RunsForward, EventsForward;
    var db' := Frozen(db, mid, t.id, F.Post(t), req, now);
    CutPlans(db, mid, F.Post(t), req.op, now);
    PlansCore(mid, db');
    ForwardTrans(db, mid, db');
    NewPlansOk(db, mid, t, req, now);
    ProjectionFrame(db, db');
  }

  // --- A retried request -------------------------------------------------------------------------

  /** A run already under the request's operation is never fenced again: its live ticket is due. */
  lemma RetriedRun(db: Db, now: Time, r: Id, req: CancelRequest, expiresAt: Time, seed: nat)
    requires r in db.runs && !db.runs[r].state.Queued? && KnownOp(Ops(db, r), req.op)
    ensures var out := CancelRun(db, now, r, req, expiresAt, seed);
            out.Done? ==>
              && out.db == db && out.value.reused == {r}
              && exists t :: t in req.retry && t.run == r && out.value.tickets == [t]
  {
    hide ValidRun, SameIdentity, ValidCompletion, NextCompletion, KnownOp, CancelMatches;
  }

  ghost predicate UnderOperation(db: Db, r: Id, op: Id) {
    r in db.runs && !db.runs[r].state.Queued? && KnownOp(Ops(db, r), op)
  }

  /** The tickets a retry returns are the ones it was given, one for each run, in order. */
  ghost predicate Returned(out: Outcome<Tally>, db: Db, rs: seq<Id>, retry: seq<CancelTicket>) {
    out.Done? ==>
      && out.db == db && out.value.reused == (set r | r in rs)
      && TicketRuns(out.value.tickets) == rs
      && forall i :: 0 <= i < |out.value.tickets| ==> out.value.tickets[i] in retry
  }

  lemma ReturnedExtends(db: Db, mid: Outcome<Tally>, last: Outcome<Tally>, rs: seq<Id>, more: seq<Id>,
                        retry: seq<CancelTicket>)
    requires mid.Done? && last.Done? && Returned(mid, db, rs, retry) && Returned(last, db, more, retry)
    ensures Returned(Done(last.db, Join(mid.value, last.value)), db, rs + more, retry)
  {
    TicketsAppend(mid.value.tickets, last.value.tickets);
  }

  lemma {:induction false} RetriedRuns(db: Db, now: Time, rs: seq<Id>, req: CancelRequest, expiresAt: Time, seed: nat)
    requires forall i :: 0 <= i < |rs| ==> UnderOperation(db, rs[i], req.op)
    ensures Returned(CancelRuns(db, now, rs, req, expiresAt, seed), db, rs, req.retry)
  {
    hide CancelRun, KnownOp, Returned;
    if rs == [] {
      NothingReturned(db, req.retry);
    } else {
      var front, r := rs[..|rs| - 1], rs[|rs| - 1];
      RetriedRuns(db, now, front, req, expiresAt, seed);
      var mid := CancelRuns(db, now, front, req, expiresAt, seed);
      if mid.Done? {
        ReturnedTables(mid, db, front, req.retry);
        RetriedRun(db, now, r, req, expiresAt, seed);
        var last := CancelRun(db, now, r, req, expiresAt, seed);
        if last.Done? {
          OneReturned(last, db, r, req.retry);
          ReturnedExtends(db, mid, last, front, [r], req.retry);
          assert rs == front + [r];
        } else { RejectedReturned(last, db, rs, req.retry); }
      } else { RejectedReturned(mid, db, rs, req.retry); }
    }
  }

  lemma NothingReturned(db: Db, retry: seq<CancelTicket>)
    ensures Returned(Done(db, Tally([], {})), db, [], retry)
  { }

  lemma RejectedReturned(out: Outcome<Tally>, db: Db, rs: seq<Id>, retry: seq<CancelTicket>)
    requires out.Rejected?
    ensures Returned(out, db, rs, retry)
  { }

  lemma ReturnedTables(out: Outcome<Tally>, db: Db, rs: seq<Id>, retry: seq<CancelTicket>)
    requires out.Done? && Returned(out, db, rs, retry)
    ensures out.db == db
  { }

  lemma OneReturned(out: Outcome<Tally>, db: Db, r: Id, retry: seq<CancelTicket>)
    requires out.Done? && out.db == db && out.value.reused == {r}
    requires exists t :: t in retry && t.run == r && out.value.tickets == [t]
    ensures Returned(out, db, [r], retry)
  { }

  /** The unfinished runs of the workers, in ticket order. */
  function AllPending(db: Db, ws: seq<Id>): seq<Id> {
    if ws == [] then [] else AllPending(db, ws[..|ws| - 1]) + Pending(db, ws[|ws| - 1])
  }

  lemma {:induction false} RetriedWorkers(db: Db, now: Time, ws: seq<Id>, req: CancelRequest, expiresAt: Time,
                                          seed: nat)
    requires forall w :: w in ws ==> w in db.workers && !db.workers[w].lifecycle.Open?
    requires forall r :: r in db.runs && db.runs[r].worker in ws && !db.runs[r].state.Terminal() ==>
               UnderOperation(db, r, req.op)
    ensures Returned(CancelWorkers(db, now, ws, req, expiresAt, seed), db, AllPending(db, ws), req.retry)
  {
    hide CancelRuns, UnderOperation, Returned, Pending;
    if ws == [] {
      NothingReturned(db, req.retry);
    } else {
      var front, w := ws[..|ws| - 1], ws[|ws| - 1];
      RetriedWorkers(db, now, front, req, expiresAt, seed);
      var mid := CancelWorkers(db, now, front, req, expiresAt, seed);
      if mid.Done? {
        ReturnedTables(mid, db, AllPending(db, front), req.retry);
        var rs := Pending(db, w);
        forall i | 0 <= i < |rs| ensures UnderOperation(db, rs[i], req.op) { PendingIff(db, w, rs[i]); }
        RetriedRuns(db, now, rs, req, expiresAt, seed);
        var last := CancelRuns(db, now, rs, req, expiresAt, seed);
        if last.Done? {
          ReturnedExtends(db, mid, last, AllPending(db, front), rs, req.retry);
        } else { RejectedReturned(last, db, AllPending(db, ws), req.retry); }
      } else { RejectedReturned(mid, db, AllPending(db, ws), req.retry); }
    }
  }

  /** Whatever is unfinished below a frozen plan is under the plan's own operation. */
  lemma PlannedIsUnder(db: Db, op: Id, r: Id)
    requires op in db.plans && r in db.runs && db.runs[r].worker in db.plans[op].workers && !db.runs[r].state.Terminal()
    requires RunsOk(db) && PlanOk(db, op)
    ensures UnderOperation(db, r, op)
  {
    hide PlanTree, PlanFields, RowOk, HistoryOk, CompletionOk, Select, ControlOk, DistinctOps;
    assert RunOk(db, r);
    var plan := db.plans[op];
    var e := PlanEntry(db.runs[r].worker, r, ControllerCancel);
    var i :| 0 <= i < |plan.entries| && plan.entries[i] == e;
    assert EntryOk(db, op, plan, e);
  }

  // --- The request -------------------------------------------------------------------------------

  lemma PlanOrder(db: Db, op: Id, root: Id)
    requires op in db.plans && db.plans[op].root == root && root in db.workers
    requires F.Acyclic(db.workers) && PlanTree(db.workers, db.plans[op])
    ensures db.plans[op].workers == Order(db, root)
  {
    hide F.Shape, F.Post, F.Build;
    var t :| F.Shape(db.workers, t) && t.id == root && F.Post(t) == db.plans[op].workers;
    F.SubtreeShape(db.workers, root);
    F.ShapeUnique(db.workers, t, F.Subtree(db.workers, root));
  }

  /** A retry always finds its plan in agreement with the tables. */
  lemma RetryAgrees(db: Db, op: Id, root: Id)
    requires op in db.plans && db.plans[op].root == root && root in db.workers
    requires Core(db, {}) && PlanOk(db, op)
    ensures PlanAgrees(db.plans[op], Order(db, root), Entries(db, Order(db, root)))
  {
    hide PlanTree, F.Post, F.Subtree, F.Acyclic, EntryOk, Entries, RunsOk, CrossOk, EventsOk, WorkerTimesOk,
         RetiredOk, PublicationsDistinct;
    var plan, order := db.plans[op], Order(db, root);
    var entries := Entries(db, order);
    PlanOrder(db, op, root);
    forall i | 0 <= i < |entries| ensures entries[i] in plan.entries {
      var r := entries[i].run;
      EntriesIff(db, order, entries[i]);
      PlannedIsUnder(db, op, r);
    }
  }

  lemma RequestNotCorrupt(db: Db, root: Id, req: CancelRequest)
    requires Inv(db)
    ensures RequestError(db, root, req) != Some(CorruptData)
  {
    hide PlanOk, F.Post, F.Build, F.Acyclic, F.Shape, Entries, RunsOk, CrossOk, EventsOk, WorkerTimesOk, RetiredOk,
         PublicationsDistinct, PlanAgrees, ValidRequest;
    if root in db.workers {
      F.SubtreeShape(db.workers, root);
      if req.op in db.plans && db.plans[req.op].root == root {
        RetryAgrees(db, req.op, root);
      }
    }
  }

  lemma OrderFacts(db: Db, root: Id)
    requires root in db.workers && F.Acyclic(db.workers)
    ensures F.Shape(db.workers, F.Subtree(db.workers, root)) && F.Subtree(db.workers, root).id == root
    ensures F.Distinct(Order(db, root)) && ChildrenListed(db.workers, Order(db, root)) && root in Order(db, root)
    ensures forall w :: w in Order(db, root) ==> w in db.workers
  {
    hide F.Shape, F.Acyclic, F.Build, F.Subtree, F.ListedBefore;
    var t := F.Subtree(db.workers, root);
    F.SubtreeShape(db.workers, root);
    F.PostDistinct(db.workers, t);
    F.PostMember(t, root);
    hide F.Post;
    forall w | w in F.Post(t) ensures w in db.workers { F.PostInWorkers(db.workers, t, w); }
    forall i, c | 0 <= i < |F.Post(t)| && c in db.workers && db.workers[c].parent == Some(F.Post(t)[i])
      ensures F.ListedBefore(F.Post(t), i, c)
    {
      F.ChildrenFirst(db.workers, t, i, c);
    }
  }

  /** What an accepted request for a new plan did. */
  ghost predicate TreeCancelled(db: Db, now: Time, root: Id, req: CancelRequest, out: Outcome<CancelPlan>) {
    && out.Done? && root in db.workers
    && exists mid ::
         && WorkersCut(db, mid, Order(db, root), req.op, now)
         && out.db == Frozen(db, mid, root, Order(db, root), req, now)
         && TicketRuns(out.value.tickets) == Fenced(db, Order(db, root))
         && TicketsLive(mid, now, out.value.tickets)
  }

  lemma AcyclicWorkers(db: Db)
    requires Inv(db)
    ensures F.Acyclic(db.workers)
  {
    hide RunsOk, CrossOk, EventsOk, WorkerTimesOk, RetiredOk, PublicationsDistinct, PlansOk, ProjectionOk, KeysOk,
         F.Acyclic;
  }

  lemma InvParts(db: Db)
    requires Inv(db)
    ensures Core(db, {}) && PlansOk(db) && RunsOk(db)
  {
    hide KeysOk, ForestOk, RunsOk, CrossOk, EventsOk, WorkerTimesOk, RetiredOk, PublicationsDistinct, PlansOk,
         ProjectionOk;
  }

  lemma LeaseLasts(now: Time, seconds: nat)
    requires ValidLease(seconds)
    ensures now < After(now, seconds)
  { }

  lemma RunReason(db: Db, now: Time, r: Id, req: CancelRequest)
    requires r in db.runs && Core(db, {}) && Timely(db, now)
    ensures RunRefusal(db, now, r, req) != Some(CorruptData)
  {
    hide Core, ActiveOp, CancelMatches;
    ActiveIsCancelling(db, {}, now, r);
  }

  lemma {:induction false} RunsReason(db: Db, now: Time, rs: seq<Id>, req: CancelRequest)
    requires forall i :: 0 <= i < |rs| ==> rs[i] in db.runs
    requires Core(db, {}) && Timely(db, now)
    ensures RunsRefusal(db, now, rs, req) != Some(CorruptData)
  {
    hide Core, RunRefusal;
    if rs == [] {
    } else {
      RunsReason(db, now, rs[..|rs| - 1], req);
      RunReason(db, now, rs[|rs| - 1], req);
    }
  }

  /** No run, and no worker of the plan, has rows the request would have to call corrupt. */
  lemma {:induction false} ScopeReason(db: Db, now: Time, ws: seq<Id>, req: CancelRequest)
    requires forall w :: w in ws ==> w in db.workers && (req.op in db.plans ==> !db.workers[w].lifecycle.Open?)
    requires Core(db, {}) && Timely(db, now)
    ensures ScopeRefusal(db, now, ws, req) != Some(CorruptData)
  {
    hide Core, RunsRefusal, Pending;
    if ws == [] {
    } else {
      ScopeReason(db, now, ws[..|ws| - 1], req);
      PendingKnown(db, ws[|ws| - 1]);
      RunsReason(db, now, Pending(db, ws[|ws| - 1]), req);
    }
  }

  lemma WhyNotCorrupt(db: Db, now: Time, ws: seq<Id>, req: CancelRequest, written: Error)
    requires forall w :: w in ws ==> w in db.workers && (req.op in db.plans ==> !db.workers[w].lifecycle.Open?)
    requires written != CorruptData && Core(db, {}) && Timely(db, now)
    ensures WhyRefused(db, now, ws, req, written) != CorruptData
  {
    hide Core, ScopeRefusal, ScopePresented;
    ScopeReason(db, now, ws, req);
  }

  lemma NewRequestIsGood(db: Db, now: Time, root: Id, req: CancelRequest, seed: nat)
    requires RequestError(db, root, req).None? && req.op !in db.plans
    requires Inv(db) && Timely(db, now)
    ensures Good(db, now, RequestCancelTree(db, now, root, req, seed))
    ensures RequestCancelTree(db, now, root, req, seed).Done? ==>
              TreeCancelled(db, now, root, req, RequestCancelTree(db, now, root, req, seed))
  {
    hide Inv, Core, Forward, F.Acyclic, F.Post, F.Subtree, F.Shape, Entries, CancelWorkers, WorkersCut, Fenced,
         TicketsLive, ChildrenListed, WhyRefused;
    AcyclicWorkers(db);
    OrderFacts(db, root);
    InvParts(db);
    var order, expiresAt := Order(db, root), After(now, req.leaseSeconds);
    LeaseLasts(now, req.leaseSeconds);
    CancelWorkersCuts(db, now, order, req, expiresAt, seed);
    var mid := CancelWorkers(db, now, order, req, expiresAt, seed);
    if mid.Done? {
      FrozenIsGood(db, mid.db, F.Subtree(db.workers, root), req, now);
    } else {
      WhyNotCorrupt(db, now, order, req, mid.error);
    }
  }

  lemma PlansParts(db: Db, op: Id)
    requires PlansOk(db) && op in db.plans
    ensures PlanOk(db, op)
  { }

  lemma PlanScopeClosed(db: Db, op: Id)
    requires op in db.plans && PlanOk(db, op)
    ensures forall w :: w in db.plans[op].workers ==> w in db.workers && !db.workers[w].lifecycle.Open?
    ensures PlanTree(db.workers, db.plans[op])
  { }

  /** A retried request, if accepted, changes nothing and returns the very tickets it was given. */
  lemma RetryReturns(db: Db, now: Time, root: Id, req: CancelRequest, seed: nat)
    requires RequestError(db, root, req).None? && req.op in db.plans
    requires Inv(db)
    ensures var out := RequestCancelTree(db, now, root, req, seed);
            out.Done? ==>
              && out.db == db && TicketRuns(out.value.tickets) == AllPending(db, Order(db, root))
              && (forall i :: 0 <= i < |out.value.tickets| ==> out.value.tickets[i] in req.retry)
              && |req.retry| == |set r | r in AllPending(db, Order(db, root))|
  {
    hide Core, PlansOk, PlanOk, F.Acyclic, F.Post, F.Subtree, F.Shape, Entries, CancelWorkers, UnderOperation,
         AllPending, PlanTree;
    AcyclicWorkers(db);
    InvParts(db);
    var op, order := req.op, Order(db, root);
    PlansParts(db, op);
    PlanScopeClosed(db, op);
    PlanOrder(db, op, root);
    forall r | r in db.runs && db.runs[r].worker in order && !db.runs[r].state.Terminal()
      ensures UnderOperation(db, r, op)
    {
      PlannedIsUnder(db, op, r);
    }
    RetriedWorkers(db, now, order, req, After(now, req.leaseSeconds), seed);
  }

  lemma CancelTreeIsGood(db: Db, now: Time, root: Id, req: CancelRequest, seed: nat)
    requires Inv(db) && Timely(db, now)
    ensures Good(db, now, RequestCancelTree(db, now, root, req, seed))
  {
    hide Inv, Forward, RequestError, CancelWorkers, Entries, Order;
    RequestNotCorrupt(db, root, req);
    if RequestError(db, root, req).None? {
      if req.op in db.plans {
        RetryNotCorrupt(db, now, root, req, seed);
        RetryReturns(db, now, root, req, seed);
        ForwardReflexive(db);
      } else {
        NewRequestIsGood(db, now, root, req, seed);
      }
    }
  }

  lemma RetryNotCorrupt(db: Db, now: Time, root: Id, req: CancelRequest, seed: nat)
    requires RequestError(db, root, req).None? && req.op in db.plans
    requires Inv(db) && Timely(db, now)
    ensures RequestCancelTree(db, now, root, req, seed) != Rejected(CorruptData)
  {
    hide Inv, Core, PlansOk, PlanOk, Forward, F.Acyclic, F.Post, F.Subtree, F.Shape, Entries, CancelWorkers,
         WorkersCut, Fenced, TicketsLive, ChildrenListed, PlanTree, WhyRefused;
    AcyclicWorkers(db);
    OrderFacts(db, root);
    InvParts(db);
    PlansParts(db, req.op);
    PlanScopeClosed(db, req.op);
    PlanOrder(db, req.op, root);
    LeaseLasts(now, req.leaseSeconds);
    CancelWorkersCuts(db, now, Order(db, root), req, After(now, req.leaseSeconds), seed);
    var out := CancelWorkers(db, now, Order(db, root), req, After(now, req.leaseSeconds), seed);
    if out.Rejected? { WhyNotCorrupt(db, now, Order(db, root), req, out.error); }
  }
}
