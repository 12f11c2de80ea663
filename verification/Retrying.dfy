/** A tree cancellation can be repeated with its own tickets: the same answer, and nothing changes. */
module Retrying {
  import opened AgentTypes
  import opened Tables
  import opened Operations
  import opened CancelTree
  import opened Invariant
  import opened Progress
  import opened CancelSteps
  import opened CancelScope
  import opened CancelPlans
  import D = Draining
  import F = Forest
  import O = Ordering

  ghost predicate DistinctRuns(ts: seq<CancelTicket>) {
    forall i, j :: 0 <= i < j < |ts| ==> ts[i].run != ts[j].run
  }

  /** Tickets of this very request. */
  ghost predicate OwnTickets(req: CancelRequest, ts: seq<CancelTicket>) {
    forall i :: 0 <= i < |ts| ==> ts[i].op == req.op && ts[i].leaseOwner == req.leaseOwner
  }

  lemma RetriedRunAccepted(db: Db, now: Time, r: Id, req: CancelRequest, expiresAt: Time, seed: nat)
    requires r in db.runs && !db.runs[r].state.Queued? && r in TicketRuns(req.retry)
    requires TicketsLive(db, now, req.retry) && OwnTickets(req, req.retry)
    ensures CancelRun(db, now, r, req, expiresAt, seed).Done?
  {
    hide Advance;
    var k :| 0 <= k < |req.retry| && TicketRuns(req.retry)[k] == r;
    var found := FindRetry(req.retry, r);
    assert req.retry[k].run == r;
    var i :| 0 <= i < |req.retry| && req.retry[i] == found.value;
    assert CancelTicketLive(db, now, req.retry[i]);
  }

  lemma {:induction false} RetriedRunsAccepted(db: Db, now: Time, rs: seq<Id>, req: CancelRequest, expiresAt: Time,
                                               seed: nat)
    requires forall i :: 0 <= i < |rs| ==> UnderOperation(db, rs[i], req.op) && rs[i] in TicketRuns(req.retry)
    requires TicketsLive(db, now, req.retry) && OwnTickets(req, req.retry)
    ensures CancelRuns(db, now, rs, req, expiresAt, seed).Done?
  {
    hide CancelRun, TicketsLive, OwnTickets, KnownOp, Returned;
    if rs == [] {
    } else {
      var front, r := rs[..|rs| - 1], rs[|rs| - 1];
      RetriedRunsAccepted(db, now, front, req, expiresAt, seed);
      RetriedRuns(db, now, front, req, expiresAt, seed);
      ReturnedTables(CancelRuns(db, now, front, req, expiresAt, seed), db, front, req.retry);
      RetriedRunAccepted(db, now, r, req, expiresAt, seed);
    }
  }

  lemma {:induction false} RetriedWorkersAccepted(db: Db, now: Time, ws: seq<Id>, req: CancelRequest, expiresAt: Time,
                                                  seed: nat)
    requires forall w :: w in ws ==> w in db.workers && !db.workers[w].lifecycle.Open?
    requires forall r :: r in db.runs && db.runs[r].worker in ws && !db.runs[r].state.Terminal() ==>
                           UnderOperation(db, r, req.op) && r in TicketRuns(req.retry)
    requires TicketsLive(db, now, req.retry) && OwnTickets(req, req.retry)
    ensures CancelWorkers(db, now, ws, req, expiresAt, seed).Done?
  {
    hide CancelRuns, TicketsLive, OwnTickets, UnderOperation, Returned, Pending, AllPending;
    if ws == [] {
    } else {
      var front, w := ws[..|ws| - 1], ws[|ws| - 1];
      RetriedWorkersAccepted(db, now, front, req, expiresAt, seed);
      RetriedWorkers(db, now, front, req, expiresAt, seed);
      ReturnedTables(CancelWorkers(db, now, front, req, expiresAt, seed), db, AllPending(db, front), req.retry);
      var rs := Pending(db, w);
      forall i | 0 <= i < |rs| ensures UnderOperation(db, rs[i], req.op) && rs[i] in TicketRuns(req.retry) {
        PendingIff(db, w, rs[i]);
      }
      RetriedRunsAccepted(db, now, rs, req, expiresAt, seed);
    }
  }

  // --- Sizes -------------------------------------------------------------------------------------

  function Members<T>(s: seq<T>): set<T> {
    set x | x in s
  }

  lemma {:induction false} DistinctSize<T>(s: seq<T>)
    requires forall i, j :: 0 <= i < j < |s| ==> s[i] != s[j]
    ensures |Members(s)| == |s|
  {
    if s == [] {
    } else {
      var front, last := s[..|s| - 1], s[|s| - 1];
      DistinctSize(front);
      assert last !in front;
      assert Members(s) == Members(front) + {last};
    }
  }

  lemma {:induction false} AnySize<T>(s: seq<T>)
    ensures |Members(s)| <= |s|
  {
    if s == [] {
    } else {
      var front, last := s[..|s| - 1], s[|s| - 1];
      AnySize(front);
      assert Members(s) == Members(front) + {last};
    }
  }

  lemma SubsetSize<T>(a: set<T>, b: set<T>)
    requires a <= b
    ensures |a| <= |b|
  {
    assert b == a + (b - a);
  }

  lemma FitsInside<T>(s: seq<T>, t: seq<T>)
    requires forall i, j :: 0 <= i < j < |s| ==> s[i] != s[j]
    requires forall i :: 0 <= i < |s| ==> s[i] in t
    ensures |s| <= |t|
  {
    DistinctSize(s);
    AnySize(t);
    SubsetSize(Members(s), Members(t));
  }

  lemma {:induction false} EntriesForRuns(db: Db, rs: seq<Id>)
    requires forall i :: 0 <= i < |rs| ==> rs[i] in db.runs
    ensures |EntriesFor(db, rs)| == |rs| && forall i :: 0 <= i < |rs| ==> EntriesFor(db, rs)[i].run == rs[i]
  {
    if rs == [] {
    } else {
      EntriesForRuns(db, rs[1..]);
    }
  }

  lemma {:induction false} EntriesDistinct(db: Db, ws: seq<Id>)
    requires F.Distinct(ws)
    ensures forall i, j :: 0 <= i < j < |Entries(db, ws)| ==> Entries(db, ws)[i] != Entries(db, ws)[j]
  {
    hide Pending, EntriesFor;
    if ws == [] {
    } else {
      var rest, rs := ws[1..], Pending(db, ws[0]);
      var head, tail := EntriesFor(db, rs), Entries(db, rest);
      EntriesDistinct(db, rest);
      PendingKnown(db, ws[0]);
      PendingDistinct(db, ws[0]);
      EntriesForRuns(db, rs);
      forall i, j | 0 <= i < j < |head + tail| ensures (head + tail)[i] != (head + tail)[j] {
        if i < |head| <= j {
          PendingIff(db, ws[0], rs[i]);
          EntriesIff(db, rest, tail[j - |head|]);
          assert tail[j - |head|] in tail;
        }
      }
    }
  }

  /** A frozen plan stays within the bounds its request was checked against. */
  lemma PlanStaysBounded(db: Db, op: Id, root: Id)
    requires op in db.plans && db.plans[op].root == root && root in db.workers
    requires Core(db, {}) && PlanOk(db, op) && F.Acyclic(db.workers)
    ensures |Order(db, root)| <= MAX_TOPOLOGY_NODES && |Entries(db, Order(db, root))| <= MAX_TREE_CANCEL_RUNS
  {
    hide Core, F.Acyclic, F.Post, F.Subtree, Entries, EntryOk, PlanTree, ChildrenListed;
    RetryAgrees(db, op, root);
    OrderFacts(db, root);
    EntriesDistinct(db, Order(db, root));
    FitsInside(Entries(db, Order(db, root)), db.plans[op].entries);
  }

  // --- A retry with the tickets of everything unfinished -----------------------------------------

  lemma SameTickets(ts: seq<CancelTicket>, us: seq<CancelTicket>)
    requires DistinctRuns(ts) && TicketRuns(us) == TicketRuns(ts) && forall i :: 0 <= i < |us| ==> us[i] in ts
    ensures us == ts
  {
    forall i | 0 <= i < |us| ensures us[i] == ts[i] {
      var u := us[i];
      assert u in ts;
      var k :| 0 <= k < |ts| && ts[k] == u;
      assert TicketRuns(us)[i] == TicketRuns(ts)[i];
    }
  }

  lemma RetryRequestValid(db: Db, root: Id, req: CancelRequest)
    requires root in db.workers && req.op in db.plans
    requires var plan := db.plans[req.op];
             plan.root == root && plan.leaseOwner == req.leaseOwner && plan.leaseSeconds == req.leaseSeconds
    requires |req.retry| <= MAX_TREE_CANCEL_RUNS && OwnTickets(req, req.retry) && DistinctRuns(req.retry)
    requires Inv(db)
    ensures RequestError(db, root, req).None?
  {
    hide Core, PlansOk, PlanOk, F.Acyclic, F.Post, F.Build, F.Shape, Entries, PlanAgrees, ProjectionOk;
    AcyclicWorkers(db);
    InvParts(db);
    PlansParts(db, req.op);
    RetryAgrees(db, req.op, root);
    PlanStaysBounded(db, req.op, root);
    F.SubtreeShape(db.workers, root);
    PlanLease(db, req.op);
  }

  lemma PlanLease(db: Db, op: Id)
    requires op in db.plans && PlanOk(db, op)
    ensures ValidLease(db.plans[op].leaseSeconds)
  {
    hide PlanTree, EntryOk;
  }

  lemma {:induction false} AllPendingIff(db: Db, ws: seq<Id>, r: Id)
    ensures r in AllPending(db, ws) <==> r in db.runs && db.runs[r].worker in ws && !db.runs[r].state.Terminal()
  {
    hide Pending;
    if ws == [] {
    } else {
      AllPendingIff(db, ws[..|ws| - 1], r);
      PendingIff(db, ws[|ws| - 1], r);
    }
  }

  lemma {:induction false} AllPendingDistinct(db: Db, ws: seq<Id>)
    requires F.Distinct(ws)
    ensures F.Distinct(AllPending(db, ws))
  {
    hide Pending;
    if ws == [] {
    } else {
      var front, w := ws[..|ws| - 1], ws[|ws| - 1];
      AllPendingDistinct(db, front);
      PendingDistinct(db, w);
      forall x | x in AllPending(db, front) ensures x !in Pending(db, w) {
        AllPendingIff(db, front, x);
        PendingIff(db, w, x);
      }
      F.DistinctConcat(AllPending(db, front), Pending(db, w));
    }
  }

  /** Live tickets of this request, one for each unfinished run of the subtree in order. */
  ghost predicate Complete(db: Db, now: Time, root: Id, req: CancelRequest, ts: seq<CancelTicket>) {
    TicketRuns(ts) == AllPending(db, Order(db, root)) && TicketsLive(db, now, ts) && OwnTickets(req, ts)
  }

  lemma CompleteIsSmall(db: Db, root: Id, req: CancelRequest, ts: seq<CancelTicket>)
    requires root in db.workers && req.op in db.plans && db.plans[req.op].root == root
    requires TicketRuns(ts) == AllPending(db, Order(db, root))
    requires Inv(db)
    ensures DistinctRuns(ts) && |ts| <= MAX_TREE_CANCEL_RUNS
  {
    hide Core, PlansOk, PlanOk, F.Acyclic, F.Post, F.Subtree, Entries, ProjectionOk, ChildrenListed, AllPending,
         EntryFor;
    AcyclicWorkers(db);
    InvParts(db);
    PlansParts(db, req.op);
    OrderFacts(db, root);
    var order := Order(db, root);
    AllPendingDistinct(db, order);
    PlanStaysBounded(db, req.op, root);
    forall i, j | 0 <= i < j < |ts| ensures ts[i].run != ts[j].run {
      assert TicketRuns(ts)[i] != TicketRuns(ts)[j];
    }
    var es := Entries(db, order);
    var runs := seq(|es|, i requires 0 <= i < |es| => es[i].run);
    forall i | 0 <= i < |ts| ensures TicketRuns(ts)[i] in runs {
      var r := TicketRuns(ts)[i];
      AllPendingIff(db, order, r);
      EntriesIff(db, order, EntryFor(db, r));
      EntryRun(db, r);
      var k :| 0 <= k < |es| && es[k] == EntryFor(db, r);
      assert runs[k] == r;
    }
    FitsInside(TicketRuns(ts), runs);
  }

  lemma EntryRun(db: Db, r: Id)
    requires r in db.runs
    ensures EntryFor(db, r).run == r
  { }

  /** The retry is accepted, changes no table and returns the same tickets in the same order. */
  lemma RetryIsIdempotent(db: Db, now: Time, root: Id, req: CancelRequest, seed: nat)
    requires root in db.workers && req.op in db.plans
    requires var plan := db.plans[req.op];
             plan.root == root && plan.leaseOwner == req.leaseOwner && plan.leaseSeconds == req.leaseSeconds
    requires Complete(db, now, root, req, req.retry)
    requires Inv(db)
    ensures RequestCancelTree(db, now, root, req, seed) == Done(db, CancelPlan(root, req.retry))
  {
    hide Core, PlansOk, PlanOk, F.Acyclic, F.Post, F.Subtree, Entries, ProjectionOk, AllPending, TicketsLive,
         OwnTickets, DistinctRuns,
         CancelWorkers, RequestError, UnderOperation, PlanTree, Returned;
    var order := Order(db, root);
    CompleteIsSmall(db, root, req, req.retry);
    RetryRequestValid(db, root, req);
    AcyclicWorkers(db);
    InvParts(db);
    PlansParts(db, req.op);
    PlanScopeClosed(db, req.op);
    PlanOrder(db, req.op, root);
    forall r | r in db.runs && db.runs[r].worker in order && !db.runs[r].state.Terminal()
      ensures UnderOperation(db, r, req.op) && r in TicketRuns(req.retry)
    {
      PlannedIsUnder(db, req.op, r);
      AllPendingIff(db, order, r);
    }
    var expiresAt := After(now, req.leaseSeconds);
    RetriedWorkersAccepted(db, now, order, req, expiresAt, seed);
    RetriedWorkers(db, now, order, req, expiresAt, seed);
    ReturnedAll(CancelWorkers(db, now, order, req, expiresAt, seed), db, req.retry);
  }

  lemma ReturnedAll(out: Outcome<Tally>, db: Db, ts: seq<CancelTicket>)
    requires out.Done? && DistinctRuns(ts) && Returned(out, db, TicketRuns(ts), ts)
    ensures out.db == db && out.value.tickets == ts && |out.value.reused| == |ts|
  {
    SameTickets(ts, out.value.tickets);
    DistinctSize(TicketRuns(ts));
    assert out.value.reused == Members(TicketRuns(ts));
  }

  // --- The tickets of a new request are complete -------------------------------------------------

  lemma AtMostOne(s: seq<Id>, t: seq<Id>)
    requires F.Distinct(s) && F.Distinct(t) && forall x :: x in s <==> x in t
    requires forall x, y :: x in s && y in s ==> x == y
    ensures s == t
  {
    DistinctSize(s);
    DistinctSize(t);
    assert Members(s) == Members(t);
    if s != [] {
      assert s[0] in s;
      assert Members(s) == {s[0]};
      assert t[0] in t;
    } else {
      assert Members(s) == {};
    }
  }

  lemma {:induction false} ControlledIff(db: Db, rs: seq<Id>, x: Id)
    requires forall i :: 0 <= i < |rs| ==> rs[i] in db.runs
    ensures x in Controlled(db, rs) <==> x in rs && !db.runs[x].state.Queued?
  {
    if rs == [] {
    } else {
      ControlledIff(db, rs[..|rs| - 1], x);
    }
  }

  lemma {:induction false} ControlledDistinct(db: Db, rs: seq<Id>)
    requires F.Distinct(rs)
    ensures F.Distinct(Controlled(db, rs))
  {
    if rs == [] {
    } else {
      var front, r := rs[..|rs| - 1], rs[|rs| - 1];
      ControlledDistinct(db, front);
      if r in Controlled(db, front) { ControlledWithin(db, front, r); }
    }
  }

  /** What stays unfinished under a cut worker is its one controlled run. */
  lemma PendingAfterCut(db: Db, mid: Db, ws: seq<Id>, w: Id, op: Id, now: Time)
    requires WorkersCut(db, mid, ws, op, now) && w in ws && OneActive(db.runs)
    ensures Pending(mid, w) == Controlled(db, Pending(db, w))
  {
    hide Pending, Controlled;
    var s, t := Pending(mid, w), Controlled(db, Pending(db, w));
    PendingKnown(db, w);
    PendingDistinct(mid, w);
    PendingDistinct(db, w);
    ControlledDistinct(db, Pending(db, w));
    forall x ensures x in s <==> x in t {
      PendingIff(mid, w, x);
      PendingIff(db, w, x);
      ControlledIff(db, Pending(db, w), x);
      if x in mid.runs { assert Covered(db, mid, ws, x, op); }
    }
    forall x, y | x in s && y in s ensures x == y {
      ControlledIff(db, Pending(db, w), x);
      ControlledIff(db, Pending(db, w), y);
      PendingIff(db, w, x);
      PendingIff(db, w, y);
    }
    AtMostOne(s, t);
  }

  lemma {:induction false} AllPendingAfterCut(db: Db, mid: Db, ws: seq<Id>, front: seq<Id>, op: Id, now: Time)
    requires WorkersCut(db, mid, ws, op, now) && OneActive(db.runs) && forall w :: w in front ==> w in ws
    ensures AllPending(mid, front) == Fenced(db, front)
  {
    hide WorkersCut, OneActive, Pending, Controlled;
    if front == [] {
    } else {
      AllPendingAfterCut(db, mid, ws, front[..|front| - 1], op, now);
      PendingAfterCut(db, mid, ws, front[|front| - 1], op, now);
    }
  }

  lemma OneActiveOf(db: Db)
    requires Inv(db)
    ensures OneActive(db.runs)
  {
    hide RunsOk, PublicationsDistinct, EventsOk, RetiredOk, PlansOk, ProjectionOk, ForestOk, WorkerTimesOk, KeysOk;
  }

  /** The tickets handed out for a new plan carry the request's own operation and lease owner. */
  lemma FreshTickets(db: Db, now: Time, r: Id, req: CancelRequest, expiresAt: Time, seed: nat)
    ensures var out := CancelRun(db, now, r, req, expiresAt, seed);
            out.Done? ==> forall i :: 0 <= i < |out.value.tickets| ==>
                            (out.value.tickets[i].op == req.op && out.value.tickets[i].leaseOwner == req.leaseOwner)
                                || out.value.tickets[i] in req.retry
  {
    hide Advance, ActiveOp, CancelMatches;
  }

  ghost predicate OwnOrGiven(req: CancelRequest, ts: seq<CancelTicket>) {
    forall i :: 0 <= i < |ts| ==> (ts[i].op == req.op && ts[i].leaseOwner == req.leaseOwner) || ts[i] in req.retry
  }

  lemma {:induction false} FreshTicketsOfRuns(db: Db, now: Time, rs: seq<Id>, req: CancelRequest, expiresAt: Time,
                                              seed: nat)
    ensures var out := CancelRuns(db, now, rs, req, expiresAt, seed); out.Done? ==> OwnOrGiven(req, out.value.tickets)
  {
    hide CancelRun;
    if rs == [] {
    } else {
      FreshTicketsOfRuns(db, now, rs[..|rs| - 1], req, expiresAt, seed);
      var mid := CancelRuns(db, now, rs[..|rs| - 1], req, expiresAt, seed);
      if mid.Done? { FreshTickets(mid.db, now, rs[|rs| - 1], req, expiresAt, seed); }
    }
  }

  lemma {:induction false} FreshTicketsOfWorkers(db: Db, now: Time, ws: seq<Id>, req: CancelRequest, expiresAt: Time,
                                                 seed: nat)
    ensures var out := CancelWorkers(db, now, ws, req, expiresAt, seed); out.Done? ==>
              OwnOrGiven(req, out.value.tickets)
  {
    hide CancelRuns, Pending, ValidWorker;
    if ws == [] {
    } else {
      FreshTicketsOfWorkers(db, now, ws[..|ws| - 1], req, expiresAt, seed);
      var mid, w := CancelWorkers(db, now, ws[..|ws| - 1], req, expiresAt, seed), ws[|ws| - 1];
      if mid.Done? && w in mid.db.workers {
        FreshTicketsOfRuns(mid.db, now, Pending(mid.db, w), req, expiresAt, seed);
        FreshTicketsOfRuns(mid.db.(workers := mid.db.workers[w := DrainedRow(mid.db.workers[w], now)]), now,
                           Pending(mid.db, w), req, expiresAt, seed);
      }
    }
  }

  lemma RequestIsOwn(db: Db, now: Time, root: Id, req: CancelRequest, seed: nat)
    requires RequestCancelTree(db, now, root, req, seed).Done?
    ensures OwnTickets(req, RequestCancelTree(db, now, root, req, seed).value.tickets)
  {
    hide CancelWorkers, Entries, F.Post, F.Subtree, F.Shape;
    FreshTicketsOfWorkers(db, now, Order(db, root), req, After(now, req.leaseSeconds), seed);
  }

  lemma AllPendingFrame(db: Db, db': Db, ws: seq<Id>)
    requires db'.runs == db.runs
    ensures AllPending(db', ws) == AllPending(db, ws)
  {
    hide Pending;
    if ws != [] {
      AllPendingFrame(db, db', ws[..|ws| - 1]);
      PendingFrame(db, db', ws[|ws| - 1]);
    }
  }

  /** An accepted request leaves complete tickets behind, in the tables it commits. */
  lemma RequestIsComplete(db: Db, now: Time, root: Id, req: CancelRequest, seed: nat)
    requires RequestCancelTree(db, now, root, req, seed).Done?
    requires Inv(db) && Timely(db, now)
    ensures var out := RequestCancelTree(db, now, root, req, seed);
            && Order(out.db, root) == Order(db, root)
            && Complete(out.db, now, root, req, out.value.tickets)
  {
    hide Inv, Core, Forward, CancelWorkers, Entries, F.Post, F.Shape, F.Acyclic, F.Subtree, WorkersCut, Fenced,
         TicketsLive, D.Covering, Sound, OwnTickets, OneActive, AllPending;
    var out, order := RequestCancelTree(db, now, root, req, seed), Order(db, root);
    CancelTreeIsGood(db, now, root, req, seed);
    D.RequestCuts(db, now, root, req, seed);
    D.RequestCovers(db, now, root, req, seed);
    RequestIsOwn(db, now, root, req, seed);
    OneActiveOf(db);
    var mid := CancelWorkers(db, now, order, req, After(now, req.leaseSeconds), seed);
    AllPendingAfterCut(db, mid.db, order, order, req.op, now);
    AllPendingFrame(mid.db, out.db, order);
    KeepsWorker(db, out.db, root);
    SameOrder(db, out.db, root);
  }

  lemma KeepsWorker(db: Db, db': Db, w: Id)
    requires Forward(db, db') && w in db.workers
    ensures w in db'.workers
  { }

  lemma SameOrder(db: Db, db': Db, root: Id)
    requires root in db.workers && root in db'.workers && F.Shape(db'.workers, F.Subtree(db.workers, root))
    requires Inv(db')
    ensures Order(db', root) == Order(db, root)
  {
    hide Inv, F.Post, F.Shape, F.Acyclic, F.Build;
    AcyclicWorkers(db');
    F.SubtreeShape(db'.workers, root);
    F.ShapeUnique(db'.workers, F.Subtree(db.workers, root), F.Subtree(db'.workers, root));
  }

  // --- The theorem -------------------------------------------------------------------------------

  /** Between two versions of the tables no step touched a run of these workers. */
  ghost predicate SubtreeIdle(db: Db, db': Db, scope: seq<Id>) {
    forall r :: r in db.runs && db.runs[r].worker in scope ==> Untouched(db, db', r)
  }

  lemma IdlePending(db: Db, db': Db, scope: seq<Id>, w: Id)
    requires SubtreeIdle(db, db', scope) && w in scope && w in db.workers && !db.workers[w].lifecycle.Open?
    requires RunsForward(db, db')
    ensures Pending(db', w) == Pending(db, w)
  {
    hide Pending, Untouched, RunEntryForward;
    forall x | x in db'.runs && db'.runs[x].worker == w
      ensures x in db.runs && db.runs[x].worker == w && db'.runs[x] == db.runs[x]
    {
      if x in db.runs { SameWorkerRun(db, db', x); }
      UntouchedRow(db, db', x);
    }
    forall x | x in db.runs && db.runs[x].worker == w ensures x in db'.runs && db'.runs[x] == db.runs[x] {
      UntouchedRow(db, db', x);
    }
    SamePending(db, db', w);
  }

  lemma SameWorkerRun(db: Db, db': Db, r: Id)
    requires r in db.runs && RunsForward(db, db')
    ensures r in db'.runs && db'.runs[r].worker == db.runs[r].worker
  {
    assert RunEntryForward(db, db', r);
  }

  lemma UntouchedRow(db: Db, db': Db, r: Id)
    ensures Untouched(db, db', r) ==> r in db.runs && r in db'.runs && db'.runs[r] == db.runs[r]
  { }

  lemma SamePending(db: Db, db': Db, w: Id)
    requires forall x :: x in db'.runs && db'.runs[x].worker == w ==>
               x in db.runs && db.runs[x].worker == w && db'.runs[x] == db.runs[x]
    requires forall x :: x in db.runs && db.runs[x].worker == w ==> x in db'.runs && db'.runs[x] == db.runs[x]
    ensures Pending(db', w) == Pending(db, w)
  {
    hide O.Sort, O.Ids;
    assert (set x | x in db'.runs && db'.runs[x].worker == w && !db'.runs[x].state.Terminal()
              :: O.Row(CancelRank(db'.runs[x].state), db'.runs[x].createdAt, x))
        == (set x | x in db.runs && db.runs[x].worker == w && !db.runs[x].state.Terminal()
              :: O.Row(CancelRank(db.runs[x].state), db.runs[x].createdAt, x));
  }

  lemma {:induction false} IdleAllPending(db: Db, db': Db, scope: seq<Id>, ws: seq<Id>)
    requires SubtreeIdle(db, db', scope) && forall w :: w in ws ==>
               w in scope && w in db.workers && !db.workers[w].lifecycle.Open?
    requires RunsForward(db, db')
    ensures AllPending(db', ws) == AllPending(db, ws)
  {
    hide Pending, SubtreeIdle, RunsForward;
    if ws == [] {
    } else {
      IdleAllPending(db, db', scope, ws[..|ws| - 1]);
      IdlePending(db, db', scope, ws[|ws| - 1]);
    }
  }

  lemma IdleLive(db: Db, db': Db, scope: seq<Id>, now: Time, now': Time, ts: seq<CancelTicket>)
    requires SubtreeIdle(db, db', scope) && TicketsLive(db, now, ts)
    requires forall i :: 0 <= i < |ts| ==>
               now' < ts[i].expiresAt && ts[i].run in db.runs && db.runs[ts[i].run].worker in scope
    ensures TicketsLive(db', now', ts)
  {
    hide CancelTicketLive, Untouched;
    forall i | 0 <= i < |ts| ensures ts[i].run in db'.runs && CancelTicketLive(db', now', ts[i]) {
      LiveStays(db, db', now, ts[i]);
      D.LiveLater(db', now, now', ts[i]);
    }
  }

  lemma RequestFreezes(db: Db, now: Time, root: Id, req: CancelRequest, seed: nat)
    requires RequestCancelTree(db, now, root, req, seed).Done?
    ensures root in db.workers
    ensures var db' := RequestCancelTree(db, now, root, req, seed).db;
            req.op in db.plans || (req.op in db'.plans
                                   && db'.plans[req.op] == NewPlan(root, Order(db, root),
                                                                   Entries(db, Order(db, root)), req, now))
    ensures req.op in db.plans ==>
              var plan := db.plans[req.op];
              plan.root == root && plan.leaseOwner == req.leaseOwner && plan.leaseSeconds == req.leaseSeconds
  {
    hide CancelWorkers, Entries, F.Post, F.Subtree, F.Shape;
  }

  lemma KeepsPlan(db: Db, db': Db, op: Id)
    requires Forward(db, db') && op in db.plans
    ensures op in db'.plans && db'.plans[op] == db.plans[op]
  { }

  /** The request's plan is on record, with the request's own parameters. */
  lemma PlanOnRecord(db: Db, now: Time, root: Id, req: CancelRequest, seed: nat)
    requires RequestCancelTree(db, now, root, req, seed).Done?
    requires Forward(db, RequestCancelTree(db, now, root, req, seed).db)
    ensures var db' := RequestCancelTree(db, now, root, req, seed).db;
            && req.op in db'.plans && db'.plans[req.op].root == root && db'.plans[req.op].leaseOwner == req.leaseOwner
            && db'.plans[req.op].leaseSeconds == req.leaseSeconds
  {
    hide RequestCancelTree, Entries, Order, Forward;
    RequestFreezes(db, now, root, req, seed);
    if req.op in db.plans { KeepsPlan(db, RequestCancelTree(db, now, root, req, seed).db, req.op); }
  }

  /**
   Repeating an accepted request with exactly the tickets it returned, while they have not
   expired and no step touched a run of the subtree, changes no table at all and returns the
   same tickets in the same order.
   */
  lemma CancelRetryIsIdempotent(db: Db, now: Time, root: Id, req: CancelRequest, seed: nat, db': Db, now': Time,
                                seed': nat)
    requires RequestCancelTree(db, now, root, req, seed).Done?
    requires var out := RequestCancelTree(db, now, root, req, seed);
             && SubtreeIdle(out.db, db', Order(db, root))
             && forall i :: 0 <= i < |out.value.tickets| ==> now' < out.value.tickets[i].expiresAt
    requires Forward(RequestCancelTree(db, now, root, req, seed).db, db')
    requires Inv(db) && Timely(db, now) && Inv(db')
    ensures var plan := RequestCancelTree(db, now, root, req, seed).value;
            RequestCancelTree(db', now', root, req.(retry := plan.tickets), seed') == Done(db', plan)
  {
    hide Inv, RequestCancelTree, Order, TicketsLive, OwnTickets, SubtreeIdle, AllPending, WorkersForward, RunsForward,
         PlansForward, EventsForward, PlanTree;
    var out, scope := RequestCancelTree(db, now, root, req, seed), Order(db, root);
    var ts := out.value.tickets;
    CancelTreeIsGood(db, now, root, req, seed);
    PlanOnRecord(db, now, root, req, seed);
    RequestIsComplete(db, now, root, req, seed);
    RequestRoot(db, now, root, req, seed);
    ScopeOnRecord(out.db, req.op, root);
    KeepsPlan(out.db, db', req.op);
    KeepsWorker(out.db, db', root);
    ScopeOnRecord(db', req.op, root);
    IdleAllPending(out.db, db', scope, scope);
    forall i | 0 <= i < |ts| ensures ts[i].run in out.db.runs && out.db.runs[ts[i].run].worker in scope {
      assert TicketRuns(ts)[i] == ts[i].run;
      AllPendingIff(out.db, scope, ts[i].run);
    }
    IdleLive(out.db, db', scope, now, now', ts);
    OwnAgain(req, ts);
    RetryIsIdempotent(db', now', root, req.(retry := ts), seed');
  }

  lemma OwnAgain(req: CancelRequest, ts: seq<CancelTicket>)
    requires OwnTickets(req, ts)
    ensures OwnTickets(req.(retry := ts), ts)
  { }

  lemma RequestRoot(db: Db, now: Time, root: Id, req: CancelRequest, seed: nat)
    requires RequestCancelTree(db, now, root, req, seed).Done?
             && Forward(db, RequestCancelTree(db, now, root, req, seed).db)
    ensures RequestCancelTree(db, now, root, req, seed).value.root == root
    ensures root in RequestCancelTree(db, now, root, req, seed).db.workers
  {
    hide CancelWorkers, Entries, F.Post, F.Subtree, F.Shape, Forward;
    KeepsWorker(db, RequestCancelTree(db, now, root, req, seed).db, root);
  }

  /** The plan on record names the current subtree, all of it closed. */
  lemma ScopeOnRecord(db: Db, op: Id, root: Id)
    requires op in db.plans && db.plans[op].root == root && root in db.workers
    requires Inv(db)
    ensures db.plans[op].workers == Order(db, root)
    ensures forall w :: w in Order(db, root) ==> w in db.workers && !db.workers[w].lifecycle.Open?
  {
    hide Inv, Core, PlansOk, PlanOk, F.Acyclic, Order, PlanTree, RunsOk;
    AcyclicWorkers(db);
    InvParts(db);
    PlansParts(db, op);
    PlanScopeClosed(db, op);
    PlanOrder(db, op, root);
  }
}
