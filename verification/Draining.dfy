/** An accepted tree cancellation can always be drained: settle the tickets, then release the workers. */
module Draining {
  import opened AgentTypes
  import opened Tables
  import opened Operations
  import opened CancelTree
  import opened Invariant
  import opened Progress
  import opened RunStep
  import opened CoreStep
  import opened InvStep
  import opened RunOps
  import opened WorkerOps
  import opened CancelSteps
  import opened CancelScope
  import opened CancelPlans
  import opened Cancellation
  import R = Reachable
  import F = Forest

  // --- Settling the tickets ----------------------------------------------------------------------

  /** One controller's answer to a cancel ticket, at some reading of the clock. */
  datatype Answer = Answer(ticket: CancelTicket, outcome: CancelOutcome, clock: Time)

  function SettleAll(db: Db, answers: seq<Answer>): Outcome<()> {
    if answers == [] then Done(db, ())
    else
      var front, a := SettleAll(db, answers[..|answers| - 1]), answers[|answers| - 1];
      if front.Rejected? then front
      else
        var last := SettleCancel(front.db, Now(front.db, a.clock), a.ticket, a.outcome);
        if last.Rejected? then Rejected(last.error) else Done(last.db, ())
  }

  /** Everything on record happened before the horizon. */
  predicate Within(db: Db, horizon: Time) {
    db.events == [] || db.events[|db.events| - 1].occurredAt < horizon
  }

  lemma NowWithin(db: Db, clock: Time, horizon: Time)
    requires Within(db, horizon) && clock < horizon
    ensures Now(db, clock) < horizon && Timely(db, Now(db, clock))
  { }

  lemma LiveLater(db: Db, now: Time, now': Time, t: CancelTicket)
    requires t.run in db.runs && CancelTicketLive(db, now, t) && now' < t.expiresAt
    ensures CancelTicketLive(db, now', t)
  { }

  lemma SettleOne(db: Db, now: Time, t: CancelTicket, outcome: CancelOutcome)
    requires t.run in db.runs && CancelTicketLive(db, now, t)
    requires Inv(db) && Timely(db, now)
    ensures var out := SettleCancel(db, now, t, outcome);
            && out.Done? && SameElsewhere(db, out.db)
            && (forall x :: x in db.runs && x != t.run ==> Untouched(db, out.db, x))
            && out.db.runs[t.run].state.Terminal() && EndedByCancel(out.db.runs[t.run])
            && Good(db, now, out)
  {
    hide Inv, Forward, Advance, CancelTicketLive, NextControls, NextCompletion;
    SettleCancelIsGood(db, now, t, outcome);
    var r, verdict := t.run, CancelVerdict(outcome);
    var next := EndedRow(db.runs[r], verdict.0, Some(verdict.1), now);
    AdvanceWrites(db, now, r, next, Finish, Abandon, CancelSettled);
    var db' := SettleCancel(db, now, t, outcome).db;
    forall x | x in db.runs && x != r ensures Untouched(db, db', x) {
      OtherRuns(db, now, r, next, Finish, Abandon, CancelSettled, x);
    }
  }

  ghost predicate DistinctTickets(answers: seq<Answer>) {
    forall i, j :: 0 <= i < j < |answers| ==> answers[i].ticket.run != answers[j].ticket.run
  }

  /** Each ticket is live in the tables and is answered before the horizon, which no ticket outlives. */
  ghost predicate Answerable(db: Db, now: Time, horizon: Time, answers: seq<Answer>) {
    && DistinctTickets(answers)
    && (forall i :: 0 <= i < |answers| ==>
                      && answers[i].ticket.run in db.runs && CancelTicketLive(db, now, answers[i].ticket)
                      && answers[i].clock < horizon <= answers[i].ticket.expiresAt)
  }

  ghost predicate Settled(db: Db, horizon: Time, answers: seq<Answer>, out: Outcome<()>) {
    && out.Done? && SameElsewhere(db, out.db) && Within(out.db, horizon)
    && (forall x :: x in db.runs ==>
        Untouched(db, out.db, x) || (exists i :: 0 <= i < |answers| && answers[i].ticket.run == x))
    && (forall i :: 0 <= i < |answers| ==>
        answers[i].ticket.run in out.db.runs && out.db.runs[answers[i].ticket.run].state.Terminal())
    && Inv(out.db)
  }

  lemma TimelyWithin(db: Db, now: Time, horizon: Time)
    requires Timely(db, now) && now < horizon
    ensures Within(db, horizon)
  { }

  /** Whatever the order and whatever the outcomes, no live ticket is refused. */
  lemma {:induction false} SettleAllSucceeds(db: Db, now: Time, horizon: Time, answers: seq<Answer>)
    requires Answerable(db, now, horizon, answers) && Within(db, horizon)
    requires Inv(db)
    ensures Settled(db, horizon, answers, SettleAll(db, answers))
  {
    hide Inv, SettleCancel, CancelTicketLive, SameElsewhere, Untouched, Within, Forward, Timely;
    if answers == [] {
      SettledNothing(db, horizon);
    } else {
      var front, a := answers[..|answers| - 1], answers[|answers| - 1];
      SettleAllSucceeds(db, now, horizon, front);
      var mid := SettleAll(db, front);
      assert forall i :: 0 <= i < |front| ==> front[i] == answers[i];
      assert Untouched(db, mid.db, a.ticket.run);
      SettleNext(db, now, horizon, front, a, mid);
      assert answers == front + [a];
    }
  }

  lemma SettledNothing(db: Db, horizon: Time)
    requires Within(db, horizon) && Inv(db)
    ensures Settled(db, horizon, [], Done(db, ()))
  {
    hide Inv;
  }

  lemma SettleNext(db: Db, now: Time, horizon: Time, front: seq<Answer>, a: Answer, mid: Outcome<()>)
    requires mid.Done? && a.ticket.run in db.runs && CancelTicketLive(db, now, a.ticket)
             && a.clock < horizon <= a.ticket.expiresAt
    requires Untouched(db, mid.db, a.ticket.run)
    requires Settled(db, horizon, front, mid)
    ensures var last := SettleCancel(mid.db, Now(mid.db, a.clock), a.ticket, a.outcome);
            last.Done? && Settled(db, horizon, front + [a], Done(last.db, ()))
  {
    hide Inv, SettleCancel, CancelTicketLive, Forward, Timely, Within, Now;
    var t, now' := a.ticket, Now(mid.db, a.clock);
    NowWithin(mid.db, a.clock, horizon);
    LiveStays(db, mid.db, now, t);
    LiveLater(mid.db, now, now', t);
    SettleOne(mid.db, now', t, a.outcome);
    var last := SettleCancel(mid.db, now', t, a.outcome);
    TimelyWithin(last.db, now', horizon);
    SettledTogether(db, mid.db, last.db, front, a);
  }

  lemma SettledTogether(db: Db, mid: Db, db': Db, front: seq<Answer>, a: Answer)
    requires SameElsewhere(db, mid) && SameElsewhere(mid, db') && a.ticket.run in mid.runs
    requires forall x :: x in db.runs ==>
               Untouched(db, mid, x) || (exists i :: 0 <= i < |front| && front[i].ticket.run == x)
    requires forall x :: x in mid.runs && x != a.ticket.run ==> Untouched(mid, db', x)
    requires forall i :: 0 <= i < |front| ==>
               front[i].ticket.run in mid.runs && mid.runs[front[i].ticket.run].state.Terminal()
    requires a.ticket.run in db'.runs && db'.runs[a.ticket.run].state.Terminal()
    ensures SameElsewhere(db, db')
    ensures forall x :: x in db.runs ==>
              Untouched(db, db', x) || (exists i :: 0 <= i < |front + [a]| && (front + [a])[i].ticket.run == x)
    ensures forall i :: 0 <= i < |front + [a]| ==>
              (front + [a])[i].ticket.run in db'.runs && db'.runs[(front + [a])[i].ticket.run].state.Terminal()
  {
    var all := front + [a];
    forall x | x in db.runs ensures Untouched(db, db', x) || (exists i :: 0 <= i < |all| && all[i].ticket.run == x) {
      if x == a.ticket.run {
        assert all[|front|] == a;
      } else if !Untouched(db, mid, x) {
        var i :| 0 <= i < |front| && front[i].ticket.run == x;
        assert all[i] == front[i];
      }
    }
    forall i | 0 <= i < |all| ensures all[i].ticket.run in db'.runs && db'.runs[all[i].ticket.run].state.Terminal() {
      if i < |front| { assert all[i] == front[i]; } else { assert all[i] == a; }
    }
  }

  // --- Releasing the workers ---------------------------------------------------------------------

  /** Release each worker that is not released yet, at its current revision, under any clock. */
  function ReleaseAll(db: Db, ws: seq<Id>, clocks: seq<Time>): Outcome<()>
    requires |ws| == |clocks|
  {
    if ws == [] then Done(db, ())
    else
      var n := |ws| - 1;
      var front, w := ReleaseAll(db, ws[..n], clocks[..n]), ws[n];
      if front.Rejected? then front
      else if w !in front.db.workers then Rejected(NotFound)
      else if front.db.workers[w].lifecycle.Released? then front
      else
        var last := ReleaseWorker(front.db, Now(front.db, clocks[n]), w, front.db.workers[w].revision);
        if last.Rejected? then Rejected(last.error) else Done(last.db, ())
  }

  /** The worker may be released: closed, its runs ended, its children released. */
  ghost predicate Releasable(db: Db, w: Id) {
    && w in db.workers && !db.workers[w].lifecycle.Open?
    && (forall r :: r in db.runs && db.runs[r].worker == w ==> db.runs[r].state.Terminal())
    && (forall c :: c in db.workers && db.workers[c].parent == Some(w) ==> db.workers[c].lifecycle.Released?)
  }

  lemma ReleaseOne(db: Db, now: Time, w: Id)
    requires Releasable(db, w) && !db.workers[w].lifecycle.Released?
    requires Inv(db) && Timely(db, now)
    ensures var out := ReleaseWorker(db, now, w, db.workers[w].revision);
            && out.Done? && SameRuns(db, out.db) && out.db.workers.Keys == db.workers.Keys
            && out.db.workers[w].lifecycle.Released? && out.db.workers[w].parent == db.workers[w].parent
            && (forall v :: v in db.workers && v != w ==> out.db.workers[v] == db.workers[v])
            && Good(db, now, out)
  {
    hide Inv, Forward;
    ReleaseIsGood(db, now, w, db.workers[w].revision);
  }

  /** Exactly the listed workers are now released; rows of other workers and all runs are as before. */
  ghost predicate ReleasedList(db: Db, ws: seq<Id>, out: Outcome<()>) {
    && out.Done? && SameRuns(db, out.db) && out.db.workers.Keys == db.workers.Keys
    && (forall v :: v in db.workers ==> out.db.workers[v].parent == db.workers[v].parent)
    && (forall v :: v in db.workers && v !in ws ==> out.db.workers[v] == db.workers[v])
    && (forall v :: v in ws ==> v in db.workers && out.db.workers[v].lifecycle.Released?)
    && Inv(out.db)
  }

  /** Ready to be released in this order: closed, idle, and children listed before parents. */
  ghost predicate ReleaseOrder(db: Db, ws: seq<Id>) {
    && (forall w :: w in ws ==> w in db.workers && !db.workers[w].lifecycle.Open?)
    && (forall r :: r in db.runs && db.runs[r].worker in ws ==> db.runs[r].state.Terminal())
    && (forall i, c :: 0 <= i < |ws| && c in db.workers && db.workers[c].parent == Some(ws[i]) ==>
        F.ListedBefore(ws, i, c))
  }

  lemma ReleaseFront(db: Db, front: seq<Id>, w: Id)
    requires ReleaseOrder(db, front + [w])
    ensures ReleaseOrder(db, front) && w in db.workers && !db.workers[w].lifecycle.Open?
    ensures forall c :: c in db.workers && db.workers[c].parent == Some(w) ==> c in front
  {
    var ws := front + [w];
    assert w in ws;
    forall i, c | 0 <= i < |front| && c in db.workers && db.workers[c].parent == Some(front[i])
      ensures F.ListedBefore(front, i, c)
    {
      assert ws[i] == front[i];
      assert F.ListedBefore(ws, i, c);
      var k :| 0 <= k < i && ws[k] == c;
      assert front[k] == c;
    }
    forall c | c in db.workers && db.workers[c].parent == Some(w) ensures c in front {
      assert ws[|front|] == w;
      assert F.ListedBefore(ws, |front|, c);
      var k :| 0 <= k < |front| && ws[k] == c;
      assert front[k] == c;
    }
  }

  lemma NextReleasable(db: Db, front: seq<Id>, w: Id, mid: Db)
    requires ReleaseOrder(db, front + [w]) && ReleasedList(db, front, Done(mid, ()))
    ensures w in mid.workers && (mid.workers[w].lifecycle.Released? || Releasable(mid, w))
  {
    hide Inv;
    ReleaseFront(db, front, w);
    assert w in front + [w];
    if w !in front {
      forall r | r in mid.runs && mid.runs[r].worker == w ensures mid.runs[r].state.Terminal() { }
      forall c | c in mid.workers && mid.workers[c].parent == Some(w) ensures mid.workers[c].lifecycle.Released? {
        assert c in db.workers;
      }
    }
  }

  lemma ReleasedMore(db: Db, front: seq<Id>, w: Id, mid: Db, db': Db)
    requires ReleasedList(db, front, Done(mid, ())) && w in mid.workers
    requires SameRuns(mid, db') && db'.workers.Keys == mid.workers.Keys && db'.workers[w].lifecycle.Released?
    requires forall v :: v in mid.workers ==> db'.workers[v].parent == mid.workers[v].parent
    requires forall v :: v in mid.workers && v != w ==> db'.workers[v] == mid.workers[v]
    requires Inv(db')
    ensures ReleasedList(db, front + [w], Done(db', ()))
  {
    hide Inv;
  }

  lemma {:induction false} ReleaseAllSucceeds(db: Db, ws: seq<Id>, clocks: seq<Time>)
    requires |ws| == |clocks| && ReleaseOrder(db, ws)
    requires Inv(db)
    ensures ReleasedList(db, ws, ReleaseAll(db, ws, clocks))
  {
    hide Inv, ReleaseWorker, Releasable, Forward, Timely, Now, ReleaseOrder;
    if ws == [] {
    } else {
      var n := |ws| - 1;
      var front, w := ws[..n], ws[n];
      assert ws == front + [w];
      ReleaseFront(db, front, w);
      ReleaseAllSucceeds(db, front, clocks[..n]);
      var mid := ReleaseAll(db, front, clocks[..n]);
      NextReleasable(db, front, w, mid.db);
      if mid.db.workers[w].lifecycle.Released? {
        ReleasedMore(db, front, w, mid.db, mid.db);
      } else {
        var now := Now(mid.db, clocks[n]);
        R.NowIsTimely(mid.db, clocks[n]);
        ReleaseOne(mid.db, now, w);
        ReleasedMore(db, front, w, mid.db, ReleaseWorker(mid.db, now, w, mid.db.workers[w].revision).db);
      }
    }
  }

  // --- Together ----------------------------------------------------------------------------------

  /** The tickets cover every unfinished run of the subtree. */
  ghost predicate Covering(db: Db, scope: seq<Id>, ts: seq<CancelTicket>) {
    forall r :: r in db.runs && db.runs[r].worker in scope && !db.runs[r].state.Terminal() ==> r in TicketRuns(ts)
  }

  /** The answers use each returned ticket once, in any order. */
  ghost predicate Answers(ts: seq<CancelTicket>, answers: seq<Answer>) {
    && DistinctTickets(answers)
    && (forall i :: 0 <= i < |answers| ==> answers[i].ticket in ts)
    && (forall i :: 0 <= i < |ts| ==> exists j :: 0 <= j < |answers| && answers[j].ticket == ts[i])
  }

  lemma SettledIsIdle(db: Db, scope: seq<Id>, ts: seq<CancelTicket>, horizon: Time, answers: seq<Answer>,
                      out: Outcome<()>)
    requires Covering(db, scope, ts) && Answers(ts, answers)
    requires Settled(db, horizon, answers, out)
    ensures out.Done? && forall r :: r in out.db.runs && out.db.runs[r].worker in scope ==>
              out.db.runs[r].state.Terminal()
  {
    hide Inv;
    forall r | r in out.db.runs && out.db.runs[r].worker in scope ensures out.db.runs[r].state.Terminal() {
      if r in TicketRuns(ts) {
        var i :| 0 <= i < |TicketRuns(ts)| && TicketRuns(ts)[i] == r;
        var j :| 0 <= j < |answers| && answers[j].ticket == ts[i];
        assert answers[j].ticket.run == r;
      }
    }
  }

  lemma DrainOrder(ws: map<Id, Worker>, t: F.Tree)
    requires F.Shape(ws, t)
    ensures forall i, c :: 0 <= i < |F.Post(t)| && c in ws && ws[c].parent == Some(F.Post(t)[i]) ==>
              F.ListedBefore(F.Post(t), i, c)
  {
    hide F.Shape, F.Post, F.ListedBefore;
    forall i, c | 0 <= i < |F.Post(t)| && c in ws && ws[c].parent == Some(F.Post(t)[i])
      ensures F.ListedBefore(F.Post(t), i, c)
    {
      F.ChildrenFirst(ws, t, i, c);
    }
  }

  lemma AnswersAreLive(db: Db, now: Time, horizon: Time, ts: seq<CancelTicket>, answers: seq<Answer>)
    requires TicketsLive(db, now, ts) && Answers(ts, answers)
    requires forall i :: 0 <= i < |answers| ==> answers[i].clock < horizon <= answers[i].ticket.expiresAt
    ensures Answerable(db, now, horizon, answers)
  {
    hide CancelTicketLive;
    forall i | 0 <= i < |answers|
      ensures answers[i].ticket.run in db.runs && CancelTicketLive(db, now, answers[i].ticket)
    {
      var u := answers[i].ticket;
      assert u in ts;
      var k :| 0 <= k < |ts| && ts[k] == u;
    }
  }

  /** From sealed tables with live tickets for everything unfinished, draining succeeds to the end. */
  lemma SealedDrains(db: Db, now: Time, horizon: Time, t: F.Tree, ts: seq<CancelTicket>, answers: seq<Answer>,
                     clocks: seq<Time>)
    requires F.Shape(db.workers, t) && |clocks| == |F.Post(t)|
    requires forall w :: w in F.Post(t) ==> w in db.workers && !db.workers[w].lifecycle.Open?
    requires TicketsLive(db, now, ts) && Covering(db, F.Post(t), ts) && Answers(ts, answers)
    requires forall i :: 0 <= i < |answers| ==> answers[i].clock < horizon <= answers[i].ticket.expiresAt
    requires Within(db, horizon) && Inv(db)
    ensures SettleAll(db, answers).Done?
    ensures ReleasedList(SettleAll(db, answers).db, F.Post(t), ReleaseAll(SettleAll(db, answers).db, F.Post(t), clocks))
  {
    hide Inv, F.Shape, F.Post, TicketsLive, Covering, Answers, SettleAll, ReleaseAll, ReleasedList, Within, Answerable;
    AnswersAreLive(db, now, horizon, ts, answers);
    SettleAllSucceeds(db, now, horizon, answers);
    var mid := SettleAll(db, answers);
    SettledIsIdle(db, F.Post(t), ts, horizon, answers, mid);
    DrainOrder(db.workers, t);
    ReleaseAllSucceeds(mid.db, F.Post(t), clocks);
  }

  // --- What an accepted request returns ----------------------------------------------------------

  lemma {:induction false} ControlledComplete(db: Db, rs: seq<Id>, x: Id)
    requires x in rs && x in db.runs && !db.runs[x].state.Queued?
    ensures x in Controlled(db, rs)
  {
    if x != rs[|rs| - 1] { ControlledComplete(db, rs[..|rs| - 1], x); }
  }

  lemma {:induction false} FencedComplete(db: Db, ws: seq<Id>, x: Id)
    requires x in db.runs && db.runs[x].worker in ws && !db.runs[x].state.Terminal() && !db.runs[x].state.Queued?
    ensures x in Fenced(db, ws)
  {
    hide Pending, Controlled;
    var n := |ws| - 1;
    if db.runs[x].worker == ws[n] {
      PendingIff(db, ws[n], x);
      ControlledComplete(db, Pending(db, ws[n]), x);
    } else {
      FencedComplete(db, ws[..n], x);
    }
  }

  lemma CutCovers(db: Db, mid: Db, scope: seq<Id>, op: Id, now: Time, ts: seq<CancelTicket>)
    requires WorkersCut(db, mid, scope, op, now) && TicketRuns(ts) == Fenced(db, scope)
    ensures Covering(mid, scope, ts)
  {
    hide Fenced;
    forall r | r in mid.runs && mid.runs[r].worker in scope && !mid.runs[r].state.Terminal() ensures r in TicketRuns(ts)
    {
      assert Covered(db, mid, scope, r, op);
      FencedComplete(db, scope, r);
    }
  }

  /** What the fold over the subtree achieved, for a new request and for a retried one alike. */
  lemma RequestCuts(db: Db, now: Time, root: Id, req: CancelRequest, seed: nat)
    requires RequestError(db, root, req).None?
    requires Inv(db) && Timely(db, now)
    ensures WorkersCancelled(db, now, Order(db, root), req.op,
                             CancelWorkers(db, now, Order(db, root), req, After(now, req.leaseSeconds), seed))
  {
    hide Inv, Core, PlansOk, PlanOk, Forward, F.Acyclic, F.Post, F.Subtree, F.Shape, Entries, CancelWorkers,
         WorkersCancelled, ChildrenListed, PlanTree, RunsOk;
    AcyclicWorkers(db);
    OrderFacts(db, root);
    InvParts(db);
    LeaseLasts(now, req.leaseSeconds);
    if req.op in db.plans {
      PlansParts(db, req.op);
      PlanScopeClosed(db, req.op);
      PlanOrder(db, req.op, root);
    }
    CancelWorkersCuts(db, now, Order(db, root), req, After(now, req.leaseSeconds), seed);
  }

  lemma RequestCovers(db: Db, now: Time, root: Id, req: CancelRequest, seed: nat)
    requires RequestCancelTree(db, now, root, req, seed).Done?
    requires Inv(db) && Timely(db, now)
    ensures var out := RequestCancelTree(db, now, root, req, seed);
            && TicketRuns(out.value.tickets) == Fenced(db, Order(db, root))
            && TicketsLive(out.db, now, out.value.tickets) && Covering(out.db, Order(db, root), out.value.tickets)
            && F.Shape(out.db.workers, F.Subtree(db.workers, root))
  {
    hide Inv, Core, Forward, CancelWorkers, Entries, F.Post, F.Shape, F.Acyclic, F.Subtree, WorkersCut, Fenced,
         TicketsLive, Covering, Sound;
    RequestCuts(db, now, root, req, seed);
    var order := Order(db, root);
    var mid, out := CancelWorkers(db, now, order, req, After(now, req.leaseSeconds), seed),
        RequestCancelTree(db, now, root, req, seed);
    CutCovers(db, mid.db, order, req.op, now, mid.value.tickets);
    AcyclicWorkers(db);
    F.SubtreeShape(db.workers, root);
    CutTree(db, mid.db, order, req.op, now, F.Subtree(db.workers, root));
    SameRunsCover(mid.db, out.db, order, mid.value.tickets);
    TicketsFrame(out.db, mid.db, now, mid.value.tickets);
  }

  lemma SameRunsCover(mid: Db, db': Db, scope: seq<Id>, ts: seq<CancelTicket>)
    requires SameRuns(db', mid) && Covering(mid, scope, ts)
    ensures Covering(db', scope, ts)
  { }

  lemma SealedScope(db: Db, scope: seq<Id>, db': Db)
    requires Sealed(db, scope, db')
    ensures forall w :: w in scope ==> w in db'.workers && !db'.workers[w].lifecycle.Open?
  { }

  /**
   After an accepted request: answering every returned ticket once, in any order and with any
   outcome, while the clock is before the horizon no ticket outlives, and then releasing the
   unreleased workers in the frozen order, is never refused and leaves the subtree released.
   */
  lemma Drainable(db: Db, now: Time, root: Id, req: CancelRequest, seed: nat, horizon: Time, answers: seq<Answer>,
                  clocks: seq<Time>)
    requires RequestCancelTree(db, now, root, req, seed).Done?
    requires now < horizon && |clocks| == |Order(db, root)|
    requires Answers(RequestCancelTree(db, now, root, req, seed).value.tickets, answers)
    requires forall i :: 0 <= i < |answers| ==> answers[i].clock < horizon <= answers[i].ticket.expiresAt
    requires Inv(db) && Timely(db, now)
    ensures var settled := SettleAll(RequestCancelTree(db, now, root, req, seed).db, answers);
            && settled.Done? && ReleaseAll(settled.db, Order(db, root), clocks).Done?
            && forall w :: w in Order(db, root) ==>
                 var end := ReleaseAll(settled.db, Order(db, root), clocks).db;
                 w in end.workers && end.workers[w].lifecycle.Released?
  {
    hide Inv, Forward, RequestCancelTree, F.Subtree, F.Post, F.Shape, Fenced, TicketsLive, Covering, Answers,
         SettleAll, ReleaseAll, Within, Sealed;
    var out := RequestCancelTree(db, now, root, req, seed);
    CancelTreeIsGood(db, now, root, req, seed);
    RequestCovers(db, now, root, req, seed);
    RequestSeals(db, now, root, req, seed);
    SealedScope(db, Order(db, root), out.db);
    TimelyWithin(out.db, now, horizon);
    SealedDrains(out.db, now, horizon, F.Subtree(db.workers, root), out.value.tickets, answers, clocks);
  }
}
