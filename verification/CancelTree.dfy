/**
 `request_cancel_tree`: freeze a subtree, cancel its queued runs and fence the others.

 The definition checks and writes run by run. The program first prepares every row change and
 then writes them; `CancelPhases` proves that it accepts the same requests, commits the same
 tables and names the same reason when it refuses.
 */
module CancelTree {
  import opened AgentTypes
  import opened Tables
  import opened Operations
  import F = Forest
  import O = Ordering

  datatype CancelPlan = CancelPlan(root: Id, tickets: seq<CancelTicket>)

  /** Tickets handed out so far, and the runs whose live ticket was presented again. */
  datatype Tally = Tally(tickets: seq<CancelTicket>, reused: set<Id>)

  predicate ValidRequest(req: CancelRequest) {
    && ValidLease(req.leaseSeconds)
    && |req.retry| <= MAX_TREE_CANCEL_RUNS
    && (forall i :: 0 <= i < |req.retry| ==> req.retry[i].op == req.op && req.retry[i].leaseOwner == req.leaseOwner)
    && (forall i, j :: 0 <= i < j < |req.retry| ==> req.retry[i].run != req.retry[j].run)
  }

  function FindRetry(retry: seq<CancelTicket>, r: Id): (t: Option<CancelTicket>)
    ensures t.Some? ==> t.value in retry && t.value.run == r
    ensures t.None? ==> forall i :: 0 <= i < |retry| ==> retry[i].run != r
  {
    if retry == [] then None
    else if retry[0].run == r then Some(retry[0])
    else FindRetry(retry[1..], r)
  }

  function CancelRank(s: RunState): int {
    match s
    case Cancelling => 0
    case Running => 1
    case Starting => 2
    case _ => 3
  }

  /** The runs of `w` still to be ended: the controlled one first, then the queue by age. */
  function Pending(db: Db, w: Id): seq<Id> {
    O.Ids(O.Sort(set r | r in db.runs && db.runs[r].worker == w && !db.runs[r].state.Terminal()
                       :: O.Row(CancelRank(db.runs[r].state), db.runs[r].createdAt, r)))
  }

  function EntryFor(db: Db, r: Id): PlanEntry
    requires r in db.runs
  {
    PlanEntry(db.runs[r].worker, r, if db.runs[r].state.Queued? then QueuedCancel else ControllerCancel)
  }

  function EntriesFor(db: Db, rs: seq<Id>): (es: seq<PlanEntry>)
    ensures |es| <= |rs|
  {
    if rs == [] then []
    else if rs[0] !in db.runs then EntriesFor(db, rs[1..])
    else [EntryFor(db, rs[0])] + EntriesFor(db, rs[1..])
  }

  function Entries(db: Db, ws: seq<Id>): seq<PlanEntry> {
    if ws == [] then [] else EntriesFor(db, Pending(db, ws[0])) + Entries(db, ws[1..])
  }

  function FencingTicket(req: CancelRequest, r: Id, next: Run, expiresAt: Time, token: Token): CancelTicket {
    CancelTicket(req.op, next.worker, r, next.generation, next.revision, next.controller, req.leaseOwner, expiresAt,
                 token)
  }

  function CancelRun(db: Db, now: Time, r: Id, req: CancelRequest, expiresAt: Time, seed: nat): Outcome<Tally> {
    if r !in db.runs then Rejected(NotFound)
    else
      var before := db.runs[r];
      if before.state.Queued? then
        var out := Advance(db, now, r, EndedRow(before, RunState.Cancelled, Some(FailureCode.Cancelled), now), Keep,
                           Leave, CancelSettled);
        if out.Rejected? then Rejected(out.error) else Done(out.db, Tally([], {}))
      else
        var active := ActiveOp(Ops(db, r));
        if active.Some? && now < active.value.expiresAt then
          var retry := FindRetry(req.retry, r);
          if !active.value.kind.Cancel? || active.value.op != req.op || active.value.leaseOwner != req.leaseOwner then
            Rejected(ControlBusy)
          else if retry.None? || retry.value.worker != before.worker
              || !CancelMatches(active.value, retry.value, now) then
            Rejected(InvalidCancelTicket)
          else Done(db, Tally([retry.value], {r}))
        else if active.Some? && active.value.op == req.op then Rejected(InvalidCancelTicket)
        else if active.None? && before.state.Cancelling? then Rejected(CorruptData)
        else
          var next, token := FencedRow(before, now), Minted(seed + r);
          var control := NewControl(req.op, Cancel, next, req.leaseOwner, expiresAt, token, now);
          var out := Advance(db, now, r, next, Push(control), Leave, CancelRequested);
          if out.Rejected? then Rejected(out.error)
          else Done(out.db, Tally([FencingTicket(req, r, next, expiresAt, token)], {}))
  }

  function Join(a: Tally, b: Tally): Tally {
    Tally(a.tickets + b.tickets, a.reused + b.reused)
  }

  function CancelRuns(db: Db, now: Time, rs: seq<Id>, req: CancelRequest, expiresAt: Time, seed: nat): Outcome<Tally> {
    if rs == [] then Done(db, Tally([], {}))
    else
      var front := CancelRuns(db, now, rs[..|rs| - 1], req, expiresAt, seed);
      if front.Rejected? then front
      else
        var last := CancelRun(front.db, now, rs[|rs| - 1], req, expiresAt, seed);
        if last.Rejected? then last else Done(last.db, Join(front.value, last.value))
  }

  function DrainedRow(w: Worker, now: Time): Worker {
    w.(lifecycle := Draining, updatedAt := now, revision := w.revision + 1)
  }

  function CancelWorker(db: Db, now: Time, w: Id, req: CancelRequest, expiresAt: Time, seed: nat): Outcome<Tally> {
    if w !in db.workers then Rejected(NotFound)
    else
      var before := db.workers[w];
      if before.lifecycle.Open? then
        if req.op in db.plans || !ValidWorker(w, DrainedRow(before, now)) then Rejected(CorruptData)
        else
          var drained := db.(workers := db.workers[w := DrainedRow(before, now)]);
          var out := CancelRuns(drained, now, Pending(db, w), req, expiresAt, seed);
          if out.Rejected? then out
          else if w !in out.db.workers then Rejected(NotFound)
          else Done(Emit(out.db, now, w, None, CancelRequested), out.value)
      else CancelRuns(db, now, Pending(db, w), req, expiresAt, seed)
  }

  function CancelWorkers(db: Db, now: Time, ws: seq<Id>, req: CancelRequest, expiresAt: Time,
                         seed: nat): Outcome<Tally> {
    if ws == [] then Done(db, Tally([], {}))
    else
      var front := CancelWorkers(db, now, ws[..|ws| - 1], req, expiresAt, seed);
      if front.Rejected? then front
      else
        var last := CancelWorker(front.db, now, ws[|ws| - 1], req, expiresAt, seed);
        if last.Rejected? then last else Done(last.db, Join(front.value, last.value))
  }

  // --- Which reason a refusal names --------------------------------------------------------------

  /** Why a run refuses the request before anything is written, if it does. */
  function RunRefusal(db: Db, now: Time, r: Id, req: CancelRequest): Option<Error> {
    if r !in db.runs then Some(NotFound)
    else
      var before, active, retry := db.runs[r], ActiveOp(Ops(db, r)), FindRetry(req.retry, r);
      if before.state.Queued? then None
      else if active.None? then (if before.state.Cancelling? then Some(CorruptData) else None)
      else if active.value.expiresAt <= now then (if active.value.op == req.op then Some(InvalidCancelTicket) else None)
      else if !active.value.kind.Cancel? || active.value.op != req.op || active.value.leaseOwner != req.leaseOwner then
        Some(ControlBusy)
      else if retry.None? || retry.value.worker != before.worker || !CancelMatches(active.value, retry.value, now) then
        Some(InvalidCancelTicket)
      else None
  }

  /** The request presents the live ticket of this run. */
  predicate Presents(db: Db, now: Time, r: Id, req: CancelRequest) {
    && r in db.runs && !db.runs[r].state.Queued? && RunRefusal(db, now, r, req).None?
    && ActiveOp(Ops(db, r)).Some? && now < ActiveOp(Ops(db, r)).value.expiresAt
  }

  function RunsRefusal(db: Db, now: Time, rs: seq<Id>, req: CancelRequest): Option<Error> {
    if rs == [] then None
    else
      var front := RunsRefusal(db, now, rs[..|rs| - 1], req);
      if front.Some? then front else RunRefusal(db, now, rs[|rs| - 1], req)
  }

  function WorkerRefusal(db: Db, now: Time, w: Id, req: CancelRequest): Option<Error> {
    if w !in db.workers then Some(NotFound)
    else if req.op in db.plans && db.workers[w].lifecycle.Open? then Some(CorruptData)
    else RunsRefusal(db, now, Pending(db, w), req)
  }

  /** The first reason in the order of the plan. */
  function ScopeRefusal(db: Db, now: Time, ws: seq<Id>, req: CancelRequest): Option<Error> {
    if ws == [] then None
    else
      var front := ScopeRefusal(db, now, ws[..|ws| - 1], req);
      if front.Some? then front else WorkerRefusal(db, now, ws[|ws| - 1], req)
  }

  function RunsPresented(db: Db, now: Time, rs: seq<Id>, req: CancelRequest): set<Id> {
    set r | r in rs && Presents(db, now, r, req)
  }

  function ScopePresented(db: Db, now: Time, ws: seq<Id>, req: CancelRequest): set<Id> {
    if ws == [] then {}
    else ScopePresented(db, now, ws[..|ws| - 1], req) + RunsPresented(db, now, Pending(db, ws[|ws| - 1]), req)
  }

  /** All runs are looked at and all tickets are counted before a row is written, so those reasons come first. */
  function WhyRefused(db: Db, now: Time, ws: seq<Id>, req: CancelRequest, written: Error): Error {
    var early := ScopeRefusal(db, now, ws, req);
    if early.Some? then early.value
    else if |ScopePresented(db, now, ws, req)| != |req.retry| then InvalidCancelTicket
    else written
  }

  // --- The request -------------------------------------------------------------------------------

  function NewPlan(root: Id, ws: seq<Id>, es: seq<PlanEntry>, req: CancelRequest, now: Time): Plan {
    Plan(root, ws, es, PlanDigest(ws, es), |ws|, |es|, req.leaseOwner, req.leaseSeconds, now)
  }

  predicate PlanAgrees(plan: Plan, order: seq<Id>, entries: seq<PlanEntry>) {
    && plan.workers == order
    && |plan.workers| == plan.workerCount && |plan.entries| == plan.runCount
    && plan.digest == PlanDigest(plan.workers, plan.entries)
    && forall i :: 0 <= i < |entries| ==> entries[i] in plan.entries
  }

  /** Why the request is refused before any row is touched, if it is. */
  function RequestError(db: Db, root: Id, req: CancelRequest): Option<Error> {
    if !ValidRequest(req) then Some(InvalidInput)
    else if root !in db.workers then Some(NotFound)
    else
      var tree := F.Subtree(db.workers, root);
      var order := F.Post(tree);
      var entries := Entries(db, order);
      if |order| > MAX_TOPOLOGY_NODES then Some(InvalidInput)
      else if !F.Shape(db.workers, tree) then Some(CorruptData)
      else if |entries| > MAX_TREE_CANCEL_RUNS then Some(InvalidInput)
      else if req.op in db.plans then
        var plan := db.plans[req.op];
        if plan.root != root || plan.leaseOwner != req.leaseOwner || plan.leaseSeconds != req.leaseSeconds
            then Some(InvalidInput)
        else if !PlanAgrees(plan, order, entries) then Some(CorruptData)
        else None
      else if req.retry != [] then Some(InvalidInput)
      else None
  }

  function Order(db: Db, root: Id): seq<Id> {
    F.Post(F.Subtree(db.workers, root))
  }

  function RequestCancelTree(db: Db, now: Time, root: Id, req: CancelRequest, seed: nat): Outcome<CancelPlan> {
    var refused := RequestError(db, root, req);
    if refused.Some? then Rejected(refused.value)
    else
      var order := Order(db, root);
      var out := CancelWorkers(db, now, order, req, After(now, req.leaseSeconds), seed);
      if out.Rejected? then Rejected(WhyRefused(db, now, order, req, out.error))
      else if |out.value.reused| != |req.retry| then Rejected(InvalidCancelTicket)
      else
        Done(if req.op in db.plans then out.db
             else out.db.(plans := out.db.plans[req.op := NewPlan(root, order, Entries(db, order), req, now)]),
             CancelPlan(root, out.value.tickets))
  }
}
