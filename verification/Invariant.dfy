/**
 What every reachable version of the tables satisfies.

 Most of it is local to one run: its row, its control operations, its completion and the
 events that mention it. The rest relates runs of one worker, workers of one tree, and the
 outbox as a whole.
 */
module Invariant {
  import opened AgentTypes
  import opened Tables
  import F = Forest

  // --- The events that mention one run -----------------------------------------------------------

  datatype Class = History | PreparedMark | AbandonedMark

  predicate InClass(k: EventKind, c: Class) {
    match c
    case History => !k.CompletionPrepared? && !k.CompletionAbandoned?
    case PreparedMark => k.CompletionPrepared?
    case AbandonedMark => k.CompletionAbandoned?
  }

  predicate Picks(e: Event, r: Id, c: Class) {
    e.mark.Some? && e.mark.value.run == r && InClass(e.kind, c)
  }

  function Select(es: seq<Event>, r: Id, c: Class): seq<Event> {
    if es == [] then []
    else
      var front, last := Select(es[..|es| - 1], r, c), es[|es| - 1];
      if Picks(last, r, c) then front + [last] else front
  }

  // --- One run -----------------------------------------------------------------------------------

  predicate RowOk(run: Run) {
    && ValidRun(run)
    && run.spec.Valid()
    && (run.state.Queued? <==> run.revision == 0)
    && (run.generation == 0 ==> run.state.Queued? || run.state.Cancelled?)
    && (run.generation > 0 <==> run.deadline.Some?)
    && (run.leaseHash.Some? <==> run.state.Starting? || run.state.Running?)
  }

  /** While a run keeps running its controller keeps the lease and its secret, and the lease only grows. */
  predicate SameHolder(run: Run, run': Run) {
    run.state.Running? && run'.state.Running? && run.lease.Some? ==>
      && run'.leaseHash == run.leaseHash && run'.lease.Some?
      && run'.lease.value.owner == run.lease.value.owner && run.lease.value.expiresAt <= run'.lease.value.expiresAt
  }

  predicate MarkOk(r: Id, run: Run, e: Event, i: nat) {
    && e.mark.Some? && e.mark.value.run == r && e.mark.value.revision == i
    && e.worker == run.worker
    && run.createdAt <= e.occurredAt <= run.updatedAt
    && (e.kind.CompletionCommitted? ==> i == run.revision && run.state.Succeeded?)
  }

  /** The run's own history: one event per revision, the last one showing the current row. */
  predicate HistoryOk(r: Id, run: Run, h: seq<Event>) {
    && |h| == run.revision + 1
    && (forall i :: 0 <= i < |h| ==> MarkOk(r, run, h[i], i))
    && h[run.revision].mark.value.state == run.state
    && h[run.revision].occurredAt == run.updatedAt
    && (run.state.Succeeded? ==> h[run.revision].kind.CompletionCommitted?)
    && (run.generation > 0 ==> run.revision >= 1 && ClaimMark(run, h[1]))
  }

  predicate ClaimMark(run: Run, e: Event) {
    e.kind.RunClaimed? && run.deadline == Some(After(e.occurredAt, run.spec.timeoutSeconds))
  }

  predicate MayFollow(prev: ControlKind, next: ControlKind) {
    next.Cancel? || next == prev.Inherited()
  }

  predicate ControlOk(run: Run, ops: seq<Control>, i: nat)
    requires i < |ops|
  {
    var c := ops[i];
    && c.generation == run.generation && 0 < c.generation
    && 0 < c.revision <= run.revision
    && c.createdAt <= c.updatedAt <= run.updatedAt
    && c.createdAt < c.expiresAt
    && (if i == 0 then c.kind != Recover(CancellationAbandoned)
        else ops[i - 1].revision < c.revision && MayFollow(ops[i - 1].kind, c.kind))
    && (i < |ops| - 1 ==> c.status.Superseded?)
    && c.settledAt == (if c.status.Active? then None else Some(c.updatedAt))
  }

  predicate DistinctOps(ops: seq<Control>) {
    forall i, j :: 0 <= i < j < |ops| ==> ops[i].op != ops[j].op
  }

  function Last(ops: seq<Control>): Control
    requires ops != []
  {
    ops[|ops| - 1]
  }

  predicate LastControlOk(run: Run, ops: seq<Control>) {
    match run.state
    case Queued => ops == []
    case Starting => ops == []
    case Running => ops == []
    case Cancelling =>
      && ops != [] && Last(ops).status.Active?
      && Last(ops).revision == run.revision && Last(ops).controller == run.controller
    case Succeeded => ops != [] ==> Last(ops).status.Settled? && Last(ops).kind == Recover(LeaseExpired)
    case _ => ops != [] ==> Last(ops).status.Settled?
  }

  predicate ControlsOk(run: Run, ops: seq<Control>) {
    && (forall i :: 0 <= i < |ops| ==> ControlOk(run, ops, i))
    && DistinctOps(ops)
    && LastControlOk(run, ops)
  }

  predicate StatusFits(s: RunState, status: CompletionStatus) {
    match s
    case Running => status.Prepared?
    case Cancelling => status.Prepared?
    case Succeeded => status.Committed?
    case Queued => false
    case Starting => false
    case _ => status.Abandoned?
  }

  predicate PreparedRecord(run: Run, c: Completion, p: seq<Event>) {
    && |p| == 1
    && p[0].occurredAt == c.preparedAt && run.createdAt <= c.preparedAt
    && p[0].mark.Some? && p[0].mark.value.revision == c.preparedRevision && p[0].mark.value.state.Running?
    && p[0].worker == run.worker
  }

  predicate AbandonedRecord(run: Run, c: Completion, h: seq<Event>, p: seq<Event>, a: seq<Event>) {
    && c.abandonedAt == Some(run.updatedAt) && c.abandonedRevision == Some(run.revision)
    && |a| == 1 && |p| == 1 && |h| == run.revision + 1
    && a[0].occurredAt == run.updatedAt
    && a[0].mark.Some? && a[0].mark.value.revision == run.revision && a[0].mark.value.state == run.state
    && a[0].worker == run.worker
    && p[0].sequence < h[run.revision].sequence < a[0].sequence
  }

  predicate CommittedRecord(run: Run, c: Completion, ops: seq<Control>) {
    && c.committedAt == Some(run.updatedAt) && c.committedRevision == Some(run.revision)
    && (c.committedBy.Some? <==> ops != [])
    && (ops != [] ==> Last(ops).op == c.committedBy.value)
  }

  predicate CompletionOk(run: Run, c: Option<Completion>, ops: seq<Control>, h: seq<Event>, p: seq<Event>,
                         a: seq<Event>) {
    match c
    case None => p == [] && a == [] && !run.state.Succeeded?
    case Some(c) =>
      && ValidCompletion(c)
      && c.worker == run.worker && c.generation == run.generation && c.backend == run.spec.backend
      && c.preparedRevision <= run.revision
      && StatusFits(run.state, c.status)
      && PreparedRecord(run, c, p)
      && (if c.status.Abandoned? then AbandonedRecord(run, c, h, p, a) else a == [])
      && (c.status.Committed? ==> CommittedRecord(run, c, ops))
  }

  predicate RunOk(db: Db, r: Id)
    requires r in db.runs
  {
    var run := db.runs[r];
    var h := Select(db.events, r, History);
    && RowOk(run)
    && HistoryOk(r, run, h)
    && ControlsOk(run, Ops(db, r))
    && CompletionOk(run, CompletionOf(db, r), Ops(db, r), h, Select(db.events, r, PreparedMark),
                    Select(db.events, r, AbandonedMark))
  }

  ghost predicate RunsOk(db: Db) {
    forall r :: r in db.runs ==> RunOk(db, r)
  }

  // --- Runs of one worker and chains of resumed runs ---------------------------------------------

  ghost predicate OneActive(runs: map<Id, Run>) {
    forall x, y :: x in runs && y in runs && x != y && runs[x].worker == runs[y].worker ==>
                     !(runs[x].state.ControllerActive() && runs[y].state.ControllerActive())
  }

  ghost predicate GenerationsDistinct(runs: map<Id, Run>) {
    forall x, y :: x in runs && y in runs && x != y && runs[x].worker == runs[y].worker && 0 < runs[x].generation ==>
                     runs[x].generation != runs[y].generation
  }

  predicate HasGeneration(runs: map<Id, Run>, w: Id, g: nat) {
    exists y :: y in runs && runs[y].worker == w && runs[y].generation == g
  }

  ghost predicate GenerationsGapless(runs: map<Id, Run>) {
    forall x, g: nat :: x in runs && 0 < g < runs[x].generation ==> HasGeneration(runs, runs[x].worker, g)
  }

  ghost predicate QueueDistinct(runs: map<Id, Run>) {
    forall x, y :: x in runs && y in runs && x != y ==> runs[x].queueSequence != runs[y].queueSequence
  }

  predicate ResumeLink(source: Run, run: Run) {
    && run.worker == source.worker && run.spec == source.spec
    && source.binding.Some? && run.binding == source.binding
    && run.resumeAttempt == source.resumeAttempt + 1
    && source.state.Interrupted?
  }

  ghost predicate ResumesOk(runs: map<Id, Run>) {
    && (forall x :: x in runs && runs[x].resumeOf.Some? ==>
                      runs[x].resumeOf.value in runs && ResumeLink(runs[runs[x].resumeOf.value], runs[x]))
    && (forall x, y :: x in runs && y in runs && x != y && runs[x].resumeOf.Some? ==>
        runs[x].resumeOf != runs[y].resumeOf)
  }

  // --- Keys, workers, outbox ---------------------------------------------------------------------

  ghost predicate KeysOk(db: Db) {
    && (forall r :: r in db.runs ==> db.runs[r].worker in db.workers)
    && (forall r :: r in db.runs && db.runs[r].spec.parentRun.Some? ==> db.runs[r].spec.parentRun.value in db.runs)
    && db.controls.Keys <= db.runs.Keys
    && db.completions.Keys <= db.runs.Keys
  }

  ghost predicate PublicationsDistinct(cs: map<Id, Completion>) {
    forall x, y :: x in cs && y in cs && x != y ==>
                     && cs[x].content.completion != cs[y].content.completion
                     && (cs[x].content.sink != cs[y].content.sink || cs[x].content.key != cs[y].content.key)
  }

  /** A worker is at least as far along as its parent. */
  predicate ParentOk(ws: map<Id, Worker>, w: Id)
    requires w in ws
  {
    ws[w].parent.Some? ==>
      ws[w].parent.value in ws && ws[ws[w].parent.value].lifecycle.Rank() <= ws[w].lifecycle.Rank()
  }

  ghost predicate ForestOk(ws: map<Id, Worker>) {
    && (forall w :: w in ws ==> ValidWorker(w, ws[w]) && ParentOk(ws, w))
    && F.Acyclic(ws)
  }

  predicate EventOk(db: Db, i: nat)
    requires i < |db.events|
  {
    var e := db.events[i];
    && e.sequence == i + 1
    && e.worker in db.workers && e.workerRevision <= db.workers[e.worker].revision
    && (e.mark.Some? ==> e.mark.value.run in db.runs && db.runs[e.mark.value.run].worker == e.worker)
  }

  ghost predicate TimesSorted(es: seq<Event>) {
    forall i, j :: 0 <= i <= j < |es| ==> es[i].occurredAt <= es[j].occurredAt
  }

  ghost predicate EventsOk(db: Db) {
    && db.nextSequence == |db.events| + 1
    && (forall i :: 0 <= i < |db.events| ==> EventOk(db, i))
    && TimesSorted(db.events)
  }

  /** Not before the owner's latest event, and after anything written so far. */
  predicate Timely(db: Db, now: Time) {
    db.events == [] || db.events[|db.events| - 1].occurredAt <= now
  }

  ghost predicate WorkerTimesOk(db: Db, except: set<Id>) {
    forall w :: w in db.workers && w !in except ==>
      db.events != [] && db.workers[w].updatedAt <= db.events[|db.events| - 1].occurredAt
  }

  /** A run under a worker that is no longer open has ended, or is being cancelled for good. */
  predicate Retired(run: Run, ops: seq<Control>) {
    || run.state.Terminal()
    || (run.state.Cancelling? && ops != []
        && (Last(ops).kind.Cancel? || Last(ops).kind == Recover(CancellationAbandoned)))
  }

  /** What a worker's lifecycle allows of its runs. */
  predicate Rested(lifecycle: Lifecycle, run: Run, ops: seq<Control>) {
    (lifecycle.Open? || Retired(run, ops)) && (lifecycle.Released? ==> run.state.Terminal())
  }

  ghost predicate RetiredOk(db: Db, except: set<Id>) {
    forall r :: r in db.runs && db.runs[r].worker in db.workers && db.runs[r].worker !in except ==>
                  Rested(db.workers[db.runs[r].worker].lifecycle, db.runs[r], Ops(db, r))
  }

  ghost predicate CrossOk(runs: map<Id, Run>) {
    OneActive(runs) && GenerationsDistinct(runs) && GenerationsGapless(runs) && QueueDistinct(runs) && ResumesOk(runs)
  }

  /** `except` names workers whose drain is still in progress inside one transaction. */
  ghost predicate Core(db: Db, except: set<Id>) {
    && KeysOk(db)
    && ForestOk(db.workers)
    && RunsOk(db)
    && CrossOk(db.runs)
    && PublicationsDistinct(db.completions)
    && EventsOk(db)
    && WorkerTimesOk(db, except)
    && RetiredOk(db, except)
  }

  // --- Frozen cancel plans -----------------------------------------------------------------------

  ghost predicate PlanTree(ws: map<Id, Worker>, plan: Plan) {
    exists t :: F.Shape(ws, t) && t.id == plan.root && F.Post(t) == plan.workers
  }

  predicate PlanFields(plan: Plan) {
    && 1 <= |plan.workers| <= MAX_TOPOLOGY_NODES && |plan.entries| <= MAX_TREE_CANCEL_RUNS
    && plan.workerCount == |plan.workers| && plan.runCount == |plan.entries|
    && plan.digest == PlanDigest(plan.workers, plan.entries)
    && ValidLease(plan.leaseSeconds)
  }

  predicate CancelledBy(ops: seq<Control>, op: Id) {
    exists i :: 0 <= i < |ops| && ops[i].op == op && ops[i].kind.Cancel?
  }

  predicate EntryOk(db: Db, op: Id, plan: Plan, e: PlanEntry) {
    && e.worker in plan.workers
    && e.run in db.runs && db.runs[e.run].worker == e.worker
    && match e.action
       case QueuedCancel => db.runs[e.run].state.Cancelled?
       case ControllerCancel => CancelledBy(Ops(db, e.run), op)
  }

  ghost predicate PlanOk(db: Db, op: Id)
    requires op in db.plans
  {
    var plan := db.plans[op];
    && PlanFields(plan)
    && PlanTree(db.workers, plan)
    && (forall w :: w in plan.workers ==> w in db.workers && !db.workers[w].lifecycle.Open?)
    && (forall i :: 0 <= i < |plan.entries| ==> EntryOk(db, op, plan, plan.entries[i]))
    && (forall r :: r in db.runs && db.runs[r].worker in plan.workers && !db.runs[r].state.Terminal() ==>
                      PlanEntry(db.runs[r].worker, r, ControllerCancel) in plan.entries)
  }

  predicate Planned(db: Db, r: Id, c: Control)
    requires r in db.runs
  {
    c.kind.Cancel? ==>
      c.op in db.plans && PlanEntry(db.runs[r].worker, r, ControllerCancel) in db.plans[c.op].entries
  }

  ghost predicate PlansOk(db: Db) {
    && (forall op :: op in db.plans ==> PlanOk(db, op))
    && (forall r, i :: r in db.runs && 0 <= i < |Ops(db, r)| ==> Planned(db, r, Ops(db, r)[i]))
  }

  // --- Projection state --------------------------------------------------------------------------

  predicate DispositionOk(db: Db, k: ProjectionKey, d: Disposition) {
    && 1 <= k.sequence <= |db.events|
    && db.events[k.sequence - 1].occurredAt <= d.recordedAt
    && k !in db.progress
    && (d.Deferred? ==> d.recordedAt < d.notBefore)
  }

  ghost predicate ProjectionOk(db: Db) {
    && (forall k :: k in db.progress ==>
                      1 <= k.sequence <= |db.events| && db.events[k.sequence - 1].occurredAt <= db.progress[k])
    && (forall k :: k in db.dispositions ==> DispositionOk(db, k, db.dispositions[k]))
  }

  ghost predicate Inv(db: Db) {
    Core(db, {}) && PlansOk(db) && ProjectionOk(db)
  }

  lemma EmptyIsOk()
    ensures Inv(EMPTY)
  { }
}
