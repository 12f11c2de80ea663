/** The store's own integrity audit, one predicate for each query it runs. */
module Audit {
  import opened AgentTypes
  import opened Tables
  import opened Invariant
  import opened Protocol
  import C = CancelTree
  import F = Forest
  import O = Ordering

  /** SQL's COUNT(*) over the events that satisfy a condition. */
  function Count(es: seq<Event>, p: Event -> bool): nat {
    if es == [] then 0 else Count(es[..|es| - 1], p) + if p(es[|es| - 1]) then 1 else 0
  }

  // --- Keys of the schema ------------------------------------------------------------------------

  ghost predicate ForeignKeys(db: Db) {
    && (forall w :: w in db.workers && db.workers[w].parent.Some? ==> db.workers[w].parent.value in db.workers)
    && (forall r :: r in db.runs ==> db.runs[r].worker in db.workers)
    && (forall r :: r in db.runs && db.runs[r].spec.parentRun.Some? ==> db.runs[r].spec.parentRun.value in db.runs)
    && (forall r :: r in db.runs && db.runs[r].resumeOf.Some? ==> db.runs[r].resumeOf.value in db.runs)
    && db.controls.Keys <= db.runs.Keys && db.completions.Keys <= db.runs.Keys
    && (forall i :: 0 <= i < |db.events| ==> db.events[i].worker in db.workers)
    && (forall i :: 0 <= i < |db.events| && db.events[i].mark.Some? ==> db.events[i].mark.value.run in db.runs)
    && (forall op :: op in db.plans ==> db.plans[op].root in db.workers)
    && (forall k :: k in db.progress ==> 1 <= k.sequence <= |db.events|)
    && (forall k :: k in db.dispositions ==> 1 <= k.sequence <= |db.events|)
  }

  ghost predicate UniqueKeys(db: Db) {
    && (forall x, y :: x in db.runs && y in db.runs && x != y && db.runs[x].resumeOf.Some? ==>
        db.runs[x].resumeOf != db.runs[y].resumeOf)
    && GenerationsDistinct(db.runs)
    && OneActive(db.runs)
    && PublicationsDistinct(db.completions)
    && (forall r :: r in db.runs ==> DistinctOps(Ops(db, r)))
    && (forall r, i, j :: r in db.runs && 0 <= i < j < |Ops(db, r)| ==>
        !(Ops(db, r)[i].status.Active? && Ops(db, r)[j].status.Active?))
  }

  // --- Workers and plans -------------------------------------------------------------------------

  ghost predicate AuditWorkers(db: Db) {
    (forall w :: w in db.workers ==> ValidWorker(w, db.workers[w])) && F.Acyclic(db.workers)
  }

  predicate AuditEntry(db: Db, op: Id, plan: Plan, e: PlanEntry) {
    && e.worker in plan.workers && e.run in db.runs && db.runs[e.run].worker == e.worker
    && match e.action
       case QueuedCancel => db.runs[e.run].state.Cancelled? && db.runs[e.run].failure == Some(FailureCode.Cancelled)
       case ControllerCancel =>
         exists i :: 0 <= i < |Ops(db, e.run)| && Ops(db, e.run)[i].op == op && Ops(db, e.run)[i].kind.Cancel?
  }

  predicate AuditPlan(db: Db, op: Id)
    requires op in db.plans
  {
    var plan := db.plans[op];
    && ValidLease(plan.leaseSeconds)
    && 0 < plan.workerCount <= MAX_TOPOLOGY_NODES && plan.runCount <= MAX_TREE_CANCEL_RUNS
    && plan.root in db.workers && F.Shape(db.workers, F.Subtree(db.workers, plan.root))
    && plan.workers == C.Order(db, plan.root)
    && |plan.workers| == plan.workerCount && |plan.entries| == plan.runCount
    && plan.digest == PlanDigest(plan.workers, plan.entries)
    && forall i :: 0 <= i < |plan.entries| ==> AuditEntry(db, op, plan, plan.entries[i])
  }

  ghost predicate AuditPlans(db: Db) {
    forall op :: op in db.plans ==> AuditPlan(db, op)
  }

  ghost predicate AuditReleased(db: Db) {
    forall w :: w in db.workers && db.workers[w].lifecycle.Released? ==>
                  && (forall r :: r in db.runs && db.runs[r].worker == w ==> db.runs[r].state.Terminal())
                  && (forall c :: c in db.workers && db.workers[c].parent == Some(w) ==>
                      db.workers[c].lifecycle.Released?)
  }

  // --- Runs and control operations ---------------------------------------------------------------

  predicate AuditRun(run: Run) {
    ValidRun(run) && (run.state.Starting? || run.state.Running? <==> run.leaseHash.Some?)
  }

  predicate AuditControl(db: Db, r: Id, c: Control)
    requires r in db.runs
  {
    var run := db.runs[r];
    && c.generation == run.generation && c.revision <= run.revision
    && c.createdAt <= c.updatedAt && c.createdAt < c.expiresAt
    && (c.status.Active? ==>
          c.settledAt.None? && run.state.Cancelling? && c.revision == run.revision && c.controller == run.controller)
    && (!c.status.Active? ==> c.settledAt.Some? && c.createdAt <= c.settledAt.value && c.settledAt.value == c.updatedAt)
    && (c.kind.Cancel? ==> c.op in db.plans && exists i :: 0 <= i < |db.plans[c.op].entries|
                                                         && db.plans[c.op].entries[i].run == r
                                                         && db.plans[c.op].entries[i].action.ControllerCancel?)
  }

  ghost predicate AuditRuns(db: Db) {
    forall r :: r in db.runs ==>
                  && AuditRun(db.runs[r])
                  && (forall i :: 0 <= i < |Ops(db, r)| ==> AuditControl(db, r, Ops(db, r)[i]))
                  && (db.runs[r].state.Cancelling? <==>
                      exists i :: 0 <= i < |Ops(db, r)| && Ops(db, r)[i].status.Active?)
  }

  function Claimed(db: Db, w: Id): set<Id> {
    set r | r in db.runs && db.runs[r].worker == w && 0 < db.runs[r].generation
  }

  function Generations(db: Db, w: Id): set<nat> {
    set r | r in Claimed(db, w) :: db.runs[r].generation
  }

  /** Smallest generation one, and as many as the largest. */
  ghost predicate AuditGenerations(db: Db) {
    forall w :: w in db.workers && Claimed(db, w) != {} ==>
                  1 in Generations(db, w) && |Claimed(db, w)| == O.MaxOf(Generations(db, w))
  }

  predicate AuditDeadline(db: Db, r: Id)
    requires r in db.runs
  {
    var run := db.runs[r];
    if run.generation == 0 then run.deadline.None?
    else
      && run.deadline.Some?
      && exists i :: 0 <= i < |db.events|
                     && db.events[i].mark.Some? && db.events[i].mark.value.run == r
                     && db.events[i].mark.value.revision == 1
                     && db.events[i].kind.RunClaimed?
                     && run.deadline.value == db.events[i].occurredAt + 1000 * run.spec.timeoutSeconds
  }

  ghost predicate AuditDeadlines(db: Db) {
    forall r :: r in db.runs ==> AuditDeadline(db, r)
  }

  // --- The outbox --------------------------------------------------------------------------------

  function Sequences(es: seq<Event>): set<nat> {
    set i | 0 <= i < |es| :: es[i].sequence
  }

  predicate AuditSequences(db: Db) {
    if db.events == [] then db.nextSequence == 1
    else
      && 1 in Sequences(db.events) && |db.events| == O.MaxOf(Sequences(db.events))
      && db.nextSequence == O.MaxOf(Sequences(db.events)) + 1
      && forall i :: 0 <= i < |db.events| ==> db.events[i].sequence != 0
  }

  predicate AuditTimes(es: seq<Event>) {
    forall i :: 0 < i < |es| ==> es[i - 1].occurredAt <= es[i].occurredAt
  }

  function Revisions(h: seq<Event>): set<nat> {
    set i | 0 <= i < |h| && h[i].mark.Some? :: h[i].mark.value.revision
  }

  /** As many events as revisions, the smallest zero, the largest the current one, all different. */
  predicate AuditHistory(db: Db, r: Id)
    requires r in db.runs
  {
    var h, revision := Select(db.events, r, History), db.runs[r].revision;
    && |h| == revision + 1
    && 0 in Revisions(h) && O.MaxOf(Revisions(h)) == revision
    && |Revisions(h)| == revision + 1
  }

  predicate AuditCurrent(db: Db, r: Id)
    requires r in db.runs
  {
    exists i :: 0 <= i < |db.events| && db.events[i].mark.Some? && db.events[i].mark.value.run == r
                && db.events[i].mark.value.revision == db.runs[r].revision
                && db.events[i].occurredAt == db.runs[r].updatedAt
  }

  ghost predicate AuditHistories(db: Db) {
    forall r :: r in db.runs ==> AuditHistory(db, r) && AuditCurrent(db, r)
  }

  predicate EndedBadly(s: RunState) {
    s.Failed? || s.TimedOut? || s.Cancelled? || s.Interrupted?
  }

  predicate AuditEventOf(e: Event, m: RunMark, run: Run, c: Option<Completion>) {
    && run.worker == e.worker && m.revision <= run.revision && run.createdAt <= e.occurredAt
    && (InClass(e.kind, History) ==> e.occurredAt <= run.updatedAt)
    && (e.kind.CompletionPrepared? ==>
          c.Some? && e.occurredAt == c.value.preparedAt && m.revision == c.value.preparedRevision && m.state.Running?)
    && (e.kind.CompletionCommitted? ==>
          && c.Some? && c.value.status.Committed? && c.value.committedAt == Some(e.occurredAt)
          && c.value.committedRevision == Some(m.revision) && m.state.Succeeded?)
    && (e.kind.CompletionAbandoned? ==>
          && c.Some? && c.value.status.Abandoned? && c.value.abandonedAt == Some(e.occurredAt)
          && c.value.abandonedRevision == Some(m.revision) && EndedBadly(m.state))
  }

  predicate AuditEvent(db: Db, e: Event) {
    && e.worker in db.workers && e.workerRevision <= db.workers[e.worker].revision
    && (e.mark.Some? ==> e.mark.value.run in db.runs
                         && AuditEventOf(e, e.mark.value, db.runs[e.mark.value.run],
                                         CompletionOf(db, e.mark.value.run)))
  }

  ghost predicate AuditEvents(db: Db) {
    forall i :: 0 <= i < |db.events| ==> AuditEvent(db, db.events[i])
  }

  // --- Completions -------------------------------------------------------------------------------

  /** The events of one kind about one run that carry exactly this time, revision and state. */
  function Recording(r: Id, kind: EventKind, at: Option<Time>, revision: Option<nat>,
                     state: Option<RunState>): Event -> bool {
    (e: Event) =>
      && e.mark.Some? && e.mark.value.run == r && e.kind == kind
      && Some(e.occurredAt) == at && Some(e.mark.value.revision) == revision
      && (state.None? || Some(e.mark.value.state) == state)
  }

  function CountOf(db: Db, r: Id, kind: EventKind, at: Option<Time>, revision: Option<nat>,
                   state: Option<RunState>): nat {
    Count(db.events, Recording(r, kind, at, revision, state))
  }

  predicate Precedes(db: Db, r: Id, revision: Option<nat>, i: nat, j: nat, k: nat)
    requires i < |db.events| && j < |db.events| && k < |db.events|
  {
    var prepared, terminal, abandoned := db.events[i], db.events[j], db.events[k];
    && Picks(prepared, r, PreparedMark) && Picks(terminal, r, History) && Picks(abandoned, r, AbandonedMark)
    && Some(terminal.mark.value.revision) == revision
    && prepared.sequence < terminal.sequence < abandoned.sequence
  }

  ghost predicate AbandonedInOrder(db: Db, r: Id, revision: Option<nat>) {
    exists i, j, k :: 0 <= i < |db.events| && 0 <= j < |db.events| && 0 <= k < |db.events|
        && Precedes(db, r, revision, i, j, k)
  }

  predicate AuditStatus(run: Run, c: Completion) {
    && c.worker == run.worker && c.generation == run.generation && c.backend == run.spec.backend
    && c.preparedRevision <= run.revision
    && (c.status.Prepared? ==> run.state.Running? || run.state.Cancelling?)
    && (c.status.Committed? ==> run.state.Succeeded? && c.committedRevision == Some(run.revision))
    && (c.status.Abandoned? ==> EndedBadly(run.state) && c.abandonedRevision == Some(run.revision))
  }

  predicate AuditCounts(db: Db, r: Id, c: Completion) {
    && CountOf(db, r, CompletionPrepared, Some(c.preparedAt), Some(c.preparedRevision), None) == 1
    && (c.status.Abandoned? <==> CountOf(db, r, CompletionAbandoned, c.abandonedAt, c.abandonedRevision, None) == 1)
    && (c.status.Committed? <==>
        CountOf(db, r, CompletionCommitted, c.committedAt, c.committedRevision, Some(Succeeded)) == 1)
  }

  ghost predicate AuditCompletion(db: Db, r: Id)
    requires r in db.runs && r in db.completions
  {
    var c := db.completions[r];
    && ValidCompletion(c)
    && AuditStatus(db.runs[r], c)
    && AuditCounts(db, r, c)
    && (c.status.Abandoned? ==> AbandonedInOrder(db, r, c.abandonedRevision))
    && (c.committedBy.Some? ==>
          exists i :: 0 <= i < |Ops(db, r)| && Ops(db, r)[i].op == c.committedBy.value
                      && Ops(db, r)[i].kind == Recover(LeaseExpired) && Ops(db, r)[i].status.Settled?)
  }

  ghost predicate AuditCompletions(db: Db) {
    forall r :: r in db.completions && r in db.runs ==> AuditCompletion(db, r)
  }

  // --- Projection state --------------------------------------------------------------------------

  ghost predicate AuditProjection(db: Db) {
    && (forall k :: k in db.progress && 1 <= k.sequence <= |db.events| ==>
        db.events[k.sequence - 1].occurredAt <= db.progress[k])
    && (forall k :: k in db.dispositions ==>
                      && (db.dispositions[k].Deferred? ==> db.dispositions[k].recordedAt < db.dispositions[k].notBefore)
                      && (1 <= k.sequence <= |db.events| ==>
                          db.events[k.sequence - 1].occurredAt <= db.dispositions[k].recordedAt)
                      && k !in db.progress)
  }

  // --- All owners --------------------------------------------------------------------------------

  function AllRuns(s: Store): set<(Owner, Id)> {
    set o, r | o in s && r in s[o].runs :: (o, r)
  }

  predicate AuditQueue(s: Store) {
    AllRuns(s) != {} ==> 1 in QueueValues(s) && |AllRuns(s)| == O.MaxOf(QueueValues(s))
  }

  ghost predicate AuditOwner(db: Db) {
    && ForeignKeys(db) && UniqueKeys(db)
    && AuditWorkers(db) && AuditPlans(db) && AuditReleased(db)
    && AuditRuns(db) && AuditGenerations(db) && AuditDeadlines(db)
    && AuditSequences(db) && AuditTimes(db.events) && AuditHistories(db) && AuditEvents(db)
    && AuditCompletions(db) && AuditProjection(db)
  }

  ghost predicate AuditStore(s: Store) {
    (forall o :: o in s ==> AuditOwner(s[o])) && AuditQueue(s)
  }
}
