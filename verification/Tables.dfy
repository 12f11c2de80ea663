/**
 The tables of one owner and the row operations every store method is built from.

 A store method runs in one write transaction: it either rejects, leaving the tables as
 they were, or commits a new version of them. `Outcome` is that choice.
 */
module Tables {
  import opened AgentTypes

  datatype Db = Db(
    workers: map<Id, Worker>,
    runs: map<Id, Run>,
    controls: map<Id, seq<Control>>,       // per run, in insertion order
    completions: map<Id, Completion>,      // keyed by run
    plans: map<Id, Plan>,                  // keyed by cancel operation
    events: seq<Event>,
    nextSequence: nat,
    progress: map<ProjectionKey, Time>,
    dispositions: map<ProjectionKey, Disposition>)

  const EMPTY: Db := Db(map[], map[], map[], map[], map[], [], 1, map[], map[])

  datatype Outcome<+T> = Rejected(error: Error) | Done(db: Db, value: T)

  function Ops(db: Db, r: Id): seq<Control> {
    if r in db.controls then db.controls[r] else []
  }

  function CompletionOf(db: Db, r: Id): Option<Completion> {
    if r in db.completions then Some(db.completions[r]) else None
  }

  /** The operation time: the clock, but never before the owner's latest event. */
  function Now(db: Db, clock: Time): Time {
    if db.events == [] then clock
    else
      var latest := db.events[|db.events| - 1].occurredAt;
      if clock < latest then latest else clock
  }

  predicate ValidLease(seconds: nat) {
    0 < seconds <= MAX_LEASE_SECONDS
  }

  function After(now: Time, seconds: nat): Time {
    now + 1000 * seconds
  }

  // --- Rules for single rows ---------------------------------------------------------------------

  predicate ValidWorker(id: Id, w: Worker) {
    && w.parent != Some(id)
    && w.createdAt <= w.updatedAt
    && match w.lifecycle
       case Released => w.releasedAt.Some? && w.createdAt <= w.releasedAt.value <= w.updatedAt
       case _ => w.releasedAt.None?
  }

  predicate InLife(run: Run, t: Option<Time>) {
    t.Some? ==> run.createdAt <= t.value <= run.updatedAt
  }

  predicate TerminalFields(run: Run, code: Option<FailureCode>) {
    run.finishedAt.Some? && run.controller.None? && run.lease.None? && run.failure == code
  }

  predicate StateFields(run: Run) {
    match run.state
    case Queued =>
      && run.generation == 0 && run.startedAt.None? && run.finishedAt.None? && run.controller.None?
      && run.lease.None? && run.heartbeatAt.None? && run.activityAt.None? && run.failure.None?
      && run.deadline.None?
    case Starting =>
      && run.generation != 0 && run.startedAt.None? && run.finishedAt.None? && run.controller.None?
      && run.lease.Some? && run.failure.None? && run.deadline.Some?
    case Running =>
      && run.generation != 0 && run.startedAt.Some? && run.finishedAt.None? && run.controller.Some?
      && run.lease.Some? && run.heartbeatAt.Some? && run.activityAt.Some? && run.failure.None?
      && run.deadline.Some?
    case Cancelling =>
      && run.generation != 0 && run.finishedAt.None? && run.lease.None? && run.failure.None?
      && run.deadline.Some?
    case Succeeded => TerminalFields(run, None)
    case Failed =>
      && run.failure.Some? && !run.failure.value.TimedOut? && !run.failure.value.Cancelled?
      && TerminalFields(run, run.failure)
    case TimedOut => TerminalFields(run, Some(FailureCode.TimedOut))
    case Cancelled => TerminalFields(run, Some(FailureCode.Cancelled))
    case Interrupted => run.failure.Some? && TerminalFields(run, run.failure)
  }

  predicate ValidRun(run: Run) {
    && 0 < run.spec.timeoutSeconds <= MAX_TIMEOUT_SECONDS
    && run.spec.maxResumeAttempts <= MAX_RESUME_ATTEMPTS
    && run.resumeAttempt <= run.spec.maxResumeAttempts
    && (run.resumeOf.None? <==> run.resumeAttempt == 0)
    && run.createdAt <= run.updatedAt
    && (run.deadline.Some? ==> run.createdAt <= run.deadline.value)
    && InLife(run, run.startedAt) && InLife(run, run.finishedAt)
    && InLife(run, run.heartbeatAt) && InLife(run, run.activityAt)
    && (run.controller.Some? && run.spec.backend.Claimable() ==>
          run.spec.backend.Controller() == Some(run.controller.value.kind))
    && (run.lease.Some? ==> run.updatedAt < run.lease.value.expiresAt)
    && StateFields(run)
  }

  predicate ValidCompletion(c: Completion) {
    && c.generation != 0 && c.preparedRevision != 0
    && (match c.status
        case Prepared =>
          && c.committedAt.None? && c.committedRevision.None? && c.abandonedAt.None?
          && c.abandonedRevision.None? && c.committedBy.None?
        case Committed =>
          && c.committedAt.Some? && c.committedRevision.Some? && c.committedRevision.value != 0
          && c.abandonedAt.None? && c.abandonedRevision.None?
        case Abandoned =>
          && c.committedAt.None? && c.committedRevision.None? && c.abandonedAt.Some?
          && c.abandonedRevision.Some? && c.committedBy.None?)
    && (c.committedAt.Some? ==> c.preparedAt <= c.committedAt.value)
    && (c.abandonedAt.Some? ==> c.preparedAt <= c.abandonedAt.value)
  }

  /** What an update of a run may not touch. */
  predicate SameIdentity(before: Run, next: Run) {
    && next.worker == before.worker && next.spec == before.spec && next.resumeOf == before.resumeOf
    && next.resumeAttempt == before.resumeAttempt && next.availableAt == before.availableAt
    && next.queueSequence == before.queueSequence && next.createdAt == before.createdAt
    && (before.binding.Some? ==> next.binding == before.binding)
    && (|| next.deadline == before.deadline
        || (before.deadline.None? && before.state.Queued? && next.state.Starting?))
  }

  // --- Control operations of one run -------------------------------------------------------------

  /** Where the active operation stands, or -1. */
  function ActiveIndex(ops: seq<Control>): (i: int)
    ensures -1 <= i < |ops|
    ensures 0 <= i ==> ops[i].status.Active?
    ensures i < 0 ==> forall k :: 0 <= k < |ops| ==> !ops[k].status.Active?
  {
    if ops == [] then -1
    else if ops[|ops| - 1].status.Active? then |ops| - 1
    else ActiveIndex(ops[..|ops| - 1])
  }

  function ActiveOp(ops: seq<Control>): Option<Control> {
    var i := ActiveIndex(ops);
    if i < 0 then None else Some(ops[i])
  }

  function Close(ops: seq<Control>, status: ControlStatus, now: Time): seq<Control> {
    var i := ActiveIndex(ops);
    if i < 0 then ops else ops[i := ops[i].(status := status, updatedAt := now, settledAt := Some(now))]
  }

  datatype ControlChange = Keep | Push(op: Control) | Finish

  function NextControls(ops: seq<Control>, change: ControlChange, now: Time): seq<Control> {
    match change
    case Keep => ops
    case Push(op) => Close(ops, Superseded, now) + [op]
    case Finish => Close(ops, Settled, now)
  }

  predicate KnownOp(ops: seq<Control>, op: Id) {
    exists i :: 0 <= i < |ops| && ops[i].op == op
  }

  // --- The completion of one run -----------------------------------------------------------------

  datatype CompletionChange = Leave | Commit(via: Option<Id>) | Abandon

  function NextCompletion(c: Option<Completion>, change: CompletionChange, revision: nat,
                          now: Time): Option<Completion> {
    if c.None? then None else
      match change
      case Leave => c
      case Commit(via) =>
        Some(c.value.(status := Committed, committedAt := Some(now), committedRevision := Some(revision),
                      committedBy := via, revision := c.value.revision + 1))
      case Abandon =>
        if !c.value.status.Prepared? then c else
          Some(c.value.(status := Abandoned, abandonedAt := Some(now), abandonedRevision := Some(revision),
                        revision := c.value.revision + 1))
  }

  predicate Abandons(c: Option<Completion>, change: CompletionChange) {
    change.Abandon? && c.Some? && c.value.status.Prepared?
  }

  // --- Writing rows ------------------------------------------------------------------------------

  function Emit(db: Db, now: Time, w: Id, mark: Option<RunMark>, kind: EventKind): Db
    requires w in db.workers
  {
    var e := Event(db.nextSequence, w, mark, now, kind, db.workers[w].revision, db.workers[w].lifecycle);
    db.(events := db.events + [e], nextSequence := db.nextSequence + 1)
  }

  function MarkOf(r: Id, run: Run): RunMark {
    RunMark(r, run.revision, run.state)
  }

  function WriteRun(db: Db, now: Time, r: Id, next: Run, control: ControlChange, completion: CompletionChange): Db {
    var c := NextCompletion(CompletionOf(db, r), completion, next.revision, now);
    db.(runs := db.runs[r := next],
        controls := db.controls[r := NextControls(Ops(db, r), control, now)],
        completions := if c.Some? then db.completions[r := c.value] else db.completions)
  }

  /**
   One step of one run: the new row, the change to its control operations and to its
   completion, and the event or events that record it.
   */
  function Advance(db: Db, now: Time, r: Id, next: Run, control: ControlChange,
                   completion: CompletionChange, kind: EventKind): Outcome<Run>
    requires r in db.runs
  {
    var before := db.runs[r];
    var c := NextCompletion(CompletionOf(db, r), completion, next.revision, now);
    if before.worker !in db.workers then Rejected(NotFound)
    else if !ValidRun(next) || !SameIdentity(before, next) || (c.Some? && !ValidCompletion(c.value)) then
      Rejected(CorruptData)
    else if control.Push? && KnownOp(Ops(db, r), control.op.op) then Rejected(Constraint)
    else
      var written := Emit(WriteRun(db, now, r, next, control, completion), now, before.worker, Some(MarkOf(r, next)),
                          kind);
      Done(if Abandons(CompletionOf(db, r), completion)
           then Emit(written, now, before.worker, Some(MarkOf(r, next)), CompletionAbandoned)
           else written,
           next)
  }
}
