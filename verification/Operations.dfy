/**
 The store methods that act on single rows or on a page of due runs. Each takes the
 tables and the operation time and either rejects or returns the committed tables.
 */
module Operations {
  import opened AgentTypes
  import opened Tables
  import O = Ordering

  // --- Creating workers and queueing runs --------------------------------------------------------

  function QueuedRun(nr: NewRun, now: Time, queueSequence: nat): Run {
    Run(nr.worker, nr.spec, None, 0, None, nr.availableAt, queueSequence, now, now,
        None, None, None, None, Queued, 0, 0, None, None, None, None, None)
  }

  function NewWorkerRow(nw: NewWorker, parent: Option<Id>, now: Time): Worker {
    Worker(parent, nw.session, Open, now, now, None, 0)
  }

  function AddWorker(db: Db, now: Time, id: Id, worker: Worker): Db {
    Emit(db.(workers := db.workers[id := worker]), now, id, None, WorkerCreated)
  }

  function AddRun(db: Db, now: Time, id: Id, run: Run, kind: EventKind): Outcome<Run>
    requires run.worker in db.workers
  {
    if !ValidRun(run) then Rejected(CorruptData)
    else Done(Emit(db.(runs := db.runs[id := run]), now, run.worker, Some(MarkOf(id, run)), kind), run)
  }

  function CreateRoot(db: Db, now: Time, queueSequence: nat, nw: NewWorker, nr: NewRun): Outcome<Run> {
    if !nr.spec.Valid() || nr.worker != nw.id || nr.spec.parentRun.Some? then Rejected(InvalidInput)
    else if nw.id in db.workers || nr.id in db.runs then Rejected(AlreadyExists)
    else AddRun(AddWorker(db, now, nw.id, NewWorkerRow(nw, None, now)), now, nr.id, QueuedRun(nr, now, queueSequence),
                RunQueued)
  }

  /** A bumped revision of a worker row, with the event that records it. */
  function TouchWorker(db: Db, now: Time, w: Id, next: Worker, kind: EventKind): Db {
    Emit(db.(workers := db.workers[w := next]), now, w, None, kind)
  }

  function SpawnChild(db: Db, now: Time, queueSequence: nat, parent: Id, expectedRevision: nat,
                      nw: NewWorker, nr: NewRun): Outcome<Run> {
    if !nr.spec.Valid() || nw.id == parent || nr.worker != nw.id then Rejected(InvalidInput)
    else if parent !in db.workers then Rejected(NotFound)
    else
      var p := db.workers[parent];
      if p.revision != expectedRevision then Rejected(Conflict)
      else if !p.lifecycle.Open? then Rejected(InvalidTransition)
      else if nw.id in db.workers || nr.id in db.runs then Rejected(AlreadyExists)
      else if nr.spec.parentRun.Some? && nr.spec.parentRun.value !in db.runs then Rejected(NotFound)
      else if nr.spec.parentRun.Some? && db.runs[nr.spec.parentRun.value].worker != parent then Rejected(InvalidInput)
      else
        var touched := TouchWorker(db, now, parent, p.(revision := p.revision + 1, updatedAt := now), ChildSpawned);
        AddRun(AddWorker(touched, now, nw.id, NewWorkerRow(nw, Some(parent), now)), now,
               nr.id, QueuedRun(nr, now, queueSequence), RunQueued)
  }

  function EnqueueRun(db: Db, now: Time, queueSequence: nat, nr: NewRun): Outcome<Run> {
    if !nr.spec.Valid() then Rejected(InvalidInput)
    else if nr.worker !in db.workers then Rejected(NotFound)
    else if !db.workers[nr.worker].lifecycle.Open? then Rejected(InvalidTransition)
    else if nr.id in db.runs then Rejected(AlreadyExists)
    else if nr.spec.parentRun.Some? && nr.spec.parentRun.value !in db.runs then Rejected(NotFound)
    else AddRun(db, now, nr.id, QueuedRun(nr, now, queueSequence), RunQueued)
  }

  function ResumedRun(source: Id, run: Run, availableAt: Time, now: Time, queueSequence: nat): Run {
    Run(run.worker, run.spec, Some(source), run.resumeAttempt + 1, run.binding, availableAt, queueSequence, now, now,
        None, None, None, None, Queued, 0, 0, None, None, None, None, None)
  }

  function EnqueueResume(db: Db, now: Time, queueSequence: nat, req: ResumeRequest): Outcome<Run> {
    if req.newRun in db.runs then Rejected(AlreadyExists)
    else if req.source !in db.runs then Rejected(NotFound)
    else
      var source := db.runs[req.source];
      if !source.spec.backend.Claimable() || !source.ResumeEligible() then Rejected(ResumeRejected)
      else if source.worker !in db.workers then Rejected(NotFound)
      else
        var worker := db.workers[source.worker];
        if || !worker.lifecycle.Open?
           || worker.session != Some(req.proof.session)
           || source.spec.policy != req.policy
           || source.binding != Some(req.proof.binding)
           || exists x :: x in db.runs && db.runs[x].resumeOf == Some(req.source)
        then Rejected(ResumeRejected)
        else AddRun(db, now, req.newRun, ResumedRun(req.source, source, req.availableAt, now, queueSequence),
                    ResumeQueued)
  }

  // --- Claiming due runs -------------------------------------------------------------------------

  predicate Due(run: Run, now: Time) {
    run.state.Queued? && run.availableAt <= now
  }

  predicate QueuedAhead(a: Run, b: Run) {
    a.availableAt < b.availableAt || (a.availableAt == b.availableAt && a.queueSequence < b.queueSequence)
  }

  predicate Claimable(db: Db, now: Time, backend: Backend, r: Id)
    requires r in db.runs
  {
    var run := db.runs[r];
    && run.spec.backend == backend
    && Due(run, now)
    && run.worker in db.workers && db.workers[run.worker].lifecycle.Open?
    && (forall x :: x in db.runs && db.runs[x].worker == run.worker ==> !db.runs[x].state.ControllerActive())
    && (forall x :: x in db.runs && db.runs[x].worker == run.worker && Due(db.runs[x], now) ==>
                      !QueuedAhead(db.runs[x], run))
  }

  /** The runs a claim may take, in queue order. */
  function ClaimQueue(db: Db, now: Time, backend: Backend): seq<Id> {
    O.Ids(O.Sort(set r | r in db.runs && Claimable(db, now, backend, r)
                       :: O.Row(db.runs[r].availableAt, db.runs[r].queueSequence, r)))
  }

  function Page(ids: seq<Id>, limit: nat): seq<Id> {
    if limit < |ids| then ids[..limit] else ids
  }

  function NextGeneration(db: Db, w: Id): nat {
    O.MaxOf(set r | r in db.runs && db.runs[r].worker == w :: db.runs[r].generation) + 1
  }

  function ClaimedRow(run: Run, generation: nat, now: Time, lease: Lease, token: Token): Run {
    run.(state := Starting, revision := run.revision + 1, generation := generation, updatedAt := now,
         deadline := Some(After(now, run.spec.timeoutSeconds)), lease := Some(lease), leaseHash := Some(HashOf(token)))
  }

  function ReceiptFor(r: Id, run: Run, leaseOwner: Id, token: Token): Receipt {
    Receipt(r, run.worker, run.generation, run.revision, leaseOwner, token)
  }

  function WithReceipt(out: Outcome<Run>, r: Id, leaseOwner: Id, token: Token): Outcome<ClaimedRun> {
    if out.Rejected? then Rejected(out.error)
    else Done(out.db, ClaimedRun(out.value, ReceiptFor(r, out.value, leaseOwner, token)))
  }

  function ClaimOne(db: Db, now: Time, r: Id, lease: Lease, token: Token): Outcome<ClaimedRun> {
    if r !in db.runs then Rejected(NotFound)
    else
      var before := db.runs[r];
      if before.worker !in db.workers then Rejected(NotFound)
      else if !before.state.Queued? || !db.workers[before.worker].lifecycle.Open? then Rejected(CorruptData)
      else
        var next := ClaimedRow(before, NextGeneration(db, before.worker), now, lease, token);
        WithReceipt(Advance(db, now, r, next, Keep, Leave, RunClaimed), r, lease.owner, token)
  }

  function ClaimAll(db: Db, now: Time, ids: seq<Id>, lease: Lease, seed: nat): Outcome<seq<ClaimedRun>> {
    if ids == [] then Done(db, [])
    else
      var front := ClaimAll(db, now, ids[..|ids| - 1], lease, seed);
      if front.Rejected? then front
      else
        var last := ClaimOne(front.db, now, ids[|ids| - 1], lease, Minted(seed + ids[|ids| - 1]));
        if last.Rejected? then Rejected(last.error) else Done(last.db, front.value + [last.value])
  }

  function ClaimDue(db: Db, now: Time, backend: Backend, leaseOwner: Id, seconds: nat, limit: nat,
                    seed: nat): Outcome<seq<ClaimedRun>> {
    if !backend.Claimable() || !ValidLease(seconds) || !(1 <= limit <= MAX_PAGE_SIZE) then Rejected(InvalidInput)
    else ClaimAll(db, now, Page(ClaimQueue(db, now, backend), limit), Lease(leaseOwner, After(now, seconds)), seed)
  }

  // --- Steps authorised by a lease receipt -------------------------------------------------------

  predicate ReceiptMatches(run: Run, now: Time, receipt: Receipt) {
    && run.worker == receipt.worker
    && run.generation == receipt.generation
    && run.revision == receipt.revision
    && run.lease.Some? && run.lease.value.owner == receipt.leaseOwner && now < run.lease.value.expiresAt
    && run.deadline.Some? && now < run.deadline.value
    && run.leaseHash == Some(HashOf(receipt.token))
  }

  /** Why a receipt is refused, if it is. */
  function ReceiptError(db: Db, now: Time, receipt: Receipt, states: set<RunState>): Option<Error> {
    if receipt.generation == 0 then Some(InvalidReceipt)
    else if receipt.run !in db.runs then Some(NotFound)
    else if db.runs[receipt.run].state in states && ReceiptMatches(db.runs[receipt.run], now, receipt) then None
    else Some(InvalidReceipt)
  }

  function StartedRow(run: Run, controller: Controller, now: Time): Run {
    run.(state := Running, controller := Some(controller), startedAt := Some(now), heartbeatAt := Some(now),
         activityAt := Some(now), updatedAt := now, revision := run.revision + 1)
  }

  function Start(db: Db, now: Time, receipt: Receipt, controller: Controller): Outcome<ClaimedRun> {
    var refused := ReceiptError(db, now, receipt, {Starting});
    if refused.Some? then Rejected(refused.value)
    else
      var before := db.runs[receipt.run];
      if before.spec.backend.Controller() != Some(controller.kind) then Rejected(InvalidInput)
      else
        WithReceipt(Advance(db, now, receipt.run, StartedRow(before, controller, now), Keep, Leave, RunStarted),
                    receipt.run, receipt.leaseOwner, receipt.token)
  }

  /** A renewed lease never ends earlier than the one it replaces. */
  function RenewedRow(run: Run, leaseOwner: Id, seconds: nat, now: Time): Run
    requires run.lease.Some?
  {
    var requested, current := After(now, seconds), run.lease.value.expiresAt;
    run.(lease := Some(Lease(leaseOwner, if requested < current then current else requested)),
         heartbeatAt := Some(now), updatedAt := now, revision := run.revision + 1)
  }

  function Heartbeat(db: Db, now: Time, receipt: Receipt, seconds: nat): Outcome<ClaimedRun> {
    var refused := ReceiptError(db, now, receipt, {Running});
    if !ValidLease(seconds) then Rejected(InvalidInput)
    else if refused.Some? then Rejected(refused.value)
    else
      WithReceipt(Advance(db, now, receipt.run, RenewedRow(db.runs[receipt.run], receipt.leaseOwner, seconds, now),
                          Keep, Leave, RunHeartbeat),
                  receipt.run, receipt.leaseOwner, receipt.token)
  }

  function ActiveRow(run: Run, now: Time): Run {
    run.(activityAt := Some(now), updatedAt := now, revision := run.revision + 1)
  }

  function RecordActivity(db: Db, now: Time, receipt: Receipt): Outcome<ClaimedRun> {
    var refused := ReceiptError(db, now, receipt, {Running});
    if refused.Some? then Rejected(refused.value)
    else if receipt.run in db.completions then Rejected(InvalidReceipt)
    else
      WithReceipt(Advance(db, now, receipt.run, ActiveRow(db.runs[receipt.run], now), Keep, Leave, RunActivity),
                  receipt.run, receipt.leaseOwner, receipt.token)
  }

  function BoundRow(run: Run, binding: Id, now: Time): Run {
    run.(binding := Some(binding), updatedAt := now, revision := run.revision + 1)
  }

  function BindResume(db: Db, now: Time, receipt: Receipt, proof: SessionProof): Outcome<ClaimedRun> {
    var refused := ReceiptError(db, now, receipt, {Running});
    if refused.Some? then Rejected(refused.value)
    else if receipt.run in db.completions then Rejected(InvalidReceipt)
    else
      var before := db.runs[receipt.run];
      if before.worker !in db.workers then Rejected(NotFound)
      else if db.workers[before.worker].session != Some(proof.session) then Rejected(InvalidInput)
      else if before.binding.Some? then
        if before.binding.value != proof.binding then Rejected(InvalidInput)
        else Done(db, ClaimedRun(before, receipt))
      else
        WithReceipt(Advance(db, now, receipt.run, BoundRow(before, proof.binding, now), Keep, Leave, ResumeBound),
                    receipt.run, receipt.leaseOwner, receipt.token)
  }

  function SettlementParts(s: Settlement): Option<(RunState, FailureCode)> {
    match s
    case SettleFailed(code) =>
      if code.TimedOut? || code.Cancelled? then None else Some((RunState.Failed, code))
    case SettleTimedOut => Some((RunState.TimedOut, FailureCode.TimedOut))
    case SettleInterrupted(code) =>
      if code.ResumeEligible() then Some((RunState.Interrupted, code)) else None
  }

  /** A run that ended: no controller, no lease, no token. */
  function EndedRow(run: Run, state: RunState, code: Option<FailureCode>, now: Time): Run {
    run.(state := state, failure := code, finishedAt := Some(now), updatedAt := now, revision := run.revision + 1,
         controller := None, lease := None, leaseHash := None)
  }

  function Settle(db: Db, now: Time, receipt: Receipt, settlement: Settlement): Outcome<Run> {
    var parts := SettlementParts(settlement);
    var refused := ReceiptError(db, now, receipt, {Starting, Running});
    if parts.None? then Rejected(InvalidInput)
    else if refused.Some? then Rejected(refused.value)
    else
      var next := EndedRow(db.runs[receipt.run], parts.value.0, Some(parts.value.1), now);
      Advance(db, now, receipt.run, next, Keep, Abandon, RunSettled)
  }

  // --- Execution permits and completions ---------------------------------------------------------

  /** What `validate_execution_permit` checks, with or without a native scope. */
  predicate PermitLive(db: Db, now: Time, permit: ExecutionPermit, policy: Id) {
    && permit.policy == policy
    && permit.run in db.runs && permit.worker in db.workers
    && PermitHolds(db, now, permit)
    && permit.run !in db.completions
  }

  /** The part of permit validity that `prepare_completion` checks. */
  predicate PermitHolds(db: Db, now: Time, permit: ExecutionPermit)
    requires permit.run in db.runs && permit.worker in db.workers
  {
    var run := db.runs[permit.run];
    && run.worker == permit.worker
    && run.generation == permit.generation
    && run.state.Running?
    && run.spec.policy == permit.policy
    && db.workers[permit.worker].lifecycle.Open?
    && run.lease.Some? && run.lease.value.owner == permit.leaseOwner && now < run.lease.value.expiresAt
    && run.deadline.Some? && now < run.deadline.value
    && run.leaseHash == Some(HashOf(permit.token))
  }

  predicate ScopeMatches(db: Db, permit: ExecutionPermit, scope: NativeScope)
    requires permit.run in db.runs && permit.worker in db.workers
  {
    var run := db.runs[permit.run];
    && run.spec.target == scope.target
    && run.spec.prompt == scope.prompt
    && run.spec.policy == scope.policy
    && db.workers[permit.worker].session == scope.session
    && run.binding == scope.binding
  }

  predicate NativePermitLive(db: Db, now: Time, permit: ExecutionPermit, scope: NativeScope) {
    PermitLive(db, now, permit, scope.policy) && ScopeMatches(db, permit, scope)
  }

  function IssuePermit(db: Db, now: Time, receipt: Receipt, policy: Id): Option<ExecutionPermit> {
    var refused := ReceiptError(db, now, receipt, {Running});
    if refused.Some? || receipt.worker !in db.workers || !db.workers[receipt.worker].lifecycle.Open?
       || db.runs[receipt.run].spec.policy != policy || receipt.run in db.completions
    then None
    else Some(ExecutionPermit(receipt.run, receipt.worker, receipt.generation, receipt.leaseOwner, policy,
                              receipt.token))
  }

  function CompletionPermitFor(r: Id, c: Completion, token: Token): CompletionPermit {
    CompletionPermit(r, c.worker, c.generation, c.content.completion, token)
  }

  predicate Occupied(db: Db, content: Content) {
    exists r :: r in db.completions
                && (|| db.completions[r].content.completion == content.completion
                    || (db.completions[r].content.sink == content.sink && db.completions[r].content.key == content.key))
  }

  function PreparedRow(run: Run, content: Content, token: Token, now: Time): Completion {
    Completion(run.worker, run.generation, run.spec.backend, content, HashOf(token), Prepared, now, run.revision,
               None, None, None, None, None, 0)
  }

  function PrepareCompletion(db: Db, now: Time, permit: ExecutionPermit, content: Content)
    : Outcome<(Completion, CompletionPermit)>
  {
    if permit.run !in db.runs || permit.worker !in db.workers || !PermitHolds(db, now, permit) then
      Rejected(InvalidExecutionPermit)
    else
      var run := db.runs[permit.run];
      var token := CompletionToken(permit.token, permit.run, content.completion);
      if permit.run in db.completions then
        var existing := db.completions[permit.run];
        if !existing.status.Prepared? || existing.worker != permit.worker
           || existing.generation != permit.generation || existing.content != content
        then Rejected(CompletionConflict)
        else Done(db, (existing, CompletionPermitFor(permit.run, existing, token)))
      else if Occupied(db, content) then Rejected(CompletionConflict)
      else
        var c := PreparedRow(run, content, token, now);
        if !ValidCompletion(c) then Rejected(CorruptData)
        else
          Done(Emit(db.(completions := db.completions[permit.run := c]), now, run.worker,
                    Some(MarkOf(permit.run, run)), CompletionPrepared),
               (c, CompletionPermitFor(permit.run, c, token)))
  }

  predicate PermitOwns(c: Completion, permit: CompletionPermit) {
    && c.worker == permit.worker && c.generation == permit.generation
    && c.content.completion == permit.completion && c.hash == HashOf(permit.token)
  }

  predicate MayCommitLive(db: Db, now: Time, r: Id)
    requires r in db.runs && r in db.completions
  {
    var run, c := db.runs[r], db.completions[r];
    && c.status.Prepared?
    && run.worker == c.worker && run.generation == c.generation && run.spec.backend == c.backend
    && run.state.Running?
    && run.lease.Some? && now < run.lease.value.expiresAt
    && run.deadline.Some? && now < run.deadline.value
    && ActiveOp(Ops(db, r)).None?
  }

  /** What `validate_completion_permit` checks. */
  predicate CompletionPermitLive(db: Db, now: Time, permit: CompletionPermit) {
    && permit.run in db.completions && permit.run in db.runs
    && PermitOwns(db.completions[permit.run], permit)
    && MayCommitLive(db, now, permit.run)
  }

  function WithCompletion(out: Outcome<Run>, r: Id): Outcome<(Run, Completion)> {
    if out.Rejected? then Rejected(out.error)
    else if r !in out.db.completions then Rejected(CorruptData)
    else Done(out.db, (out.value, out.db.completions[r]))
  }

  function CommitCompletion(db: Db, now: Time, permit: CompletionPermit): Outcome<(Run, Completion)> {
    var r := permit.run;
    if r !in db.completions || !PermitOwns(db.completions[r], permit) || r !in db.runs
        then Rejected(InvalidCompletionPermit)
    else
      var before, c := db.runs[r], db.completions[r];
      if c.status.Committed? && before.state.Succeeded? && before.spec.backend == c.backend then Done(db, (before, c))
      else if !MayCommitLive(db, now, r) then Rejected(InvalidCompletionPermit)
      else
        WithCompletion(Advance(db, now, r, EndedRow(before, Succeeded, before.failure, now), Keep, Commit(None),
                               CompletionCommitted), r)
  }

  // --- Steps authorised by a control ticket ------------------------------------------------------

  predicate CancelMatches(op: Control, t: CancelTicket, now: Time) {
    && op.kind.Cancel? && op.op == t.op && op.generation == t.generation && op.revision == t.revision
    && op.controller == t.controller && op.leaseOwner == t.leaseOwner && op.expiresAt == t.expiresAt
    && now < op.expiresAt && op.hash == HashOf(t.token)
  }

  /** Everything a recovery ticket must agree on with its stored operation, except liveness. */
  predicate RecoveryIdentity(op: Control, t: RecoveryTicket) {
    && op.op == t.op && op.kind == Recover(t.reason) && op.generation == t.generation && op.revision == t.revision
    && op.controller == t.controller && op.leaseOwner == t.leaseOwner && op.expiresAt == t.expiresAt
    && op.hash == HashOf(t.token)
  }

  predicate RecoveryMatches(op: Control, t: RecoveryTicket, now: Time) {
    RecoveryIdentity(op, t) && now < op.expiresAt
  }

  predicate CancelTicketLive(db: Db, now: Time, t: CancelTicket)
    requires t.run in db.runs
  {
    var run, active := db.runs[t.run], ActiveOp(Ops(db, t.run));
    && active.Some?
    && run.worker == t.worker && run.generation == t.generation && run.revision == t.revision
    && run.state.Cancelling? && CancelMatches(active.value, t, now)
  }

  predicate RecoveryTicketLive(db: Db, now: Time, t: RecoveryTicket)
    requires t.run in db.runs
  {
    var run, active := db.runs[t.run], ActiveOp(Ops(db, t.run));
    && active.Some?
    && run.worker == t.worker && run.generation == t.generation && run.revision == t.revision
    && run.state.Cancelling? && RecoveryMatches(active.value, t, now)
  }

  function CancelVerdict(outcome: CancelOutcome): (RunState, FailureCode) {
    match outcome
    case OutcomeCancelled => (RunState.Cancelled, FailureCode.Cancelled)
    case OutcomeUnavailable => (RunState.Interrupted, ControlUnavailable)
  }

  function SettleCancel(db: Db, now: Time, t: CancelTicket, outcome: CancelOutcome): Outcome<Run> {
    if t.run !in db.runs then Rejected(NotFound)
    else if !CancelTicketLive(db, now, t) then Rejected(InvalidCancelTicket)
    else
      var verdict := CancelVerdict(outcome);
      Advance(db, now, t.run, EndedRow(db.runs[t.run], verdict.0, Some(verdict.1), now), Finish, Abandon, CancelSettled)
  }

  function GoneVerdict(reason: RecoveryReason): (RunState, FailureCode) {
    match reason
    case LeaseExpired => (RunState.Interrupted, ControllerLost)
    case ExecutionTimedOut => (RunState.TimedOut, FailureCode.TimedOut)
    case CancellationAbandoned => (RunState.Cancelled, FailureCode.Cancelled)
  }

  function ConfirmGone(db: Db, now: Time, t: RecoveryTicket): Outcome<Run> {
    if t.generation == 0 then Rejected(InvalidRecoveryTicket)
    else if t.run !in db.runs then Rejected(NotFound)
    else if !RecoveryTicketLive(db, now, t) then Rejected(InvalidRecoveryTicket)
    else
      var verdict := GoneVerdict(t.reason);
      Advance(db, now, t.run, EndedRow(db.runs[t.run], verdict.0, Some(verdict.1), now), Finish, Abandon,
              RecoverySettled)
  }

  predicate SettledRecovery(ops: seq<Control>, t: RecoveryTicket) {
    exists i :: 0 <= i < |ops| && ops[i].status.Settled? && RecoveryIdentity(ops[i], t)
  }

  function CommitRecovered(db: Db, now: Time, t: RecoveryTicket, completion: Id): Outcome<(Run, Completion)> {
    var r := t.run;
    if t.generation == 0 || !t.reason.LeaseExpired? then Rejected(InvalidRecoveryTicket)
    else if r !in db.runs then Rejected(NotFound)
    else if r !in db.completions then Rejected(InvalidCompletionPermit)
    else
      var before, c := db.runs[r], db.completions[r];
      if before.state.Succeeded? && c.status.Committed? && c.content.completion == completion
         && c.committedBy == Some(t.op) && before.spec.backend == c.backend && SettledRecovery(Ops(db, r), t)
      then Done(db, (before, c))
      else if !RecoveryTicketLive(db, now, t) || !c.status.Prepared? || c.content.completion != completion
              || c.generation != t.generation || before.spec.backend != c.backend
      then Rejected(InvalidRecoveryTicket)
      else
        WithCompletion(Advance(db, now, r, EndedRow(before, Succeeded, None, now), Finish, Commit(Some(t.op)),
                               CompletionCommitted), r)
  }

  // --- Recovery of lapsed leases, deadlines and control operations -------------------------------

  predicate RecoveryDue(db: Db, now: Time, r: Id)
    requires r in db.runs
  {
    var run := db.runs[r];
    || ((run.state.Starting? || run.state.Running?)
        && (|| (run.deadline.Some? && run.deadline.value <= now)
            || (run.lease.Some? && run.lease.value.expiresAt <= now)))
    || (run.state.Cancelling? && ActiveOp(Ops(db, r)).Some? && ActiveOp(Ops(db, r)).value.expiresAt <= now)
  }

  function RecoveryTime(db: Db, now: Time, r: Id): Time
    requires r in db.runs
  {
    var run := db.runs[r];
    if run.deadline.Some? && run.deadline.value <= now then run.deadline.value
    else if run.state.Cancelling? && ActiveOp(Ops(db, r)).Some? then ActiveOp(Ops(db, r)).value.expiresAt
    else if run.lease.Some? then run.lease.value.expiresAt
    else 0
  }

  function RecoveryQueue(db: Db, now: Time): seq<Id> {
    O.Ids(O.Sort(set r | r in db.runs && RecoveryDue(db, now, r)
                       :: O.Row(RecoveryTime(db, now, r), db.runs[r].queueSequence, r)))
  }

  /** Why a selected run is recovered; no reason means the selection contradicts the row. */
  function RecoveryKind(db: Db, now: Time, r: Id): Option<ControlKind>
    requires r in db.runs
  {
    var run, active := db.runs[r], ActiveOp(Ops(db, r));
    match run.state
    case Starting =>
      LeaseRecoveryKind(run, active, now)
    case Running =>
      LeaseRecoveryKind(run, active, now)
    case Cancelling =>
      if active.None? || now < active.value.expiresAt then None else Some(active.value.kind.Inherited())
    case _ => None
  }

  function LeaseRecoveryKind(run: Run, active: Option<Control>, now: Time): Option<ControlKind> {
    if active.Some? then None
    else if run.deadline.Some? && run.deadline.value <= now then Some(Recover(ExecutionTimedOut))
    else if run.lease.Some? && run.lease.value.expiresAt <= now then Some(Recover(LeaseExpired))
    else None
  }

  /** A run fenced by a control operation: no lease and no token any more. */
  function FencedRow(run: Run, now: Time): Run {
    run.(state := Cancelling, updatedAt := now, revision := run.revision + 1, lease := None, leaseHash := None,
         failure := None)
  }

  function NewControl(op: Id, kind: ControlKind, run: Run, leaseOwner: Id, expiresAt: Time, token: Token,
                      now: Time): Control {
    Control(op, kind, Active, run.generation, run.revision, run.controller, HashOf(token), leaseOwner, expiresAt, now,
            now, None)
  }

  function RecoverOne(db: Db, now: Time, r: Id, reconciler: Id, expiresAt: Time, op: Id,
                      token: Token): Outcome<RecoveryTicket> {
    if r !in db.runs then Rejected(NotFound)
    else
      var before, kind := db.runs[r], RecoveryKind(db, now, r);
      if kind.None? || kind.value.Cancel? then Rejected(CorruptData)
      else
        var next := FencedRow(before, now);
        var control := NewControl(op, kind.value, next, reconciler, expiresAt, token, now);
        var out := Advance(db, now, r, next, Push(control), Leave, RecoveryRequested);
        if out.Rejected? then Rejected(out.error)
        else
          Done(out.db, RecoveryTicket(op, next.worker, r, next.generation, next.revision, next.controller,
                                      kind.value.reason, reconciler, expiresAt, token))
  }

  function RecoverAll(db: Db, now: Time, ids: seq<Id>, reconciler: Id, expiresAt: Time,
                      seed: nat): Outcome<seq<RecoveryTicket>> {
    if ids == [] then Done(db, [])
    else
      var front := RecoverAll(db, now, ids[..|ids| - 1], reconciler, expiresAt, seed);
      if front.Rejected? then front
      else
        var n := seed + ids[|ids| - 1];
        var last := RecoverOne(front.db, now, ids[|ids| - 1], reconciler, expiresAt, n, Minted(n));
        if last.Rejected? then Rejected(last.error) else Done(last.db, front.value + [last.value])
  }

  function ClaimRecovery(db: Db, now: Time, reconciler: Id, seconds: nat, limit: nat,
                         seed: nat): Outcome<seq<RecoveryTicket>> {
    if !ValidLease(seconds) || !(1 <= limit <= MAX_PAGE_SIZE) then Rejected(InvalidInput)
    else RecoverAll(db, now, Page(RecoveryQueue(db, now), limit), reconciler, After(now, seconds), seed)
  }

  // --- Releasing workers -------------------------------------------------------------------------

  function ReleaseWorker(db: Db, now: Time, w: Id, expectedRevision: nat): Outcome<Worker> {
    if w !in db.workers then Rejected(NotFound)
    else
      var before := db.workers[w];
      if before.revision != expectedRevision then Rejected(Conflict)
      else if !before.lifecycle.Draining? then Rejected(InvalidTransition)
      else if exists r :: r in db.runs && db.runs[r].worker == w && !db.runs[r].state.Terminal()
          then Rejected(InvalidTransition)
      else if exists c :: c in db.workers && db.workers[c].parent == Some(w) && !db.workers[c].lifecycle.Released?
          then Rejected(InvalidInput)
      else
        var next := before.(lifecycle := Released, releasedAt := Some(now), updatedAt := now,
                            revision := before.revision + 1);
        if !ValidWorker(w, next) then Rejected(CorruptData)
        else Done(TouchWorker(db, now, w, next, WorkerReleased), next)
  }

  // --- Projection of the outbox ------------------------------------------------------------------

  predicate KnownEvent(db: Db, sequence: nat) {
    1 <= sequence <= |db.events|
  }

  function Later(a: Time, b: Time): Time {
    if a < b then b else a
  }

  function ProjectedAt(db: Db, now: Time, sequence: nat): Time
    requires KnownEvent(db, sequence)
  {
    Later(now, db.events[sequence - 1].occurredAt)
  }

  function MarkProjected(db: Db, now: Time, key: ProjectionKey): Outcome<()> {
    if !KnownEvent(db, key.sequence) then Rejected(NotFound)
    else
      Done(db.(progress := if key in db.progress then db.progress
               else db.progress[key := ProjectedAt(db, now, key.sequence)],
               dispositions := db.dispositions - {key}),
           ())
  }

  function DeferProjection(db: Db, now: Time, key: ProjectionKey, reason: DeferReason, delay: nat): Outcome<()> {
    if !(0 < delay <= MAX_PROJECTION_DEFER_MILLIS) then Rejected(InvalidInput)
    else if !KnownEvent(db, key.sequence) then Rejected(NotFound)
    else if key in db.progress then Done(db, ())
    else
      var recorded := ProjectedAt(db, now, key.sequence);
      var row :=
        if key !in db.dispositions then Deferred(reason, recorded + delay, recorded)
        else
          match db.dispositions[key]
          case Quarantined(_, _) => db.dispositions[key]
          case Deferred(_, notBefore, at) => Deferred(reason, Later(notBefore, recorded + delay), Later(at, recorded));
      Done(db.(dispositions := db.dispositions[key := row]), ())
  }

  function QuarantineProjection(db: Db, now: Time, key: ProjectionKey, reason: QuarantineReason): Outcome<()> {
    if !KnownEvent(db, key.sequence) then Rejected(NotFound)
    else if key in db.progress then Done(db, ())
    else
      var recorded := ProjectedAt(db, now, key.sequence);
      var row :=
        if key !in db.dispositions then Quarantined(reason, recorded)
        else
          match db.dispositions[key]
          case Quarantined(kept, at) => Quarantined(kept, Later(at, recorded))
          case Deferred(_, _, at) => Quarantined(reason, Later(at, recorded));
      Done(db.(dispositions := db.dispositions[key := row]), ())
  }
}
