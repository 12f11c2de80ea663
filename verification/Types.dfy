/**
 The records of the durable AgentRun store: workers, runs, control operations,
 completions, frozen cancel plans, outbox events and the capabilities handed to callers.

 Identifiers are opaque text in the program; only equality and one total order on
 them matter, so they are naturals here. Timestamps are integer milliseconds.
 */
module AgentTypes {

  type Id = nat
  type Time = int

  const MAX_TIMEOUT_SECONDS: nat := 7 * 24 * 60 * 60
  const MAX_RESUME_ATTEMPTS: nat := 100
  const MAX_LEASE_SECONDS: nat := 24 * 60 * 60
  const MAX_TOPOLOGY_NODES: nat := 256
  const MAX_TREE_CANCEL_RUNS: nat := 256
  const MAX_PAGE_SIZE: nat := 1000
  const MAX_PROJECTION_DEFER_MILLIS: nat := 24 * 60 * 60 * 1000

  datatype Option<+T> = None | Some(value: T)

  datatype Lifecycle = Open | Draining | Released {
    function Rank(): nat {
      match this
      case Open => 0
      case Draining => 1
      case Released => 2
    }
  }

  datatype RunState =
    | Queued | Starting | Running | Cancelling
    | Succeeded | Failed | TimedOut | Cancelled | Interrupted
  {
    predicate Terminal() {
      Succeeded? || Failed? || TimedOut? || Cancelled? || Interrupted?
    }

    predicate ControllerActive() {
      Starting? || Running? || Cancelling?
    }

    /** Position on the one-way road from the queue to a terminal state. */
    function Rank(): nat {
      match this
      case Queued => 0
      case Starting => 1
      case Running => 2
      case Cancelling => 3
      case _ => 4
    }
  }

  datatype FailureCode =
    | DispatchFailed | SpawnFailed | ControllerLost | HeartbeatStale | ActivityStalled
    | TransportInterrupted | ControlUnavailable | PolicyDenied | TimedOut | Cancelled | Internal
  {
    predicate ResumeEligible() {
      ControllerLost? || HeartbeatStale? || ActivityStalled? || TransportInterrupted?
    }
  }

  datatype ControllerKind = InProcess | Process | Remote

  datatype Backend = LegacyUnassigned | CliHarnessProcess | NativeInProcess | RemoteService {
    function Controller(): Option<ControllerKind> {
      match this
      case LegacyUnassigned => None
      case CliHarnessProcess => Some(Process)
      case NativeInProcess => Some(InProcess)
      case RemoteService => Some(Remote)
    }

    predicate Claimable() {
      !LegacyUnassigned?
    }
  }

  datatype Controller = Controller(kind: ControllerKind, id: Id, fingerprint: Option<Id>)

  /**
   Bearer secrets. Hashing and the completion-token derivation are collision
   free in the program's threat model, so both are free constructors here.
   */
  datatype Token = Minted(nonce: nat) | CompletionToken(lease: Token, run: Id, completion: Id)

  datatype Hash = HashOf(token: Token)

  datatype Lease = Lease(owner: Id, expiresAt: Time)

  // --- Workers -----------------------------------------------------------------------------------

  datatype NewWorker = NewWorker(id: Id, session: Option<Id>)

  datatype Worker = Worker(
    parent: Option<Id>,
    session: Option<Id>,
    lifecycle: Lifecycle,
    createdAt: Time,
    updatedAt: Time,
    releasedAt: Option<Time>,
    revision: nat)

  // --- Runs --------------------------------------------------------------------------------------

  /** The execution fields frozen when a run is queued. */
  datatype RunSpec = RunSpec(
    task: Option<Id>,
    trace: Option<Id>,
    parentRun: Option<Id>,
    backend: Backend,
    mode: Id,
    target: Id,
    prompt: Id,
    policy: Id,
    timeoutSeconds: nat,
    maxResumeAttempts: nat)
  {
    predicate Valid() {
      && backend.Claimable()
      && 0 < timeoutSeconds <= MAX_TIMEOUT_SECONDS
      && maxResumeAttempts <= MAX_RESUME_ATTEMPTS
    }
  }

  datatype NewRun = NewRun(id: Id, worker: Id, spec: RunSpec, availableAt: Time)

  datatype Run = Run(
    worker: Id,
    spec: RunSpec,
    resumeOf: Option<Id>,
    resumeAttempt: nat,
    binding: Option<Id>,
    availableAt: Time,
    queueSequence: nat,
    createdAt: Time,
    updatedAt: Time,
    startedAt: Option<Time>,
    finishedAt: Option<Time>,
    heartbeatAt: Option<Time>,
    activityAt: Option<Time>,
    state: RunState,
    revision: nat,
    generation: nat,
    deadline: Option<Time>,
    controller: Option<Controller>,
    lease: Option<Lease>,
    leaseHash: Option<Hash>,
    failure: Option<FailureCode>)
  {
    predicate ResumeEligible() {
      && state.Interrupted?
      && failure.Some? && failure.value.ResumeEligible()
      && resumeAttempt < spec.maxResumeAttempts
    }
  }

  datatype Receipt = Receipt(run: Id, worker: Id, generation: nat, revision: nat, leaseOwner: Id, token: Token)

  datatype ClaimedRun = ClaimedRun(run: Run, receipt: Receipt)

  datatype Settlement = SettleFailed(code: FailureCode) | SettleTimedOut | SettleInterrupted(code: FailureCode)

  /** An exact binding to one native session of one logical session. */
  datatype SessionProof = SessionProof(session: Id, binding: Id)

  datatype ResumeRequest = ResumeRequest(newRun: Id, source: Id, availableAt: Time, proof: SessionProof, policy: Id)

  // --- Execution and completion authority --------------------------------------------------------

  datatype ExecutionPermit = ExecutionPermit(
    run: Id, worker: Id, generation: nat, leaseOwner: Id, policy: Id, token: Token)

  datatype NativeScope = NativeScope(
    target: Id, prompt: Id, policy: Id, session: Option<Id>, binding: Option<Id>)

  datatype Content = Content(completion: Id, sink: Id, key: Id, digest: Id, bytes: nat)

  datatype CompletionStatus = Prepared | Committed | Abandoned

  datatype Completion = Completion(
    worker: Id,
    generation: nat,
    backend: Backend,
    content: Content,
    hash: Hash,
    status: CompletionStatus,
    preparedAt: Time,
    preparedRevision: nat,
    committedAt: Option<Time>,
    committedRevision: Option<nat>,
    abandonedAt: Option<Time>,
    abandonedRevision: Option<nat>,
    committedBy: Option<Id>,
    revision: nat)

  datatype CompletionPermit = CompletionPermit(run: Id, worker: Id, generation: nat, completion: Id, token: Token)

  // --- Control operations ------------------------------------------------------------------------

  datatype RecoveryReason = LeaseExpired | ExecutionTimedOut | CancellationAbandoned

  datatype ControlKind = Cancel | Recover(reason: RecoveryReason) {
    /** The kind a recovery takes over with once this operation's lease lapsed. */
    function Inherited(): ControlKind {
      if Cancel? then Recover(CancellationAbandoned) else this
    }
  }

  datatype ControlStatus = Active | Settled | Superseded

  datatype Control = Control(
    op: Id,
    kind: ControlKind,
    status: ControlStatus,
    generation: nat,
    revision: nat,
    controller: Option<Controller>,
    hash: Hash,
    leaseOwner: Id,
    expiresAt: Time,
    createdAt: Time,
    updatedAt: Time,
    settledAt: Option<Time>)

  datatype CancelTicket = CancelTicket(
    op: Id, worker: Id, run: Id, generation: nat, revision: nat,
    controller: Option<Controller>, leaseOwner: Id, expiresAt: Time, token: Token)

  datatype RecoveryTicket = RecoveryTicket(
    op: Id, worker: Id, run: Id, generation: nat, revision: nat,
    controller: Option<Controller>, reason: RecoveryReason, leaseOwner: Id, expiresAt: Time, token: Token)

  datatype CancelRequest = CancelRequest(op: Id, leaseOwner: Id, leaseSeconds: nat, retry: seq<CancelTicket>)

  datatype CancelOutcome = OutcomeCancelled | OutcomeUnavailable

  // --- Frozen cancel plans -----------------------------------------------------------------------

  datatype PlanAction = QueuedCancel | ControllerCancel

  datatype PlanEntry = PlanEntry(worker: Id, run: Id, action: PlanAction)

  datatype PlanDigest = PlanDigest(workers: seq<Id>, entries: seq<PlanEntry>)

  datatype Plan = Plan(
    root: Id,
    workers: seq<Id>,
    entries: seq<PlanEntry>,
    digest: PlanDigest,
    workerCount: nat,
    runCount: nat,
    leaseOwner: Id,
    leaseSeconds: nat,
    createdAt: Time)

  // --- Outbox ------------------------------------------------------------------------------------

  datatype EventKind =
    | WorkerCreated | ChildSpawned | RunQueued | RunClaimed | RunStarted | RunHeartbeat | RunActivity
    | ResumeBound | RecoveryRequested | RecoverySettled | RunSettled | CancelRequested | CancelSettled
    | WorkerReleased | ResumeQueued | CompletionPrepared | CompletionCommitted | CompletionAbandoned

  datatype RunMark = RunMark(run: Id, revision: nat, state: RunState)

  datatype Event = Event(
    sequence: nat,
    worker: Id,
    mark: Option<RunMark>,
    occurredAt: Time,
    kind: EventKind,
    workerRevision: nat,
    workerLifecycle: Lifecycle)

  datatype ProjectionKey = ProjectionKey(projector: Id, sequence: nat)

  datatype DeferReason = SinkUnavailable | MissingSink
  datatype QuarantineReason = InvalidEvent | SinkConflict

  datatype Disposition =
    | Deferred(deferReason: DeferReason, notBefore: Time, recordedAt: Time)
    | Quarantined(quarantineReason: QuarantineReason, recordedAt: Time)

  // --- Failures ----------------------------------------------------------------------------------

  datatype Error =
    | InvalidInput | NotFound | AlreadyExists | Conflict | InvalidTransition
    | InvalidReceipt | InvalidExecutionPermit | InvalidCompletionPermit | CompletionConflict
    | InvalidCancelTicket | InvalidRecoveryTicket | ControlBusy | ResumeRejected
    | CorruptData    // a stored row contradicts the store's own rules
    | Constraint     // a unique key of the schema refused the write
}
