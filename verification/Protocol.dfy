/**
 The store as a step system: every mutating method is one step, each step reads an
 arbitrary clock, and a rejected step leaves the tables alone.
 */
module Protocol {
  import opened AgentTypes
  import opened Tables
  import opened Operations
  import C = CancelTree
  import O = Ordering

  datatype Op =
    | OpCreateRoot(nw: NewWorker, nr: NewRun)
    | OpSpawnChild(parent: Id, expectedRevision: nat, nw: NewWorker, nr: NewRun)
    | OpEnqueueRun(nr: NewRun)
    | OpEnqueueResume(resume: ResumeRequest)
    | OpClaimDue(backend: Backend, leaseOwner: Id, seconds: nat, limit: nat, seed: nat)
    | OpStart(receipt: Receipt, controller: Controller)
    | OpHeartbeat(receipt: Receipt, seconds: nat)
    | OpRecordActivity(receipt: Receipt)
    | OpBindResume(receipt: Receipt, proof: SessionProof)
    | OpSettle(receipt: Receipt, settlement: Settlement)
    | OpPrepare(permit: ExecutionPermit, content: Content)
    | OpCommit(commit: CompletionPermit)
    | OpCommitRecovered(recovery: RecoveryTicket, completion: Id)
    | OpCancelTree(root: Id, request: CancelRequest, seed: nat)
    | OpSettleCancel(ticket: CancelTicket, outcome: CancelOutcome)
    | OpClaimRecovery(leaseOwner: Id, seconds: nat, limit: nat, seed: nat)
    | OpConfirmGone(recovery: RecoveryTicket)
    | OpRelease(worker: Id, expectedRevision: nat)
    | OpMarkProjected(key: ProjectionKey)
    | OpDefer(key: ProjectionKey, deferReason: DeferReason, delay: nat)
    | OpQuarantine(key: ProjectionKey, quarantineReason: QuarantineReason)

  function Forget<T>(out: Outcome<T>): Outcome<()> {
    if out.Rejected? then Rejected(out.error) else Done(out.db, ())
  }

  /** One transaction at operation time `now`; `q` is the next free queue sequence. */
  function Attempt(db: Db, now: Time, q: nat, op: Op): Outcome<()> {
    match op
    case OpCreateRoot(nw, nr) => Forget(CreateRoot(db, now, q, nw, nr))
    case OpSpawnChild(p, rev, nw, nr) => Forget(SpawnChild(db, now, q, p, rev, nw, nr))
    case OpEnqueueRun(nr) => Forget(EnqueueRun(db, now, q, nr))
    case OpEnqueueResume(req) => Forget(EnqueueResume(db, now, q, req))
    case OpClaimDue(b, o, s, n, seed) => Forget(ClaimDue(db, now, b, o, s, n, seed))
    case OpStart(rc, c) => Forget(Start(db, now, rc, c))
    case OpHeartbeat(rc, s) => Forget(Heartbeat(db, now, rc, s))
    case OpRecordActivity(rc) => Forget(RecordActivity(db, now, rc))
    case OpBindResume(rc, p) => Forget(BindResume(db, now, rc, p))
    case OpSettle(rc, s) => Forget(Settle(db, now, rc, s))
    case OpPrepare(p, c) => Forget(PrepareCompletion(db, now, p, c))
    case OpCommit(p) => Forget(CommitCompletion(db, now, p))
    case OpCommitRecovered(t, c) => Forget(CommitRecovered(db, now, t, c))
    case OpCancelTree(root, req, seed) => Forget(C.RequestCancelTree(db, now, root, req, seed))
    case OpSettleCancel(t, o) => Forget(SettleCancel(db, now, t, o))
    case OpClaimRecovery(o, s, n, seed) => Forget(ClaimRecovery(db, now, o, s, n, seed))
    case OpConfirmGone(t) => Forget(ConfirmGone(db, now, t))
    case OpRelease(w, rev) => Forget(ReleaseWorker(db, now, w, rev))
    case OpMarkProjected(k) => Forget(MarkProjected(db, now, k))
    case OpDefer(k, r, d) => Forget(DeferProjection(db, now, k, r, d))
    case OpQuarantine(k, r) => Forget(QuarantineProjection(db, now, k, r))
  }

  // --- All owners --------------------------------------------------------------------------------

  type Owner = Id

  /** Every table is keyed by owner; an owner that never wrote anything has empty tables. */
  type Store = map<Owner, Db>

  function Part(s: Store, o: Owner): Db {
    if o in s then s[o] else EMPTY
  }

  /** Queue positions are shared by all owners. */
  function QueueValues(s: Store): set<nat> {
    set o, r | o in s && r in s[o].runs :: s[o].runs[r].queueSequence
  }

  function NextQueue(s: Store): nat {
    O.MaxOf(QueueValues(s)) + 1
  }

  /** One call on the store; the clock may show anything. */
  datatype Call = Call(owner: Owner, clock: Time, op: Op)

  function Verdict(s: Store, call: Call): Outcome<()> {
    var db := Part(s, call.owner);
    Attempt(db, Now(db, call.clock), NextQueue(s), call.op)
  }

  function Step(s: Store, call: Call): Store {
    var out := Verdict(s, call);
    if out.Done? then s[call.owner := out.db] else s
  }

  function Play(s: Store, calls: seq<Call>): Store {
    if calls == [] then s else Step(Play(s, calls[..|calls| - 1]), calls[|calls| - 1])
  }
}
