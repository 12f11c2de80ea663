/** Every run of the store keeps the invariant and takes nothing back. */
module Reachable {
  import opened AgentTypes
  import opened Tables
  import opened Operations
  import opened Invariant
  import opened Progress
  import opened InvStep
  import opened RunOps
  import opened WorkerOps
  import opened TableOps
  import opened Claims
  import opened CancelPlans
  import opened Protocol
  import RS = RunStep
  import C = CancelTree
  import O = Ordering

  // --- One step of one owner ---------------------------------------------------------------------

  lemma ForgetIsGood<T>(db: Db, now: Time, out: Outcome<T>)
    requires Good(db, now, out)
    ensures Good(db, now, Forget(out))
  {
    hide Inv, Forward, Timely;
  }

  lemma QueueOpIsGood(db: Db, now: Time, q: nat, op: Op)
    requires op.OpCreateRoot? || op.OpSpawnChild? || op.OpEnqueueRun? || op.OpEnqueueResume?
    requires QueueFree(db.runs, q)
    requires Inv(db) && Timely(db, now)
    ensures Good(db, now, Attempt(db, now, q, op))
  {
    hide Inv, Forward, Timely, Good, CreateRoot, SpawnChild, EnqueueRun, EnqueueResume, Forget;
    match op
    case OpCreateRoot(nw, nr) =>
      CreateRootIsGood(db, now, q, nw, nr); ForgetIsGood(db, now, CreateRoot(db, now, q, nw, nr));
    case OpSpawnChild(p, rev, nw, nr) =>
      SpawnIsGood(db, now, q, p, rev, nw, nr); ForgetIsGood(db, now, SpawnChild(db, now, q, p, rev, nw, nr));
    case OpEnqueueRun(nr) => EnqueueIsGood(db, now, q, nr); ForgetIsGood(db, now, EnqueueRun(db, now, q, nr));
    case OpEnqueueResume(req) =>
      EnqueueResumeIsGood(db, now, q, req); ForgetIsGood(db, now, EnqueueResume(db, now, q, req));
  }

  lemma LeaseOpIsGood(db: Db, now: Time, q: nat, op: Op)
    requires op.OpStart? || op.OpHeartbeat? || op.OpRecordActivity? || op.OpBindResume? || op.OpSettle?
    requires Inv(db) && Timely(db, now)
    ensures Good(db, now, Attempt(db, now, q, op))
  {
    hide Inv, Forward, Timely, Good, Start, Heartbeat, RecordActivity, BindResume, Settle, Forget;
    match op
    case OpStart(rc, c) => StartIsGood(db, now, rc, c); ForgetIsGood(db, now, Start(db, now, rc, c));
    case OpHeartbeat(rc, s) => HeartbeatIsGood(db, now, rc, s); ForgetIsGood(db, now, Heartbeat(db, now, rc, s));
    case OpRecordActivity(rc) => ActivityIsGood(db, now, rc); ForgetIsGood(db, now, RecordActivity(db, now, rc));
    case OpBindResume(rc, p) => BindIsGood(db, now, rc, p); ForgetIsGood(db, now, BindResume(db, now, rc, p));
    case OpSettle(rc, s) => SettleIsGood(db, now, rc, s); ForgetIsGood(db, now, Settle(db, now, rc, s));
  }

  lemma CompletionOpIsGood(db: Db, now: Time, q: nat, op: Op)
    requires op.OpPrepare? || op.OpCommit? || op.OpCommitRecovered? || op.OpConfirmGone? || op.OpSettleCancel?
             || op.OpRelease?
    requires Inv(db) && Timely(db, now)
    ensures Good(db, now, Attempt(db, now, q, op))
  {
    hide Inv, Forward, Timely, Good, PrepareCompletion, CommitCompletion, CommitRecovered, ConfirmGone, SettleCancel,
         ReleaseWorker, Forget;
    match op
    case OpPrepare(p, c) => PrepareIsGood(db, now, p, c); ForgetIsGood(db, now, PrepareCompletion(db, now, p, c));
    case OpCommit(p) => CommitIsGood(db, now, p); ForgetIsGood(db, now, CommitCompletion(db, now, p));
    case OpCommitRecovered(t, c) =>
      CommitRecoveredIsGood(db, now, t, c); ForgetIsGood(db, now, CommitRecovered(db, now, t, c));
    case OpConfirmGone(t) => ConfirmIsGood(db, now, t); ForgetIsGood(db, now, ConfirmGone(db, now, t));
    case OpSettleCancel(t, o) => SettleCancelIsGood(db, now, t, o); ForgetIsGood(db, now, SettleCancel(db, now, t, o));
    case OpRelease(w, rev) => ReleaseIsGood(db, now, w, rev); ForgetIsGood(db, now, ReleaseWorker(db, now, w, rev));
  }

  lemma PageOpIsGood(db: Db, now: Time, q: nat, op: Op)
    requires op.OpClaimDue? || op.OpClaimRecovery? || op.OpCancelTree? || op.OpMarkProjected? || op.OpDefer?
             || op.OpQuarantine?
    requires Inv(db) && Timely(db, now)
    ensures Good(db, now, Attempt(db, now, q, op))
  {
    hide Inv, Forward, Timely, Good, ClaimDue, ClaimRecovery, C.RequestCancelTree, MarkProjected, DeferProjection,
         QuarantineProjection, Forget,
         PageRecovered, OpsUnused;
    match op
    case OpClaimDue(b, o, s, n, seed) =>
      ClaimDueIsGood(db, now, b, o, s, n, seed); ForgetIsGood(db, now, ClaimDue(db, now, b, o, s, n, seed));
    case OpClaimRecovery(o, s, n, seed) =>
      ClaimRecoveryIsGood(db, now, o, s, n, seed); ForgetIsGood(db, now, ClaimRecovery(db, now, o, s, n, seed));
    case OpCancelTree(root, req, seed) =>
      CancelTreeIsGood(db, now, root, req, seed); ForgetIsGood(db, now, C.RequestCancelTree(db, now, root, req, seed));
    case OpMarkProjected(k) => MarkIsGood(db, now, k); ForgetIsGood(db, now, MarkProjected(db, now, k));
    case OpDefer(k, r, d) => DeferIsGood(db, now, k, r, d); ForgetIsGood(db, now, DeferProjection(db, now, k, r, d));
    case OpQuarantine(k, r) =>
      QuarantineIsGood(db, now, k, r); ForgetIsGood(db, now, QuarantineProjection(db, now, k, r));
  }

  /** Every operation keeps the invariant, takes nothing back and never reports corrupt data. */
  lemma AttemptIsGood(db: Db, now: Time, q: nat, op: Op)
    requires QueueFree(db.runs, q)
    requires Inv(db) && Timely(db, now)
    ensures Good(db, now, Attempt(db, now, q, op))
  {
    hide Inv, Attempt, Good, Timely, QueueFree;
    if op.OpCreateRoot? || op.OpSpawnChild? || op.OpEnqueueRun? || op.OpEnqueueResume? {
      QueueOpIsGood(db, now, q, op);
    } else if op.OpStart? || op.OpHeartbeat? || op.OpRecordActivity? || op.OpBindResume? || op.OpSettle? {
      LeaseOpIsGood(db, now, q, op);
    } else if op.OpPrepare? || op.OpCommit? || op.OpCommitRecovered? || op.OpConfirmGone? || op.OpSettleCancel?
        || op.OpRelease? {
      CompletionOpIsGood(db, now, q, op);
    } else {
      PageOpIsGood(db, now, q, op);
    }
  }

  // --- Which runs a step adds --------------------------------------------------------------------

  ghost predicate SameKeys<T>(db: Db, out: Outcome<T>) {
    out.Done? ==> out.db.runs.Keys == db.runs.Keys
  }

  /** A step adds runs only at the next free queue position. */
  ghost predicate NewRunsAt<T>(db: Db, q: nat, out: Outcome<T>) {
    out.Done? ==> forall r :: r in out.db.runs && r !in db.runs ==> out.db.runs[r].queueSequence == q
  }

  lemma AdvanceKeys(db: Db, now: Time, r: Id, next: Run, control: ControlChange, completion: CompletionChange,
                    kind: EventKind)
    requires r in db.runs
    ensures SameKeys(db, Advance(db, now, r, next, control, completion, kind))
  {
    hide ValidRun, ValidCompletion, SameIdentity, NextControls, KnownOp;
    if Advance(db, now, r, next, control, completion, kind).Done? {
      RS.AdvanceWrites(db, now, r, next, control, completion, kind);
    }
  }

  lemma {:induction false} ClaimKeys(db: Db, now: Time, ids: seq<Id>, lease: Lease, seed: nat)
    ensures SameKeys(db, ClaimAll(db, now, ids, lease, seed))
  {
    hide Advance;
    if ids == [] {
    } else {
      ClaimKeys(db, now, ids[..|ids| - 1], lease, seed);
      var mid, r := ClaimAll(db, now, ids[..|ids| - 1], lease, seed), ids[|ids| - 1];
      if mid.Done? && r in mid.db.runs {
        var next := ClaimedRow(mid.db.runs[r], NextGeneration(mid.db, mid.db.runs[r].worker), now, lease,
                               Minted(seed + r));
        AdvanceKeys(mid.db, now, r, next, Keep, Leave, RunClaimed);
      }
    }
  }

  lemma {:induction false} RecoverKeys(db: Db, now: Time, ids: seq<Id>, reconciler: Id, expiresAt: Time, seed: nat)
    ensures SameKeys(db, RecoverAll(db, now, ids, reconciler, expiresAt, seed))
  {
    hide Advance, RecoveryKind;
    if ids == [] {
    } else {
      RecoverKeys(db, now, ids[..|ids| - 1], reconciler, expiresAt, seed);
      var mid, r := RecoverAll(db, now, ids[..|ids| - 1], reconciler, expiresAt, seed), ids[|ids| - 1];
      if mid.Done? && r in mid.db.runs && RecoveryKind(mid.db, now, r).Some? {
        var next := FencedRow(mid.db.runs[r], now);
        var control := NewControl(seed + r, RecoveryKind(mid.db, now, r).value, next, reconciler, expiresAt,
                                  Minted(seed + r), now);
        AdvanceKeys(mid.db, now, r, next, Push(control), Leave, RecoveryRequested);
      }
    }
  }

  lemma CancelRunKeys(db: Db, now: Time, r: Id, req: CancelRequest, expiresAt: Time, seed: nat)
    ensures SameKeys(db, C.CancelRun(db, now, r, req, expiresAt, seed))
  {
    hide Advance, ActiveOp, CancelMatches;
    if r in db.runs {
      AdvanceKeys(db, now, r, EndedRow(db.runs[r], RunState.Cancelled, Some(FailureCode.Cancelled), now), Keep, Leave,
                  CancelSettled);
      var next := FencedRow(db.runs[r], now);
      AdvanceKeys(db, now, r, next,
                  Push(NewControl(req.op, Cancel, next, req.leaseOwner, expiresAt, Minted(seed + r), now)), Leave,
                      CancelRequested);
    }
  }

  lemma {:induction false} CancelRunsKeys(db: Db, now: Time, rs: seq<Id>, req: CancelRequest, expiresAt: Time,
                                          seed: nat)
    ensures SameKeys(db, C.CancelRuns(db, now, rs, req, expiresAt, seed))
  {
    hide C.CancelRun;
    if rs == [] {
    } else {
      CancelRunsKeys(db, now, rs[..|rs| - 1], req, expiresAt, seed);
      var mid := C.CancelRuns(db, now, rs[..|rs| - 1], req, expiresAt, seed);
      if mid.Done? { CancelRunKeys(mid.db, now, rs[|rs| - 1], req, expiresAt, seed); }
    }
  }

  lemma {:induction false} CancelWorkersKeys(db: Db, now: Time, ws: seq<Id>, req: CancelRequest, expiresAt: Time,
                                             seed: nat)
    ensures SameKeys(db, C.CancelWorkers(db, now, ws, req, expiresAt, seed))
  {
    hide C.CancelRuns, C.Pending;
    if ws == [] {
    } else {
      CancelWorkersKeys(db, now, ws[..|ws| - 1], req, expiresAt, seed);
      var mid, w := C.CancelWorkers(db, now, ws[..|ws| - 1], req, expiresAt, seed), ws[|ws| - 1];
      if mid.Done? && w in mid.db.workers {
        CancelRunsKeys(mid.db, now, C.Pending(mid.db, w), req, expiresAt, seed);
        var drained := mid.db.(workers := mid.db.workers[w := C.DrainedRow(mid.db.workers[w], now)]);
        CancelRunsKeys(drained, now, C.Pending(mid.db, w), req, expiresAt, seed);
      }
    }
  }

  lemma QueueOpAdds(db: Db, now: Time, q: nat, op: Op)
    requires op.OpCreateRoot? || op.OpSpawnChild? || op.OpEnqueueRun? || op.OpEnqueueResume?
    ensures NewRunsAt(db, q, Attempt(db, now, q, op))
  {
    hide ValidRun;
  }

  lemma AnyAdvanceKeys(db: Db, now: Time, r: Id)
    requires r in db.runs
    ensures forall next, control, completion, kind :: SameKeys(db, Advance(db, now, r, next, control, completion, kind))
  {
    hide Advance, SameKeys;
    forall next, control, completion, kind ensures SameKeys(db, Advance(db, now, r, next, control, completion, kind)) {
      AdvanceKeys(db, now, r, next, control, completion, kind);
    }
  }

  lemma LeaseOpKeys(db: Db, now: Time, q: nat, op: Op)
    requires op.OpStart? || op.OpHeartbeat? || op.OpRecordActivity? || op.OpBindResume? || op.OpSettle?
    ensures SameKeys(db, Attempt(db, now, q, op))
  {
    hide Advance, ReceiptMatches;
    var r := match op
      case OpStart(rc, _) => rc.run
      case OpHeartbeat(rc, _) => rc.run
      case OpRecordActivity(rc) => rc.run
      case OpBindResume(rc, _) => rc.run
      case OpSettle(rc, _) => rc.run;
    if r in db.runs { AnyAdvanceKeys(db, now, r); }
  }

  lemma ControlOpKeys(db: Db, now: Time, q: nat, op: Op)
    requires op.OpCommit? || op.OpCommitRecovered? || op.OpConfirmGone? || op.OpSettleCancel?
    ensures SameKeys(db, Attempt(db, now, q, op))
  {
    hide Advance, PermitOwns, MayCommitLive, SettledRecovery, RecoveryTicketLive, CancelTicketLive;
    var r := match op
      case OpCommit(p) => p.run
      case OpCommitRecovered(t, _) => t.run
      case OpConfirmGone(t) => t.run
      case OpSettleCancel(t, _) => t.run;
    if r in db.runs { AnyAdvanceKeys(db, now, r); }
  }

  lemma OtherOpKeys(db: Db, now: Time, q: nat, op: Op)
    requires op.OpPrepare? || op.OpRelease? || op.OpMarkProjected? || op.OpDefer? || op.OpQuarantine?
    ensures SameKeys(db, Attempt(db, now, q, op))
  {
    hide PermitHolds, Occupied, ValidCompletion, ValidWorker;
  }

  lemma PageOpKeys(db: Db, now: Time, q: nat, op: Op)
    requires op.OpClaimDue? || op.OpClaimRecovery? || op.OpCancelTree?
    ensures SameKeys(db, Attempt(db, now, q, op))
  {
    hide ClaimAll, ClaimQueue, RecoverAll, RecoveryQueue, C.CancelWorkers, C.RequestError, C.Order, C.Entries;
    match op
    case OpClaimDue(b, o, s, n, seed) =>
      ClaimKeys(db, now, Page(ClaimQueue(db, now, b), n), Lease(o, After(now, s)), seed);
    case OpClaimRecovery(o, s, n, seed) =>
      RecoverKeys(db, now, Page(RecoveryQueue(db, now), n), o, After(now, s), seed);
    case OpCancelTree(root, req, seed) =>
      CancelWorkersKeys(db, now, C.Order(db, root), req, After(now, req.leaseSeconds), seed);
  }

  lemma AttemptAdds(db: Db, now: Time, q: nat, op: Op)
    ensures NewRunsAt(db, q, Attempt(db, now, q, op))
  {
    hide Attempt;
    if op.OpCreateRoot? || op.OpSpawnChild? || op.OpEnqueueRun? || op.OpEnqueueResume? {
      QueueOpAdds(db, now, q, op);
    } else if op.OpStart? || op.OpHeartbeat? || op.OpRecordActivity? || op.OpBindResume? || op.OpSettle? {
      LeaseOpKeys(db, now, q, op);
    } else if op.OpCommit? || op.OpCommitRecovered? || op.OpConfirmGone? || op.OpSettleCancel? {
      ControlOpKeys(db, now, q, op);
    } else if op.OpPrepare? || op.OpRelease? || op.OpMarkProjected? || op.OpDefer? || op.OpQuarantine? {
      OtherOpKeys(db, now, q, op);
    } else {
      PageOpKeys(db, now, q, op);
    }
  }

  // --- Every run of the store --------------------------------------------------------------------

  ghost predicate QueuesApart(s: Store) {
    forall o, r, o', r' :: o in s && r in s[o].runs && o' in s && r' in s[o'].runs && (o != o' || r != r') ==>
                             s[o].runs[r].queueSequence != s[o'].runs[r'].queueSequence
  }

  ghost predicate QueuesFilled(s: Store) {
    forall o, r :: o in s && r in s[o].runs ==>
                     1 <= s[o].runs[r].queueSequence && forall q :: 1 <= q < s[o].runs[r].queueSequence ==>
                       q in QueueValues(s)
  }

  /** Queue positions are handed out once, from one, without gaps, across all owners. */
  ghost predicate QueueDense(s: Store) {
    QueuesApart(s) && QueuesFilled(s)
  }

  ghost predicate StoreInv(s: Store) {
    (forall o :: o in s ==> Inv(s[o])) && QueueDense(s)
  }

  lemma NextQueueFree(s: Store, o: Owner)
    ensures QueueFree(Part(s, o).runs, NextQueue(s))
  {
    forall r | r in Part(s, o).runs ensures Part(s, o).runs[r].queueSequence != NextQueue(s) {
      assert Part(s, o).runs[r].queueSequence in QueueValues(s);
    }
  }

  lemma NowIsTimely(db: Db, clock: Time)
    ensures Timely(db, Now(db, clock))
  { }

  /** The values after one owner's tables moved forward with new runs only at the next position. */
  lemma ValuesGrow(s: Store, o: Owner, db': Db)
    requires NewRunsAt(Part(s, o), NextQueue(s), Done(db', ())) && RunsForward(Part(s, o), db')
    ensures QueueValues(s) <= QueueValues(s[o := db']) <= QueueValues(s) + {NextQueue(s)}
  {
    hide NextQueue, RunEntryForward;
    var s' := s[o := db'];
    forall v | v in QueueValues(s) ensures v in QueueValues(s') {
      var o1, r1 :| o1 in s && r1 in s[o1].runs && s[o1].runs[r1].queueSequence == v;
      assert o1 in s' && r1 in s'[o1].runs;
      if o1 == o { SameQueue(Part(s, o), db', r1); }
    }
    forall v | v in QueueValues(s') ensures v in QueueValues(s) + {NextQueue(s)} {
      var o1, r1 :| o1 in s' && r1 in s'[o1].runs && s'[o1].runs[r1].queueSequence == v;
      if o1 == o && r1 in Part(s, o).runs { SameQueue(Part(s, o), db', r1); }
    }
  }

  lemma SameQueue(db: Db, db': Db, r: Id)
    requires r in db.runs && RunsForward(db, db')
    ensures r in db'.runs && db'.runs[r].queueSequence == db.runs[r].queueSequence
  {
    assert RunEntryForward(db, db', r);
  }

  /** Where a queue value of the new store comes from. */
  lemma QueueOrigin(s: Store, o: Owner, db': Db, o1: Owner, r1: Id)
    requires NewRunsAt(Part(s, o), NextQueue(s), Done(db', ())) && RunsForward(Part(s, o), db')
    requires o1 in s[o := db'] && r1 in s[o := db'][o1].runs
    ensures if o1 in s && r1 in s[o1].runs then s[o := db'][o1].runs[r1].queueSequence == s[o1].runs[r1].queueSequence
            else o1 == o && s[o := db'][o1].runs[r1].queueSequence == NextQueue(s)
  {
    hide NextQueue, RunEntryForward;
    if o1 == o && o in s && r1 in s[o].runs { SameQueue(s[o], db', r1); }
  }

  lemma QueuesStayApart(s: Store, o: Owner, db': Db)
    requires QueuesApart(s) && QueueDistinct(db'.runs)
    requires NewRunsAt(Part(s, o), NextQueue(s), Done(db', ())) && RunsForward(Part(s, o), db')
    ensures QueuesApart(s[o := db'])
  {
    hide RunsForward, NewRunsAt, NextQueue, QueueValues;
    var s' := s[o := db'];
    forall o1, r1, o2, r2 | o1 in s' && r1 in s'[o1].runs && o2 in s' && r2 in s'[o2].runs && (o1 != o2 || r1 != r2)
      ensures s'[o1].runs[r1].queueSequence != s'[o2].runs[r2].queueSequence
    {
      QueueOrigin(s, o, db', o1, r1);
      QueueOrigin(s, o, db', o2, r2);
      if o1 in s && r1 in s[o1].runs { OldBelowNext(s, o1, r1); }
      if o2 in s && r2 in s[o2].runs { OldBelowNext(s, o2, r2); }
    }
  }

  lemma OldBelowNext(s: Store, o: Owner, r: Id)
    requires o in s && r in s[o].runs
    ensures s[o].runs[r].queueSequence < NextQueue(s)
  {
    assert s[o].runs[r].queueSequence in QueueValues(s);
  }

  lemma QueuesStayFilled(s: Store, o: Owner, db': Db)
    requires QueuesFilled(s)
    requires NewRunsAt(Part(s, o), NextQueue(s), Done(db', ())) && RunsForward(Part(s, o), db')
    ensures QueuesFilled(s[o := db'])
  {
    hide RunsForward, NewRunsAt, QueueValues;
    var s' := s[o := db'];
    ValuesGrow(s, o, db');
    forall o1, r1 | o1 in s' && r1 in s'[o1].runs
      ensures 1 <= s'[o1].runs[r1].queueSequence
      ensures forall q :: 1 <= q < s'[o1].runs[r1].queueSequence ==> q in QueueValues(s')
    {
      QueueOrigin(s, o, db', o1, r1);
      forall q | 1 <= q < s'[o1].runs[r1].queueSequence ensures q in QueueValues(s') {
        if !(o1 in s && r1 in s[o1].runs) { BelowNext(s, q); }
      }
    }
  }

  lemma QueueStaysDense(s: Store, o: Owner, db': Db)
    requires QueueDense(s) && QueueDistinct(db'.runs)
    requires NewRunsAt(Part(s, o), NextQueue(s), Done(db', ())) && RunsForward(Part(s, o), db')
    ensures QueueDense(s[o := db'])
  {
    hide RunsForward, NewRunsAt, QueuesApart, QueuesFilled, QueueDistinct, NextQueue;
    QueuesStayApart(s, o, db');
    QueuesStayFilled(s, o, db');
  }

  /** Every position below the next one is taken. */
  lemma BelowNext(s: Store, q: nat)
    requires QueuesFilled(s) && 1 <= q < NextQueue(s)
    ensures q in QueueValues(s)
  {
    var m := O.MaxOf(QueueValues(s));
    if q != m {
      var o, r :| o in s && r in s[o].runs && s[o].runs[r].queueSequence == m;
    }
  }

  lemma PartInv(s: Store, o: Owner)
    requires StoreInv(s)
    ensures Inv(Part(s, o))
  {
    hide Inv;
    EmptyIsOk();
  }

  lemma QueueOf(db: Db)
    requires Inv(db)
    ensures QueueDistinct(db.runs)
  {
    hide RunsOk, PublicationsDistinct, EventsOk, RetiredOk, PlansOk, ProjectionOk, ForestOk, WorkerTimesOk, KeysOk;
  }

  /** What one call did to one owner: a committed step of that owner, or nothing. */
  lemma StepIsGoodFor(s: Store, call: Call)
    requires StoreInv(s)
    ensures var db := Part(s, call.owner); Good(db, Now(db, call.clock), Verdict(s, call))
  {
    hide Inv, Attempt, NextQueue, QueueDense;
    PartInv(s, call.owner);
    var db := Part(s, call.owner);
    NowIsTimely(db, call.clock);
    NextQueueFree(s, call.owner);
    AttemptIsGood(db, Now(db, call.clock), NextQueue(s), call.op);
  }

  lemma StepKeeps(s: Store, call: Call)
    requires StoreInv(s)
    ensures StoreInv(Step(s, call))
    ensures forall o :: Forward(Part(s, o), Part(Step(s, call), o))
  {
    hide Inv, Attempt, NextQueue, QueueDense, WorkersForward, RunsForward, PlansForward, EventsForward, Timely;
    StepIsGoodFor(s, call);
    var db, out := Part(s, call.owner), Verdict(s, call);
    if out.Done? {
      AttemptAdds(db, Now(db, call.clock), NextQueue(s), call.op);
      QueueOf(out.db);
      AddsDone(db, NextQueue(s), out);
      QueueStaysDense(s, call.owner, out.db);
    }
    forall o ensures Forward(Part(s, o), Part(Step(s, call), o)) {
      if o != call.owner || out.Rejected? { ForwardReflexive(Part(s, o)); }
    }
  }

  lemma AddsDone(db: Db, q: nat, out: Outcome<()>)
    requires out.Done? && NewRunsAt(db, q, out)
    ensures NewRunsAt(db, q, Done(out.db, ()))
  { }

  /** From any good store, under any calls and any clocks: good again, and nothing is taken back. */
  lemma {:induction false} PlayKeeps(s: Store, calls: seq<Call>)
    requires StoreInv(s)
    ensures StoreInv(Play(s, calls))
    ensures forall o :: Forward(Part(s, o), Part(Play(s, calls), o))
  {
    hide StoreInv, Forward, Step, Part;
    if calls == [] {
      forall o ensures Forward(Part(s, o), Part(s, o)) { ForwardReflexive(Part(s, o)); }
    } else {
      var front, call := calls[..|calls| - 1], calls[|calls| - 1];
      PlayKeeps(s, front);
      StepKeeps(Play(s, front), call);
      forall o ensures Forward(Part(s, o), Part(Play(s, calls), o)) {
        ForwardTrans(Part(s, o), Part(Play(s, front), o), Part(Play(s, calls), o));
      }
    }
  }

  lemma EmptyStoreOk()
    ensures StoreInv(map[])
  { }
}
