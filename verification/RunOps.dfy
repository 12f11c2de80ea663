/** The store methods that step a single run: each is lawful wherever its guard lets it through. */
module RunOps {
  import opened AgentTypes
  import opened Tables
  import opened Operations
  import opened Invariant
  import opened Progress
  import opened RunStep
  import opened CoreStep
  import opened InvStep

  // --- Shared facts ------------------------------------------------------------------------------

  /** A run that is queued or holds a lease belongs to an open worker. */
  lemma WorkerIsOpen(db: Db, r: Id)
    requires Core(db, {}) && r in db.runs
    requires db.runs[r].state.Queued? || db.runs[r].state.Starting? || db.runs[r].state.Running?
    ensures db.runs[r].worker in db.workers && db.workers[db.runs[r].worker].lifecycle.Open?
  {
    hide RunsOk, CrossOk, ForestOk, EventsOk, WorkerTimesOk, PublicationsDistinct;
  }

  lemma LeaseStepFits(db: Db, now: Time, r: Id, next: Run)
    requires Inv(db) && r in db.runs && (db.runs[r].state.Starting? || db.runs[r].state.Running?)
    requires next.generation == db.runs[r].generation && next.worker == db.runs[r].worker
    ensures Fitting(db, {}, now, r, next, Keep)
  {
    hide Core, PlansOk, ProjectionOk;
    WorkerIsOpen(db, r);
  }

  lemma EndStepFits(db: Db, now: Time, r: Id, next: Run, control: ControlChange)
    requires Inv(db) && r in db.runs && next.state.Terminal()
    requires next.generation == db.runs[r].generation && next.worker == db.runs[r].worker
    ensures Fitting(db, {}, now, r, next, control)
  {
    hide RunsOk, CrossOk, ForestOk, EventsOk, WorkerTimesOk, PublicationsDistinct, RetiredOk, PlansOk, ProjectionOk;
  }

  /** What a run's own part of the invariant says, with the operation time. */
  lemma RunFacts(db: Db, now: Time, r: Id)
    requires Inv(db) && Timely(db, now) && r in db.runs
    ensures RowOk(db.runs[r]) && ControlsOk(db.runs[r], Ops(db, r)) && db.runs[r].updatedAt <= now
    ensures r in db.completions ==> StatusFits(db.runs[r].state, db.completions[r].status)
    ensures db.runs[r].worker in db.workers
  {
    CoreParts(db, r);
    hide Core, PlansOk, ProjectionOk, Select, HistoryOk, ControlsOk, RowOk, EventsOk;
    RunIsPast(db, r, now);
  }

  // --- Receipts ----------------------------------------------------------------------------------

  lemma StartLawful(run: Run, ops: seq<Control>, c: Option<Completion>, now: Time, receipt: Receipt,
                    controller: Controller)
    requires RowOk(run) && run.state.Starting? && ReceiptMatches(run, now, receipt) && run.updatedAt <= now
    requires run.spec.backend.Controller() == Some(controller.kind) && c.None?
    ensures Lawful(run, StartedRow(run, controller, now), ops, c, Keep, Leave, RunStarted, now)
  { }

  lemma StartIsGood(db: Db, now: Time, receipt: Receipt, controller: Controller)
    requires Inv(db) && Timely(db, now)
    ensures Good(db, now, Start(db, now, receipt, controller))
  {
    hide Inv, Lawful, Fitting, Forward, Advance, RowOk, ControlsOk;
    if ReceiptError(db, now, receipt, {Starting}).None? {
      var r := receipt.run;
      RunFacts(db, now, r);
      if db.runs[r].spec.backend.Controller() == Some(controller.kind) {
        var next := StartedRow(db.runs[r], controller, now);
        StartLawful(db.runs[r], Ops(db, r), CompletionOf(db, r), now, receipt, controller);
        LeaseStepFits(db, now, r, next);
        StepIsGood(db, now, r, next, Keep, Leave, RunStarted);
      }
    }
  }

  lemma HeartbeatLawful(run: Run, ops: seq<Control>, c: Option<Completion>, now: Time, receipt: Receipt, seconds: nat)
    requires RowOk(run) && run.state.Running? && ReceiptMatches(run, now, receipt) && run.updatedAt <= now
    ensures Lawful(run, RenewedRow(run, receipt.leaseOwner, seconds, now), ops, c, Keep, Leave, RunHeartbeat, now)
  { }

  lemma HeartbeatIsGood(db: Db, now: Time, receipt: Receipt, seconds: nat)
    requires Inv(db) && Timely(db, now)
    ensures Good(db, now, Heartbeat(db, now, receipt, seconds))
  {
    hide Inv, Lawful, Fitting, Forward, Advance, RowOk, ControlsOk;
    if ValidLease(seconds) && ReceiptError(db, now, receipt, {Running}).None? {
      var r := receipt.run;
      RunFacts(db, now, r);
      var next := RenewedRow(db.runs[r], receipt.leaseOwner, seconds, now);
      HeartbeatLawful(db.runs[r], Ops(db, r), CompletionOf(db, r), now, receipt, seconds);
      LeaseStepFits(db, now, r, next);
      StepIsGood(db, now, r, next, Keep, Leave, RunHeartbeat);
    }
  }

  lemma ActivityLawful(run: Run, ops: seq<Control>, now: Time, receipt: Receipt)
    requires RowOk(run) && run.state.Running? && ReceiptMatches(run, now, receipt) && run.updatedAt <= now
    ensures Lawful(run, ActiveRow(run, now), ops, None, Keep, Leave, RunActivity, now)
  { }

  lemma ActivityIsGood(db: Db, now: Time, receipt: Receipt)
    requires Inv(db) && Timely(db, now)
    ensures Good(db, now, RecordActivity(db, now, receipt))
  {
    hide Inv, Lawful, Fitting, Forward, Advance, RowOk, ControlsOk;
    if ReceiptError(db, now, receipt, {Running}).None? && receipt.run !in db.completions {
      var r := receipt.run;
      RunFacts(db, now, r);
      ActivityLawful(db.runs[r], Ops(db, r), now, receipt);
      LeaseStepFits(db, now, r, ActiveRow(db.runs[r], now));
      StepIsGood(db, now, r, ActiveRow(db.runs[r], now), Keep, Leave, RunActivity);
    }
  }

  lemma BindLawful(run: Run, ops: seq<Control>, now: Time, receipt: Receipt, binding: Id)
    requires RowOk(run) && run.state.Running? && ReceiptMatches(run, now, receipt) && run.updatedAt <= now
             && run.binding.None?
    ensures Lawful(run, BoundRow(run, binding, now), ops, None, Keep, Leave, ResumeBound, now)
  { }

  lemma UnchangedIsGood<T>(db: Db, now: Time, value: T)
    requires Inv(db) && Timely(db, now)
    ensures Good(db, now, Done(db, value))
  {
    ForwardReflexive(db);
  }

  lemma BindIsGood(db: Db, now: Time, receipt: Receipt, proof: SessionProof)
    requires Inv(db) && Timely(db, now)
    ensures Good(db, now, BindResume(db, now, receipt, proof))
  {
    hide Inv, Lawful, Fitting, Forward, Advance, RowOk, ControlsOk;
    if ReceiptError(db, now, receipt, {Running}).None? && receipt.run !in db.completions {
      var r := receipt.run;
      RunFacts(db, now, r);
      UnchangedIsGood(db, now, ClaimedRun(db.runs[r], receipt));
      if db.runs[r].binding.None? {
        BindLawful(db.runs[r], Ops(db, r), now, receipt, proof.binding);
        LeaseStepFits(db, now, r, BoundRow(db.runs[r], proof.binding, now));
        StepIsGood(db, now, r, BoundRow(db.runs[r], proof.binding, now), Keep, Leave, ResumeBound);
      }
    }
  }

  lemma SettleLawful(run: Run, ops: seq<Control>, c: Option<Completion>, now: Time, receipt: Receipt,
                     settlement: Settlement)
    requires RowOk(run) && (run.state.Starting? || run.state.Running?) && ReceiptMatches(run, now, receipt)
             && run.updatedAt <= now
    requires SettlementParts(settlement).Some?
    ensures var parts := SettlementParts(settlement).value;
            Lawful(run, EndedRow(run, parts.0, Some(parts.1), now), ops, c, Keep, Abandon, RunSettled, now)
  { }

  lemma SettleIsGood(db: Db, now: Time, receipt: Receipt, settlement: Settlement)
    requires Inv(db) && Timely(db, now)
    ensures Good(db, now, Settle(db, now, receipt, settlement))
  {
    hide Inv, Lawful, Fitting, Forward, Advance, RowOk, ControlsOk;
    var parts := SettlementParts(settlement);
    if parts.Some? && ReceiptError(db, now, receipt, {Starting, Running}).None? {
      var r := receipt.run;
      RunFacts(db, now, r);
      var next := EndedRow(db.runs[r], parts.value.0, Some(parts.value.1), now);
      SettleLawful(db.runs[r], Ops(db, r), CompletionOf(db, r), now, receipt, settlement);
      EndStepFits(db, now, r, next, Keep);
      StepIsGood(db, now, r, next, Keep, Abandon, RunSettled);
    }
  }

  // --- Completions -------------------------------------------------------------------------------

  lemma CommitLawful(run: Run, ops: seq<Control>, c: Option<Completion>, now: Time)
    requires RowOk(run) && run.state.Running? && run.updatedAt <= now && c.Some?
    ensures Lawful(run, EndedRow(run, Succeeded, run.failure, now), ops, c, Keep, Commit(None), CompletionCommitted,
                   now)
  { }

  lemma CommitIsGood(db: Db, now: Time, permit: CompletionPermit)
    requires Inv(db) && Timely(db, now)
    ensures Good(db, now, CommitCompletion(db, now, permit))
  {
    hide Inv, Lawful, Fitting, Forward, Advance, RowOk, ControlsOk;
    var r := permit.run;
    if r in db.completions && PermitOwns(db.completions[r], permit) && r in db.runs {
      RunFacts(db, now, r);
      UnchangedIsGood(db, now, (db.runs[r], db.completions[r]));
      if MayCommitLive(db, now, r) {
        var next := EndedRow(db.runs[r], Succeeded, db.runs[r].failure, now);
        CommitLawful(db.runs[r], Ops(db, r), CompletionOf(db, r), now);
        EndStepFits(db, now, r, next, Keep);
        StepIsGood(db, now, r, next, Keep, Commit(None), CompletionCommitted);
        AdvanceWrites(db, now, r, next, Keep, Commit(None), CompletionCommitted);
        assert CompletionOf(Advance(db, now, r, next, Keep, Commit(None), CompletionCommitted).db, r).Some?;
      }
    }
  }

  // --- Control tickets ---------------------------------------------------------------------------

  /** A live ticket speaks for the last control operation of its run. */
  lemma LiveIsLast(run: Run, ops: seq<Control>)
    requires ControlsOk(run, ops) && ActiveOp(ops).Some?
    ensures run.state.Cancelling? && ops != [] && ActiveOp(ops) == Some(Last(ops))
  {
    LastActive(run, ops);
  }

  lemma FinishLawful(run: Run, ops: seq<Control>, c: Option<Completion>, now: Time, state: RunState,
                     code: FailureCode, kind: EventKind)
    requires RowOk(run) && run.state.Cancelling? && run.updatedAt <= now && ops != []
    requires VerdictFits(Last(ops).kind, EndedRow(run, state, Some(code), now))
    requires (state.Cancelled? && code.Cancelled?) || (state.TimedOut? && code.TimedOut?) || state.Interrupted?
    requires InClass(kind, History) && !kind.CompletionCommitted?
    ensures Lawful(run, EndedRow(run, state, Some(code), now), ops, c, Finish, Abandon, kind, now)
  { }

  lemma SettleCancelIsGood(db: Db, now: Time, t: CancelTicket, outcome: CancelOutcome)
    requires Inv(db) && Timely(db, now)
    ensures Good(db, now, SettleCancel(db, now, t, outcome))
    ensures t.run in db.runs && CancelTicketLive(db, now, t) ==> SettleCancel(db, now, t, outcome).Done?
  {
    hide Inv, Lawful, Fitting, Forward, Advance, RowOk, ControlsOk;
    var r, verdict := t.run, CancelVerdict(outcome);
    if r in db.runs && CancelTicketLive(db, now, t) {
      RunFacts(db, now, r);
      LiveIsLast(db.runs[r], Ops(db, r));
      var next := EndedRow(db.runs[r], verdict.0, Some(verdict.1), now);
      FinishLawful(db.runs[r], Ops(db, r), CompletionOf(db, r), now, verdict.0, verdict.1, CancelSettled);
      EndStepFits(db, now, r, next, Finish);
      StepIsGood(db, now, r, next, Finish, Abandon, CancelSettled);
    }
  }

  lemma ConfirmIsGood(db: Db, now: Time, t: RecoveryTicket)
    requires Inv(db) && Timely(db, now)
    ensures Good(db, now, ConfirmGone(db, now, t))
    ensures t.run in db.runs && RecoveryTicketLive(db, now, t) && t.generation != 0 ==> ConfirmGone(db, now, t).Done?
  {
    hide Inv, Lawful, Fitting, Forward, Advance, RowOk, ControlsOk;
    var r, verdict := t.run, GoneVerdict(t.reason);
    if r in db.runs && RecoveryTicketLive(db, now, t) {
      RunFacts(db, now, r);
      LiveIsLast(db.runs[r], Ops(db, r));
      var next := EndedRow(db.runs[r], verdict.0, Some(verdict.1), now);
      FinishLawful(db.runs[r], Ops(db, r), CompletionOf(db, r), now, verdict.0, verdict.1, RecoverySettled);
      EndStepFits(db, now, r, next, Finish);
      StepIsGood(db, now, r, next, Finish, Abandon, RecoverySettled);
    }
  }

  lemma RecoveredLawful(run: Run, ops: seq<Control>, c: Option<Completion>, now: Time)
    requires RowOk(run) && run.state.Cancelling? && run.updatedAt <= now && ops != [] && c.Some?
    requires Last(ops).kind == Recover(LeaseExpired)
    ensures Lawful(run, EndedRow(run, Succeeded, None, now), ops, c, Finish, Commit(Some(Last(ops).op)),
                   CompletionCommitted, now)
  { }

  lemma CommitRecoveredIsGood(db: Db, now: Time, t: RecoveryTicket, completion: Id)
    requires Inv(db) && Timely(db, now)
    ensures Good(db, now, CommitRecovered(db, now, t, completion))
  {
    hide Inv, Lawful, Fitting, Forward, Advance, RowOk, ControlsOk;
    var r := t.run;
    if r in db.runs && r in db.completions {
      RunFacts(db, now, r);
      UnchangedIsGood(db, now, (db.runs[r], db.completions[r]));
      if RecoveryTicketLive(db, now, t) && t.reason.LeaseExpired? {
        LiveIsLast(db.runs[r], Ops(db, r));
        var next := EndedRow(db.runs[r], Succeeded, None, now);
        RecoveredLawful(db.runs[r], Ops(db, r), CompletionOf(db, r), now);
        EndStepFits(db, now, r, next, Finish);
        StepIsGood(db, now, r, next, Finish, Commit(Some(t.op)), CompletionCommitted);
        AdvanceWrites(db, now, r, next, Finish, Commit(Some(t.op)), CompletionCommitted);
        assert CompletionOf(Advance(db, now, r, next, Finish, Commit(Some(t.op)), CompletionCommitted).db, r).Some?;
      }
    }
  }

  // --- Recovery ----------------------------------------------------------------------------------

  lemma RecoverLawful(run: Run, ops: seq<Control>, c: Option<Completion>, now: Time, control: Control)
    requires RowOk(run) && run.state.ControllerActive() && run.updatedAt <= now
    requires c.Some? ==> StatusFits(run.state, c.value.status)
    requires ControlLawful(run, FencedRow(run, now), ops, Push(control), now)
    ensures Lawful(run, FencedRow(run, now), ops, c, Push(control), Leave, RecoveryRequested, now)
  { }

  lemma RecoveryKindFits(db: Db, now: Time, r: Id)
    requires r in db.runs && ControlsOk(db.runs[r], Ops(db, r)) && RecoveryKind(db, now, r).Some?
    ensures var kind := RecoveryKind(db, now, r).value;
            && kind.Recover? && db.runs[r].state.ControllerActive()
            && (if Ops(db, r) == [] then kind != Recover(CancellationAbandoned)
                else kind == Last(Ops(db, r)).kind.Inherited())
  {
    LastActive(db.runs[r], Ops(db, r));
  }

  lemma ClosedIsRetired(db: Db, r: Id)
    requires Inv(db) && r in db.runs
    ensures db.runs[r].worker in db.workers
    ensures !db.workers[db.runs[r].worker].lifecycle.Open? ==> Retired(db.runs[r], Ops(db, r))
  {
    hide RunsOk, CrossOk, ForestOk, EventsOk, WorkerTimesOk, PublicationsDistinct, PlansOk, ProjectionOk;
  }

  lemma RecoverStepFits(db: Db, now: Time, r: Id, control: Control)
    requires Inv(db) && Timely(db, now) && r in db.runs && RecoveryKind(db, now, r) == Some(control.kind)
    ensures Fitting(db, {}, now, r, FencedRow(db.runs[r], now), Push(control))
  {
    hide Inv, RowOk, ControlsOk;
    RunFacts(db, now, r);
    RecoveryKindFits(db, now, r);
    ClosedIsRetired(db, r);
  }

  lemma RecoverOneIsGood(db: Db, now: Time, r: Id, reconciler: Id, expiresAt: Time, op: Id, token: Token)
    requires Inv(db) && Timely(db, now) && now < expiresAt
    requires r in db.runs ==> RecoveryKind(db, now, r).Some?
    ensures Good(db, now, RecoverOne(db, now, r, reconciler, expiresAt, op, token))
    ensures r in db.runs && !KnownOp(Ops(db, r), op) ==> RecoverOne(db, now, r, reconciler, expiresAt, op, token).Done?
  {
    hide Inv, Lawful, Fitting, Forward, RowOk, ControlsOk, ValidRun, SameIdentity, ValidCompletion;
    if r in db.runs {
      RunFacts(db, now, r);
      RecoveryKindFits(db, now, r);
      var next := FencedRow(db.runs[r], now);
      var control := NewControl(op, RecoveryKind(db, now, r).value, next, reconciler, expiresAt, token, now);
      RecoverStepFits(db, now, r, control);
      if !KnownOp(Ops(db, r), op) {
        hide Advance;
        RecoverLawful(db.runs[r], Ops(db, r), CompletionOf(db, r), now, control);
        StepIsGood(db, now, r, next, Push(control), Leave, RecoveryRequested);
      } else {
        FencingRefused(db, now, r, control, RecoveryRequested);
      }
    }
  }

  lemma FencedRowOk(run: Run, now: Time)
    requires RowOk(run) && run.state.ControllerActive() && run.updatedAt <= now
    ensures RowOk(FencedRow(run, now)) && SameIdentity(run, FencedRow(run, now))
  { }

  lemma CompletionIsValid(db: Db, r: Id)
    requires Inv(db) && r in db.runs && r in db.completions
    ensures ValidCompletion(db.completions[r])
  {
    hide CrossOk, ForestOk, EventsOk, WorkerTimesOk, PublicationsDistinct, PlansOk, ProjectionOk, RowOk, ControlsOk,
         HistoryOk, Select, ValidCompletion;
    assert RunOk(db, r);
  }

  /** A reused operation identifier is refused by the key of the table, not as corrupt data. */
  lemma FencingRefused(db: Db, now: Time, r: Id, control: Control, kind: EventKind)
    requires Inv(db) && Timely(db, now) && r in db.runs && KnownOp(Ops(db, r), control.op)
             && db.runs[r].state.ControllerActive()
    ensures Advance(db, now, r, FencedRow(db.runs[r], now), Push(control), Leave, kind) == Rejected(Constraint)
  {
    hide Inv, RowOk, ControlsOk, SameIdentity, ValidCompletion, KnownOp;
    RunFacts(db, now, r);
    FencedRowOk(db.runs[r], now);
    RowIsValid(FencedRow(db.runs[r], now));
    if r in db.completions { CompletionIsValid(db, r); }
    hide ValidRun;
  }

  lemma RowIsValid(run: Run)
    requires RowOk(run)
    ensures ValidRun(run)
  { }

  lemma PushActive(ops: seq<Control>, op: Control, now: Time)
    requires op.status.Active?
    ensures ActiveOp(NextControls(ops, Push(op), now)) == Some(op)
  { }
}
