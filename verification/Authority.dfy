/** Who may move a run: one capability at a time, each used once, success recorded once. */
module Authority {
  import opened AgentTypes
  import opened Tables
  import opened Operations
  import opened Invariant
  import opened Progress
  import opened RunStep
  import opened RunOps
  import opened Protocol
  import R = Reachable
  import V = Recovery

  // --- One authority at a time -------------------------------------------------------------------

  datatype Capability =
    | ByReceipt(receipt: Receipt)
    | ByCancel(cancel: CancelTicket)
    | ByRecovery(recovery: RecoveryTicket)
  {
    function RunId(): Id {
      match this
      case ByReceipt(rc) => rc.run
      case ByCancel(t) => t.run
      case ByRecovery(t) => t.run
    }

    function Generation(): nat {
      match this
      case ByReceipt(rc) => rc.generation
      case ByCancel(t) => t.generation
      case ByRecovery(t) => t.generation
    }

    function Revision(): nat {
      match this
      case ByReceipt(rc) => rc.revision
      case ByCancel(t) => t.revision
      case ByRecovery(t) => t.revision
    }

    function Secret(): Token {
      match this
      case ByReceipt(rc) => rc.token
      case ByCancel(t) => t.token
      case ByRecovery(t) => t.token
    }
  }

  /** What the store checks before it lets the capability move its run. */
  predicate Accepts(db: Db, now: Time, c: Capability) {
    && c.RunId() in db.runs
    && match c
       case ByReceipt(rc) => (db.runs[rc.run].state.Starting? || db.runs[rc.run].state.Running?)
            && ReceiptMatches(db.runs[rc.run], now, rc)
       case ByCancel(t) => CancelTicketLive(db, now, t)
       case ByRecovery(t) => RecoveryTicketLive(db, now, t)
  }

  /** Exactly the right secrets exist: a lease token while leased, one active operation while cancelling. */
  lemma SecretsFollowState(db: Db, r: Id)
    requires r in db.runs
    requires Inv(db)
    ensures db.runs[r].leaseHash.Some? <==> db.runs[r].state.Starting? || db.runs[r].state.Running?
    ensures db.runs[r].state.Cancelling? <==> exists i :: 0 <= i < |Ops(db, r)| && Ops(db, r)[i].status.Active?
    ensures forall i, j ::
              && 0 <= i < |Ops(db, r)| && 0 <= j < |Ops(db, r)|
              && Ops(db, r)[i].status.Active? && Ops(db, r)[j].status.Active? ==>
                i == j
  {
    hide Inv, ValidRun, DistinctOps;
    V.RunParts(db, r);
    LastActive(db.runs[r], Ops(db, r));
    forall i | 0 <= i < |Ops(db, r)| - 1 ensures !Ops(db, r)[i].status.Active? {
      assert ControlOk(db.runs[r], Ops(db, r), i);
    }
  }

  /** Two capabilities accepted in the same tables, at any times, carry the same numbers and the same secret. */
  lemma SingleAuthority(db: Db, now: Time, now': Time, c: Capability, d: Capability)
    requires Accepts(db, now, c) && Accepts(db, now', d) && c.RunId() == d.RunId()
    ensures c.Generation() == d.Generation() == db.runs[c.RunId()].generation
    ensures c.Revision() == d.Revision() == db.runs[c.RunId()].revision
    ensures c.Secret() == d.Secret()
    ensures c.ByReceipt? <==> d.ByReceipt?
    ensures c.ByCancel? <==> d.ByCancel?
  { }

  /** A capability whose run moved on is never accepted again, whatever happens. */
  lemma SupersededIsDead(s: Store, o: Owner, calls: seq<Call>, now: Time, c: Capability)
    requires c.RunId() in Part(s, o).runs && c.Revision() < Part(s, o).runs[c.RunId()].revision
    requires R.StoreInv(s)
    ensures !Accepts(Part(Play(s, calls), o), now, c)
  {
    hide R.StoreInv, Play, Forward, Part;
    R.PlayKeeps(s, calls);
    V.EntryForward(Part(s, o), Part(Play(s, calls), o), c.RunId());
  }

  /** The calls that a capability authorises. */
  predicate Uses(op: Op, c: Capability) {
    match c
    case ByReceipt(rc) =>
      || (op.OpStart? && op.receipt == rc) || (op.OpHeartbeat? && op.receipt == rc)
      || (op.OpRecordActivity? && op.receipt == rc)
      || (op.OpBindResume? && op.receipt == rc) || (op.OpSettle? && op.receipt == rc)
    case ByCancel(t) => op.OpSettleCancel? && op.ticket == t
    case ByRecovery(t) => (op.OpConfirmGone? && op.recovery == t) || (op.OpCommitRecovered? && op.recovery == t)
  }

  /** A step that changed the tables found the run at this revision and moved it to the next. */
  ghost predicate MovedFrom<T>(db: Db, r: Id, revision: nat, out: Outcome<T>) {
    out.Done? && out.db != db ==>
      r in db.runs && db.runs[r].revision == revision && r in out.db.runs && out.db.runs[r].revision == revision + 1
  }

  lemma AdvanceMoves(db: Db, now: Time, r: Id, next: Run, control: ControlChange, completion: CompletionChange,
                     kind: EventKind)
    requires r in db.runs && Advance(db, now, r, next, control, completion, kind).Done?
    ensures r in Advance(db, now, r, next, control, completion, kind).db.runs
    ensures Advance(db, now, r, next, control, completion, kind).db.runs[r] == next
    ensures Advance(db, now, r, next, control, completion, kind).value == next
  {
    hide ValidRun, ValidCompletion, SameIdentity, NextControls, NextCompletion, KnownOp;
    AdvanceWrites(db, now, r, next, control, completion, kind);
  }

  lemma AnyAdvanceMoves(db: Db, now: Time, r: Id)
    requires r in db.runs
    ensures forall next, control, completion, kind ::
              var out := Advance(db, now, r, next, control, completion, kind); out.Done? ==>
                r in out.db.runs && out.db.runs[r] == next
  {
    hide Advance;
    forall next, control, completion, kind | Advance(db, now, r, next, control, completion, kind).Done?
      ensures r in Advance(db, now, r, next, control, completion, kind).db.runs
      ensures Advance(db, now, r, next, control, completion, kind).db.runs[r] == next
    {
      AdvanceMoves(db, now, r, next, control, completion, kind);
    }
  }

  lemma StartMoves(db: Db, now: Time, rc: Receipt, controller: Controller)
    ensures MovedFrom(db, rc.run, rc.revision, Start(db, now, rc, controller))
  {
    hide Advance;
    if rc.run in db.runs { AnyAdvanceMoves(db, now, rc.run); }
  }

  lemma HeartbeatMoves(db: Db, now: Time, rc: Receipt, seconds: nat)
    ensures MovedFrom(db, rc.run, rc.revision, Heartbeat(db, now, rc, seconds))
  {
    hide Advance;
    if rc.run in db.runs { AnyAdvanceMoves(db, now, rc.run); }
  }

  lemma ActivityMoves(db: Db, now: Time, rc: Receipt)
    ensures MovedFrom(db, rc.run, rc.revision, RecordActivity(db, now, rc))
  {
    hide Advance;
    if rc.run in db.runs { AnyAdvanceMoves(db, now, rc.run); }
  }

  lemma BindMoves(db: Db, now: Time, rc: Receipt, proof: SessionProof)
    ensures MovedFrom(db, rc.run, rc.revision, BindResume(db, now, rc, proof))
  {
    hide Advance;
    if rc.run in db.runs { AnyAdvanceMoves(db, now, rc.run); }
  }

  lemma SettleMoves(db: Db, now: Time, rc: Receipt, settlement: Settlement)
    ensures MovedFrom(db, rc.run, rc.revision, Settle(db, now, rc, settlement))
  {
    hide Advance;
    if rc.run in db.runs { AnyAdvanceMoves(db, now, rc.run); }
  }

  lemma SettleCancelMoves(db: Db, now: Time, t: CancelTicket, outcome: CancelOutcome)
    ensures MovedFrom(db, t.run, t.revision, SettleCancel(db, now, t, outcome))
  {
    hide Advance;
    if t.run in db.runs { AnyAdvanceMoves(db, now, t.run); }
  }

  lemma ConfirmMoves(db: Db, now: Time, t: RecoveryTicket)
    ensures MovedFrom(db, t.run, t.revision, ConfirmGone(db, now, t))
  {
    hide Advance;
    if t.run in db.runs { AnyAdvanceMoves(db, now, t.run); }
  }

  lemma CommitRecoveredMoves(db: Db, now: Time, t: RecoveryTicket, completion: Id)
    ensures MovedFrom(db, t.run, t.revision, CommitRecovered(db, now, t, completion))
  {
    hide Advance, SettledRecovery;
    if t.run in db.runs { AnyAdvanceMoves(db, now, t.run); }
  }

  lemma UseMoves(db: Db, now: Time, q: nat, op: Op, c: Capability)
    requires Uses(op, c)
    ensures MovedFrom(db, c.RunId(), c.Revision(), Attempt(db, now, q, op))
  {
    hide Start, Heartbeat, RecordActivity, BindResume, Settle, SettleCancel, ConfirmGone, CommitRecovered;
    match op
    case OpStart(rc, k) => StartMoves(db, now, rc, k);
    case OpHeartbeat(rc, n) => HeartbeatMoves(db, now, rc, n);
    case OpRecordActivity(rc) => ActivityMoves(db, now, rc);
    case OpBindResume(rc, p) => BindMoves(db, now, rc, p);
    case OpSettle(rc, x) => SettleMoves(db, now, rc, x);
    case OpSettleCancel(t, x) => SettleCancelMoves(db, now, t, x);
    case OpConfirmGone(t) => ConfirmMoves(db, now, t);
    case OpCommitRecovered(t, x) => CommitRecoveredMoves(db, now, t, x);
  }

  /** A capability moves its run at most once: after a step it authorised, it is dead for good. */
  lemma UsedOnce(s: Store, call: Call, c: Capability, calls: seq<Call>, now: Time)
    requires Uses(call.op, c) && Verdict(s, call).Done? && Verdict(s, call).db != Part(s, call.owner)
    requires R.StoreInv(s)
    ensures !Accepts(Part(Play(Step(s, call), calls), call.owner), now, c)
  {
    hide R.StoreInv, Play, Forward, Attempt, NextQueue, Accepts;
    var db := Part(s, call.owner);
    UseMoves(db, Now(db, call.clock), NextQueue(s), call.op, c);
    R.StepKeeps(s, call);
    SupersededIsDead(Step(s, call), call.owner, calls, now, c);
  }

  // --- Success is recorded exactly once ----------------------------------------------------------

  lemma CompletionParts(db: Db, r: Id)
    requires Inv(db) && r in db.runs
    ensures r in db.completions ==> StatusFits(db.runs[r].state, db.completions[r].status)
    ensures db.runs[r].state.Succeeded? ==> r in db.completions
    ensures r in db.completions ==>
              db.completions[r].backend == db.runs[r].spec.backend
                  && db.completions[r].generation == db.runs[r].generation
  {
    hide CrossOk, ForestOk, EventsOk, WorkerTimesOk, PublicationsDistinct, RetiredOk, PlansOk, ProjectionOk, KeysOk,
         HistoryOk, ControlsOk, RowOk, Select;
    assert RunOk(db, r);
  }

  /** Succeeded exactly with a committed completion; ended otherwise with none or an abandoned one. */
  lemma SuccessIsExact(db: Db, r: Id)
    requires r in db.runs
    requires Inv(db)
    ensures db.runs[r].state.Succeeded? <==> r in db.completions && db.completions[r].status.Committed?
    ensures db.runs[r].state.Terminal() && !db.runs[r].state.Succeeded? ==>
              r !in db.completions || db.completions[r].status.Abandoned?
  {
    hide Inv;
    CompletionParts(db, r);
  }

  /** An ended run and its completion never change again. */
  lemma TerminalIsFinal(s: Store, o: Owner, r: Id, calls: seq<Call>)
    requires r in Part(s, o).runs && Part(s, o).runs[r].state.Terminal()
    requires R.StoreInv(s)
    ensures var db, db' := Part(s, o), Part(Play(s, calls), o);
            && r in db'.runs && db'.runs[r] == db.runs[r]
            && CompletionOf(db', r) == CompletionOf(db, r)
  {
    hide R.StoreInv, Play, Forward, Part, Inv;
    var db, db' := Part(s, o), Part(Play(s, calls), o);
    R.PlayKeeps(s, calls);
    R.PartInv(s, o);
    R.PartInv(Play(s, calls), o);
    V.EntryForward(db, db', r);
  }

  lemma CommitEffect(db: Db, now: Time, permit: CompletionPermit)
    requires CommitCompletion(db, now, permit).Done?
    ensures var out := CommitCompletion(db, now, permit); var r := permit.run;
            && r in out.db.runs && r in out.db.completions && out.value == (out.db.runs[r], out.db.completions[r])
            && out.db.runs[r].state.Succeeded? && out.db.completions[r].status.Committed?
            && PermitOwns(out.db.completions[r], permit)
            && out.db.runs[r].spec.backend == out.db.completions[r].backend
  {
    hide Advance, ValidRun, ValidCompletion;
    var r := permit.run;
    var before, c := db.runs[r], db.completions[r];
    if !(c.status.Committed? && before.state.Succeeded? && before.spec.backend == c.backend) {
      AdvanceWrites(db, now, r, EndedRow(before, Succeeded, before.failure, now), Keep, Commit(None),
                    CompletionCommitted);
      AdvanceMoves(db, now, r, EndedRow(before, Succeeded, before.failure, now), Keep, Commit(None),
                   CompletionCommitted);
    }
  }

  /** A replayed commit, at any later time and in any later tables, returns the same records and changes nothing. */
  lemma CommitReplays(db: Db, now: Time, permit: CompletionPermit, db': Db, now': Time)
    requires CommitCompletion(db, now, permit).Done?
    requires Forward(CommitCompletion(db, now, permit).db, db')
    ensures CommitCompletion(db', now', permit) == Done(db', CommitCompletion(db, now, permit).value)
  {
    hide Forward, Advance;
    CommitEffect(db, now, permit);
    hide CommitCompletion;
    V.EntryForward(CommitCompletion(db, now, permit).db, db', permit.run);
    CommittedAgain(CommitCompletion(db, now, permit).db, db', now', permit);
  }

  lemma CommittedAgain(db: Db, db': Db, now: Time, permit: CompletionPermit)
    requires permit.run in db.runs && permit.run in db.completions && permit.run in db'.runs
             && RunEntryForward(db, db', permit.run)
    requires db.runs[permit.run].state.Succeeded? && db.completions[permit.run].status.Committed?
             && PermitOwns(db.completions[permit.run], permit)
    requires db.runs[permit.run].spec.backend == db.completions[permit.run].backend
    ensures CommitCompletion(db', now, permit) == Done(db', (db.runs[permit.run], db.completions[permit.run]))
  {
    hide Advance, MayCommitLive;
    assert CompletionOf(db', permit.run) == CompletionOf(db, permit.run);
  }

  lemma RecoveredEffect(db: Db, now: Time, t: RecoveryTicket, completion: Id)
    requires CommitRecovered(db, now, t, completion).Done?
    requires Inv(db) && Timely(db, now)
    ensures var out := CommitRecovered(db, now, t, completion); var r := t.run;
            && r in out.db.runs && r in out.db.completions && out.value == (out.db.runs[r], out.db.completions[r])
            && out.db.runs[r].state.Succeeded? && out.db.completions[r].status.Committed?
            && out.db.completions[r].content.completion == completion && out.db.completions[r].committedBy == Some(t.op)
            && out.db.runs[r].spec.backend == out.db.completions[r].backend
            && SettledRecovery(Ops(out.db, r), t)
  {
    hide Inv, Advance, ValidRun, ValidCompletion, NextControls, SettledRecovery, RecoveryIdentity, ControlsOk, RowOk;
    var r := t.run;
    var before, c := db.runs[r], db.completions[r];
    if !(before.state.Succeeded? && c.status.Committed? && c.content.completion == completion
         && c.committedBy == Some(t.op) && before.spec.backend == c.backend && SettledRecovery(Ops(db, r), t)) {
      RunFacts(db, now, r);
      AdvanceWrites(db, now, r, EndedRow(before, Succeeded, None, now), Finish, Commit(Some(t.op)),
                    CompletionCommitted);
      AdvanceMoves(db, now, r, EndedRow(before, Succeeded, None, now), Finish, Commit(Some(t.op)), CompletionCommitted);
      FinishedIdentity(before, Ops(db, r), t, now);
    }
  }

  lemma FinishedIdentity(run: Run, ops: seq<Control>, t: RecoveryTicket, now: Time)
    requires ControlsOk(run, ops) && ActiveOp(ops).Some? && RecoveryIdentity(ActiveOp(ops).value, t)
    ensures SettledRecovery(NextControls(ops, Finish, now), t)
  {
    LastActive(run, ops);
    var i := |ops| - 1;
    assert NextControls(ops, Finish, now)[i].status.Settled?;
  }

  lemma SettledStays(ops: seq<Control>, ops': seq<Control>, t: RecoveryTicket)
    requires SettledRecovery(ops, t) && ControlsForward(ops, ops')
    ensures SettledRecovery(ops', t)
  {
    var i :| 0 <= i < |ops| && ops[i].status.Settled? && RecoveryIdentity(ops[i], t);
    assert ControlForward(ops[i], ops'[i]);
  }

  lemma RecoveredCommitReplays(db: Db, now: Time, t: RecoveryTicket, completion: Id, db': Db, now': Time)
    requires CommitRecovered(db, now, t, completion).Done?
    requires Forward(CommitRecovered(db, now, t, completion).db, db')
    requires Inv(db) && Timely(db, now)
    ensures CommitRecovered(db', now', t, completion) == Done(db', CommitRecovered(db, now, t, completion).value)
  {
    hide Inv, Forward, Advance, SettledRecovery;
    RecoveredEffect(db, now, t, completion);
    V.EntryForward(CommitRecovered(db, now, t, completion).db, db', t.run);
    RecoveredAgain(CommitRecovered(db, now, t, completion).db, db', now', t, completion);
  }

  lemma RecoveredAgain(db: Db, db': Db, now: Time, t: RecoveryTicket, completion: Id)
    requires t.generation != 0 && t.reason.LeaseExpired?
    requires t.run in db.runs && t.run in db.completions && t.run in db'.runs && RunEntryForward(db, db', t.run)
    requires db.runs[t.run].state.Succeeded? && db.completions[t.run].status.Committed?
    requires db.completions[t.run].content.completion == completion && db.completions[t.run].committedBy == Some(t.op)
    requires db.runs[t.run].spec.backend == db.completions[t.run].backend && SettledRecovery(Ops(db, t.run), t)
    ensures CommitRecovered(db', now, t, completion) == Done(db', (db.runs[t.run], db.completions[t.run]))
  {
    hide Advance, SettledRecovery, RecoveryTicketLive;
    SettledStays(Ops(db, t.run), Ops(db', t.run), t);
    assert CompletionOf(db', t.run) == CompletionOf(db, t.run);
  }
}
