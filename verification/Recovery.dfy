/** Recovery: a one-way ratchet over control operations, and no run that stays stuck. */
module Recovery {
  import opened AgentTypes
  import opened Tables
  import opened Operations
  import opened Invariant
  import opened Progress
  import opened RunStep
  import opened RunOps
  import opened Claims
  import opened Protocol
  import R = Reachable

  // --- The ratchet -------------------------------------------------------------------------------

  /** A recovery for an expired lease follows only recoveries for an expired lease. */
  lemma {:induction false} RatchetChain(run: Run, ops: seq<Control>, i: nat, j: nat)
    requires i <= j < |ops| && ControlsOk(run, ops) && ops[j].kind == Recover(LeaseExpired)
    ensures ops[i].kind == Recover(LeaseExpired)
  {
    if i < j {
      assert ControlOk(run, ops, j);
      RatchetChain(run, ops, i, j - 1);
    }
  }

  /** Some control operation of the run was for something else than an expired lease. */
  predicate FencedOtherwise(ops: seq<Control>) {
    exists i :: 0 <= i < |ops| && ops[i].kind != Recover(LeaseExpired)
  }

  lemma OtherwiseStays(ops: seq<Control>, ops': seq<Control>)
    requires FencedOtherwise(ops) && ControlsForward(ops, ops')
    ensures FencedOtherwise(ops')
  {
    var i :| 0 <= i < |ops| && ops[i].kind != Recover(LeaseExpired);
    assert ControlForward(ops[i], ops'[i]);
  }

  lemma OtherwiseIsLast(run: Run, ops: seq<Control>)
    requires ControlsOk(run, ops) && FencedOtherwise(ops)
    ensures ops != [] && Last(ops).kind != Recover(LeaseExpired)
    ensures !run.state.Succeeded? && !run.state.Running?
  {
    var i :| 0 <= i < |ops| && ops[i].kind != Recover(LeaseExpired);
    if Last(ops).kind == Recover(LeaseExpired) {
      RatchetChain(run, ops, i, |ops| - 1);
      assert false;
    }
  }

  lemma OtherwiseNeverCommits(db: Db, now: Time, r: Id)
    requires r in db.runs && FencedOtherwise(Ops(db, r))
    requires Inv(db) && Timely(db, now)
    ensures !db.runs[r].state.Succeeded?
    ensures forall t: RecoveryTicket, completion :: t.run == r ==> CommitRecovered(db, now, t, completion).Rejected?
    ensures forall permit: CompletionPermit :: permit.run == r ==> CommitCompletion(db, now, permit).Rejected?
  {
    hide Inv, RowOk, ControlsOk, Advance, FencedOtherwise;
    RunFacts(db, now, r);
    OtherwiseIsLast(db.runs[r], Ops(db, r));
    LastActive(db.runs[r], Ops(db, r));
  }

  lemma EntryForward(db: Db, db': Db, r: Id)
    requires Forward(db, db') && r in db.runs
    ensures r in db'.runs && RunEntryForward(db, db', r)
  { }

  /**
   A run that was ever fenced as timed out or cancelled can never succeed again: whatever is
   called afterwards, no live and no recovered commit of it is accepted at any time.
   */
  lemma RatchetIsOneWay(s: Store, o: Owner, r: Id, calls: seq<Call>, clock: Time)
    requires r in Part(s, o).runs && FencedOtherwise(Ops(Part(s, o), r))
    requires R.StoreInv(s)
    ensures var db := Part(Play(s, calls), o);
            && r in db.runs && FencedOtherwise(Ops(db, r)) && !db.runs[r].state.Succeeded?
            && (forall t: RecoveryTicket, completion :: t.run == r ==>
                CommitRecovered(db, Now(db, clock), t, completion).Rejected?)
            && (forall permit: CompletionPermit :: permit.run == r ==>
                CommitCompletion(db, Now(db, clock), permit).Rejected?)
  {
    hide Inv, Forward, R.StoreInv, Play, CommitRecovered, CommitCompletion, FencedOtherwise, Now, Part;
    R.PlayKeeps(s, calls);
    var db, db' := Part(s, o), Part(Play(s, calls), o);
    R.PartInv(Play(s, calls), o);
    EntryForward(db, db', r);
    OtherwiseStays(Ops(db, r), Ops(db', r));
    R.NowIsTimely(db', clock);
    OtherwiseNeverCommits(db', Now(db', clock), r);
  }

  // --- No run stays stuck ------------------------------------------------------------------------

  /** The time from which a run with a controller is due for recovery. */
  function DueAt(db: Db, r: Id): Option<Time>
    requires r in db.runs
  {
    var run, active := db.runs[r], ActiveOp(Ops(db, r));
    if run.state.Cancelling? then (if active.Some? then Some(active.value.expiresAt) else None)
    else if (run.state.Starting? || run.state.Running?) && run.lease.Some? && run.deadline.Some? then
      Some(if run.deadline.value < run.lease.value.expiresAt then run.deadline.value else run.lease.value.expiresAt)
    else None
  }

  lemma DueAtExact(db: Db, r: Id, now: Time)
    requires r in db.runs && db.runs[r].state.ControllerActive() && RowOk(db.runs[r])
             && ControlsOk(db.runs[r], Ops(db, r))
    ensures DueAt(db, r).Some?
    ensures RecoveryDue(db, now, r) <==> DueAt(db, r).value <= now
  {
    LastActive(db.runs[r], Ops(db, r));
  }

  lemma RunParts(db: Db, r: Id)
    requires Inv(db) && r in db.runs
    ensures RowOk(db.runs[r]) && ControlsOk(db.runs[r], Ops(db, r))
  {
    hide CrossOk, ForestOk, EventsOk, WorkerTimesOk, PublicationsDistinct, RetiredOk, PlansOk, ProjectionOk, KeysOk,
         HistoryOk, CompletionOk, ControlsOk, RowOk, Select;
    assert RunOk(db, r);
  }

  /**
   Every run with a controller has a finite time from which, and only from which, recovery selects
   it; no other run is ever selected.
   */
  lemma EveryActiveRunBecomesDue(db: Db, r: Id)
    requires Inv(db)
    ensures r in db.runs && db.runs[r].state.ControllerActive() ==> DueAt(db, r).Some?
    ensures forall now :: r in RecoveryQueue(db, now) <==>
                            r in db.runs && db.runs[r].state.ControllerActive() && DueAt(db, r).value <= now
  {
    hide Inv, RowOk, ControlsOk, RecoveryQueue, DueAt;
    if r in db.runs && db.runs[r].state.ControllerActive() {
      RunParts(db, r);
      DueAtExact(db, r, 0);
    }
    forall now
      ensures r in RecoveryQueue(db, now) <==>
                r in db.runs && db.runs[r].state.ControllerActive() && DueAt(db, r).value <= now
    {
      RecoveryQueueIff(db, now, r);
      if r in db.runs && db.runs[r].state.ControllerActive() { DueAtExact(db, r, now); }
    }
  }

  lemma FreshIsLive(db: Db, now: Time, t: RecoveryTicket)
    requires TicketFresh(db, t) && now < t.expiresAt
    ensures t.run in db.runs && RecoveryTicketLive(db, now, t)
  { }

  lemma ConfirmEnds(db: Db, now: Time, t: RecoveryTicket)
    requires ConfirmGone(db, now, t).Done?
    ensures t.run in db.runs && t.run in ConfirmGone(db, now, t).db.runs
            && ConfirmGone(db, now, t).db.runs[t.run].state.Terminal()
  {
    hide RecoveryTicketLive, ValidRun, SameIdentity, ValidCompletion, NextControls, NextCompletion;
    var verdict := GoneVerdict(t.reason);
    AdvanceWrites(db, now, t.run, EndedRow(db.runs[t.run], verdict.0, Some(verdict.1), now), Finish, Abandon,
                  RecoverySettled);
  }

  /** The claimed page holds a ticket for the run, and confirming it before it expires ends the run. */
  ghost predicate Recovers(out: Outcome<seq<RecoveryTicket>>, r: Id, expiresAt: Time) {
    && out.Done?
    && exists i :: 0 <= i < |out.value| && out.value[i].run == r
                   && forall now :: Timely(out.db, now) && now < expiresAt ==>
                        && ConfirmGone(out.db, now, out.value[i]).Done?
                        && r in ConfirmGone(out.db, now, out.value[i]).db.runs
                        && ConfirmGone(out.db, now, out.value[i]).db.runs[r].state.Terminal()
  }

  /** A due run on the page is recovered, and confirming its controller gone makes it terminal. */
  lemma DueRunIsRecovered(db: Db, now: Time, reconciler: Id, seconds: nat, limit: nat, seed: nat, r: Id)
    requires ValidLease(seconds) && 1 <= limit <= MAX_PAGE_SIZE
    requires r in Page(RecoveryQueue(db, now), limit) && OpsUnused(db, Page(RecoveryQueue(db, now), limit), seed)
    requires Inv(db) && Timely(db, now)
    ensures Recovers(ClaimRecovery(db, now, reconciler, seconds, limit, seed), r, After(now, seconds))
  {
    hide Inv, Forward, ClaimRecovery, RecoveryQueue, OpsUnused, TicketFresh, ConfirmGone, Timely;
    ClaimRecoveryIsGood(db, now, reconciler, seconds, limit, seed);
    var ids, out := Page(RecoveryQueue(db, now), limit), ClaimRecovery(db, now, reconciler, seconds, limit, seed);
    var i :| 0 <= i < |ids| && ids[i] == r;
    var t := out.value[i];
    forall at | Timely(out.db, at) && at < After(now, seconds)
      ensures ConfirmGone(out.db, at, t).Done?
      ensures r in ConfirmGone(out.db, at, t).db.runs && ConfirmGone(out.db, at, t).db.runs[r].state.Terminal()
    {
      FreshIsLive(out.db, at, t);
      ConfirmIsGood(out.db, at, t);
      ConfirmEnds(out.db, at, t);
    }
  }

  /** No reachable store ever reports its own rows as corrupt. */
  lemma NeverCorrupt(calls: seq<Call>, call: Call)
    ensures Verdict(Play(map[], calls), call) != Rejected(CorruptData)
  {
    hide R.StoreInv, Verdict, Play, Inv, Forward, Timely;
    R.EmptyStoreOk();
    R.PlayKeeps(map[], calls);
    R.StepIsGoodFor(Play(map[], calls), call);
  }
}
