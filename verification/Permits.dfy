/** Execution permits: they outlive heartbeats and activity, and a revoked one never comes back. */
module Permits {
  import opened AgentTypes
  import opened Tables
  import opened Operations
  import opened Invariant
  import opened Progress
  import opened RunStep
  import opened CoreStep
  import opened Protocol
  import R = Reachable
  import V = Recovery

  // --- Revocation is permanent -------------------------------------------------------------------

  /** What takes a permit's authority away. */
  predicate Revoked(db: Db, permit: ExecutionPermit) {
    || permit.run in db.completions
    || (permit.run in db.runs && !db.runs[permit.run].state.Running?)
    || (permit.worker in db.workers && !db.workers[permit.worker].lifecycle.Open?)
  }

  lemma KeepsCompletion(db: Db, db': Db, r: Id)
    requires r in db.runs && r in db'.runs && RunEntryForward(db, db', r)
    ensures r in db.completions ==> r in db'.completions
  {
    assert CompletionOf(db, r).Some? ==> CompletionOf(db', r).Some?;
  }

  lemma WorkerClosedStays(db: Db, db': Db, w: Id)
    requires Forward(db, db') && w in db.workers && !db.workers[w].lifecycle.Open?
    ensures w in db'.workers && !db'.workers[w].lifecycle.Open?
  {
    assert WorkerForward(db.workers[w], db'.workers[w]);
  }

  lemma CompletionKeys(db: Db)
    requires Inv(db)
    ensures db.completions.Keys <= db.runs.Keys
  {
    hide RunsOk, CrossOk, ForestOk, EventsOk, WorkerTimesOk, PublicationsDistinct, RetiredOk, PlansOk, ProjectionOk;
  }

  /** The permit's run had reached Running when the permit was live, so leaving it is for good. */
  lemma RevokedStays(db: Db, mid: Db, db': Db, permit: ExecutionPermit)
    requires permit.run in db.runs && db.runs[permit.run].state.Running?
    requires Forward(db, mid) && Forward(mid, db') && Revoked(mid, permit)
    requires mid.completions.Keys <= mid.runs.Keys
    ensures Revoked(db', permit)
  {
    hide Forward, CompletionForward, ControlsForward, CancelBound;
    V.EntryForward(db, mid, permit.run);
    V.EntryForward(mid, db', permit.run);
    if permit.run in mid.completions {
      KeepsCompletion(mid, db', permit.run);
    }
    if permit.worker in mid.workers && !mid.workers[permit.worker].lifecycle.Open? {
      WorkerClosedStays(mid, db', permit.worker);
    }
  }

  /**
   Once a permit that was live has lost its authority (a completion was prepared, the run left
   Running or the worker left Open), no later validation accepts it, with or without a scope.
   */
  lemma RevocationIsPermanent(s: Store, o: Owner, permit: ExecutionPermit, policy: Id, at: Time, first: seq<Call>,
                              later: seq<Call>)
    requires PermitLive(Part(s, o), at, permit, policy) && Revoked(Part(Play(s, first), o), permit)
    requires R.StoreInv(s)
    ensures forall now, p :: !PermitLive(Part(Play(Play(s, first), later), o), now, permit, p)
    ensures forall now, scope :: !NativePermitLive(Part(Play(Play(s, first), later), o), now, permit, scope)
  {
    hide R.StoreInv, Play, Forward, Part, Inv, Revoked;
    R.PlayKeeps(s, first);
    var mid := Play(s, first);
    R.PlayKeeps(mid, later);
    R.PartInv(mid, o);
    CompletionKeys(Part(mid, o));
    RevokedStays(Part(s, o), Part(mid, o), Part(Play(mid, later), o), permit);
    RevokedIsDead(Part(Play(mid, later), o), permit);
  }

  lemma RevokedIsDead(db: Db, permit: ExecutionPermit)
    requires Revoked(db, permit)
    ensures forall now, p :: !PermitLive(db, now, permit, p)
    ensures forall now, scope :: !NativePermitLive(db, now, permit, scope)
  { }

  // --- Valid until revoked or expired ------------------------------------------------------------

  /** Everything about a permit except the lease and the deadline, which only the clock decides. */
  lemma UnrevokedStands(db: Db, db': Db, permit: ExecutionPermit, policy: Id)
    requires Standing(db, permit, policy) && !Revoked(db', permit)
    requires Inv(db) && Forward(db, db')
    ensures StillStands(db, permit, policy, db')
  {
    hide Inv, Forward, CompletionForward, ControlsForward, CancelBound;
    V.EntryForward(db, db', permit.run);
    KeepsRow(db, db', permit.worker);
    ClaimedByNow(db, permit.run);
  }

  lemma KeepsRow(db: Db, db': Db, w: Id)
    requires w in db.workers && Forward(db, db')
    ensures w in db'.workers && db'.workers[w].session == db.workers[w].session
  {
    assert WorkerForward(db.workers[w], db'.workers[w]);
  }

  lemma ClaimedByNow(db: Db, r: Id)
    requires r in db.runs && db.runs[r].state.Running? && Inv(db)
    ensures 0 < db.runs[r].generation
  {
    hide Inv;
    V.RunParts(db, r);
  }

  /**
   After any calls of anyone, a permit that was live is valid exactly when it has not been revoked
   and neither the current lease nor the fixed deadline has passed; until then its controller's
   lease never ends before the one it replaced. A scope is matched exactly as long as the binding
   is the one it names, and a binding once made stays.
   */
  lemma ValidUntilRevoked(s: Store, o: Owner, permit: ExecutionPermit, policy: Id, at: Time, calls: seq<Call>,
                          now: Time)
    requires PermitLive(Part(s, o), at, permit, policy)
    requires R.StoreInv(s)
    ensures var db, db' := Part(s, o), Part(Play(s, calls), o);
            && permit.run in db'.runs
            && (!Revoked(db', permit) ==> Extends(db.runs[permit.run], db'.runs[permit.run]))
            && (PermitLive(db', now, permit, policy) <==>
                  && !Revoked(db', permit)
                  && now < db'.runs[permit.run].lease.value.expiresAt && now < db.runs[permit.run].deadline.value)
    ensures var db, db' := Part(s, o), Part(Play(s, calls), o);
            forall scope :: NativePermitLive(db, at, permit, scope) ==>
                              && (db.runs[permit.run].binding.Some? ==> db'.runs[permit.run].binding == scope.binding)
                              && (NativePermitLive(db', now, permit, scope) <==>
                                    PermitLive(db', now, permit, policy)
                                        && db'.runs[permit.run].binding == scope.binding)
  {
    hide R.StoreInv, Play, Forward, Part, Inv, PermitHolds, StandingRow;
    R.PlayKeeps(s, calls);
    R.PartInv(s, o);
    var db, db' := Part(s, o), Part(Play(s, calls), o);
    LiveIsStanding(db, at, permit, policy);
    LiveIsStanding(db', now, permit, policy);
    StandingLease(db.runs[permit.run], permit);
    if Revoked(db', permit) {
      RevokedIsDead(db', permit);
      V.EntryForward(db, db', permit.run);
    } else {
      UnrevokedStands(db, db', permit, policy);
    }
    ScopeStays(db, db', permit);
  }

  lemma ScopeStays(db: Db, db': Db, permit: ExecutionPermit)
    requires permit.run in db.runs && permit.worker in db.workers && Forward(db, db')
    ensures permit.run in db'.runs && permit.worker in db'.workers
    ensures db.runs[permit.run].binding.Some? ==> db'.runs[permit.run].binding == db.runs[permit.run].binding
    ensures forall scope :: ScopeMatches(db, permit, scope) ==>
                              (ScopeMatches(db', permit, scope) <==> db'.runs[permit.run].binding == scope.binding)
  {
    hide Forward, CompletionForward, ControlsForward, CancelBound;
    V.EntryForward(db, db', permit.run);
    KeepsRow(db, db', permit.worker);
  }

  /** Issuing: exactly a receipt of the current revision is turned into a permit, and only into one that is live. */
  lemma IssuedIsLive(db: Db, now: Time, receipt: Receipt, policy: Id)
    requires Inv(db)
    ensures var permit := ExecutionPermit(receipt.run, receipt.worker, receipt.generation, receipt.leaseOwner,
                                          policy, receipt.token);
            IssuePermit(db, now, receipt, policy) ==
              if PermitLive(db, now, permit, policy) && receipt.revision == db.runs[receipt.run].revision
              then Some(permit) else None
  {
    hide Inv;
    if receipt.run in db.runs && db.runs[receipt.run].state.Running? { ClaimedByNow(db, receipt.run); }
  }

  // --- Surviving heartbeats and activity ---------------------------------------------------------

  /** A permit's authority apart from the two clocks it races. */
  predicate Standing(db: Db, permit: ExecutionPermit, policy: Id) {
    && permit.policy == policy && permit.run in db.runs && permit.worker in db.workers && permit.run !in db.completions
    && db.workers[permit.worker].lifecycle.Open?
    && StandingRow(db.runs[permit.run], permit)
  }

  predicate StandingRow(run: Run, permit: ExecutionPermit) {
    && run.worker == permit.worker && run.generation == permit.generation && run.state.Running?
    && run.spec.policy == permit.policy
    && run.lease.Some? && run.lease.value.owner == permit.leaseOwner && run.deadline.Some?
    && run.leaseHash == Some(HashOf(permit.token))
  }

  lemma LiveIsStanding(db: Db, now: Time, permit: ExecutionPermit, policy: Id)
    ensures PermitLive(db, now, permit, policy) <==>
              && Standing(db, permit, policy)
              && now < db.runs[permit.run].lease.value.expiresAt && now < db.runs[permit.run].deadline.value
  { }

  predicate Pulse(op: Op) {
    op.OpHeartbeat? || op.OpRecordActivity?
  }

  /** The lease never shrinks and the deadline never moves. */
  predicate Extends(run: Run, run': Run) {
    && run.lease.Some? && run'.lease.Some? && run.lease.value.expiresAt <= run'.lease.value.expiresAt
    && run'.deadline == run.deadline
  }

  ghost predicate StillStands(db: Db, permit: ExecutionPermit, policy: Id, db': Db) {
    && Standing(db, permit, policy) && Standing(db', permit, policy)
    && Extends(db.runs[permit.run], db'.runs[permit.run])
  }

  lemma AdvanceStands(db: Db, now: Time, r: Id, next: Run, kind: EventKind, permit: ExecutionPermit, policy: Id)
    requires Standing(db, permit, policy) && r in db.runs && Advance(db, now, r, next, Keep, Leave, kind).Done?
             && InClass(kind, History)
    requires r == permit.run ==> StandingRow(next, permit) && Extends(db.runs[r], next)
    ensures StillStands(db, permit, policy, Advance(db, now, r, next, Keep, Leave, kind).db)
  {
    hide ValidRun, ValidCompletion, Advance, StandingRow;
    AdvanceWrites(db, now, r, next, Keep, Leave, kind);
    if r != permit.run { OtherRuns(db, now, r, next, Keep, Leave, kind, permit.run); }
    StandingLease(db.runs[permit.run], permit);
    assert CompletionOf(Advance(db, now, r, next, Keep, Leave, kind).db, permit.run) == CompletionOf(db, permit.run);
  }

  lemma StandingLease(run: Run, permit: ExecutionPermit)
    requires StandingRow(run, permit)
    ensures run.lease.Some? && run.deadline.Some?
  { }

  lemma HeartbeatStands(db: Db, now: Time, rc: Receipt, seconds: nat, permit: ExecutionPermit, policy: Id)
    requires Standing(db, permit, policy) && Heartbeat(db, now, rc, seconds).Done?
    ensures StillStands(db, permit, policy, Heartbeat(db, now, rc, seconds).db)
  {
    hide Advance, StillStands;
    AdvanceStands(db, now, rc.run, RenewedRow(db.runs[rc.run], rc.leaseOwner, seconds, now), RunHeartbeat, permit,
                  policy);
  }

  lemma ActivityStands(db: Db, now: Time, rc: Receipt, permit: ExecutionPermit, policy: Id)
    requires Standing(db, permit, policy) && RecordActivity(db, now, rc).Done?
    ensures StillStands(db, permit, policy, RecordActivity(db, now, rc).db)
  {
    hide Advance, StillStands;
    AdvanceStands(db, now, rc.run, ActiveRow(db.runs[rc.run], now), RunActivity, permit, policy);
  }

  lemma PulseStands(s: Store, o: Owner, call: Call, permit: ExecutionPermit, policy: Id)
    requires Standing(Part(s, o), permit, policy) && Pulse(call.op)
    ensures StillStands(Part(s, o), permit, policy, Part(Step(s, call), o))
  {
    hide Heartbeat, RecordActivity, NextQueue;
    var db := Part(s, o);
    StandingLease(db.runs[permit.run], permit);
    if o == call.owner && Verdict(s, call).Done? {
      var now := Now(db, call.clock);
      match call.op
      case OpHeartbeat(rc, n) => HeartbeatStands(db, now, rc, n, permit, policy);
      case OpRecordActivity(rc) => ActivityStands(db, now, rc, permit, policy);
    }
  }

  lemma {:induction false} PulsesStand(s: Store, o: Owner, calls: seq<Call>, permit: ExecutionPermit, policy: Id)
    requires Standing(Part(s, o), permit, policy) && forall i :: 0 <= i < |calls| ==> Pulse(calls[i].op)
    ensures StillStands(Part(s, o), permit, policy, Part(Play(s, calls), o))
  {
    hide Step, Part, StandingRow, Pulse;
    if calls == [] {
      StandingLease(Part(s, o).runs[permit.run], permit);
    } else {
      var front := calls[..|calls| - 1];
      PulsesStand(s, o, front, permit, policy);
      PulseStands(Play(s, front), o, calls[|calls| - 1], permit, policy);
    }
  }

  /**
   Through any interleaving of heartbeats and activity reports, by anyone, a live permit stays
   valid exactly as long as the current lease and the fixed deadline are in the future, and the
   current lease never ends before the one it replaced.
   */
  lemma PermitSurvivesPulses(s: Store, o: Owner, permit: ExecutionPermit, policy: Id, at: Time, calls: seq<Call>,
                             now: Time)
    requires PermitLive(Part(s, o), at, permit, policy) && forall i :: 0 <= i < |calls| ==> Pulse(calls[i].op)
    ensures var db, db' := Part(s, o), Part(Play(s, calls), o);
            && permit.run in db'.runs && Extends(db.runs[permit.run], db'.runs[permit.run])
            && (PermitLive(db', now, permit, policy) <==>
                  now < db'.runs[permit.run].lease.value.expiresAt && now < db.runs[permit.run].deadline.value)
  {
    hide Play, Part, PermitLive, StandingRow, Pulse;
    var db, db' := Part(s, o), Part(Play(s, calls), o);
    LiveIsStanding(db, at, permit, policy);
    PulsesStand(s, o, calls, permit, policy);
    LiveIsStanding(db', now, permit, policy);
    StandingLease(db.runs[permit.run], permit);
  }
}
