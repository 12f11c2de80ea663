/**
 The store as the program keeps it: tables updated in place inside a transaction, and an
 object whose methods commit a transaction or leave everything as it was.
 */
module AgentStore {
  import opened AgentTypes
  import opened Tables
  import opened Operations
  import opened CancelTree
  import opened Protocol
  import opened CancelPhases
  import I = Invariant
  import R = Reachable
  import P = CancelPlans

  // --- One write transaction ---------------------------------------------------------------------

  /** The open transaction of one owner; its rows change step by step. */
  class Transaction {
    var workers: map<Id, Worker>
    var runs: map<Id, Run>
    var controls: map<Id, seq<Control>>
    var completions: map<Id, Completion>
    var plans: map<Id, Plan>
    var events: seq<Event>
    var nextSequence: nat
    var progress: map<ProjectionKey, Time>
    var dispositions: map<ProjectionKey, Disposition>

    function Snapshot(): Db
      reads this
    {
      Db(workers, runs, controls, completions, plans, events, nextSequence, progress, dispositions)
    }

    constructor (db: Db)
      ensures Snapshot() == db
    {
      workers, runs, controls, completions, plans := db.workers, db.runs, db.controls, db.completions, db.plans;
      events, nextSequence, progress, dispositions := db.events, db.nextSequence, db.progress, db.dispositions;
    }

    /** `update_run`: the new row must be valid and keep the run's identity. */
    method UpdateRun(r: Id, next: Run) returns (ok: bool)
      requires r in runs
      modifies this`runs
      ensures ok <==> ValidRun(next) && SameIdentity(old(runs)[r], next)
      ensures runs == if ok then old(runs)[r := next] else old(runs)
    {
      ok := ValidRun(next) && SameIdentity(runs[r], next);
      if ok { runs := runs[r := next]; }
    }

    /** `finish_control_operation`: close whatever operation of the run is active. */
    method FinishControl(r: Id, status: ControlStatus, now: Time)
      modifies this`controls
      ensures controls == old(controls)[r := Close(Ops(old(Snapshot()), r), status, now)]
    {
      var ops := if r in controls then controls[r] else [];
      var i := |ops| - 1;
      assert ops[..|ops|] == ops;
      while 0 <= i && !ops[i].status.Active?
        invariant -1 <= i < |ops|
        invariant ActiveIndex(ops) == ActiveIndex(ops[..i + 1])
      {
        assert ops[..i + 1][..i] == ops[..i];
        i := i - 1;
      }
      if 0 <= i {
        assert ops[..i + 1][i] == ops[i];
        ops := ops[i := ops[i].(status := status, updatedAt := now, settledAt := Some(now))];
      }
      controls := controls[r := ops];
    }

    /** `insert_control_operation`: refused by the key when the run already knows the identifier. */
    method InsertControl(r: Id, op: Control) returns (ok: bool)
      modifies this`controls
      ensures ok <==> !KnownOp(Ops(old(Snapshot()), r), op.op)
      ensures controls == if ok then old(controls)[r := Ops(old(Snapshot()), r) + [op]] else old(controls)
    {
      var ops := if r in controls then controls[r] else [];
      for i := 0 to |ops|
        invariant forall k :: 0 <= k < i ==> ops[k].op != op.op
        invariant controls == old(controls)
      {
        if ops[i].op == op.op { return false; }
      }
      controls := controls[r := ops + [op]];
      return true;
    }

    /** `insert_event`: the next sequence, the worker's current row, and the run it is about. */
    method InsertEvent(w: Id, mark: Option<RunMark>, kind: EventKind, now: Time)
      requires w in workers
      modifies this`events, this`nextSequence
      ensures Snapshot() == Emit(old(Snapshot()), now, w, mark, kind)
    {
      events := events + [Event(nextSequence, w, mark, now, kind, workers[w].revision, workers[w].lifecycle)];
      nextSequence := nextSequence + 1;
    }

    /** Commit or abandon the run's completion, as its row ends. */
    method ChangeCompletion(r: Id, change: CompletionChange, revision: nat, now: Time) returns (ok: bool)
      modifies this`completions
      ensures var c := NextCompletion(CompletionOf(old(Snapshot()), r), change, revision, now);
              && (ok <==> (c.Some? ==> ValidCompletion(c.value)))
              && completions == if ok && c.Some? then old(completions)[r := c.value] else old(completions)
    {
      var c := NextCompletion(if r in completions then Some(completions[r]) else None, change, revision, now);
      ok := c.None? || ValidCompletion(c.value);
      if ok && c.Some? { completions := completions[r := c.value]; }
    }

    /** Keep, close or supersede the run's control operation. */
    method ChangeControls(r: Id, change: ControlChange, now: Time) returns (ok: bool)
      modifies this`controls
      ensures ok <==> !(change.Push? && KnownOp(Ops(old(Snapshot()), r), change.op.op))
      ensures ok ==> controls == old(controls)[r := NextControls(Ops(old(Snapshot()), r), change, now)]
    {
      hide Close, KnownOp;
      match change {
        case Keep => controls := controls[r := if r in controls then controls[r] else []];
        case Finish => FinishControl(r, Settled, now);
        case Push(op) =>
          SameIdentifiers(Ops(Snapshot(), r), Superseded, now, op.op);
          FinishControl(r, Superseded, now);
          ok := InsertControl(r, op);
          return;
      }
      return true;
    }

    /** The rows of one step; any refusal leaves the transaction to be rolled back. */
    method WriteRows(now: Time, r: Id, next: Run, control: ControlChange, completion: CompletionChange)
      returns (error: Option<Error>)
      requires r in runs
      modifies this`runs, this`controls, this`completions
      ensures var db := old(Snapshot()); var c := NextCompletion(CompletionOf(db, r), completion, next.revision, now);
              && (error.None? ==> Snapshot() == WriteRun(db, now, r, next, control, completion))
              && error == if !ValidRun(next) || !SameIdentity(db.runs[r], next)
                 || (c.Some? && !ValidCompletion(c.value)) then Some(CorruptData)
                          else if control.Push? && KnownOp(Ops(db, r), control.op.op) then Some(Constraint)
                          else None
    {
      hide ValidRun, SameIdentity, ValidCompletion, NextControls, NextCompletion, KnownOp;
      var ok := UpdateRun(r, next);
      if !ok { return Some(CorruptData); }
      ok := ChangeCompletion(r, completion, next.revision, now);
      if !ok { return Some(CorruptData); }
      ok := ChangeControls(r, control, now);
      if !ok { return Some(Constraint); }
      return None;
    }

    /** One step of one run: its rows, then the event or events that record it. */
    method Advance(now: Time, r: Id, next: Run, control: ControlChange, completion: CompletionChange, kind: EventKind)
      returns (error: Option<Error>)
      requires r in runs
      modifies this
      ensures var reference := Tables.Advance(old(Snapshot()), now, r, next, control, completion, kind);
              if error.None? then reference.Done? && Snapshot() == reference.db else reference == Rejected(error.value)
    {
      hide ValidRun, SameIdentity, ValidCompletion, WriteRun, NextCompletion, KnownOp, Emit;
      var w, abandons := runs[r].worker, Abandons(CompletionOf(Snapshot(), r), completion);
      if w !in workers { return Some(NotFound); }
      error := WriteRows(now, r, next, control, completion);
      if error.Some? { return; }
      InsertEvent(w, Some(MarkOf(r, next)), kind, now);
      if abandons { InsertEvent(w, Some(MarkOf(r, next)), CompletionAbandoned, now); }
      return None;
    }

    // --- Rows of workers and new runs ------------------------------------------------------------

    /** `update_worker` and its event. */
    method UpdateWorker(w: Id, next: Worker, kind: EventKind, now: Time)
      modifies this
      ensures Snapshot() == TouchWorker(old(Snapshot()), now, w, next, kind)
    {
      workers := workers[w := next];
      InsertEvent(w, None, kind, now);
    }

    /** `insert_run`: the new row must be valid. */
    method InsertRow(id: Id, run: Run) returns (ok: bool)
      modifies this`runs
      ensures ok <==> ValidRun(run)
      ensures runs == if ok then old(runs)[id := run] else old(runs)
    {
      ok := ValidRun(run);
      if ok { runs := runs[id := run]; }
    }

    /** The row of a new run, then its event. */
    method InsertRun(id: Id, run: Run, kind: EventKind, now: Time) returns (r: Result<Run>)
      requires run.worker in workers
      modifies this
      ensures Did(AddRun(old(Snapshot()), now, id, run, kind), Snapshot(), r)
    {
      hide ValidRun;
      var ok := InsertRow(id, run);
      if !ok { return Err(CorruptData); }
      InsertEvent(run.worker, Some(MarkOf(id, run)), kind, now);
      return Ok(run);
    }

    method CreateRoot(now: Time, q: nat, nw: NewWorker, nr: NewRun) returns (r: Result<Run>)
      modifies this
      ensures Did(Operations.CreateRoot(old(Snapshot()), now, q, nw, nr), Snapshot(), r)
    {
      hide ValidRun;
      if !nr.spec.Valid() || nr.worker != nw.id || nr.spec.parentRun.Some? { return Err(InvalidInput); }
      if nw.id in workers || nr.id in runs { return Err(AlreadyExists); }
      var run := QueuedRun(nr, now, q);
      workers := workers[nw.id := NewWorkerRow(nw, None, now)];
      var ok := InsertRow(nr.id, run);
      if !ok { return Err(CorruptData); }
      InsertEvent(nw.id, None, WorkerCreated, now);
      InsertEvent(nw.id, Some(MarkOf(nr.id, run)), RunQueued, now);
      return Ok(run);
    }

    method SpawnChild(now: Time, q: nat, parent: Id, expectedRevision: nat, nw: NewWorker, nr: NewRun)
      returns (r: Result<Run>)
      modifies this
      ensures Did(Operations.SpawnChild(old(Snapshot()), now, q, parent, expectedRevision, nw, nr), Snapshot(), r)
    {
      hide ValidRun;
      if !nr.spec.Valid() || nw.id == parent || nr.worker != nw.id { return Err(InvalidInput); }
      if parent !in workers { return Err(NotFound); }
      var p := workers[parent];
      if p.revision != expectedRevision { return Err(Conflict); }
      if !p.lifecycle.Open? { return Err(InvalidTransition); }
      if nw.id in workers || nr.id in runs { return Err(AlreadyExists); }
      if nr.spec.parentRun.Some? {
        if nr.spec.parentRun.value !in runs { return Err(NotFound); }
        if runs[nr.spec.parentRun.value].worker != parent { return Err(InvalidInput); }
      }
      var run := QueuedRun(nr, now, q);
      workers := workers[parent := p.(revision := p.revision + 1, updatedAt := now)];
      workers := workers[nw.id := NewWorkerRow(nw, Some(parent), now)];
      var ok := InsertRow(nr.id, run);
      if !ok { return Err(CorruptData); }
      InsertEvent(parent, None, ChildSpawned, now);
      InsertEvent(nw.id, None, WorkerCreated, now);
      InsertEvent(nw.id, Some(MarkOf(nr.id, run)), RunQueued, now);
      return Ok(run);
    }

    method EnqueueRun(now: Time, q: nat, nr: NewRun) returns (r: Result<Run>)
      modifies this
      ensures Did(Operations.EnqueueRun(old(Snapshot()), now, q, nr), Snapshot(), r)
    {
      hide ValidRun, AddRun;
      if !nr.spec.Valid() { return Err(InvalidInput); }
      if nr.worker !in workers { return Err(NotFound); }
      if !workers[nr.worker].lifecycle.Open? { return Err(InvalidTransition); }
      if nr.id in runs { return Err(AlreadyExists); }
      if nr.spec.parentRun.Some? && nr.spec.parentRun.value !in runs { return Err(NotFound); }
      r := InsertRun(nr.id, QueuedRun(nr, now, q), RunQueued, now);
    }

    method EnqueueResume(now: Time, q: nat, req: ResumeRequest) returns (r: Result<Run>)
      modifies this
      ensures Did(Operations.EnqueueResume(old(Snapshot()), now, q, req), Snapshot(), r)
    {
      hide ValidRun, AddRun;
      if req.newRun in runs { return Err(AlreadyExists); }
      if req.source !in runs { return Err(NotFound); }
      var source := runs[req.source];
      if !source.spec.backend.Claimable() || !source.ResumeEligible() { return Err(ResumeRejected); }
      if source.worker !in workers { return Err(NotFound); }
      var worker := workers[source.worker];
      if !worker.lifecycle.Open? || worker.session != Some(req.proof.session) || source.spec.policy != req.policy
         || source.binding != Some(req.proof.binding) || exists x :: x in runs && runs[x].resumeOf == Some(req.source)
      {
        return Err(ResumeRejected);
      }
      r := InsertRun(req.newRun, ResumedRun(req.source, source, req.availableAt, now, q), ResumeQueued, now);
    }

    method ReleaseWorker(now: Time, w: Id, expectedRevision: nat) returns (r: Result<Worker>)
      modifies this
      ensures Did(Operations.ReleaseWorker(old(Snapshot()), now, w, expectedRevision), Snapshot(), r)
    {
      hide ValidWorker;
      if w !in workers { return Err(NotFound); }
      var before := workers[w];
      if before.revision != expectedRevision { return Err(Conflict); }
      if !before.lifecycle.Draining? { return Err(InvalidTransition); }
      if exists x :: x in runs && runs[x].worker == w && !runs[x].state.Terminal() { return Err(InvalidTransition); }
      if exists c :: c in workers && workers[c].parent == Some(w) && !workers[c].lifecycle.Released? {
        return Err(InvalidInput);
      }
      var next := before.(lifecycle := Released, releasedAt := Some(now), updatedAt := now,
                          revision := before.revision + 1);
      if !ValidWorker(w, next) { return Err(CorruptData); }
      UpdateWorker(w, next, WorkerReleased, now);
      return Ok(next);
    }

    // --- Activity, bindings and completions ------------------------------------------------------

    method RecordActivity(now: Time, receipt: Receipt) returns (r: Result<ClaimedRun>)
      modifies this
      ensures Did(Operations.RecordActivity(old(Snapshot()), now, receipt), Snapshot(), r)
    {
      hide Tables.Advance, ReceiptMatches;
      var refused := ReceiptError(Snapshot(), now, receipt, {Running});
      if refused.Some? { return Err(refused.value); }
      if receipt.run in completions { return Err(InvalidReceipt); }
      var next := ActiveRow(runs[receipt.run], now);
      AdvanceValue(Snapshot(), now, receipt.run, next, Keep, Leave, RunActivity);
      var error := Advance(now, receipt.run, next, Keep, Leave, RunActivity);
      if error.Some? { return Err(error.value); }
      return Ok(ClaimedRun(next, ReceiptFor(receipt.run, next, receipt.leaseOwner, receipt.token)));
    }

    method BindResume(now: Time, receipt: Receipt, proof: SessionProof) returns (r: Result<ClaimedRun>)
      modifies this
      ensures Did(Operations.BindResume(old(Snapshot()), now, receipt, proof), Snapshot(), r)
    {
      hide Tables.Advance, ReceiptMatches;
      var refused := ReceiptError(Snapshot(), now, receipt, {Running});
      if refused.Some? { return Err(refused.value); }
      if receipt.run in completions { return Err(InvalidReceipt); }
      var before := runs[receipt.run];
      if before.worker !in workers { return Err(NotFound); }
      if workers[before.worker].session != Some(proof.session) { return Err(InvalidInput); }
      if before.binding.Some? {
        if before.binding.value != proof.binding { return Err(InvalidInput); }
        return Ok(ClaimedRun(before, receipt));
      }
      var next := BoundRow(before, proof.binding, now);
      AdvanceValue(Snapshot(), now, receipt.run, next, Keep, Leave, ResumeBound);
      var error := Advance(now, receipt.run, next, Keep, Leave, ResumeBound);
      if error.Some? { return Err(error.value); }
      return Ok(ClaimedRun(next, ReceiptFor(receipt.run, next, receipt.leaseOwner, receipt.token)));
    }

    method PrepareCompletion(now: Time, permit: ExecutionPermit, content: Content)
      returns (r: Result<(Completion, CompletionPermit)>)
      modifies this
      ensures Did(Operations.PrepareCompletion(old(Snapshot()), now, permit, content), Snapshot(), r)
    {
      hide ValidCompletion, Occupied;
      if permit.run !in runs || permit.worker !in workers || !PermitHolds(Snapshot(), now, permit) {
        return Err(InvalidExecutionPermit);
      }
      var run, token := runs[permit.run], CompletionToken(permit.token, permit.run, content.completion);
      if permit.run in completions {
        var existing := completions[permit.run];
        if !existing.status.Prepared? || existing.worker != permit.worker
           || existing.generation != permit.generation || existing.content != content
        {
          return Err(CompletionConflict);
        }
        return Ok((existing, CompletionPermitFor(permit.run, existing, token)));
      }
      if Occupied(Snapshot(), content) { return Err(CompletionConflict); }
      var c := PreparedRow(run, content, token, now);
      if !ValidCompletion(c) { return Err(CorruptData); }
      completions := completions[permit.run := c];
      InsertEvent(run.worker, Some(MarkOf(permit.run, run)), CompletionPrepared, now);
      return Ok((c, CompletionPermitFor(permit.run, c, token)));
    }

    /** End the run as succeeded and commit its completion with it. */
    method CommitRows(now: Time, id: Id, next: Run, control: ControlChange, via: Option<Id>)
      returns (r: Result<(Run, Completion)>)
      requires id in runs
      modifies this
      ensures var advanced := Tables.Advance(old(Snapshot()), now, id, next, control, Commit(via), CompletionCommitted);
              Did(WithCompletion(advanced, id), Snapshot(), r)
    {
      hide Tables.Advance;
      AdvanceValue(Snapshot(), now, id, next, control, Commit(via), CompletionCommitted);
      var error := Advance(now, id, next, control, Commit(via), CompletionCommitted);
      if error.Some? { return Err(error.value); }
      if id !in completions { return Err(CorruptData); }
      return Ok((next, completions[id]));
    }

    method CommitCompletion(now: Time, permit: CompletionPermit) returns (r: Result<(Run, Completion)>)
      modifies this
      ensures Did(Operations.CommitCompletion(old(Snapshot()), now, permit), Snapshot(), r)
    {
      hide Tables.Advance, PermitOwns, WithCompletion, MayCommitLive;
      var id := permit.run;
      if id !in completions || !PermitOwns(completions[id], permit) || id !in runs {
        return Err(InvalidCompletionPermit);
      }
      var before, c := runs[id], completions[id];
      if c.status.Committed? && before.state.Succeeded? && before.spec.backend == c.backend { return Ok((before, c)); }
      if !MayCommitLive(Snapshot(), now, id) { return Err(InvalidCompletionPermit); }
      r := CommitRows(now, id, EndedRow(before, Succeeded, before.failure, now), Keep, None);
    }

    method CommitRecovered(now: Time, t: RecoveryTicket, completion: Id) returns (r: Result<(Run, Completion)>)
      modifies this
      ensures Did(Operations.CommitRecovered(old(Snapshot()), now, t, completion), Snapshot(), r)
    {
      hide Tables.Advance, WithCompletion, RecoveryTicketLive, SettledRecovery;
      if t.generation == 0 || !t.reason.LeaseExpired? { return Err(InvalidRecoveryTicket); }
      if t.run !in runs { return Err(NotFound); }
      if t.run !in completions { return Err(InvalidCompletionPermit); }
      var before, c := runs[t.run], completions[t.run];
      if before.state.Succeeded? && c.status.Committed? && c.content.completion == completion
         && c.committedBy == Some(t.op) && before.spec.backend == c.backend
         && SettledRecovery(Ops(Snapshot(), t.run), t)
      {
        return Ok((before, c));
      }
      if !RecoveryTicketLive(Snapshot(), now, t) || !c.status.Prepared? || c.content.completion != completion
         || c.generation != t.generation || before.spec.backend != c.backend
      {
        return Err(InvalidRecoveryTicket);
      }
      r := CommitRows(now, t.run, EndedRow(before, Succeeded, None, now), Finish, Some(t.op));
    }

    // --- Projection state ------------------------------------------------------------------------

    method MarkProjected(now: Time, key: ProjectionKey) returns (r: Result<()>)
      modifies this`progress, this`dispositions
      ensures Did(Operations.MarkProjected(old(Snapshot()), now, key), Snapshot(), r)
    {
      if !KnownEvent(Snapshot(), key.sequence) { return Err(NotFound); }
      if key !in progress { progress := progress[key := ProjectedAt(Snapshot(), now, key.sequence)]; }
      dispositions := dispositions - {key};
      return Ok(());
    }

    method DeferProjection(now: Time, key: ProjectionKey, reason: DeferReason, delay: nat) returns (r: Result<()>)
      modifies this`dispositions
      ensures Did(Operations.DeferProjection(old(Snapshot()), now, key, reason, delay), Snapshot(), r)
    {
      if !(0 < delay <= MAX_PROJECTION_DEFER_MILLIS) { return Err(InvalidInput); }
      if !KnownEvent(Snapshot(), key.sequence) { return Err(NotFound); }
      if key in progress { return Ok(()); }
      var recorded := ProjectedAt(Snapshot(), now, key.sequence);
      var row := Deferred(reason, recorded + delay, recorded);
      if key in dispositions {
        match dispositions[key]
        case Quarantined(_, _) => row := dispositions[key];
        case Deferred(_, notBefore, at) =>
          row := Deferred(reason, Later(notBefore, recorded + delay), Later(at, recorded));
      }
      dispositions := dispositions[key := row];
      return Ok(());
    }

    method QuarantineProjection(now: Time, key: ProjectionKey, reason: QuarantineReason) returns (r: Result<()>)
      modifies this`dispositions
      ensures Did(Operations.QuarantineProjection(old(Snapshot()), now, key, reason), Snapshot(), r)
    {
      if !KnownEvent(Snapshot(), key.sequence) { return Err(NotFound); }
      if key in progress { return Ok(()); }
      var recorded := ProjectedAt(Snapshot(), now, key.sequence);
      var row := Quarantined(reason, recorded);
      if key in dispositions {
        match dispositions[key]
        case Quarantined(kept, at) => row := Quarantined(kept, Later(at, recorded));
        case Deferred(_, _, at) => row := Quarantined(reason, Later(at, recorded));
      }
      dispositions := dispositions[key := row];
      return Ok(());
    }
  }

  /** A method of a transaction did what its definition says; after an error it is rolled back. */
  ghost predicate Did<T(!new)>(reference: Outcome<T>, after: Db, r: Result<T>) {
    reference == match r case Ok(value) => Done(after, value) case Err(error) => Rejected(error)
  }

  lemma AdvanceValue(db: Db, now: Time, r: Id, next: Run, control: ControlChange, completion: CompletionChange,
                     kind: EventKind)
    requires r in db.runs
    ensures Tables.Advance(db, now, r, next, control, completion, kind).Done? ==>
              Tables.Advance(db, now, r, next, control, completion, kind).value == next
  {
    hide ValidRun, SameIdentity, ValidCompletion, WriteRun, NextCompletion, KnownOp, Emit;
  }

  /** Closing an operation keeps every identifier. */
  lemma SameIdentifiers(ops: seq<Control>, status: ControlStatus, now: Time, op: Id)
    ensures KnownOp(Close(ops, status, now), op) <==> KnownOp(ops, op)
  {
    var closed := Close(ops, status, now);
    assert |closed| == |ops| && forall i :: 0 <= i < |ops| ==> closed[i].op == ops[i].op;
  }

  // --- The store ---------------------------------------------------------------------------------

  function Answer<T>(out: Outcome<T>): Result<T> {
    if out.Done? then Ok(out.value) else Err(out.error)
  }

  /** A method did exactly what its definition says: commit and answer, or refuse and change nothing. */
  ghost predicate Performed<T(!new)>(before: Store, owner: Owner, out: Outcome<T>, after: Store, r: Result<T>) {
    after == (if out.Done? then before[owner := out.db] else before) && r == Answer(out)
  }

  lemma PerformedKeeps<T(!new)>(before: Store, call: Call, out: Outcome<T>, after: Store, r: Result<T>)
    requires Performed(before, call.owner, out, after, r) && Verdict(before, call) == Forget(out)
    requires R.StoreInv(before)
    ensures R.StoreInv(after) && after == Step(before, call)
  {
    hide R.StoreInv, Verdict;
    R.StepKeeps(before, call);
  }

  // --- Pages of runs -----------------------------------------------------------------------------

  /** A refusal part way through a page is the refusal of the whole. */
  lemma {:induction false} ClaimRefusalStays(db: Db, now: Time, ids: seq<Id>, lease: Lease, seed: nat, i: nat)
    requires i <= |ids| && ClaimAll(db, now, ids[..i], lease, seed).Rejected?
    ensures ClaimAll(db, now, ids, lease, seed) == ClaimAll(db, now, ids[..i], lease, seed)
    decreases |ids| - i
  {
    hide ClaimOne;
    if i < |ids| {
      assert ids[..i + 1][..i] == ids[..i];
      ClaimRefusalStays(db, now, ids, lease, seed, i + 1);
    } else {
      assert ids[..i] == ids;
    }
  }

  /** Claim one selected run inside the transaction. */
  method ClaimInside(txn: Transaction, now: Time, r: Id, lease: Lease, token: Token) returns (out: Result<ClaimedRun>)
    modifies txn
    ensures var reference := ClaimOne(old(txn.Snapshot()), now, r, lease, token);
            if out.Ok? then reference == Done(txn.Snapshot(), out.value) else reference == Rejected(out.error)
  {
    hide ValidRun, SameIdentity, ValidCompletion, NextControls, NextCompletion, KnownOp, NextGeneration;
    if r !in txn.runs { return Err(NotFound); }
    var before := txn.runs[r];
    if before.worker !in txn.workers { return Err(NotFound); }
    if !before.state.Queued? || !txn.workers[before.worker].lifecycle.Open? { return Err(CorruptData); }
    var next := ClaimedRow(before, NextGeneration(txn.Snapshot(), before.worker), now, lease, token);
    var error := txn.Advance(now, r, next, Keep, Leave, RunClaimed);
    if error.Some? { return Err(error.value); }
    return Ok(ClaimedRun(next, ReceiptFor(r, next, lease.owner, token)));
  }

  /** The loop of `claim_due` over the selected page. */
  method ClaimPage(txn: Transaction, now: Time, ids: seq<Id>, lease: Lease, seed: nat)
    returns (out: Result<seq<ClaimedRun>>)
    modifies txn
    ensures var reference := ClaimAll(old(txn.Snapshot()), now, ids, lease, seed);
            if out.Ok? then reference == Done(txn.Snapshot(), out.value) else reference == Rejected(out.error)
  {
    hide ClaimOne;
    ghost var db := txn.Snapshot();
    var claimed: seq<ClaimedRun> := [];
    for i := 0 to |ids|
      invariant ClaimAll(db, now, ids[..i], lease, seed) == Done(txn.Snapshot(), claimed)
    {
      assert ids[..i + 1][..i] == ids[..i];
      var one := ClaimInside(txn, now, ids[i], lease, Minted(seed + ids[i]));
      if one.Err? {
        ClaimRefusalStays(db, now, ids, lease, seed, i + 1);
        return Err(one.error);
      }
      claimed := claimed + [one.value];
    }
    assert ids[..|ids|] == ids;
    return Ok(claimed);
  }

  lemma {:induction false} RecoverRefusalStays(db: Db, now: Time, ids: seq<Id>, reconciler: Id, expiresAt: Time,
                                               seed: nat, i: nat)
    requires i <= |ids| && RecoverAll(db, now, ids[..i], reconciler, expiresAt, seed).Rejected?
    ensures RecoverAll(db, now, ids, reconciler, expiresAt, seed)
            == RecoverAll(db, now, ids[..i], reconciler, expiresAt, seed)
    decreases |ids| - i
  {
    hide RecoverOne;
    if i < |ids| {
      assert ids[..i + 1][..i] == ids[..i];
      RecoverRefusalStays(db, now, ids, reconciler, expiresAt, seed, i + 1);
    } else {
      assert ids[..i] == ids;
    }
  }

  /** Fence one selected run inside the transaction and hand out its recovery ticket. */
  method RecoverInside(txn: Transaction, now: Time, r: Id, reconciler: Id, expiresAt: Time, op: Id, token: Token)
    returns (out: Result<RecoveryTicket>)
    modifies txn
    ensures var reference := RecoverOne(old(txn.Snapshot()), now, r, reconciler, expiresAt, op, token);
            if out.Ok? then reference == Done(txn.Snapshot(), out.value) else reference == Rejected(out.error)
  {
    hide ValidRun, SameIdentity, ValidCompletion, NextControls, NextCompletion, KnownOp, RecoveryKind;
    if r !in txn.runs { return Err(NotFound); }
    var kind := RecoveryKind(txn.Snapshot(), now, r);
    if kind.None? || kind.value.Cancel? { return Err(CorruptData); }
    var next := FencedRow(txn.runs[r], now);
    var control := NewControl(op, kind.value, next, reconciler, expiresAt, token, now);
    var error := txn.Advance(now, r, next, Push(control), Leave, RecoveryRequested);
    if error.Some? { return Err(error.value); }
    return Ok(RecoveryTicket(op, next.worker, r, next.generation, next.revision, next.controller, kind.value.reason,
                             reconciler, expiresAt, token));
  }

  /** The loop of `claim_recovery_due` over the selected page. */
  method RecoverPage(txn: Transaction, now: Time, ids: seq<Id>, reconciler: Id, expiresAt: Time, seed: nat)
    returns (out: Result<seq<RecoveryTicket>>)
    modifies txn
    ensures var reference := RecoverAll(old(txn.Snapshot()), now, ids, reconciler, expiresAt, seed);
            if out.Ok? then reference == Done(txn.Snapshot(), out.value) else reference == Rejected(out.error)
  {
    hide RecoverOne;
    ghost var db := txn.Snapshot();
    var tickets: seq<RecoveryTicket> := [];
    for i := 0 to |ids|
      invariant RecoverAll(db, now, ids[..i], reconciler, expiresAt, seed) == Done(txn.Snapshot(), tickets)
    {
      assert ids[..i + 1][..i] == ids[..i];
      var n := seed + ids[i];
      var one := RecoverInside(txn, now, ids[i], reconciler, expiresAt, n, Minted(n));
      if one.Err? {
        RecoverRefusalStays(db, now, ids, reconciler, expiresAt, seed, i + 1);
        return Err(one.error);
      }
      tickets := tickets + [one.value];
    }
    assert ids[..|ids|] == ids;
    return Ok(tickets);
  }

  // --- Any operation -----------------------------------------------------------------------------

  function ErrorOf<T>(r: Result<T>): Option<Error> {
    match r case Ok(_) => None case Err(error) => Some(error)
  }

  /** The transaction holds what the operation commits, or the operation is refused for this reason. */
  ghost predicate Carried(reference: Outcome<()>, after: Db, refused: Option<Error>) {
    reference == match refused case None => Done(after, ()) case Some(error) => Rejected(error)
  }

  predicate Creates(op: Op) {
    op.OpCreateRoot? || op.OpSpawnChild? || op.OpEnqueueRun? || op.OpEnqueueResume?
  }

  predicate Touches(op: Op) {
    op.OpRecordActivity? || op.OpBindResume? || op.OpRelease?
  }

  predicate Completes(op: Op) {
    op.OpPrepare? || op.OpCommit? || op.OpCommitRecovered?
  }

  predicate Projects(op: Op) {
    op.OpMarkProjected? || op.OpDefer? || op.OpQuarantine?
  }

  method Create(txn: Transaction, now: Time, q: nat, op: Op) returns (refused: Option<Error>)
    requires Creates(op)
    modifies txn
    ensures Carried(Attempt(old(txn.Snapshot()), now, q, op), txn.Snapshot(), refused)
  {
    hide Operations.CreateRoot, Operations.SpawnChild, Operations.EnqueueRun, Operations.EnqueueResume;
    ghost var db := txn.Snapshot();
    var r;
    match op {
      case OpCreateRoot(nw, nr) => r := txn.CreateRoot(now, q, nw, nr);
      case OpSpawnChild(p, revision, nw, nr) => r := txn.SpawnChild(now, q, p, revision, nw, nr);
      case OpEnqueueRun(nr) => r := txn.EnqueueRun(now, q, nr);
      case OpEnqueueResume(request) => r := txn.EnqueueResume(now, q, request);
    }
    return ErrorOf(r);
  }

  method Complete(txn: Transaction, now: Time, q: nat, op: Op) returns (refused: Option<Error>)
    requires Completes(op)
    modifies txn
    ensures Carried(Attempt(old(txn.Snapshot()), now, q, op), txn.Snapshot(), refused)
  {
    hide Operations.PrepareCompletion, Operations.CommitCompletion, Operations.CommitRecovered;
    match op {
      case OpPrepare(permit, content) =>
        var r := txn.PrepareCompletion(now, permit, content);
        return ErrorOf(r);
      case OpCommit(permit) =>
        var r := txn.CommitCompletion(now, permit);
        return ErrorOf(r);
      case OpCommitRecovered(t, completion) =>
        var r := txn.CommitRecovered(now, t, completion);
        return ErrorOf(r);
    }
  }

  method Project(txn: Transaction, now: Time, q: nat, op: Op) returns (refused: Option<Error>)
    requires Projects(op)
    modifies txn
    ensures Carried(Attempt(old(txn.Snapshot()), now, q, op), txn.Snapshot(), refused)
  {
    hide Operations.MarkProjected, Operations.DeferProjection, Operations.QuarantineProjection;
    var r;
    match op {
      case OpMarkProjected(key) => r := txn.MarkProjected(now, key);
      case OpDefer(key, reason, delay) => r := txn.DeferProjection(now, key, reason, delay);
      case OpQuarantine(key, reason) => r := txn.QuarantineProjection(now, key, reason);
    }
    return ErrorOf(r);
  }

  method Touch(txn: Transaction, now: Time, q: nat, op: Op) returns (refused: Option<Error>)
    requires Touches(op)
    modifies txn
    ensures Carried(Attempt(old(txn.Snapshot()), now, q, op), txn.Snapshot(), refused)
  {
    hide Operations.RecordActivity, Operations.BindResume, Operations.ReleaseWorker;
    match op {
      case OpRecordActivity(receipt) =>
        var r := txn.RecordActivity(now, receipt);
        return ErrorOf(r);
      case OpBindResume(receipt, proof) =>
        var r := txn.BindResume(now, receipt, proof);
        return ErrorOf(r);
      case OpRelease(w, revision) =>
        var r := txn.ReleaseWorker(now, w, revision);
        return ErrorOf(r);
    }
  }

  /** The operations that change a fixed number of rows. */
  predicate FewRows(op: Op) {
    Creates(op) || Touches(op) || Completes(op) || Projects(op)
  }

  method Perform(txn: Transaction, now: Time, q: nat, op: Op) returns (refused: Option<Error>)
    requires FewRows(op)
    modifies txn
    ensures Carried(Attempt(old(txn.Snapshot()), now, q, op), txn.Snapshot(), refused)
  {
    hide Attempt, Carried;
    if Creates(op) {
      refused := Create(txn, now, q, op);
    } else if Touches(op) {
      refused := Touch(txn, now, q, op);
    } else if Completes(op) {
      refused := Complete(txn, now, q, op);
    } else {
      refused := Project(txn, now, q, op);
    }
  }

  /** The call was carried out: the store moved one step, and a refusal names its reason. */
  ghost predicate Executed(before: Store, call: Call, after: Store, refused: Option<Error>) {
    && after == Step(before, call)
    && refused == match Verdict(before, call) case Rejected(e) => Some(e) case Done(_, _) => None
  }

  lemma PerformedIsExecuted<T(!new)>(before: Store, call: Call, out: Outcome<T>, after: Store, r: Result<T>)
    requires Performed(before, call.owner, out, after, r) && Verdict(before, call) == Forget(out)
    ensures Executed(before, call, after, ErrorOf(r))
  {
    hide Verdict;
  }

  class SqliteAgentStore {
    var parts: Store

    ghost predicate Valid()
      reads this
    {
      R.StoreInv(parts)
    }

    constructor ()
      ensures Valid() && parts == map[]
    {
      parts := map[];
      new;
      R.EmptyStoreOk();
    }

    /** One step of one run, in a transaction of its own. */
    method Move(owner: Owner, now: Time, r: Id, next: Run, control: ControlChange, completion: CompletionChange,
                kind: EventKind)
      returns (error: Option<Error>)
      requires r in Part(parts, owner).runs
      modifies this
      ensures var reference := Tables.Advance(Part(old(parts), owner), now, r, next, control, completion, kind);
              if error.None? then reference.Done? && reference.value == next
                  && parts == old(parts)[owner := reference.db]
              else reference == Rejected(error.value) && parts == old(parts)
    {
      hide ValidRun, SameIdentity, ValidCompletion, NextControls, NextCompletion, KnownOp;
      var txn := new Transaction(Part(parts, owner));
      error := txn.Advance(now, r, next, control, completion, kind);
      if error.None? { parts := parts[owner := txn.Snapshot()]; }
    }

    method Start(owner: Owner, clock: Time, receipt: Receipt, controller: Controller) returns (r: Result<ClaimedRun>)
      requires Valid()
      modifies this
      ensures Valid()
      ensures var db := Part(old(parts), owner);
              Performed(old(parts), owner, Operations.Start(db, Now(db, clock), receipt, controller), parts, r)
    {
      hide R.StoreInv, Tables.Advance, ReceiptMatches;
      ghost var before, call := parts, Call(owner, clock, OpStart(receipt, controller));
      var db := Part(parts, owner);
      var now := Now(db, clock);
      var refused := ReceiptError(db, now, receipt, {Starting});
      if refused.Some? { return Err(refused.value); }
      if db.runs[receipt.run].spec.backend.Controller() != Some(controller.kind) { return Err(InvalidInput); }
      var next := StartedRow(db.runs[receipt.run], controller, now);
      var error := Move(owner, now, receipt.run, next, Keep, Leave, RunStarted);
      r := if error.Some? then Err(error.value)
          else Ok(ClaimedRun(next, ReceiptFor(receipt.run, next, receipt.leaseOwner, receipt.token)));
      PerformedKeeps(before, call, Operations.Start(db, now, receipt, controller), parts, r);
    }

    method Heartbeat(owner: Owner, clock: Time, receipt: Receipt, seconds: nat) returns (r: Result<ClaimedRun>)
      requires Valid()
      modifies this
      ensures Valid()
      ensures var db := Part(old(parts), owner);
              Performed(old(parts), owner, Operations.Heartbeat(db, Now(db, clock), receipt, seconds), parts, r)
    {
      hide R.StoreInv, Tables.Advance;
      ghost var before, call := parts, Call(owner, clock, OpHeartbeat(receipt, seconds));
      var db := Part(parts, owner);
      var now := Now(db, clock);
      if !ValidLease(seconds) { return Err(InvalidInput); }
      var refused := ReceiptError(db, now, receipt, {Running});
      if refused.Some? { return Err(refused.value); }
      var next := RenewedRow(db.runs[receipt.run], receipt.leaseOwner, seconds, now);
      var error := Move(owner, now, receipt.run, next, Keep, Leave, RunHeartbeat);
      r := if error.Some? then Err(error.value)
          else Ok(ClaimedRun(next, ReceiptFor(receipt.run, next, receipt.leaseOwner, receipt.token)));
      PerformedKeeps(before, call, Operations.Heartbeat(db, now, receipt, seconds), parts, r);
    }

    method Settle(owner: Owner, clock: Time, receipt: Receipt, settlement: Settlement) returns (r: Result<Run>)
      requires Valid()
      modifies this
      ensures Valid()
      ensures var db := Part(old(parts), owner);
              Performed(old(parts), owner, Operations.Settle(db, Now(db, clock), receipt, settlement), parts, r)
    {
      hide R.StoreInv, Tables.Advance, ReceiptMatches;
      ghost var before, call := parts, Call(owner, clock, OpSettle(receipt, settlement));
      var db := Part(parts, owner);
      var now := Now(db, clock);
      var split := SettlementParts(settlement);
      if split.None? { return Err(InvalidInput); }
      var refused := ReceiptError(db, now, receipt, {Starting, Running});
      if refused.Some? { return Err(refused.value); }
      var next := EndedRow(db.runs[receipt.run], split.value.0, Some(split.value.1), now);
      var error := Move(owner, now, receipt.run, next, Keep, Abandon, RunSettled);
      r := if error.Some? then Err(error.value) else Ok(next);
      PerformedKeeps(before, call, Operations.Settle(db, now, receipt, settlement), parts, r);
    }

    method SettleCancel(owner: Owner, clock: Time, t: CancelTicket, outcome: CancelOutcome) returns (r: Result<Run>)
      requires Valid()
      modifies this
      ensures Valid()
      ensures var db := Part(old(parts), owner);
              Performed(old(parts), owner, Operations.SettleCancel(db, Now(db, clock), t, outcome), parts, r)
    {
      hide R.StoreInv, Tables.Advance, CancelTicketLive;
      ghost var before, call := parts, Call(owner, clock, OpSettleCancel(t, outcome));
      var db := Part(parts, owner);
      var now := Now(db, clock);
      if t.run !in db.runs { return Err(NotFound); }
      if !CancelTicketLive(db, now, t) { return Err(InvalidCancelTicket); }
      var verdict := CancelVerdict(outcome);
      var next := EndedRow(db.runs[t.run], verdict.0, Some(verdict.1), now);
      var error := Move(owner, now, t.run, next, Finish, Abandon, CancelSettled);
      r := if error.Some? then Err(error.value) else Ok(next);
      PerformedKeeps(before, call, Operations.SettleCancel(db, now, t, outcome), parts, r);
    }

    method ConfirmControllerGone(owner: Owner, clock: Time, t: RecoveryTicket) returns (r: Result<Run>)
      requires Valid()
      modifies this
      ensures Valid()
      ensures var db := Part(old(parts), owner);
              Performed(old(parts), owner, ConfirmGone(db, Now(db, clock), t), parts, r)
    {
      hide R.StoreInv, Tables.Advance, RecoveryTicketLive;
      ghost var before, call := parts, Call(owner, clock, OpConfirmGone(t));
      var db := Part(parts, owner);
      var now := Now(db, clock);
      if t.generation == 0 { return Err(InvalidRecoveryTicket); }
      if t.run !in db.runs { return Err(NotFound); }
      if !RecoveryTicketLive(db, now, t) { return Err(InvalidRecoveryTicket); }
      var verdict := GoneVerdict(t.reason);
      var next := EndedRow(db.runs[t.run], verdict.0, Some(verdict.1), now);
      var error := Move(owner, now, t.run, next, Finish, Abandon, RecoverySettled);
      r := if error.Some? then Err(error.value) else Ok(next);
      PerformedKeeps(before, call, ConfirmGone(db, now, t), parts, r);
    }

    method ClaimDue(owner: Owner, clock: Time, backend: Backend, leaseOwner: Id, seconds: nat, limit: nat, seed: nat)
      returns (r: Result<seq<ClaimedRun>>)
      requires Valid()
      modifies this
      ensures Valid()
      ensures var db := Part(old(parts), owner);
              Performed(old(parts), owner,
                        Operations.ClaimDue(db, Now(db, clock), backend, leaseOwner, seconds, limit, seed), parts, r)
    {
      hide R.StoreInv, ClaimAll, ClaimQueue;
      ghost var before, call := parts, Call(owner, clock, OpClaimDue(backend, leaseOwner, seconds, limit, seed));
      var db := Part(parts, owner);
      var now := Now(db, clock);
      if !backend.Claimable() || !ValidLease(seconds) || !(1 <= limit <= MAX_PAGE_SIZE) { return Err(InvalidInput); }
      var txn := new Transaction(db);
      r := ClaimPage(txn, now, Page(ClaimQueue(db, now, backend), limit), Lease(leaseOwner, After(now, seconds)), seed);
      if r.Ok? { parts := parts[owner := txn.Snapshot()]; }
      PerformedKeeps(before, call, Operations.ClaimDue(db, now, backend, leaseOwner, seconds, limit, seed), parts, r);
    }

    method ClaimRecoveryDue(owner: Owner, clock: Time, reconciler: Id, seconds: nat, limit: nat, seed: nat)
      returns (r: Result<seq<RecoveryTicket>>)
      requires Valid()
      modifies this
      ensures Valid()
      ensures var db := Part(old(parts), owner);
              Performed(old(parts), owner, ClaimRecovery(db, Now(db, clock), reconciler, seconds, limit, seed), parts,
                        r)
    {
      hide R.StoreInv, RecoverAll, RecoveryQueue;
      ghost var before, call := parts, Call(owner, clock, OpClaimRecovery(reconciler, seconds, limit, seed));
      var db := Part(parts, owner);
      var now := Now(db, clock);
      if !ValidLease(seconds) || !(1 <= limit <= MAX_PAGE_SIZE) { return Err(InvalidInput); }
      var txn := new Transaction(db);
      r := RecoverPage(txn, now, Page(RecoveryQueue(db, now), limit), reconciler, After(now, seconds), seed);
      if r.Ok? { parts := parts[owner := txn.Snapshot()]; }
      PerformedKeeps(before, call, ClaimRecovery(db, now, reconciler, seconds, limit, seed), parts, r);
    }

    /** The two-phase request. */
    method CancelTree(owner: Owner, clock: Time, root: Id, req: CancelRequest, seed: nat)
      returns (r: Result<CancelPlan>)
      requires Valid()
      modifies this
      ensures Valid()
      ensures var db := Part(old(parts), owner);
              Performed(old(parts), owner, RequestCancelTree(db, Now(db, clock), root, req, seed), parts, r)
    {
      hide I.Inv, R.StoreInv, RequestCancelTree, P.F.Acyclic;
      ghost var before, call := parts, Call(owner, clock, OpCancelTree(root, req, seed));
      R.PartInv(parts, owner);
      var db := Part(parts, owner);
      var now := Now(db, clock);
      P.AcyclicWorkers(db);
      var out := RequestInPhases(db, now, root, req, seed);
      if out.Done? { parts := parts[owner := out.db]; }
      r := Answer(out);
      PerformedKeeps(before, call, out, parts, r);
    }

    /** Runs of one controller: receipts and tickets. */
    method ExecuteMove(call: Call) returns (refused: Option<Error>)
      requires Valid()
      requires call.op.OpStart? || call.op.OpHeartbeat? || call.op.OpSettle? || call.op.OpSettleCancel?
               || call.op.OpConfirmGone?
      modifies this
      ensures Valid() && Executed(old(parts), call, parts, refused)
    {
      hide R.StoreInv, Operations.Start, Operations.Heartbeat, Operations.Settle, Operations.SettleCancel, ConfirmGone,
           NextQueue, Performed, Executed;
      var owner, clock := call.owner, call.clock;
      ghost var before, db := parts, Part(parts, call.owner);
      ghost var now := Now(db, clock);
      match call.op {
        case OpStart(receipt, controller) =>
          var r := Start(owner, clock, receipt, controller);
          PerformedIsExecuted(before, call, Operations.Start(db, now, receipt, controller), parts, r);
          return ErrorOf(r);
        case OpHeartbeat(receipt, seconds) =>
          var r := Heartbeat(owner, clock, receipt, seconds);
          PerformedIsExecuted(before, call, Operations.Heartbeat(db, now, receipt, seconds), parts, r);
          return ErrorOf(r);
        case OpSettle(receipt, settlement) =>
          var r := Settle(owner, clock, receipt, settlement);
          PerformedIsExecuted(before, call, Operations.Settle(db, now, receipt, settlement), parts, r);
          return ErrorOf(r);
        case OpSettleCancel(t, outcome) =>
          var r := SettleCancel(owner, clock, t, outcome);
          PerformedIsExecuted(before, call, Operations.SettleCancel(db, now, t, outcome), parts, r);
          return ErrorOf(r);
        case OpConfirmGone(t) =>
          var r := ConfirmControllerGone(owner, clock, t);
          PerformedIsExecuted(before, call, ConfirmGone(db, now, t), parts, r);
          return ErrorOf(r);
      }
    }

    /** Pages of runs, and whole subtrees. */
    method ExecutePage(call: Call) returns (refused: Option<Error>)
      requires Valid()
      requires call.op.OpClaimDue? || call.op.OpClaimRecovery? || call.op.OpCancelTree?
      modifies this
      ensures Valid() && Executed(old(parts), call, parts, refused)
    {
      hide R.StoreInv, Operations.ClaimDue, ClaimRecovery, RequestCancelTree, NextQueue, Performed, Executed;
      var owner, clock := call.owner, call.clock;
      ghost var before, db := parts, Part(parts, call.owner);
      ghost var now := Now(db, clock);
      match call.op {
        case OpClaimDue(backend, leaseOwner, seconds, limit, seed) =>
          var r := ClaimDue(owner, clock, backend, leaseOwner, seconds, limit, seed);
          PerformedIsExecuted(before, call, Operations.ClaimDue(db, now, backend, leaseOwner, seconds, limit, seed),
                              parts, r);
          return ErrorOf(r);
        case OpClaimRecovery(reconciler, seconds, limit, seed) =>
          var r := ClaimRecoveryDue(owner, clock, reconciler, seconds, limit, seed);
          PerformedIsExecuted(before, call, ClaimRecovery(db, now, reconciler, seconds, limit, seed), parts, r);
          return ErrorOf(r);
        case OpCancelTree(root, request, seed) =>
          var r := CancelTree(owner, clock, root, request, seed);
          PerformedIsExecuted(before, call, RequestCancelTree(db, now, root, request, seed), parts, r);
          return ErrorOf(r);
      }
    }

    /** Any call, in a transaction of its own: the rows it changed are committed, or none of them. */
    method Execute(call: Call) returns (refused: Option<Error>)
      requires Valid()
      modifies this
      ensures Valid() && Executed(old(parts), call, parts, refused)
      ensures refused != Some(CorruptData)
    {
      hide R.StoreInv, Attempt, I.Inv, NextQueue;
      R.StepKeeps(parts, call);
      R.StepIsGoodFor(parts, call);
      if FewRows(call.op) {
        var db := Part(parts, call.owner);
        var txn := new Transaction(db);
        refused := Perform(txn, Now(db, call.clock), NextQueue(parts), call.op);
        if refused.None? { parts := parts[call.owner := txn.Snapshot()]; }
      } else if call.op.OpClaimDue? || call.op.OpClaimRecovery? || call.op.OpCancelTree? {
        refused := ExecutePage(call);
      } else {
        refused := ExecuteMove(call);
      }
    }
  }
}
