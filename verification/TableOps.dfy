/** The remaining store methods other than tree cancellation. */
module TableOps {
  import opened AgentTypes
  import opened Tables
  import opened Operations
  import opened Invariant
  import opened Progress
  import opened RunStep
  import opened CoreStep
  import opened InvStep
  import opened RunOps
  import opened WorkerOps

  lemma GoodTrans<S, T>(db: Db, now: Time, mid: Db, value: S, out: Outcome<T>)
    requires Good(db, now, Done(mid, value)) && Good(mid, now, out)
    ensures Good(db, now, out)
  {
    hide Inv, Forward;
    if out.Done? { ForwardTrans(db, mid, out.db); }
  }

  // --- Creating and queueing ---------------------------------------------------------------------

  lemma QueuedRunFresh(nr: NewRun, now: Time, q: nat)
    requires nr.spec.Valid()
    ensures FreshRow(QueuedRun(nr, now, q), now)
  { }

  lemma NewWorkerIsGood(db: Db, now: Time, nw: NewWorker, parent: Option<Id>)
    requires Inv(db) && Timely(db, now) && nw.id !in db.workers
    requires parent.Some? ==> parent.value in db.workers && db.workers[parent.value].lifecycle.Open?
    ensures Good(db, now, Done(AddWorker(db, now, nw.id, NewWorkerRow(nw, parent, now)), ()))
  {
    NoStrangers(db, nw.id);
    hide Inv, Forward;
    TouchIsGood(db, now, nw.id, NewWorkerRow(nw, parent, now), WorkerCreated);
  }

  lemma NoStrangers(db: Db, w: Id)
    requires Inv(db) && w !in db.workers
    ensures forall c :: c in db.workers ==> db.workers[c].parent != Some(w)
    ensures forall r :: r in db.runs ==> db.runs[r].worker != w
  {
    hide RunsOk, CrossOk, PublicationsDistinct, EventsOk, RetiredOk, PlansOk, ProjectionOk;
  }

  /** A new worker together with its first queued run. */
  lemma WorkerWithRun(db: Db, now: Time, q: nat, nw: NewWorker, parent: Option<Id>, nr: NewRun)
    requires nr.spec.Valid() && nr.worker == nw.id && nw.id !in db.workers && nr.id !in db.runs
    requires parent.Some? ==> parent.value in db.workers && db.workers[parent.value].lifecycle.Open?
    requires nr.spec.parentRun.Some? ==> nr.spec.parentRun.value in db.runs
    requires QueueFree(db.runs, q)
    requires Inv(db) && Timely(db, now)
    ensures Good(db, now, AddRun(AddWorker(db, now, nw.id, NewWorkerRow(nw, parent, now)), now, nr.id,
                                 QueuedRun(nr, now, q), RunQueued))
  {
    hide Inv, Forward, FreshRow, ValidRun;
    var mid := AddWorker(db, now, nw.id, NewWorkerRow(nw, parent, now));
    NewWorkerIsGood(db, now, nw, parent);
    QueuedRunFresh(nr, now, q);
    AddRunIsGood(mid, now, nr.id, QueuedRun(nr, now, q), RunQueued);
    GoodTrans(db, now, mid, (), AddRun(mid, now, nr.id, QueuedRun(nr, now, q), RunQueued));
  }

  lemma CreateRootIsGood(db: Db, now: Time, q: nat, nw: NewWorker, nr: NewRun)
    requires Inv(db) && Timely(db, now) && QueueFree(db.runs, q)
    ensures Good(db, now, CreateRoot(db, now, q, nw, nr))
  {
    hide Inv, Forward, AddRun;
    if nr.spec.Valid() && nr.worker == nw.id && nr.spec.parentRun.None? && nw.id !in db.workers && nr.id !in db.runs {
      WorkerWithRun(db, now, q, nw, None, nr);
    }
  }

  lemma BumpIsGood(db: Db, now: Time, w: Id, kind: EventKind)
    requires Inv(db) && Timely(db, now) && w in db.workers && db.workers[w].lifecycle.Open?
    ensures var next := db.workers[w].(revision := db.workers[w].revision + 1, updatedAt := now);
            Good(db, now, Done(TouchWorker(db, now, w, next, kind), ()))
  {
    hide Inv, Forward;
    WorkerFacts(db, now, w);
    TouchIsGood(db, now, w, db.workers[w].(revision := db.workers[w].revision + 1, updatedAt := now), kind);
  }

  lemma SpawnIsGood(db: Db, now: Time, q: nat, parent: Id, expectedRevision: nat, nw: NewWorker, nr: NewRun)
    requires Inv(db) && Timely(db, now) && QueueFree(db.runs, q)
    ensures Good(db, now, SpawnChild(db, now, q, parent, expectedRevision, nw, nr))
  {
    hide Inv, Forward, AddRun;
    if nr.spec.Valid() && nw.id != parent && nr.worker == nw.id && parent in db.workers
        && db.workers[parent].lifecycle.Open?
       && nw.id !in db.workers && nr.id !in db.runs
       && (nr.spec.parentRun.Some? ==> nr.spec.parentRun.value in db.runs)
    {
      var p := db.workers[parent];
      var touched := TouchWorker(db, now, parent, p.(revision := p.revision + 1, updatedAt := now), ChildSpawned);
      BumpIsGood(db, now, parent, ChildSpawned);
      WorkerWithRun(touched, now, q, nw, Some(parent), nr);
      GoodTrans(db, now, touched, (), AddRun(AddWorker(touched, now, nw.id, NewWorkerRow(nw, Some(parent), now)), now,
                                             nr.id, QueuedRun(nr, now, q), RunQueued));
    }
  }

  lemma EnqueueIsGood(db: Db, now: Time, q: nat, nr: NewRun)
    requires Inv(db) && Timely(db, now) && QueueFree(db.runs, q)
    ensures Good(db, now, EnqueueRun(db, now, q, nr))
  {
    hide Inv, Forward, FreshRow;
    if nr.spec.Valid() && nr.worker in db.workers && db.workers[nr.worker].lifecycle.Open? && nr.id !in db.runs
       && (nr.spec.parentRun.Some? ==> nr.spec.parentRun.value in db.runs)
    {
      QueuedRunFresh(nr, now, q);
      AddRunIsGood(db, now, nr.id, QueuedRun(nr, now, q), RunQueued);
    }
  }

  lemma ResumedRunFresh(source: Id, run: Run, availableAt: Time, now: Time, q: nat)
    requires RowOk(run) && run.ResumeEligible()
    ensures FreshRow(ResumedRun(source, run, availableAt, now, q), now)
  { }

  lemma ParentRunKnown(db: Db, r: Id)
    requires Inv(db) && r in db.runs && db.runs[r].spec.parentRun.Some?
    ensures db.runs[r].spec.parentRun.value in db.runs
  {
    hide RunsOk, CrossOk, PublicationsDistinct, EventsOk, RetiredOk, PlansOk, ProjectionOk, ForestOk, WorkerTimesOk;
  }

  lemma EnqueueResumeIsGood(db: Db, now: Time, q: nat, req: ResumeRequest)
    requires Inv(db) && Timely(db, now) && QueueFree(db.runs, q)
    ensures Good(db, now, EnqueueResume(db, now, q, req))
  {
    hide Inv, Forward, FreshRow, RowOk, ControlsOk;
    if EnqueueResume(db, now, q, req) != Rejected(AlreadyExists) && EnqueueResume(db, now, q, req) != Rejected(NotFound)
       && EnqueueResume(db, now, q, req) != Rejected(ResumeRejected)
    {
      var source := db.runs[req.source];
      var run := ResumedRun(req.source, source, req.availableAt, now, q);
      RunFacts(db, now, req.source);
      ResumedRunFresh(req.source, source, req.availableAt, now, q);
      if source.spec.parentRun.Some? { ParentRunKnown(db, req.source); }
      AddRunIsGood(db, now, req.newRun, run, ResumeQueued);
    }
  }

  // --- Preparing a completion --------------------------------------------------------------------

  function WithPrepared(db: Db, now: Time, r: Id, c: Completion): Db
    requires r in db.runs && db.runs[r].worker in db.workers
  {
    Emit(db.(completions := db.completions[r := c]), now, db.runs[r].worker, Some(MarkOf(r, db.runs[r])),
         CompletionPrepared)
  }

  lemma PreparedSelect(db: Db, now: Time, r: Id, c: Completion, x: Id, k: Class)
    requires r in db.runs && db.runs[r].worker in db.workers
    ensures Select(WithPrepared(db, now, r, c).events, x, k) ==
            Select(db.events, x, k) + (if x == r && k.PreparedMark?
                                       then [WithPrepared(db, now, r, c).events[|db.events|]] else [])
  {
    hide Select;
    SelectAppend(db.events, WithPrepared(db, now, r, c).events[|db.events|], x, k);
  }

  lemma PreparedRunOk(db: Db, now: Time, r: Id, content: Content, token: Token)
    requires r in db.runs && db.runs[r].worker in db.workers && r !in db.completions && RunOk(db, r)
    requires db.runs[r].state.Running? && db.runs[r].updatedAt <= now
    ensures RunOk(WithPrepared(db, now, r, PreparedRow(db.runs[r], content, token, now)), r)
  {
    hide Select, HistoryOk, ControlsOk;
    var c := PreparedRow(db.runs[r], content, token, now);
    PreparedSelect(db, now, r, c, r, History);
    PreparedSelect(db, now, r, c, r, PreparedMark);
    PreparedSelect(db, now, r, c, r, AbandonedMark);
    assert forall h: seq<Event> :: h + [] == h;
  }

  lemma PreparedRuns(db: Db, now: Time, r: Id, content: Content, token: Token)
    requires RunsOk(db) && EventsOk(db) && Timely(db, now) && r in db.runs && db.runs[r].worker in db.workers
             && r !in db.completions
    requires db.runs[r].state.Running?
    ensures var db' := WithPrepared(db, now, r, PreparedRow(db.runs[r], content, token, now));
            RunsOk(db') && RunsForward(db, db')
  {
    hide RunOk, EventsOk, Select, RunEntryForward;
    var c := PreparedRow(db.runs[r], content, token, now);
    var db' := WithPrepared(db, now, r, c);
    RunIsPast(db, r, now);
    forall x | x in db.runs ensures RunOk(db', x) && RunEntryForward(db, db', x) {
      if x == r {
        PreparedRunOk(db, now, r, content, token);
        PreparedEntry(db, db', r);
      } else {
        forall k ensures Select(db'.events, x, k) == Select(db.events, x, k) { PreparedSelect(db, now, r, c, x, k); }
        SameRunOk(db, db', x);
        EntryReflexive(db, db', x);
      }
    }
  }

  lemma PreparedEntry(db: Db, db': Db, r: Id)
    requires r in db.runs && r in db'.runs && db'.runs[r] == db.runs[r] && Ops(db', r) == Ops(db, r)
             && CompletionOf(db, r).None?
    requires db.runs[r].state.Running?
    ensures RunEntryForward(db, db', r)
  { }

  lemma PublicationsInsert(db: Db, r: Id, c: Completion)
    requires PublicationsDistinct(db.completions) && !Occupied(db, c.content) && r !in db.completions
    ensures PublicationsDistinct(db.completions[r := c])
  { }

  lemma PreparedCore(db: Db, now: Time, r: Id, content: Content, token: Token)
    requires Core(db, {}) && Timely(db, now) && r in db.runs && r !in db.completions && db.runs[r].state.Running?
    requires !Occupied(db, content)
    ensures db.runs[r].worker in db.workers
    ensures var db' := WithPrepared(db, now, r, PreparedRow(db.runs[r], content, token, now));
            Core(db', {}) && Timely(db', now) && Forward(db, db') && NoNewCancel(db, db')
  {
    hide RunsOk, CrossOk, ForestOk, PublicationsDistinct, EventsOk, RetiredOk, RunsForward, WorkerTimesOk,
         WorkersForward, EventsForward, Occupied;
    var c := PreparedRow(db.runs[r], content, token, now);
    var db' := WithPrepared(db, now, r, c);
    PreparedRuns(db, now, r, content, token);
    PublicationsInsert(db, r, c);
    EventsAppend(db, db', [db'.events[|db.events|]], now);
    WorkerTimesStep(db, db', {}, now);
    RetiredSame(db, db', {});
    WorkersReflexive(db.workers);
  }

  lemma PrepareIsGood(db: Db, now: Time, permit: ExecutionPermit, content: Content)
    requires Inv(db) && Timely(db, now)
    ensures Good(db, now, PrepareCompletion(db, now, permit, content))
  {
    hide Core, PlansOk, ProjectionOk, Forward, NoNewCancel, Occupied, RowOk, ControlsOk;
    if permit.run in db.runs && permit.worker in db.workers && PermitHolds(db, now, permit) {
      var r := permit.run;
      var token := CompletionToken(permit.token, r, content.completion);
      RunFacts(db, now, r);
      if r in db.completions {
        UnchangedIsGood(db, now, (db.completions[r], CompletionPermitFor(r, db.completions[r], token)));
      } else if !Occupied(db, content) {
        PreparedCore(db, now, r, content, token);
        InvFromCore(db, WithPrepared(db, now, r, PreparedRow(db.runs[r], content, token, now)));
        RunningRow(db.runs[r]);
      }
    }
  }

  lemma RunningRow(run: Run)
    requires RowOk(run) && run.state.Running?
    ensures run.generation != 0 && run.revision != 0
  { }

  // --- Projection state --------------------------------------------------------------------------

  lemma EventsSame(db: Db, db': Db)
    requires EventsOk(db) && db'.events == db.events && db'.nextSequence == db.nextSequence
    requires db'.workers == db.workers && db'.runs == db.runs
    ensures EventsOk(db')
  {
    hide TimesSorted;
    forall i | 0 <= i < |db'.events| ensures EventOk(db', i) { assert EventOk(db, i); }
  }

  lemma ProjectionCore(db: Db, db': Db)
    requires Core(db, {}) && db' == db.(progress := db'.progress, dispositions := db'.dispositions)
    ensures Core(db', {}) && Forward(db, db') && NoNewCancel(db, db')
  {
    hide RunsOk, CrossOk, ForestOk, PublicationsDistinct, EventsOk, RetiredOk, RunsForward, WorkersForward, Select;
    RunsUnaffected(db, db');
    EventsSame(db, db');
    RetiredSame(db, db', {});
    RunsEntriesForward(db, db');
    WorkersReflexive(db.workers);
    assert db'.events[..|db.events|] == db.events;
  }

  lemma ProjectionIsGood(db: Db, now: Time, db': Db)
    requires Inv(db) && Timely(db, now) && ProjectionOk(db')
    requires db' == db.(progress := db'.progress, dispositions := db'.dispositions)
    ensures Good(db, now, Done(db', ()))
  {
    hide Core, Forward, NoNewCancel, PlansOk, ProjectionOk;
    ProjectionCore(db, db');
    PlansFrame(db, db');
  }

  lemma MarkKeeps(db: Db, now: Time, key: ProjectionKey)
    requires ProjectionOk(db) && KnownEvent(db, key.sequence)
    ensures ProjectionOk(MarkProjected(db, now, key).db)
  { }

  lemma DeferKeeps(db: Db, now: Time, key: ProjectionKey, reason: DeferReason, delay: nat)
    requires ProjectionOk(db) && KnownEvent(db, key.sequence) && 0 < delay <= MAX_PROJECTION_DEFER_MILLIS
    ensures ProjectionOk(DeferProjection(db, now, key, reason, delay).db)
  { }

  lemma QuarantineKeeps(db: Db, now: Time, key: ProjectionKey, why: QuarantineReason)
    requires ProjectionOk(db) && KnownEvent(db, key.sequence)
    ensures ProjectionOk(QuarantineProjection(db, now, key, why).db)
  { }

  lemma MarkIsGood(db: Db, now: Time, key: ProjectionKey)
    requires Inv(db) && Timely(db, now)
    ensures Good(db, now, MarkProjected(db, now, key))
  {
    hide Core, PlansOk, ProjectionOk, Forward;
    if KnownEvent(db, key.sequence) {
      MarkKeeps(db, now, key);
      ProjectionIsGood(db, now, MarkProjected(db, now, key).db);
    }
  }

  lemma DeferIsGood(db: Db, now: Time, key: ProjectionKey, reason: DeferReason, delay: nat)
    requires Inv(db) && Timely(db, now)
    ensures Good(db, now, DeferProjection(db, now, key, reason, delay))
  {
    hide Core, PlansOk, ProjectionOk, Forward;
    if KnownEvent(db, key.sequence) && 0 < delay <= MAX_PROJECTION_DEFER_MILLIS {
      DeferKeeps(db, now, key, reason, delay);
      ProjectionIsGood(db, now, DeferProjection(db, now, key, reason, delay).db);
    }
  }

  lemma QuarantineIsGood(db: Db, now: Time, key: ProjectionKey, why: QuarantineReason)
    requires Inv(db) && Timely(db, now)
    ensures Good(db, now, QuarantineProjection(db, now, key, why))
  {
    hide Core, PlansOk, ProjectionOk, Forward;
    if KnownEvent(db, key.sequence) {
      QuarantineKeeps(db, now, key, why);
      ProjectionIsGood(db, now, QuarantineProjection(db, now, key, why).db);
    }
  }
}
