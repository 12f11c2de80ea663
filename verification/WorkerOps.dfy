/** Steps on worker rows, and the insertion of workers and queued runs. */
module WorkerOps {
  import opened AgentTypes
  import opened Tables
  import opened Operations
  import opened Invariant
  import opened Progress
  import opened RunStep
  import opened CoreStep
  import opened InvStep
  import F = Forest

  // --- Frames ------------------------------------------------------------------------------------

  lemma RunsUnaffected(db: Db, db': Db)
    requires RunsOk(db) && db'.runs == db.runs && db'.controls == db.controls && db'.completions == db.completions
    requires forall x, c :: Select(db'.events, x, c) == Select(db.events, x, c)
    ensures RunsOk(db')
  {
    hide RunOk, Select;
    forall x | x in db'.runs ensures RunOk(db', x) { SameRunOk(db, db', x); }
  }

  lemma RunsEntriesForward(db: Db, db': Db)
    requires db'.runs == db.runs && db'.controls == db.controls && db'.completions == db.completions
    ensures RunsForward(db, db')
  {
    hide RunEntryForward;
    forall x | x in db.runs ensures RunEntryForward(db, db', x) { EntryReflexive(db, db', x); }
  }

  // --- Events that mention no run ----------------------------------------------------------------

  /** An event about a worker alone may follow at any time. */
  lemma WorkerEvent(db: Db, except: set<Id>, now: Time, w: Id, kind: EventKind)
    requires Core(db, except) && Timely(db, now) && w in db.workers
    ensures var db' := Emit(db, now, w, None, kind);
            && Core(db', except) && Timely(db', now) && Forward(db, db')
            && db'.events != [] && db'.events[|db'.events| - 1].occurredAt == now
  {
    hide Select, RunsOk, CrossOk, ForestOk, PublicationsDistinct, EventsOk, RunsForward, WorkerTimesOk, RetiredOk;
    var db' := Emit(db, now, w, None, kind);
    MarklessEvent(db, now, w, kind);
    RunsUnaffected(db, db');
    RunsEntriesForward(db, db');
    EventsAppend(db, db', [db'.events[|db.events|]], now);
    WorkerTimesStep(db, db', except, now);
    RetiredSame(db, db', except);
  }

  lemma MarklessEvent(db: Db, now: Time, w: Id, kind: EventKind)
    requires w in db.workers
    ensures forall x, c :: Select(Emit(db, now, w, None, kind).events, x, c) == Select(db.events, x, c)
  {
    forall x, c ensures Select(Emit(db, now, w, None, kind).events, x, c) == Select(db.events, x, c) {
      SelectAppend(db.events, Emit(db, now, w, None, kind).events[|db.events|], x, c);
    }
  }

  lemma RetiredSame(db: Db, db': Db, except: set<Id>)
    requires RetiredOk(db, except) && db'.workers == db.workers && db'.runs == db.runs && db'.controls == db.controls
    ensures RetiredOk(db', except)
  {
    hide Retired, Rested;
    forall r | r in db'.runs ensures Ops(db', r) == Ops(db, r) { }
  }

  // --- Writing a worker row ----------------------------------------------------------------------

  function PutWorker(db: Db, w: Id, next: Worker): Db {
    db.(workers := db.workers[w := next])
  }

  predicate WorkerFits(ws: map<Id, Worker>, w: Id, next: Worker)
  {
    && ValidWorker(w, next)
    && (next.parent.Some? ==>
        next.parent.value in ws && ws[next.parent.value].lifecycle.Rank() <= next.lifecycle.Rank())
    && (forall c :: c in ws && ws[c].parent == Some(w) ==> next.lifecycle.Rank() <= ws[c].lifecycle.Rank())
  }

  lemma ForestPut(ws: map<Id, Worker>, w: Id, next: Worker)
    requires ForestOk(ws) && WorkerFits(ws, w, next)
    requires w in ws ==> WorkerForward(ws[w], next)
    ensures ForestOk(ws[w := next])
  {
    if w in ws {
      F.AcyclicFrame(ws, ws[w := next]);
    } else {
      forall x | x in ws ensures ws[x].parent != Some(w) { assert ParentOk(ws, x); }
      F.AcyclicInsert(ws, w, next);
    }
    hide F.Acyclic;
  }

  /** A worker row may move forward, or appear under an open parent; its own drain stays pending. */
  lemma WorkerWrite(db: Db, except: set<Id>, now: Time, w: Id, next: Worker)
    requires Core(db, except) && Timely(db, now) && WorkerFits(db.workers, w, next)
    requires w in db.workers ==> WorkerForward(db.workers[w], next)
    requires w !in db.workers && next.parent.Some? ==> db.workers[next.parent.value].lifecycle.Open?
    ensures var db' := PutWorker(db, w, next);
            Core(db', except + {w}) && Timely(db', now) && Forward(db, db')
  {
    var db' := PutWorker(db, w, next);
    hide RunsOk, RunOk, CrossOk, ForestOk, PublicationsDistinct, WorkerFits, TimesSorted, RunsForward, Retired, Rested;
    ForestPut(db.workers, w, next);
    RunsUnaffected(db, db');
    RunsEntriesForward(db, db');
    assert db'.events[..|db.events|] == db.events;
    assert db' == db.(workers := db'.workers);
    forall i | 0 <= i < |db'.events| ensures EventOk(db', i) { assert EventOk(db, i); }
  }

  /** Once its runs are retired and an event shows the new row, a drain is no longer pending. */
  lemma DrainSettled(db: Db, except: set<Id>, w: Id)
    requires Core(db, except + {w}) && w in db.workers
    requires db.events != [] && db.workers[w].updatedAt <= db.events[|db.events| - 1].occurredAt
    requires forall r :: r in db.runs && db.runs[r].worker == w ==>
               Rested(db.workers[w].lifecycle, db.runs[r], Ops(db, r))
    ensures Core(db, except)
  {
    hide RunsOk, CrossOk, ForestOk, PublicationsDistinct, EventsOk, KeysOk, Retired, Rested;
  }

  /** A complete worker step: the row and its event. */
  lemma TouchCore(db: Db, now: Time, w: Id, next: Worker, kind: EventKind)
    requires Core(db, {}) && Timely(db, now) && WorkerFits(db.workers, w, next) && next.updatedAt == now
    requires w in db.workers ==> WorkerForward(db.workers[w], next)
    requires w !in db.workers && next.parent.Some? ==> db.workers[next.parent.value].lifecycle.Open?
    requires forall r :: r in db.runs && db.runs[r].worker == w ==> Rested(next.lifecycle, db.runs[r], Ops(db, r))
    ensures var db' := TouchWorker(db, now, w, next, kind);
            Core(db', {}) && Timely(db', now) && Forward(db, db')
  {
    hide Core, WorkerFits, Forward, Retired, Rested;
    var mid := PutWorker(db, w, next);
    var db' := TouchWorker(db, now, w, next, kind);
    WorkerWrite(db, {}, now, w, next);
    assert {} + {w} == {w};
    WorkerEvent(mid, {w}, now, w, kind);
    ForwardTrans(db, mid, db');
    forall r | r in db'.runs && db'.runs[r].worker == w
      ensures Rested(db'.workers[w].lifecycle, db'.runs[r], Ops(db', r)) { }
    DrainSettled(db', {}, w);
  }

  lemma TouchIsGood(db: Db, now: Time, w: Id, next: Worker, kind: EventKind)
    requires Inv(db) && Timely(db, now) && WorkerFits(db.workers, w, next) && next.updatedAt == now
    requires w in db.workers ==> WorkerForward(db.workers[w], next)
    requires w !in db.workers && next.parent.Some? ==> db.workers[next.parent.value].lifecycle.Open?
    requires forall r :: r in db.runs && db.runs[r].worker == w ==> Rested(next.lifecycle, db.runs[r], Ops(db, r))
    ensures Good(db, now, Done(TouchWorker(db, now, w, next, kind), ()))
  {
    hide Core, PlansOk, ProjectionOk, WorkerFits, Forward, Retired, Rested;
    TouchCore(db, now, w, next, kind);
    InvFromCore(db, TouchWorker(db, now, w, next, kind));
  }

  // --- Releasing a worker ------------------------------------------------------------------------

  lemma WorkerFacts(db: Db, now: Time, w: Id)
    requires Inv(db) && Timely(db, now) && w in db.workers
    ensures ValidWorker(w, db.workers[w]) && ParentOk(db.workers, w) && db.workers[w].updatedAt <= now
    ensures forall c :: c in db.workers && db.workers[c].parent == Some(w) ==> ParentOk(db.workers, c)
  {
    hide RunsOk, CrossOk, PublicationsDistinct, EventsOk, KeysOk, RetiredOk, PlansOk, ProjectionOk, F.Acyclic;
  }

  lemma ReleaseIsGood(db: Db, now: Time, w: Id, expectedRevision: nat)
    requires Inv(db) && Timely(db, now)
    ensures Good(db, now, ReleaseWorker(db, now, w, expectedRevision))
    ensures w in db.workers && db.workers[w].revision == expectedRevision && db.workers[w].lifecycle.Draining?
            && (forall r :: r in db.runs && db.runs[r].worker == w ==> db.runs[r].state.Terminal())
            && (forall c :: c in db.workers && db.workers[c].parent == Some(w) ==> db.workers[c].lifecycle.Released?)
            ==> ReleaseWorker(db, now, w, expectedRevision).Done?
  {
    hide Inv, Forward;
    if w in db.workers && db.workers[w].lifecycle.Draining?
       && (forall r :: r in db.runs && db.runs[r].worker == w ==> db.runs[r].state.Terminal())
       && (forall c :: c in db.workers && db.workers[c].parent == Some(w) ==> db.workers[c].lifecycle.Released?)
    {
      var before := db.workers[w];
      var next := before.(lifecycle := Released, releasedAt := Some(now), updatedAt := now,
                          revision := before.revision + 1);
      WorkerFacts(db, now, w);
      TouchIsGood(db, now, w, next, WorkerReleased);
    }
  }

  // --- Inserting a queued run --------------------------------------------------------------------

  /** A run no table has heard of is mentioned by no event. */
  lemma {:induction false} SelectNone(db: Db, es: seq<Event>, r: Id, c: Class)
    requires EventsOk(db) && es <= db.events && r !in db.runs
    ensures Select(es, r, c) == []
  {
    if es == [] {
    } else {
      SelectNone(db, es[..|es| - 1], r, c);
      assert EventOk(db, |es| - 1);
      assert es[|es| - 1] == db.events[|es| - 1];
    }
  }

  predicate FreshRow(run: Run, now: Time) {
    && RowOk(run) && run.state.Queued? && run.generation == 0 && run.createdAt == now && run.updatedAt == now
  }

  lemma FreshRunOk(db: Db, now: Time, r: Id, run: Run, kind: EventKind)
    requires EventsOk(db) && KeysOk(db) && Timely(db, now) && r !in db.runs && run.worker in db.workers
             && FreshRow(run, now)
    requires kind.RunQueued? || kind.ResumeQueued?
    ensures var db' := Emit(db.(runs := db.runs[r := run]), now, run.worker, Some(MarkOf(r, run)), kind);
            RunOk(db', r)
  {
    var db' := Emit(db.(runs := db.runs[r := run]), now, run.worker, Some(MarkOf(r, run)), kind);
    var e := db'.events[|db.events|];
    forall c ensures Select(db'.events, r, c) == if c.History? then [e] else [] {
      SelectNone(db, db.events, r, c);
      SelectAppend(db.events, e, r, c);
    }
  }

  lemma FreshOthers(db: Db, now: Time, r: Id, run: Run, kind: EventKind, x: Id)
    requires r !in db.runs && x in db.runs && run.worker in db.workers
    ensures var db' := Emit(db.(runs := db.runs[r := run]), now, run.worker, Some(MarkOf(r, run)), kind);
            && x in db'.runs && db'.runs[x] == db.runs[x] && Ops(db', x) == Ops(db, x)
            && CompletionOf(db', x) == CompletionOf(db, x)
            && forall c :: Select(db'.events, x, c) == Select(db.events, x, c)
  {
    hide Select;
    var db' := Emit(db.(runs := db.runs[r := run]), now, run.worker, Some(MarkOf(r, run)), kind);
    forall c ensures Select(db'.events, x, c) == Select(db.events, x, c) {
      SelectAppend(db.events, db'.events[|db.events|], x, c);
    }
  }

  predicate QueueFree(runs: map<Id, Run>, q: nat) {
    forall x :: x in runs ==> runs[x].queueSequence != q
  }

  ghost predicate ResumeFits(runs: map<Id, Run>, run: Run) {
    run.resumeOf.Some? ==>
      && run.resumeOf.value in runs && ResumeLink(runs[run.resumeOf.value], run)
      && forall x :: x in runs ==> runs[x].resumeOf != run.resumeOf
  }

  lemma CrossInsert(runs: map<Id, Run>, r: Id, run: Run)
    requires CrossOk(runs) && r !in runs && run.state.Queued? && run.generation == 0
    requires QueueFree(runs, run.queueSequence) && ResumeFits(runs, run)
    ensures CrossOk(runs[r := run])
  {
    GaplessInsert(runs, r, run);
    ResumesInsert(runs, r, run);
  }

  lemma GaplessInsert(runs: map<Id, Run>, r: Id, run: Run)
    requires GenerationsGapless(runs) && r !in runs && run.generation == 0
    ensures GenerationsGapless(runs[r := run])
  {
    var runs' := runs[r := run];
    forall x, g: nat | x in runs' && 0 < g < runs'[x].generation ensures HasGeneration(runs', runs'[x].worker, g) {
      assert HasGeneration(runs, runs[x].worker, g);
      var y :| y in runs && runs[y].worker == runs[x].worker && runs[y].generation == g;
      assert runs'[y].generation == g;
    }
  }

  lemma ResumesInsert(runs: map<Id, Run>, r: Id, run: Run)
    requires ResumesOk(runs) && r !in runs && ResumeFits(runs, run)
    ensures ResumesOk(runs[r := run])
  { }

  ghost predicate MayQueue(db: Db, now: Time, r: Id, run: Run) {
    && r !in db.runs && FreshRow(run, now)
    && run.worker in db.workers && db.workers[run.worker].lifecycle.Open?
    && (run.spec.parentRun.Some? ==> run.spec.parentRun.value in db.runs)
    && QueueFree(db.runs, run.queueSequence) && ResumeFits(db.runs, run)
  }

  lemma QueueRuns(db: Db, now: Time, r: Id, run: Run, kind: EventKind)
    requires RunsOk(db) && EventsOk(db) && KeysOk(db) && Timely(db, now) && MayQueue(db, now, r, run)
    requires kind.RunQueued? || kind.ResumeQueued?
    ensures var db' := Emit(db.(runs := db.runs[r := run]), now, run.worker, Some(MarkOf(r, run)), kind);
            RunsOk(db') && RunsForward(db, db') && NoNewCancel(db, db')
  {
    hide RunOk, EventsOk, FreshRow, QueueFree, ResumeFits, RunEntryForward, Select;
    var db' := Emit(db.(runs := db.runs[r := run]), now, run.worker, Some(MarkOf(r, run)), kind);
    forall x | x in db.runs ensures RunOk(db', x) && RunEntryForward(db, db', x) {
      FreshOthers(db, now, r, run, kind, x);
      SameRunOk(db, db', x);
      EntryReflexive(db, db', x);
    }
    FreshRunOk(db, now, r, run, kind);
    assert Ops(db', r) == [];
  }

  lemma QueueRetired(db: Db, db': Db, r: Id, run: Run)
    requires RetiredOk(db, {}) && db'.runs == db.runs[r := run] && db'.workers == db.workers
             && db'.controls == db.controls
    requires run.worker in db.workers && db.workers[run.worker].lifecycle.Open?
    ensures RetiredOk(db', {})
  {
    hide Retired;
    forall x | x in db.runs ensures Ops(db', x) == Ops(db, x) { }
  }

  lemma QueueCore(db: Db, now: Time, r: Id, run: Run, kind: EventKind)
    requires Core(db, {}) && Timely(db, now) && MayQueue(db, now, r, run) && (kind.RunQueued? || kind.ResumeQueued?)
    ensures var db' := Emit(db.(runs := db.runs[r := run]), now, run.worker, Some(MarkOf(r, run)), kind);
            Core(db', {}) && Timely(db', now) && Forward(db, db') && NoNewCancel(db, db')
  {
    hide RunsOk, CrossOk, ForestOk, PublicationsDistinct, EventsOk, FreshRow, QueueFree, ResumeFits, RetiredOk,
         RunsForward,
         NoNewCancel, WorkerTimesOk, KeysOk, WorkersForward, EventsForward;
    var db' := Emit(db.(runs := db.runs[r := run]), now, run.worker, Some(MarkOf(r, run)), kind);
    QueueRuns(db, now, r, run, kind);
    FreshIsQueued(run, now);
    CrossInsert(db.runs, r, run);
    EventsAppend(db, db', [db'.events[|db.events|]], now);
    WorkerTimesStep(db, db', {}, now);
    QueueRetired(db, db', r, run);
    QueueKeys(db, db', r, run);
    WorkersReflexive(db.workers);
  }

  lemma QueueKeys(db: Db, db': Db, r: Id, run: Run)
    requires KeysOk(db) && db'.runs == db.runs[r := run] && db'.workers == db.workers
    requires db'.controls == db.controls && db'.completions == db.completions
    requires run.worker in db.workers && (run.spec.parentRun.Some? ==> run.spec.parentRun.value in db.runs)
    ensures KeysOk(db')
  { }

  lemma WorkersReflexive(ws: map<Id, Worker>)
    ensures WorkersForward(ws, ws)
  { }

  lemma FreshIsQueued(run: Run, now: Time)
    requires FreshRow(run, now)
    ensures run.state.Queued? && run.generation == 0 && ValidRun(run)
  { }

  lemma AddRunIsGood(db: Db, now: Time, r: Id, run: Run, kind: EventKind)
    requires Inv(db) && Timely(db, now) && MayQueue(db, now, r, run) && (kind.RunQueued? || kind.ResumeQueued?)
    ensures AddRun(db, now, r, run, kind).Done? && Good(db, now, AddRun(db, now, r, run, kind))
  {
    hide Core, PlansOk, ProjectionOk, Forward, NoNewCancel, FreshRow, QueueFree, ResumeFits, ValidRun;
    FreshIsQueued(run, now);
    QueueCore(db, now, r, run, kind);
    InvFromCore(db, AddRun(db, now, r, run, kind).db);
  }
}
