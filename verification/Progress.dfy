/**
 What no step ever takes back: rows are never removed, identities never change, workers and
 runs only move forward, ended runs are final and control histories only grow.
 */
module Progress {
  import opened AgentTypes
  import opened Tables
  import opened Invariant

  predicate WorkerForward(w: Worker, w': Worker) {
    && w'.parent == w.parent && w'.session == w.session && w'.createdAt == w.createdAt
    && w.revision <= w'.revision && w.lifecycle.Rank() <= w'.lifecycle.Rank()
  }

  /** Old workers move forward; a new worker never hangs below a worker that had stopped being open. */
  ghost predicate WorkersForward(ws: map<Id, Worker>, ws': map<Id, Worker>) {
    && (forall w :: w in ws ==> w in ws' && WorkerForward(ws[w], ws'[w]))
    && (forall w :: w in ws' && w !in ws && ws'[w].parent.Some? && ws'[w].parent.value in ws ==>
                      ws[ws'[w].parent.value].lifecycle.Open?)
  }

  predicate FrozenFields(run: Run, run': Run) {
    && run'.worker == run.worker && run'.spec == run.spec && run'.resumeOf == run.resumeOf
    && run'.resumeAttempt == run.resumeAttempt && run'.availableAt == run.availableAt
    && run'.queueSequence == run.queueSequence && run'.createdAt == run.createdAt
    && (run.binding.Some? ==> run'.binding == run.binding)
    && (run.generation > 0 ==> run'.generation == run.generation && run'.deadline == run.deadline)
  }

  predicate RunForward(run: Run, run': Run) {
    && FrozenFields(run, run')
    && run.revision <= run'.revision && run.updatedAt <= run'.updatedAt
    && run.state.Rank() <= run'.state.Rank() && SameHolder(run, run')
    && (run.state.Terminal() || run.revision == run'.revision ==> run' == run)
  }

  /** Cancelled for good: being cancelled, or ended the way cancellation ends a run. */
  predicate CancelBound(run: Run, ops: seq<Control>) {
    || (run.state.Cancelling? && Retired(run, ops))
    || run.state.Cancelled?
    || (run.state.Interrupted? && run.failure == Some(ControlUnavailable))
  }

  predicate ControlForward(c: Control, c': Control) {
    c'.op == c.op && c'.kind == c.kind && c'.revision == c.revision && (!c.status.Active? ==> c' == c)
  }

  ghost predicate ControlsForward(ops: seq<Control>, ops': seq<Control>) {
    && |ops| <= |ops'|
    && forall i :: 0 <= i < |ops| ==> ControlForward(ops[i], ops'[i])
  }

  predicate CompletionForward(c: Option<Completion>, c': Option<Completion>) {
    c.Some? ==>
      && c'.Some?
      && c'.value.content == c.value.content && c'.value.hash == c.value.hash
      && c'.value.worker == c.value.worker && c'.value.generation == c.value.generation
      && (!c.value.status.Prepared? ==> c' == c)
  }

  ghost predicate RunEntryForward(db: Db, db': Db, r: Id)
    requires r in db.runs && r in db'.runs
  {
    && RunForward(db.runs[r], db'.runs[r])
    && ControlsForward(Ops(db, r), Ops(db', r))
    && CompletionForward(CompletionOf(db, r), CompletionOf(db', r))
    && (db.runs[r].state.Terminal() ==> CompletionOf(db', r) == CompletionOf(db, r))
    && (CancelBound(db.runs[r], Ops(db, r)) ==> CancelBound(db'.runs[r], Ops(db', r)))
  }

  /** Old runs move forward; a new run never belongs to a worker that had stopped being open. */
  ghost predicate RunsForward(db: Db, db': Db) {
    && (forall r :: r in db.runs ==> r in db'.runs && RunEntryForward(db, db', r))
    && (forall r :: r in db'.runs && r !in db.runs && db'.runs[r].worker in db.workers ==>
                      db.workers[db'.runs[r].worker].lifecycle.Open?)
  }

  ghost predicate PlansForward(ps: map<Id, Plan>, ps': map<Id, Plan>) {
    forall op :: op in ps ==> op in ps' && ps'[op] == ps[op]
  }

  ghost predicate EventsForward(es: seq<Event>, es': seq<Event>) {
    |es| <= |es'| && es'[..|es|] == es
  }

  ghost predicate Forward(db: Db, db': Db) {
    && WorkersForward(db.workers, db'.workers)
    && RunsForward(db, db')
    && PlansForward(db.plans, db'.plans)
    && EventsForward(db.events, db'.events)
  }

  lemma ForwardReflexive(db: Db)
    ensures Forward(db, db)
  {
    assert db.events[..|db.events|] == db.events;
  }

  lemma WorkersForwardTrans(a: map<Id, Worker>, b: map<Id, Worker>, c: map<Id, Worker>)
    requires WorkersForward(a, b) && WorkersForward(b, c)
    ensures WorkersForward(a, c)
  {
    forall w | w in c && w !in a && c[w].parent.Some? && c[w].parent.value in a
      ensures a[c[w].parent.value].lifecycle.Open?
    {
      var p := c[w].parent.value;
      assert WorkerForward(a[p], b[p]);
      if w in b {
        assert WorkerForward(b[w], c[w]);
      }
    }
  }

  lemma RunEntryForwardTrans(a: Db, b: Db, c: Db, r: Id)
    requires r in a.runs && r in b.runs && r in c.runs
    requires RunEntryForward(a, b, r) && RunEntryForward(b, c, r)
    ensures RunEntryForward(a, c, r)
  {
    var x, y, z := Ops(a, r), Ops(b, r), Ops(c, r);
    forall i | 0 <= i < |x| ensures ControlForward(x[i], z[i]) {
      assert ControlForward(x[i], y[i]) && ControlForward(y[i], z[i]);
    }
  }

  lemma RunsForwardTrans(a: Db, b: Db, c: Db)
    requires WorkersForward(a.workers, b.workers) && RunsForward(a, b) && RunsForward(b, c)
    ensures RunsForward(a, c)
  {
    hide RunForward, ControlsForward, CompletionForward, CancelBound;
    forall r | r in a.runs ensures r in c.runs && RunEntryForward(a, c, r) {
      RunEntryForwardTrans(a, b, c, r);
    }
    forall r | r in c.runs && r !in a.runs && c.runs[r].worker in a.workers
      ensures a.workers[c.runs[r].worker].lifecycle.Open?
    {
      var w := c.runs[r].worker;
      assert WorkerForward(a.workers[w], b.workers[w]);
      if r in b.runs {
        SameWorker(b, c, r);
      }
    }
  }

  lemma SameWorker(b: Db, c: Db, r: Id)
    requires r in b.runs && r in c.runs && RunEntryForward(b, c, r)
    ensures c.runs[r].worker == b.runs[r].worker
  { }

  lemma ForwardTrans(a: Db, b: Db, c: Db)
    requires Forward(a, b) && Forward(b, c)
    ensures Forward(a, c)
  {
    hide WorkersForward, RunsForward;
    WorkersForwardTrans(a.workers, b.workers, c.workers);
    RunsForwardTrans(a, b, c);
    assert c.events[..|a.events|] == c.events[..|b.events|][..|a.events|];
  }
}
