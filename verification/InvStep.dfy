/**
 From one lawful step of a run to the whole invariant: the step is accepted, keeps the
 frozen cancel plans and the projection state, and moves everything forward.
 */
module InvStep {
  import opened AgentTypes
  import opened Tables
  import opened Invariant
  import opened Progress
  import opened RunStep
  import opened CoreStep
  import F = Forest

  /** Never reports corrupt data, and commits only tables that keep the invariant and take nothing back. */
  ghost predicate Good<T>(db: Db, now: Time, out: Outcome<T>) {
    match out
    case Rejected(e) => e != CorruptData
    case Done(db', _) => Inv(db') && Forward(db, db') && Timely(db', now)
  }

  // --- A lawful step is never refused ------------------------------------------------------------

  lemma ChangedCompletionValid(run: Run, next: Run, ops: seq<Control>, c: Option<Completion>, h: seq<Event>,
                               p: seq<Event>,
                               a: seq<Event>, control: ControlChange, change: CompletionChange, now: Time)
    requires CompletionOk(run, c, ops, h, p, a) && !run.state.Terminal()
    requires CompletionLawful(next, ops, c, control, change) && next.revision == run.revision + 1
    requires c.Some? ==> c.value.preparedAt <= now
    ensures var c' := NextCompletion(c, change, next.revision, now); c'.Some? ==> ValidCompletion(c'.value)
  { }

  lemma LawfulAccepted(db: Db, now: Time, r: Id, next: Run, control: ControlChange, completion: CompletionChange,
                       kind: EventKind)
    requires r in db.runs && RunOk(db, r) && EventsOk(db) && Timely(db, now) && db.runs[r].worker in db.workers
    requires Lawful(db.runs[r], next, Ops(db, r), CompletionOf(db, r), control, completion, kind, now)
    ensures Advance(db, now, r, next, control, completion, kind).Done?
    ensures Advance(db, now, r, next, control, completion, kind).value == next
  {
    hide Select, HistoryOk, StateFields, EventsOk;
    RunIsPast(db, r, now);
    ChangedCompletionValid(db.runs[r], next, Ops(db, r), CompletionOf(db, r), Select(db.events, r, History),
                           Select(db.events, r, PreparedMark), Select(db.events, r, AbandonedMark), control,
                               completion, now);
  }

  // --- Frames for plans and projections ----------------------------------------------------------

  /** No control operation of kind Cancel appeared. */
  ghost predicate NoNewCancel(db: Db, db': Db) {
    forall r, i :: r in db'.runs && (r in db.runs ==> |Ops(db, r)| <= i) && 0 <= i < |Ops(db', r)| ==>
      !Ops(db', r)[i].kind.Cancel?
  }

  lemma PlanTreeFrame(ws: map<Id, Worker>, ws': map<Id, Worker>, plan: Plan)
    requires WorkersForward(ws, ws') && PlanTree(ws, plan)
    requires forall w :: w in plan.workers ==> w in ws && !ws[w].lifecycle.Open?
    ensures PlanTree(ws', plan)
  {
    var t :| F.Shape(ws, t) && t.id == plan.root && F.Post(t) == plan.workers;
    forall x | x in F.Post(t) ensures x in ws' && F.Children(ws', x) == F.Children(ws, x) {
      SameChildren(ws, ws', x);
    }
    F.ShapeFrame(ws, ws', t);
  }

  lemma SameChildren(ws: map<Id, Worker>, ws': map<Id, Worker>, x: Id)
    requires WorkersForward(ws, ws') && x in ws && !ws[x].lifecycle.Open?
    ensures x in ws' && F.Children(ws', x) == F.Children(ws, x)
  {
    hide F.Children;
    assert WorkerForward(ws[x], ws'[x]);
    forall c | c in ws && ws[c].parent == Some(x)
      ensures c in ws' && ws'[c].parent == Some(x) && ws'[c].createdAt == ws[c].createdAt
    {
      assert WorkerForward(ws[c], ws'[c]);
    }
    forall c | c in ws' && ws'[c].parent == Some(x) ensures c in ws && ws[c].parent == Some(x) {
      if c in ws { assert WorkerForward(ws[c], ws'[c]); }
    }
    F.ChildrenFrame(ws, ws', x);
  }

  lemma CancelledByForward(ops: seq<Control>, ops': seq<Control>, op: Id)
    requires ControlsForward(ops, ops') && CancelledBy(ops, op)
    ensures CancelledBy(ops', op)
  {
    var i :| 0 <= i < |ops| && ops[i].op == op && ops[i].kind.Cancel?;
    assert ControlForward(ops[i], ops'[i]);
  }

  lemma EntryFrame(db: Db, db': Db, op: Id, plan: Plan, e: PlanEntry)
    requires RunsForward(db, db') && EntryOk(db, op, plan, e)
    ensures EntryOk(db', op, plan, e)
  {
    assert RunEntryForward(db, db', e.run);
    if e.action.ControllerCancel? {
      CancelledByForward(Ops(db, e.run), Ops(db', e.run), op);
    }
  }

  /** A frozen plan stays in force: its scope and its entries cannot be undone. */
  lemma PlanFrame(db: Db, db': Db, op: Id)
    requires Forward(db, db') && op in db.plans && op in db'.plans && db'.plans[op] == db.plans[op] && PlanOk(db, op)
    ensures PlanOk(db', op)
  {
    hide PlanTree, EntryOk, RunEntryForward, WorkerForward, PlanFields;
    var plan := db.plans[op];
    PlanTreeFrame(db.workers, db'.workers, plan);
    forall w | w in plan.workers ensures w in db'.workers && !db'.workers[w].lifecycle.Open? {
      StaysClosed(db.workers, db'.workers, w);
    }
    forall i | 0 <= i < |plan.entries| ensures EntryOk(db', op, plan, plan.entries[i]) {
      EntryFrame(db, db', op, plan, plan.entries[i]);
    }
    forall r | r in db'.runs && db'.runs[r].worker in plan.workers && !db'.runs[r].state.Terminal()
      ensures PlanEntry(db'.runs[r].worker, r, ControllerCancel) in plan.entries
    {
      WasUnfinished(db, db', r);
    }
  }

  lemma StaysClosed(ws: map<Id, Worker>, ws': map<Id, Worker>, w: Id)
    requires WorkersForward(ws, ws') && w in ws && !ws[w].lifecycle.Open?
    ensures w in ws' && !ws'[w].lifecycle.Open?
  {
    assert WorkerForward(ws[w], ws'[w]);
  }

  lemma WasUnfinished(db: Db, db': Db, r: Id)
    requires RunsForward(db, db') && r in db'.runs && !db'.runs[r].state.Terminal()
    requires db'.runs[r].worker in db.workers && !db.workers[db'.runs[r].worker].lifecycle.Open?
    ensures r in db.runs && db.runs[r].worker == db'.runs[r].worker && !db.runs[r].state.Terminal()
  {
    if r in db.runs { assert RunEntryForward(db, db', r); }
  }

  lemma PlannedFrame(db: Db, db': Db, r: Id, i: nat)
    requires Forward(db, db') && NoNewCancel(db, db') && PlansOk(db)
    requires r in db'.runs && i < |Ops(db', r)|
    ensures Planned(db', r, Ops(db', r)[i])
  {
    hide PlanOk;
    if r in db.runs && i < |Ops(db, r)| {
      assert RunEntryForward(db, db', r);
      assert ControlForward(Ops(db, r)[i], Ops(db', r)[i]);
      assert Planned(db, r, Ops(db, r)[i]);
    }
  }

  lemma PlansFrame(db: Db, db': Db)
    requires PlansOk(db) && Forward(db, db') && db'.plans == db.plans && NoNewCancel(db, db')
    ensures PlansOk(db')
  {
    hide PlanOk, Forward, NoNewCancel, Planned;
    forall op | op in db'.plans ensures PlanOk(db', op) {
      PlanFrame(db, db', op);
    }
    forall r, i | r in db'.runs && 0 <= i < |Ops(db', r)| ensures Planned(db', r, Ops(db', r)[i]) {
      PlannedFrame(db, db', r, i);
    }
  }

  lemma ProjectionFrame(db: Db, db': Db)
    requires ProjectionOk(db) && EventsForward(db.events, db'.events)
    requires db'.progress == db.progress && db'.dispositions == db.dispositions
    ensures ProjectionOk(db')
  {
    assert forall i :: 0 <= i < |db.events| ==> db'.events[i] == db'.events[..|db.events|][i];
  }

  // --- The step ----------------------------------------------------------------------------------

  lemma StepNoNewCancel(db: Db, now: Time, r: Id, next: Run, control: ControlChange, completion: CompletionChange,
                        kind: EventKind)
    requires r in db.runs && Advance(db, now, r, next, control, completion, kind).Done? && InClass(kind, History)
    requires control.Push? ==> !control.op.kind.Cancel?
    ensures NoNewCancel(db, Advance(db, now, r, next, control, completion, kind).db)
  {
    hide ValidRun, ValidCompletion, NextCompletion;
    var db' := Advance(db, now, r, next, control, completion, kind).db;
    AdvanceWrites(db, now, r, next, control, completion, kind);
    forall x, i | x in db'.runs && (x in db.runs ==> |Ops(db, x)| <= i) && 0 <= i < |Ops(db', x)|
      ensures !Ops(db', x)[i].kind.Cancel?
    {
      if x != r { OtherRuns(db, now, r, next, control, completion, kind, x); }
    }
  }

  /** Where the core moved forward without new cancel operations, the rest of the invariant follows. */
  lemma InvFromCore(db: Db, db': Db)
    requires PlansOk(db) && ProjectionOk(db) && Core(db', {}) && Forward(db, db') && NoNewCancel(db, db')
    requires db'.plans == db.plans && db'.progress == db.progress && db'.dispositions == db.dispositions
    ensures Inv(db')
  {
    hide Core, PlansOk, ProjectionOk, WorkersForward, RunsForward, PlansForward, EventsForward, NoNewCancel;
    PlansFrame(db, db');
    ProjectionFrame(db, db');
  }

  /** A lawful, fitting step is accepted and keeps the whole invariant. */
  lemma StepIsGood(db: Db, now: Time, r: Id, next: Run, control: ControlChange, completion: CompletionChange,
                   kind: EventKind)
    requires Inv(db) && Timely(db, now) && r in db.runs
    requires Lawful(db.runs[r], next, Ops(db, r), CompletionOf(db, r), control, completion, kind, now)
    requires Fitting(db, {}, now, r, next, control)
    requires control.Push? ==> !control.op.kind.Cancel?
    ensures Advance(db, now, r, next, control, completion, kind).Done?
    ensures Advance(db, now, r, next, control, completion, kind).value == next
    ensures Good(db, now, Advance(db, now, r, next, control, completion, kind))
  {
    CoreParts(db, r);
    assert InClass(kind, History);
    hide Lawful, Fitting, Core, RunOk, EventsOk, Forward, PlansOk, ProjectionOk, NoNewCancel, Advance;
    LawfulAccepted(db, now, r, next, control, completion, kind);
    StepKeepsCore(db, {}, now, r, next, control, completion, kind);
    StepNoNewCancel(db, now, r, next, control, completion, kind);
    AdvanceWrites(db, now, r, next, control, completion, kind);
    InvFromCore(db, Advance(db, now, r, next, control, completion, kind).db);
  }

  lemma CoreParts(db: Db, r: Id)
    requires Inv(db) && r in db.runs
    ensures RunOk(db, r) && EventsOk(db) && db.runs[r].worker in db.workers
  { }
}
