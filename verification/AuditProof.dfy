/** Every reachable store passes its own integrity audit. */
module AuditProof {
  import opened AgentTypes
  import opened Tables
  import opened Invariant
  import opened Protocol
  import opened RunStep
  import opened Audit
  import R = Reachable
  import P = CancelPlans
  import C = CancelTree
  import F = Forest
  import O = Ordering

  // --- Counting ----------------------------------------------------------------------------------

  ghost predicate Takes<K(!new)>(m: map<K, nat>, q: nat) {
    exists k :: k in m && m[k] == q
  }

  /** A table whose column takes each of 1..top once has `top` rows. */
  lemma {:induction false} Dense<K(!new)>(m: map<K, nat>, top: nat)
    requires forall k :: k in m ==> 1 <= m[k] <= top
    requires forall k, l :: k in m && l in m && k != l ==> m[k] != m[l]
    requires forall q :: 1 <= q <= top ==> Takes(m, q)
    ensures |m.Keys| == top
  {
    if top == 0 {
      assert m.Keys == {};
    } else {
      assert Takes(m, top);
      var k :| k in m && m[k] == top;
      var rest := m - {k};
      forall q | 1 <= q <= top - 1 ensures Takes(rest, q) {
        assert Takes(m, q);
        var l :| l in m && m[l] == q;
        assert l in rest && rest[l] == q;
      }
      Dense(rest, top - 1);
      assert m.Keys == rest.Keys + {k};
    }
  }

  function UpTo(n: nat): (s: set<nat>)
    ensures |s| == n && forall i: nat :: i in s <==> i < n
  {
    if n == 0 then {}
    else
      assert n - 1 !in UpTo(n - 1);
      UpTo(n - 1) + {n - 1}
  }

  /** Counting the events of one class of one run is counting in its selection. */
  lemma {:induction false} CountSelected(es: seq<Event>, r: Id, c: Class, p: Event -> bool)
    requires forall e :: p(e) ==> Picks(e, r, c)
    ensures Count(es, p) == Count(Select(es, r, c), p)
  {
    if es == [] {
    } else {
      var front, last := es[..|es| - 1], es[|es| - 1];
      CountSelected(front, r, c, p);
      if Picks(last, r, c) {
        assert (Select(front, r, c) + [last])[..|Select(front, r, c)|] == Select(front, r, c);
      }
    }
  }

  lemma CountOne(e: Event, p: Event -> bool)
    ensures Count([e], p) == if p(e) then 1 else 0
  {
    assert [e][..0] == [];
    assert Count([], p) == 0;
  }

  lemma {:induction false} CountNone(es: seq<Event>, p: Event -> bool)
    requires forall i :: 0 <= i < |es| ==> !p(es[i])
    ensures Count(es, p) == 0
  {
    if es == [] {
    } else {
      CountNone(es[..|es| - 1], p);
    }
  }

  /** Exactly the last event of a history satisfies the condition. */
  lemma CountLast(h: seq<Event>, p: Event -> bool)
    requires h != [] && p(h[|h| - 1]) && forall i :: 0 <= i < |h| - 1 ==> !p(h[i])
    ensures Count(h, p) == 1
  {
    CountNone(h[..|h| - 1], p);
  }

  // --- Keys --------------------------------------------------------------------------------------

  lemma ForeignKeysHold(db: Db)
    requires Inv(db)
    ensures ForeignKeys(db)
  {
    hide RunsOk, EntryOk, PublicationsDistinct, RetiredOk, WorkerTimesOk, F.Acyclic, TimesSorted, F.Post, F.Shape,
         OneActive, GenerationsDistinct, GenerationsGapless, QueueDistinct;
    forall w | w in db.workers && db.workers[w].parent.Some? ensures db.workers[w].parent.value in db.workers {
      assert ParentOk(db.workers, w);
    }
    forall i | 0 <= i < |db.events|
      ensures db.events[i].worker in db.workers && (db.events[i].mark.Some? ==> db.events[i].mark.value.run in db.runs)
    {
      assert EventOk(db, i);
    }
    forall op | op in db.plans ensures db.plans[op].root in db.workers { PlanRoot(db, op); }
    forall k | k in db.dispositions ensures 1 <= k.sequence <= |db.events| {
      assert DispositionOk(db, k, db.dispositions[k]);
    }
  }

  lemma PlanRoot(db: Db, op: Id)
    requires op in db.plans && PlanOk(db, op)
    ensures db.plans[op].root in db.workers
  {
    hide EntryOk, PlanFields;
    var t :| F.Shape(db.workers, t) && t.id == db.plans[op].root && F.Post(t) == db.plans[op].workers;
    F.PostMember(t, t.id);
  }

  lemma UniqueKeysHold(db: Db)
    requires Inv(db)
    ensures UniqueKeys(db)
  {
    hide PlansOk, ProjectionOk, EventsOk, ForestOk, KeysOk, RetiredOk, WorkerTimesOk, RowOk, HistoryOk, CompletionOk,
         Select, LastControlOk, GenerationsGapless;
    forall r | r in db.runs ensures DistinctOps(Ops(db, r)) { assert RunOk(db, r); }
    forall r, i, j | r in db.runs && 0 <= i < j < |Ops(db, r)|
      ensures !(Ops(db, r)[i].status.Active? && Ops(db, r)[j].status.Active?)
    {
      assert RunOk(db, r);
      assert ControlOk(db.runs[r], Ops(db, r), i);
    }
  }

  // --- Workers and plans -------------------------------------------------------------------------

  lemma WorkersHold(db: Db)
    requires Inv(db)
    ensures AuditWorkers(db)
  {
    hide PlansOk, ProjectionOk, EventsOk, KeysOk, RetiredOk, WorkerTimesOk, RunsOk, CrossOk, PublicationsDistinct,
         F.Acyclic;
  }

  lemma CancelledRow(db: Db, r: Id)
    requires RunsOk(db) && r in db.runs && db.runs[r].state.Cancelled?
    ensures db.runs[r].failure == Some(FailureCode.Cancelled)
  {
    hide HistoryOk, CompletionOk, ControlsOk, Select;
    assert RunOk(db, r);
  }

  lemma PlanHolds(db: Db, op: Id)
    requires op in db.plans
    requires RunsOk(db) && F.Acyclic(db.workers) && PlanOk(db, op)
    ensures AuditPlan(db, op)
  {
    hide RunsOk, F.Acyclic, F.Shape, F.Build, F.Post, C.Order;
    var plan := db.plans[op];
    PlanRoot(db, op);
    P.PlanOrder(db, op, plan.root);
    F.SubtreeShape(db.workers, plan.root);
    forall i | 0 <= i < |plan.entries| ensures AuditEntry(db, op, plan, plan.entries[i]) {
      var e := plan.entries[i];
      assert EntryOk(db, op, plan, e);
      if e.action.QueuedCancel? { CancelledRow(db, e.run); }
    }
  }

  lemma PlansHold(db: Db)
    requires Inv(db)
    ensures AuditPlans(db)
  {
    hide Core, RunsOk, F.Acyclic, PlanOk, AuditPlan, PlansOk, ProjectionOk;
    P.InvParts(db);
    P.AcyclicWorkers(db);
    forall op | op in db.plans ensures AuditPlan(db, op) {
      P.PlansParts(db, op);
      PlanHolds(db, op);
    }
  }

  lemma ReleasedHolds(db: Db)
    requires Inv(db)
    ensures AuditReleased(db)
  {
    hide PlansOk, ProjectionOk, EventsOk, WorkerTimesOk, CrossOk, PublicationsDistinct, F.Acyclic;
    forall w | w in db.workers && db.workers[w].lifecycle.Released?
      ensures forall r :: r in db.runs && db.runs[r].worker == w ==> db.runs[r].state.Terminal()
      ensures forall c :: c in db.workers && db.workers[c].parent == Some(w) ==> db.workers[c].lifecycle.Released?
    {
      forall c | c in db.workers && db.workers[c].parent == Some(w) ensures db.workers[c].lifecycle.Released? {
        assert ParentOk(db.workers, c);
      }
    }
  }

  // --- Runs and control operations ---------------------------------------------------------------

  lemma ControlHolds(db: Db, r: Id, i: nat)
    requires r in db.runs && i < |Ops(db, r)|
    requires ControlsOk(db.runs[r], Ops(db, r)) && Planned(db, r, Ops(db, r)[i])
    ensures AuditControl(db, r, Ops(db, r)[i])
  {
    hide DistinctOps;
    var c := Ops(db, r)[i];
    assert ControlOk(db.runs[r], Ops(db, r), i);
    if c.kind.Cancel? {
      var es := db.plans[c.op].entries;
      var k :| 0 <= k < |es| && es[k] == PlanEntry(db.runs[r].worker, r, ControllerCancel);
    }
  }

  lemma ActiveHolds(run: Run, ops: seq<Control>)
    requires ControlsOk(run, ops)
    ensures run.state.Cancelling? <==> exists i :: 0 <= i < |ops| && ops[i].status.Active?
  {
    LastActive(run, ops);
  }

  lemma RowHolds(run: Run)
    requires RowOk(run)
    ensures AuditRun(run)
  { }

  lemma RunsHold(db: Db)
    requires Inv(db)
    ensures AuditRuns(db)
  {
    hide Core, RowOk, ControlsOk, AuditRun, AuditControl, HistoryOk, CompletionOk, Select, PlanOk, Planned,
         ProjectionOk;
    P.InvParts(db);
    forall r | r in db.runs
      ensures AuditRun(db.runs[r])
      ensures forall i :: 0 <= i < |Ops(db, r)| ==> AuditControl(db, r, Ops(db, r)[i])
      ensures db.runs[r].state.Cancelling? <==> exists i :: 0 <= i < |Ops(db, r)| && Ops(db, r)[i].status.Active?
    {
      assert RunOk(db, r);
      RowHolds(db.runs[r]);
      ActiveHolds(db.runs[r], Ops(db, r));
      forall i | 0 <= i < |Ops(db, r)| ensures AuditControl(db, r, Ops(db, r)[i]) { ControlHolds(db, r, i); }
    }
  }

  lemma GenerationsHold(db: Db)
    requires GenerationsDistinct(db.runs) && GenerationsGapless(db.runs)
    ensures AuditGenerations(db)
  {
    forall w | w in db.workers && Claimed(db, w) != {}
      ensures 1 in Generations(db, w) && |Claimed(db, w)| == O.MaxOf(Generations(db, w))
    {
      WorkerGenerations(db, w);
    }
  }

  lemma WorkerGenerations(db: Db, w: Id)
    requires GenerationsDistinct(db.runs) && GenerationsGapless(db.runs) && Claimed(db, w) != {}
    ensures 1 in Generations(db, w) && |Claimed(db, w)| == O.MaxOf(Generations(db, w))
  {
    var top := O.MaxOf(Generations(db, w));
    var m := map r | r in Claimed(db, w) :: db.runs[r].generation;
    assert m.Keys == Claimed(db, w);
    var r :| r in Claimed(db, w);
    assert db.runs[r].generation in Generations(db, w);
    forall k | k in m ensures 1 <= m[k] <= top { assert m[k] in Generations(db, w); }
    forall q | 1 <= q <= top ensures Takes(m, q) { GenerationTaken(db, w, q, m); }
    Dense(m, top);
    assert Takes(m, 1);
    var k :| k in m && m[k] == 1;
  }

  lemma GenerationTaken(db: Db, w: Id, q: nat, m: map<Id, nat>)
    requires GenerationsGapless(db.runs) && 1 <= q <= O.MaxOf(Generations(db, w))
    requires m.Keys == Claimed(db, w) && forall k :: k in m ==> m[k] == db.runs[k].generation
    ensures Takes(m, q)
  {
    var r :| r in Claimed(db, w) && db.runs[r].generation == O.MaxOf(Generations(db, w));
    if q == db.runs[r].generation {
      assert r in m;
    } else {
      assert HasGeneration(db.runs, w, q);
      var y :| y in db.runs && db.runs[y].worker == w && db.runs[y].generation == q;
      assert y in m;
    }
  }

  lemma DeadlineHolds(db: Db, r: Id)
    requires r in db.runs && RowOk(db.runs[r]) && HistoryOk(r, db.runs[r], Select(db.events, r, History))
    ensures AuditDeadline(db, r)
  {
    hide ValidRun, Select;
    if db.runs[r].generation > 0 {
      var h := Select(db.events, r, History);
      assert MarkOk(r, db.runs[r], h[1], 1);
      SelectMember(db.events, r, History, 1);
      var i :| 0 <= i < |db.events| && db.events[i] == h[1];
    }
  }

  lemma DeadlinesHold(db: Db)
    requires RunsOk(db)
    ensures AuditDeadlines(db)
  {
    hide RowOk, ControlsOk, HistoryOk, CompletionOk, Select, AuditDeadline;
    forall r | r in db.runs ensures AuditDeadline(db, r) {
      assert RunOk(db, r);
      DeadlineHolds(db, r);
    }
  }

  // --- The outbox --------------------------------------------------------------------------------

  lemma SequencesHold(db: Db)
    requires EventsOk(db)
    ensures AuditSequences(db) && AuditTimes(db.events)
  {
    var es := db.events;
    forall i | 0 <= i < |es| ensures es[i].sequence == i + 1 { assert EventOk(db, i); }
    if es != [] {
      assert es[0].sequence in Sequences(es);
      assert es[|es| - 1].sequence in Sequences(es);
    }
  }

  lemma HistoryHolds(db: Db, r: Id)
    requires r in db.runs && HistoryOk(r, db.runs[r], Select(db.events, r, History))
    ensures AuditHistory(db, r) && AuditCurrent(db, r)
  {
    hide Select;
    var h, run := Select(db.events, r, History), db.runs[r];
    forall i | 0 <= i < |h| ensures h[i].mark.Some? && h[i].mark.value.revision == i { assert MarkOk(r, run, h[i], i); }
    assert Revisions(h) == UpTo(run.revision + 1) by {
      forall v | v in UpTo(run.revision + 1) ensures v in Revisions(h) { assert h[v].mark.value.revision == v; }
    }
    assert run.revision in Revisions(h);
    assert MarkOk(r, run, h[run.revision], run.revision);
    SelectMember(db.events, r, History, run.revision);
    var i :| 0 <= i < |db.events| && db.events[i] == h[run.revision];
  }

  lemma HistoriesHold(db: Db)
    requires RunsOk(db)
    ensures AuditHistories(db)
  {
    hide RowOk, ControlsOk, HistoryOk, CompletionOk, Select, AuditHistory, AuditCurrent;
    forall r | r in db.runs ensures AuditHistory(db, r) && AuditCurrent(db, r) {
      assert RunOk(db, r);
      HistoryHolds(db, r);
    }
  }

  function ClassOf(k: EventKind): (c: Class)
    ensures InClass(k, c)
  {
    if k.CompletionPrepared? then PreparedMark else if k.CompletionAbandoned? then AbandonedMark else History
  }

  /** An event that mentions a run stands in the selection of its class. */
  lemma Selected(db: Db, k: nat) returns (i: nat)
    requires k < |db.events| && db.events[k].mark.Some?
    ensures var e := db.events[k]; var s := Select(db.events, e.mark.value.run, ClassOf(e.kind)); i < |s| && s[i] == e
  {
    var e := db.events[k];
    SelectComplete(db.events, e.mark.value.run, ClassOf(e.kind), k);
    var s := Select(db.events, e.mark.value.run, ClassOf(e.kind));
    i :| 0 <= i < |s| && s[i] == e;
  }

  lemma HistoryEventHolds(e: Event, r: Id, run: Run, c: Option<Completion>, ops: seq<Control>, h: seq<Event>,
                          p: seq<Event>, a: seq<Event>, i: nat)
    requires i < |h| && h[i] == e && InClass(e.kind, History) && HistoryOk(r, run, h)
             && CompletionOk(run, c, ops, h, p, a)
    ensures e.mark.Some? && AuditEventOf(e, e.mark.value, run, c)
  {
    hide ValidCompletion, PreparedRecord, AbandonedRecord;
    assert MarkOk(r, run, h[i], i);
  }

  lemma MarkEventHolds(e: Event, r: Id, run: Run, c: Option<Completion>, ops: seq<Control>, h: seq<Event>,
                       p: seq<Event>, a: seq<Event>, i: nat)
    requires (e.kind.CompletionPrepared? && i < |p| && p[i] == e)
             || (e.kind.CompletionAbandoned? && i < |a| && a[i] == e)
    requires run.createdAt <= run.updatedAt && CompletionOk(run, c, ops, h, p, a) && e.mark.Some?
    ensures AuditEventOf(e, e.mark.value, run, c)
  {
    hide ValidCompletion;
  }

  lemma EventHolds(db: Db, k: nat)
    requires k < |db.events| && EventOk(db, k) && RunsOk(db)
    ensures AuditEvent(db, db.events[k])
  {
    hide ControlsOk, HistoryOk, CompletionOk, Select, AuditEventOf;
    var e := db.events[k];
    if e.mark.Some? {
      var r := e.mark.value.run;
      var run, c, ops := db.runs[r], CompletionOf(db, r), Ops(db, r);
      var h, p, a := Select(db.events, r, History), Select(db.events, r, PreparedMark),
          Select(db.events, r, AbandonedMark);
      assert RunOk(db, r);
      var i := Selected(db, k);
      if InClass(e.kind, History) {
        HistoryEventHolds(e, r, run, c, ops, h, p, a, i);
      } else {
        MarkEventHolds(e, r, run, c, ops, h, p, a, i);
      }
    }
  }

  lemma EventsHold(db: Db)
    requires EventsOk(db) && RunsOk(db)
    ensures AuditEvents(db)
  {
    hide RunsOk, EventOk, AuditEvent, TimesSorted;
    forall k | 0 <= k < |db.events| ensures AuditEvent(db, db.events[k]) { EventHolds(db, k); }
  }

  // --- Completions -------------------------------------------------------------------------------

  lemma PreparedCount(db: Db, r: Id, run: Run, c: Completion)
    requires PreparedRecord(run, c, Select(db.events, r, PreparedMark))
    ensures CountOf(db, r, CompletionPrepared, Some(c.preparedAt), Some(c.preparedRevision), None) == 1
  {
    hide Select;
    var p, pred := Select(db.events, r, PreparedMark),
        Recording(r, CompletionPrepared, Some(c.preparedAt), Some(c.preparedRevision), None);
    CountSelected(db.events, r, PreparedMark, pred);
    SelectMember(db.events, r, PreparedMark, 0);
    assert p == [p[0]];
    CountOne(p[0], pred);
  }

  lemma AbandonedCount(db: Db, r: Id, run: Run, c: Completion)
    requires var h, p, a := Select(db.events, r, History), Select(db.events, r, PreparedMark),
             Select(db.events, r, AbandonedMark);
             if c.status.Abandoned? then AbandonedRecord(run, c, h, p, a) else a == []
    ensures c.status.Abandoned? <==> CountOf(db, r, CompletionAbandoned, c.abandonedAt, c.abandonedRevision, None) == 1
  {
    hide Select;
    var a, pred := Select(db.events, r, AbandonedMark),
        Recording(r, CompletionAbandoned, c.abandonedAt, c.abandonedRevision, None);
    CountSelected(db.events, r, AbandonedMark, pred);
    if c.status.Abandoned? {
      SelectMember(db.events, r, AbandonedMark, 0);
      assert a == [a[0]];
      CountOne(a[0], pred);
    } else {
      CountNone(a, pred);
    }
  }

  lemma CommittedCount(db: Db, r: Id, run: Run, c: Completion)
    requires HistoryOk(r, run, Select(db.events, r, History))
    requires c.status.Committed? ==>
               run.state.Succeeded? && c.committedAt == Some(run.updatedAt) && c.committedRevision == Some(run.revision)
    requires !c.status.Committed? ==> !run.state.Succeeded?
    ensures c.status.Committed? <==>
              CountOf(db, r, CompletionCommitted, c.committedAt, c.committedRevision, Some(Succeeded)) == 1
  {
    hide Select;
    var h, pred := Select(db.events, r, History),
        Recording(r, CompletionCommitted, c.committedAt, c.committedRevision, Some(Succeeded));
    CountSelected(db.events, r, History, pred);
    forall i | 0 <= i < |h| ensures MarkOk(r, run, h[i], i) { }
    if c.status.Committed? {
      assert MarkOk(r, run, h[run.revision], run.revision);
      CountLast(h, pred);
    } else {
      CountNone(h, pred);
    }
  }

  lemma OrderHolds(db: Db, r: Id, run: Run, c: Completion)
    requires HistoryOk(r, run, Select(db.events, r, History))
    requires AbandonedRecord(run, c, Select(db.events, r, History), Select(db.events, r, PreparedMark),
                             Select(db.events, r, AbandonedMark))
    ensures AbandonedInOrder(db, r, c.abandonedRevision)
  {
    hide Select;
    var h, p, a := Select(db.events, r, History), Select(db.events, r, PreparedMark),
        Select(db.events, r, AbandonedMark);
    SelectMember(db.events, r, PreparedMark, 0);
    SelectMember(db.events, r, History, run.revision);
    SelectMember(db.events, r, AbandonedMark, 0);
    assert MarkOk(r, run, h[run.revision], run.revision);
    var i :| 0 <= i < |db.events| && db.events[i] == p[0];
    var j :| 0 <= j < |db.events| && db.events[j] == h[run.revision];
    var k :| 0 <= k < |db.events| && db.events[k] == a[0];
    assert Precedes(db, r, c.abandonedRevision, i, j, k);
  }

  lemma StatusHolds(run: Run, c: Completion, ops: seq<Control>, h: seq<Event>, p: seq<Event>, a: seq<Event>)
    requires CompletionOk(run, Some(c), ops, h, p, a)
    ensures ValidCompletion(c) && AuditStatus(run, c)
    ensures PreparedRecord(run, c, p)
    ensures if c.status.Abandoned? then AbandonedRecord(run, c, h, p, a) else a == []
    ensures c.status.Committed? ==> run.state.Succeeded? && CommittedRecord(run, c, ops)
    ensures !c.status.Committed? ==> !run.state.Succeeded?
  { }

  lemma CommitterHolds(run: Run, ops: seq<Control>, c: Completion)
    requires LastControlOk(run, ops) && ValidCompletion(c)
    requires c.status.Committed? ==> run.state.Succeeded? && CommittedRecord(run, c, ops)
    ensures c.committedBy.Some? ==>
              exists i :: 0 <= i < |ops| && ops[i].op == c.committedBy.value && ops[i].kind == Recover(LeaseExpired)
                  && ops[i].status.Settled?
  {
    if c.committedBy.Some? {
      var i := |ops| - 1;
      assert ops[i].op == c.committedBy.value;
    }
  }

  lemma CompletionHolds(db: Db, r: Id)
    requires r in db.runs && r in db.completions && RunOk(db, r)
    ensures AuditCompletion(db, r)
  {
    hide RowOk, HistoryOk, CompletionOk, ControlOk, LastControlOk, DistinctOps, Select, CountOf, AbandonedInOrder,
         ValidCompletion, PreparedRecord, AbandonedRecord, AuditStatus;
    var run, c, ops := db.runs[r], db.completions[r], Ops(db, r);
    var h, p, a := Select(db.events, r, History), Select(db.events, r, PreparedMark),
        Select(db.events, r, AbandonedMark);
    StatusHolds(run, c, ops, h, p, a);
    PreparedCount(db, r, run, c);
    AbandonedCount(db, r, run, c);
    CommittedCount(db, r, run, c);
    if c.status.Abandoned? { OrderHolds(db, r, run, c); }
    CommitterHolds(run, ops, c);
  }

  lemma CompletionsHold(db: Db)
    requires RunsOk(db)
    ensures AuditCompletions(db)
  {
    hide RunOk, AuditCompletion;
    forall r | r in db.completions && r in db.runs ensures AuditCompletion(db, r) { CompletionHolds(db, r); }
  }

  lemma ProjectionHolds(db: Db)
    requires ProjectionOk(db)
    ensures AuditProjection(db)
  {
    forall k | k in db.dispositions ensures DispositionOk(db, k, db.dispositions[k]) { }
  }

  // --- All owners --------------------------------------------------------------------------------

  function QueueTable(s: Store): map<(Owner, Id), nat> {
    map x | x in AllRuns(s) :: s[x.0].runs[x.1].queueSequence
  }

  lemma QueueTableRange(s: Store, x: (Owner, Id))
    requires R.QueuesFilled(s) && x in QueueTable(s)
    ensures 1 <= QueueTable(s)[x] <= O.MaxOf(QueueValues(s))
  {
    assert QueueTable(s)[x] in QueueValues(s);
  }

  lemma QueueTableTakes(s: Store, q: nat)
    requires R.QueuesFilled(s) && 1 <= q <= O.MaxOf(QueueValues(s))
    ensures Takes(QueueTable(s), q) && q in QueueValues(s)
  {
    R.BelowNext(s, q);
    var o, r :| o in s && r in s[o].runs && s[o].runs[r].queueSequence == q;
    assert (o, r) in AllRuns(s);
    assert QueueTable(s)[(o, r)] == q;
  }

  lemma QueueTableApart(s: Store, x: (Owner, Id), y: (Owner, Id))
    requires R.QueuesApart(s) && x in QueueTable(s) && y in QueueTable(s) && x != y
    ensures QueueTable(s)[x] != QueueTable(s)[y]
  { }

  lemma QueueHolds(s: Store)
    requires R.QueueDense(s)
    ensures AuditQueue(s)
  {
    assert QueueTable(s).Keys == AllRuns(s);
    hide R.QueuesFilled, R.QueuesApart, QueueTable, Takes, AllRuns, QueueValues;
    var m, top := QueueTable(s), O.MaxOf(QueueValues(s));
    forall x | x in m ensures 1 <= m[x] <= top { QueueTableRange(s, x); }
    forall x, y | x in m && y in m && x != y ensures m[x] != m[y] { QueueTableApart(s, x, y); }
    forall q | 1 <= q <= top ensures Takes(m, q) { QueueTableTakes(s, q); }
    Dense(m, top);
    if AllRuns(s) != {} {
      var x :| x in AllRuns(s);
      QueueTableRange(s, x);
      QueueTableTakes(s, 1);
    }
  }

  lemma CoreConjuncts(db: Db)
    requires Inv(db)
    ensures RunsOk(db) && EventsOk(db) && ProjectionOk(db) && GenerationsDistinct(db.runs)
            && GenerationsGapless(db.runs)
  {
    hide RunsOk, EventsOk, PlansOk, ProjectionOk, ForestOk, KeysOk, RetiredOk, WorkerTimesOk, PublicationsDistinct,
         OneActive, QueueDistinct, ResumesOk, GenerationsDistinct, GenerationsGapless;
  }

  lemma OwnerHolds(db: Db)
    requires Inv(db)
    ensures AuditOwner(db)
  {
    hide Inv, ForeignKeys, UniqueKeys, AuditWorkers, AuditPlans, AuditReleased, AuditRuns, AuditGenerations,
         AuditDeadlines, AuditSequences,
         AuditTimes, AuditHistories, AuditEvents, AuditCompletions, AuditProjection, RunsOk, EventsOk, ProjectionOk,
             GenerationsDistinct, GenerationsGapless;
    CoreConjuncts(db);
    ForeignKeysHold(db);
    UniqueKeysHold(db);
    WorkersHold(db);
    PlansHold(db);
    ReleasedHolds(db);
    RunsHold(db);
    GenerationsHold(db);
    DeadlinesHold(db);
    SequencesHold(db);
    HistoriesHold(db);
    EventsHold(db);
    CompletionsHold(db);
    ProjectionHolds(db);
  }

  /** The main theorem: from the empty store, any calls under any clocks reach only stores the audit accepts. */
  lemma ReachableStoresPassAudit(calls: seq<Call>)
    ensures AuditStore(Play(map[], calls))
  {
    hide Inv, R.QueueDense, AuditOwner, AuditQueue, Play;
    var s := Play(map[], calls);
    R.EmptyStoreOk();
    R.PlayKeeps(map[], calls);
    forall o | o in s ensures AuditOwner(s[o]) { OwnerHolds(s[o]); }
    QueueHolds(s);
  }
}
