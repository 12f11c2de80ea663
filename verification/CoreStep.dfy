/** A lawful step of one run keeps the invariant of all the tables, and takes nothing back. */
module CoreStep {
  import opened AgentTypes
  import opened Tables
  import opened Invariant
  import opened Progress
  import opened RunStep

  // --- Runs of one worker and resume chains ------------------------------------------------------

  /** A claim finds its worker idle and takes the next generation. */
  ghost predicate ClaimFresh(runs: map<Id, Run>, r: Id, next: Run)
    requires r in runs
  {
    next.generation != runs[r].generation ==>
      && (forall x :: x in runs && runs[x].worker == next.worker ==> !runs[x].state.ControllerActive())
      && (forall x :: x in runs && runs[x].worker == next.worker ==> runs[x].generation < next.generation)
      && (next.generation <= 1 || HasGeneration(runs, next.worker, next.generation - 1))
  }

  lemma OneActiveStep(runs: map<Id, Run>, r: Id, next: Run)
    requires OneActive(runs) && r in runs && next.worker == runs[r].worker && ClaimFresh(runs, r, next)
    requires next.generation == runs[r].generation && next.state.ControllerActive() ==> runs[r].state.ControllerActive()
    ensures OneActive(runs[r := next])
  { }

  lemma GenerationStep(runs: map<Id, Run>, r: Id, next: Run)
    requires GenerationsDistinct(runs) && GenerationsGapless(runs)
    requires r in runs && next.worker == runs[r].worker && ClaimFresh(runs, r, next)
    requires next.generation == runs[r].generation || runs[r].generation == 0
    ensures GenerationsDistinct(runs[r := next]) && GenerationsGapless(runs[r := next])
  {
    var runs' := runs[r := next];
    forall x, g: nat | x in runs' && 0 < g < runs'[x].generation ensures HasGeneration(runs', runs'[x].worker, g) {
      if x != r || next.generation == runs[r].generation {
        assert HasGeneration(runs, runs[x].worker, g);
      } else if g < next.generation - 1 {
        var y :| y in runs && runs[y].worker == next.worker && runs[y].generation == next.generation - 1;
        assert HasGeneration(runs, runs[y].worker, g);
      }
      var z :| z in runs && runs[z].worker == runs'[x].worker && runs[z].generation == g;
      assert runs'[z].generation == g;
    }
  }

  lemma ResumesStep(runs: map<Id, Run>, r: Id, next: Run)
    requires ResumesOk(runs) && r in runs && SameIdentity(runs[r], next) && !runs[r].state.Terminal()
    ensures ResumesOk(runs[r := next])
  { }

  lemma QueueStep(runs: map<Id, Run>, r: Id, next: Run)
    requires QueueDistinct(runs) && r in runs && SameIdentity(runs[r], next)
    ensures QueueDistinct(runs[r := next])
  { }

  lemma CrossStep(runs: map<Id, Run>, r: Id, next: Run)
    requires CrossOk(runs) && r in runs && SameIdentity(runs[r], next) && !runs[r].state.Terminal()
    requires ClaimFresh(runs, r, next) && (next.generation == runs[r].generation || runs[r].generation == 0)
    requires next.generation == runs[r].generation && next.state.ControllerActive() ==> runs[r].state.ControllerActive()
    ensures CrossOk(runs[r := next])
  {
    OneActiveStep(runs, r, next);
    GenerationStep(runs, r, next);
    ResumesStep(runs, r, next);
    QueueStep(runs, r, next);
  }

  // --- The outbox --------------------------------------------------------------------------------

  predicate Appendable(db': Db, e: Event, sequence: nat, now: Time) {
    && e.sequence == sequence && e.occurredAt == now
    && e.worker in db'.workers && e.workerRevision <= db'.workers[e.worker].revision
    && (e.mark.Some? ==> e.mark.value.run in db'.runs && db'.runs[e.mark.value.run].worker == e.worker)
  }

  ghost predicate SourcesKept(db: Db, db': Db) {
    && (forall w :: w in db.workers ==> w in db'.workers && db.workers[w].revision <= db'.workers[w].revision)
    && (forall r :: r in db.runs ==> r in db'.runs && db'.runs[r].worker == db.runs[r].worker)
  }

  lemma EventsAppend(db: Db, db': Db, es: seq<Event>, now: Time)
    requires EventsOk(db) && Timely(db, now) && SourcesKept(db, db')
    requires db'.events == db.events + es && db'.nextSequence == db.nextSequence + |es|
    requires forall k :: 0 <= k < |es| ==> Appendable(db', es[k], db.nextSequence + k, now)
    ensures EventsOk(db') && Timely(db', now) && EventsForward(db.events, db'.events)
  {
    forall i | 0 <= i < |db'.events| ensures EventOk(db', i) {
      if i < |db.events| {
        assert EventOk(db, i);
        assert db'.events[i] == db.events[i];
      } else {
        assert db'.events[i] == es[i - |db.events|];
      }
    }
    TimesAppend(db.events, es, now);
  }

  lemma TimesAppend(past: seq<Event>, es: seq<Event>, now: Time)
    requires TimesSorted(past) && (past == [] || past[|past| - 1].occurredAt <= now)
    requires forall k :: 0 <= k < |es| ==> es[k].occurredAt == now
    ensures TimesSorted(past + es)
    ensures past + es == [] || (past + es)[|past + es| - 1].occurredAt <= now
  {
    forall i, j | 0 <= i <= j < |past + es| ensures (past + es)[i].occurredAt <= (past + es)[j].occurredAt {
      if i < |past| <= j {
        assert past[i].occurredAt <= past[|past| - 1].occurredAt;
      }
    }
  }

  lemma WorkerTimesStep(db: Db, db': Db, except: set<Id>, now: Time)
    requires WorkerTimesOk(db, except) && Timely(db, now)
    requires db'.events != [] && db'.events[|db'.events| - 1].occurredAt == now
    requires forall w :: w in db'.workers ==>
                           db'.workers[w].updatedAt == now
                               || (w in db.workers && db'.workers[w].updatedAt == db.workers[w].updatedAt)
    ensures WorkerTimesOk(db', except)
  { }

  // --- The step ----------------------------------------------------------------------------------

  lemma OtherRuns(db: Db, now: Time, r: Id, next: Run, control: ControlChange, completion: CompletionChange,
                  kind: EventKind, x: Id)
    requires r in db.runs && x in db.runs && x != r && InClass(kind, History)
    requires Advance(db, now, r, next, control, completion, kind).Done?
    ensures var db' := Advance(db, now, r, next, control, completion, kind).db;
            && x in db'.runs && db'.runs[x] == db.runs[x]
            && Ops(db', x) == Ops(db, x) && CompletionOf(db', x) == CompletionOf(db, x)
            && forall c :: Select(db'.events, x, c) == Select(db.events, x, c)
  {
    hide Select, ValidRun, ValidCompletion, NextControls, NextCompletion;
    AdvanceWrites(db, now, r, next, control, completion, kind);
    forall c ensures Select(Advance(db, now, r, next, control, completion, kind).db.events, x, c)
        == Select(db.events, x, c)
    {
      StepSelect(db, now, r, next, kind, Abandons(CompletionOf(db, r), completion), x, c);
    }
  }

  lemma SameRunOk(db: Db, db': Db, x: Id)
    requires x in db.runs && x in db'.runs && db'.runs[x] == db.runs[x]
    requires Ops(db', x) == Ops(db, x) && CompletionOf(db', x) == CompletionOf(db, x)
    requires forall c :: Select(db'.events, x, c) == Select(db.events, x, c)
    requires RunOk(db, x)
    ensures RunOk(db', x)
  { }

  lemma StepKeepsRuns(db: Db, now: Time, r: Id, next: Run, control: ControlChange, completion: CompletionChange,
                      kind: EventKind)
    requires r in db.runs && RunsOk(db) && EventsOk(db) && Timely(db, now)
    requires Advance(db, now, r, next, control, completion, kind).Done?
    requires Lawful(db.runs[r], next, Ops(db, r), CompletionOf(db, r), control, completion, kind, now)
    ensures RunsOk(Advance(db, now, r, next, control, completion, kind).db)
  {
    hide RunOk;
    var db' := Advance(db, now, r, next, control, completion, kind).db;
    AdvanceWrites(db, now, r, next, control, completion, kind);
    forall x | x in db'.runs ensures RunOk(db', x) {
      if x == r {
        StepKeepsRun(db, now, r, next, control, completion, kind);
      } else {
        OtherRuns(db, now, r, next, control, completion, kind, x);
        SameRunOk(db, db', x);
      }
    }
  }

  lemma CompletionsStep(cs: map<Id, Completion>, r: Id, c: Completion)
    requires PublicationsDistinct(cs) && r in cs && c.content == cs[r].content
    ensures PublicationsDistinct(cs[r := c])
  { }

  lemma NextCompletionFields(c: Option<Completion>, change: CompletionChange, revision: nat, now: Time)
    ensures CompletionForward(c, NextCompletion(c, change, revision, now)) || change.Commit?
    ensures c.Some? && c.value.status.Prepared? ==> CompletionForward(c, NextCompletion(c, change, revision, now))
    ensures c.Some? <==> NextCompletion(c, change, revision, now).Some?
    ensures c.Some? ==> NextCompletion(c, change, revision, now).value.content == c.value.content
  { }

  lemma CloseForward(ops: seq<Control>, status: ControlStatus, now: Time)
    ensures ControlsForward(ops, Close(ops, status, now))
  { }

  lemma NextControlsForward(ops: seq<Control>, change: ControlChange, now: Time)
    ensures ControlsForward(ops, NextControls(ops, change, now))
  {
    if change.Push? { CloseForward(ops, Superseded, now); }
    if change.Finish? { CloseForward(ops, Settled, now); }
  }

  lemma BoundStep(run: Run, next: Run, ops: seq<Control>, change: ControlChange, now: Time)
    requires ControlsOk(run, ops) && !run.state.Terminal() && ControlLawful(run, next, ops, change, now)
    requires CancelBound(run, ops)
    ensures CancelBound(next, NextControls(ops, change, now))
  { }

  /** Nothing about the stepped run is taken back. */
  lemma StepEntryForward(db: Db, now: Time, r: Id, next: Run, control: ControlChange, completion: CompletionChange,
                         kind: EventKind)
    requires r in db.runs && RunOk(db, r)
    requires Advance(db, now, r, next, control, completion, kind).Done?
    requires Lawful(db.runs[r], next, Ops(db, r), CompletionOf(db, r), control, completion, kind, now)
    ensures r in Advance(db, now, r, next, control, completion, kind).db.runs
    ensures RunEntryForward(db, Advance(db, now, r, next, control, completion, kind).db, r)
  {
    hide Select, HistoryOk;
    AdvanceWrites(db, now, r, next, control, completion, kind);
    NextControlsForward(Ops(db, r), control, now);
    NextCompletionFields(CompletionOf(db, r), completion, next.revision, now);
    if CancelBound(db.runs[r], Ops(db, r)) {
      BoundStep(db.runs[r], next, Ops(db, r), control, now);
    }
  }

  lemma StepForward(db: Db, now: Time, r: Id, next: Run, control: ControlChange, completion: CompletionChange,
                    kind: EventKind)
    requires r in db.runs && RunOk(db, r)
    requires Advance(db, now, r, next, control, completion, kind).Done?
    requires Lawful(db.runs[r], next, Ops(db, r), CompletionOf(db, r), control, completion, kind, now)
    ensures Forward(db, Advance(db, now, r, next, control, completion, kind).db)
  {
    hide RunOk, Select, NextControls, NextCompletion, ControlsForward, RunForward, CompletionForward, CancelBound;
    var db' := Advance(db, now, r, next, control, completion, kind).db;
    AdvanceWrites(db, now, r, next, control, completion, kind);
    forall x | x in db.runs ensures x in db'.runs && RunEntryForward(db, db', x) {
      if x == r {
        StepEntryForward(db, now, r, next, control, completion, kind);
      } else {
        OtherRuns(db, now, r, next, control, completion, kind, x);
        EntryReflexive(db, db', x);
      }
    }
    assert db'.events[..|db.events|] == db.events;
  }

  lemma EntryReflexive(db: Db, db': Db, x: Id)
    requires x in db.runs && x in db'.runs && db'.runs[x] == db.runs[x]
    requires Ops(db', x) == Ops(db, x) && CompletionOf(db', x) == CompletionOf(db, x)
    ensures RunEntryForward(db, db', x)
  { }

  lemma StepEventsAppendable(db: Db, now: Time, r: Id, next: Run, control: ControlChange,
                             completion: CompletionChange, kind: EventKind)
    requires r in db.runs && EventsOk(db) && Timely(db, now)
    requires Advance(db, now, r, next, control, completion, kind).Done?
    ensures var db' := Advance(db, now, r, next, control, completion, kind).db;
            && EventsOk(db') && Timely(db', now)
            && db'.events != [] && db'.events[|db'.events| - 1].occurredAt == now
  {
    hide EventsOk, ValidRun, ValidCompletion, NextControls, NextCompletion;
    var db' := Advance(db, now, r, next, control, completion, kind).db;
    AdvanceWrites(db, now, r, next, control, completion, kind);
    EventsAppend(db, db', StepEvents(db, now, r, next, kind, Abandons(CompletionOf(db, r), completion)), now);
  }

  lemma RetiredStep(db: Db, except: set<Id>, now: Time, r: Id, next: Run, control: ControlChange,
                    completion: CompletionChange, kind: EventKind)
    requires r in db.runs && RetiredOk(db, except) && InClass(kind, History) && !db.runs[r].state.Terminal()
    requires Advance(db, now, r, next, control, completion, kind).Done?
    requires next.worker in db.workers && (!db.workers[next.worker].lifecycle.Open? && next.worker !in except ==>
                                             Retired(next, NextControls(Ops(db, r), control, now)))
    ensures RetiredOk(Advance(db, now, r, next, control, completion, kind).db, except)
  {
    hide ValidRun, ValidCompletion, NextControls, NextCompletion, Retired;
    var db' := Advance(db, now, r, next, control, completion, kind).db;
    AdvanceWrites(db, now, r, next, control, completion, kind);
    forall x | x in db'.runs && db'.runs[x].worker in db'.workers && db'.runs[x].worker !in except
      ensures Rested(db'.workers[db'.runs[x].worker].lifecycle, db'.runs[x], Ops(db', x))
    {
      if x != r {
        OtherRuns(db, now, r, next, control, completion, kind, x);
      }
    }
  }

  lemma StepKeysOk(db: Db, now: Time, r: Id, next: Run, control: ControlChange, completion: CompletionChange,
                   kind: EventKind)
    requires r in db.runs && KeysOk(db) && PublicationsDistinct(db.completions)
    requires Advance(db, now, r, next, control, completion, kind).Done?
    ensures KeysOk(Advance(db, now, r, next, control, completion, kind).db)
    ensures PublicationsDistinct(Advance(db, now, r, next, control, completion, kind).db.completions)
  {
    hide ValidRun, ValidCompletion, NextControls, NextCompletion, PublicationsDistinct;
    AdvanceWrites(db, now, r, next, control, completion, kind);
    NextCompletionFields(CompletionOf(db, r), completion, next.revision, now);
    if r in db.completions {
      CompletionsStep(db.completions, r, NextCompletion(CompletionOf(db, r), completion, next.revision, now).value);
    }
  }

  /** The worker-level facts a step needs besides being lawful for its run. */
  ghost predicate Fitting(db: Db, except: set<Id>, now: Time, r: Id, next: Run, control: ControlChange)
    requires r in db.runs
  {
    && ClaimFresh(db.runs, r, next)
    && next.worker in db.workers
    && (!db.workers[next.worker].lifecycle.Open? && next.worker !in except ==>
        Retired(next, NextControls(Ops(db, r), control, now)))
  }

  lemma StepKeepsCore(db: Db, except: set<Id>, now: Time, r: Id, next: Run, control: ControlChange,
                      completion: CompletionChange, kind: EventKind)
    requires Core(db, except) && Timely(db, now) && r in db.runs
    requires Advance(db, now, r, next, control, completion, kind).Done?
    requires Lawful(db.runs[r], next, Ops(db, r), CompletionOf(db, r), control, completion, kind, now)
    requires Fitting(db, except, now, r, next, control)
    ensures Core(Advance(db, now, r, next, control, completion, kind).db, except)
    ensures Timely(Advance(db, now, r, next, control, completion, kind).db, now)
    ensures Forward(db, Advance(db, now, r, next, control, completion, kind).db)
  {
    var db' := Advance(db, now, r, next, control, completion, kind).db;
    assert RunOk(db, r);
    LawfulCross(db.runs[r], next, Ops(db, r), CompletionOf(db, r), control, completion, kind, now);
    hide RunsOk, RunOk, CrossOk, KeysOk, ForestOk, PublicationsDistinct, EventsOk, WorkerTimesOk, RetiredOk, Forward,
         ClaimFresh, Lawful, Retired;
    AdvanceWrites(db, now, r, next, control, completion, kind);
    StepKeysOk(db, now, r, next, control, completion, kind);
    StepKeepsRuns(db, now, r, next, control, completion, kind);
    CrossStep(db.runs, r, next);
    StepEventsAppendable(db, now, r, next, control, completion, kind);
    WorkerTimesStep(db, db', except, now);
    RetiredStep(db, except, now, r, next, control, completion, kind);
    StepForward(db, now, r, next, control, completion, kind);
  }

  lemma LawfulCross(run: Run, next: Run, ops: seq<Control>, c: Option<Completion>, control: ControlChange,
                    completion: CompletionChange, kind: EventKind, now: Time)
    requires Lawful(run, next, ops, c, control, completion, kind, now) && RowOk(run)
    ensures SameIdentity(run, next) && !run.state.Terminal() && InClass(kind, History)
    ensures next.generation == run.generation || run.generation == 0
    ensures next.generation == run.generation && next.state.ControllerActive() ==> run.state.ControllerActive()
  { }
}
