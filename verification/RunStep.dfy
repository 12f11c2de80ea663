/**
 One lawful step of one run keeps everything the invariant says about that run.

 `Lawful` is the whole vocabulary of steps: a row moves forward one revision, its control
 history is kept, extended or closed, and its completion is left, committed or abandoned.
 */
module RunStep {
  import opened AgentTypes
  import opened Tables
  import opened Invariant

  /** How a run may end under a control operation of a given kind. */
  predicate VerdictFits(kind: ControlKind, next: Run) {
    match kind
    case Cancel =>
      || next.state.Cancelled?
      || (next.state.Interrupted? && next.failure == Some(ControlUnavailable))
    case Recover(LeaseExpired) =>
      || next.state.Succeeded?
      || (next.state.Interrupted? && next.failure == Some(ControllerLost))
    case Recover(ExecutionTimedOut) => next.state.TimedOut?
    case Recover(CancellationAbandoned) => next.state.Cancelled?
  }

  predicate ControlLawful(run: Run, next: Run, ops: seq<Control>, change: ControlChange, now: Time) {
    match change
    case Keep => !run.state.Cancelling? && !next.state.Cancelling?
    case Push(op) =>
      && run.state.ControllerActive() && next.state.Cancelling?
      && next.generation == run.generation
      && op.status.Active? && op.generation == next.generation && op.revision == next.revision
      && op.controller == next.controller && op.createdAt == now && op.updatedAt == now && now < op.expiresAt
      && op.settledAt.None?
      && !KnownOp(ops, op.op)
      && (if ops == [] then op.kind != Recover(CancellationAbandoned) else MayFollow(Last(ops).kind, op.kind))
    case Finish =>
      && run.state.Cancelling? && next.state.Terminal() && next.generation == run.generation
      && (ops != [] ==> VerdictFits(Last(ops).kind, next))
  }

  predicate CompletionLawful(next: Run, ops: seq<Control>, c: Option<Completion>, control: ControlChange,
                             change: CompletionChange) {
    match change
    case Leave => !next.state.Succeeded? && (c.Some? ==> next.state.Running? || next.state.Cancelling?)
    case Commit(via) =>
      && next.state.Succeeded? && c.Some?
      && (via.Some? <==> control.Finish?)
      && (via.Some? ==> ops != [] && Last(ops).op == via.value)
    case Abandon => next.state.Terminal() && !next.state.Succeeded?
  }

  predicate ClaimLawful(run: Run, next: Run, kind: EventKind, now: Time) {
    if run.generation == next.generation then next.deadline == run.deadline
    else
      && run.state.Queued? && next.state.Starting? && kind.RunClaimed?
      && next.deadline == Some(After(now, run.spec.timeoutSeconds))
  }

  predicate Lawful(run: Run, next: Run, ops: seq<Control>, c: Option<Completion>, control: ControlChange,
                   completion: CompletionChange, kind: EventKind, now: Time) {
    && RowOk(next)
    && SameIdentity(run, next)
    && !run.state.Terminal() && run.state.Rank() <= next.state.Rank()
    && next.revision == run.revision + 1
    && run.updatedAt <= now && next.updatedAt == now
    && InClass(kind, History) && (kind.CompletionCommitted? <==> next.state.Succeeded?)
    && ClaimLawful(run, next, kind, now)
    && ControlLawful(run, next, ops, control, now)
    && CompletionLawful(next, ops, c, control, completion)
    && SameHolder(run, next)
  }

  // --- Selecting the events of a run -------------------------------------------------------------

  lemma SelectAppend(es: seq<Event>, e: Event, r: Id, c: Class)
    ensures Select(es + [e], r, c) == if Picks(e, r, c) then Select(es, r, c) + [e] else Select(es, r, c)
  {
    assert (es + [e])[..|es|] == es;
  }

  lemma {:induction false} SelectMember(es: seq<Event>, r: Id, c: Class, i: nat)
    requires i < |Select(es, r, c)|
    ensures Select(es, r, c)[i] in es && Picks(Select(es, r, c)[i], r, c)
  {
    var front, last := es[..|es| - 1], es[|es| - 1];
    if i < |Select(front, r, c)| {
      SelectMember(front, r, c, i);
    }
    assert es == front + [last];
  }

  lemma {:induction false} SelectComplete(es: seq<Event>, r: Id, c: Class, k: nat)
    requires k < |es| && Picks(es[k], r, c)
    ensures es[k] in Select(es, r, c)
  {
    var front := es[..|es| - 1];
    if k < |front| {
      SelectComplete(front, r, c, k);
      var i :| 0 <= i < |Select(front, r, c)| && Select(front, r, c)[i] == es[k];
      assert Select(es, r, c)[i] == es[k];
    } else {
      assert Select(es, r, c)[|Select(front, r, c)|] == es[k];
    }
  }

  /** Selected events are bounded by the outbox they come from. */
  lemma SelectBounds(db: Db, r: Id, c: Class, i: nat, now: Time)
    requires EventsOk(db) && Timely(db, now) && i < |Select(db.events, r, c)|
    ensures Select(db.events, r, c)[i].sequence < db.nextSequence
    ensures Select(db.events, r, c)[i].occurredAt <= now
  {
    SelectMember(db.events, r, c, i);
    var k :| 0 <= k < |db.events| && db.events[k] == Select(db.events, r, c)[i];
    assert EventOk(db, k);
  }

  /** A run was last written at or before the operation time. */
  lemma RunIsPast(db: Db, r: Id, now: Time)
    requires r in db.runs && RunOk(db, r) && EventsOk(db) && Timely(db, now)
    ensures db.runs[r].updatedAt <= now
    ensures r in db.completions ==> db.completions[r].preparedAt <= now
  {
    SelectBounds(db, r, History, db.runs[r].revision, now);
    if r in db.completions {
      SelectBounds(db, r, PreparedMark, 0, now);
    }
  }

  // --- History -----------------------------------------------------------------------------------

  lemma HistoryStep(r: Id, run: Run, next: Run, h: seq<Event>, e: Event, now: Time)
    requires HistoryOk(r, run, h) && RowOk(run) && RowOk(next) && SameIdentity(run, next)
    requires !run.state.Terminal()
    requires next.revision == run.revision + 1 && run.updatedAt <= now && next.updatedAt == now
    requires e.mark == Some(MarkOf(r, next)) && e.worker == run.worker && e.occurredAt == now
    requires (e.kind.CompletionCommitted? <==> next.state.Succeeded?) && ClaimLawful(run, next, e.kind, now)
    ensures HistoryOk(r, next, h + [e])
  {
    var h' := h + [e];
    assert forall i :: 0 <= i < |h| ==> h'[i] == h[i];
    forall i | 0 <= i < |h'| ensures MarkOk(r, next, h'[i], i) {
      if i < |h| { assert MarkOk(r, run, h[i], i); }
    }
  }

  // --- Control operations ------------------------------------------------------------------------

  lemma LastActive(run: Run, ops: seq<Control>)
    requires ControlsOk(run, ops)
    ensures ActiveIndex(ops) == if run.state.Cancelling? then |ops| - 1 else -1
  {
    if ops != [] {
      forall i | 0 <= i < |ops| - 1 ensures !ops[i].status.Active? { assert ControlOk(run, ops, i); }
    }
  }

  /** Older operations stay in order under a newer row. */
  lemma ControlLater(run: Run, next: Run, ops: seq<Control>, ops': seq<Control>, i: nat)
    requires i < |ops| <= |ops'| && ControlOk(run, ops, i)
    requires next.generation == run.generation && run.revision <= next.revision && run.updatedAt <= next.updatedAt
    requires ops'[i] == ops[i]
             && (i > 0 ==> ops'[i - 1].revision == ops[i - 1].revision && ops'[i - 1].kind == ops[i - 1].kind)
    requires i < |ops'| - 1 ==> ops[i].status.Superseded?
    ensures ControlOk(next, ops', i)
  { }

  lemma ControlsPush(run: Run, next: Run, ops: seq<Control>, op: Control, now: Time)
    requires ControlsOk(run, ops) && RowOk(run) && RowOk(next)
    requires next.revision == run.revision + 1 && run.updatedAt <= now && next.updatedAt == now
    requires ControlLawful(run, next, ops, Push(op), now)
    ensures ControlsOk(next, NextControls(ops, Push(op), now))
  {
    LastActive(run, ops);
    var closed := Close(ops, Superseded, now);
    var ops' := closed + [op];
    var n := |ops|;
    forall i | 0 <= i < |ops'| ensures ControlOk(next, ops', i) {
      if i < n { assert ControlOk(run, ops, i); }
      if i < n - 1 {
        ControlLater(run, next, ops, ops', i);
      } else if i == n && 0 < n {
        assert ControlOk(run, ops, n - 1);
      }
    }
  }

  lemma ControlsFinish(run: Run, next: Run, ops: seq<Control>, now: Time)
    requires ControlsOk(run, ops) && RowOk(run) && RowOk(next)
    requires next.revision == run.revision + 1 && run.updatedAt <= now && next.updatedAt == now
    requires ControlLawful(run, next, ops, Finish, now)
    ensures ControlsOk(next, NextControls(ops, Finish, now))
  {
    LastActive(run, ops);
    var ops' := Close(ops, Settled, now);
    var n := |ops|;
    forall i | 0 <= i < |ops'| ensures ControlOk(next, ops', i) {
      assert ControlOk(run, ops, i);
      if i < n - 1 {
        ControlLater(run, next, ops, ops', i);
      }
    }
  }

  lemma ControlsStep(run: Run, next: Run, ops: seq<Control>, control: ControlChange, now: Time)
    requires ControlsOk(run, ops) && RowOk(run) && RowOk(next) && !run.state.Terminal()
    requires next.revision == run.revision + 1 && run.updatedAt <= now && next.updatedAt == now
    requires ControlLawful(run, next, ops, control, now)
    ensures ControlsOk(next, NextControls(ops, control, now))
  {
    match control
    case Keep => assert ops == [];
    case Push(op) => ControlsPush(run, next, ops, op, now);
    case Finish => ControlsFinish(run, next, ops, now);
  }

  // --- The whole run -----------------------------------------------------------------------------

  /** The events one step of a run appends. */
  function StepEvents(db: Db, now: Time, r: Id, next: Run, kind: EventKind, abandons: bool): seq<Event>
    requires next.worker in db.workers
  {
    var w := db.workers[next.worker];
    var e := Event(db.nextSequence, next.worker, Some(MarkOf(r, next)), now, kind, w.revision, w.lifecycle);
    if abandons then [e, e.(sequence := e.sequence + 1, kind := CompletionAbandoned)] else [e]
  }

  /** What an accepted step of a run writes, table by table. */
  lemma AdvanceWrites(db: Db, now: Time, r: Id, next: Run, control: ControlChange, completion: CompletionChange,
                      kind: EventKind)
    requires r in db.runs && Advance(db, now, r, next, control, completion, kind).Done?
    ensures next.worker == db.runs[r].worker && next.worker in db.workers
    ensures var db' := Advance(db, now, r, next, control, completion, kind).db;
            var es := StepEvents(db, now, r, next, kind, Abandons(CompletionOf(db, r), completion));
            && db' == WriteRun(db, now, r, next, control, completion).(
                        events := db.events + es, nextSequence := db.nextSequence + |es|)
            && r in db'.runs && db'.runs[r] == next
            && Ops(db', r) == NextControls(Ops(db, r), control, now)
            && CompletionOf(db', r) == NextCompletion(CompletionOf(db, r), completion, next.revision, now)
  {
    hide ValidRun, ValidCompletion, NextControls;
    var es := StepEvents(db, now, r, next, kind, Abandons(CompletionOf(db, r), completion));
    if |es| == 2 {
      assert db.events + es == db.events + [es[0]] + [es[1]];
    }
  }

  // --- Completions -------------------------------------------------------------------------------

  lemma CompletionStep(run: Run, next: Run, ops: seq<Control>, c: Option<Completion>, h: seq<Event>, p: seq<Event>,
                       a: seq<Event>, e: Event, control: ControlChange, change: CompletionChange, now: Time)
    requires CompletionOk(run, c, ops, h, p, a) && ControlsOk(run, ops) && RowOk(run) && RowOk(next)
    requires SameIdentity(run, next) && !run.state.Terminal() && run.state.Rank() <= next.state.Rank()
    requires run.generation == next.generation || run.state.Queued?
    requires next.revision == run.revision + 1 && next.updatedAt == now
    requires ControlLawful(run, next, ops, control, now) && CompletionLawful(next, ops, c, control, change)
    requires |h| == run.revision + 1
    requires e.mark == Some(MarkOf(RunOf(e), next)) && e.worker == next.worker && e.occurredAt == now
    requires p != [] ==> p[0].sequence < e.sequence
    requires NextCompletion(c, change, next.revision, now).Some? ==>
               ValidCompletion(NextCompletion(c, change, next.revision, now).value)
    ensures CompletionOk(next, NextCompletion(c, change, next.revision, now), NextControls(ops, control, now),
                         h + [e], p,
                         if Abandons(c, change) then a + [e.(sequence := e.sequence + 1, kind := CompletionAbandoned)]
                             else a)
  {
    LastActive(run, ops);
    if c.Some? {
      assert c.value.status.Prepared?;
      assert (h + [e])[next.revision] == e;
    }
  }

  function RunOf(e: Event): Id {
    if e.mark.Some? then e.mark.value.run else 0
  }

  /** The step's events reach exactly the selections of its own run. */
  lemma StepSelect(db: Db, now: Time, r: Id, next: Run, kind: EventKind, abandons: bool, x: Id, c: Class)
    requires next.worker in db.workers && InClass(kind, History)
    ensures var es := StepEvents(db, now, r, next, kind, abandons);
            Select(db.events + es, x, c) ==
            if x != r then Select(db.events, x, c)
            else
              match c
              case History => Select(db.events, r, History) + [es[0]]
              case PreparedMark => Select(db.events, r, PreparedMark)
              case AbandonedMark => Select(db.events, r, AbandonedMark) + (if abandons then [es[1]] else [])
  {
    hide Select;
    var es := StepEvents(db, now, r, next, kind, abandons);
    SelectAppend(db.events, es[0], x, c);
    if abandons {
      SelectAppend(db.events + [es[0]], es[1], x, c);
      assert db.events + es == db.events + [es[0]] + [es[1]];
    } else {
      assert es == [es[0]];
    }
  }

  /** A lawful, accepted step leaves its own run in order. */
  lemma StepKeepsRun(db: Db, now: Time, r: Id, next: Run, control: ControlChange, completion: CompletionChange,
                     kind: EventKind)
    requires r in db.runs && RunOk(db, r) && EventsOk(db) && Timely(db, now)
    requires Advance(db, now, r, next, control, completion, kind).Done?
    requires Lawful(db.runs[r], next, Ops(db, r), CompletionOf(db, r), control, completion, kind, now)
    ensures r in Advance(db, now, r, next, control, completion, kind).db.runs
    ensures RunOk(Advance(db, now, r, next, control, completion, kind).db, r)
  {
    hide Select, StateFields, HistoryOk, ControlsOk, NextControls;
    var run, ops, c := db.runs[r], Ops(db, r), CompletionOf(db, r);
    var db' := Advance(db, now, r, next, control, completion, kind).db;
    var abandons := Abandons(c, completion);
    AdvanceWrites(db, now, r, next, control, completion, kind);
    var es := StepEvents(db, now, r, next, kind, abandons);
    var h, p, a := Select(db.events, r, History), Select(db.events, r, PreparedMark),
        Select(db.events, r, AbandonedMark);
    StepSelect(db, now, r, next, kind, abandons, r, History);
    StepSelect(db, now, r, next, kind, abandons, r, PreparedMark);
    StepSelect(db, now, r, next, kind, abandons, r, AbandonedMark);
    if p != [] {
      SelectBounds(db, r, PreparedMark, 0, now);
    }
    HistoryStep(r, run, next, h, es[0], now);
    ControlsStep(run, next, ops, control, now);
    CompletionStep(run, next, ops, c, h, p, a, es[0], control, completion, now);
  }
}
