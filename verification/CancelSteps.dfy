/** What one cancel request does to the runs and to the workers it covers. */
module CancelSteps {
  import opened AgentTypes
  import opened Tables
  import opened Operations
  import opened CancelTree
  import opened Invariant
  import opened Progress
  import opened RunStep
  import opened CoreStep
  import opened InvStep
  import opened RunOps
  import F = Forest

  // --- One run -----------------------------------------------------------------------------------

  predicate Untouched(db: Db, db': Db, x: Id) {
    x in db.runs && x in db'.runs && db'.runs[x] == db.runs[x] && Ops(db', x) == Ops(db, x)
  }

  /** A queued run is cancelled on the spot; any other is now under this very cancel operation. */
  predicate Cut(db: Db, db': Db, x: Id, op: Id) {
    && x in db.runs && x in db'.runs
    && db'.runs[x].worker == db.runs[x].worker && db'.runs[x].generation == db.runs[x].generation
    && if db.runs[x].state.Queued? then db'.runs[x].state.Cancelled? && Ops(db', x) == Ops(db, x)
       else
         && db'.runs[x].state.Cancelling?
         && |Ops(db, x)| <= |Ops(db', x)| <= |Ops(db, x)| + 1 && Ops(db', x) != []
         && Last(Ops(db', x)).op == op && Last(Ops(db', x)).kind.Cancel?
  }

  /** Only rows, operations, completions and events of runs differ. */
  predicate SameElsewhere(db: Db, db': Db) {
    && db'.runs.Keys == db.runs.Keys && db'.workers == db.workers && db'.plans == db.plans
    && db'.progress == db.progress && db'.dispositions == db.dispositions
  }

  ghost predicate RunsCut(db: Db, db': Db, rs: seq<Id>, op: Id) {
    && SameElsewhere(db, db')
    && (forall x :: x in db.runs && x !in rs ==> Untouched(db, db', x))
    && (forall i :: 0 <= i < |rs| ==> Cut(db, db', rs[i], op))
  }

  /** The tables may be read on after this step. */
  ghost predicate Sound(db: Db, db': Db, except: set<Id>, now: Time) {
    Core(db', except) && Timely(db', now) && Forward(db, db')
  }

  lemma CoreFacts(db: Db, except: set<Id>, now: Time, r: Id)
    requires r in db.runs && Core(db, except) && Timely(db, now)
    ensures RowOk(db.runs[r]) && ControlsOk(db.runs[r], Ops(db, r)) && db.runs[r].updatedAt <= now
    ensures r in db.completions ==>
              StatusFits(db.runs[r].state, db.completions[r].status) && ValidCompletion(db.completions[r])
    ensures db.runs[r].worker in db.workers
    ensures RunOk(db, r) && EventsOk(db)
  {
    hide CrossOk, ForestOk, WorkerTimesOk, PublicationsDistinct, RetiredOk, HistoryOk, ControlsOk, RowOk, EventsOk,
         Select, ValidCompletion;
    assert RunOk(db, r);
    RunIsPast(db, r, now);
  }

  lemma QueuedCancelLawful(run: Run, ops: seq<Control>, now: Time)
    requires RowOk(run) && run.state.Queued? && run.updatedAt <= now
    ensures Lawful(run, EndedRow(run, RunState.Cancelled, Some(FailureCode.Cancelled), now), ops, None, Keep, Leave,
                   CancelSettled, now)
  { }

  lemma FenceLawful(run: Run, ops: seq<Control>, c: Option<Completion>, now: Time, control: Control)
    requires RowOk(run) && run.state.ControllerActive() && run.updatedAt <= now
    requires c.Some? ==> StatusFits(run.state, c.value.status)
    requires ControlLawful(run, FencedRow(run, now), ops, Push(control), now)
    ensures Lawful(run, FencedRow(run, now), ops, c, Push(control), Leave, CancelRequested, now)
  { }

  lemma FenceIsRetired(run: Run, ops: seq<Control>, control: Control, now: Time)
    requires control.kind.Cancel?
    ensures Retired(FencedRow(run, now), NextControls(ops, Push(control), now))
    ensures |NextControls(ops, Push(control), now)| == |ops| + 1
            && Last(NextControls(ops, Push(control), now)) == control
  { }

  lemma LawfulKind(run: Run, next: Run, ops: seq<Control>, c: Option<Completion>, control: ControlChange,
                   completion: CompletionChange, kind: EventKind, now: Time)
    requires Lawful(run, next, ops, c, control, completion, kind, now)
    ensures InClass(kind, History)
  { }

  lemma NoCompletionYet(db: Db, except: set<Id>, now: Time, r: Id)
    requires r in db.runs && db.runs[r].state.Queued?
    requires Core(db, except) && Timely(db, now)
    ensures CompletionOf(db, r).None?
  {
    hide Core, RowOk, ControlsOk, RunOk, EventsOk, ValidCompletion;
    CoreFacts(db, except, now, r);
  }

  /** One accepted step of one run, as the fold below needs it. */
  lemma StepCuts(db: Db, except: set<Id>, now: Time, r: Id, next: Run, control: ControlChange,
                 completion: CompletionChange, kind: EventKind)
    requires r in db.runs
    requires Lawful(db.runs[r], next, Ops(db, r), CompletionOf(db, r), control, completion, kind, now)
    requires Fitting(db, except, now, r, next, control)
    requires Core(db, except) && Timely(db, now)
    ensures var out := Advance(db, now, r, next, control, completion, kind);
            && out.Done? && out.value == next
            && SameElsewhere(db, out.db)
            && (forall x :: x in db.runs && x != r ==> Untouched(db, out.db, x))
            && r in out.db.runs && out.db.runs[r] == next && Ops(out.db, r) == NextControls(Ops(db, r), control, now)
            && Sound(db, out.db, except, now)
  {
    hide Core, Lawful, Fitting, RunOk, EventsOk, Forward, RowOk, ControlsOk, Advance, NextControls, NextCompletion,
         ValidCompletion, StatusFits;
    CoreFacts(db, except, now, r);
    LawfulKind(db.runs[r], next, Ops(db, r), CompletionOf(db, r), control, completion, kind, now);
    LawfulAccepted(db, now, r, next, control, completion, kind);
    StepKeepsCore(db, except, now, r, next, control, completion, kind);
    AdvanceWrites(db, now, r, next, control, completion, kind);
    var db' := Advance(db, now, r, next, control, completion, kind).db;
    forall x | x in db.runs && x != r ensures Untouched(db, db', x) {
      OtherRuns(db, now, r, next, control, completion, kind, x);
    }
  }

  /** Which tickets a request hands out for a list of runs: one for each that has a controller. */
  function Controlled(db: Db, rs: seq<Id>): seq<Id> {
    if rs == [] then []
    else
      var front, r := Controlled(db, rs[..|rs| - 1]), rs[|rs| - 1];
      if r in db.runs && db.runs[r].state.Queued? then front else front + [r]
  }

  lemma ControlledOne(db: Db, r: Id)
    ensures Controlled(db, [r]) == if r in db.runs && db.runs[r].state.Queued? then [] else [r]
  {
    assert [r][..0] == [];
  }

  function TicketRuns(ts: seq<CancelTicket>): (rs: seq<Id>)
    ensures |rs| == |ts| && forall i :: 0 <= i < |ts| ==> rs[i] == ts[i].run
  {
    seq(|ts|, i requires 0 <= i < |ts| => ts[i].run)
  }

  ghost predicate TicketsLive(db: Db, now: Time, ts: seq<CancelTicket>) {
    forall i :: 0 <= i < |ts| ==> ts[i].run in db.runs && CancelTicketLive(db, now, ts[i])
  }

  /** What cancelling some runs achieves when it is not refused. */
  ghost predicate RunsCancelled(db: Db, except: set<Id>, now: Time, rs: seq<Id>, op: Id, out: Outcome<Tally>) {
    match out
    case Rejected(e) => e != CorruptData
    case Done(db', tally) =>
      && RunsCut(db, db', rs, op)
      && TicketRuns(tally.tickets) == Controlled(db, rs)
      && TicketsLive(db', now, tally.tickets)
      && Sound(db, db', except, now)
  }

  lemma OneCut(db: Db, db': Db, r: Id, op: Id)
    requires r in db.runs && SameElsewhere(db, db') && (forall x :: x in db.runs && x != r ==> Untouched(db, db', x))
    requires Cut(db, db', r, op)
    ensures RunsCut(db, db', [r], op)
  {
    hide Cut, Untouched, SameElsewhere;
  }

  lemma QueuedCancelFits(db: Db, except: set<Id>, now: Time, r: Id)
    requires r in db.runs && db.runs[r].worker in db.workers
    ensures Fitting(db, except, now, r, EndedRow(db.runs[r], RunState.Cancelled, Some(FailureCode.Cancelled), now),
                    Keep)
  { }

  /** The cancelled row of a queued run. */
  lemma CancelQueued(db: Db, except: set<Id>, now: Time, r: Id, op: Id)
    requires r in db.runs && db.runs[r].state.Queued?
    requires Core(db, except) && Timely(db, now)
    ensures var out := Advance(db, now, r, EndedRow(db.runs[r], RunState.Cancelled, Some(FailureCode.Cancelled), now),
                               Keep, Leave, CancelSettled);
            out.Done? && RunsCut(db, out.db, [r], op) && Sound(db, out.db, except, now)
  {
    hide Core, RowOk, ControlsOk, Lawful, Fitting, Advance, RunOk, EventsOk, Sound, SameElsewhere, ValidCompletion,
         StatusFits, RunsCut, Untouched;
    var next := EndedRow(db.runs[r], RunState.Cancelled, Some(FailureCode.Cancelled), now);
    CoreFacts(db, except, now, r);
    NoCompletionYet(db, except, now, r);
    QueuedCancelLawful(db.runs[r], Ops(db, r), now);
    QueuedCancelFits(db, except, now, r);
    StepCuts(db, except, now, r, next, Keep, Leave, CancelSettled);
    OneCut(db, Advance(db, now, r, next, Keep, Leave, CancelSettled).db, r, op);
  }

  lemma FenceFits(db: Db, except: set<Id>, now: Time, r: Id, control: Control)
    requires r in db.runs && db.runs[r].worker in db.workers && control.kind.Cancel?
    ensures Fitting(db, except, now, r, FencedRow(db.runs[r], now), Push(control))
  {
    hide NextControls;
    FenceIsRetired(db.runs[r], Ops(db, r), control, now);
  }

  /** The fence around a run with a controller, under an identifier its history does not know. */
  lemma CancelFenced(db: Db, except: set<Id>, now: Time, r: Id, control: Control)
    requires r in db.runs && db.runs[r].state.ControllerActive()
    requires control == NewControl(control.op, Cancel, FencedRow(db.runs[r], now), control.leaseOwner,
                                   control.expiresAt, control.hash.token, now)
    requires now < control.expiresAt && !KnownOp(Ops(db, r), control.op)
    requires Core(db, except) && Timely(db, now)
    ensures var out := Advance(db, now, r, FencedRow(db.runs[r], now), Push(control), Leave, CancelRequested);
            && out.Done? && RunsCut(db, out.db, [r], control.op) && Sound(db, out.db, except, now)
            && r in out.db.runs && out.db.runs[r] == FencedRow(db.runs[r], now)
            && ActiveOp(Ops(out.db, r)) == Some(control)
  {
    hide Core, RowOk, ControlsOk, Lawful, Fitting, Advance, RunOk, EventsOk, Sound, SameElsewhere, ValidCompletion,
         StatusFits, RunsCut, Untouched,
         NextControls, KnownOp;
    var next := FencedRow(db.runs[r], now);
    CoreFacts(db, except, now, r);
    FenceLawful(db.runs[r], Ops(db, r), CompletionOf(db, r), now, control);
    FenceFits(db, except, now, r, control);
    StepCuts(db, except, now, r, next, Push(control), Leave, CancelRequested);
    FenceIsRetired(db.runs[r], Ops(db, r), control, now);
    PushActive(Ops(db, r), control, now);
    OneCut(db, Advance(db, now, r, next, Push(control), Leave, CancelRequested).db, r, control.op);
  }

  /** A known identifier is refused by the table's key. */
  lemma CancelRefused(db: Db, except: set<Id>, now: Time, r: Id, control: Control)
    requires r in db.runs && db.runs[r].state.ControllerActive() && KnownOp(Ops(db, r), control.op)
    requires Core(db, except) && Timely(db, now)
    ensures Advance(db, now, r, FencedRow(db.runs[r], now), Push(control), Leave, CancelRequested)
            == Rejected(Constraint)
  {
    hide Core, RowOk, ControlsOk, SameIdentity, ValidCompletion, KnownOp, RunOk, EventsOk, StatusFits, ValidRun;
    CoreFacts(db, except, now, r);
    FencedRowOk(db.runs[r], now);
    RowIsValid(FencedRow(db.runs[r], now));
  }

  /** A live ticket of the same request, presented again: nothing is written. */
  lemma CancelReused(db: Db, except: set<Id>, now: Time, r: Id, t: CancelTicket)
    requires r in db.runs && t.run == r && t.worker == db.runs[r].worker
    requires ActiveOp(Ops(db, r)).Some? && CancelMatches(ActiveOp(Ops(db, r)).value, t, now)
    requires Core(db, except) && Timely(db, now)
    ensures RunsCut(db, db, [r], t.op) && CancelTicketLive(db, now, t) && Sound(db, db, except, now)
  {
    hide Core, RowOk, ControlOk, DistinctOps, RunOk, EventsOk, ValidCompletion, StatusFits, Forward;
    CoreFacts(db, except, now, r);
    LastActive(db.runs[r], Ops(db, r));
    assert ControlOk(db.runs[r], Ops(db, r), |Ops(db, r)| - 1);
    ControlGeneration(db.runs[r], Ops(db, r), |Ops(db, r)| - 1);
    ForwardReflexive(db);
  }

  lemma ControlGeneration(run: Run, ops: seq<Control>, i: nat)
    requires i < |ops| && ControlOk(run, ops, i)
    ensures ops[i].generation == run.generation
  { }

  lemma ActiveIsCancelling(db: Db, except: set<Id>, now: Time, r: Id)
    requires r in db.runs
    requires Core(db, except) && Timely(db, now)
    ensures ActiveOp(Ops(db, r)).Some? <==> db.runs[r].state.Cancelling?
  {
    hide Core, RowOk, ControlOk, DistinctOps, RunOk, EventsOk, ValidCompletion, StatusFits;
    CoreFacts(db, except, now, r);
    LastActive(db.runs[r], Ops(db, r));
  }

  /** Cancelling one run of the plan: the run is cut, or the whole request is refused for a caller's reason. */
  lemma CancelRunCuts(db: Db, except: set<Id>, now: Time, r: Id, req: CancelRequest, expiresAt: Time, seed: nat)
    requires r in db.runs && !db.runs[r].state.Terminal() && now < expiresAt
    requires Core(db, except) && Timely(db, now)
    ensures RunsCancelled(db, except, now, [r], req.op, CancelRun(db, now, r, req, expiresAt, seed))
  {
    hide Core, Advance, Sound, RunsCut, ActiveOp, CancelMatches, KnownOp, Controlled;
    var before, active := db.runs[r], ActiveOp(Ops(db, r));
    ControlledOne(db, r);
    ActiveIsCancelling(db, except, now, r);
    if before.state.Queued? {
      CancelQueued(db, except, now, r, req.op);
    } else if active.Some? && now < active.value.expiresAt {
      var retry := FindRetry(req.retry, r);
      if active.value.op == req.op && retry.Some? && retry.value.worker == before.worker
          && CancelMatches(active.value, retry.value, now) {
        SameOperation(active.value, retry.value, now);
        CancelReused(db, except, now, r, retry.value);
      }
    } else if !(active.Some? && active.value.op == req.op) {
      var next := FencedRow(before, now);
      var control := NewControl(req.op, Cancel, next, req.leaseOwner, expiresAt, Minted(seed + r), now);
      if KnownOp(Ops(db, r), req.op) {
        CancelRefused(db, except, now, r, control);
      } else {
        CancelFenced(db, except, now, r, control);
        FreshTicketLive(Advance(db, now, r, next, Push(control), Leave, CancelRequested).db, now, r, req, next,
                        control, Minted(seed + r));
      }
    }
  }

  lemma SameOperation(op: Control, t: CancelTicket, now: Time)
    requires CancelMatches(op, t, now)
    ensures op.op == t.op
  { }

  lemma FreshTicketLive(db: Db, now: Time, r: Id, req: CancelRequest, next: Run, control: Control, token: Token)
    requires r in db.runs && db.runs[r] == next && next.state.Cancelling? && ActiveOp(Ops(db, r)) == Some(control)
    requires control == NewControl(req.op, Cancel, next, req.leaseOwner, control.expiresAt, token, now)
             && now < control.expiresAt
    ensures CancelTicketLive(db, now, FencingTicket(req, r, next, control.expiresAt, token))
  { }

  // --- The runs of one worker --------------------------------------------------------------------

  lemma CutKnown(db: Db, db': Db, x: Id, op: Id)
    requires Cut(db, db', x, op)
    ensures x in db.runs && x in db'.runs
  { }

  lemma CutStays(db: Db, mid: Db, db': Db, x: Id, op: Id)
    requires x in db.runs && Cut(db, mid, x, op) && x in mid.runs && Untouched(mid, db', x)
    ensures Cut(db, db', x, op)
  { }

  lemma CutLater(db: Db, mid: Db, db': Db, x: Id, op: Id)
    requires x in db.runs && Untouched(db, mid, x) && x in mid.runs && Cut(mid, db', x, op)
    ensures Cut(db, db', x, op)
  { }

  lemma CutsCompose(db: Db, mid: Db, db': Db, front: seq<Id>, r: Id, op: Id)
    requires r in db.runs && r !in front
    requires RunsCut(db, mid, front, op) && RunsCut(mid, db', [r], op)
    ensures RunsCut(db, db', front + [r], op)
  {
    hide Cut;
    assert Cut(mid, db', [r][0], op);
    CutLater(db, mid, db', r, op);
    forall i | 0 <= i < |front| ensures Cut(db, db', front[i], op) {
      CutKnown(db, mid, front[i], op);
      CutStays(db, mid, db', front[i], op);
    }
  }

  lemma {:induction false} ControlledWithin(db: Db, rs: seq<Id>, x: Id)
    requires x in Controlled(db, rs)
    ensures x in rs
  {
    if x in Controlled(db, rs[..|rs| - 1]) { ControlledWithin(db, rs[..|rs| - 1], x); }
  }

  lemma ControlledAppend(db: Db, mid: Db, front: seq<Id>, r: Id)
    requires r in db.runs && r in mid.runs && mid.runs[r] == db.runs[r]
    ensures Controlled(db, front + [r]) == Controlled(db, front) + Controlled(mid, [r])
  {
    assert (front + [r])[..|front|] == front;
    ControlledOne(mid, r);
  }

  lemma TicketsAppend(ts: seq<CancelTicket>, us: seq<CancelTicket>)
    ensures TicketRuns(ts + us) == TicketRuns(ts) + TicketRuns(us)
  { }

  lemma LiveStays(db: Db, db': Db, now: Time, t: CancelTicket)
    requires t.run in db.runs && CancelTicketLive(db, now, t) && Untouched(db, db', t.run)
    ensures t.run in db'.runs && CancelTicketLive(db', now, t)
  { }

  lemma LiveThroughout(db: Db, mid: Db, db': Db, now: Time, front: seq<Id>, r: Id, op: Id, ts: seq<CancelTicket>)
    requires r in mid.runs && r !in front && TicketRuns(ts) == Controlled(db, front)
    requires TicketsLive(mid, now, ts) && RunsCut(mid, db', [r], op)
    ensures TicketsLive(db', now, ts)
  {
    hide CancelTicketLive, Untouched, Cut, Controlled;
    forall i | 0 <= i < |ts| ensures ts[i].run in db'.runs && CancelTicketLive(db', now, ts[i]) {
      assert TicketRuns(ts)[i] == ts[i].run;
      ControlledWithin(db, front, ts[i].run);
      LiveStays(mid, db', now, ts[i]);
    }
  }

  lemma SoundTrans(db: Db, mid: Db, db': Db, except: set<Id>, except': set<Id>, now: Time)
    requires Sound(db, mid, except, now) && Sound(mid, db', except', now)
    ensures Sound(db, db', except', now)
  {
    hide Core, Forward;
    ForwardTrans(db, mid, db');
  }

  lemma OutsideUntouched(db: Db, db': Db, rs: seq<Id>, x: Id, op: Id)
    requires RunsCut(db, db', rs, op) && x in db.runs && x !in rs
    ensures x in db'.runs && db'.runs[x] == db.runs[x] && Untouched(db, db', x)
  { }

  lemma RunsCancelledExtends(db: Db, except: set<Id>, now: Time, front: seq<Id>, r: Id, op: Id, mid: Outcome<Tally>,
                             last: Outcome<Tally>)
    requires mid.Done? && last.Done? && r in db.runs && r !in front
    requires RunsCancelled(db, except, now, front, op, mid)
    requires RunsCancelled(mid.db, except, now, [r], op, last)
    ensures RunsCancelled(db, except, now, front + [r], op, Done(last.db, Join(mid.value, last.value)))
  {
    hide Core, Forward, Sound, Controlled, CancelTicketLive, Cut, Untouched;
    OutsideUntouched(db, mid.db, front, r, op);
    CutsCompose(db, mid.db, last.db, front, r, op);
    ControlledAppend(db, mid.db, front, r);
    TicketsAppend(mid.value.tickets, last.value.tickets);
    LiveThroughout(db, mid.db, last.db, now, front, r, op, mid.value.tickets);
    SoundTrans(db, mid.db, last.db, except, except, now);
  }

  lemma NothingCut(db: Db, except: set<Id>, now: Time, op: Id)
    requires Core(db, except) && Timely(db, now)
    ensures RunsCut(db, db, [], op) && TicketsLive(db, now, []) && TicketRuns([]) == Controlled(db, [])
            && Sound(db, db, except, now)
  {
    hide Core, Forward;
    ForwardReflexive(db);
  }

  lemma SoundCore(db: Db, db': Db, except: set<Id>, now: Time)
    requires Sound(db, db', except, now)
    ensures Core(db', except) && Timely(db', now)
  { }

  lemma {:induction false} CancelRunsCuts(db: Db, except: set<Id>, now: Time, rs: seq<Id>, req: CancelRequest,
                                          expiresAt: Time, seed: nat)
    requires forall i :: 0 <= i < |rs| ==> rs[i] in db.runs && !db.runs[rs[i]].state.Terminal()
    requires F.Distinct(rs) && now < expiresAt
    requires Core(db, except) && Timely(db, now)
    ensures RunsCancelled(db, except, now, rs, req.op, CancelRuns(db, now, rs, req, expiresAt, seed))
  {
    hide Core, Forward, CancelRun, Cut, CancelTicketLive, Untouched, RunsCut, Sound, TicketsLive, Controlled;
    if rs == [] {
      NothingCut(db, except, now, req.op);
    } else {
      var front, r := rs[..|rs| - 1], rs[|rs| - 1];
      assert rs == front + [r] && r !in front;
      CancelRunsCuts(db, except, now, front, req, expiresAt, seed);
      var mid := CancelRuns(db, now, front, req, expiresAt, seed);
      if mid.Done? {
        OutsideUntouched(db, mid.db, front, r, req.op);
        SoundCore(db, mid.db, except, now);
        CancelRunCuts(mid.db, except, now, r, req, expiresAt, seed);
        var last := CancelRun(mid.db, now, r, req, expiresAt, seed);
        if last.Done? { RunsCancelledExtends(db, except, now, front, r, req.op, mid, last); }
      }
    }
  }
}
