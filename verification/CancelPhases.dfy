/**
 `request_cancel_tree` as the program runs it: first prepare every change from the tables as
 they are, then write the changes. Proved to commit exactly what the run-by-run definition
 commits, and to refuse exactly when it refuses and for the same reason.
 */
module CancelPhases {
  import opened AgentTypes
  import opened Tables
  import opened Operations
  import opened CancelTree
  import opened Invariant
  import opened RunStep
  import opened CoreStep
  import S = CancelSteps
  import K = CancelScope
  import F = Forest
  import W = TreeWalks

  datatype Result<+T> = Ok(value: T) | Err(error: Error)

  datatype Prepared =
    | PreparedQueued(run: Id, after: Run)
    | PreparedReuse(ticket: CancelTicket)
    | PreparedController(run: Id, after: Run, control: Control, token: Token)

  datatype PreparedWorker = PreparedWorker(id: Id, after: Worker, changed: bool, runs: seq<Prepared>)

  // --- One run -----------------------------------------------------------------------------------

  /** What to do with one unfinished run, read from the tables as they were. */
  function Prepare(db: Db, now: Time, r: Id, req: CancelRequest, expiresAt: Time, seed: nat): Result<Prepared> {
    if r !in db.runs then Err(NotFound)
    else
      var before, active := db.runs[r], ActiveOp(Ops(db, r));
      if before.state.Queued? then
        Ok(PreparedQueued(r, EndedRow(before, RunState.Cancelled, Some(FailureCode.Cancelled), now)))
      else if active.Some? && now < active.value.expiresAt then
        var retry := FindRetry(req.retry, r);
        if !active.value.kind.Cancel? || active.value.op != req.op || active.value.leaseOwner != req.leaseOwner
            then Err(ControlBusy)
        else if retry.None? || retry.value.worker != before.worker || !CancelMatches(active.value, retry.value, now)
            then Err(InvalidCancelTicket)
        else Ok(PreparedReuse(retry.value))
      else if active.Some? && active.value.op == req.op then Err(InvalidCancelTicket)
      else if active.None? && before.state.Cancelling? then Err(CorruptData)
      else
        var after, token := FencedRow(before, now), Minted(seed + r);
        Ok(PreparedController(r, after, NewControl(req.op, Cancel, after, req.leaseOwner, expiresAt, token, now),
                              token))
  }

  /** Write one prepared change. */
  function Apply(db: Db, now: Time, p: Prepared, req: CancelRequest): Outcome<seq<CancelTicket>> {
    match p
    case PreparedQueued(r, after) =>
      if r !in db.runs then Rejected(NotFound)
      else
        var out := Advance(db, now, r, after, Keep, Leave, CancelSettled);
        if out.Rejected? then Rejected(out.error) else Done(out.db, [])
    case PreparedReuse(t) => Done(db, [t])
    case PreparedController(r, after, control, token) =>
      if r !in db.runs then Rejected(NotFound)
      else
        var out := Advance(db, now, r, after, Push(control), Leave, CancelRequested);
        if out.Rejected? then Rejected(out.error)
            else Done(out.db, [FencingTicket(req, r, after, control.expiresAt, token)])
  }

  function Consumes(p: Prepared): set<Id> {
    if p.PreparedReuse? then {p.ticket.run} else {}
  }

  /** The same error, or the same tables and tickets. */
  ghost predicate Agrees(out: Outcome<seq<CancelTicket>>, reference: Outcome<Tally>) {
    && (out.Done? <==> reference.Done?)
    && (out.Done? ==> out.db == reference.db && out.value == reference.value.tickets)
    && (out.Rejected? ==> out.error == reference.error)
  }

  /** Preparing finds exactly the reasons, and exactly the tickets, that the run itself shows. */
  lemma PrepareRefusal(db: Db, now: Time, r: Id, req: CancelRequest, expiresAt: Time, seed: nat)
    ensures var p, refusal := Prepare(db, now, r, req, expiresAt, seed), RunRefusal(db, now, r, req);
            if p.Err? then refusal == Some(p.error)
            else refusal.None? && Consumes(p.value) == if Presents(db, now, r, req) then {r} else {}
  {
    hide ActiveOp, CancelMatches;
  }

  /** Preparing and then writing one run is what the definition does with it. */
  lemma PrepareThenApply(db: Db, now: Time, r: Id, req: CancelRequest, expiresAt: Time, seed: nat)
    ensures var p, reference := Prepare(db, now, r, req, expiresAt, seed), CancelRun(db, now, r, req, expiresAt, seed);
            if p.Err? then reference.Rejected?
            else
              && Agrees(Apply(db, now, p.value, req), reference)
              && (reference.Done? ==> reference.value.reused == Consumes(p.value))
  {
    hide Advance, ActiveOp, CancelMatches;
  }

  /** What is prepared for a run depends on that run alone. */
  lemma PrepareStable(db: Db, mid: Db, now: Time, r: Id, req: CancelRequest, expiresAt: Time, seed: nat)
    requires S.Untouched(db, mid, r)
    ensures Prepare(mid, now, r, req, expiresAt, seed) == Prepare(db, now, r, req, expiresAt, seed)
  { }

  // --- What a step leaves alone ------------------------------------------------------------------

  ghost predicate TouchesOnly(db: Db, db': Db, rs: seq<Id>) {
    && db'.workers == db.workers && db'.plans == db.plans && db'.runs.Keys == db.runs.Keys
    && (forall x :: x in db.runs ==> db'.runs[x].worker == db.runs[x].worker)
    && (forall x :: x in db.runs && x !in rs ==> S.Untouched(db, db', x))
  }

  lemma AdvanceTouches(db: Db, now: Time, r: Id, next: Run, control: ControlChange, kind: EventKind)
    requires r in db.runs && Advance(db, now, r, next, control, Leave, kind).Done? && InClass(kind, History)
    ensures TouchesOnly(db, Advance(db, now, r, next, control, Leave, kind).db, [r])
  {
    hide ValidRun, ValidCompletion, NextControls, NextCompletion, KnownOp;
    AdvanceWrites(db, now, r, next, control, Leave, kind);
    hide Advance;
    forall x | x in db.runs && x != r ensures S.Untouched(db, Advance(db, now, r, next, control, Leave, kind).db, x) {
      OtherRuns(db, now, r, next, control, Leave, kind, x);
    }
  }

  lemma CancelRunTouches(db: Db, now: Time, r: Id, req: CancelRequest, expiresAt: Time, seed: nat)
    requires CancelRun(db, now, r, req, expiresAt, seed).Done?
    ensures TouchesOnly(db, CancelRun(db, now, r, req, expiresAt, seed).db, [r])
  {
    hide Advance, ActiveOp, CancelMatches, TouchesOnly;
    var ended := EndedRow(db.runs[r], RunState.Cancelled, Some(FailureCode.Cancelled), now);
    if Advance(db, now, r, ended, Keep, Leave, CancelSettled).Done? {
      AdvanceTouches(db, now, r, ended, Keep, CancelSettled);
    }
    var next := FencedRow(db.runs[r], now);
    var control := NewControl(req.op, Cancel, next, req.leaseOwner, expiresAt, Minted(seed + r), now);
    if Advance(db, now, r, next, Push(control), Leave, CancelRequested).Done? {
      AdvanceTouches(db, now, r, next, Push(control), CancelRequested);
    }
    TouchesNothing(db, r);
  }

  lemma TouchesNothing(db: Db, r: Id)
    ensures TouchesOnly(db, db, [r]) && TouchesOnly(db, db, [])
  { }

  lemma TouchesBoth(db: Db, mid: Db, db': Db, rs: seq<Id>, r: Id)
    requires TouchesOnly(db, mid, rs) && TouchesOnly(mid, db', [r])
    ensures TouchesOnly(db, db', rs + [r])
  { }

  lemma {:induction false} CancelRunsTouch(db: Db, now: Time, rs: seq<Id>, req: CancelRequest, expiresAt: Time,
                                           seed: nat)
    requires CancelRuns(db, now, rs, req, expiresAt, seed).Done?
    ensures TouchesOnly(db, CancelRuns(db, now, rs, req, expiresAt, seed).db, rs)
  {
    hide CancelRun, TouchesOnly;
    if rs == [] {
      TouchesNothing(db, 0);
    } else {
      var front, r := rs[..|rs| - 1], rs[|rs| - 1];
      CancelRunsTouch(db, now, front, req, expiresAt, seed);
      var mid := CancelRuns(db, now, front, req, expiresAt, seed);
      CancelRunTouches(mid.db, now, r, req, expiresAt, seed);
      TouchesBoth(db, mid.db, CancelRun(mid.db, now, r, req, expiresAt, seed).db, front, r);
      assert rs == front + [r];
    }
  }

  // --- The runs of one worker --------------------------------------------------------------------

  ghost predicate AllPrepared(db: Db, now: Time, rs: seq<Id>, req: CancelRequest, expiresAt: Time, seed: nat,
                              ps: seq<Prepared>) {
    |ps| == |rs| && forall i :: 0 <= i < |rs| ==> Prepare(db, now, rs[i], req, expiresAt, seed) == Ok(ps[i])
  }

  ghost predicate AllUntouched(db: Db, mid: Db, rs: seq<Id>) {
    forall i :: 0 <= i < |rs| ==> S.Untouched(db, mid, rs[i])
  }

  function ApplyAll(db: Db, now: Time, ps: seq<Prepared>, req: CancelRequest): Outcome<seq<CancelTicket>> {
    if ps == [] then Done(db, [])
    else
      var front := ApplyAll(db, now, ps[..|ps| - 1], req);
      if front.Rejected? then front
      else
        var last := Apply(front.db, now, ps[|ps| - 1], req);
        if last.Rejected? then last else Done(last.db, front.value + last.value)
  }

  function ConsumesAll(ps: seq<Prepared>): set<Id> {
    if ps == [] then {} else ConsumesAll(ps[..|ps| - 1]) + Consumes(ps[|ps| - 1])
  }

  /** The run stays as it was while the runs before it are cancelled. */
  lemma StillUntouched(db: Db, mid: Db, now: Time, front: seq<Id>, r: Id, req: CancelRequest, expiresAt: Time,
                       seed: nat)
    requires S.Untouched(db, mid, r) && r !in front && CancelRuns(mid, now, front, req, expiresAt, seed).Done?
    ensures Prepare(CancelRuns(mid, now, front, req, expiresAt, seed).db, now, r, req, expiresAt, seed)
            == Prepare(db, now, r, req, expiresAt, seed)
  {
    hide CancelRuns, Prepare;
    CancelRunsTouch(mid, now, front, req, expiresAt, seed);
    PrepareStable(db, mid, now, r, req, expiresAt, seed);
    PrepareStable(mid, CancelRuns(mid, now, front, req, expiresAt, seed).db, now, r, req, expiresAt, seed);
  }

  lemma {:induction false} RunsRefused(db: Db, mid: Db, now: Time, rs: seq<Id>, req: CancelRequest, expiresAt: Time,
                                       seed: nat)
    requires F.Distinct(rs) && AllUntouched(db, mid, rs) && RunsRefusal(db, now, rs, req).Some?
    ensures CancelRuns(mid, now, rs, req, expiresAt, seed).Rejected?
  {
    hide CancelRun, Prepare, RunRefusal;
    var front, r := rs[..|rs| - 1], rs[|rs| - 1];
    PrepareRefusal(db, now, r, req, expiresAt, seed);
    if RunsRefusal(db, now, front, req).Some? {
      RunsRefused(db, mid, now, front, req, expiresAt, seed);
    } else if CancelRuns(mid, now, front, req, expiresAt, seed).Done? {
      StillUntouched(db, mid, now, front, r, req, expiresAt, seed);
      PrepareThenApply(CancelRuns(mid, now, front, req, expiresAt, seed).db, now, r, req, expiresAt, seed);
    }
  }

  lemma {:induction false} RunsAgree(db: Db, mid: Db, now: Time, rs: seq<Id>, req: CancelRequest, expiresAt: Time,
                                     seed: nat, ps: seq<Prepared>)
    requires F.Distinct(rs) && AllUntouched(db, mid, rs) && AllPrepared(db, now, rs, req, expiresAt, seed, ps)
    ensures Agrees(ApplyAll(mid, now, ps, req), CancelRuns(mid, now, rs, req, expiresAt, seed))
    ensures CancelRuns(mid, now, rs, req, expiresAt, seed).Done? ==>
              CancelRuns(mid, now, rs, req, expiresAt, seed).value.reused == ConsumesAll(ps)
  {
    hide CancelRun, Prepare, Apply, Consumes;
    if rs == [] {
    } else {
      var n := |rs| - 1;
      var front, r := rs[..n], rs[n];
      RunsAgree(db, mid, now, front, req, expiresAt, seed, ps[..n]);
      var done := CancelRuns(mid, now, front, req, expiresAt, seed);
      if done.Done? {
        StillUntouched(db, mid, now, front, r, req, expiresAt, seed);
        PrepareThenApply(done.db, now, r, req, expiresAt, seed);
      }
    }
  }

  method PrepareRuns(db: Db, now: Time, rs: seq<Id>, req: CancelRequest, expiresAt: Time, seed: nat)
    returns (out: Result<seq<Prepared>>, consumed: set<Id>)
    ensures out.Ok? ==> AllPrepared(db, now, rs, req, expiresAt, seed, out.value) && consumed == ConsumesAll(out.value)
    ensures out.Ok? ==> RunsRefusal(db, now, rs, req).None? && consumed == RunsPresented(db, now, rs, req)
    ensures out.Err? ==> RunsRefusal(db, now, rs, req) == Some(out.error)
  {
    hide Prepare, RunRefusal, Presents;
    var prepared: seq<Prepared> := [];
    consumed := {};
    for i := 0 to |rs|
      invariant AllPrepared(db, now, rs[..i], req, expiresAt, seed, prepared) && consumed == ConsumesAll(prepared)
      invariant RunsRefusal(db, now, rs[..i], req).None? && consumed == RunsPresented(db, now, rs[..i], req)
    {
      var p := Prepare(db, now, rs[i], req, expiresAt, seed);
      PrepareRefusal(db, now, rs[i], req, expiresAt, seed);
      assert rs[..i + 1][..i] == rs[..i];
      if p.Err? {
        RunReasonStays(db, now, rs, req, i + 1);
        return Err(p.error), consumed;
      }
      if p.value.PreparedReuse? { consumed := consumed + {p.value.ticket.run}; }
      assert (prepared + [p.value])[..|prepared|] == prepared;
      prepared := prepared + [p.value];
      assert rs[..i + 1] == rs[..i] + [rs[i]];
    }
    assert rs[..|rs|] == rs;
    return Ok(prepared), consumed;
  }

  /** The first reason is the reason of the whole. */
  lemma {:induction false} RunReasonStays(db: Db, now: Time, rs: seq<Id>, req: CancelRequest, i: nat)
    requires i <= |rs| && RunsRefusal(db, now, rs[..i], req).Some?
    ensures RunsRefusal(db, now, rs, req) == RunsRefusal(db, now, rs[..i], req)
    decreases |rs| - i
  {
    hide RunRefusal;
    if i < |rs| {
      assert rs[..i + 1][..i] == rs[..i];
      RunReasonStays(db, now, rs, req, i + 1);
    } else {
      assert rs[..i] == rs;
    }
  }

  method ApplyRuns(db: Db, now: Time, ps: seq<Prepared>, req: CancelRequest) returns (out: Outcome<seq<CancelTicket>>)
    ensures out == ApplyAll(db, now, ps, req)
  {
    hide Apply;
    var txn, tickets := db, [];
    for i := 0 to |ps|
      invariant ApplyAll(db, now, ps[..i], req) == Done(txn, tickets)
    {
      var step := Apply(txn, now, ps[i], req);
      assert ps[..i + 1][..i] == ps[..i];
      if step.Rejected? {
        RefusalStays(db, now, ps, req, i + 1);
        return step;
      }
      txn, tickets := step.db, tickets + step.value;
    }
    assert ps[..|ps|] == ps;
    return Done(txn, tickets);
  }

  /** A refusal part way through is the refusal of the whole. */
  lemma {:induction false} RefusalStays(db: Db, now: Time, ps: seq<Prepared>, req: CancelRequest, i: nat)
    requires i <= |ps| && ApplyAll(db, now, ps[..i], req).Rejected?
    ensures ApplyAll(db, now, ps, req) == ApplyAll(db, now, ps[..i], req)
    decreases |ps| - i
  {
    hide Apply;
    if i < |ps| {
      assert ps[..i + 1][..i] == ps[..i];
      RefusalStays(db, now, ps, req, i + 1);
    } else {
      assert ps[..i] == ps;
    }
  }

  // --- The workers of the subtree ----------------------------------------------------------------

  ghost predicate WorkerPrepared(db: Db, now: Time, w: Id, req: CancelRequest, expiresAt: Time, seed: nat,
                                 pw: PreparedWorker) {
    && w in db.workers && pw.id == w
    && pw.changed == db.workers[w].lifecycle.Open?
    && (pw.changed ==> req.op !in db.plans && pw.after == DrainedRow(db.workers[w], now))
    && AllPrepared(db, now, Pending(db, w), req, expiresAt, seed, pw.runs)
  }

  function ApplyWorker(db: Db, now: Time, pw: PreparedWorker, req: CancelRequest): Outcome<seq<CancelTicket>> {
    if !pw.changed then ApplyAll(db, now, pw.runs, req)
    else if !ValidWorker(pw.id, pw.after) then Rejected(CorruptData)
    else
      var out := ApplyAll(db.(workers := db.workers[pw.id := pw.after]), now, pw.runs, req);
      if out.Rejected? then out
      else if pw.id !in out.db.workers then Rejected(NotFound)
      else Done(Emit(out.db, now, pw.id, None, CancelRequested), out.value)
  }

  /** The worker and its unfinished runs are as they were when the request began. */
  ghost predicate WorkerUntouched(db: Db, mid: Db, w: Id) {
    && w in db.workers && w in mid.workers && mid.workers[w] == db.workers[w] && mid.plans == db.plans
    && Pending(mid, w) == Pending(db, w) && AllUntouched(db, mid, Pending(db, w))
  }

  lemma WorkerAgrees(db: Db, mid: Db, now: Time, w: Id, req: CancelRequest, expiresAt: Time, seed: nat,
                     pw: PreparedWorker)
    requires WorkerUntouched(db, mid, w) && WorkerPrepared(db, now, w, req, expiresAt, seed, pw)
    ensures Agrees(ApplyWorker(mid, now, pw, req), CancelWorker(mid, now, w, req, expiresAt, seed))
    ensures CancelWorker(mid, now, w, req, expiresAt, seed).Done? ==>
              CancelWorker(mid, now, w, req, expiresAt, seed).value.reused == ConsumesAll(pw.runs)
  {
    hide Pending, CancelRuns, ApplyAll, ConsumesAll, AllPrepared, ValidWorker;
    var rs := Pending(db, w);
    K.PendingDistinct(db, w);
    if pw.changed {
      var drained := mid.(workers := mid.workers[w := pw.after]);
      UntouchedElsewhere(db, mid, drained, rs);
      RunsAgree(db, drained, now, rs, req, expiresAt, seed, pw.runs);
    } else {
      RunsAgree(db, mid, now, rs, req, expiresAt, seed, pw.runs);
    }
  }

  lemma UntouchedElsewhere(db: Db, mid: Db, mid': Db, rs: seq<Id>)
    requires AllUntouched(db, mid, rs) && mid'.runs == mid.runs && mid'.controls == mid.controls
    ensures AllUntouched(db, mid', rs)
  {
    forall i | 0 <= i < |rs| ensures S.Untouched(db, mid', rs[i]) { assert S.Untouched(db, mid, rs[i]); }
  }

  lemma WorkerIsRefused(db: Db, mid: Db, now: Time, w: Id, req: CancelRequest, expiresAt: Time, seed: nat)
    requires WorkerUntouched(db, mid, w) && WorkerRefusal(db, now, w, req).Some?
    ensures CancelWorker(mid, now, w, req, expiresAt, seed).Rejected?
  {
    hide Pending, CancelRuns, RunsRefusal, ValidWorker;
    var rs := Pending(db, w);
    K.PendingDistinct(db, w);
    if RunsRefusal(db, now, rs, req).Some? {
      RunsRefused(db, mid, now, rs, req, expiresAt, seed);
      var drained := mid.(workers := mid.workers[w := DrainedRow(mid.workers[w], now)]);
      UntouchedElsewhere(db, mid, drained, rs);
      RunsRefused(db, drained, now, rs, req, expiresAt, seed);
    }
  }

  // --- What cancelling some workers leaves alone -------------------------------------------------

  ghost predicate ScopeTouches(db: Db, db': Db, ws: seq<Id>) {
    && db'.plans == db.plans && db'.workers.Keys == db.workers.Keys && db'.runs.Keys == db.runs.Keys
    && (forall v :: v in db.workers && v !in ws ==> db'.workers[v] == db.workers[v])
    && (forall x :: x in db.runs ==> db'.runs[x].worker == db.runs[x].worker)
    && (forall x :: x in db.runs && db.runs[x].worker !in ws ==> S.Untouched(db, db', x))
  }

  lemma RunsTouchScope(db: Db, start: Db, db': Db, w: Id)
    requires start.runs == db.runs && start.controls == db.controls && start.plans == db.plans
             && start.workers.Keys == db.workers.Keys
    requires forall v :: v in db.workers && v != w ==> start.workers[v] == db.workers[v]
    requires TouchesOnly(start, db', Pending(db, w))
    ensures ScopeTouches(db, db', [w])
  {
    hide Pending;
    forall x | x in db.runs && db.runs[x].worker !in [w] ensures S.Untouched(db, db', x) {
      K.PendingIff(db, w, x);
      assert S.Untouched(start, db', x);
    }
  }

  lemma CancelWorkerTouches(db: Db, now: Time, w: Id, req: CancelRequest, expiresAt: Time, seed: nat)
    requires CancelWorker(db, now, w, req, expiresAt, seed).Done?
    ensures ScopeTouches(db, CancelWorker(db, now, w, req, expiresAt, seed).db, [w])
  {
    hide Pending, CancelRuns, TouchesOnly, ValidWorker;
    var start := if db.workers[w].lifecycle.Open? then db.(workers := db.workers[w := DrainedRow(db.workers[w], now)])
        else db;
    CancelRunsTouch(start, now, Pending(db, w), req, expiresAt, seed);
    var out := CancelRuns(start, now, Pending(db, w), req, expiresAt, seed);
    RunsTouchScope(db, start, out.db, w);
    if db.workers[w].lifecycle.Open? { ScopeAndEvent(db, out.db, now, w); }
  }

  lemma ScopeAndEvent(db: Db, mid: Db, now: Time, w: Id)
    requires ScopeTouches(db, mid, [w]) && w in mid.workers
    ensures ScopeTouches(db, Emit(mid, now, w, None, CancelRequested), [w])
  {
    var db' := Emit(mid, now, w, None, CancelRequested);
    forall x | x in db.runs && db.runs[x].worker !in [w] ensures S.Untouched(db, db', x) {
      assert S.Untouched(db, mid, x);
    }
  }

  lemma ScopeBoth(db: Db, mid: Db, db': Db, ws: seq<Id>, w: Id)
    requires ScopeTouches(db, mid, ws) && ScopeTouches(mid, db', [w])
    ensures ScopeTouches(db, db', ws + [w])
  { }

  lemma {:induction false} CancelWorkersTouch(db: Db, now: Time, ws: seq<Id>, req: CancelRequest, expiresAt: Time,
                                              seed: nat)
    requires CancelWorkers(db, now, ws, req, expiresAt, seed).Done?
    ensures ScopeTouches(db, CancelWorkers(db, now, ws, req, expiresAt, seed).db, ws)
  {
    hide CancelWorker, ScopeTouches;
    if ws == [] {
      ScopeNothing(db);
    } else {
      var front, w := ws[..|ws| - 1], ws[|ws| - 1];
      CancelWorkersTouch(db, now, front, req, expiresAt, seed);
      var mid := CancelWorkers(db, now, front, req, expiresAt, seed);
      CancelWorkerTouches(mid.db, now, w, req, expiresAt, seed);
      ScopeBoth(db, mid.db, CancelWorker(mid.db, now, w, req, expiresAt, seed).db, front, w);
      assert ws == front + [w];
    }
  }

  lemma ScopeNothing(db: Db)
    ensures ScopeTouches(db, db, [])
  { }

  lemma OutsideUntouched(db: Db, mid: Db, ws: seq<Id>, w: Id)
    requires ScopeTouches(db, mid, ws) && w !in ws && w in db.workers
    ensures WorkerUntouched(db, mid, w)
  {
    hide Pending;
    forall x | x in db.runs
      ensures (mid.runs[x].worker == w <==> db.runs[x].worker == w)
              && (db.runs[x].worker == w ==> mid.runs[x] == db.runs[x])
    {
      if db.runs[x].worker == w { assert S.Untouched(db, mid, x); }
    }
    K.PendingFrame(db, mid, w);
    forall i | 0 <= i < |Pending(db, w)| ensures S.Untouched(db, mid, Pending(db, w)[i]) {
      K.PendingIff(db, w, Pending(db, w)[i]);
    }
  }

  // --- Both phases over the whole subtree --------------------------------------------------------

  ghost predicate AllWorkersPrepared(db: Db, now: Time, ws: seq<Id>, req: CancelRequest, expiresAt: Time, seed: nat,
                                     pws: seq<PreparedWorker>) {
    |pws| == |ws| && forall i :: 0 <= i < |ws| ==> WorkerPrepared(db, now, ws[i], req, expiresAt, seed, pws[i])
  }

  function ApplyWorkers(db: Db, now: Time, pws: seq<PreparedWorker>, req: CancelRequest): Outcome<seq<CancelTicket>> {
    if pws == [] then Done(db, [])
    else
      var front := ApplyWorkers(db, now, pws[..|pws| - 1], req);
      if front.Rejected? then front
      else
        var last := ApplyWorker(front.db, now, pws[|pws| - 1], req);
        if last.Rejected? then last else Done(last.db, front.value + last.value)
  }

  function ConsumedBy(pws: seq<PreparedWorker>): set<Id> {
    if pws == [] then {} else ConsumedBy(pws[..|pws| - 1]) + ConsumesAll(pws[|pws| - 1].runs)
  }

  lemma NextUntouched(db: Db, now: Time, front: seq<Id>, w: Id, req: CancelRequest, expiresAt: Time, seed: nat)
    requires CancelWorkers(db, now, front, req, expiresAt, seed).Done? && w !in front && w in db.workers
    ensures WorkerUntouched(db, CancelWorkers(db, now, front, req, expiresAt, seed).db, w)
  {
    hide CancelWorkers, ScopeTouches, WorkerUntouched;
    CancelWorkersTouch(db, now, front, req, expiresAt, seed);
    OutsideUntouched(db, CancelWorkers(db, now, front, req, expiresAt, seed).db, front, w);
  }

  lemma NextMissing(db: Db, now: Time, front: seq<Id>, w: Id, req: CancelRequest, expiresAt: Time, seed: nat)
    requires CancelWorkers(db, now, front, req, expiresAt, seed).Done? && w !in db.workers
    ensures CancelWorker(CancelWorkers(db, now, front, req, expiresAt, seed).db, now, w, req, expiresAt, seed).Rejected?
  {
    hide CancelWorkers, CancelRuns, Pending;
    CancelWorkersTouch(db, now, front, req, expiresAt, seed);
  }

  lemma {:induction false} WorkersRefused(db: Db, now: Time, ws: seq<Id>, req: CancelRequest, expiresAt: Time,
                                          seed: nat)
    requires F.Distinct(ws) && ScopeRefusal(db, now, ws, req).Some?
    ensures CancelWorkers(db, now, ws, req, expiresAt, seed).Rejected?
  {
    hide CancelWorker, WorkerRefusal, WorkerUntouched;
    var front, w := ws[..|ws| - 1], ws[|ws| - 1];
    if ScopeRefusal(db, now, front, req).Some? {
      WorkersRefused(db, now, front, req, expiresAt, seed);
    } else if CancelWorkers(db, now, front, req, expiresAt, seed).Done? {
      if w in db.workers {
        NextUntouched(db, now, front, w, req, expiresAt, seed);
        WorkerIsRefused(db, CancelWorkers(db, now, front, req, expiresAt, seed).db, now, w, req, expiresAt, seed);
      } else {
        NextMissing(db, now, front, w, req, expiresAt, seed);
      }
    }
  }

  lemma {:induction false} WorkersAgree(db: Db, now: Time, ws: seq<Id>, req: CancelRequest, expiresAt: Time,
                                        seed: nat, pws: seq<PreparedWorker>)
    requires F.Distinct(ws) && AllWorkersPrepared(db, now, ws, req, expiresAt, seed, pws)
    ensures Agrees(ApplyWorkers(db, now, pws, req), CancelWorkers(db, now, ws, req, expiresAt, seed))
    ensures CancelWorkers(db, now, ws, req, expiresAt, seed).Done? ==>
              CancelWorkers(db, now, ws, req, expiresAt, seed).value.reused == ConsumedBy(pws)
  {
    hide CancelWorker, ApplyWorker, WorkerPrepared, WorkerUntouched, ConsumesAll;
    if ws == [] {
    } else {
      var n := |ws| - 1;
      var front, w := ws[..n], ws[n];
      WorkersAgree(db, now, front, req, expiresAt, seed, pws[..n]);
      var done := CancelWorkers(db, now, front, req, expiresAt, seed);
      if done.Done? {
        PreparedKnown(db, now, w, req, expiresAt, seed, pws[n]);
        NextUntouched(db, now, front, w, req, expiresAt, seed);
        WorkerAgrees(db, done.db, now, w, req, expiresAt, seed, pws[n]);
      }
    }
  }

  lemma PreparedKnown(db: Db, now: Time, w: Id, req: CancelRequest, expiresAt: Time, seed: nat, pw: PreparedWorker)
    requires WorkerPrepared(db, now, w, req, expiresAt, seed, pw)
    ensures w in db.workers
  { }

  // --- The program's own loops -------------------------------------------------------------------

  method PrepareWorker(db: Db, now: Time, w: Id, req: CancelRequest, expiresAt: Time, seed: nat)
    returns (out: Result<PreparedWorker>, consumed: set<Id>)
    ensures out.Ok? ==>
              WorkerPrepared(db, now, w, req, expiresAt, seed, out.value) && consumed == ConsumesAll(out.value.runs)
    ensures out.Ok? ==> WorkerRefusal(db, now, w, req).None? && consumed == RunsPresented(db, now, Pending(db, w), req)
    ensures out.Err? ==> WorkerRefusal(db, now, w, req) == Some(out.error)
  {
    consumed := {};
    hide Pending, AllPrepared, RunsRefusal, RunsPresented;
    if w !in db.workers { return Err(NotFound), consumed; }
    var before := db.workers[w];
    if req.op in db.plans && before.lifecycle.Open? { return Err(CorruptData), consumed; }
    var changed := before.lifecycle.Open?;
    var after := if changed then DrainedRow(before, now) else before;
    var prepared;
    prepared, consumed := PrepareRuns(db, now, Pending(db, w), req, expiresAt, seed);
    if prepared.Err? { return Err(prepared.error), consumed; }
    return Ok(PreparedWorker(w, after, changed, prepared.value)), consumed;
  }

  method PrepareWorkers(db: Db, now: Time, ws: seq<Id>, req: CancelRequest, expiresAt: Time, seed: nat)
    returns (out: Result<seq<PreparedWorker>>, consumed: set<Id>)
    ensures out.Ok? ==>
              AllWorkersPrepared(db, now, ws, req, expiresAt, seed, out.value) && consumed == ConsumedBy(out.value)
    ensures out.Ok? ==> ScopeRefusal(db, now, ws, req).None? && consumed == ScopePresented(db, now, ws, req)
    ensures out.Err? ==> ScopeRefusal(db, now, ws, req) == Some(out.error)
  {
    hide WorkerPrepared, WorkerRefusal, ConsumesAll, RunsPresented, Pending;
    var prepared: seq<PreparedWorker> := [];
    consumed := {};
    for i := 0 to |ws|
      invariant AllWorkersPrepared(db, now, ws[..i], req, expiresAt, seed, prepared) && consumed == ConsumedBy(prepared)
      invariant ScopeRefusal(db, now, ws[..i], req).None? && consumed == ScopePresented(db, now, ws[..i], req)
    {
      var p, used := PrepareWorker(db, now, ws[i], req, expiresAt, seed);
      assert ws[..i + 1][..i] == ws[..i];
      if p.Err? {
        ReasonStays(db, now, ws, req, i + 1);
        return Err(p.error), consumed;
      }
      assert (prepared + [p.value])[..|prepared|] == prepared;
      prepared, consumed := prepared + [p.value], consumed + used;
      assert ws[..i + 1] == ws[..i] + [ws[i]];
    }
    assert ws[..|ws|] == ws;
    return Ok(prepared), consumed;
  }

  lemma {:induction false} ReasonStays(db: Db, now: Time, ws: seq<Id>, req: CancelRequest, i: nat)
    requires i <= |ws| && ScopeRefusal(db, now, ws[..i], req).Some?
    ensures ScopeRefusal(db, now, ws, req) == ScopeRefusal(db, now, ws[..i], req)
    decreases |ws| - i
  {
    hide WorkerRefusal;
    if i < |ws| {
      assert ws[..i + 1][..i] == ws[..i];
      ReasonStays(db, now, ws, req, i + 1);
    } else {
      assert ws[..i] == ws;
    }
  }

  method ApplyPreparedWorker(db: Db, now: Time, pw: PreparedWorker, req: CancelRequest)
    returns (out: Outcome<seq<CancelTicket>>)
    ensures out == ApplyWorker(db, now, pw, req)
  {
    hide ApplyAll, ValidWorker;
    var txn := db;
    if pw.changed {
      if !ValidWorker(pw.id, pw.after) { return Rejected(CorruptData); }
      txn := txn.(workers := txn.workers[pw.id := pw.after]);
    }
    out := ApplyRuns(txn, now, pw.runs, req);
    if out.Rejected? { return; }
    if pw.changed {
      if pw.id !in out.db.workers { return Rejected(NotFound); }
      out := Done(Emit(out.db, now, pw.id, None, CancelRequested), out.value);
    }
  }

  method ApplyPreparedWorkers(db: Db, now: Time, pws: seq<PreparedWorker>, req: CancelRequest)
    returns (out: Outcome<seq<CancelTicket>>)
    ensures out == ApplyWorkers(db, now, pws, req)
  {
    hide ApplyWorker;
    var txn, tickets := db, [];
    for i := 0 to |pws|
      invariant ApplyWorkers(db, now, pws[..i], req) == Done(txn, tickets)
    {
      var step := ApplyPreparedWorker(txn, now, pws[i], req);
      assert pws[..i + 1][..i] == pws[..i];
      if step.Rejected? {
        WorkerRefusalStays(db, now, pws, req, i + 1);
        return step;
      }
      txn, tickets := step.db, tickets + step.value;
    }
    assert pws[..|pws|] == pws;
    return Done(txn, tickets);
  }

  lemma {:induction false} WorkerRefusalStays(db: Db, now: Time, pws: seq<PreparedWorker>, req: CancelRequest, i: nat)
    requires i <= |pws| && ApplyWorkers(db, now, pws[..i], req).Rejected?
    ensures ApplyWorkers(db, now, pws, req) == ApplyWorkers(db, now, pws[..i], req)
    decreases |pws| - i
  {
    hide ApplyWorker;
    if i < |pws| {
      assert pws[..i + 1][..i] == pws[..i];
      WorkerRefusalStays(db, now, pws, req, i + 1);
    } else {
      assert pws[..i] == pws;
    }
  }

  method CollectEntries(db: Db, order: seq<Id>) returns (out: Result<seq<PlanEntry>>)
    ensures out.Ok? ==> out.value == Entries(db, order) && |out.value| <= MAX_TREE_CANCEL_RUNS
    ensures out.Err? ==> out.error == InvalidInput && |Entries(db, order)| > MAX_TREE_CANCEL_RUNS
  {
    hide Pending, EntriesFor;
    var entries: seq<PlanEntry> := [];
    assert order[0..] == order;
    assert [] + Entries(db, order) == Entries(db, order);
    for i := 0 to |order|
      invariant entries + Entries(db, order[i..]) == Entries(db, order)
      invariant |entries| <= MAX_TREE_CANCEL_RUNS
    {
      var more := EntriesFor(db, Pending(db, order[i]));
      EntriesSplit(db, order, i, entries, more);
      entries := entries + more;
      if |entries| > MAX_TREE_CANCEL_RUNS { return Err(InvalidInput); }
    }
    assert Entries(db, order[|order|..]) == [];
    return Ok(entries);
  }

  lemma EntriesSplit(db: Db, order: seq<Id>, i: nat, entries: seq<PlanEntry>, more: seq<PlanEntry>)
    requires i < |order| && more == EntriesFor(db, Pending(db, order[i]))
             && entries + Entries(db, order[i..]) == Entries(db, order)
    ensures (entries + more) + Entries(db, order[i + 1..]) == Entries(db, order)
  {
    hide Pending, EntriesFor;
    assert order[i..][1..] == order[i + 1..];
    assert Entries(db, order[i..]) == more + Entries(db, order[i + 1..]);
    assert entries + (more + Entries(db, order[i + 1..])) == (entries + more) + Entries(db, order[i + 1..]);
  }

  // --- The request -------------------------------------------------------------------------------

  /** Why the request is refused once its order is known, as the program checks it. */
  function PlanError(db: Db, root: Id, req: CancelRequest, order: seq<Id>, entries: seq<PlanEntry>): Option<Error> {
    if req.op in db.plans then
      var plan := db.plans[req.op];
      if plan.root != root || plan.leaseOwner != req.leaseOwner || plan.leaseSeconds != req.leaseSeconds
          then Some(InvalidInput)
      else if !PlanAgrees(plan, order, entries) then Some(CorruptData)
      else None
    else if req.retry != [] then Some(InvalidInput)
    else None
  }

  lemma RequestErrorSplits(db: Db, root: Id, req: CancelRequest)
    requires ValidRequest(req) && root in db.workers && F.Shape(db.workers, F.Subtree(db.workers, root))
    ensures RequestError(db, root, req) ==
              if |Order(db, root)| > MAX_TOPOLOGY_NODES || |Entries(db, Order(db, root))| > MAX_TREE_CANCEL_RUNS
                  then Some(InvalidInput)
              else PlanError(db, root, req, Order(db, root), Entries(db, Order(db, root)))
  {
    hide F.Shape, F.Post, F.Subtree, Entries, PlanAgrees, ValidRequest;
  }

  /** The second half of the definition, after the checks. */
  lemma RequestFolds(db: Db, now: Time, root: Id, req: CancelRequest, seed: nat)
    requires RequestError(db, root, req).None?
    ensures var order := Order(db, root);
            var fold, out := CancelWorkers(db, now, order, req, After(now, req.leaseSeconds), seed),
                RequestCancelTree(db, now, root, req, seed);
            && (out.Done? <==> fold.Done? && |fold.value.reused| == |req.retry|)
            && (out.Rejected? ==>
                  out.error == if fold.Done? then InvalidCancelTicket else WhyRefused(db, now, order, req, fold.error))
            && (out.Done? ==> out == Done(if req.op in db.plans then fold.db
                                          else fold.db.(plans := fold.db.plans[req.op :=
                                                NewPlan(root, order, Entries(db, order), req, now)]),
                                          CancelPlan(root, fold.value.tickets)))
  {
    hide RequestError, CancelWorkers, Entries, Order, WhyRefused;
  }

  lemma RefusedRequest(db: Db, now: Time, root: Id, req: CancelRequest, seed: nat)
    requires RequestError(db, root, req).Some?
    ensures RequestCancelTree(db, now, root, req, seed) == Rejected(RequestError(db, root, req).value)
  {
    hide RequestError, CancelWorkers, Entries, Order, WhyRefused;
  }

  lemma InvalidOrMissing(db: Db, root: Id, req: CancelRequest)
    requires !ValidRequest(req) || root !in db.workers
    ensures RequestError(db, root, req) == Some(if ValidRequest(req) then NotFound else InvalidInput)
  { }

  lemma OrderDistinct(db: Db, root: Id)
    requires F.Acyclic(db.workers) && root in db.workers
    ensures F.Distinct(Order(db, root))
  {
    hide F.Acyclic, F.Shape, F.Post, F.Build;
    F.SubtreeShape(db.workers, root);
    F.PostDistinct(db.workers, F.Subtree(db.workers, root));
  }

  /** `request_cancel_tree`: walk, collect, check, prepare, then write. */
  method RequestInPhases(db: Db, now: Time, root: Id, req: CancelRequest, seed: nat) returns (out: Outcome<CancelPlan>)
    ensures F.Acyclic(db.workers) ==> out == RequestCancelTree(db, now, root, req, seed)
  {
    hide F.Acyclic, F.Shape, F.Post, F.Subtree, ValidRequest, RequestError, RequestCancelTree, PlanError,
         CancelWorkers, Entries, Order,
         AllWorkersPrepared, ScopeRefusal, ScopePresented, ApplyWorkers, ConsumedBy, Agrees, W.NoTree;
    var walk := W.SubtreePostorder(db.workers, root);
    if !ValidRequest(req) || walk.Missing? {
      InvalidOrMissing(db, root, req);
      RefusedRequest(db, now, root, req, seed);
      return Rejected(if !ValidRequest(req) then InvalidInput else NotFound);
    }
    if walk.Cyclic? {
      W.NoTreeMeansCycle(db.workers, root);
      return Rejected(CorruptData);
    }
    var order, expiresAt := walk.order, After(now, req.leaseSeconds);
    IsOrder(db, root, order);
    RequestErrorSplits(db, root, req);
    var collected := CollectEntries(db, order);
    if |order| > MAX_TOPOLOGY_NODES || collected.Err? {
      RefusedRequest(db, now, root, req, seed);
      return Rejected(InvalidInput);
    }
    var refused := PlanError(db, root, req, order, collected.value);
    if refused.Some? {
      RefusedRequest(db, now, root, req, seed);
      return Rejected(refused.value);
    }
    RequestFolds(db, now, root, req, seed);
    var prepared, consumed := PrepareWorkers(db, now, order, req, expiresAt, seed);
    if prepared.Err? {
      if F.Acyclic(db.workers) {
        OrderDistinct(db, root);
        WorkersRefused(db, now, order, req, expiresAt, seed);
      }
      return Rejected(prepared.error);
    }
    if F.Acyclic(db.workers) {
      OrderDistinct(db, root);
      WorkersAgree(db, now, order, req, expiresAt, seed, prepared.value);
    }
    if |consumed| != |req.retry| { return Rejected(InvalidCancelTicket); }
    var applied := ApplyPreparedWorkers(db, now, prepared.value, req);
    out := Finish(db, root, order, collected.value, req, now, applied);
    if F.Acyclic(db.workers) { FinishAgrees(applied, CancelWorkers(db, now, order, req, expiresAt, seed)); }
  }

  function Finish(db: Db, root: Id, order: seq<Id>, entries: seq<PlanEntry>, req: CancelRequest, now: Time,
                  applied: Outcome<seq<CancelTicket>>): Outcome<CancelPlan> {
    if applied.Rejected? then Rejected(applied.error)
    else
      Done(if req.op in db.plans then applied.db
           else applied.db.(plans := applied.db.plans[req.op := NewPlan(root, order, entries, req, now)]),
           CancelPlan(root, applied.value))
  }

  lemma FinishAgrees(applied: Outcome<seq<CancelTicket>>, fold: Outcome<Tally>)
    requires Agrees(applied, fold)
    ensures (applied.Done? <==> fold.Done?)
            && (applied.Done? ==> applied.db == fold.db && applied.value == fold.value.tickets)
    ensures applied.Rejected? ==> applied.error == fold.error
  { }

  lemma IsOrder(db: Db, root: Id, order: seq<Id>)
    requires order == F.Post(F.Subtree(db.workers, root))
    ensures order == Order(db, root)
  { }
}
