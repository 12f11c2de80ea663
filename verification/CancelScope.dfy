/** What one cancel request does to a whole subtree. */
module CancelScope {
  import opened AgentTypes
  import opened Tables
  import opened Operations
  import opened CancelTree
  import opened Invariant
  import opened Progress
  import opened WorkerOps
  import opened CancelSteps
  import F = Forest
  import O = Ordering

  // --- The runs still to be ended ----------------------------------------------------------------

  lemma PendingIff(db: Db, w: Id, r: Id)
    ensures r in Pending(db, w) <==> r in db.runs && db.runs[r].worker == w && !db.runs[r].state.Terminal()
  {
    var rows := set x | x in db.runs && db.runs[x].worker == w && !db.runs[x].state.Terminal()
      :: O.Row(CancelRank(db.runs[x].state), db.runs[x].createdAt, x);
    O.KeyedMember(rows, r);
    if r in db.runs && db.runs[r].worker == w && !db.runs[r].state.Terminal() {
      assert O.Row(CancelRank(db.runs[r].state), db.runs[r].createdAt, r) in rows;
    }
  }

  lemma PendingDistinct(db: Db, w: Id)
    ensures F.Distinct(Pending(db, w))
  {
    O.KeyedIds(set x | x in db.runs && db.runs[x].worker == w && !db.runs[x].state.Terminal()
      :: O.Row(CancelRank(db.runs[x].state), db.runs[x].createdAt, x));
  }

  lemma PendingKnown(db: Db, w: Id)
    ensures forall i :: 0 <= i < |Pending(db, w)| ==>
              Pending(db, w)[i] in db.runs && !db.runs[Pending(db, w)[i]].state.Terminal()
  {
    forall i | 0 <= i < |Pending(db, w)|
      ensures Pending(db, w)[i] in db.runs && !db.runs[Pending(db, w)[i]].state.Terminal()
    {
      PendingIff(db, w, Pending(db, w)[i]);
    }
  }

  lemma PendingFrame(db: Db, mid: Db, w: Id)
    requires mid.runs.Keys == db.runs.Keys
    requires forall x :: x in db.runs ==>
               (mid.runs[x].worker == w <==> db.runs[x].worker == w)
                   && (db.runs[x].worker == w ==> mid.runs[x] == db.runs[x])
    ensures Pending(mid, w) == Pending(db, w)
  {
    hide O.Sort, O.Ids;
    assert (set x | x in mid.runs && mid.runs[x].worker == w && !mid.runs[x].state.Terminal()
              :: O.Row(CancelRank(mid.runs[x].state), mid.runs[x].createdAt, x))
        == (set x | x in db.runs && db.runs[x].worker == w && !db.runs[x].state.Terminal()
              :: O.Row(CancelRank(db.runs[x].state), db.runs[x].createdAt, x));
  }

  // --- One worker --------------------------------------------------------------------------------

  predicate Drains(w: Worker, w': Worker, now: Time) {
    w' == if w.lifecycle.Open? then DrainedRow(w, now) else w
  }

  /** A run under one of the workers is cut unless it had ended; every other run stays. */
  predicate Covered(db: Db, db': Db, ws: seq<Id>, x: Id, op: Id) {
    x in db.runs && if db.runs[x].worker in ws && !db.runs[x].state.Terminal() then Cut(db, db', x, op)
        else Untouched(db, db', x)
  }

  ghost predicate WorkersCut(db: Db, db': Db, ws: seq<Id>, op: Id, now: Time) {
    && db'.plans == db.plans && db'.progress == db.progress && db'.dispositions == db.dispositions
    && db'.workers.Keys == db.workers.Keys && db'.runs.Keys == db.runs.Keys
    && (forall w :: w in db.workers && w !in ws ==> db'.workers[w] == db.workers[w])
    && (forall w :: w in ws ==> w in db.workers && Drains(db.workers[w], db'.workers[w], now))
    && (forall x :: x in db.runs ==> Covered(db, db', ws, x, op))
  }

  /** The controlled runs of the workers, in the order their tickets are handed out. */
  function Fenced(db: Db, ws: seq<Id>): seq<Id> {
    if ws == [] then [] else Fenced(db, ws[..|ws| - 1]) + Controlled(db, Pending(db, ws[|ws| - 1]))
  }

  ghost predicate WorkersCancelled(db: Db, now: Time, ws: seq<Id>, op: Id, out: Outcome<Tally>) {
    match out
    case Rejected(e) => e != CorruptData
    case Done(db', tally) =>
      && WorkersCut(db, db', ws, op, now)
      && TicketRuns(tally.tickets) == Fenced(db, ws)
      && TicketsLive(db', now, tally.tickets)
      && Sound(db, db', {}, now)
  }

  lemma FencedOne(db: Db, w: Id)
    ensures Fenced(db, [w]) == Controlled(db, Pending(db, w))
  {
    hide Pending, Controlled;
    assert [w][..0] == [];
    assert Fenced(db, []) == [];
  }

  /** Cutting the pending runs of `w`, seen from before its own row changed. */
  lemma PendingCut(db: Db, db': Db, w: Id, op: Id, x: Id)
    requires x in db.runs && RunsCut(db, db', Pending(db, w), op)
    ensures Covered(db, db', [w], x, op)
  {
    hide Pending, Cut, Untouched;
    PendingIff(db, w, x);
    var rs := Pending(db, w);
    if x in rs { var i :| 0 <= i < |rs| && rs[i] == x; }
  }

  lemma CutIsRetired(db: Db, db': Db, w: Id, op: Id, x: Id)
    requires Covered(db, db', [w], x, op) && db.runs[x].worker == w
    ensures x in db'.runs && Retired(db'.runs[x], Ops(db', x))
  { }

  lemma ClosedWorkerCuts(db: Db, now: Time, w: Id, req: CancelRequest, expiresAt: Time, seed: nat)
    requires w in db.workers && !db.workers[w].lifecycle.Open? && now < expiresAt
    requires Core(db, {}) && Timely(db, now)
    ensures WorkersCancelled(db, now, [w], req.op, CancelWorker(db, now, w, req, expiresAt, seed))
  {
    hide Core, Pending, CancelRuns, Covered, Sound, Controlled, TicketsLive, Fenced;
    PendingKnown(db, w);
    PendingDistinct(db, w);
    CancelRunsCuts(db, {}, now, Pending(db, w), req, expiresAt, seed);
    FencedOne(db, w);
    var out := CancelRuns(db, now, Pending(db, w), req, expiresAt, seed);
    if out.Done? {
      forall x | x in db.runs ensures Covered(db, out.db, [w], x, req.op) { PendingCut(db, out.db, w, req.op, x); }
    }
  }

  lemma CoreWorkerFacts(db: Db, now: Time, w: Id)
    requires w in db.workers && Core(db, {}) && Timely(db, now)
    ensures ValidWorker(w, db.workers[w]) && ParentOk(db.workers, w) && db.workers[w].updatedAt <= now
  {
    hide RunsOk, CrossOk, PublicationsDistinct, EventsOk, KeysOk, RetiredOk, F.Acyclic;
  }

  ghost predicate ChildrenClosed(ws: map<Id, Worker>, w: Id) {
    forall c :: c in ws && ws[c].parent == Some(w) ==> !ws[c].lifecycle.Open?
  }

  lemma DrainedFits(db: Db, now: Time, w: Id)
    requires w in db.workers && db.workers[w].lifecycle.Open? && ChildrenClosed(db.workers, w)
    requires Core(db, {}) && Timely(db, now)
    ensures WorkerFits(db.workers, w, DrainedRow(db.workers[w], now))
            && WorkerForward(db.workers[w], DrainedRow(db.workers[w], now))
  {
    hide Core;
    CoreWorkerFacts(db, now, w);
  }

  /** Draining the row opens the transaction's own exemption for its worker. */
  lemma DrainStarts(db: Db, now: Time, w: Id)
    requires w in db.workers && db.workers[w].lifecycle.Open? && ChildrenClosed(db.workers, w)
    requires Core(db, {}) && Timely(db, now)
    ensures Sound(db, PutWorker(db, w, DrainedRow(db.workers[w], now)), {w}, now)
  {
    hide Core, Forward, WorkerFits;
    DrainedFits(db, now, w);
    WorkerWrite(db, {}, now, w, DrainedRow(db.workers[w], now));
    assert {} + {w} == {w};
  }

  lemma DrainEnds(db: Db, mid: Db, now: Time, w: Id, op: Id)
    requires w in db.workers && db.workers[w].lifecycle.Draining? && db.workers[w].updatedAt == now
    requires RunsCut(db, mid, Pending(db, w), op)
    requires Sound(db, mid, {w}, now)
    ensures w in mid.workers
    ensures Sound(db, Emit(mid, now, w, None, CancelRequested), {}, now)
  {
    hide Core, Forward, Pending, Cut, Untouched, Retired, Covered;
    var db' := Emit(mid, now, w, None, CancelRequested);
    WorkerEvent(mid, {w}, now, w, CancelRequested);
    ForwardTrans(db, mid, db');
    forall x | x in db'.runs && db'.runs[x].worker == w
      ensures Rested(db'.workers[w].lifecycle, db'.runs[x], Ops(db', x))
    {
      PendingCut(db, mid, w, op, x);
      CutWorker(db, mid, [w], op, x);
      CutIsRetired(db, mid, w, op, x);
    }
    assert {} + {w} == {w};
    DrainSettled(db', {}, w);
  }

  lemma CutWorker(db: Db, db': Db, ws: seq<Id>, op: Id, x: Id)
    requires Covered(db, db', ws, x, op)
    ensures x in db.runs && x in db'.runs && db'.runs[x].worker == db.runs[x].worker
  { }

  predicate SameRuns(a: Db, b: Db) {
    a.runs == b.runs && a.controls == b.controls
  }

  lemma CoveredFrame(db: Db, db': Db, mid: Db, mid': Db, ws: seq<Id>, op: Id, x: Id)
    requires SameRuns(db, mid) && SameRuns(db', mid') && Covered(mid, mid', ws, x, op)
    ensures Covered(db, db', ws, x, op)
  { }

  lemma {:induction false} ControlledFrame(db: Db, mid: Db, rs: seq<Id>)
    requires forall i :: 0 <= i < |rs| ==> rs[i] in db.runs && rs[i] in mid.runs && mid.runs[rs[i]] == db.runs[rs[i]]
    ensures Controlled(mid, rs) == Controlled(db, rs)
  {
    if rs == [] {
    } else {
      ControlledFrame(db, mid, rs[..|rs| - 1]);
    }
  }

  lemma TicketsFrame(db: Db, mid: Db, now: Time, ts: seq<CancelTicket>)
    requires SameRuns(db, mid) && TicketsLive(mid, now, ts)
    ensures TicketsLive(db, now, ts)
  {
    forall i | 0 <= i < |ts| ensures ts[i].run in db.runs && CancelTicketLive(db, now, ts[i]) {
      assert CancelTicketLive(mid, now, ts[i]);
    }
  }

  /** Draining an open worker and cutting its runs, as one step between sound tables. */
  lemma DrainCuts(db: Db, now: Time, w: Id, op: Id, drained: Db, mid: Outcome<Tally>, db': Db)
    requires w in db.workers && db.workers[w].lifecycle.Open? && mid.Done? && w in mid.db.workers
    requires drained == PutWorker(db, w, DrainedRow(db.workers[w], now))
    requires db' == Emit(mid.db, now, w, None, CancelRequested)
    requires RunsCut(drained, mid.db, Pending(drained, w), op)
    ensures WorkersCut(db, db', [w], op, now)
  {
    hide Pending, Covered, Cut, Untouched;
    forall x | x in db.runs ensures Covered(db, db', [w], x, op) {
      PendingCut(drained, mid.db, w, op, x);
      CoveredFrame(db, db', drained, mid.db, [w], op, x);
    }
  }

  lemma OpenWorkerCuts(db: Db, now: Time, w: Id, req: CancelRequest, expiresAt: Time, seed: nat)
    requires w in db.workers && db.workers[w].lifecycle.Open? && ChildrenClosed(db.workers, w)
    requires now < expiresAt && req.op !in db.plans
    requires Core(db, {}) && Timely(db, now)
    ensures WorkersCancelled(db, now, [w], req.op, CancelWorker(db, now, w, req, expiresAt, seed))
  {
    hide Core, Forward, Pending, CancelRuns, Sound, Controlled, TicketsLive, Fenced, WorkersCut, WorkerFits;
    var drained := PutWorker(db, w, DrainedRow(db.workers[w], now));
    DrainedFits(db, now, w);
    FitsIsValid(db.workers, w, DrainedRow(db.workers[w], now));
    DrainStarts(db, now, w);
    SoundCore(db, drained, {w}, now);
    PendingFrame(db, drained, w);
    var rs := Pending(db, w);
    PendingKnown(drained, w);
    PendingDistinct(drained, w);
    ControlledFrame(db, drained, rs);
    FencedOne(db, w);
    CancelRunsCuts(drained, {w}, now, rs, req, expiresAt, seed);
    var mid := CancelRuns(drained, now, rs, req, expiresAt, seed);
    if mid.Done? {
      DrainEnds(drained, mid.db, now, w, req.op);
      var db' := Emit(mid.db, now, w, None, CancelRequested);
      SoundTrans(db, drained, db', {w}, {}, now);
      DrainCuts(db, now, w, req.op, drained, mid, db');
      TicketsFrame(db', mid.db, now, mid.value.tickets);
    }
  }

  lemma FitsIsValid(ws: map<Id, Worker>, w: Id, next: Worker)
    requires WorkerFits(ws, w, next)
    ensures ValidWorker(w, next)
  { }

  lemma CancelWorkerCuts(db: Db, now: Time, w: Id, req: CancelRequest, expiresAt: Time, seed: nat)
    requires w in db.workers && now < expiresAt
    requires db.workers[w].lifecycle.Open? ==> ChildrenClosed(db.workers, w) && req.op !in db.plans
    requires Core(db, {}) && Timely(db, now)
    ensures WorkersCancelled(db, now, [w], req.op, CancelWorker(db, now, w, req, expiresAt, seed))
  {
    hide Core, WorkersCancelled, CancelWorker;
    if db.workers[w].lifecycle.Open? {
      OpenWorkerCuts(db, now, w, req, expiresAt, seed);
    } else {
      ClosedWorkerCuts(db, now, w, req, expiresAt, seed);
    }
  }

  // --- All workers of the subtree, children first ------------------------------------------------

  lemma CoveredCompose(db: Db, mid: Db, db': Db, front: seq<Id>, w: Id, op: Id, x: Id)
    requires w !in front && Covered(db, mid, front, x, op) && Covered(mid, db', [w], x, op)
    ensures Covered(db, db', front + [w], x, op)
  {
    CutWorker(db, mid, front, op, x);
  }

  lemma WorkersCutCompose(db: Db, mid: Db, db': Db, front: seq<Id>, w: Id, op: Id, now: Time)
    requires w !in front && WorkersCut(db, mid, front, op, now) && WorkersCut(mid, db', [w], op, now)
    ensures WorkersCut(db, db', front + [w], op, now)
  {
    hide Covered;
    forall x | x in db.runs ensures Covered(db, db', front + [w], x, op) {
      CoveredCompose(db, mid, db', front, w, op, x);
    }
    forall v | v in front + [w] ensures v in db.workers && Drains(db.workers[v], db'.workers[v], now) { }
  }

  lemma {:induction false} FencedWithin(db: Db, ws: seq<Id>, x: Id)
    requires x in Fenced(db, ws)
    ensures x in db.runs && db.runs[x].worker in ws
  {
    hide Pending, Controlled;
    var front, w := ws[..|ws| - 1], ws[|ws| - 1];
    if x in Fenced(db, front) {
      FencedWithin(db, front, x);
    } else {
      ControlledWithin(db, Pending(db, w), x);
      PendingIff(db, w, x);
    }
  }

  lemma FencedAppend(db: Db, mid: Db, front: seq<Id>, w: Id, op: Id, now: Time)
    requires w !in front && WorkersCut(db, mid, front, op, now)
    ensures Fenced(db, front + [w]) == Fenced(db, front) + Fenced(mid, [w])
  {
    hide Pending, Controlled, Cut;
    assert (front + [w])[..|front|] == front;
    forall x | x in db.runs
      ensures x in mid.runs && (mid.runs[x].worker == w <==> db.runs[x].worker == w)
              && (db.runs[x].worker == w ==> mid.runs[x] == db.runs[x])
    {
      assert Covered(db, mid, front, x, op);
      CutWorker(db, mid, front, op, x);
    }
    PendingFrame(db, mid, w);
    PendingKnown(db, w);
    forall i | 0 <= i < |Pending(db, w)| ensures db.runs[Pending(db, w)[i]].worker == w {
      PendingIff(db, w, Pending(db, w)[i]);
    }
    ControlledFrame(db, mid, Pending(db, w));
    FencedOne(mid, w);
  }

  lemma LiveAcross(db: Db, mid: Db, db': Db, now: Time, front: seq<Id>, w: Id, op: Id, ts: seq<CancelTicket>)
    requires w !in front && WorkersCut(db, mid, front, op, now) && WorkersCut(mid, db', [w], op, now)
    requires TicketRuns(ts) == Fenced(db, front) && TicketsLive(mid, now, ts)
    ensures TicketsLive(db', now, ts)
  {
    hide CancelTicketLive, Cut, Untouched, Fenced;
    forall i | 0 <= i < |ts| ensures ts[i].run in db'.runs && CancelTicketLive(db', now, ts[i]) {
      var x := ts[i].run;
      assert TicketRuns(ts)[i] == x;
      FencedWithin(db, front, x);
      assert Covered(db, mid, front, x, op) && Covered(mid, db', [w], x, op);
      CutWorker(db, mid, front, op, x);
      LiveStays(mid, db', now, ts[i]);
    }
  }

  lemma WorkersCancelledExtends(db: Db, now: Time, front: seq<Id>, w: Id, op: Id, mid: Outcome<Tally>,
                                last: Outcome<Tally>)
    requires mid.Done? && last.Done? && w !in front
    requires WorkersCancelled(db, now, front, op, mid)
    requires WorkersCancelled(mid.db, now, [w], op, last)
    ensures WorkersCancelled(db, now, front + [w], op, Done(last.db, Join(mid.value, last.value)))
  {
    hide Core, Forward, Sound, Fenced, TicketsLive, WorkersCut;
    WorkersCutCompose(db, mid.db, last.db, front, w, op, now);
    FencedAppend(db, mid.db, front, w, op, now);
    TicketsAppend(mid.value.tickets, last.value.tickets);
    LiveAcross(db, mid.db, last.db, now, front, w, op, mid.value.tickets);
    LiveBoth(last.db, now, mid.value.tickets, last.value.tickets);
    SoundTrans(db, mid.db, last.db, {}, {}, now);
  }

  lemma LiveBoth(db: Db, now: Time, ts: seq<CancelTicket>, us: seq<CancelTicket>)
    requires TicketsLive(db, now, ts) && TicketsLive(db, now, us)
    ensures TicketsLive(db, now, ts + us)
  { }

  /** Every child of a listed worker is listed before it, or is closed already. */
  ghost predicate ChildrenListed(ws: map<Id, Worker>, order: seq<Id>) {
    forall i, c :: 0 <= i < |order| && c in ws && ws[c].parent == Some(order[i]) ==>
      F.ListedBefore(order, i, c) || !ws[c].lifecycle.Open?
  }

  lemma ListedFront(ws: map<Id, Worker>, front: seq<Id>, w: Id)
    requires ChildrenListed(ws, front + [w])
    ensures ChildrenListed(ws, front)
    ensures forall c :: c in ws && ws[c].parent == Some(w) ==> c in front || !ws[c].lifecycle.Open?
  {
    var order := front + [w];
    forall i, c | 0 <= i < |front| && c in ws && ws[c].parent == Some(front[i])
      ensures F.ListedBefore(front, i, c) || !ws[c].lifecycle.Open?
    {
      assert order[i] == front[i];
      if F.ListedBefore(order, i, c) {
        var k :| 0 <= k < i && order[k] == c;
        assert front[k] == c;
      }
    }
    forall c | c in ws && ws[c].parent == Some(w) ensures c in front || !ws[c].lifecycle.Open? {
      assert order[|front|] == w;
      if F.ListedBefore(order, |front|, c) {
        var k :| 0 <= k < |front| && order[k] == c;
        assert front[k] == c;
      }
    }
  }

  lemma ChildrenAreClosed(db: Db, mid: Db, front: seq<Id>, w: Id, op: Id, now: Time)
    requires WorkersCut(db, mid, front, op, now)
    requires forall c :: c in db.workers && db.workers[c].parent == Some(w) ==>
               c in front || !db.workers[c].lifecycle.Open?
    ensures ChildrenClosed(mid.workers, w)
  {
    hide Covered;
    forall c | c in mid.workers && mid.workers[c].parent == Some(w) ensures !mid.workers[c].lifecycle.Open? {
      assert c in db.workers;
    }
  }

  lemma {:induction false} CancelWorkersCuts(db: Db, now: Time, ws: seq<Id>, req: CancelRequest, expiresAt: Time,
                                             seed: nat)
    requires F.Distinct(ws) && ChildrenListed(db.workers, ws) && now < expiresAt
    requires forall w :: w in ws ==> w in db.workers
    requires req.op in db.plans ==> forall w :: w in ws ==> !db.workers[w].lifecycle.Open?
    requires Core(db, {}) && Timely(db, now)
    ensures WorkersCancelled(db, now, ws, req.op, CancelWorkers(db, now, ws, req, expiresAt, seed))
  {
    hide Core, Forward, CancelWorker, WorkersCut, Sound, TicketsLive, Fenced, ChildrenListed, ChildrenClosed;
    if ws == [] {
      NothingCancelled(db, now, req.op);
    } else {
      var front, w := ws[..|ws| - 1], ws[|ws| - 1];
      assert ws == front + [w] && w !in front;
      ListedFront(db.workers, front, w);
      CancelWorkersCuts(db, now, front, req, expiresAt, seed);
      var mid := CancelWorkers(db, now, front, req, expiresAt, seed);
      if mid.Done? {
        SoundCore(db, mid.db, {}, now);
        OutsideSame(db, mid.db, front, w, req.op, now);
        ChildrenAreClosed(db, mid.db, front, w, req.op, now);
        CancelWorkerCuts(mid.db, now, w, req, expiresAt, seed);
        var last := CancelWorker(mid.db, now, w, req, expiresAt, seed);
        if last.Done? { WorkersCancelledExtends(db, now, front, w, req.op, mid, last); }
      }
    }
  }

  lemma NothingCancelled(db: Db, now: Time, op: Id)
    requires Core(db, {}) && Timely(db, now)
    ensures WorkersCut(db, db, [], op, now) && TicketsLive(db, now, []) && TicketRuns([]) == Fenced(db, [])
            && Sound(db, db, {}, now)
  {
    hide Core, Forward;
    ForwardReflexive(db);
  }

  lemma OutsideSame(db: Db, db': Db, ws: seq<Id>, w: Id, op: Id, now: Time)
    requires WorkersCut(db, db', ws, op, now) && w in db.workers && w !in ws
    ensures w in db'.workers && db'.workers[w] == db.workers[w] && db'.plans == db.plans
  { }
}
