/** Pages of claimed and of recovered runs. */
module Claims {
  import opened AgentTypes
  import opened Tables
  import opened Operations
  import opened Invariant
  import opened Progress
  import opened RunStep
  import opened InvStep
  import opened RunOps
  import opened TableOps
  import F = Forest
  import O = Ordering

  // --- The claim queue ---------------------------------------------------------------------------

  lemma ClaimQueueIff(db: Db, now: Time, backend: Backend, r: Id)
    ensures r in ClaimQueue(db, now, backend) <==> r in db.runs && Claimable(db, now, backend, r)
  {
    hide Claimable;
    var rows := set x | x in db.runs && Claimable(db, now, backend, x)
                    :: O.Row(db.runs[x].availableAt, db.runs[x].queueSequence, x);
    O.KeyedMember(rows, r);
    if r in db.runs && Claimable(db, now, backend, r) {
      assert O.Row(db.runs[r].availableAt, db.runs[r].queueSequence, r) in rows;
    }
  }

  lemma ClaimQueueDistinct(db: Db, now: Time, backend: Backend)
    ensures F.Distinct(ClaimQueue(db, now, backend))
  {
    O.KeyedIds(set x | x in db.runs && Claimable(db, now, backend, x)
                    :: O.Row(db.runs[x].availableAt, db.runs[x].queueSequence, x));
  }

  /** Two claimable runs never share a worker: one of them would be queued ahead of the other. */
  lemma OnePerWorker(db: Db, now: Time, backend: Backend, x: Id, y: Id)
    requires Inv(db) && x in db.runs && y in db.runs && x != y
    requires Claimable(db, now, backend, x) && Claimable(db, now, backend, y)
    ensures db.runs[x].worker != db.runs[y].worker
  {
    hide RunsOk, PublicationsDistinct, EventsOk, RetiredOk, PlansOk, ProjectionOk, ForestOk, WorkerTimesOk, KeysOk;
    assert db.runs[x].queueSequence != db.runs[y].queueSequence;
  }

  // --- Claiming one run --------------------------------------------------------------------------

  ghost predicate Idle(runs: map<Id, Run>, w: Id) {
    forall x :: x in runs && runs[x].worker == w ==> !runs[x].state.ControllerActive()
  }

  ghost predicate Ready(db: Db, r: Id) {
    && r in db.runs && db.runs[r].state.Queued?
    && db.runs[r].worker in db.workers && db.workers[db.runs[r].worker].lifecycle.Open?
    && Idle(db.runs, db.runs[r].worker)
  }

  lemma NextGenerationFresh(db: Db, w: Id)
    ensures forall x :: x in db.runs && db.runs[x].worker == w ==> db.runs[x].generation < NextGeneration(db, w)
    ensures NextGeneration(db, w) == 1 || HasGeneration(db.runs, w, NextGeneration(db, w) - 1)
  {
    var gens := set r | r in db.runs && db.runs[r].worker == w :: db.runs[r].generation;
    forall x | x in db.runs && db.runs[x].worker == w ensures db.runs[x].generation < NextGeneration(db, w) {
      assert db.runs[x].generation in gens;
    }
  }

  lemma ClaimLawful(run: Run, ops: seq<Control>, generation: nat, now: Time, lease: Lease, token: Token)
    requires RowOk(run) && run.state.Queued? && run.updatedAt <= now && 0 < generation && now < lease.expiresAt
    ensures Lawful(run, ClaimedRow(run, generation, now, lease, token), ops, None, Keep, Leave, RunClaimed, now)
  { }

  function Claimed(db: Db, now: Time, r: Id, lease: Lease, seed: nat): Run
    requires r in db.runs
  {
    ClaimedRow(db.runs[r], NextGeneration(db, db.runs[r].worker), now, lease, Minted(seed + r))
  }

  ghost predicate AloneClaimed(db: Db, now: Time, r: Id, lease: Lease, seed: nat, out: Outcome<ClaimedRun>)
    requires r in db.runs
  {
    && out.Done?
    && out.db.runs == db.runs[r := Claimed(db, now, r, lease, seed)] && out.db.workers == db.workers
    && out.value == ClaimedRun(Claimed(db, now, r, lease, seed),
                               ReceiptFor(r, Claimed(db, now, r, lease, seed), lease.owner, Minted(seed + r)))
  }

  lemma ClaimOneIsGood(db: Db, now: Time, r: Id, lease: Lease, seed: nat)
    requires Ready(db, r) && now < lease.expiresAt
    requires Inv(db) && Timely(db, now)
    ensures AloneClaimed(db, now, r, lease, seed, ClaimOne(db, now, r, lease, Minted(seed + r)))
    ensures Good(db, now, ClaimOne(db, now, r, lease, Minted(seed + r)))
  {
    hide Inv, Lawful, Forward, RowOk, ControlsOk, Advance, NextGeneration;
    var next := Claimed(db, now, r, lease, seed);
    RunFacts(db, now, r);
    NextGenerationFresh(db, db.runs[r].worker);
    QueuedRowFacts(db.runs[r]);
    assert CompletionOf(db, r).None?;
    ClaimLawful(db.runs[r], Ops(db, r), next.generation, now, lease, Minted(seed + r));
    StepIsGood(db, now, r, next, Keep, Leave, RunClaimed);
    AdvanceWrites(db, now, r, next, Keep, Leave, RunClaimed);
  }

  lemma QueuedRowFacts(run: Run)
    requires RowOk(run) && run.state.Queued?
    ensures run.generation == 0
  { }

  // --- Claiming a page ---------------------------------------------------------------------------

  ghost predicate ReadyPage(db: Db, ids: seq<Id>) {
    && (forall i :: 0 <= i < |ids| ==> Ready(db, ids[i]))
    && (forall i, j :: 0 <= i < j < |ids| ==> db.runs[ids[i]].worker != db.runs[ids[j]].worker)
  }

  /** A page claims exactly its own runs, each as if it were alone. */
  ghost predicate PageClaimed(db: Db, now: Time, ids: seq<Id>, lease: Lease, seed: nat, out: Outcome<seq<ClaimedRun>>) {
    && out.Done? && (forall i :: 0 <= i < |ids| ==> ids[i] in db.runs)
    && out.db.workers == db.workers && out.db.runs.Keys == db.runs.Keys
    && (forall x :: x in db.runs && x !in ids ==> out.db.runs[x] == db.runs[x])
    && |out.value| == |ids|
    && (forall i :: 0 <= i < |ids| ==>
                      && out.db.runs[ids[i]] == Claimed(db, now, ids[i], lease, seed)
                      && out.value[i] == ClaimedRun(out.db.runs[ids[i]],
                                                    ReceiptFor(ids[i], out.db.runs[ids[i]], lease.owner,
                                                               Minted(seed + ids[i]))))
  }

  lemma StillReady(db: Db, mid: Db, ids: seq<Id>, r: Id)
    requires Ready(db, r) && (forall i :: 0 <= i < |ids| ==>
                              ids[i] in db.runs && db.runs[ids[i]].worker != db.runs[r].worker)
    requires mid.workers == db.workers && mid.runs.Keys == db.runs.Keys
    requires forall x :: x in db.runs && x !in ids ==> mid.runs[x] == db.runs[x]
    requires forall i :: 0 <= i < |ids| ==> mid.runs[ids[i]].worker == db.runs[ids[i]].worker
    ensures Ready(mid, r) && mid.runs[r] == db.runs[r]
            && NextGeneration(mid, db.runs[r].worker) == NextGeneration(db, db.runs[r].worker)
  {
    var w := db.runs[r].worker;
    forall x | x in db.runs ensures (mid.runs[x].worker == w <==> db.runs[x].worker == w)
        && (db.runs[x].worker == w ==> mid.runs[x] == db.runs[x])
    {
      if x in ids { var i :| 0 <= i < |ids| && ids[i] == x; }
    }
    assert (set x | x in mid.runs && mid.runs[x].worker == w :: mid.runs[x].generation)
        == (set x | x in db.runs && db.runs[x].worker == w :: db.runs[x].generation);
  }

  lemma PageExtends(db: Db, now: Time, front: seq<Id>, r: Id, lease: Lease, seed: nat,
                    mid: Outcome<seq<ClaimedRun>>, last: Outcome<ClaimedRun>)
    requires r in db.runs && r !in front && (forall i :: 0 <= i < |front| ==> front[i] in db.runs)
    requires mid.Done? && last.Done? && r in mid.db.runs && mid.db.runs[r] == db.runs[r]
    requires NextGeneration(mid.db, db.runs[r].worker) == NextGeneration(db, db.runs[r].worker)
    requires PageClaimed(db, now, front, lease, seed, mid)
    requires AloneClaimed(mid.db, now, r, lease, seed, last)
    ensures PageClaimed(db, now, front + [r], lease, seed, Done(last.db, mid.value + [last.value]))
  {
    hide NextGeneration, ClaimedRow;
    assert Claimed(mid.db, now, r, lease, seed) == Claimed(db, now, r, lease, seed);
  }

  lemma SameVerdict<T, U>(db: Db, now: Time, out: Outcome<T>, again: Outcome<U>)
    requires Good(db, now, out) && out.Done? && again.Done? && out.db == again.db
    ensures Good(db, now, again)
  { }

  lemma {:induction false} ClaimAllIsGood(db: Db, now: Time, ids: seq<Id>, lease: Lease, seed: nat)
    requires ReadyPage(db, ids) && now < lease.expiresAt
    requires Inv(db) && Timely(db, now)
    ensures PageClaimed(db, now, ids, lease, seed, ClaimAll(db, now, ids, lease, seed))
    ensures Good(db, now, ClaimAll(db, now, ids, lease, seed))
  {
    hide Inv, Forward, ReadyPage, PageClaimed, ClaimOne, Good;
    ReadyKnown(db, ids);
    if ids == [] {
      UnchangedIsGood<seq<ClaimedRun>>(db, now, []);
      NothingClaimed(db, now, lease, seed);
    } else {
      var front, r := ids[..|ids| - 1], ids[|ids| - 1];
      assert ids == front + [r];
      ReadyFront(db, front, r);
      ClaimAllIsGood(db, now, front, lease, seed);
      var mid := ClaimAll(db, now, front, lease, seed);
      PageDone(db, now, front, lease, seed, mid);
      ClaimNext(db, now, front, r, lease, seed, mid, ClaimOne(mid.db, now, r, lease, Minted(seed + r)));
    }
  }

  lemma NothingClaimed(db: Db, now: Time, lease: Lease, seed: nat)
    ensures PageClaimed(db, now, [], lease, seed, Done(db, []))
  { }

  lemma ReadyFront(db: Db, front: seq<Id>, r: Id)
    requires ReadyPage(db, front + [r])
    ensures ReadyPage(db, front) && Ready(db, r) && r !in front
    ensures forall i :: 0 <= i < |front| ==> front[i] in db.runs && db.runs[front[i]].worker != db.runs[r].worker
  {
    hide Ready;
    ReadyKnown(db, front + [r]);
    assert (front + [r])[|front|] == r;
    assert forall i :: 0 <= i < |front| ==> (front + [r])[i] == front[i];
  }

  lemma PageDone(db: Db, now: Time, ids: seq<Id>, lease: Lease, seed: nat, out: Outcome<seq<ClaimedRun>>)
    requires PageClaimed(db, now, ids, lease, seed, out)
    ensures out.Done?
  { }

  lemma ClaimNext(db: Db, now: Time, front: seq<Id>, r: Id, lease: Lease, seed: nat,
                  mid: Outcome<seq<ClaimedRun>>, last: Outcome<ClaimedRun>)
    requires now < lease.expiresAt && mid.Done?
    requires Ready(db, r) && r !in front
    requires forall i :: 0 <= i < |front| ==> front[i] in db.runs && db.runs[front[i]].worker != db.runs[r].worker
    requires PageClaimed(db, now, front, lease, seed, mid)
    requires last == ClaimOne(mid.db, now, r, lease, Minted(seed + r))
    requires Good(db, now, mid)
    ensures last.Done?
    ensures PageClaimed(db, now, front + [r], lease, seed, Done(last.db, mid.value + [last.value]))
    ensures Good(db, now, Done(last.db, mid.value + [last.value]))
  {
    hide Inv, Forward, Idle, ClaimOne, NextGeneration, Timely;
    StillReady(db, mid.db, front, r);
    ClaimOneIsGood(mid.db, now, r, lease, seed);
    PageExtends(db, now, front, r, lease, seed, mid, last);
    GoodTrans(db, now, mid.db, mid.value, last);
    SameVerdict(db, now, last, Done(last.db, mid.value + [last.value]));
  }

  lemma ClaimPageReady(db: Db, now: Time, backend: Backend, limit: nat)
    requires Inv(db)
    ensures ReadyPage(db, Page(ClaimQueue(db, now, backend), limit))
  {
    hide Inv, ClaimQueue;
    var ids := Page(ClaimQueue(db, now, backend), limit);
    ClaimQueueDistinct(db, now, backend);
    forall i | 0 <= i < |ids| ensures Ready(db, ids[i]) {
      ClaimQueueIff(db, now, backend, ids[i]);
    }
    forall i, j | 0 <= i < j < |ids| ensures db.runs[ids[i]].worker != db.runs[ids[j]].worker {
      ClaimQueueIff(db, now, backend, ids[i]);
      ClaimQueueIff(db, now, backend, ids[j]);
      OnePerWorker(db, now, backend, ids[i], ids[j]);
    }
  }

  lemma ClaimDueIsGood(db: Db, now: Time, backend: Backend, leaseOwner: Id, seconds: nat, limit: nat, seed: nat)
    requires Inv(db) && Timely(db, now)
    ensures Good(db, now, ClaimDue(db, now, backend, leaseOwner, seconds, limit, seed))
  {
    hide Inv, Forward, ReadyPage, ClaimAll, ClaimQueue;
    if backend.Claimable() && ValidLease(seconds) {
      var ids := Page(ClaimQueue(db, now, backend), limit);
      ClaimPageReady(db, now, backend, limit);
      ReadyKnown(db, ids);
      ClaimAllIsGood(db, now, ids, Lease(leaseOwner, After(now, seconds)), seed);
    }
  }

  lemma ReadyKnown(db: Db, ids: seq<Id>)
    requires ReadyPage(db, ids)
    ensures forall i :: 0 <= i < |ids| ==> ids[i] in db.runs
  { }

  // --- Recovering a page -------------------------------------------------------------------------

  lemma RecoveryQueueIff(db: Db, now: Time, r: Id)
    ensures r in RecoveryQueue(db, now) <==> r in db.runs && RecoveryDue(db, now, r)
  {
    hide RecoveryDue, RecoveryTime;
    var rows := set x | x in db.runs && RecoveryDue(db, now, x)
                    :: O.Row(RecoveryTime(db, now, x), db.runs[x].queueSequence, x);
    O.KeyedMember(rows, r);
    if r in db.runs && RecoveryDue(db, now, r) {
      assert O.Row(RecoveryTime(db, now, r), db.runs[r].queueSequence, r) in rows;
    }
  }

  lemma RecoveryQueueDistinct(db: Db, now: Time)
    ensures F.Distinct(RecoveryQueue(db, now))
  {
    hide RecoveryDue, RecoveryTime;
    O.KeyedIds(set x | x in db.runs && RecoveryDue(db, now, x)
                    :: O.Row(RecoveryTime(db, now, x), db.runs[x].queueSequence, x));
  }

  /** Whatever the query selects has a reason to be recovered. */
  lemma DueHasKind(db: Db, now: Time, r: Id)
    requires r in db.runs && ControlsOk(db.runs[r], Ops(db, r)) && RecoveryDue(db, now, r)
    ensures RecoveryKind(db, now, r).Some?
  {
    LastActive(db.runs[r], Ops(db, r));
  }

  ghost predicate DuePage(db: Db, now: Time, ids: seq<Id>) {
    F.Distinct(ids) && forall i :: 0 <= i < |ids| ==> ids[i] in db.runs && RecoveryKind(db, now, ids[i]).Some?
  }

  ghost predicate OpsUnused(db: Db, ids: seq<Id>, seed: nat) {
    forall i :: 0 <= i < |ids| ==> !KnownOp(Ops(db, ids[i]), seed + ids[i])
  }

  ghost predicate PageRecovered(db: Db, now: Time, ids: seq<Id>, expiresAt: Time, out: Outcome<seq<RecoveryTicket>>) {
    && Good(db, now, out)
    && (out.Done? ==>
          && out.db.runs.Keys == db.runs.Keys && |out.value| == |ids|
          && (forall x :: x in db.runs && x !in ids ==> out.db.runs[x] == db.runs[x] && Ops(out.db, x) == Ops(db, x))
          && (forall i :: 0 <= i < |ids| ==>
                            && out.value[i].run == ids[i] && TicketFresh(out.db, out.value[i])
                            && out.value[i].expiresAt == expiresAt && out.value[i].generation != 0))
  }

  /** The ticket speaks for the active operation of its run, whatever its expiry. */
  predicate TicketFresh(db: Db, t: RecoveryTicket) {
    && t.run in db.runs
    && db.runs[t.run].state.Cancelling?
    && db.runs[t.run].worker == t.worker && db.runs[t.run].generation == t.generation
    && db.runs[t.run].revision == t.revision
    && ActiveOp(Ops(db, t.run)).Some? && RecoveryIdentity(ActiveOp(Ops(db, t.run)).value, t)
  }

  lemma RecoverOneTicket(db: Db, now: Time, r: Id, reconciler: Id, expiresAt: Time, op: Id, token: Token)
    requires Inv(db) && Timely(db, now) && now < expiresAt && r in db.runs && RecoveryKind(db, now, r).Some?
    ensures var out := RecoverOne(db, now, r, reconciler, expiresAt, op, token);
            out.Done? ==>
              && out.value.run == r && TicketFresh(out.db, out.value) && out.db.runs.Keys == db.runs.Keys
              && out.value.expiresAt == expiresAt && out.value.generation != 0
              && forall x :: x in db.runs && x != r ==> out.db.runs[x] == db.runs[x] && Ops(out.db, x) == Ops(db, x)
  {
    hide Inv, RowOk, ControlsOk, NextControls, NextCompletion, Advance;
    RunFacts(db, now, r);
    RecoveryKindFits(db, now, r);
    ActiveGeneration(db.runs[r]);
    var next := FencedRow(db.runs[r], now);
    var control := NewControl(op, RecoveryKind(db, now, r).value, next, reconciler, expiresAt, token, now);
    if Advance(db, now, r, next, Push(control), Leave, RecoveryRequested).Done? {
      AdvanceWrites(db, now, r, next, Push(control), Leave, RecoveryRequested);
      PushActive(Ops(db, r), control, now);
    }
  }

  lemma ActiveGeneration(run: Run)
    requires RowOk(run) && run.state.ControllerActive()
    ensures run.generation != 0
  { }

  ghost predicate AloneRecovered(db: Db, r: Id, expiresAt: Time, out: Outcome<RecoveryTicket>) {
    out.Done? ==>
      && out.value.run == r && out.value.expiresAt == expiresAt && out.value.generation != 0
      && TicketFresh(out.db, out.value) && out.db.runs.Keys == db.runs.Keys
      && forall x :: x in db.runs && x != r ==> out.db.runs[x] == db.runs[x] && Ops(out.db, x) == Ops(db, x)
  }

  lemma RecoveredExtends(db: Db, now: Time, front: seq<Id>, r: Id, expiresAt: Time, mid: Outcome<seq<RecoveryTicket>>,
                         last: Outcome<RecoveryTicket>)
    requires r !in front && mid.Done? && last.Done?
    requires forall i :: 0 <= i < |front| ==> front[i] in db.runs
    requires PageRecovered(db, now, front, expiresAt, mid) && Good(mid.db, now, last)
             && AloneRecovered(mid.db, r, expiresAt, last)
    ensures PageRecovered(db, now, front + [r], expiresAt, Done(last.db, mid.value + [last.value]))
  {
    hide Inv, Forward, TicketFresh, Timely, Ops;
    GoodTrans(db, now, mid.db, mid.value, last);
    SameVerdict(db, now, last, Done(last.db, mid.value + [last.value]));
    forall i | 0 <= i < |front| ensures TicketFresh(last.db, mid.value[i]) {
      TicketStays(mid.db, last.db, mid.value[i]);
    }
  }

  lemma {:induction false} RecoverAllIsGood(db: Db, now: Time, ids: seq<Id>, reconciler: Id, expiresAt: Time, seed: nat)
    requires Inv(db) && Timely(db, now) && DuePage(db, now, ids) && now < expiresAt
    ensures PageRecovered(db, now, ids, expiresAt, RecoverAll(db, now, ids, reconciler, expiresAt, seed))
    ensures OpsUnused(db, ids, seed) ==> RecoverAll(db, now, ids, reconciler, expiresAt, seed).Done?
  {
    hide Inv, Forward, RecoverOne, TicketFresh, RecoveryKind, Ops, Timely, KnownOp;
    if ids == [] {
      UnchangedIsGood<seq<RecoveryTicket>>(db, now, []);
    } else {
      var front, r := ids[..|ids| - 1], ids[|ids| - 1];
      assert ids == front + [r] && r !in front;
      RecoverAllIsGood(db, now, front, reconciler, expiresAt, seed);
      var mid := RecoverAll(db, now, front, reconciler, expiresAt, seed);
      if mid.Done? {
        RecoverNext(db, now, front, r, mid, reconciler, expiresAt, seed);
      }
    }
  }

  lemma RecoverNext(db: Db, now: Time, front: seq<Id>, r: Id, mid: Outcome<seq<RecoveryTicket>>,
                    reconciler: Id, expiresAt: Time, seed: nat)
    requires mid.Done? && r in db.runs && r !in front && now < expiresAt && RecoveryKind(db, now, r).Some?
    requires forall i :: 0 <= i < |front| ==> front[i] in db.runs
    requires PageRecovered(db, now, front, expiresAt, mid)
    ensures r in mid.db.runs && RecoveryKind(mid.db, now, r).Some?
    ensures var last := RecoverOne(mid.db, now, r, reconciler, expiresAt, seed + r, Minted(seed + r));
            && Good(mid.db, now, last)
            && (!KnownOp(Ops(db, r), seed + r) ==> last.Done?)
            && (last.Done? ==> PageRecovered(db, now, front + [r], expiresAt, Done(last.db, mid.value + [last.value])))
  {
    hide Inv, Forward, RecoverOne, TicketFresh, RecoveryKind, Timely, KnownOp, Ops;
    SameKind(db, mid.db, now, r);
    RecoverOneIsGood(mid.db, now, r, reconciler, expiresAt, seed + r, Minted(seed + r));
    RecoverOneTicket(mid.db, now, r, reconciler, expiresAt, seed + r, Minted(seed + r));
    var last := RecoverOne(mid.db, now, r, reconciler, expiresAt, seed + r, Minted(seed + r));
    if last.Done? { RecoveredExtends(db, now, front, r, expiresAt, mid, last); }
  }

  lemma SameKind(db: Db, mid: Db, now: Time, r: Id)
    requires r in db.runs && r in mid.runs && mid.runs[r] == db.runs[r] && Ops(mid, r) == Ops(db, r)
    ensures RecoveryKind(mid, now, r) == RecoveryKind(db, now, r)
  { }

  lemma TicketStays(mid: Db, db': Db, t: RecoveryTicket)
    requires TicketFresh(mid, t) && t.run in db'.runs && db'.runs[t.run] == mid.runs[t.run]
             && Ops(db', t.run) == Ops(mid, t.run)
    ensures TicketFresh(db', t)
  { }

  lemma RecoveryPageDue(db: Db, now: Time, limit: nat)
    requires Inv(db) && Timely(db, now)
    ensures DuePage(db, now, Page(RecoveryQueue(db, now), limit))
  {
    hide Inv, RecoveryQueue, RecoveryKind, RecoveryDue, RowOk, ControlsOk;
    var ids := Page(RecoveryQueue(db, now), limit);
    RecoveryQueueDistinct(db, now);
    forall i | 0 <= i < |ids| ensures ids[i] in db.runs && RecoveryKind(db, now, ids[i]).Some? {
      RecoveryQueueIff(db, now, ids[i]);
      RunFacts(db, now, ids[i]);
      DueHasKind(db, now, ids[i]);
    }
  }

  lemma ClaimRecoveryIsGood(db: Db, now: Time, reconciler: Id, seconds: nat, limit: nat, seed: nat)
    requires Inv(db) && Timely(db, now)
    ensures Good(db, now, ClaimRecovery(db, now, reconciler, seconds, limit, seed))
    ensures ValidLease(seconds) && 1 <= limit <= MAX_PAGE_SIZE ==>
              PageRecovered(db, now, Page(RecoveryQueue(db, now), limit), After(now, seconds),
                            ClaimRecovery(db, now, reconciler, seconds, limit, seed))
    ensures ValidLease(seconds) && 1 <= limit <= MAX_PAGE_SIZE
            && OpsUnused(db, Page(RecoveryQueue(db, now), limit), seed) ==>
              ClaimRecovery(db, now, reconciler, seconds, limit, seed).Done?
  {
    hide Inv, Forward, DuePage, RecoverAll, RecoveryQueue, PageRecovered, OpsUnused;
    if ValidLease(seconds) && 1 <= limit <= MAX_PAGE_SIZE {
      var ids := Page(RecoveryQueue(db, now), limit);
      RecoveryPageDue(db, now, limit);
      RecoverAllIsGood(db, now, ids, reconciler, After(now, seconds), seed);
      RecoveredGood(db, now, ids, After(now, seconds), ClaimRecovery(db, now, reconciler, seconds, limit, seed));
    }
  }

  lemma RecoveredGood(db: Db, now: Time, ids: seq<Id>, expiresAt: Time, out: Outcome<seq<RecoveryTicket>>)
    requires PageRecovered(db, now, ids, expiresAt, out)
    ensures Good(db, now, out)
  { }
}
