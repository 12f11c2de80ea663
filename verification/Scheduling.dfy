/** Which runs a claim takes, the order of generations, chains of resumed runs, the outbox as a history. */
module Scheduling {
  import opened AgentTypes
  import opened Tables
  import opened Operations
  import opened Invariant
  import opened Progress
  import opened Claims
  import opened Protocol
  import R = Reachable
  import V = Recovery
  import U = Audit
  import H = AuditProof
  import F = Forest
  import O = Ordering

  // --- What a claim takes ------------------------------------------------------------------------

  /** The run is the worker's next: due, and strictly ahead of every other due run of that worker. */
  ghost predicate IsNext(db: Db, now: Time, r: Id) {
    && r in db.runs && Due(db.runs[r], now)
    && forall x :: x in db.runs && x != r && db.runs[x].worker == db.runs[r].worker && Due(db.runs[x], now) ==>
                     QueuedAhead(db.runs[r], db.runs[x])
  }

  /** An open worker none of whose runs has a controller. */
  ghost predicate Free(db: Db, w: Id) {
    w in db.workers && db.workers[w].lifecycle.Open? && Idle(db.runs, w)
  }

  /** A run that a claim for this backend may take. */
  ghost predicate Eligible(db: Db, now: Time, backend: Backend, r: Id) {
    IsNext(db, now, r) && db.runs[r].spec.backend == backend && Free(db, db.runs[r].worker)
  }

  lemma QueuesDiffer(db: Db)
    requires Inv(db)
    ensures QueueDistinct(db.runs)
  {
    R.QueueOf(db);
  }

  /** The queue holds exactly the next run of each free worker whose next run is for this backend. */
  lemma QueueIsExact(db: Db, now: Time, backend: Backend, r: Id)
    requires Inv(db)
    ensures r in ClaimQueue(db, now, backend) <==> Eligible(db, now, backend, r)
  {
    hide Inv, ClaimQueue;
    QueuesDiffer(db);
    ClaimQueueIff(db, now, backend, r);
  }

  lemma QueueInOrder(db: Db, now: Time, backend: Backend, i: nat, j: nat)
    requires i < j < |ClaimQueue(db, now, backend)|
    ensures var q := ClaimQueue(db, now, backend);
            && q[i] in db.runs && q[j] in db.runs
            && (db.runs[q[i]].availableAt, db.runs[q[i]].queueSequence) != (db.runs[q[j]].availableAt,
                   db.runs[q[j]].queueSequence) ==>
                 QueuedAhead(db.runs[q[i]], db.runs[q[j]])
  {
    hide Claimable;
    var rows := set x | x in db.runs && Claimable(db, now, backend, x)
                    :: O.Row(db.runs[x].availableAt, db.runs[x].queueSequence, x);
    var sorted := O.Sort(rows);
    assert O.Before(sorted[i], sorted[j]);
    assert sorted[i] in rows && sorted[j] in rows;
  }

  /** The receipts name this run. */
  predicate Taken(cs: seq<ClaimedRun>, r: Id) {
    exists i :: 0 <= i < |cs| && cs[i].receipt.run == r
  }

  /** An eligible run is left only when the page is full, and then every run taken stands ahead of it. */
  ghost predicate LeftBehind(db: Db, limit: nat, cs: seq<ClaimedRun>, r: Id) {
    && r in db.runs && |cs| == limit
    && forall i :: 0 <= i < |cs| ==> cs[i].receipt.run in db.runs && QueuedAhead(db.runs[cs[i].receipt.run], db.runs[r])
  }

  /**
   What one accepted claim did: a sorted page of next runs, at most one per worker, and nothing
   else; and no eligible run was passed over.
   */
  ghost predicate ClaimsNextRuns(db: Db, now: Time, backend: Backend, lease: Lease, limit: nat,
                                 out: Outcome<seq<ClaimedRun>>) {
    && out.Done? && |out.value| <= limit && out.db.runs.Keys == db.runs.Keys
    && (forall i :: 0 <= i < |out.value| ==> TakesNext(db, now, backend, lease, out.db, out.value[i]))
    && (forall i, j :: 0 <= i < j < |out.value| ==>
                         && out.value[i].receipt.worker != out.value[j].receipt.worker
                         && out.value[i].receipt.run in db.runs && out.value[j].receipt.run in db.runs
                         && QueuedAhead(db.runs[out.value[i].receipt.run], db.runs[out.value[j].receipt.run]))
    && (forall x :: x in db.runs && !Taken(out.value, x) ==> out.db.runs[x] == db.runs[x])
    && (forall x :: Eligible(db, now, backend, x) ==> Taken(out.value, x) || LeftBehind(db, limit, out.value, x))
  }

  ghost predicate TakesNext(db: Db, now: Time, backend: Backend, lease: Lease, db': Db, c: ClaimedRun) {
    var r := c.receipt.run;
    && Eligible(db, now, backend, r)
    && r in db'.runs && c.run == db'.runs[r] && c.run.state.Starting? && c.run.lease == Some(lease)
    && c.receipt.worker == db.runs[r].worker
    && c.receipt.generation == c.run.generation == NextGeneration(db, db.runs[r].worker)
    && c.receipt.revision == c.run.revision && c.run.leaseHash == Some(HashOf(c.receipt.token))
    && c.run.deadline == Some(After(now, db.runs[r].spec.timeoutSeconds))
  }

  lemma ClaimedTakesNext(db: Db, now: Time, backend: Backend, lease: Lease, seed: nat, db': Db, r: Id, c: ClaimedRun)
    requires Eligible(db, now, backend, r)
    requires r in db'.runs && db'.runs[r] == Claimed(db, now, r, lease, seed)
    requires c == ClaimedRun(db'.runs[r], ReceiptFor(r, db'.runs[r], lease.owner, Minted(seed + r)))
    ensures TakesNext(db, now, backend, lease, db', c) && c.receipt.run == r
  {
    hide IsNext, Free, NextGeneration;
  }

  lemma PageWithin(q: seq<Id>, limit: nat)
    ensures |Page(q, limit)| <= limit && |Page(q, limit)| <= |q|
    ensures forall i :: 0 <= i < |Page(q, limit)| ==> Page(q, limit)[i] == q[i]
  { }

  lemma PageOrdered(db: Db, now: Time, backend: Backend, i: nat, j: nat)
    requires i < j < |ClaimQueue(db, now, backend)|
    requires Inv(db)
    ensures var q := ClaimQueue(db, now, backend);
            && q[i] in db.runs && q[j] in db.runs && q[i] != q[j] && db.runs[q[i]].worker != db.runs[q[j]].worker
            && QueuedAhead(db.runs[q[i]], db.runs[q[j]])
  {
    hide Inv, ClaimQueue;
    var q := ClaimQueue(db, now, backend);
    QueuesDiffer(db);
    ClaimQueueDistinct(db, now, backend);
    ClaimQueueIff(db, now, backend, q[i]);
    ClaimQueueIff(db, now, backend, q[j]);
    QueueInOrder(db, now, backend, i, j);
    OnePerWorker(db, now, backend, q[i], q[j]);
  }

  lemma ClaimTakesNextRuns(db: Db, now: Time, backend: Backend, leaseOwner: Id, seconds: nat, limit: nat, seed: nat)
    requires backend.Claimable() && ValidLease(seconds) && 1 <= limit <= MAX_PAGE_SIZE
    requires Inv(db) && Timely(db, now)
    ensures ClaimsNextRuns(db, now, backend, Lease(leaseOwner, After(now, seconds)), limit,
                           ClaimDue(db, now, backend, leaseOwner, seconds, limit, seed))
  {
    hide Inv, Forward, ClaimQueue, ClaimAll, ReadyPage, IsNext, Free, Claimed, TakesNext;
    var q, lease := ClaimQueue(db, now, backend), Lease(leaseOwner, After(now, seconds));
    var ids := Page(q, limit);
    PageWithin(q, limit);
    ClaimPageReady(db, now, backend, limit);
    ReadyKnown(db, ids);
    ClaimAllIsGood(db, now, ids, lease, seed);
    var out := ClaimAll(db, now, ids, lease, seed);
    forall i | 0 <= i < |ids|
      ensures TakesNext(db, now, backend, lease, out.db, out.value[i]) && out.value[i].receipt.run == ids[i]
                                      && out.value[i].receipt.worker == db.runs[ids[i]].worker {
      QueueIsExact(db, now, backend, ids[i]);
      ClaimedTakesNext(db, now, backend, lease, seed, out.db, ids[i], out.value[i]);
      ReceiptWorker(db, now, backend, lease, out.db, out.value[i]);
    }
    forall i, j | 0 <= i < j < |ids|
      ensures db.runs[ids[i]].worker != db.runs[ids[j]].worker && QueuedAhead(db.runs[ids[i]], db.runs[ids[j]])
    {
      PageOrdered(db, now, backend, i, j);
    }
    forall x | x in db.runs && !Taken(out.value, x) ensures out.db.runs[x] == db.runs[x] {
      NotTaken(ids, out.value, x);
    }
    forall x | Eligible(db, now, backend, x) ensures Taken(out.value, x) || LeftBehind(db, limit, out.value, x) {
      QueueIsExact(db, now, backend, x);
      TakenOrBehind(db, now, backend, limit, out.value, x);
    }
  }

  lemma NotTaken(ids: seq<Id>, cs: seq<ClaimedRun>, x: Id)
    requires |cs| == |ids| && (forall i :: 0 <= i < |ids| ==> cs[i].receipt.run == ids[i])
    ensures x in ids <==> Taken(cs, x)
  { }

  /** What the page leaves in the queue stands behind everything it holds. */
  lemma TakenOrBehind(db: Db, now: Time, backend: Backend, limit: nat, cs: seq<ClaimedRun>, r: Id)
    requires var q := ClaimQueue(db, now, backend);
             && r in q && |cs| == |Page(q, limit)|
             && (forall i :: 0 <= i < |cs| ==> cs[i].receipt.run == Page(q, limit)[i])
    requires Inv(db)
    ensures Taken(cs, r) || LeftBehind(db, limit, cs, r)
  {
    hide Inv, ClaimQueue;
    var q := ClaimQueue(db, now, backend);
    PageWithin(q, limit);
    var k :| 0 <= k < |q| && q[k] == r;
    if k < |cs| {
      assert cs[k].receipt.run == r;
    } else {
      ClaimQueueIff(db, now, backend, r);
      forall i | 0 <= i < |cs|
        ensures cs[i].receipt.run in db.runs && QueuedAhead(db.runs[cs[i].receipt.run], db.runs[r])
      {
        PageOrdered(db, now, backend, i, k);
      }
    }
  }

  lemma ReceiptWorker(db: Db, now: Time, backend: Backend, lease: Lease, db': Db, c: ClaimedRun)
    requires TakesNext(db, now, backend, lease, db', c)
    ensures c.receipt.run in db.runs && c.receipt.worker == db.runs[c.receipt.run].worker
  { }

  // --- Generations -------------------------------------------------------------------------------

  /** One controller at a time: no worker ever has two runs with a controller. */
  lemma OneControllerPerWorker(db: Db, x: Id, y: Id)
    requires x in db.runs && y in db.runs && x != y && db.runs[x].worker == db.runs[y].worker
    requires Inv(db)
    ensures !(db.runs[x].state.ControllerActive() && db.runs[y].state.ControllerActive())
  {
    hide RunsOk, PublicationsDistinct, EventsOk, RetiredOk, PlansOk, ProjectionOk, ForestOk, WorkerTimesOk, KeysOk;
  }

  lemma SameGeneration(db: Db, db': Db, x: Id)
    requires x in db.runs && 0 < db.runs[x].generation && Forward(db, db')
    ensures x in db'.runs && db'.runs[x].generation == db.runs[x].generation && db'.runs[x].worker == db.runs[x].worker
  {
    assert RunEntryForward(db, db', x);
  }

  /** Generations number the claims of a worker in the order they happened. */
  lemma LaterClaimsAreHigher(s: Store, o: Owner, calls: seq<Call>, x: Id, y: Id)
    requires var db, db' := Part(s, o), Part(Play(s, calls), o);
             && x in db.runs && 0 < db.runs[x].generation
             && (y in db.runs ==> db.runs[y].generation == 0)
             && y in db'.runs && db'.runs[y].worker == db.runs[x].worker && 0 < db'.runs[y].generation
    requires R.StoreInv(s)
    ensures Part(s, o).runs[x].generation < Part(Play(s, calls), o).runs[y].generation
  {
    hide R.StoreInv, Play, Forward, Part, Inv, GenerationsDistinct, GenerationsGapless, RunsOk, EventsOk, ProjectionOk;
    var db, db' := Part(s, o), Part(Play(s, calls), o);
    R.PlayKeeps(s, calls);
    R.PartInv(s, o);
    R.PartInv(Play(s, calls), o);
    H.CoreConjuncts(db);
    H.CoreConjuncts(db');
    if db'.runs[y].generation <= db.runs[x].generation {
      var z := Holder(db, x, db'.runs[y].generation);
      SameGeneration(db, db', z);
      ClashIsImpossible(db', y, z);
    }
  }

  lemma Holder(db: Db, x: Id, g: nat) returns (z: Id)
    requires x in db.runs && 0 < g <= db.runs[x].generation && GenerationsGapless(db.runs)
    ensures z in db.runs && db.runs[z].worker == db.runs[x].worker && db.runs[z].generation == g
  {
    if g == db.runs[x].generation {
      z := x;
    } else {
      assert HasGeneration(db.runs, db.runs[x].worker, g);
      z :| z in db.runs && db.runs[z].worker == db.runs[x].worker && db.runs[z].generation == g;
    }
  }

  lemma ClashIsImpossible(db: Db, y: Id, z: Id)
    requires y in db.runs && z in db.runs && db.runs[y].worker == db.runs[z].worker
    requires 0 < db.runs[y].generation == db.runs[z].generation && GenerationsDistinct(db.runs)
    ensures y == z
  { }

  /** The generations of a worker are exactly 1..n, for its n claimed runs. */
  lemma GenerationsAreExact(db: Db, w: Id)
    requires Inv(db)
    ensures forall r :: r in U.Claimed(db, w) ==> 1 <= db.runs[r].generation <= |U.Claimed(db, w)|
    ensures forall g :: 1 <= g <= |U.Claimed(db, w)| ==> HasGeneration(db.runs, w, g)
  {
    hide Inv, RunsOk, EventsOk, ProjectionOk;
    H.CoreConjuncts(db);
    if U.Claimed(db, w) != {} {
      H.WorkerGenerations(db, w);
      var top := O.MaxOf(U.Generations(db, w));
      forall r | r in U.Claimed(db, w) ensures 1 <= db.runs[r].generation <= top {
        assert db.runs[r].generation in U.Generations(db, w);
      }
      forall g | 1 <= g <= top ensures HasGeneration(db.runs, w, g) {
        var x :| x in U.Claimed(db, w) && db.runs[x].generation == top;
        var z := Holder(db, x, g);
      }
    }
  }

  // --- Chains of resumed runs --------------------------------------------------------------------

  /** The runs a run was resumed from, itself first, as far as `steps` links. */
  function Chain(runs: map<Id, Run>, r: Id, steps: nat): seq<Id>
    decreases steps
  {
    if r !in runs || steps == 0 || runs[r].resumeOf.None? then [r]
    else [r] + Chain(runs, runs[r].resumeOf.value, steps - 1)
  }

  /** One chain: same worker and frozen fields throughout, attempts counting down to zero. */
  ghost predicate IsChain(runs: map<Id, Run>, c: seq<Id>) {
    && c != []
    && (forall i :: 0 <= i < |c| ==> c[i] in runs && runs[c[i]].resumeAttempt == |c| - 1 - i)
    && (forall i :: 0 <= i < |c| - 1 ==> runs[c[i]].resumeOf == Some(c[i + 1]))
    && runs[c[|c| - 1]].resumeOf.None?
    && (forall i :: 0 <= i < |c| ==> runs[c[i]].worker == runs[c[0]].worker && runs[c[i]].spec == runs[c[0]].spec)
    && (forall i :: 0 <= i < |c| ==> runs[c[i]].binding == runs[c[0]].binding)
    && (forall i :: 0 < i < |c| ==> runs[c[i]].state.Interrupted? && runs[c[i]].binding.Some?)
  }

  lemma ValidRows(db: Db)
    requires Inv(db)
    ensures forall r :: r in db.runs ==> ValidRun(db.runs[r])
    ensures ResumesOk(db.runs)
  {
    hide Inv, ValidRun;
    forall r | r in db.runs ensures ValidRun(db.runs[r]) { V.RunParts(db, r); RowValid(db.runs[r]); }
    ResumesOf(db);
  }

  lemma RowValid(run: Run)
    requires RowOk(run)
    ensures ValidRun(run)
  { }

  lemma ResumesOf(db: Db)
    requires Inv(db)
    ensures ResumesOk(db.runs)
  {
    hide RunsOk, PublicationsDistinct, EventsOk, RetiredOk, PlansOk, ProjectionOk, ForestOk, WorkerTimesOk, KeysOk;
  }

  ghost predicate AttemptsFit(runs: map<Id, Run>) {
    forall r :: r in runs ==> (runs[r].resumeOf.None? <==> runs[r].resumeAttempt == 0)
  }

  lemma {:induction false} ChainHolds(runs: map<Id, Run>, r: Id)
    requires r in runs && ResumesOk(runs) && AttemptsFit(runs)
    ensures var c := Chain(runs, r, runs[r].resumeAttempt);
            IsChain(runs, c) && c[0] == r && |c| == runs[r].resumeAttempt + 1
    decreases runs[r].resumeAttempt
  {
    var n := runs[r].resumeAttempt;
    if n > 0 {
      var source := runs[r].resumeOf.value;
      assert ResumeLink(runs[source], runs[r]);
      ChainHolds(runs, source);
      ChainExtends(runs, r, Chain(runs, source, n - 1));
    }
  }

  lemma ChainExtends(runs: map<Id, Run>, r: Id, rest: seq<Id>)
    requires r in runs && IsChain(runs, rest) && runs[r].resumeOf == Some(rest[0]) && ResumeLink(runs[rest[0]], runs[r])
    ensures IsChain(runs, [r] + rest)
  {
    var c := [r] + rest;
    assert forall i :: 0 < i < |c| ==> c[i] == rest[i - 1];
    assert runs[rest[0]].resumeAttempt == |rest| - 1;
  }

  /** Attempts differ along a chain, so no run occurs twice. */
  lemma ChainIsSimple(runs: map<Id, Run>, c: seq<Id>)
    requires IsChain(runs, c)
    ensures F.Distinct(c)
  {
    forall i, j | 0 <= i < j < |c| ensures c[i] != c[j] {
      assert runs[c[i]].resumeAttempt != runs[c[j]].resumeAttempt;
    }
  }

  /**
   Every run ends one simple chain of resumed runs inside one worker: attempts count up by one
   from zero, frozen fields and session binding agree, and the allowance bounds its length.
   */
  lemma ResumeChains(db: Db, r: Id)
    requires r in db.runs
    requires Inv(db)
    ensures var c := Chain(db.runs, r, db.runs[r].resumeAttempt);
            && IsChain(db.runs, c) && c[0] == r && F.Distinct(c)
            && |c| == db.runs[r].resumeAttempt + 1 <= db.runs[r].spec.maxResumeAttempts + 1
  {
    hide Inv;
    ValidRows(db);
    ChainHolds(db.runs, r);
    ChainIsSimple(db.runs, Chain(db.runs, r, db.runs[r].resumeAttempt));
  }

  /** Chains do not branch: a run is resumed at most once. */
  lemma ChainsAreDisjoint(db: Db, x: Id, y: Id)
    requires x in db.runs && y in db.runs && x != y && db.runs[x].resumeOf.Some?
    requires Inv(db)
    ensures db.runs[x].resumeOf != db.runs[y].resumeOf
  {
    hide Inv;
    ResumesOf(db);
  }

  /** What a chain froze stays frozen in every later version of the tables. */
  lemma ChainsStay(s: Store, o: Owner, calls: seq<Call>, r: Id)
    requires r in Part(s, o).runs
    requires R.StoreInv(s)
    ensures var runs, runs' := Part(s, o).runs, Part(Play(s, calls), o).runs;
            && r in runs' && runs'[r].resumeOf == runs[r].resumeOf && runs'[r].resumeAttempt == runs[r].resumeAttempt
            && runs'[r].worker == runs[r].worker && runs'[r].spec == runs[r].spec
            && (runs[r].binding.Some? ==> runs'[r].binding == runs[r].binding)
  {
    hide R.StoreInv, Play, Forward, Part;
    R.PlayKeeps(s, calls);
    V.EntryForward(Part(s, o), Part(Play(s, calls), o), r);
  }

  // --- The outbox as a history -------------------------------------------------------------------

  /** Sequences gapless from one, times never decreasing, one event per revision, the last showing the row. */
  ghost predicate CompleteHistory(db: Db) {
    && (forall i :: 0 <= i < |db.events| ==> db.events[i].sequence == i + 1)
    && (forall i, j :: 0 <= i <= j < |db.events| ==> db.events[i].occurredAt <= db.events[j].occurredAt)
    && (forall r :: r in db.runs ==> RunHistory(r, db.runs[r], Select(db.events, r, History)))
  }

  predicate RunHistory(r: Id, run: Run, h: seq<Event>) {
    && |h| == run.revision + 1
    && (forall i :: 0 <= i < |h| ==> h[i].mark.Some? && h[i].mark.value.run == r && h[i].mark.value.revision == i)
    && h[run.revision].mark.value.state == run.state && h[run.revision].occurredAt == run.updatedAt
  }

  lemma HistoryIsComplete(db: Db)
    requires RunsOk(db) && EventsOk(db)
    ensures CompleteHistory(db)
  {
    hide RowOk, ControlsOk, CompletionOk, Select;
    forall i | 0 <= i < |db.events| ensures db.events[i].sequence == i + 1 { assert EventOk(db, i); }
    forall r | r in db.runs ensures RunHistory(r, db.runs[r], Select(db.events, r, History)) {
      assert RunOk(db, r);
      RunHistoryHolds(r, db.runs[r], Select(db.events, r, History));
    }
  }

  lemma RunHistoryHolds(r: Id, run: Run, h: seq<Event>)
    requires HistoryOk(r, run, h)
    ensures RunHistory(r, run, h)
  {
    forall i | 0 <= i < |h| ensures MarkOk(r, run, h[i], i) { }
  }

  /** In every reachable store each owner's outbox is a complete history, and it only ever grows. */
  lemma OutboxIsComplete(first: seq<Call>, later: seq<Call>, o: Owner)
    ensures CompleteHistory(Part(Play(map[], first), o))
    ensures Part(Play(map[], first), o).events <= Part(Play(Play(map[], first), later), o).events
  {
    hide R.StoreInv, Play, Part, Inv, CompleteHistory, RunsOk, EventsOk, ProjectionOk, GenerationsDistinct,
         GenerationsGapless, WorkersForward, RunsForward, PlansForward;
    var s := Play(map[], first);
    R.EmptyStoreOk();
    R.PlayKeeps(map[], first);
    R.PlayKeeps(s, later);
    R.PartInv(s, o);
    H.CoreConjuncts(Part(s, o));
    HistoryIsComplete(Part(s, o));
  }
}
