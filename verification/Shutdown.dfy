/** What the shutdown handshake guarantees, and exactly how many drainers its signals can serve. */
module Shutdown {
  import opened Supervisor
  import opened Handshake

  // --- The state word ----------------------------------------------------------------------------

  /** In every reachable world the word is the live permits plus the bit; the parts never meet. */
  lemma WordIsExact(steps: seq<Step>)
    ensures var w := Play(START, steps);
            && InitializerCount(w) == |Holders(w)| < SHUTDOWN_BIT
            && (ShuttingDown(w) <==> w.drains != map[])
            && w.word == InitializerCount(w) + if ShuttingDown(w) then SHUTDOWN_BIT else 0
  {
    hide Play, RowsOk, DrainsOk, Holders;
    StartIsOk();
    PlayKeeps(START, steps);
  }

  /** Once the bit is set nobody new gets a permit. */
  lemma NoNewHolder(w: World, step: Step)
    requires Inv(w) && ShuttingDown(w)
    ensures Holders(Next(w, step)) <= Holders(w) && ShuttingDown(Next(w, step))
  {
    hide RowsOk, DrainsOk;
    NextKeeps(w, step);
    DrainsGrow(w, step);
    forall i | i in Holders(Next(w, step)) ensures i in Holders(w) { NoNewPermit(w, step, i); }
  }

  lemma DrainsGrow(w: World, step: Step)
    ensures w.drains.Keys <= Next(w, step).drains.Keys
  {
    hide NextInit, NextWorker, NextDrain;
    forall i, st | i in w.inits ensures NextInit(w, i, st).drains.Keys == w.drains.Keys { InitKeys(w, i, st); }
    forall t, st | t in w.workers ensures NextWorker(w, t, st).drains.Keys == w.drains.Keys { WorkerKeys(w, t, st); }
    forall e, st | e in w.drains ensures NextDrain(w, e, st).drains.Keys == w.drains.Keys { SameKeys(w, e, st); }
  }

  lemma NoNewPermit(w: World, step: Step, i: Id)
    requires ShuttingDown(w) && i in Next(w, step).inits && Next(w, step).inits[i].Holds()
    ensures i in w.inits && w.inits[i].Holds()
  {
    hide NextInit, NextWorker, NextDrain;
    forall j, st | j in w.inits && i in NextInit(w, j, st).inits && NextInit(w, j, st).inits[i].Holds()
      ensures i in w.inits && w.inits[i].Holds()
    {
      InitNoNewPermit(w, j, st, i);
    }
    forall t, st | t in w.workers ensures NextWorker(w, t, st).inits == w.inits { WorkerOnlyRows(w, t, st); }
    forall d, st | d in w.drains ensures NextDrain(w, d, st).inits == w.inits { DrainOnlyRows(w, d, st); }
  }

  lemma InitNoNewPermit(w: World, j: Id, step: Step, i: Id)
    requires ShuttingDown(w) && j in w.inits && i in NextInit(w, j, step).inits && NextInit(w, j, step).inits[i].Holds()
    ensures i in w.inits && w.inits[i].Holds()
  {
    hide NextInit;
    OnlyOwnPhase(w, j, step, i);
    if i == j && w.inits[j].Loaded? && step.TryBegin? {
      BeginCases(w, j, step.spurious);
      BeginAny(w, j, step);
    } else if i == j {
      PhaseMoves(w, j, step);
    }
  }

  /** What a step of one call may change: its own phase, and the phase of a drainer it wakes. */
  predicate OwnPhaseOnly(w: World, w': World, j: Id) {
    && j in w'.inits && w'.inits == w.inits[j := w'.inits[j]] && w'.drains.Keys == w.drains.Keys
    && forall d :: d in w.drains && w.drains[d] != w'.drains[d] ==> w.drains[d].SleepInit?
  }

  lemma BeginFrame(w: World, j: Id, current: nat, spurious: bool)
    ensures OwnPhaseOnly(w, Begin(w, j, current, spurious), j)
  { }

  lemma RegisterFrame(w: World, j: Id, key: Id, runtime: Id)
    ensures OwnPhaseOnly(w, RegisterHandle(w, j, key, runtime), j)
  {
    hide Aborted, Mine;
  }

  lemma SignalFrame(w: World, j: Id, who: Id)
    requires j in w.inits
    ensures OwnPhaseOnly(w, SignalInit(w.(inits := w.inits[j := Gone]), who), j)
  { }

  lemma SamePhase(w: World, j: Id)
    requires j in w.inits
    ensures OwnPhaseOnly(w, w, j)
  {
    assert w.inits == w.inits[j := w.inits[j]];
  }

  lemma PlainFrame(w: World, w': World, j: Id)
    requires j in w'.inits && w'.inits == w.inits[j := w'.inits[j]] && w'.drains == w.drains
    ensures OwnPhaseOnly(w, w', j)
  { }

  lemma InitFrame(w: World, j: Id, step: Step)
    requires j in w.inits
    ensures OwnPhaseOnly(w, NextInit(w, j, step), j)
  {
    hide Begin, RegisterHandle, SignalInit, MayWakeInit, Aborted, OwnPhaseOnly;
    SamePhase(w, j);
    var x := w.inits[j];
    match step
    case TryBegin(_, spurious) => if x.Loaded? { BeginFrame(w, j, x.current, spurious); }
    case Register(_) => if x.Spawned? { RegisterFrame(w, j, x.key, x.runtime); }
    case NotifyInit(_, who) => SignalFrame(w, j, who);
    case Reserve(_, _, _) => ReserveFrame(w, j, step);
    case Spawn(_) => SpawnFrame(w, j, step);
    case StartWatch(_) => SpawnFrame(w, j, step);
    case SendStart(_) => SpawnFrame(w, j, step);
    case GiveUp(_) => ReserveFrame(w, j, step);
    case DropPermit(_) => ReserveFrame(w, j, step);
    case _ =>
  }

  lemma ReserveFrame(w: World, j: Id, step: Step)
    requires j in w.inits && (step.Reserve? || step.GiveUp? || step.DropPermit?)
    ensures OwnPhaseOnly(w, NextInit(w, j, step), j)
  {
    hide OwnPhaseOnly;
    if NextInit(w, j, step) == w { SamePhase(w, j); } else { PlainFrame(w, NextInit(w, j, step), j); }
  }

  lemma SpawnFrame(w: World, j: Id, step: Step)
    requires j in w.inits && (step.Spawn? || step.StartWatch? || step.SendStart?)
    ensures OwnPhaseOnly(w, NextInit(w, j, step), j)
  {
    hide OwnPhaseOnly, Aborted;
    if NextInit(w, j, step) == w { SamePhase(w, j); } else { PlainFrame(w, NextInit(w, j, step), j); }
  }

  /** A step of one call changes no other call. */
  lemma OnlyOwnPhase(w: World, j: Id, step: Step, i: Id)
    requires j in w.inits
    ensures i != j ==> (i in NextInit(w, j, step).inits <==> i in w.inits)
    ensures i != j && i in w.inits ==> NextInit(w, j, step).inits[i] == w.inits[i]
    ensures j in NextInit(w, j, step).inits
  {
    hide NextInit;
    InitFrame(w, j, step);
  }

  /** Only the compare-and-swap turns a call into a permit holder. */
  lemma PhaseMoves(w: World, j: Id, step: Step)
    requires j in w.inits && !(w.inits[j].Loaded? && step.TryBegin?)
    ensures j in NextInit(w, j, step).inits && (NextInit(w, j, step).inits[j].Holds() ==> w.inits[j].Holds())
  {
    hide Begin, RegisterHandle, SignalInit, MayWakeInit, Aborted, Mine;
    if step.NotifyInit? { SignalFrame(w, j, step.who); }
    if step.Register? && w.inits[j].Spawned? { RegisterFrame(w, j, w.inits[j].key, w.inits[j].runtime); }
    GoneStays(w, j, step);
  }

  lemma GoneStays(w: World, j: Id, step: Step)
    requires j in w.inits
    ensures step.NotifyInit? && w.inits[j].Dropped? && MayWakeInit(w, step.who) ==>
              !NextInit(w, j, step).inits[j].Holds()
  {
    hide MayWakeInit;
  }

  lemma WorkerOnlyRows(w: World, t: Id, step: Step)
    requires t in w.workers
    ensures NextWorker(w, t, step).inits == w.inits
  {
    hide Mine;
  }

  lemma DrainOnlyRows(w: World, d: Id, step: Step)
    requires d in w.drains
    ensures NextDrain(w, d, step).inits == w.inits
  {
    hide AbortLive;
    AbortOnlyRows(w);
  }

  lemma AbortOnlyRows(w: World)
    ensures AbortLive(w).inits == w.inits && AbortLive(w).word == w.word && AbortLive(w).watchers == w.watchers
  { }

  lemma {:induction false} NoPermitAfterShutdown(w: World, steps: seq<Step>)
    requires Inv(w) && ShuttingDown(w)
    ensures Holders(Play(w, steps)) <= Holders(w) && ShuttingDown(Play(w, steps)) && Inv(Play(w, steps))
  {
    hide Inv, Next, Holders, ShuttingDown;
    if steps == [] {
    } else {
      var front := steps[..|steps| - 1];
      NoPermitAfterShutdown(w, front);
      NoNewHolder(Play(w, front), steps[|steps| - 1]);
      NextKeeps(Play(w, front), steps[|steps| - 1]);
    }
  }

  // --- Returning means quiet ---------------------------------------------------------------------

  /** No initialiser holds a permit and no dispatch worker is alive or waiting to start. */
  ghost predicate Still(w: World) {
    && Holders(w) == {} && w.dispatches == map[]
    && forall t :: t in w.workers ==> w.workers[t].stage.Ended?
  }

  lemma ReturnedIsStill(w: World, d: Id)
    requires Inv(w) && d in w.drains && w.drains[d].Returned?
    ensures Still(w)
  {
    assert DrainOk(w, w.drains[d]);
    forall t | t in w.workers ensures w.workers[t].stage.Ended? { assert WorkerOk(w, t); }
  }

  lemma ReturnedStays(w: World, step: Step, d: Id)
    requires d in w.drains && w.drains[d].Returned?
    ensures d in Next(w, step).drains && Next(w, step).drains[d].Returned?
  {
    hide NextInit, NextWorker, NextDrain;
    forall i, st | i in w.inits ensures Keeps(w, NextInit(w, i, st), d) { InitKeepsReturned(w, i, st, d); }
    forall t, st | t in w.workers ensures Keeps(w, NextWorker(w, t, st), d) { WorkerKeepsReturned(w, t, st, d); }
    forall e, st | e in w.drains ensures Keeps(w, NextDrain(w, e, st), d) { DrainKeepsReturned(w, e, st, d); }
  }

  /** A returned drainer is left alone. */
  predicate Keeps(w: World, w': World, d: Id) {
    d in w.drains && w.drains[d].Returned? ==> d in w'.drains && w'.drains[d].Returned?
  }

  lemma InitKeepsReturned(w: World, i: Id, step: Step, d: Id)
    requires i in w.inits
    ensures Keeps(w, NextInit(w, i, step), d)
  {
    hide NextInit;
    InitFrame(w, i, step);
  }

  lemma WorkerKeepsReturned(w: World, t: Id, step: Step, d: Id)
    requires t in w.workers
    ensures Keeps(w, NextWorker(w, t, step), d)
  {
    hide Mine;
  }

  lemma DrainKeepsReturned(w: World, e: Id, step: Step, d: Id)
    requires e in w.drains
    ensures Keeps(w, NextDrain(w, e, step), d)
  {
    hide AbortLive;
  }

  lemma {:induction false} ReturnedForever(w: World, steps: seq<Step>, d: Id)
    requires d in w.drains && w.drains[d].Returned?
    ensures d in Play(w, steps).drains && Play(w, steps).drains[d].Returned?
  {
    hide Next;
    if steps == [] {
    } else {
      ReturnedForever(w, steps[..|steps| - 1], d);
      ReturnedStays(Play(w, steps[..|steps| - 1]), steps[|steps| - 1], d);
    }
  }

  /** When a drain has returned, whether well or not, nothing runs and nothing can start, from then on. */
  lemma DrainReturnsOnlyWhenStill(first: seq<Step>, later: seq<Step>, d: Id)
    requires d in Play(START, first).drains && Play(START, first).drains[d].Returned?
    ensures Still(Play(START, first)) && Still(Play(Play(START, first), later))
  {
    hide Play, Inv, Still;
    StartIsOk();
    PlayKeeps(START, first);
    var w := Play(START, first);
    PlayKeeps(w, later);
    ReturnedForever(w, later, d);
    ReturnedIsStill(w, d);
    ReturnedIsStill(Play(w, later), d);
  }

  /** While a drain waits for dispatches, every worker left has been told to stop and has its watcher. */
  lemma WaitingMeansAborted(steps: seq<Step>, d: Id, k: Id)
    requires var w := Play(START, steps);
             && d in w.drains && (w.drains[d].WaitDispatch? || w.drains[d].AwaitDispatch? || w.drains[d].SleepDispatch?)
             && k in w.dispatches
    ensures var w := Play(START, steps); Attended(w, k) && w.workers[w.dispatches[k].runtime].abort
  {
    hide Play;
    StartIsOk();
    PlayKeeps(START, steps);
    var w := Play(START, steps);
    assert DrainOk(w, w.drains[d]);
    NoneMeansAttended(w, k);
  }

  // --- No lost wake-up for one drainer -----------------------------------------------------------

  /** Some call will still send `initialization_finished`. */
  ghost predicate InitPending(w: World) {
    exists i :: i in w.inits && (w.inits[i].Holds() || w.inits[i].Dropped?)
  }

  /** Some watcher will still send `dispatch_finished`. */
  ghost predicate DispatchPending(w: World) {
    w.dispatches != map[] || exists t :: t in w.watchers && t in w.workers && w.watchers[t].Removed?
  }

  /** A drainer that sleeps, or is about to, has a signal coming or stored. */
  ghost predicate WillWake(w: World, d: Id) {
    d in w.drains ==>
      && (w.drains[d].AwaitInit? ==> InitPending(w) || w.initSignal)
      && (w.drains[d].SleepInit? ==> InitPending(w))
      && (w.drains[d].AwaitDispatch? ==> DispatchPending(w) || w.dispatchSignal)
      && (w.drains[d].SleepDispatch? ==> DispatchPending(w))
  }

  /** Nobody but `d` ever drains. */
  predicate OnlyDrain(steps: seq<Step>, d: Id) {
    forall i :: 0 <= i < |steps| ==> steps[i].Shutdown? ==> steps[i].d == d
  }

  lemma CountMeansPending(w: World)
    requires WordOk(w) && InitializerCount(w) != 0
    ensures InitPending(w)
  {
    assert Holders(w) != {};
    var i :| i in Holders(w);
  }

  lemma InitStepWakes(w: World, i: Id, step: Step, d: Id)
    requires Inv(w) && i in w.inits && WillWake(w, d) && w.drains.Keys <= {d}
    ensures WillWake(NextInit(w, i, step), d)
  {
    hide Inv, WillWake;
    if step.Register? && w.inits[i].Spawned? {
      RegisterWakes(w, i, d);
    } else if step.TryBegin? && w.inits[i].Loaded? {
      BeginWakes(w, i, step.spurious, d);
      BeginAny(w, i, step);
    } else if step.NotifyInit? {
      NotifyWakes(w, i, step.who, d);
    } else if step.StartWatch? && w.inits[i].Registered? {
      StartWatchWakes(w, i, d);
    } else if step.Reserve? || step.Spawn? || step.SendStart? || step.GiveUp? || step.DropPermit? {
      PlainWakes(w, i, step, d);
    }
  }

  lemma PlainWakes(w: World, i: Id, step: Step, d: Id)
    requires i in w.inits && WillWake(w, d)
             && (step.Reserve? || step.Spawn? || step.SendStart? || step.GiveUp? || step.DropPermit?)
    ensures WillWake(NextInit(w, i, step), d)
  {
    hide WillWake;
    if NextInit(w, i, step) != w { SameDrainsWake(w, NextInit(w, i, step), i, d); }
  }

  lemma StartWatchWakes(w: World, i: Id, d: Id)
    requires Inv(w) && i in w.inits && w.inits[i].Registered? && WillWake(w, d)
    ensures WillWake(NextInit(w, i, StartWatch(i)), d)
  {
    hide WillWake, DrainsOk, WordOk;
    assert InitOk(w, i);
    SameDrainsWake(w, NextInit(w, i, StartWatch(i)), i, d);
  }

  /** The signal itself: the only sleeper is woken, or the permit waits for the one about to sleep. */
  lemma NotifyWakes(w: World, i: Id, who: Id, d: Id)
    requires i in w.inits && WillWake(w, d) && w.drains.Keys <= {d}
    ensures WillWake(NextInit(w, i, NotifyInit(i, who)), d)
  {
    if w.inits[i].Dropped? && MayWakeInit(w, who) && d in w.drains {
      assert AsleepInit(w, who) ==> who == d;
    }
  }

  /** A call that still has its signal to send keeps it pending through every step but the signal itself. */
  lemma SameDrainsWake(w: World, w': World, i: Id, d: Id)
    requires i in w.inits && WillWake(w, d) && w'.drains == w.drains && w'.initSignal == w.initSignal
             && w'.dispatchSignal == w.dispatchSignal
    requires i in w'.inits && w'.inits == w.inits[i := w'.inits[i]]
    requires w.inits[i].Holds() || w.inits[i].Dropped? ==> w'.inits[i].Holds() || w'.inits[i].Dropped?
    requires w.dispatches != map[] ==> w'.dispatches != map[]
    requires forall t :: t in w.watchers && t in w.workers && w.watchers[t].Removed? ==>
               t in w'.watchers && t in w'.workers && w'.watchers[t].Removed?
    ensures WillWake(w', d)
  {
    if InitPending(w) {
      var j :| j in w.inits && (w.inits[j].Holds() || w.inits[j].Dropped?);
      assert j in w'.inits;
    }
  }

  lemma RegisterWakes(w: World, i: Id, d: Id)
    requires i in w.inits && w.inits[i].Spawned? && WillWake(w, d)
    ensures WillWake(NextInit(w, i, Register(i)), d)
  {
    hide WillWake;
    SameDrainsWake(w, NextInit(w, i, Register(i)), i, d);
  }

  lemma BeginWakes(w: World, i: Id, spurious: bool, d: Id)
    requires i in w.inits && w.inits[i].Loaded? && WillWake(w, d)
    ensures WillWake(NextInit(w, i, TryBegin(i, spurious)), d)
  {
    hide WillWake, NextInit;
    BeginCases(w, i, spurious);
    SameDrainsWake(w, NextInit(w, i, TryBegin(i, spurious)), i, d);
  }

  lemma WorkerStepWakes(w: World, t: Id, step: Step, d: Id)
    requires t in w.workers && WillWake(w, d) && w.drains.Keys <= {d}
    ensures WillWake(NextWorker(w, t, step), d)
  {
    if step.WorkerRun? || step.WorkerEnd? {
      StageWakes(w, t, step, d);
    } else if step.WatchRemove? {
      RemoveWakes(w, t, d);
    } else if step.WatchNotify? && t in w.watchers && w.watchers[t].Removed? && MayWakeDispatch(w, step.who)
        && d in w.drains {
      assert AsleepDispatch(w, step.who) ==> step.who == d;
    }
  }

  lemma StageWakes(w: World, t: Id, step: Step, d: Id)
    requires t in w.workers && WillWake(w, d) && (step.WorkerRun? || step.WorkerEnd?)
    ensures WillWake(NextWorker(w, t, step), d)
  {
    var w' := NextWorker(w, t, step);
    if DispatchPending(w) && w.dispatches == map[] {
      var u :| u in w.watchers && u in w.workers && w.watchers[u].Removed?;
      assert u in w'.watchers && u in w'.workers;
    }
  }

  /** Removing the entry is what leaves the watcher with a signal to send. */
  lemma RemoveWakes(w: World, t: Id, d: Id)
    requires t in w.workers && WillWake(w, d)
    ensures WillWake(NextWorker(w, t, WatchRemove(t)), d)
  {
    var w' := NextWorker(w, t, WatchRemove(t));
    if t in w.watchers && w'.watchers[t].Removed? && w' != w {
      assert DispatchPending(w');
    } else if DispatchPending(w) && w.dispatches == map[] {
      var u :| u in w.watchers && u in w.workers && w.watchers[u].Removed?;
      assert u in w'.watchers && u in w'.workers && w'.watchers[u].Removed?;
    }
  }

  lemma DrainStepWakes(w: World, d: Id, step: Step)
    requires WordOk(w) && d in w.drains && WillWake(w, d) && !step.AbortAll?
    ensures WillWake(NextDrain(w, d, step), d)
  {
    if InitializerCount(w) != 0 { CountMeansPending(w); }
    hide WordOk, InitializerCount;
    PendingElsewhere(w, NextDrain(w, d, step));
  }

  lemma PendingElsewhere(w: World, w': World)
    ensures w'.inits == w.inits && InitPending(w) ==> InitPending(w')
    ensures w'.dispatches == w.dispatches && w'.watchers == w.watchers && w'.workers == w.workers ==>
              (DispatchPending(w) ==> DispatchPending(w'))
  { }

  lemma AbortWakes(w: World, d: Id)
    requires d in w.drains && WillWake(w, d)
    ensures WillWake(NextDrain(w, d, AbortAll(d)), d)
  {
    hide AbortLive;
  }

  /** The signals reach this drainer, and there is no other. */
  ghost predicate Served(w: World, d: Id) {
    WillWake(w, d) && w.drains.Keys <= {d}
  }

  lemma InitServes(w: World, i: Id, step: Step, d: Id)
    requires Inv(w) && i in w.inits && Served(w, d)
    ensures Served(NextInit(w, i, step), d)
  {
    hide Inv, WillWake, NextInit;
    InitStepWakes(w, i, step, d);
    InitKeys(w, i, step);
  }

  lemma WorkerServes(w: World, t: Id, step: Step, d: Id)
    requires t in w.workers && Served(w, d)
    ensures Served(NextWorker(w, t, step), d)
  {
    hide WillWake, NextWorker;
    WorkerStepWakes(w, t, step, d);
    WorkerKeys(w, t, step);
  }

  lemma DrainServes(w: World, e: Id, step: Step, d: Id)
    requires Inv(w) && e in w.drains && Served(w, d)
    ensures Served(NextDrain(w, e, step), d)
  {
    InvWord(w);
    hide Inv, WillWake, NextDrain, WordOk;
    assert e == d;
    if step.AbortAll? { AbortAny(w, e, step); AbortWakes(w, e); } else { DrainStepWakes(w, e, step); }
    SameKeys(w, e, step);
  }

  lemma AbortAny(w: World, e: Id, step: Step)
    requires e in w.drains && step.AbortAll?
    ensures NextDrain(w, e, step) == NextDrain(w, e, AbortAll(e))
  { }

  lemma NextWakes(w: World, step: Step, d: Id)
    requires Inv(w) && Served(w, d) && (step.Shutdown? ==> step.d == d)
    ensures Served(Next(w, step), d)
  {
    hide Inv, Served, NextInit, NextWorker, NextDrain;
    match step
    case Arrive(i) => ArriveServes(w, i, d);
    case Shutdown(_) => ShutdownServes(w, d);
    case TryBegin(i, _) => if i in w.inits { InitServes(w, i, step, d); }
    case GiveUp(i) => if i in w.inits { InitServes(w, i, step, d); }
    case Reserve(i, _, _) => if i in w.inits { InitServes(w, i, step, d); }
    case Spawn(i) => if i in w.inits { InitServes(w, i, step, d); }
    case Register(i) => if i in w.inits { InitServes(w, i, step, d); }
    case StartWatch(i) => if i in w.inits { InitServes(w, i, step, d); }
    case SendStart(i) => if i in w.inits { InitServes(w, i, step, d); }
    case DropPermit(i) => if i in w.inits { InitServes(w, i, step, d); }
    case NotifyInit(i, _) => if i in w.inits { InitServes(w, i, step, d); }
    case WorkerRun(t) => if t in w.workers { WorkerServes(w, t, step, d); }
    case WorkerEnd(t) => if t in w.workers { WorkerServes(w, t, step, d); }
    case WatchRemove(t) => if t in w.workers { WorkerServes(w, t, step, d); }
    case WatchNotify(t, _) => if t in w.workers { WorkerServes(w, t, step, d); }
    case AbortAll(e) => if e in w.drains { DrainServes(w, e, step, d); }
    case LoopReadInit(e) => if e in w.drains { DrainServes(w, e, step, d); }
    case LoopReadDispatch(e) => if e in w.drains { DrainServes(w, e, step, d); }
    case LeaveLoop(e) => if e in w.drains { DrainServes(w, e, step, d); }
    case CheckInit(e) => if e in w.drains { DrainServes(w, e, step, d); }
    case PollInit(e) => if e in w.drains { DrainServes(w, e, step, d); }
    case CheckDispatch(e) => if e in w.drains { DrainServes(w, e, step, d); }
    case PollDispatch(e) => if e in w.drains { DrainServes(w, e, step, d); }
  }

  lemma ArriveServes(w: World, i: Id, d: Id)
    requires Served(w, d)
    ensures Served(Next(w, Arrive(i)), d)
  {
    ArriveWakes(w, i, d);
  }

  lemma ShutdownServes(w: World, d: Id)
    requires Served(w, d)
    ensures Served(Next(w, Shutdown(d)), d)
  {
    ShutdownWakes(w, d);
  }

  lemma InvWord(w: World)
    requires Inv(w)
    ensures WordOk(w)
  { }

  lemma ArriveWakes(w: World, i: Id, d: Id)
    requires WillWake(w, d)
    ensures WillWake(Next(w, Arrive(i)), d)
  {
    if InitPending(w) {
      var j :| j in w.inits && (w.inits[j].Holds() || w.inits[j].Dropped?);
      assert j in Next(w, Arrive(i)).inits;
    }
  }

  lemma ShutdownWakes(w: World, d: Id)
    requires WillWake(w, d)
    ensures WillWake(Next(w, Shutdown(d)), d)
  {
    PendingElsewhere(w, Next(w, Shutdown(d)));
  }

  lemma SameKeys(w: World, e: Id, step: Step)
    requires e in w.drains
    ensures NextDrain(w, e, step).drains.Keys == w.drains.Keys
  {
    hide AbortLive;
  }

  lemma WorkerKeys(w: World, t: Id, step: Step)
    requires t in w.workers
    ensures NextWorker(w, t, step).drains.Keys == w.drains.Keys
  {
    hide Mine;
  }

  lemma InitKeys(w: World, i: Id, step: Step)
    requires i in w.inits
    ensures NextInit(w, i, step).drains.Keys == w.drains.Keys
  {
    hide NextInit;
    InitFrame(w, i, step);
  }

  lemma {:induction false} PlayWakes(w: World, steps: seq<Step>, d: Id)
    requires Inv(w) && Served(w, d) && OnlyDrain(steps, d)
    ensures Inv(Play(w, steps)) && Served(Play(w, steps), d)
  {
    hide Inv, Next, Served;
    if steps == [] {
    } else {
      var front := steps[..|steps| - 1];
      PlayWakes(w, front, d);
      NextKeeps(Play(w, front), steps[|steps| - 1]);
      NextWakes(Play(w, front), steps[|steps| - 1], d);
    }
  }

  /** Asleep with no signal stored, pending or to come. */
  ghost predicate Stranded(w: World, d: Id) {
    (AsleepInit(w, d) && !InitPending(w)) || (AsleepDispatch(w, d) && !DispatchPending(w))
  }

  /** With one drainer neither wait loses its wake-up, in any interleaving. */
  lemma NoLostWakeup(steps: seq<Step>, d: Id)
    requires OnlyDrain(steps, d)
    ensures !Stranded(Play(START, steps), d)
  {
    hide Play, Inv;
    StartIsOk();
    PlayWakes(START, steps, d);
  }

  // --- Drains one after another ------------------------------------------------------------------

  ghost predicate AllReturned(w: World) {
    forall d :: d in w.drains ==> w.drains[d].Returned?
  }

  /** A drain begins only when every earlier one has returned. */
  ghost predicate OneAtATime(steps: seq<Step>) {
    forall k :: 0 <= k < |steps| && steps[k].Shutdown? ==> Begins(Play(START, steps[..k]), steps[k].d)
  }

  ghost predicate Begins(w: World, d: Id) {
    d in w.drains || AllReturned(w)
  }

  predicate Waits(x: Drain) {
    x.AwaitInit? || x.SleepInit? || x.AwaitDispatch? || x.SleepDispatch?
  }

  /** A drain has returned, so nothing is left that a later one could wait for. */
  ghost predicate Settled(w: World) {
    && (exists d :: d in w.drains && w.drains[d].Returned?)
    && (forall d :: d in w.drains ==> !Waits(w.drains[d]))
  }

  lemma NothingToAwait(w: World)
    requires Inv(w) && Settled(w)
    ensures InitializerCount(w) == 0 && w.dispatches == map[]
  {
    var d :| d in w.drains && w.drains[d].Returned?;
    ReturnedIsStill(w, d);
  }

  lemma InitSettled(w: World, i: Id, step: Step)
    requires i in w.inits && Settled(w)
    ensures Settled(NextInit(w, i, step))
  {
    hide NextInit;
    InitFrame(w, i, step);
    assert NextInit(w, i, step).drains == w.drains;
  }

  lemma WorkerSettled(w: World, t: Id, step: Step)
    requires t in w.workers && Settled(w)
    ensures Settled(NextWorker(w, t, step))
  {
    hide Mine;
    assert NextWorker(w, t, step).drains == w.drains;
  }

  lemma DrainSettled(w: World, e: Id, step: Step)
    requires e in w.drains && Settled(w) && InitializerCount(w) == 0 && w.dispatches == map[]
    ensures Settled(NextDrain(w, e, step))
  {
    hide AbortLive, InitializerCount;
    var d :| d in w.drains && w.drains[d].Returned?;
    DrainKeepsReturned(w, e, step, d);
    SameKeys(w, e, step);
  }

  lemma ShutdownSettles(w: World, e: Id)
    requires e !in w.drains && AllReturned(w) && w.drains != map[]
    ensures Settled(Next(w, Shutdown(e)))
  {
    var d :| d in w.drains;
    assert d in Next(w, Shutdown(e)).drains;
  }

  lemma SettledStays(w: World, step: Step)
    requires Inv(w) && Settled(w)
    ensures Settled(Next(w, step))
  {
    NothingToAwait(w);
    hide Inv, NextInit, NextWorker, NextDrain, InitializerCount;
    forall i, st | i in w.inits ensures Settled(NextInit(w, i, st)) { InitSettled(w, i, st); }
    forall t, st | t in w.workers ensures Settled(NextWorker(w, t, st)) { WorkerSettled(w, t, st); }
    forall e, st | e in w.drains ensures Settled(NextDrain(w, e, st)) { DrainSettled(w, e, st); }
    var d :| d in w.drains && w.drains[d].Returned?;
    ReturnedStays(w, step, d);
  }

  /** One drainer that the signals reach, or a world in which nobody waits any more. */
  ghost predicate Orderly(w: World) {
    Settled(w) || exists d :: Served(w, d)
  }

  lemma OrderlyStep(w: World, step: Step)
    requires Inv(w) && Orderly(w) && (step.Shutdown? ==> Begins(w, step.d))
    ensures Orderly(Next(w, step))
  {
    hide Inv, Settled, WillWake, Next;
    if Settled(w) {
      SettledStays(w, step);
    } else {
      var d :| Served(w, d);
      if !step.Shutdown? || step.d == d {
        NextWakes(w, step, d);
      } else if w.drains == map[] {
        NobodyYet(w, step.d);
        NextWakes(w, step, step.d);
      } else {
        ShutdownSettles(w, step.d);
      }
    }
  }

  lemma NobodyYet(w: World, d: Id)
    requires w.drains == map[]
    ensures Served(w, d)
  { }

  lemma {:induction false} PlayOrderly(steps: seq<Step>)
    requires OneAtATime(steps)
    ensures Inv(Play(START, steps)) && Orderly(Play(START, steps))
  {
    hide Inv, Next, Orderly, Begins;
    if steps == [] {
      StartIsOk();
      StartOrderly();
    } else {
      var n := |steps| - 1;
      FrontInOrder(steps);
      PlayOrderly(steps[..n]);
      NextKeeps(Play(START, steps[..n]), steps[n]);
      OrderlyStep(Play(START, steps[..n]), steps[n]);
    }
  }

  lemma StartOrderly()
    ensures Orderly(START)
  {
    NobodyYet(START, 0);
  }

  lemma FrontInOrder(steps: seq<Step>)
    requires steps != [] && OneAtATime(steps)
    ensures OneAtATime(steps[..|steps| - 1])
  {
    hide Begins;
    var front := steps[..|steps| - 1];
    forall k | 0 <= k < |front| && front[k].Shutdown? ensures Begins(Play(START, front[..k]), front[k].d) {
      assert front[..k] == steps[..k];
    }
  }

  /** However many drains there are, if they do not overlap, nobody is ever stranded. */
  lemma OrderlyDrainsAllWake(steps: seq<Step>, d: Id)
    requires OneAtATime(steps)
    ensures !Stranded(Play(START, steps), d)
  {
    PlayOrderly(steps);
    hide Play, Inv, InitPending, DispatchPending;
  }

  // --- Two drainers: the signals are one too few -------------------------------------------------

  /** After shutdown, a drainer stranded on the initialisers sleeps for ever. */
  lemma StrandedStays(w: World, step: Step, d: Id)
    requires Inv(w) && ShuttingDown(w) && AsleepInit(w, d) && !InitPending(w)
    ensures AsleepInit(Next(w, step), d) && !InitPending(Next(w, step)) && ShuttingDown(Next(w, step))
  {
    NoNewHolder(w, step);
    hide Inv, Holders, WordOk;
    StrandedPhases(w, step, d);
  }

  lemma StrandedPhases(w: World, step: Step, d: Id)
    requires ShuttingDown(w) && AsleepInit(w, d) && !InitPending(w)
    ensures AsleepInit(Next(w, step), d) && !InitPending(Next(w, step))
  {
    hide NextInit, NextWorker, NextDrain;
    forall i, st | i in w.inits ensures NextInit(w, i, st).drains == w.drains && !InitPending(NextInit(w, i, st)) {
      StrandedInit(w, i, st);
    }
    forall t, st | t in w.workers ensures NextWorker(w, t, st).inits == w.inits && AsleepInit(NextWorker(w, t, st), d) {
      StrandedWorker(w, t, st, d);
    }
    forall e, st | e in w.drains ensures NextDrain(w, e, st).inits == w.inits && AsleepInit(NextDrain(w, e, st), d) {
      StrandedDrain(w, e, st, d);
    }
    assert !InitPending(Next(w, step));
  }

  lemma StrandedInit(w: World, i: Id, step: Step)
    requires ShuttingDown(w) && i in w.inits && !InitPending(w)
    ensures NextInit(w, i, step).drains == w.drains && !InitPending(NextInit(w, i, step))
  {
    hide NextInit;
    var w' := NextInit(w, i, step);
    IdlePhase(w, i, step);
    forall j | j in w'.inits ensures !w'.inits[j].Holds() && !w'.inits[j].Dropped? { OnlyOwnPhase(w, i, step, j); }
  }

  /** After shutdown a call without a permit can only be refused. */
  lemma IdlePhase(w: World, i: Id, step: Step)
    requires ShuttingDown(w) && i in w.inits && !w.inits[i].Holds() && !w.inits[i].Dropped?
    ensures NextInit(w, i, step).drains == w.drains
    ensures i in NextInit(w, i, step).inits && !NextInit(w, i, step).inits[i].Holds()
            && !NextInit(w, i, step).inits[i].Dropped?
  {
    hide RegisterHandle, SignalInit, Aborted, Mine, MayWakeInit;
  }

  lemma StrandedWorker(w: World, t: Id, step: Step, d: Id)
    requires t in w.workers && AsleepInit(w, d)
    ensures NextWorker(w, t, step).inits == w.inits && AsleepInit(NextWorker(w, t, step), d)
  {
    hide Mine;
  }

  lemma StrandedDrain(w: World, e: Id, step: Step, d: Id)
    requires e in w.drains && AsleepInit(w, d)
    ensures NextDrain(w, e, step).inits == w.inits && AsleepInit(NextDrain(w, e, step), d)
  {
    hide AbortLive;
    AbortOnlyRows(w);
  }

  lemma {:induction false} StrandedForever(w: World, steps: seq<Step>, d: Id)
    requires Inv(w) && ShuttingDown(w) && AsleepInit(w, d) && !InitPending(w)
    ensures AsleepInit(Play(w, steps), d)
    ensures Inv(Play(w, steps)) && ShuttingDown(Play(w, steps)) && !InitPending(Play(w, steps))
  {
    hide Inv, Next, AsleepInit, InitPending, ShuttingDown;
    if steps == [] {
    } else {
      var front := steps[..|steps| - 1];
      StrandedForever(w, front, d);
      NextKeeps(Play(w, front), steps[|steps| - 1]);
      StrandedStays(Play(w, front), steps[|steps| - 1], d);
    }
  }

  /** One initialiser, two drainers asleep on it, one signal. */
  function StrandingRun(d: Id, e: Id): seq<Step> {
    [Arrive(0), TryBegin(0, false), Shutdown(d), Shutdown(e), LeaveLoop(d), LeaveLoop(e),
     CheckInit(d), PollInit(d), CheckInit(e), PollInit(e), GiveUp(0), DropPermit(0), NotifyInit(0, d)]
  }

  const ONE_HOLDER: World := World(1, map[0 := Holding], map[], map[], map[], {}, false, false, map[])

  function BothDraining(d: Id, e: Id, x: Drain, y: Drain): World {
    ONE_HOLDER.(word := 1 + SHUTDOWN_BIT, drains := map[d := x, e := y])
  }

  lemma StrandingStarts(d: Id, e: Id)
    ensures Play(START, StrandingRun(d, e)[..2]) == ONE_HOLDER
  {
    hide Play;
    var r := StrandingRun(d, e);
    PlayNothing(START);
    assert r[..0] == [];
    Steps(START, r, 0);
    Steps(START, r, 1);
  }

  function Phase(w: World, d: Id, x: Drain): World {
    w.(drains := w.drains[d := x])
  }

  lemma LeaveSets(w: World, d: Id)
    requires d in w.drains && w.drains[d].Looping?
    ensures Next(w, LeaveLoop(d)) == Phase(w, d, WaitInit)
  { }

  lemma SleepSets(w: World, d: Id)
    requires d in w.drains && w.drains[d].WaitInit? && InitializerCount(w) != 0 && !w.initSignal
    ensures Next(Next(w, CheckInit(d)), PollInit(d)) == Phase(w, d, SleepInit)
  {
    assert Next(w, CheckInit(d)) == Phase(w, d, AwaitInit);
  }

  lemma ShutdownSets(w: World, d: Id)
    requires d !in w.drains
    ensures Next(w, Shutdown(d))
            == Phase(w, d, Looping).(word := if ShuttingDown(w) then w.word else w.word + SHUTDOWN_BIT)
  { }

  lemma StrandingShutsDown(d: Id, e: Id)
    requires d != e
    ensures Play(START, StrandingRun(d, e)[..6]) == BothDraining(d, e, WaitInit, WaitInit)
  {
    hide Play, Next;
    var r := StrandingRun(d, e);
    StrandingStarts(d, e);
    Steps(START, r, 2);
    ShutdownSets(ONE_HOLDER, d);
    Steps(START, r, 3);
    ShutdownSets(Play(START, r[..3]), e);
    assert Play(START, r[..4]) == BothDraining(d, e, Looping, Looping);
    Steps(START, r, 4);
    LeaveSets(BothDraining(d, e, Looping, Looping), d);
    Steps(START, r, 5);
    LeaveSets(Play(START, r[..5]), e);
  }

  lemma StrandingSleeps(d: Id, e: Id)
    requires d != e
    ensures Play(START, StrandingRun(d, e)[..10]) == BothDraining(d, e, SleepInit, SleepInit)
  {
    hide Play, Next;
    var r := StrandingRun(d, e);
    StrandingShutsDown(d, e);
    Steps(START, r, 6);
    Steps(START, r, 7);
    SleepSets(BothDraining(d, e, WaitInit, WaitInit), d);
    assert Play(START, r[..8]) == BothDraining(d, e, SleepInit, WaitInit);
    Steps(START, r, 8);
    Steps(START, r, 9);
    SleepSets(BothDraining(d, e, SleepInit, WaitInit), e);
  }

  /** The last permit goes back; its one signal wakes `d`. */
  lemma LastSignal(w: World, d: Id)
    requires w.inits == map[0 := Holding] && w.word == 1 + SHUTDOWN_BIT && AsleepInit(w, d)
    ensures Next(Next(Next(w, GiveUp(0)), DropPermit(0)), NotifyInit(0, d))
            == Phase(w, d, WaitInit).(word := SHUTDOWN_BIT, inits := map[0 := Gone])
  {
    hide Next, NextInit;
    GiveUpSets(w);
    var w1 := w.(inits := map[0 := Leaving]);
    DropSets(w1);
    NotifySets(w1.(word := SHUTDOWN_BIT, inits := map[0 := Dropped]), d);
  }

  lemma GiveUpSets(w: World)
    requires w.inits == map[0 := Holding]
    ensures Next(w, GiveUp(0)) == w.(inits := map[0 := Leaving])
  { }

  lemma DropSets(w: World)
    requires w.inits == map[0 := Leaving] && w.word == 1 + SHUTDOWN_BIT
    ensures Next(w, DropPermit(0)) == w.(word := SHUTDOWN_BIT, inits := map[0 := Dropped])
  { }

  lemma NotifySets(w: World, d: Id)
    requires w.inits == map[0 := Dropped] && AsleepInit(w, d)
    ensures Next(w, NotifyInit(0, d)) == Phase(w, d, WaitInit).(inits := map[0 := Gone])
  { }

  lemma StrandingSteps(d: Id, e: Id)
    requires d != e
    ensures var w := Play(START, StrandingRun(d, e));
            AsleepInit(w, e) && !InitPending(w) && ShuttingDown(w) && w.drains.Keys == {d, e}
  {
    hide Play, Next;
    var r := StrandingRun(d, e);
    StrandingSleeps(d, e);
    Steps(START, r, 10);
    Steps(START, r, 11);
    Steps(START, r, 12);
    LastSignal(BothDraining(d, e, SleepInit, SleepInit), d);
    assert r[..13] == r;
  }

  lemma Steps(w: World, r: seq<Step>, k: nat)
    requires k < |r|
    ensures Play(w, r[..k + 1]) == Next(Play(w, r[..k]), r[k])
  {
    assert r[..k + 1][..k] == r[..k];
  }

  lemma PlayNothing(w: World)
    ensures Play(w, []) == w
  { }

  /**
   The exact condition: whoever may drain, the wake-ups are safe in every run if and only if at
   most one of them does. With two, a run exists after which one of them never wakes again.
   */
  lemma WakeupsServeOneDrainer(drainers: set<Id>)
    ensures (forall d, e :: d in drainers && e in drainers ==> d == e) <==>
              forall steps, d :: d in drainers && DrainedBy(steps, drainers) ==> !Stranded(Play(START, steps), d)
  {
    if d, e :| d in drainers && e in drainers && d != e {
      StrandingSteps(d, e);
      assert DrainedBy(StrandingRun(d, e), drainers);
      assert Stranded(Play(START, StrandingRun(d, e)), e);
    } else {
      forall steps, d | d in drainers && DrainedBy(steps, drainers) ensures !Stranded(Play(START, steps), d) {
        NoLostWakeup(steps, d);
      }
    }
  }

  predicate DrainedBy(steps: seq<Step>, drainers: set<Id>) {
    forall i :: 0 <= i < |steps| ==> steps[i].Shutdown? ==> steps[i].d in drainers
  }

  /** And the stranded one sleeps through everything that can still happen. */
  lemma StrandedNeverWakes(d: Id, e: Id, later: seq<Step>)
    requires d != e
    ensures AsleepInit(Play(Play(START, StrandingRun(d, e)), later), e)
  {
    hide Inv, Play;
    StartIsOk();
    PlayKeeps(START, StrandingRun(d, e));
    StrandingSteps(d, e);
    StrandedForever(Play(START, StrandingRun(d, e)), later, e);
  }
}
