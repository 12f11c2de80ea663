/** What every interleaving of initialisers, workers, watchers and drainers keeps. */
module Handshake {
  import opened Supervisor

  // --- The invariant -----------------------------------------------------------------------------

  /** The calls that hold a permit. */
  function Holders(w: World): set<Id> {
    set i | i in w.inits && w.inits[i].Holds()
  }

  /** The word is the number of live permits plus the shutdown bit; neither can disturb the other. */
  ghost predicate WordOk(w: World) {
    && |Holders(w)| < SHUTDOWN_BIT
    && w.word == |Holders(w)| + (if w.drains == map[] then 0 else SHUTDOWN_BIT)
  }

  /** The entry belongs to a call that is still setting it up. */
  predicate Owned(w: World, key: Id) {
    && key in w.dispatches && w.dispatches[key].owner in w.inits && w.dispatches[key].runtime !in w.watchers
    && var e := w.dispatches[key];
       match w.inits[e.owner]
       case Reserved(k, t) => k == key && t == e.runtime && !e.registered && t !in w.workers
       case Spawned(k, t) => k == key && t == e.runtime && !e.registered && t in w.workers && w.workers[t].key == key
       case Registered(k, t, _) =>
         k == key && t == e.runtime && e.registered && t in w.workers && w.workers[t].key == key
       case _ => false
  }

  /** The entry has a worker and a watcher that will remove it. */
  predicate Attended(w: World, key: Id) {
    && key in w.dispatches && w.dispatches[key].registered
    && w.dispatches[key].runtime in w.watchers && w.watchers[w.dispatches[key].runtime] == Watching(key)
    && w.dispatches[key].runtime in w.workers && w.workers[w.dispatches[key].runtime].key == key
  }

  predicate EntryOk(w: World, key: Id) {
    key in w.dispatches && w.dispatches[key].runtime in w.used && (Owned(w, key) || Attended(w, key))
  }

  predicate InitOk(w: World, i: Id) {
    i in w.inits && match w.inits[i]
      case Reserved(k, t) => Mine(w, k, t) && w.dispatches[k].owner == i && Owned(w, k)
      case Spawned(k, t) => Mine(w, k, t) && w.dispatches[k].owner == i && Owned(w, k)
      case Registered(k, t, _) => Mine(w, k, t) && w.dispatches[k].owner == i && Owned(w, k)
      case Watched(k, t) => t in w.workers
      case _ => true
  }

  /** A worker that has not ended still has its own entry. */
  predicate WorkerOk(w: World, t: Id) {
    t in w.workers && t in w.used && (!w.workers[t].stage.Ended? ==> Mine(w, w.workers[t].key, t))
  }

  predicate Quiet(x: Drain) {
    x.SawNoInitializer? || x.Aborting? || x.WaitDispatch? || x.AwaitDispatch? || x.SleepDispatch? || x.Returned?
  }

  ghost predicate AllAborted(w: World) {
    forall k :: k in w.dispatches ==> w.dispatches[k].runtime in w.workers && w.workers[w.dispatches[k].runtime].abort
  }

  ghost predicate DrainOk(w: World, x: Drain) {
    && (Quiet(x) ==> Holders(w) == {})
    && (x.WaitDispatch? || x.AwaitDispatch? || x.SleepDispatch? ==> AllAborted(w))
    && (x.Returned? ==> w.dispatches == map[])
  }

  ghost predicate RuntimesDistinct(ds: map<Id, Runtime>) {
    forall k, l :: k in ds && l in ds && k != l ==> ds[k].runtime != ds[l].runtime
  }

  ghost predicate RowsOk(w: World) {
    && (forall k :: k in w.dispatches ==> EntryOk(w, k))
    && (forall i :: i in w.inits ==> InitOk(w, i))
    && (forall t :: t in w.workers ==> WorkerOk(w, t))
    && (forall t :: t in w.watchers ==> t in w.workers)
    && RuntimesDistinct(w.dispatches)
  }

  ghost predicate DrainsOk(w: World) {
    forall d :: d in w.drains ==> DrainOk(w, w.drains[d])
  }

  ghost predicate Inv(w: World) {
    WordOk(w) && RowsOk(w) && DrainsOk(w)
  }

  // --- Counting ----------------------------------------------------------------------------------

  lemma HoldersPut(w: World, w': World, i: Id, x: Init)
    requires w'.inits == w.inits[i := x]
    ensures Holders(w') == if x.Holds() then Holders(w) + {i} else Holders(w) - {i}
  { }

  /** A step that neither takes nor returns a permit leaves the count alone. */
  lemma SameHolders(w: World, w': World, i: Id, x: Init)
    requires i in w.inits && w'.inits == w.inits[i := x] && x.Holds() == w.inits[i].Holds()
    ensures Holders(w') == Holders(w)
  {
    HoldersPut(w, w', i, x);
  }

  lemma WordSame(w: World, w': World)
    requires WordOk(w) && Holders(w') == Holders(w) && w'.word == w.word && (w'.drains == map[] <==> w.drains == map[])
    ensures WordOk(w')
  { }

  lemma DrainsSame(w: World, w': World)
    requires DrainsOk(w) && w'.drains == w.drains && Holders(w') == Holders(w) && w'.dispatches == w.dispatches
    requires forall t :: t in w.workers ==> t in w'.workers && (w.workers[t].abort ==> w'.workers[t].abort)
    ensures DrainsOk(w')
  { }

  // --- Initialisers ------------------------------------------------------------------------------

  /** While a permit is held, no drainer has got past the initialisers. */
  lemma HeldMeansLoud(w: World, w': World, i: Id)
    requires i in w.inits && w.inits[i].Holds() && DrainsOk(w) && w'.drains == w.drains
    ensures DrainsOk(w')
  {
    assert i in Holders(w);
  }

  /** A call outside the setup of an entry may change its own phase freely. */
  lemma InitMoves(w: World, w': World, i: Id)
    requires RowsOk(w) && i in w.inits && !w.inits[i].Reserved? && !w.inits[i].Spawned? && !w.inits[i].Registered?
    requires w' == w.(inits := w'.inits, word := w'.word) && i in w'.inits && w'.inits == w.inits[i := w'.inits[i]]
    requires !w'.inits[i].Reserved? && !w'.inits[i].Spawned? && !w'.inits[i].Registered? && !w'.inits[i].Watched?
    ensures RowsOk(w')
  {
    forall k | k in w'.dispatches ensures EntryOk(w', k) { assert EntryOk(w, k); }
    forall j | j in w'.inits ensures InitOk(w', j) { if j != i { assert InitOk(w, j); } }
    forall t | t in w'.workers ensures WorkerOk(w', t) { assert WorkerOk(w, t); }
  }

  /** A permit is granted only before shutdown, and then counted. */
  lemma GrantKeeps(w: World, w': World, i: Id)
    requires WordOk(w) && DrainsOk(w) && i in w.inits && w.inits[i].Loaded? && w.word < SHUTDOWN_BIT - 1
    requires w' == w.(word := w.word + 1, inits := w.inits[i := Holding])
    ensures WordOk(w') && DrainsOk(w')
  {
    hide DrainOk;
    HoldersPut(w, w', i, Holding);
    assert i !in Holders(w);
    assert w.drains == map[];
  }

  lemma BeginCases(w: World, i: Id, spurious: bool)
    requires i in w.inits && w.inits[i].Loaded?
    ensures var w' := NextInit(w, i, TryBegin(i, spurious));
            || w' == w.(inits := w.inits[i := Refused]) || w' == w.(inits := w.inits[i := Loaded(w.word)])
            || (w.word < SHUTDOWN_BIT - 1 && w' == w.(word := w.word + 1, inits := w.inits[i := Holding]))
  { }

  lemma BeginKeeps(w: World, i: Id, spurious: bool)
    requires Inv(w) && i in w.inits && w.inits[i].Loaded?
    ensures Inv(NextInit(w, i, TryBegin(i, spurious)))
  {
    hide RowsOk, DrainsOk, WordOk, Holders, NextInit;
    var x, w' := w.inits[i], NextInit(w, i, TryBegin(i, spurious));
    BeginCases(w, i, spurious);
    InitMoves(w, w', i);
    if w'.inits[i].Holding? {
      GrantKeeps(w, w', i);
    } else {
      SameHolders(w, w', i, w'.inits[i]);
      WordSame(w, w');
      DrainsSame(w, w');
    }
  }

  lemma LeaveKeeps(w: World, i: Id)
    requires Inv(w) && i in w.inits && (w.inits[i].Holding? || w.inits[i].Watched?)
    ensures Inv(w.(inits := w.inits[i := Leaving]))
  {
    hide RowsOk, DrainsOk, WordOk, Holders;
    var w' := w.(inits := w.inits[i := Leaving]);
    InitMoves(w, w', i);
    SameHolders(w, w', i, Leaving);
    WordSame(w, w');
    DrainsSame(w, w');
  }

  /** Giving a permit back lowers the count by exactly one: there is always one to lower. */
  lemma DropKeeps(w: World, i: Id)
    requires Inv(w) && i in w.inits && w.inits[i].Leaving?
    ensures Inv(NextInit(w, i, DropPermit(i))) && NextInit(w, i, DropPermit(i)).word == w.word - 1
  {
    hide RowsOk, DrainsOk;
    var w' := NextInit(w, i, DropPermit(i));
    HoldersPut(w, w', i, Dropped);
    assert i in Holders(w);
    assert Holders(w) == Holders(w') + {i};
    InitMoves(w, w', i);
    HeldMeansLoud(w, w', i);
  }

  /** Steps of a call that keeps its permit: only the rows have to be looked at. */
  lemma HeldStep(w: World, w': World, i: Id)
    requires Inv(w) && i in w.inits && w.inits[i].Holds() && i in w'.inits && w'.inits[i].Holds()
    requires w'.inits == w.inits[i := w'.inits[i]] && w'.word == w.word && w'.drains == w.drains && RowsOk(w')
    ensures Inv(w')
  {
    hide RowsOk, DrainsOk, Holders, WordOk;
    SameHolders(w, w', i, w'.inits[i]);
    WordSame(w, w');
    HeldMeansLoud(w, w', i);
  }

  lemma ReserveKeeps(w: World, i: Id, key: Id, runtime: Id)
    requires Inv(w) && i in w.inits && w.inits[i].Holding? && runtime !in w.used && key !in w.dispatches
    ensures Inv(NextInit(w, i, Reserve(i, key, runtime)))
  {
    hide DrainsOk, WordOk, Holders;
    var w' := NextInit(w, i, Reserve(i, key, runtime));
    forall k | k in w'.dispatches ensures EntryOk(w', k) {
      if k != key { assert EntryOk(w, k); }
      else { assert runtime !in w.workers && runtime !in w.watchers; }
    }
    forall j | j in w'.inits ensures InitOk(w', j) { assert InitOk(w, j); }
    forall t | t in w'.workers ensures WorkerOk(w', t) { assert WorkerOk(w, t); }
    HeldStep(w, w', i);
  }

  lemma SpawnKeeps(w: World, i: Id)
    requires Inv(w) && i in w.inits && w.inits[i].Reserved?
    ensures Inv(NextInit(w, i, Spawn(i)))
  {
    hide DrainsOk, WordOk, Holders;
    var x, w' := w.inits[i], NextInit(w, i, Spawn(i));
    assert InitOk(w, i) && EntryOk(w, x.key);
    forall k | k in w'.dispatches ensures EntryOk(w', k) { assert EntryOk(w, k); }
    forall j | j in w'.inits ensures InitOk(w', j) { assert InitOk(w, j); }
    forall t | t in w'.workers ensures WorkerOk(w', t) { if t != x.runtime { assert WorkerOk(w, t); } }
    HeldStep(w, w', i);
  }

  lemma SpawnedIsMine(w: World, i: Id)
    requires Inv(w) && i in w.inits && w.inits[i].Spawned?
    ensures Mine(w, w.inits[i].key, w.inits[i].runtime)
  {
    assert InitOk(w, i);
  }

  lemma RegisterKeeps(w: World, i: Id)
    requires Inv(w) && i in w.inits && w.inits[i].Spawned?
    ensures Inv(NextInit(w, i, Register(i)))
  {
    hide DrainsOk, WordOk, Holders;
    var x, w' := w.inits[i], NextInit(w, i, Register(i));
    SpawnedIsMine(w, i);
    assert InitOk(w, i) && EntryOk(w, x.key);
    forall k | k in w'.dispatches ensures EntryOk(w', k) { assert EntryOk(w, k); }
    forall j | j in w'.inits ensures InitOk(w', j) { assert InitOk(w, j); }
    forall t | t in w'.workers ensures WorkerOk(w', t) { assert WorkerOk(w, t); }
    HeldStep(w, w', i);
  }

  lemma WatchKeeps(w: World, i: Id)
    requires Inv(w) && i in w.inits && w.inits[i].Registered?
    ensures Inv(NextInit(w, i, StartWatch(i)))
  {
    hide DrainsOk, WordOk, Holders;
    var x, w' := w.inits[i], NextInit(w, i, StartWatch(i));
    assert InitOk(w, i) && EntryOk(w, x.key);
    forall k | k in w'.dispatches ensures EntryOk(w', k) { assert EntryOk(w, k); }
    forall j | j in w'.inits ensures InitOk(w', j) { assert InitOk(w, j); }
    forall t | t in w'.workers ensures WorkerOk(w', t) { assert WorkerOk(w, t); }
    HeldStep(w, w', i);
  }

  lemma SendKeeps(w: World, i: Id)
    requires Inv(w) && i in w.inits && w.inits[i].Watched?
    ensures Inv(NextInit(w, i, SendStart(i)))
  {
    hide DrainsOk, WordOk, Holders;
    var x, w' := w.inits[i], NextInit(w, i, SendStart(i));
    assert InitOk(w, i);
    forall k | k in w'.dispatches ensures EntryOk(w', k) { assert EntryOk(w, k); }
    forall j | j in w'.inits ensures InitOk(w', j) { assert InitOk(w, j); }
    forall t | t in w'.workers ensures WorkerOk(w', t) { assert WorkerOk(w, t); }
    HeldStep(w, w', i);
  }

  // --- Workers and watchers ----------------------------------------------------------------------

  /** Steps that leave the calls and the word alone. */
  lemma QuietStep(w: World, w': World)
    requires Inv(w) && w'.inits == w.inits && w'.word == w.word && w'.drains == w.drains && RowsOk(w')
    requires forall k :: k in w'.dispatches ==> k in w.dispatches && w'.dispatches[k] == w.dispatches[k]
    requires forall t :: t in w.workers ==> t in w'.workers && (w.workers[t].abort ==> w'.workers[t].abort)
    ensures Inv(w')
  {
    hide RowsOk;
    assert Holders(w') == Holders(w);
    forall d | d in w'.drains ensures DrainOk(w', w'.drains[d]) {
      assert DrainOk(w, w.drains[d]);
      if w.drains[d].Returned? { assert w'.dispatches == map[]; }
    }
  }

  lemma WorkerKeeps(w: World, t: Id, x: Worker)
    requires Inv(w) && t in w.workers && x.key == w.workers[t].key && (w.workers[t].abort ==> x.abort)
    requires w.workers[t].stage.Ended? ==> x.stage.Ended?
    ensures Inv(w.(workers := w.workers[t := x]))
  {
    hide DrainsOk, WordOk, Holders;
    var w' := w.(workers := w.workers[t := x]);
    forall k | k in w'.dispatches ensures EntryOk(w', k) { assert EntryOk(w, k); }
    forall j | j in w'.inits ensures InitOk(w', j) { assert InitOk(w, j); }
    forall u | u in w'.workers ensures WorkerOk(w', u) { assert WorkerOk(w, u); }
    QuietStep(w, w');
  }

  lemma RemoveKeeps(w: World, t: Id)
    requires Inv(w) && t in w.workers && w.workers[t].stage.Ended? && t in w.watchers && w.watchers[t].Watching?
             && Mine(w, w.watchers[t].key, t)
    ensures Inv(NextWorker(w, t, WatchRemove(t)))
  {
    hide DrainsOk, WordOk, Holders;
    var key, w' := w.watchers[t].key, NextWorker(w, t, WatchRemove(t));
    forall k | k in w'.dispatches ensures EntryOk(w', k) { assert EntryOk(w, k); }
    forall j | j in w'.inits ensures InitOk(w', j) { assert InitOk(w, j) && EntryOk(w, key); }
    forall u | u in w'.workers ensures WorkerOk(w', u) { assert WorkerOk(w, u); }
    QuietStep(w, w');
  }

  lemma WatcherKeeps(w: World, t: Id)
    requires Inv(w) && t in w.watchers && (w.watchers[t].Watching? ==> !Mine(w, w.watchers[t].key, t))
    ensures Inv(w.(watchers := w.watchers[t := Finished]))
  {
    hide DrainsOk, WordOk, Holders;
    var w' := w.(watchers := w.watchers[t := Finished]);
    forall k | k in w'.dispatches ensures EntryOk(w', k) { assert EntryOk(w, k); }
    forall j | j in w'.inits ensures InitOk(w', j) { assert InitOk(w, j); }
    forall u | u in w'.workers ensures WorkerOk(w', u) { assert WorkerOk(w, u); }
    QuietStep(w, w');
  }

  // --- Drainers ----------------------------------------------------------------------------------

  lemma RowsElsewhere(w: World, w': World)
    requires RowsOk(w) && w'.inits == w.inits && w'.dispatches == w.dispatches && w'.workers == w.workers
             && w'.watchers == w.watchers && w'.used == w.used
    ensures RowsOk(w')
  {
    forall k | k in w'.dispatches ensures EntryOk(w', k) { assert EntryOk(w, k); }
    forall j | j in w'.inits ensures InitOk(w', j) { assert InitOk(w, j); }
    forall t | t in w'.workers ensures WorkerOk(w', t) { assert WorkerOk(w, t); }
  }

  /** A drainer may move to any phase whose condition holds. */
  lemma DrainMoves(w: World, w': World, d: Id, x: Drain)
    requires Inv(w) && d in w.drains && DrainOk(w, x)
    requires w' == w.(drains := w.drains[d := x], initSignal := w'.initSignal, dispatchSignal := w'.dispatchSignal)
    ensures Inv(w')
  {
    RowsElsewhere(w, w');
    hide RowsOk;
    assert Holders(w') == Holders(w);
    assert d in w'.drains;
    forall e | e in w'.drains ensures DrainOk(w', w'.drains[e]) {
      if e != d { assert DrainOk(w, w.drains[e]); }
    }
  }

  lemma ShutdownKeeps(w: World, d: Id)
    requires Inv(w) && d !in w.drains
    ensures Inv(Next(w, Shutdown(d)))
  {
    var w' := Next(w, Shutdown(d));
    RowsElsewhere(w, w');
    hide RowsOk;
    assert Holders(w') == Holders(w);
    assert d in w'.drains;
    forall e | e in w'.drains ensures DrainOk(w', w'.drains[e]) {
      if e != d { assert DrainOk(w, w.drains[e]); }
    }
  }

  /** A count of zero means that no permit is out. */
  lemma ZeroMeansNone(w: World)
    requires WordOk(w) && InitializerCount(w) == 0
    ensures Holders(w) == {}
  { }

  /** With no permit out, every entry has its handle, its worker and its watcher. */
  lemma NoneMeansAttended(w: World, k: Id)
    requires RowsOk(w) && Holders(w) == {} && k in w.dispatches
    ensures Attended(w, k)
  {
    assert EntryOk(w, k);
    assert w.dispatches[k].owner !in Holders(w);
  }

  lemma AbortReaches(w: World)
    requires RowsOk(w) && Holders(w) == {}
    ensures AbortLive(w).dispatches == w.dispatches && AllAborted(AbortLive(w))
    ensures AbortLive(w).workers.Keys == w.workers.Keys
    ensures forall t :: t in w.workers ==>
              AbortLive(w).workers[t] == w.workers[t].(abort := AbortLive(w).workers[t].abort)
                                           && (w.workers[t].abort ==> AbortLive(w).workers[t].abort)
  {
    hide RowsOk;
    forall k | k in w.dispatches ensures Attended(w, k) { NoneMeansAttended(w, k); }
  }

  lemma AbortKeeps(w: World, d: Id)
    requires Inv(w) && d in w.drains && w.drains[d].Aborting?
    ensures Inv(NextDrain(w, d, AbortAll(d)))
  {
    assert Holders(w) == {} by { assert DrainOk(w, w.drains[d]); }
    AbortReaches(w);
    var mid := AbortLive(w);
    AbortRows(w, mid);
    hide RowsOk, AbortLive;
    QuietStep(w, mid);
    assert Holders(mid) == Holders(w);
    DrainMoves(mid, NextDrain(w, d, AbortAll(d)), d, WaitDispatch);
  }

  lemma AbortRows(w: World, w': World)
    requires RowsOk(w) && w' == w.(workers := w'.workers) && w'.workers.Keys == w.workers.Keys
    requires forall t :: t in w.workers ==> w'.workers[t] == w.workers[t].(abort := w'.workers[t].abort)
    ensures RowsOk(w')
  {
    forall k | k in w'.dispatches ensures EntryOk(w', k) { assert EntryOk(w, k); }
    forall j | j in w'.inits ensures InitOk(w', j) { assert InitOk(w, j); }
    forall t | t in w'.workers ensures WorkerOk(w', t) { assert WorkerOk(w, t); }
  }

  lemma SignalInitKeeps(w: World, who: Id)
    requires Inv(w)
    ensures Inv(SignalInit(w, who))
  {
    hide RowsOk, WordOk;
    if AsleepInit(w, who) {
      DrainMoves(w, SignalInit(w, who), who, WaitInit);
    } else {
      SignalKeeps(w, SignalInit(w, who));
    }
  }

  lemma SignalDispatchKeeps(w: World, who: Id)
    requires Inv(w)
    ensures Inv(SignalDispatch(w, who))
  {
    hide RowsOk, WordOk;
    if AsleepDispatch(w, who) {
      assert DrainOk(w, w.drains[who]);
      DrainMoves(w, SignalDispatch(w, who), who, WaitDispatch);
    } else { SignalKeeps(w, SignalDispatch(w, who)); }
  }

  lemma SignalKeeps(w: World, w': World)
    requires Inv(w) && w' == w.(initSignal := w'.initSignal, dispatchSignal := w'.dispatchSignal)
    ensures Inv(w')
  {
    RowsElsewhere(w, w');
    assert Holders(w') == Holders(w);
    forall d | d in w'.drains ensures DrainOk(w', w'.drains[d]) { assert DrainOk(w, w.drains[d]); }
  }

  lemma DrainStepKeeps(w: World, d: Id, step: Step)
    requires Inv(w) && d in w.drains
             && (step.LoopReadInit? || step.LoopReadDispatch? || step.LeaveLoop? || step.CheckInit? || step.PollInit?
                                         || step.CheckDispatch? || step.PollDispatch?)
    ensures Inv(NextDrain(w, d, step))
  {
    hide RowsOk, AllAborted;
    var w' := NextDrain(w, d, step);
    assert DrainOk(w, w.drains[d]);
    if InitializerCount(w) == 0 { ZeroMeansNone(w); }
    hide WordOk, Holders, InitializerCount;
    if w' != w { DrainMoves(w, w', d, w'.drains[d]); }
  }

  // --- Every step --------------------------------------------------------------------------------

  lemma ArriveRows(w: World, i: Id, x: Init)
    requires RowsOk(w) && i !in w.inits && x.Loaded?
    ensures RowsOk(w.(inits := w.inits[i := x]))
  {
    var w' := w.(inits := w.inits[i := x]);
    forall k | k in w'.dispatches ensures EntryOk(w', k) { assert EntryOk(w, k); }
    forall j | j in w'.inits ensures InitOk(w', j) { if j != i { assert InitOk(w, j); } }
    forall t | t in w'.workers ensures WorkerOk(w', t) { assert WorkerOk(w, t); }
  }

  lemma ArriveHolders(w: World, i: Id, x: Init)
    requires i !in w.inits && x.Loaded?
    ensures Holders(w.(inits := w.inits[i := x])) == Holders(w)
  {
    HoldersPut(w, w.(inits := w.inits[i := x]), i, x);
  }

  lemma ArriveKeeps(w: World, i: Id)
    requires Inv(w) && i !in w.inits
    ensures Inv(Next(w, Arrive(i)))
  {
    hide RowsOk, Holders, WordOk, DrainsOk;
    var w' := Next(w, Arrive(i));
    ArriveRows(w, i, Loaded(w.word));
    ArriveHolders(w, i, Loaded(w.word));
    WordSame(w, w');
    DrainsSame(w, w');
  }

  lemma NotifyInitKeeps(w: World, i: Id, who: Id)
    requires Inv(w) && i in w.inits && w.inits[i].Dropped?
    ensures Inv(SignalInit(w.(inits := w.inits[i := Gone]), who))
  {
    hide RowsOk, DrainsOk, WordOk, Holders, SignalInit;
    var w' := w.(inits := w.inits[i := Gone]);
    InitMoves(w, w', i);
    SameHolders(w, w', i, Gone);
    WordSame(w, w');
    DrainsSame(w, w');
    SignalInitKeeps(w', who);
  }

  lemma InitStepKeeps(w: World, i: Id, step: Step)
    requires Inv(w) && i in w.inits
    ensures Inv(NextInit(w, i, step))
  {
    hide Inv, RegisterHandle, SignalInit, Begin;
    var x := w.inits[i];
    match step
    case TryBegin(_, spurious) => if x.Loaded? { BeginKeeps(w, i, spurious); BeginAny(w, i, step); }
    case GiveUp(_) => if x.Holding? { LeaveKeeps(w, i); }
    case Reserve(_, key, runtime) =>
      if x.Holding? && runtime !in w.used {
        if key in w.dispatches { LeaveKeeps(w, i); } else { ReserveKeeps(w, i, key, runtime); }
      }
    case Spawn(_) => if x.Reserved? { SpawnKeeps(w, i); }
    case Register(_) => if x.Spawned? { RegisterKeeps(w, i); }
    case StartWatch(_) => if x.Registered? { WatchKeeps(w, i); }
    case SendStart(_) => if x.Watched? { SendKeeps(w, i); }
    case DropPermit(_) => if x.Leaving? { DropKeeps(w, i); }
    case NotifyInit(_, who) => if x.Dropped? { NotifyInitKeeps(w, i, who); }
    case _ =>
  }

  lemma BeginAny(w: World, i: Id, step: Step)
    requires i in w.inits && step.TryBegin?
    ensures NextInit(w, i, step) == NextInit(w, i, TryBegin(i, step.spurious))
  { }

  lemma WorkerStepKeeps(w: World, t: Id, step: Step)
    requires Inv(w) && t in w.workers
    ensures Inv(NextWorker(w, t, step))
  {
    hide Inv, SignalDispatch;
    var x := w.workers[t];
    match step
    case WorkerRun(_) => if x.stage.Waiting? && x.started { WorkerKeeps(w, t, x.(stage := Running)); }
    case WorkerEnd(_) => WorkerKeeps(w, t, x.(stage := Ended));
    case WatchRemove(_) =>
      if t in w.watchers && w.watchers[t].Watching? && x.stage.Ended? {
        if Mine(w, w.watchers[t].key, t) { RemoveKeeps(w, t); } else { WatcherKeeps(w, t); }
      }
    case WatchNotify(_, who) =>
      if t in w.watchers && w.watchers[t].Removed? {
        WatcherKeeps(w, t);
        SignalDispatchKeeps(w.(watchers := w.watchers[t := Finished]), who);
      }
    case _ =>
  }

  lemma NextKeeps(w: World, step: Step)
    requires Inv(w)
    ensures Inv(Next(w, step))
  {
    hide Inv, NextInit, NextWorker, NextDrain;
    match step
    case Arrive(i) => if i !in w.inits { ArriveKeeps(w, i); }
    case Shutdown(d) => if d !in w.drains { ShutdownKeeps(w, d); }
    case TryBegin(i, _) => if i in w.inits { InitStepKeeps(w, i, step); }
    case GiveUp(i) => if i in w.inits { InitStepKeeps(w, i, step); }
    case Reserve(i, _, _) => if i in w.inits { InitStepKeeps(w, i, step); }
    case Spawn(i) => if i in w.inits { InitStepKeeps(w, i, step); }
    case Register(i) => if i in w.inits { InitStepKeeps(w, i, step); }
    case StartWatch(i) => if i in w.inits { InitStepKeeps(w, i, step); }
    case SendStart(i) => if i in w.inits { InitStepKeeps(w, i, step); }
    case DropPermit(i) => if i in w.inits { InitStepKeeps(w, i, step); }
    case NotifyInit(i, _) => if i in w.inits { InitStepKeeps(w, i, step); }
    case WorkerRun(t) => if t in w.workers { WorkerStepKeeps(w, t, step); }
    case WorkerEnd(t) => if t in w.workers { WorkerStepKeeps(w, t, step); }
    case WatchRemove(t) => if t in w.workers { WorkerStepKeeps(w, t, step); }
    case WatchNotify(t, _) => if t in w.workers { WorkerStepKeeps(w, t, step); }
    case AbortAll(d) => if d in w.drains { AbortStepKeeps(w, d); }
    case LoopReadInit(d) => if d in w.drains { DrainStepKeeps(w, d, step); }
    case LoopReadDispatch(d) => if d in w.drains { DrainStepKeeps(w, d, step); }
    case LeaveLoop(d) => if d in w.drains { DrainStepKeeps(w, d, step); }
    case CheckInit(d) => if d in w.drains { DrainStepKeeps(w, d, step); }
    case PollInit(d) => if d in w.drains { DrainStepKeeps(w, d, step); }
    case CheckDispatch(d) => if d in w.drains { DrainStepKeeps(w, d, step); }
    case PollDispatch(d) => if d in w.drains { DrainStepKeeps(w, d, step); }
  }

  lemma AbortStepKeeps(w: World, d: Id)
    requires Inv(w) && d in w.drains
    ensures Inv(NextDrain(w, d, AbortAll(d)))
  {
    if w.drains[d].Aborting? { AbortKeeps(w, d); }
  }

  lemma {:induction false} PlayKeeps(w: World, steps: seq<Step>)
    requires Inv(w)
    ensures Inv(Play(w, steps))
  {
    hide Inv, Next;
    if steps == [] {
    } else {
      PlayKeeps(w, steps[..|steps| - 1]);
      NextKeeps(Play(w, steps[..|steps| - 1]), steps[|steps| - 1]);
    }
  }

  lemma StartIsOk()
    ensures Inv(START)
  {
    assert Holders(START) == {};
  }

  /**
   In every interleaving a call that has spawned its worker still owns its reservation, so the
   branch that finds it replaced and aborts the worker is never taken.
   */
  lemma ReservationPersists(steps: seq<Step>, i: Id)
    requires i in Play(START, steps).inits && Play(START, steps).inits[i].Spawned?
    ensures var w := Play(START, steps);
            && Mine(w, w.inits[i].key, w.inits[i].runtime)
            && i in Next(w, Register(i)).inits && Next(w, Register(i)).inits[i].Registered?
            && Next(w, Register(i)).workers == w.workers
  {
    hide Play, Inv;
    StartIsOk();
    PlayKeeps(START, steps);
    SpawnedIsMine(Play(START, steps), i);
  }
}
