/**
 The REST task supervisor: how initialisation, dispatch workers and shutdown share one state
 word, one table of live dispatches and two wake-up signals.

 Every atomic action of every thread is one step, so any interleaving is a run. Identifiers of
 threads, keys and runtimes are naturals.
 */
module Supervisor {

  type Id = nat

  /** The top bit of a 64-bit word. */
  const SHUTDOWN_BIT: nat := 0x8000_0000_0000_0000

  /** One call of `submit`, from reading the word to giving its permit back. */
  datatype Init =
    | Loaded(current: nat)
    | Refused
    | Holding
    | Reserved(key: Id, runtime: Id)
    | Spawned(key: Id, runtime: Id)
    | Registered(key: Id, runtime: Id, abortNow: bool)
    | Watched(key: Id, runtime: Id)
    | Leaving
    | Dropped      // the count is lowered, the wake-up is still to come
    | Gone
  {
    predicate Holds() {
      Holding? || Reserved? || Spawned? || Registered? || Watched? || Leaving?
    }
  }

  /** An entry of `live_dispatches`; `owner` is the call that inserted it. */
  datatype Runtime = Runtime(runtime: Id, owner: Id, registered: bool, abortRequested: bool)

  datatype Stage = Waiting | Running | Ended

  datatype Worker = Worker(key: Id, stage: Stage, started: bool, abort: bool)

  /** The task that awaits a worker and removes its entry. */
  datatype Watch = Watching(key: Id) | Removed | Finished

  /** One call of `shutdown_and_drain`. */
  datatype Drain =
    | Looping | SawNoInitializer
    | WaitInit | AwaitInit | SleepInit
    | Aborting
    | WaitDispatch | AwaitDispatch | SleepDispatch
    | Returned

  datatype World = World(
    word: nat,
    inits: map<Id, Init>,
    dispatches: map<Id, Runtime>,
    workers: map<Id, Worker>,
    watchers: map<Id, Watch>,
    used: set<Id>,              // runtime identifiers handed out so far
    initSignal: bool,           // a stored `initialization_finished` permit
    dispatchSignal: bool,       // a stored `dispatch_finished` permit
    drains: map<Id, Drain>)

  const START: World := World(0, map[], map[], map[], map[], {}, false, false, map[])

  datatype Step =
    | Arrive(i: Id)
    | TryBegin(i: Id, spurious: bool)
    | GiveUp(i: Id)
    | Reserve(i: Id, key: Id, runtime: Id)
    | Spawn(i: Id)
    | Register(i: Id)
    | StartWatch(i: Id)
    | SendStart(i: Id)
    | DropPermit(i: Id)
    | NotifyInit(i: Id, who: Id)
    | WorkerRun(runtime: Id)
    | WorkerEnd(runtime: Id)
    | WatchRemove(runtime: Id)
    | WatchNotify(runtime: Id, who: Id)
    | Shutdown(d: Id)
    | LoopReadInit(d: Id)
    | LoopReadDispatch(d: Id)
    | LeaveLoop(d: Id)
    | CheckInit(d: Id)
    | PollInit(d: Id)
    | AbortAll(d: Id)
    | CheckDispatch(d: Id)
    | PollDispatch(d: Id)

  predicate ShuttingDown(w: World) {
    SHUTDOWN_BIT <= w.word
  }

  /** The word without its top bit. */
  function InitializerCount(w: World): nat {
    if ShuttingDown(w) then w.word - SHUTDOWN_BIT else w.word
  }

  /** One turn of the compare-and-swap loop. */
  function Begin(w: World, i: Id, current: nat, spurious: bool): World {
    if SHUTDOWN_BIT <= current || current == SHUTDOWN_BIT - 1 then w.(inits := w.inits[i := Refused])
    else if spurious || w.word != current then w.(inits := w.inits[i := Loaded(w.word)])
    else w.(word := current + 1, inits := w.inits[i := Holding])
  }

  predicate Mine(w: World, key: Id, runtime: Id) {
    key in w.dispatches && w.dispatches[key].runtime == runtime
  }

  function Aborted(workers: map<Id, Worker>, runtime: Id): map<Id, Worker> {
    if runtime in workers then workers[runtime := workers[runtime].(abort := true)] else workers
  }

  /** Record the worker's handle; if the reservation is not ours any more, abort the worker and leave. */
  function RegisterHandle(w: World, i: Id, key: Id, runtime: Id): World {
    if Mine(w, key, runtime) then
      w.(dispatches := w.dispatches[key := w.dispatches[key].(registered := true)],
         inits := w.inits[i := Registered(key, runtime, w.dispatches[key].abortRequested)])
    else w.(workers := Aborted(w.workers, runtime), inits := w.inits[i := Leaving])
  }

  predicate AsleepInit(w: World, d: Id) {
    d in w.drains && w.drains[d].SleepInit?
  }

  predicate AsleepDispatch(w: World, d: Id) {
    d in w.drains && w.drains[d].SleepDispatch?
  }

  /** `notify_one`: wake one sleeper, or store one permit when nobody sleeps. */
  function SignalInit(w: World, who: Id): World {
    if AsleepInit(w, who) then w.(drains := w.drains[who := WaitInit]) else w.(initSignal := true)
  }

  function SignalDispatch(w: World, who: Id): World {
    if AsleepDispatch(w, who) then w.(drains := w.drains[who := WaitDispatch]) else w.(dispatchSignal := true)
  }

  /** The signal must choose a sleeper if there is one. */
  predicate MayWakeInit(w: World, who: Id) {
    AsleepInit(w, who) || forall d :: d in w.drains ==> !w.drains[d].SleepInit?
  }

  predicate MayWakeDispatch(w: World, who: Id) {
    AsleepDispatch(w, who) || forall d :: d in w.drains ==> !w.drains[d].SleepDispatch?
  }

  /** Abort every registered worker and mark every unregistered entry. */
  function AbortLive(w: World): World {
    w.(dispatches := map k | k in w.dispatches :: if w.dispatches[k].registered then w.dispatches[k]
       else w.dispatches[k].(abortRequested := true),
       workers := map t | t in w.workers ::
                    if exists k :: k in w.dispatches && w.dispatches[k].registered && w.dispatches[k].runtime == t
                    then w.workers[t].(abort := true) else w.workers[t])
  }

  function NextInit(w: World, i: Id, step: Step): World
    requires i in w.inits
  {
    var x := w.inits[i];
    match step
    case TryBegin(_, spurious) => if x.Loaded? then Begin(w, i, x.current, spurious) else w
    case GiveUp(_) => if x.Holding? then w.(inits := w.inits[i := Leaving]) else w
    case Reserve(_, key, runtime) =>
      if !x.Holding? || runtime in w.used then w
      else if key in w.dispatches then w.(inits := w.inits[i := Leaving])
      else
        w.(dispatches := w.dispatches[key := Runtime(runtime, i, false, false)], used := w.used + {runtime},
           inits := w.inits[i := Reserved(key, runtime)])
    case Spawn(_) =>
      if !x.Reserved? then w
      else w.(workers := w.workers[x.runtime := Worker(x.key, Waiting, false, false)],
              inits := w.inits[i := Spawned(x.key, x.runtime)])
    case Register(_) => if x.Spawned? then RegisterHandle(w, i, x.key, x.runtime) else w
    case StartWatch(_) =>
      if !x.Registered? then w
      else
        w.(workers := if x.abortNow then Aborted(w.workers, x.runtime) else w.workers,
           watchers := w.watchers[x.runtime := Watching(x.key)], inits := w.inits[i := Watched(x.key, x.runtime)])
    case SendStart(_) =>
      if !x.Watched? then w
      else
        w.(workers := if x.runtime in w.workers then w.workers[x.runtime := w.workers[x.runtime].(started := true)]
           else w.workers,
           inits := w.inits[i := Leaving])
    case DropPermit(_) =>
      if !x.Leaving? then w
      else w.(word := if w.word == 0 then 2 * SHUTDOWN_BIT - 1 else w.word - 1, inits := w.inits[i := Dropped])
    case NotifyInit(_, who) =>
      if !x.Dropped? || !MayWakeInit(w, who) then w else SignalInit(w.(inits := w.inits[i := Gone]), who)
    case _ => w
  }

  function NextWorker(w: World, t: Id, step: Step): World
    requires t in w.workers
  {
    var x := w.workers[t];
    match step
    case WorkerRun(_) => if x.stage.Waiting? && x.started then w.(workers := w.workers[t := x.(stage := Running)])
         else w
    case WorkerEnd(_) => w.(workers := w.workers[t := x.(stage := Ended)])
    case WatchRemove(_) =>
      if t !in w.watchers || !w.watchers[t].Watching? || !x.stage.Ended? then w
      else if Mine(w, w.watchers[t].key, t) then
        w.(dispatches := w.dispatches - {w.watchers[t].key}, watchers := w.watchers[t := Removed])
      else w.(watchers := w.watchers[t := Finished])
    case WatchNotify(_, who) =>
      if t !in w.watchers || !w.watchers[t].Removed? || !MayWakeDispatch(w, who) then w
      else SignalDispatch(w.(watchers := w.watchers[t := Finished]), who)
    case _ => w
  }

  function NextDrain(w: World, d: Id, step: Step): World
    requires d in w.drains
  {
    var x := w.drains[d];
    match step
    case LoopReadInit(_) => if x.Looping? && InitializerCount(w) == 0
         then w.(drains := w.drains[d := SawNoInitializer]) else w
    case LoopReadDispatch(_) =>
      if !x.SawNoInitializer? then w
          else w.(drains := w.drains[d := if w.dispatches == map[] then Returned else Looping])
    case LeaveLoop(_) => if x.Looping? || x.SawNoInitializer? then w.(drains := w.drains[d := WaitInit]) else w
    case CheckInit(_) => if !x.WaitInit? then w
         else w.(drains := w.drains[d := if InitializerCount(w) == 0 then Aborting else AwaitInit])
    case PollInit(_) =>
      if !x.AwaitInit? then w
      else if w.initSignal then w.(initSignal := false, drains := w.drains[d := WaitInit])
      else w.(drains := w.drains[d := SleepInit])
    case AbortAll(_) => if !x.Aborting? then w else AbortLive(w).(drains := w.drains[d := WaitDispatch])
    case CheckDispatch(_) => if !x.WaitDispatch? then w
         else w.(drains := w.drains[d := if w.dispatches == map[] then Returned else AwaitDispatch])
    case PollDispatch(_) =>
      if !x.AwaitDispatch? then w
      else if w.dispatchSignal then w.(dispatchSignal := false, drains := w.drains[d := WaitDispatch])
      else w.(drains := w.drains[d := SleepDispatch])
    case _ => w
  }

  function Next(w: World, step: Step): World {
    match step
    case Arrive(i) => if i in w.inits then w else w.(inits := w.inits[i := Loaded(w.word)])
    case Shutdown(d) =>
      if d in w.drains then w
      else w.(word := if ShuttingDown(w) then w.word else w.word + SHUTDOWN_BIT, drains := w.drains[d := Looping])
    case TryBegin(i, _) => if i in w.inits then NextInit(w, i, step) else w
    case GiveUp(i) => if i in w.inits then NextInit(w, i, step) else w
    case Reserve(i, _, _) => if i in w.inits then NextInit(w, i, step) else w
    case Spawn(i) => if i in w.inits then NextInit(w, i, step) else w
    case Register(i) => if i in w.inits then NextInit(w, i, step) else w
    case StartWatch(i) => if i in w.inits then NextInit(w, i, step) else w
    case SendStart(i) => if i in w.inits then NextInit(w, i, step) else w
    case DropPermit(i) => if i in w.inits then NextInit(w, i, step) else w
    case NotifyInit(i, _) => if i in w.inits then NextInit(w, i, step) else w
    case WorkerRun(t) => if t in w.workers then NextWorker(w, t, step) else w
    case WorkerEnd(t) => if t in w.workers then NextWorker(w, t, step) else w
    case WatchRemove(t) => if t in w.workers then NextWorker(w, t, step) else w
    case WatchNotify(t, _) => if t in w.workers then NextWorker(w, t, step) else w
    case LoopReadInit(d) => if d in w.drains then NextDrain(w, d, step) else w
    case LoopReadDispatch(d) => if d in w.drains then NextDrain(w, d, step) else w
    case LeaveLoop(d) => if d in w.drains then NextDrain(w, d, step) else w
    case CheckInit(d) => if d in w.drains then NextDrain(w, d, step) else w
    case PollInit(d) => if d in w.drains then NextDrain(w, d, step) else w
    case AbortAll(d) => if d in w.drains then NextDrain(w, d, step) else w
    case CheckDispatch(d) => if d in w.drains then NextDrain(w, d, step) else w
    case PollDispatch(d) => if d in w.drains then NextDrain(w, d, step) else w
  }

  function Play(w: World, steps: seq<Step>): World {
    if steps == [] then w else Next(Play(w, steps[..|steps| - 1]), steps[|steps| - 1])
  }
}
