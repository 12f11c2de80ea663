/**
 Evidence about harness processes: the private sidecar file of a process controller, the
 lifecycle a reporter keeps beside it, and what an execution may conclude from both.

 The operating system is an oracle: whether a process group is alive, which birth fingerprint
 a process has and whether a write reached the disk are parameters of each call.
 */
module Process {

  type Id = nat

  const I32_MAX: nat := 0x7fff_ffff
  const U32_MAX: nat := 0xffff_ffff

  // --- Sidecars ----------------------------------------------------------------------------------

  datatype SidecarState = Reserved | Started | Stopped

  datatype Sidecar = Sidecar(
    run: Id, worker: Id, generation: nat,
    pid: nat, pgid: int, startedAt: int, birth: Option<Id>, state: SidecarState)

  datatype Option<+T> = None | Some(value: T)

  datatype SidecarError =
    | InvalidController | InvalidProcess | CorruptSidecar | ConflictingSidecar | IdentityUnavailable | Io

  datatype Result<+T> = Ok(value: T) | Err(error: SidecarError)

  /** How an atomic replacement went: done, not done, or done but reported as failed. */
  datatype Write = Written | NotWritten | Unsynced

  /** What the operating system says about a freshly spawned process and about the previous group. */
  datatype Os = Os(birth: Option<Id>, identityMatches: bool, groupAlive: bool)

  /** What `read` insists on. */
  predicate WellFormed(s: Sidecar) {
    && s.generation != 0
    && match s.state
       case Reserved => s.pid == 0 && s.pgid == 0 && s.startedAt == 0 && s.birth.None?
       case _ => 0 < s.pid <= I32_MAX && s.pgid == s.pid && s.birth.Some?
  }

  predicate SameBinding(a: Sidecar, b: Sidecar) {
    a.run == b.run && a.worker == b.worker && a.generation == b.generation
  }

  function Reservation(run: Id, worker: Id, generation: nat): Sidecar {
    Sidecar(run, worker, generation, 0, 0, 0, None, Reserved)
  }

  /** When a start is recorded: over itself, over a reservation, or over a group that is gone. */
  predicate Startable(files: map<Id, Sidecar>, controller: Id, pid: nat, pgid: int, os: Os, write: Write) {
    && 0 < pid <= I32_MAX && pgid == pid && os.birth.Some? && os.identityMatches && controller in files
    && var s := files[controller];
       if s.state.Started? then s.pid == pid && s.pgid == pgid && s.birth == os.birth
       else (s.state.Reserved? || !os.groupAlive) && write.Written?
  }

  /** When a stop is recorded: for the recorded process, again or once its group is gone. */
  predicate Stoppable(files: map<Id, Sidecar>, controller: Id, pid: nat, pgid: int, groupAlive: bool, write: Write) {
    && pid <= I32_MAX && controller in files && files[controller].pid == pid && files[controller].pgid == pgid
    && (files[controller].state.Stopped? || (!groupAlive && write.Written?))
  }

  class ProcessControllerStore {
    /** One file for each controller identity. */
    var files: map<Id, Sidecar>

    ghost predicate Valid()
      reads this
    {
      forall k :: k in files ==> WellFormed(files[k])
    }

    constructor ()
      ensures Valid() && files == map[]
    {
      files := map[];
    }

    method Read(controller: Id) returns (r: Result<Sidecar>)
      ensures controller !in files ==> r == Err(Io)
      ensures controller in files ==>
                r == if WellFormed(files[controller]) then Ok(files[controller]) else Err(CorruptSidecar)
    {
      if controller !in files { return Err(Io); }
      if !WellFormed(files[controller]) { return Err(CorruptSidecar); }
      return Ok(files[controller]);
    }

    method WriteAtomic(controller: Id, s: Sidecar, write: Write) returns (ok: bool)
      modifies this
      ensures ok == write.Written?
      ensures files == if write.NotWritten? then old(files) else old(files)[controller := s]
    {
      if !write.NotWritten? { files := files[controller := s]; }
      ok := write.Written?;
    }

    /** Durable never-started evidence; repeating it is harmless, anything else on file conflicts. */
    method Reserve(controller: Id, run: Id, worker: Id, generation: nat, write: Write)
      returns (error: Option<SidecarError>)
      requires Valid()
      modifies this
      ensures Valid()
      ensures forall k :: k in old(files) ==> k in files && files[k] == old(files)[k]
      ensures error.None? ==>
                generation != 0 && controller in files && files[controller] == Reservation(run, worker, generation)
      ensures error.None? <==>
                && generation != 0
                && if controller in old(files) then old(files)[controller] == Reservation(run, worker, generation)
                   else write.Written?
    {
      if generation == 0 { return Some(InvalidController); }
      var reserved := Reservation(run, worker, generation);
      var current := Read(controller);
      match current
      case Ok(s) => return if s == reserved then None else Some(ConflictingSidecar);
      case Err(e) =>
        if controller in files { return Some(e); }
        var ok := WriteAtomic(controller, reserved, write);
        return if ok then None else Some(Io);
    }

    /** The exact identity of a spawned, still gated process, before its target may run. */
    method RecordStarted(controller: Id, pid: nat, pgid: int, startedAt: int, os: Os, write: Write)
      returns (error: Option<SidecarError>)
      requires Valid()
      modifies this
      ensures Valid()
      ensures forall k :: k in old(files) ==>
                k in files && SameBinding(files[k], old(files)[k]) && (k != controller ==> files[k] == old(files)[k])
      ensures files.Keys == old(files).Keys
      ensures error.None? <==> Startable(old(files), controller, pid, pgid, os, write)
      ensures error.None? ==>
                && controller in files && files[controller].state.Started?
                && files[controller].pid == pid && files[controller].pgid == pgid
      ensures error.None? && old(files)[controller].state.Stopped? ==> !os.groupAlive
      ensures error.None? && old(files)[controller].state.Started? ==> files == old(files)
    {
      if pid > I32_MAX || pid == 0 || pgid != pid { return Some(InvalidProcess); }
      if os.birth.None? || !os.identityMatches { return Some(IdentityUnavailable); }
      var read := Read(controller);
      if read.Err? { return Some(read.error); }
      var current := read.value;
      var next := Sidecar(current.run, current.worker, current.generation, pid, pgid, startedAt, os.birth, Started);
      if current.state.Started? && current.pid == pid && current.pgid == pgid && current.birth == os.birth {
        return None;
      }
      if current.state.Reserved? || (current.state.Stopped? && !os.groupAlive) {
        var ok := WriteAtomic(controller, next, write);
        return if ok then None else Some(Io);
      }
      return Some(ConflictingSidecar);
    }

    /**
     Terminal proof, written only when the whole group was seen to be gone. A stop reported for
     pid zero would match a bare reservation and turn it into a file that `Read` refuses; this is
     the one case that breaks the files' own rules.
     */
    method RecordStopped(controller: Id, pid: nat, pgid: int, groupEmpty: bool, groupAlive: bool, write: Write)
      returns (error: Option<SidecarError>)
      requires Valid()
      modifies this
      ensures Valid() <==> !(groupEmpty && !groupAlive && !write.NotWritten? && pid == 0 && pgid == 0
                             && controller in old(files) && old(files)[controller].state.Reserved?)
      ensures files.Keys == old(files).Keys
      ensures forall k :: k in old(files) ==>
                SameBinding(files[k], old(files)[k]) && (k != controller ==> files[k] == old(files)[k])
      ensures !groupEmpty ==> error.None? && files == old(files)
      ensures groupEmpty ==> (error.None? <==> Stoppable(old(files), controller, pid, pgid, groupAlive, write))
      ensures groupEmpty && error.None? ==>
                && controller in files && files[controller].state.Stopped? && files[controller].pid == pid
                && files[controller].pgid == pgid
                && (!old(files)[controller].state.Stopped? ==> !groupAlive)
    {
      if !groupEmpty { return None; }
      if pid > I32_MAX { return Some(InvalidProcess); }
      var read := Read(controller);
      if read.Err? { return Some(read.error); }
      var current := read.value;
      if current.pid != pid || current.pgid != pgid { return Some(ConflictingSidecar); }
      if current.state.Stopped? { return None; }
      if groupAlive { return Some(ConflictingSidecar); }
      var ok := WriteAtomic(controller, current.(state := Stopped), write);
      assert !write.NotWritten? ==> (WellFormed(files[controller]) <==> pid != 0);
      return if ok then None else Some(Io);
    }
  }

  /** The one failing case, played out: a stop for pid zero makes a fresh reservation unreadable. */
  method StopBeforeStart(store: ProcessControllerStore, controller: Id, run: Id, worker: Id, generation: nat)
    returns (seen: Result<Sidecar>)
    requires store.Valid() && controller !in store.files && generation != 0
    modifies store
    ensures seen == Err(CorruptSidecar) && !store.Valid()
  {
    var reserved := store.Reserve(controller, run, worker, generation, Written);
    var stopped := store.RecordStopped(controller, 0, 0, true, false, Written);
    assert reserved.None? && stopped.None?;
    seen := store.Read(controller);
  }

  // --- The reporter's lifecycle ------------------------------------------------------------------

  datatype LifecycleState = NeverStarted | Active(pid: nat, pgid: int, cycles: nat) | Ended(cycles: nat) | Uncertain

  datatype LifecycleEvent = StartedEvent(pid: nat, pgid: int) | StoppedEvent(pid: nat, pgid: int, groupEmpty: bool)

  /** A process group the reporter accepted, and whether it was seen to be empty. */
  datatype Group = Group(pid: nat, empty: bool)

  function Saturating(n: nat): nat {
    if n < U32_MAX then n else U32_MAX
  }

  predicate AllEmpty(groups: seq<Group>) {
    forall i :: 0 <= i < |groups| ==> groups[i].empty
  }

  lemma LastEmpty(groups: seq<Group>)
    requires groups != [] && AllEmpty(groups[..|groups| - 1]) && groups[|groups| - 1].empty
    ensures AllEmpty(groups)
  {
    forall i | 0 <= i < |groups| ensures groups[i].empty {
      if i < |groups| - 1 { assert groups[..|groups| - 1][i].empty; }
    }
  }

  /** When a report is believed: starts and stops alternate, name the same group and reach the disk. */
  predicate Reportable(state: LifecycleState, files: map<Id, Sidecar>, controller: Id, event: LifecycleEvent, os: Os,
                       write: Write) {
    match event
    case StartedEvent(pid, pgid) =>
      (state.NeverStarted? || state.Ended?) && Startable(files, controller, pid, pgid, os, write)
    case StoppedEvent(pid, pgid, groupEmpty) =>
      && state.Active? && state.pid == pid && state.pgid == pgid && groupEmpty
      && Stoppable(files, controller, pid, pgid, os.groupAlive, write)
  }

  /** The events reported to one lifecycle, with what the system answered each time. */
  class ProcessLifecycle {
    const sidecars: ProcessControllerStore
    const controller: Id
    var state: LifecycleState
    ghost var groups: seq<Group>

    ghost predicate Valid()
      reads this, sidecars
    {
      && sidecars.Valid()
      && match state
         case NeverStarted => groups == []
         case Active(pid, pgid, cycles) =>
           && groups != [] && groups[|groups| - 1] == Group(pid, false) && AllEmpty(groups[..|groups| - 1])
           && cycles == Saturating(|groups| - 1)
           && controller in sidecars.files && sidecars.files[controller].state.Started?
           && sidecars.files[controller].pid == pid && sidecars.files[controller].pgid == pgid && pid != 0
         case Ended(cycles) =>
           && groups != [] && AllEmpty(groups) && cycles == Saturating(|groups|)
           && controller in sidecars.files && sidecars.files[controller].state.Stopped?
           && sidecars.files[controller].pid == groups[|groups| - 1].pid
         case Uncertain => true
    }

    constructor (sidecars: ProcessControllerStore, controller: Id)
      requires sidecars.Valid()
      ensures Valid() && this.sidecars == sidecars && this.controller == controller && state.NeverStarted?
              && groups == []
    {
      this.sidecars, this.controller, state, groups := sidecars, controller, NeverStarted, [];
    }

    method ReportStarted(pid: nat, pgid: int, startedAt: int, os: Os, write: Write) returns (ok: bool)
      requires Valid()
      modifies this, sidecars
      ensures Valid() && (ok <==> !state.Uncertain?)
      ensures old(state).Uncertain? || old(state).Active? ==> !ok && sidecars.files == old(sidecars.files)
      ensures old(state).NeverStarted? || old(state).Ended? ==>
                (ok <==> Startable(old(sidecars.files), controller, pid, pgid, os, write))
      ensures groups == if ok then old(groups) + [Group(pid, false)] else old(groups)
      ensures forall k :: k in old(sidecars.files) ==>
                k in sidecars.files && SameBinding(sidecars.files[k], old(sidecars.files)[k])
    {
      if state.Active? || state.Uncertain? {
        state := Uncertain;
        return false;
      }
      var cycles := if state.NeverStarted? then 0 else state.cycles;
      var error := sidecars.RecordStarted(controller, pid, pgid, startedAt, os, write);
      if error.Some? {
        state := Uncertain;
        return false;
      }
      state := Active(pid, pgid, cycles);
      groups := groups + [Group(pid, false)];
      assert groups[..|groups| - 1] == old(groups);
      return true;
    }

    method ReportStopped(pid: nat, pgid: int, groupEmpty: bool, os: Os, write: Write) returns (ok: bool)
      requires Valid()
      modifies this, sidecars
      ensures Valid() && (ok <==> !state.Uncertain?)
      ensures !old(state).Active? ==> !ok && sidecars.files == old(sidecars.files)
      ensures ok ==>
                groupEmpty && !os.groupAlive && old(state).Active? && old(state).pid == pid && old(state).pgid == pgid
      ensures old(state).Active? && old(state).pid == pid && old(state).pgid == pgid && groupEmpty ==>
                (ok <==> Stoppable(old(sidecars.files), controller, pid, pgid, os.groupAlive, write))
      ensures ok ==> old(groups) != [] && groups == old(groups)[|old(groups)| - 1 := Group(pid, true)]
      ensures !ok ==> groups == old(groups)
      ensures forall k :: k in old(sidecars.files) ==>
                k in sidecars.files && SameBinding(sidecars.files[k], old(sidecars.files)[k])
    {
      if !state.Active? || pid != state.pid || pgid != state.pgid || !groupEmpty {
        state := Uncertain;
        return false;
      }
      var cycles := state.cycles;
      var error := sidecars.RecordStopped(controller, pid, pgid, true, os.groupAlive, write);
      if error.Some? {
        state := Uncertain;
        return false;
      }
      state := Ended(if cycles < U32_MAX then cycles + 1 else U32_MAX);
      groups := groups[|groups| - 1 := Group(pid, true)];
      assert groups[..|groups| - 1] == old(groups)[..|groups| - 1];
      LastEmpty(groups);
      return true;
    }

    /** `report`: every doubt, and every failed write, ends in Uncertain, and Uncertain is for good. */
    method Report(event: LifecycleEvent, startedAt: int, os: Os, write: Write) returns (ok: bool)
      requires Valid()
      modifies this, sidecars
      ensures Valid() && (ok <==> !state.Uncertain?)
      ensures old(state).Uncertain? ==>
                state.Uncertain? && groups == old(groups) && sidecars.files == old(sidecars.files)
      ensures ok && event.StoppedEvent? ==>
                event.groupEmpty && !os.groupAlive && old(state).Active? && old(state).pid == event.pid
      ensures |groups| == |old(groups)| + if ok && event.StartedEvent? then 1 else 0
      ensures ok <==> Reportable(old(state), old(sidecars.files), controller, event, os, write)
      ensures forall k :: k in old(sidecars.files) ==>
                k in sidecars.files && SameBinding(sidecars.files[k], old(sidecars.files)[k])
    {
      match event
      case StartedEvent(pid, pgid) => ok := ReportStarted(pid, pgid, startedAt, os, write);
      case StoppedEvent(pid, pgid, groupEmpty) => ok := ReportStopped(pid, pgid, groupEmpty, os, write);
    }

    /** What the execution may look at once dispatch has come back. */
    function Observation(): (o: Observed)
      requires Valid()
      reads this, sidecars
      ensures o.ObservedNeverStarted? ==> groups == []
      ensures o.ObservedStopped? ==> groups != [] && AllEmpty(groups) && o.cycles > 0
      ensures o.ObservedStopped? ==> controller in sidecars.files && sidecars.files[controller].state.Stopped?
                                     && sidecars.files[controller].pid == groups[|groups| - 1].pid
    {
      match state
      case NeverStarted => ObservedNeverStarted
      case Active(_, _, _) => ObservedRunning
      case Ended(cycles) => ObservedStopped(cycles)
      case Uncertain => ObservedUncertain
    }
  }

  datatype Observed = ObservedNeverStarted | ObservedRunning | ObservedStopped(cycles: nat) | ObservedUncertain {
    predicate QuiescedOrNeverStarted() {
      ObservedNeverStarted? || ObservedStopped?
    }

    predicate QuiescedAfterStart() {
      ObservedStopped? && cycles > 0
    }
  }

  // --- What an execution concludes ---------------------------------------------------------------

  datatype RunStatus = Success | Timeout | Error | Cancelled

  datatype Dispatched = DispatchError(spawnFailed: bool) | Finished(status: RunStatus, output: Option<nat>,
                                                                    spawnFailed: bool)

  datatype Settlement = CompletionStaged | FailedDispatch | FailedSpawn | FailedInternal | TimedOut

  datatype ExecutorOutcome = Quiesced(settlement: Settlement) | Unknown

  const MAX_BODY_BYTES: nat := 256 * 1024

  /** A settlement counts only if the spooled input could be removed. */
  function Removing(removed: bool, s: Settlement): ExecutorOutcome {
    if removed then Quiesced(s) else Unknown
  }

  /** The decision of `execute`; `usable` says the output has no forbidden bytes. */
  function Conclude(d: Dispatched, o: Observed, permitReturned: bool, usable: bool, staged: bool,
                    removed: bool): ExecutorOutcome {
    if !permitReturned then Unknown
    else
      match d
      case DispatchError(spawnFailed) =>
        if !o.QuiescedOrNeverStarted() then Unknown
            else Removing(removed, if spawnFailed then FailedSpawn else FailedDispatch)
      case Finished(status, output, spawnFailed) =>
        match status
        case Success =>
          if !o.QuiescedAfterStart() then Unknown
          else if output.None? || output.value > MAX_BODY_BYTES || !usable then Removing(removed, FailedInternal)
          else if staged then Quiesced(CompletionStaged)
          else Unknown
        case Timeout => if o.QuiescedOrNeverStarted() then Removing(removed, TimedOut) else Unknown
        case Error => if o.QuiescedOrNeverStarted()
             then Removing(removed, if spawnFailed then FailedSpawn else FailedDispatch) else Unknown
        case Cancelled => Unknown
  }

  /** A body that can be handed over. */
  predicate Deliverable(d: Dispatched, usable: bool) {
    d.Finished? && d.status.Success? && d.output.Some? && d.output.value <= MAX_BODY_BYTES && usable
  }

  /** What the lifecycle must show for each way a dispatch comes back. */
  predicate Proven(d: Dispatched, state: LifecycleState) {
    if d.Finished? && d.status.Cancelled? then false
    else state.Ended? || (state.NeverStarted? && !(d.Finished? && d.status.Success?))
  }

  /** The end of `execute`: it reports Quiesced only when nothing started or every group was seen empty. */
  method Settle(lifecycle: ProcessLifecycle, d: Dispatched, permitReturned: bool, usable: bool, staged: bool,
                removed: bool)
    returns (outcome: ExecutorOutcome)
    requires lifecycle.Valid()
    ensures outcome.Quiesced? ==> AllEmpty(lifecycle.groups)
    ensures outcome.Quiesced? && lifecycle.groups != [] ==>
              && lifecycle.controller in lifecycle.sidecars.files
              && lifecycle.sidecars.files[lifecycle.controller].state.Stopped?
              && lifecycle.sidecars.files[lifecycle.controller].pid == lifecycle.groups[|lifecycle.groups| - 1].pid
    ensures outcome.Quiesced? <==>
              permitReturned && Proven(d, lifecycle.state) && if Deliverable(d, usable) then staged else removed
    ensures outcome.Quiesced? ==> (outcome.settlement.CompletionStaged? <==> Deliverable(d, usable))
    ensures outcome == Quiesced(CompletionStaged) ==> lifecycle.groups != [] && staged
    ensures lifecycle.state.Uncertain? || lifecycle.state.Active? ==> outcome.Unknown?
  {
    outcome := Conclude(d, lifecycle.Observation(), permitReturned, usable, staged, removed);
  }

  // --- Whole runs of the reporter ----------------------------------------------------------------

  datatype Reported = Reported(event: LifecycleEvent, startedAt: int, os: Os, write: Write)

  /** Any sequence of events, whatever the system answers: bindings never change and doubt is never lifted. */
  method ReportAll(lifecycle: ProcessLifecycle, events: seq<Reported>)
    requires lifecycle.Valid()
    modifies lifecycle, lifecycle.sidecars
    ensures lifecycle.Valid()
    ensures old(lifecycle.state).Uncertain? ==>
              lifecycle.state.Uncertain? && lifecycle.sidecars.files == old(lifecycle.sidecars.files)
    ensures forall k :: k in old(lifecycle.sidecars.files) ==>
              k in lifecycle.sidecars.files
                  && SameBinding(lifecycle.sidecars.files[k], old(lifecycle.sidecars.files)[k])
    ensures |lifecycle.groups| <= |old(lifecycle.groups)| + |events|
  {
    for i := 0 to |events|
      invariant lifecycle.Valid()
      invariant old(lifecycle.state).Uncertain? ==>
                  lifecycle.state.Uncertain? && lifecycle.sidecars.files == old(lifecycle.sidecars.files)
      invariant forall k :: k in old(lifecycle.sidecars.files) ==>
                  k in lifecycle.sidecars.files
                      && SameBinding(lifecycle.sidecars.files[k], old(lifecycle.sidecars.files)[k])
      invariant |lifecycle.groups| <= |old(lifecycle.groups)| + i
    {
      var _ := lifecycle.Report(events[i].event, events[i].startedAt, events[i].os, events[i].write);
    }
  }

  // --- Recovery of an abandoned process ----------------------------------------------------------

  datatype Identity = IdentityPresent | IdentityGone | IdentityUncertain

  datatype Recovered = Gone | StillPresent | Unavailable

  datatype Signal = Term(termGroup: int) | Kill(killGroup: int)

  /** The first check that no longer sees the process, if there is one. */
  function FirstChange(checks: seq<Identity>): (last: Identity)
    ensures last.IdentityPresent? <==> forall i :: 0 <= i < |checks| ==> checks[i].IdentityPresent?
  {
    if checks == [] then IdentityPresent
    else if !checks[0].IdentityPresent? then checks[0]
    else FirstChange(checks[1..])
  }

  /** A polling loop, which ends at a change or at its deadline. */
  method Poll(checks: seq<Identity>) returns (last: Identity)
    ensures last == FirstChange(checks)
  {
    for i := 0 to |checks|
      invariant FirstChange(checks[i..]) == FirstChange(checks)
    {
      if !checks[i].IdentityPresent? { return checks[i]; }
    }
    return IdentityPresent;
  }

  /** Whether the process is seen to vanish: at once, after the first signal or after the second. */
  predicate SeenGone(late: bool, checks: (Identity, Identity, Identity), afterTerm: seq<Identity>,
                     afterKill: seq<Identity>) {
    || checks.0.IdentityGone?
    || (checks.0.IdentityPresent? && !late && checks.1.IdentityPresent?
        && (FirstChange(afterTerm).IdentityGone?
            || (FirstChange(afterTerm).IdentityPresent? && checks.2.IdentityPresent?
                && FirstChange(afterKill).IdentityGone?)))
  }

  /** When the adapter may call a controller gone. */
  predicate ProvenGone(files: map<Id, Sidecar>, controller: Id, groupAlive: bool, seen: bool, write: Write) {
    controller in files &&
      match files[controller].state
      case Reserved => true
      case Stopped => !groupAlive
      case Started => seen && !groupAlive && write.Written?
  }

  /** The recovery adapter over the same files. */
  class ProcessRecovery {
    const sidecars: ProcessControllerStore

    constructor (sidecars: ProcessControllerStore)
      ensures this.sidecars == sidecars
    {
      this.sidecars := sidecars;
    }

    /** `persist_gone`: proof of absence, only for a group that is not alive. */
    method PersistGone(controller: Id, s: Sidecar, groupAlive: bool, write: Write) returns (r: Recovered)
      requires sidecars.Valid() && controller in sidecars.files && sidecars.files[controller] == s && s.state.Started?
      modifies sidecars
      ensures sidecars.Valid()
      ensures r.Gone? ==> !groupAlive && sidecars.files == old(sidecars.files)[controller := s.(state := Stopped)]
      ensures !r.Gone? ==> r.Unavailable?
      ensures r.Gone? <==> !groupAlive && write.Written?
      ensures sidecars.files == old(sidecars.files)
              || sidecars.files == old(sidecars.files)[controller := s.(state := Stopped)]
    {
      if groupAlive { return Unavailable; }
      var ok := sidecars.WriteAtomic(controller, s.(state := Stopped), write);
      return if ok then Gone else Unavailable;
    }

    /**
     `observe_until`: terminate, then kill, and report Gone only with proof. `checks` are the
     identity checks made before each decision; the two polls end at their deadlines.
     */
    method ObserveUntil(controller: Id, groupAlive: bool, late: bool, checks: (Identity, Identity, Identity),
                        afterTerm: seq<Identity>, afterKill: seq<Identity>, write: Write)
      returns (r: Recovered, signals: seq<Signal>)
      requires sidecars.Valid()
      modifies sidecars
      ensures sidecars.Valid() && sidecars.files.Keys == old(sidecars.files).Keys
      ensures forall k :: k in old(sidecars.files) ==> SameBinding(sidecars.files[k], old(sidecars.files)[k])
      ensures r.Gone? ==> controller in sidecars.files && !sidecars.files[controller].state.Started?
                          && (sidecars.files[controller].state.Stopped? ==> !groupAlive)
      ensures r.Gone? <==> ProvenGone(old(sidecars.files), controller, groupAlive,
                                      SeenGone(late, checks, afterTerm, afterKill), write)
      ensures signals != [] ==>
                && controller in old(sidecars.files) && old(sidecars.files)[controller].state.Started?
                && checks.0.IdentityPresent? && checks.1.IdentityPresent?
                && signals[0] == Term(old(sidecars.files)[controller].pgid)
      ensures |signals| <= 2
      ensures |signals| == 2 ==> checks.2.IdentityPresent? && signals[1] == Kill(old(sidecars.files)[controller].pgid)
                                 && forall i :: 0 <= i < |afterTerm| ==> afterTerm[i].IdentityPresent?
    {
      signals := [];
      var read := sidecars.Read(controller);
      if read.Err? { return Unavailable, signals; }
      var s := read.value;
      if s.state.Reserved? { return Gone, signals; }
      if s.state.Stopped? { return if groupAlive then Unavailable else Gone, signals; }
      if checks.0.IdentityGone? {
        r := PersistGone(controller, s, groupAlive, write);
        return;
      }
      if checks.0.IdentityUncertain? { return Unavailable, signals; }
      if late { return StillPresent, signals; }
      if !checks.1.IdentityPresent? { return Unavailable, signals; }
      signals := [Term(s.pgid)];
      var seen := Poll(afterTerm);
      if seen.IdentityGone? {
        r := PersistGone(controller, s, groupAlive, write);
        return;
      }
      if seen.IdentityUncertain? || !checks.2.IdentityPresent? { return Unavailable, signals; }
      signals := signals + [Kill(s.pgid)];
      seen := Poll(afterKill);
      if seen.IdentityGone? {
        r := PersistGone(controller, s, groupAlive, write);
        return;
      }
      return if seen.IdentityUncertain? then Unavailable else StillPresent, signals;
    }
  }
}
