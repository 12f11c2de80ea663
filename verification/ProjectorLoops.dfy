/** The projector as the object it is: its loops change the stream and the acknowledgements in place. */
module ProjectorLoops {
  import opened Projector

  /** The durable stream of one owner. */
  class EventLog {
    var stream: seq<nat>
  }

  /** The acknowledgement table of one projector identity. */
  class Outbox {
    var acked: set<nat>
  }

  datatype Option<+T> = None | Some(value: T)

  /**
   What goes wrong during one call: which read of the first scan fails, whether the page loads,
   for which item and at which read the second scan fails, and whose append or acknowledgement fails.
   */
  datatype Faults = Faults(firstScan: Option<nat>, load: bool, rescan: Option<(nat, nat)>, append: Option<nat>,
                           ack: Option<nat>)

  /** The number of reads a scan of a stream of this length takes. */
  function ReadCount(n: nat): (k: nat)
    ensures k >= 1
  {
    if n <= SCAN_PAGE then 1 else 1 + ReadCount(n - SCAN_PAGE)
  }

  /** `scan_source_floor`: page through the stream for its largest source number; read number `failing` fails. */
  method ScanSourceFloor(log: EventLog, failing: Option<nat>) returns (floor: Option<nat>)
    ensures floor.Some? <==> (failing.Some? ==> ReadCount(|log.stream|) <= failing.value)
    ensures floor.Some? ==> floor.value == MaxIn(log.stream)
  {
    hide MaxIn, Page, HasMore;
    var after, more, best, done := 0, true, 0, 0;
    NothingSeen(log.stream);
    while more
      invariant after <= |log.stream| && best == MaxIn(log.stream[..after])
      invariant !more ==> after == |log.stream|
      invariant ReadCount(|log.stream|) == done + if more then ReadCount(|log.stream| - after) else 0
      invariant failing.Some? ==> done <= failing.value
      decreases |log.stream| - after, more
    {
      if failing == Some(done) { return None; }
      done := done + 1;
      var page := Page(log.stream, after);
      PageSize(log.stream, after);
      PageExtends(log.stream, after);
      PageEnds(log.stream, after);
      if page == [] { break; }
      best := RaiseFloor(best, page);
      more := HasMore(log.stream, after);
      after := after + |page|;
    }
    assert log.stream[..after] == log.stream;
    return Some(best);
  }

  lemma PageSize(stream: seq<nat>, after: nat)
    requires after <= |stream|
    ensures HasMore(stream, after) <==> |stream| - after > SCAN_PAGE
    ensures HasMore(stream, after) ==> |Page(stream, after)| == SCAN_PAGE
  { }

  /** How one item fared. */
  datatype Delivery = Delivered | Blocked | Unread | Refused | Unacknowledged

  /** One projector object; its clones share it behind a lock. */
  class AgentEventProjector {
    var floorKnown: bool
    var floor: nat

    constructor ()
      ensures !floorKnown && floor == 0
    {
      floorKnown, floor := false, 0;
    }

    /** This object, its stream and its acknowledgements as part of the step system. */
    ghost function View(id: nat, published: nat, others: map<nat, Instance>, log: EventLog, outbox: Outbox,
                        phase: Phase): World
      reads this, log, outbox
    {
      World(published, outbox.acked, log.stream, others[id := Instance(floorKnown, floor, phase)])
    }

    /** Learn the floor once, before the first page. */
    method EnsureFloor(log: EventLog, outbox: Outbox, failing: Option<nat>,
                       ghost id: nat, ghost published: nat, ghost others: map<nat, Instance>)
      returns (ok: bool, ghost steps: seq<Step>)
      modifies this
      ensures ok <==> old(floorKnown) || (failing.Some? ==> ReadCount(|log.stream|) <= failing.value)
      ensures ok ==> floorKnown
      ensures Play(old(View(id, published, others, log, outbox, Idle)), steps)
           == View(id, published, others, log, outbox, if ok then Ready else Idle)
    {
      hide Play, MaxIn;
      ghost var w := View(id, published, others, log, outbox, Idle);
      PlayOne(w, Begin(id));
      steps := [Begin(id)];
      ok := true;
      if !floorKnown {
        var scanned := ScanSourceFloor(log, failing);
        if scanned.None? {
          PlayMore(w, steps, Fail(id));
          PutTwice(w, id, Of(Next(w, Begin(id)), id), Instance(false, floor, Idle));
          return false, steps + [Fail(id)];
        }
        floor, floorKnown := scanned.value, true;
        ghost var scanning := Next(w, Begin(id));
        NothingSeen(log.stream);
        ScanPlays(scanning, id);
        PlayBoth(w, steps, Reads(id, |log.stream|));
        PutTwice(w, id, Of(scanning, id), Instance(true, floor, Ready));
        steps := steps + Reads(id, |log.stream|);
      }
    }

    /** A later number than the next one: look at the stream again, others may have filled the gap. */
    method Refresh(log: EventLog, outbox: Outbox, items: seq<nat>, failing: Option<nat>,
                   ghost id: nat, ghost published: nat, ghost others: map<nat, Instance>)
      returns (ok: bool, ghost steps: seq<Step>)
      requires floorKnown && items != [] && items[0] > floor + 1
      modifies this`floor
      ensures ok <==> (failing.Some? ==> ReadCount(|log.stream|) <= failing.value)
      ensures floor == if ok then Max(old(floor), MaxIn(log.stream)) else old(floor)
      ensures Play(old(View(id, published, others, log, outbox, Working(items))), steps)
           == View(id, published, others, log, outbox, if ok then Cleared(items) else Idle)
    {
      hide Play, MaxIn;
      ghost var w := View(id, published, others, log, outbox, Working(items));
      ghost var scanning := Next(w, Check(id));
      PlayOne(w, Check(id));
      var scanned := ScanSourceFloor(log, failing);
      if scanned.None? {
        PlayMore(w, [Check(id)], Fail(id));
        PutTwice(w, id, Of(scanning, id), Instance(true, floor, Idle));
        return false, [Check(id)] + [Fail(id)];
      }
      NothingSeen(log.stream);
      ScanPlays(scanning, id);
      PlayBoth(w, [Check(id)], Reads(id, |log.stream|));
      if scanned.value > floor { floor := scanned.value; }
      PutTwice(w, id, Of(scanning, id), Instance(true, floor, Cleared(items)));
      return true, [Check(id)] + Reads(id, |log.stream|);
    }

    /** Append an item that leaves no gap, acknowledge it, raise the floor. */
    method AppendAndAck(log: EventLog, outbox: Outbox, items: seq<nat>, canAppend: bool, canAck: bool,
                        ghost id: nat, ghost published: nat, ghost others: map<nat, Instance>, ghost phase: Phase)
      returns (result: Delivery, ghost steps: seq<Step>)
      requires floorKnown && items != [] && items[0] <= floor + 1
               && (phase == Working(items) || phase == Cleared(items))
      modifies this`floor, log, outbox
      ensures result == if !canAppend then Refused else if !canAck then Unacknowledged else Delivered
      ensures Play(old(View(id, published, others, log, outbox, phase)), steps)
           == View(id, published, others, log, outbox, if result.Delivered? then Working(items[1..]) else Idle)
      ensures log.stream == if result.Delivered? || result.Unacknowledged? then old(log.stream) + [items[0]]
              else old(log.stream)
      ensures outbox.acked == if result.Delivered? then old(outbox.acked) + {items[0]} else old(outbox.acked)
    {
      hide Play, MaxIn;
      ghost var before := View(id, published, others, log, outbox, phase);
      if !canAppend {
        PlayOne(before, Fail(id));
        return Refused, [Fail(id)];
      }
      log.stream := log.stream + [items[0]];
      PlayOne(before, Check(id));
      steps := [Check(id)];
      if !canAck {
        PlayMore(before, steps, Fail(id));
        return Unacknowledged, steps + [Fail(id)];
      }
      outbox.acked := outbox.acked + {items[0]};
      PlayMore(before, steps, Acknowledge(id));
      if items[0] > floor { floor := items[0]; }
      return Delivered, steps + [Acknowledge(id)];
    }

    /** One item: look for a gap, look again if there seems to be one, then deliver or stop the page. */
    method Deliver(log: EventLog, outbox: Outbox, items: seq<nat>, failing: Option<nat>, canAppend: bool, canAck: bool,
                   ghost id: nat, ghost published: nat, ghost others: map<nat, Instance>)
      returns (result: Delivery, ghost steps: seq<Step>)
      requires floorKnown && items != []
      modifies this`floor, log, outbox
      ensures Play(old(View(id, published, others, log, outbox, Working(items))), steps)
           == View(id, published, others, log, outbox, if result.Delivered? then Working(items[1..]) else Idle)
      ensures log.stream == if result.Delivered? || result.Unacknowledged? then old(log.stream) + [items[0]]
              else old(log.stream)
      ensures outbox.acked == if result.Delivered? then old(outbox.acked) + {items[0]} else old(outbox.acked)
      ensures result.Blocked? ==> items[0] > MaxIn(log.stream) + 1
      ensures (result.Refused? ==> !canAppend) && (result.Unacknowledged? ==> !canAck)
              && (result.Unread? ==> failing.Some?)
    {
      hide Play, MaxIn;
      if items[0] <= floor + 1 {
        result, steps := AppendAndAck(log, outbox, items, canAppend, canAck, id, published, others, Working(items));
        return;
      }
      ghost var before := View(id, published, others, log, outbox, Working(items));
      var ok;
      ok, steps := Refresh(log, outbox, items, failing, id, published, others);
      if !ok { return Unread, steps; }
      if items[0] > floor + 1 {
        PlayMore(before, steps, Check(id));
        return Blocked, steps + [Check(id)];
      }
      ghost var more;
      result, more := AppendAndAck(log, outbox, items, canAppend, canAck, id, published, others, Cleared(items));
      PlayBoth(before, steps, more);
      steps := steps + more;
    }

    /**
     `project_once` on one page, undisturbed, whatever fails. It is a run of the step system, so
     everything proved of those holds of it; it delivers a prefix of the page and stops only at a
     fault or at a real gap.
     */
    method ProjectOnce(log: EventLog, outbox: Outbox, items: seq<nat>, faults: Faults,
                       ghost id: nat, ghost published: nat, ghost others: map<nat, Instance>)
      returns (projected: nat, last: Delivery, ghost steps: seq<Step>)
      requires Loadable(View(id, published, others, log, outbox, Idle), items)
      modifies this, log, outbox
      ensures Play(old(View(id, published, others, log, outbox, Idle)), steps)
              == View(id, published, others, log, outbox, Idle)
      ensures projected <= |items| && (last.Delivered? ==> projected == |items|)
              && (!last.Delivered? && !last.Unread? ==> projected < |items|)
      ensures log.stream == old(log.stream) + items[..projected]
                            + if last.Unacknowledged? then [items[projected]] else []
      ensures last.Unread? ==>
                faults.firstScan.Some? || faults.load || (faults.rescan.Some? && faults.rescan.value.0 == projected)
      ensures last.Refused? ==> faults.append == Some(projected)
      ensures last.Unacknowledged? ==> faults.ack == Some(projected)
      ensures forall i :: 0 <= i < projected ==> items[i] in outbox.acked
      ensures last.Blocked? ==> items[projected] > MaxIn(log.stream) + 1
    {
      hide Play, MaxIn, Loadable;
      ghost var before := View(id, published, others, log, outbox, Idle);
      projected := 0;
      var ok;
      ok, steps := EnsureFloor(log, outbox, faults.firstScan, id, published, others);
      assert log.stream + items[..0] == log.stream;
      if !ok { return 0, Unread, steps; }
      if faults.load {
        PlayMore(before, steps, Fail(id));
        return 0, Unread, steps + [Fail(id)];
      }
      PlayMore(before, steps, Load(id, items));
      LoadPlays(View(id, published, others, log, outbox, Ready), before, id, items);
      steps := steps + [Load(id, items)];
      last := Delivered;
      assert items[0..] == items;
      while projected < |items|
        invariant projected <= |items| && floorKnown && last.Delivered?
        invariant log.stream == old(log.stream) + items[..projected]
        invariant forall i :: 0 <= i < projected ==> items[i] in outbox.acked
        invariant Play(before, steps) == View(id, published, others, log, outbox, Working(items[projected..]))
        decreases |items| - projected
      {
        ghost var more;
        var failing := if faults.rescan.Some? && faults.rescan.value.0 == projected then Some(faults.rescan.value.1)
            else None;
        last, more := Deliver(log, outbox, items[projected..], failing, faults.append != Some(projected),
                              faults.ack != Some(projected), id, published, others);
        PlayBoth(before, steps, more);
        steps := steps + more;
        if !last.Delivered? { return; }
        assert items[projected..][1..] == items[projected + 1..];
        assert items[..projected + 1] == items[..projected] + [items[projected]];
        projected := projected + 1;
      }
      PlayMore(before, steps, Check(id));
      steps := steps + [Check(id)];
    }
  }
}
