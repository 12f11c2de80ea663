/**
 The ordered, at-least-once projection of the outbox into an event stream.

 Any number of projector instances share one stream and one acknowledgement table. Each await
 point of `project_once` is a step here, so instances interleave freely, may fail at any
 point and may stop and restart with nothing remembered.
 */
module Projector {

  /** How many stream entries one read of the scan returns. */
  const SCAN_PAGE: nat := 1000

  /** Where an instance stands inside `project_once`. */
  datatype Phase =
    | Idle
    | Scanning(after: nat, best: nat, waiting: seq<nat>)   // reading the stream, then on to `waiting`
    | Ready                                              // floor known, page not yet loaded
    | Working(items: seq<nat>)                             // next: the first item
    | Cleared(items: seq<nat>)                             // rescanned for the first item; check it again
    | Appended(item: nat, rest: seq<nat>)                  // durable in the stream, not yet acknowledged

  datatype Instance = Instance(floorKnown: bool, floor: nat, phase: Phase)

  const FRESH: Instance := Instance(false, 0, Idle)

  /** Source events are numbered 1..published; the stream holds source numbers in append order. */
  datatype World = World(published: nat, acked: set<nat>, stream: seq<nat>, instances: map<nat, Instance>)

  const START: World := World(0, {}, [], map[])

  datatype Step =
    | Publish
    | Begin(id: nat)
    | ReadPage(id: nat)
    | Load(id: nat, page: seq<nat>)
    | Check(id: nat)
    | Acknowledge(id: nat)
    | Fail(id: nat)
    | Restart(id: nat)

  function Of(w: World, id: nat): Instance {
    if id in w.instances then w.instances[id] else FRESH
  }

  function Put(w: World, id: nat, x: Instance): World {
    w.(instances := w.instances[id := x])
  }

  function Max(a: nat, b: nat): nat {
    if a < b then b else a
  }

  function MaxIn(q: seq<nat>): (m: nat)
    ensures forall i :: 0 <= i < |q| ==> q[i] <= m
    ensures m == 0 || m in q
  {
    if q == [] then 0 else Max(MaxIn(q[..|q| - 1]), q[|q| - 1])
  }

  /** One read of the scan: up to a page of entries after the cursor. */
  function Page(stream: seq<nat>, after: nat): seq<nat> {
    if |stream| <= after then [] else if |stream| <= after + SCAN_PAGE then stream[after..]
        else stream[after..after + SCAN_PAGE]
  }

  predicate HasMore(stream: seq<nat>, after: nat) {
    after + SCAN_PAGE < |stream|
  }

  predicate Increasing(q: seq<nat>) {
    forall i, j :: 0 <= i < j < |q| ==> q[i] < q[j]
  }

  /** What the store may hand out: published, not acknowledged; deferred rows may be missing. */
  predicate Loadable(w: World, page: seq<nat>) {
    Increasing(page) && forall i :: 0 <= i < |page| ==> 1 <= page[i] <= w.published && page[i] !in w.acked
  }

  /** The scan reached the end of the stream: the floor is known, and the waiting item is checked again. */
  function Scanned(x: Instance, best: nat, waiting: seq<nat>): Instance {
    if !x.floorKnown then Instance(true, best, Ready)
    else Instance(true, Max(x.floor, best), Cleared(waiting))
  }

  /** Append the first item if it leaves no gap, otherwise rescan once, and give up after that. */
  function Examine(w: World, id: nat, x: Instance): World {
    match x.phase
    case Working(items) =>
      if items == [] then Put(w, id, x.(phase := Idle))
      else if items[0] > x.floor + 1 then Put(w, id, x.(phase := Scanning(0, 0, items)))
      else Put(w.(stream := w.stream + [items[0]]), id, x.(phase := Appended(items[0], items[1..])))
    case Cleared(items) =>
      if items == [] || items[0] > x.floor + 1 then Put(w, id, x.(phase := Idle))
      else Put(w.(stream := w.stream + [items[0]]), id, x.(phase := Appended(items[0], items[1..])))
    case _ => w
  }

  function Next(w: World, step: Step): World {
    match step
    case Publish => w.(published := w.published + 1)
    case Begin(id) =>
      var x := Of(w, id);
      if !x.phase.Idle? then w
      else Put(w, id, x.(phase := if x.floorKnown then Ready else Scanning(0, 0, [])))
    case ReadPage(id) =>
      var x := Of(w, id);
      if !x.phase.Scanning? then w
      else
        var page := Page(w.stream, x.phase.after);
        var best := Max(x.phase.best, MaxIn(page));
        if HasMore(w.stream, x.phase.after)
            then Put(w, id, x.(phase := Scanning(x.phase.after + |page|, best, x.phase.waiting)))
        else Put(w, id, Scanned(x, best, x.phase.waiting))
    case Load(id, page) =>
      var x := Of(w, id);
      if !x.phase.Ready? || !Loadable(w, page) then w else Put(w, id, x.(phase := Working(page)))
    case Check(id) => Examine(w, id, Of(w, id))
    case Acknowledge(id) =>
      var x := Of(w, id);
      if !x.phase.Appended? then w
      else
        Put(w.(acked := w.acked + {x.phase.item}), id,
            Instance(x.floorKnown, Max(x.floor, x.phase.item), Working(x.phase.rest)))
    case Fail(id) => Put(w, id, Of(w, id).(phase := Idle))
    case Restart(id) => Put(w, id, FRESH)
  }

  function Play(w: World, steps: seq<Step>): World {
    if steps == [] then w else Next(Play(w, steps[..|steps| - 1]), steps[|steps| - 1])
  }

  // --- Order -------------------------------------------------------------------------------------

  /** Whatever is in the stream was preceded by everything smaller. */
  ghost predicate Ordered(stream: seq<nat>) {
    forall i, q :: 0 <= i < |stream| && 1 <= q < stream[i] ==> q in stream[..i]
  }

  /** A floor never claims more than the stream holds. */
  predicate FloorOk(stream: seq<nat>, floor: nat) {
    floor == 0 || floor in stream
  }

  predicate InstanceOk(w: World, x: Instance) {
    && FloorOk(w.stream, x.floor)
    && (x.phase.Scanning? ==> x.phase.after <= |w.stream| && FloorOk(w.stream, x.phase.best))
    && (x.phase.Working? ==> ItemsOk(w, x.phase.items))
    && (x.phase.Cleared? ==> ItemsOk(w, x.phase.items))
    && (x.phase.Scanning? ==> ItemsOk(w, x.phase.waiting))
    && (x.phase.Appended? ==> x.phase.item in w.stream && ItemsOk(w, x.phase.rest))
  }

  predicate ItemsOk(w: World, items: seq<nat>) {
    forall i :: 0 <= i < |items| ==> 1 <= items[i] <= w.published
  }

  ghost predicate Inv(w: World) {
    && Ordered(w.stream)
    && (forall i :: 0 <= i < |w.stream| ==> 1 <= w.stream[i] <= w.published)
    && (forall s :: s in w.acked ==> s in w.stream)
    && (forall id :: id in w.instances ==> InstanceOk(w, w.instances[id]))
  }

  /** Below a floor the stream has no hole. */
  lemma BelowFloor(stream: seq<nat>, floor: nat, q: nat)
    requires Ordered(stream) && FloorOk(stream, floor) && 1 <= q <= floor
    ensures q in stream
  {
    var i :| 0 <= i < |stream| && stream[i] == floor;
    if q < floor { assert q in stream[..i]; }
  }

  lemma AppendOrdered(stream: seq<nat>, floor: nat, s: nat)
    requires Ordered(stream) && FloorOk(stream, floor) && s <= floor + 1
    ensures Ordered(stream + [s])
  {
    var longer := stream + [s];
    forall i, q | 0 <= i < |longer| && 1 <= q < longer[i] ensures q in longer[..i] {
      if i < |stream| {
        assert longer[..i] == stream[..i];
      } else {
        BelowFloor(stream, floor, q);
        assert longer[..i] == stream;
      }
    }
  }

  /** Instances stay sound when the world only grows. */
  lemma Grows(w: World, w': World, x: Instance)
    requires InstanceOk(w, x) && w.published <= w'.published && w.stream <= w'.stream
    ensures InstanceOk(w', x)
  {
    assert forall v :: v in w.stream ==> v in w'.stream;
  }

  lemma PutKeeps(w: World, w': World, id: nat, x: Instance)
    requires Inv(w) && w.published <= w'.published && w.stream <= w'.stream && w'.instances == w.instances
    requires Ordered(w'.stream) && (forall i :: 0 <= i < |w'.stream| ==> 1 <= w'.stream[i] <= w'.published)
    requires forall s :: s in w'.acked ==> s in w'.stream
    requires InstanceOk(w', x)
    ensures Inv(Put(w', id, x))
  {
    hide InstanceOk, Ordered;
    var put := Put(w', id, x);
    forall k | k in put.instances ensures InstanceOk(put, put.instances[k]) {
      if k == id { SameWorld(w', put, x); } else { Grows(w, put, w.instances[k]); }
    }
  }

  lemma SameWorld(w: World, w': World, x: Instance)
    requires InstanceOk(w, x) && w'.published == w.published && w'.stream == w.stream
    ensures InstanceOk(w', x)
  { }

  lemma PageBest(stream: seq<nat>, after: nat, best: nat)
    requires FloorOk(stream, best)
    ensures FloorOk(stream, Max(best, MaxIn(Page(stream, after))))
  { }

  lemma ExamineKeeps(w: World, id: nat)
    requires Inv(w)
    ensures Inv(Next(w, Check(id)))
  {
    var x := Of(w, id);
    assert InstanceOk(w, x);
    if (x.phase.Working? || x.phase.Cleared?) && x.phase.items != [] && x.phase.items[0] <= x.floor + 1 {
      var s, w' := x.phase.items[0], w.(stream := w.stream + [x.phase.items[0]]);
      AppendOrdered(w.stream, x.floor, s);
      Grows(w, w', x);
      PutKeeps(w, w', id, x.(phase := Appended(s, x.phase.items[1..])));
    } else if x.phase.Working? {
      PutKeeps(w, w, id, if x.phase.items == [] then x.(phase := Idle) else x.(phase := Scanning(0, 0, x.phase.items)));
    } else if x.phase.Cleared? {
      PutKeeps(w, w, id, x.(phase := Idle));
    }
  }

  lemma ReadKeeps(w: World, id: nat)
    requires Inv(w)
    ensures Inv(Next(w, ReadPage(id)))
  {
    var x := Of(w, id);
    assert InstanceOk(w, x);
    if x.phase.Scanning? {
      hide Ordered;
      var page := Page(w.stream, x.phase.after);
      PageBest(w.stream, x.phase.after, x.phase.best);
      var best := Max(x.phase.best, MaxIn(page));
      PutKeeps(w, w, id, if HasMore(w.stream, x.phase.after)
               then x.(phase := Scanning(x.phase.after + |page|, best, x.phase.waiting))
                         else Scanned(x, best, x.phase.waiting));
    }
  }

  lemma NextKeeps(w: World, step: Step)
    requires Inv(w)
    ensures Inv(Next(w, step))
  {
    hide Ordered;
    match step
    case Publish =>
      forall k | k in w.instances ensures InstanceOk(Next(w, step), w.instances[k]) {
        Grows(w, Next(w, step), w.instances[k]);
      }
    case Begin(id) => assert InstanceOk(w, Of(w, id)); PutKeeps(w, w, id,
                                                                Of(w, id).(phase := if Of(w, id).floorKnown then Ready
                                                                      else Scanning(0, 0, [])));
    case ReadPage(id) => ReadKeeps(w, id);
    case Load(id, page) => assert InstanceOk(w, Of(w, id)); if Loadable(w, page) {
        PutKeeps(w, w, id, Of(w, id).(phase := Working(page)));
      }
    case Check(id) => ExamineKeeps(w, id);
    case Acknowledge(id) => AcknowledgeKeeps(w, id);
    case Fail(id) => assert InstanceOk(w, Of(w, id)); PutKeeps(w, w, id, Of(w, id).(phase := Idle));
    case Restart(id) => PutKeeps(w, w, id, FRESH);
  }

  lemma AcknowledgeKeeps(w: World, id: nat)
    requires Inv(w)
    ensures Inv(Next(w, Acknowledge(id)))
  {
    hide Ordered;
    var x := Of(w, id);
    assert InstanceOk(w, x);
    if x.phase.Appended? {
      PutKeeps(w, w.(acked := w.acked + {x.phase.item}), id,
               Instance(x.floorKnown, Max(x.floor, x.phase.item), Working(x.phase.rest)));
    }
  }

  lemma {:induction false} PlayKeeps(w: World, steps: seq<Step>)
    requires Inv(w)
    ensures Inv(Play(w, steps))
  {
    hide Inv, Next;
    if steps == [] {
    } else {
      PlayKeeps(w, steps[..|steps| - 1]);
      NextKeeps(Play(w, steps[..|steps| - 1]), steps[|steps| - 1]);
    }
  }

  // --- What consumers see ------------------------------------------------------------------------

  function Numbers(k: nat): (q: seq<nat>)
    ensures |q| == k && forall i :: 0 <= i < k ==> q[i] == i + 1
  {
    if k == 0 then [] else Numbers(k - 1) + [k]
  }

  /** The stream with later repetitions dropped. */
  function Firsts(stream: seq<nat>): seq<nat> {
    if stream == [] then []
    else
      var front, s := stream[..|stream| - 1], stream[|stream| - 1];
      if s in front then Firsts(front) else Firsts(front) + [s]
  }

  ghost predicate AllBelow(q: seq<nat>, s: nat) {
    forall x :: 1 <= x < s ==> x in q
  }

  lemma OrderedFront(stream: seq<nat>)
    requires stream != [] && Ordered(stream)
    ensures Ordered(stream[..|stream| - 1])
    ensures AllBelow(stream[..|stream| - 1], stream[|stream| - 1])
  {
    var front := stream[..|stream| - 1];
    forall i, q | 0 <= i < |front| && 1 <= q < front[i] ensures q in front[..i] {
      assert front[..i] == stream[..i];
      assert front[i] == stream[i];
    }
  }

  lemma {:induction false} FirstsInOrder(stream: seq<nat>)
    requires Ordered(stream) && forall i :: 0 <= i < |stream| ==> 1 <= stream[i]
    ensures Firsts(stream) == Numbers(MaxIn(stream))
  {
    if stream == [] {
    } else {
      var front, s := stream[..|stream| - 1], stream[|stream| - 1];
      OrderedFront(stream);
      FirstsInOrder(front);
      var m := MaxIn(front);
      if s !in front {
        NewIsNext(front, m, s);
      }
    }
  }

  /** A number that is new to an ordered stream is the next one. */
  lemma NewIsNext(front: seq<nat>, m: nat, s: nat)
    requires Ordered(front) && m == MaxIn(front) && 1 <= s && s !in front
    requires AllBelow(front, s)
    ensures s == m + 1
  {
    if s <= m {
      BelowFloor(front, m, s);
      assert false;
    }
    if m + 1 < s {
      BelowMax(front, m + 1);
      assert false;
    }
  }

  lemma BelowMax(q: seq<nat>, x: nat)
    requires x in q
    ensures x <= MaxIn(q)
  { }

  /**
   For every interleaving of instances, failures and restarts: the stream holds exactly the
   numbers 1..k, first occurrences stand in source order, nothing is ahead of the outbox, and
   whatever was acknowledged is in the stream.
   */
  lemma StreamIsInitialSegment(steps: seq<Step>)
    ensures var w := Play(START, steps); var k := MaxIn(w.stream);
            && (forall q :: q in w.stream <==> 1 <= q <= k)
            && Firsts(w.stream) == Numbers(k)
            && k <= w.published
            && (forall s :: s in w.acked ==> 1 <= s <= k)
  {
    hide Play;
    PlayKeeps(START, steps);
    var w := Play(START, steps);
    var k := MaxIn(w.stream);
    FirstsInOrder(w.stream);
    forall q | 1 <= q <= k ensures q in w.stream { BelowFloor(w.stream, k, q); }
  }

  /** Streams and acknowledgements only grow: what a consumer has read stays read. */
  lemma {:induction false} StreamGrows(w: World, steps: seq<Step>)
    ensures w.stream <= Play(w, steps).stream && w.acked <= Play(w, steps).acked
  {
    if steps == [] {
    } else {
      StreamGrows(w, steps[..|steps| - 1]);
    }
  }

  // --- Runs of the program's own loops -----------------------------------------------------------

  lemma {:induction false} PlayMore(w: World, steps: seq<Step>, step: Step)
    ensures Play(w, steps + [step]) == Next(Play(w, steps), step)
  {
    assert (steps + [step])[..|steps|] == steps;
  }

  lemma {:induction false} MaxInSplit(q: seq<nat>, k: nat)
    requires k <= |q|
    ensures MaxIn(q) == Max(MaxIn(q[..k]), MaxIn(q[k..]))
  {
    if k < |q| {
      MaxInSplit(q[..|q| - 1], k);
      assert q[..|q| - 1][..k] == q[..k];
      assert q[..|q| - 1][k..] == q[k..][..|q| - k - 1];
    } else {
      assert q[..k] == q && q[k..] == [];
    }
  }

  lemma PageExtends(stream: seq<nat>, after: nat)
    requires after <= |stream|
    ensures after + |Page(stream, after)| <= |stream|
    ensures MaxIn(stream[..after + |Page(stream, after)|]) == Max(MaxIn(stream[..after]), MaxIn(Page(stream, after)))
  {
    hide MaxIn;
    var next := after + |Page(stream, after)|;
    assert stream[..next][..after] == stream[..after];
    assert stream[..next][after..] == Page(stream, after);
    MaxInSplit(stream[..next], after);
  }

  lemma PageEnds(stream: seq<nat>, after: nat)
    requires after <= |stream|
    ensures Page(stream, after) == [] ==> after == |stream|
    ensures !HasMore(stream, after) ==> after + |Page(stream, after)| == |stream|
  { }

  /** Raise the floor over the entries of one page. */
  method RaiseFloor(start: nat, page: seq<nat>) returns (floor: nat)
    ensures floor == Max(start, MaxIn(page))
  {
    floor := start;
    for i := 0 to |page|
      invariant floor == Max(start, MaxIn(page[..i]))
    {
      assert page[..i + 1][..i] == page[..i];
      floor := Max(floor, page[i]);
    }
    assert page[..|page|] == page;
  }

  lemma NothingSeen(stream: seq<nat>)
    ensures MaxIn(stream[..0]) == 0
  { }

  /** How many reads a scan of a stream of this length takes, as steps of the instance. */
  ghost function Reads(id: nat, n: nat): seq<Step> {
    if n <= SCAN_PAGE then [ReadPage(id)] else [ReadPage(id)] + Reads(id, n - SCAN_PAGE)
  }

  lemma {:induction false} PlayBoth(w: World, steps: seq<Step>, more: seq<Step>)
    ensures Play(w, steps + more) == Play(Play(w, steps), more)
  {
    if more == [] {
      assert steps + [] == steps;
    } else {
      var n := |more| - 1;
      PlayBoth(w, steps, more[..n]);
      assert (steps + more)[..|steps| + n] == steps + more[..n];
    }
  }

  lemma PlayOne(w: World, step: Step)
    ensures Play(w, [step]) == Next(w, step)
  {
    assert [step][..0] == [];
    assert Play(w, []) == w;
  }

  /** The reads of one undisturbed scan, as the step system takes them. */
  lemma {:induction false} ScanPlays(w: World, id: nat)
    requires Of(w, id).phase.Scanning? && Of(w, id).phase.after <= |w.stream|
    requires Of(w, id).phase.best == MaxIn(w.stream[..Of(w, id).phase.after])
    ensures var x := Of(w, id);
            Play(w, Reads(id, |w.stream| - x.phase.after)) == Put(w, id, Scanned(x, MaxIn(w.stream), x.phase.waiting))
    decreases |w.stream| - Of(w, id).phase.after
  {
    hide MaxIn, Play;
    var x := Of(w, id);
    var after, first := x.phase.after, Next(w, ReadPage(id));
    var rest := |w.stream| - after;
    PlayOne(w, ReadPage(id));
    PageExtends(w.stream, after);
    if HasMore(w.stream, after) {
      ScanPlays(first, id);
      PlayBoth(w, [ReadPage(id)], Reads(id, rest - SCAN_PAGE));
      PutTwice(w, id, Of(first, id), Scanned(x, MaxIn(w.stream), x.phase.waiting));
    } else {
      PageEnds(w.stream, after);
      assert w.stream[..|w.stream|] == w.stream;
    }
  }

  lemma PutTwice(w: World, id: nat, x: Instance, y: Instance)
    ensures Put(Put(w, id, x), id, y) == Put(w, id, y)
  { }

  lemma LoadPlays(w: World, before: World, id: nat, items: seq<nat>)
    requires Loadable(before, items) && w.published == before.published && w.acked == before.acked
             && Of(w, id).phase.Ready?
    ensures Next(w, Load(id, items)) == Put(w, id, Of(w, id).(phase := Working(items)))
  { }
}
