/** The store's iterative tree walks, proved against the recursive definitions of `Forest`. */
module TreeWalks {
  import opened AgentTypes
  import opened Forest

  datatype Walk = Missing | Cyclic | Listed(order: seq<Id>)

  function Members(q: seq<Id>): set<Id> {
    set x | x in q
  }

  // --- Breadth first -----------------------------------------------------------------------------

  /** Every entry but the first hangs below an entry that was taken from the queue before it. */
  predicate ParentTaken(ws: Workers, taken: seq<Id>, all: seq<Id>, j: nat)
    requires 0 < j < |all| && |taken| <= |all|
  {
    && all[j] in ws && ws[all[j]].parent.Some?
    && exists k :: 0 <= k < |taken| && k < j && taken[k] == ws[all[j]].parent.value
  }

  /** Only the root can be met twice. */
  ghost predicate OnlyRootRecurs(root: Id, all: seq<Id>) {
    forall i, j :: 0 <= i < j < |all| && all[i] == all[j] ==> all[j] == root
  }

  /** The state of the walk: what was taken, and what waits. */
  ghost predicate WalkState(ws: Workers, root: Id, taken: seq<Id>, queue: seq<Id>) {
    var all := taken + queue;
    && all != [] && all[0] == root && root in ws
    && Distinct(taken)
    && OnlyRootRecurs(root, all)
    && (forall j :: 0 < j < |all| ==> ParentTaken(ws, taken, all, j))
    && (forall x, c :: x in taken && c in ws && ws[c].parent == Some(x) ==> c in all[1..])
  }

  lemma StateParent(ws: Workers, root: Id, taken: seq<Id>, queue: seq<Id>, j: nat)
    requires WalkState(ws, root, taken, queue) && j < |taken + queue|
    ensures j == 0 ==> (taken + queue)[j] == root
    ensures j > 0 ==>
              && (taken + queue)[j] in ws && ws[(taken + queue)[j]].parent.Some?
              && ws[(taken + queue)[j]].parent.value in taken
  {
    if j > 0 { assert ParentTaken(ws, taken, taken + queue, j); }
  }

  /** A child of the worker taken now was not met before, unless it is the root. */
  lemma ChildrenNew(ws: Workers, root: Id, taken: seq<Id>, queue: seq<Id>, x: Id, i: nat)
    requires WalkState(ws, root, taken, [x] + queue) && x !in taken && i < |taken + ([x] + queue)|
    requires (taken + ([x] + queue))[i] in Children(ws, x)
    ensures (taken + ([x] + queue))[i] == root
  {
    hide WalkState, Children;
    ChildIff(ws, x, (taken + ([x] + queue))[i]);
    StateParent(ws, root, taken, [x] + queue, i);
  }

  lemma TakeNext(ws: Workers, root: Id, taken: seq<Id>, queue: seq<Id>, x: Id)
    requires WalkState(ws, root, taken, [x] + queue) && x !in taken
    ensures WalkState(ws, root, taken + [x], queue + Children(ws, x))
  {
    hide Children, Distinct;
    var kids := Children(ws, x);
    var before, taken' := taken + ([x] + queue), taken + [x];
    var all := taken' + (queue + kids);
    assert all == before + kids;
    OneMore(taken, x);
    forall j | 0 < j < |all| ensures ParentTaken(ws, taken', all, j) { ParentsTaken(ws, root, taken, queue, x, j); }
    forall i, j | 0 <= i < j < |all| && all[i] == all[j] ensures all[j] == root {
      if j >= |before| {
        if i < |before| { ChildrenNew(ws, root, taken, queue, x, i); }
        else { KidsDiffer(ws, x, i - |before|, j - |before|); }
      }
    }
    forall y, c | y in taken' && c in ws && ws[c].parent == Some(y) ensures c in all[1..] {
      if y in taken { assert c in before[1..]; AfterFirst(before, kids, c); }
      else { ChildIff(ws, x, c); LateMember(before, kids, c); }
    }
  }

  lemma OneMore(q: seq<Id>, x: Id)
    requires Distinct(q) && x !in q
    ensures Distinct(q + [x])
  { }

  lemma KidsDiffer(ws: Workers, x: Id, i: nat, j: nat)
    requires i < j < |Children(ws, x)|
    ensures Children(ws, x)[i] != Children(ws, x)[j]
  {
    ChildrenDistinct(ws, x);
  }

  lemma AfterFirst(p: seq<Id>, q: seq<Id>, c: Id)
    requires p != [] && c in p[1..]
    ensures c in (p + q)[1..]
  {
    assert (p + q)[1..] == p[1..] + q;
  }

  lemma LateMember(p: seq<Id>, q: seq<Id>, c: Id)
    requires p != [] && c in q
    ensures c in (p + q)[1..]
  {
    assert (p + q)[1..] == p[1..] + q;
  }

  lemma ParentsTaken(ws: Workers, root: Id, taken: seq<Id>, queue: seq<Id>, x: Id, j: nat)
    requires WalkState(ws, root, taken, [x] + queue) && x !in taken && 0 < j < |taken + [x] + queue + Children(ws, x)|
    ensures ParentTaken(ws, taken + [x], taken + [x] + (queue + Children(ws, x)), j)
  {
    hide Children;
    var before, kids := taken + ([x] + queue), Children(ws, x);
    var all := taken + [x] + (queue + kids);
    assert all == before + kids;
    if j < |before| {
      assert ParentTaken(ws, taken, before, j);
      var k :| 0 <= k < |taken| && k < j && taken[k] == ws[before[j]].parent.value;
      assert (taken + [x])[k] == taken[k];
    } else {
      ChildIff(ws, x, kids[j - |before|]);
      assert kids[j - |before|] in kids;
      assert (taken + [x])[|taken|] == x;
    }
  }

  /** No finite tree hangs below this worker. */
  ghost predicate NoTree(ws: Workers, root: Id) {
    forall t :: Shape(ws, t) ==> t.id != root
  }

  lemma {:induction false} KidIsSmaller(t: Tree, i: nat)
    requires i < |t.kids|
    ensures |Post(t.kids[i])| < |Post(t)|
  {
    KidsAddUp(t.kids, i);
  }

  lemma {:induction false} KidsAddUp(ts: seq<Tree>, i: nat)
    requires i < |ts|
    ensures |Post(ts[i])| <= |PostAll(ts)|
  {
    if i > 0 { KidsAddUp(ts[1..], i - 1); }
  }

  /** The part of a tree below one of its workers. */
  lemma {:induction false} SubtreeAt(ws: Workers, t: Tree, p: Id) returns (u: Tree)
    requires Shape(ws, t) && p in Post(t)
    ensures Shape(ws, u) && u.id == p && |Post(u)| <= |Post(t)|
    decreases t
  {
    hide Post, Shape;
    PostMember(t, p);
    if p == t.id {
      u := t;
    } else {
      var i :| 0 <= i < |t.kids| && p in Post(t.kids[i]);
      ShapeKid(ws, t, i);
      KidIsSmaller(t, i);
      u := SubtreeAt(ws, t.kids[i], p);
    }
  }

  /** A finite tree never contains the parent of its own root. */
  lemma ParentNotBelow(ws: Workers, t: Tree, p: Id)
    requires Shape(ws, t) && t.id in ws && ws[t.id].parent == Some(p)
    ensures p !in Post(t)
  {
    hide Post, Shape;
    if p in Post(t) {
      var u := SubtreeAt(ws, t, p);
      var i := ChildIsKid(ws, u, t.id);
      ShapeKid(ws, u, i);
      ShapeUnique(ws, u.kids[i], t);
      KidIsSmaller(u, i);
      assert false;
    }
  }

  lemma {:induction false} TakenInTree(ws: Workers, root: Id, taken: seq<Id>, queue: seq<Id>, t: Tree, j: nat)
    requires WalkState(ws, root, taken, queue) && Shape(ws, t) && t.id == root && j < |taken + queue|
    ensures (taken + queue)[j] in Post(t)
  {
    var all := taken + queue;
    PostMember(t, root);
    hide Post, Shape, Children, Distinct;
    if j > 0 {
      assert ParentTaken(ws, taken, all, j);
      var k :| 0 <= k < |taken| && k < j && taken[k] == ws[all[j]].parent.value;
      assert all[k] == taken[k];
      TakenInTree(ws, root, taken, queue, t, k);
      PostClosed(ws, t, taken[k], all[j]);
    }
  }

  /** Meeting a worker twice means that the walk came back to the root from below. */
  lemma RepeatIsRoot(ws: Workers, root: Id, taken: seq<Id>, queue: seq<Id>, x: Id)
    requires WalkState(ws, root, taken, [x] + queue) && x in taken
    ensures x == root && root in ws && ws[root].parent.Some? && ws[root].parent.value in taken
  {
    var all := taken + ([x] + queue);
    var i :| 0 <= i < |taken| && taken[i] == x;
    assert all[i] == x && all[|taken|] == x;
    StateParent(ws, root, taken, [x] + queue, |taken|);
  }

  lemma RepeatMeansNoTree(ws: Workers, root: Id, taken: seq<Id>, queue: seq<Id>, x: Id)
    requires WalkState(ws, root, taken, [x] + queue) && x in taken
    ensures NoTree(ws, root)
  {
    RepeatIsRoot(ws, root, taken, queue, x);
    hide WalkState, Shape, Post;
    var p := ws[root].parent.value;
    var k :| 0 <= k < |taken| && taken[k] == p;
    forall t | Shape(ws, t) && t.id == root ensures false {
      assert (taken + ([x] + queue))[k] == p;
      TakenInTree(ws, root, taken, [x] + queue, t, k);
      ParentNotBelow(ws, t, p);
    }
  }

  lemma NoTreeMeansCycle(ws: Workers, root: Id)
    requires root in ws && NoTree(ws, root)
    ensures !Acyclic(ws)
  {
    hide Acyclic, Shape;
    if Acyclic(ws) {
      SubtreeShape(ws, root);
      assert false;
    }
  }

  /** What a finished walk guarantees: each worker of the subtree once, parents first. */
  ghost predicate Topology(ws: Workers, root: Id, order: seq<Id>) {
    && order != [] && order[0] == root && Distinct(order)
    && IsSubtree(ws, root, Members(order))
    && (forall j :: 0 < j < |order| ==>
        order[j] in ws && ws[order[j]].parent.Some? && ListedBefore(order, j, ws[order[j]].parent.value))
    && (root in ws && ws[root].parent.Some? ==> ws[root].parent.value !in order)
  }

  lemma FirstOnce(q: seq<Id>)
    requires q != [] && Distinct(q)
    ensures q[0] !in q[1..]
  {
    assert forall k :: 0 <= k < |q[1..]| ==> q[1..][k] == q[k + 1];
  }

  lemma WalkParents(ws: Workers, root: Id, taken: seq<Id>, j: nat)
    requires WalkState(ws, root, taken, []) && 0 < j < |taken|
    ensures taken[j] in ws && ws[taken[j]].parent.Some? && ListedBefore(taken, j, ws[taken[j]].parent.value)
    ensures ws[taken[j]].parent.value in taken
  {
    assert taken + [] == taken;
    assert ParentTaken(ws, taken, taken, j);
  }

  lemma WalkClosed(ws: Workers, root: Id, taken: seq<Id>, x: Id, c: Id)
    requires WalkState(ws, root, taken, []) && x in taken && c in ws && ws[c].parent == Some(x)
    ensures c in taken && c != root
  {
    hide Children, ParentTaken;
    assert taken + [] == taken;
    assert c in taken[1..];
    FirstOnce(taken);
  }

  lemma WalkDone(ws: Workers, root: Id, taken: seq<Id>)
    requires WalkState(ws, root, taken, [])
    ensures Topology(ws, root, taken)
  {
    WalkRoot(ws, root, taken);
    hide WalkState, ListedBefore;
    forall j | 0 < j < |taken|
      ensures taken[j] in ws && ws[taken[j]].parent.Some? && ListedBefore(taken, j, ws[taken[j]].parent.value)
    {
      WalkParents(ws, root, taken, j);
    }
    forall x | x in Members(taken)
      ensures x in ws && (x != root ==> ws[x].parent.Some? && ws[x].parent.value in Members(taken))
    {
      var k :| 0 <= k < |taken| && taken[k] == x;
      if k > 0 { WalkParents(ws, root, taken, k); }
    }
    forall c | c in ws && ws[c].parent.Some? && ws[c].parent.value in Members(taken)
      ensures c in Members(taken) && c != root
    {
      WalkClosed(ws, root, taken, ws[c].parent.value, c);
    }
  }

  lemma WalkRoot(ws: Workers, root: Id, taken: seq<Id>)
    requires WalkState(ws, root, taken, [])
    ensures taken != [] && taken[0] == root && root in ws && Distinct(taken)
  {
    assert taken + [] == taken;
  }

  lemma WalkStarts(ws: Workers, root: Id)
    requires root in ws
    ensures WalkState(ws, root, [], [root]) && Members([]) == {}
  {
    assert [] + [root] == [root];
  }

  lemma NextKnown(ws: Workers, root: Id, taken: seq<Id>, queue: seq<Id>)
    requires WalkState(ws, root, taken, queue) && queue != []
    ensures queue[0] in ws
  {
    var all := taken + queue;
    assert all[|taken|] == queue[0];
    if |taken| > 0 { assert ParentTaken(ws, taken, all, |taken|); }
  }

  lemma HeadRepeats(ws: Workers, root: Id, taken: seq<Id>, queue: seq<Id>)
    requires WalkState(ws, root, taken, queue) && queue != [] && queue[0] in Members(taken)
    ensures NoTree(ws, root)
  {
    hide WalkState, NoTree;
    assert queue == [queue[0]] + queue[1..];
    RepeatMeansNoTree(ws, root, taken, queue[1..], queue[0]);
  }

  lemma HeadTaken(ws: Workers, root: Id, taken: seq<Id>, queue: seq<Id>)
    requires WalkState(ws, root, taken, queue) && queue != [] && queue[0] !in Members(taken)
    ensures queue[0] in ws
    ensures WalkState(ws, root, taken + [queue[0]], queue[1..] + Children(ws, queue[0]))
    ensures Members(taken + [queue[0]]) == Members(taken) + {queue[0]}
  {
    NextKnown(ws, root, taken, queue);
    hide WalkState;
    assert queue == [queue[0]] + queue[1..];
    TakeNext(ws, root, taken, queue[1..], queue[0]);
  }

  /** `topology_from_workers`: breadth first from the root, giving up at the first worker met twice. */
  method TopologyFromWorkers(ws: Workers, root: Id) returns (out: Walk)
    ensures out.Missing? <==> root !in ws
    ensures out.Listed? ==> Topology(ws, root, out.order)
    ensures out.Cyclic? ==> NoTree(ws, root)
  {
    if root !in ws { return Missing; }
    hide WalkState, Topology, NoTree, Children, Members;
    var children := map x | x in ws.Keys :: Children(ws, x);
    var selected: seq<Id> := [];
    var seen: set<Id> := {};
    var queue := [root];
    WalkStarts(ws, root);
    while queue != []
      invariant WalkState(ws, root, selected, queue)
      invariant seen == Members(selected) && seen <= ws.Keys
      decreases ws.Keys - seen
    {
      var id := queue[0];
      if id in seen {
        HeadRepeats(ws, root, selected, queue);
        return Cyclic;
      }
      HeadTaken(ws, root, selected, queue);
      seen := seen + {id};
      selected := selected + [id];
      queue := queue[1..] + children[id];
    }
    WalkDone(ws, root, selected);
    return Listed(selected);
  }

  // --- A listed topology is a finite tree --------------------------------------------------------

  /** The member of `s` listed first. */
  lemma FirstOf(order: seq<Id>, s: set<Id>) returns (k: nat)
    requires s != {} && s <= Members(order)
    ensures k < |order| && order[k] in s && forall i :: 0 <= i < k ==> order[i] !in s
  {
    var x :| x in s;
    k := 0;
    while order[k] !in s
      invariant k < |order| && forall i :: 0 <= i < k ==> order[i] !in s
      invariant x in order
      decreases |order| - k
    {
      assert k + 1 < |order| by {
        var m :| 0 <= m < |order| && order[m] == x;
      }
      k := k + 1;
    }
  }

  lemma TopologyGrounded(ws: Workers, root: Id, order: seq<Id>)
    requires Topology(ws, root, order)
    ensures Grounded(ws, Members(order))
  {
    hide IsSubtree, Distinct;
    forall s: set<Id> | s <= Members(order) && s != {} ensures exists w :: w in s && Escapes(ws, s, w) {
      var k := FirstOf(order, s);
      assert Escapes(ws, s, order[k]);
    }
  }

  /** The walk's own check makes the subtree a finite tree, even where other workers form cycles. */
  lemma TopologyIsTree(ws: Workers, root: Id, order: seq<Id>)
    requires Topology(ws, root, order)
    ensures Shape(ws, Subtree(ws, root)) && Subtree(ws, root).id == root && root in Members(order)
  {
    TopologyGrounded(ws, root, order);
    hide Grounded, ListedBefore, Distinct;
    BuildShape(ws, Members(order), [root], ws.Keys);
  }

  // --- Postorder with an explicit stack ----------------------------------------------------------

  /** What a stack entry still has to contribute. */
  datatype Frame = Visit(tree: Tree) | Finish(id: Id)

  function Entry(f: Frame): (Id, bool) {
    match f
    case Visit(t) => (t.id, false)
    case Finish(x) => (x, true)
  }

  function Owes(f: Frame): seq<Id> {
    match f
    case Visit(t) => Post(t)
    case Finish(x) => [x]
  }

  /** Everything the stack still has to emit, its top first. */
  function Remaining(frames: seq<Frame>): seq<Id> {
    if frames == [] then [] else Owes(frames[|frames| - 1]) + Remaining(frames[..|frames| - 1])
  }

  function Weight(f: Frame): nat {
    match f
    case Visit(t) => 2 * |Post(t)|
    case Finish(_) => 1
  }

  function Work(frames: seq<Frame>): nat {
    if frames == [] then 0 else Weight(frames[|frames| - 1]) + Work(frames[..|frames| - 1])
  }

  ghost predicate Mirrors(ws: Workers, stack: seq<(Id, bool)>, frames: seq<Frame>) {
    && |stack| == |frames|
    && (forall i :: 0 <= i < |frames| ==> stack[i] == Entry(frames[i]))
    && (forall i :: 0 <= i < |frames| && frames[i].Visit? ==> Shape(ws, frames[i].tree))
  }

  lemma PushFrame(frames: seq<Frame>, f: Frame)
    ensures Remaining(frames + [f]) == Owes(f) + Remaining(frames)
    ensures Work(frames + [f]) == Weight(f) + Work(frames)
  {
    assert (frames + [f])[..|frames|] == frames;
  }

  lemma MirrorsPush(ws: Workers, stack: seq<(Id, bool)>, frames: seq<Frame>, f: Frame)
    requires Mirrors(ws, stack, frames) && (f.Visit? ==> Shape(ws, f.tree))
    ensures Mirrors(ws, stack + [Entry(f)], frames + [f])
  { }

  lemma MirrorsPop(ws: Workers, stack: seq<(Id, bool)>, frames: seq<Frame>)
    requires Mirrors(ws, stack, frames) && frames != []
    ensures Mirrors(ws, stack[..|stack| - 1], frames[..|frames| - 1])
    ensures stack[|stack| - 1] == Entry(frames[|frames| - 1])
    ensures frames[|frames| - 1].Visit? ==> Shape(ws, frames[|frames| - 1].tree)
  { }

  /** Pushing the children from last to first owes their subtrees in order. */
  method PushChildren(ws: Workers, stack: seq<(Id, bool)>, children: seq<Id>, ghost frames: seq<Frame>, ghost t: Tree)
    returns (pushed: seq<(Id, bool)>, ghost frames': seq<Frame>)
    requires Shape(ws, t) && children == Children(ws, t.id) && Mirrors(ws, stack, frames)
    ensures Mirrors(ws, pushed, frames')
    ensures forall i :: 0 <= i < |frames'| && frames'[i].Visit? ==>
              frames'[i] in frames || frames'[i].tree.id in children
    ensures Remaining(frames') == PostAll(t.kids) + Remaining(frames)
    ensures Work(frames') == 2 * |PostAll(t.kids)| + Work(frames)
  {
    hide Mirrors, Remaining, Work, Children;
    pushed, frames' := stack, frames;
    var k := |children|;
    ShapeKids(ws, t);
    assert t.kids[k..] == [];
    assert [] + Remaining(frames) == Remaining(frames);
    while k > 0
      invariant 0 <= k <= |children| == |t.kids|
      invariant Mirrors(ws, pushed, frames')
      invariant forall i :: 0 <= i < |frames'| && frames'[i].Visit? ==>
                  frames'[i] in frames || frames'[i].tree.id in children
      invariant Remaining(frames') == PostAll(t.kids[k..]) + Remaining(frames)
      invariant Work(frames') == 2 * |PostAll(t.kids[k..])| + Work(frames)
    {
      k := k - 1;
      ghost var f := Visit(t.kids[k]);
      PushFrame(frames', f);
      MirrorsPush(ws, pushed, frames', f);
      assert t.kids[k..] == [t.kids[k]] + t.kids[k + 1..];
      Regroup(t.kids[k], t.kids[k + 1..], Remaining(frames));
      pushed, frames' := pushed + [(children[k], false)], frames' + [f];
    }
    assert t.kids[0..] == t.kids;
  }

  lemma ShapeKids(ws: Workers, t: Tree)
    requires Shape(ws, t)
    ensures |t.kids| == |Children(ws, t.id)|
    ensures forall i :: 0 <= i < |t.kids| ==> t.kids[i].id == Children(ws, t.id)[i] && Shape(ws, t.kids[i])
  { }

  lemma Regroup(t: Tree, ts: seq<Tree>, rest: seq<Id>)
    ensures PostAll([t] + ts) + rest == Post(t) + (PostAll(ts) + rest)
    ensures |PostAll([t] + ts)| == |Post(t)| + |PostAll(ts)|
  {
    assert ([t] + ts)[1..] == ts;
  }

  function Restricted(ws: Workers, d: set<Id>): Workers {
    map x | x in ws && x in d :: ws[x]
  }

  lemma ChildrenWithin(ws: Workers, root: Id, d: set<Id>, x: Id)
    requires IsSubtree(ws, root, d) && x in d
    ensures Children(Restricted(ws, d), x) == Children(ws, x)
  {
    hide Children;
    ChildrenFrame(ws, Restricted(ws, d), x);
  }

  lemma StackStarts(ws: Workers, t: Tree)
    requires Shape(ws, t)
    ensures Mirrors(ws, [(t.id, false)], [Visit(t)]) && Remaining([Visit(t)]) == Post(t)
  {
    hide Post, Shape;
    PushFrame([], Visit(t));
    NothingOwed();
    assert [] + [Visit(t)] == [Visit(t)];
    assert Post(t) + [] == Post(t);
  }

  /** Popping a finished node emits it; popping an unvisited one leaves its children and itself owed. */
  lemma PopFrame(frames: seq<Frame>)
    requires frames != []
    ensures Remaining(frames) == Owes(frames[|frames| - 1]) + Remaining(frames[..|frames| - 1])
    ensures Work(frames) == Weight(frames[|frames| - 1]) + Work(frames[..|frames| - 1])
  { }

  lemma VisitOwes(t: Tree, rest: seq<Id>)
    ensures Post(t) + rest == PostAll(t.kids) + ([t.id] + rest) && |Post(t)| == |PostAll(t.kids)| + 1
  { }

  /** `subtree_postorder`: an explicit stack emits the recursive postorder of the sorted subtree. */
  method SubtreePostorder(ws: Workers, root: Id) returns (out: Walk)
    ensures out.Missing? <==> root !in ws
    ensures out.Cyclic? <==> root in ws && NoTree(ws, root)
    ensures out.Listed? ==> Shape(ws, Subtree(ws, root)) && out.order == Post(Subtree(ws, root))
  {
    hide Topology, Children, Members, Subtree, Post, Shape, Mirrors, Remaining, Work, Restricted, IsSubtree, NoTree;
    var topology := TopologyFromWorkers(ws, root);
    if !topology.Listed? { return topology; }
    TopologyIsTree(ws, root, topology.order);
    TreeExists(ws, Subtree(ws, root));
    var selected := Members(topology.order);
    var byId := Restricted(ws, selected);
    ghost var tree := Subtree(ws, root);
    var result: seq<Id> := [];
    var stack := [(root, false)];
    ghost var frames := [Visit(tree)];
    StackStarts(ws, tree);
    assert [] + Remaining(frames) == Remaining(frames);
    while stack != []
      invariant Mirrors(ws, stack, frames)
      invariant result + Remaining(frames) == Post(tree)
      invariant forall i :: 0 <= i < |frames| && frames[i].Visit? ==> frames[i].tree.id in selected
      decreases Work(frames)
    {
      MirrorsSize(ws, stack, frames);
      MirrorsPop(ws, stack, frames);
      PopFrame(frames);
      var id, expanded := stack[|stack| - 1].0, stack[|stack| - 1].1;
      ghost var top, below := frames[|frames| - 1], frames[..|frames| - 1];
      stack, frames := stack[..|stack| - 1], below;
      if expanded {
        Emits(result, id, Remaining(below));
        result := result + [id];
      } else {
        VisitOwes(top.tree, Remaining(below));
        PushFrame(below, Finish(id));
        MirrorsPush(ws, stack, below, Finish(id));
        stack, frames := stack + [(id, true)], below + [Finish(id)];
        SelectedChildren(ws, root, topology.order, id);
        stack, frames := PushChildren(ws, stack, Children(byId, id), frames, top.tree);
      }
    }
    MirrorsSize(ws, stack, frames);
    NothingOwed();
    assert result + [] == result;
    return Listed(result);
  }

  lemma TreeExists(ws: Workers, t: Tree)
    requires Shape(ws, t)
    ensures !NoTree(ws, t.id)
  { }

  lemma MirrorsSize(ws: Workers, stack: seq<(Id, bool)>, frames: seq<Frame>)
    requires Mirrors(ws, stack, frames)
    ensures |stack| == |frames|
  { }

  lemma NothingOwed()
    ensures Remaining([]) == []
  { }

  lemma Emits(result: seq<Id>, x: Id, rest: seq<Id>)
    ensures result + ([x] + rest) == (result + [x]) + rest
  { }

  lemma SelectedChildren(ws: Workers, root: Id, order: seq<Id>, x: Id)
    requires Topology(ws, root, order) && x in Members(order)
    ensures Children(Restricted(ws, Members(order)), x) == Children(ws, x)
    ensures forall c :: c in Children(ws, x) ==> c in Members(order)
  {
    hide Children, ListedBefore, Distinct;
    ChildrenWithin(ws, root, Members(order), x);
    forall c | c in Children(ws, x) ensures c in Members(order) { ChildIff(ws, x, c); }
  }

  // --- The cycle check of the audit --------------------------------------------------------------

  /** Each entry is the parent of the one before it. */
  ghost predicate Upward(ws: Workers, chain: seq<Id>) {
    forall i :: 0 <= i < |chain| - 1 ==> Up(ws, chain[i]) == Some(chain[i + 1])
  }

  function Up(ws: Workers, x: Id): Option<Id> {
    if x in ws then ws[x].parent else None
  }

  /** Following parents from `w` comes to an end. */
  ghost predicate Ends(ws: Workers, w: Id) {
    exists chain :: IsEnding(ws, w, chain)
  }

  ghost predicate IsEnding(ws: Workers, w: Id, chain: seq<Id>) {
    chain != [] && chain[0] == w && Upward(ws, chain) && Up(ws, chain[|chain| - 1]).None?
  }

  /** Along a walk that ends, some worker of `s` has its parent outside. */
  lemma {:induction false} WayOut(ws: Workers, s: set<Id>, chain: seq<Id>, i: nat) returns (y: Id)
    requires i < |chain| && chain[i] in s && Upward(ws, chain) && Up(ws, chain[|chain| - 1]).None?
    ensures y in s && Escapes(ws, s, y)
    decreases |chain| - i
  {
    y := chain[i];
    if !Escapes(ws, s, y) { y := WayOut(ws, s, chain, i + 1); }
  }

  /** Where every walk ends, no part of the workers can hold all of its own parents. */
  lemma AllEndMeansAcyclic(ws: Workers)
    requires forall w :: w in ws ==> Ends(ws, w)
    ensures Acyclic(ws)
  {
    forall s: set<Id> | s <= ws.Keys && s != {} ensures exists w :: w in s && Escapes(ws, s, w) {
      var w :| w in s;
      assert Ends(ws, w);
      var chain :| IsEnding(ws, w, chain);
      var y := WayOut(ws, s, chain, 0);
    }
  }

  /** A walk that meets a worker again has gone round a cycle. */
  lemma RoundMeansCycle(ws: Workers, chain: seq<Id>, k: nat)
    requires chain != [] && Upward(ws, chain) && k < |chain| && Up(ws, chain[|chain| - 1]) == Some(chain[k])
    ensures !Acyclic(ws)
  {
    var s := set i | k <= i < |chain| :: chain[i];
    assert chain[k] in s;
    forall y | y in s ensures y in ws && ws[y].parent.Some? && ws[y].parent.value in s {
      var i :| k <= i < |chain| && chain[i] == y;
      assert chain[if i == |chain| - 1 then k else i + 1] in s;
    }
    if Acyclic(ws) {
      NoClosedPart(ws, ws.Keys, s);
      assert false;
    }
  }

  lemma UpwardMore(ws: Workers, chain: seq<Id>, x: Id)
    requires Upward(ws, chain) && (chain != [] ==> Up(ws, chain[|chain| - 1]) == Some(x))
    ensures Upward(ws, chain + [x])
  { }

  /** `audit_topology`, for one worker: follow parents until they end or repeat. */
  method WalkUp(ws: Workers, w: Id) returns (ok: bool)
    ensures ok ==> Ends(ws, w)
    ensures !ok ==> !Acyclic(ws)
  {
    hide Acyclic, Upward;
    var seen: set<Id> := {};
    var cursor := Some(w);
    ghost var chain: seq<Id> := [];
    UpwardNone(ws);
    while cursor.Some?
      invariant seen == Members(chain) && Upward(ws, chain)
      invariant chain == [] ==> cursor == Some(w)
      invariant chain != [] ==> chain[0] == w && cursor == Up(ws, chain[|chain| - 1])
      decreases (ws.Keys + {w} + Parents(ws)) - seen
    {
      var id := cursor.value;
      if id in seen {
        ghost var k :| 0 <= k < |chain| && chain[k] == id;
        RoundMeansCycle(ws, chain, k);
        return false;
      }
      UpwardMore(ws, chain, id);
      seen := seen + {id};
      chain := chain + [id];
      cursor := Up(ws, id);
    }
    assert IsEnding(ws, w, chain);
    return true;
  }

  ghost function Parents(ws: Workers): set<Id> {
    set x | x in ws && ws[x].parent.Some? :: ws[x].parent.value
  }

  lemma UpwardNone(ws: Workers)
    ensures Upward(ws, [])
  { }

  /** `audit_topology`: accepts exactly the acyclic parent links. */
  method AuditTopology(ws: Workers) returns (ok: bool)
    ensures ok <==> Acyclic(ws)
  {
    hide Acyclic, Ends;
    var rest := ws.Keys;
    while rest != {}
      invariant rest <= ws.Keys
      invariant forall w :: w in ws && w !in rest ==> Ends(ws, w)
      decreases rest
    {
      var w :| w in rest;
      var ends := WalkUp(ws, w);
      if !ends { return false; }
      rest := rest - {w};
    }
    AllEndMeansAcyclic(ws);
    return true;
  }
}
