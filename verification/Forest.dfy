/**
 Worker trees: the reference definition of a subtree and of its sorted postorder,
 and the facts about them that freezing and draining a subtree rely on.
 */
module Forest {
  import opened AgentTypes
  import O = Ordering

  type Workers = map<Id, Worker>

  datatype Tree = Node(id: Id, kids: seq<Tree>)

  /** The children of `x`, oldest first, ties broken by identifier. */
  function Children(ws: Workers, x: Id): seq<Id> {
    O.Ids(O.Sort(ChildRows(ws, x)))
  }

  function ChildRows(ws: Workers, x: Id): set<O.Row> {
    set w | w in ws && ws[w].parent == Some(x) :: O.Row(ws[w].createdAt, 0, w)
  }

  lemma ChildIff(ws: Workers, x: Id, c: Id)
    ensures c in Children(ws, x) <==> c in ws && ws[c].parent == Some(x)
  {
    O.KeyedMember(ChildRows(ws, x), c);
    if c in ws && ws[c].parent == Some(x) {
      assert O.Row(ws[c].createdAt, 0, c) in ChildRows(ws, x);
    }
  }

  lemma ChildrenDistinct(ws: Workers, x: Id)
    ensures Distinct(Children(ws, x))
  {
    O.KeyedIds(ChildRows(ws, x));
  }

  /** `t` is the whole subtree of `t.id`, children in order. */
  predicate Shape(ws: Workers, t: Tree) {
    && t.id in ws
    && |t.kids| == |Children(ws, t.id)|
    && forall i :: 0 <= i < |t.kids| ==> t.kids[i].id == Children(ws, t.id)[i] && Shape(ws, t.kids[i])
  }

  /** Recursive postorder: every child's subtree, then the node itself. */
  function Post(t: Tree): seq<Id>
    decreases t, 1
  {
    PostAll(t.kids) + [t.id]
  }

  function PostAll(ts: seq<Tree>): seq<Id>
    decreases ts, 0
  {
    if ts == [] then [] else Post(ts[0]) + PostAll(ts[1..])
  }

  /** The subtree of `x`, cut where a worker outside `avail` recurs. */
  function Build(ws: Workers, x: Id, avail: set<Id>): (t: Tree)
    ensures t.id == x
    decreases |avail|, 0
  {
    if x !in avail then Node(x, []) else Node(x, BuildAll(ws, Children(ws, x), avail - {x}))
  }

  function BuildAll(ws: Workers, xs: seq<Id>, avail: set<Id>): (ts: seq<Tree>)
    ensures |ts| == |xs| && forall i :: 0 <= i < |xs| ==> ts[i] == Build(ws, xs[i], avail)
    decreases |avail|, 1 + |xs|
  {
    if xs == [] then [] else [Build(ws, xs[0], avail)] + BuildAll(ws, xs[1..], avail)
  }

  function Subtree(ws: Workers, root: Id): Tree {
    Build(ws, root, ws.Keys)
  }

  // --- Acyclic parent links ----------------------------------------------------------------------

  predicate Escapes(ws: Workers, s: set<Id>, w: Id) {
    w in ws ==> ws[w].parent.None? || ws[w].parent.value !in s
  }

  /** No nonempty part of `d` has all of its parents inside itself. */
  ghost predicate Grounded(ws: Workers, d: set<Id>) {
    forall s: set<Id> :: s <= d && s != {} ==> exists w :: w in s && Escapes(ws, s, w)
  }

  ghost predicate Acyclic(ws: Workers) {
    Grounded(ws, ws.Keys)
  }

  ghost predicate ClosedUnderChildren(ws: Workers, d: set<Id>) {
    forall c :: c in ws && ws[c].parent.Some? && ws[c].parent.value in d ==> c in d
  }

  /** `d` is the subtree of `root`: its least set closed under children. */
  ghost predicate IsSubtree(ws: Workers, root: Id, d: set<Id>) {
    && root in d && d <= ws.Keys
    && ClosedUnderChildren(ws, d)
    && forall x :: x in d && x != root ==> ws[x].parent.Some? && ws[x].parent.value in d
  }

  ghost predicate Distinct(q: seq<Id>) {
    forall i, j :: 0 <= i < j < |q| ==> q[i] != q[j]
  }

  /** A fresh worker under an existing parent (or none) keeps the links acyclic. */
  lemma AcyclicInsert(ws: Workers, c: Id, worker: Worker)
    requires Acyclic(ws) && c !in ws
    requires forall w :: w in ws ==> ws[w].parent != Some(c)
    requires worker.parent != Some(c)
    ensures Acyclic(ws[c := worker])
  {
    var ws' := ws[c := worker];
    forall s: set<Id> | s <= ws'.Keys && s != {}
      ensures exists w :: w in s && Escapes(ws', s, w)
    {
      if s == {c} {
        assert Escapes(ws', s, c);
      } else {
        assert s - {c} <= ws.Keys;
        assert s - {c} != {};
        var w :| w in s - {c} && Escapes(ws, s - {c}, w);
        assert Escapes(ws', s, w);
      }
    }
  }

  /** Parent links alone decide acyclicity. */
  lemma AcyclicFrame(ws: Workers, ws': Workers)
    requires Acyclic(ws) && ws'.Keys == ws.Keys
    requires forall w :: w in ws ==> ws'[w].parent == ws[w].parent
    ensures Acyclic(ws')
  {
    forall s: set<Id> | s <= ws'.Keys && s != {}
      ensures exists w :: w in s && Escapes(ws', s, w)
    {
      var w :| w in s && Escapes(ws, s, w);
      assert Escapes(ws', s, w);
    }
  }

  // --- Postorder ---------------------------------------------------------------------------------

  lemma {:induction false} PostAllMember(ts: seq<Tree>, x: Id)
    ensures x in PostAll(ts) <==> exists i :: 0 <= i < |ts| && x in Post(ts[i])
  {
    if ts == [] {
    } else {
      PostAllMember(ts[1..], x);
      assert forall i :: 1 <= i < |ts| ==> ts[i] == ts[1..][i - 1];
      if x in PostAll(ts[1..]) {
        var i :| 0 <= i < |ts[1..]| && x in Post(ts[1..][i]);
        assert x in Post(ts[i + 1]);
      }
    }
  }

  lemma PostMember(t: Tree, x: Id)
    ensures x in Post(t) <==> x == t.id || exists i :: 0 <= i < |t.kids| && x in Post(t.kids[i])
  {
    PostAllMember(t.kids, x);
  }

  lemma PostOfKid(t: Tree, i: nat, x: Id)
    requires i < |t.kids| && x in Post(t.kids[i])
    ensures x in Post(t)
  {
    PostMember(t, x);
  }

  lemma ShapeKid(ws: Workers, t: Tree, i: nat)
    requires Shape(ws, t) && i < |t.kids|
    ensures Shape(ws, t.kids[i])
    ensures t.kids[i].id in ws && ws[t.kids[i].id].parent == Some(t.id)
  {
    ChildIff(ws, t.id, t.kids[i].id);
    assert Children(ws, t.id)[i] == t.kids[i].id;
  }

  lemma ShapeKidsDistinct(ws: Workers, t: Tree)
    requires Shape(ws, t)
    ensures forall i, j :: 0 <= i < j < |t.kids| ==> t.kids[i].id != t.kids[j].id
  {
    ChildrenDistinct(ws, t.id);
  }

  /** Every child of the root is the root of one of the subtrees. */
  lemma ChildIsKid(ws: Workers, t: Tree, c: Id) returns (i: nat)
    requires Shape(ws, t) && c in ws && ws[c].parent == Some(t.id)
    ensures i < |t.kids| && t.kids[i].id == c
  {
    ChildIff(ws, t.id, c);
    i :| i < |t.kids| && Children(ws, t.id)[i] == c;
  }

  lemma {:induction false} PostInWorkers(ws: Workers, t: Tree, x: Id)
    requires Shape(ws, t) && x in Post(t)
    ensures x in ws
    ensures x != t.id ==> ws[x].parent.Some? && ws[x].parent.value in Post(t)
    decreases t
  {
    PostMember(t, x);
    if x != t.id {
      var i :| 0 <= i < |t.kids| && x in Post(t.kids[i]);
      ShapeKid(ws, t, i);
      PostInWorkers(ws, t.kids[i], x);
      if x != t.kids[i].id {
        PostOfKid(t, i, ws[x].parent.value);
      }
    }
  }

  lemma {:induction false} PostClosed(ws: Workers, t: Tree, x: Id, c: Id)
    requires Shape(ws, t) && x in Post(t) && c in ws && ws[c].parent == Some(x)
    ensures c in Post(t)
    decreases t
  {
    PostMember(t, x);
    if x == t.id {
      var i := ChildIsKid(ws, t, c);
      PostOfKid(t, i, c);
    } else {
      var i :| 0 <= i < |t.kids| && x in Post(t.kids[i]);
      PostClosed(ws, t.kids[i], x, c);
      PostOfKid(t, i, c);
    }
  }

  /** The postorder lists exactly the subtree. */
  lemma PostIsSubtree(ws: Workers, t: Tree)
    requires Shape(ws, t)
    ensures IsSubtree(ws, t.id, set x | x in Post(t))
  {
    hide Shape, Post;
    var d := set x | x in Post(t);
    PostMember(t, t.id);
    forall x | x in d ensures x in ws && (x != t.id ==> ws[x].parent.Some? && ws[x].parent.value in d) {
      PostInWorkers(ws, t, x);
    }
    forall c | c in ws && ws[c].parent.Some? && ws[c].parent.value in d ensures c in d {
      PostClosed(ws, t, ws[c].parent.value, c);
    }
  }

  ghost predicate ListedBefore(q: seq<Id>, i: nat, c: Id) {
    exists j :: 0 <= j < i <= |q| && q[j] == c
  }

  lemma ListedBeforeShift(p: seq<Id>, q: seq<Id>, r: seq<Id>, i: nat, c: Id)
    requires ListedBefore(q, i, c)
    ensures ListedBefore(p + q + r, |p| + i, c)
  {
    var j :| 0 <= j < i <= |q| && q[j] == c;
    assert (p + q + r)[|p| + j] == c;
  }

  /** In the postorder every child stands before its parent. */
  lemma {:induction false} ChildrenFirst(ws: Workers, t: Tree, i: nat, c: Id)
    requires Shape(ws, t) && i < |Post(t)| && c in ws && ws[c].parent == Some(Post(t)[i])
    ensures ListedBefore(Post(t), i, c)
    decreases t, 1
  {
    var below := PostAll(t.kids);
    assert Post(t) == [] + below + [t.id];
    if i == |below| {
      var k := ChildIsKid(ws, t, c);
      PostMember(t.kids[k], c);
      PostAllMember(t.kids, c);
      assert ListedBefore(below, i, c);
    } else {
      forall k | 0 <= k < |t.kids| ensures Shape(ws, t.kids[k]) { ShapeKid(ws, t, k); }
      ChildrenFirstAll(ws, t.kids, i, c);
    }
    ListedBeforeShift([], below, [t.id], i, c);
  }

  lemma {:induction false} ChildrenFirstAll(ws: Workers, ts: seq<Tree>, i: nat, c: Id)
    requires forall k :: 0 <= k < |ts| ==> Shape(ws, ts[k])
    requires i < |PostAll(ts)| && c in ws && ws[c].parent == Some(PostAll(ts)[i])
    ensures ListedBefore(PostAll(ts), i, c)
    decreases ts, 0
  {
    hide Shape, ListedBefore;
    var head, rest := Post(ts[0]), PostAll(ts[1..]);
    if i < |head| {
      ChildrenFirst(ws, ts[0], i, c);
      ListedBeforeShift([], head, rest, i, c);
      assert PostAll(ts) == [] + head + rest;
    } else {
      ChildrenFirstAll(ws, ts[1..], i - |head|, c);
      ListedBeforeShift(head, rest, [], i - |head|, c);
      assert PostAll(ts) == head + rest + [];
    }
  }

  /** No part of a grounded set is closed under taking parents. */
  lemma NoClosedPart(ws: Workers, d: set<Id>, s: set<Id>)
    requires Grounded(ws, d) && s <= d && d <= ws.Keys
    requires forall y :: y in s ==> ws[y].parent.Some? && ws[y].parent.value in s
    ensures s == {}
  {
    assert forall w :: w in s ==> !Escapes(ws, s, w);
  }

  /** A subtree never contains the parent of its root. */
  lemma RootParentOutside(ws: Workers, t: Tree)
    requires Acyclic(ws) && Shape(ws, t) && ws[t.id].parent.Some?
    ensures ws[t.id].parent.value !in Post(t)
  {
    hide Shape, Post, Grounded;
    var d := set x | x in Post(t);
    PostIsSubtree(ws, t);
    if ws[t.id].parent.value in d {
      NoClosedPart(ws, ws.Keys, d);
      assert false;
    }
  }

  /** The overlap of two sibling subtrees is closed under taking parents. */
  lemma OverlapClosed(ws: Workers, a: Tree, b: Tree, p: Id, y: Id)
    requires Acyclic(ws) && Shape(ws, a) && Shape(ws, b) && a.id != b.id
    requires ws[a.id].parent == Some(p) && ws[b.id].parent == Some(p)
    requires y in Post(a) && y in Post(b)
    ensures y in ws && ws[y].parent.Some?
    ensures ws[y].parent.value in Post(a) && ws[y].parent.value in Post(b)
  {
    hide Shape, Post, Grounded;
    PostInWorkers(ws, a, y);
    PostInWorkers(ws, b, y);
    RootParentOutside(ws, a);
    RootParentOutside(ws, b);
  }

  /** Subtrees of two different siblings are disjoint. */
  lemma SiblingsDisjoint(ws: Workers, a: Tree, b: Tree, p: Id, x: Id)
    requires Acyclic(ws) && Shape(ws, a) && Shape(ws, b) && a.id != b.id
    requires ws[a.id].parent == Some(p) && ws[b.id].parent == Some(p)
    ensures !(x in Post(a) && x in Post(b))
  {
    hide Shape, Post, Grounded;
    var s := set y | y in Post(a) && y in Post(b);
    forall y | y in s ensures y in ws && ws[y].parent.Some? && ws[y].parent.value in s {
      OverlapClosed(ws, a, b, p, y);
    }
    NoClosedPart(ws, ws.Keys, s);
    assert x !in s;
  }

  lemma DistinctConcat(p: seq<Id>, q: seq<Id>)
    requires Distinct(p) && Distinct(q) && forall x :: x in p ==> x !in q
    ensures Distinct(p + q)
  {
    forall i, j | 0 <= i < j < |p + q| ensures (p + q)[i] != (p + q)[j] {
      if i < |p| <= j {
        assert p[i] in p && q[j - |p|] in q;
      }
    }
  }

  /** On acyclic workers nobody is listed twice. */
  lemma {:induction false} PostDistinct(ws: Workers, t: Tree)
    requires Acyclic(ws) && Shape(ws, t)
    ensures Distinct(Post(t))
    decreases t, 1
  {
    hide Shape, Grounded, Distinct, PostAll;
    forall k | 0 <= k < |t.kids|
      ensures Shape(ws, t.kids[k]) && t.kids[k].id in ws
      ensures ws[t.kids[k].id].parent == Some(t.id) && t.id !in Post(t.kids[k])
    {
      ShapeKid(ws, t, k);
      RootParentOutside(ws, t.kids[k]);
    }
    ShapeKidsDistinct(ws, t);
    PostAllDistinct(ws, t.kids, t.id);
    PostAllMember(t.kids, t.id);
    OneIsDistinct(t.id);
    DistinctConcat(PostAll(t.kids), [t.id]);
  }

  lemma OneIsDistinct(x: Id)
    ensures Distinct([x])
  { }

  lemma {:induction false} PostAllDistinct(ws: Workers, ts: seq<Tree>, p: Id)
    requires Acyclic(ws)
    requires forall k :: 0 <= k < |ts| ==> Shape(ws, ts[k]) && ws[ts[k].id].parent == Some(p)
    requires forall i, j :: 0 <= i < j < |ts| ==> ts[i].id != ts[j].id
    ensures Distinct(PostAll(ts))
    decreases ts, 0
  {
    if ts == [] {
    } else {
      hide Shape, Grounded, Distinct, Post;
      PostDistinct(ws, ts[0]);
      PostAllDistinct(ws, ts[1..], p);
      forall x | x in Post(ts[0]) ensures x !in PostAll(ts[1..]) {
        PostAllMember(ts[1..], x);
        forall i | 0 <= i < |ts[1..]| ensures x !in Post(ts[1..][i]) {
          SiblingsDisjoint(ws, ts[0], ts[i + 1], p, x);
        }
      }
      DistinctConcat(Post(ts[0]), PostAll(ts[1..]));
    }
  }

  // --- The tree of a worker is unique, exists, and depends only on its own part ------------------

  lemma {:induction false} ShapeUnique(ws: Workers, t: Tree, u: Tree)
    requires Shape(ws, t) && Shape(ws, u) && t.id == u.id
    ensures t == u
    decreases t
  {
    forall i | 0 <= i < |t.kids| ensures t.kids[i] == u.kids[i] {
      ShapeUnique(ws, t.kids[i], u.kids[i]);
    }
    assert t.kids == u.kids;
  }

  lemma {:induction false} ShapeFrame(ws: Workers, ws': Workers, t: Tree)
    requires Shape(ws, t)
    requires forall x :: x in Post(t) ==> x in ws' && Children(ws', x) == Children(ws, x)
    ensures Shape(ws', t)
    decreases t
  {
    PostMember(t, t.id);
    forall i | 0 <= i < |t.kids| ensures Shape(ws', t.kids[i]) {
      forall x | x in Post(t.kids[i]) ensures x in Post(t) { PostOfKid(t, i, x); }
      ShapeFrame(ws, ws', t.kids[i]);
    }
  }

  /** Same children with the same ages give the same ordered list of children. */
  lemma ChildrenFrame(ws: Workers, ws': Workers, x: Id)
    requires forall c :: c in ws && ws[c].parent == Some(x) ==>
                           c in ws' && ws'[c].parent == Some(x) && ws'[c].createdAt == ws[c].createdAt
    requires forall c :: c in ws' && ws'[c].parent == Some(x) ==> c in ws && ws[c].parent == Some(x)
    ensures Children(ws', x) == Children(ws, x)
  {
    assert ChildRows(ws', x) == ChildRows(ws, x);
  }

  ghost predicate Path(ws: Workers, chain: seq<Id>) {
    forall i :: 0 < i < |chain| ==> chain[i] in ws && ws[chain[i]].parent == Some(chain[i - 1])
  }

  /** Where the links are grounded, building from `avail` never has to cut. */
  lemma {:induction false} BuildShape(ws: Workers, d: set<Id>, chain: seq<Id>, avail: set<Id>)
    requires d <= ws.Keys && Grounded(ws, d) && ClosedUnderChildren(ws, d)
    requires chain != [] && Path(ws, chain) && forall x :: x in chain ==> x in d
    requires forall x :: x in d ==> x in avail || x in chain[..|chain| - 1]
    requires chain[|chain| - 1] in avail
    ensures Shape(ws, Build(ws, chain[|chain| - 1], avail))
    decreases |avail|
  {
    hide Children, Grounded, Path;
    var x := chain[|chain| - 1];
    var t := Build(ws, x, avail);
    forall i | 0 <= i < |t.kids| ensures Shape(ws, t.kids[i]) && t.kids[i].id == Children(ws, x)[i] {
      var c := Children(ws, x)[i];
      ChildIff(ws, x, c);
      PathExtend(ws, d, chain, c);
      assert (chain + [c])[..|chain|] == chain;
      assert chain == chain[..|chain| - 1] + [x];
      BuildShape(ws, d, chain + [c], avail - {x});
    }
  }

  lemma PathExtend(ws: Workers, d: set<Id>, chain: seq<Id>, c: Id)
    requires d <= ws.Keys && Grounded(ws, d)
    requires chain != [] && Path(ws, chain) && forall x :: x in chain ==> x in d
    requires c in ws && ws[c].parent == Some(chain[|chain| - 1])
    ensures c !in chain && Path(ws, chain + [c])
  {
    forall k | 0 <= k < |chain| ensures chain[k] != c {
      if chain[k] == c {
        var s := set i | k <= i < |chain| :: chain[i];
        LoopClosed(ws, chain, k);
        assert chain[k] in s;
        NoClosedPart(ws, d, s);
        assert false;
      }
    }
  }

  lemma LoopClosed(ws: Workers, chain: seq<Id>, k: nat)
    requires k < |chain| && Path(ws, chain)
    requires chain[k] in ws && ws[chain[k]].parent == Some(chain[|chain| - 1])
    ensures var s := set i | k <= i < |chain| :: chain[i];
            forall y :: y in s ==> y in ws && ws[y].parent.Some? && ws[y].parent.value in s
  {
    var s := set i | k <= i < |chain| :: chain[i];
    forall y | y in s ensures y in ws && ws[y].parent.Some? && ws[y].parent.value in s {
      var i :| k <= i < |chain| && chain[i] == y;
      assert chain[if i == k then |chain| - 1 else i - 1] in s;
    }
  }

  /** Every worker of an acyclic forest has its full subtree. */
  lemma SubtreeShape(ws: Workers, root: Id)
    requires Acyclic(ws) && root in ws
    ensures Shape(ws, Subtree(ws, root)) && Subtree(ws, root).id == root
  {
    BuildShape(ws, ws.Keys, [root], ws.Keys);
  }
}
