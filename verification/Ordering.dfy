/**
 `ORDER BY` over a finite set of keys. Every query of the store sorts on at most
 two columns and ends in a unique identifier, so the answer is one sequence.
 */
module Ordering {

  datatype Row = Row(major: int, minor: int, id: nat)

  predicate Before(a: Row, b: Row) {
    || a.major < b.major
    || (a.major == b.major && a.minor < b.minor)
    || (a.major == b.major && a.minor == b.minor && a.id < b.id)
  }

  ghost predicate IsLeast(m: Row, s: set<Row>) {
    m in s && forall x :: x in s ==> x == m || Before(m, x)
  }

  lemma LeastExists(s: set<Row>)
    requires s != {}
    ensures exists m :: IsLeast(m, s)
  {
    var x :| x in s;
    if s - {x} == {} {
      assert s == {x};
      assert IsLeast(x, s);
    } else {
      LeastExists(s - {x});
      var m :| IsLeast(m, s - {x});
      var least := if Before(x, m) then x else m;
      assert forall y :: y in s ==> y == x || y in s - {x};
      assert IsLeast(least, s);
    }
  }

  function Least(s: set<Row>): (m: Row)
    requires s != {}
    ensures IsLeast(m, s)
  {
    LeastExists(s);
    var m :| m in s && forall x :: x in s ==> x == m || Before(m, x);
    m
  }

  predicate Sorted(q: seq<Row>) {
    forall i, j :: 0 <= i < j < |q| ==> Before(q[i], q[j])
  }

  function Sort(s: set<Row>): (q: seq<Row>)
    ensures Sorted(q) && |q| == |s|
    ensures forall x :: x in q <==> x in s
  {
    if s == {} then [] else [Least(s)] + Sort(s - {Least(s)})
  }

  /** The identifiers of a sorted answer. */
  function Ids(q: seq<Row>): (ids: seq<nat>)
    ensures |ids| == |q| && forall i :: 0 <= i < |q| ==> ids[i] == q[i].id
  {
    if q == [] then [] else [q[0].id] + Ids(q[1..])
  }

  /** The largest member, and zero for the empty set: SQL's COALESCE(MAX(..), 0). */
  function MaxOf(s: set<nat>): (m: nat)
    ensures forall x :: x in s ==> x <= m
    ensures m == 0 || m in s
  {
    if s == {} then 0 else
      var rows := set x | x in s :: Row(0 - x, 0, x);
      assert forall x :: x in s ==> Row(0 - x, 0, x) in rows;
      Least(rows).id
  }

  /** Rows keyed by their identifier: the answer names each identifier once. */
  lemma KeyedIds(rows: set<Row>)
    requires forall a, b :: a in rows && b in rows && a.id == b.id ==> a == b
    ensures forall i, j :: 0 <= i < j < |Ids(Sort(rows))| ==> Ids(Sort(rows))[i] != Ids(Sort(rows))[j]
  {
    var q := Sort(rows);
    forall i, j | 0 <= i < j < |q| ensures q[i].id != q[j].id {
      assert Before(q[i], q[j]);
      assert q[i] in rows && q[j] in rows;
    }
  }

  lemma KeyedMember(rows: set<Row>, x: nat)
    ensures x in Ids(Sort(rows)) <==> exists row :: row in rows && row.id == x
  {
    hide Sort, Ids, Sorted;
    var q := Sort(rows);
    if x in Ids(q) {
      var i :| 0 <= i < |q| && Ids(q)[i] == x;
      assert q[i] in rows;
    }
    if exists row :: row in rows && row.id == x {
      var row :| row in rows && row.id == x;
      assert row in q;
      var i :| 0 <= i < |q| && q[i] == row;
      assert Ids(q)[i] == x;
    }
  }
}
