/** Small facts about duplicate-free sequences and their sub-sequences. */
module Sequences {

  function Elems<T>(q: seq<T>): set<T> {
    set x | x in q
  }

  ghost predicate NoDup<T>(q: seq<T>) {
    forall i, j :: 0 <= i < j < |q| ==> q[i] != q[j]
  }

  /** The elements of `q` that are in `s`, in their original order. */
  function Keep<T(==)>(q: seq<T>, s: set<T>): seq<T> {
    if q == [] then []
    else if q[0] in s then [q[0]] + Keep(q[1..], s)
    else Keep(q[1..], s)
  }

  lemma {:induction false} KeepElems<T>(q: seq<T>, s: set<T>)
    ensures forall x :: x in Keep(q, s) <==> x in q && x in s
    ensures |Keep(q, s)| <= |q|
  {
    if q != [] {
      KeepElems(q[1..], s);
      assert q == [q[0]] + q[1..];
      assert forall x :: x in q <==> x == q[0] || x in q[1..];
      var k := Keep(q, s);
      assert forall x :: x in k <==> x in q && x in s;
    }
  }

  lemma KeepSet<T>(q: seq<T>, s: set<T>)
    ensures Elems(Keep(q, s)) == Elems(q) * s
  {
    KeepElems(q, s);
    var a, b := Elems(Keep(q, s)), Elems(q) * s;
    assert a <= b && b <= a;
  }

  lemma NoDupTail<T>(q: seq<T>)
    requires NoDup(q) && q != []
    ensures NoDup(q[1..]) && q[0] !in q[1..]
    ensures Elems(q[1..]) == Elems(q) - {q[0]}
  {
    assert q == [q[0]] + q[1..];
    forall x ensures x in q <==> x == q[0] || x in q[1..] {}
  }

  lemma NoDupSnoc<T>(q: seq<T>, x: T)
    requires NoDup(q) && x !in q
    ensures NoDup(q + [x]) && Elems(q + [x]) == Elems(q) + {x}
  {}

  lemma {:induction false} KeepNoDup<T>(q: seq<T>, s: set<T>)
    requires NoDup(q)
    ensures NoDup(Keep(q, s))
  {
    if q != [] {
      NoDupTail(q);
      KeepNoDup(q[1..], s);
      KeepElems(q[1..], s);
    }
  }
}
