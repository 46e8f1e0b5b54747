// Sequences as the meaning of linked lists.

module Lists {

  ghost predicate Distinct<T>(l: seq<T>) {
    forall i, j :: 0 <= i < j < |l| ==> l[i] != l[j]
  }

  function Elements<T(==)>(l: seq<T>): set<T> {
    set t | t in l
  }

  function InsertAt<T>(l: seq<T>, p: nat, t: T): (r: seq<T>)
    requires p <= |l|
  {
    l[..p] + [t] + l[p..]
  }

  function RemoveAt<T>(l: seq<T>, p: nat): seq<T>
    requires p < |l|
  {
    l[..p] + l[p+1..]
  }

  lemma TakeOneMore<T>(l: seq<T>, n: nat)
    requires n < |l|
    ensures l[..n] + [l[n]] == l[..n+1]
  {
  }

  // l with every occurrence of t left out, everything else in the old order.
  function Without<T(==)>(l: seq<T>, t: T): (r: seq<T>)
    ensures forall x | x in r :: x in l && x != t
    ensures forall x | x in l :: x != t ==> x in r
    ensures |r| <= |l|
    ensures t !in l ==> r == l
  {
    if l == [] then [] else if l[0] == t then Without(l[1..], t) else [l[0]] + Without(l[1..], t)
  }

  lemma InsertAtMembers<T>(l: seq<T>, p: nat, t: T)
    requires p <= |l|
    ensures forall x | x in l :: x in InsertAt(l, p, t)
    ensures forall x | x in InsertAt(l, p, t) :: x in l || x == t
    ensures t in InsertAt(l, p, t)
  {
    var r := InsertAt(l, p, t);
    assert r[p] == t;
    forall x | x in l
      ensures x in r
    {
      var i :| 0 <= i < |l| && l[i] == x;
      assert r[if i < p then i else i + 1] == x;
    }
  }

  lemma InsertAtDistinct<T>(l: seq<T>, p: nat, t: T)
    requires Distinct(l) && p <= |l| && t !in l
    ensures Distinct(InsertAt(l, p, t))
  {
  }

  lemma RemoveAtMembers<T>(l: seq<T>, p: nat)
    requires Distinct(l) && p < |l|
    ensures Elements(RemoveAt(l, p)) == Elements(l) - {l[p]}
    ensures Distinct(RemoveAt(l, p))
  {
    var r := RemoveAt(l, p);
    assert forall i :: 0 <= i < |r| ==> r[i] == if i < p then l[i] else l[i+1];
    forall x | x in l && x != l[p]
      ensures x in r
    {
      var i :| 0 <= i < |l| && l[i] == x;
      assert r[if i < p then i else i - 1] == x;
    }
  }

  lemma {:induction false} WithoutIsRemoveAt<T>(l: seq<T>, p: nat)
    requires Distinct(l) && p < |l|
    ensures Without(l, l[p]) == RemoveAt(l, p)
  {
    if p == 0 {
      assert l[0] !in l[1..];
    } else {
      WithoutIsRemoveAt(l[1..], p - 1);
      assert l[1..][..p-1] == l[1..p];
      assert RemoveAt(l, p) == [l[0]] + RemoveAt(l[1..], p - 1);
    }
  }

  lemma WithoutDistinct<T>(l: seq<T>, t: T)
    requires Distinct(l)
    ensures Distinct(Without(l, t))
  {
    if t in l {
      var p :| 0 <= p < |l| && l[p] == t;
      WithoutIsRemoveAt(l, p);
    }
  }

  lemma WithoutInserted<T>(l: seq<T>, p: nat, t: T)
    requires Distinct(l) && p <= |l| && t !in l
    ensures Without(InsertAt(l, p, t), t) == l
  {
    InsertAtDistinct(l, p, t);
    WithoutIsRemoveAt(InsertAt(l, p, t), p);
    assert RemoveAt(InsertAt(l, p, t), p) == l;
  }

  lemma {:induction false} DistinctSize<T>(l: seq<T>)
    requires Distinct(l)
    ensures |Elements(l)| == |l|
  {
    if l != [] {
      DistinctSize(l[1..]);
      assert Elements(l) == {l[0]} + Elements(l[1..]);
    }
  }
}
