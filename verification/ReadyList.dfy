// The ready lists of os_core.c as doubly linked control blocks, one list for each priority,
// and the bitmap of os_prio.c that says which of them are not empty.

module ReadyList {
  import opened Lists
  import opened PrioBits

  class Tcb {
    var next: Tcb?
    var prev: Tcb?
    var prio: nat
    var timeQuanta: nat
    var timeQuantaCtr: nat
  }

  ghost predicate ChainedAt(l: seq<Tcb>, i: nat)
    requires i < |l|
    reads Elements(l)`next, Elements(l)`prev
  {
    && l[i].next == (if i + 1 < |l| then l[i+1] else null)
    && l[i].prev == (if i > 0 then l[i-1] else null)
  }

  ghost predicate Chained(l: seq<Tcb>)
    reads Elements(l)`next, Elements(l)`prev
  {
    Distinct(l) && forall i :: 0 <= i < |l| ==> ChainedAt(l, i)
  }

  // OS_RDY_LIST; l is what it means.
  class RdyList {
    var head: Tcb?
    var tail: Tcb?
    var nbr: nat
    ghost var l: seq<Tcb>

    constructor ()
      ensures Valid() && l == []
    {
      head, tail, nbr, l := null, null, 0, [];
    }

    ghost predicate Valid()
      reads this, Elements(l)`next, Elements(l)`prev
    {
      && Chained(l) && nbr == |l|
      && head == (if l == [] then null else l[0])
      && tail == (if l == [] then null else l[|l|-1])
    }

    method InsertHead(t: Tcb)
      requires Valid() && t !in l
      modifies this, t`next, t`prev, Elements(l)`prev
      ensures Valid() && l == [t] + old(l)
    {
      if nbr == 0 {
        nbr := 1;
        t.next, t.prev := null, null;
        head, tail := t, t;
      } else {
        assert ChainedAt(l, 0) && l[0] in l;
        nbr := nbr + 1;
        t.next := head;
        t.prev := null;
        var t2 := head;
        t2.prev := t;
        head := t;
      }
      ghost var l0 := l;
      l := [t] + l;
      assert forall i :: 0 < i < |l| ==> l[i] == l0[i-1];
      forall i | 0 <= i < |l|
        ensures ChainedAt(l, i)
      {
        if i > 0 { assert old(ChainedAt(l, i - 1)); }
      }
    }

    method InsertTail(t: Tcb)
      requires Valid() && t !in l
      modifies this, t`next, t`prev, Elements(l)`next
      ensures Valid() && l == old(l) + [t]
    {
      if nbr == 0 {
        nbr := 1;
        t.next, t.prev := null, null;
        head, tail := t, t;
      } else {
        assert ChainedAt(l, |l| - 1) && l[|l|-1] in l;
        nbr := nbr + 1;
        t.next := null;
        var t2 := tail;
        t.prev := t2;
        t2.next := t;
        tail := t;
      }
      ghost var l0 := l;
      l := l + [t];
      forall i | 0 <= i < |l|
        ensures ChainedAt(l, i)
      {
        if i < |l0| { assert l[i] == l0[i] && old(ChainedAt(l, i)); }
      }
    }

    // OS_RdyListRemove but for the bitmap; tells whether the list is empty now.
    method Remove(t: Tcb) returns (empty: bool)
      requires Valid() && t in l
      modifies this, Elements(l)`next, Elements(l)`prev
      ensures Valid() && l == Without(old(l), t)
      ensures empty <==> l == []
      ensures t.next == null && t.prev == null
    {
      ghost var p :| 0 <= p < |l| && l[p] == t;
      WithoutIsRemoveAt(l, p);
      hide Without;
      empty := RemoveEntry(t, p);
    }

    method RemoveEntry(t: Tcb, ghost p: nat) returns (empty: bool)
      requires Valid() && p < |l| && l[p] == t
      modifies this, Elements(l)`next, Elements(l)`prev
      ensures Valid() && l == RemoveAt(old(l), p)
      ensures empty <==> l == []
      ensures t.next == null && t.prev == null
    {
      Neighbours(l, p);
      Ends(l, p);
      hide RemoveAt, Distinct, ChainedAt;
      ghost var l' := RemoveAt(l, p);
      empty := Shorten(t.prev, t.next);
      Unlink(t, l, p);
      l := l';
    }

    // What removing the entry between t1 and t2 does to the list head.
    method Shorten(t1: Tcb?, t2: Tcb?) returns (empty: bool)
      requires nbr > 0 && (t1 == null && t2 == null ==> nbr == 1)
      modifies `head, `tail, `nbr
      ensures nbr == old(nbr) - 1 && empty == (t1 == null && t2 == null)
      ensures head == (if t1 == null then t2 else old(head)) && tail == if t2 == null then t1 else old(tail)
    {
      empty := false;
      if t1 == null {
        if t2 == null {
          nbr := 0;
          head, tail := null, null;
          empty := true;
        } else {
          nbr := nbr - 1;
          head := t2;
        }
      } else {
        nbr := nbr - 1;
        if t2 == null { tail := t1; }
      }
    }

    // A rotation, whatever the length; nothing for fewer than two.
    method MoveHeadToTail()
      requires Valid()
      modifies this, Elements(l)`next, Elements(l)`prev
      ensures Valid() && l == if |old(l)| < 2 then old(l) else old(l)[1..] + [old(l)[0]]
    {
      ghost var l0 := l;
      if nbr == 2 {
        Neighbours(l, 0);
        var t1, t2 := head, tail;
        Swap(t1, t2, l);
        head, tail := t2, t1;
      } else if nbr > 2 {
        Neighbours(l, 0);
        var t1, t2 := head, tail;
        var t3 := t1.next;
        ToTail(t1, t2, t3, l);
        head, tail := t3, t1;
      }
      l := Rotated(l);
      hide Chained;
      assert |l| >= 2 ==> forall i :: 0 <= i < |l| ==> l[i] == if i + 1 < |l| then l0[i+1] else l0[0];
    }
  }

  function Rotated<T>(l: seq<T>): seq<T> {
    if |l| < 2 then l else l[1..] + [l[0]]
  }

  ghost function Solo(t: Tcb?): set<Tcb> {
    if t == null then {} else {t}
  }

  lemma Neighbours(l: seq<Tcb>, p: nat)
    requires Chained(l) && p < |l|
    ensures l[p].prev == (if p > 0 then l[p-1] else null) && l[p].next == (if p + 1 < |l| then l[p+1] else null)
    ensures l[p] in l && Solo(l[p].prev) <= Elements(l) && Solo(l[p].next) <= Elements(l)
  {
    assert ChainedAt(l, p);
  }

  // The ends of a list after one removal.
  lemma Ends(l: seq<Tcb>, p: nat)
    requires p < |l|
    ensures var r := RemoveAt(l, p);
      && |r| == |l| - 1
      && (|l| > 1 ==>
           r[0] == (if p == 0 then l[1] else l[0]) && r[|r|-1] == if p == |l| - 1 then l[|l|-2] else l[|l|-1])
  {
  }

  method Unlink(t: Tcb, ghost l: seq<Tcb>, ghost p: nat)
    requires Chained(l) && p < |l| && l[p] == t
    modifies t`next, t`prev, Solo(t.prev)`next, Solo(t.next)`prev
    ensures Chained(RemoveAt(l, p)) && t.next == null && t.prev == null
  {
    Neighbours(l, p);
    var t1, t2 := t.prev, t.next;
    if t1 != null { t1.next := t2; }
    if t2 != null { t2.prev := t1; }
    t.prev, t.next := null, null;
    ghost var l' := RemoveAt(l, p);
    assert forall i :: 0 <= i < |l'| ==> l'[i] == if i < p then l[i] else l[i+1];
    forall i | 0 <= i < |l'|
      ensures ChainedAt(l', i)
    {
      if i < p { assert old(ChainedAt(l, i)); } else { assert old(ChainedAt(l, i + 1)); }
    }
  }

  method Swap(t1: Tcb, t2: Tcb, ghost l: seq<Tcb>)
    requires Chained(l) && |l| == 2 && l[0] == t1 && l[1] == t2
    modifies t1`next, t1`prev, t2`next, t2`prev
    ensures Chained(Rotated(l))
  {
    t1.prev := t2;
    t1.next := null;
    t2.prev := null;
    t2.next := t1;
    assert Rotated(l) == [t2, t1];
  }

  method ToTail(t1: Tcb, t2: Tcb, t3: Tcb, ghost l: seq<Tcb>)
    requires Chained(l) && |l| > 2 && l[0] == t1 && l[|l|-1] == t2 && l[1] == t3
    modifies t1`next, t1`prev, t2`next, t3`prev
    ensures Chained(Rotated(l))
  {
    t3.prev := null;
    t1.next := null;
    t1.prev := t2;
    t2.next := t1;
    ghost var l' := Rotated(l);
    assert forall i :: 0 <= i < |l| ==> l'[i] == if i + 1 < |l| then l[i+1] else l[0];
    forall i | 0 <= i < |l|
      ensures ChainedAt(l', i)
    {
      assert old(ChainedAt(l, if i + 1 < |l| then i + 1 else 0));
    }
  }

  // ---------------------------------------------------------------- the bitmap

  // OSPrioTbl, for any number of priorities.
  class PrioTable {
    const tbl: array<bv32>

    // OS_PrioInit.
    constructor (prioMax: nat)
      requires prioMax > 0
      ensures tbl.Length == (prioMax - 1) / 32 + 1 && fresh(tbl)
      ensures Marks() == {}
    {
      tbl := new bv32[(prioMax - 1) / 32 + 1];
      new;
      var i := 0;
      while i < tbl.Length
        invariant i <= tbl.Length && forall j :: 0 <= j < i ==> tbl[j] == 0
      {
        tbl[i] := 0;
        i := i + 1;
      }
      forall p | 0 <= p < 32 * tbl.Length
        ensures !IsSet(tbl[p / 32], BitOf(p % 32))
      {
        NoneInZero(BitOf(p % 32));
      }
    }

    // The priorities whose bit is set.
    ghost function Marks(): set<nat>
      reads tbl
    {
      set p: nat | p < 32 * tbl.Length && IsSet(tbl[p / 32], BitOf(p % 32))
    }

    method SetBitIn(ix: nat, bitNbr: nat)
      requires ix < tbl.Length && bitNbr < 32
      modifies tbl
      ensures tbl[..] == old(tbl[..])[ix := SetBit(old(tbl[ix]), BitOf(bitNbr))]
    {
      var bit := Mask(BitOf(bitNbr));
      tbl[ix] := tbl[ix] | bit;
    }

    method ClearBitIn(ix: nat, bitNbr: nat)
      requires ix < tbl.Length && bitNbr < 32
      modifies tbl
      ensures tbl[..] == old(tbl[..])[ix := ClearBit(old(tbl[ix]), BitOf(bitNbr))]
    {
      var bit := Mask(BitOf(bitNbr));
      tbl[ix] := tbl[ix] & !bit;
    }

    // OS_PrioInsert.
    method Insert(prio: nat)
      requires prio < 32 * tbl.Length
      modifies tbl
      ensures Marks() == old(Marks()) + {prio}
    {
      var ix := prio / 32;
      ghost var w := tbl[ix];
      hide IsSet, SetBit;
      SetBitIn(ix, prio % 32);
      forall q: nat | q < 32 * tbl.Length
        ensures IsSet(tbl[q / 32], BitOf(q % 32)) <==> q == prio || old(IsSet(tbl[q / 32], BitOf(q % 32)))
      {
        assert tbl[q / 32] == tbl[..][q / 32] && old(tbl[q / 32]) == old(tbl[..])[q / 32];
        if q / 32 == ix {
          SetOne(w, BitOf(prio % 32), BitOf(q % 32));
          BitsDiffer(q % 32, prio % 32);
        }
      }
    }

    // OS_PrioRemove.
    method Remove(prio: nat)
      requires prio < 32 * tbl.Length
      modifies tbl
      ensures Marks() == old(Marks()) - {prio}
    {
      var ix := prio / 32;
      ghost var w := tbl[ix];
      hide IsSet, ClearBit;
      ClearBitIn(ix, prio % 32);
      forall q: nat | q < 32 * tbl.Length
        ensures IsSet(tbl[q / 32], BitOf(q % 32)) <==> q != prio && old(IsSet(tbl[q / 32], BitOf(q % 32)))
      {
        assert tbl[q / 32] == tbl[..][q / 32] && old(tbl[q / 32]) == old(tbl[..])[q / 32];
        if q / 32 == ix {
          ClearOne(w, BitOf(prio % 32), BitOf(q % 32));
          BitsDiffer(q % 32, prio % 32);
        }
      }
    }

    // OS_PrioGetHighest ends, and finds the least priority with a bit set.
    method GetHighest() returns (prio: nat)
      requires Marks() != {}
      ensures prio in Marks() && forall q :: q in Marks() ==> prio <= q
    {
      ghost var some :| some in Marks();
      prio := 0;
      var i := 0;
      while tbl[i] == 0
        invariant i <= some / 32 && prio == 32 * i
        invariant forall q :: q in Marks() ==> 32 * i <= q
        decreases tbl.Length - i
      {
        forall q | q in Marks()
          ensures 32 * i + 32 <= q
        {
          NoneInZero(BitOf(q % 32));
          assert q / 32 != i;
        }
        prio := prio + 32;
        i := i + 1;
      }
      ZeroWord(tbl[i]);
      var n := CntLeadZeros(tbl[i]);
      forall q | q in Marks()
        ensures 32 * i + n <= q
      {
        if q / 32 == i { assert IsSet(tbl[i], BitOf(q % 32)); }
      }
      prio := prio + n;
      assert prio / 32 == i && prio % 32 == n;
    }
  }
}
