// Pend lists as doubly linked OS_PEND_DATA entries, kept in order of priority in place
// (os_core.c: OS_PendListInsertPrio, OS_PendListRemove1, OS_PendListChangePrio).

module PendList {
  import opened Lists

  class Tcb {
    var prio: nat
  }

  // tcb and list stand for TCBPtr and PendObjPtr, which do not change while the entry is
  // linked.
  class PendData {
    const tcb: Tcb
    const list: PendList
    var next: PendData?
    var prev: PendData?

    constructor (tcb: Tcb, list: PendList)
      ensures this.tcb == tcb && this.list == list && next == null && prev == null
    {
      this.tcb, this.list, next, prev := tcb, list, null, null;
    }
  }

  type Prios = map<Tcb, nat>

  // prios tells the priorities of the tasks in l.
  ghost predicate Agrees(l: seq<PendData>, prios: Prios)
    reads set d | d in l :: d.tcb
  {
    forall d | d in l :: d.tcb in prios && prios[d.tcb] == d.tcb.prio
  }

  // ---------------------------------------------------------------- what a list means

  // The place for priority prio: in front of the first strictly less urgent entry.
  ghost function Pos(l: seq<PendData>, prios: Prios, prio: nat): (p: nat)
    ensures p <= |l|
    ensures forall i :: 0 <= i < p ==> !(l[i].tcb in prios && prio < prios[l[i].tcb])
    ensures p < |l| ==> l[p].tcb in prios && prio < prios[l[p].tcb]
  {
    if l == [] || (l[0].tcb in prios && prio < prios[l[0].tcb]) then 0 else 1 + Pos(l[1..], prios, prio)
  }

  ghost predicate Sorted(l: seq<PendData>, prios: Prios) {
    forall i, j :: 0 <= i < j < |l| && l[i].tcb in prios && l[j].tcb in prios ==> prios[l[i].tcb] <= prios[l[j].tcb]
  }

  // In front of an entry stand all those that are at least as urgent and were there before
  // it, and behind it all the less urgent ones: insertion is stable.
  lemma InsertedSorted(l: seq<PendData>, d: PendData, prios: Prios)
    requires Sorted(l, prios) && d.tcb in prios && forall x | x in l :: x.tcb in prios
    ensures Sorted(InsertAt(l, Pos(l, prios, prios[d.tcb]), d), prios)
  {
    hide Pos;
    var p := Pos(l, prios, prios[d.tcb]);
    var r := InsertAt(l, p, d);
    assert forall i :: 0 <= i < |l| ==> l[i] in l;
    forall i, j | 0 <= i < j < |r|
      ensures prios[r[i].tcb] <= prios[r[j].tcb]
    {
      assert r[i] == (if i < p then l[i] else if i == p then d else l[i-1]);
      assert r[j] == (if j < p then l[j] else if j == p then d else l[j-1]);
      if i == p && p + 1 < j { assert prios[l[p].tcb] <= prios[l[j-1].tcb]; }
    }
  }

  // ---------------------------------------------------------------- links

  ghost predicate ChainedAt(l: seq<PendData>, i: nat)
    requires i < |l|
    reads Elements(l)`next, Elements(l)`prev
  {
    && l[i].next == (if i + 1 < |l| then l[i+1] else null)
    && l[i].prev == (if i > 0 then l[i-1] else null)
  }

  ghost predicate Chained(l: seq<PendData>)
    reads Elements(l)`next, Elements(l)`prev
  {
    Distinct(l) && forall i :: 0 <= i < |l| ==> ChainedAt(l, i)
  }

  ghost function Solo(d: PendData?): set<PendData> {
    if d == null then {} else {d}
  }

  lemma Neighbours(l: seq<PendData>, p: nat)
    requires Chained(l) && p < |l|
    ensures l[p].prev == (if p > 0 then l[p-1] else null) && l[p].next == (if p + 1 < |l| then l[p+1] else null)
    ensures l[p] in l && Solo(l[p].prev) <= Elements(l) && Solo(l[p].next) <= Elements(l)
  {
    assert ChainedAt(l, p);
  }

  // Wire d in front of q, or behind last when q is null.
  method Wire(d: PendData, q: PendData?, last: PendData?, ghost l: seq<PendData>, ghost p: nat)
    requires Chained(l) && d !in l && p <= |l|
    requires q == (if p < |l| then l[p] else null) && last == if l == [] then null else l[|l|-1]
    modifies d`next, d`prev, Solo(q)`prev, (if p > 0 then {l[p-1]} else {})`next
    ensures Chained(InsertAt(l, p, d))
  {
    if p < |l| { Neighbours(l, p); }
    if p > 0 { Neighbours(l, p - 1); }
    if q == null {
      d.next := null;
      d.prev := last;
      if last != null { last.next := d; }
    } else if q.prev == null {
      q.prev := d;
      d.prev := null;
      d.next := q;
    } else {
      var before := q.prev;
      d.prev := before;
      d.next := q;
      before.next := d;
      q.prev := d;
    }
    ghost var r := InsertAt(l, p, d);
    assert forall i :: 0 <= i < |r| ==> r[i] == if i < p then l[i] else if i == p then d else l[i-1];
    InsertAtDistinct(l, p, d);
    forall i | 0 <= i < |r|
      ensures ChainedAt(r, i)
    {
      if i < p { assert old(ChainedAt(l, i)); }
      if i > p { assert old(ChainedAt(l, i - 1)); }
    }
  }

  method Unwire(d: PendData, ghost l: seq<PendData>, ghost p: nat)
    requires Chained(l) && p < |l| && l[p] == d
    modifies d`next, d`prev, Solo(d.prev)`next, Solo(d.next)`prev
    ensures Chained(RemoveAt(l, p)) && d.next == null && d.prev == null
  {
    Neighbours(l, p);
    var prev, next := d.prev, d.next;
    if prev != null { prev.next := next; }
    if next != null { next.prev := prev; }
    d.next, d.prev := null, null;
    ghost var r := RemoveAt(l, p);
    assert forall i :: 0 <= i < |r| ==> r[i] == if i < p then l[i] else l[i+1];
    forall i | 0 <= i < |r|
      ensures ChainedAt(r, i)
    {
      if i < p { assert old(ChainedAt(l, i)); } else { assert old(ChainedAt(l, i + 1)); }
    }
  }

  lemma InsertEnds(l: seq<PendData>, p: nat, d: PendData)
    requires p <= |l|
    ensures var r := InsertAt(l, p, d);
      |r| == |l| + 1 && r[0] == (if p == 0 then d else l[0]) && r[|l|] == if p == |l| then d else l[|l|-1]
  {
  }

  lemma RemoveEnds(l: seq<PendData>, p: nat)
    requires p < |l|
    ensures var r := RemoveAt(l, p);
      && |r| == |l| - 1
      && (|l| > 1 ==>
           r[0] == (if p == 0 then l[1] else l[0]) && r[|r|-1] == if p == |l| - 1 then l[|l|-2] else l[|l|-1])
  {
  }

  // ---------------------------------------------------------------- one list

  class PendList {
    var head: PendData?
    var tail: PendData?
    var nbrEntries: nat
    ghost var l: seq<PendData>

    // OS_PendListInit.
    constructor ()
      ensures Valid() && l == []
    {
      head, tail, nbrEntries, l := null, null, 0, [];
    }

    ghost predicate Valid()
      reads this, Elements(l)`next, Elements(l)`prev
    {
      && Chained(l) && nbrEntries == |l|
      && head == (if l == [] then null else l[0])
      && tail == (if l == [] then null else l[|l|-1])
    }

    // The search loop of OS_PendListInsertPrio.
    method Search(prio: nat, ghost prios: Prios) returns (q: PendData?, ghost p: nat)
      requires Valid() && Agrees(l, prios)
      ensures p == Pos(l, prios, prio) && p <= |l| && q == if p < |l| then l[p] else null
    {
      q, p := head, 0;
      while q != null && !(prio < q.tcb.prio)
        invariant Valid() && p <= |l| && q == if p < |l| then l[p] else null
        invariant forall i :: 0 <= i < p ==> !(l[i].tcb in prios && prio < prios[l[i].tcb])
        decreases |l| - p
      {
        Neighbours(l, p);
        q := q.next;
        p := p + 1;
      }
      if p < |l| { assert l[p] in l; }
      FirstAt(l, prios, prio, p);
    }

    // OS_PendListInsertPrio.
    method InsertPrio(d: PendData, ghost prios: Prios)
      requires Valid() && d !in l && Agrees(l, prios)
      modifies this, d`next, d`prev, Elements(l)`next, Elements(l)`prev
      ensures Valid() && l == InsertAt(old(l), Pos(old(l), prios, d.tcb.prio), d)
    {
      var q, p := Search(d.tcb.prio, prios);
      Place(d, q, p);
    }

    method Place(d: PendData, q: PendData?, ghost p: nat)
      requires Valid() && d !in l && p <= |l| && q == if p < |l| then l[p] else null
      modifies this, d`next, d`prev, Elements(l)`next, Elements(l)`prev
      ensures Valid() && l == InsertAt(old(l), p, d)
    {
      ghost var r := InsertAt(l, p, d);
      InsertEnds(l, p, d);
      assert p > 0 ==> l[p-1] in l;
      assert q == head <==> p == 0;
      hide ChainedAt;
      var last := tail;
      Lengthen(d, q);
      Wire(d, q, last, l, p);
      l := r;
    }

    method Lengthen(d: PendData, q: PendData?)
      modifies `head, `tail, `nbrEntries
      ensures nbrEntries == old(nbrEntries) + 1
      ensures tail == (if q == null then d else old(tail)) && head == if q == old(head) then d else old(head)
    {
      nbrEntries := nbrEntries + 1;
      if q == null { tail := d; }
      if q == head { head := d; }
    }

    // OS_PendListRemove1.
    method Remove1(d: PendData)
      requires Valid() && d in l
      modifies this, Elements(l)`next, Elements(l)`prev
      ensures Valid() && l == Without(old(l), d)
      ensures d.next == null && d.prev == null
    {
      ghost var p :| 0 <= p < |l| && l[p] == d;
      WithoutIsRemoveAt(l, p);
      hide Without;
      RemoveEntry(d, p);
    }

    method RemoveEntry(d: PendData, ghost p: nat)
      requires Valid() && p < |l| && l[p] == d
      modifies this, Elements(l)`next, Elements(l)`prev
      ensures Valid() && l == RemoveAt(old(l), p)
      ensures d.next == null && d.prev == null
    {
      Neighbours(l, p);
      RemoveEnds(l, p);
      hide RemoveAt, Distinct, ChainedAt;
      ghost var l' := RemoveAt(l, p);
      Shorten(d.prev, d.next);
      Unwire(d, l, p);
      l := l';
    }

    method Shorten(prev: PendData?, next: PendData?)
      requires nbrEntries > 0 && (nbrEntries == 1 <==> prev == null && next == null)
      modifies `head, `tail, `nbrEntries
      ensures nbrEntries == old(nbrEntries) - 1
      ensures head == (if prev == null then next else old(head)) && tail == if next == null then prev else old(tail)
    {
      if nbrEntries == 1 {
        head, tail := null, null;
      } else if prev == null {
        head := next;
      } else if next == null {
        tail := prev;
      }
      nbrEntries := nbrEntries - 1;
    }
  }

  lemma {:induction false} FirstAt(l: seq<PendData>, prios: Prios, prio: nat, p: nat)
    requires p <= |l| && (forall i :: 0 <= i < p ==> !(l[i].tcb in prios && prio < prios[l[i].tcb]))
    requires p < |l| ==> l[p].tcb in prios && prio < prios[l[p].tcb]
    ensures Pos(l, prios, prio) == p
  {
    if p > 0 {
      assert forall i :: 0 <= i < |l[1..]| ==> l[1..][i] == l[i+1];
      FirstAt(l[1..], prios, prio, p - 1);
    }
  }

  // ---------------------------------------------------------------- a task on several lists

  // l with d put where its task's priority says, everybody else in the old order.
  ghost function Moved(l: seq<PendData>, d: PendData, prios: Prios): seq<PendData> {
    var rest := Without(l, d);
    if d.tcb in prios then InsertAt(rest, Pos(rest, prios, prios[d.tcb]), d) else l
  }

  // One turn of OS_PendListChangePrio.
  method Move(d: PendData, ghost prios: Prios)
    requires d.list.Valid() && d in d.list.l && Agrees(d.list.l, prios)
    modifies d.list, Elements(d.list.l)`next, Elements(d.list.l)`prev
    ensures d.list.Valid() && d.list.l == Moved(old(d.list.l), d, prios)
  {
    var list := d.list;
    if list.nbrEntries > 1 {
      list.Remove1(d);
      list.InsertPrio(d, prios);
    } else {
      assert list.l == [d] && Without(list.l, d) == [];
    }
  }

  ghost function ListsOf(entries: seq<PendData>): set<PendList> {
    set d | d in entries :: d.list
  }

  ghost predicate EntryOk(t: Tcb, d: PendData, nodes: set<PendData>)
    reads d.list, nodes`next, nodes`prev
  {
    d.tcb == t && Elements(d.list.l) <= nodes && d.list.Valid() && d in d.list.l
  }

  ghost predicate Apart(d: PendData, e: PendData)
    reads d.list, e.list
  {
    d.list != e.list && Elements(d.list.l) !! Elements(e.list.l)
  }

  // The entries of one table: on different lists, with nobody on two of them.
  ghost predicate OneTable(t: Tcb, entries: seq<PendData>, nodes: set<PendData>)
    reads ListsOf(entries), nodes`next, nodes`prev
  {
    && (forall i :: 0 <= i < |entries| ==> entries[i] in entries && EntryOk(t, entries[i], nodes))
    && (forall i, j :: 0 <= i < |entries| && 0 <= j < |entries| && i != j ==> Apart(entries[i], entries[j]))
  }

  ghost predicate AllAgree(nodes: set<PendData>, prios: Prios)
    reads set d | d in nodes :: d.tcb
  {
    forall d | d in nodes :: d.tcb in prios && prios[d.tcb] == d.tcb.prio
  }

  // OS_PendListChangePrio: the priority is rewritten for all lists at once, and every list is
  // then put in order.
  method ChangePrio(t: Tcb, entries: seq<PendData>, prio: nat, ghost nodes: set<PendData>, ghost was: Prios)
    requires OneTable(t, entries, nodes) && AllAgree(nodes, was)
    modifies t`prio, ListsOf(entries), nodes`next, nodes`prev
    ensures t.prio == prio && OneTable(t, entries, nodes) && AllAgree(nodes, was[t := prio])
    ensures forall i :: 0 <= i < |entries| ==>
      entries[i].list.l == Moved(old(entries[i].list.l), entries[i], was[t := prio])
  {
    hide EntryOk, Apart, AllAgree, Moved;
    SetPrio(t, entries, prio, nodes, was);
    ghost var prios := was[t := prio];
    var n := 0;
    while n < |entries|
      invariant n <= |entries| && t.prio == prio && OneTable(t, entries, nodes) && AllAgree(nodes, prios)
      invariant forall i :: 0 <= i < n ==> entries[i].list.l == Moved(old(entries[i].list.l), entries[i], prios)
      invariant forall i :: n <= i < |entries| ==> entries[i].list.l == old(entries[i].list.l)
    {
      Turn(t, entries, n, nodes, prios);
      n := n + 1;
    }
  }

  method SetPrio(t: Tcb, entries: seq<PendData>, prio: nat, ghost nodes: set<PendData>, ghost was: Prios)
    requires OneTable(t, entries, nodes) && AllAgree(nodes, was)
    modifies t`prio
    ensures t.prio == prio && OneTable(t, entries, nodes) && AllAgree(nodes, was[t := prio])
  {
    hide EntryOk, Apart;
    t.prio := prio;
  }

  method Turn(t: Tcb, entries: seq<PendData>, n: nat, ghost nodes: set<PendData>, ghost prios: Prios)
    requires OneTable(t, entries, nodes) && n < |entries| && AllAgree(nodes, prios)
    modifies entries[n].list, nodes`next, nodes`prev
    ensures OneTable(t, entries, nodes)
    ensures entries[n].list.l == Moved(old(entries[n].list.l), entries[n], prios)
    ensures forall i :: 0 <= i < |entries| && i != n ==> entries[i].list.l == old(entries[i].list.l)
  {
    var d := entries[n];
    assert EntryOk(t, d, nodes);
    forall i | 0 <= i < |entries| && i != n
      ensures Apart(entries[i], d) && EntryOk(t, entries[i], nodes)
    {
    }
    MovedMembers(d.list.l, d, prios);
    Move(d, prios);
    hide Moved;
    forall i | 0 <= i < |entries| && i != n
      ensures entries[i].list.l == old(entries[i].list.l) && EntryOk(t, entries[i], nodes)
    {
      assert old(Apart(entries[i], d)) && old(EntryOk(t, entries[i], nodes));
    }
    forall i, j | 0 <= i < |entries| && 0 <= j < |entries| && i != j
      ensures Apart(entries[i], entries[j])
    {
      assert old(Apart(entries[i], entries[j]));
    }
  }

  lemma MovedMembers(l: seq<PendData>, d: PendData, prios: Prios)
    requires d in l
    ensures Elements(Moved(l, d, prios)) == Elements(l)
  {
    var rest := Without(l, d);
    if d.tcb in prios { InsertAtMembers(rest, Pos(rest, prios, prios[d.tcb]), d); }
  }

  // No other entry of the list belongs to the same task.
  predicate Alone(d: PendData, l: seq<PendData>) {
    forall x | x in l && x != d :: x.tcb != d.tcb
  }

  // The list of an entry whose task got another priority is in order again once the entry has
  // been moved.
  lemma MovedSorted(l: seq<PendData>, d: PendData, was: Prios, prio: nat)
    requires Sorted(l, was) && Distinct(l) && d in l && Alone(d, l) && forall x | x in l :: x.tcb in was
    ensures Sorted(Moved(l, d, was[d.tcb := prio]), was[d.tcb := prio])
  {
    var p :| 0 <= p < |l| && l[p] == d;
    WithoutIsRemoveAt(l, p);
    RestSorted(l, d, was, prio, p);
    hide Sorted, RemoveAt;
    InsertedSorted(Without(l, d), d, was[d.tcb := prio]);
  }

  // d stands behind everybody in r who is at least as urgent as prio, and in front of the others.
  ghost predicate StandsIn(l: seq<PendData>, r: seq<PendData>, d: PendData, prios: Prios, prio: nat) {
    exists p :: 0 <= p <= |r| && l == r[..p] + [d] + r[p..]
      && (forall i :: 0 <= i < p && r[i].tcb in prios ==> prios[r[i].tcb] <= prio)
      && (forall i :: p <= i < |r| && r[i].tcb in prios ==> prio < prios[r[i].tcb])
  }

  // Where the entry stands then: also behind those equally urgent who were behind it before.
  lemma MovedPlace(l: seq<PendData>, d: PendData, was: Prios, prio: nat)
    requires Sorted(l, was) && Distinct(l) && d in l && Alone(d, l) && forall x | x in l :: x.tcb in was
    ensures var prios := was[d.tcb := prio]; StandsIn(Moved(l, d, prios), Without(l, d), d, prios, prio)
  {
    hide StandsIn, RemoveAt, Pos;
    var i :| 0 <= i < |l| && l[i] == d;
    WithoutIsRemoveAt(l, i);
    RestSorted(l, d, was, prio, i);
    InsertStands(Without(l, d), d, was[d.tcb := prio], prio);
  }

  lemma InsertStands(r: seq<PendData>, d: PendData, prios: Prios, prio: nat)
    requires Sorted(r, prios) && forall i :: 0 <= i < |r| ==> r[i].tcb in prios
    ensures StandsIn(InsertAt(r, Pos(r, prios, prio), d), r, d, prios, prio)
  {
    hide Pos;
    var p := Pos(r, prios, prio);
    forall j | p <= j < |r|
      ensures prio < prios[r[j].tcb]
    {
      if j > p { assert prios[r[p].tcb] <= prios[r[j].tcb]; }
    }
  }

  lemma RestSorted(l: seq<PendData>, d: PendData, was: Prios, prio: nat, p: nat)
    requires Sorted(l, was) && Distinct(l) && p < |l| && l[p] == d && Alone(d, l) && forall x | x in l :: x.tcb in was
    ensures Sorted(RemoveAt(l, p), was[d.tcb := prio])
  {
    var r := RemoveAt(l, p);
    assert forall i :: 0 <= i < |r| ==> r[i] == if i < p then l[i] else l[i+1];
    assert forall i :: 0 <= i < |l| && i != p ==> l[i] in l && l[i] != d && l[i].tcb != d.tcb;
  }

  // And everybody else keeps the order of before.
  lemma MovedKeepsOthers(l: seq<PendData>, d: PendData, prios: Prios)
    requires Distinct(l) && d in l
    ensures Without(Moved(l, d, prios), d) == Without(l, d)
  {
    if d.tcb in prios {
      WithoutDistinct(l, d);
      WithoutInserted(Without(l, d), Pos(Without(l, d), prios, prios[d.tcb]), d);
    }
  }
}
