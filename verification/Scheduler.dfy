// The ready lists of all priorities with their bitmap, and round-robin scheduling
// (os_core.c: OS_RdyListInsert, OS_RdyListRemove, OSSched, OS_SchedRoundRobin).

module Scheduler {
  import opened Lists
  import opened ReadyList

  class ReadyTable {
    const lists: seq<RdyList>
    const prios: PrioTable
    ghost var nodes: set<Tcb>

    // OS_RdyListInit and OS_PrioInit.
    constructor (prioMax: nat)
      requires prioMax > 0
      ensures Valid() && |lists| == prioMax && forall p :: 0 <= p < prioMax ==> lists[p].l == []
    {
      var ls: seq<RdyList> := [];
      while |ls| < prioMax
        invariant |ls| <= prioMax && Distinct(ls)
        invariant forall x | x in ls :: allocated(x) && fresh(x) && x.Valid() && x.l == []
      {
        var x := new RdyList();
        ls := ls + [x];
      }
      lists := ls;
      prios := new PrioTable(prioMax);
      nodes := {};
      new;
      assert forall p :: 0 <= p < |lists| ==> lists[p] in ls;
    }

    // List p is well formed, with tasks of priority p only.
    ghost predicate ListOk(p: nat)
      requires p < |lists|
      reads this, Elements(lists), nodes
    {
      && Elements(lists[p].l) <= nodes && lists[p].Valid()
      && (forall t :: t in lists[p].l ==> t.prio == p)
    }

    ghost predicate Linked()
      reads this, Elements(lists), nodes
    {
      |lists| > 0 && Distinct(lists) && forall p :: 0 <= p < |lists| ==> ListOk(p)
    }

    // A priority is marked exactly when its list is not empty.
    ghost predicate Marked()
      reads this, prios.tbl, Elements(lists)
    {
      && prios.tbl.Length == (|lists| - 1) / 32 + 1
      && (forall p :: p in prios.Marks() <==> 0 <= p < |lists| && lists[p].l != [])
    }

    ghost predicate Valid()
      reads this, prios.tbl, Elements(lists), nodes
    {
      Linked() && Marked()
    }

    // What a change to list p leaves alone.
    twostate predicate OthersSame(p: nat)
      reads this, Elements(lists)
    {
      forall q :: 0 <= q < |lists| && q != p ==> lists[q].l == old(lists[q].l)
    }

    // OS_RdyListInsert: at the tail of the running task's list, at the head of any other.
    method Insert(t: Tcb, prioCur: nat)
      requires Valid() && t.prio < |lists| && t !in lists[t.prio].l
      modifies this, prios.tbl, lists[t.prio], nodes`next, nodes`prev, t`next, t`prev
      ensures Valid() && OthersSame(t.prio)
      ensures lists[t.prio].l == if t.prio == prioCur then old(lists[t.prio].l) + [t] else [t] + old(lists[t.prio].l)
    {
      prios.Insert(t.prio);
      forall q | 0 <= q < |lists|
        ensures ListOk(q)
      {
        assert old(ListOk(q));
      }
      hide ListOk, Distinct, RdyList.Valid;
      LinkIn(t, t.prio == prioCur);
    }

    method LinkIn(t: Tcb, atTail: bool)
      requires Linked() && t.prio < |lists| && t !in lists[t.prio].l
      modifies `nodes, lists[t.prio], nodes`next, nodes`prev, t`next, t`prev
      ensures Linked() && OthersSame(t.prio)
      ensures lists[t.prio].l == if atTail then old(lists[t.prio].l) + [t] else [t] + old(lists[t.prio].l)
    {
      var p := t.prio;
      var list := lists[p];
      assert ListOk(p);
      Apart(t);
      nodes := nodes + {t};
      if atTail {
        list.InsertTail(t);
      } else {
        list.InsertHead(t);
      }
      forall q | 0 <= q < |lists|
        ensures ListOk(q)
      {
        assert old(ListOk(q));
      }
    }

    lemma Apart(t: Tcb)
      requires Linked() && t.prio < |lists|
      ensures forall q :: 0 <= q < |lists| && q != t.prio ==>
        lists[q] != lists[t.prio] && t !in lists[q].l && Elements(lists[q].l) !! Elements(lists[t.prio].l)
    {
      assert ListOk(t.prio);
      forall q | 0 <= q < |lists| && q != t.prio
        ensures lists[q] != lists[t.prio] && t !in lists[q].l && Elements(lists[q].l) !! Elements(lists[t.prio].l)
      {
        assert ListOk(q);
      }
    }

    // OS_RdyListRemove.
    method Remove(t: Tcb)
      requires Valid() && t.prio < |lists| && t in lists[t.prio].l
      modifies prios.tbl, lists[t.prio], nodes`next, nodes`prev
      ensures Valid() && OthersSame(t.prio)
      ensures lists[t.prio].l == Without(old(lists[t.prio].l), t)
    {
      var p := t.prio;
      var list := lists[p];
      assert ListOk(p);
      Apart(t);
      var empty := list.Remove(t);
      if empty {
        prios.Remove(p);
      }
      forall q | 0 <= q < |lists|
        ensures ListOk(q)
      {
        assert old(ListOk(q));
      }
    }

    // The choice of OSSched: the head of the list of the highest priority marked.
    method HighestReady() returns (t: Tcb)
      requires Valid() && exists p :: 0 <= p < |lists| && lists[p].l != []
      ensures t.prio < |lists| && lists[t.prio].l != [] && t == lists[t.prio].l[0]
      ensures forall p :: 0 <= p < |lists| && lists[p].l != [] ==> t.prio <= p
    {
      ghost var some :| 0 <= some < |lists| && lists[some].l != [];
      assert some in prios.Marks();
      forall p | 0 <= p < |lists| && lists[p].l != []
        ensures lists[p].head == lists[p].l[0] && lists[p].l[0].prio == p
      {
        assert ListOk(p) && lists[p].l[0] in lists[p].l;
      }
      var h := prios.GetHighest();
      t := lists[h].head;
    }

    // The second half of OS_SchedRoundRobin: the next task of the list gets its time slice.
    method NextTask(p: nat, dflt: nat)
      requires Valid() && p < |lists| && |lists[p].l| >= 2
      modifies lists[p], nodes`next, nodes`prev, {lists[p].l[1]}`timeQuantaCtr
      ensures Valid() && OthersSame(p) && lists[p].l == old(lists[p].l)[1..] + [old(lists[p].l)[0]]
      ensures var t := old(lists[p].l)[1]; t.timeQuantaCtr == if t.timeQuanta == 0 then dflt else t.timeQuanta
    {
      var list := lists[p];
      assert ListOk(p);
      OthersApart(p);
      RotatedMembers(list.l);
      list.MoveHeadToTail();
      list.head.timeQuantaCtr := Slice(list.head.timeQuanta, dflt);
      assert list.Valid();
      forall q | 0 <= q < |lists|
        ensures ListOk(q)
      {
        assert old(ListOk(q));
      }
    }

    // What one tick of round robin does to the tasks l of a priority and their counters.
    twostate predicate RoundRobinStep(l: seq<Tcb>, idle: Tcb, schedLock: nat, dflt: nat, new l': seq<Tcb>)
      reads Elements(l)`timeQuantaCtr, Elements(l)`timeQuanta
    {
      if l == [] || l[0] == idle then l' == l && forall t :: t in l ==> t.timeQuantaCtr == old(t.timeQuantaCtr)
      else
        var c := if old(l[0].timeQuantaCtr) > 0 then old(l[0].timeQuantaCtr) - 1 else 0;
        && l[0] in l && l[0].timeQuantaCtr == c
        && if c > 0 || |l| < 2 || schedLock > 0 then
             l' == l && forall t :: t in l && t != l[0] ==> t.timeQuantaCtr == old(t.timeQuantaCtr)
           else
             && l' == l[1..] + [l[0]] && l[1] in l
             && l[1].timeQuantaCtr == (if l[1].timeQuanta == 0 then dflt else l[1].timeQuanta)
             && forall t :: t in l && t != l[0] && t != l[1] ==> t.timeQuantaCtr == old(t.timeQuantaCtr)
    }

    // OS_SchedRoundRobin, enabled and outside of interrupts.
    method SchedRoundRobin(p: nat, idle: Tcb, schedLock: nat, dflt: nat)
      requires Valid() && p < |lists|
      modifies lists[p], nodes`next, nodes`prev, nodes`timeQuantaCtr
      ensures Valid() && OthersSame(p) && RoundRobinStep(old(lists[p].l), idle, schedLock, dflt, lists[p].l)
    {
      var list := lists[p];
      assert ListOk(p);
      var t := list.head;
      if t == null || t == idle {
        return;
      }
      assert t in list.l;
      if t.timeQuantaCtr > 0 {
        t.timeQuantaCtr := t.timeQuantaCtr - 1;
      }
      assert Valid();
      if t.timeQuantaCtr > 0 || list.nbr < 2 || schedLock > 0 {
        return;
      }
      hide Linked, Marked, ListOk;
      assert list.l[1] in list.l && list.l[0] != list.l[1];
      NextTask(p, dflt);
    }

    lemma OthersApart(p: nat)
      requires Linked() && p < |lists|
      ensures forall q :: 0 <= q < |lists| && q != p ==>
        lists[q] != lists[p] && Elements(lists[q].l) !! Elements(lists[p].l)
    {
      assert ListOk(p);
      forall q | 0 <= q < |lists| && q != p
        ensures lists[q] != lists[p] && Elements(lists[q].l) !! Elements(lists[p].l)
      {
        assert ListOk(q);
      }
    }
  }

  function LessOne(n: nat): nat {
    if n > 0 then n - 1 else 0
  }

  // The time slice a task gets: its own, or the default for a task without one.
  function Slice(quanta: nat, dflt: nat): nat {
    if quanta == 0 then dflt else quanta
  }

  lemma RotatedMembers<T>(l: seq<T>)
    ensures forall x | x in Rotated(l) :: x in l
    ensures forall x | x in l :: x in Rotated(l)
  {
    if |l| >= 2 {
      var r := Rotated(l);
      forall x | x in l
        ensures x in r
      {
        var i :| 0 <= i < |l| && l[i] == x;
        assert r[if i == 0 then |l| - 1 else i - 1] == x;
      }
    }
  }
}
