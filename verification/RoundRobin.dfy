// How long a task of a priority shared by several waits for its turn (os_core.c,
// OS_SchedRoundRobin), over whole runs of ticks.

module RoundRobin {
  import opened Lists
  import opened ReadyList
  import opened Scheduler

  // The ready list of one priority and the time slice counters of its tasks.
  datatype Round<T(==)> = Round(l: seq<T>, ctr: map<T, nat>)

  ghost predicate Proper<T>(r: Round<T>, quanta: map<T, nat>) {
    |r.l| >= 2 && Distinct(r.l) && forall t | t in r.l :: t in r.ctr && t in quanta
  }

  function Tick<T(==)>(r: Round<T>, quanta: map<T, nat>, dflt: nat): Round<T>
    requires |r.l| >= 2 && forall t | t in r.l :: t in r.ctr && t in quanta
  {
    var c := LessOne(r.ctr[r.l[0]]);
    if c > 0 then Round(r.l, r.ctr[r.l[0] := c])
    else Round(Rotated(r.l), r.ctr[r.l[0] := 0][r.l[1] := Slice(quanta[r.l[1]], dflt)])
  }

  lemma TickProper<T>(r: Round<T>, quanta: map<T, nat>, dflt: nat)
    requires Proper(r, quanta)
    ensures Proper(Tick(r, quanta, dflt), quanta)
  {
    RotatedMembers(r.l);
    RotatedDistinct(r.l);
  }

  lemma RotatedDistinct<T>(l: seq<T>)
    requires Distinct(l)
    ensures Distinct(Rotated(l))
  {
    if |l| >= 2 {
      var r := Rotated(l);
      assert forall i :: 0 <= i < |r| ==> r[i] == if i + 1 < |l| then l[i+1] else l[0];
    }
  }

  ghost function Run<T>(r: Round<T>, quanta: map<T, nat>, dflt: nat, n: nat): Round<T>
    requires Proper(r, quanta)
    ensures Proper(Run(r, quanta, dflt, n), quanta)
    decreases n
  {
    if n == 0 then r
    else
      TickProper(r, quanta, dflt);
      Run(Tick(r, quanta, dflt), quanta, dflt, n - 1)
  }

  // A time slice of 0 still lasts until the next tick.
  function AtLeastOne(n: nat): nat {
    if n == 0 then 1 else n
  }

  // The list has turned by one place, and the new head has a fresh time slice.
  ghost predicate NextRound<T>(r: Round<T>, r': Round<T>, quanta: map<T, nat>, dflt: nat)
    requires Proper(r, quanta) && Proper(r', quanta)
  {
    r'.l == Rotated(r.l) && r'.ctr[r'.l[0]] == Slice(quanta[r'.l[0]], dflt)
  }

  // The head keeps its place until its counter has run down, and then loses it.
  lemma {:induction false} OneTurn<T>(r: Round<T>, quanta: map<T, nat>, dflt: nat, n: nat)
    requires Proper(r, quanta) && n == AtLeastOne(r.ctr[r.l[0]])
    ensures NextRound(r, Run(r, quanta, dflt, n), quanta, dflt)
    ensures forall j :: 0 <= j < n ==> Run(r, quanta, dflt, j).l == r.l
    decreases n
  {
    var r1 := Tick(r, quanta, dflt);
    TickProper(r, quanta, dflt);
    assert Run(r, quanta, dflt, n) == Run(r1, quanta, dflt, n - 1);
    if n == 1 {
      assert Run(r1, quanta, dflt, 0) == r1;
    } else {
      OneTurn(r1, quanta, dflt, n - 1);
    }
    forall j | 0 <= j < n
      ensures Run(r, quanta, dflt, j).l == r.l
    {
      if j > 0 { assert Run(r, quanta, dflt, j) == Run(r1, quanta, dflt, j - 1); }
    }
  }

  lemma {:induction false} RunOn<T>(r: Round<T>, quanta: map<T, nat>, dflt: nat, a: nat, b: nat)
    requires Proper(r, quanta)
    ensures Run(r, quanta, dflt, a + b) == Run(Run(r, quanta, dflt, a), quanta, dflt, b)
    decreases a
  {
    if a > 0 {
      TickProper(r, quanta, dflt);
      RunOn(Tick(r, quanta, dflt), quanta, dflt, a - 1, b);
    }
  }

  // The full slices of the tasks at places 1 to k - 1.
  ghost function Slices<T>(l: seq<T>, quanta: map<T, nat>, dflt: nat, k: nat): nat
    requires k <= |l| && forall t | t in l :: t in quanta
  {
    if k <= 1 then 0 else Slices(l, quanta, dflt, k - 1) + AtLeastOne(Slice(quanta[l[k-1]], dflt))
  }

  ghost function Wait<T>(r: Round<T>, quanta: map<T, nat>, dflt: nat, k: nat): nat
    requires Proper(r, quanta) && 0 < k < |r.l|
  {
    AtLeastOne(r.ctr[r.l[0]]) + Slices(r.l, quanta, dflt, k)
  }

  lemma RotateAgain<T>(l: seq<T>, k: nat)
    requires 0 < k < |l| && |l| >= 2
    ensures Rotated(l[k-1..] + l[..k-1]) == l[k..] + l[..k]
    ensures (l[k-1..] + l[..k-1])[0] == l[k-1]
  {
    var m := l[k-1..] + l[..k-1];
    assert m[1..] + [m[0]] == l[k..] + l[..k];
  }

  lemma WaitOneMore<T>(r: Round<T>, r1: Round<T>, quanta: map<T, nat>, dflt: nat, k: nat)
    requires Proper(r, quanta) && Proper(r1, quanta) && 1 < k < |r.l|
    requires r1.l == r.l[k-1..] + r.l[..k-1] && r1.ctr[r.l[k-1]] == Slice(quanta[r.l[k-1]], dflt)
    ensures Wait(r, quanta, dflt, k) == Wait(r, quanta, dflt, k - 1) + AtLeastOne(r1.ctr[r1.l[0]])
    ensures r1.l[0] == r.l[k-1] && Rotated(r1.l) == r.l[k..] + r.l[..k]
  {
    RotateAgain(r.l, k);
  }

  lemma {:induction false} TurnFalls<T>(r: Round<T>, quanta: map<T, nat>, dflt: nat, k: nat)
    requires Proper(r, quanta) && 0 < k < |r.l|
    ensures var r' := Run(r, quanta, dflt, Wait(r, quanta, dflt, k));
      && r'.l == r.l[k..] + r.l[..k] && r'.l[0] == r.l[k]
      && r'.ctr[r.l[k]] == Slice(quanta[r.l[k]], dflt)
    decreases k
  {
    if k == 1 {
      OneTurn(r, quanta, dflt, AtLeastOne(r.ctr[r.l[0]]));
      assert Rotated(r.l) == r.l[1..] + r.l[..1];
    } else {
      hide Run, Wait, Slice, Rotated;
      TurnFalls(r, quanta, dflt, k - 1);
      TurnPasses(r, Run(r, quanta, dflt, Wait(r, quanta, dflt, k - 1)), quanta, dflt, k);
    }
  }

  lemma TurnPasses<T>(r: Round<T>, r1: Round<T>, quanta: map<T, nat>, dflt: nat, k: nat)
    requires Proper(r, quanta) && Proper(r1, quanta) && 1 < k < |r.l|
    requires r1 == Run(r, quanta, dflt, Wait(r, quanta, dflt, k - 1))
    requires r1.l == r.l[k-1..] + r.l[..k-1] && r1.ctr[r.l[k-1]] == Slice(quanta[r.l[k-1]], dflt)
    ensures var r' := Run(r, quanta, dflt, Wait(r, quanta, dflt, k));
      && r'.l == r.l[k..] + r.l[..k] && r'.l[0] == r.l[k]
      && r'.ctr[r.l[k]] == Slice(quanta[r.l[k]], dflt)
  {
    hide Run, Wait, Slices, Rotated, Tick, AtLeastOne, Slice, Distinct;
    WaitOneMore(r, r1, quanta, dflt, k);
    var b := AtLeastOne(r1.ctr[r1.l[0]]);
    OneTurn(r1, quanta, dflt, b);
    RunOn(r, quanta, dflt, Wait(r, quanta, dflt, k - 1), b);
    assert (r.l[k..] + r.l[..k])[0] == r.l[k];
  }

  // The task at place k of the list gets its turn after what is left of the head's slice and
  // the whole slices of the tasks in between, and with it a whole slice: its own, or the default.
  lemma TurnComes<T>(r: Round<T>, quanta: map<T, nat>, dflt: nat, k: nat)
    requires Proper(r, quanta) && 0 < k < |r.l|
    ensures var r' := Run(r, quanta, dflt, Wait(r, quanta, dflt, k));
      && r'.l == r.l[k..] + r.l[..k] && r'.l[0] == r.l[k]
      && r'.ctr[r.l[k]] == if quanta[r.l[k]] == 0 then dflt else quanta[r.l[k]]
  {
    TurnFalls(r, quanta, dflt, k);
  }

  // And not before: until then only the tasks in front of it have been at the head.
  lemma {:induction false} NotBefore<T>(r: Round<T>, quanta: map<T, nat>, dflt: nat, k: nat, j: nat)
    requires Proper(r, quanta) && 0 < k < |r.l| && j < Wait(r, quanta, dflt, k)
    ensures Run(r, quanta, dflt, j).l[0] in r.l[..k] && Run(r, quanta, dflt, j).l[0] != r.l[k]
    decreases k
  {
    var h := Run(r, quanta, dflt, j).l[0];
    if k == 1 {
      OneTurn(r, quanta, dflt, AtLeastOne(r.ctr[r.l[0]]));
      assert r.l[..k][0] == h;
    } else {
      var a := Wait(r, quanta, dflt, k - 1);
      if j < a {
        NotBefore(r, quanta, dflt, k - 1, j);
        assert forall x :: x in r.l[..k-1] ==> x in r.l[..k];
      } else {
        LastStretch(r, quanta, dflt, k, j);
        assert r.l[..k][k-1] == h;
      }
    }
  }

  lemma LastStretch<T>(r: Round<T>, quanta: map<T, nat>, dflt: nat, k: nat, j: nat)
    requires Proper(r, quanta) && 1 < k < |r.l| && Wait(r, quanta, dflt, k - 1) <= j < Wait(r, quanta, dflt, k)
    ensures Run(r, quanta, dflt, j).l[0] == r.l[k-1]
  {
    hide Wait, Slices, Slice, Rotated, NextRound, Tick, AtLeastOne;
    var a := Wait(r, quanta, dflt, k - 1);
    var r1 := Run(r, quanta, dflt, a);
    TurnFalls(r, quanta, dflt, k - 1);
    WaitOneMore(r, r1, quanta, dflt, k);
    OneTurn(r1, quanta, dflt, AtLeastOne(r1.ctr[r1.l[0]]));
    RunOn(r, quanta, dflt, a, j - a);
  }

  // ---------------------------------------------------------------- the lists in memory

  ghost function View(l: seq<Tcb>): Round<Tcb>
    reads Elements(l)`timeQuantaCtr
  {
    Round(l, map t | t in Elements(l) :: t.timeQuantaCtr)
  }

  ghost function Quanta(l: seq<Tcb>): map<Tcb, nat>
    reads Elements(l)`timeQuanta
  {
    map t | t in Elements(l) :: t.timeQuanta
  }

  // OS_SchedRoundRobin on the linked list is one tick of the round above: the same order and
  // the same counters.
  twostate lemma StepIsTick(l: seq<Tcb>, idle: Tcb, dflt: nat, l': seq<Tcb>, table: ReadyTable)
    requires |l| >= 2 && Distinct(l) && idle !in l && table.RoundRobinStep(l, idle, 0, dflt, l')
    requires forall t | t in l :: t.timeQuanta == old(t.timeQuanta)
    ensures var r := Tick(old(View(l)), old(Quanta(l)), dflt);
      l' == r.l && r.ctr.Keys == Elements(l) && forall t | t in l :: t.timeQuantaCtr == r.ctr[t]
  {
    assert l[0] in l && l[1] in l && l[0] != l[1];
  }
}
