// Several tasks released one after the other: who is released, and who keeps which place.

module KernelReleases {
  import opened Lists
  import opened Tasks
  import opened KernelState
  import opened KernelSteps
  import Wheel = TickWheelSpec

  // l without the members of gone.
  function Except(l: seq<Tid>, gone: set<Tid>): (r: seq<Tid>)
    ensures forall x :: x in r <==> x in l && x !in gone
  {
    if l == [] then [] else if l[0] in gone then Except(l[1..], gone) else [l[0]] + Except(l[1..], gone)
  }

  lemma {:induction false} ExceptTwice(l: seq<Tid>, a: set<Tid>, b: set<Tid>)
    ensures Except(Except(l, a), b) == Except(l, b + a)
  {
    if l != [] {
      ExceptTwice(l[1..], a, b);
      if l[0] !in a {
        assert ([l[0]] + Except(l[1..], a))[1..] == Except(l[1..], a);
      }
    }
  }

  lemma {:induction false} ExceptNone(l: seq<Tid>)
    ensures Except(l, {}) == l
  {
    if l != [] {
      ExceptNone(l[1..]);
    }
  }

  lemma {:induction false} ExceptOne(l: seq<Tid>, t: Tid)
    ensures Without(l, t) == Except(l, {t})
  {
    if l != [] {
      ExceptOne(l[1..], t);
    }
  }

  // Every task of l gets the TCB that f makes of its old one, and is released.
  function ReleaseAll(k: K, l: seq<Tid>, f: Tcb -> Tcb): K
    decreases |l|
  {
    if l == [] then k
    else ReleaseAll(if l[0] in k.tasks then Release(k, l[0], f(k.tasks[l[0]])) else k, l[1..], f)
  }

  // The tasks in gone, and no others, are released; everybody else keeps his place.
  ghost predicate Released(k: K, k': K, gone: set<Tid>, f: Tcb -> Tcb) {
    && k'.tasks.Keys == k.tasks.Keys
    && (forall t :: t in k.tasks ==> k'.tasks[t] == (if t in gone then f(k.tasks[t]) else k.tasks[t]))
    && k'.pend.Keys == k.pend.Keys
    && (forall o :: o in k.pend ==> k'.pend[o] == Except(k.pend[o], gone))
    && k'.cur == k.cur && k'.prioCur == k.prioCur && k'.schedLock == k.schedLock
  }

  // f turns a blocked task into one that is ready, or only suspended.
  ghost predicate Frees(c: Tcb, f: Tcb -> Tcb) {
    c.st != RDY && TcbOk(f(c)) && !f(c).st.dly && !f(c).st.pend
  }

  ghost predicate CanRelease(k: K, l: seq<Tid>, f: Tcb -> Tcb) {
    Distinct(l) && forall t :: t in l ==> t in k.tasks && Frees(k.tasks[t], f)
  }

  lemma NotLinked(tasks: map<Tid, Tcb>, pend: map<Oid, seq<Tid>>, t: Tid)
    requires PendInv(tasks, pend) && (t in tasks ==> !tasks[t].linked)
    ensures forall o :: o in pend ==> t !in pend[o]
  {
    forall o | o in pend
      ensures t !in pend[o]
    {
      assert !Waits(tasks, t, o);
    }
  }

  lemma ReleasedPend(k: K, t: Tid, c: Tcb)
    requires PendInv(k.tasks, k.pend) && t in k.tasks
    ensures var k' := Release(k, t, c);
      k'.pend.Keys == k.pend.Keys && forall o :: o in k.pend ==> k'.pend[o] == Without(k.pend[o], t)
  {
    if !k.tasks[t].linked { NotLinked(k.tasks, k.pend, t); }
  }

  lemma ReleaseOne(k: K, t: Tid, f: Tcb -> Tcb)
    requires PendInv(k.tasks, k.pend) && t in k.tasks
    ensures Released(k, Release(k, t, f(k.tasks[t])), {t}, f)
  {
    ReleasedPend(k, t, f(k.tasks[t]));
    hide PendInv, Without, Except, Wheel.Remove, RdyInsert;
    forall o | o in k.pend
      ensures Without(k.pend[o], t) == Except(k.pend[o], {t})
    {
      ExceptOne(k.pend[o], t);
    }
  }

  lemma ReleaseChain(k: K, k1: K, k2: K, t: Tid, gone: set<Tid>, f: Tcb -> Tcb)
    requires Released(k, k1, {t}, f) && Released(k1, k2, gone, f) && t !in gone
    ensures Released(k, k2, gone + {t}, f)
  {
    forall o | o in k.pend
      ensures k2.pend[o] == Except(k.pend[o], gone + {t})
    {
      ExceptTwice(k.pend[o], {t}, gone);
    }
  }

  lemma ReleaseNobody(k: K, f: Tcb -> Tcb)
    ensures Released(k, k, {}, f)
  {
    forall o | o in k.pend
      ensures Except(k.pend[o], {}) == k.pend[o]
    {
      ExceptNone(k.pend[o]);
    }
  }

  lemma ReleaseWheel(k: K, t: Tid, c: Tcb)
    ensures var w := Release(k, t, c).wheel; w.ctr == k.wheel.ctr && w.due == k.wheel.due - {t}
  {
  }

  lemma ReleaseFirst(k: K, l: seq<Tid>, f: Tcb -> Tcb)
    requires Inv(k) && CanRelease(k, l, f) && l != []
    ensures var k1 := Release(k, l[0], f(k.tasks[l[0]]));
      && Inv(k1) && k1.wheel.ctr == k.wheel.ctr && k1.wheel.due == k.wheel.due - {l[0]}
      && Released(k, k1, {l[0]}, f) && CanRelease(k1, l[1..], f)
  {
    var c := f(k.tasks[l[0]]);
    ReleaseOne(k, l[0], f);
    ReleaseWheel(k, l[0], c);
    hide RdyInv, WheelInv, PendInv;
    ReleaseKeeps(k, l[0], c);
    hide *;
    StillReleasable(k, Release(k, l[0], c), l, f);
  }

  lemma StillReleasable(k: K, k1: K, l: seq<Tid>, f: Tcb -> Tcb)
    requires CanRelease(k, l, f) && l != [] && Released(k, k1, {l[0]}, f)
    ensures CanRelease(k1, l[1..], f)
  {
  }

  lemma {:induction false} ReleaseAllKeeps(k: K, l: seq<Tid>, f: Tcb -> Tcb)
    requires Inv(k) && CanRelease(k, l, f)
    ensures var k' := ReleaseAll(k, l, f);
      && Inv(k') && k'.wheel.ctr == k.wheel.ctr && k'.wheel.due == k.wheel.due - Elements(l)
      && Released(k, k', Elements(l), f)
    decreases |l|
  {
    hide Inv, Release, Released;
    if l == [] {
      ReleaseNobody(k, f);
      assert Elements(l) == {};
    } else {
      var k1 := Release(k, l[0], f(k.tasks[l[0]]));
      ReleaseFirst(k, l, f);
      ReleaseAllKeeps(k1, l[1..], f);
      assert Elements(l) == Elements(l[1..]) + {l[0]};
      ReleaseChain(k, k1, ReleaseAll(k1, l[1..], f), l[0], Elements(l[1..]), f);
    }
  }
}
