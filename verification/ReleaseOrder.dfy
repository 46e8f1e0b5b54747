// Where several tasks readied by one call stand: by a tick, a post to all, an abort or a deletion
// (os_tick.c, os_core.c). And the calls that move ready tasks only.

module ReleaseOrder {
  import opened Ticks
  import opened Lists
  import opened Tasks
  import opened KernelState
  import opened KernelSteps
  import opened KernelReleases
  import opened KernelRuns
  import opened TaskEffects
  import Wheel = TickWheelSpec

  // ---------------------------------------------------------------- several at once

  // Those of l that have priority p and are not suspended, in the order of l.
  function OfPrio(tasks: map<Tid, Tcb>, l: seq<Tid>, p: Prio): seq<Tid> {
    if l == [] then [] else IfPrio(tasks, l[0], p) + OfPrio(tasks, l[1..], p)
  }

  function IfPrio(tasks: map<Tid, Tcb>, t: Tid, p: Prio): seq<Tid> {
    if t in tasks && tasks[t].prio == p && !tasks[t].st.susp then [t] else []
  }

  function Backwards<T>(l: seq<T>): seq<T> {
    if l == [] then [] else Backwards(l[1..]) + [l[0]]
  }

  // The tasks of l join one after the other: in that order behind the tasks of the running priority,
  // and in the opposite order in front of the tasks of any other.
  ghost predicate AllJoin(k: K, k': K, l: seq<Tid>) {
    forall p :: 0 <= p < PRIO_MAX ==>
      var more := OfPrio(k.tasks, l, p);
      k'.rdy[p] == if p == k.prioCur then k.rdy[p] + more else Backwards(more) + k.rdy[p]
  }

  // f ends a wait or a delay.
  ghost predicate EndsWait(c: Tcb, f: Tcb -> Tcb) {
    f(c).st == TaskState(c.st.susp, false, false) && f(c).prio == c.prio
  }

  lemma {:induction false} ReleasesJoin(k: K, l: seq<Tid>, f: Tcb -> Tcb)
    requires Distinct(l) && forall t :: t in l ==> t in k.tasks && EndsWait(k.tasks[t], f)
    ensures AllJoin(k, ReleaseAll(k, l, f), l)
    decreases |l|
  {
    if l != [] {
      hide Release;
      var k1 := Release(k, l[0], f(k.tasks[l[0]]));
      FirstJoins(k, l, f(k.tasks[l[0]]));
      ReleasesJoin(k1, l[1..], f);
      forall p | 0 <= p < PRIO_MAX
        ensures var more := OfPrio(k.tasks, l, p); var r := ReleaseAll(k, l, f).rdy[p];
          r == if p == k.prioCur then k.rdy[p] + more else Backwards(more) + k.rdy[p]
      {
        SameOfPrio(k.tasks, k1.tasks, l[1..], p);
        OneThenRest(k.rdy[p], OfPrio(k.tasks, l[..1], p), OfPrio(k.tasks, l[1..], p));
        FirstOfPrio(k.tasks, l, p);
      }
    }
  }

  lemma FirstJoins(k: K, l: seq<Tid>, c: Tcb)
    requires Distinct(l) && l != [] && l[0] in k.tasks
    requires c.st == TaskState(k.tasks[l[0]].st.susp, false, false) && c.prio == k.tasks[l[0]].prio
    ensures var k1 := Release(k, l[0], c);
      && k1.prioCur == k.prioCur && k1.tasks == k.tasks[l[0] := c] && l[0] !in l[1..] && Distinct(l[1..])
      && forall p :: 0 <= p < PRIO_MAX ==>
           var one := OfPrio(k.tasks, l[..1], p); k1.rdy[p] == if p == k.prioCur then k.rdy[p] + one else one + k.rdy[p]
  {
    hide Unpend, Wheel.Remove;
    assert l[..1] == [l[0]] && l[..1][1..] == [];
  }

  lemma FirstOfPrio(tasks: map<Tid, Tcb>, l: seq<Tid>, p: Prio)
    requires l != []
    ensures |OfPrio(tasks, l[..1], p)| <= 1
    ensures OfPrio(tasks, l, p) == OfPrio(tasks, l[..1], p) + OfPrio(tasks, l[1..], p)
  {
    assert l[..1] == [l[0]];
    JustOne(tasks, l[0], p);
    hide OfPrio, IfPrio;
    assert OfPrio(tasks, l, p) == IfPrio(tasks, l[0], p) + OfPrio(tasks, l[1..], p) by { Unrolled(tasks, l, p); }
  }

  lemma {:induction false} JustOne(tasks: map<Tid, Tcb>, t: Tid, p: Prio)
    ensures OfPrio(tasks, [t], p) == IfPrio(tasks, t, p) && |IfPrio(tasks, t, p)| <= 1
  {
    assert [t][1..] == [];
  }

  lemma {:induction false} Unrolled(tasks: map<Tid, Tcb>, l: seq<Tid>, p: Prio)
    requires l != []
    ensures OfPrio(tasks, l, p) == IfPrio(tasks, l[0], p) + OfPrio(tasks, l[1..], p)
  {
  }

  lemma {:induction false} OneThenRest(r: seq<Tid>, one: seq<Tid>, rest: seq<Tid>)
    ensures (r + one) + rest == r + (one + rest)
    ensures |one| <= 1 ==> Backwards(rest) + (one + r) == Backwards(one + rest) + r
  {
    if |one| == 0 {
      assert one + rest == rest && one + r == r;
    } else if |one| == 1 {
      assert (one + rest)[1..] == rest && one == [one[0]];
      assert Backwards(rest) + (one + r) == (Backwards(rest) + one) + r;
    }
  }

  lemma {:induction false} SameOfPrio(tasks: map<Tid, Tcb>, tasks': map<Tid, Tcb>, l: seq<Tid>, p: Prio)
    requires forall t :: t in l && t in tasks ==> t in tasks' && tasks'[t] == tasks[t]
    requires forall t :: t in l && t in tasks' ==> t in tasks
    ensures OfPrio(tasks', l, p) == OfPrio(tasks, l, p)
  {
    if l != [] { SameOfPrio(tasks, tasks', l[1..], p); }
  }

  // Those who sleep on keep their places on the wheel.
  ghost predicate SpokesLose(w: TickWheel, w': TickWheel, gone: set<Tid>) {
    |w'.spokes| == |w.spokes| && forall j :: 0 <= j < |w.spokes| ==> w'.spokes[j] == Except(w.spokes[j], gone)
  }

  lemma {:induction false} ReleasesLeaveSpokes(k: K, l: seq<Tid>, f: Tcb -> Tcb)
    requires Inv(k) && CanRelease(k, l, f)
    ensures SpokesLose(k.wheel, ReleaseAll(k, l, f).wheel, Elements(l))
    decreases |l|
  {
    hide Inv, Release, Released, Frees, SpokesLose;
    if l == [] {
      LosesNobody(k.wheel);
      assert Elements(l) == {};
    } else {
      var c := f(k.tasks[l[0]]);
      var k1 := Release(k, l[0], c);
      ReleaseFirst(k, l, f);
      LosesOne(k, l[0], c);
      ReleasesLeaveSpokes(k1, l[1..], f);
      assert Elements(l) == Elements(l[1..]) + {l[0]};
      LosesChain(k.wheel, k1.wheel, ReleaseAll(k1, l[1..], f).wheel, {l[0]}, Elements(l[1..]));
    }
  }

  lemma LosesNobody(w: TickWheel)
    ensures SpokesLose(w, w, {})
  {
    forall j | 0 <= j < |w.spokes|
      ensures Except(w.spokes[j], {}) == w.spokes[j]
    {
      ExceptNone(w.spokes[j]);
    }
  }

  lemma LosesOne(k: K, t: Tid, c: Tcb)
    requires Inv(k)
    ensures SpokesLose(k.wheel, Release(k, t, c).wheel, {t})
  {
    hide RdyInv, PendInv, Wheel.Valid, Wheel.Remove, Unpend, RdyInsert;
    RemoveLoses(k.wheel, t);
  }

  lemma RemoveLoses(w: TickWheel, t: Tid)
    requires Wheel.Valid(w)
    ensures SpokesLose(w, Wheel.Remove(w, t), {t})
  {
    forall j | 0 <= j < |w.spokes|
      ensures Wheel.Remove(w, t).spokes[j] == Except(w.spokes[j], {t})
    {
      assert Wheel.SpokeOk(w.due, w.ctr, |w.spokes|, j, w.spokes[j]);
      hide Wheel.Valid, Without, Except;
      NotOnSpoke(w.due, w.ctr, |w.spokes|, j, w.spokes[j], t);
      ExceptOne(w.spokes[j], t);
    }
  }

  lemma LosesChain(w: TickWheel, w1: TickWheel, w2: TickWheel, a: set<Tid>, b: set<Tid>)
    requires SpokesLose(w, w1, a) && SpokesLose(w1, w2, b)
    ensures SpokesLose(w, w2, b + a)
  {
    forall j | 0 <= j < |w.spokes|
      ensures w2.spokes[j] == Except(w.spokes[j], b + a)
    {
      ExceptTwice(w.spokes[j], a, b);
    }
  }

  // ---------------------------------------------------------------- one clock tick

  // What a task finds whose last tick has come: the end of its delay, or a timeout and no message.
  function AfterTick(c: Tcb): Tcb {
    if c.st.pend then Left(c, PendTimeout, c.table, NULL_MSG, c.flagsRdy)
    else c.(st := TaskState(c.st.susp, false, false))
  }

  // The tasks in due wake, and stand in the lists of their priorities in the order in which they
  // stood at the front of one spoke; nobody else moves.
  ghost predicate Wake(k: K, k': K, due: set<Tid>, spoke: seq<Tid>) {
    && |due| <= |spoke| && Elements(spoke[..|due|]) == due && AllJoin(k, k', spoke[..|due|])
    && k'.wheel.due == k.wheel.due - due && SpokesLose(k.wheel, k'.wheel, due) && k'.tasks.Keys == k.tasks.Keys
    && (forall t :: t in k.tasks ==> k'.tasks[t] == if t in due then AfterTick(k.tasks[t]) else k.tasks[t])
    && k'.pend.Keys == k.pend.Keys && (forall o :: o in k.pend ==> k'.pend[o] == Except(k.pend[o], due))
    && k'.cur == k.cur && k'.prioCur == k.prioCur && k'.schedLock == k.schedLock
  }

  // One tick wakes exactly the tasks whose match value is the new counter.
  lemma TickDoes(k: K)
    requires Inv(k)
    ensures var k' := KernelRuns.Tick(k); var now := (k.wheel.ctr + 1) % MODULUS;
      var due := set t | t in k.wheel.due && k.wheel.due[t] == now;
      k'.wheel.ctr == now && Wake(k, k', due, k.wheel.spokes[SpokeOf(now, |k.wheel.spokes|)])
  {
    hide Inv, Wheel.Update, Wheel.Sleepers, Wheel.Due, ReleaseAll, AllJoin, Wake, Released, CanRelease, Plus, SpokeOf;
    var out := Wheel.Update(k.wheel).1;
    var due := set t | t in k.wheel.due && k.wheel.due[t] == Plus(k.wheel.ctr, 1);
    TickWakesDue(k);
    ReleaseAllKeeps(k, out, Expired);
    DueNow(k, due);
    OutIsFront(k.wheel);
    DistinctSize(out);
    ExpiredWakes(k, out);
    ReleasesJoin(k, out, Expired);
    ReleasesLeaveSpokes(k, out, Expired);
    SameRdy(k, ReleaseAll(k, out, Expired), KernelRuns.Tick(k), out, Elements(out));
    ReleasedWake(k, ReleaseAll(k, out, Expired), KernelRuns.Tick(k), out,
                 k.wheel.spokes[SpokeOf(Plus(k.wheel.ctr, 1), |k.wheel.spokes|)]);
  }

  lemma ReleasedWake(k: K, k1: K, k': K, out: seq<Tid>, spoke: seq<Tid>)
    requires Released(k, k1, Elements(out), Expired) && k1.wheel.due == k.wheel.due - Elements(out)
    requires k' == k1.(wheel := k'.wheel) && k'.wheel.due == k1.wheel.due && AllJoin(k, k', out)
      && SpokesLose(k.wheel, k'.wheel, Elements(out))
    requires |Elements(out)| == |out| <= |spoke| && out == spoke[..|out|]
    ensures Wake(k, k', Elements(out), spoke)
  {
    hide AllJoin, Except, SpokesLose;
  }

  lemma SameRdy(k: K, k1: K, k2: K, l: seq<Tid>, gone: set<Tid>)
    requires AllJoin(k, k1, l) && k2.rdy == k1.rdy
    requires SpokesLose(k.wheel, k1.wheel, gone) && k2.wheel.spokes == k1.wheel.spokes
    ensures AllJoin(k, k2, l) && SpokesLose(k.wheel, k2.wheel, gone)
  {
  }

  lemma DueNow(k: K, due: set<Tid>)
    requires Inv(k) && due == set t | t in k.wheel.due && k.wheel.due[t] == Plus(k.wheel.ctr, 1)
    ensures Elements(Wheel.Update(k.wheel).1) == due && Distinct(Wheel.Update(k.wheel).1)
  {
    hide RdyInv, PendInv, Wheel.Valid, Wheel.Update, Wheel.Sleepers, Wheel.Due, Wheel.ScanAll;
    var w := k.wheel;
    Wheel.UpdateRefines(w);
    forall t
      ensures t in Wheel.Update(w).1 <==> t in due
    {
      Wheel.ScanStopsRight(w, t);
    }
  }

  lemma OutIsFront(w: TickWheel)
    ensures var l := w.spokes[SpokeOf(Plus(w.ctr, 1), |w.spokes|)]; var out := Wheel.Update(w).1;
      |out| <= |l| && out == l[..|out|]
  {
  }

  lemma ExpiredWakes(k: K, out: seq<Tid>)
    requires CanRelease(k, out, Expired)
    ensures forall t :: t in out ==> t in k.tasks && EndsWait(k.tasks[t], Expired)
  {
    hide TcbOk;
  }

  // ---------------------------------------------------------------- the running task

  // OSSched: nothing while the scheduler is locked; otherwise the head of the best list runs, and
  // OSPrioCur follows only when another task comes to run.
  lemma SchedDoes(k: K)
    requires Inv(k)
    ensures var k' := Sched(k);
      if k.schedLock > 0 then k' == k
      else
        && k'.cur in k.tasks && k.tasks[k'.cur].st == RDY
        && (forall t :: t in k.tasks && k.tasks[t].st == RDY ==> k.tasks[k'.cur].prio <= k.tasks[t].prio)
        && (var l := k.rdy[k.tasks[k'.cur].prio]; l != [] && l[0] == k'.cur)
        && k' == if k'.cur == k.cur then k else k.(cur := k'.cur, prioCur := k.tasks[k'.cur].prio)
  {
    hide RdyInv, WheelInv, PendInv, TcbOk, Highest;
    if k.schedLock == 0 {
      HighestIsBest(k);
    }
  }

  // OSSchedLock and OSSchedUnlock: 250 levels; the last unlocking schedules.
  lemma LockDoes(k: K)
    ensures KernelRuns.Step(k, OpLock) == if k.schedLock >= 250 then k else k.(schedLock := k.schedLock + 1)
    ensures KernelRuns.Step(k, OpUnlock) ==
      if k.schedLock == 0 then k
      else if k.schedLock > 1 then k.(schedLock := k.schedLock - 1)
      else Sched(k.(schedLock := 0))
  {
    hide Highest;
  }

  // A rotation, by round robin or by OSSchedRoundRobinYield: the head goes behind the others.
  lemma RotateDoes(k: K, p: Prio)
    ensures var k' := Rotate(k, p); var n := |k.rdy[p]|;
      && k' == k.(rdy := k'.rdy) && |k'.rdy[p]| == n
      && (forall i :: 0 <= i < n ==> k'.rdy[p][i] == k.rdy[p][if i + 1 < n then i + 1 else 0])
      && forall q :: 0 <= q < PRIO_MAX && q != p ==> k'.rdy[q] == k.rdy[q]
  {
  }
}
