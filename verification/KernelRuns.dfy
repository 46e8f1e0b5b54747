// The tick, the scheduler, and whole runs of the kernel (os_tick.c, os_core.c).

module KernelRuns {
  import opened Ticks
  import opened Lists
  import opened Tasks
  import opened KernelState
  import opened KernelSteps
  import opened KernelReleases
  import opened TickRuns
  import Wheel = TickWheelSpec

  // ---------------------------------------------------------------- one clock tick

  // OS_TickListUpdate with what it does to the tasks it finds, in the order of the spoke.
  function Tick(k: K): K {
    var k' := ReleaseAll(k, Wheel.Update(k.wheel).1, Expired);
    k'.(wheel := k'.wheel.(ctr := Plus(k'.wheel.ctr, 1)))
  }

  lemma Advanced(wheel: TickWheel, tasks: map<Tid, Tcb>)
    requires WheelInv(tasks, wheel) && Plus(wheel.ctr, 1) !in wheel.due.Values
    ensures WheelInv(tasks, wheel.(ctr := Plus(wheel.ctr, 1)))
  {
    var (w', out) := Wheel.Update(wheel);
    Wheel.UpdateValid(wheel);
    forall t | t in wheel.due
      ensures wheel.due[t] != Plus(wheel.ctr, 1)
    {
      assert wheel.due[t] in wheel.due.Values;
    }
    assert out == [];
    assert w' == wheel.(ctr := Plus(wheel.ctr, 1));
    hide Wheel.Valid;
  }

  lemma TickWakesDue(k: K)
    requires Inv(k)
    ensures var out := Wheel.Update(k.wheel).1;
      CanRelease(k, out, Expired) && Elements(out) == Wheel.Due(Wheel.Sleepers(k.wheel))
  {
    hide RdyInv, PendInv, Wheel.Valid, Wheel.Update, Wheel.Sleepers, Wheel.Due, Wheel.ScanAll, Frees, TcbOk;
    var out := Wheel.Update(k.wheel).1;
    Wheel.UpdateRefines(k.wheel);
    forall t | t in out
      ensures t in k.tasks && Frees(k.tasks[t], Expired)
    {
      Wheel.ScanStopsRight(k.wheel, t);
      ExpiredFrees(k.tasks[t]);
    }
  }

  lemma ExpiredFrees(c: Tcb)
    requires TcbOk(c) && c.st.dly
    ensures Frees(c, Expired)
  {
  }

  // The wheel after the released tasks have been taken off one by one.
  lemma TickWheel(k: K, wheel: TickWheel, tasks: map<Tid, Tcb>)
    requires Wheel.Valid(k.wheel) && WheelInv(tasks, wheel)
    requires wheel.ctr == k.wheel.ctr && wheel.due == k.wheel.due - Elements(Wheel.Update(k.wheel).1)
    ensures var w := wheel.(ctr := Plus(wheel.ctr, 1));
      WheelInv(tasks, w) && Wheel.Sleepers(w) == Wheel.ScanAll(Wheel.Sleepers(k.wheel))
  {
    Wheel.UpdateRefines(k.wheel);
    forall t | t in wheel.due
      ensures wheel.due[t] != Plus(k.wheel.ctr, 1)
    {
      Wheel.ScanStopsRight(k.wheel, t);
    }
    hide Wheel.Valid, WheelInv;
    Advanced(wheel, tasks);
    assert Wheel.Sleepers(wheel.(ctr := Plus(wheel.ctr, 1))) == Wheel.Sleepers(Wheel.Update(k.wheel).0);
  }

  // A tick keeps the invariant, counts every sleeper down by one exactly as a scan of the
  // whole table would, wakes just the ones at their last tick, and leaves the order of every
  // pend list as it was.
  lemma TickKeeps(k: K)
    requires Inv(k)
    ensures Inv(Tick(k))
    ensures Wheel.Sleepers(Tick(k).wheel) == Wheel.ScanAll(Wheel.Sleepers(k.wheel))
    ensures Released(k, Tick(k), Wheel.Due(Wheel.Sleepers(k.wheel)), Expired)
  {
    var out := Wheel.Update(k.wheel).1;
    TickWakesDue(k);
    ReleaseAllKeeps(k, out, Expired);
    var k1 := ReleaseAll(k, out, Expired);
    hide RdyInv, PendInv;
    TickWheel(k, k1.wheel, k1.tasks);
  }

  // ---------------------------------------------------------------- the scheduler

  // The first non-empty ready list.
  function Highest(rdy: ReadyLists, p: nat): (r: nat)
    requires p <= PRIO_MAX
    ensures p <= r <= PRIO_MAX
    ensures forall q :: p <= q < r ==> rdy[q] == []
    ensures r < PRIO_MAX ==> rdy[r] != []
    decreases PRIO_MAX - p
  {
    if p == PRIO_MAX || rdy[p] != [] then p else Highest(rdy, p + 1)
  }

  // OSSched outside of interrupts; OS_TASK_SW makes the new task current.
  function Sched(k: K): K {
    var h := Highest(k.rdy, 0);
    if k.schedLock > 0 || h == PRIO_MAX || k.rdy[h][0] == k.cur then k
    else k.(cur := k.rdy[h][0], prioCur := h)
  }

  lemma HighestIsBest(k: K)
    requires Inv(k)
    ensures var h := Highest(k.rdy, 0);
      && h < PRIO_MAX && k.rdy[h][0] in k.tasks && k.tasks[k.rdy[h][0]].st == RDY && k.tasks[k.rdy[h][0]].prio == h
      && (forall t :: t in k.tasks && k.tasks[t].st == RDY ==> h <= k.tasks[t].prio)
  {
    hide RdyInv, WheelInv, PendInv, Highest, TcbOk;
    ReadyListed(k.tasks, k.rdy, IDLE);
    FirstReady(k.tasks, k.rdy, Highest(k.rdy, 0));
    forall t | t in k.tasks && k.tasks[t].st == RDY
      ensures Highest(k.rdy, 0) <= k.tasks[t].prio
    {
      ReadyListed(k.tasks, k.rdy, t);
    }
  }

  lemma ReadyListed(tasks: map<Tid, Tcb>, rdy: ReadyLists, t: Tid)
    requires RdyInv(tasks, rdy) && t in tasks && tasks[t].st == RDY
    ensures t in rdy[tasks[t].prio] && Highest(rdy, 0) <= tasks[t].prio
  {
  }

  lemma FirstReady(tasks: map<Tid, Tcb>, rdy: ReadyLists, p: Prio)
    requires RdyInv(tasks, rdy) && rdy[p] != []
    ensures rdy[p][0] in tasks && tasks[rdy[p][0]].st == RDY && tasks[rdy[p][0]].prio == p
  {
    assert rdy[p][0] in rdy[p];
  }

  // With the scheduler unlocked the task that runs next heads the list of the best priority
  // among all ready tasks.
  lemma SchedPicksBest(k: K)
    requires Inv(k) && k.schedLock == 0
    ensures var k' := Sched(k);
      && Inv(k') && k'.(cur := k.cur, prioCur := k.prioCur) == k
      && k'.cur in k.tasks && k.tasks[k'.cur].st == RDY
      && k.rdy[k.tasks[k'.cur].prio] != [] && k.rdy[k.tasks[k'.cur].prio][0] == k'.cur
      && (forall t :: t in k.tasks && k.tasks[t].st == RDY ==> k.tasks[k'.cur].prio <= k.tasks[t].prio)
      && (k'.cur != k.cur ==> k'.prioCur == k.tasks[k'.cur].prio)
  {
    HighestIsBest(k);
    hide RdyInv, WheelInv, PendInv;
  }

  // Readying a task of the running task's priority leaves the running task running, as
  // OS_RdyListInsert intends, exactly when OSPrioCur is up to date.
  lemma EqualPriority(k: K, t: Tid, c: Tcb)
    requires Inv(k) && k.schedLock == 0 && Sched(k).cur == k.cur && k.cur in k.tasks
    requires t in k.tasks && t != k.cur && k.tasks[t].st != RDY && c.st == RDY
    requires c.prio == k.tasks[k.cur].prio
    ensures Sched(Release(k, t, c)).cur == k.cur <==> k.prioCur == k.tasks[k.cur].prio
  {
    SchedPicksBest(k);
    hide Inv, Unpend, Wheel.Remove, RdyInsert;
    assert Highest(k.rdy, 0) == c.prio;
    InsertAtBest(k.rdy, k.prioCur, c.prio, t);
  }

  lemma InsertAtBest(rdy: ReadyLists, prioCur: Prio, p: Prio, t: Tid)
    requires Highest(rdy, 0) == p && rdy[p] != []
    ensures var r := RdyInsert(rdy, prioCur, p, t);
      Highest(r, 0) == p && r[p] != [] && r[p][0] == if p == prioCur then rdy[p][0] else t
  {
    var r := RdyInsert(rdy, prioCur, p, t);
    var h := Highest(r, 0);
    assert r[p] == (if p == prioCur then rdy[p] + [t] else [t] + rdy[p]);
    assert forall q :: 0 <= q < p ==> rdy[q] == [] && r[q] == rdy[q];
    assert h < PRIO_MAX ==> r[h] != [];
    assert h == p;
  }

  // OS_RdyListMoveHeadToTail on one priority's list.
  function Rotate(k: K, p: Prio): K {
    if |k.rdy[p]| < 2 then k else k.(rdy := k.rdy[p := k.rdy[p][1..] + [k.rdy[p][0]]])
  }

  lemma RotateKeeps(k: K, p: Prio)
    requires Inv(k)
    ensures Inv(Rotate(k, p))
  {
    hide WheelInv, PendInv;
    var l := k.rdy[p];
    if |l| >= 2 {
      var r := l[1..] + [l[0]];
      assert forall i :: 0 <= i < |r| ==> r[i] == if i + 1 < |l| then l[i+1] else l[0];
      forall x | x in l
        ensures x in r
      {
        var i :| 0 <= i < |l| && l[i] == x;
        assert r[if i == 0 then |l| - 1 else i - 1] == x;
      }
      assert forall x :: x in r ==> x in l;
    }
  }

  // ---------------------------------------------------------------- runs

  datatype Op =
    | OpPend(on: PendOn, objs: seq<Oid>, timeout: Tick)
    | OpPost(t: Tid, o: Oid, msg: Msg)
    | OpCancel(t: Tid, o: Oid, status: PendStatus)
    | OpFlagRdy(t: Tid, rdy: bv32)
    | OpDly(time: Tick, opt: TimeOpt)
    | OpDlyResume(t: Tid)
    | OpSuspend(t: Tid)
    | OpResume(t: Tid)
    | OpChangePrio(t: Tid, prio: nat, self: bool)
    | OpCreate(t: Tid, p: Prio)
    | OpDelete(t: Tid)
    | OpTick
    | OpRotate(p: Prio)
    | OpLock
    | OpUnlock
    | OpSched

  const LOCK_MAX := 250

  // What the callers of each service guarantee: it exists, and it is the running task that
  // pends and sleeps.
  ghost predicate Allowed(k: K, op: Op) {
    match op
    case OpPend(on, objs, _) => Runs(k) && PendArgs(k, on, objs)
    case OpDly(_, _) => Runs(k)
    case OpCreate(t, _) => t !in k.tasks
    case OpPost(t, _, _) => t in k.tasks
    case OpCancel(t, _, _) => t in k.tasks
    case OpFlagRdy(t, _) => t in k.tasks
    case OpDlyResume(t) => t in k.tasks
    case OpSuspend(t) => t in k.tasks
    case OpResume(t) => t in k.tasks
    case OpChangePrio(t, _, _) => t in k.tasks
    case OpDelete(t) => t in k.tasks
    case _ => true
  }

  function Step(k: K, op: Op): K
    requires Allowed(k, op)
  {
    match op
    case OpPend(on, objs, timeout) => Pend(k, on, objs, timeout)
    case OpPost(t, o, msg) => Post(k, t, o, msg)
    case OpCancel(t, o, status) => Cancel(k, t, o, status)
    case OpFlagRdy(t, rdy) => FlagRdy(k, t, rdy)
    case OpDly(time, opt) => TimeDly(k, time, opt)
    case OpDlyResume(t) => DlyResume(k, t)
    case OpSuspend(t) => Suspend(k, t)
    case OpResume(t) => Resume(k, t)
    case OpChangePrio(t, prio, self) => ChangePrio(k, t, prio, self)
    case OpCreate(t, p) => Create(k, t, p)
    case OpDelete(t) => Delete(k, t)
    case OpTick => Tick(k)
    case OpRotate(p) => Rotate(k, p)
    case OpLock => if k.schedLock >= LOCK_MAX then k else k.(schedLock := k.schedLock + 1)
    case OpUnlock => if k.schedLock == 0 then k else Sched(k.(schedLock := k.schedLock - 1))
    case OpSched => Sched(k)
  }

  // The four calls after which the lists and the task states disagree.
  predicate Broken(k: K, op: Op) {
    match op
    case OpFlagRdy(t, _) => t in k.tasks && k.tasks[t].st == PEND_TIMEOUT_SUSPENDED
    case OpDly(time, opt) => opt == Match && Minus(k.wheel.ctr, time) < 0xFFFF
    case OpSuspend(t) => t in k.tasks && k.tasks[t].suspendCtr == SUSPEND_MAX && !(t == k.cur && k.schedLock > 0)
    case OpChangePrio(t, prio, _) =>
      && prio < PRIO_MAX - 1 && t in k.tasks && k.tasks[t].pendOn == OnFlag && k.tasks[t].table != []
      && k.tasks[t].table[0].obj in k.pend && !Fits(k.tasks, k.pend[k.tasks[t].table[0].obj], t, prio)
    case _ => false
  }

  lemma SchedKeeps(k: K)
    requires Inv(k)
    ensures Inv(Sched(k))
  {
    hide RdyInv, WheelInv, PendInv;
  }

  // Every service keeps the invariant, except for the four broken calls, which never do.
  lemma StepKeeps(k: K, op: Op)
    requires Inv(k) && Allowed(k, op)
    ensures Inv(Step(k, op)) <==> !Broken(k, op)
  {
    hide Inv;
    match op
    case OpPend(on, objs, timeout) => PendKeeps(k, on, objs, timeout);
    case OpPost(t, o, msg) => PostKeeps(k, t, o, msg);
    case OpCancel(t, o, status) => CancelKeeps(k, t, o, status);
    case OpFlagRdy(t, rdy) => FlagRdyKeeps(k, t, rdy);
    case OpDly(time, opt) => DlyKeeps(k, time, opt);
    case OpDlyResume(t) => DlyResumeKeeps(k, t);
    case OpSuspend(t) => SuspendKeeps(k, t);
    case OpResume(t) => ResumeKeeps(k, t);
    case OpChangePrio(t, prio, self) => ChangePrioKeeps(k, t, prio, self);
    case OpCreate(t, p) => CreateKeeps(k, t, p);
    case OpDelete(t) => DeleteKeeps(k, t);
    case OpTick => TickKeeps(k);
    case OpRotate(p) => RotateKeeps(k, p);
    case OpLock => LockKeeps(k, k.schedLock + 1);
    case OpUnlock => if k.schedLock > 0 { LockKeeps(k, k.schedLock - 1); SchedKeeps(k.(schedLock := k.schedLock - 1)); }
    case OpSched => SchedKeeps(k);
  }

  lemma LockKeeps(k: K, n: nat)
    requires Inv(k)
    ensures Inv(k.(schedLock := n))
  {
    hide RdyInv, WheelInv, PendInv;
  }

  ghost predicate Legal(k: K, ops: seq<Op>)
    decreases |ops|
  {
    ops == [] || (Allowed(k, ops[0]) && !Broken(k, ops[0]) && Legal(Step(k, ops[0]), ops[1..]))
  }

  ghost function Run(k: K, ops: seq<Op>): K
    requires Legal(k, ops)
    decreases |ops|
  {
    if ops == [] then k else Run(Step(k, ops[0]), ops[1..])
  }

  // In every reachable state the task states and the lists tell the same story.
  lemma {:induction false} RunKeeps(k: K, ops: seq<Op>)
    requires Inv(k) && Legal(k, ops)
    ensures Inv(Run(k, ops))
    decreases |ops|
  {
    if ops != [] {
      StepKeeps(k, ops[0]);
      RunKeeps(Step(k, ops[0]), ops[1..]);
    }
  }

  // ---------------------------------------------------------------- waiting on several objects

  // Posting to one object of a table: the task leaves the list of every object of its table
  // and of no other, everybody else keeps the order, and exactly the entry posted to is marked.
  lemma MultiPostAtomic(k: K, t: Tid, o: Oid, msg: Msg)
    requires Inv(k) && t in k.tasks && k.tasks[t].pendOn == OnMulti && o in Objects(k.tasks[t].table)
    ensures var k' := Post(k, t, o, msg); var table := k.tasks[t].table; var table' := k'.tasks[t].table;
      && (forall x :: x in k.tasks && x != t ==> k'.tasks[x] == k.tasks[x])
      && (forall q :: q in k.pend ==> q in k'.pend && k'.pend[q] == Without(k.pend[q], t) && t !in k'.pend[q])
      && (forall q :: q in k.pend ==> |k'.pend[q]| == |k.pend[q]| - (if q in Objects(table) then 1 else 0))
      && |table'| == |table|
      && (forall i :: 0 <= i < |table| ==>
           table'[i] == (if table[i].obj == o then PendData(o, true, msg) else PendData(table[i].obj, false, NULL_MSG)))
      && k'.tasks[t].pendOn == OnNothing && k'.tasks[t].status == PendOk && !k'.tasks[t].linked
  {
    hide RdyInv, WheelInv, PendInv, Mark, Without, RdyInsert, Wheel.Remove;
    var c := k.tasks[t];
    assert TcbOk(c);
    MarkOne(c.table, o, true, msg);
    ReleasedPend(k, t, Posted(c, o, msg));
    forall q | q in k.pend
      ensures |Without(k.pend[q], t)| == |k.pend[q]| - (if q in Objects(c.table) then 1 else 0)
    {
      OneFewer(k.tasks, k.pend, t, q);
    }
  }

  lemma OneFewer(tasks: map<Tid, Tcb>, pend: map<Oid, seq<Tid>>, t: Tid, q: Oid)
    requires PendInv(tasks, pend) && t in tasks && tasks[t].linked && q in pend
    ensures |Without(pend[q], t)| == |pend[q]| - (if q in Objects(tasks[t].table) then 1 else 0)
  {
    if t in pend[q] {
      assert Waits(tasks, t, q);
      var p :| 0 <= p < |pend[q]| && pend[q][p] == t;
      WithoutIsRemoveAt(pend[q], p);
    }
  }

  lemma {:induction false} MarkOne(table: seq<PendData>, o: Oid, posted: bool, msg: Msg)
    requires TableDistinct(table) && Unanswered(table)
    ensures var r := Mark(table, o, posted, msg);
      |r| == |table| && forall i :: 0 <= i < |r| ==>
        r[i] == if table[i].obj == o then PendData(o, true, if posted then msg else NULL_MSG) else table[i]
  {
    if table != [] {
      assert forall i :: 1 <= i < |table| ==> table[1..][i-1] == table[i];
      MarkOne(table[1..], o, posted, msg);
    }
  }

  // Aborting or deleting one object of a table does the same, without a message.
  lemma MultiCancelAtomic(k: K, t: Tid, o: Oid, status: PendStatus)
    requires Inv(k) && t in k.tasks && k.tasks[t].pendOn == OnMulti && o in Objects(k.tasks[t].table)
    ensures var k' := Cancel(k, t, o, status); var table := k.tasks[t].table; var table' := k'.tasks[t].table;
      && (forall x :: x in k.tasks && x != t ==> k'.tasks[x] == k.tasks[x])
      && (forall q :: q in k.pend ==> q in k'.pend && k'.pend[q] == Without(k.pend[q], t) && t !in k'.pend[q])
      && (forall q :: q in k.pend ==> |k'.pend[q]| == |k.pend[q]| - (if q in Objects(table) then 1 else 0))
      && |table'| == |table|
      && (forall i :: 0 <= i < |table| ==> table'[i] == table[i].(ready := table[i].obj == o))
      && k'.tasks[t].pendOn == OnNothing && k'.tasks[t].status == status && k'.tasks[t].msg == NULL_MSG
  {
    hide RdyInv, WheelInv, PendInv, Mark, Without, RdyInsert, Wheel.Remove;
    var c := k.tasks[t];
    assert TcbOk(c);
    MarkOne(c.table, o, false, NULL_MSG);
    ReleasedPend(k, t, Cancelled(c, o, status));
    forall q | q in k.pend
      ensures |Without(k.pend[q], t)| == |k.pend[q]| - (if q in Objects(c.table) then 1 else 0)
    {
      OneFewer(k.tasks, k.pend, t, q);
    }
  }

  // A kernel with an idle task and nothing else.
  function Initial(spokes: nat): K
    requires spokes > 0
  {
    var none: map<Tid, Tick> := map[];
    K(map[IDLE := NewTcb(PRIO_MAX - 1)],
      seq(PRIO_MAX, p requires 0 <= p < PRIO_MAX => if p == PRIO_MAX - 1 then [IDLE] else []),
      Wheel.Wheel(0, seq(spokes, i => []), none), map[], IDLE, PRIO_MAX - 1, 0)
  }

  lemma InitialKeeps(spokes: nat)
    requires spokes > 0
    ensures Inv(Initial(spokes))
  {
  }
}
