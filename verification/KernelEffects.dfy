// What the kernel services mean to the tasks: what a woken task finds, which calls undo each
// other, and when a sleeping task wakes, over whole runs (os_core.c, os_task.c, os_time.c).

module KernelEffects {
  import opened Ticks
  import opened Lists
  import opened Tasks
  import opened KernelState
  import opened KernelSteps
  import opened KernelReleases
  import opened KernelRuns
  import TickRuns
  import Wheel = TickWheelSpec

  // ---------------------------------------------------------------- undoing

  // A suspension and a resumption cancel out, but for the place among ready tasks of the same
  // priority.
  lemma ResumeUndoesSuspend(k: K, t: Tid)
    requires Inv(k) && t in k.tasks && t != IDLE && t != k.cur && k.tasks[t].suspendCtr < SUSPEND_MAX
    ensures t in Suspend(k, t).tasks
    ensures var k' := Resume(Suspend(k, t), t); var p := k.tasks[t].prio;
      && k'.tasks == k.tasks && k'.wheel == k.wheel && k'.pend == k.pend
      && k'.rdy == if k.tasks[t].st == RDY then RdyInsert(RdyRemove(k.rdy, p, t), k.prioCur, p, t) else k.rdy
  {
    hide Inv, TcbOk, Wheel.Remove, RdyInsert, RdyRemove;
    var c := k.tasks[t];
    AwakeParts(k, t);
    assert k.tasks[t := OnceMore(c)][t := c] == k.tasks;
    if c.st == RDY { RemoveAbsent(k.wheel, t); }
  }

  lemma AwakeParts(k: K, t: Tid)
    requires Inv(k) && t in k.tasks
    ensures var c := k.tasks[t];
      && (c.st.susp <==> 0 < c.suspendCtr) && (c.st.dly <==> t in k.wheel.due)
      && (c.linked ==> c.st.pend) && (c.st.pend ==> t != k.cur || c.st != RDY)
  {
    assert TcbOk(k.tasks[t]);
  }

  // A task created and deleted again leaves no trace.
  lemma DeleteUndoesCreate(k: K, t: Tid, prio: Prio)
    requires Inv(k) && t !in k.tasks
    ensures t in Create(k, t, prio).tasks && Delete(Create(k, t, prio), t) == k
  {
    var l := k.rdy[prio];
    assert t !in l;
    WithoutInserted(l, |l|, t);
    assert InsertAt(l, |l|, t) == l + [t];
    assert k.tasks[t := NewTcb(prio)] - {t} == k.tasks;
    assert k.rdy[prio := l + [t]][prio := l] == k.rdy;
  }

  lemma UnpendUndoesEnlist(tasks: map<Tid, Tcb>, pend: map<Oid, seq<Tid>>, t: Tid, prio: nat, objs: set<Oid>)
    requires forall o :: o in pend ==> Distinct(pend[o]) && t !in pend[o]
    ensures Unpend(Enlist(tasks, pend, t, prio, objs), t) == pend
  {
    hide Without, InsertAt, Distinct;
    forall o | o in pend
      ensures Without(Enlist(tasks, pend, t, prio, objs)[o], t) == pend[o]
    {
      if o in objs {
        WithoutInserted(pend[o], PrioPos(tasks, pend[o], prio), t);
      } else {
        NothingWithout(pend[o], t);
      }
    }
  }

  lemma NothingWithout(l: seq<Tid>, t: Tid)
    requires t !in l
    ensures Without(l, t) == l
  {
  }

  lemma RemoveUndoesInsert(w: TickWheel, t: Tid, d: Tick)
    requires Wheel.Valid(w) && t !in w.due
    ensures Wheel.Remove(Wheel.Insert(w, t, d), t) == w
  {
    var k := SpokeOf(d, |w.spokes|);
    var l := w.spokes[k];
    var p := Wheel.InsertPos(w.due, w.ctr, l, Minus(d, w.ctr));
    assert t !in l by { assert Wheel.SpokeOk(w.due, w.ctr, |w.spokes|, k, l); }
    WithoutInserted(l, p, t);
    assert w.due[t := d] - {t} == w.due;
    assert w.spokes[k := InsertAt(l, p, t)][k := l] == w.spokes;
  }

  // Everything but the running task and its place among the ready ones is as before.
  ghost predicate Undone(k: K, k': K) {
    && k'.tasks.Keys == k.tasks.Keys && (forall x :: x in k.tasks && x != k.cur ==> k'.tasks[x] == k.tasks[x])
    && k'.wheel == k.wheel && k'.pend == k.pend && k.cur in k'.tasks && k'.tasks[k.cur].st == RDY
    && (k.cur in k.tasks ==>
         k'.rdy == RdyInsert(RdyRemove(k.rdy, k.tasks[k.cur].prio, k.cur), k.prioCur, k.tasks[k.cur].prio, k.cur))
  }

  lemma OnNoList(k: K)
    requires Inv(k) && Runs(k)
    ensures k.cur !in k.wheel.due && !k.tasks[k.cur].linked && Wheel.Valid(k.wheel)
    ensures forall o :: o in k.pend ==> Distinct(k.pend[o]) && k.cur !in k.pend[o]
  {
    assert TcbOk(k.tasks[k.cur]);
    NotLinked(k.tasks, k.pend, k.cur);
  }

  // Readying a task that has just blocked takes it off the wheel and off every list again.
  lemma ReleaseUndoesPend(k: K, on: PendOn, objs: seq<Oid>, timeout: Tick, c: Tcb)
    requires Inv(k) && Runs(k) && PendArgs(k, on, objs) && c.st == RDY && c.prio == k.tasks[k.cur].prio
    ensures Undone(k, Release(Pend(k, on, objs, timeout), k.cur, c))
  {
    hide Inv, Wheel.Valid, Wheel.Insert, Wheel.Remove, Unpend, Enlist, RdyInsert, RdyRemove, Distinct, PendArgs,
         FreshTable;
    OnNoList(k);
    var b := Blocked(k, on, objs, timeout);
    if timeout > 0 {
      RemoveUndoesInsert(k.wheel, k.cur, Plus(k.wheel.ctr, timeout));
    } else {
      RemoveAbsent(k.wheel, k.cur);
    }
    UnpendUndoesEnlist(k.tasks, k.pend, k.cur, b.prio, Objects(b.table));
    EnlistNowhere(k.tasks, k.pend, k.cur, b.prio, objs);
  }

  lemma RemoveAbsent(w: TickWheel, t: Tid)
    requires t !in w.due
    ensures Wheel.Remove(w, t) == w
  {
  }

  lemma EnlistNowhere(tasks: map<Tid, Tcb>, pend: map<Oid, seq<Tid>>, t: Tid, prio: nat, objs: seq<Oid>)
    ensures objs == [] ==> Enlist(tasks, pend, t, prio, Objects(FreshTable(objs))) == pend
  {
  }

  // A wait that is answered or cut short at once, and a delay that is, leave everybody else,
  // the wheel and every pend list as they were.
  lemma CancelUndoesPend(k: K, on: PendOn, objs: seq<Oid>, timeout: Tick, o: Oid, status: PendStatus)
    requires Inv(k) && Runs(k) && PendArgs(k, on, objs)
    ensures var k1 := Pend(k, on, objs, timeout);
      k.cur in k1.tasks && Undone(k, Cancel(k1, k.cur, o, status))
        && Cancel(k1, k.cur, o, status).tasks[k.cur].status == status
  {
    hide Inv, Release, PendArgs, Enlist, Wheel.Insert, RdyRemove, Undone, Mark;
    ReleaseUndoesPend(k, on, objs, timeout, Cancelled(Blocked(k, on, objs, timeout), o, status));
    ReleasedTask(Pend(k, on, objs, timeout), k.cur, Cancelled(Blocked(k, on, objs, timeout), o, status));
  }

  lemma PostUndoesPend(k: K, on: PendOn, objs: seq<Oid>, timeout: Tick, o: Oid, msg: Msg)
    requires Inv(k) && Runs(k) && PendArgs(k, on, objs) && on != OnMulti
    ensures var k1 := Pend(k, on, objs, timeout); var k2 := Post(k1, k.cur, o, msg);
      k.cur in k1.tasks && Undone(k, k2) && k2.tasks[k.cur].status == PendOk && k2.tasks[k.cur].msg == msg
  {
    hide Inv, Release, PendArgs, Enlist, Wheel.Insert, RdyRemove, Undone, Mark;
    ReleaseUndoesPend(k, on, objs, timeout, Posted(Blocked(k, on, objs, timeout), o, msg));
    ReleasedTask(Pend(k, on, objs, timeout), k.cur, Posted(Blocked(k, on, objs, timeout), o, msg));
  }

  lemma ReleasedTask(k: K, t: Tid, c: Tcb)
    ensures t in Release(k, t, c).tasks && Release(k, t, c).tasks[t] == c
  {
  }

  lemma DlyResumeUndoesDly(k: K, time: Tick, opt: TickRuns.TimeOpt)
    requires Inv(k) && Runs(k) && TickRuns.PlanOf(k.wheel.ctr, k.tasks[k.cur].tickPrev, time, opt).Wake?
    ensures k.cur in TimeDly(k, time, opt).tasks && Undone(k, DlyResume(TimeDly(k, time, opt), k.cur))
  {
    hide Inv, Wheel.Valid, Wheel.Insert, Wheel.Remove, RdyInsert, RdyRemove, Distinct, TickRuns.PlanOf;
    var p := TickRuns.PlanOf(k.wheel.ctr, k.tasks[k.cur].tickPrev, time, opt);
    TickRuns.PlanMeaning(k.wheel.ctr, k.tasks[k.cur].tickPrev, time, opt);
    OnNoList(k);
    RemoveUndoesInsert(k.wheel, k.cur, p.due);
  }

  // A change of priority changes nothing else: every other task keeps its place on the ready
  // lists and the pend lists, and the wheel is not touched. A ready task goes to the head of its
  // new list when it changed its own priority, and to the tail otherwise.
  lemma ChangePrioOnly(k: K, t: Tid, prio: nat, self: bool)
    requires Inv(k) && t in k.tasks && prio < PRIO_MAX - 1
    ensures var k' := ChangePrio(k, t, prio, self);
      && k'.tasks == k.tasks[t := k.tasks[t].(prio := prio)] && k'.wheel == k.wheel && k'.cur == k.cur
      && k'.pend.Keys == k.pend.Keys && (forall o :: o in k.pend ==> Without(k'.pend[o], t) == Without(k.pend[o], t))
      && (forall p :: 0 <= p < PRIO_MAX ==> Without(k'.rdy[p], t) == Without(k.rdy[p], t))
      && (k.tasks[t].st == RDY ==> var l := Without(k.rdy[prio], t); k'.rdy[prio] == if self then [t] + l else l + [t])
  {
    hide Inv, InsertPrio, Objects, Without;
    var c := k.tasks[t];
    var tasks := k.tasks[t := c.(prio := prio)];
    ReadyParts(k, t, prio);
    if c.st == RDY {
      Repositioned(k.rdy, c.prio, prio, t, if self then AtHead else AtTail);
    } else if c.linked && c.pendOn != OnFlag {
      PendParts(k);
      forall o | o in k.pend
        ensures Without(Enlist(tasks, Unpend(k.pend, t), t, prio, Objects(c.table))[o], t) == Without(k.pend[o], t)
      {
        Reinserted(tasks, k.pend[o], t, prio);
      }
    }
  }

  lemma ReadyParts(k: K, t: Tid, prio: Prio)
    requires Inv(k) && t in k.tasks
    ensures forall p :: 0 <= p < PRIO_MAX ==>
      Distinct(k.rdy[p]) && (t in k.rdy[p] ==> k.tasks[t].st == RDY && p == k.tasks[t].prio)
    ensures k.tasks[t].st == RDY ==> !k.tasks[t].linked
  {
    assert TcbOk(k.tasks[t]);
  }

  lemma PendParts(k: K)
    requires Inv(k)
    ensures forall o :: o in k.pend ==> Distinct(k.pend[o])
  {
  }

  lemma Reinserted(tasks: map<Tid, Tcb>, l: seq<Tid>, t: Tid, prio: nat)
    requires Distinct(l)
    ensures Without(InsertPrio(tasks, Without(l, t), t, prio), t) == Without(l, t)
    ensures Without(Without(l, t), t) == Without(l, t)
  {
    WithoutDistinct(l, t);
    WithoutInserted(Without(l, t), PrioPos(tasks, Without(l, t), prio), t);
    NothingWithout(Without(l, t), t);
  }

  lemma Repositioned(rdy: ReadyLists, was: Prio, prio: Prio, t: Tid, place: Place)
    requires forall p :: 0 <= p < PRIO_MAX ==> Distinct(rdy[p]) && (t in rdy[p] ==> p == was)
    ensures var r := RdyPut(RdyRemove(rdy, was, t), prio, t, place); var l := Without(rdy[prio], t);
      && r[prio] == (if place == AtHead then [t] + l else l + [t])
      && forall p :: 0 <= p < PRIO_MAX ==> Without(r[p], t) == Without(rdy[p], t)
  {
    var l := Without(rdy[prio], t);
    NothingWithout(l, t);
    WithoutDistinct(rdy[prio], t);
    WithoutInserted(l, if place == AtHead then 0 else |l|, t);
    assert InsertAt(l, |l|, t) == l + [t] && InsertAt(l, 0, t) == [t] + l;
    NothingWithout(Without(rdy[was], t), t);
    if prio != was { NothingWithout(rdy[prio], t); }
  }

  // ---------------------------------------------------------------- what a woken task finds

  predicate Awake(c: Tcb, c': Tcb, status: PendStatus) {
    && c'.st == TaskState(c.st.susp, false, false) && c'.pendOn == OnNothing && !c'.linked && c'.status == status
    && c'.prio == c.prio && c'.suspendCtr == c.suspendCtr
  }

  // Not waiting and not delayed any more, ready unless it is suspended, on no wheel and no
  // pend list.
  ghost predicate Woken(k: K, k': K, t: Tid, status: PendStatus) {
    && t in k.tasks && t in k'.tasks && Awake(k.tasks[t], k'.tasks[t], status)
    && t !in k'.wheel.due && (k'.tasks[t].st == RDY <==> t in k'.rdy[k'.tasks[t].prio])
    && forall o :: o in k'.pend ==> t !in k'.pend[o]
  }

  lemma ReleasedWoken(k: K, k': K, gone: set<Tid>, f: Tcb -> Tcb, t: Tid, status: PendStatus)
    requires Inv(k') && Released(k, k', gone, f) && t in k.tasks && t in gone
    requires Awake(k.tasks[t], f(k.tasks[t]), status)
    ensures Woken(k, k', t, status)
  {
    NotLinked(k'.tasks, k'.pend, t);
  }

  // Everybody who is not woken keeps his state, and his place on the pend lists.
  ghost predicate OthersStay(k: K, k': K, gone: set<Tid>) {
    && k'.tasks.Keys == k.tasks.Keys && k'.pend.Keys == k.pend.Keys
    && (forall x :: x in k.tasks && x !in gone ==> k'.tasks[x] == k.tasks[x])
    && forall o :: o in k.pend ==> k'.pend[o] == Except(k.pend[o], gone)
  }

  // A tick times out exactly the waiting tasks at their last tick, and ends exactly the delays
  // at theirs.
  lemma TickTells(k: K)
    requires Inv(k)
    ensures var due := Wheel.Due(Wheel.Sleepers(k.wheel)); var k' := KernelRuns.Tick(k);
      && OthersStay(k, k', due)
      && forall t :: t in due ==>
           && t in k.tasks && t in k'.tasks && t !in k'.wheel.due
           && if k.tasks[t].st.pend then Woken(k, k', t, PendTimeout) && k'.tasks[t].msg == NULL_MSG
              else k'.tasks[t] == k.tasks[t].(st := TaskState(k.tasks[t].st.susp, false, false))
  {
    hide RdyInv, WheelInv, PendInv, Wheel.Valid, KernelRuns.Tick;
    TickKeeps(k);
    var due, k' := Wheel.Due(Wheel.Sleepers(k.wheel)), KernelRuns.Tick(k);
    forall t | t in due
      ensures t in k.tasks && t in k'.tasks && t !in k'.wheel.due
      ensures if k.tasks[t].st.pend then Woken(k, k', t, PendTimeout) && k'.tasks[t].msg == NULL_MSG
              else k'.tasks[t] == k.tasks[t].(st := TaskState(k.tasks[t].st.susp, false, false))
    {
      DueTask(k, t);
      if k.tasks[t].st.pend { ReleasedWoken(k, k', due, Expired, t, PendTimeout); }
      OffTheWheel(k', t);
    }
  }

  lemma DueTask(k: K, t: Tid)
    requires Inv(k) && t in k.wheel.due
    ensures t in k.tasks && k.tasks[t].st.dly
  {
  }

  lemma OffTheWheel(k: K, t: Tid)
    requires Inv(k) && t in k.tasks && !k.tasks[t].st.dly
    ensures t !in k.wheel.due
  {
  }

  // ---------------------------------------------------------------- when a sleeper wakes

  // The call does not wake the sleeper t: it does not end a wait of t, resume a delay of t or
  // delete t. Suspending it, resuming it or changing its priority does not wake it.
  predicate Spares(k: K, op: Op, t: Tid)
    requires t in k.tasks
  {
    match op
    case OpPost(x, _, _) => x == t ==> !k.tasks[t].st.pend
    case OpCancel(x, _, _) => x == t ==> !k.tasks[t].st.pend
    case OpFlagRdy(x, _) => x == t ==> !k.tasks[t].st.pend
    case OpDlyResume(x) => x == t ==> k.tasks[t].st.pend
    case OpDelete(x) => x != t
    case _ => true
  }

  ghost predicate AllSpare(k: K, ops: seq<Op>, t: Tid)
    requires Legal(k, ops)
    decreases |ops|
  {
    ops == [] || (t in k.tasks && Spares(k, ops[0], t) && AllSpare(Step(k, ops[0]), ops[1..], t))
  }

  function TicksIn(ops: seq<Op>): nat {
    if ops == [] then 0 else (if ops[0] == OpTick then 1 else 0) + TicksIn(ops[1..])
  }

  // t sleeps with n ticks to go, waiting for something or not.
  ghost predicate Sleeps(k: K, t: Tid, n: nat, waiting: bool) {
    && t in k.tasks && k.tasks[t].st.dly && k.tasks[t].st.pend == waiting
    && t in k.wheel.due && Minus(k.wheel.due[t], k.wheel.ctr) == n
  }

  lemma ReleaseSpares(k: K, x: Tid, c: Tcb, t: Tid, n: nat, waiting: bool)
    requires x != t && Sleeps(k, t, n, waiting)
    ensures Sleeps(Release(k, x, c), t, n, waiting)
  {
    hide Unpend, RdyInsert, Minus, SpokeOf, Without;
  }

  lemma BlockSpares(k: K, op: KernelRuns.Op, t: Tid, n: nat, waiting: bool)
    requires Allowed(k, op) && (op.OpPend? || op.OpDly?) && Sleeps(k, t, n, waiting)
    ensures Sleeps(Step(k, op), t, n, waiting)
  {
    hide Enlist, RdyRemove, Mark, FreshTable, Minus, Plus, TickRuns.PlanOf, PendArgs, SpokeOf, Wheel.InsertPos;
  }

  predicate Wakes(op: KernelRuns.Op) {
    op.OpPost? || op.OpCancel? || op.OpFlagRdy? || op.OpDlyResume? || op.OpResume?
  }

  lemma WakeSpares(k: K, op: KernelRuns.Op, t: Tid, n: nat, waiting: bool)
    requires Allowed(k, op) && Wakes(op) && t in k.tasks && Spares(k, op, t) && Sleeps(k, t, n, waiting)
    ensures Sleeps(Step(k, op), t, n, waiting)
  {
    hide Wheel.Remove, Release, Unpend, Mark, Minus, Posted, Cancelled, Freed;
    if op.t != t {
      match op
      case OpPost(x, o, msg) => ReleaseSpares(k, x, Posted(k.tasks[x], o, msg), t, n, waiting);
      case OpCancel(x, o, status) => ReleaseSpares(k, x, Cancelled(k.tasks[x], o, status), t, n, waiting);
      case OpFlagRdy(x, rdy) => ReleaseSpares(k, x, Freed(k.tasks[x].(flagsRdy := rdy), PendOk), t, n, waiting);
      case OpDlyResume(x) =>
        ReleaseSpares(k, x, k.tasks[x].(st := if k.tasks[x].st == DLY then RDY else SUSPENDED), t, n, waiting);
      case OpResume(x) => ReleaseSpares(k, x, k.tasks[x].(suspendCtr := 0, st := RDY), t, n, waiting);
    }
  }

  lemma ReleaseWakes(k: K, t: Tid, c: Tcb)
    ensures t !in Release(k, t, c).wheel.due
  {
  }

  lemma WakeEnds(k: K, op: KernelRuns.Op, t: Tid, n: nat, waiting: bool)
    requires Inv(k) && Allowed(k, op) && t in k.tasks && !Spares(k, op, t) && Sleeps(k, t, n, waiting)
    ensures !Sleeps(Step(k, op), t, n, waiting)
  {
    hide RdyInv, WheelInv, PendInv, TcbOk, Wheel.Remove, Release, Unpend, RdyRemove, Mark, Minus, Posted, Cancelled;
    match op
    case OpPost(x, o, msg) => ReleaseWakes(k, x, Posted(k.tasks[x], o, msg));
    case OpCancel(x, o, status) => ReleaseWakes(k, x, Cancelled(k.tasks[x], o, status));
    case OpFlagRdy(x, rdy) => ReleaseWakes(k, x, Freed(k.tasks[x].(flagsRdy := rdy), PendOk));
    case OpDlyResume(x) => ReleaseWakes(k, x, k.tasks[x].(st := if k.tasks[x].st == DLY then RDY else SUSPENDED));
    case OpDelete(x) =>
  }

  // A call other than a tick leaves a sleeper asleep, with as many ticks to go, exactly when it is
  // not one of those.
  lemma SleepsOn(k: K, op: KernelRuns.Op, t: Tid, n: nat, waiting: bool)
    requires Inv(k) && Allowed(k, op) && op != OpTick && Sleeps(k, t, n, waiting)
    ensures t in k.tasks && (Sleeps(Step(k, op), t, n, waiting) <==> Spares(k, op, t))
  {
    hide Inv, Allowed, Step, Spares;
    if Spares(k, op, t) { SleepsThrough(k, op, t, n, waiting); } else { WakeEnds(k, op, t, n, waiting); }
  }

  lemma SleepsThrough(k: K, op: KernelRuns.Op, t: Tid, n: nat, waiting: bool)
    requires Allowed(k, op) && t in k.tasks && Spares(k, op, t) && op != OpTick && Sleeps(k, t, n, waiting)
    ensures Sleeps(Step(k, op), t, n, waiting)
  {
    if Wakes(op) {
      hide *;
      WakeSpares(k, op, t, n, waiting);
    } else if op.OpPend? || op.OpDly? {
      hide *;
      BlockSpares(k, op, t, n, waiting);
    } else if op.OpDelete? {
      hide Sleeps, Delete;
      DeleteSpares(k, op.t, t, n, waiting);
    } else {
      OtherSpares(k, op, t, n, waiting);
    }
  }

  lemma OtherSpares(k: K, op: KernelRuns.Op, t: Tid, n: nat, waiting: bool)
    requires Allowed(k, op) && op != OpTick && !Wakes(op) && !op.OpPend? && !op.OpDly? && !op.OpDelete?
    requires Sleeps(k, t, n, waiting)
    ensures Sleeps(Step(k, op), t, n, waiting)
  {
    hide Enlist, Unpend, RdyRemove, RdyPut, Minus, Highest;
  }

  lemma DeleteSpares(k: K, x: Tid, t: Tid, n: nat, waiting: bool)
    requires x in k.tasks && x != t && Sleeps(k, t, n, waiting)
    ensures Sleeps(Delete(k, x), t, n, waiting)
  {
    hide Unpend, RdyRemove, Minus, SpokeOf, Without;
  }

  lemma SleepsThroughTick(k: K, t: Tid, n: nat, waiting: bool)
    requires Inv(k) && Sleeps(k, t, n, waiting) && n > 1
    ensures Sleeps(KernelRuns.Tick(k), t, n - 1, waiting)
  {
    hide Inv, KernelRuns.Tick;
    TickKeeps(k);
    var s := Wheel.Sleepers(k.wheel);
    assert t in s && s[t] == n && t !in Wheel.Due(s);
    var w := KernelRuns.Tick(k).wheel;
    assert t in Wheel.Sleepers(w) && Wheel.Sleepers(w)[t] == n - 1;
    assert KernelRuns.Tick(k).tasks[t] == k.tasks[t];
  }

  // A task that sleeps r ticks, delayed or waiting with a timeout, and is woken by nobody, still
  // sleeps after fewer than r ticks, whatever else the kernel does in between; the r-th tick
  // wakes it, with a timeout if it was waiting.
  lemma {:induction false} WakesOnTime(k: K, t: Tid, r: nat, waiting: bool, ops: seq<Op>)
    requires Inv(k) && Legal(k, ops) && AllSpare(k, ops, t) && Sleeps(k, t, r, waiting) && TicksIn(ops) < r
    ensures var k1 := Run(k, ops);
      && Inv(k1) && Sleeps(k1, t, r - TicksIn(ops), waiting)
      && (TicksIn(ops) == r - 1 ==>
           var k2 := KernelRuns.Tick(k1);
           && Inv(k2) && t in k2.tasks && t !in k2.wheel.due
           && k2.tasks[t].st == TaskState(k1.tasks[t].st.susp, false, false)
           && (waiting ==> Woken(k1, k2, t, PendTimeout)))
    decreases |ops|
  {
    hide Inv, Step, Allowed, Broken, Spares, Sleeps, KernelRuns.Tick, Woken;
    if ops == [] {
      LastTick(k, t, waiting);
      SleepsSome(k, t, r, waiting);
    } else {
      StepKeeps(k, ops[0]);
      if ops[0] == OpTick {
        StepTick(k);
        SleepsThroughTick(k, t, r, waiting);
        WakesOnTime(Step(k, ops[0]), t, r - 1, waiting, ops[1..]);
      } else {
        SleepsOn(k, ops[0], t, r, waiting);
        WakesOnTime(Step(k, ops[0]), t, r, waiting, ops[1..]);
      }
    }
  }

  lemma StepTick(k: K)
    ensures Allowed(k, OpTick) && Step(k, OpTick) == KernelRuns.Tick(k)
  {
  }

  lemma SleepsSome(k: K, t: Tid, r: nat, waiting: bool)
    requires Sleeps(k, t, r, waiting)
    ensures t in k.tasks
  {
  }

  lemma LastTick(k: K, t: Tid, waiting: bool)
    requires Inv(k)
    ensures Sleeps(k, t, 1, waiting) ==>
      var k2 := KernelRuns.Tick(k);
      && Inv(k2) && t in k.tasks && t in k2.tasks && t !in k2.wheel.due
      && k2.tasks[t].st == TaskState(k.tasks[t].st.susp, false, false)
      && (waiting ==> Woken(k, k2, t, PendTimeout))
  {
    hide RdyInv, WheelInv, PendInv, TcbOk, KernelRuns.Tick;
    if Sleeps(k, t, 1, waiting) {
      TickKeeps(k);
      TickTells(k);
      assert t in Wheel.Due(Wheel.Sleepers(k.wheel));
    }
  }

  // A delay and a wait with a timeout start such a sleep.
  lemma DelaySleeps(k: K, time: Tick, opt: TickRuns.TimeOpt)
    requires Inv(k) && Runs(k) && TickRuns.PlanOf(k.wheel.ctr, k.tasks[k.cur].tickPrev, time, opt).Wake?
    ensures var p := TickRuns.PlanOf(k.wheel.ctr, k.tasks[k.cur].tickPrev, time, opt);
      Sleeps(TimeDly(k, time, opt), k.cur, Minus(p.due, k.wheel.ctr), false)
  {
    hide Inv, TickRuns.PlanOf, RdyRemove;
    TickRuns.PlanMeaning(k.wheel.ctr, k.tasks[k.cur].tickPrev, time, opt);
  }

  // Where the caller is on the wheel after a delay.
  lemma DelayPlan(k: K, time: Tick, opt: TickRuns.TimeOpt)
    requires k.cur in k.tasks
    ensures var p := TickRuns.PlanOf(k.wheel.ctr, k.tasks[k.cur].tickPrev, time, opt); var k' := TimeDly(k, time, opt);
      && (p.Wake? ==> k.cur in k'.wheel.due && k'.wheel.due[k.cur] == p.due)
      && (p.ZeroDly? && opt != TickRuns.Match ==> k' == k)
  {
    hide RdyRemove;
  }

  lemma TimeoutSleeps(k: K, on: PendOn, objs: seq<Oid>, timeout: Tick)
    requires Inv(k) && Runs(k) && PendArgs(k, on, objs) && timeout > 0
    ensures Sleeps(Pend(k, on, objs, timeout), k.cur, timeout, true)
  {
    hide Inv, Enlist, RdyRemove, PendArgs;
  }
}
