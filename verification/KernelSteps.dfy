// What each kernel service does to the tasks and their lists, and that the invariant of
// KernelState survives every run of them (os_core.c, os_task.c, os_time.c, os_tick.c).

module KernelSteps {
  import opened Ticks
  import opened Lists
  import opened Tasks
  import opened FlagBits
  import opened KernelState
  import opened TickRuns
  import Wheel = TickWheelSpec

  // ---------------------------------------------------------------- leaving a wait

  // OS_Post1 and OS_PendAbort1: mark the first entry of the table that names the object.
  function Mark(table: seq<PendData>, o: Oid, posted: bool, msg: Msg): seq<PendData> {
    if table == [] then []
    else if table[0].obj == o then
      [table[0].(ready := true, msg := if posted then msg else table[0].msg)] + table[1..]
    else [table[0]] + Mark(table[1..], o, posted, msg)
  }

  function Freed(c: Tcb, status: PendStatus): Tcb {
    c.(st := if c.st.susp then SUSPENDED else RDY, status := status, pendOn := OnNothing, linked := false)
  }

  function Posted(c: Tcb, o: Oid, msg: Msg): Tcb {
    Freed(if c.pendOn == OnMulti then c.(table := Mark(c.table, o, true, msg)) else c.(msg := msg), PendOk)
  }

  function Cancelled(c: Tcb, o: Oid, status: PendStatus): Tcb {
    Freed((if c.pendOn == OnMulti then c.(table := Mark(c.table, o, false, NULL_MSG)) else c).(msg := NULL_MSG), status)
  }

  function Expired(c: Tcb): Tcb {
    if c.st.pend then Freed(c.(msg := NULL_MSG), PendTimeout)
    else c.(st := if c.st.susp then SUSPENDED else RDY)
  }

  // Off the tick wheel and the pend lists it is on; onto the ready list unless suspended.
  function Release(k: K, t: Tid, c: Tcb): K
  {
    k.(tasks := k.tasks[t := c],
       rdy := if c.st == RDY then RdyInsert(k.rdy, k.prioCur, c.prio, t) else k.rdy,
       wheel := Wheel.Remove(k.wheel, t),
       pend := if t in k.tasks && k.tasks[t].linked then Unpend(k.pend, t) else k.pend)
  }

  lemma ReleaseKeeps(k: K, t: Tid, c: Tcb)
    requires Inv(k) && t in k.tasks && k.tasks[t].st != RDY
    requires TcbOk(c) && !c.st.dly && !c.st.pend
    ensures Inv(Release(k, t, c))
  {
    assert |k.rdy| == PRIO_MAX && |k.wheel.spokes| > 0;
    hide RdyInv, WheelInv, PendInv;
    if c.st == RDY {
      RdyAfterInsert(k.tasks, k.rdy, k.prioCur, t, c);
    } else {
      RdyFrame(k.tasks, k.rdy, t, c);
    }
    WheelAfterRemove(k.tasks, k.wheel, t, c);
    assert !c.linked;
    LeavePend(k, t, c);
  }

  // One task changes, and each structure is shown to follow.
  lemma OneTask(k: K, k': K, t: Tid, c: Tcb)
    requires Inv(k) && k'.tasks == k.tasks[t := c] && TcbOk(c) && (t == IDLE ==> c.st == RDY)
    requires RdyInv(k'.tasks, k'.rdy) && WheelInv(k'.tasks, k'.wheel) && PendInv(k'.tasks, k'.pend)
    ensures Inv(k')
  {
    hide RdyInv, WheelInv, PendInv, TcbOk;
  }

  // One task that is on no ready list changes, and no list is touched.
  lemma NoListMoves(k: K, t: Tid, c: Tcb)
    requires Inv(k) && t in k.tasks && k.tasks[t].st != RDY && c.st != RDY && TcbOk(c)
    requires c.st.dly == k.tasks[t].st.dly && c.linked == k.tasks[t].linked
    requires c.table == k.tasks[t].table && (c.linked ==> c.prio == k.tasks[t].prio)
    ensures Inv(k.(tasks := k.tasks[t := c]))
  {
    hide RdyInv, WheelInv, PendInv;
    RdyFrame(k.tasks, k.rdy, t, c);
    WheelFrame(k.tasks, k.wheel, t, c);
    PendFrame(k.tasks, k.pend, t, c);
    OneTask(k, k.(tasks := k.tasks[t := c]), t, c);
  }

  // A ready task goes off the ready list and onto no other.
  lemma OffReadyList(k: K, t: Tid, c: Tcb)
    requires Inv(k) && t in k.tasks && k.tasks[t].st == RDY && c.st != RDY && t != IDLE && TcbOk(c)
    requires !c.st.dly && !c.linked
    ensures Inv(k.(tasks := k.tasks[t := c], rdy := RdyRemove(k.rdy, k.tasks[t].prio, t)))
  {
    hide RdyInv, WheelInv, PendInv;
    RdyAfterRemove(k.tasks, k.rdy, t, c);
    WheelFrame(k.tasks, k.wheel, t, c);
    assert TcbOk(k.tasks[t]);
    PendFrame(k.tasks, k.pend, t, c);
    OneTask(k, k.(tasks := k.tasks[t := c], rdy := RdyRemove(k.rdy, k.tasks[t].prio, t)), t, c);
  }

  // ---------------------------------------------------------------- posting, aborting, deleting

  // OS_Post; a task that is not waiting is left alone.
  function Post(k: K, t: Tid, o: Oid, msg: Msg): K
    requires t in k.tasks
  {
    if k.tasks[t].st.pend then Release(k, t, Posted(k.tasks[t], o, msg)) else k
  }

  // OS_PendAbort and OS_PendObjDel.
  function Cancel(k: K, t: Tid, o: Oid, status: PendStatus): K
    requires t in k.tasks
  {
    if k.tasks[t].st.pend then Release(k, t, Cancelled(k.tasks[t], o, status)) else k
  }

  lemma PostKeeps(k: K, t: Tid, o: Oid, msg: Msg)
    requires Inv(k) && t in k.tasks
    ensures Inv(Post(k, t, o, msg))
  {
    hide RdyInv, WheelInv, PendInv;
    if k.tasks[t].st.pend {
      ReleaseKeeps(k, t, Posted(k.tasks[t], o, msg));
    }
  }

  lemma CancelKeeps(k: K, t: Tid, o: Oid, status: PendStatus)
    requires Inv(k) && t in k.tasks
    ensures Inv(Cancel(k, t, o, status))
  {
    hide RdyInv, WheelInv, PendInv;
    if k.tasks[t].st.pend {
      ReleaseKeeps(k, t, Cancelled(k.tasks[t], o, status));
    }
  }

  // OS_FlagTaskRdy as written: a suspended waiter keeps its place on the tick wheel.
  function FlagRdy(k: K, t: Tid, rdy: bv32): K
    requires t in k.tasks
  {
    var c := k.tasks[t].(flagsRdy := rdy);
    if !c.st.pend then k
    else if c.st.susp then
      k.(tasks := k.tasks[t := Freed(c, PendOk)], pend := if c.linked then Unpend(k.pend, t) else k.pend)
    else Release(k, t, Freed(c, PendOk))
  }

  // The one way in which it can go wrong, and it always does then: a task suspended while it
  // waits with a timeout.
  lemma FlagRdyKeeps(k: K, t: Tid, rdy: bv32)
    requires Inv(k) && t in k.tasks
    ensures Inv(FlagRdy(k, t, rdy)) <==> k.tasks[t].st != PEND_TIMEOUT_SUSPENDED
  {
    hide RdyInv, WheelInv, PendInv, Unpend;
    var c := Freed(k.tasks[t].(flagsRdy := rdy), PendOk);
    if k.tasks[t].st == PEND_TIMEOUT_SUSPENDED {
      FlagMishandled(k, t, rdy);
    } else {
      if k.tasks[t].st == PEND_SUSPENDED {
        RdyFrame(k.tasks, k.rdy, t, c);
        WheelFrame(k.tasks, k.wheel, t, c);
        LeavePend(k, t, c);
      } else if k.tasks[t].st.pend {
        ReleaseKeeps(k, t, c);
      }
    }
  }

  lemma FlagMishandled(k: K, t: Tid, rdy: bv32)
    requires Inv(k) && t in k.tasks && k.tasks[t].st == PEND_TIMEOUT_SUSPENDED
    ensures !Inv(FlagRdy(k, t, rdy))
  {
    hide RdyInv, PendInv, Unpend, Wheel.Valid;
    assert t in FlagRdy(k, t, rdy).wheel.due && !FlagRdy(k, t, rdy).tasks[t].st.dly;
  }

  lemma LeavePend(k: K, t: Tid, c: Tcb)
    requires Inv(k) && t in k.tasks && !c.linked
    ensures PendInv(k.tasks[t := c], if k.tasks[t].linked then Unpend(k.pend, t) else k.pend)
  {
    if k.tasks[t].linked {
      PendAfterUnpend(k.tasks, k.pend, t, c);
    } else {
      PendFrame(k.tasks, k.pend, t, c);
    }
  }

  // ---------------------------------------------------------------- blocking

  function FreshTable(objs: seq<Oid>): (r: seq<PendData>)
    ensures |r| == |objs|
    ensures forall i :: 0 <= i < |r| ==> r[i] == PendData(objs[i], false, NULL_MSG)
  {
    seq(|objs|, i requires 0 <= i < |objs| => PendData(objs[i], false, NULL_MSG))
  }

  // OS_Pend and OS_PendMultiWait: the running task goes off the ready list, onto the tick
  // wheel if there is a timeout, and onto the list of every object.
  function Blocked(k: K, on: PendOn, objs: seq<Oid>, timeout: Tick): Tcb
    requires k.cur in k.tasks
  {
    k.tasks[k.cur].(st := if timeout > 0 then PEND_TIMEOUT else PEND, pendOn := on, status := PendOk,
                    table := FreshTable(objs), linked := objs != [])
  }

  function Pend(k: K, on: PendOn, objs: seq<Oid>, timeout: Tick): K
    requires k.cur in k.tasks
  {
    var c := Blocked(k, on, objs, timeout);
    k.(tasks := k.tasks[k.cur := c],
       rdy := RdyRemove(k.rdy, c.prio, k.cur),
       wheel := if timeout > 0 then Wheel.Insert(k.wheel, k.cur, Plus(k.wheel.ctr, timeout)) else k.wheel,
       pend := Enlist(k.tasks, k.pend, k.cur, c.prio, Objects(c.table)))
  }

  ghost predicate Runs(k: K) {
    k.cur in k.tasks && k.tasks[k.cur].st == RDY && k.cur != IDLE && k.schedLock == 0
  }

  // What the callers of OS_Pend and OS_PendMultiWait pass.
  ghost predicate PendArgs(k: K, on: PendOn, objs: seq<Oid>) {
    && on != OnNothing && Distinct(objs) && (forall o :: o in objs ==> o in k.pend)
    && (if on == OnTaskQ || on == OnTaskSem then objs == [] else objs != [])
    && (on != OnMulti ==> |objs| <= 1)
  }

  lemma BlockedOk(k: K, on: PendOn, objs: seq<Oid>, timeout: Tick)
    requires Runs(k) && PendArgs(k, on, objs) && TcbOk(k.tasks[k.cur])
    ensures var c := Blocked(k, on, objs, timeout); TcbOk(c) && Objects(c.table) == Elements(objs)
  {
    var table := FreshTable(objs);
    assert forall i :: 0 <= i < |objs| ==> table[i].obj == objs[i];
    assert forall o :: o in objs ==> o in Objects(table);
  }

  lemma BlockedWheel(k: K, c: Tcb, timeout: Tick)
    requires WheelInv(k.tasks, k.wheel) && k.cur in k.tasks && !k.tasks[k.cur].st.dly && c.st.dly == (timeout > 0)
    ensures WheelInv(k.tasks[k.cur := c], if timeout > 0 then Wheel.Insert(k.wheel, k.cur, Plus(k.wheel.ctr, timeout))
      else k.wheel)
  {
    hide WheelInv;
    if timeout > 0 {
      WheelAfterInsert(k.tasks, k.wheel, k.cur, c, Plus(k.wheel.ctr, timeout));
    } else {
      WheelFrame(k.tasks, k.wheel, k.cur, c);
    }
  }

  lemma BlockedPend(k: K, c: Tcb)
    requires PendInv(k.tasks, k.pend) && k.cur in k.tasks && !k.tasks[k.cur].linked
    requires c.linked == (c.table != []) && Objects(c.table) <= k.pend.Keys
    ensures PendInv(k.tasks[k.cur := c], Enlist(k.tasks, k.pend, k.cur, c.prio, Objects(c.table)))
  {
    hide PendInv;
    if c.linked {
      PendAfterEnlist(k.tasks, k.pend, k.cur, c);
    } else {
      PendFrame(k.tasks, k.pend, k.cur, c);
      assert Enlist(k.tasks, k.pend, k.cur, c.prio, Objects(c.table)) == k.pend;
    }
  }

  lemma PendKeeps(k: K, on: PendOn, objs: seq<Oid>, timeout: Tick)
    requires Inv(k) && Runs(k) && PendArgs(k, on, objs)
    ensures Inv(Pend(k, on, objs, timeout))
  {
    var c := Blocked(k, on, objs, timeout);
    assert TcbOk(k.tasks[k.cur]);
    BlockedOk(k, on, objs, timeout);
    hide RdyInv, WheelInv, PendInv, Enlist, Wheel.Insert, Objects;
    RdyAfterRemove(k.tasks, k.rdy, k.cur, c);
    BlockedWheel(k, c, timeout);
    BlockedPend(k, c);
    OneTask(k, Pend(k, on, objs, timeout), k.cur, c);
  }

  // ---------------------------------------------------------------- delays

  function TimeDly(k: K, time: Tick, opt: TimeOpt): K
    requires k.cur in k.tasks
  {
    var c := k.tasks[k.cur];
    if opt != Match && time == 0 then k
    else match PlanOf(k.wheel.ctr, c.tickPrev, time, opt)
      case ZeroDly => k.(tasks := k.tasks[k.cur := c.(st := DLY)])
      case Wake(due, prev) =>
        k.(tasks := k.tasks[k.cur := c.(st := DLY, tickPrev := prev)],
           rdy := RdyRemove(k.rdy, c.prio, k.cur),
           wheel := Wheel.Insert(k.wheel, k.cur, due))
  }

  lemma Delayed(k: K, c: Tcb, due: Tick)
    requires Inv(k) && Runs(k) && due != k.wheel.ctr && c == k.tasks[k.cur].(st := DLY, tickPrev := c.tickPrev)
    ensures Inv(k.(tasks := k.tasks[k.cur := c], rdy := RdyRemove(k.rdy, c.prio, k.cur),
      wheel := Wheel.Insert(k.wheel, k.cur, due)))
  {
    assert TcbOk(k.tasks[k.cur]);
    hide RdyInv, WheelInv, PendInv, Wheel.Insert;
    RdyAfterRemove(k.tasks, k.rdy, k.cur, c);
    WheelAfterInsert(k.tasks, k.wheel, k.cur, c, due);
    PendFrame(k.tasks, k.pend, k.cur, c);
  }

  // OSTimeDly leaves a consistent kernel behind unless it was asked to wait for a time that
  // has just gone by; then the running task is marked delayed while it is still ready.
  lemma DlyKeeps(k: K, time: Tick, opt: TimeOpt)
    requires Inv(k) && Runs(k)
    ensures Inv(TimeDly(k, time, opt)) <==> !(opt == Match && Minus(k.wheel.ctr, time) < 0xFFFF)
  {
    var c := k.tasks[k.cur];
    PlanMeaning(k.wheel.ctr, c.tickPrev, time, opt);
    assert k.cur in k.rdy[c.prio];
    match PlanOf(k.wheel.ctr, c.tickPrev, time, opt)
    case ZeroDly =>
      if opt == Match { assert TimeDly(k, time, opt).tasks[k.cur].st != RDY; }
    case Wake(due, prev) =>
      hide Inv, Wheel.Insert;
      Delayed(k, c.(st := DLY, tickPrev := prev), due);
  }

  function DlyResume(k: K, t: Tid): K
    requires t in k.tasks
  {
    var c := k.tasks[t];
    if c.st == DLY then Release(k, t, c.(st := RDY))
    else if c.st == DLY_SUSPENDED then Release(k, t, c.(st := SUSPENDED))
    else k
  }

  lemma DlyResumeKeeps(k: K, t: Tid)
    requires Inv(k) && t in k.tasks
    ensures Inv(DlyResume(k, t))
  {
    hide RdyInv, WheelInv, PendInv;
    if k.tasks[t].st == DLY {
      ReleaseKeeps(k, t, k.tasks[t].(st := RDY));
    } else if k.tasks[t].st == DLY_SUSPENDED {
      ReleaseKeeps(k, t, k.tasks[t].(st := SUSPENDED));
    }
  }

  // ---------------------------------------------------------------- suspension

  // SuspendCtr is an 8-bit counter.
  function OnceMore(c: Tcb): Tcb {
    if c.st.susp then c.(suspendCtr := if c.suspendCtr == SUSPEND_MAX then 0 else c.suspendCtr + 1)
    else c.(st := c.st.(susp := true), suspendCtr := 1)
  }

  function Suspend(k: K, t: Tid): K
    requires t in k.tasks
  {
    var c := k.tasks[t];
    if t == IDLE || (t == k.cur && k.schedLock > 0) then k
    else k.(tasks := k.tasks[t := OnceMore(c)], rdy := if c.st == RDY then RdyRemove(k.rdy, c.prio, t) else k.rdy)
  }

  lemma SuspendOnce(k: K, t: Tid)
    requires Inv(k) && t in k.tasks && k.tasks[t].suspendCtr < SUSPEND_MAX
    ensures Inv(Suspend(k, t))
  {
    var c := k.tasks[t];
    assert TcbOk(c) && TcbOk(OnceMore(c)) && (t == IDLE ==> c.st == RDY);
    hide Inv, RdyRemove, TcbOk;
    if t != IDLE && !(t == k.cur && k.schedLock > 0) {
      if c.st == RDY {
        assert !OnceMore(c).linked by { NotOnList(k, t); }
        OffReadyList(k, t, OnceMore(c));
      } else {
        NoListMoves(k, t, OnceMore(c));
      }
    }
  }

  lemma NotOnList(k: K, t: Tid)
    requires Inv(k) && t in k.tasks && k.tasks[t].st == RDY
    ensures !k.tasks[t].linked
  {
    assert TcbOk(k.tasks[t]);
  }

  // Suspending keeps the counter and the bit together up to 255 nested calls, and no further.
  lemma SuspendKeeps(k: K, t: Tid)
    requires Inv(k) && t in k.tasks
    ensures Inv(Suspend(k, t)) <==> (k.tasks[t].suspendCtr == SUSPEND_MAX ==> t == k.cur && k.schedLock > 0)
  {
    assert TcbOk(k.tasks[t]);
    if k.tasks[t].suspendCtr < SUSPEND_MAX {
      SuspendOnce(k, t);
    } else if t != k.cur || k.schedLock == 0 {
      assert Suspend(k, t).tasks[t].suspendCtr == 0;
      assert !TcbOk(Suspend(k, t).tasks[t]);
    }
  }

  function Resume(k: K, t: Tid): K
    requires t in k.tasks
  {
    var c := k.tasks[t];
    if t == k.cur || !c.st.susp then k
    else
      var n := if c.suspendCtr == 0 then SUSPEND_MAX else c.suspendCtr - 1;
      var c' := c.(suspendCtr := n);
      if n > 0 then k.(tasks := k.tasks[t := c'])
      else if c.st == SUSPENDED then Release(k, t, c'.(st := RDY))
      else k.(tasks := k.tasks[t := c'.(st := c.st.(susp := false))])
  }

  lemma ResumeKeeps(k: K, t: Tid)
    requires Inv(k) && t in k.tasks
    ensures Inv(Resume(k, t))
  {
    var c := k.tasks[t];
    assert TcbOk(c);
    if t != k.cur && c.st.susp {
      var c' := c.(suspendCtr := c.suspendCtr - 1);
      hide Inv;
      if c.suspendCtr > 1 {
        NoListMoves(k, t, c');
      } else if c.st == SUSPENDED {
        ReleaseKeeps(k, t, c'.(st := RDY));
      } else {
        NoListMoves(k, t, c'.(st := c.st.(susp := false)));
      }
    }
  }

  // ---------------------------------------------------------------- priorities

  datatype Place = AtHead | AtTail

  function RdyPut(rdy: ReadyLists, p: Prio, t: Tid, place: Place): ReadyLists {
    if place == AtHead then rdy[p := [t] + rdy[p]] else rdy[p := rdy[p] + [t]]
  }

  // A task gets another priority: a ready one changes lists; a waiting one is taken out of
  // its pend lists and put in again if the caller asks for that (OS_PendListChangePrio).
  function Reprio(k: K, t: Tid, prio: Prio, place: Place, resort: bool): K
    requires t in k.tasks
  {
    var c := k.tasks[t];
    var tasks := k.tasks[t := c.(prio := prio)];
    if c.st == RDY then k.(tasks := tasks, rdy := RdyPut(RdyRemove(k.rdy, c.prio, t), prio, t, place))
    else if c.linked && resort then
      k.(tasks := tasks, pend := Enlist(tasks, Unpend(k.pend, t), t, prio, Objects(c.table)))
    else k.(tasks := tasks)
  }

  lemma ReprioKeys(k: K, t: Tid, prio: Prio, place: Place)
    requires t in k.tasks
    ensures var k' := Reprio(k, t, prio, place, true); k'.tasks.Keys == k.tasks.Keys && k'.pend.Keys == k.pend.Keys
  {
  }

  // OSTaskChangePrio sorts the pend lists again, except for a task waiting on event flags.
  function ChangePrio(k: K, t: Tid, prio: nat, self: bool): K
    requires t in k.tasks
  {
    if prio >= PRIO_MAX - 1 then k
    else Reprio(k, t, prio, if self then AtHead else AtTail, k.tasks[t].pendOn != OnFlag)
  }

  lemma RdyAfterPut(tasks: map<Tid, Tcb>, rdy: ReadyLists, t: Tid, c: Tcb, place: Place)
    requires RdyInv(tasks, rdy) && t in tasks && tasks[t].st == RDY && c.st == RDY
    ensures RdyInv(tasks[t := c], RdyPut(RdyRemove(rdy, tasks[t].prio, t), c.prio, t, place))
  {
    hide Without;
    var p := tasks[t].prio;
    WithoutDistinct(rdy[p], t);
    assert t !in RdyRemove(rdy, p, t)[c.prio];
  }

  lemma EnlistUnaffected(tasks: map<Tid, Tcb>, pend: map<Oid, seq<Tid>>, t: Tid, c: Tcb, objs: set<Oid>)
    requires forall o :: o in pend ==> t !in pend[o]
    ensures Enlist(tasks[t := c], pend, t, c.prio, objs) == Enlist(tasks, pend, t, c.prio, objs)
  {
    forall o | o in pend
      ensures PrioPos(tasks[t := c], pend[o], c.prio) == PrioPos(tasks, pend[o], c.prio)
    {
      PosUnaffected(tasks, pend[o], t, c, c.prio);
    }
  }

  lemma PendAfterResort(tasks: map<Tid, Tcb>, pend: map<Oid, seq<Tid>>, t: Tid, c: Tcb)
    requires PendInv(tasks, pend) && t in tasks && tasks[t].linked && c.linked && c.table == tasks[t].table
    ensures PendInv(tasks[t := c], Enlist(tasks[t := c], Unpend(pend, t), t, c.prio, Objects(c.table)))
  {
    var off := tasks[t].(linked := false);
    assert forall o :: o in Objects(c.table) ==> o in pend;
    hide PendInv;
    PendAfterUnpend(tasks, pend, t, off);
    var tasks0, pend0 := tasks[t := off], Unpend(pend, t);
    PendAfterEnlist(tasks0, pend0, t, c);
    assert tasks0[t := c] == tasks[t := c];
    EnlistUnaffected(tasks0, pend0, t, c, Objects(c.table));
  }

  lemma ReprioKeeps(k: K, t: Tid, prio: Prio, place: Place, resort: bool)
    requires Inv(k) && t in k.tasks && (k.tasks[t].linked ==> resort)
    ensures Inv(Reprio(k, t, prio, place, resort))
  {
    var c := k.tasks[t];
    var c' := c.(prio := prio);
    assert TcbOk(c) && TcbOk(c');
    hide RdyInv, WheelInv, PendInv, Enlist, Unpend, RdyPut;
    WheelFrame(k.tasks, k.wheel, t, c');
    if c.st == RDY {
      RdyAfterPut(k.tasks, k.rdy, t, c', place);
      PendFrame(k.tasks, k.pend, t, c');
    } else {
      RdyFrame(k.tasks, k.rdy, t, c');
      if c.linked {
        PendAfterResort(k.tasks, k.pend, t, c');
      } else {
        PendFrame(k.tasks, k.pend, t, c');
      }
    }
    OneTask(k, Reprio(k, t, prio, place, resort), t, c');
  }

  // The new priority fits between the neighbours on the one list the task waits on.
  predicate Fits(tasks: map<Tid, Tcb>, l: seq<Tid>, t: Tid, prio: nat) {
    forall i :: 0 <= i < |l| && l[i] == t ==>
      && (0 < i && l[i-1] in tasks ==> tasks[l[i-1]].prio <= prio)
      && (i + 1 < |l| && l[i+1] in tasks ==> prio <= tasks[l[i+1]].prio)
  }

  // What the invariant says of a task waiting on one object.
  lemma OneList(tasks: map<Tid, Tcb>, pend: map<Oid, seq<Tid>>, t: Tid)
    requires PendInv(tasks, pend) && t in tasks && tasks[t].linked && |tasks[t].table| == 1
    ensures var o := tasks[t].table[0].obj;
      && o in pend && Objects(tasks[t].table) == {o} && t in pend[o] && Distinct(pend[o]) && ByPrio(tasks, pend[o])
      && forall x :: x in pend[o] ==> x in tasks
  {
    var o := tasks[t].table[0].obj;
    assert o in Objects(tasks[t].table);
    assert forall x :: x in Objects(tasks[t].table) ==> x == o;
    forall x | x in pend[o]
      ensures x in tasks
    {
      assert Waits(tasks, x, o);
    }
  }

  lemma SortedFits(tasks: map<Tid, Tcb>, l: seq<Tid>, t: Tid, c: Tcb, p: nat)
    requires Distinct(l) && p < |l| && l[p] == t && ByPrio(tasks[t := c], l)
    requires forall x :: x in l ==> x in tasks
    ensures Fits(tasks, l, t, c.prio)
  {
    var tasks' := tasks[t := c];
    assert 0 < p ==> l[p-1] in l && l[p-1] != t && tasks'[l[p-1]].prio <= c.prio;
    assert p + 1 < |l| ==> l[p+1] in l && l[p+1] != t && c.prio <= tasks'[l[p+1]].prio;
  }

  lemma UnsortedPend(k: K, t: Tid, prio: Prio)
    requires Inv(k) && t in k.tasks && k.tasks[t].linked && |k.tasks[t].table| == 1
    ensures var c := k.tasks[t].(prio := prio); var o := c.table[0].obj;
      o in k.pend && (PendInv(k.tasks[t := c], k.pend) <==> Fits(k.tasks, k.pend[o], t, prio))
  {
    var c := k.tasks[t].(prio := prio);
    OneList(k.tasks, k.pend, t);
    var o := c.table[0].obj;
    var l := k.pend[o];
    assert PendInv(k.tasks[t := c], k.pend) ==> ByPrio(k.tasks[t := c], l);
    hide RdyInv, WheelInv, PendInv, ByPrio, Fits, Distinct;
    var p :| 0 <= p < |l| && l[p] == t;
    if Fits(k.tasks, l, t, prio) {
      FitsSorted(k.tasks, l, t, c, p);
      OthersUntouched(k.tasks, k.pend, t, c, o);
    } else if ByPrio(k.tasks[t := c], l) {
      SortedFits(k.tasks, l, t, c, p);
    }
  }

  lemma FitsSorted(tasks: map<Tid, Tcb>, l: seq<Tid>, t: Tid, c: Tcb, p: nat)
    requires ByPrio(tasks, l) && Distinct(l) && p < |l| && l[p] == t && Fits(tasks, l, t, c.prio)
    requires forall x :: x in l ==> x in tasks
    ensures ByPrio(tasks[t := c], l)
  {
    forall i, j | 0 <= i < j < |l|
      ensures tasks[t := c][l[i]].prio <= tasks[t := c][l[j]].prio
    {
      if i == p {
        assert tasks[l[p+1]].prio <= tasks[l[j]].prio || j == p + 1;
      } else if j == p {
        assert tasks[l[i]].prio <= tasks[l[p-1]].prio || i == p - 1;
      }
    }
  }

  lemma OthersUntouched(tasks: map<Tid, Tcb>, pend: map<Oid, seq<Tid>>, t: Tid, c: Tcb, o: Oid)
    requires PendInv(tasks, pend) && t in tasks && tasks[t].linked && c.linked && c.table == tasks[t].table
    requires Objects(c.table) == {o} && o in pend && ByPrio(tasks[t := c], pend[o])
    ensures PendInv(tasks[t := c], pend)
  {
    forall q | q in pend
      ensures ByPrio(tasks[t := c], pend[q])
    {
      if q != o {
        assert t !in pend[q] by { assert !Waits(tasks, t, q); }
      }
    }
    forall q, x | q in pend && x in pend[q]
      ensures Waits(tasks[t := c], x, q)
    {
      assert Waits(tasks, x, q);
    }
  }

  // OSTaskChangePrio keeps the invariant except for a task waiting on event flags whose new
  // priority does not fit between its neighbours there.
  lemma ChangePrioKeeps(k: K, t: Tid, prio: nat, self: bool)
    requires Inv(k) && t in k.tasks
    ensures k.tasks[t].pendOn == OnFlag ==>
      k.tasks[t].linked && |k.tasks[t].table| == 1 && k.tasks[t].table[0].obj in k.pend
    ensures Inv(ChangePrio(k, t, prio, self)) <==>
      (prio < PRIO_MAX - 1 && k.tasks[t].pendOn == OnFlag ==> Fits(k.tasks, k.pend[k.tasks[t].table[0].obj], t, prio))
  {
    var c := k.tasks[t];
    assert TcbOk(c);
    if c.pendOn == OnFlag {
      assert c.table[0].obj in Objects(c.table);
      assert c.table[0].obj in k.pend;
      if prio < PRIO_MAX - 1 {
        UnsortedPend(k, t, prio);
        UnsortedKeeps(k, t, prio);
      }
    } else if prio < PRIO_MAX - 1 {
      ReprioKeeps(k, t, prio, if self then AtHead else AtTail, true);
    }
  }

  lemma UnsortedKeeps(k: K, t: Tid, prio: Prio)
    requires Inv(k) && t in k.tasks && k.tasks[t].st != RDY
    ensures Inv(k.(tasks := k.tasks[t := k.tasks[t].(prio := prio)])) <==>
      PendInv(k.tasks[t := k.tasks[t].(prio := prio)], k.pend)
  {
    var c := k.tasks[t].(prio := prio);
    assert TcbOk(k.tasks[t]) && TcbOk(c);
    hide RdyInv, WheelInv, PendInv;
    RdyFrame(k.tasks, k.rdy, t, c);
    WheelFrame(k.tasks, k.wheel, t, c);
  }

  // ---------------------------------------------------------------- creating and deleting

  const OS_TICK_TH_INIT: Tick := 0x8000_0000

  function NewTcb(prio: Prio): Tcb {
    Tcb(RDY, prio, 0, OnNothing, PendOk, [], false, NULL_MSG, 0, SetAll, 0, OS_TICK_TH_INIT)
  }

  function Create(k: K, t: Tid, prio: Prio): K {
    k.(tasks := k.tasks[t := NewTcb(prio)], rdy := k.rdy[prio := k.rdy[prio] + [t]])
  }

  lemma CreateKeeps(k: K, t: Tid, prio: Prio)
    requires Inv(k) && t !in k.tasks
    ensures Inv(Create(k, t, prio))
  {
    var c := NewTcb(prio);
    hide WheelInv, PendInv;
    assert t !in k.rdy[prio];
    WheelFrame(k.tasks, k.wheel, t, c);
    CreatePend(k, t, c);
  }

  lemma CreatePend(k: K, t: Tid, c: Tcb)
    requires PendInv(k.tasks, k.pend) && t !in k.tasks && !c.linked
    ensures PendInv(k.tasks[t := c], k.pend)
  {
    forall o | o in k.pend
      ensures ByPrio(k.tasks[t := c], k.pend[o])
    {
      assert ByPrio(k.tasks, k.pend[o]);
      assert t !in k.pend[o] by { assert !Waits(k.tasks, t, o); }
    }
    forall o, x | o in k.pend && x in k.pend[o]
      ensures Waits(k.tasks[t := c], x, o)
    {
      assert Waits(k.tasks, x, o);
    }
  }

  function Delete(k: K, t: Tid): K
    requires t in k.tasks
  {
    var c := k.tasks[t];
    if t == IDLE then k
    else k.(tasks := k.tasks - {t},
            rdy := if c.st == RDY then RdyRemove(k.rdy, c.prio, t) else k.rdy,
            wheel := if c.st.dly || c.st.pend then Wheel.Remove(k.wheel, t) else k.wheel,
            pend := if c.linked then Unpend(k.pend, t) else k.pend)
  }

  // Deleting is first taking the task off every list, and then forgetting it.
  lemma DeleteKeeps(k: K, t: Tid)
    requires Inv(k) && t in k.tasks
    ensures Inv(Delete(k, t))
  {
    if t != IDLE {
      var c := k.tasks[t];
      assert TcbOk(c);
      DeleteRdy(k.tasks, k.rdy, t);
      DeleteWheel(k.tasks, k.wheel, t);
      DeletePend(k.tasks, k.pend, t);
    }
  }

  lemma DeleteRdy(tasks: map<Tid, Tcb>, rdy: ReadyLists, t: Tid)
    requires RdyInv(tasks, rdy) && t in tasks
    ensures RdyInv(tasks - {t}, if tasks[t].st == RDY then RdyRemove(rdy, tasks[t].prio, t) else rdy)
  {
    hide RdyInv, RdyRemove;
    if tasks[t].st == RDY { DeleteReady(tasks, rdy, t); } else { DeleteOther(tasks, rdy, t); }
  }

  lemma DeleteReady(tasks: map<Tid, Tcb>, rdy: ReadyLists, t: Tid)
    requires RdyInv(tasks, rdy) && t in tasks && tasks[t].st == RDY
    ensures RdyInv(tasks - {t}, RdyRemove(rdy, tasks[t].prio, t))
  {
    hide Without, Distinct;
    WithoutDistinct(rdy[tasks[t].prio], t);
  }

  lemma DeleteOther(tasks: map<Tid, Tcb>, rdy: ReadyLists, t: Tid)
    requires RdyInv(tasks, rdy) && t in tasks && tasks[t].st != RDY
    ensures RdyInv(tasks - {t}, rdy)
  {
    hide Distinct;
  }

  lemma DeleteWheel(tasks: map<Tid, Tcb>, wheel: TickWheel, t: Tid)
    requires WheelInv(tasks, wheel) && t in tasks
    ensures WheelInv(tasks - {t}, Wheel.Remove(wheel, t))
    ensures !tasks[t].st.dly ==> WheelInv(tasks - {t}, wheel)
  {
    WheelAfterDelete(tasks, wheel, t);
    hide Wheel.Valid;
  }

  lemma DeletePend(tasks: map<Tid, Tcb>, pend: map<Oid, seq<Tid>>, t: Tid)
    requires PendInv(tasks, pend) && t in tasks
    ensures PendInv(tasks - {t}, if tasks[t].linked then Unpend(pend, t) else pend)
  {
    var pend' := if tasks[t].linked then Unpend(pend, t) else pend;
    forall o | o in pend
      ensures Distinct(pend'[o]) && ByPrio(tasks - {t}, pend'[o])
    {
      WithoutDistinct(pend[o], t);
      WithoutByPrio(tasks, pend[o], t);
    }
    forall o, x | o in pend && x in pend'[o]
      ensures Waits(tasks - {t}, x, o)
    {
      assert Waits(tasks, x, o);
    }
  }
}
