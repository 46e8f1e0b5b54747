// The kernel as the program runs it: fields updated in place, step by step and with the
// loops of os_core.c, os_task.c, os_time.c and os_tick.c, each routine proved to do to the
// whole state what its function in KernelSteps says.

module Kernel {
  import opened Ticks
  import opened Lists
  import opened Tasks
  import opened KernelState
  import opened KernelSteps
  import opened KernelReleases
  import opened TickRuns
  import opened KernelEffects
  import KernelRuns
  import Wheel = TickWheelSpec

  // The lists named in the first n entries of a table replaced by new ones.
  function Partly(pend: map<Oid, seq<Tid>>, next: map<Oid, seq<Tid>>, table: seq<PendData>,
      n: nat): (r: map<Oid, seq<Tid>>)
    requires n <= |table| && next.Keys == pend.Keys
    ensures r.Keys == pend.Keys
  {
    map o | o in pend :: if o in Objects(table[..n]) then next[o] else pend[o]
  }

  lemma PartlyOne(pend: map<Oid, seq<Tid>>, next: map<Oid, seq<Tid>>, table: seq<PendData>, n: nat)
    requires n < |table| && TableDistinct(table) && table[n].obj in pend && next.Keys == pend.Keys
    ensures var o := table[n].obj; var p := Partly(pend, next, table, n);
      p[o] == pend[o] && Partly(pend, next, table, n + 1) == p[o := next[o]]
  {
    var o := table[n].obj;
    assert o !in Objects(table[..n]);
    forall q | q in pend
      ensures q in Objects(table[..n+1]) <==> q == o || q in Objects(table[..n])
    {
      assert table[..n+1][n] == table[n];
      if q in Objects(table[..n]) {
        var i :| 0 <= i < n && table[..n][i].obj == q;
        assert table[..n+1][i].obj == q;
      }
    }
  }

  lemma PartlyAll(pend: map<Oid, seq<Tid>>, next: map<Oid, seq<Tid>>, table: seq<PendData>)
    requires next.Keys == pend.Keys && forall o :: o in pend && o !in Objects(table) ==> next[o] == pend[o]
    ensures Partly(pend, next, table, 0) == pend
    ensures Partly(pend, next, table, |table|) == next
  {
    assert table[..|table|] == table;
  }

  lemma OnNoOther(tasks: map<Tid, Tcb>, pend: map<Oid, seq<Tid>>, t: Tid)
    requires PendInv(tasks, pend) && t in tasks
    ensures forall o :: o in pend && !(tasks[t].linked && o in Objects(tasks[t].table)) ==>
      Without(pend[o], t) == pend[o]
  {
    forall o | o in pend && !(tasks[t].linked && o in Objects(tasks[t].table))
      ensures t !in pend[o]
    {
      assert !Waits(tasks, t, o);
    }
  }

  lemma ObjectsListed(tasks: map<Tid, Tcb>, pend: map<Oid, seq<Tid>>, t: Tid)
    requires PendInv(tasks, pend) && t in tasks && tasks[t].linked
    ensures forall i :: 0 <= i < |tasks[t].table| ==> tasks[t].table[i].obj in pend
  {
    var table := tasks[t].table;
    assert forall i :: 0 <= i < |table| ==> table[i].obj in Objects(table);
  }

  // A release overwrites whatever was noted in the task before.
  lemma ReleaseForgets(k: K, t: Tid, c0: Tcb, c: Tcb)
    requires t in k.tasks && c0.linked == k.tasks[t].linked
    ensures Release(k.(tasks := k.tasks[t := c0]), t, c) == Release(k, t, c)
  {
    assert k.tasks[t := c0][t := c] == k.tasks[t := c];
  }

  function Marked(d: PendData, posted: bool, msg: Msg): PendData {
    d.(ready := true, msg := if posted then msg else d.msg)
  }

  lemma {:induction false} MarkAt(table: seq<PendData>, o: Oid, posted: bool, msg: Msg, n: nat)
    requires n <= |table| && (forall i :: 0 <= i < n ==> table[i].obj != o) && (n < |table| ==> table[n].obj == o)
    ensures Mark(table, o, posted, msg) == if n < |table| then table[n := Marked(table[n], posted, msg)] else table
  {
    if n > 0 {
      assert forall i :: 0 <= i < n - 1 ==> table[1..][i] == table[i+1];
      MarkAt(table[1..], o, posted, msg, n - 1);
    } else if table != [] {
      assert table[0 := Marked(table[0], posted, msg)] == [Marked(table[0], posted, msg)] + table[1..];
    }
  }

  class Kernel {
    var tasks: map<Tid, Tcb>
    var rdy: ReadyLists
    var wheel: TickWheel
    var pend: map<Oid, seq<Tid>>
    var cur: Tid
    var prioCur: Prio
    var schedLock: nat

    ghost function State(): K
      reads this
    {
      K(tasks, rdy, wheel, pend, cur, prioCur, schedLock)
    }

    ghost predicate Valid()
      reads this
    {
      Inv(State())
    }

    constructor (spokes: nat)
      requires spokes > 0
      ensures State() == KernelRuns.Initial(spokes) && Valid()
    {
      var k := KernelRuns.Initial(spokes);
      tasks, rdy, wheel, pend, cur, prioCur, schedLock := k.tasks, k.rdy, k.wheel, k.pend, k.cur, k.prioCur,
        k.schedLock;
      new;
      KernelRuns.InitialKeeps(spokes);
    }

    // What a routine relies on about the task it is called for.
    ghost predicate Sound(t: Tid)
      reads this
    {
      t in tasks && TcbOk(tasks[t]) && PendInv(tasks, pend)
    }

    // OS_PendListRemove.
    method PendListRemove(t: Tid)
      requires t in tasks && PendInv(tasks, pend) && (tasks[t].linked ==> TableDistinct(tasks[t].table))
      modifies `tasks, `pend
      ensures tasks == old(tasks)[t := old(tasks)[t].(linked := false)]
      ensures pend == if old(tasks)[t].linked then Unpend(old(pend), t) else old(pend)
    {
      if tasks[t].linked {
        var table := tasks[t].table;
        var n := 0;
        ghost var next := Unpend(pend, t);
        OnNoOther(tasks, pend, t);
        ObjectsListed(tasks, pend, t);
        PartlyAll(pend, next, table);
        hide PendInv, Unpend, Partly;
        while n < |table|
          invariant n <= |table| && pend == Partly(old(pend), next, table, n) && tasks == old(tasks)
        {
          var o := table[n].obj;
          PartlyOne(old(pend), next, table, n);
          pend := pend[o := Without(pend[o], t)];
          n := n + 1;
        }
      }
      tasks := tasks[t := tasks[t].(linked := false)];
    }

    // OS_Post1, and OS_PendAbort1 and OS_PendObjDel1 when nothing is posted.
    method MarkReady(t: Tid, o: Oid, posted: bool, msg: Msg)
      requires t in tasks
      modifies `tasks
      ensures tasks == old(tasks)[t := old(tasks)[t].(table := Mark(old(tasks)[t].table, o, posted, msg))]
    {
      var table := tasks[t].table;
      var n := 0;
      while n < |table| && table[n].obj != o
        invariant n <= |table| && forall i :: 0 <= i < n ==> table[i].obj != o
      {
        n := n + 1;
      }
      MarkAt(table, o, posted, msg, n);
      if n < |table| {
        tasks := tasks[t := tasks[t].(table := table[n := Marked(table[n], posted, msg)])];
      } else {
        tasks := tasks[t := tasks[t].(table := table)];
      }
    }

    // OS_TaskRdy.
    method TaskRdy(t: Tid)
      requires t in tasks
      modifies `rdy, `wheel
      ensures wheel == Wheel.Remove(old(wheel), t)
      ensures rdy == if tasks[t].st.susp then old(rdy) else RdyInsert(old(rdy), prioCur, tasks[t].prio, t)
    {
      wheel := Wheel.Remove(wheel, t);
      if !tasks[t].st.susp {
        rdy := RdyInsert(rdy, prioCur, tasks[t].prio, t);
      }
    }

    // What OS_Post, OS_PendAbort, OS_PendObjDel and the expiry of a timeout have in common
    // once the task's message is in place.
    method EndWait(t: Tid, status: PendStatus)
      requires t in tasks && tasks[t].st.pend && PendInv(tasks, pend)
        && (tasks[t].linked ==> TableDistinct(tasks[t].table))
      modifies `tasks, `pend, `rdy, `wheel
      ensures State() == Release(old(State()), t, Freed(old(tasks)[t], status))
    {
      PendListRemove(t);
      hide PendInv, Unpend, RdyInsert, Wheel.Remove;
      ghost var c := Freed(old(tasks)[t], status);
      if tasks[t].st.susp {
        wheel := Wheel.Remove(wheel, t);
        tasks := tasks[t := tasks[t].(st := SUSPENDED, status := status, pendOn := OnNothing)];
      } else {
        TaskRdy(t);
        tasks := tasks[t := tasks[t].(st := RDY, status := status, pendOn := OnNothing)];
      }
      assert tasks == old(tasks)[t := c];
      assert rdy == if c.st == RDY then RdyInsert(old(rdy), prioCur, c.prio, t) else old(rdy);
    }

    method Post(t: Tid, o: Oid, msg: Msg)
      requires Sound(t)
      modifies `tasks, `pend, `rdy, `wheel
      ensures State() == KernelSteps.Post(old(State()), t, o, msg)
    {
      if tasks[t].st.pend {
        ghost var k := State();
        Answered(k, t, o, true, msg, msg);
        hide TcbOk, PendInv, Release, TableDistinct;
        if tasks[t].pendOn == OnMulti {
          MarkReady(t, o, true, msg);
        } else {
          tasks := tasks[t := tasks[t].(msg := msg)];
        }
        ReleaseForgets(k, t, tasks[t], Posted(k.tasks[t], o, msg));
        EndWait(t, PendOk);
      }
    }

    // OS_PendAbort and OS_PendObjDel.
    method Cancel(t: Tid, o: Oid, status: PendStatus)
      requires Sound(t)
      modifies `tasks, `pend, `rdy, `wheel
      ensures State() == KernelSteps.Cancel(old(State()), t, o, status)
    {
      if tasks[t].st.pend {
        ghost var k := State();
        Answered(k, t, o, false, NULL_MSG, NULL_MSG);
        hide TcbOk, PendInv, Release, TableDistinct;
        if tasks[t].pendOn == OnMulti {
          MarkReady(t, o, false, NULL_MSG);
        }
        tasks := tasks[t := tasks[t].(msg := NULL_MSG)];
        ghost var multi := k.tasks[t].pendOn == OnMulti;
        ghost var marked := k.tasks[t].(table := Mark(k.tasks[t].table, o, false, NULL_MSG));
        ghost var c := (if multi then marked else k.tasks[t]).(msg := NULL_MSG);
        assert tasks == k.tasks[t := c];
        ReleaseForgets(k, t, c, Cancelled(k.tasks[t], o, status));
        EndWait(t, status);
      }
    }

    // OS_FlagTaskRdy: a suspended waiter is not taken off the tick wheel.
    method FlagTaskRdy(t: Tid, ready: bv32)
      requires Sound(t) && tasks[t].st.pend
      modifies `tasks, `pend, `rdy, `wheel
      ensures State() == KernelSteps.FlagRdy(old(State()), t, ready)
    {
      ghost var c := Freed(old(tasks)[t].(flagsRdy := ready), PendOk);
      FlagNoted(State(), t, ready);
      hide PendInv, TcbOk, TableDistinct, RdyInsert, Wheel.Remove, Unpend;
      var st := tasks[t].st;
      if st.susp {
        tasks := tasks[t := tasks[t].(flagsRdy := ready, status := PendOk, pendOn := OnNothing, st := SUSPENDED)];
      } else {
        TaskRdy(t);
        tasks := tasks[t := tasks[t].(flagsRdy := ready, status := PendOk, pendOn := OnNothing, st := RDY)];
      }
      PendListRemove(t);
      assert tasks == old(tasks)[t := c];
      assert rdy == if c.st == RDY then RdyInsert(old(rdy), prioCur, c.prio, t) else old(rdy);
    }

    // The body of the scan in OS_TickListUpdate for a task whose time has come.
    method Expire(t: Tid)
      requires t in tasks && tasks[t].st.dly && TcbOk(tasks[t]) && PendInv(tasks, pend)
      modifies `tasks, `pend, `rdy, `wheel
      ensures State() == Release(old(State()), t, Expired(old(tasks)[t]))
    {
      PendFrame(tasks, pend, t, tasks[t].(msg := NULL_MSG));
      hide PendInv;
      ghost var k := State();
      if tasks[t].st.pend {
        tasks := tasks[t := tasks[t].(msg := NULL_MSG)];
        ReleaseForgets(k, t, tasks[t], Expired(k.tasks[t]));
        EndWait(t, PendTimeout);
      } else if tasks[t].st.susp {
        tasks := tasks[t := tasks[t].(st := SUSPENDED)];
        wheel := Wheel.Remove(wheel, t);
      } else {
        tasks := tasks[t := tasks[t].(st := RDY)];
        TaskRdy(t);
      }
    }

    // The state with the tick counter of another moment.
    ghost function StateAt(ctr: Tick): K
      reads this
    {
      K(tasks, rdy, wheel.(ctr := ctr), pend, cur, prioCur, schedLock)
    }

    method Turn(ghost k0: K, l: seq<Tid>, i: nat)
      requires i < |l| && Scanning(k0, StateAt(k0.wheel.ctr), l, i) && wheel.ctr == Plus(k0.wheel.ctr, 1)
      requires l[i] in wheel.due && wheel.due[l[i]] == wheel.ctr && SpokeAtStart(k0, l)
      modifies `tasks, `pend, `rdy, `wheel
      ensures Scanning(k0, StateAt(k0.wheel.ctr), l, i + 1) && wheel.ctr == old(wheel.ctr)
    {
      ghost var k := StateAt(k0.wheel.ctr);
      ScanFinds(k0, k, l, i);
      ScanNext(k0, k, l, i);
      ReleaseAnyTime(State(), l[i], Expired(tasks[l[i]]), k0.wheel.ctr);
      hide *;
      Expire(l[i]);
      StateThen(k0.wheel.ctr);
    }

    lemma StateThen(ctr: Tick)
      ensures StateAt(ctr) == AtTime(State(), ctr) && State().wheel.ctr == wheel.ctr
    {
    }

    // OS_TickListUpdate: bump the counter, then go down one spoke, as it was, until a match
    // value is not the counter.
    method TickListUpdate()
      requires Valid()
      modifies `tasks, `pend, `rdy, `wheel
      ensures State() == KernelRuns.Tick(old(State()))
    {
      ghost var k0 := State();
      TickStart(k0);
      wheel := wheel.(ctr := Plus(wheel.ctr, 1));
      var l := wheel.spokes[SpokeOf(wheel.ctr, |wheel.spokes|)];
      var i := 0;
      assert StateAt(k0.wheel.ctr) == k0;
      hide Scanning, Inv, Wheel.Update, SpokeAtStart, KernelRuns.Tick;
      while i < |l| && OnWheel(l[i]) && wheel.due[l[i]] == wheel.ctr
        invariant i <= |l| && Scanning(k0, StateAt(k0.wheel.ctr), l, i) && wheel.ctr == Plus(k0.wheel.ctr, 1)
        decreases |l| - i
      {
        Turn(k0, l, i);
        i := i + 1;
      }
      ScanStops(k0, State(), l, i);
    }

    // OS_TaskBlock, for the running task.
    method TaskBlock(timeout: Tick)
      requires cur in tasks
      modifies `tasks, `rdy, `wheel
      ensures tasks == old(tasks)[cur := old(tasks)[cur].(st := if timeout > 0 then PEND_TIMEOUT else PEND)]
      ensures wheel == if timeout > 0 then Wheel.Insert(old(wheel), cur, Plus(old(wheel).ctr, timeout)) else old(wheel)
      ensures rdy == RdyRemove(old(rdy), old(tasks)[cur].prio, cur)
    {
      if timeout > 0 {
        wheel := Wheel.Insert(wheel, cur, Plus(wheel.ctr, timeout));
        tasks := tasks[cur := tasks[cur].(st := PEND_TIMEOUT)];
      } else {
        tasks := tasks[cur := tasks[cur].(st := PEND)];
      }
      rdy := RdyRemove(rdy, tasks[cur].prio, cur);
    }

    // OS_PendListInsertPrio for every entry of the table of t, which is on none of its lists.
    method Enlist(t: Tid, ghost next: map<Oid, seq<Tid>>)
      requires t in tasks && TableDistinct(tasks[t].table) && next.Keys == pend.Keys
      requires forall i :: 0 <= i < |tasks[t].table| ==> var o := tasks[t].table[i].obj;
        o in pend && next[o] == InsertPrio(tasks, pend[o], t, tasks[t].prio)
      requires forall o :: o in pend && o !in Objects(tasks[t].table) ==> next[o] == pend[o]
      modifies `pend
      ensures pend == next
    {
      var table, prio := tasks[t].table, tasks[t].prio;
      PartlyAll(pend, next, table);
      hide Partly, TableDistinct, Objects, InsertPrio;
      var n := 0;
      while n < |table|
        invariant n <= |table| && pend == Partly(old(pend), next, table, n) && tasks == old(tasks)
      {
        var o := table[n].obj;
        PartlyOne(old(pend), next, table, n);
        pend := pend[o := InsertPrio(tasks, pend[o], t, prio)];
        n := n + 1;
      }
    }

    // OS_Pend and OS_PendMultiWait.
    method Pend(on: PendOn, objs: seq<Oid>, timeout: Tick)
      requires Sound(cur) && Runs(State()) && PendArgs(State(), on, objs)
      modifies `tasks, `rdy, `wheel, `pend
      ensures State() == KernelSteps.Pend(old(State()), on, objs, timeout)
    {
      hide PendInv, TcbOk, RdyRemove, Wheel.Insert, KernelState.Enlist, FreshTable, Objects, TableDistinct, PendArgs,
           InsertPrio;
      ghost var k := State();
      ghost var c := Blocked(k, on, objs, timeout);
      ghost var next := KernelState.Enlist(k.tasks, k.pend, cur, c.prio, Objects(c.table));
      BlockedLinks(k, on, objs, timeout);
      tasks := tasks[cur := tasks[cur].(pendOn := on, status := PendOk)];
      TaskBlock(timeout);
      tasks := tasks[cur := tasks[cur].(table := FreshTable(objs), linked := objs != [])];
      assert tasks == k.tasks[cur := c];
      Enlist(cur, next);
    }

    // The loop of OS_PendListChangePrio: out of every list and in again, unless alone there.
    method Resort(t: Tid, ghost next: map<Oid, seq<Tid>>)
      requires t in tasks && TableDistinct(tasks[t].table) && next.Keys == pend.Keys
      requires forall i :: 0 <= i < |tasks[t].table| ==> var o := tasks[t].table[i].obj;
        && o in pend && next[o] == InsertPrio(tasks, Without(pend[o], t), t, tasks[t].prio)
        && (|pend[o]| <= 1 ==> next[o] == pend[o])
      requires forall o :: o in pend && o !in Objects(tasks[t].table) ==> next[o] == pend[o]
      modifies `pend
      ensures pend == next
    {
      hide Partly, TableDistinct, Objects;
      var table, prio := tasks[t].table, tasks[t].prio;
      PartlyAll(pend, next, table);
      var n := 0;
      while n < |table|
        invariant n <= |table| && pend == Partly(old(pend), next, table, n) && tasks == old(tasks)
      {
        var o := table[n].obj;
        PartlyOne(old(pend), next, table, n);
        var l := pend[o];
        if |l| > 1 {
          l := Without(l, t);
          l := InsertPrio(tasks, l, t, prio);
        }
        pend := pend[o := l];
        n := n + 1;
      }
    }

    // OS_PendListChangePrio: the priority first.
    method PendListChangePrio(t: Tid, prio: Prio)
      requires Sound(t)
      modifies `tasks, `pend
      ensures tasks == old(tasks)[t := old(tasks)[t].(prio := prio)]
      ensures pend == if tasks[t].linked then
        KernelState.Enlist(tasks, Unpend(old(pend), t), t, prio, Objects(tasks[t].table))
                      else old(pend)
    {
      ghost var tasks0 := tasks;
      ghost var next := KernelState.Enlist(tasks[t := tasks[t].(prio := prio)], Unpend(pend, t), t, prio,
          Objects(tasks[t].table));
      tasks := tasks[t := tasks[t].(prio := prio)];
      if tasks[t].linked {
        Resorted(tasks0, pend, t, prio);
        hide PendInv, TableDistinct, Unpend, Objects, InsertPrio, KernelState.Enlist;
        Resort(t, next);
      }
    }

    // The change of priority shared by OSTaskChangePrio and the mutex services.
    method Reprio(t: Tid, prio: Prio, place: Place, resort: bool)
      requires Sound(t)
      modifies `tasks, `rdy, `pend
      ensures State() == KernelSteps.Reprio(old(State()), t, prio, place, resort)
    {
      hide PendInv;
      if tasks[t].st == RDY {
        rdy := RdyRemove(rdy, tasks[t].prio, t);
        tasks := tasks[t := tasks[t].(prio := prio)];
        rdy := RdyPut(rdy, prio, t, place);
      } else if tasks[t].st.pend && resort {
        PendListChangePrio(t, prio);
      } else {
        tasks := tasks[t := tasks[t].(prio := prio)];
      }
    }

    method ChangePrio(t: Tid, prio: nat, self: bool) returns (ok: bool)
      requires Sound(t)
      modifies `tasks, `rdy, `pend
      ensures ok == (prio < PRIO_MAX - 1)
      ensures State() == KernelSteps.ChangePrio(old(State()), t, prio, self)
    {
      if prio >= PRIO_MAX - 1 {
        return false;
      }
      Reprio(t, prio, if self then AtHead else AtTail, tasks[t].pendOn != OnFlag);
      return true;
    }

    // OSTimeDly. When it succeeds the caller sleeps, for as long as its option says; when it is
    // refused nothing has changed, or, with a time to match that has passed, the kernel is no
    // longer consistent.
    method TimeDly(time: Tick, opt: TimeOpt) returns (ok: bool)
      requires Valid() && cur in tasks && tasks[cur].st == RDY && cur != IDLE
      modifies `tasks, `rdy, `wheel
      ensures schedLock > 0 ==> !ok && State() == old(State())
      ensures schedLock == 0 ==> State() == KernelSteps.TimeDly(old(State()), time, opt)
      ensures ok ==> Valid() && cur in wheel.due && Sleeps(State(), cur, Minus(wheel.due[cur], old(wheel).ctr), false)
      ensures ok && opt != Match ==> 1 <= Minus(wheel.due[cur], old(wheel).ctr) <= time
      ensures ok && opt == Match ==> wheel.due[cur] == time
      ensures !ok && schedLock == 0 && opt != Match ==> time == 0 && State() == old(State())
      ensures !ok && schedLock == 0 && opt == Match ==> Minus(old(wheel).ctr, time) < 0xFFFF && !Valid()
    {
      hide Inv;
      if schedLock > 0 {
        return false;
      }
      DlyKeeps(State(), time, opt);
      PlanMeaning(wheel.ctr, tasks[cur].tickPrev, time, opt);
      DelayPlan(State(), time, opt);
      if opt != Match && time == 0 {
        return false;
      }
      ok := Delay(time, opt);
    }

    // The rest of it, with the scheduler unlocked and something to wait for.
    method Delay(time: Tick, opt: TimeOpt) returns (ok: bool)
      requires Inv(State()) && Runs(State()) && !(opt != Match && time == 0)
      modifies `tasks, `rdy, `wheel
      ensures State() == KernelSteps.TimeDly(old(State()), time, opt)
      ensures var p := PlanOf(old(wheel).ctr, old(tasks)[cur].tickPrev, time, opt);
        ok == p.Wake? && (ok ==> Sleeps(State(), cur, Minus(p.due, old(wheel).ctr), false))
    {
      hide Inv, Sleeps;
      if PlanOf(wheel.ctr, tasks[cur].tickPrev, time, opt).Wake? { DelaySleeps(State(), time, opt); }
      tasks := tasks[cur := tasks[cur].(st := DLY)];
      match PlanOf(wheel.ctr, tasks[cur].tickPrev, time, opt)
      case ZeroDly =>
        return false;
      case Wake(due, prev) =>
        tasks := tasks[cur := tasks[cur].(tickPrev := prev)];
        wheel := Wheel.Insert(wheel, cur, due);
        rdy := RdyRemove(rdy, tasks[cur].prio, cur);
        return true;
    }

    method DlyResume(t: Tid)
      requires Sound(t)
      modifies `tasks, `rdy, `wheel
      ensures State() == KernelSteps.DlyResume(old(State()), t)
    {
      hide PendInv;
      if tasks[t].st == DLY {
        tasks := tasks[t := tasks[t].(st := RDY)];
        wheel := Wheel.Remove(wheel, t);
        rdy := RdyInsert(rdy, prioCur, tasks[t].prio, t);
      } else if tasks[t].st == DLY_SUSPENDED {
        tasks := tasks[t := tasks[t].(st := SUSPENDED)];
        wheel := Wheel.Remove(wheel, t);
      }
    }

    method Suspend(t: Tid)
      requires t in tasks
      modifies `tasks, `rdy
      ensures State() == KernelSteps.Suspend(old(State()), t)
    {
      if t == IDLE || (t == cur && schedLock > 0) {
        return;
      }
      if tasks[t].st == RDY {
        tasks := tasks[t := tasks[t].(st := SUSPENDED, suspendCtr := 1)];
        rdy := RdyRemove(rdy, tasks[t].prio, t);
      } else if !tasks[t].st.susp {
        tasks := tasks[t := tasks[t].(st := tasks[t].st.(susp := true), suspendCtr := 1)];
      } else if tasks[t].suspendCtr == SUSPEND_MAX {
        tasks := tasks[t := tasks[t].(suspendCtr := 0)];
      } else {
        tasks := tasks[t := tasks[t].(suspendCtr := tasks[t].suspendCtr + 1)];
      }
    }

    method Resume(t: Tid)
      requires Sound(t)
      modifies `tasks, `rdy, `wheel
      ensures State() == KernelSteps.Resume(old(State()), t)
    {
      hide PendInv;
      if t == cur || !tasks[t].st.susp {
        return;
      }
      tasks := tasks[t := tasks[t].(suspendCtr := tasks[t].suspendCtr - 1)];
      if tasks[t].suspendCtr == 0 {
        if tasks[t].st == SUSPENDED {
          tasks := tasks[t := tasks[t].(st := RDY)];
          TaskRdy(t);
        } else {
          tasks := tasks[t := tasks[t].(st := tasks[t].st.(susp := false))];
        }
      }
    }

    // The ready-list part of OSTaskCreate.
    method Create(t: Tid, prio: Prio)
      requires t !in tasks
      modifies `tasks, `rdy
      ensures State() == KernelSteps.Create(old(State()), t, prio)
    {
      tasks := tasks[t := NewTcb(prio)];
      rdy := rdy[prio := rdy[prio] + [t]];
    }

    // OSTaskDel.
    method Delete(t: Tid)
      requires Sound(t)
      modifies `tasks, `rdy, `wheel, `pend
      ensures State() == KernelSteps.Delete(old(State()), t)
    {
      if t == IDLE {
        return;
      }
      hide PendInv, Wheel.Remove, RdyRemove, Unpend;
      var st := tasks[t].st;
      if st == RDY {
        rdy := RdyRemove(rdy, tasks[t].prio, t);
      } else if st.pend {
        wheel := Wheel.Remove(wheel, t);
        if tasks[t].pendOn != OnTaskQ && tasks[t].pendOn != OnTaskSem {
          PendListRemove(t);
        }
      } else if st.dly {
        wheel := Wheel.Remove(wheel, t);
      }
      tasks := tasks - {t};
    }

    // OSSched outside of interrupts.
    method Sched()
      requires Valid()
      modifies `cur, `prioCur
      ensures State() == KernelRuns.Sched(old(State()))
    {
      if schedLock > 0 {
        return;
      }
      KernelRuns.HighestIsBest(State());
      hide Inv;
      var high := 0;
      while rdy[high] == []
        invariant high <= KernelRuns.Highest(rdy, 0) < PRIO_MAX
        invariant KernelRuns.Highest(rdy, high) == KernelRuns.Highest(rdy, 0)
        decreases PRIO_MAX - high
      {
        high := high + 1;
      }
      if rdy[high][0] != cur {
        cur := rdy[high][0];
        prioCur := high;
      }
    }

    predicate OnWheel(t: Tid)
      reads this
    {
      t in wheel.due
    }
  }

  function AtTime(k: K, ctr: Tick): K {
    k.(wheel := k.wheel.(ctr := ctr))
  }

  lemma ReleaseAnyTime(k: K, t: Tid, c: Tcb, ctr: Tick)
    requires t in k.tasks
    ensures AtTime(Release(k, t, c), ctr) == Release(AtTime(k, ctr), t, c)
    ensures Release(k, t, c).wheel.ctr == k.wheel.ctr
  {
  }

  lemma {:induction false} MarkObjects(table: seq<PendData>, o: Oid, posted: bool, msg: Msg)
    ensures var r := Mark(table, o, posted, msg);
      |r| == |table| && forall i :: 0 <= i < |r| ==> r[i].obj == table[i].obj
  {
    if table != [] {
      MarkObjects(table[1..], o, posted, msg);
    }
  }

  // What a waiting task is told does not move it on any list.
  lemma Answered(k: K, t: Tid, o: Oid, posted: bool, msg: Msg, msg': Msg)
    requires t in k.tasks && TcbOk(k.tasks[t]) && PendInv(k.tasks, k.pend)
    ensures var c := k.tasks[t].(msg := msg');
      && PendInv(k.tasks[t := c], k.pend) && (c.linked ==> TableDistinct(c.table))
      && PendInv(k.tasks[t := c.(table := Mark(c.table, o, posted, msg))], k.pend)
      && PendInv(k.tasks[t := k.tasks[t].(table := Mark(c.table, o, posted, msg))], k.pend)
      && (c.linked ==> TableDistinct(Mark(c.table, o, posted, msg)))
  {
    var c := k.tasks[t].(msg := msg');
    var c' := c.(table := Mark(c.table, o, posted, msg));
    MarkObjects(c.table, o, posted, msg);
    hide PendInv;
    PendFrame(k.tasks, k.pend, t, c);
    PendFrame(k.tasks, k.pend, t, c');
    PendFrame(k.tasks, k.pend, t, k.tasks[t].(table := c'.table));
  }

  // Which tasks the scan of a tick will find, and that it stops behind them.
  ghost predicate SpokeAtStart(k: K, l: seq<Tid>) {
    var c, out := Plus(k.wheel.ctr, 1), Wheel.Update(k.wheel).1;
    && Distinct(l) && |out| <= |l| && out == l[..|out|]
    && (forall i :: 0 <= i < |l| ==> l[i] in k.wheel.due)
    && (forall i :: 0 <= i < |out| ==> k.wheel.due[l[i]] == c)
    && (|out| < |l| ==> k.wheel.due[l[|out|]] != c)
  }

  // The scan of a tick, l being the spoke as it was: the first i tasks are released. k is the
  // state but for the counter.
  ghost predicate Scanning(k0: K, k: K, l: seq<Tid>, i: nat) {
    var out := Wheel.Update(k0.wheel).1;
    && Inv(k) && i <= |out| <= |l| && k.wheel.ctr == k0.wheel.ctr
    && CanRelease(k, out[i..], Expired) && ReleaseAll(k, out[i..], Expired) == ReleaseAll(k0, out, Expired)
    && k.wheel.due == k0.wheel.due - Elements(l[..i])
  }

  lemma NextSpokeOk(k: K)
    requires Inv(k)
    ensures var n := |k.wheel.spokes|; var j := SpokeOf(Plus(k.wheel.ctr, 1), n);
      Wheel.SpokeOk(k.wheel.due, k.wheel.ctr, n, j, k.wheel.spokes[j])
  {
  }

  lemma TickStart(k: K)
    requires Inv(k)
    ensures var l := k.wheel.spokes[SpokeOf(Plus(k.wheel.ctr, 1), |k.wheel.spokes|)];
      SpokeAtStart(k, l) && Scanning(k, k, l, 0)
  {
    hide Inv, CanRelease, Wheel.Valid;
    NextSpokeOk(k);
    var out := Wheel.Update(k.wheel).1;
    assert out[0..] == out;
    KernelRuns.TickWakesDue(k);
  }

  lemma ReleaseAllFirst(k: K, rest: seq<Tid>, f: Tcb -> Tcb)
    requires rest != [] && rest[0] in k.tasks
    ensures ReleaseAll(k, rest, f) == ReleaseAll(Release(k, rest[0], f(k.tasks[rest[0]])), rest[1..], f)
  {
  }

  lemma ScanNext(k0: K, k: K, l: seq<Tid>, i: nat)
    requires Scanning(k0, k, l, i) && SpokeAtStart(k0, l)
    requires i < |Wheel.Update(k0.wheel).1| <= |l| && l[i] in k.tasks
    ensures Scanning(k0, Release(k, l[i], Expired(k.tasks[l[i]])), l, i + 1)
  {
    hide *;
    ScanParts(k0, k, l, i);
    var rest := Wheel.Update(k0.wheel).1[i..];
    ReleaseFirst(k, rest, Expired);
    ReleaseAllFirst(k, rest, Expired);
    ScanIs(k0, Release(k, l[i], Expired(k.tasks[l[i]])), l, i + 1, k.wheel.due - {l[i]});
  }

  lemma ScanParts(k0: K, k: K, l: seq<Tid>, i: nat)
    requires Scanning(k0, k, l, i) && SpokeAtStart(k0, l) && i < |Wheel.Update(k0.wheel).1| <= |l|
    ensures var out := Wheel.Update(k0.wheel).1; var rest := out[i..];
      && Inv(k) && CanRelease(k, rest, Expired) && ReleaseAll(k, rest, Expired) == ReleaseAll(k0, out, Expired)
      && rest != [] && rest[0] == l[i] && rest[1..] == out[i+1..] && k.wheel.ctr == k0.wheel.ctr
      && k.wheel.due - {l[i]} == k0.wheel.due - Elements(l[..i+1])
  {
    hide Inv, CanRelease, ReleaseAll, Wheel.Update;
    assert Elements(l[..i+1]) == Elements(l[..i]) + {l[i]};
  }

  lemma ScanIs(k0: K, k: K, l: seq<Tid>, i: nat, due: map<Tid, Tick>)
    requires var out := Wheel.Update(k0.wheel).1;
      && i <= |out| <= |l|
      && CanRelease(k, out[i..], Expired) && ReleaseAll(k, out[i..], Expired) == ReleaseAll(k0, out, Expired)
    requires Inv(k) && k.wheel.ctr == k0.wheel.ctr
    requires k.wheel.due == due && due == k0.wheel.due - Elements(l[..i])
    ensures Scanning(k0, k, l, i)
  {
  }

  lemma ScanFinds(k0: K, k: K, l: seq<Tid>, i: nat)
    requires Scanning(k0, k, l, i) && SpokeAtStart(k0, l) && i < |l|
    requires l[i] in k.wheel.due && k.wheel.due[l[i]] == Plus(k0.wheel.ctr, 1)
    ensures i < |Wheel.Update(k0.wheel).1|
    ensures l[i] in k.tasks && k.tasks[l[i]].st.dly && TcbOk(k.tasks[l[i]]) && PendInv(k.tasks, k.pend)
  {
    hide Wheel.Update, CanRelease, ReleaseAll, RdyInv, PendInv;
  }

  lemma ScanStops(k0: K, k: K, l: seq<Tid>, i: nat)
    requires Scanning(k0, AtTime(k, k0.wheel.ctr), l, i) && k.wheel.ctr == Plus(k0.wheel.ctr, 1) && SpokeAtStart(k0, l)
    requires i < |l| && l[i] in k.wheel.due ==> k.wheel.due[l[i]] != k.wheel.ctr
    ensures k == KernelRuns.Tick(k0)
  {
    var out := Wheel.Update(k0.wheel).1;
    hide Wheel.Update, Inv, CanRelease;
    assert forall j :: 0 <= j < |l| ==> l[j] !in l[..j];
    assert i == |out|;
    assert out[|out|..] == [];
  }

  // What blocking leaves to be done to the pend lists.
  lemma BlockedLinks(k: K, on: PendOn, objs: seq<Oid>, timeout: Tick)
    requires Runs(k) && PendArgs(k, on, objs) && TcbOk(k.tasks[k.cur]) && PendInv(k.tasks, k.pend)
    ensures var c := Blocked(k, on, objs, timeout); var tasks' := k.tasks[k.cur := c];
      var next := Enlist(k.tasks, k.pend, k.cur, c.prio, Objects(c.table));
      && TableDistinct(c.table) && next.Keys == k.pend.Keys
      && (forall i :: 0 <= i < |c.table| ==> var o := c.table[i].obj;
            o in k.pend && next[o] == InsertPrio(tasks', k.pend[o], k.cur, c.prio))
      && (forall o :: o in k.pend && o !in Objects(c.table) ==> next[o] == k.pend[o])
  {
    var c := Blocked(k, on, objs, timeout);
    NotLinked(k.tasks, k.pend, k.cur);
    EnlistUnaffected(k.tasks, k.pend, k.cur, c, Objects(c.table));
    FreshDistinct(objs);
    hide PendInv, TcbOk, InsertPrio, TableDistinct;
    assert forall i :: 0 <= i < |c.table| ==> c.table[i].obj in Objects(c.table) && c.table[i].obj in objs;
  }

  lemma FreshDistinct(objs: seq<Oid>)
    requires Distinct(objs)
    ensures TableDistinct(FreshTable(objs))
  {
  }

  // Taking a task out of one list and putting it in again; out of a list with one entry it
  // need not be taken.
  lemma Resorted(tasks: map<Tid, Tcb>, pend: map<Oid, seq<Tid>>, t: Tid, prio: Prio)
    requires PendInv(tasks, pend) && t in tasks && tasks[t].linked
    ensures var tasks' := tasks[t := tasks[t].(prio := prio)]; var objs := Objects(tasks[t].table);
      var next := Enlist(tasks', Unpend(pend, t), t, prio, objs);
      && next.Keys == pend.Keys
      && (forall i :: 0 <= i < |tasks[t].table| ==> var o := tasks[t].table[i].obj;
            && o in pend && next[o] == InsertPrio(tasks', Without(pend[o], t), t, prio)
            && (|pend[o]| <= 1 ==> next[o] == pend[o]))
      && (forall o :: o in pend && o !in objs ==> next[o] == pend[o])
  {
    OnNoOther(tasks, pend, t);
    ObjectsListed(tasks, pend, t);
    assert forall i :: 0 <= i < |tasks[t].table| ==> tasks[t].table[i].obj in Objects(tasks[t].table);
    var tasks', objs := tasks[t := tasks[t].(prio := prio)], Objects(tasks[t].table);
    assert forall o :: o in pend && o in objs ==> t in pend[o];
    hide PendInv;
    forall o | o in pend && o in objs && |pend[o]| <= 1
      ensures InsertPrio(tasks', Without(pend[o], t), t, prio) == pend[o]
    {
      assert pend[o] == [t];
    }
  }

  lemma FlagNoted(k: K, t: Tid, ready: bv32)
    requires t in k.tasks && TcbOk(k.tasks[t]) && PendInv(k.tasks, k.pend)
    ensures forall st :: var c := k.tasks[t].(st := st, flagsRdy := ready, status := PendOk, pendOn := OnNothing);
      PendInv(k.tasks[t := c], k.pend) && (c.linked ==> TableDistinct(c.table))
  {
    hide PendInv;
    forall st
      ensures var c := k.tasks[t].(st := st, flagsRdy := ready, status := PendOk, pendOn := OnNothing);
        PendInv(k.tasks[t := c], k.pend) && (c.linked ==> TableDistinct(c.table))
    {
      PendFrame(k.tasks, k.pend, t, k.tasks[t].(st := st, flagsRdy := ready, status := PendOk, pendOn := OnNothing));
    }
  }
}
