// What each kernel service leaves behind, field by field and list by list (os_core.c, os_task.c,
// os_time.c, os_flag.c): which task changes and how, where it stands afterwards, and that nothing
// else moves.

module TaskEffects {
  import opened Ticks
  import opened Lists
  import opened Tasks
  import opened FlagBits
  import opened KernelState
  import opened KernelSteps
  import opened KernelReleases
  import TickRuns
  import KernelRuns
  import Wheel = TickWheelSpec

  // ---------------------------------------------------------------- places

  // t joins the ready list of priority p: behind the others when p is OSPrioCur, and in front of
  // them otherwise.
  ghost predicate Joins(k: K, k': K, t: Tid, p: Prio) {
    forall q :: 0 <= q < PRIO_MAX ==>
      k'.rdy[q] == if q != p then k.rdy[q] else if q == k.prioCur then k.rdy[q] + [t] else [t] + k.rdy[q]
  }

  // l' is l without t, in the same order.
  ghost predicate Dropped<T>(l: seq<T>, l': seq<T>, t: T) {
    if t in l then exists i :: 0 <= i < |l| && l[i] == t && l' == l[..i] + l[i+1..] else l' == l
  }

  // t leaves the ready list of priority p.
  ghost predicate Quits(k: K, k': K, t: Tid, p: Prio) {
    && t in k.rdy[p] && Dropped(k.rdy[p], k'.rdy[p], t)
    && forall q :: 0 <= q < PRIO_MAX && q != p ==> k'.rdy[q] == k.rdy[q]
  }

  // Everybody else on the wheel sleeps on, in the same order.
  ghost predicate OffWheel(k: K, k': K, t: Tid) {
    && k'.wheel.ctr == k.wheel.ctr && k'.wheel.due == k.wheel.due - {t}
    && |k'.wheel.spokes| == |k.wheel.spokes|
    && forall j :: 0 <= j < |k.wheel.spokes| ==> Dropped(k.wheel.spokes[j], k'.wheel.spokes[j], t)
  }

  // t sleeps until the counter is due, and everybody else on the wheel as before.
  ghost predicate OnWheel(k: K, k': K, t: Tid, due: Tick) {
    Wheel.Placed(k.wheel, k'.wheel, t, due)
  }

  // t is on no pend list, and the others keep their places.
  ghost predicate OffLists(k: K, k': K, t: Tid) {
    && k'.pend.Keys == k.pend.Keys
    && forall o :: o in k.pend ==> Dropped(k.pend[o], k'.pend[o], t)
  }

  // t stands in l' behind every waiter at least as urgent as prio and in front of every other.
  ghost predicate Queued(tasks: map<Tid, Tcb>, l: seq<Tid>, l': seq<Tid>, t: Tid, prio: Prio) {
    exists i :: 0 <= i <= |l| && l' == l[..i] + [t] + l[i..]
      && (forall j :: 0 <= j < i && l[j] in tasks ==> tasks[l[j]].prio <= prio)
      && (forall j :: i <= j < |l| && l[j] in tasks ==> prio < tasks[l[j]].prio)
  }

  // t waits on exactly the objects of objs.
  ghost predicate OnLists(k: K, k': K, t: Tid, objs: seq<Oid>, prio: Prio) {
    && k'.pend.Keys == k.pend.Keys
    && forall o :: o in k.pend ==>
      if o in objs then Queued(k.tasks, k.pend[o], k'.pend[o], t, prio) else k'.pend[o] == k.pend[o]
  }

  // t's control block becomes c, nobody else's changes, and the same task runs.
  ghost predicate Becomes(k: K, k': K, t: Tid, c: Tcb) {
    k'.tasks == k.tasks[t := c] && k'.cur == k.cur && k'.prioCur == k.prioCur && k'.schedLock == k.schedLock
  }

  lemma WithoutDrops<T>(l: seq<T>, t: T)
    requires Distinct(l)
    ensures Dropped(l, Without(l, t), t)
  {
    if t in l {
      var i :| 0 <= i < |l| && l[i] == t;
      WithoutIsRemoveAt(l, i);
    }
  }

  lemma InsertQueues(tasks: map<Tid, Tcb>, l: seq<Tid>, t: Tid, prio: Prio)
    requires ByPrio(tasks, l)
    ensures Queued(tasks, l, InsertPrio(tasks, l, t, prio), t, prio)
  {
    var i := PrioPos(tasks, l, prio);
    assert InsertPrio(tasks, l, t, prio) == l[..i] + [t] + l[i..];
    forall j | i <= j < |l| && l[j] in tasks
      ensures prio < tasks[l[j]].prio
    {
      if j > i { assert tasks[l[i]].prio <= tasks[l[j]].prio; }
    }
  }

  lemma RemovedWheel(w: TickWheel, t: Tid)
    requires Wheel.Valid(w)
    ensures var w' := Wheel.Remove(w, t);
      && w'.due == w.due - {t}
      && forall j :: 0 <= j < |w.spokes| ==> Dropped(w.spokes[j], w'.spokes[j], t)
  {
    forall j | 0 <= j < |w.spokes|
      ensures Dropped(w.spokes[j], Wheel.Remove(w, t).spokes[j], t)
    {
      assert Wheel.SpokeOk(w.due, w.ctr, |w.spokes|, j, w.spokes[j]);
      hide Dropped, Wheel.Valid;
      WithoutDrops(w.spokes[j], t);
      NotOnSpoke(w.due, w.ctr, |w.spokes|, j, w.spokes[j], t);
      SameDrops(w.spokes[j], t);
    }
  }

  lemma NotOnSpoke(due: map<Tid, Tick>, c: Tick, n: nat, j: nat, l: seq<Tid>, t: Tid)
    requires n > 0 && Wheel.SpokeOk(due, c, n, j, l)
    ensures t in l ==> t in due && SpokeOf(due[t], n) == j
  {
  }

  lemma SameDrops<T>(l: seq<T>, t: T)
    ensures t !in l ==> Dropped(l, l, t)
  {
  }

  // ---------------------------------------------------------------- leaving a wait or a delay

  // Off the wheel and all pend lists; onto the ready list unless it is suspended.
  ghost predicate Freely(k: K, k': K, t: Tid, c: Tcb) {
    && Becomes(k, k', t, c) && OffWheel(k, k', t) && OffLists(k, k', t)
    && (if c.st == RDY then Joins(k, k', t, c.prio) else k'.rdy == k.rdy)
  }

  lemma ReleaseFrees(k: K, t: Tid, c: Tcb)
    requires Inv(k) && t in k.tasks
    ensures Freely(k, Release(k, t, c), t, c)
  {
    hide RdyInv, Wheel.Valid, Dropped, TcbOk, Wheel.Remove, Without;
    RemovedWheel(k.wheel, t);
    ReleasedPend(k, t, c);
    forall o | o in k.pend
      ensures Dropped(k.pend[o], Release(k, t, c).pend[o], t)
    {
      WithoutDrops(k.pend[o], t);
    }
  }

  // Whether l' is the table l with the first entry of o marked: it says that o was ready, and with
  // a post it holds the message.
  ghost predicate Marked(l: seq<PendData>, l': seq<PendData>, o: Oid, posted: bool, msg: Msg) {
    |l'| == |l| && forall i :: 0 <= i < |l| ==>
      l'[i] == if l[i].obj == o then PendData(o, true, if posted then msg else NULL_MSG) else l[i]
  }

  // The state of a task that has left a wait: ready, or suspended if it was.
  function Left(c: Tcb, status: PendStatus, table: seq<PendData>, msg: Msg, flagsRdy: bv32): Tcb {
    Tcb(TaskState(c.st.susp, false, false), c.prio, c.suspendCtr, OnNothing, status, table, false, msg,
        c.flagsPend, c.flagsMode, flagsRdy, c.tickPrev)
  }

  // OS_Post: a waiting task leaves its wait with OS_STATUS_PEND_OK. On one object it finds the
  // message in its control block, on several in the entry of the table that names the object.
  lemma PostDoes(k: K, t: Tid, o: Oid, msg: Msg)
    requires Inv(k) && t in k.tasks
    ensures var c := k.tasks[t]; var k' := Post(k, t, o, msg);
      if !c.st.pend then k' == k
      else
        && t in k'.tasks && var table := k'.tasks[t].table;
        && Freely(k, k', t, Left(c, PendOk, table, if c.pendOn == OnMulti then c.msg else msg, c.flagsRdy))
        && (if c.pendOn == OnMulti then Marked(c.table, table, o, true, msg) else table == c.table)
  {
    hide RdyInv, WheelInv, PendInv, Freely, Mark, Release;
    var c := k.tasks[t];
    if c.st.pend {
      ReleaseFrees(k, t, Posted(c, o, msg));
      if c.pendOn == OnMulti { KernelRuns.MarkOne(c.table, o, true, msg); }
      ReleaseSets(k, t, Posted(c, o, msg));
    }
  }

  lemma ReleaseSets(k: K, t: Tid, c: Tcb)
    ensures t in Release(k, t, c).tasks && Release(k, t, c).tasks[t] == c
  {
  }

  // OS_PendAbort and OS_PendObjDel: the same with the status given and no message.
  lemma CancelDoes(k: K, t: Tid, o: Oid, status: PendStatus)
    requires Inv(k) && t in k.tasks
    ensures var c := k.tasks[t]; var k' := Cancel(k, t, o, status);
      if !c.st.pend then k' == k
      else
        && t in k'.tasks && var table := k'.tasks[t].table;
        && Freely(k, k', t, Left(c, status, table, NULL_MSG, c.flagsRdy))
        && (if c.pendOn == OnMulti then Marked(c.table, table, o, false, NULL_MSG) else table == c.table)
  {
    hide RdyInv, WheelInv, PendInv, Freely, Mark, Release;
    var c := k.tasks[t];
    if c.st.pend {
      ReleaseFrees(k, t, Cancelled(c, o, status));
      if c.pendOn == OnMulti { KernelRuns.MarkOne(c.table, o, false, NULL_MSG); }
      ReleaseSets(k, t, Cancelled(c, o, status));
    }
  }

  // OS_FlagTaskRdy: the task finds the flags that were ready; a suspended one keeps its place on
  // the wheel.
  lemma FlagRdyDoes(k: K, t: Tid, rdy: bv32)
    requires Inv(k) && t in k.tasks
    ensures var c := k.tasks[t]; var k' := FlagRdy(k, t, rdy); var c' := Left(c, PendOk, c.table, c.msg, rdy);
      if !c.st.pend then k' == k
      else if c.st.susp then Becomes(k, k', t, c') && OffLists(k, k', t) && k'.rdy == k.rdy && k'.wheel == k.wheel
      else Freely(k, k', t, c')
  {
    hide RdyInv, WheelInv, TcbOk, Freely, Release, Dropped;
    var c := k.tasks[t];
    if c.st.pend {
      ReleaseFrees(k, t, Freed(c.(flagsRdy := rdy), PendOk));
      forall o | o in k.pend
        ensures Dropped(k.pend[o], if c.linked then Without(k.pend[o], t) else k.pend[o], t)
      {
        WithoutDrops(k.pend[o], t);
        SameDrops(k.pend[o], t);
        if !c.linked { NotLinked(k.tasks, k.pend, t); }
      }
    }
  }

  // OSTimeDlyResume: only a delay is ended, not a wait with a timeout.
  lemma DlyResumeDoes(k: K, t: Tid)
    requires Inv(k) && t in k.tasks
    ensures var c := k.tasks[t]; var k' := DlyResume(k, t);
      if c.st.dly && !c.st.pend then Freely(k, k', t, c.(st := TaskState(c.st.susp, false, false))) else k' == k
  {
    hide Inv, Freely, Release;
    var c := k.tasks[t];
    if c.st.dly && !c.st.pend { ReleaseFrees(k, t, c.(st := TaskState(c.st.susp, false, false))); }
  }

  // ---------------------------------------------------------------- starting a wait or a delay

  // What OS_Pend and OS_PendMultiWait put in front of the caller: one fresh entry an object.
  ghost predicate Fresh(table: seq<PendData>, objs: seq<Oid>) {
    |table| == |objs| && forall i :: 0 <= i < |objs| ==> table[i] == PendData(objs[i], false, NULL_MSG)
  }

  // The running task is not ready any more; it waits on exactly those objects, behind whoever is as
  // urgent, and sleeps if there is a timeout.
  ghost predicate Blocks(k: K, k': K, c: Tcb, on: PendOn, objs: seq<Oid>, timeout: Tick) {
    && k.cur in k'.tasks && Fresh(k'.tasks[k.cur].table, objs)
    && Becomes(k, k', k.cur,
         Tcb(TaskState(false, true, timeout > 0), c.prio, c.suspendCtr, on, PendOk, k'.tasks[k.cur].table, objs != [],
             c.msg, c.flagsPend, c.flagsMode, c.flagsRdy, c.tickPrev))
    && Quits(k, k', k.cur, c.prio) && OnLists(k, k', k.cur, objs, c.prio)
    && (if timeout > 0 then OnWheel(k, k', k.cur, (k.wheel.ctr + timeout) % MODULUS) else k'.wheel == k.wheel)
  }

  lemma PendDoes(k: K, on: PendOn, objs: seq<Oid>, timeout: Tick)
    requires Inv(k) && Runs(k) && PendArgs(k, on, objs)
    ensures Blocks(k, Pend(k, on, objs, timeout), k.tasks[k.cur], on, objs, timeout)
  {
    hide Inv, Enlist, Without, Dropped, OnLists, Wheel.Insert, Wheel.Placed, PendArgs;
    var c := k.tasks[k.cur];
    Listed(k, k.cur);
    OntoWheel(k, (k.wheel.ctr + timeout) % MODULUS);
    WithoutDrops(k.rdy[c.prio], k.cur);
    PendEnlists(k, on, objs, timeout);
  }

  lemma PendEnlists(k: K, on: PendOn, objs: seq<Oid>, timeout: Tick)
    requires Inv(k) && k.cur in k.tasks
    ensures OnLists(k, Pend(k, on, objs, timeout), k.cur, objs, k.tasks[k.cur].prio)
  {
    hide Inv, InsertPrio, Queued, RdyRemove, Wheel.Insert, Objects, FreshTable;
    PendSorted(k);
    BlockedObjects(k, on, objs, timeout);
    forall o | o in k.pend && o in objs
      ensures Queued(k.tasks, k.pend[o], Pend(k, on, objs, timeout).pend[o], k.cur, k.tasks[k.cur].prio)
    {
      InsertQueues(k.tasks, k.pend[o], k.cur, k.tasks[k.cur].prio);
    }
  }

  lemma OntoWheel(k: K, due: Tick)
    requires Inv(k)
    ensures Wheel.Placed(k.wheel, Wheel.Insert(k.wheel, k.cur, due), k.cur, due)
  {
    hide Wheel.Valid, Wheel.Insert, Wheel.Placed;
    Wheel.InsertPlaces(k.wheel, k.cur, due);
  }

  lemma Listed(k: K, t: Tid)
    requires Inv(k) && t in k.tasks && k.tasks[t].st == RDY
    ensures t in k.rdy[k.tasks[t].prio] && Distinct(k.rdy[k.tasks[t].prio])
  {
  }

  lemma PendSorted(k: K)
    requires Inv(k)
    ensures forall o :: o in k.pend ==> Distinct(k.pend[o]) && ByPrio(k.tasks, k.pend[o])
  {
  }

  lemma BlockedObjects(k: K, on: PendOn, objs: seq<Oid>, timeout: Tick)
    requires k.cur in k.tasks
    ensures forall o :: o in Objects(Blocked(k, on, objs, timeout).table) <==> o in objs
  {
    var table := Blocked(k, on, objs, timeout).table;
    assert forall i :: 0 <= i < |objs| ==> table[i].obj == objs[i];
  }

  // OSTimeDly after its argument checks. An accepted delay notes the match value of a periodic one
  // for the next call; a time to match that has just gone by marks the caller delayed and leaves it
  // where it is.
  lemma TimeDlyDoes(k: K, time: Tick, opt: TickRuns.TimeOpt)
    requires Inv(k) && Runs(k)
    ensures var c := k.tasks[k.cur]; var k' := TimeDly(k, time, opt); var dly := TaskState(false, false, true);
      match TickRuns.PlanOf(k.wheel.ctr, c.tickPrev, time, opt)
      case ZeroDly => k' == if opt == TickRuns.Match then k.(tasks := k.tasks[k.cur := c.(st := dly)]) else k
      case Wake(due, prev) =>
        && Becomes(k, k', k.cur, c.(st := dly, tickPrev := prev)) && k'.pend == k.pend
        && Quits(k, k', k.cur, c.prio) && OnWheel(k, k', k.cur, due)
  {
    hide Inv, Without, TickRuns.PlanOf, Wheel.Insert, Wheel.Placed;
    var c := k.tasks[k.cur];
    TickRuns.PlanMeaning(k.wheel.ctr, c.tickPrev, time, opt);
    Listed(k, k.cur);
    WithoutDrops(k.rdy[c.prio], k.cur);
    var p := TickRuns.PlanOf(k.wheel.ctr, c.tickPrev, time, opt);
    if p.Wake? { OntoWheel(k, p.due); }
  }

  // ---------------------------------------------------------------- suspension

  // OSTaskSuspend: neither the idle task nor, under a lock, the caller; otherwise the task is off
  // the ready list, and its wait or delay goes on.
  lemma SuspendDoes(k: K, t: Tid)
    requires Inv(k) && t in k.tasks
    ensures var c := k.tasks[t]; var k' := Suspend(k, t);
      if t == IDLE || (t == k.cur && k.schedLock > 0) then k' == k
      else
        && Becomes(k, k', t, c.(st := TaskState(true, c.st.pend, c.st.dly), suspendCtr := (c.suspendCtr + 1) % 256))
        && k'.wheel == k.wheel && k'.pend == k.pend
        && (if c.st == RDY then Quits(k, k', t, c.prio) else k'.rdy == k.rdy)
  {
    hide RdyInv, WheelInv, PendInv, Without;
    var c := k.tasks[t];
    assert TcbOk(c);
    if c.st == RDY {
      Listed(k, t);
      WithoutDrops(k.rdy[c.prio], t);
    }
  }

  // OSTaskResume: the last resumption ends the suspension, and a task with nothing else to wait for
  // is ready again.
  lemma ResumeDoes(k: K, t: Tid)
    requires Inv(k) && t in k.tasks
    ensures var c := k.tasks[t]; var k' := Resume(k, t);
      if t == k.cur || !c.st.susp then k' == k
      else
        var again := c.suspendCtr > 1;
        && Becomes(k, k', t, c.(st := TaskState(again, c.st.pend, c.st.dly), suspendCtr := c.suspendCtr - 1))
        && k'.wheel == k.wheel && k'.pend == k.pend
        && (if !again && !c.st.pend && !c.st.dly then Joins(k, k', t, c.prio) else k'.rdy == k.rdy)
  {
    hide RdyInv, PendInv, Wheel.Valid;
    assert TcbOk(k.tasks[t]);
  }

  // ---------------------------------------------------------------- priorities

  // t is taken out of l and put back at the head or the tail.
  ghost predicate Replaced(l: seq<Tid>, l': seq<Tid>, t: Tid, atHead: bool) {
    exists r :: Dropped(l, r, t) && l' == if atHead then [t] + r else r + [t]
  }

  // t is taken out of l and put back behind whoever is as urgent as prio.
  ghost predicate Requeued(tasks: map<Tid, Tcb>, l: seq<Tid>, l': seq<Tid>, t: Tid, prio: Prio) {
    exists r :: Dropped(l, r, t) && Queued(tasks, r, l', t, prio)
  }

  // A ready task moves to the list of its new priority, and a waiting one, but for event flags, to
  // its new place on every list it is on.
  ghost predicate Reprioritises(k: K, k': K, t: Tid, prio: Prio, atHead: bool, resort: bool)
    requires t in k.tasks
  {
    var c := k.tasks[t];
    && k'.tasks == k.tasks[t := c.(prio := prio)] && k'.cur == k.cur && k'.schedLock == k.schedLock
    && k'.wheel == k.wheel && k'.pend.Keys == k.pend.Keys
    && (forall o :: o in k.pend ==>
          if resort && c.linked && t in k.pend[o] then Requeued(k.tasks, k.pend[o], k'.pend[o], t, prio)
          else k'.pend[o] == k.pend[o])
    && (forall q :: 0 <= q < PRIO_MAX ==>
          if c.st != RDY then k'.rdy[q] == k.rdy[q]
          else if q == prio then Replaced(k.rdy[q], k'.rdy[q], t, atHead)
          else Dropped(k.rdy[q], k'.rdy[q], t))
  }

  lemma ReprioDoes(k: K, t: Tid, prio: Prio, place: Place, resort: bool)
    requires Inv(k) && t in k.tasks
    ensures var k' := Reprio(k, t, prio, place, resort);
      Reprioritises(k, k', t, prio, place == AtHead, resort) && k'.prioCur == k.prioCur
  {
    hide RdyInv, WheelInv, PendInv, TcbOk, Enlist, RdyPut, RdyRemove, Dropped, Queued;
    var k' := Reprio(k, t, prio, place, resort);
    forall o | o in k.pend
      ensures if resort && k.tasks[t].linked && t in k.pend[o] then Requeued(k.tasks, k.pend[o], k'.pend[o], t, prio)
              else k'.pend[o] == k.pend[o]
    {
      RequeuedOne(k, t, prio, o);
    }
    forall q | 0 <= q < PRIO_MAX && k.tasks[t].st == RDY
      ensures if q == prio then Replaced(k.rdy[q], k'.rdy[q], t, place == AtHead) else Dropped(k.rdy[q], k'.rdy[q], t)
    {
      ReplacedOne(k, t, prio, place, q);
    }
  }

  lemma RequeuedOne(k: K, t: Tid, prio: Prio, o: Oid)
    requires Inv(k) && t in k.tasks && o in k.pend
    ensures k.tasks[t].st == RDY ==> !k.tasks[t].linked
    ensures var tasks := k.tasks[t := k.tasks[t].(prio := prio)];
      var r := Enlist(tasks, Unpend(k.pend, t), t, prio, Objects(k.tasks[t].table))[o];
      k.tasks[t].linked ==> if t in k.pend[o] then Requeued(k.tasks, k.pend[o], r, t, prio) else r == k.pend[o]
  {
    hide RdyInv, WheelInv, Dropped, Queued;
    var c := k.tasks[t];
    assert TcbOk(c);
    var tasks, l := k.tasks[t := c.(prio := prio)], Without(k.pend[o], t);
    if c.linked {
      assert o in Objects(c.table) <==> t in k.pend[o] by { assert t in k.pend[o] ==> Waits(k.tasks, t, o); }
      WithoutDrops(k.pend[o], t);
      WithoutByPrio(k.tasks, k.pend[o], t);
      PosUnaffected(k.tasks, l, t, c.(prio := prio), prio);
      InsertQueues(k.tasks, l, t, prio);
    }
  }

  lemma ReplacedOne(k: K, t: Tid, prio: Prio, place: Place, q: nat)
    requires Inv(k) && t in k.tasks && k.tasks[t].st == RDY && q < PRIO_MAX
    ensures var l := RdyPut(RdyRemove(k.rdy, k.tasks[t].prio, t), prio, t, place)[q];
      if q == prio then Replaced(k.rdy[q], l, t, place == AtHead) else Dropped(k.rdy[q], l, t)
  {
    hide WheelInv, PendInv, TcbOk, Dropped, Without;
    WithoutDrops(k.rdy[q], t);
    SameDrops(k.rdy[q], t);
  }

  // OSTaskChangePrio; the priority of the idle task is refused.
  lemma ChangePrioDoes(k: K, t: Tid, prio: nat, self: bool)
    requires Inv(k) && t in k.tasks
    ensures var k' := ChangePrio(k, t, prio, self);
      if prio >= PRIO_MAX - 1 then k' == k
      else Reprioritises(k, k', t, prio, self, k.tasks[t].pendOn != OnFlag) && k'.prioCur == k.prioCur
  {
    hide Inv, Reprio, Reprioritises;
    if prio < PRIO_MAX - 1 {
      ReprioDoes(k, t, prio, if self then AtHead else AtTail, k.tasks[t].pendOn != OnFlag);
    }
  }

  // ---------------------------------------------------------------- creating and deleting

  // OSTaskCreate: the new task is ready, behind the others of its priority.
  lemma CreateDoes(k: K, t: Tid, prio: Prio)
    requires t !in k.tasks
    ensures var k' := Create(k, t, prio); var ready := TaskState(false, false, false);
      && Becomes(k, k', t,
           Tcb(ready, prio, 0, OnNothing, PendOk, [], false, NULL_MSG, 0, SetAll, 0, 0x8000_0000))
      && k'.wheel == k.wheel && k'.pend == k.pend
      && forall q :: 0 <= q < PRIO_MAX ==> k'.rdy[q] == if q == prio then k.rdy[q] + [t] else k.rdy[q]
  {
  }

  // OSTaskDel: the task is gone from every list, and nobody else moves.
  lemma DeleteDoes(k: K, t: Tid)
    requires Inv(k) && t in k.tasks
    ensures var c := k.tasks[t]; var k' := Delete(k, t);
      if t == IDLE then k' == k
      else
        && k'.tasks == k.tasks - {t} && k'.cur == k.cur && k'.prioCur == k.prioCur && k'.schedLock == k.schedLock
        && OffWheel(k, k', t) && OffLists(k, k', t)
        && (if c.st == RDY then Quits(k, k', t, c.prio) else k'.rdy == k.rdy)
  {
    hide RdyInv, PendInv, Wheel.Valid, Dropped, Without, Wheel.Remove;
    var c, k' := k.tasks[t], Delete(k, t);
    assert TcbOk(c);
    RemovedWheel(k.wheel, t);
    if c.st == RDY {
      Listed(k, t);
      WithoutDrops(k.rdy[c.prio], t);
    }
    if !c.linked { NotLinked(k.tasks, k.pend, t); }
    PendSorted(k);
    forall o | o in k.pend && t != IDLE
      ensures Dropped(k.pend[o], k'.pend[o], t)
    {
      WithoutDrops(k.pend[o], t);
      SameDrops(k.pend[o], t);
    }
    if t !in k.wheel.due { StillOnWheel(k.wheel, t); }
  }

  lemma StillOnWheel(w: TickWheel, t: Tid)
    requires t !in w.due
    ensures Wheel.Remove(w, t) == w
  {
  }
}
