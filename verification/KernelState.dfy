// The kernel's tasks and the lists they sit on, as one value; and the invariant that ties a
// task's state bits to its membership in the ready, tick and pend lists (os_core.c).

module KernelState {
  import opened Ticks
  import opened Lists
  import opened Tasks
  import opened FlagBits
  import Wheel = TickWheelSpec

  type Tid = nat
  type Oid = nat
  type Msg = int

  const NULL_MSG: Msg := 0
  const PRIO_MAX := 64
  const SUSPEND_MAX := 255
  const IDLE: Tid := 0

  datatype PendOn = OnNothing | OnFlag | OnTaskQ | OnMulti | OnMutex | OnQ | OnSem | OnTaskSem

  datatype PendStatus = PendOk | PendAbort | PendDel | PendTimeout

  // One OS_PEND_DATA; `ready` says that RdyObjPtr was set to PendObjPtr.
  datatype PendData = PendData(obj: Oid, ready: bool, msg: Msg)

  // table is the array PendDataTblPtr last pointed to; linked says that PendDataTblEntries
  // still counts it.
  datatype Tcb = Tcb(
    st: TaskState, prio: Prio, suspendCtr: nat,
    pendOn: PendOn, status: PendStatus, table: seq<PendData>, linked: bool, msg: Msg,
    flagsPend: bv32, flagsMode: FlagMode, flagsRdy: bv32, tickPrev: Tick)

  type Prio = p: nat | p < PRIO_MAX

  type ReadyLists = r: seq<seq<Tid>> | |r| == PRIO_MAX witness seq(PRIO_MAX, i => [])

  type TickWheel = w: Wheel.Wheel<Tid> | |w.spokes| > 0 witness Wheel.Wheel(0, [[]], map[])

  datatype K = K(
    tasks: map<Tid, Tcb>,
    rdy: ReadyLists,
    wheel: TickWheel,
    pend: map<Oid, seq<Tid>>,
    cur: Tid, prioCur: Prio, schedLock: nat)

  // ---------------------------------------------------------------- the invariant

  function Objects(table: seq<PendData>): set<Oid> {
    set i | 0 <= i < |table| :: table[i].obj
  }

  predicate Waits(tasks: map<Tid, Tcb>, t: Tid, o: Oid) {
    t in tasks && tasks[t].linked && o in Objects(tasks[t].table)
  }

  // A task is ready exactly when it is on the one ready list of its priority.
  ghost predicate RdyInv(tasks: map<Tid, Tcb>, rdy: ReadyLists) {
    && (forall p :: 0 <= p < PRIO_MAX ==> Distinct(rdy[p]))
    && (forall p, t :: 0 <= p < PRIO_MAX && t in rdy[p] ==> t in tasks && tasks[t].st == RDY && tasks[t].prio == p)
    && (forall t :: t in tasks && tasks[t].st == RDY ==> t in rdy[tasks[t].prio])
  }

  // The delay bit is set exactly for the tasks on the tick wheel.
  ghost predicate WheelInv(tasks: map<Tid, Tcb>, wheel: TickWheel) {
    && Wheel.Valid(wheel)
    && (forall t :: t in wheel.due ==> t in tasks && tasks[t].st.dly)
    && (forall t :: t in tasks && tasks[t].st.dly ==> t in wheel.due)
  }

  // Higher priorities, that is lower numbers, first.
  ghost predicate ByPrio(tasks: map<Tid, Tcb>, l: seq<Tid>) {
    forall i, j :: 0 <= i < j < |l| && l[i] in tasks && l[j] in tasks ==> tasks[l[i]].prio <= tasks[l[j]].prio
  }

  // A task is on the list of every object of its table while it is linked, once, in order
  // of priority, and on no other list.
  ghost predicate PendInv(tasks: map<Tid, Tcb>, pend: map<Oid, seq<Tid>>) {
    && (forall o :: o in pend ==> Distinct(pend[o]) && ByPrio(tasks, pend[o]))
    && (forall o, t :: o in pend && t in pend[o] ==> Waits(tasks, t, o))
    && (forall o, t :: t in tasks && tasks[t].linked && o in Objects(tasks[t].table) ==> o in pend && t in pend[o])
  }

  ghost predicate TableDistinct(table: seq<PendData>) {
    forall i, j :: 0 <= i < j < |table| ==> table[i].obj != table[j].obj
  }

  predicate Unanswered(table: seq<PendData>) {
    forall i :: 0 <= i < |table| ==> !table[i].ready && table[i].msg == NULL_MSG
  }

  ghost predicate TcbOk(c: Tcb) {
    && (c.st.susp <==> 0 < c.suspendCtr) && c.suspendCtr <= SUSPEND_MAX
    && (c.st.pend <==> c.pendOn != OnNothing)
    && (c.st.pend ==> c.status == PendOk)
    && (c.linked <==> c.st.pend && c.pendOn != OnTaskQ && c.pendOn != OnTaskSem)
    && (c.linked ==> c.table != [] && TableDistinct(c.table) && Unanswered(c.table))
    && (c.linked && c.pendOn != OnMulti ==> |c.table| == 1)
  }

  ghost predicate Inv(k: K) {
    && (forall t :: t in k.tasks ==> TcbOk(k.tasks[t]))
    && RdyInv(k.tasks, k.rdy)
    && WheelInv(k.tasks, k.wheel)
    && PendInv(k.tasks, k.pend)
    && IDLE in k.tasks && k.tasks[IDLE].st == RDY
  }

  // ---------------------------------------------------------------- list operations

  // OS_RdyListInsert: at the tail of the current priority's list, at the head of any other.
  function RdyInsert(rdy: ReadyLists, prioCur: Prio, p: Prio, t: Tid): ReadyLists
  {
    if p == prioCur then rdy[p := rdy[p] + [t]] else rdy[p := [t] + rdy[p]]
  }

  function RdyRemove(rdy: ReadyLists, p: Prio, t: Tid): ReadyLists
  {
    rdy[p := Without(rdy[p], t)]
  }

  // OS_PendListRemove, seen from the lists: the task leaves every one it is on.
  function Unpend(pend: map<Oid, seq<Tid>>, t: Tid): (r: map<Oid, seq<Tid>>)
    ensures r.Keys == pend.Keys
    ensures forall o :: o in pend ==> r[o] == Without(pend[o], t)
  {
    map o | o in pend :: Without(pend[o], t)
  }

  // Where OS_PendListInsertPrio puts an entry: in front of the first strictly less urgent one.
  function PrioPos(tasks: map<Tid, Tcb>, l: seq<Tid>, prio: nat): (p: nat)
    ensures p <= |l|
    ensures forall i :: 0 <= i < p ==> !(l[i] in tasks && prio < tasks[l[i]].prio)
    ensures p < |l| ==> l[p] in tasks && prio < tasks[l[p]].prio
  {
    if l == [] || (l[0] in tasks && prio < tasks[l[0]].prio) then 0 else 1 + PrioPos(tasks, l[1..], prio)
  }

  function InsertPrio(tasks: map<Tid, Tcb>, l: seq<Tid>, t: Tid, prio: nat): seq<Tid> {
    InsertAt(l, PrioPos(tasks, l, prio), t)
  }

  function Enlist(tasks: map<Tid, Tcb>, pend: map<Oid, seq<Tid>>, t: Tid, prio: nat,
      objs: set<Oid>): (r: map<Oid, seq<Tid>>)
    ensures r.Keys == pend.Keys
    ensures forall o :: o in pend ==> r[o] == if o in objs then InsertPrio(tasks, pend[o], t, prio) else pend[o]
  {
    map o | o in pend :: if o in objs then InsertPrio(tasks, pend[o], t, prio) else pend[o]
  }

  // ---------------------------------------------------------------- one structure at a time

  lemma RdyFrame(tasks: map<Tid, Tcb>, rdy: ReadyLists, t: Tid, c: Tcb)
    requires RdyInv(tasks, rdy) && (t in tasks ==> tasks[t].st != RDY) && c.st != RDY
    ensures RdyInv(tasks[t := c], rdy)
  {
  }

  lemma RdyStays(tasks: map<Tid, Tcb>, rdy: ReadyLists, t: Tid, c: Tcb)
    requires RdyInv(tasks, rdy) && t in tasks && tasks[t].st == c.st && tasks[t].prio == c.prio
    ensures RdyInv(tasks[t := c], rdy)
  {
  }

  lemma RdyAfterRemove(tasks: map<Tid, Tcb>, rdy: ReadyLists, t: Tid, c: Tcb)
    requires RdyInv(tasks, rdy) && t in tasks && tasks[t].st == RDY && c.st != RDY
    ensures RdyInv(tasks[t := c], RdyRemove(rdy, tasks[t].prio, t))
  {
    var p := tasks[t].prio;
    WithoutDistinct(rdy[p], t);
  }

  lemma RdyAfterInsert(tasks: map<Tid, Tcb>, rdy: ReadyLists, prioCur: Prio, t: Tid, c: Tcb)
    requires RdyInv(tasks, rdy) && (t in tasks ==> tasks[t].st != RDY) && c.st == RDY
    ensures RdyInv(tasks[t := c], RdyInsert(rdy, prioCur, c.prio, t))
  {
    assert t !in rdy[c.prio];
  }

  lemma WheelFrame(tasks: map<Tid, Tcb>, wheel: TickWheel, t: Tid, c: Tcb)
    requires WheelInv(tasks, wheel) && c.st.dly == (t in tasks && tasks[t].st.dly)
    ensures WheelInv(tasks[t := c], wheel)
  {
    hide Wheel.Valid;
  }

  lemma WheelAfterRemove(tasks: map<Tid, Tcb>, wheel: TickWheel, t: Tid, c: Tcb)
    requires WheelInv(tasks, wheel) && !c.st.dly
    ensures WheelInv(tasks[t := c], Wheel.Remove(wheel, t))
  {
    Wheel.RemoveRefines(wheel, t);
    hide Wheel.Valid;
  }

  lemma WheelAfterInsert(tasks: map<Tid, Tcb>, wheel: TickWheel, t: Tid, c: Tcb, due: Tick)
    requires WheelInv(tasks, wheel) && (t in tasks ==> !tasks[t].st.dly) && c.st.dly && due != wheel.ctr
    ensures WheelInv(tasks[t := c], Wheel.Insert(wheel, t, due))
  {
    Wheel.InsertRefines(wheel, t, due);
    hide Wheel.Valid;
  }

  lemma WheelAfterDelete(tasks: map<Tid, Tcb>, wheel: TickWheel, t: Tid)
    requires WheelInv(tasks, wheel)
    ensures WheelInv(tasks - {t}, Wheel.Remove(wheel, t))
  {
    Wheel.RemoveRefines(wheel, t);
    hide Wheel.Valid;
  }

  lemma {:induction false} WithoutByPrio(tasks: map<Tid, Tcb>, l: seq<Tid>, t: Tid)
    requires ByPrio(tasks, l)
    ensures ByPrio(tasks, Without(l, t))
  {
    if l != [] {
      WithoutByPrio(tasks, l[1..], t);
      var r := Without(l[1..], t);
      forall j | 0 <= j < |r| && l[0] in tasks && r[j] in tasks
        ensures tasks[l[0]].prio <= tasks[r[j]].prio
      {
        assert r[j] in l[1..];
        var i :| 1 <= i < |l| && l[i] == r[j];
      }
    }
  }

  lemma InsertByPrio(tasks: map<Tid, Tcb>, l: seq<Tid>, t: Tid)
    requires ByPrio(tasks, l) && t in tasks && forall x :: x in l ==> x in tasks
    ensures ByPrio(tasks, InsertPrio(tasks, l, t, tasks[t].prio))
  {
    var p := PrioPos(tasks, l, tasks[t].prio);
    var r := InsertAt(l, p, t);
    assert forall i :: 0 <= i < |r| ==> r[i] == if i < p then l[i] else if i == p then t else l[i-1];
    forall i, j | 0 <= i < j < |r|
      ensures tasks[r[i]].prio <= tasks[r[j]].prio
    {
      if i == p && p + 1 < j { assert tasks[l[p]].prio <= tasks[l[j-1]].prio; }
    }
  }

  // Where the position is looked up in the table before or after the new task's own entry
  // changes makes no difference to a list it is not on.
  lemma PosUnaffected(tasks: map<Tid, Tcb>, l: seq<Tid>, t: Tid, c: Tcb, prio: nat)
    requires t !in l
    ensures PrioPos(tasks[t := c], l, prio) == PrioPos(tasks, l, prio)
  {
    var p, p' := PrioPos(tasks, l, prio), PrioPos(tasks[t := c], l, prio);
    assert forall i :: 0 <= i < |l| ==> l[i] != t;
    assert p < |l| ==> p' <= p;
    assert p' < |l| ==> p <= p';
    assert p == p';
  }

  lemma PendFrame(tasks: map<Tid, Tcb>, pend: map<Oid, seq<Tid>>, t: Tid, c: Tcb)
    requires PendInv(tasks, pend)
    requires t in tasks && c.linked == tasks[t].linked
    requires c.linked ==> Objects(c.table) == Objects(tasks[t].table) && c.prio == tasks[t].prio
    ensures PendInv(tasks[t := c], pend)
  {
    forall o | o in pend
      ensures ByPrio(tasks[t := c], pend[o])
    {
      assert ByPrio(tasks, pend[o]);
      assert forall i :: 0 <= i < |pend[o]| ==> Waits(tasks, pend[o][i], o);
      if !c.linked { assert t !in pend[o]; }
    }
    forall o, x | o in pend && x in pend[o]
      ensures Waits(tasks[t := c], x, o)
    {
      assert Waits(tasks, x, o);
    }
  }

  lemma PendAfterUnpend(tasks: map<Tid, Tcb>, pend: map<Oid, seq<Tid>>, t: Tid, c: Tcb)
    requires PendInv(tasks, pend) && !c.linked
    ensures PendInv(tasks[t := c], Unpend(pend, t))
  {
    forall o | o in pend
      ensures Distinct(Unpend(pend, t)[o]) && ByPrio(tasks[t := c], Unpend(pend, t)[o])
    {
      WithoutDistinct(pend[o], t);
      WithoutByPrio(tasks, pend[o], t);
    }
  }

  lemma PendAfterEnlist(tasks: map<Tid, Tcb>, pend: map<Oid, seq<Tid>>, t: Tid, c: Tcb)
    requires PendInv(tasks, pend) && (t in tasks ==> !tasks[t].linked)
    requires c.linked && Objects(c.table) <= pend.Keys
    ensures PendInv(tasks[t := c], Enlist(tasks, pend, t, c.prio, Objects(c.table)))
  {
    var objs := Objects(c.table);
    var tasks', pend' := tasks[t := c], Enlist(tasks, pend, t, c.prio, objs);
    forall o | o in pend
      ensures Distinct(pend'[o]) && ByPrio(tasks', pend'[o])
      ensures forall x | x in pend'[o] :: x in pend[o] || (x == t && o in objs)
      ensures forall x | x in pend[o] :: x in pend'[o]
      ensures o in objs ==> t in pend'[o]
    {
      EnlistOne(tasks, pend, t, c, o);
    }
  }

  lemma EnlistOne(tasks: map<Tid, Tcb>, pend: map<Oid, seq<Tid>>, t: Tid, c: Tcb, o: Oid)
    requires PendInv(tasks, pend) && (t in tasks ==> !tasks[t].linked) && o in pend
    ensures var l := InsertPrio(tasks, pend[o], t, c.prio);
      && Distinct(l) && ByPrio(tasks[t := c], l) && t in l
      && (forall x | x in l :: x in pend[o] || x == t) && (forall x | x in pend[o] :: x in l)
    ensures ByPrio(tasks[t := c], pend[o])
  {
    var l := pend[o];
    assert t !in l;
    assert forall x :: x in l ==> x in tasks;
    var p := PrioPos(tasks, l, c.prio);
    InsertAtMembers(l, p, t);
    InsertAtDistinct(l, p, t);
    PosUnaffected(tasks, l, t, c, c.prio);
    InsertByPrio(tasks[t := c], l, t);
  }
}
