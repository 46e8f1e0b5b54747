// Semaphores, message queues, event flag groups and mutexes on top of the kernel, as values
// (os_sem.c, os_q.c, os_flag.c, os_mutex.c, os_pend_multi.c). The scheduler is a step of its
// own and is left out of these functions.

module ObjectSpec {
  import opened Ticks
  import opened FlagBits
  import opened KernelState
  import opened KernelSteps

  datatype Owner = Nobody | Task(t: Tid)

  // OSMutexPend takes a mutex whose nesting counter is 0 to be free.
  datatype Obj =
    | Sem(ctr: nat)
    | Queue(msgs: seq<Msg>, cap: nat)
    | Flags(bits: bv32)
    | Mutex(owner: Owner, orig: Prio, nest: nat)

  // inbox holds the message queue of every task.
  datatype Sys = Sys(k: K, objs: map<Oid, Obj>, inbox: map<Tid, Inbox>)

  datatype Inbox = Inbox(msgs: seq<Msg>, cap: nat)

  const CTR_MAX := 0xFFFF_FFFF
  const NEST_MAX := 255

  predicate IsSem(s: Sys, o: Oid) { o in s.objs && s.objs[o].Sem? && o in s.k.pend }
  predicate IsQueue(s: Sys, o: Oid) { o in s.objs && s.objs[o].Queue? && o in s.k.pend }
  predicate IsFlags(s: Sys, o: Oid) { o in s.objs && s.objs[o].Flags? && o in s.k.pend }
  predicate IsMutex(s: Sys, o: Oid) { o in s.objs && s.objs[o].Mutex? && o in s.k.pend }

  predicate CanBlock(k: K, block: bool) { block && k.schedLock == 0 }

  // ---------------------------------------------------------------- waking several tasks

  function PostAll(k: K, l: seq<Tid>, o: Oid, msg: Msg): K
    decreases |l|
  {
    if l == [] then k else PostAll(if l[0] in k.tasks then Post(k, l[0], o, msg) else k, l[1..], o, msg)
  }

  function CancelAll(k: K, l: seq<Tid>, o: Oid, status: PendStatus): K
    decreases |l|
  {
    if l == [] then k else CancelAll(if l[0] in k.tasks then Cancel(k, l[0], o, status) else k, l[1..], o, status)
  }

  // Everybody on the list, or only the first in it.
  function Chosen(l: seq<Tid>, all: bool): seq<Tid> {
    if all || l == [] then l else l[..1]
  }

  // OSxxxPendAbort, and the waiting part of OSxxxDel with OS_OPT_DEL_ALWAYS.
  function PendAbortObj(s: Sys, o: Oid, all: bool): Sys
    requires o in s.k.pend
  {
    s.(k := CancelAll(s.k, Chosen(s.k.pend[o], all), o, PendAbort))
  }

  function DelObj(s: Sys, o: Oid, always: bool): Sys
    requires o in s.k.pend
  {
    if s.k.pend[o] != [] && !always then s
    else s.(k := CancelAll(s.k, s.k.pend[o], o, PendDel), objs := s.objs - {o})
  }

  // ---------------------------------------------------------------- semaphores

  function SemPend(s: Sys, o: Oid, block: bool, timeout: Tick): Sys
    requires IsSem(s, o) && s.k.cur in s.k.tasks
  {
    var ctr := s.objs[o].ctr;
    if ctr > 0 then s.(objs := s.objs[o := Sem(ctr - 1)])
    else if CanBlock(s.k, block) then s.(k := Pend(s.k, OnSem, [o], timeout))
    else s
  }

  function SemPost(s: Sys, o: Oid, all: bool): Sys
    requires IsSem(s, o)
  {
    var ctr := s.objs[o].ctr;
    if s.k.pend[o] != [] then s.(k := PostAll(s.k, Chosen(s.k.pend[o], all), o, NULL_MSG))
    else if ctr == CTR_MAX then s
    else s.(objs := s.objs[o := Sem(ctr + 1)])
  }

  function SemSet(s: Sys, o: Oid, cnt: Tick): Sys
    requires IsSem(s, o)
  {
    if s.objs[o].ctr > 0 || s.k.pend[o] == [] then s.(objs := s.objs[o := Sem(cnt)]) else s
  }

  // ---------------------------------------------------------------- message queues

  function QPend(s: Sys, o: Oid, block: bool, timeout: Tick): Sys
    requires IsQueue(s, o) && s.k.cur in s.k.tasks
  {
    var q := s.objs[o];
    if q.msgs != [] then s.(objs := s.objs[o := q.(msgs := q.msgs[1..])])
    else if CanBlock(s.k, block) then s.(k := Pend(s.k, OnQ, [o], timeout))
    else s
  }

  // The queue is full, or there is no OS_MSG left to hold the message.
  predicate Refused(s: Sys, o: Oid, poolEmpty: bool)
    requires IsQueue(s, o)
  {
    s.k.pend[o] == [] && (|s.objs[o].msgs| >= s.objs[o].cap || poolEmpty)
  }

  function QPost(s: Sys, o: Oid, msg: Msg, lifo: bool, all: bool, poolEmpty: bool): Sys
    requires IsQueue(s, o)
  {
    var q := s.objs[o];
    if s.k.pend[o] != [] then s.(k := PostAll(s.k, Chosen(s.k.pend[o], all), o, msg))
    else if Refused(s, o, poolEmpty) then s
    else s.(objs := s.objs[o := q.(msgs := if lifo then [msg] + q.msgs else q.msgs + [msg])])
  }

  function QFlush(s: Sys, o: Oid): Sys
    requires IsQueue(s, o)
  {
    s.(objs := s.objs[o := s.objs[o].(msgs := [])])
  }

  // ---------------------------------------------------------------- several at once

  // OS_PendMultiGetRdy: take what every object has to offer.
  function TakeOne(b: Obj): Obj {
    match b
    case Sem(ctr) => if ctr > 0 then Sem(ctr - 1) else b
    case Queue(msgs, cap) => if msgs != [] then Queue(msgs[1..], cap) else b
    case _ => b
  }

  predicate HasOne(b: Obj) {
    (b.Sem? && b.ctr > 0) || (b.Queue? && b.msgs != [])
  }

  predicate MultiValid(s: Sys, objs: seq<Oid>) {
    objs != [] && forall o :: o in objs ==> o in s.objs && (s.objs[o].Sem? || s.objs[o].Queue?) && o in s.k.pend
  }

  function TakeAll(objs: map<Oid, Obj>, l: seq<Oid>): map<Oid, Obj> {
    map o | o in objs :: if o in l then TakeOne(objs[o]) else objs[o]
  }

  function MultiPend(s: Sys, l: seq<Oid>, block: bool, timeout: Tick): Sys
    requires MultiValid(s, l) && s.k.cur in s.k.tasks
  {
    if exists o :: o in l && HasOne(s.objs[o]) then s.(objs := TakeAll(s.objs, l))
    else if CanBlock(s.k, block) then s.(k := Pend(s.k, OnMulti, l, timeout))
    else s
  }

  // ---------------------------------------------------------------- event flags

  function WithFlags(k: K, flags: bv32, mode: FlagMode): K
    requires k.cur in k.tasks
  {
    k.(tasks := k.tasks[k.cur := k.tasks[k.cur].(flagsPend := flags, flagsMode := mode, flagsRdy := 0)])
  }

  function FlagPend(s: Sys, o: Oid, flags: bv32, mode: FlagMode, consume: bool, block: bool, timeout: Tick): Sys
    requires IsFlags(s, o) && s.k.cur in s.k.tasks
  {
    var bits := s.objs[o].bits;
    var rdy := RdyBits(bits, flags, mode);
    if Satisfied(bits, flags, mode) then
      s.(k := s.k.(tasks := s.k.tasks[s.k.cur := s.k.tasks[s.k.cur].(flagsRdy := rdy)]),
         objs := if consume then s.objs[o := Flags(Consumed(bits, rdy, mode))] else s.objs)
    else if CanBlock(s.k, block) then s.(k := Pend(WithFlags(s.k, flags, mode), OnFlag, [o], timeout))
    else s
  }

  // What the woken task does on its way out of OSFlagPend, some time after it was readied.
  function FlagFinish(s: Sys, o: Oid, mode: FlagMode, consume: bool): Sys
    requires IsFlags(s, o) && s.k.cur in s.k.tasks
  {
    if consume then s.(objs := s.objs[o := Flags(Consumed(s.objs[o].bits, s.k.tasks[s.k.cur].flagsRdy, mode))]) else s
  }

  predicate FlagHit(k: K, t: Tid, bits: bv32) {
    t in k.tasks && Satisfied(bits, k.tasks[t].flagsPend, k.tasks[t].flagsMode)
  }

  // The walk of OS_FlagPost down the list, which shrinks under it.
  function FlagWake(k: K, l: seq<Tid>, bits: bv32): K
    decreases |l|
  {
    if l == [] then k
    else
      var t := l[0];
      FlagWake(
        if FlagHit(k, t, bits) then FlagRdy(k, t, RdyBits(bits, k.tasks[t].flagsPend, k.tasks[t].flagsMode)) else k,
        l[1..], bits)
  }

  function FlagPost(s: Sys, o: Oid, flags: bv32, set_: bool): Sys
    requires IsFlags(s, o)
  {
    var bits := PostedBits(s.objs[o].bits, flags, set_);
    s.(k := FlagWake(s.k, s.k.pend[o], bits), objs := s.objs[o := Flags(bits)])
  }

  // ---------------------------------------------------------------- mutexes

  // A waiter more urgent than the owner lends it its priority.
  function Boost(k: K, owner: Owner, prio: Prio): (r: K)
    ensures r.tasks.Keys == k.tasks.Keys && r.cur == k.cur
  {
    if owner.Task? && owner.t in k.tasks && k.tasks[owner.t].prio > prio then
      Reprio(k, owner.t, prio, AtHead, true)
    else k
  }

  // The owner was deleted while it owned the mutex; its TaskState is OS_TASK_STATE_DEL and its
  // priority OS_PRIO_INIT, and both services return OS_ERR_STATE_INVALID.
  predicate Gone(k: K, owner: Owner) {
    owner.Task? && owner.t !in k.tasks
  }

  function MutexPend(s: Sys, o: Oid, block: bool, timeout: Tick): Sys
    requires IsMutex(s, o) && s.k.cur in s.k.tasks
  {
    var m := s.objs[o];
    var prio := s.k.tasks[s.k.cur].prio;
    if m.nest == 0 then s.(objs := s.objs[o := Mutex(Task(s.k.cur), prio, 1)])
    else if m.owner == Task(s.k.cur) then
      s.(objs := s.objs[o := m.(nest := if m.nest == NEST_MAX then 0 else m.nest + 1)])
    else if CanBlock(s.k, block) && !Gone(s.k, m.owner) then
      s.(k := Pend(Boost(s.k, m.owner, prio), OnMutex, [o], timeout))
    else s
  }

  // The running task goes back to the priority it had when it got the mutex.
  function Unboost(k: K, prio: Prio): K
    requires k.cur in k.tasks
  {
    if k.tasks[k.cur].prio == prio then k else Reprio(k, k.cur, prio, AtTail, true).(prioCur := prio)
  }

  function MutexPost(s: Sys, o: Oid): (r: Sys)
    requires IsMutex(s, o) && s.k.cur in s.k.tasks
    ensures r.k.tasks.Keys == s.k.tasks.Keys
  {
    var m := s.objs[o];
    var l := s.k.pend[o];
    if m.owner != Task(s.k.cur) then s
    else if m.nest != 1 then s.(objs := s.objs[o := m.(nest := if m.nest == 0 then NEST_MAX else m.nest - 1)])
    else if l == [] || l[0] !in s.k.tasks then s.(objs := s.objs[o := m.(owner := Nobody, nest := 0)])
    else
      var k := Unboost(s.k, m.orig);
      s.(k := Post(k, l[0], o, NULL_MSG), objs := s.objs[o := Mutex(Task(l[0]), k.tasks[l[0]].prio, 1)])
  }

  // OSMutexDel with OS_OPT_DEL_ALWAYS gives the owner its priority back first.
  function MutexDel(s: Sys, o: Oid, always: bool): Sys
    requires IsMutex(s, o)
  {
    var m := s.objs[o];
    if always && Gone(s.k, m.owner) then s
    else if always && m.owner.Task? && s.k.tasks[m.owner.t].prio != m.orig then
      DelObj(s.(k := Reprio(s.k, m.owner.t, m.orig, AtTail, true)), o, always)
    else DelObj(s, o, always)
  }

  // ---------------------------------------------------------------- messages and signals to a task

  function TaskQPend(s: Sys, block: bool, timeout: Tick): Sys
    requires s.k.cur in s.k.tasks && s.k.cur in s.inbox
  {
    var q := s.inbox[s.k.cur];
    if q.msgs != [] then s.(inbox := s.inbox[s.k.cur := q.(msgs := q.msgs[1..])])
    else if CanBlock(s.k, block) then s.(k := Pend(s.k, OnTaskQ, [], timeout))
    else s
  }

  function TaskQPost(s: Sys, t: Tid, msg: Msg, lifo: bool, poolEmpty: bool): Sys
    requires t in s.k.tasks && t in s.inbox
  {
    var q := s.inbox[t];
    if s.k.tasks[t].pendOn == OnTaskQ then s.(k := Post(s.k, t, 0, msg))
    else if |q.msgs| >= q.cap || poolEmpty then s
    else s.(inbox := s.inbox[t := q.(msgs := if lifo then [msg] + q.msgs else q.msgs + [msg])])
  }

  // There is no signal counter: a signal to a task that does not wait for one is lost.
  function TaskSemPost(s: Sys, t: Tid): Sys
    requires t in s.k.tasks
  {
    if s.k.tasks[t].pendOn == OnTaskSem then s.(k := Post(s.k, t, 0, NULL_MSG)) else s
  }
}
