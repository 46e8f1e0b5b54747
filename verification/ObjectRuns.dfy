// Mutexes, the services of the kernel and the messages to tasks keep the invariant too; and
// so does every run of all of them.

module ObjectRuns {
  import opened Ticks
  import opened Lists
  import opened Tasks
  import opened FlagBits
  import opened KernelState
  import opened KernelSteps
  import opened KernelReleases
  import opened ObjectSpec
  import opened ObjectInv
  import opened ObjectSteps
  import KernelRuns
  import Wheel = TickWheelSpec

  // ---------------------------------------------------------------- changed priorities

  lemma ResortMembers(tasks: map<Tid, Tcb>, pend: map<Oid, seq<Tid>>, t: Tid, prio: nat, objs: set<Oid>, o: Oid)
    requires o in pend && (o in objs ==> t in pend[o])
    ensures forall x :: x in Enlist(tasks, Unpend(pend, t), t, prio, objs)[o] ==> x in pend[o]
  {
    var l := Without(pend[o], t);
    InsertAtMembers(l, PrioPos(tasks, l, prio), t);
  }

  lemma ListedIfObject(k: K, t: Tid, o: Oid)
    requires PendInv(k.tasks, k.pend) && t in k.tasks && k.tasks[t].linked && o in k.pend
    ensures o in Objects(k.tasks[t].table) ==> t in k.pend[o]
  {
  }

  lemma ResortShrinks(k: K, k': K, t: Tid, prio: Prio)
    requires PendInv(k.tasks, k.pend) && t in k.tasks && k.tasks[t].linked
    requires k'.tasks == k.tasks[t := k.tasks[t].(prio := prio)]
    requires k'.pend == Enlist(k'.tasks, Unpend(k.pend, t), t, prio, Objects(k.tasks[t].table))
    ensures Shrinks(k, k')
  {
    hide PendInv, Enlist, Unpend, Objects;
    var objs := Objects(k.tasks[t].table);
    forall o, x | o in k.pend && x in k'.pend[o]
      ensures StillWaits(k, k', o, x)
    {
      ListedIfObject(k, t, o);
      ResortMembers(k'.tasks, k.pend, t, prio, objs, o);
    }
  }

  lemma ReprioShrinks(k: K, t: Tid, prio: Prio, place: Place, resort: bool)
    requires PendInv(k.tasks, k.pend) && t in k.tasks
    ensures Shrinks(k, Reprio(k, t, prio, place, resort))
  {
    hide PendInv, Enlist, Unpend, RdyPut, RdyRemove, Shrinks;
    var k' := Reprio(k, t, prio, place, resort);
    if k.tasks[t].linked && resort && k.tasks[t].st != RDY {
      ResortShrinks(k, k', t, prio);
    } else {
      Unmoved(k, k');
    }
  }

  lemma Reprioritised(s: Sys, t: Tid, prio: Prio, place: Place)
    requires SysInv(s) && t in s.k.tasks
    ensures SysInv(s.(k := Reprio(s.k, t, prio, place, true)))
  {
    hide SysInv, Inv, PendInv, Reprio, Shrinks;
    SysParts(s);
    ReprioKeeps(s.k, t, prio, place, true);
    ReprioShrinks(s.k, t, prio, place, true);
    ShrunkSys(s, Reprio(s.k, t, prio, place, true));
  }

  // ---------------------------------------------------------------- mutexes

  lemma BoostKeeps(s: Sys, owner: Owner, prio: Prio)
    requires SysInv(s)
    ensures SysInv(s.(k := Boost(s.k, owner, prio)))
  {
    hide SysInv, Reprio;
    if owner.Task? && owner.t in s.k.tasks && s.k.tasks[owner.t].prio > prio {
      Reprioritised(s, owner.t, prio, AtHead);
    }
  }

  lemma BoostedRuns(k: K, owner: Owner, prio: Prio, o: Oid)
    requires Runs(k) && owner != Task(k.cur) && o in k.pend
    ensures var k' := Boost(k, owner, prio); Runs(k') && PendArgs(k', OnMutex, [o])
  {
  }

  // The owner's nesting counter has room for 254 more calls after the first; the next one
  // makes the mutex look free while somebody owns it.
  lemma MutexPendKeeps(s: Sys, o: Oid, block: bool, timeout: Tick)
    requires SysInv(s) && IsMutex(s, o) && Caller(s, block)
    ensures SysInv(MutexPend(s, o, block, timeout)) <==>
      !(s.objs[o].owner == Task(s.k.cur) && s.objs[o].nest == NEST_MAX)
  {
    var m := s.objs[o];
    assert ObjOk(s.k, o, m);
    if m.owner == Task(s.k.cur) && m.nest == NEST_MAX {
      var s' := MutexPend(s, o, block, timeout);
      assert !ObjOk(s'.k, o, s'.objs[o]);
    } else {
      MutexPendSound(s, o, block, timeout);
    }
  }

  lemma MutexPendSound(s: Sys, o: Oid, block: bool, timeout: Tick)
    requires SysInv(s) && IsMutex(s, o) && Caller(s, block)
    requires !(s.objs[o].owner == Task(s.k.cur) && s.objs[o].nest == NEST_MAX)
    ensures SysInv(MutexPend(s, o, block, timeout))
  {
    hide SysInv, Inv, Boost, Pend;
    var m := s.objs[o];
    SysObject(s, o);
    if m.nest == 0 {
      NewContents(s, o, Mutex(Task(s.k.cur), s.k.tasks[s.k.cur].prio, 1));
    } else if m.owner == Task(s.k.cur) {
      NewContents(s, o, m.(nest := m.nest + 1));
    } else if CanBlock(s.k, block) {
      MutexBlocks(s, o, timeout);
    }
  }

  lemma MutexBlocks(s: Sys, o: Oid, timeout: Tick)
    requires SysInv(s) && IsMutex(s, o) && Runs(s.k) && s.objs[o].nest > 0 && s.objs[o].owner != Task(s.k.cur)
    ensures SysInv(s.(k := Pend(Boost(s.k, s.objs[o].owner, s.k.tasks[s.k.cur].prio), OnMutex, [o], timeout)))
  {
    hide SysInv, Boost, Pend, PendArgs;
    var owner, prio := s.objs[o].owner, s.k.tasks[s.k.cur].prio;
    BoostedRuns(s.k, owner, prio, o);
    BoostKeeps(s, owner, prio);
    PendSys(s.(k := Boost(s.k, owner, prio)), OnMutex, [o], timeout);
  }

  lemma CurrentPrio(s: Sys, prioCur: Prio)
    requires SysInv(s)
    ensures SysInv(s.(k := s.k.(prioCur := prioCur)))
  {
    hide RdyInv, WheelInv, PendInv;
  }

  lemma UnboostKeeps(s: Sys, prio: Prio)
    requires SysInv(s) && s.k.cur in s.k.tasks
    ensures SysInv(s.(k := Unboost(s.k, prio)))
  {
    hide SysInv, Reprio;
    if s.k.tasks[s.k.cur].prio != prio {
      Reprioritised(s, s.k.cur, prio, AtTail);
      CurrentPrio(s.(k := Reprio(s.k, s.k.cur, prio, AtTail, true)), prio);
    }
  }

  lemma PostShrinks(k: K, t: Tid, o: Oid, msg: Msg)
    requires Inv(k) && t in k.tasks
    ensures Shrinks(k, Post(k, t, o, msg))
  {
    hide RdyInv, WheelInv;
    if k.tasks[t].st.pend {
      ReleaseOne(k, t, PostedBy(o, msg));
      ReleasedShrinks(k, Post(k, t, o, msg), {t}, PostedBy(o, msg));
    }
  }

  lemma PostSys(s: Sys, t: Tid, o: Oid, msg: Msg)
    requires SysInv(s) && t in s.k.tasks
    ensures SysInv(s.(k := Post(s.k, t, o, msg)))
  {
    hide SysInv, Inv, Post, Shrinks;
    SysParts(s);
    PostKeeps(s.k, t, o, msg);
    PostShrinks(s.k, t, o, msg);
    ShrunkSys(s, Post(s.k, t, o, msg));
  }

  lemma UnboostTasks(k: K, prio: Prio)
    requires k.cur in k.tasks
    ensures Unboost(k, prio).tasks.Keys == k.tasks.Keys && Unboost(k, prio).pend.Keys == k.pend.Keys
  {
  }

  lemma MutexPostKeeps(s: Sys, o: Oid)
    requires SysInv(s) && IsMutex(s, o) && s.k.cur in s.k.tasks
    ensures SysInv(MutexPost(s, o))
  {
    hide SysInv, Inv, Unboost, Post;
    var m := s.objs[o];
    var l := s.k.pend[o];
    SysObject(s, o);
    UnboostTasks(s.k, m.orig);
    if m.owner == Task(s.k.cur) {
      if m.nest != 1 {
        NewContents(s, o, m.(nest := m.nest - 1));
      } else if l == [] || l[0] !in s.k.tasks {
        WaitersExist(s, o);
        NewContents(s, o, m.(owner := Nobody, nest := 0));
      } else {
        UnboostKeeps(s, m.orig);
        HandOver(s.(k := Unboost(s.k, m.orig)), o, l[0]);
      }
    }
  }

  lemma HandOver(s: Sys, o: Oid, t: Tid)
    requires SysInv(s) && IsMutex(s, o) && t in s.k.tasks
    ensures SysInv(s.(k := Post(s.k, t, o, NULL_MSG), objs := s.objs[o := Mutex(Task(t), s.k.tasks[t].prio, 1)]))
  {
    hide SysInv, Post;
    PostSys(s, t, o, NULL_MSG);
    PostPend(s.k, t, o, NULL_MSG);
    NewContents(s.(k := Post(s.k, t, o, NULL_MSG)), o, Mutex(Task(t), s.k.tasks[t].prio, 1));
  }

  lemma PostPend(k: K, t: Tid, o: Oid, msg: Msg)
    requires t in k.tasks
    ensures Post(k, t, o, msg).pend.Keys == k.pend.Keys
  {
  }

  lemma WaitersExist(s: Sys, o: Oid)
    requires SysInv(s) && o in s.k.pend
    ensures forall t :: t in s.k.pend[o] ==> t in s.k.tasks
  {
    forall t | t in s.k.pend[o]
      ensures t in s.k.tasks
    {
      assert Waits(s.k.tasks, t, o);
    }
  }

  lemma MutexDelKeeps(s: Sys, o: Oid, always: bool)
    requires SysInv(s) && IsMutex(s, o)
    ensures SysInv(MutexDel(s, o, always))
  {
    var m := s.objs[o];
    if always && m.owner.Task? && m.owner.t in s.k.tasks && s.k.tasks[m.owner.t].prio != m.orig {
      var k' := Reprio(s.k, m.owner.t, m.orig, AtTail, true);
      assert o in k'.pend;
      hide SysInv, Reprio, DelObj;
      Reprioritised(s, m.owner.t, m.orig, AtTail);
      DelKeeps(s.(k := k'), o, always);
    } else {
      hide SysInv, DelObj;
      DelKeeps(s, o, always);
    }
  }

  // ---------------------------------------------------------------- messages to a task

  lemma NewMail(s: Sys, t: Tid, q: Inbox)
    requires SysInv(s) && t in s.inbox && |q.msgs| <= q.cap && (s.k.tasks[t].pendOn == OnTaskQ ==> q.msgs == [])
    ensures SysInv(s.(inbox := s.inbox[t := q]))
  {
    hide Inv, ObjOk;
  }

  lemma TaskQPendKeeps(s: Sys, block: bool, timeout: Tick)
    requires SysInv(s) && s.k.cur in s.k.tasks && s.k.tasks[s.k.cur].st == RDY && Caller(s, block)
    ensures s.k.cur in s.inbox && SysInv(TaskQPend(s, block, timeout))
  {
    assert TcbOk(s.k.tasks[s.k.cur]);
    var q := s.inbox[s.k.cur];
    assert |q.msgs| <= q.cap;
    hide SysInv, Pend;
    if q.msgs != [] {
      NewMail(s, s.k.cur, q.(msgs := q.msgs[1..]));
    } else if CanBlock(s.k, block) {
      PendSys(s, OnTaskQ, [], timeout);
    }
  }

  lemma TaskQPostKeeps(s: Sys, t: Tid, msg: Msg, lifo: bool, poolEmpty: bool)
    requires SysInv(s) && t in s.k.tasks
    ensures t in s.inbox && SysInv(TaskQPost(s, t, msg, lifo, poolEmpty))
  {
    var q := s.inbox[t];
    hide Inv, ObjOk, Post;
    if s.k.tasks[t].pendOn == OnTaskQ {
      PostSys(s, t, 0, msg);
    } else if !(|q.msgs| >= q.cap || poolEmpty) {
      NewMail(s, t, q.(msgs := if lifo then [msg] + q.msgs else q.msgs + [msg]));
    }
  }

  lemma TaskSemPostKeeps(s: Sys, t: Tid)
    requires SysInv(s) && t in s.k.tasks
    ensures SysInv(TaskSemPost(s, t))
  {
    hide SysInv, Post;
    if s.k.tasks[t].pendOn == OnTaskSem {
      PostSys(s, t, 0, NULL_MSG);
    }
  }

  // ---------------------------------------------------------------- the kernel's own services

  // Services that neither start a wait on an object nor create or delete a task.
  predicate Quiet(op: KernelRuns.Op) {
    match op
    case OpPend(on, _, _) => on == OnTaskSem
    case OpCreate(_, _) => false
    case OpDelete(_) => false
    case _ => true
  }

  lemma Unmoved(k: K, k': K)
    requires k'.pend == k.pend && k'.tasks.Keys == k.tasks.Keys
    requires forall t :: t in k.tasks ==> SameWait(k.tasks[t], k'.tasks[t])
    ensures Shrinks(k, k')
  {
  }

  lemma ReleaseShrinks(k: K, t: Tid, c: Tcb)
    requires PendInv(k.tasks, k.pend) && t in k.tasks && (c.pendOn == OnTaskQ ==> k.tasks[t].pendOn == OnTaskQ)
    ensures Shrinks(k, Release(k, t, c))
  {
    var f: Tcb -> Tcb := x => c;
    ReleasedPend(k, t, c);
    hide PendInv, Without;
    forall o | o in k.pend
      ensures Without(k.pend[o], t) == Except(k.pend[o], {t})
    {
      ExceptOne(k.pend[o], t);
    }
  }

  lemma FlagRdyShrinks(k: K, t: Tid, rdy: bv32)
    requires PendInv(k.tasks, k.pend) && t in k.tasks
    ensures Shrinks(k, FlagRdy(k, t, rdy))
  {
    var c := k.tasks[t].(flagsRdy := rdy);
    ReleaseShrinks(k, t, Freed(c, PendOk));
    hide Wheel.Remove;
  }

  lemma SignalWaitShrinks(k: K, timeout: Tick)
    requires PendInv(k.tasks, k.pend) && k.cur in k.tasks && !k.tasks[k.cur].linked
    ensures Shrinks(k, Pend(k, OnTaskSem, [], timeout))
  {
    NotLinked(k.tasks, k.pend, k.cur);
    hide PendInv, Wheel.Insert;
    forall o | o in k.pend
      ensures Pend(k, OnTaskSem, [], timeout).pend[o] == k.pend[o]
    {
      BlockedLists(k, OnTaskSem, [], timeout, o);
    }
  }

  lemma TickShrinks(k: K)
    requires Inv(k)
    ensures Shrinks(k, KernelRuns.Tick(k))
  {
    KernelRuns.TickKeeps(k);
    hide Inv, Released, Shrinks, Wheel.Sleepers, Wheel.Due, KernelRuns.Tick;
    ReleasedShrinks(k, KernelRuns.Tick(k), Wheel.Due(Wheel.Sleepers(k.wheel)), Expired);
  }

  lemma CancelShrinks(k: K, t: Tid, o: Oid, status: PendStatus)
    requires PendInv(k.tasks, k.pend) && t in k.tasks
    ensures Shrinks(k, Cancel(k, t, o, status))
  {
    hide PendInv, Shrinks, Release;
    ReleaseShrinks(k, t, Cancelled(k.tasks[t], o, status));
    Unmoved(k, k);
  }

  lemma DlyResumeShrinks(k: K, t: Tid)
    requires PendInv(k.tasks, k.pend) && t in k.tasks
    ensures Shrinks(k, DlyResume(k, t))
  {
    hide PendInv, Shrinks, Release;
    ReleaseShrinks(k, t, k.tasks[t].(st := RDY));
    ReleaseShrinks(k, t, k.tasks[t].(st := SUSPENDED));
    Unmoved(k, k);
  }

  lemma ChangePrioShrinks(k: K, t: Tid, prio: nat, self: bool)
    requires PendInv(k.tasks, k.pend) && t in k.tasks
    ensures Shrinks(k, ChangePrio(k, t, prio, self))
  {
    hide PendInv, Shrinks, Reprio;
    if prio < PRIO_MAX - 1 {
      ReprioShrinks(k, t, prio, if self then AtHead else AtTail, k.tasks[t].pendOn != OnFlag);
    }
    Unmoved(k, k);
  }

  predicate Unmoving(op: KernelRuns.Op) {
    op.OpDly? || op.OpSuspend? || op.OpRotate? || op.OpLock? || op.OpUnlock? || op.OpSched?
  }

  lemma UnmovingShrinks(k: K, op: KernelRuns.Op)
    requires KernelRuns.Allowed(k, op) && Unmoving(op)
    ensures Shrinks(k, KernelRuns.Step(k, op))
  {
    hide Shrinks, Wheel.Insert, RdyRemove;
    Unmoved(k, KernelRuns.Step(k, op));
  }

  lemma TaskSemPendShrinks(k: K, op: KernelRuns.Op)
    requires Inv(k) && KernelRuns.Allowed(k, op) && op.OpPend? && op.on == OnTaskSem
    ensures Shrinks(k, KernelRuns.Step(k, op))
  {
    assert TcbOk(k.tasks[k.cur]) && op.objs == [];
    hide RdyInv, WheelInv, PendInv, Pend, Shrinks;
    SignalWaitShrinks(k, op.timeout);
  }

  lemma QuietShrinks(k: K, op: KernelRuns.Op)
    requires Inv(k) && KernelRuns.Allowed(k, op) && Quiet(op)
    ensures Shrinks(k, KernelRuns.Step(k, op))
  {
    hide RdyInv, WheelInv, PendInv, TcbOk, Shrinks, Pend, Post, Cancel, FlagRdy, DlyResume, Resume, ChangePrio,
         KernelRuns.Tick, Suspend, TimeDly, KernelRuns.Sched;
    match op
    case OpPend(_, _, _) => TaskSemPendShrinks(k, op);
    case OpPost(t, o, msg) => PostShrinks(k, t, o, msg);
    case OpCancel(t, o, status) => CancelShrinks(k, t, o, status);
    case OpFlagRdy(t, rdy) => FlagRdyShrinks(k, t, rdy);
    case OpDlyResume(t) => DlyResumeShrinks(k, t);
    case OpResume(t) => ResumeShrinks(k, t);
    case OpChangePrio(t, prio, self) => ChangePrioShrinks(k, t, prio, self);
    case OpTick => TickShrinks(k);
    case _ => UnmovingShrinks(k, op);
  }

  lemma ResumeShrinks(k: K, t: Tid)
    requires PendInv(k.tasks, k.pend) && t in k.tasks
    ensures Shrinks(k, Resume(k, t))
  {
    hide PendInv, Release, Shrinks;
    var c := k.tasks[t];
    if t == k.cur || !c.st.susp || c.suspendCtr != 1 || c.st != SUSPENDED {
      var k' := Resume(k, t);
      if !(c.st == SUSPENDED && k'.tasks[t].suspendCtr == 0) || t == k.cur { Unmoved(k, k'); }
    } else {
      ReleaseShrinks(k, t, c.(suspendCtr := 0, st := RDY));
    }
  }

  lemma QuietKeeps(s: Sys, op: KernelRuns.Op)
    requires SysInv(s) && KernelRuns.Allowed(s.k, op) && Quiet(op)
    ensures SysInv(s.(k := KernelRuns.Step(s.k, op))) <==> !KernelRuns.Broken(s.k, op)
  {
    hide SysInv, Inv, Shrinks, KernelRuns.Step, KernelRuns.Broken, KernelRuns.Allowed, Quiet;
    SysParts(s);
    KernelRuns.StepKeeps(s.k, op);
    QuietShrinks(s.k, op);
    if !KernelRuns.Broken(s.k, op) {
      ShrunkSys(s, KernelRuns.Step(s.k, op));
    } else if SysInv(s.(k := KernelRuns.Step(s.k, op))) {
      SysParts(s.(k := KernelRuns.Step(s.k, op)));
    }
  }

  // ---------------------------------------------------------------- creating and deleting tasks

  function CreateTask(s: Sys, t: Tid, prio: Prio, cap: nat): Sys {
    s.(k := Create(s.k, t, prio), inbox := s.inbox[t := Inbox([], cap)])
  }

  function DeleteTask(s: Sys, t: Tid): Sys
    requires t in s.k.tasks
  {
    if t == IDLE then s else s.(k := Delete(s.k, t), inbox := s.inbox - {t})
  }

  lemma CreateTaskKeeps(s: Sys, t: Tid, prio: Prio, cap: nat)
    requires SysInv(s) && t !in s.k.tasks
    ensures SysInv(CreateTask(s, t, prio, cap))
  {
    NotLinked(s.k.tasks, s.k.pend, t);
    assert Inv(s.k);
    hide *;
    CreateKeeps(s.k, t, prio);
    CreatedParts(s, t, prio, cap);
    Assemble(CreateTask(s, t, prio, cap));
  }

  lemma CreatedParts(s: Sys, t: Tid, prio: Prio, cap: nat)
    requires SysInv(s) && t !in s.k.tasks && forall o :: o in s.k.pend ==> t !in s.k.pend[o]
    ensures var s' := CreateTask(s, t, prio, cap);
      && s'.k == Create(s.k, t, prio) && InboxOk(s'.k, s'.inbox)
      && (forall o :: o in s'.objs ==> ObjOk(s'.k, o, s'.objs[o]))
      && (forall o :: o in s'.k.pend && o !in s'.objs ==> s'.k.pend[o] == [])
  {
    hide Inv;
    forall o | o in s.objs
      ensures ObjOk(Create(s.k, t, prio), o, s.objs[o])
    {
      assert ObjOk(s.k, o, s.objs[o]);
    }
    hide ObjOk;
  }

  lemma DeletedObj(k: K, t: Tid, o: Oid, b: Obj)
    requires PendInv(k.tasks, k.pend) && t in k.tasks && ObjOk(k, o, b)
    ensures ObjOk(Delete(k, t), o, b)
  {
    if !k.tasks[t].linked { NotLinked(k.tasks, k.pend, t); }
    hide PendInv;
    var l := k.pend[o];
    assert Delete(k, t).pend[o] == l || Delete(k, t).pend[o] == Without(l, t);
  }

  lemma DeleteTaskKeeps(s: Sys, t: Tid)
    requires SysInv(s) && t in s.k.tasks
    ensures SysInv(DeleteTask(s, t))
  {
    if t == IDLE {
      assert DeleteTask(s, t) == s;
    } else {
      assert Inv(s.k) && PendInv(s.k.tasks, s.k.pend);
      hide *;
      DeleteKeeps(s.k, t);
      DeletedParts(s, t);
      Assemble(DeleteTask(s, t));
    }
  }

  lemma DeletedParts(s: Sys, t: Tid)
    requires SysInv(s) && t in s.k.tasks && t != IDLE
    ensures var s' := DeleteTask(s, t);
      && s'.k == Delete(s.k, t) && InboxOk(s'.k, s'.inbox)
      && (forall o :: o in s'.objs ==> ObjOk(s'.k, o, s'.objs[o]))
      && (forall o :: o in s'.k.pend && o !in s'.objs ==> s'.k.pend[o] == [])
  {
    hide Inv, PendInv, ObjOk;
    SysParts(s);
    forall o | o in s.objs
      ensures ObjOk(Delete(s.k, t), o, s.objs[o])
    {
      DeletedObj(s.k, t, o, s.objs[o]);
    }
  }

  // ---------------------------------------------------------------- creating objects

  // What OSSemCreate, OSQCreate, OSFlagCreate and OSMutexCreate start with.
  predicate Newborn(b: Obj) {
    match b
    case Sem(ctr) => ctr <= CTR_MAX
    case Queue(msgs, _) => msgs == []
    case Flags(_) => true
    case Mutex(owner, _, nest) => owner == Nobody && nest == 0
  }

  function CreateObj(s: Sys, o: Oid, b: Obj): Sys {
    s.(k := s.k.(pend := s.k.pend[o := []]), objs := s.objs[o := b])
  }

  lemma NewList(k: K, o: Oid)
    requires Inv(k) && (o in k.pend ==> k.pend[o] == [])
    ensures Inv(k.(pend := k.pend[o := []]))
  {
    hide RdyInv, WheelInv;
    var pend' := k.pend[o := []];
    if o in k.pend {
      assert pend' == k.pend;
    }
    forall q, x | q in pend' && x in pend'[q]
      ensures Waits(k.tasks, x, q)
    {
      assert q in k.pend && x in k.pend[q];
    }
  }

  lemma CreateObjKeeps(s: Sys, o: Oid, b: Obj)
    requires SysInv(s) && o !in s.objs && Newborn(b)
    ensures SysInv(CreateObj(s, o, b))
  {
    NewList(s.k, o);
    CreatedObjects(s, o, b);
    hide *;
    Assemble(CreateObj(s, o, b));
  }

  lemma CreatedObjects(s: Sys, o: Oid, b: Obj)
    requires SysInv(s) && o !in s.objs && Newborn(b)
    ensures var s' := CreateObj(s, o, b);
      && s'.k == s.k.(pend := s.k.pend[o := []]) && InboxOk(s'.k, s'.inbox)
      && (forall q :: q in s'.objs ==> ObjOk(s'.k, q, s'.objs[q]))
      && (forall q :: q in s'.k.pend && q !in s'.objs ==> s'.k.pend[q] == [])
  {
    hide Inv;
    forall q | q in s.objs
      ensures ObjOk(CreateObj(s, o, b).k, q, s.objs[q])
    {
      assert ObjOk(s.k, q, s.objs[q]);
    }
  }

  // A kernel with an idle task and nothing else.
  function Initial(spokes: nat): Sys
    requires spokes > 0
  {
    Sys(KernelRuns.Initial(spokes), map[], map[IDLE := Inbox([], 0)])
  }

  lemma InitialKeeps(spokes: nat)
    requires spokes > 0
    ensures SysInv(Initial(spokes))
  {
  }

  // ---------------------------------------------------------------- runs

  datatype Op =
    | OpCreateObj(o: Oid, b: Obj)
    | OpSemPend(o: Oid, block: bool, timeout: Tick)
    | OpSemPost(o: Oid, all: bool)
    | OpSemSet(o: Oid, cnt: Tick)
    | OpQPend(o: Oid, block: bool, timeout: Tick)
    | OpQPost(o: Oid, msg: Msg, lifo: bool, all: bool, poolEmpty: bool)
    | OpQFlush(o: Oid)
    | OpMultiPend(l: seq<Oid>, block: bool, timeout: Tick)
    | OpFlagPend(o: Oid, flags: bv32, mode: FlagMode, consume: bool, block: bool, timeout: Tick)
    | OpFlagFinish(o: Oid, mode: FlagMode, consume: bool)
    | OpFlagPost(o: Oid, flags: bv32, set_: bool)
    | OpMutexPend(o: Oid, block: bool, timeout: Tick)
    | OpMutexPost(o: Oid)
    | OpAbort(o: Oid, all: bool)
    | OpDel(o: Oid, always: bool)
    | OpMutexDel(o: Oid, always: bool)
    | OpTaskQPend(block: bool, timeout: Tick)
    | OpTaskQPost(t: Tid, msg: Msg, lifo: bool, poolEmpty: bool)
    | OpTaskSemPost(t: Tid)
    | OpCreateTask(t: Tid, prio: Prio, cap: nat)
    | OpDeleteTask(t: Tid)
    | OpKernel(op: KernelRuns.Op)

  // The objects and tasks named exist and are of the right kind; a call that may block is
  // made by the running task.
  ghost predicate Allowed(s: Sys, op: Op) {
    match op
    case OpCreateObj(o, b) => o !in s.objs && Newborn(b)
    case OpSemPend(o, block, _) => IsSem(s, o) && Caller(s, block)
    case OpSemPost(o, _) => IsSem(s, o)
    case OpSemSet(o, _) => IsSem(s, o)
    case OpQPend(o, block, _) => IsQueue(s, o) && Caller(s, block)
    case OpQPost(o, _, _, _, _) => IsQueue(s, o)
    case OpQFlush(o) => IsQueue(s, o)
    case OpMultiPend(l, block, _) => MultiValid(s, l) && Distinct(l) && Caller(s, block)
    case OpFlagPend(o, _, _, _, block, _) => IsFlags(s, o) && Caller(s, block) && s.k.tasks[s.k.cur].st == RDY
    case OpFlagFinish(o, _, _) => IsFlags(s, o) && s.k.cur in s.k.tasks
    case OpFlagPost(o, _, _) => IsFlags(s, o)
    case OpMutexPend(o, block, _) => IsMutex(s, o) && Caller(s, block)
    case OpMutexPost(o) => IsMutex(s, o) && s.k.cur in s.k.tasks
    case OpAbort(o, _) => o in s.k.pend
    case OpDel(o, _) => o in s.k.pend && !(o in s.objs && s.objs[o].Mutex?)
    case OpMutexDel(o, _) => IsMutex(s, o)
    case OpTaskQPend(block, _) =>
      s.k.cur in s.k.tasks && s.k.tasks[s.k.cur].st == RDY && Caller(s, block) && s.k.cur in s.inbox
    case OpTaskQPost(t, _, _, _) => t in s.k.tasks && t in s.inbox
    case OpTaskSemPost(t) => t in s.k.tasks
    case OpCreateTask(t, _, _) => t !in s.k.tasks
    case OpDeleteTask(t) => t in s.k.tasks
    case OpKernel(op) => KernelRuns.Allowed(s.k, op) && Quiet(op)
  }

  function Step(s: Sys, op: Op): Sys
    requires Allowed(s, op)
  {
    match op
    case OpCreateObj(o, b) => CreateObj(s, o, b)
    case OpSemPend(o, block, timeout) => SemPend(s, o, block, timeout)
    case OpSemPost(o, all) => SemPost(s, o, all)
    case OpSemSet(o, cnt) => SemSet(s, o, cnt)
    case OpQPend(o, block, timeout) => QPend(s, o, block, timeout)
    case OpQPost(o, msg, lifo, all, poolEmpty) => QPost(s, o, msg, lifo, all, poolEmpty)
    case OpQFlush(o) => QFlush(s, o)
    case OpMultiPend(l, block, timeout) => MultiPend(s, l, block, timeout)
    case OpFlagPend(o, flags, mode, consume, block, timeout) => FlagPend(s, o, flags, mode, consume, block, timeout)
    case OpFlagFinish(o, mode, consume) => FlagFinish(s, o, mode, consume)
    case OpFlagPost(o, flags, set_) => FlagPost(s, o, flags, set_)
    case OpMutexPend(o, block, timeout) => MutexPend(s, o, block, timeout)
    case OpMutexPost(o) => MutexPost(s, o)
    case OpAbort(o, all) => PendAbortObj(s, o, all)
    case OpDel(o, always) => DelObj(s, o, always)
    case OpMutexDel(o, always) => MutexDel(s, o, always)
    case OpTaskQPend(block, timeout) => TaskQPend(s, block, timeout)
    case OpTaskQPost(t, msg, lifo, poolEmpty) => TaskQPost(s, t, msg, lifo, poolEmpty)
    case OpTaskSemPost(t) => TaskSemPost(s, t)
    case OpCreateTask(t, prio, cap) => CreateTask(s, t, prio, cap)
    case OpDeleteTask(t) => DeleteTask(s, t)
    case OpKernel(op) => s.(k := KernelRuns.Step(s.k, op))
  }

  // The calls that leave the kernel or a flag group inconsistent.
  predicate Broken(s: Sys, op: Op) {
    match op
    case OpFlagPend(o, flags, mode, consume, _, _) => IsFlags(s, o) && FlagPendMisses(s, o, flags, mode, consume)
    case OpFlagFinish(o, mode, consume) =>
      IsFlags(s, o) && s.k.cur in s.k.tasks && FlagFinishMisses(s, o, mode, consume)
    case OpFlagPost(o, flags, set_) =>
      IsFlags(s, o) && !NoneMishandled(s.k, s.k.pend[o], FlagPost(s, o, flags, set_).objs[o].bits)
    case OpMutexPend(o, _, _) => IsMutex(s, o) && s.objs[o].owner == Task(s.k.cur) && s.objs[o].nest == NEST_MAX
    case OpKernel(op) => KernelRuns.Broken(s.k, op)
    case _ => false
  }

  // The calls that can break it at all.
  predicate Fragile(op: Op) {
    op.OpFlagPend? || op.OpFlagFinish? || op.OpFlagPost? || op.OpMutexPend? || op.OpKernel?
  }

  // Every call keeps the invariant but for those, which never do.
  lemma StepKeeps(s: Sys, op: Op)
    requires SysInv(s) && Allowed(s, op)
    ensures SysInv(Step(s, op)) <==> !Broken(s, op)
  {
    hide SysInv, Allowed, Step, NoneMishandled, FlagPendMisses, FlagFinishMisses, FlagPost, KernelRuns.Broken;
    if Fragile(op) { FragileKeeps(s, op); } else { RobustKeeps(s, op); }
  }

  lemma FragileKeeps(s: Sys, op: Op)
    requires SysInv(s) && Allowed(s, op) && Fragile(op)
    ensures SysInv(Step(s, op)) <==> !Broken(s, op)
  {
    hide SysInv, SemPend, SemPost, SemSet, QPend, QPost, QFlush, MultiPend, FlagPend, FlagFinish, FlagPost, MutexPend,
         MutexPost, PendAbortObj, DelObj, MutexDel, TaskQPend, TaskQPost, TaskSemPost, CreateTask, DeleteTask,
         CreateObj, KernelRuns.Step, KernelRuns.Broken, KernelRuns.Allowed, NoneMishandled, FlagPendMisses,
         FlagFinishMisses, Quiet, MultiValid, Distinct, Newborn;
    match op
    case OpFlagPend(o, flags, mode, consume, block, timeout) =>
      FlagPendKeeps(s, o, flags, mode, consume, block, timeout);
    case OpFlagFinish(o, mode, consume) => FlagFinishKeeps(s, o, mode, consume);
    case OpFlagPost(o, flags, set_) => FlagPostKeeps(s, o, flags, set_);
    case OpMutexPend(o, block, timeout) => MutexPendKeeps(s, o, block, timeout);
    case OpKernel(op) => QuietKeeps(s, op);
  }

  lemma RobustKeeps(s: Sys, op: Op)
    requires SysInv(s) && Allowed(s, op) && !Fragile(op)
    ensures SysInv(Step(s, op))
  {
    hide SysInv, SemPend, SemPost, SemSet, QPend, QPost, QFlush, MultiPend, FlagPend, FlagFinish, FlagPost, MutexPend,
         MutexPost, PendAbortObj, DelObj, MutexDel, TaskQPend, TaskQPost, TaskSemPost, CreateTask, DeleteTask,
         CreateObj, KernelRuns.Step, KernelRuns.Allowed, Quiet, Newborn;
    match op
    case OpCreateObj(o, b) => CreateObjKeeps(s, o, b);
    case OpSemPend(o, block, timeout) => SemPendKeeps(s, o, block, timeout);
    case OpSemPost(o, all) => SemPostKeeps(s, o, all);
    case OpSemSet(o, cnt) => SemSetKeeps(s, o, cnt);
    case OpQPend(o, block, timeout) => QPendKeeps(s, o, block, timeout);
    case OpQPost(o, msg, lifo, all, poolEmpty) => QPostKeeps(s, o, msg, lifo, all, poolEmpty);
    case OpQFlush(o) => QFlushKeeps(s, o);
    case OpMultiPend(l, block, timeout) => MultiPendKeeps(s, l, block, timeout);
    case OpMutexPost(o) => MutexPostKeeps(s, o);
    case OpAbort(o, all) => AbortKeeps(s, o, all);
    case OpDel(o, always) => DelKeeps(s, o, always);
    case OpMutexDel(o, always) => MutexDelKeeps(s, o, always);
    case OpTaskQPend(block, timeout) => TaskQPendKeeps(s, block, timeout);
    case OpTaskQPost(t, msg, lifo, poolEmpty) => TaskQPostKeeps(s, t, msg, lifo, poolEmpty);
    case OpTaskSemPost(t) => TaskSemPostKeeps(s, t);
    case OpCreateTask(t, prio, cap) => CreateTaskKeeps(s, t, prio, cap);
    case OpDeleteTask(t) => DeleteTaskKeeps(s, t);
  }

  ghost predicate Legal(s: Sys, ops: seq<Op>)
    decreases |ops|
  {
    ops == [] || (Allowed(s, ops[0]) && !Broken(s, ops[0]) && Legal(Step(s, ops[0]), ops[1..]))
  }

  ghost function Run(s: Sys, ops: seq<Op>): Sys
    requires Legal(s, ops)
    decreases |ops|
  {
    if ops == [] then s else Run(Step(s, ops[0]), ops[1..])
  }

  // In every reachable state the task states agree with the lists, no semaphore has a count
  // and no queue a message while a task waits for it, and no event flag waiter is left with
  // its condition met.
  lemma {:induction false} RunKeeps(s: Sys, ops: seq<Op>)
    requires SysInv(s) && Legal(s, ops)
    ensures SysInv(Run(s, ops))
    decreases |ops|
  {
    hide SysInv, Allowed, Broken, Step;
    if ops != [] {
      StepKeeps(s, ops[0]);
      RunKeeps(Step(s, ops[0]), ops[1..]);
    }
  }
}
