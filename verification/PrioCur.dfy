// OSPrioCur and the priority of the running task: every service, followed by OSSched, leaves
// them equal except for the calls named here, which never do (os_core.c, os_task.c, os_mutex.c).

module PrioCur {
  import opened Lists
  import opened Tasks
  import opened FlagBits
  import opened KernelState
  import opened KernelSteps
  import opened KernelReleases
  import opened KernelEffects
  import opened ObjectSpec
  import opened ObjectInv
  import opened ObjectSteps
  import opened ObjectRuns
  import opened ReadyTasks
  import opened TaskChanges
  import KernelRuns
  import ObjectEffects
  import Ticks
  import TickRuns
  import Wheel = TickWheelSpec

  predicate UpToDate(k: K) {
    k.cur in k.tasks && k.tasks[k.cur].prio == k.prioCur
  }

  predicate Running(k: K) {
    UpToDate(k) && k.tasks[k.cur].st == RDY
  }

  // With priority prio the running task is still the one to run, at the head of its list or at
  // the tail, when the tasks in freed become ready too.
  ghost predicate StaysBest(k: K, freed: set<Tid>, prio: nat, atHead: bool)
    requires k.cur in k.tasks
  {
    && k.tasks[k.cur].st == RDY
    && forall t :: t in k.tasks && t != k.cur && (k.tasks[t].st == RDY || t in freed) ==>
         if atHead then prio <= k.tasks[t].prio else prio < k.tasks[t].prio
  }

  // ---------------------------------------------------------------- the scheduler

  // OSSched makes OSPrioCur right whenever it switches.
  lemma SchedUpdates(k: K)
    requires Inv(k)
    ensures UpToDate(KernelRuns.Sched(k)) <==> KernelRuns.Sched(k).cur != k.cur || UpToDate(k)
  {
    if k.schedLock == 0 { KernelRuns.SchedPicksBest(k); }
  }

  // Who runs after the priority of the running task was set: it does, unless another one is
  // better, or as good and in front of it.
  lemma StillRuns(k: K, atHead: bool)
    requires Inv(k) && k.schedLock == 0 && k.cur in k.tasks && k.tasks[k.cur].st == RDY
    requires var l := k.rdy[k.tasks[k.cur].prio]; l != [] && l[if atHead then 0 else |l| - 1] == k.cur
    ensures KernelRuns.Sched(k).cur == k.cur <==> StaysBest(k, {}, k.tasks[k.cur].prio, atHead)
  {
    KernelRuns.SchedPicksBest(k);
    var prio := k.tasks[k.cur].prio;
    var l := k.rdy[prio];
    if KernelRuns.Sched(k).cur == k.cur && !atHead {
      forall t | t in k.tasks && t != k.cur && k.tasks[t].st == RDY
        ensures prio < k.tasks[t].prio
      {
        OneInList(k, t);
      }
    }
  }

  // The last of its list is the first only when it is alone there.
  lemma OneInList(k: K, t: Tid)
    requires Inv(k) && k.cur in k.tasks && t in k.tasks && t != k.cur && k.tasks[t].st == RDY
    requires var l := k.rdy[k.tasks[k.cur].prio]; l != [] && l[0] == k.cur && l[|l|-1] == k.cur
    ensures k.tasks[t].prio != k.tasks[k.cur].prio
  {
    var l := k.rdy[k.tasks[k.cur].prio];
    assert Distinct(l) && |l| == 1;
    assert l == [k.cur];
  }

  // ---------------------------------------------------------------- the services of the kernel

  // The running task gets another priority and goes on running, or it deletes itself while the
  // scheduler is locked.
  ghost predicate KernelStales(k: K, op: KernelRuns.Op) {
    match op
    case OpChangePrio(t, prio, self) =>
      && t == k.cur && k.cur in k.tasks && prio < PRIO_MAX - 1 && prio != k.tasks[k.cur].prio
      && (k.schedLock > 0 || StaysBest(k, {}, prio, self))
    case OpDelete(t) => t == k.cur && t != IDLE && k.schedLock > 0
    case _ => false
  }

  // Neither the running task nor its priority has changed.
  ghost predicate SamePrio(k: K, k': K) {
    && k'.cur == k.cur && k'.prioCur == k.prioCur
    && (k.cur in k.tasks ==> k.cur in k'.tasks && k'.tasks[k.cur].prio == k.tasks[k.cur].prio)
  }

  lemma SamePrioUpdates(k: K, k': K)
    requires UpToDate(k) && SamePrio(k, k') && Inv(k')
    ensures UpToDate(KernelRuns.Sched(k'))
  {
    hide Inv, KernelRuns.Sched;
    SchedUpdates(k');
  }

  // The services that neither change a priority nor delete a task nor schedule.
  predicate Usual(op: KernelRuns.Op) {
    !(op.OpChangePrio? || op.OpDelete? || op.OpSched? || op.OpUnlock?)
  }

  lemma UsualSame(k: K, op: KernelRuns.Op)
    requires Inv(k) && KernelRuns.Allowed(k, op) && Usual(op)
    ensures SamePrio(k, KernelRuns.Step(k, op))
  {
    hide Inv, Unpend, Enlist, RdyInsert, RdyRemove, Wheel.Remove, Wheel.Insert, Mark, FreshTable, KernelRuns.Tick,
         TickRuns.PlanOf;
    if op.OpTick? { TickSame(k); }
  }

  lemma TickSame(k: K)
    requires Inv(k)
    ensures SamePrio(k, KernelRuns.Tick(k))
  {
    hide Inv, KernelRuns.Tick;
    KernelRuns.TickKeeps(k);
  }

  lemma KernelTracks(k: K, op: KernelRuns.Op)
    requires Inv(k) && UpToDate(k) && KernelRuns.Allowed(k, op) && !KernelRuns.Broken(k, op)
    ensures UpToDate(KernelRuns.Sched(KernelRuns.Step(k, op))) <==> !KernelStales(k, op)
  {
    hide Inv, KernelRuns.Broken, KernelRuns.Sched;
    var k' := KernelRuns.Step(k, op);
    KernelRuns.StepKeeps(k, op);
    if Usual(op) {
      hide KernelRuns.Step, SamePrio;
      UsualSame(k, op);
      SamePrioUpdates(k, k');
    } else if op.OpChangePrio? {
      ChangePrioTracks(k, op.t, op.prio, op.self);
    } else if op.OpDelete? {
      DeleteTracks(k, op.t);
    } else {
      SchedTracks(k, op);
    }
  }

  lemma SchedTracks(k: K, op: KernelRuns.Op)
    requires Inv(k) && UpToDate(k) && (op.OpSched? || op.OpUnlock?)
    ensures UpToDate(KernelRuns.Sched(KernelRuns.Step(k, op)))
  {
    hide Inv, KernelRuns.Sched;
    var k1 := if op.OpUnlock? && k.schedLock > 0 then k.(schedLock := k.schedLock - 1) else k;
    KernelRuns.LockKeeps(k, k1.schedLock);
    SchedUpdates(k1);
    KernelRuns.SchedKeeps(k1);
    SchedUpdates(KernelRuns.Sched(k1));
    SchedUpdates(k);
  }

  lemma DeleteTracks(k: K, t: Tid)
    requires Inv(k) && UpToDate(k) && t in k.tasks
    ensures UpToDate(KernelRuns.Sched(Delete(k, t))) <==> !(t == k.cur && t != IDLE && k.schedLock > 0)
  {
    hide Inv, RdyRemove, Unpend, Wheel.Remove;
    var k' := Delete(k, t);
    DeleteKeeps(k, t);
    SchedUpdates(k');
    if t == k.cur && t != IDLE && k.schedLock == 0 { KernelRuns.SchedPicksBest(k'); }
  }

  lemma ChangePrioTracks(k: K, t: Tid, prio: nat, self: bool)
    requires Inv(k) && UpToDate(k) && t in k.tasks && Inv(ChangePrio(k, t, prio, self))
    ensures UpToDate(KernelRuns.Sched(ChangePrio(k, t, prio, self))) <==>
      !KernelStales(k, KernelRuns.OpChangePrio(t, prio, self))
  {
    hide Inv, KernelRuns.Sched;
    var k' := ChangePrio(k, t, prio, self);
    SchedUpdates(k');
    if prio < PRIO_MAX - 1 {
      ChangePrioOnly(k, t, prio, self);
      if t == k.cur && prio != k.tasks[t].prio {
        if k.schedLock == 0 { OwnPrio(k, prio, self); } else { LockedStays(k'); }
      }
    }
  }

  lemma LockedStays(k: K)
    requires k.schedLock > 0
    ensures KernelRuns.Sched(k) == k
  {
  }

  // A task that changes its own priority runs on exactly when it is still the best.
  lemma OwnPrio(k: K, prio: Prio, self: bool)
    requires Inv(k) && k.cur in k.tasks && k.schedLock == 0 && prio < PRIO_MAX - 1
      && Inv(ChangePrio(k, k.cur, prio, self))
    ensures KernelRuns.Sched(ChangePrio(k, k.cur, prio, self)).cur == k.cur <==> StaysBest(k, {}, prio, self)
  {
    hide Inv, KernelRuns.Sched, ChangePrio, Without;
    var k' := ChangePrio(k, k.cur, prio, self);
    ChangePrioOnly(k, k.cur, prio, self);
    ChangePrioLock(k, k.cur, prio, self);
    if k.tasks[k.cur].st == RDY {
      hide StaysBest;
      StillRuns(k', self);
      SameRivals(k, k', prio, self);
    } else {
      KernelRuns.SchedPicksBest(k');
    }
  }

  lemma SameRivals(k: K, k': K, prio: Prio, atHead: bool)
    requires k.cur in k.tasks && k'.cur == k.cur && k'.tasks == k.tasks[k.cur := k.tasks[k.cur].(prio := prio)]
    ensures StaysBest(k', {}, prio, atHead) <==> StaysBest(k, {}, prio, atHead)
  {
    assert forall t :: t in k.tasks && t != k.cur ==> k'.tasks[t] == k.tasks[t];
  }

  lemma ChangePrioLock(k: K, t: Tid, prio: nat, self: bool)
    requires t in k.tasks
    ensures ChangePrio(k, t, prio, self).schedLock == k.schedLock
  {
  }

  // ---------------------------------------------------------------- the services of the objects

  // The waiters of o that its deletion makes ready.
  ghost function Awoken(k: K, o: Oid): set<Tid>
    requires o in k.pend
  {
    set t | t in k.pend[o] && t in k.tasks && !k.tasks[t].st.susp
  }

  // A call after which OSPrioCur is not the priority of the running task; like OSTaskChangePrio,
  // OSMutexDel lowers a boosted owner without writing OSPrioCur.
  ghost predicate GoesStale(s: Sys, op: Op) {
    match op
    case OpKernel(op) => KernelStales(s.k, op)
    case OpDeleteTask(t) => t == s.k.cur && t != IDLE && s.k.schedLock > 0
    case OpMutexDel(o, always) =>
      && always && IsMutex(s, o) && s.objs[o].owner == Task(s.k.cur) && s.k.cur in s.k.tasks
      && s.objs[o].orig != s.k.tasks[s.k.cur].prio
      && (s.k.schedLock > 0 || StaysBest(s.k, Awoken(s.k, o), s.objs[o].orig, false))
    case _ => false
  }

  lemma QuietSame(k: K, k': K)
    requires Quietly(k, k')
    ensures SamePrio(k, k')
  {
  }

  lemma FlagPendSame(s: Sys, o: Oid, flags: bv32, mode: FlagMode, consume: bool, block: bool, timeout: Ticks.Tick)
    requires IsFlags(s, o) && s.k.cur in s.k.tasks
    ensures SamePrio(s.k, FlagPend(s, o, flags, mode, consume, block, timeout).k)
  {
    hide Enlist, RdyRemove, Wheel.Insert, FreshTable, RdyBits, Satisfied, Consumed;
  }

  lemma MutexPendSame(s: Sys, o: Oid, block: bool, timeout: Ticks.Tick)
    requires IsMutex(s, o) && s.k.cur in s.k.tasks
    ensures SamePrio(s.k, MutexPend(s, o, block, timeout).k)
  {
    hide Reprio, Pend;
    var m := s.objs[o];
    if m.owner.Task? && m.owner.t in s.k.tasks && m.owner.t != s.k.cur {
      RepriosAnother(s.k, m.owner.t, s.k.tasks[s.k.cur].prio);
    }
    QuietPend(Boost(s.k, m.owner, s.k.tasks[s.k.cur].prio), OnMutex, [o], timeout);
  }

  lemma RepriosAnother(k: K, w: Tid, prio: Prio)
    requires w in k.tasks && w != k.cur
    ensures SamePrio(k, Reprio(k, w, prio, AtHead, true)) && SamePrio(k, Reprio(k, w, prio, AtTail, true))
  {
    hide Enlist, Unpend, RdyPut, RdyRemove;
  }

  // OSMutexPost writes OSPrioCur when it lowers the owner.
  lemma MutexPostUpToDate(s: Sys, o: Oid)
    requires UpToDate(s.k) && IsMutex(s, o)
    ensures UpToDate(MutexPost(s, o).k)
  {
    hide Reprio, Post;
    var m := s.objs[o];
    RepriosCur(s.k, m.orig);
    if s.k.pend[o] != [] && s.k.pend[o][0] in s.k.tasks {
      QuietPost(Unboost(s.k, m.orig), s.k.pend[o][0], o, NULL_MSG);
    }
  }

  lemma RepriosCur(k: K, prio: Prio)
    requires k.cur in k.tasks
    ensures var k' := Reprio(k, k.cur, prio, AtTail, true);
      k'.cur == k.cur && k'.tasks == k.tasks[k.cur := k.tasks[k.cur].(prio := prio)] && k'.prioCur == k.prioCur
        && k'.schedLock == k.schedLock
  {
  }

  // Every service followed by OSSched leaves OSPrioCur up to date, except those, which never do.
  lemma PrioCurTracks(s: Sys, op: Op)
    requires SysInv(s) && Running(s.k) && Allowed(s, op) && !Broken(s, op)
    ensures UpToDate(KernelRuns.Sched(Step(s, op).k)) <==> !GoesStale(s, op)
  {
    hide SysInv, Inv, Broken, KernelRuns.Sched, KernelRuns.Step, KernelRuns.Broken, Quietly, SamePrio;
    StepKeeps(s, op);
    SysParts(s);
    SysParts(Step(s, op));
    if Plain(op) {
      PlainQuiet(s, op);
      QuietSame(s.k, Step(s, op).k);
      SamePrioUpdates(s.k, Step(s, op).k);
    } else {
      OtherTracks(s, op);
    }
  }

  lemma OtherTracks(s: Sys, op: Op)
    requires SysInv(s) && Running(s.k) && Allowed(s, op) && !Broken(s, op) && !Plain(op) && Inv(s.k)
      && Inv(Step(s, op).k)
    ensures UpToDate(KernelRuns.Sched(Step(s, op).k)) <==> !GoesStale(s, op)
  {
    hide SysInv, Inv, KernelRuns.Sched, KernelRuns.Step, KernelRuns.Broken, SamePrio, KernelStales, MutexPend,
         MutexPost, MutexDel, FlagPend, StaysBest, NoneMishandled, FlagPendMisses, FlagFinishMisses, SemPend, SemPost,
         SemSet, QPend, QPost, QFlush, MultiPend, FlagFinish, FlagPost, PendAbortObj, DelObj, TaskQPend, TaskQPost,
         TaskSemPost, CreateObj, KernelRuns.Allowed, Quiet, MultiValid, Distinct;
    match op
    case OpFlagPend(o, flags, mode, consume, block, timeout) =>
      FlagPendSame(s, o, flags, mode, consume, block, timeout);
      SamePrioUpdates(s.k, Step(s, op).k);
    case OpMutexPend(o, block, timeout) =>
      MutexPendSame(s, o, block, timeout);
      SamePrioUpdates(s.k, Step(s, op).k);
    case OpMutexPost(o) =>
      MutexPostUpToDate(s, o);
      SchedUpdates(Step(s, op).k);
    case OpMutexDel(o, always) => MutexDelTracks(s, o, always);
    case OpCreateTask(t, prio, cap) =>
      CreateSame(s.k, t, prio);
      SamePrioUpdates(s.k, Step(s, op).k);
    case OpDeleteTask(t) => DeleteTracks(s.k, t);
    case OpKernel(kop) => KernelTracks(s.k, kop);
  }

  lemma CreateSame(k: K, t: Tid, prio: Prio)
    requires t !in k.tasks && k.cur in k.tasks
    ensures SamePrio(k, Create(k, t, prio))
  {
  }

  // ---------------------------------------------------------------- deleting a mutex

  ghost predicate LowersSelf(s: Sys, o: Oid, always: bool)
    requires IsMutex(s, o) && s.k.cur in s.k.tasks
  {
    always && s.objs[o].owner == Task(s.k.cur) && s.objs[o].orig != s.k.tasks[s.k.cur].prio
  }

  lemma MutexDelTracks(s: Sys, o: Oid, always: bool)
    requires SysInv(s) && Running(s.k) && IsMutex(s, o) && Inv(MutexDel(s, o, always).k)
    ensures UpToDate(KernelRuns.Sched(MutexDel(s, o, always).k)) <==> !GoesStale(s, OpMutexDel(o, always))
  {
    hide SysInv, Inv, KernelRuns.Sched, MutexDel, StaysBest, Awoken, SamePrio;
    if LowersSelf(s, o, always) {
      OwnDelTracks(s, o);
    } else {
      DelSame(s, o, always);
      SamePrioUpdates(s.k, MutexDel(s, o, always).k);
    }
  }

  lemma OwnDelTracks(s: Sys, o: Oid)
    requires SysInv(s) && Running(s.k) && IsMutex(s, o) && LowersSelf(s, o, true) && Inv(MutexDel(s, o, true).k)
    ensures UpToDate(KernelRuns.Sched(MutexDel(s, o, true).k)) <==>
      !(s.k.schedLock > 0 || StaysBest(s.k, Awoken(s.k, o), s.objs[o].orig, false))
  {
    hide SysInv, Inv, KernelRuns.Sched, MutexDel, StaysBest, Awoken, Reprio, CancelAll, TailIs, TcbOk, PendInv;
    var prio, k' := s.objs[o].orig, MutexDel(s, o, true).k;
    var k1 := Reprio(s.k, s.k.cur, prio, AtTail, true);
    SysParts(s);
    RepriosCur(s.k, prio);
    Lowered(s.k, prio);
    OwnDelIs(s, o);
    QuietCancelAll(k1, k1.pend[o], o, PendDel);
    SchedUpdates(k');
    if s.k.schedLock > 0 { LockedStays(k'); } else { LoweredRuns(s, o); }
  }

  lemma OwnDelIs(s: Sys, o: Oid)
    requires IsMutex(s, o) && s.k.cur in s.k.tasks && LowersSelf(s, o, true)
    ensures var k1 := Reprio(s.k, s.k.cur, s.objs[o].orig, AtTail, true);
      k1.pend.Keys == s.k.pend.Keys && MutexDel(s, o, true).k == CancelAll(k1, k1.pend[o], o, PendDel)
  {
    hide CancelAll;
  }

  lemma DelSame(s: Sys, o: Oid, always: bool)
    requires IsMutex(s, o) && UpToDate(s.k)
    requires !LowersSelf(s, o, always)
    ensures SamePrio(s.k, MutexDel(s, o, always).k)
  {
    hide Reprio, CancelAll;
    var m := s.objs[o];
    QuietCancelAll(s.k, s.k.pend[o], o, PendDel);
    if always && m.owner.Task? && m.owner.t in s.k.tasks && m.owner.t != s.k.cur {
      RepriosAnother(s.k, m.owner.t, m.orig);
      var k1 := Reprio(s.k, m.owner.t, m.orig, AtTail, true);
      ReprioKeys(s.k, m.owner.t, m.orig, AtTail);
      QuietCancelAll(k1, k1.pend[o], o, PendDel);
    }
  }

  // The running task after its priority was lowered: at the tail of its new list.
  lemma Lowered(k: K, prio: Prio)
    requires Inv(k) && Running(k)
    ensures var k1 := Reprio(k, k.cur, prio, AtTail, true);
      && Inv(k1) && k1.pend == k.pend && TailIs(k1, prio, k.cur) && forall o :: o in k.pend ==> k.cur !in k.pend[o]
  {
    hide RdyInv, WheelInv, PendInv, TcbOk;
    NotOnList(k, k.cur);
    ReprioKeeps(k, k.cur, prio, AtTail, true);
    NotLinked(k.tasks, k.pend, k.cur);
  }

  predicate TailIs(k: K, p: Prio, x: Tid) {
    k.rdy[p] != [] && k.rdy[p][|k.rdy[p]|-1] == x
  }

  // Tasks made ready join the tail of a list only at the priority OSPrioCur names.
  lemma {:induction false} TailStays(k: K, l: seq<Tid>, o: Oid, status: PendStatus, p: Prio, x: Tid)
    requires TailIs(k, p, x) && k.prioCur != p
    ensures TailIs(CancelAll(k, l, o, status), p, x)
    decreases |l|
  {
    hide Wheel.Remove, Unpend, Mark;
    if l != [] {
      TailStays(if l[0] in k.tasks then Cancel(k, l[0], o, status) else k, l[1..], o, status, p, x);
    }
  }

  lemma LoweredRuns(s: Sys, o: Oid)
    requires SysInv(s) && Running(s.k) && IsMutex(s, o) && s.k.schedLock == 0
    requires s.objs[o].owner == Task(s.k.cur) && s.objs[o].orig != s.k.tasks[s.k.cur].prio
    ensures var k1 := Reprio(s.k, s.k.cur, s.objs[o].orig, AtTail, true);
      && o in k1.pend
      && (KernelRuns.Sched(CancelAll(k1, k1.pend[o], o, PendDel)).cur == s.k.cur <==>
           StaysBest(s.k, Awoken(s.k, o), s.objs[o].orig, false))
  {
    hide SysInv, RdyInv, WheelInv, PendInv, TcbOk, KernelRuns.Sched, Reprio, CancelAll;
    SysParts(s);
    var k, prio := s.k, s.objs[o].orig;
    Lowered(k, prio);
    RepriosCur(k, prio);
    var k1 := Reprio(k, k.cur, prio, AtTail, true);
    var l := k1.pend[o];
    var k2 := CancelAll(k1, l, o, PendDel);
    TailStays(k1, l, o, PendDel, prio, k.cur);
    CancelledRuns(k, k1, o, prio);
    QuietCancelAll(k1, l, o, PendDel);
    StillRuns(k2, false);
  }

  // Who is ready after the waiters of o were cancelled.
  lemma CancelledReady(k: K, o: Oid, t: Tid)
    requires Inv(k) && o in k.pend && t in k.tasks
    ensures var k' := CancelAll(k, k.pend[o], o, PendDel);
      && t in k'.tasks && k'.tasks[t].prio == k.tasks[t].prio
      && (k'.tasks[t].st == RDY <==> k.tasks[t].st == RDY || t in Awoken(k, o))
  {
    hide Inv, CancelAll;
    ObjectEffects.CancelAllTells(k, o, true, PendDel);
    if t in k.pend[o] { WaiterBlocked(k, o, t); }
  }

  lemma CancelledRuns(k: K, k1: K, o: Oid, prio: Prio)
    requires Running(k) && Inv(k1) && o in k.pend && k1.pend == k.pend && k.cur !in k.pend[o]
    requires k1.cur == k.cur && k1.tasks == k.tasks[k.cur := k.tasks[k.cur].(prio := prio)]
    ensures var k2 := CancelAll(k1, k1.pend[o], o, PendDel);
      && Inv(k2) && k2.cur == k.cur && k.cur in k2.tasks && k2.tasks[k.cur].st == RDY && k2.tasks[k.cur].prio == prio
      && (StaysBest(k2, {}, prio, false) <==> StaysBest(k, Awoken(k, o), prio, false))
  {
    hide Inv, CancelAll, Awoken, Shrinks;
    var k2 := CancelAll(k1, k1.pend[o], o, PendDel);
    CancelAllExact(k1, o, true, PendDel);
    SameAwoken(k, k1, o);
    CancelledReady(k1, o, k.cur);
    NotAwoken(k, o, k.cur);
    forall t | t in k1.tasks
      ensures k2.tasks[t].prio == k1.tasks[t].prio
      ensures k2.tasks[t].st == RDY <==> k1.tasks[t].st == RDY || t in Awoken(k1, o)
    {
      CancelledReady(k1, o, t);
    }
  }

  lemma SameAwoken(k: K, k1: K, o: Oid)
    requires o in k.pend && k1.pend == k.pend && k1.tasks.Keys == k.tasks.Keys
    requires forall t :: t in k.pend[o] && t in k.tasks ==> k1.tasks[t] == k.tasks[t]
    ensures Awoken(k, o) == Awoken(k1, o)
  {
  }

  lemma NotAwoken(k: K, o: Oid, t: Tid)
    requires o in k.pend && t !in k.pend[o]
    ensures t !in Awoken(k, o)
  {
  }

  lemma WaiterBlocked(k: K, o: Oid, t: Tid)
    requires Inv(k) && o in k.pend && t in k.pend[o]
    ensures t in k.tasks && k.tasks[t].st != RDY
  {
    assert Waits(k.tasks, t, o) && TcbOk(k.tasks[t]);
  }

  // ---------------------------------------------------------------- whole runs

  function Settled(s: Sys): Sys {
    s.(k := KernelRuns.Sched(s.k))
  }

  ghost predicate Sound(s: Sys) {
    SysInv(s) && Running(s.k)
  }

  predicate Locks(op: Op) {
    op.OpKernel? && (op.op.OpLock? || op.op.OpUnlock?)
  }

  // Every call is allowed, breaks nothing and leaves OSPrioCur alone; each is followed by OSSched,
  // which does nothing while the scheduler is locked.
  ghost predicate Tidy(s: Sys, ops: seq<Op>)
    decreases |ops|
  {
    ops == [] || (Allowed(s, ops[0]) && !Broken(s, ops[0]) && !GoesStale(s, ops[0])
      && Tidy(Settled(Step(s, ops[0])), ops[1..]))
  }

  ghost function SettledRun(s: Sys, ops: seq<Op>): Sys
    requires Tidy(s, ops)
    decreases |ops|
  {
    if ops == [] then s else SettledRun(Settled(Step(s, ops[0])), ops[1..])
  }

  lemma LockSame(k: K, op: KernelRuns.Op)
    requires Inv(k) && KernelRuns.Allowed(k, op) && !op.OpLock? && !op.OpUnlock?
    ensures KernelRuns.Step(k, op).schedLock == k.schedLock
  {
    hide Inv, Unpend, Enlist, RdyInsert, RdyRemove, Wheel.Remove, Wheel.Insert, Mark, FreshTable, KernelRuns.Tick,
         TickRuns.PlanOf, KernelRuns.Highest;
    if op.OpTick? { TickLock(k); }
  }

  lemma TickLock(k: K)
    requires Inv(k)
    ensures KernelRuns.Tick(k).schedLock == k.schedLock
  {
    hide Inv, KernelRuns.Tick;
    KernelRuns.TickKeeps(k);
  }

  lemma StepLock(s: Sys, op: Op)
    requires SysInv(s) && Allowed(s, op) && !Locks(op) && s.k.cur in s.k.tasks
    ensures Step(s, op).k.schedLock == s.k.schedLock
  {
    hide SysInv, Inv, Quietly, KernelRuns.Step;
    SysParts(s);
    if Plain(op) {
      hide Step, Allowed;
      PlainQuiet(s, op);
      QuietLock(s.k, Step(s, op).k);
    } else if op.OpKernel? {
      LockSame(s.k, op.op);
    } else {
      OtherLock(s, op);
    }
  }

  lemma QuietLock(k: K, k': K)
    requires Quietly(k, k')
    ensures k'.schedLock == k.schedLock
  {
  }

  lemma OtherLock(s: Sys, op: Op)
    requires Allowed(s, op) && !Plain(op) && !op.OpKernel? && s.k.cur in s.k.tasks
    ensures Step(s, op).k.schedLock == s.k.schedLock
  {
    hide SemPend, SemPost, SemSet, QPend, QPost, QFlush, MultiPend, FlagPend, FlagFinish, FlagPost, MutexPend,
         MutexPost, PendAbortObj, DelObj, MutexDel, TaskQPend, TaskQPost, TaskSemPost, CreateObj, Create, Delete,
         KernelRuns.Step, KernelRuns.Allowed, Quiet, MultiValid, Distinct;
    match op
    case OpFlagPend(o, flags, mode, consume, block, timeout) =>
      FlagPendLock(s, o, flags, mode, consume, block, timeout);
    case OpMutexPend(o, block, timeout) => MutexPendLock(s, o, block, timeout);
    case OpMutexPost(o) => MutexPostLock(s, o);
    case OpMutexDel(o, always) => MutexDelLock(s, o, always);
    case OpCreateTask(t, prio, _) => CreateLock(s.k, t, prio);
    case OpDeleteTask(t) => DeleteLock(s.k, t);
  }

  lemma CreateLock(k: K, t: Tid, prio: Prio)
    requires t !in k.tasks
    ensures Create(k, t, prio).schedLock == k.schedLock
  {
    hide RdyInsert;
  }

  lemma DeleteLock(k: K, t: Tid)
    requires t in k.tasks
    ensures Delete(k, t).schedLock == k.schedLock
  {
    hide RdyRemove, Unpend, Wheel.Remove;
  }

  lemma FlagPendLock(s: Sys, o: Oid, flags: bv32, mode: FlagMode, consume: bool, block: bool, timeout: Ticks.Tick)
    requires IsFlags(s, o) && s.k.cur in s.k.tasks
    ensures FlagPend(s, o, flags, mode, consume, block, timeout).k.schedLock == s.k.schedLock
  {
    hide Enlist, RdyRemove, Wheel.Insert, FreshTable, RdyBits, Satisfied, Consumed;
  }

  lemma MutexPendLock(s: Sys, o: Oid, block: bool, timeout: Ticks.Tick)
    requires IsMutex(s, o) && s.k.cur in s.k.tasks
    ensures MutexPend(s, o, block, timeout).k.schedLock == s.k.schedLock
  {
    hide Reprio, Pend;
    var m := s.objs[o];
    if m.owner.Task? && m.owner.t in s.k.tasks { ReprioLock(s.k, m.owner.t, s.k.tasks[s.k.cur].prio); }
    QuietPend(Boost(s.k, m.owner, s.k.tasks[s.k.cur].prio), OnMutex, [o], timeout);
  }

  lemma MutexPostLock(s: Sys, o: Oid)
    requires IsMutex(s, o) && s.k.cur in s.k.tasks
    ensures MutexPost(s, o).k.schedLock == s.k.schedLock
  {
    hide Reprio, Post;
    RepriosCur(s.k, s.objs[o].orig);
    var k1 := Unboost(s.k, s.objs[o].orig);
    if s.k.pend[o] != [] && s.k.pend[o][0] in k1.tasks { QuietPost(k1, s.k.pend[o][0], o, NULL_MSG); }
  }

  lemma MutexDelLock(s: Sys, o: Oid, always: bool)
    requires IsMutex(s, o)
    ensures MutexDel(s, o, always).k.schedLock == s.k.schedLock
  {
    hide Reprio, CancelAll;
    var m := s.objs[o];
    QuietCancelAll(s.k, s.k.pend[o], o, PendDel);
    if m.owner.Task? && m.owner.t in s.k.tasks {
      ReprioLock(s.k, m.owner.t, m.orig);
      ReprioKeys(s.k, m.owner.t, m.orig, AtTail);
      var k1 := Reprio(s.k, m.owner.t, m.orig, AtTail, true);
      QuietCancelAll(k1, k1.pend[o], o, PendDel);
    }
  }

  lemma ReprioLock(k: K, w: Tid, prio: Prio)
    requires w in k.tasks
    ensures Reprio(k, w, prio, AtHead, true).schedLock == k.schedLock
    ensures Reprio(k, w, prio, AtTail, true).schedLock == k.schedLock
  {
    hide Enlist, Unpend, RdyPut, RdyRemove;
  }

  lemma SettledSound(s: Sys, op: Op)
    requires Sound(s) && Allowed(s, op) && !Broken(s, op) && !GoesStale(s, op)
    ensures Sound(Settled(Step(s, op)))
  {
    hide SysInv, Inv, Broken, GoesStale, Step, KernelRuns.Sched, Allowed;
    var s' := Step(s, op);
    StepKeeps(s, op);
    PrioCurTracks(s, op);
    if s'.k.schedLock == 0 {
      SchedSound(s');
    } else {
      LockedSound(s, op);
    }
  }

  // While the scheduler is locked the running task runs on.
  lemma LockedSound(s: Sys, op: Op)
    requires Sound(s) && Allowed(s, op) && !GoesStale(s, op) && Step(s, op).k.schedLock > 0
    ensures Settled(Step(s, op)) == Step(s, op) && IsReady(Step(s, op).k, s.k.cur)
  {
    hide SysInv, Inv, Step, KernelRuns.Sched, Allowed;
    LockedStays(Step(s, op).k);
    if s.k.schedLock > 0 {
      LockedStaysReady(s, op);
      NotOwnDeletion(s, op);
    } else {
      if !Locks(op) { StepLock(s, op); }
      JustLocked(s, op);
    }
  }

  lemma NotOwnDeletion(s: Sys, op: Op)
    requires !GoesStale(s, op) && s.k.schedLock > 0
    ensures !(op == OpDeleteTask(s.k.cur) && s.k.cur != IDLE)
  {
  }

  lemma JustLocked(s: Sys, op: Op)
    requires Allowed(s, op) && Locks(op) && s.k.schedLock == 0 && Step(s, op).k.schedLock > 0
    ensures Step(s, op).k.cur == s.k.cur && Step(s, op).k.tasks == s.k.tasks
  {
  }

  lemma SchedSound(s: Sys)
    requires SysInv(s) && s.k.schedLock == 0
    ensures SysInv(Settled(s))
    ensures var k := Settled(s).k; k.cur in k.tasks && k.tasks[k.cur].st == RDY
  {
    hide SysInv, Inv;
    SysParts(s);
    KernelRuns.SchedPicksBest(s.k);
    QuietKeeps(s, KernelRuns.OpSched);
  }

  // In every such run OSPrioCur is the priority of the running task all along.
  lemma {:induction false} RunTracks(s: Sys, ops: seq<Op>)
    requires Sound(s) && Tidy(s, ops)
    ensures Sound(SettledRun(s, ops))
    decreases |ops|
  {
    hide Sound, Allowed, Broken, GoesStale, Step;
    if ops != [] {
      SettledSound(s, ops[0]);
      RunTracks(Settled(Step(s, ops[0])), ops[1..]);
    }
  }

  lemma InitialSound(spokes: nat)
    requires spokes > 0
    ensures Sound(Initial(spokes))
  {
    InitialKeeps(spokes);
  }
}
