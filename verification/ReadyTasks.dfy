// While the scheduler is locked the running task cannot lose the processor: no service but its
// own deletion makes it anything but ready (os_core.c, os_task.c, os_time.c).

module ReadyTasks {
  import opened Tasks
  import opened FlagBits
  import opened KernelState
  import opened KernelSteps
  import opened ObjectSpec
  import opened ObjectInv
  import opened ObjectRuns
  import opened TaskChanges
  import KernelRuns
  import Wheel = TickWheelSpec

  // t is the running task, and ready.
  predicate IsReady(k: K, t: Tid) {
    k.cur == t && t in k.tasks && k.tasks[t].st == RDY
  }

  // ---------------------------------------------------------------- waking others

  lemma ReadyPost(k: K, x: Tid, o: Oid, msg: Msg, t: Tid)
    requires x in k.tasks && IsReady(k, t)
    ensures IsReady(Post(k, x, o, msg), t)
  {
    hide Posted, Unpend, RdyInsert, Wheel.Remove;
  }

  lemma ReadyCancel(k: K, x: Tid, o: Oid, status: PendStatus, t: Tid)
    requires x in k.tasks && IsReady(k, t)
    ensures IsReady(Cancel(k, x, o, status), t)
  {
    hide Cancelled, Unpend, RdyInsert, Wheel.Remove;
  }

  lemma ReadyFlagRdy(k: K, x: Tid, rdy: bv32, t: Tid)
    requires x in k.tasks && IsReady(k, t)
    ensures IsReady(FlagRdy(k, x, rdy), t)
  {
    hide Unpend, RdyInsert, Wheel.Remove;
  }

  lemma {:induction false} ReadyPostAll(k: K, l: seq<Tid>, o: Oid, msg: Msg, t: Tid)
    requires IsReady(k, t)
    ensures IsReady(PostAll(k, l, o, msg), t)
    decreases |l|
  {
    hide Post, IsReady;
    if l != [] {
      if l[0] in k.tasks { ReadyPost(k, l[0], o, msg, t); }
      ReadyPostAll(if l[0] in k.tasks then Post(k, l[0], o, msg) else k, l[1..], o, msg, t);
    }
  }

  lemma {:induction false} ReadyCancelAll(k: K, l: seq<Tid>, o: Oid, status: PendStatus, t: Tid)
    requires IsReady(k, t)
    ensures IsReady(CancelAll(k, l, o, status), t)
    decreases |l|
  {
    hide Cancel, IsReady;
    if l != [] {
      if l[0] in k.tasks { ReadyCancel(k, l[0], o, status, t); }
      ReadyCancelAll(if l[0] in k.tasks then Cancel(k, l[0], o, status) else k, l[1..], o, status, t);
    }
  }

  lemma {:induction false} ReadyFlagWake(k: K, l: seq<Tid>, bits: bv32, t: Tid)
    requires IsReady(k, t)
    ensures IsReady(FlagWake(k, l, bits), t)
    decreases |l|
  {
    hide FlagRdy, RdyBits, Satisfied, IsReady;
    if l != [] {
      if FlagHit(k, l[0], bits) {
        var rdy := RdyBits(bits, k.tasks[l[0]].flagsPend, k.tasks[l[0]].flagsMode);
        ReadyFlagRdy(k, l[0], rdy, t);
        ReadyFlagWake(FlagRdy(k, l[0], rdy), l[1..], bits, t);
      } else {
        ReadyFlagWake(k, l[1..], bits, t);
      }
    }
  }

  lemma ReadyReprio(k: K, w: Tid, prio: Prio, place: Place, resort: bool, t: Tid)
    requires w in k.tasks && IsReady(k, t)
    ensures IsReady(Reprio(k, w, prio, place, resort), t)
  {
    hide Enlist, Unpend, RdyPut, RdyRemove;
  }

  lemma ReadyTick(k: K, t: Tid)
    requires Inv(k) && IsReady(k, t)
    ensures IsReady(KernelRuns.Tick(k), t)
  {
    hide RdyInv, PendInv, TcbOk, Wheel.Valid, Wheel.ScanAll, KernelRuns.Tick;
    KernelRuns.TickKeeps(k);
  }

  // ---------------------------------------------------------------- the services

  // With the scheduler locked nobody waits.
  lemma LockedWait(s: Sys, op: Op)
    requires Allowed(s, op) && Waiting(op) && s.k.schedLock > 0
    ensures Step(s, op).k == s.k
  {
    hide Pend, TakeAll, SemPost, SemSet, QPost, QFlush, FlagPend, FlagFinish, FlagPost, MutexPend, MutexPost,
         PendAbortObj, DelObj, MutexDel, TaskQPost, TaskSemPost, CreateTask, DeleteTask, CreateObj, KernelRuns.Step;
  }

  lemma ReadyWake(s: Sys, op: Op, t: Tid)
    requires Allowed(s, op) && Plain(op) && !Waiting(op) && IsReady(s.k, t)
    ensures IsReady(Step(s, op).k, t)
  {
    hide PostAll, CancelAll, FlagWake, Post, Chosen, PostedBits, SemPend, QPend, MultiPend, FlagPend, MutexPend,
         MutexPost, MutexDel, TaskQPend, CreateTask, DeleteTask, KernelRuns.Step;
    var k := s.k;
    match op
    case OpSemPost(o, all) => ReadyPostAll(k, Chosen(k.pend[o], all), o, NULL_MSG, t);
    case OpQPost(o, msg, _, all, _) => ReadyPostAll(k, Chosen(k.pend[o], all), o, msg, t);
    case OpFlagPost(o, flags, set_) => ReadyFlagWake(k, k.pend[o], PostedBits(s.objs[o].bits, flags, set_), t);
    case OpAbort(o, all) => ReadyCancelAll(k, Chosen(k.pend[o], all), o, PendAbort, t);
    case OpDel(o, _) => ReadyCancelAll(k, k.pend[o], o, PendDel, t);
    case OpTaskQPost(x, msg, _, _) => ReadyPost(k, x, 0, msg, t);
    case OpTaskSemPost(x) => ReadyPost(k, x, 0, NULL_MSG, t);
    case _ =>
  }

  lemma ReadyFlagPend(s: Sys, op: Op, t: Tid)
    requires Allowed(s, op) && op.OpFlagPend? && s.k.schedLock > 0 && IsReady(s.k, t)
    ensures IsReady(Step(s, op).k, t)
  {
    hide Pend, RdyBits, Satisfied, Consumed;
  }

  lemma ReadyMutexPost(s: Sys, o: Oid, t: Tid)
    requires IsMutex(s, o) && s.k.cur in s.k.tasks && IsReady(s.k, t)
    ensures IsReady(MutexPost(s, o).k, t)
  {
    hide Reprio, Post;
    var orig := s.objs[o].orig;
    ReadyReprio(s.k, s.k.cur, orig, AtTail, true, t);
    ReprioKeys(s.k, s.k.cur, orig, AtTail);
    if s.k.pend[o] != [] && s.k.pend[o][0] in s.k.tasks {
      ReadyPost(Unboost(s.k, orig), s.k.pend[o][0], o, NULL_MSG, t);
    }
  }

  lemma ReadyMutexDel(s: Sys, o: Oid, always: bool, t: Tid)
    requires IsMutex(s, o) && IsReady(s.k, t)
    ensures IsReady(MutexDel(s, o, always).k, t)
  {
    hide Reprio, CancelAll, IsReady;
    var k, m := s.k, s.objs[o];
    ReadyCancelAll(k, k.pend[o], o, PendDel, t);
    if m.owner.Task? && m.owner.t in k.tasks {
      ReadyReprio(k, m.owner.t, m.orig, AtTail, true, t);
      ReprioKeys(k, m.owner.t, m.orig, AtTail);
      var k1 := Reprio(k, m.owner.t, m.orig, AtTail, true);
      ReadyCancelAll(k1, k1.pend[o], o, PendDel, t);
    }
  }

  lemma ReadyKernel(k: K, op: KernelRuns.Op)
    requires Inv(k) && KernelRuns.Allowed(k, op) && Quiet(op) && IsReady(k, k.cur)
    requires k.schedLock > 0 && KernelRuns.Step(k, op).schedLock > 0
    ensures IsReady(KernelRuns.Step(k, op), k.cur)
  {
    hide Inv, Post, Cancel, FlagRdy, Unpend, Enlist, RdyInsert, RdyRemove, RdyPut, Wheel.Remove, KernelRuns.Tick,
         KernelRuns.Highest;
    match op
    case OpPost(x, o, msg) => ReadyPost(k, x, o, msg, k.cur);
    case OpCancel(x, o, status) => ReadyCancel(k, x, o, status, k.cur);
    case OpFlagRdy(x, rdy) => ReadyFlagRdy(k, x, rdy, k.cur);
    case OpTick => ReadyTick(k, k.cur);
    case _ =>
  }

  // Any call under a lock, but the one that ends it, leaves the running task running and ready
  // exactly when it is not its own deletion.
  lemma LockedStaysReady(s: Sys, op: Op)
    requires SysInv(s) && Allowed(s, op) && IsReady(s.k, s.k.cur)
    requires s.k.schedLock > 0 && Step(s, op).k.schedLock > 0
    ensures IsReady(Step(s, op).k, s.k.cur) <==> !(op == OpDeleteTask(s.k.cur) && s.k.cur != IDLE)
  {
    hide SysInv, Inv, PendInv, TcbOk, KernelRuns.Step, KernelRuns.Allowed, Quiet, SemPend, SemPost, SemSet, QPend,
         QPost, QFlush, MultiPend, FlagPend, FlagFinish, FlagPost, MutexPost, PendAbortObj, DelObj, MutexDel, TaskQPend,
         TaskQPost, TaskSemPost, CreateObj, MultiValid, Newborn, RdyInsert, RdyRemove, Unpend, Wheel.Remove, Boost,
         Pend;
    SysParts(s);
    if Waiting(op) {
      LockedWait(s, op);
    } else if Plain(op) {
      ReadyWake(s, op, s.k.cur);
    } else if op.OpFlagPend? {
      ReadyFlagPend(s, op, s.k.cur);
    } else if op.OpMutexPost? {
      ReadyMutexPost(s, op.o, s.k.cur);
    } else if op.OpMutexDel? {
      ReadyMutexDel(s, op.o, op.always, s.k.cur);
    } else if op.OpKernel? {
      ReadyKernel(s.k, op.op);
    }
  }
}
