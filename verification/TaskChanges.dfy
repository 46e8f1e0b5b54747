// What no service but a few does to a task: give it another priority, or make it wait for event
// flags.

module TaskChanges {
  import Ticks
  import opened FlagBits
  import opened KernelState
  import opened KernelSteps
  import opened ObjectSpec
  import opened ObjectRuns
  import Wheel = TickWheelSpec

  // Nobody waits for flags who did not before, on the same group and in the same way.
  ghost predicate NoNewFlagWait(k: K, k': K) {
    forall t :: t in k'.tasks && k'.tasks[t].pendOn == OnFlag ==>
      && t in k.tasks && k.tasks[t].pendOn == OnFlag && k'.tasks[t].flagsMode == k.tasks[t].flagsMode
      && k'.tasks[t].table == k.tasks[t].table
  }

  // Everybody keeps his priority, the running task keeps running, and nobody new waits for flags.
  ghost predicate Quietly(k: K, k': K) {
    && k'.cur == k.cur && k'.prioCur == k.prioCur && k'.schedLock == k.schedLock
    && (forall t :: t in k.tasks ==> t in k'.tasks && k'.tasks[t].prio == k.tasks[t].prio)
    && NoNewFlagWait(k, k')
  }

  lemma QuietRelease(k: K, t: Tid, c: Tcb)
    requires t in k.tasks && c.prio == k.tasks[t].prio && c.pendOn == OnNothing
    ensures Quietly(k, Release(k, t, c))
  {
    hide Unpend, RdyInsert, Wheel.Remove;
  }

  lemma QuietPost(k: K, t: Tid, o: Oid, msg: Msg)
    requires t in k.tasks
    ensures Quietly(k, Post(k, t, o, msg))
  {
    hide Release, Mark, Quietly;
    SameQuiet(k);
    QuietRelease(k, t, Posted(k.tasks[t], o, msg));
  }

  lemma QuietCancel(k: K, t: Tid, o: Oid, status: PendStatus)
    requires t in k.tasks
    ensures Quietly(k, Cancel(k, t, o, status))
  {
    hide Release, Mark, Quietly;
    SameQuiet(k);
    QuietRelease(k, t, Cancelled(k.tasks[t], o, status));
  }

  lemma QuietFlagRdy(k: K, t: Tid, rdy: bv32)
    requires t in k.tasks
    ensures Quietly(k, FlagRdy(k, t, rdy))
  {
    hide Release, Unpend;
    QuietRelease(k, t, Freed(k.tasks[t].(flagsRdy := rdy), PendOk));
  }

  lemma {:induction false} QuietPostAll(k: K, l: seq<Tid>, o: Oid, msg: Msg)
    ensures Quietly(k, PostAll(k, l, o, msg))
    decreases |l|
  {
    hide Post;
    if l != [] {
      if l[0] in k.tasks {
        QuietPost(k, l[0], o, msg);
        QuietPostAll(Post(k, l[0], o, msg), l[1..], o, msg);
      } else {
        QuietPostAll(k, l[1..], o, msg);
      }
    }
  }

  lemma {:induction false} QuietCancelAll(k: K, l: seq<Tid>, o: Oid, status: PendStatus)
    ensures Quietly(k, CancelAll(k, l, o, status))
    decreases |l|
  {
    hide Cancel;
    if l != [] {
      if l[0] in k.tasks {
        QuietCancel(k, l[0], o, status);
        QuietCancelAll(Cancel(k, l[0], o, status), l[1..], o, status);
      } else {
        QuietCancelAll(k, l[1..], o, status);
      }
    }
  }

  lemma {:induction false} QuietFlagWake(k: K, l: seq<Tid>, bits: bv32)
    ensures Quietly(k, FlagWake(k, l, bits))
    decreases |l|
  {
    hide FlagRdy, RdyBits, Satisfied;
    if l != [] {
      if FlagHit(k, l[0], bits) {
        var rdy := RdyBits(bits, k.tasks[l[0]].flagsPend, k.tasks[l[0]].flagsMode);
        QuietFlagRdy(k, l[0], rdy);
        QuietFlagWake(FlagRdy(k, l[0], rdy), l[1..], bits);
      } else {
        QuietFlagWake(k, l[1..], bits);
      }
    }
  }

  lemma QuietPend(k: K, on: PendOn, objs: seq<Oid>, timeout: Ticks.Tick)
    requires k.cur in k.tasks && on != OnFlag
    ensures Quietly(k, Pend(k, on, objs, timeout))
  {
    hide Enlist, RdyRemove, Wheel.Insert, FreshTable;
  }

  // Services of this kind leave the tasks alone but for waking them or making the running one
  // wait for something other than flags.
  predicate Plain(op: Op) {
    !(op.OpFlagPend? || op.OpMutexPend? || op.OpMutexPost? || op.OpMutexDel? || op.OpCreateTask? || op.OpDeleteTask?
      || op.OpKernel?)
  }

  predicate Waiting(op: Op) {
    op.OpSemPend? || op.OpQPend? || op.OpMultiPend? || op.OpTaskQPend?
  }

  lemma PlainQuiet(s: Sys, op: Op)
    requires Allowed(s, op) && Plain(op)
    ensures Quietly(s.k, Step(s, op).k)
  {
    hide Quietly, Allowed, Step;
    if Waiting(op) { WaitQuiet(s, op); } else { WakeQuiet(s, op); }
  }

  lemma WaitQuiet(s: Sys, op: Op)
    requires Allowed(s, op) && Waiting(op)
    ensures Quietly(s.k, Step(s, op).k)
  {
    hide Pend, TakeAll, Quietly, SemPost, SemSet, QPost, QFlush, FlagPend, FlagFinish, FlagPost, MutexPend, MutexPost,
         PendAbortObj, DelObj, MutexDel, TaskQPost, TaskSemPost, CreateTask, DeleteTask, CreateObj, KernelRuns.Step;
    SameQuiet(s.k);
    match op
    case OpSemPend(o, _, timeout) => QuietPend(s.k, OnSem, [o], timeout);
    case OpQPend(o, _, timeout) => QuietPend(s.k, OnQ, [o], timeout);
    case OpMultiPend(l, _, timeout) => QuietPend(s.k, OnMulti, l, timeout);
    case OpTaskQPend(_, timeout) => QuietPend(s.k, OnTaskQ, [], timeout);
  }

  lemma WakeQuiet(s: Sys, op: Op)
    requires Allowed(s, op) && Plain(op) && !Waiting(op)
    ensures Quietly(s.k, Step(s, op).k)
  {
    hide PostAll, CancelAll, FlagWake, Post, Chosen, Quietly, SemPend, QPend, MultiPend, FlagPend, MutexPend, MutexPost,
         MutexDel, TaskQPend, CreateTask, DeleteTask, KernelRuns.Step;
    SameQuiet(s.k);
    match op
    case OpSemPost(o, all) => QuietPostAll(s.k, Chosen(s.k.pend[o], all), o, NULL_MSG);
    case OpQPost(o, msg, _, all, _) => QuietPostAll(s.k, Chosen(s.k.pend[o], all), o, msg);
    case OpFlagPost(o, flags, set_) => QuietFlagWake(s.k, s.k.pend[o], PostedBits(s.objs[o].bits, flags, set_));
    case OpAbort(o, all) => QuietCancelAll(s.k, Chosen(s.k.pend[o], all), o, PendAbort);
    case OpDel(o, _) => QuietCancelAll(s.k, s.k.pend[o], o, PendDel);
    case OpTaskQPost(t, msg, _, _) => QuietPost(s.k, t, 0, msg);
    case OpTaskSemPost(t) => QuietPost(s.k, t, 0, NULL_MSG);
    case OpCreateObj(o, b) => SameTasksQuiet(s.k, CreateObj(s, o, b).k);
    case _ =>
  }

  lemma SameQuiet(k: K)
    ensures Quietly(k, k)
  {
  }

  lemma SameTasksQuiet(k: K, k': K)
    requires k'.tasks == k.tasks && k'.cur == k.cur && k'.prioCur == k.prioCur && k'.schedLock == k.schedLock
    ensures Quietly(k, k')
  {
  }
}
