// A delay or a timeout ends exactly on time, whatever the services of all objects do in between
// (os_tick.c, os_core.c).

module ObjectTiming {
  import opened Tasks
  import opened FlagBits
  import opened KernelState
  import opened KernelSteps
  import opened KernelEffects
  import opened ObjectSpec
  import opened ObjectInv
  import opened ObjectRuns
  import KernelRuns
  import Ticks
  import Wheel = TickWheelSpec

  // The call does not wake the sleeper t. A post or an abort may serve somebody else on the object
  // t waits for, a flag post may leave its condition unmet, and a message or a signal for t may
  // find it waiting for something else.
  ghost predicate Leaves(s: Sys, op: Op, t: Tid)
    requires Allowed(s, op) && t in s.k.tasks
  {
    match op
    case OpSemPost(o, all) => t !in Chosen(s.k.pend[o], all)
    case OpQPost(o, _, _, all, _) => t !in Chosen(s.k.pend[o], all)
    case OpFlagPost(o, flags, set_) =>
      t in s.k.pend[o] ==> !FlagHit(s.k, t, PostedBits(s.objs[o].bits, flags, set_))
    case OpMutexPost(o) => HandsTo(s, o, t) ==> s.objs[o].owner != Task(s.k.cur) || s.objs[o].nest != 1
    case OpAbort(o, all) => t !in Chosen(s.k.pend[o], all)
    case OpDel(o, always) => always ==> t !in s.k.pend[o]
    case OpMutexDel(o, always) => always && !Gone(s.k, s.objs[o].owner) ==> t !in s.k.pend[o]
    case OpTaskQPost(x, _, _, _) => x == t ==> s.k.tasks[t].pendOn != OnTaskQ
    case OpTaskSemPost(x) => x == t ==> s.k.tasks[t].pendOn != OnTaskSem
    case OpDeleteTask(x) => x != t
    case OpKernel(kop) => Spares(s.k, kop, t)
    case _ => true
  }

  predicate HandsTo(s: Sys, o: Oid, t: Tid)
    requires o in s.k.pend
  {
    s.k.pend[o] != [] && s.k.pend[o][0] == t
  }

  // ---------------------------------------------------------------- steps

  lemma PostSpares(k: K, x: Tid, o: Oid, msg: Msg, t: Tid, n: nat, waiting: bool)
    requires x in k.tasks && x != t && Sleeps(k, t, n, waiting)
    ensures Sleeps(Post(k, x, o, msg), t, n, waiting)
  {
    hide Release, Mark;
    ReleaseSpares(k, x, Posted(k.tasks[x], o, msg), t, n, waiting);
  }

  lemma {:induction false} PostAllSpares(k: K, l: seq<Tid>, o: Oid, msg: Msg, t: Tid, n: nat, waiting: bool)
    requires t !in l && Sleeps(k, t, n, waiting)
    ensures Sleeps(PostAll(k, l, o, msg), t, n, waiting)
    decreases |l|
  {
    hide Post, Sleeps;
    if l != [] {
      if l[0] in k.tasks { PostSpares(k, l[0], o, msg, t, n, waiting); }
      PostAllSpares(if l[0] in k.tasks then Post(k, l[0], o, msg) else k, l[1..], o, msg, t, n, waiting);
    }
  }

  lemma CancelSpares(k: K, x: Tid, o: Oid, status: PendStatus, t: Tid, n: nat, waiting: bool)
    requires x in k.tasks && x != t && Sleeps(k, t, n, waiting)
    ensures Sleeps(Cancel(k, x, o, status), t, n, waiting)
  {
    hide Release, Mark;
    ReleaseSpares(k, x, Cancelled(k.tasks[x], o, status), t, n, waiting);
  }

  lemma {:induction false} CancelAllSpares(k: K, l: seq<Tid>, o: Oid, status: PendStatus, t: Tid, n: nat, waiting: bool)
    requires t !in l && Sleeps(k, t, n, waiting)
    ensures Sleeps(CancelAll(k, l, o, status), t, n, waiting)
    decreases |l|
  {
    hide Cancel, Sleeps;
    if l != [] {
      if l[0] in k.tasks { CancelSpares(k, l[0], o, status, t, n, waiting); }
      CancelAllSpares(if l[0] in k.tasks then Cancel(k, l[0], o, status) else k, l[1..], o, status, t, n, waiting);
    }
  }

  lemma {:induction false} FlagWakeSpares(k: K, l: seq<Tid>, bits: bv32, t: Tid, n: nat, waiting: bool)
    requires (t in l ==> !FlagHit(k, t, bits)) && Sleeps(k, t, n, waiting)
    ensures Sleeps(FlagWake(k, l, bits), t, n, waiting)
    decreases |l|
  {
    hide FlagRdy, Sleeps, RdyBits, Satisfied;
    if l != [] {
      if FlagHit(k, l[0], bits) {
        var rdy := RdyBits(bits, k.tasks[l[0]].flagsPend, k.tasks[l[0]].flagsMode);
        FlagRdySpares(k, l[0], rdy, t, n, waiting);
        FlagRdyOther(k, l[0], rdy, t);
        FlagWakeSpares(FlagRdy(k, l[0], rdy), l[1..], bits, t, n, waiting);
      } else {
        FlagWakeSpares(k, l[1..], bits, t, n, waiting);
      }
    }
  }

  lemma FlagRdyOther(k: K, x: Tid, rdy: bv32, t: Tid)
    requires x in k.tasks && x != t
    ensures var k' := FlagRdy(k, x, rdy);
      (t in k'.tasks <==> t in k.tasks) && (t in k.tasks ==> k'.tasks[t] == k.tasks[t])
  {
  }

  // A waiter whose condition is met is no longer delayed, whatever its state was.
  lemma {:induction false} FlagWakeWakes(k: K, l: seq<Tid>, bits: bv32, t: Tid)
    requires t in k.tasks && (k.tasks[t].st.dly ==> t in l && FlagHit(k, t, bits) && k.tasks[t].st.pend)
    ensures var k' := FlagWake(k, l, bits); t in k'.tasks && !k'.tasks[t].st.dly
    decreases |l|
  {
    hide FlagRdy, RdyBits, Satisfied;
    if l != [] {
      if FlagHit(k, l[0], bits) {
        var rdy := RdyBits(bits, k.tasks[l[0]].flagsPend, k.tasks[l[0]].flagsMode);
        if l[0] == t { FlagRdyEnds(k, t, rdy); } else { FlagRdyOther(k, l[0], rdy, t); }
        FlagWakeWakes(FlagRdy(k, l[0], rdy), l[1..], bits, t);
      } else {
        FlagWakeWakes(k, l[1..], bits, t);
      }
    }
  }

  lemma FlagRdyEnds(k: K, t: Tid, rdy: bv32)
    requires t in k.tasks && (k.tasks[t].st.dly ==> k.tasks[t].st.pend)
    ensures var k' := FlagRdy(k, t, rdy); t in k'.tasks && !k'.tasks[t].st.dly
  {
  }

  lemma FlagRdySpares(k: K, x: Tid, rdy: bv32, t: Tid, n: nat, waiting: bool)
    requires x in k.tasks && x != t && Sleeps(k, t, n, waiting)
    ensures Sleeps(FlagRdy(k, x, rdy), t, n, waiting)
  {
    hide Release, Unpend;
    ReleaseSpares(k, x, Freed(k.tasks[x].(flagsRdy := rdy), PendOk), t, n, waiting);
  }

  lemma PendSpares(k: K, on: PendOn, objs: seq<Oid>, timeout: Ticks.Tick, t: Tid, n: nat, waiting: bool)
    requires k.cur in k.tasks && k.cur != t && Sleeps(k, t, n, waiting)
    ensures Sleeps(Pend(k, on, objs, timeout), t, n, waiting)
  {
    hide Enlist, RdyRemove, FreshTable, Ticks.Minus, Ticks.Plus, Ticks.SpokeOf, Wheel.InsertPos;
  }

  lemma ReprioSpares(k: K, w: Tid, prio: Prio, place: Place, t: Tid, n: nat, waiting: bool)
    requires w in k.tasks && Sleeps(k, t, n, waiting)
    ensures Sleeps(Reprio(k, w, prio, place, true), t, n, waiting)
  {
    hide Enlist, Unpend, RdyPut, RdyRemove;
  }

  lemma SleeperParts(s: Sys, t: Tid, n: nat, waiting: bool)
    requires SysInv(s) && Sleeps(s.k, t, n, waiting)
    ensures t in s.k.tasks && Inv(s.k) && TcbOk(s.k.tasks[t])
    ensures forall o :: o in s.k.pend && t in s.k.pend[o] ==> s.k.tasks[t].st.pend && Waits(s.k.tasks, t, o)
    ensures s.k.cur in s.k.tasks && s.k.tasks[s.k.cur].st == RDY ==> s.k.cur != t
  {
  }

  // The services that wake waiters.
  lemma PosterSpares(s: Sys, op: Op, t: Tid, n: nat, waiting: bool)
    requires SysInv(s) && Allowed(s, op) && t in s.k.tasks && Leaves(s, op, t) && Sleeps(s.k, t, n, waiting)
    requires op.OpSemPost? || op.OpQPost? || op.OpFlagPost? || op.OpTaskQPost? || op.OpTaskSemPost?
    ensures Sleeps(Step(s, op).k, t, n, waiting)
  {
    hide SysInv, Inv, PostAll, FlagWake, Post, Sleeps, PostedBits, Chosen, FlagHit, SemPend, QPend, MultiPend, FlagPend,
         MutexPend, MutexPost, MutexDel, TaskQPend, CreateTask, DeleteTask, KernelRuns.Step, DelObj, FlagFinish,
         CreateObj;
    var k := s.k;
    match op
    case OpSemPost(o, all) => PostAllSpares(k, Chosen(k.pend[o], all), o, NULL_MSG, t, n, waiting);
    case OpQPost(o, msg, _, all, _) => PostAllSpares(k, Chosen(k.pend[o], all), o, msg, t, n, waiting);
    case OpFlagPost(o, flags, set_) =>
      FlagWakeSpares(k, k.pend[o], PostedBits(s.objs[o].bits, flags, set_), t, n, waiting);
    case OpTaskQPost(x, msg, _, _) => if x != t { PostSpares(k, x, 0, msg, t, n, waiting); }
    case OpTaskSemPost(x) => if x != t { PostSpares(k, x, 0, NULL_MSG, t, n, waiting); }
  }

  lemma PosterWakes(s: Sys, op: Op, t: Tid, n: nat, waiting: bool)
    requires SysInv(s) && Allowed(s, op) && t in s.k.tasks && !Leaves(s, op, t) && Sleeps(s.k, t, n, waiting)
    requires op.OpSemPost? || op.OpQPost? || op.OpFlagPost? || op.OpTaskQPost? || op.OpTaskSemPost?
    ensures !Sleeps(Step(s, op).k, t, n, waiting)
  {
    hide SysInv, Inv, PostAll, FlagWake, Post, PostedBits, FlagHit, SemPend, QPend, MultiPend, FlagPend, MutexPend,
         MutexPost, MutexDel, TaskQPend, CreateTask, DeleteTask, KernelRuns.Step, DelObj, FlagFinish, CreateObj, Waits;
    SleeperParts(s, t, n, waiting);
    var k := s.k;
    match op
    case OpSemPost(o, all) => PostAllWakes(k, o, all, NULL_MSG, t);
    case OpQPost(o, msg, _, all, _) => PostAllWakes(k, o, all, msg, t);
    case OpFlagPost(o, flags, set_) => FlagWakeWakes(k, k.pend[o], PostedBits(s.objs[o].bits, flags, set_), t);
    case OpTaskQPost(x, msg, _, _) => PostEnds(k, x, 0, msg);
    case OpTaskSemPost(x) => PostEnds(k, x, 0, NULL_MSG);
  }

  lemma PostAllWakes(k: K, o: Oid, all: bool, msg: Msg, t: Tid)
    requires Inv(k) && o in k.pend && t in Chosen(k.pend[o], all) && t in k.tasks
    ensures var k' := PostAll(k, Chosen(k.pend[o], all), o, msg);
      k.pend[o] != [] && t in k'.tasks && !k'.tasks[t].st.dly
  {
    hide Inv, PostAll, Shrinks;
    PostAllExact(k, o, all, msg);
  }

  lemma CancelAllWakes(k: K, o: Oid, all: bool, status: PendStatus, t: Tid)
    requires Inv(k) && o in k.pend && t in Chosen(k.pend[o], all) && t in k.tasks
    ensures var k' := CancelAll(k, Chosen(k.pend[o], all), o, status); t in k'.tasks && !k'.tasks[t].st.dly
  {
    hide Inv, CancelAll, Shrinks;
    CancelAllExact(k, o, all, status);
  }

  lemma PostEnds(k: K, t: Tid, o: Oid, msg: Msg)
    requires t in k.tasks && k.tasks[t].st.pend
    ensures var k' := Post(k, t, o, msg); t in k'.tasks && !k'.tasks[t].st.dly
  {
  }

  lemma CancellerSpares(s: Sys, op: Op, t: Tid, n: nat, waiting: bool)
    requires SysInv(s) && Allowed(s, op) && t in s.k.tasks && Leaves(s, op, t) && Sleeps(s.k, t, n, waiting)
    requires op.OpAbort? || op.OpDel?
    ensures Sleeps(Step(s, op).k, t, n, waiting)
  {
    hide SysInv, Inv, CancelAll, Sleeps, Chosen;
    var l := s.k.pend[op.o];
    if op.OpAbort? {
      CancelAllSpares(s.k, Chosen(l, op.all), op.o, PendAbort, t, n, waiting);
    } else if op.always || l == [] {
      CancelAllSpares(s.k, l, op.o, PendDel, t, n, waiting);
    }
  }

  lemma CancellerWakes(s: Sys, op: Op, t: Tid, n: nat, waiting: bool)
    requires SysInv(s) && Allowed(s, op) && t in s.k.tasks && !Leaves(s, op, t) && Sleeps(s.k, t, n, waiting)
    requires op.OpAbort? || op.OpDel?
    ensures !Sleeps(Step(s, op).k, t, n, waiting)
  {
    hide SysInv, Inv, CancelAll, Waits, TcbOk;
    SleeperParts(s, t, n, waiting);
    if op.OpAbort? {
      CancelAllWakes(s.k, op.o, op.all, PendAbort, t);
    } else {
      CancelAllWakes(s.k, op.o, true, PendDel, t);
    }
  }

  // The services that may make the running task wait.
  lemma WaiterSpares(s: Sys, op: Op, t: Tid, n: nat, waiting: bool)
    requires SysInv(s) && Allowed(s, op) && Sleeps(s.k, t, n, waiting)
    requires op.OpSemPend? || op.OpQPend? || op.OpMultiPend? || op.OpTaskQPend? || op.OpMutexPend?
    ensures Sleeps(Step(s, op).k, t, n, waiting)
  {
    hide SysInv, Inv, Pend, Sleeps, Reprio, TakeAll, SemPost, SemSet, QPost, QFlush, FlagPend, FlagFinish, FlagPost,
         MutexPost, PendAbortObj, DelObj, MutexDel, TaskQPost, TaskSemPost, CreateTask, DeleteTask, CreateObj,
         KernelRuns.Step;
    SleeperParts(s, t, n, waiting);
    var k := s.k;
    match op
    case OpSemPend(o, block, timeout) => if CanBlock(k, block) { PendSpares(k, OnSem, [o], timeout, t, n, waiting); }
    case OpQPend(o, block, timeout) => if CanBlock(k, block) { PendSpares(k, OnQ, [o], timeout, t, n, waiting); }
    case OpMultiPend(l, block, timeout) => if CanBlock(k, block) { PendSpares(k, OnMulti, l, timeout, t, n, waiting); }
    case OpTaskQPend(block, timeout) => if CanBlock(k, block) { PendSpares(k, OnTaskQ, [], timeout, t, n, waiting); }
    case OpMutexPend(o, block, timeout) =>
      if CanBlock(k, block) && !Gone(k, s.objs[o].owner) {
        var owner, prio := s.objs[o].owner, k.tasks[k.cur].prio;
        if owner.Task? { ReprioSpares(k, owner.t, prio, AtHead, t, n, waiting); }
        PendSpares(Boost(k, owner, prio), OnMutex, [o], timeout, t, n, waiting);
      }
  }

  lemma FlagPendSpares(s: Sys, op: Op, t: Tid, n: nat, waiting: bool)
    requires SysInv(s) && Allowed(s, op) && op.OpFlagPend? && Sleeps(s.k, t, n, waiting)
    ensures Sleeps(Step(s, op).k, t, n, waiting)
  {
    hide SysInv, Inv, Pend, RdyBits, Satisfied, Consumed;
    SleeperParts(s, t, n, waiting);
    PendSpares(WithFlags(s.k, op.flags, op.mode), OnFlag, [op.o], op.timeout, t, n, waiting);
  }

  lemma MutexPostSpares(s: Sys, o: Oid, t: Tid, n: nat, waiting: bool)
    requires SysInv(s) && IsMutex(s, o) && s.k.cur in s.k.tasks && Sleeps(s.k, t, n, waiting)
    requires HandsTo(s, o, t) ==> s.objs[o].owner != Task(s.k.cur) || s.objs[o].nest != 1
    ensures Sleeps(MutexPost(s, o).k, t, n, waiting)
  {
    hide SysInv, Inv, Post, Sleeps, Reprio;
    var k, m := s.k, s.objs[o];
    ReprioSpares(k, k.cur, m.orig, AtTail, t, n, waiting);
    PrioCurSpares(Reprio(k, k.cur, m.orig, AtTail, true), m.orig, t, n, waiting);
    if k.pend[o] != [] && k.pend[o][0] in k.tasks && k.pend[o][0] != t {
      ReprioKeys(k, k.cur, m.orig, AtTail);
      PostSpares(Unboost(k, m.orig), k.pend[o][0], o, NULL_MSG, t, n, waiting);
    }
  }

  lemma MutexPostWakes(s: Sys, o: Oid, t: Tid, n: nat, waiting: bool)
    requires SysInv(s) && IsMutex(s, o) && s.k.cur in s.k.tasks && Sleeps(s.k, t, n, waiting)
    requires HandsTo(s, o, t) && s.objs[o].owner == Task(s.k.cur) && s.objs[o].nest == 1
    ensures !Sleeps(MutexPost(s, o).k, t, n, waiting)
  {
    hide SysInv, Inv, Post, Reprio;
    SleeperParts(s, t, n, waiting);
    ReprioState(s.k, s.k.cur, s.objs[o].orig, t);
    PostEnds(Unboost(s.k, s.objs[o].orig), t, o, NULL_MSG);
  }

  lemma ReprioState(k: K, w: Tid, prio: Prio, t: Tid)
    requires w in k.tasks && t in k.tasks
    ensures var k' := Reprio(k, w, prio, AtTail, true);
      && k'.tasks.Keys == k.tasks.Keys && k'.tasks[t].st == k.tasks[t].st
      && k'.pend.Keys == k.pend.Keys && forall o :: Waits(k'.tasks, t, o) <==> Waits(k.tasks, t, o)
  {
    hide Enlist, Unpend, RdyPut, RdyRemove;
  }

  lemma PrioCurSpares(k: K, p: Prio, t: Tid, n: nat, waiting: bool)
    requires Sleeps(k, t, n, waiting)
    ensures Sleeps(k.(prioCur := p), t, n, waiting)
  {
  }

  // The list of the mutex when its owner has been lowered: in another order, perhaps.
  lemma StillListed(s: Sys, w: Tid, prio: Prio, o: Oid, t: Tid)
    requires SysInv(s) && w in s.k.tasks && o in s.k.pend && t in s.k.tasks
    ensures var s1 := s.(k := Reprio(s.k, w, prio, AtTail, true));
      SysInv(s1) && o in s1.k.pend && (t in s1.k.pend[o] <==> t in s.k.pend[o])
  {
    hide SysInv, Reprio, Waits;
    Reprioritised(s, w, prio, AtTail);
    ReprioState(s.k, w, prio, t);
    ListedWaits(s, o, t);
    ListedWaits(s.(k := Reprio(s.k, w, prio, AtTail, true)), o, t);
  }

  lemma ListedWaits(s: Sys, o: Oid, t: Tid)
    requires SysInv(s) && o in s.k.pend
    ensures t in s.k.pend[o] <==> Waits(s.k.tasks, t, o)
  {
  }

  lemma MutexDelSpares(s: Sys, o: Oid, always: bool, t: Tid, n: nat, waiting: bool)
    requires SysInv(s) && IsMutex(s, o) && t in s.k.tasks && Sleeps(s.k, t, n, waiting)
    requires always && !Gone(s.k, s.objs[o].owner) ==> t !in s.k.pend[o]
    ensures Sleeps(MutexDel(s, o, always).k, t, n, waiting)
  {
    hide SysInv, Inv, CancelAll, Sleeps, Reprio;
    var k, m := s.k, s.objs[o];
    if t !in k.pend[o] {
      CancelAllSpares(k, k.pend[o], o, PendDel, t, n, waiting);
      if m.owner.Task? && m.owner.t in k.tasks {
        ReprioSpares(k, m.owner.t, m.orig, AtTail, t, n, waiting);
        StillListed(s, m.owner.t, m.orig, o, t);
        var k1 := Reprio(k, m.owner.t, m.orig, AtTail, true);
        CancelAllSpares(k1, k1.pend[o], o, PendDel, t, n, waiting);
      }
    }
  }

  lemma MutexDelWakes(s: Sys, o: Oid, always: bool, t: Tid, n: nat, waiting: bool)
    requires SysInv(s) && IsMutex(s, o) && t in s.k.tasks && Sleeps(s.k, t, n, waiting)
    requires always && !Gone(s.k, s.objs[o].owner) && t in s.k.pend[o]
    ensures !Sleeps(MutexDel(s, o, always).k, t, n, waiting)
  {
    hide SysInv, Inv, CancelAll, Reprio, Sleeps;
    var m := s.objs[o];
    DelWakes(s, o, t, n, waiting);
    if m.owner.Task? {
      StillListed(s, m.owner.t, m.orig, o, t);
      ReprioSpares(s.k, m.owner.t, m.orig, AtTail, t, n, waiting);
      DelWakes(s.(k := Reprio(s.k, m.owner.t, m.orig, AtTail, true)), o, t, n, waiting);
    }
  }

  lemma DelWakes(s: Sys, o: Oid, t: Tid, n: nat, waiting: bool)
    requires SysInv(s) && Sleeps(s.k, t, n, waiting) && o in s.k.pend && t in s.k.pend[o]
    ensures !Sleeps(DelObj(s, o, true).k, t, n, waiting)
  {
    hide SysInv, Inv, CancelAll, Waits, TcbOk;
    SleeperParts(s, t, n, waiting);
    CancelAllWakes(s.k, o, true, PendDel, t);
  }

  lemma RestSpares(s: Sys, op: Op, t: Tid, n: nat, waiting: bool)
    requires Allowed(s, op) && t in s.k.tasks && Leaves(s, op, t) && Sleeps(s.k, t, n, waiting)
    requires op.OpCreateObj? || op.OpSemSet? || op.OpQFlush? || op.OpFlagFinish? || op.OpCreateTask? || op.OpDeleteTask?
    ensures Sleeps(Step(s, op).k, t, n, waiting)
  {
    hide Delete, Consumed;
    if op.OpDeleteTask? { DeleteSpares(s.k, op.t, t, n, waiting); }
  }

  lemma DeleteWakes(s: Sys, t: Tid, n: nat, waiting: bool)
    requires SysInv(s) && Sleeps(s.k, t, n, waiting)
    ensures t in s.k.tasks && !Sleeps(DeleteTask(s, t).k, t, n, waiting)
  {
    hide RdyInv, WheelInv, PendInv;
  }

  lemma StepSpares(s: Sys, op: Op, t: Tid, n: nat, waiting: bool)
    requires SysInv(s) && Allowed(s, op) && t in s.k.tasks && Leaves(s, op, t) && !op.OpKernel?
    requires Sleeps(s.k, t, n, waiting)
    ensures Sleeps(Step(s, op).k, t, n, waiting)
  {
    if op.OpMutexPost? {
      hide SysInv, Sleeps, MutexPost;
      MutexPostSpares(s, op.o, t, n, waiting);
    } else if op.OpMutexDel? {
      hide SysInv, Sleeps, MutexDel;
      MutexDelSpares(s, op.o, op.always, t, n, waiting);
    } else if op.OpFlagPend? {
      hide *;
      FlagPendSpares(s, op, t, n, waiting);
    } else if op.OpSemPend? || op.OpQPend? || op.OpMultiPend? || op.OpTaskQPend? || op.OpMutexPend? {
      hide *;
      WaiterSpares(s, op, t, n, waiting);
    } else if op.OpCreateObj? || op.OpSemSet? || op.OpQFlush? || op.OpFlagFinish? || op.OpCreateTask?
      || op.OpDeleteTask? {
      hide *;
      RestSpares(s, op, t, n, waiting);
    } else if op.OpAbort? || op.OpDel? {
      hide *;
      CancellerSpares(s, op, t, n, waiting);
    } else {
      hide *;
      PosterSpares(s, op, t, n, waiting);
    }
  }

  lemma StepWakes(s: Sys, op: Op, t: Tid, n: nat, waiting: bool)
    requires SysInv(s) && Allowed(s, op) && t in s.k.tasks && !Leaves(s, op, t) && !op.OpKernel?
    requires Sleeps(s.k, t, n, waiting)
    ensures !Sleeps(Step(s, op).k, t, n, waiting)
  {
    hide SysInv, Sleeps, FlagHit, Chosen, HandsTo, SemPend, SemPost, SemSet, QPend, QPost, QFlush, MultiPend, FlagPend,
         FlagFinish, FlagPost, MutexPend, MutexPost, PendAbortObj, DelObj, MutexDel, TaskQPend, TaskQPost, TaskSemPost,
         CreateTask, DeleteTask, CreateObj, KernelRuns.Step, KernelRuns.Allowed, Quiet, MultiValid, Newborn;
    match op
    case OpMutexPost(o) => MutexPostWakes(s, o, t, n, waiting);
    case OpMutexDel(o, always) => MutexDelWakes(s, o, always, t, n, waiting);
    case OpDeleteTask(_) => DeleteWakes(s, t, n, waiting);
    case OpAbort(_, _) => CancellerWakes(s, op, t, n, waiting);
    case OpDel(_, _) => CancellerWakes(s, op, t, n, waiting);
    case _ => PosterWakes(s, op, t, n, waiting);
  }

  // A call other than a tick leaves a sleeper asleep, with as many ticks to go, exactly when it is
  // not one of those that Leaves names.
  lemma SleepsOnIff(s: Sys, op: Op, t: Tid, n: nat, waiting: bool)
    requires SysInv(s) && Allowed(s, op) && op != OpKernel(KernelRuns.OpTick) && Sleeps(s.k, t, n, waiting)
    ensures t in s.k.tasks && (Sleeps(Step(s, op).k, t, n, waiting) <==> Leaves(s, op, t))
  {
    hide SysInv, Inv, TcbOk, Waits, Sleeps;
    SleeperParts(s, t, n, waiting);
    if op.OpKernel? {
      hide KernelRuns.Step, KernelRuns.Allowed, Spares;
      SleepsOn(s.k, op.op, t, n, waiting);
    } else {
      hide Step, Allowed, Leaves;
      if Leaves(s, op, t) { StepSpares(s, op, t, n, waiting); } else { StepWakes(s, op, t, n, waiting); }
    }
  }

  // ---------------------------------------------------------------- whole runs

  function TicksIn(ops: seq<Op>): nat {
    if ops == [] then 0 else (if ops[0] == OpKernel(KernelRuns.OpTick) then 1 else 0) + TicksIn(ops[1..])
  }

  ghost predicate LeftAlone(s: Sys, ops: seq<Op>, t: Tid)
    requires Legal(s, ops)
    decreases |ops|
  {
    ops == [] || (t in s.k.tasks && Leaves(s, ops[0], t) && LeftAlone(Step(s, ops[0]), ops[1..], t))
  }

  // A task that sleeps r ticks, delayed or waiting with a timeout, and is woken by no call, still
  // sleeps after fewer than r ticks, whatever all tasks do in between; the r-th tick wakes it.
  lemma {:induction false} WakesOnTime(s: Sys, t: Tid, r: nat, waiting: bool, ops: seq<Op>)
    requires SysInv(s) && Legal(s, ops) && LeftAlone(s, ops, t) && Sleeps(s.k, t, r, waiting) && TicksIn(ops) < r
    ensures var s1 := Run(s, ops);
      && SysInv(s1) && Sleeps(s1.k, t, r - TicksIn(ops), waiting)
      && (TicksIn(ops) == r - 1 ==>
           var k2 := KernelRuns.Tick(s1.k);
           && Inv(k2) && t in s1.k.tasks && t in k2.tasks && t !in k2.wheel.due
           && k2.tasks[t].st == TaskState(s1.k.tasks[t].st.susp, false, false)
           && (waiting ==> Woken(s1.k, k2, t, PendTimeout)))
    decreases |ops|
  {
    hide SysInv, Inv, Step, Allowed, Broken, Leaves, Sleeps, KernelRuns.Tick, Woken;
    SleeperParts(s, t, r, waiting);
    if ops == [] {
      LastTick(s.k, t, waiting);
    } else {
      StepKeeps(s, ops[0]);
      if ops[0] == OpKernel(KernelRuns.OpTick) {
        TickIs(s);
        SleepsThroughTick(s.k, t, r, waiting);
        WakesOnTime(Step(s, ops[0]), t, r - 1, waiting, ops[1..]);
      } else {
        SleepsOnIff(s, ops[0], t, r, waiting);
        WakesOnTime(Step(s, ops[0]), t, r, waiting, ops[1..]);
      }
    }
  }

  lemma TickIs(s: Sys)
    ensures var op := OpKernel(KernelRuns.OpTick); Allowed(s, op) && Step(s, op).k == KernelRuns.Tick(s.k)
  {
  }
}
