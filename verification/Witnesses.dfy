// States that the kernel reaches from its start, each one call away from breaking the property
// that the theorems except it from.

module Witnesses {
  import opened Lists
  import opened Tasks
  import opened FlagBits
  import opened KernelState
  import opened KernelSteps
  import opened ObjectSpec
  import opened ObjectInv
  import opened ObjectSteps
  import opened ObjectRuns
  import opened TickRuns
  import KernelRuns
  import PrioCur
  import Ticks
  import Wheel = TickWheelSpec

  ghost predicate Reachable(s: Sys) {
    exists ops :: ObjectRuns.Legal(Initial(1), ops) && ObjectRuns.Run(Initial(1), ops) == s
  }

  lemma {:induction false} RunOneMore(s: Sys, ops: seq<ObjectRuns.Op>, op: ObjectRuns.Op)
    requires ObjectRuns.Legal(s, ops)
    requires var s' := ObjectRuns.Run(s, ops); Allowed(s', op) && !Broken(s', op)
    ensures ObjectRuns.Legal(s, ops + [op])
      && ObjectRuns.Run(s, ops + [op]) == ObjectRuns.Step(ObjectRuns.Run(s, ops), op)
    decreases |ops|
  {
    hide Allowed, Broken, ObjectRuns.Step;
    if ops == [] {
      assert ops + [op] == [op] && [op][1..] == [];
    } else {
      assert (ops + [op])[1..] == ops[1..] + [op];
      RunOneMore(ObjectRuns.Step(s, ops[0]), ops[1..], op);
    }
  }

  lemma FromStart()
    ensures Reachable(Initial(1)) && SysInv(Initial(1))
  {
    assert ObjectRuns.Legal(Initial(1), []) && ObjectRuns.Run(Initial(1), []) == Initial(1);
    InitialKeeps(1);
  }

  // One more call.
  lemma Then(s: Sys, op: ObjectRuns.Op) returns (s': Sys)
    requires Reachable(s) && SysInv(s) && Allowed(s, op) && !Broken(s, op)
    ensures Reachable(s') && SysInv(s') && s' == ObjectRuns.Step(s, op)
  {
    hide SysInv, Allowed, Broken, ObjectRuns.Step;
    s' := ObjectRuns.Step(s, op);
    StepKeeps(s, op);
    var ops :| ObjectRuns.Legal(Initial(1), ops) && ObjectRuns.Run(Initial(1), ops) == s;
    RunOneMore(Initial(1), ops, op);
  }

  // OSSched, when the best non-empty list is that of p.
  lemma ThenSched(s: Sys, p: Prio) returns (s': Sys)
    requires Reachable(s) && SysInv(s) && s.k.schedLock == 0
    requires s.k.rdy[p] != [] && forall q :: 0 <= q < p ==> s.k.rdy[q] == []
    ensures Reachable(s') && SysInv(s')
    ensures s' == if s.k.rdy[p][0] == s.k.cur then s else s.(k := s.k.(cur := s.k.rdy[p][0], prioCur := p))
  {
    hide SysInv, Reachable, Allowed, Broken, ObjectRuns.Step, KernelRuns.Sched;
    SchedStep(s);
    Picks(s.k, p);
    s' := Then(s, OpKernel(KernelRuns.OpSched));
  }

  lemma SchedStep(s: Sys)
    ensures var op := OpKernel(KernelRuns.OpSched);
      Allowed(s, op) && !Broken(s, op) && ObjectRuns.Step(s, op) == s.(k := KernelRuns.Sched(s.k))
  {
  }

  lemma Picks(k: K, p: Prio)
    requires k.schedLock == 0 && k.rdy[p] != [] && forall q :: 0 <= q < p ==> k.rdy[q] == []
    ensures KernelRuns.Sched(k) == if k.rdy[p][0] == k.cur then k else k.(cur := k.rdy[p][0], prioCur := p)
  {
    assert KernelRuns.Highest(k.rdy, 0) == p;
  }

  lemma ThenTask(s: Sys, t: Tid, prio: Prio) returns (s': Sys)
    requires Reachable(s) && SysInv(s) && t !in s.k.tasks
    ensures Reachable(s') && SysInv(s') && s'.objs == s.objs && s'.k == Create(s.k, t, prio)
  {
    hide SysInv, Reachable;
    s' := Then(s, OpCreateTask(t, prio, 0));
  }

  lemma ThenObject(s: Sys, o: Oid, b: Obj) returns (s': Sys)
    requires Reachable(s) && SysInv(s) && o !in s.objs && Newborn(b)
    ensures Reachable(s') && SysInv(s') && s'.objs == s.objs[o := b] && s'.k == s.k.(pend := s.k.pend[o := []])
  {
    hide SysInv, Reachable;
    s' := Then(s, OpCreateObj(o, b));
  }

  // Who is ready: three lists above the one of the idle task.
  ghost predicate Ready(k: K, a: seq<Tid>, b: seq<Tid>, c: seq<Tid>) {
    && k.rdy[5] == a && k.rdy[6] == b && k.rdy[7] == c && k.rdy[PRIO_MAX - 1] == [IDLE]
    && forall p :: 0 <= p < PRIO_MAX && p != 5 && p != 6 && p != 7 && p != PRIO_MAX - 1 ==> k.rdy[p] == []
  }

  // Three tasks, of priorities 5, 6 and 7, and one object; the most urgent task runs.
  ghost predicate Started(s: Sys, b: Obj) {
    && s.k.tasks == map[IDLE := NewTcb(PRIO_MAX - 1), 1 := NewTcb(5), 2 := NewTcb(6), 3 := NewTcb(7)]
    && s.objs == map[9 := b] && s.k.pend == map[9 := []] && Ready(s.k, [1], [2], [3])
    && s.k.wheel == KernelRuns.Initial(1).wheel && s.k.cur == 1 && s.k.prioCur == 5 && s.k.schedLock == 0
  }

  lemma Start(b: Obj) returns (s: Sys)
    requires Newborn(b)
    ensures Reachable(s) && SysInv(s) && Started(s, b)
  {
    hide SysInv, Reachable, NewTcb;
    FromStart();
    s := ThenObject(Initial(1), 9, b);
    s := ThenTask(s, 1, 5);
    s := ThenTask(s, 2, 6);
    s := ThenTask(s, 3, 7);
    s := ThenSched(s, 5);
  }

  // ---------------------------------------------------------------- event flags

  // The running task waits for flag 1 of the group.
  ghost predicate Waiting(s: Sys, s': Sys, mode: FlagMode, timeout: Ticks.Tick)
    requires s.k.cur in s.k.tasks && 9 in s.k.pend
  {
    var t := s.k.cur;
    && s'.objs == s.objs && s'.k.cur == t && s'.k.schedLock == s.k.schedLock && s'.k.prioCur == s.k.prioCur
    && s'.k.tasks.Keys == s.k.tasks.Keys && (forall x :: x in s.k.tasks && x != t ==> s'.k.tasks[x] == s.k.tasks[x])
    && s'.k.tasks[t] == s.k.tasks[t].(st := if timeout > 0 then PEND_TIMEOUT else PEND, pendOn := OnFlag,
         status := PendOk, table := [PendData(9, false, NULL_MSG)], linked := true,
         flagsPend := 1, flagsMode := mode, flagsRdy := 0)
    && s'.k.rdy == RdyRemove(s.k.rdy, s.k.tasks[t].prio, t)
    && s'.k.pend.Keys == s.k.pend.Keys && s'.k.pend[9] == InsertPrio(s.k.tasks, s.k.pend[9], t, s.k.tasks[t].prio)
  }

  lemma ThenWait(s: Sys, mode: FlagMode, timeout: Ticks.Tick) returns (s': Sys)
    requires Reachable(s) && SysInv(s) && Runs(s.k) && IsFlags(s, 9) && !Satisfied(s.objs[9].bits, 1, mode)
    ensures Reachable(s') && SysInv(s') && Waiting(s, s', mode, timeout)
  {
    hide SysInv, Reachable, Allowed, Broken, ObjectRuns.Step, Waiting;
    var op := OpFlagPend(9, 1, mode, false, true, timeout);
    WaitStep(s, mode, timeout);
    s' := Then(s, op);
    WaitIs(s, mode, timeout);
  }

  lemma WaitStep(s: Sys, mode: FlagMode, timeout: Ticks.Tick)
    requires Runs(s.k) && IsFlags(s, 9) && !Satisfied(s.objs[9].bits, 1, mode)
    ensures var op := OpFlagPend(9, 1, mode, false, true, timeout);
      && Allowed(s, op) && !Broken(s, op)
      && ObjectRuns.Step(s, op) == s.(k := Pend(WithFlags(s.k, 1, mode), OnFlag, [9], timeout))
  {
    hide Satisfied, RdyBits, Consumed, Pend;
  }

  lemma WaitIs(s: Sys, mode: FlagMode, timeout: Ticks.Tick)
    requires Runs(s.k) && IsFlags(s, 9)
    ensures Waiting(s, s.(k := Pend(WithFlags(s.k, 1, mode), OnFlag, [9], timeout)), mode, timeout)
  {
    hide RdyRemove, InsertPrio, Wheel.Insert;
    var k1 := WithFlags(s.k, 1, mode);
    var table := FreshTable([9]);
    assert table == [PendData(9, false, NULL_MSG)];
    assert 9 in Objects(table) by { assert table[0].obj == 9; }
    SamePlace(s.k.tasks, k1.tasks, s.k.pend[9], s.k.cur, s.k.tasks[s.k.cur].prio);
  }

  lemma SamePlace(tasks: map<Tid, Tcb>, tasks': map<Tid, Tcb>, l: seq<Tid>, t: Tid, prio: nat)
    requires tasks'.Keys == tasks.Keys && forall x :: x in tasks ==> tasks'[x].prio == tasks[x].prio
    ensures InsertPrio(tasks', l, t, prio) == InsertPrio(tasks, l, t, prio)
  {
    SamePos(tasks, tasks', l, prio);
  }

  lemma {:induction false} SamePos(tasks: map<Tid, Tcb>, tasks': map<Tid, Tcb>, l: seq<Tid>, prio: nat)
    requires tasks'.Keys == tasks.Keys && forall x :: x in tasks ==> tasks'[x].prio == tasks[x].prio
    ensures PrioPos(tasks', l, prio) == PrioPos(tasks, l, prio)
  {
    if l != [] { SamePos(tasks, tasks', l[1..], prio); }
  }

  lemma ToEmpty(tasks: map<Tid, Tcb>, t: Tid, prio: nat)
    ensures InsertPrio(tasks, [], t, prio) == [t] && Without([t], t) == []
  {
  }

  // A waiter with a timeout, suspended by another task, about to be posted to.
  lemma CanMishandle() returns (s: Sys)
    ensures Reachable(s) && SysInv(s) && IsFlags(s, 9) && 1 in s.k.tasks && s.k.tasks[1].st == PEND_TIMEOUT_SUSPENDED
    ensures Allowed(s, OpFlagPost(9, 1, true)) && !SysInv(ObjectRuns.Step(s, OpFlagPost(9, 1, true)))
  {
    hide SysInv, Reachable, Waiting, Started;
    s := Start(Flags(0));
    var s0 := s;
    StartedRuns(s, Flags(0));
    SetNotYet(0);
    s := ThenWait(s, SetAll, 100);
    var s1 := s;
    FirstWaits(s0, s1, Flags(0), SetAll, 100);
    s := ThenSched(s, 6);
    var s2 := s;
    SuspendStep(s2);
    s := Then(s, OpKernel(KernelRuns.OpSuspend(1)));
    PostBreaks(s, 1);
  }

  lemma SetNotYet(bits: bv32)
    requires bits == 0
    ensures !Satisfied(bits, 1, SetAll)
  {
  }

  lemma StartedRuns(s: Sys, b: Obj)
    requires Started(s, b)
    ensures Runs(s.k) && 9 in s.objs && s.objs[9] == b && 9 in s.k.pend
  {
  }

  // What the second task finds when the first one waits.
  ghost predicate OneWaits(s: Sys, b: Obj, mode: FlagMode, timeout: Ticks.Tick) {
    && s.objs == map[9 := b] && 9 in s.k.pend && s.k.pend[9] == [1] && Ready(s.k, [], [2], [3]) && s.k.schedLock == 0
    && s.k.tasks.Keys == {IDLE, 1, 2, 3} && s.k.tasks[2] == NewTcb(6) && s.k.tasks[3] == NewTcb(7)
    && s.k.tasks[1].st == (if timeout > 0 then PEND_TIMEOUT else PEND) && s.k.tasks[1].pendOn == OnFlag
    && s.k.tasks[1].flagsPend == 1 && s.k.tasks[1].flagsMode == mode && s.k.tasks[1].prio == 5
    && s.k.tasks[1].suspendCtr == 0
  }

  lemma FirstWaits(s: Sys, s': Sys, b: Obj, mode: FlagMode, timeout: Ticks.Tick)
    requires Started(s, b) && Waiting(s, s', mode, timeout)
    ensures OneWaits(s', b, mode, timeout)
    ensures s'.k.schedLock == 0 && s'.k.rdy[6] == [2] && s'.k.cur == 1 && forall q :: 0 <= q < 6 ==> s'.k.rdy[q] == []
  {
    ToEmpty(s.k.tasks, 1, 5);
  }

  lemma SuspendStep(s: Sys)
    requires 1 in s.k.tasks && s.k.tasks[1].suspendCtr == 0 && s.k.tasks[1].st == PEND_TIMEOUT && s.k.cur != 1
    ensures var op := OpKernel(KernelRuns.OpSuspend(1));
      && Allowed(s, op) && !Broken(s, op)
      && ObjectRuns.Step(s, op) ==
           s.(k := s.k.(tasks := s.k.tasks[1 := s.k.tasks[1].(st := PEND_TIMEOUT_SUSPENDED, suspendCtr := 1)]))
  {
  }

  lemma PostBreaks(s: Sys, t: Tid)
    requires SysInv(s) && IsFlags(s, 9) && t in s.k.tasks && t in s.k.pend[9]
      && s.k.tasks[t].st == PEND_TIMEOUT_SUSPENDED
    requires s.objs[9].bits == 0 && s.k.tasks[t].flagsPend == 1 && s.k.tasks[t].flagsMode == SetAll
    ensures Allowed(s, OpFlagPost(9, 1, true)) && !SysInv(ObjectRuns.Step(s, OpFlagPost(9, 1, true)))
  {
    hide SysInv, FlagWake;
    var op := OpFlagPost(9, 1, true);
    assert PostedBits(0, 1, true) == 1 && Satisfied(1, 1, SetAll);
    assert FlagHit(s.k, t, 1);
    assert !NoneMishandled(s.k, s.k.pend[9], 1);
    FlagPostKeeps(s, 9, 1, true);
  }

  // A consumer about to leave behind what a waiter of the other polarity waits for.
  lemma CanOverlook() returns (s: Sys)
    ensures Reachable(s) && SysInv(s) && IsFlags(s, 9) && 1 in s.k.pend[9]
    ensures var op := OpFlagPend(9, 1, SetAll, true, false, 0); Allowed(s, op) && !SysInv(ObjectRuns.Step(s, op))
  {
    hide SysInv, Reachable, Waiting, Started, Satisfied;
    s := Start(Flags(1));
    var s0 := s;
    StartedRuns(s, Flags(1));
    OneConsumed();
    s := ThenWait(s, ClrAll, 0);
    var s1 := s;
    FirstWaits(s0, s1, Flags(1), ClrAll, 0);
    s := ThenSched(s, 6);
    ConsumeBreaks(s);
  }

  lemma OneConsumed()
    ensures !Satisfied(1, 1, ClrAll) && Satisfied(1, 1, SetAll)
    ensures Satisfied(Consumed(1, RdyBits(1, 1, SetAll), SetAll), 1, ClrAll)
  {
  }

  lemma ConsumeBreaks(s: Sys)
    requires SysInv(s) && OneWaits(s, Flags(1), ClrAll, 0) && s.k.cur == 2
    ensures var op := OpFlagPend(9, 1, SetAll, true, false, 0); Allowed(s, op) && !SysInv(ObjectRuns.Step(s, op))
  {
    hide SysInv, Satisfied, Consumed, RdyBits;
    OneConsumed();
    assert 1 in s.k.pend[9] && FlagHit(s.k, 1, Consumed(1, RdyBits(1, 1, SetAll), SetAll));
    FlagPendKeeps(s, 9, 1, SetAll, true, false, 0);
  }

  // Two waiters on a group, the second about to become more urgent than the first.
  lemma CanMisorder() returns (s: Sys)
    ensures Reachable(s) && SysInv(s) && IsFlags(s, 9) && s.k.pend[9] == [1, 2]
    ensures var op := OpKernel(KernelRuns.OpChangePrio(2, 4, false)); Allowed(s, op) && !SysInv(ObjectRuns.Step(s, op))
  {
    hide SysInv, Reachable, Waiting, Started, Satisfied;
    s := Start(Flags(0));
    var s0 := s;
    StartedRuns(s, Flags(0));
    NoneSet();
    s := ThenWait(s, SetAll, 0);
    var s1 := s;
    FirstWaits(s0, s1, Flags(0), SetAll, 0);
    s := ThenSched(s, 6);
    var s2 := s;
    s := ThenWait(s, SetAll, 0);
    SecondWaits(s2, s);
    var s3 := s;
    s := ThenSched(s, 7);
    ReorderBreaks(s);
  }

  lemma NoneSet()
    ensures !Satisfied(0, 1, SetAll)
  {
  }

  lemma SecondWaits(s: Sys, s': Sys)
    requires OneWaits(s, Flags(0), SetAll, 0) && s.k.cur == 2 && Waiting(s, s', SetAll, 0)
    ensures s'.k.pend[9] == [1, 2] && Ready(s'.k, [], [], [3]) && s'.k.schedLock == 0 && s'.k.cur == 2 && IsFlags(s', 9)
    ensures 1 in s'.k.tasks && 2 in s'.k.tasks && s'.k.tasks[1].prio == 5 && s'.k.tasks[2].prio == 6
    ensures s'.k.tasks[2].pendOn == OnFlag && s'.k.tasks[2].table == [PendData(9, false, NULL_MSG)]
    ensures forall q :: 0 <= q < 7 ==> s'.k.rdy[q] == []
  {
    ToEmpty(s.k.tasks, 2, 6);
    var l := s.k.pend[9];
    assert l[1..] == [];
    assert PrioPos(s.k.tasks, l[1..], 6) == 0;
    assert PrioPos(s.k.tasks, l, 6) == 1;
    assert InsertAt([1], 1, 2) == [1, 2];
  }

  lemma ReorderBreaks(s: Sys)
    requires SysInv(s) && 9 in s.k.pend && s.k.pend[9] == [1, 2] && 1 in s.k.tasks && 2 in s.k.tasks
    requires s.k.tasks[1].prio == 5 && s.k.tasks[2].pendOn == OnFlag
      && s.k.tasks[2].table == [PendData(9, false, NULL_MSG)]
    ensures var op := OpKernel(KernelRuns.OpChangePrio(2, 4, false)); Allowed(s, op) && !SysInv(ObjectRuns.Step(s, op))
  {
    hide SysInv;
    var op := OpKernel(KernelRuns.OpChangePrio(2, 4, false));
    assert s.k.pend[9][1] == 2 && s.k.pend[9][0] == 1;
    assert !Fits(s.k.tasks, s.k.pend[9], 2, 4);
    StepKeeps(s, op);
  }

  // ---------------------------------------------------------------- delays, nesting, priorities

  // The first task about to wait for the tick that is now.
  lemma CanMatchNow() returns (s: Sys)
    ensures Reachable(s) && SysInv(s)
    ensures var op := OpKernel(KernelRuns.OpDly(s.k.wheel.ctr, Match));
      Allowed(s, op) && !SysInv(ObjectRuns.Step(s, op))
  {
    hide SysInv, Reachable;
    s := Start(Flags(0));
    MatchBreaks(s);
  }

  lemma MatchBreaks(s: Sys)
    requires SysInv(s) && Started(s, Flags(0))
    ensures var op := OpKernel(KernelRuns.OpDly(s.k.wheel.ctr, Match));
      Allowed(s, op) && !SysInv(ObjectRuns.Step(s, op))
  {
    hide SysInv;
    StepKeeps(s, OpKernel(KernelRuns.OpDly(s.k.wheel.ctr, Match)));
  }

  // The running task about to raise its own priority: it runs on, and OSPrioCur is stale.
  lemma CanGoStale() returns (s: Sys)
    ensures Reachable(s) && SysInv(s) && PrioCur.Running(s.k)
    ensures var op := OpKernel(KernelRuns.OpChangePrio(1, 4, true));
      Allowed(s, op) && !Broken(s, op) && !PrioCur.UpToDate(KernelRuns.Sched(ObjectRuns.Step(s, op).k))
  {
    hide SysInv, Reachable;
    s := Start(Flags(0));
    RaiseStales(s);
  }

  lemma RaiseStales(s: Sys)
    requires SysInv(s) && Started(s, Flags(0))
    ensures PrioCur.Running(s.k)
    ensures var op := OpKernel(KernelRuns.OpChangePrio(1, 4, true));
      Allowed(s, op) && !Broken(s, op) && !PrioCur.UpToDate(KernelRuns.Sched(ObjectRuns.Step(s, op).k))
  {
    hide SysInv, KernelRuns.Sched, ObjectRuns.Step;
    var op := OpKernel(KernelRuns.OpChangePrio(1, 4, true));
    assert PrioCur.GoesStale(s, op);
    PrioCur.PrioCurTracks(s, op);
  }

  // The running task with the scheduler locked, about to delete itself: no task runs, and
  // OSPrioCur is nobody's priority.
  lemma CanGoStaleLocked() returns (s: Sys)
    ensures Reachable(s) && SysInv(s) && PrioCur.Running(s.k) && s.k.schedLock == 1 && s.k.cur == 1
    ensures Allowed(s, OpDeleteTask(1)) && !Broken(s, OpDeleteTask(1))
    ensures var k' := KernelRuns.Sched(ObjectRuns.Step(s, OpDeleteTask(1)).k);
      k'.cur == 1 && 1 !in k'.tasks && !PrioCur.UpToDate(k')
  {
    hide SysInv, Reachable;
    s := Start(Flags(0));
    LockIs(s);
    s := Then(s, OpKernel(KernelRuns.OpLock));
    LockedDeletion(s);
  }

  lemma LockIs(s: Sys)
    requires s.k.schedLock == 0
    ensures var op := OpKernel(KernelRuns.OpLock);
      Allowed(s, op) && !Broken(s, op) && ObjectRuns.Step(s, op) == s.(k := s.k.(schedLock := 1))
  {
  }

  lemma LockedDeletion(s: Sys)
    requires 1 in s.k.tasks && s.k.cur == 1 && s.k.schedLock == 1
    ensures Allowed(s, OpDeleteTask(1)) && !Broken(s, OpDeleteTask(1))
    ensures var k' := KernelRuns.Sched(ObjectRuns.Step(s, OpDeleteTask(1)).k);
      k'.cur == 1 && 1 !in k'.tasks && !PrioCur.UpToDate(k')
  {
    hide RdyRemove, Unpend, Wheel.Remove;
  }

  // The first task holding a mutex n times over.
  lemma {:induction false} Nested(n: nat) returns (s: Sys)
    requires 1 <= n <= NEST_MAX
    ensures Reachable(s) && SysInv(s) && IsMutex(s, 9) && s.objs[9].owner == Task(1) && s.objs[9].nest == n
    ensures s.k.cur == 1 && Runs(s.k)
    decreases n
  {
    hide SysInv, Reachable, Allowed, Broken, ObjectRuns.Step;
    if n == 1 {
      s := Start(Mutex(Nobody, 0, 0));
      StartedRuns(s, Mutex(Nobody, 0, 0));
      RunsOwn(s);
    } else {
      s := Nested(n - 1);
    }
    TakeStep(s);
    s := Then(s, OpMutexPend(9, false, 0));
  }

  lemma RunsOwn(s: Sys)
    requires Started(s, Mutex(Nobody, 0, 0))
    ensures s.k.cur == 1
  {
  }

  lemma TakeStep(s: Sys)
    requires IsMutex(s, 9) && s.k.cur == 1 && Runs(s.k)
    requires var m := s.objs[9]; m.nest == 0 || (m.owner == Task(1) && m.nest < NEST_MAX)
    ensures var op := OpMutexPend(9, false, 0); var s' := ObjectRuns.Step(s, op); var m := s.objs[9];
      && Allowed(s, op) && !Broken(s, op) && s'.k == s.k
      && s'.objs == s.objs[9 := if m.nest == 0 then Mutex(Task(1), s.k.tasks[1].prio, 1) else m.(nest := m.nest + 1)]
  {
  }

  lemma CanNestTooOften() returns (s: Sys)
    ensures Reachable(s) && SysInv(s)
    ensures var op := OpMutexPend(9, false, 0); Allowed(s, op) && !SysInv(ObjectRuns.Step(s, op))
  {
    hide SysInv, Reachable;
    s := Nested(NEST_MAX);
    MutexPendKeeps(s, 9, false, 0);
  }

  // The second task suspended n times over.
  lemma {:induction false} Suspended(n: nat) returns (s: Sys)
    requires n <= SUSPEND_MAX
    ensures Reachable(s) && SysInv(s) && 2 in s.k.tasks && s.k.tasks[2].suspendCtr == n
      && (s.k.tasks[2].st.susp <==> n > 0)
    ensures s.k.cur == 1
    decreases n
  {
    hide SysInv, Reachable, Allowed, Broken, ObjectRuns.Step;
    if n == 0 {
      s := Start(Flags(0));
    } else {
      s := Suspended(n - 1);
      SuspendAgain(s);
      s := Then(s, OpKernel(KernelRuns.OpSuspend(2)));
    }
  }

  lemma SuspendAgain(s: Sys)
    requires s.k.cur == 1 && 2 in s.k.tasks && s.k.tasks[2].suspendCtr < SUSPEND_MAX
    requires s.k.tasks[2].st.susp <==> s.k.tasks[2].suspendCtr > 0
    ensures var op := OpKernel(KernelRuns.OpSuspend(2)); var s' := ObjectRuns.Step(s, op);
      && Allowed(s, op) && !Broken(s, op) && s'.k.cur == 1 && 2 in s'.k.tasks
      && s'.k.tasks[2].suspendCtr == s.k.tasks[2].suspendCtr + 1 && s'.k.tasks[2].st.susp
  {
    hide RdyRemove;
  }

  lemma CanSuspendTooOften() returns (s: Sys)
    ensures Reachable(s) && SysInv(s)
    ensures var op := OpKernel(KernelRuns.OpSuspend(2)); Allowed(s, op) && !SysInv(ObjectRuns.Step(s, op))
  {
    hide SysInv, Reachable;
    s := Suspended(SUSPEND_MAX);
    StepKeeps(s, OpKernel(KernelRuns.OpSuspend(2)));
  }

  // ---------------------------------------------------------------- a boost that outlives its cause

  // Task 2 runs and owns the mutex.
  ghost predicate Owned(s: Sys) {
    && s.k.tasks == map[IDLE := NewTcb(PRIO_MAX - 1), 2 := NewTcb(6)] && s.objs == map[9 := Mutex(Task(2), 6, 1)]
    && s.k.pend == map[9 := []] && Ready(s.k, [], [2], []) && s.k.cur == 2 && s.k.schedLock == 0
  }

  lemma Owns() returns (s: Sys)
    ensures Reachable(s) && SysInv(s) && Owned(s)
  {
    hide SysInv, Reachable, NewTcb;
    NewTcbs();
    FromStart();
    s := ThenObject(Initial(1), 9, Mutex(Nobody, 0, 0));
    s := ThenTask(s, 2, 6);
    s := ThenSched(s, 6);
    OwnStep(s);
    s := Then(s, OpMutexPend(9, false, 0));
  }

  lemma OwnStep(s: Sys)
    requires s.k.cur in s.k.tasks && IsMutex(s, 9) && s.objs[9].nest == 0 && s.objs[9].owner == Nobody
    ensures var op := OpMutexPend(9, false, 0);
      && Allowed(s, op) && !Broken(s, op)
      && ObjectRuns.Step(s, op) == s.(objs := s.objs[9 := Mutex(Task(s.k.cur), s.k.tasks[s.k.cur].prio, 1)])
  {
  }

  // Task 1, more urgent, has come to wait for it and lent its priority.
  ghost predicate Boosted(s: Sys) {
    && s.k.tasks.Keys == {IDLE, 1, 2} && s.k.tasks[IDLE] == NewTcb(PRIO_MAX - 1)
    && s.k.tasks[2] == NewTcb(6).(prio := 5)
    && s.k.tasks[1] == NewTcb(5).(st := PEND, pendOn := OnMutex, table := [PendData(9, false, NULL_MSG)],
      linked := true)
    && s.objs == map[9 := Mutex(Task(2), 6, 1)] && s.k.pend == map[9 := [1]] && Ready(s.k, [2], [], [])
    && s.k.schedLock == 0
  }

  ghost predicate Joined(s: Sys) {
    && s.k.tasks == map[IDLE := NewTcb(PRIO_MAX - 1), 1 := NewTcb(5), 2 := NewTcb(6)]
    && s.objs == map[9 := Mutex(Task(2), 6, 1)]
    && s.k.pend == map[9 := []] && Ready(s.k, [1], [2], []) && s.k.schedLock == 0
  }

  lemma Joins(s: Sys, s': Sys)
    requires Owned(s) && s'.objs == s.objs && s'.k == Create(s.k, 1, 5)
    ensures Joined(s') && s'.k.schedLock == 0 && s'.k.rdy[5] == [1] && s'.k.cur == 2
      && forall q :: 0 <= q < 5 ==> s'.k.rdy[q] == []
  {
  }

  lemma JoinedRuns(s: Sys)
    requires Joined(s)
    ensures Joined(s.(k := s.k.(cur := 1, prioCur := 5)))
  {
  }

  lemma WaitBoosts(s: Sys)
    requires Joined(s) && s.k.cur == 1
    ensures var op := OpMutexPend(9, true, 0);
      Allowed(s, op) && !Broken(s, op) && Boosted(ObjectRuns.Step(s, op)) && ObjectRuns.Step(s, op).k.cur == 1
  {
    var k1 := Boost(s.k, Task(2), 5);
    BoostIs(s.k);
    PendIs(k1);
    hide Boost, Pend, Boosted;
    BoostedIs(s, Pend(k1, OnMutex, [9], 0));
  }

  lemma BoostedIs(s: Sys, k': K)
    requires IsMutex(s, 9) && s.objs[9] == Mutex(Task(2), 6, 1) && 2 in s.k.tasks && Runs(s.k) && s.k.cur == 1
      && s.k.tasks[1].prio == 5
    requires k' == Pend(Boost(s.k, Task(2), 5), OnMutex, [9], 0)
    ensures var op := OpMutexPend(9, true, 0); Allowed(s, op) && !Broken(s, op) && ObjectRuns.Step(s, op) == s.(k := k')
  {
    hide Boost, Pend;
  }

  lemma BoostIs(k: K)
    requires k.tasks == map[IDLE := NewTcb(PRIO_MAX - 1), 1 := NewTcb(5), 2 := NewTcb(6)] && Ready(k, [1], [2], [])
    ensures var k1 := Boost(k, Task(2), 5);
      && k1.tasks == map[IDLE := NewTcb(PRIO_MAX - 1), 1 := NewTcb(5), 2 := NewTcb(6).(prio := 5)]
      && k1.pend == k.pend && k1.cur == k.cur && k1.schedLock == k.schedLock && Ready(k1, [2, 1], [], [])
  {
    assert Without([2], 2) == [];
    assert [2] + [1] == [2, 1];
  }

  lemma PendIs(k: K)
    requires k.tasks == map[IDLE := NewTcb(PRIO_MAX - 1), 1 := NewTcb(5), 2 := NewTcb(6).(prio := 5)]
      && k.pend == map[9 := []]
    requires Ready(k, [2, 1], [], []) && k.cur == 1
    ensures var k' := Pend(k, OnMutex, [9], 0);
      && k'.tasks.Keys == {IDLE, 1, 2} && k'.tasks[IDLE] == NewTcb(PRIO_MAX - 1) && k'.tasks[2] == NewTcb(6).(prio := 5)
      && k'.tasks[1] == NewTcb(5).(st := PEND, pendOn := OnMutex, table := [PendData(9, false, NULL_MSG)],
        linked := true)
      && k'.pend == map[9 := [1]] && Ready(k', [2], [], []) && k'.schedLock == k.schedLock && k'.cur == 1
  {
    hide Objects, Without, Wheel.Insert;
    TableOfOne();
    ToEmpty(k.tasks, 1, 5);
    FirstOfTwo(k.rdy[5]);
  }

  lemma TableOfOne()
    ensures FreshTable([9]) == [PendData(9, false, NULL_MSG)] && Objects([PendData(9, false, NULL_MSG)]) == {9}
  {
    assert [PendData(9, false, NULL_MSG)][0].obj == 9;
  }

  lemma FirstOfTwo(l: seq<Tid>)
    requires l == [2, 1]
    ensures Without(l, 1) == [2]
  {
    assert l[1..] == [1];
  }

  // Task 1 was told to stop waiting; task 2 still has its priority.
  ghost predicate Outlived(s: Sys) {
    && s.k.tasks.Keys == {IDLE, 1, 2} && s.k.tasks[2] == NewTcb(6).(prio := 5)
    && s.k.tasks[IDLE] == NewTcb(PRIO_MAX - 1)
    && s.objs == map[9 := Mutex(Task(2), 6, 1)] && s.k.pend == map[9 := []] && s.k.cur == 2 && s.k.prioCur == 5
    && s.k.schedLock == 0
  }

  lemma AbortIs(s: Sys)
    requires Boosted(s) && s.k.cur == 2 && s.k.prioCur == 5
    ensures var op := OpAbort(9, false); Allowed(s, op) && !Broken(s, op) && Outlived(ObjectRuns.Step(s, op))
  {
    hide RdyInsert, Wheel.Remove;
    assert Chosen([1], false) == [1];
    assert CancelAll(s.k, [1], 9, PendAbort) == Cancel(s.k, 1, 9, PendAbort);
    assert Without([1], 1) == [];
  }

  lemma CanOutlive() returns (s: Sys)
    ensures Reachable(s) && SysInv(s) && Outlived(s)
  {
    hide SysInv, Reachable, Owned, Joined, Boosted, Outlived, Allowed, Broken, ObjectRuns.Step, Create;
    s := Owns();
    var s0 := s;
    NotYet(s);
    s := ThenTask(s, 1, 5);
    Joins(s0, s);
    JoinedRuns(s);
    s := ThenSched(s, 5);
    WaitBoosts(s);
    s := Then(s, OpMutexPend(9, true, 0));
    BoostedReady(s);
    s := ThenSched(s, 5);
    AbortIs(s);
    s := Then(s, OpAbort(9, false));
  }

  lemma NotYet(s: Sys)
    requires Owned(s)
    ensures 1 !in s.k.tasks
  {
  }

  lemma NewTcbs()
    ensures NewTcb(5).prio == 5 && NewTcb(6).prio == 6 && NewTcb(5).st == RDY && NewTcb(6).st == RDY
  {
  }

  lemma BoostedReady(s: Sys)
    requires Boosted(s)
    ensures Boosted(s.(k := s.k.(cur := 2, prioCur := 5)))
    ensures s.k.schedLock == 0 && s.k.rdy[5] == [2] && forall q :: 0 <= q < 5 ==> s.k.rdy[q] == []
  {
  }

  // The boost is left after the last post.
  lemma CanKeepBoost() returns (s: Sys)
    ensures Reachable(s) && SysInv(s) && IsMutex(s, 9) && s.objs[9].owner == Task(s.k.cur) && s.objs[9].nest == 1
    ensures s.k.cur in s.k.tasks && MutexPost(s, 9).k.tasks[s.k.cur].prio < s.objs[9].orig
  {
    hide SysInv, Reachable;
    s := CanOutlive();
  }

  // And OSMutexDel lowers the owner, which runs on with a stale OSPrioCur.
  lemma CanGoStaleByDel() returns (s: Sys)
    ensures Reachable(s) && SysInv(s) && PrioCur.Running(s.k) && IsMutex(s, 9)
    ensures var op := OpMutexDel(9, true);
      Allowed(s, op) && !Broken(s, op) && !PrioCur.UpToDate(KernelRuns.Sched(ObjectRuns.Step(s, op).k))
  {
    hide SysInv, Reachable, Outlived;
    s := CanOutlive();
    DeleteIs(s);
    s := Then(s, OpDeleteTask(1));
    DelStales(s);
  }

  ghost predicate Alone(s: Sys) {
    && s.k.tasks.Keys == {IDLE, 2} && s.k.tasks[2] == NewTcb(6).(prio := 5) && s.k.tasks[IDLE] == NewTcb(PRIO_MAX - 1)
    && s.objs == map[9 := Mutex(Task(2), 6, 1)] && 9 in s.k.pend && s.k.pend[9] == []
    && s.k.cur == 2 && s.k.prioCur == 5 && s.k.schedLock == 0
  }

  lemma DeleteIs(s: Sys)
    requires Outlived(s)
    ensures Allowed(s, OpDeleteTask(1)) && !Broken(s, OpDeleteTask(1)) && Alone(ObjectRuns.Step(s, OpDeleteTask(1)))
  {
    hide RdyRemove, Wheel.Remove;
    assert Without([], 1) == [];
  }

  lemma DelStales(s: Sys)
    requires SysInv(s) && Alone(s)
    ensures PrioCur.Running(s.k) && IsMutex(s, 9)
    ensures var op := OpMutexDel(9, true);
      Allowed(s, op) && !Broken(s, op) && !PrioCur.UpToDate(KernelRuns.Sched(ObjectRuns.Step(s, op).k))
  {
    hide SysInv, KernelRuns.Sched, ObjectRuns.Step;
    var op := OpMutexDel(9, true);
    assert PrioCur.StaysBest(s.k, PrioCur.Awoken(s.k, 9), 6, false);
    assert PrioCur.GoesStale(s, op);
    PrioCur.PrioCurTracks(s, op);
  }
}
